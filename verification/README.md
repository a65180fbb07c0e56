# A verified model of pushd

pushd is a clustered instant-messaging server: clients connect to any node, nodes forward
what is published to each other, and rooms, watermarks, messages and temporary audio/video
chats live in one document database. This project models the protocols over that shared
state and proves what they keep.

| file | what it models |
|---|---|
| `Mongo.dfy` | the array operators of the database |
| `FrameChats.dfy` | temporary audio/video chats as a machine with one program counter a connection; every database operation is one step |
| `FrameExact.dfy` | exactly when the frame chats' lists are right and a room has one chat, and how each fails in any state |
| `FrameHandlers.dfy` | the handlers of those commands as the source writes them, and the proof that an uninterrupted handler is a run of the machine |
| `Rooms.dfy`, `RoomServer.dfy` | room membership in three collections: the commands as functions, and as loops over the collections |
| `RoomRace.dfy` | the three updates of creating, joining and leaving a room, interleaved |
| `Watermarks.dfy` | acks, read watermarks, offline messages |
| `MemberCache.dfy` | the per-node member cache, commands atomic |
| `CacheRace.dfy` | the same cache with the separate steps of loads, additions, unsubs, disolve, evictions and joins that do not tell it interleaved |
| `CacheCommands.dfy` | whole commands as uninterrupted runs of that machine |
| `Push.dfy` | pushing to the sessions of one node |
| `Cluster.dfy` | publishing from each node's own cache, queueing, fan-out and receipt across nodes; peers and retries |
| `ClusterProgress.dfy` | what a publish records, that only failed writes lose copies, and that everything published arrives in the end |
| `Storage.dfy` | the two-stage storage pipeline |
| `Sessions.dfy` | the session table, with a close whose compare and delete are two steps |
| `RoundRobin.dfy` | the compare-and-swap choice of an offline sender |
| `Wire.dfy`, `Text.dfy` | binary frames; command parameters, published lines, forwarded payloads |
| `RoomIds.dfy`, `Mail.dfy` | canonical room ids; mailboxes |

A machine is a total function `Do` from a state and a step to a state; a step that its
connection is not ready for changes nothing, so every list of steps is a run, and a statement
about `Run` is one about every interleaving. Fields called history record who did what; no
behaviour depends on them, except that object ids are not issued twice. Code that works in
place is a class whose methods are proved against the function of the machine, or of the
specification, that the lemmas are about. For each machine, lemmas about uninterrupted commands
say what its steps do, without naming them.

Assumed of the database: an operation on one document is atomic; an insert of an existing id
fails; a single update fails when nothing matches, a bulk update skips such documents; `$lt`
does not match a missing field; `$pull` removes every copy.

## Where the code does not do what it says

The model follows the code in each case. Where a promise can fail, one lemma says exactly when,
and another how it fails in any state where it can.

- The comment at engine/cmd_interface.go:641 relies on one live frame chat a room. An apply gives
  a room a second one exactly if the room has one by the time of the insertion
  (`FrameExact.OneEachExactly`); there is never a second one if nobody applies to a room while
  another connection is about to insert (`FrameExact.OneEachRun`), and any two idle connections
  that both find no chat can make two (`FrameExact.TwoAtOnce`). The list properties do not need it.
- A chat that is left, and so deleted and cleaned up, before the write of its members' lists stays
  in those lists for good. The lists are exact at rest if and only if no such late write happened
  (`FrameExact.ListsExactly`), and there is one in any run in which the only participant leaves
  between insertion and write (`FrameExact.LeftTooSoon`). It takes a client that names the chat before it is announced
  (`FrameChats.ListsExact`).
- `join_room` does not check that the user exists, and then the three collections differ
  (`Rooms.JoinRoomKeeps` gives the exact condition).
- The three updates of a join or a leave are separate. The collections stay inverse exactly while
  no connection writes against what the room says by then with nobody left to put it right
  (`RoomRace.InvStep`); after such a write they disagree until another command starts
  (`RoomRace.LateIsReal`). A leave that overtakes a join leads to one (`RoomRace.JoinOvertaken`).
- The member cache of a node goes wrong through the timing of single steps. One lemma says of every
  step exactly when it does harm (`CacheRace.InvStep`), one that without harm every entry holds the
  stored members at rest (`CacheRace.NoAdditionLost`), and one that every harmful step can leave an
  entry wrong for good (`CacheRace.HarmIsReal`). In particular:
  - Neither `subs` nor `join_room` touches the cache (`CacheRace.BareExactly`,
    `CacheRace.SubsRacesWithPublish`). A room emptied by `unsubs` keeps its empty cache entry and,
    made again, is silent on that node (`MemberCache.RecreatedRoomIsSilent`).
  - An eviction between `add_into_room`'s test and its addition makes an entry that misses members
    (`CacheRace.EvictExactly`, `CacheRace.EvictionRacesWithAdd`).
  - The comment at engine/cmd_interface.go:990-992 asks about a load that holds old data when
    `unsubs` cleans the cache (`CacheRace.RemoveExactly`, `CacheRace.RemovedMemberStays`).
- `GetUserIdsByChannel` puts as many empty strings in front of the ids as there are ids
  (engine/offpush.go:230-236). This is harmless exactly while no session is mapped under the
  empty id (`Push.PaddedPush`), and in no state of any run is one
  (`Sessions.NobodyUnderEmptyId`).
- `AddClient` takes no lock (engine/pubsub.go:48-50), so an older session that closes can unmap a
  newer one (`Sessions.OlderUnmapsNewer`); `Sessions.KeptExactly` shows that this is the only way,
  in every run (`Sessions.AlwaysKeptExactly`).
- Binary messages are forwarded as `vido`, and peers handle only `push_bin_msg`
  (engine/pubsub.go:178, engine/s2s_server.go:148): they are dropped (`Text.BinaryAtPeer`).
- With a write buffer of capacity 0 and the every-second policy nothing is ever stored
  (`Storage.NothingStoredUnbuffered`).
- Room ids are joined with underscores. Two lists have the same id exactly if their sorted ids, cut
  at the underscores, give the same pieces (`RoomIds.SameExactly`).
- `GetLettersByType` ignores the type (engine/mail/api.go:60-90).
- CMD_CREATEROOM returns in its first loop iteration (engine/cmd_interface.go:406-409) and
  CMD_LEAVEROOM swaps its arguments (engine/cmd_interface.go:433); the room functions they
  should call are modelled, the two commands are not.

## Model

| member | source | states |
|---|---|---|
| FrameChats.LeavesExactly | engine/cmd_interface.go:681-846 | in any state, a step takes a participant's chat away, or the participant out of it, exactly when it is a pull of that same user from it or an apply giving its own chat up |
| FrameChats.ParticipantKeepsChat | engine/cmd_interface.go:603-846 | whatever all other connections do in between, a user who is in a chat stays in it and the chat lives until a pull of that user (or the proposer's apply gives the chat up) |
| FrameChats.NoOrphan | engine/cmd_interface.go:740-774 | in every reachable state a live chat without participants has a connection between its pull and its conditional delete |
| FrameChats.DismissedOnce | engine/client.go:94-126 | a chat is announced as dismissed at most once and never while it lives; at rest every chat that is gone, and was not given up by its apply, has been announced |
| FrameChats.ListsAtRest | engine/cmd_interface.go:603-679 | at rest a user's list has no duplicates and holds exactly the live chats of the user's rooms and the ones that were written after their clean-up |
| FrameChats.ListsExact | engine/cmd_interface.go:731-784 | clients that leave only chats that have been announced never make an entry stale: the lists at rest are exactly the live chats of the user's rooms, with any number of chats a room |
| FrameExact.ListsExactly | engine/cmd_interface.go:656-674 | at rest all lists are exact if and only if no apply wrote its lists after its chat was gone and cleaned up |
| FrameExact.ShowsStep | engine/cmd_interface.go:656-674 | one step makes an entry stale if and only if it is such a late write |
| FrameExact.LeftTooSoon | engine/cmd_interface.go:656-784 | in any state of any run: if the only participant leaves between insertion and write of the lists, the chat is gone and every member of the room has it listed in every later state |
| FrameExact.OneEachExactly | engine/cmd_interface.go:630-655 | a step leaves the rooms with at most one live chat each if and only if it is not an insertion into a room that has one |
| FrameExact.OneEachRun | engine/cmd_interface.go:630-655 | at most one live chat a room in every run in which nobody applies to a room while another connection is about to insert for it |
| FrameExact.TwoAtOnce | engine/cmd_interface.go:630-655 | in any state, two idle connections that apply to a room without a chat before either inserts both make one |
| FrameChats.InvStep | engine/client.go:84-132 | every step of every connection keeps the invariant: who is responsible for an unlisted, an empty, a deleted and an unannounced chat |
| FrameHandlers.OutIsRun | engine/cmd_interface.go:731-784 | an out nobody interrupts, as a run of the machine, is: pull; if that was the last user, delete, clean the lists, announce |
| FrameHandlers.CloseIsRun | engine/client.go:84-132 | an undisturbed disconnect, as a run of the machine, is one such departure for each listed chat, in order |
| FrameHandlers.ApplyIsRun | engine/cmd_interface.go:603-679 | an undisturbed apply leaves nothing if the room has a chat or the bulk write fails, and otherwise one new chat in all members' lists |
| FrameHandlers.AppliedIs | engine/cmd_interface.go:630-674 | the new chat has the proposer as its only participant, and exactly the room's members have it at the end of their lists; after a failed bulk write everything is as before |
| FrameHandlers.LeaveIs | engine/cmd_interface.go:731-784 | a departure takes every copy of the user out of the chat and leaves everybody else in; the last one out takes the chat out of exactly its members' lists and announces it |
| FrameHandlers.JoinIsStep | engine/cmd_interface.go:681-729 | join and accept are one atomic step of the machine, after which the user takes part, and everybody who took part still does |
| FrameHandlers.Database.FrameApply | engine/cmd_interface.go:603-679 | created exactly if the room had no chat and the bulk write succeeded, with the proposer in the chat; write failed exactly if it did not succeed; every other reply leaves the database as it was |
| FrameHandlers.Database.FrameJoin | engine/cmd_interface.go:681-705 | the handler appends the user, and fails exactly when the chat is gone |
| FrameHandlers.Database.FrameOut | engine/cmd_interface.go:731-784 | the handler does what an undisturbed departure does; it reports the end exactly when the user was the only participant |
| FrameHandlers.Database.CleanUp | engine/cmd_interface.go:794-846 | the clean-up removes the chat from all members' lists and announces it |
| FrameHandlers.Database.ClearFrameChat | engine/client.go:84-132 | the loop leaves every listed chat, and no such chat has the user in it afterwards |
| Rooms.CreateRoomKeeps | engine/im.go:13-43 | creating a room keeps the three collections mutual inverses, without empty rooms or duplicate members |
| Rooms.JoinRoomKeeps | engine/im.go:45-88 | joining keeps them inverse if and only if the room is missing (an error) or all joining users have a document |
| Rooms.LeaveRoomKeeps | engine/im.go:90-132 | leaving keeps them inverse, and removes a room left empty |
| Rooms.CommandKeeps | engine/cmd_interface.go:894-1030 | a whole command keeps them inverse if and only if it is not a join_room of an unknown user |
| Rooms.ConsistentRun | engine/cmd_interface.go:413-425 | so they are inverse after every run of whole commands without such a join_room |
| Rooms.LeaveUndoesJoin | engine/im.go:45-132 | a newcomer's join followed by a leave restores rooms and watermarks exactly, and the user-to-room lists as relations |
| Rooms.DisolveErases | engine/im.go:134-151 | disolving erases every trace of that room and leaves all other rooms alone |
| Rooms.NewUserMakesRoom | engine/cmd_interface.go:1013-1030 | create_user gives the user a document and changes no other, and a subs by that user alone then makes any room that does not exist |
| RoomServer.Server.CreateTheRoom | engine/im.go:13-43 | the three updates in sequence give the specified state; fails exactly when the room exists |
| RoomServer.Server.JoinTheRoom | engine/im.go:45-88 | the update and the two bulk loops give the specified state; fails exactly when the room is missing |
| RoomServer.Server.LeaveTheRoom | engine/im.go:90-132 | likewise for leaving |
| RoomServer.Server.DisolveTheRoom | engine/im.go:134-151 | collecting the members and letting them leave gives the specified state |
| RoomServer.Server.SubsCommand | engine/cmd_interface.go:938-976 | the command's checks and loops give the specified state; it succeeds exactly with three parameters or more, a new room and known users only |
| RoomServer.Server.AddUsersCommand | engine/cmd_interface.go:894-935 | likewise for adding users: exactly with two parameters or more, an existing room and known users only |
| RoomServer.Server.UnsubsCommand | engine/cmd_interface.go:978-997 | likewise for leaving |
| RoomServer.Server.DisolveCommand | engine/cmd_interface.go:999-1011 | likewise for disolving |
| RoomServer.Server.CreateUserCommand | engine/cmd_interface.go:1013-1030 | a parameter error exactly for an empty id, success exactly for a new one; the user has a document afterwards and all others theirs |
| RoomServer.Server.JoinRoomCommand | engine/cmd_interface.go:413-425 | likewise for join_room, which does not check the user |
| RoomServer.Server.AckMsg | engine/client.go:134-142 | one conditional update: raises an existing lower watermark, else nothing |
| Watermarks.Untouched | engine/client.go:134-142 | a command that does not change a membership leaves its watermark alone, unless it is an ack of a later time; so an ack never makes one after a leave |
| Watermarks.WatermarkIsMax | engine/im.go:53-66 | while a membership lasts its watermark is the maximum of the starting time and all times acknowledged |
| Watermarks.AnyOrder | engine/client.go:134-142 | that maximum does not depend on the order of the acks |
| Watermarks.TouchSets | engine/cmd_interface.go:894-1011 | subs, add_into_room and join_room set the watermark to the time of the user's last join in the command; unsubs and disolve remove it |
| Watermarks.WatermarkExactly | engine/im.go:53-66 | after any run each watermark is the maximum of the user's last join time and the times acknowledged since, and who was removed since, or has no document, has none |
| Watermarks.MarkedAreMembers | engine/im.go:45-132 | after any run only members have a watermark, and all of them do unless join_room has joined somebody without a document |
| Watermarks.OfflineExactly | engine/cmd_interface.go:1032-1057 | after any run, for everyone with a watermark, the room's log is own messages, others' up to that maximum, and what offline_msg returns for the room, which is each message of others above it as often as logged; without a watermark nothing is returned |
| Watermarks.NothingForOthers | engine/cmd_interface.go:1032-1057 | who is not in a room gets nothing from it |
| Watermarks.JoinEachSets | engine/im.go:53-66 | users who join one by one: the time of the last place in the list counts |
| Watermarks.LeaveClears | engine/im.go:102-111 | a leave removes the watermark |
| Watermarks.LogSplits | engine/storage/storage_mgo.go:38-52 | for any threshold: a channel's log is, as a multiset, own messages, others' at or below it, and what the query above it returns |
| Watermarks.FilterCounts | engine/storage/storage_mgo.go:38-52 | each message asked for is returned as often as it is logged |
| Watermarks.OfflineAfterAck | engine/cmd_interface.go:1032-1057 | after an ack exactly the formerly offline messages above it are offline, in the same order |
| Watermarks.OfflineIsHistoryOfOthers | engine/cmd_interface.go:1059-1080 | what offline_msg returns is the history of the same range without the user's own messages |
| Watermarks.NothingLeftAfterAck | engine/cmd_interface.go:1032-1057 | acknowledging the latest message returned for a channel takes that channel out of the next reply |
| Watermarks.OfflineMsg | engine/cmd_interface.go:1032-1057 | the reply has a channel exactly if others have written to it above the user's watermark, and for it exactly those messages, as often as logged and in log order |
| Watermarks.FilterFinds | engine/storage/storage_mgo.go:38-52 | a query returns what it asks for at all its places in the log, in order, and nothing else |
| MemberCache.StoredAfter | engine/cmd_interface.go:894-1011 | which members each command adds to and removes from each room |
| MemberCache.LoadAndEvict | engine/offpush.go:285-327 | a publish caches the members of an uncached room that exists, an eviction uncaches, and other nodes' commands leave the cache alone |
| MemberCache.SoundExactly | engine/offpush.go:184-241 | an event keeps every cached set inside the stored members if and only if it is not another node's removal of a member cached here |
| MemberCache.SoundRun | engine/offpush.go:285-327 | over every run on one node the cache never names a non-member |
| MemberCache.ExactExactly | engine/cmd_interface.go:927-1009 | an event keeps the cache exact if and only if no subs or join_room adds to a cached room a user it lacks, and no other node changes a cached room |
| MemberCache.ExactRun | engine/cmd_interface.go:927-1009 | over every run on one node without join_room and without re-creating a room that unsubs emptied, every cached set equals the stored one |
| MemberCache.RecreatedRoomIsSilent | engine/cmd_interface.go:938-997 | on any node that has a room cached, unsubs of all members followed by a subs of the room leaves it cached as empty |
| MemberCache.ChannelToUserIds.AddAllUserIds | engine/offpush.go:199-211 | the loop adds exactly the given users, making the entry if needed |
| MemberCache.ChannelToUserIds.AddUserId | engine/offpush.go:189-197 | adds one user, making the entry if needed |
| MemberCache.ChannelToUserIds.RemoveUserId | engine/offpush.go:213-221 | removes one user; a missing entry stays missing |
| MemberCache.ChannelToUserIds.GetUserIdsByChannel | engine/offpush.go:223-241 | n empty strings followed by the n cached users, each once |
| MemberCache.ChannelToUserIds.LoadUserIdsFromDatabase | engine/offpush.go:298-327 | returns the stored list in order and adds it to the cache; fails without touching the cache if the room is missing |
| MemberCache.ChannelToUserIds.LoadUserIdsByChannel | engine/offpush.go:285-296 | the cached users if there is an entry, else the stored list |
| MemberCache.ChannelToUserIds.AfterAddUsers | engine/cmd_interface.go:927-933 | adds to an existing entry, reloads a missing one, as the whole command has it |
| MemberCache.ChannelToUserIds.AfterUnsubs | engine/cmd_interface.go:978-997 | the loop removes exactly the given users from the entry, as the whole command has it |
| MemberCache.ChannelToUserIds.AfterDisolve | engine/cmd_interface.go:999-1011 | the entry goes, as the whole command has it |
| CacheRace.NoAdditionLost | engine/offpush.go:163-327 | however loads, additions, unsubs, disolves, evictions and joins that do not tell the cache interleave, without a harmful step every entry that is cached at rest equals the stored members |
| CacheRace.InvStep | engine/cmd_interface.go:894-1011 | a step keeps every difference between an entry and the stored members on its way out if and only if it does no harm, as spelled out for each kind of step |
| CacheRace.HarmIsReal | engine/cmd_interface.go:894-1011 | every harmful step can do its harm: the commands that have begun can bring about a state in which some entry is wrong whatever they still do |
| CacheRace.NotOkBreaks | engine/offpush.go:163-241 | in any state a difference that nobody is going to remove can become one for good, so the invariant asks for nothing it need not |
| CacheCommands.AddAlone | engine/cmd_interface.go:920-933 | an uninterrupted add_into_room makes every listed user a member; a cached entry gains exactly those users, an uncached one holds all members afterwards |
| CacheCommands.LoadAlone | engine/offpush.go:285-327 | an uninterrupted load caches the stored members of an uncached room that exists, and does nothing else |
| CacheCommands.UnsubsAlone | engine/cmd_interface.go:978-997 | an uninterrupted unsubs takes exactly the listed users out of the room and out of a cached entry, and the room away if it is empty |
| CacheCommands.DisolveAlone | engine/cmd_interface.go:999-1011 | an uninterrupted disolve removes room and entry and nothing else |
| CacheCommands.EnterAndEvict | engine/cmd_interface.go:413-425 | a join of subs or join_room adds the user to the room only; an eviction drops the entry only |
| CacheRace.BareExactly | engine/cmd_interface.go:938-976 | a join of subs or join_room is harmless if and only if the user is a member already, or somebody will put the user into the entry or drop it, or there is neither an entry without the user nor anybody about to make one |
| CacheRace.EvictExactly | engine/offpush.go:163-211 | an eviction is harmless if and only if no member is missing from what somebody is about to make a new entry of, without somebody else who will put that member in; so always while nobody is about to make one |
| CacheRace.RemoveExactly | engine/cmd_interface.go:978-997 | unsubs cleans the cache without harm if and only if none of its users has joined again without somebody to put the user back, and none is still held without somebody else to take the user out |
| CacheRace.ForcedReloadNeeded | engine/cmd_interface.go:927-933 | without the forced reload, in any state in which a load read the members before an addition and the addition tests before the load caches them, the addition is lost |
| CacheRace.SubsRacesWithPublish | engine/cmd_interface.go:938-976 | in any state in which a load has read the members of an uncached room, a join by subs or join_room leads to an entry that misses the member |
| CacheRace.EvictionRacesWithAdd | engine/offpush.go:199-211 | in any state an eviction between test and addition leads to an entry that misses every member not in that addition |
| CacheRace.EntrySeenEmpty | engine/offpush.go:171-211 | in any state an entry just made is empty, and a publish that finds it does not load |
| CacheRace.RemovedMemberStays | engine/cmd_interface.go:990-992 | in any state in which a load holds a member removed since, cleaning the cache before the load fills it leaves a removed member cached |
| RoomRace.InvStep | engine/im.go:45-132 | a step keeps every difference between the collections about to be put right if and only if it is not a write of a join or leave that another one has overtaken for good |
| RoomRace.AgreeRun | engine/im.go:13-132 | without such writes, from rest to rest the three collections stay mutual inverses, however their updates interleave |
| RoomRace.NoEmptyRoomAtRest | engine/im.go:97-99 | in every interleaving an empty room has a connection about to remove it, so at rest there is none |
| RoomRace.JoinAlone | engine/im.go:45-88 | an uninterrupted join puts exactly the given users into the room, in all three collections |
| RoomRace.CreateAlone | engine/im.go:13-43 | an uninterrupted creation makes the room with its owner, in all three collections |
| RoomRace.LeaveWhole | engine/im.go:90-132 | an uninterrupted leave takes exactly the given users out of all three collections, and the room away if it is empty |
| RoomRace.LateIsReal | engine/im.go:45-132 | after such a write, whatever the commands that have begun do, the three collections disagree until another command starts |
| RoomRace.JoinOvertaken | engine/im.go:45-132 | in any state a leave that overtakes a join of the same user leaves watermark and list of a room the user is not in |
| Push.PushToNativeClient | engine/pubsub.go:190-204 | the loop writes to a session exactly if a listed user is mapped to it and it is not the owner's |
| Push.TargetsAre | engine/pubsub.go:190-204 | a session is written to exactly when some listed user is mapped to it and it is not the owner's |
| Push.OneCopyEach | engine/pubsub.go:190-204 | from a duplicate-free list, and a table in which no connection is mapped twice, no session gets two copies |
| Push.TargetsPermuted | engine/pubsub.go:190-204 | the order of the list does not matter |
| Push.PaddedPush | engine/offpush.go:223-241 | the padded list reaches the same sessions, equally often, if and only if the padding is empty or no session but the owner's is mapped under the empty id |
| Push.PublishHere | engine/pubsub.go:161-204 | with an exact cache and any table a run can have, each online member's session gets the message exactly once, the owner's and everybody else's never |
| Cluster.InvStep | engine/pubsub.go:161-217 | every step keeps exactly one copy of each message for each of its origin's peers, somewhere between publisher and receiver |
| Cluster.PushReaches | engine/pubsub.go:190-204 | whatever a node's load returns, the stored list or a padded cached one in any order, the push writes to no session twice, and from an exact cache to the stored members' sessions |
| Cluster.CopiesExactly | engine/s2s_server.go:168-178 | in every state of every run, each node pushing from its own cache, a session has one copy of a message if it is wanted there and the message was published or has arrived there, and otherwise none |
| Cluster.AtMostOnce | engine/s2s_proxy.go:42-56 | no run gives a session two copies, whatever the nodes have cached |
| Cluster.ExactlyOnce | README.md:36 | with every node knowing every other, once nothing is on its way to a node each wanted session there has the message exactly once, exactly if the write to that node did not fail |
| ClusterProgress.EveryoneIsServed | README.md:36 | when nothing can be carried any further, each wanted session on a node has the message exactly once and every other one never, unless a write of it to that node has failed |
| ClusterProgress.LostByFailure | engine/router.go:116-135 | a copy is lost only by a failed write of that message to that node |
| ClusterProgress.StuckIsDrained | engine/s2s_proxy.go:42-56 | when no enqueue, fan-out, write or receipt can do anything, nothing of any message is on its way |
| ClusterProgress.DrainEnds | engine/s2s_proxy.go:42-56 | once nothing more is published, only so many of these steps can still do something |
| ClusterProgress.PublishIs | engine/pubsub.go:161-167 | a publish under a new id records its node, channel and owner, pushes there and queues one tuple; nothing else records a message |
| ClusterProgress.EnqueueIs | engine/s2s_proxy.go:33 | a tuple for all known peers goes to the end of a queue with fewer than a hundred, and has to wait otherwise |
| ClusterProgress.PushCaches | engine/offpush.go:285-327 | a push caches the stored members of an uncached channel |
| Cluster.OnlyFromOrigin | engine/router.go:63-69 | a message travels at most once to each node, from its origin to the origin's peers only, never to itself and never onwards |
| Cluster.Peer.WriteFormatMsg | engine/router.go:116-135 | the message goes out once, on the connection current at the first success, with nothing tried after it, or not at all when the first write and both retries fail |
| Cluster.Router.ConnectPeer | engine/router.go:63-69 | a node never becomes its own peer; a known peer's connection is replaced |
| Cluster.Router.WatchPeers | engine/etcClient.go:18-32 | after an announcement exactly the announced nodes but itself have been added, and nobody removed |
| Cluster.Router.ForwardSet | engine/pubsub.go:207-217 | the tuple goes to every known peer and not to the node itself; nothing goes out in standalone mode or with an empty command or message |
| Storage.Conserved | engine/storage/storage.go:62-121 | in every run driver ++ batch ++ buffer ++ writer's hand ++ queue is the sequence of the messages whose sends went through, with both capacities kept |
| Storage.SentStep | engine/storage/storage.go:119-121 | a send into a queue with room, or to a writer that waits, puts its very message behind all others; any other send changes nothing |
| Storage.FlushAlone | engine/storage/storage.go:64-88 | an uninterrupted flush hands over the whole buffer in order |
| Storage.WriterAlone | engine/storage/storage.go:104-116 | the writer's message is stored at once, or goes to the end of a buffer with room, or stays in its hand |
| Storage.Pipeline.EnqueueMsg | engine/storage/storage.go:119-121 | a send appends a message with the fields it is given, or waits exactly at a full queue with a busy writer |
| Storage.ReceiveNeverBlocks | engine/storage/storage.go:64-88 | in every run each receive of the flusher finds a message |
| Storage.StepDrains | engine/storage/storage.go:62-116 | every step that does something, other than a new message, lowers a measure |
| Storage.DrainEnds | engine/storage/storage.go:62-116 | once producers stop, no more such steps than the measure says can follow |
| Storage.StuckIsDrained | engine/storage/storage.go:62-116 | when none of them can do anything, the driver has every message that was sent, in order |
| Storage.PoliciesAgree | engine/storage/storage.go:104-116 | drained, both flush policies have handed over the same log: what was sent |
| Storage.NothingStoredUnbuffered | engine/storage/storage.go:42-50 | with an unbuffered write buffer and the every-second policy no run stores anything |
| Storage.Pipeline.FlushTick | engine/storage/storage.go:64-88 | one tick hands over exactly what was in the buffer when it began, in order, and leaves what arrived meanwhile |
| Storage.Pipeline.WriteOne | engine/storage/storage.go:104-116 | one round of the writer is the machine's take, store and put; it waits with its message in hand exactly at a full buffer |
| Storage.Pipeline.StoreMulti | engine/storage/storage_mgo.go:28-36 | one insert of all records, in order |
| Sessions.NobodyUnderEmptyId | engine/cmd_interface.go:1125-1135 | in every state of every run, also with ids set twice and closes half done, nobody is mapped under the empty id |
| Sessions.EveryTableServes | engine/pubsub.go:38-73 | in every state of every run no connection is mapped under two ids and none under the empty one, which is what a push needs of the table |
| Sessions.EntryIsLatestOrAbsent | engine/client.go:160-202 | at rest a user's entry is the session initialised last, alive and mapped under its own id, or absent, even when AddClient comes between a compare and its delete |
| Sessions.KeptExactly | engine/pubsub.go:48-73 | in every run a step unmaps a user's live latest session if and only if it is the delete half of another session's close under the same id |
| Sessions.AlwaysKeptExactly | engine/client.go:65-80 | in every run, also with ids set twice and identities cleared: a user's last session stays mapped while it lives, in all states, if and only if no such delete happens |
| Sessions.TableExact | engine/client.go:65-80 | where each connection sets one id and closes as a client, without such a delete, at rest a user is mapped to a session if and only if it is the one initialised last and has not closed |
| Sessions.AtomicNeverUnmaps | engine/pubsub.go:60-73 | with compare and delete undivided there is no such delete in any run |
| Sessions.StartExactly | engine/client.go:160-202 | a new connection that sets an id, authenticates and is initialised is mapped under that id in place of whoever was, and nobody else's entry changes |
| Sessions.SetAgain | engine/cmd_interface.go:1125-1135 | a second id is taken but not mapped; clearing the identity changes no entry |
| Sessions.OlderUnmapsNewer | engine/pubsub.go:48-73 | in any state a session mapped between the compare and the delete of an older one of the same user gets unmapped |
| Sessions.SecondIdLeavesGhost | engine/cmd_interface.go:1125-1135 | in any state a mapped client that sets another id and closes leaves a dead session mapped under the first |
| Sessions.CloseExactly | engine/client.go:65-80 | an undisturbed close frees its own entry under its current id if it still is a client, and no other |
| Sessions.LateInitialise | engine/client.go:160-173 | an initialisation after the close maps nothing |
| Sessions.UuidClientMap.Remove | engine/pubsub.go:60-73 | removes the entry exactly if it is this client's |
| Sessions.UuidClientMap.AddClient | engine/pubsub.go:48-50 | replaces whatever was mapped |
| Sessions.Client.SetTheUuid | engine/cmd_interface.go:1125-1135 | takes the second piece of its line if it is not empty, and nothing else; the id taken is non-empty and space-free |
| Sessions.Client.InitChatEnv | engine/client.go:160-202 | maps the client and makes it ready only from the created state |
| Sessions.Client.CloseClient | engine/client.go:65-80 | exactly the client's own entry goes, and only if it is authenticated as a client |
| Sessions.Client.ClearTheIdentity | engine/client.go:45-63 | the flag operations set one bit or clear both |
| RoundRobin.InRange | engine/offpush.go:34-47 | in every run of any number of threads the index and all positions handed out are in range |
| RoundRobin.FailureMeansProgress | engine/offpush.go:34-47 | a swap fails only if another thread has obtained a sender since the load |
| RoundRobin.SwapIs | engine/offpush.go:34-47 | a swap takes the next position exactly if it finds the index that was loaded, and otherwise starts again |
| RoundRobin.ObtainAlone | engine/offpush.go:34-47 | an uninterrupted obtain hands out the position after the index, first again after the last, and leaves the index there |
| RoundRobin.EachOnceInAWindow | engine/offpush.go:34-47 | any `size` consecutive obtains give each sender exactly once |
| RoundRobin.CountIs | engine/offpush.go:34-47 | how often each sender has been handed out after n obtains |
| RoundRobin.Fair | engine/offpush.go:34-47 | in every run two senders' counts differ by at most one |
| RoundRobin.OffSenderPool.ObtainOneOffSender | engine/offpush.go:34-47 | the retry loop ends once interference does and returns the sender after the index its successful swap found |
| RoundRobin.OffSenderPool.InitPool | engine/offpush.go:243-274 | the slots are filled with the addresses in turn up to the first connection that cannot be opened; succeeds exactly if there is an address and all can |
| Wire.ServerExact | engine/s2s_server.go:81-130 | the peer parser accepts exactly the big-endian length-prefixed encodings of a non-empty header and body, and returns what was encoded |
| Wire.ClientExact | engine/cmd_interface.go:110-156 | whatever the peer parser accepts the client parser accepts with the same command and body; beyond that only a header and at most four ignored bytes |
| Wire.Int32OfBe32 | engine/s2s_server.go:81-130 | a non-negative 32-bit length survives its encoding |
| Wire.Be32OfInt32 | engine/s2s_server.go:81-130 | four bytes that read as non-negative are the encoding of what they read as |
| Wire.BigEndian | engine/s2s_server.go:81-130 | a length is read with the most significant byte first, in two's complement |
| Wire.NewServerCmdline | engine/s2s_server.go:81-130 | the checks in order, every slice in range for every input |
| Wire.NewCmdline | engine/cmd_interface.go:110-156 | likewise for clients |
| Text.SplitJoin | engine/cmd_interface.go:160-214 | splitting undoes joining when only the last part may hold spaces |
| Text.JoinSplit | engine/cmd_interface.go:160-214 | joining undoes splitting |
| Text.ParseItoa | engine/pubsub.go:135-148 | a printed number parses back exactly if it has 64 bits |
| Text.PeerRecovers | engine/s2s_server.go:168-178 | the peer recovers channel and message if and only if the channel is space-free |
| Text.SentIsPublished | engine/cmd_interface.go:160-214 | a line made of flag, channel, id and text that is not a logged resend is published in that channel under that id; every peer gets that channel and the line, and a reader of it channel, author, time, id and text |
| Text.LoggedIsResent | engine/cmd_interface.go:180-190 | a resend of a message that is in the log is acknowledged under its id and not published |
| Text.SendReplies | engine/cmd_interface.go:160-190 | parameter error exactly for fewer than four parts or a third that is no number; resent exactly for the flag Y and a logged message of that channel, user and id; else published in the second part's channel under the third's id |
| Text.SentIsRecovered | engine/cmd_interface.go:160-214 | whatever sendmsg publishes, every peer recovers the origin's channel and line, and a client with a space-free id the six parts |
| Text.SentByAccepted | engine/cmd_interface.go:1125-1135 | for every id that setuuid accepts, a reader of a line published by sendmsg gets back the channel, that id, the numbers and the text sent |
| Text.AcceptedIs | engine/cmd_interface.go:1125-1135 | setuuid takes the second piece of its line, whatever stands around it, if it is not empty; a line without a space is refused |
| Text.JoinSplitAll | engine/cmd_interface.go:1125-1127 | splitting a line loses nothing and keeps the order |
| Text.LineDetermines | engine/pubsub.go:135-148 | for space-free channels and user ids, a published line determines all that went into it |
| Text.ScanSpace | engine/s2s_server.go:149-157 | the byte scan finds the first space, or 0 if there is none |
| Text.ProcessCmd | engine/s2s_server.go:132-182 | which action, error or silence each peer command leads to; what a pushed binary message is split into |
| Text.BinaryAtPeer | engine/pubsub.go:170-180 | a forwarded binary message is ignored, and would be recovered under the name the peer handles |
| RoomIds.SameForPermutations | engine/im.go:157-160 | permuted user lists give the same room id |
| RoomIds.SameOnlyForPermutations | engine/im.go:157-160 | without underscores in ids, two non-empty lists give the same id if and only if they are equal as multisets |
| RoomIds.IdOfSorted | engine/im.go:157-160 | the id of a sorted list is its elements behind a fixed prefix, with underscores between |
| RoomIds.LeqIs | engine/im.go:157-160 | the sorting order: the smaller character at the first difference decides, and a prefix comes first |
| RoomIds.SameExactly | engine/im.go:157-160 | for any ids, two non-empty lists give the same room id if and only if their sorted ids, cut at the underscores, give the same pieces |
| RoomIds.UnderscoresCollide | engine/im.go:157-160 | any two ids joined by an underscore make a third whose own room has the id of theirs |
| RoomIds.GenerateRoomId | engine/im.go:157-160 | sorts its argument in place and returns the id of what it held |
| Mail.MailboxExact | engine/mail/api.go:38-103 | after any sequence of sends and acks a mailbox holds exactly the letters sent to the user and not acknowledged later, in send order |
| Mail.CopiesAre | engine/mail/api.go:38-56 | a letter arrives once for each time the user is listed |
| Mail.Mailboxes.SendLetterToMail | engine/mail/api.go:38-56 | one copy at the end of the mailbox for each time a user is listed |
| Mail.Mailboxes.GetLettersByType | engine/mail/api.go:60-90 | the whole mailbox in order, whatever the type |
| Mail.Mailboxes.RemoveLetter | engine/mail/api.go:92-103 | one malformed id and nothing is removed; else exactly the listed letters |

## Left out

- Network and process plumbing: TCP and HTTP loops, long polling, the stats server, configuration, ZooKeeper registration, JPush sending, JSON, logging and metrics.
- `Subscribe`, `Unsubscribe`, `UnsubscribeAllChannels` and the message cache: their bodies are commented out.
- `Router.cache` and the commands that maintain it: forwarding does not look at it. Delivery of binary messages on other nodes, which never happens.
- `chanUuidsQueue`, `bindUuidToChannel`, `rmUuidFromChannel`: nothing calls what feeds them.
- CMD_CREATEROOM and CMD_LEAVEROOM as commands; tokens and access lists; retracting messages; server notices.
- Database outages and partial failures of bulk writes. A bulk write is one atomic step in `FrameChats` and `RoomRace` and one loop without interruption in `RoomServer`.
- Channel ids that are empty or hold `.` or `$`: watermarks are stored under a dotted key made from them.
- The interplay of frame chats with the member cache, and the notices other than the final one.
- Frame chats, the cluster, the cache race, the storage machine and the session machine run on values: which thread holds which lock, and updates in place, show only as the order of steps. The handlers, loops and tables beside them are classes.
- FrameHandlers.Database.FrameApply: object ids are numbers, so the check that an id is 24 hex digits is not there; `FrameJoin` and `FrameOut` likewise.
- CacheRace.InvStep: reading the members, adding a whole list to an entry, and removing all listed users from it are one step each; a disolve's list is any list. Commands of other nodes show as joins only; their removals are in `MemberCache.SoundExactly`.
- RoomRace.AgreeRun: all users have a document, and the times that joins write are not there.
- Cluster.ExactlyOnce: membership, sessions and peers are fixed during a run; a write that reports failure has delivered nothing, and one that succeeds reaches the other node or stays on its link.
- Cluster.Peer.WriteFormatMsg: what the connection answers is a parameter. Two writers that reconnect the same peer at once are not modelled.
- RoundRobin.OffSenderPool.ObtainOneOffSender: what other threads do between its load and its swap is a parameter; `RoundRobin.Fair` and the other lemmas are about the machine in which they all run.
- Wire.NewCmdline: lengths are mathematical integers, as they are on 64-bit platforms; on 32-bit platforms the sums in the checks can overflow.
- Text.SentIsRecovered: strings are byte strings, and the database lookup of a resent message is a search of a log.
- RoomIds.GenerateRoomId: the library's in-place sort is the function `Sort`.
