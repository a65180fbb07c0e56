/** The command handlers for frame chats, written as the source writes them, and the proof
    that a handler nobody interrupts does what its connection's steps do in `FrameChats`. */
module FrameHandlers {
  import opened Mongo
  import opened FrameChats

  /** The database part of a state: no program counters, no history. */
  datatype Data = Data(
    members: map<RoomId, seq<UserId>>,
    chats: map<ChatId, Chat>,
    index: map<UserId, seq<ChatId>>,
    notices: seq<ChatId>)

  function DataOf(s: State): Data {
    Data(s.members, s.chats, s.index, s.notices)
  }

  function Room(d: Data, room: RoomId): seq<UserId> {
    if room in d.members then d.members[room] else []
  }

  // ---- What one undisturbed departure does ----------------------------------------------

  /** `u` leaves `c`; the last one out deletes the chat, cleans the lists and announces it. */
  function Leave(d: Data, u: UserId, c: ChatId): Data {
    if c !in d.chats then d
    else
      var chat := d.chats[c].(active := Pull(d.chats[c].active, u));
      if chat.active != [] then d.(chats := d.chats[c := chat]) else Dismissed(d, chat.room, c)
  }

  function Dismissed(d: Data, room: RoomId, c: ChatId): Data {
    d.(chats := d.chats - {c}, index := PullFrom(d.index, Room(d, room), c), notices := d.notices + [c])
  }

  /** Of a departing user no copy is left in the chat, and everybody else stays, in order. The
      last one out takes the chat out of exactly its members' lists. */
  lemma LeaveIs(d: Data, u: UserId, c: ChatId, v: UserId)
    requires c in d.chats && NoDup(Room(d, d.chats[c].room))
    ensures var r, chat := Leave(d, u, c), d.chats[c];
            if forall w :: w in chat.active ==> w == u then
              && c !in r.chats && r.notices == d.notices + [c]
              && At(r.index, v) == if v in Room(d, chat.room) then Pull(At(d.index, v), c) else At(d.index, v)
            else
              && c in r.chats && r.chats[c].room == chat.room && r.chats[c].active == Pull(chat.active, u)
              && (v in r.chats[c].active <==> v in chat.active && v != u)
              && r.index == d.index && r.notices == d.notices
  {
    PullAllEmpty(d.chats[c].active, [u]);
    PulledAt(d.index, Room(d, d.chats[c].room), c, v);
  }

  function LeaveAll(d: Data, u: UserId, cs: seq<ChatId>): Data
    decreases |cs|
  {
    if cs == [] then d else LeaveAll(Leave(d, u, cs[0]), u, cs[1..])
  }

  function VisitSteps(t: Thread): seq<Step> {
    [PullSelf(t), Delete(t), Clean(t), Notice(t)]
  }

  function CloseSteps(t: Thread, n: nat): seq<Step> {
    if n == 0 then [] else VisitSteps(t) + CloseSteps(t, n - 1)
  }

  lemma Run4(s: State, a: Step, b: Step, c: Step, d: Step)
    ensures Run(s, [a, b, c, d]) == Do(Do(Do(Do(s, a), b), c), d)
  {
    assert [a, b, c, d] == [a] + ([b] + ([c] + [d]));
    RunSplit(s, [a], [b] + ([c] + [d]));
    RunSplit(Do(s, a), [b], [c] + [d]);
    RunSplit(Do(Do(s, a), b), [c], [d]);
  }

  /** What the pull of a departing connection leaves. */
  predicate Pulled(s: State, t: Thread, m: State)
    requires PcOf(s, t).Visiting? && PcOf(s, t).rest != []
  {
    var pc := PcOf(s, t);
    var c, rest := pc.rest[0], pc.rest[1..];
    if c !in s.chats then m == Goto(s, t, Next(pc.user, rest, pc.closing))
    else
      var left := Pull(s.chats[c].active, pc.user);
      && DataOf(m) == DataOf(s).(chats := s.chats[c := s.chats[c].(active := left)])
      && PcOf(m, t) == if pc.closing || left == [] then Deleting(pc.user, c, s.chats[c].room, rest, pc.closing)
                       else Next(pc.user, rest, pc.closing)
  }

  /** What its conditional delete, clean-up and notice leave. */
  predicate Finished(s: State, t: Thread, r: State) {
    var pc := PcOf(s, t);
    if !pc.Deleting? then r == s
    else
      && PcOf(r, t) == Next(pc.user, pc.rest, pc.closing)
      && DataOf(r) == if pc.chat in s.chats && s.chats[pc.chat].active == []
                      then Dismissed(DataOf(s), pc.room, pc.chat) else DataOf(s)
  }

  lemma PullAlone(s: State, t: Thread)
    requires PcOf(s, t).Visiting? && PcOf(s, t).rest != []
    ensures Pulled(s, t, Run(s, [PullSelf(t)]))
  {
  }

  lemma FinishAlone(s: State, t: Thread)
    requires !PcOf(s, t).Cleaning? && !PcOf(s, t).Noticing?
    ensures Finished(s, t, Run(s, [Delete(t)] + ([Clean(t)] + [Notice(t)])))
  {
    RunSplit(s, [Delete(t)], [Clean(t)] + [Notice(t)]);
    RunSplit(Do(s, Delete(t)), [Clean(t)], [Notice(t)]);
    var d := Do(s, Delete(t));
    assert Run(s, [Delete(t)]) == d && Run(d, [Clean(t)]) == Do(d, Clean(t));
    DeleteAlone(s, t);
    CleanAlone(d, t);
  }

  lemma DeleteAlone(s: State, t: Thread)
    requires !PcOf(s, t).Cleaning? && !PcOf(s, t).Noticing?
    ensures var pc, d := PcOf(s, t), Do(s, Delete(t));
            if !pc.Deleting? then d == s
            else if pc.chat in s.chats && s.chats[pc.chat].active == [] then
              DataOf(d) == DataOf(s).(chats := s.chats - {pc.chat})
              && PcOf(d, t) == Cleaning(pc.user, pc.chat, pc.room, pc.rest, pc.closing)
            else DataOf(d) == DataOf(s) && PcOf(d, t) == Next(pc.user, pc.rest, pc.closing)
  {
  }

  lemma CleanAlone(d: State, t: Thread)
    requires !PcOf(d, t).Noticing?
    ensures var pc, r := PcOf(d, t), Run(Do(d, Clean(t)), [Notice(t)]);
            if !pc.Cleaning? then r == d
            else
              && DataOf(r) == DataOf(d).(
                   index := PullFrom(d.index, Members(d, pc.room), pc.chat), notices := d.notices + [pc.chat])
              && PcOf(r, t) == Next(pc.user, pc.rest, pc.closing)
  {
  }

  lemma Departed(s: State, m: State, r: State, t: Thread)
    requires PcOf(s, t).Visiting? && PcOf(s, t).rest != []
    requires Pulled(s, t, m) && Finished(m, t, r)
    ensures var pc := PcOf(s, t);
            DataOf(r) == Leave(DataOf(s), pc.user, pc.rest[0]) && PcOf(r, t) == Next(pc.user, pc.rest[1..], pc.closing)
  {
    var c := PcOf(s, t).rest[0];
    if c in s.chats {
      var room := s.chats[c].room;
      assert m.members == s.members && m.index == s.index && m.notices == s.notices;
      assert m.chats == s.chats[c := s.chats[c].(active := Pull(s.chats[c].active, PcOf(s, t).user))];
      assert m.chats - {c} == s.chats - {c};
      assert Members(m, room) == Members(s, room);
    }
  }

  lemma VisitAlone(s: State, t: Thread, u: UserId, rest: seq<ChatId>, closing: bool)
    requires rest != [] && PcOf(s, t) == Visiting(u, rest, closing)
    ensures DataOf(Run(s, VisitSteps(t))) == Leave(DataOf(s), u, rest[0])
    ensures PcOf(Run(s, VisitSteps(t)), t) == Next(u, rest[1..], closing)
  {
    var finish := [Delete(t)] + ([Clean(t)] + [Notice(t)]);
    assert VisitSteps(t) == [PullSelf(t)] + finish;
    RunSplit(s, [PullSelf(t)], finish);
    var m := Run(s, [PullSelf(t)]);
    PullAlone(s, t);
    FinishAlone(m, t);
    Departed(s, m, Run(m, finish), t);
  }

  lemma {:induction false} CloseAlone(s: State, t: Thread, u: UserId, rest: seq<ChatId>)
    requires PcOf(s, t) == Next(u, rest, true)
    ensures DataOf(Run(s, CloseSteps(t, |rest|))) == LeaveAll(DataOf(s), u, rest)
    decreases |rest|
  {
    if rest != [] {
      var r := Run(s, VisitSteps(t));
      VisitAlone(s, t, u, rest, true);
      RunSplit(s, VisitSteps(t), CloseSteps(t, |rest| - 1));
      CloseAlone(r, t, u, rest[1..]);
    }
  }

  /** A frame_out that nobody interrupts is its connection's five steps. */
  lemma OutIsRun(s: State, t: Thread, u: UserId, c: ChatId)
    requires PcOf(s, t) == Idle
    ensures DataOf(Run(s, [StartOut(t, u, c)] + VisitSteps(t))) == Leave(DataOf(s), u, c)
  {
    var r := Do(s, StartOut(t, u, c));
    RunSplit(s, [StartOut(t, u, c)], VisitSteps(t));
    VisitAlone(r, t, u, [c], false);
  }

  /** A disconnect that nobody interrupts is its connection's steps, four for each listed chat. */
  lemma CloseIsRun(s: State, t: Thread, u: UserId)
    requires PcOf(s, t) == Idle
    ensures var mine := At(s.index, u);
            DataOf(Run(s, [StartClose(t, u)] + CloseSteps(t, |mine|))) == LeaveAll(DataOf(s), u, mine)
  {
    var mine := At(s.index, u);
    var r := Do(s, StartClose(t, u));
    RunSplit(s, [StartClose(t, u)], CloseSteps(t, |mine|));
    CloseAlone(r, t, u, mine);
  }

  function Joined(d: Data, u: UserId, c: ChatId): Data {
    if c !in d.chats then d else d.(chats := d.chats[c := d.chats[c].(active := d.chats[c].active + [u])])
  }

  /** frame_join and frame_accept are one atomic step. */
  lemma JoinIsStep(s: State, t: Thread, u: UserId, c: ChatId)
    requires PcOf(s, t) == Idle
    ensures DataOf(Do(s, Join(t, u, c))) == Joined(DataOf(s), u, c)
    ensures c in s.chats ==> Live(Do(s, Join(t, u, c)), u, c)
    ensures forall v, d :: Live(s, v, d) ==> Live(Do(s, Join(t, u, c)), v, d)
  {
  }

  /** An apply that nobody interrupts: nothing if the room has a chat, else one new chat with
      the proposer in it, in the members' lists if that write succeeds and gone if not. */
  function Applied(d: Data, u: UserId, room: RoomId, c: ChatId, writeOk: bool): Data {
    if exists e :: e in d.chats && d.chats[e].room == room then d
    else if writeOk then d.(chats := d.chats[c := Chat(room, u, [u])], index := PushTo(d.index, Room(d, room), c))
    else d
  }

  /** The proposer takes part in the new chat, and exactly the members have it listed last. */
  lemma AppliedIs(d: Data, u: UserId, room: RoomId, c: ChatId, v: UserId)
    requires (forall e :: e in d.chats ==> d.chats[e].room != room) && NoDup(Room(d, room))
    ensures var r := Applied(d, u, room, c, true);
            && r.chats == d.chats[c := Chat(room, u, [u])] && r.notices == d.notices
            && At(r.index, v) == if v in Room(d, room) then At(d.index, v) + [c] else At(d.index, v)
    ensures Applied(d, u, room, c, false) == d
  {
    PushedAt(d.index, Room(d, room), c, v);
  }

  function ApplySteps(t: Thread, u: UserId, room: RoomId, c: ChatId, writeOk: bool): seq<Step> {
    [StartApply(t, u, room), Insert(t, c), if writeOk then IndexOk(t) else IndexFail(t), Undo(t)]
  }

  lemma ApplyIsRun(s: State, t: Thread, u: UserId, room: RoomId, c: ChatId, writeOk: bool)
    requires PcOf(s, t) == Idle && c !in s.fates && c !in s.chats
    ensures DataOf(Run(s, ApplySteps(t, u, room, c, writeOk))) == Applied(DataOf(s), u, room, c, writeOk)
  {
    var last := if writeOk then IndexOk(t) else IndexFail(t);
    assert s.chats[c := Chat(room, u, [u])] - {c} == s.chats;
    Run4(s, StartApply(t, u, room), Insert(t, c), last, Undo(t));
    if !exists d :: d in s.chats && s.chats[d].room == room {
      BegunApply(s, t, u, room, c);
      EndedApply(Do(Do(s, StartApply(t, u, room)), Insert(t, c)), t, room, c, writeOk);
    } else {
      RefusedApply(s, t, u, room, c, writeOk);
    }
  }

  lemma RefusedApply(s: State, t: Thread, u: UserId, room: RoomId, c: ChatId, writeOk: bool)
    requires PcOf(s, t) == Idle && exists d :: d in s.chats && s.chats[d].room == room
    ensures Do(s, StartApply(t, u, room)) == s && Do(s, Insert(t, c)) == s && Do(s, Undo(t)) == s
    ensures Do(s, if writeOk then IndexOk(t) else IndexFail(t)) == s
  {
  }

  lemma BegunApply(s: State, t: Thread, u: UserId, room: RoomId, c: ChatId)
    requires PcOf(s, t) == Idle && c !in s.fates && !exists d :: d in s.chats && s.chats[d].room == room
    ensures var r := Do(Do(s, StartApply(t, u, room)), Insert(t, c));
            PcOf(r, t) == Indexing(room, c) && DataOf(r) == DataOf(s).(chats := s.chats[c := Chat(room, u, [u])])
  {
    assert PcOf(Do(s, StartApply(t, u, room)), t) == Inserting(u, room);
  }

  lemma EndedApply(s: State, t: Thread, room: RoomId, c: ChatId, writeOk: bool)
    requires PcOf(s, t) == Indexing(room, c)
    ensures DataOf(Do(Do(s, if writeOk then IndexOk(t) else IndexFail(t)), Undo(t))) ==
            if writeOk then DataOf(s).(index := PushTo(s.index, Members(s, room), c))
            else DataOf(s).(chats := s.chats - {c})
  {
  }

  // ---- The handlers ---------------------------------------------------------------------

  datatype ApplyReply = Created | MinePending | OthersPending | WriteFailed
  datatype OutReply = NoSuchChat | Left | LastOneOut

  /** The database as the handlers of one command see it when no other command runs. */
  class Database {
    const members: map<RoomId, seq<UserId>>
    var chats: map<ChatId, Chat>
    var index: map<UserId, seq<ChatId>>
    var notices: seq<ChatId>

    ghost function View(): Data
      reads this
    {
      Data(members, chats, index, notices)
    }

    function MembersOf(room: RoomId): seq<UserId> {
      if room in members then members[room] else []
    }

    /** The bulk write that adds a chat to its members' lists. */
    method PushToMembers(users: seq<UserId>, c: ChatId)
      modifies this`index
      ensures index == PushTo(old(index), users, c)
    {
      for i := 0 to |users|
        invariant index == PushTo(old(index), users[..i], c)
      {
        assert users[..i + 1][..i] == users[..i];
        index := index[users[i] := At(index, users[i]) + [c]];
      }
      assert users[..|users|] == users;
    }

    method PullFromMembers(users: seq<UserId>, c: ChatId)
      modifies this`index
      ensures index == PullFrom(old(index), users, c)
    {
      for i := 0 to |users|
        invariant index == PullFrom(old(index), users[..i], c)
      {
        assert users[..i + 1][..i] == users[..i];
        index := index[users[i] := Pull(At(index, users[i]), c)];
      }
      assert users[..|users|] == users;
    }

    /** frame_apply. `newId` is a fresh object id, `writeOk` the outcome of the bulk write. */
    method FrameApply(user: UserId, room: RoomId, newId: ChatId, writeOk: bool) returns (reply: ApplyReply)
      requires newId !in chats
      modifies this
      ensures View() == Applied(old(View()), user, room, newId, writeOk)
      ensures reply.Created? <==> writeOk && forall c :: c in old(chats) ==> old(chats)[c].room != room
      ensures reply.WriteFailed? <==> !writeOk && forall c :: c in old(chats) ==> old(chats)[c].room != room
      ensures reply.Created? ==> newId in chats && chats[newId] == Chat(room, user, [user])
      ensures reply.MinePending? ==>
                exists c :: c in old(chats) && old(chats)[c].room == room && old(chats)[c].proposer == user
      ensures reply.OthersPending? ==>
                exists c :: c in old(chats) && old(chats)[c].room == room && old(chats)[c].proposer != user
      ensures !reply.Created? ==> chats == old(chats) && index == old(index)
    {
      if exists c :: c in chats && chats[c].room == room {
        var c :| c in chats && chats[c].room == room;
        return if chats[c].proposer == user then MinePending else OthersPending;
      }
      chats := chats[newId := Chat(room, user, [user])];
      if !writeOk {
        chats := chats - {newId};
        assert chats == old(chats);
        return WriteFailed;
      }
      PushToMembers(MembersOf(room), newId);
      return Created;
    }

    /** frame_join and frame_accept: fails exactly when the chat is gone. */
    method FrameJoin(user: UserId, c: ChatId) returns (ok: bool)
      modifies this`chats
      ensures View() == Joined(old(View()), user, c)
      ensures ok <==> c in old(chats)
      ensures ok ==> user in chats[c].active
    {
      if c !in chats {
        return false;
      }
      chats := chats[c := chats[c].(active := chats[c].active + [user])];
      return true;
    }

    /** frame_out and frame_dismiss. */
    method FrameOut(user: UserId, c: ChatId) returns (reply: OutReply)
      modifies this
      ensures View() == Leave(old(View()), user, c)
      ensures reply.NoSuchChat? <==> c !in old(chats)
      ensures reply.LastOneOut? <==> c in old(chats) && forall u :: u in old(chats)[c].active ==> u == user
    {
      if c !in chats {
        return NoSuchChat;
      }
      var result := chats[c].(active := Pull(chats[c].active, user));
      PullAllEmpty(chats[c].active, [user]);
      chats := chats[c := result];
      if |result.active| == 0 {
        if c in chats && chats[c].active == [] {
          CleanUp(c, result.room);
          return LastOneOut;
        }
      }
      return Left;
    }

    /** The delete succeeded: clean the lists of the room's members and announce the end. */
    method CleanUp(c: ChatId, room: RoomId)
      modifies this
      ensures View() == Dismissed(old(View()), room, c)
    {
      chats := chats - {c};
      PullFromMembers(MembersOf(room), c);
      notices := notices + [c];
    }

    /** The part of a disconnect that leaves every chat in the user's list. */
    method ClearFrameChat(user: UserId)
      modifies this
      ensures View() == LeaveAll(old(View()), user, At(old(index), user))
      ensures forall c :: c in At(old(index), user) ==> c !in chats || user !in chats[c].active
    {
      var mine := At(index, user);
      ghost var start := View();
      for i := 0 to |mine|
        invariant LeaveAll(View(), user, mine[i..]) == LeaveAll(start, user, mine)
        invariant forall j :: 0 <= j < i ==> mine[j] !in chats || user !in chats[mine[j]].active
      {
        assert mine[i..][1..] == mine[i + 1..];
        var c := mine[i];
        ghost var before, view := chats, View();
        if c in chats {
          var result := chats[c].(active := Pull(chats[c].active, user));
          chats := chats[c := result];
          if chats[c].active == [] {
            CleanUp(c, result.room);
          }
        }
        assert View() == Leave(view, user, c);
        forall j | 0 <= j < i + 1
          ensures mine[j] !in chats || user !in chats[mine[j]].active
        {
          var d := mine[j];
          if j < i && d != c && d in chats {
            assert d in before && chats[d] == before[d];
          }
        }
      }
    }
  }
}
