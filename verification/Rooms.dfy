/** Room membership: the room functions of im.go and the commands built on them. Three
    collections say who is in which room; a command updates them one after another. */
module Rooms {
  import opened Mongo

  type UserId = string
  type ChannelId = string
  type Stats = map<UserId, map<ChannelId, int>>

  /** `channel_uuids`, the `channel_stat` part of `user_info`, and `uuid_channels`. */
  datatype Db = Db(
    rooms: map<ChannelId, seq<UserId>>,
    stats: Stats,
    chans: map<UserId, seq<ChannelId>>)

  /** Reply codes. */
  datatype Code = Success | ParamError | Refused

  predicate Member(db: Db, c: ChannelId, u: UserId) { c in db.rooms && u in db.rooms[c] }

  predicate Tracked(db: Db, c: ChannelId, u: UserId) { u in db.stats && c in db.stats[u] }

  predicate Listed(db: Db, c: ChannelId, u: UserId) { u in db.chans && c in db.chans[u] }

  /** The three collections say the same, no room is empty, nobody is in a room twice. */
  ghost predicate Consistent(db: Db) {
    && (forall c, u :: Member(db, c, u) <==> Tracked(db, c, u))
    && (forall c, u :: Member(db, c, u) <==> Listed(db, c, u))
    && NoEmptyRoom(db)
  }

  ghost predicate NoEmptyRoom(db: Db) {
    forall c :: c in db.rooms ==> db.rooms[c] != [] && NoDup(db.rooms[c])
  }

  // ---- Bulk writes ----------------------------------------------------------------------

  /** Bulk `$set` of a channel's watermark; users without a document are skipped. */
  function SetStats(stats: Stats, us: seq<UserId>, c: ChannelId, ts: int): Stats {
    map u | u in stats :: if u in us then stats[u][c := ts] else stats[u]
  }

  /** Bulk `$unset`. */
  function UnsetStats(stats: Stats, us: seq<UserId>, c: ChannelId): Stats {
    map u | u in stats :: if u in us then stats[u] - {c} else stats[u]
  }

  function ChansOf(chans: map<UserId, seq<ChannelId>>, u: UserId): seq<ChannelId> {
    if u in chans then chans[u] else []
  }

  /** Bulk upsert of `$addToSet`. */
  function AddChans(chans: map<UserId, seq<ChannelId>>, us: seq<UserId>, c: ChannelId): map<UserId, seq<ChannelId>> {
    map u | u in chans.Keys + (set x | x in us) :: if u in us then AddToSet(ChansOf(chans, u), c) else chans[u]
  }

  /** Bulk `$pull`. */
  function PullChans(chans: map<UserId, seq<ChannelId>>, us: seq<UserId>, c: ChannelId): map<UserId, seq<ChannelId>> {
    map u | u in chans :: if u in us then Pull(chans[u], c) else chans[u]
  }

  // ---- The room functions ---------------------------------------------------------------

  /** createRoom: the insert fails if the room exists; the user's document is upserted. */
  function CreateRoom(db: Db, owner: UserId, c: ChannelId, ts: int): Db {
    if c in db.rooms then db
    else
      var stat := if owner in db.stats then db.stats[owner] else map[];
      Db(db.rooms[c := [owner]], db.stats[owner := stat[c := ts]], AddChans(db.chans, [owner], c))
  }

  /** joinRoom: fails if the room does not exist. */
  function JoinRoom(db: Db, c: ChannelId, us: seq<UserId>, ts: int): Db {
    if c !in db.rooms then db
    else Db(db.rooms[c := AddEach(db.rooms[c], us)], SetStats(db.stats, us, c, ts), AddChans(db.chans, us, c))
  }

  /** leaveRoom: fails if the room does not exist; a room left empty is removed. */
  function LeaveRoom(db: Db, c: ChannelId, us: seq<UserId>): Db {
    if c !in db.rooms then db
    else
      var left := PullAll(db.rooms[c], us);
      Db(if left == [] then db.rooms - {c} else db.rooms[c := left],
         UnsetStats(db.stats, us, c),
         PullChans(db.chans, us, c))
  }

  /** disolveRoom: everybody leaves. */
  function DisolveRoom(db: Db, c: ChannelId): Db {
    if c in db.rooms then LeaveRoom(db, c, db.rooms[c]) else db
  }

  /** joinRoom for one user after another, the i-th at time `now(i)`. */
  function JoinEach(db: Db, c: ChannelId, us: seq<UserId>, now: nat -> int): Db
    decreases |us|
  {
    if us == [] then db
    else JoinRoom(JoinEach(db, c, us[..|us| - 1], now), c, [us[|us| - 1]], now(|us| - 1))
  }

  // ---- The commands ---------------------------------------------------------------------

  datatype Command =
    | Subs(params: seq<string>, now: nat -> int)      // name, room, owner, others
    | AddUsers(params: seq<string>, now: nat -> int)  // room, users
    | Unsubs(params: seq<string>)                     // room, users
    | Disolve(room: ChannelId)
    | CreateUser(user: UserId)
    | Ack(user: UserId, room: ChannelId, ts: int)
    | Join(user: UserId, room: ChannelId, ts: int)    // join_room: the only one that does not check the user

  predicate AllKnown(db: Db, us: seq<UserId>) {
    forall i :: 0 <= i < |us| ==> us[i] in db.stats
  }

  predicate SubsOk(db: Db, params: seq<string>) {
    |params| >= 3 && AllKnown(db, params[2..]) && params[1] !in db.rooms
  }

  predicate AddOk(db: Db, params: seq<string>) {
    |params| >= 2 && params[0] in db.rooms && AllKnown(db, params[1..])
  }

  /** The ack's single update: `$lt` does not match a missing field. */
  function AckStat(db: Db, u: UserId, c: ChannelId, ts: int): Db {
    if Tracked(db, c, u) && db.stats[u][c] < ts then db.(stats := db.stats[u := db.stats[u][c := ts]]) else db
  }

  function Do(db: Db, cmd: Command): Db {
    match cmd
    case Subs(params, now) =>
      if !SubsOk(db, params) then db
      else
        var created := CreateRoom(db, params[2], params[1], now(0));
        JoinEach(created, params[1], params[3..], (i: nat) => now(i + 1))
    case AddUsers(params, now) =>
      if !AddOk(db, params) then db else JoinEach(db, params[0], params[1..], now)
    case Unsubs(params) => if |params| < 2 then db else LeaveRoom(db, params[0], params[1..])
    case Disolve(c) => if c == "" then db else DisolveRoom(db, c)
    case CreateUser(u) => if u == "" || u in db.stats then db else db.(stats := db.stats[u := map[]])
    case Ack(u, c, ts) => AckStat(db, u, c, ts)
    case Join(u, c, ts) => if c == "" then db else JoinRoom(db, c, [u], ts)
  }

  function Run(db: Db, cmds: seq<Command>): Db
    decreases |cmds|
  {
    if cmds == [] then db else Run(Do(db, cmds[0]), cmds[1..])
  }

  // ---- What each room function does to one membership -----------------------------------

  lemma CreateRoomFacts(db: Db, owner: UserId, c: ChannelId, ts: int, d: ChannelId, u: UserId)
    requires c !in db.rooms
    ensures var r := CreateRoom(db, owner, c, ts);
            && (Member(r, d, u) <==> Member(db, d, u) || (d == c && u == owner))
            && (Tracked(r, d, u) <==> Tracked(db, d, u) || (d == c && u == owner))
            && (Listed(r, d, u) <==> Listed(db, d, u) || (d == c && u == owner))
  {
  }

  lemma JoinRoomFacts(db: Db, c: ChannelId, us: seq<UserId>, ts: int, d: ChannelId, u: UserId)
    requires c in db.rooms
    ensures var r := JoinRoom(db, c, us, ts);
            && (Member(r, d, u) <==> Member(db, d, u) || (d == c && u in us))
            && (Tracked(r, d, u) <==> Tracked(db, d, u) || (d == c && u in us && u in db.stats))
            && (Listed(r, d, u) <==> Listed(db, d, u) || (d == c && u in us))
  {
  }

  lemma LeaveRoomFacts(db: Db, c: ChannelId, us: seq<UserId>, d: ChannelId, u: UserId)
    requires c in db.rooms
    ensures var r := LeaveRoom(db, c, us);
            && (Member(r, d, u) <==> Member(db, d, u) && !(d == c && u in us))
            && (Tracked(r, d, u) <==> Tracked(db, d, u) && !(d == c && u in us))
            && (Listed(r, d, u) <==> Listed(db, d, u) && !(d == c && u in us))
  {
  }

  // ---- The three collections stay inverse -----------------------------------------------

  lemma CreateRoomKeeps(db: Db, owner: UserId, c: ChannelId, ts: int)
    requires Consistent(db)
    ensures Consistent(CreateRoom(db, owner, c, ts))
  {
    if c !in db.rooms {
      var r := CreateRoom(db, owner, c, ts);
      forall d, u
        ensures Member(r, d, u) <==> Tracked(r, d, u)
        ensures Member(r, d, u) <==> Listed(r, d, u)
      {
        CreateRoomFacts(db, owner, c, ts, d, u);
      }
    }
  }

  /** A join keeps the collections inverse exactly when every joining user has a document:
      the watermark of a user without one is silently not written. */
  lemma JoinRoomKeeps(db: Db, c: ChannelId, us: seq<UserId>, ts: int)
    requires Consistent(db)
    ensures Consistent(JoinRoom(db, c, us, ts)) <==> c !in db.rooms || forall u :: u in us ==> u in db.stats
  {
    if c in db.rooms {
      var r := JoinRoom(db, c, us, ts);
      forall d, u
        ensures Member(r, d, u) <==> Member(db, d, u) || (d == c && u in us)
        ensures Tracked(r, d, u) <==> Tracked(db, d, u) || (d == c && u in us && u in db.stats)
        ensures Listed(r, d, u) <==> Listed(db, d, u) || (d == c && u in us)
      {
        JoinRoomFacts(db, c, us, ts, d, u);
      }
      AddEachNoDup(db.rooms[c], us);
      assert NoEmptyRoom(r);
      forall u | u in us && u !in db.stats
        ensures !Consistent(r)
      {
        assert Member(r, c, u) && !Tracked(r, c, u);
      }
    }
  }

  lemma LeaveRoomKeeps(db: Db, c: ChannelId, us: seq<UserId>)
    requires Consistent(db)
    ensures Consistent(LeaveRoom(db, c, us))
  {
    if c in db.rooms {
      var r := LeaveRoom(db, c, us);
      forall d, u
        ensures Member(r, d, u) <==> Tracked(r, d, u)
        ensures Member(r, d, u) <==> Listed(r, d, u)
      {
        LeaveRoomFacts(db, c, us, d, u);
      }
      PullAllNoDup(db.rooms[c], us);
    }
  }

  lemma {:induction false} JoinEachKeeps(db: Db, c: ChannelId, us: seq<UserId>, now: nat -> int)
    requires Consistent(db) && AllKnown(db, us)
    ensures Consistent(JoinEach(db, c, us, now)) && JoinEach(db, c, us, now).stats.Keys == db.stats.Keys
    decreases |us|
  {
    if us != [] {
      var rest, last := us[..|us| - 1], us[|us| - 1];
      JoinEachKeeps(db, c, rest, now);
      assert us[|us| - 1] in db.stats;
      JoinRoomKeeps(JoinEach(db, c, rest, now), c, [last], now(|us| - 1));
    }
  }

  /** What a command may not do: join a user who has no document. Only join_room can. */
  predicate JoinsKnown(db: Db, cmd: Command) {
    cmd.Join? && cmd.room != "" && cmd.room in db.rooms ==> cmd.user in db.stats
  }

  lemma CommandKeeps(db: Db, cmd: Command)
    requires Consistent(db)
    ensures Consistent(Do(db, cmd)) <==> JoinsKnown(db, cmd)
  {
    match cmd
    case Subs(params, now) =>
      if SubsOk(db, params) {
        var created := CreateRoom(db, params[2], params[1], now(0));
        CreateRoomKeeps(db, params[2], params[1], now(0));
        assert forall i :: 0 <= i < |params[3..]| ==> params[3..][i] == params[2..][i + 1];
        JoinEachKeeps(created, params[1], params[3..], (i: nat) => now(i + 1));
      }
    case AddUsers(params, now) =>
      if AddOk(db, params) { JoinEachKeeps(db, params[0], params[1..], now); }
    case Unsubs(params) =>
      if |params| >= 2 { LeaveRoomKeeps(db, params[0], params[1..]); }
    case Disolve(c) =>
      if c in db.rooms { LeaveRoomKeeps(db, c, db.rooms[c]); }
    case CreateUser(u) =>
      var r := Do(db, cmd);
      assert forall d, v ::
          && Tracked(r, d, v) == Tracked(db, d, v)
          && Member(r, d, v) == Member(db, d, v)
          && Listed(r, d, v) == Listed(db, d, v);
    case Ack(u, c, ts) =>
      var r := Do(db, cmd);
      assert forall d, v ::
          && Tracked(r, d, v) == Tracked(db, d, v)
          && Member(r, d, v) == Member(db, d, v)
          && Listed(r, d, v) == Listed(db, d, v);
    case Join(u, c, ts) =>
      if c != "" { JoinRoomKeeps(db, c, [u], ts); }
  }

  ghost predicate AllJoinKnown(db: Db, cmds: seq<Command>)
    decreases |cmds|
  {
    cmds == [] || (JoinsKnown(db, cmds[0]) && AllJoinKnown(Do(db, cmds[0]), cmds[1..]))
  }

  /** In every run of commands that join only users with a document (and only join_room can
      do otherwise), the three collections stay mutual inverses. */
  lemma {:induction false} ConsistentRun(db: Db, cmds: seq<Command>)
    requires Consistent(db) && AllJoinKnown(db, cmds)
    ensures Consistent(Run(db, cmds))
    decreases |cmds|
  {
    if cmds != [] {
      CommandKeeps(db, cmds[0]);
      ConsistentRun(Do(db, cmds[0]), cmds[1..]);
    }
  }

  // ---- What one command undoes ----------------------------------------------------------

  lemma {:induction false} PullAllOther<T(!new)>(s: seq<T>, xs: seq<T>)
    requires forall x :: x in xs ==> x !in s
    ensures PullAll(s, xs) == s
    decreases |s|
  {
    if s != [] {
      PullAllOther(s[..|s| - 1], xs);
      assert s == s[..|s| - 1] + [s[|s| - 1]];
    }
  }

  lemma RejoinedRoom(s: seq<UserId>, u: UserId)
    requires u !in s
    ensures AddEach(s, [u]) == s + [u] && PullAll(s + [u], [u]) == s
  {
    assert AddEach(s, []) == s && [u][..0] == [];
    assert (s + [u])[..|s|] == s;
    PullAllOther(s, [u]);
  }

  lemma NewcomerLast(db: Db, c: ChannelId, u: UserId, ts: int)
    requires c in db.rooms && u !in db.rooms[c]
    ensures JoinRoom(db, c, [u], ts).rooms == db.rooms[c := db.rooms[c] + [u]]
  {
    RejoinedRoom(db.rooms[c], u);
  }

  lemma LastLeaves(db: Db, mid: Db, c: ChannelId, u: UserId)
    requires c in db.rooms && u !in db.rooms[c] && db.rooms[c] != []
    requires mid.rooms == db.rooms[c := db.rooms[c] + [u]]
    ensures LeaveRoom(mid, c, [u]).rooms == db.rooms
  {
    RejoinedRoom(db.rooms[c], u);
    assert mid.rooms[c := db.rooms[c]] == db.rooms;
  }

  lemma RejoinedStats(stats: Stats, c: ChannelId, u: UserId, ts: int)
    requires u in stats ==> c !in stats[u]
    ensures UnsetStats(SetStats(stats, [u], c, ts), [u], c) == stats
  {
    if u in stats {
      assert stats[u][c := ts] - {c} == stats[u];
    }
  }

  lemma RejoinedLists(db: Db, c: ChannelId, u: UserId, ts: int, d: ChannelId, v: UserId)
    requires c in db.rooms && !Listed(db, c, u)
    ensures Listed(LeaveRoom(JoinRoom(db, c, [u], ts), c, [u]), d, v) <==> Listed(db, d, v)
  {
  }

  /** A newcomer who joins and leaves again leaves rooms and watermarks as they were. */
  lemma LeaveUndoesJoin(db: Db, c: ChannelId, u: UserId, ts: int)
    requires Consistent(db) && c in db.rooms && !Member(db, c, u)
    ensures var r := LeaveRoom(JoinRoom(db, c, [u], ts), c, [u]);
            && r.rooms == db.rooms && r.stats == db.stats
            && forall d, v :: Listed(r, d, v) <==> Listed(db, d, v)
  {
    assert !Tracked(db, c, u) && !Listed(db, c, u);
    NewcomerLast(db, c, u, ts);
    LastLeaves(db, JoinRoom(db, c, [u], ts), c, u);
    RejoinedStats(db.stats, c, u, ts);
    forall d, v
      ensures Listed(LeaveRoom(JoinRoom(db, c, [u], ts), c, [u]), d, v) <==> Listed(db, d, v)
    {
      RejoinedLists(db, c, u, ts, d, v);
    }
  }

  /** Disolving a room removes every trace of it and nothing else. */
  lemma DisolveErases(db: Db, c: ChannelId, d: ChannelId, u: UserId)
    requires Consistent(db)
    ensures var r := DisolveRoom(db, c);
            && c !in r.rooms && !Tracked(r, c, u) && !Listed(r, c, u)
            && (d != c ==> (Member(r, d, u) <==> Member(db, d, u)) && (d in r.rooms <==> d in db.rooms))
  {
    if c in db.rooms {
      LeaveRoomFacts(db, c, db.rooms[c], c, u);
      LeaveRoomFacts(db, c, db.rooms[c], d, u);
      PullAllEmpty(db.rooms[c], db.rooms[c]);
    } else {
      assert !Member(db, c, u);
    }
  }

  // ---- New users ------------------------------------------------------------------------

  /** create_user gives the user a document, which no other user's command needs to wait for: a
      subs by that user alone makes any room that does not exist yet. */
  lemma NewUserMakesRoom(db: Db, u: UserId, name: string, c: ChannelId, now: nat -> int)
    requires u != "" && c !in db.rooms
    ensures var r := Do(db, CreateUser(u));
            && u in r.stats && r.rooms == db.rooms && r.chans == db.chans
            && (forall v :: v in db.stats ==> v in r.stats && r.stats[v] == db.stats[v])
            && SubsOk(r, [name, c, u])
            && Member(Do(r, Subs([name, c, u], now)), c, u)
  {
    var r, params := Do(db, CreateUser(u)), [name, c, u];
    assert params[2..] == [u] && params[3..] == [];
  }
}
