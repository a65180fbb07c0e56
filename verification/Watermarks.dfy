/** Read watermarks and offline messages. A user's watermark for a joined room is the time
    of the join, raised by acks; offline_msg returns what lies above it. */
module Watermarks {
  import opened Mongo
  import opened Rooms
  import Storage

  function Watermark(db: Db, u: UserId, c: ChannelId): Option<int> {
    if Tracked(db, c, u) then Some(db.stats[u][c]) else None
  }

  /** Only members have a watermark. Not every member need have one. */
  ghost predicate MarksMembers(db: Db) {
    forall c, u :: Tracked(db, c, u) ==> Member(db, c, u)
  }

  lemma {:induction false} MarksJoinEach(db: Db, c: ChannelId, us: seq<UserId>, now: nat -> int)
    requires MarksMembers(db)
    ensures MarksMembers(JoinEach(db, c, us, now))
    decreases |us|
  {
    if us != [] {
      var rest := JoinEach(db, c, us[..|us| - 1], now);
      MarksJoinEach(db, c, us[..|us| - 1], now);
      MarksJoin(rest, c, [us[|us| - 1]], now(|us| - 1));
    }
  }

  lemma MarksJoin(db: Db, c: ChannelId, us: seq<UserId>, ts: int)
    requires MarksMembers(db)
    ensures MarksMembers(JoinRoom(db, c, us, ts))
  {
    if c in db.rooms {
      forall d, u | Tracked(JoinRoom(db, c, us, ts), d, u) ensures Member(JoinRoom(db, c, us, ts), d, u) {
        JoinRoomFacts(db, c, us, ts, d, u);
      }
    }
  }

  lemma MarksLeave(db: Db, c: ChannelId, us: seq<UserId>)
    requires MarksMembers(db)
    ensures MarksMembers(LeaveRoom(db, c, us))
  {
    if c in db.rooms {
      forall d, u | Tracked(LeaveRoom(db, c, us), d, u) ensures Member(LeaveRoom(db, c, us), d, u) {
        LeaveRoomFacts(db, c, us, d, u);
      }
    }
  }

  lemma MarksCreate(db: Db, owner: UserId, c: ChannelId, ts: int)
    requires MarksMembers(db)
    ensures MarksMembers(CreateRoom(db, owner, c, ts))
  {
    if c !in db.rooms {
      forall d, u | Tracked(CreateRoom(db, owner, c, ts), d, u) ensures Member(CreateRoom(db, owner, c, ts), d, u) {
        CreateRoomFacts(db, owner, c, ts, d, u);
      }
    }
  }

  /** No command gives a watermark to somebody who is not a member, join_room included. */
  lemma MarksStep(db: Db, cmd: Command)
    requires MarksMembers(db)
    ensures MarksMembers(Do(db, cmd))
  {
    match cmd
    case Subs(params, now) =>
      if SubsOk(db, params) {
        MarksCreate(db, params[2], params[1], now(0));
        MarksJoinEach(CreateRoom(db, params[2], params[1], now(0)), params[1], params[3..], (i: nat) => now(i + 1));
      }
    case AddUsers(params, now) =>
      if AddOk(db, params) { MarksJoinEach(db, params[0], params[1..], now); }
    case Unsubs(params) =>
      if |params| >= 2 { MarksLeave(db, params[0], params[1..]); }
    case Disolve(c) =>
      if c in db.rooms { MarksLeave(db, c, db.rooms[c]); }
    case Join(u, c, ts) => MarksJoin(db, c, [u], ts);
    case _ =>
      var r := Do(db, cmd);
      assert r.rooms == db.rooms;
      assert forall d, v :: Tracked(r, d, v) ==> Tracked(db, d, v);
      assert forall d, v :: Member(r, d, v) == Member(db, d, v);
  }

  lemma {:induction false} MarksRun(db: Db, cmds: seq<Command>)
    requires MarksMembers(db)
    ensures MarksMembers(Run(db, cmds))
    decreases |cmds|
  {
    if cmds != [] {
      MarksStep(db, cmds[0]);
      MarksRun(Do(db, cmds[0]), cmds[1..]);
    }
  }

  // ---- What each command does to one watermark ------------------------------------------

  /** The command adds `u` to `c`, with a watermark, or removes `u` from `c`. A join_room of a
      user who has no document writes no watermark. */
  predicate Touches(db: Db, cmd: Command, u: UserId, c: ChannelId) {
    match cmd
    case Subs(params, now) => SubsOk(db, params) && params[1] == c && u in params[2..]
    case AddUsers(params, now) => AddOk(db, params) && params[0] == c && u in params[1..]
    case Unsubs(params) => |params| >= 2 && params[0] == c && c in db.rooms && u in params[1..]
    case Disolve(room) => room == c && c != "" && Member(db, c, u)
    case CreateUser(_) => false
    case Ack(_, _, _) => false
    case Join(v, room, _) => v == u && room == c && c != "" && c in db.rooms && u in db.stats
  }

  lemma {:induction false} JoinEachOther(
    db: Db, c: ChannelId, us: seq<UserId>, now: nat -> int, u: UserId, d: ChannelId)
    requires d != c || u !in us
    ensures Watermark(JoinEach(db, c, us, now), u, d) == Watermark(db, u, d)
    decreases |us|
  {
    if us != [] {
      JoinEachOther(db, c, us[..|us| - 1], now, u, d);
    }
  }

  /** A command that does not touch the membership leaves the watermark, unless it is an ack
      of a later time. */
  lemma Untouched(db: Db, cmd: Command, u: UserId, c: ChannelId)
    requires MarksMembers(db) && !Touches(db, cmd, u, c)
    ensures var w := Watermark(db, u, c);
            Watermark(Do(db, cmd), u, c) ==
              if cmd.Ack? && cmd.user == u && cmd.room == c && w.Some? && w.value < cmd.ts then Some(cmd.ts) else w
  {
    match cmd
    case Subs(params, now) =>
      if SubsOk(db, params) {
        assert params[2..][0] == params[2] && params[2..][1..] == params[3..];
        var created := CreateRoom(db, params[2], params[1], now(0));
        JoinEachOther(created, params[1], params[3..], (i: nat) => now(i + 1), u, c);
      }
    case AddUsers(params, now) =>
      if AddOk(db, params) { JoinEachOther(db, params[0], params[1..], now, u, c); }
    case Disolve(room) =>
      if c == room { assert Tracked(db, c, u) ==> Member(db, c, u); }
    case _ =>
  }

  // ---- Between two memberships ----------------------------------------------------------

  ghost predicate NeverTouched(db: Db, cmds: seq<Command>, u: UserId, c: ChannelId)
    decreases |cmds|
  {
    cmds == [] ||
    (!Touches(db, cmds[0], u, c) && NeverTouched(Do(db, cmds[0]), cmds[1..], u, c))
  }

  /** The acknowledged times of `u` in `c`, in the order the acks arrived. */
  function AckTimes(cmds: seq<Command>, u: UserId, c: ChannelId): seq<int> {
    if cmds == [] then []
    else
      var rest := AckTimes(cmds[1..], u, c);
      if cmds[0].Ack? && cmds[0].user == u && cmds[0].room == c then [cmds[0].ts] + rest else rest
  }

  function MaxOf(start: int, times: seq<int>): (m: int)
    ensures m >= start && (m == start || m in times)
    ensures forall t :: t in times ==> t <= m
    decreases |times|
  {
    if times == [] then start
    else
      var m := MaxOf(if start < times[0] then times[0] else start, times[1..]);
      assert times == [times[0]] + times[1..];
      m
  }

  /** From a join on, until the membership changes: the watermark is the greatest of the join
      time and all acknowledged times. Without a membership acks never create one. */
  lemma {:induction false} WatermarkIsMax(db: Db, cmds: seq<Command>, u: UserId, c: ChannelId)
    requires MarksMembers(db) && NeverTouched(db, cmds, u, c)
    ensures var w := Watermark(db, u, c);
            Watermark(Run(db, cmds), u, c) == if w.Some? then Some(MaxOf(w.value, AckTimes(cmds, u, c))) else None
    decreases |cmds|
  {
    if cmds != [] {
      Untouched(db, cmds[0], u, c);
      MarksStep(db, cmds[0]);
      WatermarkIsMax(Do(db, cmds[0]), cmds[1..], u, c);
      var w, rest := Watermark(db, u, c), AckTimes(cmds[1..], u, c);
      if w.Some? && AckTimes(cmds, u, c) != rest {
        assert ([cmds[0].ts] + rest)[1..] == rest;
      }
    }
  }

  /** The order in which acks arrive does not matter. */
  lemma AnyOrder(start: int, a: seq<int>, b: seq<int>)
    requires multiset(a) == multiset(b)
    ensures MaxOf(start, a) == MaxOf(start, b)
  {
    var m, n := MaxOf(start, a), MaxOf(start, b);
    assert forall t :: t in a ==> t in multiset(a);
    assert forall t :: t in b ==> t in multiset(b);
    assert forall t :: t in multiset(a) ==> t in b;
    assert forall t :: t in multiset(b) ==> t in a;
  }

  /** A join sets the watermark to the time of the join, also for somebody already there. */
  lemma JoinSets(db: Db, c: ChannelId, us: seq<UserId>, ts: int, u: UserId)
    requires c in db.rooms && u in us && u in db.stats
    ensures Watermark(JoinRoom(db, c, us, ts), u, c) == Some(ts)
  {
  }

  lemma LeaveClears(db: Db, c: ChannelId, us: seq<UserId>, u: UserId)
    requires c in db.rooms && u in us
    ensures Watermark(LeaveRoom(db, c, us), u, c) == None
  {
    LeaveRoomFacts(db, c, us, c, u);
  }

  // ---- The command that decides a membership ----------------------------------------------

  /** The last position of a user in a list. */
  function LastOf(us: seq<UserId>, u: UserId): (k: nat)
    requires u in us
    ensures k < |us| && us[k] == u && forall i :: k < i < |us| ==> us[i] != u
  {
    if us[|us| - 1] == u then |us| - 1 else LastOf(us[..|us| - 1], u)
  }

  /** Users who join one by one: a user listed twice joins twice, and the later time counts. */
  lemma {:induction false} JoinEachSets(db: Db, c: ChannelId, us: seq<UserId>, now: nat -> int, u: UserId)
    requires c in db.rooms && u in us && u in db.stats
    ensures Watermark(JoinEach(db, c, us, now), u, c) == Some(now(LastOf(us, u)))
    decreases |us|
  {
    var rest, last := us[..|us| - 1], us[|us| - 1];
    JoinEachKnown(db, c, rest, now);
    if last != u { JoinEachSets(db, c, rest, now, u); }
  }

  lemma {:induction false} JoinEachKnown(db: Db, c: ChannelId, us: seq<UserId>, now: nat -> int)
    requires c in db.rooms
    ensures var r := JoinEach(db, c, us, now); c in r.rooms && r.stats.Keys == db.stats.Keys
    decreases |us|
  {
    if us != [] { JoinEachKnown(db, c, us[..|us| - 1], now); }
  }

  /** When the command joins `u` to a room: at the time of the user's last place in its list. */
  function JoinTime(cmd: Command, u: UserId): Option<int> {
    match cmd
    case Subs(params, now) =>
      if |params| >= 3 && u in params[2..] then Some(now(LastOf(params[2..], u))) else None
    case AddUsers(params, now) =>
      if |params| >= 2 && u in params[1..] then Some(now(LastOf(params[1..], u))) else None
    case Join(v, _, ts) => if v == u then Some(ts) else None
    case _ => None
  }

  lemma SubsSets(db: Db, params: seq<string>, now: nat -> int, u: UserId)
    requires SubsOk(db, params) && u in params[2..]
    ensures Watermark(Do(db, Subs(params, now)), u, params[1]) == Some(now(LastOf(params[2..], u)))
  {
    var all := params[2..];
    var i :| 0 <= i < |all| && all[i] == u;
    assert all[0] == params[2] && all[1..] == params[3..];
    CreatedThenJoined(db, params[1], all, now, u);
  }

  /** The owner makes the room, the others join it one by one. */
  lemma CreatedThenJoined(db: Db, c: ChannelId, all: seq<UserId>, now: nat -> int, u: UserId)
    requires c !in db.rooms && u in all && u in db.stats
    ensures var created := CreateRoom(db, all[0], c, now(0));
            Watermark(JoinEach(created, c, all[1..], (i: nat) => now(i + 1)), u, c) == Some(now(LastOf(all, u)))
  {
    var created, later := CreateRoom(db, all[0], c, now(0)), (i: nat) => now(i + 1);
    if u in all[1..] {
      JoinEachSets(created, c, all[1..], later, u);
      LastOfTail(all, u);
    } else {
      JoinEachOther(created, c, all[1..], later, u, c);
      LastOfHead(all, u);
    }
  }

  lemma LastOfTail(us: seq<UserId>, u: UserId)
    requires us != [] && u in us[1..]
    ensures u in us && LastOf(us, u) == LastOf(us[1..], u) + 1
  {
    var k := LastOf(us[1..], u);
    assert us[k + 1] == u;
    assert forall i :: k + 1 < i < |us| ==> us[i] == us[1..][i - 1];
  }

  lemma LastOfHead(us: seq<UserId>, u: UserId)
    requires u in us && u !in us[1..]
    ensures LastOf(us, u) == 0
  {
    assert forall i :: 1 <= i < |us| ==> us[1..][i - 1] == us[i];
  }

  /** The commands set the watermark they should: the join time, or none after a removal. */
  lemma TouchSets(db: Db, cmd: Command, u: UserId, c: ChannelId)
    requires Touches(db, cmd, u, c)
    ensures Watermark(Do(db, cmd), u, c) == JoinTime(cmd, u)
  {
    match cmd
    case Subs(params, now) => SubsSets(db, params, now, u);
    case AddUsers(params, now) =>
      var i :| 0 <= i < |params[1..]| && params[1..][i] == u;
      JoinEachSets(db, c, params[1..], now, u);
    case Unsubs(params) => LeaveClears(db, c, params[1..], u);
    case Disolve(room) => LeaveClears(db, c, db.rooms[c], u);
    case Join(v, room, ts) => JoinSets(db, c, [u], ts, u);
    case _ =>
  }

  /** How many commands of the run it takes up to the last that touches the membership. */
  ghost function LastTouch(db: Db, cmds: seq<Command>, u: UserId, c: ChannelId): (k: nat)
    ensures k <= |cmds|
    decreases |cmds|
  {
    if cmds == [] then 0
    else
      var k := LastTouch(Do(db, cmds[0]), cmds[1..], u, c);
      if k > 0 then k + 1 else if Touches(db, cmds[0], u, c) then 1 else 0
  }

  /** What the watermark should be: from the last command that touched the membership, its join
      time, raised to the greatest of the times acknowledged since. `start` is for a membership
      that no command of the run touched. */
  ghost function Wanted(db: Db, cmds: seq<Command>, u: UserId, c: ChannelId, start: Option<int>): Option<int> {
    var k := LastTouch(db, cmds, u, c);
    var from := if k == 0 then start else JoinTime(cmds[k - 1], u);
    if from.Some? then Some(MaxOf(from.value, AckTimes(cmds[k..], u, c))) else None
  }

  lemma {:induction false} UntouchedRun(db: Db, cmds: seq<Command>, u: UserId, c: ChannelId)
    ensures LastTouch(db, cmds, u, c) == 0 <==> NeverTouched(db, cmds, u, c)
    decreases |cmds|
  {
    if cmds != [] { UntouchedRun(Do(db, cmds[0]), cmds[1..], u, c); }
  }

  /** After any run every watermark is what it should be: the maximum of the time of the last
      join and the times acknowledged since, or none after a removal. */
  lemma {:induction false} WatermarkExactly(db: Db, cmds: seq<Command>, u: UserId, c: ChannelId)
    requires MarksMembers(db)
    ensures Watermark(Run(db, cmds), u, c) == Wanted(db, cmds, u, c, Watermark(db, u, c))
    decreases |cmds|
  {
    UntouchedRun(db, cmds, u, c);
    if LastTouch(db, cmds, u, c) == 0 {
      WatermarkIsMax(db, cmds, u, c);
      assert cmds[0..] == cmds;
    } else {
      var next, rest := Do(db, cmds[0]), cmds[1..];
      var k := LastTouch(next, rest, u, c);
      MarksStep(db, cmds[0]);
      WatermarkExactly(next, rest, u, c);
      assert cmds[k + 1..] == rest[k..];
      if k == 0 {
        TouchSets(db, cmds[0], u, c);
      } else {
        assert rest[k - 1] == cmds[k];
      }
    }
  }

  // ---- The message log ------------------------------------------------------------------

  type Msg = Storage.Msg

  function Filter<T>(s: seq<T>, p: T -> bool): (r: seq<T>)
    ensures forall i :: 0 <= i < |r| ==> p(r[i])
  {
    if s == [] then []
    else
      var rest := Filter(s[..|s| - 1], p);
      if p(s[|s| - 1]) then rest + [s[|s| - 1]] else rest
  }

  /** `places` are the positions, in order, of exactly the messages asked for, and `r` holds the
      messages found there: each as often as logged, and in log order. */
  ghost predicate Finds<T(!new)>(log: seq<T>, asked: T -> bool, r: seq<T>, places: seq<nat>) {
    && |places| == |r|
    && (forall i, j :: 0 <= i < j < |places| ==> places[i] < places[j])
    && (forall i :: 0 <= i < |r| ==> places[i] < |log| && r[i] == log[places[i]])
    && (forall k :: 0 <= k < |log| ==> (asked(log[k]) <==> k in places))
  }

  function Places<T>(s: seq<T>, p: T -> bool): (r: seq<nat>)
    ensures forall i :: 0 <= i < |r| ==> r[i] < |s|
  {
    if s == [] then []
    else
      var rest := Places(s[..|s| - 1], p);
      if p(s[|s| - 1]) then rest + [|s| - 1] else rest
  }

  /** A query finds all that it asks for and nothing else. */
  lemma {:induction false} FilterFinds<T(!new)>(s: seq<T>, p: T -> bool)
    ensures Finds(s, p, Filter(s, p), Places(s, p))
    decreases |s|
  {
    if s != [] {
      var front, last := s[..|s| - 1], |s| - 1;
      FilterFinds(front, p);
      var r, places := Filter(front, p), Places(front, p);
      var all := Places(s, p);
      forall k | 0 <= k < |s|
        ensures p(s[k]) <==> k in all
      {
        if k < last { assert p(front[k]) <==> k in places; }
        assert k == last ==> k !in places;
      }
    }
  }

  lemma {:induction false} FilterConcat<T>(a: seq<T>, b: seq<T>, p: T -> bool)
    ensures Filter(a + b, p) == Filter(a, p) + Filter(b, p)
    decreases |b|
  {
    if b == [] {
      assert a + b == a;
    } else {
      assert (a + b)[..|a + b| - 1] == a + b[..|b| - 1];
      FilterConcat(a, b[..|b| - 1], p);
    }
  }

  /** Each message asked for is returned as often as it is logged. */
  lemma {:induction false} FilterCounts<T>(s: seq<T>, p: T -> bool, x: T)
    ensures multiset(Filter(s, p))[x] == if p(x) then multiset(s)[x] else 0
    decreases |s|
  {
    if s != [] {
      FilterCounts(s[..|s| - 1], p, x);
      assert s == s[..|s| - 1] + [s[|s| - 1]];
    }
  }

  /** The query of offline_msg for one channel. */
  function Offline(log: seq<Msg>, u: UserId, c: ChannelId, ts: int): seq<Msg> {
    Filter(log, (m: Msg) => m.ts > ts && m.channel == c && m.uuid != u)
  }

  /** The query of history. */
  function History(log: seq<Msg>, c: ChannelId, ts: int): seq<Msg> {
    Filter(log, (m: Msg) => m.ts > ts && m.channel == c)
  }

  function Own(log: seq<Msg>, u: UserId, c: ChannelId): seq<Msg> {
    Filter(log, (m: Msg) => m.channel == c && m.uuid == u)
  }

  function Seen(log: seq<Msg>, u: UserId, c: ChannelId, ts: int): seq<Msg> {
    Filter(log, (m: Msg) => m.channel == c && m.uuid != u && m.ts <= ts)
  }

  /** A channel's log splits exactly into the user's own messages, those of others at or
      below the watermark, and those offline_msg returns. */
  lemma {:induction false} LogSplits(log: seq<Msg>, u: UserId, c: ChannelId, ts: int)
    ensures multiset(Filter(log, (m: Msg) => m.channel == c)) ==
            multiset(Own(log, u, c)) + multiset(Seen(log, u, c, ts)) + multiset(Offline(log, u, c, ts))
    decreases |log|
  {
    if log != [] {
      LogSplits(log[..|log| - 1], u, c, ts);
    }
  }

  /** What is offline after an ack is what was offline before it and lies above the ack, in
      the same order. */
  lemma {:induction false} OfflineAfterAck(log: seq<Msg>, u: UserId, c: ChannelId, before: int, after: int)
    requires before <= after
    ensures Offline(log, u, c, after) == Filter(Offline(log, u, c, before), (m: Msg) => m.ts > after)
    decreases |log|
  {
    if log != [] {
      var rest, last := log[..|log| - 1], log[|log| - 1];
      OfflineAfterAck(rest, u, c, before, after);
      var b := Offline(rest, u, c, before);
      assert (b + [last])[..|b|] == b;
    }
  }

  /** What offline_msg returns is the history of the same range without the user's own. */
  lemma {:induction false} OfflineIsHistoryOfOthers(log: seq<Msg>, u: UserId, c: ChannelId, ts: int)
    ensures Offline(log, u, c, ts) == Filter(History(log, c, ts), (m: Msg) => m.uuid != u)
    decreases |log|
  {
    if log != [] {
      var rest, last := log[..|log| - 1], log[|log| - 1];
      OfflineIsHistoryOfOthers(rest, u, c, ts);
      var h := History(rest, c, ts);
      assert (h + [last])[..|h|] == h;
    }
  }

  /** The whole reply of offline_msg: only channels with something in them. */
  function OfflineReply(db: Db, log: seq<Msg>, u: UserId): map<ChannelId, seq<Msg>> {
    if u !in db.stats then map[]
    else map c | c in db.stats[u] && Offline(log, u, c, db.stats[u][c]) != [] :: Offline(log, u, c, db.stats[u][c])
  }

  /** What offline_msg is asked for in one channel: what others wrote there above the mark. */
  predicate IsOffline(m: Msg, u: UserId, c: ChannelId, mark: int) {
    m.channel == c && m.uuid != u && m.ts > mark
  }

  /** `r` holds exactly those messages, in log order; `places` says where in the log. */
  ghost predicate AnswersOffline(log: seq<Msg>, u: UserId, c: ChannelId, mark: int, r: seq<Msg>, places: seq<nat>) {
    Finds(log, (m: Msg) => IsOffline(m, u, c, mark), r, places)
  }

  /** offline_msg: one query a channel the user has a watermark for. The reply has the channels
      with such a message, and for each of them all such messages, as often as logged and in log
      order, and nothing else. */
  method OfflineMsg(db: Db, log: seq<Msg>, u: UserId) returns (data: map<ChannelId, seq<Msg>>)
    ensures data == OfflineReply(db, log, u)
    ensures forall c :: c in data <==>
              Tracked(db, c, u) && exists k :: 0 <= k < |log| && IsOffline(log[k], u, c, db.stats[u][c])
    ensures forall c :: c in data ==>
              exists places :: AnswersOffline(log, u, c, db.stats[u][c], data[c], places)
    ensures forall c, k :: c in data && 0 <= k < |log| && IsOffline(log[k], u, c, db.stats[u][c]) ==>
              multiset(data[c])[log[k]] == multiset(log)[log[k]]
  {
    data := map[];
    if u in db.stats {
      var todo := db.stats[u].Keys;
      while todo != {}
        invariant todo <= db.stats[u].Keys
        invariant data == map c | c in db.stats[u] && c !in todo && Offline(log, u, c, db.stats[u][c]) != [] ::
                            Offline(log, u, c, db.stats[u][c])
        decreases |todo|
      {
        var c :| c in todo;
        var found := Offline(log, u, c, db.stats[u][c]);
        if |found| > 0 {
          data := data[c := found];
        }
        todo := todo - {c};
      }
      forall c | c in db.stats[u] { OfflineIs(log, u, c, db.stats[u][c]); }
    }
  }

  lemma OfflineIs(log: seq<Msg>, u: UserId, c: ChannelId, mark: int)
    ensures var r := Offline(log, u, c, mark);
            && (r != [] <==> exists k :: 0 <= k < |log| && IsOffline(log[k], u, c, mark))
            && (exists places :: AnswersOffline(log, u, c, mark, r, places))
            && (forall k :: 0 <= k < |log| && IsOffline(log[k], u, c, mark) ==>
                  multiset(r)[log[k]] == multiset(log)[log[k]])
  {
    var p := (m: Msg) => m.ts > mark && m.channel == c && m.uuid != u;
    var q := (m: Msg) => IsOffline(m, u, c, mark);
    var r, places := Offline(log, u, c, mark), Places(log, p);
    FilterFinds(log, p);
    assert Finds(log, p, r, places);
    assert Finds(log, q, r, places) && AnswersOffline(log, u, c, mark, r, places);
    assert r != [] ==> IsOffline(log[places[0]], u, c, mark);
    forall k | 0 <= k < |log| && IsOffline(log[k], u, c, mark)
      ensures r != [] && multiset(r)[log[k]] == multiset(log)[log[k]]
    {
      assert p(log[k]) && k in places;
      FilterCounts(log, p, log[k]);
    }
  }

  function ReplyFor(reply: map<ChannelId, seq<Msg>>, c: ChannelId): seq<Msg> {
    if c in reply then reply[c] else []
  }

  /** From commands to reply, after any run: a user with a watermark finds the room's log split
      into the user's own messages, those of others up to the maximum of the last join time and
      the later acks, and exactly what offline_msg returns for the room. Without a watermark
      nothing is returned for it. */
  lemma OfflineExactly(db: Db, cmds: seq<Command>, log: seq<Msg>, u: UserId, c: ChannelId)
    requires MarksMembers(db)
    ensures var mark := Wanted(db, cmds, u, c, Watermark(db, u, c));
            var reply := OfflineReply(Run(db, cmds), log, u);
            if mark.None? then c !in reply
            else
              multiset(Filter(log, (m: Msg) => m.channel == c)) ==
                multiset(Own(log, u, c)) + multiset(Seen(log, u, c, mark.value)) + multiset(ReplyFor(reply, c))
    ensures var mark := Wanted(db, cmds, u, c, Watermark(db, u, c));
            forall m :: multiset(ReplyFor(OfflineReply(Run(db, cmds), log, u), c))[m] ==
              if mark.Some? && IsOffline(m, u, c, mark.value) then multiset(log)[m] else 0
  {
    WatermarkExactly(db, cmds, u, c);
    if Tracked(Run(db, cmds), c, u) {
      var mark := Run(db, cmds).stats[u][c];
      LogSplits(log, u, c, mark);
      forall m { FilterCounts(log, (m: Msg) => m.ts > mark && m.channel == c && m.uuid != u, m); }
    }
  }

  /** Who has a watermark: in any run only members, and all of them if join_room joins nobody
      without a document. */
  lemma MarkedAreMembers(db: Db, cmds: seq<Command>, u: UserId, c: ChannelId)
    requires Consistent(db)
    ensures Tracked(Run(db, cmds), c, u) ==> Member(Run(db, cmds), c, u)
    ensures AllJoinKnown(db, cmds) && Member(Run(db, cmds), c, u) ==> Tracked(Run(db, cmds), c, u)
  {
    MarksRun(db, cmds);
    if AllJoinKnown(db, cmds) { ConsistentRun(db, cmds); }
  }

  /** Somebody who is not in a room gets nothing from it. */
  lemma NothingForOthers(db: Db, cmds: seq<Command>, log: seq<Msg>, u: UserId, c: ChannelId)
    requires MarksMembers(db) && !Member(Run(db, cmds), c, u)
    ensures c !in OfflineReply(Run(db, cmds), log, u)
  {
    MarksRun(db, cmds);
    assert !Tracked(Run(db, cmds), c, u);
  }

  /** Acknowledging the latest of what was returned empties the channel's next reply. */
  lemma NothingLeftAfterAck(db: Db, log: seq<Msg>, u: UserId, c: ChannelId, ts: int)
    requires c in OfflineReply(db, log, u)
    requires forall i :: 0 <= i < |OfflineReply(db, log, u)[c]| ==> OfflineReply(db, log, u)[c][i].ts <= ts
    ensures c !in OfflineReply(AckStat(db, u, c, ts), log, u)
  {
    var w := db.stats[u][c];
    var got := Offline(log, u, c, w);
    var w' := AckStat(db, u, c, ts).stats[u][c];
    assert got[0].ts > w;
    assert w' == ts;
    OfflineAfterAck(log, u, c, w, w');
    var left := Filter(got, (m: Msg) => m.ts > w');
    FilterNone(got, (m: Msg) => m.ts > w');
  }

  lemma {:induction false} FilterNone<T>(s: seq<T>, p: T -> bool)
    requires forall i :: 0 <= i < |s| ==> !p(s[i])
    ensures Filter(s, p) == []
    decreases |s|
  {
    if s != [] {
      FilterNone(s[..|s| - 1], p);
    }
  }
}
