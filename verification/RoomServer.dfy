/** The room functions and commands as the source runs them: loops over users, one
    collection after another, each method proved against its function in `Rooms`. */
module RoomServer {
  import opened Mongo
  import opened Rooms

  /** One more user, listed before or not: adding or pulling twice changes nothing. */
  lemma AddNext(chans: map<UserId, seq<ChannelId>>, us: seq<UserId>, i: nat, c: ChannelId)
    requires i < |us|
    ensures var m := AddChans(chans, us[..i], c);
            AddChans(chans, us[..i + 1], c) == m[us[i] := AddToSet(ChansOf(m, us[i]), c)]
  {
    assert us[..i + 1] == us[..i] + [us[i]];
  }

  lemma PullNext(chans: map<UserId, seq<ChannelId>>, us: seq<UserId>, i: nat, c: ChannelId)
    requires i < |us|
    ensures var m := PullChans(chans, us[..i], c);
            PullChans(chans, us[..i + 1], c) == if us[i] in m then m[us[i] := Pull(m[us[i]], c)] else m
  {
    assert us[..i + 1] == us[..i] + [us[i]];
    if us[i] in chans && us[i] in us[..i] { PullAllOther(Pull(chans[us[i]], c), [c]); }
  }

  class Server {
    var rooms: map<ChannelId, seq<UserId>>
    var stats: Stats
    var chans: map<UserId, seq<ChannelId>>

    ghost function View(): Db
      reads this
    {
      Db(rooms, stats, chans)
    }

    constructor ()
      ensures View() == Db(map[], map[], map[]) && Consistent(View())
    {
      rooms, stats, chans := map[], map[], map[];
    }

    method SetStat(us: seq<UserId>, c: ChannelId, ts: int)
      modifies this`stats
      ensures stats == SetStats(old(stats), us, c, ts)
    {
      for i := 0 to |us|
        invariant stats == SetStats(old(stats), us[..i], c, ts)
      {
        assert us[..i + 1] == us[..i] + [us[i]];
        if us[i] in stats {
          assert stats[us[i]][c := ts] == old(stats)[us[i]][c := ts];
          stats := stats[us[i] := stats[us[i]][c := ts]];
        }
      }
      assert us[..|us|] == us;
    }

    method UnsetStat(us: seq<UserId>, c: ChannelId)
      modifies this`stats
      ensures stats == UnsetStats(old(stats), us, c)
    {
      for i := 0 to |us|
        invariant stats == UnsetStats(old(stats), us[..i], c)
      {
        assert us[..i + 1] == us[..i] + [us[i]];
        if us[i] in stats {
          assert stats[us[i]] - {c} == old(stats)[us[i]] - {c};
          stats := stats[us[i] := stats[us[i]] - {c}];
        }
      }
      assert us[..|us|] == us;
    }

    method AddChan(us: seq<UserId>, c: ChannelId)
      modifies this`chans
      ensures chans == AddChans(old(chans), us, c)
    {
      for i := 0 to |us|
        invariant chans == AddChans(old(chans), us[..i], c)
      {
        AddNext(old(chans), us, i, c);
        chans := chans[us[i] := AddToSet(ChansOf(chans, us[i]), c)];
      }
      assert us[..|us|] == us;
    }

    method PullChan(us: seq<UserId>, c: ChannelId)
      modifies this`chans
      ensures chans == PullChans(old(chans), us, c)
    {
      for i := 0 to |us|
        invariant chans == PullChans(old(chans), us[..i], c)
      {
        PullNext(old(chans), us, i, c);
        if us[i] in chans {
          chans := chans[us[i] := Pull(chans[us[i]], c)];
        }
      }
      assert us[..|us|] == us;
    }

    method CreateTheRoom(owner: UserId, c: ChannelId, ts: int) returns (ok: bool)
      modifies this
      ensures View() == CreateRoom(old(View()), owner, c, ts)
      ensures ok <==> c !in old(rooms)
    {
      if c in rooms {
        return false;
      }
      rooms := rooms[c := [owner]];
      stats := stats[owner := (if owner in stats then stats[owner] else map[])[c := ts]];
      AddChan([owner], c);
      return true;
    }

    method JoinTheRoom(c: ChannelId, us: seq<UserId>, ts: int) returns (ok: bool)
      modifies this
      ensures View() == JoinRoom(old(View()), c, us, ts)
      ensures ok <==> c in old(rooms)
    {
      if c !in rooms {
        return false;
      }
      rooms := rooms[c := AddEach(rooms[c], us)];
      SetStat(us, c, ts);
      AddChan(us, c);
      return true;
    }

    method LeaveTheRoom(c: ChannelId, us: seq<UserId>) returns (ok: bool)
      modifies this
      ensures View() == LeaveRoom(old(View()), c, us)
      ensures ok <==> c in old(rooms)
    {
      if c !in rooms {
        return false;
      }
      rooms := rooms[c := PullAll(rooms[c], us)];
      if rooms[c] == [] {
        rooms := rooms - {c};
      }
      UnsetStat(us, c);
      PullChan(us, c);
      return true;
    }

    method DisolveTheRoom(c: ChannelId) returns (ok: bool)
      modifies this
      ensures View() == DisolveRoom(old(View()), c)
      ensures ok <==> c in old(rooms)
    {
      if c !in rooms {
        return false;
      }
      var us := [];
      for i := 0 to |rooms[c]|
        invariant us == rooms[c][..i]
        invariant View() == old(View())
      {
        us := us + [rooms[c][i]];
      }
      assert us == rooms[c];
      ok := LeaveTheRoom(c, us);
    }

    /** The first loop of subs and add_into_room: is every user known? */
    method CheckUsers(us: seq<UserId>) returns (ok: bool)
      ensures ok <==> AllKnown(View(), us)
    {
      for i := 0 to |us|
        invariant forall j :: 0 <= j < i ==> us[j] in stats
      {
        if us[i] !in stats {
          return false;
        }
      }
      return true;
    }

    /** The second loop: one joinRoom a user. */
    method JoinOneByOne(c: ChannelId, us: seq<UserId>, now: nat -> int) returns (ok: bool)
      requires c in rooms
      modifies this
      ensures View() == JoinEach(old(View()), c, us, now)
      ensures ok
    {
      for i := 0 to |us|
        invariant View() == JoinEach(old(View()), c, us[..i], now) && c in rooms
      {
        assert us[..i + 1][..i] == us[..i];
        ok := JoinTheRoom(c, [us[i]], now(i));
        if !ok {
          return;
        }
      }
      assert us[..|us|] == us;
      return true;
    }

    method SubsCommand(params: seq<string>, now: nat -> int) returns (code: Code)
      modifies this
      ensures View() == Do(old(View()), Subs(params, now))
      ensures code.Success? <==>
                && |params| >= 3 && params[1] !in old(rooms)
                && forall i :: 2 <= i < |params| ==> params[i] in old(stats)
      ensures code.ParamError? <==> |params| < 3
    {
      if |params| < 3 {
        return ParamError;
      }
      var ok := CheckUsers(params[2..]);
      if !ok || params[1] in rooms {
        return Refused;
      }
      ok := CreateTheRoom(params[2], params[1], now(0));
      if !ok {
        return Refused;
      }
      ok := JoinOneByOne(params[1], params[3..], (i: nat) => now(i + 1));
      return if ok then Success else Refused;
    }

    method AddUsersCommand(params: seq<string>, now: nat -> int) returns (code: Code)
      modifies this
      ensures View() == Do(old(View()), AddUsers(params, now))
      ensures code.Success? <==>
                && |params| >= 2 && params[0] in old(rooms)
                && forall i :: 1 <= i < |params| ==> params[i] in old(stats)
      ensures code.ParamError? <==> |params| < 2
    {
      if |params| < 2 {
        return ParamError;
      }
      if params[0] !in rooms {
        return Refused;
      }
      var ok := CheckUsers(params[1..]);
      if !ok {
        return Refused;
      }
      ok := JoinOneByOne(params[0], params[1..], now);
      return if ok then Success else Refused;
    }

    method UnsubsCommand(params: seq<string>) returns (code: Code)
      modifies this
      ensures View() == Do(old(View()), Unsubs(params))
      ensures code.Success? <==> |params| >= 2 && params[0] in old(rooms)
      ensures code.ParamError? <==> |params| < 2
    {
      if |params| < 2 {
        return ParamError;
      }
      var ok := LeaveTheRoom(params[0], params[1..]);
      return if ok then Success else Refused;
    }

    method DisolveCommand(c: ChannelId) returns (code: Code)
      modifies this
      ensures View() == Do(old(View()), Disolve(c))
      ensures code.Success? <==> c != "" && c in old(rooms)
      ensures code.ParamError? <==> c == ""
    {
      if c == "" {
        return ParamError;
      }
      var ok := DisolveTheRoom(c);
      return if ok then Success else Refused;
    }

    method CreateUserCommand(u: UserId) returns (code: Code)
      modifies this
      ensures View() == Do(old(View()), CreateUser(u))
      ensures code.Success? <==> u != "" && u !in old(stats)
      ensures code.ParamError? <==> u == ""
      ensures u != "" ==> u in stats && (u !in old(stats) ==> stats[u] == map[])
      ensures forall v :: v in old(stats) ==> v in stats && stats[v] == old(stats)[v]
    {
      if u == "" {
        return ParamError;
      }
      if u in stats {
        return Refused;
      }
      stats := stats[u := map[]];
      return Success;
    }

    method AckMsg(u: UserId, c: ChannelId, ts: int)
      modifies this
      ensures View() == Do(old(View()), Ack(u, c, ts))
    {
      if u in stats && c in stats[u] && stats[u][c] < ts {
        stats := stats[u := stats[u][c := ts]];
      }
    }

    method JoinRoomCommand(client: UserId, c: ChannelId, ts: int) returns (code: Code)
      modifies this
      ensures View() == Do(old(View()), Join(client, c, ts))
      ensures code.Success? <==> c != "" && c in old(rooms)
      ensures code.ParamError? <==> c == ""
    {
      if c == "" {
        return ParamError;
      }
      var ok := JoinTheRoom(c, [client], ts);
      return if ok then Success else Refused;
    }
  }
}
