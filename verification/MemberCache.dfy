/** The per-node cache `channelToUserIds`: which users a node believes to be in a room. The
    commands of `Rooms` run whole, here or on another node; publishes load missing entries;
    the LRU cache may drop any entry at any time. */
module MemberCache {
  import opened Mongo
  import opened Rooms

  datatype Node = Node(db: Db, cache: map<ChannelId, set<UserId>>)

  datatype Event =
    | Here(cmd: Command)    // a command processed by this node
    | There(cmd: Command)   // a command processed by another node: same database, other cache
    | Load(room: ChannelId) // LoadUserIdsByChannel, on every publish
    | Evict(room: ChannelId)

  function Stored(db: Db, c: ChannelId): set<UserId> {
    if c in db.rooms then set u | u in db.rooms[c] else {}
  }

  // ---- The cache operations -------------------------------------------------------------

  /** AddAllUserIds: creates the entry if it is missing. */
  function AddAll(cache: map<ChannelId, set<UserId>>, c: ChannelId, us: set<UserId>): map<ChannelId, set<UserId>> {
    cache[c := (if c in cache then cache[c] else {}) + us]
  }

  /** RemoveUserId for each of `us`: does nothing if the entry is missing. */
  function RemoveAll(cache: map<ChannelId, set<UserId>>, c: ChannelId, us: set<UserId>): map<ChannelId, set<UserId>> {
    if c in cache then cache[c := cache[c] - us] else cache
  }

  /** LoadUserIdsFromDatabase: fails without touching the cache if the room does not exist. */
  function LoadFromDatabase(db: Db, cache: map<ChannelId, set<UserId>>, c: ChannelId): map<ChannelId, set<UserId>> {
    if c in db.rooms then AddAll(cache, c, Stored(db, c)) else cache
  }

  function Users(us: seq<UserId>): set<UserId> { set u | u in us }

  /** The cache after a command processed here; `db` is the database after the command. */
  function CacheAfter(
    before: Db, cmd: Command, db: Db, cache: map<ChannelId, set<UserId>>): map<ChannelId, set<UserId>>
  {
    match cmd
    case AddUsers(params, now) =>
      if !AddOk(before, params) then cache
      else if params[0] in cache then AddAll(cache, params[0], Users(params[1..]))
      else LoadFromDatabase(db, cache, params[0])
    case Unsubs(params) =>
      if |params| >= 2 && params[0] in before.rooms then RemoveAll(cache, params[0], Users(params[1..])) else cache
    case Disolve(c) => if c != "" && c in before.rooms then cache - {c} else cache
    case Subs(_, _) => cache
    case CreateUser(_) => cache
    case Ack(_, _, _) => cache
    case Join(_, _, _) => cache
  }

  function Handle(n: Node, e: Event): Node {
    match e
    case Here(cmd) =>
      var db := Rooms.Do(n.db, cmd);
      Node(db, CacheAfter(n.db, cmd, db, n.cache))
    case There(cmd) => n.(db := Rooms.Do(n.db, cmd))
    case Load(c) => if c in n.cache then n else n.(cache := LoadFromDatabase(n.db, n.cache, c))
    case Evict(c) => n.(cache := n.cache - {c})
  }

  /** A publish caches the members of an uncached room that exists; an eviction uncaches. Commands
      of other nodes, and those that are refused, leave the cache as it is. */
  lemma LoadAndEvict(n: Node, c: ChannelId, cmd: Command)
    ensures Handle(n, Load(c)).db == Handle(n, Evict(c)).db == n.db
    ensures Handle(n, Load(c)).cache ==
            if c !in n.cache && c in n.db.rooms then n.cache[c := Stored(n.db, c)] else n.cache
    ensures Handle(n, Evict(c)).cache == n.cache - {c}
    ensures Handle(n, There(cmd)).cache == n.cache
    ensures cmd.Subs? || cmd.Join? || cmd.CreateUser? || cmd.Ack? ==> Handle(n, Here(cmd)).cache == n.cache
  {
    assert {} + Stored(n.db, c) == Stored(n.db, c);
  }

  function HandleAll(n: Node, es: seq<Event>): Node
    decreases |es|
  {
    if es == [] then n else HandleAll(Handle(n, es[0]), es[1..])
  }

  // ---- Membership after a command -------------------------------------------------------

  lemma {:induction false} JoinEachMember(
    db: Db, c: ChannelId, us: seq<UserId>, now: nat -> int, d: ChannelId, u: UserId)
    requires c in db.rooms
    ensures var r := JoinEach(db, c, us, now);
            r.rooms.Keys == db.rooms.Keys && (Member(r, d, u) <==> Member(db, d, u) || (d == c && u in us))
    decreases |us|
  {
    if us != [] {
      var rest, last := us[..|us| - 1], us[|us| - 1];
      JoinEachMember(db, c, rest, now, d, u);
      JoinRoomFacts(JoinEach(db, c, rest, now), c, [last], now(|us| - 1), d, u);
    }
  }

  /** The members the command adds to, and removes from, room `d`. */
  function Added(db: Db, cmd: Command, d: ChannelId): set<UserId> {
    match cmd
    case Subs(params, now) => if SubsOk(db, params) && params[1] == d then Users(params[2..]) else {}
    case AddUsers(params, now) => if AddOk(db, params) && params[0] == d then Users(params[1..]) else {}
    case Join(u, c, ts) => if c != "" && c in db.rooms && c == d then {u} else {}
    case _ => {}
  }

  function Removed(db: Db, cmd: Command, d: ChannelId): set<UserId> {
    match cmd
    case Unsubs(params) => if |params| >= 2 && params[0] == d then Users(params[1..]) else {}
    case Disolve(c) => if c != "" && c == d then Stored(db, d) else {}
    case _ => {}
  }

  lemma SubsMember(db: Db, params: seq<string>, now: nat -> int, d: ChannelId, u: UserId)
    requires SubsOk(db, params)
    ensures Member(Rooms.Do(db, Subs(params, now)), d, u) <==> Member(db, d, u) || (d == params[1] && u in params[2..])
  {
    CreateRoomFacts(db, params[2], params[1], now(0), d, u);
    JoinEachMember(CreateRoom(db, params[2], params[1], now(0)), params[1], params[3..], (i: nat) => now(i + 1), d, u);
    assert params[2..] == [params[2]] + params[3..];
  }

  lemma MemberAfter(db: Db, cmd: Command, d: ChannelId, u: UserId)
    ensures Member(Rooms.Do(db, cmd), d, u) <==>
            (Member(db, d, u) || u in Added(db, cmd, d)) && u !in Removed(db, cmd, d)
  {
    match cmd
    case Subs(params, now) =>
      if SubsOk(db, params) { SubsMember(db, params, now, d, u); }
    case AddUsers(params, now) =>
      if AddOk(db, params) { JoinEachMember(db, params[0], params[1..], now, d, u); }
    case Unsubs(params) =>
      if |params| >= 2 && params[0] in db.rooms { LeaveRoomFacts(db, params[0], params[1..], d, u); }
    case Disolve(c) =>
      if c in db.rooms { LeaveRoomFacts(db, c, db.rooms[c], d, u); }
    case _ =>
  }

  lemma StoredAfter(db: Db, cmd: Command, d: ChannelId)
    ensures Stored(Rooms.Do(db, cmd), d) == Stored(db, d) + Added(db, cmd, d) - Removed(db, cmd, d)
  {
    var r := Rooms.Do(db, cmd);
    forall u
      ensures u in Stored(r, d) <==> u in Stored(db, d) + Added(db, cmd, d) - Removed(db, cmd, d)
    {
      MemberAfter(db, cmd, d, u);
      assert Member(r, d, u) <==> u in Stored(r, d);
      assert Member(db, d, u) <==> u in Stored(db, d);
    }
  }

  // ---- The cache never names a non-member -----------------------------------------------

  /** Every cached set is a subset of the stored members. */
  ghost predicate Sound(n: Node) {
    forall c :: c in n.cache ==> n.cache[c] <= Stored(n.db, c)
  }

  /** What breaks it: another node removes a member this node has cached. */
  predicate KeepsCached(n: Node, e: Event, c: ChannelId) {
    e.There? && c in n.cache ==> Removed(n.db, e.cmd, c) !! n.cache[c]
  }

  lemma SoundRoom(n: Node, e: Event, c: ChannelId)
    requires c in n.cache ==> n.cache[c] <= Stored(n.db, c)
    ensures var r := Handle(n, e);
            (c in r.cache ==> r.cache[c] <= Stored(r.db, c)) <==> KeepsCached(n, e, c)
  {
    if e.Here? || e.There? {
      StoredAfter(n.db, e.cmd, c);
    }
  }

  /** One event keeps every cached set inside the stored members exactly when it does not
      remove a cached member behind this node's back. */
  lemma SoundExactly(n: Node, e: Event)
    requires Sound(n)
    ensures Sound(Handle(n, e)) <==> forall c :: KeepsCached(n, e, c)
  {
    forall c
      ensures var r := Handle(n, e);
              (c in r.cache ==> r.cache[c] <= Stored(r.db, c)) <==> KeepsCached(n, e, c)
    {
      SoundRoom(n, e, c);
    }
  }

  /** Nothing of the run happens on another node. */
  predicate AllHere(es: seq<Event>) {
    forall i :: 0 <= i < |es| ==> !es[i].There?
  }

  lemma {:induction false} SoundRun(n: Node, es: seq<Event>)
    requires Sound(n) && AllHere(es)
    ensures Sound(HandleAll(n, es))
    decreases |es|
  {
    if es != [] {
      SoundExactly(n, es[0]);
      SoundRun(Handle(n, es[0]), es[1..]);
    }
  }

  // ---- When the cache is exact ----------------------------------------------------------

  ghost predicate Exact(n: Node) {
    forall c :: c in n.cache ==> n.cache[c] == Stored(n.db, c)
  }

  /** What the node could check before the event: subs finds no entry for the room, join_room
      finds none or adds a member it already has, and another node changes nothing cached. */
  predicate StaysExact(n: Node, e: Event, c: ChannelId) {
    match e
    case Here(cmd) =>
      c in n.cache && (cmd.Subs? || cmd.Join?) ==> Added(n.db, cmd, c) <= n.cache[c]
    case There(cmd) =>
      c in n.cache ==> n.cache[c] + Added(n.db, cmd, c) - Removed(n.db, cmd, c) == n.cache[c]
    case _ => true
  }

  lemma ExactRoom(n: Node, e: Event, c: ChannelId)
    requires c in n.cache ==> n.cache[c] == Stored(n.db, c)
    ensures var r := Handle(n, e);
            (c in r.cache ==> r.cache[c] == Stored(r.db, c)) <==> StaysExact(n, e, c)
  {
    if e.Here? || e.There? {
      StoredAfter(n.db, e.cmd, c);
    }
  }

  lemma ExactExactly(n: Node, e: Event)
    requires Exact(n)
    ensures Exact(Handle(n, e)) <==> forall c :: StaysExact(n, e, c)
  {
    forall c
      ensures var r := Handle(n, e);
              (c in r.cache ==> r.cache[c] == Stored(r.db, c)) <==> StaysExact(n, e, c)
    {
      ExactRoom(n, e, c);
    }
  }

  /** Runs that keep the cache exact: no join_room, nothing on another node, and no subs of a
      room id that unsubs emptied earlier in the run. */
  ghost predicate Orderly(n: Node, es: seq<Event>, emptied: set<ChannelId>)
    decreases |es|
  {
    es == [] ||
    (var e := es[0];
     && !e.There? && !(e.Here? && e.cmd.Join?)
     && (e.Here? && e.cmd.Subs? && |e.cmd.params| >= 2 ==> e.cmd.params[1] !in emptied)
     && Orderly(Handle(n, e), es[1..], emptied + Emptied(n, e)))
  }

  function Emptied(n: Node, e: Event): set<ChannelId> {
    if e.Here? && e.cmd.Unsubs? && |e.cmd.params| >= 2 && e.cmd.params[0] !in Handle(n, e).db.rooms
    then {e.cmd.params[0]} else {}
  }

  /** Entries of rooms that do not exist belong to emptied ones. */
  ghost predicate Leftovers(n: Node, emptied: set<ChannelId>) {
    forall c :: c in n.cache && c !in n.db.rooms ==> c in emptied
  }

  lemma LeftoversStep(n: Node, e: Event, emptied: set<ChannelId>)
    requires Leftovers(n, emptied) && !e.There?
    ensures Leftovers(Handle(n, e), emptied + Emptied(n, e))
  {
    if e.Here? {
      match e.cmd
      case Subs(params, now) =>
        if SubsOk(n.db, params) {
          var created := CreateRoom(n.db, params[2], params[1], now(0));
          JoinEachMember(created, params[1], params[3..], (i: nat) => now(i + 1), params[1], params[2]);
        }
      case AddUsers(params, now) =>
        if AddOk(n.db, params) { JoinEachMember(n.db, params[0], params[1..], now, params[0], params[1]); }
      case _ =>
    }
  }

  lemma {:induction false} ExactRun(n: Node, es: seq<Event>, emptied: set<ChannelId>)
    requires Exact(n) && Leftovers(n, emptied) && Orderly(n, es, emptied)
    ensures Exact(HandleAll(n, es))
    decreases |es|
  {
    if es != [] {
      ExactExactly(n, es[0]);
      LeftoversStep(n, es[0], emptied);
      ExactRun(Handle(n, es[0]), es[1..], emptied + Emptied(n, es[0]));
    }
  }

  /** Without that, on any node that has a room cached: all its members leave by unsubs, subs
      makes the room again, and publishes on this node go to nobody. */
  lemma RecreatedRoomIsSilent(n: Node, c: ChannelId, us: seq<UserId>, params: seq<string>, now: nat -> int)
    requires Sound(n) && c in n.cache && c in n.db.rooms && us != [] && Stored(n.db, c) <= Users(us)
    requires var left := Handle(n, Here(Unsubs([c] + us))); SubsOk(left.db, params) && params[1] == c
    ensures var left := Handle(n, Here(Unsubs([c] + us)));
            var r := Handle(left, Here(Subs(params, now)));
            c in r.cache && r.cache[c] == {} && Stored(r.db, c) == Users(params[2..]) && params[2] in Stored(r.db, c)
  {
    var left := Handle(n, Here(Unsubs([c] + us)));
    assert ([c] + us)[1..] == us;
    assert left.cache[c] == n.cache[c] - Users(us) == {};
    StoredAfter(left.db, Subs(params, now), c);
    assert params[2..][0] == params[2];
  }

  // ---- The cache object -----------------------------------------------------------------

  class ChannelToUserIds {
    var entries: map<ChannelId, set<UserId>>

    method AddUserId(c: ChannelId, u: UserId)
      modifies this
      ensures entries == AddAll(old(entries), c, {u})
    {
      if c !in entries {
        entries := entries[c := {}];
      }
      entries := entries[c := entries[c] + {u}];
    }

    method AddAllUserIds(c: ChannelId, us: seq<UserId>)
      modifies this
      ensures entries == AddAll(old(entries), c, Users(us))
    {
      if c !in entries {
        entries := entries[c := {}];
      }
      ghost var start := entries[c];
      assert start + Users(us[..0]) == start;
      for i := 0 to |us|
        invariant entries == old(entries)[c := start + Users(us[..i])]
      {
        assert us[..i + 1] == us[..i] + [us[i]];
        assert start + Users(us[..i + 1]) == start + Users(us[..i]) + {us[i]};
        entries := entries[c := entries[c] + {us[i]}];
      }
      assert us[..|us|] == us;
    }

    method RemoveUserId(c: ChannelId, u: UserId)
      modifies this
      ensures entries == RemoveAll(old(entries), c, {u})
    {
      if c !in entries {
        return;
      }
      entries := entries[c := entries[c] - {u}];
    }

    /** The result starts with one empty string for each member: the slice is made with the
        length it should only have had as capacity. */
    method GetUserIdsByChannel(c: ChannelId) returns (items: seq<UserId>, found: bool)
      ensures found <==> c in entries
      ensures !found ==> items == []
      ensures found ==> exists ids ::
                items == Padding(|entries[c]|) + ids && multiset(ids) == multiset(entries[c])
    {
      if c !in entries {
        return [], false;
      }
      items, found := Padding(|entries[c]|), true;
      ghost var ids: seq<UserId> := [];
      var todo := entries[c];
      while todo != {}
        invariant items == Padding(|entries[c]|) + ids
        invariant todo <= entries[c] && multiset(ids) == multiset(entries[c] - todo)
        decreases |todo|
      {
        var key :| key in todo;
        assert entries[c] - (todo - {key}) == (entries[c] - todo) + {key};
        items := items + [key];
        ids := ids + [key];
        todo := todo - {key};
      }
      assert entries[c] - todo == entries[c];
    }

    method LoadUserIdsFromDatabase(db: Db, c: ChannelId) returns (ids: seq<UserId>, ok: bool)
      modifies this
      ensures entries == LoadFromDatabase(db, old(entries), c)
      ensures ok <==> c in db.rooms
      ensures ids == if ok then db.rooms[c] else []
    {
      if c !in db.rooms {
        return [], false;
      }
      ids := [];
      for i := 0 to |db.rooms[c]|
        invariant ids == db.rooms[c][..i]
        invariant entries == old(entries)
      {
        ids := ids + [db.rooms[c][i]];
      }
      assert ids == db.rooms[c];
      assert Users(ids) == Stored(db, c);
      AddAllUserIds(c, ids);
      ok := true;
    }

    /** Every publish: from the cache if the entry exists, else from the database. */
    method LoadUserIdsByChannel(db: Db, c: ChannelId) returns (ids: seq<UserId>)
      modifies this
      ensures Node(db, entries) == Handle(Node(db, old(entries)), Load(c))
      ensures c !in old(entries) ==> ids == if c in db.rooms then db.rooms[c] else []
      ensures c in old(entries) ==> exists list ::
                ids == Padding(|old(entries)[c]|) + list && multiset(list) == multiset(old(entries)[c])
    {
      var found;
      ids, found := GetUserIdsByChannel(c);
      if !found {
        var ok;
        ids, ok := LoadUserIdsFromDatabase(db, c);
      }
    }

    /** What an accepted add_into_room does to the cache; `db` is the database after its joins. */
    method AfterAddUsers(ghost before: Db, db: Db, params: seq<string>, ghost now: nat -> int)
      requires AddOk(before, params)
      modifies this
      ensures var c, us := params[0], params[1..];
              entries == if c in old(entries) then AddAll(old(entries), c, Users(us))
                         else LoadFromDatabase(db, old(entries), c)
      ensures entries == CacheAfter(before, AddUsers(params, now), db, old(entries))
    {
      var c, us := params[0], params[1..];
      var ids, found := GetUserIdsByChannel(c);
      if found {
        AddAllUserIds(c, us);
      } else {
        var ok;
        ids, ok := LoadUserIdsFromDatabase(db, c);
      }
    }

    /** What a disolve of an existing room does to the cache. */
    method AfterDisolve(ghost before: Db, ghost db: Db, c: ChannelId)
      requires c != "" && c in before.rooms
      modifies this
      ensures entries == old(entries) - {c}
      ensures entries == CacheAfter(before, Disolve(c), db, old(entries))
    {
      entries := entries - {c};
    }

    /** What an accepted unsubs does to the cache. */
    method AfterUnsubs(ghost before: Db, ghost db: Db, params: seq<string>)
      requires |params| >= 2 && params[0] in before.rooms
      modifies this
      ensures entries == RemoveAll(old(entries), params[0], Users(params[1..]))
      ensures entries == CacheAfter(before, Unsubs(params), db, old(entries))
    {
      var c, us := params[0], params[1..];
      if c in entries {
        ghost var start := entries[c];
        assert start - Users(us[..0]) == start;
        for i := 0 to |us|
          invariant entries == old(entries)[c := start - Users(us[..i])]
        {
          assert us[..i + 1] == us[..i] + [us[i]];
          assert start - Users(us[..i + 1]) == start - Users(us[..i]) - {us[i]};
          RemoveUserId(c, us[i]);
        }
        assert us[..|us|] == us;
      }
    }
  }

  function Padding(n: nat): (r: seq<UserId>)
    ensures |r| == n && forall i :: 0 <= i < n ==> r[i] == ""
  {
    seq(n, _ => "")
  }
}
