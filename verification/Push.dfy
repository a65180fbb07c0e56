/** Pushing a message to the sessions of a room's members on one node. */
module Push {
  import opened Mongo
  import opened Rooms
  import opened MemberCache

  /** A connected client; `uuid` is the user id it has set. */
  datatype Session = Session(conn: nat, uuid: UserId)

  predicate Receives(table: map<UserId, Session>, owner: UserId, u: UserId) {
    u in table && table[u].uuid != owner
  }

  /** The sessions a push reaches, one entry a write. */
  function Targets(ids: seq<UserId>, table: map<UserId, Session>, owner: UserId): seq<Session> {
    if ids == [] then []
    else
      var rest := Targets(ids[..|ids| - 1], table, owner);
      var u := ids[|ids| - 1];
      if Receives(table, owner, u) then rest + [table[u]] else rest
  }

  method PushToNativeClient(ids: seq<UserId>, table: map<UserId, Session>, owner: UserId) returns (sent: seq<Session>)
    ensures sent == Targets(ids, table, owner)
    ensures forall x :: x in sent <==> x.uuid != owner && exists u :: u in ids && u in table && table[u] == x
  {
    sent := [];
    for i := 0 to |ids|
      invariant sent == Targets(ids[..i], table, owner)
    {
      assert ids[..i + 1][..i] == ids[..i];
      if ids[i] !in table || table[ids[i]].uuid == owner {
        continue;
      }
      sent := sent + [table[ids[i]]];
    }
    assert ids[..|ids|] == ids;
    forall x
      ensures x in sent <==> x.uuid != owner && exists u :: u in ids && u in table && table[u] == x
    {
      TargetsAre(ids, table, owner, x);
    }
  }

  // ---- Who is reached -------------------------------------------------------------------

  lemma {:induction false} TargetsConcat(a: seq<UserId>, b: seq<UserId>, table: map<UserId, Session>, owner: UserId)
    ensures Targets(a + b, table, owner) == Targets(a, table, owner) + Targets(b, table, owner)
    decreases |b|
  {
    if b == [] {
      assert a + b == a;
    } else {
      var rest := b[..|b| - 1];
      assert (a + b)[..|a + b| - 1] == a + rest;
      TargetsConcat(a, rest, table, owner);
    }
  }

  lemma WithoutOne(b: seq<UserId>, k: nat)
    requires k < |b|
    ensures multiset(b[..k] + b[k + 1..]) == multiset(b) - multiset{b[k]}
  {
    assert b == b[..k] + [b[k]] + b[k + 1..];
    assert multiset(b) == multiset(b[..k]) + multiset{b[k]} + multiset(b[k + 1..]);
  }

  lemma TargetsWithoutOne(b: seq<UserId>, k: nat, table: map<UserId, Session>, owner: UserId)
    requires k < |b|
    ensures multiset(Targets(b, table, owner)) ==
            multiset(Targets(b[..k] + b[k + 1..], table, owner)) + multiset(Targets([b[k]], table, owner))
  {
    assert b == b[..k] + ([b[k]] + b[k + 1..]);
    TargetsConcat(b[..k], b[k + 1..], table, owner);
    TargetsConcat(b[..k], [b[k]] + b[k + 1..], table, owner);
    TargetsConcat([b[k]], b[k + 1..], table, owner);
  }

  /** The order of the list does not matter. */
  lemma {:induction false} TargetsPermuted(a: seq<UserId>, b: seq<UserId>, table: map<UserId, Session>, owner: UserId)
    requires multiset(a) == multiset(b)
    ensures multiset(Targets(a, table, owner)) == multiset(Targets(b, table, owner))
    decreases |a|
  {
    if a == [] {
      assert b == [] by { assert |multiset(b)| == |b|; }
    } else {
      var x := a[0];
      assert x in multiset(b);
      var k :| 0 <= k < |b| && b[k] == x;
      var rest := b[..k] + b[k + 1..];
      WithoutOne(b, k);
      assert a == [x] + a[1..];
      assert multiset(a[1..]) == multiset(a) - multiset{x};
      TargetsPermuted(a[1..], rest, table, owner);
      TargetsConcat([x], a[1..], table, owner);
      TargetsWithoutOne(b, k, table, owner);
    }
  }

  /** The sessions reached are those of the listed users, without the owner's. */
  lemma {:induction false} TargetsAre(ids: seq<UserId>, table: map<UserId, Session>, owner: UserId, x: Session)
    ensures x in Targets(ids, table, owner) <==>
            x.uuid != owner && exists u :: u in ids && u in table && table[u] == x
    decreases |ids|
  {
    if ids != [] {
      var rest := ids[..|ids| - 1];
      TargetsAre(rest, table, owner, x);
      assert ids == rest + [ids[|ids| - 1]];
    }
  }

  /** No connection is mapped under two ids. Its own id may have changed since. */
  ghost predicate MappedOnce(table: map<UserId, Session>) {
    forall u, v :: u in table && v in table && table[u].conn == table[v].conn ==> u == v
  }

  /** Nobody gets two copies from a list that names nobody twice. */
  lemma {:induction false} OneCopyEach(ids: seq<UserId>, table: map<UserId, Session>, owner: UserId)
    requires NoDup(ids) && MappedOnce(table)
    ensures NoDup(Targets(ids, table, owner))
    decreases |ids|
  {
    if ids != [] {
      var rest := ids[..|ids| - 1];
      var u := ids[|ids| - 1];
      OneCopyEach(rest, table, owner);
      if u in table {
        TargetsAre(rest, table, owner, table[u]);
        assert u !in rest;
      }
    }
  }

  // ---- The padded list ------------------------------------------------------------------

  lemma {:induction false} PaddingTargets(n: nat, table: map<UserId, Session>, owner: UserId)
    ensures |Targets(Padding(n), table, owner)| == if Receives(table, owner, "") then n else 0
    decreases n
  {
    if n > 0 {
      assert Padding(n)[..n - 1] == Padding(n - 1);
      PaddingTargets(n - 1, table, owner);
    }
  }

  /** Pushing from the cached list, with its leading empty strings, writes to the same
      sessions as pushing from the stored one exactly when no session but the owner's is
      mapped under the empty id (or the room is empty). */
  lemma PaddedPush(list: seq<UserId>, ids: seq<UserId>, n: nat, table: map<UserId, Session>, owner: UserId)
    requires multiset(ids) == multiset(list)
    ensures multiset(Targets(Padding(n) + ids, table, owner)) == multiset(Targets(list, table, owner)) <==>
            n == 0 || !Receives(table, owner, "")
  {
    TargetsConcat(Padding(n), ids, table, owner);
    TargetsPermuted(ids, list, table, owner);
    PaddingTargets(n, table, owner);
    var extra := Targets(Padding(n), table, owner);
    var both := extra + Targets(ids, table, owner);
    assert multiset(both) == multiset(extra) + multiset(Targets(list, table, owner));
    assert |multiset(extra)| == |extra|;
    if extra != [] {
      assert |multiset(both)| > |multiset(Targets(list, table, owner))|;
    }
  }

  /** The session of some member of the room, not the owner's. */
  ghost predicate IsWanted(db: Db, c: ChannelId, table: map<UserId, Session>, owner: UserId, x: Session) {
    x.uuid != owner && exists u :: Member(db, c, u) && u in table && table[u] == x
  }

  /** A whole publish on this node: load the list, push to it. With an exact cache, and no
      session under the empty id, exactly the stored members' sessions get the message, once
      each, the owner's excepted. */
  method PublishHere(cache: ChannelToUserIds, db: Db, table: map<UserId, Session>, c: ChannelId, owner: UserId)
    returns (sent: seq<Session>)
    requires Consistent(db) && MappedOnce(table) && "" !in table
    requires Exact(Node(db, cache.entries))
    modifies cache
    ensures Exact(Node(db, cache.entries))
    ensures forall x :: multiset(sent)[x] == if IsWanted(db, c, table, owner, x) then 1 else 0
  {
    var n, start := Node(db, cache.entries), cache.entries;
    ExactExactly(n, Load(c));
    var list := if c in db.rooms then db.rooms[c] else [];
    var ids := cache.LoadUserIdsByChannel(db, c);
    sent := PushToNativeClient(ids, table, owner);
    if c in start {
      ghost var tail :| ids == Padding(|start[c]|) + tail && multiset(tail) == multiset(start[c]);
      SetOfList(list);
      assert start[c] == Stored(db, c);
      PaddedPush(list, tail, |start[c]|, table, owner);
    }
    assert multiset(sent) == multiset(Targets(list, table, owner));
    OneCopyEach(list, table, owner);
    forall x
      ensures multiset(sent)[x] == if IsWanted(db, c, table, owner, x) then 1 else 0
    {
      TargetsAre(list, table, owner, x);
      CountOnce(Targets(list, table, owner), x);
      assert forall u :: u in list <==> Member(db, c, u);
    }
  }

  lemma {:induction false} SetOfList(s: seq<UserId>)
    requires NoDup(s)
    ensures multiset(set u | u in s) == multiset(s)
    decreases |s|
  {
    if s == [] {
      assert (set u | u in s) == {};
    } else {
      var rest, u := s[..|s| - 1], s[|s| - 1];
      SetOfList(rest);
      assert s == rest + [u];
      assert (set v | v in s) == (set v | v in rest) + {u};
    }
  }

  lemma {:induction false} CountOnce<T>(s: seq<T>, x: T)
    requires NoDup(s)
    ensures multiset(s)[x] == if x in s then 1 else 0
    decreases |s|
  {
    if s != [] {
      CountOnce(s[..|s| - 1], x);
      assert s == s[..|s| - 1] + [s[|s| - 1]];
    }
  }
}
