/** What a command does to members and cache when nobody interrupts it, as a run of the machine
    in `CacheRace`; and that this is what `MemberCache` has the whole command do. */
module CacheCommands {
  import opened CacheRace
  import MemberCache

  function Users(us: seq<UserId>): set<UserId> { set u | u in us }

  /** The cached sets, without the ids of the entries. */
  function Sets(s: State): map<ChannelId, set<UserId>> {
    map c | c in s.cache :: s.cache[c].users
  }

  /** The other connections are where they were. */
  ghost predicate OthersWait(s: State, r: State, t: Thread) {
    forall d :: d != t ==> PcOf(r, d) == PcOf(s, d)
  }

  // ---- A load -----------------------------------------------------------------------------

  function Load(s: State, t: Thread, c: ChannelId): State {
    Do(Do(Do(Do(s, StartLoad(t, c)), Read(t)), Make(t)), Fill(t))
  }

  /** A load caches the stored members of an uncached room that exists, and does nothing else. */
  lemma LoadAlone(s: State, t: Thread, c: ChannelId)
    requires PcOf(s, t) == Idle
    ensures var r := Load(s, t, c);
            && PcOf(r, t) == Idle && OthersWait(s, r, t) && r.stored == s.stored
            && Sets(r) == if c !in s.cache && c in s.stored then Sets(s)[c := s.stored[c]] else Sets(s)
  {
    var a := Do(s, StartLoad(t, c));
    var b := DoRead(a, t);
    var m := DoMake(b, t);
    if c !in s.cache && c in s.stored {
      assert PcOf(a, t) == Reading(c) && PcOf(b, t) == Making(c, s.stored[c]) && b.cache == s.cache;
      PutAlone(b, t);
      assert {} + s.stored[c] == s.stored[c] && Sets(b) == Sets(s);
    } else {
      assert PcOf(b, t) == Idle;
      assert m == b && DoFill(m, t) == b;
    }
  }

  /** Making or finding the entry, and filling it. */
  lemma PutAlone(s: State, t: Thread)
    requires PcOf(s, t).Making?
    ensures var c, ids, r := PcOf(s, t).room, PcOf(s, t).ids, Do(Do(s, Make(t)), Fill(t));
            && PcOf(r, t) == Idle && OthersWait(s, r, t) && r.stored == s.stored
            && Sets(r) == Sets(s)[c := (if c in s.cache then s.cache[c].users else {}) + ids]
  {
    var c := PcOf(s, t).room;
    var m := DoMake(s, t);
    assert PcOf(m, t).Filling? && PcOf(m, t).room == c && Current(m, PcOf(m, t));
    assert m.cache[c].users == if c in s.cache then s.cache[c].users else {};
  }

  // ---- add_into_room ----------------------------------------------------------------------

  /** One joinRoom after another. */
  function Writes(s: State, t: Thread, n: nat): State
    decreases n
  {
    if n == 0 then s else Writes(Do(s, Write(t)), t, n - 1)
  }

  function Add(s: State, t: Thread, c: ChannelId, us: seq<UserId>): State {
    var written := Writes(Do(s, StartAdd(t, c, us)), t, |us|);
    Do(Do(Do(Do(written, Test(t)), Read(t)), Make(t)), Fill(t))
  }

  lemma {:induction false} WritesAlone(s: State, t: Thread)
    requires PcOf(s, t).Adding? && PcOf(s, t).todo != [] && PcOf(s, t).room in s.stored
    ensures var pc := PcOf(s, t);
            var r, c, us := Writes(s, t, |pc.todo|), pc.room, Users(pc.todo);
            && PcOf(r, t) == Testing(c, pc.ids + us) && OthersWait(s, r, t)
            && r.cache == s.cache && r.stored == s.stored[c := s.stored[c] + us]
    decreases |PcOf(s, t).todo|
  {
    var pc := PcOf(s, t);
    var u, rest, m := pc.todo[0], pc.todo[1..], DoWrite(s, t);
    assert pc.todo == [u] + rest;
    assert Users(pc.todo) == {u} + Users(rest);
    if rest == [] {
      assert PcOf(m, t) == Testing(pc.room, pc.ids + {u});
      assert Users(pc.todo) == {u};
      assert Writes(s, t, 1) == Writes(m, t, 0) == m;
    } else {
      assert PcOf(m, t) == Adding(pc.room, rest, pc.ids + {u});
      WritesAlone(m, t);
      assert m.stored[pc.room] + Users(rest) == s.stored[pc.room] + Users(pc.todo);
      assert pc.ids + {u} + Users(rest) == pc.ids + Users(pc.todo);
    }
  }

  lemma AddWrites(s: State, t: Thread, c: ChannelId, us: seq<UserId>)
    requires PcOf(s, t) == Idle && c in s.stored && us != []
    ensures var r := Writes(Do(s, StartAdd(t, c, us)), t, |us|);
            && PcOf(r, t) == Testing(c, Users(us)) && OthersWait(s, r, t)
            && r.cache == s.cache && r.stored == s.stored[c := s.stored[c] + Users(us)]
  {
    var a := Do(s, StartAdd(t, c, us));
    assert a == Goto(s, t, Adding(c, us, {}));
    WritesAlone(a, t);
    assert {} + Users(us) == Users(us);
  }

  lemma TestAlone(s: State, t: Thread, c: ChannelId, ids: set<UserId>)
    requires PcOf(s, t) == Testing(c, ids) && c in s.stored
    ensures var r := Do(Do(s, Test(t)), Read(t));
            && PcOf(r, t) == Making(c, if c in s.cache then ids else s.stored[c])
            && OthersWait(s, r, t) && r.stored == s.stored && r.cache == s.cache
  {
  }

  lemma AddEnds(s: State, t: Thread, c: ChannelId, ids: set<UserId>)
    requires PcOf(s, t) == Testing(c, ids) && c in s.stored
    ensures var r := Do(Do(Do(Do(s, Test(t)), Read(t)), Make(t)), Fill(t));
            && PcOf(r, t) == Idle && OthersWait(s, r, t) && r.stored == s.stored
            && Sets(r) == Sets(s)[c := if c in s.cache then s.cache[c].users + ids else s.stored[c]]
  {
    var b := Do(Do(s, Test(t)), Read(t));
    TestAlone(s, t, c, ids);
    PutAlone(b, t);
    assert Sets(b) == Sets(s);
    assert {} + s.stored[c] == s.stored[c];
  }

  /** An add_into_room makes every listed user a member; a cached entry gains exactly the listed
      users, an uncached one is loaded with all members. */
  lemma AddAlone(s: State, t: Thread, c: ChannelId, us: seq<UserId>)
    requires PcOf(s, t) == Idle && c in s.stored && us != []
    ensures var r := Add(s, t, c, us);
            && PcOf(r, t) == Idle && OthersWait(s, r, t)
            && r.stored == s.stored[c := s.stored[c] + Users(us)]
            && Sets(r) == if c in s.cache then MemberCache.AddAll(Sets(s), c, Users(us))
                          else Sets(s)[c := s.stored[c] + Users(us)]
  {
    var w := Writes(Do(s, StartAdd(t, c, us)), t, |us|);
    AddWrites(s, t, c, us);
    AddEnds(w, t, c, Users(us));
    assert Sets(w) == Sets(s);
  }

  // ---- unsubs and disolve -----------------------------------------------------------------

  function Unsubs(s: State, t: Thread, c: ChannelId, us: set<UserId>): State {
    Do(Do(s, Leave(t, c, us)), Remove(t))
  }

  /** An unsubs takes the listed users out of the room, and the room away if it is left empty,
      and takes them out of a cached entry, which stays. */
  lemma UnsubsAlone(s: State, t: Thread, c: ChannelId, us: set<UserId>)
    requires PcOf(s, t) == Idle && c in s.stored
    ensures var r := Unsubs(s, t, c, us);
            && PcOf(r, t) == Idle && OthersWait(s, r, t)
            && MembersOf(r, c) == s.stored[c] - us && (c in r.stored <==> s.stored[c] - us != {})
            && (forall d :: d != c ==> (d in r.stored <==> d in s.stored) && MembersOf(r, d) == MembersOf(s, d))
            && Sets(r) == MemberCache.RemoveAll(Sets(s), c, us)
  {
  }

  /** The whole of a disolve: all members leave and the entry is dropped. */
  function DisolveRoom(s: State, t: Thread, c: ChannelId): State {
    Do(Do(s, Disolve(t, c, MembersOf(s, c))), Delete(t))
  }

  lemma DisolveAlone(s: State, t: Thread, c: ChannelId)
    requires PcOf(s, t) == Idle && c in s.stored
    ensures var r := DisolveRoom(s, t, c);
            && PcOf(r, t) == Idle && OthersWait(s, r, t)
            && r.stored == s.stored - {c} && Sets(r) == Sets(s) - {c}
  {
  }

  /** A join that does not tell the cache, and an eviction. */
  lemma EnterAndEvict(s: State, t: Thread, c: ChannelId, u: UserId)
    ensures var r := Do(s, Enter(t, c, u));
            r.stored == s.stored[c := MembersOf(s, c) + {u}] && r.cache == s.cache && r.threads == s.threads
    ensures var r := Do(s, Evict(t, c));
            r.stored == s.stored && Sets(r) == Sets(s) - {c} && r.threads == s.threads
  {
  }
}
