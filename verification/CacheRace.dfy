/** The member cache of one node, with the separate steps of everything that touches it
    interleaved: loads, add_into_room, unsubs, disolve, evictions, and the joins of subs,
    join_room and other nodes, which do not tell the cache. */
module CacheRace {

  type UserId = string
  type ChannelId = string
  type Thread = nat

  /** A cached collection. It keeps its id for as long as it is cached. */
  datatype Entry = Entry(id: nat, users: set<UserId>)

  datatype Pc =
    | Idle
    | Adding(room: ChannelId, todo: seq<UserId>, ids: set<UserId>)    // joinRoom still to run for `todo`
    | Testing(room: ChannelId, ids: set<UserId>)                      // about to test whether the room is cached
    | Reading(room: ChannelId)                                        // about to read the members
    | Making(room: ChannelId, ids: set<UserId>)                       // about to find or create the entry
    | Filling(room: ChannelId, ids: set<UserId>, entry: nat)          // about to add `ids` to the entry it holds
    | Removing(room: ChannelId, ids: set<UserId>)                     // unsubs: left in the database, cache next
    | Deleting(room: ChannelId)                                       // disolve: likewise

  datatype State = State(
    stored: map<ChannelId, set<UserId>>,
    cache: map<ChannelId, Entry>,
    threads: map<Thread, Pc>,
    nextId: nat)

  datatype Step =
    | StartLoad(t: Thread, room: ChannelId)                       // a publish
    | StartAdd(t: Thread, room: ChannelId, list: seq<UserId>)     // add_into_room
    | Leave(t: Thread, room: ChannelId, users: set<UserId>)       // the database part of unsubs
    | Disolve(t: Thread, room: ChannelId, users: set<UserId>)     // the database part of disolve
    | Enter(t: Thread, room: ChannelId, user: UserId)             // createRoom or joinRoom; the cache is not told
    | Evict(t: Thread, room: ChannelId)                           // the LRU cache drops an entry
    | Write(t: Thread)
    | Test(t: Thread)
    | Read(t: Thread)
    | Make(t: Thread)
    | Fill(t: Thread)
    | Remove(t: Thread)
    | Delete(t: Thread)

  function PcOf(s: State, t: Thread): Pc {
    if t in s.threads then s.threads[t] else Idle
  }

  function MembersOf(s: State, c: ChannelId): set<UserId> {
    if c in s.stored then s.stored[c] else {}
  }

  function UsersOf(s: State, c: ChannelId): set<UserId> {
    if c in s.cache then s.cache[c].users else {}
  }

  function Goto(s: State, t: Thread, pc: Pc): State {
    s.(threads := s.threads[t := pc])
  }

  /** A room left empty is removed. */
  function Left(s: State, c: ChannelId, us: set<UserId>): map<ChannelId, set<UserId>> {
    if MembersOf(s, c) - us == {} then s.stored - {c} else s.stored[c := MembersOf(s, c) - us]
  }

  /** The entry that a filling connection holds is still the cached one. */
  predicate Current(s: State, pc: Pc) {
    pc.Filling? && pc.room in s.cache && s.cache[pc.room].id == pc.entry
  }

  function DoWrite(s: State, t: Thread): State {
    var pc := PcOf(s, t);
    if !pc.Adding? || pc.todo == [] then s
    else if pc.room !in s.stored then Goto(s, t, Idle)
    else
      var u, rest := pc.todo[0], pc.todo[1..];
      var next := if rest == [] then Testing(pc.room, pc.ids + {u}) else Adding(pc.room, rest, pc.ids + {u});
      Goto(s, t, next).(stored := s.stored[pc.room := s.stored[pc.room] + {u}])
  }

  /** An uncached room is reloaded in any case. */
  function DoTest(s: State, t: Thread): State {
    var pc := PcOf(s, t);
    if !pc.Testing? then s
    else if pc.room in s.cache then Goto(s, t, Making(pc.room, pc.ids))
    else Goto(s, t, Reading(pc.room))
  }

  function DoRead(s: State, t: Thread): State {
    var pc := PcOf(s, t);
    if !pc.Reading? then s
    else if pc.room in s.stored then Goto(s, t, Making(pc.room, s.stored[pc.room]))
    else Goto(s, t, Idle)
  }

  function DoMake(s: State, t: Thread): State {
    var pc := PcOf(s, t);
    if !pc.Making? then s
    else if pc.room in s.cache then Goto(s, t, Filling(pc.room, pc.ids, s.cache[pc.room].id))
    else
      Goto(s, t, Filling(pc.room, pc.ids, s.nextId)).(
        cache := s.cache[pc.room := Entry(s.nextId, {})], nextId := s.nextId + 1)
  }

  /** An entry that is not cached any more is filled all the same, to no effect. */
  function DoFill(s: State, t: Thread): State {
    var pc := PcOf(s, t);
    if !pc.Filling? then s
    else if !Current(s, pc) then Goto(s, t, Idle)
    else Goto(s, t, Idle).(cache := s.cache[pc.room := Entry(pc.entry, s.cache[pc.room].users + pc.ids)])
  }

  function DoRemove(s: State, t: Thread): State {
    var pc := PcOf(s, t);
    if !pc.Removing? then s
    else if pc.room !in s.cache then Goto(s, t, Idle)
    else
      var e := s.cache[pc.room];
      Goto(s, t, Idle).(cache := s.cache[pc.room := e.(users := e.users - pc.ids)])
  }

  function DoDelete(s: State, t: Thread): State {
    var pc := PcOf(s, t);
    if !pc.Deleting? then s else Goto(s, t, Idle).(cache := s.cache - {pc.room})
  }

  function Do(s: State, step: Step): State {
    var pc := PcOf(s, step.t);
    match step
    case StartLoad(t, c) => if pc != Idle || c in s.cache then s else Goto(s, t, Reading(c))
    case StartAdd(t, c, us) => if pc != Idle || c !in s.stored || us == [] then s else Goto(s, t, Adding(c, us, {}))
    case Leave(t, c, us) =>
      if pc != Idle || c !in s.stored then s else Goto(s, t, Removing(c, us)).(stored := Left(s, c, us))
    case Disolve(t, c, us) =>
      if pc != Idle || c !in s.stored then s else Goto(s, t, Deleting(c)).(stored := Left(s, c, us))
    case Enter(_, c, u) => s.(stored := s.stored[c := MembersOf(s, c) + {u}])
    case Evict(_, c) => s.(cache := s.cache - {c})
    case Write(t) => DoWrite(s, t)
    case Test(t) => DoTest(s, t)
    case Read(t) => DoRead(s, t)
    case Make(t) => DoMake(s, t)
    case Fill(t) => DoFill(s, t)
    case Remove(t) => DoRemove(s, t)
    case Delete(t) => DoDelete(s, t)
  }

  function Run(s: State, steps: seq<Step>): State
    decreases |steps|
  {
    if steps == [] then s else Run(Do(s, steps[0]), steps[1..])
  }

  // ---- What a connection is going to do to one user's place in one entry ------------------

  datatype Role =
    | AddsNew   // put a stored user into whatever entry the room has by then
    | FillsNow  // put the user into the current entry
    | Holds     // the same, having looked the user up: into any entry, stored or not
    | Lacks     // make an entry without the user, if there is none
    | Deletes   // drop the entry
    | Drops     // take the user out of the entry, or drop it
    | Writes    // make the user a member

  predicate Plays(s: State, t: Thread, role: Role, c: ChannelId, u: UserId) {
    var pc := PcOf(s, t);
    !pc.Idle? && pc.room == c &&
    match role
    case AddsNew =>
      || (pc.Adding? && (u in pc.todo || u in pc.ids))
      || (pc.Testing? && u in pc.ids)
      || pc.Reading?
      || (pc.Making? && u in pc.ids)
    case FillsNow => Current(s, pc) && u in pc.ids
    case Holds => pc.Making? && u in pc.ids
    case Lacks => pc.Making? && u !in pc.ids
    case Deletes => pc.Deleting?
    case Drops => pc.Deleting? || (pc.Removing? && u in pc.ids)
    case Writes => pc.Adding? && u in pc.todo && c in s.stored
  }

  ghost predicate Some(s: State, role: Role, c: ChannelId, u: UserId) {
    exists t :: Plays(s, t, role, c, u)
  }

  ghost predicate Other(s: State, d: Thread, role: Role, c: ChannelId, u: UserId) {
    exists t :: t != d && Plays(s, t, role, c, u)
  }

  // ---- The invariant ----------------------------------------------------------------------

  predicate Member(s: State, c: ChannelId, u: UserId) { u in MembersOf(s, c) }

  predicate Cached(s: State, c: ChannelId, u: UserId) { u in UsersOf(s, c) }

  /** An entry misses a member only while somebody will put the member in or drop the entry. */
  ghost predicate EntryOk(s: State, c: ChannelId, u: UserId) {
    Member(s, c, u) && c in s.cache && !Cached(s, c, u) ==>
      Some(s, AddsNew, c, u) || Some(s, FillsNow, c, u) || Some(s, Deletes, c, u)
  }

  /** Somebody is about to make an entry without a member only if somebody will put the member
      into it. */
  ghost predicate MakersOk(s: State, c: ChannelId, u: UserId) {
    Member(s, c, u) && c !in s.cache && Some(s, Lacks, c, u) ==> Some(s, AddsNew, c, u)
  }

  ghost predicate InSight(s: State, c: ChannelId, u: UserId) {
    Cached(s, c, u) || Some(s, Holds, c, u) || Some(s, FillsNow, c, u)
  }

  /** A user who is not a member is cached, or about to be, only while somebody will take the
      user out or make the user a member. */
  ghost predicate ExtraOk(s: State, c: ChannelId, u: UserId) {
    !Member(s, c, u) && InSight(s, c, u) ==> Some(s, Drops, c, u) || Some(s, Writes, c, u)
  }

  ghost predicate PairOk(s: State, c: ChannelId, u: UserId) {
    EntryOk(s, c, u) && MakersOk(s, c, u) && ExtraOk(s, c, u)
  }

  /** Ids of entries are not used again. */
  predicate IdOk(s: State, t: Thread, c: ChannelId) {
    (PcOf(s, t).Filling? ==> PcOf(s, t).entry < s.nextId) && (c in s.cache ==> s.cache[c].id < s.nextId)
  }

  ghost predicate Inv(s: State) {
    (forall t, c :: IdOk(s, t, c)) && (forall c, u :: PairOk(s, c, u))
  }

  // ---- Harmful steps ----------------------------------------------------------------------

  /** Were the room's entry dropped, somebody would make one that misses the member for good. */
  ghost predicate Losing(s: State, c: ChannelId, u: UserId) {
    Member(s, c, u) && c in s.cache && Some(s, Lacks, c, u) && !Some(s, AddsNew, c, u)
  }

  /** A user enters a room whose entry does not have the user, or is about to be made without,
      and nobody will bring them together. */
  ghost predicate EnterHarms(s: State, c: ChannelId, u: UserId) {
    && !Member(s, c, u) && !Some(s, AddsNew, c, u)
    && if c in s.cache then !Cached(s, c, u) && !Some(s, FillsNow, c, u) && !Some(s, Deletes, c, u)
       else Some(s, Lacks, c, u)
  }

  /** The last members leave, and the room is removed. With it goes the addition that would have
      made a cached user a member again. */
  ghost predicate LeaveHarms(s: State, us: set<UserId>, c: ChannelId, u: UserId) {
    c in s.stored && MembersOf(s, c) - us == {} && u !in us && InSight(s, c, u) && !Some(s, Drops, c, u)
  }

  /** An addition finds the room cached, but its user has been removed since, from the database
      and from the cache. */
  ghost predicate TestHarms(s: State, c: ChannelId, u: UserId) {
    c in s.cache && !Member(s, c, u) && !Some(s, Drops, c, u) && !Some(s, Writes, c, u)
  }

  /** `t` takes the user out of the cache: one who has joined again, or one whom somebody still
      holds and nobody else will take out. */
  ghost predicate RemoveHarms(s: State, t: Thread, c: ChannelId, u: UserId) {
    if Member(s, c, u) then
      c in s.cache && !Some(s, AddsNew, c, u) && !Some(s, FillsNow, c, u) && !Some(s, Deletes, c, u)
    else
      (Some(s, Holds, c, u) || Some(s, FillsNow, c, u)) && !Other(s, t, Drops, c, u) && !Some(s, Writes, c, u)
  }

  /** `t` drops the entry: likewise. */
  ghost predicate DeleteHarms(s: State, t: Thread, c: ChannelId, u: UserId) {
    || Losing(s, c, u)
    || (!Member(s, c, u) && Some(s, Holds, c, u) && !Other(s, t, Drops, c, u) && !Some(s, Writes, c, u))
  }

  /** The step does harm to the user's place in the room's entry. */
  ghost predicate Harms(s: State, step: Step, c: ChannelId, u: UserId) {
    var pc := PcOf(s, step.t);
    match step
    case Enter(_, room, user) => room == c && user == u && EnterHarms(s, c, u)
    case Evict(_, room) => room == c && Losing(s, c, u)
    case Leave(_, room, us) => pc == Idle && room == c && LeaveHarms(s, us, c, u)
    case Test(_) => pc.Testing? && pc.room == c && u in pc.ids && TestHarms(s, c, u)
    case Remove(t) => pc.Removing? && pc.room == c && u in pc.ids && RemoveHarms(s, t, c, u)
    case Delete(t) => pc.Deleting? && pc.room == c && DeleteHarms(s, t, c, u)
    case _ => false
  }

  ghost predicate Harmful(s: State, step: Step) {
    exists c, u :: Harms(s, step, c, u)
  }

  // ---- One step ---------------------------------------------------------------------------

  lemma OthersStay(s: State, step: Step, t: Thread)
    requires t != step.t
    ensures PcOf(Do(s, step), t) == PcOf(s, t)
  {
  }

  lemma IdStep(s: State, step: Step, t: Thread, c: ChannelId)
    requires IdOk(s, t, c) && IdOk(s, step.t, c) && (PcOf(s, step.t).Making? ==> IdOk(s, t, PcOf(s, step.t).room))
    ensures IdOk(Do(s, step), t, c)
  {
    if t != step.t { OthersStay(s, step, t); }
  }

  ghost predicate OnlyMoves(s: State, r: State, d: Thread) {
    forall t :: t != d ==> PcOf(r, t) == PcOf(s, t)
  }

  /** Who plays a role is the one that moved or somebody else; the others play theirs as before,
      unless it depends on the entry or on the room. */
  lemma Split(s: State, r: State, d: Thread, role: Role, c: ChannelId, u: UserId)
    requires OnlyMoves(s, r, d)
    ensures Some(s, role, c, u) <==> Plays(s, d, role, c, u) || Other(s, d, role, c, u)
    ensures Some(r, role, c, u) <==> Plays(r, d, role, c, u) || Other(r, d, role, c, u)
    ensures !role.FillsNow? && !role.Writes? ==> (Other(r, d, role, c, u) <==> Other(s, d, role, c, u))
    ensures role.FillsNow? && SameEntry(s, r, c) ==> (Other(r, d, role, c, u) <==> Other(s, d, role, c, u))
    ensures role.Writes? && (c in r.stored <==> c in s.stored) ==>
              (Other(r, d, role, c, u) <==> Other(s, d, role, c, u))
    ensures role.FillsNow? && c !in r.cache ==> !Some(r, role, c, u)
    ensures role.Writes? && c !in r.stored ==> !Some(r, role, c, u)
  {
    forall t | t != d
      ensures !role.FillsNow? && !role.Writes? ==> Plays(r, t, role, c, u) == Plays(s, t, role, c, u)
      ensures role.FillsNow? && SameEntry(s, r, c) ==> Plays(r, t, role, c, u) == Plays(s, t, role, c, u)
      ensures role.Writes? && (c in r.stored <==> c in s.stored) ==> Plays(r, t, role, c, u) == Plays(s, t, role, c, u)
    {
      assert PcOf(r, t) == PcOf(s, t);
    }
  }

  predicate SameEntry(s: State, r: State, c: ChannelId) {
    (c in r.cache <==> c in s.cache) && (c in s.cache ==> r.cache[c].id == s.cache[c].id)
  }

  lemma SplitAll(s: State, r: State, d: Thread, c: ChannelId, u: UserId)
    requires OnlyMoves(s, r, d)
    ensures forall role: Role :: Some(s, role, c, u) <==> Plays(s, d, role, c, u) || Other(s, d, role, c, u)
    ensures forall role: Role :: Some(r, role, c, u) <==> Plays(r, d, role, c, u) || Other(r, d, role, c, u)
    ensures forall role: Role ::
              !role.FillsNow? && !role.Writes? ==> (Other(r, d, role, c, u) <==> Other(s, d, role, c, u))
    ensures SameEntry(s, r, c) ==> (Other(r, d, FillsNow, c, u) <==> Other(s, d, FillsNow, c, u))
    ensures (c in r.stored <==> c in s.stored) ==> (Other(r, d, Writes, c, u) <==> Other(s, d, Writes, c, u))
    ensures c !in r.cache ==> !Some(r, FillsNow, c, u)
    ensures c !in r.stored ==> !Some(r, Writes, c, u)
  {
    forall role: Role {
      Split(s, r, d, role, c, u);
    }
  }

  lemma PairStart(s: State, step: Step, c: ChannelId, u: UserId)
    requires (step.StartLoad? || step.StartAdd?) && PairOk(s, c, u)
    ensures PairOk(Do(s, step), c, u)
  {
    SplitAll(s, Do(s, step), step.t, c, u);
  }

  lemma PairWrite(s: State, t: Thread, c: ChannelId, u: UserId)
    requires PairOk(s, c, u)
    ensures PairOk(DoWrite(s, t), c, u)
  {
    SplitAll(s, DoWrite(s, t), t, c, u);
  }

  lemma PairTest(s: State, t: Thread, c: ChannelId, u: UserId)
    requires PairOk(s, c, u)
    ensures PairOk(DoTest(s, t), c, u) <==> !Harms(s, Test(t), c, u)
  {
    SplitAll(s, DoTest(s, t), t, c, u);
  }

  lemma PairRead(s: State, t: Thread, c: ChannelId, u: UserId)
    requires PairOk(s, c, u)
    ensures PairOk(DoRead(s, t), c, u)
  {
    SplitAll(s, DoRead(s, t), t, c, u);
  }

  lemma PairMake(s: State, t: Thread, c: ChannelId, u: UserId)
    requires PairOk(s, c, u) && forall d, e :: IdOk(s, d, e)
    ensures PairOk(DoMake(s, t), c, u)
  {
    SplitAll(s, DoMake(s, t), t, c, u);
    forall d | PcOf(s, t).Making? && PcOf(s, t).room !in s.cache && d != t
      ensures !Plays(DoMake(s, t), d, FillsNow, PcOf(s, t).room, u)
    {
      assert IdOk(s, d, PcOf(s, t).room);
    }
  }

  lemma PairFill(s: State, t: Thread, c: ChannelId, u: UserId)
    requires PairOk(s, c, u)
    ensures PairOk(DoFill(s, t), c, u)
  {
    SplitAll(s, DoFill(s, t), t, c, u);
  }

  lemma PairRemove(s: State, t: Thread, c: ChannelId, u: UserId)
    requires PairOk(s, c, u)
    ensures PairOk(DoRemove(s, t), c, u) <==> !Harms(s, Remove(t), c, u)
  {
    SplitAll(s, DoRemove(s, t), t, c, u);
  }

  lemma PairDelete(s: State, t: Thread, c: ChannelId, u: UserId)
    requires PairOk(s, c, u)
    ensures PairOk(DoDelete(s, t), c, u) <==> !Harms(s, Delete(t), c, u)
  {
    SplitAll(s, DoDelete(s, t), t, c, u);
  }

  lemma PairLeave(s: State, step: Step, c: ChannelId, u: UserId)
    requires (step.Leave? || step.Disolve?) && PairOk(s, c, u)
    ensures PairOk(Do(s, step), c, u) <==> !Harms(s, step, c, u)
  {
    SplitAll(s, Do(s, step), step.t, c, u);
  }

  lemma PairEnter(s: State, step: Step, c: ChannelId, u: UserId)
    requires step.Enter? && PairOk(s, c, u)
    ensures PairOk(Do(s, step), c, u) <==> !Harms(s, step, c, u)
  {
    SplitAll(s, Do(s, step), step.t, c, u);
  }

  lemma PairEvict(s: State, step: Step, c: ChannelId, u: UserId)
    requires step.Evict? && PairOk(s, c, u)
    ensures PairOk(Do(s, step), c, u) <==> !Harms(s, step, c, u)
  {
    SplitAll(s, Do(s, step), step.t, c, u);
  }

  lemma PairStep(s: State, step: Step, c: ChannelId, u: UserId)
    requires PairOk(s, c, u) && forall t, e :: IdOk(s, t, e)
    ensures PairOk(Do(s, step), c, u) <==> !Harms(s, step, c, u)
  {
    match step
    case StartLoad(_, _) => PairStart(s, step, c, u);
    case StartAdd(_, _, _) => PairStart(s, step, c, u);
    case Leave(_, _, _) => PairLeave(s, step, c, u);
    case Disolve(_, _, _) => PairLeave(s, step, c, u);
    case Enter(_, _, _) => PairEnter(s, step, c, u);
    case Evict(_, _) => PairEvict(s, step, c, u);
    case Write(t) => PairWrite(s, t, c, u);
    case Test(t) => PairTest(s, t, c, u);
    case Read(t) => PairRead(s, t, c, u);
    case Make(t) => PairMake(s, t, c, u);
    case Fill(t) => PairFill(s, t, c, u);
    case Remove(t) => PairRemove(s, t, c, u);
    case Delete(t) => PairDelete(s, t, c, u);
  }

  /** One step keeps every difference between cache and database on its way out, exactly if it
      does no harm. */
  lemma InvStep(s: State, step: Step)
    requires Inv(s)
    ensures Inv(Do(s, step)) <==> !Harmful(s, step)
  {
    var r := Do(s, step);
    forall t, c ensures IdOk(r, t, c) {
      assert IdOk(s, t, c) && IdOk(s, step.t, c);
      assert PcOf(s, step.t).Making? ==> IdOk(s, t, PcOf(s, step.t).room);
      IdStep(s, step, t, c);
    }
    forall c, u ensures PairOk(r, c, u) <==> !Harms(s, step, c, u) {
      PairStep(s, step, c, u);
    }
  }

  ghost predicate HarmlessRun(s: State, steps: seq<Step>)
    decreases |steps|
  {
    steps == [] || (!Harmful(s, steps[0]) && HarmlessRun(Do(s, steps[0]), steps[1..]))
  }

  lemma {:induction false} InvRun(s: State, steps: seq<Step>)
    requires Inv(s) && HarmlessRun(s, steps)
    ensures Inv(Run(s, steps))
    decreases |steps|
  {
    if steps != [] {
      InvStep(s, steps[0]);
      InvRun(Do(s, steps[0]), steps[1..]);
    }
  }

  // ---- At rest ----------------------------------------------------------------------------

  ghost predicate Quiet(s: State) {
    forall t :: PcOf(s, t).Idle?
  }

  /** Every cached entry holds exactly the stored members. */
  ghost predicate Exact(s: State) {
    forall c :: c in s.cache ==> s.cache[c].users == MembersOf(s, c)
  }

  ghost predicate IdsOk(s: State) {
    forall c :: c in s.cache ==> s.cache[c].id < s.nextId
  }

  lemma RestExact(s: State)
    requires Quiet(s) && IdsOk(s)
    ensures Inv(s) <==> Exact(s)
  {
    forall c, u ensures PairOk(s, c, u) <==> (c in s.cache ==> (Member(s, c, u) <==> Cached(s, c, u))) {
      assert forall t, role: Role :: PcOf(s, t).Idle? ==> !Plays(s, t, role, c, u);
    }
    if Inv(s) {
      forall c | c in s.cache ensures s.cache[c].users == MembersOf(s, c) {
        forall u ensures u in s.cache[c].users <==> u in MembersOf(s, c) {
          assert PairOk(s, c, u);
          assert Cached(s, c, u) == (u in s.cache[c].users);
        }
      }
    }
  }

  /** However loads, additions, removals, evictions and joins that do not tell the cache
      interleave, if no step does harm: from rest to rest, every cached entry holds exactly the
      stored members. */
  lemma NoAdditionLost(s: State, steps: seq<Step>)
    requires Quiet(s) && IdsOk(s) && Exact(s)
    requires HarmlessRun(s, steps) && Quiet(Run(s, steps))
    ensures Exact(Run(s, steps))
  {
    var r := Run(s, steps);
    RestExact(s);
    InvRun(s, steps);
    forall c | c in r.cache ensures r.cache[c].id < r.nextId {
      assert IdOk(r, 0, c);
    }
    RestExact(r);
  }

  // ---- Harm is real -----------------------------------------------------------------------

  /** The steps of commands that have begun. */
  predicate InFlight(step: Step) {
    step.Write? || step.Test? || step.Read? || step.Make? || step.Fill? || step.Remove? || step.Delete?
  }

  predicate AllInFlight(steps: seq<Step>) {
    forall i :: 0 <= i < |steps| ==> InFlight(steps[i])
  }

  /** The entry is wrong about the user, and nobody is going to put that right. */
  ghost predicate Broken(s: State, c: ChannelId, u: UserId) {
    && c in s.cache
    && (|| (Member(s, c, u) && !Cached(s, c, u)
            && !Some(s, AddsNew, c, u) && !Some(s, FillsNow, c, u) && !Some(s, Deletes, c, u))
        || (!Member(s, c, u) && Cached(s, c, u) && !Some(s, Drops, c, u) && !Some(s, Writes, c, u)))
  }

  lemma BrokenStep(s: State, step: Step, c: ChannelId, u: UserId)
    requires Broken(s, c, u) && InFlight(step)
    ensures Broken(Do(s, step), c, u)
  {
    match step
    case Write(t) => BrokenWrite(s, t, c, u);
    case Test(t) => BrokenTest(s, t, c, u);
    case Read(t) => BrokenRead(s, t, c, u);
    case Make(t) => BrokenMake(s, t, c, u);
    case Fill(t) => BrokenFill(s, t, c, u);
    case Remove(t) => BrokenRemove(s, t, c, u);
    case Delete(t) => BrokenDelete(s, t, c, u);
  }

  lemma BrokenWrite(s: State, t: Thread, c: ChannelId, u: UserId)
    requires Broken(s, c, u)
    ensures Broken(DoWrite(s, t), c, u)
  {
    SplitAll(s, DoWrite(s, t), t, c, u);
  }

  lemma BrokenTest(s: State, t: Thread, c: ChannelId, u: UserId)
    requires Broken(s, c, u)
    ensures Broken(DoTest(s, t), c, u)
  {
    SplitAll(s, DoTest(s, t), t, c, u);
  }

  lemma BrokenRead(s: State, t: Thread, c: ChannelId, u: UserId)
    requires Broken(s, c, u)
    ensures Broken(DoRead(s, t), c, u)
  {
    SplitAll(s, DoRead(s, t), t, c, u);
  }

  lemma BrokenMake(s: State, t: Thread, c: ChannelId, u: UserId)
    requires Broken(s, c, u)
    ensures Broken(DoMake(s, t), c, u)
  {
    SplitAll(s, DoMake(s, t), t, c, u);
  }

  lemma BrokenFill(s: State, t: Thread, c: ChannelId, u: UserId)
    requires Broken(s, c, u)
    ensures Broken(DoFill(s, t), c, u)
  {
    SplitAll(s, DoFill(s, t), t, c, u);
  }

  lemma BrokenRemove(s: State, t: Thread, c: ChannelId, u: UserId)
    requires Broken(s, c, u)
    ensures Broken(DoRemove(s, t), c, u)
  {
    SplitAll(s, DoRemove(s, t), t, c, u);
  }

  lemma BrokenDelete(s: State, t: Thread, c: ChannelId, u: UserId)
    requires Broken(s, c, u)
    ensures Broken(DoDelete(s, t), c, u)
  {
    SplitAll(s, DoDelete(s, t), t, c, u);
  }

  lemma {:induction false} BrokenForGood(s: State, steps: seq<Step>, c: ChannelId, u: UserId)
    requires Broken(s, c, u) && AllInFlight(steps)
    ensures Broken(Run(s, steps), c, u)
    decreases |steps|
  {
    if steps != [] {
      BrokenStep(s, steps[0], c, u);
      BrokenForGood(Do(s, steps[0]), steps[1..], c, u);
    }
  }

  /** The commands that have begun can bring it about. */
  ghost predicate CanBreak(s: State, c: ChannelId, u: UserId) {
    exists steps :: AllInFlight(steps) && Broken(Run(s, steps), c, u)
  }

  /** The entry after `t` has made or found it and filled it. */
  function Filled(s: State, t: Thread): State {
    DoFill(DoMake(s, t), t)
  }

  function FillSteps(t: Thread): seq<Step> {
    [Make(t), Fill(t)]
  }

  lemma FillRun(s: State, t: Thread)
    ensures Run(s, FillSteps(t)) == Filled(s, t)
  {
    assert FillSteps(t)[1..] == [Fill(t)];
    assert Run(DoMake(s, t), [Fill(t)]) == Filled(s, t);
  }

  /** Somebody who holds a user puts the user into the entry. */
  lemma HeldGetsIn(s: State, t: Thread, c: ChannelId, u: UserId)
    requires Plays(s, t, Holds, c, u) || Plays(s, t, FillsNow, c, u)
    requires !Member(s, c, u) && !Some(s, Drops, c, u) && !Some(s, Writes, c, u)
    ensures CanBreak(s, c, u)
  {
    FillRun(s, t);
    var m := DoMake(s, t);
    var r := DoFill(m, t);
    assert Plays(m, t, FillsNow, c, u);
    SplitAll(s, m, t, c, u);
    SplitAll(m, r, t, c, u);
    assert Broken(r, c, u);
    assert AllInFlight(FillSteps(t));
  }

  /** A new entry made without a member, with nobody about to drop it, misses the member. */
  lemma MadeWithout(s: State, t: Thread, c: ChannelId, u: UserId)
    requires Plays(s, t, Lacks, c, u) && c !in s.cache && forall d :: IdOk(s, d, c)
    requires Member(s, c, u) && !Some(s, AddsNew, c, u) && !Some(s, Deletes, c, u)
    ensures CanBreak(s, c, u)
  {
    FillRun(s, t);
    var m := DoMake(s, t);
    var r := DoFill(m, t);
    SplitAll(s, m, t, c, u);
    SplitAll(m, r, t, c, u);
    forall d | d != t ensures !Plays(m, d, FillsNow, c, u) {
      assert IdOk(s, d, c);
    }
    assert Broken(r, c, u);
    assert AllInFlight(FillSteps(t));
  }

  /** The disolves of a room that is not cached can end first. */
  lemma {:induction false} DrainDeletes(s: State, c: ChannelId, ts: set<Thread>) returns (steps: seq<Step>)
    requires c !in s.cache
    requires forall t :: Plays(s, t, Deletes, c, "") ==> t in ts
    ensures AllInFlight(steps)
    ensures var r := Run(s, steps);
            && r.stored == s.stored && r.cache == s.cache && r.nextId == s.nextId
            && forall t :: PcOf(r, t) == if Plays(s, t, Deletes, c, "") then Idle else PcOf(s, t)
    decreases |ts|
  {
    if ts == {} {
      steps := [];
    } else {
      var t :| t in ts;
      var m := if Plays(s, t, Deletes, c, "") then DoDelete(s, t) else s;
      assert m.cache == s.cache;
      forall d | Plays(m, d, Deletes, c, "") ensures d in ts - {t} {
        assert Plays(s, d, Deletes, c, "") && d != t;
      }
      var rest := DrainDeletes(m, c, ts - {t});
      steps := if Plays(s, t, Deletes, c, "") then [Delete(t)] + rest else rest;
    }
  }

  /** So disolves do not help a member whom somebody is about to leave out of a new entry. */
  lemma LeftOut(s: State, c: ChannelId, u: UserId)
    requires Some(s, Lacks, c, u) && c !in s.cache && forall t, e :: IdOk(s, t, e)
    requires Member(s, c, u) && !Some(s, AddsNew, c, u)
    ensures CanBreak(s, c, u)
  {
    var t :| Plays(s, t, Lacks, c, u);
    var first := DrainDeletes(s, c, s.threads.Keys);
    var m := Run(s, first);
    forall d, role: Role
      ensures role.AddsNew? || role.Lacks? ==> Plays(m, d, role, c, u) == Plays(s, d, role, c, u)
      ensures !Plays(m, d, Deletes, c, u) && IdOk(m, d, c)
    {
      assert IdOk(s, d, c);
      assert Plays(s, d, Deletes, c, "") == Plays(s, d, Deletes, c, u);
    }
    MadeWithout(m, t, c, u);
    BreaksLater(s, first, c, u);
  }

  lemma {:induction false} BreaksLater(s: State, first: seq<Step>, c: ChannelId, u: UserId)
    requires AllInFlight(first) && CanBreak(Run(s, first), c, u)
    ensures CanBreak(s, c, u)
    decreases |first|
  {
    if first != [] {
      BreaksLater(Do(s, first[0]), first[1..], c, u);
      var steps :| AllInFlight(steps) && Broken(Run(Do(s, first[0]), steps), c, u);
      assert ([first[0]] + steps)[1..] == steps;
      assert AllInFlight([first[0]] + steps) && Broken(Run(s, [first[0]] + steps), c, u);
    }
  }

  lemma BrokenNow(s: State, c: ChannelId, u: UserId)
    requires Broken(s, c, u)
    ensures CanBreak(s, c, u)
  {
    assert Run(s, []) == s && AllInFlight([]);
  }

  lemma HarmBreaks(s: State, step: Step, c: ChannelId, u: UserId)
    requires Inv(s) && Harms(s, step, c, u)
    ensures CanBreak(Do(s, step), c, u)
  {
    var r := Do(s, step);
    PairStep(s, step, c, u);
    assert !PairOk(r, c, u);
    forall t, e ensures IdOk(r, t, e) {
      assert IdOk(s, t, e) && IdOk(s, step.t, e);
      assert PcOf(s, step.t).Making? ==> IdOk(s, t, PcOf(s, step.t).room);
      IdStep(s, step, t, e);
    }
    NotOkBreaks(r, c, u);
  }

  /** Whenever a difference is not on its way out, it can become one for good. */
  lemma NotOkBreaks(s: State, c: ChannelId, u: UserId)
    requires !PairOk(s, c, u) && forall t, e :: IdOk(s, t, e)
    ensures CanBreak(s, c, u)
  {
    if !EntryOk(s, c, u) {
      BrokenNow(s, c, u);
    } else if !MakersOk(s, c, u) {
      LeftOut(s, c, u);
    } else if Cached(s, c, u) {
      BrokenNow(s, c, u);
    } else if Some(s, Holds, c, u) {
      var t :| Plays(s, t, Holds, c, u);
      HeldGetsIn(s, t, c, u);
    } else {
      var t :| Plays(s, t, FillsNow, c, u);
      HeldGetsIn(s, t, c, u);
    }
  }

  /** Whatever the commands that have begun do, the entry does not hold the stored members. */
  ghost predicate WrongForGood(s: State, c: ChannelId) {
    forall steps :: AllInFlight(steps) ==>
      var r := Run(s, steps); c in r.cache && r.cache[c].users != MembersOf(r, c)
  }

  lemma BrokenIsWrong(s: State, c: ChannelId, u: UserId)
    requires Broken(s, c, u)
    ensures WrongForGood(s, c)
  {
    forall steps | AllInFlight(steps)
      ensures var r := Run(s, steps); c in r.cache && r.cache[c].users != MembersOf(r, c)
    {
      BrokenForGood(s, steps, c, u);
      var r := Run(s, steps);
      assert Cached(r, c, u) == (u in r.cache[c].users) && Member(r, c, u) == (u in MembersOf(r, c));
    }
  }

  /** Every harmful step can do its harm: after it, the commands that have begun can bring the
      cache into a state in which some entry is wrong from then on, whatever they still do. */
  lemma HarmIsReal(s: State, step: Step)
    requires Inv(s) && Harmful(s, step)
    ensures exists steps, c :: AllInFlight(steps) && WrongForGood(Run(Do(s, step), steps), c)
  {
    var c, u :| Harms(s, step, c, u);
    HarmBreaks(s, step, c, u);
    var steps :| AllInFlight(steps) && Broken(Run(Do(s, step), steps), c, u);
    BrokenIsWrong(Run(Do(s, step), steps), c, u);
  }

  // ---- The kinds of harm ------------------------------------------------------------------

  /** An eviction is harmless exactly if everybody who is about to make an entry without some
      member is made good by somebody else; so always while nobody is about to make one. */
  lemma EvictExactly(s: State, e: Thread, c: ChannelId)
    requires Inv(s)
    ensures Inv(Do(s, Evict(e, c))) <==> forall u :: !Losing(s, c, u)
    ensures (forall t :: PcOf(s, t).Making? ==> PcOf(s, t).room != c) ==> Inv(Do(s, Evict(e, c)))
  {
    InvStep(s, Evict(e, c));
    forall u ensures Harms(s, Evict(e, c), c, u) == Losing(s, c, u) {}
  }

  /** A join of subs or join_room is harmless exactly if the user is a member already, or
      somebody will put the user into the entry or drop it, or there is neither an entry without
      the user nor anybody about to make one. */
  lemma BareExactly(s: State, t: Thread, c: ChannelId, u: UserId)
    requires Inv(s)
    ensures Inv(Do(s, Enter(t, c, u))) <==> !EnterHarms(s, c, u)
  {
    InvStep(s, Enter(t, c, u));
    assert Harms(s, Enter(t, c, u), c, u) == EnterHarms(s, c, u);
  }

  /** unsubs cleans the cache without harm exactly if none of its users has joined again without
      anybody to put that user back, and none is still held without anybody else to take that
      user out. */
  lemma RemoveExactly(s: State, t: Thread)
    requires Inv(s) && PcOf(s, t).Removing?
    ensures var pc := PcOf(s, t);
            Inv(Do(s, Remove(t))) <==> forall u :: u in pc.ids ==> !RemoveHarms(s, t, pc.room, u)
  {
    InvStep(s, Remove(t));
    var pc := PcOf(s, t);
    forall u ensures Harms(s, Remove(t), pc.room, u) == (u in pc.ids && RemoveHarms(s, t, pc.room, u)) {}
  }

  ghost predicate Misses(s: State, c: ChannelId, u: UserId) {
    c in s.cache && Member(s, c, u) && !Cached(s, c, u)
  }

  /** In any state: a load has read the members of an uncached room, subs or join_room lets
      somebody in, and the load caches what it read. */
  lemma SubsRacesWithPublish(s: State, t: Thread, b: Thread, u: UserId)
    requires PcOf(s, t).Making? && PcOf(s, t).room !in s.cache && u !in PcOf(s, t).ids
    ensures Misses(Filled(Do(s, Enter(b, PcOf(s, t).room, u)), t), PcOf(s, t).room, u)
  {
  }

  /** In any state: add_into_room has found the room cached, the entry is evicted, and the one it
      makes misses every member it did not itself add. */
  lemma EvictionRacesWithAdd(s: State, t: Thread, e: Thread, u: UserId)
    requires PcOf(s, t).Making? && Member(s, PcOf(s, t).room, u) && u !in PcOf(s, t).ids
    ensures Misses(Filled(Do(s, Evict(e, PcOf(s, t).room)), t), PcOf(s, t).room, u)
  {
  }

  /** In any state: a load holds a member whom unsubs has removed from the database; unsubs cleans
      the cache, and then the load caches the removed member. */
  lemma RemovedMemberStays(s: State, t: Thread, d: Thread, u: UserId)
    requires t != d && PcOf(s, t).Making? && PcOf(s, d).Removing? && PcOf(s, d).room == PcOf(s, t).room
    requires u in PcOf(s, t).ids && u in PcOf(s, d).ids && !Member(s, PcOf(s, t).room, u)
    ensures var c, r := PcOf(s, t).room, Filled(DoRemove(s, d), t);
            Cached(r, c, u) && !Member(r, c, u) && PcOf(r, d) == Idle
  {
  }

  /** Were an uncached room not reloaded by add_into_room, in any state in which a load has read
      the members before `d` added `u` and `d` now finds the room uncached: `u` is left out. */
  lemma ForcedReloadNeeded(s: State, t: Thread, d: Thread, u: UserId)
    requires t != d && PcOf(s, t).Making? && PcOf(s, d).Testing? && PcOf(s, d).room == PcOf(s, t).room
    requires PcOf(s, t).room !in s.cache && Member(s, PcOf(s, t).room, u) && u !in PcOf(s, t).ids
    ensures Misses(Filled(Goto(s, d, Idle), t), PcOf(s, t).room, u)
    ensures Plays(Do(s, Test(d)), d, AddsNew, PcOf(s, t).room, u)
  {
  }

  /** While an entry is being made, a publish finds it, empty, and reaches nobody. */
  lemma EntrySeenEmpty(s: State, t: Thread, d: Thread)
    requires PcOf(s, t).Making? && PcOf(s, t).room !in s.cache
    ensures var c := PcOf(s, t).room;
            var r := Do(s, Make(t));
            c in r.cache && r.cache[c].users == {} && Do(r, StartLoad(d, c)) == r
  {
  }
}
