/** The session table: which connection a user id is mapped to. Connections set an id, are
    initialised by a separate goroutine, and unmap themselves when they close. The table's
    Remove compares and deletes; AddClient takes no lock, so it can come in between. */
module Sessions {
  import opened Mongo
  import Push
  import Text

  type UserId = string
  type ConnId = nat

  datatype Life = Created | Ready | Dead

  /** What a closing connection is doing; it holds its client lock all the while. */
  datatype Act = Free | Comparing | Deleting

  /** `inits` counts the initialisations that setuuid has started and that have not run. */
  datatype Conn = Conn(uuid: UserId, life: Life, isClient: bool, inits: nat, act: Act)

  /** `latest` is history: the connection last mapped for each user. */
  datatype State = State(conns: map<ConnId, Conn>, table: map<UserId, ConnId>, latest: map<UserId, ConnId>)

  datatype Step =
    | SetUuid(c: ConnId, u: UserId)
    | Authenticate(c: ConnId)
    | ClearIdentity(c: ConnId)
    | Initialise(c: ConnId)
    | Close(c: ConnId)
    | Compare(c: ConnId)
    | Delete(c: ConnId)

  function Of(s: State, c: ConnId): Conn {
    if c in s.conns then s.conns[c] else Conn("", Created, false, 0, Free)
  }

  function Mapped(s: State, u: UserId): Option<ConnId> {
    if u in s.table then Some(s.table[u]) else None
  }

  function Latest(s: State, u: UserId): Option<ConnId> {
    if u in s.latest then Some(s.latest[u]) else None
  }

  function Do(s: State, step: Step): State {
    var c := step.c;
    var conn := Of(s, c);
    match step
    case SetUuid(_, u) =>
      if u == "" || conn.life.Dead? then s
      else s.(conns := s.conns[c := conn.(uuid := u, inits := conn.inits + 1)])
    case Authenticate(_) => if conn.life.Dead? then s else s.(conns := s.conns[c := conn.(isClient := true)])
    case ClearIdentity(_) => if conn.life.Dead? then s else s.(conns := s.conns[c := conn.(isClient := false)])
    case Initialise(_) =>
      if conn.inits == 0 || conn.act != Free then s
      else if conn.life != Created then s.(conns := s.conns[c := conn.(inits := conn.inits - 1)])
      else s.(conns := s.conns[c := conn.(inits := conn.inits - 1, life := Ready)],
              table := s.table[conn.uuid := c], latest := s.latest[conn.uuid := c])
    case Close(_) =>
      if conn.life.Dead? then s
      else s.(conns := s.conns[c := conn.(life := Dead, act := if conn.isClient then Comparing else Free)])
    case Compare(_) =>
      if conn.act != Comparing then s
      else s.(conns := s.conns[c := conn.(act := if Mapped(s, conn.uuid) == Some(c) then Deleting else Free)])
    case Delete(_) =>
      if conn.act != Deleting then s
      else s.(conns := s.conns[c := conn.(act := Free)], table := s.table - {conn.uuid})
  }

  function Run(s: State, steps: seq<Step>): State
    decreases |steps|
  {
    if steps == [] then s else Run(Do(s, steps[0]), steps[1..])
  }

  function Init(): State {
    State(map[], map[], map[])
  }

  // ---- Every run ------------------------------------------------------------------------

  /** Only a connection that has set an id gets initialised. */
  predicate NamedOk(s: State, c: ConnId) {
    Of(s, c).uuid == "" ==> Of(s, c).inits == 0
  }

  /** A mapped connection has been initialised, and so is not mapped a second time. */
  predicate MappedOk(s: State, u: UserId, v: UserId) {
    && (u in s.table ==> u != "" && !Of(s, s.table[u]).life.Created?)
    && (u in s.table && v in s.table && s.table[u] == s.table[v] ==> u == v)
  }

  lemma NamedStep(s: State, step: Step, c: ConnId)
    requires NamedOk(s, c)
    ensures NamedOk(Do(s, step), c)
  {
  }

  lemma MappedStep(s: State, step: Step, u: UserId, v: UserId)
    requires NamedOk(s, step.c) && MappedOk(s, u, v) && MappedOk(s, v, u)
    ensures MappedOk(Do(s, step), u, v)
  {
    if u in s.table && s.table[u] != step.c { OthersStay(s, step, s.table[u]); }
  }

  lemma {:induction false} EveryRun(s: State, steps: seq<Step>)
    requires (forall c :: NamedOk(s, c)) && (forall u, v :: MappedOk(s, u, v))
    ensures forall u, v :: MappedOk(Run(s, steps), u, v)
    decreases |steps|
  {
    if steps != [] {
      var r := Do(s, steps[0]);
      forall c ensures NamedOk(r, c) { NamedStep(s, steps[0], c); }
      forall u, v ensures MappedOk(r, u, v) {
        assert NamedOk(s, steps[0].c) && MappedOk(s, u, v) && MappedOk(s, v, u);
        MappedStep(s, steps[0], u, v);
      }
      EveryRun(r, steps[1..]);
    }
  }

  /** Whatever clients do, with closes half done and ids set twice: nobody is ever mapped under
      the empty id. */
  lemma NobodyUnderEmptyId(steps: seq<Step>)
    ensures "" !in Run(Init(), steps).table
  {
    EveryRun(Init(), steps);
    assert MappedOk(Run(Init(), steps), "", "");
  }

  /** The table as a push sees it: each entry with the id its connection has set by now. */
  function Serving(s: State): map<UserId, Push.Session> {
    map u | u in s.table :: Push.Session(s.table[u], Of(s, s.table[u]).uuid)
  }

  /** In every state of every run the table is one that a push may be given: no connection is
      in it twice, and none under the empty id. */
  lemma EveryTableServes(steps: seq<Step>)
    ensures Push.MappedOnce(Serving(Run(Init(), steps))) && "" !in Serving(Run(Init(), steps))
  {
    EveryRun(Init(), steps);
    NobodyUnderEmptyId(steps);
    var s := Run(Init(), steps);
    forall u, v | u in s.table && v in s.table && s.table[u] == s.table[v]
      ensures u == v
    {
      assert MappedOk(s, u, v);
    }
  }

  // ---- Which runs -----------------------------------------------------------------------

  /** A connection sets its id once, and is authenticated when it closes. */
  predicate Polite(s: State, step: Step) {
    && (step.SetUuid? ==> Of(s, step.c).uuid == "")
    && (step.Close? ==> Of(s, step.c).isClient)
  }

  ghost predicate Good(s: State, steps: seq<Step>)
    decreases |steps|
  {
    steps == [] || (Polite(s, steps[0]) && Good(Do(s, steps[0]), steps[1..]))
  }

  // ---- The table in polite runs ---------------------------------------------------------

  /** A mapped connection has set that id, was the last one mapped under it, and is alive or
      on its way out. */
  predicate EntryOk(s: State, u: UserId) {
    u in s.table ==>
      var c := s.table[u];
      var conn := Of(s, c);
      && Latest(s, u) == Some(c) && u != "" && conn.uuid == u
      && conn.life != Created && (conn.life.Dead? ==> conn.act != Free)
  }

  /** Whoever was mapped last for a user has set that id, for good. */
  predicate LatestOk(s: State, u: UserId) {
    u in s.latest ==> u != "" && Of(s, s.latest[u]).uuid == u && !Of(s, s.latest[u]).life.Created?
  }

  predicate ConnOk(s: State, c: ConnId) {
    var conn := Of(s, c);
    && (conn.act != Free ==> conn.life.Dead?)
    && (conn.uuid == "" ==> conn.inits == 0)
    && (conn.life.Created? ==> conn.inits == if conn.uuid == "" then 0 else 1)
  }

  ghost predicate Inv(s: State) {
    (forall u :: EntryOk(s, u)) && (forall u :: LatestOk(s, u)) && (forall c :: ConnOk(s, c))
  }

  lemma OthersStay(s: State, step: Step, d: ConnId)
    requires d != step.c
    ensures Of(Do(s, step), d) == Of(s, d)
  {
  }

  lemma EntryStep(s: State, step: Step, u: UserId)
    requires EntryOk(s, u) && ConnOk(s, step.c) && Polite(s, step)
    ensures EntryOk(Do(s, step), u)
  {
  }

  lemma LatestStep(s: State, step: Step, u: UserId)
    requires LatestOk(s, u) && ConnOk(s, step.c) && Polite(s, step)
    ensures LatestOk(Do(s, step), u)
  {
  }

  lemma ConnStep(s: State, step: Step, c: ConnId)
    requires ConnOk(s, c) && Polite(s, step)
    ensures ConnOk(Do(s, step), c)
  {
  }

  lemma InvStep(s: State, step: Step)
    requires Inv(s) && Polite(s, step)
    ensures Inv(Do(s, step))
  {
    var r := Do(s, step);
    assert ConnOk(s, step.c);
    forall u ensures EntryOk(r, u) { EntryStep(s, step, u); }
    forall u ensures LatestOk(r, u) { LatestStep(s, step, u); }
    forall c ensures ConnOk(r, c) { ConnStep(s, step, c); }
  }

  lemma {:induction false} InvRun(s: State, steps: seq<Step>)
    requires Inv(s) && Good(s, steps)
    ensures Inv(Run(s, steps))
    decreases |steps|
  {
    if steps != [] {
      InvStep(s, steps[0]);
      InvRun(Do(s, steps[0]), steps[1..]);
    }
  }

  /** No connection is in the middle of closing. */
  ghost predicate AtRest(s: State) {
    forall c :: Of(s, c).act.Free?
  }

  /** Even when AddClient interferes: at rest an entry is the session initialised last for its
      user, alive and mapped under its own id, or there is none. */
  lemma EntryIsLatestOrAbsent(steps: seq<Step>, u: UserId)
    requires Good(Init(), steps) && AtRest(Run(Init(), steps))
    ensures var s := Run(Init(), steps);
            u in s.table ==>
              Latest(s, u) == Some(s.table[u]) && Of(s, s.table[u]).life.Ready? && Of(s, s.table[u]).uuid == u
  {
    InvRun(Init(), steps);
    var s := Run(Init(), steps);
    assert EntryOk(s, u);
    assert u in s.table ==> Of(s, s.table[u]).act.Free?;
  }

  // ---- When a live session is unmapped --------------------------------------------------

  /** The last session mapped for a user is still mapped while it lives. */
  predicate Kept(s: State, u: UserId) {
    var l := Latest(s, u);
    l.Some? && Of(s, l.value).life.Ready? ==> Mapped(s, u) == l
  }

  /** The second half of a close that unmaps somebody else's live session. */
  predicate UnmapsOther(s: State, step: Step, u: UserId) {
    var l := Latest(s, u);
    step.Delete? && Of(s, step.c).act.Deleting? && Of(s, step.c).uuid == u
    && l.Some? && l.value != step.c && Of(s, l.value).life.Ready?
  }

  /** In every run: only a dead connection is closing, who was mapped last has been initialised,
      and a mapped connection is the one mapped last. */
  predicate ClosingOk(s: State, c: ConnId) {
    !Of(s, c).act.Free? ==> Of(s, c).life.Dead?
  }

  predicate LastOk(s: State, u: UserId) {
    (u in s.latest ==> !Of(s, s.latest[u]).life.Created?) && (u in s.table ==> Latest(s, u) == Mapped(s, u))
  }

  lemma ClosingStep(s: State, step: Step, c: ConnId)
    requires ClosingOk(s, c)
    ensures ClosingOk(Do(s, step), c)
  {
    if c != step.c { OthersStay(s, step, c); }
  }

  lemma LastStep(s: State, step: Step, u: UserId)
    requires LastOk(s, u)
    ensures LastOk(Do(s, step), u)
  {
    if u in s.latest && s.latest[u] != step.c { OthersStay(s, step, s.latest[u]); }
  }

  /** That is the only way in which a live session is ever unmapped. */
  lemma KeptExactly(s: State, step: Step, u: UserId)
    requires Kept(s, u) && LastOk(s, u) && ClosingOk(s, step.c)
    ensures Kept(Do(s, step), u) <==> !UnmapsOther(s, step, u)
  {
    var l := Latest(s, u);
    if l.Some? && l.value != step.c { OthersStay(s, step, l.value); }
  }

  ghost predicate NeverUnmaps(s: State, steps: seq<Step>, u: UserId)
    decreases |steps|
  {
    steps == [] || (!UnmapsOther(s, steps[0], u) && NeverUnmaps(Do(s, steps[0]), steps[1..], u))
  }

  /** In every state the run goes through. */
  ghost predicate AlwaysKept(s: State, steps: seq<Step>, u: UserId)
    decreases |steps|
  {
    Kept(s, u) && (steps == [] || AlwaysKept(Do(s, steps[0]), steps[1..], u))
  }

  lemma {:induction false} KeptRun(s: State, steps: seq<Step>, u: UserId)
    requires Kept(s, u) && LastOk(s, u) && forall c :: ClosingOk(s, c)
    ensures AlwaysKept(s, steps, u) <==> NeverUnmaps(s, steps, u)
    ensures NeverUnmaps(s, steps, u) ==> Kept(Run(s, steps), u)
    decreases |steps|
  {
    if steps != [] {
      var r := Do(s, steps[0]);
      LastStep(s, steps[0], u);
      forall c ensures ClosingOk(r, c) {
        assert ClosingOk(s, c);
        ClosingStep(s, steps[0], c);
      }
      assert ClosingOk(s, steps[0].c);
      KeptExactly(s, steps[0], u);
      if !UnmapsOther(s, steps[0], u) { KeptRun(r, steps[1..], u); }
    }
  }

  /** In every run whatsoever: a user's last session stays mapped while it lives, all through the
      run, if and only if no delete of an older session's close comes after it was mapped. */
  lemma AlwaysKeptExactly(steps: seq<Step>, u: UserId)
    ensures AlwaysKept(Init(), steps, u) <==> NeverUnmaps(Init(), steps, u)
  {
    KeptRun(Init(), steps, u);
  }

  /** In such a run the table at rest is exact: a user is mapped to `c` precisely when `c` is
      the session initialised last for that user and `c` has not closed. */
  lemma TableExact(steps: seq<Step>, u: UserId, c: ConnId)
    requires Good(Init(), steps) && NeverUnmaps(Init(), steps, u) && AtRest(Run(Init(), steps))
    ensures var s := Run(Init(), steps);
            Mapped(s, u) == Some(c) <==> Latest(s, u) == Some(c) && Of(s, c).life.Ready?
  {
    KeptRun(Init(), steps, u);
    InvRun(Init(), steps);
    var s := Run(Init(), steps);
    assert EntryOk(s, u) && Of(s, c).act.Free?;
  }

  // ---- An atomic compare-and-delete -----------------------------------------------------

  /** Nobody is mapped under an id between another connection's compare and delete for it. */
  ghost predicate Undisturbed(s: State, step: Step) {
    step.Initialise? && Of(s, step.c).life.Created? ==>
      forall d :: Of(s, d).act.Deleting? ==> Of(s, d).uuid != Of(s, step.c).uuid
  }

  ghost predicate Atomic(s: State, steps: seq<Step>)
    decreases |steps|
  {
    steps == [] || (Undisturbed(s, steps[0]) && Atomic(Do(s, steps[0]), steps[1..]))
  }

  predicate OwnDelete(s: State, c: ConnId) {
    Of(s, c).act.Deleting? ==> Mapped(s, Of(s, c).uuid) == Some(c)
  }

  lemma OwnDeleteStep(s: State, step: Step, c: ConnId)
    requires OwnDelete(s, c) && OwnDelete(s, step.c) && ClosingOk(s, c)
    requires forall v :: MappedOk(s, v, Of(s, c).uuid)
    requires Undisturbed(s, step)
    ensures OwnDelete(Do(s, step), c)
  {
  }

  lemma {:induction false} AtomicFrom(s: State, steps: seq<Step>, u: UserId)
    requires (forall c :: NamedOk(s, c)) && (forall v, w :: MappedOk(s, v, w))
    requires (forall c :: ClosingOk(s, c)) && (forall v :: LastOk(s, v))
    requires Atomic(s, steps) && forall c :: OwnDelete(s, c)
    ensures NeverUnmaps(s, steps, u)
    decreases |steps|
  {
    if steps != [] {
      var step, r := steps[0], Do(s, steps[0]);
      assert OwnDelete(s, step.c) && LastOk(s, u) && NamedOk(s, step.c);
      forall c ensures NamedOk(r, c) && ClosingOk(r, c) && OwnDelete(r, c) {
        assert NamedOk(s, c) && ClosingOk(s, c) && OwnDelete(s, c);
        NamedStep(s, step, c);
        ClosingStep(s, step, c);
        OwnDeleteStep(s, step, c);
      }
      forall v ensures LastOk(r, v) {
        assert LastOk(s, v);
        LastStep(s, step, v);
      }
      forall v, w ensures MappedOk(r, v, w) {
        assert MappedOk(s, v, w) && MappedOk(s, w, v);
        MappedStep(s, step, v, w);
      }
      AtomicFrom(r, steps[1..], u);
    }
  }

  /** Were compare and delete one step, closing an older session would never unmap a newer one,
      in no run. */
  lemma AtomicNeverUnmaps(steps: seq<Step>, u: UserId)
    requires Atomic(Init(), steps)
    ensures NeverUnmaps(Init(), steps, u)
  {
    AtomicFrom(Init(), steps, u);
  }

  /** As they are not, in any state: a session that is mapped while an older one of the same
      user is between its compare and its delete gets unmapped by that delete. */
  lemma OlderUnmapsNewer(s: State, older: ConnId, newer: ConnId)
    requires Of(s, older).act.Deleting? && older != newer
    requires Of(s, newer).life.Created? && Of(s, newer).inits > 0 && Of(s, newer).act.Free?
    requires Of(s, newer).uuid == Of(s, older).uuid
    ensures var u, r := Of(s, newer).uuid, Do(Do(s, Initialise(newer)), Delete(older));
            Latest(r, u) == Some(newer) && Of(r, newer).life.Ready? && u !in r.table
  {
  }

  /** In any state: a mapped client that sets another id and closes leaves the first one mapped
      to a dead session. */
  lemma SecondIdLeavesGhost(s: State, c: ConnId, u: UserId, v: UserId)
    requires Mapped(s, u) == Some(c) && Of(s, c).life.Ready? && Of(s, c).act.Free?
    requires v != u && v != ""
    ensures var r := Do(Do(Do(Do(s, SetUuid(c, v)), Close(c)), Compare(c)), Delete(c));
            Mapped(r, u) == Some(c) && Of(r, c).life.Dead? && Of(r, c).act.Free?
  {
  }

  // ---- One close, one initialisation ----------------------------------------------------

  /** A whole close, uninterrupted, frees exactly the entry under the connection's current id,
      if it is its own and the connection still is a client. Every other entry stays. */
  lemma CloseExactly(s: State, c: ConnId, u: UserId)
    requires !Of(s, c).life.Dead? && Of(s, c).act.Free?
    ensures var r := Do(Do(Do(s, Close(c)), Compare(c)), Delete(c));
            Mapped(r, u) ==
              if Of(s, c).isClient && u == Of(s, c).uuid && Mapped(s, u) == Some(c) then None else Mapped(s, u)
  {
  }

  /** An initialisation that runs after the close maps nothing. */
  lemma LateInitialise(s: State, c: ConnId)
    requires Of(s, c).life.Dead?
    ensures Do(s, Initialise(c)).table == s.table && Of(Do(s, Initialise(c)), c).life.Dead?
  {
  }

  /** A new connection that sets an id, authenticates and is initialised is mapped under that id,
      in place of whoever was; nobody else's entry changes. */
  lemma StartExactly(s: State, c: ConnId, u: UserId, v: UserId)
    requires Of(s, c) == Conn("", Created, false, 0, Free) && u != ""
    ensures var r := Do(Do(Do(s, SetUuid(c, u)), Authenticate(c)), Initialise(c));
            && Of(r, c) == Conn(u, Ready, true, 0, Free) && Mapped(r, u) == Latest(r, u) == Some(c)
            && (v != u ==> Mapped(r, v) == Mapped(s, v) && Latest(r, v) == Latest(s, v))
  {
  }

  /** A connection takes the id it is given, and only the first initialisation maps it. */
  lemma SetAgain(s: State, c: ConnId, u: UserId)
    requires Of(s, c).life.Ready? && Of(s, c).act.Free? && u != ""
    ensures var r := Do(Do(s, SetUuid(c, u)), Initialise(c));
            Of(r, c).uuid == u && Of(r, c).life.Ready? && Of(r, c).isClient == Of(s, c).isClient && r.table == s.table
    ensures var r := Do(s, ClearIdentity(c));
            !Of(r, c).isClient && Of(r, c).uuid == Of(s, c).uuid && r.table == s.table
  {
  }

  // ---- The objects ----------------------------------------------------------------------

  class UuidClientMap {
    var entries: map<UserId, Client>

    constructor ()
      ensures entries == map[]
    {
      entries := map[];
    }

    method AddClient(uuid: UserId, client: Client)
      modifies this
      ensures entries == old(entries)[uuid := client]
    {
      entries := entries[uuid := client];
    }

    method GetClient(uuid: UserId) returns (client: Client?, found: bool)
      ensures found <==> uuid in entries
      ensures found ==> client == entries[uuid]
    {
      if uuid in entries {
        return entries[uuid], true;
      }
      return null, false;
    }

    /** Removes the entry only if it is this client's. */
    method Remove(uuid: UserId, client: Client)
      modifies this
      ensures entries == if uuid in old(entries) && old(entries)[uuid] == client then old(entries) - {uuid}
                         else old(entries)
    {
      var cli, found := GetClient(uuid);
      if !found {
        return;
      }
      cli, found := GetClient(uuid);
      if cli != client {
        return;
      }
      entries := entries - {uuid};
    }
  }

  class Client {
    var uuid: UserId
    var life: Life
    var kind: bv8

    constructor ()
      ensures uuid == "" && life == Created && !IsClient()
    {
      uuid, life, kind := "", Created, 0;
    }

    predicate IsClient()
      reads this
    {
      kind & 1 != 0
    }

    predicate IsServer()
      reads this
    {
      kind & 2 != 0
    }

    method SetClient()
      modifies this`kind
      ensures IsClient() && IsServer() == old(IsServer())
    {
      kind := kind | 1;
    }

    method SetServer()
      modifies this`kind
      ensures IsServer() && IsClient() == old(IsClient())
    {
      kind := kind | 2;
    }

    method ClearTheIdentity()
      modifies this`kind
      ensures !IsClient() && !IsServer()
    {
      kind := kind & 0;
    }

    /** The setuuid command; the initialisation it starts runs later. The id it takes is one
        piece of the line, so it holds no space. */
    method SetTheUuid(line: string) returns (ok: bool)
      modifies this`uuid
      ensures ok <==> Text.AcceptedId(line).Some?
      ensures uuid == if ok then Text.AcceptedId(line).value else old(uuid)
      ensures ok ==> uuid != "" && Text.NoSpace(uuid)
    {
      var params := Text.SplitAll(line);
      if |params| < 2 || params[1] == "" {
        return false;
      }
      Text.AcceptedPlain(line);
      uuid := params[1];
      return true;
    }

    method InitChatEnv(users: UuidClientMap)
      modifies this`life, users
      ensures old(life) == Created ==> users.entries == old(users.entries)[uuid := this] && life == Ready
      ensures old(life) != Created ==> users.entries == old(users.entries) && life == old(life)
    {
      if life != Created {
        return;
      }
      users.Remove(uuid, this);
      users.AddClient(uuid, this);
      life := Ready;
    }

    method CloseClient(users: UuidClientMap)
      modifies this`life, users
      ensures life == Dead
      ensures forall u :: u in users.entries <==>
                u in old(users.entries) && !(IsClient() && u == uuid && old(users.entries)[u] == this)
      ensures forall u :: u in users.entries ==> users.entries[u] == old(users.entries)[u]
    {
      life := Dead;
      if IsClient() {
        users.Remove(uuid, this);
      }
    }
  }
}
