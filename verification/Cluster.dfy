/** Publishing across the cluster: a text message is pushed on its origin node, queued for
    the other nodes, fanned out to them by one goroutine a peer, and pushed there. Each node
    pushes from its own member cache, which loads and evictions change; members and sessions
    are fixed; connections between nodes may fail for good. */
module Cluster {
  import opened Mongo
  import opened Push
  import MemberCache

  type NodeId = nat
  type ChannelId = string
  type UserId = string
  type PubId = nat
  type Cache = map<ChannelId, set<UserId>>

  const QUEUE_CAP := 100

  /** Which users each channel has, which sessions each node has, and each node's peers. */
  datatype Config = Config(
    members: map<ChannelId, seq<UserId>>,
    tables: map<NodeId, map<UserId, Session>>,
    peers: map<NodeId, set<NodeId>>)

  datatype Pub = Pub(origin: NodeId, channel: ChannelId, owner: UserId)

  datatype Tuple = Tuple(id: PubId, peers: set<NodeId>)

  /** `waiting`: publishers that have pushed locally and not got their tuple into the queue;
      `flights`: writes to a peer in progress; `links`: written, not yet received; `lost`:
      given up. `got` is history. `delivered` lists the writes to sessions, node by node. */
  datatype State = State(
    published: map<PubId, Pub>,
    waiting: multiset<PubId>,
    queues: map<NodeId, seq<Tuple>>,
    flights: multiset<(PubId, NodeId)>,
    links: multiset<(PubId, NodeId)>,
    lost: multiset<(PubId, NodeId)>,
    got: multiset<(PubId, NodeId)>,
    delivered: map<(NodeId, PubId), seq<Session>>,
    caches: map<NodeId, Cache>)

  /** `list` is what the node's load of the member list returned; see `Loads`. */
  datatype Step =
    | Publish(id: PubId, node: NodeId, channel: ChannelId, owner: UserId, list: seq<UserId>)
    | Enqueue(id: PubId)
    | Fan(node: NodeId)
    | WriteOk(id: PubId, peer: NodeId)
    | WriteFail(id: PubId, peer: NodeId)
    | Receive(id: PubId, peer: NodeId, list: seq<UserId>)
    | Evict(node: NodeId, channel: ChannelId)

  function Members(cfg: Config, c: ChannelId): seq<UserId> {
    if c in cfg.members then cfg.members[c] else []
  }

  function Table(cfg: Config, n: NodeId): map<UserId, Session> {
    if n in cfg.tables then cfg.tables[n] else map[]
  }

  function Peers(cfg: Config, n: NodeId): set<NodeId> {
    if n in cfg.peers then cfg.peers[n] else {}
  }

  function Queue(s: State, n: NodeId): seq<Tuple> {
    if n in s.queues then s.queues[n] else []
  }

  function Delivered(s: State, n: NodeId, id: PubId): seq<Session> {
    if (n, id) in s.delivered then s.delivered[(n, id)] else []
  }

  function CacheAt(s: State, n: NodeId): Cache {
    if n in s.caches then s.caches[n] else map[]
  }

  /** What a load may return: from a cache entry its members in any order, behind as many empty
      strings; without an entry the stored list. */
  predicate Loads(cfg: Config, cache: Cache, c: ChannelId, list: seq<UserId>) {
    if c !in cache then list == Members(cfg, c)
    else
      var n := |cache[c]|;
      |list| == 2 * n && list[..n] == MemberCache.Padding(n) && multiset(list[n..]) == multiset(cache[c])
  }

  function Users(us: seq<UserId>): set<UserId> { set u | u in us }

  function Loaded(cfg: Config, cache: Cache, c: ChannelId): Cache {
    if c in cache || c !in cfg.members then cache else cache[c := Users(cfg.members[c])]
  }

  /** A push on node `n`: load the list, write to its sessions. */
  function PushAt(cfg: Config, s: State, n: NodeId, id: PubId, c: ChannelId, owner: UserId, list: seq<UserId>): State {
    s.(caches := s.caches[n := Loaded(cfg, CacheAt(s, n), c)],
       delivered := s.delivered[(n, id) := Delivered(s, n, id) + Targets(list, Table(cfg, n), owner)])
  }

  function DoPublish(
    cfg: Config, s: State, id: PubId, n: NodeId, c: ChannelId, owner: UserId, list: seq<UserId>): State
  {
    if id in s.published || !Loads(cfg, CacheAt(s, n), c, list) then s
    else PushAt(cfg, s, n, id, c, owner, list).(
           published := s.published[id := Pub(n, c, owner)], waiting := s.waiting + multiset{id})
  }

  function DoEnqueue(cfg: Config, s: State, id: PubId): State {
    if id !in s.published || s.waiting[id] == 0 || |Queue(s, s.published[id].origin)| >= QUEUE_CAP then s
    else
      var n := s.published[id].origin;
      s.(waiting := s.waiting - multiset{id},
         queues := s.queues[n := Queue(s, n) + [Tuple(id, Peers(cfg, n))]])
  }

  /** One copy of the message for each peer. */
  function Copies(id: PubId, ps: set<NodeId>): set<(PubId, NodeId)> {
    set p | p in ps :: (id, p)
  }

  function DoFan(s: State, n: NodeId): State {
    if Queue(s, n) == [] then s
    else
      var t := Queue(s, n)[0];
      s.(queues := s.queues[n := Queue(s, n)[1..]],
         flights := s.flights + multiset(Copies(t.id, t.peers)))
  }

  function DoReceive(cfg: Config, s: State, id: PubId, p: NodeId, list: seq<UserId>): State {
    if s.links[(id, p)] == 0 || id !in s.published then s
    else if !Loads(cfg, CacheAt(s, p), s.published[id].channel, list) then s
    else PushAt(cfg, s, p, id, s.published[id].channel, "", list).(
           links := s.links - multiset{(id, p)}, got := s.got + multiset{(id, p)})
  }

  function Do(cfg: Config, s: State, step: Step): State {
    match step
    case Publish(id, n, c, owner, list) => DoPublish(cfg, s, id, n, c, owner, list)
    case Enqueue(id) => DoEnqueue(cfg, s, id)
    case Fan(n) => DoFan(s, n)
    case WriteOk(id, p) =>
      if s.flights[(id, p)] == 0 then s
      else s.(flights := s.flights - multiset{(id, p)}, links := s.links + multiset{(id, p)})
    case WriteFail(id, p) =>
      if s.flights[(id, p)] == 0 then s
      else s.(flights := s.flights - multiset{(id, p)}, lost := s.lost + multiset{(id, p)})
    case Receive(id, p, list) => DoReceive(cfg, s, id, p, list)
    case Evict(n, c) => s.(caches := s.caches[n := CacheAt(s, n) - {c}])
  }

  function Run(cfg: Config, s: State, steps: seq<Step>): State
    decreases |steps|
  {
    if steps == [] then s else Run(cfg, Do(cfg, s, steps[0]), steps[1..])
  }

  function Init(caches: map<NodeId, Cache>): State {
    State(map[], multiset{}, map[], multiset{}, multiset{}, multiset{}, multiset{}, map[], caches)
  }

  /** No node is its own peer, lists name nobody twice, no connection is mapped twice and none
      under the empty id. */
  ghost predicate Sane(cfg: Config) {
    && (forall n :: n !in Peers(cfg, n))
    && (forall c :: NoDup(Members(cfg, c)))
    && (forall n :: MappedOnce(Table(cfg, n)) && "" !in Table(cfg, n))
  }

  /** Every node knows every other one. */
  predicate FullMesh(cfg: Config) {
    forall n :: n in cfg.tables ==> Peers(cfg, n) == cfg.tables.Keys - {n}
  }

  // ---- Each message has one token for each peer -----------------------------------------

  function Queued(q: seq<Tuple>, id: PubId, p: NodeId): nat {
    if q == [] then 0
    else Queued(q[..|q| - 1], id, p) + if q[|q| - 1].id == id && p in q[|q| - 1].peers then 1 else 0
  }

  lemma {:induction false} QueuedHead(q: seq<Tuple>, id: PubId, p: NodeId)
    requires q != []
    ensures Queued(q, id, p) == Queued(q[1..], id, p) + if q[0].id == id && p in q[0].peers then 1 else 0
    decreases |q|
  {
    if |q| > 1 {
      var rest := q[..|q| - 1];
      QueuedHead(rest, id, p);
      assert q[1..][..|q[1..]| - 1] == rest[1..];
    } else {
      assert q[1..] == [];
    }
  }

  /** The copies that have left the queue. */
  function Sent(s: State, id: PubId, p: NodeId): nat {
    s.flights[(id, p)] + s.links[(id, p)] + s.lost[(id, p)] + s.got[(id, p)]
  }

  /** Where the copy of message `id` for peer `p` is, summed over all places. */
  function Tokens(cfg: Config, s: State, n: NodeId, id: PubId, p: NodeId): nat {
    (if p in Peers(cfg, n) then s.waiting[id] else 0) + Queued(Queue(s, n), id, p) + Sent(s, id, p)
  }

  predicate TokenOk(cfg: Config, s: State, id: PubId, p: NodeId) {
    if id in s.published then
      var n := s.published[id].origin;
      Tokens(cfg, s, n, id, p) == if p in Peers(cfg, n) then 1 else 0
    else
      s.waiting[id] == 0 && Sent(s, id, p) == 0
  }

  /** A message is only in its origin's queue. */
  predicate QueueOk(s: State, n: NodeId, id: PubId, p: NodeId) {
    id !in s.published || s.published[id].origin != n ==> Queued(Queue(s, n), id, p) == 0
  }

  /** What a push should write to: no session twice and, from an exact cache, those of the
      stored members. */
  ghost predicate Reached(cfg: Config, n: NodeId, c: ChannelId, owner: UserId, sent: seq<Session>, exact: bool) {
    && NoDup(sent)
    && (exact ==> multiset(sent) == multiset(Targets(Members(cfg, c), Table(cfg, n), owner)))
  }

  /** A cached entry holds the stored members. */
  ghost predicate CacheOk(cfg: Config, cache: Cache, c: ChannelId) {
    c in cache ==> cache[c] == Users(Members(cfg, c))
  }

  /** What has been written to sessions: at the origin the local push, elsewhere one push for
      each time the message arrived. */
  ghost predicate DeliveredOk(cfg: Config, s: State, p: NodeId, id: PubId, exact: bool) {
    if id !in s.published then Delivered(s, p, id) == []
    else
      var m := s.published[id];
      if p == m.origin then s.got[(id, p)] == 0 && Reached(cfg, p, m.channel, m.owner, Delivered(s, p, id), exact)
      else if s.got[(id, p)] == 0 then Delivered(s, p, id) == []
      else s.got[(id, p)] == 1 ==> Reached(cfg, p, m.channel, "", Delivered(s, p, id), exact)
  }

  /** `exact` tells whether all caches are to hold the stored members. */
  ghost predicate Inv(cfg: Config, s: State, exact: bool) {
    && (forall id, p :: TokenOk(cfg, s, id, p))
    && (forall n, id, p :: QueueOk(s, n, id, p))
    && (forall p, id :: DeliveredOk(cfg, s, p, id, exact))
    && (exact ==> forall n, c :: CacheOk(cfg, CacheAt(s, n), c))
  }

  lemma QueueStep(cfg: Config, s: State, step: Step, n: NodeId, id: PubId, p: NodeId)
    requires QueueOk(s, n, id, p)
    ensures QueueOk(Do(cfg, s, step), n, id, p)
  {
    QueueChange(cfg, s, step, n, id, p);
    if Queue(s, n) != [] { QueuedHead(Queue(s, n), id, p); }
  }

  /** Only enqueue and fan-out change a queue. */
  lemma QueueChange(cfg: Config, s: State, step: Step, n: NodeId, id: PubId, p: NodeId)
    ensures var r, before := Do(cfg, s, step), Queued(Queue(s, n), id, p);
            Queued(Queue(r, n), id, p) ==
              if r == s then before
              else if step.Enqueue? && s.published[step.id].origin == n && step.id == id && p in Peers(cfg, n)
              then before + 1
              else if step.Fan? && step.node == n then Queued(Queue(s, n)[1..], id, p)
              else before
  {
    match step
    case Enqueue(e) => QueueGrows(cfg, s, e, n, id, p);
    case Fan(m) =>
    case _ => assert Queue(Do(cfg, s, step), n) == Queue(s, n);
  }

  lemma QueueGrows(cfg: Config, s: State, e: PubId, n: NodeId, id: PubId, p: NodeId)
    ensures var r := DoEnqueue(cfg, s, e);
            Queued(Queue(r, n), id, p) == Queued(Queue(s, n), id, p)
              + if r != s && s.published[e].origin == n && e == id && p in Peers(cfg, n) then 1 else 0
  {
  }

  /** Publishing gives a fresh message its token in `waiting`; no other place has one. */
  lemma TokenPublish(cfg: Config, s: State, step: Step, id: PubId, p: NodeId)
    requires step.Publish? && TokenOk(cfg, s, id, p) && QueueOk(s, step.node, id, p)
    ensures TokenOk(cfg, Do(cfg, s, step), id, p)
  {
  }

  lemma TokenFan(cfg: Config, s: State, step: Step, id: PubId, p: NodeId)
    requires step.Fan? && TokenOk(cfg, s, id, p) && QueueOk(s, step.node, id, p)
    ensures TokenOk(cfg, Do(cfg, s, step), id, p)
  {
    var q := Queue(s, step.node);
    if q != [] {
      QueuedHead(q, id, p);
      var out := multiset(Copies(q[0].id, q[0].peers));
      assert out[(id, p)] == if q[0].id == id && p in q[0].peers then 1 else 0;
      if id in s.published { QueueChange(cfg, s, step, s.published[id].origin, id, p); }
    }
  }

  lemma TokenEnqueue(cfg: Config, s: State, e: PubId, id: PubId, p: NodeId)
    requires TokenOk(cfg, s, id, p)
    ensures TokenOk(cfg, DoEnqueue(cfg, s, e), id, p)
  {
    var r := DoEnqueue(cfg, s, e);
    if r != s {
      assert r.waiting[id] == s.waiting[id] - if e == id then 1 else 0;
      assert r.published == s.published && Sent(r, id, p) == Sent(s, id, p);
      if id in s.published { QueueGrows(cfg, s, e, s.published[id].origin, id, p); }
    }
  }

  lemma WriteMoves(cfg: Config, s: State, step: Step, id: PubId, p: NodeId)
    requires step.WriteOk? || step.WriteFail?
    ensures Sent(Do(cfg, s, step), id, p) == Sent(s, id, p)
  {
  }

  lemma ReceiveMoves(cfg: Config, s: State, step: Step, id: PubId, p: NodeId)
    requires step.Receive?
    ensures Sent(Do(cfg, s, step), id, p) == Sent(s, id, p)
  {
  }

  lemma TokenEvict(cfg: Config, s: State, step: Step, id: PubId, p: NodeId)
    requires step.Evict? && TokenOk(cfg, s, id, p)
    ensures TokenOk(cfg, Do(cfg, s, step), id, p)
  {
  }

  /** The other steps move a token from one place to the next. */
  lemma TokenMoves(cfg: Config, s: State, step: Step, id: PubId, p: NodeId)
    requires step.WriteOk? || step.WriteFail? || step.Receive?
    requires TokenOk(cfg, s, id, p)
    ensures TokenOk(cfg, Do(cfg, s, step), id, p)
  {
    if step.Receive? { ReceiveMoves(cfg, s, step, id, p); } else { WriteMoves(cfg, s, step, id, p); }
    OnlySent(cfg, s, step);
    TokenSame(cfg, s, Do(cfg, s, step), id, p);
  }

  lemma OnlySent(cfg: Config, s: State, step: Step)
    requires step.WriteOk? || step.WriteFail? || step.Receive?
    ensures var r := Do(cfg, s, step); r.published == s.published && r.waiting == s.waiting && r.queues == s.queues
  {
    match step
    case WriteOk(e, o) => assert Do(cfg, s, step) == s || s.flights[(e, o)] > 0;
    case WriteFail(e, o) => assert Do(cfg, s, step) == s || s.flights[(e, o)] > 0;
    case Receive(e, o, _) => assert Do(cfg, s, step) == s || s.links[(e, o)] > 0;
  }

  lemma TokenSame(cfg: Config, s: State, r: State, id: PubId, p: NodeId)
    requires r.published == s.published && r.waiting == s.waiting && r.queues == s.queues
    requires TokenOk(cfg, s, id, p) && Sent(r, id, p) == Sent(s, id, p)
    ensures TokenOk(cfg, r, id, p)
  {}

  lemma TokenStep(cfg: Config, s: State, step: Step, id: PubId, p: NodeId)
    requires TokenOk(cfg, s, id, p)
    requires forall n :: QueueOk(s, n, id, p)
    ensures TokenOk(cfg, Do(cfg, s, step), id, p)
  {
    match step
    case Publish(_, n, _, _, _) => assert QueueOk(s, n, id, p); TokenPublish(cfg, s, step, id, p);
    case Fan(n) => assert QueueOk(s, n, id, p); TokenFan(cfg, s, step, id, p);
    case Enqueue(e) => TokenEnqueue(cfg, s, e, id, p);
    case Evict(_, _) => TokenEvict(cfg, s, step, id, p);
    case _ => TokenMoves(cfg, s, step, id, p);
  }

  /** A list without repetitions, behind any number of empty strings, reaches nobody twice. */
  lemma PushOnce(n: nat, ids: seq<UserId>, table: map<UserId, Session>, owner: UserId)
    requires MappedOnce(table) && "" !in table && NoDup(ids)
    ensures NoDup(Targets(MemberCache.Padding(n) + ids, table, owner))
  {
    TargetsConcat(MemberCache.Padding(n), ids, table, owner);
    PaddingTargets(n, table, owner);
    OneCopyEach(ids, table, owner);
  }

  lemma {:induction false} NoDupOfSet(ids: seq<UserId>, us: set<UserId>)
    requires multiset(ids) == multiset(us)
    ensures NoDup(ids)
    decreases |ids|
  {
    if ids != [] {
      var front, last := ids[..|ids| - 1], ids[|ids| - 1];
      assert ids == front + [last];
      assert last in multiset(ids);
      assert multiset(front) == multiset(us) - multiset{last};
      assert forall x :: multiset(us - {last})[x] == multiset(us)[x] - if x == last then 1 else 0;
      NoDupOfSet(front, us - {last});
      forall i | 0 <= i < |front| ensures front[i] != last {
        assert front[i] in multiset(front);
      }
    }
  }

  /** Whatever list a load returned, padded or not, the push writes to no session twice, and
      from an exact cache to the stored members'. */
  lemma PushReaches(
    cfg: Config, n: NodeId, cache: Cache, c: ChannelId, list: seq<UserId>, owner: UserId, exact: bool)
    requires Sane(cfg) && (exact ==> CacheOk(cfg, cache, c)) && Loads(cfg, cache, c, list)
    ensures Reached(cfg, n, c, owner, Targets(list, Table(cfg, n), owner), exact)
  {
    if c in cache {
      var k := |cache[c]|;
      assert list == MemberCache.Padding(k) + list[k..];
      NoDupOfSet(list[k..], cache[c]);
      PushOnce(k, list[k..], Table(cfg, n), owner);
      if exact {
        SetOfList(Members(cfg, c));
        PaddedPush(Members(cfg, c), list[k..], k, Table(cfg, n), owner);
      }
    } else {
      OneCopyEach(list, Table(cfg, n), owner);
    }
  }

  lemma DeliveredStep(cfg: Config, s: State, step: Step, p: NodeId, id: PubId, exact: bool)
    requires Sane(cfg) && DeliveredOk(cfg, s, p, id, exact) && TokenOk(cfg, s, id, p)
    requires exact ==> forall c :: CacheOk(cfg, CacheAt(s, p), c)
    ensures DeliveredOk(cfg, Do(cfg, s, step), p, id, exact)
  {
    match step
    case Publish(e, n, c, owner, list) => DeliveredPublish(cfg, s, e, n, c, owner, list, p, id, exact);
    case Receive(e, n, list) => DeliveredReceive(cfg, s, e, n, list, p, id, exact);
    case _ => DeliveredOther(cfg, s, step, p, id, exact);
  }

  lemma DeliveredPublish(
    cfg: Config, s: State, e: PubId, n: NodeId, c: ChannelId, owner: UserId, list: seq<UserId>,
    p: NodeId, id: PubId, exact: bool)
    requires Sane(cfg) && DeliveredOk(cfg, s, p, id, exact) && TokenOk(cfg, s, id, p)
    requires exact ==> CacheOk(cfg, CacheAt(s, p), c)
    ensures DeliveredOk(cfg, DoPublish(cfg, s, e, n, c, owner, list), p, id, exact)
  {
    if e == id && n == p {
      PublishedHere(cfg, s, c, owner, list, p, id, exact);
    } else {
      PublishedElsewhere(cfg, s, e, n, c, owner, list, p, id, exact);
    }
  }

  lemma PublishedHere(
    cfg: Config, s: State, c: ChannelId, owner: UserId, list: seq<UserId>, p: NodeId, id: PubId, exact: bool)
    requires Sane(cfg) && DeliveredOk(cfg, s, p, id, exact) && TokenOk(cfg, s, id, p)
    requires exact ==> CacheOk(cfg, CacheAt(s, p), c)
    ensures DeliveredOk(cfg, DoPublish(cfg, s, id, p, c, owner, list), p, id, exact)
  {
    if Loads(cfg, CacheAt(s, p), c, list) { PushReaches(cfg, p, CacheAt(s, p), c, list, owner, exact); }
  }

  lemma PublishedElsewhere(
    cfg: Config, s: State, e: PubId, n: NodeId, c: ChannelId, owner: UserId, list: seq<UserId>,
    p: NodeId, id: PubId, exact: bool)
    requires (e, n) != (id, p) && DeliveredOk(cfg, s, p, id, exact) && TokenOk(cfg, s, id, p)
    ensures DeliveredOk(cfg, DoPublish(cfg, s, e, n, c, owner, list), p, id, exact)
  {
    var r := DoPublish(cfg, s, e, n, c, owner, list);
    assert r.got == s.got && Delivered(r, p, id) == Delivered(s, p, id);
  }

  lemma DeliveredReceive(
    cfg: Config, s: State, e: PubId, n: NodeId, list: seq<UserId>, p: NodeId, id: PubId, exact: bool)
    requires Sane(cfg) && DeliveredOk(cfg, s, p, id, exact) && TokenOk(cfg, s, id, p)
    requires exact ==> forall c :: CacheOk(cfg, CacheAt(s, p), c)
    ensures DeliveredOk(cfg, DoReceive(cfg, s, e, n, list), p, id, exact)
  {
    if e == id && n == p {
      ReceivedHere(cfg, s, list, p, id, exact);
    } else {
      ReceivedElsewhere(cfg, s, e, n, list, p, id, exact);
    }
  }

  lemma ReceivedHere(cfg: Config, s: State, list: seq<UserId>, p: NodeId, id: PubId, exact: bool)
    requires Sane(cfg) && DeliveredOk(cfg, s, p, id, exact) && TokenOk(cfg, s, id, p)
    requires exact ==> forall c :: CacheOk(cfg, CacheAt(s, p), c)
    ensures DeliveredOk(cfg, DoReceive(cfg, s, id, p, list), p, id, exact)
  {
    if id in s.published {
      assert s.published[id].origin !in Peers(cfg, s.published[id].origin);
      var c := s.published[id].channel;
      if Loads(cfg, CacheAt(s, p), c, list) { PushReaches(cfg, p, CacheAt(s, p), c, list, "", exact); }
    }
  }

  lemma ReceivedElsewhere(
    cfg: Config, s: State, e: PubId, n: NodeId, list: seq<UserId>, p: NodeId, id: PubId, exact: bool)
    requires (e, n) != (id, p) && DeliveredOk(cfg, s, p, id, exact)
    ensures DeliveredOk(cfg, DoReceive(cfg, s, e, n, list), p, id, exact)
  {
    var r := DoReceive(cfg, s, e, n, list);
    assert r.got[(id, p)] == s.got[(id, p)] && Delivered(r, p, id) == Delivered(s, p, id);
  }

  lemma DeliveredOther(cfg: Config, s: State, step: Step, p: NodeId, id: PubId, exact: bool)
    requires !step.Publish? && !step.Receive? && DeliveredOk(cfg, s, p, id, exact)
    ensures DeliveredOk(cfg, Do(cfg, s, step), p, id, exact)
  {
    NothingDelivered(cfg, s, step);
    DeliveredSame(cfg, s, Do(cfg, s, step), p, id, exact);
  }

  lemma NothingDelivered(cfg: Config, s: State, step: Step)
    requires !step.Publish? && !step.Receive?
    ensures var r := Do(cfg, s, step);
            r.published == s.published && r.delivered == s.delivered && r.got == s.got
  {
    match step
    case Enqueue(e) => assert DoEnqueue(cfg, s, e) == s || s.waiting[e] > 0;
    case Fan(n) => assert DoFan(s, n) == s || Queue(s, n) != [];
    case WriteOk(e, o) => assert Do(cfg, s, step) == s || s.flights[(e, o)] > 0;
    case WriteFail(e, o) => assert Do(cfg, s, step) == s || s.flights[(e, o)] > 0;
    case Evict(n, c) =>
  }

  lemma DeliveredSame(cfg: Config, s: State, r: State, p: NodeId, id: PubId, exact: bool)
    requires r.published == s.published && r.delivered == s.delivered && r.got == s.got
    requires DeliveredOk(cfg, s, p, id, exact)
    ensures DeliveredOk(cfg, r, p, id, exact)
  {
  }

  lemma CacheStep(cfg: Config, s: State, step: Step, n: NodeId, c: ChannelId)
    requires CacheOk(cfg, CacheAt(s, n), c)
    ensures CacheOk(cfg, CacheAt(Do(cfg, s, step), n), c)
  {
    match step
    case Publish(id, m, d, owner, list) =>
      CachePushed(cfg, s, m, id, d, owner, list, n, c);
    case Receive(id, m, list) =>
      if id in s.published {
        var d := s.published[id].channel;
        CachePushed(cfg, s, m, id, d, "", list, n, c);
      }
    case _ =>
  }

  lemma CachePushed(
    cfg: Config, s: State, m: NodeId, id: PubId, d: ChannelId, owner: UserId, list: seq<UserId>, n: NodeId, c: ChannelId)
    requires CacheOk(cfg, CacheAt(s, n), c)
    ensures CacheOk(cfg, CacheAt(PushAt(cfg, s, m, id, d, owner, list), n), c)
  {
  }

  // ---- Whole runs -----------------------------------------------------------------------

  /** The caches a run may start with: any that hold the stored members. */
  ghost predicate ExactCaches(cfg: Config, caches: map<NodeId, Cache>) {
    forall n, c :: n in caches ==> CacheOk(cfg, caches[n], c)
  }

  lemma InvInit(cfg: Config, caches: map<NodeId, Cache>, exact: bool)
    requires exact ==> ExactCaches(cfg, caches)
    ensures Inv(cfg, Init(caches), exact)
  {}

  lemma InvStep(cfg: Config, s: State, step: Step, exact: bool)
    requires Sane(cfg) && Inv(cfg, s, exact)
    ensures Inv(cfg, Do(cfg, s, step), exact)
  {
    var r := Do(cfg, s, step);
    forall id, p ensures TokenOk(cfg, r, id, p) {
      TokenStep(cfg, s, step, id, p);
    }
    forall n, id, p ensures QueueOk(r, n, id, p) {
      QueueStep(cfg, s, step, n, id, p);
    }
    forall p, id ensures DeliveredOk(cfg, r, p, id, exact) {
      DeliveredStep(cfg, s, step, p, id, exact);
    }
    forall n, c ensures exact ==> CacheOk(cfg, CacheAt(r, n), c) {
      if exact { CacheStep(cfg, s, step, n, c); }
    }
  }

  /** In every run each message has, for each peer of its origin, exactly one copy, and what
      sessions were sent is what the arrived copies call for. */
  lemma {:induction false} InvRun(cfg: Config, s: State, steps: seq<Step>, exact: bool)
    requires Sane(cfg) && Inv(cfg, s, exact)
    ensures Inv(cfg, Run(cfg, s, steps), exact)
    decreases |steps|
  {
    if steps != [] {
      InvStep(cfg, s, steps[0], exact);
      InvRun(cfg, Do(cfg, s, steps[0]), steps[1..], exact);
    }
  }

  /** The sessions that should get message `id` on node `p`: those of the channel's members,
      on the origin node without the publisher's own. */
  ghost predicate Wanted(cfg: Config, m: Pub, p: NodeId, x: Session) {
    && x.uuid != (if p == m.origin then m.owner else "")
    && exists u :: u in Members(cfg, m.channel) && u in Table(cfg, p) && Table(cfg, p)[u] == x
  }

  lemma PushCounts(cfg: Config, c: ChannelId, p: NodeId, owner: UserId, x: Session)
    requires Sane(cfg)
    ensures multiset(Targets(Members(cfg, c), Table(cfg, p), owner))[x] ==
            if x.uuid != owner && exists u :: u in Members(cfg, c) && u in Table(cfg, p) && Table(cfg, p)[u] == x
            then 1 else 0
  {
    assert MappedOnce(Table(cfg, p));
    TargetsAre(Members(cfg, c), Table(cfg, p), owner, x);
    OneCopyEach(Members(cfg, c), Table(cfg, p), owner);
    CountOnce(Targets(Members(cfg, c), Table(cfg, p), owner), x);
  }

  /** Who has got what, in every state of every run: a session gets the message once if it is
      wanted and the message is published there or has arrived there, and otherwise never. */
  lemma CopiesExactly(cfg: Config, caches: map<NodeId, Cache>, steps: seq<Step>, p: NodeId, id: PubId, x: Session)
    requires Sane(cfg) && ExactCaches(cfg, caches)
    ensures var s := Run(cfg, Init(caches), steps);
            multiset(Delivered(s, p, id))[x] ==
              if id in s.published && (p == s.published[id].origin || (id, p) in s.got)
                 && Wanted(cfg, s.published[id], p, x)
              then 1 else 0
  {
    InvInit(cfg, caches, true);
    InvRun(cfg, Init(caches), steps, true);
    var s := Run(cfg, Init(caches), steps);
    assert TokenOk(cfg, s, id, p) && DeliveredOk(cfg, s, p, id, true);
    if id in s.published {
      var m := s.published[id];
      PushCounts(cfg, m.channel, p, if p == m.origin then m.owner else "", x);
    }
  }

  /** Nobody ever gets two copies, whatever order messages, peers and failures come in, and
      whatever the nodes have cached. */
  lemma AtMostOnce(cfg: Config, caches: map<NodeId, Cache>, steps: seq<Step>, p: NodeId, id: PubId, x: Session)
    requires Sane(cfg)
    ensures multiset(Delivered(Run(cfg, Init(caches), steps), p, id))[x] <= 1
  {
    InvInit(cfg, caches, false);
    InvRun(cfg, Init(caches), steps, false);
    var s := Run(cfg, Init(caches), steps);
    assert TokenOk(cfg, s, id, p) && DeliveredOk(cfg, s, p, id, false);
    CountOnce(Delivered(s, p, id), x);
  }

  /** Nothing of message `id` is on its way to node `p` any more. */
  predicate Drained(s: State, id: PubId, p: NodeId) {
    && s.waiting[id] == s.flights[(id, p)] == s.links[(id, p)] == 0
    && (id in s.published ==> Queued(Queue(s, s.published[id].origin), id, p) == 0)
  }

  /** "The cluster will serve as one server": with every node knowing every other, once queues
      and links drain a node's members' sessions have the message, each exactly once, exactly
      if it was published there or the write to that node did not fail. */
  lemma ExactlyOnce(cfg: Config, caches: map<NodeId, Cache>, steps: seq<Step>, p: NodeId, id: PubId, x: Session)
    requires Sane(cfg) && ExactCaches(cfg, caches) && FullMesh(cfg) && p in cfg.tables
    requires var s := Run(cfg, Init(caches), steps);
             id in s.published && s.published[id].origin in cfg.tables && Drained(s, id, p)
    ensures var s := Run(cfg, Init(caches), steps);
            multiset(Delivered(s, p, id))[x] ==
              if Wanted(cfg, s.published[id], p, x) && (id, p) !in s.lost then 1 else 0
  {
    CopiesExactly(cfg, caches, steps, p, id, x);
    InvInit(cfg, caches, true);
    InvRun(cfg, Init(caches), steps, true);
    var s := Run(cfg, Init(caches), steps);
    assert TokenOk(cfg, s, id, p);
    var n := s.published[id].origin;
    assert Peers(cfg, n) == cfg.tables.Keys - {n};
    assert p in Peers(cfg, n) <==> p != n;
  }

  /** No node sends to itself and no peer sends on what it was sent: a message only ever
      travels from its origin to the origin's peers. */
  lemma OnlyFromOrigin(cfg: Config, caches: map<NodeId, Cache>, steps: seq<Step>, p: NodeId, id: PubId)
    requires Sane(cfg)
    ensures var s := Run(cfg, Init(caches), steps);
            (id, p) in s.flights + s.links + s.lost + s.got ==>
              id in s.published && p in Peers(cfg, s.published[id].origin) && p != s.published[id].origin
    ensures var s := Run(cfg, Init(caches), steps);
            (s.flights + s.links + s.lost + s.got)[(id, p)] <= 1
  {
    InvInit(cfg, caches, false);
    InvRun(cfg, Init(caches), steps, false);
    var s := Run(cfg, Init(caches), steps);
    assert TokenOk(cfg, s, id, p);
  }

  // ---- Peers ----------------------------------------------------------------------------

  /** What happens to one reconnection: does the dial succeed, and then the write. */
  datatype Try = Try(dial: bool, write: bool)

  const RETRY_CNT := 2

  predicate Succeeds(t: Try) {
    t.dial && t.write
  }

  function DialsOk(tries: seq<Try>): nat {
    if tries == [] then 0
    else DialsOk(tries[..|tries| - 1]) + if tries[|tries| - 1].dial then 1 else 0
  }

  /** A node's connection to another node. `conn` counts the connections made; `written`
      lists the messages the other side will receive, each with the connection it went by. */
  class Peer {
    const addr: NodeId
    var conn: nat
    var written: seq<(nat, PubId)>

    constructor (addr: NodeId)
      ensures this.addr == addr && conn == 0 && written == []
    {
      this.addr := addr;
      conn, written := 0, [];
    }

    /** One write with its retries: the message goes out at most once, on the connection
        current at the first success, and nothing is tried after that. It is lost exactly when
        the first write and every retry fail. */
    method WriteFormatMsg(id: PubId, connected: bool, firstWrite: bool, tries: seq<Try>) returns (tried: nat)
      requires |tries| == RETRY_CNT
      modifies this
      ensures tried <= 2
      ensures connected && firstWrite <==> tried == 0
      ensures conn == old(conn) + DialsOk(tries[..tried])
      ensures forall k :: 0 <= k < tried - 1 ==> !Succeeds(tries[k])
      ensures tried > 0 && !Succeeds(tries[tried - 1]) ==> tried == 2
      ensures written == old(written) + if tried == 0 || Succeeds(tries[tried - 1]) then [(conn, id)] else []
    {
      tried := 0;
      if connected {
        if firstWrite {
          written := written + [(conn, id)];
          return;
        }
      }
      while tried < RETRY_CNT
        invariant tried <= RETRY_CNT
        invariant conn == old(conn) + DialsOk(tries[..tried])
        invariant forall k :: 0 <= k < tried ==> !Succeeds(tries[k])
        invariant written == old(written)
      {
        assert tries[..tried + 1][..tried] == tries[..tried];
        tried := tried + 1;
        if tries[tried - 1].dial {
          conn := conn + 1;
          if tries[tried - 1].write {
            written := written + [(conn, id)];
            return;
          }
        }
      }
    }
  }

  /** The peers a node forwards to, by address. */
  class Router {
    const self: NodeId
    var peers: map<NodeId, Peer>

    constructor (self: NodeId)
      ensures this.self == self && peers == map[] && Valid()
    {
      this.self := self;
      peers := map[];
    }

    /** Never the node itself, and each under its own address. */
    ghost predicate Valid()
      reads this
    {
      self !in peers && forall a :: a in peers ==> peers[a].addr == a
    }

    /** A known server's connection is replaced by a new one. */
    method ConnectPeer(server: NodeId)
      requires Valid()
      modifies this
      ensures Valid()
      ensures server == self ==> peers == old(peers)
      ensures server != self ==> server in peers && fresh(peers[server]) && peers == old(peers)[server := peers[server]]
    {
      if server == self {
        return;
      }
      var peer := new Peer(server);
      peers := peers[server := peer];
    }

    /** One announcement of the live servers. Nobody is ever taken out. */
    method WatchPeers(servers: seq<NodeId>)
      requires Valid()
      modifies this
      ensures Valid()
      ensures peers.Keys == old(peers.Keys) + (set n | n in servers) - {self}
      ensures forall n :: n in old(peers) && n !in servers ==> peers[n] == old(peers)[n]
    {
      for i := 0 to |servers|
        invariant Valid()
        invariant peers.Keys == old(peers.Keys) + (set n | n in servers[..i]) - {self}
        invariant forall n :: n in old(peers) && n !in servers[..i] ==> n in peers && peers[n] == old(peers)[n]
      {
        assert servers[..i + 1] == servers[..i] + [servers[i]];
        ConnectPeer(servers[i]);
      }
      assert servers[..|servers|] == servers;
    }

    /** The peers a tuple is sent to: everyone known, once each. Nothing is sent by a node that
        runs alone, and no empty command or message. */
    method ForwardSet(distributed: bool, cmd: string, message: string) returns (targets: Option<set<NodeId>>)
      requires Valid()
      ensures targets.None? <==> !distributed || cmd == "" || message == ""
      ensures targets.Some? ==> targets.value == peers.Keys && self !in targets.value
    {
      if !distributed || cmd == "" || |message| == 0 {
        return None;
      }
      var found: set<NodeId> := {};
      var rest := peers;
      while rest != map[]
        invariant Valid() && rest.Keys <= peers.Keys && found == peers.Keys - rest.Keys
        decreases rest
      {
        var v :| v in rest;
        found := found + {v};
        rest := rest - {v};
      }
      return Some(found);
    }
  }
}
