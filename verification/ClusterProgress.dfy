/** What `Cluster` leaves open: which publish a record comes from, that only failed writes lose
    copies, and that what has been published reaches every node in the end. */
module ClusterProgress {
  import opened Mongo
  import opened Push
  import opened Cluster
  import MemberCache

  // ---- What a publish is, and what fails --------------------------------------------------

  /** A publish under a new id records origin, channel and owner, pushes at the origin, and has a
      tuple to queue; nothing else records a message, and no record changes. */
  lemma PublishIs(cfg: Config, s: State, step: Step, id: PubId)
    ensures var r := Do(cfg, s, step);
            if id in s.published then id in r.published && r.published[id] == s.published[id]
            else if step.Publish? && step.id == id && Loads(cfg, CacheAt(s, step.node), step.channel, step.list) then
              && id in r.published && r.published[id] == Pub(step.node, step.channel, step.owner)
              && r.waiting[id] == s.waiting[id] + 1
              && Delivered(r, step.node, id)
                 == Delivered(s, step.node, id) + Targets(step.list, Table(cfg, step.node), step.owner)
            else id !in r.published
  {
  }

  /** A push caches the stored members of an uncached channel, and an eviction uncaches. */
  lemma PushCaches(cfg: Config, s: State, step: Step)
    ensures var r := Do(cfg, s, step);
            && (step.Publish? && r != s && step.channel in cfg.members ==>
                  step.channel in CacheAt(r, step.node)
                  && (step.channel !in CacheAt(s, step.node) ==>
                        CacheAt(r, step.node)[step.channel] == set u | u in cfg.members[step.channel]))
            && (step.Evict? ==> CacheAt(r, step.node) == CacheAt(s, step.node) - {step.channel})
  {
  }

  /** A publisher gets its tuple, for all peers of the node, behind those in the queue while there
      are fewer than a hundred, and has to wait otherwise. */
  lemma EnqueueIs(cfg: Config, s: State, id: PubId)
    requires id in s.published && s.waiting[id] > 0
    ensures var n, r := s.published[id].origin, Do(cfg, s, Enqueue(id));
            if |Queue(s, n)| < 100 then
              Queue(r, n) == Queue(s, n) + [Tuple(id, Peers(cfg, n))] && r.waiting[id] == s.waiting[id] - 1
            else r == s
  {
  }

  /** Only a failed write loses a copy. */
  lemma LostStep(cfg: Config, s: State, step: Step, id: PubId, p: NodeId)
    ensures (id, p) in Do(cfg, s, step).lost ==> (id, p) in s.lost || step == WriteFail(id, p)
  {
  }

  lemma {:induction false} LostByFailure(cfg: Config, s: State, steps: seq<Step>, id: PubId, p: NodeId)
    requires (id, p) in Run(cfg, s, steps).lost && (id, p) !in s.lost
    ensures exists i :: 0 <= i < |steps| && steps[i] == WriteFail(id, p)
    decreases |steps|
  {
    if steps != [] {
      var r := Do(cfg, s, steps[0]);
      LostStep(cfg, s, steps[0], id, p);
      if (id, p) !in r.lost {
        LostByFailure(cfg, r, steps[1..], id, p);
        var i :| 0 <= i < |steps[1..]| && steps[1..][i] == WriteFail(id, p);
        assert steps[i + 1] == WriteFail(id, p);
      } else {
        assert steps[0] == WriteFail(id, p);
      }
    }
  }

  /** If no write of the message to a node has failed, every session that is wanted there has it
      exactly once as soon as nothing of it is on its way there. */
  lemma DeliveredWithoutFailure(
    cfg: Config, caches: map<NodeId, Cache>, steps: seq<Step>, p: NodeId, id: PubId, x: Session)
    requires Sane(cfg) && ExactCaches(cfg, caches) && FullMesh(cfg) && p in cfg.tables
    requires var s := Run(cfg, Init(caches), steps);
             id in s.published && s.published[id].origin in cfg.tables && Drained(s, id, p)
    requires forall i :: 0 <= i < |steps| ==> steps[i] != WriteFail(id, p)
    ensures var s := Run(cfg, Init(caches), steps);
            multiset(Delivered(s, p, id))[x] == if Wanted(cfg, s.published[id], p, x) then 1 else 0
  {
    ExactlyOnce(cfg, caches, steps, p, id, x);
    if (id, p) in Run(cfg, Init(caches), steps).lost {
      LostByFailure(cfg, Init(caches), steps, id, p);
    }
  }

  // ---- Nothing gets stuck -----------------------------------------------------------------

  /** The steps that carry messages; the others publish and evict. */
  predicate Carries(step: Step) {
    step.Enqueue? || step.Fan? || step.WriteOk? || step.WriteFail? || step.Receive?
  }

  ghost predicate Stuck(cfg: Config, s: State) {
    forall step :: Carries(step) ==> Do(cfg, s, step) == s
  }

  lemma {:induction false} SetAsList(us: set<UserId>) returns (list: seq<UserId>)
    ensures multiset(list) == multiset(us) && |list| == |us|
    decreases |us|
  {
    if us == {} {
      list := [];
    } else {
      var u :| u in us;
      var rest := SetAsList(us - {u});
      list := rest + [u];
      assert multiset(us) == multiset(us - {u}) + multiset{u};
    }
  }

  /** A load always returns something. */
  lemma SomeList(cfg: Config, cache: Cache, c: ChannelId) returns (list: seq<UserId>)
    ensures Loads(cfg, cache, c, list)
  {
    if c in cache {
      var ids := SetAsList(cache[c]);
      list := MemberCache.Padding(|cache[c]|) + ids;
    } else {
      list := Members(cfg, c);
    }
  }

  ghost predicate Moves(cfg: Config, s: State, step: Step) {
    Carries(step) && Do(cfg, s, step) != s
  }

  lemma LinkMoves(cfg: Config, s: State, id: PubId, p: NodeId)
    requires TokenOk(cfg, s, id, p) && s.links[(id, p)] > 0
    ensures exists step :: Moves(cfg, s, step)
  {
    var list := SomeList(cfg, CacheAt(s, p), s.published[id].channel);
    assert Do(cfg, s, Receive(id, p, list)).links[(id, p)] == s.links[(id, p)] - 1;
    assert Moves(cfg, s, Receive(id, p, list));
  }

  lemma FlightMoves(cfg: Config, s: State, id: PubId, p: NodeId)
    requires s.flights[(id, p)] > 0
    ensures exists step :: Moves(cfg, s, step)
  {
    assert Do(cfg, s, WriteOk(id, p)).flights[(id, p)] == s.flights[(id, p)] - 1;
    assert Moves(cfg, s, WriteOk(id, p));
  }

  lemma QueueMoves(cfg: Config, s: State, n: NodeId)
    requires Queue(s, n) != []
    ensures exists step :: Moves(cfg, s, step)
  {
    assert Queue(Do(cfg, s, Fan(n)), n) == Queue(s, n)[1..];
    assert Moves(cfg, s, Fan(n));
  }

  lemma WaitingMoves(cfg: Config, s: State, id: PubId, p: NodeId)
    requires TokenOk(cfg, s, id, p) && s.waiting[id] > 0 && Queue(s, s.published[id].origin) == []
    ensures exists step :: Moves(cfg, s, step)
  {
    assert Do(cfg, s, Enqueue(id)).waiting[id] == s.waiting[id] - 1;
    assert Moves(cfg, s, Enqueue(id));
  }

  /** When no step can carry anything any further, nothing is on its way. */
  lemma StuckIsDrained(cfg: Config, caches: map<NodeId, Cache>, steps: seq<Step>, id: PubId, p: NodeId)
    requires Sane(cfg) && Stuck(cfg, Run(cfg, Init(caches), steps))
    ensures Drained(Run(cfg, Init(caches), steps), id, p)
  {
    var s := Run(cfg, Init(caches), steps);
    InvInit(cfg, caches, false);
    InvRun(cfg, Init(caches), steps, false);
    assert TokenOk(cfg, s, id, p);
    assert forall step :: !Moves(cfg, s, step);
    var origin := if id in s.published then s.published[id].origin else 0;
    if s.links[(id, p)] > 0 {
      LinkMoves(cfg, s, id, p);
    } else if s.flights[(id, p)] > 0 {
      FlightMoves(cfg, s, id, p);
    } else if Queue(s, origin) != [] {
      QueueMoves(cfg, s, origin);
    } else if s.waiting[id] > 0 {
      WaitingMoves(cfg, s, id, p);
    }
  }

  /** "The cluster will serve as one server": when nothing can be carried any further, every
      session that is wanted on a node has the message exactly once, and every other one never,
      unless a write of the message to that node has failed. */
  lemma EveryoneIsServed(
    cfg: Config, caches: map<NodeId, Cache>, steps: seq<Step>, p: NodeId, id: PubId, x: Session)
    requires Sane(cfg) && ExactCaches(cfg, caches) && FullMesh(cfg) && p in cfg.tables
    requires var s := Run(cfg, Init(caches), steps);
             Stuck(cfg, s) && id in s.published && s.published[id].origin in cfg.tables
    requires forall i :: 0 <= i < |steps| ==> steps[i] != WriteFail(id, p)
    ensures var s := Run(cfg, Init(caches), steps);
            multiset(Delivered(s, p, id))[x] == if Wanted(cfg, s.published[id], p, x) then 1 else 0
  {
    StuckIsDrained(cfg, caches, steps, id, p);
    DeliveredWithoutFailure(cfg, caches, steps, p, id, x);
  }

  // ---- Only so many steps can carry something ---------------------------------------------

  /** The tuples in all queues. */
  ghost function Total(queues: map<NodeId, seq<Tuple>>): nat
    decreases |queues|
  {
    if queues == map[] then 0
    else
      var n :| n in queues;
      |queues[n]| + Total(queues - {n})
  }

  lemma {:induction false} TotalAt(queues: map<NodeId, seq<Tuple>>, n: NodeId)
    requires n in queues
    ensures Total(queues) == |queues[n]| + Total(queues - {n})
    decreases |queues|
  {
    var m :| m in queues && Total(queues) == |queues[m]| + Total(queues - {m});
    if m != n {
      TotalAt(queues - {m}, n);
      TotalAt(queues - {n}, m);
      assert queues - {m} - {n} == queues - {n} - {m};
    }
  }

  lemma TotalSet(queues: map<NodeId, seq<Tuple>>, n: NodeId, q: seq<Tuple>)
    ensures Total(queues[n := q]) == Total(queues) + |q| - if n in queues then |queues[n]| else 0
  {
    TotalAt(queues[n := q], n);
    if n in queues {
      TotalAt(queues, n);
      assert queues[n := q] - {n} == queues - {n};
    } else {
      assert queues[n := q] - {n} == queues;
    }
  }

  /** No tuple in a queue is for more than `k` peers. */
  predicate Bounded(s: State, n: NodeId, k: nat) {
    forall i :: 0 <= i < |Queue(s, n)| ==> |Queue(s, n)[i].peers| <= k
  }

  /** Work left: a copy costs less the further it has come, and a tuple more than the copies it
      is fanned out to. */
  ghost function Measure(s: State, k: nat): nat {
    Times(2 * k + 2, |s.waiting|) + Times(2 * k + 1, Total(s.queues)) + 2 * |s.flights| + |s.links|
  }

  function Times(a: nat, b: nat): nat { if b == 0 then 0 else a + Times(a, b - 1) }

  lemma {:induction false} FanSize(id: PubId, ps: set<NodeId>)
    ensures |Copies(id, ps)| == |ps|
    decreases |ps|
  {
    if ps != {} {
      var q :| q in ps;
      FanSize(id, ps - {q});
      assert (id, q) !in Copies(id, ps - {q});
      assert Copies(id, ps) == Copies(id, ps - {q}) + {(id, q)};
    } else {
      assert Copies(id, ps) == {};
    }
  }

  lemma BoundedStep(cfg: Config, s: State, step: Step, n: NodeId, k: nat)
    requires Bounded(s, n, k) && |Peers(cfg, n)| <= k
    ensures Bounded(Do(cfg, s, step), n, k)
  {
    match step
    case Enqueue(id) => BoundedEnqueue(cfg, s, id, n, k);
    case Fan(m) => BoundedFan(s, m, n, k);
    case _ =>
      QueuesStay(cfg, s, step);
      assert Queue(Do(cfg, s, step), n) == Queue(s, n);
  }

  lemma BoundedEnqueue(cfg: Config, s: State, id: PubId, n: NodeId, k: nat)
    requires Bounded(s, n, k) && |Peers(cfg, n)| <= k
    ensures Bounded(DoEnqueue(cfg, s, id), n, k)
  {
  }

  lemma BoundedFan(s: State, m: NodeId, n: NodeId, k: nat)
    requires Bounded(s, n, k)
    ensures Bounded(DoFan(s, m), n, k)
  {
    var q, r := Queue(s, n), Queue(DoFan(s, m), n);
    assert r == if n == m && q != [] then q[1..] else q;
  }

  lemma QueuesStay(cfg: Config, s: State, step: Step)
    requires !step.Enqueue? && !step.Fan?
    ensures Do(cfg, s, step).queues == s.queues
  {
    match step
    case Publish(id, n, c, owner, list) => PublishQueues(cfg, s, id, n, c, owner, list);
    case Evict(n, c) =>
    case _ => OnlySent(cfg, s, step);
  }

  lemma PublishQueues(cfg: Config, s: State, id: PubId, n: NodeId, c: ChannelId, owner: UserId, list: seq<UserId>)
    ensures DoPublish(cfg, s, id, n, c, owner, list).queues == s.queues
  {
  }

  lemma EnqueueNears(cfg: Config, s: State, id: PubId, k: nat)
    requires DoEnqueue(cfg, s, id) != s
    ensures Measure(DoEnqueue(cfg, s, id), k) < Measure(s, k)
  {
    var n := s.published[id].origin;
    TotalSet(s.queues, n, Queue(s, n) + [Tuple(id, Peers(cfg, n))]);
    var r := DoEnqueue(cfg, s, id);
    assert |r.waiting| == |s.waiting| - 1 && Total(r.queues) == Total(s.queues) + 1;
  }

  lemma FanNears(cfg: Config, s: State, n: NodeId, k: nat)
    requires Queue(s, n) != [] && Bounded(s, n, k)
    ensures Measure(DoFan(s, n), k) < Measure(s, k)
  {
    var t := Queue(s, n)[0];
    TotalSet(s.queues, n, Queue(s, n)[1..]);
    FanSize(t.id, t.peers);
    var r := DoFan(s, n);
    var out := Copies(t.id, t.peers);
    assert |multiset(out)| == |out| == |t.peers| <= k;
    assert Total(r.queues) == Total(s.queues) - 1 && |r.flights| == |s.flights| + |multiset(out)|;
  }

  /** Every step that carries something lowers the measure; an eviction leaves it. */
  lemma StepNears(cfg: Config, s: State, step: Step, k: nat)
    requires forall n :: Bounded(s, n, k)
    ensures Carries(step) && Do(cfg, s, step) != s ==> Measure(Do(cfg, s, step), k) < Measure(s, k)
    ensures step.Evict? ==> Measure(Do(cfg, s, step), k) == Measure(s, k)
  {
    match step
    case Enqueue(id) => if DoEnqueue(cfg, s, id) != s { EnqueueNears(cfg, s, id, k); }
    case Fan(n) => if Queue(s, n) != [] { assert Bounded(s, n, k); FanNears(cfg, s, n, k); }
    case WriteOk(id, p) => WriteNears(cfg, s, step, k);
    case WriteFail(id, p) => WriteNears(cfg, s, step, k);
    case Receive(id, p, list) => ReceiveNears(cfg, s, id, p, list, k);
    case _ =>
  }

  lemma WriteNears(cfg: Config, s: State, step: Step, k: nat)
    requires step.WriteOk? || step.WriteFail?
    ensures Do(cfg, s, step) != s ==> Measure(Do(cfg, s, step), k) < Measure(s, k)
  {
    var r := Do(cfg, s, step);
    if r != s {
      assert |r.flights| == |s.flights| - 1 && |r.links| <= |s.links| + 1;
      assert r.waiting == s.waiting && r.queues == s.queues;
    }
  }

  lemma ReceiveNears(cfg: Config, s: State, id: PubId, p: NodeId, list: seq<UserId>, k: nat)
    ensures var r := DoReceive(cfg, s, id, p, list); r != s ==> Measure(r, k) < Measure(s, k)
  {
    var r := DoReceive(cfg, s, id, p, list);
    if r != s {
      assert |r.links| == |s.links| - 1;
    }
  }

  function Carried(steps: seq<Step>): nat {
    if steps == [] then 0 else (if Carries(steps[0]) then 1 else 0) + Carried(steps[1..])
  }

  /** Nothing is published, and every step but an eviction does something. */
  ghost predicate Busy(cfg: Config, s: State, steps: seq<Step>)
    decreases |steps|
  {
    steps == [] ||
    ((steps[0].Evict? || Moves(cfg, s, steps[0])) && Busy(cfg, Do(cfg, s, steps[0]), steps[1..]))
  }

  /** Once nothing more is published, only so many steps can still carry something. */
  lemma {:induction false} DrainEnds(cfg: Config, s: State, steps: seq<Step>, k: nat)
    requires (forall n :: Bounded(s, n, k)) && (forall n :: |Peers(cfg, n)| <= k)
    requires Busy(cfg, s, steps)
    ensures Carried(steps) + Measure(Run(cfg, s, steps), k) <= Measure(s, k)
    decreases |steps|
  {
    if steps != [] {
      var r := Do(cfg, s, steps[0]);
      StepNears(cfg, s, steps[0], k);
      forall n ensures Bounded(r, n, k) {
        assert Bounded(s, n, k) && |Peers(cfg, n)| <= k;
        BoundedStep(cfg, s, steps[0], n, k);
      }
      DrainEnds(cfg, r, steps[1..], k);
    }
  }
}
