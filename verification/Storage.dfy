/** The message storage pipeline: producers fill a bounded queue, one writer empties it, and
    either stores each message at once or moves it to a bounded buffer that a second loop
    flushes in batches every second. */
module Storage {
  import opened Mongo

  datatype Msg = Msg(channel: string, text: string, ts: int, uuid: string, msgId: int)

  datatype Policy = EveryTrx | EverySecond

  datatype Config = Config(queueCap: nat, bufferCap: nat, policy: Policy)

  datatype Flusher = Waiting | Collecting(left: nat, batch: seq<Msg>)

  /** `log` is what has been handed to the driver. */
  datatype State = State(queue: seq<Msg>, hand: Option<Msg>, buffer: seq<Msg>, flusher: Flusher, log: seq<Msg>)

  datatype Step =
    | Enqueue(m: Msg)   // a send into a queue that has room
    | HandOver(m: Msg)  // a send straight to the writer waiting at the empty queue
    | Take              // the writer receives
    | Store             // the writer stores its message (every_trx)
    | Put               // the writer sends it to the buffer (every_second)
    | Tick              // the flusher wakes up and reads the buffer's length
    | Receive           // the flusher receives one message
    | Flush             // the flusher stores its batch

  function Init(): State {
    State([], None, [], Waiting, [])
  }

  function Do(cfg: Config, s: State, step: Step): State {
    match step
    case Enqueue(m) =>
      if |s.queue| < cfg.queueCap then s.(queue := s.queue + [m]) else s
    case HandOver(m) =>
      if s.queue == [] && s.hand == None then s.(hand := Some(m)) else s
    case Take =>
      if s.queue != [] && s.hand == None then s.(queue := s.queue[1..], hand := Some(s.queue[0])) else s
    case Store =>
      if cfg.policy.EveryTrx? && s.hand.Some? then s.(hand := None, log := s.log + [s.hand.value]) else s
    case Put =>
      if cfg.policy.EverySecond? && s.hand.Some? && |s.buffer| < cfg.bufferCap
      then s.(hand := None, buffer := s.buffer + [s.hand.value]) else s
    case Tick =>
      if cfg.policy.EverySecond? && s.flusher.Waiting? && |s.buffer| > 0
      then s.(flusher := Collecting(|s.buffer|, [])) else s
    case Receive =>
      if s.flusher.Collecting? && s.flusher.left > 0 && s.buffer != []
      then s.(flusher := Collecting(s.flusher.left - 1, s.flusher.batch + [s.buffer[0]]),
              buffer := s.buffer[1..]) else s
    case Flush =>
      if s.flusher.Collecting? && s.flusher.left == 0 then s.(flusher := Waiting, log := s.log + s.flusher.batch) else s
  }

  function Run(cfg: Config, s: State, steps: seq<Step>): State
    decreases |steps|
  {
    if steps == [] then s else Run(cfg, Do(cfg, s, steps[0]), steps[1..])
  }

  // ---- Conservation and order -----------------------------------------------------------

  function Held(hand: Option<Msg>): seq<Msg> {
    if hand.Some? then [hand.value] else []
  }

  function Batch(f: Flusher): seq<Msg> {
    if f.Collecting? then f.batch else []
  }

  /** Everything the pipeline holds, oldest first. */
  function Contents(s: State): seq<Msg> {
    s.log + (Batch(s.flusher) + (s.buffer + (Held(s.hand) + s.queue)))
  }

  ghost predicate Inv(cfg: Config, s: State) {
    && |s.queue| <= cfg.queueCap && |s.buffer| <= cfg.bufferCap
    && (s.flusher.Collecting? ==> s.flusher.left <= |s.buffer| && s.flusher.left + |s.flusher.batch| > 0)
    && (cfg.policy.EveryTrx? ==> s.buffer == [] && s.flusher.Waiting?)
  }

  predicate Produces(step: Step) {
    step.Enqueue? || step.HandOver?
  }

  /** Does the send go through? Into a queue with room, or to a writer that waits at the empty
      queue. */
  predicate Accepts(cfg: Config, s: State, step: Step) {
    || (step.Enqueue? && |s.queue| < cfg.queueCap)
    || (step.HandOver? && s.queue == [] && s.hand == None)
  }

  /** The messages of the sends that went through, in order. */
  function Accepted(cfg: Config, s: State, steps: seq<Step>): seq<Msg>
    decreases |steps|
  {
    if steps == [] then []
    else Sends(cfg, s, steps[0]) + Accepted(cfg, Do(cfg, s, steps[0]), steps[1..])
  }

  function Sends(cfg: Config, s: State, step: Step): seq<Msg> {
    if Accepts(cfg, s, step) then [step.m] else []
  }

  /** A send that goes through puts its message behind all others; another one changes nothing. */
  lemma SentStep(cfg: Config, s: State, step: Step)
    requires Produces(step)
    ensures Accepts(cfg, s, step) ==> Contents(Do(cfg, s, step)) == Contents(s) + [step.m]
    ensures !Accepts(cfg, s, step) ==> Do(cfg, s, step) == s
  {
    var r := Do(cfg, s, step);
    if Accepts(cfg, s, step) {
      var m, x := [step.m], Held(s.hand) + s.queue;
      assert Held(r.hand) + r.queue == x + m;
      assert s.buffer + (x + m) == s.buffer + x + m;
      assert Batch(s.flusher) + (s.buffer + x + m) == Batch(s.flusher) + (s.buffer + x) + m;
      assert s.log + (Batch(s.flusher) + (s.buffer + x) + m) == Contents(s) + m;
    }
  }

  /** The other steps move messages along and keep their order. */
  lemma MoveStep(cfg: Config, s: State, step: Step)
    requires Inv(cfg, s) && !Produces(step)
    ensures Contents(Do(cfg, s, step)) == Contents(s)
  {
    var r := Do(cfg, s, step);
    if r != s {
      var rest := Held(s.hand) + s.queue;
      match step
      case Take => assert Held(r.hand) + r.queue == rest;
      case Put => assert r.buffer + (Held(r.hand) + r.queue) == s.buffer + rest;
      case Store => StoreKeeps(s, r);
      case Receive => assert Batch(r.flusher) + (r.buffer + rest) == Batch(s.flusher) + (s.buffer + rest);
      case Flush => FlushKeeps(s, r);
      case Tick =>
    }
  }

  lemma StoreKeeps(s: State, r: State)
    requires s.buffer == [] && s.flusher.Waiting? && s.hand.Some?
    requires r == s.(hand := None, log := s.log + [s.hand.value])
    ensures Contents(r) == Contents(s)
  {
    assert Contents(s) == s.log + ([s.hand.value] + s.queue);
    assert Contents(r) == s.log + [s.hand.value] + s.queue;
  }

  lemma FlushKeeps(s: State, r: State)
    requires s.flusher.Collecting? && r == s.(flusher := Waiting, log := s.log + s.flusher.batch)
    ensures Contents(r) == Contents(s)
  {
    var rest := s.buffer + (Held(s.hand) + s.queue);
    assert Contents(r) == s.log + s.flusher.batch + rest;
    assert Contents(s) == s.log + (s.flusher.batch + rest);
  }

  lemma InvStep(cfg: Config, s: State, step: Step)
    requires Inv(cfg, s)
    ensures Inv(cfg, Do(cfg, s, step))
  {
  }

  lemma {:induction false} InvRun(cfg: Config, s: State, steps: seq<Step>)
    requires Inv(cfg, s)
    ensures Inv(cfg, Run(cfg, s, steps))
    decreases |steps|
  {
    if steps != [] {
      InvStep(cfg, s, steps[0]);
      InvRun(cfg, Do(cfg, s, steps[0]), steps[1..]);
    }
  }

  lemma ContentsStep(cfg: Config, s: State, step: Step)
    requires Inv(cfg, s)
    ensures Contents(Do(cfg, s, step)) == Contents(s) + Sends(cfg, s, step)
  {
    if Produces(step) { SentStep(cfg, s, step); } else { MoveStep(cfg, s, step); }
  }

  lemma {:induction false} ContentsRun(cfg: Config, s: State, steps: seq<Step>)
    requires Inv(cfg, s)
    ensures Contents(Run(cfg, s, steps)) == Contents(s) + Accepted(cfg, s, steps)
    decreases |steps|
  {
    if steps != [] {
      var r := Do(cfg, s, steps[0]);
      InvStep(cfg, s, steps[0]);
      ContentsStep(cfg, s, steps[0]);
      ContentsRun(cfg, r, steps[1..]);
      Associative(Contents(s), Sends(cfg, s, steps[0]), Accepted(cfg, r, steps[1..]));
    }
  }

  lemma Regroup<T>(a: seq<T>, b: seq<T>, c: seq<T>, d: seq<T>, e: seq<T>)
    ensures a + b + c + d + e == a + (b + (c + (d + e)))
  {
    Associative(a + b + c, d, e);
    Associative(a + b, c, d + e);
    Associative(a, b, c + (d + e));
  }

  lemma Associative<T>(a: seq<T>, b: seq<T>, c: seq<T>)
    ensures a + b + c == a + (b + c)
  {
  }

  /** In every run nothing of what was sent is lost, doubled, changed or reordered, and both
      channels keep their capacities. */
  lemma Conserved(cfg: Config, steps: seq<Step>)
    ensures var s := Run(cfg, Init(), steps);
            && s.log + Batch(s.flusher) + s.buffer + Held(s.hand) + s.queue == Accepted(cfg, Init(), steps)
            && |s.queue| <= cfg.queueCap && |s.buffer| <= cfg.bufferCap
  {
    InvRun(cfg, Init(), steps);
    ContentsRun(cfg, Init(), steps);
    var s := Run(cfg, Init(), steps);
    Regroup(s.log, Batch(s.flusher), s.buffer, Held(s.hand), s.queue);
    assert Contents(Init()) == [];
  }

  /** Whatever the writer does in between, each of the flusher's receives finds a message. */
  lemma ReceiveNeverBlocks(cfg: Config, steps: seq<Step>)
    ensures var s := Run(cfg, Init(), steps);
            s.flusher.Collecting? && s.flusher.left > 0 ==>
              s.buffer != [] &&
              Do(cfg, s, Receive).flusher == Collecting(s.flusher.left - 1, s.flusher.batch + [s.buffer[0]])
  {
    InvRun(cfg, Init(), steps);
  }

  function Receives(cfg: Config, s: State, n: nat): State
    decreases n
  {
    if n == 0 then s else Receives(cfg, Do(cfg, s, Receive), n - 1)
  }

  lemma {:induction false} ReceivesAll(cfg: Config, s: State)
    requires s.flusher.Collecting? && s.flusher.left <= |s.buffer|
    ensures var n := s.flusher.left;
            Receives(cfg, s, n) ==
              s.(flusher := Collecting(0, s.flusher.batch + s.buffer[..n]), buffer := s.buffer[n..])
    decreases s.flusher.left
  {
    var n, r := s.flusher.left, Do(cfg, s, Receive);
    if n > 0 {
      ReceivesAll(cfg, r);
      assert s.flusher.batch + [s.buffer[0]] + s.buffer[1..][..n - 1] == s.flusher.batch + s.buffer[..n];
    } else {
      assert s.flusher.batch + s.buffer[..0] == s.flusher.batch;
    }
  }

  /** A flush that nobody interrupts hands over the whole buffer. */
  lemma FlushAlone(cfg: Config, s: State)
    requires cfg.policy.EverySecond? && s.flusher.Waiting?
    ensures Do(cfg, Receives(cfg, Do(cfg, s, Tick), |s.buffer|), Flush) == s.(log := s.log + s.buffer, buffer := [])
  {
    if s.buffer != [] {
      ReceivesAll(cfg, Do(cfg, s, Tick));
      assert [] + s.buffer[..|s.buffer|] == s.buffer;
    } else {
      assert s.log + [] == s.log;
    }
  }

  /** A message that the writer takes is stored at once, or goes to a buffer with room. */
  lemma WriterAlone(cfg: Config, s: State)
    requires s.queue != [] && s.hand == None
    ensures var r := Do(cfg, Do(cfg, Do(cfg, s, Take), Store), Put);
            && r.queue == s.queue[1..] && r.flusher == s.flusher
            && (cfg.policy.EveryTrx? ==> r.log == s.log + [s.queue[0]] && r.buffer == s.buffer && r.hand == None)
            && (cfg.policy.EverySecond? ==> r.log == s.log)
            && (cfg.policy.EverySecond? && |s.buffer| < cfg.bufferCap ==>
                  r.buffer == s.buffer + [s.queue[0]] && r.hand == None)
            && (cfg.policy.EverySecond? && |s.buffer| >= cfg.bufferCap ==>
                  r.buffer == s.buffer && r.hand == Some(s.queue[0]))
  {
  }

  // ---- Draining -------------------------------------------------------------------------

  /** Work left: a message costs less the further it has come. */
  function Measure(s: State): nat {
    5 * |s.queue| + 4 * |Held(s.hand)| + 3 * |s.buffer| + 2 * |Batch(s.flusher)| + if s.flusher.Waiting? then 1 else 0
  }

  lemma StepDrains(cfg: Config, s: State, step: Step)
    requires Inv(cfg, s) && !Produces(step)
    ensures Do(cfg, s, step) != s ==> Measure(Do(cfg, s, step)) < Measure(s)
  {
  }

  ghost predicate Busy(cfg: Config, s: State, steps: seq<Step>)
    decreases |steps|
  {
    steps == [] ||
    (!Produces(steps[0]) && Do(cfg, s, steps[0]) != s && Busy(cfg, Do(cfg, s, steps[0]), steps[1..]))
  }

  /** Once the producers stop, only so many steps can still do something. */
  lemma {:induction false} DrainEnds(cfg: Config, s: State, steps: seq<Step>)
    requires Inv(cfg, s) && Busy(cfg, s, steps)
    ensures |steps| + Measure(Run(cfg, s, steps)) <= Measure(s)
    decreases |steps|
  {
    if steps != [] {
      InvStep(cfg, s, steps[0]);
      StepDrains(cfg, s, steps[0]);
      DrainEnds(cfg, Do(cfg, s, steps[0]), steps[1..]);
    }
  }

  ghost predicate Stuck(cfg: Config, s: State) {
    forall step :: !Produces(step) ==> Do(cfg, s, step) == s
  }

  lemma StuckHoldsNothing(cfg: Config, s: State)
    requires Inv(cfg, s) && Stuck(cfg, s)
    requires cfg.policy.EveryTrx? || cfg.bufferCap > 0
    ensures Contents(s) == s.log
  {
    assert Do(cfg, s, Take) == s && Do(cfg, s, Store) == s && Do(cfg, s, Put) == s;
    assert Do(cfg, s, Tick) == s && Do(cfg, s, Receive) == s && Do(cfg, s, Flush) == s;
  }

  /** A pipeline in which nothing but a new message can happen has handed all that was sent to
      the driver, in order, unless it flushes every second from a buffer without room. */
  lemma StuckIsDrained(cfg: Config, steps: seq<Step>)
    requires Stuck(cfg, Run(cfg, Init(), steps))
    requires cfg.policy.EveryTrx? || cfg.bufferCap > 0
    ensures Run(cfg, Init(), steps).log == Accepted(cfg, Init(), steps)
  {
    InvRun(cfg, Init(), steps);
    ContentsRun(cfg, Init(), steps);
    StuckHoldsNothing(cfg, Run(cfg, Init(), steps));
    assert Contents(Init()) == [];
  }

  /** Both policies hand over the same log: what the producers sent. */
  lemma PoliciesAgree(trx: Config, second: Config, a: seq<Step>, b: seq<Step>)
    requires trx.policy.EveryTrx? && second.policy.EverySecond? && second.bufferCap > 0
    requires Stuck(trx, Run(trx, Init(), a)) && Stuck(second, Run(second, Init(), b))
    requires Accepted(trx, Init(), a) == Accepted(second, Init(), b)
    ensures Run(trx, Init(), a).log == Accepted(trx, Init(), a) == Run(second, Init(), b).log
  {
    StuckIsDrained(trx, a);
    StuckIsDrained(second, b);
  }

  /** The exception: with an unbuffered write buffer the length the flusher reads is always
      zero, and nothing is ever stored. */
  lemma NothingStoredUnbuffered(cfg: Config, steps: seq<Step>)
    requires cfg.policy.EverySecond? && cfg.bufferCap == 0
    ensures Run(cfg, Init(), steps).log == []
  {
    UnbufferedRun(cfg, Init(), steps);
  }

  lemma {:induction false} UnbufferedRun(cfg: Config, s: State, steps: seq<Step>)
    requires cfg.policy.EverySecond? && cfg.bufferCap == 0
    requires s.log == [] && s.buffer == [] && s.flusher.Waiting?
    ensures Run(cfg, s, steps).log == []
    decreases |steps|
  {
    if steps != [] {
      UnbufferedRun(cfg, Do(cfg, s, steps[0]), steps[1..]);
    }
  }

  // ---- The loops ------------------------------------------------------------------------

  function Flatten(parts: seq<seq<Msg>>): seq<Msg> {
    if parts == [] then [] else Flatten(parts[..|parts| - 1]) + parts[|parts| - 1]
  }

  lemma TailOf<T>(s: seq<T>, i: nat, more: seq<T>)
    requires i < |s|
    ensures var b := s[i..] + more;
            b[0] == s[i] && b[1..] == s[i + 1..] + more && s[..i] + [b[0]] == s[..i + 1]
  {
  }

  /** The channels and the driver, as the two loops see them; `hand` is the message the writer
      has received. */
  class Pipeline {
    var queue: seq<Msg>
    var hand: Option<Msg>
    var buffer: seq<Msg>
    var log: seq<Msg>

    /** The state of the machine, as far as the writer can change it. */
    ghost function View(): State
      reads this
    {
      State(queue, hand, buffer, Waiting, log)
    }

    /** driver.store */
    method StoreOne(mt: Msg)
      modifies this`log
      ensures log == old(log) + [mt]
    {
      log := log + [mt];
    }

    /** driver.storeMulti: one insert of all records, in order. */
    method StoreMulti(mts: seq<Msg>)
      modifies this`log
      ensures log == old(log) + mts
    {
      var records := [];
      for i := 0 to |mts|
        invariant records == mts[..i] && log == old(log)
      {
        records := records + [mts[i]];
      }
      log := log + records;
    }

    /** A producer's send; with a full queue and a busy writer it has to wait. */
    method EnqueueMsg(cfg: Config, channel: string, text: string, uuid: string, ts: int, msgId: int)
      returns (waits: bool)
      modifies this
      ensures waits <==> |old(queue)| >= cfg.queueCap && (old(queue) != [] || old(hand).Some?)
      ensures waits ==> queue == old(queue) && hand == old(hand)
      ensures !waits ==> Held(hand) + queue == Held(old(hand)) + old(queue) + [Msg(channel, text, ts, uuid, msgId)]
      ensures !waits && |queue| > |old(queue)| ==> |queue| <= cfg.queueCap
      ensures buffer == old(buffer) && log == old(log)
    {
      var mt := Msg(channel, text, ts, uuid, msgId);
      if |queue| < cfg.queueCap {
        queue := queue + [mt];
      } else if |queue| == 0 && hand.None? {
        hand := Some(mt);
      } else {
        return true;
      }
      return false;
    }

    /** One round of the writer, as far as it gets: at a full buffer it waits with its message
        in hand, and the next round goes on from there. */
    method WriteOne(cfg: Config) returns (waits: bool)
      requires hand.Some? || queue != []
      modifies this
      ensures View() == Do(cfg, Do(cfg, Do(cfg, old(View()), Take), Store), Put)
      ensures waits <==> cfg.policy.EverySecond? && |old(buffer)| >= cfg.bufferCap
      ensures waits <==> hand.Some?
    {
      if hand.None? {
        hand := Some(queue[0]);
        queue := queue[1..];
      }
      if cfg.policy == EveryTrx {
        StoreOne(hand.value);
        hand := None;
      } else if |buffer| < cfg.bufferCap {
        buffer := buffer + [hand.value];
        hand := None;
      } else {
        return true;
      }
      return false;
    }

    /** One tick of the flusher. Before its i-th receive the writer appends `arrivals[i]`. The
        messages it takes are those that were there at the tick, in order; the others stay. */
    method FlushTick(arrivals: seq<seq<Msg>>)
      requires |arrivals| == |buffer|
      modifies this
      ensures log == old(log) + old(buffer)
      ensures buffer == Flatten(arrivals)
      ensures queue == old(queue) && hand == old(hand)
    {
      var cLen := |buffer|;
      if cLen > 0 {
        var records := [];
        for i := 0 to cLen
          invariant records == old(buffer)[..i]
          invariant buffer == old(buffer)[i..] + Flatten(arrivals[..i])
          invariant log == old(log) && queue == old(queue) && hand == old(hand)
        {
          assert arrivals[..i + 1][..i] == arrivals[..i];
          Associative(old(buffer)[i..], Flatten(arrivals[..i]), arrivals[i]);
          buffer := buffer + arrivals[i];
          assert buffer == old(buffer)[i..] + Flatten(arrivals[..i + 1]);
          TailOf(old(buffer), i, Flatten(arrivals[..i + 1]));
          records := records + [buffer[0]];
          buffer := buffer[1..];
        }
        assert arrivals[..cLen] == arrivals;
        StoreMulti(records);
      }
    }
  }
}
