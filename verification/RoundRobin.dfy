/** Round-robin choice of an offline sender: any number of threads advance one index with a
    compare-and-swap loop. */
module RoundRobin {
  import opened Mongo

  type Thread = nat

  /** What a thread read, and how many obtains had succeeded by then (history). */
  datatype Pc = Idle | Loaded(now: nat, seen: nat)

  /** `obtained` is history: the positions handed out, in order. */
  datatype State = State(size: nat, baton: nat, threads: map<Thread, Pc>, obtained: seq<nat>)

  datatype Step = Load(t: Thread) | Swap(t: Thread)

  function PcOf(s: State, t: Thread): Pc {
    if t in s.threads then s.threads[t] else Idle
  }

  function Do(s: State, step: Step): State
    requires s.size > 0
  {
    match step
    case Load(t) => s.(threads := s.threads[t := Loaded(s.baton, |s.obtained|)])
    case Swap(t) =>
      var pc := PcOf(s, t);
      if !pc.Loaded? then s
      else if s.baton == pc.now then
        var hitLoc := (pc.now + 1) % s.size;
        s.(baton := hitLoc, threads := s.threads[t := Idle], obtained := s.obtained + [hitLoc])
      else s.(threads := s.threads[t := Idle])   // the loop starts again with a load
  }

  function Run(s: State, steps: seq<Step>): (r: State)
    requires s.size > 0
    ensures r.size == s.size
    decreases |steps|
  {
    if steps == [] then s else Run(Do(s, steps[0]), steps[1..])
  }

  function Init(size: nat): State {
    State(size, 0, map[], [])
  }

  /** The k-th obtain, from zero, returns position k + 1 modulo the size. */
  predicate InTurn(o: seq<nat>, size: nat)
    requires size > 0
  {
    o == [] || (InTurn(o[..|o| - 1], size) && o[|o| - 1] == |o| % size)
  }

  lemma {:induction false} TurnOf(o: seq<nat>, size: nat, k: nat)
    requires size > 0 && InTurn(o, size) && k < |o|
    ensures o[k] == (k + 1) % size
    decreases |o|
  {
    if k < |o| - 1 { TurnOf(o[..|o| - 1], size, k); }
  }

  ghost predicate Inv(s: State) {
    && s.size > 0
    && s.baton == |s.obtained| % s.size
    && InTurn(s.obtained, s.size)
    && (forall t :: ThreadOk(s, PcOf(s, t)))
  }

  predicate ThreadOk(s: State, pc: Pc) {
    pc.Loaded? ==> pc.seen <= |s.obtained| && s.size > 0 && pc.now == pc.seen % s.size
  }

  lemma DivModNext(k: nat, n: nat)
    requires n > 0
    ensures (k + 1) % n == if k % n + 1 < n then k % n + 1 else 0
    ensures (k + 1) / n == if k % n + 1 < n then k / n else k / n + 1
  {
    var q := k / n;
    assert k == q * n + k % n;
    if k % n + 1 < n {
      ModUnique(k + 1, n, q, k % n + 1);
    } else {
      assert k + 1 == (q + 1) * n + 0;
      ModUnique(k + 1, n, q + 1, 0);
    }
  }

  lemma ModNext(k: nat, n: nat)
    requires n > 0
    ensures (k % n + 1) % n == (k + 1) % n
  {
    DivModNext(k, n);
  }

  lemma ModUnique(x: nat, n: nat, q: nat, r: nat)
    requires n > 0 && r < n && x == q * n + r
    ensures x % n == r && x / n == q
  {
    var d := x / n - q;
    assert x == x / n * n + x % n;
    assert d * n == r - x % n;
    assert d > 0 ==> d * n >= n;
    assert d < 0 ==> (d + 1) * n <= 0;
  }

  lemma InvStep(s: State, step: Step)
    requires Inv(s)
    ensures Inv(Do(s, step))
  {
    var r := Do(s, step);
    ModNext(|s.obtained|, s.size);
    if r.obtained != s.obtained { assert r.obtained[..|s.obtained|] == s.obtained; }
    forall t
      ensures ThreadOk(r, PcOf(r, t))
    {
      assert ThreadOk(s, PcOf(s, t));
    }
  }

  lemma {:induction false} InvRun(s: State, steps: seq<Step>)
    requires Inv(s)
    ensures Inv(Run(s, steps))
    decreases |steps|
  {
    if steps != [] {
      InvStep(s, steps[0]);
      InvRun(Do(s, steps[0]), steps[1..]);
    }
  }

  /** In every run the index is in range, and so is every position handed out. */
  lemma InRange(size: nat, steps: seq<Step>)
    requires size > 0
    ensures var s := Run(Init(size), steps);
            s.baton < size && forall k :: 0 <= k < |s.obtained| ==> s.obtained[k] < size
  {
    InvRun(Init(size), steps);
    var o := Run(Init(size), steps).obtained;
    forall k | 0 <= k < |o| ensures o[k] < size { TurnOf(o, size, k); }
  }

  /** A swap fails only because another thread has obtained a sender since the load. */
  lemma FailureMeansProgress(size: nat, steps: seq<Step>, t: Thread)
    requires size > 0
    ensures var s := Run(Init(size), steps);
            PcOf(s, t).Loaded? && Do(s, Swap(t)).obtained == s.obtained ==> |s.obtained| > PcOf(s, t).seen
  {
    InvRun(Init(size), steps);
    assert ThreadOk(Run(Init(size), steps), PcOf(Run(Init(size), steps), t));
  }

  // ---- Fairness -------------------------------------------------------------------------

  /** Among any `size` consecutive obtains each sender occurs at exactly one place. */
  lemma EachOnceInAWindow(size: nat, steps: seq<Step>, start: nat, sender: nat)
    requires size > 0 && sender < size
    requires start + size <= |Run(Init(size), steps).obtained|
    ensures var o := Run(Init(size), steps).obtained;
            exists k :: start <= k < start + size && o[k] == sender &&
              forall j :: start <= j < start + size && o[j] == sender ==> j == k
  {
    InvRun(Init(size), steps);
    var o := Run(Init(size), steps).obtained;
    var first := (start + 1) % size;
    var k := if first <= sender then start + (sender - first) else start + (size - first + sender);
    Shifted(start + 1, k - start, size);
    TurnOf(o, size, k);
    assert o[k] == sender;
    forall j | start <= j < start + size && o[j] == sender
      ensures j == k
    {
      Shifted(start + 1, j - start, size);
      TurnOf(o, size, j);
    }
  }

  lemma Shifted(x: nat, d: nat, n: nat)
    requires n > 0 && d < n
    ensures (x + d) % n == if x % n + d < n then x % n + d else x % n + d - n
  {
    var q := x / n;
    assert x == q * n + x % n;
    if x % n + d < n {
      ModUnique(x + d, n, q, x % n + d);
    } else {
      assert x + d == (q + 1) * n + (x % n + d - n);
      ModUnique(x + d, n, q + 1, x % n + d - n);
    }
  }

  function Count(o: seq<nat>, sender: nat): nat {
    if o == [] then 0 else Count(o[..|o| - 1], sender) + if o[|o| - 1] == sender then 1 else 0
  }

  /** After n obtains sender i has served as often as i's turn has come up. */
  lemma {:induction false} CountIs(size: nat, o: seq<nat>, sender: nat)
    requires size > 0 && sender < size
    requires InTurn(o, size)
    ensures Count(o, sender) == |o| / size + (if 0 < sender <= |o| % size then 1 else 0)
    decreases |o|
  {
    if o != [] {
      var n := |o| - 1;
      CountIs(size, o[..n], sender);
      DivModNext(n, size);
    }
  }

  /** In every run, however the threads interleave, no two senders' counts differ by more
      than one. */
  lemma Fair(size: nat, steps: seq<Step>, a: nat, b: nat)
    requires size > 0 && a < size && b < size
    ensures var o := Run(Init(size), steps).obtained;
            Count(o, a) <= Count(o, b) + 1
  {
    InvRun(Init(size), steps);
    CountIs(size, Run(Init(size), steps).obtained, a);
    CountIs(size, Run(Init(size), steps).obtained, b);
  }

  // ---- The pool -------------------------------------------------------------------------

  class OffSenderPool<Sender> {
    var pool: array<Option<Sender>>
    var baton: nat

    /** A pool that obtains may be made from: it has slots, and all of them are filled. */
    ghost predicate Valid()
      reads this, pool
    {
      pool.Length > 0 && baton < pool.Length && forall i :: 0 <= i < pool.Length ==> pool[i].Some?
    }

    constructor ()
      ensures fresh(pool) && pool.Length == 0 && baton == 0
    {
      pool := new Option<Sender>[0];
      baton := 0;
    }

    /** initOffSenderPool: `capacity` senders over the addresses in turn. A sender is its
        address here; `opens[i]` says whether the i-th connection can be opened. The first
        failure ends it, and the slots from there on stay empty. */
    method InitPool(capacity: nat, addrs: seq<Sender>, opens: seq<bool>) returns (ok: bool)
      requires |opens| == capacity
      modifies this
      ensures ok <==> |addrs| > 0 && forall i :: 0 <= i < capacity ==> opens[i]
      ensures |addrs| == 0 ==> pool == old(pool) && baton == old(baton)
      ensures |addrs| > 0 ==> fresh(pool) && pool.Length == capacity && baton == 0
      ensures |addrs| > 0 ==>
                forall i :: 0 <= i < capacity ==>
                  pool[i] == if forall j :: 0 <= j <= i ==> opens[j] then Some(addrs[i % |addrs|]) else None
      ensures ok && capacity > 0 ==> Valid()
    {
      if |addrs| < 1 {
        return false;
      }
      pool := new Option<Sender>[capacity](_ => None);
      baton := 0;
      for i := 0 to capacity
        invariant pool.Length == capacity && fresh(pool) && baton == 0
        invariant forall j :: 0 <= j < i ==> opens[j]
        invariant forall j :: 0 <= j < capacity ==> pool[j] == if j < i then Some(addrs[j % |addrs|]) else None
      {
        if !opens[i] {
          return false;
        }
        pool[i] := Some(addrs[i % |addrs|]);
      }
      return true;
    }

    /** One obtain. Between the load and the swap of its i-th attempt other threads succeed
        `others[i]` times; after the last entry nobody interferes. The result is the sender
        after the index that the successful swap found. */
    method ObtainOneOffSender(others: seq<nat>) returns (sender: Sender, ghost rounds: nat)
      requires Valid()
      modifies this`baton
      ensures Valid()
      ensures rounds <= Total(others)
      ensures baton == (old(baton) + rounds + 1) % pool.Length
      ensures Some(sender) == pool[baton]
    {
      var i := 0;
      rounds := 0;
      var n := pool.Length;
      while true
        invariant Valid() && i <= |others|
        invariant rounds == Total(others[..i]) && baton == (old(baton) + rounds) % n
        decreases |others| - i
      {
        var now := baton;
        if i < |others| {
          assert others[..i + 1][..i] == others[..i];
          Together(old(baton) + rounds, others[i], n);
          rounds := rounds + others[i];
          baton := (baton + others[i]) % n;
          i := i + 1;
        }
        var hitLoc := (now + 1) % n;
        if baton == now {
          ModNext(old(baton) + rounds, n);
          baton := hitLoc;
          break;
        }
      }
      TotalPrefix(others, i);
      sender := pool[baton].value;
    }
  }

  lemma Together(x: nat, d: nat, n: nat)
    requires n > 0
    ensures (x % n + d) % n == (x + d) % n
  {
    var q, p := x / n, (x % n + d) / n;
    assert x == q * n + x % n;
    assert x % n + d == p * n + (x % n + d) % n;
    assert x + d == (q + p) * n + (x % n + d) % n;
    ModUnique(x + d, n, q + p, (x % n + d) % n);
  }

  function Total(ns: seq<nat>): nat {
    if ns == [] then 0 else Total(ns[..|ns| - 1]) + ns[|ns| - 1]
  }

  lemma {:induction false} TotalPrefix(ns: seq<nat>, i: nat)
    requires i <= |ns|
    ensures Total(ns[..i]) <= Total(ns)
    decreases |ns| - i
  {
    if i < |ns| {
      assert ns[..i + 1][..i] == ns[..i];
      TotalPrefix(ns, i + 1);
    } else {
      assert ns[..i] == ns;
    }
  }

  /** An obtain that nobody interrupts hands out the next position and leaves the index there. */
  lemma ObtainAlone(s: State, t: Thread)
    requires s.size > 0 && s.baton < s.size
    ensures var r := Do(Do(s, Load(t)), Swap(t));
            && r.obtained == s.obtained + [if s.baton + 1 == s.size then 0 else s.baton + 1]
            && r.baton == r.obtained[|s.obtained|] && PcOf(r, t) == Idle
  {
    var q, next := if s.baton + 1 == s.size then 1 else 0, if s.baton + 1 == s.size then 0 else s.baton + 1;
    ModUnique(s.baton + 1, s.size, q, next);
  }

  /** A swap that finds another index than was loaded takes nothing and starts again; one that
      finds the same takes the next position, however many obtains there were in between. */
  lemma SwapIs(s: State, t: Thread)
    requires s.size > 0 && s.baton < s.size && PcOf(s, t).Loaded?
    ensures var r := Do(s, Swap(t));
            && PcOf(r, t) == Idle
            && (s.baton != PcOf(s, t).now ==> r.baton == s.baton && r.obtained == s.obtained)
            && (s.baton == PcOf(s, t).now ==>
                  r.obtained == s.obtained + [if s.baton + 1 == s.size then 0 else s.baton + 1])
  {
    var q, next := if s.baton + 1 == s.size then 1 else 0, if s.baton + 1 == s.size then 0 else s.baton + 1;
    ModUnique(s.baton + 1, s.size, q, next);
  }
}
