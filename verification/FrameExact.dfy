/** Two things the code of the frame chats relies on without enforcing them: that a chat is
    not left before its members' lists are written, and that a room has one chat at a time.
    For each: exactly when it holds, and how it fails in any state where it can. */
module FrameExact {
  import opened Mongo
  import opened FrameChats
  import opened FrameHandlers

  // ---- Late writes ------------------------------------------------------------------------

  /** The step writes a chat into its members' lists although the chat is gone and nobody is
      going to clean the lists any more. */
  ghost predicate LateWrite(s: State, step: Step) {
    var pc := PcOf(s, step.t);
    && step.IndexOk? && pc.Indexing? && pc.chat !in s.chats && Members(s, pc.room) != []
    && forall d :: !(PcOf(s, d).Cleaning? && PcOf(s, d).chat == pc.chat)
  }

  ghost predicate NoLateWrite(s: State, steps: seq<Step>)
    decreases |steps|
  {
    steps == [] || (!LateWrite(s, steps[0]) && NoLateWrite(Do(s, steps[0]), steps[1..]))
  }

  /** A stale chat that is in some list. */
  predicate Shows(s: State, c: ChatId) {
    Past(s, c).stale && Members(s, Past(s, c).room) != []
  }

  lemma ShowsStep(s: State, step: Step, c: ChatId)
    requires FateOk(s, c) && GoneOk(s, c)
    requires forall d :: ThreadOk(s, d)
    ensures Shows(Do(s, step), c) <==> Shows(s, c) || (LateWrite(s, step) && PcOf(s, step.t).chat == c)
  {
    if step.IndexOk? { ShowsWrite(s, step.t, c); } else { StaleStays(s, step, c); }
  }

  /** No other step makes a chat stale. */
  lemma StaleStays(s: State, step: Step, c: ChatId)
    requires !step.IndexOk? && FateOk(s, c)
    ensures Shows(Do(s, step), c) <==> Shows(s, c)
  {
    if Departs(step) { StaleDeparts(s, step, c); } else { StaleArrives(s, step, c); }
  }

  /** The history of a chat says the same about its room and whether it is stale. */
  predicate SameStale(s: State, r: State, c: ChatId) {
    && r.members == s.members && Past(r, c).stale == Past(s, c).stale
    && (Past(s, c).stale ==> Past(r, c).room == Past(s, c).room)
  }

  lemma StaleDeparts(s: State, step: Step, c: ChatId)
    requires Departs(step)
    ensures SameStale(s, Do(s, step), c)
  {
  }

  lemma StaleArrives(s: State, step: Step, c: ChatId)
    requires !Departs(step) && !step.IndexOk?
    ensures SameStale(s, Do(s, step), c)
  {
  }

  lemma ShowsWrite(s: State, t: Thread, c: ChatId)
    requires FateOk(s, c) && GoneOk(s, c)
    requires forall d :: ThreadOk(s, d)
    ensures Shows(DoIndexOk(s, t), c) <==> Shows(s, c) || (LateWrite(s, IndexOk(t)) && PcOf(s, t).chat == c)
  {
    var pc := PcOf(s, t);
    assert ThreadOk(s, t);
    if pc.Indexing? && pc.chat == c {
      forall d
        ensures Past(s, c).cleaned ==> !(PcOf(s, d).Cleaning? && PcOf(s, d).chat == c)
      {
        assert ThreadOk(s, d);
      }
    }
  }

  ghost predicate SomeShows(s: State) {
    exists c :: Shows(s, c)
  }

  lemma {:induction false} ShowsRun(s: State, steps: seq<Step>)
    requires Inv(s)
    ensures SomeShows(Run(s, steps)) <==> SomeShows(s) || !NoLateWrite(s, steps)
    decreases |steps|
  {
    if steps != [] {
      var r := Do(s, steps[0]);
      forall c
        ensures Shows(r, c) <==> Shows(s, c) || (LateWrite(s, steps[0]) && PcOf(s, steps[0].t).chat == c)
      {
        assert ChatOk(s, c);
        ShowsStep(s, steps[0], c);
      }
      assert LateWrite(s, steps[0]) ==> Shows(r, PcOf(s, steps[0].t).chat);
      InvStep(s, steps[0]);
      ShowsRun(r, steps[1..]);
    }
  }

  /** Every user's list holds exactly the live chats of the user's rooms. */
  ghost predicate AllListsExact(s: State) {
    forall u, c :: c in At(s.index, u) <==> c in s.chats && u in Members(s, s.chats[c].room)
  }

  /** At rest the lists are exact if and only if the run had no late write. */
  lemma ListsExactly(members: map<RoomId, seq<UserId>>, steps: seq<Step>)
    requires Rooms(members)
    requires Quiet(Run(Init(members), steps))
    ensures AllListsExact(Run(Init(members), steps)) <==> NoLateWrite(Init(members), steps)
  {
    var s := Run(Init(members), steps);
    assert Inv(Init(members));
    InvRun(Init(members), steps);
    ShowsRun(Init(members), steps);
    if SomeShows(s) {
      var c :| Shows(s, c);
      assert ChatOk(s, c);
      ListsAtRest(members, steps, Members(s, Past(s, c).room)[0], c);
    } else {
      forall u, c
        ensures c in At(s.index, u) <==> c in s.chats && u in Members(s, s.chats[c].room)
      {
        assert !Shows(s, c);
        ListsAtRest(members, steps, u, c);
      }
    }
  }

  lemma {:induction false} StaysListed(s: State, steps: seq<Step>, u: UserId, c: ChatId)
    requires Inv(s) && Past(s, c).stale && u in Members(s, Past(s, c).room)
    ensures c in At(Run(s, steps).index, u)
    decreases |steps|
  {
    if steps == [] {
      assert ChatOk(s, c) && EntryOk(s, u, c);
    } else {
      assert ChatOk(s, c);
      ShowsStep(s, steps[0], c);
      InvStep(s, steps[0]);
      assert Past(Do(s, steps[0]), c).room == Past(s, c).room;
      StaysListed(Do(s, steps[0]), steps[1..], u, c);
    }
  }

  lemma {:induction false} OthersStayRun(s: State, steps: seq<Step>, d: Thread, t: Thread)
    requires t != d && forall i :: 0 <= i < |steps| ==> steps[i].t == d
    ensures PcOf(Run(s, steps), t) == PcOf(s, t)
    decreases |steps|
  {
    if steps != [] {
      OthersStay(s, steps[0], t);
      OthersStayRun(Do(s, steps[0]), steps[1..], d, t);
    }
  }

  function OutSteps(d: Thread, u: UserId, c: ChatId): seq<Step> {
    [StartOut(d, u, c)] + VisitSteps(d)
  }

  /** The only participant leaves: the chat is gone and its clean-up done. */
  lemma LastOneOut(s: State, d: Thread, u: UserId, c: ChatId)
    requires Inv(s) && PcOf(s, d) == Idle && c in s.chats && Pull(s.chats[c].active, u) == []
    ensures var r := Run(s, OutSteps(d, u, c)); Inv(r) && c !in r.chats && (Past(r, c).undone || Past(r, c).cleaned)
  {
    var r := Run(s, OutSteps(d, u, c));
    OutIsRun(s, d, u, c);
    InvRun(s, OutSteps(d, u, c));
    RunSplit(s, [StartOut(d, u, c)], VisitSteps(d));
    VisitAlone(Do(s, StartOut(d, u, c)), d, u, [c], false);
    assert PcOf(r, d) == Idle;
    var f := Past(r, c).finisher;
    assert ThreadOk(s, f);
    if f != d { OthersStayRun(s, OutSteps(d, u, c), d, f); }
    assert r.chats == Leave(DataOf(s), u, c).chats;
    assert ChatOk(s, c) && ChatOk(r, c);
    StaysKnown(s, OutSteps(d, u, c), c);
  }

  lemma {:induction false} StaysKnown(s: State, steps: seq<Step>, c: ChatId)
    requires c in s.fates
    ensures c in Run(s, steps).fates && Past(Run(s, steps), c).room == Past(s, c).room
    decreases |steps|
  {
    if steps != [] {
      StaysKnown(Do(s, steps[0]), steps[1..], c);
    }
  }

  /** In any reachable state: if the only participant leaves a chat whose apply has not
      written the lists yet, the chat is gone and stays in every member's list for good. */
  lemma LeftTooSoon(s: State, t: Thread, d: Thread, u: UserId, c: ChatId, m: UserId, later: seq<Step>)
    requires Inv(s) && PcOf(s, t).Indexing? && PcOf(s, t).chat == c && PcOf(s, d) == Idle
    requires c in s.chats && Pull(s.chats[c].active, u) == []
    requires m in Members(s, PcOf(s, t).room)
    ensures var r := Run(s, OutSteps(d, u, c) + [IndexOk(t)]);
            c !in r.chats && c in At(Run(r, later).index, m)
  {
    var left := Run(s, OutSteps(d, u, c));
    LastOneOut(s, d, u, c);
    OthersStayRun(s, OutSteps(d, u, c), d, t);
    RunSplit(s, OutSteps(d, u, c), [IndexOk(t)]);
    assert ThreadOk(s, t) && ThreadOk(left, t);
    InvRun(s, OutSteps(d, u, c));
    WrittenLate(left, t, m, later);
  }

  lemma WrittenLate(s: State, t: Thread, m: UserId, later: seq<Step>)
    requires Inv(s) && PcOf(s, t).Indexing? && m in Members(s, PcOf(s, t).room)
    requires Past(s, PcOf(s, t).chat).cleaned
    ensures var c, r := PcOf(s, t).chat, Do(s, IndexOk(t));
            c !in r.chats && c in At(Run(r, later).index, m)
  {
    var c, r := PcOf(s, t).chat, Do(s, IndexOk(t));
    assert ChatOk(s, c) && ThreadOk(s, t);
    InvStep(s, IndexOk(t));
    StaysListed(r, later, m, c);
  }

  // ---- One chat a room --------------------------------------------------------------------

  /** Two live chats of one room are the same. */
  ghost predicate OneEach(s: State) {
    forall c, d :: c in s.chats && d in s.chats && s.chats[c].room == s.chats[d].room ==> c == d
  }

  predicate LiveKnown(s: State) {
    s.chats.Keys <= s.fates.Keys
  }

  /** An apply inserts a chat into a room that has one by now. */
  ghost predicate SecondInsert(s: State, step: Step) {
    var pc := PcOf(s, step.t);
    && step.Insert? && pc.Inserting? && step.newId !in s.fates
    && exists c :: c in s.chats && s.chats[c].room == pc.room
  }

  /** A live chat after a step was there before, in the same room, or has been inserted. */
  lemma NewChat(s: State, step: Step, c: ChatId)
    requires LiveKnown(s) && c in Do(s, step).chats
    ensures var pc, room := PcOf(s, step.t), Do(s, step).chats[c].room;
            || (c in s.chats && s.chats[c].room == room)
            || (step.Insert? && pc.Inserting? && c == step.newId && c !in s.fates && room == pc.room)
  {
  }

  lemma KnownStep(s: State, step: Step)
    requires LiveKnown(s)
    ensures LiveKnown(Do(s, step))
  {
  }

  /** That is exactly how a room gets a second chat. */
  lemma OneEachExactly(s: State, step: Step)
    requires OneEach(s) && LiveKnown(s)
    ensures OneEach(Do(s, step)) <==> !SecondInsert(s, step)
  {
    if SecondInsert(s, step) {
      InsertedSecond(s, step);
    } else {
      var r := Do(s, step);
      forall c, d | c in r.chats && d in r.chats && r.chats[c].room == r.chats[d].room
        ensures c == d
      {
        NewChat(s, step, c);
        NewChat(s, step, d);
      }
    }
  }

  lemma InsertedSecond(s: State, step: Step)
    requires LiveKnown(s) && SecondInsert(s, step)
    ensures !OneEach(Do(s, step))
  {
    var r := DoInsert(s, step.t, step.newId);
    var c :| c in s.chats && s.chats[c].room == PcOf(s, step.t).room;
    assert c in r.chats && r.chats[c].room == r.chats[step.newId].room;
  }

  /** Nobody else is between its check and its insertion for the room that is applied to. */
  ghost predicate Alone(s: State, step: Step) {
    step.StartApply? ==>
      forall t :: t != step.t ==> !(PcOf(s, t).Inserting? && PcOf(s, t).room == step.room)
  }

  ghost predicate AloneRun(s: State, steps: seq<Step>)
    decreases |steps|
  {
    steps == [] || (Alone(s, steps[0]) && AloneRun(Do(s, steps[0]), steps[1..]))
  }

  /** While a connection is about to insert, its room has no chat and no other connection is. */
  predicate InserterOk(s: State, t: Thread, d: Thread, c: ChatId) {
    var pc := PcOf(s, t);
    pc.Inserting? ==>
      && (c in s.chats ==> s.chats[c].room != pc.room)
      && (PcOf(s, d).Inserting? && PcOf(s, d).room == pc.room ==> d == t)
  }

  lemma InserterStep(s: State, step: Step, t: Thread, d: Thread, c: ChatId)
    requires InserterOk(s, t, d, c) && InserterOk(s, t, step.t, c) && InserterOk(s, d, t, c) && Alone(s, step)
    ensures InserterOk(Do(s, step), t, d, c)
  {
    if t != step.t { OthersStay(s, step, t); }
    if d != step.t { OthersStay(s, step, d); }
    if step.StartApply? {
      InserterApply(s, step.t, step.user, step.room, t, d, c);
    } else if step.Insert? {
      InserterInsert(s, step.t, step.newId, t, d, c);
    } else {
      InserterOther(s, step, t, d, c);
    }
  }

  lemma InserterApply(s: State, a: Thread, u: UserId, room: RoomId, t: Thread, d: Thread, c: ChatId)
    requires InserterOk(s, t, d, c) && InserterOk(s, d, t, c) && Alone(s, StartApply(a, u, room))
    ensures InserterOk(DoStartApply(s, a, u, room), t, d, c)
  {
    var r := DoStartApply(s, a, u, room);
    assert t != a ==> PcOf(r, t) == PcOf(s, t);
    assert d != a ==> PcOf(r, d) == PcOf(s, d);
  }

  lemma InserterInsert(s: State, a: Thread, id: ChatId, t: Thread, d: Thread, c: ChatId)
    requires InserterOk(s, t, d, c) && InserterOk(s, t, a, c)
    ensures InserterOk(DoInsert(s, a, id), t, d, c)
  {
  }

  /** No other step begins to insert, or puts a chat into a room. */
  lemma InserterOther(s: State, step: Step, t: Thread, d: Thread, c: ChatId)
    requires !step.StartApply? && !step.Insert? && InserterOk(s, t, d, c)
    ensures InserterOk(Do(s, step), t, d, c)
  {
    NotInserting(s, step, t);
    NotInserting(s, step, d);
    if c in Do(s, step).chats { NotInserted(s, step, c); }
  }

  lemma NotInserting(s: State, step: Step, t: Thread)
    requires !step.StartApply?
    ensures PcOf(Do(s, step), t).Inserting? ==> PcOf(Do(s, step), t) == PcOf(s, t)
  {
  }

  lemma NotInserted(s: State, step: Step, c: ChatId)
    requires !step.Insert? && c in Do(s, step).chats
    ensures c in s.chats && Do(s, step).chats[c].room == s.chats[c].room
  {
  }

  lemma NoSecond(s: State, step: Step)
    requires forall c :: InserterOk(s, step.t, step.t, c)
    ensures !SecondInsert(s, step)
  {
    forall c
      ensures PcOf(s, step.t).Inserting? && c in s.chats ==> s.chats[c].room != PcOf(s, step.t).room
    {
      assert InserterOk(s, step.t, step.t, c);
    }
  }

  lemma {:induction false} OneEachFrom(s: State, steps: seq<Step>)
    requires OneEach(s) && LiveKnown(s) && AloneRun(s, steps)
    requires forall t, d, c :: InserterOk(s, t, d, c)
    ensures OneEach(Run(s, steps))
    decreases |steps|
  {
    if steps != [] {
      var step := steps[0];
      var r := Do(s, step);
      forall t, d, c ensures InserterOk(r, t, d, c) {
        assert InserterOk(s, t, d, c) && InserterOk(s, t, step.t, c) && InserterOk(s, d, t, c);
        InserterStep(s, step, t, d, c);
      }
      NoSecond(s, step);
      OneEachExactly(s, step);
      KnownStep(s, step);
      OneEachFrom(r, steps[1..]);
    }
  }

  /** A room has at most one live chat in every run in which nobody applies to it while
      another connection is about to insert one. */
  lemma OneEachRun(members: map<RoomId, seq<UserId>>, steps: seq<Step>)
    requires AloneRun(Init(members), steps)
    ensures OneEach(Run(Init(members), steps))
  {
    OneEachFrom(Init(members), steps);
  }

  function RacingApplies(t: Thread, d: Thread, u: UserId, v: UserId, room: RoomId, a: ChatId, b: ChatId): seq<Step> {
    [StartApply(t, u, room), StartApply(d, v, room), Insert(t, a), Insert(d, b)]
  }

  /** Otherwise, in any state: two idle connections that both find no chat each make one. */
  lemma TwoAtOnce(s: State, t: Thread, d: Thread, u: UserId, v: UserId, room: RoomId, a: ChatId, b: ChatId)
    requires t != d && PcOf(s, t) == PcOf(s, d) == Idle
    requires forall c :: c in s.chats ==> s.chats[c].room != room
    requires a != b && a !in s.fates && b !in s.fates
    ensures var r := Run(s, RacingApplies(t, d, u, v, room, a, b));
            a in r.chats && b in r.chats && r.chats[a].room == r.chats[b].room == room && !OneEach(r)
  {
    Run4(s, StartApply(t, u, room), StartApply(d, v, room), Insert(t, a), Insert(d, b));
    BothStart(s, t, d, u, v, room);
    BothInsert(Do(Do(s, StartApply(t, u, room)), StartApply(d, v, room)), t, d, a, b);
  }

  lemma BothStart(s: State, t: Thread, d: Thread, u: UserId, v: UserId, room: RoomId)
    requires t != d && PcOf(s, t) == PcOf(s, d) == Idle
    requires forall c :: c in s.chats ==> s.chats[c].room != room
    ensures var r := Do(Do(s, StartApply(t, u, room)), StartApply(d, v, room));
            PcOf(r, t) == Inserting(u, room) && PcOf(r, d) == Inserting(v, room) && r.fates == s.fates
  {
  }

  lemma BothInsert(s: State, t: Thread, d: Thread, a: ChatId, b: ChatId)
    requires t != d && PcOf(s, t).Inserting? && PcOf(s, d).Inserting?
    requires a != b && a !in s.fates && b !in s.fates
    ensures var r := Do(Do(s, Insert(t, a)), Insert(d, b));
            a in r.chats && b in r.chats && r.chats[a].room == PcOf(s, t).room && r.chats[b].room == PcOf(s, d).room
  {
  }
}
