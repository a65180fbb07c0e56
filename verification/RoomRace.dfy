/** The separate updates of createRoom, joinRoom and leaveRoom, interleaved: each function
    changes the room, then the watermarks, then the lists of channels, and any other
    connection may run in between. All users are known; the times of joins are not modelled. */
module RoomRace {

  type UserId = string
  type ChannelId = string
  type Thread = nat

  datatype Pc =
    | Idle
    | Shrinking(room: ChannelId, users: set<UserId>)               // leave: about to remove the room if empty
    | Marking(join: bool, room: ChannelId, users: set<UserId>)     // about to write `channel_stat`
    | Listing(join: bool, room: ChannelId, users: set<UserId>)     // about to write `uuid_channels`

  /** `tracked` and `listed` hold the pairs that `user_info` and `uuid_channels` hold. `emptier`
      is history: the last connection that left a room empty. */
  datatype State = State(
    rooms: map<ChannelId, set<UserId>>,
    tracked: set<(ChannelId, UserId)>,
    listed: set<(ChannelId, UserId)>,
    threads: map<Thread, Pc>,
    emptier: map<ChannelId, Thread>)

  datatype Step =
    | Create(t: Thread, room: ChannelId, owner: UserId)
    | Join(t: Thread, room: ChannelId, users: set<UserId>)
    | Leave(t: Thread, room: ChannelId, users: set<UserId>)
    | Shrink(t: Thread)
    | Mark(t: Thread)
    | List(t: Thread)

  function PcOf(s: State, t: Thread): Pc {
    if t in s.threads then s.threads[t] else Idle
  }

  function Goto(s: State, t: Thread, pc: Pc): State {
    s.(threads := s.threads[t := pc])
  }

  function Pairs(c: ChannelId, us: set<UserId>): set<(ChannelId, UserId)> {
    set u | u in us :: (c, u)
  }

  function Written(pairs: set<(ChannelId, UserId)>, pc: Pc): set<(ChannelId, UserId)>
    requires pc.Marking? || pc.Listing?
  {
    if pc.join then pairs + Pairs(pc.room, pc.users) else pairs - Pairs(pc.room, pc.users)
  }

  function Do(s: State, step: Step): State {
    var pc := PcOf(s, step.t);
    match step
    case Create(t, c, owner) =>
      if pc != Idle || c in s.rooms then s
      else Goto(s, t, Marking(true, c, {owner})).(rooms := s.rooms[c := {owner}])
    case Join(t, c, us) =>
      if pc != Idle || c !in s.rooms then s
      else Goto(s, t, Marking(true, c, us)).(rooms := s.rooms[c := s.rooms[c] + us])
    case Leave(t, c, us) =>
      if pc != Idle || c !in s.rooms then s
      else
        Goto(s, t, Shrinking(c, us)).(
          rooms := s.rooms[c := s.rooms[c] - us],
          emptier := if s.rooms[c] - us == {} then s.emptier[c := t] else s.emptier)
    case Shrink(t) =>
      if !pc.Shrinking? then s
      else
        Goto(s, t, Marking(false, pc.room, pc.users)).(
          rooms := if pc.room in s.rooms && s.rooms[pc.room] == {} then s.rooms - {pc.room} else s.rooms)
    case Mark(t) =>
      if !pc.Marking? then s
      else Goto(s, t, Listing(pc.join, pc.room, pc.users)).(tracked := Written(s.tracked, pc))
    case List(t) =>
      if !pc.Listing? then s
      else Goto(s, t, Idle).(listed := Written(s.listed, pc))
  }

  function Run(s: State, steps: seq<Step>): State
    decreases |steps|
  {
    if steps == [] then s else Run(Do(s, steps[0]), steps[1..])
  }

  predicate Member(s: State, c: ChannelId, u: UserId) { c in s.rooms && u in s.rooms[c] }

  // ---- The invariant --------------------------------------------------------------------

  /** `t` still has the watermark of `u` in `c` to write, as a join or as a leave does. */
  predicate WillMark(s: State, t: Thread, c: ChannelId, u: UserId, join: bool) {
    var pc := PcOf(s, t);
    && !pc.Idle? && pc.room == c && u in pc.users
    && ((pc.Shrinking? && !join) || (pc.Marking? && pc.join == join))
  }

  predicate WillList(s: State, t: Thread, c: ChannelId, u: UserId, join: bool) {
    WillMark(s, t, c, u, join)
    || (PcOf(s, t).Listing? && PcOf(s, t).room == c && u in PcOf(s, t).users && PcOf(s, t).join == join)
  }

  /** Where another collection differs from the room, somebody is going to write it as the room
      has it. */
  ghost predicate MarkedOk(s: State, c: ChannelId, u: UserId) {
    var m := Member(s, c, u);
    (((c, u) in s.tracked) != m ==> exists t :: WillMark(s, t, c, u, m))
  }

  ghost predicate ListedOk(s: State, c: ChannelId, u: UserId) {
    var m := Member(s, c, u);
    (((c, u) in s.listed) != m ==> exists t :: WillList(s, t, c, u, m))
  }

  ghost predicate Inv(s: State) {
    (forall c, u :: MarkedOk(s, c, u)) && (forall c, u :: ListedOk(s, c, u))
  }

  /** The connection writes a watermark against what the room says by now, and nobody else is
      going to put it right. */
  ghost predicate MarksLate(s: State, step: Step, c: ChannelId, u: UserId) {
    var pc := PcOf(s, step.t);
    && step.Mark? && pc.Marking? && pc.room == c && u in pc.users && pc.join != Member(s, c, u)
    && forall t :: t != step.t ==> !WillMark(s, t, c, u, Member(s, c, u))
  }

  ghost predicate ListsLate(s: State, step: Step, c: ChannelId, u: UserId) {
    var pc := PcOf(s, step.t);
    && step.List? && pc.Listing? && pc.room == c && u in pc.users && pc.join != Member(s, c, u)
    && forall t :: t != step.t ==> !WillList(s, t, c, u, Member(s, c, u))
  }

  ghost predicate Late(s: State, step: Step) {
    exists c, u :: MarksLate(s, step, c, u) || ListsLate(s, step, c, u)
  }

  lemma OthersStay(s: State, step: Step, t: Thread)
    requires t != step.t
    ensures PcOf(Do(s, step), t) == PcOf(s, t)
  {
  }

  /** Who changes a membership goes on to write it to the other collections. */
  lemma MemberStep(s: State, step: Step, c: ChannelId, u: UserId)
    ensures var r := Do(s, step);
            Member(r, c, u) == Member(s, c, u) || WillMark(r, step.t, c, u, Member(r, c, u))
  {
  }

  lemma MarkedStep(s: State, step: Step, c: ChannelId, u: UserId)
    requires MarkedOk(s, c, u)
    ensures MarkedOk(Do(s, step), c, u) <==> !MarksLate(s, step, c, u)
  {
    var r, pc, m := Do(s, step), PcOf(s, step.t), Member(s, c, u);
    MemberStep(s, step, c, u);
    assert forall t :: t != step.t ==> WillMark(s, t, c, u, m) == WillMark(r, t, c, u, m) by {
      forall t | t != step.t ensures WillMark(s, t, c, u, m) == WillMark(r, t, c, u, m) { OthersStay(s, step, t); }
    }
    assert WillMark(s, step.t, c, u, m) ==> WillMark(r, step.t, c, u, m) || (step.Mark? && pc.Marking?);
  }

  lemma ListedStep(s: State, step: Step, c: ChannelId, u: UserId)
    requires ListedOk(s, c, u)
    ensures ListedOk(Do(s, step), c, u) <==> !ListsLate(s, step, c, u)
  {
    var r, pc, m := Do(s, step), PcOf(s, step.t), Member(s, c, u);
    forall t | t != step.t
      ensures WillList(s, t, c, u, m) == WillList(r, t, c, u, m)
    {
      OthersStay(s, step, t);
    }
    if ListsLate(s, step, c, u) {
      assert Member(r, c, u) == m && PcOf(r, step.t) == Idle && ((c, u) in r.listed) != m;
    } else if Member(r, c, u) == m {
      assert WillList(s, step.t, c, u, m) ==> WillList(r, step.t, c, u, m) || (step.List? && pc.Listing?);
    } else {
      MemberStep(s, step, c, u);
      assert WillList(r, step.t, c, u, Member(r, c, u));
    }
  }

  /** One step keeps the collections on their way to agreement exactly if it is not a late
      write of a join or leave that another one has overtaken. */
  lemma InvStep(s: State, step: Step)
    requires Inv(s)
    ensures Inv(Do(s, step)) <==> !Late(s, step)
  {
    var r := Do(s, step);
    forall c, u
      ensures MarkedOk(r, c, u) <==> !MarksLate(s, step, c, u)
      ensures ListedOk(r, c, u) <==> !ListsLate(s, step, c, u)
    {
      assert MarkedOk(s, c, u) && ListedOk(s, c, u);
      MarkedStep(s, step, c, u);
      ListedStep(s, step, c, u);
    }
  }

  ghost predicate NeverLate(s: State, steps: seq<Step>)
    decreases |steps|
  {
    steps == [] || (!Late(s, steps[0]) && NeverLate(Do(s, steps[0]), steps[1..]))
  }

  lemma {:induction false} InvRun(s: State, steps: seq<Step>)
    requires Inv(s) && NeverLate(s, steps)
    ensures Inv(Run(s, steps))
    decreases |steps|
  {
    if steps != [] {
      InvStep(s, steps[0]);
      InvRun(Do(s, steps[0]), steps[1..]);
    }
  }

  ghost predicate Quiet(s: State) {
    forall t :: PcOf(s, t).Idle?
  }

  /** The three collections say the same. */
  ghost predicate Agree(s: State) {
    forall c, u :: (Member(s, c, u) <==> (c, u) in s.tracked) && (Member(s, c, u) <==> (c, u) in s.listed)
  }

  lemma RestAgrees(s: State)
    requires Quiet(s)
    ensures Inv(s) <==> Agree(s)
  {
    if Inv(s) {
      forall c, u
        ensures (Member(s, c, u) <==> (c, u) in s.tracked) && (Member(s, c, u) <==> (c, u) in s.listed)
      {
        assert MarkedOk(s, c, u) && ListedOk(s, c, u);
        assert forall t :: PcOf(s, t).Idle? ==> !WillMark(s, t, c, u, Member(s, c, u));
        assert forall t :: PcOf(s, t).Idle? ==> !WillList(s, t, c, u, Member(s, c, u));
      }
    }
  }

  /** However the updates of creations, joins and leaves interleave, without a late write: from
      rest to rest the three collections stay mutual inverses. */
  lemma AgreeRun(s: State, steps: seq<Step>)
    requires Quiet(s) && Agree(s) && NeverLate(s, steps) && Quiet(Run(s, steps))
    ensures Agree(Run(s, steps))
  {
    RestAgrees(s);
    InvRun(s, steps);
    RestAgrees(Run(s, steps));
  }

  // ---- A late write stays -------------------------------------------------------------------

  /** The steps of commands that have begun. */
  predicate InFlight(step: Step) {
    step.Shrink? || step.Mark? || step.List?
  }

  predicate AllInFlight(steps: seq<Step>) {
    forall i :: 0 <= i < |steps| ==> InFlight(steps[i])
  }

  lemma UnmarkedStep(s: State, step: Step, c: ChannelId, u: UserId)
    requires InFlight(step) && !MarkedOk(s, c, u)
    ensures !MarkedOk(Do(s, step), c, u)
  {
    var r, m := Do(s, step), Member(s, c, u);
    assert !WillMark(s, step.t, c, u, m);
    assert Member(r, c, u) == m && ((c, u) in r.tracked) != m;
    forall t ensures !WillMark(r, t, c, u, m) {
      assert !WillMark(s, t, c, u, m);
      if t != step.t { OthersStay(s, step, t); }
    }
  }

  lemma UnlistedStep(s: State, step: Step, c: ChannelId, u: UserId)
    requires InFlight(step) && !ListedOk(s, c, u)
    ensures !ListedOk(Do(s, step), c, u)
  {
    var r, m := Do(s, step), Member(s, c, u);
    assert !WillList(s, step.t, c, u, m);
    assert Member(r, c, u) == m && ((c, u) in r.listed) != m;
    forall t ensures !WillList(r, t, c, u, m) {
      assert !WillList(s, t, c, u, m);
      if t != step.t { OthersStay(s, step, t); }
    }
  }

  lemma {:induction false} LateForGood(s: State, steps: seq<Step>)
    requires AllInFlight(steps) && !Inv(s)
    ensures !Inv(Run(s, steps)) && !Agree(Run(s, steps))
    decreases |steps|
  {
    if steps == [] {
      if Agree(s) {
        forall c, u ensures MarkedOk(s, c, u) && ListedOk(s, c, u) {
          assert (Member(s, c, u) <==> (c, u) in s.tracked) && (Member(s, c, u) <==> (c, u) in s.listed);
        }
      }
    } else {
      var r := Do(s, steps[0]);
      if c, u :| !MarkedOk(s, c, u) {
        UnmarkedStep(s, steps[0], c, u);
      } else {
        var c, u :| !ListedOk(s, c, u);
        UnlistedStep(s, steps[0], c, u);
      }
      LateForGood(r, steps[1..]);
    }
  }

  /** After any late write, whatever the commands that have begun do: until another one starts,
      the collections disagree, at rest and before. */
  lemma LateIsReal(s: State, step: Step, steps: seq<Step>)
    requires Inv(s) && Late(s, step) && AllInFlight(steps)
    ensures !Agree(Run(Do(s, step), steps))
  {
    InvStep(s, step);
    LateForGood(Do(s, step), steps);
  }

  // ---- Empty rooms ----------------------------------------------------------------------

  predicate EmptyOk(s: State, c: ChannelId) {
    c in s.rooms && s.rooms[c] == {} ==>
      c in s.emptier && PcOf(s, s.emptier[c]).Shrinking? && PcOf(s, s.emptier[c]).room == c
  }

  lemma EmptyStep(s: State, step: Step, c: ChannelId)
    requires EmptyOk(s, c)
    ensures EmptyOk(Do(s, step), c)
  {
    if c in s.emptier && s.emptier[c] != step.t { OthersStay(s, step, s.emptier[c]); }
  }

  lemma {:induction false} EmptyRun(s: State, steps: seq<Step>, c: ChannelId)
    requires EmptyOk(s, c)
    ensures EmptyOk(Run(s, steps), c)
    decreases |steps|
  {
    if steps != [] {
      EmptyStep(s, steps[0], c);
      EmptyRun(Do(s, steps[0]), steps[1..], c);
    }
  }

  /** An empty room has a connection about to remove it; so at rest there is none. */
  lemma NoEmptyRoomAtRest(s: State, steps: seq<Step>, c: ChannelId)
    requires (c in s.rooms ==> s.rooms[c] != {}) && Quiet(Run(s, steps))
    ensures c in Run(s, steps).rooms ==> Run(s, steps).rooms[c] != {}
  {
    EmptyRun(s, steps, c);
    assert forall t :: PcOf(Run(s, steps), t).Idle?;
  }

  // ---- How a late write comes about -------------------------------------------------------

  /** A whole leave, undisturbed. */
  function LeaveAll(s: State, d: Thread, c: ChannelId, us: set<UserId>): State {
    Do(Do(Do(Do(s, Leave(d, c, us)), Shrink(d)), Mark(d)), List(d))
  }

  lemma LeaveAlone(s: State, t: Thread, d: Thread, c: ChannelId, us: set<UserId>, u: UserId)
    requires t != d && PcOf(s, d) == Idle && c in s.rooms && u in us
    ensures var r := LeaveAll(s, d, c, us); PcOf(r, t) == PcOf(s, t) && PcOf(r, d) == Idle && !Member(r, c, u)
  {
    var a := Do(s, Leave(d, c, us));
    var b := Do(a, Shrink(d));
    var e := Do(b, Mark(d));
    assert PcOf(a, d) == Shrinking(c, us) && PcOf(b, d) == Marking(false, c, us) && PcOf(e, d) == Listing(false, c, us);
    assert !Member(a, c, u) && !Member(b, c, u) && e.rooms == b.rooms;
  }

  lemma LateEnd(s: State, t: Thread, c: ChannelId, u: UserId)
    requires PcOf(s, t) == Marking(true, c, {u})
    ensures var r := Do(Do(s, Mark(t)), List(t));
            PcOf(r, t) == Idle && r.rooms == s.rooms && (c, u) in r.tracked && (c, u) in r.listed
  {
    assert (c, u) in Pairs(c, {u});
  }

  /** In any state: a leave that overtakes a join of the same user leaves watermark and list of
      a room that the user is not in. */
  lemma JoinOvertaken(s: State, t: Thread, d: Thread, c: ChannelId, u: UserId)
    requires t != d && PcOf(s, t) == PcOf(s, d) == Idle && c in s.rooms
    ensures var r := Do(Do(LeaveAll(Do(s, Join(t, c, {u})), d, c, {u}), Mark(t)), List(t));
            PcOf(r, t) == Idle && !Member(r, c, u) && (c, u) in r.tracked && (c, u) in r.listed
  {
    var begun := Do(s, Join(t, c, {u}));
    assert PcOf(begun, t) == Marking(true, c, {u}) && PcOf(begun, d) == Idle;
    LeaveAlone(begun, t, d, c, {u}, u);
    LateEnd(LeaveAll(begun, d, c, {u}), t, c, u);
  }

  // ---- Commands that nobody interrupts ----------------------------------------------------

  /** `u` is in `c` as before, except that the users `us` of `room` now are in or out. */
  predicate Changed(before: bool, after: bool, c: ChannelId, u: UserId, room: ChannelId, us: set<UserId>, join: bool) {
    after == if c == room && u in us then join else before
  }

  ghost predicate AllChanged(s: State, r: State, room: ChannelId, us: set<UserId>, join: bool) {
    forall c, u ::
      && Changed(Member(s, c, u), Member(r, c, u), c, u, room, us, join)
      && Changed((c, u) in s.tracked, (c, u) in r.tracked, c, u, room, us, join)
      && Changed((c, u) in s.listed, (c, u) in r.listed, c, u, room, us, join)
  }

  /** An undisturbed join puts exactly the given users into the room, in all collections. */
  lemma JoinAlone(s: State, t: Thread, c: ChannelId, us: set<UserId>)
    requires PcOf(s, t) == Idle && c in s.rooms
    ensures var r := Do(Do(Do(s, Join(t, c, us)), Mark(t)), List(t));
            PcOf(r, t) == Idle && r.rooms.Keys == s.rooms.Keys && AllChanged(s, r, c, us, true)
  {
  }

  /** An undisturbed creation makes the room with its owner as the only member. */
  lemma CreateAlone(s: State, t: Thread, c: ChannelId, owner: UserId)
    requires PcOf(s, t) == Idle && c !in s.rooms
    ensures var r := Do(Do(Do(s, Create(t, c, owner)), Mark(t)), List(t));
            PcOf(r, t) == Idle && r.rooms == s.rooms[c := {owner}] && AllChanged(s, r, c, {owner}, true)
  {
  }

  /** An undisturbed leave takes exactly the given users out, and the room away if it is empty. */
  lemma LeaveWhole(s: State, t: Thread, c: ChannelId, us: set<UserId>)
    requires PcOf(s, t) == Idle && c in s.rooms
    ensures var r := LeaveAll(s, t, c, us);
            && PcOf(r, t) == Idle && AllChanged(s, r, c, us, false)
            && (c in r.rooms <==> s.rooms[c] - us != {})
            && forall d :: d != c ==> (d in r.rooms <==> d in s.rooms)
  {
    var a := Do(s, Leave(t, c, us));
    var b := Do(a, Shrink(t));
    var e := Do(b, Mark(t));
    var r := Do(e, List(t));
    assert PcOf(a, t) == Shrinking(c, us) && a.tracked == s.tracked && a.listed == s.listed;
    assert PcOf(b, t) == Marking(false, c, us) && b.tracked == s.tracked && b.listed == s.listed;
    assert PcOf(e, t) == Listing(false, c, us) && e.rooms == b.rooms && e.listed == s.listed;
    assert e.tracked == s.tracked - Pairs(c, us) && r.listed == s.listed - Pairs(c, us) && r.tracked == e.tracked;
    forall d, u
      ensures Member(b, d, u) == if d == c && u in us then false else Member(s, d, u)
      ensures (d, u) in Pairs(c, us) <==> d == c && u in us
    {
      assert Member(a, d, u) == if d == c && u in us then false else Member(s, d, u);
    }
  }
}
