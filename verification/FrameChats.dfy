/** Temporary audio/video chats ("frame chats"). Every command runs several separate
    database operations, each atomic on one document, and any other connection may run
    between two of them. The model is a machine with one program counter a connection;
    a step that its connection is not ready for changes nothing, so every list of steps
    is a run. */
module FrameChats {
  import opened Mongo

  type UserId = string
  type RoomId = string
  type ChatId = nat    // an object id
  type Thread = nat    // a connection; it runs one command at a time

  /** A document of `unstable_info`. */
  datatype Chat = Chat(room: RoomId, proposer: UserId, active: seq<UserId>)

  datatype Pc =
    | Idle
    | Inserting(user: UserId, room: RoomId)   // apply: found no chat of the room
    | Indexing(room: RoomId, chat: ChatId)    // apply: inserted; members' lists not written yet
    | Undoing(chat: ChatId)                   // apply: that write failed; removal pending
    | Visiting(user: UserId, rest: seq<ChatId>, closing: bool)  // about to pull `user` from rest[0]
    | Deleting(user: UserId, chat: ChatId, room: RoomId, rest: seq<ChatId>, closing: bool)  // about to delete if empty
    | Cleaning(user: UserId, chat: ChatId, room: RoomId, rest: seq<ChatId>, closing: bool)  // deleted; lists next
    | Noticing(user: UserId, chat: ChatId, rest: seq<ChatId>, closing: bool)  // cleaned; final notice pending

  /** History of an inserted chat: its room and the connection that inserted it; whether it
      was pushed to the members' lists, or given up because that write failed; the last
      connection that pulled it empty and the one that deleted it; whether it was pulled
      from the lists by the clean-up, pushed after that, and announced as dismissed. */
  datatype Fate = Fate(room: RoomId, owner: Thread, indexed: bool, undone: bool, emptier: Thread,
                       finisher: Thread, cleaned: bool, stale: bool, announced: bool)

  /** `fates` is history: no other component depends on it, except that object ids are not
      issued twice. */
  datatype State = State(
    members: map<RoomId, seq<UserId>>,
    chats: map<ChatId, Chat>,
    index: map<UserId, seq<ChatId>>,
    notices: seq<ChatId>,
    threads: map<Thread, Pc>,
    fates: map<ChatId, Fate>)

  datatype Step =
    | StartApply(t: Thread, user: UserId, room: RoomId)
    | Insert(t: Thread, newId: ChatId)
    | IndexOk(t: Thread)
    | IndexFail(t: Thread)
    | Undo(t: Thread)
    | Join(t: Thread, user: UserId, chat: ChatId)       // frame_join and frame_accept
    | StartOut(t: Thread, user: UserId, chat: ChatId)   // frame_out and frame_dismiss
    | StartClose(t: Thread, user: UserId)               // disconnect
    | PullSelf(t: Thread)
    | Delete(t: Thread)
    | Clean(t: Thread)
    | Notice(t: Thread)

  function PcOf(s: State, t: Thread): Pc {
    if t in s.threads then s.threads[t] else Idle
  }

  function Past(s: State, c: ChatId): Fate {
    if c in s.fates then s.fates[c] else Fate("", 0, false, false, 0, 0, false, false, false)
  }

  function Members(s: State, room: RoomId): seq<UserId> {
    if room in s.members then s.members[room] else []
  }

  /** A user's `frame_chat` list; a missing document has none. */
  function At(index: map<UserId, seq<ChatId>>, u: UserId): seq<ChatId> {
    if u in index then index[u] else []
  }

  function PushTo(index: map<UserId, seq<ChatId>>, users: seq<UserId>, c: ChatId): map<UserId, seq<ChatId>> {
    if users == [] then index
    else
      var u := users[|users| - 1];
      var r := PushTo(index, users[..|users| - 1], c);
      r[u := At(r, u) + [c]]
  }

  function PullFrom(index: map<UserId, seq<ChatId>>, users: seq<UserId>, c: ChatId): map<UserId, seq<ChatId>> {
    if users == [] then index
    else
      var u := users[|users| - 1];
      var r := PullFrom(index, users[..|users| - 1], c);
      r[u := Pull(At(r, u), c)]
  }

  lemma {:induction false} PushedAt(index: map<UserId, seq<ChatId>>, users: seq<UserId>, c: ChatId, u: UserId)
    requires NoDup(users)
    ensures At(PushTo(index, users, c), u) == if u in users then At(index, u) + [c] else At(index, u)
    decreases |users|
  {
    if users != [] {
      PushedAt(index, users[..|users| - 1], c, u);
    }
  }

  lemma {:induction false} PulledAt(index: map<UserId, seq<ChatId>>, users: seq<UserId>, c: ChatId, u: UserId)
    requires NoDup(users)
    ensures At(PullFrom(index, users, c), u) == if u in users then Pull(At(index, u), c) else At(index, u)
    decreases |users|
  {
    if users != [] {
      PulledAt(index, users[..|users| - 1], c, u);
    }
  }

  function Next(u: UserId, rest: seq<ChatId>, closing: bool): Pc {
    if rest == [] then Idle else Visiting(u, rest, closing)
  }

  function Goto(s: State, t: Thread, pc: Pc): State {
    s.(threads := s.threads[t := pc])
  }

  function DoStartApply(s: State, t: Thread, u: UserId, room: RoomId): State {
    if PcOf(s, t) != Idle || exists c :: c in s.chats && s.chats[c].room == room then s
    else Goto(s, t, Inserting(u, room))
  }

  function DoInsert(s: State, t: Thread, c: ChatId): State {
    var pc := PcOf(s, t);
    if !pc.Inserting? || c in s.fates then s
    else s.(threads := s.threads[t := Indexing(pc.room, c)],
           chats := s.chats[c := Chat(pc.room, pc.user, [pc.user])],
           fates := s.fates[c := Fate(pc.room, t, false, false, t, t, false, false, false)])
  }

  function DoIndexOk(s: State, t: Thread): State {
    var pc := PcOf(s, t);
    if !pc.Indexing? then s
    else s.(threads := s.threads[t := Idle],
           index := PushTo(s.index, Members(s, pc.room), pc.chat),
           fates := s.fates[pc.chat := Past(s, pc.chat).(indexed := true, stale := Past(s, pc.chat).cleaned)])
  }

  function DoUndo(s: State, t: Thread): State {
    var pc := PcOf(s, t);
    if !pc.Undoing? then s
    else s.(threads := s.threads[t := Idle], chats := s.chats - {pc.chat},
           fates := s.fates[pc.chat := Past(s, pc.chat).(undone := true)])
  }

  function DoJoin(s: State, t: Thread, u: UserId, c: ChatId): State {
    if PcOf(s, t) != Idle || c !in s.chats then s
    else s.(chats := s.chats[c := s.chats[c].(active := s.chats[c].active + [u])])
  }

  function DoPullSelf(s: State, t: Thread): State {
    var pc := PcOf(s, t);
    if !pc.Visiting? || pc.rest == [] then s
    else
      var c, rest := pc.rest[0], pc.rest[1..];
      if c !in s.chats then Goto(s, t, Next(pc.user, rest, pc.closing))
      else
        var chat := s.chats[c].(active := Pull(s.chats[c].active, pc.user));
        var next := if pc.closing || chat.active == []
                    then Deleting(pc.user, c, chat.room, rest, pc.closing)
                    else Next(pc.user, rest, pc.closing);
        s.(threads := s.threads[t := next], chats := s.chats[c := chat],
           fates := if chat.active == [] then s.fates[c := Past(s, c).(emptier := t)] else s.fates)
  }

  function DoDelete(s: State, t: Thread): State {
    var pc := PcOf(s, t);
    if !pc.Deleting? then s
    else if pc.chat in s.chats && s.chats[pc.chat].active == [] then
      s.(threads := s.threads[t := Cleaning(pc.user, pc.chat, pc.room, pc.rest, pc.closing)],
         chats := s.chats - {pc.chat}, fates := s.fates[pc.chat := Past(s, pc.chat).(finisher := t)])
    else Goto(s, t, Next(pc.user, pc.rest, pc.closing))
  }

  function DoClean(s: State, t: Thread): State {
    var pc := PcOf(s, t);
    if !pc.Cleaning? then s
    else s.(threads := s.threads[t := Noticing(pc.user, pc.chat, pc.rest, pc.closing)],
           index := PullFrom(s.index, Members(s, pc.room), pc.chat),
           fates := s.fates[pc.chat := Past(s, pc.chat).(cleaned := true)])
  }

  function DoNotice(s: State, t: Thread): State {
    var pc := PcOf(s, t);
    if !pc.Noticing? then s
    else s.(threads := s.threads[t := Next(pc.user, pc.rest, pc.closing)], notices := s.notices + [pc.chat],
           fates := s.fates[pc.chat := Past(s, pc.chat).(announced := true)])
  }

  function Do(s: State, step: Step): State {
    var pc := PcOf(s, step.t);
    match step
    case StartApply(t, u, room) => DoStartApply(s, t, u, room)
    case Insert(t, c) => DoInsert(s, t, c)
    case IndexOk(t) => DoIndexOk(s, t)
    case IndexFail(t) => if !pc.Indexing? then s else Goto(s, t, Undoing(pc.chat))
    case Undo(t) => DoUndo(s, t)
    case Join(t, u, c) => DoJoin(s, t, u, c)
    case StartOut(t, u, c) => if pc != Idle then s else Goto(s, t, Visiting(u, [c], false))
    case StartClose(t, u) => if pc != Idle then s else Goto(s, t, Next(u, At(s.index, u), true))
    case PullSelf(t) => DoPullSelf(s, t)
    case Delete(t) => DoDelete(s, t)
    case Clean(t) => DoClean(s, t)
    case Notice(t) => DoNotice(s, t)
  }

  function Run(s: State, steps: seq<Step>): State
    decreases |steps|
  {
    if steps == [] then s else Run(Do(s, steps[0]), steps[1..])
  }

  lemma {:induction false} RunSplit(s: State, a: seq<Step>, b: seq<Step>)
    ensures Run(s, a + b) == Run(Run(s, a), b)
    decreases |a|
  {
    if a == [] {
      assert a + b == b;
    } else {
      assert (a + b)[1..] == a[1..] + b;
      RunSplit(Do(s, a[0]), a[1..], b);
    }
  }

  function Init(members: map<RoomId, seq<UserId>>): State {
    State(members, map[], map[], [], map[], map[])
  }

  ghost predicate Rooms(members: map<RoomId, seq<UserId>>) {
    forall room :: room in members ==> NoDup(members[room])
  }

  // ---- A participant keeps the chat alive -------------------------------------------

  ghost predicate Live(s: State, u: UserId, c: ChatId) {
    c in s.chats && u in s.chats[c].active
  }

  /** The step is the pull of `u` from `c`, or an apply giving up `c`. */
  ghost predicate Leaves(s: State, step: Step, u: UserId, c: ChatId) {
    var pc := PcOf(s, step.t);
    || (step.PullSelf? && pc.Visiting? && pc.user == u && pc.rest != [] && pc.rest[0] == c)
    || (step.Undo? && pc.Undoing? && pc.chat == c)
  }

  ghost predicate NeverLeaves(s: State, steps: seq<Step>, u: UserId, c: ChatId)
    decreases |steps|
  {
    steps == [] || (!Leaves(s, steps[0], u, c) && NeverLeaves(Do(s, steps[0]), steps[1..], u, c))
  }

  lemma LeavesExactly(s: State, step: Step, u: UserId, c: ChatId)
    requires Live(s, u, c) && (step.Insert? ==> c in s.fates)
    ensures Live(Do(s, step), u, c) <==> !Leaves(s, step, u, c)
  {
  }

  /** Whatever the other connections do, a chat with `u` in it is there until `u` is pulled. */
  lemma {:induction false} ParticipantKeepsChat(s: State, steps: seq<Step>, u: UserId, c: ChatId)
    requires Live(s, u, c) && c in s.fates
    ensures NeverLeaves(s, steps, u, c) ==> Live(Run(s, steps), u, c)
    decreases |steps|
  {
    if steps != [] && NeverLeaves(s, steps, u, c) {
      LeavesExactly(s, steps[0], u, c);
      ParticipantKeepsChat(Do(s, steps[0]), steps[1..], u, c);
    }
  }

  // ---- The invariant --------------------------------------------------------------------

  predicate Owns(pc: Pc, c: ChatId) {
    (pc.Indexing? || pc.Undoing?) && pc.chat == c
  }

  /** The facts of one chat's history. */
  predicate FateOk(s: State, c: ChatId) {
    var f := Past(s, c);
    && (c in s.chats ==> c in s.fates && s.chats[c].room == f.room)
    && (f.cleaned ==> c !in s.chats) && (f.announced ==> f.cleaned)
    && (f.stale ==> f.cleaned && f.indexed) && !(f.undone && f.indexed)
  }

  predicate NoticeOk(s: State, c: ChatId) {
    c in s.notices <==> Past(s, c).announced
  }

  /** A live chat is in the lists, or its apply is on the way. */
  predicate OwnedOk(s: State, c: ChatId) {
    c in s.chats && !Past(s, c).indexed ==> Owns(PcOf(s, Past(s, c).owner), c)
  }

  /** An empty chat has a connection about to delete it. */
  predicate EmptyOk(s: State, c: ChatId) {
    c in s.chats && s.chats[c].active == [] ==>
      var pc := PcOf(s, Past(s, c).emptier); pc.Deleting? && pc.chat == c
  }

  /** A deleted chat that was not given up has been cleaned and announced, or the connection
      that deleted it is about to. */
  predicate GoneOk(s: State, c: ChatId) {
    var f := Past(s, c);
    && (c in s.fates && c !in s.chats && !f.undone && !f.cleaned ==>
          PcOf(s, f.finisher).Cleaning? && PcOf(s, f.finisher).chat == c)
    && (f.cleaned && !f.announced ==> PcOf(s, f.finisher).Noticing? && PcOf(s, f.finisher).chat == c)
  }

  predicate ChatOk(s: State, c: ChatId) {
    FateOk(s, c) && NoticeOk(s, c) && OwnedOk(s, c) && EmptyOk(s, c) && GoneOk(s, c)
  }

  /** What holds of one connection: it remembers the room, and it alone is responsible. */
  predicate ThreadOk(s: State, t: Thread) {
    var pc := PcOf(s, t);
    && (pc.Indexing? || pc.Undoing? ==>
          var f := Past(s, pc.chat); pc.chat in s.fates && f.owner == t && !f.indexed && !f.undone)
    && (pc.Indexing? || pc.Deleting? || pc.Cleaning? ==> pc.chat in s.fates && Past(s, pc.chat).room == pc.room)
    && (pc.Cleaning? || pc.Noticing? ==>
          var f := Past(s, pc.chat);
          pc.chat in s.fates && f.finisher == t && pc.chat !in s.chats && f.cleaned == pc.Noticing? && !f.announced)
  }

  /** What holds of one entry of one list: it is a chat of the user's rooms that was pushed
      and has not been pulled since. */
  predicate EntryOk(s: State, u: UserId, c: ChatId) {
    var f := Past(s, c);
    c in At(s.index, u) <==> f.indexed && u in Members(s, f.room) && (!f.cleaned || f.stale)
  }

  ghost predicate Inv(s: State) {
    && Rooms(s.members)
    && NoDup(s.notices)
    && (forall c :: ChatOk(s, c))
    && (forall t :: ThreadOk(s, t))
    && (forall u, c :: EntryOk(s, u, c))
    && (forall u :: NoDup(At(s.index, u)))
  }

  /** The steps of a departure; the others start a command or belong to apply and join. */
  predicate Departs(step: Step) {
    step.PullSelf? || step.Delete? || step.Clean? || step.Notice?
  }

  lemma OthersStay(s: State, step: Step, t: Thread)
    requires t != step.t
    ensures PcOf(Do(s, step), t) == PcOf(s, t)
  {
  }

  lemma FateStep(s: State, step: Step, c: ChatId)
    requires FateOk(s, c) && ThreadOk(s, step.t)
    ensures FateOk(Do(s, step), c)
  {
  }

  lemma NoticeStep(s: State, step: Step, c: ChatId)
    requires NoticeOk(s, c) && ThreadOk(s, step.t)
    ensures NoticeOk(Do(s, step), c)
  {
  }

  lemma OwnedStep(s: State, step: Step, c: ChatId)
    requires OwnedOk(s, c) && (c in s.chats ==> c in s.fates)
    ensures OwnedOk(Do(s, step), c)
  {
    if Departs(step) { OwnedDepart(s, step, c); } else { OwnedArrive(s, step, c); }
  }

  lemma OwnedDepart(s: State, step: Step, c: ChatId)
    requires Departs(step) && OwnedOk(s, c)
    ensures OwnedOk(Do(s, step), c)
  {
    var owner := Past(s, c).owner;
    if owner != step.t { OthersStay(s, step, owner); }
  }

  lemma OwnedArrive(s: State, step: Step, c: ChatId)
    requires !Departs(step) && OwnedOk(s, c) && (c in s.chats ==> c in s.fates)
    ensures OwnedOk(Do(s, step), c)
  {
    var owner := Past(s, c).owner;
    if owner != step.t { OthersStay(s, step, owner); }
  }

  lemma EmptyStep(s: State, step: Step, c: ChatId)
    requires EmptyOk(s, c) && FateOk(s, c)
    ensures EmptyOk(Do(s, step), c)
  {
    if step.PullSelf? {
      EmptyPull(s, step.t, c);
    } else if Departs(step) {
      EmptyDepart(s, step, c);
    } else {
      EmptyArrive(s, step, c);
    }
  }

  lemma EmptyPull(s: State, t: Thread, c: ChatId)
    requires EmptyOk(s, c)
    ensures EmptyOk(Do(s, PullSelf(t)), c)
  {
    var pc := PcOf(s, t);
    if pc.Visiting? && pc.rest != [] && pc.rest[0] == c { EmptyPulled(s, t, c); } else { EmptyOther(s, t, c); }
  }

  lemma EmptyPulled(s: State, t: Thread, c: ChatId)
    requires EmptyOk(s, c) && PcOf(s, t).Visiting? && PcOf(s, t).rest != [] && PcOf(s, t).rest[0] == c
    ensures EmptyOk(DoPullSelf(s, t), c)
  {
  }

  lemma EmptyOther(s: State, t: Thread, c: ChatId)
    requires EmptyOk(s, c) && !(PcOf(s, t).Visiting? && PcOf(s, t).rest != [] && PcOf(s, t).rest[0] == c)
    ensures EmptyOk(DoPullSelf(s, t), c)
  {
  }

  lemma EmptyDepart(s: State, step: Step, c: ChatId)
    requires Departs(step) && !step.PullSelf? && EmptyOk(s, c)
    ensures EmptyOk(Do(s, step), c)
  {
    var emptier := Past(s, c).emptier;
    if emptier != step.t { OthersStay(s, step, emptier); }
  }

  lemma EmptyArrive(s: State, step: Step, c: ChatId)
    requires !Departs(step) && EmptyOk(s, c) && FateOk(s, c)
    ensures EmptyOk(Do(s, step), c)
  {
    var emptier := Past(s, c).emptier;
    if emptier != step.t { OthersStay(s, step, emptier); }
  }

  lemma GoneStep(s: State, step: Step, c: ChatId)
    requires FateOk(s, c) && GoneOk(s, c) && ThreadOk(s, step.t)
    ensures GoneOk(Do(s, step), c)
  {
    if Departs(step) { GoneDepart(s, step, c); } else { GoneArrive(s, step, c); }
  }

  lemma GoneDepart(s: State, step: Step, c: ChatId)
    requires Departs(step)
    requires FateOk(s, c) && GoneOk(s, c) && ThreadOk(s, step.t)
    ensures GoneOk(Do(s, step), c)
  {
    var finisher := Past(s, c).finisher;
    if finisher != step.t { OthersStay(s, step, finisher); }
  }

  lemma GoneArrive(s: State, step: Step, c: ChatId)
    requires !Departs(step)
    requires FateOk(s, c) && GoneOk(s, c) && ThreadOk(s, step.t)
    ensures GoneOk(Do(s, step), c)
  {
    var finisher := Past(s, c).finisher;
    if finisher != step.t { OthersStay(s, step, finisher); }
  }

  lemma ThreadStep(s: State, step: Step, t: Thread)
    requires ThreadOk(s, t) && ThreadOk(s, step.t)
    requires forall c :: FateOk(s, c)
    ensures ThreadOk(Do(s, step), t)
  {
    if t == step.t {
      MoverStep(s, step);
    } else {
      OthersStay(s, step, t);
      OtherStep(s, step, t);
    }
  }

  lemma MoverStep(s: State, step: Step)
    requires ThreadOk(s, step.t)
    requires forall c :: FateOk(s, c)
    ensures ThreadOk(Do(s, step), step.t)
  {
    var pc := PcOf(s, step.t);
    if Departs(step) {
      if pc.Visiting? && pc.rest != [] { assert FateOk(s, pc.rest[0]); }
      if pc.Deleting? { assert FateOk(s, pc.chat); }
      MoverDeparts(s, step);
    } else {
      MoverArrives(s, step);
    }
  }

  lemma MoverDeparts(s: State, step: Step)
    requires Departs(step) && ThreadOk(s, step.t)
    requires var pc := PcOf(s, step.t);
             (pc.Visiting? && pc.rest != [] ==> FateOk(s, pc.rest[0])) && (pc.Deleting? ==> FateOk(s, pc.chat))
    ensures ThreadOk(Do(s, step), step.t)
  {
  }

  lemma MoverArrives(s: State, step: Step)
    requires !Departs(step) && ThreadOk(s, step.t)
    ensures ThreadOk(Do(s, step), step.t)
  {
  }

  lemma OtherStep(s: State, step: Step, t: Thread)
    requires t != step.t && ThreadOk(s, t) && ThreadOk(s, step.t)
    requires PcOf(Do(s, step), t) == PcOf(s, t)
    ensures ThreadOk(Do(s, step), t)
  {
  }

  lemma EntryStep(s: State, step: Step, u: UserId, c: ChatId)
    requires Rooms(s.members) && EntryOk(s, u, c) && ThreadOk(s, step.t) && ChatOk(s, c)
    ensures EntryOk(Do(s, step), u, c)
  {
    ListChange(s, step, u);
  }

  /** Only the two bulk writes change a list. */
  lemma ListChange(s: State, step: Step, u: UserId)
    requires Rooms(s.members)
    ensures var pc, r := PcOf(s, step.t), Do(s, step);
            At(r.index, u) ==
              if step.IndexOk? && pc.Indexing? && u in Members(s, pc.room) then At(s.index, u) + [pc.chat]
              else if step.Clean? && pc.Cleaning? && u in Members(s, pc.room) then Pull(At(s.index, u), pc.chat)
              else At(s.index, u)
  {
    var pc := PcOf(s, step.t);
    if step.IndexOk? && pc.Indexing? {
      PushedAt(s.index, Members(s, pc.room), pc.chat, u);
    } else if step.Clean? && pc.Cleaning? {
      PulledAt(s.index, Members(s, pc.room), pc.chat, u);
    }
  }

  lemma ListStep(s: State, step: Step, u: UserId)
    requires Rooms(s.members) && ThreadOk(s, step.t) && NoDup(At(s.index, u))
    requires forall c :: EntryOk(s, u, c)
    ensures NoDup(At(Do(s, step).index, u))
  {
    var pc := PcOf(s, step.t);
    ListChange(s, step, u);
    if pc.Indexing? { assert EntryOk(s, u, pc.chat); }
    if pc.Cleaning? { PullAllNoDup(At(s.index, u), [pc.chat]); }
  }

  lemma InvStep(s: State, step: Step)
    requires Inv(s)
    ensures Inv(Do(s, step)) && Do(s, step).members == s.members
  {
    var r := Do(s, step);
    forall c ensures ChatOk(r, c) {
      assert ChatOk(s, c);
      FateStep(s, step, c);
      NoticeStep(s, step, c);
      OwnedStep(s, step, c);
      EmptyStep(s, step, c);
      GoneStep(s, step, c);
    }
    assert forall c :: ChatOk(s, c) ==> FateOk(s, c) && NoticeOk(s, c);
    forall t ensures ThreadOk(r, t) { ThreadStep(s, step, t); }
    forall u, c ensures EntryOk(r, u, c) { EntryStep(s, step, u, c); }
    forall u ensures NoDup(At(r.index, u)) { ListStep(s, step, u); }
    NoticesStep(s, step);
  }

  lemma NoticesStep(s: State, step: Step)
    requires NoDup(s.notices) && ThreadOk(s, step.t)
    requires forall c :: NoticeOk(s, c)
    ensures NoDup(Do(s, step).notices)
  {
    var pc := PcOf(s, step.t);
    if pc.Noticing? { assert NoticeOk(s, pc.chat); }
  }

  lemma {:induction false} InvRun(s: State, steps: seq<Step>)
    requires Inv(s)
    ensures Inv(Run(s, steps)) && Run(s, steps).members == s.members
    decreases |steps|
  {
    if steps != [] {
      InvStep(s, steps[0]);
      InvRun(Do(s, steps[0]), steps[1..]);
    }
  }

  /** From the empty database, in every run: a live chat nobody takes part in has a
      connection about to delete it. */
  lemma NoOrphan(members: map<RoomId, seq<UserId>>, steps: seq<Step>, c: ChatId)
    requires Rooms(members)
    ensures var s := Run(Init(members), steps);
            c in s.chats && s.chats[c].active == [] ==>
              exists t :: PcOf(s, t).Deleting? && PcOf(s, t).chat == c
  {
    InvRun(Init(members), steps);
    assert ChatOk(Run(Init(members), steps), c);
  }

  /** A chat is announced as dismissed at most once, and only after it is gone; once
      nothing is in flight, every chat that is gone was announced or given up. */
  lemma DismissedOnce(members: map<RoomId, seq<UserId>>, steps: seq<Step>, c: ChatId)
    requires Rooms(members)
    ensures var s := Run(Init(members), steps);
            && NoDup(s.notices)
            && (c in s.notices ==> c !in s.chats)
            && (Quiet(s) && c in s.fates && !Past(s, c).undone ==> (c in s.notices <==> c !in s.chats))
  {
    InvRun(Init(members), steps);
    var s := Run(Init(members), steps);
    assert ChatOk(s, c) && (Quiet(s) ==> PcOf(s, Past(s, c).finisher).Idle?);
  }

  ghost predicate Quiet(s: State) {
    forall t :: PcOf(s, t).Idle?
  }

  /** Once nothing is in flight, a user's list is duplicate-free and holds exactly the live
      chats of the user's rooms, plus the stale ones. */
  lemma ListsAtRest(members: map<RoomId, seq<UserId>>, steps: seq<Step>, u: UserId, c: ChatId)
    requires Rooms(members)
    requires Quiet(Run(Init(members), steps))
    ensures var s := Run(Init(members), steps);
            && NoDup(At(s.index, u))
            && (c in At(s.index, u) <==>
                  || (c in s.chats && u in Members(s, s.chats[c].room))
                  || (Past(s, c).stale && u in Members(s, Past(s, c).room)))
  {
    InvRun(Init(members), steps);
    var s := Run(Init(members), steps);
    var f := Past(s, c);
    assert ChatOk(s, c) && EntryOk(s, u, c);
    assert PcOf(s, f.owner).Idle? && PcOf(s, f.finisher).Idle?;
  }

  // ---- When an entry goes stale ---------------------------------------------------------

  /** Every frame_out and frame_dismiss of the run names a chat that is already in its
      members' lists, the only place (besides apply's own reply) a client learns ids from. */
  ghost predicate NamesAnnounced(s: State, steps: seq<Step>)
    decreases |steps|
  {
    steps == [] ||
    ((steps[0].StartOut? ==> Past(s, steps[0].chat).indexed) && NamesAnnounced(Do(s, steps[0]), steps[1..]))
  }

  ghost predicate Handles(s: State, pc: Pc) {
    && (pc.Visiting? || pc.Deleting? || pc.Cleaning? || pc.Noticing? ==>
          forall c :: c in pc.rest ==> Past(s, c).indexed)
    && (pc.Deleting? || pc.Cleaning? || pc.Noticing? ==> Past(s, pc.chat).indexed)
  }

  ghost predicate NotStale(s: State, c: ChatId) {
    !Past(s, c).stale && (Past(s, c).cleaned ==> Past(s, c).indexed)
  }

  ghost predicate Tame(s: State) {
    && (forall c :: NotStale(s, c))
    && (forall t :: Handles(s, PcOf(s, t)))
  }

  lemma NotStaleStep(s: State, step: Step, c: ChatId)
    requires NotStale(s, c) && ThreadOk(s, step.t) && Handles(s, PcOf(s, step.t))
    ensures NotStale(Do(s, step), c)
  {
  }

  lemma StaysIndexed(s: State, step: Step, c: ChatId)
    requires Past(s, c).indexed
    ensures Past(Do(s, step), c).indexed
  {
  }

  lemma HandlesStep(s: State, step: Step)
    requires Handles(s, PcOf(s, step.t))
    requires step.StartOut? ==> Past(s, step.chat).indexed
    requires step.StartClose? ==> forall c :: EntryOk(s, step.user, c)
    ensures Handles(s, PcOf(Do(s, step), step.t))
  {
    match step
    case StartClose(t, u) =>
      var mine := At(s.index, u);
      forall c | c in mine ensures Past(s, c).indexed { assert EntryOk(s, u, c); }
      assert Do(s, step) == s || PcOf(Do(s, step), t) == Next(u, mine, true);
    case StartOut(t, u, c) => assert Do(s, step) == s || PcOf(Do(s, step), t) == Visiting(u, [c], false);
    case PullSelf(t) => HandlesPull(s, t);
    case _ =>
  }

  lemma HandlesPull(s: State, t: Thread)
    requires Handles(s, PcOf(s, t))
    ensures Handles(s, PcOf(Do(s, PullSelf(t)), t))
  {
    var pc := PcOf(s, t);
    if pc.Visiting? && pc.rest != [] {
      assert pc.rest[0] in pc.rest && forall c :: c in pc.rest[1..] ==> c in pc.rest;
    }
  }

  lemma TameStep(s: State, step: Step)
    requires Inv(s) && Tame(s)
    requires step.StartOut? ==> Past(s, step.chat).indexed
    ensures Tame(Do(s, step))
  {
    var r := Do(s, step);
    assert ThreadOk(s, step.t) && Handles(s, PcOf(s, step.t));
    forall c ensures NotStale(r, c) { NotStaleStep(s, step, c); }
    forall c | Past(s, c).indexed ensures Past(r, c).indexed { StaysIndexed(s, step, c); }
    forall t ensures Handles(r, PcOf(r, t)) {
      if t != step.t { OthersStay(s, step, t); } else { HandlesStep(s, step); }
    }
  }

  lemma {:induction false} TameRun(s: State, steps: seq<Step>)
    requires Inv(s) && Tame(s) && NamesAnnounced(s, steps)
    ensures forall c :: NotStale(Run(s, steps), c)
    decreases |steps|
  {
    if steps != [] {
      InvStep(s, steps[0]);
      TameStep(s, steps[0]);
      TameRun(Do(s, steps[0]), steps[1..]);
    }
  }

  /** With clients that only name announced chats, the lists at rest are exactly the live
      chats of the user's rooms. */
  lemma ListsExact(members: map<RoomId, seq<UserId>>, steps: seq<Step>, u: UserId, c: ChatId)
    requires Rooms(members) && NamesAnnounced(Init(members), steps)
    requires Quiet(Run(Init(members), steps))
    ensures var s := Run(Init(members), steps);
            c in At(s.index, u) <==> c in s.chats && u in Members(s, s.chats[c].room)
  {
    ListsAtRest(members, steps, u, c);
    TameRun(Init(members), steps);
    assert NotStale(Run(Init(members), steps), c);
  }
}
