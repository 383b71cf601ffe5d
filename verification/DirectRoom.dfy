// How a contact operation comes to its direct room, and what its phase marks alone
// protect: attempts, lost replies, crashes, marks and resets of one operation over a
// transport that makes a new room on every call.

module DirectRoom {
  import opened Membership
  import opened Operations
  import opened OperationStore
  import opened Admission

  // A room of the contact, the room of an idempotency key, or a room with a random id.
  datatype Room = Named(id: string) | Keyed(key: string) | Random(number: nat)

  // The operation row's phase and room, and the contact's room.
  datatype Op = Op(phase: Phase, current: Option<Room>, contact: Room)

  function Mark(op: Op, phase: Phase, room: Room): Op {
    op.(phase := phase, current := Some(room))
  }

  predicate Committed(op: Op) {
    HasExternalCommit(op.phase) && op.current.Some?
  }

  // ---- One attempt up to the creating call ----

  datatype JoinEnd = JoinedAs(room: Option<Room>) | JoinAmbiguous | Unavailable | JoinDenied

  datatype AcceptIo = AcceptIo(
    probe: Probe,
    reprobe: Probe,
    ambiguous: bool,
    join: JoinEnd,
    pendingInbound: bool,
    marks: bool
  )

  // An attempt answers a room, goes on to create one, or ends with an error.
  datatype Next = Answers(room: Room) | Creates | Ends

  // An ambiguous failure leaves the operation unconfirmed at the given room.
  function Unresolved(op: Op, room: Room, ambiguous: bool, marks: bool): (Op, Next) {
    (if ambiguous && marks then Mark(op, MatrixUnconfirmed, room) else op, Ends)
  }

  function Resolved(op: Op, room: Room, marks: bool): (Op, Next) {
    if marks then (Mark(op, MatrixCommitted, room), Answers(room)) else (op, Ends)
  }

  // Creating is left to an attempt whose operation has not committed a room.
  function ToCreate(op: Op): (Op, Next) {
    if Committed(op) then (op, Answers(op.current.value)) else (op, Creates)
  }

  function Accept(op: Op, io: AcceptIo): (Op, Next) {
    if io.probe == ProbeError then Unresolved(op, op.contact, io.ambiguous, io.marks)
    else if io.probe == IsIn then Resolved(op, op.contact, io.marks)
    else if Committed(op) && op.current != Some(op.contact) then (op, Answers(op.current.value))
    else if Committed(op) && io.reprobe == ProbeError then Unresolved(op, op.contact, io.ambiguous, io.marks)
    else if Committed(op) && io.reprobe == IsIn then (op, Answers(op.current.value))
    else
      match io.join
      case JoinedAs(room) => Resolved(op, if room.Some? then room.value else op.contact, io.marks)
      case JoinAmbiguous => Unresolved(op, op.contact, true, io.marks)
      case Unavailable =>
        // The replacement-room path: only for a pending inbound contact.
        if io.pendingInbound then ToCreate(op) else (op, Ends)
      case JoinDenied => (op, Ends)
  }

  // The joining call is made: the owner is not in the contact's room, and no other room is
  // committed.
  predicate ComesToJoin(op: Op, io: AcceptIo) {
    io.probe == IsOut && (Committed(op) ==> op.current == Some(op.contact) && io.reprobe == IsOut)
  }

  // Which room an accept answers: the contact's room if the owner is in it, the room
  // committed before if that is another one, or holds, or the contact cannot be joined,
  // and else the room it joins. The room answered is the one the operation has committed.
  lemma AcceptAnswersExactly(op: Op, io: AcceptIo, room: Room)
    ensures var (after, next) := Accept(op, io);
            (next == Answers(room) <==>
              (io.probe == IsIn && io.marks && room == op.contact) ||
              (io.probe == IsOut && Committed(op) && room == op.current.value &&
               (room != op.contact || io.reprobe == IsIn ||
                (io.reprobe == IsOut && io.join.Unavailable? && io.pendingInbound))) ||
              (ComesToJoin(op, io) && io.join.JoinedAs? && io.marks &&
               room == if io.join.room.Some? then io.join.room.value else op.contact)) &&
            (next == Answers(room) ==> Committed(after) && after.current == Some(room))
  {
  }

  // It goes on to create a room exactly where the contact waits for an answer, its room
  // cannot be joined and no room is committed; and where it ends without an answer, the
  // operation is as it was or unconfirmed at the contact's room.
  lemma AcceptCreatesExactly(op: Op, io: AcceptIo)
    ensures var (after, next) := Accept(op, io);
            (next.Creates? <==> io.probe == IsOut && !Committed(op) && io.join.Unavailable? && io.pendingInbound) &&
            (next.Creates? ==> after == op) &&
            (next.Ends? ==> after == op || after == op.(phase := MatrixUnconfirmed, current := Some(op.contact)))
  {
  }

  // How the creating call ends: refused without an effect, an error after the room was
  // made (with or without its id), a crash before the phase mark, or success.
  datatype Creation = Refused | LostReply | FailedWithRoom(marks: bool) | Crashed | Made(marks: bool)

  // The mark that follows the creating call.
  function AfterCreate(op: Op, room: Room, end: Creation): Op {
    match end
    case FailedWithRoom(marks) => if marks then Mark(op, MatrixUnconfirmed, room) else op
    case Made(marks) => if marks then Mark(op, MatrixCommitted, room) else op
    case Refused => op
    case LostReply => op
    case Crashed => op
  }

  // A room that was made is committed, and one that came with an error unconfirmed, if
  // the mark could be made; every other end leaves the operation as it was.
  lemma CreationIsMarked(op: Op, room: Room, end: Creation)
    ensures var after := AfterCreate(op, room, end);
            (end == Made(true) ==> Committed(after) && after.current == Some(room)) &&
            (end == FailedWithRoom(true) ==> after.phase == MatrixUnconfirmed && after.current == Some(room)) &&
            (end !in {Made(true), FailedWithRoom(true)} ==> after == op) && after.contact == op.contact
  {
  }

  // ---- Runs over a transport that makes a new room on every call ----

  datatype Step =
    | AcceptStep(io: AcceptIo, creation: Creation)
    | RequestStep(creation: Creation)
    | MarkStep(phase: Phase, room: Room)
    | SaveContact(room: Room)
    | ResetContact

  datatype State = State(op: Op, created: seq<Room>)

  function Begin(op: Op, s: Step): (Op, Next) {
    match s
    case AcceptStep(io, _) => Accept(op, io)
    case RequestStep(_) => ToCreate(op)
    case MarkStep(phase, room) => (Mark(op, phase, room), Ends)
    case SaveContact(room) => (op.(contact := room), Ends)
    case ResetContact => (op.(phase := Prepared, current := None), Ends)
  }

  predicate IsAttempt(s: Step) {
    s.AcceptStep? || s.RequestStep?
  }

  function Do(st: State, s: Step): State {
    var (op, next) := Begin(st.op, s);
    if IsAttempt(s) && next.Creates? && !s.creation.Refused? then
      var room := Random(|st.created|);
      State(AfterCreate(op, room, s.creation), st.created + [room])
    else State(op, st.created)
  }

  predicate IsRun(ss: seq<State>, steps: seq<Step>) {
    |ss| == |steps| + 1 && forall k | 0 <= k < |steps| :: ss[k + 1] == Do(ss[k], steps[k])
  }

  // The step makes a room.
  predicate MakesRoom(st: State, s: Step) {
    |Do(st, s).created| > |st.created|
  }

  // The step comes as far as the creating call, and the call takes effect, provided the
  // operation has committed no room.
  predicate WouldCreate(s: Step) {
    IsAttempt(s) && !s.creation.Refused? &&
    (s.AcceptStep? ==> s.io.probe == IsOut && s.io.join.Unavailable? && s.io.pendingInbound)
  }

  lemma MakesRoomExactly(st: State, s: Step)
    ensures MakesRoom(st, s) <==> WouldCreate(s) && !Committed(st.op)
  {
  }

  predicate Leaves(st: State, s: Step) {
    Committed(st.op) && !Committed(Do(st, s).op)
  }

  predicate Commits(st: State, s: Step) {
    !Committed(st.op) && Committed(Do(st, s).op)
  }

  // A step takes an operation out of its committed room exactly by a mark that is not a
  // commit, by a reset, or by an accept that cannot tell whether the owner is in the
  // contact's room and gets to mark that.
  lemma LeavesExactly(st: State, s: Step)
    requires Committed(st.op)
    ensures Leaves(st, s) <==>
              match s
              case MarkStep(phase, _) => !HasExternalCommit(phase)
              case ResetContact => true
              case SaveContact(_) => false
              case RequestStep(_) => false
              case AcceptStep(io, _) =>
                io.marks &&
                if io.probe == ProbeError then io.ambiguous
                else io.probe == IsOut && st.op.current == Some(st.op.contact) &&
                     if io.reprobe == ProbeError then io.ambiguous else io.reprobe == IsOut && io.join.JoinAmbiguous?
  {
  }

  // The creation at step i ended unmarked, with m == i + 1, or the step before m left the
  // committed room; and nothing has committed from m to j.
  predicate UncommittedFrom(ss: seq<State>, steps: seq<Step>, i: nat, j: nat, m: nat)
    requires |ss| == |steps| + 1 && i < j < |ss| && IsAttempt(steps[i])
  {
    i < m <= j &&
    ((m == i + 1 && steps[i].creation != Made(true)) || Leaves(ss[m - 1], steps[m - 1])) &&
    forall n | m <= n < j :: !Commits(ss[n], steps[n])
  }

  // Since the creation at step i the operation was left without a committed room.
  ghost predicate Uncommitted(ss: seq<State>, steps: seq<Step>, i: nat, j: nat)
    requires |ss| == |steps| + 1 && i < j < |ss| && IsAttempt(steps[i])
  {
    exists m: nat :: UncommittedFrom(ss, steps, i, j, m)
  }

  lemma {:induction false} UncommittedExactly(ss: seq<State>, steps: seq<Step>, i: nat, j: nat)
    requires IsRun(ss, steps) && i < j < |ss| && MakesRoom(ss[i], steps[i])
    ensures IsAttempt(steps[i]) && (!Committed(ss[j].op) <==> Uncommitted(ss, steps, i, j))
    decreases j
  {
    MakesRoomExactly(ss[i], steps[i]);
    if i + 1 == j {
      if !Committed(ss[j].op) { assert UncommittedFrom(ss, steps, i, j, j); }
    } else {
      UncommittedExactly(ss, steps, i, j - 1);
      if !Committed(ss[j].op) {
        if Committed(ss[j - 1].op) {
          assert UncommittedFrom(ss, steps, i, j, j);
        } else {
          var m: nat :| UncommittedFrom(ss, steps, i, j - 1, m);
          assert UncommittedFrom(ss, steps, i, j, m);
        }
      } else if m: nat :| UncommittedFrom(ss, steps, i, j, m) {
        if m < j {
          assert UncommittedFrom(ss, steps, i, j - 1, m);
        }
      }
    }
  }

  // So, with phase marks alone, a second room is made at step j exactly when that attempt
  // comes to the creating call, the call takes effect, and since the first creation the
  // operation was left without a committed room.
  lemma SecondRoomExactly(ss: seq<State>, steps: seq<Step>, i: nat, j: nat)
    requires IsRun(ss, steps) && i < j < |steps| && MakesRoom(ss[i], steps[i])
    ensures IsAttempt(steps[i]) &&
            (MakesRoom(ss[j], steps[j]) <==> WouldCreate(steps[j]) && Uncommitted(ss, steps, i, j))
  {
    MakesRoomExactly(ss[j], steps[j]);
    UncommittedExactly(ss, steps, i, j);
  }

  // It happens: a replacement room that was committed is forgotten when a later probe is
  // ambiguous, because that marks the operation unconfirmed at the contact's old room.
  lemma PhaseAloneIsNotEnough(contact: Room) returns (ss: seq<State>, steps: seq<Step>)
    ensures IsRun(ss, steps) && |steps| == 3 && ss[0] == State(Op(Prepared, None, contact), [])
    ensures Committed(ss[1].op) && !Committed(ss[2].op) && |ss[3].created| == 2
  {
    var replace := AcceptStep(AcceptIo(IsOut, IsOut, false, Unavailable, true, true), Made(true));
    var ambiguous := AcceptStep(AcceptIo(ProbeError, IsOut, true, JoinDenied, true, true), Refused);
    steps := [replace, ambiguous, replace];
    var s0 := State(Op(Prepared, None, contact), []);
    var s1 := Do(s0, replace);
    var s2 := Do(s1, ambiguous);
    ss := [s0, s1, s2, Do(s2, replace)];
  }
}
