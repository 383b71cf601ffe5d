// Creating direct rooms on the homeserver: the transport's CreateRoom as a machine over
// its calls to the roomserver, with any number of attempts of any number of operations
// interleaved, each of which may crash at any point.

module RoomTransport {
  import opened Membership
  import opened Operations
  import opened OperationStore
  import opened Decimal
  import opened DirectRoom

  type Tid = nat

  // A known room holds only its create event, its creator has joined it, or the creator
  // has left it again.
  datatype Progress = CreateOnly | Peopled | Vacated

  datatype Point =
    | Looking                                  // about to ask whether the room is known
    | Checking(purges: bool)                   // reconciling a known room
    | Purging                                  // about to ask for the conditional purge
    | Building(rebuilt: bool)                  // about to create the room
    | LookingAgain                             // after a creation that failed
    | Returned(room: Option<Room>, ok: bool)   // the call is over, its mark is not yet made

  // An attempt runs for an operation, whose id is its idempotency key, or for none.
  datatype Call = Call(op: Option<string>, point: Point)

  datatype World = World(
    ops: map<string, Op>,
    calls: map<Tid, Call>,
    rooms: map<Room, Progress>,
    randoms: nat,
    built: set<(string, Room)>,
    answered: set<(string, Room)>)

  datatype Step =
    | Begin(t: Tid, op: Option<string>, s: DirectRoom.Step)
    | Look(t: Tid, fails: bool)
    | Check(t: Tid, end: CheckEnd)
    | Purge(t: Tid, replyLost: bool)
    | Build(t: Tid, reached: Option<Progress>, ok: bool)
    | LookAgain(t: Tid, fails: bool)
    | Finish(t: Tid, marks: bool)
    | Crash(t: Tid)
    | Settle(room: Room)
    | Leave(room: Room)

  // A reconciliation finds the creator joined and all else repaired, finds the creator
  // missing, or fails otherwise.
  datatype CheckEnd = Reconciled | CreatorMissing | Trouble

  function KeyOf(c: Call): string {
    if c.op.Some? then c.op.value else ""
  }

  // The room of a key is derived from it; a blank key gets a random one.
  function RoomOf(w: World, key: string): Room {
    if IsBlank(key) then Random(w.randoms) else Keyed(key)
  }

  predicate At(w: World, t: Tid, point: Point) {
    t in w.calls && w.calls[t].point == point
  }

  predicate IsPeopled(w: World, r: Room) {
    r in w.rooms && w.rooms[r] == Peopled
  }

  // The room is known and holds more than its create event.
  predicate Stands(w: World, r: Room) {
    r in w.rooms && w.rooms[r] != CreateOnly
  }

  predicate Enabled(w: World, step: Step) {
    match step
    case Begin(t, op, s) => t !in w.calls && (op.Some? ==> op.value in w.ops) && (op.None? ==> IsAttempt(s))
    case Look(t, _) => At(w, t, Looking)
    case Check(t, end) =>
      t in w.calls && w.calls[t].point.Checking? &&
      (end.Reconciled? ==> IsPeopled(w, RoomOf(w, KeyOf(w.calls[t])))) &&
      (end.CreatorMissing? ==> !IsPeopled(w, RoomOf(w, KeyOf(w.calls[t]))))
    case Purge(t, _) => At(w, t, Purging)
    case Build(t, reached, ok) => t in w.calls && w.calls[t].point.Building? && (ok ==> reached == Some(Peopled)) &&
      reached != Some(Vacated)
    case LookAgain(t, _) => At(w, t, LookingAgain)
    case Finish(t, _) => t in w.calls && w.calls[t].point.Returned?
    case Crash(t) => t in w.calls
    case Settle(room) => room in w.rooms
    case Leave(room) => IsPeopled(w, room)
  }

  function Move(w: World, t: Tid, point: Point): World
    requires t in w.calls
  {
    w.(calls := w.calls[t := w.calls[t].(point := point)])
  }

  // An attempt that answers without creating is over; one that creates goes to the
  // transport. Without an operation nothing is committed and nothing is marked.
  function DoBegin(w: World, t: Tid, op: Option<string>, s: DirectRoom.Step): World
    requires op.Some? ==> op.value in w.ops
  {
    var start := if op.Some? then w.ops[op.value] else DirectRoom.Op(Prepared, None, Named(""));
    var (next, outcome) := DirectRoom.Begin(start, s);
    var marked := if op.Some? then w.(ops := w.ops[op.value := next]) else w;
    if IsAttempt(s) && outcome.Creates? then
      var key := if op.Some? then op.value else "";
      marked.(calls := marked.calls[t := Call(op, if IsBlank(key) then Building(false) else Looking)])
    else marked
  }

  function DoCheck(w: World, t: Tid, purges: bool, end: CheckEnd): World
    requires t in w.calls
  {
    var room := RoomOf(w, KeyOf(w.calls[t]));
    match end
    case Reconciled => Move(w, t, Returned(Some(room), true))
    case CreatorMissing => Move(w, t, if purges then Purging else Returned(Some(room), false))
    case Trouble => Move(w, t, Returned(Some(room), false))
  }

  // The roomserver purges only a room that holds nothing but the create event with this
  // operation's marker, in one step of the room's input.
  function DoPurge(w: World, t: Tid, replyLost: bool): World
    requires t in w.calls
  {
    var room := RoomOf(w, KeyOf(w.calls[t]));
    var purged := room in w.rooms && w.rooms[room] == CreateOnly;
    var after := if purged then w.(rooms := w.rooms - {room}) else w;
    Move(after, t, if replyLost then Returned(Some(room), false) else if purged then Building(true)
      else Checking(false))
  }

  // A creation may stop after the create event, or lose its reply; in a room that exists
  // it changes nothing that is there.
  function DoBuild(w: World, t: Tid, rebuilt: bool, reached: Option<Progress>, ok: bool): World
    requires t in w.calls
  {
    var key := KeyOf(w.calls[t]);
    var room := RoomOf(w, key);
    var made :=
      if reached.None? then w
      else w.(rooms := w.rooms[room := if Stands(w, room) then w.rooms[room] else reached.value],
              built := w.built + {(key, room)},
              randoms := if IsBlank(key) then w.randoms + 1 else w.randoms);
    var point :=
      if IsBlank(key) then if ok then Returned(Some(room), true) else Returned(None, false)
      else if !ok then LookingAgain
      else if rebuilt then Checking(false)
      else Returned(Some(room), true);
    Move(made, t, point)
  }

  function DoFinish(w: World, t: Tid, marks: bool): World
    requires t in w.calls && w.calls[t].point.Returned?
  {
    var c := w.calls[t];
    var done := w.(calls := w.calls - {t});
    if c.point.room.None? then done
    else
      var room := c.point.room.value;
      var end := if c.point.ok then Made(marks) else FailedWithRoom(marks);
      var marked :=
        if c.op.Some? && c.op.value in done.ops
        then done.(ops := done.ops[c.op.value := AfterCreate(done.ops[c.op.value], room, end)]) else done;
      if c.point.ok && (marks || c.op.None?) then marked.(answered := marked.answered + {(KeyOf(c), room)}) else marked
  }

  function Next(w: World, step: Step): World
    requires Enabled(w, step)
  {
    match step
    case Begin(t, op, s) => DoBegin(w, t, op, s)
    case Look(t, fails) =>
      if fails then Move(w, t, Returned(None, false))
      else Move(w, t, if RoomOf(w, KeyOf(w.calls[t])) in w.rooms then Checking(true) else Building(false))
    case Check(t, end) => DoCheck(w, t, w.calls[t].point.purges, end)
    case Purge(t, replyLost) => DoPurge(w, t, replyLost)
    case Build(t, reached, ok) => DoBuild(w, t, w.calls[t].point.rebuilt, reached, ok)
    case LookAgain(t, fails) =>
      if !fails && RoomOf(w, KeyOf(w.calls[t])) in w.rooms then Move(w, t, Checking(false))
      else Move(w, t, Returned(None, false))
    case Finish(t, marks) => DoFinish(w, t, marks)
    case Crash(t) => w.(calls := w.calls - {t})
    case Settle(room) => w.(rooms := w.rooms[room := Peopled])
    case Leave(room) => w.(rooms := w.rooms[room := Vacated])
  }

  predicate IsRun(ws: seq<World>, steps: seq<Step>) {
    |ws| == |steps| + 1 &&
    ws[0].calls == map[] && ws[0].rooms == map[] && ws[0].randoms == 0 && ws[0].built == {} && ws[0].answered == {} &&
    forall k | 0 <= k < |steps| :: Enabled(ws[k], steps[k]) && ws[k + 1] == Next(ws[k], steps[k])
  }

  // ---- Invariant ----

  // A room built under a key is the key's own, or one of the random ones given out.
  predicate RoomFits(w: World, key: string, room: Room) {
    if IsBlank(key) then room.Random? && room.number < w.randoms else room == Keyed(key)
  }

  predicate CallInv(w: World, c: Call) {
    (c.point.Returned? && c.point.room.Some? ==>
       RoomFits(w, KeyOf(c), c.point.room.value) && (c.point.ok ==> Stands(w, c.point.room.value))) &&
    (IsBlank(KeyOf(c)) ==> c.point == Building(false) || c.point.Returned?)
  }

  predicate Inv(w: World) {
    (forall b | b in w.built :: RoomFits(w, b.0, b.1)) &&
    (forall a | a in w.answered :: RoomFits(w, a.0, a.1) && Stands(w, a.1)) &&
    (forall r | r in w.rooms && r.Random? :: r.number < w.randoms) &&
    (forall t | t in w.calls :: CallInv(w, w.calls[t]))
  }

  // A room that holds more than its create event is never purged, and a random id is
  // never given out twice.
  ghost predicate Keeps(w: World, n: World) {
    (forall r | Stands(w, r) :: Stands(n, r)) &&
    w.randoms <= n.randoms && w.built <= n.built && w.answered <= n.answered
  }

  lemma StepKeepsRooms(w: World, step: Step)
    requires Enabled(w, step)
    ensures Keeps(w, Next(w, step))
  {
  }

  lemma KeepsTwice(a: World, b: World, c: World)
    requires Keeps(a, b) && Keeps(b, c)
    ensures Keeps(a, c)
  {
  }

  lemma KeptCall(w: World, n: World, c: Call)
    requires Keeps(w, n) && CallInv(w, c)
    ensures CallInv(n, c)
  {
  }

  // The call of the acting attempt, if it goes on.
  lemma ActorKeepsInv(w: World, step: Step)
    requires Inv(w) && Enabled(w, step) && !step.Settle? && !step.Leave? && step.t in Next(w, step).calls
    ensures CallInv(Next(w, step), Next(w, step).calls[step.t])
  {
    StepKeepsRooms(w, step);
    if step.t in w.calls { assert CallInv(w, w.calls[step.t]); }
  }

  lemma StepKeepsInv(w: World, step: Step)
    requires Inv(w) && Enabled(w, step)
    ensures Inv(Next(w, step))
  {
    var n := Next(w, step);
    StepKeepsRooms(w, step);
    forall t | t in n.calls ensures CallInv(n, n.calls[t]) {
      if !step.Settle? && !step.Leave? && step.t == t {
        ActorKeepsInv(w, step);
      } else {
        KeptCall(w, n, w.calls[t]);
      }
    }
    if step.Finish? { assert CallInv(w, w.calls[step.t]); }
  }

  lemma {:induction false} RunKeepsInv(ws: seq<World>, steps: seq<Step>, k: nat)
    requires IsRun(ws, steps) && k < |ws|
    ensures Inv(ws[k])
  {
    if k > 0 {
      RunKeepsInv(ws, steps, k - 1);
      StepKeepsInv(ws[k - 1], steps[k - 1]);
      assert ws[k] == Next(ws[k - 1], steps[k - 1]);
    }
  }

  lemma {:induction false} RoomsKeptAlong(ws: seq<World>, i: nat, j: nat)
    requires i <= j < |ws| && forall k | i <= k < j :: Keeps(ws[k], ws[k + 1])
    ensures Keeps(ws[i], ws[j])
    decreases j
  {
    if i < j {
      RoomsKeptAlong(ws, i, j - 1);
      KeepsTwice(ws[i], ws[j - 1], ws[j]);
    }
  }

  lemma RunKeepsRooms(ws: seq<World>, steps: seq<Step>, i: nat, j: nat)
    requires IsRun(ws, steps) && i <= j < |ws|
    ensures Keeps(ws[i], ws[j])
  {
    forall k | i <= k < j ensures Keeps(ws[k], ws[k + 1]) {
      StepKeepsRooms(ws[k], steps[k]);
    }
    RoomsKeptAlong(ws, i, j);
  }

  // ---- Whole runs ----

  // Whatever attempts, retries, crashes, purges and marks interleave: all rooms ever built
  // for an operation are one room, and no two operations share it.
  lemma AtMostOneRoom(ws: seq<World>, steps: seq<Step>, k: nat, a: (string, Room), b: (string, Room))
    requires IsRun(ws, steps) && k < |ws| && a in ws[k].built && b in ws[k].built && !IsBlank(a.0)
    ensures a.1 == b.1 <==> a.0 == b.0
  {
    RunKeepsInv(ws, steps, k);
  }

  // The room a creating attempt has answered is the operation's one room, and it stands
  // then and in every later state, even after its creator has left it: no other attempt's
  // recovery purges or replaces it. So all attempts that create answer the same room.
  lemma AnsweredRoomStands(ws: seq<World>, steps: seq<Step>, i: nat, j: nat, a: (string, Room), b: (string, Room))
    requires IsRun(ws, steps) && i <= j < |ws| && a in ws[i].answered && b in ws[j].answered
    requires a.0 == b.0 && !IsBlank(a.0)
    ensures a.1 == b.1 && Stands(ws[i], a.1) && Stands(ws[j], a.1)
  {
    RunKeepsInv(ws, steps, i);
    RunKeepsInv(ws, steps, j);
    RunKeepsRooms(ws, steps, i, j);
  }

  // ---- Each attempt ----

  // An attempt comes to the transport exactly if its operation has committed no room and
  // it is a request, or an accept of a waiting contact whose room cannot be joined.
  lemma AttemptReachesTransportExactly(w: World, t: Tid, op: string, s: DirectRoom.Step)
    requires op in w.ops && Enabled(w, Begin(t, Some(op), s))
    ensures t in Next(w, Begin(t, Some(op), s)).calls <==>
              !Committed(w.ops[op]) &&
              (s.RequestStep? ||
               (s.AcceptStep? && s.io.probe.IsOut? && s.io.join.Unavailable? && s.io.pendingInbound))
  {
  }

  function Remaining(point: Point): nat {
    match point
    case Looking => 6
    case Checking(purges) => if purges then 5 else 1
    case Purging => 4
    case Building(_) => 3
    case LookingAgain => 2
    case Returned(_, _) => 0
  }

  // Every step of an attempt at the transport brings it nearer to its end: it purges at
  // most once and creates at most once.
  lemma AttemptsEnd(w: World, step: Step)
    requires Enabled(w, step) && (step.Look? || step.Check? || step.Purge? || step.Build? || step.LookAgain?)
    ensures step.t in Next(w, step).calls &&
            Remaining(Next(w, step).calls[step.t].point) < Remaining(w.calls[step.t].point)
  {
  }

  // A creation that failed is looked for again, and reconciled exactly if it is found;
  // else the attempt fails without a room.
  lemma FailedCreationLooksAgain(w: World, t: Tid, fails: bool)
    requires Enabled(w, LookAgain(t, fails))
    ensures var n := Next(w, LookAgain(t, fails)).calls[t].point;
            (n == Checking(false) <==> !fails && RoomOf(w, KeyOf(w.calls[t])) in w.rooms) &&
            (n != Checking(false) ==> n.Returned? && n.room.None?)
  {
  }

  // An attempt answers its room exactly if the transport confirmed it and, for an
  // operation, the commit could be marked; an unconfirmed room is marked as that.
  lemma FinishAnswersExactly(w: World, t: Tid, marks: bool)
    requires Enabled(w, Step.Finish(t, marks)) && (w.calls[t].op.Some? ==> w.calls[t].op.value in w.ops)
    ensures var c, n := w.calls[t], Next(w, Step.Finish(t, marks));
            n.answered ==
              (if c.point.room.Some? && c.point.ok && (c.op.None? || marks)
               then w.answered + {(KeyOf(c), c.point.room.value)} else w.answered) &&
            (c.op.Some? ==>
              n.ops[c.op.value] ==
                if c.point.room.Some? && marks
                then w.ops[c.op.value].(phase := if c.point.ok then MatrixCommitted else MatrixUnconfirmed,
                                        current := c.point.room)
                else w.ops[c.op.value])
  {
  }

  // Without an operation an undisturbed attempt answers a room of its own.
  lemma KeylessAttemptAnswers(w: World, t: Tid)
    requires t in w.calls && w.calls[t] == Call(None, Building(false))
    ensures var build := Build(t, Some(Peopled), true);
            Enabled(w, build) && Enabled(Next(w, build), Step.Finish(t, true)) &&
            ("", Random(w.randoms)) in Next(Next(w, build), Step.Finish(t, true)).answered
  {
  }

  // ---- Attempts that nothing disturbs ----

  // The attempt begins at the transport.
  lemma AttemptLooks(w: World, t: Tid, op: string, s: DirectRoom.Step)
    requires t !in w.calls && op in w.ops && !IsBlank(op) && !Committed(w.ops[op]) && s.RequestStep?
    ensures Enabled(w, Begin(t, Some(op), s)) &&
            Next(w, Begin(t, Some(op), s)) == w.(calls := w.calls[t := Call(Some(op), Looking)])
  {
    assert w.ops == w.ops[op := w.ops[op]];
  }

  // The operation has committed this room and answered it.
  predicate AnsweredAs(w: World, op: string, room: Room) {
    (op, room) in w.answered && op in w.ops && Committed(w.ops[op]) && w.ops[op].current == Some(room)
  }

  lemma ReturnedAttemptAnswers(w: World, t: Tid, op: string)
    requires t in w.calls && w.calls[t] == Call(Some(op), Returned(Some(Keyed(op)), true)) && op in w.ops
    ensures Enabled(w, Step.Finish(t, true)) && AnsweredAs(Next(w, Step.Finish(t, true)), op, Keyed(op))
  {
  }

  // A first attempt makes the operation's room and answers it.
  lemma FirstAttemptAnswers(w: World, t: Tid, op: string)
    requires t in w.calls && w.calls[t] == Call(Some(op), Looking) && op in w.ops && !IsBlank(op)
    requires Keyed(op) !in w.rooms
    ensures var build, look := Build(t, Some(Peopled), true), Step.Look(t, false);
            Enabled(w, look) && Enabled(Next(w, look), build) &&
            var made := Next(Next(w, look), build);
            IsPeopled(made, Keyed(op)) && Enabled(made, Step.Finish(t, true)) &&
            AnsweredAs(Next(made, Step.Finish(t, true)), op, Keyed(op))
  {
    var made := Next(Next(w, Step.Look(t, false)), Build(t, Some(Peopled), true));
    ReturnedAttemptAnswers(made, t, op);
  }

  // An attempt after one that made the room and crashed before its mark finds the room,
  // makes none, and answers it.
  lemma RetryFindsItsRoom(w: World, t: Tid, op: string)
    requires t in w.calls && w.calls[t] == Call(Some(op), Looking) && op in w.ops && !IsBlank(op)
    requires IsPeopled(w, Keyed(op))
    ensures var check, look := Check(t, Reconciled), Step.Look(t, false);
            Enabled(w, look) && Enabled(Next(w, look), check) &&
            var checked := Next(Next(w, look), check);
            checked.rooms == w.rooms && checked.built == w.built && Enabled(checked, Step.Finish(t, true)) &&
            AnsweredAs(Next(checked, Step.Finish(t, true)), op, Keyed(op))
  {
    var checked := Next(Next(w, Step.Look(t, false)), Check(t, Reconciled));
    ReturnedAttemptAnswers(checked, t, op);
  }

  // And one after a creation that got no further than its create event purges that and
  // makes the room anew.
  lemma BrokenRoomIsRebuilt(w: World, t: Tid, op: string)
    requires t in w.calls && w.calls[t] == Call(Some(op), Looking) && op in w.ops && !IsBlank(op)
    requires Keyed(op) in w.rooms && w.rooms[Keyed(op)] == CreateOnly
    ensures var look, check, purge := Step.Look(t, false), Check(t, CreatorMissing), Purge(t, false);
            Enabled(w, look) && Enabled(Next(w, look), check) && Enabled(Next(Next(w, look), check), purge) &&
            var purged := Next(Next(Next(w, look), check), purge);
            purged.rooms == w.rooms - {Keyed(op)} && purged.calls[t] == Call(Some(op), Building(true))
  {
  }

  // A rebuilt room is looked at once more before it is answered.
  lemma RebuiltRoomIsAnswered(w: World, t: Tid, op: string)
    requires t in w.calls && w.calls[t] == Call(Some(op), Building(true)) && op in w.ops && !IsBlank(op)
    requires Keyed(op) !in w.rooms
    ensures var build, check := Build(t, Some(Peopled), true), Check(t, Reconciled);
            Enabled(w, build) && Enabled(Next(w, build), check) &&
            var checked := Next(Next(w, build), check);
            Enabled(checked, Step.Finish(t, true)) && AnsweredAs(Next(checked, Step.Finish(t, true)), op, Keyed(op))
  {
    var checked := Next(Next(w, Build(t, Some(Peopled), true)), Check(t, Reconciled));
    ReturnedAttemptAnswers(checked, t, op);
  }

  // Without an operation there is no such promise: every creation that takes effect makes
  // a room that was not there.
  lemma BlankKeyBuildsAnew(ws: seq<World>, steps: seq<Step>, k: nat)
    requires IsRun(ws, steps) && k < |steps| && steps[k].Build? && steps[k].reached.Some?
    ensures var key := KeyOf(ws[k].calls[steps[k].t]); var room := RoomOf(ws[k], key);
            (key, room) in ws[k + 1].built && room in ws[k + 1].rooms &&
            (IsBlank(key) ==> room !in ws[k].rooms && forall b | b in ws[k].built :: b.1 != room)
  {
    RunKeepsInv(ws, steps, k);
    assert ws[k + 1] == Next(ws[k], steps[k]);
  }

  // So a key has more than one room exactly if it is blank and more than one creation
  // under it took effect.
  lemma ManyRoomsExactly(ws: seq<World>, steps: seq<Step>, i: nat, j: nat)
    requires IsRun(ws, steps) && i < j < |steps|
    requires steps[i].Build? && steps[i].reached.Some? && steps[j].Build? && steps[j].reached.Some?
    requires KeyOf(ws[i].calls[steps[i].t]) == KeyOf(ws[j].calls[steps[j].t])
    ensures RoomOf(ws[i], KeyOf(ws[i].calls[steps[i].t])) != RoomOf(ws[j], KeyOf(ws[j].calls[steps[j].t])) <==>
            IsBlank(KeyOf(ws[i].calls[steps[i].t]))
  {
    BlankKeyBuildsAnew(ws, steps, i);
    BlankKeyBuildsAnew(ws, steps, j);
    RunKeepsRooms(ws, steps, i + 1, j);
  }

  // A committed room that a creating attempt marked is the operation's one room.
  predicate MarksOwnRoom(op: string, row: Op, was: Op) {
    row == was || row.current == Some(Keyed(op))
  }

  lemma CreatorsMarkTheirRoom(ws: seq<World>, steps: seq<Step>, k: nat, op: string)
    requires IsRun(ws, steps) && k < |steps| && steps[k].Finish? && op in ws[k].ops && !IsBlank(op)
    ensures op in ws[k + 1].ops && MarksOwnRoom(op, ws[k + 1].ops[op], ws[k].ops[op])
  {
    RunKeepsInv(ws, steps, k);
    assert CallInv(ws[k], ws[k].calls[steps[k].t]);
    assert ws[k + 1] == Next(ws[k], steps[k]);
  }
}
