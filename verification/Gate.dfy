// The account-operation gate: gated operations under a read lock with a re-entrancy
// marker, account deletion under the write lock, and the keyed locks and durable
// claims that gated operations wait for inside.

module Gate {
  type Tid = nat

  // The keyed locks in the order in which they are taken.
  datatype Lock = Workflow(key: string) | Operation(id: string) | MemberWrite(key: string)

  function Rank(l: Lock): nat {
    match l
    case Workflow(_) => 0
    case Operation(_) => 1
    case MemberWrite(_) => 2
  }

  const MAX_RANK := 2

  // A durable claim, of the workflow before the handler or of a Matrix join inside it, is
  // polled every 50 ms for at most two seconds.
  const CLAIM_POLLS: nat := 40

  datatype Want = Nothing | ALock(lock: Lock) | AClaim(pollsLeft: nat)

  datatype Stage =
    | AtGate                // before the read lock
    | Entered               // read lock held, deprovisioned flag not yet read
    | Body                  // running under the read lock
    | LeavingRooms          // deletion, before the barrier
    | AtBarrier             // deletion has announced itself to the write lock
    | Resetting             // deletion holds the write lock
    | Clearing              // the terminal flag is set, the write lock still held
    | Unwinding             // a failed deletion, write lock released, flag not yet cleared

  // How far the dispatch of an operation is: before the member-workflow lock, before
  // the durable workflow claim, before the operation lock, in the handler with its
  // member saves, and releasing what it holds.
  datatype Point = BeforeWorkflow | BeforeClaim | BeforeOperation | Handler | Returning

  // What finishing one gated call does: give back the read lock, or nothing.
  datatype Release = ReadUnlock | NoOp

  // A thread's context carries the marker once it is inside; each gated call it is in
  // has its release, innermost last. It has so many member saves, nested gated calls and
  // claims inside its handler still before it.
  datatype Thread = Thread(
    stage: Stage, point: Point, held: set<Lock>, want: Want,
    marked: bool, releases: seq<Release>, saves: nat, calls: nat, claims: nat)

  datatype State = State(threads: map<Tid, Thread>, inProgress: bool, deprovisioned: bool)

  const INITIAL := State(map[], false, false)

  datatype Step =
    | Enter(t: Tid, saves: nat, calls: nat, claims: nat)
    | ReadLock(t: Tid)
    | Check(t: Tid)
    | Nest(t: Tid)
    | NestUnmarked(t: Tid)
    | Unnest(t: Tid)
    | Skip(t: Tid)
    | Ask(t: Tid, lock: Lock)
    | Take(t: Tid)
    | Drop(t: Tid, lock: Lock)
    | AskClaim(t: Tid)
    | Poll(t: Tid, claimed: bool)
    | Return(t: Tid)
    | Exit(t: Tid)
    | Delete(t: Tid, saves: nat)
    | Announce(t: Tid)
    | WriteLock(t: Tid)
    | Commit(t: Tid)
    | Fail(t: Tid)
    | Finish(t: Tid)

  // ---- The read/write lock ----

  // The thread has a read lock to give back.
  predicate Reads(s: State, t: Tid) {
    t in s.threads && ReadUnlock in s.threads[t].releases
  }

  predicate Writes(s: State, t: Tid) {
    t in s.threads && (s.threads[t].stage.Resetting? || s.threads[t].stage.Clearing?)
  }

  predicate Deletes(s: State, t: Tid) {
    t in s.threads && s.threads[t].stage !in {AtGate, Entered, Body}
  }

  predicate RunsBody(s: State, t: Tid) {
    t in s.threads && s.threads[t].stage.Body?
  }

  // A waiting writer keeps new readers out.
  predicate ReadersMayEnter(s: State) {
    forall t | t in s.threads :: !s.threads[t].stage.AtBarrier? && !Writes(s, t)
  }

  predicate WriterMayEnter(s: State) {
    forall t | t in s.threads :: !Reads(s, t) && !Writes(s, t)
  }

  // Beginning a gated call: under the marker it takes no lock and its release does
  // nothing, without it it takes the read lock and sets the marker.
  predicate MayBegin(s: State, marked: bool) {
    marked || ReadersMayEnter(s)
  }

  function Begun(thread: Thread, marked: bool): Thread {
    if marked then thread.(releases := thread.releases + [NoOp])
    else thread.(marked := true, releases := thread.releases + [ReadUnlock])
  }

  // ---- Steps ----

  predicate InStage(s: State, t: Tid, stage: Stage) {
    t in s.threads && s.threads[t].stage == stage
  }

  predicate Works(s: State, t: Tid) {
    t in s.threads && (s.threads[t].stage.Body? || s.threads[t].stage.LeavingRooms?)
  }

  predicate Idles(s: State, t: Tid) {
    Works(s, t) && s.threads[t].want.Nothing?
  }

  predicate Dispatches(s: State, t: Tid, point: Point) {
    Idles(s, t) && s.threads[t].stage.Body? && s.threads[t].point == point
  }

  // A member save holds its lock only until it is done.
  predicate Saves(thread: Thread) {
    exists l | l in thread.held :: l.MemberWrite?
  }

  predicate Free(s: State, l: Lock) {
    forall t | t in s.threads :: l !in s.threads[t].held
  }

  predicate MayAsk(s: State, t: Tid, l: Lock) {
    match l
    case Workflow(_) => Dispatches(s, t, BeforeWorkflow)
    case Operation(_) => Dispatches(s, t, BeforeOperation)
    case MemberWrite(_) =>
      Idles(s, t) && s.threads[t].point == Handler && !Saves(s.threads[t]) && s.threads[t].saves > 0
  }

  predicate MayClaim(s: State, t: Tid) {
    Dispatches(s, t, BeforeClaim) ||
    (Dispatches(s, t, Handler) && !Saves(s.threads[t]) && s.threads[t].claims > 0)
  }

  predicate Enabled(s: State, step: Step) {
    var t := step.t;
    match step
    case Enter(_, _, _, _) => t !in s.threads
    case ReadLock(_) => InStage(s, t, AtGate) && MayBegin(s, s.threads[t].marked)
    case Check(_) => InStage(s, t, Entered)
    case Nest(_) =>
      Idles(s, t) && RunsBody(s, t) && s.threads[t].calls > 0 && MayBegin(s, s.threads[t].marked)
    case NestUnmarked(_) => Idles(s, t) && RunsBody(s, t) && s.threads[t].calls > 0 && MayBegin(s, false)
    case Unnest(_) => Idles(s, t) && RunsBody(s, t) && |s.threads[t].releases| > 1
    case Skip(_) =>
      Idles(s, t) && RunsBody(s, t) && s.threads[t].point in {BeforeWorkflow, BeforeClaim, BeforeOperation}
    case Ask(_, l) => MayAsk(s, t, l)
    case Take(_) => Works(s, t) && s.threads[t].want.ALock? && Free(s, s.threads[t].want.lock)
    case Drop(_, l) => Idles(s, t) && l in s.threads[t].held && (l.MemberWrite? || s.threads[t].point == Returning)
    case AskClaim(_) => MayClaim(s, t)
    case Poll(_, _) => Works(s, t) && s.threads[t].want.AClaim?
    case Return(_) => Idles(s, t) && RunsBody(s, t) && s.threads[t].point != Returning && !Saves(s.threads[t])
    case Exit(_) =>
      Dispatches(s, t, Returning) && |s.threads[t].releases| == 1 && s.threads[t].held == {}
    case Delete(_, _) => t !in s.threads
    case Announce(_) => Idles(s, t) && s.threads[t].stage.LeavingRooms? && s.threads[t].held == {}
    case WriteLock(_) => InStage(s, t, AtBarrier) && WriterMayEnter(s)
    case Commit(_) => InStage(s, t, Resetting)
    case Fail(_) =>
      InStage(s, t, Resetting) || (Idles(s, t) && s.threads[t].stage.LeavingRooms? && s.threads[t].held == {})
    case Finish(_) => InStage(s, t, Clearing) || InStage(s, t, Unwinding)
  }

  function Put(s: State, t: Tid, thread: Thread): State {
    s.(threads := s.threads[t := thread])
  }

  function Gone(s: State, t: Tid): State {
    s.(threads := s.threads - {t})
  }

  function Arriving(saves: nat, calls: nat, claims: nat): Thread {
    Thread(AtGate, BeforeWorkflow, {}, Nothing, false, [], saves, calls, claims)
  }

  function Deleting(stage: Stage, saves: nat): Thread {
    Thread(stage, Handler, {}, Nothing, false, [], saves, 0, 0)
  }

  function After(point: Point): Point {
    match point
    case BeforeWorkflow => BeforeClaim
    case BeforeClaim => BeforeOperation
    case BeforeOperation => Handler
    case Handler => Handler
    case Returning => Returning
  }

  function Asked(thread: Thread, l: Lock): Thread {
    if l.MemberWrite? && thread.saves > 0 then thread.(want := ALock(l), saves := thread.saves - 1)
    else thread.(want := ALock(l))
  }

  function Taken(thread: Thread): Thread
    requires thread.want.ALock?
  {
    thread.(held := thread.held + {thread.want.lock}, want := Nothing, point := After(thread.point))
  }

  function Claiming(thread: Thread): Thread {
    if thread.point == Handler && thread.claims > 0 then
      thread.(want := AClaim(CLAIM_POLLS), claims := thread.claims - 1)
    else thread.(want := AClaim(CLAIM_POLLS))
  }

  // A workflow claim that is not granted in time ends the operation; inside the handler
  // the operation goes on and answers for the other claimant.
  function Polled(thread: Thread, claimed: bool): Thread
    requires thread.want.AClaim?
  {
    if thread.point == Handler && (claimed || thread.want.pollsLeft == 0) then thread.(want := Nothing)
    else if claimed then thread.(want := Nothing, point := BeforeOperation)
    else if thread.want.pollsLeft == 0 then thread.(want := Nothing, point := Returning)
    else thread.(want := AClaim(thread.want.pollsLeft - 1))
  }

  function Next(s: State, step: Step): State
    requires Enabled(s, step)
  {
    var t := step.t;
    match step
    case Enter(_, saves, calls, claims) => Put(s, t, Arriving(saves, calls, claims))
    case ReadLock(_) => Put(s, t, Begun(s.threads[t], s.threads[t].marked).(stage := Entered))
    case Check(_) => if s.deprovisioned then Gone(s, t) else Put(s, t, s.threads[t].(stage := Body))
    case Nest(_) => Put(s, t, Begun(s.threads[t], s.threads[t].marked).(calls := s.threads[t].calls - 1))
    case NestUnmarked(_) => Put(s, t, Begun(s.threads[t], false).(calls := s.threads[t].calls - 1))
    case Unnest(_) => Put(s, t, s.threads[t].(releases := s.threads[t].releases[..|s.threads[t].releases| - 1]))
    case Skip(_) => Put(s, t, s.threads[t].(point := After(s.threads[t].point)))
    case Ask(_, l) => Put(s, t, Asked(s.threads[t], l))
    case Take(_) => Put(s, t, Taken(s.threads[t]))
    case Drop(_, l) => Put(s, t, s.threads[t].(held := s.threads[t].held - {l}))
    case AskClaim(_) => Put(s, t, Claiming(s.threads[t]))
    case Poll(_, claimed) => Put(s, t, Polled(s.threads[t], claimed))
    case Return(_) => Put(s, t, s.threads[t].(point := Returning))
    case Exit(_) => Gone(s, t)
    case Delete(_, saves) =>
      if s.inProgress then s else Put(s, t, Deleting(LeavingRooms, saves)).(inProgress := true)
    case Announce(_) => Put(s, t, Deleting(AtBarrier, 0))
    case WriteLock(_) => Put(s, t, Deleting(Resetting, 0))
    case Commit(_) => Put(s, t, Deleting(Clearing, 0)).(deprovisioned := true)
    case Fail(_) => Put(s, t, Deleting(Unwinding, 0))
    case Finish(_) => Gone(s, t).(inProgress := s.inProgress && !InStage(s, t, Unwinding))
  }

  // Every nested call passes its context on.
  predicate IsRun(ss: seq<State>, steps: seq<Step>) {
    |ss| == |steps| + 1 && ss[0] == INITIAL &&
    forall k | 0 <= k < |steps| ::
      Enabled(ss[k], steps[k]) && ss[k + 1] == Next(ss[k], steps[k]) && !steps[k].NestUnmarked?
  }

  // ---- What each thread keeps ----

  // Inside the gate a thread is marked; its outermost call gives back the read lock and
  // every nested one nothing.
  predicate MarkerInv(thread: Thread) {
    if thread.stage in {Entered, Body} then
      thread.marked && |thread.releases| > 0 && thread.releases[0] == ReadUnlock &&
      (thread.stage == Entered ==> |thread.releases| == 1) &&
      forall i | 1 <= i < |thread.releases| :: thread.releases[i] == NoOp
    else !thread.marked && thread.releases == []
  }

  // What a thread may hold and want at each point.
  predicate PointInv(thread: Thread) {
    (match thread.point
     case BeforeWorkflow => thread.held == {}
     case BeforeClaim => forall l | l in thread.held :: l.Workflow?
     case BeforeOperation => forall l | l in thread.held :: l.Workflow?
     case Handler => true
     case Returning => !Saves(thread)) &&
    (match thread.want
     case Nothing => true
     case AClaim(_) => thread.point == BeforeClaim || (thread.point == Handler && !Saves(thread))
     case ALock(l) =>
       match l
       case Workflow(_) => thread.point == BeforeWorkflow
       case Operation(_) => thread.point == BeforeOperation
       case MemberWrite(_) => thread.point == Handler && !Saves(thread))
  }

  predicate StageInv(thread: Thread) {
    (thread.stage in {AtGate, Entered} ==> thread.point == BeforeWorkflow) &&
    (thread.stage !in {AtGate, Entered, Body} ==> thread.point == Handler) &&
    (thread.stage.LeavingRooms? ==> forall l | l in thread.held :: l.MemberWrite?) &&
    (!thread.stage.Body? && !thread.stage.LeavingRooms? ==> thread.held == {} && thread.want.Nothing?)
  }

  predicate ThreadInv(thread: Thread) {
    MarkerInv(thread) && PointInv(thread) && StageInv(thread)
  }

  // Locks are held by one thread, and as its point in the dispatch says.
  ghost predicate LockInv(s: State) {
    (forall t, u, l | t in s.threads && u in s.threads && l in s.threads[t].held && l in s.threads[u].held :: t == u) &&
    (forall t | t in s.threads :: ThreadInv(s.threads[t]))
  }

  predicate InsideGate(step: Step) {
    step.ReadLock? || step.Check? || step.Nest? || step.Unnest?
  }

  lemma GateStepKeepsThread(s: State, step: Step)
    requires step.t in s.threads && ThreadInv(s.threads[step.t]) && Enabled(s, step) && InsideGate(step)
    ensures step.t in Next(s, step).threads ==> ThreadInv(Next(s, step).threads[step.t])
  {
  }

  lemma WorkStepKeepsThread(s: State, step: Step)
    requires step.t in s.threads && ThreadInv(s.threads[step.t]) && Enabled(s, step)
    requires step.Skip? || step.Ask? || step.AskClaim? || step.Poll? || step.Return?
    ensures step.t in Next(s, step).threads && ThreadInv(Next(s, step).threads[step.t])
  {
    var n := Next(s, step).threads[step.t];
    assert n.held == s.threads[step.t].held;
    assert MarkerInv(n) && StageInv(n);
  }

  lemma LockStepKeepsThread(s: State, step: Step)
    requires step.t in s.threads && ThreadInv(s.threads[step.t]) && Enabled(s, step) && (step.Take? || step.Drop?)
    ensures step.t in Next(s, step).threads && ThreadInv(Next(s, step).threads[step.t])
  {
    var n := Next(s, step).threads[step.t];
    assert MarkerInv(n) && StageInv(n);
  }

  lemma OtherThreadsStay(s: State, step: Step, u: Tid)
    requires Enabled(s, step) && u != step.t
    ensures u in Next(s, step).threads <==> u in s.threads
    ensures u in s.threads ==> Next(s, step).threads[u] == s.threads[u]
  {
  }

  lemma StepKeepsThread(s: State, step: Step, t: Tid)
    requires LockInv(s) && Enabled(s, step) && !step.NestUnmarked? && t in Next(s, step).threads
    ensures ThreadInv(Next(s, step).threads[t])
  {
    if t != step.t {
      OtherThreadsStay(s, step, t);
    } else if InsideGate(step) {
      GateStepKeepsThread(s, step);
    } else if step.Skip? || step.Ask? || step.AskClaim? || step.Poll? || step.Return? {
      WorkStepKeepsThread(s, step);
    } else if step.Take? || step.Drop? {
      LockStepKeepsThread(s, step);
    } else {
      NewOrGone(s, step);
    }
  }

  lemma NewOrGone(s: State, step: Step)
    requires Enabled(s, step) && !step.NestUnmarked? && !InsideGate(step) && step.t in Next(s, step).threads
    requires !step.Skip? && !step.Ask? && !step.AskClaim? && !step.Poll? && !step.Return? && !step.Take? && !step.Drop?
    ensures ThreadInv(Next(s, step).threads[step.t])
  {
  }

  lemma StepKeepsExclusive(s: State, step: Step, t: Tid, u: Tid, l: Lock)
    requires LockInv(s) && Enabled(s, step)
    requires t in Next(s, step).threads && l in Next(s, step).threads[t].held
    requires u in Next(s, step).threads && l in Next(s, step).threads[u].held
    ensures t == u
  {
    if t != step.t { OtherThreadsStay(s, step, t); }
    if u != step.t { OtherThreadsStay(s, step, u); }
  }

  lemma StepKeepsLocks(s: State, step: Step)
    requires LockInv(s) && Enabled(s, step) && !step.NestUnmarked?
    ensures LockInv(Next(s, step))
  {
    var n := Next(s, step);
    forall t | t in n.threads ensures ThreadInv(n.threads[t]) {
      StepKeepsThread(s, step, t);
    }
    forall t, u, l | t in n.threads && u in n.threads && l in n.threads[t].held && l in n.threads[u].held
      ensures t == u {
      StepKeepsExclusive(s, step, t, u, l);
    }
  }

  // ---- What the gate keeps ----

  ghost predicate Excludes(s: State) {
    forall t, u | Writes(s, t) :: !Reads(s, u)
  }

  ghost predicate OneDeletion(s: State) {
    (forall t, u | Deletes(s, t) && Deletes(s, u) :: t == u) &&
    (forall t | Deletes(s, t) :: s.inProgress)
  }

  // Once the account is deprovisioned the deletion flag stays up, no body runs and no
  // deletion is active but the one that finishes.
  ghost predicate Terminal(s: State) {
    (s.deprovisioned ==>
       s.inProgress && forall t :: !RunsBody(s, t) && (Deletes(s, t) ==> InStage(s, t, Clearing))) &&
    (forall t | InStage(s, t, Clearing) :: s.deprovisioned)
  }

  ghost predicate GateInv(s: State) {
    Excludes(s) && OneDeletion(s) && Terminal(s)
  }

  lemma OthersStay(s: State, step: Step, u: Tid)
    requires Enabled(s, step) && u != step.t
    ensures var n := Next(s, step);
            Reads(n, u) == Reads(s, u) && Writes(n, u) == Writes(s, u) && Deletes(n, u) == Deletes(s, u) &&
            RunsBody(n, u) == RunsBody(s, u) && InStage(n, u, Clearing) == InStage(s, u, Clearing)
  {
    OtherThreadsStay(s, step, u);
  }

  lemma ActorReads(s: State, step: Step)
    requires Enabled(s, step)
    ensures Reads(Next(s, step), step.t) ==> Reads(s, step.t) || ReadersMayEnter(s)
    ensures Reads(Next(s, step), step.t) ==> !Writes(Next(s, step), step.t) || Reads(s, step.t)
  {
  }

  lemma ActorMoves(s: State, step: Step)
    requires Enabled(s, step)
    ensures var n := Next(s, step); var t := step.t;
            (Writes(n, t) ==> Writes(s, t) || (WriterMayEnter(s) && step.WriteLock?)) &&
            (Deletes(n, t) ==> Deletes(s, t) || (step.Delete? && !s.inProgress)) &&
            (n.inProgress == s.inProgress || (step.Delete? && n.inProgress) ||
             (Deletes(s, t) && !Deletes(n, t) && InStage(s, t, Unwinding)))
  {
  }

  lemma StepKeepsExclusion(s: State, step: Step)
    requires Excludes(s) && LockInv(s) && Enabled(s, step) && !step.NestUnmarked?
    ensures Excludes(Next(s, step))
  {
    var n := Next(s, step);
    ActorMoves(s, step);
    ActorReads(s, step);
    StepKeepsLocks(s, step);
    forall t, u | Writes(n, t) ensures !Reads(n, u) {
      if t != step.t { OthersStay(s, step, t); }
      if u != step.t { OthersStay(s, step, u); }
      if t == u { assert ThreadInv(n.threads[t]); }
    }
  }

  lemma StepKeepsOneDeletion(s: State, step: Step)
    requires OneDeletion(s) && Terminal(s) && Enabled(s, step)
    ensures OneDeletion(Next(s, step))
  {
    var n := Next(s, step);
    ActorMoves(s, step);
    forall t | Deletes(n, t) ensures n.inProgress {
      if t != step.t { OthersStay(s, step, t); }
    }
    forall t, u | Deletes(n, t) && Deletes(n, u) ensures t == u {
      if t != step.t { OthersStay(s, step, t); }
      if u != step.t { OthersStay(s, step, u); }
    }
  }

  lemma StepKeepsTerminal(s: State, step: Step)
    requires GateInv(s) && LockInv(s) && Enabled(s, step)
    ensures Terminal(Next(s, step))
  {
    var n := Next(s, step);
    ActorMoves(s, step);
    if n.deprovisioned {
      assert Writes(s, step.t) ==> Deletes(s, step.t);
      forall t ensures !RunsBody(n, t) && (Deletes(n, t) ==> InStage(n, t, Clearing)) {
        if t != step.t { OthersStay(s, step, t); }
        assert RunsBody(s, t) ==> Reads(s, t);
      }
    }
    forall t | InStage(n, t, Clearing) ensures n.deprovisioned {
      if t != step.t { OthersStay(s, step, t); }
    }
  }

  lemma StepKeepsInv(s: State, step: Step)
    requires GateInv(s) && LockInv(s) && Enabled(s, step) && !step.NestUnmarked?
    ensures GateInv(Next(s, step)) && LockInv(Next(s, step))
  {
    StepKeepsExclusion(s, step);
    StepKeepsOneDeletion(s, step);
    StepKeepsTerminal(s, step);
    StepKeepsLocks(s, step);
  }

  lemma {:induction false} RunKeepsInv(ss: seq<State>, steps: seq<Step>, k: nat)
    requires IsRun(ss, steps) && k < |ss|
    ensures GateInv(ss[k]) && LockInv(ss[k])
  {
    if k > 0 {
      RunKeepsInv(ss, steps, k - 1);
      StepKeepsInv(ss[k - 1], steps[k - 1]);
    }
  }

  // ---- The deletion barrier ----

  // In every state of every run no operation body runs, and none is inside the gate, while
  // a deletion resets the account, and at most one deletion is active.
  lemma BodiesNeverOverlapReset(ss: seq<State>, steps: seq<Step>, k: nat)
    requires IsRun(ss, steps) && k < |ss|
    ensures forall t, u | InStage(ss[k], t, Resetting) || InStage(ss[k], t, Clearing) ::
              !RunsBody(ss[k], u) && !Reads(ss[k], u)
    ensures forall t, u | Deletes(ss[k], t) && Deletes(ss[k], u) :: t == u
  {
    RunKeepsInv(ss, steps, k);
    assert forall u | RunsBody(ss[k], u) :: Reads(ss[k], u);
    assert forall t | InStage(ss[k], t, Resetting) || InStage(ss[k], t, Clearing) :: Writes(ss[k], t);
  }

  // After a successful deletion, for ever: no body runs, no later deletion starts, and
  // every operation that gets past the gate is turned away.
  lemma {:induction false} SuccessIsFinal(ss: seq<State>, steps: seq<Step>, j: nat, k: nat)
    requires IsRun(ss, steps) && j <= k < |ss| && ss[j].deprovisioned
    ensures ss[k].deprovisioned && ss[k].inProgress
    ensures forall t :: !RunsBody(ss[k], t) && (Deletes(ss[k], t) ==> InStage(ss[k], t, Clearing))
    ensures k < |steps| && steps[k].Delete? ==> ss[k + 1] == ss[k]
    ensures k < |steps| && steps[k].Check? ==> steps[k].t !in ss[k + 1].threads
    decreases k
  {
    RunKeepsInv(ss, steps, k);
    if j < k {
      SuccessIsFinal(ss, steps, j, k - 1);
    }
  }

  // A deletion that has begun either succeeds or lowers the flag again: when no
  // deletion is active, the flag is up exactly if the account is gone.
  ghost predicate FlagMeansDeletion(s: State) {
    s.inProgress && !s.deprovisioned ==> exists t :: Deletes(s, t)
  }

  lemma {:induction false} FlagIsNeverStuck(ss: seq<State>, steps: seq<Step>, k: nat)
    requires IsRun(ss, steps) && k < |ss|
    ensures FlagMeansDeletion(ss[k])
  {
    if k > 0 {
      FlagIsNeverStuck(ss, steps, k - 1);
      RunKeepsInv(ss, steps, k - 1);
      var s, n, step := ss[k - 1], ss[k], steps[k - 1];
      if n.inProgress && !n.deprovisioned {
        if step.Delete? && !s.inProgress {
          assert Deletes(n, step.t);
        } else {
          var t :| Deletes(s, t);
          if t != step.t { OthersStay(s, step, t); }
          assert Deletes(n, t);
        }
      }
    }
  }

  // A deletion can fail for as long as it has not committed, and then lowers the flag and
  // lets the next one begin.
  lemma FailedDeletionLetsTheNextBegin(s: State, t: Tid, next: Tid, saves: nat)
    requires InStage(s, t, Resetting) ||
             (InStage(s, t, LeavingRooms) && s.threads[t].want.Nothing? && s.threads[t].held == {})
    requires next !in s.threads
    ensures Enabled(s, Fail(t)) && Enabled(Next(s, Fail(t)), Finish(t)) &&
            var n := Next(Next(s, Fail(t)), Finish(t));
            !n.inProgress && n.deprovisioned == s.deprovisioned && t !in n.threads &&
            Enabled(n, Delete(next, saves)) && Deletes(Next(n, Delete(next, saves)), next)
  {
  }

  // ---- Re-entrancy ----

  // In every reachable state, whatever deletion waits: a thread in a body carries the
  // marker, so a nested gated call has nothing to wait for; and ending a nested call
  // leaves the outer read lock in force, which only ending the outermost gives back.
  lemma NestedCallsKeepTheLock(ss: seq<State>, steps: seq<Step>, k: nat, t: Tid)
    requires IsRun(ss, steps) && k < |ss| && RunsBody(ss[k], t)
    ensures ss[k].threads[t].marked && Reads(ss[k], t)
    ensures Idles(ss[k], t) && ss[k].threads[t].calls > 0 ==> Enabled(ss[k], Nest(t))
    ensures k < |steps| && steps[k] in {Nest(t), Unnest(t)} ==> Reads(ss[k + 1], t)
    ensures k < |steps| && steps[k] == Exit(t) ==> !Reads(ss[k + 1], t) && ss[k].threads[t].releases == [ReadUnlock]
    ensures k < |steps| && !steps[k].Exit? ==> Reads(ss[k + 1], t)
  {
    RunKeepsInv(ss, steps, k);
    assert ThreadInv(ss[k].threads[t]);
    if k < |steps| {
      RunKeepsInv(ss, steps, k + 1);
      assert ss[k + 1] == Next(ss[k], steps[k]);
      if steps[k].t != t {
        OthersStay(ss[k], steps[k], t);
      } else if t in ss[k + 1].threads {
        assert ThreadInv(ss[k + 1].threads[t]);
        assert ss[k + 1].threads[t].stage == Body;
      }
    }
  }

  lemma NeitherSteps(s: State, step: Step, t: Tid, d: Tid)
    requires Reads(s, t) && InStage(s, d, AtBarrier) && Enabled(s, step) && (step.t == t ==> step.NestUnmarked?)
    ensures step.t != t && step.t != d
  {
  }

  // A thread in a body and a deletion behind it, from then on: as long as the thread has
  // nothing to do but a nested call whose context lost the marker, neither that call nor
  // the deletion ever gets on, whatever all others do.
  lemma {:induction false} UnmarkedNestingDeadlocks(ss: seq<State>, steps: seq<Step>, t: Tid, d: Tid, k: nat)
    requires |ss| == |steps| + 1 && k < |ss| && RunsBody(ss[0], t) && Reads(ss[0], t) && InStage(ss[0], d, AtBarrier)
    requires forall i | 0 <= i < |steps| ::
               Enabled(ss[i], steps[i]) && ss[i + 1] == Next(ss[i], steps[i]) &&
                 (steps[i].t == t ==> steps[i].NestUnmarked?)
    ensures RunsBody(ss[k], t) && Reads(ss[k], t) && InStage(ss[k], d, AtBarrier)
    ensures !Enabled(ss[k], NestUnmarked(t)) && !Enabled(ss[k], WriteLock(d))
    ensures k < |steps| ==> steps[k].t != t && steps[k].t != d
  {
    if k > 0 {
      UnmarkedNestingDeadlocks(ss, steps, t, d, k - 1);
      OtherThreadsStay(ss[k - 1], steps[k - 1], t);
      OtherThreadsStay(ss[k - 1], steps[k - 1], d);
    }
    if k < |steps| {
      NeitherSteps(ss[k], steps[k], t, d);
    }
  }

  lemma OuterCallRuns() returns (ss: seq<State>)
    ensures IsRun(ss, [Enter(0, 0, 1, 0), ReadLock(0), Check(0)])
    ensures ss[3] == State(map[0 := Arriving(0, 1, 0).(stage := Body, marked := true, releases := [ReadUnlock])],
          false, false)
  {
    var s1 := Next(INITIAL, Enter(0, 0, 1, 0));
    var s2 := Next(s1, ReadLock(0));
    var s3 := Next(s2, Check(0));
    assert s3.threads[0].releases == [ReadUnlock];
    assert s3.threads == map[0 := s3.threads[0]];
    ss := [INITIAL, s1, s2, s3];
  }

  lemma RunExtends(ss: seq<State>, steps: seq<Step>, step: Step)
    requires IsRun(ss, steps) && Enabled(ss[|steps|], step) && !step.NestUnmarked?
    ensures IsRun(ss + [Next(ss[|steps|], step)], steps + [step])
  {
  }

  // Such a state is reachable, and there the marked nested call can proceed.
  lemma MarkerPreventsSelfDeadlock() returns (ss: seq<State>, steps: seq<Step>, t: Tid, d: Tid)
    ensures IsRun(ss, steps)
    ensures var last := ss[|steps|];
            RunsBody(last, t) && Reads(last, t) && InStage(last, d, AtBarrier) && last.threads[t].calls > 0 &&
            Enabled(last, Nest(t)) && !Enabled(last, NestUnmarked(t))
  {
    ss := OuterCallRuns();
    steps, t, d := [Enter(0, 0, 1, 0), ReadLock(0), Check(0)], 0, 1;
    RunExtends(ss, steps, Delete(1, 0));
    ss, steps := ss + [Next(ss[3], Delete(1, 0))], steps + [Delete(1, 0)];
    assert ss[4].threads[1] == Deleting(LeavingRooms, 0);
    RunExtends(ss, steps, Announce(1));
    ss, steps := ss + [Next(ss[4], Announce(1))], steps + [Announce(1)];
  }

  // ---- Deadlock freedom ----

  // Everything but new arrivals.
  predicate Finishing(step: Step) {
    !step.Enter? && !step.Delete? && !step.NestUnmarked?
  }

  // The locks are taken in the order of their ranks.
  lemma LocksAreRanked(ss: seq<State>, steps: seq<Step>, k: nat, t: Tid, l: Lock)
    requires IsRun(ss, steps) && k < |ss| && t in ss[k].threads
    requires ss[k].threads[t].want.ALock? && l in ss[k].threads[t].held
    ensures Rank(l) < Rank(ss[k].threads[t].want.lock)
  {
    RunKeepsInv(ss, steps, k);
    assert ThreadInv(ss[k].threads[t]);
  }

  lemma IdleWorkerSteps(s: State, t: Tid) returns (step: Step)
    requires Idles(s, t) && ThreadInv(s.threads[t])
    ensures Finishing(step) && step.t == t && Enabled(s, step)
  {
    var thread := s.threads[t];
    if Saves(thread) {
      var l :| l in thread.held && l.MemberWrite?;
      step := Drop(t, l);
    } else if thread.stage.LeavingRooms? {
      assert thread.held == {};
      step := Announce(t);
    } else if thread.point != Returning {
      step := Return(t);
    } else if l :| l in thread.held {
      step := Drop(t, l);
    } else if |thread.releases| > 1 {
      step := Unnest(t);
    } else {
      step := Exit(t);
    }
  }

  // A thread that waits for a lock waits for a thread that waits, if at all, for a
  // lock of higher rank.
  lemma {:induction false} SomeWorkerSteps(s: State, t: Tid) returns (step: Step)
    requires LockInv(s) && Works(s, t)
    ensures Finishing(step) && step.t in s.threads && Enabled(s, step)
    decreases if s.threads[t].want.ALock? then MAX_RANK + 1 - Rank(s.threads[t].want.lock) else 0
  {
    var thread := s.threads[t];
    assert ThreadInv(thread);
    match thread.want
    case AClaim(_) => step := Poll(t, false);
    case ALock(l) =>
      if Free(s, l) {
        step := Take(t);
      } else {
        var u :| u in s.threads && l in s.threads[u].held;
        assert ThreadInv(s.threads[u]);
        step := SomeWorkerSteps(s, u);
      }
    case Nothing => step := IdleWorkerSteps(s, t);
  }

  lemma SomeThreadSteps(s: State, t: Tid) returns (step: Step)
    requires GateInv(s) && LockInv(s) && t in s.threads
    ensures Finishing(step) && step.t in s.threads && Enabled(s, step)
  {
    if u :| u in s.threads && Works(s, u) {
      step := SomeWorkerSteps(s, u);
    } else if u :| u in s.threads && s.threads[u].stage.Entered? {
      step := Check(u);
    } else if u :| u in s.threads && s.threads[u].stage.Resetting? {
      step := Commit(u);
    } else if u :| u in s.threads && (s.threads[u].stage.Clearing? || s.threads[u].stage.Unwinding?) {
      step := Finish(u);
    } else if u :| u in s.threads && s.threads[u].stage.AtBarrier? {
      assert forall v | v in s.threads :: ThreadInv(s.threads[v]);
      step := WriteLock(u);
    } else {
      step := ReadLock(t);
    }
  }

  // Every reachable state with an unfinished thread has a thread that can step.
  lemma NoDeadlock(ss: seq<State>, steps: seq<Step>, k: nat) returns (step: Step)
    requires IsRun(ss, steps) && k < |ss| && ss[k].threads != map[]
    ensures Finishing(step) && step.t in ss[k].threads && Enabled(ss[k], step)
  {
    RunKeepsInv(ss, steps, k);
    var t :| t in ss[k].threads;
    step := SomeThreadSteps(ss[k], t);
  }

  // ---- What a lock and a claim are good for ----

  // A claim is polled until it is granted or has been asked for often enough; the dispatch
  // goes on to its operation with a granted one and ends with one that was not, and the
  // handler goes on either way.
  lemma PollsEndExactly(s: State, t: Tid, claimed: bool)
    requires Enabled(s, Poll(t, claimed)) && ThreadInv(s.threads[t])
    ensures var was, n := s.threads[t], Next(s, Poll(t, claimed)).threads[t];
            (n.want.Nothing? <==> claimed || was.want.pollsLeft == 0) &&
            (!n.want.Nothing? ==> n == was.(want := AClaim(was.want.pollsLeft - 1))) &&
            (n.want.Nothing? ==>
              n == was.(want := Nothing,
                        point := if was.point == Handler then Handler
                                 else if claimed then BeforeOperation else Returning))
  {
  }

  // What holds at one point of a stretch, and is kept by each of its steps, holds at its end.
  lemma {:induction false} KeptAlong(ss: seq<State>, p: State -> bool, i: nat, j: nat)
    requires i <= j < |ss| && p(ss[i]) && forall k | i <= k < j :: p(ss[k]) ==> p(ss[k + 1])
    ensures p(ss[j])
    decreases j
  {
    if i < j {
      KeptAlong(ss, p, i, j - 1);
    }
  }

  // The dispatch waits for its claim or has given up.
  predicate Unclaimed(s: State, t: Tid) {
    t in s.threads && s.threads[t].stage.Body? &&
    ((s.threads[t].point == BeforeClaim && s.threads[t].want.AClaim?) || s.threads[t].point == Returning)
  }

  lemma UnclaimedStays(s: State, step: Step, t: Tid)
    requires LockInv(s) && Enabled(s, step) && Unclaimed(s, t) && step != Poll(t, true) && step != Exit(t)
    ensures Unclaimed(Next(s, step), t)
  {
    if step.t != t {
      OtherThreadsStay(s, step, t);
    } else {
      assert ThreadInv(s.threads[t]);
    }
  }

  // So, in every run, an operation that asked for its workflow's claim gets past it only
  // by a poll that was granted: without one it never comes to its handler.
  lemma UngrantedClaimNeverRuns(ss: seq<State>, steps: seq<Step>, t: Tid, i: nat, j: nat)
    requires IsRun(ss, steps) && i < j < |ss| && steps[i] == AskClaim(t) && ss[i].threads[t].point == BeforeClaim
    requires forall k | i < k < j :: steps[k] != Poll(t, true) && steps[k] != Exit(t)
    ensures Unclaimed(ss[j], t)
  {
    assert Unclaimed(ss[i + 1], t);
    forall k | i + 1 <= k < j ensures Unclaimed(ss[k], t) ==> Unclaimed(ss[k + 1], t) {
      RunKeepsInv(ss, steps, k);
      if Unclaimed(ss[k], t) {
        UnclaimedStays(ss[k], steps[k], t);
      }
    }
    KeptAlong(ss, s => Unclaimed(s, t), i + 1, j);
  }

  predicate Holds(s: State, t: Tid, l: Lock) {
    t in s.threads && l in s.threads[t].held
  }

  lemma TakenIsHeld(ss: seq<State>, steps: seq<Step>, t: Tid, l: Lock, i: nat)
    requires IsRun(ss, steps) && i < |steps| && steps[i] == Take(t) && ss[i].threads[t].want == ALock(l)
    ensures Holds(ss[i + 1], t, l) && (!l.MemberWrite? ==> Covers(ss[i + 1], t, l))
  {
    RunKeepsInv(ss, steps, i);
    assert ThreadInv(ss[i].threads[t]);
    assert ss[i + 1] == Next(ss[i], steps[i]);
  }

  lemma HeldStays(s: State, step: Step, t: Tid, l: Lock)
    requires LockInv(s) && Enabled(s, step) && Holds(s, t, l) && step != Drop(t, l)
    ensures Holds(Next(s, step), t, l)
  {
    if step.t != t {
      OtherThreadsStay(s, step, t);
    } else {
      assert ThreadInv(s.threads[t]);
    }
  }

  // And a lock that was taken is held until it is dropped: whatever happens in between, no
  // other thread takes it.
  lemma TakenLockExcludesOthers(ss: seq<State>, steps: seq<Step>, t: Tid, l: Lock, i: nat, j: nat)
    requires IsRun(ss, steps) && i < j < |ss| && steps[i] == Take(t) && ss[i].threads[t].want == ALock(l)
    requires forall k | i < k < j :: steps[k] != Drop(t, l)
    ensures Holds(ss[j], t, l)
    ensures forall u | u in ss[j].threads && ss[j].threads[u].want == ALock(l) :: !Enabled(ss[j], Take(u))
  {
    TakenIsHeld(ss, steps, t, l, i);
    forall k | i + 1 <= k < j ensures Holds(ss[k], t, l) ==> Holds(ss[k + 1], t, l) {
      RunKeepsInv(ss, steps, k);
      if Holds(ss[k], t, l) {
        HeldStays(ss[k], steps[k], t, l);
      }
    }
    KeptAlong(ss, s => Holds(s, t, l), i + 1, j);
  }

  // The operation holds the lock or is on its way out.
  predicate Covers(s: State, t: Tid, l: Lock) {
    RunsBody(s, t) && (l in s.threads[t].held || s.threads[t].point == Returning)
  }

  lemma CoverStays(s: State, step: Step, t: Tid, l: Lock)
    requires LockInv(s) && Enabled(s, step) && Covers(s, t, l) && !l.MemberWrite? && step != Exit(t)
    ensures Covers(Next(s, step), t, l)
  {
    if step.t != t {
      OtherThreadsStay(s, step, t);
    } else {
      assert ThreadInv(s.threads[t]);
    }
  }

  // The workflow and operation locks that an operation took it keeps until its handler is
  // over and it returns.
  lemma LocksCoverTheHandler(ss: seq<State>, steps: seq<Step>, t: Tid, l: Lock, i: nat, j: nat)
    requires IsRun(ss, steps) && i < j < |ss| && steps[i] == Take(t) && ss[i].threads[t].want == ALock(l)
    requires !l.MemberWrite? && forall k | i < k < j :: steps[k] != Exit(t)
    ensures Covers(ss[j], t, l)
  {
    TakenIsHeld(ss, steps, t, l, i);
    forall k | i + 1 <= k < j ensures Covers(ss[k], t, l) ==> Covers(ss[k + 1], t, l) {
      RunKeepsInv(ss, steps, k);
      if Covers(ss[k], t, l) {
        CoverStays(ss[k], steps[k], t, l);
      }
    }
    KeptAlong(ss, s => Covers(s, t, l), i + 1, j);
  }

  // Each point of the dispatch may ask for what it is before, and the handler for member
  // saves and claims while it has some before it.
  lemma EachPointMayAsk(s: State, t: Tid, l: Lock)
    requires t in s.threads && s.threads[t].stage.Body? && s.threads[t].want.Nothing? && !Saves(s.threads[t])
    ensures var thread := s.threads[t];
            (Enabled(s, AskClaim(t)) <==>
              thread.point == BeforeClaim || (thread.point == Handler && thread.claims > 0)) &&
            (Enabled(s, Ask(t, l)) <==>
              (l.Workflow? && thread.point == BeforeWorkflow) || (l.Operation? && thread.point == BeforeOperation) ||
              (l.MemberWrite? && thread.point == Handler && thread.saves > 0)) &&
            (Enabled(s, AskClaim(t)) ==>
              var n := Next(s, AskClaim(t)).threads[t];
              n.want == AClaim(40) && n.saves == thread.saves &&
              n.claims == if thread.point == Handler then thread.claims - 1 else thread.claims) &&
            (Enabled(s, Ask(t, l)) ==>
              var n := Next(s, Ask(t, l)).threads[t];
              n.want == ALock(l) && n.claims == thread.claims &&
              n.saves == if l.MemberWrite? then thread.saves - 1 else thread.saves)
  {
  }

  // ---- And every schedule finishes ----

  // Asking for a lock or a claim costs less than not having asked yet.
  function DispatchEffort(thread: Thread): nat {
    match thread.point
    case BeforeWorkflow => if thread.want.Nothing? then 60 else 59
    case BeforeClaim => if thread.want.AClaim? then 11 + thread.want.pollsLeft else 15 + CLAIM_POLLS
    case BeforeOperation => if thread.want.Nothing? then 9 else 8
    case Handler =>
      (match thread.want
       case Nothing => 1
       case ALock(_) => 4
       case AClaim(left) => 2 + left)
    case Returning => 0
  }

  function StageEffort(stage: Stage): nat {
    match stage
    case AtGate => 5
    case Entered => 3
    case Body => 1
    case LeavingRooms => 5
    case AtBarrier => 4
    case Resetting => 3
    case Clearing => 1
    case Unwinding => 1
  }

  function Effort(thread: Thread): nat {
    StageEffort(thread.stage) + DispatchEffort(thread) + 2 * |thread.held| + 6 * thread.saves + 2 * thread.calls +
    (6 + CLAIM_POLLS) * thread.claims + |thread.releases|
  }

  ghost function Total(threads: map<Tid, Thread>): nat
    decreases |threads|
  {
    if threads == map[] then 0
    else
      var t :| t in threads;
      Effort(threads[t]) + Total(threads - {t})
  }

  lemma {:induction false} TotalSplit(threads: map<Tid, Thread>, t: Tid)
    requires t in threads
    ensures Total(threads) == Effort(threads[t]) + Total(threads - {t})
    decreases |threads|
  {
    var u :| u in threads && Total(threads) == Effort(threads[u]) + Total(threads - {u});
    if u != t {
      TotalSplit(threads - {u}, t);
      TotalSplit(threads - {t}, u);
      assert threads - {u} - {t} == threads - {t} - {u};
    }
  }

  // One step of a thread that stays costs it effort.
  predicate Costs(s: State, step: Step)
    requires Enabled(s, step) && step.t in s.threads
  {
    var n := Next(s, step).threads;
    n - {step.t} == s.threads - {step.t} && (step.t in n ==> Effort(n[step.t]) < Effort(s.threads[step.t]))
  }

  lemma AskCosts(s: State, t: Tid, l: Lock)
    requires Enabled(s, Ask(t, l)) && ThreadInv(s.threads[t])
    ensures Costs(s, Ask(t, l))
  {
    assert Effort(Asked(s.threads[t], l)) < Effort(s.threads[t]);
  }

  lemma ClaimCosts(s: State, t: Tid)
    requires Enabled(s, AskClaim(t)) && ThreadInv(s.threads[t])
    ensures Costs(s, AskClaim(t))
  {
    assert Effort(Claiming(s.threads[t])) < Effort(s.threads[t]);
  }

  lemma PollCosts(s: State, t: Tid, claimed: bool)
    requires Enabled(s, Poll(t, claimed)) && ThreadInv(s.threads[t])
    ensures Costs(s, Poll(t, claimed))
  {
    assert Effort(Polled(s.threads[t], claimed)) < Effort(s.threads[t]);
  }

  lemma TakeCosts(s: State, t: Tid)
    requires Enabled(s, Take(t)) && ThreadInv(s.threads[t])
    ensures Costs(s, Take(t))
  {
    var thread := s.threads[t];
    assert |thread.held + {thread.want.lock}| <= |thread.held| + 1;
    assert Effort(Taken(thread)) < Effort(thread);
  }

  lemma DropCosts(s: State, t: Tid, l: Lock)
    requires Enabled(s, Drop(t, l)) && ThreadInv(s.threads[t])
    ensures Costs(s, Drop(t, l))
  {
    var thread := s.threads[t];
    assert |thread.held - {l}| == |thread.held| - 1;
    assert Effort(thread.(held := thread.held - {l})) < Effort(thread);
  }

  lemma MoveCosts(s: State, step: Step)
    requires (step.Skip? || step.Return? || step.Nest? || step.Unnest?) && Enabled(s, step)
    requires ThreadInv(s.threads[step.t])
    ensures Costs(s, step)
  {
  }

  lemma StageCosts(s: State, step: Step)
    requires Finishing(step) && Enabled(s, step) && step.t in s.threads && ThreadInv(s.threads[step.t])
    requires step.ReadLock? || step.Check? || step.Exit? || step.Announce? || step.WriteLock? || step.Commit? ||
             step.Fail? || step.Finish?
    ensures Costs(s, step)
  {
  }

  // Every such step makes the effort left smaller.
  lemma FinishingCosts(s: State, step: Step)
    requires Enabled(s, step) && Finishing(step) && step.t in s.threads && ThreadInv(s.threads[step.t])
    ensures Total(Next(s, step).threads) < Total(s.threads)
  {
    var t := step.t;
    var n := Next(s, step).threads;
    if step.Take? {
      TakeCosts(s, t);
    } else if step.Drop? {
      DropCosts(s, t, step.lock);
    } else if step.Ask? {
      AskCosts(s, t, step.lock);
    } else if step.AskClaim? {
      ClaimCosts(s, t);
    } else if step.Poll? {
      PollCosts(s, t, step.claimed);
    } else if step.Skip? || step.Return? || step.Nest? || step.Unnest? {
      MoveCosts(s, step);
    } else {
      StageCosts(s, step);
    }
    TotalSplit(s.threads, t);
    if t in n {
      TotalSplit(n, t);
    } else {
      assert n == n - {t};
    }
  }

  predicate IsSchedule(ss: seq<State>, steps: seq<Step>) {
    |ss| == |steps| + 1 &&
    forall k | 0 <= k < |steps| :: Finishing(steps[k]) && Enabled(ss[k], steps[k]) && ss[k + 1] == Next(ss[k], steps[k])
  }

  lemma FinishingStep(s: State, step: Step)
    requires GateInv(s) && LockInv(s) && Enabled(s, step) && Finishing(step)
    ensures GateInv(Next(s, step)) && LockInv(Next(s, step)) && Total(Next(s, step).threads) < Total(s.threads)
  {
    StepKeepsInv(s, step);
    assert step.t in s.threads;
    FinishingCosts(s, step);
  }

  lemma {:induction false} ScheduleIsBounded(ss: seq<State>, steps: seq<Step>, k: nat)
    requires IsSchedule(ss, steps) && GateInv(ss[0]) && LockInv(ss[0]) && k < |ss|
    ensures GateInv(ss[k]) && LockInv(ss[k]) && k + Total(ss[k].threads) <= Total(ss[0].threads)
  {
    if k > 0 {
      ScheduleIsBounded(ss, steps, k - 1);
      FinishingStep(ss[k - 1], steps[k - 1]);
    }
  }

  lemma StuckMeansDone(s: State)
    requires GateInv(s) && LockInv(s)
    ensures (forall step | Finishing(step) :: !Enabled(s, step)) <==> s.threads == map[]
  {
    if t :| t in s.threads {
      var step := SomeThreadSteps(s, t);
    }
  }

  // From a reachable state, every schedule of everything the threads inside still do,
  // their requests for locks and claims, their saves and their nested calls included, is
  // bounded by the effort left, and one that cannot be extended has finished them all.
  lemma EveryScheduleFinishes(rs: seq<State>, run: seq<Step>, ss: seq<State>, steps: seq<Step>)
    requires IsRun(rs, run) && IsSchedule(ss, steps) && ss[0] == rs[|run|]
    ensures |steps| + Total(ss[|steps|].threads) <= Total(ss[0].threads)
    ensures (forall step | Finishing(step) :: !Enabled(ss[|steps|], step)) <==> ss[|steps|].threads == map[]
  {
    RunKeepsInv(rs, run, |run|);
    ScheduleIsBounded(ss, steps, |steps|);
    StuckMeansDone(ss[|steps|]);
  }

  // ---- The service's own fields ----

  // The thread once it has begun a gated call, at the gate or inside a body.
  function InCall(thread: Thread): Thread
    requires thread.stage.Body? ==> thread.calls > 0
  {
    var begun := Begun(thread, thread.marked);
    if thread.stage.Body? then begun.(calls := thread.calls - 1) else begun.(stage := Entered)
  }

  lemma BeginIsStep(s: State, t: Tid)
    requires GateInv(s) && LockInv(s) && (Enabled(s, ReadLock(t)) || Enabled(s, Nest(t)))
    ensures var n := Put(s, t, InCall(s.threads[t]));
            n == Next(s, if RunsBody(s, t) then Nest(t) else ReadLock(t)) && GateInv(n) && LockInv(n) &&
            Reads(n, t) && n.threads[t].marked
  {
    StepKeepsInv(s, if RunsBody(s, t) then Nest(t) else ReadLock(t));
    assert ThreadInv(Put(s, t, InCall(s.threads[t])).threads[t]);
  }

  // The flags and the read/write lock as the service changes them.
  class Account {
    var threads: map<Tid, Thread>
    var inProgress: bool
    var deprovisioned: bool

    ghost function View(): State
      reads this
    {
      State(threads, inProgress, deprovisioned)
    }

    ghost predicate Valid()
      reads this
    {
      GateInv(View()) && LockInv(View())
    }

    constructor ()
      ensures Valid() && View() == INITIAL
    {
      threads, inProgress, deprovisioned := map[], false, false;
    }

    // Beginning a gated call, at the gate or inside a body, once it may proceed.
    method BeginOperation(t: Tid)
      requires Valid() && (Enabled(View(), ReadLock(t)) || Enabled(View(), Nest(t)))
      modifies this
      ensures Valid() && View() == Next(old(View()), if old(RunsBody(View(), t)) then Nest(t) else ReadLock(t))
      ensures Reads(View(), t) && threads[t].marked
    {
      BeginIsStep(View(), t);
      Push(t);
    }

    // The context either carries the marker, or gets it with the read lock.
    method Push(t: Tid)
      requires t in threads && (threads[t].stage.Body? ==> threads[t].calls > 0)
      modifies this
      ensures View() == Put(old(View()), t, InCall(old(threads)[t]))
    {
      var thread := threads[t];
      if thread.marked {
        thread := thread.(releases := thread.releases + [NoOp]);
      } else {
        thread := thread.(marked := true, releases := thread.releases + [ReadUnlock]);
      }
      if thread.stage.Body? {
        thread := thread.(calls := thread.calls - 1);
      } else {
        thread := thread.(stage := Entered);
      }
      threads := threads[t := thread];
    }

    // Past the gate a deprovisioned account turns the operation away.
    method CheckDeprovisioned(t: Tid) returns (admitted: bool)
      requires Valid() && InStage(View(), t, Entered)
      modifies this
      ensures Valid() && View() == Next(old(View()), Check(t))
      ensures admitted == RunsBody(View(), t) == !old(deprovisioned)
    {
      StepKeepsInv(View(), Check(t));
      admitted := !deprovisioned;
      if admitted {
        threads := threads[t := threads[t].(stage := Body)];
      } else {
        threads := threads - {t};
      }
    }

    method BeginDeletion(t: Tid, saves: nat) returns (begun: bool)
      requires Valid() && t !in threads
      modifies this
      ensures Valid() && View() == Next(old(View()), Delete(t, saves))
      ensures begun <==> !old(inProgress)
    {
      StepKeepsInv(View(), Delete(t, saves));
      begun := !inProgress;
      if begun {
        inProgress := true;
        threads := threads[t := Deleting(LeavingRooms, saves)];
      }
    }

    method FinishFailedDeletion(t: Tid)
      requires Valid() && InStage(View(), t, Unwinding)
      modifies this
      ensures Valid() && View() == Next(old(View()), Finish(t)) && !inProgress
    {
      StepKeepsInv(View(), Finish(t));
      threads := threads - {t};
      inProgress := false;
    }

    method ClearAfterDeprovision(t: Tid)
      requires Valid() && InStage(View(), t, Resetting)
      modifies this
      ensures Valid() && View() == Next(old(View()), Commit(t)) && deprovisioned
    {
      StepKeepsInv(View(), Commit(t));
      deprovisioned := true;
      threads := threads[t := Deleting(Clearing, 0)];
    }
  }
}
