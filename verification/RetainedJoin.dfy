// Joining a retained room and settling its member row.
//
// The join drives Matrix and then swaps the row on (generation, membership). Every
// read of the store is an input of its own, so other writers may change the row
// between any two accesses. The log records what one attempt saw and wrote.

module RetainedJoin {
  import opened Membership
  import opened MemberPersistence
  import opened Operations
  import opened OperationStore
  import opened Admission

  datatype JoinOutcome =
    | JoinOk(room: string)
    | AlreadyIn
    | Ambiguous
    | InProgress
    | NeedsInvite
    | Denied

  datatype Event =
    | Probed(room: string, joined: bool)
    | JoinedRoom(room: string)
    | Inserted(row: Row)
    | Swapped(before: Row, after: Row, request: RequestId, membership: Membership)
    | SavedOther(current: Option<Row>, row: Row)
    | Marked(phase: Phase)

  // The events of an attempt, latest last.
  datatype Log = Start | Then(earlier: Log, last: Event)

  datatype Failure = Internal | Transport | Unconfirmed

  datatype Attempt = Attempt(member: Row, stale: bool, busy: bool, final: bool)

  // What the store, Matrix and the helpers answer during one attempt: the n-th store
  // access sees rows(n), the n-th probe answers probe(n), and so on.
  datatype Io = Io(
    transport: bool,
    now: int,
    operation: Option<Record>,
    param: RequestId,
    rows: nat -> map<Key, Row>,
    probe: nat -> Probe,
    join: nat -> JoinOutcome,
    cancelled: nat -> bool,
    marks: nat -> bool,
    claim: Option<bool>,
    releases: bool,
    isChannel: bool,
    refreshedChannel: Option<string>,
    roster: Option<seq<Row>>,
    projects: bool
  )

  const JOIN_ATTEMPTS: nat := 10

  const NO_ROW := Row("", "", "", "", Unset, Ordinary, false, 0, "", Blank)

  // ---- What a log must satisfy ----

  predicate Supports(e: Event, room: string) {
    (e.Probed? && e.joined && e.room == room) || (e.JoinedRoom? && e.room == room)
  }

  predicate HasEvidence(log: Log, room: string) {
    log.Then? && (Supports(log.last, room) || HasEvidence(log.earlier, room))
  }

  // A swap found the row its writer expected and kept the generation the row had.
  predicate FencedSwap(e: Event) {
    e.Swapped? ==>
      Matches(e.before, e.request, e.membership) && KeyOf(e.before) == KeyOf(e.after) &&
      (e.before.request == Blank || e.after.request == e.before.request)
  }

  predicate StoresJoin(e: Event) {
    e.Swapped? && e.after.membership == Join
  }

  // Every swap is fenced, and with a transport every event that stores "join" comes
  // after an event in which Matrix confirmed the member for that room.
  predicate Good(log: Log, transport: bool) {
    log.Then? ==>
      Good(log.earlier, transport) && FencedSwap(log.last) &&
      (transport && StoresJoin(log.last) ==> HasEvidence(log.earlier, log.last.after.room))
  }

  predicate NeverFailed(log: Log) {
    log.Then? ==> NeverFailed(log.earlier) && (log.last.Swapped? ==> log.last.after.membership in {Joining, Join})
  }

  predicate OnlyClaims(log: Log) {
    log.Then? ==> OnlyClaims(log.earlier) && (log.last.Swapped? ==> log.last.after.membership == Joining)
  }

  predicate HasSwap(log: Log) {
    log.Then? && (log.last.Swapped? || HasSwap(log.earlier))
  }

  predicate HasJoin(log: Log) {
    log.Then? && (StoresJoin(log.last) || HasJoin(log.earlier))
  }

  // ---- Store and Matrix access ----

  function Find(io: Io, n: nat, key: Key): Option<Row> {
    if key.0 != "" && key.1 != "" && key in io.rows(n) then Some(io.rows(n)[key].(room := key.0, user := key.1))
      else None
  }

  // The conditional save: one access reads and merges, the next one swaps.
  function TrySave(io: Io, n: nat, member: Row, request: RequestId, membership: Membership): Option<Event> {
    var key := KeyOf(member);
    if key in io.rows(n) && Matches(io.rows(n)[key], request, membership) then
      var merged := Merge(Prepare(member, io.now), io.rows(n)[key]);
      if key in io.rows(n + 1) && Matches(io.rows(n + 1)[key], request, membership)
      then Some(Swapped(io.rows(n + 1)[key].(room := key.0, user := key.1), merged, request, membership))
      else None
    else None
  }

  function ProbeOf(io: Io, n: nat, room: string, user: string): Probe {
    if !io.transport || room == "" || user == "" then IsOut else io.probe(n)
  }

  // A save that lands is fenced, keeps the intended membership and stays in the
  // generation that was expected.
  lemma SaveLands(io: Io, n: nat, member: Row, request: RequestId, membership: Membership)
    requires TrySave(io, n, member, request, membership).Some?
    requires member.request == Blank || request == Blank || member.request == request
    requires member.membership in {Joining, JoinFailed, Join}
    ensures var e := TrySave(io, n, member, request, membership).value;
            FencedSwap(e) && e.after.membership == member.membership && KeyOf(e.after) == KeyOf(member) &&
            e.before.request == request && Find(io, n + 1, KeyOf(member)) in {None, Some(e.before)}
  {
  }

  // A row is found only under a full address, and only a transport is asked, for a member
  // with one.
  lemma FullAddressesAreFound(io: Io, n: nat, room: string, user: string)
    ensures Find(io, n, (room, user)).Some? <==> room != "" && user != "" && (room, user) in io.rows(n)
    ensures io.transport && room != "" && user != "" ==> ProbeOf(io, n, room, user) == io.probe(n)
    ensures !io.transport || room == "" || user == "" ==> ProbeOf(io, n, room, user) == IsOut
  {
  }

  // ---- The Matrix side ----

  predicate Retryable(o: JoinOutcome) {
    o.NeedsInvite? || o.InProgress?
  }

  // The outcome of the calls from the k-th on.
  function Retried(io: Io, k: nat, bound: nat): JoinOutcome
    requires k < bound
    decreases bound - k
  {
    if !Retryable(io.join(k)) || k + 1 == bound then io.join(k)
    else if io.cancelled(k) then Ambiguous
    else Retried(io, k + 1, bound)
  }

  method JoinRoomWithRetry(io: Io, maxAttempts: int) returns (outcome: JoinOutcome, calls: nat)
    ensures outcome == Retried(io, 0, if maxAttempts <= 0 then 1 else maxAttempts)
    ensures 1 <= calls && (calls <= maxAttempts || calls == 1)
    ensures forall k | 0 <= k < calls - 1 :: io.join(k) in {NeedsInvite, InProgress} && !io.cancelled(k)
    ensures outcome == io.join(calls - 1) ||
            (outcome == Ambiguous && io.cancelled(calls - 1) && io.join(calls - 1) in {NeedsInvite, InProgress})
    ensures outcome in {NeedsInvite, InProgress} ==> calls == maxAttempts || maxAttempts <= 1
  {
    var bound := if maxAttempts <= 0 then 1 else maxAttempts;
    calls := 0;
    while true
      invariant 0 <= calls < bound
      invariant forall k | 0 <= k < calls :: Retryable(io.join(k)) && !io.cancelled(k)
      invariant Retried(io, 0, bound) == Retried(io, calls, bound)
      decreases bound - calls
    {
      outcome := io.join(calls);
      calls := calls + 1;
      if !Retryable(outcome) || calls == bound {
        return;
      }
      if io.cancelled(calls - 1) {
        outcome := Ambiguous;
        return;
      }
    }
  }

  predicate CommittedRoom(io: Io) {
    io.operation.Some? && HasExternalCommit(io.operation.value.phase) && io.operation.value.currentRoom != ""
  }

  // The member and the error the Matrix side ends with.
  function MatrixJoin(io: Io, start: Row, probes: nat): (Row, Option<Failure>) {
    var member := if CommittedRoom(io) then start.(room := io.operation.value.currentRoom) else start;
    var marked: Option<Failure> := if io.marks(1) then None else Some(Internal);
    if !io.transport then (member, None)
    else
      match ProbeOf(io, probes, member.room, member.user)
      case ProbeError => (member, Some(Transport))
      case IsIn => (member, marked)
      case IsOut =>
        match Retried(io, 0, JOIN_ATTEMPTS)
        case AlreadyIn =>
          (match ProbeOf(io, probes + 1, member.room, member.user)
           case IsIn => (member, marked)
           case IsOut => (member, Some(Unconfirmed))
           case ProbeError => (member, Some(Transport)))
        case JoinOk(room) => (member.(room := OrElse(room, member.room)), marked)
        case Ambiguous => (member, Some(if io.marks(0) then Unconfirmed else Internal))
        case InProgress => (member, Some(if io.marks(0) then Unconfirmed else Internal))
        case NeedsInvite => (member, Some(Transport))
        case Denied => (member, Some(Transport))
  }

  // Only the Matrix fact changes here; without an error it is established, for the
  // room the member then names, by a probe or by the join itself.
  method CommitMatrixJoin(io: Io, start: Row, probes: nat, log0: Log)
    returns (member: Row, err: Option<Failure>, log: Log)
    requires Good(log0, io.transport) && OnlyClaims(log0)
    ensures (member, err) == MatrixJoin(io, start, probes)
    ensures Good(log, io.transport) && OnlyClaims(log) && (HasSwap(log) <==> HasSwap(log0))
    ensures member == start.(room := member.room)
    ensures err.None? && io.transport ==> HasEvidence(log, member.room)
  {
    member, err, log := start, None, log0;
    if CommittedRoom(io) {
      member := member.(room := io.operation.value.currentRoom);
    }
    if !io.transport {
      return;
    }
    var joined := ProbeOf(io, probes, member.room, member.user);
    if joined == ProbeError {
      return member, Some(Transport), log;
    }
    log := Then(log, Probed(member.room, joined == IsIn));
    assert HasSwap(log) <==> HasSwap(log0);
    if joined == IsOut {
      var outcome, calls := JoinRoomWithRetry(io, JOIN_ATTEMPTS);
      if outcome.AlreadyIn? {
        var confirmed := ProbeOf(io, probes + 1, member.room, member.user);
        if confirmed != IsIn {
          return member, Some(if confirmed == ProbeError then Transport else Unconfirmed), log;
        }
        log := Then(log, Probed(member.room, true));
      } else if outcome.JoinOk? {
        member := member.(room := OrElse(outcome.room, member.room));
        log := Then(log, JoinedRoom(member.room));
      } else if outcome.Ambiguous? || outcome.InProgress? {
        log := Then(log, Marked(MatrixUnconfirmed));
        return member, Some(if io.marks(0) then Unconfirmed else Internal), log;
      } else {
        return member, Some(Transport), log;
      }
    }
    assert HasSwap(log) <==> HasSwap(log0);
    log := Then(log, Marked(MatrixCommitted));
    if !io.marks(1) {
      err := Some(Internal);
    }
  }

  // Matrix has the member in the room, as a probe or the join itself says.
  predicate Confirms(io: Io, m: Row, probes: nat) {
    match ProbeOf(io, probes, m.room, m.user)
    case IsIn => true
    case ProbeError => false
    case IsOut =>
      var outcome := Retried(io, 0, JOIN_ATTEMPTS);
      outcome.JoinOk? || (outcome.AlreadyIn? && ProbeOf(io, probes + 1, m.room, m.user) == IsIn)
  }

  // The join may have happened: an ambiguous one that was marked as such, or one that
  // Matrix calls done and a probe does not find.
  predicate LeavesOpen(io: Io, m: Row, probes: nat) {
    ProbeOf(io, probes, m.room, m.user) == IsOut &&
    var outcome := Retried(io, 0, JOIN_ATTEMPTS);
    (outcome.AlreadyIn? && ProbeOf(io, probes + 1, m.room, m.user) == IsOut) ||
    ((outcome.Ambiguous? || outcome.InProgress?) && io.marks(0))
  }

  // The room the member is in afterwards: the one a join that was made names, if it does.
  function JoinedRoomOf(io: Io, m: Row, probes: nat): string {
    var outcome := Retried(io, 0, JOIN_ATTEMPTS);
    if io.transport && ProbeOf(io, probes, m.room, m.user) == IsOut && outcome.JoinOk? && outcome.room != ""
    then outcome.room else m.room
  }

  // With a transport the Matrix side succeeds exactly when Matrix confirms the member and
  // the operation could be marked, and is unconfirmed exactly when it leaves that open.
  lemma MatrixOutcomeExactly(io: Io, start: Row, probes: nat)
    ensures var m := if CommittedRoom(io) then start.(room := io.operation.value.currentRoom) else start;
            var (member, err) := MatrixJoin(io, start, probes);
            member == m.(room := JoinedRoomOf(io, m, probes)) &&
            (err.None? <==> !io.transport || (Confirms(io, m, probes) && io.marks(1))) &&
            (err == Some(Unconfirmed) <==> io.transport && LeavesOpen(io, m, probes))
  {
  }

  // ---- Settling the row ----

  // An attempt returns early, holding the join claim or not, or goes on to settle.
  datatype Stage =
    | Returned(attempt: Attempt, err: Option<Failure>, holds: bool)
    | Proceed(member: Row, request: RequestId, membership: Membership, joined: bool, holds: bool, claimed: bool)

  predicate StageOk(stage: Stage, log: Log, transport: bool) {
    match stage
    case Returned(attempt, err, _) =>
      (attempt.stale || attempt.busy || err.Some?) && !HasSwap(log) &&
      (attempt.busy ==> err == Some(Unconfirmed)) && (!attempt.final ==> err.Some? && !attempt.stale) &&
      (attempt.final && !attempt.stale ==> attempt.busy)
    case Proceed(member, request, _, joined, _, claimed) =>
      (member.request == Blank || request == Blank || member.request == request) &&
      (joined ==> transport && HasEvidence(log, member.room)) && (claimed <==> HasSwap(log))
  }

  const INTERRUPTED := Attempt(NO_ROW, false, false, false)

  function Interrupt(err: Failure, holds: bool): Stage {
    Returned(INTERRUPTED, Some(err), holds)
  }

  function StaleAt(current: Row, holds: bool): Stage {
    Returned(Attempt(current, true, false, true), None, holds)
  }

  predicate OtherGeneration(wanted: RequestId, current: RequestId) {
    wanted != Blank && current != Blank && wanted != current
  }

  // The caller's member with the operation's generation and room filled in.
  function Filled(io: Io, given: Row): Row {
    var own := if io.operation.Some? then io.operation.value.request else Blank;
    var member := given.(request := FirstSet(given.request, FirstSet(own, io.param)));
    if CommittedRoom(io) then member.(room := io.operation.value.currentRoom) else member
  }

  function AdoptedStage(io: Io, given: Row): Stage {
    var member := Filled(io, given);
    var first := Find(io, 0, KeyOf(member));
    var found := if first.None? then Find(io, 1, KeyOf(member)) else first;
    if found.None? then Interrupt(Internal, false)
    else
      var adopted := if first.None? then found.value else member;
      if OtherGeneration(adopted.request, found.value.request) then StaleAt(found.value, false)
      else Proceed(adopted.(request := FirstSet(adopted.request, found.value.request)),
                   found.value.request, found.value.membership, false, false, false)
  }

  // Adopts the stored generation, or inserts "joining" when there is no row yet.
  method AdoptRow(io: Io, given: Row) returns (stage: Stage, log: Log)
    ensures stage == AdoptedStage(io, given)
    ensures Good(log, io.transport) && OnlyClaims(log) && !HasSwap(log) && StageOk(stage, log, io.transport)
  {
    log := Start;
    var member := given;
    if member.request == Blank {
      if io.operation.Some? {
        member := member.(request := io.operation.value.request);
      }
      member := member.(request := FirstSet(member.request, io.param));
    }
    if CommittedRoom(io) {
      member := member.(room := io.operation.value.currentRoom);
    }
    var found := Find(io, 0, KeyOf(member));
    if found.None? {
      log := Then(log, Inserted(Prepare(member.(membership := Joining), io.now)));
      found := Find(io, 1, KeyOf(member));
      if found.None? {
        return Interrupt(Internal, false), log;
      }
      member := found.value;
    }
    var current := found.value;
    if OtherGeneration(member.request, current.request) {
      return StaleAt(current, false), log;
    }
    member := member.(request := FirstSet(member.request, current.request));
    stage := Proceed(member, current.request, current.membership, false, false, false);
  }

  // The row the claim writes over the current one.
  function ClaimOf(member: Row, current: Row): Row {
    member.(request := FirstSet(current.request, member.request), membership := Joining)
  }

  function ClaimStage(io: Io, member: Row): Stage {
    var found := Find(io, 2, KeyOf(member));
    if io.claim.None? then Interrupt(Internal, false)
    else if !io.claim.value then
      var joined := ProbeOf(io, 1, member.room, member.user);
      if joined == ProbeError then Interrupt(Transport, false)
      else if found.None? then Interrupt(Internal, false)
      else if OtherGeneration(member.request, found.value.request) then StaleAt(found.value, false)
      else if joined == IsOut then Returned(Attempt(found.value, false, true, true), Some(Unconfirmed), false)
      else Proceed(found.value, found.value.request, found.value.membership, true, false, false)
    else if found.None? then Interrupt(Internal, true)
    else
      var current := found.value;
      if OtherGeneration(member.request, current.request) ||
        !JoinClaimable(current.membership) then StaleAt(current, true)
      else if TrySave(io, 3, ClaimOf(member, current), current.request, current.membership).Some? then
        Proceed(ClaimOf(member, current), ClaimOf(member, current).request, Joining, false, true, true)
      else
        var latest := Find(io, 5, KeyOf(member));
        if latest.None? then Interrupt(Internal, true) else StaleAt(latest.value, true)
  }

  // Swaps the row to "joining" under the join claim, or answers for the claimant that
  // holds it.
  method TakeClaim(io: Io, member: Row, log0: Log) returns (stage: Stage, log: Log)
    requires Good(log0, io.transport) && OnlyClaims(log0) && !HasSwap(log0) && io.transport
    ensures stage == ClaimStage(io, member)
    ensures Good(log, io.transport) && OnlyClaims(log) && StageOk(stage, log, io.transport)
  {
    log := log0;
    if io.claim.None? {
      return Interrupt(Internal, false), log;
    }
    if !io.claim.value {
      var joined := ProbeOf(io, 1, member.room, member.user);
      if joined == ProbeError {
        return Interrupt(Transport, false), log;
      }
      log := Then(log, Probed(member.room, joined == IsIn));
      var other := Find(io, 2, KeyOf(member));
      if other.None? {
        return Interrupt(Internal, false), log;
      }
      if OtherGeneration(member.request, other.value.request) {
        return StaleAt(other.value, false), log;
      }
      if joined == IsOut {
        return Returned(Attempt(other.value, false, true, true), Some(Unconfirmed), false), log;
      }
      return Proceed(other.value, other.value.request, other.value.membership, true, false, false), log;
    }
    var found := Find(io, 2, KeyOf(member));
    if found.None? {
      return Interrupt(Internal, true), log;
    }
    var current := found.value;
    if OtherGeneration(member.request, current.request) || !JoinClaimable(current.membership) {
      return StaleAt(current, true), log;
    }
    var claim := member.(request := FirstSet(current.request, member.request), membership := Joining);
    var saved := TrySave(io, 3, claim, current.request, current.membership);
    if saved.None? {
      var latest := Find(io, 5, KeyOf(member));
      return if latest.None? then Interrupt(Internal, true) else StaleAt(latest.value, true), log;
    }
    SaveLands(io, 3, claim, current.request, current.membership);
    log := Then(log, saved.value);
    stage := Proceed(claim, claim.request, Joining, false, true, true);
  }

  function ClaimedStage(io: Io, given: Row): Stage {
    var stage := AdoptedStage(io, given);
    if stage.Returned? || !io.transport then stage
    else
      match ProbeOf(io, 0, stage.member.room, stage.member.user)
      case ProbeError => Interrupt(Transport, false)
      case IsIn => stage.(joined := true)
      case IsOut => ClaimStage(io, stage.member)
  }

  // From the caller's member to the row this attempt will settle.
  method ClaimRow(io: Io, given: Row) returns (stage: Stage, log: Log)
    ensures stage == ClaimedStage(io, given)
    ensures Good(log, io.transport) && OnlyClaims(log) && StageOk(stage, log, io.transport)
  {
    stage, log := AdoptRow(io, given);
    if stage.Returned? || !io.transport {
      return;
    }
    var joined := ProbeOf(io, 0, stage.member.room, stage.member.user);
    if joined == ProbeError {
      return Interrupt(Transport, false), log;
    }
    log := Then(log, Probed(stage.member.room, joined == IsIn));
    if joined == IsIn {
      stage := stage.(joined := true);
    } else {
      stage, log := TakeClaim(io, stage.member, log);
    }
  }

  function Fact(io: Io, stage: Stage): (Row, Probe, Option<Failure>)
    requires stage.Proceed?
  {
    if stage.joined then (stage.member, IsIn, if io.marks(1) then None else Some(Internal))
    else
      var (member, err) := MatrixJoin(io, stage.member, 2);
      if err.None? then (member, IsIn, None) else (member, ProbeOf(io, 4, member.room, member.user), err)
  }

  // Brings about, or finds, the Matrix fact the settlement will record.
  method EstablishFact(io: Io, stage: Stage, log0: Log)
    returns (member: Row, joined: Probe, err: Option<Failure>, log: Log)
    requires stage.Proceed? && StageOk(stage, log0, io.transport)
    requires Good(log0, io.transport) && OnlyClaims(log0)
    ensures (member, joined, err) == Fact(io, stage)
    ensures Good(log, io.transport) && OnlyClaims(log) && (HasSwap(log) <==> HasSwap(log0))
    ensures member == stage.member.(room := member.room)
    ensures joined == IsIn && io.transport ==> HasEvidence(log, member.room)
    ensures joined != IsIn ==> err.Some?
  {
    member, log, err := stage.member, log0, None;
    if stage.joined {
      log := Then(log, Marked(MatrixCommitted));
      return member, IsIn, if io.marks(1) then None else Some(Internal), log;
    }
    member, err, log := CommitMatrixJoin(io, member, 2, log);
    if err.None? {
      return member, IsIn, None, log;
    }
    joined := ProbeOf(io, 4, member.room, member.user);
    log := Then(log, Probed(member.room, joined == IsIn));
  }

  function SettledMember(io: Io, member: Row, expected: Membership, joined: bool, err: Option<Failure>): Row {
    if joined then
      member.(membership := Join,
              joinedAt := if !IsJoined(expected) || member.joinedAt == 0 then io.now else member.joinedAt)
    else member.(membership := if err == Some(Unconfirmed) then Joining else JoinFailed)
  }

  // The row a stage that goes on tries to settle, and whether that save lands.
  function ToSettle(io: Io, stage: Stage): Row
    requires stage.Proceed?
  {
    var (member, joined, err) := Fact(io, stage);
    SettledMember(io, member, stage.membership, joined == IsIn, err)
  }

  predicate SettleLands(io: Io, stage: Stage) {
    stage.Proceed? && Fact(io, stage).1 != ProbeError &&
    TrySave(io, 6, ToSettle(io, stage), stage.request, stage.membership).Some?
  }

  // The claim to "joining" was written.
  predicate ClaimLanded(io: Io, given: Row) {
    var stage := ClaimedStage(io, given);
    stage.Proceed? && stage.claimed
  }

  // The settlement to "join" was written.
  predicate JoinLanded(io: Io, given: Row) {
    var stage := ClaimedStage(io, given);
    SettleLands(io, stage) && Fact(io, stage).1 == IsIn
  }

  function Settled(io: Io, given: Row): (Attempt, Option<Failure>) {
    var stage := ClaimedStage(io, given);
    if stage.Returned? then (stage.attempt, stage.err)
    else
      var (_, joined, err) := Fact(io, stage);
      var member := ToSettle(io, stage);
      if joined == ProbeError then (INTERRUPTED, Some(Transport))
      else if SettleLands(io, stage) then (Attempt(member, false, false, true), err)
      else
        var found := Find(io, 8, KeyOf(member));
        if found.None? then (INTERRUPTED, Some(Internal)) else (Attempt(found.value, true, false, true), None)
  }

  // A swap that ends the log with the given row.
  predicate EndsWith(log: Log, row: Row) {
    log.Then? && log.last.Swapped? && log.last.after.membership == row.membership &&
    KeyOf(log.last.after) == KeyOf(row)
  }

  lemma {:induction false} ClaimsStoreNoJoin(log: Log)
    requires OnlyClaims(log)
    ensures !HasJoin(log) && NeverFailed(log)
  {
    if log.Then? {
      ClaimsStoreNoJoin(log.earlier);
    }
  }

  // The whole attempt up to and including the settlement of its own row.
  method JoinAndSettle(io: Io, given: Row) returns (r: Attempt, err: Option<Failure>, log: Log)
    ensures (r, err) == Settled(io, given)
    // Every swap is fenced, and with a transport "join" is stored only after Matrix
    // reported the member joined, or JoinRoom succeeded, in this attempt and room.
    ensures Good(log, io.transport)
    // A settled attempt ends with its own swap: to "join", or in the same generation
    // to "joining" or "join_failed" after the earlier claim at most.
    ensures r.final && !r.stale && !r.busy ==>
              EndsWith(log, r.member) && r.member.membership in {Join, Joining, JoinFailed} && OnlyClaims(log.earlier)
    ensures r.final && !r.stale && !r.busy && r.member.membership != Join ==> err.Some?
    // Joining is what an attempt leaves that may yet turn out to have joined.
    ensures r.final && !r.stale && !r.busy && r.member.membership != Join ==>
              (r.member.membership == Joining <==> err == Some(Unconfirmed))
    ensures r.final && !r.stale && err.None? ==> r.member.membership == Join
    ensures JoinLanded(io, given) <==> r.final && !r.stale && !r.busy && r.member.membership == Join
    // A stale attempt wrote nothing exactly when its claim did not land, and never more
    // than that claim; a busy one wrote nothing.
    ensures r.stale ==> OnlyClaims(log) && (HasSwap(log) <==> ClaimLanded(io, given))
    ensures r.busy ==> !HasSwap(log) && err == Some(Unconfirmed)
    ensures !r.final ==> err.Some? && OnlyClaims(log)
  {
    var stage;
    stage, log := ClaimRow(io, given);
    if stage.Returned? {
      return stage.attempt, stage.err, log;
    }
    var member, joined;
    member, joined, err, log := EstablishFact(io, stage, log);
    if joined == ProbeError {
      return INTERRUPTED, Some(Transport), log;
    }
    member := SettledMember(io, member, stage.membership, joined == IsIn, err);
    var saved := TrySave(io, 6, member, stage.request, stage.membership);
    if saved.None? {
      var found := Find(io, 8, KeyOf(member));
      if found.None? {
        return INTERRUPTED, Some(Internal), log;
      }
      return Attempt(found.value, true, false, true), None, log;
    }
    SaveLands(io, 6, member, stage.request, stage.membership);
    log := Then(log, saved.value);
    r := Attempt(member, false, false, true);
  }

  // When the claim lands: the transport is there, Matrix does not have the member, the
  // join claim was granted, and the row was still claimable in this generation at the
  // lookup and at the swap.
  lemma ClaimLandsExactly(io: Io, given: Row)
    ensures ClaimLanded(io, given) <==>
              var stage := AdoptedStage(io, given);
              io.transport && stage.Proceed? && ProbeOf(io, 0, stage.member.room, stage.member.user) == IsOut &&
              io.claim == Some(true) && Find(io, 2, KeyOf(stage.member)).Some? &&
              var current := Find(io, 2, KeyOf(stage.member)).value;
              !OtherGeneration(stage.member.request, current.request) && JoinClaimable(current.membership) &&
              TrySave(io, 3, ClaimOf(stage.member, current), current.request, current.membership).Some?
  {
  }

  // ---- Each attempt, by what it finds ----

  // The attempt goes on exactly with a row that is there, or that it could insert, in its
  // own generation; a row of another generation is answered as it is.
  lemma AdoptsExactly(io: Io, given: Row)
    ensures var m, stage := Filled(io, given), AdoptedStage(io, given);
            var first := Find(io, 0, KeyOf(m));
            var found := if first.None? then Find(io, 1, KeyOf(m)) else first;
            (stage.Proceed? <==>
              found.Some? && (first.None? || m.request == Blank || found.value.request in {Blank, m.request})) &&
            (stage.Proceed? ==>
              KeyOf(stage.member) == KeyOf(m) && !stage.joined && !stage.holds && !stage.claimed &&
              stage.request == found.value.request && stage.membership == found.value.membership &&
              stage.member.request == if first.Some? && m.request != Blank then m.request else found.value.request) &&
            (stage.Returned? ==>
              stage == if found.Some? then StaleAt(found.value, false) else Interrupt(Internal, false))
  {
  }

  // The generation is the caller's, else the operation's, else the parameter's, and the
  // room the one the operation has committed, if any.
  lemma FilledIs(io: Io, given: Row)
    ensures var m := Filled(io, given);
            (given.request != Blank ==> m.request == given.request) &&
            (given.request == Blank && io.operation.Some? && io.operation.value.request != Blank ==>
              m.request == io.operation.value.request) &&
            (given.request == Blank && (io.operation.None? || io.operation.value.request == Blank) ==>
              m.request == io.param) &&
            m == given.(request := m.request, room := m.room) &&
            m.room == if io.operation.Some? && io.operation.value.currentRoom != "" &&
                        io.operation.value.phase in {MatrixCommitted, CallbackAcknowledged, PhaseCompleted}
                      then io.operation.value.currentRoom else given.room
  {
  }

  // A member that Matrix has already needs no claim: the attempt goes on as joined.
  lemma JoinedMembersNeedNoClaim(io: Io, given: Row)
    requires AdoptedStage(io, given).Proceed? && io.transport
    requires var m := AdoptedStage(io, given).member; ProbeOf(io, 0, m.room, m.user) != IsOut
    ensures var stage := AdoptedStage(io, given);
            if ProbeOf(io, 0, stage.member.room, stage.member.user) == ProbeError
            then Settled(io, given) == (INTERRUPTED, Some(Transport))
            else ClaimedStage(io, given) ==
                   Proceed(stage.member, stage.request, stage.membership, true, false, false) &&
                 FinalProbe(io, ClaimedStage(io, given)) == IsIn
  {
    AdoptsExactly(io, given);
  }

  // The attempt is taken over by the claimant that holds the claim exactly when its own
  // was refused and Matrix does not have the member; when Matrix has it by then, it goes
  // on with the row it finds. Neither writes.
  lemma RefusedClaimAnswers(io: Io, given: Row)
    requires AdoptedStage(io, given).Proceed? && io.transport && io.claim == Some(false)
    requires var m := AdoptedStage(io, given).member; ProbeOf(io, 0, m.room, m.user) == IsOut
    ensures var m, stage := AdoptedStage(io, given).member, ClaimedStage(io, given);
            var found, again := Find(io, 2, KeyOf(m)), ProbeOf(io, 1, m.room, m.user);
            var same := found.Some? && (m.request == Blank || found.value.request in {Blank, m.request});
            (stage.Returned? && stage.attempt.busy <==> again == IsOut && same) &&
            (stage.Returned? && stage.attempt.busy ==> stage.attempt.member == found.value) &&
            (stage.Proceed? <==> again == IsIn && same) &&
            (stage.Proceed? ==>
              stage == Proceed(found.value, found.value.request, found.value.membership, true, false, false)) &&
            (stage.Returned? && stage.attempt.stale <==> again != ProbeError && found.Some? && !same)
  {
  }

  // A claim that lands puts the row of this attempt's generation to joining, and a claim
  // that was granted is held, whatever becomes of it, until the end of the attempt.
  lemma GrantedClaimIsHeld(io: Io, given: Row)
    ensures ClaimedStage(io, given).holds <==>
              io.transport && io.claim == Some(true) && AdoptedStage(io, given).Proceed? &&
              var m := AdoptedStage(io, given).member; ProbeOf(io, 0, m.room, m.user) == IsOut
    ensures ClaimLanded(io, given) ==>
              var m, stage := AdoptedStage(io, given).member, ClaimedStage(io, given);
              var current := Find(io, 2, KeyOf(m)).value;
              stage.member == m.(request := stage.request, membership := Joining) && stage.membership == Joining &&
              stage.request == (if current.request != Blank then current.request else m.request) && !stage.joined
  {
  }

  // The row is as it is expected.
  predicate Found(io: Io, n: nat, key: Key, request: RequestId, membership: Membership) {
    key in io.rows(n) && Matches(io.rows(n)[key], request, membership)
  }

  // The attempt knows that Matrix has the member without asking once more.
  predicate Knows(io: Io, stage: Stage)
    requires stage.Proceed?
  {
    stage.joined || !io.transport || (Confirms(io, stage.member, 2) && io.marks(1))
  }

  // What Matrix says of the member in the end, and the row the attempt then wants.
  function FinalProbe(io: Io, stage: Stage): Probe
    requires stage.Proceed?
  {
    if Knows(io, stage) then IsIn
    else ProbeOf(io, 4, JoinedRoomOf(io, stage.member, 2), stage.member.user)
  }

  function FinalMembership(io: Io, stage: Stage): Membership
    requires stage.Proceed?
  {
    if FinalProbe(io, stage) == IsIn then Join
    else if LeavesOpen(io, stage.member, 2) then Joining
    else JoinFailed
  }

  function FinalKey(io: Io, stage: Stage): Key
    requires stage.Proceed?
  {
    (if stage.joined then stage.member.room else JoinedRoomOf(io, stage.member, 2), stage.member.user)
  }

  lemma FactIsFinal(io: Io, stage: Stage)
    requires stage.Proceed?
    requires CommittedRoom(io) && !stage.joined ==> stage.member.room == io.operation.value.currentRoom
    ensures var (member, joined, err) := Fact(io, stage);
            joined == FinalProbe(io, stage) && KeyOf(member) == FinalKey(io, stage) &&
            member == stage.member.(room := member.room) &&
            (err == Some(Unconfirmed) <==> !stage.joined && io.transport && LeavesOpen(io, stage.member, 2)) &&
            (err.None? <==> Knows(io, stage) && (stage.joined ==> io.marks(1)))
  {
    MatrixOutcomeExactly(io, stage.member, 2);
  }

  lemma StageKeepsRoom(io: Io, given: Row)
    requires ClaimedStage(io, given).Proceed? && CommittedRoom(io)
    ensures ClaimedStage(io, given).member.room == io.operation.value.currentRoom
  {
    AdoptsExactly(io, given);
  }

  // How an attempt that goes on is settled: without Matrix's word it is interrupted; else
  // it leaves the row in join if Matrix has the member, in joining if the join may have
  // happened, and in join_failed otherwise, in its generation and with the time of a fresh
  // join, exactly if the row is as expected; else it answers the row it then finds.
  lemma SettlementIsExact(io: Io, given: Row)
    requires ClaimedStage(io, given).Proceed?
    ensures var stage := ClaimedStage(io, given);
            var (r, err) := Settled(io, given);
            var key := FinalKey(io, stage);
            var lands := Found(io, 6, key, stage.request, stage.membership) &&
                         Found(io, 7, key, stage.request, stage.membership);
            if FinalProbe(io, stage) == ProbeError then r == INTERRUPTED && err == Some(Transport)
            else if lands then
              r == Attempt(r.member, false, false, true) && r.member.membership == FinalMembership(io, stage) &&
              KeyOf(r.member) == key && r.member.request == stage.member.request &&
              r.member.joinedAt ==
                (if r.member.membership == Join && (stage.membership != Join || stage.member.joinedAt == 0)
                 then io.now else stage.member.joinedAt) &&
              (err.None? <==> Knows(io, stage) && (stage.joined ==> io.marks(1)))
            else
              var found := Find(io, 8, key);
              if found.Some? then r == Attempt(found.value, true, false, true) && err.None?
              else r == INTERRUPTED && err == Some(Internal)
  {
    if CommittedRoom(io) {
      StageKeepsRoom(io, given);
    }
    FactIsFinal(io, ClaimedStage(io, given));
  }

  // ---- Projecting the room's members after the join ----

  predicate PreservesActiveJoin(existing: Row, refreshed: Row) {
    refreshed.membership == Invite && existing.request != Blank &&
    existing.membership in {Pending, Approved, Joining, JoinFailed, Join, Reject, Rejected}
  }

  // A listed invite leaves alone exactly the rows with a generation that are neither
  // invited themselves nor left or removed.
  lemma ActiveJoinsArePreserved(existing: Row, refreshed: Row)
    requires existing.membership !in {Unset, Joined} && !existing.membership.Other?
    ensures PreservesActiveJoin(existing, refreshed) <==>
              refreshed.membership == Invite && existing.request != Blank && existing.membership != Invite &&
              !HasLeft(existing.membership) && !IsRemoved(existing.membership)
  {
  }

  predicate RefreshEvent(e: Event, target: Row) {
    (e.SavedOther? && e.row.user != target.user &&
      (e.current.Some? ==> !PreservesActiveJoin(e.current.value, e.row))) ||
    (e.Swapped? && e.after.user == target.user && e.after.membership == Join && e.before.membership == Join &&
     e.request == target.request && e.before.request == target.request)
  }

  // All events after log0 are refresh events.
  predicate OnlyRefreshes(log: Log, log0: Log, target: Row) {
    log == log0 || (log.Then? && RefreshEvent(log.last, target) && OnlyRefreshes(log.earlier, log0, target))
  }

  // A refresh goes on, finds the joining member's row out of its generation, or fails.
  datatype Refresh = Fresh | Gone(row: Row) | Broke

  // The listed member as it is saved, given the row stored for it.
  function Listed(listed: Row, room: string, channel: string, current: Option<Row>): Row {
    var membership := if listed.membership == Unset then Join else Normalize(listed.membership);
    var member := listed.(room := room, channel := OrElse(listed.channel, channel), membership := membership);
    if current.None? then member
    else member.(profile := OrElse(member.profile, current.value.profile), muted := member.muted || current.value.muted)
  }

  // The store accesses of the i-th listed member start here.
  function Access(i: nat): nat {
    20 + 5 * i
  }

  function OneRefreshed(io: Io, i: nat, listed: Row, room: string, channel: string, target: Row): Refresh {
    var current := Find(io, Access(i), (room, listed.user));
    var member := Listed(listed, room, channel, current);
    if member.user != target.user then Fresh
    else if current.None? then Gone(NO_ROW)
    else if current.value.request != target.request then Gone(current.value)
    else if member.membership != Join then Fresh
    else if TrySave(io, Access(i) + 1, member.(request := target.request), target.request, Join).Some? then Fresh
    else
      var latest := Find(io, Access(i) + 3, KeyOf(member));
      if latest.None? then Broke else Gone(latest.value)
  }

  // The joining member itself: a swap in its generation, or the refresh is over.
  method RefreshTarget(io: Io, i: nat, listed: Row, target: Row, log0: Log)
    returns (end: Refresh, log: Log)
    requires Good(log0, io.transport) && (io.transport ==> HasEvidence(log0, target.room))
    requires listed.room == target.room && listed.user == target.user && listed.membership == Join
    ensures end.Fresh? <==> TrySave(io, Access(i) + 1, listed.(request := target.request), target.request, Join).Some?
    ensures !end.Fresh? ==>
              var latest := Find(io, Access(i) + 3, KeyOf(listed));
              log == log0 && end == if latest.None? then Broke else Gone(latest.value)
    ensures end.Fresh? ==>
              log.Then? && log.earlier == log0 && log.last.Swapped? && RefreshEvent(log.last, target) &&
              Good(log, io.transport)
  {
    var member := listed.(request := target.request);
    var saved := TrySave(io, Access(i) + 1, member, target.request, Join);
    if saved.None? {
      var latest := Find(io, Access(i) + 3, KeyOf(member));
      return if latest.None? then Broke else Gone(latest.value), log0;
    }
    SaveLands(io, Access(i) + 1, member, target.request, Join);
    end, log := Fresh, Then(log0, saved.value);
  }

  // One listed member: an unfenced save for another member, and never when the row just
  // read is an active public join that Matrix merely lists as invited; a swap in its
  // generation for the joining member itself.
  method RefreshOne(io: Io, i: nat, listed: Row, room: string, channel: string, target: Row, log0: Log)
    returns (end: Refresh, log: Log)
    requires Good(log0, io.transport) && (io.transport ==> HasEvidence(log0, room)) && target.room == room && room != ""
    ensures end == OneRefreshed(io, i, listed, room, channel, target)
    ensures Good(log, io.transport) && (io.transport ==> HasEvidence(log, room))
    ensures log == log0 || (log.Then? && log.earlier == log0 && RefreshEvent(log.last, target))
    ensures !end.Fresh? ==> log == log0
    ensures var current := Find(io, Access(i), (room, listed.user));
            if listed.user != target.user then
              var member := Listed(listed, room, channel, current);
              end.Fresh? &&
              log == if current.Some? && PreservesActiveJoin(current.value, member) then log0
                     else Then(log0, SavedOther(current, member))
            else if current.None? || current.value.request != target.request then
              end == Gone(if current.None? then NO_ROW else current.value)
            else if listed.membership !in {Unset, Join, Joined} then end.Fresh? && log == log0
            else
              var member := Listed(listed, room, channel, current).(request := target.request);
              (end.Fresh? <==> TrySave(io, Access(i) + 1, member, target.request, Join).Some?) &&
              (end.Fresh? ==> log.Then? && log.earlier == log0 && log.last.Swapped?)
  {
    log, end := log0, Fresh;
    var membership := if listed.membership == Unset then Join else Normalize(listed.membership);
    var member := listed.(room := room, channel := OrElse(listed.channel, channel), membership := membership);
    var current := Find(io, Access(i), KeyOf(member));
    if current.Some? {
      member :=
        member.(profile := OrElse(member.profile, current.value.profile), muted := member.muted || current.value.muted);
    }
    if member.user != target.user {
      if current.None? || !PreservesActiveJoin(current.value, member) {
        log := Then(log0, SavedOther(current, member));
      }
    } else if current.None? {
      end := Gone(NO_ROW);
    } else if current.value.request != target.request {
      end := Gone(current.value);
    } else if member.membership == Join {
      end, log := RefreshTarget(io, i, member, target, log0);
    }
  }

  // The refresh from the i-th listed member on.
  function Refreshed(io: Io, roster: seq<Row>, room: string, channel: string, target: Row, i: nat): Refresh
    requires i <= |roster|
    decreases |roster| - i
  {
    if i == |roster| then
      var latest := Find(io, Access(i), KeyOf(target));
      if latest.None? then Broke else if latest.value.request != target.request then Gone(latest.value) else Fresh
    else
      var end := OneRefreshed(io, i, roster[i], room, channel, target);
      if end.Fresh? then Refreshed(io, roster, room, channel, target, i + 1) else end
  }

  // The refresh is complete exactly when none of the listed members ended it and the
  // joining member's row is still in its generation at the end.
  lemma {:induction false} RefreshCompletesExactly(io: Io, roster: seq<Row>, room: string, channel: string, target: Row,
      i: nat)
    requires i <= |roster|
    ensures Refreshed(io, roster, room, channel, target, i).Fresh? <==>
              (forall j | i <= j < |roster| :: OneRefreshed(io, j, roster[j], room, channel, target).Fresh?) &&
              var latest := Find(io, Access(|roster|), KeyOf(target));
              latest.Some? && latest.value.request == target.request
    decreases |roster| - i
  {
    if i < |roster| {
      RefreshCompletesExactly(io, roster, room, channel, target, i + 1);
    }
  }

  // A listed member is saved with the membership listed, where none means join, and keeps
  // the profile and the mute of its row.
  lemma ListedIs(listed: Row, room: string, channel: string, current: Option<Row>)
    ensures var m := Listed(listed, room, channel, current);
            m.room == room && m.user == listed.user && m.request == listed.request &&
            m.membership == (if listed.membership in {Unset, Joined} then Join else listed.membership) &&
            m.channel == (if listed.channel != "" then listed.channel else channel) &&
            (current.Some? ==> (m.muted <==> listed.muted || current.value.muted)) &&
            (current.Some? && listed.profile == "" ==> m.profile == current.value.profile) &&
            (current.None? || listed.profile != "" ==> m.profile == listed.profile)
  {
  }

  // The roster is projected member by member; the refresh ends as soon as the joining
  // member's row has left its generation.
  method RefreshMembers(io: Io, roster: seq<Row>, room: string, channel: string, target: Row, log0: Log)
    returns (end: Refresh, log: Log)
    requires Good(log0, io.transport) && (io.transport ==> HasEvidence(log0, room)) && target.room == room && room != ""
    ensures end == Refreshed(io, roster, room, channel, target, 0)
    ensures Good(log, io.transport) && OnlyRefreshes(log, log0, target)
  {
    log := log0;
    for i := 0 to |roster|
      invariant Good(log, io.transport) && (io.transport ==> HasEvidence(log, room))
      invariant OnlyRefreshes(log, log0, target)
      invariant Refreshed(io, roster, room, channel, target, 0) == Refreshed(io, roster, room, channel, target, i)
    {
      end, log := RefreshOne(io, i, roster[i], room, channel, target, log);
      if !end.Fresh? {
        return;
      }
    }
    var latest := Find(io, Access(|roster|), KeyOf(target));
    if latest.None? {
      end := Broke;
    } else if latest.value.request != target.request {
      end := Gone(latest.value);
    } else {
      end := Fresh;
    }
  }

  lemma {:induction false} RefreshesKeep(log: Log, log0: Log, target: Row)
    requires NeverFailed(log0) && OnlyRefreshes(log, log0, target)
    ensures NeverFailed(log) && (HasJoin(log0) ==> HasJoin(log))
  {
    if log != log0 {
      RefreshesKeep(log.earlier, log0, target);
    }
  }

  // The channel the room names now is written into the settled row first.
  predicate ChannelMoves(io: Io, member: Row) {
    io.refreshedChannel.Some? && io.refreshedChannel.value != "" && io.refreshedChannel.value != member.channel
  }

  // The projection of the channel behind a settled row.
  function ChannelProjected(io: Io, r: Attempt): (Attempt, Option<Failure>) {
    if io.refreshedChannel.None? then (r, Some(Internal))
    else
      var moves := ChannelMoves(io, r.member);
      var member := if moves then r.member.(channel := io.refreshedChannel.value) else r.member;
      if moves && TrySave(io, 10, member, member.request, Join).None? then
        var latest := Find(io, 12, KeyOf(member));
        if latest.None? then (r, Some(Internal)) else (Attempt(latest.value, true, false, true), None)
      else
        var settled := r.(member := member);
        if !io.transport || member.room == "" then (settled, if io.projects then None else Some(Internal))
        else if io.roster.None? then (settled, Some(Internal))
        else
          match Refreshed(io, io.roster.value, member.room, member.channel, member, 0)
          case Gone(row) => (Attempt(row, true, false, true), None)
          case Broke => (settled, Some(Internal))
          case Fresh => (settled, if io.projects then None else Some(Internal))
  }

  function Projected(io: Io, given: Row): (Attempt, Option<Failure>) {
    var (r, err) := Settled(io, given);
    if !r.final || r.stale || r.busy || err.Some? then (r, err)
    else if !io.isChannel then (r, if io.projects then None else Some(Internal))
    else ChannelProjected(io, r)
  }

  // A claim that was taken is given up at the very end, and failing to is an error.
  function Attempted(io: Io, given: Row): (Attempt, Option<Failure>) {
    var (r, err) := Projected(io, given);
    (r, if err.None? && ClaimedStage(io, given).holds && !io.releases then Some(Internal) else err)
  }

  // What follows a settled join: the row takes the channel the room names now, and the
  // roster is refreshed under it.
  predicate ProjectionLands(io: Io, m: Row) {
    io.projects &&
    (io.isChannel ==>
       io.refreshedChannel.Some? &&
       var moved := m.(channel := OrElse(io.refreshedChannel.value, m.channel));
       (moved != m ==> TrySave(io, 10, moved, moved.request, Join).Some?) &&
       (io.transport && m.room != "" ==>
          io.roster.Some? && Refreshed(io, io.roster.value, m.room, moved.channel, moved, 0).Fresh?))
  }

  // The whole attempt succeeds exactly when its settlement does, the projection lands, and
  // a claim that was held could be given up.
  lemma AttemptSucceedsExactly(io: Io, given: Row)
    ensures var (r, err) := Attempted(io, given);
            var (settled, failed) := Settled(io, given);
            (r.final && !r.stale && !r.busy && err.None? <==>
              settled.final && !settled.stale && !settled.busy && failed.None? && ProjectionLands(io, settled.member) &&
              (ClaimedStage(io, given).holds ==> io.releases)) &&
            (r.final && !r.stale && !r.busy && err.None? ==>
              r.member == if io.isChannel
                          then settled.member.(channel := OrElse(io.refreshedChannel.value, settled.member.channel))
                          else settled.member)
  {
    var (settled, _) := Settled(io, given);
    if io.refreshedChannel.Some? {
      var moved := settled.member.(channel := OrElse(io.refreshedChannel.value, settled.member.channel));
      assert moved == settled.member <==> !ChannelMoves(io, settled.member);
    }
  }

  // An attempt that did not settle its row, or settled it with an error, goes no further,
  // and its error is the one answered.
  lemma UnsettledAttemptsEnd(io: Io, given: Row)
    ensures var (settled, failed) := Settled(io, given);
            var (r, err) := Attempted(io, given);
            (failed.Some? ==> r == settled && err == failed) &&
            (settled.stale ==>
              r == settled && (err.Some? <==> failed.Some? || (ClaimedStage(io, given).holds && !io.releases)))
  {
  }

  method ProjectChannel(io: Io, settled: Attempt, log0: Log) returns (r: Attempt, err: Option<Failure>, log: Log)
    requires Good(log0, io.transport) && NeverFailed(log0) && HasJoin(log0)
    requires settled.final && !settled.stale && settled.member.membership == Join
    requires io.transport ==> HasEvidence(log0, settled.member.room)
    ensures (r, err) == ChannelProjected(io, settled)
    ensures Good(log, io.transport) && NeverFailed(log) && HasJoin(log)
    ensures r.final && (!r.stale ==> r.member.membership == Join)
  {
    r, err, log := settled, None, log0;
    if io.refreshedChannel.None? {
      return r, Some(Internal), log;
    }
    var member := r.member;
    if io.refreshedChannel.value != "" && io.refreshedChannel.value != member.channel {
      member := member.(channel := io.refreshedChannel.value);
      var saved := TrySave(io, 10, member, member.request, Join);
      if saved.None? {
        var latest := Find(io, 12, KeyOf(member));
        if latest.None? {
          return r, Some(Internal), log;
        }
        return Attempt(latest.value, true, false, true), None, log;
      }
      SaveLands(io, 10, member, member.request, Join);
      log := Then(log, saved.value);
      r := r.(member := member);
    }
    if io.transport && member.room != "" {
      if io.roster.None? {
        return r, Some(Internal), log;
      }
      var end;
      ghost var before := log;
      end, log := RefreshMembers(io, io.roster.value, member.room, member.channel, member, log);
      RefreshesKeep(log, before, member);
      if end.Gone? {
        return Attempt(end.row, true, false, true), None, log;
      }
      if end.Broke? {
        return r, Some(Internal), log;
      }
    }
    if !io.projects {
      err := Some(Internal);
    }
  }

  lemma {:induction false} JoinsAreSwaps(log: Log)
    requires HasJoin(log)
    ensures HasSwap(log)
  {
    if !StoresJoin(log.last) {
      JoinsAreSwaps(log.earlier);
    }
  }

  method SettleAndProject(io: Io, given: Row) returns (r: Attempt, err: Option<Failure>, log: Log)
    ensures (r, err) == Projected(io, given)
    ensures Good(log, io.transport)
    ensures r.stale ==> NeverFailed(log) && (HasJoin(log) <==> JoinLanded(io, given))
    ensures r.stale ==> (HasSwap(log) <==> ClaimLanded(io, given) || JoinLanded(io, given))
    ensures r.busy ==> !HasSwap(log)
    ensures r.final && !r.stale && err.None? ==> r.member.membership == Join
  {
    r, err, log := JoinAndSettle(io, given);
    if r.stale {
      ClaimsStoreNoJoin(log);
      return;
    }
    if !r.final || r.busy || err.Some? {
      return;
    }
    ClaimsStoreNoJoin(log.earlier);
    if io.isChannel {
      r, err, log := ProjectChannel(io, r, log);
      JoinsAreSwaps(log);
    } else if !io.projects {
      err := Some(Internal);
    }
  }

  // The join together with the projection of the room that follows it. A stale answer
  // follows a stored "join" exactly when the settlement landed as one, in which case the
  // row was lost during the projection, and otherwise a write exactly when the claim
  // landed; it never follows a stored "join_failed". The claim is given up last.
  method JoinAndProject(io: Io, given: Row) returns (r: Attempt, err: Option<Failure>, log: Log)
    ensures (r, err) == Attempted(io, given)
    ensures Good(log, io.transport)
    ensures r.stale ==> NeverFailed(log) && (HasJoin(log) <==> JoinLanded(io, given))
    ensures r.stale ==> (HasSwap(log) <==> ClaimLanded(io, given) || JoinLanded(io, given))
    ensures r.busy ==> !HasSwap(log)
    ensures r.final && !r.stale && err.None? ==> r.member.membership == Join
  {
    r, err, log := SettleAndProject(io, given);
    if err.None? && ClaimedStage(io, given).holds && !io.releases {
      err := Some(Internal);
    }
  }

  // ---- Stale answers after a write ----

  // A transport that does not have the member at first and then does, a granted claim,
  // and a row that is at one membership up to access 5 and at another up to access 7.
  function Witness(row: Row, settled: Row, moved: Row): Io {
    Io(true, 1, None, Blank,
       (n: nat) => map[KeyOf(row) := if n <= 5 then row else if n <= 7 then settled else moved],
       (n: nat) => if n == 0 then IsOut else IsIn,
       (n: nat) => AlreadyIn, (n: nat) => false, (n: nat) => true,
       Some(true), true, true, Some("moved"), None, true)
  }

  // The promise that an attempt reports stale without writing is false of the code: the
  // claim may have been written before the row moved on.
  lemma StaleAfterClaim(row: Row)
    requires row.room != "" && row.user != "" && row.membership == Invite && row.request == External("g")
    ensures var moved := row.(request := External("h"));
            var io := Witness(row, moved, moved);
            Attempted(io, row).0 == Attempt(moved, true, false, true) && ClaimLanded(io, row) && !JoinLanded(io, row)
  {
    var moved := row.(request := External("h"));
    var io := Witness(row, moved, moved);
    assert AdoptedStage(io, row) == Proceed(row, row.request, Invite, false, false, false);
    assert ClaimedStage(io, row) == Proceed(row.(membership := Joining), row.request, Joining, false, true, true);
    assert Fact(io, ClaimedStage(io, row)).1 == IsIn;
  }

  // And so may the settlement to "join".
  lemma StaleAfterJoin(row: Row)
    requires row.room != "" && row.user != "" && row.membership == Invite && row.request == External("g")
    requires row.channel != "moved"
    ensures var moved := row.(request := External("h"));
            var io := Witness(row, row.(membership := Joining), moved);
            Attempted(io, row).0 == Attempt(moved, true, false, true) && JoinLanded(io, row)
  {
    var moved := row.(request := External("h"));
    var io := Witness(row, row.(membership := Joining), moved);
    assert AdoptedStage(io, row) == Proceed(row, row.request, Invite, false, false, false);
    assert ClaimedStage(io, row) == Proceed(row.(membership := Joining), row.request, Joining, false, true, true);
    assert Fact(io, ClaimedStage(io, row)).1 == IsIn;
    assert SettleLands(io, ClaimedStage(io, row));
  }
}
