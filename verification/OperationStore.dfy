// The durable operation row: claims with leases, trackers that update it by
// compare-and-swap on revision, crashes, and the invariants of every run.

module OperationStore {
  import opened Membership
  import opened Operations

  predicate HasExternalCommit(p: Phase) {
    p in {MatrixCommitted, CallbackAcknowledged, PhaseCompleted}
  }

  predicate NeedsRecovery(p: Phase) {
    p == MatrixUnconfirmed || HasExternalCommit(p)
  }

  predicate NeedsReconciliation(r: Result) {
    r.error in {JoinUnconfirmed, ResultUnconfirmed, JoinFailedCode, RecoveryCode} ||
    r.status in {WasApproved, WasJoining, WasJoinFailed}
  }

  function LeaseMillis(): int { 90000 }

  // A blank incoming field matches anything.
  predicate SameIdentity(stored: Record, incoming: Record) {
    stored.action == incoming.action &&
    (incoming.room == "" || stored.room == incoming.room) &&
    (incoming.user == "" || stored.user == incoming.user) &&
    (incoming.peer == "" || stored.peer == incoming.peer) &&
    (incoming.request == Blank || stored.request == incoming.request)
  }

  predicate Claimable(stored: Option<Record>, incoming: Record, owner: nat, now: int) {
    stored.None? ||
    (SameIdentity(stored.value, incoming) &&
     (stored.value.leaseOwner.None? || stored.value.leaseOwner == Some(owner) || stored.value.leaseUntil <= now))
  }

  // A granted claim inserts the row or takes over its lease; it never touches
  // status, phase or result.
  function Claimed(stored: Option<Record>, incoming: Record, owner: nat, now: int): Record {
    var row := if stored.None? then incoming.(revision := 0) else stored.value;
    row.(revision := row.revision + 1, leaseOwner := Some(owner), leaseUntil := now + LeaseMillis())
  }

  predicate Swappable(stored: Option<Record>, revision: nat, owner: nat, now: int) {
    stored.Some? && stored.value.revision == revision &&
    stored.value.leaseOwner == Some(owner) && stored.value.leaseUntil > now
  }

  function Cleared(r: Record): Record {
    r.(status := Running, phase := Prepared, currentRoom := "", result := None, error := NoCode)
  }

  // ---- Threads ----

  datatype Tracker =
    | Looked(seen: Option<Record>, incoming: Record)
    | Owns(record: Record, reset: bool, seen: Option<Record>)

  datatype Db = Db(row: Option<Record>, trackers: map<nat, Tracker>, now: int)

  datatype Step =
    | Look(owner: nat, incoming: Record)
    | Claim(owner: nat, stale: bool)
    | Mark(owner: nat, phase: Phase, room: string)
    | Fail(owner: nat, code: ErrorCode)
    | Finish(owner: nat, result: Result, room: string)
    | Release(owner: nat)
    | Crash(owner: nat)
    | Tick(millis: nat)

  predicate IsWrite(s: Step) {
    s.Mark? || s.Fail? || s.Finish? || s.Release?
  }

  predicate OwnsRow(db: Db, owner: nat) {
    owner in db.trackers && db.trackers[owner].Owns?
  }

  predicate Enabled(db: Db, s: Step) {
    match s
    case Look(o, incoming) => o !in db.trackers && incoming.status == Running && incoming.phase == Prepared &&
      incoming.result.None?
    case Claim(o, _) => o in db.trackers && db.trackers[o].Looked?
    case Mark(o, phase, _) => OwnsRow(db, o) && phase in {MatrixUnconfirmed, MatrixCommitted, CallbackAcknowledged}
    case Fail(o, _) => OwnsRow(db, o)
    case Finish(o, _, _) => OwnsRow(db, o)
    case Release(o) => OwnsRow(db, o)
    case Crash(o) => o in db.trackers
    case Tick(_) => true
  }

  // A completed contact operation whose cached result is stale starts over.
  predicate Resets(seen: Option<Record>, stale: bool) {
    stale && seen.Some? && seen.value.status == Completed && seen.value.result.Some? &&
      IsContactAction(seen.value.action)
  }

  // What a tracker asks the store to write.
  function Update(r: Record, s: Step): Record
    requires IsWrite(s)
  {
    match s
    case Mark(_, phase, room) =>
      r.(status := Running, phase := phase, currentRoom := OrElse(room, r.currentRoom))
    case Fail(_, code) =>
      r.(status := if NeedsRecovery(r.phase) then Reconciling else Failed,
         error := if NeedsRecovery(r.phase) && code == NoCode then RecoveryCode else code,
         result := None)
    case Finish(_, result, room) =>
      var settled := !NeedsReconciliation(result);
      r.(status := if settled then Completed else Reconciling,
         phase := if settled then PhaseCompleted else r.phase,
         currentRoom := OrElse(OrElse(r.currentRoom, room), r.room),
         error := result.error,
         result := Some(result))
    case Release(_) => r
  }

  // A write lands when the tracker's revision and lease are still in force. A release
  // gives up the lease; either way its tracker is gone.
  function Swap(db: Db, s: Step): Db
    requires IsWrite(s) && Enabled(db, s)
  {
    var o := s.owner;
    var t := db.trackers[o];
    var written := Update(t.record, s).(revision := t.record.revision + 1);
    var lands := Swappable(db.row, t.record.revision, o, db.now);
    if s.Release? then
      Db(if lands then Some(written.(leaseOwner := None, leaseUntil := 0)) else db.row, db.trackers - {o}, db.now)
    else if lands then
      var row := written.(leaseOwner := Some(o), leaseUntil := db.now + LeaseMillis());
      Db(Some(row), db.trackers[o := Owns(row, false, t.seen)], db.now)
    else db
  }

  function Next(db: Db, s: Step): Db
    requires Enabled(db, s)
  {
    if IsWrite(s) then Swap(db, s) else
    match s
    case Look(o, incoming) => db.(trackers := db.trackers[o := Looked(db.row, incoming)])
    case Claim(o, stale) =>
      var seen := db.trackers[o].seen;
      var record := if seen.Some? then seen.value else db.trackers[o].incoming;
      if Claimable(db.row, record, o, db.now) then
        var row := Claimed(db.row, record, o, db.now);
        var reset := Resets(seen, stale);
        Db(Some(row), db.trackers[o := Owns(if reset then Cleared(row) else row, reset, seen)], db.now)
      else db.(trackers := db.trackers - {o})
    case Crash(o) => db.(trackers := db.trackers - {o})
    case Tick(d) => db.(now := db.now + d)
  }

  predicate IsRun(dbs: seq<Db>, steps: seq<Step>) {
    |dbs| == |steps| + 1 &&
    dbs[0].row.None? && dbs[0].trackers == map[] &&
    forall k | 0 <= k < |steps| :: Enabled(dbs[k], steps[k]) && dbs[k + 1] == Next(dbs[k], steps[k])
  }

  // ---- Invariants ----

  predicate RowOk(r: Record) {
    (r.status == Failed ==> r.phase == Prepared) &&
    (r.status == Completed ==> r.phase == PhaseCompleted && r.result.Some? && !NeedsReconciliation(r.result.value))
  }

  predicate SameOperation(a: Record, b: Record) {
    a.id == b.id && a.action == b.action && a.room == b.room && a.user == b.user && a.peer == b.peer &&
    a.request == b.request && a.base == b.base
  }

  predicate TrackerOk(row: Option<Record>, t: Tracker) {
    match t
    case Looked(seen, incoming) =>
      (seen.Some? ==> row.Some? && SameOperation(row.value, seen.value)) && incoming.status == Running
    case Owns(r, reset, seen) =>
      row.Some? && r.revision <= row.value.revision && SameOperation(row.value, r) && RowOk(r) &&
      (r.revision == row.value.revision ==> r == if reset then Cleared(row.value) else row.value) &&
      (reset ==> seen.Some? && Resets(seen, true) && SameOperation(row.value, seen.value))
  }

  predicate Inv(db: Db) {
    (db.row.Some? ==> RowOk(db.row.value)) &&
    forall o | o in db.trackers :: TrackerOk(db.row, db.trackers[o])
  }

  lemma WriteKeepsInv(db: Db, s: Step)
    requires Inv(db) && IsWrite(s) && Enabled(db, s)
    ensures Inv(Swap(db, s)) && Grows(db.row, Swap(db, s).row)
  {
    var next := Swap(db, s);
    assert TrackerOk(db.row, db.trackers[s.owner]);
    forall o | o in next.trackers ensures TrackerOk(next.row, next.trackers[o]) {
      assert TrackerOk(db.row, db.trackers[o]);
    }
  }

  predicate Grows(before: Option<Record>, after: Option<Record>) {
    before.Some? ==>
      after.Some? && SameOperation(before.value, after.value) && before.value.revision <= after.value.revision
  }

  lemma StepKeepsInv(db: Db, s: Step)
    requires Inv(db) && Enabled(db, s)
    ensures Inv(Next(db, s)) && Grows(db.row, Next(db, s).row)
  {
    if IsWrite(s) {
      WriteKeepsInv(db, s);
    } else {
      var next := Next(db, s);
      forall o | o in next.trackers ensures TrackerOk(next.row, next.trackers[o]) {
        if o in db.trackers {
          assert TrackerOk(db.row, db.trackers[o]);
        }
      }
    }
  }

  // In every run, whatever crashes and lease losses it contains: a failed row is in
  // phase prepared, and a completed row is in phase completed with a result that
  // needs no reconciliation.
  lemma {:induction false} RowInvariant(dbs: seq<Db>, steps: seq<Step>, k: nat)
    requires IsRun(dbs, steps) && k < |dbs|
    ensures Inv(dbs[k])
    ensures dbs[k].row.Some? ==> RowOk(dbs[k].row.value)
  {
    if k > 0 {
      RowInvariant(dbs, steps, k - 1);
      StepKeepsInv(dbs[k - 1], steps[k - 1]);
    }
  }

  // A row, once inserted, stays and keeps its identity and its base generation.
  lemma {:induction false} IdentityIsStable(dbs: seq<Db>, steps: seq<Step>, i: nat, j: nat)
    requires IsRun(dbs, steps) && i <= j < |dbs| && dbs[i].row.Some?
    ensures dbs[j].row.Some? && SameOperation(dbs[i].row.value, dbs[j].row.value)
    ensures dbs[i].row.value.revision <= dbs[j].row.value.revision
    decreases j
  {
    if i < j {
      IdentityIsStable(dbs, steps, i, j - 1);
      RowInvariant(dbs, steps, j - 1);
      StepKeepsInv(dbs[j - 1], steps[j - 1]);
    }
  }

  // ---- What the writes leave ----

  // The tracker's revision and lease are in force.
  predicate Lands(db: Db, s: Step) {
    IsWrite(s) && Enabled(db, s) && db.row.Some? &&
    db.row.value.revision == db.trackers[s.owner].record.revision &&
    db.row.value.leaseOwner == Some(s.owner) && db.now < db.row.value.leaseUntil
  }

  // A write that lands raises the revision and renews or gives up the lease; one that
  // does not changes nothing in the row.
  lemma WritesLandExactly(db: Db, s: Step)
    requires IsWrite(s) && Enabled(db, s)
    ensures Next(db, s).row == db.row <==> !Lands(db, s)
    ensures Lands(db, s) ==>
              var was, row := db.row.value, Next(db, s).row.value;
              row.revision == was.revision + 1 &&
              if s.Release? then row.leaseOwner.None? && s.owner !in Next(db, s).trackers
              else row.leaseOwner == Some(s.owner) && row.leaseUntil == db.now + LeaseMillis() &&
                   Next(db, s).trackers[s.owner].Owns? && Next(db, s).trackers[s.owner].record == row
  {
  }

  // A handler's result completes the operation exactly when it carries none of the codes
  // and none of the states that are to be reconciled; otherwise the operation keeps its
  // phase and is reconciled. Either way the result and its code are stored.
  lemma FinishCompletesExactly(db: Db, s: Step)
    requires s.Finish? && Lands(db, s)
    ensures var r, row := db.trackers[s.owner].record, Next(db, s).row.value;
            (row.status == Completed <==>
              s.result.error in {NoCode, OtherCode} && s.result.status !in {WasApproved, WasJoining, WasJoinFailed}) &&
            (row.status != Completed ==> row.status == Reconciling && row.phase == r.phase) &&
            (row.status == Completed ==> row.phase == PhaseCompleted) &&
            row.result == Some(s.result) && row.error == s.result.error &&
            (row.currentRoom == "" <==> r.currentRoom == "" && s.room == "" && r.room == "") &&
            (r.currentRoom != "" ==> row.currentRoom == r.currentRoom) &&
            (r.currentRoom == "" && s.room != "" ==> row.currentRoom == s.room)
  {
    match s.result.error
    case NoCode =>
    case OtherCode =>
    case _ =>
  }

  // A handler's error fails the operation exactly in phase prepared; with anything done
  // outside it is reconciled, and then never without a code.
  lemma FailureRecoversExactly(db: Db, s: Step)
    requires s.Fail? && Lands(db, s)
    ensures var r, row := db.trackers[s.owner].record, Next(db, s).row.value;
            row.status == (if r.phase == Prepared then Failed else Reconciling) && row.phase == r.phase &&
            row.currentRoom == r.currentRoom && row.result.None? &&
            (s.code != NoCode || r.phase == Prepared ==> row.error == s.code) &&
            (s.code == NoCode && r.phase != Prepared ==> row.error == RecoveryCode)
  {
  }

  // A mark sets the operation running in the phase named, at the room named if there is
  // one, and leaves result and code; a release leaves all of it.
  lemma MarksAreStored(db: Db, s: Step)
    requires (s.Mark? || s.Release?) && Lands(db, s)
    ensures var r, row := db.trackers[s.owner].record, Next(db, s).row.value;
            row.result == r.result && row.error == r.error &&
            if s.Release? then row.status == r.status && row.phase == r.phase && row.currentRoom == r.currentRoom
            else row.status == Running && row.phase == s.phase &&
                 row.currentRoom == if s.room == "" then r.currentRoom else s.room
  {
  }

  // The row is completed with this result.
  predicate CompletedWith(row: Option<Record>, x: Result) {
    row.Some? && row.value.status == Completed && row.value.result == Some(x)
  }

  lemma CompletedStep(db: Db, s: Step, x: Result)
    requires Inv(db) && Enabled(db, s) && CompletedWith(Next(db, s).row, x)
    ensures CompletedWith(db.row, x) || (s.Finish? && s.result == x && Lands(db, s))
  {
    if IsWrite(s) {
      assert TrackerOk(db.row, db.trackers[s.owner]);
    } else if s.Claim? {
      assert TrackerOk(db.row, db.trackers[s.owner]);
    }
  }

  // In every run a completed operation was completed by a handler that finished with the
  // stored result, under a claim in force, and has been completed with it ever since.
  lemma {:induction false} CompletedOnlyByItsHandler(dbs: seq<Db>, steps: seq<Step>, k: nat, x: Result) returns (j: nat)
    requires IsRun(dbs, steps) && k < |dbs| && CompletedWith(dbs[k].row, x)
    ensures j < k && steps[j].Finish? && steps[j].result == x && Lands(dbs[j], steps[j])
    ensures forall i | j < i <= k :: CompletedWith(dbs[i].row, x)
  {
    RowInvariant(dbs, steps, k - 1);
    assert dbs[k] == Next(dbs[k - 1], steps[k - 1]);
    CompletedStep(dbs[k - 1], steps[k - 1], x);
    if CompletedWith(dbs[k - 1].row, x) {
      j := CompletedOnlyByItsHandler(dbs, steps, k - 1, x);
    } else {
      j := k - 1;
    }
  }

  // ---- Claims ----

  // A claim is granted exactly where there is no row, or the row is of the same identity
  // and no other owner's lease on it is running.
  lemma ClaimsLandExactly(db: Db, o: nat, stale: bool)
    requires Enabled(db, Claim(o, stale))
    ensures var t := db.trackers[o];
            var record := if t.seen.Some? then t.seen.value else t.incoming;
            OwnsRow(Next(db, Claim(o, stale)), o) <==>
              db.row.None? ||
              (SameIdentity(db.row.value, record) &&
               !(db.row.value.leaseOwner.Some? && db.row.value.leaseOwner != Some(o) &&
                 db.now < db.row.value.leaseUntil))
  {
  }

  // A completed contact operation found stale starts over with its claim: in the tracker
  // nothing of its last run is left but its identity, while the row keeps all of it until
  // the first write. Every other claimant goes on from the row as it is.
  lemma ResetStartsOver(db: Db, o: nat, stale: bool)
    requires Enabled(db, Claim(o, stale)) && OwnsRow(Next(db, Claim(o, stale)), o)
    ensures var n := Next(db, Claim(o, stale));
            var seen, r, row := db.trackers[o].seen, n.trackers[o].record, n.row.value;
            (db.row.Some? ==>
              row == db.row.value.(revision := row.revision, leaseOwner := Some(o), leaseUntil := row.leaseUntil)) &&
            SameOperation(r, row) && r.revision == row.revision && r.leaseUntil == row.leaseUntil &&
            if stale && seen.Some? && seen.value.status == Completed && seen.value.result.Some? &&
              seen.value.action in {ContactsRequest, ContactsAccept, ContactsReject}
            then r.status == Running && r.phase == Prepared && r.currentRoom == "" && r.result.None? &&
                 r.error == NoCode
            else r == row
  {
  }

  // So nothing a crashed claimant leaves behind blocks the operation for longer than its
  // lease: whoever looks it up then gets it as it was left, and only claims it.
  lemma LeftOperationsAreTakenOver(dbs: seq<Db>, steps: seq<Step>, k: nat, o: nat, incoming: Record, wait: nat)
    requires IsRun(dbs, steps) && k < |dbs| && dbs[k].row.Some? && Enabled(dbs[k], Look(o, incoming))
    requires dbs[k].now + wait >= dbs[k].row.value.leaseUntil
    ensures var waited := Next(Next(dbs[k], Look(o, incoming)), Tick(wait));
            Enabled(waited, Claim(o, false)) &&
            var n := Next(waited, Claim(o, false)); var row := dbs[k].row.value;
            OwnsRow(n, o) && n.trackers[o].record == n.row.value &&
            n.row == Some(row.(revision := row.revision + 1, leaseOwner := Some(o),
                               leaseUntil := dbs[k].now + wait + LeaseMillis()))
  {
  }

  // A step that takes a row back from a phase that needs recovery to prepared.
  predicate TakesBack(db: Db, s: Step)
    requires Enabled(db, s)
  {
    db.row.Some? && NeedsRecovery(db.row.value.phase) && Next(db, s).row.Some? &&
      Next(db, s).row.value.phase == Prepared
  }

  // Only a tracker that reset a completed contact operation can do that: its lookup
  // found the operation completed.
  lemma OnlyContactResetTakesBack(db: Db, s: Step)
    requires Inv(db) && Enabled(db, s) && TakesBack(db, s)
    ensures (s.Fail? || s.Finish? || s.Release?) && OwnsRow(db, s.owner)
    ensures var t := db.trackers[s.owner];
            t.reset && t.seen.Some? && t.seen.value.status == Completed && IsContactAction(t.seen.value.action)
  {
    assert !s.Look? && !s.Claim?;
    if !s.Crash? && !s.Tick? {
      assert TrackerOk(db.row, db.trackers[s.owner]);
    }
  }

  // Over any stretch of any run: from a phase that needs recovery back to prepared
  // only through such a reset.
  lemma {:induction false} RecoveryIsNeverForgotten(dbs: seq<Db>, steps: seq<Step>, i: nat, j: nat) returns (k: nat)
    requires IsRun(dbs, steps) && i <= j < |dbs|
    requires dbs[i].row.Some? && NeedsRecovery(dbs[i].row.value.phase)
    requires dbs[j].row.Some? && dbs[j].row.value.phase == Prepared
    ensures i <= k < j && IsWrite(steps[k]) && OwnsRow(dbs[k], steps[k].owner)
    ensures var t := dbs[k].trackers[steps[k].owner];
            t.reset && t.seen.Some? && t.seen.value.status == Completed && IsContactAction(t.seen.value.action)
    decreases j - i
  {
    RowInvariant(dbs, steps, i);
    StepKeepsInv(dbs[i], steps[i]);
    if dbs[i + 1].row.value.phase == Prepared {
      OnlyContactResetTakesBack(dbs[i], steps[i]);
      k := i;
    } else {
      k := RecoveryIsNeverForgotten(dbs, steps, i + 1, j);
    }
  }

  // ---- Leases ----

  predicate Writes(s: Step, owner: nat) {
    IsWrite(s) && s.owner == owner
  }

  predicate Stale(db: Db, owner: nat) {
    OwnsRow(db, owner) && db.row.Some? && db.trackers[owner].record.revision < db.row.value.revision
  }

  lemma StaleStays(db: Db, s: Step, owner: nat)
    requires Inv(db) && Enabled(db, s) && (owner in db.trackers ==> Stale(db, owner)) && !(s.Look? && s.owner == owner)
    ensures owner in Next(db, s).trackers ==> Stale(Next(db, s), owner)
  {
    StepKeepsInv(db, s);
  }

  // A claimant that lost its row to another claim never writes it again unless it
  // claims anew: in the rest of the run its updates change nothing.
  lemma {:induction false} LostClaimNeverWrites(dbs: seq<Db>, steps: seq<Step>, i: nat, j: nat, owner: nat)
    requires IsRun(dbs, steps) && i <= j < |steps|
    requires Stale(dbs[i], owner)
    requires forall k | i <= k < j :: !(steps[k].Look? && steps[k].owner == owner)
    ensures Writes(steps[j], owner) ==> dbs[j + 1].row == dbs[j].row
    ensures owner in dbs[j].trackers ==> Stale(dbs[j], owner)
    decreases j
  {
    assert dbs[j + 1] == Next(dbs[j], steps[j]);
    if i < j {
      LostClaimNeverWrites(dbs, steps, i, j - 1, owner);
      RowInvariant(dbs, steps, j - 1);
      StaleStays(dbs[j - 1], steps[j - 1], owner);
    }
  }

  // The owner of a step, where it has one.
  predicate IsBy(s: Step, owner: nat) {
    !s.Tick? && s.owner == owner
  }

  // From a claim granted to an owner, for as long as its lease runs and it has not given
  // the lease back: the lease stays with that owner, and no step of anybody else, no
  // claim, no write and no release, changes the row.
  lemma {:induction false} LeaseExcludesOthers(dbs: seq<Db>, steps: seq<Step>, owner: nat, i: nat, j: nat)
    requires IsRun(dbs, steps) && i < j < |steps|
    requires steps[i].Claim? && steps[i].owner == owner && OwnsRow(dbs[i + 1], owner)
    requires forall k | i < k < j :: !(steps[k].Release? && steps[k].owner == owner)
    requires forall k | i < k <= j :: dbs[k].row.Some? && dbs[k].now < dbs[k].row.value.leaseUntil
    ensures dbs[j].row.value.leaseOwner == Some(owner)
    ensures !IsBy(steps[j], owner) ==> dbs[j + 1].row == dbs[j].row
    decreases j
  {
    assert dbs[j] == Next(dbs[j - 1], steps[j - 1]);
    assert dbs[j + 1] == Next(dbs[j], steps[j]);
    if i + 1 < j {
      LeaseExcludesOthers(dbs, steps, owner, i, j - 1);
    }
  }
}
