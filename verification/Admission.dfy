// Admission of a recoverable operation: everything the service decides between
// deriving the operation record and running the handler. Each store or Matrix read
// is its own input, so rows may change between any two of them.

module Admission {
  import opened Membership
  import opened Operations
  import opened OperationStore
  import Fencing

  datatype Probe = ProbeError | IsIn | IsOut

  datatype ContactRow = ContactRow(room: string, status: Outcome, request: RequestId)

  // One look at the rows and the Matrix facts that belong to an operation.
  datatype View = View(
    member: Option<Row>,
    contact: Option<ContactRow>,
    conversation: bool,
    joined: Probe
  )

  datatype Reads = Reads(
    transport: bool,
    explicitRequest: RequestId,
    mismatch: View,
    advance: Option<Row>,
    workflowGranted: bool,
    busyRow: Option<Record>,
    busy: View,
    refreshed: Record,
    remismatch: View,
    stored: Option<Record>,
    check: View,
    current: View,
    claimRow: Option<Record>,
    now: int,
    owner: nat,
    inFlight: View
  )

  datatype Answer =
    | Conflict
    | Broken
    // The operation is still under way: status "joining" with the recovery code.
    | StillJoining
    // The operation's own stored result.
    | Cached(result: Result)
    // The status of the row as it is now.
    | Present(view: View, status: Outcome)

  datatype Decision = Reply(answer: Answer) | Run(record: Record)

  // ---- Pure checks ----

  predicate ValueConflict<T(==)>(blank: T, left: T, right: T) {
    if left == blank then right != blank else right != blank && left != right
  }

  predicate IdentityConflict(stored: Record, incoming: Record) {
    ValueConflict("", stored.room, incoming.room) ||
    ValueConflict("", stored.user, incoming.user) ||
    ValueConflict("", stored.peer, incoming.peer) ||
    ValueConflict(Blank, stored.request, incoming.request)
  }

  // The row has moved to another generation, and not merely failed to leave the
  // terminal generation this operation was derived from.
  predicate Superseded(r: Record, v: View) {
    if r.request == Blank then false
    else if IsContactAction(r.action) then
      v.contact.Some? &&
      !(r.action == ContactsRequest && v.contact.value.status == WasDeleted && r.status != Completed &&
        v.contact.value.request == r.base) &&
      v.contact.value.request != Blank && v.contact.value.request != r.request
    else if r.room == "" || r.user == "" then false
    else
      v.member.Some? &&
      !(r.action == PublicJoinRequest && MayRestart(v.member.value.membership) && r.status != Completed &&
        v.member.value.request == r.base) &&
      v.member.value.request != Blank && v.member.value.request != r.request
  }

  // A rebuild's row is at exactly its generation and Matrix agrees with the row.
  predicate RebuildSettled(r: Record, v: View, transport: bool) {
    v.member.Some? && v.member.value.request == r.request &&
    ((v.member.value.membership == Invite && (!transport || v.joined == IsOut)) ||
     (v.member.value.membership == Join && (!transport || v.joined == IsIn)))
  }

  // Whether a completed operation's cached result still describes the world; unknown
  // when that depends on a Matrix fact that cannot be read.
  datatype Currency = Current | Outdated | Unknown

  function FactIs(v: View, wanted: Probe, transport: bool): Currency {
    if !transport || v.joined == wanted then Current else if v.joined == ProbeError then Unknown else Outdated
  }

  function RebuildCurrency(r: Record, v: View, transport: bool): Currency {
    if v.member.None? || v.member.value.request != r.request then Outdated
    else if v.member.value.membership == Invite then FactIs(v, IsOut, transport)
    else if v.member.value.membership == Join then FactIs(v, IsIn, transport)
    else Outdated
  }

  function ContactCurrency(r: Record, result: Result, v: View, transport: bool): Currency {
    if r.action == ContactsRequest && result.status == WasPendingOutbound then Outdated
    else if v.contact.None? || v.contact.value.room != result.room ||
      v.contact.value.status != result.status then Outdated
    else if r.action == ContactsReject && result.status == WasRejected then FactIs(v, IsOut, transport)
    else if r.action == ContactsReject && result.status == WasAccepted then FactIs(v, IsIn, transport)
    else if r.action == ContactsAccept && result.status == WasAccepted && transport then
      if v.joined == IsIn && !v.conversation then Outdated else FactIs(v, IsIn, transport)
    else Current
  }

  function StillCurrent(r: Record, result: Result, v: View, transport: bool): Currency {
    if IsInviteAction(r.action) then RebuildCurrency(r, v, transport)
    else if IsContactAction(r.action) then ContactCurrency(r, result, v, transport)
    else if result.status == WasRejected && r.room != "" && r.user != "" then
      if v.member.Some? && v.member.value.membership in {Reject, Rejected} then FactIs(v, IsOut, transport)
        else Outdated
    else if result.status == WasOk && r.action == GroupsInviteReject then Current
    else if result.status in {WasJoined, WasAccepted, WasPendingInbound, WasPendingOutbound, WasOk} then
      FactIs(v, IsIn, transport)
    else Outdated
  }

  predicate CachedIs(r: Record, v: View, transport: bool, currency: Currency) {
    r.status == Completed && r.result.Some? && StillCurrent(r, r.result.value, v, transport) == currency
  }

  // Whether answering from the current row needs a Matrix probe that failed.
  predicate ReadFails(r: Record, v: View) {
    (IsContactAction(r.action) ==> v.contact.None?) &&
    (v.member.None? || (v.member.value.membership == Join && v.joined == ProbeError))
  }

  // The status the row tells, where it can be read.
  function RowStatus(r: Record, v: View): Outcome {
    if IsContactAction(r.action) && v.contact.Some? then v.contact.value.status
    else if v.member.None? then WasOther
    else
      match v.member.value.membership
      case Join => if v.joined == IsIn then WasJoined else WasJoining
      case Reject => WasRejected
      case Rejected => WasRejected
      case Joining => WasJoining
      case JoinFailed => WasJoinFailed
      case Approved => WasApproved
      case _ => WasOther
  }

  // Behind a busy workflow any status that is not settled or under way shows as joining.
  function BusyStatus(r: Record, v: View): Outcome {
    var status := RowStatus(r, v);
    if IsContactAction(r.action) && v.contact.Some? then
      if r.action == ContactsRequest || status in {WasAccepted, WasRejected, WasJoining} then status else WasJoining
    else if status in {WasApproved, WasJoined, WasRejected, WasJoining, WasJoinFailed} then status else WasJoining
  }

  function AnswerPresent(r: Record, v: View): Answer {
    if ReadFails(r, v) then Broken else Present(v, RowStatus(r, v))
  }

  predicate HasWorkflow(r: Record) {
    (r.action in {GroupsJoin, GroupsInviteReject, GroupsInvite, ChannelsJoin, ChannelsInvite, ChannelsApprove,
                  ChannelsReject, PublicJoinRequest} && r.room != "" && r.user != "") ||
    (IsContactAction(r.action) && r.peer != "")
  }

  // A fresh public join does not wait behind the terminal decision it leaves behind.
  predicate MaySkipWorkflow(r: Record, member: Option<Row>) {
    r.action == PublicJoinRequest && r.room != "" && r.user != "" && r.request != Blank &&
    r.base != Blank && r.request != r.base &&
    member.Some? && member.value.request == r.base && MayRestart(member.value.membership)
  }

  predicate Mismatched(r: Record, explicitRequest: RequestId) {
    r.action == PublicJoinResult && r.base != Blank && explicitRequest != Blank && explicitRequest != r.request
  }

  // ---- The admission sequence ----

  // A completed operation whose Matrix fact cannot be read ends with an error, here as
  // behind a busy workflow. Otherwise a rebuild hands out its result only while it is
  // current, any other operation also the result of an attempt that has not completed,
  // and what is left is told from the row.
  predicate InFlightAnswer(r: Record, io: Reads, a: Answer) {
    if CachedIs(r, io.inFlight, io.transport, Unknown) then a.Broken?
    else if r.result.Some? && (CachedIs(r, io.inFlight, io.transport, Current) ||
      (r.status != Completed && !IsInviteAction(r.action))) then a == Cached(r.result.value)
    else if IsInviteAction(r.action) || ReadFails(r, io.inFlight) then a.StillJoining?
    else a == Present(io.inFlight, RowStatus(r, io.inFlight))
  }

  method InFlight(r: Record, io: Reads) returns (a: Answer)
    ensures InFlightAnswer(r, io, a)
  {
    if IsInviteAction(r.action) {
      if r.status == Completed && r.result.Some? {
        var currency := StillCurrent(r, r.result.value, io.inFlight, io.transport);
        if currency == Unknown {
          return Broken;
        }
        if currency == Current {
          return Cached(r.result.value);
        }
      }
      return StillJoining;
    }
    if r.result.Some? {
      if r.status != Completed {
        return Cached(r.result.value);
      }
      var currency := StillCurrent(r, r.result.value, io.inFlight, io.transport);
      if currency == Unknown {
        return Broken;
      }
      if currency == Current {
        return Cached(r.result.value);
      }
    }
    if ReadFails(r, io.inFlight) {
      return StillJoining;
    }
    return Present(io.inFlight, RowStatus(r, io.inFlight));
  }

  // The stored operation a busy rebuild may answer from.
  predicate BusyRowIs(r: Record, io: Reads, currency: Currency) {
    io.busyRow.Some? && io.busyRow.value.action == r.action && !IdentityConflict(io.busyRow.value, r) &&
    CachedIs(io.busyRow.value, io.busy, io.transport, currency)
  }

  predicate BusyAnswer(r: Record, io: Reads, a: Answer) {
    if IsInviteAction(r.action) then
      if BusyRowIs(r, io, Unknown) then a.Broken?
      else if BusyRowIs(r, io, Current) then a == Cached(io.busyRow.value.result.value)
      else a.StillJoining?
    else a == if ReadFails(r, io.busy) then StillJoining else Present(io.busy, BusyStatus(r, io.busy))
  }

  method Busy(r: Record, io: Reads) returns (a: Answer)
    ensures BusyAnswer(r, io, a)
    // Joined is said only of a row in join whose Matrix fact was read, and a member is
    // never reported as anything but settled or under way.
    ensures a.Present? && a.status == WasJoined && !IsContactAction(r.action) ==>
              io.busy.member.Some? && io.busy.member.value.membership == Join && io.busy.joined == IsIn
    ensures a.Present? && !IsContactAction(r.action) ==>
              a.status in {WasApproved, WasJoined, WasRejected, WasJoining, WasJoinFailed}
  {
    if IsInviteAction(r.action) {
      if io.busyRow.Some? {
        var stored := io.busyRow.value;
        if stored.action == r.action && !IdentityConflict(stored, r) && stored.status == Completed &&
          stored.result.Some? {
          var currency := StillCurrent(stored, stored.result.value, io.busy, io.transport);
          if currency == Unknown {
            return Broken;
          }
          if currency == Current {
            return Cached(stored.result.value);
          }
        }
      }
      return StillJoining;
    }
    if ReadFails(r, io.busy) {
      return StillJoining;
    }
    return Present(io.busy, BusyStatus(r, io.busy));
  }

  // The shape every stored public-join record has: its generation is the base
  // generation or was derived from it.
  predicate WellDerived(r: Record) {
    r.action == PublicJoinRequest ==>
      r.request != Blank && Advances(r.base, r.request)
  }

  // A record as derived from a request, before any claim.
  predicate IsFresh(r: Record) {
    r.status == Running && r.phase == Prepared && r.result.None?
  }

  // ---- When the handler runs ----

  // A public action derives its record again once it has its workflow.
  function Latest(incoming: Record, io: Reads): Record {
    if IsPublicAction(incoming.action) then io.refreshed else incoming
  }

  // The record a claim is taken for.
  function Target(incoming: Record, io: Reads): Record {
    if io.stored.Some? then io.stored.value else Latest(incoming, io)
  }

  predicate WorkflowFree(incoming: Record, io: Reads) {
    io.workflowGranted || !HasWorkflow(incoming) || MaySkipWorkflow(incoming, io.advance)
  }

  predicate Passes(incoming: Record, io: Reads) {
    !Mismatched(incoming, io.explicitRequest) && WorkflowFree(incoming, io) &&
    !Mismatched(Latest(incoming, io), io.explicitRequest)
  }

  predicate SameRequest(stored: Record, r: Record) {
    stored.action == r.action && !IdentityConflict(stored, r)
  }

  predicate HasResult(r: Record) {
    r.status == Completed && r.result.Some?
  }

  // A contact request that cannot be read, or whose contact was deleted meanwhile, is not
  // made again.
  predicate ContactGone(r: Record, v: View) {
    r.action == ContactsRequest && (ReadFails(r, v) || (v.contact.Some? && v.contact.value.status == WasDeleted))
  }

  // A completed operation runs again only when its result no longer describes the world.
  predicate MayRepeat(r: Record, io: Reads) {
    HasResult(r) ==> CachedIs(r, io.current, io.transport, Outdated) && !ContactGone(r, io.current)
  }

  predicate MayRun(incoming: Record, io: Reads) {
    Passes(incoming, io) &&
    (io.stored.Some? ==>
       var r := io.stored.value;
       SameRequest(r, Latest(incoming, io)) && !Superseded(r, io.check) && MayRepeat(r, io)) &&
    Claimable(io.claimRow, Target(incoming, io), io.owner, io.now)
  }

  // ---- What it answers otherwise ----

  predicate SupersededAnswer(r: Record, io: Reads, a: Answer) {
    if IsInviteAction(r.action) then a.StillJoining?
    else if r.action == PublicJoinRequest || r.result.None? then a == AnswerPresent(r, io.check)
    else a == Cached(r.result.value)
  }

  predicate ResultAnswer(r: Record, io: Reads, a: Answer) {
    if CachedIs(r, io.current, io.transport, Current) then r.result.Some? && a == Cached(r.result.value)
    else if CachedIs(r, io.current, io.transport, Unknown) || ReadFails(r, io.current) then a.Broken?
    else a == Present(io.current, WasDeleted)
  }

  // A claim that was not granted is answered for the row that has it.
  predicate ClaimAnswer(r: Record, io: Reads, a: Answer) {
    io.claimRow.Some? &&
    if SameRequest(io.claimRow.value, r) then InFlightAnswer(io.claimRow.value, io, a) else a.Conflict?
  }

  predicate ResumeAnswer(r: Record, io: Reads, a: Answer) {
    if io.stored.None? then ClaimAnswer(r, io, a)
    else
      var stored := io.stored.value;
      if !SameRequest(stored, r) then a.Conflict?
      else if Superseded(stored, io.check) then SupersededAnswer(stored, io, a)
      else if !MayRepeat(stored, io) then ResultAnswer(stored, io, a)
      else ClaimAnswer(stored, io, a)
  }

  predicate Replies(incoming: Record, io: Reads, a: Answer) {
    if Mismatched(incoming, io.explicitRequest) then a == AnswerPresent(incoming, io.mismatch)
    else if !WorkflowFree(incoming, io) then BusyAnswer(incoming, io, a)
    else if Mismatched(Latest(incoming, io), io.explicitRequest) then
      a == AnswerPresent(Latest(incoming, io), io.remismatch)
    else ResumeAnswer(Latest(incoming, io), io, a)
  }

  // The claim of the record, and the operation it starts; a completed contact operation
  // starts over.
  method Claim(record: Record, reset: bool, io: Reads) returns (d: Decision, claim: Option<Record>)
    ensures claim == if Claimable(io.claimRow, record, io.owner, io.now)
                     then Some(Claimed(io.claimRow, record, io.owner, io.now)) else None
    ensures claim.Some? ==> d == Run(if reset then Cleared(claim.value) else claim.value)
    ensures claim.None? ==> d.Reply? && ClaimAnswer(record, io, d.answer)
  {
    if !Claimable(io.claimRow, record, io.owner, io.now) {
      var row := io.claimRow.value;
      if row.action != record.action || IdentityConflict(row, record) {
        return Reply(Conflict), None;
      }
      var a := InFlight(row, io);
      return Reply(a), None;
    }
    claim := Some(Claimed(io.claimRow, record, io.owner, io.now));
    d := Run(if reset then Cleared(claim.value) else claim.value);
  }

  // From the lookup of the operation to its claim.
  method Resume(latest: Record, io: Reads) returns (d: Decision, claim: Option<Record>)
    requires IsFresh(latest)
    ensures d.Reply? ==> claim.None? && ResumeAnswer(latest, io, d.answer)
    ensures d.Run? <==>
              (io.stored.Some? ==>
                 var r := io.stored.value; SameRequest(r, latest) && !Superseded(r, io.check) && MayRepeat(r, io)) &&
              Claimable(io.claimRow, if io.stored.Some? then io.stored.value else latest, io.owner, io.now)
    ensures d.Run? ==>
              var r := if io.stored.Some? then io.stored.value else latest;
              claim == Some(Claimed(io.claimRow, r, io.owner, io.now)) &&
              d.record == if HasResult(r) && IsContactAction(r.action) then Cleared(claim.value) else claim.value
  {
    var record := latest;
    if io.stored.Some? {
      if io.stored.value.action != latest.action || IdentityConflict(io.stored.value, latest) {
        return Reply(Conflict), None;
      }
      record := io.stored.value;
      if Superseded(record, io.check) {
        if IsInviteAction(record.action) {
          return Reply(StillJoining), None;
        }
        if record.action != PublicJoinRequest && record.result.Some? {
          return Reply(Cached(record.result.value)), None;
        }
        return Reply(AnswerPresent(record, io.check)), None;
      }
    }
    var reset := false;
    if record.status == Completed && record.result.Some? {
      var currency := StillCurrent(record, record.result.value, io.current, io.transport);
      if currency == Unknown {
        return Reply(Broken), None;
      }
      if currency == Current {
        return Reply(Cached(record.result.value)), None;
      }
      if record.action == ContactsRequest {
        if ReadFails(record, io.current) {
          return Reply(Broken), None;
        }
        if io.current.contact.Some? && io.current.contact.value.status == WasDeleted {
          return Reply(Present(io.current, WasDeleted)), None;
        }
      }
      reset := IsContactAction(record.action);
    }
    d, claim := Claim(record, reset, io);
  }

  // The handler runs exactly when no callback of another generation is answered, the
  // workflow is free, a stored operation is the same one, not superseded and not to be
  // answered from its result, and the claim is granted; then on the claimed row. What is
  // answered otherwise says which of these it was.
  method Admit(incoming: Record, io: Reads) returns (d: Decision, claim: Option<Record>)
    requires IsFresh(incoming) && IsFresh(io.refreshed) && io.refreshed.action == incoming.action
    ensures d.Run? <==> MayRun(incoming, io)
    ensures claim == if MayRun(incoming, io)
                     then Some(Claimed(io.claimRow, Target(incoming, io), io.owner, io.now)) else None
    ensures d.Run? ==>
              var r := Target(incoming, io);
              d.record == if HasResult(r) && IsContactAction(r.action) then Cleared(claim.value) else claim.value
    ensures d.Reply? ==> Replies(incoming, io, d.answer)
  {
    if Mismatched(incoming, io.explicitRequest) {
      return Reply(AnswerPresent(incoming, io.mismatch)), None;
    }
    if !MaySkipWorkflow(incoming, io.advance) && HasWorkflow(incoming) && !io.workflowGranted {
      var a := Busy(incoming, io);
      return Reply(a), None;
    }
    var record := incoming;
    if IsPublicAction(incoming.action) {
      record := io.refreshed;
      if Mismatched(record, io.explicitRequest) {
        return Reply(AnswerPresent(record, io.remismatch)), None;
      }
    }
    d, claim := Resume(record, io);
  }

  // ---- What that means ----

  // The operation that runs holds the claim, under the identity asked for.
  lemma RunsUnderItsClaim(incoming: Record, io: Reads)
    requires MayRun(incoming, io)
    ensures var claim := Claimed(io.claimRow, Target(incoming, io), io.owner, io.now);
            claim.action == Target(incoming, io).action && claim.leaseOwner == Some(io.owner) &&
            claim.leaseUntil == io.now + LeaseMillis() && !IdentityConflict(claim, Target(incoming, io)) &&
            SameOperation(Cleared(claim), claim)
  {
    GrantedClaimNeverConflicts(io.claimRow, Target(incoming, io), io.owner, io.now);
  }

  // A first request runs as soon as its workflow is free: nothing is stored for it and no
  // row is in its way.
  lemma FirstRequestRuns(incoming: Record, io: Reads)
    requires io.stored.None? && io.claimRow.None? && Passes(incoming, io)
    ensures MayRun(incoming, io)
    ensures Claimed(io.claimRow, Target(incoming, io), io.owner, io.now) ==
              Latest(incoming, io).(revision := 1, leaseOwner := Some(io.owner), leaseUntil := io.now + LeaseMillis())
  {
  }

  // A stored rebuild operation that is completed and whose row and Matrix fact were
  // seen to match it, which is what a settled answer without a handler needs.
  predicate SettledBy(row: Option<Record>, v: View, action: Action, io: Reads, result: Result) {
    row.Some? && row.value.action == action && CachedIs(row.value, v, io.transport, Current) &&
    row.value.result == Some(result) && RebuildSettled(row.value, v, io.transport)
  }

  predicate SettledElsewhere(action: Action, io: Reads, result: Result) {
    SettledBy(io.busyRow, io.busy, action, io, result) ||
    SettledBy(io.stored, io.current, action, io, result) ||
    SettledBy(io.claimRow, io.inFlight, action, io, result)
  }

  // A rebuild is never reported as settled without its handler, unless the stored
  // operation is completed and the row carries that generation with its Matrix fact.
  lemma RebuildsAreNotSettledEarly(incoming: Record, io: Reads, a: Answer)
    requires io.refreshed.action == incoming.action && IsInviteAction(incoming.action)
    requires !MayRun(incoming, io) && Replies(incoming, io, a)
    ensures a in {Conflict, Broken, StillJoining} || (a.Cached? && SettledElsewhere(incoming.action, io, a.result))
  {
    forall r: Record, v: View | r.action == incoming.action && r.result.Some?
      ensures StillCurrent(r, r.result.value, v, io.transport) == Current <==> RebuildSettled(r, v, io.transport)
    {
      RebuildCurrentExactly(r, r.result.value, v, io.transport);
    }
  }

  // A public-join operation found with its row at a later generation.
  predicate LeftBehind(incoming: Record, io: Reads) {
    incoming.action == PublicJoinRequest &&
    io.stored.Some? && io.stored.value.action == PublicJoinRequest &&
    io.stored.value.room != "" && io.stored.value.user != "" &&
    io.check.member.Some? && Later(io.check.member.value.request, io.stored.value.request)
  }

  // An operation left behind by its row runs no handler and hands out no stored result.
  lemma LeftBehindNeverRuns(incoming: Record, io: Reads, a: Answer)
    requires io.refreshed.action == incoming.action && LeftBehind(incoming, io) && WellDerived(io.stored.value)
    ensures !MayRun(incoming, io)
    ensures Replies(incoming, io, a) ==> !a.Cached?
  {
    LaterIsNeverReadmitted(io.stored.value, io.check);
  }

  // A stored result is only handed out from a stored operation of the same request.
  lemma CachedAnswersAreStored(incoming: Record, io: Reads, a: Answer)
    requires !MayRun(incoming, io) && Replies(incoming, io, a) && a.Cached?
    ensures a.result in StoredResults(io)
  {
  }

  function StoredResults(io: Reads): set<Result> {
    (if io.busyRow.Some? && io.busyRow.value.result.Some? then {io.busyRow.value.result.value} else {}) +
    (if io.stored.Some? && io.stored.value.result.Some? then {io.stored.value.result.value} else {}) +
    (if io.claimRow.Some? && io.claimRow.value.result.Some? then {io.claimRow.value.result.value} else {})
  }

  // ---- When a completed operation is current, and when it is superseded ----

  lemma RebuildCurrentExactly(r: Record, result: Result, v: View, transport: bool)
    requires IsInviteAction(r.action)
    ensures StillCurrent(r, result, v, transport) == Current <==> RebuildSettled(r, v, transport)
  {
  }

  // What Matrix has to say, if there is a transport to ask, for the result of a contact
  // operation to be current.
  predicate ContactFact(r: Record, result: Result, v: View) {
    if result.status == WasRejected then r.action == ContactsReject ==> v.joined == IsOut
    else if result.status == WasAccepted then
      (r.action != ContactsRequest ==> v.joined == IsIn) && (r.action == ContactsAccept ==> v.conversation)
    else true
  }

  lemma ContactCurrentExactly(r: Record, result: Result, v: View, transport: bool)
    requires IsContactAction(r.action)
    ensures StillCurrent(r, result, v, transport) == Current <==>
              v.contact.Some? && v.contact.value.room == result.room && v.contact.value.status == result.status &&
              !(r.action == ContactsRequest && result.status == WasPendingOutbound) &&
              (transport ==> ContactFact(r, result, v))
  {
  }

  // A member operation that said rejected is current while the row and Matrix say so, one
  // that said in while Matrix says so, and an invitation declined is declined for good.
  lemma MemberCurrentExactly(r: Record, result: Result, v: View, transport: bool)
    requires !IsContactAction(r.action) && !IsInviteAction(r.action)
    ensures StillCurrent(r, result, v, transport) == Current <==>
              match result.status
              case WasRejected =>
                r.room != "" && r.user != "" && v.member.Some? && v.member.value.membership in {Reject, Rejected} &&
                (transport ==> v.joined == IsOut)
              case WasOk => r.action == GroupsInviteReject || !transport || v.joined == IsIn
              case WasJoined => !transport || v.joined == IsIn
              case WasAccepted => !transport || v.joined == IsIn
              case WasPendingInbound => !transport || v.joined == IsIn
              case WasPendingOutbound => !transport || v.joined == IsIn
              case _ => false
  {
  }

  // It is unknown exactly when Matrix has to be asked, cannot be, and would decide; for
  // an accepted contact that is asked before its conversation is looked at.
  lemma UnknownExactly(r: Record, result: Result, v: View, transport: bool)
    ensures var asked := (p: Probe) => v.(joined := p, conversation := true);
            StillCurrent(r, result, v, transport) == Unknown <==>
              transport && v.joined == ProbeError &&
              StillCurrent(r, result, asked(IsIn), true) != StillCurrent(r, result, asked(IsOut), true)
  {
  }

  // Outside the exception of an operation that has not left the terminal row it was
  // derived from, an operation is superseded exactly by a row of another generation.
  lemma SupersededExactly(r: Record, v: View)
    ensures IsContactAction(r.action) ==>
              (Superseded(r, v) <==>
                r.request != Blank && v.contact.Some? && v.contact.value.request !in {Blank, r.request} &&
                (r.action == ContactsRequest && r.status != Completed && v.contact.value.request == r.base ==>
                  v.contact.value.status != WasDeleted))
    ensures !IsContactAction(r.action) ==>
              (Superseded(r, v) <==>
                r.request != Blank && r.room != "" && r.user != "" &&
                v.member.Some? && v.member.value.request !in {Blank, r.request} &&
                (r.action == PublicJoinRequest && r.status != Completed && v.member.value.request == r.base ==>
                  v.member.value.membership !in {Reject, Rejected, Leave, Left}))
  {
  }

  // A derived public join skips its workflow exactly when the row it finds is the terminal
  // one it was derived from; restarting that row then advances it.
  lemma RestartSkipsWorkflow(r: Record, m: Row, now: int)
    requires r.action == PublicJoinRequest && WellDerived(r) && r.room != "" && r.user != ""
    ensures MaySkipWorkflow(r, Some(m)) <==>
              m.request == r.base && r.base != Blank && Fencing.RestartIntent(m, r.request, now).Some?
    ensures MaySkipWorkflow(r, Some(m)) ==> Fencing.Disciplined(Fencing.RestartIntent(m, r.request, now).value)
    ensures !MaySkipWorkflow(r, None)
  {
  }

  // Nothing else skips it, and every action has one whose target is known, but for the
  // callback that settles a decision.
  lemma WorkflowExactly(r: Record, m: Option<Row>)
    ensures r.action != PublicJoinRequest || r.room == "" || r.user == "" ==> !MaySkipWorkflow(r, m)
    ensures HasWorkflow(r) <==>
              r.action != PublicJoinResult &&
              if IsContactAction(r.action) then r.peer != "" else r.room != "" && r.user != ""
  {
  }

  // A callback is answered at once exactly when it names a generation and the row it
  // finds has another one.
  lemma CallbackMismatchExactly(p: Params, look: Lookups)
    requires !p.operationId.Malformed?
    ensures var r := RecordFor(PublicJoinResult, p, look).value;
            var m := FindMember(r.room, r.user, look);
            Mismatched(r, p.requestId) <==>
              p.requestId != Blank && m.Some? && m.value.request !in {Blank, p.requestId}
    ensures forall a: Action, explicitRequest: RequestId | a != PublicJoinResult ::
              RecordFor(a, p, look).Some? ==> !Mismatched(RecordFor(a, p, look).value, explicitRequest)
  {
  }

  // The service refuses an operation id for another request exactly where the store would
  // not grant its claim for its identity.
  lemma StoreAndServiceAgree(stored: Record, incoming: Record)
    ensures SameIdentity(stored, incoming) <==> SameRequest(stored, incoming)
    ensures IdentityConflict(stored, incoming) <==>
              !(incoming.room in {"", stored.room} && incoming.user in {"", stored.user} &&
                incoming.peer in {"", stored.peer} && incoming.request in {Blank, stored.request})
  {
  }

  // ---- What the row tells ----

  // An answer from the row tells the contact's status, or the member's: a member in join
  // is joined only if Matrix says so, and if Matrix cannot be read nothing is told.
  lemma PresentAnswerIs(r: Record, v: View)
    ensures IsContactAction(r.action) && v.contact.Some? ==> AnswerPresent(r, v) == Present(v, v.contact.value.status)
    ensures !(IsContactAction(r.action) && v.contact.Some?) ==>
              AnswerPresent(r, v) ==
                if v.member.None? then Broken
                else
                  match v.member.value.membership
                  case Join =>
                    (match v.joined
                     case ProbeError => Broken
                     case IsIn => Present(v, WasJoined)
                     case IsOut => Present(v, WasJoining))
                  case Joining => Present(v, WasJoining)
                  case JoinFailed => Present(v, WasJoinFailed)
                  case Approved => Present(v, WasApproved)
                  case Reject => Present(v, WasRejected)
                  case Rejected => Present(v, WasRejected)
                  case _ => Present(v, WasOther)
    ensures ReadFails(r, v) <==> AnswerPresent(r, v).Broken?
  {
  }

  // Behind a busy workflow the status told is kept where it is settled or under way, for a
  // contact request whatever it is, and is joining otherwise.
  lemma BusyStatusIs(r: Record, v: View)
    requires !ReadFails(r, v)
    ensures var told, busy := RowStatus(r, v), BusyStatus(r, v);
            var settled := if IsContactAction(r.action) && v.contact.Some? then {WasAccepted, WasRejected}
                           else {WasApproved, WasJoined, WasRejected, WasJoinFailed};
            (busy == told <==>
              told in settled || told == WasJoining || (r.action == ContactsRequest && v.contact.Some?)) &&
            (busy != told ==> busy == WasJoining)
  {
  }

  // The base-generation exception cannot re-admit an operation whose row is later:
  // the base is no later than the operation's own generation.
  lemma LaterIsNeverReadmitted(r: Record, v: View)
    requires r.action == PublicJoinRequest && WellDerived(r) && r.room != "" && r.user != ""
    requires v.member.Some? && Later(v.member.value.request, r.request)
    ensures Superseded(r, v)
  {
    var row := v.member.value.request;
    LaterIsLonger(row, r.request);
    if r.base != r.request {
      LaterTransitive(row, r.request, r.base);
      LaterIsLonger(row, r.base);
    }
  }

  // A fresh record has that shape, and the durable row keeps it (IdentityIsStable).
  lemma FreshRecordsAreWellDerived(p: Params, look: Lookups)
    requires !p.operationId.Malformed?
    ensures WellDerived(RecordFor(PublicJoinRequest, p, look).value)
  {
    PublicJoinGeneration(p, look);
  }

  // Over every run of the operation store whose lookups come with well-derived records,
  // the stored row has that shape: this is what Admit asks of it.
  lemma {:induction false} StoredRecordsAreWellDerived(dbs: seq<Db>, steps: seq<Step>, k: nat)
    requires IsRun(dbs, steps) && k < |dbs|
    requires forall i | 0 <= i < |steps| && steps[i].Look? :: WellDerived(steps[i].incoming)
    ensures dbs[k].row.Some? ==> WellDerived(dbs[k].row.value)
    ensures forall o | o in dbs[k].trackers && dbs[k].trackers[o].Looked? ::
              var t := dbs[k].trackers[o]; WellDerived(t.incoming) && (t.seen.Some? ==> WellDerived(t.seen.value))
  {
    if k > 0 {
      StoredRecordsAreWellDerived(dbs, steps, k - 1);
      RowInvariant(dbs, steps, k - 1);
      StepKeepsInv(dbs[k - 1], steps[k - 1]);
    }
  }

  // A granted claim never conflicts with the identity it was granted for.
  lemma GrantedClaimNeverConflicts(stored: Option<Record>, incoming: Record, owner: nat, now: int)
    requires Claimable(stored, incoming, owner, now)
    ensures !IdentityConflict(Claimed(stored, incoming, owner, now), incoming)
  {
  }

  // The exception itself: the operation that failed to leave the terminal row it was
  // derived from is exactly the one that may still run.
  lemma BaseExceptionIsExact(r: Record, v: View)
    requires r.action == PublicJoinRequest && WellDerived(r) && r.room != "" && r.user != "" && r.status != Completed &&
          r.request != r.base
    requires v.member.Some? && MayRestart(v.member.value.membership) && v.member.value.request != Blank
    ensures !Superseded(r, v) <==> v.member.value.request in {r.base, r.request}
  {
  }
}
