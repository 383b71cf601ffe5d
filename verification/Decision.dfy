// An owner's decision on a channel join request: every write it makes on the member row,
// from the lookup to the settlement after the applicant's node has answered.
//
// Each read of the store is an input of its own, so other writers may change the row
// between any two accesses. A write is a conditional save as in Fencing.

module Decision {
  import opened Membership
  import opened MemberPersistence
  import opened Fencing
  import opened Admission

  datatype InviteEnd = Invited | NotInvited

  // How telling the applicant's node ends: it has no address, it refuses for good, it
  // cannot be reached or answers with an error, or it answers with a status, which may
  // be missing.
  datatype Callback = NoAddress | Terminal | Unreached | Answer(status: Membership)

  // The n-th store access sees rows(n) and the n-th probe answers probe(n). The operation
  // behind the decision lends its own request id where neither caller nor row has one.
  datatype Io = Io(
    rows: nat -> Option<Row>,
    probe: nat -> Probe,
    now: int,
    remoteUser: bool,
    transport: bool,
    publishes: bool,
    invite: InviteEnd,
    callback: Callback,
    operationRequest: RequestId
  )

  // A conditional save that landed: what it found and what it left.
  datatype Write = Write(intent: Intent, before: Row, after: Row)

  // The save reads and merges at one access and swaps at the next.
  function Swap(io: Io, n: nat, i: Intent): Option<Write> {
    if Expected(io.rows(n), i) && Expected(io.rows(n + 1), i)
    then Some(Write(i, io.rows(n + 1).value, Merge(Prepare(i.member, i.now), io.rows(n).value)))
    else None
  }

  // The member as the writer wants it, expected in the state of the given row.
  function Wants(member: Row, membership: Membership, expected: Row, now: int): Intent {
    Intent(member.(membership := membership), expected.request, expected.membership, now)
  }

  // ---- Repairing the row of a member that Matrix says has joined ----

  // The member the repair ends with, if any, and the write it made, if any.
  datatype Repair = Repair(member: Option<Row>, writes: seq<Write>)

  const REPAIR_ATTEMPTS: nat := 2

  function RepairFrom(io: Io, member: Row, attempt: nat): Repair
    requires attempt <= REPAIR_ATTEMPTS
    decreases REPAIR_ATTEMPTS - attempt
  {
    if attempt == REPAIR_ATTEMPTS then Repair(None, [])
    else
      var n := 1 + 3 * attempt;
      var saved := Swap(io, n, Wants(member, Join, member, io.now));
      if saved.Some? then Repair(Some(member.(membership := Join)), [saved.value])
      else if io.rows(n + 2).None? then Repair(None, [])
      else if io.rows(n + 2).value.membership == Join then Repair(io.rows(n + 2), [])
      else RepairFrom(io, io.rows(n + 2).value, attempt + 1)
  }

  // The repair ends with a member, in join, exactly if one of its attempts finds the row
  // as it was read, or in join, and makes at most one write: on a row as it was last read
  // and in its generation, to join.
  predicate IsRepair(io: Io, seen: Row, r: Repair) {
    (r.member.Some? <==> Repairable(io, seen)) && (r.member.Some? ==> r.member.value.membership == Join) &&
    (r.writes != [] ==>
       r.member.Some? && |r.writes| == 1 && Some(r.writes[0].before) in {io.rows(2), io.rows(5)} &&
       r.writes[0].before.request == r.writes[0].intent.request == r.member.value.request &&
       r.writes[0].after.membership == Join && r.writes[0].after.request == r.member.value.request)
  }

  method RepairMember(io: Io, seen: Row) returns (r: Repair)
    ensures r == RepairFrom(io, seen, 0)
    ensures IsRepair(io, seen, r)
  {
    r := Attempts(io, seen);
    RepairShape(io, seen);
  }

  method Attempts(io: Io, seen: Row) returns (r: Repair)
    ensures r == RepairFrom(io, seen, 0)
  {
    var member := seen;
    for attempt := 0 to REPAIR_ATTEMPTS
      invariant RepairFrom(io, seen, 0) == RepairFrom(io, member, attempt)
    {
      var n := 1 + 3 * attempt;
      var saved := Swap(io, n, Wants(member, Join, member, io.now));
      if saved.Some? {
        return Repair(Some(member.(membership := Join)), [saved.value]);
      }
      var current := io.rows(n + 2);
      if current.None? {
        return Repair(None, []);
      }
      if current.value.membership == Join {
        return Repair(current, []);
      }
      member := current.value;
    }
    r := Repair(None, []);
  }

  // ---- Completing a decision ----

  // The generation a settlement expects: the one the caller names, else the one of its
  // own snapshot, else that of the operation.
  function SettledRequest(io: Io, member: Row, param: RequestId): RequestId {
    FirstSet(param, FirstSet(member.request, io.operationRequest))
  }

  function Settlement(io: Io, member: Row, param: RequestId, outcome: Membership): Intent {
    Intent(member.(membership := outcome), SettledRequest(io, member, param), member.membership, io.now)
  }

  function CallbackOutcome(io: Io, approved: bool): Membership {
    match io.callback
    case NoAddress => if approved then Approved else Reject
    case Terminal => Unset
    case Unreached => if approved then Joining else Reject
    case Answer(status) =>
      if status == Unset then if approved then Approved else Reject
      else if status == Joined then Join
      else if status == Rejected then Reject
      else status
  }

  function Notify(io: Io, member: Row, param: RequestId, approved: bool): seq<Write> {
    if io.callback.Terminal? then []
    else AsLog(Swap(io, 11, Settlement(io, member, param, CallbackOutcome(io, approved))))
  }

  function AsLog(w: Option<Write>): seq<Write> {
    if w.Some? then [w.value] else []
  }

  // A local applicant with a transport is handed over to the retained-room join.
  function CompleteApproved(io: Io, member: Row, param: RequestId): seq<Write> {
    if io.probe(1) == ProbeError then []
    else if io.probe(1) == IsIn then
      if io.remoteUser then AsLog(Swap(io, 9, Wants(member, Join, member, io.now))) else []
    else
      var joining := Swap(io, 9, Wants(member, Joining, member, io.now));
      if joining.None? then []
      else
        var next := member.(membership := Joining);
        if io.remoteUser then
          [joining.value] + if io.invite.Invited? then Notify(io, next, param, true) else []
        else if !io.transport then [joining.value] + AsLog(Swap(io, 11, Wants(member, Approved, next, io.now)))
        else [joining.value]
  }

  function Complete(io: Io, approved: bool, member: Row, param: RequestId): seq<Write> {
    if approved then CompleteApproved(io, member, param)
    else if io.remoteUser then Notify(io, member, param, false)
    else []
  }

  // ---- The decision ----

  // The request id given is bound to a row that has none; two that differ refuse.
  function Bind(seen: Row, param: RequestId): Option<Row> {
    if param != Blank && seen.request != Blank && param != seen.request then None
    else Some(seen.(request := FirstSet(seen.request, param)))
  }

  predicate MutationAllowed(approved: bool, m: Membership) {
    if approved then m in {Pending, Approved, Joining, JoinFailed, Join} else m in {Pending, Reject, Rejected}
  }

  // The writes of a decision on a row that passed the request check.
  function Decided(io: Io, approved: bool, seen: Row, bound: Row, param: RequestId): seq<Write> {
    if seen.membership == Join then if approved then Complete(io, true, bound, param) else []
    else if !MutationAllowed(approved, seen.membership) then []
    else
      var membership := if approved then Approved else Reject;
      var saved := Swap(io, 7, Wants(bound, membership, seen, io.now));
      if saved.None? then []
      else [saved.value] + if io.publishes then Complete(io, approved, bound.(membership := membership), param) else []
  }

  // A rejection first asks Matrix, and takes a member that has joined as approved.
  predicate Repairs(io: Io, approved: bool) {
    !approved && io.probe(0) == IsIn
  }

  function Decide(io: Io, approved: bool, param: RequestId): seq<Write> {
    if io.rows(0).None? then []
    else
      var seen := io.rows(0).value;
      if !approved && io.probe(0) == ProbeError then []
      else if Repairs(io, approved) then
        var r := RepairFrom(io, seen, 0);
        r.writes + if r.member.Some? then Complete(io, true, r.member.value, param) else []
      else
        var bound := Bind(seen, param);
        if bound.None? then [] else Decided(io, approved, seen, bound.value, param)
  }

  // ---- What its writes touch ----

  // A row of another generation than the one named.
  predicate Foreign(row: Row, g: RequestId) {
    row.request != Blank && row.request != g
  }

  predicate Touches(log: seq<Write>, g: RequestId) {
    exists k | 0 <= k < |log| :: Foreign(log[k].before, g)
  }

  // Writes that carry the generation a and expect it, or the generation b.
  predicate AllExpect(log: seq<Write>, a: RequestId, b: RequestId) {
    forall k | 0 <= k < |log| ::
      log[k].intent.request in {a, b} && log[k].intent.member.request == a &&
        log[k].before.request == log[k].intent.request
  }

  lemma NotifyExpects(io: Io, member: Row, param: RequestId, approved: bool)
    ensures AllExpect(Notify(io, member, param, approved), member.request, SettledRequest(io, member, param))
  {
  }

  lemma CompleteExpects(io: Io, approved: bool, member: Row, param: RequestId)
    ensures var log := Complete(io, approved, member, param);
            AllExpect(log, member.request, SettledRequest(io, member, param)) &&
            (approved && log != [] ==> log[0].intent.request == member.request)
  {
    if approved {
      NotifyExpects(io, member.(membership := Joining), param, true);
    } else {
      NotifyExpects(io, member, param, false);
    }
  }

  lemma {:induction false} RepairExpects(io: Io, member: Row, attempt: nat)
    requires attempt <= REPAIR_ATTEMPTS
    ensures var r := RepairFrom(io, member, attempt);
            r.writes != [] ==>
              r.member.Some? && |r.writes| == 1 &&
              AllExpect(r.writes, r.member.value.request, r.member.value.request)
    decreases REPAIR_ATTEMPTS - attempt
  {
    if attempt < REPAIR_ATTEMPTS && io.rows(3 + 3 * attempt).Some? {
      RepairExpects(io, io.rows(3 + 3 * attempt).value, attempt + 1);
    }
  }

  lemma RepairPath(io: Io, seen: Row, param: RequestId)
    ensures var r := RepairFrom(io, seen, 0);
            var log := r.writes + if r.member.Some? then Complete(io, true, r.member.value, param) else [];
            log != [] ==> r.member.Some? && log[0].before.request == r.member.value.request &&
                          AllExpect(log, r.member.value.request, SettledRequest(io, r.member.value, param))
  {
    RepairExpects(io, seen, 0);
    var r := RepairFrom(io, seen, 0);
    if r.member.Some? {
      CompleteExpects(io, true, r.member.value, param);
    }
  }

  // The writes of a decision expect the row seen, or the generation bound or settled.
  predicate AllBound(log: seq<Write>, seen: RequestId, bound: RequestId, settled: RequestId) {
    forall k | 0 <= k < |log| ::
      log[k].before.request == log[k].intent.request && log[k].intent.member.request == bound &&
      log[k].intent.request in {seen, bound, settled}
  }

  lemma AfterSwap(w: Write, rest: seq<Write>, seen: RequestId, bound: RequestId, settled: RequestId)
    requires w.before.request == w.intent.request == seen && w.intent.member.request == bound
    requires AllExpect(rest, bound, settled)
    ensures AllBound([w] + rest, seen, bound, settled) && AllBound(rest, seen, bound, settled)
  {
  }

  // The decision is the first write, and all others complete it.
  lemma DecidedFirst(io: Io, approved: bool, seen: Row, bound: Row, param: RequestId)
    requires seen.membership != Join
    ensures var membership := if approved then Approved else Reject;
            var saved := Swap(io, 7, Wants(bound, membership, seen, io.now));
            var log := Decided(io, approved, seen, bound, param);
            if MutationAllowed(approved, seen.membership) && saved.Some?
            then
              log == [saved.value] +
                if io.publishes then Complete(io, approved, bound.(membership := membership), param) else []
            else log == []
  {
  }

  lemma CheckedPath(io: Io, approved: bool, seen: Row, param: RequestId)
    requires Bind(seen, param).Some?
    ensures var bound := Bind(seen, param).value;
            AllBound(Decided(io, approved, seen, bound, param),
                     seen.request, bound.request, SettledRequest(io, bound, param))
  {
    var bound := Bind(seen, param).value;
    var membership := if approved then Approved else Reject;
    var saved := Swap(io, 7, Wants(bound, membership, seen, io.now));
    if seen.membership == Join {
      CompleteExpects(io, true, bound, param);
    } else if saved.Some? {
      DecidedFirst(io, approved, seen, bound, param);
      CompleteExpects(io, approved, bound.(membership := membership), param);
      AfterSwap(saved.value, Complete(io, approved, bound.(membership := membership), param),
                seen.request, bound.request, SettledRequest(io, bound, param));
    }
  }

  // ---- In terms of what store, Matrix and transport answer ----

  // The swap that repairs this member finds its row as it was read, at both accesses.
  predicate Stable(io: Io, m: Row, n: nat) {
    var i := Wants(m, Join, m, io.now);
    Expected(io.rows(n), i) && Expected(io.rows(n + 1), i)
  }

  // Either attempt finds its row as it was read, or the row is found in join after it.
  predicate Repairable(io: Io, m: Row) {
    Stable(io, m, 1) ||
    (io.rows(3).Some? &&
     (io.rows(3).value.membership == Join || Stable(io, io.rows(3).value, 4) ||
      (io.rows(6).Some? && io.rows(6).value.membership == Join)))
  }

  // The first write of completing the approval of this member lands.
  predicate FirstLands(io: Io, m: Row) {
    io.probe(1) != ProbeError && (io.probe(1) == IsIn ==> io.remoteUser) && Stable(io, m, 9)
  }

  // The first row that a repair gets to write is of another generation: the row looked
  // up; the row read again after losing that one, repaired or found in join; or the row
  // read after losing that one too, found in join.
  predicate WritesForeign(io: Io, g: RequestId) {
    io.rows(0).Some? &&
    if Stable(io, io.rows(0).value, 1) then Foreign(io.rows(0).value, g)
    else
      io.rows(3).Some? &&
      if io.rows(3).value.membership == Join then Foreign(io.rows(3).value, g) && FirstLands(io, io.rows(3).value)
      else if Stable(io, io.rows(3).value, 4) then Foreign(io.rows(3).value, g)
      else
        io.rows(6).Some? && io.rows(6).value.membership == Join && Foreign(io.rows(6).value, g) &&
        FirstLands(io, io.rows(6).value)
  }

  lemma SecondAttempt(io: Io, m: Row)
    ensures RepairFrom(io, m, 1) ==
              if Stable(io, m, 4) then
                Repair(Some(m.(membership := Join)), [Swap(io, 4, Wants(m, Join, m, io.now)).value])
              else if io.rows(6).Some? && io.rows(6).value.membership == Join then Repair(io.rows(6), [])
              else Repair(None, [])
  {
    if io.rows(6).Some? {
      assert RepairFrom(io, io.rows(6).value, 2) == Repair(None, []);
    }
  }

  lemma FirstAttempt(io: Io, m: Row)
    ensures RepairFrom(io, m, 0) ==
              if Stable(io, m, 1) then
                Repair(Some(m.(membership := Join)), [Swap(io, 1, Wants(m, Join, m, io.now)).value])
              else if io.rows(3).None? then Repair(None, [])
              else if io.rows(3).value.membership == Join then Repair(io.rows(3), [])
              else RepairFrom(io, io.rows(3).value, 1)
  {
  }

  lemma SecondShape(io: Io, m: Row)
    ensures var r := RepairFrom(io, m, 1);
            (r.member.Some? ==> r.member.value.membership == Join) &&
            (r.writes != [] ==>
               r.member.Some? && |r.writes| == 1 && Some(r.writes[0].before) == io.rows(5) &&
               r.writes[0].before.request == r.writes[0].intent.request == r.member.value.request &&
               r.writes[0].after.membership == Join && r.writes[0].after.request == r.member.value.request)
  {
    SecondAttempt(io, m);
  }

  lemma RepairShape(io: Io, m: Row)
    ensures IsRepair(io, m, RepairFrom(io, m, 0))
  {
    FirstAttempt(io, m);
    if io.rows(3).Some? {
      SecondShape(io, io.rows(3).value);
      SecondAttempt(io, io.rows(3).value);
    }
  }

  lemma CompletionWrites(io: Io, m: Row, param: RequestId)
    ensures Complete(io, true, m, param) != [] <==> FirstLands(io, m)
  {
  }

  // The repair and what follows write a row of another generation exactly as said.
  lemma RepairTouches(io: Io, g: RequestId)
    requires g != Blank && io.rows(0).Some?
    ensures var r := RepairFrom(io, io.rows(0).value, 0);
            WritesForeign(io, g) <==>
              r.member.Some? && Foreign(r.member.value, g) && (r.writes != [] || FirstLands(io, r.member.value))
  {
    FirstAttempt(io, io.rows(0).value);
    if io.rows(3).Some? {
      SecondAttempt(io, io.rows(3).value);
    }
  }

  // A decision that names g changes a row of another generation exactly when it is a
  // rejection of a member that Matrix says has joined, and the first row its repair gets
  // to write is at another generation; it then goes through with approving that one.
  lemma ForeignWritesExactly(io: Io, approved: bool, g: RequestId)
    requires g != Blank
    ensures Touches(Decide(io, approved, g), g) <==> Repairs(io, approved) && WritesForeign(io, g)
  {
    if io.rows(0).Some? {
      var seen := io.rows(0).value;
      if Repairs(io, approved) {
        RepairPath(io, seen, g);
        RepairTouches(io, g);
        var r := RepairFrom(io, seen, 0);
        if r.member.Some? {
          CompletionWrites(io, r.member.value, g);
        }
      } else if Bind(seen, g).Some? {
        CheckedPath(io, approved, seen, g);
      }
    }
  }

  // ---- What a decision stores ----

  // What a save that lands leaves: the membership wanted, unless that is a plain leave of
  // a removed member, in the generation named or expected.
  lemma SwapStores(io: Io, n: nat, i: Intent)
    requires HasLeft(i.member.membership) ==> i.membership != Unset && !IsRemoved(i.membership)
    ensures Swap(io, n, i).Some? <==> Expected(io.rows(n), i) && Expected(io.rows(n + 1), i)
    ensures Swap(io, n, i).Some? ==>
              var w := Swap(io, n, i).value;
              Some(w.before) == io.rows(n + 1) && w.after.membership == Normalize(i.member.membership) &&
              w.after.request == WrittenRequest(i)
  {
  }

  // A request that Matrix does not have, on a row that is not in join, and a decision that
  // can be told from Matrix: the decision is stored exactly when it names no other
  // generation, the row is in a state that can be decided that way, and the save finds it
  // so. What is stored first is the decision itself, in the row's generation or, for a
  // row without, the one named.
  lemma DecisionIsStored(io: Io, approved: bool, param: RequestId)
    requires io.rows(0).Some? && io.rows(0).value.membership != Join && (approved || io.probe(0) == IsOut)
    ensures var seen, log := io.rows(0).value, Decide(io, approved, param);
            (log != [] <==>
              (param == Blank || seen.request == Blank || param == seen.request) &&
              seen.membership in (if approved then {Pending, Approved, Joining, JoinFailed}
                                  else {Pending, Reject, Rejected}) &&
              io.rows(7).Some? && Matches(io.rows(7).value, seen.request, seen.membership) &&
              io.rows(8).Some? && Matches(io.rows(8).value, seen.request, seen.membership)) &&
            (log != [] ==>
              log[0].before == io.rows(8).value &&
              log[0].after.membership == (if approved then Approved else Reject) &&
              log[0].after.request == (if seen.request != Blank then seen.request else param))
  {
    var seen := io.rows(0).value;
    var bound := Bind(seen, param);
    if bound.Some? {
      SwapStores(io, 7, Wants(bound.value, if approved then Approved else Reject, seen, io.now));
      DecidedFirst(io, approved, seen, bound.value, param);
    }
  }

  // A decision whose publication fails goes no further, and so does one that stores
  // nothing; any other is completed with the member as decided.
  lemma StoredDecisionIsCompleted(io: Io, approved: bool, param: RequestId)
    requires io.rows(0).Some? && io.rows(0).value.membership != Join && (approved || io.probe(0) == IsOut)
    ensures var seen, log := io.rows(0).value, Decide(io, approved, param);
            var request := if seen.request != Blank then seen.request else param;
            var decided := seen.(membership := if approved then Approved else Reject, request := request);
            log != [] ==> log[1..] == if io.publishes then Complete(io, approved, decided, param) else []
  {
    var seen, log := io.rows(0).value, Decide(io, approved, param);
    if log != [] {
      DecidedFirst(io, approved, seen, Bind(seen, param).value, param);
    }
  }

  // An approval of a member already in join only completes it, in its generation; a
  // rejection of one that Matrix does not have does nothing.
  lemma JoinedRowsAreOnlyCompleted(io: Io, approved: bool, param: RequestId)
    requires io.rows(0).Some? && io.rows(0).value.membership == Join && (approved || io.probe(0) == IsOut)
    ensures var seen := io.rows(0).value;
            var request := if seen.request != Blank then seen.request else param;
            Decide(io, approved, param) ==
              if approved && (param == Blank || param == request)
              then Complete(io, true, seen.(request := request), param) else []
  {
  }

  // A remote applicant's approval comes as far as its settlement, and that lands.
  predicate SettlementLands(io: Io, m: Row, param: RequestId) {
    io.probe(1) == IsOut && io.remoteUser && io.invite.Invited? && !io.callback.Terminal? && Stable(io, m, 9) &&
    Swap(io, 11, Settlement(io, m.(membership := Joining), param, CallbackOutcome(io, true))).Some?
  }

  // A local applicant without a transport: the second write finds the row as joining.
  predicate ApprovalKept(io: Io, m: Row) {
    var joining := m.(membership := Joining);
    io.probe(1) == IsOut && !io.remoteUser && !io.transport && Stable(io, m, 9) &&
    Expected(io.rows(11), Wants(m, Approved, joining, io.now)) &&
    Expected(io.rows(12), Wants(m, Approved, joining, io.now))
  }

  // What the node of a remote applicant makes of the decision: a decision it was not told
  // stands, an approval it could not be told is under way, and else its answer counts.
  predicate Told(callback: Callback, approved: bool, m: Membership) {
    (callback.NoAddress? || callback == Answer(Unset) ==> m == if approved then Approved else Reject) &&
    (callback.Unreached? ==> m == if approved then Joining else Reject) &&
    (callback == Answer(Joined) ==> m == Join) && (callback == Answer(Rejected) ==> m == Reject) &&
    (callback.Answer? && callback.status !in {Unset, Joined, Rejected} ==> m == callback.status)
  }

  // Completing an approval: a remote member that Matrix has is stored in join, and one
  // that Matrix does not have, remote or not, as joining.
  lemma ApprovalIsCompleted(io: Io, m: Row, param: RequestId)
    ensures var log := Complete(io, true, m, param);
            (log != [] <==> FirstLands(io, m)) && (io.probe(1) != IsOut ==> |log| <= 1) &&
            (log != [] ==> log[0].after.membership == if io.probe(1) == IsIn then Join else Joining)
  {
    SwapStores(io, 9, Wants(m, if io.probe(1) == IsIn then Join else Joining, m, io.now));
  }

  // Then a remote one that could be invited is settled as its node was told,
  lemma RemoteApprovalIsSettled(io: Io, m: Row, param: RequestId)
    requires io.remoteUser
    ensures var log := Complete(io, true, m, param);
            |log| <= 2 && (|log| == 2 <==> SettlementLands(io, m, param)) &&
            (|log| == 2 ==> Told(io.callback, true, log[1].after.membership))
  {
    SwapStores(io, 11, Settlement(io, m.(membership := Joining), param, CallbackOutcome(io, true)));
  }

  // and a local one without a transport as approved.
  lemma LocalApprovalIsKept(io: Io, m: Row, param: RequestId)
    requires !io.remoteUser
    ensures var log := Complete(io, true, m, param);
            |log| <= 2 && (|log| == 2 <==> ApprovalKept(io, m)) && (|log| == 2 ==> log[1].after.membership == Approved)
  {
    SwapStores(io, 11, Wants(m, Approved, m.(membership := Joining), io.now));
  }

  // Completing a rejection: only a remote applicant's node is told.
  lemma RejectionIsCompleted(io: Io, m: Row, param: RequestId)
    requires m.membership == Reject
    ensures var log := Complete(io, false, m, param);
            |log| <= 1 &&
            (|log| == 1 <==>
              io.remoteUser && !io.callback.Terminal? &&
              Expected(io.rows(11), Settlement(io, m, param, Reject)) &&
              Expected(io.rows(12), Settlement(io, m, param, Reject))) &&
            (|log| == 1 ==> Told(io.callback, false, log[0].after.membership))
  {
    SwapStores(io, 11, Settlement(io, m, param, CallbackOutcome(io, false)));
  }

  // ---- What its writes do to the generation ----

  predicate GoesBack(log: seq<Write>) {
    exists k | 0 <= k < |log| :: !Disciplined(log[k].intent)
  }

  // The repaired member is of another generation than the one named, not a later one, and
  // the settlement, which expects the one named, lands.
  predicate SettlesBack(io: Io, param: RequestId) {
    io.rows(0).Some? && param != Blank &&
    var m := RepairFrom(io, io.rows(0).value, 0).member;
    m.Some? && Foreign(m.value, param) && !Advances(param, m.value.request) && SettlementLands(io, m.value, param)
  }

  // A write that does not keep or advance the generation expects the one named while it
  // carries the repaired one.
  lemma UndisciplinedWrites(io: Io, approved: bool, param: RequestId)
    ensures var log := Decide(io, approved, param);
            forall k | 0 <= k < |log| ::
              !Disciplined(log[k].intent) <==>
                Repairs(io, approved) && log[k].intent.request == param && Foreign(log[k].intent.member, param) &&
                !Advances(param, log[k].intent.member.request)
  {
    if io.rows(0).Some? {
      if Repairs(io, approved) {
        RepairPath(io, io.rows(0).value, param);
      } else if Bind(io.rows(0).value, param).Some? {
        CheckedPath(io, approved, io.rows(0).value, param);
      }
    }
  }

  // Completing a member of another generation expects the generation named exactly if its
  // settlement lands.
  lemma CompletionSettles(io: Io, m: Row, param: RequestId)
    requires param != Blank && Foreign(m, param)
    ensures var log := Complete(io, true, m, param);
            (exists k | 0 <= k < |log| :: log[k].intent.request == param) <==> SettlementLands(io, m, param)
  {
    var log := Complete(io, true, m, param);
    if SettlementLands(io, m, param) {
      assert |log| == 2 && log[1].intent.request == param;
    }
  }

  lemma RepairGoesBack(io: Io, param: RequestId)
    requires io.rows(0).Some? && Repairs(io, false)
    ensures GoesBack(Decide(io, false, param)) <==> SettlesBack(io, param)
  {
    var r := RepairFrom(io, io.rows(0).value, 0);
    var log := Decide(io, false, param);
    UndisciplinedWrites(io, false, param);
    RepairPath(io, io.rows(0).value, param);
    RepairExpects(io, io.rows(0).value, 0);
    if r.member.Some? && param != Blank && Foreign(r.member.value, param) {
      var rest := Complete(io, true, r.member.value, param);
      assert log == r.writes + rest;
      CompletionSettles(io, r.member.value, param);
      if SettlementLands(io, r.member.value, param) {
        var k :| 0 <= k < |rest| && rest[k].intent.request == param;
        assert log[|r.writes| + k] == rest[k];
      }
      LaterWritesName(r.writes, rest, r.member.value.request, param);
    }
  }

  // Behind writes that expect another generation, only the rest can expect this one.
  lemma LaterWritesName(first: seq<Write>, rest: seq<Write>, a: RequestId, param: RequestId)
    requires AllExpect(first, a, a) && a != param
    ensures (exists k | 0 <= k < |first + rest| :: (first + rest)[k].intent.request == param) ==>
              exists k | 0 <= k < |rest| :: rest[k].intent.request == param
  {
    if k :| 0 <= k < |first + rest| && (first + rest)[k].intent.request == param {
      assert k >= |first| && (first + rest)[k] == rest[k - |first|];
    }
  }

  // Some write of a decision takes the row's generation back exactly when the decision
  // repairs a member of a generation that is not later than the one it names and the
  // settlement of that lands; in every other decision all writes keep or advance it.
  lemma DecisionsAreDisciplined(io: Io, approved: bool, param: RequestId)
    ensures GoesBack(Decide(io, approved, param)) <==> Repairs(io, approved) && SettlesBack(io, param)
  {
    if io.rows(0).Some? && Repairs(io, approved) {
      RepairGoesBack(io, param);
    } else {
      UndisciplinedWrites(io, approved, param);
    }
  }

  // And it happens: the row seen is at h, a rejection names g derived from h, and by the
  // time of its settlement the row has been restarted under g and is joining again.
  lemma SettlementTakesRowBack(row: Row, g: RequestId, now: int) returns (io: Io)
    requires row.membership == Pending && row.request != Blank && g.JoinGeneration? && g.base == row.request
    ensures var log := Decide(io, false, g);
            Repairs(io, false) && |log| == 3 && log[2].before.request == g && log[2].after.request == row.request &&
            Later(g, row.request)
  {
    LaterIsLonger(g, row.request);
    var joined, moved := row.(membership := Join), row.(membership := Joining, request := g);
    io := Io((n: nat) => Some(if n <= 8 then row else if n <= 10 then joined else moved),
             (n: nat) => if n == 0 then IsIn else IsOut,
             now, true, true, true, Invited, NoAddress, Blank);
    FirstAttempt(io, row);
    assert Stable(io, row, 1) && Stable(io, joined, 9);
    assert SettlementLands(io, joined, g);
  }

  predicate OnlyOwnGeneration(io: Io, member: Row, param: RequestId) {
    param in {Blank, member.request} && (member.request == Blank ==> io.operationRequest == Blank)
  }

  // A settlement touches rows of its own generation only, exactly when the caller names
  // none or that one and the operation lends none to a row without, or when it expects a
  // membership that no row has.
  lemma SettlementStaysInGeneration(io: Io, member: Row, param: RequestId, outcome: Membership)
    ensures (forall row: Row | Expected(Some(row), Settlement(io, member, param, outcome)) ::
               row.request == member.request) <==> member.membership == Joined || OnlyOwnGeneration(io, member, param)
  {
    var row := member.(request := SettledRequest(io, member, param));
    assert member.membership != Joined ==> Expected(Some(row), Settlement(io, member, param, outcome));
  }

  // The exception is real: a rejection that names g turns a row already restarted under a
  // later generation into a joined one.
  lemma RejectionAltersRestartedRow(row: Row, now: int) returns (io: Io)
    requires row.request.JoinGeneration? && row.request.base != Blank && row.membership == Pending
    ensures var log := Decide(io, false, row.request.base);
            Repairs(io, false) && |log| == 1 && log[0].before == row && Later(row.request, row.request.base) &&
            log[0].after.request == row.request && log[0].after.membership == Join
  {
    io := Io((n: nat) => Some(row), (n: nat) => IsIn, now, true, true, true, Invited, NoAddress, Blank);
    assert RepairFrom(io, row, 0).writes != [];
  }
}
