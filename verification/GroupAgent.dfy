// The shared group agent: the revisioned binding of a room, the request queue it
// authorises, and the durable publication of replies into the room.

module GroupAgent {
  import opened Membership
  import Decimal

  datatype RoomId = RoomId(name: string)
  datatype RequestId = RequestId(uuid: string)
  datatype UserId = Nobody | User(local: string, server: string)
  type EventId = nat

  const QUEUE_MAX: nat := 256
  const BODY_MAX: nat := 16000

  datatype Binding = Binding(enabled: bool, owner: UserId, agent: UserId, revision: nat, generation: int)

  datatype Status = Pending | Published | Failed | Cancelled

  // The reply digest of a stored request stands for the reply body.
  datatype Request = Request(
    room: RoomId, event: string, sender: UserId, owner: UserId, agent: UserId, scheduledBody: Option<string>,
    revision: nat, generation: int, status: Status, reply: Option<EventId>, replyBody: Option<string>)

  datatype ReplyStatus = Omitted | Completed | FailedReply | Working | WaitingOwner | Unknown
  datatype Kind = Final | Progress

  // Operation identities and root digests are hashes of what they are built from.
  datatype OpId = FinalOf(id: RequestId) | ProgressOf(id: RequestId, status: ReplyStatus)
  datatype Root = Root(id: RequestId, revision: nat, kind: Kind, status: ReplyStatus, body: string)
  datatype Ledger = Ledger(owner: UserId, generation: int, root: Root)
  datatype Staged = Staged(row: Ledger, event: EventId)
  datatype Message = Message(op: OpId, event: EventId, status: ReplyStatus, body: string)

  datatype State = State(
    bindings: map<RoomId, Binding>,
    requests: map<RequestId, Request>,
    ledger: map<OpId, Ledger>,
    staged: map<OpId, Staged>,
    events: nat,
    matrix: set<Message>)

  const INITIAL := State(map[], map[], map[], map[], 0, {})

  // ---- Bindings ----

  const BLANK := Binding(false, Nobody, Nobody, 0, 0)

  function AgentOf(owner: UserId): UserId {
    if owner.User? then User("ying", owner.server) else Nobody
  }

  function DefaultBinding(owner: UserId): Binding {
    Binding(false, owner, AgentOf(owner), 0, 0)
  }

  // An update by the room's owner; joins says whether the agent could be joined.
  datatype Update = Update(owner: UserId, enabled: bool, expected: Option<nat>, generation: int, joins: bool)

  function Updated(b: Binding, u: Update): Option<Binding> {
    if u.expected.Some? && b.revision != u.expected.value then None
    else if b.owner != Nobody && b.owner != u.owner && b.enabled then None
    else
      var c := if b.revision == 0 then DefaultBinding(u.owner) else b;
      if c.enabled != u.enabled || c.owner != u.owner || c.generation != u.generation then
        if u.enabled && !u.joins then None
        else Some(Binding(u.enabled, u.owner, AgentOf(u.owner), c.revision + 1, u.generation))
      else Some(c)
  }

  function Invalidated(b: Binding): Binding {
    if b.enabled then b.(enabled := false, revision := b.revision + 1) else b
  }

  function BindingOf(s: State, room: RoomId): Binding {
    if room in s.bindings then s.bindings[room] else BLANK
  }

  // Saving a binding cancels the pending requests of its room that it no longer
  // authorises, in the same transaction.
  function Revoked(r: Request, room: RoomId, b: Binding): Request {
    if r.room == room && r.status == Status.Pending &&
      (!b.enabled || r.revision != b.revision || r.generation != b.generation)
    then r.(status := Cancelled) else r
  }

  function SaveBinding(s: State, room: RoomId, b: Binding): State {
    s.(bindings := s.bindings[room := b],
       requests := map id | id in s.requests :: Revoked(s.requests[id], room, b))
  }

  // ---- Requests ----

  predicate Matches(b: Binding, r: Request) {
    b.enabled && b.revision == r.revision && b.owner == r.owner && b.agent == r.agent && b.generation == r.generation
  }

  function PendingIn(s: State, room: RoomId): set<RequestId> {
    set id | id in s.requests && s.requests[id].room == room && s.requests[id].status == Status.Pending
  }

  predicate Known(s: State, id: RequestId, r: Request) {
    id in s.requests ||
    exists other | other in s.requests :: s.requests[other].room == r.room && s.requests[other].event == r.event
  }

  predicate MayEnqueue(s: State, id: RequestId, r: Request) {
    r.room in s.bindings && Matches(s.bindings[r.room], r) && !Known(s, id, r) && |PendingIn(s, r.room)| < QUEUE_MAX &&
    (r.scheduledBody.Some? ==> !Decimal.IsBlank(r.scheduledBody.value))
  }

  function Enqueued(s: State, id: RequestId, r: Request): State {
    if MayEnqueue(s, id, r)
    then s.(requests := s.requests[id := r.(status := Status.Pending, reply := None, replyBody := None)])
    else s
  }

  // An absent filter is not applied.
  datatype Filter = Filter(room: Option<RoomId>, sender: Option<UserId>, event: Option<string>)

  predicate Selects(f: Filter, r: Request) {
    (f.room.Some? ==> r.room == f.room.value) && (f.sender.Some? ==> r.sender == f.sender.value) &&
      (f.event.Some? ==> r.event == f.event.value)
  }

  function CancelSelected(s: State, f: Filter): State {
    s.(requests := map id | id in s.requests ::
       if s.requests[id].status == Status.Pending &&
         Selects(f, s.requests[id]) then s.requests[id].(status := Cancelled) else s.requests[id])
  }

  // ---- Calls of the agent on one request ----

  // The service's own owner and account generation, and the revision the call names.
  datatype Caller = Caller(owner: UserId, generation: int, revision: nat)

  // What the room says of the request now: its members, its binding state event and
  // the message the request points at.
  datatype Room = Allows | Denies | Unreadable

  predicate Authorised(caller: Caller, r: Request) {
    caller.revision == r.revision && r.generation == caller.generation && r.owner == caller.owner
  }

  // The checks on the stored rows, before the room is asked.
  predicate Current(b: Binding, r: Request, caller: Caller) {
    b.enabled && b.revision == caller.revision && r.revision == caller.revision && b.owner == caller.owner &&
      r.owner == b.owner &&
    b.generation == caller.generation && r.generation == caller.generation && r.agent == b.agent &&
      r.status == Status.Pending
  }

  function WithRequest(s: State, id: RequestId, r: Request): State {
    s.(requests := s.requests[id := r])
  }

  // A request that is no longer valid is cancelled if it was pending.
  function Dropped(s: State, id: RequestId): State
    requires id in s.requests
  {
    if s.requests[id].status == Status.Pending then WithRequest(s, id, s.requests[id].(status := Cancelled)) else s
  }

  datatype Answer = Refused | Unavailable | WasCancelled | Stopped | Done(event: EventId) | Completion(status: Status)

  datatype Reply = Reply(kind: Kind, status: ReplyStatus, body: string)

  function Effective(p: Reply): Reply {
    if p.kind == Final && p.status == Omitted then p.(status := Completed) else p
  }

  predicate WellFormed(p: Reply) {
    !Decimal.IsBlank(p.body) && |p.body| <= BODY_MAX &&
    match p.kind
    case Final => p.status == Omitted || p.status == Completed || p.status == FailedReply
    case Progress => p.status == Working || p.status == WaitingOwner
  }

  function OpFor(id: RequestId, p: Reply): OpId {
    if p.kind == Final then FinalOf(id) else ProgressOf(id, p.status)
  }

  function RowFor(id: RequestId, r: Request, p: Reply): Ledger {
    Ledger(r.owner, r.generation, Root(id, r.revision, p.kind, p.status, p.body))
  }

  // How far a publication gets before it fails or the process dies.
  datatype Reach = AfterLedger | AfterStaging | AfterSend | AfterCommit

  function Admit(s: State, op: OpId, row: Ledger): State {
    if op in s.ledger then s else s.(ledger := s.ledger[op := row])
  }

  // The event is prepared once per operation and never rebuilt.
  function Stage(s: State, op: OpId, row: Ledger): State {
    if op in s.staged then s else s.(staged := s.staged[op := Staged(row, s.events)], events := s.events + 1)
  }

  function Send(s: State, op: OpId): State
    requires op in s.staged
  {
    s.(matrix := s.matrix + {SentAs(s, op)})
  }

  // The staged event carries the status and body it was prepared with.
  function SentAs(s: State, op: OpId): Message
    requires op in s.staged
  {
    var row := s.staged[op].row;
    Message(op, s.staged[op].event, row.root.status, row.root.body)
  }

  function Commit(s: State, id: RequestId, op: OpId, p: Reply): State
    requires id in s.requests && op in s.staged
  {
    if p.kind == Final
    then WithRequest(s, id, s.requests[id].(status := Published, reply := Some(s.staged[op].event),
      replyBody := Some(p.body)))
    else s
  }

  function Deliver(s: State, id: RequestId, p: Reply, reach: Reach): (State, Answer)
    requires id in s.requests
  {
    var op, row := OpFor(id, p), RowFor(id, s.requests[id], p);
    if op in s.ledger && s.ledger[op] != row then (s, Refused)
    else
      var a := Admit(s, op, row);
      if reach.AfterLedger? || s.requests[id].generation <= 0 ||
        (op in a.staged && a.staged[op].row != row) then (a, Stopped)
      else
        var b := Stage(a, op, row);
        if reach.AfterStaging? then (b, Stopped)
        else
          var c := Send(b, op);
          if reach.AfterSend? then (c, Stopped)
          else (Commit(c, id, op, p), Done(c.staged[op].event))
  }

  function Publish(s: State, id: RequestId, caller: Caller, p: Reply, room: Room, reach: Reach): (State, Answer) {
    if id !in s.requests || s.requests[id].room !in s.bindings then (s, Refused)
    else
      var r, b := s.requests[id], s.bindings[s.requests[id].room];
      if !Authorised(caller, r) then (s, Refused)
      else if r.status == Published then
        if p.kind == Progress then (s, WasCancelled)
        else if r.replyBody != Some(p.body) || r.reply.None? then (s, Refused)
        else (s, Done(r.reply.value))
      else if Current(b, r, caller) && room.Unreadable? then (s, Unavailable)
      else if !Current(b, r, caller) || room.Denies? then (Dropped(s, id), WasCancelled)
      else if !WellFormed(p) then (s, Refused)
      else Deliver(s, id, Effective(p), reach)
  }

  function Complete(s: State, id: RequestId, caller: Caller, status: Status, room: Room): (State, Answer) {
    if id !in s.requests || s.requests[id].room !in s.bindings then (s, Refused)
    else
      var r, b := s.requests[id], s.bindings[s.requests[id].room];
      if !Authorised(caller, r) then (s, Refused)
      else if Current(b, r, caller) && room.Unreadable? then (s, Unavailable)
      else if !Current(b, r, caller) || room.Denies? then (Dropped(s, id), WasCancelled)
      else if status != Failed && status != Cancelled then (s, Refused)
      else (WithRequest(s, id, r.(status := status)), Completion(status))
  }

  // ---- Runs ----

  datatype Step =
    | UpdateBinding(room: RoomId, u: Update)
    | InvalidateBinding(room: RoomId)
    | Enqueue(id: RequestId, r: Request)
    | CancelWhere(f: Filter)
    | PublishReply(id: RequestId, caller: Caller, p: Reply, answer: Room, reach: Reach)
    | CompleteRequest(id: RequestId, caller: Caller, status: Status, answer: Room)

  function Next(s: State, step: Step): State {
    match step
    case UpdateBinding(room, u) =>
      var b := Updated(BindingOf(s, room), u);
      if b.Some? then SaveBinding(s, room, b.value) else s
    case InvalidateBinding(room) => SaveBinding(s, room, Invalidated(BindingOf(s, room)))
    case Enqueue(id, r) => Enqueued(s, id, r)
    case CancelWhere(f) => CancelSelected(s, f)
    case PublishReply(id, caller, p, answer, reach) => Publish(s, id, caller, p, answer, reach).0
    case CompleteRequest(id, caller, status, answer) => Complete(s, id, caller, status, answer).0
  }

  predicate IsRun(ss: seq<State>, steps: seq<Step>) {
    |ss| == |steps| + 1 && ss[0] == INITIAL &&
    forall k | 0 <= k < |steps| :: ss[k + 1] == Next(ss[k], steps[k])
  }

  // ---- Binding revisions ----

  predicate Authorises(b: Binding, c: Binding) {
    b.enabled == c.enabled && b.owner == c.owner && b.agent == c.agent && b.generation == c.generation
  }

  // The update asks for something the row does not have; a row at revision zero counts as
  // the caller's own, disabled and without a generation.
  predicate Changes(b: Binding, u: Update) {
    if b.revision == 0 then u.enabled || u.generation != 0
    else b.enabled != u.enabled || b.owner != u.owner || b.generation != u.generation
  }

  // An update is taken exactly when the row is at the revision it names, if it names one,
  // no other owner has the binding enabled, and a change that enables it finds the agent
  // joined.
  predicate MayUpdate(b: Binding, u: Update) {
    (u.expected.Some? ==> b.revision == u.expected.value) && (b.enabled ==> b.owner in {u.owner, Nobody}) &&
    (u.enabled && Changes(b, u) ==> u.joins)
  }

  lemma UpdateLandsExactly(b: Binding, u: Update)
    ensures Updated(b, u).Some? <==> MayUpdate(b, u)
  {
  }

  // A successful update gives the room the owner, state and generation asked for. It
  // raises the revision by one exactly when something differs from the row it starts
  // from, which for revision zero is the blank default of the caller.
  lemma UpdateIsExact(b: Binding, u: Update)
    requires Updated(b, u).Some? && b.agent == AgentOf(b.owner)
    ensures var n := Updated(b, u).value; var base := if b.revision == 0 then DefaultBinding(u.owner) else b;
            n.enabled == u.enabled && n.owner == u.owner && n.agent == AgentOf(u.owner) &&
              n.generation == u.generation &&
            n.revision == b.revision + (if Authorises(base, n) then 0 else 1)
    // A changed row keeps its revision exactly when it had none, is left disabled and
    // the account has no generation.
    ensures var n := Updated(b, u).value;
            !Authorises(b, n) && n.revision == b.revision <==>
              b.revision == 0 && !u.enabled && u.generation == 0 && !Authorises(b, DefaultBinding(u.owner))
  {
  }

  // The family of changes without a new revision is not empty: a first disabled
  // update of a server without an account generation names the owner at revision zero.
  lemma OwnerCanChangeAtRevisionZero(owner: UserId)
    requires owner.User?
    ensures var u := Update(owner, false, None, 0, true);
            Updated(BLANK, u) == Some(DefaultBinding(owner)) && !Authorises(BLANK, DefaultBinding(owner)) &&
              DefaultBinding(owner).revision == BLANK.revision
  {
  }

  // Disabling a binding that was enabled takes a new revision, and nothing else changes.
  lemma InvalidationDisables(b: Binding)
    ensures var n := Invalidated(b);
            !n.enabled && n.revision == b.revision + (if b.enabled then 1 else 0) && n.owner == b.owner &&
            n.agent == b.agent && n.generation == b.generation
  {
  }

  // ---- Invariants of the publication records ----

  predicate Fits(op: OpId, root: Root) {
    op == OpFor(root.id, Reply(root.kind, root.status, root.body))
  }

  predicate DistinctEvents(staged: map<OpId, Staged>) {
    forall op, other | op in staged && other in staged && staged[op].event == staged[other].event :: op == other
  }

  predicate LedgerInv(s: State) {
    (forall op | op in s.ledger :: Fits(op, s.ledger[op].root)) &&
    (forall op | op in s.staged :: op in s.ledger && s.staged[op].row == s.ledger[op] &&
      s.staged[op].event < s.events) &&
    DistinctEvents(s.staged) &&
    (forall m | m in s.matrix :: m.op in s.staged && m == SentAs(s, m.op))
  }

  predicate ReplyInv(s: State, id: RequestId)
    requires id in s.requests
  {
    var r := s.requests[id];
    if r.status == Published then
      FinalOf(id) in s.staged && SentAs(s, FinalOf(id)) in s.matrix &&
      r.reply == Some(s.staged[FinalOf(id)].event) && r.replyBody == Some(s.staged[FinalOf(id)].row.root.body)
    else r.reply == None && r.replyBody == None
  }

  predicate BindingInv(b: Binding) {
    (b.enabled ==> b.revision >= 1) && b.agent == AgentOf(b.owner)
  }

  // A pending request is one that its room's binding authorises.
  predicate QueueInv(s: State, id: RequestId)
    requires id in s.requests
  {
    var r := s.requests[id];
    r.status == Status.Pending ==> r.room in s.bindings && Matches(s.bindings[r.room], r)
  }

  predicate Inv(s: State) {
    LedgerInv(s) &&
    (forall room | room in s.bindings :: BindingInv(s.bindings[room])) &&
    (forall id | id in s.requests :: ReplyInv(s, id) && QueueInv(s, id))
  }

  lemma SaveKeepsInv(s: State, room: RoomId, b: Binding)
    requires Inv(s) && BindingInv(b)
    requires b.enabled && b.revision == BindingOf(s, room).revision ==> b == BindingOf(s, room)
    ensures Inv(SaveBinding(s, room, b))
  {
    var n := SaveBinding(s, room, b);
    forall id | id in n.requests ensures ReplyInv(n, id) && QueueInv(n, id) {
      assert ReplyInv(s, id) && QueueInv(s, id);
    }
  }

  lemma CallKeepsInv(s: State, id: RequestId, r: Request)
    requires Inv(s) && id in s.requests && s.requests[id].status == Status.Pending
    requires r == s.requests[id].(status := r.status) && r.status != Published
    ensures Inv(WithRequest(s, id, r))
  {
    var n := WithRequest(s, id, r);
    forall other | other in n.requests ensures ReplyInv(n, other) && QueueInv(n, other) {
      assert ReplyInv(s, other) && QueueInv(s, other);
    }
  }

  lemma AdmitKeepsInv(s: State, op: OpId, row: Ledger)
    requires Inv(s) && Fits(op, row.root)
    ensures Inv(Admit(s, op, row))
  {
    var a := Admit(s, op, row);
    AdmitKeepsLedger(s, op, row);
    forall id | id in a.requests ensures ReplyInv(a, id) && QueueInv(a, id) {
      assert ReplyInv(s, id) && QueueInv(s, id);
    }
  }

  lemma StageKeepsLedger(s: State, op: OpId, row: Ledger)
    requires LedgerInv(s) && op in s.ledger && s.ledger[op] == row
    ensures LedgerInv(Stage(s, op, row)) && Stage(s, op, row).staged[op].row == row
  {
    var b := Stage(s, op, row);
    forall m | m in b.matrix ensures m.op in b.staged && m == SentAs(b, m.op) {
      assert m == SentAs(s, m.op);
    }
    if op !in s.staged { FreshEventIsDistinct(s.staged, op, Staged(row, s.events)); }
  }

  lemma FreshEventIsDistinct(staged: map<OpId, Staged>, op: OpId, e: Staged)
    requires DistinctEvents(staged) && op !in staged && forall x | x in staged :: staged[x].event < e.event
    ensures DistinctEvents(staged[op := e])
  {
  }

  lemma AdmitKeepsLedger(s: State, op: OpId, row: Ledger)
    requires LedgerInv(s) && Fits(op, row.root)
    ensures LedgerInv(Admit(s, op, row))
  {
    var b := Admit(s, op, row);
    forall m | m in b.matrix ensures m.op in b.staged && m == SentAs(b, m.op) {
      assert m == SentAs(s, m.op);
    }
  }

  lemma StageKeepsInv(s: State, op: OpId, row: Ledger)
    requires Inv(s) && op in s.ledger && s.ledger[op] == row
    ensures Inv(Stage(s, op, row)) && Stage(s, op, row).staged[op].row == row
  {
    var b := Stage(s, op, row);
    StageKeepsLedger(s, op, row);
    forall id | id in b.requests ensures ReplyInv(b, id) && QueueInv(b, id) {
      assert ReplyInv(s, id) && QueueInv(s, id);
    }
  }

  lemma SendKeepsInv(s: State, op: OpId)
    requires Inv(s) && op in s.staged
    ensures Inv(Send(s, op)) && SentAs(s, op) in Send(s, op).matrix
  {
    var c := Send(s, op);
    assert LedgerInv(c);
    forall id | id in c.requests ensures ReplyInv(c, id) && QueueInv(c, id) {
      assert ReplyInv(s, id) && QueueInv(s, id);
    }
  }

  lemma CommitKeepsInv(s: State, id: RequestId, op: OpId, p: Reply)
    requires Inv(s) && id in s.requests && op == OpFor(id, p)
    requires op in s.staged && s.staged[op].row.root.body == p.body && SentAs(s, op) in s.matrix
    ensures Inv(Commit(s, id, op, p))
  {
    var d := Commit(s, id, op, p);
    forall other | other in d.requests ensures ReplyInv(d, other) && QueueInv(d, other) {
      assert ReplyInv(s, other) && QueueInv(s, other);
    }
  }

  lemma StagedKeepsInv(s: State, op: OpId, row: Ledger)
    requires Inv(s) && Fits(op, row.root) && (op in s.ledger ==> s.ledger[op] == row)
    ensures Inv(Stage(Admit(s, op, row), op, row)) && Stage(Admit(s, op, row), op, row).staged[op].row == row
  {
    AdmitKeepsInv(s, op, row);
    StageKeepsInv(Admit(s, op, row), op, row);
  }

  lemma SentKeepsInv(s: State, op: OpId, row: Ledger)
    requires Inv(s) && Fits(op, row.root) && (op in s.ledger ==> s.ledger[op] == row)
    ensures var b := Stage(Admit(s, op, row), op, row);
            op in b.staged && b.staged[op].row == row && Inv(Send(b, op)) && SentAs(b, op) in Send(b, op).matrix
  {
    StagedKeepsInv(s, op, row);
    SendKeepsInv(Stage(Admit(s, op, row), op, row), op);
  }

  lemma DeliverKeepsInv(s: State, id: RequestId, p: Reply, reach: Reach)
    requires Inv(s) && id in s.requests
    ensures Inv(Deliver(s, id, p, reach).0)
  {
    var op, row := OpFor(id, p), RowFor(id, s.requests[id], p);
    if op !in s.ledger || s.ledger[op] == row {
      var after := Deliver(s, id, p, reach);
      if after.1.Done? {
        SentKeepsInv(s, op, row);
        CommitKeepsInv(Send(Stage(Admit(s, op, row), op, row), op), id, op, p);
      } else if after.0 == Admit(s, op, row) {
        AdmitKeepsInv(s, op, row);
      } else if reach.AfterStaging? {
        StagedKeepsInv(s, op, row);
      } else {
        SentKeepsInv(s, op, row);
      }
    }
  }

  lemma EnqueueKeepsInv(s: State, id: RequestId, r: Request)
    requires Inv(s)
    ensures Inv(Enqueued(s, id, r))
  {
    var n := Enqueued(s, id, r);
    forall other | other in n.requests ensures ReplyInv(n, other) && QueueInv(n, other) {
      if other in s.requests { assert ReplyInv(s, other) && QueueInv(s, other); }
    }
  }

  lemma CancelKeepsInv(s: State, f: Filter)
    requires Inv(s)
    ensures Inv(CancelSelected(s, f))
  {
    var n := CancelSelected(s, f);
    forall id | id in n.requests ensures ReplyInv(n, id) && QueueInv(n, id) {
      assert ReplyInv(s, id) && QueueInv(s, id);
    }
  }

  lemma PublishKeepsInv(s: State, id: RequestId, caller: Caller, p: Reply, answer: Room, reach: Reach)
    requires Inv(s)
    ensures Inv(Publish(s, id, caller, p, answer, reach).0)
  {
    if id in s.requests {
      if Publish(s, id, caller, p, answer, reach) == Deliver(s, id, Effective(p), reach) {
        DeliverKeepsInv(s, id, Effective(p), reach);
      } else if s.requests[id].status == Status.Pending {
        CallKeepsInv(s, id, s.requests[id].(status := Cancelled));
      }
    }
  }

  lemma CompleteKeepsInv(s: State, id: RequestId, caller: Caller, status: Status, answer: Room)
    requires Inv(s)
    ensures Inv(Complete(s, id, caller, status, answer).0)
  {
    if id in s.requests && s.requests[id].status == Status.Pending {
      CallKeepsInv(s, id, s.requests[id].(status := Cancelled));
      if status != Published { CallKeepsInv(s, id, s.requests[id].(status := status)); }
    }
  }

  lemma StepKeepsInv(s: State, step: Step)
    requires Inv(s)
    ensures Inv(Next(s, step))
  {
    match step
    case UpdateBinding(room, u) =>
      var b := Updated(BindingOf(s, room), u);
      if b.Some? { SaveKeepsInv(s, room, b.value); }
    case InvalidateBinding(room) => SaveKeepsInv(s, room, Invalidated(BindingOf(s, room)));
    case Enqueue(id, r) => EnqueueKeepsInv(s, id, r);
    case CancelWhere(f) => CancelKeepsInv(s, f);
    case PublishReply(id, caller, p, answer, reach) => PublishKeepsInv(s, id, caller, p, answer, reach);
    case CompleteRequest(id, caller, status, answer) => CompleteKeepsInv(s, id, caller, status, answer);
  }

  lemma {:induction false} RunKeepsInv(ss: seq<State>, steps: seq<Step>, k: nat)
    requires IsRun(ss, steps) && k < |ss|
    ensures Inv(ss[k])
  {
    if k > 0 {
      RunKeepsInv(ss, steps, k - 1);
      StepKeepsInv(ss[k - 1], steps[k - 1]);
    }
  }

  // ---- Whole runs ----

  lemma {:induction false} RevisionsNeverFall(ss: seq<State>, steps: seq<Step>, room: RoomId, j: nat, k: nat)
    requires IsRun(ss, steps) && j <= k < |ss| && room in ss[j].bindings
    ensures room in ss[k].bindings && ss[j].bindings[room].revision <= ss[k].bindings[room].revision
    decreases k
  {
    if j < k {
      RevisionsNeverFall(ss, steps, room, j, k - 1);
      BindingsStep(ss[k - 1], steps[k - 1], room);
    }
  }

  lemma BindingsStep(s: State, step: Step, room: RoomId)
    requires room in s.bindings
    ensures room in Next(s, step).bindings && s.bindings[room].revision <= Next(s, step).bindings[room].revision
  {
    if step.PublishReply? {
      PublishIsLocal(s, step.id, step.caller, step.p, step.answer, step.reach);
    }
  }

  // Of the updates that name one revision, once one has moved the row's revision none
  // lands any more.
  lemma StaleUpdateNeverLands(ss: seq<State>, steps: seq<Step>, room: RoomId, u: Update, v: Update, i: nat, j: nat)
    requires IsRun(ss, steps) && i < j < |steps| && u.expected.Some? && v.expected == u.expected
    requires steps[i] == UpdateBinding(room, u) && steps[j] == UpdateBinding(room, v)
    requires BindingOf(ss[i + 1], room).revision != BindingOf(ss[i], room).revision
    ensures ss[j + 1] == ss[j]
  {
    assert ss[i + 1] == Next(ss[i], steps[i]);
    UpdateLandsExactly(BindingOf(ss[i], room), u);
    RevisionsNeverFall(ss, steps, room, i + 1, j);
    assert ss[j + 1] == Next(ss[j], steps[j]);
    UpdateLandsExactly(BindingOf(ss[j], room), v);
  }

  // An enabled binding is left alone by everybody's updates but its owner's: from one
  // state to any later one it stays as it is unless its owner updated it or it was
  // invalidated.
  lemma {:induction false} OnlyItsOwnerUpdates(ss: seq<State>, steps: seq<Step>, room: RoomId, i: nat, j: nat)
    requires IsRun(ss, steps) && i <= j < |ss| && room in ss[i].bindings
    requires ss[i].bindings[room].enabled && ss[i].bindings[room].owner != Nobody
    requires forall k | i <= k < j ::
               !(steps[k].UpdateBinding? && steps[k].room == room && steps[k].u.owner == ss[i].bindings[room].owner) &&
               steps[k] != InvalidateBinding(room)
    ensures room in ss[j].bindings && ss[j].bindings[room] == ss[i].bindings[room]
    decreases j
  {
    if i < j {
      OnlyItsOwnerUpdates(ss, steps, room, i, j - 1);
      OthersLeaveBinding(ss[j - 1], steps[j - 1], room);
    }
  }

  lemma OthersLeaveBinding(s: State, step: Step, room: RoomId)
    requires room in s.bindings && s.bindings[room].enabled && s.bindings[room].owner != Nobody
    requires !(step.UpdateBinding? && step.room == room && step.u.owner == s.bindings[room].owner)
    requires step != InvalidateBinding(room)
    ensures room in Next(s, step).bindings && Next(s, step).bindings[room] == s.bindings[room]
  {
    if step.PublishReply? {
      PublishIsLocal(s, step.id, step.caller, step.p, step.answer, step.reach);
    }
  }

  // Between the two states bindings and known requests are the same, and the ledger has at
  // most the row of this reply more.
  predicate IsLocal(s: State, n: State, id: RequestId, p: Reply) {
    n.bindings == s.bindings && n.requests.Keys == s.requests.Keys &&
    (n.ledger == s.ledger ||
     (id in s.requests && n.ledger == s.ledger[OpFor(id, p) := RowFor(id, s.requests[id], p)]))
  }

  lemma DeliverIsLocal(s: State, id: RequestId, p: Reply, reach: Reach)
    requires id in s.requests
    ensures IsLocal(s, Deliver(s, id, p, reach).0, id, p)
  {
    var op, row := OpFor(id, p), RowFor(id, s.requests[id], p);
    var a := Admit(s, op, row);
    assert IsLocal(s, a, id, p);
    var b := Stage(a, op, row);
    assert IsLocal(s, b, id, p);
    var c := Send(b, op);
    assert IsLocal(s, c, id, p) && c.requests == s.requests;
    assert Commit(c, id, op, p).requests.Keys == s.requests.Keys;
  }

  lemma PublishIsLocal(s: State, id: RequestId, caller: Caller, p: Reply, answer: Room, reach: Reach)
    ensures IsLocal(s, Publish(s, id, caller, p, answer, reach).0, id, Effective(p))
  {
    if id in s.requests {
      DeliverIsLocal(s, id, Effective(p), reach);
      assert IsLocal(s, Dropped(s, id), id, Effective(p));
    }
  }

  predicate MessagesKept(s: State, n: State, id: RequestId) {
    forall m | m in n.matrix && m.op.id == id :: m in s.matrix
  }

  predicate SameBut(r: Request, n: Request) {
    n.(status := r.status, reply := r.reply, replyBody := r.replyBody) == r
  }

  // What one step does to a stored request: nothing, or it ends a pending one; and it
  // is published, or given a new room message, only while its binding authorises it.
  predicate Moves(s: State, n: State, id: RequestId)
    requires id in s.requests
  {
    var r := s.requests[id];
    var authorised := r.room in s.bindings && Matches(s.bindings[r.room], r);
    id in n.requests &&
    (n.requests[id] == r || (r.status == Status.Pending && n.requests[id].status != Status.Pending &&
      SameBut(r, n.requests[id]))) &&
    (n.requests[id].status == Published && r.status != Published ==> authorised) &&
    (MessagesKept(s, n, id) || authorised)
  }

  lemma DeliverEffect(s: State, id: RequestId, p: Reply, reach: Reach, other: RequestId)
    requires id in s.requests && other in s.requests
    ensures var n := Deliver(s, id, p, reach).0;
            other in n.requests &&
            (other != id ==> n.requests[other] == s.requests[other] && MessagesKept(s, n, other)) &&
            (n.requests[id] == s.requests[id] ||
             (n.requests[id].status == Published && SameBut(s.requests[id], n.requests[id])))
  {
    var op, row := OpFor(id, p), RowFor(id, s.requests[id], p);
    var a := Admit(s, op, row);
    assert a.requests == s.requests && a.matrix == s.matrix;
    var b := Stage(a, op, row);
    assert b.requests == s.requests && b.matrix == s.matrix;
    var c := Send(b, op);
    assert c.requests == s.requests && c.matrix == s.matrix + {SentAs(b, op)} && op.id == id;
    assert other != id ==> MessagesKept(s, c, other);
  }

  lemma PublishMoves(s: State, id: RequestId, caller: Caller, p: Reply, answer: Room, reach: Reach, other: RequestId)
    requires other in s.requests
    ensures Moves(s, Publish(s, id, caller, p, answer, reach).0, other)
  {
    if id in s.requests && Publish(s, id, caller, p, answer, reach) == Deliver(s, id, Effective(p), reach) {
      DeliverEffect(s, id, Effective(p), reach, other);
      assert MessagesKept(s, Deliver(s, id, Effective(p), reach).0, other) || other == id;
    }
  }

  lemma StepMoves(s: State, step: Step, id: RequestId)
    requires id in s.requests
    ensures Moves(s, Next(s, step), id)
  {
    match step
    case UpdateBinding(room, u) =>
    case InvalidateBinding(room) =>
    case Enqueue(_, r) =>
    case CancelWhere(f) =>
    case PublishReply(target, caller, p, answer, reach) => PublishMoves(s, target, caller, p, answer, reach, id);
    case CompleteRequest(target, caller, status, answer) =>
  }

  lemma QueueStep(s: State, step: Step, room: RoomId)
    requires |PendingIn(s, room)| <= QUEUE_MAX
    ensures |PendingIn(Next(s, step), room)| <= QUEUE_MAX
  {
    var n := Next(s, step);
    if step.Enqueue? {
      assert PendingIn(n, room) <= PendingIn(s, room) + {step.id};
      if room != step.r.room || n == s {
        assert PendingIn(n, room) <= PendingIn(s, room);
        SmallerSet(PendingIn(n, room), PendingIn(s, room));
      } else {
        SmallerSet(PendingIn(n, room), PendingIn(s, room) + {step.id});
      }
    } else {
      if step.PublishReply? { PublishIsLocal(s, step.id, step.caller, step.p, step.answer, step.reach); }
      forall id | id in PendingIn(n, room) ensures id in PendingIn(s, room) {
        StepMoves(s, step, id);
      }
      SmallerSet(PendingIn(n, room), PendingIn(s, room));
    }
  }

  lemma SmallerSet(a: set<RequestId>, b: set<RequestId>)
    requires a <= b
    ensures |a| <= |b|
  {
    assert b == a + (b - a);
  }

  // In every state a room has at most the allowed number of pending requests, and
  // each of them is authorised by the binding the room has now.
  lemma {:induction false} PendingRequestsAreAuthorised(ss: seq<State>, steps: seq<Step>, k: nat, room: RoomId)
    requires IsRun(ss, steps) && k < |ss|
    ensures |PendingIn(ss[k], room)| <= QUEUE_MAX
    ensures forall id | id in PendingIn(ss[k], room) ::
              room in ss[k].bindings && Matches(ss[k].bindings[room], ss[k].requests[id])
  {
    RunKeepsInv(ss, steps, k);
    if k == 0 {
      assert PendingIn(ss[0], room) == {};
    } else {
      PendingRequestsAreAuthorised(ss, steps, k - 1, room);
      QueueStep(ss[k - 1], steps[k - 1], room);
    }
    forall id | id in PendingIn(ss[k], room) ensures room in ss[k].bindings &&
      Matches(ss[k].bindings[room], ss[k].requests[id]) {
      assert QueueInv(ss[k], id);
    }
  }

  // ---- What the steps do to the queue ----

  // A request is queued exactly if its room's binding is enabled at the revision, owner,
  // agent and generation it names, neither its id nor its event is known, the queue has
  // room, and a scheduled one has a text; it is then pending without a reply.
  lemma EnqueueLandsExactly(s: State, id: RequestId, r: Request)
    ensures var n := Next(s, Enqueue(id, r));
            var b := BindingOf(s, r.room);
            var lands :=
              r.room in s.bindings && b.enabled && b.revision == r.revision && b.owner == r.owner &&
              b.agent == r.agent && b.generation == r.generation && id !in s.requests &&
              (forall other | other in s.requests :: s.requests[other].room == r.room ==>
                s.requests[other].event != r.event) &&
              |PendingIn(s, r.room)| < QUEUE_MAX && (r.scheduledBody.Some? ==> !Decimal.IsBlank(r.scheduledBody.value));
            (n == s <==> !lands) &&
            (lands ==>
              n == s.(requests := s.requests[id := r.(status := Status.Pending, reply := None, replyBody := None)]))
  {
    var n := Next(s, Enqueue(id, r));
    assert id !in s.requests && MayEnqueue(s, id, r) ==> id in n.requests;
  }

  // Saving a binding cancels exactly the pending requests of its room that it does not
  // authorise any more, and touches nothing else of any request.
  lemma BindingChangeCancelsExactly(ss: seq<State>, steps: seq<Step>, k: nat, id: RequestId)
    requires IsRun(ss, steps) && k < |steps| && id in ss[k].requests
    requires steps[k].UpdateBinding? || steps[k].InvalidateBinding?
    ensures var r, room := ss[k].requests[id], steps[k].room;
            id in ss[k + 1].requests &&
            ss[k + 1].requests[id] ==
              if r.room == room && r.status == Status.Pending && !Matches(BindingOf(ss[k + 1], room), r)
              then r.(status := Cancelled) else r
  {
    RunKeepsInv(ss, steps, k);
    RunKeepsInv(ss, steps, k + 1);
    assert ss[k + 1] == Next(ss[k], steps[k]);
    StepMoves(ss[k], steps[k], id);
    assert QueueInv(ss[k], id) && QueueInv(ss[k + 1], id);
  }

  // A cancellation ends exactly the pending requests that every filter given selects.
  lemma CancelsExactly(s: State, f: Filter, id: RequestId)
    requires id in s.requests
    ensures var r, n := s.requests[id], Next(s, CancelWhere(f));
            id in n.requests &&
            n.requests[id] ==
              if r.status == Status.Pending && (f.room.None? || f.room.value == r.room) &&
                (f.sender.None? || f.sender.value == r.sender) && (f.event.None? || f.event.value == r.event)
              then r.(status := Cancelled) else r
  {
  }

  // Reporting the end of a request that its binding and its room still authorise stores
  // the end reported, failed or cancelled; one that they do not is cancelled.
  lemma CompletionIsStored(s: State, id: RequestId, caller: Caller, status: Status, answer: Room)
    requires id in s.requests && s.requests[id].room in s.bindings && s.requests[id].status == Status.Pending
    requires Authorised(caller, s.requests[id])
    ensures var (n, out) := Complete(s, id, caller, status, answer);
            var valid := Current(s.bindings[s.requests[id].room], s.requests[id], caller);
            n == s.(requests := n.requests) && n.requests == s.requests[id := n.requests[id]] &&
            (if !valid || answer.Denies? then
               out.WasCancelled? && n.requests[id] == s.requests[id].(status := Cancelled)
             else if answer.Allows? && status in {Failed, Cancelled} then
               out == Completion(status) && n.requests[id] == s.requests[id].(status := status)
             else n.requests[id] == s.requests[id] && out == if answer.Unreadable? then Unavailable else Refused)
  {
  }

  // A published, failed or cancelled request never changes again: its reply event and
  // digest are set once.
  lemma {:induction false} OutcomesAreFinal(ss: seq<State>, steps: seq<Step>, id: RequestId, j: nat, k: nat)
    requires IsRun(ss, steps) && j <= k < |ss| && id in ss[j].requests
    ensures id in ss[k].requests && SameBut(ss[j].requests[id], ss[k].requests[id])
    ensures ss[j].requests[id].status != Status.Pending ==> ss[k].requests[id] == ss[j].requests[id]
    decreases k
  {
    if j < k {
      OutcomesAreFinal(ss, steps, id, j, k - 1);
      StepMoves(ss[k - 1], steps[k - 1], id);
    }
  }

  // Between two states a request was not published and its room got no message for it.
  predicate Fenced(s: State, n: State, id: RequestId) {
    id in s.requests && id in n.requests &&
    (n.requests[id].status == Published ==> s.requests[id].status == Published) &&
    MessagesKept(s, n, id)
  }

  lemma FencedStep(s: State, step: Step, id: RequestId)
    requires id in s.requests && s.requests[id].room in s.bindings
    requires s.requests[id].revision < s.bindings[s.requests[id].room].revision
    ensures Fenced(s, Next(s, step), id)
  {
    StepMoves(s, step, id);
  }

  lemma FencedTwice(a: State, b: State, c: State, id: RequestId)
    requires Fenced(a, b, id) && Fenced(b, c, id)
    ensures Fenced(a, c, id)
  {
  }

  lemma FencedAt(ss: seq<State>, steps: seq<Step>, id: RequestId, j: nat, k: nat)
    requires IsRun(ss, steps) && j <= k < |steps| && id in ss[j].requests
    requires var r := ss[j].requests[id]; r.room in ss[j].bindings && r.revision < ss[j].bindings[r.room].revision
    ensures Fenced(ss[k], ss[k + 1], id)
  {
    OutcomesAreFinal(ss, steps, id, j, k);
    RevisionsNeverFall(ss, steps, ss[j].requests[id].room, j, k);
    FencedStep(ss[k], steps[k], id);
  }

  lemma {:induction false} FencedAlong(ss: seq<State>, id: RequestId, j: nat, k: nat)
    requires j <= k < |ss| && id in ss[j].requests && forall m | j <= m < k :: Fenced(ss[m], ss[m + 1], id)
    ensures Fenced(ss[j], ss[k], id)
    decreases k
  {
    if j < k {
      FencedAlong(ss, id, j, k - 1);
      FencedTwice(ss[j], ss[k - 1], ss[k], id);
    }
  }

  // The revision fence: once a room's binding is past the revision of a request that
  // was not published, the request is never published and the room never gets another
  // message for it.
  lemma OldRevisionsNeverPublish(ss: seq<State>, steps: seq<Step>, id: RequestId, j: nat, k: nat)
    requires IsRun(ss, steps) && j <= k < |ss| && id in ss[j].requests
    requires var r := ss[j].requests[id]; r.room in ss[j].bindings && r.revision < ss[j].bindings[r.room].revision
    ensures Fenced(ss[j], ss[k], id)
  {
    forall m | j <= m < k ensures Fenced(ss[m], ss[m + 1], id) {
      FencedAt(ss, steps, id, j, m);
    }
    FencedAlong(ss, id, j, k);
  }

  // Across every crash and retry the room holds at most one message per operation, so
  // at most one final reply per request; different operations have different events;
  // and a published request points at its own.
  lemma AtMostOneReply(ss: seq<State>, steps: seq<Step>, k: nat)
    requires IsRun(ss, steps) && k < |ss|
    ensures forall m, n | m in ss[k].matrix && n in ss[k].matrix :: m.op == n.op <==> m.event == n.event
    ensures forall m, n | m in ss[k].matrix && n in ss[k].matrix && m.op == n.op :: m == n
    ensures forall id | id in ss[k].requests && ss[k].requests[id].status == Published ::
              ss[k].requests[id].reply.Some? && ss[k].requests[id].replyBody.Some? &&
              exists m | m in ss[k].matrix :: m.op == FinalOf(id) && m.event == ss[k].requests[id].reply.value &&
                m.body == ss[k].requests[id].replyBody.value
  {
    RunKeepsInv(ss, steps, k);
    forall id | id in ss[k].requests && ss[k].requests[id].status == Published
      ensures ss[k].requests[id].reply.Some? && ss[k].requests[id].replyBody.Some? &&
              exists m | m in ss[k].matrix :: m.op == FinalOf(id) && m.event == ss[k].requests[id].reply.value &&
                m.body == ss[k].requests[id].replyBody.value
    {
      assert ReplyInv(ss[k], id);
      assert SentAs(ss[k], FinalOf(id)) in ss[k].matrix;
    }
  }

  // A final publish of a published request is answered with the same event exactly for
  // the same body, and otherwise refused; either way nothing changes. This holds
  // whatever has become of the binding and the room since.
  lemma PublishedReplayIsExact(ss: seq<State>, steps: seq<Step>, k: nat, id: RequestId, caller: Caller, p: Reply,
      answer: Room, reach: Reach)
    requires IsRun(ss, steps) && k < |ss|
    requires id in ss[k].requests && ss[k].requests[id].status == Published && ss[k].requests[id].room in ss[k].bindings
    requires Authorised(caller, ss[k].requests[id]) && p.kind == Final
    ensures Publish(ss[k], id, caller, p, answer, reach).0 == ss[k]
    ensures var out := Publish(ss[k], id, caller, p, answer, reach).1;
            if ss[k].requests[id].replyBody == Some(p.body) then out.Done? &&
              ss[k].requests[id].reply == Some(out.event) else out.Refused?
  {
    RunKeepsInv(ss, steps, k);
    assert ReplyInv(ss[k], id);
  }

  // A ledger row is the one its request asks for, up to status and body.
  predicate RowInv(s: State, op: OpId)
    requires op in s.ledger
  {
    var row := s.ledger[op];
    op.id in s.requests && row.owner == s.requests[op.id].owner && row.generation == s.requests[op.id].generation &&
    row.root.revision == s.requests[op.id].revision
  }

  lemma RowStep(s: State, step: Step, op: OpId)
    requires op in Next(s, step).ledger && (op in s.ledger ==> RowInv(s, op))
    ensures RowInv(Next(s, step), op)
  {
    if step.PublishReply? {
      PublishIsLocal(s, step.id, step.caller, step.p, step.answer, step.reach);
    }
    assert op.id in s.requests;
    StepMoves(s, step, op.id);
  }

  lemma {:induction false} RunKeepsRows(ss: seq<State>, steps: seq<Step>, k: nat, op: OpId)
    requires IsRun(ss, steps) && k < |ss| && op in ss[k].ledger
    ensures RowInv(ss[k], op)
  {
    if op in ss[k - 1].ledger {
      RunKeepsRows(ss, steps, k - 1, op);
    }
    RowStep(ss[k - 1], steps[k - 1], op);
  }

  // A publish call that nothing interrupts, for a pending request, puts the reply into the
  // room exactly when the caller is authorised, binding and room still allow it, the
  // reply is well formed, the account has a generation, and no other reply was prepared
  // under this operation. A final reply then ends the request.
  lemma PublishSucceedsExactly(s: State, id: RequestId, caller: Caller, p: Reply, answer: Room)
    requires LedgerInv(s) && id in s.requests && s.requests[id].room in s.bindings
    requires s.requests[id].status == Status.Pending
    ensures var (n, out) := Publish(s, id, caller, p, answer, AfterCommit);
            var r, e := s.requests[id], Effective(p);
            var op := OpFor(id, e);
            (out.Done? <==>
              Current(s.bindings[r.room], r, caller) && answer.Allows? && r.generation > 0 &&
              !Decimal.IsBlank(p.body) && |p.body| <= 16000 &&
              p.status in (if p.kind == Final then {Omitted, Completed, FailedReply} else {Working, WaitingOwner}) &&
              (op in s.ledger ==> s.ledger[op] == RowFor(id, r, e))) &&
            (out.Done? ==>
              Message(op, out.event, e.status, e.body) in n.matrix &&
              id in n.requests &&
              n.requests[id] ==
                if p.kind == Final
                then r.(status := Published, reply := Some(out.event), replyBody := Some(p.body)) else r)
  {
  }

  // A caller that names another revision, or is of another account, is refused.
  lemma StrangersAreRefused(s: State, id: RequestId, caller: Caller, p: Reply, status: Status, answer: Room,
      reach: Reach)
    requires id !in s.requests || s.requests[id].revision != caller.revision ||
             s.requests[id].generation != caller.generation || s.requests[id].owner != caller.owner
    ensures Publish(s, id, caller, p, answer, reach) == (s, Refused)
    ensures Complete(s, id, caller, status, answer) == (s, Refused)
  {
  }

  // A publication that stops leaves what it had done: after its ledger row nothing is
  // prepared, before its send nothing is in the room, and before its commit the request
  // is as it was.
  lemma StoppedPublishLeaves(s: State, id: RequestId, p: Reply, reach: Reach)
    requires id in s.requests
    ensures var (n, out) := Deliver(s, id, p, reach);
            (out.Done? ==> reach.AfterCommit?) && (!out.Done? ==> n.requests == s.requests) &&
            (reach.AfterLedger? ==> n.staged == s.staged && n.events == s.events) &&
            (reach.AfterLedger? || reach.AfterStaging? ==> n.matrix == s.matrix) &&
            (out.Stopped? ==> OpFor(id, p) in n.ledger && n.ledger[OpFor(id, p)] == RowFor(id, s.requests[id], p))
  {
  }

  // The status of a reply: a final one without a status says completed.
  lemma RepliesSay(id: RequestId, p: Reply)
    requires WellFormed(p)
    ensures var e := Effective(p);
            e.kind == p.kind && e.body == p.body &&
            (p.kind == Final ==>
              OpFor(id, e) == FinalOf(id) && e.status == if p.status == FailedReply then FailedReply else Completed) &&
            (p.kind == Progress ==>
              OpFor(id, e) == ProgressOf(id, p.status) && e.status == p.status)
  {
  }

  // A pending request whose binding or room no longer allows it is cancelled by the
  // attempt to publish; one whose room cannot be read is left for later.
  lemma PublishCancelsExactly(s: State, id: RequestId, caller: Caller, p: Reply, answer: Room, reach: Reach)
    requires id in s.requests && s.requests[id].room in s.bindings && s.requests[id].status == Status.Pending
    ensures var (n, out) := Publish(s, id, caller, p, answer, reach);
            var r := s.requests[id];
            var valid := Current(s.bindings[r.room], r, caller);
            (out.WasCancelled? <==> Authorised(caller, r) && (!valid || answer.Denies?)) &&
            (out.WasCancelled? ==> n == s.(requests := s.requests[id := r.(status := Cancelled)])) &&
            (out.Unavailable? <==> valid && answer.Unreadable?) && (out.Unavailable? || out.Refused? ==> n == s)
  {
  }

  // A retry after a crash between the send and the commit: if the room already holds
  // the final reply, a valid retry sends nothing new. It succeeds, with that reply's
  // event, exactly for the same status and body; any other is refused.
  lemma CrashedPublishIsResumed(ss: seq<State>, steps: seq<Step>, k: nat, id: RequestId, caller: Caller, p: Reply,
      m: Message)
    requires IsRun(ss, steps) && k < |ss| && id in ss[k].requests && ss[k].requests[id].room in ss[k].bindings
    requires Current(ss[k].bindings[ss[k].requests[id].room], ss[k].requests[id], caller) && caller.generation > 0
    requires WellFormed(p) && p.kind == Final && m in ss[k].matrix && m.op == FinalOf(id)
    ensures var (n, out) := Publish(ss[k], id, caller, p, Allows, AfterCommit);
            n.matrix == ss[k].matrix &&
            if m.status == Effective(p).status && m.body == p.body
            then out == Done(m.event) && n.requests[id].status == Published && n.requests[id].reply == Some(m.event)
            else out == Refused && n == ss[k]
  {
    RunKeepsInv(ss, steps, k);
    assert m == SentAs(ss[k], m.op);
    RunKeepsRows(ss, steps, k, m.op);
  }

  // ---- The store as the service mutates it ----

  class Store {
    var bindings: map<RoomId, Binding>
    var requests: map<RequestId, Request>
    var ledger: map<OpId, Ledger>
    var staged: map<OpId, Staged>
    var events: nat
    var matrix: set<Message>

    ghost function View(): State
      reads this
    {
      State(bindings, requests, ledger, staged, events, matrix)
    }

    constructor ()
      ensures View() == INITIAL
    {
      bindings, requests, ledger, staged, events, matrix := map[], map[], map[], map[], 0, {};
    }

    // One transaction on a room's binding row.
    method UpdateRow(room: RoomId, u: Update) returns (saved: bool)
      modifies this
      ensures View() == Next(old(View()), UpdateBinding(room, u))
      ensures saved <==> MayUpdate(BindingOf(old(View()), room), u)
      ensures !saved ==> View() == old(View())
    {
      var b := if room in bindings then bindings[room] else BLANK;
      if u.expected.Some? && b.revision != u.expected.value { return false; }
      if b.owner != Nobody && b.owner != u.owner && b.enabled { return false; }
      if b.revision == 0 { b := DefaultBinding(u.owner); }
      if b.enabled != u.enabled || b.owner != u.owner || b.generation != u.generation {
        if u.enabled && !u.joins { return false; }
        b := Binding(u.enabled, u.owner, AgentOf(u.owner), b.revision + 1, u.generation);
      }
      Save(room, b);
      saved := true;
    }

    method InvalidateRow(room: RoomId)
      modifies this
      ensures View() == Next(old(View()), InvalidateBinding(room))
      ensures room in bindings && !bindings[room].enabled
      ensures forall id | id in requests && requests[id].room == room :: requests[id].status != Status.Pending
    {
      var b := if room in bindings then bindings[room] else BLANK;
      if b.enabled {
        b := b.(enabled := false, revision := b.revision + 1);
      }
      Save(room, b);
    }

    method Save(room: RoomId, b: Binding)
      modifies this
      ensures View() == SaveBinding(old(View()), room, b)
    {
      requests := map id | id in requests :: Revoked(requests[id], room, b);
      bindings := bindings[room := b];
    }

    // One call of the agent that publishes a reply.
    method PublishRow(id: RequestId, caller: Caller, p: Reply, room: Room, reach: Reach) returns (answer: Answer)
      modifies this
      ensures (View(), answer) == Publish(old(View()), id, caller, p, room, reach)
    {
      if id !in requests || requests[id].room !in bindings { return Refused; }
      var r, b := requests[id], bindings[requests[id].room];
      if !Authorised(caller, r) { return Refused; }
      if r.status == Published {
        if p.kind == Progress { return WasCancelled; }
        if r.replyBody != Some(p.body) || r.reply.None? { return Refused; }
        return Done(r.reply.value);
      }
      if Current(b, r, caller) && room.Unreadable? { return Unavailable; }
      if !Current(b, r, caller) || room.Denies? {
        if r.status == Status.Pending {
          requests := requests[id := r.(status := Cancelled)];
        }
        return WasCancelled;
      }
      if !WellFormed(p) { return Refused; }
      answer := DeliverRow(id, Effective(p), reach);
    }

    method DeliverRow(id: RequestId, p: Reply, reach: Reach) returns (answer: Answer)
      requires id in requests
      modifies this
      ensures (View(), answer) == Deliver(old(View()), id, p, reach)
    {
      var op, row := OpFor(id, p), RowFor(id, requests[id], p);
      if op in ledger {
        if ledger[op] != row { return Refused; }
      } else {
        ledger := ledger[op := row];
      }
      if reach.AfterLedger? || requests[id].generation <= 0 ||
        (op in staged && staged[op].row != row) { return Stopped; }
      if op !in staged {
        staged := staged[op := Staged(row, events)];
        events := events + 1;
      }
      if reach.AfterStaging? { return Stopped; }
      matrix := matrix + {Message(op, staged[op].event, staged[op].row.root.status, staged[op].row.root.body)};
      if reach.AfterSend? { return Stopped; }
      if p.kind == Final {
        requests := requests[id := requests[id].(status := Published, reply := Some(staged[op].event),
          replyBody := Some(p.body))];
      }
      answer := Done(staged[op].event);
    }
  }
}
