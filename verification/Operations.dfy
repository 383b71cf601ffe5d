// Recoverable operations: their durable record and how its identity is derived
// from an action, its parameters and the rows it finds.

module Operations {
  import opened Membership
  import opened Fencing

  datatype Action =
    | ContactsRequest
    | ContactsAccept
    | ContactsReject
    | GroupsJoin
    | GroupsInviteReject
    | GroupsInvite
    | ChannelsJoin
    | ChannelsInvite
    | ChannelsApprove
    | ChannelsReject
    | PublicJoinRequest
    | PublicJoinResult

  predicate IsContactAction(a: Action) {
    a in {ContactsRequest, ContactsAccept, ContactsReject}
  }

  predicate IsInviteAction(a: Action) {
    a in {GroupsInvite, ChannelsInvite}
  }

  predicate IsPublicAction(a: Action) {
    a in {PublicJoinRequest, PublicJoinResult}
  }

  predicate DefaultsToOwner(a: Action) {
    a in {ChannelsJoin, ChannelsInvite, ChannelsApprove, ChannelsReject, PublicJoinRequest, PublicJoinResult,
          GroupsJoin, GroupsInviteReject}
  }

  datatype Status = Running | Reconciling | Completed | Failed

  datatype Phase = Prepared | MatrixUnconfirmed | MatrixCommitted | CallbackAcknowledged | PhaseCompleted

  datatype ErrorCode = NoCode | JoinUnconfirmed | ResultUnconfirmed | JoinFailedCode | RecoveryCode | OtherCode

  datatype Outcome =
    | WasApproved
    | WasJoining
    | WasJoinFailed
    | WasJoined
    | WasRejected
    | WasAccepted
    | WasPendingInbound
    | WasPendingOutbound
    | WasDeleted
    | WasOk
    | WasOther

  // A stored or returned result: status, room and error code.
  datatype Result = Result(status: Outcome, room: string, error: ErrorCode)

  datatype OperationId =
    | Supplied(text: string)
    | Derived(action: Action, room: string, channel: string, user: string, peer: string, request: RequestId)

  datatype Record = Record(
    id: OperationId,
    action: Action,
    status: Status,
    phase: Phase,
    room: string,
    currentRoom: string,
    user: string,
    peer: string,
    request: RequestId,
    base: RequestId,
    result: Option<Result>,
    error: ErrorCode,
    revision: nat,
    leaseOwner: Option<nat>,
    leaseUntil: int
  )

  // ---- Identity ----

  datatype CallerId = Absent | Malformed | WellFormed(text: string)

  datatype Params = Params(
    room: string,
    channel: string,
    user: string,
    peer: string,
    requestId: RequestId,
    inviteEvent: RequestId,
    grant: RequestId,
    directRoom: RequestId,
    rebuild: RequestId,
    operationId: CallerId
  )

  datatype Contact = Contact(peer: string, room: string, request: RequestId, deleted: bool)

  // What the stores answer while the record is derived.
  datatype Lookups = Lookups(
    target: (string, string) -> (string, string),
    contactByRoom: string -> Option<Contact>,
    contactByPeer: string -> Option<Contact>,
    member: (string, string) -> Option<Row>,
    owner: string
  )

  function OrElse(a: string, b: string): string {
    if a != "" then a else b
  }

  predicate IsRebuild(a: Action, p: Params) {
    IsInviteAction(a) && p.rebuild != Blank
  }

  function NextJoinGeneration(room: string, channel: string, user: string, current: RequestId): RequestId {
    JoinGeneration(room, channel, user, current)
  }

  function FindContact(a: Action, room: string, peer: string, look: Lookups): Option<Contact> {
    if !IsContactAction(a) then None
    else
      var byRoom := if room != "" then look.contactByRoom(room) else None;
      if byRoom.None? && peer != "" then look.contactByPeer(peer) else byRoom
  }

  function FindMember(room: string, user: string, look: Lookups): Option<Row> {
    if room != "" && user != "" then look.member(room, user) else None
  }

  // The generation an action takes from the member row it finds.
  function MemberRequest(a: Action, room: string, channel: string, user: string, m: Row,
      request: RequestId): RequestId {
    if a == PublicJoinRequest then
      if m.request != Blank && !MayRestart(m.membership) then m.request
      else NextJoinGeneration(room, channel, user, m.request)
    else if a == PublicJoinResult then
      FirstSet(m.request, NextJoinGeneration(room, channel, user, Blank))
    else if a in {GroupsJoin, GroupsInviteReject} && m.request != Blank then m.request
    else FirstSet(request, m.request)
  }

  function RecordFor(a: Action, p: Params, look: Lookups): Option<Record> {
    if p.operationId.Malformed? then None
    else
      var (foundRoom, foundChannel) := look.target(p.room, p.channel);
      var room := OrElse(foundRoom, p.room);
      // A room identifies the workflow; the channel is a projection that may become known later.
      var channel := if room != "" then "" else OrElse(foundChannel, p.channel);
      var user := if p.user == "" && DefaultsToOwner(a) then look.owner else p.user;
      var provided := p.operationId.WellFormed?;
      var request :=
        if a == ContactsRequest && p.requestId == Blank && provided then ContactCreate(p.operationId.text)
        else if IsRebuild(a, p) then p.rebuild
        else FirstSet(p.requestId, FirstSet(p.inviteEvent, FirstSet(p.grant, p.directRoom)));
      var contact := FindContact(a, room, p.peer, look);
      var request :=
        if contact.None? then request
        else if a == ContactsRequest && p.requestId == Blank && !provided && contact.value.deleted
        then ContactAfterDelete(contact.value.peer, contact.value.request)
        else FirstSet(request, contact.value.request);
      var peer := if contact.Some? then OrElse(p.peer, contact.value.peer) else p.peer;
      var room :=
        if a == ContactsRequest then ""
        else if contact.Some? then OrElse(room, contact.value.room) else room;
      var member := FindMember(room, user, look);
      var base :=
        if member.Some? then member.value.request
        else if contact.Some? then contact.value.request else Blank;
      var request := if member.Some? then MemberRequest(a, room, channel, user, member.value, request) else request;
      var request :=
        if a == PublicJoinRequest && base == Blank then NextJoinGeneration(room, channel, user, Blank) else request;
      var request :=
        if request == Blank && member.Some? && member.value.joinedAt > 0 then JoinTime(member.value.joinedAt)
          else request;
      var request := if request == Blank then TargetDigest(room, channel, user, peer) else request;
      var id :=
        if provided && !IsPublicAction(a) && !IsRebuild(a, p) then Supplied(p.operationId.text)
        else Derived(a, room, channel, user, peer, request);
      Some(Record(id, a, Running, Prepared, room, "", user, peer, request, base, None, NoCode, 0, None, 0))
  }

  // No record is without a generation, and each carries what it was found with: the base
  // is the generation of the member row, else of the contact.
  lemma RecordIsComplete(a: Action, p: Params, look: Lookups)
    requires !p.operationId.Malformed?
    ensures var r := RecordFor(a, p, look).value;
            r.action == a && r.request != Blank && r.revision == 0 && r.leaseOwner.None? &&
            r.status == Running && r.phase == Prepared && r.result.None? && r.currentRoom == "" &&
            r.user == (if p.user != "" || a in {ContactsRequest, ContactsAccept, ContactsReject, GroupsInvite}
                       then p.user else look.owner) &&
            (p.peer != "" ==> r.peer == p.peer) && (a == ContactsRequest ==> r.room == "") &&
            var m := if r.room != "" && r.user != "" then look.member(r.room, r.user) else None;
            (m.Some? ==> r.base == m.value.request) &&
            (m.None? && a !in {ContactsRequest, ContactsAccept, ContactsReject} ==> r.base == Blank)
  {
  }

  lemma MalformedIdsAreRefused(a: Action, p: Params, look: Lookups)
    ensures RecordFor(a, p, look).None? <==> p.operationId.Malformed?
  {
  }

  // The operation's id is the caller's exactly where the caller gives one and may choose:
  // not for public callbacks and explicit rebuilds. Else it is derived from the target
  // and the generation, with the channel only where no room is known.
  lemma SuppliedIdsAreKept(a: Action, p: Params, look: Lookups)
    requires !p.operationId.Malformed?
    ensures var r := RecordFor(a, p, look).value;
            if p.operationId.WellFormed? && a !in {PublicJoinRequest, PublicJoinResult} &&
              (a in {GroupsInvite, ChannelsInvite} ==> p.rebuild == Blank)
            then r.id == Supplied(p.operationId.text)
            else r.id.Derived? && r.id.action == a && r.id.room == r.room && r.id.user == r.user &&
                 r.id.peer == r.peer && r.id.request == r.request &&
                 (r.room != "" && !IsContactAction(a) ==> r.id.channel == "")
  {
  }

  // An explicit rebuild is its own generation, whatever row it finds.
  lemma RebuildNamesItsGeneration(a: Action, p: Params, look: Lookups)
    requires a in {GroupsInvite, ChannelsInvite} && p.rebuild != Blank && !p.operationId.Malformed?
    ensures RecordFor(a, p, look).value.request == p.rebuild
  {
  }

  // The contact of a contact action is that of its room, else that of its peer.
  lemma ContactIsFound(a: Action, room: string, peer: string, look: Lookups)
    ensures var contact := FindContact(a, room, peer, look);
            if a !in {ContactsRequest, ContactsAccept, ContactsReject} then contact.None?
            else if room != "" && look.contactByRoom(room).Some? then contact == look.contactByRoom(room)
            else if peer != "" then contact == look.contactByPeer(peer)
            else contact.None?
  {
  }

  // Every other member action but the group answers, for which the row's comes first,
  // takes the generation the caller names, by request, invite
  // event, grant or direct room in this order, else that of the row, else the row's join
  // time, else a digest of the target.
  lemma MemberActionGeneration(a: Action, p: Params, look: Lookups)
    requires a in {GroupsInvite, ChannelsJoin, ChannelsInvite, ChannelsApprove, ChannelsReject, GroupsJoin,
                   GroupsInviteReject}
    requires !p.operationId.Malformed? && !(IsInviteAction(a) && p.rebuild != Blank)
    ensures var r := RecordFor(a, p, look).value;
            var m := FindMember(r.room, r.user, look);
            if a in {GroupsJoin, GroupsInviteReject} && m.Some? && m.value.request != Blank
            then r.request == m.value.request
            else if p.requestId != Blank then r.request == p.requestId
            else if p.inviteEvent != Blank then r.request == p.inviteEvent
            else if p.grant != Blank then r.request == p.grant
            else if p.directRoom != Blank then r.request == p.directRoom
            else if m.Some? && m.value.request != Blank then r.request == m.value.request
            else if m.Some? && m.value.joinedAt > 0 then r.request == JoinTime(m.value.joinedAt)
            else r.request.TargetDigest? && r.request.target == r.room && r.request.member == r.user &&
                 r.request.peer == r.peer && (r.room != "" ==> r.request.scope == "")
  {
  }

  // An answer to a contact takes the generation the caller names, else the contact's own,
  // deleted or not, and a contact request the request id it names.
  lemma ContactAnswerGeneration(a: Action, p: Params, look: Lookups)
    requires a in {ContactsRequest, ContactsAccept, ContactsReject} && !p.operationId.Malformed?
    ensures p.requestId != Blank ==> RecordFor(a, p, look).value.request == p.requestId
    ensures var (found, _) := look.target(p.room, p.channel);
            var contact := FindContact(a, OrElse(found, p.room), p.peer, look);
            a != ContactsRequest && p.requestId == p.inviteEvent == p.grant == p.directRoom == Blank &&
            contact.Some? && contact.value.request != Blank ==>
              RecordFor(a, p, look).value.request == contact.value.request
  {
  }

  // A contact request without a request id takes one from its operation id; without that
  // too, on a deleted contact, the one that follows the deletion; else the contact's.
  lemma ContactRequestGeneration(p: Params, look: Lookups)
    requires !p.operationId.Malformed? && p.requestId == Blank
    requires p.inviteEvent == Blank && p.grant == Blank && p.directRoom == Blank
    ensures var r := RecordFor(ContactsRequest, p, look).value;
            var (found, _) := look.target(p.room, p.channel);
            var contact := FindContact(ContactsRequest, OrElse(found, p.room), p.peer, look);
            if p.operationId.WellFormed? then r.request == ContactCreate(p.operationId.text)
            else if contact.Some? && contact.value.deleted
            then r.request == ContactAfterDelete(contact.value.peer, contact.value.request)
            else contact.Some? && contact.value.request != Blank ==> r.request == contact.value.request == r.base
  {
  }

  // Same target and member, whatever request and operation ids the caller chose.
  predicate SameTarget(p: Params, q: Params) {
    p.room == q.room && p.channel == q.channel && p.user == q.user && p.peer == q.peer
  }

  // A public join's whole record is independent of every caller-chosen id.
  lemma PublicJoinIgnoresCallerIds(p: Params, q: Params, look: Lookups)
    requires SameTarget(p, q) && !p.operationId.Malformed? && !q.operationId.Malformed?
    ensures RecordFor(PublicJoinRequest, p, look) == RecordFor(PublicJoinRequest, q, look)
  {
  }

  // The generation of a public join is the active generation of the row, or is
  // derived from the row it leaves behind; either way it is never blank.
  lemma PublicJoinGeneration(p: Params, look: Lookups)
    requires !p.operationId.Malformed?
    ensures var r := RecordFor(PublicJoinRequest, p, look).value;
            r.request != Blank && Advances(r.base, r.request) &&
            (r.request != r.base ==> r.request.JoinGeneration? && r.request.base == r.base) &&
            (r.request == r.base ==>
               exists m: Row ::
                 look.member(r.room, r.user) == Some(m) && m.request == r.request && !MayRestart(m.membership))
  {
    var r := RecordFor(PublicJoinRequest, p, look).value;
    var m := FindMember(r.room, r.user, look);
    if r.request == r.base {
      assert m.Some?;
      assert look.member(r.room, r.user) == Some(m.value);
    }
  }

  predicate SameExceptMembers(look: Lookups, later: Lookups, p: Params) {
    look.target(p.room, p.channel) == later.target(p.room, p.channel) && look.owner == later.owner
  }

  // While the generation a public join derived is the active one of its row, every
  // replay, under any caller-chosen ids, derives the same generation and operation.
  lemma ReplayKeepsIdentity(p: Params, q: Params, look: Lookups, later: Lookups)
    requires SameTarget(p, q) && !p.operationId.Malformed? && !q.operationId.Malformed?
    requires SameExceptMembers(look, later, p)
    requires var r := RecordFor(PublicJoinRequest, p, look).value;
             var m := FindMember(r.room, r.user, later);
             m.Some? && m.value.request == r.request && !MayRestart(m.value.membership)
    ensures var r, s := RecordFor(PublicJoinRequest, p, look).value, RecordFor(PublicJoinRequest, q, later).value;
            s.id == r.id && s.request == r.request && s.room == r.room && s.user == r.user
  {
    PublicJoinGeneration(p, look);
  }

  // Requests that saw the same terminal row, under any caller-chosen ids, derive one new,
  // later generation, and restarting under it is disciplined.
  lemma ConcurrentRestartsShareOneGeneration(
    p: Params, q: Params, look: Lookups, other: Lookups, seen: Row, now: int)
    requires SameTarget(p, q) && !p.operationId.Malformed? && !q.operationId.Malformed?
    requires SameExceptMembers(look, other, p)
    requires var r := RecordFor(PublicJoinRequest, p, look).value;
             FindMember(r.room, r.user, look) == Some(seen) == FindMember(r.room, r.user, other)
    requires MayRestart(seen.membership)
    ensures var r, s := RecordFor(PublicJoinRequest, p, look).value, RecordFor(PublicJoinRequest, q, other).value;
            r.request == s.request && r.id == s.id && r.request.JoinGeneration? && r.request.base == seen.request &&
            var i := RestartIntent(seen, r.request, now);
            i.Some? && Disciplined(i.value)
  {
    var r := RecordFor(PublicJoinRequest, p, look).value;
    LaterIsLonger(r.request, seen.request);
  }

  // And they collapse onto it: among arbitrary disciplined writers, once the restart of
  // one of them has landed, whatever step of another's restart comes later leaves the row
  // alone, and that other answers a row of the common generation or a later one.
  lemma ConcurrentRestartsCollapse(
    p: Params, q: Params, look: Lookups, other: Lookups, seen: Row, ws: seq<World>, steps: seq<Step>, i: nat, j: nat)
    requires SameTarget(p, q) && !p.operationId.Malformed? && !q.operationId.Malformed?
    requires SameExceptMembers(look, other, p)
    requires var r := RecordFor(PublicJoinRequest, p, look).value;
             FindMember(r.room, r.user, look) == Some(seen) == FindMember(r.room, r.user, other)
    requires MayRestart(seen.membership)
    requires IsRun(ws, steps) && AllBegin(steps) && i < j < |steps|
    requires steps[i].Commit? && PcOf(ws[i + 1], steps[i].t).Saved? &&
             IsRestart(PcOf(ws[i], steps[i].t).intent, seen, RecordFor(PublicJoinRequest, p, look).value.request)
    ensures var g := RecordFor(PublicJoinRequest, q, other).value.request;
            (steps[j].Commit? && IsRestart(PcOf(ws[j], steps[j].t).intent, seen, g) ==>
              ws[j + 1].row == ws[j].row && PcOf(ws[j + 1], steps[j].t).Refused?) &&
            (steps[j].Begin? && IsRestart(steps[j].intent, seen, g) ==> PcOf(ws[j + 1], steps[j].t).Refused?) &&
            (steps[j].Reread? && IsRestart(PcOf(ws[j], steps[j].t).intent, seen, g) ==>
              var pc := PcOf(ws[j + 1], steps[j].t);
              pc.Answered? && pc.current.Some? && Advances(g, pc.current.value.request))
  {
    ConcurrentRestartsShareOneGeneration(p, q, look, other, seen, 0);
    OnlyOneRestartLands(ws, steps, seen, RecordFor(PublicJoinRequest, q, other).value.request, i, j);
  }

  // Different generations of a row never lead to the same next generation, and the
  // next generation is none of the earlier ones.
  lemma NextGenerationIsFresh(room: string, channel: string, user: string, g: RequestId, h: RequestId)
    ensures NextJoinGeneration(room, channel, user, g) == NextJoinGeneration(room, channel, user, h) ==> g == h
    ensures h == g || Later(g, h) ==>
              NextJoinGeneration(room, channel, user, g) != h && Later(NextJoinGeneration(room, channel, user, g), h)
  {
    var next := NextJoinGeneration(room, channel, user, g);
    if h == g || Later(g, h) {
      if h != g {
        LaterTransitive(next, g, h);
      }
      LaterIsLonger(next, h);
    }
  }

  // A callback can only address the current generation of the row it finds, and a
  // group card can never replace the persisted invite generation.
  lemma StoredGenerationIsCanonical(a: Action, p: Params, look: Lookups)
    requires a in {PublicJoinResult, GroupsJoin, GroupsInviteReject} && !p.operationId.Malformed?
    requires var r := RecordFor(a, p, look).value;
             var m := FindMember(r.room, r.user, look); m.Some? && m.value.request != Blank
    ensures var r := RecordFor(a, p, look).value;
            r.request == FindMember(r.room, r.user, look).value.request == r.base
  {
  }

  // Two operations that derive the same id are the same action on the same target
  // in the same generation.
  lemma DerivedIdsAreInjective(a: Action, p: Params, look: Lookups, b: Action, q: Params, seen: Lookups)
    requires RecordFor(a, p, look).Some? && RecordFor(b, q, seen).Some?
    requires RecordFor(a, p, look).value.id == RecordFor(b, q, seen).value.id
    requires RecordFor(a, p, look).value.id.Derived?
    ensures var r, s := RecordFor(a, p, look).value, RecordFor(b, q, seen).value;
            a == b && r.room == s.room && r.user == s.user && r.peer == s.peer && r.request == s.request
  {
  }
}
