# Dirextalk message server: a verified model of its protocol core

The server keeps product state (members, operations, contacts, group agents, events)
beside a Matrix homeserver, and every write has to survive crashes, retries, concurrent
callers and several processes on one database. This project models the code that makes
that work and proves what it keeps, over every interleaving, every run or every input.

| file | what it models |
|---|---|
| `Membership.dfy` | memberships, member rows, and request generations as an acyclic chain |
| `MemberPersistence.dfy` | the merge every member save performs, and histories of saves |
| `Fencing.dfy` | generation-fenced writers on one member row as read/merge and swap steps |
| `Operations.dfy` | deriving an operation's identity and generation from a request |
| `OperationStore.dfy` | the durable operation row: claims, leases, revisions, phases, trackers |
| `Admission.dfy` | deciding whether a recoverable operation runs, and what it answers otherwise |
| `RetainedJoin.dfy` | joining a retained room: claim, Matrix fact, settlement, member refresh |
| `Decision.dfy` | an owner's decision on a join request, write by write |
| `DirectRoom.dfy` | how a contact operation comes to its direct room, and what its phase marks protect |
| `RoomTransport.dfy` | creating rooms on the homeserver under idempotency keys, concurrently |
| `LockTable.dfy` | the reference-counted keyed lock tables |
| `Gate.dfy` | the account gate, account deletion, and the lock order inside operations |
| `GroupAgent.dfy` | group agent bindings, request queue and durable reply publication |
| `Decimal.dfy`, `EventStream.dfy` | the resumable event stream and its cursor |
| `PushRules.dfy` | putting a push rule |
| `PublicRooms.dfy` | the paged public room directory |

How the model is built. Code that only computes is functions. Code that works step by
step is methods with loops, classes whose methods are tied to step functions
(`MemberTable`, `KeyedLocks`, `Account`, `Store`), or, where several threads or processes
take part, machines over atomic steps whose runs are sequences of states. The answers of
the database, of Matrix and of the clock are parameters of a step, so that every answer is
covered. Truncated SHA-256 identities are datatype constructors, which makes them
collision free. Strings that the code trims and folds are enumerations.

What is not true of the code, and is stated as such, each with an input on which it fails
and the exact condition under which it does:

- A public join that reaches its swap on a row past its own generation, derived or not,
  takes the row back to an older one (`StalledRestartGoesBack`, exact in `RestartAdvancesExactly`).
- A rejection of a member that Matrix says has joined changes the row in whatever
  generation it is, and approves it (`RejectionAltersRestartedRow`, exact in
  `ForeignWritesExactly`), and its settlement can take a row back to an older generation
  (`SettlementTakesRowBack`, exact in `DecisionsAreDisciplined`).
- A settlement expects the generation its caller or its operation names, not the one it
  saw, when the two differ (`SettlementStaysInGeneration`).
- Across processes, where the in-process lock does not help, a visible owner can be demoted
  by a visible write (`UnlockedMergeDemotesOwner`, exact in `DemotionIsExact`;
  `LockKeepsOwner` within a process).
- A retained-room join can report stale after it has written its claim, and even after it
  has stored the join (`StaleAfterClaim`, `StaleAfterJoin`, exact in the contract of
  `JoinAndProject` and in `ClaimLandsExactly`).
- A plain save of a row without room or user breaks the laws of member histories
  (`UnaddressedRowsBreakTheLaws`, exact in `GenerationErasedExactly`, `OwnerDemotedExactly`,
  `RemovalDowngradedExactly` and `JoinTimeMovedExactly`).
- Phase marks alone do not prevent a second direct room (`PhaseAloneIsNotEnough`, exact in
  `SecondRoomExactly`); the room derived from the operation id does, and without an
  operation nothing does (`RoomTransport.AnsweredRoomStands`, exact in `ManyRoomsExactly`).
- A first, disabled update of a group agent binding on a server without an account
  generation changes the owner without a new revision (`OwnerCanChangeAtRevisionZero`,
  exact in `UpdateIsExact`).
- The stream reports an expired cursor although nothing was lost when pruning stopped at
  the cursor's own row, and loses events silently when every row was pruned
  (`ResetIsNotExact`).
- A stream misses an event whose writer overlapped another one, or whose number a restarted
  process took below the cursor (`OverlappingAppendsCanMiss`, `RestartedCounterCanMiss`,
  exact in `DeliveredIffAboveCursor`).
- An event that cannot be written ends the stream for every resumption
  (`CompleteIffWritable`).
- An existing push rule put without neighbours stays where it is instead of moving first
  (`Put`).
- A page offset past the end, a negative limit or a limit that carries the offset past the
  largest integer panics (`SliceIsDefinedIff`, `WalkIsTheList`).

## Model

| member | source | states |
|---|---|---|
| `Membership.LaterIsLonger` | p2p/service_operation_recovery.go:1171-1176 | a generation derived from another is strictly further along the chain, so the chain has no cycle |
| `Membership.LaterTransitive` | p2p/service_operation_recovery.go:1171-1176 | being derived from a generation is transitive |
| `Membership.MembershipClasses` | p2p/service_member_persistence.go:153-193 | how the stored memberships fall into claimable, removed and terminal ones, and from which a new request starts |
| `MemberPersistence.MemberTable.Save` | p2p/service_member_persistence.go:24-125 | plain, if-absent and if-state saves land exactly when the stored row allows, change only that row, and store the merged record |
| `MemberPersistence.SavesLandExactly` | p2p/service_member_persistence.go:24-125 | a save lands always, without a row, or exactly on a row of the generation and membership expected |
| `MemberPersistence.MergeInto` | p2p/service_member_persistence.go:153-193 | the in-place edits of the incoming record give the merge that the history laws are about |
| `MemberPersistence.MergedRowIs` | p2p/service_member_persistence.go:153-193 | field by field, which of the two rows a merged save leaves: the membership named but for a downgraded removal, the join time stored but for a restart, generation and requester named or kept, the role of a visible owner |
| `MemberPersistence.GenerationNeverErased` | p2p/service_member_persistence.go:153-193 | over every sequence of saves a stored row stays and its generation is never erased |
| `MemberPersistence.JoinTimeOnlyRestarts` | p2p/service_member_persistence.go:153-193 | a positive join time that differs later has, in between, a save that started a new request or moved freshly into join |
| `MemberPersistence.RemovalNeverDowngraded` | p2p/service_member_persistence.go:153-193 | a removed or banned row that is later merely left was re-admitted in between |
| `MemberPersistence.OwnerNeverDemotedWhileVisible` | p2p/service_member_persistence.go:153-193 | an owner that is later no owner was hidden at some point in between |
| `MemberPersistence.UnaddressedRowsBreakTheLaws` | p2p/service_member_persistence.go:96-125 | for rows without room or user one plain save erases the generation, moves the join time, demotes a visible owner, or downgrades a removal |
| `MemberPersistence.GenerationErasedExactly` | p2p/service_member_persistence.go:96-125 | a stored generation is erased exactly by a plain save of such a row that names none |
| `MemberPersistence.OwnerDemotedExactly` | p2p/service_member_persistence.go:96-125 | a visible owner is demoted and stays visible, in one save, exactly by a plain save of such a row that says so |
| `MemberPersistence.RemovalDowngradedExactly` | p2p/service_member_persistence.go:96-125 | a removal becomes merely left, in one save, exactly by a plain save of such a row that says left |
| `MemberPersistence.JoinTimeMovedExactly` | p2p/service_member_persistence.go:96-125 | a positive join time moves without a restart, in one save, exactly by a plain save of such a row that brings another |
| `Fencing.OnlyExpectedWritesLand` | p2p/service_member_persistence.go:47-82 | in every interleaving each change of the row is a swap that found exactly the generation and membership its writer expected |
| `Fencing.GenerationsOnlyAdvance` | p2p/service_member_persistence.go:47-82 | with writers that keep or advance the generation, the row's generation only advances over every run |
| `Fencing.StaleWriterChangesNothing` | p2p/service_channel_join.go:309-331 | once the row is past generation g a writer that expects g never alters it, is refused, and its caller answers a row of a later generation |
| `Fencing.LockedCommitIsAtomic` | p2p/service_member_persistence.go:47-82 | under the in-process write lock lookup, merge and swap are one atomic conditional save |
| `Fencing.DemotionIsExact` | p2p/service_member_persistence.go:47-82 | a landing write turns a visible owner into a visible other member exactly when it names no owner, leaves the row visible, and had read, when it began, a row that was no visible owner |
| `Fencing.LockKeepsOwner` | p2p/service_member_persistence.go:47-82 | under the in-process lock that never happens |
| `Fencing.UnlockedMergeDemotesOwner` | p2p/storage/memory_members.go:33-51 | without it a concrete run demotes a visible owner by a visible write |
| `Fencing.RestartAdvancesExactly` | p2p/remote_public.go:209-240 | a restart under any generation keeps or advances the row exactly when the row seen has none, or the restart's was derived from one the row is not past |
| `Fencing.RestartIsStored` | p2p/remote_public.go:184-240 | in every interleaving a restart that lands found the terminal row it saw and leaves a pending request of its own generation that begins now |
| `Fencing.TerminalRowsRestart` | p2p/remote_public.go:184-199 | a request restarts a row exactly when it names another generation and the row is rejected or left |
| `Fencing.StalledRestartGoesBack` | p2p/remote_public.go:184-240 | a concrete run in which a stalled restart takes the row to an older generation |
| `Fencing.RestartedRowStaysRestarted` | p2p/remote_public.go:184-240 | among arbitrary disciplined writers, once a restart under g has landed the row is at g or later in every later state |
| `Fencing.OnlyOneRestartLands` | p2p/remote_public.go:184-240 | every other restart of the row it saw then changes nothing, at whatever step it was, and what its caller reads again is a row of g or later |
| `Operations.PublicJoinIgnoresCallerIds` | p2p/service_operation_recovery.go:1026-1176 | the whole record of a public join is independent of caller-chosen request and operation ids |
| `Operations.PublicJoinGeneration` | p2p/service_operation_recovery.go:1026-1176 | its generation is the active one of the row or is derived from the row left behind, and never blank |
| `Operations.ReplayKeepsIdentity` | p2p/service_operation_recovery.go:1026-1176 | while that generation is active every replay under any ids derives the same generation and operation |
| `Operations.ConcurrentRestartsShareOneGeneration` | p2p/service_operation_recovery.go:1026-1176 | requests that saw the same terminal row, under any ids, derive one generation and operation, and restarting under it is disciplined |
| `Operations.ConcurrentRestartsCollapse` | p2p/remote_public.go:184-199 | among arbitrary disciplined writers, once one of them has restarted the row every later step of another leaves it alone and answers their common generation or a later one |
| `Operations.NextGenerationIsFresh` | p2p/service_operation_recovery.go:1171-1176 | the next generation differs from all earlier ones and from that of any other row generation |
| `Operations.StoredGenerationIsCanonical` | p2p/service_operation_recovery.go:1026-1176 | decision callbacks and group invite actions address the generation stored in the row, whatever the caller names |
| `Operations.DerivedIdsAreInjective` | p2p/service_operation_recovery.go:1026-1176 | equal derived operation ids mean the same action, target and generation |
| `Operations.RecordIsComplete` | p2p/service_operation_recovery.go:1026-1168 | every record has a generation, and its base is that of the member row it found |
| `Operations.MalformedIdsAreRefused` | p2p/service_operation_recovery.go:1026-1037 | a request is refused exactly for a malformed operation id |
| `Operations.SuppliedIdsAreKept` | p2p/service_operation_recovery.go:1137-1168 | the operation id is the caller's exactly where one is given and may be chosen, and else derived from target and generation |
| `Operations.RebuildNamesItsGeneration` | p2p/service_operation_recovery.go:1026-1168 | an explicit rebuild is its own generation, whatever row it finds |
| `Operations.MemberActionGeneration` | p2p/service_operation_recovery.go:1026-1168 | group answers take the row's generation; other member actions, and those without one, the first of request, invite event, grant and direct room named, else the row's, its join time, or a digest of the target |
| `Operations.ContactRequestGeneration` | p2p/service_operation_recovery.go:1060-1100 | a contact request without a request id takes one from its operation id, else from the deletion it follows, else the contact's |
| `Operations.ContactIsFound` | p2p/service_operation_recovery.go:1067-1080 | a contact action finds the contact of its room, else that of its peer |
| `Operations.ContactAnswerGeneration` | p2p/service_operation_recovery.go:1060-1100 | a contact action takes the request id it names, and an answer that names nothing the contact's own, deleted or not |
| `OperationStore.StepKeepsInv` | p2p/storage/memory_operations.go:24-87 | every claim, write, crash and tick keeps the row invariant, the row's identity and the order of revisions |
| `OperationStore.RowInvariant` | p2p/service_operation_recovery.go:541-617 | in every run a failed row is in phase prepared and a completed row is in phase completed with a result that needs no reconciliation |
| `OperationStore.IdentityIsStable` | p2p/storage/memory_operations.go:24-87 | over every run a row keeps its identity and base generation and its revision never falls |
| `OperationStore.WritesLandExactly` | p2p/internal/operations/tracker.go:36-60 | a write changes the row exactly when its tracker's revision and lease are in force; it raises the revision and renews or gives up the lease |
| `OperationStore.FinishCompletesExactly` | p2p/service_operation_recovery.go:604-617 | a handler's result completes the operation exactly when it carries no code and no state to be reconciled; otherwise it is reconciled in its phase; result and code are stored |
| `OperationStore.FailureRecoversExactly` | p2p/service_operation_recovery.go:577-592 | a handler's error fails the operation exactly in phase prepared and otherwise has it reconciled, never without a code |
| `OperationStore.MarksAreStored` | p2p/service_operation_recovery.go:1500-1507 | a mark stores the phase and room named and leaves result and code; a release leaves all of it |
| `OperationStore.CompletedOnlyByItsHandler` | p2p/service_operation_recovery.go:596-617 | in every run a completed operation was completed by a handler that finished with the stored result under a claim in force, and has been so ever since |
| `OperationStore.ClaimsLandExactly` | p2p/storage/memory_operations.go:24-56 | a claim is granted exactly without a row, or on one of the same identity on which no other lease is running |
| `OperationStore.ResetStartsOver` | p2p/service_operation_recovery.go:532-550 | a completed contact operation found stale starts over in its tracker while the row keeps everything until the first write; any other claimant goes on from the row |
| `OperationStore.LeftOperationsAreTakenOver` | p2p/storage/memory_operations.go:24-56 | in every reachable state, once the lease of a left operation has run out, whoever looks it up gets it exactly as it was left |
| `OperationStore.OnlyContactResetTakesBack` | p2p/service_operation_recovery.go:526-540 | a step from a phase that needs recovery back to prepared is made by the tracker of a reset completed contact operation |
| `OperationStore.RecoveryIsNeverForgotten` | p2p/service_operation_recovery.go:1219-1238 | over any stretch of any run such a way back contains such a reset |
| `OperationStore.LostClaimNeverWrites` | p2p/storage/memory_operations.go:24-87 | a claimant whose row was taken over never changes it again unless it claims anew |
| `OperationStore.LeaseExcludesOthers` | p2p/storage/memory_operations.go:24-87 | in every run, from a claim granted until its lease has run out or was given back, the lease stays with its owner and no step of anybody else changes the row |
| `Admission.InFlight` | p2p/service_operation_recovery.go:676-725 | an operation under way answers an error exactly when it is completed and its Matrix fact cannot be read, its result while that is current or not yet completed, and else the row; a rebuild only a current result |
| `Admission.Busy` | p2p/service_operation_recovery.go:829-905 | the same for the stored operation behind a busy workflow, with the status the row then shows; joined is said only of a row in join whose Matrix fact was read |
| `Admission.Admit` | p2p/service_operation_recovery.go:401-540 | the handler runs, on the claimed row, exactly when no callback of another generation is answered, the workflow is free, a stored operation is the same request, not superseded and not answered from its result, and the claim is granted; else the answer says which it was |
| `Admission.Resume` | p2p/service_operation_recovery.go:451-540 | the same from the lookup of the operation on |
| `Admission.Claim` | p2p/service_operation_recovery.go:526-550 | the claim is taken exactly when the store grants it, and one that is not is answered for the row that has it |
| `Admission.RunsUnderItsClaim` | p2p/service_operation_recovery.go:526-550 | the operation that runs holds the lease under the identity asked for, reset or not |
| `Admission.FirstRequestRuns` | p2p/service_operation_recovery.go:401-540 | a first request with a free workflow always runs, and its row is the derived record under its lease |
| `Admission.RebuildsAreNotSettledEarly` | p2p/service_operation_recovery.go:461-474 | a rebuild is reported settled without its handler only from a completed operation whose row and Matrix fact match |
| `Admission.LeftBehindNeverRuns` | p2p/service_operation_recovery.go:643-674 | a public join whose row is at a later generation runs no handler and hands out no stored result |
| `Admission.CachedAnswersAreStored` | p2p/service_operation_recovery.go:461-505 | a result that is handed out is a stored one |
| `Admission.RebuildCurrentExactly` | p2p/service_operation_recovery.go:1318-1345 | the result of a rebuild is current exactly while the row is at its generation and Matrix agrees |
| `Admission.ContactCurrentExactly` | p2p/service_operation_recovery.go:1318-1434 | the result of a contact operation is current exactly while the contact has its room and status and Matrix agrees |
| `Admission.MemberCurrentExactly` | p2p/service_operation_recovery.go:1318-1434 | the result of a member operation is current exactly while row and Matrix say the same |
| `Admission.UnknownExactly` | p2p/service_operation_recovery.go:1318-1434 | whether a result is current is unknown exactly when Matrix would decide it and cannot be read |
| `Admission.SupersededExactly` | p2p/service_operation_recovery.go:643-674 | an operation is superseded exactly by a row or contact of another generation, but for an uncompleted one still at the terminal row it was derived from |
| `Admission.RestartSkipsWorkflow` | p2p/service_operation_recovery.go:784-797 | a derived public join skips its workflow exactly when the row it finds is the terminal one it was derived from, and restarting that row then advances it |
| `Admission.WorkflowExactly` | p2p/service_operation_recovery.go:129-140 | every action with a known target has a workflow but the callback, and only a public join may skip it |
| `Admission.CallbackMismatchExactly` | p2p/service_operation_recovery.go:618-641 | a callback is answered at once exactly when it names a generation and the row it finds has another |
| `Admission.StoreAndServiceAgree` | p2p/service_operation_recovery.go:1191-1203 | the service sees an identity conflict exactly where the store refuses the claim for its identity |
| `Admission.PresentAnswerIs` | p2p/service_operation_recovery.go:967-1022 | what an answer from the row tells: a member in join is joined only if Matrix says so, and nothing is told if Matrix cannot be read |
| `Admission.BusyStatusIs` | p2p/service_operation_recovery.go:829-905 | behind a busy workflow a status is kept where it is settled or under way, and is joining otherwise |
| `Admission.LaterIsNeverReadmitted` | p2p/service_operation_recovery.go:643-674 | the base-generation exception never re-admits an operation whose row is at a later generation |
| `Admission.BaseExceptionIsExact` | p2p/service_operation_recovery.go:643-674 | on a terminal row the operation may still run exactly if the row is at its base or its own generation |
| `Admission.FreshRecordsAreWellDerived` | p2p/service_operation_recovery.go:1026-1176 | every fresh public-join record has a generation equal to or derived from its base |
| `Admission.StoredRecordsAreWellDerived` | p2p/storage/memory_operations.go:24-87 | over every run of the operation store that shape holds of the stored row |
| `Admission.GrantedClaimNeverConflicts` | p2p/service_operation_recovery.go:1191-1203 | a granted claim never conflicts with the identity it was granted for |
| `RetainedJoin.SaveLands` | p2p/service_room_reactivation.go:344-426 | a conditional save that lands was expected, keeps the intended membership and stays in the expected generation |
| `RetainedJoin.FullAddressesAreFound` | p2p/service_room_reactivation.go:663-666 | a row is found, and Matrix is asked, only under a full address |
| `RetainedJoin.JoinRoomWithRetry` | p2p/service_room_reactivation.go:684-700 | at most the allowed number of calls, each repeated only after a retryable outcome, and the outcome is that of the last call or of the cancellation |
| `RetainedJoin.CommitMatrixJoin` | p2p/service_room_reactivation.go:483-530 | without an error Matrix confirmed the member in the room the record then names, by a probe or by the join |
| `RetainedJoin.MatrixOutcomeExactly` | p2p/service_room_reactivation.go:483-530 | the Matrix side succeeds exactly when Matrix confirms the member and the mark is made, and is unconfirmed exactly after a marked ambiguous join or a claimed one that no probe finds |
| `RetainedJoin.AdoptRow` | p2p/service_room_reactivation.go:247-286 | adopting or inserting the row swaps nothing, and goes on only in the generation the row has |
| `RetainedJoin.TakeClaim` | p2p/service_room_reactivation.go:295-362 | the claim is a fenced swap to joining, or the attempt answers for the claimant that holds it without writing |
| `RetainedJoin.EstablishFact` | p2p/service_room_reactivation.go:471-530 | the attempt goes on as joined only with Matrix evidence for that room |
| `RetainedJoin.JoinAndSettle` | p2p/service_room_reactivation.go:238-426 | with a transport join is stored only after Matrix evidence in the same attempt and room; any other settled attempt ends in the same generation as joining exactly if the join is unconfirmed, and else as join_failed; a stale attempt wrote its claim exactly when that landed and never more, a busy one nothing |
| `RetainedJoin.AdoptsExactly` | p2p/service_room_reactivation.go:247-286 | an attempt goes on exactly with a row, found or inserted, of its own generation |
| `RetainedJoin.FilledIs` | p2p/service_room_reactivation.go:247-262 | its generation is the caller's, the operation's or the parameter's, its room the one committed |
| `RetainedJoin.JoinedMembersNeedNoClaim` | p2p/service_room_reactivation.go:287-294 | a member that Matrix already has needs no claim, and without Matrix's word the attempt is interrupted |
| `RetainedJoin.RefusedClaimAnswers` | p2p/service_room_reactivation.go:301-325 | an attempt whose claim is refused is busy exactly while Matrix does not have the member, and goes on with the row it finds once Matrix has |
| `RetainedJoin.GrantedClaimIsHeld` | p2p/service_room_reactivation.go:295-366 | a granted claim is held to the end of the attempt, and one that lands leaves the row of the generation at joining |
| `RetainedJoin.SettlementIsExact` | p2p/service_room_reactivation.go:368-426 | how an attempt is settled by what Matrix and store answer: join, joining after a join left open, else join_failed, in its generation and with the time of a fresh join, exactly if the row is as expected; else stale |
| `RetainedJoin.ClaimLandsExactly` | p2p/service_room_reactivation.go:295-362 | when the claim lands, in terms of what transport, probe, claim and store answer |
| `RetainedJoin.StaleAfterClaim` | p2p/service_room_reactivation.go:401-419 | an input on which the attempt reports stale after its claim was written |
| `RetainedJoin.StaleAfterJoin` | p2p/service_room_reactivation.go:431-452 | an input on which it reports stale after the join was stored |
| `RetainedJoin.RefreshTarget` | p2p/service_room_reactivation.go:618-642 | the joining member is swapped in its generation, or the refresh ends with the row it finds |
| `RetainedJoin.RefreshOne` | p2p/service_room_reactivation.go:589-642 | one other listed member is saved unfenced exactly unless its row is an active public join that Matrix lists as invited; the joining member, if listed as joined, is swapped in its generation, and ends the refresh exactly when its row is gone, of another generation, or lost at the swap |
| `RetainedJoin.ListedIs` | p2p/service_room_reactivation.go:589-616 | what is saved of a listed member: the membership listed, none meaning join, with the profile and mute its row had |
| `RetainedJoin.ActiveJoinsArePreserved` | p2p/service_room_reactivation.go:650-661 | a listed invite leaves alone exactly the rows with a generation that are neither invited, left nor removed |
| `RetainedJoin.RefreshMembers` | p2p/service_room_reactivation.go:576-661 | refreshing the roster writes the joining member only under its generation and never overwrites an active public join with an invite |
| `RetainedJoin.RefreshCompletesExactly` | p2p/service_room_reactivation.go:576-661 | the refresh is complete exactly when no listed member ended it and the joining member is still in its generation at the end |
| `RetainedJoin.ProjectChannel` | p2p/service_room_reactivation.go:431-466 | the projection behind a settled join keeps the laws of the attempt and never stores join_failed |
| `RetainedJoin.JoinAndProject` | p2p/service_room_reactivation.go:238-469 | the whole attempt: a stale answer follows a stored join exactly when the settlement landed as one, and otherwise a write exactly when the claim landed, never a stored join_failed |
| `RetainedJoin.AttemptSucceedsExactly` | p2p/service_room_reactivation.go:238-469 | the whole attempt succeeds exactly when its settlement does, the channel and roster are projected, and a claim held could be given up |
| `RetainedJoin.UnsettledAttemptsEnd` | p2p/service_room_reactivation.go:368-430 | an attempt that did not settle its row, or did so with an error, projects nothing and answers that |
| `Decision.RepairMember` | p2p/internal/members/mutation.go:301-333 | the two-attempt repair of a member that Matrix says has joined ends with a member in join exactly if an attempt finds the row as read or in join, and makes at most one write, to join, on a row as it was last read and in its generation |
| `Decision.DecisionIsStored` | p2p/internal/members/mutation.go:124-191 | a decision is stored exactly when it names no other generation, the row can be decided that way and is still as read; an approval then stores approved and a rejection reject, in that generation |
| `Decision.StoredDecisionIsCompleted` | p2p/internal/members/mutation.go:171-200 | a stored decision that could be published is completed with the member as decided, and any other goes no further |
| `Decision.JoinedRowsAreOnlyCompleted` | p2p/internal/members/mutation.go:124-158 | an approval of a member in join only completes it; a rejection of one that Matrix does not have writes nothing |
| `Decision.ApprovalIsCompleted` | p2p/service_channel_join.go:19-69 | completing an approval stores join for a remote member that Matrix has and joining for any that it does not, exactly when the row is as expected |
| `Decision.RemoteApprovalIsSettled` | p2p/service_channel_join.go:175-302 | an invited remote applicant is then settled as its node answered: approved without an address, joining when it could not be told, else its answer |
| `Decision.LocalApprovalIsKept` | p2p/service_channel_join.go:59-71 | a local applicant without a transport is then settled as approved |
| `Decision.RejectionIsCompleted` | p2p/service_channel_join.go:175-302 | completing a rejection settles a remote applicant as its node answered, reject where it could not be told |
| `Decision.ForeignWritesExactly` | p2p/internal/members/mutation.go:81-198 | a decision that names g changes a row of another generation exactly when it rejects a member that Matrix says has joined and, by what store and Matrix answer, the first row its repair gets to write is of another generation |
| `Decision.DecisionsAreDisciplined` | p2p/service_channel_join.go:19-69 | some write of a decision takes the generation back exactly when it repairs a member of a generation not later than the one named and, by what store, Matrix and transport answer, the settlement of that lands |
| `Decision.SettlementTakesRowBack` | p2p/service_channel_join.go:175-211 | an input on which the third write of a rejection takes a row restarted under g back to the generation before it |
| `Decision.SettlementStaysInGeneration` | p2p/service_channel_join.go:175-182 | a settlement touches only rows of its own generation exactly when the caller names none or that one and the operation lends none to a row without, or when it expects a membership no row has |
| `Decision.RejectionAltersRestartedRow` | p2p/internal/members/mutation.go:98-123 | a rejection that names g turns a row restarted under a later generation into a joined one |
| `DirectRoom.MakesRoomExactly` | p2p/service_contact_direct_room_adapter.go:67-108 | a step makes a room exactly when its attempt comes to the creating call, the call takes effect, and the operation has committed no room |
| `DirectRoom.AcceptAnswersExactly` | p2p/service_contact_direct_room_adapter.go:67-108 | which room an accept answers by what Matrix and the operation say, and that it is the room the operation has committed |
| `DirectRoom.AcceptCreatesExactly` | p2p/service_contact_direct_room_adapter.go:90-118 | an accept goes on to create exactly for a waiting contact whose room cannot be joined, without a committed room; one that ends leaves the operation alone or unconfirmed at the contact's room |
| `DirectRoom.CreationIsMarked` | p2p/service_contact_direct_room_adapter.go:171-184 | a room made is committed, one that came with an error is unconfirmed, and any other end leaves the operation alone |
| `DirectRoom.LeavesExactly` | p2p/service_contact_direct_room_adapter.go:110-118 | exactly which steps take an operation out of its committed room |
| `DirectRoom.SecondRoomExactly` | p2p/service_contact_direct_room_adapter.go:67-184 | with phase marks alone, exactly when a second room is made: the attempt would create, and since the first creation, which ended unmarked or was left again, nothing has committed |
| `DirectRoom.PhaseAloneIsNotEnough` | p2p/service_contact_direct_room_adapter.go:67-118 | three concrete steps make two rooms |
| `RoomTransport.StepKeepsRooms` | roomserver/internal/input/create_room_recovery.go:57-120 | no step of any attempt purges a room that holds more than its create event, and no random id is given out twice |
| `RoomTransport.AnsweredRoomStands` | internal/dirextalktransport/dendrite/dendrite_transport.go:84-190 | whatever attempts interleave, crash, purge and rebuild, all attempts of an operation that create answer the same room, and it is never purged or replaced, even after its creator has left it |
| `RoomTransport.FirstAttemptAnswers` | internal/dirextalktransport/dendrite/dendrite_transport.go:84-190 | an undisturbed first attempt makes the operation's room, commits it and answers it |
| `RoomTransport.RetryFindsItsRoom` | internal/dirextalktransport/dendrite/dendrite_transport.go:84-190 | an attempt after a lost reply or a crash makes no room and answers the one there |
| `RoomTransport.BrokenRoomIsRebuilt` | internal/dirextalktransport/dendrite/dendrite_transport.go:84-190 | an attempt after a creation that stopped at its create event purges that room and builds it anew |
| `RoomTransport.RebuiltRoomIsAnswered` | internal/dirextalktransport/dendrite/dendrite_transport.go:84-190 | a rebuilt room is checked once more, committed and answered |
| `RoomTransport.AttemptReachesTransportExactly` | p2p/service_contact_direct_room_adapter.go:67-156 | which attempts come to the transport: those of an operation without a committed room that request, or accept a contact whose room cannot be joined |
| `RoomTransport.AttemptsEnd` | internal/dirextalktransport/dendrite/dendrite_transport.go:84-190 | every step of an attempt brings it nearer to its end, so it purges and creates at most once |
| `RoomTransport.FailedCreationLooksAgain` | internal/dirextalktransport/dendrite/dendrite_transport.go:172-184 | a creation that failed is looked for again and reconciled exactly if it is found |
| `RoomTransport.FinishAnswersExactly` | p2p/service_contact_direct_room_adapter.go:171-184 | a room is answered exactly if it was confirmed and the commit could be marked; one with an error is marked unconfirmed |
| `RoomTransport.KeylessAttemptAnswers` | internal/dirextalktransport/dendrite/dendrite_transport.go:74-79 | without an operation an undisturbed attempt answers a room of its own |
| `RoomTransport.AtMostOneRoom` | internal/dirextalktransport/dendrite/dendrite_transport.go:66-190 | all rooms ever built for an operation are one room, which no other operation shares |
| `RoomTransport.BlankKeyBuildsAnew` | internal/dirextalktransport/dendrite/dendrite_transport.go:74-79 | without an operation every creation that takes effect makes a room that was not there |
| `RoomTransport.ManyRoomsExactly` | p2p/service_contact_direct_room_adapter.go:153-156 | two effective creations under one key make different rooms exactly if the key is blank |
| `RoomTransport.CreatorsMarkTheirRoom` | p2p/service_contact_direct_room_adapter.go:171-182 | the room a creating attempt marks is the one room of its operation |
| `LockTable.LockTableIsSound` | p2p/service_operation_recovery.go:1437-1485 | in every state of every run one holder per key, one shared entry per key counted by its users, the identity guard on deletion holds, and the table is empty exactly when unused |
| `LockTable.LockTableRefinesMutex` | internal/mutex.go:17-38 | every step is a take or release of a per-key mutex that never forgets keys, or invisible to it, and a waiter can enter exactly when that mutex is free |
| `LockTable.StepRefinesMutex` | p2p/service_member_persistence.go:127-151 | the refinement for one step from any state that keeps the invariant |
| `LockTable.DropsLastUser` | p2p/service_operation_recovery.go:1452-1459 | deregistering drops the entry exactly when the thread was its last user |
| `LockTable.KeyedLocks.Begin` | p2p/service_operation_recovery.go:1462-1473 | the guarded registration is the register step of the machine |
| `LockTable.KeyedLocks.FindOrCreate` | p2p/service_operation_recovery.go:1438-1448 | under the guard the key has an entry, made if there was none, with one user more |
| `LockTable.KeyedLocks.TryLock` | p2p/service_operation_recovery.go:1450-1450 | the entry's mutex is taken exactly when no thread holds the key |
| `LockTable.KeyedLocks.Release` | p2p/service_operation_recovery.go:1451-1452 | unlocking the entry is the unlock step |
| `LockTable.KeyedLocks.End` | p2p/service_operation_recovery.go:1453-1459 | the guarded deregistration is the deregister step |
| `LockTable.KeyedLocks.DropUser` | p2p/service_operation_recovery.go:1453-1458 | under the guard the entry has one user less and is forgotten with its last |
| `Gate.BodiesNeverOverlapReset` | p2p/service_account_delete.go:74-118 | in every state of every run no operation body runs during a reset and at most one deletion is active |
| `Gate.SuccessIsFinal` | p2p/service.go:974-981 | after a successful deletion, for ever, no body runs, no deletion starts and every operation past the gate is turned away |
| `Gate.FlagIsNeverStuck` | p2p/service_account_delete.go:138-152 | the deletion flag is up only for an active deletion or a deleted account |
| `Gate.FailedDeletionLetsTheNextBegin` | p2p/service_account_delete.go:138-152 | a deletion may fail until it commits, and then the next one can begin |
| `Gate.NestedCallsKeepTheLock` | p2p/service_account_delete.go:20-29 | in every reachable state a thread in a body carries the marker, so a nested call has nothing to wait for, and only ending the outermost call gives the read lock back |
| `Gate.UnmarkedNestingDeadlocks` | p2p/service_account_delete.go:16-29 | a nested call without the marker and a waiting deletion never get on, whatever all others do |
| `Gate.MarkerPreventsSelfDeadlock` | p2p/service_account_delete.go:16-29 | such a state is reachable, and there the marked call can proceed |
| `Gate.LocksAreRanked` | p2p/service_operation_recovery.go:380-399 | in every reachable state a thread wants only a lock above all it holds in the order workflow, operation, member write |
| `Gate.TakenLockExcludesOthers` | p2p/service_operation_recovery.go:380-399 | in every run a lock that was taken is held until it is dropped, and no other thread takes it before |
| `Gate.LocksCoverTheHandler` | p2p/service_operation_recovery.go:380-399 | in every run the workflow and operation locks taken are held until the operation is on its way out |
| `Gate.EachPointMayAsk` | p2p/service_operation_recovery.go:380-399 | which lock or claim each point of the dispatch may ask for, and what is left of its budget |
| `Gate.UngrantedClaimNeverRuns` | p2p/service_operation_recovery.go:743-782 | in every run an operation that asked for its workflow claim comes to its handler only after a granted poll |
| `Gate.PollsEndExactly` | p2p/service_operation_recovery.go:743-782 | a claim is polled until granted or out of polls; a granted one goes on, a timed-out one ends the dispatch, and the handler goes on either way |
| `Gate.NoDeadlock` | p2p/service.go:977-1000 | every reachable state with an unfinished thread has a thread that can take a step towards its end |
| `Gate.FinishingCosts` | p2p/service_operation_recovery.go:743-782 | each such step, requests for locks and claims and polls included, makes the remaining effort smaller |
| `Gate.EveryScheduleFinishes` | p2p/service.go:977-1000 | from every reachable state every schedule of all that the threads inside still do, requests, claims inside the handler, saves and nested calls included, is bounded and, when it cannot go on, has finished them |
| `Gate.Account.BeginOperation` | p2p/service_account_delete.go:20-29 | beginning a gated call, marked or not, is the machine's step and leaves the thread marked and under the read lock |
| `Gate.Account.Push` | p2p/service_account_delete.go:24-28 | under the marker no lock and a release that does nothing, else the read lock and the marker |
| `Gate.Account.CheckDeprovisioned` | p2p/projector.go:10-16 | past the gate the operation is admitted exactly on an account that is not deprovisioned |
| `Gate.Account.BeginDeletion` | p2p/service_account_delete.go:138-146 | a deletion begins exactly when none is in progress |
| `Gate.Account.FinishFailedDeletion` | p2p/service_account_delete.go:148-152 | a failed deletion lowers the flag and keeps the gate invariant |
| `Gate.Account.ClearAfterDeprovision` | p2p/service_account_delete.go:290-308 | the terminal flag is set under the write lock and keeps the gate invariant |
| `GroupAgent.UpdateIsExact` | p2p/service_group_agent.go:184-213 | an update gives the binding asked for and raises the revision by one exactly on a change, except the family it names exactly |
| `GroupAgent.UpdateLandsExactly` | p2p/service_group_agent.go:184-213 | an update is taken exactly at the revision it names, while no other owner has the binding enabled, and with the agent joined where it enables |
| `GroupAgent.StaleUpdateNeverLands` | p2p/service_group_agent.go:184-193 | in every run, of the updates that name one revision, once one has moved the revision no other ever lands |
| `GroupAgent.OnlyItsOwnerUpdates` | p2p/service_group_agent.go:188-190 | over every stretch of a run an enabled binding stays as it is unless its owner updates it or it is invalidated |
| `GroupAgent.InvalidationDisables` | p2p/service_group_agent.go:409-422 | invalidation disables an enabled binding under the next revision and changes nothing else |
| `GroupAgent.OwnerCanChangeAtRevisionZero` | p2p/service_group_agent.go:191-193 | that family is not empty |
| `GroupAgent.RevisionsNeverFall` | p2p/storage/storage_group_agent.go:103-126 | over every run a room's revision never falls |
| `GroupAgent.PendingRequestsAreAuthorised` | p2p/storage/storage_group_agent.go:103-175 | in every state every pending request is authorised by its room's present binding and a room has at most 256 of them |
| `GroupAgent.EnqueueLandsExactly` | p2p/storage/storage_group_agent.go:128-175 | a request is queued exactly if the enabled binding matches it, neither id nor event is known, and the queue has room |
| `GroupAgent.BindingChangeCancelsExactly` | p2p/storage/storage_group_agent.go:103-126 | in every run a change of the binding cancels exactly the pending requests it does not authorise any more |
| `GroupAgent.CancelsExactly` | p2p/storage/storage_group_agent.go:261-264 | a cancellation ends exactly the pending requests that every filter given selects |
| `GroupAgent.CompletionIsStored` | p2p/service_group_agent.go:948-1044 | the end reported for a request that binding and room allow is stored, and one they do not allow is cancelled |
| `GroupAgent.OutcomesAreFinal` | p2p/service_group_agent.go:948-979 | published, failed and cancelled requests never change again, reply event and digest included |
| `GroupAgent.OldRevisionsNeverPublish` | p2p/service_group_agent.go:1122-1126 | once the binding is past a request's revision the request is never published and its room never gets another message for it |
| `GroupAgent.AtMostOneReply` | p2p/service_group_agent.go:1070-1094 | across crashes and retries the room holds at most one message per publication, and a published request points at its own |
| `GroupAgent.PublishSucceedsExactly` | p2p/service_group_agent.go:948-1118 | an uninterrupted publish for a pending request puts that reply into the room, and a final one ends the request, exactly when caller, binding, room, reply and account allow and no other reply was prepared |
| `GroupAgent.PublishCancelsExactly` | p2p/service_group_agent.go:964-979 | a publish cancels a pending request exactly when its binding or room no longer allows it; an unreadable room leaves it |
| `GroupAgent.StrangersAreRefused` | p2p/service_group_agent.go:948-951 | a caller of another revision, account generation or owner changes nothing and is refused |
| `GroupAgent.StoppedPublishLeaves` | p2p/service_group_agent.go:1070-1094 | what a publication that stops has done: its ledger row, its prepared event or its message, and never the request |
| `GroupAgent.RepliesSay` | p2p/service_group_agent.go:1045-1074 | the publication a reply is made under, and the status it says |
| `GroupAgent.PublishedReplayIsExact` | p2p/service_group_agent.go:952-963 | a final publish of a published request answers the same event exactly for the same body, is refused otherwise, and changes nothing |
| `GroupAgent.CrashedPublishIsResumed` | p2p/storage/storage_group_agent.go:241-259 | after a crash between send and commit a retry sends nothing new; it succeeds with the same event exactly for the same status and body |
| `GroupAgent.Store.UpdateRow` | p2p/service_group_agent.go:184-213 | the transaction's edits of the binding row are the update step; it saves exactly at the revision named, for the owner of an enabled binding, with the agent joined where it enables, and otherwise changes nothing |
| `GroupAgent.Store.InvalidateRow` | p2p/service_group_agent.go:409-422 | invalidation leaves the binding disabled, under a new revision if it was not, and no request of the room pending |
| `GroupAgent.Store.PublishRow` | p2p/service_group_agent.go:948-1118 | the in-place edits of the publish call are the publish step with its answer |
| `GroupAgent.Store.DeliverRow` | p2p/service_group_agent.go:1070-1094 | ledger, staging, send and commit up to any crash point are the delivery step |
| `Decimal.PrintParse` | p2p/events_http.go:117-123 | printing a 64-bit number and parsing it back gives the number |
| `Decimal.ParsesSigned` | p2p/events_http.go:117-123 | which signed and unsigned numbers are parsed, up to the bounds of 64 bits |
| `Decimal.TrimLeaves` | p2p/events_http.go:102-116 | trimming leaves nothing exactly of white space, and else none at either end |
| `EventStream.EchoedIdIsTheCursor` | p2p/events_http.go:102-148 | the id of a sent event, echoed back, is that event's cursor; a query is accepted beside it exactly when equal |
| `EventStream.CursorExactly` | p2p/events_http.go:102-148 | a cursor is accepted exactly when it is not negative and each source given is one number, this one; without a source it is zero |
| `EventStream.WriteBatch` | p2p/events_http.go:77-82 | a batch is written up to the first event that cannot be, or until the connection breaks |
| `EventStream.Stream` | p2p/events_http.go:46-98 | the loop sends exactly the writable rows above the cursor as far as the connection lasts, and says whether it caught up or the cursor expired |
| `EventStream.StreamHasNoGap` | p2p/events_http.go:72-98 | sent ids strictly increase above the cursor and skip no row |
| `EventStream.CompleteIffWritable` | p2p/events_http.go:161-166 | every row above the cursor is sent exactly when each is writable; the first that is not ends the stream for every resumption |
| `EventStream.ListIs` | p2p/internal/events/module.go:79-87 | a page holds the first rows above its start, as many as asked for, or a hundred for a number out of range |
| `EventStream.FreshStreamsNeverExpire` | p2p/internal/events/module.go:95-110 | a stream from the start never expires |
| `EventStream.ResumeContinues` | p2p/events_http.go:72-98 | cutting after any prefix and resuming from the last sent event gives the uncut sequence |
| `EventStream.PruningAndTheCursor` | p2p/internal/events/module.go:95-110 | a resumed cursor is expired exactly when its row was pruned and others remain, and events are lost exactly when more was pruned |
| `EventStream.ResetIsNotExact` | p2p/internal/events/module.go:95-110 | exactly when the reset is sent without loss, and when loss goes without the reset |
| `EventStream.DeliveredIffAboveCursor` | p2p/internal/events/module.go:43-77 | in every run, from any table, counter and cursor, a row is sent exactly when it came in above the cursor of that moment and the cursor has reached it |
| `EventStream.SerialAppendsAreDelivered` | p2p/internal/events/module.go:53-62 | when writers do not overlap and every number is above the cursor and all rows, every row is sent once the cursor reaches it |
| `EventStream.CounterStaysAhead` | p2p/internal/events/module.go:53-62 | the counter takes such numbers for as long as it started ahead and the process was not restarted |
| `EventStream.AllottedIsAhead` | p2p/internal/events/module.go:53-62 | a number given out is above the counter: the event's own if that is ahead, else the clock, else the next |
| `EventStream.InsertsLandExactly` | p2p/internal/events/module.go:64-70 | an insert brings its row exactly unless it is a duplicate or its number is taken |
| `EventStream.NumbersStayDistinct` | p2p/internal/events/module.go:43-77 | over every run the table holds no two rows of one number |
| `EventStream.RestartedCounterCanMiss` | p2p/internal/events/module.go:36-38 | a restarted process whose clock is behind the table loses an event although nothing overlaps |
| `EventStream.OverlappingAppendsCanMiss` | p2p/internal/events/module.go:53-66 | a concrete run of two overlapping writers in which an event is never sent |
| `PushRules.IndexById` | clientapi/routing/pushrules.go:303-310 | the first index with the id, or minus one exactly when there is none |
| `PushRules.FindInsertionIndex` | clientapi/routing/pushrules.go:334-372 | the one place the caller asks for, exactly when there is one |
| `PushRules.Put` | clientapi/routing/pushrules.go:133-162 | a put succeeds exactly when its place exists; ids stay distinct, the other rules keep their order, the rule is at its place, and an existing rule without neighbours named stays where it is |
| `PushRules.PlacedAsAsked` | clientapi/routing/pushrules.go:334-372 | at its place the rule is behind `after`, directly before `before`, directly behind `after` alone, or first |
| `PublicRooms.FilterRooms` | clientapi/routing/directory_public.go:147-164 | exactly the matching rooms in their order |
| `PublicRooms.ContainsExactly` | clientapi/routing/directory_public.go:147-164 | a text contains a term exactly if the term starts somewhere in it |
| `PublicRooms.SliceIsDefinedIff` | clientapi/routing/directory_public.go:215-237 | exactly for which offsets and limits a page can be cut instead of a panic |
| `PublicRooms.TokenLeadsBack` | clientapi/routing/directory_public.go:101-143 | a page token leads back to its offset |
| `PublicRooms.PageIs` | clientapi/routing/directory_public.go:101-143 | the rooms and both tokens of the page at an offset |
| `PublicRooms.WalkIsTheList` | clientapi/routing/directory_public.go:101-143 | following the next tokens gives the list exactly once in order, in full pages and with no trailing empty one, exactly when the limit is not negative and no page start overflows |
| `PublicRooms.WalkExists` | clientapi/routing/directory_public.go:101-143 | the walk ends |
| `PublicRooms.PrevUndoesNext` | clientapi/routing/directory_public.go:215-226 | the previous token of every page of a walk leads back to the page before it |

## Left out

- Fencing.GenerationsOnlyAdvance: speaks of fenced writers that keep or advance the generation; first inserts and other unfenced saves are not compare-and-swap, and which service writers qualify is stated exactly in `RestartAdvancesExactly` and `Decision.DecisionsAreDisciplined`.
- Admission.Admit: the handler itself is not modelled, and store reads that fail, which end an operation with an error, are not either.
- RoomTransport.AtMostOneRoom: what the roomserver makes of a second create event in a room that already exists is not modelled beyond leaving the room as it is; the repair of missing state and invites only succeeds or fails.
- Decision.ForeignWritesExactly: a local applicant is handed over to the retained-room join, whose own writes `RetainedJoin.dfy` covers.
- OperationStore.LeaseExcludesOthers: leases are compared with one database clock; nothing is claimed about processes whose clocks differ.
- Gate.NoDeadlock: waits on Matrix, the database and remote servers are taken to end; the MCP module enters the same gate and is not modelled separately.
- GroupAgent.OldRevisionsNeverPublish: a reply already in the room when the revision rises stays there; follows the database store, whose commit does not rewrite the body of a request as the in-memory store does.
- EventStream.Stream: stops where the handler would wait; heartbeats, flushes and the event payload are not modelled.
- PublicRooms.FilterRooms: case folding is a parameter; refreshing, de-duplicating, shuffling and sorting the cache are not modelled.
- Collisions of truncated SHA-256 identities and of name-based UUIDs are taken not to occur.
- GroupAgent.PublishSucceedsExactly: the length of a reply is counted in characters, where the code counts bytes.
- HTTP, JSON, TLS, routing, authentication and response hydration are plumbing around the modelled decisions.
- Profiles, presentation fields and metadata copying carry no hard property.
- The Matrix homeserver components taken over from upstream (sync, federation, media, state resolution), apart from push rules, the room directory and the conditional purge: they serve the Matrix protocol itself, and the properties above use them only through the answers of a probe, a join, a room creation or a list of members.
