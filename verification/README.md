# A verified model of the supervised-task store and its protocols

The bridge supervises one coding task between a user, a supervising model and Codex. Its durable state is a SQLite store
changed by about forty transactions, most of them revision-fenced. Around it run coordinators that await remote calls, so
that any other transaction may happen between two of their own. This project models the store, its transactions and these
coordinators, and proves what they keep over whole runs and over every interleaving.

## How it is organised

- `Model.dfy` has one record per table and `Store`, the tables of one task. A row's id is its position in its table.
- `ExecutionTx`, `WorkspaceTx`, `AgentTx`, `MemoryTx`, `CheckpointTx` and `ReplanTx` specify each transaction as a function
  from a store to a new store or an error. `Steps.dfy` makes them one step relation with runs.
- `MemoryStore.dfy` is the store object. Its methods, with those of `ExecutionStore`, `WorkspaceStore`, `AgentStore`,
  `CheckpointStore` and `ReplanStore`, run their statements on the database one after the other, loops, early exits and
  rollbacks included, and are proved against the specification functions. `StoreRuns.dfy` lifts this to runs.
- `RevisionProofs`, `OperationProofs`, `LogProofs`, `AuditProofs`, `LeaseProofs`, `ReplanProofs`, `PlanProofs`,
  `ReviewProofs` and `IndexProofs` hold the theorems about every run. `Invariants.dfy` joins the invariants and shows that
  every reachable store has them.
- `StartProtocol`, `PatchProtocol` and `ReplanProtocol` specify the coordinators against an arbitrary environment: a
  sequence of steps for each await, and a remote answer. `Coordinators.dfy` has the coordinator objects, proved against
  them. `StartProofs` has the theorems about one start; `ConcurrentStarts` lets any number of starts interleave step by
  step, and `InterruptWaits` any number of replan calls.
- `StartRules`, `LeaseRules`, `ReplanRules`, `WorkspaceRules`, `PatchRules`, `MemoryRules`, `ReportRules`, `TriggerRules`,
  `TextRules`, `PackRules`, `EventRules` and `RefusalRules` say of every decision when exactly it is taken and what it
  writes, on rows, words and characters alone: they do not go by the predicates the transactions are written with.
- `TenureProofs` and `ReplanGates` settle what an unreconciled hard replan does and does not hold back.
- `Text`, `Progress`, `Collection` and `ContextPack` model plan normalisation, checkpoint classification and collection,
  and the context budget.

Timestamps, random ids, the remote side and the other users of the store are parameters or insertion order. One `_write`
block is one atomic step. The SHA-256 fingerprint is taken as injective, the regular expressions as arbitrary predicates.

## Where the code does less than its documentation or a reader may expect

The model follows the code; each point is a lemma.

- `docs/P6-hard-replan.md` (line 27) says that after an unconfirmed interrupt the task must be reconciled before a new
  writer is allowed. The lease guards look at terminal phases only. `TenureProofs.FailedInterruptAdmitsExactly` says when
  the rule does hold, over all continuations; `ReplanGates.BlockedTaskAdmitsWriter` and `BlockedTaskAdmitsHandoff` are
  inputs on which it fails.
- The same document (line 103) says that no new implementation may start meanwhile. `ReplanGates.StartReachableExactly`
  says when that holds, `StartOnBlockedTask` is an input; approvals are not held back at all
  (`ApprovalAcceptedExactly`, `ApprovalAlwaysReachable`). What does hold is that only a plan made after the override starts.
- `docs/P1-memory-core.md` (lines 157-167) says every mutation appends its event. `AuditProofs.UnloggedExactly` lists the
  transactions that do not; the interrupt retry is the only one of them that moves the revision
  (`UnloggedRevisionExactly`, and `ReplanGates.RetryLeavesNoEvent` for an input).
- A hard replan leaves the old goal in the task's search document, and nothing else does: `IndexProofs.GoalDocumentStep`.
- A rejected finalise leaves the replan INTERRUPT_PENDING until a new hard replan: `InterruptWaits.AbandonedExactlyUntil`.
- The safety row holds one compensation only: `ConcurrentStarts.OverlappingCompensationsClear`, and
  `SoleCompensationHolds` for what one compensation can rely on.
- The re-check of a start does not see a workspace stopped during the call: `StartProofs.UsableIffNothingPrepared`.

## Model

| member | source | states |
|---|---|---|
| StartProofs.StartFence | src/codex_supervisor_bridge/supervisor/agent_execution.py:244-292 | For every interleaving: a start whose call returned a handle ends bound iff the revision is still the gate's when the bind runs and the acknowledgement is known. |
| StartProofs.RecheckIsRevisionCheck | src/codex_supervisor_bridge/supervisor/agent_execution.py:188-242 | After any steps during the call, the list of stale reasons is empty iff the revision is unchanged and the acknowledgement is known: task fields, safety, runtime identity, writer, epoch, approved plan and plan content are implied. |
| StartProofs.RecheckOnSameTables | src/codex_supervisor_bridge/supervisor/agent_execution.py:188-242 | When the supervised tables are those of the gate, the only reason the re-check can give is the unknown acknowledgement. |
| StartProofs.BoundStartWrites | src/codex_supervisor_bridge/supervisor/agent_execution.py:328-416 | A bound start advanced the gate's revision by exactly one and wrote the runtime row; lease, plans, safety, decisions, constraints and goal are the ones the gate saw, and an execution start still holds the CODEX lease and the approved plan. |
| StartProofs.OneBindPerRevision | src/codex_supervisor_bridge/memory/codex_runtime.py:82-111 | Of all runtime binds of a run that carry the same expected revision at most one is accepted. |
| StartProofs.OvertakenStartNotBound | src/codex_supervisor_bridge/supervisor/agent_execution.py:263-292 | A start during which another bind on its revision was accepted is never bound. |
| StartProofs.GateRefuses | src/codex_supervisor_bridge/supervisor/agent_execution.py:92-101 | No start passes its gate under the safety latch, on a workspace to be reconciled, or (execution) with a tenure that has ended. |
| StartProofs.NoStartAfterReconciliation | src/codex_supervisor_bridge/supervisor/agent_execution.py:92-101 | Once the workspace requires reconciliation, no start passes its gate in any continuation. |
| StartProofs.CompensationVerdict | src/codex_supervisor_bridge/supervisor/agent_execution.py:103-186 | A start that passed its gate and was not bound leaves the safety row with its own handle: NONE iff the interrupt was confirmed, RECONCILIATION_REQUIRED otherwise; the error raised matches, and the revision has moved. Which answers confirm: `StartRules.CompensatedExactly`. |
| StartProofs.LatchClearedExactlyBy | src/codex_supervisor_bridge/memory/agent_safety.py:68-272 | A safety latch is cleared by a transaction iff it records a confirmed compensation or reconciles by hand on the current revision. |
| StartProofs.LatchHolds | src/codex_supervisor_bridge/memory/agent_safety.py:59-142 | In every run without such a transaction the latch stays set, writer, epoch and mode are frozen, no direct operation is prepared, and no start of any kind passes its gate. |
| StartProofs.QuietStartIsUsable | src/codex_supervisor_bridge/supervisor/agent_execution.py:244-292 | With no direct operation PREPARED at the gate, a bound start never ends on a workspace that requires reconciliation. |
| StartProofs.UsableIffNothingPrepared | src/codex_supervisor_bridge/supervisor/agent_execution.py:188-242 | The re-check does not look at the workspace: a start with a known acknowledgement is sure, over all environments, to be bound only with a usable workspace iff no direct operation is PREPARED at its gate. |
| StartProofs.ExecutionStartUsable | src/codex_supervisor_bridge/supervisor/agent_execution.py:342-351 | An execution start that is bound never ends on a workspace that requires reconciliation: its gate excludes a PREPARED operation. |
| StartProofs.MarkedDuringCall | src/codex_supervisor_bridge/memory/workspace.py:391-439 | The failing schedule: a PREPARED operation marked during the call stops the workspace, and the start is bound all the same. |
| ConcurrentStarts.ActsKeep | src/codex_supervisor_bridge/supervisor/agent_execution.py:244-416 | Any number of starts, each a program counter with the store its gate saw, interleaved with every transaction: every start in flight stays fenced from its gate's store, and no two bound starts share a revision. |
| ConcurrentStarts.OneBoundPerRevision | src/codex_supervisor_bridge/supervisor/agent_execution.py:263-292 | From no starts, however starts and transactions interleave, at most one start ends bound on any revision. |
| ConcurrentStarts.MachineFence | src/codex_supervisor_bridge/supervisor/agent_execution.py:188-242 | In every reachable interleaving a start goes on to its bind iff the revision is the one its gate saw and the acknowledgement is known, and the bind takes effect iff that is still so. |
| ConcurrentStarts.RecheckOfTracked | src/codex_supervisor_bridge/supervisor/agent_execution.py:188-242 | For a start in flight the re-check is the revision check plus the acknowledgement, whatever the other starts do. |
| ConcurrentStarts.MachineLatchClearedExactlyBy | src/codex_supervisor_bridge/supervisor/agent_execution.py:103-186 | In the machine a set latch is cleared by an action iff it is a clearing transaction or the confirmed interrupt of a compensating start. Which answers confirm: `StartRules.AnsweredExactly`. |
| ConcurrentStarts.CompensationLatches | src/codex_supervisor_bridge/supervisor/agent_execution.py:103-128 | A start that goes over to compensation leaves the latch set. |
| ConcurrentStarts.SoleCompensationHolds | src/codex_supervisor_bridge/supervisor/agent_execution.py:103-186 | While exactly one start is compensating and nobody records a success or reconciles, safety stays set at every point and no start passes its gate. |
| ConcurrentStarts.OverlappingCompensationsClear | src/codex_supervisor_bridge/memory/agent_safety.py:68-142 | Schedule of two starts on one revision, both with unknown acknowledgements: the first confirmed interrupt clears the latch while the second start still waits for its own. |
| ConcurrentStarts.SpentRevisionNeverBinds | src/codex_supervisor_bridge/supervisor/agent_execution.py:263-292 | A start that is not bound when its revision is spent is not bound in any continuation. |
| OperationProofs.RunKeepsOperations | src/codex_supervisor_bridge/memory/workspace.py:243-603 | In every run at most one direct operation is PREPARED; while it is, CHATGPT holds the lease at its epoch, the mode is not CODEX_SUPERVISED, the binding is ACTIVE and its prepared revision is not ahead; SUCCEEDED means completed_revision = prepared_revision + 1. |
| OperationProofs.StabilityIsRevisionEquality | src/codex_supervisor_bridge/memory/workspace.py:482-488 | With the operation's own epoch the four-part stability test is revision equality. |
| OperationProofs.CompletionByRevision | src/codex_supervisor_bridge/memory/workspace.py:482-603 | Completing an operation in flight succeeds iff the revision is its prepared revision; otherwise operation and workspace require reconciliation and the task row is untouched. |
| OperationProofs.SucceedsIffUntouched | src/codex_supervisor_bridge/memory/workspace.py:243-603 | From prepare, through any steps, to completion: SUCCEEDED iff the supervised tables are those left by prepare, with completed_revision = expected + 2; otherwise RECONCILIATION_REQUIRED for operation and workspace and an unchanged task row. |
| OperationProofs.PreparedFactsFixed | src/codex_supervisor_bridge/memory/workspace.py:358-603 | An operation row keeps its epoch and prepared revision for good, and a finished row never changes again. |
| OperationProofs.ReconciliationAbsorbs | src/codex_supervisor_bridge/memory/execution.py:109-116 | Once the workspace is RECONCILIATION_REQUIRED every continuation keeps it so, with the binding identity, writer, epoch, mode and all operations unchanged and none PREPARED; only the policy and Git facts may move. |
| OperationProofs.LatchFreezesLease | src/codex_supervisor_bridge/memory/execution.py:89-98 | While safety is not NONE no transaction changes writer, epoch or mode and none prepares a direct operation. |
| OperationProofs.LatchDoomsOperations | src/codex_supervisor_bridge/memory/workspace.py:260-267 | A direct operation still PREPARED when the latch is set never ends SUCCEEDED, whatever follows. |
| RevisionProofs.StepRevision | src/codex_supervisor_bridge/memory/store.py:207-253 | Every transaction either leaves the supervised tables and the revision as they were or strictly increases the revision. |
| RevisionProofs.RunRevision | src/codex_supervisor_bridge/memory/store.py:207-253 | The same over whole runs: the revision never decreases, and if it did not move the supervised tables did not. |
| RevisionProofs.EqualRevisionsEqualTables | src/codex_supervisor_bridge/memory/store.py:207-253 | Equal revisions at two points of a run mean equal task row, lease, handoffs, safety, runtime, plans, decisions and constraints. |
| RevisionProofs.StepExpectation | src/codex_supervisor_bridge/memory/store.py:123-127 | A transaction with an expected revision takes effect only on exactly that revision. |
| RevisionProofs.RevisionSpentOnce | src/codex_supervisor_bridge/memory/store.py:207-253 | No two effective mutations of a run were based on the same revision. |
| LogProofs.LogRebuildsTables | src/codex_supervisor_bridge/memory/store.py:166-205 | In every run, folding the event log from the initial values gives exactly the writer, epoch, mode, policy, every plan, decision and constraint status and the intent and plan versions the tables hold, and the log only grows. |
| LogProofs.AnyEventFaithfulExactly | src/codex_supervisor_bridge/memory/store.py:332-343 | Recording a free event type keeps the log faithful to the tables iff the event is redundant: it says nothing that the tables do not hold already. |
| LogProofs.StepAppends | src/codex_supervisor_bridge/memory/store.py:166-205 | What one transaction appends tells a reader exactly what it did to those tables. |
| LogProofs.ApproveAppends | src/codex_supervisor_bridge/memory/store.py:762-797 | The PLAN_SUPERSEDED events and the PLAN_APPROVED event of an approval replay to the new plan statuses. |
| LogProofs.BeginAppends | src/codex_supervisor_bridge/memory/replans.py:391-439 | The events of a hard replan replay to the new intent version, the withdrawn plans and the withdrawn dispositions. |
| LogProofs.ClassifyAppends | src/codex_supervisor_bridge/memory/replans.py:586-657 | The two events of a classification replay to the new decision. |
| AuditProofs.RunIsChronological | src/codex_supervisor_bridge/memory/store.py:166-205 | In every run event revisions never decrease, none is ahead of the task, and every grant of automatic delegation was logged for the USER. |
| AuditProofs.EveryRevisionLogged | src/codex_supervisor_bridge/memory/replan_bindings.py:37-55 | Every revision of a run is carried by an event or was made by an interrupt retry, the one revision-moving transaction without an event. |
| AuditProofs.UnloggedExactly | src/codex_supervisor_bridge/memory/store.py:102-205 | A transaction that changed something left the log alone iff it observes the workspace, annotates, marks or unstably completes a direct operation, binds or completes a replan, or retries an interrupt. |
| AuditProofs.UnloggedRevisionExactly | src/codex_supervisor_bridge/memory/replan_bindings.py:37-55 | A transaction moved the revision without an event iff it is an accepted interrupt retry. |
| AuditProofs.StepStamps | src/codex_supervisor_bridge/memory/store.py:207-253 | Each transaction's events are stamped in order between the old and the new revision and mention every revision it made. |
| LeaseProofs.RunKeepsLease | src/codex_supervisor_bridge/memory/execution.py:144-489 | In every run writer and mode are compatible, acquired_revision is null iff there is no writer and otherwise not ahead, and the epoch never decreases. |
| LeaseProofs.EpochCountsTenures | src/codex_supervisor_bridge/memory/execution.py:267-295 | The epoch is the number of acquisitions and handoffs in the log. |
| LeaseProofs.EndedForGood | src/codex_supervisor_bridge/memory/execution.py:267-349 | No ABA: a tenure (writer, epoch) that is over stays over in every continuation. |
| LeaseProofs.TenureOnce | src/codex_supervisor_bridge/memory/execution.py:267-349 | Once a held tenure was left at some point of a run, it is over at every later point. |
| LeaseProofs.EndedTenureRejected | src/codex_supervisor_bridge/memory/execution.py:324-419 | A release, handoff or prepare that names an ended tenure is rejected and changes nothing. |
| LeaseProofs.AllowedMeansGranted | src/codex_supervisor_bridge/memory/execution.py:204-235 | A log that replays to SUPERVISOR_ALLOWED contains a USER grant with no MANUAL_ONLY after it. |
| LeaseProofs.DelegationIsGranted | src/codex_supervisor_bridge/memory/execution.py:119-141 | From a new task, a Codex lease given in HYBRID mode to anyone but the user without explicit authorisation is preceded by such a standing grant. |
| ReplanProofs.RunKeepsReplans | src/codex_supervisor_bridge/memory/replans.py:160-685 | In every run each replan owns its own snapshot, target = from + 1, targets strictly increase, only the newest replan can be active, classified/unclassified follows the status, and KEEP, MODIFY and DROP are pairwise disjoint. |
| ReplanProofs.StepMoves | src/codex_supervisor_bridge/memory/replans.py:443-685 | One transaction moves a replan only along the status graph (COMPLETED and SUPERSEDED have no way out) and never touches targets, ownership or captured facts. |
| ReplanProofs.AtMostOneActive | src/codex_supervisor_bridge/db/schema.py:289-294 | Two active replans are the same row, the newest: the partial unique index never fires. |
| ReplanProofs.ReplanHistoryFixed | src/codex_supervisor_bridge/memory/replans.py:179-189 | In every continuation captured facts and targets are unchanged and a COMPLETED or SUPERSEDED replan keeps its status. |
| PlanProofs.VersionsAndApproval | src/codex_supervisor_bridge/memory/store.py:672-810 | In every run plan versions are exactly 1..plan_version and a plan that is APPROVED is the one `approved_plan` selects. |
| PlanProofs.RunKeepsPlans | src/codex_supervisor_bridge/memory/store.py:672-863 | In every run each plan points at its own PLAN_CREATED event, and a live plan was created at or after every replan's target intent. |
| PlanProofs.RetiredForGood | src/codex_supervisor_bridge/memory/store.py:741-787 | A REJECTED or SUPERSEDED plan never changes again. |
| PlanProofs.BeginRetiresPlans | src/codex_supervisor_bridge/memory/replans.py:313-334 | A hard replan leaves no DRAFT or APPROVED plan. |
| PlanProofs.NoPlanRevival | src/codex_supervisor_bridge/memory/replans.py:229-236 | Any plan APPROVED after a hard replan was created after it, by an event whose intent version is at least the replan's target. |
| PlanProofs.ApprovalDuringReplan | src/codex_supervisor_bridge/memory/store.py:733-810 | An input: a plan drafted right after the override is approved while the interrupt is pending. |
| ReviewProofs.ReviewIsAStack | src/codex_supervisor_bridge/memory/checkpoint_reviews.py:44-91 | In every run sequences are contiguous from 1, fingerprints are unique, each review is later than its checkpoint, and reading the log's checkpoint events as pushes and pops gives exactly the queue of unreviewed checkpoints. |
| ReviewProofs.ReviewPops | src/codex_supervisor_bridge/memory/checkpoint_reviews.py:68-80 | A review removes exactly the newest element of the queue. |
| ReviewProofs.CreatePushes | src/codex_supervisor_bridge/memory/checkpoint_store.py:107-163 | Creation pushes a review-requiring checkpoint on the queue; a heartbeat or a duplicate leaves it alone. |
| IndexProofs.RunKeepsIndex | src/codex_supervisor_bridge/memory/store.py:1103-1138 | In every run each plan, decision and constraint has exactly one document with its current title, content and status, no stray ones exist, and with FTS the full-text rows of a key are exactly its document's title and content. |
| IndexProofs.PutKeepsFts | src/codex_supervisor_bridge/memory/store.py:1103-1138 | An upsert keeps the full-text rows in agreement with the documents for every key. |
| IndexProofs.OverrideLeavesGoalDocument | src/codex_supervisor_bridge/memory/replans.py:336-346 | A hard replan does not re-index the goal: the task document stays right iff the stripped new goal is the goal the task already had. |
| IndexProofs.GoalDocumentStep | src/codex_supervisor_bridge/memory/store.py:345-369 | Any one transaction keeps the task document right iff it is not an accepted hard replan with a new goal. |
| IndexProofs.GoalDocumentRun | src/codex_supervisor_bridge/memory/store.py:345-369 | In every run without such a replan the task document shows the current goal. |
| Invariants.NewStoreSound | src/codex_supervisor_bridge/memory/store.py:255-301 | A new task satisfies all the invariants above. |
| Invariants.RunKeepsSound | src/codex_supervisor_bridge/memory/store.py:102-112 | Every run keeps them. |
| Invariants.ReachableSound | src/codex_supervisor_bridge/memory/store.py:102-112 | Every store reachable from a new task satisfies them. |
| PatchProtocol.PatchFence | src/codex_supervisor_bridge/supervisor/direct_workspace.py:186-289 | For every interleaving: a patch that was written is reported applied iff nothing advanced the revision since prepare; otherwise operation and workspace require reconciliation and the task row is untouched. |
| PatchProtocol.UnconfirmedPatchStops | src/codex_supervisor_bridge/supervisor/direct_workspace.py:235-245 | A patch whose outcome is unknown marks the operation, stops the workspace for every continuation, and moves neither the revision nor the log. |
| PatchProtocol.LostPatchChangesNothing | src/codex_supervisor_bridge/memory/workspace.py:400-412 | An operation that somebody else settled meanwhile is left as it is. |
| PatchProtocol.LatchedPatchNotApplied | src/codex_supervisor_bridge/supervisor/direct_workspace.py:186-289 | A patch overtaken by the safety latch at any point is not reported as applied. |
| PatchProtocol.OpenBindsOrCloses | src/codex_supervisor_bridge/supervisor/direct_workspace.py:75-129 | A freshly opened remote workspace stays open iff it was bound, which happens iff the revision is the gate's, the identifiers are not blank and the old binding is the same one, or is neither stopped nor under a writer; otherwise it is closed again and the store is as the others left it. |
| ReplanProtocol.InterruptFence | src/codex_supervisor_bridge/supervisor/replans.py:50-104 | Finalising takes effect iff nothing advanced the revision during the interrupt; then SNAPSHOT_READY iff the interrupt returned or there was nothing to interrupt, else INTERRUPT_FAILED; a rejected finalise leaves the store exactly as the intervening steps left it. |
| ReplanProtocol.BeginFence | src/codex_supervisor_bridge/supervisor/replans.py:24-104 | The same for `begin`, fenced from the revision that withdrew the old plans. On the runtime row: `ReplanRules.BeginServiceExactly`. |
| ReplanProtocol.RetryFence | src/codex_supervisor_bridge/supervisor/replans.py:106-177 | The same for `retry_interrupt`, accepted only from INTERRUPT_FAILED. |
| InterruptWaits.WaitEndsExactlyBy | src/codex_supervisor_bridge/memory/replans.py:443-483 | A waiting replan leaves INTERRUPT_PENDING by a transaction iff that is an accepted hard replan or an accepted finalise of this replan. |
| InterruptWaits.WaitsExactlyUntil | src/codex_supervisor_bridge/memory/replans.py:443-483 | Over runs: the replan waits at every point iff no step of the run is one of those. |
| InterruptWaits.PerformsKeep | src/codex_supervisor_bridge/supervisor/replans.py:24-177 | Calls of the service in flight, interleaved with every other transaction: each open call's replan is INTERRUPT_PENDING or SUPERSEDED, and no two open calls share a replan. |
| InterruptWaits.AnswerFence | src/codex_supervisor_bridge/memory/replans.py:463-466 | While its replan waits, a call's finalise is accepted iff the revision is the one its wait began with. |
| InterruptWaits.RejectedMeansAbandoned | src/codex_supervisor_bridge/supervisor/replans.py:56-104 | A rejected finalise leaves the store as it is, and its waiting replan with no call that could finalise it. |
| InterruptWaits.AbandonedExactlyUntil | src/codex_supervisor_bridge/memory/replan_bindings.py:27-36 | Such a replan goes on waiting iff the next action is not an accepted hard replan, which supersedes it; every retry, of whichever replan, is refused. |
| InterruptWaits.AbandonedUntilNewReplan | src/codex_supervisor_bridge/supervisor/replans.py:24-177 | The same over every interleaving: no finalise still in flight can help, only a new hard replan. |
| TenureProofs.TenureAcceptedExactly | src/codex_supervisor_bridge/memory/execution.py:245-419 | At any point, whatever the replans, an acquisition or handoff is accepted iff it names the current revision, the phase is not terminal and the lease guards hold. On the permission table: `LeaseRules.AcquiredExactly`, `HandedOverExactly`. |
| TenureProofs.TenureIgnoresReplans | src/codex_supervisor_bridge/memory/execution.py:84-116 | The decision is the same on every other replan table and in every other phase that is not terminal: BLOCKED plays no part. |
| TenureProofs.TenureAfterFailedInterrupt | src/codex_supervisor_bridge/memory/execution.py:84-116 | Right after a failed interrupt the task is BLOCKED, and an acquisition or handoff on its revision is accepted iff the lease guards held before. On the table: `LeaseRules.TenureAfterFailureExactly`. |
| TenureProofs.TenureReachableExactly | src/codex_supervisor_bridge/memory/execution.py:109-116 | From any point a continuation that leaves every replan as it is comes to a new tenure iff the workspace is not stopped and no direct operation has gone stale in flight. |
| TenureProofs.FailedInterruptAdmitsExactly | src/codex_supervisor_bridge/memory/execution.py:84-116 | After a failed interrupt no new writer is admitted, in all continuations with the replan still INTERRUPT_FAILED, iff the workspace was stopped or a direct operation in flight when the interrupt was finalised. |
| TenureProofs.WedgedForGood | src/codex_supervisor_bridge/memory/workspace.py:482-515 | A stopped workspace, or an operation in flight behind the revision, stays so or ends stopped in every continuation. |
| TenureProofs.WedgedRefuses | src/codex_supervisor_bridge/memory/execution.py:109-116 | In such a store every acquisition and handoff is refused and no execution start passes its gate. |
| ReplanGates.ApprovalAcceptedExactly | src/codex_supervisor_bridge/memory/store.py:733-765 | Whatever replan is active, approval is accepted iff the plan is a DRAFT and the revision current; and then the plan was created at or after the target intent of every replan. |
| ReplanGates.ApprovalAlwaysReachable | src/codex_supervisor_bridge/memory/store.py:672-810 | From every store, with the replans as they are, a plan can be drafted and approved. |
| ReplanGates.StartGateExactly | src/codex_supervisor_bridge/supervisor/agent_execution.py:342-377 | An execution gate opens iff revision, safety, lease and plan checks pass; about an active replan this says only that the plan was created after every override. On the rows and texts: `StartRules.ExecutionGateOpensExactly`. |
| ReplanGates.StartGateIgnoresReplans | src/codex_supervisor_bridge/supervisor/agent_execution.py:342-377 | The gate answers the same on every other replan table. |
| ReplanGates.StartReachableExactly | src/codex_supervisor_bridge/supervisor/agent_execution.py:92-101 | With the replan still INTERRUPT_PENDING or INTERRUPT_FAILED, or any other, an execution start can still pass its gate iff the workspace is not stopped and no direct operation has gone stale in flight. |
| ReplanGates.BlockedTaskAdmitsWriter | src/codex_supervisor_bridge/memory/execution.py:84-116 | Input on a new task: override, failed interrupt, and CHATGPT acquires the lease of the BLOCKED task. |
| ReplanGates.BlockedTaskAdmitsHandoff | src/codex_supervisor_bridge/memory/execution.py:84-116 | Input: with CHATGPT writing every acquisition is refused on the BLOCKED task, but the lease can be handed to CODEX. |
| ReplanGates.StartOnBlockedTask | src/codex_supervisor_bridge/supervisor/agent_execution.py:342-377 | Input: on the BLOCKED task of a new task's failed interrupt an execution start passes its gate after four more transactions. |
| ReplanGates.RetryLeavesNoEvent | src/codex_supervisor_bridge/memory/replan_bindings.py:37-55 | Input: an accepted retry moves the revision and leaves no event. |
| StartRules.CompensatedExactly | src/codex_supervisor_bridge/supervisor/agent_execution.py:103-186 | A gated start that is not bound ends with safety NONE and a stale-context error iff the interrupt returned, its snapshot needs no reconciliation and its stripped lower-case status is one of the eight success words; on every other answer reconciliation is required and the compensation stays open. |
| StartRules.CompensationRecord | src/codex_supervisor_bridge/supervisor/agent_execution.py:103-186 | Latch and final row carry the handle's identity, the operation's name and the summary that fits the answer: confirmed, call failed, or outcome unknown. |
| StartRules.AnsweredExactly | src/codex_supervisor_bridge/supervisor/agent_execution.py:103-186 | In the interleaving machine as well an answer clears the row exactly when it is such a stop. |
| StartRules.PlanGateOpensExactly | src/codex_supervisor_bridge/supervisor/agent_execution.py:244-256 | A plan gate opens iff the revision is the current one, safety is NONE or absent, the workspace is not stopped and the runtime's status is none of the six active words. |
| StartRules.ExecutionGateOpensExactly | src/codex_supervisor_bridge/supervisor/agent_execution.py:342-377 | An execution gate opens iff revision, safety and workspace pass, CODEX holds the named tenure, the plan is the approved one, the runtime row exists and does not contradict the handle's identifiers, handle and result are usable, and reviewed and approved text agree line by line. |
| StartRules.BindsExactly | src/codex_supervisor_bridge/supervisor/agent_execution.py:257-292 | A gated start binds iff no step of the environment moved the revision and the acknowledgement is none of the three unknown words and asks for no reconciliation. |
| StartRules.ReasonsExactly | src/codex_supervisor_bridge/supervisor/agent_execution.py:188-242 | Each stale reason about revision, safety, runtime and acknowledgement is in the list iff its condition holds; beyond the task's and the lease's reasons there are no others. |
| StartRules.TaskReasonsExactly | src/codex_supervisor_bridge/supervisor/agent_execution.py:206-208 | Each of the five reasons about the task row is given iff that column changed. |
| StartRules.LeaseReasonsExactly | src/codex_supervisor_bridge/supervisor/agent_execution.py:219-234 | Each of the six reasons about lease and plan is given iff its condition holds; the plan's content is compared line by line. |
| StartRules.RuntimeBindingExactly | src/codex_supervisor_bridge/memory/codex_runtime.py:49-165 | A bind is accepted iff its event is known and the revision current; field by field the supplied value wins and a missing one leaves the stored one, in the runtime row and in the task row. |
| StartRules.BoundRows | src/codex_supervisor_bridge/supervisor/agent_execution.py:398-413 | What a bound start leaves in the runtime and task rows: the handle's status and identifiers, phase and state by operation; an execution falls back on the reviewed plan's workflow and thread. |
| LeaseRules.PermittedExactly | src/codex_supervisor_bridge/memory/execution.py:119-141 | The permission table: CHATGPT in DIRECT and HYBRID, CODEX in CODEX_SUPERVISED whatever actor and policy, CODEX in HYBRID under SUPERVISOR_ALLOWED, for the user or with authorisation. |
| LeaseRules.AcquiredExactly | src/codex_supervisor_bridge/memory/execution.py:245-302 | An acquisition is accepted iff revision, phase, rest and a free lease allow it and the table does; it opens the next epoch at the new revision. |
| LeaseRules.HandedOverExactly | src/codex_supervisor_bridge/memory/execution.py:359-489 | A handoff is accepted iff it names the holder's tenure, another receiver and a reason and the table admits the receiver; the record holds from, to, actor, stripped reason, versions and HEAD. |
| LeaseRules.ReleasedExactly | src/codex_supervisor_bridge/memory/execution.py:305-356 | A release is accepted iff it names the holder's tenure on the current revision at rest; it keeps the epoch. |
| LeaseRules.ModeSetExactly | src/codex_supervisor_bridge/memory/execution.py:144-193 | A mode change is accepted iff the task is at rest and its holder could hold the lease in the new mode; setting the same mode only needs the revision. |
| LeaseRules.PolicySetExactly | src/codex_supervisor_bridge/memory/execution.py:196-242 | Only the user grants delegation, anyone takes it back, and setting the same policy moves nothing. |
| LeaseRules.TenureAfterFailureExactly | src/codex_supervisor_bridge/memory/execution.py:84-141 | On a BLOCKED task acquisitions and handoffs go by the same guards and the same table. |
| ReplanRules.BeginCapturesExactly | src/codex_supervisor_bridge/memory/replans.py:229-270 | The work snapshot is the store before the override: the runtime row's identifiers or else the task's thread and turn, remote status, versions, goal, phase, Git facts, newest live plan, and the newest checkpoint's files, validation and evidence. |
| ReplanRules.BeginServiceExactly | src/codex_supervisor_bridge/supervisor/replans.py:24-104 | In terms of the runtime row: with an identifier to address and an undisturbed wait the replan ends SNAPSHOT_READY iff the interrupt returned, else INTERRUPT_FAILED; without one it is ready at once; a disturbed wait is rejected and writes nothing. |
| ReplanRules.BeginAcceptedExactly | src/codex_supervisor_bridge/memory/replans.py:168-176 | A hard replan is accepted iff goal and reason are not blank and the revision is current. |
| ReplanRules.BeginWritesExactly | src/codex_supervisor_bridge/memory/replans.py:336-390 | The task row, the replan row and the runtime marker of an override; workspace, lease, operations and safety stay. |
| ReplanRules.BeginWithdrawsExactly | src/codex_supervisor_bridge/memory/replans.py:179-334 | An override withdraws exactly the classifications in force, the live plans and the replans that are not completed, and keeps everything else of those rows. |
| ReplanRules.ErrorRecorded | src/codex_supervisor_bridge/supervisor/replans.py:50-104 | After an undisturbed wait the replan holds the interrupt's error text, and none when it returned. |
| ReplanRules.UnexpectedWording | src/codex_supervisor_bridge/supervisor/replans.py:24-177 | An unexpected failure is recorded in the words of the call it happened in. |
| ReplanRules.RetryServiceExactly | src/codex_supervisor_bridge/supervisor/replans.py:106-177 | The same as for `begin`, from the facts captured when the replan began. |
| ReplanRules.FinalizeExactly | src/codex_supervisor_bridge/memory/replans.py:443-521 | Accepted iff the replan is INTERRUPT_PENDING on the current revision; status, phase, error and runtime marker follow success. |
| ReplanRules.ClassifyExactly | src/codex_supervisor_bridge/memory/replans.py:524-685 | Accepted iff KEEP, MODIFY and DROP share no item and the newest replan of the snapshot is SNAPSHOT_READY; each list is stored under its own name, two revisions and one decision follow, and no other replan moves. |
| ReplanRules.RetryExactly | src/codex_supervisor_bridge/memory/replan_bindings.py:10-55 | Accepted iff the replan is INTERRUPT_FAILED on the current revision; then it waits again, without the old error. |
| ReplanRules.WorkflowBoundExactly | src/codex_supervisor_bridge/memory/replan_bindings.py:58-83 | Only the newest READY_TO_PLAN replan changes, and without one nothing does. |
| ReplanRules.PlanReviewBoundExactly | src/codex_supervisor_bridge/memory/replan_bindings.py:86-115 | Only the newest replan in READY_TO_PLAN or PLANNING changes, and without one nothing does. |
| ReplanRules.CompletedExactly | src/codex_supervisor_bridge/memory/replan_bindings.py:118-142 | Only the newest replan under review of this very plan changes, and without one nothing does. |
| WorkspaceRules.BindExactly | src/codex_supervisor_bridge/memory/workspace.py:82-196 | An active binding to the same place is kept; any other is replaced iff it is not stopped, nobody writes and nothing is in flight. |
| WorkspaceRules.ObserveExactly | src/codex_supervisor_bridge/memory/workspace.py:199-240 | Given Git facts replace the stored ones one by one; identity, state, revision and log stay. |
| WorkspaceRules.PrepareExactly | src/codex_supervisor_bridge/memory/workspace.py:243-355 | Accepted iff CHATGPT holds the named tenure at rest on an ACTIVE workspace in a mode that lets it write; the row records digest, epoch, revision and the HEAD before. |
| WorkspaceRules.AnnotateExactly | src/codex_supervisor_bridge/memory/workspace.py:358-388 | Accepted iff the operation is PREPARED; given details win over stored ones and nothing else changes. |
| WorkspaceRules.MarkExactly | src/codex_supervisor_bridge/memory/workspace.py:391-439 | Accepted iff the operation is PREPARED and a binding exists; it stops both. |
| WorkspaceRules.CompletionRecords | src/codex_supervisor_bridge/memory/workspace.py:482-603 | In either case the operation records summary, change reference and the HEAD after the write, and keeps the HEAD before; the binding takes the result's Git facts. |
| WorkspaceRules.CompletionTask | src/codex_supervisor_bridge/memory/workspace.py:482-603 | The task row takes branch and HEAD of the result on success and is untouched otherwise. |
| WorkspaceRules.PatchEvidenceExactly | src/codex_supervisor_bridge/supervisor/direct_workspace.py:259-278 | A patch files the review's summary as evidence, or the warning when it needs reconciliation, at the task's revision. |
| MemoryRules.RecordedSafety | src/codex_supervisor_bridge/memory/agent_safety.py:68-229 | Each of the three records leaves its own state with the operation, the summary and the identity it was given. |
| MemoryRules.ReconciledSafety | src/codex_supervisor_bridge/memory/agent_safety.py:232-272 | Reconciling by hand clears the state and keeps operation and identity on record. |
| MemoryRules.KandevExactly | src/codex_supervisor_bridge/memory/kandev_binding.py:8-54 | The board task is bound once, and again only to the same id. |
| MemoryRules.IntentAndPhase | src/codex_supervisor_bridge/memory/store.py:345-393 | A new goal moves revision and intent version together; a phase change leaves the state that was not given. |
| MemoryRules.NewRows | src/codex_supervisor_bridge/memory/store.py:395-731 | A new decision, constraint or plan carries its text, the versions of its moment and the event that announces it. |
| MemoryRules.SupersededRows | src/codex_supervisor_bridge/memory/store.py:458-644 | Accepted iff the row is ACTIVE on the current revision; everything but status and successor stays. |
| MemoryRules.DecidedPlans | src/codex_supervisor_bridge/memory/store.py:733-863 | Approval retires exactly the approved plans and goes to IMPLEMENTING; rejection retires this draft only and goes to PLANNING. |
| MemoryRules.Observations | src/codex_supervisor_bridge/memory/store.py:895-1101 | Summaries, evidence and context rows never move the revision; a revision that is not there yet is refused. |
| MemoryRules.CheckpointExactly | src/codex_supervisor_bridge/memory/checkpoint_store.py:85-204 | A known fingerprint changes nothing; a new one is stored field by field, and only GATE or PROGRESS moves the task into SUPERVISOR_REVIEW. |
| MemoryRules.SequenceExactly | src/codex_supervisor_bridge/memory/checkpoint_store.py:121-163 | A new checkpoint's sequence is one more than the largest there is. |
| MemoryRules.ReviewExactly | src/codex_supervisor_bridge/memory/checkpoint_reviews.py:33-116 | Accepted iff it names the newest checkpoint awaiting review and a steer says something; the review row keeps the verdict, and each verdict sends the task to its own phase. |
| ReportRules.AgentTypeExactly | src/codex_supervisor_bridge/supervisor/checkpoints.py:313-345 | An agent snapshot is a GATE iff it has a pending interaction, a blocker, a gate status or "unknown", or failed validation; else PROGRESS iff it reports anything or its status changed; else a HEARTBEAT. |
| ReportRules.AgentRecordExactly | src/codex_supervisor_bridge/supervisor/checkpoints.py:347-382 | Status, next action, event count, fingerprint and every bounded list of the normalised agent snapshot. |
| ReportRules.ControlTypeExactly | src/codex_supervisor_bridge/supervisor/checkpoints.py:220-261 | A control-plane report is a GATE iff it has an error, an interaction, a gate status or an alarming event among the last twenty high-signal ones; else PROGRESS iff an event, a terminal success, a new status or a new next action says so; else a HEARTBEAT. |
| ReportRules.ContainsExactly | src/codex_supervisor_bridge/supervisor/checkpoints.py:146-156 | Substring search finds exactly the texts that occur at some position. |
| ReportRules.HighSignalExactly | src/codex_supervisor_bridge/supervisor/checkpoints.py:146-156 | An event is high-signal iff its text has a gate word or its lower-case method contains one of the six markers. |
| ReportRules.SelectedExactly | src/codex_supervisor_bridge/supervisor/checkpoints.py:146-156 | The selection keeps the high-signal events and no others, each once, in the order they came. |
| ReportRules.TalliedExactly | src/codex_supervisor_bridge/supervisor/checkpoints.py:191-218 | Where one event goes, for each of the eight lists. |
| ReportRules.EmptyListsExactly | src/codex_supervisor_bridge/supervisor/checkpoints.py:191-218 | A list stays empty iff no event belongs to it. |
| ReportRules.ControlListsExactly | src/codex_supervisor_bridge/supervisor/checkpoints.py:220-234 | What error, interactions and terminal success add to the lists of the events. |
| ReportRules.ValidationExactly | src/codex_supervisor_bridge/supervisor/checkpoints.py:236-239 | A validation verdict is there iff a check spoke, "failed" iff one failed, else "passed". |
| ReportRules.ControlRecordExactly | src/codex_supervisor_bridge/supervisor/checkpoints.py:263-301 | Status, next action, event count, fingerprint and every bounded list of the normalised control-plane report. |
| TextRules.StripExactly | src/codex_supervisor_bridge/supervisor/agent_execution.py:81-82 | Stripping removes the white space at both ends, all of it, and nothing else. |
| TextRules.SplitLinesExactly | src/codex_supervisor_bridge/supervisor/agent_execution.py:81-82 | Putting the breaks back gives the text again; no line holds a break and no carriage return is torn from its line feed. |
| TextRules.WordsExactly | src/codex_supervisor_bridge/supervisor/checkpoints.py:87-89 | The words hold no white space, none is empty, and together they are all the rest of the text. |
| PackRules.RenderedExactly | src/codex_supervisor_bridge/memory/context_pack.py:249-250 | A section is its title, a rule of dashes as long, and the body without outer blanks, each on its own line. |
| PackRules.JoinedExactly | src/codex_supervisor_bridge/memory/context_pack.py:214 | The mandatory text of two lists is that of the first, a blank line, and that of the second. |
| PackRules.TruncatedExactly | src/codex_supervisor_bridge/memory/context_pack.py:257-262 | A cut text keeps as much of the value as the limit leaves beside the marker, less blanks at its end. |
| PackRules.PlacedExactly | src/codex_supervisor_bridge/memory/context_pack.py:217-229 | One section, in lengths: whole iff it fits the target, else cut iff there is room for it, else omitted. |
| PackRules.ObservationExactly | src/codex_supervisor_bridge/supervisor/checkpoints.py:400-482 | A collection submits the normalised report with the source's identity, and evidence references for operation and workflow exactly when they are known. |
| EventRules.LeaseEvents | src/codex_supervisor_bridge/memory/execution.py:144-489 | Each lease transaction appends one event of its own kind and actor, stamped with the versions it leaves. |
| EventRules.WorkspaceEvents | src/codex_supervisor_bridge/memory/workspace.py:82-603 | The same for the workspace transactions. |
| EventRules.AgentEvents | src/codex_supervisor_bridge/memory/agent_safety.py:68-272 | The same for safety, runtime and board bindings. |
| EventRules.MemoryEvents | src/codex_supervisor_bridge/memory/store.py:332-393 | The same for override, intent and phase. |
| EventRules.LifecycleEvents | src/codex_supervisor_bridge/memory/store.py:458-863 | The same for decisions, constraints and plans. |
| EventRules.CheckpointEvents | src/codex_supervisor_bridge/memory/checkpoint_store.py:85-204 | The same for checkpoints and reviews. |
| EventRules.ClassifyEvents | src/codex_supervisor_bridge/memory/replans.py:586-657 | The two events of a classification, one for each of its two revisions, and the decision's source. |
| EventRules.BeginEvents | src/codex_supervisor_bridge/memory/replans.py:391-439 | The events of an override in order: the user's two, the withdrawn plans in one, the dispositions one by one. |
| EventRules.NewTaskExactly | src/codex_supervisor_bridge/memory/store.py:255-301 | A new task: HYBRID, MANUAL_ONLY, epoch 0, no writer, and one opening event, or two with a goal. |
| PatchRules.SentExactly | src/codex_supervisor_bridge/supervisor/direct_workspace.py:186-212 | A patch is sent iff it is not blank and CHATGPT holds the named tenure of an ACTIVE workspace at rest; one that is refused touches nothing. |
| PatchRules.PatchPrepared | src/codex_supervisor_bridge/supervisor/direct_workspace.py:194-203 | A sent patch left one more operation of type APPLY_PATCH with its digest, tenure, revision and the HEAD before. |
| PatchRules.WriteSettledExactly | src/codex_supervisor_bridge/supervisor/direct_workspace.py:235-278 | An operation in flight is marked with the unconfirmed summary when the adapter raised; otherwise evidence is filed with the summary or the reconciliation warning. |
| PatchRules.OpenExactly | src/codex_supervisor_bridge/supervisor/direct_workspace.py:84-107 | Opening is refused, or answered from the binding, in exactly these cases, and then changes nothing. |
| PatchRules.OpenedExactly | src/codex_supervisor_bridge/supervisor/direct_workspace.py:109-128 | An opened workspace is bound under the remote id and root, the chosen repository and the mode it came up in. |
| RefusalRules.LeaseRefusals | src/codex_supervisor_bridge/memory/execution.py:84-489 | Which error a lease transaction raises: bad arguments of a handoff before the revision, an acquisition by NONE after every other guard. |
| RefusalRules.WorkspaceRefusals | src/codex_supervisor_bridge/memory/workspace.py:82-603 | Blank arguments before the revision; an operation not in flight conflicts; only a mark without a binding misses a row. |
| RefusalRules.AgentRefusals | src/codex_supervisor_bridge/memory/agent_safety.py:68-272 | The compensation records are never refused; the binds refuse bad arguments, then the revision, then conflicts. |
| RefusalRules.LifecycleRefusals | src/codex_supervisor_bridge/memory/store.py:458-863 | An unknown row conflicts, a row in the wrong status is an invalid transition, and only then comes the revision. |
| RefusalRules.MemoryRefusals | src/codex_supervisor_bridge/memory/store.py:332-1101 | The other store transactions are refused by the revision alone, or for a revision that is not there yet. |
| RefusalRules.CheckpointRefusals | src/codex_supervisor_bridge/memory/checkpoint_reviews.py:44-80 | A steer without instruction is a bad value before the revision is read; the rest conflicts. |
| RefusalRules.ReplanRefusals | src/codex_supervisor_bridge/memory/replans.py:168-599 | Blank texts and overlapping lists are bad values before the revision; a replan in the wrong status conflicts. |
| TriggerRules.AgentReasonsExactly | src/codex_supervisor_bridge/supervisor/checkpoints.py:313-324 | An agent snapshot gives each of its four gate reasons iff it applies, and no other. |
| TriggerRules.EventReasonsExactly | src/codex_supervisor_bridge/supervisor/checkpoints.py:191-212 | The events give each of their three gate reasons iff one of them fails, reports a failed check, or uses a gate word, and no other. |
| TriggerRules.ControlReasonsExactly | src/codex_supervisor_bridge/supervisor/checkpoints.py:191-233 | A control-plane report gives each of its six gate reasons iff it applies to report or considered events. |
| TriggerRules.TriggersExactly | src/codex_supervisor_bridge/supervisor/checkpoints.py:252-261 | A gate is triggered by its first four distinct reasons joined; progress and heartbeat have their own wording. |
| TriggerRules.QuotedExactly | src/codex_supervisor_bridge/supervisor/checkpoints.py:223-234 | The report quotes the distinct kinds of the pending interactions and the terminal status. |
| TriggerRules.JoinExactly | src/codex_supervisor_bridge/supervisor/checkpoints.py:87-89 | Joining two lists puts the separator between their joins. |
| TriggerRules.KindsExactly | src/codex_supervisor_bridge/supervisor/checkpoints.py:224-228 | The kinds that are there, in order. |
| TriggerRules.ClipExactly | src/codex_supervisor_bridge/supervisor/checkpoints.py:87-89 | A clipped text is its words with single blanks, or a beginning of that less blanks at its end, and an ellipsis. |
| Text.NormalFormIdempotent | src/codex_supervisor_bridge/supervisor/agent_execution.py:81-82 | `_normalized_plan` is idempotent and does not see blanks around its input, for every text. |
| Text.LinesOfNormalized | src/codex_supervisor_bridge/supervisor/agent_execution.py:81-82 | The normal form splits back into exactly the trimmed lines it was built from. |
| Text.ContentGateIsLineEquality | src/codex_supervisor_bridge/supervisor/agent_execution.py:376-377 | The content gate accepts two texts iff their trimmed lines agree. |
| Progress.CollectUnique | src/codex_supervisor_bridge/supervisor/checkpoints.py:132-143 | The early-exit loop returns the first distinct stripped non-blank texts, cut at the limit. |
| Progress.Distinct | src/codex_supervisor_bridge/supervisor/checkpoints.py:132-143 | The result has no blank and no repeated text, and holds exactly the non-blank stripped values. |
| Progress.HighSignalEvents | src/codex_supervisor_bridge/supervisor/checkpoints.py:146-156 | The loop selects the last twenty high-signal events, in order. |
| Progress.NoiseIsIgnored | src/codex_supervisor_bridge/supervisor/checkpoints.py:146-156 | Inserting low-signal events anywhere does not change the selection. |
| Progress.TallyEvents | src/codex_supervisor_bridge/supervisor/checkpoints.py:196-227 | The classification loop fills its nine lists as the fold over the events does. |
| Progress.GateReasonsFromEvents | src/codex_supervisor_bridge/supervisor/checkpoints.py:196-219 | The events give a gate reason iff one of them failed, reports a failed check, or uses a gate word. |
| Progress.NoiseOnlyCounts | src/codex_supervisor_bridge/supervisor/checkpoints.py:159-301 | Inserting low-signal events anywhere changes nothing of the normalised progress but raw_event_count. |
| Progress.AgentFingerprintFixed | src/codex_supervisor_bridge/supervisor/checkpoints.py:304-366 | A snapshot's fingerprint is independent of the previous checkpoint iff it is a gate, has progress of its own, or has no status. |
| Progress.AgentObservationFixed | src/codex_supervisor_bridge/supervisor/checkpoints.py:304-366 | A gate or a snapshot with progress of its own normalises the same whatever the previous checkpoint and the clock. |
| Progress.ControlFingerprintFixed | src/codex_supervisor_bridge/supervisor/checkpoints.py:246-288 | The same on the control plane: independent iff gate, own progress, or neither status nor next action. |
| Progress.ControlObservationFixed | src/codex_supervisor_bridge/supervisor/checkpoints.py:246-301 | A gate or an operation with progress of its own normalises the same whatever the previous checkpoint and the clock. |
| Progress.ReportsTidy | src/codex_supervisor_bridge/supervisor/checkpoints.py:263-301 | Every text list of an agent report, and every list but next_steps of a control-plane report, is distinct, stripped, non-blank and at most twelve long. |
| Progress.ControlNextStepsTidyExactly | src/codex_supervisor_bridge/supervisor/checkpoints.py:263-301 | The next_steps of a control-plane report are tidy iff the next action is absent or already stripped. |
| Progress.NormalizeAgentSnapshot | src/codex_supervisor_bridge/supervisor/checkpoints.py:304-382 | The method builds its gate reasons test by test and returns the specified normalised progress. |
| Progress.NormalizeProgressSnapshot | src/codex_supervisor_bridge/supervisor/checkpoints.py:159-301 | The method runs its loops and returns the specified normalised progress. |
| Progress.Clip | src/codex_supervisor_bridge/supervisor/checkpoints.py:87-89 | A clipped text is never longer than the limit. |
| Collection.CheckpointService.Collect | src/codex_supervisor_bridge/supervisor/checkpoints.py:400-482 | Observes, normalises against the latest checkpoint and stores, with the revision read before the observation. |
| Collection.CollectFence | src/codex_supervisor_bridge/supervisor/checkpoints.py:400-482 | Collecting is rejected iff something moved the revision during the observation, and then changes nothing; otherwise it adds at most one checkpoint and one revision. |
| Collection.CollectedOnce | src/codex_supervisor_bridge/memory/checkpoint_store.py:110-119 | A stored self-contained observation is never stored again, however much happens between and during the collections. |
| Collection.PollStoresOnce | src/codex_supervisor_bridge/memory/checkpoint_store.py:110-163 | Any number of polls of a self-contained observation leaves one checkpoint and one revision bump at most. |
| Collection.RecordedForGood | src/codex_supervisor_bridge/memory/checkpoint_store.py:110-119 | A fingerprint once recorded stays recorded in every run. |
| Collection.HeartbeatsCollapse | src/codex_supervisor_bridge/supervisor/checkpoints.py:283-285 | Two heartbeats of one observation have the same fingerprint iff they fall into the same bucket. |
| Collection.HeartbeatOnlyObserves | src/codex_supervisor_bridge/memory/checkpoint_store.py:124-134 | Storing a heartbeat changes neither the task row nor the review queue. |
| ContextPack.NewBudget | src/codex_supervisor_bridge/memory/context_pack.py:38-49 | A builder exists iff 0 < target <= hard maximum. |
| ContextPack.PackBudget | src/codex_supervisor_bridge/memory/context_pack.py:212-231 | The mandatory text is a prefix of the Context Pack, which is at most as long as the hard maximum or the mandatory text, and beyond the hard maximum it is exactly the mandatory text. |
| ContextPack.PackTells | src/codex_supervisor_bridge/memory/context_pack.py:214-231 | The Context Pack is the mandatory text followed, in order, by every optional section: whole unless its title is reported truncated, and then cut or omitted. |
| ContextPack.NothingTruncatedIffFits | src/codex_supervisor_bridge/memory/context_pack.py:214-231 | Nothing is reported truncated iff the text with every section whole fits the target; then that text is the Context Pack. |
| ContextPack.TruncationBound | src/codex_supervisor_bridge/memory/context_pack.py:257-262 | A cut text ends with the marker and is at most as long as the limit or the marker. |
| ContextPack.ContextPackBuilder.Fill | src/codex_supervisor_bridge/memory/context_pack.py:214-231 | The budget loop computes the specified Context Pack. |
| ContextPack.ContextPackBuilder.Build | src/codex_supervisor_bridge/memory/context_pack.py:212-242 | Joins the mandatory sections, fills the budget, estimates tokens, and saves the Context Pack only when asked to. |
| MemoryStores.MemoryStore.constructor | src/codex_supervisor_bridge/memory/store.py:255-301 | A created task: the rows, one or two opening events and the task document, built by inserting, logging and indexing. |
| MemoryStores.MemoryStore.InsertEvent | src/codex_supervisor_bridge/memory/store.py:166-205 | One more event, stamped with the three versions of the task row as it is then; nothing else moves. |
| MemoryStores.MemoryStore.UpsertDocument | src/codex_supervisor_bridge/memory/store.py:1103-1138 | The document is inserted or overwritten; with FTS its old rows are deleted and one new row is inserted. |
| MemoryStores.MemoryStore.RecordOverride | src/codex_supervisor_bridge/memory/store.py:332-343 | Stale, or one revision and one override event. |
| MemoryStores.MemoryStore.UpdateIntent | src/codex_supervisor_bridge/memory/store.py:345-369 | Stale, or new revision, intent version and goal, logged and re-indexed with the new row. |
| MemoryStores.MemoryStore.SetPhase | src/codex_supervisor_bridge/memory/store.py:371-393 | Partial update: the phase always, the state only when given; the event carries the phase found before. |
| MemoryStores.MemoryStore.InsertDecision | src/codex_supervisor_bridge/memory/store.py:406-456 | The decision's source event is the one logged right after the row. |
| MemoryStores.MemoryStore.AddDecision | src/codex_supervisor_bridge/memory/store.py:395-456 | Stale, or a new revision and then the decision stamped with the new row's intent. |
| MemoryStores.MemoryStore.SupersedeDecision | src/codex_supervisor_bridge/memory/store.py:458-504 | Unknown, not ACTIVE, stale, refused in that order; else the row is rewritten and re-indexed from what was written. |
| MemoryStores.MemoryStore.AddConstraint | src/codex_supervisor_bridge/memory/store.py:531-596 | Stale, or a constraint stamped with the new revision, logged and indexed. |
| MemoryStores.MemoryStore.SupersedeConstraint | src/codex_supervisor_bridge/memory/store.py:598-644 | Unknown, not ACTIVE, stale, refused in that order; else the row is rewritten and re-indexed from what was written. |
| MemoryStores.MemoryStore.CreatePlan | src/codex_supervisor_bridge/memory/store.py:672-731 | Stale, or a DRAFT with the plan version just assigned, in phase PLAN_REVIEW, logged and indexed. |
| MemoryStores.MemoryStore.AnnounceReplaced | src/codex_supervisor_bridge/memory/store.py:767-783 | Loop: one event and one document for every replaced plan, in order. |
| MemoryStores.MemoryStore.ApprovePlan | src/codex_supervisor_bridge/memory/store.py:733-810 | Unknown, not DRAFT, stale, refused in that order; else all approved plans are retired at once, announced by the loop, and then the draft is promoted, logged and indexed. |
| MemoryStores.MemoryStore.RejectPlan | src/codex_supervisor_bridge/memory/store.py:812-863 | Unknown, not DRAFT, stale, refused in that order; else REJECTED in phase PLANNING, logged and re-indexed. |
| MemoryStores.MemoryStore.AddSummary | src/codex_supervisor_bridge/memory/store.py:895-950 | A range that is reversed or ahead of the task is refused; else a summary without a new revision. |
| MemoryStores.MemoryStore.AddEvidence | src/codex_supervisor_bridge/memory/store.py:971-1032 | A revision ahead of the task is refused and a missing one is the task's; no new revision. |
| MemoryStores.MemoryStore.SaveContext | src/codex_supervisor_bridge/memory/store.py:1056-1101 | A context row stamped with the three versions; no new revision and no document. |
| ExecutionStore.SetExecutionMode | src/codex_supervisor_bridge/memory/execution.py:144-193 | The same mode changes nothing, before any guard; then the transition guards and the two writer conflicts, in that order. |
| ExecutionStore.SetHandoffPolicy | src/codex_supervisor_bridge/memory/execution.py:196-242 | A grant by anyone but the user is refused before the revision is read; the same policy changes nothing. |
| ExecutionStore.AcquireWriter | src/codex_supervisor_bridge/memory/execution.py:245-302 | Stale, terminal phase, transition guards, owned, not allowed, refused in that order; else the lease with the next epoch at the new revision. |
| ExecutionStore.ReleaseWriter | src/codex_supervisor_bridge/memory/execution.py:305-356 | Stale, other writer, other epoch, transition guards, refused in that order; the epoch stays. |
| ExecutionStore.HandoffWriter | src/codex_supervisor_bridge/memory/execution.py:359-489 | The argument checks come before the revision; then owner, epoch, guards and permission; lease and handoff record carry the same new epoch and revision. |
| WorkspaceStore.BindWorkspace | src/codex_supervisor_bridge/memory/workspace.py:82-196 | The checks on an existing binding run in the source's order: stopped is refused, the same active one changes nothing, a writer or a PREPARED operation is refused. |
| WorkspaceStore.UpdateDerived | src/codex_supervisor_bridge/memory/workspace.py:199-240 | Partial update: each Git fact only when given, with no event and no revision. |
| WorkspaceStore.PrepareDirectOperation | src/codex_supervisor_bridge/memory/workspace.py:243-355 | Eight refusals in order; else a PREPARED row at the new revision with the HEAD the binding had. |
| WorkspaceStore.UpdatePreparedDetails | src/codex_supervisor_bridge/memory/workspace.py:358-388 | Merges the details of an operation still PREPARED; no event and no revision. |
| WorkspaceStore.MarkReconciliationRequired | src/codex_supervisor_bridge/memory/workspace.py:391-439 | Rollback: the operation is written first, and without a binding that write is undone. |
| WorkspaceStore.CompleteDirectOperation | src/codex_supervisor_bridge/memory/workspace.py:442-603 | The unstable branch writes operation and workspace only; the stable one moves the task row too and logs. |
| AgentStore.Record | src/codex_supervisor_bridge/memory/agent_safety.py:68-142 | Overwrites the safety row at whatever revision it finds and advances it. |
| AgentStore.LatchCompensation | src/codex_supervisor_bridge/memory/agent_safety.py:172-197 | COMPENSATION_REQUIRED with the handle's identity. |
| AgentStore.RecordRequired | src/codex_supervisor_bridge/memory/agent_safety.py:200-229 | RECONCILIATION_REQUIRED, or COMPENSATION_REQUIRED when told so. |
| AgentStore.RecordSucceeded | src/codex_supervisor_bridge/memory/agent_safety.py:145-169 | NONE, with the handle's identity. |
| AgentStore.ReconcileSafety | src/codex_supervisor_bridge/memory/agent_safety.py:232-272 | Rollback: the task row is written first, and without a safety row that write is undone. |
| AgentStore.BindCodexRuntime | src/codex_supervisor_bridge/memory/codex_runtime.py:49-165 | An unsupported event is refused first; partial update: supplied identifiers win over the stored ones, in the runtime row and in the task row. |
| AgentStore.BindKandevTask | src/codex_supervisor_bridge/memory/kandev_binding.py:8-54 | Empty and stale are refused; a bound task coalesces the same id and refuses another. |
| CheckpointStore.CreateCheckpoint | src/codex_supervisor_bridge/memory/checkpoint_store.py:85-204 | A recorded fingerprint changes nothing; else the next sequence, with revision and phase moved only for a reviewable checkpoint. |
| CheckpointStore.ReviewCheckpoint | src/codex_supervisor_bridge/memory/checkpoint_reviews.py:33-116 | Six refusals in order, the last for anything but the newest pending checkpoint; then phase and review by verdict. |
| ReplanStore.BeginHardReplan | src/codex_supervisor_bridge/memory/replans.py:160-440 | Eight tables in the source's order and the three loops below; the snapshot holds what was there before. |
| ReplanStore.ReindexDecisions | src/codex_supervisor_bridge/memory/replans.py:218-227 | Loop: re-indexes the withdrawn dispositions, in order. |
| ReplanStore.ReindexPlans | src/codex_supervisor_bridge/memory/replans.py:325-334 | Loop: re-indexes the withdrawn plans, newest first. |
| ReplanStore.AnnounceWithdrawn | src/codex_supervisor_bridge/memory/replans.py:428-439 | Loop: one event for every withdrawn disposition, in order. |
| ReplanStore.FinalizeInterrupt | src/codex_supervisor_bridge/memory/replans.py:443-521 | Rollback: the snapshot is read back last, and without it the task, replan, runtime and event already written are undone. |
| ReplanStore.ClassifyWorkSnapshot | src/codex_supervisor_bridge/memory/replans.py:524-685 | Two revisions, two events and a decision; rollback of all of them when the snapshot row is missing. |
| ReplanStore.PrepareInterruptRetry | src/codex_supervisor_bridge/memory/replan_bindings.py:10-55 | Rollback: replan and task are written before the snapshot is looked up, and undone without it. |
| ReplanStore.BindReplanWorkflow | src/codex_supervisor_bridge/memory/replan_bindings.py:58-83 | The newest READY_TO_PLAN replan moves to PLANNING, if there is one; no revision. |
| ReplanStore.BindReplanPlanReview | src/codex_supervisor_bridge/memory/replan_bindings.py:86-115 | The newest replan in READY_TO_PLAN or PLANNING takes the plan to PLAN_REVIEW, if there is one; no revision. |
| ReplanStore.CompleteReplanOnExecution | src/codex_supervisor_bridge/memory/replan_bindings.py:118-142 | The newest replan under review of this plan is COMPLETED, if there is one; no revision. |
| StoreRuns.Perform | src/codex_supervisor_bridge/memory/store.py:102-112 | Any one transaction on the store object is the specified step. |
| StoreRuns.Elapse | src/codex_supervisor_bridge/memory/store.py:102-112 | Any sequence of transactions on the store object goes through the specified run. |
| StoreRuns.CreateAndUse | src/codex_supervisor_bridge/memory/store.py:255-301 | A store object that was created and then used in any way satisfies every invariant. |
| Coordinators.AgentExecutionCoordinator.PostCallStaleReasons | src/codex_supervisor_bridge/supervisor/agent_execution.py:188-242 | The appended list is the specified list of stale reasons. |
| Coordinators.AgentExecutionCoordinator.CompensateRemote | src/codex_supervisor_bridge/supervisor/agent_execution.py:103-186 | Latch, interrupt, record: store and error are the specified ones. |
| Coordinators.AgentExecutionCoordinator.StartPlan | src/codex_supervisor_bridge/supervisor/agent_execution.py:244-292 | Store and outcome are those of the start protocol, for every environment and remote answer. |
| Coordinators.AgentExecutionCoordinator.StartExecution | src/codex_supervisor_bridge/supervisor/agent_execution.py:328-416 | Store and outcome are those of the start protocol, for every environment and remote answer. |
| Coordinators.DirectWorkspaceCoordinator.Open | src/codex_supervisor_bridge/supervisor/direct_workspace.py:75-129 | Store and outcome are those of the open protocol; the remote workspace is closed again iff its bind was rejected. |
| Coordinators.DirectWorkspaceCoordinator.ApplyPatch | src/codex_supervisor_bridge/supervisor/direct_workspace.py:186-289 | Store and outcome are those of the patch protocol, for every environment and adapter answer. |
| Coordinators.HardReplanService.Begin | src/codex_supervisor_bridge/supervisor/replans.py:24-104 | Store and outcome are those of the replan protocol, for every environment and remote answer; a control error, an unexpected error that is re-raised, and a rejected finalise are told apart. |
| Coordinators.HardReplanService.RetryInterrupt | src/codex_supervisor_bridge/supervisor/replans.py:106-177 | Store and outcome are those of the retry protocol, with the same outcomes told apart. |

## Left out

- MemoryStores.MemoryStore.RecordOverride: `record_event` takes any actor, event type and payload; it is modelled only as the USER override that `MemoryService` records with it, because a free event type could contradict the tables.
- LogProofs.LogRebuildsTables: assumes the same use of `record_event`; AnyEventFaithfulExactly says which other events would keep it true.
- ExecutionStore.HandoffWriter: does not model the free-form validation dictionary of a handoff; the two event types are one kind here, told apart by the receiving writer it carries.
- MemoryStores.MemoryStore.constructor: the store holds one task, so the conflict with an existing task id is not modelled.
- MemoryStores.MemoryStore.AddEvidence: does not model the external id and the metadata of a row, which nothing reads back.
- AgentStore.Record: does not model the details dictionary of the safety row, which no guard reads.
- AgentStore.LatchCompensation: does not model the details dictionary with stage and stale reason.
- AgentStore.RecordRequired: does not model the details dictionary.
- AgentStore.RecordSucceeded: does not model the details dictionary.
- Coordinators.AgentExecutionCoordinator.CompensateRemote: does not model the stale reason passed on into details and error text.
- Coordinators.DirectWorkspaceCoordinator.ApplyPatch: does not model a process crash or a cancelled coroutine between prepare and the end, after which the operation stays PREPARED; nor the external id and metadata of the evidence.
- StoreRuns.Perform: replies tell success or the kind of error; the rows the methods return are read off the store instead, and error texts are dropped.
- Progress.NormalizeProgressSnapshot: starts after key lookup in the upstream dictionaries; the walk that finds paths in an event is an arbitrary function of the event and the number of paths already listed.
- ContextPack.ContextPackBuilder.Build: starts from the rendered sections; the texts of the sections are not modelled.
- `import_plan`: its checks on the payload and one `create_plan`; it would add only an easy member.
- A start whose remote call raises: nothing is recorded, and the model says only that.
- Several tasks in one store, task deletion, schema migrations, full-text search and ranking, the PR number and JSON payload fields that carry no state.
- The remote writes themselves: exclusion is proved for the lease, not for what a remote process does.
- MCP servers and tools, remote clients, configuration, the command line, the capability resolver, and `integrations/codex_coordinator.py`, which repeats the bind-or-interrupt fence without the latch.
- Letter case: `lower` is modelled on ASCII letters.
- The caller's limit on listing and search functions, which only read.
