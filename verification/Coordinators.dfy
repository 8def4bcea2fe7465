/**
 supervisor/agent_execution.py, supervisor/direct_workspace.py and supervisor/replans.py: the coordinators over the
 store object. At every await the remote answer is a parameter and the store takes any steps that others ask for.
 */
module Coordinators {
  import opened Prelude
  import opened Text
  import opened Model
  import opened AgentTx
  import opened WorkspaceTx
  import opened ReplanTx
  import opened Steps
  import opened MemoryStores
  import opened StoreRuns
  import opened StartProtocol
  import opened PatchProtocol
  import opened OperationProofs
  import opened ReplanProtocol
  import AgentStore
  import WorkspaceStore
  import ReplanStore

  class AgentExecutionCoordinator {
    const store: MemoryStore

    constructor (store: MemoryStore)
      ensures this.store == store
    {
      this.store := store;
    }

    /** `if test: reasons.append(reason)`. */
    method Append(reasons: seq<StaleReason>, test: bool, reason: StaleReason) returns (more: seq<StaleReason>)
      ensures more == reasons + Found(test, reason)
    {
      more := reasons;
      if test { more := more + [reason]; }
    }

    /** `_post_call_stale_reasons`: the list is built by one test after the other. */
    method PostCallStaleReasons(expected: nat, q: StartRequest, base: Baseline, h: PlanHandle)
      returns (reasons: seq<StaleReason>)
      ensures reasons == StaleReasons(store.db, expected, q, base, h)
    {
      hide AckUnknown, TaskReasons, LeaseReasons, Found;
      var t := store.db.task;
      reasons := Append([], t.revision != expected, RevisionMoved);
      assert [] + Found(t.revision != expected, RevisionMoved) == Found(t.revision != expected, RevisionMoved);
      var fields := FieldReasons(t, base.task);
      reasons := reasons + fields;
      reasons := Append(reasons, !SafetyClear(store.db), SafetyBlocked);
      reasons := Append(reasons, IdentityOf(store.db.runtime) != base.runtime, RuntimeMoved);
      var lease := LeaseAndPlanReasons(q, base);
      reasons := reasons + lease;
      reasons := Append(reasons, AckUnknown(h), AcknowledgementUnknown);
    }

    /** The loop over the five task fields. */
    method FieldReasons(now: Task, before: Task) returns (reasons: seq<StaleReason>)
      ensures reasons == TaskReasons(now, before)
    {
      reasons := Append([], now.intentVersion != before.intentVersion, IntentMoved);
      reasons := Append(reasons, now.planVersion != before.planVersion, PlanVersionMoved);
      reasons := Append(reasons, now.goal != before.goal, GoalMoved);
      reasons := Append(reasons, now.phase != before.phase, PhaseMoved);
      reasons := Append(reasons, now.status != before.status, StatusMoved);
    }

    method LeaseAndPlanReasons(q: StartRequest, base: Baseline) returns (reasons: seq<StaleReason>)
      ensures reasons == LeaseReasons(store.db, q, base)
    {
      hide ApprovalReasons;
      reasons := [];
      if q.PlanStart? { return []; }
      var exec := store.db.exec;
      if exec.writer != CodexWriter { reasons := reasons + [WriterNotCodex]; }
      if exec.epoch != q.lease.epoch { reasons := reasons + [EpochMoved]; }
      if q.lease.task != store.db.task.id || q.lease.writer != CodexWriter { reasons := reasons + [LeaseInvalid]; }
      var approval := PlanReasons(q.plan, base.content);
      reasons := reasons + approval;
    }

    method PlanReasons(plan: nat, content: string) returns (reasons: seq<StaleReason>)
      ensures reasons == ApprovalReasons(store.db, plan, content)
    {
      hide Normalized, ApprovedPlan;
      reasons := [];
      var approved := ApprovedPlan(store.db.plans);
      if approved.None? { return [NoApprovedPlan]; }
      if approved.value != plan { reasons := reasons + [OtherPlanApproved]; }
      if Normalized(store.db.plans[approved.value].content) != Normalized(content) {
        reasons := reasons + [PlanContentMoved];
      }
    }

    /** `_compensate_remote`: latch first, then interrupt, then record what is known. */
    method CompensateRemote(operation: GuardedOperation, h: PlanHandle, env: Environment)
      returns (outcome: StartOutcome)
      modifies store
      ensures (store.db, outcome) == Compensate(old(store.db), operation, h, env)
    {
      hide Run, Attempt, Confirmed;
      var r := Perform(store, AgentOp(LatchFor(operation, h)));
      Elapse(store, env.duringInterrupt);
      if env.interrupt.InterruptRaised? {
        r := Perform(store, AgentOp(RecordRequired(operation, InterruptCallFailed, h.identity, true)));
        RaisedIsOpen(env.interrupt);
        return CompensationOpen;
      }
      if !Confirmed(env.interrupt) {
        r := Perform(store, AgentOp(RecordRequired(operation, OutcomeUnknown(env.interrupt.status), h.identity, true)));
        return CompensationOpen;
      }
      r := Perform(store, AgentOp(RecordSucceeded(operation, InterruptedBeforeBinding, h.identity)));
      return StaleContext;
    }

    lemma RaisedIsOpen(reply: InterruptReply)
      ensures reply.InterruptRaised? ==> !Confirmed(reply)
    {
    }

    /** What both starts do after the gate: call, re-check, then bind or compensate. */
    method CallAndBind(expected: nat, q: StartRequest, reply: StartReply, env: Environment)
      returns (outcome: StartOutcome)
      requires StartGate(store.db, expected, q).None?
      modifies store
      ensures (store.db, outcome) == Start(old(store.db), expected, q, reply, env)
    {
      hide Run, Attempt, StartGate, StaleReasons, BindingFor, BindCodexRuntime, BaselineOf, Compensate;
      var base := BaselineOf(store.db);
      Elapse(store, env.duringCall);
      if reply.CallRaised? { return CallFailed; }
      var reasons := PostCallStaleReasons(expected, q, base, reply.handle);
      if reasons != [] {
        outcome := CompensateRemote(OperationOf(q), reply.handle, env);
        return;
      }
      Elapse(store, env.beforeBind);
      var r := AgentStore.BindCodexRuntime(store, expected, BindingFor(q, reply.handle));
      if r.Done? { return Bound; }
      outcome := CompensateRemote(OperationOf(q), reply.handle, env);
    }

    /** `start_plan`. */
    method StartPlan(expected: nat, reply: StartReply, env: Environment) returns (outcome: StartOutcome)
      modifies store
      ensures (store.db, outcome) == Start(old(store.db), expected, PlanStart, reply, env)
    {
      hide Run, Attempt, StaleReasons, BindingFor, BindCodexRuntime, BaselineOf, Compensate, ActiveRuntime;
      if store.db.task.revision != expected { return NotStarted(StaleRevision); }
      if !SafetyGate(store.db) { return NotStarted(GateRefused); }
      if ActiveRuntime(store.db.runtime) { return NotStarted(GateRefused); }
      outcome := CallAndBind(expected, PlanStart, reply, env);
    }

    /** `start_execution`. */
    method StartExecution(expected: nat, q: StartRequest, reply: StartReply, env: Environment)
      returns (outcome: StartOutcome)
      requires q.ExecutionStart?
      modifies store
      ensures (store.db, outcome) == Start(old(store.db), expected, q, reply, env)
    {
      hide Run, Attempt, StaleReasons, BindingFor, BindCodexRuntime, BaselineOf, Compensate, Normalized, Blank,
           ApprovedPlan, UnknownStatus, FailedStatus;
      if store.db.task.revision != expected { return NotStarted(StaleRevision); }
      if !SafetyGate(store.db) { return NotStarted(GateRefused); }
      if store.db.exec.writer != CodexWriter { return NotStarted(GateRefused); }
      var lease := q.lease;
      if lease.task != store.db.task.id || lease.writer != CodexWriter || lease.epoch != store.db.exec.epoch
         || lease.revision != expected { return NotStarted(GateRefused); }
      var approved := ApprovedPlan(store.db.plans);
      if approved != Some(q.plan) { return NotStarted(GateRefused); }
      if store.db.runtime.None? { return NotStarted(GateRefused); }
      var runtime := store.db.runtime.value.identity;
      if Conflicting(runtime.workflow, q.planHandle.identity.workflow) { return NotStarted(GateRefused); }
      if Conflicting(runtime.thread, q.planHandle.identity.thread) { return NotStarted(GateRefused); }
      if q.planHandle.reconciliation || UnknownStatus(q.planHandle.status) { return NotStarted(GateRefused); }
      if Blank(q.planResult.content) { return NotStarted(GateRefused); }
      if FailedStatus(q.planResult.status) { return NotStarted(GateRefused); }
      if Normalized(q.planResult.content) != Normalized(store.db.plans[q.plan].content) {
        return NotStarted(GateRefused);
      }
      outcome := CallAndBind(expected, q, reply, env);
    }
  }

  class DirectWorkspaceCoordinator {
    const store: MemoryStore
    const backend: string

    constructor (store: MemoryStore, backend: string)
      ensures this.store == store && this.backend == backend
    {
      this.store, this.backend := store, backend;
    }

    /** `open`; closed says that the remote workspace just opened was closed again. */
    method Open(expected: nat, q: OpenRequest, during: seq<Step>, reply: OpenReply)
      returns (outcome: OpenOutcome, closed: bool)
      modifies store
      ensures (store.db, outcome) == OpenWorkspace(old(store.db), expected, backend, q, during, reply)
      ensures closed <==> outcome.ClosedAgain?
    {
      hide Run, Attempt, BindWorkspace, Strip;
      closed := false;
      if store.db.task.revision != expected { return OpenRefused(Stale), false; }
      if !SafetyClear(store.db) { return OpenRefused(Conflict), false; }
      var repository := SelectedRepository(store.db, q);
      if repository == "" { return OpenRefused(BadValue), false; }
      if WorkspaceStopped(store.db) { return OpenRefused(BadValue), false; }
      if store.db.workspace.Some? && Reusable(store.db.workspace.value, repository, q) { return Reused, false; }
      Elapse(store, during);
      if reply.OpenRaised? { return OpenFailed, false; }
      var identity := WorkspaceIdentity(backend, reply.id, repository, reply.root, ModeOf(reply.worktree), q.baseRef);
      var r := WorkspaceStore.BindWorkspace(store, expected, identity, reply.git.branch, reply.git.head);
      if r.Done? { return WorkspaceOpened, false; }
      return ClosedAgain(r.error), true;
    }

    /** `apply_patch`. */
    method ApplyPatch(expected: nat, epoch: nat, q: PatchRequest, during: seq<Step>, reply: PatchReply)
      returns (outcome: PatchOutcome)
      modifies store
      ensures (store.db, outcome) == PatchProtocol.ApplyPatch(old(store.db), expected, epoch, q, during, reply)
    {
      hide Run, Attempt, Blank, Strip, PrepareDirectOperation, AfterWrite, PatchType;
      if Blank(q.patch) { return PatchRefused(BadValue); }
      var operation := |store.db.operations|;
      var r := WorkspaceStore.PrepareDirectOperation(store, expected, epoch, PatchType(), q.digest, q.details);
      if r.Refused? { return PatchRefused(r.error); }
      Elapse(store, during);
      outcome := Settle(operation, epoch, reply);
    }

    /** The end of `apply_patch`, once the adapter has answered. */
    method Settle(operation: nat, epoch: nat, reply: PatchReply) returns (outcome: PatchOutcome)
      modifies store
      ensures (store.db, outcome) == AfterWrite(old(store.db), operation, epoch, reply)
    {
      hide Run, Attempt, Apply, MarkReconciliationRequired, CompleteDirectOperation, Unconfirmed, ReconcileFirst,
           EvidenceKind, EvidenceSource;
      var r: Reply;
      if reply.WriteRaised? {
        r := WorkspaceStore.MarkReconciliationRequired(store, operation, Unconfirmed(), reply.details);
        return if r.Done? then PatchUnconfirmed else PatchLost(r.error);
      }
      r := WorkspaceStore.CompleteDirectOperation(store, operation, epoch, reply.result);
      if r.Refused? { return PatchLost(r.error); }
      var reconciliation := !OperationIs(store.db, operation, Succeeded);
      r := Perform(store, PatchEvidence(store.db, reconciliation, reply.result.summary));
      return PatchApplied(reconciliation);
    }
  }

  class HardReplanService {
    const store: MemoryStore

    constructor (store: MemoryStore)
      ensures this.store == store
    {
      this.store := store;
    }

    method Finalise(expected: nat, replan: nat, succeeded: bool, error: Option<string>, recorded: ServiceOutcome)
      returns (outcome: ServiceOutcome)
      modifies store
      ensures (store.db, outcome) == Finish(old(store.db), expected, replan, succeeded, error, recorded)
    {
      hide FinalizeInterrupt;
      var r := ReplanStore.FinalizeInterrupt(store, expected, replan, succeeded, error);
      return if r.Done? then recorded else FinalizeRejected(r.error);
    }

    /** Interrupt the captured turn, if there is one, and finalise at the revision the wait began with. */
    method InterruptAndFinalise(replan: nat, id: RemoteIdentity, during: seq<Step>, reply: RemoteReply,
                                unexpected: string)
      returns (outcome: ServiceOutcome)
      modifies store
      ensures (store.db, outcome) == Interrupting(old(store.db), replan, id, during, reply, unexpected)
    {
      hide Run, Attempt, Interruptible, Finish;
      var revision := store.db.task.revision;
      if !Interruptible(id) {
        outcome := Finalise(revision, replan, true, None, Finalized(true));
        return;
      }
      Elapse(store, during);
      match reply
      case Returned => outcome := Finalise(revision, replan, true, None, Finalized(true));
      case ControlError(text) => outcome := Finalise(revision, replan, false, Some(text), Finalized(false));
      case Unexpected => outcome := Finalise(revision, replan, false, Some(unexpected), Reraised);
    }

    /** `begin`. */
    method Begin(expected: nat, goal: string, reason: string, during: seq<Step>, reply: RemoteReply)
      returns (outcome: ServiceOutcome)
      modifies store
      ensures (store.db, outcome) == BeginService(old(store.db), expected, goal, reason, during, reply)
    {
      hide Run, Attempt, Interrupting, BeginFailure;
      var replan, snapshot := |store.db.replans|, |store.db.snapshots|;
      var r := ReplanStore.BeginHardReplan(store, expected, goal, reason);
      if r.Refused? { return NotBegun(r.error); }
      outcome := InterruptAndFinalise(replan, store.db.snapshots[snapshot].facts.identity, during, reply,
                                      BeginFailure());
    }

    /** `retry_interrupt`. */
    method RetryInterrupt(expected: nat, replan: nat, during: seq<Step>, reply: RemoteReply)
      returns (outcome: ServiceOutcome)
      modifies store
      ensures (store.db, outcome) == RetryService(old(store.db), expected, replan, during, reply)
    {
      hide Run, Attempt, Interrupting, RetryFailure;
      var r := ReplanStore.PrepareInterruptRetry(store, expected, replan);
      if r.Refused? { return NotBegun(r.error); }
      var snapshot := store.db.snapshots[store.db.replans[replan].snapshot];
      outcome := InterruptAndFinalise(replan, snapshot.facts.identity, during, reply, RetryFailure());
    }
  }
}
