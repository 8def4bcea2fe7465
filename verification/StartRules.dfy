/**
 The decisions of a remote start in terms of the tables and the literal status words alone: when each gate opens, when a
 start binds and what it writes, and which interrupt answers count as a confirmed stop.
 */
module StartRules {
  import opened Prelude
  import opened Text
  import opened Model
  import opened ExecutionTx
  import opened WorkspaceTx
  import opened AgentTx
  import opened MemoryTx
  import opened CheckpointTx
  import opened ReplanTx
  import opened Steps
  import opened RevisionProofs
  import opened StartProtocol
  import opened StartProofs
  import opened ConcurrentStarts

  const INTERRUPT_SUCCESS := {"interrupted", "cancelled", "canceled", "stopped", "terminated", "completed", "succeeded",
                              "success"}
  const UNKNOWN_OUTCOME := {"unknown", "reconciliation_required", "compensation_required"}
  const ACTIVE_RUNTIME := {"planning", "executing", "running", "inprogress", "in_progress", "started"}
  const FAILED_RESULT := {"invalid", "failed", "error"}

  /** The interrupt returned, its snapshot needs no reconciliation, and its status is one of the eight words. */
  predicate StoppedForSure(reply: InterruptReply) {
    && reply.InterruptStatus? && !reply.reconciliation
    && Lower(Strip(reply.status)) in INTERRUPT_SUCCESS
  }

  lemma ConfirmedWords(reply: InterruptReply)
    ensures Confirmed(reply) <==> StoppedForSure(reply)
  {
    hide Lower, Strip;
  }

  lemma AcknowledgementWords(h: PlanHandle)
    ensures AckUnknown(h) <==> h.reconciliation || Lower(Strip(h.status)) in UNKNOWN_OUTCOME
  {
    hide Lower, Strip;
  }

  lemma ActiveWords(r: Option<Runtime>)
    ensures ActiveRuntime(r)
            <==> && r.Some? && r.value.status.Some? && r.value.status.value.Reported?
                 && Lower(r.value.status.value.text) in ACTIVE_RUNTIME
  {
    hide Lower;
  }

  lemma ResultWords(status: string)
    ensures FailedStatus(status) <==> Lower(status) in FAILED_RESULT
    ensures UnknownStatus(status) <==> Lower(status) == "unknown"
  {
    hide Lower;
  }

  /**
   A gated start that is not bound: the row ends NONE and the caller learns of a stale context exactly when the remote
   side is stopped for sure; on every other answer reconciliation is required and the compensation stays open.
   */
  lemma CompensatedExactly(s: Store, expected: nat, q: StartRequest, h: PlanHandle, env: Environment)
    requires StartGate(s, expected, q).None? && !Start(s, expected, q, Handle(h), env).1.Bound?
    ensures var (t, outcome) := Start(s, expected, q, Handle(h), env);
            && t.safety.Some?
            && t.safety.value.state == (if StoppedForSure(env.interrupt) then Clear else SafetyReconciliation)
            && outcome == (if StoppedForSure(env.interrupt) then StaleContext else CompensationOpen)
            && t.safety.value.identity == h.identity
            && t.safety.value.operation == (if q.PlanStart? then PlanOperation else ExecutionOperation)
  {
    hide Start, StartGate, Confirmed, StoppedForSure;
    CompensationVerdict(s, expected, q, h, env);
    ConfirmedWords(env.interrupt);
    CompensatedOperation(s, expected, q, h, env);
  }

  lemma CompensatedOperation(s: Store, expected: nat, q: StartRequest, h: PlanHandle, env: Environment)
    requires StartGate(s, expected, q).None? && !Start(s, expected, q, Handle(h), env).1.Bound?
    ensures var t := Start(s, expected, q, Handle(h), env).0;
            t.safety.Some? && t.safety.value.operation == (if q.PlanStart? then PlanOperation else ExecutionOperation)
  {
    hide Compensate, StartGate, Run, Attempt, StaleReasons, BindCodexRuntime, Confirmed, BindingFor, StoppedForSure;
    CompensationRecord(Run(s, env.duringCall), OperationOf(q), h, env);
    CompensationRecord(Run(Run(s, env.duringCall), env.beforeBind), OperationOf(q), h, env);
  }

  /** What `_compensate_remote` records: the handle's identity, the operation's name and the matching summary. */
  lemma CompensationRecord(s: Store, operation: GuardedOperation, h: PlanHandle, env: Environment)
    ensures var t := Compensate(s, operation, h, env).0;
            t.safety == Some(
              if StoppedForSure(env.interrupt) then AgentSafety(Clear, operation, InterruptedBeforeBinding, h.identity)
              else if env.interrupt.InterruptRaised?
              then AgentSafety(SafetyReconciliation, operation, InterruptCallFailed, h.identity)
              else AgentSafety(SafetyReconciliation, operation, OutcomeUnknown(env.interrupt.status), h.identity))
    ensures var latched := Apply(s, AgentOp(LatchFor(operation, h)));
            latched.safety == Some(AgentSafety(CompensationRequired, operation, CompensationPending, h.identity))
  {
    hide Run, Confirmed, StoppedForSure, AttemptExecution, AttemptWorkspace, AttemptMemory, AttemptCheckpoint,
         AttemptReplan;
    ConfirmedWords(env.interrupt);
    RaisedIsUnconfirmed(env.interrupt);
  }

  /** In the machine as well: the answer ends a compensation with a cleared row exactly when it is such a stop. */
  lemma AnsweredExactly(m: Machine, id: nat, reply: InterruptReply)
    requires id < |m.starts| && m.starts[id].at.Compensating?
    ensures var n := Act(m, InterruptAnswered(id, reply));
            && n.store.safety.Some?
            && (n.store.safety.value.state == Clear <==> StoppedForSure(reply))
            && n.starts == m.starts[id := m.starts[id].(
                 at := Over(if StoppedForSure(reply) then StaleContext else CompensationOpen))]
  {
    hide StartGate, Confirmed, StoppedForSure, AttemptExecution, AttemptWorkspace, AttemptMemory, AttemptCheckpoint,
         AttemptReplan;
    ConfirmedWords(reply);
    RaisedIsUnconfirmed(reply);
  }

  /** Neither latched nor on a workspace that is not ACTIVE. */
  predicate Unblocked(s: Store) {
    && (s.safety.Some? ==> s.safety.value.state == Clear)
    && (s.workspace.Some? ==> s.workspace.value.state == Active)
  }

  /** The gate of `start_plan`. */
  lemma PlanGateOpensExactly(s: Store, expected: nat)
    ensures StartGate(s, expected, PlanStart).None?
            <==> && s.task.revision == expected && Unblocked(s)
                 && !(&& s.runtime.Some? && s.runtime.value.status.Some? && s.runtime.value.status.value.Reported?
                      && Lower(s.runtime.value.status.value.text) in ACTIVE_RUNTIME)
  {
    hide ActiveRuntime, Lower;
    ActiveWords(s.runtime);
  }

  /** Two identifiers do not contradict each other: one is missing or empty, or they are the same. */
  predicate Compatible(a: Option<string>, b: Option<string>) {
    a == None || a == Some("") || b == None || b == Some("") || a == b
  }

  lemma ConflictingExactly(a: Option<string>, b: Option<string>)
    ensures Conflicting(a, b) <==> !Compatible(a, b)
  {
  }

  /** The plan of highest version among the approved ones. */
  predicate IsApprovedPlan(s: Store, plan: nat) {
    && plan < |s.plans| && s.plans[plan].status == Approved
    && forall j :: plan < j < |s.plans| ==> s.plans[j].status != Approved
  }

  lemma ApprovedPlanExactly(s: Store, plan: nat)
    ensures ApprovedPlan(s.plans) == Some(plan) <==> IsApprovedPlan(s, plan)
  {
  }

  /** CODEX holds the lease and the token names this task, this tenure and this revision. */
  predicate LeaseInHand(s: Store, expected: nat, lease: LeaseToken) {
    && s.exec.writer == CodexWriter
    && lease == LeaseToken(s.task.id, CodexWriter, s.exec.epoch, expected)
  }

  /** What was reviewed is what was approved, line by line, and it came from the runtime the store knows. */
  predicate ReviewedPlanStands(s: Store, q: StartRequest)
    requires q.ExecutionStart?
  {
    && IsApprovedPlan(s, q.plan)
    && s.runtime.Some?
    && Compatible(s.runtime.value.identity.workflow, q.planHandle.identity.workflow)
    && Compatible(s.runtime.value.identity.thread, q.planHandle.identity.thread)
    && !q.planHandle.reconciliation && Lower(q.planHandle.status) != "unknown"
    && Strip(q.planResult.content) != "" && Lower(q.planResult.status) !in FAILED_RESULT
    && PlanLines(q.planResult.content) == PlanLines(s.plans[q.plan].content)
  }

  lemma PlanGateStands(s: Store, q: StartRequest)
    requires q.ExecutionStart?
    ensures PlanGate(s, q) <==> ReviewedPlanStands(s, q)
  {
    hide Lower, Strip, Normalized, PlanLines, ApprovedPlan, UnknownStatus, FailedStatus, Conflicting, Compatible,
         IsApprovedPlan;
    ApprovedPlanExactly(s, q.plan);
    ResultWords(q.planHandle.status);
    ResultWords(q.planResult.status);
    if s.runtime.Some? {
      ConflictingExactly(s.runtime.value.identity.workflow, q.planHandle.identity.workflow);
      ConflictingExactly(s.runtime.value.identity.thread, q.planHandle.identity.thread);
    }
    if ApprovedPlan(s.plans) == Some(q.plan) {
      ContentGateIsLineEquality(q.planResult.content, s.plans[q.plan].content);
    }
    ApprovedIsIndex(s, q.plan);
  }

  lemma ApprovedIsIndex(s: Store, plan: nat)
    ensures IsApprovedPlan(s, plan) ==> plan < |s.plans|
  {
  }

  /** The gate of `start_execution`. */
  lemma ExecutionGateOpensExactly(s: Store, expected: nat, q: StartRequest)
    requires q.ExecutionStart?
    ensures StartGate(s, expected, q).None?
            <==> && s.task.revision == expected && Unblocked(s)
                 && LeaseInHand(s, expected, q.lease) && ReviewedPlanStands(s, q)
  {
    hide PlanGate, ReviewedPlanStands;
    PlanGateStands(s, q);
  }

  /** A closed gate says that the revision is stale exactly when it is. */
  lemma GateError(s: Store, expected: nat, q: StartRequest)
    ensures StartGate(s, expected, q) == Some(StaleRevision) <==> s.task.revision != expected
  {
    hide PlanGate, LeaseGate, SafetyGate, ActiveRuntime;
  }

  /** A gated start binds exactly when no step moved the revision and the acknowledgement is a known one. */
  lemma BindsExactly(s: Store, expected: nat, q: StartRequest, h: PlanHandle, env: Environment)
    requires StartGate(s, expected, q).None?
    ensures Start(s, expected, q, Handle(h), env).1.Bound?
            <==> && Run(s, env.duringCall + env.beforeBind).task.revision == expected
                 && !h.reconciliation && Lower(Strip(h.status)) !in UNKNOWN_OUTCOME
  {
    hide Start, StartGate, Run, AckUnknown, Lower, Strip;
    StartFence(s, expected, q, h, env);
    AcknowledgementWords(h);
  }

  /** The first of two optional values that is there, else what was stored. */
  predicate Supplied<T(==)>(given: Option<T>, stored: Option<T>, now: Option<T>) {
    (given.Some? ==> now == given) && (given.None? ==> now == stored)
  }

  function StoredIdentity(s: Store): RemoteIdentity {
    if s.runtime.Some? then s.runtime.value.identity else NO_IDENTITY
  }

  /** `bind_codex_runtime`: refused or, field by field, the supplied value or else the stored one. */
  lemma RuntimeBindingExactly(s: Store, expected: nat, b: RuntimeBinding)
    ensures BindCodexRuntime(s, expected, b).Ok? <==> b.event != Unsupported && s.task.revision == expected
    ensures BindCodexRuntime(s, expected, b).Ok? ==>
              var t := BindCodexRuntime(s, expected, b).store;
              var old_ := StoredIdentity(s);
              && t.runtime.Some?
              && var now := t.runtime.value.identity;
                 && Supplied(b.identity.workflow, old_.workflow, now.workflow)
                 && Supplied(b.identity.operation, old_.operation, now.operation)
                 && Supplied(b.identity.thread, old_.thread, now.thread)
                 && Supplied(b.identity.turn, old_.turn, now.turn)
                 && Supplied(now.thread, s.task.thread, t.task.thread)
                 && Supplied(now.turn, s.task.turn, t.task.turn)
    ensures BindCodexRuntime(s, expected, b).Ok? ==>
              var t := BindCodexRuntime(s, expected, b).store;
              && Supplied(b.status, if s.runtime.Some? then s.runtime.value.status else None, t.runtime.value.status)
              && Supplied(b.nextAction, if s.runtime.Some? then s.runtime.value.nextAction else None,
                          t.runtime.value.nextAction)
              && Supplied(b.requestId, if s.runtime.Some? then s.runtime.value.requestId else None,
                          t.runtime.value.requestId)
              && Supplied(b.state, s.task.state, t.task.state)
              && Supplied(b.phase, Some(s.task.phase), Some(t.task.phase))
              && t.task.revision == s.task.revision + 1
  {
  }

  /** What a bound start leaves in the task and runtime rows. */
  lemma BoundRows(s: Store, expected: nat, q: StartRequest, h: PlanHandle, env: Environment)
    requires Start(s, expected, q, Handle(h), env).1.Bound?
    ensures var t := Start(s, expected, q, Handle(h), env).0;
            && t.runtime.Some? && t.runtime.value.status == Some(Reported(h.status))
            && Supplied(h.identity.operation, StoredIdentity(s).operation, t.runtime.value.identity.operation)
            && Supplied(h.identity.turn, StoredIdentity(s).turn, t.runtime.value.identity.turn)
            && t.task.phase == (if q.PlanStart? then Planning else Implementing)
            && t.task.state == Some(if q.PlanStart? then PreparingPlan else ImplementingPlan)
    ensures var t := Start(s, expected, q, Handle(h), env).0;
            q.ExecutionStart? ==>
              && (Truthy(h.identity.workflow) ==> t.runtime.value.identity.workflow == h.identity.workflow)
              && (Truthy(h.identity.thread) ==> t.runtime.value.identity.thread == h.identity.thread)
              && (!Truthy(h.identity.workflow) && q.planHandle.identity.workflow.Some? ==>
                    t.runtime.value.identity.workflow == q.planHandle.identity.workflow)
              && (!Truthy(h.identity.thread) && q.planHandle.identity.thread.Some? ==>
                    t.runtime.value.identity.thread == q.planHandle.identity.thread)
    ensures var t := Start(s, expected, q, Handle(h), env).0;
            q.PlanStart? ==>
              && Supplied(h.identity.workflow, StoredIdentity(s).workflow, t.runtime.value.identity.workflow)
              && Supplied(h.identity.thread, StoredIdentity(s).thread, t.runtime.value.identity.thread)
  {
    hide Attempt, Run, StaleReasons, AckUnknown, SafetyGate, LeaseGate, PlanGate, Verdict, Confirmed, Normalized, Blank,
         FailedStatus, UnknownStatus, ApprovedPlan, ActiveRuntime, Merge, BindingFor;
    RunRevision(s, env.duringCall);
    RunRevision(Run(s, env.duringCall), env.beforeBind);
    var before := Run(Run(s, env.duringCall), env.beforeBind);
    assert before.runtime == s.runtime;
    RuntimeBindingExactly(before, expected, BindingFor(q, h));
    BindingFields(q, h);
  }

  lemma BindingFields(q: StartRequest, h: PlanHandle)
    ensures var b := BindingFor(q, h);
            && b.status == Some(Reported(h.status))
            && b.identity.operation == h.identity.operation && b.identity.turn == h.identity.turn
            && b.phase == Some(if q.PlanStart? then Planning else Implementing)
            && b.state == Some(if q.PlanStart? then PreparingPlan else ImplementingPlan)
            && (q.PlanStart? ==> b.identity == h.identity)
            && (q.ExecutionStart? ==>
                  && b.identity.workflow
                     == (if Truthy(h.identity.workflow) then h.identity.workflow else q.planHandle.identity.workflow)
                  && b.identity.thread
                     == (if Truthy(h.identity.thread) then h.identity.thread else q.planHandle.identity.thread))
  {
  }

  lemma TaskReasonsExactly(now: Task, before: Task)
    ensures var r := TaskReasons(now, before);
            && (IntentMoved in r <==> now.intentVersion != before.intentVersion)
            && (PlanVersionMoved in r <==> now.planVersion != before.planVersion)
            && (GoalMoved in r <==> now.goal != before.goal)
            && (PhaseMoved in r <==> now.phase != before.phase)
            && (StatusMoved in r <==> now.status != before.status)
            && forall x :: x in r ==> x in {IntentMoved, PlanVersionMoved, GoalMoved, PhaseMoved, StatusMoved}
  {
  }

  /** `_post_call_stale_reasons` names each change exactly when there is one. */
  lemma ReasonsExactly(s: Store, expected: nat, q: StartRequest, base: Baseline, h: PlanHandle)
    ensures var r := StaleReasons(s, expected, q, base, h);
            && (RevisionMoved in r <==> s.task.revision != expected)
            && (SafetyBlocked in r <==> s.safety.Some? && s.safety.value.state != Clear)
            && (RuntimeMoved in r
                <==> base.runtime != (if s.runtime.Some? then Some(s.runtime.value.identity) else None))
            && (AcknowledgementUnknown in r <==> h.reconciliation || Lower(Strip(h.status)) in UNKNOWN_OUTCOME)
            && (forall x :: x in TaskReasons(s.task, base.task) || x in LeaseReasons(s, q, base) ==> x in r)
            && (forall x :: x in r ==> x in TaskReasons(s.task, base.task) || x in LeaseReasons(s, q, base)
                                       || x in {RevisionMoved, SafetyBlocked, RuntimeMoved, AcknowledgementUnknown})
  {
    hide AckUnknown, LeaseReasons, TaskReasons, Lower, Strip;
    AcknowledgementWords(h);
    LeaseReasonsAre(s, q, base);
    TaskReasonsExactly(s.task, base.task);
  }

  lemma LeaseReasonsAre(s: Store, q: StartRequest, base: Baseline)
    ensures forall r :: r in LeaseReasons(s, q, base) ==>
              r in {WriterNotCodex, EpochMoved, LeaseInvalid, NoApprovedPlan, OtherPlanApproved, PlanContentMoved}
  {
    hide Normalized, ApprovedPlan;
  }

  lemma LeaseReasonsExactly(s: Store, q: StartRequest, base: Baseline)
    requires q.ExecutionStart?
    ensures var r := LeaseReasons(s, q, base);
            && (WriterNotCodex in r <==> s.exec.writer != CodexWriter)
            && (EpochMoved in r <==> s.exec.epoch != q.lease.epoch)
            && (LeaseInvalid in r <==> q.lease.task != s.task.id || q.lease.writer != CodexWriter)
            && (NoApprovedPlan in r <==> forall i :: 0 <= i < |s.plans| ==> s.plans[i].status != Approved)
            && (OtherPlanApproved in r <==> exists p :: 0 <= p < |s.plans| && IsApprovedPlan(s, p) && p != q.plan)
            && (PlanContentMoved in r <==> exists p :: 0 <= p < |s.plans| && IsApprovedPlan(s, p)
                                                       && PlanLines(s.plans[p].content) != PlanLines(base.content))
  {
    hide Normalized, PlanLines;
    var approved := ApprovedPlan(s.plans);
    if approved.Some? {
      assert IsApprovedPlan(s, approved.value);
      ContentGateIsLineEquality(s.plans[approved.value].content, base.content);
    }
  }
}
