/**
 supervisor/agent_execution.py: a remote start is checked, called, re-checked, and then bound or compensated.
 While the remote call and the interrupt are awaited the environment may take any store steps.
 */
module StartProtocol {
  import opened Prelude
  import opened Text
  import opened Model
  import opened ExecutionTx
  import opened WorkspaceTx
  import opened AgentTx
  import opened Steps

  datatype PlanHandle = PlanHandle(identity: RemoteIdentity, status: string, reconciliation: bool)
  datatype PlanResult = PlanResult(content: string, status: string)
  datatype LeaseToken = LeaseToken(task: string, writer: ActiveWriter, epoch: nat, revision: nat)

  datatype StartRequest =
    | PlanStart
    | ExecutionStart(plan: nat, planHandle: PlanHandle, planResult: PlanResult, lease: LeaseToken)

  datatype StartReply = CallRaised | Handle(handle: PlanHandle)
  datatype InterruptReply = InterruptRaised | InterruptStatus(status: string, reconciliation: bool)

  /** What the rest of the system does while one start is under way. */
  datatype Environment = Environment(
    duringCall: seq<Step>, beforeBind: seq<Step>, duringInterrupt: seq<Step>, interrupt: InterruptReply)

  datatype StartError = StaleRevision | GateRefused

  datatype StartOutcome =
    | NotStarted(error: StartError)   // StaleRevisionError or AgentPlanGateError before the call
    | CallFailed                      // the remote call itself raised
    | Bound
    | StaleContext                    // AgentStaleContextError
    | CompensationOpen                // AgentCompensationRequiredError

  datatype StaleReason =
    | RevisionMoved | IntentMoved | PlanVersionMoved | GoalMoved | PhaseMoved | StatusMoved
    | SafetyBlocked | RuntimeMoved | WriterNotCodex | EpochMoved | LeaseInvalid
    | NoApprovedPlan | OtherPlanApproved | PlanContentMoved | AcknowledgementUnknown

  predicate ActiveStatus(status: string) {
    var s := Lower(status);
    s == "planning" || s == "executing" || s == "running" || s == "inprogress" || s == "in_progress" || s == "started"
  }

  predicate ActiveRuntime(r: Option<Runtime>) {
    r.Some? && r.value.status.Some? && r.value.status.value.Reported? && ActiveStatus(r.value.status.value.text)
  }

  predicate UnknownStatus(status: string) {
    Lower(status) == "unknown"
  }

  predicate FailedStatus(status: string) {
    var s := Lower(status);
    s == "invalid" || s == "failed" || s == "error"
  }

  /** `_INTERRUPT_SUCCESS` and a snapshot that needs no reconciliation: the remote side is known to be stopped. */
  predicate Confirmed(reply: InterruptReply) {
    reply.InterruptStatus? && !reply.reconciliation
    && var s := Lower(Strip(reply.status));
       s == "interrupted" || s == "cancelled" || s == "canceled" || s == "stopped" || s == "terminated"
       || s == "completed" || s == "succeeded" || s == "success"
  }

  /** The remote acknowledgement does not say whether the turn exists. */
  predicate AckUnknown(h: PlanHandle) {
    h.reconciliation
    || var s := Lower(Strip(h.status)); s == "unknown" || s == "reconciliation_required" || s == "compensation_required"
  }

  function IdentityOf(r: Option<Runtime>): Option<RemoteIdentity> {
    if r.Some? then Some(r.value.identity) else None
  }

  /** Two optional identifiers that are both there and differ. */
  predicate Conflicting(a: Option<string>, b: Option<string>) {
    Truthy(a) && Truthy(b) && a != b
  }

  /** `_assert_safety_clear`. */
  predicate SafetyGate(s: Store) {
    SafetyClear(s) && (s.workspace.Some? ==> s.workspace.value.state == Active)
  }

  predicate LeaseGate(s: Store, expected: nat, lease: LeaseToken) {
    && s.exec.writer == CodexWriter
    && lease.task == s.task.id && lease.writer == CodexWriter
    && lease.epoch == s.exec.epoch && lease.revision == expected
  }

  /** The reviewed plan is the locally approved one, and the read-only runtime is the one it came from. */
  predicate PlanGate(s: Store, q: StartRequest)
    requires q.ExecutionStart?
  {
    var approved := ApprovedPlan(s.plans);
    && approved == Some(q.plan)
    && s.runtime.Some?
    && !Conflicting(s.runtime.value.identity.workflow, q.planHandle.identity.workflow)
    && !Conflicting(s.runtime.value.identity.thread, q.planHandle.identity.thread)
    && !q.planHandle.reconciliation && !UnknownStatus(q.planHandle.status)
    && !Blank(q.planResult.content) && !FailedStatus(q.planResult.status)
    && Normalized(q.planResult.content) == Normalized(s.plans[approved.value].content)
  }

  /** The checks before the remote call. */
  function StartGate(s: Store, expected: nat, q: StartRequest): Option<StartError> {
    if s.task.revision != expected then Some(StaleRevision)
    else if !SafetyGate(s) then Some(GateRefused)
    else if q.PlanStart? then (if ActiveRuntime(s.runtime) then Some(GateRefused) else None)
    else if !LeaseGate(s, expected, q.lease) then Some(GateRefused)
    else if !PlanGate(s, q) then Some(GateRefused)
    else None
  }

  /** What the coordinator keeps from the moment of the gate. */
  datatype Baseline = Baseline(task: Task, runtime: Option<RemoteIdentity>, content: string)

  function BaselineOf(s: Store): Baseline {
    var approved := ApprovedPlan(s.plans);
    Baseline(s.task, IdentityOf(s.runtime), if approved.Some? then s.plans[approved.value].content else "")
  }

  function Found(test: bool, reason: StaleReason): seq<StaleReason> {
    if test then [reason] else []
  }

  function TaskReasons(now: Task, before: Task): seq<StaleReason> {
    Found(now.intentVersion != before.intentVersion, IntentMoved)
    + Found(now.planVersion != before.planVersion, PlanVersionMoved)
    + Found(now.goal != before.goal, GoalMoved)
    + Found(now.phase != before.phase, PhaseMoved)
    + Found(now.status != before.status, StatusMoved)
  }

  function ApprovalReasons(s: Store, plan: nat, content: string): seq<StaleReason> {
    var approved := ApprovedPlan(s.plans);
    if approved.None? then [NoApprovedPlan]
    else
      Found(approved.value != plan, OtherPlanApproved)
      + Found(Normalized(s.plans[approved.value].content) != Normalized(content), PlanContentMoved)
  }

  function LeaseReasons(s: Store, q: StartRequest, base: Baseline): seq<StaleReason> {
    if q.PlanStart? then []
    else
      Found(s.exec.writer != CodexWriter, WriterNotCodex)
      + Found(s.exec.epoch != q.lease.epoch, EpochMoved)
      + Found(q.lease.task != s.task.id || q.lease.writer != CodexWriter, LeaseInvalid)
      + ApprovalReasons(s, q.plan, base.content)
  }

  /** `_post_call_stale_reasons`. */
  function StaleReasons(s: Store, expected: nat, q: StartRequest, base: Baseline, h: PlanHandle): seq<StaleReason> {
    Found(s.task.revision != expected, RevisionMoved)
    + TaskReasons(s.task, base.task)
    + Found(!SafetyClear(s), SafetyBlocked)
    + Found(IdentityOf(s.runtime) != base.runtime, RuntimeMoved)
    + LeaseReasons(s, q, base)
    + Found(AckUnknown(h), AcknowledgementUnknown)
  }

  /** The runtime row a successful start writes. */
  function BindingFor(q: StartRequest, h: PlanHandle): (b: RuntimeBinding)
    ensures b.event == CodexStarted
  {
    match q
    case PlanStart =>
      RuntimeBinding(CodexStarted, h.identity, Some(Reported(h.status)), None, None, Some(Planning),
                     Some(PreparingPlan))
    case ExecutionStart(_, planHandle, _, _) =>
      RuntimeBinding(CodexStarted,
                     h.identity.(workflow := OrElse(h.identity.workflow, planHandle.identity.workflow),
                                 thread := OrElse(h.identity.thread, planHandle.identity.thread)),
                     Some(Reported(h.status)), None, None, Some(Implementing), Some(ImplementingPlan))
  }

  function OperationOf(q: StartRequest): GuardedOperation {
    if q.PlanStart? then PlanOperation else ExecutionOperation
  }

  /** The record written once the interrupt has answered. */
  function Verdict(operation: GuardedOperation, h: PlanHandle, reply: InterruptReply): AgentStep {
    if reply.InterruptRaised? then RecordRequired(operation, InterruptCallFailed, h.identity, true)
    else if !Confirmed(reply) then RecordRequired(operation, OutcomeUnknown(reply.status), h.identity, true)
    else RecordSucceeded(operation, InterruptedBeforeBinding, h.identity)
  }

  function LatchFor(operation: GuardedOperation, h: PlanHandle): AgentStep {
    Latch(operation, CompensationPending, h.identity)
  }

  /** `_compensate_remote`: latch, interrupt, record. */
  function Compensate(s: Store, operation: GuardedOperation, h: PlanHandle, env: Environment): (Store, StartOutcome) {
    var latched := Apply(s, AgentOp(LatchFor(operation, h)));
    var later := Run(latched, env.duringInterrupt);
    (Apply(later, AgentOp(Verdict(operation, h, env.interrupt))),
     if Confirmed(env.interrupt) then StaleContext else CompensationOpen)
  }

  /** `start_plan` and `start_execution`. */
  function Start(s: Store, expected: nat, q: StartRequest, reply: StartReply, env: Environment): (Store, StartOutcome) {
    var gate := StartGate(s, expected, q);
    if gate.Some? then (s, NotStarted(gate.value))
    else
      var called := Run(s, env.duringCall);
      if reply.CallRaised? then (called, CallFailed)
      else if StaleReasons(called, expected, q, BaselineOf(s), reply.handle) != [] then
        Compensate(called, OperationOf(q), reply.handle, env)
      else
        var before := Run(called, env.beforeBind);
        match BindCodexRuntime(before, expected, BindingFor(q, reply.handle))
        case Ok(t) => (t, Bound)
        case Err(_) => Compensate(before, OperationOf(q), reply.handle, env)
  }
}
