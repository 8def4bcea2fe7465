/** Safety of remote starts: the revision fence, one bind per revision, and the compensation latch. */
module StartProofs {
  import opened Prelude
  import opened Text
  import opened Model
  import opened ExecutionTx
  import opened WorkspaceTx
  import opened AgentTx
  import opened MemoryTx
  import opened CheckpointTx
  import opened ReplanTx
  import opened Steps
  import opened RevisionProofs
  import opened OperationProofs
  import opened LeaseProofs
  import opened StartProtocol

  /** With the supervised tables as the gate saw them, only an unknown acknowledgement can object. */
  lemma RecheckOnSameTables(s: Store, t: Store, expected: nat, q: StartRequest, h: PlanHandle)
    requires StartGate(s, expected, q).None? && Supervised(t) == Supervised(s)
    ensures StaleReasons(t, expected, q, BaselineOf(s), h) == Found(AckUnknown(h), AcknowledgementUnknown)
  {
    hide Normalized, AckUnknown, ActiveStatus, ApprovedPlan, Strip, Lower;
  }

  /** Revision equality alone implies every other re-check. */
  lemma RecheckIsRevisionCheck(s: Store, during: seq<Step>, expected: nat, q: StartRequest, h: PlanHandle)
    requires StartGate(s, expected, q).None?
    ensures var t := Run(s, during);
            StaleReasons(t, expected, q, BaselineOf(s), h) == [] <==> t.task.revision == expected && !AckUnknown(h)
  {
    hide Attempt, Run, Normalized, AckUnknown, ActiveStatus, ApprovedPlan, LeaseReasons, TaskReasons, SafetyGate;
    var t := Run(s, during);
    RunRevision(s, during);
    if t.task.revision == expected {
      RecheckOnSameTables(s, t, expected, q, h);
    } else {
      assert StaleReasons(t, expected, q, BaselineOf(s), h)[0] == RevisionMoved;
    }
  }

  /** The start fence: bound exactly when nothing advanced the revision and the acknowledgement is known. */
  lemma StartFence(s: Store, expected: nat, q: StartRequest, h: PlanHandle, env: Environment)
    requires StartGate(s, expected, q).None?
    ensures Start(s, expected, q, Handle(h), env).1.Bound?
            <==> Run(s, env.duringCall + env.beforeBind).task.revision == expected && !AckUnknown(h)
  {
    hide Attempt, Run, StaleReasons, AckUnknown, SafetyGate, LeaseGate, PlanGate, BindingFor, Verdict, Confirmed, Merge;
    RecheckIsRevisionCheck(s, env.duringCall, expected, q, h);
    RunThrough(s, env.duringCall, env.beforeBind);
    RunRevision(s, env.duringCall);
    RunRevision(Run(s, env.duringCall), env.beforeBind);
  }

  /** What a bound start leaves behind: the tables the gate saw, plus the runtime row, at the next revision. */
  lemma BoundStartWrites(s: Store, expected: nat, q: StartRequest, h: PlanHandle, env: Environment)
    requires Start(s, expected, q, Handle(h), env).1.Bound?
    ensures var t := Start(s, expected, q, Handle(h), env).0;
            && t.task.revision == expected + 1
            && t.runtime == Some(Merge(s.runtime, BindingFor(q, h)))
            && t.exec == s.exec && t.plans == s.plans && t.safety == s.safety && t.decisions == s.decisions
            && t.constraints == s.constraints && t.task.goal == s.task.goal
            && (q.ExecutionStart? ==> t.exec.writer == CodexWriter && t.exec.epoch == q.lease.epoch
                                      && ApprovedPlan(t.plans) == Some(q.plan))
  {
    hide Attempt, Run, StaleReasons, AckUnknown, SafetyGate, BindingFor, Verdict, Confirmed, Merge, Normalized, Blank,
         FailedStatus, UnknownStatus, ApprovedPlan;
    RunRevision(s, env.duringCall);
    RunRevision(Run(s, env.duringCall), env.beforeBind);
  }

  /** Of all starts based on one revision at most one binds: the second bind step of a run finds the revision spent. */
  lemma OneBindPerRevision(s: Store, steps: seq<Step>, i: nat, j: nat, expected: nat, a: RuntimeBinding,
                           b: RuntimeBinding)
    requires i < |steps| && j < |steps|
    requires steps[i] == AgentOp(BindRuntime(expected, a)) && steps[j] == AgentOp(BindRuntime(expected, b))
    requires Attempt(At(s, steps, i), steps[i]).Ok? && Attempt(At(s, steps, j), steps[j]).Ok?
    ensures i == j
  {
    hide At, Run;
    if i != j {
      RevisionSpentOnce(s, steps, i, j);
    }
  }

  /** A start that another start's bind overtook is never bound. */
  lemma OvertakenStartNotBound(s: Store, expected: nat, q: StartRequest, h: PlanHandle, env: Environment,
                               k: nat, other: RuntimeBinding)
    requires var steps := env.duringCall + env.beforeBind;
             k < |steps| && steps[k] == AgentOp(BindRuntime(expected, other)) && Attempt(At(s, steps, k), steps[k]).Ok?
    ensures !Start(s, expected, q, Handle(h), env).1.Bound?
  {
    hide Attempt, Run, At, Start, StartGate;
    var steps := env.duringCall + env.beforeBind;
    if StartGate(s, expected, q).None? {
      StartFence(s, expected, q, h, env);
      BindAdvances(At(s, steps, k), expected, other);
      NextStore(s, steps, k);
      EqualRevisionsEqualTables(s, steps, 0, k);
      EqualRevisionsEqualTables(s, steps, k + 1, |steps|);
      Ends(s, steps);
      GateRevision(s, expected, q);
    } else {
      RefusedNotBound(s, expected, q, h, env);
    }
  }

  lemma BindAdvances(s: Store, expected: nat, b: RuntimeBinding)
    requires Attempt(s, AgentOp(BindRuntime(expected, b))).Ok?
    ensures Apply(s, AgentOp(BindRuntime(expected, b))).task.revision == s.task.revision + 1
  {
  }

  lemma GateRevision(s: Store, expected: nat, q: StartRequest)
    requires StartGate(s, expected, q).None?
    ensures s.task.revision == expected
  {
  }

  lemma RefusedNotBound(s: Store, expected: nat, q: StartRequest, h: PlanHandle, env: Environment)
    requires StartGate(s, expected, q).Some?
    ensures Start(s, expected, q, Handle(h), env) == (s, NotStarted(StartGate(s, expected, q).value))
  {
    hide StartGate, Run, Attempt, StaleReasons;
  }

  /** No start passes its gate under the safety latch, on a workspace to be reconciled, or with an ended lease. */
  lemma GateRefuses(s: Store, expected: nat, q: StartRequest)
    requires || !SafetyClear(s)
             || (s.workspace.Some? && s.workspace.value.state == ReconciliationRequired)
             || (q.ExecutionStart? && Ended(s, CodexWriter, q.lease.epoch))
    ensures StartGate(s, expected, q).Some?
  {
    hide PlanGate, ActiveRuntime;
  }

  /** Fail-closed: once reconciliation is required, no later gate of the run opens. */
  lemma NoStartAfterReconciliation(s: Store, steps: seq<Step>, expected: nat, q: StartRequest)
    requires OperationInv(s) && s.workspace.Some? && s.workspace.value.state == ReconciliationRequired
    ensures StartGate(Run(s, steps), expected, q).Some?
  {
    hide Attempt, Run, StartGate;
    ReconciliationAbsorbs(s, steps);
    GateRefuses(Run(s, steps), expected, q);
  }

  /** A compensated start ends with the safety row Clear exactly when the interrupt was confirmed. */
  lemma CompensationVerdict(s: Store, expected: nat, q: StartRequest, h: PlanHandle, env: Environment)
    requires StartGate(s, expected, q).None? && !Start(s, expected, q, Handle(h), env).1.Bound?
    ensures var (t, outcome) := Start(s, expected, q, Handle(h), env);
            && t.safety.Some? && t.safety.value.identity == h.identity
            && t.safety.value.state == (if Confirmed(env.interrupt) then Clear else SafetyReconciliation)
            && outcome == (if Confirmed(env.interrupt) then StaleContext else CompensationOpen)
            && expected < t.task.revision
  {
    hide Run, StaleReasons, AckUnknown, Confirmed, StartGate, BindingFor, BindCodexRuntime,
         AttemptExecution, AttemptWorkspace, AttemptMemory, AttemptCheckpoint, AttemptReplan;
    GateRevision(s, expected, q);
    RaisedIsUnconfirmed(env.interrupt);
    var called := Run(s, env.duringCall);
    RunRevision(s, env.duringCall);
    RunRevision(called, env.beforeBind);
    var latch := AgentOp(LatchFor(OperationOf(q), h));
    RunRevision(Apply(called, latch), env.duringInterrupt);
    RunRevision(Apply(Run(called, env.beforeBind), latch), env.duringInterrupt);
  }

  lemma RaisedIsUnconfirmed(reply: InterruptReply)
    ensures reply.InterruptRaised? ==> !Confirmed(reply)
  {
  }

  /** The step records a confirmed compensation, or reconciles by hand on the current revision. */
  predicate ClearsSafety(s: Store, step: Step) {
    step.AgentOp? && (step.agent.RecordSucceeded? || (step.agent.Reconcile? && step.agent.expected == s.task.revision))
  }

  /** A latch is cleared by exactly these steps. */
  lemma LatchClearedExactlyBy(s: Store, step: Step)
    requires !SafetyClear(s)
    ensures SafetyClear(Apply(s, step)) <==> ClearsSafety(s, step)
  {
    hide AttemptMemory, AttemptCheckpoint, AttemptReplan;
    if step.MemoryOp? || step.CheckpointOp? || step.ReplanOp? {
      OtherStepsKeepLease(s, step);
    }
  }

  /** Until such a step the lease is frozen, nothing is prepared, and no start passes its gate, in every run. */
  lemma {:induction false} LatchHolds(s: Store, steps: seq<Step>)
    requires !SafetyClear(s)
    requires forall k :: 0 <= k < |steps| ==> !ClearsSafety(At(s, steps, k), steps[k])
    ensures var t := Run(s, steps);
            && !SafetyClear(t)
            && t.exec == s.exec.(policy := t.exec.policy)
            && |t.operations| == |s.operations|
            && forall expected, q :: StartGate(t, expected, q).Some?
  {
    hide Attempt, StartGate, SafetyClear;
    if steps != [] {
      var n := |steps| - 1;
      assert forall k :: 0 <= k < n ==> steps[..n][..k] == steps[..k] && steps[..n][k] == steps[k];
      LatchHolds(s, steps[..n]);
      assert !ClearsSafety(At(s, steps, n), steps[n]);
      LatchClearedExactlyBy(Run(s, steps[..n]), steps[n]);
      LatchFreezesLease(Run(s, steps[..n]), steps[n]);
    }
    forall expected, q ensures StartGate(Run(s, steps), expected, q).Some? {
      GateRefuses(Run(s, steps), expected, q);
    }
  }

  /** The workspace is not stopped and nothing is PREPARED. */
  predicate WorkspaceQuiet(s: Store) {
    !WorkspaceStopped(s) && !HasPrepared(s.operations)
  }

  /** Preparing an operation moves the revision, and without a prepared operation nothing stops the workspace. */
  lemma QuietWorkspaceStep(s: Store, w: WorkspaceStep)
    requires WorkspaceQuiet(s) && After(s, AttemptWorkspace(s, w)).task.revision == s.task.revision
    ensures WorkspaceQuiet(After(s, AttemptWorkspace(s, w)))
  {
    hide Blank, Strip, SafetyClear;
  }

  lemma QuietStep(s: Store, step: Step)
    requires WorkspaceQuiet(s) && Apply(s, step).task.revision == s.task.revision
    ensures WorkspaceQuiet(Apply(s, step))
  {
    hide AttemptExecution, AttemptWorkspace, AttemptAgent, AttemptMemory, AttemptCheckpoint, AttemptReplan;
    match step
    case LeaseOp(e) => ExecutionKeepsWorkspace(s, e);
    case WorkspaceOp(w) => QuietWorkspaceStep(s, w);
    case AgentOp(a) => AgentKeepsWorkspace(s, a);
    case _ => OtherStepsKeepLease(s, step);
  }

  lemma {:induction false} QuietRun(s: Store, steps: seq<Step>)
    requires WorkspaceQuiet(s) && Run(s, steps).task.revision == s.task.revision
    ensures WorkspaceQuiet(Run(s, steps))
  {
    hide Attempt, WorkspaceQuiet;
    if steps != [] {
      var n := |steps| - 1;
      RunRevision(s, steps[..n]);
      StepRevision(Run(s, steps[..n]), steps[n]);
      QuietRun(s, steps[..n]);
      QuietStep(Run(s, steps[..n]), steps[n]);
    }
  }

  /** With nothing PREPARED at the gate, a bound start ends on a workspace that is not stopped. */
  lemma QuietStartIsUsable(s: Store, expected: nat, q: StartRequest, h: PlanHandle, env: Environment)
    requires StartGate(s, expected, q).None? && !HasPrepared(s.operations)
    requires Start(s, expected, q, Handle(h), env).1.Bound?
    ensures !WorkspaceStopped(Start(s, expected, q, Handle(h), env).0)
  {
    hide Attempt, Run, StaleReasons, AckUnknown, LeaseGate, PlanGate, BindingFor, Verdict, Confirmed, Merge,
         HasPrepared,
         ActiveRuntime;
    assert WorkspaceQuiet(s) && s.task.revision == expected;
    hide WorkspaceQuiet;
    RunThrough(s, env.duringCall, env.beforeBind);
    StartFence(s, expected, q, h, env);
    QuietRun(s, env.duringCall + env.beforeBind);
    QuietMeansNotStopped(Run(s, env.duringCall + env.beforeBind));
  }

  lemma QuietMeansNotStopped(s: Store)
    requires WorkspaceQuiet(s)
    ensures !WorkspaceStopped(s)
  {
  }

  /** An open execution gate means that nothing is PREPARED: CODEX holds the lease. */
  lemma ExecutionGateMeansNothingPrepared(s: Store, expected: nat, q: StartRequest)
    requires OperationInv(s) && q.ExecutionStart? && StartGate(s, expected, q).None?
    ensures !HasPrepared(s.operations)
  {
    hide PlanGate;
    PreparedMeansChatGpt(s);
  }

  lemma PreparedMeansChatGpt(s: Store)
    requires OperationInv(s)
    ensures HasPrepared(s.operations) ==> s.exec.writer == ChatGpt
  {
  }

  /** Marking a prepared operation during the call stops the workspace without moving the revision. */
  lemma MarkedDuringCall(s: Store, expected: nat, q: StartRequest, h: PlanHandle, env: Environment, id: nat,
                         note: string)
    requires OperationInv(s) && StartGate(s, expected, q).None? && !AckUnknown(h) && InFlight(s, id)
    requires env.duringCall == [WorkspaceOp(MarkUnknown(id, note, map[]))] && env.beforeBind == []
    ensures var (t, outcome) := Start(s, expected, q, Handle(h), env); outcome.Bound? && WorkspaceStopped(t)
  {
    hide StaleReasons, AckUnknown, SafetyGate, ActiveRuntime, Confirmed, BindingFor, Merge, LeaseGate, PlanGate,
         AttemptExecution, AttemptAgent, AttemptMemory, AttemptCheckpoint, AttemptReplan;
    StartFence(s, expected, q, h, env);
    assert env.duringCall + env.beforeBind == env.duringCall;
    assert env.duringCall[..0] == [];
    var marked := Run(s, env.duringCall);
    assert marked == Apply(Run(s, []), env.duringCall[0]) == Apply(s, env.duringCall[0]);
    assert marked.workspace.Some? && marked.workspace.value.state == ReconciliationRequired;
  }

  /**
   The re-check does not look at the workspace. A bound start is sure to find it usable, whatever happens meanwhile,
   exactly when no direct operation is PREPARED at the gate.
   */
  lemma UsableIffNothingPrepared(s: Store, expected: nat, q: StartRequest, h: PlanHandle)
    requires OperationInv(s) && StartGate(s, expected, q).None? && !AckUnknown(h)
    ensures (forall env :: Start(s, expected, q, Handle(h), env).1.Bound?
                           ==> !WorkspaceStopped(Start(s, expected, q, Handle(h), env).0))
            <==> !HasPrepared(s.operations)
  {
    hide Start, StartGate, AckUnknown, OperationInv;
    if HasPrepared(s.operations) {
      var id :| 0 <= id < |s.operations| && s.operations[id].status == Prepared;
      var env := Environment([WorkspaceOp(MarkUnknown(id, "", map[]))], [], [], InterruptRaised);
      MarkedDuringCall(s, expected, q, h, env, id, "");
    } else {
      forall env | Start(s, expected, q, Handle(h), env).1.Bound?
        ensures !WorkspaceStopped(Start(s, expected, q, Handle(h), env).0)
      {
        QuietStartIsUsable(s, expected, q, h, env);
      }
    }
  }

  /** So an execution start that is bound never ends on a stopped workspace. */
  lemma ExecutionStartUsable(s: Store, expected: nat, q: StartRequest, h: PlanHandle, env: Environment)
    requires OperationInv(s) && q.ExecutionStart? && Start(s, expected, q, Handle(h), env).1.Bound?
    ensures !WorkspaceStopped(Start(s, expected, q, Handle(h), env).0)
  {
    hide Start, StartGate, OperationInv, HasPrepared;
    if StartGate(s, expected, q).Some? {
      RefusedNotBound(s, expected, q, h, env);
    } else {
      ExecutionGateMeansNothingPrepared(s, expected, q);
      QuietStartIsUsable(s, expected, q, h, env);
    }
  }
}
