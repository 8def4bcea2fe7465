/** Two-phase direct operations: the prepared-operation invariant and the two fail-closed states. */
module OperationProofs {
  import opened Prelude
  import opened Text
  import opened Model
  import opened ExecutionTx
  import opened WorkspaceTx
  import opened AgentTx
  import opened MemoryTx
  import opened CheckpointTx
  import opened ReplanTx
  import opened Steps
  import opened RevisionProofs

  /** What the store must look like while this operation is PREPARED. */
  predicate Held(s: Store, op: DirectOperation) {
    && s.exec.writer == ChatGpt
    && s.exec.epoch == op.epoch
    && s.exec.mode != CodexSupervised
    && s.workspace.Some? && s.workspace.value.state == Active
    && op.preparedRevision <= s.task.revision
    && (!SafetyClear(s) ==> op.preparedRevision < s.task.revision)
  }

  ghost predicate OperationInv(s: Store) {
    && (forall i, j :: 0 <= i < j < |s.operations| ==>
          !(s.operations[i].status == Prepared && s.operations[j].status == Prepared))
    && (forall i :: 0 <= i < |s.operations| && s.operations[i].status == Prepared ==> Held(s, s.operations[i]))
    && (forall i :: 0 <= i < |s.operations| && s.operations[i].status == Succeeded ==>
          s.operations[i].completedRevision == Some(s.operations[i].preparedRevision + 1))
  }

  /** The fields the operation invariant reads. */
  predicate SameLease(s: Store, t: Store) {
    t.exec == s.exec && t.workspace == s.workspace && t.operations == s.operations && t.safety == s.safety
  }

  lemma MemoryKeepsLease(s: Store, m: MemoryStep)
    ensures SameLease(s, After(s, AttemptMemory(s, m)))
  {
  }

  lemma ReplanKeepsLease(s: Store, r: ReplanStep)
    ensures SameLease(s, After(s, AttemptReplan(s, r)))
  {
  }

  lemma OtherStepsKeepLease(s: Store, step: Step)
    requires step.MemoryOp? || step.CheckpointOp? || step.ReplanOp?
    ensures SameLease(s, Apply(s, step)) && s.task.revision <= Apply(s, step).task.revision
  {
    hide AttemptMemory, AttemptReplan;
    StepRevision(s, step);
    match step
    case MemoryOp(m) => MemoryKeepsLease(s, m);
    case CheckpointOp(c) =>
    case ReplanOp(r) => ReplanKeepsLease(s, r);
    case _ =>
  }

  lemma ExecutionKeepsWorkspace(s: Store, e: ExecutionStep)
    ensures var t := After(s, AttemptExecution(s, e)); t.operations == s.operations && t.workspace == s.workspace
  {
    hide Blank, Strip, TransitionSafe, WriterRefusal;
  }

  lemma AgentKeepsWorkspace(s: Store, a: AgentStep)
    ensures var t := After(s, AttemptAgent(s, a)); t.operations == s.operations && t.workspace == s.workspace
  {
    hide Merge;
  }

  lemma ExecutionKeepsOperations(s: Store, e: ExecutionStep)
    requires OperationInv(s)
    ensures OperationInv(After(s, AttemptExecution(s, e)))
  {
    hide Blank, Strip;
    if HasPrepared(s.operations) && !e.SetPolicy? {
      assert !TransitionSafe(s);
    }
  }

  lemma PrepareKeepsOperations(s: Store, w: WorkspaceStep)
    requires OperationInv(s) && w.Prepare?
    ensures OperationInv(After(s, AttemptWorkspace(s, w)))
  {
    hide Blank, Strip;
  }

  /** One PREPARED row is settled, or annotated. */
  lemma SettlingKeepsOperations(s: Store, w: WorkspaceStep)
    requires OperationInv(s) && (w.Annotate? || w.MarkUnknown? || w.Complete?)
    ensures OperationInv(After(s, AttemptWorkspace(s, w)))
  {
  }

  lemma BindingKeepsOperations(s: Store, w: WorkspaceStep)
    requires OperationInv(s) && (w.Bind? || w.Observe?)
    ensures OperationInv(After(s, AttemptWorkspace(s, w)))
  {
    hide Blank, Strip;
  }

  lemma WorkspaceKeepsOperations(s: Store, w: WorkspaceStep)
    requires OperationInv(s)
    ensures OperationInv(After(s, AttemptWorkspace(s, w)))
  {
    hide AttemptWorkspace;
    match w
    case Prepare(_, _, _, _, _) => PrepareKeepsOperations(s, w);
    case Bind(_, _, _, _) => BindingKeepsOperations(s, w);
    case Observe(_) => BindingKeepsOperations(s, w);
    case _ => SettlingKeepsOperations(s, w);
  }

  lemma AgentKeepsOperations(s: Store, a: AgentStep)
    requires OperationInv(s)
    ensures OperationInv(After(s, AttemptAgent(s, a)))
  {
  }

  lemma StepKeepsOperations(s: Store, step: Step)
    requires OperationInv(s)
    ensures OperationInv(Apply(s, step))
  {
    hide AttemptExecution, AttemptWorkspace, AttemptAgent, AttemptMemory, AttemptCheckpoint, AttemptReplan;
    match step
    case LeaseOp(e) => ExecutionKeepsOperations(s, e);
    case WorkspaceOp(w) => WorkspaceKeepsOperations(s, w);
    case AgentOp(a) => AgentKeepsOperations(s, a);
    case _ => OtherStepsKeepLease(s, step);
  }

  lemma {:induction false} RunKeepsOperations(s: Store, steps: seq<Step>)
    requires OperationInv(s)
    ensures OperationInv(Run(s, steps))
  {
    hide Attempt;
    if steps != [] {
      var n := |steps| - 1;
      RunKeepsOperations(s, steps[..n]);
      StepKeepsOperations(Run(s, steps[..n]), steps[n]);
    }
  }

  /** With its own epoch passed in, the four-part stability test is revision equality. */
  lemma StabilityIsRevisionEquality(s: Store, operation: nat)
    requires OperationInv(s) && InFlight(s, operation)
    ensures var op := s.operations[operation];
            Stable(s, op, op.epoch) <==> s.task.revision == op.preparedRevision
  {
  }

  predicate OperationIs(s: Store, operation: nat, status: OperationStatus) {
    operation < |s.operations| && s.operations[operation].status == status
  }

  predicate WorkspaceStopped(s: Store) {
    s.workspace.Some? && s.workspace.value.state == ReconciliationRequired
  }

  lemma HeldWhileInFlight(s: Store, id: nat)
    requires OperationInv(s) && InFlight(s, id)
    ensures Held(s, s.operations[id])
  {
  }

  /** What completing does to an operation in flight, by revision alone. */
  lemma CompletionByRevision(s: Store, id: nat, r: OperationResult)
    requires OperationInv(s) && InFlight(s, id)
    ensures var op := s.operations[id];
            var c := CompleteDirectOperation(s, id, op.epoch, r);
            && c.Ok?
            && (s.task.revision == op.preparedRevision ==>
                  OperationIs(c.store, id, Succeeded) && !WorkspaceStopped(c.store)
                  && c.store.task.revision == s.task.revision + 1
                  && c.store.operations[id].completedRevision == Some(s.task.revision + 1))
            && (s.task.revision != op.preparedRevision ==>
                  OperationIs(c.store, id, NeedsReconciliation) && WorkspaceStopped(c.store) && c.store.task == s.task)
  {
    hide OperationInv;
    HeldWhileInFlight(s, id);
    StabilityIsRevisionEquality(s, id);
    hide Held, Stable;
  }

  /** What prepare leaves: the operation in flight, at the next revision. */
  lemma PreparedOperation(s: Store, expected: nat, epoch: nat, kind: string, digest: string,
                          details: map<string, string>)
    requires PrepareDirectOperation(s, expected, epoch, kind, digest, details).Ok?
    ensures var p := PrepareDirectOperation(s, expected, epoch, kind, digest, details).store;
            && p == Apply(s, WorkspaceOp(Prepare(expected, epoch, kind, digest, details)))
            && InFlight(p, |s.operations|) && p.task.revision == expected + 1
            && p.operations[|s.operations|].epoch == epoch
              && p.operations[|s.operations|].preparedRevision == expected + 1
  {
    hide Blank, Strip;
  }

  /** Completion succeeds exactly when nothing has moved the revision since the operation was prepared. */
  lemma SucceedsIffUntouched(s: Store, expected: nat, epoch: nat, kind: string, digest: string,
                             details: map<string, string>, during: seq<Step>, result: OperationResult)
    requires OperationInv(s) && PrepareDirectOperation(s, expected, epoch, kind, digest, details).Ok?
    requires var p := PrepareDirectOperation(s, expected, epoch, kind, digest, details).store;
             InFlight(Run(p, during), |s.operations|)
    ensures var p := PrepareDirectOperation(s, expected, epoch, kind, digest, details).store;
            var t := Run(p, during);
            var c := CompleteDirectOperation(t, |s.operations|, epoch, result);
            && c.Ok?
            && (OperationIs(c.store, |s.operations|, Succeeded) <==> Supervised(t) == Supervised(p))
            && (OperationIs(c.store, |s.operations|, Succeeded) ==>
                  !WorkspaceStopped(c.store)
                    && c.store.operations[|s.operations|].completedRevision == Some(expected + 2))
            && (!OperationIs(c.store, |s.operations|, Succeeded) ==>
                  OperationIs(c.store, |s.operations|, NeedsReconciliation) && WorkspaceStopped(c.store)
                  && c.store.task == t.task)
  {
    hide Run, Attempt, Apply, OperationInv, PrepareDirectOperation, CompleteDirectOperation;
    var id := |s.operations|;
    var prepare := WorkspaceOp(Prepare(expected, epoch, kind, digest, details));
    var p := Apply(s, prepare);
    PreparedOperation(s, expected, epoch, kind, digest, details);
    StepKeepsOperations(s, prepare);
    RunKeepsOperations(p, during);
    RunRevision(p, during);
    PreparedFactsFixed(p, during, id);
    CompletionByRevision(Run(p, during), id, result);
  }

  /** An operation row keeps its epoch and prepared revision for good. */
  lemma StepKeepsPreparedFacts(s: Store, step: Step, id: nat)
    requires id < |s.operations|
    ensures var t := Apply(s, step);
            && id < |t.operations|
            && t.operations[id].epoch == s.operations[id].epoch
            && t.operations[id].preparedRevision == s.operations[id].preparedRevision
            && (s.operations[id].status != Prepared ==> t.operations[id] == s.operations[id])
  {
    hide AttemptMemory, AttemptCheckpoint, AttemptReplan, Blank, Strip;
    match step
    case LeaseOp(e) =>
    case WorkspaceOp(w) =>
    case AgentOp(a) =>
    case _ => OtherStepsKeepLease(s, step);
  }

  lemma {:induction false} PreparedFactsFixed(s: Store, steps: seq<Step>, id: nat)
    requires id < |s.operations|
    ensures var t := Run(s, steps);
            && id < |t.operations|
            && t.operations[id].epoch == s.operations[id].epoch
            && t.operations[id].preparedRevision == s.operations[id].preparedRevision
            && (s.operations[id].status != Prepared ==> t.operations[id] == s.operations[id])
  {
    hide Attempt;
    if steps != [] {
      var n := |steps| - 1;
      PreparedFactsFixed(s, steps[..n], id);
      StepKeepsPreparedFacts(Run(s, steps[..n]), steps[n], id);
    }
  }

  /** The workspace needs reconciliation: no step gets out of it, nor moves the lease, nor starts an operation. */
  lemma StepInReconciliation(s: Store, step: Step)
    requires OperationInv(s)
    requires s.workspace.Some? && s.workspace.value.state == ReconciliationRequired
    ensures var t := Apply(s, step);
            && t.workspace.Some? && t.workspace.value.state == ReconciliationRequired
            && t.workspace.value.identity == s.workspace.value.identity
            && t.exec == s.exec.(policy := t.exec.policy)
            && t.operations == s.operations
            && !HasPrepared(t.operations)
  {
    assert !HasPrepared(s.operations);
    match step
    case LeaseOp(e) =>
    case WorkspaceOp(w) =>
    case AgentOp(a) =>
    case _ => OtherStepsKeepLease(s, step);
  }

  /** Fail-closed absorption, over every continuation. */
  lemma {:induction false} ReconciliationAbsorbs(s: Store, steps: seq<Step>)
    requires OperationInv(s)
    requires s.workspace.Some? && s.workspace.value.state == ReconciliationRequired
    ensures var t := Run(s, steps);
            && t.workspace.Some? && t.workspace.value.state == ReconciliationRequired
            && t.workspace.value.identity == s.workspace.value.identity
            && t.exec == s.exec.(policy := t.exec.policy)
            && t.operations == s.operations
            && !HasPrepared(t.operations)
  {
    hide Attempt;
    if steps == [] {
      assert !HasPrepared(s.operations);
    } else {
      var n := |steps| - 1;
      ReconciliationAbsorbs(s, steps[..n]);
      RunKeepsOperations(s, steps[..n]);
      StepInReconciliation(Run(s, steps[..n]), steps[n]);
    }
  }

  /** While the safety latch is set no step moves writer, epoch or mode, and none prepares an operation. */
  lemma LatchFreezesLease(s: Store, step: Step)
    requires !SafetyClear(s)
    ensures var t := Apply(s, step);
            && t.exec == s.exec.(policy := t.exec.policy)
            && |t.operations| == |s.operations|
  {
    hide AttemptMemory, AttemptCheckpoint, AttemptReplan, Blank, Strip;
    match step
    case LeaseOp(e) =>
    case WorkspaceOp(w) =>
    case AgentOp(a) =>
    case _ => OtherStepsKeepLease(s, step);
  }

  /** An operation that can no longer finish SUCCEEDED. */
  predicate Doomed(s: Store, id: nat) {
    && id < |s.operations|
    && s.operations[id].status != Succeeded
    && (s.operations[id].status == Prepared ==> s.operations[id].preparedRevision < s.task.revision)
  }

  lemma StepKeepsDoom(s: Store, step: Step, id: nat)
    requires Doomed(s, id)
    ensures Doomed(Apply(s, step), id)
  {
    hide AttemptMemory, AttemptCheckpoint, AttemptReplan, Blank, Strip;
    StepRevision(s, step);
    match step
    case LeaseOp(e) =>
    case WorkspaceOp(w) =>
    case AgentOp(a) =>
    case _ => OtherStepsKeepLease(s, step);
  }

  /** A direct operation still in flight when the latch is set never finishes SUCCEEDED, whatever follows. */
  lemma {:induction false} LatchDoomsOperations(s: Store, steps: seq<Step>, id: nat)
    requires OperationInv(s) && !SafetyClear(s) && InFlight(s, id)
    ensures Doomed(Run(s, steps), id)
  {
    hide Attempt;
    if steps != [] {
      var n := |steps| - 1;
      LatchDoomsOperations(s, steps[..n], id);
      StepKeepsDoom(Run(s, steps[..n]), steps[n], id);
    }
  }
}
