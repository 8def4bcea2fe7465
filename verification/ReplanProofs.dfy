/** The hard-replan lifecycle, and plans that cannot come back after one. */
module ReplanProofs {
  import opened Prelude
  import opened Text
  import opened Model
  import opened ExecutionTx
  import opened WorkspaceTx
  import opened AgentTx
  import opened MemoryTx
  import opened CheckpointTx
  import opened ReplanTx
  import opened Steps

  /** A replan past classification, and one still before it. */
  predicate PastClassification(status: ReplanStatus) {
    status == ReadyToPlan || status == ReplanPlanning || status == ReplanReview || status == Completed
  }

  predicate BeforeClassification(status: ReplanStatus) {
    status == InterruptPending || status == InterruptFailed || status == SnapshotReady
  }

  /** One replan row and the snapshot it owns. */
  predicate RowOk(s: Store, i: nat)
    requires i < |s.replans| == |s.snapshots|
  {
    var r := s.replans[i];
    && r.snapshot == i
    && r.targetIntent == r.fromIntent + 1 <= s.task.intentVersion
    && (PastClassification(r.status) ==> s.snapshots[i].classified)
    && (BeforeClassification(r.status) ==> !s.snapshots[i].classified)
    && Disjoint(s.snapshots[i].sorted)
  }

  ghost predicate ReplanInv(s: Store) {
    && |s.replans| == |s.snapshots|
    && (forall i :: 0 <= i < |s.replans| ==> RowOk(s, i))
    && (forall i, j :: 0 <= i < j < |s.replans| ==> s.replans[i].targetIntent <= s.replans[j].fromIntent)
    && (forall i :: 0 <= i < |s.replans| - 1 ==> !ActiveReplan(s.replans[i]))
  }

  /** The status graph; COMPLETED and SUPERSEDED have no way out. */
  predicate Edge(a: ReplanStatus, b: ReplanStatus) {
    match a
    case InterruptPending => b == SnapshotReady || b == InterruptFailed || b == ReplanSuperseded
    case InterruptFailed => b == InterruptPending || b == ReplanSuperseded
    case SnapshotReady => b == ReadyToPlan || b == ReplanSuperseded
    case ReadyToPlan => b == ReplanPlanning || b == ReplanReview || b == ReplanSuperseded
    case ReplanPlanning => b == ReplanReview || b == ReplanSuperseded
    case ReplanReview => b == Completed || b == ReplanSuperseded
    case Completed => false
    case ReplanSuperseded => false
  }

  /** What one step may do to the replan and snapshot tables. */
  ghost predicate Moves(s: Store, t: Store) {
    && |s.replans| <= |t.replans| && |s.snapshots| <= |t.snapshots|
    && s.task.intentVersion <= t.task.intentVersion
    && (forall i :: 0 <= i < |s.replans| ==>
          && (t.replans[i].status == s.replans[i].status || Edge(s.replans[i].status, t.replans[i].status))
          && t.replans[i].targetIntent == s.replans[i].targetIntent
          && t.replans[i].snapshot == s.replans[i].snapshot)
    && (forall i :: 0 <= i < |s.snapshots| ==> t.snapshots[i].facts == s.snapshots[i].facts)
  }

  lemma MemoryKeepsReplans(s: Store, m: MemoryStep)
    ensures var t := After(s, AttemptMemory(s, m));
            t.replans == s.replans && t.snapshots == s.snapshots && s.task.intentVersion <= t.task.intentVersion
  {
  }

  lemma OthersKeepReplans(s: Store, step: Step)
    requires !step.ReplanOp?
    ensures var t := Apply(s, step);
            t.replans == s.replans && t.snapshots == s.snapshots && s.task.intentVersion <= t.task.intentVersion
  {
    hide AttemptMemory, Blank, Strip;
    if step.MemoryOp? {
      MemoryKeepsReplans(s, step.memory);
    }
  }

  /** A new replan with its own snapshot, on top of superseded ones. */
  lemma AppendMoves(s: Store, t: Store, replan: Replan, snapshot: Snapshot)
    requires ReplanInv(s)
    requires t.replans == UpdateWhere(s.replans, ActiveReplan, SupersedeReplan) + [replan]
    requires t.snapshots == s.snapshots + [snapshot] && !snapshot.classified && Disjoint(snapshot.sorted)
    requires replan.snapshot == |s.snapshots| && replan.status == InterruptPending
    requires replan.fromIntent == s.task.intentVersion && replan.targetIntent == t.task.intentVersion
    requires t.task.intentVersion == s.task.intentVersion + 1
    ensures ReplanInv(t) && Moves(s, t)
  {
    forall i | 0 <= i < |t.replans| ensures RowOk(t, i) {
      if i < |s.replans| {
        assert RowOk(s, i);
      }
    }
    forall i, j | 0 <= i < j < |t.replans| ensures t.replans[i].targetIntent <= t.replans[j].fromIntent {
      assert RowOk(s, i);
    }
  }

  lemma BeginMoves(s: Store, expected: nat, goal: string, reason: string)
    requires ReplanInv(s) && BeginHardReplan(s, expected, goal, reason).Ok?
    ensures var t := BeginHardReplan(s, expected, goal, reason).store; ReplanInv(t) && Moves(s, t)
  {
    var t := BeginHardReplan(s, expected, goal, reason).store;
    AppendMoves(s, t, t.replans[|s.replans|], t.snapshots[|s.snapshots|]);
  }

  lemma ClassifyMoves(s: Store, expected: nat, snapshot: nat, c: Classification)
    requires ReplanInv(s) && ClassifyWorkSnapshot(s, expected, snapshot, c).Ok?
    ensures var t := ClassifyWorkSnapshot(s, expected, snapshot, c).store; ReplanInv(t) && Moves(s, t)
  {
    var t := ClassifyWorkSnapshot(s, expected, snapshot, c).store;
    assert RowOk(s, Owner(s.replans, snapshot).value);
    forall i | 0 <= i < |t.replans| ensures RowOk(t, i) {
      assert RowOk(s, i);
    }
  }

  /** One replan row moves along an edge that does not touch its snapshot. */
  lemma RowMoves(s: Store, t: Store, id: nat, r: Replan)
    requires ReplanInv(s) && id < |s.replans|
    requires t.replans == s.replans[id := r] && t.snapshots == s.snapshots
    requires t.task.intentVersion == s.task.intentVersion
    requires var q := s.replans[id];
             && Edge(q.status, r.status) && ActiveReplan(q)
             && (PastClassification(r.status) ==> PastClassification(q.status))
             && (BeforeClassification(r.status) ==> BeforeClassification(q.status))
             && r.snapshot == q.snapshot && r.targetIntent == q.targetIntent && r.fromIntent == q.fromIntent
    ensures ReplanInv(t) && Moves(s, t)
  {
    forall i | 0 <= i < |t.replans| ensures RowOk(t, i) {
      assert RowOk(s, i);
    }
  }

  lemma BindingMoves(s: Store, r: ReplanStep)
    requires ReplanInv(s) && (r.BindWorkflow? || r.BindPlanReview? || r.CompleteOnExecution?)
    ensures var t := After(s, AttemptReplan(s, r)); ReplanInv(t) && Moves(s, t)
  {
    var t := After(s, AttemptReplan(s, r));
    var id := match r
      case BindWorkflow(_) => Newest(s.replans, IsReadyToPlan)
      case BindPlanReview(_) => Newest(s.replans, AwaitsReview)
      case CompleteOnExecution(plan) => UnderReview(s.replans, plan)
      case _ => None;
    if id.Some? && t.replans[id.value].status != s.replans[id.value].status {
      RowMoves(s, t, id.value, t.replans[id.value]);
    }
  }

  lemma InterruptMoves(s: Store, r: ReplanStep)
    requires ReplanInv(s) && AttemptReplan(s, r).Ok? && (r.Finalize? || r.RetryInterrupt?)
    ensures var t := AttemptReplan(s, r).store; ReplanInv(t) && Moves(s, t)
  {
    var t := AttemptReplan(s, r).store;
    RowMoves(s, t, r.replan, t.replans[r.replan]);
  }

  lemma StepMoves(s: Store, step: Step)
    requires ReplanInv(s)
    ensures ReplanInv(Apply(s, step)) && Moves(s, Apply(s, step))
  {
    hide AttemptExecution, AttemptWorkspace, AttemptAgent, AttemptMemory, AttemptCheckpoint;
    var t := Apply(s, step);
    if step.ReplanOp? {
      hide BeginHardReplan, ClassifyWorkSnapshot, FinalizeInterrupt, PrepareInterruptRetry, BindReplanWorkflow,
           BindReplanPlanReview, CompleteReplanOnExecution;
      var r := step.replan;
      if AttemptReplan(s, r).Ok? {
        match r
        case Begin(expected, goal, reason) => BeginMoves(s, expected, goal, reason);
        case Classify(expected, snapshot, sorted) => ClassifyMoves(s, expected, snapshot, sorted);
        case Finalize(_, _, _, _) => InterruptMoves(s, r);
        case RetryInterrupt(_, _) => InterruptMoves(s, r);
        case _ => BindingMoves(s, r);
      }
    } else {
      OthersKeepReplans(s, step);
      forall i | 0 <= i < |t.replans| ensures RowOk(t, i) {
        assert RowOk(s, i);
      }
    }
  }

  lemma {:induction false} RunKeepsReplans(s: Store, steps: seq<Step>)
    requires ReplanInv(s)
    ensures ReplanInv(Run(s, steps))
  {
    hide Attempt;
    if steps != [] {
      var n := |steps| - 1;
      RunKeepsReplans(s, steps[..n]);
      StepMoves(Run(s, steps[..n]), steps[n]);
    }
  }

  /** At most one replan is active, so the partial unique index never fires. */
  lemma AtMostOneActive(s: Store, steps: seq<Step>, i: nat, j: nat)
    requires ReplanInv(s)
    requires i < |Run(s, steps).replans| && j < |Run(s, steps).replans|
    requires ActiveReplan(Run(s, steps).replans[i]) && ActiveReplan(Run(s, steps).replans[j])
    ensures i == j == |Run(s, steps).replans| - 1
  {
    hide Attempt, Run;
    RunKeepsReplans(s, steps);
  }

  /** COMPLETED and SUPERSEDED are absorbing, and what a snapshot captured never changes. */
  lemma {:induction false} ReplanHistoryFixed(s: Store, steps: seq<Step>, i: nat)
    requires ReplanInv(s) && i < |s.replans|
    ensures var t := Run(s, steps);
            && i < |t.replans| && i < |t.snapshots|
            && t.snapshots[i].facts == s.snapshots[i].facts
            && t.replans[i].targetIntent == s.replans[i].targetIntent
            && (!ActiveReplan(s.replans[i]) ==> t.replans[i].status == s.replans[i].status)
  {
    hide Attempt;
    if steps != [] {
      var n := |steps| - 1;
      ReplanHistoryFixed(s, steps[..n], i);
      RunKeepsReplans(s, steps[..n]);
      StepMoves(Run(s, steps[..n]), steps[n]);
    }
  }
}
