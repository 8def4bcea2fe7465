/** Optimistic revisions: equal revisions mean equal supervised state, and no revision is spent twice. */
module RevisionProofs {
  import opened Prelude
  import opened Text
  import opened Model
  import opened ExecutionTx
  import opened WorkspaceTx
  import opened AgentTx
  import opened MemoryTx
  import opened CheckpointTx
  import opened ReplanTx
  import opened Steps

  /** The tables the revision fences. */
  datatype Projection = Projection(
    task: Task, exec: Execution, handoffs: seq<Handoff>, safety: Option<AgentSafety>, runtime: Option<Runtime>,
    plans: seq<Plan>, decisions: seq<Decision>, constraints: seq<Constraint>)

  function Supervised(s: Store): Projection {
    Projection(s.task, s.exec, s.handoffs, s.safety, s.runtime, s.plans, s.decisions, s.constraints)
  }

  /** The step moved the revision. */
  predicate Advances(s: Store, step: Step) {
    Apply(s, step).task.revision != s.task.revision
  }

  /** The expected_revision argument, for the transactions that take one. */
  function ExpectedRevision(step: Step): Option<nat> {
    match step
    case LeaseOp(e) => Some(e.expected)
    case WorkspaceOp(w) => if w.Bind? || w.Prepare? then Some(w.expected) else None
    case AgentOp(a) => if a.Reconcile? || a.BindRuntime? || a.BindKandev? then Some(a.expected) else None
    case MemoryOp(m) => if m.AddSummary? || m.AddEvidence? || m.SaveContext? then None else Some(m.expected)
    case CheckpointOp(c) => Some(c.expected)
    case ReplanOp(r) =>
      if r.BindWorkflow? || r.BindPlanReview? || r.CompleteOnExecution? then None else Some(r.expected)
  }

  /** What every step owes the revision. */
  predicate Fenced(s: Store, t: Store) {
    s.task.revision < t.task.revision || (s.task.revision == t.task.revision && Supervised(t) == Supervised(s))
  }

  lemma FencedMemory(s: Store, m: MemoryStep)
    ensures Fenced(s, After(s, AttemptMemory(s, m)))
  {
  }

  lemma FencedWorkspace(s: Store, w: WorkspaceStep)
    ensures Fenced(s, After(s, AttemptWorkspace(s, w)))
  {
  }

  lemma FencedReplan(s: Store, r: ReplanStep)
    ensures Fenced(s, After(s, AttemptReplan(s, r)))
  {
    match r
    case Begin(expected, goal, reason) => assert Fenced(s, After(s, BeginHardReplan(s, expected, goal, reason)));
    case Classify(expected, snapshot, sorted) =>
    case _ =>
  }

  lemma FencedOther(s: Store, step: Step)
    requires step.LeaseOp? || step.AgentOp? || step.CheckpointOp?
    ensures Fenced(s, Apply(s, step))
  {
  }

  /** A step either keeps the supervised tables and the revision, or strictly increases the revision. */
  lemma StepRevision(s: Store, step: Step)
    ensures Fenced(s, Apply(s, step))
  {
    match step
    case MemoryOp(m) => FencedMemory(s, m);
    case WorkspaceOp(w) => FencedWorkspace(s, w);
    case ReplanOp(r) => FencedReplan(s, r);
    case _ => FencedOther(s, step);
  }

  lemma StepExpectation(s: Store, step: Step)
    requires Advances(s, step) && ExpectedRevision(step).Some?
    ensures ExpectedRevision(step).value == s.task.revision
  {
    match step
    case LeaseOp(e) =>
    case WorkspaceOp(w) =>
    case AgentOp(a) =>
    case MemoryOp(m) =>
    case CheckpointOp(c) =>
    case ReplanOp(r) =>
  }

  lemma {:induction false} RunRevision(s: Store, steps: seq<Step>)
    ensures Fenced(s, Run(s, steps))
  {
    hide Attempt;
    if steps != [] {
      var n := |steps| - 1;
      RunRevision(s, steps[..n]);
      StepRevision(Run(s, steps[..n]), steps[n]);
    }
  }

  lemma Between(s: Store, steps: seq<Step>, i: nat, j: nat)
    requires i <= j <= |steps|
    ensures At(s, steps, j) == Run(At(s, steps, i), steps[i..j])
  {
    RunThrough(s, steps[..i], steps[i..j]);
    assert steps[..i] + steps[i..j] == steps[..j];
  }

  /** Equal revisions at two points of a run mean equal supervised tables. */
  lemma EqualRevisionsEqualTables(s: Store, steps: seq<Step>, i: nat, j: nat)
    requires i <= j <= |steps|
    ensures At(s, steps, i).task.revision <= At(s, steps, j).task.revision
    ensures At(s, steps, i).task.revision == At(s, steps, j).task.revision
            ==> Supervised(At(s, steps, i)) == Supervised(At(s, steps, j))
  {
    Between(s, steps, i, j);
    RunRevision(At(s, steps, i), steps[i..j]);
  }

  /** No two effective mutations of a run were based on the same revision. */
  lemma RevisionSpentOnce(s: Store, steps: seq<Step>, i: nat, j: nat)
    requires i < |steps| && j < |steps| && i != j
    requires Advances(At(s, steps, i), steps[i]) && Advances(At(s, steps, j), steps[j])
    ensures At(s, steps, i).task.revision != At(s, steps, j).task.revision
    ensures ExpectedRevision(steps[i]).Some? ==> ExpectedRevision(steps[i]) != ExpectedRevision(steps[j])
  {
    var a, b := if i < j then i else j, if i < j then j else i;
    NextStore(s, steps, a);
    StepRevision(At(s, steps, a), steps[a]);
    EqualRevisionsEqualTables(s, steps, a + 1, b);
    if ExpectedRevision(steps[i]).Some? && ExpectedRevision(steps[j]).Some? {
      StepExpectation(At(s, steps, i), steps[i]);
      StepExpectation(At(s, steps, j), steps[j]);
    }
  }

  /** A transaction that names a revision which is not the current one is refused, whichever it is. */
  lemma StaleRefused(s: Store, step: Step)
    requires ExpectedRevision(step).Some? && ExpectedRevision(step).value != s.task.revision
    ensures Attempt(s, step).Err?
  {
    hide Blank, Strip, Put, PutPlans, PutDecisions, UpdateWhere, Where, WhereDesc, Disjoint, Merge, HasPrepared,
         TransitionSafe, WriterRefusal, Instruction;
    match step
    case LeaseOp(e) =>
    case WorkspaceOp(w) =>
    case AgentOp(a) =>
    case MemoryOp(m) =>
    case CheckpointOp(c) =>
    case ReplanOp(r) =>
  }

  /** A caller is told of a stale revision only when the one it named is. */
  lemma StaleMeansStale(s: Store, step: Step)
    requires Attempt(s, step) == Err(Stale)
    ensures ExpectedRevision(step).Some? && ExpectedRevision(step).value != s.task.revision
  {
    hide Blank, Strip, Put, PutPlans, PutDecisions, UpdateWhere, Where, WhereDesc, Disjoint, Merge, HasPrepared,
         TransitionSafe, Instruction;
    match step
    case LeaseOp(e) =>
    case WorkspaceOp(w) =>
    case AgentOp(a) =>
    case MemoryOp(m) =>
    case CheckpointOp(c) =>
    case ReplanOp(r) =>
  }
}
