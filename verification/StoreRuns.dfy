/** Running steps against the store object: it goes through exactly the stores a run specifies. */
module StoreRuns {
  import opened Prelude
  import opened Model
  import opened ExecutionTx
  import opened WorkspaceTx
  import opened AgentTx
  import opened MemoryTx
  import opened CheckpointTx
  import opened ReplanTx
  import opened Steps
  import opened MemoryStores
  import opened Invariants
  import ExecutionStore
  import WorkspaceStore
  import AgentStore
  import CheckpointStore
  import ReplanStore

  method PerformExecution(store: MemoryStore, step: ExecutionStep) returns (r: Reply)
    modifies store
    ensures store.Did(AttemptExecution(old(store.db), step), r)
  {
    hide SetExecutionMode, SetHandoffPolicy, AcquireWriter, ReleaseWriter, HandoffWriter;
    match step
    case SetMode(expected, mode, actor) => r := ExecutionStore.SetExecutionMode(store, expected, mode, actor);
    case SetPolicy(expected, policy, actor) => r := ExecutionStore.SetHandoffPolicy(store, expected, policy, actor);
    case Acquire(expected, writer, actor, authorized) =>
      r := ExecutionStore.AcquireWriter(store, expected, writer, actor, authorized);
    case Release(expected, writer, epoch, actor) =>
      r := ExecutionStore.ReleaseWriter(store, expected, writer, epoch, actor);
    case HandOver(expected, request) => r := ExecutionStore.HandoffWriter(store, expected, request);
  }

  method PerformWorkspace(store: MemoryStore, step: WorkspaceStep) returns (r: Reply)
    modifies store
    ensures store.Did(AttemptWorkspace(old(store.db), step), r)
  {
    hide BindWorkspace, UpdateWorkspaceDerived, PrepareDirectOperation, UpdatePreparedDetails,
         MarkReconciliationRequired, CompleteDirectOperation;
    match step
    case Bind(expected, identity, branch, head) =>
      r := WorkspaceStore.BindWorkspace(store, expected, identity, branch, head);
    case Observe(facts) => r := WorkspaceStore.UpdateDerived(store, facts);
    case Prepare(expected, epoch, operationType, digest, details) =>
      r := WorkspaceStore.PrepareDirectOperation(store, expected, epoch, operationType, digest, details);
    case Annotate(operation, details) => r := WorkspaceStore.UpdatePreparedDetails(store, operation, details);
    case MarkUnknown(operation, note, details) =>
      r := WorkspaceStore.MarkReconciliationRequired(store, operation, note, details);
    case Complete(operation, epoch, result) =>
      r := WorkspaceStore.CompleteDirectOperation(store, operation, epoch, result);
  }

  method PerformAgent(store: MemoryStore, step: AgentStep) returns (r: Reply)
    modifies store
    ensures store.Did(AttemptAgent(old(store.db), step), r)
  {
    hide LatchCompensation, RecordCompensationRequired, RecordCompensationSucceeded, ReconcileSafety, BindCodexRuntime,
         BindKandevTask;
    match step
    case Latch(operation, summary, identity) => r := AgentStore.LatchCompensation(store, operation, summary, identity);
    case RecordRequired(operation, summary, identity, reconciliation) =>
      r := AgentStore.RecordRequired(store, operation, summary, identity, reconciliation);
    case RecordSucceeded(operation, summary, identity) =>
      r := AgentStore.RecordSucceeded(store, operation, summary, identity);
    case Reconcile(expected, note) => r := AgentStore.ReconcileSafety(store, expected, note);
    case BindRuntime(expected, binding) => r := AgentStore.BindCodexRuntime(store, expected, binding);
    case BindKandev(expected, kandevTask) => r := AgentStore.BindKandevTask(store, expected, kandevTask);
  }

  method PerformMemory(store: MemoryStore, step: MemoryStep) returns (r: Reply)
    modifies store
    ensures store.Did(AttemptMemory(old(store.db), step), r)
  {
    hide RecordUserOverride, UpdateIntent, SetTaskPhase, AddTaskDecision, SupersedeTaskDecision, AddTaskConstraint,
         SupersedeTaskConstraint, CreateTaskPlan, ApproveTaskPlan, RejectTaskPlan, AddTaskSummary, AddTaskEvidence,
         SaveContextSnapshot;
    match step
    case RecordOverride(expected, instruction) => r := store.RecordOverride(expected, instruction);
    case UpdateGoal(expected, goal, actor) => r := store.UpdateIntent(expected, goal, actor);
    case SetPhase(expected, phase, actor, state) => r := store.SetPhase(expected, phase, actor, state);
    case AddDecision(expected, title, content, decisionType, actor) =>
      r := store.AddDecision(expected, title, content, decisionType, actor);
    case SupersedeDecision(expected, decision, supersededBy, actor) =>
      r := store.SupersedeDecision(expected, decision, supersededBy, actor);
    case AddConstraint(expected, content, scope, severity, actor) =>
      r := store.AddConstraint(expected, content, scope, severity, actor);
    case SupersedeConstraint(expected, constr, supersededBy, actor) =>
      r := store.SupersedeConstraint(expected, constr, supersededBy, actor);
    case CreatePlan(expected, content, actor) => r := store.CreatePlan(expected, content, actor);
    case ApprovePlan(expected, plan, actor) => r := store.ApprovePlan(expected, plan, actor);
    case RejectPlan(expected, plan, reason, actor) => r := store.RejectPlan(expected, plan, reason, actor);
    case AddSummary(kind, fromRevision, toRevision, content) =>
      r := store.AddSummary(kind, fromRevision, toRevision, content);
    case AddEvidence(kind, source, summary, revision) => r := store.AddEvidence(kind, source, summary, revision);
    case SaveContext(mode, content, tokens) => r := store.SaveContext(mode, content, tokens);
  }

  method PerformCheckpoint(store: MemoryStore, step: CheckpointStep) returns (r: Reply)
    modifies store
    ensures store.Did(AttemptCheckpoint(old(store.db), step), r)
  {
    hide CreateCheckpoint, ReviewTaskCheckpoint;
    match step
    case Capture(expected, observed) => r := CheckpointStore.CreateCheckpoint(store, expected, observed);
    case ReviewCheckpoint(expected, checkpoint, verdict, instruction) =>
      r := CheckpointStore.ReviewCheckpoint(store, expected, checkpoint, verdict, instruction);
  }

  method PerformReplan(store: MemoryStore, step: ReplanStep) returns (r: Reply)
    modifies store
    ensures store.Did(AttemptReplan(old(store.db), step), r)
  {
    hide BeginHardReplan, FinalizeInterrupt, ClassifyWorkSnapshot, PrepareInterruptRetry, BindReplanWorkflow,
         BindReplanPlanReview, CompleteReplanOnExecution;
    match step
    case Begin(expected, goal, reason) => r := ReplanStore.BeginHardReplan(store, expected, goal, reason);
    case Finalize(expected, replan, succeeded, error) =>
      r := ReplanStore.FinalizeInterrupt(store, expected, replan, succeeded, error);
    case Classify(expected, snapshot, sorted) =>
      r := ReplanStore.ClassifyWorkSnapshot(store, expected, snapshot, sorted);
    case RetryInterrupt(expected, replan) => r := ReplanStore.PrepareInterruptRetry(store, expected, replan);
    case BindWorkflow(workflow) => r := ReplanStore.BindReplanWorkflow(store, workflow);
    case BindPlanReview(plan) => r := ReplanStore.BindReplanPlanReview(store, plan);
    case CompleteOnExecution(plan) => r := ReplanStore.CompleteReplanOnExecution(store, plan);
  }

  method Perform(store: MemoryStore, step: Step) returns (r: Reply)
    modifies store
    ensures store.Did(Attempt(old(store.db), step), r)
    ensures store.db == Apply(old(store.db), step)
  {
    hide AttemptExecution, AttemptWorkspace, AttemptAgent, AttemptMemory, AttemptCheckpoint, AttemptReplan;
    match step
    case LeaseOp(e) => r := PerformExecution(store, e);
    case WorkspaceOp(w) => r := PerformWorkspace(store, w);
    case AgentOp(a) => r := PerformAgent(store, a);
    case MemoryOp(m) => r := PerformMemory(store, m);
    case CheckpointOp(c) => r := PerformCheckpoint(store, c);
    case ReplanOp(q) => r := PerformReplan(store, q);
  }

  /** Other callers use the store while a coordinator waits. */
  method Elapse(store: MemoryStore, steps: seq<Step>)
    modifies store
    ensures store.db == Run(old(store.db), steps)
  {
    hide Attempt, Apply;
    ghost var found := store.db;
    assert steps[..0] == [];
    for k := 0 to |steps|
      invariant store.db == Run(found, steps[..k])
    {
      assert steps[..k + 1][..k] == steps[..k];
      var r := Perform(store, steps[k]);
    }
    assert steps[..|steps|] == steps;
  }

  /** A store object that was just created and then used in any way satisfies every invariant. */
  method CreateAndUse(id: string, title: string, repository: Option<string>, goal: Option<string>, fts: bool,
                      steps: seq<Step>)
    returns (store: MemoryStore)
    ensures fresh(store) && Sound(store.db)
  {
    hide Attempt, Run, NewStore, Sound;
    store := new MemoryStore(id, title, repository, goal, fts);
    Elapse(store, steps);
    NewStoreSound(id, title, repository, goal, fts);
    RunKeepsSound(NewStore(id, title, repository, goal, fts), steps);
  }
}
