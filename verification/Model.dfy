/**
 The durable state of one supervised task: one value per table of the store.
 A row's id is its position in its table, so insertion order stands for creation time.
 */
module Model {
  import opened Prelude

  datatype Actor = User | Supervisor | Codex | Kandev | GitHub | System

  datatype TaskPhase =
    | Created | ContextReady | Planning | PlanReview | Implementing | CheckpointPending
    | SupervisorReview | Paused | Replanning | CodeReview | Qa | Pr | Ci | FinalReview
    | Accepted | Blocked | Failed | Cancelled

  datatype ExecutionMode = Direct | Hybrid | CodexSupervised
  datatype ActiveWriter = NoWriter | ChatGpt | CodexWriter
  datatype HandoffPolicy = ManualOnly | SupervisorAllowed

  /** The fixed texts the store writes into current_state, and the free ones. */
  datatype StateNote =
    | Note(text: string)
    | OverrideRecorded      // "Hard override recorded; interrupting current Codex work."
    | InterruptConfirmed    // "Codex interrupted. Classify the work snapshot before replanning."
    | InterruptUnconfirmed  // "Hard replan blocked: current Codex work could not be confirmed interrupted."
    | SnapshotSorted        // "Work snapshot classified; ready for a new read-only plan."
    | RetryingInterrupt     // "Retrying Codex interrupt for hard replan."
    | PreparingPlan         // "Codex is preparing a read-only plan."
    | ImplementingPlan      // "Codex is implementing the locally approved plan."

  /** Remote statuses and next actions: reported by the remote side, or written by the hard replan. */
  datatype Label =
    | Reported(text: string)
    | PendingInterrupt      // "interrupt_pending"
    | Interrupted           // "interrupted"
    | FailedInterrupt       // "interrupt_failed"
    | NextInterrupt         // "interrupt"
    | NextClassify          // "classify_snapshot"
    | NextReconcile         // "reconcile_runtime"

  datatype Classification = Classification(
    keep: seq<string>, amend: seq<string>, drop: seq<string>, notes: Option<string>)

  /** Free text, or the rendering of a KEEP/MODIFY/DROP disposition. */
  datatype Content = Text(text: string) | Disposition(sorted: Classification)

  datatype Task = Task(
    id: string, title: string, repository: Option<string>, status: string, phase: TaskPhase,
    revision: nat, intentVersion: nat, planVersion: nat,
    goal: Option<string>, state: Option<StateNote>, kandev: Option<string>,
    thread: Option<string>, turn: Option<string>, gitBranch: Option<string>, gitHead: Option<string>)

  datatype Execution = Execution(
    mode: ExecutionMode, writer: ActiveWriter, policy: HandoffPolicy, epoch: nat, acquired: Option<nat>)

  datatype Handoff = Handoff(
    from: ActiveWriter, to: ActiveWriter, fromRevision: nat, toRevision: nat, intentVersion: nat,
    planVersion: nat, epoch: nat, gitHead: Option<string>, changeRef: Option<string>, reason: string, actor: Actor)

  datatype WorkspaceMode = Checkout | Worktree | OtherMode
  datatype WorkspaceStatus = Active | ReconciliationRequired | Closed

  datatype WorkspaceIdentity = WorkspaceIdentity(
    backend: string, workspaceId: string, repository: string, root: Option<string>,
    mode: WorkspaceMode, baseRef: Option<string>)

  datatype GitFacts = GitFacts(branch: Option<string>, head: Option<string>, dirty: bool, files: seq<string>)

  datatype Workspace = Workspace(
    identity: WorkspaceIdentity, git: GitFacts, reviewRef: Option<string>, state: WorkspaceStatus)

  datatype OperationStatus = Prepared | Succeeded | OperationFailed | NeedsReconciliation

  datatype DirectOperation = DirectOperation(
    operationType: string, status: OperationStatus, epoch: nat, preparedRevision: nat,
    completedRevision: Option<nat>, digest: string, summary: Option<string>, changeRef: Option<string>,
    headBefore: Option<string>, headAfter: Option<string>, details: map<string, string>)

  /** The four identifiers of a remote Codex turn. */
  datatype RemoteIdentity = RemoteIdentity(
    workflow: Option<string>, operation: Option<string>, thread: Option<string>, turn: Option<string>)

  datatype SafetyState = Clear | CompensationRequired | SafetyReconciliation

  /** The two guarded starts, and any other operation name. */
  datatype GuardedOperation = PlanOperation | ExecutionOperation | OtherOperation(name: string)

  /** The safety row's summary: free text, or one of the texts of `_compensate_remote`. */
  datatype SafetySummary =
    | FreeText(text: string)
    | CompensationPending            // "... all new writes are blocked while remote compensation is pending."
    | InterruptCallFailed            // "... compensation interrupt failed; remote runtime may still be active."
    | OutcomeUnknown(status: string) // "... compensation outcome is ...; runtime reconciliation is required."
    | InterruptedBeforeBinding       // "... stale remote runtime was interrupted before binding."

  datatype AgentSafety = AgentSafety(
    state: SafetyState, operation: GuardedOperation, summary: SafetySummary, identity: RemoteIdentity)

  datatype Runtime = Runtime(
    identity: RemoteIdentity, status: Option<Label>, nextAction: Option<Label>, requestId: Option<string>)

  datatype PlanStatus = Draft | Approved | Rejected | PlanSuperseded
  datatype Plan = Plan(version: nat, status: PlanStatus, content: string, source: nat)

  datatype DecisionStatus = DecisionActive | DecisionSuperseded | DecisionRevoked
  /** decision_type: "work_snapshot_classification", or any other text. */
  datatype DecisionType = SnapshotClassification | OtherType(name: string)
  datatype Decision = Decision(
    decisionType: DecisionType, status: DecisionStatus, title: Title, content: Content,
    source: nat, intentVersion: nat, supersededBy: Option<nat>)

  datatype Severity = Hard | Soft | Preference
  datatype ConstraintStatus = ConstraintActive | ConstraintSuperseded | ConstraintRevoked
  datatype Constraint = Constraint(
    scope: string, severity: Severity, status: ConstraintStatus, content: string,
    source: nat, revision: nat, supersededBy: Option<nat>)

  /** A validation dictionary: its "status", and every other key with its texts. */
  datatype Validation = Validation(status: Option<string>, entries: map<string, seq<string>>)

  const NO_VALIDATION := Validation(None, map[])

  /** What a work snapshot captures and never changes afterwards. */
  datatype CapturedFacts = CapturedFacts(
    revision: nat, intentVersion: nat, planVersion: nat, goal: Option<string>, phase: TaskPhase,
    planId: Option<nat>, kandev: Option<string>, gitBranch: Option<string>, gitHead: Option<string>,
    checkpoint: Option<nat>, identity: RemoteIdentity, remoteStatus: Option<Label>,
    files: seq<string>, validation: Validation, evidence: seq<string>)

  datatype Snapshot = Snapshot(facts: CapturedFacts, sorted: Classification, classified: bool)

  datatype ReplanStatus =
    | InterruptPending | SnapshotReady | InterruptFailed | ReadyToPlan
    | ReplanPlanning | ReplanReview | Completed | ReplanSuperseded

  datatype Replan = Replan(
    snapshot: nat, status: ReplanStatus, fromIntent: nat, targetIntent: nat, previousPlan: Option<nat>,
    newPlan: Option<nat>, newGoal: string, reason: string, error: Option<string>, workflow: Option<string>)

  datatype CheckpointType = Heartbeat | Progress | Gate

  datatype Report = Report(
    completed: seq<string>, inProgress: seq<string>, files: seq<string>, validation: Validation,
    assumptions: seq<string>, deviations: seq<string>, blockers: seq<string>, risks: seq<string>,
    nextSteps: seq<string>)

  /** The dictionary a checkpoint's SHA-256 is taken of; the hash is injective. Two of the keys may be missing. */
  datatype Fingerprint = Fingerprint(
    checkpointType: CheckpointType, status: Option<string>, nextAction: Option<Option<string>>,
    report: Report, interactions: nat, heartbeatBucket: Option<int>)

  datatype Checkpoint = Checkpoint(
    sequence: nat, checkpointType: CheckpointType, revision: nat, intentVersion: nat, planVersion: nat,
    identity: RemoteIdentity, remoteStatus: Option<string>, nextAction: Option<string>, trigger: string,
    report: Report, evidence: seq<string>, fingerprint: Fingerprint, rawEvents: nat, requiresReview: bool)

  datatype ReviewDecision = Continue | Steer | Interrupt | ReplanWork | Accept
  datatype Review = Review(checkpoint: nat, decision: ReviewDecision, instruction: Option<string>, revision: nat)

  datatype Summary = Summary(kind: string, fromRevision: nat, toRevision: nat, content: string)
  datatype Evidence = Evidence(kind: string, source: string, summary: string, revision: nat)
  datatype ContextSnapshot = ContextSnapshot(
    revision: nat, intentVersion: nat, planVersion: nat, mode: string, content: string, tokens: nat)

  /** The event types a runtime binding accepts, and all the others. */
  datatype RuntimeEvent = CodexStarted | CodexProgress | CodexSteered | CodexInterrupted | CodexCompleted | Unsupported

  /** Event types with the payload fields that carry state. */
  datatype EventKind =
    | TaskCreated
    | IntentCreated(goal: string)
    | UserOverride(instruction: string)
    | IntentUpdated(goal: string)
    | PhaseChanged(fromPhase: TaskPhase, toPhase: TaskPhase)
    | DecisionAdded(decision: nat)
    | DecisionWithdrawn(decision: nat)
    | ConstraintAdded(constr: nat)
    | ConstraintWithdrawn(constr: nat)
    | PlanCreated(plan: nat)
    | PlanApproved(plan: nat)
    | PlanRejected(plan: nat, reason: string)
    | PlanReplaced(plan: nat, replacement: nat)
    | PlansWithdrawn(plans: seq<nat>, replan: nat)
    | SummaryCreated(summary: nat)
    | EvidenceAdded(evidence: nat)
    | ContextSnapshotCreated(context: nat)
    | ModeChanged(fromMode: ExecutionMode, toMode: ExecutionMode)
    | PolicyChanged(fromPolicy: HandoffPolicy, toPolicy: HandoffPolicy)
    | WriterAcquired(writer: ActiveWriter, epoch: nat)
    | WriterReleased(writer: ActiveWriter, epoch: nat)
    | WriterHandedOver(fromWriter: ActiveWriter, toWriter: ActiveWriter, epoch: nat)
    | WorkspaceBound(workspaceId: string)
    | OperationPrepared(operation: nat, epoch: nat)
    | OperationCompleted(operation: nat, epoch: nat)
    | CompensationRecorded(safety: SafetyState)
    | CompensationSucceeded
    | CompensationReconciled
    | RuntimeBound(event: RuntimeEvent)
    | CheckpointCreated(checkpoint: nat, requiresReview: bool)
    | CheckpointReviewed(checkpoint: nat, verdict: ReviewDecision)
    | HardReplanRequested(replan: nat)
    | InterruptFinalized(replan: nat, succeeded: bool)
    | SnapshotClassified(replan: nat)
    | KandevBound

  datatype Event = Event(revision: nat, intentVersion: nat, planVersion: nat, actor: Actor, kind: EventKind)

  datatype DocumentKind = TaskDocument | PlanDocument | DecisionDocument | ConstraintDocument
                        | SummaryDocument | EvidenceDocument
  datatype DocumentKey = DocumentKey(kind: DocumentKind, source: nat)
  datatype Title = PlanTitle(version: nat) | TextTitle(text: string) | DispositionTitle
  datatype DocumentStatus = NoStatus | OfTask(string) | OfPlan(PlanStatus) | OfDecision(DecisionStatus)
                          | OfConstraint(ConstraintStatus)
  datatype Document = Document(title: Title, content: Content, status: DocumentStatus)
  datatype FtsRow = FtsRow(key: DocumentKey, title: Title, content: Content)

  /** The memory documents and, when SQLite has FTS5, the full-text rows kept beside them. */
  datatype Index = Index(ftsEnabled: bool, documents: map<DocumentKey, Document>, fts: seq<FtsRow>)

  datatype Store = Store(
    task: Task, exec: Execution, handoffs: seq<Handoff>,
    workspace: Option<Workspace>, operations: seq<DirectOperation>,
    safety: Option<AgentSafety>, runtime: Option<Runtime>,
    plans: seq<Plan>, decisions: seq<Decision>, constraints: seq<Constraint>,
    snapshots: seq<Snapshot>, replans: seq<Replan>,
    checkpoints: seq<Checkpoint>, reviews: seq<Review>,
    summaries: seq<Summary>, evidence: seq<Evidence>, contexts: seq<ContextSnapshot>,
    events: seq<Event>, index: Index)

  /** StaleRevisionError, ConflictError, InvalidTransitionError, ValueError, and decoding a row that is not there. */
  datatype Error = Stale | Conflict | InvalidTransition | BadValue | MissingRow

  /** A transaction either commits a new store or raises, which rolls everything back. */
  datatype Outcome = Ok(store: Store) | Err(error: Error)

  datatype Reply = Done | Refused(error: Error)

  function After(s: Store, o: Outcome): Store {
    match o
    case Ok(t) => t
    case Err(_) => s
  }

  function ReplyOf(o: Outcome): Reply {
    match o
    case Ok(_) => Done
    case Err(e) => Refused(e)
  }

  /** `_update_task` with revision_delta 1: the only way the revision moves. */
  function Bump(t: Task): Task {
    t.(revision := t.revision + 1)
  }

  function EventFor(t: Task, actor: Actor, kind: EventKind): Event {
    Event(t.revision, t.intentVersion, t.planVersion, actor, kind)
  }

  /** `_insert_event`: the event is stamped with the task's current three versions. */
  function Log(s: Store, actor: Actor, kind: EventKind): Store {
    s.(events := s.events + [EventFor(s.task, actor, kind)])
  }

  /** DELETE FROM memory_fts for one key. */
  function WithoutKey(rows: seq<FtsRow>, key: DocumentKey): seq<FtsRow> {
    if rows == [] then []
    else
      var before := WithoutKey(rows[..|rows| - 1], key);
      if rows[|rows| - 1].key == key then before else before + [rows[|rows| - 1]]
  }

  /** `_upsert_document`. */
  function Put(index: Index, key: DocumentKey, doc: Document): Index {
    index.(documents := index.documents[key := doc],
           fts := if index.ftsEnabled
                  then WithoutKey(index.fts, key) + [FtsRow(key, doc.title, doc.content)]
                  else index.fts)
  }

  function PlanDoc(plan: Plan): Document {
    Document(PlanTitle(plan.version), Text(plan.content), OfPlan(plan.status))
  }

  function DecisionDoc(d: Decision): Document {
    Document(d.title, d.content, OfDecision(d.status))
  }

  function ConstraintDoc(c: Constraint): Document {
    Document(TextTitle(c.scope), Text(c.content), OfConstraint(c.status))
  }

  /** The approved plan with the highest version, as `approved_plan` selects it. */
  function ApprovedPlan(plans: seq<Plan>): (id: Option<nat>)
    ensures id.Some? ==> id.value < |plans| && plans[id.value].status == Approved
    ensures id.None? ==> forall j :: 0 <= j < |plans| ==> plans[j].status != Approved
  {
    Newest(plans, IsApproved)
  }

  predicate IsApproved(plan: Plan) {
    plan.status == Approved
  }

  predicate SafetyClear(s: Store) {
    s.safety.None? || s.safety.value.state == Clear
  }

  predicate HasPrepared(operations: seq<DirectOperation>) {
    exists i :: 0 <= i < |operations| && operations[i].status == Prepared
  }

  const NO_IDENTITY := RemoteIdentity(None, None, None, None)

  /** `create_task`, with the execution row its insert trigger adds. */
  function NewStore(id: string, title: string, repository: Option<string>, goal: Option<string>, fts: bool): Store {
    var task := Task(id, title, repository, "active", Created, 0, 1, 0, goal, None, None, None, None, None, None);
    var text := if Truthy(goal) then goal.value else title;
    var empty := Store(task, Execution(Hybrid, NoWriter, ManualOnly, 0, None), [], None, [], None, None,
                       [], [], [], [], [], [], [], [], [], [], [], Index(fts, map[], []));
    var created := Log(empty, User, TaskCreated);
    var logged := if Truthy(goal) then Log(created, User, IntentCreated(goal.value)) else created;
    logged.(index := Put(logged.index, DocumentKey(TaskDocument, 0),
                         Document(TextTitle(title), Text(text), OfTask("active"))))
  }
}
