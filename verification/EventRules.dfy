/** The event every transaction appends: stamped with the versions it leaves, by whom, and of which kind. */
module EventRules {
  import opened Prelude
  import opened Text
  import opened Model
  import opened ExecutionTx
  import opened WorkspaceTx
  import opened AgentTx
  import opened MemoryTx
  import opened CheckpointTx
  import opened ReplanTx

  /** The log grew by one event of this actor and kind, at the versions the transaction left. */
  predicate Logs(s: Store, o: Outcome, actor: Actor, kind: EventKind) {
    o.Ok? ==>
      && var t := o.store;
         t.events == s.events + [Event(t.task.revision, t.task.intentVersion, t.task.planVersion, actor, kind)]
  }

  lemma LeaseEvents(s: Store, expected: nat, mode: ExecutionMode, policy: HandoffPolicy, writer: ActiveWriter,
                    epoch: nat,
                    q: HandoverRequest, actor: Actor, authorized: bool)
    ensures mode != s.exec.mode ==>
              Logs(s, SetExecutionMode(s, expected, mode, actor), actor, ModeChanged(s.exec.mode, mode))
    ensures policy != s.exec.policy ==>
              Logs(s, SetHandoffPolicy(s, expected, policy, actor), actor, PolicyChanged(s.exec.policy, policy))
    ensures Logs(s, AcquireWriter(s, expected, writer, actor, authorized), actor,
                 WriterAcquired(writer, s.exec.epoch + 1))
    ensures Logs(s, ReleaseWriter(s, expected, writer, epoch, actor), actor, WriterReleased(writer, epoch))
    ensures Logs(s, HandoffWriter(s, expected, q), q.actor, WriterHandedOver(q.from, q.to, s.exec.epoch + 1))
  {
    hide TransitionSafe, WriterRefusal, Terminal, Blank, Strip;
  }

  lemma WorkspaceEvents(s: Store, expected: nat, identity: WorkspaceIdentity, branch: Option<string>,
                        head: Option<string>,
                        epoch: nat, kind: string, digest: string, details: map<string, string>, id: nat,
                        r: OperationResult)
    ensures var b := BindWorkspace(s, expected, identity, branch, head);
            b.Ok? && b.store != s ==> Logs(s, b, Supervisor, WorkspaceBound(identity.workspaceId))
    ensures Logs(s, PrepareDirectOperation(s, expected, epoch, kind, digest, details), Supervisor,
                 OperationPrepared(|s.operations|, epoch))
    ensures var c := CompleteDirectOperation(s, id, epoch, r);
            c.Ok? && c.store.task != s.task ==> Logs(s, c, Supervisor, OperationCompleted(id, epoch))
  {
    hide Blank, Strip, HasPrepared;
  }

  lemma AgentEvents(s: Store, operation: GuardedOperation, summary: SafetySummary, id: RemoteIdentity, expected: nat,
                    note: string, b: RuntimeBinding, kandev: string)
    ensures Logs(s, LatchCompensation(s, operation, summary, id), Supervisor,
                 CompensationRecorded(CompensationRequired))
    ensures Logs(s, RecordCompensationRequired(s, operation, summary, id, true), Supervisor,
                 CompensationRecorded(SafetyReconciliation))
    ensures Logs(s, RecordCompensationRequired(s, operation, summary, id, false), Supervisor,
                 CompensationRecorded(CompensationRequired))
    ensures Logs(s, RecordCompensationSucceeded(s, operation, summary, id), Supervisor, CompensationSucceeded)
    ensures Logs(s, ReconcileSafety(s, expected, note), Supervisor, CompensationReconciled)
    ensures Logs(s, BindCodexRuntime(s, expected, b), Codex, RuntimeBound(b.event))
    ensures var k := BindKandevTask(s, expected, kandev); k.Ok? && k.store != s ==> Logs(s, k, Kandev, KandevBound)
  {
    hide Merge;
  }

  lemma MemoryEvents(s: Store, expected: nat, text: string, actor: Actor, phase: TaskPhase, state: Option<StateNote>)
    ensures Logs(s, RecordUserOverride(s, expected, text), User, UserOverride(text))
    ensures Logs(s, UpdateIntent(s, expected, text, actor), actor, IntentUpdated(text))
    ensures Logs(s, SetTaskPhase(s, expected, phase, actor, state), actor, PhaseChanged(s.task.phase, phase))
  {
    hide Put;
  }

  lemma LifecycleEvents(s: Store, expected: nat, text: string, actor: Actor, id: nat, next: Option<nat>)
    ensures Logs(s, SupersedeTaskDecision(s, expected, id, next, actor), actor, DecisionWithdrawn(id))
    ensures Logs(s, SupersedeTaskConstraint(s, expected, id, next, actor), actor, ConstraintWithdrawn(id))
    ensures Logs(s, CreateTaskPlan(s, expected, text, actor), actor, PlanCreated(|s.plans|))
    ensures Logs(s, RejectTaskPlan(s, expected, id, text, actor), actor, PlanRejected(id, text))
  {
    hide Put;
  }

  lemma ObservationEvents(s: Store, kind: string, source: string, text: string, from: nat, to: nat, at: Option<nat>,
                          n: nat)
    ensures Logs(s, AddTaskSummary(s, kind, from, to, text), System, SummaryCreated(|s.summaries|))
    ensures Logs(s, AddTaskEvidence(s, kind, source, text, at), System, EvidenceAdded(|s.evidence|))
    ensures Logs(s, SaveContextSnapshot(s, kind, text, n), System, ContextSnapshotCreated(|s.contexts|))
  {
    hide Put;
  }

  lemma CheckpointEvents(s: Store, expected: nat, o: Observed, id: nat, verdict: ReviewDecision, text: Option<string>)
    ensures var c := CreateCheckpoint(s, expected, o);
            c.Ok? && c.store != s ==>
              Logs(s, c, Codex, CheckpointCreated(|s.checkpoints|, o.checkpointType != Heartbeat))
    ensures Logs(s, ReviewTaskCheckpoint(s, expected, id, verdict, text), Supervisor, CheckpointReviewed(id, verdict))
  {
    hide Strip, Recorded, MaxSequence, Pending, Reviewed, Instruction;
  }

  /** A finalised interrupt is Codex's event when it succeeded and the system's when it failed. */
  lemma FinalizeEvents(s: Store, expected: nat, replan: nat, error: Option<string>)
    ensures Logs(s, FinalizeInterrupt(s, expected, replan, true, error), Codex, InterruptFinalized(replan, true))
    ensures Logs(s, FinalizeInterrupt(s, expected, replan, false, error), System, InterruptFinalized(replan, false))
  {
  }

  /** A classification takes two revisions and says so in two events: the sorted replan, then the decision. */
  lemma ClassifyEvents(s: Store, expected: nat, snapshot: nat, c: Classification)
    ensures var o := ClassifyWorkSnapshot(s, expected, snapshot, c);
            var t := s.task;
            o.Ok? ==>
              && |o.store.events| == |s.events| + 2 && s.events < o.store.events
              && var first, second := o.store.events[|s.events|], o.store.events[|s.events| + 1];
                 && first.kind.SnapshotClassified?
                 && first == Event(expected + 1, t.intentVersion, t.planVersion, Supervisor, first.kind)
                 && second == Event(expected + 2, t.intentVersion, t.planVersion, Supervisor,
                                    DecisionAdded(|s.decisions|))
                 && first.kind.replan < |s.replans| && s.replans[first.kind.replan].snapshot == snapshot
                 && o.store.decisions[|s.decisions|].source == |s.events| + 1
  {
    hide Disjoint, Blank, Strip, Put;
  }

  /** The order of an override's events: the user's two, the withdrawn plans in one, the dispositions one by one. */
  lemma BeginEvents(s: Store, expected: nat, goal: string, reason: string)
    requires BeginHardReplan(s, expected, goal, reason).Ok?
    ensures var t := BeginHardReplan(s, expected, goal, reason).store;
            var n := |s.events|;
            && s.events < t.events && |t.events| >= n + 2
            && t.events[n] == Event(expected + 1, s.task.intentVersion + 1, s.task.planVersion, User,
                                    HardReplanRequested(|s.replans|))
            && t.events[n + 1] == Event(expected + 1, s.task.intentVersion + 1, s.task.planVersion, User,
                                        IntentUpdated(Strip(goal)))
            && forall k :: n + 2 <= k < |t.events| ==>
                 t.events[k].actor == Supervisor
                   && (t.events[k].kind.PlansWithdrawn? || t.events[k].kind.DecisionWithdrawn?)
  {
    hide Blank, Strip, PutPlans, PutDecisions, Where, WhereDesc, UpdateWhere, Withdrawals;
    var t := BeginHardReplan(s, expected, goal, reason).store;
    SupervisorWithdraws(t.task, Where(s.decisions, ActiveDisposition));
  }

  lemma {:induction false} SupervisorWithdraws(t: Task, ids: seq<nat>)
    ensures forall k :: 0 <= k < |ids| ==>
              Withdrawals(t, ids)[k] == Event(t.revision, t.intentVersion, t.planVersion, Supervisor,
                                              DecisionWithdrawn(ids[k]))
  {
    if ids != [] {
      SupervisorWithdraws(t, ids[..|ids| - 1]);
    }
  }

  /** A new task: its row, its execution row, and one opening event or two. */
  lemma NewTaskExactly(id: string, title: string, repository: Option<string>, goal: Option<string>, fts: bool)
    ensures var s := NewStore(id, title, repository, goal, fts);
            && s.task.id == id && s.task.title == title && s.task.repository == repository && s.task.goal == goal
            && s.task.phase == Created && s.task.revision == 0 && s.task.intentVersion == 1 && s.task.planVersion == 0
            && s.exec == Execution(Hybrid, NoWriter, ManualOnly, 0, None)
            && s.events == [Event(0, 1, 0, User, TaskCreated)]
                           + (if Truthy(goal) then [Event(0, 1, 0, User, IntentCreated(goal.value))] else [])
  {
    hide Put;
  }
}
