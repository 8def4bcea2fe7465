/** Plan approval and execution starts while a hard replan is active, and schedules from a new task for each gap. */
module ReplanGates {
  import opened Prelude
  import opened Text
  import opened Model
  import opened ExecutionTx
  import opened WorkspaceTx
  import opened AgentTx
  import opened MemoryTx
  import opened CheckpointTx
  import opened ReplanTx
  import opened Steps
  import opened OperationProofs
  import opened ReplanProofs
  import opened PlanProofs
  import opened AuditProofs
  import opened StartProtocol
  import opened TenureProofs

  /** The plan was created, by its own event, at or after the target intent of every replan. */
  ghost predicate AfterOverride(s: Store, plan: nat) {
    && plan < |s.plans| && s.plans[plan].source < |s.events|
    && s.events[s.plans[plan].source].kind == PlanCreated(plan)
    && forall j :: 0 <= j < |s.replans| ==> s.replans[j].targetIntent <= s.events[s.plans[plan].source].intentVersion
  }

  /**
   Whatever replan is active: approval is accepted exactly for a DRAFT on the current revision, and by the plan
   invariant only plans created under the newest intent are left in DRAFT.
   */
  lemma ApprovalAcceptedExactly(s: Store, expected: nat, plan: nat, actor: Actor)
    requires PlanInv(s)
    ensures ApproveTaskPlan(s, expected, plan, actor).Ok?
            <==> plan < |s.plans| && s.plans[plan].status == Draft && expected == s.task.revision
    ensures ApproveTaskPlan(s, expected, plan, actor).Ok? ==> AfterOverride(s, plan)
  {
    hide PutPlans, Replacements, Put, Where, UpdateWhere;
    if plan < |s.plans| && s.plans[plan].status == Draft {
      assert PlanOk(s, plan);
    }
  }

  /** From every store a plan can be drafted and approved with the replan table as it is. */
  lemma ApprovalAlwaysReachable(s: Store, content: string, author: Actor, approver: Actor)
    ensures var d := CreateTaskPlan(s, s.task.revision, content, author);
            && d.Ok?
            && var a := ApproveTaskPlan(d.store, s.task.revision + 1, |s.plans|, approver);
               && a.Ok? && a.store.replans == s.replans && SameLease(s, a.store)
               && ApprovedPlan(a.store.plans) == Some(|s.plans|) && a.store.plans[|s.plans|].content == content
  {
    hide PutPlans, Replacements, Put, Where;
    var d := CreateTaskPlan(s, s.task.revision, content, author).store;
    var a := ApproveTaskPlan(d, s.task.revision + 1, |s.plans|, approver).store;
    assert |a.plans| == |s.plans| + 1 && a.plans[|s.plans|].status == Approved;
  }

  /** The gate of an execution start gives the same answer on any other replan table. */
  lemma StartGateIgnoresReplans(s: Store, expected: nat, q: StartRequest, replans: seq<Replan>,
                                snapshots: seq<Snapshot>)
    ensures StartGate(s.(replans := replans, snapshots := snapshots), expected, q) == StartGate(s, expected, q)
  {
    hide Normalized, Blank, UnknownStatus, FailedStatus, ActiveRuntime;
  }

  /**
   An execution gate opens exactly on its own four checks; all they say about a replan, pending, failed or otherwise, is
   that the plan to start was created after every override.
   */
  lemma StartGateExactly(s: Store, expected: nat, q: StartRequest)
    requires PlanInv(s) && q.ExecutionStart?
    ensures StartGate(s, expected, q).None?
            <==> expected == s.task.revision && SafetyGate(s) && LeaseGate(s, expected, q.lease) && PlanGate(s, q)
    ensures StartGate(s, expected, q).None? ==> AfterOverride(s, q.plan)
  {
    hide Normalized, Blank, UnknownStatus, FailedStatus, Conflicting, SafetyGate, LeaseGate;
    if StartGate(s, expected, q).None? {
      assert PlanOk(s, q.plan);
    }
  }

  /** Some continuation that leaves every replan as it is comes to a point where an execution start passes its gate. */
  ghost predicate StartReachable(s: Store) {
    exists steps, expected, q: StartRequest ::
      Run(s, steps).replans == s.replans && q.ExecutionStart? && StartGate(Run(s, steps), expected, q).None?
  }

  /** Free, in HYBRID mode, on an active workspace if on any. */
  predicate Cleared(s: Store) {
    Free(s) && s.exec.mode == Hybrid && (s.workspace.Some? ==> s.workspace.value.state == Active)
  }

  lemma NotBlank(text: string)
    requires |text| == 1 && !IsSpace(text[0])
    ensures !Blank(text)
  {
  }

  /** A closed workspace is replaced. */
  lemma Reopen(s: Store) returns (step: Step)
    requires Free(s)
    ensures var t := Apply(s, step);
            Free(t) && t.replans == s.replans && (t.workspace.Some? ==> t.workspace.value.state == Active)
  {
    hide Blank, AttemptExecution, AttemptAgent, AttemptMemory, AttemptCheckpoint, AttemptReplan;
    NotBlank("w");
    if s.workspace.Some? && s.workspace.value.state != Active {
      step := WorkspaceOp(Bind(s.task.revision, WorkspaceIdentity("w", "w", "w", None, Checkout, None), None, None));
    } else {
      step := WorkspaceOp(Bind(s.task.revision + 1,
                               WorkspaceIdentity("w", "w", "w", None, Checkout, None), None, None));
    }
  }

  lemma GoHybrid(s: Store) returns (step: Step)
    requires Free(s) && (s.workspace.Some? ==> s.workspace.value.state == Active)
    ensures var t := Apply(s, step); Cleared(t) && t.replans == s.replans
  {
    hide Blank, AttemptWorkspace, AttemptAgent, AttemptMemory, AttemptCheckpoint, AttemptReplan;
    step := LeaseOp(SetMode(s.task.revision, Hybrid, User));
  }

  /** CODEX holds the lease and nothing in lease, safety or workspace stands against a start. */
  predicate Leased(s: Store) {
    && s.exec.writer == CodexWriter && SafetyClear(s)
    && (s.workspace.Some? ==> s.workspace.value.state == Active)
  }

  lemma Lend(s: Store) returns (step: Step)
    requires Cleared(s)
    ensures var t := Apply(s, step); Leased(t) && t.replans == s.replans
  {
    hide Blank, AttemptWorkspace, AttemptAgent, AttemptMemory, AttemptCheckpoint, AttemptReplan;
    step := LeaseOp(Acquire(s.task.revision, CodexWriter, User, true));
  }

  /** A plan drafted and approved. */
  predicate Planned(s: Store, plan: nat) {
    Leased(s) && ApprovedPlan(s.plans) == Some(plan) && s.plans[plan].content == "x"
  }

  lemma ApplyMemory(s: Store, m: MemoryStep)
    ensures Apply(s, MemoryOp(m)) == After(s, AttemptMemory(s, m))
  {
    hide AttemptMemory;
  }

  lemma DraftAndApprove(s: Store) returns (create: Step, approve: Step)
    requires Leased(s)
    ensures var t := Apply(Apply(s, create), approve); Planned(t, |s.plans|) && t.replans == s.replans
  {
    hide Apply, Attempt, CreateTaskPlan, ApproveTaskPlan, ApprovedPlan;
    create := MemoryOp(CreatePlan(s.task.revision, "x", Codex));
    approve := MemoryOp(ApprovePlan(s.task.revision + 1, |s.plans|, Supervisor));
    ApprovalAlwaysReachable(s, "x", Codex, Supervisor);
    ApplyMemory(s, create.memory);
    ApplyMemory(Apply(s, create), approve.memory);
  }

  /** The runtime row a read-only plan would have left. */
  lemma Record(s: Store, plan: nat) returns (step: Step)
    requires Planned(s, plan)
    ensures var t := Apply(s, step); Planned(t, plan) && t.runtime.Some? && t.replans == s.replans
  {
    hide ApprovedPlan, AttemptExecution, AttemptWorkspace, AttemptMemory, AttemptCheckpoint, AttemptReplan;
    step := AgentOp(BindRuntime(s.task.revision,
                                RuntimeBinding(CodexStarted, NO_IDENTITY, None, None, None, None, None)));
  }

  function StartOf(s: Store, plan: nat): StartRequest {
    ExecutionStart(plan, PlanHandle(NO_IDENTITY, "", false), PlanResult("x", ""),
                   LeaseToken(s.task.id, CodexWriter, s.exec.epoch, s.task.revision))
  }

  lemma StartPasses(s: Store, plan: nat)
    requires Planned(s, plan) && s.runtime.Some?
    ensures StartGate(s, s.task.revision, StartOf(s, plan)).None?
  {
    hide ApprovedPlan, Normalized, Blank;
    NotBlank("x");
  }

  lemma PrepareStart(s: Store) returns (steps: seq<Step>, plan: nat)
    requires OperationInv(s) && !Wedged(s)
    ensures var t := Run(s, steps); Planned(t, plan) && t.runtime.Some? && t.replans == s.replans
  {
    hide Run, Apply, Wedged, OperationInv, Free, Cleared, Leased, Planned;
    steps := MakeFree(s);
    var reopen := Reopen(Run(s, steps));
    Extend(s, steps, reopen);
    steps := steps + [reopen];
    var hybrid := GoHybrid(Run(s, steps));
    Extend(s, steps, hybrid);
    steps := steps + [hybrid];
    var lend := Lend(Run(s, steps));
    Extend(s, steps, lend);
    steps := steps + [lend];
    plan := |Run(s, steps).plans|;
    var create, approve := DraftAndApprove(Run(s, steps));
    Extend(s, steps, create);
    Extend(s, steps + [create], approve);
    steps := steps + [create] + [approve];
    var record := Record(Run(s, steps), plan);
    Extend(s, steps, record);
    steps := steps + [record];
  }

  /**
   The documented rule, that no new implementation starts while the interrupt is unreconciled: with the replan still
   INTERRUPT_PENDING or INTERRUPT_FAILED, or whatever it is, an execution start can pass its gate iff the store is not
   wedged.
   */
  lemma StartReachableExactly(s: Store)
    requires OperationInv(s)
    ensures StartReachable(s) <==> !Wedged(s)
  {
    hide Run, StartGate, Wedged, OperationInv, Planned, StartOf;
    if Wedged(s) {
      forall steps, expected, q: StartRequest | q.ExecutionStart? ensures StartGate(Run(s, steps), expected, q).Some? {
        WedgedForGood(s, steps);
        RunKeepsOperations(s, steps);
        WedgedRefuses(Run(s, steps), Acquire(0, NoWriter, User, false), expected, q);
      }
    } else {
      var steps, plan := PrepareStart(s);
      StartPasses(Run(s, steps), plan);
      IsExecution(Run(s, steps), plan);
      assert StartOf(Run(s, steps), plan).ExecutionStart?;
    }
  }

  lemma IsExecution(s: Store, plan: nat)
    ensures StartOf(s, plan).ExecutionStart?
  {
  }

  // ---- schedules from a new task ----

  /** What the first hard replan of a store leaves, as far as the schedules below look at it. */
  lemma FirstOverride(s: Store)
    requires s.replans == [] && s.snapshots == []
    ensures var b := BeginHardReplan(s, s.task.revision, "g", "r");
            && b.Ok? && SameLease(s, b.store) && b.store.task.revision == s.task.revision + 1
            && b.store.task.phase == Paused
            && |b.store.replans| == 1 && |b.store.snapshots| == 1
            && b.store.replans[0].status == InterruptPending && b.store.replans[0].snapshot == 0
  {
    hide Blank, Strip, Put, PutPlans, PutDecisions, OverrideEvents, Withdrawals, Where, WhereDesc;
    NotBlank("g");
    NotBlank("r");
  }

  /** A hard replan whose interrupt failed. */
  function Blocking(s: Store): Store {
    After(After(s, BeginHardReplan(s, s.task.revision, "g", "r")),
          FinalizeInterrupt(After(s, BeginHardReplan(s, s.task.revision, "g", "r")),
                            s.task.revision + 1, 0, false, None))
  }

  lemma BlockingFails(s: Store)
    requires s.replans == [] && s.snapshots == []
    ensures var f := Blocking(s);
            && f.task.revision == s.task.revision + 2 && f.task.phase == Blocked && SameLease(s, f)
            && |f.replans| == 1 && |f.snapshots| == 1 && f.replans[0].status == InterruptFailed
              && f.replans[0].snapshot == 0
  {
    hide BeginHardReplan;
    FirstOverride(s);
  }

  /** Override the goal of a new task, fail the interrupt: CHATGPT gets the lease of the BLOCKED task. */
  lemma BlockedTaskAdmitsWriter(id: string, title: string, fts: bool)
    ensures var f := Blocking(NewStore(id, title, None, None, fts));
            && f.task.phase == Blocked && f.replans[0].status == InterruptFailed
            && AcquireWriter(f, 2, ChatGpt, Supervisor, false).Ok?
  {
    hide Blocking, Put;
    BlockingFails(NewStore(id, title, None, None, fts));
  }

  function ToCodex(epoch: nat): HandoverRequest {
    HandoverRequest(ChatGpt, CodexWriter, epoch, "r", None, None, User, false)
  }

  /** With CHATGPT already writing, every acquisition is refused, but the lease can be handed to CODEX. */
  lemma BlockedTaskAdmitsHandoff(id: string, title: string, fts: bool)
    ensures var a := AcquireWriter(NewStore(id, title, None, None, fts), 0, ChatGpt, Supervisor, false);
            && a.Ok?
            && var f := Blocking(a.store);
               && f.task.phase == Blocked && f.replans[0].status == InterruptFailed
               && HandoffWriter(f, 3, ToCodex(1)).Ok?
               && HandoffWriter(f, 3, ToCodex(1)).store.exec.writer == CodexWriter
               && forall writer, actor, authorized :: AcquireWriter(f, 3, writer, actor, authorized).Err?
  {
    hide Blocking, Put;
    HandoffAfterBlocking(AcquireWriter(NewStore(id, title, None, None, fts), 0, ChatGpt, Supervisor, false).store);
  }

  lemma HandoffAfterBlocking(s: Store)
    requires s.task.revision == 1 && s.replans == [] && s.snapshots == []
    requires s.exec.writer == ChatGpt && s.exec.epoch == 1 && s.exec.mode == Hybrid
    requires s.safety.None? && s.workspace.None? && s.operations == []
    ensures var f := Blocking(s);
            && f.task.phase == Blocked && |f.replans| == 1 && f.replans[0].status == InterruptFailed
            && HandoffWriter(f, 3, ToCodex(1)).Ok?
            && HandoffWriter(f, 3, ToCodex(1)).store.exec.writer == CodexWriter
            && forall writer, actor, authorized :: AcquireWriter(f, 3, writer, actor, authorized).Err?
  {
    hide Blocking, Blank, Strip;
    NotBlank("r");
    BlockingFails(s);
  }

  /** A retry of that interrupt moves the revision and leaves no event. */
  lemma RetryLeavesNoEvent(id: string, title: string, fts: bool)
    ensures var f := Blocking(NewStore(id, title, None, None, fts));
            var r := PrepareInterruptRetry(f, 2, 0);
            r.Ok? && r.store.task.revision == 3 && r.store.events == f.events
  {
    hide Blocking, Put;
    BlockingFails(NewStore(id, title, None, None, fts));
  }

  /** On the BLOCKED task of a failed interrupt an execution start passes its gate after four more transactions. */
  lemma StartOnBlockedTask(id: string, title: string, fts: bool) returns (steps: seq<Step>, q: StartRequest)
    ensures var t := Run(Blocking(NewStore(id, title, None, None, fts)), steps);
            && |steps| == 4 && |t.replans| == 1 && t.replans[0].status == InterruptFailed
            && q.ExecutionStart? && StartGate(t, t.task.revision, q).None?
  {
    hide Run, Apply, Blocking, StartGate, StartOf, Planned, Leased, NewStore;
    var s := Blocking(NewStore(id, title, None, None, fts));
    BlockedIsCleared(id, title, fts);
    steps, q := StartFromCleared(s);
  }

  lemma BlockedIsCleared(id: string, title: string, fts: bool)
    ensures var f := Blocking(NewStore(id, title, None, None, fts));
            Cleared(f) && |f.replans| == 1 && f.replans[0].status == InterruptFailed
  {
    hide Blocking, Put;
    BlockingFails(NewStore(id, title, None, None, fts));
  }

  lemma StartFromCleared(s: Store) returns (steps: seq<Step>, q: StartRequest)
    requires Cleared(s)
    ensures var t := Run(s, steps);
            |steps| == 4 && t.replans == s.replans && q.ExecutionStart? && StartGate(t, t.task.revision, q).None?
  {
    hide Run, Apply, StartGate, StartOf, Planned, Leased, Cleared;
    NoSteps(s);
    var lend := Lend(s);
    Extend(s, [], lend);
    steps := [] + [lend];
    var plan := |Run(s, steps).plans|;
    var create, approve := DraftAndApprove(Run(s, steps));
    Extend(s, steps, create);
    Extend(s, steps + [create], approve);
    steps := steps + [create] + [approve];
    var record := Record(Run(s, steps), plan);
    Extend(s, steps, record);
    steps := steps + [record];
    q := StartOf(Run(s, steps), plan);
    StartPasses(Run(s, steps), plan);
    IsExecution(Run(s, steps), plan);
  }

  lemma NoSteps(s: Store)
    ensures Run(s, []) == s
  {
    hide Attempt;
  }
}
