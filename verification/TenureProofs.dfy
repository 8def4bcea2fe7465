/**
 What a hard replan whose interrupt failed, or is still pending, does not stop: new writer tenures, plan approvals and
 execution starts. The guards in question never look at the replan; only the workspace can hold them back for good.
 */
module TenureProofs {
  import opened Prelude
  import opened Text
  import opened Model
  import opened ExecutionTx
  import opened WorkspaceTx
  import opened AgentTx
  import opened MemoryTx
  import opened CheckpointTx
  import opened ReplanTx
  import opened Steps
  import opened RevisionProofs
  import opened OperationProofs
  import opened LeaseProofs
  import opened ReplanProofs
  import opened PlanProofs
  import opened StartProtocol

  /** The two transactions that begin a tenure. */
  predicate TakesLease(e: ExecutionStep) {
    e.Acquire? || e.HandOver?
  }

  /** What they ask of lease, safety, operations and workspace. */
  predicate LeaseGuards(s: Store, e: ExecutionStep)
    requires TakesLease(e)
  {
    TransitionSafe(s)
    && match e
       case Acquire(_, writer, actor, authorized) =>
         s.exec.writer == NoWriter && WriterRefusal(s.exec, writer, actor, authorized).None?
       case HandOver(_, q) =>
         && q.from != NoWriter && q.to != NoWriter && q.from != q.to && !Blank(q.reason)
         && s.exec.writer == q.from && s.exec.epoch == q.epoch
         && WriterRefusal(s.exec, q.to, q.actor, q.authorized).None?
  }

  /** At every point of every run a tenure begins on exactly these terms; no replan status is among them. */
  lemma TenureAcceptedExactly(s: Store, e: ExecutionStep)
    requires TakesLease(e)
    ensures AttemptExecution(s, e).Ok?
            <==> e.expected == s.task.revision && !Terminal(s.task.phase) && LeaseGuards(s, e)
  {
    hide Blank, Strip, TransitionSafe;
  }

  /** The decision is the same on any other replan table, and in any other phase that is not terminal. */
  lemma TenureIgnoresReplans(s: Store, e: ExecutionStep, replans: seq<Replan>, snapshots: seq<Snapshot>,
                             phase: TaskPhase)
    requires TakesLease(e) && !Terminal(s.task.phase) && !Terminal(phase)
    ensures var t := s.(task := s.task.(phase := phase), replans := replans, snapshots := snapshots);
            AttemptExecution(t, e).Ok? <==> AttemptExecution(s, e).Ok?
  {
    hide Blank, Strip, AttemptExecution;
    TenureAcceptedExactly(s, e);
    TenureAcceptedExactly(s.(task := s.task.(phase := phase), replans := replans, snapshots := snapshots), e);
  }

  /** Right after a failed interrupt the task is BLOCKED, and a tenure begins iff the lease guards held before. */
  lemma TenureAfterFailedInterrupt(s: Store, expected: nat, replan: nat, error: Option<string>, e: ExecutionStep)
    requires FinalizeInterrupt(s, expected, replan, false, error).Ok? && TakesLease(e)
    ensures var t := FinalizeInterrupt(s, expected, replan, false, error).store;
            && t.task.phase == Blocked && t.replans[replan].status == InterruptFailed
            && (AttemptExecution(t, e).Ok? <==> e.expected == expected + 1 && LeaseGuards(s, e))
  {
    hide Blank, Strip, AttemptExecution;
    TenureAcceptedExactly(FinalizeInterrupt(s, expected, replan, false, error).store, e);
  }

  // ---- when it is held back for good ----

  predicate StalePrepared(s: Store, i: nat) {
    i < |s.operations| && s.operations[i].status == Prepared && s.operations[i].preparedRevision < s.task.revision
  }

  /** The workspace is stopped, or an operation is in flight that can only stop it. */
  predicate Wedged(s: Store) {
    WorkspaceStopped(s) || exists i :: 0 <= i < |s.operations| && StalePrepared(s, i)
  }

  lemma SettlingStops(s: Store, w: WorkspaceStep, i: nat)
    requires StalePrepared(s, i)
    ensures var t := After(s, AttemptWorkspace(s, w)); WorkspaceStopped(t) || StalePrepared(t, i)
  {
    hide Blank, Strip, HasPrepared, SafetyClear;
  }

  lemma StaleStays(s: Store, step: Step, i: nat)
    requires StalePrepared(s, i)
    ensures WorkspaceStopped(Apply(s, step)) || StalePrepared(Apply(s, step), i)
  {
    hide AttemptExecution, AttemptWorkspace, AttemptAgent, AttemptMemory, AttemptCheckpoint, AttemptReplan;
    StepRevision(s, step);
    match step
    case WorkspaceOp(w) => SettlingStops(s, w, i);
    case LeaseOp(e) => ExecutionKeepsWorkspace(s, e);
    case AgentOp(a) => AgentKeepsWorkspace(s, a);
    case _ => OtherStepsKeepLease(s, step);
  }

  lemma WedgedStep(s: Store, step: Step)
    requires OperationInv(s) && Wedged(s)
    ensures Wedged(Apply(s, step))
  {
    hide Attempt, OperationInv, WorkspaceStopped, StalePrepared;
    if WorkspaceStopped(s) {
      StoppedStep(s, step);
    } else {
      var i :| 0 <= i < |s.operations| && StalePrepared(s, i);
      StaleStays(s, step, i);
      StaleIsIndex(Apply(s, step), i);
    }
  }

  lemma StaleIsIndex(s: Store, i: nat)
    ensures StalePrepared(s, i) ==> i < |s.operations|
  {
  }

  lemma StoppedStep(s: Store, step: Step)
    requires OperationInv(s) && WorkspaceStopped(s)
    ensures WorkspaceStopped(Apply(s, step))
  {
    hide Attempt, OperationInv;
    StepInReconciliation(s, step);
  }

  /** For good, in every continuation. */
  lemma {:induction false} WedgedForGood(s: Store, steps: seq<Step>)
    requires OperationInv(s) && Wedged(s)
    ensures Wedged(Run(s, steps))
  {
    hide Attempt, Wedged, OperationInv;
    if steps != [] {
      var n := |steps| - 1;
      WedgedForGood(s, steps[..n]);
      RunKeepsOperations(s, steps[..n]);
      WedgedStep(Run(s, steps[..n]), steps[n]);
    }
  }

  /** Then neither a tenure nor an execution can begin. */
  lemma WedgedRefuses(s: Store, e: ExecutionStep, expected: nat, q: StartRequest)
    requires OperationInv(s) && Wedged(s) && TakesLease(e) && q.ExecutionStart?
    ensures AttemptExecution(s, e).Err? && StartGate(s, expected, q).Some?
  {
    hide PlanGate, WriterRefusal, Terminal, Blank, Strip;
    if !WorkspaceStopped(s) {
      var i :| 0 <= i < |s.operations| && StalePrepared(s, i);
      assert Held(s, s.operations[i]);
    }
  }

  // ---- otherwise a short continuation gets there, with the replan table as it is ----

  lemma OneStep(s: Store, step: Step)
    ensures Run(s, [step]) == Apply(s, step) && Run(s, []) == s
  {
    hide Attempt;
    assert [step][..0] == [];
  }

  /** Nothing in flight and the workspace not stopped. */
  predicate Settled(s: Store) {
    !HasPrepared(s.operations) && !WorkspaceStopped(s)
  }

  /** Settled, no latch, a live phase and no writer. */
  predicate Free(s: Store) {
    Settled(s) && SafetyClear(s) && !Terminal(s.task.phase) && s.exec.writer == NoWriter
  }

  lemma CompletesStable(s: Store, i: nat, r: OperationResult)
    requires OperationInv(s) && InFlight(s, i) && s.operations[i].preparedRevision == s.task.revision
    ensures var t := Apply(s, WorkspaceOp(Complete(i, s.operations[i].epoch, r)));
            Settled(t) && t.replans == s.replans
  {
    hide AttemptExecution, AttemptAgent, AttemptMemory, AttemptCheckpoint, AttemptReplan;
    assert Held(s, s.operations[i]);
  }

  lemma Settle(s: Store) returns (steps: seq<Step>)
    requires OperationInv(s) && !Wedged(s)
    ensures Settled(Run(s, steps)) && Run(s, steps).replans == s.replans
  {
    hide Run, Attempt;
    if HasPrepared(s.operations) {
      var i :| 0 <= i < |s.operations| && s.operations[i].status == Prepared;
      assert Held(s, s.operations[i]) && !StalePrepared(s, i);
      var r := OperationResult("", GitFacts(None, None, false, []), None, map[]);
      var step := WorkspaceOp(Complete(i, s.operations[i].epoch, r));
      CompletesStable(s, i, r);
      OneStep(s, step);
      return [step];
    }
    OneStep(s, LeaseOp(SetPolicy(0, ManualOnly, User)));
    return [];
  }

  lemma ClearLatch(s: Store) returns (step: Step)
    requires Settled(s)
    ensures var t := Apply(s, step); Settled(t) && SafetyClear(t) && t.replans == s.replans
  {
    hide AttemptExecution, AttemptMemory, AttemptCheckpoint, AttemptReplan;
    step := AgentOp(if SafetyClear(s) then Reconcile(s.task.revision + 1, "") else Reconcile(s.task.revision, ""));
  }

  lemma Revive(s: Store) returns (step: Step)
    requires Settled(s) && SafetyClear(s)
    ensures var t := Apply(s, step); Settled(t) && SafetyClear(t) && !Terminal(t.task.phase) && t.replans == s.replans
  {
    hide AttemptExecution, AttemptWorkspace, AttemptAgent, AttemptCheckpoint, AttemptReplan;
    step := MemoryOp(SetPhase(s.task.revision, Blocked, User, None));
  }

  lemma Vacate(s: Store) returns (step: Step)
    requires Settled(s) && SafetyClear(s) && !Terminal(s.task.phase)
    ensures var t := Apply(s, step); Free(t) && t.replans == s.replans
  {
    hide AttemptWorkspace, AttemptAgent, AttemptMemory, AttemptCheckpoint, AttemptReplan;
    step := LeaseOp(Release(s.task.revision, s.exec.writer, s.exec.epoch, User));
  }

  lemma Extend(s: Store, steps: seq<Step>, step: Step)
    ensures Run(s, steps + [step]) == Apply(Run(s, steps), step)
  {
    hide Attempt;
    assert (steps + [step])[..|steps|] == steps;
  }

  lemma MakeFree(s: Store) returns (steps: seq<Step>)
    requires OperationInv(s) && !Wedged(s)
    ensures Free(Run(s, steps)) && Run(s, steps).replans == s.replans
  {
    hide Run, Apply, Wedged, OperationInv, Settled, Free, SafetyClear;
    steps := Settle(s);
    var clear := ClearLatch(Run(s, steps));
    Extend(s, steps, clear);
    steps := steps + [clear];
    var revive := Revive(Run(s, steps));
    Extend(s, steps, revive);
    steps := steps + [revive];
    var vacate := Vacate(Run(s, steps));
    Extend(s, steps, vacate);
    steps := steps + [vacate];
  }

  /** Some continuation that leaves every replan as it is comes to a point where a tenure can begin. */
  ghost predicate TenureReachable(s: Store) {
    exists steps, e :: Run(s, steps).replans == s.replans && TakesLease(e) && AttemptExecution(Run(s, steps), e).Ok?
  }

  function FreshTenure(s: Store): ExecutionStep {
    Acquire(s.task.revision, if s.exec.mode == CodexSupervised then CodexWriter else ChatGpt, User, true)
  }

  lemma FreeAdmits(s: Store)
    requires Free(s)
    ensures AttemptExecution(s, FreshTenure(s)).Ok?
  {
  }

  /** With the replans as they are, INTERRUPT_FAILED or whatever else, a tenure can still begin iff not wedged. */
  lemma TenureReachableExactly(s: Store)
    requires OperationInv(s)
    ensures TenureReachable(s) <==> !Wedged(s)
  {
    hide Run, AttemptExecution, Wedged, OperationInv, Free, FreshTenure, TakesLease;
    if Wedged(s) {
      forall steps, e | TakesLease(e) ensures AttemptExecution(Run(s, steps), e).Err? {
        WedgedForGood(s, steps);
        RunKeepsOperations(s, steps);
        var none := PlanHandle(NO_IDENTITY, "", false);
        WedgedRefuses(Run(s, steps), e, 0, ExecutionStart(0, none, PlanResult("", ""), LeaseToken("", NoWriter, 0, 0)));
      }
    } else {
      var steps := MakeFree(s);
      FreeAdmits(Run(s, steps));
      FreshTakes(Run(s, steps));
      assert TakesLease(FreshTenure(Run(s, steps)));
    }
  }

  lemma FreshTakes(s: Store)
    ensures TakesLease(FreshTenure(s))
  {
  }

  /**
   The documented rule, that after a failed interrupt no writer is admitted before reconciliation: it holds, over all
   continuations with the replan still INTERRUPT_FAILED, exactly when the workspace was already stopped or a direct
   operation was in flight when the interrupt was finalised.
   */
  lemma FailedInterruptAdmitsExactly(s: Store, expected: nat, replan: nat, error: Option<string>)
    requires OperationInv(s) && FinalizeInterrupt(s, expected, replan, false, error).Ok?
    ensures var t := FinalizeInterrupt(s, expected, replan, false, error).store;
            TenureReachable(t) <==> !WorkspaceStopped(s) && !HasPrepared(s.operations)
  {
    hide TenureReachable, Attempt;
    var t := FinalizeInterrupt(s, expected, replan, false, error).store;
    assert t.operations == s.operations && t.exec == s.exec && t.workspace == s.workspace && t.safety == s.safety;
    assert t.task.revision == s.task.revision + 1;
    forall i | 0 <= i < |s.operations| && s.operations[i].status == Prepared ensures StalePrepared(t, i) {
      assert Held(s, s.operations[i]);
    }
    SameOperations(s, t);
    TenureReachableExactly(t);
  }

  lemma SameOperations(s: Store, t: Store)
    requires OperationInv(s) && SameLease(s, t) && s.task.revision <= t.task.revision
    ensures OperationInv(t)
  {
  }
}
