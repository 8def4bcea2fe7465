/** Plan versions, the single approval, and plans that never come back after a hard replan. */
module PlanProofs {
  import opened Prelude
  import opened Text
  import opened Model
  import opened ExecutionTx
  import opened WorkspaceTx
  import opened AgentTx
  import opened MemoryTx
  import opened CheckpointTx
  import opened ReplanTx
  import opened Steps
  import opened AuditProofs
  import opened ReplanProofs

  /** Version, provenance and freshness of one plan row. */
  ghost predicate PlanOk(s: Store, i: nat)
    requires i < |s.plans|
  {
    var p := s.plans[i];
    && p.version == i + 1
    && p.source < |s.events| && s.events[p.source].kind == PlanCreated(i)
    && (LivePlan(p) ==> forall j :: 0 <= j < |s.replans| ==>
          s.replans[j].targetIntent <= s.events[p.source].intentVersion)
  }

  ghost predicate PlanInv(s: Store) {
    && |s.plans| == s.task.planVersion
    && (forall i :: 0 <= i < |s.plans| ==> PlanOk(s, i))
    && (forall i, j :: 0 <= i < j < |s.plans| ==> !(s.plans[i].status == Approved && s.plans[j].status == Approved))
  }

  /** What one step may do to the plan table: rows keep their content, and retired rows their status. */
  ghost predicate PlanMoves(s: Store, t: Store) {
    && |s.plans| <= |t.plans|
    && (forall i :: 0 <= i < |s.plans| ==>
          && t.plans[i] == s.plans[i].(status := t.plans[i].status)
          && (!LivePlan(s.plans[i]) ==> t.plans[i].status == s.plans[i].status)
          && (s.plans[i].status == Approved ==> t.plans[i].status == Approved || t.plans[i].status == PlanSuperseded))
  }

  predicate TouchesPlans(step: Step) {
    || (step.MemoryOp? && (step.memory.CreatePlan? || step.memory.ApprovePlan? || step.memory.RejectPlan?))
    || (step.ReplanOp? && step.replan.Begin?)
  }

  lemma MemoryKeepsPlans(s: Store, m: MemoryStep)
    requires !m.CreatePlan? && !m.ApprovePlan? && !m.RejectPlan?
    ensures var t := After(s, AttemptMemory(s, m)); t.plans == s.plans && t.task.planVersion == s.task.planVersion
  {
  }

  lemma ReplanKeepsPlans(s: Store, r: ReplanStep)
    requires !r.Begin?
    ensures var t := After(s, AttemptReplan(s, r)); t.plans == s.plans && t.task.planVersion == s.task.planVersion
  {
  }

  lemma OthersKeepPlans(s: Store, step: Step)
    requires !TouchesPlans(step)
    ensures var t := Apply(s, step); t.plans == s.plans && t.task.planVersion == s.task.planVersion
  {
    hide AttemptMemory, AttemptReplan;
    match step
    case MemoryOp(m) => MemoryKeepsPlans(s, m);
    case ReplanOp(r) => ReplanKeepsPlans(s, r);
    case _ =>
  }

  /** A step that leaves plans alone and replan targets in place. */
  lemma UntouchedPlans(s: Store, t: Store)
    requires PlanInv(s) && ReplanInv(s) && s.events <= t.events
    requires t.plans == s.plans && t.task.planVersion == s.task.planVersion
    requires |t.replans| == |s.replans|
    requires forall j :: 0 <= j < |s.replans| ==> t.replans[j].targetIntent == s.replans[j].targetIntent
    ensures PlanInv(t) && PlanMoves(s, t)
  {
    forall i | 0 <= i < |t.plans| ensures PlanOk(t, i) {
      assert PlanOk(s, i);
    }
  }

  lemma CreateMoves(s: Store, expected: nat, content: string, actor: Actor)
    requires PlanInv(s) && ReplanInv(s) && CreateTaskPlan(s, expected, content, actor).Ok?
    ensures var t := CreateTaskPlan(s, expected, content, actor).store; PlanInv(t) && PlanMoves(s, t)
  {
    var t := CreateTaskPlan(s, expected, content, actor).store;
    forall j | 0 <= j < |s.replans| ensures s.replans[j].targetIntent <= s.task.intentVersion {
      assert RowOk(s, j);
    }
    forall i | 0 <= i < |t.plans| ensures PlanOk(t, i) {
      if i < |s.plans| {
        assert PlanOk(s, i);
      } else {
        assert t.events[|s.events|] == EventFor(t.task, actor, PlanCreated(i));
      }
    }
  }

  lemma ApproveMoves(s: Store, expected: nat, plan: nat, actor: Actor)
    requires PlanInv(s) && ApproveTaskPlan(s, expected, plan, actor).Ok?
    ensures var t := ApproveTaskPlan(s, expected, plan, actor).store; PlanInv(t) && PlanMoves(s, t)
  {
    var t := ApproveTaskPlan(s, expected, plan, actor).store;
    forall i | 0 <= i < |t.plans| ensures PlanOk(t, i) {
      assert PlanOk(s, i);
    }
  }

  lemma RejectMoves(s: Store, expected: nat, plan: nat, reason: string, actor: Actor)
    requires PlanInv(s) && RejectTaskPlan(s, expected, plan, reason, actor).Ok?
    ensures var t := RejectTaskPlan(s, expected, plan, reason, actor).store; PlanInv(t) && PlanMoves(s, t)
  {
    var t := RejectTaskPlan(s, expected, plan, reason, actor).store;
    forall i | 0 <= i < |t.plans| ensures PlanOk(t, i) {
      assert PlanOk(s, i);
    }
  }

  /** A hard replan leaves no live plan behind. */
  lemma BeginRetiresPlans(s: Store, expected: nat, goal: string, reason: string)
    requires PlanInv(s) && BeginHardReplan(s, expected, goal, reason).Ok?
    ensures var t := BeginHardReplan(s, expected, goal, reason).store;
            && PlanInv(t) && PlanMoves(s, t) && |t.plans| == |s.plans|
            && forall i :: 0 <= i < |t.plans| ==> !LivePlan(t.plans[i])
  {
    var t := BeginHardReplan(s, expected, goal, reason).store;
    assert forall i :: 0 <= i < |t.plans| ==> !LivePlan(t.plans[i]);
    forall i | 0 <= i < |t.plans| ensures PlanOk(t, i) {
      assert PlanOk(s, i);
    }
  }

  lemma StepPlans(s: Store, step: Step)
    requires PlanInv(s) && ReplanInv(s)
    ensures PlanInv(Apply(s, step)) && PlanMoves(s, Apply(s, step))
  {
    hide AttemptExecution, AttemptWorkspace, AttemptAgent, AttemptCheckpoint;
    hide CreateTaskPlan, ApproveTaskPlan, RejectTaskPlan, BeginHardReplan;
    if TouchesPlans(step) {
      if Attempt(s, step).Ok? {
        if step.MemoryOp? {
          match step.memory
          case CreatePlan(expected, content, actor) => CreateMoves(s, expected, content, actor);
          case ApprovePlan(expected, plan, actor) => ApproveMoves(s, expected, plan, actor);
          case RejectPlan(expected, plan, reason, actor) => RejectMoves(s, expected, plan, reason, actor);
        } else {
          BeginRetiresPlans(s, step.replan.expected, step.replan.goal, step.replan.reason);
        }
      }
    } else {
      QuietStepPlans(s, step);
    }
  }

  lemma QuietStepPlans(s: Store, step: Step)
    requires PlanInv(s) && ReplanInv(s) && !TouchesPlans(step)
    ensures PlanInv(Apply(s, step)) && PlanMoves(s, Apply(s, step))
  {
    hide Attempt;
    OthersKeepPlans(s, step);
    StepStamps(s, step);
    StepMoves(s, step);
    NoNewReplan(s, step);
    UntouchedPlans(s, Apply(s, step));
  }

  lemma NoNewReplan(s: Store, step: Step)
    requires !(step.ReplanOp? && step.replan.Begin?)
    ensures |Apply(s, step).replans| == |s.replans|
  {
    hide AttemptExecution, AttemptWorkspace, AttemptAgent, AttemptMemory, AttemptCheckpoint;
    if !step.ReplanOp? {
      OthersKeepReplans(s, step);
    }
  }

  lemma {:induction false} RunKeepsPlans(s: Store, steps: seq<Step>)
    requires PlanInv(s) && ReplanInv(s)
    ensures PlanInv(Run(s, steps)) && ReplanInv(Run(s, steps))
  {
    hide Attempt;
    if steps != [] {
      var n := |steps| - 1;
      RunKeepsPlans(s, steps[..n]);
      StepPlans(Run(s, steps[..n]), steps[n]);
      StepMoves(Run(s, steps[..n]), steps[n]);
    }
  }

  /** REJECTED and SUPERSEDED plans stay so, with their content, in every continuation. */
  lemma {:induction false} RetiredForGood(s: Store, steps: seq<Step>, i: nat)
    requires PlanInv(s) && ReplanInv(s) && i < |s.plans| && !LivePlan(s.plans[i])
    ensures i < |Run(s, steps).plans| && Run(s, steps).plans[i] == s.plans[i]
  {
    hide Attempt;
    if steps != [] {
      var n := |steps| - 1;
      RetiredForGood(s, steps[..n], i);
      RunKeepsPlans(s, steps[..n]);
      StepPlans(Run(s, steps[..n]), steps[n]);
    }
  }

  /** No revival: a plan approved after a hard replan was created after it, under its intent or a later one. */
  lemma NoPlanRevival(s: Store, expected: nat, goal: string, reason: string, steps: seq<Step>, i: nat)
    requires PlanInv(s) && ReplanInv(s) && BeginHardReplan(s, expected, goal, reason).Ok?
    requires var t := Run(BeginHardReplan(s, expected, goal, reason).store, steps);
             i < |t.plans| && t.plans[i].status == Approved
    ensures var t := Run(BeginHardReplan(s, expected, goal, reason).store, steps);
            && i >= |s.plans| && |s.replans| < |t.replans|
            && t.plans[i].source < |t.events| && t.events[t.plans[i].source].kind == PlanCreated(i)
            && t.events[t.plans[i].source].intentVersion >= t.replans[|s.replans|].targetIntent
  {
    hide Attempt, Run;
    var b := BeginHardReplan(s, expected, goal, reason).store;
    var t := Run(b, steps);
    BeginRetiresPlans(s, expected, goal, reason);
    BeginMoves(s, expected, goal, reason);
    RunKeepsPlans(b, steps);
    if i < |s.plans| {
      RetiredForGood(b, steps, i);
    }
    ReplanHistoryFixed(b, steps, |s.replans|);
    assert PlanOk(t, i);
  }

  /** Plan versions are exactly 1..plan_version and at most one plan is APPROVED, in every reachable state. */
  lemma VersionsAndApproval(s: Store, steps: seq<Step>)
    requires PlanInv(s) && ReplanInv(s)
    ensures var t := Run(s, steps);
            && |t.plans| == t.task.planVersion
            && (forall i :: 0 <= i < |t.plans| ==> t.plans[i].version == i + 1)
            && (forall i :: 0 <= i < |t.plans| && t.plans[i].status == Approved ==> ApprovedPlan(t.plans) == Some(i))
  {
    hide Attempt, Run;
    RunKeepsPlans(s, steps);
    var t := Run(s, steps);
    forall i | 0 <= i < |t.plans| ensures t.plans[i].version == i + 1 {
      assert PlanOk(t, i);
    }
  }

  /**
   The store does not tie approval to the replan: a plan drafted right after a hard replan can be approved although that
   replan's interrupt is still pending and its snapshot unclassified.
   */
  lemma ApprovalDuringReplan(s: Store, expected: nat, goal: string, reason: string, content: string, actor: Actor)
    requires BeginHardReplan(s, expected, goal, reason).Ok?
    ensures var b := BeginHardReplan(s, expected, goal, reason).store;
            var d := CreateTaskPlan(b, b.task.revision, content, actor);
            && d.Ok?
            && var a := ApproveTaskPlan(d.store, d.store.task.revision, |s.plans|, actor);
               && a.Ok? && a.store.plans[|s.plans|].status == Approved
               && a.store.replans[|s.replans|].status == InterruptPending
  {
    hide PutPlans, PutDecisions, OverrideEvents, Withdrawals, Replacements, Put, Blank, Strip, Where, WhereDesc;
  }
}
