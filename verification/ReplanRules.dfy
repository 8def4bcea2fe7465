/** What each transaction of the hard-replan lifecycle accepts, captures and writes, and the service on top of it. */
module ReplanRules {
  import opened Prelude
  import opened Text
  import opened Model
  import opened MemoryTx
  import opened ReplanTx
  import opened Steps
  import opened ExecutionTx
  import opened WorkspaceTx
  import opened AgentTx
  import opened CheckpointTx
  import opened RevisionProofs
  import opened ReplanProofs
  import opened ReplanProtocol

  /** A plan that has not been rejected or superseded. */
  predicate Live(plan: Plan) {
    plan.status == Draft || plan.status == Approved
  }

  /** The live plan of highest version, if there is one. */
  predicate IsNewestLive(s: Store, plan: Option<nat>) {
    match plan
    case None => forall i :: 0 <= i < |s.plans| ==> !Live(s.plans[i])
    case Some(p) => p < |s.plans| && Live(s.plans[p]) && forall i :: p < i < |s.plans| ==> !Live(s.plans[i])
  }

  lemma {:induction false} NewestFirst(plans: seq<Plan>)
    ensures var ids := WhereDesc(plans, LivePlan);
            ids != [] ==> forall i :: ids[0] < i < |plans| ==> !LivePlan(plans[i])
  {
    if plans != [] {
      var n := |plans| - 1;
      NewestFirst(plans[..n]);
      assert forall i :: 0 <= i < n ==> plans[..n][i] == plans[i];
    }
  }

  /** The turn that was running: the runtime row's identifiers, or else the task's thread and turn. */
  function RunningTurn(s: Store): RemoteIdentity {
    match s.runtime
    case Some(r) => r.identity
    case None => RemoteIdentity(None, None, s.task.thread, s.task.turn)
  }

  predicate Given(x: Option<string>) {
    x != None && x != Some("")
  }

  /** At least one identifier is there and not empty. */
  predicate Addressable(id: RemoteIdentity) {
    Given(id.workflow) || Given(id.operation) || Given(id.thread) || Given(id.turn)
  }

  lemma AddressableExactly(id: RemoteIdentity)
    ensures Interruptible(id) <==> Addressable(id)
  {
  }

  /** `begin_hard_replan` is accepted exactly for a goal and a reason with text in them, on the current revision. */
  lemma BeginAcceptedExactly(s: Store, expected: nat, goal: string, reason: string)
    ensures BeginHardReplan(s, expected, goal, reason).Ok?
            <==> Strip(goal) != "" && Strip(reason) != "" && s.task.revision == expected
  {
    hide Strip, PutPlans, PutDecisions, OverrideEvents, Withdrawals, Where, WhereDesc, UpdateWhere, ReplanTx.Capture,
         Retag;
  }

  /** The work snapshot is the store as it was before the override. */
  lemma BeginCapturesExactly(s: Store, expected: nat, goal: string, reason: string)
    requires BeginHardReplan(s, expected, goal, reason).Ok?
    ensures var t := BeginHardReplan(s, expected, goal, reason).store;
            && |t.snapshots| == |s.snapshots| + 1 && !t.snapshots[|s.snapshots|].classified
            && var f := t.snapshots[|s.snapshots|].facts;
               && f.identity == RunningTurn(s)
               && f.remoteStatus == (if s.runtime.Some? then s.runtime.value.status else None)
               && f.revision == s.task.revision && f.intentVersion == s.task.intentVersion
               && f.planVersion == s.task.planVersion && f.goal == s.task.goal && f.phase == s.task.phase
               && f.kandev == s.task.kandev && f.gitBranch == s.task.gitBranch && f.gitHead == s.task.gitHead
               && IsNewestLive(s, f.planId)
    ensures var f := BeginHardReplan(s, expected, goal, reason).store.snapshots[|s.snapshots|].facts;
            if s.checkpoints == [] then
              f.checkpoint == None && f.files == [] && f.validation == NO_VALIDATION && f.evidence == []
            else
              var last := s.checkpoints[|s.checkpoints| - 1];
              && f.checkpoint == Some(|s.checkpoints| - 1) && f.files == last.report.files
              && f.validation == last.report.validation && f.evidence == last.evidence
  {
    hide Blank, Strip, PutPlans, PutDecisions, OverrideEvents, Withdrawals, Where, UpdateWhere, Retag;
    NewestFirst(s.plans);
  }

  /** The rows of the override itself. */
  lemma BeginWritesExactly(s: Store, expected: nat, goal: string, reason: string)
    requires BeginHardReplan(s, expected, goal, reason).Ok?
    ensures var t := BeginHardReplan(s, expected, goal, reason).store;
            && t.task == s.task.(revision := expected + 1, intentVersion := s.task.intentVersion + 1,
                                 goal := Some(Strip(goal)), phase := Paused, state := Some(OverrideRecorded))
            && |t.replans| == |s.replans| + 1
            && var r := t.replans[|s.replans|];
               && r.snapshot == |s.snapshots| && r.status == InterruptPending && IsNewestLive(s, r.previousPlan)
               && r.fromIntent == s.task.intentVersion && r.targetIntent == s.task.intentVersion + 1
               && r.newGoal == Strip(goal) && r.reason == Strip(reason)
               && r.newPlan == None && r.error == None && r.workflow == None
    ensures var t := BeginHardReplan(s, expected, goal, reason).store;
            && (s.runtime.None? ==> t.runtime.None?)
            && (s.runtime.Some? ==>
                  t.runtime == Some(s.runtime.value.(status := Some(PendingInterrupt),
                                                     nextAction := Some(NextInterrupt))))
            && t == s.(task := t.task, decisions := t.decisions, plans := t.plans, replans := t.replans,
                       snapshots := t.snapshots, runtime := t.runtime, index := t.index, events := t.events)
  {
    hide Blank, Strip, PutPlans, PutDecisions, OverrideEvents, Withdrawals, Where, UpdateWhere, ReplanTx.Capture;
    NewestFirst(s.plans);
  }

  /** What the override withdraws: every classification in force, every live plan, every replan that is not over. */
  lemma BeginWithdrawsExactly(s: Store, expected: nat, goal: string, reason: string)
    requires BeginHardReplan(s, expected, goal, reason).Ok?
    ensures var t := BeginHardReplan(s, expected, goal, reason).store;
            && |t.decisions| == |s.decisions|
            && forall i :: 0 <= i < |s.decisions| ==>
                 var d := s.decisions[i];
                 t.decisions[i] == if d.decisionType == SnapshotClassification && d.status == DecisionActive
                                   then d.(status := DecisionSuperseded, supersededBy := None) else d
    ensures var t := BeginHardReplan(s, expected, goal, reason).store;
            && |t.plans| == |s.plans|
            && forall i :: 0 <= i < |s.plans| ==>
                 t.plans[i] == if Live(s.plans[i]) then s.plans[i].(status := PlanSuperseded) else s.plans[i]
    ensures var t := BeginHardReplan(s, expected, goal, reason).store;
            && |t.replans| == |s.replans| + 1
            && forall i :: 0 <= i < |s.replans| ==>
                 t.replans[i] == if s.replans[i].status == Completed then s.replans[i]
                                 else s.replans[i].(status := ReplanSuperseded)
  {
    hide Blank, Strip, PutPlans, PutDecisions, OverrideEvents, Withdrawals, Where, WhereDesc, ReplanTx.Capture, Retag;
  }

  /** Nobody moved the revision while the remote interrupt was awaited. */
  predicate Calm(s: Store, during: seq<Step>) {
    Run(s, during).task.revision == s.task.revision
  }

  /**
   `begin`, in terms of the task as it was: a running turn that can be addressed is interrupted, and SNAPSHOT_READY then
   means exactly that the interrupt returned; without one the snapshot is ready at once.
   */
  lemma BeginServiceExactly(s: Store, expected: nat, goal: string, reason: string, during: seq<Step>,
                            reply: RemoteReply)
    requires ReplanInv(s) && BeginHardReplan(s, expected, goal, reason).Ok?
    ensures var b := BeginHardReplan(s, expected, goal, reason).store;
            var t := BeginService(s, expected, goal, reason, during, reply).0;
            && (Addressable(RunningTurn(s)) && Calm(b, during) ==>
                  |s.replans| < |t.replans|
                  && t.replans[|s.replans|].status == (if reply.Returned? then SnapshotReady else InterruptFailed))
            && (Addressable(RunningTurn(s)) && !Calm(b, during) ==> t == Run(b, during))
            && (!Addressable(RunningTurn(s)) ==>
                  |s.replans| < |t.replans| && t.replans[|s.replans|].status == SnapshotReady)
    ensures var b := BeginHardReplan(s, expected, goal, reason).store;
            var outcome := BeginService(s, expected, goal, reason, during, reply).1;
            outcome == if !Addressable(RunningTurn(s)) then Finalized(true)
                       else if !Calm(b, during) then FinalizeRejected(Stale)
                       else match reply
                            case Returned => Finalized(true)
                            case ControlError(_) => Finalized(false)
                            case Unexpected => Reraised
  {
    hide BeginHardReplan, Run, BeginService, Interruptible, Addressable, ReplanInv, FinalizeInterrupt;
    BeginFence(s, expected, goal, reason, during, reply);
    BeginCapturesExactly(s, expected, goal, reason);
    AddressableExactly(RunningTurn(s));
    ServiceRejects(s, expected, goal, reason, during, reply);
  }

  lemma ServiceRejects(s: Store, expected: nat, goal: string, reason: string, during: seq<Step>, reply: RemoteReply)
    requires ReplanInv(s) && BeginHardReplan(s, expected, goal, reason).Ok?
    ensures var b := BeginHardReplan(s, expected, goal, reason).store;
            var id := b.snapshots[|s.snapshots|].facts.identity;
            var (t, outcome) := BeginService(s, expected, goal, reason, during, reply);
            && (!Undisturbed(b, id, during) ==> outcome == FinalizeRejected(Stale) && t == Run(b, during))
            && (Undisturbed(b, id, during) ==> outcome == Answer(id, reply))
  {
    hide BeginHardReplan, Run, BeginService, Interruptible, ReplanInv, FinalizeInterrupt;
    BeginFence(s, expected, goal, reason, during, reply);
  }

  /** The replan keeps the error text of the interrupt, and none when it returned. */
  lemma ErrorRecorded(s: Store, replan: nat, id: RemoteIdentity, during: seq<Step>, reply: RemoteReply, text: string)
    requires AwaitsInterrupt(s, replan) && Addressable(id) && Calm(s, during)
    ensures var t := Interrupting(s, replan, id, during, reply, text).0;
            && replan < |t.replans|
            && t.replans[replan].error == match reply
                                          case Returned => None
                                          case ControlError(message) => Some(message)
                                          case Unexpected => Some(text)
  {
    hide Run, Attempt, Interruptible, Addressable;
    AddressableExactly(id);
    InterruptStaysPending(s, during, replan);
  }

  /** `begin` and `retry_interrupt` each name an unexpected failure in their own words. */
  lemma UnexpectedWording(s: Store, replan: nat, id: RemoteIdentity, during: seq<Step>)
    requires AwaitsInterrupt(s, replan) && Addressable(id) && Calm(s, during)
    ensures var t := Interrupting(s, replan, id, during, Unexpected, BeginFailure()).0;
            replan < |t.replans| && t.replans[replan].error == Some("unexpected remote interrupt failure")
    ensures var t := Interrupting(s, replan, id, during, Unexpected, RetryFailure()).0;
            replan < |t.replans| && t.replans[replan].error == Some("unexpected remote interrupt retry failure")
  {
    ErrorRecorded(s, replan, id, during, Unexpected, BeginFailure());
    ErrorRecorded(s, replan, id, during, Unexpected, RetryFailure());
    FailureWords();
    hide Interrupting, Calm, AwaitsInterrupt, Addressable, BeginFailure, RetryFailure;
  }

  lemma FailureWords()
    ensures BeginFailure() == "unexpected remote interrupt failure"
    ensures RetryFailure() == "unexpected remote interrupt retry failure"
  {
  }

  /** `retry_interrupt`, from the facts captured when the replan began. */
  lemma RetryServiceExactly(s: Store, expected: nat, replan: nat, during: seq<Step>, reply: RemoteReply)
    requires PrepareInterruptRetry(s, expected, replan).Ok?
    ensures var b := PrepareInterruptRetry(s, expected, replan).store;
            var turn := s.snapshots[s.replans[replan].snapshot].facts.identity;
            var (t, outcome) := RetryService(s, expected, replan, during, reply);
            && (Addressable(turn) && Calm(b, during) ==>
                  replan < |t.replans|
                  && t.replans[replan].status == (if reply.Returned? then SnapshotReady else InterruptFailed))
            && (Addressable(turn) && !Calm(b, during) ==> t == Run(b, during) && outcome == FinalizeRejected(Stale))
            && (!Addressable(turn) ==> replan < |t.replans| && t.replans[replan].status == SnapshotReady)
  {
    AddressableExactly(s.snapshots[s.replans[replan].snapshot].facts.identity);
    hide PrepareInterruptRetry, Run, RetryService, Interruptible, Addressable;
    RetryFence(s, expected, replan, during, reply);
  }

  /** `finalize_interrupt`. */
  lemma FinalizeExactly(s: Store, expected: nat, replan: nat, succeeded: bool, error: Option<string>)
    ensures FinalizeInterrupt(s, expected, replan, succeeded, error).Ok?
            <==> && s.task.revision == expected && replan < |s.replans|
                 && s.replans[replan].status == InterruptPending && s.replans[replan].snapshot < |s.snapshots|
    ensures FinalizeInterrupt(s, expected, replan, succeeded, error).Ok? ==>
              var t := FinalizeInterrupt(s, expected, replan, succeeded, error).store;
              && t.task == s.task.(revision := expected + 1, phase := if succeeded then Paused else Blocked,
                                   state := Some(if succeeded then InterruptConfirmed else InterruptUnconfirmed))
              && t.replans == s.replans[replan := s.replans[replan].(
                   status := if succeeded then SnapshotReady else InterruptFailed, error := error)]
              && (s.runtime.Some? ==> t.runtime == Some(s.runtime.value.(
                   status := Some(if succeeded then Interrupted else FailedInterrupt),
                   nextAction := Some(if succeeded then NextClassify else NextReconcile))))
              && (s.runtime.None? ==> t.runtime.None?)
              && t == s.(task := t.task, replans := t.replans, runtime := t.runtime, events := t.events)
  {
  }

  /** KEEP, MODIFY and DROP have no item in common. */
  ghost predicate NoOverlap(c: Classification) {
    forall x :: !(x in c.keep && x in c.amend) && !(x in c.keep && x in c.drop) && !(x in c.amend && x in c.drop)
  }

  lemma NoOverlapExactly(c: Classification)
    ensures Disjoint(c) <==> NoOverlap(c)
  {
  }

  /** The newest replan that owns the snapshot is SNAPSHOT_READY. */
  predicate ReadyOwner(s: Store, snapshot: nat, replan: nat) {
    && replan < |s.replans| && s.replans[replan].snapshot == snapshot && s.replans[replan].status == SnapshotReady
    && forall i :: replan < i < |s.replans| ==> s.replans[i].snapshot != snapshot
  }

  lemma {:induction false} OwnerIsNewest(replans: seq<Replan>, snapshot: nat)
    ensures var o := Owner(replans, snapshot);
            o.Some? ==> forall i :: o.value < i < |replans| ==> replans[i].snapshot != snapshot
  {
    if replans != [] {
      OwnerIsNewest(replans[..|replans| - 1], snapshot);
    }
  }

  /** `classify_work_snapshot`: each list goes where it belongs, in the snapshot and in the decision. */
  lemma ClassifyExactly(s: Store, expected: nat, snapshot: nat, c: Classification)
    ensures ClassifyWorkSnapshot(s, expected, snapshot, c).Ok?
            <==> && NoOverlap(c) && s.task.revision == expected && snapshot < |s.snapshots|
                 && exists r :: 0 <= r < |s.replans| && ReadyOwner(s, snapshot, r)
    ensures ClassifyWorkSnapshot(s, expected, snapshot, c).Ok? ==>
              var t := ClassifyWorkSnapshot(s, expected, snapshot, c).store;
              && |t.snapshots| == |s.snapshots| && t.snapshots[snapshot].classified
              && t.snapshots[snapshot].facts == s.snapshots[snapshot].facts
              && var k := t.snapshots[snapshot].sorted;
                 && k.keep == c.keep && k.amend == c.amend && k.drop == c.drop
                 && (k.notes.Some? <==> c.notes.Some? && Strip(c.notes.value) != "")
                 && (k.notes.Some? ==> k.notes == Some(Strip(c.notes.value)))
    ensures ClassifyWorkSnapshot(s, expected, snapshot, c).Ok? ==>
              var t := ClassifyWorkSnapshot(s, expected, snapshot, c).store;
              && t.task == s.task.(revision := expected + 2, phase := Replanning, state := Some(SnapshotSorted))
              && |t.replans| == |s.replans|
              && (forall r :: 0 <= r < |s.replans| ==>
                    t.replans[r] == if ReadyOwner(s, snapshot, r) then s.replans[r].(status := ReadyToPlan)
                                    else s.replans[r])
              && |t.decisions| == |s.decisions| + 1
              && var d := t.decisions[|s.decisions|];
                 && d.decisionType == SnapshotClassification && d.status == DecisionActive
                 && d.title == DispositionTitle && d.content == Disposition(c)
                 && d.intentVersion == s.task.intentVersion
  {
    hide Strip, Put, Disjoint, NoOverlap;
    NoOverlapExactly(c);
    OwnerIsNewest(s.replans, snapshot);
    var o := Owner(s.replans, snapshot);
    if o.Some? && s.replans[o.value].status == SnapshotReady {
      assert ReadyOwner(s, snapshot, o.value);
    }
  }

  /** `prepare_interrupt_retry`. */
  lemma RetryExactly(s: Store, expected: nat, replan: nat)
    ensures PrepareInterruptRetry(s, expected, replan).Ok?
            <==> && s.task.revision == expected && replan < |s.replans|
                 && s.replans[replan].status == InterruptFailed && s.replans[replan].snapshot < |s.snapshots|
    ensures PrepareInterruptRetry(s, expected, replan).Ok? ==>
              PrepareInterruptRetry(s, expected, replan).store
              == s.(task := s.task.(revision := expected + 1, phase := Paused, state := Some(RetryingInterrupt)),
                    replans := s.replans[replan := s.replans[replan].(status := InterruptPending, error := None)])
  {
  }

  /** The newest replan in one of the two statuses. */
  predicate IsNewestIn(s: Store, replan: nat, a: ReplanStatus, b: ReplanStatus) {
    && replan < |s.replans| && (s.replans[replan].status == a || s.replans[replan].status == b)
    && forall i :: replan < i < |s.replans| ==> s.replans[i].status != a && s.replans[i].status != b
  }

  /** Only that replan's row changes, and to this. */
  predicate OnlyRow(s: Store, t: Store, replan: nat, row: Replan) {
    replan < |s.replans| && t == s.(replans := s.replans[replan := row])
  }

  /** `bind_replan_workflow`: the newest replan that is ready takes the workflow to PLANNING. */
  lemma WorkflowBoundExactly(s: Store, workflow: string)
    ensures BindReplanWorkflow(s, workflow).Ok?
    ensures forall r :: 0 <= r < |s.replans| && IsNewestIn(s, r, ReadyToPlan, ReadyToPlan) ==>
              OnlyRow(s, BindReplanWorkflow(s, workflow).store, r,
                      s.replans[r].(status := ReplanPlanning, workflow := Some(workflow)))
    ensures (forall r :: 0 <= r < |s.replans| ==> s.replans[r].status != ReadyToPlan)
            ==> BindReplanWorkflow(s, workflow).store == s
  {
  }

  /** `bind_replan_plan_review`: the newest replan that waits for a plan takes it to PLAN_REVIEW. */
  lemma PlanReviewBoundExactly(s: Store, plan: nat)
    ensures BindReplanPlanReview(s, plan).Ok?
    ensures forall r :: 0 <= r < |s.replans| && IsNewestIn(s, r, ReadyToPlan, ReplanPlanning) ==>
              OnlyRow(s, BindReplanPlanReview(s, plan).store, r,
                      s.replans[r].(status := ReplanReview, newPlan := Some(plan)))
    ensures (forall r :: 0 <= r < |s.replans| ==>
               s.replans[r].status != ReadyToPlan && s.replans[r].status != ReplanPlanning)
            ==> BindReplanPlanReview(s, plan).store == s
  {
  }

  /** The newest replan under review of this very plan. */
  predicate IsReviewOf(s: Store, replan: nat, plan: nat) {
    && replan < |s.replans| && s.replans[replan].status == ReplanReview && s.replans[replan].newPlan == Some(plan)
    && forall i :: replan < i < |s.replans| ==>
         s.replans[i].status != ReplanReview || s.replans[i].newPlan != Some(plan)
  }

  lemma {:induction false} UnderReviewIsNewest(replans: seq<Replan>, plan: nat)
    ensures var o := UnderReview(replans, plan);
            && (o.Some? ==> forall i :: o.value < i < |replans| ==>
                              replans[i].status != ReplanReview || replans[i].newPlan != Some(plan))
            && (o.None? ==> forall i :: 0 <= i < |replans| ==>
                              replans[i].status != ReplanReview || replans[i].newPlan != Some(plan))
  {
    if replans != [] {
      UnderReviewIsNewest(replans[..|replans| - 1], plan);
    }
  }

  /** `complete_replan_on_execution`: the execution of a plan completes the replan that was reviewing it. */
  lemma CompletedExactly(s: Store, plan: nat)
    ensures CompleteReplanOnExecution(s, plan).Ok?
    ensures forall r :: 0 <= r < |s.replans| && IsReviewOf(s, r, plan) ==>
              OnlyRow(s, CompleteReplanOnExecution(s, plan).store, r, s.replans[r].(status := Completed))
    ensures (forall r :: 0 <= r < |s.replans| ==> !IsReviewOf(s, r, plan))
            ==> CompleteReplanOnExecution(s, plan).store == s
  {
    UnderReviewIsNewest(s.replans, plan);
    var o := UnderReview(s.replans, plan);
    if o.Some? {
      assert IsReviewOf(s, o.value, plan);
    }
  }
}
