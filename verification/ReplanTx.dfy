/** memory/replans.py and memory/replan_bindings.py: the hard-replan lifecycle. */
module ReplanTx {
  import opened Prelude
  import opened Text
  import opened Model
  import opened MemoryTx

  datatype ReplanStep =
    | Begin(expected: nat, goal: string, reason: string)
    | Finalize(expected: nat, replan: nat, succeeded: bool, error: Option<string>)
    | Classify(expected: nat, snapshot: nat, sorted: Classification)
    | RetryInterrupt(expected: nat, replan: nat)
    | BindWorkflow(workflow: string)
    | BindPlanReview(plan: nat)
    | CompleteOnExecution(plan: nat)

  predicate ActiveReplan(r: Replan) {
    r.status !in {Completed, ReplanSuperseded}
  }

  function SupersedeReplan(r: Replan): Replan {
    r.(status := ReplanSuperseded)
  }

  predicate LivePlan(plan: Plan) {
    plan.status == Approved || plan.status == Draft
  }

  predicate ActiveDisposition(d: Decision) {
    d.decisionType == SnapshotClassification && d.status == DecisionActive
  }

  function WithdrawDecision(d: Decision): Decision {
    d.(status := DecisionSuperseded, supersededBy := None)
  }

  /** Re-index the listed decisions, in order. */
  function PutDecisions(index: Index, decisions: seq<Decision>, ids: seq<nat>): Index
    requires forall k :: 0 <= k < |ids| ==> ids[k] < |decisions|
  {
    if ids == [] then index
    else
      var n := |ids| - 1;
      Put(PutDecisions(index, decisions, ids[..n]), DocumentKey(DecisionDocument, ids[n]),
          DecisionDoc(decisions[ids[n]]))
  }

  /** One DECISION_SUPERSEDED event per withdrawn disposition, in order. */
  function Withdrawals(t: Task, ids: seq<nat>): (events: seq<Event>)
    ensures |events| == |ids|
    ensures forall k :: 0 <= k < |events| ==> events[k].revision == t.revision && events[k].kind.DecisionWithdrawn?
  {
    if ids == [] then []
    else
      var n := |ids| - 1;
      Withdrawals(t, ids[..n]) + [EventFor(t, Supervisor, DecisionWithdrawn(ids[n]))]
  }

  /** USER_OVERRIDE, INTENT_UPDATED, and PLAN_SUPERSEDED when a live plan was withdrawn. */
  function OverrideEvents(t: Task, replan: nat, goal: string, live: seq<nat>): (events: seq<Event>)
    ensures |events| >= 2
    ensures forall k :: 0 <= k < |events| ==>
              && events[k].revision == t.revision
              && (events[k].kind.HardReplanRequested? || events[k].kind.IntentUpdated?
                  || events[k].kind.PlansWithdrawn?)
  {
    [EventFor(t, User, HardReplanRequested(replan)), EventFor(t, User, IntentUpdated(goal))]
    + (if live == [] then [] else [EventFor(t, Supervisor, PlansWithdrawn(live, replan))])
  }

  function Capture(s: Store, planId: Option<nat>): CapturedFacts {
    var t := s.task;
    var last := |s.checkpoints| - 1;
    CapturedFacts(
      t.revision, t.intentVersion, t.planVersion, t.goal, t.phase, planId, t.kandev, t.gitBranch, t.gitHead,
      if last >= 0 then Some(last) else None,
      if s.runtime.Some? then s.runtime.value.identity else RemoteIdentity(None, None, t.thread, t.turn),
      if s.runtime.Some? then s.runtime.value.status else None,
      if last >= 0 then s.checkpoints[last].report.files else [],
      if last >= 0 then s.checkpoints[last].report.validation else NO_VALIDATION,
      if last >= 0 then s.checkpoints[last].evidence else [])
  }

  /** UPDATE codex_runtime_state: nothing happens when there is no row. */
  function Retag(r: Option<Runtime>, status: Label, nextAction: Label): Option<Runtime> {
    if r.Some? then Some(r.value.(status := Some(status), nextAction := Some(nextAction))) else None
  }

  function BeginHardReplan(s: Store, expected: nat, goal: string, reason: string): Outcome {
    if Blank(goal) || Blank(reason) then Err(BadValue)
    else if s.task.revision != expected then Err(Stale)
    else
      var dispositions := Where(s.decisions, ActiveDisposition);
      var decisions := UpdateWhere(s.decisions, ActiveDisposition, WithdrawDecision);
      var live := WhereDesc(s.plans, LivePlan);
      var plans := UpdateWhere(s.plans, LivePlan, Superseded);
      var planId := if live == [] then None else Some(live[0]);
      var t := Bump(s.task).(intentVersion := s.task.intentVersion + 1, goal := Some(Strip(goal)), phase := Paused,
                             state := Some(OverrideRecorded));
      var replan := Replan(|s.snapshots|, InterruptPending, s.task.intentVersion, t.intentVersion, planId, None,
                           Strip(goal), Strip(reason), None, None);
      Ok(s.(task := t, decisions := decisions, plans := plans,
            replans := UpdateWhere(s.replans, ActiveReplan, SupersedeReplan) + [replan],
            snapshots := s.snapshots + [Snapshot(Capture(s, planId), Classification([], [], [], None), false)],
            runtime := Retag(s.runtime, PendingInterrupt, NextInterrupt),
            index := PutPlans(PutDecisions(s.index, decisions, dispositions), plans, live),
            events := s.events + (OverrideEvents(t, |s.replans|, Strip(goal), live) + Withdrawals(t, dispositions))))
  }

  function FinalizeInterrupt(s: Store, expected: nat, replan: nat, succeeded: bool, error: Option<string>): Outcome {
    if s.task.revision != expected then Err(Stale)
    else if replan >= |s.replans| then Err(Conflict)
    else if s.replans[replan].status != InterruptPending then Err(Conflict)
    else if s.replans[replan].snapshot >= |s.snapshots| then Err(MissingRow)
    else
      var r := s.replans[replan].(status := if succeeded then SnapshotReady else InterruptFailed, error := error);
      var t := Bump(s.task).(
        phase := if succeeded then Paused else Blocked,
        state := Some(if succeeded then InterruptConfirmed else InterruptUnconfirmed));
      Ok(Log(s.(task := t, replans := s.replans[replan := r],
                runtime := if succeeded then Retag(s.runtime, Interrupted, NextClassify)
                           else Retag(s.runtime, FailedInterrupt, NextReconcile)),
             if succeeded then Codex else System, InterruptFinalized(replan, succeeded)))
  }

  predicate Disjoint(c: Classification) {
    && (forall x | x in c.keep :: x !in c.amend && x !in c.drop)
    && (forall x | x in c.amend :: x !in c.drop)
  }

  /** The newest replan that owns the snapshot. */
  function Owner(replans: seq<Replan>, snapshot: nat): (id: Option<nat>)
    ensures id.Some? ==> id.value < |replans| && replans[id.value].snapshot == snapshot
    ensures id.None? ==> forall i :: 0 <= i < |replans| ==> replans[i].snapshot != snapshot
  {
    if replans == [] then None
    else
      var n := |replans| - 1;
      if replans[n].snapshot == snapshot then Some(n) else Owner(replans[..n], snapshot)
  }

  function ClassifyWorkSnapshot(s: Store, expected: nat, snapshot: nat, c: Classification): Outcome {
    if !Disjoint(c) then Err(BadValue)
    else if s.task.revision != expected then Err(Stale)
    else
      var owner := Owner(s.replans, snapshot);
      if owner.None? then Err(Conflict)
      else if s.replans[owner.value].status != SnapshotReady then Err(Conflict)
      else if snapshot >= |s.snapshots| then Err(MissingRow)
      else
        var notes := if c.notes.Some? && !Blank(c.notes.value) then Some(Strip(c.notes.value)) else None;
        var sorted := s.snapshots[snapshot].(sorted := c.(notes := notes), classified := true);
        var t := Bump(s.task).(phase := Replanning,
                               state := Some(SnapshotSorted));
        var classified := Log(s.(task := t, snapshots := s.snapshots[snapshot := sorted],
                                 replans := s.replans[owner.value := s.replans[owner.value].(status := ReadyToPlan)]),
                              Supervisor, SnapshotClassified(owner.value));
        Ok(InsertDecision(classified.(task := Bump(t)), SnapshotClassification, DispositionTitle, Disposition(c),
                          Supervisor))
  }

  function PrepareInterruptRetry(s: Store, expected: nat, replan: nat): Outcome {
    if s.task.revision != expected then Err(Stale)
    else if replan >= |s.replans| then Err(Conflict)
    else if s.replans[replan].status != InterruptFailed then Err(Conflict)
    else if s.replans[replan].snapshot >= |s.snapshots| then Err(Conflict)
    else
      Ok(s.(task := Bump(s.task).(phase := Paused, state := Some(RetryingInterrupt)),
            replans := s.replans[replan := s.replans[replan].(status := InterruptPending, error := None)]))
  }

  predicate IsReadyToPlan(r: Replan) {
    r.status == ReadyToPlan
  }

  predicate AwaitsReview(r: Replan) {
    r.status == ReadyToPlan || r.status == ReplanPlanning
  }

  function BindReplanWorkflow(s: Store, workflow: string): Outcome {
    var id := Newest(s.replans, IsReadyToPlan);
    if id.None? then Ok(s)
    else
      Ok(s.(replans := s.replans[id.value := s.replans[id.value].(status := ReplanPlanning,
                                                                  workflow := Some(workflow))]))
  }

  function BindReplanPlanReview(s: Store, plan: nat): Outcome {
    var id := Newest(s.replans, AwaitsReview);
    if id.None? then Ok(s)
    else
      Ok(s.(replans := s.replans[id.value := s.replans[id.value].(status := ReplanReview, newPlan := Some(plan))]))
  }

  /** The newest replan in PLAN_REVIEW that was bound to this plan. */
  function UnderReview(replans: seq<Replan>, plan: nat): (id: Option<nat>)
    ensures id.Some? ==> id.value < |replans| && replans[id.value].status == ReplanReview
    ensures id.Some? ==> replans[id.value].newPlan == Some(plan)
  {
    if replans == [] then None
    else
      var n := |replans| - 1;
      if replans[n].status == ReplanReview && replans[n].newPlan == Some(plan) then Some(n)
      else UnderReview(replans[..n], plan)
  }

  function CompleteReplanOnExecution(s: Store, plan: nat): Outcome {
    var id := UnderReview(s.replans, plan);
    if id.None? then Ok(s)
    else Ok(s.(replans := s.replans[id.value := s.replans[id.value].(status := Completed)]))
  }

  function AttemptReplan(s: Store, step: ReplanStep): Outcome {
    match step
    case Begin(expected, goal, reason) => BeginHardReplan(s, expected, goal, reason)
    case Finalize(expected, replan, succeeded, error) => FinalizeInterrupt(s, expected, replan, succeeded, error)
    case Classify(expected, snapshot, sorted) => ClassifyWorkSnapshot(s, expected, snapshot, sorted)
    case RetryInterrupt(expected, replan) => PrepareInterruptRetry(s, expected, replan)
    case BindWorkflow(workflow) => BindReplanWorkflow(s, workflow)
    case BindPlanReview(plan) => BindReplanPlanReview(s, plan)
    case CompleteOnExecution(plan) => CompleteReplanOnExecution(s, plan)
  }
}
