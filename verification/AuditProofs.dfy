/** The event log as an audit trail: revisions never decrease along it, and none but a retry's is missing from it. */
module AuditProofs {
  import opened Prelude
  import opened Text
  import opened Model
  import opened ExecutionTx
  import opened WorkspaceTx
  import opened AgentTx
  import opened MemoryTx
  import opened CheckpointTx
  import opened ReplanTx
  import opened Steps
  import opened RevisionProofs

  /** A grant of automatic delegation is a user's event. */
  predicate GrantByUser(e: Event) {
    e.kind.PolicyChanged? && e.kind.toPolicy == SupervisorAllowed ==> e.actor == User
  }

  /** t's log extends s's, with events stamped between the two revisions in order, and grants only by the user. */
  ghost predicate Stamped(s: Store, t: Store) {
    && s.task.revision <= t.task.revision
    && s.events <= t.events
    && (forall i :: |s.events| <= i < |t.events| ==> s.task.revision <= t.events[i].revision <= t.task.revision)
    && (forall i, j :: |s.events| <= i < j < |t.events| ==> t.events[i].revision <= t.events[j].revision)
    && (forall i :: |s.events| <= i < |t.events| ==> GrantByUser(t.events[i]))
  }

  /** Some event beyond the first n carries the revision. */
  ghost predicate Mentions(t: Store, n: nat, revision: nat) {
    exists i :: n <= i < |t.events| && t.events[i].revision == revision
  }

  /** Every revision between s and t is in the log. */
  ghost predicate Covered(s: Store, t: Store) {
    forall r :: s.task.revision < r <= t.task.revision ==> Mentions(t, |s.events|, r)
  }

  predicate AboutReview(kind: EventKind) {
    kind.CheckpointCreated? || kind.CheckpointReviewed?
  }

  /** The log gained nothing about checkpoints. */
  ghost predicate Silent(s: Store, t: Store) {
    forall i :: |s.events| <= i < |t.events| ==> !AboutReview(t.events[i].kind)
  }

  predicate IsRetry(step: Step) {
    step.ReplanOp? && step.replan.RetryInterrupt?
  }

  lemma OneEvent(s: Store, t: Store)
    requires |t.events| == |s.events| + 1 && t.events[..|s.events|] == s.events
    requires t.events[|s.events|].revision == t.task.revision && GrantByUser(t.events[|s.events|])
    requires s.task.revision <= t.task.revision <= s.task.revision + 1
    ensures Stamped(s, t) && Covered(s, t)
  {
  }

  lemma LeaseStamps(s: Store, e: ExecutionStep)
    ensures var t := After(s, AttemptExecution(s, e)); Stamped(s, t) && Covered(s, t) && Silent(s, t)
  {
    var t := After(s, AttemptExecution(s, e));
    if t != s {
      OneEvent(s, t);
    }
  }

  lemma WorkspaceStamps(s: Store, w: WorkspaceStep)
    ensures var t := After(s, AttemptWorkspace(s, w)); Stamped(s, t) && Covered(s, t) && Silent(s, t)
  {
    var t := After(s, AttemptWorkspace(s, w));
    if t.events != s.events {
      OneEvent(s, t);
    }
  }

  lemma AgentStamps(s: Store, a: AgentStep)
    ensures var t := After(s, AttemptAgent(s, a)); Stamped(s, t) && Covered(s, t) && Silent(s, t)
  {
    var t := After(s, AttemptAgent(s, a));
    if t != s {
      OneEvent(s, t);
    }
  }

  lemma CheckpointStamps(s: Store, c: CheckpointStep)
    ensures var t := After(s, AttemptCheckpoint(s, c)); Stamped(s, t) && Covered(s, t)
  {
    var t := After(s, AttemptCheckpoint(s, c));
    if t != s {
      OneEvent(s, t);
    }
  }

  /** Several events of one transaction, all at the new revision. */
  lemma SameRevision(s: Store, t: Store, more: seq<Event>)
    requires t.events == s.events + more && more != []
    requires forall k :: 0 <= k < |more| ==> more[k].revision == t.task.revision && GrantByUser(more[k])
    requires t.task.revision == s.task.revision + 1
    requires forall k :: 0 <= k < |more| ==> !AboutReview(more[k].kind)
    ensures Stamped(s, t) && Covered(s, t) && Silent(s, t)
  {
    assert t.events[|s.events|] == more[0];
  }

  lemma ApproveStamps(s: Store, expected: nat, plan: nat, actor: Actor)
    requires ApproveTaskPlan(s, expected, plan, actor).Ok?
    ensures var t := ApproveTaskPlan(s, expected, plan, actor).store; Stamped(s, t) && Covered(s, t) && Silent(s, t)
  {
    var t := ApproveTaskPlan(s, expected, plan, actor).store;
    SameRevision(s, t, Replacements(t.task, actor, Where(s.plans, IsApproved), plan)
                       + [EventFor(t.task, actor, PlanApproved(plan))]);
  }

  lemma MemoryStamps(s: Store, m: MemoryStep)
    ensures var t := After(s, AttemptMemory(s, m)); Stamped(s, t) && Covered(s, t) && Silent(s, t)
  {
    hide ApproveTaskPlan;
    var t := After(s, AttemptMemory(s, m));
    if AttemptMemory(s, m).Ok? {
      if m.ApprovePlan? {
        ApproveStamps(s, m.expected, m.plan, m.actor);
      } else {
        OneEvent(s, t);
      }
    }
  }

  lemma BeginStamps(s: Store, expected: nat, goal: string, reason: string)
    requires BeginHardReplan(s, expected, goal, reason).Ok?
    ensures var t := BeginHardReplan(s, expected, goal, reason).store; Stamped(s, t) && Covered(s, t) && Silent(s, t)
  {
    hide OverrideEvents, Withdrawals;
    var t := BeginHardReplan(s, expected, goal, reason).store;
    var first := OverrideEvents(t.task, |s.replans|, t.task.goal.value, WhereDesc(s.plans, LivePlan));
    SameRevision(s, t, first + Withdrawals(t.task, Where(s.decisions, ActiveDisposition)));
  }

  lemma ClassifyStamps(s: Store, expected: nat, snapshot: nat, c: Classification)
    requires ClassifyWorkSnapshot(s, expected, snapshot, c).Ok?
    ensures var t := ClassifyWorkSnapshot(s, expected, snapshot, c).store;
            Stamped(s, t) && Covered(s, t) && Silent(s, t)
  {
    var t := ClassifyWorkSnapshot(s, expected, snapshot, c).store;
    assert t.events[|s.events|].revision == s.task.revision + 1;
    assert t.events[|s.events| + 1].revision == s.task.revision + 2;
  }

  lemma ReplanStamps(s: Store, r: ReplanStep)
    ensures var t := After(s, AttemptReplan(s, r));
            Stamped(s, t) && Silent(s, t) && (!r.RetryInterrupt? ==> Covered(s, t))
  {
    hide BeginHardReplan, ClassifyWorkSnapshot;
    var t := After(s, AttemptReplan(s, r));
    if AttemptReplan(s, r).Ok? {
      match r
      case Begin(expected, goal, reason) => BeginStamps(s, expected, goal, reason);
      case Finalize(_, _, _, _) => OneEvent(s, t);
      case Classify(expected, snapshot, sorted) => ClassifyStamps(s, expected, snapshot, sorted);
      case _ =>
    }
  }

  lemma StepStamps(s: Store, step: Step)
    ensures Stamped(s, Apply(s, step))
    ensures !IsRetry(step) ==> Covered(s, Apply(s, step))
    ensures !step.CheckpointOp? ==> Silent(s, Apply(s, step))
    ensures IsRetry(step) ==> Apply(s, step).events == s.events
                              && Apply(s, step).task.revision <= s.task.revision + 1
  {
    hide AttemptExecution, AttemptWorkspace, AttemptAgent, AttemptMemory, AttemptCheckpoint;
    match step
    case LeaseOp(e) => LeaseStamps(s, e);
    case WorkspaceOp(w) => WorkspaceStamps(s, w);
    case AgentOp(a) => AgentStamps(s, a);
    case MemoryOp(m) => MemoryStamps(s, m);
    case CheckpointOp(c) => CheckpointStamps(s, c);
    case ReplanOp(r) => ReplanStamps(s, r);
  }

  ghost predicate Chronological(s: Store) {
    && (forall i, j :: 0 <= i < j < |s.events| ==> s.events[i].revision <= s.events[j].revision)
    && (forall i :: 0 <= i < |s.events| ==> s.events[i].revision <= s.task.revision && GrantByUser(s.events[i]))
  }

  /** Event revisions never decrease, none is ahead of the task, and every grant is the user's. */
  lemma {:induction false} RunIsChronological(s: Store, steps: seq<Step>)
    requires Chronological(s)
    ensures Chronological(Run(s, steps)) && s.events <= Run(s, steps).events
  {
    hide Attempt;
    if steps != [] {
      var n := |steps| - 1;
      RunIsChronological(s, steps[..n]);
      StepStamps(Run(s, steps[..n]), steps[n]);
    }
  }

  /** The revision was made by an interrupt retry of the run. */
  ghost predicate MadeByRetry(s: Store, steps: seq<Step>, revision: nat) {
    exists k :: 0 <= k < |steps| && IsRetry(steps[k])
                && At(s, steps, k).task.revision < revision == At(s, steps, k + 1).task.revision
  }

  /** Every revision of a run has an event, except those made by `prepare_interrupt_retry`. */
  lemma {:induction false} EveryRevisionLogged(s: Store, steps: seq<Step>, revision: nat)
    requires s.task.revision < revision <= Run(s, steps).task.revision
    ensures Mentions(Run(s, steps), |s.events|, revision) || MadeByRetry(s, steps, revision)
  {
    hide Attempt, At;
    if steps != [] {
      var n := |steps| - 1;
      var t := Run(s, steps[..n]);
      var u := Run(s, steps);
      StepStamps(t, steps[n]);
      RunGrowsLog(s, steps[..n]);
      if t.task.revision < revision {
        if IsRetry(steps[n]) {
          Prefixes(s, steps, n);
          assert At(s, steps, n).task.revision < revision == At(s, steps, n + 1).task.revision;
        } else {
          assert Mentions(u, |t.events|, revision);
          var i :| |t.events| <= i < |u.events| && u.events[i].revision == revision;
        }
      } else {
        EveryRevisionLogged(s, steps[..n], revision);
        if Mentions(t, |s.events|, revision) {
          var i :| |s.events| <= i < |t.events| && t.events[i].revision == revision;
          assert u.events[i] == t.events[i];
        } else {
          var k :| 0 <= k < n && IsRetry(steps[..n][k])
                   && At(s, steps[..n], k).task.revision < revision == At(s, steps[..n], k + 1).task.revision;
          SamePrefix(s, steps, n, k);
          SamePrefix(s, steps, n, k + 1);
          assert IsRetry(steps[k]);
        }
      }
    }
  }

  lemma {:induction false} RunGrowsLog(s: Store, steps: seq<Step>)
    ensures s.events <= Run(s, steps).events
  {
    hide Attempt;
    if steps != [] {
      var n := |steps| - 1;
      RunGrowsLog(s, steps[..n]);
      StepStamps(Run(s, steps[..n]), steps[n]);
    }
  }

  lemma Prefixes(s: Store, steps: seq<Step>, n: nat)
    requires |steps| == n + 1
    ensures At(s, steps, n) == Run(s, steps[..n]) && At(s, steps, n + 1) == Run(s, steps)
  {
    hide Run;
    assert steps[..n + 1] == steps;
  }

  lemma SamePrefix(s: Store, steps: seq<Step>, n: nat, k: nat)
    requires k <= n <= |steps|
    ensures At(s, steps[..n], k) == At(s, steps, k)
  {
    hide Run;
    assert steps[..n][..k] == steps[..k];
  }

  /** The transactions that change rows without an event; a completion is one of them when it is not stable. */
  predicate Unlogged(s: Store, step: Step) {
    match step
    case WorkspaceOp(w) =>
      || w.Observe? || w.Annotate? || w.MarkUnknown?
      || (w.Complete? && w.operation < |s.operations| && !Stable(s, s.operations[w.operation], w.epoch))
    case ReplanOp(r) => r.BindWorkflow? || r.BindPlanReview? || r.CompleteOnExecution? || r.RetryInterrupt?
    case _ => false
  }

  lemma LeaseLogged(s: Store, e: ExecutionStep)
    ensures var t := After(s, AttemptExecution(s, e)); t == s || |t.events| > |s.events|
  {
    hide Blank, Strip, TransitionSafe, WriterRefusal, Terminal;
  }

  lemma WorkspaceLogged(s: Store, w: WorkspaceStep)
    ensures var t := After(s, AttemptWorkspace(s, w)); t == s || (t.events == s.events <==> Unlogged(s, WorkspaceOp(w)))
  {
    hide Blank, Strip, HasPrepared, SafetyClear, Stable;
  }

  lemma AgentLogged(s: Store, a: AgentStep)
    ensures var t := After(s, AttemptAgent(s, a)); t == s || |t.events| > |s.events|
  {
    hide Merge;
  }

  lemma MemoryLogged(s: Store, m: MemoryStep)
    ensures var t := After(s, AttemptMemory(s, m)); t == s || |t.events| > |s.events|
  {
    hide Put, PutPlans, UpdateWhere, Where;
  }

  lemma CheckpointLogged(s: Store, c: CheckpointStep)
    ensures var t := After(s, AttemptCheckpoint(s, c)); t == s || |t.events| > |s.events|
  {
    hide Strip, Recorded, MaxSequence, Pending, Reviewed, Instruction;
  }

  lemma ReplanLogged(s: Store, r: ReplanStep)
    ensures var t := After(s, AttemptReplan(s, r)); t == s || (t.events == s.events <==> Unlogged(s, ReplanOp(r)))
    ensures var t := After(s, AttemptReplan(s, r));
            Unlogged(s, ReplanOp(r)) && !r.RetryInterrupt? ==> t.task == s.task
  {
    hide Put, PutPlans, PutDecisions, UpdateWhere, Where, WhereDesc, Blank, Strip, OverrideEvents, Withdrawals,
         Disjoint;
    if r.Begin? && AttemptReplan(s, r).Ok? {
      BeginLogged(s, r.expected, r.goal, r.reason);
    }
  }

  lemma BeginLogged(s: Store, expected: nat, goal: string, reason: string)
    requires BeginHardReplan(s, expected, goal, reason).Ok?
    ensures |BeginHardReplan(s, expected, goal, reason).store.events| > |s.events|
  {
    hide PutPlans, PutDecisions, UpdateWhere, Where, WhereDesc, Blank, Strip, Withdrawals;
  }

  /** A transaction that changed something left the log alone exactly when it is one of those. */
  lemma UnloggedExactly(s: Store, step: Step)
    requires Apply(s, step) != s
    ensures Apply(s, step).events == s.events <==> Unlogged(s, step)
  {
    hide AttemptExecution, AttemptWorkspace, AttemptAgent, AttemptMemory, AttemptCheckpoint, AttemptReplan, Unlogged;
    match step
    case LeaseOp(e) => LeaseLogged(s, e); OthersAreLogged(s, step);
    case WorkspaceOp(w) => WorkspaceLogged(s, w);
    case AgentOp(a) => AgentLogged(s, a); OthersAreLogged(s, step);
    case MemoryOp(m) => MemoryLogged(s, m); OthersAreLogged(s, step);
    case CheckpointOp(c) => CheckpointLogged(s, c); OthersAreLogged(s, step);
    case ReplanOp(r) => ReplanLogged(s, r);
  }

  lemma OthersAreLogged(s: Store, step: Step)
    requires !step.WorkspaceOp? && !step.ReplanOp?
    ensures !Unlogged(s, step)
  {
  }

  /** The retry is the only one of them that also moves the revision. */
  lemma UnloggedRevisionExactly(s: Store, step: Step)
    ensures Apply(s, step).events == s.events && Apply(s, step).task.revision != s.task.revision
            <==> IsRetry(step) && Attempt(s, step).Ok?
  {
    hide AttemptExecution, AttemptWorkspace, AttemptAgent, AttemptMemory, AttemptCheckpoint;
    StepStamps(s, step);
    if !IsRetry(step) && Apply(s, step).task.revision > s.task.revision {
      CoveredGrows(s, Apply(s, step));
    }
    hide AttemptReplan;
    if IsRetry(step) {
      RetryMovesRevision(s, step.replan.expected, step.replan.replan);
    }
  }

  lemma CoveredGrows(s: Store, t: Store)
    requires Covered(s, t) && s.task.revision < t.task.revision
    ensures |t.events| > |s.events|
  {
    assert Mentions(t, |s.events|, t.task.revision);
  }

  lemma RetryMovesRevision(s: Store, expected: nat, replan: nat)
    ensures var o := AttemptReplan(s, RetryInterrupt(expected, replan));
            o.Ok? ==> o.store.task.revision == s.task.revision + 1 && o.store.events == s.events
  {
  }
}
