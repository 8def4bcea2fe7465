/** Which error each transaction raises: ValueError, StaleRevisionError, InvalidTransitionError or ConflictError. */
module RefusalRules {
  import opened Prelude
  import opened Text
  import opened Model
  import opened ExecutionTx
  import opened WorkspaceTx
  import opened AgentTx
  import opened MemoryTx
  import opened CheckpointTx
  import opened ReplanTx
  import opened LeaseRules
  import opened WorkspaceRules
  import opened ReplanRules

  /** A bad value is an error of the arguments; on good arguments any other revision is stale; the rest conflicts. */
  predicate RaisesInOrder(o: Outcome, wrong: bool, current: bool) {
    && (o == Err(BadValue) <==> wrong)
    && (o == Err(Stale) <==> !wrong && !current)
    && (o.Err? ==> o.error == BadValue || o.error == Stale || o.error == Conflict)
  }

  /** The lease: a handoff is checked for sense before the revision is read, an acquisition by NONE after the rest. */
  lemma LeaseRefusals(s: Store, e: ExecutionStep)
    ensures e.SetMode? || e.Release? ==> RaisesInOrder(AttemptExecution(s, e), false, s.task.revision == e.expected)
    ensures e.SetPolicy? ==>
              var o := AttemptExecution(s, e);
              && (o == Err(Conflict) <==> e.policy == SupervisorAllowed && e.actor != User)
              && (o.Err? && o != Err(Conflict) <==> o == Err(Stale))
    ensures e.Acquire? ==>
              var o := AttemptExecution(s, e);
              && (o == Err(Stale) <==> s.task.revision != e.expected)
              && (o == Err(BadValue)
                  <==> && s.task.revision == e.expected && Alive(s.task.phase) && AtRest(s)
                       && s.exec.writer == NoWriter && e.writer == NoWriter)
              && (o.Err? ==> o.error == BadValue || o.error == Stale || o.error == Conflict)
    ensures e.HandOver? ==>
              var q := e.request;
              RaisesInOrder(AttemptExecution(s, e),
                     q.from == NoWriter || q.to == NoWriter || q.from == q.to || Strip(q.reason) == "",
                     s.task.revision == e.expected)
  {
    hide Strip;
  }

  /** The workspace: an operation that is not in flight conflicts; only a mark without a binding misses a row. */
  lemma WorkspaceRefusals(s: Store, w: WorkspaceStep)
    ensures w.Bind? ==>
              var i := w.identity;
              RaisesInOrder(AttemptWorkspace(s, w),
                     i.mode == OtherMode || Strip(i.backend) == "" || Strip(i.workspaceId) == ""
                     || Strip(i.repository) == "",
                     s.task.revision == w.expected)
    ensures w.Prepare? ==> RaisesInOrder(AttemptWorkspace(s, w), Strip(w.operationType) == "" || Strip(w.digest) == "",
                                  s.task.revision == w.expected)
    ensures w.Observe? || w.Annotate? || w.Complete? ==> RaisesInOrder(AttemptWorkspace(s, w), false, true)
    ensures w.MarkUnknown? ==>
              var o := AttemptWorkspace(s, w);
              && (o == Err(MissingRow)
                  <==> w.operation < |s.operations| && s.operations[w.operation].status == Prepared
                       && s.workspace.None?)
              && (o.Err? ==> o.error == MissingRow || o.error == Conflict)
  {
    hide Strip;
  }

  /** Safety, runtime and board. */
  lemma AgentRefusals(s: Store, a: AgentStep)
    ensures a.Latch? || a.RecordRequired? || a.RecordSucceeded? ==> AttemptAgent(s, a).Ok?
    ensures a.Reconcile? ==> RaisesInOrder(AttemptAgent(s, a), false, s.task.revision == a.expected)
    ensures a.BindRuntime? ==>
              RaisesInOrder(AttemptAgent(s, a), a.binding.event == Unsupported, s.task.revision == a.expected)
    ensures a.BindKandev? ==> RaisesInOrder(AttemptAgent(s, a), a.kandevTask == "", s.task.revision == a.expected)
  {
    hide Merge;
  }

  /** An unknown row conflicts, a row in the wrong status is an invalid transition, and then comes the revision. */
  predicate Lifecycle(o: Outcome, known: bool, fit: bool, current: bool) {
    && (o == Err(Conflict) <==> !known)
    && (o == Err(InvalidTransition) <==> known && !fit)
    && (o == Err(Stale) <==> known && fit && !current)
    && (o.Ok? <==> known && fit && current)
  }

  lemma LifecycleRefusals(s: Store, expected: nat, id: nat, next: Option<nat>, reason: string, actor: Actor)
    ensures var current := s.task.revision == expected;
            var decision := id < |s.decisions|;
            var constr := id < |s.constraints|;
            var plan := id < |s.plans|;
            && Lifecycle(AttemptMemory(s, SupersedeDecision(expected, id, next, actor)), decision,
                         decision && s.decisions[id].status == DecisionActive, current)
            && Lifecycle(AttemptMemory(s, SupersedeConstraint(expected, id, next, actor)), constr,
                         constr && s.constraints[id].status == ConstraintActive, current)
            && Lifecycle(AttemptMemory(s, ApprovePlan(expected, id, actor)), plan,
                         plan && s.plans[id].status == Draft, current)
            && Lifecycle(AttemptMemory(s, RejectPlan(expected, id, reason, actor)), plan,
                         plan && s.plans[id].status == Draft, current)
  {
    hide Put, PutPlans, Replacements, Where, UpdateWhere;
  }

  /** The other memory transactions: only the revision can refuse them, or a revision that is not there yet. */
  lemma MemoryRefusals(s: Store, m: MemoryStep)
    ensures m.RecordOverride? || m.UpdateGoal? || m.SetPhase? || m.AddDecision? || m.AddConstraint? || m.CreatePlan?
            ==> && (AttemptMemory(s, m).Ok? <==> s.task.revision == m.expected)
                && (AttemptMemory(s, m).Err? ==> AttemptMemory(s, m) == Err(Stale))
    ensures m.AddSummary? ==> RaisesInOrder(AttemptMemory(s, m), m.toRevision < m.fromRevision
                                                                 || m.toRevision > s.task.revision, true)
    ensures m.AddEvidence? ==> RaisesInOrder(AttemptMemory(s, m),
                                             m.revision.Some? && m.revision.value > s.task.revision, true)
    ensures m.SaveContext? ==> AttemptMemory(s, m).Ok?
  {
    hide Put;
  }

  /** A steer without an instruction is a bad value; reviewing anything but the newest pending checkpoint conflicts. */
  lemma CheckpointRefusals(s: Store, c: CheckpointStep)
    ensures c.Capture? ==> RaisesInOrder(AttemptCheckpoint(s, c), false, s.task.revision == c.expected)
    ensures c.ReviewCheckpoint? ==>
              RaisesInOrder(AttemptCheckpoint(s, c),
                     c.verdict == Steer && (c.instruction.None? || Strip(c.instruction.value) == ""),
                     s.task.revision == c.expected)
  {
    hide Strip, Pending, Reviewed, MaxSequence;
  }

  /** Blank texts and overlapping lists are bad values; a replan in the wrong status conflicts. */
  lemma ReplanRefusals(s: Store, r: ReplanStep)
    ensures r.Begin? ==> RaisesInOrder(AttemptReplan(s, r), Strip(r.goal) == "" || Strip(r.reason) == "",
                                s.task.revision == r.expected)
    ensures r.RetryInterrupt? ==> RaisesInOrder(AttemptReplan(s, r), false, s.task.revision == r.expected)
    ensures r.Classify? ==>
              var o := AttemptReplan(s, r);
              && (o == Err(BadValue) <==> !NoOverlap(r.sorted))
              && (o == Err(Stale) <==> NoOverlap(r.sorted) && s.task.revision != r.expected)
              && (o == Err(Conflict)
                  <==> && NoOverlap(r.sorted) && s.task.revision == r.expected
                       && forall i :: 0 <= i < |s.replans| ==> !ReadyOwner(s, r.snapshot, i))
              && (o.Err? ==> o.error != InvalidTransition)
    ensures r.Finalize? ==>
              var o := AttemptReplan(s, r);
              && (o == Err(Stale) <==> s.task.revision != r.expected)
              && (o == Err(Conflict)
                  <==> s.task.revision == r.expected
                       && (r.replan >= |s.replans| || s.replans[r.replan].status != InterruptPending))
              && (o.Err? ==> o.error == Stale || o.error == Conflict || o.error == MissingRow)
    ensures r.BindWorkflow? || r.BindPlanReview? || r.CompleteOnExecution? ==> AttemptReplan(s, r).Ok?
  {
    hide Strip, PutPlans, PutDecisions, OverrideEvents, Withdrawals, Where, WhereDesc, UpdateWhere, ReplanTx.Capture,
         Retag, Disjoint, NoOverlap, Owner, Put, Newest, UnderReview;
    if r.Classify? {
      NoOverlapExactly(r.sorted);
      OwnerIsNewest(s.replans, r.snapshot);
      var o := Owner(s.replans, r.snapshot);
      if o.Some? && s.replans[o.value].status == SnapshotReady {
        assert ReadyOwner(s, r.snapshot, o.value);
      }
    }
  }
}
