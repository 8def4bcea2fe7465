/** What the remaining transactions put into the rows they add or change. */
module MemoryRules {
  import opened Prelude
  import opened Text
  import opened Model
  import opened MemoryTx
  import opened AgentTx
  import opened CheckpointTx

  /** `_record`: one row, the kind that was asked for, at whatever revision there is. */
  lemma RecordedSafety(s: Store, operation: GuardedOperation, summary: SafetySummary, id: RemoteIdentity,
                       reconcile: bool)
    ensures var l := LatchCompensation(s, operation, summary, id);
            l.Ok? && l.store.safety == Some(AgentSafety(CompensationRequired, operation, summary, id))
    ensures var r := RecordCompensationRequired(s, operation, summary, id, reconcile);
            r.Ok? && r.store.safety == Some(AgentSafety(if reconcile then SafetyReconciliation
                                                        else CompensationRequired,
                                                        operation, summary, id))
    ensures var d := RecordCompensationSucceeded(s, operation, summary, id);
            d.Ok? && d.store.safety == Some(AgentSafety(Clear, operation, summary, id))
  {
  }

  /** `reconcile_agent_safety`: state and summary change, operation and identity stay on record. */
  lemma ReconciledSafety(s: Store, expected: nat, note: string)
    ensures ReconcileSafety(s, expected, note).Ok? <==> s.task.revision == expected && s.safety.Some?
    ensures ReconcileSafety(s, expected, note).Ok? ==>
              var t := ReconcileSafety(s, expected, note).store;
              && t.safety == Some(AgentSafety(Clear, s.safety.value.operation, FreeText(note), s.safety.value.identity))
              && t.task == s.task.(revision := expected + 1, state := Some(Note(note)))
  {
  }

  /** `bind_kandev_task`: bound once, and again only to the same. */
  lemma KandevExactly(s: Store, expected: nat, id: string)
    ensures BindKandevTask(s, expected, id).Ok?
            <==> && id != "" && s.task.revision == expected
                 && (s.task.kandev == None || s.task.kandev == Some("") || s.task.kandev == Some(id))
    ensures BindKandevTask(s, expected, id).Ok? ==>
              var t := BindKandevTask(s, expected, id).store;
              t.task.kandev == Some(id) && (s.task.kandev == Some(id) ==> t == s)
  {
  }

  /** The goal and the phase. */
  lemma IntentAndPhase(s: Store, goal: string, phase: TaskPhase, state: Option<StateNote>, actor: Actor)
    ensures var t := UpdateIntent(s, s.task.revision, goal, actor).store.task;
            t == s.task.(revision := s.task.revision + 1, intentVersion := s.task.intentVersion + 1, goal := Some(goal))
    ensures var t := SetTaskPhase(s, s.task.revision, phase, actor, state).store.task;
            t == s.task.(revision := s.task.revision + 1, phase := phase,
                         state := if state.Some? then state else s.task.state)
  {
    hide Put;
  }

  /** A new decision, constraint and plan carry what was said, when it was said, and the event that says so. */
  lemma NewRows(s: Store, actor: Actor, title: string, text: string, kind: DecisionType, severity: Severity)
    ensures var t := AddTaskDecision(s, s.task.revision, title, text, kind, actor).store;
            && |t.decisions| == |s.decisions| + 1
            && t.decisions[|s.decisions|]
               == Decision(kind, DecisionActive, TextTitle(title), Text(text), |s.events|, s.task.intentVersion, None)
            && t.events[|s.events|].kind == DecisionAdded(|s.decisions|) && t.events[|s.events|].actor == actor
    ensures var t := AddTaskConstraint(s, s.task.revision, text, title, severity, actor).store;
            && |t.constraints| == |s.constraints| + 1
            && t.constraints[|s.constraints|]
               == Constraint(title, severity, ConstraintActive, text, |s.events|, s.task.revision + 1, None)
            && t.events[|s.events|].kind == ConstraintAdded(|s.constraints|) && t.events[|s.events|].actor == actor
    ensures var t := CreateTaskPlan(s, s.task.revision, text, actor).store;
            && |t.plans| == |s.plans| + 1
            && t.plans[|s.plans|] == Plan(s.task.planVersion + 1, Draft, text, |s.events|)
            && t.task.phase == PlanReview && t.events[|s.events|].kind == PlanCreated(|s.plans|)
  {
    hide Put;
  }

  /** Superseding a decision or a constraint keeps everything of it but status and successor. */
  lemma SupersededRows(s: Store, expected: nat, id: nat, next: Option<nat>, actor: Actor)
    ensures SupersedeTaskDecision(s, expected, id, next, actor).Ok?
            <==> id < |s.decisions| && s.decisions[id].status == DecisionActive && s.task.revision == expected
    ensures SupersedeTaskDecision(s, expected, id, next, actor).Ok? ==>
              SupersedeTaskDecision(s, expected, id, next, actor).store.decisions
              == s.decisions[id := s.decisions[id].(status := DecisionSuperseded, supersededBy := next)]
    ensures SupersedeTaskConstraint(s, expected, id, next, actor).Ok?
            <==> id < |s.constraints| && s.constraints[id].status == ConstraintActive && s.task.revision == expected
    ensures SupersedeTaskConstraint(s, expected, id, next, actor).Ok? ==>
              SupersedeTaskConstraint(s, expected, id, next, actor).store.constraints
              == s.constraints[id := s.constraints[id].(status := ConstraintSuperseded, supersededBy := next)]
  {
    hide Put;
  }

  /** Approval and rejection: which rows change status, and in which phase they leave the task. */
  lemma DecidedPlans(s: Store, expected: nat, plan: nat, reason: string, actor: Actor)
    ensures ApproveTaskPlan(s, expected, plan, actor).Ok? ==>
              var t := ApproveTaskPlan(s, expected, plan, actor).store;
              && t.task.phase == Implementing && |t.plans| == |s.plans|
              && forall i :: 0 <= i < |s.plans| ==>
                   t.plans[i] == if i == plan then s.plans[i].(status := Approved)
                                 else if s.plans[i].status == Approved then s.plans[i].(status := PlanSuperseded)
                                 else s.plans[i]
    ensures RejectTaskPlan(s, expected, plan, reason, actor).Ok?
            <==> plan < |s.plans| && s.plans[plan].status == Draft && s.task.revision == expected
    ensures RejectTaskPlan(s, expected, plan, reason, actor).Ok? ==>
              var t := RejectTaskPlan(s, expected, plan, reason, actor).store;
              && t.task.phase == Planning && t.plans == s.plans[plan := s.plans[plan].(status := Rejected)]
  {
    hide Put, PutPlans, Replacements, Where;
  }

  /** Observational records never move the revision, and none may speak of a revision that is not there yet. */
  lemma Observations(s: Store, kind: string, source: string, text: string, from: nat, to: nat, at: Option<nat>, n: nat)
    ensures AddTaskSummary(s, kind, from, to, text).Ok? <==> from <= to <= s.task.revision
    ensures AddTaskSummary(s, kind, from, to, text).Ok? ==>
              var t := AddTaskSummary(s, kind, from, to, text).store;
              t.summaries == s.summaries + [Summary(kind, from, to, text)] && t.task == s.task
    ensures AddTaskEvidence(s, kind, source, text, at).Ok? <==> at.None? || at.value <= s.task.revision
    ensures AddTaskEvidence(s, kind, source, text, at).Ok? ==>
              var t := AddTaskEvidence(s, kind, source, text, at).store;
              && t.task == s.task
              && t.evidence
                 == s.evidence + [Evidence(kind, source, text, if at.Some? then at.value else s.task.revision)]
    ensures var t := SaveContextSnapshot(s, kind, text, n).store;
            && t.task == s.task
            && t.contexts
               == s.contexts + [ContextSnapshot(s.task.revision, s.task.intentVersion, s.task.planVersion, kind,
                                                text, n)]
  {
    hide Put;
  }

  /** `create_checkpoint`: a new fingerprint becomes the next row, and only a reviewable one moves the task. */
  lemma CheckpointExactly(s: Store, expected: nat, o: Observed)
    ensures CreateCheckpoint(s, expected, o).Ok? <==> s.task.revision == expected
    ensures CreateCheckpoint(s, expected, o).Ok? ==>
              var t := CreateCheckpoint(s, expected, o).store;
              if exists i :: 0 <= i < |s.checkpoints| && s.checkpoints[i].fingerprint == o.fingerprint then t == s
              else
                && |t.checkpoints| == |s.checkpoints| + 1
                && var c := t.checkpoints[|s.checkpoints|];
                   && c.checkpointType == o.checkpointType && c.fingerprint == o.fingerprint && c.report == o.report
                   && c.identity == o.identity && c.remoteStatus == o.remoteStatus && c.nextAction == o.nextAction
                   && c.evidence == o.evidence && c.rawEvents == o.rawEvents && c.trigger == Strip(o.trigger)
                   && c.requiresReview == (o.checkpointType == Gate || o.checkpointType == Progress)
                   && c.revision == t.task.revision && c.intentVersion == s.task.intentVersion
                   && c.planVersion == s.task.planVersion
                   && t.task == if c.requiresReview
                                then s.task.(revision := expected + 1, phase := SupervisorReview) else s.task
  {
    hide Strip, MaxSequence;
  }

  /** A new checkpoint's sequence is one more than the largest there is. */
  lemma SequenceExactly(s: Store, expected: nat, o: Observed)
    requires CreateCheckpoint(s, expected, o).Ok? && CreateCheckpoint(s, expected, o).store != s
    ensures var t := CreateCheckpoint(s, expected, o).store;
            var n := |s.checkpoints|;
            && |t.checkpoints| == n + 1
            && (forall i :: 0 <= i < n ==> s.checkpoints[i].sequence < t.checkpoints[n].sequence)
            && (t.checkpoints[n].sequence == 1
                || exists i :: 0 <= i < n && t.checkpoints[n].sequence == s.checkpoints[i].sequence + 1)
  {
    hide Strip, Recorded, MaxSequence;
  }

  /** The checkpoint awaits review, and no newer one does. */
  predicate NewestPending(s: Store, id: nat) {
    && id < |s.checkpoints| && s.checkpoints[id].requiresReview && Awaits(s, id)
    && forall j :: id < j < |s.checkpoints| ==> !(s.checkpoints[j].requiresReview && Awaits(s, j))
  }

  predicate Awaits(s: Store, id: nat) {
    forall k :: 0 <= k < |s.reviews| ==> s.reviews[k].checkpoint != id
  }

  lemma {:induction false} PendingEndsNewest(checkpoints: seq<Checkpoint>, reviews: seq<Review>)
    ensures var p := Pending(checkpoints, reviews);
            p != [] ==> forall j :: p[|p| - 1] < j < |checkpoints| ==>
                          !(checkpoints[j].requiresReview && !Reviewed(reviews, j))
    ensures forall k :: 0 <= k < |Pending(checkpoints, reviews)| ==> Pending(checkpoints, reviews)[k] < |checkpoints|
  {
    if checkpoints != [] {
      PendingEndsNewest(checkpoints[..|checkpoints| - 1], reviews);
    }
  }

  lemma ReviewedExactly(s: Store, id: nat)
    ensures Reviewed(s.reviews, id) <==> !Awaits(s, id)
  {
  }

  /** The phase each verdict sends the task to. */
  predicate SentTo(verdict: ReviewDecision, phase: TaskPhase) {
    match phase
    case Implementing => verdict == Continue || verdict == Steer
    case SupervisorReview => verdict == Interrupt || verdict == ReplanWork
    case FinalReview => verdict == Accept
    case _ => false
  }

  /** `review_checkpoint`: only the newest pending checkpoint, and a steer must say something. */
  lemma ReviewExactly(s: Store, expected: nat, id: nat, verdict: ReviewDecision, instruction: Option<string>)
    ensures ReviewTaskCheckpoint(s, expected, id, verdict, instruction).Ok?
            <==> && s.task.revision == expected && NewestPending(s, id)
                 && (verdict == Steer ==> instruction.Some? && Strip(instruction.value) != "")
    ensures ReviewTaskCheckpoint(s, expected, id, verdict, instruction).Ok? ==>
              var t := ReviewTaskCheckpoint(s, expected, id, verdict, instruction).store;
              && SentTo(verdict, t.task.phase)
              && t.task == s.task.(revision := expected + 1, phase := t.task.phase)
              && |t.reviews| == |s.reviews| + 1
              && var r := t.reviews[|s.reviews|];
                 && r.checkpoint == id && r.decision == verdict && r.revision == expected + 1
                 && (r.instruction.Some? <==> instruction.Some? && Strip(instruction.value) != "")
                 && (r.instruction.Some? ==> r.instruction == Some(Strip(instruction.value)))
  {
    hide Strip, Pending, Reviewed, Awaits;
    PendingEndsNewest(s.checkpoints, s.reviews);
    ReviewedExactly(s, id);
    forall j | 0 <= j < |s.checkpoints| ensures Reviewed(s.reviews, j) <==> !Awaits(s, j) { ReviewedExactly(s, j); }
    var p := Pending(s.checkpoints, s.reviews);
    if NewestPending(s, id) {
      assert id in p && p[|p| - 1] in p;
    }
  }
}
