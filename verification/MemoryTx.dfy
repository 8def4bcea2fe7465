/** memory/store.py: intent, phase, decisions, constraints, plans and the observational records. */
module MemoryTx {
  import opened Prelude
  import opened Model

  datatype MemoryStep =
    | RecordOverride(expected: nat, instruction: string)
    | UpdateGoal(expected: nat, goal: string, actor: Actor)
    | SetPhase(expected: nat, phase: TaskPhase, actor: Actor, state: Option<StateNote>)
    | AddDecision(expected: nat, title: string, content: string, decisionType: DecisionType, actor: Actor)
    | SupersedeDecision(expected: nat, decision: nat, supersededBy: Option<nat>, actor: Actor)
    | AddConstraint(expected: nat, content: string, scope: string, severity: Severity, actor: Actor)
    | SupersedeConstraint(expected: nat, constr: nat, supersededBy: Option<nat>, actor: Actor)
    | CreatePlan(expected: nat, content: string, actor: Actor)
    | ApprovePlan(expected: nat, plan: nat, actor: Actor)
    | RejectPlan(expected: nat, plan: nat, reason: string, actor: Actor)
    | AddSummary(kind: string, fromRevision: nat, toRevision: nat, content: string)
    | AddEvidence(kind: string, source: string, summary: string, revision: Option<nat>)
    | SaveContext(mode: string, content: string, tokens: nat)

  function RecordUserOverride(s: Store, expected: nat, instruction: string): Outcome {
    if s.task.revision != expected then Err(Stale)
    else Ok(Log(s.(task := Bump(s.task)), User, UserOverride(instruction)))
  }

  function UpdateIntent(s: Store, expected: nat, goal: string, actor: Actor): Outcome {
    if s.task.revision != expected then Err(Stale)
    else
      var t := Bump(s.task).(intentVersion := s.task.intentVersion + 1, goal := Some(goal));
      Ok(Log(s.(task := t,
                index := Put(s.index, DocumentKey(TaskDocument, 0),
                             Document(TextTitle(t.title), Text(goal), OfTask(t.status)))),
             actor, IntentUpdated(goal)))
  }

  function SetTaskPhase(s: Store, expected: nat, phase: TaskPhase, actor: Actor, state: Option<StateNote>): Outcome {
    if s.task.revision != expected then Err(Stale)
    else
      Ok(Log(s.(task := Bump(s.task).(phase := phase, state := Choose(state, s.task.state))),
             actor, PhaseChanged(s.task.phase, phase)))
  }

  /** The shared tail of `add_decision` and of the classification decision: row, event and document. */
  function InsertDecision(s: Store, decisionType: DecisionType, title: Title, content: Content, actor: Actor): Store {
    var d := Decision(decisionType, DecisionActive, title, content, |s.events|, s.task.intentVersion, None);
    Log(s.(decisions := s.decisions + [d],
           index := Put(s.index, DocumentKey(DecisionDocument, |s.decisions|), DecisionDoc(d))),
        actor, DecisionAdded(|s.decisions|))
  }

  function AddTaskDecision(s: Store, expected: nat, title: string, content: string, decisionType: DecisionType,
                           actor: Actor): Outcome {
    if s.task.revision != expected then Err(Stale)
    else Ok(InsertDecision(s.(task := Bump(s.task)), decisionType, TextTitle(title), Text(content), actor))
  }

  function SupersedeTaskDecision(s: Store, expected: nat, decision: nat, replacement: Option<nat>,
                                 actor: Actor): Outcome {
    if decision >= |s.decisions| then Err(Conflict)
    else if s.decisions[decision].status != DecisionActive then Err(InvalidTransition)
    else if s.task.revision != expected then Err(Stale)
    else
      var d := s.decisions[decision].(status := DecisionSuperseded, supersededBy := replacement);
      Ok(Log(s.(task := Bump(s.task), decisions := s.decisions[decision := d],
                index := Put(s.index, DocumentKey(DecisionDocument, decision), DecisionDoc(d))),
             actor, DecisionWithdrawn(decision)))
  }

  function AddTaskConstraint(s: Store, expected: nat, content: string, scope: string, severity: Severity,
                             actor: Actor): Outcome {
    if s.task.revision != expected then Err(Stale)
    else
      var t := Bump(s.task);
      var c := Constraint(scope, severity, ConstraintActive, content, |s.events|, t.revision, None);
      Ok(Log(s.(task := t, constraints := s.constraints + [c],
                index := Put(s.index, DocumentKey(ConstraintDocument, |s.constraints|), ConstraintDoc(c))),
             actor, ConstraintAdded(|s.constraints|)))
  }

  function SupersedeTaskConstraint(s: Store, expected: nat, constr: nat, replacement: Option<nat>,
                                   actor: Actor): Outcome {
    if constr >= |s.constraints| then Err(Conflict)
    else if s.constraints[constr].status != ConstraintActive then Err(InvalidTransition)
    else if s.task.revision != expected then Err(Stale)
    else
      var c := s.constraints[constr].(status := ConstraintSuperseded, supersededBy := replacement);
      Ok(Log(s.(task := Bump(s.task), constraints := s.constraints[constr := c],
                index := Put(s.index, DocumentKey(ConstraintDocument, constr), ConstraintDoc(c))),
             actor, ConstraintWithdrawn(constr)))
  }

  function CreateTaskPlan(s: Store, expected: nat, content: string, actor: Actor): Outcome {
    if s.task.revision != expected then Err(Stale)
    else
      var t := Bump(s.task).(planVersion := s.task.planVersion + 1, phase := PlanReview);
      var plan := Plan(t.planVersion, Draft, content, |s.events|);
      Ok(Log(s.(task := t, plans := s.plans + [plan],
                index := Put(s.index, DocumentKey(PlanDocument, |s.plans|), PlanDoc(plan))),
             actor, PlanCreated(|s.plans|)))
  }

  function Superseded(plan: Plan): Plan {
    plan.(status := PlanSuperseded)
  }

  /** One PLAN_SUPERSEDED event per replaced plan, in order. */
  function Replacements(t: Task, actor: Actor, replaced: seq<nat>, replacement: nat): (events: seq<Event>)
    ensures |events| == |replaced|
    ensures forall k :: 0 <= k < |events| ==> events[k].revision == t.revision && events[k].kind.PlanReplaced?
  {
    if replaced == [] then []
    else
      var n := |replaced| - 1;
      Replacements(t, actor, replaced[..n], replacement)
      + [EventFor(t, actor, PlanReplaced(replaced[n], replacement))]
  }

  /** Re-index the listed plans, in order. */
  function PutPlans(index: Index, plans: seq<Plan>, ids: seq<nat>): Index
    requires forall k :: 0 <= k < |ids| ==> ids[k] < |plans|
  {
    if ids == [] then index
    else
      var n := |ids| - 1;
      Put(PutPlans(index, plans, ids[..n]), DocumentKey(PlanDocument, ids[n]), PlanDoc(plans[ids[n]]))
  }

  function ApproveTaskPlan(s: Store, expected: nat, plan: nat, actor: Actor): Outcome {
    if plan >= |s.plans| then Err(Conflict)
    else if s.plans[plan].status != Draft then Err(InvalidTransition)
    else if s.task.revision != expected then Err(Stale)
    else
      var t := Bump(s.task).(phase := Implementing);
      var replaced := Where(s.plans, IsApproved);
      var retired := UpdateWhere(s.plans, IsApproved, Superseded);
      var approved := s.plans[plan].(status := Approved);
      var index := PutPlans(s.index, retired, replaced);
      Ok(s.(task := t, plans := retired[plan := approved],
            events := s.events + (Replacements(t, actor, replaced, plan) + [EventFor(t, actor, PlanApproved(plan))]),
            index := Put(index, DocumentKey(PlanDocument, plan), PlanDoc(approved))))
  }

  function RejectTaskPlan(s: Store, expected: nat, plan: nat, reason: string, actor: Actor): Outcome {
    if plan >= |s.plans| then Err(Conflict)
    else if s.plans[plan].status != Draft then Err(InvalidTransition)
    else if s.task.revision != expected then Err(Stale)
    else
      var p := s.plans[plan].(status := Rejected);
      Ok(Log(s.(task := Bump(s.task).(phase := Planning), plans := s.plans[plan := p],
                index := Put(s.index, DocumentKey(PlanDocument, plan), PlanDoc(p))),
             actor, PlanRejected(plan, reason)))
  }

  function AddTaskSummary(s: Store, kind: string, fromRevision: nat, toRevision: nat, content: string): Outcome {
    if toRevision < fromRevision then Err(BadValue)
    else if toRevision > s.task.revision then Err(BadValue)
    else
      Ok(Log(s.(summaries := s.summaries + [Summary(kind, fromRevision, toRevision, content)],
                index := Put(s.index, DocumentKey(SummaryDocument, |s.summaries|),
                             Document(TextTitle(kind), Text(content), NoStatus))),
             System, SummaryCreated(|s.summaries|)))
  }

  function AddTaskEvidence(s: Store, kind: string, source: string, summary: string, revision: Option<nat>): Outcome {
    var at := if revision.Some? then revision.value else s.task.revision;
    if at > s.task.revision then Err(BadValue)
    else
      Ok(Log(s.(evidence := s.evidence + [Evidence(kind, source, summary, at)],
                index := Put(s.index, DocumentKey(EvidenceDocument, |s.evidence|),
                             Document(TextTitle(kind), Text(summary), NoStatus))),
             System, EvidenceAdded(|s.evidence|)))
  }

  function SaveContextSnapshot(s: Store, mode: string, content: string, tokens: nat): Outcome {
    var saved := ContextSnapshot(s.task.revision, s.task.intentVersion, s.task.planVersion, mode, content, tokens);
    Ok(Log(s.(contexts := s.contexts + [saved]), System, ContextSnapshotCreated(|s.contexts|)))
  }

  function AttemptMemory(s: Store, step: MemoryStep): Outcome {
    match step
    case RecordOverride(expected, instruction) => RecordUserOverride(s, expected, instruction)
    case UpdateGoal(expected, goal, actor) => UpdateIntent(s, expected, goal, actor)
    case SetPhase(expected, phase, actor, state) => SetTaskPhase(s, expected, phase, actor, state)
    case AddDecision(expected, title, content, decisionType, actor) =>
      AddTaskDecision(s, expected, title, content, decisionType, actor)
    case SupersedeDecision(expected, decision, supersededBy, actor) =>
      SupersedeTaskDecision(s, expected, decision, supersededBy, actor)
    case AddConstraint(expected, content, scope, severity, actor) =>
      AddTaskConstraint(s, expected, content, scope, severity, actor)
    case SupersedeConstraint(expected, constr, supersededBy, actor) =>
      SupersedeTaskConstraint(s, expected, constr, supersededBy, actor)
    case CreatePlan(expected, content, actor) => CreateTaskPlan(s, expected, content, actor)
    case ApprovePlan(expected, plan, actor) => ApproveTaskPlan(s, expected, plan, actor)
    case RejectPlan(expected, plan, reason, actor) => RejectTaskPlan(s, expected, plan, reason, actor)
    case AddSummary(kind, fromRevision, toRevision, content) =>
      AddTaskSummary(s, kind, fromRevision, toRevision, content)
    case AddEvidence(kind, source, summary, revision) => AddTaskEvidence(s, kind, source, summary, revision)
    case SaveContext(mode, content, tokens) => SaveContextSnapshot(s, mode, content, tokens)
  }
}
