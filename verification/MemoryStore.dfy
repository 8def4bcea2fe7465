/**
 memory/store.py: the store object. It holds the database; each transaction runs its statements on it one after the
 other, and is proved against the specification function of the same transaction.
 */
module MemoryStores {
  import opened Prelude
  import opened Model
  import MemoryTx

  class MemoryStore {
    /** The tables behind the connection. */
    var db: Store

    /** The call did what the specified outcome says: committed that store, or raised and rolled back. */
    twostate predicate Did(o: Outcome, r: Reply)
      reads this
    {
      db == After(old(db), o) && r == ReplyOf(o)
    }

    /** `create_task`. */
    constructor (id: string, title: string, repository: Option<string>, goal: Option<string>, fts: bool)
      ensures db == NewStore(id, title, repository, goal, fts)
    {
      var task := Task(id, title, repository, "active", Created, 0, 1, 0, goal, None, None, None, None, None, None);
      db := Store(task, Execution(Hybrid, NoWriter, ManualOnly, 0, None), [], None, [], None, None,
                  [], [], [], [], [], [], [], [], [], [], [], Index(fts, map[], []));
      new;
      InsertEvent(User, TaskCreated);
      if Truthy(goal) {
        InsertEvent(User, IntentCreated(goal.value));
      }
      UpsertDocument(DocumentKey(TaskDocument, 0),
                     Document(TextTitle(title), Text(if Truthy(goal) then goal.value else title), OfTask(task.status)));
    }

    /** `_insert_event`. */
    method InsertEvent(actor: Actor, kind: EventKind)
      modifies this
      ensures db == Log(old(db), actor, kind)
    {
      var event := Event(db.task.revision, db.task.intentVersion, db.task.planVersion, actor, kind);
      db := db.(events := db.events + [event]);
    }

    /** `_upsert_document`: insert or overwrite the document, then replace its full-text row. */
    method UpsertDocument(key: DocumentKey, doc: Document)
      modifies this
      ensures db == old(db).(index := Put(old(db).index, key, doc))
    {
      db := db.(index := db.index.(documents := db.index.documents[key := doc]));
      if db.index.ftsEnabled {
        db := db.(index := db.index.(fts := WithoutKey(db.index.fts, key)));
        db := db.(index := db.index.(fts := db.index.fts + [FtsRow(key, doc.title, doc.content)]));
      }
    }

    method RecordOverride(expected: nat, instruction: string) returns (r: Reply)
      modifies this
      ensures Did(MemoryTx.RecordUserOverride(old(db), expected, instruction), r)
    {
      if db.task.revision != expected { return Refused(Stale); }
      db := db.(task := Bump(db.task));
      InsertEvent(User, UserOverride(instruction));
      return Done;
    }

    method UpdateIntent(expected: nat, goal: string, actor: Actor) returns (r: Reply)
      modifies this
      ensures Did(MemoryTx.UpdateIntent(old(db), expected, goal, actor), r)
    {
      if db.task.revision != expected { return Refused(Stale); }
      db := db.(task := Bump(db.task).(intentVersion := db.task.intentVersion + 1, goal := Some(goal)));
      InsertEvent(actor, IntentUpdated(goal));
      UpsertDocument(DocumentKey(TaskDocument, 0),
                     Document(TextTitle(db.task.title), Text(goal), OfTask(db.task.status)));
      return Done;
    }

    method SetPhase(expected: nat, phase: TaskPhase, actor: Actor, state: Option<StateNote>) returns (r: Reply)
      modifies this
      ensures Did(MemoryTx.SetTaskPhase(old(db), expected, phase, actor, state), r)
    {
      var before := db.task;
      if db.task.revision != expected { return Refused(Stale); }
      var values := before.(phase := phase);
      if state.Some? {
        values := values.(state := state);
      }
      db := db.(task := Bump(values));
      InsertEvent(actor, PhaseChanged(before.phase, phase));
      return Done;
    }

    /** The row, event and document of a new decision. */
    method InsertDecision(decisionType: DecisionType, title: Title, content: Content, actor: Actor)
      modifies this
      ensures db == MemoryTx.InsertDecision(old(db), decisionType, title, content, actor)
    {
      var id := |db.decisions|;
      var d := Decision(decisionType, DecisionActive, title, content, |db.events|, db.task.intentVersion, None);
      db := db.(decisions := db.decisions + [d]);
      InsertEvent(actor, DecisionAdded(id));
      UpsertDocument(DocumentKey(DecisionDocument, id), DecisionDoc(d));
    }

    method AddDecision(expected: nat, title: string, content: string, decisionType: DecisionType, actor: Actor)
      returns (r: Reply)
      modifies this
      ensures Did(MemoryTx.AddTaskDecision(old(db), expected, title, content, decisionType, actor), r)
    {
      if db.task.revision != expected { return Refused(Stale); }
      db := db.(task := Bump(db.task));
      InsertDecision(decisionType, TextTitle(title), Text(content), actor);
      return Done;
    }

    method SupersedeDecision(expected: nat, decision: nat, supersededBy: Option<nat>, actor: Actor) returns (r: Reply)
      modifies this
      ensures Did(MemoryTx.SupersedeTaskDecision(old(db), expected, decision, supersededBy, actor), r)
    {
      if decision >= |db.decisions| { return Refused(Conflict); }
      if db.decisions[decision].status != DecisionActive { return Refused(InvalidTransition); }
      if db.task.revision != expected { return Refused(Stale); }
      db := db.(task := Bump(db.task));
      var d := db.decisions[decision].(status := DecisionSuperseded, supersededBy := supersededBy);
      db := db.(decisions := db.decisions[decision := d]);
      InsertEvent(actor, DecisionWithdrawn(decision));
      UpsertDocument(DocumentKey(DecisionDocument, decision), DecisionDoc(d));
      return Done;
    }

    method AddConstraint(expected: nat, content: string, scope: string, severity: Severity, actor: Actor)
      returns (r: Reply)
      modifies this
      ensures Did(MemoryTx.AddTaskConstraint(old(db), expected, content, scope, severity, actor), r)
    {
      if db.task.revision != expected { return Refused(Stale); }
      db := db.(task := Bump(db.task));
      var id := |db.constraints|;
      var c := Constraint(scope, severity, ConstraintActive, content, |db.events|, db.task.revision, None);
      db := db.(constraints := db.constraints + [c]);
      InsertEvent(actor, ConstraintAdded(id));
      UpsertDocument(DocumentKey(ConstraintDocument, id), ConstraintDoc(c));
      return Done;
    }

    method SupersedeConstraint(expected: nat, constr: nat, supersededBy: Option<nat>, actor: Actor) returns (r: Reply)
      modifies this
      ensures Did(MemoryTx.SupersedeTaskConstraint(old(db), expected, constr, supersededBy, actor), r)
    {
      if constr >= |db.constraints| { return Refused(Conflict); }
      if db.constraints[constr].status != ConstraintActive { return Refused(InvalidTransition); }
      if db.task.revision != expected { return Refused(Stale); }
      db := db.(task := Bump(db.task));
      var c := db.constraints[constr].(status := ConstraintSuperseded, supersededBy := supersededBy);
      db := db.(constraints := db.constraints[constr := c]);
      InsertEvent(actor, ConstraintWithdrawn(constr));
      UpsertDocument(DocumentKey(ConstraintDocument, constr), ConstraintDoc(c));
      return Done;
    }

    method CreatePlan(expected: nat, content: string, actor: Actor) returns (r: Reply)
      modifies this
      ensures Did(MemoryTx.CreateTaskPlan(old(db), expected, content, actor), r)
    {
      if db.task.revision != expected { return Refused(Stale); }
      db := db.(task := Bump(db.task).(planVersion := db.task.planVersion + 1, phase := PlanReview));
      var id, plan := |db.plans|, Plan(db.task.planVersion, Draft, content, |db.events|);
      db := db.(plans := db.plans + [plan]);
      InsertEvent(actor, PlanCreated(id));
      UpsertDocument(DocumentKey(PlanDocument, id), PlanDoc(plan));
      return Done;
    }

    /** The loop of an approval: one event and one document for every plan it replaces. */
    method AnnounceReplaced(replaced: seq<nat>, plan: nat, actor: Actor)
      requires forall k :: 0 <= k < |replaced| ==> replaced[k] < |db.plans|
      modifies this
      ensures db == old(db).(events := old(db).events + MemoryTx.Replacements(old(db).task, actor, replaced, plan),
                             index := MemoryTx.PutPlans(old(db).index, old(db).plans, replaced))
    {
      hide Put;
      ghost var found := db;
      assert found.events + [] == found.events;
      for k := 0 to |replaced|
        invariant db == found.(events := found.events + MemoryTx.Replacements(found.task, actor, replaced[..k], plan),
                               index := MemoryTx.PutPlans(found.index, found.plans, replaced[..k]))
      {
        assert replaced[..k + 1][..k] == replaced[..k];
        InsertEvent(actor, PlanReplaced(replaced[k], plan));
        UpsertDocument(DocumentKey(PlanDocument, replaced[k]), PlanDoc(db.plans[replaced[k]]));
      }
      assert replaced[..|replaced|] == replaced;
    }

    /** Approval retires every plan approved before and then promotes the draft. */
    method ApprovePlan(expected: nat, plan: nat, actor: Actor) returns (r: Reply)
      modifies this
      ensures Did(MemoryTx.ApproveTaskPlan(old(db), expected, plan, actor), r)
    {
      hide Put, MemoryTx.Replacements, MemoryTx.PutPlans;
      if plan >= |db.plans| { return Refused(Conflict); }
      if db.plans[plan].status != Draft { return Refused(InvalidTransition); }
      if db.task.revision != expected { return Refused(Stale); }
      db := db.(task := Bump(db.task).(phase := Implementing));
      var replaced := Where(db.plans, IsApproved);
      db := db.(plans := UpdateWhere(db.plans, IsApproved, MemoryTx.Superseded));
      AnnounceReplaced(replaced, plan, actor);
      var approved := db.plans[plan].(status := Approved);
      db := db.(plans := db.plans[plan := approved]);
      InsertEvent(actor, PlanApproved(plan));
      UpsertDocument(DocumentKey(PlanDocument, plan), PlanDoc(approved));
      return Done;
    }

    method RejectPlan(expected: nat, plan: nat, reason: string, actor: Actor) returns (r: Reply)
      modifies this
      ensures Did(MemoryTx.RejectTaskPlan(old(db), expected, plan, reason, actor), r)
    {
      if plan >= |db.plans| { return Refused(Conflict); }
      if db.plans[plan].status != Draft { return Refused(InvalidTransition); }
      if db.task.revision != expected { return Refused(Stale); }
      db := db.(task := Bump(db.task).(phase := Planning));
      var rejected := db.plans[plan].(status := Rejected);
      db := db.(plans := db.plans[plan := rejected]);
      InsertEvent(actor, PlanRejected(plan, reason));
      UpsertDocument(DocumentKey(PlanDocument, plan), PlanDoc(rejected));
      return Done;
    }

    method AddSummary(kind: string, fromRevision: nat, toRevision: nat, content: string) returns (r: Reply)
      modifies this
      ensures Did(MemoryTx.AddTaskSummary(old(db), kind, fromRevision, toRevision, content), r)
    {
      if toRevision < fromRevision || toRevision > db.task.revision { return Refused(BadValue); }
      var id := |db.summaries|;
      db := db.(summaries := db.summaries + [Summary(kind, fromRevision, toRevision, content)]);
      InsertEvent(System, SummaryCreated(id));
      UpsertDocument(DocumentKey(SummaryDocument, id), Document(TextTitle(kind), Text(content), NoStatus));
      return Done;
    }

    method AddEvidence(kind: string, source: string, summary: string, revision: Option<nat>) returns (r: Reply)
      modifies this
      ensures Did(MemoryTx.AddTaskEvidence(old(db), kind, source, summary, revision), r)
    {
      var at := if revision.None? then db.task.revision else revision.value;
      if at > db.task.revision { return Refused(BadValue); }
      var id := |db.evidence|;
      db := db.(evidence := db.evidence + [Evidence(kind, source, summary, at)]);
      InsertEvent(System, EvidenceAdded(id));
      UpsertDocument(DocumentKey(EvidenceDocument, id), Document(TextTitle(kind), Text(summary), NoStatus));
      return Done;
    }

    method SaveContext(mode: string, content: string, tokens: nat) returns (r: Reply)
      modifies this
      ensures Did(MemoryTx.SaveContextSnapshot(old(db), mode, content, tokens), r)
    {
      var id, t := |db.contexts|, db.task;
      var saved := ContextSnapshot(t.revision, t.intentVersion, t.planVersion, mode, content, tokens);
      db := db.(contexts := db.contexts + [saved]);
      InsertEvent(System, ContextSnapshotCreated(id));
      return Done;
    }
  }
}
