/** The search index follows the tables: one current document per row, and full-text rows that match the documents. */
module IndexProofs {
  import opened Prelude
  import opened Text
  import opened Model
  import opened ExecutionTx
  import opened WorkspaceTx
  import opened AgentTx
  import opened MemoryTx
  import opened CheckpointTx
  import opened ReplanTx
  import opened Steps

  /** SELECT * FROM memory_fts for one key. */
  function RowsFor(rows: seq<FtsRow>, key: DocumentKey): seq<FtsRow> {
    if rows == [] then []
    else
      var before := RowsFor(rows[..|rows| - 1], key);
      if rows[|rows| - 1].key == key then before + [rows[|rows| - 1]] else before
  }

  /** The full-text rows of a key are exactly its document's title and content. */
  predicate KeyAgrees(index: Index, key: DocumentKey) {
    RowsFor(index.fts, key)
    == if key in index.documents
       then [FtsRow(key, index.documents[key].title, index.documents[key].content)]
       else []
  }

  ghost predicate FtsAgrees(index: Index) {
    index.ftsEnabled ==> forall key :: KeyAgrees(index, key)
  }

  ghost predicate DocumentsAgree(s: Store) {
    && (forall i :: 0 <= i < |s.plans| ==>
          var k := DocumentKey(PlanDocument, i); k in s.index.documents && s.index.documents[k] == PlanDoc(s.plans[i]))
    && (forall i :: 0 <= i < |s.decisions| ==>
          var k := DocumentKey(DecisionDocument, i);
          k in s.index.documents && s.index.documents[k] == DecisionDoc(s.decisions[i]))
    && (forall i :: 0 <= i < |s.constraints| ==>
          var k := DocumentKey(ConstraintDocument, i);
          k in s.index.documents && s.index.documents[k] == ConstraintDoc(s.constraints[i]))
  }

  ghost predicate NoStrayDocuments(s: Store) {
    forall k :: k in s.index.documents ==>
      && (k.kind == PlanDocument ==> k.source < |s.plans|)
      && (k.kind == DecisionDocument ==> k.source < |s.decisions|)
      && (k.kind == ConstraintDocument ==> k.source < |s.constraints|)
  }

  ghost predicate IndexInv(s: Store) {
    DocumentsAgree(s) && NoStrayDocuments(s) && FtsAgrees(s.index)
  }

  lemma {:induction false} RowsWithout(rows: seq<FtsRow>, key: DocumentKey, other: DocumentKey)
    ensures RowsFor(WithoutKey(rows, key), other) == if other == key then [] else RowsFor(rows, other)
  {
    if rows != [] {
      var n := |rows| - 1;
      RowsWithout(rows[..n], key, other);
      if rows[n].key != key {
        RowsSnoc(WithoutKey(rows[..n], key), rows[n], other);
      }
    }
  }

  lemma RowsSnoc(rows: seq<FtsRow>, row: FtsRow, key: DocumentKey)
    ensures RowsFor(rows + [row], key) == if row.key == key then RowsFor(rows, key) + [row] else RowsFor(rows, key)
  {
    assert (rows + [row])[..|rows|] == rows;
  }

  lemma PutKeepsFts(index: Index, key: DocumentKey, doc: Document)
    requires FtsAgrees(index)
    ensures FtsAgrees(Put(index, key, doc))
  {
    var after := Put(index, key, doc);
    if index.ftsEnabled {
      forall k ensures KeyAgrees(after, k) {
        assert KeyAgrees(index, k);
        RowsWithout(index.fts, key, k);
        RowsSnoc(WithoutKey(index.fts, key), FtsRow(key, doc.title, doc.content), k);
      }
    }
  }

  lemma {:induction false} PutPlansEffect(index: Index, plans: seq<Plan>, ids: seq<nat>)
    requires forall k :: 0 <= k < |ids| ==> ids[k] < |plans|
    requires FtsAgrees(index)
    ensures var after := PutPlans(index, plans, ids);
            && FtsAgrees(after)
            && (forall k :: k in after.documents <==>
                  k in index.documents || (k.kind == PlanDocument && k.source in ids))
            && (forall k :: k in after.documents ==>
                  after.documents[k] == if k.kind == PlanDocument && k.source in ids then PlanDoc(plans[k.source])
                                        else index.documents[k])
  {
    if ids != [] {
      var n := |ids| - 1;
      PutPlansEffect(index, plans, ids[..n]);
      PutKeepsFts(PutPlans(index, plans, ids[..n]), DocumentKey(PlanDocument, ids[n]), PlanDoc(plans[ids[n]]));
      assert forall i :: i in ids <==> i in ids[..n] || i == ids[n] by {
        assert ids == ids[..n] + [ids[n]];
      }
    }
  }

  lemma {:induction false} PutDecisionsEffect(index: Index, decisions: seq<Decision>, ids: seq<nat>)
    requires forall k :: 0 <= k < |ids| ==> ids[k] < |decisions|
    requires FtsAgrees(index)
    ensures var after := PutDecisions(index, decisions, ids);
            && FtsAgrees(after)
            && (forall k :: k in after.documents <==>
                  k in index.documents || (k.kind == DecisionDocument && k.source in ids))
            && (forall k :: k in after.documents ==>
                  after.documents[k] == if k.kind == DecisionDocument && k.source in ids
                                        then DecisionDoc(decisions[k.source]) else index.documents[k])
  {
    if ids != [] {
      var n := |ids| - 1;
      PutDecisionsEffect(index, decisions, ids[..n]);
      PutKeepsFts(PutDecisions(index, decisions, ids[..n]), DocumentKey(DecisionDocument, ids[n]),
                  DecisionDoc(decisions[ids[n]]));
      assert forall i :: i in ids <==> i in ids[..n] || i == ids[n] by {
        assert ids == ids[..n] + [ids[n]];
      }
    }
  }

  /** A transaction that writes one row and one document. */
  lemma OneDocument(s: Store, t: Store, key: DocumentKey, doc: Document)
    requires IndexInv(s) && t.index == Put(s.index, key, doc)
    requires NoStrayDocuments(t)
    requires |s.plans| <= |t.plans| && |s.decisions| <= |t.decisions| && |s.constraints| <= |t.constraints|
    requires forall i :: 0 <= i < |t.plans| ==>
               if key == DocumentKey(PlanDocument, i) then doc == PlanDoc(t.plans[i])
               else i < |s.plans| && t.plans[i] == s.plans[i]
    requires forall i :: 0 <= i < |t.decisions| ==>
               if key == DocumentKey(DecisionDocument, i) then doc == DecisionDoc(t.decisions[i])
               else i < |s.decisions| && t.decisions[i] == s.decisions[i]
    requires forall i :: 0 <= i < |t.constraints| ==>
               if key == DocumentKey(ConstraintDocument, i) then doc == ConstraintDoc(t.constraints[i])
               else i < |s.constraints| && t.constraints[i] == s.constraints[i]
    ensures IndexInv(t)
  {
    PutKeepsFts(s.index, key, doc);
  }

  predicate WritesDocument(m: MemoryStep) {
    !m.RecordOverride? && !m.SetPhase? && !m.SaveContext? && !m.ApprovePlan?
  }

  /** The key a single-document transaction writes. */
  function WrittenKey(s: Store, m: MemoryStep): DocumentKey {
    match m
    case AddDecision(_, _, _, _, _) => DocumentKey(DecisionDocument, |s.decisions|)
    case SupersedeDecision(_, id, _, _) => DocumentKey(DecisionDocument, id)
    case AddConstraint(_, _, _, _, _) => DocumentKey(ConstraintDocument, |s.constraints|)
    case SupersedeConstraint(_, id, _, _) => DocumentKey(ConstraintDocument, id)
    case CreatePlan(_, _, _) => DocumentKey(PlanDocument, |s.plans|)
    case RejectPlan(_, id, _, _) => DocumentKey(PlanDocument, id)
    case AddSummary(_, _, _, _) => DocumentKey(SummaryDocument, |s.summaries|)
    case AddEvidence(_, _, _, _) => DocumentKey(EvidenceDocument, |s.evidence|)
    case _ => DocumentKey(TaskDocument, 0)
  }

  predicate WritesRow(m: MemoryStep) {
    m.CreatePlan? || m.RejectPlan? || m.AddDecision? || m.SupersedeDecision?
  }

  lemma RowStepKeepsIndex(s: Store, m: MemoryStep)
    requires IndexInv(s) && WritesRow(m) && AttemptMemory(s, m).Ok?
    ensures IndexInv(AttemptMemory(s, m).store)
  {
    hide WithoutKey, FtsAgrees;
    var t := AttemptMemory(s, m).store;
    var key := WrittenKey(s, m);
    OneDocument(s, t, key, t.index.documents[key]);
  }

  lemma NoteStepKeepsIndex(s: Store, m: MemoryStep)
    requires IndexInv(s) && WritesDocument(m) && !WritesRow(m) && AttemptMemory(s, m).Ok?
    ensures IndexInv(AttemptMemory(s, m).store)
  {
    hide WithoutKey, FtsAgrees;
    var t := AttemptMemory(s, m).store;
    var key := WrittenKey(s, m);
    OneDocument(s, t, key, t.index.documents[key]);
  }

  lemma DocumentStepKeepsIndex(s: Store, m: MemoryStep)
    requires IndexInv(s) && WritesDocument(m) && AttemptMemory(s, m).Ok?
    ensures IndexInv(AttemptMemory(s, m).store)
  {
    hide AttemptMemory, IndexInv;
    if WritesRow(m) {
      RowStepKeepsIndex(s, m);
    } else {
      NoteStepKeepsIndex(s, m);
    }
  }

  lemma PutStays(s: Store, t: Store, key: DocumentKey, doc: Document)
    requires NoStrayDocuments(s) && t.index == Put(s.index, key, doc)
    requires |t.plans| == |s.plans| && |t.decisions| == |s.decisions| && |t.constraints| == |s.constraints|
    requires key.kind == PlanDocument && key.source < |s.plans|
    ensures NoStrayDocuments(t)
  {
  }

  /** Changing some plan rows and re-indexing exactly those. */
  lemma PlansRewritten(s: Store, plans: seq<Plan>, ids: seq<nat>)
    requires IndexInv(s) && |plans| == |s.plans|
    requires forall k :: 0 <= k < |ids| ==> ids[k] < |plans|
    requires forall i :: 0 <= i < |plans| ==> i in ids || plans[i] == s.plans[i]
    ensures IndexInv(s.(plans := plans, index := PutPlans(s.index, plans, ids)))
  {
    hide PutPlans, KeyAgrees;
    PutPlansEffect(s.index, plans, ids);
  }

  /** Changing some decision rows and re-indexing exactly those. */
  lemma DecisionsRewritten(s: Store, decisions: seq<Decision>, ids: seq<nat>)
    requires IndexInv(s) && |decisions| == |s.decisions|
    requires forall k :: 0 <= k < |ids| ==> ids[k] < |decisions|
    requires forall i :: 0 <= i < |decisions| ==> i in ids || decisions[i] == s.decisions[i]
    ensures IndexInv(s.(decisions := decisions, index := PutDecisions(s.index, decisions, ids)))
  {
    hide PutDecisions, KeyAgrees;
    PutDecisionsEffect(s.index, decisions, ids);
  }

  lemma ApproveKeepsIndex(s: Store, expected: nat, plan: nat, actor: Actor)
    requires IndexInv(s) && ApproveTaskPlan(s, expected, plan, actor).Ok?
    ensures IndexInv(ApproveTaskPlan(s, expected, plan, actor).store)
  {
    hide Put, PutPlans, Replacements, FtsAgrees;
    var t := ApproveTaskPlan(s, expected, plan, actor).store;
    var replaced := Where(s.plans, IsApproved);
    var retired := UpdateWhere(s.plans, IsApproved, Superseded);
    PlansRewritten(s, retired, replaced);
    var mid := s.(plans := retired, index := PutPlans(s.index, retired, replaced));
    PutStays(mid, t, DocumentKey(PlanDocument, plan), PlanDoc(t.plans[plan]));
    OneDocument(mid, t, DocumentKey(PlanDocument, plan), PlanDoc(t.plans[plan]));
  }

  lemma MemoryKeepsIndex(s: Store, m: MemoryStep)
    requires IndexInv(s)
    ensures IndexInv(After(s, AttemptMemory(s, m)))
  {
    hide ApproveTaskPlan, Put;
    if AttemptMemory(s, m).Ok? {
      if WritesDocument(m) {
        DocumentStepKeepsIndex(s, m);
      } else if m.ApprovePlan? {
        ApproveKeepsIndex(s, m.expected, m.plan, m.actor);
      }
    }
  }

  predicate SameIndexed(s: Store, t: Store) {
    t.index == s.index && t.plans == s.plans && t.decisions == s.decisions && t.constraints == s.constraints
  }

  lemma IndexCarriesOver(s: Store, t: Store)
    requires IndexInv(s) && SameIndexed(s, t)
    ensures IndexInv(t)
  {
  }

  lemma BeginKeepsIndex(s: Store, expected: nat, goal: string, reason: string)
    requires IndexInv(s) && BeginHardReplan(s, expected, goal, reason).Ok?
    ensures IndexInv(BeginHardReplan(s, expected, goal, reason).store)
  {
    hide PutPlans, PutDecisions, OverrideEvents, Withdrawals, IndexInv;
    var t := BeginHardReplan(s, expected, goal, reason).store;
    var dispositions, live := Where(s.decisions, ActiveDisposition), WhereDesc(s.plans, LivePlan);
    DecisionsRewritten(s, t.decisions, dispositions);
    var mid := s.(decisions := t.decisions, index := PutDecisions(s.index, t.decisions, dispositions));
    PlansRewritten(mid, t.plans, live);
    IndexCarriesOver(mid.(plans := t.plans, index := PutPlans(mid.index, t.plans, live)), t);
  }

  lemma ClassifyKeepsIndex(s: Store, expected: nat, snapshot: nat, c: Classification)
    requires IndexInv(s) && ClassifyWorkSnapshot(s, expected, snapshot, c).Ok?
    ensures IndexInv(ClassifyWorkSnapshot(s, expected, snapshot, c).store)
  {
    hide WithoutKey;
    var t := ClassifyWorkSnapshot(s, expected, snapshot, c).store;
    OneDocument(s, t, DocumentKey(DecisionDocument, |s.decisions|), DecisionDoc(t.decisions[|s.decisions|]));
  }

  lemma ReplanKeepsIndex(s: Store, r: ReplanStep)
    requires IndexInv(s)
    ensures IndexInv(After(s, AttemptReplan(s, r)))
  {
    hide BeginHardReplan, ClassifyWorkSnapshot;
    if AttemptReplan(s, r).Ok? {
      match r
      case Begin(expected, goal, reason) => BeginKeepsIndex(s, expected, goal, reason);
      case Classify(expected, snapshot, sorted) => ClassifyKeepsIndex(s, expected, snapshot, sorted);
      case _ =>
    }
  }

  lemma WorkspaceKeepsIndex(s: Store, w: WorkspaceStep)
    ensures SameIndexed(s, After(s, AttemptWorkspace(s, w)))
  {
  }

  lemma AgentKeepsIndex(s: Store, a: AgentStep)
    ensures SameIndexed(s, After(s, AttemptAgent(s, a)))
  {
  }

  lemma OthersKeepIndex(s: Store, step: Step)
    requires !step.MemoryOp? && !step.ReplanOp?
    ensures SameIndexed(s, Apply(s, step))
  {
    hide AttemptWorkspace, AttemptAgent;
    match step
    case WorkspaceOp(w) => WorkspaceKeepsIndex(s, w);
    case AgentOp(a) => AgentKeepsIndex(s, a);
    case _ =>
  }

  lemma StepKeepsIndex(s: Store, step: Step)
    requires IndexInv(s)
    ensures IndexInv(Apply(s, step))
  {
    hide AttemptExecution, AttemptWorkspace, AttemptAgent, AttemptMemory, AttemptCheckpoint, AttemptReplan;
    match step
    case MemoryOp(m) => MemoryKeepsIndex(s, m);
    case ReplanOp(r) => ReplanKeepsIndex(s, r);
    case _ => OthersKeepIndex(s, step);
  }

  /** Index agreement, in every run. */
  lemma {:induction false} RunKeepsIndex(s: Store, steps: seq<Step>)
    requires IndexInv(s)
    ensures IndexInv(Run(s, steps))
  {
    hide Attempt;
    if steps != [] {
      var n := |steps| - 1;
      RunKeepsIndex(s, steps[..n]);
      StepKeepsIndex(Run(s, steps[..n]), steps[n]);
    }
  }

  const TASK_KEY := DocumentKey(TaskDocument, 0)

  /** The task document shows the current goal. */
  predicate GoalIndexed(s: Store) {
    && s.task.goal.Some? && TASK_KEY in s.index.documents
    && s.index.documents[TASK_KEY].content == Text(s.task.goal.value)
  }

  /** A hard replan does not re-index the goal: the task document stays right exactly when the goal is not new. */
  lemma OverrideLeavesGoalDocument(s: Store, expected: nat, goal: string, reason: string)
    requires GoalIndexed(s) && FtsAgrees(s.index) && BeginHardReplan(s, expected, goal, reason).Ok?
    ensures GoalIndexed(BeginHardReplan(s, expected, goal, reason).store) <==> Some(Strip(goal)) == s.task.goal
  {
    hide PutPlans, PutDecisions, OverrideEvents, Withdrawals, KeyAgrees, FtsAgrees, Strip, Blank, UpdateWhere;
    var t := BeginHardReplan(s, expected, goal, reason).store;
    var dispositions := Where(s.decisions, ActiveDisposition);
    PutDecisionsEffect(s.index, t.decisions, dispositions);
    PutPlansEffect(PutDecisions(s.index, t.decisions, dispositions), t.plans, WhereDesc(s.plans, LivePlan));
  }

  /** An accepted hard replan with a goal that is new. */
  predicate ReplacesGoal(s: Store, step: Step) {
    && step.ReplanOp? && step.replan.Begin?
    && AttemptReplan(s, step.replan).Ok? && Some(Strip(step.replan.goal)) != s.task.goal
  }

  lemma MemoryKeepsGoal(s: Store, m: MemoryStep)
    requires GoalIndexed(s) && FtsAgrees(s.index) && !m.ApprovePlan?
    ensures GoalIndexed(After(s, AttemptMemory(s, m)))
  {
    hide WithoutKey, FtsAgrees;
  }

  lemma ApproveKeepsGoal(s: Store, expected: nat, plan: nat, actor: Actor)
    requires GoalIndexed(s) && FtsAgrees(s.index)
    ensures GoalIndexed(After(s, ApproveTaskPlan(s, expected, plan, actor)))
  {
    hide PutPlans, Replacements, KeyAgrees, FtsAgrees, WithoutKey;
    if ApproveTaskPlan(s, expected, plan, actor).Ok? {
      PutPlansEffect(s.index, UpdateWhere(s.plans, IsApproved, Superseded), Where(s.plans, IsApproved));
    }
  }

  lemma ReplanKeepsGoal(s: Store, r: ReplanStep)
    requires GoalIndexed(s) && !r.Begin?
    ensures GoalIndexed(After(s, AttemptReplan(s, r)))
  {
    hide WithoutKey, Disjoint, Blank, Strip;
  }

  lemma QuietKeepsGoal(s: Store, step: Step)
    requires GoalIndexed(s) && !step.MemoryOp? && !step.ReplanOp?
    ensures GoalIndexed(Apply(s, step))
  {
    hide Merge, Blank, Strip, HasPrepared, TransitionSafe, WriterRefusal;
  }

  /** Any one transaction keeps the task document right exactly unless it replaces the goal by a hard replan. */
  lemma GoalDocumentStep(s: Store, step: Step)
    requires GoalIndexed(s) && IndexInv(s)
    ensures GoalIndexed(Apply(s, step)) <==> !ReplacesGoal(s, step)
  {
    hide AttemptExecution, AttemptWorkspace, AttemptAgent, AttemptMemory, AttemptCheckpoint, GoalIndexed, FtsAgrees,
         BeginHardReplan, Strip;
    match step
    case MemoryOp(m) =>
      if m.ApprovePlan? {
        ApproveKeepsGoal(s, m.expected, m.plan, m.actor);
        ApproveIs(s, m);
      } else {
        MemoryKeepsGoal(s, m);
      }
    case ReplanOp(r) =>
      if r.Begin? {
        if BeginHardReplan(s, r.expected, r.goal, r.reason).Ok? {
          OverrideLeavesGoalDocument(s, r.expected, r.goal, r.reason);
        }
      } else {
        ReplanKeepsGoal(s, r);
      }
    case _ => QuietKeepsGoal(s, step);
  }

  lemma ApproveIs(s: Store, m: MemoryStep)
    requires m.ApprovePlan?
    ensures AttemptMemory(s, m) == ApproveTaskPlan(s, m.expected, m.plan, m.actor)
  {
    hide ApproveTaskPlan;
  }

  /** Over runs: the task document stays right as long as no step replaces the goal by a hard replan. */
  lemma {:induction false} GoalDocumentRun(s: Store, steps: seq<Step>)
    requires GoalIndexed(s) && IndexInv(s)
    requires forall k :: 0 <= k < |steps| ==> !ReplacesGoal(At(s, steps, k), steps[k])
    ensures GoalIndexed(Run(s, steps))
  {
    hide Attempt, GoalIndexed, IndexInv, ReplacesGoal;
    if steps != [] {
      var n := |steps| - 1;
      assert forall k :: 0 <= k < n ==> steps[..n][..k] == steps[..k] && steps[..n][k] == steps[k];
      GoalDocumentRun(s, steps[..n]);
      RunKeepsIndex(s, steps[..n]);
      assert !ReplacesGoal(At(s, steps, n), steps[n]);
      GoalDocumentStep(Run(s, steps[..n]), steps[n]);
    }
  }

  /** What a search finds, row by row: title, content and status as the tables have them. */
  lemma DocumentsShow(s: Store)
    requires DocumentsAgree(s)
    ensures forall i :: 0 <= i < |s.plans| ==>
              var k := DocumentKey(PlanDocument, i);
              k in s.index.documents
              && s.index.documents[k] == Document(PlanTitle(s.plans[i].version), Text(s.plans[i].content),
                                                  OfPlan(s.plans[i].status))
    ensures forall i :: 0 <= i < |s.decisions| ==>
              var k := DocumentKey(DecisionDocument, i);
              k in s.index.documents
              && s.index.documents[k] == Document(s.decisions[i].title, s.decisions[i].content,
                                                  OfDecision(s.decisions[i].status))
    ensures forall i :: 0 <= i < |s.constraints| ==>
              var k := DocumentKey(ConstraintDocument, i);
              k in s.index.documents
              && s.index.documents[k] == Document(TextTitle(s.constraints[i].scope), Text(s.constraints[i].content),
                                                  OfConstraint(s.constraints[i].status))
  {
  }
}
