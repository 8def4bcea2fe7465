/** The invariants the store relies on, together: they hold of a new task and of everything reachable from it. */
module Invariants {
  import opened Prelude
  import opened Model
  import opened CheckpointTx
  import opened Steps
  import opened OperationProofs
  import opened LogProofs
  import opened AuditProofs
  import opened LeaseProofs
  import opened ReplanProofs
  import opened PlanProofs
  import opened ReviewProofs
  import opened IndexProofs

  ghost predicate Sound(s: Store) {
    && LeaseInv(s)
    && OperationInv(s)
    && ReplanInv(s)
    && PlanInv(s)
    && ReviewInv(s)
    && WellNested(s)
    && IndexInv(s)
    && Chronological(s)
    && Replay(FRESH, s.events) == Tables(s)
  }

  /** What a new task starts with: no rows, one document, and an opening event or two. */
  ghost predicate Fresh(s: Store) {
    && s.task.revision == 0 && s.task.intentVersion == 1 && s.task.planVersion == 0
    && s.exec == Execution(Hybrid, NoWriter, ManualOnly, 0, None)
    && s.operations == [] && s.replans == [] && s.snapshots == [] && s.checkpoints == [] && s.reviews == []
    && s.plans == [] && s.decisions == [] && s.constraints == []
    && (exists doc :: s.index == Put(Index(s.index.ftsEnabled, map[], []), TASK_KEY, doc))
    && 1 <= |s.events| <= 2 && OpeningEvent(s.events[0]) && OpeningEvent(s.events[|s.events| - 1])
  }

  predicate OpeningEvent(e: Event) {
    e.revision == 0 && e.intentVersion == 1 && e.planVersion == 0 && (e.kind.TaskCreated? || e.kind.IntentCreated?)
  }

  lemma NewStoreFresh(id: string, title: string, repository: Option<string>, goal: Option<string>, fts: bool)
    ensures Fresh(NewStore(id, title, repository, goal, fts))
  {
    hide WithoutKey, Truthy;
    var s := NewStore(id, title, repository, goal, fts);
    var doc := s.index.documents[TASK_KEY];
    assert s.index == Put(Index(fts, map[], []), TASK_KEY, doc);
  }

  lemma FreshTables(s: Store)
    requires Fresh(s)
    ensures LeaseInv(s) && OperationInv(s) && ReplanInv(s) && PlanInv(s) && ReviewInv(s) && Chronological(s)
  {
    hide Put;
  }

  lemma FreshIndex(s: Store)
    requires Fresh(s)
    ensures IndexInv(s)
  {
    hide WithoutKey;
    var empty := Index(s.index.ftsEnabled, map[], []);
    var doc :| s.index == Put(empty, TASK_KEY, doc);
    assert FtsAgrees(empty);
    PutKeepsFts(empty, TASK_KEY, doc);
  }

  /** Opening events neither touch the review stack nor tell a reader of the log anything new. */
  lemma OpeningSaysNothing(events: seq<Event>, e: Event)
    requires Stack(events) == Some([]) && Replay(FRESH, events) == FRESH && OpeningEvent(e)
    ensures Stack(events + [e]) == Some([]) && Replay(FRESH, events + [e]) == FRESH
  {
    StackSnoc(events, e);
    ReplaySnoc(FRESH, events, e);
  }

  lemma FreshLog(s: Store)
    requires Fresh(s)
    ensures WellNested(s) && Replay(FRESH, s.events) == Tables(s)
  {
    assert Tables(s) == FRESH && Pending(s.checkpoints, s.reviews) == [];
    hide Put, Stack, Replay;
    EmptyLog();
    var first := [s.events[0]];
    OpeningSaysNothing([], s.events[0]);
    assert [] + first == first;
    OpeningSaysNothing(first, s.events[|s.events| - 1]);
    assert s.events == first || s.events == first + [s.events[|s.events| - 1]];
  }

  lemma EmptyLog()
    ensures Stack([]) == Some([]) && Replay(FRESH, []) == FRESH
  {
  }

  lemma NewStoreSound(id: string, title: string, repository: Option<string>, goal: Option<string>, fts: bool)
    ensures Sound(NewStore(id, title, repository, goal, fts))
  {
    hide NewStore, Fresh;
    var s := NewStore(id, title, repository, goal, fts);
    NewStoreFresh(id, title, repository, goal, fts);
    FreshTables(s);
    FreshIndex(s);
    FreshLog(s);
  }

  /** Every run keeps all of them. */
  lemma RunKeepsSound(s: Store, steps: seq<Step>)
    requires Sound(s)
    ensures Sound(Run(s, steps))
  {
    hide Run, LeaseInv, OperationInv, ReplanInv, PlanInv, ReviewInv, WellNested, IndexInv, Chronological;
    RunKeepsLease(s, steps);
    RunKeepsOperations(s, steps);
    RunKeepsReplans(s, steps);
    RunKeepsPlans(s, steps);
    ReviewIsAStack(s, steps);
    RunKeepsIndex(s, steps);
    RunIsChronological(s, steps);
    LogRebuildsTables(s, steps);
  }

  /** Every reachable store is sound. */
  lemma ReachableSound(s: Store)
    requires Reachable(s)
    ensures Sound(s)
  {
    hide Sound, Run, NewStore;
    var id, title, repository, goal, fts, steps :| s == Run(NewStore(id, title, repository, goal, fts), steps);
    NewStoreSound(id, title, repository, goal, fts);
    RunKeepsSound(NewStore(id, title, repository, goal, fts), steps);
  }
}
