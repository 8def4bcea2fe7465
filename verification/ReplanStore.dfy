/** memory/replans.py and memory/replan_bindings.py over the store object: the hard-replan lifecycle. */
module ReplanStore {
  import opened Prelude
  import opened Text
  import opened Model
  import opened MemoryStores
  import MemoryTx
  import Tx = ReplanTx

  /** The loop over the withdrawn dispositions' documents. */
  method ReindexDecisions(store: MemoryStore, ids: seq<nat>)
    requires forall k :: 0 <= k < |ids| ==> ids[k] < |store.db.decisions|
    modifies store
    ensures store.db == old(store.db).(index := Tx.PutDecisions(old(store.db).index, old(store.db).decisions, ids))
  {
    hide Put;
    ghost var found := store.db;
    for k := 0 to |ids|
      invariant store.db == found.(index := Tx.PutDecisions(found.index, found.decisions, ids[..k]))
    {
      assert ids[..k + 1][..k] == ids[..k];
      store.UpsertDocument(DocumentKey(DecisionDocument, ids[k]), DecisionDoc(store.db.decisions[ids[k]]));
    }
    assert ids[..|ids|] == ids;
  }

  /** The loop over the withdrawn plans' documents. */
  method ReindexPlans(store: MemoryStore, ids: seq<nat>)
    requires forall k :: 0 <= k < |ids| ==> ids[k] < |store.db.plans|
    modifies store
    ensures store.db == old(store.db).(index := MemoryTx.PutPlans(old(store.db).index, old(store.db).plans, ids))
  {
    hide Put;
    ghost var found := store.db;
    for k := 0 to |ids|
      invariant store.db == found.(index := MemoryTx.PutPlans(found.index, found.plans, ids[..k]))
    {
      assert ids[..k + 1][..k] == ids[..k];
      store.UpsertDocument(DocumentKey(PlanDocument, ids[k]), PlanDoc(store.db.plans[ids[k]]));
    }
    assert ids[..|ids|] == ids;
  }

  /** The loop over the withdrawn dispositions' events. */
  method AnnounceWithdrawn(store: MemoryStore, ids: seq<nat>)
    modifies store
    ensures store.db == old(store.db).(events := old(store.db).events + Tx.Withdrawals(old(store.db).task, ids))
  {
    ghost var found := store.db;
    assert found.events + [] == found.events;
    for k := 0 to |ids|
      invariant store.db == found.(events := found.events + Tx.Withdrawals(found.task, ids[..k]))
    {
      assert ids[..k + 1][..k] == ids[..k];
      store.InsertEvent(Supervisor, DecisionWithdrawn(ids[k]));
    }
    assert ids[..|ids|] == ids;
  }

  /** The events of a hard replan, in order. */
  method Announce(store: MemoryStore, replan: nat, goal: string, live: seq<nat>, dispositions: seq<nat>)
    modifies store
    ensures store.db == old(store.db).(events := old(store.db).events
                          + (Tx.OverrideEvents(old(store.db).task, replan, goal, live)
                             + Tx.Withdrawals(old(store.db).task, dispositions)))
  {
    hide Tx.Withdrawals;
    store.InsertEvent(User, HardReplanRequested(replan));
    store.InsertEvent(User, IntentUpdated(goal));
    if live != [] {
      store.InsertEvent(Supervisor, PlansWithdrawn(live, replan));
    }
    assert store.db.events == old(store.db).events + Tx.OverrideEvents(old(store.db).task, replan, goal, live);
    AnnounceWithdrawn(store, dispositions);
  }

  method BeginHardReplan(store: MemoryStore, expected: nat, goal: string, reason: string) returns (r: Reply)
    modifies store
    ensures store.Did(Tx.BeginHardReplan(old(store.db), expected, goal, reason), r)
  {
    hide Blank, Strip, UpdateWhere, Where, WhereDesc, MemoryTx.PutPlans, Tx.PutDecisions, Tx.Withdrawals,
         Tx.OverrideEvents, Tx.Capture, Tx.Retag;
    if Blank(goal) || Blank(reason) { return Refused(BadValue); }
    if store.db.task.revision != expected { return Refused(Stale); }
    var before := store.db;
    store.db := store.db.(replans := UpdateWhere(store.db.replans, Tx.ActiveReplan, Tx.SupersedeReplan));
    var dispositions := Where(store.db.decisions, Tx.ActiveDisposition);
    store.db := store.db.(decisions := UpdateWhere(store.db.decisions, Tx.ActiveDisposition, Tx.WithdrawDecision));
    ReindexDecisions(store, dispositions);
    var live := WhereDesc(store.db.plans, Tx.LivePlan);
    var planId := if live == [] then None else Some(live[0]);
    var captured := Snapshot(Tx.Capture(before, planId), Classification([], [], [], None), false);
    var snapshot := |store.db.snapshots|;
    store.db := store.db.(snapshots := store.db.snapshots + [captured]);
    store.db := store.db.(plans := UpdateWhere(store.db.plans, Tx.LivePlan, MemoryTx.Superseded));
    ReindexPlans(store, live);
    var values := store.db.task.(goal := Some(Strip(goal)), phase := Paused, state := Some(OverrideRecorded));
    store.db := store.db.(task := Bump(values).(intentVersion := before.task.intentVersion + 1));
    var replan := Replan(snapshot, InterruptPending, before.task.intentVersion, store.db.task.intentVersion, planId,
                         None, Strip(goal), Strip(reason), None, None);
    var id := |store.db.replans|;
    store.db := store.db.(replans := store.db.replans + [replan]);
    store.db := store.db.(runtime := Tx.Retag(store.db.runtime, PendingInterrupt, NextInterrupt));
    Announce(store, id, Strip(goal), live, dispositions);
    return Done;
  }

  /** The snapshot is read back last: without it everything written before is rolled back. */
  method FinalizeInterrupt(store: MemoryStore, expected: nat, replan: nat, succeeded: bool, error: Option<string>)
    returns (r: Reply)
    modifies store
    ensures store.Did(Tx.FinalizeInterrupt(old(store.db), expected, replan, succeeded, error), r)
  {
    if store.db.task.revision != expected { return Refused(Stale); }
    if replan >= |store.db.replans| { return Refused(Conflict); }
    if store.db.replans[replan].status != InterruptPending { return Refused(Conflict); }
    var found := store.db;
    var status := if succeeded then SnapshotReady else InterruptFailed;
    store.db := store.db.(task := Bump(store.db.task).(
      phase := if succeeded then Paused else Blocked,
      state := Some(if succeeded then InterruptConfirmed else InterruptUnconfirmed)));
    var moved := store.db.replans[replan].(status := status, error := error);
    store.db := store.db.(replans := store.db.replans[replan := moved]);
    if store.db.runtime.Some? {
      var row := store.db.runtime.value;
      store.db := store.db.(runtime := Some(row.(status := Some(if succeeded then Interrupted else FailedInterrupt),
                                                 nextAction := Some(if succeeded then NextClassify
                                                                    else NextReconcile))));
    }
    store.InsertEvent(if succeeded then Codex else System, InterruptFinalized(replan, succeeded));
    if store.db.replans[replan].snapshot >= |store.db.snapshots| {
      store.db := found;
      return Refused(MissingRow);
    }
    return Done;
  }

  /** Without the snapshot's row reading it back fails after the writes, which are then undone. */
  method ClassifyWorkSnapshot(store: MemoryStore, expected: nat, snapshot: nat, c: Classification) returns (r: Reply)
    modifies store
    ensures store.Did(Tx.ClassifyWorkSnapshot(old(store.db), expected, snapshot, c), r)
  {
    hide Blank, Strip, Put, Tx.Disjoint, Tx.Owner;
    if !Tx.Disjoint(c) { return Refused(BadValue); }
    if store.db.task.revision != expected { return Refused(Stale); }
    var owner := Tx.Owner(store.db.replans, snapshot);
    if owner.None? { return Refused(Conflict); }
    var id := owner.value;
    if store.db.replans[id].status != SnapshotReady { return Refused(Conflict); }
    var found := store.db;
    if snapshot < |store.db.snapshots| {
      var notes := if c.notes.Some? && !Blank(c.notes.value) then Some(Strip(c.notes.value)) else None;
      var sorted := store.db.snapshots[snapshot].(sorted := c.(notes := notes), classified := true);
      store.db := store.db.(snapshots := store.db.snapshots[snapshot := sorted]);
    }
    var ready := store.db.replans[id].(status := ReadyToPlan);
    store.db := store.db.(replans := store.db.replans[id := ready]);
    store.db := store.db.(task := Bump(store.db.task).(phase := Replanning, state := Some(SnapshotSorted)));
    store.InsertEvent(Supervisor, SnapshotClassified(id));
    store.db := store.db.(task := Bump(store.db.task));
    store.InsertDecision(SnapshotClassification, DispositionTitle, Disposition(c), Supervisor);
    if snapshot >= |found.snapshots| {
      store.db := found;
      return Refused(MissingRow);
    }
    return Done;
  }

  /** The replan and the task are written before the snapshot is looked up: without it both are rolled back. */
  method PrepareInterruptRetry(store: MemoryStore, expected: nat, replan: nat) returns (r: Reply)
    modifies store
    ensures store.Did(Tx.PrepareInterruptRetry(old(store.db), expected, replan), r)
  {
    var found := store.db;
    if store.db.task.revision != expected { return Refused(Stale); }
    if replan >= |store.db.replans| { return Refused(Conflict); }
    var row := store.db.replans[replan];
    if row.status != InterruptFailed { return Refused(Conflict); }
    store.db := store.db.(replans := store.db.replans[replan := row.(status := InterruptPending, error := None)]);
    store.db := store.db.(task := Bump(store.db.task).(phase := Paused, state := Some(RetryingInterrupt)));
    if row.snapshot >= |store.db.snapshots| {
      store.db := found;
      return Refused(Conflict);
    }
    return Done;
  }

  method BindReplanWorkflow(store: MemoryStore, workflow: string) returns (r: Reply)
    modifies store
    ensures store.Did(Tx.BindReplanWorkflow(old(store.db), workflow), r)
  {
    var id := Newest(store.db.replans, Tx.IsReadyToPlan);
    if id.None? { return Done; }
    var row := store.db.replans[id.value];
    store.db := store.db.(replans := store.db.replans[id.value := row.(status := ReplanPlanning,
                                                                       workflow := Some(workflow))]);
    return Done;
  }

  method BindReplanPlanReview(store: MemoryStore, plan: nat) returns (r: Reply)
    modifies store
    ensures store.Did(Tx.BindReplanPlanReview(old(store.db), plan), r)
  {
    var id := Newest(store.db.replans, Tx.AwaitsReview);
    if id.None? { return Done; }
    var row := store.db.replans[id.value];
    store.db := store.db.(replans := store.db.replans[id.value := row.(status := ReplanReview, newPlan := Some(plan))]);
    return Done;
  }

  method CompleteReplanOnExecution(store: MemoryStore, plan: nat) returns (r: Reply)
    modifies store
    ensures store.Did(Tx.CompleteReplanOnExecution(old(store.db), plan), r)
  {
    var id := Tx.UnderReview(store.db.replans, plan);
    if id.None? { return Done; }
    var row := store.db.replans[id.value];
    store.db := store.db.(replans := store.db.replans[id.value := row.(status := Completed)]);
    return Done;
  }
}
