/** memory/agent_safety.py, memory/codex_runtime.py and memory/kandev_binding.py over the store object. */
module AgentStore {
  import opened Prelude
  import opened Model
  import opened MemoryStores
  import Tx = AgentTx

  /** `_record`: whatever the revision is, overwrite the safety row and advance. */
  method Record(store: MemoryStore, safety: AgentSafety, kind: EventKind) returns (r: Reply)
    modifies store
    ensures store.Did(Tx.RecordSafety(old(store.db), safety, kind), r)
  {
    store.db := store.db.(task := Bump(store.db.task));
    store.db := store.db.(safety := Some(safety));
    store.InsertEvent(Supervisor, kind);
    return Done;
  }

  method LatchCompensation(store: MemoryStore, operation: GuardedOperation, summary: SafetySummary,
                           identity: RemoteIdentity)
    returns (r: Reply)
    modifies store
    ensures store.Did(Tx.LatchCompensation(old(store.db), operation, summary, identity), r)
  {
    r := Record(store, AgentSafety(CompensationRequired, operation, summary, identity),
                CompensationRecorded(CompensationRequired));
  }

  method RecordRequired(store: MemoryStore, operation: GuardedOperation, summary: SafetySummary,
                        identity: RemoteIdentity, reconciliation: bool) returns (r: Reply)
    modifies store
    ensures store.Did(Tx.RecordCompensationRequired(old(store.db), operation, summary, identity, reconciliation), r)
  {
    var state := CompensationRequired;
    if reconciliation { state := SafetyReconciliation; }
    r := Record(store, AgentSafety(state, operation, summary, identity), CompensationRecorded(state));
  }

  method RecordSucceeded(store: MemoryStore, operation: GuardedOperation, summary: SafetySummary,
                         identity: RemoteIdentity)
    returns (r: Reply)
    modifies store
    ensures store.Did(Tx.RecordCompensationSucceeded(old(store.db), operation, summary, identity), r)
  {
    r := Record(store, AgentSafety(Clear, operation, summary, identity), CompensationSucceeded);
  }

  /** The task row is written first: when there is no safety row, that write is rolled back. */
  method ReconcileSafety(store: MemoryStore, expected: nat, note: string) returns (r: Reply)
    modifies store
    ensures store.Did(Tx.ReconcileSafety(old(store.db), expected, note), r)
  {
    var found := store.db;
    if store.db.task.revision != expected { return Refused(Stale); }
    store.db := store.db.(task := Bump(store.db.task).(state := Some(Note(note))));
    if store.db.safety.None? {
      store.db := found;
      return Refused(Conflict);
    }
    store.db := store.db.(safety := Some(store.db.safety.value.(state := Clear, summary := FreeText(note))));
    store.InsertEvent(Supervisor, CompensationReconciled);
    return Done;
  }

  method BindCodexRuntime(store: MemoryStore, expected: nat, b: Tx.RuntimeBinding) returns (r: Reply)
    modifies store
    ensures store.Did(Tx.BindCodexRuntime(old(store.db), expected, b), r)
  {
    if b.event == Unsupported { return Refused(BadValue); }
    if store.db.task.revision != expected { return Refused(Stale); }
    var merged := Tx.Merge(store.db.runtime, b);
    var values := store.db.task;
    if merged.identity.thread.Some? { values := values.(thread := merged.identity.thread); }
    if merged.identity.turn.Some? { values := values.(turn := merged.identity.turn); }
    if b.phase.Some? { values := values.(phase := b.phase.value); }
    if b.state.Some? { values := values.(state := b.state); }
    store.db := store.db.(task := Bump(values));
    store.db := store.db.(runtime := Some(merged));
    store.InsertEvent(Codex, RuntimeBound(b.event));
    return Done;
  }

  method BindKandevTask(store: MemoryStore, expected: nat, kandevTask: string) returns (r: Reply)
    modifies store
    ensures store.Did(Tx.BindKandevTask(old(store.db), expected, kandevTask), r)
  {
    if kandevTask == "" { return Refused(BadValue); }
    if store.db.task.revision != expected { return Refused(Stale); }
    if Truthy(store.db.task.kandev) {
      if store.db.task.kandev.value != kandevTask { return Refused(Conflict); }
      return Done;
    }
    store.db := store.db.(task := Bump(store.db.task).(kandev := Some(kandevTask)));
    store.InsertEvent(Kandev, KandevBound);
    return Done;
  }
}
