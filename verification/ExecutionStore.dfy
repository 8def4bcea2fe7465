/** memory/execution.py over the store object: mode, policy and the writer lease. */
module ExecutionStore {
  import opened Prelude
  import opened Text
  import opened Model
  import opened MemoryStores
  import Tx = ExecutionTx

  method SetExecutionMode(store: MemoryStore, expected: nat, mode: ExecutionMode, actor: Actor) returns (r: Reply)
    modifies store
    ensures store.Did(Tx.SetExecutionMode(old(store.db), expected, mode, actor), r)
  {
    if store.db.task.revision != expected { return Refused(Stale); }
    var before := store.db.exec;
    if before.mode == mode { return Done; }
    if !Tx.TransitionSafe(store.db) { return Refused(Conflict); }
    if before.writer == ChatGpt && mode == CodexSupervised { return Refused(Conflict); }
    if before.writer == CodexWriter && mode == Direct { return Refused(Conflict); }
    store.db := store.db.(task := Bump(store.db.task));
    store.db := store.db.(exec := store.db.exec.(mode := mode));
    store.InsertEvent(actor, ModeChanged(before.mode, mode));
    return Done;
  }

  method SetHandoffPolicy(store: MemoryStore, expected: nat, policy: HandoffPolicy, actor: Actor) returns (r: Reply)
    modifies store
    ensures store.Did(Tx.SetHandoffPolicy(old(store.db), expected, policy, actor), r)
  {
    if policy == SupervisorAllowed && actor != User { return Refused(Conflict); }
    if store.db.task.revision != expected { return Refused(Stale); }
    var before := store.db.exec;
    if before.policy == policy { return Done; }
    store.db := store.db.(task := Bump(store.db.task));
    store.db := store.db.(exec := store.db.exec.(policy := policy));
    store.InsertEvent(actor, PolicyChanged(before.policy, policy));
    return Done;
  }

  method AcquireWriter(store: MemoryStore, expected: nat, writer: ActiveWriter, actor: Actor, authorized: bool)
    returns (r: Reply)
    modifies store
    ensures store.Did(Tx.AcquireWriter(old(store.db), expected, writer, actor, authorized), r)
  {
    if store.db.task.revision != expected { return Refused(Stale); }
    if Tx.Terminal(store.db.task.phase) { return Refused(Conflict); }
    if !Tx.TransitionSafe(store.db) { return Refused(Conflict); }
    if store.db.exec.writer != NoWriter { return Refused(Conflict); }
    var refusal := Tx.WriterRefusal(store.db.exec, writer, actor, authorized);
    if refusal.Some? { return Refused(refusal.value); }
    store.db := store.db.(task := Bump(store.db.task));
    var epoch := store.db.exec.epoch + 1;
    store.db := store.db.(exec := store.db.exec.(writer := writer, epoch := epoch,
                                                 acquired := Some(store.db.task.revision)));
    store.InsertEvent(actor, WriterAcquired(writer, epoch));
    return Done;
  }

  method ReleaseWriter(store: MemoryStore, expected: nat, writer: ActiveWriter, epoch: nat, actor: Actor)
    returns (r: Reply)
    modifies store
    ensures store.Did(Tx.ReleaseWriter(old(store.db), expected, writer, epoch, actor), r)
  {
    if store.db.task.revision != expected { return Refused(Stale); }
    if store.db.exec.writer != writer { return Refused(Conflict); }
    if store.db.exec.epoch != epoch { return Refused(Conflict); }
    if !Tx.TransitionSafe(store.db) { return Refused(Conflict); }
    store.db := store.db.(task := Bump(store.db.task));
    store.db := store.db.(exec := store.db.exec.(writer := NoWriter, acquired := None));
    store.InsertEvent(actor, WriterReleased(writer, epoch));
    return Done;
  }

  method HandoffWriter(store: MemoryStore, expected: nat, q: Tx.HandoverRequest) returns (r: Reply)
    modifies store
    ensures store.Did(Tx.HandoffWriter(old(store.db), expected, q), r)
  {
    hide Blank, Strip;
    if q.from == NoWriter || q.to == NoWriter { return Refused(BadValue); }
    if q.from == q.to { return Refused(BadValue); }
    if Blank(q.reason) { return Refused(BadValue); }
    if store.db.task.revision != expected { return Refused(Stale); }
    if Tx.Terminal(store.db.task.phase) { return Refused(Conflict); }
    if store.db.exec.writer != q.from { return Refused(Conflict); }
    if store.db.exec.epoch != q.epoch { return Refused(Conflict); }
    if !Tx.TransitionSafe(store.db) { return Refused(Conflict); }
    var refusal := Tx.WriterRefusal(store.db.exec, q.to, q.actor, q.authorized);
    if refusal.Some? { return Refused(refusal.value); }
    store.db := store.db.(task := Bump(store.db.task));
    var t, epoch := store.db.task, store.db.exec.epoch + 1;
    store.db := store.db.(exec := store.db.exec.(writer := q.to, epoch := epoch, acquired := Some(t.revision)));
    var record := Handoff(q.from, q.to, expected, t.revision, t.intentVersion, t.planVersion, epoch,
                          OrElse(q.gitHead, t.gitHead), q.changeRef, Strip(q.reason), q.actor);
    store.db := store.db.(handoffs := store.db.handoffs + [record]);
    store.InsertEvent(q.actor, WriterHandedOver(q.from, q.to, epoch));
    return Done;
  }
}
