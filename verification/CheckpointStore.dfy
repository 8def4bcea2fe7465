/** memory/checkpoint_store.py and memory/checkpoint_reviews.py over the store object. */
module CheckpointStore {
  import opened Prelude
  import opened Text
  import opened Model
  import opened MemoryStores
  import Tx = CheckpointTx

  method CreateCheckpoint(store: MemoryStore, expected: nat, o: Tx.Observed) returns (r: Reply)
    modifies store
    ensures store.Did(Tx.CreateCheckpoint(old(store.db), expected, o), r)
  {
    hide Strip, Tx.Recorded, Tx.MaxSequence;
    if store.db.task.revision != expected { return Refused(Stale); }
    if Tx.Recorded(store.db.checkpoints, o.fingerprint) { return Done; }
    var sequence := Tx.MaxSequence(store.db.checkpoints) + 1;
    var requiresReview := o.checkpointType != Heartbeat;
    if requiresReview {
      store.db := store.db.(task := Bump(store.db.task).(phase := SupervisorReview));
    }
    var id, t := |store.db.checkpoints|, store.db.task;
    var row := Checkpoint(sequence, o.checkpointType, t.revision, t.intentVersion, t.planVersion, o.identity,
                          o.remoteStatus, o.nextAction, Strip(o.trigger), o.report, o.evidence, o.fingerprint,
                          o.rawEvents, requiresReview);
    store.db := store.db.(checkpoints := store.db.checkpoints + [row]);
    store.InsertEvent(Codex, CheckpointCreated(id, requiresReview));
    return Done;
  }

  method ReviewCheckpoint(store: MemoryStore, expected: nat, checkpoint: nat, verdict: ReviewDecision,
                          instruction: Option<string>) returns (r: Reply)
    modifies store
    ensures store.Did(Tx.ReviewTaskCheckpoint(old(store.db), expected, checkpoint, verdict, instruction), r)
  {
    hide Tx.Instruction, Tx.Pending, Tx.Reviewed;
    if verdict == Steer && Tx.Instruction(instruction).None? { return Refused(BadValue); }
    if store.db.task.revision != expected { return Refused(Stale); }
    if checkpoint >= |store.db.checkpoints| { return Refused(Conflict); }
    if !store.db.checkpoints[checkpoint].requiresReview { return Refused(Conflict); }
    if Tx.Reviewed(store.db.reviews, checkpoint) { return Refused(Conflict); }
    var pending := Tx.Pending(store.db.checkpoints, store.db.reviews);
    if pending == [] || pending[|pending| - 1] != checkpoint { return Refused(Conflict); }
    var phase := Implementing;
    if verdict == Interrupt || verdict == ReplanWork {
      phase := SupervisorReview;
    } else if verdict == Accept {
      phase := FinalReview;
    }
    store.db := store.db.(task := Bump(store.db.task).(phase := phase));
    var review := Review(checkpoint, verdict, Tx.Instruction(instruction), store.db.task.revision);
    store.db := store.db.(reviews := store.db.reviews + [review]);
    store.InsertEvent(Supervisor, CheckpointReviewed(checkpoint, verdict));
    return Done;
  }
}
