/** memory/checkpoint_store.py and memory/checkpoint_reviews.py. */
module CheckpointTx {
  import opened Prelude
  import opened Text
  import opened Model

  datatype CheckpointStep =
    | Capture(expected: nat, observed: Observed)
    | ReviewCheckpoint(expected: nat, checkpoint: nat, verdict: ReviewDecision, instruction: Option<string>)

  datatype Observed = Observed(
    checkpointType: CheckpointType, fingerprint: Fingerprint, trigger: string, identity: RemoteIdentity,
    remoteStatus: Option<string>, nextAction: Option<string>, report: Report, evidence: seq<string>, rawEvents: nat)

  predicate Recorded(checkpoints: seq<Checkpoint>, fingerprint: Fingerprint) {
    exists i :: 0 <= i < |checkpoints| && checkpoints[i].fingerprint == fingerprint
  }

  /** COALESCE(MAX(sequence), 0). */
  function MaxSequence(checkpoints: seq<Checkpoint>): (m: nat)
    ensures forall i :: 0 <= i < |checkpoints| ==> checkpoints[i].sequence <= m
    ensures m == 0 || exists i :: 0 <= i < |checkpoints| && checkpoints[i].sequence == m
  {
    if checkpoints == [] then 0
    else
      var n := |checkpoints| - 1;
      var before := MaxSequence(checkpoints[..n]);
      if checkpoints[n].sequence > before then checkpoints[n].sequence else before
  }

  function CreateCheckpoint(s: Store, expected: nat, o: Observed): Outcome {
    if s.task.revision != expected then Err(Stale)
    else if Recorded(s.checkpoints, o.fingerprint) then Ok(s)
    else
      var requiresReview := o.checkpointType != Heartbeat;
      var t := if requiresReview then Bump(s.task).(phase := SupervisorReview) else s.task;
      var row := Checkpoint(MaxSequence(s.checkpoints) + 1, o.checkpointType,
                            t.revision, t.intentVersion, t.planVersion,
                            o.identity, o.remoteStatus, o.nextAction, Strip(o.trigger), o.report, o.evidence,
                            o.fingerprint, o.rawEvents, requiresReview);
      Ok(Log(s.(task := t, checkpoints := s.checkpoints + [row]),
             Codex, CheckpointCreated(|s.checkpoints|, requiresReview)))
  }

  predicate Reviewed(reviews: seq<Review>, checkpoint: nat) {
    exists i :: 0 <= i < |reviews| && reviews[i].checkpoint == checkpoint
  }

  /** The unreviewed review-requiring checkpoints, in sequence order; the newest is last. */
  function Pending(checkpoints: seq<Checkpoint>, reviews: seq<Review>): (ids: seq<nat>)
    ensures forall i :: i in ids <==>
                        0 <= i < |checkpoints| && checkpoints[i].requiresReview && !Reviewed(reviews, i)
  {
    if checkpoints == [] then []
    else
      var n := |checkpoints| - 1;
      var before := Pending(checkpoints[..n], reviews);
      if checkpoints[n].requiresReview && !Reviewed(reviews, n) then before + [n] else before
  }

  function PhaseAfter(verdict: ReviewDecision): TaskPhase {
    match verdict
    case Interrupt => SupervisorReview
    case ReplanWork => SupervisorReview
    case Accept => FinalReview
    case _ => Implementing
  }

  /** `(instruction or "").strip() or None`. */
  function Instruction(text: Option<string>): Option<string> {
    if text.None? || Blank(text.value) then None else Some(Strip(text.value))
  }

  function ReviewTaskCheckpoint(s: Store, expected: nat, checkpoint: nat, verdict: ReviewDecision,
                                instruction: Option<string>): Outcome {
    if verdict == Steer && Instruction(instruction).None? then Err(BadValue)
    else if s.task.revision != expected then Err(Stale)
    else if checkpoint >= |s.checkpoints| then Err(Conflict)
    else if !s.checkpoints[checkpoint].requiresReview then Err(Conflict)
    else if Reviewed(s.reviews, checkpoint) then Err(Conflict)
    else
      var pending := Pending(s.checkpoints, s.reviews);
      if pending == [] || pending[|pending| - 1] != checkpoint then Err(Conflict)
      else
        var t := Bump(s.task).(phase := PhaseAfter(verdict));
        Ok(Log(s.(task := t,
                  reviews := s.reviews + [Review(checkpoint, verdict, Instruction(instruction), t.revision)]),
               Supervisor, CheckpointReviewed(checkpoint, verdict)))
  }

  function AttemptCheckpoint(s: Store, step: CheckpointStep): Outcome {
    match step
    case Capture(expected, observed) => CreateCheckpoint(s, expected, observed)
    case ReviewCheckpoint(expected, checkpoint, verdict, instruction) =>
      ReviewTaskCheckpoint(s, expected, checkpoint, verdict, instruction)
  }
}
