/** Checkpoints and their reviews: contiguous sequences, and a review queue that is a stack. */
module ReviewProofs {
  import opened Prelude
  import opened Text
  import opened Model
  import opened ExecutionTx
  import opened WorkspaceTx
  import opened AgentTx
  import opened MemoryTx
  import opened CheckpointTx
  import opened ReplanTx
  import opened Steps
  import opened RevisionProofs
  import opened AuditProofs

  /** One event on the stack of checkpoints awaiting review; None once the word is not well nested. */
  function Stacked(stack: Option<seq<nat>>, e: Event): Option<seq<nat>> {
    if stack.None? then None
    else
      match e.kind
      case CheckpointCreated(id, requiresReview) => if requiresReview then Some(stack.value + [id]) else stack
      case CheckpointReviewed(id, _) =>
        var n := |stack.value|;
        if n > 0 && stack.value[n - 1] == id then Some(stack.value[..n - 1]) else None
      case _ => stack
  }

  function Stack(events: seq<Event>): Option<seq<nat>> {
    if events == [] then Some([]) else Stacked(Stack(events[..|events| - 1]), events[|events| - 1])
  }

  ghost predicate ReviewInv(s: Store) {
    && (forall i :: 0 <= i < |s.checkpoints| ==>
          s.checkpoints[i].sequence == i + 1 && s.checkpoints[i].revision <= s.task.revision)
    && (forall i, j :: 0 <= i < j < |s.checkpoints| ==> s.checkpoints[i].fingerprint != s.checkpoints[j].fingerprint)
    && (forall k :: 0 <= k < |s.reviews| ==>
          && s.reviews[k].checkpoint < |s.checkpoints|
          && s.checkpoints[s.reviews[k].checkpoint].requiresReview
          && s.checkpoints[s.reviews[k].checkpoint].revision < s.reviews[k].revision <= s.task.revision)
    && (forall k, l :: 0 <= k < l < |s.reviews| ==> s.reviews[k].checkpoint != s.reviews[l].checkpoint)
  }

  lemma MemoryKeepsReviews(s: Store, m: MemoryStep)
    ensures var t := After(s, AttemptMemory(s, m)); t.checkpoints == s.checkpoints && t.reviews == s.reviews
  {
  }

  lemma ReplanKeepsReviews(s: Store, r: ReplanStep)
    ensures var t := After(s, AttemptReplan(s, r)); t.checkpoints == s.checkpoints && t.reviews == s.reviews
  {
  }

  lemma OthersKeepReviews(s: Store, step: Step)
    requires !step.CheckpointOp?
    ensures var t := Apply(s, step); t.checkpoints == s.checkpoints && t.reviews == s.reviews
  {
    hide AttemptMemory, AttemptReplan;
    match step
    case MemoryOp(m) => MemoryKeepsReviews(s, m);
    case ReplanOp(r) => ReplanKeepsReviews(s, r);
    case _ =>
  }

  lemma CreationKeepsReviews(s: Store, expected: nat, o: Observed)
    requires ReviewInv(s)
    ensures ReviewInv(After(s, CreateCheckpoint(s, expected, o)))
  {
    hide Strip;
  }

  lemma ReviewKeepsReviews(s: Store, expected: nat, id: nat, verdict: ReviewDecision, instruction: Option<string>)
    requires ReviewInv(s)
    ensures ReviewInv(After(s, ReviewTaskCheckpoint(s, expected, id, verdict, instruction)))
  {
    hide Pending, Instruction;
  }

  lemma CheckpointKeepsReviews(s: Store, c: CheckpointStep)
    requires ReviewInv(s)
    ensures ReviewInv(After(s, AttemptCheckpoint(s, c)))
  {
    hide CreateCheckpoint, ReviewTaskCheckpoint, ReviewInv;
    match c
    case Capture(expected, o) => CreationKeepsReviews(s, expected, o);
    case ReviewCheckpoint(expected, id, verdict, instruction) =>
      ReviewKeepsReviews(s, expected, id, verdict, instruction);
  }

  lemma StepKeepsReviews(s: Store, step: Step)
    requires ReviewInv(s)
    ensures ReviewInv(Apply(s, step))
  {
    hide AttemptExecution, AttemptWorkspace, AttemptAgent, AttemptMemory, AttemptCheckpoint, AttemptReplan;
    if step.CheckpointOp? {
      CheckpointKeepsReviews(s, step.checkpoint);
    } else {
      OthersKeepReviews(s, step);
      StepRevision(s, step);
    }
  }

  /** A review removes exactly the newest pending checkpoint from the queue. */
  lemma {:induction false} PendingAfterReview(checkpoints: seq<Checkpoint>, reviews: seq<Review>, r: Review)
    ensures var p, q := Pending(checkpoints, reviews), Pending(checkpoints, reviews + [r]);
            && (r.checkpoint !in p ==> q == p)
            && (p != [] && p[|p| - 1] == r.checkpoint ==> q == p[..|p| - 1])
  {
    if checkpoints != [] {
      var n := |checkpoints| - 1;
      PendingAfterReview(checkpoints[..n], reviews, r);
      ReviewedAfter(reviews, r, n);
    }
  }

  lemma ReviewedAfter(reviews: seq<Review>, r: Review, id: nat)
    ensures Reviewed(reviews + [r], id) <==> Reviewed(reviews, id) || r.checkpoint == id
  {
    var all := reviews + [r];
    assert all[|reviews|] == r;
    assert forall i :: 0 <= i < |reviews| ==> all[i] == reviews[i];
  }

  /** Creation pushes on the queue; a heartbeat leaves it alone. */
  lemma CreatePushes(s: Store, expected: nat, o: Observed)
    requires ReviewInv(s) && CreateCheckpoint(s, expected, o).Ok?
    ensures var t := CreateCheckpoint(s, expected, o).store;
            Pending(t.checkpoints, t.reviews)
            == Pending(s.checkpoints, s.reviews)
               + (if t != s && o.checkpointType != Heartbeat then [|s.checkpoints|] else [])
  {
    var t := CreateCheckpoint(s, expected, o).store;
    if t != s {
      assert t.checkpoints[..|s.checkpoints|] == s.checkpoints;
      assert !Reviewed(s.reviews, |s.checkpoints|);
    }
  }

  /** Review pops the queue. */
  lemma ReviewPops(s: Store, expected: nat, id: nat, verdict: ReviewDecision, instruction: Option<string>)
    requires ReviewTaskCheckpoint(s, expected, id, verdict, instruction).Ok?
    ensures var t := ReviewTaskCheckpoint(s, expected, id, verdict, instruction).store;
            Pending(s.checkpoints, s.reviews) == Pending(t.checkpoints, t.reviews) + [id]
  {
    var t := ReviewTaskCheckpoint(s, expected, id, verdict, instruction).store;
    PendingAfterReview(s.checkpoints, s.reviews, t.reviews[|s.reviews|]);
    var p := Pending(s.checkpoints, s.reviews);
    assert p == p[..|p| - 1] + [p[|p| - 1]];
  }

  lemma {:induction false} SilentEvents(events: seq<Event>, more: seq<Event>)
    requires forall k :: 0 <= k < |more| ==> !AboutReview(more[k].kind)
    ensures Stack(events + more) == Stack(events)
  {
    if more == [] {
      assert events + more == events;
    } else {
      var n := |more| - 1;
      SilentEvents(events, more[..n]);
      assert (events + more)[..|events + more| - 1] == events + more[..n];
    }
  }

  lemma StackSnoc(events: seq<Event>, e: Event)
    ensures Stack(events + [e]) == Stacked(Stack(events), e)
  {
    assert (events + [e])[..|events|] == events;
  }

  /** The log describes the queue: its checkpoint events are a prefix of a well-nested word. */
  ghost predicate WellNested(s: Store) {
    Stack(s.events) == Some(Pending(s.checkpoints, s.reviews))
  }

  lemma CaptureNests(s: Store, expected: nat, o: Observed)
    requires ReviewInv(s) && WellNested(s) && CreateCheckpoint(s, expected, o).Ok?
    ensures WellNested(CreateCheckpoint(s, expected, o).store)
  {
    hide Pending, Stack, Recorded, MaxSequence, ReviewInv;
    var t := CreateCheckpoint(s, expected, o).store;
    CreatePushes(s, expected, o);
    var queue := Pending(s.checkpoints, s.reviews);
    assert queue + [] == queue;
    if t != s {
      StackSnoc(s.events, t.events[|s.events|]);
    }
  }

  lemma ReviewNests(s: Store, expected: nat, id: nat, verdict: ReviewDecision, instruction: Option<string>)
    requires WellNested(s) && ReviewTaskCheckpoint(s, expected, id, verdict, instruction).Ok?
    ensures WellNested(ReviewTaskCheckpoint(s, expected, id, verdict, instruction).store)
  {
    hide Pending, Stack;
    var t := ReviewTaskCheckpoint(s, expected, id, verdict, instruction).store;
    ReviewPops(s, expected, id, verdict, instruction);
    StackSnoc(s.events, t.events[|s.events|]);
    var rest := Pending(t.checkpoints, t.reviews);
    assert (rest + [id])[..|rest|] == rest;
  }

  lemma CheckpointNests(s: Store, c: CheckpointStep)
    requires ReviewInv(s) && WellNested(s)
    ensures WellNested(After(s, AttemptCheckpoint(s, c)))
  {
    hide CreateCheckpoint, ReviewTaskCheckpoint;
    if AttemptCheckpoint(s, c).Ok? {
      match c
      case Capture(expected, o) => CaptureNests(s, expected, o);
      case ReviewCheckpoint(expected, id, verdict, instruction) => ReviewNests(s, expected, id, verdict, instruction);
    }
  }

  lemma StepNests(s: Store, step: Step)
    requires ReviewInv(s) && WellNested(s)
    ensures WellNested(Apply(s, step))
  {
    hide AttemptExecution, AttemptWorkspace, AttemptAgent, AttemptMemory, AttemptCheckpoint, AttemptReplan;
    if step.CheckpointOp? {
      CheckpointNests(s, step.checkpoint);
    } else {
      var t := Apply(s, step);
      OthersKeepReviews(s, step);
      StepStamps(s, step);
      assert t.events == s.events + t.events[|s.events|..];
      SilentEvents(s.events, t.events[|s.events|..]);
    }
  }

  /** Review is a stack, in every run. */
  lemma {:induction false} ReviewIsAStack(s: Store, steps: seq<Step>)
    requires ReviewInv(s) && WellNested(s)
    ensures ReviewInv(Run(s, steps)) && WellNested(Run(s, steps))
  {
    hide Attempt;
    if steps != [] {
      var n := |steps| - 1;
      ReviewIsAStack(s, steps[..n]);
      StepKeepsReviews(Run(s, steps[..n]), steps[n]);
      StepNests(Run(s, steps[..n]), steps[n]);
    }
  }
}
