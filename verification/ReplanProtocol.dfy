/** supervisor/replans.py: begin or retry a hard replan, interrupt the remote turn, finalise under the fence. */
module ReplanProtocol {
  import opened Prelude
  import opened Text
  import opened Model
  import opened MemoryTx
  import opened ReplanTx
  import opened Steps
  import opened ExecutionTx
  import opened WorkspaceTx
  import opened AgentTx
  import opened CheckpointTx
  import opened RevisionProofs
  import opened ReplanProofs

  /** CodexControlError carries its text; any other exception is re-raised after it was recorded. */
  datatype RemoteReply = Returned | ControlError(text: string) | Unexpected

  datatype ServiceOutcome =
    | NotBegun(error: Error)
    | Finalized(succeeded: bool)
    | Reraised                          // recorded as failed, and then the unexpected exception goes on
    | FinalizeRejected(error: Error)

  /** `any(identifiers.values())`. */
  predicate Interruptible(id: RemoteIdentity) {
    Truthy(id.workflow) || Truthy(id.operation) || Truthy(id.thread) || Truthy(id.turn)
  }

  function BeginFailure(): string {
    "unexpected remote interrupt failure"
  }

  function RetryFailure(): string {
    "unexpected remote interrupt retry failure"
  }

  function ErrorText(reply: RemoteReply, unexpected: string): Option<string> {
    match reply
    case Returned => None
    case ControlError(text) => Some(text)
    case Unexpected => Some(unexpected)
  }

  function Finish(s: Store, expected: nat, replan: nat, succeeded: bool, error: Option<string>,
                  recorded: ServiceOutcome)
    : (Store, ServiceOutcome)
  {
    match FinalizeInterrupt(s, expected, replan, succeeded, error)
    case Ok(t) => (t, recorded)
    case Err(e) => (s, FinalizeRejected(e))
  }

  /** What the service answers once the reply was recorded. */
  function Concluded(reply: RemoteReply): ServiceOutcome {
    match reply
    case Returned => Finalized(true)
    case ControlError(_) => Finalized(false)
    case Unexpected => Reraised
  }

  /** What `begin` and `retry_interrupt` share once the replan is INTERRUPT_PENDING. */
  function Interrupting(s: Store, replan: nat, id: RemoteIdentity, during: seq<Step>, reply: RemoteReply,
                        unexpected: string): (Store, ServiceOutcome)
  {
    if !Interruptible(id) then Finish(s, s.task.revision, replan, true, None, Finalized(true))
    else
      Finish(Run(s, during), s.task.revision, replan, reply.Returned?, ErrorText(reply, unexpected), Concluded(reply))
  }

  function BeginService(s: Store, expected: nat, goal: string, reason: string, during: seq<Step>, reply: RemoteReply)
    : (Store, ServiceOutcome)
  {
    match BeginHardReplan(s, expected, goal, reason)
    case Err(e) => (s, NotBegun(e))
    case Ok(t) => Interrupting(t, |s.replans|, t.snapshots[|s.snapshots|].facts.identity, during, reply, BeginFailure())
  }

  function RetryService(s: Store, expected: nat, replan: nat, during: seq<Step>, reply: RemoteReply)
    : (Store, ServiceOutcome)
  {
    match PrepareInterruptRetry(s, expected, replan)
    case Err(e) => (s, NotBegun(e))
    case Ok(t) =>
      Interrupting(t, replan, s.snapshots[s.replans[replan].snapshot].facts.identity, during, reply, RetryFailure())
  }

  /** The replan is INTERRUPT_PENDING and its snapshot is there. */
  predicate AwaitsInterrupt(s: Store, replan: nat) {
    replan < |s.replans| && s.replans[replan].status == InterruptPending && s.replans[replan].snapshot < |s.snapshots|
  }

  /** The replan steps that leave the revision alone move only replans past the interrupt. */
  lemma BindingKeepsPending(s: Store, r: ReplanStep, replan: nat)
    requires AwaitsInterrupt(s, replan) && (r.BindWorkflow? || r.BindPlanReview? || r.CompleteOnExecution?)
    ensures AwaitsInterrupt(After(s, AttemptReplan(s, r)), replan)
  {
  }

  lemma FencedReplanAdvances(s: Store, r: ReplanStep)
    requires !(r.BindWorkflow? || r.BindPlanReview? || r.CompleteOnExecution?) && AttemptReplan(s, r).Ok?
    ensures AttemptReplan(s, r).store.task.revision > s.task.revision
  {
    hide Blank, Strip, UpdateWhere, PutPlans, PutDecisions, OverrideEvents, Withdrawals, Put;
  }

  lemma StepKeepsPending(s: Store, step: Step, replan: nat)
    requires AwaitsInterrupt(s, replan) && Apply(s, step).task.revision == s.task.revision
    ensures AwaitsInterrupt(Apply(s, step), replan)
  {
    hide AttemptExecution, AttemptWorkspace, AttemptAgent, AttemptMemory, AttemptCheckpoint, AttemptReplan;
    if !step.ReplanOp? {
      OthersKeepReplans(s, step);
    } else if step.replan.BindWorkflow? || step.replan.BindPlanReview? || step.replan.CompleteOnExecution? {
      BindingKeepsPending(s, step.replan, replan);
    } else if AttemptReplan(s, step.replan).Ok? {
      FencedReplanAdvances(s, step.replan);
    }
  }

  /** Steps that do not move the revision leave a pending interrupt pending. */
  lemma {:induction false} InterruptStaysPending(s: Store, steps: seq<Step>, replan: nat)
    requires AwaitsInterrupt(s, replan) && Run(s, steps).task.revision == s.task.revision
    ensures AwaitsInterrupt(Run(s, steps), replan)
  {
    hide Attempt;
    if steps != [] {
      var n := |steps| - 1;
      RunRevision(s, steps[..n]);
      StepRevision(Run(s, steps[..n]), steps[n]);
      InterruptStaysPending(s, steps[..n], replan);
      StepKeepsPending(Run(s, steps[..n]), steps[n], replan);
    }
  }

  /** The interrupt is over: it returned, or there was nothing to interrupt. */
  predicate Settled(id: RemoteIdentity, reply: RemoteReply) {
    !Interruptible(id) || reply.Returned?
  }

  function Answer(id: RemoteIdentity, reply: RemoteReply): ServiceOutcome {
    if Interruptible(id) then Concluded(reply) else Finalized(true)
  }

  /** The environment left the revision alone, or there was no wait at all. */
  predicate Undisturbed(s: Store, id: RemoteIdentity, during: seq<Step>) {
    !Interruptible(id) || Run(s, during).task.revision == s.task.revision
  }

  /**
   The service fence: finalising takes effect exactly when nothing advanced the revision during the interrupt; then the
   replan is SNAPSHOT_READY iff the interrupt is settled and INTERRUPT_FAILED otherwise. A rejected finalise leaves the
   store exactly as the intervening steps left it.
   */
  lemma InterruptFence(s: Store, replan: nat, id: RemoteIdentity, during: seq<Step>, reply: RemoteReply,
                       unexpected: string)
    requires AwaitsInterrupt(s, replan)
    ensures var (t, outcome) := Interrupting(s, replan, id, during, reply, unexpected);
            && (outcome == Answer(id, reply) <==> Undisturbed(s, id, during))
            && (Undisturbed(s, id, during) ==>
                  replan < |t.replans| && t.task.revision == s.task.revision + 1
                  && t.replans[replan].status == (if Settled(id, reply) then SnapshotReady else InterruptFailed)
                  && t.task.phase == (if Settled(id, reply) then Paused else Blocked))
            && (!Undisturbed(s, id, during) ==> outcome == FinalizeRejected(Stale) && t == Run(s, during))
  {
    hide Attempt, Run, Interruptible;
    if Undisturbed(s, id, during) && Interruptible(id) {
      InterruptStaysPending(s, during, replan);
    }
  }

  /** `begin`: fenced from the revision at which it withdrew the old plans. */
  lemma BeginFence(s: Store, expected: nat, goal: string, reason: string, during: seq<Step>, reply: RemoteReply)
    requires ReplanInv(s) && BeginHardReplan(s, expected, goal, reason).Ok?
    ensures var b := BeginHardReplan(s, expected, goal, reason).store;
            var id := b.snapshots[|s.snapshots|].facts.identity;
            var (t, outcome) := BeginService(s, expected, goal, reason, during, reply);
            && (outcome == Answer(id, reply) <==> Undisturbed(b, id, during))
            && (Undisturbed(b, id, during) ==>
                  |s.replans| < |t.replans|
                  && t.replans[|s.replans|].status == (if Settled(id, reply) then SnapshotReady else InterruptFailed))
            && (!Undisturbed(b, id, during) ==> outcome == FinalizeRejected(Stale) && t == Run(b, during))
  {
    hide Attempt, Run, Interruptible, Interrupting, BeginFailure, RetryFailure;
    var b := BeginHardReplan(s, expected, goal, reason).store;
    InterruptFence(b, |s.replans|, b.snapshots[|s.snapshots|].facts.identity, during, reply, BeginFailure());
  }

  /** `retry_interrupt`: the same fence, only from INTERRUPT_FAILED. */
  lemma RetryFence(s: Store, expected: nat, replan: nat, during: seq<Step>, reply: RemoteReply)
    requires PrepareInterruptRetry(s, expected, replan).Ok?
    ensures s.replans[replan].status == InterruptFailed
    ensures var b := PrepareInterruptRetry(s, expected, replan).store;
            var id := s.snapshots[s.replans[replan].snapshot].facts.identity;
            var (t, outcome) := RetryService(s, expected, replan, during, reply);
            && (outcome == Answer(id, reply) <==> Undisturbed(b, id, during))
            && (Undisturbed(b, id, during) ==>
                  replan < |t.replans|
                  && t.replans[replan].status == (if Settled(id, reply) then SnapshotReady else InterruptFailed))
            && (!Undisturbed(b, id, during) ==> outcome == FinalizeRejected(Stale) && t == Run(b, during))
  {
    hide Attempt, Run, Interruptible, Interrupting, BeginFailure, RetryFailure;
    var b := PrepareInterruptRetry(s, expected, replan).store;
    InterruptFence(b, replan, s.snapshots[s.replans[replan].snapshot].facts.identity, during, reply, RetryFailure());
  }
}
