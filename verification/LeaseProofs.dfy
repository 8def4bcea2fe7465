/** The writer lease: mode compatibility, no resurrection of an ended tenure, and who may delegate to Codex. */
module LeaseProofs {
  import opened Prelude
  import opened Model
  import opened ExecutionTx
  import opened WorkspaceTx
  import opened AgentTx
  import opened MemoryTx
  import opened CheckpointTx
  import opened ReplanTx
  import opened Steps
  import opened RevisionProofs
  import opened OperationProofs
  import opened LogProofs
  import opened AuditProofs

  predicate LeaseInv(s: Store) {
    && (s.exec.writer == ChatGpt ==> s.exec.mode != CodexSupervised)
    && (s.exec.writer == CodexWriter ==> s.exec.mode != Direct)
    && (s.exec.acquired.None? <==> s.exec.writer == NoWriter)
    && (s.exec.acquired.Some? ==> s.exec.acquired.value <= s.task.revision)
    && (s.exec.writer != NoWriter ==> s.exec.epoch >= 1)
  }

  /** Only the execution transactions touch the lease row. */
  lemma OthersKeepLease(s: Store, step: Step)
    requires !step.LeaseOp?
    ensures Apply(s, step).exec == s.exec
  {
    match step
    case WorkspaceOp(w) =>
    case AgentOp(a) =>
    case _ => OtherStepsKeepLease(s, step);
  }

  /** How one lease step may move (writer, epoch): a new holder always brings a new epoch. */
  predicate LeaseMove(before: Execution, after: Execution) {
    || (after.writer == before.writer && after.epoch == before.epoch)
    || (after.writer == NoWriter && after.epoch == before.epoch)
    || after.epoch == before.epoch + 1
  }

  lemma LeaseStep(s: Store, e: ExecutionStep)
    requires LeaseInv(s)
    ensures LeaseInv(After(s, AttemptExecution(s, e)))
    ensures LeaseMove(s.exec, After(s, AttemptExecution(s, e)).exec)
  {
  }

  lemma StepKeepsLease(s: Store, step: Step)
    requires LeaseInv(s)
    ensures LeaseInv(Apply(s, step)) && LeaseMove(s.exec, Apply(s, step).exec)
  {
    hide AttemptExecution, AttemptWorkspace, AttemptAgent, AttemptMemory, AttemptCheckpoint, AttemptReplan;
    if step.LeaseOp? {
      LeaseStep(s, step.execution);
    } else {
      OthersKeepLease(s, step);
      StepRevision(s, step);
    }
  }

  lemma {:induction false} RunKeepsLease(s: Store, steps: seq<Step>)
    requires LeaseInv(s)
    ensures LeaseInv(Run(s, steps)) && s.exec.epoch <= Run(s, steps).exec.epoch
  {
    hide Attempt;
    if steps != [] {
      var n := |steps| - 1;
      RunKeepsLease(s, steps[..n]);
      StepKeepsLease(Run(s, steps[..n]), steps[n]);
    }
  }

  /** From a new task the epoch is the number of acquisitions and handoffs in the log. */
  lemma EpochCountsTenures(s: Store, steps: seq<Step>)
    requires Replay(FRESH, s.events) == Tables(s)
    ensures Replay(FRESH, Run(s, steps).events).tenures == Run(s, steps).exec.epoch
  {
    hide Attempt, Run;
    LogRebuildsTables(s, steps);
  }

  /** The tenure (writer, epoch) is over, or has not begun. */
  predicate Ended(s: Store, writer: ActiveWriter, epoch: nat) {
    s.exec.epoch > epoch || (s.exec.epoch == epoch && s.exec.writer != writer)
  }

  /** No ABA: an ended tenure never comes back. */
  lemma {:induction false} EndedForGood(s: Store, steps: seq<Step>, writer: ActiveWriter, epoch: nat)
    requires LeaseInv(s) && writer != NoWriter && Ended(s, writer, epoch)
    ensures Ended(Run(s, steps), writer, epoch)
  {
    hide Attempt;
    if steps != [] {
      var n := |steps| - 1;
      EndedForGood(s, steps[..n], writer, epoch);
      RunKeepsLease(s, steps[..n]);
      StepKeepsLease(Run(s, steps[..n]), steps[n]);
    }
  }

  /** Once a held tenure is gone, every later point of the run has it ended. */
  lemma TenureOnce(s: Store, steps: seq<Step>, i: nat, j: nat, k: nat)
    requires LeaseInv(s) && i <= j <= k <= |steps|
    requires At(s, steps, i).exec.writer != NoWriter
    requires var a, b := At(s, steps, i).exec, At(s, steps, j).exec; a.writer != b.writer || a.epoch != b.epoch
    ensures Ended(At(s, steps, k), At(s, steps, i).exec.writer, At(s, steps, i).exec.epoch)
  {
    hide Attempt, Run;
    RunKeepsLease(s, steps[..i]);
    RunKeepsLease(s, steps[..j]);
    Between(s, steps, i, j);
    Between(s, steps, j, k);
    RunKeepsLease(At(s, steps, i), steps[i..j]);
    EndedForGood(At(s, steps, j), steps[j..k], At(s, steps, i).exec.writer, At(s, steps, i).exec.epoch);
  }

  /** Every lease-carrying store call made for an ended tenure is rejected and changes nothing. */
  lemma EndedTenureRejected(s: Store, writer: ActiveWriter, epoch: nat, step: Step)
    requires Ended(s, writer, epoch) && writer != NoWriter
    requires || (step.LeaseOp? && step.execution.Release? && step.execution.writer == writer
                 && step.execution.epoch == epoch)
             || (step.LeaseOp? && step.execution.HandOver? && step.execution.request.from == writer
                 && step.execution.request.epoch == epoch)
             || (step.WorkspaceOp? && step.workspace.Prepare? && step.workspace.epoch == epoch && writer == ChatGpt)
    ensures Attempt(s, step).Err? && Apply(s, step) == s
  {
  }

  /** The log grants automatic delegation: the last policy change is the user's SUPERVISOR_ALLOWED. */
  ghost predicate Granted(events: seq<Event>) {
    exists i :: 0 <= i < |events|
                && events[i].kind.PolicyChanged? && events[i].kind.toPolicy == SupervisorAllowed
                  && events[i].actor == User
                && forall j :: i < j < |events| ==>
                     !(events[j].kind.PolicyChanged? && events[j].kind.toPolicy == ManualOnly)
  }

  lemma {:induction false} AllowedMeansGranted(events: seq<Event>)
    requires Replay(FRESH, events).policy == SupervisorAllowed
    requires forall i :: 0 <= i < |events| ==> GrantByUser(events[i])
    ensures Granted(events)
  {
    if events != [] {
      var n := |events| - 1;
      var last := events[n];
      if last.kind.PolicyChanged? {
        assert GrantByUser(last);
      } else {
        AllowedMeansGranted(events[..n]);
        var i :| 0 <= i < n
                 && events[..n][i].kind.PolicyChanged? && events[..n][i].kind.toPolicy == SupervisorAllowed
                 && events[..n][i].actor == User
                 && forall j :: i < j < n ==>
                      !(events[..n][j].kind.PolicyChanged? && events[..n][j].kind.toPolicy == ManualOnly);
        assert forall j :: i < j < n ==> events[..n][j] == events[j];
        assert events[i] == events[..n][i];
      }
    }
  }

  /** The step asks for a Codex lease without the user acting or explicitly authorising it. */
  predicate DelegatesToCodex(e: ExecutionStep) {
    || (e.Acquire? && e.writer == CodexWriter && e.actor != User && !e.authorized)
    || (e.HandOver? && e.request.to == CodexWriter && e.request.actor != User && !e.request.authorized)
  }

  /** In HYBRID mode the Supervisor gives Codex the lease only under a standing user grant. */
  lemma DelegationIsGranted(s: Store, steps: seq<Step>, e: ExecutionStep)
    requires Replay(FRESH, s.events) == Tables(s) && Chronological(s)
    requires var t := Run(s, steps);
             t.exec.mode == Hybrid && DelegatesToCodex(e) && AttemptExecution(t, e).Ok?
    ensures Granted(Run(s, steps).events)
  {
    hide Attempt, Run;
    LogRebuildsTables(s, steps);
    RunIsChronological(s, steps);
    AllowedMeansGranted(Run(s, steps).events);
  }
}
