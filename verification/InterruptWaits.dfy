/**
 How a pending interrupt ends: in the store, exactly by an accepted finalise of its replan or an accepted hard replan;
 and through the service, once its finalise was rejected, by a new hard replan alone.
 */
module InterruptWaits {
  import opened Prelude
  import opened Text
  import opened Model
  import opened MemoryTx
  import opened ReplanTx
  import opened Steps
  import opened ExecutionTx
  import opened WorkspaceTx
  import opened AgentTx
  import opened CheckpointTx
  import opened RevisionProofs
  import opened ReplanProofs
  import opened ReplanProtocol

  /** An accepted hard replan, or an accepted finalise of this replan. */
  predicate EndsInterrupt(s: Store, step: Step, replan: nat) {
    && step.ReplanOp?
    && (step.replan.Begin? || (step.replan.Finalize? && step.replan.replan == replan))
    && AttemptReplan(s, step.replan).Ok?
  }

  lemma BeginEnds(s: Store, expected: nat, goal: string, reason: string, replan: nat)
    requires AwaitsInterrupt(s, replan) && BeginHardReplan(s, expected, goal, reason).Ok?
    ensures !AwaitsInterrupt(BeginHardReplan(s, expected, goal, reason).store, replan)
  {
    hide Blank, Strip, PutPlans, PutDecisions, OverrideEvents, Withdrawals, Where, WhereDesc;
  }

  /** Under the lifecycle invariant no other replan can be finalised meanwhile. */
  lemma FinalizeEnds(s: Store, expected: nat, id: nat, succeeded: bool, error: Option<string>, replan: nat)
    requires ReplanInv(s) && AwaitsInterrupt(s, replan)
    ensures var o := FinalizeInterrupt(s, expected, id, succeeded, error);
            && (o.Ok? ==> id == replan)
            && (o.Ok? ==> !AwaitsInterrupt(o.store, replan))
  {
  }

  lemma ClassifyKeepsPending(s: Store, expected: nat, snapshot: nat, c: Classification, replan: nat)
    requires AwaitsInterrupt(s, replan)
    ensures AwaitsInterrupt(After(s, ClassifyWorkSnapshot(s, expected, snapshot, c)), replan)
  {
    hide Disjoint, Blank, Strip, Put;
  }

  /** The wait is ended by exactly these steps. */
  lemma WaitEndsExactlyBy(s: Store, step: Step, replan: nat)
    requires ReplanInv(s) && AwaitsInterrupt(s, replan)
    ensures !AwaitsInterrupt(Apply(s, step), replan) <==> EndsInterrupt(s, step, replan)
  {
    hide AttemptExecution, AttemptWorkspace, AttemptAgent, AttemptMemory, AttemptCheckpoint, ReplanInv,
         BeginHardReplan, ClassifyWorkSnapshot, FinalizeInterrupt;
    if !step.ReplanOp? {
      OthersKeepReplans(s, step);
    } else {
      match step.replan
      case Begin(expected, goal, reason) =>
        if BeginHardReplan(s, expected, goal, reason).Ok? { BeginEnds(s, expected, goal, reason, replan); }
      case Finalize(expected, id, succeeded, error) => FinalizeEnds(s, expected, id, succeeded, error, replan);
      case Classify(expected, snapshot, sorted) => ClassifyKeepsPending(s, expected, snapshot, sorted, replan);
      case _ =>
    }
  }

  /** No point of the run, up to its end, has the replan out of INTERRUPT_PENDING. */
  ghost predicate WaitsThroughout(s: Store, steps: seq<Step>, replan: nat) {
    forall k :: 0 <= k <= |steps| ==> AwaitsInterrupt(At(s, steps, k), replan)
  }

  /** Over runs: the replan waits at every point exactly when no step of the run ends the wait. */
  lemma {:induction false} WaitsExactlyUntil(s: Store, steps: seq<Step>, replan: nat)
    requires ReplanInv(s) && AwaitsInterrupt(s, replan)
    ensures WaitsThroughout(s, steps, replan)
            <==> forall k :: 0 <= k < |steps| ==> !EndsInterrupt(At(s, steps, k), steps[k], replan)
  {
    hide Attempt, AwaitsInterrupt, EndsInterrupt, ReplanInv, Run;
    if forall k :: 0 <= k < |steps| ==> !EndsInterrupt(At(s, steps, k), steps[k], replan) {
      forall k | 0 <= k <= |steps| ensures AwaitsInterrupt(At(s, steps, k), replan) {
        WaitsUpTo(s, steps, replan, k);
      }
    }
    if WaitsThroughout(s, steps, replan) {
      forall k | 0 <= k < |steps| ensures !EndsInterrupt(At(s, steps, k), steps[k], replan) {
        RunKeepsReplans(s, steps[..k]);
        WaitEndsExactlyBy(At(s, steps, k), steps[k], replan);
        NextStore(s, steps, k);
        assert AwaitsInterrupt(At(s, steps, k + 1), replan);
      }
    }
  }

  lemma {:induction false} WaitsUpTo(s: Store, steps: seq<Step>, replan: nat, k: nat)
    requires ReplanInv(s) && AwaitsInterrupt(s, replan) && k <= |steps|
    requires forall i :: 0 <= i < k ==> !EndsInterrupt(At(s, steps, i), steps[i], replan)
    ensures AwaitsInterrupt(At(s, steps, k), replan)
  {
    hide Attempt, AwaitsInterrupt, EndsInterrupt, ReplanInv, Run;
    if k == 0 {
      Ends(s, steps);
    } else {
      WaitsUpTo(s, steps, replan, k - 1);
      RunKeepsReplans(s, steps[..k - 1]);
      WaitEndsExactlyBy(At(s, steps, k - 1), steps[k - 1], replan);
      NextStore(s, steps, k - 1);
    }
  }

  // ---- the service: calls in flight, interleaved with every other transaction ----

  /** A call of `begin` or `retry_interrupt` that awaits its remote interrupt. */
  datatype Call = Call(replan: nat, expected: nat, identity: RemoteIdentity, answered: bool)

  datatype Office = Office(store: Store, calls: seq<Call>)

  datatype Act =
    | Other(step: Step)                                       // any transaction but those of the service
    | BeginCall(expected: nat, goal: string, reason: string)
    | RetryCall(expected: nat, replan: nat)
    | CallAnswered(call: nat, reply: RemoteReply, unexpected: string)

  /** Only the service begins, finalises and retries. */
  predicate ServiceStep(step: Step) {
    step.ReplanOp? && (step.replan.Begin? || step.replan.Finalize? || step.replan.RetryInterrupt?)
  }

  predicate Enabled(o: Office, a: Act) {
    match a
    case Other(step) => !ServiceStep(step)
    case BeginCall(_, _, _) => true
    case RetryCall(_, _) => true
    case CallAnswered(id, _, _) => id < |o.calls| && !o.calls[id].answered
  }

  /** Once its replan is INTERRUPT_PENDING a call is in flight, at the revision it has just made. */
  function Launched(o: Office, t: Store, replan: nat, id: RemoteIdentity): Office {
    Office(t, o.calls + [Call(replan, t.task.revision, id, false)])
  }

  /** The finalise a call issues; with nothing to interrupt it reports success, whatever the reply. */
  function FinaliseOf(c: Call, reply: RemoteReply, unexpected: string): ReplanStep {
    if Interruptible(c.identity)
    then Finalize(c.expected, c.replan, reply.Returned?, ErrorText(reply, unexpected))
    else Finalize(c.expected, c.replan, true, None)
  }

  function Perform(o: Office, a: Act): Office {
    if !Enabled(o, a) then o
    else
      match a
      case Other(step) => o.(store := Apply(o.store, step))
      case BeginCall(expected, goal, reason) =>
        (match BeginHardReplan(o.store, expected, goal, reason)
         case Err(_) => o
         case Ok(t) => Launched(o, t, |o.store.replans|, t.snapshots[|o.store.snapshots|].facts.identity))
      case RetryCall(expected, replan) =>
        (match PrepareInterruptRetry(o.store, expected, replan)
         case Err(_) => o
         case Ok(t) => Launched(o, t, replan, o.store.snapshots[o.store.replans[replan].snapshot].facts.identity))
      case CallAnswered(id, reply, unexpected) =>
        var c := o.calls[id];
        Office(Apply(o.store, ReplanOp(FinaliseOf(c, reply, unexpected))), o.calls[id := c.(answered := true)])
  }

  function Performs(o: Office, acts: seq<Act>): Office {
    if acts == [] then o else Perform(Performs(o, acts[..|acts| - 1]), acts[|acts| - 1])
  }

  predicate Open(c: Call, replan: nat) {
    !c.answered && c.replan == replan
  }

  /** A replan in INTERRUPT_PENDING or SUPERSEDED: what one with a call in flight can be. */
  predicate CallOk(s: Store, c: Call) {
    !c.answered ==>
      && c.expected <= s.task.revision && c.replan < |s.replans|
      && (s.replans[c.replan].status == InterruptPending || s.replans[c.replan].status == ReplanSuperseded)
  }

  ghost predicate OfficeInv(o: Office) {
    && ReplanInv(o.store)
    && (forall i :: 0 <= i < |o.calls| ==> CallOk(o.store, o.calls[i]))
    && (forall i, j :: 0 <= i < j < |o.calls| ==> !o.calls[i].answered && !o.calls[j].answered ==>
          o.calls[i].replan != o.calls[j].replan)
  }

  /** The replan waits for an interrupt, but the call that could finalise it is gone. */
  ghost predicate Abandoned(o: Office, replan: nat) {
    && AwaitsInterrupt(o.store, replan)
    && forall i :: 0 <= i < |o.calls| ==> !Open(o.calls[i], replan)
  }

  /** A step that is not the service's keeps every waiting or superseded replan as it is. */
  lemma OtherKeepsCalls(s: Store, step: Step, c: Call)
    requires ReplanInv(s) && CallOk(s, c) && !ServiceStep(step)
    ensures CallOk(Apply(s, step), c)
  {
    hide Attempt, ReplanInv, EndsInterrupt;
    StepRevision(s, step);
    if !c.answered {
      StepMoves(s, step);
      if s.replans[c.replan].status == InterruptPending {
        PendingHasSnapshot(s, c.replan);
        WaitEndsExactlyBy(s, step, c.replan);
        OtherIsNoEnd(s, step, c.replan);
      }
    }
  }

  lemma OtherIsNoEnd(s: Store, step: Step, replan: nat)
    requires !ServiceStep(step)
    ensures !EndsInterrupt(s, step, replan)
  {
    hide AttemptReplan;
  }

  lemma PendingHasSnapshot(s: Store, replan: nat)
    requires ReplanInv(s) && replan < |s.replans| && s.replans[replan].status == InterruptPending
    ensures AwaitsInterrupt(s, replan)
  {
    assert RowOk(s, replan);
  }

  lemma OtherKeeps(o: Office, step: Step)
    requires OfficeInv(o) && !ServiceStep(step)
    ensures OfficeInv(o.(store := Apply(o.store, step)))
  {
    hide Attempt, Apply, CallOk, ReplanInv, ServiceStep;
    StepMoves(o.store, step);
    forall i | 0 <= i < |o.calls| ensures CallOk(Apply(o.store, step), o.calls[i]) {
      OtherKeepsCalls(o.store, step, o.calls[i]);
    }
  }

  lemma BeginKeepsCall(s: Store, expected: nat, goal: string, reason: string, c: Call)
    requires CallOk(s, c) && BeginHardReplan(s, expected, goal, reason).Ok?
    ensures CallOk(BeginHardReplan(s, expected, goal, reason).store, c)
    ensures !c.answered ==> c.replan < |s.replans|
  {
    hide Blank, Strip, PutPlans, PutDecisions, OverrideEvents, Withdrawals, Where, WhereDesc;
  }

  lemma BegunCall(s: Store, expected: nat, goal: string, reason: string)
    requires BeginHardReplan(s, expected, goal, reason).Ok?
    ensures var t := BeginHardReplan(s, expected, goal, reason).store;
            && t.task.revision == s.task.revision + 1
            && |t.replans| == |s.replans| + 1 && t.replans[|s.replans|].status == InterruptPending
            && forall i :: 0 <= i < |s.replans| ==> !ActiveReplan(t.replans[i])
  {
    hide Blank, Strip, PutPlans, PutDecisions, OverrideEvents, Withdrawals, Where, WhereDesc;
  }

  lemma BeginKeeps(o: Office, expected: nat, goal: string, reason: string)
    requires OfficeInv(o)
    ensures OfficeInv(Perform(o, BeginCall(expected, goal, reason)))
  {
    hide BeginHardReplan, CallOk, ReplanInv, FinalizeInterrupt, PrepareInterruptRetry;
    if BeginHardReplan(o.store, expected, goal, reason).Ok? {
      BegunCall(o.store, expected, goal, reason);
      BeginMoves(o.store, expected, goal, reason);
      forall i | 0 <= i < |o.calls|
        ensures CallOk(BeginHardReplan(o.store, expected, goal, reason).store, o.calls[i])
        ensures !o.calls[i].answered ==> o.calls[i].replan < |o.store.replans|
      {
        BeginKeepsCall(o.store, expected, goal, reason, o.calls[i]);
      }
      NewCallOk(o, BeginHardReplan(o.store, expected, goal, reason).store, |o.store.replans|);
    }
  }

  lemma NewCallOk(o: Office, t: Store, replan: nat)
    requires replan < |t.replans| && t.replans[replan].status == InterruptPending
    ensures forall id :: CallOk(t, Call(replan, t.task.revision, id, false))
  {
  }

  lemma RetryKeeps(o: Office, expected: nat, replan: nat)
    requires OfficeInv(o)
    ensures OfficeInv(Perform(o, RetryCall(expected, replan)))
  {
    hide BeginHardReplan, ReplanInv, FinalizeInterrupt;
    if PrepareInterruptRetry(o.store, expected, replan).Ok? {
      InterruptMoves(o.store, RetryInterrupt(expected, replan));
    }
  }

  lemma AnswerKeeps(o: Office, id: nat, reply: RemoteReply, unexpected: string)
    requires OfficeInv(o)
    ensures OfficeInv(Perform(o, CallAnswered(id, reply, unexpected)))
  {
    hide BeginHardReplan, ReplanInv, PrepareInterruptRetry, ErrorText,
         AttemptExecution, AttemptWorkspace, AttemptAgent, AttemptMemory, AttemptCheckpoint;
    if Enabled(o, CallAnswered(id, reply, unexpected)) {
      var step := ReplanOp(FinaliseOf(o.calls[id], reply, unexpected));
      StepMoves(o.store, step);
    }
  }

  lemma PerformKeeps(o: Office, a: Act)
    requires OfficeInv(o)
    ensures OfficeInv(Perform(o, a))
  {
    hide OfficeInv, BeginHardReplan, PrepareInterruptRetry, Attempt;
    match a
    case Other(step) => if !ServiceStep(step) { OtherKeeps(o, step); }
    case BeginCall(expected, goal, reason) => BeginKeeps(o, expected, goal, reason);
    case RetryCall(expected, replan) => RetryKeeps(o, expected, replan);
    case CallAnswered(id, reply, unexpected) => AnswerKeeps(o, id, reply, unexpected);
  }

  lemma {:induction false} PerformsKeep(o: Office, acts: seq<Act>)
    requires OfficeInv(o)
    ensures OfficeInv(Performs(o, acts))
  {
    hide Perform, OfficeInv;
    if acts != [] {
      var n := |acts| - 1;
      PerformsKeep(o, acts[..n]);
      PerformKeeps(Performs(o, acts[..n]), acts[n]);
    }
  }

  /** The finalise of a call whose replan still waits is accepted exactly at the revision the wait began with. */
  lemma AnswerFence(s: Store, c: Call, reply: RemoteReply, unexpected: string)
    requires AwaitsInterrupt(s, c.replan)
    ensures AttemptReplan(s, FinaliseOf(c, reply, unexpected)).Ok? <==> c.expected == s.task.revision
  {
  }

  /** A call whose finalise was rejected leaves its waiting replan with nobody to finalise it. */
  lemma RejectedMeansAbandoned(o: Office, id: nat, reply: RemoteReply, unexpected: string)
    requires OfficeInv(o) && Enabled(o, CallAnswered(id, reply, unexpected))
    requires AwaitsInterrupt(o.store, o.calls[id].replan) && o.calls[id].expected != o.store.task.revision
    ensures Abandoned(Perform(o, CallAnswered(id, reply, unexpected)), o.calls[id].replan)
    ensures Perform(o, CallAnswered(id, reply, unexpected)).store == o.store
  {
    hide ReplanInv, BeginHardReplan, PrepareInterruptRetry, ErrorText,
         AttemptExecution, AttemptWorkspace, AttemptAgent, AttemptMemory, AttemptCheckpoint;
    AnswerFence(o.store, o.calls[id], reply, unexpected);
  }

  predicate NewReplan(o: Office, a: Act) {
    a.BeginCall? && BeginHardReplan(o.store, a.expected, a.goal, a.reason).Ok?
  }

  /** An abandoned replan waits on exactly until a new hard replan, which supersedes it; every retry is refused. */
  lemma AbandonedExactlyUntil(o: Office, a: Act, replan: nat)
    requires OfficeInv(o) && Abandoned(o, replan)
    ensures Abandoned(Perform(o, a), replan) <==> !NewReplan(o, a)
    ensures NewReplan(o, a) ==> replan < |Perform(o, a).store.replans|
                                && Perform(o, a).store.replans[replan].status == ReplanSuperseded
    ensures a.RetryCall? ==> Perform(o, a) == o
  {
    hide BeginHardReplan, Attempt, ErrorText, EndsInterrupt;
    match a
    case Other(step) =>
      if !ServiceStep(step) {
        WaitEndsExactlyBy(o.store, step, replan);
        OtherIsNoEnd(o.store, step, replan);
      }
    case BeginCall(expected, goal, reason) =>
      if BeginHardReplan(o.store, expected, goal, reason).Ok? {
        BegunCall(o.store, expected, goal, reason);
        BegunSupersedes(o.store, expected, goal, reason, replan);
      }
    case RetryCall(expected, id) => RetriesRefused(o.store, expected, id, replan);
    case CallAnswered(id, reply, unexpected) =>
      if Enabled(o, a) {
        OtherAnswerRefused(o.store, o.calls[id], reply, unexpected, replan);
      }
  }

  lemma BegunSupersedes(s: Store, expected: nat, goal: string, reason: string, replan: nat)
    requires AwaitsInterrupt(s, replan) && BeginHardReplan(s, expected, goal, reason).Ok?
    ensures BeginHardReplan(s, expected, goal, reason).store.replans[replan].status == ReplanSuperseded
  {
    hide Blank, Strip, PutPlans, PutDecisions, OverrideEvents, Withdrawals, Where, WhereDesc;
  }

  /** While one replan waits no retry is accepted, of whichever replan. */
  lemma RetriesRefused(s: Store, expected: nat, id: nat, replan: nat)
    requires ReplanInv(s) && AwaitsInterrupt(s, replan)
    ensures PrepareInterruptRetry(s, expected, id).Err?
  {
  }

  lemma OtherAnswerRefused(s: Store, c: Call, reply: RemoteReply, unexpected: string, replan: nat)
    requires ReplanInv(s) && AwaitsInterrupt(s, replan) && c.replan != replan
    ensures Apply(s, ReplanOp(FinaliseOf(c, reply, unexpected))) == s
  {
    hide AttemptExecution, AttemptWorkspace, AttemptAgent, AttemptMemory, AttemptCheckpoint, ErrorText;
  }

  /** Over every interleaving: an abandoned replan is out of INTERRUPT_PENDING only after a new hard replan. */
  lemma {:induction false} AbandonedUntilNewReplan(o: Office, acts: seq<Act>, replan: nat)
    requires OfficeInv(o) && Abandoned(o, replan)
    requires forall k :: 0 <= k < |acts| ==> !NewReplan(Performs(o, acts[..k]), acts[k])
    ensures Abandoned(Performs(o, acts), replan)
  {
    hide Perform, OfficeInv, Abandoned, NewReplan;
    if acts != [] {
      var n := |acts| - 1;
      assert forall k :: 0 <= k < n ==> acts[..n][..k] == acts[..k] && acts[..n][k] == acts[k];
      AbandonedUntilNewReplan(o, acts[..n], replan);
      PerformsKeep(o, acts[..n]);
      assert !NewReplan(Performs(o, acts[..n]), acts[n]);
      AbandonedExactlyUntil(Performs(o, acts[..n]), acts[n], replan);
    }
  }
}
