/** supervisor/direct_workspace.py: prepare, external write, then complete or mark; and opening a workspace. */
module PatchProtocol {
  import opened Prelude
  import opened Text
  import opened Model
  import opened ExecutionTx
  import opened WorkspaceTx
  import opened AgentTx
  import opened MemoryTx
  import opened CheckpointTx
  import opened ReplanTx
  import opened Steps
  import opened RevisionProofs
  import opened OperationProofs

  /** A patch with its SHA-256 digest and the details recorded with it. */
  datatype PatchRequest = PatchRequest(patch: string, digest: string, details: map<string, string>)

  /** The adapter either raised somewhere, or reported the Git state and review after the write. */
  datatype PatchReply = WriteRaised(details: map<string, string>) | Written(result: OperationResult)

  datatype PatchOutcome =
    | PatchRefused(error: Error)                 // nothing was sent
    | PatchUnconfirmed                           // the adapter's exception is re-raised
    | PatchLost(error: Error)                    // the operation was settled by somebody else meanwhile
    | PatchApplied(reconciliation: bool)

  function PatchType(): string { "APPLY_PATCH" }
  function EvidenceKind(): string { "GIT_DIFF" }
  function EvidenceSource(): string { "direct-workspace" }

  function Unconfirmed(): string {
    "Direct patch outcome could not be confirmed after the external request."
  }

  function ReconcileFirst(): string {
    "Direct workspace patch requires reconciliation before further writes."
  }

  function PatchEvidence(t: Store, reconciliation: bool, summary: string): Step {
    MemoryOp(AddEvidence(EvidenceKind(), EvidenceSource(),
                         if reconciliation then ReconcileFirst() else summary, Some(t.task.revision)))
  }

  function PrepareFor(expected: nat, epoch: nat, q: PatchRequest): Step {
    WorkspaceOp(Prepare(expected, epoch, PatchType(), q.digest, q.details))
  }

  /** `apply_patch`. */
  function ApplyPatch(s: Store, expected: nat, epoch: nat, q: PatchRequest, during: seq<Step>, reply: PatchReply)
    : (Store, PatchOutcome)
  {
    if Blank(q.patch) then (s, PatchRefused(BadValue))
    else
      match PrepareDirectOperation(s, expected, epoch, PatchType(), q.digest, q.details)
      case Err(e) => (s, PatchRefused(e))
      case Ok(p) => AfterWrite(Run(p, during), |s.operations|, epoch, reply)
  }

  /** Once the external write has answered: mark the operation, or complete it and record the evidence. */
  function AfterWrite(s: Store, operation: nat, epoch: nat, reply: PatchReply): (Store, PatchOutcome) {
    match reply
    case WriteRaised(details) =>
      (match MarkReconciliationRequired(s, operation, Unconfirmed(), details)
       case Ok(t) => (t, PatchUnconfirmed)
       case Err(e) => (s, PatchLost(e)))
    case Written(r) =>
      match CompleteDirectOperation(s, operation, epoch, r)
      case Err(e) => (s, PatchLost(e))
      case Ok(t) =>
        var reconciliation := !OperationIs(t, operation, Succeeded);
        (Apply(t, PatchEvidence(t, reconciliation, r.summary)), PatchApplied(reconciliation))
  }

  /** The prepared store, and its operation when the external write has answered. */
  predicate Sent(s: Store, expected: nat, epoch: nat, q: PatchRequest) {
    !Blank(q.patch) && PrepareDirectOperation(s, expected, epoch, PatchType(), q.digest, q.details).Ok?
  }

  lemma EvidenceOnlyAdds(t: Store, reconciliation: bool, summary: string)
    ensures var u := Apply(t, PatchEvidence(t, reconciliation, summary));
            u == t.(evidence := u.evidence, events := u.events, index := u.index) && |u.evidence| == |t.evidence| + 1
  {
    hide EvidenceKind, EvidenceSource, ReconcileFirst, Put;
  }

  /** Completing and recording the evidence, by revision alone. */
  lemma AfterWriteByRevision(s: Store, id: nat, r: OperationResult)
    requires OperationInv(s) && InFlight(s, id)
    ensures var op := s.operations[id];
            var (t, outcome) := AfterWrite(s, id, op.epoch, Written(r));
            && outcome == PatchApplied(s.task.revision != op.preparedRevision)
            && (s.task.revision == op.preparedRevision ==>
                  OperationIs(t, id, Succeeded) && t.task.revision == s.task.revision + 1
                  && t.operations[id].completedRevision == Some(s.task.revision + 1))
            && (s.task.revision != op.preparedRevision ==>
                  OperationIs(t, id, NeedsReconciliation) && t.task == s.task && WorkspaceStopped(t))
  {
    hide OperationInv, PatchEvidence, MarkReconciliationRequired, CompleteDirectOperation, Apply, Attempt;
    CompletionByRevision(s, id, r);
    var done := CompleteDirectOperation(s, id, s.operations[id].epoch, r).store;
    EvidenceOnlyAdds(done, !OperationIs(done, id, Succeeded), r.summary);
  }

  /** A completed write counts exactly when nothing advanced the revision while it was under way. */
  lemma PatchFence(s: Store, expected: nat, epoch: nat, q: PatchRequest, during: seq<Step>, r: OperationResult)
    requires OperationInv(s) && Sent(s, expected, epoch, q)
    requires InFlight(Run(Apply(s, PrepareFor(expected, epoch, q)), during), |s.operations|)
    ensures var later := Run(Apply(s, PrepareFor(expected, epoch, q)), during);
            var (t, outcome) := ApplyPatch(s, expected, epoch, q, during, Written(r));
            && outcome == PatchApplied(later.task.revision != expected + 1)
            && (later.task.revision == expected + 1 ==>
                  OperationIs(t, |s.operations|, Succeeded) && t.task.revision == expected + 2
                  && t.operations[|s.operations|].completedRevision == Some(expected + 2))
            && (later.task.revision != expected + 1 ==>
                  OperationIs(t, |s.operations|, NeedsReconciliation) && t.task == later.task && WorkspaceStopped(t))
  {
    hide Run, Apply, Attempt, OperationInv, Blank, PatchType, AfterWrite, PrepareDirectOperation;
    var prepare := PrepareFor(expected, epoch, q);
    var p := Apply(s, prepare);
    PreparedOperation(s, expected, epoch, PatchType(), q.digest, q.details);
    StepKeepsOperations(s, prepare);
    RunKeepsOperations(p, during);
    PreparedFactsFixed(p, during, |s.operations|);
    AfterWriteByRevision(Run(p, during), |s.operations|, r);
  }

  /** A write whose outcome is unknown stops the workspace, for good, without moving the revision. */
  lemma UnconfirmedPatchStops(s: Store, expected: nat, epoch: nat, q: PatchRequest, during: seq<Step>,
                              details: map<string, string>, after: seq<Step>)
    requires OperationInv(s) && Sent(s, expected, epoch, q)
    requires InFlight(Run(Apply(s, PrepareFor(expected, epoch, q)), during), |s.operations|)
    ensures var later := Run(Apply(s, PrepareFor(expected, epoch, q)), during);
            var (t, outcome) := ApplyPatch(s, expected, epoch, q, during, WriteRaised(details));
            var u := Run(t, after);
            && outcome == PatchUnconfirmed && t.task == later.task && t.events == later.events
            && OperationIs(u, |s.operations|, NeedsReconciliation) && WorkspaceStopped(u) && !HasPrepared(u.operations)
  {
    hide Run, OperationInv, Blank, Strip, PatchType, CompleteDirectOperation, PatchEvidence, Unconfirmed, HasPrepared,
         AttemptExecution, AttemptAgent, AttemptMemory, AttemptCheckpoint, AttemptReplan;
    var prepare := PrepareFor(expected, epoch, q);
    var p := Apply(s, prepare);
    var later := Run(p, during);
    StepKeepsOperations(s, prepare);
    RunKeepsOperations(p, during);
    HeldWhileInFlight(later, |s.operations|);
    var mark := WorkspaceOp(MarkUnknown(|s.operations|, Unconfirmed(), details));
    StepKeepsOperations(later, mark);
    ReconciliationAbsorbs(Apply(later, mark), after);
  }

  /** An operation that somebody else settled meanwhile is left as it is. */
  lemma LostPatchChangesNothing(s: Store, expected: nat, epoch: nat, q: PatchRequest, during: seq<Step>,
                                reply: PatchReply)
    requires Sent(s, expected, epoch, q)
    requires !InFlight(Run(Apply(s, PrepareFor(expected, epoch, q)), during), |s.operations|)
    ensures ApplyPatch(s, expected, epoch, q, during, reply)
         == (Run(Apply(s, PrepareFor(expected, epoch, q)), during), PatchLost(Conflict))
  {
    hide Run, Blank, Strip, PatchType, PatchEvidence, Unconfirmed,
         AttemptExecution, AttemptAgent, AttemptMemory, AttemptCheckpoint, AttemptReplan;
  }

  /** A patch overtaken by the safety latch is never reported as applied. */
  lemma LatchedPatchNotApplied(s: Store, expected: nat, epoch: nat, q: PatchRequest, during: seq<Step>,
                               r: OperationResult, k: nat)
    requires OperationInv(s) && Sent(s, expected, epoch, q) && k <= |during|
    requires !SafetyClear(At(Apply(s, PrepareFor(expected, epoch, q)), during, k))
    ensures ApplyPatch(s, expected, epoch, q, during, Written(r)).1 != PatchApplied(false)
  {
    hide Run, At, OperationInv, Apply, Blank, Strip, PatchType, ApplyPatch, CompleteDirectOperation;
    var p := Apply(s, PrepareFor(expected, epoch, q));
    PrepareIsClear(s, expected, epoch, q);
    EqualRevisionsEqualTables(p, during, 0, k);
    EqualRevisionsEqualTables(p, during, k, |during|);
    Ends(p, during);
    if InFlight(Run(p, during), |s.operations|) {
      PatchFence(s, expected, epoch, q, during, r);
    } else {
      LostPatchChangesNothing(s, expected, epoch, q, during, Written(r));
    }
  }

  lemma PrepareIsClear(s: Store, expected: nat, epoch: nat, q: PatchRequest)
    requires Sent(s, expected, epoch, q)
    ensures var p := Apply(s, PrepareFor(expected, epoch, q)); SafetyClear(p) && p.task.revision == expected + 1
  {
    hide Blank, Strip, PatchType;
  }

  datatype OpenRequest = OpenRequest(repository: Option<string>, worktree: bool, baseRef: Option<string>)

  /** What `open_workspace` of the adapter returned, or that it raised. */
  datatype OpenReply = OpenRaised | Opened(id: string, root: Option<string>, worktree: bool, git: GitFacts)

  datatype OpenOutcome =
    | OpenRefused(error: Error)   // nothing was opened
    | Reused                      // the bound workspace already is what was asked for
    | OpenFailed                  // the adapter raised
    | WorkspaceOpened
    | ClosedAgain(error: Error)   // the bind was rejected and the new remote workspace closed

  function ModeOf(worktree: bool): WorkspaceMode {
    if worktree then Worktree else Checkout
  }

  /** `(repository or task.repository or "").strip()`. */
  function SelectedRepository(s: Store, q: OpenRequest): string {
    var given := OrElse(q.repository, s.task.repository);
    if given.Some? then Strip(given.value) else ""
  }

  predicate Reusable(w: Workspace, repository: string, q: OpenRequest) {
    && w.state == Active && w.identity.repository == repository && w.identity.mode == ModeOf(q.worktree)
    && (q.baseRef.None? || w.identity.baseRef == q.baseRef)
  }

  function OpenGate(s: Store, expected: nat, q: OpenRequest): Option<Error> {
    if s.task.revision != expected then Some(Stale)
    else if !SafetyClear(s) then Some(Conflict)
    else if SelectedRepository(s, q) == "" then Some(BadValue)
    else if WorkspaceStopped(s) then Some(BadValue)
    else None
  }

  function IdentityFor(s: Store, backend: string, q: OpenRequest, remote: OpenReply): WorkspaceIdentity
    requires remote.Opened?
  {
    WorkspaceIdentity(backend, remote.id, SelectedRepository(s, q), remote.root, ModeOf(remote.worktree), q.baseRef)
  }

  /** `open`. */
  function OpenWorkspace(s: Store, expected: nat, backend: string, q: OpenRequest, during: seq<Step>, reply: OpenReply)
    : (Store, OpenOutcome)
  {
    var gate := OpenGate(s, expected, q);
    if gate.Some? then (s, OpenRefused(gate.value))
    else if s.workspace.Some? && Reusable(s.workspace.value, SelectedRepository(s, q), q) then (s, Reused)
    else if reply.OpenRaised? then (Run(s, during), OpenFailed)
    else
      var later := Run(s, during);
      match BindWorkspace(later, expected, IdentityFor(s, backend, q, reply), reply.git.branch, reply.git.head)
      case Ok(t) => (t, WorkspaceOpened)
      case Err(e) => (later, ClosedAgain(e))
  }

  /**
   A freshly opened remote workspace stays open exactly when it was bound: the revision has not moved since the gate,
   the identifiers are usable, and the old binding, if any, is the same one or is neither stopped nor being written to.
   */
  lemma OpenBindsOrCloses(s: Store, expected: nat, backend: string, q: OpenRequest, during: seq<Step>, reply: OpenReply)
    requires OperationInv(s) && OpenGate(s, expected, q).None? && reply.Opened?
    requires s.workspace.Some? ==> !Reusable(s.workspace.value, SelectedRepository(s, q), q)
    ensures var later := Run(s, during);
            var id := IdentityFor(s, backend, q, reply);
            var (t, outcome) := OpenWorkspace(s, expected, backend, q, during, reply);
            && (outcome == WorkspaceOpened <==>
                  && later.task.revision == expected && !Blank(backend) && !Blank(reply.id) && !WorkspaceStopped(later)
                  && (later.workspace.Some? ==> SameBinding(later.workspace.value, id) || s.exec.writer == NoWriter))
            && (outcome == WorkspaceOpened ==> t.workspace.Some? && SameBinding(t.workspace.value, id))
            && (outcome != WorkspaceOpened ==> outcome.ClosedAgain? && t == later)
  {
    hide Run, Apply, Blank, Strip, OperationInv;
    var later := Run(s, during);
    RunRevision(s, during);
    RunKeepsOperations(s, during);
    PreparedMeansWriter(later);
    RepositoryNotBlank(s, q);
  }

  lemma PreparedMeansWriter(s: Store)
    requires OperationInv(s)
    ensures HasPrepared(s.operations) ==> s.exec.writer == ChatGpt
  {
  }

  lemma RepositoryNotBlank(s: Store, q: OpenRequest)
    requires SelectedRepository(s, q) != ""
    ensures !Blank(SelectedRepository(s, q))
  {
    hide Strip;
    var given := OrElse(q.repository, s.task.repository).value;
    StripEnds(given);
    Trimmed(Strip(given));
  }
}
