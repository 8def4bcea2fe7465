/** When a patch is sent or a workspace opened, and what either leaves behind, on the rows and words alone. */
module PatchRules {
  import opened Prelude
  import opened Text
  import opened Model
  import opened ExecutionTx
  import opened WorkspaceTx
  import opened AgentTx
  import opened MemoryTx
  import opened CheckpointTx
  import opened ReplanTx
  import opened Steps
  import opened OperationProofs
  import opened PatchProtocol
  import opened WorkspaceRules

  /** CHATGPT holds this tenure of an ACTIVE workspace at rest, in a mode that lets it write. */
  predicate MayWrite(s: Store, expected: nat, epoch: nat) {
    && s.task.revision == expected
    && (s.safety.Some? ==> s.safety.value.state == Clear)
    && s.exec.writer == ChatGpt && s.exec.epoch == epoch && s.exec.mode != CodexSupervised
    && s.workspace.Some? && s.workspace.value.state == Active && NothingInFlight(s)
  }

  /** `apply_patch` sends a patch exactly when it may write it, and touches nothing when it may not. */
  lemma SentExactly(s: Store, expected: nat, epoch: nat, q: PatchRequest, during: seq<Step>, reply: PatchReply)
    ensures var (t, outcome) := ApplyPatch(s, expected, epoch, q, during, reply);
            && (outcome.PatchRefused?
                <==> !(Strip(q.patch) != "" && Strip(q.digest) != "" && MayWrite(s, expected, epoch)))
            && (outcome.PatchRefused? ==> t == s)
            && (Sent(s, expected, epoch, q)
                <==> Strip(q.patch) != "" && Strip(q.digest) != "" && MayWrite(s, expected, epoch))
  {
    hide PrepareDirectOperation, AfterWrite, Run, Strip, NothingInFlight;
    PrepareExactly(s, expected, epoch, PatchType(), q.digest, q.details);
    PatchTypeStays();
    if Sent(s, expected, epoch, q) {
      NeverRefusedLate(Run(PrepareDirectOperation(s, expected, epoch, PatchType(), q.digest, q.details).store, during),
                       |s.operations|, epoch, reply);
    }
    hide PatchType;
  }

  lemma NeverRefusedLate(s: Store, id: nat, epoch: nat, reply: PatchReply)
    ensures !AfterWrite(s, id, epoch, reply).1.PatchRefused?
  {
    hide MarkReconciliationRequired, CompleteDirectOperation, Unconfirmed, PatchEvidence, Apply;
  }

  lemma PatchTypeStays()
    ensures PatchType() == "APPLY_PATCH" && Strip(PatchType()) == "APPLY_PATCH"
  {
    Trimmed(PatchType());
  }

  /** The operation of a patch, once sent. */
  lemma PatchPrepared(s: Store, expected: nat, epoch: nat, q: PatchRequest)
    requires Sent(s, expected, epoch, q)
    ensures Apply(s, PrepareFor(expected, epoch, q))
            == s.(task := s.task.(revision := expected + 1),
                  operations := s.operations + [DirectOperation(
                    "APPLY_PATCH", Prepared, epoch, expected + 1, None, Strip(q.digest), None, None,
                    s.workspace.value.git.head, None, q.details)],
                  events := Apply(s, PrepareFor(expected, epoch, q)).events)
  {
    PatchTypeStays();
    PrepareExactly(s, expected, epoch, PatchType(), q.digest, q.details);
    hide PrepareDirectOperation, PatchType, Strip, NothingInFlight, AttemptExecution, AttemptAgent, AttemptMemory,
         AttemptCheckpoint, AttemptReplan;
  }

  /** What the two answers of the external write leave on an operation still in flight. */
  lemma WriteSettledExactly(s: Store, id: nat, epoch: nat, details: map<string, string>, r: OperationResult)
    requires InFlight(s, id) && s.workspace.Some?
    ensures var (t, outcome) := AfterWrite(s, id, epoch, WriteRaised(details));
            && outcome == PatchUnconfirmed && id < |t.operations|
            && t.operations[id].status == NeedsReconciliation
            && t.operations[id].summary
               == Some("Direct patch outcome could not be confirmed after the external request.")
            && Merged(s.operations[id].details, details, t.operations[id].details)
    ensures var (t, outcome) := AfterWrite(s, id, epoch, Written(r));
            && outcome.PatchApplied? && |t.evidence| == |s.evidence| + 1
            && var e := t.evidence[|s.evidence|];
               && e.kind == "GIT_DIFF" && e.source == "direct-workspace" && e.revision == t.task.revision
               && e.summary == (if outcome.reconciliation
                                then "Direct workspace patch requires reconciliation before further writes."
                                else r.summary)
  {
    hide Unconfirmed, EvidenceKind, EvidenceSource, ReconcileFirst, CompleteDirectOperation, PatchEvidence, Apply,
         MarkReconciliationRequired;
    MarkExactly(s, id, Unconfirmed(), details);
    CompletionAccepted(s, id, epoch, r);
    var done := CompleteDirectOperation(s, id, epoch, r).store;
    CompletionRecords(s, id, epoch, r);
    PatchEvidenceExactly(done, !OperationIs(done, id, Succeeded), r.summary);
    EvidenceOnlyAdds(done, !OperationIs(done, id, Succeeded), r.summary);
    PatchWords();
  }

  lemma PatchWords()
    ensures Unconfirmed() == "Direct patch outcome could not be confirmed after the external request."
    ensures ReconcileFirst() == "Direct workspace patch requires reconciliation before further writes."
    ensures EvidenceKind() == "GIT_DIFF" && EvidenceSource() == "direct-workspace"
  {
  }

  lemma CompletionAccepted(s: Store, id: nat, epoch: nat, r: OperationResult)
    ensures CompleteDirectOperation(s, id, epoch, r).Ok? <==> InFlight(s, id) && s.workspace.Some?
  {
  }

  /** The given repository if it is not empty, else the task's, without outer blanks. */
  function Chosen(s: Store, q: OpenRequest): string {
    match q.repository
    case Some(r) => if r != "" then Strip(r) else OfTask(s)
    case None => OfTask(s)
  }

  function OfTask(s: Store): string {
    match s.task.repository
    case Some(r) => if r != "" then Strip(r) else ""
    case None => ""
  }

  lemma ChosenExactly(s: Store, q: OpenRequest)
    ensures SelectedRepository(s, q) == Chosen(s, q)
  {
    hide Strip;
    var given := OrElse(q.repository, s.task.repository);
    if given == Some("") {
      assert Strip("") == "" by { Trimmed(""); }
    }
  }

  /** `open` may go on: right revision, nothing latched, a repository, a workspace that is not stopped. */
  predicate MayOpen(s: Store, expected: nat, q: OpenRequest) {
    && s.task.revision == expected
    && (s.safety.Some? ==> s.safety.value.state == Clear)
    && Chosen(s, q) != ""
    && (s.workspace.Some? ==> s.workspace.value.state != ReconciliationRequired)
  }

  /** The bound workspace is what was asked for. */
  predicate IsBound(s: Store, q: OpenRequest) {
    && s.workspace.Some? && s.workspace.value.state == Active
    && s.workspace.value.identity.repository == Chosen(s, q)
    && s.workspace.value.identity.mode == (if q.worktree then Worktree else Checkout)
    && (q.baseRef.None? || s.workspace.value.identity.baseRef == q.baseRef)
  }

  /** `open` is refused, or answered from the binding, exactly in these cases, and then changes nothing. */
  lemma OpenExactly(s: Store, expected: nat, backend: string, q: OpenRequest, during: seq<Step>, reply: OpenReply)
    ensures var (t, outcome) := OpenWorkspace(s, expected, backend, q, during, reply);
            && (outcome.OpenRefused? <==> !MayOpen(s, expected, q))
            && (outcome == Reused <==> MayOpen(s, expected, q) && IsBound(s, q))
            && (outcome.OpenRefused? || outcome == Reused ==> t == s)
            && (outcome == OpenFailed <==> MayOpen(s, expected, q) && !IsBound(s, q) && reply.OpenRaised?)
            && (outcome == OpenFailed ==> t == Run(s, during))
  {
    hide Run, BindWorkspace, Chosen, SelectedRepository, IdentityFor;
    ChosenExactly(s, q);
  }

  /** What an opened workspace is bound as: the remote id and root, the repository asked for, the mode it came up in. */
  lemma OpenedExactly(s: Store, expected: nat, backend: string, q: OpenRequest, during: seq<Step>, reply: OpenReply)
    requires reply.Opened? && OpenWorkspace(s, expected, backend, q, during, reply).1 == WorkspaceOpened
    ensures var later := Run(s, during);
            var t := OpenWorkspace(s, expected, backend, q, during, reply).0;
            var id := WorkspaceIdentity(backend, reply.id, Chosen(s, q), reply.root,
                                        if reply.worktree then Worktree else Checkout, q.baseRef);
            if later.workspace.Some? && later.workspace.value.state == Active && SameAs(later.workspace.value, id)
            then t == later
            else t.workspace == Some(Workspace(id, GitFacts(reply.git.branch, reply.git.head, false, []), None, Active))
                 && t.task.gitBranch == reply.git.branch && t.task.gitHead == reply.git.head
  {
    hide Run, BindWorkspace, Chosen, SelectedRepository, SameAs, NothingInFlight, OpenGate, Reusable;
    ChosenExactly(s, q);
    BindExactly(Run(s, during), expected, IdentityFor(s, backend, q, reply), reply.git.branch, reply.git.head);
  }
}
