/** What each workspace transaction accepts and writes, and what a patch leaves behind. */
module WorkspaceRules {
  import opened Prelude
  import opened Text
  import opened Model
  import opened ExecutionTx
  import opened WorkspaceTx
  import opened AgentTx
  import opened MemoryTx
  import opened CheckpointTx
  import opened ReplanTx
  import opened Steps
  import opened OperationProofs
  import opened PatchProtocol

  predicate SameAs(w: Workspace, identity: WorkspaceIdentity) {
    && w.identity.backend == identity.backend && w.identity.workspaceId == identity.workspaceId
    && w.identity.repository == identity.repository
  }

  predicate NothingInFlight(s: Store) {
    forall i :: 0 <= i < |s.operations| ==> s.operations[i].status != Prepared
  }

  /** `bind_workspace`: an active binding to the same place is kept; another one replaces only an idle binding. */
  lemma BindExactly(s: Store, expected: nat, identity: WorkspaceIdentity, branch: Option<string>, head: Option<string>)
    ensures BindWorkspace(s, expected, identity, branch, head).Ok?
            <==> && (identity.mode == Checkout || identity.mode == Worktree)
                 && Strip(identity.backend) != "" && Strip(identity.workspaceId) != ""
                   && Strip(identity.repository) != ""
                 && s.task.revision == expected
                 && (s.workspace.Some? ==>
                       || (s.workspace.value.state == Active && SameAs(s.workspace.value, identity))
                       || (s.workspace.value.state != ReconciliationRequired && s.exec.writer == NoWriter
                           && NothingInFlight(s)))
    ensures BindWorkspace(s, expected, identity, branch, head).Ok? ==>
              var t := BindWorkspace(s, expected, identity, branch, head).store;
              if s.workspace.Some? && s.workspace.value.state == Active && SameAs(s.workspace.value, identity)
                then t == s
              else
                && t.workspace == Some(Workspace(identity, GitFacts(branch, head, false, []), None, Active))
                && t.task == s.task.(revision := expected + 1, gitBranch := branch, gitHead := head)
                && t == s.(task := t.task, workspace := t.workspace, events := t.events)
  {
    hide Strip;
  }

  /** A given fact replaces the stored one, a missing fact leaves it. */
  predicate Refreshed<T(==)>(given: Option<T>, stored: T, now: T) {
    (given.Some? ==> now == given.value) && (given.None? ==> now == stored)
  }

  /** `update_workspace_derived`: only the given facts, and never identity, state, revision or log. */
  lemma ObserveExactly(s: Store, o: Observation)
    ensures UpdateWorkspaceDerived(s, o).Ok? <==> s.workspace.Some?
    ensures s.workspace.Some? ==>
              var t := UpdateWorkspaceDerived(s, o).store;
              && t.workspace.Some?
              && var w, v := s.workspace.value, t.workspace.value;
                 && v.identity == w.identity && v.state == w.state
                 && v.git.branch == (if o.branch.Some? then o.branch else w.git.branch)
                 && v.git.head == (if o.head.Some? then o.head else w.git.head)
                 && Refreshed(o.dirty, w.git.dirty, v.git.dirty) && Refreshed(o.files, w.git.files, v.git.files)
                 && v.reviewRef == (if o.reviewRef.Some? then o.reviewRef else w.reviewRef)
                 && t == s.(workspace := t.workspace)
  {
  }

  /** `prepare_direct_operation`. */
  lemma PrepareExactly(s: Store, expected: nat, epoch: nat, kind: string, digest: string, details: map<string, string>)
    ensures PrepareDirectOperation(s, expected, epoch, kind, digest, details).Ok?
            <==> && Strip(kind) != "" && Strip(digest) != "" && s.task.revision == expected
                 && (s.safety.Some? ==> s.safety.value.state == Clear)
                 && s.exec.writer == ChatGpt && s.exec.epoch == epoch && s.exec.mode != CodexSupervised
                 && s.workspace.Some? && s.workspace.value.state == Active && NothingInFlight(s)
    ensures PrepareDirectOperation(s, expected, epoch, kind, digest, details).Ok? ==>
              var t := PrepareDirectOperation(s, expected, epoch, kind, digest, details).store;
              && t.operations == s.operations + [DirectOperation(
                   Strip(kind), Prepared, epoch, expected + 1, None, Strip(digest), None, None,
                   s.workspace.value.git.head, None, details)]
              && t == s.(task := s.task.(revision := expected + 1), operations := t.operations, events := t.events)
  {
    hide Strip;
  }

  /** Merged details: the new value where there is one, else the stored one. */
  ghost predicate Merged(stored: map<string, string>, given: map<string, string>, now: map<string, string>) {
    forall k :: (k in now <==> k in stored || k in given)
                && (k in now ==> now[k] == if k in given then given[k] else stored[k])
  }

  /** `update_prepared_operation_details`. */
  lemma AnnotateExactly(s: Store, id: nat, details: map<string, string>)
    ensures UpdatePreparedDetails(s, id, details).Ok? <==> id < |s.operations| && s.operations[id].status == Prepared
    ensures UpdatePreparedDetails(s, id, details).Ok? ==>
              var t := UpdatePreparedDetails(s, id, details).store;
              && |t.operations| == |s.operations| && Merged(s.operations[id].details, details, t.operations[id].details)
              && t == s.(operations := s.operations[id := s.operations[id].(details := t.operations[id].details)])
  {
  }

  /** `mark_direct_operation_reconciliation_required`. */
  lemma MarkExactly(s: Store, id: nat, note: string, details: map<string, string>)
    ensures MarkReconciliationRequired(s, id, note, details).Ok?
            <==> id < |s.operations| && s.operations[id].status == Prepared && s.workspace.Some?
    ensures MarkReconciliationRequired(s, id, note, details).Ok? ==>
              var t := MarkReconciliationRequired(s, id, note, details).store;
              && |t.operations| == |s.operations| && Merged(s.operations[id].details, details, t.operations[id].details)
              && t.operations == s.operations[id := s.operations[id].(
                   status := NeedsReconciliation, summary := Some(note), details := t.operations[id].details)]
              && t == s.(operations := t.operations,
                         workspace := Some(s.workspace.value.(state := ReconciliationRequired)))
  {
  }

  /** What `complete_direct_operation` records of the write in either case: result and HEAD after, never before. */
  lemma CompletionRecords(s: Store, id: nat, epoch: nat, r: OperationResult)
    requires CompleteDirectOperation(s, id, epoch, r).Ok?
    ensures InFlight(s, id) && s.workspace.Some?
    ensures var t := CompleteDirectOperation(s, id, epoch, r).store;
            && |t.operations| == |s.operations|
            && (forall i :: 0 <= i < |s.operations| && i != id ==> t.operations[i] == s.operations[i])
            && var a, b := s.operations[id], t.operations[id];
               && b.summary == Some(r.summary) && b.changeRef == r.changeRef && b.headAfter == r.git.head
               && b.headBefore == a.headBefore && b.operationType == a.operationType && b.digest == a.digest
               && Merged(a.details, r.details, b.details)
    ensures var t := CompleteDirectOperation(s, id, epoch, r).store;
            && t.workspace.Some? && t.workspace.value.identity == s.workspace.value.identity
            && t.workspace.value.git == r.git
            && t.workspace.value.reviewRef
               == (if r.changeRef.Some? && r.changeRef.value != "" then r.changeRef else s.workspace.value.reviewRef)
            && t == s.(task := t.task, operations := t.operations, workspace := t.workspace, events := t.events)
  {
    hide Stable;
  }

  /** And of the task: branch and HEAD of the result on success, nothing at all otherwise. */
  lemma CompletionTask(s: Store, id: nat, epoch: nat, r: OperationResult)
    requires CompleteDirectOperation(s, id, epoch, r).Ok?
    ensures var t := CompleteDirectOperation(s, id, epoch, r).store;
            var success := && s.task.revision == s.operations[id].preparedRevision && s.exec.writer == ChatGpt
                           && s.exec.epoch == epoch && epoch == s.operations[id].epoch
                           && s.workspace.value.state == Active;
            && t.operations[id].status == (if success then Succeeded else NeedsReconciliation)
            && t.workspace.value.state == (if success then Active else ReconciliationRequired)
            && t.operations[id].completedRevision
               == (if success then Some(s.task.revision + 1) else s.operations[id].completedRevision)
            && t.task == (if success then s.task.(revision := s.task.revision + 1, gitBranch := r.git.branch,
                                                  gitHead := r.git.head) else s.task)
  {
  }

  /** The evidence `apply_patch` files: the review's summary, or the warning, at the task's revision. */
  lemma PatchEvidenceExactly(t: Store, reconciliation: bool, summary: string)
    ensures var u := Apply(t, PatchEvidence(t, reconciliation, summary));
            u.evidence == t.evidence + [Evidence(EvidenceKind(), EvidenceSource(),
                                                 if reconciliation then ReconcileFirst() else summary, t.task.revision)]
  {
    hide Put, EvidenceKind, EvidenceSource, ReconcileFirst, AttemptExecution, AttemptWorkspace, AttemptAgent,
         AttemptCheckpoint, AttemptReplan;
  }
}
