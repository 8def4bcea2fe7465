/** memory/workspace.py: the workspace binding and the two-phase direct operations. */
module WorkspaceTx {
  import opened Prelude
  import opened Text
  import opened Model

  datatype WorkspaceStep =
    | Bind(expected: nat, identity: WorkspaceIdentity, gitBranch: Option<string>, gitHead: Option<string>)
    | Observe(facts: Observation)
    | Prepare(expected: nat, epoch: nat, operationType: string, digest: string, details: map<string, string>)
    | Annotate(operation: nat, details: map<string, string>)
    | MarkUnknown(operation: nat, note: string, details: map<string, string>)
    | Complete(operation: nat, epoch: nat, result: OperationResult)

  /** The optional facts of `update_workspace_derived`. */
  datatype Observation = Observation(
    branch: Option<string>, head: Option<string>, dirty: Option<bool>,
    files: Option<seq<string>>, reviewRef: Option<string>)

  datatype OperationResult = OperationResult(
    summary: string, git: GitFacts, changeRef: Option<string>, details: map<string, string>)

  function BindWorkspace(s: Store, expected: nat, identity: WorkspaceIdentity,
                         gitBranch: Option<string>, gitHead: Option<string>): Outcome {
    if identity.mode == OtherMode then Err(BadValue)
    else if Blank(identity.backend) || Blank(identity.workspaceId) || Blank(identity.repository) then Err(BadValue)
    else if s.task.revision != expected then Err(Stale)
    else if s.workspace.Some? && s.workspace.value.state == ReconciliationRequired then Err(Conflict)
    else if s.workspace.Some? && SameBinding(s.workspace.value, identity) then Ok(s)
    else if s.workspace.Some? && s.exec.writer != NoWriter then Err(Conflict)
    else if s.workspace.Some? && HasPrepared(s.operations) then Err(Conflict)
    else
      var bound := Workspace(identity, GitFacts(gitBranch, gitHead, false, []), None, Active);
      Ok(Log(s.(task := Bump(s.task).(gitBranch := gitBranch, gitHead := gitHead), workspace := Some(bound)),
             Supervisor, WorkspaceBound(identity.workspaceId)))
  }

  predicate SameBinding(current: Workspace, identity: WorkspaceIdentity) {
    && current.identity.backend == identity.backend
    && current.identity.workspaceId == identity.workspaceId
    && current.identity.repository == identity.repository
    && current.state == Active
  }

  function UpdateWorkspaceDerived(s: Store, o: Observation): Outcome {
    if s.workspace.None? then Err(Conflict)
    else
      var w := s.workspace.value;
      var git := GitFacts(Choose(o.branch, w.git.branch), Choose(o.head, w.git.head),
                          if o.dirty.Some? then o.dirty.value else w.git.dirty,
                          if o.files.Some? then o.files.value else w.git.files);
      Ok(s.(workspace := Some(w.(git := git, reviewRef := Choose(o.reviewRef, w.reviewRef)))))
  }

  function PrepareDirectOperation(s: Store, expected: nat, epoch: nat, operationType: string, digest: string,
                                  details: map<string, string>): Outcome {
    if Blank(operationType) || Blank(digest) then Err(BadValue)
    else if s.task.revision != expected then Err(Stale)
    else if !SafetyClear(s) then Err(Conflict)
    else if s.exec.writer != ChatGpt then Err(Conflict)
    else if s.exec.epoch != epoch then Err(Conflict)
    else if s.exec.mode == CodexSupervised then Err(Conflict)
    else if s.workspace.None? then Err(Conflict)
    else if s.workspace.value.state != Active then Err(Conflict)
    else if HasPrepared(s.operations) then Err(Conflict)
    else
      var t := Bump(s.task);
      var operation := DirectOperation(Strip(operationType), Prepared, epoch, t.revision, None, Strip(digest),
                                       None, None, s.workspace.value.git.head, None, details);
      Ok(Log(s.(task := t, operations := s.operations + [operation]),
             Supervisor, OperationPrepared(|s.operations|, epoch)))
  }

  /** The operation when it exists and is still PREPARED. */
  predicate InFlight(s: Store, operation: nat) {
    operation < |s.operations| && s.operations[operation].status == Prepared
  }

  function UpdatePreparedDetails(s: Store, operation: nat, details: map<string, string>): Outcome {
    if !InFlight(s, operation) then Err(Conflict)
    else
      var op := s.operations[operation];
      Ok(s.(operations := s.operations[operation := op.(details := op.details + details)]))
  }

  function MarkReconciliationRequired(s: Store, operation: nat, note: string, details: map<string, string>): Outcome {
    if !InFlight(s, operation) then Err(Conflict)
    else if s.workspace.None? then Err(MissingRow)
    else
      var op := s.operations[operation];
      Ok(s.(operations := s.operations[operation := op.(status := NeedsReconciliation, summary := Some(note),
                                                        details := op.details + details)],
            workspace := Some(s.workspace.value.(state := ReconciliationRequired))))
  }

  /** The four-part continuity test of `complete_direct_operation`. */
  predicate Stable(s: Store, op: DirectOperation, epoch: nat) {
    && s.task.revision == op.preparedRevision
    && s.exec.writer == ChatGpt
    && s.exec.epoch == epoch == op.epoch
    && s.workspace.Some? && s.workspace.value.state == Active
  }

  function CompleteDirectOperation(s: Store, operation: nat, epoch: nat, r: OperationResult): Outcome {
    if !InFlight(s, operation) then Err(Conflict)
    else if s.workspace.None? then Err(Conflict)
    else
      var op := s.operations[operation];
      var w := s.workspace.value;
      var stable := Stable(s, op, epoch);
      var t := if stable then Bump(s.task).(gitBranch := r.git.branch, gitHead := r.git.head) else s.task;
      var finished := op.(status := if stable then Succeeded else NeedsReconciliation,
                          completedRevision := if stable then Some(t.revision) else op.completedRevision,
                          summary := Some(r.summary), changeRef := r.changeRef, headAfter := r.git.head,
                          details := op.details + r.details);
      var seen := w.(git := r.git, reviewRef := OrElse(r.changeRef, w.reviewRef),
                     state := if stable then Active else ReconciliationRequired);
      var written := s.(task := t, operations := s.operations[operation := finished], workspace := Some(seen));
      Ok(if stable then Log(written, Supervisor, OperationCompleted(operation, epoch)) else written)
  }

  function AttemptWorkspace(s: Store, step: WorkspaceStep): Outcome {
    match step
    case Bind(expected, identity, gitBranch, gitHead) => BindWorkspace(s, expected, identity, gitBranch, gitHead)
    case Observe(facts) => UpdateWorkspaceDerived(s, facts)
    case Prepare(expected, epoch, operationType, digest, details) =>
      PrepareDirectOperation(s, expected, epoch, operationType, digest, details)
    case Annotate(operation, details) => UpdatePreparedDetails(s, operation, details)
    case MarkUnknown(operation, note, details) => MarkReconciliationRequired(s, operation, note, details)
    case Complete(operation, epoch, result) => CompleteDirectOperation(s, operation, epoch, result)
  }
}
