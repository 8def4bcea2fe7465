/** memory/workspace.py over the store object: the workspace binding and the two-phase direct operations. */
module WorkspaceStore {
  import opened Prelude
  import opened Text
  import opened Model
  import opened MemoryStores
  import Tx = WorkspaceTx

  method BindWorkspace(store: MemoryStore, expected: nat, identity: WorkspaceIdentity,
                       gitBranch: Option<string>, gitHead: Option<string>) returns (r: Reply)
    modifies store
    ensures store.Did(Tx.BindWorkspace(old(store.db), expected, identity, gitBranch, gitHead), r)
  {
    hide Blank;
    if identity.mode == OtherMode { return Refused(BadValue); }
    if Blank(identity.backend) || Blank(identity.workspaceId) || Blank(identity.repository) {
      return Refused(BadValue);
    }
    if store.db.task.revision != expected { return Refused(Stale); }
    if store.db.workspace.Some? {
      var existing := store.db.workspace.value;
      if existing.state == ReconciliationRequired { return Refused(Conflict); }
      if Tx.SameBinding(existing, identity) { return Done; }
      if store.db.exec.writer != NoWriter { return Refused(Conflict); }
      if HasPrepared(store.db.operations) { return Refused(Conflict); }
    }
    store.db := store.db.(task := Bump(store.db.task).(gitBranch := gitBranch, gitHead := gitHead));
    store.db := store.db.(workspace := Some(Workspace(identity, GitFacts(gitBranch, gitHead, false, []), None,
                                                      Active)));
    store.InsertEvent(Supervisor, WorkspaceBound(identity.workspaceId));
    return Done;
  }

  method UpdateDerived(store: MemoryStore, o: Tx.Observation) returns (r: Reply)
    modifies store
    ensures store.Did(Tx.UpdateWorkspaceDerived(old(store.db), o), r)
  {
    if store.db.workspace.None? { return Refused(Conflict); }
    var w := store.db.workspace.value;
    if o.branch.Some? { w := w.(git := w.git.(branch := o.branch)); }
    if o.head.Some? { w := w.(git := w.git.(head := o.head)); }
    if o.dirty.Some? { w := w.(git := w.git.(dirty := o.dirty.value)); }
    if o.files.Some? { w := w.(git := w.git.(files := o.files.value)); }
    if o.reviewRef.Some? { w := w.(reviewRef := o.reviewRef); }
    store.db := store.db.(workspace := Some(w));
    return Done;
  }

  method PrepareDirectOperation(store: MemoryStore, expected: nat, epoch: nat, operationType: string, digest: string,
                                details: map<string, string>) returns (r: Reply)
    modifies store
    ensures store.Did(Tx.PrepareDirectOperation(old(store.db), expected, epoch, operationType, digest, details), r)
  {
    hide Blank, Strip;
    if Blank(operationType) || Blank(digest) { return Refused(BadValue); }
    if store.db.task.revision != expected { return Refused(Stale); }
    if !SafetyClear(store.db) { return Refused(Conflict); }
    if store.db.exec.writer != ChatGpt { return Refused(Conflict); }
    if store.db.exec.epoch != epoch { return Refused(Conflict); }
    if store.db.exec.mode == CodexSupervised { return Refused(Conflict); }
    if store.db.workspace.None? { return Refused(Conflict); }
    var w := store.db.workspace.value;
    if w.state != Active { return Refused(Conflict); }
    if HasPrepared(store.db.operations) { return Refused(Conflict); }
    store.db := store.db.(task := Bump(store.db.task));
    var id := |store.db.operations|;
    var operation := DirectOperation(Strip(operationType), Prepared, epoch, store.db.task.revision, None, Strip(digest),
                                     None, None, w.git.head, None, details);
    store.db := store.db.(operations := store.db.operations + [operation]);
    store.InsertEvent(Supervisor, OperationPrepared(id, epoch));
    return Done;
  }

  method UpdatePreparedDetails(store: MemoryStore, operation: nat, details: map<string, string>) returns (r: Reply)
    modifies store
    ensures store.Did(Tx.UpdatePreparedDetails(old(store.db), operation, details), r)
  {
    if operation >= |store.db.operations| { return Refused(Conflict); }
    var op := store.db.operations[operation];
    if op.status != Prepared { return Refused(Conflict); }
    store.db := store.db.(operations := store.db.operations[operation := op.(details := op.details + details)]);
    return Done;
  }

  /** Without a binding row the second UPDATE changes nothing and reading it back fails: the first one is undone. */
  method MarkReconciliationRequired(store: MemoryStore, operation: nat, note: string, details: map<string, string>)
    returns (r: Reply)
    modifies store
    ensures store.Did(Tx.MarkReconciliationRequired(old(store.db), operation, note, details), r)
  {
    var found := store.db;
    if operation >= |store.db.operations| { return Refused(Conflict); }
    var op := store.db.operations[operation];
    if op.status != Prepared { return Refused(Conflict); }
    var marked := op.(status := NeedsReconciliation, summary := Some(note), details := op.details + details);
    store.db := store.db.(operations := store.db.operations[operation := marked]);
    if store.db.workspace.None? {
      store.db := found;
      return Refused(MissingRow);
    }
    store.db := store.db.(workspace := Some(store.db.workspace.value.(state := ReconciliationRequired)));
    return Done;
  }

  method CompleteDirectOperation(store: MemoryStore, operation: nat, epoch: nat, q: Tx.OperationResult)
    returns (r: Reply)
    modifies store
    ensures store.Did(Tx.CompleteDirectOperation(old(store.db), operation, epoch, q), r)
  {
    if operation >= |store.db.operations| { return Refused(Conflict); }
    var op := store.db.operations[operation];
    if op.status != Prepared { return Refused(Conflict); }
    if store.db.workspace.None? { return Refused(Conflict); }
    var w := store.db.workspace.value;
    var seen := w.(git := q.git, reviewRef := OrElse(q.changeRef, w.reviewRef));
    var finished := op.(summary := Some(q.summary), changeRef := q.changeRef, headAfter := q.git.head,
                        details := op.details + q.details);
    if !Tx.Stable(store.db, op, epoch) {
      store.db := store.db.(operations := store.db.operations[operation := finished.(status := NeedsReconciliation)]);
      store.db := store.db.(workspace := Some(seen.(state := ReconciliationRequired)));
      return Done;
    }
    store.db := store.db.(task := Bump(store.db.task).(gitBranch := q.git.branch, gitHead := q.git.head));
    finished := finished.(status := Succeeded, completedRevision := Some(store.db.task.revision));
    store.db := store.db.(operations := store.db.operations[operation := finished]);
    store.db := store.db.(workspace := Some(seen.(state := Active)));
    store.InsertEvent(Supervisor, OperationCompleted(operation, epoch));
    return Done;
  }
}
