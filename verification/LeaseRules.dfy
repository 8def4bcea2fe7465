/** Who may hold the writer lease, and what each lease transaction grants and writes, as tables of their own. */
module LeaseRules {
  import opened Prelude
  import opened Text
  import opened Model
  import opened ExecutionTx
  import opened LeaseProofs
  import opened TenureProofs

  /** The permission table of execution mode, handoff policy and writer. */
  predicate Permitted(exec: Execution, writer: ActiveWriter, actor: Actor, authorized: bool) {
    match exec.mode
    case Direct => writer == ChatGpt
    case CodexSupervised => writer == CodexWriter
    case Hybrid =>
      writer == ChatGpt
      || (writer == CodexWriter && (exec.policy == SupervisorAllowed || actor == User || authorized))
  }

  /** No compensation, no operation in flight, no reconciliation. */
  predicate AtRest(s: Store) {
    && (s.safety.Some? ==> s.safety.value.state == Clear)
    && (forall i :: 0 <= i < |s.operations| ==> s.operations[i].status != Prepared)
    && (s.workspace.Some? ==> s.workspace.value.state != ReconciliationRequired)
  }

  predicate Alive(phase: TaskPhase) {
    phase != Accepted && phase != Cancelled && phase != Failed
  }

  lemma PermittedExactly(exec: Execution, writer: ActiveWriter, actor: Actor, authorized: bool)
    ensures WriterRefusal(exec, writer, actor, authorized).None? <==> Permitted(exec, writer, actor, authorized)
    ensures WriterRefusal(exec, writer, actor, authorized) == Some(BadValue) <==> writer == NoWriter
  {
  }

  /** `acquire_writer`: accepted exactly by this table, and then a fresh tenure at the new revision. */
  lemma AcquiredExactly(s: Store, expected: nat, writer: ActiveWriter, actor: Actor, authorized: bool)
    ensures AcquireWriter(s, expected, writer, actor, authorized).Ok?
            <==> && s.task.revision == expected && Alive(s.task.phase) && AtRest(s)
                 && s.exec.writer == NoWriter && Permitted(s.exec, writer, actor, authorized)
    ensures AcquireWriter(s, expected, writer, actor, authorized).Ok? ==>
              var t := AcquireWriter(s, expected, writer, actor, authorized).store;
              t.exec == Execution(s.exec.mode, writer, s.exec.policy, s.exec.epoch + 1, Some(expected + 1))
  {
    PermittedExactly(s.exec, writer, actor, authorized);
    hide WriterRefusal, Permitted;
  }

  /** `handoff_writer`: the receiver goes by the same table, and the record says who, when, why and on which HEAD. */
  lemma HandedOverExactly(s: Store, expected: nat, q: HandoverRequest)
    ensures HandoffWriter(s, expected, q).Ok?
            <==> && s.task.revision == expected && Alive(s.task.phase) && AtRest(s)
                 && q.from != NoWriter && s.exec.writer == q.from && s.exec.epoch == q.epoch && q.to != q.from
                 && Strip(q.reason) != "" && Permitted(s.exec, q.to, q.actor, q.authorized)
    ensures HandoffWriter(s, expected, q).Ok? ==>
              var t := HandoffWriter(s, expected, q).store;
              && t.exec == Execution(s.exec.mode, q.to, s.exec.policy, s.exec.epoch + 1, Some(expected + 1))
              && |t.handoffs| == |s.handoffs| + 1
              && var h := t.handoffs[|s.handoffs|];
                 && h.from == q.from && h.to == q.to && h.actor == q.actor && h.reason == Strip(q.reason)
                 && h.fromRevision == expected && h.toRevision == expected + 1 && h.epoch == s.exec.epoch + 1
                 && h.intentVersion == s.task.intentVersion && h.planVersion == s.task.planVersion
                 && h.changeRef == q.changeRef
                 && h.gitHead == (if Truthy(q.gitHead) then q.gitHead else s.task.gitHead)
  {
    PermittedExactly(s.exec, q.to, q.actor, q.authorized);
    hide WriterRefusal, Strip;
  }

  /** `release_writer`: only its holder's tenure, and the epoch stays. */
  lemma ReleasedExactly(s: Store, expected: nat, writer: ActiveWriter, epoch: nat, actor: Actor)
    ensures ReleaseWriter(s, expected, writer, epoch, actor).Ok?
            <==> s.task.revision == expected && s.exec.writer == writer && s.exec.epoch == epoch && AtRest(s)
    ensures ReleaseWriter(s, expected, writer, epoch, actor).Ok? ==>
              var t := ReleaseWriter(s, expected, writer, epoch, actor).store;
              t.exec == Execution(s.exec.mode, NoWriter, s.exec.policy, epoch, None) && t.task.revision == expected + 1
  {
  }

  /** The writer could have been granted the lease in this mode. */
  predicate Fits(writer: ActiveWriter, mode: ExecutionMode) {
    && (writer == ChatGpt ==> mode != CodexSupervised)
    && (writer == CodexWriter ==> mode != Direct)
  }

  /** `set_execution_mode`: a change is accepted exactly at rest and in a mode that fits the current holder. */
  lemma ModeSetExactly(s: Store, expected: nat, mode: ExecutionMode, actor: Actor)
    ensures SetExecutionMode(s, expected, mode, actor).Ok?
            <==> s.task.revision == expected && (mode == s.exec.mode || (AtRest(s) && Fits(s.exec.writer, mode)))
    ensures SetExecutionMode(s, expected, mode, actor).Ok? ==>
              var t := SetExecutionMode(s, expected, mode, actor).store;
              && t.exec == s.exec.(mode := mode)
              && t.task.revision == (if mode == s.exec.mode then expected else expected + 1)
  {
  }

  /** `set_handoff_policy`: only the user grants delegation; anyone may take it back. */
  lemma PolicySetExactly(s: Store, expected: nat, policy: HandoffPolicy, actor: Actor)
    ensures SetHandoffPolicy(s, expected, policy, actor).Ok?
            <==> s.task.revision == expected && (policy == ManualOnly || actor == User)
    ensures SetHandoffPolicy(s, expected, policy, actor).Ok? ==>
              var t := SetHandoffPolicy(s, expected, policy, actor).store;
              && t.exec == s.exec.(policy := policy)
              && t.task.revision == (if policy == s.exec.policy then expected else expected + 1)
  {
  }

  /** After a failed interrupt a tenure still goes by the same table, BLOCKED or not. */
  lemma TenureAfterFailureExactly(s: Store, e: ExecutionStep)
    requires TakesLease(e) && s.task.phase == Blocked
    ensures AttemptExecution(s, e).Ok?
            <==> && e.expected == s.task.revision && AtRest(s)
                 && match e
                    case Acquire(_, writer, actor, authorized) =>
                      s.exec.writer == NoWriter && Permitted(s.exec, writer, actor, authorized)
                    case HandOver(_, q) =>
                      && q.from != NoWriter && s.exec.writer == q.from && s.exec.epoch == q.epoch && q.to != q.from
                      && Strip(q.reason) != "" && Permitted(s.exec, q.to, q.actor, q.authorized)
  {
    hide AcquireWriter, HandoffWriter, Permitted, AtRest, Strip;
    match e
    case Acquire(expected, writer, actor, authorized) => AcquiredExactly(s, expected, writer, actor, authorized);
    case HandOver(expected, q) => HandedOverExactly(s, expected, q);
  }
}
