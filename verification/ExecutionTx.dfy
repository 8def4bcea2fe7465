/** memory/execution.py: execution mode, handoff policy and the exclusive writer lease. */
module ExecutionTx {
  import opened Prelude
  import opened Text
  import opened Model

  datatype ExecutionStep =
    | SetMode(expected: nat, mode: ExecutionMode, actor: Actor)
    | SetPolicy(expected: nat, policy: HandoffPolicy, actor: Actor)
    | Acquire(expected: nat, writer: ActiveWriter, actor: Actor, authorized: bool)
    | Release(expected: nat, writer: ActiveWriter, epoch: nat, actor: Actor)
    | HandOver(expected: nat, request: HandoverRequest)

  datatype HandoverRequest = HandoverRequest(
    from: ActiveWriter, to: ActiveWriter, epoch: nat, reason: string,
    gitHead: Option<string>, changeRef: Option<string>, actor: Actor, authorized: bool)

  predicate Terminal(phase: TaskPhase) {
    phase in {Accepted, Cancelled, Failed}
  }

  /** `_assert_workspace_transition_safe`. */
  predicate TransitionSafe(s: Store) {
    && SafetyClear(s)
    && !HasPrepared(s.operations)
    && (s.workspace.Some? ==> s.workspace.value.state != ReconciliationRequired)
  }

  /** `_assert_writer_allowed`: the error it raises, if any. */
  function WriterRefusal(exec: Execution, writer: ActiveWriter, actor: Actor, authorized: bool): Option<Error> {
    if writer == NoWriter then Some(BadValue)
    else if exec.mode == Direct && writer != ChatGpt then Some(Conflict)
    else if exec.mode == CodexSupervised && writer != CodexWriter then Some(Conflict)
    else if exec.mode == Hybrid && writer == CodexWriter && exec.policy == ManualOnly && actor != User && !authorized
    then Some(Conflict)
    else None
  }

  function SetExecutionMode(s: Store, expected: nat, mode: ExecutionMode, actor: Actor): Outcome {
    if s.task.revision != expected then Err(Stale)
    else if s.exec.mode == mode then Ok(s)
    else if !TransitionSafe(s) then Err(Conflict)
    else if s.exec.writer == ChatGpt && mode == CodexSupervised then Err(Conflict)
    else if s.exec.writer == CodexWriter && mode == Direct then Err(Conflict)
    else
      Ok(Log(s.(task := Bump(s.task), exec := s.exec.(mode := mode)), actor, ModeChanged(s.exec.mode, mode)))
  }

  function SetHandoffPolicy(s: Store, expected: nat, policy: HandoffPolicy, actor: Actor): Outcome {
    if policy == SupervisorAllowed && actor != User then Err(Conflict)
    else if s.task.revision != expected then Err(Stale)
    else if s.exec.policy == policy then Ok(s)
    else
      Ok(Log(s.(task := Bump(s.task), exec := s.exec.(policy := policy)), actor, PolicyChanged(s.exec.policy, policy)))
  }

  function AcquireWriter(s: Store, expected: nat, writer: ActiveWriter, actor: Actor, authorized: bool): Outcome {
    if s.task.revision != expected then Err(Stale)
    else if Terminal(s.task.phase) then Err(Conflict)
    else if !TransitionSafe(s) then Err(Conflict)
    else if s.exec.writer != NoWriter then Err(Conflict)
    else
      var refusal := WriterRefusal(s.exec, writer, actor, authorized);
      if refusal.Some? then Err(refusal.value)
      else
        var t := Bump(s.task);
        var epoch := s.exec.epoch + 1;
        Ok(Log(s.(task := t, exec := s.exec.(writer := writer, epoch := epoch, acquired := Some(t.revision))),
               actor, WriterAcquired(writer, epoch)))
  }

  function ReleaseWriter(s: Store, expected: nat, writer: ActiveWriter, epoch: nat, actor: Actor): Outcome {
    if s.task.revision != expected then Err(Stale)
    else if s.exec.writer != writer then Err(Conflict)
    else if s.exec.epoch != epoch then Err(Conflict)
    else if !TransitionSafe(s) then Err(Conflict)
    else
      Ok(Log(s.(task := Bump(s.task), exec := s.exec.(writer := NoWriter, acquired := None)),
             actor, WriterReleased(writer, epoch)))
  }

  function HandoffWriter(s: Store, expected: nat, q: HandoverRequest): Outcome {
    if q.from == NoWriter || q.to == NoWriter then Err(BadValue)
    else if q.from == q.to then Err(BadValue)
    else if Blank(q.reason) then Err(BadValue)
    else if s.task.revision != expected then Err(Stale)
    else if Terminal(s.task.phase) then Err(Conflict)
    else if s.exec.writer != q.from then Err(Conflict)
    else if s.exec.epoch != q.epoch then Err(Conflict)
    else if !TransitionSafe(s) then Err(Conflict)
    else
      var refusal := WriterRefusal(s.exec, q.to, q.actor, q.authorized);
      if refusal.Some? then Err(refusal.value)
      else
        var t := Bump(s.task);
        var epoch := s.exec.epoch + 1;
        var record := Handoff(q.from, q.to, expected, t.revision, t.intentVersion, t.planVersion, epoch,
                              OrElse(q.gitHead, t.gitHead), q.changeRef, Strip(q.reason), q.actor);
        Ok(Log(s.(task := t,
                  exec := s.exec.(writer := q.to, epoch := epoch, acquired := Some(t.revision)),
                  handoffs := s.handoffs + [record]),
               q.actor, WriterHandedOver(q.from, q.to, epoch)))
  }

  function AttemptExecution(s: Store, step: ExecutionStep): Outcome {
    match step
    case SetMode(expected, mode, actor) => SetExecutionMode(s, expected, mode, actor)
    case SetPolicy(expected, policy, actor) => SetHandoffPolicy(s, expected, policy, actor)
    case Acquire(expected, writer, actor, authorized) => AcquireWriter(s, expected, writer, actor, authorized)
    case Release(expected, writer, epoch, actor) => ReleaseWriter(s, expected, writer, epoch, actor)
    case HandOver(expected, request) => HandoffWriter(s, expected, request)
  }
}
