/** memory/agent_safety.py, memory/codex_runtime.py and memory/kandev_binding.py. */
module AgentTx {
  import opened Prelude
  import opened Model

  datatype AgentStep =
    | Latch(operation: GuardedOperation, summary: SafetySummary, identity: RemoteIdentity)
    | RecordRequired(operation: GuardedOperation, summary: SafetySummary, identity: RemoteIdentity,
                     reconciliation: bool)
    | RecordSucceeded(operation: GuardedOperation, summary: SafetySummary, identity: RemoteIdentity)
    | Reconcile(expected: nat, note: string)
    | BindRuntime(expected: nat, binding: RuntimeBinding)
    | BindKandev(expected: nat, kandevTask: string)

  datatype RuntimeBinding = RuntimeBinding(
    event: RuntimeEvent, identity: RemoteIdentity, status: Option<Label>, nextAction: Option<Label>,
    requestId: Option<string>, phase: Option<TaskPhase>, state: Option<StateNote>)

  /** `_record`: overwrite the safety row at whatever the revision currently is, and advance it. */
  function RecordSafety(s: Store, safety: AgentSafety, kind: EventKind): Outcome {
    Ok(Log(s.(task := Bump(s.task), safety := Some(safety)), Supervisor, kind))
  }

  function LatchCompensation(s: Store, operation: GuardedOperation, summary: SafetySummary,
                             identity: RemoteIdentity): Outcome {
    RecordSafety(s, AgentSafety(CompensationRequired, operation, summary, identity),
                 CompensationRecorded(CompensationRequired))
  }

  function RecordCompensationRequired(s: Store, operation: GuardedOperation, summary: SafetySummary,
                                      identity: RemoteIdentity, reconciliation: bool): Outcome {
    var state := if reconciliation then SafetyReconciliation else CompensationRequired;
    RecordSafety(s, AgentSafety(state, operation, summary, identity), CompensationRecorded(state))
  }

  function RecordCompensationSucceeded(s: Store, operation: GuardedOperation, summary: SafetySummary,
                                       identity: RemoteIdentity): Outcome {
    RecordSafety(s, AgentSafety(Clear, operation, summary, identity), CompensationSucceeded)
  }

  function ReconcileSafety(s: Store, expected: nat, note: string): Outcome {
    if s.task.revision != expected then Err(Stale)
    else if s.safety.None? then Err(Conflict)
    else
      Ok(Log(s.(task := Bump(s.task).(state := Some(Note(note))),
                safety := Some(s.safety.value.(state := Clear, summary := FreeText(note)))),
             Supervisor, CompensationReconciled))
  }

  /** `choose`: a supplied column value wins over the stored row's. */
  function Merge(r: Option<Runtime>, b: RuntimeBinding): Runtime {
    var row := if r.Some? then r.value else Runtime(NO_IDENTITY, None, None, None);
    Runtime(RemoteIdentity(Choose(b.identity.workflow, row.identity.workflow),
                           Choose(b.identity.operation, row.identity.operation),
                           Choose(b.identity.thread, row.identity.thread),
                           Choose(b.identity.turn, row.identity.turn)),
            Choose(b.status, row.status), Choose(b.nextAction, row.nextAction), Choose(b.requestId, row.requestId))
  }

  function BindCodexRuntime(s: Store, expected: nat, b: RuntimeBinding): Outcome {
    if b.event == Unsupported then Err(BadValue)
    else if s.task.revision != expected then Err(Stale)
    else
      var merged := Merge(s.runtime, b);
      var t := Bump(s.task).(thread := Choose(merged.identity.thread, s.task.thread),
                             turn := Choose(merged.identity.turn, s.task.turn),
                             phase := if b.phase.Some? then b.phase.value else s.task.phase,
                             state := Choose(b.state, s.task.state));
      Ok(Log(s.(task := t, runtime := Some(merged)), Codex, RuntimeBound(b.event)))
  }

  function BindKandevTask(s: Store, expected: nat, kandevTask: string): Outcome {
    if kandevTask == "" then Err(BadValue)
    else if s.task.revision != expected then Err(Stale)
    else if Truthy(s.task.kandev) then (if s.task.kandev.value != kandevTask then Err(Conflict) else Ok(s))
    else Ok(Log(s.(task := Bump(s.task).(kandev := Some(kandevTask))), Kandev, KandevBound))
  }

  function AttemptAgent(s: Store, step: AgentStep): Outcome {
    match step
    case Latch(operation, summary, identity) => LatchCompensation(s, operation, summary, identity)
    case RecordRequired(operation, summary, identity, reconciliation) =>
      RecordCompensationRequired(s, operation, summary, identity, reconciliation)
    case RecordSucceeded(operation, summary, identity) => RecordCompensationSucceeded(s, operation, summary, identity)
    case Reconcile(expected, note) => ReconcileSafety(s, expected, note)
    case BindRuntime(expected, binding) => BindCodexRuntime(s, expected, binding)
    case BindKandev(expected, kandevTask) => BindKandevTask(s, expected, kandevTask)
  }
}
