/**
 Any number of remote starts in flight at once: each is a program counter with the store its gate saw, and its moves
 interleave freely with each other and with every transaction of the store.
 */
module ConcurrentStarts {
  import opened Prelude
  import opened Model
  import opened ExecutionTx
  import opened WorkspaceTx
  import opened AgentTx
  import opened MemoryTx
  import opened CheckpointTx
  import opened ReplanTx
  import opened Steps
  import opened RevisionProofs
  import opened StartProtocol
  import opened StartProofs

  /** What a start captured at its gate. */
  datatype Origin = Origin(expected: nat, request: StartRequest, seen: Store)

  datatype Progress =
    | Calling                             // the remote call is awaited
    | Rechecked(handle: PlanHandle)       // nothing was found stale; the bind comes next
    | Compensating(handle: PlanHandle)    // the latch is set; the interrupt is awaited
    | Over(outcome: StartOutcome)

  datatype InFlight = InFlight(origin: Origin, at: Progress)

  datatype Machine = Machine(store: Store, starts: seq<InFlight>)

  datatype Action =
    | Transaction(step: Step)
    | Launch(expected: nat, request: StartRequest)
    | Answered(id: nat, reply: StartReply)
    | TryBind(id: nat)
    | InterruptAnswered(id: nat, interrupt: InterruptReply)

  predicate Enabled(m: Machine, a: Action) {
    match a
    case Transaction(_) => true
    case Launch(_, _) => true
    case Answered(id, _) => id < |m.starts| && m.starts[id].at.Calling?
    case TryBind(id) => id < |m.starts| && m.starts[id].at.Rechecked?
    case InterruptAnswered(id, _) => id < |m.starts| && m.starts[id].at.Compensating?
  }

  function Moved(m: Machine, id: nat, store: Store, at: Progress): Machine
    requires id < |m.starts|
  {
    Machine(store, m.starts[id := m.starts[id].(at := at)])
  }

  function LatchStep(f: InFlight, h: PlanHandle): Step {
    AgentOp(LatchFor(OperationOf(f.origin.request), h))
  }

  function BindStep(f: InFlight, h: PlanHandle): Step {
    AgentOp(BindRuntime(f.origin.expected, BindingFor(f.origin.request, h)))
  }

  /** The re-check of one start against the store as it is now. */
  function Recheck(s: Store, o: Origin, h: PlanHandle): seq<StaleReason> {
    StaleReasons(s, o.expected, o.request, BaselineOf(o.seen), h)
  }

  /** An action that is not enabled does nothing. */
  function Act(m: Machine, a: Action): Machine {
    if !Enabled(m, a) then m
    else
      match a
      case Transaction(step) => m.(store := Apply(m.store, step))
      case Launch(expected, q) =>
        var gate := StartGate(m.store, expected, q);
        m.(starts := m.starts + [InFlight(Origin(expected, q, m.store),
                                          if gate.Some? then Over(NotStarted(gate.value)) else Calling)])
      case Answered(id, CallRaised) => Moved(m, id, m.store, Over(CallFailed))
      case Answered(id, Handle(h)) =>
        if Recheck(m.store, m.starts[id].origin, h) == [] then Moved(m, id, m.store, Rechecked(h))
        else Moved(m, id, Apply(m.store, LatchStep(m.starts[id], h)), Compensating(h))
      case TryBind(id) =>
        var h := m.starts[id].at.handle;
        if Attempt(m.store, BindStep(m.starts[id], h)).Ok?
        then Moved(m, id, Apply(m.store, BindStep(m.starts[id], h)), Over(Bound))
        else Moved(m, id, Apply(m.store, LatchStep(m.starts[id], h)), Compensating(h))
      case InterruptAnswered(id, reply) =>
        var f := m.starts[id];
        Moved(m, id, Apply(m.store, AgentOp(Verdict(OperationOf(f.origin.request), f.at.handle, reply))),
              Over(if Confirmed(reply) then StaleContext else CompensationOpen))
  }

  function Acts(m: Machine, actions: seq<Action>): Machine {
    if actions == [] then m else Act(Acts(m, actions[..|actions| - 1]), actions[|actions| - 1])
  }

  /** The start passed its gate on the store it captured, and the store has moved on by whole revisions since. */
  predicate Tracked(s: Store, o: Origin) {
    StartGate(o.seen, o.expected, o.request).None? && o.seen.task.revision == o.expected && Fenced(o.seen, s)
  }

  predicate StartOk(s: Store, f: InFlight) {
    && (f.at.Calling? || f.at.Rechecked? || f.at == Over(Bound) ==> Tracked(s, f.origin))
    && (f.at.Rechecked? ==> !AckUnknown(f.at.handle))
    && (f.at == Over(Bound) ==> f.origin.expected < s.task.revision)
  }

  ghost predicate MachineInv(m: Machine) {
    && (forall i :: 0 <= i < |m.starts| ==> StartOk(m.store, m.starts[i]))
    && (forall i, j :: 0 <= i < j < |m.starts| && m.starts[i].at == Over(Bound) && m.starts[j].at == Over(Bound) ==>
          m.starts[i].origin.expected != m.starts[j].origin.expected)
  }

  lemma StartCarriesOver(s: Store, t: Store, f: InFlight)
    requires StartOk(s, f) && Fenced(s, t)
    ensures StartOk(t, f)
  {
    hide StartGate, AckUnknown;
  }

  lemma StoreMoves(m: Machine, t: Store)
    requires MachineInv(m) && Fenced(m.store, t)
    ensures MachineInv(m.(store := t))
  {
    hide StartOk;
    forall i | 0 <= i < |m.starts| ensures StartOk(t, m.starts[i]) {
      StartCarriesOver(m.store, t, m.starts[i]);
    }
  }

  /** One start moves to a state that is not Bound. */
  lemma StartMoves(m: Machine, id: nat, t: Store, at: Progress)
    requires MachineInv(m) && Fenced(m.store, t) && id < |m.starts|
    requires StartOk(t, m.starts[id].(at := at)) && at != Over(Bound)
    ensures MachineInv(Moved(m, id, t, at))
  {
    hide StartOk;
    StoreMoves(m, t);
  }

  lemma BindMoves(m: Machine, id: nat)
    requires MachineInv(m) && Enabled(m, TryBind(id))
    requires Attempt(m.store, BindStep(m.starts[id], m.starts[id].at.handle)).Ok?
    ensures MachineInv(Act(m, TryBind(id)))
    ensures Act(m, TryBind(id)).starts[id].at == Over(Bound)
  {
    hide StartGate, AckUnknown, BindingFor, AttemptExecution, AttemptWorkspace, AttemptMemory, AttemptCheckpoint,
         AttemptReplan, Merge, Fenced;
    var f := m.starts[id];
    var step := BindStep(f, f.at.handle);
    var t := Apply(m.store, step);
    assert m.store.task.revision == f.origin.expected && t.task.revision == f.origin.expected + 1;
    StepRevision(m.store, step);
    hide Attempt;
    StoreMoves(m, t);
    StartCarriesOver(m.store, t, f);
  }

  /** The re-check of a tracked start is the revision check, whatever else is going on. */
  lemma RecheckOfTracked(s: Store, o: Origin, h: PlanHandle)
    requires Tracked(s, o)
    ensures Recheck(s, o, h) == [] <==> s.task.revision == o.expected && !AckUnknown(h)
  {
    hide StartGate, AckUnknown, LeaseReasons, TaskReasons, BaselineOf;
    if s.task.revision == o.expected {
      RecheckOnSameTables(o.seen, s, o.expected, o.request, h);
    } else {
      assert Recheck(s, o, h)[0] == RevisionMoved;
    }
  }

  lemma LaunchKeeps(m: Machine, expected: nat, q: StartRequest)
    requires MachineInv(m)
    ensures MachineInv(Act(m, Launch(expected, q)))
  {
    hide AckUnknown, Apply, Attempt;
    if StartGate(m.store, expected, q).None? {
      GateRevision(m.store, expected, q);
    }
    hide StartGate;
  }

  lemma ActKeeps(m: Machine, a: Action)
    requires MachineInv(m)
    ensures MachineInv(Act(m, a))
  {
    hide MachineInv, StartGate, AckUnknown, Attempt, BaselineOf, StaleReasons, Fenced, Verdict, Confirmed;
    if Enabled(m, a) {
      match a
      case Transaction(step) =>
        StepRevision(m.store, step);
        StoreMoves(m, Apply(m.store, step));
      case Launch(expected, q) => LaunchKeeps(m, expected, q);
      case Answered(id, reply) => AnswerKeeps(m, id, reply);
      case TryBind(id) =>
        var h := m.starts[id].at.handle;
        if Attempt(m.store, BindStep(m.starts[id], h)).Ok? {
          BindMoves(m, id);
        } else {
          LatchKeeps(m, id, h);
        }
      case InterruptAnswered(id, reply) =>
        var f := m.starts[id];
        var step := AgentOp(Verdict(OperationOf(f.origin.request), f.at.handle, reply));
        StepRevision(m.store, step);
        StartMoves(m, id, Apply(m.store, step), Over(if Confirmed(reply) then StaleContext else CompensationOpen));
    }
  }

  lemma LatchKeeps(m: Machine, id: nat, h: PlanHandle)
    requires MachineInv(m) && id < |m.starts|
    ensures MachineInv(Moved(m, id, Apply(m.store, LatchStep(m.starts[id], h)), Compensating(h)))
  {
    hide MachineInv, StartGate, AckUnknown, Attempt, Fenced, Tracked;
    var step := LatchStep(m.starts[id], h);
    StepRevision(m.store, step);
    StartMoves(m, id, Apply(m.store, step), Compensating(h));
  }

  lemma AnswerKeeps(m: Machine, id: nat, reply: StartReply)
    requires MachineInv(m) && Enabled(m, Answered(id, reply))
    ensures MachineInv(Act(m, Answered(id, reply)))
  {
    hide StartGate, AckUnknown, Attempt, BaselineOf, StaleReasons;
    var f := m.starts[id];
    assert StartOk(m.store, f);
    hide MachineInv;
    if reply.CallRaised? {
      StartMoves(m, id, m.store, Over(CallFailed));
    } else if Recheck(m.store, f.origin, reply.handle) == [] {
      RecheckOfTracked(m.store, f.origin, reply.handle);
      StartMoves(m, id, m.store, Rechecked(reply.handle));
    } else {
      LatchKeeps(m, id, reply.handle);
    }
  }

  lemma {:induction false} ActsKeep(m: Machine, actions: seq<Action>)
    requires MachineInv(m)
    ensures MachineInv(Acts(m, actions))
  {
    hide Act;
    if actions != [] {
      var n := |actions| - 1;
      ActsKeep(m, actions[..n]);
      ActKeeps(Acts(m, actions[..n]), actions[n]);
    }
  }

  /** However starts and transactions interleave, at most one start binds on any revision. */
  lemma OneBoundPerRevision(s: Store, actions: seq<Action>, i: nat, j: nat)
    requires var m := Acts(Machine(s, []), actions);
             && i < |m.starts| && j < |m.starts|
             && m.starts[i].at == Over(Bound) && m.starts[j].at == Over(Bound)
             && m.starts[i].origin.expected == m.starts[j].origin.expected
    ensures i == j
  {
    hide Acts, StartOk;
    ActsKeep(Machine(s, []), actions);
  }

  /**
   Fence of the machine: a start whose handle arrives goes on to its bind exactly when the revision is still the one its
   gate saw and the acknowledgement is known; and the bind then takes effect exactly when that is still so.
   */
  lemma MachineFence(s: Store, actions: seq<Action>, id: nat, h: PlanHandle)
    requires id < |Acts(Machine(s, []), actions).starts|
    ensures var m := Acts(Machine(s, []), actions);
            var o := m.starts[id].origin;
            && (m.starts[id].at.Calling? ==>
                  (Act(m, Answered(id, Handle(h))).starts[id].at == Rechecked(h)
                   <==> m.store.task.revision == o.seen.task.revision && !AckUnknown(h)))
            && (m.starts[id].at.Rechecked? ==>
                  (Act(m, TryBind(id)).starts[id].at == Over(Bound) <==> m.store.task.revision == o.seen.task.revision))
  {
    hide Acts, StartGate, AckUnknown, BaselineOf, StaleReasons, BindingFor, Merge,
         AttemptExecution, AttemptWorkspace, AttemptMemory, AttemptCheckpoint, AttemptReplan;
    var m := Acts(Machine(s, []), actions);
    ActsKeep(Machine(s, []), actions);
    assert StartOk(m.store, m.starts[id]);
    if m.starts[id].at.Calling? {
      RecheckOfTracked(m.store, m.starts[id].origin, h);
    }
  }

  /** A start that is not yet bound when its revision is spent will never be. */
  lemma {:induction false} SpentRevisionNeverBinds(m: Machine, actions: seq<Action>, id: nat)
    requires MachineInv(m) && id < |m.starts| && m.starts[id].at != Over(Bound)
    requires m.starts[id].origin.expected < m.store.task.revision
    ensures var n := Acts(m, actions);
            && id < |n.starts| && n.starts[id].at != Over(Bound) && n.starts[id].origin == m.starts[id].origin
            && m.store.task.revision <= n.store.task.revision
  {
    hide Act;
    if actions != [] {
      var k := |actions| - 1;
      SpentRevisionNeverBinds(m, actions[..k], id);
      SpentActNeverBinds(Acts(m, actions[..k]), actions[k], id);
    }
  }

  lemma SpentActNeverBinds(m: Machine, a: Action, id: nat)
    requires id < |m.starts| && m.starts[id].at != Over(Bound) && m.starts[id].origin.expected < m.store.task.revision
    ensures var n := Act(m, a);
            && id < |n.starts| && n.starts[id].at != Over(Bound) && n.starts[id].origin == m.starts[id].origin
            && m.store.task.revision <= n.store.task.revision
  {
    hide StartGate, AckUnknown, Attempt, BaselineOf, StaleReasons, Verdict, Confirmed;
    if Enabled(m, a) {
      match a
      case Transaction(step) => StepRevision(m.store, step);
      case Launch(_, _) =>
      case Answered(i, reply) =>
        if reply.Handle? { StepRevision(m.store, LatchStep(m.starts[i], reply.handle)); }
      case TryBind(i) =>
        var h := m.starts[i].at.handle;
        StepRevision(m.store, LatchStep(m.starts[i], h));
        StepRevision(m.store, BindStep(m.starts[i], h));
        if i == id {
          SpentBindRefused(m.store, m.starts[i].origin.expected, BindingFor(m.starts[i].origin.request, h));
        }
      case InterruptAnswered(i, reply) =>
        StepRevision(m.store, AgentOp(Verdict(OperationOf(m.starts[i].origin.request), m.starts[i].at.handle, reply)));
    }
  }

  lemma SpentBindRefused(s: Store, expected: nat, b: RuntimeBinding)
    requires s.task.revision != expected
    ensures Attempt(s, AgentOp(BindRuntime(expected, b))).Err?
  {
    hide AttemptExecution, AttemptWorkspace, AttemptMemory, AttemptCheckpoint, AttemptReplan;
  }

  // ---- the safety latch in the machine ----

  /** The action clears a latch: a clearing transaction, or a confirmed interrupt of some compensating start. */
  predicate ClearsLatch(m: Machine, a: Action) {
    match a
    case Transaction(step) => ClearsSafety(m.store, step)
    case InterruptAnswered(_, reply) => Enabled(m, a) && Confirmed(reply)
    case _ => false
  }

  lemma MachineLatchClearedExactlyBy(m: Machine, a: Action)
    requires !SafetyClear(m.store)
    ensures SafetyClear(Act(m, a).store) <==> ClearsLatch(m, a)
  {
    hide StartGate, AckUnknown, Attempt, StaleReasons, BaselineOf, SafetyClear, BindingFor, Confirmed;
    if Enabled(m, a) {
      match a
      case Transaction(step) => LatchClearedExactlyBy(m.store, step);
      case Launch(_, _) =>
      case Answered(i, reply) =>
        if reply.Handle? { LatchClearedExactlyBy(m.store, LatchStep(m.starts[i], reply.handle)); }
      case TryBind(i) =>
        LatchClearedExactlyBy(m.store, LatchStep(m.starts[i], m.starts[i].at.handle));
        LatchClearedExactlyBy(m.store, BindStep(m.starts[i], m.starts[i].at.handle));
      case InterruptAnswered(i, reply) =>
        var step := AgentOp(Verdict(OperationOf(m.starts[i].origin.request), m.starts[i].at.handle, reply));
        LatchClearedExactlyBy(m.store, step);
        RaisedIsUnconfirmed(reply);
    }
  }

  /** Going over to compensation sets the latch. */
  lemma CompensationLatches(m: Machine, a: Action, id: nat)
    requires id < |Act(m, a).starts| && Act(m, a).starts[id].at.Compensating?
    requires id < |m.starts| ==> !m.starts[id].at.Compensating?
    ensures !SafetyClear(Act(m, a).store)
  {
    hide StartGate, AckUnknown, StaleReasons, BaselineOf, BindingFor, Confirmed, Verdict,
         AttemptExecution, AttemptWorkspace, AttemptMemory, AttemptCheckpoint, AttemptReplan;
  }

  /** The start is the only one whose interrupt is awaited. */
  ghost predicate SoleCompensation(m: Machine, id: nat) {
    forall i :: 0 <= i < |m.starts| ==> (m.starts[i].at.Compensating? <==> i == id)
  }

  /** A transaction that records a success, or reconciles on the current revision. */
  predicate ClearsByHand(m: Machine, a: Action) {
    a.Transaction? && ClearsSafety(m.store, a.step)
  }

  lemma PrefixOfPrefix(actions: seq<Action>, n: nat, k: nat)
    requires k <= n <= |actions|
    ensures actions[..n][..k] == actions[..k]
  {
  }

  /**
   While exactly one start is compensating and nobody else clears the row, safety stays set at every point and no start
   passes its gate.
   */
  lemma {:induction false} SoleCompensationHolds(m: Machine, actions: seq<Action>, id: nat)
    requires !SafetyClear(m.store) && id < |m.starts|
    requires forall k :: 0 <= k <= |actions| ==> SoleCompensation(Acts(m, actions[..k]), id)
    requires forall k :: 0 <= k < |actions| ==> !ClearsByHand(Acts(m, actions[..k]), actions[k])
    ensures var n := Acts(m, actions);
            && id < |n.starts| && !SafetyClear(n.store)
            && forall expected, q :: StartGate(n.store, expected, q).Some?
  {
    hide Act, StartGate, SafetyClear, SoleCompensation, ClearsByHand;
    if actions == [] {
    } else {
      var n := |actions| - 1;
      forall k | 0 <= k <= n ensures actions[..n][..k] == actions[..k] { PrefixOfPrefix(actions, n, k); }
      SoleCompensationHolds(m, actions[..n], id);
      var before := Acts(m, actions[..n]);
      assert actions[..n + 1] == actions;
      assert SoleCompensation(before, id) && SoleCompensation(Act(before, actions[n]), id);
      assert !ClearsByHand(before, actions[n]);
      SoleStep(before, actions[n], id);
    }
    forall expected, q ensures StartGate(Acts(m, actions).store, expected, q).Some? {
      GateRefuses(Acts(m, actions).store, expected, q);
    }
  }

  lemma SoleStep(m: Machine, a: Action, id: nat)
    requires id < |m.starts| && SoleCompensation(m, id) && SoleCompensation(Act(m, a), id)
    requires !SafetyClear(m.store) && !ClearsByHand(m, a)
    ensures id < |Act(m, a).starts| && !SafetyClear(Act(m, a).store)
  {
    hide Act, StartGate, SafetyClear, Confirmed;
    StartsGrow(m, a);
    MachineLatchClearedExactlyBy(m, a);
    if a.InterruptAnswered? && Enabled(m, a) {
      AnsweredIsOver(m, a.id, a.interrupt);
    }
  }

  lemma StartsGrow(m: Machine, a: Action)
    ensures |m.starts| <= |Act(m, a).starts|
  {
    hide StartGate, Attempt, StaleReasons, BaselineOf;
  }

  lemma AnsweredIsOver(m: Machine, id: nat, reply: InterruptReply)
    requires Enabled(m, InterruptAnswered(id, reply))
    ensures id < |Act(m, InterruptAnswered(id, reply)).starts|
    ensures !Act(m, InterruptAnswered(id, reply)).starts[id].at.Compensating?
  {
    hide StartGate, Attempt, Confirmed, Verdict;
  }

  lemma ActsSnoc(m: Machine, actions: seq<Action>, a: Action)
    ensures Acts(m, actions + [a]) == Act(Acts(m, actions), a)
  {
    hide Act;
    assert (actions + [a])[..|actions|] == actions;
  }

  /** Two plan starts on one revision, both with unknown acknowledgements; then the first interrupt is confirmed. */
  function Overlap(expected: nat, a: PlanHandle, b: PlanHandle, reply: InterruptReply): seq<Action> {
    [Launch(expected, PlanStart)] + [Launch(expected, PlanStart)] + [Answered(0, Handle(a))] + [Answered(1, Handle(b))]
    + [InterruptAnswered(0, reply)]
  }

  lemma UnknownIsReported(s: Store, o: Origin, h: PlanHandle)
    requires AckUnknown(h)
    ensures Recheck(s, o, h) != []
  {
    hide AckUnknown, TaskReasons, LeaseReasons, BaselineOf;
    var r := Recheck(s, o, h);
    assert r[|r| - 1] == AcknowledgementUnknown;
  }

  lemma BothLaunched(s: Store, expected: nat)
    requires StartGate(s, expected, PlanStart).None?
    ensures var f := InFlight(Origin(expected, PlanStart, s), Calling);
            Act(Act(Machine(s, []), Launch(expected, PlanStart)), Launch(expected, PlanStart)) == Machine(s, [f, f])
  {
    hide StartGate, Attempt, StaleReasons;
  }

  lemma AnsweredUnknown(m: Machine, id: nat, h: PlanHandle)
    requires id < |m.starts| && m.starts[id].at.Calling? && AckUnknown(h)
    ensures var n := Act(m, Answered(id, Handle(h)));
            n.starts == m.starts[id := m.starts[id].(at := Compensating(h))]
  {
    hide StartGate, AckUnknown, Recheck, Attempt;
    UnknownIsReported(m.store, m.starts[id].origin, h);
  }

  lemma ConfirmedClears(m: Machine, id: nat, reply: InterruptReply)
    requires id < |m.starts| && m.starts[id].at.Compensating? && Confirmed(reply)
    ensures var n := Act(m, InterruptAnswered(id, reply));
            && SafetyClear(n.store)
            && n.starts == m.starts[id := m.starts[id].(at := Over(StaleContext))]
  {
    hide StartGate, Confirmed, AttemptExecution, AttemptWorkspace, AttemptMemory, AttemptCheckpoint, AttemptReplan;
    RaisedIsUnconfirmed(reply);
  }

  /**
   The latch is one row for all starts: in this schedule the first confirmed interrupt clears it while the second start
   still waits for its own.
   */
  lemma OverlappingCompensationsClear(s: Store, expected: nat, a: PlanHandle, b: PlanHandle, reply: InterruptReply)
    requires StartGate(s, expected, PlanStart).None? && AckUnknown(a) && AckUnknown(b) && Confirmed(reply)
    ensures var m := Acts(Machine(s, []), Overlap(expected, a, b, reply));
            && |m.starts| == 2 && m.starts[0].at == Over(StaleContext) && m.starts[1].at == Compensating(b)
            && SafetyClear(m.store)
  {
    hide Act, StartGate, AckUnknown, Confirmed, SafetyClear;
    var m := Machine(s, []);
    var launch := Launch(expected, PlanStart);
    assert [] + [launch] == [launch];
    ActsSnoc(m, [], launch);
    ActsSnoc(m, [launch], launch);
    BothLaunched(s, expected);
    ActsSnoc(m, [launch] + [launch], Answered(0, Handle(a)));
    var both := Acts(m, [launch] + [launch]);
    AnsweredUnknown(both, 0, a);
    var one := Acts(m, [launch] + [launch] + [Answered(0, Handle(a))]);
    ActsSnoc(m, [launch] + [launch] + [Answered(0, Handle(a))], Answered(1, Handle(b)));
    AnsweredUnknown(one, 1, b);
    var two := Acts(m, [launch] + [launch] + [Answered(0, Handle(a))] + [Answered(1, Handle(b))]);
    ActsSnoc(m, [launch] + [launch] + [Answered(0, Handle(a))] + [Answered(1, Handle(b))], InterruptAnswered(0, reply));
    ConfirmedClears(two, 0, reply);
  }
}
