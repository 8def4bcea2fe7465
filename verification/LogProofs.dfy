/** The event log is complete: replaying it rebuilds the lease, every lifecycle status and both version counters. */
module LogProofs {
  import opened Prelude
  import opened Text
  import opened Model
  import opened ExecutionTx
  import opened WorkspaceTx
  import opened AgentTx
  import opened MemoryTx
  import opened CheckpointTx
  import opened ReplanTx
  import opened Steps
  import opened RevisionProofs

  /** What a reader of the log knows; `tenures` counts the acquisitions and handoffs seen. */
  datatype Replayed = Replayed(
    writer: ActiveWriter, epoch: nat, tenures: nat, mode: ExecutionMode, policy: HandoffPolicy,
    plans: seq<PlanStatus>, decisions: seq<DecisionStatus>, constraints: seq<ConstraintStatus>,
    intentVersion: nat, planVersion: nat)

  function SetAll<T>(xs: seq<T>, ids: seq<nat>, v: T): (out: seq<T>)
    ensures |out| == |xs|
    ensures forall i :: 0 <= i < |xs| ==> out[i] == if i in ids then v else xs[i]
  {
    seq(|xs|, i requires 0 <= i < |xs| => if i in ids then v else xs[i])
  }

  function SetOne<T>(xs: seq<T>, id: nat, v: T): seq<T> {
    if id < |xs| then xs[id := v] else xs
  }

  function Fold(before: Replayed, e: Event): Replayed {
    var r := before.(intentVersion := e.intentVersion, planVersion := e.planVersion);
    match e.kind
    case WriterAcquired(w, epoch) => r.(writer := w, epoch := epoch, tenures := r.tenures + 1)
    case WriterHandedOver(_, w, epoch) => r.(writer := w, epoch := epoch, tenures := r.tenures + 1)
    case WriterReleased(_, _) => r.(writer := NoWriter)
    case ModeChanged(_, mode) => r.(mode := mode)
    case PolicyChanged(_, policy) => r.(policy := policy)
    case PlanCreated(_) => r.(plans := r.plans + [Draft])
    case PlanApproved(p) => r.(plans := SetOne(r.plans, p, Approved))
    case PlanRejected(p, _) => r.(plans := SetOne(r.plans, p, Rejected))
    case PlanReplaced(p, _) => r.(plans := SetOne(r.plans, p, PlanSuperseded))
    case PlansWithdrawn(ps, _) => r.(plans := SetAll(r.plans, ps, PlanSuperseded))
    case DecisionAdded(_) => r.(decisions := r.decisions + [DecisionActive])
    case DecisionWithdrawn(d) => r.(decisions := SetOne(r.decisions, d, DecisionSuperseded))
    case ConstraintAdded(_) => r.(constraints := r.constraints + [ConstraintActive])
    case ConstraintWithdrawn(c) => r.(constraints := SetOne(r.constraints, c, ConstraintSuperseded))
    case _ => r
  }

  const FRESH := Replayed(NoWriter, 0, 0, Hybrid, ManualOnly, [], [], [], 1, 0)

  function Replay(from: Replayed, events: seq<Event>): Replayed {
    if events == [] then from else Fold(Replay(from, events[..|events| - 1]), events[|events| - 1])
  }

  function PlanStatuses(plans: seq<Plan>): (out: seq<PlanStatus>)
    ensures |out| == |plans| && forall i :: 0 <= i < |plans| ==> out[i] == plans[i].status
  {
    seq(|plans|, i requires 0 <= i < |plans| => plans[i].status)
  }

  function DecisionStatuses(ds: seq<Decision>): (out: seq<DecisionStatus>)
    ensures |out| == |ds| && forall i :: 0 <= i < |ds| ==> out[i] == ds[i].status
  {
    seq(|ds|, i requires 0 <= i < |ds| => ds[i].status)
  }

  function ConstraintStatuses(cs: seq<Constraint>): (out: seq<ConstraintStatus>)
    ensures |out| == |cs| && forall i :: 0 <= i < |cs| ==> out[i] == cs[i].status
  {
    seq(|cs|, i requires 0 <= i < |cs| => cs[i].status)
  }

  /** The same knowledge, read off the tables. */
  function Tables(s: Store): Replayed {
    Replayed(s.exec.writer, s.exec.epoch, s.exec.epoch, s.exec.mode, s.exec.policy,
             PlanStatuses(s.plans), DecisionStatuses(s.decisions), ConstraintStatuses(s.constraints),
             s.task.intentVersion, s.task.planVersion)
  }

  lemma {:induction false} ReplayThrough(from: Replayed, a: seq<Event>, b: seq<Event>)
    ensures Replay(from, a + b) == Replay(Replay(from, a), b)
  {
    if b == [] {
      assert a + b == a;
    } else {
      var n := |b| - 1;
      ReplayThrough(from, a, b[..n]);
      assert (a + b)[..|a + b| - 1] == a + b[..n];
    }
  }

  /** The step's own events: what it appended, and what a reader of them learns. */
  ghost predicate Appends(s: Store, t: Store, more: seq<Event>) {
    t.events == s.events + more && Replay(Tables(s), more) == Tables(t)
  }

  /** Equality, one component at a time, so that the status lists are compared element by element. */
  predicate Agree(a: Replayed, b: Replayed) {
    && a.writer == b.writer && a.epoch == b.epoch && a.tenures == b.tenures && a.mode == b.mode && a.policy == b.policy
    && a.plans == b.plans && a.decisions == b.decisions && a.constraints == b.constraints
    && a.intentVersion == b.intentVersion && a.planVersion == b.planVersion
  }

  lemma AppendsOne(s: Store, t: Store, e: Event)
    requires t.events == s.events + [e] && Agree(Fold(Tables(s), e), Tables(t))
    ensures Appends(s, t, [e])
  {
    assert [e][..0] == [];
  }

  lemma AppendsNone(s: Store, t: Store)
    requires t.events == s.events && Tables(s) == Tables(t)
    ensures Appends(s, t, [])
  {
  }

  /** Mode and policy. */
  lemma SettingAppends(s: Store, e: ExecutionStep) returns (more: seq<Event>)
    requires e.SetMode? || e.SetPolicy?
    ensures Appends(s, After(s, AttemptExecution(s, e)), more)
  {
    hide Appends, Replay, PlanStatuses, DecisionStatuses, ConstraintStatuses, TransitionSafe;
    var t := After(s, AttemptExecution(s, e));
    if |t.events| == |s.events| {
      AppendsNone(s, t);
      return [];
    } else {
      more := [t.events[|s.events|]];
      AppendsOne(s, t, more[0]);
    }
  }

  /** Acquisition, release and handoff. */
  lemma TenureAppends(s: Store, e: ExecutionStep) returns (more: seq<Event>)
    requires !e.SetMode? && !e.SetPolicy?
    ensures Appends(s, After(s, AttemptExecution(s, e)), more)
  {
    hide Appends, Replay, PlanStatuses, DecisionStatuses, ConstraintStatuses, Blank, Strip, Terminal, TransitionSafe,
         WriterRefusal;
    var t := After(s, AttemptExecution(s, e));
    if |t.events| == |s.events| {
      AppendsNone(s, t);
      return [];
    } else {
      more := [t.events[|s.events|]];
      AppendsOne(s, t, more[0]);
    }
  }

  lemma LeaseAppends(s: Store, e: ExecutionStep) returns (more: seq<Event>)
    ensures Appends(s, After(s, AttemptExecution(s, e)), more)
  {
    hide Appends, AttemptExecution;
    if e.SetMode? || e.SetPolicy? {
      more := SettingAppends(s, e);
    } else {
      more := TenureAppends(s, e);
    }
  }

  lemma WorkspaceAppends(s: Store, w: WorkspaceStep) returns (more: seq<Event>)
    ensures Appends(s, After(s, AttemptWorkspace(s, w)), more)
  {
    hide Appends, Replay, PlanStatuses, DecisionStatuses, ConstraintStatuses, Blank, Strip, Merge;
    var t := After(s, AttemptWorkspace(s, w));
    if t.events == s.events {
      AppendsNone(s, t);
      return [];
    } else {
      more := [t.events[|s.events|]];
      AppendsOne(s, t, more[0]);
    }
  }

  lemma AgentAppends(s: Store, a: AgentStep) returns (more: seq<Event>)
    ensures Appends(s, After(s, AttemptAgent(s, a)), more)
  {
    hide Appends, Replay, PlanStatuses, DecisionStatuses, ConstraintStatuses, Blank, Strip, Merge;
    var t := After(s, AttemptAgent(s, a));
    if |t.events| == |s.events| {
      AppendsNone(s, t);
      return [];
    } else {
      more := [t.events[|s.events|]];
      AppendsOne(s, t, more[0]);
    }
  }

  lemma CheckpointAppends(s: Store, c: CheckpointStep) returns (more: seq<Event>)
    ensures Appends(s, After(s, AttemptCheckpoint(s, c)), more)
  {
    hide Appends, Replay, PlanStatuses, DecisionStatuses, ConstraintStatuses, Blank, Strip, Merge;
    var t := After(s, AttemptCheckpoint(s, c));
    if |t.events| == |s.events| {
      AppendsNone(s, t);
      return [];
    } else {
      more := [t.events[|s.events|]];
      AppendsOne(s, t, more[0]);
    }
  }

  predicate InsertsRow(m: MemoryStep) {
    m.AddDecision? || m.SupersedeDecision? || m.AddConstraint? || m.SupersedeConstraint? || m.CreatePlan?
      || m.RejectPlan?
  }

  lemma RowAppends(s: Store, m: MemoryStep) returns (more: seq<Event>)
    requires InsertsRow(m) && AttemptMemory(s, m).Ok?
    ensures Appends(s, AttemptMemory(s, m).store, more)
  {
    var t := AttemptMemory(s, m).store;
    more := [t.events[|s.events|]];
    AppendsOne(s, t, more[0]);
  }

  lemma NoteAppends(s: Store, m: MemoryStep) returns (more: seq<Event>)
    requires !InsertsRow(m) && !m.ApprovePlan? && AttemptMemory(s, m).Ok?
    ensures Appends(s, AttemptMemory(s, m).store, more)
  {
    var t := AttemptMemory(s, m).store;
    more := [t.events[|s.events|]];
    AppendsOne(s, t, more[0]);
  }

  lemma MemoryAppends(s: Store, m: MemoryStep) returns (more: seq<Event>)
    ensures Appends(s, After(s, AttemptMemory(s, m)), more)
  {
    hide ApproveTaskPlan;
    if AttemptMemory(s, m).Err? {
      AppendsNone(s, s);
      return [];
    } else if m.ApprovePlan? {
      more := ApproveAppends(s, m.expected, m.plan, m.actor);
    } else if InsertsRow(m) {
      more := RowAppends(s, m);
    } else {
      more := NoteAppends(s, m);
    }
  }

  lemma ReplaySnoc(from: Replayed, events: seq<Event>, e: Event)
    ensures Replay(from, events + [e]) == Fold(Replay(from, events), e)
  {
    hide Fold;
    assert (events + [e])[..|events|] == events;
  }

  /** Reading the PLAN_SUPERSEDED events of an approval. */
  lemma {:induction false} ReplayReplacements(r: Replayed, t: Task, actor: Actor, ids: seq<nat>, plan: nat)
    requires r.intentVersion == t.intentVersion && r.planVersion == t.planVersion
    requires forall k :: 0 <= k < |ids| ==> ids[k] < |r.plans|
    ensures Replay(r, Replacements(t, actor, ids, plan)) == r.(plans := SetAll(r.plans, ids, PlanSuperseded))
  {
    if ids == [] {
      assert SetAll(r.plans, ids, PlanSuperseded) == r.plans;
    } else {
      var n := |ids| - 1;
      ReplayReplacements(r, t, actor, ids[..n], plan);
      hide Replay;
      ReplaySnoc(r, Replacements(t, actor, ids[..n], plan), EventFor(t, actor, PlanReplaced(ids[n], plan)));
      assert SetAll(r.plans, ids[..n], PlanSuperseded)[ids[n] := PlanSuperseded]
          == SetAll(r.plans, ids, PlanSuperseded);
    }
  }

  lemma ApproveAppends(s: Store, expected: nat, plan: nat, actor: Actor) returns (more: seq<Event>)
    requires ApproveTaskPlan(s, expected, plan, actor).Ok?
    ensures Appends(s, ApproveTaskPlan(s, expected, plan, actor).store, more)
  {
    var t := ApproveTaskPlan(s, expected, plan, actor).store;
    var ids := Where(s.plans, IsApproved);
    var replaced := Replacements(t.task, actor, ids, plan);
    var approved := EventFor(t.task, actor, PlanApproved(plan));
    more := replaced + [approved];
    assert t.events == s.events + more;
    var r := Tables(s);
    ReplayReplacements(r, t.task, actor, ids, plan);
    assert more[..|replaced|] == replaced;
    assert SetAll(r.plans, ids, PlanSuperseded)[plan := Approved] == PlanStatuses(t.plans);
  }

  /** Reading the DECISION_SUPERSEDED events of a hard replan. */
  lemma {:induction false} ReplayWithdrawals(r: Replayed, t: Task, ids: seq<nat>)
    requires r.intentVersion == t.intentVersion && r.planVersion == t.planVersion
    requires forall k :: 0 <= k < |ids| ==> ids[k] < |r.decisions|
    ensures Replay(r, Withdrawals(t, ids)) == r.(decisions := SetAll(r.decisions, ids, DecisionSuperseded))
  {
    if ids == [] {
      assert SetAll(r.decisions, ids, DecisionSuperseded) == r.decisions;
    } else {
      var n := |ids| - 1;
      ReplayWithdrawals(r, t, ids[..n]);
      hide Replay;
      ReplaySnoc(r, Withdrawals(t, ids[..n]), EventFor(t, Supervisor, DecisionWithdrawn(ids[n])));
      assert SetAll(r.decisions, ids[..n], DecisionSuperseded)[ids[n] := DecisionSuperseded]
          == SetAll(r.decisions, ids, DecisionSuperseded);
    }
  }

  lemma ReplayTwo(r: Replayed, a: Event, b: Event)
    ensures Replay(r, [a, b]) == Fold(Fold(r, a), b)
  {
    hide Fold;
    assert [a, b][..1] == [a] && [a][..0] == [];
    assert Replay(r, [a]) == Fold(r, a);
  }

  /** Reading the goal override and the PLAN_SUPERSEDED event that may follow it. */
  lemma ReplayOverride(r: Replayed, t: Task, replan: nat, goal: string, live: seq<nat>)
    requires r.planVersion == t.planVersion
    ensures Replay(r, OverrideEvents(t, replan, goal, live))
         == r.(intentVersion := t.intentVersion, plans := SetAll(r.plans, live, PlanSuperseded))
  {
    var a, b := EventFor(t, User, HardReplanRequested(replan)), EventFor(t, User, IntentUpdated(goal));
    var read := r.(intentVersion := t.intentVersion);
    ReplayTwo(r, a, b);
    assert Replay(r, [a, b]) == read;
    if live == [] {
      assert SetAll(r.plans, live, PlanSuperseded) == r.plans;
      assert [a, b] + [] == [a, b];
    } else {
      var e := EventFor(t, Supervisor, PlansWithdrawn(live, replan));
      assert ([a, b] + [e])[..2] == [a, b];
    }
  }

  lemma BeginAppends(s: Store, expected: nat, goal: string, reason: string) returns (more: seq<Event>)
    requires BeginHardReplan(s, expected, goal, reason).Ok?
    ensures Appends(s, BeginHardReplan(s, expected, goal, reason).store, more)
  {
    hide Replay, Fold, OverrideEvents, Withdrawals;
    var t := BeginHardReplan(s, expected, goal, reason).store;
    var live := WhereDesc(s.plans, LivePlan);
    var ids := Where(s.decisions, ActiveDisposition);
    var first := OverrideEvents(t.task, |s.replans|, t.task.goal.value, live);
    more := first + Withdrawals(t.task, ids);
    ReplayOverride(Tables(s), t.task, |s.replans|, t.task.goal.value, live);
    var r := Replay(Tables(s), first);
    ReplayThrough(Tables(s), first, Withdrawals(t.task, ids));
    ReplayWithdrawals(r, t.task, ids);
    assert SetAll(Tables(s).plans, live, PlanSuperseded) == PlanStatuses(t.plans);
    assert SetAll(r.decisions, ids, DecisionSuperseded) == DecisionStatuses(t.decisions);
  }

  lemma ClassifyAppends(s: Store, expected: nat, snapshot: nat, c: Classification) returns (more: seq<Event>)
    requires ClassifyWorkSnapshot(s, expected, snapshot, c).Ok?
    ensures Appends(s, ClassifyWorkSnapshot(s, expected, snapshot, c).store, more)
  {
    var t := ClassifyWorkSnapshot(s, expected, snapshot, c).store;
    more := [t.events[|s.events|], t.events[|s.events| + 1]];
    ReplayTwo(Tables(s), more[0], more[1]);
    assert DecisionStatuses(s.decisions) + [DecisionActive] == DecisionStatuses(t.decisions);
  }

  lemma ReplanAppends(s: Store, r: ReplanStep) returns (more: seq<Event>)
    ensures Appends(s, After(s, AttemptReplan(s, r)), more)
  {
    hide BeginHardReplan, ClassifyWorkSnapshot;
    var t := After(s, AttemptReplan(s, r));
    if AttemptReplan(s, r).Err? {
      AppendsNone(s, s);
      return [];
    }
    match r
    case Begin(expected, goal, reason) => more := BeginAppends(s, expected, goal, reason);
    case Classify(expected, snapshot, sorted) => more := ClassifyAppends(s, expected, snapshot, sorted);
    case Finalize(_, _, _, _) =>
      more := [t.events[|s.events|]];
      AppendsOne(s, t, more[0]);
    case _ =>
      AppendsNone(s, t);
      return [];
  }

  lemma StepAppends(s: Store, step: Step) returns (more: seq<Event>)
    ensures Appends(s, Apply(s, step), more)
  {
    hide AttemptExecution, AttemptWorkspace, AttemptAgent, AttemptMemory, AttemptCheckpoint, AttemptReplan;
    match step
    case LeaseOp(e) => more := LeaseAppends(s, e);
    case WorkspaceOp(w) => more := WorkspaceAppends(s, w);
    case AgentOp(a) => more := AgentAppends(s, a);
    case MemoryOp(m) => more := MemoryAppends(s, m);
    case CheckpointOp(c) => more := CheckpointAppends(s, c);
    case ReplanOp(r) => more := ReplanAppends(s, r);
  }

  /** Log completeness, over every run. */
  lemma {:induction false} LogRebuildsTables(s: Store, steps: seq<Step>)
    requires Replay(FRESH, s.events) == Tables(s)
    ensures Replay(FRESH, Run(s, steps).events) == Tables(Run(s, steps))
    ensures s.events <= Run(s, steps).events
  {
    hide Attempt;
    if steps != [] {
      var n := |steps| - 1;
      var t := Run(s, steps[..n]);
      LogRebuildsTables(s, steps[..n]);
      var more := StepAppends(t, steps[n]);
      ReplayThrough(FRESH, t.events, more);
    }
  }

  /** `record_event` with any event type: bump and append. Only the user override is one of the steps. */
  function RecordAnyEvent(s: Store, expected: nat, actor: Actor, kind: EventKind): Outcome {
    if s.task.revision != expected then Err(Stale) else Ok(Log(s.(task := Bump(s.task)), actor, kind))
  }

  /** The event says nothing that the tables do not hold already. */
  predicate Redundant(s: Store, kind: EventKind) {
    match kind
    case WriterAcquired(_, _) => false
    case WriterHandedOver(_, _, _) => false
    case WriterReleased(_, _) => s.exec.writer == NoWriter
    case ModeChanged(_, mode) => s.exec.mode == mode
    case PolicyChanged(_, policy) => s.exec.policy == policy
    case PlanCreated(_) => false
    case PlanApproved(p) => p < |s.plans| ==> s.plans[p].status == Approved
    case PlanRejected(p, _) => p < |s.plans| ==> s.plans[p].status == Rejected
    case PlanReplaced(p, _) => p < |s.plans| ==> s.plans[p].status == PlanSuperseded
    case PlansWithdrawn(ps, _) => forall p :: p in ps && p < |s.plans| ==> s.plans[p].status == PlanSuperseded
    case DecisionAdded(_) => false
    case DecisionWithdrawn(d) => d < |s.decisions| ==> s.decisions[d].status == DecisionSuperseded
    case ConstraintAdded(_) => false
    case ConstraintWithdrawn(c) => c < |s.constraints| ==> s.constraints[c].status == ConstraintSuperseded
    case _ => true
  }

  /** A freely recorded event leaves the log faithful to the tables exactly when it is redundant. */
  lemma AnyEventFaithfulExactly(s: Store, expected: nat, actor: Actor, kind: EventKind)
    requires Replay(FRESH, s.events) == Tables(s) && RecordAnyEvent(s, expected, actor, kind).Ok?
    ensures var t := RecordAnyEvent(s, expected, actor, kind).store;
            Replay(FRESH, t.events) == Tables(t) <==> Redundant(s, kind)
  {
    hide Replay;
    var t := RecordAnyEvent(s, expected, actor, kind).store;
    var e := EventFor(t.task, actor, kind);
    ReplaySnoc(FRESH, s.events, e);
    assert Tables(t) == Tables(s);
    RedundantExactly(s, e);
  }

  lemma RedundantExactly(s: Store, e: Event)
    requires e.intentVersion == s.task.intentVersion && e.planVersion == s.task.planVersion
    ensures Fold(Tables(s), e) == Tables(s) <==> Redundant(s, e.kind)
  {
    var r, f := Tables(s), Fold(Tables(s), e);
    match e.kind
    case PlanApproved(p) => assert p < |s.plans| ==> f.plans[p] == Approved;
    case PlanRejected(p, _) => assert p < |s.plans| ==> f.plans[p] == Rejected;
    case PlanReplaced(p, _) => assert p < |s.plans| ==> f.plans[p] == PlanSuperseded;
    case PlansWithdrawn(ps, _) =>
      if Redundant(s, e.kind) {
        assert f.plans == r.plans;
      } else {
        var p :| p in ps && p < |s.plans| && s.plans[p].status != PlanSuperseded;
        assert f.plans[p] == PlanSuperseded;
      }
    case DecisionWithdrawn(d) => assert d < |s.decisions| ==> f.decisions[d] == DecisionSuperseded;
    case ConstraintWithdrawn(c) => assert c < |s.constraints| ==> f.constraints[c] == ConstraintSuperseded;
    case PlanCreated(_) => assert |f.plans| == |r.plans| + 1;
    case DecisionAdded(_) => assert |f.decisions| == |r.decisions| + 1;
    case ConstraintAdded(_) => assert |f.constraints| == |r.constraints| + 1;
    case _ =>
  }
}
