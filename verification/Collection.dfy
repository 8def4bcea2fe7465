/** supervisor/checkpoints.py, `CheckpointService.collect`: observe, normalise, and store what is new. */
module Collection {
  import opened Prelude
  import opened Model
  import opened ExecutionTx
  import opened WorkspaceTx
  import opened AgentTx
  import opened MemoryTx
  import opened CheckpointTx
  import opened ReplanTx
  import opened Steps
  import opened RevisionProofs
  import opened ReviewProofs
  import opened MemoryStores
  import opened StoreRuns
  import opened Progress
  import CheckpointStore

  /** What the remote side answered: a provider-neutral snapshot, or the control plane's documents. */
  datatype Source = FromAgent(agent: AgentReport) | FromControl(control: ControlReport, patterns: Patterns)

  const NOTHING := ControlReport(None, None, None, [], [])

  /** Without a runtime row there is nothing to observe. */
  function Effective(runtime: Option<Runtime>, source: Source): Source {
    if runtime.Some? then source
    else FromControl(NOTHING, Patterns(_ => false, _ => false, _ => false, (_, _) => []))
  }

  /** `latest_checkpoint`: the row with the highest sequence. */
  function Latest(checkpoints: seq<Checkpoint>): Option<Previous> {
    if checkpoints == [] then None
    else
      var c := checkpoints[|checkpoints| - 1];
      Some(Previous(c.remoteStatus, c.nextAction))
  }

  function Normalized(source: Source, previous: Option<Previous>, force: bool, bucket: int): NormalizedProgress {
    match source
    case FromAgent(a) => NormalizedAgent(a, previous, force, bucket)
    case FromControl(r, p) => NormalizedControl(r, p, previous, force, bucket)
  }

  function OperationRef(): string { "codex-operation:" }
  function WorkflowRef(): string { "codex-workflow:" }

  function EvidenceRefs(runtime: Option<Runtime>, source: Source): seq<string> {
    (if source.FromAgent? then source.agent.evidence else [])
    + (if runtime.Some? && Truthy(runtime.value.identity.operation)
       then [OperationRef() + runtime.value.identity.operation.value] else [])
    + (if runtime.Some? && Truthy(runtime.value.identity.workflow)
       then [WorkflowRef() + runtime.value.identity.workflow.value] else [])
  }

  function ObservedBy(runtime: Option<Runtime>, source: Source, n: NormalizedProgress): Observed {
    var identity := if source.FromAgent? then source.agent.identity
                    else if runtime.Some? then runtime.value.identity else NO_IDENTITY;
    Observed(n.checkpointType, n.fingerprint, n.trigger, identity, n.status, n.nextAction, n.report,
             EvidenceRefs(runtime, source), n.rawEvents)
  }

  /** The observation that `collect` submits, once the remote side has answered. */
  function Observation(s: Store, later: Store, source: Source, force: bool, bucket: int): Observed {
    var effective := Effective(s.runtime, source);
    ObservedBy(s.runtime, effective, Normalized(effective, Latest(later.checkpoints), force, bucket))
  }

  /** `collect`: the revision is read before the observation and checked after it. */
  function Collected(s: Store, source: Source, during: seq<Step>, force: bool, bucket: int): (Store, Reply) {
    var later := Run(s, during);
    var outcome := CreateCheckpoint(later, s.task.revision, Observation(s, later, source, force, bucket));
    (After(later, outcome), ReplyOf(outcome))
  }

  class CheckpointService {
    const store: MemoryStore

    constructor (store: MemoryStore)
      ensures this.store == store
    {
      this.store := store;
    }

    method Collect(source: Source, during: seq<Step>, force: bool, bucket: int) returns (r: Reply)
      modifies store
      ensures (store.db, r) == Collected(old(store.db), source, during, force, bucket)
    {
      hide Run, Attempt, NormalizedAgent, NormalizedControl, OperationRef, WorkflowRef, CreateCheckpoint;
      var revision, runtime := store.db.task.revision, store.db.runtime;
      var effective := Effective(runtime, source);
      Elapse(store, during);
      var previous := Latest(store.db.checkpoints);
      var n: NormalizedProgress;
      match effective {
        case FromAgent(a) => n := NormalizeAgentSnapshot(a, previous, force, bucket);
        case FromControl(c, p) => n := NormalizeProgressSnapshot(c, p, previous, force, bucket);
      }
      var refs := if effective.FromAgent? then effective.agent.evidence else [];
      if runtime.Some? && Truthy(runtime.value.identity.operation) {
        refs := refs + [OperationRef() + runtime.value.identity.operation.value];
      }
      if runtime.Some? && Truthy(runtime.value.identity.workflow) {
        refs := refs + [WorkflowRef() + runtime.value.identity.workflow.value];
      }
      assert refs == EvidenceRefs(runtime, effective);
      r := CheckpointStore.CreateCheckpoint(store, revision, ObservedBy(runtime, effective, n));
    }
  }

  /** A gate, or progress of its own: the observation looks the same whenever it is made. */
  predicate SelfContained(source: Source) {
    match source
    case FromAgent(a) => AgentGates(a) != [] || OwnProgress(a.report)
    case FromControl(r, p) => var t := ControlTally(r, p); t.gates != [] || ControlOwn(t)
  }

  lemma SelfContainedIsFixed(source: Source, x: Option<Previous>, y: Option<Previous>, f: bool, g: bool, b: int, c: int)
    requires SelfContained(source)
    ensures Normalized(source, x, f, b) == Normalized(source, y, g, c)
    ensures Normalized(source, x, f, b).checkpointType != Heartbeat
  {
    hide AgentGates, OwnProgress, ControlTally, ControlOwn, TriggerOf, Bounded, ControlReportOf;
    match source
    case FromAgent(a) => AgentObservationFixed(a, x, y, f, g, b, c);
    case FromControl(r, p) => ControlObservationFixed(r, p, x, y, f, g, b, c);
  }

  /** Collecting fails exactly when something moved the revision during the observation, and then changes nothing. */
  lemma CollectFence(s: Store, source: Source, during: seq<Step>, force: bool, bucket: int)
    ensures var later := Run(s, during);
            var (t, r) := Collected(s, source, during, force, bucket);
            && (r == Done <==> later.task.revision == s.task.revision)
            && (r != Done ==> r == Refused(Stale) && t == later)
            && (r == Done ==>
                  t == later || (|t.checkpoints| == |later.checkpoints| + 1 && t.task.revision <= s.task.revision + 1))
  {
    hide Run, Observation, Recorded, MaxSequence;
  }

  lemma StepKeepsRecorded(s: Store, step: Step, fingerprint: Fingerprint)
    requires Recorded(s.checkpoints, fingerprint)
    ensures Recorded(Apply(s, step).checkpoints, fingerprint)
  {
    hide AttemptExecution, AttemptWorkspace, AttemptAgent, AttemptMemory, AttemptReplan;
    var t := Apply(s, step);
    if !step.CheckpointOp? {
      OthersKeepReviews(s, step);
    } else {
      var i :| 0 <= i < |s.checkpoints| && s.checkpoints[i].fingerprint == fingerprint;
      assert t.checkpoints[i] == s.checkpoints[i];
    }
  }

  lemma {:induction false} RecordedForGood(s: Store, steps: seq<Step>, fingerprint: Fingerprint)
    requires Recorded(s.checkpoints, fingerprint)
    ensures Recorded(Run(s, steps).checkpoints, fingerprint)
  {
    hide Attempt, Recorded;
    if steps != [] {
      var n := |steps| - 1;
      RecordedForGood(s, steps[..n], fingerprint);
      StepKeepsRecorded(Run(s, steps[..n]), steps[n], fingerprint);
    }
  }

  lemma RuntimeStepStays(s: Store, step: Step)
    requires s.runtime.Some?
    ensures Apply(s, step).runtime.Some?
  {
    hide AttemptMemory, AttemptReplan;
    match step
    case MemoryOp(m) => MemoryKeepsRuntime(s, m);
    case ReplanOp(r) => ReplanKeepsRuntime(s, r);
    case _ =>
  }

  lemma MemoryKeepsRuntime(s: Store, m: MemoryStep)
    ensures After(s, AttemptMemory(s, m)).runtime == s.runtime
  {
  }

  lemma ReplanKeepsRuntime(s: Store, r: ReplanStep)
    ensures After(s, AttemptReplan(s, r)).runtime.Some? == s.runtime.Some?
  {
  }

  /** A runtime row is never taken away. */
  lemma {:induction false} RuntimeStays(s: Store, steps: seq<Step>)
    requires s.runtime.Some?
    ensures Run(s, steps).runtime.Some?
  {
    hide Attempt;
    if steps != [] {
      var n := |steps| - 1;
      RuntimeStays(s, steps[..n]);
      RuntimeStepStays(Run(s, steps[..n]), steps[n]);
    }
  }

  /**
   Observation dedup: once a self-contained observation was stored, collecting it again, after any steps and with any
   steps in between, never creates a checkpoint and never moves the revision.
   */
  lemma CollectedOnce(s: Store, source: Source, during: seq<Step>, force: bool, bucket: int,
                      steps: seq<Step>, again: seq<Step>, force2: bool, bucket2: int)
    requires s.runtime.Some? && SelfContained(source)
    requires Collected(s, source, during, force, bucket).1 == Done
    ensures var u := Run(Collected(s, source, during, force, bucket).0, steps);
            Collected(u, source, again, force2, bucket2).0 == Run(u, again)
  {
    hide Run, Attempt, Normalized, SelfContained, EvidenceRefs;
    var t := Collected(s, source, during, force, bucket).0;
    var u := Run(t, steps);
    var later := Run(u, again);
    var first := Observation(s, Run(s, during), source, force, bucket);
    var second := Observation(u, later, source, force2, bucket2);
    StoredByCreation(Run(s, during), s.task.revision, first);
    RecordedForGood(t, steps, first.fingerprint);
    RecordedForGood(u, again, first.fingerprint);
    RuntimeStays(s, during);
    RuntimeAfterCreation(Run(s, during), s.task.revision, first);
    RuntimeStays(t, steps);
    SelfContainedIsFixed(source, Latest(Run(s, during).checkpoints), Latest(later.checkpoints), force, force2,
                         bucket, bucket2);
    hide Recorded, Observation;
    assert second.fingerprint == first.fingerprint;
  }

  lemma StoredByCreation(s: Store, expected: nat, o: Observed)
    requires CreateCheckpoint(s, expected, o).Ok?
    ensures Recorded(CreateCheckpoint(s, expected, o).store.checkpoints, o.fingerprint)
  {
    hide MaxSequence;
    var t := CreateCheckpoint(s, expected, o).store;
    if t != s {
      assert t.checkpoints[|s.checkpoints|].fingerprint == o.fingerprint;
    }
  }

  lemma RuntimeAfterCreation(s: Store, expected: nat, o: Observed)
    ensures After(s, CreateCheckpoint(s, expected, o)).runtime == s.runtime
  {
    hide MaxSequence, Recorded;
  }

  /** Polling with nothing else going on. */
  function Poll(s: Store, source: Source, polls: seq<(bool, int)>): Store {
    if polls == [] then s
    else
      var n := |polls| - 1;
      Collected(Poll(s, source, polls[..n]), source, [], polls[n].0, polls[n].1).0
  }

  /** Any number of polls of one self-contained observation stores it once: one checkpoint and one revision at most. */
  lemma {:induction false} PollStoresOnce(s: Store, source: Source, polls: seq<(bool, int)>)
    requires s.runtime.Some? && SelfContained(source) && polls != []
    ensures var t := Poll(s, source, polls);
            && t == Collected(s, source, [], polls[0].0, polls[0].1).0
            && (t == s || (|t.checkpoints| == |s.checkpoints| + 1 && t.task.revision == s.task.revision + 1))
  {
    hide Attempt, CreateCheckpoint, Normalized, SelfContained, EvidenceRefs, Recorded;
    var n := |polls| - 1;
    NoStepRun(s);
    CollectFence(s, source, [], polls[0].0, polls[0].1);
    if n == 0 {
      assert polls[..n] == [];
      OnePoll(s, source, polls[0].0, polls[0].1);
    } else {
      PollStoresOnce(s, source, polls[..n]);
      var t := Poll(s, source, polls[..n]);
      NoStepRun(t);
      CollectedOnce(s, source, [], polls[0].0, polls[0].1, [], [], polls[n].0, polls[n].1);
    }
  }

  lemma NoStepRun(s: Store)
    ensures Run(s, []) == s
  {
    hide Attempt;
  }

  /** A self-contained observation is not a heartbeat, so storing it moves the revision by one. */
  lemma OnePoll(s: Store, source: Source, force: bool, bucket: int)
    requires s.runtime.Some? && SelfContained(source)
    ensures var t := Collected(s, source, [], force, bucket).0;
            t == s || (|t.checkpoints| == |s.checkpoints| + 1 && t.task.revision == s.task.revision + 1)
  {
    hide Attempt, Normalized, SelfContained, EvidenceRefs, Recorded, MaxSequence;
    NoStepRun(s);
    SelfContainedIsFixed(source, Latest(s.checkpoints), Latest(s.checkpoints), force, force, bucket, bucket);
  }

  /** Two heartbeats of one observation collapse exactly when they fall into the same three-minute bucket. */
  lemma HeartbeatsCollapse(source: Source, x: Option<Previous>, y: Option<Previous>, f: bool, g: bool, b: int, c: int)
    requires Normalized(source, x, f, b).checkpointType == Heartbeat
    requires Normalized(source, y, g, c).checkpointType == Heartbeat
    ensures Normalized(source, x, f, b).fingerprint == Normalized(source, y, g, c).fingerprint <==> b == c
  {
    hide AgentGates, OwnProgress, ControlTally, ControlOwn, TriggerOf, Bounded, ControlReportOf, Changed;
  }

  /** Storing a heartbeat is an observation only: neither the task row nor the review queue changes. */
  lemma HeartbeatOnlyObserves(s: Store, expected: nat, o: Observed)
    requires o.checkpointType == Heartbeat && CreateCheckpoint(s, expected, o).Ok?
    ensures var t := CreateCheckpoint(s, expected, o).store;
            t.task == s.task && Pending(t.checkpoints, t.reviews) == Pending(s.checkpoints, s.reviews)
  {
    hide Recorded, MaxSequence, Reviewed;
    var t := CreateCheckpoint(s, expected, o).store;
    if t != s {
      assert t.checkpoints[..|s.checkpoints|] == s.checkpoints;
    }
  }
}
