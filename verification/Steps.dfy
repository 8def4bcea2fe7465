/** Every transaction of the store as one step, and runs of steps. */
module Steps {
  import opened Prelude
  import opened Model
  import opened ExecutionTx
  import opened WorkspaceTx
  import opened AgentTx
  import opened MemoryTx
  import opened CheckpointTx
  import opened ReplanTx

  datatype Step =
    | LeaseOp(execution: ExecutionStep)
    | WorkspaceOp(workspace: WorkspaceStep)
    | AgentOp(agent: AgentStep)
    | MemoryOp(memory: MemoryStep)
    | CheckpointOp(checkpoint: CheckpointStep)
    | ReplanOp(replan: ReplanStep)

  function Attempt(s: Store, step: Step): Outcome {
    match step
    case LeaseOp(e) => AttemptExecution(s, e)
    case WorkspaceOp(w) => AttemptWorkspace(s, w)
    case AgentOp(a) => AttemptAgent(s, a)
    case MemoryOp(m) => AttemptMemory(s, m)
    case CheckpointOp(c) => AttemptCheckpoint(s, c)
    case ReplanOp(r) => AttemptReplan(s, r)
  }

  /** A rejected step leaves every table as it was. */
  function Apply(s: Store, step: Step): Store {
    After(s, Attempt(s, step))
  }

  function Run(s: Store, steps: seq<Step>): Store {
    if steps == [] then s
    else Apply(Run(s, steps[..|steps| - 1]), steps[|steps| - 1])
  }

  /** The store a run has reached before its step number k. */
  function At(s: Store, steps: seq<Step>, k: nat): Store
    requires k <= |steps|
  {
    Run(s, steps[..k])
  }

  lemma NextStore(s: Store, steps: seq<Step>, k: nat)
    requires k < |steps|
    ensures At(s, steps, k + 1) == Apply(At(s, steps, k), steps[k])
  {
    assert steps[..k + 1][..k] == steps[..k];
  }

  lemma {:induction false} RunThrough(s: Store, a: seq<Step>, b: seq<Step>)
    ensures Run(s, a + b) == Run(Run(s, a), b)
  {
    if b == [] {
      assert a + b == a;
    } else {
      var n := |b| - 1;
      RunThrough(s, a, b[..n]);
      assert (a + b)[..|a + b| - 1] == a + b[..n];
    }
  }

  lemma Ends(s: Store, steps: seq<Step>)
    ensures At(s, steps, 0) == s && At(s, steps, |steps|) == Run(s, steps)
  {
    hide Attempt;
    assert steps[..0] == [] && steps[..|steps|] == steps;
  }

  /** Reachable from a task that was just created. */
  ghost predicate Reachable(s: Store) {
    exists id, title, repository, goal, fts, steps ::
      s == Run(NewStore(id, title, repository, goal, fts), steps)
  }
}
