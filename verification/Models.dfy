/** Fixed vocabulary of the engine: task statuses, workflows and their successor rule. */
module Models {
  datatype Option<+T> = None | Some(value: T)

  type TaskId = nat
  type ItemId = nat   // position of a work item among its task's items
  type RunId = nat    // position of a step run among its task's runs
  type Token = nat    // a claim token; each claim draws a fresh one

  datatype Status =
    | Queued | Running | PausePending | Paused | Terminated | Failed | ManualRequired
    | Completed | PartiallyCompleted | AwaitingApproval | AwaitingExternal

  /** Terminal states are never scheduled again. */
  predicate Terminal(s: Status) {
    s.Completed? || s.PartiallyCompleted? || s.Terminated?
  }

  /** A worker is mid-step in exactly these states. */
  predicate Executing(s: Status) {
    s.Running? || s.PausePending?
  }

  datatype NextStep = Advance(step: string) | Done | NotInWorkflow

  /** First position of `s` in `steps`, or |steps| when it does not occur. */
  function IndexOf(steps: seq<string>, s: string): (i: nat)
    ensures i <= |steps|
    ensures i < |steps| ==> steps[i] == s && s !in steps[..i]
    ensures i == |steps| ==> s !in steps
  {
    if steps == [] then 0 else if steps[0] == s then 0 else 1 + IndexOf(steps[1..], s)
  }

  function Next(steps: seq<string>, current: string): NextStep {
    var i := IndexOf(steps, current);
    if i == |steps| then NotInWorkflow
    else if i + 1 == |steps| then Done
    else Advance(steps[i + 1])
  }

  /** What a step declares about itself. */
  datatype StepInfo = StepInfo(sideEffect: bool, external: bool, retry: bool, maxAttempts: int)

  /** The part of the configuration and of the step registry the engine decides from. */
  datatype Config = Config(
    workflows: map<string, seq<string>>,
    registry: map<string, StepInfo>,
    retryDelay: int)

  /** The steps of a workflow; an unknown workflow has none. */
  function Steps(cfg: Config, workflow: string): seq<string> {
    if workflow in cfg.workflows then cfg.workflows[workflow] else []
  }

  /** A step opted out of automatic retries, or nobody can answer for it. */
  predicate NoRetry(cfg: Config, step: string) {
    step !in cfg.registry || !cfg.registry[step].retry
  }

  lemma {:induction false} SubsetSize<T>(a: set<T>, b: set<T>)
    requires a <= b
    ensures |a| <= |b|
  {
    if a != {} {
      var x :| x in a;
      SubsetSize(a - {x}, b - {x});
    }
  }
}
