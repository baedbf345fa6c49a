/** The worker's program (TaskRunner.execute), one atomic read or write at a time. What steps,
    policies and requests answer is chosen by the environment, as is which of the task row's
    versions a read returned. */
module Worker {
  import opened Models
  import opened Records
  import opened StateMachine

  // -- the pre-execute gate ----------------------------------------------------------

  /** What the plugins' pre-execute listeners decided. */
  datatype Policy = Allows | Denies | Delays(delay: int) | Asks | Broken

  /** The environment of one gate call: an artifact-contract problem, the listeners' decision,
      a guard that refuses (or raises), and the approval service with its policy ("ask" or not). */
  datatype GateEnv = NoGate | Gate(contractProblem: bool, policy: Policy, guardRefuses: bool, approval: Option<bool>)

  datatype Answer = Allow | Deny | Later(delay: int) | Ask

  /** Somebody has a say against the step, granted or not. */
  predicate Objects(env: GateEnv) {
    env.Gate? && (env.contractProblem || env.policy.Broken? || env.policy.Denies? || env.policy.Delays? || env.guardRefuses)
  }

  /** The step has side effects, or a listener wants a person to look at it. */
  predicate NeedsApproval(env: GateEnv, sideEffect: bool) {
    sideEffect || (env.Gate? && env.policy.Asks?)
  }

  /** Allowed exactly when nobody objects and an approval that is needed was granted; a person is
      asked exactly when only that approval is missing and there is someone to ask. */
  function GateAnswer(env: GateEnv, sideEffect: bool, granted: bool): (r: Answer)
    ensures r.Allow? <==> !Objects(env) && (NeedsApproval(env, sideEffect) ==> granted)
    ensures r.Ask? <==> !Objects(env) && NeedsApproval(env, sideEffect) && !granted && env.Gate? && env.approval == Some(true)
    ensures r.Later? <==> env.Gate? && env.policy.Delays? && !env.contractProblem
    ensures r.Later? ==> r.delay == env.policy.delay
  {
    match env
    case NoGate => if sideEffect && !granted then Deny else Allow
    case Gate(problem, policy, refuses, approval) =>
      if problem || policy.Broken? || policy.Denies? then Deny
      else if policy.Delays? then Later(policy.delay)
      else if refuses then Deny
      else if (policy.Asks? || sideEffect) && !granted then
        if approval == Some(true) then Ask else Deny
      else Allow
  }

  // -- program -----------------------------------------------------------------------

  datatype StepResult =
    | Returned(degraded: bool, children: seq<Child>, updates: Option<Updates>)
    | SubmissionRejected(reason: string)
    | NotReady(reason: string, delay: int)
    | Raises(error: string)

  /** An item the worker read, with the row it read. */
  datatype Found = Found(id: ItemId, item: Item)

  datatype PC =
    | Fresh                                                            // not started
    | Holding(snap: Task)                                              // the claim check passed
    | Counted(snap: Task, attempt: nat)                                // runs counted
    | Admitted(snap: Task, attempt: nat)                               // the gate said yes
    | Opening(snap: Task)                                              // no active item was found
    | Ready(snap: Task, attempt: nat, found: Option<Found>)
    | Cleared(snap: Task, attempt: nat, found: Option<Found>)          // progress cleared
    | InStep(snap: Task, found: Option<Found>, run: RunId)             // the step run is open
    | Updating(snap: Task, outcome: Outcome, run: RunId, status: RunStatus, updates: Updates)
    | Closing(snap: Task, outcome: Outcome, run: RunId, status: RunStatus)
    | Finishing(snap: Task, outcome: Outcome)                          // inside finish_step
    | Ended

  /** How far a worker's program is from its end. */
  function Rank(pc: PC): nat {
    match pc
    case Fresh => 11
    case Holding(_) => 10
    case Counted(_, _) => 9
    case Admitted(_, _) => 8
    case Opening(_) => 7
    case Ready(_, _, _) => 6
    case Cleared(_, _, _) => 5
    case InStep(_, _, _) => 4
    case Updating(_, _, _, _, _) => 3
    case Closing(_, _, _, _) => 2
    case Finishing(_, _) => 1
    case Ended => 0
  }

  /** What the environment answers at one step of the program; each program counter reads
      the part that concerns it. */
  datatype Input = Input(
    row: Task,              // the version of the task row a read returned
    gate: GateEnv,
    requestOk: bool,        // step.request() returned a well-formed request
    result: StepResult,
    seenDegraded: bool,     // what has_degraded answered
    now: int)

  /** The record and program counter after a step, the tasks it inserted, and the spawn plan it
      committed, if it committed one. */
  datatype Moved = Moved(rec: Record, pc: PC, born: seq<Child>, plan: Option<SpawnPlan>)

  /** The attempt a new item is for: one more than a rejected predecessor, else a new count. */
  function NextAttempt(items: seq<Item>, step: string): nat {
    var last := LatestFor(items, step);
    if last.Some? && items[last.value].status.Rejected? then items[last.value].attempt + 1 else 1
  }

  function PreviousError(items: seq<Item>, step: string): Option<string> {
    var last := LatestFor(items, step);
    if last.Some? && items[last.value].status.Rejected? then items[last.value].error else None
  }

  predicate OptedOut(cfg: Config, step: string) {
    step in cfg.registry && !cfg.registry[step].retry
  }

  function Fail(cfg: Config, step: string, error: string): Outcome {
    Failure(error, cfg.retryDelay, OptedOut(cfg, step))
  }

  function JobStep(cfg: Config, rec: Record, token: Token, pc: PC, inp: Input, next: TaskId): Moved {
    match pc
    case Fresh => Moved(rec, Check(token, inp.row), [], None)
    case Holding(snap) =>
      if snap.step !in cfg.registry then Moved(rec, Ended, [], None)   // registry.get raises
      else Moved(rec, Counted(snap, CountRuns(rec.runs, snap.step) + 1), [], None)
    case Counted(snap, attempt) => Moved(rec, Admit(cfg, snap, attempt, inp.gate), [], None)
    case Admitted(snap, attempt) => Moved(rec, Seek(cfg, rec, snap, attempt), [], None)
    case Opening(snap) =>
      Moved(rec, Finishing(snap,
        if inp.requestOk then
          ExternalNeeded(NextAttempt(rec.items, snap.step), MaxAttempts(cfg, snap.step),
                         PreviousError(rec.items, snap.step), false)
        else Fail(cfg, snap.step, "request")), [], None)
    case Ready(snap, attempt, found) =>
      Moved(UpdateFields(rec, Updates(Keep, Set(None)), Some(token)), Cleared(snap, attempt, found), [], None)
    case Cleared(snap, attempt, found) =>
      Moved(StartRun(rec, snap.step), InStep(snap, found, |rec.runs|), [], None)
    case InStep(snap, found, run) => Moved(rec, Ending(cfg, snap, found, run, inp.result), [], None)
    case Updating(snap, outcome, run, status, updates) =>
      Moved(UpdateFields(rec, updates, Some(token)), Closing(snap, outcome, run, status), [], None)
    case Closing(snap, outcome, run, status) =>
      Moved(FinishRun(rec, run, status), Finishing(snap, outcome), [], None)
    case Finishing(snap, outcome) => Finish(cfg, rec, token, snap, outcome, inp, next)
    case Ended => Moved(rec, Ended, [], None)
  }

  /** execute()'s stale-request guard, and a request that arrived while the job waited. */
  function Check(token: Token, row: Task): PC {
    if !Holder(row, token) then Ended
    else if row.terminateRequested || row.pauseRequested then Finishing(row, Defer("not started", 0))
    else Holding(row)
  }

  function Admit(cfg: Config, snap: Task, attempt: nat, env: GateEnv): PC {
    var sideEffect := snap.step in cfg.registry && cfg.registry[snap.step].sideEffect;
    match GateAnswer(env, sideEffect, snap.grant == Granted(snap.step, attempt))
    case Allow => Admitted(snap, attempt)
    case Deny => Finishing(snap, Denial("denied"))
    case Later(delay) => Finishing(snap, Defer("gate", delay))
    case Ask => Finishing(snap, ApprovalNeeded("approval", attempt))
  }

  function MaxAttempts(cfg: Config, step: string): nat {
    if step in cfg.registry && cfg.registry[step].maxAttempts >= 0 then cfg.registry[step].maxAttempts else 0
  }

  predicate External(cfg: Config, step: string) {
    step in cfg.registry && cfg.registry[step].external
  }

  /** `_external`, up to reading the active item. */
  function Seek(cfg: Config, rec: Record, snap: Task, attempt: nat): PC {
    if !External(cfg, snap.step) then Ready(snap, attempt, None)
    else match ActiveItem(rec.items)
      case Some(i) =>
        var it := rec.items[i];
        if it.step != snap.step then Finishing(snap, Fail(cfg, snap.step, "other step"))
        else if it.status.Submitted? then Ready(snap, attempt, Some(Found(i, it)))
        else Finishing(snap, ExternalNeeded(it.attempt, it.maxAttempts, None, true))
      case None =>
        if MaxAttempts(cfg, snap.step) < 1 then Finishing(snap, Fail(cfg, snap.step, "max_attempts"))
        else Opening(snap)
  }

  /** plan_children's verdict: defined workflows, their first steps, and no key used twice. */
  predicate Planned(cfg: Config, children: seq<Child>) {
    && (forall i :: 0 <= i < |children| ==>
          Steps(cfg, children[i].workflow) != [] && children[i].firstStep == Steps(cfg, children[i].workflow)[0])
    && (forall i, j :: 0 <= i < j < |children| && children[i].key.Some? ==> children[i].key != children[j].key)
  }

  /** What the step's answer leads to. */
  function Ending(cfg: Config, snap: Task, found: Option<Found>, run: RunId, r: StepResult): PC {
    match r
    case Raises(error) => Closing(snap, Fail(cfg, snap.step, error), run, RunFailed)
    case NotReady(reason, delay) => Closing(snap, Defer(reason, delay), run, RunDeferred)
    case SubmissionRejected(reason) =>
      if found.None? then Closing(snap, Fail(cfg, snap.step, reason), run, RunFailed)
      else
        var it := found.value.item;
        Closing(snap, Rejection(reason, found.value.id, it.attempt, it.maxAttempts, run), run, RunRejected)
    case Returned(degraded, children, updates) =>
      var status := if degraded then RunDegraded else RunOk;
      var accepted := if found.Some? then Some(found.value.id) else None;
      if !Planned(cfg, children) then Closing(snap, Fail(cfg, snap.step, "spawn"), run, RunFailed)
      else if children != [] then   // updates and the end of the run go with the transition
        var u := if updates.Some? then updates.value else Updates(Keep, Keep);
        Finishing(snap, Success(degraded, accepted, run, Some(SpawnPlan(children, snap.step, run, u, status))))
      else
        var o := Success(degraded, accepted, run, None);
        if updates.Some? then Updating(snap, o, run, status, updates.value) else Closing(snap, o, run, status)
  }

  /** One round of finish_step, and what the runner does when it raises. */
  function Finish(cfg: Config, rec: Record, token: Token, snap: Task, o: Outcome, inp: Input, next: TaskId): Moved {
    var raised :=
      if PlanOf(o).Some? then Closing(snap, Fail(cfg, snap.step, "spawn"), PlanOf(o).value.run, RunFailed)
      else Ended;
    match FinishRound(Steps(cfg, rec.row.workflow), rec, token, inp.row, o, inp.seenDegraded, inp.now, next)
    case ClaimLost => Moved(rec, Ended, [], None)
    case BadStep => Moved(rec, raised, [], None)
    case Tried(Unmatched) => Moved(rec, Finishing(snap, o), [], None)
    case Tried(Raised) => Moved(rec, raised, [], None)
    case Tried(Committed(done, born)) =>
      Moved(done, Ended, born, if ToldSpawn(rec, done) then PlanOf(o) else None)
  }

  /** Whether a transaction recorded a children_spawned event, which it does last. */
  predicate ToldSpawn(rec: Record, done: Record) {
    |done.events| > |rec.events| && done.events[|done.events| - 1].kind.ChildrenSpawned?
  }
}
