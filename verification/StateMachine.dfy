/** All state-transition rules: what the state machine decides from a row it read, and the
    compare-and-set it then tries. The row it read (`snap`) may be stale by then. */
module StateMachine {
  import opened Models
  import opened Records

  /** How a step ended, as the runner reports it at the step boundary. */
  datatype Outcome =
    | Success(degraded: bool, accepted: Option<ItemId>, run: RunId, plan: Option<SpawnPlan>)
    | Defer(reason: string, delay: int)
    | Failure(error: string, retryDelay: int, noRetry: bool)
    | Denial(reason: string)
    | ApprovalNeeded(reason: string, attempt: nat)
    | ExternalNeeded(attempt: nat, maxAttempts: nat, previousError: Option<string>, reuse: bool)
    | Rejection(reason: string, item: ItemId, attempt: nat, maxAttempts: nat, run: RunId)

  predicate NoAttemptsLeft(o: Outcome)
    requires o.Rejection?
  {
    o.attempt >= o.maxAttempts
  }

  datatype Decision = Decision(patch: Patch, events: seq<Event>)

  const RELEASE := NOTHING.(unlock := true)

  /** Every `_move` cancels what the task leaves behind: all active items when it ends, those
      of other steps when it changes step. */
  function Left(p: Patch): Cancel {
    if p.status.Set? && Terminal(p.status.value) then CancelAll
    else if p.step.Set? then CancelOther(p.step.value)
    else CancelNone
  }

  function Move(rec: Record, from: Status, q: Require, d: Decision, step: string, item: ItemChange,
                plan: Option<SpawnPlan>, spawn: bool, next: TaskId): Tx
  {
    Transition(rec, from, q, d.patch, d.events, step, Also(item, plan, spawn, Left(d.patch)), next)
  }

  // -- step boundary ---------------------------------------------------------------

  /** Whether the latest run of any step was degraded. */
  predicate HasDegraded(runs: seq<Run>) {
    exists i :: 0 <= i < |runs| && runs[i].status.RunDegraded? && LastOfStep(runs, i)
  }

  predicate LastOfStep(runs: seq<Run>, i: nat)
    requires i < |runs|
  {
    forall j :: i < j < |runs| ==> runs[j].step != runs[i].step
  }

  function FinalStatus(degraded: bool, seenDegraded: bool): Status {
    if degraded || seenDegraded then PartiallyCompleted else Completed
  }

  /** The boundary decision. None: the step is not part of the workflow (an exception).
      `seenDegraded` is what has_degraded answered. */
  function Boundary(steps: seq<string>, row: Task, o: Outcome, terminate: bool, pause: bool,
                    seenDegraded: bool, now: int): Option<Decision>
  {
    var step := row.step;
    var paused := RELEASE.(status := Set(Paused), pause := Set(false));
    if terminate then
      Some(Decision(
        RELEASE.(status := Set(Terminated), terminate := Set(false), pause := Set(false), nextRetryAt := Set(None),
                 lastError := if o.Failure? then Set(Some(o.error)) else Keep),
        [Event(TerminatedEvent, step)]))
    else match o
      case Success(degraded, _, _, _) =>
        (match Next(steps, step)
         case NotInWorkflow => None
         case Done =>
           Some(Decision(RELEASE.(status := Set(FinalStatus(degraded, seenDegraded)), pause := Set(false)),
                         [Event(CompletedEvent, step)]))
         case Advance(to) =>
           var advanced := Event(StepCompleted, step);
           if pause then Some(Decision(paused.(step := Set(to)), [advanced, Event(PausedEvent, to)]))
           else Some(Decision(RELEASE.(step := Set(to), status := Set(Queued)), [advanced])))
      case Denial(reason) =>
        Some(Decision(
          RELEASE.(status := Set(ManualRequired), lastError := Set(Some("not run: " + reason)),
                   nextRetryAt := Set(None), pause := Set(false)),
          [Event(ManualEvent, step)]))
      case ApprovalNeeded(_, attempt) =>
        if pause then Some(Decision(paused, [Event(PausedEvent, step)]))
        else Some(Decision(
          RELEASE.(status := Set(AwaitingApproval), grant := Set(Asked(step, attempt)), nextRetryAt := Set(None)),
          [Event(ApprovalAsked(attempt), step)]))
      case ExternalNeeded(_, _, _, _) =>
        if pause then Some(Decision(paused, [Event(PausedEvent, step)]))
        else Some(Decision(RELEASE.(status := Set(AwaitingExternal), nextRetryAt := Set(None)), [Event(ItemOpened, step)]))
      case Rejection(reason, _, _, _, _) =>
        var rejected := Event(ItemRejected, step);
        if NoAttemptsLeft(o) then
          Some(Decision(
            RELEASE.(status := Set(ManualRequired), lastError := Set(Some("no attempts left: " + reason)),
                     nextRetryAt := Set(None), pause := Set(false)),
            [rejected, Event(ManualEvent, step)]))
        else if pause then
          Some(Decision(paused.(lastError := Set(Some(reason))), [rejected, Event(PausedEvent, step)]))
        else Some(Decision(RELEASE.(status := Set(Queued), lastError := Set(Some(reason))), [rejected]))
      case Defer(_, delay) =>
        var deferred := Event(DeferredEvent, step);
        if pause then Some(Decision(paused, [deferred, Event(PausedEvent, step)]))
        else Some(Decision(
          RELEASE.(status := Set(Queued), nextRetryAt := Set(if delay > 0 then Some(now + delay) else None)),
          [deferred]))
      case Failure(error, retryDelay, noRetry) =>
        var count := row.retryCount + 1;
        var counted := RELEASE.(retryCount := Set(count), lastError := Set(Some(error)));
        if count > row.maxRetries || noRetry then
          Some(Decision(
            counted.(status := Set(ManualRequired), nextRetryAt := Set(None), pause := Set(false)),
            [Event(ManualEvent, step)]))
        else
          var failed := Event(StepFailed, step);
          if pause then
            Some(Decision(counted.(status := Set(Paused), nextRetryAt := Set(None), pause := Set(false)),
                          [failed, Event(PausedEvent, step)]))
          else Some(Decision(counted.(status := Set(Failed), nextRetryAt := Set(Some(now + retryDelay))), [failed]))
  }

  /** The work-item change that goes with a boundary transition, if any. */
  function BoundaryItem(o: Outcome, p: Patch): ItemChange {
    match o
    case ExternalNeeded(attempt, max, previous, reuse) =>
      if reuse || p.status != Set(AwaitingExternal) then NoItem else OpenItem(attempt, max, previous)
    case Success(_, Some(i), run, _) => CloseItem(i, Accepted, None, run)
    case Rejection(reason, i, _, _, run) =>
      CloseItem(i, if NoAttemptsLeft(o) then Exhausted else Rejected, Some(reason), run)
    case _ => NoItem
  }

  function PlanOf(o: Outcome): Option<SpawnPlan> {
    if o.Success? then o.plan else None
  }

  /** Children are created with the transition; not when the boundary terminates the task. */
  predicate Spawns(o: Outcome, p: Patch) {
    PlanOf(o).Some? && PlanOf(o).value.children != [] && p.status != Set(Terminated)
  }

  predicate Holder(row: Task, token: Token) {
    Executing(row.status) && row.lock.token == Some(token)
  }

  function BoundaryRequire(snap: Task, token: Token): Require {
    ANYTHING.(pause := Set(snap.pauseRequested), terminate := Set(snap.terminateRequested),
              retryCount := Set(snap.retryCount), maxRetries := Set(snap.maxRetries), token := Set(Some(token)))
  }

  /** One round of finish_step from the row `snap` it read. */
  datatype Round = ClaimLost | BadStep | Tried(tx: Tx)

  function FinishRound(steps: seq<string>, rec: Record, token: Token, snap: Task, o: Outcome,
                       seenDegraded: bool, now: int, next: TaskId): Round
  {
    if !Holder(snap, token) then ClaimLost
    else match Boundary(steps, snap, o, snap.terminateRequested, snap.pauseRequested, seenDegraded, now)
      case None => BadStep
      case Some(d) =>
        Tried(Move(rec, snap.status, BoundaryRequire(snap, token), d, snap.step,
                   BoundaryItem(o, d.patch), PlanOf(o), Spawns(o, d.patch), next))
  }

  // -- scheduler paths ---------------------------------------------------------------

  /** StateMachine.claim, from the row it read. */
  function ClaimRound(rec: Record, snap: Task, worker: string, now: int, token: Token, next: TaskId): (Record, bool) {
    if snap.status.Queued? && snap.terminateRequested then
      var d := Decision(RELEASE.(status := Set(Terminated), terminate := Set(false)), [Event(TerminatedEvent, snap.step)]);
      var tx := Move(rec, Queued, ANYTHING.(terminate := Set(true)), d, snap.step, NoItem, None, false, next);
      (if tx.Committed? then tx.rec else rec, false)
    else
      match ClaimQueued(rec, worker, now, token, Event(ClaimedEvent, snap.step))
      case None => (rec, false)
      case Some(claimed) => (claimed, true)
  }

  /** skip_step: a queued task whose step's when() answered no. */
  function SkipRound(steps: seq<string>, rec: Record, snap: Task, seenDegraded: bool, next: TaskId): Record {
    if !snap.status.Queued? then rec
    else
      var q := ANYTHING.(step := Set(snap.step));
      match Next(steps, snap.step)
      case NotInWorkflow => rec
      case Done =>
        After(rec, Move(rec, Queued, q, Decision(NOTHING.(status := Set(FinalStatus(false, seenDegraded))),
          [Event(CompletedEvent, snap.step)]), snap.step, NoItem, None, false, next))
      case Advance(to) =>
        After(rec, Move(rec, Queued, q, Decision(NOTHING.(step := Set(to)), [Event(StepCompleted, snap.step)]),
          snap.step, NoItem, None, false, next))
  }

  function After(rec: Record, tx: Tx): Record {
    if tx.Committed? then tx.rec else rec
  }

  function RequeueRound(rec: Record, snap: Task, next: TaskId): Record {
    After(rec, Move(rec, Failed, ANYTHING, Decision(NOTHING.(status := Set(Queued), nextRetryAt := Set(None)),
      [Event(RetryEvent, snap.step)]), snap.step, NoItem, None, false, next))
  }

  /** Releasing an executing task whose worker is gone. */
  function SettleDecision(snap: Task, noRetry: bool, reason: string): Decision {
    var step := snap.step;
    if snap.terminateRequested then
      Decision(RELEASE.(status := Set(Terminated), terminate := Set(false), pause := Set(false)),
               [Event(TerminatedEvent, step)])
    else if snap.pauseRequested || snap.status.PausePending? then
      Decision(RELEASE.(status := Set(Paused), pause := Set(false)), [Event(PausedEvent, step)])
    else if noRetry then
      Decision(RELEASE.(status := Set(ManualRequired), lastError := Set(Some(reason)), nextRetryAt := Set(None)),
               [Event(ManualEvent, step)])
    else Decision(RELEASE.(status := Set(Queued)), [Event(Reclaimed, step)])
  }

  function SettleRequire(snap: Task, checkAlive: bool): Require {
    ANYTHING.(pause := Set(snap.pauseRequested), terminate := Set(snap.terminateRequested),
              token := Set(snap.lock.token),
              heartbeat := if checkAlive then Set(snap.lock.heartbeat) else Keep)
  }

  function SettleRound(rec: Record, snap: Task, noRetry: bool, checkAlive: bool, reason: string, next: TaskId): Tx {
    if !Executing(snap.status) then Unmatched
    else Move(rec, snap.status, SettleRequire(snap, checkAlive), SettleDecision(snap, noRetry, reason),
              snap.step, NoItem, None, false, next)
  }

  // -- user actions ------------------------------------------------------------------

  datatype Request =
    | Pause | Terminate | Resume | Retry | Approve | Reject(why: string) | Wake
    | SetStep(step: string, force: bool)
    | Submit(item: ItemId, token: Token)
    | SetRetries(max: int)

  datatype UserDecision = Illegal | Do(decision: Decision, item: ItemChange)

  /** What a user action decides from the row it read. `steps`: the task's workflow;
      `itemStep`: the step of the item a submission names (None: there is no such item). */
  function Decide(steps: seq<string>, row: Task, req: Request, itemStep: Option<string>): UserDecision {
    var s := row.status;
    match req
    case Pause =>
      if s.Running? then
        Do(Decision(NOTHING.(status := Set(PausePending), pause := Set(true)), [Event(PauseAsked, row.step)]), NoItem)
      else if s.Queued? then
        Do(Decision(NOTHING.(status := Set(Paused), nextRetryAt := Set(None)), [Event(PauseAsked, row.step)]), NoItem)
      else Illegal
    case Terminate =>
      if Terminal(s) then Illegal
      else if Executing(s) then
        Do(Decision(NOTHING.(terminate := Set(true)), [Event(TerminateAsked, row.step)]), NoItem)
      else
        Do(Decision(NOTHING.(status := Set(Terminated), nextRetryAt := Set(None)),
                    [Event(TerminateAsked, row.step), Event(TerminatedEvent, row.step)]), NoItem)
    case Resume =>
      if !s.Paused? then Illegal
      else Do(Decision(NOTHING.(status := Set(Queued), pause := Set(false), nextRetryAt := Set(None)),
                       [Event(Resumed, row.step)]), NoItem)
    case Retry =>
      if !s.Failed? && !s.ManualRequired? then Illegal
      else Do(Decision(NOTHING.(status := Set(Queued), lastError := Set(None), nextRetryAt := Set(None)),
                       [Event(RetryEvent, row.step)]), NoItem)
    case Approve =>
      if !s.AwaitingApproval? || !row.grant.Asked? || row.grant.step != row.step then Illegal
      else Do(Decision(NOTHING.(status := Set(Queued), grant := Set(Granted(row.grant.step, row.grant.attempt))),
                       [Event(ApprovalDecided(true, row.grant.attempt), row.step)]), NoItem)
    case Reject(why) =>
      if !s.AwaitingApproval? then Illegal
      else Do(Decision(NOTHING.(status := Set(ManualRequired), grant := Set(NoGrant), lastError := Set(Some(why))),
                       [Event(ApprovalDecided(false, 0), row.step)]), NoItem)
    case Wake =>
      if !s.Queued? || row.nextRetryAt.None? then Illegal
      else Do(Decision(NOTHING.(nextRetryAt := Set(None)), [Event(Woken, row.step)]), NoItem)
    case SetStep(step, force) =>
      if step !in steps then Illegal
      else if !force && !s.Failed? && !s.ManualRequired? then Illegal
      else if Executing(s) || Terminal(s) || s.AwaitingApproval? || s.AwaitingExternal? then Illegal
      else Do(Decision(NOTHING.(step := Set(step), grant := Set(NoGrant)), [Event(FieldSet, step)]), NoItem)
    case Submit(i, token) =>
      if !s.AwaitingExternal? || itemStep != Some(row.step) then Illegal
      else Do(Decision(NOTHING.(status := Set(Queued), lastError := Set(None)), [Event(ItemSubmitted, row.step)]),
              SubmitItem(i, token))
    case SetRetries(max) =>
      if max < 0 then Illegal
      else Do(Decision(NOTHING.(maxRetries := Set(max), retryCount := Set(0)), [Event(FieldSet, row.step)]), NoItem)
  }

  /** One round of _user_action: the write requires only that the status is still the one
      that was read. */
  function UserRound(steps: seq<string>, rec: Record, snap: Task, req: Request, next: TaskId): Tx {
    var itemStep := if req.Submit? && req.item < |rec.items| then Some(rec.items[req.item].step) else None;
    match Decide(steps, snap, req, itemStep)
    case Illegal => Unmatched
    case Do(d, item) => Move(rec, snap.status, ANYTHING, d, snap.step, item, None, false, next)
  }
}
