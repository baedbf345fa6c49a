/** The inductive invariant of the protocol and its preservation by every action. */
module Invariant {
  import opened Models
  import opened Records
  import opened StateMachine
  import opened Worker
  import opened Protocol

  // -- one record --------------------------------------------------------------------

  /** Flags and lock columns against the status. */
  predicate RowOk(cfg: Config, row: Task) {
    && (Executing(row.status) <==> row.lock.token.Some?)
    && (!Executing(row.status) ==> row.lock == UNLOCKED)
    && (row.pauseRequested <==> row.status.PausePending?)
    && (row.terminateRequested ==> Executing(row.status))
    && row.step in Steps(cfg, row.workflow)
  }

  predicate Waiting(s: ItemStatus) {
    s.Open? || s.Claimed?
  }

  /** Only the newest item can be active, it belongs to the current step of a live task, and
      it is open or claimed exactly while the task waits for it. */
  predicate ItemsOk(rec: Record) {
    && (forall i :: 0 <= i < |rec.items| - 1 ==> !Active(rec.items[i].status))
    && (rec.items == [] ==> !rec.row.status.AwaitingExternal?)
    && (rec.items != [] ==>
          var last := rec.items[|rec.items| - 1];
          && (Active(last.status) ==> last.step == rec.row.step && !Terminal(rec.row.status))
          && (Waiting(last.status) <==> rec.row.status.AwaitingExternal?))
  }

  /** Attempts of a step count up by rejection, within the step's limit. */
  predicate AttemptOk(cfg: Config, items: seq<Item>, j: nat)
    requires j < |items|
  {
    var it := items[j];
    && it.attempt == NextAttempt(items[..j], it.step)
    && it.previousError == PreviousError(items[..j], it.step)
    && it.maxAttempts == MaxAttempts(cfg, it.step)
    && 1 <= it.attempt <= it.maxAttempts
    && (it.status.Rejected? ==> it.attempt < it.maxAttempts && it.error.Some?)
    && (it.status.Exhausted? ==> it.attempt == it.maxAttempts)
  }

  predicate AttemptsOk(cfg: Config, items: seq<Item>) {
    forall j :: 0 <= j < |items| ==> AttemptOk(cfg, items, j)
  }

  predicate Approved(rec: Record, step: string, attempt: nat) {
    Event(ApprovalDecided(true, attempt), step) in rec.events
  }

  /** A grant is backed by a recorded approval of exactly that attempt of that step. */
  predicate GrantOk(rec: Record) {
    rec.row.grant.Granted? ==> Approved(rec, rec.row.grant.step, rec.row.grant.attempt)
  }

  predicate RecordOk(cfg: Config, rec: Record) {
    RowOk(cfg, rec.row) && ItemsOk(rec) && AttemptsOk(cfg, rec.items) && GrantOk(rec)
  }

  // -- versions, tokens and workers --------------------------------------------------

  predicate Current(rec: Record, token: Token) {
    rec.row.lock.token == Some(token)
  }

  /** An earlier version of the row against the present one: while its claim lasts, the step
      stays and the flags only rise. */
  predicate VersionOk(row: Task, v: Task, bound: Token) {
    && v.workflow == row.workflow
    && (v.lock.token.Some? ==> v.lock.token.value < bound)
    && (v.lock.token.Some? && v.lock.token == row.lock.token ==>
          && v.step == row.step && v.grant == row.grant
          && (v.pauseRequested ==> row.pauseRequested)
          && (v.terminateRequested ==> row.terminateRequested))
  }

  predicate PastOk(ts: TaskSys, bound: Token) {
    && ts.rec.row in ts.past
    && (forall v :: v in ts.past ==> VersionOk(ts.rec.row, v, bound))
  }

  /** Every token was released at most once, and never the one that holds the task now. */
  predicate ReleasedOk(ts: TaskSys, bound: Token) {
    && (forall i :: 0 <= i < |ts.released| ==> ts.released[i] < bound && !Current(ts.rec, ts.released[i]))
    && (forall i, j :: 0 <= i < j < |ts.released| ==> ts.released[i] != ts.released[j])
  }

  /** The newest item awaits a verdict. */
  predicate Judging(rec: Record, i: ItemId) {
    i + 1 == |rec.items| && rec.items[i].status.Submitted?
  }

  predicate NothingActive(rec: Record) {
    rec.items == [] || !Active(rec.items[|rec.items| - 1].status)
  }

  predicate FoundOk(rec: Record, f: Option<Found>) {
    f.Some? ==> && Judging(rec, f.value.id)
                && f.value.item.attempt == rec.items[f.value.id].attempt
                && f.value.item.maxAttempts == rec.items[f.value.id].maxAttempts
  }

  predicate OutcomeOk(cfg: Config, rec: Record, o: Outcome) {
    && (PlanOf(o).Some? ==> Planned(cfg, PlanOf(o).value.children))
    && (o.Failure? ==> o.noRetry == OptedOut(cfg, rec.row.step) && o.retryDelay == cfg.retryDelay)
    && ItemOutcomeOk(cfg, rec, o)
  }

  predicate ItemOutcomeOk(cfg: Config, rec: Record, o: Outcome) {
    match o
    case Success(_, Some(i), _, _) => Judging(rec, i)
    case Rejection(_, i, attempt, max, _) =>
      Judging(rec, i) && attempt == rec.items[i].attempt && max == rec.items[i].maxAttempts
    case ExternalNeeded(attempt, max, previous, reuse) =>
      && !reuse && NothingActive(rec) && 1 <= max
      && previous == PreviousError(rec.items, rec.row.step)
      && attempt == NextAttempt(rec.items, rec.row.step) && max == MaxAttempts(cfg, rec.row.step)
    case _ => true
  }

  predicate SnapOk(ts: TaskSys, token: Token, snap: Task) {
    snap in ts.past && Holder(snap, token)
  }

  function SnapOf(pc: PC): Option<Task> {
    if pc.Fresh? || pc.Ended? then None else Some(pc.snap)
  }

  /** What a worker that still holds the task may rely on. */
  predicate HolderOk(cfg: Config, rec: Record, pc: PC) {
    match pc
    case Opening(_) => NothingActive(rec) && 1 <= MaxAttempts(cfg, rec.row.step)
    case Ready(_, _, f) => FoundOk(rec, f)
    case Cleared(_, _, f) => FoundOk(rec, f)
    case InStep(_, f, _) => FoundOk(rec, f)
    case Updating(_, o, _, _, _) => OutcomeOk(cfg, rec, o)
    case Closing(_, o, _, _) => OutcomeOk(cfg, rec, o)
    case Finishing(_, o) => OutcomeOk(cfg, rec, o)
    case _ => true
  }

  predicate JobOk(cfg: Config, ts: TaskSys, token: Token, pc: PC) {
    && (SnapOf(pc).Some? ==> SnapOk(ts, token, SnapOf(pc).value))
    && (Current(ts.rec, token) ==> HolderOk(cfg, ts.rec, pc))
  }

  predicate JobsOk(cfg: Config, ts: TaskSys, bound: Token) {
    forall k :: k in ts.jobs ==> k < bound && JobOk(cfg, ts, k, ts.jobs[k])
  }

  predicate TaskOk(cfg: Config, ts: TaskSys, bound: Token) {
    RecordOk(cfg, ts.rec) && (forall v :: v in ts.past ==> RowOk(cfg, v)) && PastOk(ts, bound) && ReleasedOk(ts, bound) && JobsOk(cfg, ts, bound)
  }

  // -- what one transaction does to a row and its items --------------------------------

  /** While a claim lasts, nobody changes the step, the items, or lowers a flag; the only new
      token is the one just drawn. */
  predicate Calm(rec: Record, rec': Record, drawn: Token) {
    && rec'.row.workflow == rec.row.workflow && rec'.row.parent == rec.row.parent
    && (rec'.row.lock.token.Some? ==>
          if rec.row.lock.token.Some? then
            && rec'.row.lock.token == rec.row.lock.token
            && rec'.row.step == rec.row.step && rec'.items == rec.items && rec'.row.grant == rec.row.grant
            && (rec.row.pauseRequested ==> rec'.row.pauseRequested)
            && (rec.row.terminateRequested ==> rec'.row.terminateRequested)
          else rec'.row.lock.token == Some(drawn))
  }

  predicate FirstStepOf(cfg: Config, c: Child) {
    Steps(cfg, c.workflow) != [] && c.firstStep == Steps(cfg, c.workflow)[0]
  }

  predicate AllOk(cfg: Config, tasks: map<TaskId, TaskSys>, next: TaskId, bound: Token) {
    forall t :: t in tasks ==> t < next && TaskOk(cfg, tasks[t], bound)
  }

  predicate SysOk(cfg: Config, s: Sys) {
    AllOk(cfg, s.tasks, s.nextTask, s.nextToken)
  }
}
