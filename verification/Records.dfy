/** The rows of one task (its task row, work items, step runs, spawn rows and events)
    and the atomic transactions of the repository on them, as functions on values. */
module Records {
  import opened Models

  /** The approval_grant column, decoded (see module Grants for its text form). */
  datatype Grant = NoGrant | Asked(step: string, attempt: nat) | Granted(step: string, attempt: nat)

  /** The four lock columns, which are written together. */
  datatype Lock = Lock(owner: Option<string>, at: Option<int>, heartbeat: Option<int>, token: Option<Token>)

  const UNLOCKED := Lock(None, None, None, None)

  datatype Task = Task(
    workflow: string,
    step: string,
    status: Status,
    retryCount: int,
    maxRetries: int,
    pauseRequested: bool,
    terminateRequested: bool,
    lock: Lock,
    lastError: Option<string>,
    nextRetryAt: Option<int>,
    grant: Grant,
    progress: Option<string>,
    parent: Option<TaskId>)

  /** On the next step of its workflow, or finished: `row'` after `row`. */
  predicate Advanced(cfg: Config, row: Task, row': Task) {
    var steps := Steps(cfg, row.workflow);
    var i := IndexOf(steps, row.step);
    i < |steps|
    && if i + 1 == |steps| then row' == row.(status := row'.status) && (row'.status.Completed? || row'.status.PartiallyCompleted?)
       else row' == row.(step := steps[i + 1])
  }

  datatype ItemStatus = Open | Claimed | Submitted | Accepted | Rejected | Exhausted | Cancelled

  datatype Item = Item(
    step: string,
    attempt: nat,
    maxAttempts: nat,
    status: ItemStatus,
    claim: Option<Token>,
    error: Option<string>,
    previousError: Option<string>,
    run: Option<RunId>)

  datatype RunStatus =
    | RunOpen | RunOk | RunDegraded | RunFailed | RunDeferred | RunRejected | RunInterrupted

  datatype Run = Run(step: string, status: RunStatus)

  datatype Spawn = Spawn(child: TaskId, key: Option<string>, step: string, run: RunId)

  datatype EventType =
    | Created | ClaimedEvent | StepCompleted | StepFailed | PauseAsked | PausedEvent | Resumed
    | TerminateAsked | TerminatedEvent | RetryEvent | ManualEvent | CompletedEvent | FieldSet
    | Reclaimed | DeferredEvent | Woken
    | ApprovalAsked(attempt: nat) | ApprovalDecided(approved: bool, attempt: nat)
    | ItemOpened | ItemClaimed | ItemReleased | ItemSubmitted | ItemRejected
    | ChildrenSpawned(created: seq<TaskId>, existing: seq<TaskId>)

  datatype Event = Event(kind: EventType, step: string)

  datatype Record = Record(
    row: Task,
    items: seq<Item>,
    runs: seq<Run>,
    spawns: seq<Spawn>,
    events: seq<Event>)

  // -- work items ----------------------------------------------------------------

  predicate Active(s: ItemStatus) {
    s.Open? || s.Claimed? || s.Submitted?
  }

  /** The active item, if any (the last one; the model proves there is at most one). */
  function ActiveItem(items: seq<Item>): (r: Option<ItemId>)
    ensures r.Some? ==> r.value < |items| && Active(items[r.value].status)
    ensures r.None? ==> forall i :: 0 <= i < |items| ==> !Active(items[i].status)
  {
    if items == [] then None
    else if Active(items[|items| - 1].status) then Some(|items| - 1)
    else ActiveItem(items[..|items| - 1])
  }

  /** The newest item of a step. */
  function LatestFor(items: seq<Item>, step: string): (r: Option<ItemId>)
    ensures r.Some? ==> r.value < |items| && items[r.value].step == step
                        && forall i :: r.value < i < |items| ==> items[i].step != step
    ensures r.None? ==> forall i :: 0 <= i < |items| ==> items[i].step != step
  {
    if items == [] then None
    else if items[|items| - 1].step == step then Some(|items| - 1)
    else LatestFor(items[..|items| - 1], step)
  }

  function CountRuns(runs: seq<Run>, step: string): nat {
    if runs == [] then 0
    else CountRuns(runs[..|runs| - 1], step) + if runs[|runs| - 1].step == step then 1 else 0
  }

  /** Cancel every active item, except those of step `keep` when one is given. */
  function CancelItems(items: seq<Item>, keep: Option<string>): (r: seq<Item>)
    ensures |r| == |items|
    ensures forall i :: 0 <= i < |items| ==> r[i] == CancelItem(items[i], keep)
  {
    seq(|items|, i requires 0 <= i < |items| => CancelItem(items[i], keep))
  }

  function CancelItem(it: Item, keep: Option<string>): Item {
    if Active(it.status) && (keep.None? || it.step != keep.value) then it.(status := Cancelled) else it
  }

  // -- spawn plans ---------------------------------------------------------------

  datatype Child = Child(workflow: string, firstStep: string, maxRetries: int, key: Option<string>)

  /** Columns update_fields may write (the ones the engine reads). */
  datatype Updates = Updates(maxRetries: Write<int>, progress: Write<Option<string>>)

  datatype SpawnPlan = SpawnPlan(
    children: seq<Child>, step: string, run: RunId, updates: Updates, runStatus: RunStatus)

  /** The child a parent already spawned under a key. */
  function FindKey(spawns: seq<Spawn>, key: string): (r: Option<TaskId>)
    ensures r.Some? ==> exists i :: 0 <= i < |spawns| && spawns[i].key == Some(key) && spawns[i].child == r.value
    ensures r.None? ==> forall i :: 0 <= i < |spawns| ==> spawns[i].key != Some(key)
  {
    if spawns == [] then None
    else if spawns[|spawns| - 1].key == Some(key) then Some(spawns[|spawns| - 1].child)
    else FindKey(spawns[..|spawns| - 1], key)
  }

  /** What running a spawn plan did: the parent's spawn rows, the tasks it inserted (their
      ids are consecutive from `next`) and the ids it found already spawned. */
  datatype Spawned = Spawned(spawns: seq<Spawn>, born: seq<Child>, existing: seq<TaskId>)

  function SpawnAll(spawns: seq<Spawn>, plan: SpawnPlan, n: nat, next: TaskId): Spawned
    requires n <= |plan.children|
  {
    if n == 0 then Spawned(spawns, [], [])
    else
      var s := SpawnAll(spawns, plan, n - 1, next);
      var c := plan.children[n - 1];
      var found := if c.key.Some? then FindKey(s.spawns, c.key.value) else None;
      if found.Some? then s.(existing := s.existing + [found.value])
      else Spawned(s.spawns + [Spawn(next + |s.born|, c.key, plan.step, plan.run)], s.born + [c], s.existing)
  }

  function Ids(n: nat, next: TaskId): seq<TaskId> {
    seq(n, i => next + i)
  }

  // -- transactions --------------------------------------------------------------

  /** A column a transaction writes, or leaves alone. */
  datatype Write<+T> = Keep | Set(value: T)

  /** The columns a transition writes; `unlock` writes all four lock columns to null. */
  datatype Patch = Patch(
    status: Write<Status>,
    step: Write<string>,
    retryCount: Write<int>,
    maxRetries: Write<int>,
    pause: Write<bool>,
    terminate: Write<bool>,
    unlock: bool,
    lastError: Write<Option<string>>,
    nextRetryAt: Write<Option<int>>,
    grant: Write<Grant>)

  const NOTHING := Patch(Keep, Keep, Keep, Keep, Keep, Keep, false, Keep, Keep, Keep)

  function Written<T>(w: Write<T>, was: T): T {
    if w.Set? then w.value else was
  }

  function Put(row: Task, p: Patch): Task {
    row.(
      status := Written(p.status, row.status),
      step := Written(p.step, row.step),
      retryCount := Written(p.retryCount, row.retryCount),
      maxRetries := Written(p.maxRetries, row.maxRetries),
      pauseRequested := Written(p.pause, row.pauseRequested),
      terminateRequested := Written(p.terminate, row.terminateRequested),
      lock := if p.unlock then UNLOCKED else row.lock,
      lastError := Written(p.lastError, row.lastError),
      nextRetryAt := Written(p.nextRetryAt, row.nextRetryAt),
      grant := Written(p.grant, row.grant))
  }

  /** The columns that must still hold the given values (Keep: not checked). */
  datatype Require = Require(
    step: Write<string>,
    pause: Write<bool>,
    terminate: Write<bool>,
    retryCount: Write<int>,
    maxRetries: Write<int>,
    heartbeat: Write<Option<int>>,
    token: Write<Option<Token>>)

  const ANYTHING := Require(Keep, Keep, Keep, Keep, Keep, Keep, Keep)

  predicate Unchanged<T(==)>(w: Write<T>, now: T) {
    w.Set? ==> w.value == now
  }

  predicate Holds(row: Task, q: Require) {
    && Unchanged(q.step, row.step)
    && Unchanged(q.pause, row.pauseRequested)
    && Unchanged(q.terminate, row.terminateRequested)
    && Unchanged(q.retryCount, row.retryCount)
    && Unchanged(q.maxRetries, row.maxRetries)
    && Unchanged(q.heartbeat, row.lock.heartbeat)
    && Unchanged(q.token, row.lock.token)
  }

  /** The work-item change that goes with a transition. */
  datatype ItemChange =
    | NoItem
    | OpenItem(attempt: nat, maxAttempts: nat, previousError: Option<string>)
    | SubmitItem(item: ItemId, token: Token)
    | CloseItem(item: ItemId, status: ItemStatus, error: Option<string>, run: RunId)

  datatype Cancel = CancelNone | CancelAll | CancelOther(keep: string)

  /** The hooks of a transition, in the order they run: the item change, the result of a
      spawning step, its children, and the cancelling of items left behind. */
  datatype Also = Also(item: ItemChange, plan: Option<SpawnPlan>, spawn: bool, cancel: Cancel)


  /** How a transaction ended: committed (with the tasks it inserted), matched no row, or
      a hook raised and everything was rolled back. */
  datatype Tx = Committed(rec: Record, born: seq<Child>) | Unmatched | Raised

  function ChangeItem(items: seq<Item>, step: string, c: ItemChange): Option<seq<Item>> {
    match c
    case NoItem => Some(items)
    case OpenItem(attempt, max, previous) =>
      // the partial unique index: one active item per task
      if ActiveItem(items).Some? then None
      else Some(items + [Item(step, attempt, max, Open, None, None, previous, None)])
    case SubmitItem(i, token) =>
      if i < |items| && items[i].status.Claimed? && items[i].claim == Some(token)
      then Some(items[i := items[i].(status := Submitted)]) else None
    case CloseItem(i, status, error, run) =>
      if i < |items| && items[i].status.Submitted?
      then Some(items[i := items[i].(status := status, error := error, run := Some(run))]) else None
  }

  function Cancelling(items: seq<Item>, c: Cancel): seq<Item> {
    match c
    case CancelNone => items
    case CancelAll => CancelItems(items, None)
    case CancelOther(keep) => CancelItems(items, Some(keep))
  }

  function CloseRun(runs: seq<Run>, r: RunId, status: RunStatus): seq<Run> {
    if r < |runs| then runs[r := runs[r].(status := status)] else runs
  }

  /** As CloseRun, but only a run that is still open (result_writer's condition). */
  function CloseOpenRun(runs: seq<Run>, r: RunId, status: RunStatus): seq<Run> {
    if r < |runs| && runs[r].status.RunOpen? then runs[r := runs[r].(status := status)] else runs
  }

  function PutUpdates(row: Task, u: Updates): Task {
    row.(maxRetries := Written(u.maxRetries, row.maxRetries), progress := Written(u.progress, row.progress))
  }

  /** The hooks, run on a record whose row and events are already written. `step` is the
      step an opened item is for. */
  function RunHooks(rec: Record, step: string, also: Also, next: TaskId): Tx {
    var items := ChangeItem(rec.items, step, also.item);
    if items.None? then Raised
    else
      var kept := Cancelling(items.value, also.cancel);
      if also.plan.None? then Committed(rec.(items := kept), [])
      else
        var plan := also.plan.value;
        var rec1 := rec.(items := kept, row := PutUpdates(rec.row, plan.updates),
                         runs := CloseOpenRun(rec.runs, plan.run, plan.runStatus));
        if !also.spawn then Committed(rec1, [])
        else
          var s := SpawnAll(rec.spawns, plan, |plan.children|, next);
          var told := Event(ChildrenSpawned(Ids(|s.born|, next), s.existing), plan.step);
          Committed(rec1.(spawns := s.spawns, events := rec1.events + [told]), s.born)
  }

  /** Compare-and-set: applies only if the status is `from` and every required column
      still holds, and then records the events and runs the hooks in one transaction. */
  function Transition(rec: Record, from: Status, q: Require, p: Patch, events: seq<Event>,
                      step: string, also: Also, next: TaskId): Tx
  {
    if rec.row.status != from || !Holds(rec.row, q) then Unmatched
    else RunHooks(rec.(row := Put(rec.row, p), events := rec.events + events), step, also, next)
  }

  /** claim_queued: the conditional update that makes of two claimants exactly one win. */
  function ClaimQueued(rec: Record, worker: string, now: int, token: Token, event: Event): Option<Record> {
    if rec.row.status != Queued || rec.row.terminateRequested then None
    else Some(rec.(
      row := rec.row.(status := Running, lock := Lock(Some(worker), Some(now), Some(now), Some(token)),
                      nextRetryAt := None),
      events := rec.events + [event]))
  }

  function Heartbeat(rec: Record, now: int, progress: Write<Option<string>>, token: Token): Record {
    if Executing(rec.row.status) && rec.row.lock.token == Some(token) then
      rec.(row := rec.row.(lock := rec.row.lock.(heartbeat := Some(now)),
                           progress := Written(progress, rec.row.progress)))
    else rec
  }

  /** update_fields; with a token, only while that claim still holds the task. */
  function UpdateFields(rec: Record, u: Updates, token: Option<Token>): Record {
    if token.Some? && rec.row.lock.token != token then rec
    else rec.(row := PutUpdates(rec.row, u))
  }

  function StartRun(rec: Record, step: string): Record {
    rec.(runs := rec.runs + [Run(step, RunOpen)])
  }

  /** StepRunLog.finish takes no token: whoever knows the run id writes it. */
  function FinishRun(rec: Record, run: RunId, status: RunStatus): Record {
    rec.(runs := CloseRun(rec.runs, run, status))
  }

  function CloseRuns(runs: seq<Run>): (r: seq<Run>)
    ensures |r| == |runs|
    ensures forall i :: 0 <= i < |runs| ==> r[i] == if runs[i].status.RunOpen? then runs[i].(status := RunInterrupted) else runs[i]
  {
    seq(|runs|, i requires 0 <= i < |runs| => if runs[i].status.RunOpen? then runs[i].(status := RunInterrupted) else runs[i])
  }

  /** WorkItems.claim: an open item whose task is waiting on it. */
  function ClaimItem(rec: Record, i: ItemId, token: Token): Record {
    if i < |rec.items| && rec.items[i].status.Open? && rec.row.status.AwaitingExternal? then
      rec.(items := rec.items[i := rec.items[i].(status := Claimed, claim := Some(token))],
           events := rec.events + [Event(ItemClaimed, rec.items[i].step)])
    else rec
  }

  /** WorkItems.release; without a token any claim is released. */
  function ReleaseItem(rec: Record, i: ItemId, token: Option<Token>): Record {
    if i < |rec.items| && rec.items[i].status.Claimed? && (token.Some? ==> rec.items[i].claim == token) then
      rec.(items := rec.items[i := rec.items[i].(status := Open, claim := None)],
           events := rec.events + [Event(ItemReleased, rec.items[i].step)])
    else rec
  }
}
