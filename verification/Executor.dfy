/** The executor on top of the protocol: the executor lock, crash recovery, the scheduler thread
    of the daemon and its in-flight table. Every deed makes at most one turn of the protocol, so
    every run here is a run there. */
module Executor {
  import opened Models
  import opened Records
  import opened StateMachine
  import opened Worker
  import opened Protocol
  import opened Invariant

  // -- the scheduler thread -----------------------------------------------------------------

  /** Where `_settle` is: about to read, about to write from what it read, or closing runs. */
  datatype Settle =
    | Reading(task: TaskId, checkAlive: bool, tries: nat, heartbeat: Option<Option<int>>)
    | Trying(task: TaskId, checkAlive: bool, tries: nat, heartbeat: Option<Option<int>>, snap: Task)
    | ClosingRuns(task: TaskId)

  const ATTEMPTS: nat := 5

  /** recover lists the running tasks, settles them, then lists and settles the pausing ones;
      a round reclaims stale tasks, requeues due failures, counts the running and then the
      pausing tasks per step, lists the queue, and walks it. */
  datatype Phase =
    | Recovering(todo: set<TaskId>, pausing: bool)
    | Idle
    | Reclaiming(stale: map<TaskId, Task>)
    | Requeuing(due: set<TaskId>)
    | Counting(running: map<TaskId, string>)
    | Loaded(load: map<string, nat>)
    | Queueing(queue: map<TaskId, Task>, load: map<string, nat>)
    | Stopping

  /** The process that holds the lock. `since`: tokens drawn before it took the lock are lower. */
  datatype Exec = Exec(phase: Phase, settle: Option<Settle>, inflight: map<TaskId, Token>, since: Token)

  /** `lock` is the executor lock: nobody, or the one process that holds it. */
  datatype World = World(sys: Sys, lock: Option<Exec>)

  /** What the environment answers the scheduler: whom it looks at next, which tasks it finds
      stale, what when() and has_degraded say, the row version a claim or skip read, the clock. */
  datatype SchedInput = SchedInput(
    pick: TaskId, stale: set<TaskId>, run: bool,
    snap: Task, seenDegraded: bool, now: int, stop: bool)

  datatype Deed =
    | Acquire
    | Kill
    | Release
    | Schedule(inp: SchedInput)
    | Labour(task: TaskId, token: Token, work: Input)
    | Pulse(task: TaskId, token: Token, now: int, progress: Write<Option<string>>)
    | Cleanup(task: TaskId, token: Token)
    | Outside(turn: Turn)

  /** Actions of processes that do not hold the lock: users, item clients, administrators. */
  predicate Unlocked(m: Turn) {
    match m
    case On(_, a) => a.User? || a.TakeItem? || a.GiveItem? || a.Tune?
    case Create(_, _) => true
    case Crash => false
  }

  function Listed(sys: Sys, status: Status): (r: set<TaskId>)
    ensures r <= sys.tasks.Keys
  {
    set t | t in sys.tasks && sys.tasks[t].rec.row.status == status
  }

  /** Its time has come, or it has none. */
  predicate DueAt(row: Task, now: int) {
    row.nextRetryAt.None? || row.nextRetryAt.value <= now
  }

  function DueFailures(sys: Sys, now: int): set<TaskId> {
    set t | t in Listed(sys, Failed) && DueAt(sys.tasks[t].rec.row, now)
  }

  function StepsOf(sys: Sys, tasks: set<TaskId>): map<TaskId, string>
    requires tasks <= sys.tasks.Keys
  {
    map t | t in tasks :: sys.tasks[t].rec.row.step
  }

  function RowsOf(sys: Sys, tasks: set<TaskId>): map<TaskId, Task>
    requires tasks <= sys.tasks.Keys
  {
    map t | t in tasks :: sys.tasks[t].rec.row
  }

  function OnStep(steps: map<TaskId, string>, s: string): set<TaskId> {
    set t | t in steps && steps[t] == s
  }

  function LoadOf(load: map<string, nat>, s: string): nat {
    if s in load then load[s] else 0
  }

  function TotalLoad(a: map<TaskId, string>, b: map<TaskId, string>): map<string, nat> {
    map s | s in a.Values + b.Values :: |OnStep(a, s)| + |OnStep(b, s)|
  }

  function Executes(sys: Sys): set<TaskId> {
    set t | t in sys.tasks && Executing(sys.tasks[t].rec.row.status)
  }

  /** The turn the scheduler makes next, if its next step touches the database for writing. */
  function SchedTurn(cfg: Config, quota: map<string, nat>, w: World, e: Exec, inp: SchedInput): Option<Turn> {
    match e.settle
    case Some(Reading(_, _, _, _)) => None
    case Some(Trying(t, checkAlive, _, _, snap)) => Some(On(t, Action.Settle(snap, checkAlive, "settled")))
    case Some(ClosingRuns(t)) => Some(On(t, CloseOpenRuns))
    case None =>
      match e.phase
      case Requeuing(due) =>
        if inp.pick in due && inp.pick in w.sys.tasks then Some(On(inp.pick, Requeue(w.sys.tasks[inp.pick].rec.row))) else None
      case Queueing(queue, load) =>
        if !Considered(cfg, quota, queue, load, inp) || inp.pick !in w.sys.tasks then None
        else if !inp.run then Some(On(inp.pick, Skip(inp.snap, inp.seenDegraded)))
        else Some(On(inp.pick, Claim(inp.snap, "pool", inp.now)))
      case _ => None
  }

  function Quota(quota: map<string, nat>, s: string): nat {
    if s in quota then quota[s] else 1
  }

  /** The queued task passes: due, below its step's quota, of a known workflow and step. */
  predicate Considered(cfg: Config, quota: map<string, nat>, queue: map<TaskId, Task>, load: map<string, nat>, inp: SchedInput) {
    && inp.pick in queue && DueAt(queue[inp.pick], inp.now)
    && LoadOf(load, queue[inp.pick].step) < Quota(quota, queue[inp.pick].step)
    && queue[inp.pick].workflow in cfg.workflows && queue[inp.pick].step in cfg.registry
  }

  /** The scheduler's own state after its step; `sys'` is the database after its turn. */
  function SchedNext(cfg: Config, quota: map<string, nat>, w: World, e: Exec, inp: SchedInput, sys': Sys): Exec {
    if e.settle.Some? then e.(settle := SettleNext(w.sys, e.settle.value, sys'))
    else
      match e.phase
      case Recovering(todo, pausing) =>
        if inp.pick in todo then e.(phase := Recovering(todo - {inp.pick}, pausing), settle := Some(Reading(inp.pick, false, 0, None)))
        else if todo != {} then e
        else if !pausing then e.(phase := Recovering(Listed(w.sys, PausePending), true))
        else e.(phase := Idle)
      case Idle =>
        if inp.stop then e.(phase := Stopping)
        else e.(phase := Reclaiming(RowsOf(w.sys, Executes(w.sys) * inp.stale)))
      case Reclaiming(stale) =>
        if stale == map[] then e.(phase := Requeuing(DueFailures(w.sys, inp.now)))
        else if inp.pick !in stale then e
        else
          var rest := e.(phase := Reclaiming(stale - {inp.pick}));
          if RunningHere(e.inflight, inp.pick, stale[inp.pick]) then rest
          else rest.(settle := Some(Reading(inp.pick, true, 0, None)))
      case Requeuing(due) =>
        if inp.pick in due then e.(phase := Requeuing(due - {inp.pick}))
        else if due != {} then e
        else e.(phase := Counting(StepsOf(w.sys, Listed(w.sys, Running))))
      case Counting(running) => e.(phase := Loaded(TotalLoad(running, StepsOf(w.sys, Listed(w.sys, PausePending)))))
      case Loaded(load) => e.(phase := Queueing(RowsOf(w.sys, Listed(w.sys, Queued)), load))
      case Queueing(queue, load) =>
        if inp.pick !in queue then (if queue == map[] then e.(phase := Idle) else e)
        else
          var rest := queue - {inp.pick};
          if inp.run && Considered(cfg, quota, queue, load, inp) && Won(w.sys, sys', inp.pick) then
            var step := queue[inp.pick].step;
            e.(phase := Queueing(rest, load[step := LoadOf(load, step) + 1]), inflight := e.inflight[inp.pick := w.sys.nextToken])
          else e.(phase := Queueing(rest, load))
      case Stopping => e
  }

  /** The claim just made won: the task now carries the token it drew. */
  predicate Won(sys: Sys, sys': Sys, t: TaskId) {
    t in sys.tasks && t in sys'.tasks && sys'.tasks[t].rec.row.lock.token == Some(sys.nextToken)
  }

  predicate RunningHere(inflight: map<TaskId, Token>, t: TaskId, row: Task) {
    t in inflight && row.lock.token == Some(inflight[t])
  }

  function SettleNext(sys: Sys, st: Settle, sys': Sys): Option<Settle> {
    match st
    case Reading(t, checkAlive, tries, heartbeat) =>
      if t !in sys.tasks || tries >= ATTEMPTS then None
      else
        var row := sys.tasks[t].rec.row;
        if !Executing(row.status) then None
        else if heartbeat.None? then Some(Trying(t, checkAlive, tries, Some(row.lock.heartbeat), row))
        else if checkAlive && row.lock.heartbeat != heartbeat.value then None
        else Some(Trying(t, checkAlive, tries, heartbeat, row))
    case Trying(t, checkAlive, tries, heartbeat, snap) =>
      if t in sys.tasks && t in sys'.tasks && sys'.tasks[t].released != sys.tasks[t].released then Some(ClosingRuns(t))
      else Some(Reading(t, checkAlive, tries + 1, heartbeat))
    case ClosingRuns(t) => None
  }

  // -- the world -----------------------------------------------------------------------------

  predicate NoJobs(sys: Sys) {
    forall t :: t in sys.tasks ==> sys.tasks[t].jobs == map[]
  }

  /** The turn a deed makes, if any. */
  function TurnOf(cfg: Config, quota: map<string, nat>, w: World, d: Deed): Option<Turn> {
    match d
    case Acquire => None
    case Kill => if w.lock.Some? then Some(Crash) else None
    case Release => None
    case Schedule(inp) => if w.lock.Some? then SchedTurn(cfg, quota, w, w.lock.value, inp) else None
    case Labour(t, token, work) => if w.lock.Some? then Some(On(t, Work(token, work))) else None
    case Pulse(t, token, now, progress) => if w.lock.Some? then Some(On(t, Beat(token, now, progress))) else None
    case Cleanup(t, token) => if w.lock.Some? && Finished(w.sys, t, token) then Some(On(t, Die(token))) else None
    case Outside(turn) => if Unlocked(turn) then Some(turn) else None
  }

  predicate Finished(sys: Sys, t: TaskId, token: Token) {
    t in sys.tasks && token in sys.tasks[t].jobs && sys.tasks[t].jobs[token].Ended?
  }

  function LockAfter(cfg: Config, quota: map<string, nat>, w: World, d: Deed, sys': Sys): Option<Exec> {
    match d
    case Acquire =>
      if w.lock.Some? then w.lock
      else Some(Exec(Recovering(Listed(w.sys, Running), false), None, map[], w.sys.nextToken))
    case Kill => None
    case Release =>
      if w.lock.Some? && w.lock.value.phase.Stopping? && NoJobs(w.sys) then None else w.lock
    case Schedule(inp) => if w.lock.Some? then Some(SchedNext(cfg, quota, w, w.lock.value, inp, sys')) else None
    case Cleanup(t, token) =>
      if w.lock.Some? && Finished(w.sys, t, token) && t in w.lock.value.inflight && w.lock.value.inflight[t] == token
      then Some(w.lock.value.(inflight := w.lock.value.inflight - {t})) else w.lock
    case _ => w.lock
  }

  function Doing(cfg: Config, quota: map<string, nat>, w: World, d: Deed): World {
    var turn := TurnOf(cfg, quota, w, d);
    var sys' := if turn.Some? then Step(cfg, w.sys, turn.value) else w.sys;
    World(sys', LockAfter(cfg, quota, w, d, sys'))
  }

  const START := World(EMPTY, None)

  function History(cfg: Config, quota: map<string, nat>, w: World, deeds: seq<Deed>): World {
    if deeds == [] then w else Doing(cfg, quota, History(cfg, quota, w, deeds[..|deeds| - 1]), deeds[|deeds| - 1])
  }
}
