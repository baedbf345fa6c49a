/** The task engine as a concurrent protocol. Every action is one atomic transaction by some
    actor; workers, settlers and users act on rows they read earlier, possibly much earlier.
    Nothing here assumes an executor lock: a task may be settled under a live worker, and any
    number of stale workers may go on. */
module Protocol {
  import opened Models
  import opened Records
  import opened StateMachine
  import opened Worker

  /** One task: its rows, the workers (one per claim token) with their program counters, and as
      history every version its task row ever had, the tokens whose claim a transition has
      released, and the spawn plans committed. */
  datatype TaskSys = TaskSys(
    rec: Record, jobs: map<Token, PC>, past: set<Task>, released: seq<Token>, plans: seq<SpawnPlan>)

  datatype Action =
    | Claim(snap: Task, worker: string, now: int)
    | Work(token: Token, inp: Input)
    | Beat(token: Token, now: int, progress: Write<Option<string>>)
    | Die(token: Token)
    | Settle(snap: Task, checkAlive: bool, reason: string)
    | CloseOpenRuns
    | Requeue(snap: Task)
    | Skip(snap: Task, seenDegraded: bool)
    | User(snap: Task, req: Request)
    | TakeItem(item: ItemId, client: Token)
    | GiveItem(item: ItemId, holder: Option<Token>)
    | Tune(updates: Updates)

  datatype Stepped = Stepped(sys: TaskSys, born: seq<Child>)

  /** An action reads only versions the row really had. */
  predicate Enabled(ts: TaskSys, a: Action) {
    match a
    case Claim(snap, _, _) => snap in ts.past
    case Work(token, inp) => token in ts.jobs && inp.row in ts.past
    case Beat(token, _, _) => token in ts.jobs
    case Die(token) => token in ts.jobs
    case Settle(snap, _, _) => snap in ts.past
    case CloseOpenRuns => true
    case Requeue(snap) => snap in ts.past
    case Skip(snap, _) => snap in ts.past
    case User(snap, _) => snap in ts.past
    case TakeItem(_, _) => true
    case GiveItem(_, _) => true
    case Tune(_) => true
  }

  /** What an action makes of the record, the program counter of the worker it moves, and the
      children it creates. `drawn` is the token a claim draws; `next` the next task id. */
  datatype Effect = Effect(rec: Record, jobs: map<Token, PC>, born: seq<Child>, plan: Option<SpawnPlan>)

  function Act(cfg: Config, ts: TaskSys, a: Action, drawn: Token, next: TaskId): Effect
    requires Enabled(ts, a)
  {
    var rec := ts.rec;
    var steps := Steps(cfg, rec.row.workflow);
    match a
    case Claim(snap, worker, now) =>
      var (rec', won) := ClaimRound(rec, snap, worker, now, drawn, next);
      Effect(rec', if won then ts.jobs[drawn := Fresh] else ts.jobs, [], None)
    case Work(token, inp) =>
      var m := JobStep(cfg, rec, token, ts.jobs[token], inp, next);
      Effect(m.rec, ts.jobs[token := m.pc], m.born, m.plan)
    case Beat(token, now, progress) => Effect(Heartbeat(rec, now, progress, token), ts.jobs, [], None)
    case Die(token) => Effect(rec, ts.jobs - {token}, [], None)
    case Settle(snap, checkAlive, reason) =>
      Effect(After(rec, SettleRound(rec, snap, NoRetry(cfg, snap.step), checkAlive, reason, next)), ts.jobs, [], None)
    case CloseOpenRuns => Effect(rec.(runs := CloseRuns(rec.runs)), ts.jobs, [], None)
    case Requeue(snap) => Effect(RequeueRound(rec, snap, next), ts.jobs, [], None)
    case Skip(snap, seen) => Effect(SkipRound(steps, rec, snap, seen, next), ts.jobs, [], None)
    case User(snap, req) => Effect(After(rec, UserRound(steps, rec, snap, req, next)), ts.jobs, [], None)
    case TakeItem(i, client) => Effect(ClaimItem(rec, i, client), ts.jobs, [], None)
    case GiveItem(i, client) => Effect(ReleaseItem(rec, i, client), ts.jobs, [], None)
    case Tune(updates) => Effect(UpdateFields(rec, updates, None), ts.jobs, [], None)
  }

  /** The claim an action's transition released: the row held a token and no longer does. */
  function ReleasedBy(row: Task, row': Task): seq<Token> {
    if row.lock.token.Some? && row'.lock.token != row.lock.token then [row.lock.token.value] else []
  }

  function Recorded(ts: TaskSys, e: Effect): TaskSys {
    TaskSys(e.rec, e.jobs, ts.past + {e.rec.row}, ts.released + ReleasedBy(ts.rec.row, e.rec.row),
            ts.plans + if e.plan.Some? then [e.plan.value] else [])
  }

  function TaskStep(cfg: Config, ts: TaskSys, a: Action, drawn: Token, next: TaskId): Stepped {
    if !Enabled(ts, a) then Stepped(ts, [])
    else
      var e := Act(cfg, ts, a, drawn, next);
      Stepped(Recorded(ts, e), e.born)
  }

  // -- the whole system --------------------------------------------------------------

  /** All tasks; task ids and claim tokens are drawn from counters. */
  datatype Sys = Sys(tasks: map<TaskId, TaskSys>, nextTask: TaskId, nextToken: Token)

  /** A turn: an action on one task, a new task, or the death of a process with all its workers. */
  datatype Turn = On(task: TaskId, action: Action) | Create(workflow: string, maxRetries: int) | Crash

  function NewRow(workflow: string, first: string, maxRetries: int, parent: Option<TaskId>): Task {
    Task(workflow, first, Queued, 0, maxRetries, false, false, UNLOCKED, None, None, NoGrant, None, parent)
  }

  function NewTask(workflow: string, first: string, maxRetries: int, parent: Option<TaskId>): TaskSys {
    var row := NewRow(workflow, first, maxRetries, parent);
    TaskSys(Record(row, [], [], [], [Event(Created, first)]), map[], {row}, [], [])
  }

  /** Insert the children a transition created; their ids are consecutive. */
  function Insert(tasks: map<TaskId, TaskSys>, parent: TaskId, born: seq<Child>, next: TaskId): map<TaskId, TaskSys> {
    if born == [] then tasks
    else
      var n := |born| - 1;
      var c := born[n];
      Insert(tasks, parent, born[..n], next)[next + n := NewTask(c.workflow, c.firstStep, c.maxRetries, Some(parent))]
  }

  function Orphaned(ts: TaskSys): TaskSys {
    ts.(jobs := map[])
  }

  function Step(cfg: Config, s: Sys, m: Turn): Sys {
    match m
    case Crash => s.(tasks := map t | t in s.tasks :: Orphaned(s.tasks[t]))
    case Create(workflow, maxRetries) =>
      if Steps(cfg, workflow) == [] then s
      else Sys(s.tasks[s.nextTask := NewTask(workflow, Steps(cfg, workflow)[0], maxRetries, None)],
               s.nextTask + 1, s.nextToken)
    case On(t, a) =>
      if t !in s.tasks then s
      else
        var e := TaskStep(cfg, s.tasks[t], a, s.nextToken, s.nextTask);
        Sys(Insert(s.tasks[t := e.sys], t, e.born, s.nextTask), s.nextTask + |e.born|, s.nextToken + 1)
  }

  const EMPTY := Sys(map[], 0, 0)

  function Play(cfg: Config, s: Sys, moves: seq<Turn>): Sys {
    if moves == [] then s else Step(cfg, Play(cfg, s, moves[..|moves| - 1]), moves[|moves| - 1])
  }
}
