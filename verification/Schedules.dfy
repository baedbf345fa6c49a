/** What the scheduler does with the task it comes to, when nobody has touched that task since it was
    read. (What others may do in between is in the other modules.) */
module Schedules {
  import opened Models
  import opened Records
  import opened StateMachine
  import opened Worker
  import opened Protocol
  import opened Invariant
  import opened InvariantProof
  import opened Safety
  import opened Requests
  import opened Executor
  import opened ExecutorProof
  import opened Recoveries

  /** The lock is held, with this much of the scheduler's own state. */
  predicate Holds1(w: World, phase: Phase, settle: Option<Settle>) {
    w.lock.Some? && w.lock.value.phase == phase && w.lock.value.settle == settle
  }

  function RowOf(w: World, t: TaskId): Task
    requires t in w.sys.tasks
  {
    w.sys.tasks[t].rec.row
  }

  /** The scheduler comes to a queued task of its list. */
  predicate InTurn(cfg: Config, w: World, inp: SchedInput, queue: map<TaskId, Task>, load: map<string, nat>) {
    && WorldOk(cfg, w) && Holds1(w, Queueing(queue, load), None) && inp.pick in queue && inp.pick in w.sys.tasks
    && RowOf(w, inp.pick).status.Queued? && queue[inp.pick] == RowOf(w, inp.pick) && inp.snap == RowOf(w, inp.pick)
  }

  function Counted1(load: map<string, nat>, step: string): nat {
    if step in load then load[step] else 0
  }

  /** Its time has come, its step is below its quota as counted, its workflow and step are known. */
  predicate TakenUp(cfg: Config, quota: map<string, nat>, row: Task, load: map<string, nat>, now: int) {
    && (row.nextRetryAt.Some? ==> row.nextRetryAt.value <= now) && Counted1(load, row.step) < Quota(quota, row.step)
    && row.workflow in cfg.workflows && row.step in cfg.registry
  }

  /** A task to take up gets a worker, in flight under the claim just drawn, and is counted. */
  lemma QueueClaims(cfg: Config, quota: map<string, nat>, w: World, inp: SchedInput, queue: map<TaskId, Task>, load: map<string, nat>)
    requires InTurn(cfg, w, inp, queue, load) && TakenUp(cfg, quota, RowOf(w, inp.pick), load, inp.now) && inp.run
    ensures var w' := Doing(cfg, quota, w, Schedule(inp));
            var t, row := inp.pick, RowOf(w, inp.pick);
            && t in w'.sys.tasks
            && RowOf(w', t) == row.(status := Running, lock := Lock(Some("pool"), Some(inp.now), Some(inp.now), Some(w.sys.nextToken)), nextRetryAt := None)
            && Holds1(w', Queueing(queue - {t}, load[row.step := Counted1(load, row.step) + 1]), None)
            && w'.lock.value.inflight == w.lock.value.inflight[t := w.sys.nextToken]
  {
    hide WorldOk, SysOk, RowOk, TaskOk, Step, TaskStep, SchedNext, SchedTurn, TakenUp, Quota;
    var t, ts := inp.pick, w.sys.tasks[inp.pick];
    WorldHere(cfg, w, t);
    var turn := On(t, Claim(inp.snap, "pool", inp.now));
    TasksStay(cfg, w.sys, turn);
    ClaimEnds(cfg, ts, inp.snap, "pool", inp.now, w.sys.nextToken, w.sys.nextTask);
    ClaimTurnIs(cfg, quota, w, inp, queue, load);
    ClaimLock(cfg, quota, w, inp, queue, load, Step(cfg, w.sys, turn));
  }

  lemma ClaimTurnIs(cfg: Config, quota: map<string, nat>, w: World, inp: SchedInput, queue: map<TaskId, Task>, load: map<string, nat>)
    requires Holds1(w, Queueing(queue, load), None) && inp.pick in queue && inp.pick in w.sys.tasks && inp.run
    requires TakenUp(cfg, quota, queue[inp.pick], load, inp.now)
    ensures SchedTurn(cfg, quota, w, w.lock.value, inp) == Some(On(inp.pick, Claim(inp.snap, "pool", inp.now)))
  {
  }

  lemma ClaimLock(cfg: Config, quota: map<string, nat>, w: World, inp: SchedInput, queue: map<TaskId, Task>, load: map<string, nat>, s': Sys)
    requires Holds1(w, Queueing(queue, load), None) && inp.pick in queue && inp.pick in w.sys.tasks && inp.run
    requires TakenUp(cfg, quota, queue[inp.pick], load, inp.now) && inp.pick in s'.tasks && s'.tasks[inp.pick].rec.row.lock.token == Some(w.sys.nextToken)
    ensures var e, step := w.lock.value, queue[inp.pick].step;
            var e' := e.(phase := Queueing(queue - {inp.pick}, load[step := Counted1(load, step) + 1]), inflight := e.inflight[inp.pick := w.sys.nextToken]);
            SchedNext(cfg, quota, w, e, inp, s') == e'
  {
  }

  /** If when() says no it is advanced without a worker. */
  lemma QueueSkips(cfg: Config, quota: map<string, nat>, w: World, inp: SchedInput, queue: map<TaskId, Task>, load: map<string, nat>)
    requires InTurn(cfg, w, inp, queue, load) && TakenUp(cfg, quota, RowOf(w, inp.pick), load, inp.now) && !inp.run
    ensures var w' := Doing(cfg, quota, w, Schedule(inp));
            && inp.pick in w'.sys.tasks && Advanced(cfg, RowOf(w, inp.pick), RowOf(w', inp.pick))
            && Holds1(w', Queueing(queue - {inp.pick}, load), None) && w'.lock.value.inflight == w.lock.value.inflight
  {
    var t, ts := inp.pick, w.sys.tasks[inp.pick];
    WorldHere(cfg, w, t);
    hide WorldOk, SysOk, TaskOk, Step, TaskStep, Advanced, SchedNext, SchedTurn;
    var turn := On(t, Skip(inp.snap, inp.seenDegraded));
    TasksStay(cfg, w.sys, turn);
    SkipAdvances(cfg, ts, inp.seenDegraded, w.sys.nextToken, w.sys.nextTask);
    SkipTurnIs(cfg, quota, w, inp, queue, load);
    SkipLock(cfg, quota, w, inp, queue, load, Step(cfg, w.sys, turn));
  }

  lemma SkipTurnIs(cfg: Config, quota: map<string, nat>, w: World, inp: SchedInput, queue: map<TaskId, Task>, load: map<string, nat>)
    requires Holds1(w, Queueing(queue, load), None) && inp.pick in queue && inp.pick in w.sys.tasks && !inp.run
    requires TakenUp(cfg, quota, queue[inp.pick], load, inp.now)
    ensures SchedTurn(cfg, quota, w, w.lock.value, inp) == Some(On(inp.pick, Skip(inp.snap, inp.seenDegraded)))
  {
  }

  lemma SkipLock(cfg: Config, quota: map<string, nat>, w: World, inp: SchedInput, queue: map<TaskId, Task>, load: map<string, nat>, s': Sys)
    requires Holds1(w, Queueing(queue, load), None) && inp.pick in queue && !inp.run
    ensures SchedNext(cfg, quota, w, w.lock.value, inp, s') == w.lock.value.(phase := Queueing(queue - {inp.pick}, load))
  {
  }

  /** Any other task is passed over, and nothing happens. */
  lemma QueuePasses(cfg: Config, quota: map<string, nat>, w: World, inp: SchedInput, queue: map<TaskId, Task>, load: map<string, nat>)
    requires InTurn(cfg, w, inp, queue, load) && !TakenUp(cfg, quota, RowOf(w, inp.pick), load, inp.now)
    ensures var w' := Doing(cfg, quota, w, Schedule(inp));
            w'.sys == w.sys && Holds1(w', Queueing(queue - {inp.pick}, load), None) && w'.lock.value.inflight == w.lock.value.inflight
  {
    hide WorldOk;
  }

  lemma WorldHere(cfg: Config, w: World, t: TaskId)
    requires WorldOk(cfg, w) && t in w.sys.tasks
    ensures SysOk(cfg, w.sys) && TaskOk(cfg, w.sys.tasks[t], w.sys.nextToken) && w.sys.tasks[t].rec.row in w.sys.tasks[t].past
    ensures RowOk(cfg, w.sys.tasks[t].rec.row) && forall u :: u in w.sys.tasks ==> u < w.sys.nextTask
  {
    At(cfg, w.sys, t);
    Below(cfg, w.sys);
  }

  lemma SkipAdvances(cfg: Config, ts: TaskSys, seen: bool, drawn: Token, next: TaskId)
    requires TaskOk(cfg, ts, drawn) && ts.rec.row in ts.past && RowOk(cfg, ts.rec.row) && ts.rec.row.status.Queued?
    ensures var row' := TaskStep(cfg, ts, Skip(ts.rec.row, seen), drawn, next).sys.rec.row;
            Advanced(cfg, ts.rec.row, row') && row'.lock == ts.rec.row.lock
  {
    hide TaskOk, Cancelling;
  }

  /** A failed task that was due is queued again, and off the list. */
  lemma RequeueTurnEnds(cfg: Config, quota: map<string, nat>, w: World, inp: SchedInput, due: set<TaskId>)
    requires WorldOk(cfg, w) && Holds1(w, Requeuing(due), None) && inp.pick in due && inp.pick in w.sys.tasks && RowOf(w, inp.pick).status.Failed?
    ensures var w' := Doing(cfg, quota, w, Schedule(inp));
            && inp.pick in w'.sys.tasks && RowOf(w', inp.pick) == RowOf(w, inp.pick).(status := Queued, nextRetryAt := None)
            && Holds1(w', Requeuing(due - {inp.pick}), None)
  {
    var t, ts := inp.pick, w.sys.tasks[inp.pick];
    WorldHere(cfg, w, t);
    hide WorldOk, SysOk, TaskOk, Step, TaskStep;
    TasksStay(cfg, w.sys, On(t, Requeue(ts.rec.row)));
    RequeueDoes(cfg, ts, w.sys.nextToken, w.sys.nextTask);
  }

  lemma RequeueDoes(cfg: Config, ts: TaskSys, drawn: Token, next: TaskId)
    requires ts.rec.row in ts.past && ts.rec.row.status.Failed?
    ensures TaskStep(cfg, ts, Requeue(ts.rec.row), drawn, next).sys.rec.row == ts.rec.row.(status := Queued, nextRetryAt := None)
  {
  }

  /** A task read as stale is settled, unless its claim is the very one a job in flight holds. */
  lemma ReclaimTurn(cfg: Config, quota: map<string, nat>, w: World, inp: SchedInput, stale: map<TaskId, Task>)
    requires Holds1(w, Reclaiming(stale), None) && inp.pick in stale
    ensures var w' := Doing(cfg, quota, w, Schedule(inp));
            var ours := inp.pick in w.lock.value.inflight && stale[inp.pick].lock.token == Some(w.lock.value.inflight[inp.pick]);
            w'.sys == w.sys && Holds1(w', Reclaiming(stale - {inp.pick}), if ours then None else Some(Reading(inp.pick, true, 0, None)))
  {
  }

  /** A settling nobody disturbs: the task is read, settled in one write, and then its open runs are
      closed as interrupted. */
  lemma Settles(cfg: Config, quota: map<string, nat>, w: World, t: TaskId, alive: bool, i1: SchedInput, i2: SchedInput, i3: SchedInput)
    requires WorldOk(cfg, w) && w.lock.Some? && w.lock.value.settle == Some(Reading(t, alive, 0, None))
    requires t in w.sys.tasks && Executing(RowOf(w, t).status)
    ensures var w1 := Doing(cfg, quota, w, Schedule(i1));
            var w2 := Doing(cfg, quota, w1, Schedule(i2));
            var w3 := Doing(cfg, quota, w2, Schedule(i3));
            && t in w3.sys.tasks && SettledAs(cfg, RowOf(w, t), RowOf(w3, t))
            && Holds1(w3, w.lock.value.phase, None) && w3.lock.value.inflight == w.lock.value.inflight
            && var runs, runs' := w.sys.tasks[t].rec.runs, w3.sys.tasks[t].rec.runs;
               && |runs'| == |runs|
               && forall j :: 0 <= j < |runs| ==> runs'[j] == if runs[j].status.RunOpen? then runs[j].(status := RunInterrupted) else runs[j]
  {
    hide WorldOk, Doing, SettledAs, CloseRuns, Executing;
    var w1 := Doing(cfg, quota, w, Schedule(i1));
    Reads(cfg, quota, w, t, alive, i1);
    var w2 := Doing(cfg, quota, w1, Schedule(i2));
    WritesSettled(cfg, quota, w1, t, alive, i2);
    ClosesRuns(cfg, quota, w2, t, i3);
  }

  lemma Reads(cfg: Config, quota: map<string, nat>, w: World, t: TaskId, alive: bool, inp: SchedInput)
    requires WorldOk(cfg, w) && w.lock.Some? && w.lock.value.settle == Some(Reading(t, alive, 0, None)) && t in w.sys.tasks && Executing(RowOf(w, t).status)
    ensures var w' := Doing(cfg, quota, w, Schedule(inp));
            WorldOk(cfg, w') && w'.sys == w.sys && w'.lock.Some?
            && w'.lock.value == w.lock.value.(settle := Some(Trying(t, alive, 0, Some(RowOf(w, t).lock.heartbeat), RowOf(w, t))))
  {
    DoKeeps(cfg, quota, w, Schedule(inp));
    hide WorldOk;
  }

  lemma WritesSettled(cfg: Config, quota: map<string, nat>, w: World, t: TaskId, alive: bool, inp: SchedInput)
    requires WorldOk(cfg, w) && w.lock.Some? && t in w.sys.tasks && Executing(RowOf(w, t).status)
    requires w.lock.value.settle == Some(Trying(t, alive, 0, Some(RowOf(w, t).lock.heartbeat), RowOf(w, t)))
    ensures var w' := Doing(cfg, quota, w, Schedule(inp));
            && WorldOk(cfg, w') && t in w'.sys.tasks && SettledAs(cfg, RowOf(w, t), RowOf(w', t)) && w'.sys.tasks[t].rec.runs == w.sys.tasks[t].rec.runs
            && w'.lock.Some? && w'.lock.value == w.lock.value.(settle := Some(ClosingRuns(t)))
  {
    var ts := w.sys.tasks[t];
    DoKeeps(cfg, quota, w, Schedule(inp));
    WorldHere(cfg, w, t);
    hide WorldOk, SysOk, TaskOk, Step, TaskStep, SettledAs;
    TasksStay(cfg, w.sys, On(t, Action.Settle(ts.rec.row, alive, "settled")));
    SettlesNow(cfg, ts, alive, w.sys.nextToken, w.sys.nextTask);
  }

  lemma SettlesNow(cfg: Config, ts: TaskSys, alive: bool, drawn: Token, next: TaskId)
    requires TaskOk(cfg, ts, drawn) && RowOk(cfg, ts.rec.row) && Executing(ts.rec.row.status) && ts.rec.row in ts.past
    ensures var ts' := TaskStep(cfg, ts, Action.Settle(ts.rec.row, alive, "settled"), drawn, next).sys;
            SettledAs(cfg, ts.rec.row, ts'.rec.row) && ts'.rec.runs == ts.rec.runs && ts'.released != ts.released
  {
    hide TaskOk, SettledAs;
    SettleEnds(cfg, ts, ts.rec.row, alive, "settled", drawn, next);
    assert |TaskStep(cfg, ts, Action.Settle(ts.rec.row, alive, "settled"), drawn, next).sys.released| == |ts.released| + 1;
  }

  lemma ClosesRuns(cfg: Config, quota: map<string, nat>, w: World, t: TaskId, inp: SchedInput)
    requires WorldOk(cfg, w) && w.lock.Some? && t in w.sys.tasks && w.lock.value.settle == Some(ClosingRuns(t))
    ensures var w' := Doing(cfg, quota, w, Schedule(inp));
            && t in w'.sys.tasks && w'.sys.tasks[t].rec == w.sys.tasks[t].rec.(runs := CloseRuns(w.sys.tasks[t].rec.runs))
            && w'.lock.Some? && w'.lock.value == w.lock.value.(settle := None)
  {
    WorldHere(cfg, w, t);
    hide WorldOk, SysOk, TaskOk, Step, TaskStep, CloseRuns;
    TasksStay(cfg, w.sys, On(t, CloseOpenRuns));
    ClosedBy(cfg, w.sys.tasks[t], w.sys.nextToken, w.sys.nextTask);
  }

  lemma ClosedBy(cfg: Config, ts: TaskSys, drawn: Token, next: TaskId)
    ensures TaskStep(cfg, ts, CloseOpenRuns, drawn, next).sys.rec == ts.rec.(runs := CloseRuns(ts.rec.runs))
  {
  }
}
