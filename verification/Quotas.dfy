/** Per-step quotas: the scheduler counts with two reads while workers finish and users pause,
    and still never runs more tasks on a step than its quota. */
module Quotas {
  import opened Models
  import opened Records
  import opened StateMachine
  import opened Worker
  import opened Protocol
  import opened Invariant
  import opened InvariantProof
  import opened Safety
  import opened Executor
  import opened ExecutorProof

  /** The tasks a worker is mid-step in, on one step. */
  function Busy(sys: Sys, step: string): set<TaskId> {
    set t | t in sys.tasks && Executing(sys.tasks[t].rec.row.status) && sys.tasks[t].rec.row.step == step
  }

  /** A listed task the scheduler has not come to yet: queued, or since paused or terminated,
      and on the step it was listed with. */
  predicate Untouched(row: Task, listed: Task) {
    (row.status.Queued? || row.status.Paused? || Terminal(row.status)) && row.step == listed.step
  }

  /** The scheduler's count against the tasks that execute now. Between the two reads a task
      it did not count is pausing, so the second read will count it. */
  ghost predicate LoadOk(sys: Sys, phase: Phase) {
    match phase
    case Counting(running) =>
      forall t :: t in sys.tasks && Executing(sys.tasks[t].rec.row.status) ==>
        (t in running && running[t] == sys.tasks[t].rec.row.step) || sys.tasks[t].rec.row.status.PausePending?
    case Loaded(load) => Covers(sys, load)
    case Queueing(queue, load) =>
      Covers(sys, load) && forall t :: t in queue ==> t in sys.tasks && Untouched(sys.tasks[t].rec.row, queue[t])
    case _ => true
  }

  ghost predicate WithinQuota(sys: Sys, quota: map<string, nat>) {
    forall step :: |Busy(sys, step)| <= Quota(quota, step)
  }

  ghost predicate Covers(sys: Sys, load: map<string, nat>) {
    forall step :: |Busy(sys, step)| <= LoadOf(load, step)
  }

  ghost predicate QuotaOk(w: World, quota: map<string, nat>) {
    WithinQuota(w.sys, quota) && (w.lock.Some? ==> LoadOk(w.sys, w.lock.value.phase))
  }

  // -- counting ------------------------------------------------------------------------------

  lemma OffStep(steps: map<TaskId, string>, step: string)
    ensures step !in steps.Values ==> OnStep(steps, step) == {}
  {
    assert forall t :: t in steps ==> steps[t] in steps.Values;
  }

  /** Running first, pausing second: the sum may count a task twice but misses none. */
  lemma CountCovers(sys: Sys, running: map<TaskId, string>)
    requires LoadOk(sys, Counting(running))
    ensures Covers(sys, TotalLoad(running, StepsOf(sys, Listed(sys, PausePending))))
  {
    var pausing := StepsOf(sys, Listed(sys, PausePending));
    forall step ensures |Busy(sys, step)| <= LoadOf(TotalLoad(running, pausing), step) {
      var a, b := OnStep(running, step), OnStep(pausing, step);
      assert Busy(sys, step) <= a + b;
      SubsetSize(Busy(sys, step), a + b);
      assert |a + b| + |a * b| == |a| + |b|;
      OffStep(running, step);
      OffStep(pausing, step);
    }
  }

  // -- turns that claim nothing --------------------------------------------------------------

  /** Whoever executes did so before, on the same step, and goes on pausing if it was. */
  predicate NoNewcomer(s: Sys, s': Sys) {
    forall t :: t in s'.tasks && Executing(s'.tasks[t].rec.row.status) ==>
      && t in s.tasks && Executing(s.tasks[t].rec.row.status)
      && s'.tasks[t].rec.row.step == s.tasks[t].rec.row.step
      && (s.tasks[t].rec.row.status.PausePending? ==> s'.tasks[t].rec.row.status.PausePending?)
  }

  lemma NoNewcomerQuota(s: Sys, s': Sys, quota: map<string, nat>)
    requires NoNewcomer(s, s')
    ensures WithinQuota(s, quota) ==> WithinQuota(s', quota)
    ensures forall load :: Covers(s, load) ==> Covers(s', load)
    ensures forall running :: LoadOk(s, Counting(running)) ==> LoadOk(s', Counting(running))
  {
    forall step ensures |Busy(s', step)| <= |Busy(s, step)| {
      SubsetSize(Busy(s', step), Busy(s, step));
    }
  }

  lemma TurnClaimsNothing(s: Sys, s': Sys, t: TaskId, a: Action)
    requires RowsOk(s) && RowsOk(s') && !a.Claim?
    requires OnlyTask(s, s', t, a) && TaskEffect(s.tasks[t], s'.tasks[t], a, s.nextToken)
    ensures NoNewcomer(s, s')
  {
  }

  /** A task the scheduler listed keeps its place unless the scheduler itself, or a forced
      set-step, moves it. */
  lemma UntouchedStays(cfg: Config, ts: TaskSys, a: Action, listed: Task, drawn: Token, next: TaskId)
    requires TaskOk(cfg, ts, drawn) && Untouched(ts.rec.row, listed)
    requires !a.Claim? && !a.Skip? && !ForcesStep(a)
    ensures Untouched(TaskStep(cfg, ts, a, drawn, next).sys.rec.row, listed)
  {
    if Enabled(ts, a) {
      hide PastOk, ReleasedOk, JobsOk, AttemptsOk, ItemsOk, GrantOk;
      if a.Work? {
        hide JobStep;
        Fenced(cfg, ts, a, a.token, drawn, next);
      } else if a.User? {
        hide UserRound, After;
        UserUntouched(cfg, ts.rec, a.snap, a.req, listed, next);
      }
    }
  }

  predicate ForcesStep(a: Action) {
    a.User? && a.req.SetStep? && a.req.force
  }

  lemma UserUntouched(cfg: Config, rec: Record, snap: Task, req: Request, listed: Task, next: TaskId)
    requires RecordOk(cfg, rec) && Untouched(rec.row, listed) && !(req.SetStep? && req.force)
    ensures Untouched(After(rec, UserRound(Steps(cfg, rec.row.workflow), rec, snap, req, next)).row, listed)
  {
    var steps := Steps(cfg, rec.row.workflow);
    if !req.Submit? && UserRound(steps, rec, snap, req, next).Committed? {
      UserDoes(steps, rec, snap, req, next);
    }
  }

  // -- deeds -----------------------------------------------------------------------------------

  /** No forced set-step on a task the scheduler has listed and not yet come to. */
  predicate Polite(w: World, d: Deed) {
    w.lock.Some? && w.lock.value.phase.Queueing? && d.Outside? && d.turn.On? && ForcesStep(d.turn.action) ==>
      d.turn.task !in w.lock.value.phase.queue
  }

  predicate AllPolite(cfg: Config, quota: map<string, nat>, deeds: seq<Deed>) {
    forall i :: 0 <= i < |deeds| ==> Polite(History(cfg, quota, START, deeds[..i]), deeds[i])
  }

  /** What the claim of a considered task does to the numbers. */
  lemma ClaimAddsOne(s: Sys, s': Sys, t: TaskId, a: Action)
    requires RowsOk(s) && RowsOk(s') && a.Claim? && Won(s, s', t)
    requires OnlyTask(s, s', t, a) && TaskEffect(s.tasks[t], s'.tasks[t], a, s.nextToken)
    requires s'.tasks[t].rec.row.step == s.tasks[t].rec.row.step
    ensures t !in Busy(s, s.tasks[t].rec.row.step)
    ensures Busy(s', s.tasks[t].rec.row.step) == Busy(s, s.tasks[t].rec.row.step) + {t}
    ensures forall step :: step != s.tasks[t].rec.row.step ==> Busy(s', step) == Busy(s, step)
  {
  }

  lemma ClaimLosesNothing(s: Sys, s': Sys, t: TaskId, a: Action)
    requires RowsOk(s) && RowsOk(s') && a.Claim? && !Won(s, s', t)
    requires OnlyTask(s, s', t, a) && TaskEffect(s.tasks[t], s'.tasks[t], a, s.nextToken)
    ensures NoNewcomer(s, s')
  {
  }

  lemma ClaimKeepsStep(cfg: Config, ts: TaskSys, snap: Task, worker: string, now: int, drawn: Token, next: TaskId)
    ensures TaskStep(cfg, ts, Claim(snap, worker, now), drawn, next).sys.rec.row.step == ts.rec.row.step
  {
  }

  /** A claim by the scheduler: the listed step is the task's step, and was counted below its
      quota; the new load counts the newcomer. */
  lemma ClaimWithin(s: Sys, s': Sys, quota: map<string, nat>, queue: map<TaskId, Task>, load: map<string, nat>, t: TaskId, a: Action)
    requires RowsOk(s) && RowsOk(s') && a.Claim? && Won(s, s', t) && t in queue
    requires OnlyTask(s, s', t, a) && TaskEffect(s.tasks[t], s'.tasks[t], a, s.nextToken)
    requires s'.tasks[t].rec.row.step == s.tasks[t].rec.row.step == queue[t].step
    requires WithinQuota(s, quota) && Covers(s, load) && LoadOf(load, queue[t].step) < Quota(quota, queue[t].step)
    ensures WithinQuota(s', quota) && Covers(s', load[queue[t].step := LoadOf(load, queue[t].step) + 1])
  {
    ClaimAddsOne(s, s', t, a);
    var mine := queue[t].step;
    var load' := load[mine := LoadOf(load, mine) + 1];
    forall step ensures |Busy(s', step)| <= Quota(quota, step) && |Busy(s', step)| <= LoadOf(load', step) {
      assert |Busy(s, step)| <= Quota(quota, step) && |Busy(s, step)| <= LoadOf(load, step);
      if step == mine { assert |Busy(s', step)| == |Busy(s, step)| + 1; }
    }
  }

  /** Everyone but the scheduler. */
  lemma OthersWithin(cfg: Config, s: Sys, s': Sys, quota: map<string, nat>, phase: Phase, t: TaskId, a: Action)
    requires LoadOk(s, phase) && WithinQuota(s, quota) && RowsOk(s) && RowsOk(s')
    requires !a.Claim? && OnlyTask(s, s', t, a) && TaskEffect(s.tasks[t], s'.tasks[t], a, s.nextToken)
    requires phase.Queueing? && t in phase.queue ==> Untouched(s'.tasks[t].rec.row, phase.queue[t])
    ensures LoadOk(s', phase) && WithinQuota(s', quota)
  {
    TurnClaimsNothing(s, s', t, a);
    NoNewcomerQuota(s, s', quota);
  }

  /** One turn on one task, with what the invariant says before and after. */
  predicate Turned(cfg: Config, s: Sys, s': Sys, t: TaskId, a: Action) {
    && RowsOk(s) && RowsOk(s')
    && OnlyTask(s, s', t, a) && TaskEffect(s.tasks[t], s'.tasks[t], a, s.nextToken)
    && TaskOk(cfg, s.tasks[t], s.nextToken)
    && s'.tasks[t] == TaskStep(cfg, s.tasks[t], a, s.nextToken, s.nextTask).sys
  }

  lemma TurnsTask(cfg: Config, s: Sys, t: TaskId, a: Action)
    requires SysOk(cfg, s) && t in s.tasks
    ensures Turned(cfg, s, Step(cfg, s, On(t, a)), t, a)
  {
    var s' := Step(cfg, s, On(t, a));
    OnTask(cfg, s, t, a);
    RowsFollow(cfg, s);
    RowsFollow(cfg, s');
    At(cfg, s, t);
    TaskAfter(cfg, s, t, a);
  }

  lemma OtherTurn(cfg: Config, quota: map<string, nat>, s: Sys, s': Sys, phase: Phase, t: TaskId, a: Action)
    requires Turned(cfg, s, s', t, a) && LoadOk(s, phase) && WithinQuota(s, quota) && !a.Claim? && !a.Skip?
    requires phase.Queueing? && t in phase.queue ==> !ForcesStep(a)
    ensures WithinQuota(s', quota) && LoadOk(s', phase)
  {
    if phase.Queueing? && t in phase.queue {
      UntouchedStays(cfg, s.tasks[t], a, phase.queue[t], s.nextToken, s.nextTask);
    }
    OthersWithin(cfg, s, s', quota, phase, t, a);
  }

  /** The scheduler's claim of a considered task, won or lost. */
  lemma ClaimTurn(cfg: Config, quota: map<string, nat>, w: World, e: Exec, inp: SchedInput, s': Sys)
    requires e.settle.None? && e.phase.Queueing? && inp.run && LoadOk(w.sys, e.phase) && WithinQuota(w.sys, quota)
    requires Considered(cfg, quota, e.phase.queue, e.phase.load, inp)
    requires Turned(cfg, w.sys, s', inp.pick, Claim(inp.snap, "pool", inp.now))
    ensures WithinQuota(s', quota) && LoadOk(s', SchedNext(cfg, quota, w, e, inp, s').phase)
  {
    hide SchedNext, TaskOk, RowsOk, TaskEffect, TaskStep, Busy;
    var t, a := inp.pick, Claim(inp.snap, "pool", inp.now);
    ClaimKeepsStep(cfg, w.sys.tasks[t], inp.snap, "pool", inp.now, w.sys.nextToken, w.sys.nextTask);
    ClaimPhase(cfg, quota, w, e, inp, s');
    if Won(w.sys, s', t) {
      ClaimWithin(w.sys, s', quota, e.phase.queue, e.phase.load, t, a);
    } else {
      ClaimLosesNothing(w.sys, s', t, a);
      NoNewcomerQuota(w.sys, s', quota);
    }
  }

  lemma ClaimPhase(cfg: Config, quota: map<string, nat>, w: World, e: Exec, inp: SchedInput, s': Sys)
    requires e.settle.None? && e.phase.Queueing? && inp.run
    requires Considered(cfg, quota, e.phase.queue, e.phase.load, inp)
    ensures var step := e.phase.queue[inp.pick].step;
            SchedNext(cfg, quota, w, e, inp, s').phase
              == Queueing(e.phase.queue - {inp.pick},
                          if Won(w.sys, s', inp.pick) then e.phase.load[step := LoadOf(e.phase.load, step) + 1] else e.phase.load)
  {
  }

  lemma SkipTurn(cfg: Config, quota: map<string, nat>, w: World, e: Exec, inp: SchedInput, s': Sys)
    requires e.settle.None? && e.phase.Queueing? && !inp.run && LoadOk(w.sys, e.phase) && WithinQuota(w.sys, quota)
    requires inp.pick in e.phase.queue && Turned(cfg, w.sys, s', inp.pick, Skip(inp.snap, inp.seenDegraded))
    ensures WithinQuota(s', quota) && LoadOk(s', SchedNext(cfg, quota, w, e, inp, s').phase)
  {
    hide SettleNext, TaskEffect, NoNewcomer, Considered, RowsOk, TaskStep, TaskOk, StepsOf, Busy;
    TurnClaimsNothing(w.sys, s', inp.pick, Skip(inp.snap, inp.seenDegraded));
    NoNewcomerQuota(w.sys, s', quota);
  }

  /** The scheduler between its writes. */
  lemma PhaseWithin(cfg: Config, quota: map<string, nat>, w: World, e: Exec, inp: SchedInput)
    requires e.settle.None? && LoadOk(w.sys, e.phase)
    requires e.phase.Queueing? && inp.pick in e.phase.queue ==> !Won(w.sys, w.sys, inp.pick)
    ensures LoadOk(w.sys, SchedNext(cfg, quota, w, e, inp, w.sys).phase)
  {
    if e.phase.Counting? { CountCovers(w.sys, e.phase.running); }
  }

  lemma ScheduleWithin(cfg: Config, quota: map<string, nat>, w: World, e: Exec, inp: SchedInput)
    requires SysOk(cfg, w.sys) && ExecOk(w.sys, e) && w.lock == Some(e) && QuotaOk(w, quota)
    ensures QuotaOk(Doing(cfg, quota, w, Schedule(inp)), quota)
  {
    hide LoadOk, PhaseOk, OnlyTask, TaskEffect, Considered, Insert, RowsOk, NewTask, LiveOk, SinceOk, SettleOk;
    var turn := SchedTurn(cfg, quota, w, e, inp);
    if turn.None? {
      RowsFollow(cfg, w.sys);
      hide SysOk;
      NothingTurned(cfg, quota, w, e, inp);
    } else if turn.value.task in w.sys.tasks {
      hide SysOk, ExecOk, QuotaOk, Turned, Step, SchedNext;
      var t, a := turn.value.task, turn.value.action;
      TurnsTask(cfg, w.sys, t, a);
      SchedulerTurn(cfg, quota, w, e, inp, Step(cfg, w.sys, turn.value), t, a);
    }
  }

  lemma NothingTurned(cfg: Config, quota: map<string, nat>, w: World, e: Exec, inp: SchedInput)
    requires RowsOk(w.sys) && ExecOk(w.sys, e) && w.lock == Some(e) && QuotaOk(w, quota) && SchedTurn(cfg, quota, w, e, inp).None?
    ensures QuotaOk(Doing(cfg, quota, w, Schedule(inp)), quota)
  {
    hide LiveOk, SinceOk, WithinQuota, Covers;
    if e.settle.None? { PhaseWithin(cfg, quota, w, e, inp); }
  }

  lemma SchedulerTurn(cfg: Config, quota: map<string, nat>, w: World, e: Exec, inp: SchedInput, s': Sys, t: TaskId, a: Action)
    requires ExecOk(w.sys, e) && w.lock == Some(e) && QuotaOk(w, quota)
    requires SchedTurn(cfg, quota, w, e, inp) == Some(On(t, a)) && Turned(cfg, w.sys, s', t, a)
    ensures QuotaOk(World(s', Some(SchedNext(cfg, quota, w, e, inp, s'))), quota)
  {
    hide Turned, ExecOk;
    if a.Claim? { ClaimTurn(cfg, quota, w, e, inp, s'); }
    else if a.Skip? { SkipTurn(cfg, quota, w, e, inp, s'); }
    else { OtherTurn(cfg, quota, w.sys, s', e.phase, t, a); }
  }

  lemma OutsiderWithin(cfg: Config, quota: map<string, nat>, w: World, t: TaskId, a: Action)
    requires SysOk(cfg, w.sys) && QuotaOk(w, quota) && !a.Claim? && !a.Skip?
    requires w.lock.Some? && w.lock.value.phase.Queueing? && ForcesStep(a) ==> t !in w.lock.value.phase.queue
    ensures QuotaOk(World(Step(cfg, w.sys, On(t, a)), w.lock), quota)
  {
    if t in w.sys.tasks {
      TurnsTask(cfg, w.sys, t, a);
      OtherTurn(cfg, quota, w.sys, Step(cfg, w.sys, On(t, a)), if w.lock.Some? then w.lock.value.phase else Idle, t, a);
    }
  }

  lemma CreateWithin(cfg: Config, quota: map<string, nat>, w: World, m: Turn)
    requires QuotaOk(w, quota) && !m.On? && (forall u :: u in w.sys.tasks ==> u < w.sys.nextTask)
    ensures QuotaOk(World(Step(cfg, w.sys, m), if m.Crash? then None else w.lock), quota)
  {
    var s' := Step(cfg, w.sys, m);
    assert NoNewcomer(w.sys, s');
    NoNewcomerQuota(w.sys, s', quota);
  }

  lemma DeedWithin(cfg: Config, quota: map<string, nat>, w: World, d: Deed)
    requires WorldOk(cfg, w) && QuotaOk(w, quota) && Polite(w, d)
    ensures QuotaOk(Doing(cfg, quota, w, d), quota)
  {
    hide Step, Finished;
    match d
    case Schedule(inp) => if w.lock.Some? { ScheduleWithin(cfg, quota, w, w.lock.value, inp); }
    case Labour(t, k, inp) => if w.lock.Some? { OutsiderWithin(cfg, quota, w, t, Work(k, inp)); }
    case Pulse(t, k, now, progress) => if w.lock.Some? { OutsiderWithin(cfg, quota, w, t, Beat(k, now, progress)); }
    case Cleanup(t, k) => if w.lock.Some? && Finished(w.sys, t, k) { OutsiderWithin(cfg, quota, w, t, Die(k)); }
    case Outside(turn) =>
      if Unlocked(turn) {
        if turn.On? { OutsiderWithin(cfg, quota, w, turn.task, turn.action); }
        else { Below(cfg, w.sys); CreateWithin(cfg, quota, w, turn); }
      }
    case Kill => if w.lock.Some? { Below(cfg, w.sys); CreateWithin(cfg, quota, w, Crash); }
    case _ =>
  }

  /** In every history the tasks that execute on a step are never more than its quota, provided
      nobody forces a listed task onto another step between the queue read and its claim. */
  lemma {:induction false} QuotaHeld(cfg: Config, quota: map<string, nat>, deeds: seq<Deed>)
    requires AllPolite(cfg, quota, deeds)
    ensures QuotaOk(History(cfg, quota, START, deeds), quota)
  {
    if deeds == [] {
      assert forall step :: Busy(EMPTY, step) == {};
    } else {
      var n := |deeds| - 1;
      assert forall i :: 0 <= i < n ==> deeds[..n][..i] == deeds[..i] && deeds[..n][i] == deeds[i];
      QuotaHeld(cfg, quota, deeds[..n]);
      HistoryOk(cfg, quota, deeds[..n]);
      DeedWithin(cfg, quota, History(cfg, quota, START, deeds[..n]), deeds[n]);
    }
  }

  /** The proviso is needed, and only it: a claim always adds exactly one task to the step the
      task is on by then. So it breaks a quota if and only if the task has left the step it was
      listed with for one that is already full. */
  lemma ClaimBreaksQuotaIff(cfg: Config, quota: map<string, nat>, w: World, e: Exec, inp: SchedInput, s': Sys)
    requires e.phase.Queueing? && inp.run && Covers(w.sys, e.phase.load) && WithinQuota(w.sys, quota)
    requires Considered(cfg, quota, e.phase.queue, e.phase.load, inp)
    requires Turned(cfg, w.sys, s', inp.pick, Claim(inp.snap, "pool", inp.now)) && Won(w.sys, s', inp.pick)
    ensures var now := w.sys.tasks[inp.pick].rec.row.step;
            !WithinQuota(s', quota) <==> now != e.phase.queue[inp.pick].step && |Busy(w.sys, now)| == Quota(quota, now)
  {
    var t, a := inp.pick, Claim(inp.snap, "pool", inp.now);
    var now := w.sys.tasks[t].rec.row.step;
    ClaimKeepsStep(cfg, w.sys.tasks[t], inp.snap, "pool", inp.now, w.sys.nextToken, w.sys.nextTask);
    ClaimAddsOne(w.sys, s', t, a);
    assert |Busy(s', now)| == |Busy(w.sys, now)| + 1;
    assert |Busy(w.sys, now)| <= LoadOf(e.phase.load, now) && |Busy(w.sys, now)| <= Quota(quota, now);
    if WithinQuota(s', quota) { assert |Busy(s', now)| <= Quota(quota, now); }
    else {
      var step :| |Busy(s', step)| > Quota(quota, step);
      assert step != now ==> |Busy(s', step)| <= Quota(quota, step);
    }
  }
}
