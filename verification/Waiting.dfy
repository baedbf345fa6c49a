/** Deferred and failed tasks wait for their time: the scheduler neither claims, skips nor requeues
    one before a reading of its clock has reached it. */
module Waiting {
  import opened Models
  import opened Records
  import opened StateMachine
  import opened Worker
  import opened Protocol
  import opened Invariant
  import opened InvariantProof
  import opened Safety
  import opened Executor
  import opened ExecutorProof
  import opened Recoveries

  /** The scheduler's clock has shown `at` or later. */
  ghost predicate TimeCame(deeds: seq<Deed>, at: int) {
    exists i :: 0 <= i < |deeds| && deeds[i].Schedule? && at <= deeds[i].inp.now
  }

  ghost predicate Ripe(deeds: seq<Deed>, row: Task) {
    row.nextRetryAt.Some? ==> TimeCame(deeds, row.nextRetryAt.value)
  }

  lemma RipeLater(deeds: seq<Deed>, d: Deed, row: Task)
    ensures Ripe(deeds, row) ==> Ripe(deeds + [d], row)
    ensures d.Schedule? && DueAt(row, d.inp.now) ==> Ripe(deeds + [d], row)
  {
    assert (deeds + [d])[|deeds|] == d;
    if Ripe(deeds, row) && row.nextRetryAt.Some? {
      var i :| 0 <= i < |deeds| && deeds[i].Schedule? && row.nextRetryAt.value <= deeds[i].inp.now;
      assert (deeds + [d])[i] == deeds[i];
    }
  }

  // -- what happens to a task nobody holds --------------------------------------------------------------------

  /** It is not claimed, its time is the same or gone, and it has not failed anew. */
  predicate StillWaits(row: Task, row': Task) {
    && row'.lock.token.None?
    && (row'.nextRetryAt.Some? ==> row'.nextRetryAt == row.nextRetryAt)
    && (row'.status.Failed? ==> row.status.Failed?)
  }

  lemma UserWaits(cfg: Config, rec: Record, snap: Task, req: Request, next: TaskId)
    requires rec.row.lock.token.None?
    ensures StillWaits(rec.row, After(rec, UserRound(Steps(cfg, rec.row.workflow), rec, snap, req, next)).row)
  {
  }

  lemma ActionWaits(cfg: Config, ts: TaskSys, a: Action, drawn: Token, next: TaskId)
    requires TaskOk(cfg, ts, drawn) && ts.rec.row.lock.token.None?
    ensures var row' := TaskStep(cfg, ts, a, drawn, next).sys.rec.row;
            a.Claim? || StillWaits(ts.rec.row, row')
  {
    if Enabled(ts, a) {
      if a.Work? {
        hide TaskOk, TaskStep;
        Fenced(cfg, ts, a, a.token, drawn, next);
      } else if a.User? {
        hide TaskOk, UserRound, StillWaits;
        UserWaits(cfg, ts.rec, a.snap, a.req, next);
      } else {
        hide TaskOk;
      }
    }
  }

  lemma TurnWaits(cfg: Config, s: Sys, m: Turn, t: TaskId)
    requires SysOk(cfg, s) && t in s.tasks && s.tasks[t].rec.row.lock.token.None?
    ensures t in Step(cfg, s, m).tasks
    ensures (m.On? && m.task == t && m.action.Claim?) || StillWaits(s.tasks[t].rec.row, Step(cfg, s, m).tasks[t].rec.row)
  {
    At(cfg, s, t);
    Below(cfg, s);
    TasksStay(cfg, s, m);
    hide SysOk, TaskOk, TaskStep, Step;
    if m.On? && m.task == t { ActionWaits(cfg, s.tasks[t], m.action, s.nextToken, s.nextTask); }
  }

  // -- the scheduler's lists --------------------------------------------------------------------------------------

  /** Whom it means to requeue has its time behind it; whom it means to claim is nobody's, and its
      time is the listed one or gone. */
  ghost predicate ListsOk(s: Sys, phase: Phase, deeds: seq<Deed>) {
    match phase
    case Requeuing(due) =>
      forall t {:trigger t in due} :: t in due ==>
        t in s.tasks && s.tasks[t].rec.row.lock.token.None? && (s.tasks[t].rec.row.status.Failed? ==> Ripe(deeds, s.tasks[t].rec.row))
    case Queueing(queue, _) =>
      forall t {:trigger t in queue} :: t in queue ==>
        && t in s.tasks && s.tasks[t].rec.row.lock.token.None?
        && (s.tasks[t].rec.row.nextRetryAt.Some? ==> s.tasks[t].rec.row.nextRetryAt == queue[t].nextRetryAt)
    case _ => true
  }

  ghost predicate WaitsOk(w: World, deeds: seq<Deed>) {
    w.lock.Some? ==> ListsOk(w.sys, w.lock.value.phase, deeds)
  }

  /** The lists stay good for every task but the one the scheduler is about to claim. */
  predicate Spares(m: Turn, phase: Phase) {
    m.On? && m.action.Claim? ==> match phase case Requeuing(due) => m.task !in due case Queueing(queue, _) => m.task !in queue case _ => true
  }

  lemma ListsAfter(cfg: Config, s: Sys, m: Turn, phase: Phase, deeds: seq<Deed>, d: Deed)
    requires SysOk(cfg, s) && ListsOk(s, phase, deeds) && Spares(m, phase)
    ensures ListsOk(Step(cfg, s, m), phase, deeds + [d])
  {
    hide SysOk, Step, Ripe;
    var s' := Step(cfg, s, m);
    match phase
    case Requeuing(due) =>
      forall t | t in due
        ensures t in s'.tasks && s'.tasks[t].rec.row.lock.token.None? && (s'.tasks[t].rec.row.status.Failed? ==> Ripe(deeds + [d], s'.tasks[t].rec.row))
      {
        TurnWaits(cfg, s, m, t);
        RipeLater(deeds, d, s.tasks[t].rec.row);
        RipeSame(deeds + [d], s.tasks[t].rec.row, s'.tasks[t].rec.row);
      }
    case Queueing(queue, _) =>
      forall t | t in queue
        ensures t in s'.tasks && s'.tasks[t].rec.row.lock.token.None?
        ensures s'.tasks[t].rec.row.nextRetryAt.Some? ==> s'.tasks[t].rec.row.nextRetryAt == queue[t].nextRetryAt
      {
        TurnWaits(cfg, s, m, t);
      }
    case _ =>
  }

  lemma RipeSame(deeds: seq<Deed>, row: Task, row': Task)
    requires StillWaits(row, row')
    ensures Ripe(deeds, row) ==> Ripe(deeds, row')
  {
  }

  lemma ListsIdle(s: Sys, phase: Phase, deeds: seq<Deed>, d: Deed)
    requires ListsOk(s, phase, deeds)
    ensures ListsOk(s, phase, deeds + [d])
  {
    hide Ripe;
    if phase.Requeuing? {
      forall t | t in phase.due ensures Ripe(deeds, s.tasks[t].rec.row) ==> Ripe(deeds + [d], s.tasks[t].rec.row) {
        RipeLater(deeds, d, s.tasks[t].rec.row);
      }
    }
  }

  /** A list just read. */
  lemma ListsRead(cfg: Config, s: Sys, deeds: seq<Deed>, d: Deed, load: map<string, nat>)
    requires SysOk(cfg, s) && d.Schedule?
    ensures ListsOk(s, Requeuing(DueFailures(s, d.inp.now)), deeds + [d])
    ensures ListsOk(s, Queueing(RowsOf(s, Listed(s, Queued)), load), deeds + [d])
  {
    RowsFollow(cfg, s);
    hide SysOk, Ripe;
    forall t | t in DueFailures(s, d.inp.now) ensures Ripe(deeds + [d], s.tasks[t].rec.row) { RipeLater(deeds, d, s.tasks[t].rec.row); }
  }

  /** What the scheduler has still to come to after its step. */
  lemma PhaseShrinks(cfg: Config, quota: map<string, nat>, w: World, e: Exec, inp: SchedInput, sys': Sys)
    ensures var phase' := SchedNext(cfg, quota, w, e, inp, sys').phase;
            var turn := SchedTurn(cfg, quota, w, e, inp);
            && (phase'.Requeuing? ==> (e.phase.Requeuing? && phase'.due <= e.phase.due) || (turn.None? && phase'.due == DueFailures(w.sys, inp.now)))
            && (phase'.Queueing? ==>
                  || (e.phase.Queueing? && (forall t :: t in phase'.queue ==> t in e.phase.queue && phase'.queue[t] == e.phase.queue[t])
                      && (turn.Some? && turn.value.On? && turn.value.action.Claim? ==> turn.value.task !in phase'.queue))
                  || (turn.None? && phase'.queue == RowsOf(w.sys, Listed(w.sys, Queued))))
  {
    hide SettleNext, DueFailures, Considered, DueAt, TotalLoad, Won, Listed;
  }

  lemma ScheduleWaits(cfg: Config, quota: map<string, nat>, w: World, e: Exec, d: Deed, deeds: seq<Deed>)
    requires SysOk(cfg, w.sys) && w.lock == Some(e) && ListsOk(w.sys, e.phase, deeds) && d.Schedule?
    ensures WaitsOk(Doing(cfg, quota, w, d), deeds + [d])
  {
    hide SysOk, Step, SchedTurn, SchedNext, ListsOk, DueFailures, Listed;
    var turn := SchedTurn(cfg, quota, w, e, d.inp);
    var sys' := if turn.Some? then Step(cfg, w.sys, turn.value) else w.sys;
    var phase' := SchedNext(cfg, quota, w, e, d.inp, sys').phase;
    PhaseShrinks(cfg, quota, w, e, d.inp, sys');
    ListsRead(cfg, w.sys, deeds, d, if phase'.Queueing? then phase'.load else map[]);
    if (phase'.Requeuing? && e.phase.Requeuing? && phase'.due <= e.phase.due)
       || (phase'.Queueing? && e.phase.Queueing? && forall t :: t in phase'.queue ==> t in e.phase.queue && phase'.queue[t] == e.phase.queue[t]) {
      ListsFewer(w.sys, e.phase, phase', deeds);
      if turn.Some? {
        RequeuingClaims(cfg, quota, w, e, d.inp);
        ListsAfter(cfg, w.sys, turn.value, phase', deeds, d);
      } else { ListsIdle(w.sys, phase', deeds, d); }
    } else if !phase'.Requeuing? && !phase'.Queueing? {
      ListsElsewhere(sys', phase', deeds + [d]);
    }
  }

  lemma ListsElsewhere(s: Sys, phase: Phase, deeds: seq<Deed>)
    requires !phase.Requeuing? && !phase.Queueing?
    ensures ListsOk(s, phase, deeds)
  {
  }

  lemma ListsFewer(s: Sys, phase: Phase, phase': Phase, deeds: seq<Deed>)
    requires ListsOk(s, phase, deeds)
    requires (phase'.Requeuing? && phase.Requeuing? && phase'.due <= phase.due)
             || (phase'.Queueing? && phase.Queueing? && forall t :: t in phase'.queue ==> t in phase.queue && phase'.queue[t] == phase.queue[t])
    ensures ListsOk(s, phase', deeds)
  {
    hide Ripe;
  }

  /** Only the walk of the queue claims. */
  lemma RequeuingClaims(cfg: Config, quota: map<string, nat>, w: World, e: Exec, inp: SchedInput)
    ensures var turn := SchedTurn(cfg, quota, w, e, inp);
            turn.Some? && turn.value.On? && turn.value.action.Claim? ==> e.phase.Queueing? && turn.value.task in e.phase.queue
  {
  }

  lemma OthersWait(cfg: Config, quota: map<string, nat>, w: World, d: Deed, deeds: seq<Deed>)
    requires SysOk(cfg, w.sys) && WaitsOk(w, deeds) && !d.Schedule?
    ensures WaitsOk(Doing(cfg, quota, w, d), deeds + [d])
  {
    hide SysOk, Step, ListsOk, Finished, NoJobs;
    var turn := TurnOf(cfg, quota, w, d);
    var w' := Doing(cfg, quota, w, d);
    if w'.lock.Some? {
      if w.lock.None? { ListsElsewhere(w'.sys, w'.lock.value.phase, deeds + [d]); }
      else {
        assert w'.lock.value.phase == w.lock.value.phase;
        if turn.Some? { ListsAfter(cfg, w.sys, turn.value, w.lock.value.phase, deeds, d); }
        else { ListsIdle(w.sys, w.lock.value.phase, deeds, d); }
      }
    }
  }

  lemma {:induction false} HistoryWaits(cfg: Config, quota: map<string, nat>, deeds: seq<Deed>)
    ensures WaitsOk(History(cfg, quota, START, deeds), deeds)
  {
    hide WaitsOk, Doing, WorldOk;
    if deeds == [] { StartWaits(); }
    else {
      var n := |deeds| - 1;
      var w := History(cfg, quota, START, deeds[..n]);
      HistoryWaits(cfg, quota, deeds[..n]);
      HistoryOk(cfg, quota, deeds[..n]);
      assert deeds[..n] + [deeds[n]] == deeds;
      DeedWaits(cfg, quota, w, deeds[n], deeds[..n]);
    }
  }

  lemma StartWaits()
    ensures WaitsOk(START, [])
  {
  }

  lemma DeedWaits(cfg: Config, quota: map<string, nat>, w: World, d: Deed, deeds: seq<Deed>)
    requires WorldOk(cfg, w) && WaitsOk(w, deeds)
    ensures WaitsOk(Doing(cfg, quota, w, d), deeds + [d])
  {
    hide SysOk, ExecOk, Doing, ListsOk;
    if d.Schedule? && w.lock.Some? { ScheduleWaits(cfg, quota, w, w.lock.value, d, deeds); }
    else if d.Schedule? { IdleSchedule(cfg, quota, w, d); }
    else { OthersWait(cfg, quota, w, d, deeds); }
  }

  lemma IdleSchedule(cfg: Config, quota: map<string, nat>, w: World, d: Deed)
    requires d.Schedule? && w.lock.None?
    ensures Doing(cfg, quota, w, d) == w
  {
  }

  // -- theorems --------------------------------------------------------------------------------------------------

  /** A task that waits: queued or failed, nobody's. */
  predicate Idles(row: Task) {
    row.status.Queued? || row.status.Failed?
  }

  /** What the scheduler may do to such a task, and what it needs for it. */
  lemma SchedulerOn(cfg: Config, quota: map<string, nat>, w: World, e: Exec, d: Deed, deeds: seq<Deed>, t: TaskId)
    requires w.lock == Some(e) && ListsOk(w.sys, e.phase, deeds) && d.Schedule? && t in w.sys.tasks && Idles(w.sys.tasks[t].rec.row)
    ensures var turn := SchedTurn(cfg, quota, w, e, d.inp);
            turn.Some? && turn.value.On? && turn.value.task == t ==>
              || Ripe(deeds + [d], w.sys.tasks[t].rec.row)
              || turn.value.action.Settle? || turn.value.action.CloseOpenRuns?
              || (turn.value.action.Requeue? && !w.sys.tasks[t].rec.row.status.Failed?)
  {
    hide Ripe;
    var row := w.sys.tasks[t].rec.row;
    RipeLater(deeds, d, row);
    if e.phase.Queueing? && t in e.phase.queue && DueAt(e.phase.queue[t], d.inp.now) {
      assert DueAt(row, d.inp.now);
    }
  }

  /** Nothing else the scheduler does touches its row. */
  lemma IdleActions(cfg: Config, ts: TaskSys, a: Action, drawn: Token, next: TaskId)
    requires Idles(ts.rec.row) && (a.Settle? || a.CloseOpenRuns? || (a.Requeue? && !ts.rec.row.status.Failed?))
    ensures TaskStep(cfg, ts, a, drawn, next).sys.rec.row == ts.rec.row
  {
  }

  lemma SchedulerWaits(cfg: Config, quota: map<string, nat>, w: World, d: Deed, deeds: seq<Deed>, t: TaskId)
    requires WorldOk(cfg, w) && WaitsOk(w, deeds) && d.Schedule? && t in w.sys.tasks && Idles(w.sys.tasks[t].rec.row)
    ensures t in Doing(cfg, quota, w, d).sys.tasks
    ensures Doing(cfg, quota, w, d).sys.tasks[t].rec.row != w.sys.tasks[t].rec.row ==> Ripe(deeds + [d], w.sys.tasks[t].rec.row)
  {
    Below(cfg, w.sys);
    hide SysOk, ExecOk, ListsOk, Step, SchedTurn, SchedNext, Idles, Ripe, TaskStep;
    if w.lock.Some? {
      var turn := SchedTurn(cfg, quota, w, w.lock.value, d.inp);
      SchedulerOn(cfg, quota, w, w.lock.value, d, deeds, t);
      if turn.Some? {
        NoCrash(cfg, quota, w, w.lock.value, d.inp);
        TasksStay(cfg, w.sys, turn.value);
        if turn.value.task == t && !Ripe(deeds + [d], w.sys.tasks[t].rec.row) {
          IdleActions(cfg, w.sys.tasks[t], turn.value.action, w.sys.nextToken, w.sys.nextTask);
        }
      }
    }
  }

  lemma NoCrash(cfg: Config, quota: map<string, nat>, w: World, e: Exec, inp: SchedInput)
    ensures SchedTurn(cfg, quota, w, e, inp).Some? ==> SchedTurn(cfg, quota, w, e, inp).value.On?
  {
  }

  /** In every history: whenever the scheduler changes a queued or failed task, be it a claim, a skip
      or an automatic retry, its clock has shown the task's next_retry_at or later. */
  lemma {:induction false} NeverEarly(cfg: Config, quota: map<string, nat>, deeds: seq<Deed>, d: Deed, t: TaskId)
    requires d.Schedule? && t in History(cfg, quota, START, deeds).sys.tasks
    requires var row := History(cfg, quota, START, deeds).sys.tasks[t].rec.row; row.status.Queued? || row.status.Failed?
    ensures t in History(cfg, quota, START, deeds + [d]).sys.tasks
    ensures var row, row' := History(cfg, quota, START, deeds).sys.tasks[t].rec.row, History(cfg, quota, START, deeds + [d]).sys.tasks[t].rec.row;
            row' != row && row.nextRetryAt.Some? ==>
              exists i :: 0 <= i <= |deeds| && (deeds + [d])[i].Schedule? && row.nextRetryAt.value <= (deeds + [d])[i].inp.now
  {
    HistoryOk(cfg, quota, deeds);
    HistoryWaits(cfg, quota, deeds);
    assert (deeds + [d])[..|deeds|] == deeds && (deeds + [d])[|deeds|] == d;
    hide WorldOk, WaitsOk, Doing;
    SchedulerWaits(cfg, quota, History(cfg, quota, START, deeds), d, deeds, t);
  }

  /** Workers that lost the task, heartbeats, other processes' deaths: nobody else touches its row. */
  lemma OtherDeeds(cfg: Config, quota: map<string, nat>, w: World, d: Deed, t: TaskId)
    requires WorldOk(cfg, w) && !d.Schedule? && LeftAlone(d, t) && t in w.sys.tasks && Idles(w.sys.tasks[t].rec.row)
    ensures t in Doing(cfg, quota, w, d).sys.tasks && Doing(cfg, quota, w, d).sys.tasks[t].rec.row == w.sys.tasks[t].rec.row
  {
    hide SysOk, ExecOk, Step, TaskStep, NoJobs, Idles;
    Below(cfg, w.sys);
    IdleUnlocked(cfg, w.sys, t);
    var turn := TurnOf(cfg, quota, w, d);
    if turn.Some? {
      TasksStay(cfg, w.sys, turn.value);
      if turn.value.On? && turn.value.task == t { WorkersWait(cfg, w.sys.tasks[t], turn.value.action, w.sys.nextToken, w.sys.nextTask); }
    }
  }

  lemma IdleUnlocked(cfg: Config, s: Sys, t: TaskId)
    requires SysOk(cfg, s) && t in s.tasks && Idles(s.tasks[t].rec.row)
    ensures s.tasks[t].rec.row.lock.token.None?
  {
    At(cfg, s, t);
  }

  lemma WorkersWait(cfg: Config, ts: TaskSys, a: Action, drawn: Token, next: TaskId)
    requires ts.rec.row.lock.token.None? && Idles(ts.rec.row) && (a.Work? || a.Beat? || a.Die?)
    ensures TaskStep(cfg, ts, a, drawn, next).sys.rec.row == ts.rec.row
  {
    if a.Work? {
      hide TaskStep;
      Fenced(cfg, ts, a, a.token, drawn, next);
    }
  }

  /** So a deferred task, or a failed one waiting for its automatic retry, that nobody acts on stays
      exactly as it is in every later history, as long as no reading of the clock has reached its time. */
  lemma {:induction false} StaysWaiting(cfg: Config, quota: map<string, nat>, deeds: seq<Deed>, later: seq<Deed>, t: TaskId)
    requires t in History(cfg, quota, START, deeds).sys.tasks && NobodyActs(later, t)
    requires var row := History(cfg, quota, START, deeds).sys.tasks[t].rec.row;
             (row.status.Queued? || row.status.Failed?) && row.nextRetryAt.Some? && !TimeCame(deeds + later, row.nextRetryAt.value)
    ensures t in History(cfg, quota, START, deeds + later).sys.tasks
    ensures History(cfg, quota, START, deeds + later).sys.tasks[t].rec.row == History(cfg, quota, START, deeds).sys.tasks[t].rec.row
  {
    hide TimeCame, LeftAlone, Doing, WorldOk, WaitsOk, Step;
    if later == [] { assert deeds + later == deeds; }
    else {
      var n := |later| - 1;
      var row := History(cfg, quota, START, deeds).sys.tasks[t].rec.row;
      var all := deeds + later[..n];
      assert (deeds + later)[..|deeds| + n] == all && (deeds + later)[|deeds| + n] == later[n] && deeds + later == all + [later[n]];
      CameLater(all, later[n], row.nextRetryAt.value);
      StaysWaiting(cfg, quota, deeds, later[..n], t);
      HistoryOk(cfg, quota, all);
      HistoryWaits(cfg, quota, all);
      if later[n].Schedule? { SchedulerWaits(cfg, quota, History(cfg, quota, START, all), later[n], all, t); }
      else { OtherDeeds(cfg, quota, History(cfg, quota, START, all), later[n], t); }
    }
  }

  lemma CameLater(deeds: seq<Deed>, d: Deed, at: int)
    ensures TimeCame(deeds, at) ==> TimeCame(deeds + [d], at)
  {
    if TimeCame(deeds, at) {
      var i :| 0 <= i < |deeds| && deeds[i].Schedule? && at <= deeds[i].inp.now;
      assert (deeds + [d])[i] == deeds[i];
    }
  }
}
