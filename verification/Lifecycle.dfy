/** Pause, terminate and opting out of retries, over whole runs. */
module Lifecycle {
  import opened Models
  import opened Records
  import opened StateMachine
  import opened Worker
  import opened Protocol
  import opened Invariant
  import opened InvariantProof
  import opened Safety

  /** In every reachable state: the pause flag is set exactly in pause_pending, a terminate
      request is pending only while a worker runs, all four lock columns are null outside
      execution and a claim token is held inside it. */
  lemma {:induction false} FlagsAgree(cfg: Config, moves: seq<Turn>, t: TaskId)
    requires t in Play(cfg, EMPTY, moves).tasks
    ensures var row := Play(cfg, EMPTY, moves).tasks[t].rec.row;
            && (row.pauseRequested <==> row.status.PausePending?)
            && (row.terminateRequested ==> Executing(row.status))
            && (if Executing(row.status) then row.lock.token.Some? else row.lock == UNLOCKED)
  {
    ReachableTask(cfg, moves, t);
  }

  // -- terminate wins ----------------------------------------------------------------------

  /** Terminated, or executing under a terminate request. */
  predicate Doomed(row: Task) {
    row.status.Terminated? || (Executing(row.status) && row.terminateRequested)
  }

  /** Same step, no further child, and the claim released only into `terminated`. */
  predicate EndsOnly(ts: TaskSys, rec': Record) {
    && Doomed(rec'.row) && rec'.row.step == ts.rec.row.step && rec'.spawns == ts.rec.spawns
    && (rec'.row.lock.token != ts.rec.row.lock.token ==> rec'.row.lock.token.None? && rec'.row.status.Terminated?)
  }

  /** Under a terminate request every boundary terminates. */
  lemma DoomedBoundary(cfg: Config, rec: Record, token: Token, read: Task, o: Outcome, seen: bool, now: int, next: TaskId)
    requires RecordOk(cfg, rec) && Doomed(rec.row)
    ensures var r := FinishRound(Steps(cfg, rec.row.workflow), rec, token, read, o, seen, now, next);
            r.Tried? && r.tx.Committed? ==>
              && r.tx.rec.row.status.Terminated? && r.tx.rec.row.step == rec.row.step && r.tx.rec.row.lock == UNLOCKED
              && r.tx.rec.spawns == rec.spawns && r.tx.born == []
  {
  }

  lemma DoomedWorker(cfg: Config, ts: TaskSys, token: Token, inp: Input, drawn: Token, next: TaskId)
    requires RecordOk(cfg, ts.rec) && Enabled(ts, Work(token, inp)) && Doomed(ts.rec.row)
    ensures var e := Act(cfg, ts, Work(token, inp), drawn, next); EndsOnly(ts, e.rec) && e.born == []
  {
    var pc := ts.jobs[token];
    if pc.Finishing? {
      DoomedBoundary(cfg, ts.rec, token, inp.row, pc.outcome, inp.seenDegraded, inp.now, next);
    } else {
      ProgramWrites(cfg, ts.rec, token, pc, inp, next);
    }
  }

  lemma DoomedUser(cfg: Config, rec: Record, snap: Task, req: Request, next: TaskId)
    requires RecordOk(cfg, rec) && Doomed(rec.row)
    ensures var rec' := After(rec, UserRound(Steps(cfg, rec.row.workflow), rec, snap, req, next));
            Doomed(rec'.row) && rec'.row.step == rec.row.step && rec'.spawns == rec.spawns && rec'.row.lock == rec.row.lock
  {
    var steps := Steps(cfg, rec.row.workflow);
    if !req.Submit? && UserRound(steps, rec, snap, req, next).Committed? {
      UserDoes(steps, rec, snap, req, next);
      UserRow(cfg, rec.row, snap, req, None);
    }
  }

  lemma DoomedStep(cfg: Config, ts: TaskSys, a: Action, drawn: Token, next: TaskId)
    requires TaskOk(cfg, ts, drawn) && Doomed(ts.rec.row)
    ensures var e := TaskStep(cfg, ts, a, drawn, next); EndsOnly(ts, e.sys.rec) && e.born == []
  {
    if Enabled(ts, a) {
      hide RecordOk, PastOk, ReleasedOk, JobsOk;
      if a.Work? { DoomedWorker(cfg, ts, a.token, a.inp, drawn, next); }
      else if a.User? { DoomedUser(cfg, ts.rec, a.snap, a.req, next); }
      else { DoomedOther(cfg, ts, a, drawn, next); }
    }
  }

  lemma DoomedOther(cfg: Config, ts: TaskSys, a: Action, drawn: Token, next: TaskId)
    requires RecordOk(cfg, ts.rec) && Enabled(ts, a) && Doomed(ts.rec.row) && !a.Work? && !a.User?
    ensures var e := Act(cfg, ts, a, drawn, next); EndsOnly(ts, e.rec) && e.born == []
  {
    hide AttemptsOk, ItemsOk, GrantOk;
  }

  /** After a terminate request on an executing task, whatever happens next: its step never
      changes, it is never claimed again, it spawns nothing, and its claim is released only
      into `terminated`, where it stays. */
  lemma {:induction false} TerminateWins(cfg: Config, s: Sys, moves: seq<Turn>, t: TaskId)
    requires SysOk(cfg, s) && t in s.tasks && Doomed(s.tasks[t].rec.row)
    ensures var s1 := Play(cfg, s, moves);
            && SysOk(cfg, s1) && t in s1.tasks
            && EndsOnly(s.tasks[t], s1.tasks[t].rec)
  {
    hide Step, Executing;
    if moves != [] {
      var n := |moves| - 1;
      TerminateWins(cfg, s, moves[..n], t);
      var s1 := Play(cfg, s, moves[..n]);
      StepKeeps(cfg, s1, moves[n]);
      TasksStay(cfg, s1, moves[n]);
      if moves[n].On? && moves[n].task == t {
        DoomedStep(cfg, s1.tasks[t], moves[n].action, s1.nextToken, s1.nextTask);
      }
    }
  }

  // -- what waits for a person ---------------------------------------------------------------

  /** A parked task leaves only by a user's retry or resume. */
  predicate Parked(row: Task) {
    row.status.ManualRequired? || row.status.Paused? || Terminal(row.status)
  }

  predicate Unparks(a: Action) {
    a.User? && (a.req.Retry? || a.req.Resume?)
  }

  lemma ParkedUser(cfg: Config, rec: Record, snap: Task, req: Request, next: TaskId)
    requires RecordOk(cfg, rec) && Parked(rec.row)
    ensures var rec' := After(rec, UserRound(Steps(cfg, rec.row.workflow), rec, snap, req, next));
            && rec'.row.lock == rec.row.lock
            && (!req.Retry? && !req.Resume? ==> Parked(rec'.row))
            && (Terminal(rec.row.status) ==> rec'.row.status == rec.row.status && rec'.row.step == rec.row.step)
  {
    var steps := Steps(cfg, rec.row.workflow);
    if !req.Submit? && UserRound(steps, rec, snap, req, next).Committed? {
      UserDoes(steps, rec, snap, req, next);
      UserRow(cfg, rec.row, snap, req, None);
    }
  }

  lemma ParkedStep(cfg: Config, ts: TaskSys, a: Action, drawn: Token, next: TaskId)
    requires TaskOk(cfg, ts, drawn) && Parked(ts.rec.row)
    ensures var ts' := TaskStep(cfg, ts, a, drawn, next).sys;
            && ts'.jobs.Keys <= ts.jobs.Keys && ts'.rec.row.lock == UNLOCKED
            && (!Unparks(a) ==> Parked(ts'.rec.row))
            && (Terminal(ts.rec.row.status) ==> ts'.rec.row.status == ts.rec.row.status && ts'.rec.row.step == ts.rec.row.step)
  {
    if Enabled(ts, a) {
      if a.Work? {
        hide RowOk, JobStep;
        ParkedUnlocked(cfg, ts, drawn);
        Fenced(cfg, ts, a, a.token, drawn, next);
      } else if a.User? {
        hide PastOk, ReleasedOk, JobsOk, RecordOk, UserRound;
        ParkedUser(cfg, ts.rec, a.snap, a.req, next);
      } else {
        hide PastOk, ReleasedOk, JobsOk, RecordOk;
        ParkedOther(cfg, ts, a, drawn, next);
      }
    }
  }

  lemma ParkedUnlocked(cfg: Config, ts: TaskSys, drawn: Token)
    requires TaskOk(cfg, ts, drawn) && Parked(ts.rec.row)
    ensures ts.rec.row.lock == UNLOCKED
  {
  }

  lemma ParkedOther(cfg: Config, ts: TaskSys, a: Action, drawn: Token, next: TaskId)
    requires RecordOk(cfg, ts.rec) && Enabled(ts, a) && Parked(ts.rec.row) && !a.Work? && !a.User?
    ensures var e := Act(cfg, ts, a, drawn, next);
            && e.jobs.Keys <= ts.jobs.Keys && e.rec.row.lock == UNLOCKED && Parked(e.rec.row)
            && (Terminal(ts.rec.row.status) ==> e.rec.row.status == ts.rec.row.status && e.rec.row.step == ts.rec.row.step)
  {
    hide AttemptsOk, ItemsOk, GrantOk;
  }

  /** The claim of a step that opted out of retries (or that nobody can answer for) ends in a
      failure of its worker, or by a settler after a crash or a heartbeat timeout. */
  predicate EndsBadly(cfg: Config, ts: TaskSys, a: Action, ts': TaskSys) {
    && ts.rec.row.lock.token.Some? && ts'.rec.row.lock.token.None?
    && match a
       case Settle(_, _, _) => !(ts.rec.row.step in cfg.registry && cfg.registry[ts.rec.row.step].retry)
       case Work(token, _) =>
         ts.rec.row.step in cfg.registry && !cfg.registry[ts.rec.row.step].retry && token in ts.jobs && ts.jobs[token].Finishing? && ts.jobs[token].outcome.Failure?
       case _ => false
  }

  lemma SettleParks(cfg: Config, rec: Record, snap: Task, checkAlive: bool, reason: string, next: TaskId, bound: Token)
    requires RecordOk(cfg, rec) && VersionOk(rec.row, snap, bound) && NoRetry(cfg, rec.row.step)
    ensures var tx := SettleRound(rec, snap, NoRetry(cfg, snap.step), checkAlive, reason, next);
            tx.Committed? ==> Parked(tx.rec.row)
  {
  }

  lemma FailureParks(cfg: Config, rec: Record, token: Token, read: Task, o: Outcome, seen: bool, now: int, next: TaskId)
    requires RecordOk(cfg, rec) && o.Failure? && (Current(rec, token) ==> o.noRetry)
    ensures var r := FinishRound(Steps(cfg, rec.row.workflow), rec, token, read, o, seen, now, next);
            r.Tried? && r.tx.Committed? ==> Parked(r.tx.rec.row)
  {
  }

  lemma BadEndingParks(cfg: Config, ts: TaskSys, a: Action, drawn: Token, next: TaskId)
    requires TaskOk(cfg, ts, drawn)
    requires EndsBadly(cfg, ts, a, TaskStep(cfg, ts, a, drawn, next).sys)
    ensures Parked(TaskStep(cfg, ts, a, drawn, next).sys.rec.row)
  {
    match a
    case Settle(snap, checkAlive, reason) =>
      assert VersionOk(ts.rec.row, snap, drawn);
      SettleParks(cfg, ts.rec, snap, checkAlive, reason, next, drawn);
    case Work(token, inp) =>
      assert JobOk(cfg, ts, token, ts.jobs[token]);
      FailureParks(cfg, ts.rec, token, inp.row, ts.jobs[token].outcome, inp.seenDegraded, inp.now, next);
    case _ =>
  }

  predicate NobodyUnparks(moves: seq<Turn>, t: TaskId) {
    forall i :: 0 <= i < |moves| && moves[i].On? && moves[i].task == t ==> !Unparks(moves[i].action)
  }

  /** One turn of the system, seen from a parked task. */
  predicate ParkedAfter(s: Sys, s': Sys, m: Turn, t: TaskId)
    requires t in s.tasks
  {
    t in s'.tasks
    && var ts, ts' := s.tasks[t], s'.tasks[t];
       && ts'.jobs.Keys <= ts.jobs.Keys && ts'.rec.row.lock.token.None?
       && (!(m.On? && m.task == t && Unparks(m.action)) ==> Parked(ts'.rec.row))
       && (Terminal(ts.rec.row.status) ==> Terminal(ts'.rec.row.status) && Parked(ts'.rec.row)
                                           && ts'.rec.row.status == ts.rec.row.status && ts'.rec.row.step == ts.rec.row.step)
  }

  lemma ParkedTurn(cfg: Config, s: Sys, m: Turn, t: TaskId)
    requires SysOk(cfg, s) && t in s.tasks && Parked(s.tasks[t].rec.row)
    ensures SysOk(cfg, Step(cfg, s, m)) && ParkedAfter(s, Step(cfg, s, m), m, t)
  {
    StepKeeps(cfg, s, m);
    At(cfg, s, t);
    Below(cfg, s);
    ParkedCore(cfg, s, m, t);
  }

  lemma ParkedCore(cfg: Config, s: Sys, m: Turn, t: TaskId)
    requires t in s.tasks && TaskOk(cfg, s.tasks[t], s.nextToken) && Parked(s.tasks[t].rec.row) && (forall u :: u in s.tasks ==> u < s.nextTask)
    ensures ParkedAfter(s, Step(cfg, s, m), m, t)
  {
    TasksStay(cfg, s, m);
    ParkedUnlocked(cfg, s.tasks[t], s.nextToken);
    hide TaskOk, TaskStep, Step;
    if m.On? && m.task == t { ParkedStep(cfg, s.tasks[t], m.action, s.nextToken, s.nextTask); }
  }

  lemma {:induction false} StaysParked(cfg: Config, s: Sys, moves: seq<Turn>, t: TaskId)
    requires SysOk(cfg, s) && t in s.tasks && Parked(s.tasks[t].rec.row) && NobodyUnparks(moves, t)
    ensures var s1 := Play(cfg, s, moves);
            && SysOk(cfg, s1) && t in s1.tasks && Parked(s1.tasks[t].rec.row)
            && s1.tasks[t].jobs.Keys <= s.tasks[t].jobs.Keys && s1.tasks[t].rec.row.lock.token.None?
            && (Terminal(s.tasks[t].rec.row.status) ==>
                  s1.tasks[t].rec.row.status == s.tasks[t].rec.row.status && s1.tasks[t].rec.row.step == s.tasks[t].rec.row.step)
  {
    if moves != [] {
      hide Step, SysOk, Terminal, Parked;
      var n := |moves| - 1;
      StaysParked(cfg, s, moves[..n], t);
      var s1 := Play(cfg, s, moves[..n]);
      ParkedTurn(cfg, s1, moves[n], t);
    }
  }

  /** After a run of a `retry = False` step failed or was interrupted, the task is not claimed
      again (no new worker ever starts on it) until a user's retry or resume, whatever its
      retry budget, the pauses requested, and everything else that happens meanwhile. */
  lemma {:induction false} NotRetriedUnasked(cfg: Config, s: Sys, t: TaskId, a: Action, moves: seq<Turn>)
    requires SysOk(cfg, s) && t in s.tasks && NobodyUnparks(moves, t)
    requires EndsBadly(cfg, s.tasks[t], a, TaskStep(cfg, s.tasks[t], a, s.nextToken, s.nextTask).sys)
    ensures var s1 := Step(cfg, s, On(t, a));
            var s2 := Play(cfg, s1, moves);
            && t in s1.tasks && t in s2.tasks
            && Parked(s2.tasks[t].rec.row) && s2.tasks[t].jobs.Keys <= s1.tasks[t].jobs.Keys
            && s2.tasks[t].rec.row.lock.token.None?
  {
    StepKeeps(cfg, s, On(t, a));
    TasksStay(cfg, s, On(t, a));
    BadEndingParks(cfg, s.tasks[t], a, s.nextToken, s.nextTask);
    StaysParked(cfg, Step(cfg, s, On(t, a)), moves, t);
  }

  /** A finished task keeps its status and step for ever, whatever anyone does. */
  lemma {:induction false} FinishedForever(cfg: Config, s: Sys, moves: seq<Turn>, t: TaskId)
    requires SysOk(cfg, s) && t in s.tasks && Terminal(s.tasks[t].rec.row.status)
    ensures var s1 := Play(cfg, s, moves);
            && SysOk(cfg, s1) && t in s1.tasks
            && s1.tasks[t].rec.row.status == s.tasks[t].rec.row.status && s1.tasks[t].rec.row.step == s.tasks[t].rec.row.step
            && s1.tasks[t].jobs.Keys <= s.tasks[t].jobs.Keys
  {
    if moves != [] {
      hide Step, SysOk, Terminal, Parked;
      var n := |moves| - 1;
      FinishedForever(cfg, s, moves[..n], t);
      var s1 := Play(cfg, s, moves[..n]);
      ParkedTurn(cfg, s1, moves[n], t);
    }
  }
}
