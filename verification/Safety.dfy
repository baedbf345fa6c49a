/** What the invariant buys, over whole runs of the protocol. */
module Safety {
  import opened Models
  import opened Records
  import opened StateMachine
  import opened Worker
  import opened Protocol
  import opened Invariant
  import opened InvariantProof

  predicate ByWorker(a: Action, token: Token) {
    match a
    case Work(k, _) => k == token
    case Beat(k, _, _) => k == token
    case Die(k) => k == token
    case _ => false
  }

  // -- fencing -------------------------------------------------------------------------

  /** A worker whose claim is gone changes no task row, work item, spawn row or event, and
      creates nothing; only step-run rows are beyond the fence. */
  lemma Fenced(cfg: Config, ts: TaskSys, a: Action, token: Token, drawn: Token, next: TaskId)
    requires ByWorker(a, token) && !Current(ts.rec, token)
    ensures var e := TaskStep(cfg, ts, a, drawn, next);
            && e.sys.rec == ts.rec.(runs := e.sys.rec.runs)
            && e.born == [] && e.sys.released == ts.released
  {
    if Enabled(ts, a) && a.Work? {
      hide JobStep;
      FencedProgram(cfg, ts.rec, token, ts.jobs[token], a.inp, next);
    }
  }

  /** finish_step requires the claim token; the rest of the program writes runs, and columns only
      under its token. */
  lemma FencedProgram(cfg: Config, rec: Record, token: Token, pc: PC, inp: Input, next: TaskId)
    requires !Current(rec, token)
    ensures var m := JobStep(cfg, rec, token, pc, inp, next); m.rec == rec.(runs := m.rec.runs) && m.born == []
  {
    if pc.Finishing? {
      hide Boundary, RunHooks, BoundaryItem, Spawns;
    } else {
      hide JobStep;
      ProgramWrites(cfg, rec, token, pc, inp, next);
    }
  }

  /** Exactly where the fence has its gap: a worker whose claim is gone still adds a step run when
      it starts one, and still rewrites the run it knows when it closes it. */
  lemma StaleRuns(cfg: Config, ts: TaskSys, token: Token, inp: Input, drawn: Token, next: TaskId)
    requires Enabled(ts, Work(token, inp)) && !Current(ts.rec, token)
    ensures var pc := ts.jobs[token];
            TaskStep(cfg, ts, Work(token, inp), drawn, next).sys.rec.runs != ts.rec.runs <==>
              pc.Cleared? || (pc.Closing? && pc.run < |ts.rec.runs| && ts.rec.runs[pc.run].status != pc.status)
  {
    var pc := ts.jobs[token];
    if pc.Finishing? {
      hide Boundary, RunHooks, BoundaryItem, Spawns;
    } else if pc.Cleared? {
      assert |StartRun(ts.rec, pc.snap.step).runs| == |ts.rec.runs| + 1;
    } else if pc.Closing? && pc.run < |ts.rec.runs| {
      var runs := ts.rec.runs;
      assert CloseRun(runs, pc.run, pc.status)[pc.run].status == pc.status;
      if runs[pc.run].status == pc.status { assert runs[pc.run := runs[pc.run].(status := pc.status)] == runs; }
    } else {
      hide Finish;
    }
  }

  /** A lost token stays lost. */
  lemma LostStep(cfg: Config, s: Sys, m: Turn, t: TaskId, token: Token)
    requires SysOk(cfg, s) && t in s.tasks && token < s.nextToken && !Current(s.tasks[t].rec, token)
    ensures SysOk(cfg, Step(cfg, s, m))
    ensures t in Step(cfg, s, m).tasks && !Current(Step(cfg, s, m).tasks[t].rec, token) && token < Step(cfg, s, m).nextToken
  {
    StepKeeps(cfg, s, m);
    TasksStay(cfg, s, m);
    if m.On? && m.task == t && Enabled(s.tasks[t], m.action) {
      ActSound(cfg, s.tasks[t], m.action, s.nextToken, s.nextTask);
    }
  }

  /** A step rewrites at most the task it is about; every other task keeps its rows, and no
      task disappears. */
  lemma TasksStay(cfg: Config, s: Sys, m: Turn)
    requires forall t :: t in s.tasks ==> t < s.nextTask
    ensures forall t :: t in s.tasks ==> t in Step(cfg, s, m).tasks
    ensures forall t :: t in s.tasks ==> Step(cfg, s, m).tasks[t] == After1(cfg, s, m, t)
    ensures Step(cfg, s, m).nextToken >= s.nextToken && Step(cfg, s, m).nextTask >= s.nextTask
  {
    if m.On? && m.task in s.tasks {
      var e := TaskStep(cfg, s.tasks[m.task], m.action, s.nextToken, s.nextTask);
      InsertApart(s.tasks[m.task := e.sys], m.task, e.born, s.nextTask);
    }
  }

  function After1(cfg: Config, s: Sys, m: Turn, t: TaskId): TaskSys
    requires t in s.tasks
  {
    if m.Crash? then Orphaned(s.tasks[t])
    else if m.On? && m.task == t then TaskStep(cfg, s.tasks[t], m.action, s.nextToken, s.nextTask).sys
    else s.tasks[t]
  }

  lemma {:induction false} InsertApart(tasks: map<TaskId, TaskSys>, parent: TaskId, born: seq<Child>, next: TaskId)
    requires forall t :: t in tasks ==> t < next
    ensures var r := Insert(tasks, parent, born, next);
            && (forall t :: t in tasks ==> t in r && r[t] == tasks[t])
            && (forall t :: t in r && t !in tasks ==> next <= t < next + |born| && r[t].rec.row.parent == Some(parent))
            && (forall t :: next <= t < next + |born| ==> t in r)
  {
    if born != [] { InsertApart(tasks, parent, born[..|born| - 1], next); }
  }

  /** Once a claim is lost, then after any further run its worker still changes nothing. */
  lemma {:induction false} FencedForever(cfg: Config, s: Sys, moves: seq<Turn>, t: TaskId, token: Token, a: Action)
    requires SysOk(cfg, s) && t in s.tasks && token < s.nextToken && !Current(s.tasks[t].rec, token)
    requires ByWorker(a, token)
    ensures var s1 := Play(cfg, s, moves);
            && SysOk(cfg, s1) && t in s1.tasks && !Current(s1.tasks[t].rec, token) && token < s1.nextToken
            && var e := TaskStep(cfg, s1.tasks[t], a, s1.nextToken, s1.nextTask);
               e.sys.rec == s1.tasks[t].rec.(runs := e.sys.rec.runs) && e.born == []
  {
    if moves != [] {
      var n := |moves| - 1;
      FencedForever(cfg, s, moves[..n], t, token, a);
      var s1 := Play(cfg, s, moves[..n]);
      LostStep(cfg, s1, moves[n], t, token);
    }
    var s1 := Play(cfg, s, moves);
    Fenced(cfg, s1.tasks[t], a, token, s1.nextToken, s1.nextTask);
  }

  /** In every interleaving a claim token is released by at most one transition, and the
      transition that releases it really was made under it. */
  lemma {:induction false} ReleasedOnce(cfg: Config, moves: seq<Turn>, t: TaskId)
    requires t in Play(cfg, EMPTY, moves).tasks
    ensures var ts := Play(cfg, EMPTY, moves).tasks[t];
            && (forall i, j :: 0 <= i < j < |ts.released| ==> ts.released[i] != ts.released[j])
            && (forall i :: 0 <= i < |ts.released| ==> !Current(ts.rec, ts.released[i]))
  {
    ReachableTask(cfg, moves, t);
  }

  // -- work items ------------------------------------------------------------------------

  lemma ItemsMeaning(rec: Record)
    requires ItemsOk(rec)
    ensures rec.row.status.AwaitingExternal? <==> exists i :: 0 <= i < |rec.items| && Waiting(rec.items[i].status)
    ensures forall i, j :: 0 <= i < |rec.items| && 0 <= j < |rec.items| && Active(rec.items[i].status) && Active(rec.items[j].status) ==> i == j
    ensures forall i :: 0 <= i < |rec.items| && Active(rec.items[i].status) ==> rec.items[i].step == rec.row.step && !Terminal(rec.row.status)
  {
    if rec.items != [] && Waiting(rec.items[|rec.items| - 1].status) {
      assert exists i :: 0 <= i < |rec.items| && Waiting(rec.items[i].status);
    }
    forall i | 0 <= i < |rec.items| && Active(rec.items[i].status) ensures i == |rec.items| - 1 {}
  }

  /** A task awaits external work exactly when it has an open or claimed item; it has at most
      one active item, on its current step; a finished task has none. */
  lemma {:induction false} ItemsAgree(cfg: Config, moves: seq<Turn>, t: TaskId)
    requires t in Play(cfg, EMPTY, moves).tasks
    ensures var rec := Play(cfg, EMPTY, moves).tasks[t].rec;
            && (rec.row.status.AwaitingExternal? <==> exists i :: 0 <= i < |rec.items| && Waiting(rec.items[i].status))
            && (forall i, j :: 0 <= i < |rec.items| && 0 <= j < |rec.items| && Active(rec.items[i].status) && Active(rec.items[j].status) ==> i == j)
            && (forall i :: 0 <= i < |rec.items| && Active(rec.items[i].status) ==> rec.items[i].step == rec.row.step && !Terminal(rec.row.status))
  {
    ReachableTask(cfg, moves, t);
    ItemsMeaning(Play(cfg, EMPTY, moves).tasks[t].rec);
  }

  lemma {:induction false} ReachableTask(cfg: Config, moves: seq<Turn>, t: TaskId)
    requires t in Play(cfg, EMPTY, moves).tasks
    ensures TaskOk(cfg, Play(cfg, EMPTY, moves).tasks[t], Play(cfg, EMPTY, moves).nextToken)
  {
    Reachable(cfg, moves);
  }

  /** No boundary of any worker ever runs into the one-active-item index, or finds that the
      item it judged is no longer submitted. */
  lemma {:induction false} NoItemConflict(cfg: Config, moves: seq<Turn>, t: TaskId, token: Token, read: Task, seen: bool, now: int)
    requires t in Play(cfg, EMPTY, moves).tasks
    requires var ts := Play(cfg, EMPTY, moves).tasks[t]; token in ts.jobs && ts.jobs[token].Finishing? && read in ts.past
    ensures var s := Play(cfg, EMPTY, moves);
            var ts := s.tasks[t];
            FinishRound(Steps(cfg, ts.rec.row.workflow), ts.rec, token, read, ts.jobs[token].outcome, seen, now, s.nextTask) != Tried(Raised)
  {
    ReachableTask(cfg, moves, t);
    var s := Play(cfg, EMPTY, moves);
    var ts := s.tasks[t];
    assert JobOk(cfg, ts, token, ts.jobs[token]);
    assert VersionOk(ts.rec.row, read, s.nextToken);
    FinishKeeps(cfg, ts.rec, token, read, ts.jobs[token].outcome, seen, now, s.nextToken, s.nextTask);
  }

  /** A worker that holds the task never finds another step's item, nor an item to wait on
      again: it finds a submission, or nothing. */
  lemma {:induction false} SeekBranches(cfg: Config, moves: seq<Turn>, t: TaskId, token: Token)
    requires t in Play(cfg, EMPTY, moves).tasks
    requires var ts := Play(cfg, EMPTY, moves).tasks[t];
             token in ts.jobs && ts.jobs[token].Admitted? && Current(ts.rec, token) && External(cfg, ts.rec.row.step)
    ensures var ts := Play(cfg, EMPTY, moves).tasks[t];
            var pc := Seek(cfg, ts.rec, ts.jobs[token].snap, ts.jobs[token].attempt);
            if NothingActive(ts.rec) then pc.Opening? || MaxAttempts(cfg, ts.rec.row.step) < 1
            else pc.Ready? && pc.found.Some? && Judging(ts.rec, pc.found.value.id)
  {
    ReachableTask(cfg, moves, t);
    var s := Play(cfg, EMPTY, moves);
    var ts := s.tasks[t];
    assert JobOk(cfg, ts, token, ts.jobs[token]);
    assert VersionOk(ts.rec.row, ts.jobs[token].snap, s.nextToken);
  }

  /** Items of a step count attempts 1, 2, ... by rejection and never beyond the step's limit;
      only the last attempt is exhausted. A later attempt carries the error of the one before. */
  lemma {:induction false} AttemptsCount(cfg: Config, moves: seq<Turn>, t: TaskId, j: nat)
    requires t in Play(cfg, EMPTY, moves).tasks && j < |Play(cfg, EMPTY, moves).tasks[t].rec.items|
    ensures var items := Play(cfg, EMPTY, moves).tasks[t].rec.items;
            var it := items[j];
            var before := LatestFor(items[..j], it.step);
            && it.step in cfg.registry && 1 <= it.attempt <= cfg.registry[it.step].maxAttempts
            && (it.attempt > 1 <==> before.Some? && items[before.value].status.Rejected?)
            && (it.attempt > 1 ==> items[before.value].attempt == it.attempt - 1)
            && (before.Some? && !items[before.value].status.Rejected? ==> it.attempt == 1)
            && (it.previousError.Some? <==> it.attempt > 1)
            && (it.attempt > 1 ==> it.previousError == items[before.value].error)
            && (it.status.Rejected? ==> it.attempt < cfg.registry[it.step].maxAttempts)
            && (it.status.Exhausted? ==> it.attempt == cfg.registry[it.step].maxAttempts)
  {
    ReachableTask(cfg, moves, t);
    var ts := Play(cfg, EMPTY, moves).tasks[t];
    assert AttemptOk(cfg, ts.rec.items, j);
    var before := LatestFor(ts.rec.items[..j], ts.rec.items[j].step);
    if before.Some? { assert AttemptOk(cfg, ts.rec.items, before.value); }
  }

  /** A rejection that commits closes the item it judged, exhausted exactly on the last attempt;
      an exhausted item leaves its task for a person (or terminated) in the same transition, any
      other rejected item leaves it runnable, paused or terminated. */
  lemma {:induction false} RejectionEnds(cfg: Config, moves: seq<Turn>, t: TaskId, token: Token, read: Task, seen: bool, now: int)
    requires t in Play(cfg, EMPTY, moves).tasks
    requires var ts := Play(cfg, EMPTY, moves).tasks[t];
             token in ts.jobs && ts.jobs[token].Finishing? && ts.jobs[token].outcome.Rejection? && read in ts.past
    ensures var s := Play(cfg, EMPTY, moves);
            var ts := s.tasks[t];
            var o := ts.jobs[token].outcome;
            var r := FinishRound(Steps(cfg, ts.rec.row.workflow), ts.rec, token, read, o, seen, now, s.nextTask);
            r.Tried? && r.tx.Committed? ==> o.item < |ts.rec.items| && Rejected1(cfg, ts.rec, r.tx.rec, o.item)
  {
    hide Rejected1, AttemptOk, Play, Steps;
    ReachableTask(cfg, moves, t);
    var s := Play(cfg, EMPTY, moves);
    var ts := s.tasks[t];
    var o := ts.jobs[token].outcome;
    assert JobOk(cfg, ts, token, ts.jobs[token]);
    if Current(ts.rec, token) {
      assert AttemptOk(cfg, ts.rec.items, o.item);
      RejectionCommits(cfg, ts.rec, token, read, o, seen, now, s.nextTask);
    }
  }

  predicate Rejected1(cfg: Config, rec: Record, rec': Record, i: ItemId)
    requires i < |rec.items|
  {
    && |rec'.items| == |rec.items|
    && var it, it' := rec.items[i], rec'.items[i];
       var s := rec'.row.status;
       && it.status.Submitted?
       && (it'.status.Exhausted? <==> it.attempt == MaxAttempts(cfg, it.step))
       && (if it'.status.Exhausted? then s.ManualRequired? || s.Terminated?
           else it'.status.Rejected? && (s.Queued? || s.Paused? || s.Terminated?))
  }

  lemma RejectionCommits(cfg: Config, rec: Record, token: Token, read: Task, o: Outcome, seen: bool, now: int, next: TaskId)
    requires o.Rejection? && Current(rec, token) && ItemOutcomeOk(cfg, rec, o) && AttemptOk(cfg, rec.items, o.item)
    ensures var r := FinishRound(Steps(cfg, rec.row.workflow), rec, token, read, o, seen, now, next);
            r.Tried? && r.tx.Committed? ==> Rejected1(cfg, rec, r.tx.rec, o.item)
  {
    hide BoundaryRequire, NextAttempt;
  }
}
