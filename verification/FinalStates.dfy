/** How finished workflows end, over whole histories: by a worker's boundary or by a skipped last
    step, from answers of has_degraded read some time before the write. */
module FinalStates {
  import opened Models
  import opened Records
  import opened StateMachine
  import opened Worker
  import opened Protocol
  import opened Invariant
  import opened InvariantProof
  import opened Safety
  import opened Lifecycle
  import opened Executor
  import opened ExecutorProof
  import opened Runs

  predicate Ran(s: Status) {
    s.Completed? || s.PartiallyCompleted?
  }

  /** A finished task is partially completed exactly if some step's latest run is degraded. */
  predicate FinalOk(rec: Record) {
    Ran(rec.row.status) ==> (rec.row.status.PartiallyCompleted? <==> HasDegraded(rec.runs))
  }

  predicate AllFinal(s: Sys) {
    forall t {:trigger t in s.tasks} :: t in s.tasks ==> FinalOk(s.tasks[t].rec)
  }

  // -- one action ----------------------------------------------------------------------------------------

  /** Interrupting open runs makes nobody degraded, or less so. */
  lemma InterruptedSame(runs: seq<Run>)
    ensures HasDegraded(CloseRuns(runs)) <==> HasDegraded(runs)
  {
    var runs' := CloseRuns(runs);
    forall i | 0 <= i < |runs| ensures LastOfStep(runs, i) <==> LastOfStep(runs', i) {}
    if HasDegraded(runs) {
      var i :| 0 <= i < |runs| && runs[i].status.RunDegraded? && LastOfStep(runs, i);
      assert runs'[i].status.RunDegraded? && LastOfStep(runs', i);
    }
    if HasDegraded(runs') {
      var i :| 0 <= i < |runs'| && runs'[i].status.RunDegraded? && LastOfStep(runs', i);
      assert runs[i].status.RunDegraded? && LastOfStep(runs, i);
    }
  }

  /** Nobody but a worker and the skipping scheduler finishes a workflow. */
  lemma NotFinished(cfg: Config, ts: TaskSys, a: Action, drawn: Token, next: TaskId)
    requires Enabled(ts, a) && !a.Work? && !a.Skip?
    ensures var rec' := Act(cfg, ts, a, drawn, next).rec; Ran(rec'.row.status) ==> rec'.row.status == ts.rec.row.status
    ensures var rec' := Act(cfg, ts, a, drawn, next).rec; HasDegraded(rec'.runs) <==> HasDegraded(ts.rec.runs)
  {
    OtherRuns(cfg, ts, a, drawn, next);
    if a.CloseOpenRuns? { InterruptedSame(ts.rec.runs); }
    hide HasDegraded;
    if a.User? { UserEnds(Steps(cfg, ts.rec.row.workflow), ts.rec, a.snap, a.req, next); hide UserRound, After; }
    else { NotFinishedCore(cfg, ts, a, drawn, next); }
  }

  lemma NotFinishedCore(cfg: Config, ts: TaskSys, a: Action, drawn: Token, next: TaskId)
    requires Enabled(ts, a) && !a.Work? && !a.Skip? && !a.User?
    ensures var rec' := Act(cfg, ts, a, drawn, next).rec; Ran(rec'.row.status) ==> rec'.row.status == ts.rec.row.status
  {
  }

  lemma UserEnds(steps: seq<string>, rec: Record, snap: Task, req: Request, next: TaskId)
    ensures var rec' := After(rec, UserRound(steps, rec, snap, req, next)); Ran(rec'.row.status) ==> rec'.row.status == rec.row.status
  {
  }

  lemma SkipEnds(steps: seq<string>, rec: Record, snap: Task, seen: bool, next: TaskId)
    requires FinalOk(rec) && (snap.status.Queued? ==> seen == HasDegraded(rec.runs))
    ensures FinalOk(SkipRound(steps, rec, snap, seen, next))
  {
    SkipRuns(steps, rec, snap, seen, next);
    hide HasDegraded;
  }

  lemma WorkEnds(cfg: Config, rec: Record, k: Token, pc: PC, inp: Input, next: TaskId)
    requires FinalOk(rec) && (Live(pc) ==> Holder(rec.row, k) && JobRunsOk(cfg, rec, pc))
    requires pc.Finishing? ==> inp.seenDegraded == HasDegraded(rec.runs)
    ensures FinalOk(JobStep(cfg, rec, k, pc, inp, next).rec)
  {
    hide HasDegraded;
    if pc.Finishing? {
      FinalBoundary(cfg, rec, k, pc, inp, next);
      hide JobStep;
    } else if pc.Ended? {
    } else {
      ProgramWrites(cfg, rec, k, pc, inp, next);
      hide JobStep;
    }
  }

  // -- one deed --------------------------------------------------------------------------------------------

  /** What has_degraded answered is what it would answer now. */
  predicate TrueOf(ts: TaskSys, a: Action) {
    match a
    case Work(k, inp) => k in ts.jobs && ts.jobs[k].Finishing? ==> inp.seenDegraded == HasDegraded(ts.rec.runs)
    case Skip(snap, seen) => snap.status.Queued? ==> seen == HasDegraded(ts.rec.runs)
    case _ => true
  }

  predicate TrueNow(cfg: Config, quota: map<string, nat>, w: World, d: Deed) {
    var turn := TurnOf(cfg, quota, w, d);
    turn.Some? && turn.value.On? && turn.value.task in w.sys.tasks ==> TrueOf(w.sys.tasks[turn.value.task], turn.value.action)
  }

  lemma FinalAction(cfg: Config, ts: TaskSys, a: Action, drawn: Token, next: TaskId)
    requires FinalOk(ts.rec) && TrueOf(ts, a)
    requires forall k {:trigger ts.jobs[k]} :: k in ts.jobs && Live(ts.jobs[k]) ==> Holder(ts.rec.row, k) && JobRunsOk(cfg, ts.rec, ts.jobs[k])
    ensures FinalOk(TaskStep(cfg, ts, a, drawn, next).sys.rec)
  {
    hide HasDegraded, JobRunsOk;
    if Enabled(ts, a) {
      if a.Work? { hide JobStep; WorkEnds(cfg, ts.rec, a.token, ts.jobs[a.token], a.inp, next); }
      else if a.Skip? { hide SkipRound; SkipEnds(Steps(cfg, ts.rec.row.workflow), ts.rec, a.snap, a.seenDegraded, next); }
      else { hide Act; NotFinished(cfg, ts, a, drawn, next); }
    }
  }

  lemma LiveHolds(cfg: Config, w: World, t: TaskId)
    requires WorldOk(cfg, w) && WorldRunsOk(cfg, w.sys) && t in w.sys.tasks
    ensures var ts := w.sys.tasks[t];
            forall k {:trigger ts.jobs[k]} :: k in ts.jobs && Live(ts.jobs[k]) ==> Holder(ts.rec.row, k) && JobRunsOk(cfg, ts.rec, ts.jobs[k])
  {
    WorldRows(cfg, w);
    var ts := w.sys.tasks[t];
    assert TaskRunsOk(cfg, ts);
    forall k | k in ts.jobs && Live(ts.jobs[k]) ensures Holder(ts.rec.row, k) { OneLive(w, t, k); }
  }

  lemma FinalDeed(cfg: Config, quota: map<string, nat>, w: World, d: Deed)
    requires WorldOk(cfg, w) && WorldRunsOk(cfg, w.sys) && AllFinal(w.sys) && TrueNow(cfg, quota, w, d)
    ensures AllFinal(Doing(cfg, quota, w, d).sys)
  {
    var turn := TurnOf(cfg, quota, w, d);
    if turn.Some? {
      WorldBelow(cfg, w);
      FinalTurn(cfg, w, turn.value);
      hide *;
    }
  }

  lemma WorldBelow(cfg: Config, w: World)
    requires WorldOk(cfg, w)
    ensures forall u :: u in w.sys.tasks ==> u < w.sys.nextTask
  {
    Below(cfg, w.sys);
  }

  lemma FinalTurn(cfg: Config, w: World, m: Turn)
    requires WorldOk(cfg, w) && WorldRunsOk(cfg, w.sys) && AllFinal(w.sys) && (forall u :: u in w.sys.tasks ==> u < w.sys.nextTask)
    requires m.On? && m.task in w.sys.tasks ==> TrueOf(w.sys.tasks[m.task], m.action)
    ensures AllFinal(Step(cfg, w.sys, m))
  {
    hide WorldOk, WorldRunsOk, TrueOf, FinalOk, TaskStep, Live, JobRunsOk;
    var s' := Step(cfg, w.sys, m);
    TasksStay(cfg, w.sys, m);
    forall t | t in s'.tasks ensures FinalOk(s'.tasks[t].rec) {
      if t !in w.sys.tasks {
        NewRan(cfg, w.sys, m, t);
      } else if m.On? && m.task == t {
        LiveHolds(cfg, w, t);
        FinalAction(cfg, w.sys.tasks[t], m.action, w.sys.nextToken, w.sys.nextTask);
      }
    }
  }

  lemma NewRan(cfg: Config, s: Sys, m: Turn, t: TaskId)
    requires t !in s.tasks && t in Step(cfg, s, m).tasks
    ensures FinalOk(Step(cfg, s, m).tasks[t].rec)
  {
    if m.On? && m.task in s.tasks {
      var e := TaskStep(cfg, s.tasks[m.task], m.action, s.nextToken, s.nextTask);
      hide TaskStep, HasDegraded;
      BornQueued(s.tasks[m.task := e.sys], m.task, e.born, s.nextTask, t);
    }
  }

  lemma {:induction false} BornQueued(tasks: map<TaskId, TaskSys>, parent: TaskId, born: seq<Child>, next: TaskId, t: TaskId)
    requires t !in tasks && t in Insert(tasks, parent, born, next)
    ensures Insert(tasks, parent, born, next)[t].rec.row.status.Queued?
  {
    if t in Insert(tasks, parent, born[..|born| - 1], next) { BornQueued(tasks, parent, born[..|born| - 1], next, t); }
  }

  // -- reads before the write --------------------------------------------------------------------------------

  /** What a reader of the runs of `t` saw after the first `j` deeds. */
  predicate SawAt(cfg: Config, quota: map<string, nat>, deeds: seq<Deed>, j: nat, t: TaskId, answer: bool)
    requires j <= |deeds|
  {
    var s := History(cfg, quota, START, deeds[..j]).sys;
    t in s.tasks && answer == HasDegraded(s.tasks[t].rec.runs)
  }

  /** The worker itself does nothing else between its read and its write. */
  predicate NoLabour(deeds: seq<Deed>, j: nat, i: nat, t: TaskId, k: Token)
    requires j <= i <= |deeds|
  {
    forall l :: j <= l < i ==> !(deeds[l].Labour? && deeds[l].task == t && deeds[l].token == k)
  }

  /** Nor does the scheduler, and no other process takes over. */
  predicate NoScheduling(deeds: seq<Deed>, j: nat, i: nat)
    requires j <= i <= |deeds|
  {
    forall l :: j <= l < i ==> deeds[l].Labour? || deeds[l].Pulse? || deeds[l].Cleanup? || deeds[l].Outside?
  }

  /** What finish_step and skip_step know of degraded runs was true when they read it: finish_step
      reads after its last write that failed, skip_step after it read the row it skips. */
  ghost predicate ReadTrue(cfg: Config, quota: map<string, nat>, deeds: seq<Deed>, i: nat)
    requires i < |deeds|
  {
    var w := History(cfg, quota, START, deeds[..i]);
    match TurnOf(cfg, quota, w, deeds[i])
    case Some(On(t, Work(k, inp))) =>
      t in w.sys.tasks && k in w.sys.tasks[t].jobs && w.sys.tasks[t].jobs[k].Finishing? ==>
        exists j: nat :: j <= i && SawAt(cfg, quota, deeds, j, t, inp.seenDegraded) && NoLabour(deeds, j, i, t, k)
    case Some(On(t, Skip(snap, seen))) =>
      snap.status.Queued? ==>
        exists j0: nat, j: nat :: j0 <= j <= i && RowAt(cfg, quota, deeds, j0, t, snap) && SawAt(cfg, quota, deeds, j, t, seen) && NoScheduling(deeds, j0, i)
    case _ => true
  }

  predicate RowAt(cfg: Config, quota: map<string, nat>, deeds: seq<Deed>, j: nat, t: TaskId, row: Task)
    requires j <= |deeds|
  {
    var s := History(cfg, quota, START, deeds[..j]).sys;
    t in s.tasks && s.tasks[t].rec.row == row
  }

  lemma Before(cfg: Config, quota: map<string, nat>, deeds: seq<Deed>, i: nat)
    requires 0 < i <= |deeds|
    ensures History(cfg, quota, START, deeds[..i]) == Doing(cfg, quota, History(cfg, quota, START, deeds[..i - 1]), deeds[i - 1])
  {
    hide Doing;
    assert deeds[..i][..i - 1] == deeds[..i - 1];
  }

  /** A worker that is past its start now was where it is before anybody else's deed. */
  lemma JobWasThere(cfg: Config, quota: map<string, nat>, w: World, d: Deed, t: TaskId, k: Token)
    requires WorldOk(cfg, w) && !(d.Labour? && d.task == t && d.token == k)
    requires var w' := Doing(cfg, quota, w, d); t in w'.sys.tasks && k in w'.sys.tasks[t].jobs && !w'.sys.tasks[t].jobs[k].Fresh?
    ensures t in w.sys.tasks && k in w.sys.tasks[t].jobs && Doing(cfg, quota, w, d).sys.tasks[t].jobs[k] == w.sys.tasks[t].jobs[k]
  {
    hide WorldOk, TurnOf, LockAfter, Step;
    WorldBelow(cfg, w);
    var turn := TurnOf(cfg, quota, w, d);
    TurnElse(cfg, quota, w, d, t, k);
    if turn.Some? { JobWasThere1(cfg, w.sys, turn.value, t, k); }
  }

  lemma TurnElse(cfg: Config, quota: map<string, nat>, w: World, d: Deed, t: TaskId, k: Token)
    requires !(d.Labour? && d.task == t && d.token == k)
    ensures var turn := TurnOf(cfg, quota, w, d);
            turn.Some? && turn.value.On? && turn.value.task == t && turn.value.action.Work? ==> turn.value.action.token != k
  {
  }

  lemma JobWasThere1(cfg: Config, s: Sys, m: Turn, t: TaskId, k: Token)
    requires forall u :: u in s.tasks ==> u < s.nextTask
    requires !(m.On? && m.task == t && m.action.Work? && m.action.token == k)
    requires t in Step(cfg, s, m).tasks && k in Step(cfg, s, m).tasks[t].jobs && !Step(cfg, s, m).tasks[t].jobs[k].Fresh?
    ensures t in s.tasks && k in s.tasks[t].jobs && Step(cfg, s, m).tasks[t].jobs[k] == s.tasks[t].jobs[k]
  {
    hide TaskStep;
    if t !in s.tasks { NewIdle(cfg, s, m, t); }
    else {
      TasksStay(cfg, s, m);
      if m.On? && m.task == t { JobsElse(cfg, s.tasks[t], m.action, k, s.nextToken, s.nextTask); }
    }
  }

  lemma NewIdle(cfg: Config, s: Sys, m: Turn, t: TaskId)
    requires t !in s.tasks && t in Step(cfg, s, m).tasks
    ensures Step(cfg, s, m).tasks[t].jobs == map[]
  {
    if m.On? && m.task in s.tasks {
      var e := TaskStep(cfg, s.tasks[m.task], m.action, s.nextToken, s.nextTask);
      hide TaskStep;
      BornIdle(s.tasks[m.task := e.sys], m.task, e.born, s.nextTask, t);
    }
  }

  lemma {:induction false} BornIdle(tasks: map<TaskId, TaskSys>, parent: TaskId, born: seq<Child>, next: TaskId, t: TaskId)
    requires t !in tasks && t in Insert(tasks, parent, born, next)
    ensures Insert(tasks, parent, born, next)[t].jobs == map[]
  {
    if t in Insert(tasks, parent, born[..|born| - 1], next) { BornIdle(tasks, parent, born[..|born| - 1], next, t); }
  }

  lemma JobsElse(cfg: Config, ts: TaskSys, a: Action, k: Token, drawn: Token, next: TaskId)
    requires !(a.Work? && a.token == k)
    requires var jobs' := TaskStep(cfg, ts, a, drawn, next).sys.jobs; k in jobs' && !jobs'[k].Fresh?
    ensures k in ts.jobs && TaskStep(cfg, ts, a, drawn, next).sys.jobs[k] == ts.jobs[k]
  {
    hide JobStep, ClaimRound, UserRound, SettleRound, SkipRound, RequeueRound;
  }

  /** So what a worker read of its own runs is true when it writes. */
  lemma {:induction false} OwnRead(cfg: Config, quota: map<string, nat>, deeds: seq<Deed>, j: nat, i: nat, t: TaskId, k: Token)
    requires j <= i <= |deeds| && NoLabour(deeds, j, i, t, k)
    requires var s := History(cfg, quota, START, deeds[..i]).sys; t in s.tasks && k in s.tasks[t].jobs && s.tasks[t].jobs[k].Finishing?
    ensures var s, s' := History(cfg, quota, START, deeds[..j]).sys, History(cfg, quota, START, deeds[..i]).sys;
            t in s.tasks && s.tasks[t].rec.runs == s'.tasks[t].rec.runs
    decreases i
  {
    hide History, Doing, WorldOk;
    if j < i {
      var w := History(cfg, quota, START, deeds[..i - 1]);
      Before(cfg, quota, deeds, i);
      HistoryOk(cfg, quota, deeds[..i - 1]);
      JobWasThere(cfg, quota, w, deeds[i - 1], t, k);
      RunsAreItsOwn(cfg, quota, w, deeds[i - 1], t, k);
      OwnRead(cfg, quota, deeds, j, i - 1, t, k);
    }
  }

  // -- and what the scheduler reads of a queued task ------------------------------------------------------------

  lemma QueuedIdle(w: World, t: TaskId)
    requires RowsOk(w.sys) && (if w.lock.Some? then ExecOk(w.sys, w.lock.value) else NoJobs(w.sys))
    requires t in w.sys.tasks && w.sys.tasks[t].rec.row.status.Queued?
    ensures Idle1(w.sys.tasks[t])
  {
    forall k | k in w.sys.tasks[t].jobs ensures !Live(w.sys.tasks[t].jobs[k]) {
      if Live(w.sys.tasks[t].jobs[k]) { OneLive(w, t, k); }
    }
  }

  lemma IdleAction(cfg: Config, ts: TaskSys, a: Action, drawn: Token, next: TaskId)
    requires Idle1(ts) && !a.Claim? && !a.CloseOpenRuns?
    ensures var ts' := TaskStep(cfg, ts, a, drawn, next).sys; Idle1(ts') && ts'.rec.runs == ts.rec.runs
  {
    if Enabled(ts, a) {
      if a.Work? { assert ts.jobs[a.token].Ended?; }
      else {
        OtherRuns(cfg, ts, a, drawn, next);
        hide ClaimRound, UserRound, SettleRound, SkipRound, RequeueRound;
      }
    }
  }

  lemma IdleDeed(cfg: Config, quota: map<string, nat>, w: World, d: Deed, t: TaskId)
    requires WorldOk(cfg, w) && t in w.sys.tasks && Idle1(w.sys.tasks[t])
    requires d.Labour? || d.Pulse? || d.Cleanup? || d.Outside?
    ensures var s' := Doing(cfg, quota, w, d).sys;
            t in s'.tasks && Idle1(s'.tasks[t]) && s'.tasks[t].rec.runs == w.sys.tasks[t].rec.runs
  {
    hide WorldOk, Idle1, TaskStep, Finished, LockAfter;
    WorldBelow(cfg, w);
    var turn := TurnOf(cfg, quota, w, d);
    if turn.Some? {
      TasksStay(cfg, w.sys, turn.value);
      if turn.value.On? && turn.value.task == t { IdleAction(cfg, w.sys.tasks[t], turn.value.action, w.sys.nextToken, w.sys.nextTask); }
    }
  }

  lemma {:induction false} IdleRead(cfg: Config, quota: map<string, nat>, deeds: seq<Deed>, j: nat, i: nat, t: TaskId)
    requires j <= i <= |deeds| && NoScheduling(deeds, j, i)
    requires var s := History(cfg, quota, START, deeds[..j]).sys; t in s.tasks && Idle1(s.tasks[t])
    ensures var s, s' := History(cfg, quota, START, deeds[..j]).sys, History(cfg, quota, START, deeds[..i]).sys;
            t in s'.tasks && Idle1(s'.tasks[t]) && s'.tasks[t].rec.runs == s.tasks[t].rec.runs
    decreases i
  {
    hide History, Doing, WorldOk, Idle1;
    if j < i {
      IdleRead(cfg, quota, deeds, j, i - 1, t);
      Before(cfg, quota, deeds, i);
      HistoryOk(cfg, quota, deeds[..i - 1]);
      IdleDeed(cfg, quota, History(cfg, quota, START, deeds[..i - 1]), deeds[i - 1], t);
    }
  }

  lemma SkipRead(cfg: Config, quota: map<string, nat>, deeds: seq<Deed>, j0: nat, j: nat, i: nat, t: TaskId, snap: Task)
    requires j0 <= j <= i <= |deeds| && NoScheduling(deeds, j0, i) && snap.status.Queued? && RowAt(cfg, quota, deeds, j0, t, snap)
    ensures var s, s' := History(cfg, quota, START, deeds[..j]).sys, History(cfg, quota, START, deeds[..i]).sys;
            t in s.tasks && t in s'.tasks && s.tasks[t].rec.runs == s'.tasks[t].rec.runs
  {
    hide History, WorldOk, RowsOk, ExecOk, Idle1;
    HistoryOk(cfg, quota, deeds[..j0]);
    WorldRows(cfg, History(cfg, quota, START, deeds[..j0]));
    QueuedIdle(History(cfg, quota, START, deeds[..j0]), t);
    IdleRead(cfg, quota, deeds, j0, j, t);
    IdleRead(cfg, quota, deeds, j0, i, t);
  }

  // -- the theorem ---------------------------------------------------------------------------------------------

  lemma ReadsHold(cfg: Config, quota: map<string, nat>, deeds: seq<Deed>, i: nat)
    requires i < |deeds| && ReadTrue(cfg, quota, deeds, i)
    ensures TrueNow(cfg, quota, History(cfg, quota, START, deeds[..i]), deeds[i])
  {
    hide History, HasDegraded;
    var w := History(cfg, quota, START, deeds[..i]);
    match TurnOf(cfg, quota, w, deeds[i])
    case Some(On(t, Work(k, inp))) =>
      if t in w.sys.tasks && k in w.sys.tasks[t].jobs && w.sys.tasks[t].jobs[k].Finishing? {
        var j: nat :| j <= i && SawAt(cfg, quota, deeds, j, t, inp.seenDegraded) && NoLabour(deeds, j, i, t, k);
        OwnRead(cfg, quota, deeds, j, i, t, k);
      }
    case Some(On(t, Skip(snap, seen))) =>
      if snap.status.Queued? {
        var j0: nat, j: nat :| j0 <= j <= i && RowAt(cfg, quota, deeds, j0, t, snap) && SawAt(cfg, quota, deeds, j, t, seen) && NoScheduling(deeds, j0, i);
        SkipRead(cfg, quota, deeds, j0, j, i, t, snap);
      }
    case _ =>
  }

  /** In every history in which has_degraded answers truly when it is read, every finished task is
      `partially_completed` if and only if some step's latest run is degraded: whether its last step
      ended, spawning or not, or was skipped, and whatever others did between read and write. */
  lemma {:induction false} FinalStatusAlways(cfg: Config, quota: map<string, nat>, deeds: seq<Deed>)
    requires forall i {:trigger ReadTrue(cfg, quota, deeds, i)} :: 0 <= i < |deeds| ==> ReadTrue(cfg, quota, deeds, i)
    ensures AllFinal(History(cfg, quota, START, deeds).sys)
  {
    FinalUpTo(cfg, quota, deeds, |deeds|);
    assert deeds[..|deeds|] == deeds;
  }

  lemma NothingFinal(cfg: Config, quota: map<string, nat>)
    ensures AllFinal(History(cfg, quota, START, []).sys)
  {
  }

  lemma {:induction false} FinalUpTo(cfg: Config, quota: map<string, nat>, deeds: seq<Deed>, i: nat)
    requires i <= |deeds|
    requires forall j {:trigger ReadTrue(cfg, quota, deeds, j)} :: 0 <= j < |deeds| ==> ReadTrue(cfg, quota, deeds, j)
    ensures AllFinal(History(cfg, quota, START, deeds[..i]).sys)
  {
    hide Doing, ReadTrue, AllFinal, WorldOk, WorldRunsOk, TrueNow, History;
    if i == 0 {
      NothingFinal(cfg, quota);
      assert deeds[..0] == [];
    } else {
      FinalUpTo(cfg, quota, deeds, i - 1);
      assert ReadTrue(cfg, quota, deeds, i - 1);
      ReadsHold(cfg, quota, deeds, i - 1);
      Before(cfg, quota, deeds, i);
      HistoryOk(cfg, quota, deeds[..i - 1]);
      HistoryRuns(cfg, quota, deeds[..i - 1]);
      FinalDeed(cfg, quota, History(cfg, quota, START, deeds[..i - 1]), deeds[i - 1]);
    }
  }
}
