/** Step runs under the executor: approvals of side-effect steps, and the final status. */
module Runs {
  import opened Models
  import opened Records
  import opened StateMachine
  import opened Worker
  import opened Protocol
  import opened Invariant
  import opened InvariantProof
  import opened Safety
  import opened Executor
  import opened ExecutorProof

  predicate SideEffect(cfg: Config, step: string) {
    step in cfg.registry && cfg.registry[step].sideEffect
  }

  /** Where the first `n` runs are of this step. */
  function Among(runs: seq<Run>, n: nat, step: string): set<nat>
    requires n <= |runs|
  {
    set i: nat | i < n && runs[i].step == step
  }

  /** Which run of its step a run is, counting from one: how many there are up to it. */
  function Number(runs: seq<Run>, j: nat): nat
    requires j < |runs|
  {
    |Among(runs, j + 1, runs[j].step)|
  }

  lemma AmongNext(runs: seq<Run>, n: nat, step: string)
    requires n < |runs|
    ensures |Among(runs, n + 1, step)| == |Among(runs, n, step)| + if runs[n].step == step then 1 else 0
  {
    assert Among(runs, n + 1, step) == Among(runs, n, step) + if runs[n].step == step then {n} else {};
  }

  lemma AmongPrefix(runs: seq<Run>, n: nat, step: string)
    requires n <= |runs|
    ensures Among(runs[..n], n, step) == Among(runs, n, step)
  {
  }

  /** What the worker counts: every run of the step, each once. */
  lemma {:induction false} CountIs(runs: seq<Run>, step: string)
    ensures CountRuns(runs, step) == |Among(runs, |runs|, step)|
  {
    if runs == [] { assert Among(runs, 0, step) == {}; }
    else {
      var n := |runs| - 1;
      CountIs(runs[..n], step);
      AmongPrefix(runs, n, step);
      AmongNext(runs, n, step);
    }
  }

  lemma NumberIs(runs: seq<Run>, j: nat)
    requires j < |runs|
    ensures Number(runs, j) == CountRuns(runs[..j], runs[j].step) + 1
  {
    CountIs(runs[..j], runs[j].step);
    AmongPrefix(runs, j, runs[j].step);
    AmongNext(runs, j, runs[j].step);
  }

  /** `i` is the last run of j's step before `j`. */
  predicate Previous(runs: seq<Run>, i: int, j: nat)
    requires j < |runs|
  {
    0 <= i < j && runs[i].step == runs[j].step && forall k :: i < k < j ==> runs[k].step != runs[j].step
  }

  /** The first run of a step has number 1, the next one more than the one before it. */
  lemma NumbersRise(runs: seq<Run>, j: nat)
    requires j < |runs|
    ensures (forall i :: 0 <= i < j ==> runs[i].step != runs[j].step) ==> Number(runs, j) == 1
    ensures forall i :: Previous(runs, i, j) ==> Number(runs, j) == Number(runs, i) + 1
  {
    if forall i :: 0 <= i < j ==> runs[i].step != runs[j].step { assert Among(runs, j + 1, runs[j].step) == {j}; }
    forall i | Previous(runs, i, j)
      ensures Number(runs, j) == Number(runs, i) + 1
    {
      assert Among(runs, j, runs[j].step) == Among(runs, i + 1, runs[i].step);
      AmongNext(runs, j, runs[j].step);
    }
  }

  /** Every run of a side-effect step was approved under its own number. */
  predicate RunsApproved(cfg: Config, rec: Record) {
    forall j :: 0 <= j < |rec.runs| && SideEffect(cfg, rec.runs[j].step) ==> Approved(rec, rec.runs[j].step, Number(rec.runs, j))
  }

  /** A worker past the gate is about to start run number `attempt` of its step, approved if
      the step has side effects. */
  predicate AdmitOk(cfg: Config, rec: Record, pc: PC) {
    match pc
    case Counted(snap, a) => a == CountRuns(rec.runs, snap.step) + 1
    case Admitted(snap, a) => Cleared1(cfg, rec, snap, a)
    case Ready(snap, a, _) => Cleared1(cfg, rec, snap, a)
    case Cleared(snap, a, _) => Cleared1(cfg, rec, snap, a)
    case _ => true
  }

  predicate Cleared1(cfg: Config, rec: Record, snap: Task, a: nat) {
    a == CountRuns(rec.runs, snap.step) + 1 && (SideEffect(cfg, snap.step) ==> Approved(rec, snap.step, a))
  }

  function EndStatus(degraded: bool): RunStatus {
    if degraded then RunDegraded else RunOk
  }

  /** The newest run is the worker's own, of the step it runs. */
  predicate OwnRun(rec: Record, snap: Task, run: RunId) {
    run + 1 == |rec.runs| && rec.runs[run].step == snap.step
  }

  /** Where a worker's run is: open while the step runs; closed before an ordinary boundary,
      still open before a spawning one, whose plan will close it. */
  predicate OpenRunOk(rec: Record, pc: PC) {
    match pc
    case InStep(snap, _, run) => OwnRun(rec, snap, run) && rec.runs[run].status.RunOpen?
    case Updating(snap, o, run, status, _) => OwnRun(rec, snap, run) && EndFits(o, run, status)
    case Closing(snap, o, run, status) => OwnRun(rec, snap, run) && EndFits(o, run, status)
    case Finishing(snap, o) =>
      o.Success? ==>
        && OwnRun(rec, snap, o.run)
        && (o.plan.None? ==> rec.runs[o.run].status == EndStatus(o.degraded))
        && (o.plan.Some? ==> rec.runs[o.run].status.RunOpen? && o.plan.value.run == o.run && o.plan.value.runStatus == EndStatus(o.degraded))
    case _ => true
  }

  predicate EndFits(o: Outcome, run: RunId, status: RunStatus) {
    o.Success? ==> o.plan.None? && o.run == run && status == EndStatus(o.degraded)
  }

  predicate JobRunsOk(cfg: Config, rec: Record, pc: PC) {
    AdmitOk(cfg, rec, pc) && OpenRunOk(rec, pc)
  }

  predicate TaskRunsOk(cfg: Config, ts: TaskSys) {
    && RunsApproved(cfg, ts.rec)
    && (forall k {:trigger ts.jobs[k]} :: k in ts.jobs && Live(ts.jobs[k]) ==> JobRunsOk(cfg, ts.rec, ts.jobs[k]))
  }

  // -- what actions do to runs ------------------------------------------------------------------

  lemma {:induction false} CountSame(runs: seq<Run>, runs': seq<Run>, step: string)
    requires |runs'| == |runs| && forall j :: 0 <= j < |runs| ==> runs'[j].step == runs[j].step
    ensures CountRuns(runs', step) == CountRuns(runs, step)
  {
    if runs != [] { CountSame(runs[..|runs| - 1], runs'[..|runs| - 1], step); }
  }

  /** Events only accumulate. */
  predicate MoreEvents(rec: Record, rec': Record) {
    |rec.events| <= |rec'.events| && rec'.events[..|rec.events|] == rec.events
  }

  lemma StillApproved(rec: Record, rec': Record, step: string, a: nat)
    requires MoreEvents(rec, rec') && Approved(rec, step, a)
    ensures Approved(rec', step, a)
  {
    var e := Event(ApprovalDecided(true, a), step);
    var i :| 0 <= i < |rec.events| && rec.events[i] == e;
    assert rec'.events[..|rec.events|][i] == e;
  }

  predicate SameSteps(runs: seq<Run>, runs': seq<Run>) {
    |runs'| == |runs| && forall j :: 0 <= j < |runs| ==> runs'[j].step == runs[j].step
  }

  lemma ApprovedSame(cfg: Config, rec: Record, rec': Record)
    requires RunsApproved(cfg, rec) && MoreEvents(rec, rec') && SameSteps(rec.runs, rec'.runs)
    ensures RunsApproved(cfg, rec')
  {
    forall j | 0 <= j < |rec'.runs| && SideEffect(cfg, rec'.runs[j].step)
      ensures Approved(rec', rec'.runs[j].step, Number(rec'.runs, j))
    {
      assert Among(rec'.runs, j + 1, rec'.runs[j].step) == Among(rec.runs, j + 1, rec.runs[j].step);
      StillApproved(rec, rec', rec.runs[j].step, Number(rec.runs, j));
    }
  }

  lemma AdmitSame(cfg: Config, rec: Record, rec': Record, pc: PC)
    requires AdmitOk(cfg, rec, pc) && MoreEvents(rec, rec') && SameSteps(rec.runs, rec'.runs)
    ensures AdmitOk(cfg, rec', pc)
  {
    if SnapOf(pc).Some? {
      var step := SnapOf(pc).value.step;
      CountSame(rec.runs, rec'.runs, step);
      if pc.Admitted? || pc.Ready? || pc.Cleared? {
        if SideEffect(cfg, step) { StillApproved(rec, rec', step, pc.attempt); }
      }
    }
  }

  /** The run a worker starts: the next number of its step, approved if it must be. */
  lemma ApprovedStart(cfg: Config, rec: Record, snap: Task, a: nat)
    requires RunsApproved(cfg, rec) && Cleared1(cfg, rec, snap, a)
    ensures RunsApproved(cfg, StartRun(rec, snap.step))
  {
    var rec' := StartRun(rec, snap.step);
    forall j | 0 <= j < |rec'.runs| && SideEffect(cfg, rec'.runs[j].step)
      ensures Approved(rec', rec'.runs[j].step, Number(rec'.runs, j))
    {
      if j < |rec.runs| { assert Among(rec'.runs, j + 1, rec'.runs[j].step) == Among(rec.runs, j + 1, rec.runs[j].step); }
      else { NumberIs(rec'.runs, j); assert rec'.runs[..j] == rec.runs; }
    }
  }

  lemma UserRuns(steps: seq<string>, rec: Record, snap: Task, req: Request, next: TaskId)
    ensures var rec' := After(rec, UserRound(steps, rec, snap, req, next)); MoreEvents(rec, rec') && rec'.runs == rec.runs
  {
  }

  lemma BoundaryRuns(steps: seq<string>, rec: Record, token: Token, read: Task, o: Outcome, seen: bool, now: int, next: TaskId)
    ensures var r := FinishRound(steps, rec, token, read, o, seen, now, next);
            r.Tried? && r.tx.Committed? ==>
              && MoreEvents(rec, r.tx.rec)
              && r.tx.rec.runs == if PlanOf(o).Some? then CloseOpenRun(rec.runs, PlanOf(o).value.run, PlanOf(o).value.runStatus) else rec.runs
  {
  }

  lemma SkipRuns(steps: seq<string>, rec: Record, snap: Task, seen: bool, next: TaskId)
    ensures var rec' := SkipRound(steps, rec, snap, seen, next); MoreEvents(rec, rec') && rec'.runs == rec.runs
  {
  }

  /** Only workers touch runs, but for the settler closing those left open. */
  lemma OtherRuns(cfg: Config, ts: TaskSys, a: Action, drawn: Token, next: TaskId)
    requires !a.Work? && Enabled(ts, a)
    ensures var rec' := Act(cfg, ts, a, drawn, next).rec;
            && MoreEvents(ts.rec, rec') && SameSteps(ts.rec.runs, rec'.runs)
            && (!a.CloseOpenRuns? ==> rec'.runs == ts.rec.runs)
  {
    match a
    case User(snap, req) => UserRuns(Steps(cfg, ts.rec.row.workflow), ts.rec, snap, req, next);
    case Skip(snap, seen) => SkipRuns(Steps(cfg, ts.rec.row.workflow), ts.rec, snap, seen, next);
    case _ =>
  }

  /** A worker's step on its own run and attempt. */
  lemma WorkRuns(cfg: Config, ts: TaskSys, k: Token, inp: Input, drawn: Token, next: TaskId)
    requires TaskOk(cfg, ts, drawn) && Enabled(ts, Work(k, inp)) && Live(ts.jobs[k]) && Tok(ts) == Some(k)
    requires RunsApproved(cfg, ts.rec) && JobRunsOk(cfg, ts.rec, ts.jobs[k])
    ensures var e := Act(cfg, ts, Work(k, inp), drawn, next);
            && RunsApproved(cfg, e.rec)
            && (Live(e.jobs[k]) ==> JobRunsOk(cfg, e.rec, e.jobs[k]))
  {
    var pc := ts.jobs[k];
    assert JobOk(cfg, ts, k, pc);
    if SnapOf(pc).Some? { assert VersionOk(ts.rec.row, SnapOf(pc).value, drawn); }
    if pc.Finishing? {
      FinishRuns(cfg, ts.rec, k, pc, inp, next);
    } else {
      ProgramRuns(cfg, ts.rec, k, pc, inp, next);
    }
  }

  lemma FinishRuns(cfg: Config, rec: Record, k: Token, pc: PC, inp: Input, next: TaskId)
    requires pc.Finishing? && RunsApproved(cfg, rec) && JobRunsOk(cfg, rec, pc)
    ensures var m := JobStep(cfg, rec, k, pc, inp, next);
            RunsApproved(cfg, m.rec) && (Live(m.pc) ==> JobRunsOk(cfg, m.rec, m.pc))
  {
    BoundaryRuns(Steps(cfg, rec.row.workflow), rec, k, inp.row, pc.outcome, inp.seenDegraded, inp.now, next);
    var m := JobStep(cfg, rec, k, pc, inp, next);
    ApprovedSame(cfg, rec, m.rec);
  }

  lemma ProgramRuns(cfg: Config, rec: Record, k: Token, pc: PC, inp: Input, next: TaskId)
    requires !pc.Finishing? && Live(pc) && rec.row.lock.token == Some(k)
    requires SnapOf(pc).Some? ==> SnapOf(pc).value.grant == rec.row.grant
    requires GrantOk(rec) && RunsApproved(cfg, rec) && JobRunsOk(cfg, rec, pc)
    ensures var m := JobStep(cfg, rec, k, pc, inp, next);
            RunsApproved(cfg, m.rec) && (Live(m.pc) ==> JobRunsOk(cfg, m.rec, m.pc))
  {
    hide Finish, PreviousError;
    var m := JobStep(cfg, rec, k, pc, inp, next);
    if pc.Cleared? {
      ApprovedStart(cfg, rec, pc.snap, pc.attempt);
    } else {
      ProgramWrites(cfg, rec, k, pc, inp, next);
      ApprovedSame(cfg, rec, m.rec);
    }
  }

  // -- over whole histories ---------------------------------------------------------------------

  predicate WorldRunsOk(cfg: Config, s: Sys) {
    forall t :: t in s.tasks ==> TaskRunsOk(cfg, s.tasks[t])
  }

  /** A task whose runs keep their steps, if its live workers' runs are left alone. */
  lemma OthersKeepRuns(cfg: Config, ts: TaskSys, a: Action, drawn: Token, next: TaskId)
    requires TaskOk(cfg, ts, drawn) && TaskRunsOk(cfg, ts) && Enabled(ts, a) && !a.Work?
    requires a.CloseOpenRuns? ==> Idle1(ts)
    ensures TaskRunsOk(cfg, TaskStep(cfg, ts, a, drawn, next).sys)
  {
    var ts' := TaskStep(cfg, ts, a, drawn, next).sys;
    OtherRuns(cfg, ts, a, drawn, next);
    ClaimsStep(cfg, ts, a, drawn, next);
    ApprovedSame(cfg, ts.rec, ts'.rec);
    forall k | k in ts'.jobs && Live(ts'.jobs[k]) ensures JobRunsOk(cfg, ts'.rec, ts'.jobs[k]) {
      if k in ts.jobs && ts.jobs[k] == ts'.jobs[k] { AdmitSame(cfg, ts.rec, ts'.rec, ts.jobs[k]); }
    }
  }

  lemma WorkerKeepsRuns(cfg: Config, ts: TaskSys, k: Token, inp: Input, drawn: Token, next: TaskId)
    requires TaskOk(cfg, ts, drawn) && TaskRunsOk(cfg, ts) && Enabled(ts, Work(k, inp))
    requires Live(ts.jobs[k]) ==> Tok(ts) == Some(k)
    requires forall j {:trigger ts.jobs[j]} :: j in ts.jobs && Live(ts.jobs[j]) && Live(ts.jobs[k]) ==> j == k
    ensures TaskRunsOk(cfg, TaskStep(cfg, ts, Work(k, inp), drawn, next).sys)
  {
    var ts' := TaskStep(cfg, ts, Work(k, inp), drawn, next).sys;
    if Live(ts.jobs[k]) {
      WorkRuns(cfg, ts, k, inp, drawn, next);
      forall j | j in ts'.jobs && Live(ts'.jobs[j]) ensures JobRunsOk(cfg, ts'.rec, ts'.jobs[j]) {
      }
    } else {
      assert ts'.rec == ts.rec && ts'.jobs == ts.jobs;
    }
  }

  /** What a worker or a settler needs of the executor before it acts. */
  predicate MayAct(ts: TaskSys, a: Action) {
    match a
    case Work(k, _) =>
      k in ts.jobs && Live(ts.jobs[k]) ==>
        Tok(ts) == Some(k) && forall j {:trigger ts.jobs[j]} :: j in ts.jobs && Live(ts.jobs[j]) ==> j == k
    case CloseOpenRuns => Idle1(ts)
    case _ => true
  }

  lemma TurnRuns(cfg: Config, s: Sys, t: TaskId, a: Action)
    requires t in s.tasks && TaskOk(cfg, s.tasks[t], s.nextToken) && WorldRunsOk(cfg, s) && MayAct(s.tasks[t], a)
    requires OnlyTask(s, Step(cfg, s, On(t, a)), t, a)
    requires Step(cfg, s, On(t, a)).tasks[t] == TaskStep(cfg, s.tasks[t], a, s.nextToken, s.nextTask).sys
    ensures WorldRunsOk(cfg, Step(cfg, s, On(t, a)))
  {
    var s' := Step(cfg, s, On(t, a));
    if Enabled(s.tasks[t], a) {
      if a.Work? { WorkerKeepsRuns(cfg, s.tasks[t], a.token, a.inp, s.nextToken, s.nextTask); }
      else { OthersKeepRuns(cfg, s.tasks[t], a, s.nextToken, s.nextTask); }
    }
    forall u | u in s'.tasks ensures TaskRunsOk(cfg, s'.tasks[u]) {
      if u !in s.tasks { assert s'.tasks[u].rec.runs == [] && s'.tasks[u].jobs == map[]; }
    }
  }

  lemma CrashRuns(cfg: Config, s: Sys)
    requires WorldRunsOk(cfg, s)
    ensures WorldRunsOk(cfg, Step(cfg, s, Crash))
  {
    forall t | t in s.tasks ensures TaskRunsOk(cfg, Orphaned(s.tasks[t])) { assert TaskRunsOk(cfg, s.tasks[t]); }
  }

  lemma CreateRuns(cfg: Config, s: Sys, m: Turn)
    requires WorldRunsOk(cfg, s) && m.Create?
    ensures WorldRunsOk(cfg, Step(cfg, s, m))
  {
  }

  /** The executor lets only the one live worker of a task act on its runs. */
  lemma TurnMayAct(cfg: Config, quota: map<string, nat>, w: World, d: Deed)
    requires RowsOk(w.sys) && (if w.lock.Some? then ExecOk(w.sys, w.lock.value) else NoJobs(w.sys))
    ensures var turn := TurnOf(cfg, quota, w, d);
            turn.Some? && turn.value.On? && turn.value.task in w.sys.tasks ==> MayAct(w.sys.tasks[turn.value.task], turn.value.action)
  {
    var turn := TurnOf(cfg, quota, w, d);
    if turn.Some? && turn.value.On? && turn.value.task in w.sys.tasks {
      var t, a := turn.value.task, turn.value.action;
      if a.Work? && a.token in w.sys.tasks[t].jobs && Live(w.sys.tasks[t].jobs[a.token]) { OneLive(w, t, a.token); }
      if a.CloseOpenRuns? { UnheldIdle(w.sys, w.lock.value.inflight, t); }
    }
  }

  lemma DoingRuns(cfg: Config, quota: map<string, nat>, w: World, d: Deed)
    requires WorldOk(cfg, w) && WorldRunsOk(cfg, w.sys)
    ensures WorldRunsOk(cfg, Doing(cfg, quota, w, d).sys)
  {
    var turn := TurnOf(cfg, quota, w, d);
    WorldRows(cfg, w);
    TurnMayAct(cfg, quota, w, d);
    if turn.Some? {
      match turn.value
      case Crash => CrashRuns(cfg, w.sys);
      case Create(_, _) => CreateRuns(cfg, w.sys, turn.value);
      case On(t, a) =>
        if t in w.sys.tasks {
          OnTask(cfg, w.sys, t, a);
          At(cfg, w.sys, t);
          TaskAfter(cfg, w.sys, t, a);
          TurnRuns(cfg, w.sys, t, a);
        }
    }
  }

  lemma {:induction false} HistoryRuns(cfg: Config, quota: map<string, nat>, deeds: seq<Deed>)
    ensures WorldRunsOk(cfg, History(cfg, quota, START, deeds).sys)
  {
    if deeds != [] {
      var n := |deeds| - 1;
      HistoryRuns(cfg, quota, deeds[..n]);
      HistoryOk(cfg, quota, deeds[..n]);
      DoingRuns(cfg, quota, History(cfg, quota, START, deeds[..n]), deeds[n]);
    }
  }

  // -- approvals ----------------------------------------------------------------------------------

  lemma {:induction false} CountGrows(runs: seq<Run>, i: nat, j: nat, step: string)
    requires i <= j <= |runs|
    ensures CountRuns(runs[..i], step) <= CountRuns(runs[..j], step)
    ensures i < j && runs[i].step == step ==> CountRuns(runs[..i], step) < CountRuns(runs[..j], step)
  {
    if i < j {
      assert runs[..j][..j - 1] == runs[..j - 1];
      CountGrows(runs, i, j - 1, step);
    }
  }

  /** In every history, a run of a side-effect step is number k of its step on its task and an
      approval of exactly (task, step, k) is on record; two runs of a step never share a number,
      so no approval admits two. */
  lemma {:induction false} RunsAreApproved(cfg: Config, quota: map<string, nat>, deeds: seq<Deed>, t: TaskId, j: nat)
    requires t in History(cfg, quota, START, deeds).sys.tasks
    requires j < |History(cfg, quota, START, deeds).sys.tasks[t].rec.runs|
    ensures var rec := History(cfg, quota, START, deeds).sys.tasks[t].rec;
            && (SideEffect(cfg, rec.runs[j].step) ==> Approved(rec, rec.runs[j].step, Number(rec.runs, j)))
            && (forall i :: 0 <= i < j && rec.runs[i].step == rec.runs[j].step ==> Number(rec.runs, i) < Number(rec.runs, j))
            && Number(rec.runs, j) == |set i: nat | i <= j && rec.runs[i].step == rec.runs[j].step|
            && ((forall i :: 0 <= i < j ==> rec.runs[i].step != rec.runs[j].step) ==> Number(rec.runs, j) == 1)
            && (forall i :: Previous(rec.runs, i, j) ==> Number(rec.runs, j) == Number(rec.runs, i) + 1)
  {
    HistoryRuns(cfg, quota, deeds);
    var rec := History(cfg, quota, START, deeds).sys.tasks[t].rec;
    assert TaskRunsOk(cfg, History(cfg, quota, START, deeds).sys.tasks[t]);
    forall i | 0 <= i < j && rec.runs[i].step == rec.runs[j].step ensures Number(rec.runs, i) < Number(rec.runs, j) {
      CountGrows(rec.runs, i, j, rec.runs[j].step);
      NumberIs(rec.runs, i);
      NumberIs(rec.runs, j);
    }
    NumbersRise(rec.runs, j);
    assert Among(rec.runs, j + 1, rec.runs[j].step) == set i: nat | i <= j && rec.runs[i].step == rec.runs[j].step;
  }

  /** The approval comes first: a worker about to start a run of a side-effect step finds it
      already on record, under the number the run will have. */
  lemma {:induction false} ApprovedBeforeStart(cfg: Config, quota: map<string, nat>, deeds: seq<Deed>, t: TaskId, k: Token)
    requires var s := History(cfg, quota, START, deeds).sys;
             t in s.tasks && k in s.tasks[t].jobs && s.tasks[t].jobs[k].Cleared?
    ensures var rec := History(cfg, quota, START, deeds).sys.tasks[t].rec;
            var pc := History(cfg, quota, START, deeds).sys.tasks[t].jobs[k];
            && pc.attempt == |set i: nat | i < |rec.runs| && rec.runs[i].step == pc.snap.step| + 1
            && pc.attempt == Number(StartRun(rec, pc.snap.step).runs, |rec.runs|)
            && (SideEffect(cfg, pc.snap.step) ==> Approved(rec, pc.snap.step, pc.attempt))
  {
    HistoryRuns(cfg, quota, deeds);
    var ts := History(cfg, quota, START, deeds).sys.tasks[t];
    assert TaskRunsOk(cfg, ts);
    var runs' := StartRun(ts.rec, ts.jobs[k].snap.step).runs;
    var step := ts.jobs[k].snap.step;
    assert runs'[..|ts.rec.runs|] == ts.rec.runs;
    CountIs(ts.rec.runs, step);
    NumberIs(runs', |ts.rec.runs|);
    assert Among(ts.rec.runs, |ts.rec.runs|, step) == set i: nat | i < |ts.rec.runs| && ts.rec.runs[i].step == step;
  }

  // -- final status -------------------------------------------------------------------------------

  /** While a worker lives, nobody else changes the runs of its task; so what has_degraded
      answered it is still true when its boundary commits. */
  lemma {:induction false} RunsAreItsOwn(cfg: Config, quota: map<string, nat>, w: World, d: Deed, t: TaskId, k: Token)
    requires WorldOk(cfg, w) && t in w.sys.tasks && k in w.sys.tasks[t].jobs && Live(w.sys.tasks[t].jobs[k])
    requires !(d.Labour? && d.task == t && d.token == k)
    ensures t in Doing(cfg, quota, w, d).sys.tasks && Doing(cfg, quota, w, d).sys.tasks[t].rec.runs == w.sys.tasks[t].rec.runs
  {
    WorldRows(cfg, w);
    Below(cfg, w.sys);
    OwnRunsCore(cfg, quota, w, d, t, k);
  }

  lemma OwnRunsCore(cfg: Config, quota: map<string, nat>, w: World, d: Deed, t: TaskId, k: Token)
    requires RowsOk(w.sys) && (if w.lock.Some? then ExecOk(w.sys, w.lock.value) else NoJobs(w.sys))
    requires forall u :: u in w.sys.tasks ==> u < w.sys.nextTask
    requires t in w.sys.tasks && k in w.sys.tasks[t].jobs && Live(w.sys.tasks[t].jobs[k])
    requires !(d.Labour? && d.task == t && d.token == k)
    ensures t in Doing(cfg, quota, w, d).sys.tasks && Doing(cfg, quota, w, d).sys.tasks[t].rec.runs == w.sys.tasks[t].rec.runs
  {
    hide SettleOk, LockAfter, Step, Enabled, PhaseOk, MayAct, RowsOk, LiveOk, SinceOk;
    var turn := TurnOf(cfg, quota, w, d);
    TurnMayAct(cfg, quota, w, d);
    OneLive(w, t, k);
    if turn.Some? {
      TasksStay(cfg, w.sys, turn.value);
      if turn.value.On? && turn.value.task == t && Enabled(w.sys.tasks[t], turn.value.action) {
        OwnRunsOnly(cfg, w.sys.tasks[t], turn.value.action, k, w.sys.nextToken, w.sys.nextTask);
      }
    }
  }

  lemma OwnRunsOnly(cfg: Config, ts: TaskSys, a: Action, k: Token, drawn: Token, next: TaskId)
    requires Enabled(ts, a) && MayAct(ts, a) && k in ts.jobs && Live(ts.jobs[k]) && (a.Work? ==> a.token != k)
    ensures TaskStep(cfg, ts, a, drawn, next).sys.rec.runs == ts.rec.runs
  {
    if a.Work? { assert ts.jobs[a.token].Ended?; }
    else { OtherRuns(cfg, ts, a, drawn, next); }
  }

  /** has_degraded after a spawning boundary closed its run, the newest of its task. */
  lemma ClosedRun(runs: seq<Run>, run: RunId, degraded: bool)
    requires run + 1 == |runs| && runs[run].status.RunOpen?
    ensures HasDegraded(CloseOpenRun(runs, run, EndStatus(degraded))) <==> degraded || HasDegraded(runs)
  {
    var runs' := CloseOpenRun(runs, run, EndStatus(degraded));
    if HasDegraded(runs) {
      var i :| 0 <= i < |runs| && runs[i].status.RunDegraded? && LastOfStep(runs, i);
      assert runs'[i].status.RunDegraded? && LastOfStep(runs', i);
    }
    if degraded { assert runs'[run].status.RunDegraded? && LastOfStep(runs', run); }
    if HasDegraded(runs') {
      var i :| 0 <= i < |runs'| && runs'[i].status.RunDegraded? && LastOfStep(runs', i);
      if i != run {
        forall j | i < j < |runs| ensures runs[j].step != runs[i].step { assert runs'[j].step == runs[j].step; }
        assert runs[i].status.RunDegraded? && LastOfStep(runs, i);
      }
    }
  }

  lemma FinalBoundary(cfg: Config, rec: Record, k: Token, pc: PC, inp: Input, next: TaskId)
    requires pc.Finishing? && OpenRunOk(rec, pc) && Holder(rec.row, k) && inp.seenDegraded == HasDegraded(rec.runs)
    ensures var m := JobStep(cfg, rec, k, pc, inp, next);
            m.rec.row.status.Completed? || m.rec.row.status.PartiallyCompleted? ==>
              (m.rec.row.status.PartiallyCompleted? <==> HasDegraded(m.rec.runs))
  {
    var o := pc.outcome;
    BoundaryRuns(Steps(cfg, rec.row.workflow), rec, k, inp.row, o, inp.seenDegraded, inp.now, next);
    FinalDecision(Steps(cfg, rec.row.workflow), rec, k, inp.row, o, inp.seenDegraded, inp.now, next);
    if o.Success? {
      if o.plan.Some? { ClosedRun(rec.runs, o.run, o.degraded); }
      else if o.degraded { assert rec.runs[o.run].status.RunDegraded? && LastOfStep(rec.runs, o.run); }
    }
  }

  lemma FinalDecision(steps: seq<string>, rec: Record, k: Token, read: Task, o: Outcome, seen: bool, now: int, next: TaskId)
    ensures var r := FinishRound(steps, rec, k, read, o, seen, now, next);
            r.Tried? && r.tx.Committed? && (r.tx.rec.row.status.Completed? || r.tx.rec.row.status.PartiallyCompleted?) ==>
              o.Success? && (r.tx.rec.row.status.PartiallyCompleted? <==> o.degraded || seen)
  {
  }
}
