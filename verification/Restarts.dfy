/** Steps that opted out of retries, under the executor: once a run failed or was interrupted no
    other run is started until a person says so. */
module Restarts {
  import opened Models
  import opened Records
  import opened StateMachine
  import opened Worker
  import opened Protocol
  import opened Invariant
  import opened InvariantProof
  import opened Safety
  import opened Lifecycle
  import opened Executor
  import opened ExecutorProof
  import opened Runs

  /** Nobody retries or resumes the task. */
  predicate Unasked(deeds: seq<Deed>, t: TaskId) {
    forall i :: 0 <= i < |deeds| && deeds[i].Outside? && deeds[i].turn.On? && deeds[i].turn.task == t ==> !Unparks(deeds[i].turn.action)
  }

  /** A worker that has come to its end, or nobody at all, starts no run. */
  lemma NoRunAdded(cfg: Config, ts: TaskSys, a: Action, drawn: Token, next: TaskId)
    requires Idle1(ts)
    ensures SameSteps(ts.rec.runs, TaskStep(cfg, ts, a, drawn, next).sys.rec.runs)
  {
    if Enabled(ts, a) {
      if a.Work? { assert ts.jobs[a.token].Ended?; }
      else { OtherRuns(cfg, ts, a, drawn, next); }
    }
  }

  lemma ParkedIdle(w: World, t: TaskId)
    requires RowsOk(w.sys) && (if w.lock.Some? then ExecOk(w.sys, w.lock.value) else NoJobs(w.sys))
    requires t in w.sys.tasks && Parked(w.sys.tasks[t].rec.row)
    ensures Idle1(w.sys.tasks[t])
  {
    forall k | k in w.sys.tasks[t].jobs ensures !Live(w.sys.tasks[t].jobs[k]) {
      if Live(w.sys.tasks[t].jobs[k]) { OneLive(w, t, k); }
    }
  }

  /** One deed, seen from a parked task. */
  lemma ParkedDeed(cfg: Config, quota: map<string, nat>, w: World, d: Deed, t: TaskId)
    requires WorldOk(cfg, w) && t in w.sys.tasks && Parked(w.sys.tasks[t].rec.row) && Unasked([d], t)
    ensures var w' := Doing(cfg, quota, w, d);
            && WorldOk(cfg, w') && t in w'.sys.tasks && Parked(w'.sys.tasks[t].rec.row)
            && SameSteps(w.sys.tasks[t].rec.runs, w'.sys.tasks[t].rec.runs)
  {
    hide WorldOk, RowsOk, ExecOk, SysOk, Step, TaskStep, Parked, TurnOf, LockAfter, Unparks, NoJobs, Unasked, SameSteps, Idle1;
    DoKeeps(cfg, quota, w, d);
    WorldRows(cfg, w);
    ParkedIdle(w, t);
    WorldSys(cfg, w);
    SameRuns(w.sys.tasks[t].rec.runs);
    var turn := TurnOf(cfg, quota, w, d);
    if turn.Some? {
      ParkedTurn(cfg, w.sys, turn.value, t);
      Below(cfg, w.sys);
      TasksStay(cfg, w.sys, turn.value);
      NotUnparked(cfg, quota, w, d, t);
      if turn.value.On? && turn.value.task == t {
        NoRunAdded(cfg, w.sys.tasks[t], turn.value.action, w.sys.nextToken, w.sys.nextTask);
      }
    }
  }

  lemma SameRuns(runs: seq<Run>)
    ensures SameSteps(runs, runs)
  {
  }

  lemma WorldSys(cfg: Config, w: World)
    requires WorldOk(cfg, w)
    ensures SysOk(cfg, w.sys)
  {
  }

  lemma NotUnparked(cfg: Config, quota: map<string, nat>, w: World, d: Deed, t: TaskId)
    requires Unasked([d], t)
    ensures var turn := TurnOf(cfg, quota, w, d); turn.Some? && turn.value.On? && turn.value.task == t ==> !Unparks(turn.value.action)
  {
    assert [d][0] == d;
  }

  lemma {:induction false} ParkedHistory(cfg: Config, quota: map<string, nat>, w: World, later: seq<Deed>, t: TaskId)
    requires WorldOk(cfg, w) && t in w.sys.tasks && Parked(w.sys.tasks[t].rec.row) && Unasked(later, t)
    ensures var w' := History(cfg, quota, w, later);
            && WorldOk(cfg, w') && t in w'.sys.tasks && Parked(w'.sys.tasks[t].rec.row)
            && SameSteps(w.sys.tasks[t].rec.runs, w'.sys.tasks[t].rec.runs)
  {
    hide WorldOk, Parked, Doing;
    if later != [] {
      var n := |later| - 1;
      ParkedHistory(cfg, quota, w, later[..n], t);
      ParkedDeed(cfg, quota, History(cfg, quota, w, later[..n]), later[n], t);
    }
  }

  /** In every history: after a run of a `retry = False` step failed, or was interrupted and settled,
      no run of any step is started on the task (its runs keep their number and steps) and it stays
      parked, until a user's retry or resume; whatever its retry budget, pauses, crashes, stale
      workers and everything else that happens meanwhile. */
  lemma {:induction false} NotStartedAgain(cfg: Config, quota: map<string, nat>, deeds: seq<Deed>, d: Deed, later: seq<Deed>, t: TaskId, a: Action)
    requires var w := History(cfg, quota, START, deeds);
             && TurnOf(cfg, quota, w, d) == Some(On(t, a)) && t in w.sys.tasks
             && EndsBadly(cfg, w.sys.tasks[t], a, TaskStep(cfg, w.sys.tasks[t], a, w.sys.nextToken, w.sys.nextTask).sys)
    requires Unasked(later, t)
    ensures var w1 := Doing(cfg, quota, History(cfg, quota, START, deeds), d);
            var w2 := History(cfg, quota, w1, later);
            && t in w1.sys.tasks && t in w2.sys.tasks && Parked(w2.sys.tasks[t].rec.row)
            && SameSteps(w1.sys.tasks[t].rec.runs, w2.sys.tasks[t].rec.runs)
  {
    hide WorldOk, Parked, TaskStep, EndsBadly, TurnOf, Unasked, LockAfter;
    var w := History(cfg, quota, START, deeds);
    HistoryOk(cfg, quota, deeds);
    DoKeeps(cfg, quota, w, d);
    WorldSys(cfg, w);
    At(cfg, w.sys, t);
    Below(cfg, w.sys);
    TasksStay(cfg, w.sys, On(t, a));
    BadEndingParks(cfg, w.sys.tasks[t], a, w.sys.nextToken, w.sys.nextTask);
    hide History;
    ParkedHistory(cfg, quota, Doing(cfg, quota, w, d), later, t);
  }
}
