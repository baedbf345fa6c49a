/** What becomes of a task whose worker is gone: settled after a crash or a heartbeat timeout. */
module Recoveries {
  import opened Models
  import opened Records
  import opened StateMachine
  import opened Worker
  import opened Protocol
  import opened Invariant
  import opened InvariantProof
  import opened Safety
  import opened Executor
  import opened ExecutorProof

  /** The interrupted step counts as not done: the task stays on it and no retry is counted. A
      terminate request wins, then a pause, then a step that must not be run again unasked; every
      other task is queued, to be run again as it was. */
  predicate SettledAs(cfg: Config, row: Task, row': Task) {
    && row'.workflow == row.workflow && row'.step == row.step && row'.parent == row.parent
    && row'.retryCount == row.retryCount && row'.maxRetries == row.maxRetries && row'.grant == row.grant && row'.progress == row.progress
    && row'.lock == UNLOCKED && !row'.pauseRequested && !row'.terminateRequested
    && (row'.status.Terminated? <==> row.terminateRequested)
    && (!row.terminateRequested ==> (row'.status.Paused? <==> row.status.PausePending?))
    && (!row.terminateRequested && !row.status.PausePending? ==>
          && (row'.status.ManualRequired? <==> !(row.step in cfg.registry && cfg.registry[row.step].retry))
          && (row'.status.Queued? <==> row.step in cfg.registry && cfg.registry[row.step].retry))
    && (if row'.status.ManualRequired? then row'.lastError.Some? && row'.nextRetryAt.None?
        else row'.lastError == row.lastError && row'.nextRetryAt == row.nextRetryAt)
  }

  /** Whatever the settler read, and however long ago: if it releases the claim, the task is settled
      as it stands now; and in a reclaim its heartbeat has not moved since it was read. */
  lemma SettleEnds(cfg: Config, ts: TaskSys, snap: Task, checkAlive: bool, reason: string, drawn: Token, next: TaskId)
    requires TaskOk(cfg, ts, drawn) && snap in ts.past && ts.rec.row.lock.token.Some?
    ensures var rec' := TaskStep(cfg, ts, Action.Settle(snap, checkAlive, reason), drawn, next).sys.rec;
            if rec'.row.lock.token.Some? then rec' == ts.rec
            else && SettledAs(cfg, ts.rec.row, rec'.row)
                 && snap.lock.token == ts.rec.row.lock.token && (checkAlive ==> snap.lock.heartbeat == ts.rec.row.lock.heartbeat)
  {
    assert VersionOk(ts.rec.row, snap, drawn) && RowOk(cfg, ts.rec.row);
    hide TaskOk, SettledAs, SettleRound, RowOk, VersionOk;
    SettleRow(cfg, ts.rec, snap, checkAlive, reason, next, drawn);
  }

  lemma SettleRow(cfg: Config, rec: Record, snap: Task, checkAlive: bool, reason: string, next: TaskId, bound: Token)
    requires RowOk(cfg, rec.row) && VersionOk(rec.row, snap, bound) && rec.row.lock.token.Some?
    ensures var tx := SettleRound(rec, snap, NoRetry(cfg, snap.step), checkAlive, reason, next);
            tx.Committed? ==>
              && SettledAs(cfg, rec.row, tx.rec.row)
              && snap.lock.token == rec.row.lock.token && (checkAlive ==> snap.lock.heartbeat == rec.row.lock.heartbeat)
  {
    hide Cancelling;
  }

  /** A task that does not execute is nothing to settle. */
  lemma NothingToSettle(cfg: Config, ts: TaskSys, snap: Task, checkAlive: bool, reason: string, drawn: Token, next: TaskId)
    requires snap in ts.past && !Executing(ts.rec.row.status)
    ensures TaskStep(cfg, ts, Action.Settle(snap, checkAlive, reason), drawn, next).sys.rec == ts.rec
  {
  }

  // -- recovery, as a whole -----------------------------------------------------------------------------------

  /** No executor, or one that is still recovering. */
  predicate NotYet(w: World) {
    w.lock.None? || w.lock.value.phase.Recovering?
  }

  predicate LeftAlone(d: Deed, t: TaskId) {
    d.Outside? && d.turn.On? ==> d.turn.task != t
  }

  predicate NobodyActs(deeds: seq<Deed>, t: TaskId) {
    forall i :: 0 <= i < |deeds| ==> LeftAlone(deeds[i], t)
  }

  /** As it was when its process died, or settled. */
  predicate Waits(cfg: Config, row: Task, row': Task) {
    row' == row || SettledAs(cfg, row, row')
  }

  /** Until recovery is over only the settler touches an interrupted task. */
  lemma RecoveringTurn(cfg: Config, quota: map<string, nat>, w: World, d: Deed, t: TaskId)
    requires NotYet(w) && LeftAlone(d, t) && t in w.sys.tasks && w.sys.tasks[t].jobs == map[]
    ensures var turn := TurnOf(cfg, quota, w, d);
            turn.Some? && turn.value.On? && turn.value.task == t && Enabled(w.sys.tasks[t], turn.value.action) ==>
              turn.value.action.CloseOpenRuns? || turn.value.action.Settle?
  {
  }

  lemma RecoveringDeed(cfg: Config, quota: map<string, nat>, w: World, d: Deed, t: TaskId, row: Task)
    requires WorldOk(cfg, w) && NotYet(w) && LeftAlone(d, t) && t in w.sys.tasks && Executing(row.status) && row.lock.token.Some?
    requires Waits(cfg, row, w.sys.tasks[t].rec.row)
    ensures var w' := Doing(cfg, quota, w, d);
            WorldOk(cfg, w') && t in w'.sys.tasks && Waits(cfg, row, w'.sys.tasks[t].rec.row) && w.sys.nextToken <= w'.sys.nextToken
  {
    hide WorldOk, SysOk, TaskOk, Step, TaskStep, TurnOf, LockAfter, SettledAs, NotYet, LeftAlone, Enabled;
    DoKeeps(cfg, quota, w, d);
    IdleWorld(cfg, w, t);
    Below(cfg, w.sys);
    At(cfg, w.sys, t);
    RecoveringTurn(cfg, quota, w, d, t);
    var turn := TurnOf(cfg, quota, w, d);
    if turn.Some? {
      TasksStay(cfg, w.sys, turn.value);
      if turn.value.On? && turn.value.task == t { RecoveringAction(cfg, w.sys.tasks[t], turn.value.action, row, w.sys.nextToken, w.sys.nextTask); }
    }
  }

  lemma IdleWorld(cfg: Config, w: World, t: TaskId)
    requires WorldOk(cfg, w) && NotYet(w) && t in w.sys.tasks
    ensures SysOk(cfg, w.sys) && w.sys.tasks[t].jobs == map[]
  {
  }

  lemma RecoveringAction(cfg: Config, ts: TaskSys, a: Action, row: Task, drawn: Token, next: TaskId)
    requires TaskOk(cfg, ts, drawn) && Executing(row.status) && row.lock.token.Some? && Waits(cfg, row, ts.rec.row)
    requires Enabled(ts, a) ==> a.CloseOpenRuns? || a.Settle?
    ensures Waits(cfg, row, TaskStep(cfg, ts, a, drawn, next).sys.rec.row)
  {
    if Enabled(ts, a) && a.Settle? {
      hide TaskStep, TaskOk;
      if ts.rec.row == row { SettleEnds(cfg, ts, a.snap, a.checkAlive, a.reason, drawn, next); }
      else { NothingToSettle(cfg, ts, a.snap, a.checkAlive, a.reason, drawn, next); }
    }
  }

  /** The process that holds the lock draws its tokens from where it took it. */
  predicate SinceFrom(w: World, token: Token) {
    token <= w.sys.nextToken && (w.lock.Some? ==> token <= w.lock.value.since)
  }

  lemma SinceStays(cfg: Config, quota: map<string, nat>, w: World, d: Deed, token: Token)
    requires SinceFrom(w, token) && w.sys.nextToken <= Doing(cfg, quota, w, d).sys.nextToken
    ensures SinceFrom(Doing(cfg, quota, w, d), token)
  {
    hide Step, TurnOf, SettleNext, Listed, TotalLoad, Considered;
  }

  lemma {:induction false} RecoveringHistory(cfg: Config, quota: map<string, nat>, w: World, deeds: seq<Deed>, t: TaskId)
    requires WorldOk(cfg, w) && w.lock.None? && t in w.sys.tasks && Executing(w.sys.tasks[t].rec.row.status) && w.sys.tasks[t].rec.row.lock.token.Some?
    requires NobodyActs(deeds, t) && forall i :: 0 <= i < |deeds| ==> NotYet(History(cfg, quota, w, deeds[..i]))
    ensures var w' := History(cfg, quota, w, deeds);
            WorldOk(cfg, w') && t in w'.sys.tasks && Waits(cfg, w.sys.tasks[t].rec.row, w'.sys.tasks[t].rec.row) && SinceFrom(w', w.sys.nextToken)
  {
    hide WorldOk, Doing, NotYet, LeftAlone, SettledAs;
    if deeds != [] {
      hide SinceFrom;
      var n := |deeds| - 1;
      forall i | 0 <= i < n ensures NotYet(History(cfg, quota, w, deeds[..n][..i])) { assert deeds[..n][..i] == deeds[..i]; }
      RecoveringHistory(cfg, quota, w, deeds[..n], t);
      RecoveringDeed(cfg, quota, History(cfg, quota, w, deeds[..n]), deeds[n], t, w.sys.tasks[t].rec.row);
      SinceStays(cfg, quota, History(cfg, quota, w, deeds[..n]), deeds[n], w.sys.nextToken);
    }
  }

  lemma SettledByNow(cfg: Config, w0: World, w: World, t: TaskId)
    requires WorldOk(cfg, w0) && WorldOk(cfg, w) && SinceFrom(w, w0.sys.nextToken) && !NotYet(w)
    requires t in w0.sys.tasks && t in w.sys.tasks && w0.sys.tasks[t].rec.row.lock.token.Some?
    ensures w.sys.tasks[t].rec.row != w0.sys.tasks[t].rec.row
  {
    At(cfg, w0.sys, t);
    assert VersionOk(w0.sys.tasks[t].rec.row, w0.sys.tasks[t].rec.row, w0.sys.nextToken);
  }

  /** In every history: when the first recovery after a crash is over, however often recovering
      processes died before, a task that was executing when nobody held the lock is settled, if nobody
      acted on it meanwhile; so an ordinary step is queued to be run again. */
  lemma {:induction false} RecoverySettles(cfg: Config, quota: map<string, nat>, deeds: seq<Deed>, later: seq<Deed>, t: TaskId)
    requires var w := History(cfg, quota, START, deeds);
             w.lock.None? && t in w.sys.tasks && Executing(w.sys.tasks[t].rec.row.status)
    requires NobodyActs(later, t) && forall i :: 0 <= i < |later| ==> NotYet(History(cfg, quota, History(cfg, quota, START, deeds), later[..i]))
    requires !NotYet(History(cfg, quota, History(cfg, quota, START, deeds), later))
    ensures var w := History(cfg, quota, START, deeds);
            var w' := History(cfg, quota, w, later);
            t in w'.sys.tasks && SettledAs(cfg, w.sys.tasks[t].rec.row, w'.sys.tasks[t].rec.row)
  {
    hide SettledAs, NotYet, SinceFrom, Doing, LeftAlone;
    HistoryOk(cfg, quota, deeds);
    var w := History(cfg, quota, START, deeds);
    RowsFollow(cfg, w.sys);
    hide WorldOk, History;
    RecoveringHistory(cfg, quota, w, later, t);
    SettledByNow(cfg, w, History(cfg, quota, w, later), t);
  }

  // -- reclaims leave the living alone --------------------------------------------------------------------------

  /** What the settler has in mind: the task, and the heartbeat it saw first, once it has read. */
  predicate Saw(w: World, t: TaskId, seen: Option<int>) {
    w.lock.Some? && match w.lock.value.settle
                    case Some(Reading(u, _, _, heartbeat)) => u == t && heartbeat == Some(seen)
                    case Some(Trying(u, _, _, heartbeat, _)) => u == t && heartbeat == Some(seen)
                    case _ => false
  }

  /** It is about to read the task for the first time, and this is the heartbeat it will see. */
  predicate FirstLook(w: World, t: TaskId, seen: Option<int>) {
    && w.lock.Some? && w.lock.value.settle.Some? && w.lock.value.settle.value.Reading?
    && w.lock.value.settle.value.task == t && w.lock.value.settle.value.heartbeat.None?
    && t in w.sys.tasks && w.sys.tasks[t].rec.row.lock.heartbeat == seen
  }

  /** It looked first at deed `i`, and has had the task in mind ever since. */
  ghost predicate SeenAt(cfg: Config, quota: map<string, nat>, deeds: seq<Deed>, i: nat, t: TaskId, seen: Option<int>) {
    i < |deeds| && FirstLook(History(cfg, quota, START, deeds[..i]), t, seen)
    && forall j :: i < j <= |deeds| ==> Saw(History(cfg, quota, START, deeds[..j]), t, seen)
  }

  /** In a reclaim it writes only what it read under the heartbeat it saw first. */
  predicate TriesStill(w: World) {
    w.lock.Some? && w.lock.value.settle.Some? ==>
      match w.lock.value.settle.value
      case Trying(_, checkAlive, _, heartbeat, snap) => heartbeat.Some? && (checkAlive ==> heartbeat == Some(snap.lock.heartbeat))
      case _ => true
  }

  lemma DeedSees(cfg: Config, quota: map<string, nat>, w: World, d: Deed, t: TaskId, seen: Option<int>)
    requires TriesStill(w)
    ensures TriesStill(Doing(cfg, quota, w, d))
    ensures Saw(Doing(cfg, quota, w, d), t, seen) ==> Saw(w, t, seen) || FirstLook(w, t, seen)
  {
    hide Step, TurnOf, Listed, TotalLoad, Considered, DueFailures;
  }

  lemma NobodySeen(t: TaskId, seen: Option<int>)
    ensures TriesStill(START) && !Saw(START, t, seen)
  {
  }

  lemma SeenOn(cfg: Config, quota: map<string, nat>, deeds: seq<Deed>, d: Deed, i: nat, t: TaskId, seen: Option<int>)
    requires SeenAt(cfg, quota, deeds, i, t, seen) && Saw(History(cfg, quota, START, deeds + [d]), t, seen)
    ensures SeenAt(cfg, quota, deeds + [d], i, t, seen)
  {
    hide Saw, FirstLook, History;
    var all := deeds + [d];
    assert all[..i] == deeds[..i] && all[..|all|] == all;
    forall j | i < j <= |all| ensures Saw(History(cfg, quota, START, all[..j]), t, seen) {
      if j <= |deeds| { assert all[..j] == deeds[..j]; } else { assert all[..j] == all; }
    }
  }

  lemma {:induction false} HistorySees(cfg: Config, quota: map<string, nat>, deeds: seq<Deed>, t: TaskId, seen: Option<int>)
    ensures TriesStill(History(cfg, quota, START, deeds))
    ensures Saw(History(cfg, quota, START, deeds), t, seen) ==> exists i: nat :: SeenAt(cfg, quota, deeds, i, t, seen)
  {
    if deeds == [] { NobodySeen(t, seen); }
    else {
      hide Doing, TriesStill, Saw, FirstLook;
      var n := |deeds| - 1;
      var w := History(cfg, quota, START, deeds[..n]);
      HistorySees(cfg, quota, deeds[..n], t, seen);
      DeedSees(cfg, quota, w, deeds[n], t, seen);
      if Saw(History(cfg, quota, START, deeds), t, seen) {
        assert deeds[..n] + [deeds[n]] == deeds && deeds[..|deeds|] == deeds;
        if Saw(w, t, seen) {
          var i: nat :| SeenAt(cfg, quota, deeds[..n], i, t, seen);
          SeenOn(cfg, quota, deeds[..n], deeds[n], i, t, seen);
        } else {
          assert SeenAt(cfg, quota, deeds, n, t, seen);
        }
      }
    }
  }

  /** In every history: a task the scheduler reclaims had not sent a heartbeat since the reclaim first
      looked at it, however many of its writes failed in between. */
  lemma {:induction false} OnlyStill(cfg: Config, quota: map<string, nat>, deeds: seq<Deed>, d: Deed, t: TaskId)
    requires var w := History(cfg, quota, START, deeds);
             && w.lock.Some? && w.lock.value.phase.Reclaiming? && d.Schedule? && t in w.sys.tasks && w.sys.tasks[t].rec.row.lock.token.Some?
             && t in Doing(cfg, quota, w, d).sys.tasks && Doing(cfg, quota, w, d).sys.tasks[t].rec.row.lock.token.None?
    ensures exists i: nat :: SeenAt(cfg, quota, deeds, i, t, History(cfg, quota, START, deeds).sys.tasks[t].rec.row.lock.heartbeat)
  {
    var w := History(cfg, quota, START, deeds);
    var seen := w.sys.tasks[t].rec.row.lock.heartbeat;
    HistoryOk(cfg, quota, deeds);
    HistorySees(cfg, quota, deeds, t, seen);
    hide History, SeenAt, Doing;
    ReclaimSaw(cfg, quota, w, d, t);
  }

  lemma ReclaimSaw(cfg: Config, quota: map<string, nat>, w: World, d: Deed, t: TaskId)
    requires WorldOk(cfg, w) && TriesStill(w) && d.Schedule?
    requires w.lock.Some? && w.lock.value.phase.Reclaiming? && t in w.sys.tasks && w.sys.tasks[t].rec.row.lock.token.Some?
    requires t in Doing(cfg, quota, w, d).sys.tasks && Doing(cfg, quota, w, d).sys.tasks[t].rec.row.lock.token.None?
    ensures Saw(w, t, w.sys.tasks[t].rec.row.lock.heartbeat)
  {
    hide WorldOk, SysOk, TaskOk, Step, TaskStep, ExecOk, SchedNext, SettledAs, Considered;
    SettlesAlive(cfg, w);
    At(cfg, w.sys, t);
    Below(cfg, w.sys);
    var turn := SchedTurn(cfg, quota, w, w.lock.value, d.inp);
    if turn.Some? {
      TasksStay(cfg, w.sys, turn.value);
      var ts := w.sys.tasks[t];
      if turn.value.On? && turn.value.task == t {
        var a := turn.value.action;
        ClosesOnly(cfg, ts, a, w.sys.nextToken, w.sys.nextTask);
        if a.Settle? && Enabled(ts, a) { SettleEnds(cfg, ts, a.snap, a.checkAlive, a.reason, w.sys.nextToken, w.sys.nextTask); }
      }
    }
  }

  lemma ClosesOnly(cfg: Config, ts: TaskSys, a: Action, drawn: Token, next: TaskId)
    ensures a.CloseOpenRuns? || !Enabled(ts, a) ==> TaskStep(cfg, ts, a, drawn, next).sys.rec.row == ts.rec.row
  {
  }

  /** A settling under way in a reclaim checks for life. */
  lemma SettlesAlive(cfg: Config, w: World)
    requires WorldOk(cfg, w) && w.lock.Some? && w.lock.value.phase.Reclaiming?
    ensures SysOk(cfg, w.sys)
    ensures var st := w.lock.value.settle; st.Some? && st.value.Trying? ==> st.value.checkAlive
  {
  }
}
