/** What users, claimants, heartbeats and clients of work items may do to a task, and what it makes
    of it: when each request is legal, and every column it changes. */
module Requests {
  import opened Models
  import opened Records
  import opened StateMachine
  import opened Worker
  import opened Protocol
  import opened Invariant
  import opened InvariantProof
  import opened Safety

  // -- user requests ------------------------------------------------------------------------------------------

  /** The states a request is allowed in. */
  predicate Allowed(steps: seq<string>, rec: Record, req: Request) {
    var row := rec.row;
    match req
    case Pause => row.status in {Queued, Running}
    case Terminate => row.status !in {Completed, PartiallyCompleted, Terminated}
    case Resume => row.status.Paused?
    case Retry => row.status in {Failed, ManualRequired}
    case Approve => row.status.AwaitingApproval? && row.grant.Asked? && row.grant.step == row.step
    case Reject(_) => row.status.AwaitingApproval?
    case Wake => row.status.Queued? && row.nextRetryAt.Some?
    case SetStep(step, force) =>
      step in steps && row.status in (if force then {Queued, Paused, Failed, ManualRequired} else {Failed, ManualRequired})
    case Submit(i, token) =>
      row.status.AwaitingExternal? && i < |rec.items| && rec.items[i].step == row.step && rec.items[i].status.Claimed? && rec.items[i].claim == Some(token)
    case SetRetries(max) => max >= 0
  }

  /** What an accepted request makes of the row. `read`: the row it was decided from. */
  predicate Granted1(row: Task, read: Task, req: Request, row': Task) {
    match req
    case Pause =>
      if row.status.Running? then row' == row.(status := PausePending, pauseRequested := true)
      else row' == row.(status := Paused, nextRetryAt := None)
    case Terminate =>
      if row.status in {Running, PausePending} then row' == row.(terminateRequested := true)
      else row' == row.(status := Terminated, nextRetryAt := None)
    case Resume => row' == row.(status := Queued, pauseRequested := false, nextRetryAt := None)
    case Retry => row' == row.(status := Queued, lastError := None, nextRetryAt := None)
    case Approve => read.grant.Asked? && row' == row.(status := Queued, grant := Granted(read.grant.step, read.grant.attempt))
    case Reject(why) => row' == row.(status := ManualRequired, grant := NoGrant, lastError := Some(why))
    case Wake => row' == row.(nextRetryAt := None)
    case SetStep(step, _) => row' == row.(step := step, grant := NoGrant)
    case Submit(_, _) => row' == row.(status := Queued, lastError := None)
    case SetRetries(max) => row' == row.(maxRetries := max, retryCount := 0)
  }

  /** A submission is the one item a request changes; ending a task or moving it cancels the item it
      leaves behind, and nothing else happens to items. */
  predicate ItemsAfter(rec: Record, req: Request, rec': Record) {
    && |rec'.items| == |rec.items|
    && forall i :: 0 <= i < |rec.items| ==>
         rec'.items[i] ==
           if req.Submit? && req.item == i then rec.items[i].(status := ItemStatus.Submitted)
           else if Active(rec.items[i].status)
                 && ((Terminal(rec'.row.status) && !Terminal(rec.row.status)) || (req.SetStep? && rec.items[i].step != req.step))
           then rec.items[i].(status := Cancelled)
           else rec.items[i]
  }

  function Asked1(cfg: Config, ts: TaskSys, read: Task, req: Request, drawn: Token, next: TaskId): Record {
    TaskStep(cfg, ts, User(read, req), drawn, next).sys.rec
  }

  /** With a current read a request is accepted exactly where it is allowed; and whatever it read, an
      accepted one changes exactly these columns and items, and a refused one nothing at all. */
  lemma RequestEnds(cfg: Config, ts: TaskSys, read: Task, req: Request, drawn: Token, next: TaskId)
    requires TaskOk(cfg, ts, drawn) && read in ts.past
    ensures var rec, rec' := ts.rec, Asked1(cfg, ts, read, req, drawn, next);
            && (read == rec.row ==> (rec' != rec <==> Allowed(Steps(cfg, rec.row.workflow), rec, req)))
            && (rec' != rec ==>
                  && Granted1(rec.row, read, req, rec'.row) && ItemsAfter(rec, req, rec')
                  && rec'.runs == rec.runs && rec'.spawns == rec.spawns && |rec'.events| > |rec.events| && rec'.events[..|rec.events|] == rec.events)
  {
    RequestFacts(cfg, ts, read, drawn);
    hide TaskOk, UserRound, Allowed, Granted1, ItemsAfter;
    RequestRound(Steps(cfg, ts.rec.row.workflow), ts.rec, read, req, next);
  }

  lemma RequestFacts(cfg: Config, ts: TaskSys, read: Task, drawn: Token)
    requires TaskOk(cfg, ts, drawn) && read in ts.past
    ensures ts.rec.row.terminateRequested ==> Executing(ts.rec.row.status)
  {
  }

  function ItemStep(rec: Record, req: Request): Option<string> {
    if req.Submit? && req.item < |rec.items| then Some(rec.items[req.item].step) else None
  }

  lemma RequestRound(steps: seq<string>, rec: Record, read: Task, req: Request, next: TaskId)
    ensures var tx := UserRound(steps, rec, read, req, next);
            && (read == rec.row ==> (tx.Committed? <==> Allowed(steps, rec, req)))
            && (tx.Committed? ==>
                  && Granted1(rec.row, read, req, tx.rec.row) && ItemsAfter(rec, req, tx.rec)
                  && tx.rec.runs == rec.runs && tx.rec.spawns == rec.spawns
                  && |tx.rec.events| > |rec.events| && tx.rec.events[..|rec.events|] == rec.events)
  {
    hide Decide, Allowed, Granted1, ItemsAfter, Cancelling, ChangeItem, Put, Left;
    var d := Decide(steps, read, req, ItemStep(rec, req));
    if read == rec.row { DecideLegal(steps, rec, req); }
    if d.Do? && rec.row.status == read.status {
      DecideRow(steps, rec.row, read, req, ItemStep(rec, req));
      if UserRound(steps, rec, read, req, next).Committed? { DecideItems(steps, rec, read, req, UserRound(steps, rec, read, req, next).rec); }
    }
  }

  lemma DecideLegal(steps: seq<string>, rec: Record, req: Request)
    ensures var d := Decide(steps, rec.row, req, ItemStep(rec, req));
            Allowed(steps, rec, req) <==> d.Do? && ChangeItem(rec.items, rec.row.step, d.item).Some?
  {
  }

  lemma DecideRow(steps: seq<string>, row: Task, read: Task, req: Request, itemStep: Option<string>)
    requires row.status == read.status && Decide(steps, read, req, itemStep).Do?
    ensures var d := Decide(steps, read, req, itemStep);
            Granted1(row, read, req, Put(row, d.decision.patch)) && |d.decision.events| > 0
  {
  }

  lemma DecideItems(steps: seq<string>, rec: Record, read: Task, req: Request, rec': Record)
    requires rec.row.status == read.status
    requires var d := Decide(steps, read, req, ItemStep(rec, req));
             && d.Do? && ChangeItem(rec.items, read.step, d.item).Some? && rec'.row == Put(rec.row, d.decision.patch)
             && rec'.items == Cancelling(ChangeItem(rec.items, read.step, d.item).value, Left(d.decision.patch))
    ensures ItemsAfter(rec, req, rec')
  {
  }

  // -- claims and heartbeats ----------------------------------------------------------------------------------------

  /** A claim wins exactly if the task is queued; then the task runs under the new claim, whose owner,
      time and first heartbeat are written with it, its waiting time is over, and nothing else has
      changed. A claim that does not win changes nothing. */
  lemma ClaimEnds(cfg: Config, ts: TaskSys, read: Task, worker: string, now: int, drawn: Token, next: TaskId)
    requires TaskOk(cfg, ts, drawn) && read in ts.past
    ensures var ts' := TaskStep(cfg, ts, Claim(read, worker, now), drawn, next).sys;
            if ts.rec.row.status.Queued? then
              && ts'.rec.row == ts.rec.row.(status := Running, lock := Lock(Some(worker), Some(now), Some(now), Some(drawn)), nextRetryAt := None)
              && ts'.rec == ts.rec.(row := ts'.rec.row, events := ts.rec.events + [Event(ClaimedEvent, read.step)])
              && ts'.jobs == ts.jobs[drawn := Fresh]
            else ts'.rec == ts.rec && ts'.jobs == ts.jobs
  {
    assert RowOk(cfg, read) && RowOk(cfg, ts.rec.row);
    hide TaskOk, RunHooks;
  }

  /** A heartbeat of the holder of the claim moves the heartbeat, and the progress if it brings one;
      anybody else's changes nothing. */
  lemma BeatEnds(cfg: Config, ts: TaskSys, token: Token, now: int, progress: Write<Option<string>>, drawn: Token, next: TaskId)
    requires TaskOk(cfg, ts, drawn) && token in ts.jobs
    ensures var rec' := TaskStep(cfg, ts, Beat(token, now, progress), drawn, next).sys.rec;
            rec' == if !Current(ts.rec, token) then ts.rec
                    else ts.rec.(row := ts.rec.row.(lock := ts.rec.row.lock.(heartbeat := Some(now)),
                                                    progress := if progress.Set? then progress.value else ts.rec.row.progress))
  {
    assert RowOk(cfg, ts.rec.row);
    hide TaskOk;
  }

  // -- clients of work items ------------------------------------------------------------------------------------------

  /** Taking an item succeeds exactly if it is open (and then its task waits for it); it is the
      client's alone. */
  lemma TakeEnds(cfg: Config, ts: TaskSys, i: ItemId, client: Token, drawn: Token, next: TaskId)
    requires TaskOk(cfg, ts, drawn)
    ensures var rec, rec' := ts.rec, TaskStep(cfg, ts, TakeItem(i, client), drawn, next).sys.rec;
            if i < |rec.items| && rec.items[i].status.Open? then
              && rec.row.status.AwaitingExternal?
              && rec' == rec.(items := rec.items[i := rec.items[i].(status := ItemStatus.Claimed, claim := Some(client))],
                              events := rec.events + [Event(ItemClaimed, rec.items[i].step)])
            else rec' == rec
  {
    assert ItemsOk(ts.rec);
    hide TaskOk;
  }

  /** Giving it back succeeds exactly for the client that has it, or an operator. */
  lemma GiveEnds(cfg: Config, ts: TaskSys, i: ItemId, holder: Option<Token>, drawn: Token, next: TaskId)
    requires TaskOk(cfg, ts, drawn)
    ensures var rec, rec' := ts.rec, TaskStep(cfg, ts, GiveItem(i, holder), drawn, next).sys.rec;
            if i < |rec.items| && rec.items[i].status.Claimed? && (holder.None? || rec.items[i].claim == holder) then
              rec' == rec.(items := rec.items[i := rec.items[i].(status := Open, claim := None)],
                           events := rec.events + [Event(ItemReleased, rec.items[i].step)])
            else rec' == rec
  {
    hide TaskOk;
  }

  // -- items, over whole runs -----------------------------------------------------------------------------------------

  /** Items are never removed, renumbered or moved to another step; and an item once closed stays as
      it was closed. */
  predicate Lasting(items: seq<Item>, items': seq<Item>) {
    && |items| <= |items'|
    && forall i :: 0 <= i < |items| ==>
         && items'[i].step == items[i].step && items'[i].attempt == items[i].attempt && items'[i].maxAttempts == items[i].maxAttempts
         && items'[i].previousError == items[i].previousError
         && (!Active(items[i].status) ==> items'[i] == items[i])
  }

  lemma HooksLast(items: seq<Item>, step: string, c: ItemChange, left: Cancel)
    ensures ChangeItem(items, step, c).Some? ==> Lasting(items, Cancelling(ChangeItem(items, step, c).value, left))
  {
  }

  lemma MoveLasts(rec: Record, from: Status, q: Require, d: Decision, step: string, item: ItemChange,
                  plan: Option<SpawnPlan>, spawn: bool, next: TaskId)
    ensures Lasting(rec.items, After(rec, Move(rec, from, q, d, step, item, plan, spawn, next)).items)
  {
    HooksLast(rec.items, step, item, Left(d.patch));
    LastsSame(rec.items);
    hide Holds, Put, ChangeItem, Cancelling, Left, SpawnAll, Lasting;
  }

  lemma LastsSame(items: seq<Item>)
    ensures Lasting(items, items)
  {
  }

  lemma LastsOn(a: seq<Item>, b: seq<Item>, c: seq<Item>)
    requires Lasting(a, b) && Lasting(b, c)
    ensures Lasting(a, c)
  {
  }

  lemma FinishLasts(cfg: Config, rec: Record, token: Token, snap: Task, o: Outcome, inp: Input, next: TaskId)
    ensures Lasting(rec.items, Finish(cfg, rec, token, snap, o, inp, next).rec.items)
  {
    hide Move, Boundary, BoundaryItem, Spawns, Lasting;
    LastsSame(rec.items);
    var steps := Steps(cfg, rec.row.workflow);
    var read := inp.row;
    var d := Boundary(steps, read, o, read.terminateRequested, read.pauseRequested, inp.seenDegraded, inp.now);
    if d.Some? {
      MoveLasts(rec, read.status, BoundaryRequire(read, token), d.value, read.step, BoundaryItem(o, d.value.patch), PlanOf(o), Spawns(o, d.value.patch), next);
    }
  }

  lemma UserLasts(steps: seq<string>, rec: Record, read: Task, req: Request, next: TaskId)
    ensures Lasting(rec.items, After(rec, UserRound(steps, rec, read, req, next)).items)
  {
    hide Move, Decide, Lasting;
    LastsSame(rec.items);
    var d := Decide(steps, read, req, ItemStep(rec, req));
    if d.Do? { MoveLasts(rec, read.status, ANYTHING, d.decision, read.step, d.item, None, false, next); }
  }

  lemma SkipLasts(steps: seq<string>, rec: Record, read: Task, seen: bool, next: TaskId)
    ensures Lasting(rec.items, SkipRound(steps, rec, read, seen, next).items)
  {
    hide Move, Lasting;
    LastsSame(rec.items);
    var q := ANYTHING.(step := Set(read.step));
    match Next(steps, read.step)
    case Advance(to) => MoveLasts(rec, Queued, q, Decision(NOTHING.(step := Set(to)), [Event(StepCompleted, read.step)]), read.step, NoItem, None, false, next);
    case _ => MoveLasts(rec, Queued, q, Decision(NOTHING.(status := Set(FinalStatus(false, seen))), [Event(CompletedEvent, read.step)]), read.step, NoItem, None, false, next);
  }

  lemma SchedulerLasts(cfg: Config, ts: TaskSys, a: Action, drawn: Token, next: TaskId)
    requires Enabled(ts, a) && (a.Claim? || a.Settle? || a.Requeue?)
    ensures Lasting(ts.rec.items, TaskStep(cfg, ts, a, drawn, next).sys.rec.items)
  {
    hide Move, Lasting;
    var rec := ts.rec;
    LastsSame(rec.items);
    match a
    case Claim(snap, _, _) =>
      MoveLasts(rec, Queued, ANYTHING.(terminate := Set(true)),
        Decision(RELEASE.(status := Set(Terminated), terminate := Set(false)), [Event(TerminatedEvent, snap.step)]), snap.step, NoItem, None, false, next);
    case Settle(snap, checkAlive, reason) =>
      MoveLasts(rec, snap.status, SettleRequire(snap, checkAlive), SettleDecision(snap, NoRetry(cfg, snap.step), reason), snap.step, NoItem, None, false, next);
    case Requeue(snap) =>
      MoveLasts(rec, Failed, ANYTHING, Decision(NOTHING.(status := Set(Queued), nextRetryAt := Set(None)), [Event(RetryEvent, snap.step)]), snap.step, NoItem, None, false, next);
    case _ =>
  }

  lemma ActionLasts(cfg: Config, ts: TaskSys, a: Action, drawn: Token, next: TaskId)
    ensures Lasting(ts.rec.items, TaskStep(cfg, ts, a, drawn, next).sys.rec.items)
  {
    LastsSame(ts.rec.items);
    if Enabled(ts, a) {
      match a
      case Work(token, inp) =>
        if ts.jobs[token].Finishing? {
          FinishLasts(cfg, ts.rec, token, ts.jobs[token].snap, ts.jobs[token].outcome, inp, next);
          hide Finish, Lasting;
        } else {
          ProgramWrites(cfg, ts.rec, token, ts.jobs[token], inp, next);
          hide JobStep, Lasting;
        }
      case User(snap, req) =>
        UserLasts(Steps(cfg, ts.rec.row.workflow), ts.rec, snap, req, next);
        hide UserRound, After, Lasting;
      case Skip(snap, seen) =>
        SkipLasts(Steps(cfg, ts.rec.row.workflow), ts.rec, snap, seen, next);
        hide SkipRound, Lasting;
      case Claim(_, _, _) => SchedulerLasts(cfg, ts, a, drawn, next);
      case Settle(_, _, _) => SchedulerLasts(cfg, ts, a, drawn, next);
      case Requeue(_) => SchedulerLasts(cfg, ts, a, drawn, next);
      case TakeItem(i, client) => hide Enabled;
      case GiveItem(i, holder) => hide Enabled;
      case _ =>
    }
  }

  lemma TurnLasts(cfg: Config, s: Sys, m: Turn, t: TaskId)
    requires SysOk(cfg, s) && t in s.tasks
    ensures SysOk(cfg, Step(cfg, s, m)) && t in Step(cfg, s, m).tasks && Lasting(s.tasks[t].rec.items, Step(cfg, s, m).tasks[t].rec.items)
  {
    hide SysOk, Step, TaskStep, Lasting;
    StepKeeps(cfg, s, m);
    Below(cfg, s);
    TasksStay(cfg, s, m);
    LastsSame(s.tasks[t].rec.items);
    if m.On? && m.task == t { ActionLasts(cfg, s.tasks[t], m.action, s.nextToken, s.nextTask); }
  }

  /** In every run from a good state the items of a task only accumulate, keep what they are, and stay
      closed as they were closed. */
  lemma {:induction false} ItemsLast(cfg: Config, s: Sys, moves: seq<Turn>, t: TaskId)
    requires SysOk(cfg, s) && t in s.tasks
    ensures var s' := Play(cfg, s, moves);
            SysOk(cfg, s') && t in s'.tasks && Lasting(s.tasks[t].rec.items, s'.tasks[t].rec.items)
  {
    hide SysOk, Step, Lasting;
    LastsSame(s.tasks[t].rec.items);
    if moves != [] {
      var n := |moves| - 1;
      ItemsLast(cfg, s, moves[..n], t);
      TurnLasts(cfg, Play(cfg, s, moves[..n]), moves[n], t);
      LastsOn(s.tasks[t].rec.items, Play(cfg, s, moves[..n]).tasks[t].rec.items, Play(cfg, s, moves).tasks[t].rec.items);
    }
  }
}
