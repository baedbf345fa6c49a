/** Left to itself a task makes progress: it is claimed no more often than its steps and its
    retry budget allow. */
module Progress {
  import opened Models
  import opened Records
  import opened StateMachine
  import opened Worker
  import opened Protocol
  import opened Invariant
  import opened InvariantProof
  import opened Safety

  predicate Distinct(steps: seq<string>) {
    forall i, j :: 0 <= i < j < |steps| ==> steps[i] != steps[j]
  }

  function Spare(row: Task): nat {
    if row.maxRetries > row.retryCount then row.maxRetries - row.retryCount else 0
  }

  /** How many more claims a task can see. */
  function Budget(steps: seq<string>, row: Task): nat {
    var left := |steps| - IndexOf(steps, row.step);
    if row.status.Queued? || row.status.Failed? then left + Spare(row) + 1
    else if Executing(row.status) then left + Spare(row)
    else 0
  }

  /** No user action, no settling, no deferral, no rejection, nobody rewrites the retry limit. */
  predicate Orderly(ts: TaskSys, a: Action) {
    match a
    case User(_, _) => false
    case Settle(_, _, _) => false
    case Tune(u) => u.maxRetries.Keep?
    case Work(token, _) => token in ts.jobs ==> OrderlyJob(ts.jobs[token])
    case _ => true
  }

  predicate OrderlyJob(pc: PC) {
    match pc
    case Updating(_, _, _, _, u) => u.maxRetries.Keep?
    case Finishing(_, o) => !o.Defer? && !o.Rejection? && (PlanOf(o).Some? ==> PlanOf(o).value.updates.maxRetries.Keep?)
    case _ => true
  }

  /** The row carries a claim it did not carry before. */
  predicate NewClaim(row: Task, row': Task) {
    row'.lock.token.Some? && row'.lock.token != row.lock.token
  }

  function ClaimOf(row: Task, row': Task): nat {
    if NewClaim(row, row') then 1 else 0
  }

  // -- where the successor rule leads ----------------------------------------------------------------

  /** Every name after the first position of `s` is new there. */
  predicate Straight(steps: seq<string>, s: string) {
    forall k :: IndexOf(steps, s) < k < |steps| ==> steps[k] !in steps[..k]
  }

  /** The step a task is on after it has advanced `n` times, if it gets that far. */
  function Reached(steps: seq<string>, s: string, n: nat): Option<string> {
    if n == 0 then if s in steps then Some(s) else None
    else
      var u := Reached(steps, s, n - 1);
      if u.Some? && Next(steps, u.value).Advance? then Some(Next(steps, u.value).step) else None
  }

  predicate DoneAfter(steps: seq<string>, s: string, n: nat) {
    Reached(steps, s, n).Some? && Next(steps, Reached(steps, s, n).value).Done?
  }

  /** Advancing from `s` comes to the end of the workflow. */
  ghost predicate Finishes(steps: seq<string>, s: string) {
    exists n: nat :: DoneAfter(steps, s, n)
  }

  lemma {:induction false} FirstIndex(steps: seq<string>, i: nat)
    requires i < |steps|
    ensures IndexOf(steps, steps[i]) <= i
    ensures steps[i] !in steps[..i] ==> IndexOf(steps, steps[i]) == i
  {
    var j := IndexOf(steps, steps[i]);
    assert j < i ==> j < |steps[..i]| && steps[..i][j] == steps[i];
  }

  /** On a straight course each step is one further, and the course stays straight. */
  lemma NextIndex(steps: seq<string>, s: string)
    requires Straight(steps, s) && Next(steps, s).Advance?
    ensures IndexOf(steps, Next(steps, s).step) == IndexOf(steps, s) + 1 <= |steps|
    ensures Straight(steps, Next(steps, s).step)
  {
    FirstIndex(steps, IndexOf(steps, s) + 1);
  }

  lemma {:induction false} StraightReaches(steps: seq<string>, s: string, n: nat)
    requires s in steps && Straight(steps, s) && IndexOf(steps, s) + n < |steps|
    ensures Reached(steps, s, n) == Some(steps[IndexOf(steps, s) + n])
    ensures IndexOf(steps, steps[IndexOf(steps, s) + n]) == IndexOf(steps, s) + n
  {
    hide IndexOf;
    if n > 0 {
      StraightReaches(steps, s, n - 1);
      FirstIndex(steps, IndexOf(steps, s) + n);
    }
  }

  /** A name that occurred before sends the task back: it never passes position `k`. */
  lemma {:induction false} SentBack(steps: seq<string>, s: string, k: nat, n: nat)
    requires s in steps && IndexOf(steps, s) < k < |steps| && steps[k] in steps[..k]
    ensures Reached(steps, s, n).Some? && IndexOf(steps, Reached(steps, s, n).value) < k
  {
    if n > 0 {
      SentBack(steps, s, k, n - 1);
      var i := IndexOf(steps, Reached(steps, s, n - 1).value);
      FirstIndex(steps, i + 1);
      if i + 1 == k {
        var j :| 0 <= j < k && steps[..k][j] == steps[k];
        FirstIndex(steps, j);
      }
    }
  }

  /** Advancing from `s` finishes the workflow if and only if every name after its first position
      is new; otherwise it goes round for ever. */
  lemma FinishesIff(steps: seq<string>, s: string)
    ensures Finishes(steps, s) <==> s in steps && Straight(steps, s)
    ensures s in steps && !Finishes(steps, s) ==> forall n: nat :: Reached(steps, s, n).Some?
  {
    if s in steps && Straight(steps, s) {
      var n := |steps| - 1 - IndexOf(steps, s);
      StraightReaches(steps, s, n);
      assert DoneAfter(steps, s, n);
    } else if s in steps {
      var k :| IndexOf(steps, s) < k < |steps| && steps[k] in steps[..k];
      forall n: nat ensures Reached(steps, s, n).Some? && !DoneAfter(steps, s, n) { SentBack(steps, s, k, n); }
    } else {
      forall n: nat ensures !DoneAfter(steps, s, n) { NowhereElse(steps, s, n); }
    }
  }

  lemma {:induction false} NowhereElse(steps: seq<string>, s: string, n: nat)
    requires s !in steps
    ensures Reached(steps, s, n).None?
  {
    if n > 0 { NowhereElse(steps, s, n - 1); }
  }

  /** From the first step: if and only if no name occurs twice. */
  lemma FirstFinishesIff(steps: seq<string>)
    requires steps != []
    ensures Finishes(steps, steps[0]) <==> Distinct(steps)
  {
    FinishesIff(steps, steps[0]);
    FirstIndex(steps, 0);
    if Straight(steps, steps[0]) {
      forall i, j | 0 <= i < j < |steps| ensures steps[i] != steps[j] { assert steps[..j][i] == steps[i]; }
    }
    if Distinct(steps) {
      forall k | 0 < k < |steps| ensures steps[k] !in steps[..k] {}
    }
  }

  /** A boundary never adds to the budget. */
  lemma BoundaryBudget(steps: seq<string>, row: Task, o: Outcome, seen: bool, now: int)
    requires Straight(steps, row.step) && Executing(row.status) && !o.Defer? && !o.Rejection?
    requires Boundary(steps, row, o, row.terminateRequested, row.pauseRequested, seen, now).Some?
    ensures Budget(steps, Put(row, Boundary(steps, row, o, row.terminateRequested, row.pauseRequested, seen, now).value.patch))
         <= Budget(steps, row)
    ensures Straight(steps, Put(row, Boundary(steps, row, o, row.terminateRequested, row.pauseRequested, seen, now).value.patch).step)
  {
    if Next(steps, row.step).Advance? { NextIndex(steps, row.step); }
  }

  lemma FinishBudget(cfg: Config, rec: Record, token: Token, read: Task, o: Outcome, seen: bool, now: int, bound: Token, next: TaskId)
    requires RecordOk(cfg, rec) && VersionOk(rec.row, read, bound) && Straight(Steps(cfg, rec.row.workflow), rec.row.step)
    requires !o.Defer? && !o.Rejection? && (PlanOf(o).Some? ==> PlanOf(o).value.updates.maxRetries.Keep?)
    ensures var steps := Steps(cfg, rec.row.workflow);
            var r := FinishRound(steps, rec, token, read, o, seen, now, next);
            r.Tried? && r.tx.Committed? ==>
              Budget(steps, r.tx.rec.row) <= Budget(steps, rec.row) && Straight(steps, r.tx.rec.row.step) && r.tx.rec.row.lock.token.None?
  {
    var steps := Steps(cfg, rec.row.workflow);
    var r := FinishRound(steps, rec, token, read, o, seen, now, next);
    if r.Tried? && r.tx.Committed? {
      FinishRow(steps, rec, token, read, o, seen, now, next);
      BoundaryBudget(steps, read, o, seen, now);
      SameBudget(steps, rec.row, read, Boundary(steps, read, o, read.terminateRequested, read.pauseRequested, seen, now).value.patch);
    }
  }

  /** The row a committed boundary writes. */
  lemma FinishRow(steps: seq<string>, rec: Record, token: Token, read: Task, o: Outcome, seen: bool, now: int, next: TaskId)
    requires FinishRound(steps, rec, token, read, o, seen, now, next).Tried?
    requires FinishRound(steps, rec, token, read, o, seen, now, next).tx.Committed?
    ensures var d := Boundary(steps, read, o, read.terminateRequested, read.pauseRequested, seen, now);
            var row' := FinishRound(steps, rec, token, read, o, seen, now, next).tx.rec.row;
            && d.Some? && Holder(read, token) && rec.row.status == read.status && Holds(rec.row, BoundaryRequire(read, token))
            && row' == if PlanOf(o).Some? then PutUpdates(Put(rec.row, d.value.patch), PlanOf(o).value.updates) else Put(rec.row, d.value.patch)
  {
    hide Boundary, BoundaryItem, Spawns, ChangeItem, SpawnAll, Cancelling, CloseOpenRun, Put, PutUpdates, BoundaryRequire, Holds;
  }

  lemma SameBudget(steps: seq<string>, row: Task, read: Task, p: Patch)
    requires row.status == read.status && row.step == read.step && row.retryCount == read.retryCount && row.maxRetries == read.maxRetries
    requires p.maxRetries.Keep?
    ensures Budget(steps, Put(row, p)) == Budget(steps, Put(read, p)) && Budget(steps, row) == Budget(steps, read) && Put(row, p).step == Put(read, p).step
  {
  }

  lemma ReadFacts(cfg: Config, ts: TaskSys, read: Task, drawn: Token)
    requires TaskOk(cfg, ts, drawn) && read in ts.past
    ensures RecordOk(cfg, ts.rec) && VersionOk(ts.rec.row, read, drawn)
  {
    hide RecordOk, VersionOk, ReleasedOk, JobsOk;
  }

  lemma WorkBudget(cfg: Config, ts: TaskSys, token: Token, inp: Input, drawn: Token, next: TaskId)
    requires TaskOk(cfg, ts, drawn) && Enabled(ts, Work(token, inp)) && Orderly(ts, Work(token, inp))
    requires Straight(Steps(cfg, ts.rec.row.workflow), ts.rec.row.step)
    ensures var steps := Steps(cfg, ts.rec.row.workflow);
            var row' := JobStep(cfg, ts.rec, token, ts.jobs[token], inp, next).rec.row;
            Budget(steps, row') <= Budget(steps, ts.rec.row) && Straight(steps, row'.step) && !NewClaim(ts.rec.row, row')
  {
    var pc := ts.jobs[token];
    ReadFacts(cfg, ts, inp.row, drawn);
    hide TaskOk, RecordOk, VersionOk, Budget, Straight, Steps, OrderlyJob, JobStep;
    if pc.Finishing? { FinishingBudget(cfg, ts.rec, token, pc, inp, drawn, next); }
    else { ProgramBudget(cfg, ts.rec, token, pc, inp, next); }
  }

  lemma ProgramBudget(cfg: Config, rec: Record, token: Token, pc: PC, inp: Input, next: TaskId)
    requires !pc.Finishing? && OrderlyJob(pc)
    ensures var steps := Steps(cfg, rec.row.workflow);
            var row' := JobStep(cfg, rec, token, pc, inp, next).rec.row;
            Budget(steps, row') == Budget(steps, rec.row) && row'.step == rec.row.step && row'.lock == rec.row.lock
  {
    ProgramWrites(cfg, rec, token, pc, inp, next);
    hide Steps;
  }

  lemma FinishingBudget(cfg: Config, rec: Record, token: Token, pc: PC, inp: Input, drawn: Token, next: TaskId)
    requires RecordOk(cfg, rec) && VersionOk(rec.row, inp.row, drawn) && Straight(Steps(cfg, rec.row.workflow), rec.row.step)
    requires pc.Finishing? && OrderlyJob(pc)
    ensures var steps := Steps(cfg, rec.row.workflow);
            var row' := JobStep(cfg, rec, token, pc, inp, next).rec.row;
            Budget(steps, row') <= Budget(steps, rec.row) && Straight(steps, row'.step) && !NewClaim(rec.row, row')
  {
    FinishBudget(cfg, rec, token, inp.row, pc.outcome, inp.seenDegraded, inp.now, drawn, next);
    hide FinishRound, RecordOk, VersionOk, Budget, Straight, Steps, PlanOf;
  }

  lemma SkipBudget(cfg: Config, rec: Record, snap: Task, seen: bool, next: TaskId)
    requires Straight(Steps(cfg, rec.row.workflow), rec.row.step)
    ensures var steps := Steps(cfg, rec.row.workflow);
            var row' := SkipRound(steps, rec, snap, seen, next).row;
            Budget(steps, row') <= Budget(steps, rec.row) && Straight(steps, row'.step) && row'.lock == rec.row.lock
  {
    var steps := Steps(cfg, rec.row.workflow);
    if snap.step == rec.row.step && Next(steps, snap.step).Advance? { NextIndex(steps, snap.step); }
  }

  lemma ClaimBudget(cfg: Config, rec: Record, snap: Task, worker: string, now: int, drawn: Token, next: TaskId)
    requires RecordOk(cfg, rec)
    ensures var steps := Steps(cfg, rec.row.workflow);
            var row' := ClaimRound(rec, snap, worker, now, drawn, next).0.row;
            Budget(steps, row') + ClaimOf(rec.row, row') <= Budget(steps, rec.row) && row'.step == rec.row.step
  {
    hide AttemptsOk, ItemsOk, GrantOk, IndexOf;
  }

  lemma SmallBudget(cfg: Config, ts: TaskSys, a: Action, drawn: Token, next: TaskId)
    requires Enabled(ts, a) && Orderly(ts, a) && !a.Work? && !a.Claim? && !a.Skip?
    ensures var steps := Steps(cfg, ts.rec.row.workflow);
            var row' := Act(cfg, ts, a, drawn, next).rec.row;
            Budget(steps, row') + ClaimOf(ts.rec.row, row') <= Budget(steps, ts.rec.row) && row'.step == ts.rec.row.step
  {
    hide IndexOf;
  }

  lemma StepBudget(cfg: Config, ts: TaskSys, a: Action, drawn: Token, next: TaskId)
    requires TaskOk(cfg, ts, drawn) && Orderly(ts, a) && Straight(Steps(cfg, ts.rec.row.workflow), ts.rec.row.step)
    ensures var steps := Steps(cfg, ts.rec.row.workflow);
            var row' := TaskStep(cfg, ts, a, drawn, next).sys.rec.row;
            Budget(steps, row') + ClaimOf(ts.rec.row, row') <= Budget(steps, ts.rec.row) && Straight(steps, row'.step)
  {
    hide Budget, Straight, RecordOk, PastOk, ReleasedOk, JobsOk;
    if Enabled(ts, a) {
      if a.Work? { hide JobStep; WorkBudget(cfg, ts, a.token, a.inp, drawn, next); }
      else if a.Claim? { hide ClaimRound; ClaimBudget(cfg, ts.rec, a.snap, a.worker, a.now, drawn, next); }
      else if a.Skip? { hide SkipRound; SkipBudget(cfg, ts.rec, a.snap, a.seenDegraded, next); }
      else { hide Act; SmallBudget(cfg, ts, a, drawn, next); }
    }
  }

  // -- over whole runs -----------------------------------------------------------------------------

  ghost predicate OrderlyRun(cfg: Config, s: Sys, moves: seq<Turn>, t: TaskId) {
    forall i :: 0 <= i < |moves| && moves[i].On? && moves[i].task == t && t in Play(cfg, s, moves[..i]).tasks ==>
      Orderly(Play(cfg, s, moves[..i]).tasks[t], moves[i].action)
  }

  function RowIn(s: Sys, t: TaskId): Option<Task> {
    if t in s.tasks then Some(s.tasks[t].rec.row) else None
  }

  /** How often a task is claimed in a run. */
  function ClaimsSeen(cfg: Config, s: Sys, moves: seq<Turn>, t: TaskId): nat {
    if moves == [] then 0
    else
      var n := |moves| - 1;
      var before, after := RowIn(Play(cfg, s, moves[..n]), t), RowIn(Play(cfg, s, moves), t);
      ClaimsSeen(cfg, s, moves[..n], t) + if before.Some? && after.Some? then ClaimOf(before.value, after.value) else 0
  }

  /** In any run without user actions, settling, deferrals and rejections, a task from whose step
      the workflow finishes is claimed no more often than its budget says: each claim takes one off
      what is left. */
  lemma {:induction false} ClaimsBounded(cfg: Config, s: Sys, moves: seq<Turn>, t: TaskId)
    requires SysOk(cfg, s) && t in s.tasks && Straight(Steps(cfg, s.tasks[t].rec.row.workflow), s.tasks[t].rec.row.step) && OrderlyRun(cfg, s, moves, t)
    ensures var s1 := Play(cfg, s, moves);
            var steps := Steps(cfg, s.tasks[t].rec.row.workflow);
            && SysOk(cfg, s1) && t in s1.tasks && s1.tasks[t].rec.row.workflow == s.tasks[t].rec.row.workflow
            && ClaimsSeen(cfg, s, moves, t) + Budget(steps, s1.tasks[t].rec.row) <= Budget(steps, s.tasks[t].rec.row)
            && Straight(steps, s1.tasks[t].rec.row.step)
  {
    hide Step, Budget, Straight, SysOk, Orderly, OrderlyRun, ClaimOf;
    if moves != [] {
      var n := |moves| - 1;
      OrderlyPrefix(cfg, s, moves, t);
      ClaimsBounded(cfg, s, moves[..n], t);
      TurnBudget(cfg, Play(cfg, s, moves[..n]), moves[n], t);
    }
  }

  /** In figures: the claims a queued task sees before it is done, parked or waiting for someone. */
  lemma {:induction false} QueuedClaims(cfg: Config, s: Sys, moves: seq<Turn>, t: TaskId)
    requires SysOk(cfg, s) && t in s.tasks && Straight(Steps(cfg, s.tasks[t].rec.row.workflow), s.tasks[t].rec.row.step) && OrderlyRun(cfg, s, moves, t)
    requires s.tasks[t].rec.row.status.Queued? && s.tasks[t].rec.row.retryCount <= s.tasks[t].rec.row.maxRetries
    ensures var row := s.tasks[t].rec.row;
            var steps := Steps(cfg, row.workflow);
            ClaimsSeen(cfg, s, moves, t) <= (|steps| - IndexOf(steps, row.step)) + (row.maxRetries - row.retryCount) + 1
  {
    ClaimsBounded(cfg, s, moves, t);
    hide ClaimsSeen, OrderlyRun, Play, SysOk, Straight, IndexOf;
  }

  lemma OrderlyPrefix(cfg: Config, s: Sys, moves: seq<Turn>, t: TaskId)
    requires OrderlyRun(cfg, s, moves, t) && moves != []
    ensures var n := |moves| - 1;
            && OrderlyRun(cfg, s, moves[..n], t)
            && (moves[n].On? && moves[n].task == t && t in Play(cfg, s, moves[..n]).tasks ==> Orderly(Play(cfg, s, moves[..n]).tasks[t], moves[n].action))
  {
    hide Play, Orderly;
    var n := |moves| - 1;
    assert forall i :: 0 <= i < n ==> moves[..n][..i] == moves[..i] && moves[..n][i] == moves[i];
  }

  lemma TurnBudget(cfg: Config, s: Sys, m: Turn, t: TaskId)
    requires SysOk(cfg, s) && t in s.tasks && Straight(Steps(cfg, s.tasks[t].rec.row.workflow), s.tasks[t].rec.row.step)
    requires m.On? && m.task == t ==> Orderly(s.tasks[t], m.action)
    ensures var s' := Step(cfg, s, m);
            var steps := Steps(cfg, s.tasks[t].rec.row.workflow);
            && SysOk(cfg, s') && t in s'.tasks && s'.tasks[t].rec.row.workflow == s.tasks[t].rec.row.workflow
            && Budget(steps, s'.tasks[t].rec.row) + ClaimOf(s.tasks[t].rec.row, s'.tasks[t].rec.row) <= Budget(steps, s.tasks[t].rec.row)
            && Straight(steps, s'.tasks[t].rec.row.step)
  {
    StepKeeps(cfg, s, m);
    At(cfg, s, t);
    Below(cfg, s);
    hide SysOk;
    TurnBudget1(cfg, s, m, t);
  }

  lemma TurnBudget1(cfg: Config, s: Sys, m: Turn, t: TaskId)
    requires t in s.tasks && TaskOk(cfg, s.tasks[t], s.nextToken) && (forall u :: u in s.tasks ==> u < s.nextTask)
    requires Straight(Steps(cfg, s.tasks[t].rec.row.workflow), s.tasks[t].rec.row.step)
    requires m.On? && m.task == t ==> Orderly(s.tasks[t], m.action)
    ensures var s' := Step(cfg, s, m);
            var steps := Steps(cfg, s.tasks[t].rec.row.workflow);
            && t in s'.tasks && s'.tasks[t].rec.row.workflow == s.tasks[t].rec.row.workflow
            && Budget(steps, s'.tasks[t].rec.row) + ClaimOf(s.tasks[t].rec.row, s'.tasks[t].rec.row) <= Budget(steps, s.tasks[t].rec.row)
            && Straight(steps, s'.tasks[t].rec.row.step)
  {
    TasksStay(cfg, s, m);
    hide TaskOk, Step, Budget, Straight, Orderly, TaskStep;
    if m.On? && m.task == t {
      StepBudget(cfg, s.tasks[t], m.action, s.nextToken, s.nextTask);
      SameWorkflow(cfg, s.tasks[t], m.action, s.nextToken, s.nextTask);
    }
  }

  lemma SameWorkflow(cfg: Config, ts: TaskSys, a: Action, drawn: Token, next: TaskId)
    requires TaskOk(cfg, ts, drawn)
    ensures TaskStep(cfg, ts, a, drawn, next).sys.rec.row.workflow == ts.rec.row.workflow
  {
    if Enabled(ts, a) {
      ActSound(cfg, ts, a, drawn, next);
      hide Act, TaskOk, RecordOk, HolderOk, SnapOk;
    }
  }

  // -- failed tasks ----------------------------------------------------------------------------------

  /** A failed task has retries left to use. */
  predicate WithinRetries(row: Task) {
    row.status.Failed? ==> row.retryCount <= row.maxRetries
  }

  /** An administrator's direct write of max_retries. */
  predicate WritesLimit(a: Action) {
    a.Tune? && a.updates.maxRetries.Set?
  }

  lemma RetriesStep(cfg: Config, ts: TaskSys, a: Action, drawn: Token, next: TaskId)
    requires TaskOk(cfg, ts, drawn) && WithinRetries(ts.rec.row) && !WritesLimit(a)
    ensures WithinRetries(TaskStep(cfg, ts, a, drawn, next).sys.rec.row)
  {
    if Enabled(ts, a) {
      hide PastOk, ReleasedOk, JobsOk, AttemptsOk, ItemsOk, GrantOk;
      if a.Work? { hide JobStep; RetriesWork(cfg, ts.rec, a.token, ts.jobs[a.token], a.inp, next); }
      else if a.User? { hide UserRound, After; RetriesUser(Steps(cfg, ts.rec.row.workflow), ts.rec, a.snap, a.req, next); }
      else { RetriesOther(cfg, ts, a, drawn, next); }
    }
  }

  lemma RetriesOther(cfg: Config, ts: TaskSys, a: Action, drawn: Token, next: TaskId)
    requires Enabled(ts, a) && WithinRetries(ts.rec.row) && !WritesLimit(a) && !a.Work? && !a.User?
    ensures WithinRetries(Act(cfg, ts, a, drawn, next).rec.row)
  {
  }

  lemma RetriesWork(cfg: Config, rec: Record, token: Token, pc: PC, inp: Input, next: TaskId)
    requires RowOk(cfg, rec.row) && WithinRetries(rec.row)
    ensures WithinRetries(JobStep(cfg, rec, token, pc, inp, next).rec.row)
  {
    if pc.Finishing? {
      hide Boundary, BoundaryItem, Spawns, ChangeItem, SpawnAll, Cancelling, CloseOpenRun, FinishRound;
      RetriesFinish(Steps(cfg, rec.row.workflow), rec, token, inp.row, pc.outcome, inp.seenDegraded, inp.now, next);
    } else {
      ProgramWrites(cfg, rec, token, pc, inp, next);
      hide JobStep;
    }
  }

  lemma RetriesFinish(steps: seq<string>, rec: Record, token: Token, read: Task, o: Outcome, seen: bool, now: int, next: TaskId)
    requires WithinRetries(rec.row)
    ensures var r := FinishRound(steps, rec, token, read, o, seen, now, next); r.Tried? && r.tx.Committed? ==> WithinRetries(r.tx.rec.row)
  {
    var r := FinishRound(steps, rec, token, read, o, seen, now, next);
    if r.Tried? && r.tx.Committed? {
      FinishRow(steps, rec, token, read, o, seen, now, next);
      hide FinishRound;
    }
  }

  lemma RetriesUser(steps: seq<string>, rec: Record, snap: Task, req: Request, next: TaskId)
    requires WithinRetries(rec.row)
    ensures WithinRetries(After(rec, UserRound(steps, rec, snap, req, next)).row)
  {
  }

  /** In every run in which no administrator rewrites max_retries directly, users and all, a
      failed task has used no more retries than it has. */
  lemma {:induction false} FailedWithinLimit(cfg: Config, moves: seq<Turn>, t: TaskId)
    requires forall i :: 0 <= i < |moves| && moves[i].On? ==> !WritesLimit(moves[i].action)
    requires t in Play(cfg, EMPTY, moves).tasks
    ensures WithinRetries(Play(cfg, EMPTY, moves).tasks[t].rec.row)
  {
    if moves != [] {
      var n := |moves| - 1;
      var s := Play(cfg, EMPTY, moves[..n]);
      Reachable(cfg, moves[..n]);
      if t in s.tasks {
        FailedWithinLimit(cfg, moves[..n], t);
        At(cfg, s, t);
        Below(cfg, s);
        RetriesTurn(cfg, s, moves[n], t);
      } else {
        NewNotFailed(cfg, s, moves[n], t);
      }
    }
  }

  lemma RetriesTurn(cfg: Config, s: Sys, m: Turn, t: TaskId)
    requires t in s.tasks && TaskOk(cfg, s.tasks[t], s.nextToken) && (forall u :: u in s.tasks ==> u < s.nextTask)
    requires WithinRetries(s.tasks[t].rec.row) && (m.On? ==> !WritesLimit(m.action))
    ensures t in Step(cfg, s, m).tasks && WithinRetries(Step(cfg, s, m).tasks[t].rec.row)
  {
    TasksStay(cfg, s, m);
    hide TaskOk, Step, TaskStep, WithinRetries;
    if m.On? && m.task == t { RetriesStep(cfg, s.tasks[t], m.action, s.nextToken, s.nextTask); }
  }

  lemma NewNotFailed(cfg: Config, s: Sys, m: Turn, t: TaskId)
    requires t !in s.tasks && t in Step(cfg, s, m).tasks
    ensures !Step(cfg, s, m).tasks[t].rec.row.status.Failed?
  {
    if m.On? && m.task in s.tasks {
      var e := TaskStep(cfg, s.tasks[m.task], m.action, s.nextToken, s.nextTask);
      InsertNew(s.tasks[m.task := e.sys], m.task, e.born, s.nextTask, t);
    }
  }

  lemma {:induction false} InsertNew(tasks: map<TaskId, TaskSys>, parent: TaskId, born: seq<Child>, next: TaskId, t: TaskId)
    requires t !in tasks && t in Insert(tasks, parent, born, next)
    ensures Insert(tasks, parent, born, next)[t].rec.row.status.Queued?
  {
    if t !in Insert(tasks, parent, born[..|born| - 1], next) { }
    else { InsertNew(tasks, parent, born[..|born| - 1], next, t); }
  }
}
