/** Runs that show where a plain promise ends: built move by move, from any state that fits. */
module Witnesses {
  import opened Models
  import opened Records
  import opened StateMachine
  import opened Worker
  import opened Protocol
  import opened Invariant
  import opened InvariantProof
  import opened Safety
  import opened Progress
  import opened Executor
  import opened Quotas

  // -- building runs ----------------------------------------------------------------------------------

  lemma Extend(cfg: Config, s: Sys, moves: seq<Turn>, a: Action, t: TaskId)
    requires t in Play(cfg, s, moves).tasks
    ensures var s1 := Play(cfg, s, moves);
            var s2 := Step(cfg, s1, On(t, a));
            && Play(cfg, s, moves + [On(t, a)]) == s2
            && (OrderlyRun(cfg, s, moves, t) && Orderly(s1.tasks[t], a) ==> OrderlyRun(cfg, s, moves + [On(t, a)], t))
            && (t in s2.tasks ==> ClaimsSeen(cfg, s, moves + [On(t, a)], t)
                                  == ClaimsSeen(cfg, s, moves, t) + ClaimOf(s1.tasks[t].rec.row, s2.tasks[t].rec.row))
  {
    hide Step, Orderly, ClaimOf;
    var longer := moves + [On(t, a)];
    assert longer[..|moves|] == moves;
    if OrderlyRun(cfg, s, moves, t) && Orderly(Play(cfg, s, moves).tasks[t], a) {
      forall i | 0 <= i < |longer| && longer[i].On? && longer[i].task == t && t in Play(cfg, s, longer[..i]).tasks
        ensures Orderly(Play(cfg, s, longer[..i]).tasks[t], longer[i].action)
      {
        if i < |moves| { assert longer[..i] == moves[..i] && longer[i] == moves[i]; }
      }
    }
  }

  // -- a plain step: nothing external, no approval, it succeeds ---------------------------------------------

  predicate Plain(cfg: Config, step: string) {
    step in cfg.registry && !cfg.registry[step].external && !cfg.registry[step].sideEffect
  }

  predicate PlainOutcome(o: Outcome) {
    o.Success? && o.plan.None? && o.accepted.None?
  }

  predicate PlainJob(pc: PC) {
    match pc
    case Ready(_, _, found) => found.None?
    case Cleared(_, _, found) => found.None?
    case InStep(_, found, _) => found.None?
    case Closing(_, o, _, _) => PlainOutcome(o)
    case Finishing(_, o) => PlainOutcome(o)
    case Opening(_) => false
    case Updating(_, _, _, _, _) => false
    case Ended => false
    case _ => true
  }

  function PlainInput(row: Task): Input {
    Input(row, NoGate, true, Returned(false, [], None), false, 0)
  }

  /** Claimed, and its worker on the way through a plain step. */
  predicate Going(cfg: Config, ts: TaskSys, token: Token) {
    && token in ts.jobs && PlainJob(ts.jobs[token]) && Plain(cfg, ts.rec.row.step)
    && Holder(ts.rec.row, token) && ts.rec.row.status.Running? && !ts.rec.row.terminateRequested && !ts.rec.row.pauseRequested
  }

  /** One statement of the program. */
  lemma GoesOn(cfg: Config, ts: TaskSys, token: Token, drawn: Token, next: TaskId)
    requires TaskOk(cfg, ts, drawn) && Going(cfg, ts, token) && !ts.jobs[token].Finishing?
    ensures var a := Work(token, PlainInput(ts.rec.row));
            var e := TaskStep(cfg, ts, a, drawn, next);
            && Enabled(ts, a) && Orderly(ts, a) && e.born == [] && Going(cfg, e.sys, token) && Rank(e.sys.jobs[token]) < Rank(ts.jobs[token])
            && e.sys.rec.row.step == ts.rec.row.step && e.sys.rec.row.workflow == ts.rec.row.workflow && e.sys.rec.row.lock == ts.rec.row.lock
  {
    var pc := ts.jobs[token];
    assert JobOk(cfg, ts, token, pc) && ts.rec.row in ts.past;
    if SnapOf(pc).Some? { assert VersionOk(ts.rec.row, SnapOf(pc).value, drawn); }
    ProgramWrites(cfg, ts.rec, token, pc, PlainInput(ts.rec.row), next);
    PlainCounter(cfg, ts.rec, token, pc, next);
    hide JobStep;
  }

  lemma PlainCounter(cfg: Config, rec: Record, token: Token, pc: PC, next: TaskId)
    requires PlainJob(pc) && !pc.Finishing? && Holder(rec.row, token) && rec.row.status.Running?
    requires !rec.row.terminateRequested && !rec.row.pauseRequested && Plain(cfg, rec.row.step)
    requires SnapOf(pc).Some? ==> SnapOf(pc).value.step == rec.row.step
    ensures var pc' := JobStep(cfg, rec, token, pc, PlainInput(rec.row), next).pc; PlainJob(pc') && Rank(pc') < Rank(pc)
  {
    assert Planned(cfg, []);
  }

  /** The boundary: the task is queued again, on the step the successor rule gives. */
  lemma GoesOver(cfg: Config, ts: TaskSys, token: Token, drawn: Token, next: TaskId)
    requires TaskOk(cfg, ts, drawn) && Going(cfg, ts, token) && ts.jobs[token].Finishing?
    requires Next(Steps(cfg, ts.rec.row.workflow), ts.rec.row.step).Advance?
    ensures var a := Work(token, PlainInput(ts.rec.row));
            var e := TaskStep(cfg, ts, a, drawn, next);
            && Enabled(ts, a) && Orderly(ts, a) && e.born == []
            && e.sys.rec.row == ts.rec.row.(status := Queued, lock := UNLOCKED, step := Next(Steps(cfg, ts.rec.row.workflow), ts.rec.row.step).step)
  {
    hide JobsOk, ReleasedOk, RecordOk, Next;
  }

  /** A claim of a queued task. */
  lemma GetsClaimed(cfg: Config, ts: TaskSys, drawn: Token, next: TaskId)
    requires TaskOk(cfg, ts, drawn) && ts.rec.row.status.Queued? && Plain(cfg, ts.rec.row.step)
    ensures var a := Claim(ts.rec.row, "pool", 0);
            var e := TaskStep(cfg, ts, a, drawn, next);
            && Enabled(ts, a) && Orderly(ts, a) && e.born == [] && Going(cfg, e.sys, drawn) && ClaimOf(ts.rec.row, e.sys.rec.row) == 1
            && e.sys.rec.row.step == ts.rec.row.step && e.sys.rec.row.workflow == ts.rec.row.workflow && e.sys.jobs[drawn].Fresh?
  {
    hide JobsOk, ReleasedOk, AttemptsOk, ItemsOk, GrantOk;
  }

  // -- one move of the run ------------------------------------------------------------------------------------

  /** The run reached a good state with task `t` in it. */
  ghost predicate At1(cfg: Config, s: Sys, moves: seq<Turn>, t: TaskId) {
    SysOk(cfg, Play(cfg, s, moves)) && t in Play(cfg, s, moves).tasks && OrderlyRun(cfg, s, moves, t)
  }

  function Of(cfg: Config, s: Sys, moves: seq<Turn>, t: TaskId): TaskSys
    requires t in Play(cfg, s, moves).tasks
  {
    Play(cfg, s, moves).tasks[t]
  }

  lemma Move1(cfg: Config, s: Sys, moves: seq<Turn>, t: TaskId, a: Action)
    requires At1(cfg, s, moves, t)
    requires var s1 := Play(cfg, s, moves); Orderly(s1.tasks[t], a) && TaskStep(cfg, s1.tasks[t], a, s1.nextToken, s1.nextTask).born == []
    ensures At1(cfg, s, moves + [On(t, a)], t)
    ensures var s1 := Play(cfg, s, moves);
            && Of(cfg, s, moves + [On(t, a)], t) == TaskStep(cfg, s1.tasks[t], a, s1.nextToken, s1.nextTask).sys
            && ClaimsSeen(cfg, s, moves + [On(t, a)], t)
               == ClaimsSeen(cfg, s, moves, t) + ClaimOf(s1.tasks[t].rec.row, Of(cfg, s, moves + [On(t, a)], t).rec.row)
  {
    StepKeeps(cfg, Play(cfg, s, moves), On(t, a));
    Extend(cfg, s, moves, a, t);
    hide SysOk, TaskStep, OrderlyRun, ClaimsSeen, Orderly, ClaimOf, Play;
  }

  /** From a claim to the boundary. */
  lemma {:induction false} Goes(cfg: Config, s: Sys, moves: seq<Turn>, t: TaskId, token: Token) returns (longer: seq<Turn>)
    requires At1(cfg, s, moves, t) && Going(cfg, Of(cfg, s, moves, t), token)
    requires var row := Of(cfg, s, moves, t).rec.row; Next(Steps(cfg, row.workflow), row.step).Advance?
    ensures At1(cfg, s, longer, t) && ClaimsSeen(cfg, s, longer, t) == ClaimsSeen(cfg, s, moves, t)
    ensures var row, row' := Of(cfg, s, moves, t).rec.row, Of(cfg, s, longer, t).rec.row;
            row'.status.Queued? && row'.workflow == row.workflow && row'.step == Next(Steps(cfg, row.workflow), row.step).step
    decreases Rank(Of(cfg, s, moves, t).jobs[token])
  {
    hide Play, TaskStep, Orderly, OrderlyRun, ClaimsSeen, SysOk, Next, Steps, Rank, TaskOk, PlainJob, Plain;
    var s1 := Play(cfg, s, moves);
    var ts := s1.tasks[t];
    var a := Work(token, PlainInput(ts.rec.row));
    At(cfg, s1, t);
    if ts.jobs[token].Finishing? {
      GoesOver(cfg, ts, token, s1.nextToken, s1.nextTask);
      Move1(cfg, s, moves, t, a);
      longer := moves + [On(t, a)];
    } else {
      GoesOn(cfg, ts, token, s1.nextToken, s1.nextTask);
      Move1(cfg, s, moves, t, a);
      longer := Goes(cfg, s, moves + [On(t, a)], t, token);
    }
  }

  /** One lap: claimed once, and queued on the next step. */
  lemma Lap(cfg: Config, s: Sys, moves: seq<Turn>, t: TaskId) returns (longer: seq<Turn>)
    requires At1(cfg, s, moves, t) && Of(cfg, s, moves, t).rec.row.status.Queued? && Plain(cfg, Of(cfg, s, moves, t).rec.row.step)
    requires var row := Of(cfg, s, moves, t).rec.row; Next(Steps(cfg, row.workflow), row.step).Advance?
    ensures At1(cfg, s, longer, t) && ClaimsSeen(cfg, s, longer, t) == ClaimsSeen(cfg, s, moves, t) + 1
    ensures var row, row' := Of(cfg, s, moves, t).rec.row, Of(cfg, s, longer, t).rec.row;
            row'.status.Queued? && row'.workflow == row.workflow && row'.step == Next(Steps(cfg, row.workflow), row.step).step
  {
    hide Play, TaskStep, Orderly, OrderlyRun, ClaimsSeen, ClaimOf, SysOk, Next, Steps, Rank, TaskOk, Going, Plain;
    var s1 := Play(cfg, s, moves);
    var a := Claim(s1.tasks[t].rec.row, "pool", 0);
    At(cfg, s1, t);
    GetsClaimed(cfg, s1.tasks[t], s1.nextToken, s1.nextTask);
    Move1(cfg, s, moves, t, a);
    longer := Goes(cfg, s, moves + [On(t, a)], t, s1.nextToken);
  }

  /** An orderly run of `n` laps: claimed `n` times, and queued again. */
  ghost predicate Lapped(cfg: Config, s: Sys, t: TaskId, n: nat, moves: seq<Turn>)
    requires t in s.tasks
  {
    && At1(cfg, s, moves, t) && ClaimsSeen(cfg, s, moves, t) == n
    && var row, row' := s.tasks[t].rec.row, Of(cfg, s, moves, t).rec.row;
       row'.status.Queued? && row'.workflow == row.workflow && Some(row'.step) == Reached(Steps(cfg, row.workflow), row.step, n)
  }

  /** Where advancing never comes to the end, no number of claims is the last: with steps that need
      nobody, there are orderly runs with as many claims as one likes. */
  lemma {:induction false} EndlessClaims(cfg: Config, s: Sys, t: TaskId, n: nat) returns (moves: seq<Turn>)
    requires SysOk(cfg, s) && t in s.tasks && s.tasks[t].rec.row.status.Queued?
    requires !Finishes(Steps(cfg, s.tasks[t].rec.row.workflow), s.tasks[t].rec.row.step)
    requires forall step :: step in Steps(cfg, s.tasks[t].rec.row.workflow) ==> Plain(cfg, step)
    ensures Lapped(cfg, s, t, n, moves)
  {
    hide *;
    var row := s.tasks[t].rec.row;
    At(cfg, s, t);
    OnItsWorkflow(cfg, s.tasks[t], s.nextToken);
    FinishesIff(Steps(cfg, row.workflow), row.step);
    if n == 0 {
      moves := [];
      Starts(cfg, s, t);
    } else {
      moves := EndlessClaims(cfg, s, t, n - 1);
      ReachedOn(Steps(cfg, row.workflow), row.step, n - 1);
      moves := LapsOn(cfg, s, t, n - 1, moves);
    }
  }

  lemma LapsOn(cfg: Config, s: Sys, t: TaskId, n: nat, moves: seq<Turn>) returns (longer: seq<Turn>)
    requires t in s.tasks && Lapped(cfg, s, t, n, moves)
    requires var steps := Steps(cfg, s.tasks[t].rec.row.workflow);
             var u := Reached(steps, s.tasks[t].rec.row.step, n);
             && u.Some? && Plain(cfg, u.value) && Next(steps, u.value).Advance?
             && Reached(steps, s.tasks[t].rec.row.step, n + 1) == Some(Next(steps, u.value).step)
    ensures Lapped(cfg, s, t, n + 1, longer)
  {
    hide SysOk, Steps, Plain, Next, Play, ClaimsSeen, OrderlyRun, Reached;
    longer := Lap(cfg, s, moves, t);
  }

  lemma Starts(cfg: Config, s: Sys, t: TaskId)
    requires SysOk(cfg, s) && t in s.tasks
    requires s.tasks[t].rec.row.status.Queued? && s.tasks[t].rec.row.step in Steps(cfg, s.tasks[t].rec.row.workflow)
    ensures Lapped(cfg, s, t, 0, [])
  {
    hide SysOk, Steps;
  }

  lemma OnItsWorkflow(cfg: Config, ts: TaskSys, drawn: Token)
    requires TaskOk(cfg, ts, drawn)
    ensures ts.rec.row.step in Steps(cfg, ts.rec.row.workflow)
  {
  }

  lemma ReachedOn(steps: seq<string>, s: string, n: nat)
    requires Reached(steps, s, n).Some? && Reached(steps, s, n + 1).Some?
    ensures var u := Reached(steps, s, n).value;
            u in steps && Next(steps, u).Advance? && Reached(steps, s, n + 1) == Some(Next(steps, u).step)
  {
  }

  ghost predicate Bound(cfg: Config, s: Sys, t: TaskId, most: nat) {
    forall moves {:trigger OrderlyRun(cfg, s, moves, t)} :: OrderlyRun(cfg, s, moves, t) ==> ClaimsSeen(cfg, s, moves, t) <= most
  }

  /** So the claims of a queued task whose steps need nobody are bounded at all if and only if
      advancing from its step finishes the workflow. */
  lemma ClaimsBoundedIff(cfg: Config, s: Sys, t: TaskId)
    requires SysOk(cfg, s) && t in s.tasks && s.tasks[t].rec.row.status.Queued?
    requires forall step :: step in Steps(cfg, s.tasks[t].rec.row.workflow) ==> Plain(cfg, step)
    ensures (exists most: nat :: Bound(cfg, s, t, most)) <==> Finishes(Steps(cfg, s.tasks[t].rec.row.workflow), s.tasks[t].rec.row.step)
  {
    hide SysOk, Plain, Steps, Finishes, Straight, ClaimsSeen, OrderlyRun, Play, Budget, Distinct;
    var row := s.tasks[t].rec.row;
    var steps := Steps(cfg, row.workflow);
    FinishesIff(steps, row.step);
    if Finishes(steps, row.step) {
      forall moves | OrderlyRun(cfg, s, moves, t) ensures ClaimsSeen(cfg, s, moves, t) <= Budget(steps, row) { ClaimsBounded(cfg, s, moves, t); }
      assert Bound(cfg, s, t, Budget(steps, row));
    } else {
      forall most: nat ensures !Bound(cfg, s, t, most) { NoBound(cfg, s, t, most); }
    }
  }

  lemma NoBound(cfg: Config, s: Sys, t: TaskId, most: nat)
    requires SysOk(cfg, s) && t in s.tasks && s.tasks[t].rec.row.status.Queued?
    requires !Finishes(Steps(cfg, s.tasks[t].rec.row.workflow), s.tasks[t].rec.row.step)
    requires forall step :: step in Steps(cfg, s.tasks[t].rec.row.workflow) ==> Plain(cfg, step)
    ensures !Bound(cfg, s, t, most)
  {
    hide SysOk, Plain, Steps, Finishes, ClaimsSeen, OrderlyRun, Play;
    var moves := EndlessClaims(cfg, s, t, most + 1);
    assert OrderlyRun(cfg, s, moves, t) && ClaimsSeen(cfg, s, moves, t) == most + 1;
  }

  // -- a stale worker's run -------------------------------------------------------------------------------------

  /** To the point where the worker is about to start a run. */
  lemma {:induction false} GoesToRun(cfg: Config, s: Sys, moves: seq<Turn>, t: TaskId, token: Token) returns (longer: seq<Turn>)
    requires At1(cfg, s, moves, t) && Going(cfg, Of(cfg, s, moves, t), token) && Rank(Of(cfg, s, moves, t).jobs[token]) >= 5
    ensures At1(cfg, s, longer, t) && Going(cfg, Of(cfg, s, longer, t), token)
    ensures token in Of(cfg, s, longer, t).jobs && Of(cfg, s, longer, t).jobs[token].Cleared?
    decreases Rank(Of(cfg, s, moves, t).jobs[token])
  {
    hide Play, TaskStep, Orderly, OrderlyRun, ClaimsSeen, SysOk, Steps, TaskOk, Plain;
    var s1 := Play(cfg, s, moves);
    var ts := s1.tasks[t];
    if ts.jobs[token].Cleared? { return moves; }
    var a := Work(token, PlainInput(ts.rec.row));
    At(cfg, s1, t);
    GoesOn(cfg, ts, token, s1.nextToken, s1.nextTask);
    OneDown(cfg, ts, token, s1.nextToken, s1.nextTask);
    Move1(cfg, s, moves, t, a);
    longer := GoesToRun(cfg, s, moves + [On(t, a)], t, token);
  }

  lemma OneDown(cfg: Config, ts: TaskSys, token: Token, drawn: Token, next: TaskId)
    requires TaskOk(cfg, ts, drawn) && Going(cfg, ts, token) && Rank(ts.jobs[token]) > 5
    ensures Rank(TaskStep(cfg, ts, Work(token, PlainInput(ts.rec.row)), drawn, next).sys.jobs[token]) >= 5
  {
    var pc := ts.jobs[token];
    assert JobOk(cfg, ts, token, pc) && ts.rec.row in ts.past;
    if SnapOf(pc).Some? { assert VersionOk(ts.rec.row, SnapOf(pc).value, drawn); }
    hide TaskOk;
  }

  /** Any queued task on a plain step can get there: settled under its worker (by a process that
      takes it for dead), it has lost the claim, and the worker starts its run all the same. */
  lemma StaleWorkerRuns(cfg: Config, s: Sys, t: TaskId) returns (moves: seq<Turn>, token: Token)
    requires SysOk(cfg, s) && t in s.tasks && s.tasks[t].rec.row.status.Queued? && Plain(cfg, s.tasks[t].rec.row.step)
    ensures SysOk(cfg, Play(cfg, s, moves)) && t in Play(cfg, s, moves).tasks
    ensures var s1 := Play(cfg, s, moves);
            var ts := s1.tasks[t];
            var a := Work(token, PlainInput(ts.rec.row));
            && token in ts.jobs && ts.rec.row in ts.past && !Current(ts.rec, token) && Enabled(ts, a)
            && TaskStep(cfg, ts, a, s1.nextToken, s1.nextTask).sys.rec.runs != ts.rec.runs
  {
    hide Play, TaskStep, Orderly, OrderlyRun, ClaimsSeen, SysOk, Going, TaskOk, Act;
    NoMoves(cfg, s, t);
    At(cfg, s, t);
    var claim := Claim(s.tasks[t].rec.row, "pool", 0);
    GetsClaimed(cfg, s.tasks[t], s.nextToken, s.nextTask);
    Move1(cfg, s, [], t, claim);
    token := s.nextToken;
    moves := GoesToRun(cfg, s, [] + [On(t, claim)], t, token);
    var s1 := Play(cfg, s, moves);
    var ts := s1.tasks[t];
    At(cfg, s1, t);
    var settle := Settle(ts.rec.row, false, "interrupted");
    StepKeeps(cfg, s1, On(t, settle));
    Settled1(cfg, ts, token, s1.nextToken, s1.nextTask);
    PlayOn(cfg, s, moves, On(t, settle));
    moves := moves + [On(t, settle)];
    var s2 := Play(cfg, s, moves);
    At(cfg, s2, t);
    RowKnown(cfg, s2.tasks[t], s2.nextToken);
    StaleRuns(cfg, s2.tasks[t], token, PlainInput(s2.tasks[t].rec.row), s2.nextToken, s2.nextTask);
  }

  lemma NoMoves(cfg: Config, s: Sys, t: TaskId)
    requires SysOk(cfg, s) && t in s.tasks
    ensures At1(cfg, s, [], t) && Play(cfg, s, []) == s
  {
    hide SysOk;
  }

  lemma PlayOn(cfg: Config, s: Sys, moves: seq<Turn>, m: Turn)
    ensures Play(cfg, s, moves + [m]) == Step(cfg, Play(cfg, s, moves), m)
  {
    hide Step;
    assert (moves + [m])[..|moves|] == moves;
  }

  lemma RowKnown(cfg: Config, ts: TaskSys, drawn: Token)
    requires TaskOk(cfg, ts, drawn)
    ensures ts.rec.row in ts.past
  {
  }

  lemma Settled1(cfg: Config, ts: TaskSys, token: Token, drawn: Token, next: TaskId)
    requires TaskOk(cfg, ts, drawn) && Going(cfg, ts, token)
    ensures var e := TaskStep(cfg, ts, Settle(ts.rec.row, false, "interrupted"), drawn, next);
            && e.born == [] && !Current(e.sys.rec, token) && e.sys.jobs == ts.jobs
  {
    hide RecordOk, ReleasedOk, JobsOk;
  }
}
