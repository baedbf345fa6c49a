/** The state machine, the scheduler's paths, a worker's statements and the clients, as methods that
    write the store in place. Performing an action of the protocol on the store leaves exactly the
    rows of the protocol's next state. */
module Machines {
  import opened Models
  import opened Records
  import opened StateMachine
  import opened Worker
  import opened Protocol
  import opened Stores

  /** The rows are those after one transaction: task `t` rewritten, children inserted. */
  ghost predicate Became(tasks: map<TaskId, Record>, next: TaskId, tasks': map<TaskId, Record>, next': TaskId,
                         t: TaskId, rec: Record, born: seq<Child>)
  {
    tasks' == WithBorn(tasks[t := rec], t, born, next) && next' == next + |born|
  }

  function BornIn(tx: Tx): seq<Child> {
    if tx.Committed? then tx.born else []
  }

  lemma BecameNothing(tasks: map<TaskId, Record>, next: TaskId, t: TaskId)
    requires t in tasks
    ensures Became(tasks, next, tasks, next, t, tasks[t], [])
  {
    assert tasks[t := tasks[t]] == tasks;
  }

  lemma BecameOne(tasks: map<TaskId, Record>, next: TaskId, t: TaskId, rec: Record)
    ensures Became(tasks, next, tasks[t := rec], next, t, rec, [])
  {
  }

  lemma BecameTx(tasks: map<TaskId, Record>, next: TaskId, t: TaskId, tx: Tx)
    requires t in tasks
    ensures Became(tasks, next, Applied(tasks, t, tx, next), next + BornBy(tx), t, After(tasks[t], tx), BornIn(tx))
  {
    assert tasks[t := tasks[t]] == tasks;
  }

  // -- the state machine ---------------------------------------------------------------------------------

  /** _move: a transition that also cancels the items the task leaves behind. */
  method MoveTask(store: Store, t: TaskId, from: Status, q: Require, d: Decision, step: string, item: ItemChange,
                  plan: Option<SpawnPlan>, spawn: bool) returns (applied: bool, raised: bool)
    requires store.Valid() && t in store.tasks
    modifies store
    ensures store.Valid()
    ensures var tx := Move(old(store.tasks[t]), from, q, d, step, item, plan, spawn, old(store.nextTask));
            && applied == tx.Committed? && raised == tx.Raised?
            && Became(old(store.tasks), old(store.nextTask), store.tasks, store.nextTask, t, After(old(store.tasks[t]), tx), BornIn(tx))
  {
    hide Transition, Applied, After, WithBorn;
    applied, raised := store.Transition(t, from, q, d.patch, d.events, step, Also(item, plan, spawn, Left(d.patch)));
    BecameTx(old(store.tasks), old(store.nextTask), t, Move(old(store.tasks[t]), from, q, d, step, item, plan, spawn, old(store.nextTask)));
  }

  /** StateMachine.claim, from the row it read. */
  method ClaimTask(store: Store, t: TaskId, snap: Task, worker: string, now: int, token: Token) returns (won: bool)
    requires store.Valid() && t in store.tasks
    modifies store
    ensures store.Valid()
    ensures var (rec, w) := ClaimRound(old(store.tasks[t]), snap, worker, now, token, old(store.nextTask));
            won == w && Became(old(store.tasks), old(store.nextTask), store.tasks, store.nextTask, t, rec, [])
  {
    hide Move, ClaimQueued, Became;
    if snap.status.Queued? && snap.terminateRequested {
      var d := Decision(RELEASE.(status := Set(Terminated), terminate := Set(false)), [Event(TerminatedEvent, snap.step)]);
      var q := ANYTHING.(terminate := Set(true));
      var applied, raised := MoveTask(store, t, Queued, q, d, snap.step, NoItem, None, false);
      NoneBorn(old(store.tasks[t]), Queued, q, d, snap.step, NoItem, old(store.nextTask));
      return false;
    }
    won := store.Claim(t, worker, now, token, Event(ClaimedEvent, snap.step));
    if won { BecameOne(old(store.tasks), old(store.nextTask), t, store.tasks[t]); }
    else { BecameNothing(old(store.tasks), old(store.nextTask), t); }
  }

  /** Without a spawn plan a move creates nobody. */
  lemma NoneBorn(rec: Record, from: Status, q: Require, d: Decision, step: string, item: ItemChange, next: TaskId)
    ensures BornIn(Move(rec, from, q, d, step, item, None, false, next)) == []
  {
  }

  /** skip_step */
  method SkipStep(store: Store, steps: seq<string>, t: TaskId, snap: Task, seenDegraded: bool)
    requires store.Valid() && t in store.tasks
    modifies store
    ensures store.Valid()
    ensures Became(old(store.tasks), old(store.nextTask), store.tasks, store.nextTask, t,
                   SkipRound(steps, old(store.tasks[t]), snap, seenDegraded, old(store.nextTask)), [])
  {
    hide Move, Became, After;
    var next := Next(steps, snap.step);
    if !snap.status.Queued? || next.NotInWorkflow? {
      BecameNothing(old(store.tasks), old(store.nextTask), t);
      return;
    }
    var q := ANYTHING.(step := Set(snap.step));
    var d :=
      if next.Done? then Decision(NOTHING.(status := Set(FinalStatus(false, seenDegraded))), [Event(CompletedEvent, snap.step)])
      else Decision(NOTHING.(step := Set(next.step)), [Event(StepCompleted, snap.step)]);
    var applied, raised := MoveTask(store, t, Queued, q, d, snap.step, NoItem, None, false);
    NoneBorn(old(store.tasks[t]), Queued, q, d, snap.step, NoItem, old(store.nextTask));
  }

  /** requeue_failed */
  method RequeueFailed(store: Store, t: TaskId, snap: Task)
    requires store.Valid() && t in store.tasks
    modifies store
    ensures store.Valid()
    ensures Became(old(store.tasks), old(store.nextTask), store.tasks, store.nextTask, t, RequeueRound(old(store.tasks[t]), snap, old(store.nextTask)), [])
  {
    hide Move, Became, After;
    var d := Decision(NOTHING.(status := Set(Queued), nextRetryAt := Set(None)), [Event(RetryEvent, snap.step)]);
    var applied, raised := MoveTask(store, t, Failed, ANYTHING, d, snap.step, NoItem, None, false);
    NoneBorn(old(store.tasks[t]), Failed, ANYTHING, d, snap.step, NoItem, old(store.nextTask));
  }

  /** One attempt of _settle. */
  method SettleTask(store: Store, t: TaskId, snap: Task, noRetry: bool, checkAlive: bool, reason: string) returns (settled: bool)
    requires store.Valid() && t in store.tasks
    modifies store
    ensures store.Valid()
    ensures var tx := SettleRound(old(store.tasks[t]), snap, noRetry, checkAlive, reason, old(store.nextTask));
            && settled == tx.Committed?
            && Became(old(store.tasks), old(store.nextTask), store.tasks, store.nextTask, t, After(old(store.tasks[t]), tx), [])
  {
    hide Move, Became;
    if !Executing(snap.status) {
      BecameNothing(old(store.tasks), old(store.nextTask), t);
      return false;
    }
    var q, d := SettleRequire(snap, checkAlive), SettleDecision(snap, noRetry, reason);
    var raised;
    settled, raised := MoveTask(store, t, snap.status, q, d, snap.step, NoItem, None, false);
    NoneBorn(old(store.tasks[t]), snap.status, q, d, snap.step, NoItem, old(store.nextTask));
  }

  /** One attempt of _user_action. */
  method UserAction(store: Store, steps: seq<string>, t: TaskId, snap: Task, req: Request) returns (applied: bool)
    requires store.Valid() && t in store.tasks
    modifies store
    ensures store.Valid()
    ensures var tx := UserRound(steps, old(store.tasks[t]), snap, req, old(store.nextTask));
            && applied == tx.Committed?
            && Became(old(store.tasks), old(store.nextTask), store.tasks, store.nextTask, t, After(old(store.tasks[t]), tx), [])
  {
    hide Move, Became, Decide;
    var items := store.tasks[t].items;
    var itemStep := if req.Submit? && req.item < |items| then Some(items[req.item].step) else None;
    var decided := Decide(steps, snap, req, itemStep);
    if decided.Illegal? {
      BecameNothing(old(store.tasks), old(store.nextTask), t);
      return false;
    }
    var raised;
    applied, raised := MoveTask(store, t, snap.status, ANYTHING, decided.decision, snap.step, decided.item, None, false);
    NoneBorn(old(store.tasks[t]), snap.status, ANYTHING, decided.decision, snap.step, decided.item, old(store.nextTask));
  }

  // -- the runner ---------------------------------------------------------------------------------------

  /** finish_step's attempt, and what the runner makes of an exception. */
  method FinishAttempt(store: Store, cfg: Config, t: TaskId, token: Token, snap: Task, o: Outcome, inp: Input) returns (pc: PC)
    requires store.Valid() && t in store.tasks
    modifies store
    ensures store.Valid()
    ensures var m := Finish(cfg, old(store.tasks[t]), token, snap, o, inp, old(store.nextTask));
            pc == m.pc && Became(old(store.tasks), old(store.nextTask), store.tasks, store.nextTask, t, m.rec, m.born)
  {
    hide Move, Became, Boundary, Fail;
    var raised := if PlanOf(o).Some? then Closing(snap, Fail(cfg, snap.step, "spawn"), PlanOf(o).value.run, RunFailed) else Ended;
    var read := inp.row;
    if !Holder(read, token) {
      BecameNothing(old(store.tasks), old(store.nextTask), t);
      return Ended;
    }
    var d := Boundary(Steps(cfg, store.tasks[t].row.workflow), read, o, read.terminateRequested, read.pauseRequested, inp.seenDegraded, inp.now);
    if d.None? {
      BecameNothing(old(store.tasks), old(store.nextTask), t);
      return raised;
    }
    var applied, failed := MoveTask(store, t, read.status, BoundaryRequire(read, token), d.value, read.step,
                                    BoundaryItem(o, d.value.patch), PlanOf(o), Spawns(o, d.value.patch));
    if applied { return Ended; }
    if failed { return raised; }
    pc := Finishing(snap, o);
  }

  /** One statement of execute(). */
  method RunStatement(store: Store, cfg: Config, t: TaskId, token: Token, pc: PC, inp: Input) returns (pc': PC)
    requires store.Valid() && t in store.tasks
    modifies store
    ensures store.Valid()
    ensures var m := JobStep(cfg, old(store.tasks[t]), token, pc, inp, old(store.nextTask));
            pc' == m.pc && Became(old(store.tasks), old(store.nextTask), store.tasks, store.nextTask, t, m.rec, m.born)
  {
    hide Became, Finish, Check, Admit, Seek, Ending, UpdateFields, StartRun, FinishRun;
    var rec := store.tasks[t];
    BecameNothing(old(store.tasks), old(store.nextTask), t);
    match pc {
      case Fresh => pc' := Check(token, inp.row);
      case Holding(snap) =>
        pc' := if snap.step !in cfg.registry then Ended else Counted(snap, CountRuns(rec.runs, snap.step) + 1);
      case Counted(snap, attempt) => pc' := Admit(cfg, snap, attempt, inp.gate);
      case Admitted(snap, attempt) => pc' := Seek(cfg, rec, snap, attempt);
      case Opening(snap) =>
        var o := if inp.requestOk
                 then ExternalNeeded(NextAttempt(rec.items, snap.step), MaxAttempts(cfg, snap.step), PreviousError(rec.items, snap.step), false)
                 else Fail(cfg, snap.step, "request");
        pc' := Finishing(snap, o);
      case Ready(snap, attempt, found) =>
        var wrote := store.Write(t, Updates(Keep, Set(None)), Some(token));
        BecameOne(old(store.tasks), old(store.nextTask), t, store.tasks[t]);
        pc' := Cleared(snap, attempt, found);
      case Cleared(snap, attempt, found) =>
        var run := store.Start(t, snap.step);
        BecameOne(old(store.tasks), old(store.nextTask), t, store.tasks[t]);
        pc' := InStep(snap, found, run);
      case InStep(snap, found, run) => pc' := Ending(cfg, snap, found, run, inp.result);
      case Updating(snap, outcome, run, status, updates) =>
        var wrote := store.Write(t, updates, Some(token));
        BecameOne(old(store.tasks), old(store.nextTask), t, store.tasks[t]);
        pc' := Closing(snap, outcome, run, status);
      case Closing(snap, outcome, run, status) =>
        store.End(t, run, status);
        BecameOne(old(store.tasks), old(store.nextTask), t, store.tasks[t]);
        pc' := Finishing(snap, outcome);
      case Finishing(snap, outcome) => pc' := FinishAttempt(store, cfg, t, token, snap, outcome, inp);
      case Ended => pc' := Ended;
    }
  }

  // -- every actor --------------------------------------------------------------------------------------

  /** An action of any actor on a task: at most one transaction of the store. The rows are those of
      the protocol's next state, and so are the workers. */
  method Perform(store: Store, cfg: Config, t: TaskId, a: Action, jobs: map<Token, PC>, drawn: Token, ghost s: Sys) returns (jobs': map<Token, PC>)
    requires store.Valid() && store.tasks == Rows(s.tasks) && store.nextTask == s.nextTask && drawn == s.nextToken
    requires t in s.tasks && jobs == s.tasks[t].jobs && Enabled(s.tasks[t], a)
    modifies store
    ensures var s' := Step(cfg, s, On(t, a));
            && store.Valid() && store.tasks == Rows(s'.tasks) && store.nextTask == s'.nextTask
            && t in s'.tasks && jobs' == s'.tasks[t].jobs
  {
    assert t in Rows(s.tasks) && Rows(s.tasks)[t] == s.tasks[t].rec;
    StepIsTransaction(cfg, s, t, a);
    ActorStays(cfg, s, t, a);
    jobs' := PerformAct(store, cfg, t, a, jobs, drawn, s.tasks[t]);
    hide Act, Step;
  }

  lemma ActorStays(cfg: Config, s: Sys, t: TaskId, a: Action)
    requires t in s.tasks && Enabled(s.tasks[t], a) && t < s.nextTask
    ensures t in Step(cfg, s, On(t, a)).tasks
    ensures Step(cfg, s, On(t, a)).tasks[t].jobs == Act(cfg, s.tasks[t], a, s.nextToken, s.nextTask).jobs
  {
    hide Act;
    var e := Act(cfg, s.tasks[t], a, s.nextToken, s.nextTask);
    InsertStays(s.tasks[t := Recorded(s.tasks[t], e)], t, e.born, s.nextTask, t);
  }

  lemma {:induction false} InsertStays(tasks: map<TaskId, TaskSys>, parent: TaskId, born: seq<Child>, next: TaskId, t: TaskId)
    requires t in tasks && t < next
    ensures t in Insert(tasks, parent, born, next) && Insert(tasks, parent, born, next)[t] == tasks[t]
  {
    if born != [] { InsertStays(tasks, parent, born[..|born| - 1], next, t); }
  }

  method PerformAct(store: Store, cfg: Config, t: TaskId, a: Action, jobs: map<Token, PC>, drawn: Token, ghost ts: TaskSys) returns (jobs': map<Token, PC>)
    requires store.Valid() && t in store.tasks && store.tasks[t] == ts.rec && jobs == ts.jobs && Enabled(ts, a)
    modifies store
    ensures store.Valid()
    ensures var e := Act(cfg, ts, a, drawn, old(store.nextTask));
            jobs' == e.jobs && Became(old(store.tasks), old(store.nextTask), store.tasks, store.nextTask, t, e.rec, e.born)
  {
    hide Became, JobStep, ClaimRound, SkipRound, RequeueRound, SettleRound, UserRound, Heartbeat, ClaimItem, ReleaseItem, UpdateFields, After;
    jobs' := jobs;
    var steps := Steps(cfg, store.tasks[t].row.workflow);
    match a {
      case Claim(snap, worker, now) =>
        var won := ClaimTask(store, t, snap, worker, now, drawn);
        if won { jobs' := jobs[drawn := Fresh]; }
      case Work(token, inp) =>
        var pc' := RunStatement(store, cfg, t, token, jobs[token], inp);
        jobs' := jobs[token := pc'];
      case Beat(token, now, progress) =>
        var wrote := store.Beat(t, now, progress, token);
        BecameOne(old(store.tasks), old(store.nextTask), t, store.tasks[t]);
      case Die(token) =>
        jobs' := jobs - {token};
        BecameNothing(old(store.tasks), old(store.nextTask), t);
      case Settle(snap, checkAlive, reason) => var settled := SettleTask(store, t, snap, NoRetry(cfg, snap.step), checkAlive, reason);
      case CloseOpenRuns =>
        var closed := store.CloseAll(t);
        BecameOne(old(store.tasks), old(store.nextTask), t, store.tasks[t]);
      case Requeue(snap) => RequeueFailed(store, t, snap);
      case Skip(snap, seen) => SkipStep(store, steps, t, snap, seen);
      case User(snap, req) => var applied := UserAction(store, steps, t, snap, req);
      case TakeItem(i, client) =>
        var won := store.TakeItem(t, i, client);
        BecameOne(old(store.tasks), old(store.nextTask), t, store.tasks[t]);
      case GiveItem(i, holder) =>
        var freed := store.GiveItem(t, i, holder);
        BecameOne(old(store.tasks), old(store.nextTask), t, store.tasks[t]);
      case Tune(updates) =>
        var wrote := store.Write(t, updates, None);
        BecameOne(old(store.tasks), old(store.nextTask), t, store.tasks[t]);
    }
  }
}
