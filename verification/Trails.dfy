/** The event log tells the whole story of a task: replayed, it gives its status, and counting its
    completed steps gives its place in the workflow. */
module Trails {
  import opened Models
  import opened Records
  import opened StateMachine
  import opened Worker
  import opened Protocol
  import opened Invariant
  import opened InvariantProof
  import opened Safety
  import opened Spawning
  import opened Endings
  import opened Progress

  /** What an event says has become of a task that was `s`. */
  function Told(s: Status, e: EventType): Status {
    match e
    case Created => Queued
    case ClaimedEvent => Running
    case StepCompleted => Queued
    case CompletedEvent => Completed
    case StepFailed => Failed
    case DeferredEvent => Queued
    case PauseAsked => if s.Running? then PausePending else Paused
    case PausedEvent => Paused
    case Resumed => Queued
    case TerminatedEvent => Terminated
    case RetryEvent => Queued
    case Reclaimed => Queued
    case ManualEvent => ManualRequired
    case ApprovalAsked(_) => AwaitingApproval
    case ApprovalDecided(approved, _) => if approved then Queued else ManualRequired
    case ItemOpened => AwaitingExternal
    case ItemSubmitted => Queued
    case ItemRejected => Queued
    case _ => s   // requests noted, fields set, items claimed and released, children spawned
  }

  function Tell(s: Status, events: seq<Event>): Status {
    if events == [] then s else Told(Tell(s, events[..|events| - 1]), events[|events| - 1].kind)
  }

  /** The log does not tell whether a finished workflow had degraded steps. */
  predicate Agrees(told: Status, s: Status) {
    told == s || (told.Completed? && s.PartiallyCompleted?)
  }

  function Passed(events: seq<Event>): nat {
    if events == [] then 0
    else Passed(events[..|events| - 1]) + if events[|events| - 1].kind.StepCompleted? then 1 else 0
  }

  predicate Untouched(events: seq<Event>) {
    forall i :: 0 <= i < |events| ==> !events[i].kind.FieldSet?
  }

  /** Unless a user set a field, the place is as many steps from the first as were completed. */
  predicate Placed(steps: seq<string>, rec: Record) {
    Untouched(rec.events) ==> steps != [] && Reached(steps, steps[0], Passed(rec.events)) == Some(rec.row.step)
  }

  predicate TrailOk(cfg: Config, rec: Record) {
    Agrees(Tell(Queued, rec.events), rec.row.status) && Placed(Steps(cfg, rec.row.workflow), rec)
  }

  // -- one transaction ------------------------------------------------------------------------------------

  /** `es` is what was logged, and it tells what happened to the row. */
  predicate Logs(steps: seq<string>, rec: Record, rec': Record, es: seq<Event>) {
    && rec'.events == rec.events + es && rec'.row.workflow == rec.row.workflow
    && Agrees(Tell(rec.row.status, es), rec'.row.status)
    && (Untouched(es) ==>
          || (Passed(es) == 0 && rec'.row.step == rec.row.step)
          || (Passed(es) == 1 && Next(steps, rec.row.step) == Advance(rec'.row.step)))
  }

  lemma AgreesOn(a: Status, b: Status, e: EventType)
    requires Agrees(a, b)
    ensures Agrees(Told(a, e), Told(b, e))
  {
  }

  lemma {:induction false} TellJoined(a: Status, b: Status, s: seq<Event>, es: seq<Event>)
    requires Agrees(Tell(a, s), b)
    ensures Agrees(Tell(a, s + es), Tell(b, es))
  {
    if es == [] { assert s + es == s; }
    else {
      var n := |es| - 1;
      TellJoined(a, b, s, es[..n]);
      assert (s + es)[..|s| + n] == s + es[..n];
      AgreesOn(Tell(a, s + es[..n]), Tell(b, es[..n]), es[n].kind);
    }
  }

  lemma {:induction false} PassedJoined(s: seq<Event>, es: seq<Event>)
    ensures Passed(s + es) == Passed(s) + Passed(es)
  {
    if es == [] { assert s + es == s; }
    else {
      PassedJoined(s, es[..|es| - 1]);
      assert (s + es)[..|s + es| - 1] == s + es[..|es| - 1];
    }
  }

  lemma LogsKeep(cfg: Config, rec: Record, rec': Record, es: seq<Event>)
    requires TrailOk(cfg, rec) && Logs(Steps(cfg, rec.row.workflow), rec, rec', es)
    ensures TrailOk(cfg, rec')
  {
    var steps := Steps(cfg, rec.row.workflow);
    TellJoined(Queued, rec.row.status, rec.events, es);
    AgreesTrans(Tell(Queued, rec.events + es), Tell(rec.row.status, es), rec'.row.status);
    PassedJoined(rec.events, es);
    if Untouched(rec'.events) {
      assert forall i :: 0 <= i < |rec.events| ==> rec'.events[i] == rec.events[i];
      assert forall i :: 0 <= i < |es| ==> rec'.events[|rec.events| + i] == es[i];
    }
  }

  lemma AgreesTrans(a: Status, b: Status, c: Status)
    requires Agrees(a, b) && Agrees(b, c)
    ensures Agrees(a, c)
  {
  }

  /** A short log, told. */
  lemma Brief(s: Status, a: Event, b: Event, c: Event)
    ensures Tell(s, [a]) == Told(s, a.kind) && Tell(s, [a, b]) == Told(Told(s, a.kind), b.kind)
    ensures Tell(s, [a, b, c]) == Told(Told(Told(s, a.kind), b.kind), c.kind)
    ensures Passed([a]) == (if a.kind.StepCompleted? then 1 else 0)
    ensures Passed([a, b]) == Passed([a]) + (if b.kind.StepCompleted? then 1 else 0)
    ensures Passed([a, b, c]) == Passed([a, b]) + (if c.kind.StepCompleted? then 1 else 0)
  {
    assert [a][..0] == [] && [a, b][..1] == [a] && [a, b, c][..2] == [a, b];
  }

  // -- actor by actor -----------------------------------------------------------------------------------------

  lemma NothingLogged(steps: seq<string>, rec: Record, rec': Record)
    requires rec'.events == rec.events && rec'.row.workflow == rec.row.workflow && rec'.row.status == rec.row.status && rec'.row.step == rec.row.step
    ensures Logs(steps, rec, rec', [])
  {
    assert rec.events + [] == rec.events;
  }

  /** One or two events of a decision, and its row. */
  predicate Fits(steps: seq<string>, row: Task, d: Decision) {
    && 1 <= |d.events| <= 2
    && var row' := Put(row, d.patch);
       Logs(steps, Record(row, [], [], [], []), Record(row', [], [], [], d.events), d.events)
  }

  lemma MoveLogs(steps: seq<string>, rec: Record, from: Status, q: Require, d: Decision, step: string, item: ItemChange, next: TaskId)
    requires rec.row.status == from && Holds(rec.row, q) ==> Fits(steps, rec.row, d)
    ensures var tx := Move(rec, from, q, d, step, item, None, false, next);
            tx.Committed? ==> Logs(steps, rec, tx.rec, d.events)
  {
    hide Holds, Put, Tell, Told, Passed, Untouched, Next, ChangeItem, Cancelling, Left;
  }

  /** What one or two events make of a status. */
  function Short(s: Status, events: seq<Event>): Status
    requires 1 <= |events| <= 2
  {
    if |events| == 1 then Told(s, events[0].kind) else Told(Told(s, events[0].kind), events[1].kind)
  }

  /** Only the first event of a decision may tell of a completed step, and then the step is the next. */
  predicate StepFits(steps: seq<string>, was: string, now: string, events: seq<Event>)
    requires 1 <= |events| <= 2
  {
    && (|events| == 2 ==> !events[1].kind.StepCompleted?)
    && (events[0].kind.FieldSet? || if events[0].kind.StepCompleted? then Next(steps, was) == Advance(now) else now == was)
  }

  lemma FitsShort(steps: seq<string>, row: Task, d: Decision)
    requires 1 <= |d.events| <= 2 && Agrees(Short(row.status, d.events), Put(row, d.patch).status)
    requires StepFits(steps, row.step, Put(row, d.patch).step, d.events)
    ensures Fits(steps, row, d)
  {
    hide Told, Next;
    var a, b := d.events[0], d.events[|d.events| - 1];
    assert d.events == if |d.events| == 1 then [a] else [a, b];
    assert [] + d.events == d.events;
    Brief(row.status, a, b, b);
    hide Tell, Passed;
  }

  lemma SettleLogs(steps: seq<string>, rec: Record, snap: Task, noRetry: bool, checkAlive: bool, reason: string, next: TaskId)
    ensures var tx := SettleRound(rec, snap, noRetry, checkAlive, reason, next);
            tx.Committed? ==> Logs(steps, rec, tx.rec, SettleDecision(snap, noRetry, reason).events)
  {
    if Executing(snap.status) {
      hide Fits, Move, Holds;
      FitsShort(steps, rec.row, SettleDecision(snap, noRetry, reason));
      MoveLogs(steps, rec, snap.status, SettleRequire(snap, checkAlive), SettleDecision(snap, noRetry, reason), snap.step, NoItem, next);
    }
  }

  lemma RequeueLogs(steps: seq<string>, rec: Record, snap: Task, next: TaskId) returns (es: seq<Event>)
    ensures Logs(steps, rec, RequeueRound(rec, snap, next), es)
  {
    var d := Decision(NOTHING.(status := Set(Queued), nextRetryAt := Set(None)), [Event(RetryEvent, snap.step)]);
    FitsShort(steps, rec.row, d);
    MoveLogs(steps, rec, Failed, ANYTHING, d, snap.step, NoItem, next);
    es := if Move(rec, Failed, ANYTHING, d, snap.step, NoItem, None, false, next).Committed? then d.events else [];
    hide Move, Fits, Logs;
    if es == [] { NothingLogged(steps, rec, rec); }
  }

  lemma SkipLogs(steps: seq<string>, rec: Record, snap: Task, seen: bool, next: TaskId) returns (es: seq<Event>)
    ensures Logs(steps, rec, SkipRound(steps, rec, snap, seen, next), es)
  {
    hide Fits, Move, Logs, Next, Holds;
    NothingLogged(steps, rec, rec);
    es := [];
    if snap.status.Queued? && !Next(steps, snap.step).NotInWorkflow? {
      var d := SkipDecision(steps, snap, seen);
      SkipFits(steps, rec.row, snap, seen);
      MoveLogs(steps, rec, Queued, ANYTHING.(step := Set(snap.step)), d, snap.step, NoItem, next);
      if Move(rec, Queued, ANYTHING.(step := Set(snap.step)), d, snap.step, NoItem, None, false, next).Committed? { es := d.events; }
    }
  }

  function SkipDecision(steps: seq<string>, snap: Task, seen: bool): Decision {
    match Next(steps, snap.step)
    case Advance(to) => Decision(NOTHING.(step := Set(to)), [Event(StepCompleted, snap.step)])
    case _ => Decision(NOTHING.(status := Set(FinalStatus(false, seen))), [Event(CompletedEvent, snap.step)])
  }

  lemma SkipFits(steps: seq<string>, row: Task, snap: Task, seen: bool)
    requires !Next(steps, snap.step).NotInWorkflow?
    ensures row.status == Queued && Holds(row, ANYTHING.(step := Set(snap.step))) ==> Fits(steps, row, SkipDecision(steps, snap, seen))
  {
    hide Fits;
    if row.status == Queued && row.step == snap.step { FitsShort(steps, row, SkipDecision(steps, snap, seen)); }
  }

  lemma ClaimLogs(steps: seq<string>, rec: Record, snap: Task, worker: string, now: int, token: Token, next: TaskId) returns (es: seq<Event>)
    ensures Logs(steps, rec, ClaimRound(rec, snap, worker, now, token, next).0, es)
  {
    NothingLogged(steps, rec, rec);
    es := [];
    if snap.status.Queued? && snap.terminateRequested {
      var d := Decision(RELEASE.(status := Set(Terminated), terminate := Set(false)), [Event(TerminatedEvent, snap.step)]);
      FitsShort(steps, rec.row, d);
      MoveLogs(steps, rec, Queued, ANYTHING.(terminate := Set(true)), d, snap.step, NoItem, next);
      if Move(rec, Queued, ANYTHING.(terminate := Set(true)), d, snap.step, NoItem, None, false, next).Committed? { es := d.events; }
      hide Move, Fits, Logs;
    } else if ClaimQueued(rec, worker, now, token, Event(ClaimedEvent, snap.step)).Some? {
      es := [Event(ClaimedEvent, snap.step)];
      Brief(Queued, es[0], es[0], es[0]);
    }
  }

  lemma UserLogs(steps: seq<string>, rec: Record, snap: Task, req: Request, next: TaskId) returns (es: seq<Event>)
    ensures Logs(steps, rec, After(rec, UserRound(steps, rec, snap, req, next)), es)
  {
    hide Decide, Fits, Move, Logs, Holds, Tell, Told, Untouched, Passed, Placed, Agrees, Next, Put;
    NothingLogged(steps, rec, rec);
    es := [];
    var itemStep := if req.Submit? && req.item < |rec.items| then Some(rec.items[req.item].step) else None;
    var decision := Decide(steps, snap, req, itemStep);
    if decision.Do? {
      if rec.row.status == snap.status { DecideFits(steps, rec.row, snap, req, itemStep); }
      MoveLogs(steps, rec, snap.status, ANYTHING, decision.decision, snap.step, decision.item, next);
      if UserRound(steps, rec, snap, req, next).Committed? { es := decision.decision.events; }
    }
  }

  lemma DecideFits(steps: seq<string>, row: Task, snap: Task, req: Request, itemStep: Option<string>)
    requires row.status == snap.status && Decide(steps, snap, req, itemStep).Do?
    ensures Fits(steps, row, Decide(steps, snap, req, itemStep).decision)
  {
    hide Fits;
    DecideTells(steps, row, snap, req, itemStep);
    DecidePlaces(steps, row, snap, req, itemStep);
    hide Decide;
    FitsShort(steps, row, Decide(steps, snap, req, itemStep).decision);
  }

  lemma DecideTells(steps: seq<string>, row: Task, snap: Task, req: Request, itemStep: Option<string>)
    requires row.status == snap.status && Decide(steps, snap, req, itemStep).Do?
    ensures var d := Decide(steps, snap, req, itemStep).decision;
            1 <= |d.events| <= 2 && Agrees(Short(row.status, d.events), Put(row, d.patch).status)
  {
    hide Next, Tell;
  }

  lemma DecidePlaces(steps: seq<string>, row: Task, snap: Task, req: Request, itemStep: Option<string>)
    requires Decide(steps, snap, req, itemStep).Do?
    ensures var d := Decide(steps, snap, req, itemStep).decision;
            1 <= |d.events| <= 2 && StepFits(steps, row.step, Put(row, d.patch).step, d.events)
  {
    hide Next, Tell, Told;
  }

  lemma BoundaryLogs(cfg: Config, rec: Record, o: Outcome, inp: Input, rec': Record, next: TaskId) returns (es: seq<Event>)
    requires Decided(cfg, rec, o, inp, rec', next)
    ensures Logs(Steps(cfg, rec.row.workflow), rec, rec', es)
  {
    hide Boundary, Fits, BoundaryItem, ChangeItem, Cancelling, SpawnAll, Logs, Put;
    var row := rec.row;
    var steps := Steps(cfg, row.workflow);
    var d := Boundary(steps, row, o, row.terminateRequested, row.pauseRequested, inp.seenDegraded, inp.now).value;
    BoundaryFits(steps, row, o, inp);
    es := d.events;
    if Spawns(o, d.patch) {
      var told := rec'.events[|rec'.events| - 1];
      es := d.events + [told];
      assert rec'.events == rec.events + es;
    }
    hide Spawns, Decided;
    FitsLogs(steps, rec, rec', d, es);
  }

  /** Spawned children change nothing about the status and the step. */
  lemma FitsLogs(steps: seq<string>, rec: Record, rec': Record, d: Decision, es: seq<Event>)
    requires Fits(steps, rec.row, d) && rec'.events == rec.events + es
    requires var row := Put(rec.row, d.patch); rec'.row.status == row.status && rec'.row.step == row.step && rec'.row.workflow == row.workflow
    requires es == d.events || (|es| == |d.events| + 1 && es[..|d.events|] == d.events && es[|d.events|].kind.ChildrenSpawned?)
    ensures Logs(steps, rec, rec', es)
  {
    hide Put, Next;
    if es != d.events {
      assert Untouched(es) ==> Untouched(d.events) by {
        if Untouched(es) { forall i | 0 <= i < |d.events| ensures !d.events[i].kind.FieldSet? { assert d.events[i] == es[i]; } }
      }
    }
  }

  lemma BoundaryFits(steps: seq<string>, row: Task, o: Outcome, inp: Input)
    requires Boundary(steps, row, o, row.terminateRequested, row.pauseRequested, inp.seenDegraded, inp.now).Some?
    ensures Fits(steps, row, Boundary(steps, row, o, row.terminateRequested, row.pauseRequested, inp.seenDegraded, inp.now).value)
  {
    hide Fits, IndexOf;
    FitsShort(steps, row, Boundary(steps, row, o, row.terminateRequested, row.pauseRequested, inp.seenDegraded, inp.now).value);
  }

  lemma ItemLogs(steps: seq<string>, rec: Record, i: ItemId, client: Token, holder: Option<Token>) returns (taken: seq<Event>, given: seq<Event>)
    ensures Logs(steps, rec, ClaimItem(rec, i, client), taken) && Logs(steps, rec, ReleaseItem(rec, i, holder), given)
  {
    NothingLogged(steps, rec, rec);
    taken, given := [], [];
    if ClaimItem(rec, i, client) != rec { taken := [Event(ItemClaimed, rec.items[i].step)]; }
    if ReleaseItem(rec, i, holder) != rec { given := [Event(ItemReleased, rec.items[i].step)]; }
    Brief(rec.row.status, Event(ItemClaimed, ""), Event(ItemReleased, ""), Event(ItemReleased, ""));
  }

  // -- every action ---------------------------------------------------------------------------------------------

  lemma WorkLogs(cfg: Config, ts: TaskSys, token: Token, inp: Input, drawn: Token, next: TaskId) returns (es: seq<Event>)
    requires TaskOk(cfg, ts, drawn) && Enabled(ts, Work(token, inp))
    ensures Logs(Steps(cfg, ts.rec.row.workflow), ts.rec, TaskStep(cfg, ts, Work(token, inp), drawn, next).sys.rec, es)
  {
    var rec' := TaskStep(cfg, ts, Work(token, inp), drawn, next).sys.rec;
    es := [];
    if !Current(ts.rec, token) {
      hide TaskOk, TaskStep;
      Fenced(cfg, ts, Work(token, inp), token, drawn, next);
      NothingLogged(Steps(cfg, ts.rec.row.workflow), ts.rec, rec');
    } else if !ts.jobs[token].Finishing? {
      hide TaskOk, JobStep, Logs;
      ProgramWrites(cfg, ts.rec, token, ts.jobs[token], inp, next);
      NothingLogged(Steps(cfg, ts.rec.row.workflow), ts.rec, rec');
    } else {
      es := FinishLogs(cfg, ts, token, inp, drawn, next);
    }
  }

  lemma FinishLogs(cfg: Config, ts: TaskSys, token: Token, inp: Input, drawn: Token, next: TaskId) returns (es: seq<Event>)
    requires TaskOk(cfg, ts, drawn) && Enabled(ts, Work(token, inp)) && Current(ts.rec, token) && ts.jobs[token].Finishing?
    ensures Logs(Steps(cfg, ts.rec.row.workflow), ts.rec, TaskStep(cfg, ts, Work(token, inp), drawn, next).sys.rec, es)
  {
    var rec' := TaskStep(cfg, ts, Work(token, inp), drawn, next).sys.rec;
    if rec'.row.lock.token.None? {
      hide TaskOk, TaskStep, Logs, Decided, OutcomeOk;
      EndDecided(cfg, ts, token, inp, drawn, next);
      es := BoundaryLogs(cfg, ts.rec, ts.jobs[token].outcome, inp, rec', next);
    } else {
      FinishSound(cfg, ts, token, inp, drawn, next);
      hide TaskOk, JobStep, Logs;
      es := [];
      NothingLogged(Steps(cfg, ts.rec.row.workflow), ts.rec, rec');
    }
  }

  lemma ActionLogs(cfg: Config, ts: TaskSys, a: Action, drawn: Token, next: TaskId) returns (es: seq<Event>)
    requires TaskOk(cfg, ts, drawn) && Enabled(ts, a)
    ensures Logs(Steps(cfg, ts.rec.row.workflow), ts.rec, TaskStep(cfg, ts, a, drawn, next).sys.rec, es)
  {
    hide TaskOk, Logs, JobStep, ClaimRound, RequeueRound, SkipRound, UserRound, SettleRound, ClaimItem, ReleaseItem;
    var rec, steps := ts.rec, Steps(cfg, ts.rec.row.workflow);
    es := [];
    match a
    case Work(token, inp) => es := WorkLogs(cfg, ts, token, inp, drawn, next);
    case Claim(snap, worker, now) => es := ClaimLogs(steps, rec, snap, worker, now, drawn, next);
    case Requeue(snap) => es := RequeueLogs(steps, rec, snap, next);
    case Skip(snap, seen) => es := SkipLogs(steps, rec, snap, seen, next);
    case User(snap, req) => es := UserLogs(steps, rec, snap, req, next);
    case Settle(snap, checkAlive, reason) =>
      SettleLogs(steps, rec, snap, NoRetry(cfg, snap.step), checkAlive, reason, next);
      if SettleRound(rec, snap, NoRetry(cfg, snap.step), checkAlive, reason, next).Committed? { es := SettleDecision(snap, NoRetry(cfg, snap.step), reason).events; }
      else { NothingLogged(steps, rec, rec); }
    case TakeItem(i, client) =>
      var given;
      es, given := ItemLogs(steps, rec, i, client, None);
    case GiveItem(i, holder) =>
      var taken;
      taken, es := ItemLogs(steps, rec, i, 0, holder);
    case _ => NothingLogged(steps, rec, TaskStep(cfg, ts, a, drawn, next).sys.rec);
  }

  // -- every run ------------------------------------------------------------------------------------------------

  predicate TrailsIn(cfg: Config, tasks: map<TaskId, TaskSys>) {
    forall t {:trigger t in tasks} :: t in tasks ==> TrailOk(cfg, tasks[t].rec)
  }

  lemma NewTrail(cfg: Config, c: Child, parent: Option<TaskId>)
    requires FirstStepOf(cfg, c)
    ensures TrailOk(cfg, NewTask(c.workflow, c.firstStep, c.maxRetries, parent).rec)
  {
    var e := Event(Created, c.firstStep);
    Brief(Queued, e, e, e);
  }

  lemma TurnTrails(cfg: Config, s: Sys, m: Turn)
    requires SysOk(cfg, s) && TrailsIn(cfg, s.tasks)
    ensures TrailsIn(cfg, Step(cfg, s, m).tasks)
  {
    Below(cfg, s);
    match m
    case Crash =>
    case Create(workflow, maxRetries) =>
      if Steps(cfg, workflow) != [] { NewTrail(cfg, Child(workflow, Steps(cfg, workflow)[0], maxRetries, None), None); }
    case On(t, a) =>
      if t in s.tasks {
        At(cfg, s, t);
        BornFrom(cfg, s.tasks[t], a, s.nextToken, s.nextTask);
        hide SysOk, TaskOk;
        OnTrails(cfg, s, t, a);
      }
  }

  lemma OnTrails(cfg: Config, s: Sys, t: TaskId, a: Action)
    requires TrailsIn(cfg, s.tasks) && t in s.tasks && (forall u :: u in s.tasks ==> u < s.nextTask) && TaskOk(cfg, s.tasks[t], s.nextToken)
    requires var born := TaskStep(cfg, s.tasks[t], a, s.nextToken, s.nextTask).born; forall i :: 0 <= i < |born| ==> FirstStepOf(cfg, born[i])
    ensures TrailsIn(cfg, Step(cfg, s, On(t, a)).tasks)
  {
    hide TaskOk, TaskStep, TrailOk, FirstStepOf, Insert, Enabled;
    var e := TaskStep(cfg, s.tasks[t], a, s.nextToken, s.nextTask);
    if Enabled(s.tasks[t], a) {
      var es := ActionLogs(cfg, s.tasks[t], a, s.nextToken, s.nextTask);
      LogsKeep(cfg, s.tasks[t].rec, e.sys.rec, es);
    } else { DisabledStep(cfg, s.tasks[t], a, s.nextToken, s.nextTask); }
    InsertTrails(cfg, s.tasks[t := e.sys], t, e.born, s.nextTask);
    OnStep(cfg, s, t, a);
  }

  lemma DisabledStep(cfg: Config, ts: TaskSys, a: Action, drawn: Token, next: TaskId)
    requires !Enabled(ts, a)
    ensures TaskStep(cfg, ts, a, drawn, next).sys == ts
  {
  }

  lemma {:induction false} InsertTrails(cfg: Config, tasks: map<TaskId, TaskSys>, parent: TaskId, born: seq<Child>, next: TaskId)
    requires TrailsIn(cfg, tasks) && forall i :: 0 <= i < |born| ==> FirstStepOf(cfg, born[i])
    ensures TrailsIn(cfg, Insert(tasks, parent, born, next))
  {
    if born != [] {
      var n := |born| - 1;
      InsertTrails(cfg, tasks, parent, born[..n], next);
      NewTrail(cfg, born[n], Some(parent));
      hide TrailOk, FirstStepOf, NewTask;
    }
  }

  lemma {:induction false} Trails(cfg: Config, moves: seq<Turn>)
    ensures SysOk(cfg, Play(cfg, EMPTY, moves)) && TrailsIn(cfg, Play(cfg, EMPTY, moves).tasks)
  {
    Reachable(cfg, moves);
    if moves != [] {
      var n := |moves| - 1;
      Trails(cfg, moves[..n]);
      hide SysOk, TrailsIn, Step;
      TurnTrails(cfg, Play(cfg, EMPTY, moves[..n]), moves[n]);
    }
  }

  /** In every reachable state the log accounts for the task: replayed from `queued` it gives the
      status, up to what degraded steps make of a finished one; and while no user has set a field, the
      task has advanced from its first step exactly as often as the log says a step was completed. */
  lemma {:induction false} AuditTrail(cfg: Config, moves: seq<Turn>, t: TaskId)
    requires t in Play(cfg, EMPTY, moves).tasks
    ensures var rec := Play(cfg, EMPTY, moves).tasks[t].rec;
            var steps := Steps(cfg, rec.row.workflow);
            && (rec.row.status == Tell(Queued, rec.events) || (rec.row.status.PartiallyCompleted? && Tell(Queued, rec.events).Completed?))
            && ((forall i :: 0 <= i < |rec.events| ==> !rec.events[i].kind.FieldSet?) ==>
                  steps != [] && Reached(steps, steps[0], Passed(rec.events)) == Some(rec.row.step))
  {
    Trails(cfg, moves);
    assert TrailOk(cfg, Play(cfg, EMPTY, moves).tasks[t].rec);
  }
}
