/** A history in which a step runs over its quota: a forced set-step between the scheduler's read of
    the queue and its claim. */
module Overruns {
  import opened Models
  import opened Records
  import opened StateMachine
  import opened Worker
  import opened Protocol
  import opened Executor
  import opened Quotas

  lemma HistoryOn(cfg: Config, quota: map<string, nat>, deeds: seq<Deed>, d: Deed)
    ensures History(cfg, quota, START, deeds + [d]) == Doing(cfg, quota, History(cfg, quota, START, deeds), d)
  {
    hide Doing;
    assert (deeds + [d])[..|deeds|] == deeds;
  }

  predicate AllQueued(sys: Sys) {
    forall t {:trigger t in sys.tasks} :: t in sys.tasks ==> sys.tasks[t].rec.row.status.Queued?
  }

  /** What the scheduler does next while nothing runs, is stale or has failed. */
  function PhaseAfter(sys: Sys, phase: Phase): Phase {
    match phase
    case Recovering(_, pausing) => if pausing then Idle else Recovering({}, true)
    case Idle => Reclaiming(map[])
    case Reclaiming(_) => Requeuing({})
    case Requeuing(_) => Counting(map[])
    case Counting(_) => Loaded(map[])
    case Loaded(load) => Queueing(RowsOf(sys, Listed(sys, Queued)), load)
    case _ => phase
  }

  predicate Nothing(phase: Phase) {
    match phase
    case Recovering(todo, _) => todo == {}
    case Reclaiming(stale) => stale == map[]
    case Requeuing(due) => due == {}
    case Counting(running) => running == map[]
    case Loaded(load) => load == map[]
    case Idle => true
    case _ => false
  }

  function Sched(pick: TaskId, row: Task): Deed {
    Schedule(SchedInput(pick, {}, true, row, false, 0, false))
  }

  /** A process holds the lock, with nothing in flight. */
  function Holding1(sys: Sys, phase: Phase): World {
    World(sys, Some(Exec(phase, None, map[], sys.nextToken)))
  }

  lemma NothingToDo(cfg: Config, quota: map<string, nat>, sys: Sys, phase: Phase, row: Task)
    requires AllQueued(sys) && Nothing(phase)
    ensures Doing(cfg, quota, Holding1(sys, phase), Sched(0, row)) == Holding1(sys, PhaseAfter(sys, phase))
    ensures !phase.Loaded? ==> Nothing(PhaseAfter(sys, phase))
  {
    hide Listed, RowsOf, StepsOf, TotalLoad, DueFailures, Executes, Step, AllQueued, Considered, SettleNext;
    NothingListed(sys);
  }

  lemma NothingListed(sys: Sys)
    requires AllQueued(sys)
    ensures Listed(sys, Running) == {} && Listed(sys, PausePending) == {} && DueFailures(sys, 0) == {}
    ensures RowsOf(sys, Executes(sys) * {}) == map[] && TotalLoad(map[], map[]) == map[]
    ensures StepsOf(sys, Listed(sys, Running)) == map[] && StepsOf(sys, Listed(sys, PausePending)) == map[]
  {
    assert Listed(sys, Running) == {} && Listed(sys, PausePending) == {} && Listed(sys, Failed) == {} && Executes(sys) == {};
    assert DueFailures(sys, 0) == {};
    assert RowsOf(sys, Executes(sys) * {}) == map[];
    assert StepsOf(sys, Listed(sys, Running)) == map[] && StepsOf(sys, Listed(sys, PausePending)) == map[];
    assert TotalLoad(map[], map[]) == map[];
  }

  /** From a fresh lock to the walk of the queue. */
  lemma ComesToQueue(cfg: Config, quota: map<string, nat>, deeds: seq<Deed>, sys: Sys, row: Task) returns (longer: seq<Deed>)
    requires History(cfg, quota, START, deeds) == World(sys, None) && AllQueued(sys)
    ensures History(cfg, quota, START, longer) == Holding1(sys, Queueing(RowsOf(sys, Listed(sys, Queued)), map[]))
  {
    assert Listed(sys, Running) == {};
    HistoryOn(cfg, quota, deeds, Acquire);
    longer := deeds + [Acquire];
    var phase := Recovering({}, false);
    assert History(cfg, quota, START, longer) == Holding1(sys, phase);
    hide History, Doing, Listed, RowsOf, AllQueued, Holding1, Sched;
    var n := 7;
    while n > 0
      invariant n <= 7 && History(cfg, quota, START, longer) == Holding1(sys, phase)
      invariant n > 0 ==> Nothing(phase) && n == PhasesLeft(phase)
      invariant n == 0 ==> phase == Queueing(RowsOf(sys, Listed(sys, Queued)), map[])
    {
      NothingToDo(cfg, quota, sys, phase, row);
      HistoryOn(cfg, quota, longer, Sched(0, row));
      longer := longer + [Sched(0, row)];
      phase := PhaseAfter(sys, phase);
      n := n - 1;
    }
  }

  function PhasesLeft(phase: Phase): nat {
    match phase
    case Recovering(_, pausing) => if pausing then 6 else 7
    case Idle => 5
    case Reclaiming(_) => 4
    case Requeuing(_) => 3
    case Counting(_) => 2
    case Loaded(_) => 1
    case _ => 0
  }

  // -- the history --------------------------------------------------------------------------------------

  function Two(w1: string, w2: string, a: string, b: string): Sys {
    Sys(map[0 := NewTask(w1, a, 0, None), 1 := NewTask(w2, b, 0, None)], 2, 0)
  }

  lemma Created2(cfg: Config, quota: map<string, nat>, w1: string, w2: string, a: string, b: string) returns (deeds: seq<Deed>)
    requires Steps(cfg, w1) == [a, b] && Steps(cfg, w2) == [b]
    ensures History(cfg, quota, START, deeds) == World(Two(w1, w2, a, b), None)
  {
    hide Steps;
    HistoryOn(cfg, quota, [], Outside(Create(w1, 0)));
    deeds := [] + [Outside(Create(w1, 0))];
    HistoryOn(cfg, quota, deeds, Outside(Create(w2, 0)));
    deeds := deeds + [Outside(Create(w2, 0))];
  }

  /** What the set-step and a claim make of a new task. */
  lemma Forced(cfg: Config, ts: TaskSys, b: string, drawn: Token, next: TaskId)
    requires ts == NewTask(ts.rec.row.workflow, ts.rec.row.step, 0, None) && b in Steps(cfg, ts.rec.row.workflow)
    ensures var e := TaskStep(cfg, ts, User(ts.rec.row, SetStep(b, true)), drawn, next);
            e.born == [] && e.sys.rec.row == ts.rec.row.(step := b) && ts.rec.row in e.sys.past && e.sys.rec.row in e.sys.past
  {
  }

  lemma ClaimedHere(cfg: Config, ts: TaskSys, snap: Task, drawn: Token, next: TaskId)
    requires snap in ts.past && snap.status.Queued? && !snap.terminateRequested && ts.rec.row.status.Queued? && !ts.rec.row.terminateRequested
    ensures var e := TaskStep(cfg, ts, Claim(snap, "pool", 0), drawn, next);
            e.born == [] && e.sys.rec.row.status.Running? && e.sys.rec.row.step == ts.rec.row.step && e.sys.rec.row.lock.token == Some(drawn)
  {
  }

  lemma TurnOn(cfg: Config, s: Sys, t: TaskId, a: Action)
    requires t in s.tasks && TaskStep(cfg, s.tasks[t], a, s.nextToken, s.nextTask).born == []
    ensures Step(cfg, s, On(t, a))
         == Sys(s.tasks[t := TaskStep(cfg, s.tasks[t], a, s.nextToken, s.nextTask).sys], s.nextTask, s.nextToken + 1)
  {
    hide TaskStep;
  }

  /** The scheduler's claim of the task it comes to. */
  lemma Takes(cfg: Config, quota: map<string, nat>, w: World, t: TaskId, snap: Task)
    requires w.lock.Some? && w.lock.value.settle.None? && w.lock.value.phase.Queueing?
    requires var p := w.lock.value.phase;
             && t in p.queue && DueAt(p.queue[t], 0) && p.queue[t].workflow in cfg.workflows && p.queue[t].step in cfg.registry
             && LoadOf(p.load, p.queue[t].step) < Quota(quota, p.queue[t].step)
    requires t in w.sys.tasks && snap in w.sys.tasks[t].past && snap.status.Queued? && !snap.terminateRequested
    requires w.sys.tasks[t].rec.row.status.Queued? && !w.sys.tasks[t].rec.row.terminateRequested
    ensures var w' := Doing(cfg, quota, w, Sched(t, snap));
            var p := w.lock.value.phase;
            var step := p.queue[t].step;
            && w'.sys.tasks.Keys == w.sys.tasks.Keys && (forall u :: u in w.sys.tasks && u != t ==> w'.sys.tasks[u] == w.sys.tasks[u])
            && w'.sys.tasks[t].rec.row.status.Running? && w'.sys.tasks[t].rec.row.step == w.sys.tasks[t].rec.row.step
            && w'.lock.Some? && w'.lock.value.settle.None?
            && w'.lock.value.phase == Queueing(p.queue - {t}, p.load[step := LoadOf(p.load, step) + 1])
  {
    ClaimedHere(cfg, w.sys.tasks[t], snap, w.sys.nextToken, w.sys.nextTask);
    TurnOn(cfg, w.sys, t, Claim(snap, "pool", 0));
    hide TaskStep, Step;
  }

  /** Two tasks are listed on two steps; one is forced onto the other's step; both are claimed. */
  lemma ForcedOverQuota(cfg: Config, quota: map<string, nat>, w1: string, w2: string, a: string, b: string) returns (deeds: seq<Deed>)
    requires Steps(cfg, w1) == [a, b] && Steps(cfg, w2) == [b] && a != b && a in cfg.registry && b in cfg.registry
    requires w1 in cfg.workflows && w2 in cfg.workflows && Quota(quota, a) >= 1 && Quota(quota, b) == 1
    ensures Busy(History(cfg, quota, START, deeds).sys, b) == {0, 1} && |Busy(History(cfg, quota, START, deeds).sys, b)| > Quota(quota, b)
  {
    hide Steps, History, Doing, Step, TaskStep;
    var s0 := Two(w1, w2, a, b);
    var row0, row1 := s0.tasks[0].rec.row, s0.tasks[1].rec.row;
    deeds := Created2(cfg, quota, w1, w2, a, b);
    deeds := ComesToQueue(cfg, quota, deeds, s0, row0);
    assert RowsOf(s0, Listed(s0, Queued)) == map[0 := row0, 1 := row1];
    var set0 := Outside(On(0, User(row0, SetStep(b, true))));
    Forces(cfg, quota, s0, Queueing(map[0 := row0, 1 := row1], map[]), 0, b);
    HistoryOn(cfg, quota, deeds, set0);
    deeds := deeds + [set0];
    deeds := BothTaken(cfg, quota, deeds, row0, row1, a, b);
  }

  /** Both listed tasks are claimed, the one that was moved last. */
  lemma BothTaken(cfg: Config, quota: map<string, nat>, deeds: seq<Deed>, row0: Task, row1: Task, a: string, b: string) returns (longer: seq<Deed>)
    requires a != b && a in cfg.registry && b in cfg.registry && Quota(quota, a) >= 1 && Quota(quota, b) == 1
    requires row0.workflow in cfg.workflows && row1.workflow in cfg.workflows && row0.step == a && row1.step == b
    requires forall row :: row in {row0, row1} ==> row.status.Queued? && !row.terminateRequested && row.nextRetryAt.None?
    requires var w := History(cfg, quota, START, deeds);
             && w.sys.tasks.Keys == {0, 1} && w.sys.tasks[0].rec.row == row0.(step := b) && w.sys.tasks[1].rec.row == row1
             && row0 in w.sys.tasks[0].past && row1 in w.sys.tasks[1].past
             && w.lock.Some? && w.lock.value.settle.None? && w.lock.value.phase == Queueing(map[0 := row0, 1 := row1], map[])
    ensures Busy(History(cfg, quota, START, longer).sys, b) == {0, 1}
  {
    hide History, Doing, Quota;
    Takes(cfg, quota, History(cfg, quota, START, deeds), 1, row1);
    HistoryOn(cfg, quota, deeds, Sched(1, row1));
    longer := deeds + [Sched(1, row1)];
    assert row0.step != row1.step;
    Takes(cfg, quota, History(cfg, quota, START, longer), 0, row0);
    HistoryOn(cfg, quota, longer, Sched(0, row0));
    longer := longer + [Sched(0, row0)];
  }

  lemma Forces(cfg: Config, quota: map<string, nat>, s: Sys, phase: Phase, t: TaskId, b: string)
    requires t in s.tasks && s.tasks[t] == NewTask(s.tasks[t].rec.row.workflow, s.tasks[t].rec.row.step, 0, None)
    requires b in Steps(cfg, s.tasks[t].rec.row.workflow)
    ensures var row := s.tasks[t].rec.row;
            var w' := Doing(cfg, quota, Holding1(s, phase), Outside(On(t, User(row, SetStep(b, true)))));
            && w'.lock == Holding1(s, phase).lock
            && w'.sys.tasks.Keys == s.tasks.Keys && (forall u :: u in s.tasks && u != t ==> w'.sys.tasks[u] == s.tasks[u])
            && w'.sys.tasks[t].rec.row == row.(step := b) && row in w'.sys.tasks[t].past
  {
    var row := s.tasks[t].rec.row;
    Forced(cfg, s.tasks[t], b, s.nextToken, s.nextTask);
    TurnOn(cfg, s, t, User(row, SetStep(b, true)));
    hide TaskStep, Step;
  }
}
