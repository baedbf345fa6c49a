/** Under the executor lock no live worker is ever stale: the lock, recovery before scheduling,
    the in-flight table and the order of a worker's end together see to it. */
module ExecutorProof {
  import opened Models
  import opened Records
  import opened StateMachine
  import opened Worker
  import opened Protocol
  import opened Invariant
  import opened InvariantProof
  import opened Safety
  import opened Executor

  function Tok(ts: TaskSys): Option<Token> {
    ts.rec.row.lock.token
  }

  // -- what a turn does to claims and workers ----------------------------------------------------

  /** Claims and workers before and after an action. */
  predicate ClaimEffect(ts: TaskSys, ts': TaskSys, a: Action, drawn: Token) {
    match a
    case Work(k, _) =>
      && k in ts.jobs && k in ts'.jobs && ts'.jobs == ts.jobs[k := ts'.jobs[k]]
      && (Tok(ts) == Some(k) ==> Tok(ts') == Tok(ts) || (Tok(ts').None? && ts'.jobs[k].Ended?))
      && (Tok(ts) != Some(k) ==> Tok(ts') == Tok(ts))
      && (ts.jobs[k].Ended? ==> ts'.jobs[k].Ended? && Tok(ts') == Tok(ts))
    case Claim(_, _, _) =>
      || (ts'.jobs == ts.jobs && Tok(ts') == Tok(ts))
      || (Tok(ts).None? && Tok(ts') == Some(drawn) && ts'.jobs == ts.jobs[drawn := Fresh])
    case Settle(_, _, _) => ts'.jobs == ts.jobs && (Tok(ts') == Tok(ts) || Tok(ts').None?)
    case Die(k) => ts'.jobs == ts.jobs - {k} && ts'.rec == ts.rec
    case _ => ts'.jobs == ts.jobs && Tok(ts') == Tok(ts)
  }

  lemma UserKeepsToken(steps: seq<string>, rec: Record, snap: Task, req: Request, next: TaskId)
    ensures After(rec, UserRound(steps, rec, snap, req, next)).row.lock == rec.row.lock
  {
  }

  lemma SkipKeepsToken(steps: seq<string>, rec: Record, snap: Task, seen: bool, next: TaskId)
    ensures SkipRound(steps, rec, snap, seen, next).row.lock == rec.row.lock
  {
  }

  lemma WorkClaims(cfg: Config, ts: TaskSys, k: Token, inp: Input, drawn: Token, next: TaskId)
    requires TaskOk(cfg, ts, drawn) && Enabled(ts, Work(k, inp))
    ensures ClaimEffect(ts, TaskStep(cfg, ts, Work(k, inp), drawn, next).sys, Work(k, inp), drawn)
  {
    var ts' := TaskStep(cfg, ts, Work(k, inp), drawn, next).sys;
    if ts.jobs[k].Finishing? {
      FinishSound(cfg, ts, k, inp, drawn, next);
      FinishKeepsRow(cfg, ts.rec, k, inp.row, ts.jobs[k].outcome, inp.seenDegraded, inp.now, next);
      if Tok(ts) != Some(k) { Fenced(cfg, ts, Work(k, inp), k, drawn, next); }
    } else {
      ProgramWrites(cfg, ts.rec, k, ts.jobs[k], inp, next);
    }
  }

  lemma ClaimsStep(cfg: Config, ts: TaskSys, a: Action, drawn: Token, next: TaskId)
    requires TaskOk(cfg, ts, drawn) && Enabled(ts, a)
    ensures ClaimEffect(ts, TaskStep(cfg, ts, a, drawn, next).sys, a, drawn)
  {
    hide TaskOk, TaskStep, ClaimEffect;
    if a.Work? { WorkClaims(cfg, ts, a.token, a.inp, drawn, next); }
    else if a.Claim? { ClaimClaims(cfg, ts, a, drawn, next); }
    else { OtherClaims(cfg, ts, a, drawn, next); }
  }

  lemma ClaimClaims(cfg: Config, ts: TaskSys, a: Action, drawn: Token, next: TaskId)
    requires TaskOk(cfg, ts, drawn) && Enabled(ts, a) && a.Claim?
    ensures ClaimEffect(ts, TaskStep(cfg, ts, a, drawn, next).sys, a, drawn)
  {
    hide PastOk, ReleasedOk, JobsOk, RecordOk, Calm, ClaimRound;
    ClaimKeeps(cfg, ts.rec, a.snap, a.worker, a.now, drawn, next);
    ClaimWon(cfg, ts.rec, a.snap, a.worker, a.now, drawn, next);
  }

  lemma OtherClaims(cfg: Config, ts: TaskSys, a: Action, drawn: Token, next: TaskId)
    requires Enabled(ts, a) && !a.Work? && !a.Claim?
    ensures ClaimEffect(ts, TaskStep(cfg, ts, a, drawn, next).sys, a, drawn)
  {
    if a.User? {
      hide UserRound, After;
      UserKeepsToken(Steps(cfg, ts.rec.row.workflow), ts.rec, a.snap, a.req, next);
    } else if a.Skip? {
      hide SkipRound;
      SkipKeepsToken(Steps(cfg, ts.rec.row.workflow), ts.rec, a.snap, a.seenDegraded, next);
    }
  }

  lemma ClaimWon(cfg: Config, rec: Record, snap: Task, worker: string, now: int, drawn: Token, next: TaskId)
    requires RecordOk(cfg, rec)
    ensures var r := ClaimRound(rec, snap, worker, now, drawn, next);
            r.1 ==> rec.row.lock.token.None? && r.0.row.lock.token == Some(drawn)
  {
    hide AttemptsOk, ItemsOk, GrantOk;
  }

  /** A task nobody has claimed yet. */
  predicate Unstarted(ts: TaskSys) {
    ts.jobs == map[] && Tok(ts).None? && ts.rec.runs == []
  }

  /** One action on one task, seen from the whole system: that task's claims and workers change
      as above, the others not at all, and new tasks are idle. */
  predicate OnlyTask(s: Sys, s': Sys, t: TaskId, a: Action) {
    && t in s.tasks && t in s'.tasks
    && (if Enabled(s.tasks[t], a) then ClaimEffect(s.tasks[t], s'.tasks[t], a, s.nextToken) else s'.tasks[t] == s.tasks[t])
    && (forall u :: u in s.tasks && u != t ==> u in s'.tasks && s'.tasks[u] == s.tasks[u])
    && (forall u :: u in s'.tasks && u !in s.tasks ==> Unstarted(s'.tasks[u]))
    && s'.nextToken == s.nextToken + 1
  }

  lemma {:induction false} InsertIdle(tasks: map<TaskId, TaskSys>, parent: TaskId, born: seq<Child>, next: TaskId)
    ensures forall u :: u in Insert(tasks, parent, born, next) && u !in tasks ==>
              Unstarted(Insert(tasks, parent, born, next)[u])
  {
    if born != [] { InsertIdle(tasks, parent, born[..|born| - 1], next); }
  }

  lemma InsertOnly(s: Sys, t: TaskId, a: Action, e: Stepped)
    requires t in s.tasks && (forall u :: u in s.tasks ==> u < s.nextTask)
    requires if Enabled(s.tasks[t], a) then ClaimEffect(s.tasks[t], e.sys, a, s.nextToken) else e.sys == s.tasks[t]
    ensures OnlyTask(s, Sys(Insert(s.tasks[t := e.sys], t, e.born, s.nextTask), s.nextTask + |e.born|, s.nextToken + 1), t, a)
  {
    var mid := s.tasks[t := e.sys];
    InsertApart(mid, t, e.born, s.nextTask);
    InsertIdle(mid, t, e.born, s.nextTask);
    assert Insert(mid, t, e.born, s.nextTask)[t] == mid[t];
  }

  /** Everything the executor needs to know of one action on one task. */
  predicate TaskEffect(ts: TaskSys, ts': TaskSys, a: Action, drawn: Token) {
    && ts.past <= ts'.past
    && (if Enabled(ts, a) then ClaimEffect(ts, ts', a, drawn) else ts' == ts)
    && (Tok(ts).Some? && Tok(ts') == Tok(ts) ==>
          && Flags(ts.rec.row) <= Flags(ts'.rec.row)
          && (ts.rec.row.status.PausePending? ==> ts'.rec.row.status.PausePending?)
          && ts'.rec.row.step == ts.rec.row.step)
  }

  lemma TaskDoes(cfg: Config, ts: TaskSys, a: Action, drawn: Token, next: TaskId)
    requires TaskOk(cfg, ts, drawn)
    ensures TaskEffect(ts, TaskStep(cfg, ts, a, drawn, next).sys, a, drawn)
  {
    if Enabled(ts, a) {
      ClaimsStep(cfg, ts, a, drawn, next);
      TaskStepKeeps(cfg, ts, a, drawn, next);
      ActSound(cfg, ts, a, drawn, next);
    }
  }

  function Flags(row: Task): nat {
    (if row.pauseRequested then 1 else 0) + (if row.terminateRequested then 1 else 0)
  }

  lemma OnTask(cfg: Config, s: Sys, t: TaskId, a: Action)
    requires SysOk(cfg, s) && t in s.tasks
    ensures SysOk(cfg, Step(cfg, s, On(t, a))) && OnlyTask(s, Step(cfg, s, On(t, a)), t, a)
    ensures TaskEffect(s.tasks[t], Step(cfg, s, On(t, a)).tasks[t], a, s.nextToken)
  {
    StepKeeps(cfg, s, On(t, a));
    Below(cfg, s);
    At(cfg, s, t);
    OnTaskCore(cfg, s, t, a);
  }

  lemma OnTaskCore(cfg: Config, s: Sys, t: TaskId, a: Action)
    requires t in s.tasks && TaskOk(cfg, s.tasks[t], s.nextToken) && (forall u :: u in s.tasks ==> u < s.nextTask)
    ensures OnlyTask(s, Step(cfg, s, On(t, a)), t, a)
    ensures TaskEffect(s.tasks[t], Step(cfg, s, On(t, a)).tasks[t], a, s.nextToken)
  {
    hide OnlyTask, TaskEffect, TaskStep, TaskOk;
    var e := TaskStep(cfg, s.tasks[t], a, s.nextToken, s.nextTask);
    TaskDoes(cfg, s.tasks[t], a, s.nextToken, s.nextTask);
    InsertOnly(s, t, a, e);
    InsertApart(s.tasks[t := e.sys], t, e.born, s.nextTask);
  }

  // -- the executor's invariant ---------------------------------------------------------------------

  predicate Live(pc: PC) {
    !pc.Ended?
  }

  predicate Idle1(ts: TaskSys) {
    forall k :: k in ts.jobs ==> !Live(ts.jobs[k])
  }

  /** A live worker holds its task, and the in-flight table knows it. */
  predicate LiveOk(s: Sys, inflight: map<TaskId, Token>) {
    forall t, k {:trigger s.tasks[t].jobs[k]} :: t in s.tasks && k in s.tasks[t].jobs && Live(s.tasks[t].jobs[k]) ==>
      Tok(s.tasks[t]) == Some(k) && t in inflight && inflight[t] == k
  }

  function Target(e: Exec): Option<TaskId> {
    if e.settle.Some? then Some(e.settle.value.task) else None
  }

  /** Recovery has every executing task still before it; what was read as stale is so still. */
  predicate PhaseOk(s: Sys, e: Exec) {
    match e.phase
    case Recovering(todo, pausing) =>
      && NoJobs(s) && todo <= s.tasks.Keys
      && (forall t :: t in s.tasks && Tok(s.tasks[t]).Some? ==>
            t in todo || Target(e) == Some(t) || (!pausing && s.tasks[t].rec.row.status.PausePending?))
    case Reclaiming(stale) =>
      forall t :: t in stale ==> t in s.tasks && (Tok(s.tasks[t]).Some? ==> Tok(s.tasks[t]) == stale[t].lock.token)
    case _ => true
  }

  /** No claim of an earlier process survives recovery. */
  predicate SinceOk(s: Sys, e: Exec) {
    && e.since <= s.nextToken
    && (forall t :: t in s.tasks && Tok(s.tasks[t]).Some? ==>
          if e.phase.Recovering? then Tok(s.tasks[t]).value < e.since else e.since <= Tok(s.tasks[t]).value)
  }

  /** Whoever is being settled has no live worker. During recovery each failed write of the
      settler has cost a pause or terminate request. */
  predicate SettleOk(s: Sys, e: Exec) {
    e.settle.Some? ==>
      var st := e.settle.value;
      && (e.phase.Recovering? || e.phase.Reclaiming?)
      && st.task in s.tasks
      && var ts := s.tasks[st.task];
         && (Tok(ts).Some? ==> Idle1(ts))
         && (match st
             case Reading(_, checkAlive, tries, _) =>
               && checkAlive == e.phase.Reclaiming?
               && (!checkAlive && Tok(ts).Some? ==> tries <= Flags(ts.rec.row))
             case Trying(_, checkAlive, tries, _, snap) =>
               && checkAlive == e.phase.Reclaiming?
               && snap in ts.past && Executing(snap.status)
               && (Tok(ts).Some? ==> snap.lock.token == Tok(ts))
               && (!checkAlive && Tok(ts).Some? ==> tries <= Flags(snap))
             case ClosingRuns(_) => Tok(ts).None?)
  }

  predicate ExecOk(s: Sys, e: Exec) {
    LiveOk(s, e.inflight) && PhaseOk(s, e) && SinceOk(s, e) && SettleOk(s, e)
  }

  predicate WorldOk(cfg: Config, w: World) {
    && SysOk(cfg, w.sys)
    && match w.lock
       case None => NoJobs(w.sys)
       case Some(e) => ExecOk(w.sys, e)
  }

  // -- outsiders and workers ----------------------------------------------------------------------------

  /** An action that touches no claim and moves no program counter. */
  predicate Quiet(a: Action) {
    a.User? || a.TakeItem? || a.GiveItem? || a.Tune? || a.Beat? || a.CloseOpenRuns? || a.Requeue? || a.Skip?
  }

  /** Claims and workers are as before; flags have only risen; new tasks are idle. */
  predicate Undisturbed(s: Sys, s': Sys) {
    && (forall u :: u in s.tasks ==> u in s'.tasks && Kept(s.tasks[u], s'.tasks[u]))
    && (forall u :: u in s'.tasks && u !in s.tasks ==> s'.tasks[u].jobs == map[] && Tok(s'.tasks[u]).None?)
    && s.nextToken <= s'.nextToken
  }

  predicate Kept(ts: TaskSys, ts': TaskSys) {
    && ts'.jobs == ts.jobs && Tok(ts') == Tok(ts) && ts.past <= ts'.past
    && (Tok(ts).Some? ==> Flags(ts.rec.row) <= Flags(ts'.rec.row)
                          && (ts.rec.row.status.PausePending? ==> ts'.rec.row.status.PausePending?))
  }

  lemma UndisturbedKeeps(s: Sys, s': Sys, e: Exec)
    requires ExecOk(s, e) && Undisturbed(s, s')
    ensures ExecOk(s', e)
  {
    if e.settle.Some? { assert Kept(s.tasks[e.settle.value.task], s'.tasks[e.settle.value.task]); }
    forall t | t in s'.tasks && Tok(s'.tasks[t]).Some? ensures t in s.tasks && Kept(s.tasks[t], s'.tasks[t]) {}
  }

  lemma QuietOnly(s: Sys, s': Sys, t: TaskId, a: Action)
    requires OnlyTask(s, s', t, a) && TaskEffect(s.tasks[t], s'.tasks[t], a, s.nextToken) && Quiet(a)
    ensures Undisturbed(s, s')
  {
  }

  /** A worker's own step: it stays the holder, or it is done. */
  lemma LabourKeeps(s: Sys, s': Sys, e: Exec, t: TaskId, k: Token, inp: Input)
    requires ExecOk(s, e) && OnlyTask(s, s', t, Work(k, inp)) && TaskEffect(s.tasks[t], s'.tasks[t], Work(k, inp), s.nextToken)
    ensures ExecOk(s', e)
  {
    if !Enabled(s.tasks[t], Work(k, inp)) {
      assert Undisturbed(s, s');
      UndisturbedKeeps(s, s', e);
    } else {
      assert k in s.tasks[t].jobs && !e.phase.Recovering?;
      LabourLive(s, s', e.inflight, t, k, inp);
      if e.settle.Some? && e.settle.value.task == t && Tok(s.tasks[t]).Some? {
        assert s.tasks[t].jobs[k].Ended?;
      }
    }
  }

  lemma LabourLive(s: Sys, s': Sys, inflight: map<TaskId, Token>, t: TaskId, k: Token, inp: Input)
    requires LiveOk(s, inflight) && OnlyTask(s, s', t, Work(k, inp)) && Enabled(s.tasks[t], Work(k, inp))
    ensures LiveOk(s', inflight)
  {
    forall u, j | u in s'.tasks && j in s'.tasks[u].jobs && Live(s'.tasks[u].jobs[j])
      ensures Tok(s'.tasks[u]) == Some(j) && u in inflight && inflight[u] == j
    {
      assert u in s.tasks;
      if u == t {
        var ts, ts' := s.tasks[t], s'.tasks[t];
        assert ts'.jobs == ts.jobs[k := ts'.jobs[k]];
        if j == k { assert !ts.jobs[k].Ended?; } else { assert ts.jobs[j] == ts'.jobs[j]; }
      } else {
        assert s'.tasks[u] == s.tasks[u];
      }
    }
  }

  /** A worker that has ended takes its own entry out of the in-flight table, and never that
      of a newer claim: the entry it removes carries its own token. */
  lemma {:induction false} CleanupKeeps(s: Sys, s': Sys, e: Exec, t: TaskId, k: Token)
    requires ExecOk(s, e) && OnlyTask(s, s', t, Die(k)) && Finished(s, t, k) && s.tasks[t].past <= s'.tasks[t].past
    ensures ExecOk(s', CleanedUp(e, t, k))
  {
    assert k in s.tasks[t].jobs && !e.phase.Recovering?;
    CleanupRest(s, s', e, t, k);
    hide OnlyTask, LiveOk, PhaseOk, SinceOk, SettleOk, Finished;
    CleanupLive(s, s', e, t, k);
  }

  lemma CleanupRest(s: Sys, s': Sys, e: Exec, t: TaskId, k: Token)
    requires PhaseOk(s, e) && SinceOk(s, e) && SettleOk(s, e) && !e.phase.Recovering?
    requires OnlyTask(s, s', t, Die(k)) && Finished(s, t, k) && s.tasks[t].past <= s'.tasks[t].past
    ensures PhaseOk(s', CleanedUp(e, t, k)) && SinceOk(s', CleanedUp(e, t, k)) && SettleOk(s', CleanedUp(e, t, k))
  {
    hide PhaseOk, SinceOk, SettleOk, OnlyTask, Finished;
    CleanupRows(s, s', t, k);
    CleanupPhase(s, s', e, t, k);
    CleanupSettle(s, s', e, t, k);
  }

  /** The same rows; one worker fewer. */
  lemma CleanupRows(s: Sys, s': Sys, t: TaskId, k: Token)
    requires OnlyTask(s, s', t, Die(k)) && Finished(s, t, k) && s.tasks[t].past <= s'.tasks[t].past
    ensures forall u :: u in s.tasks ==> u in s'.tasks && s'.tasks[u].rec == s.tasks[u].rec && s.tasks[u].past <= s'.tasks[u].past
    ensures forall u :: u in s.tasks ==> forall j :: j in s'.tasks[u].jobs ==> j in s.tasks[u].jobs && s'.tasks[u].jobs[j] == s.tasks[u].jobs[j]
    ensures forall u :: u in s'.tasks && u !in s.tasks ==> Unstarted(s'.tasks[u])
    ensures s'.nextToken == s.nextToken + 1
  {
  }

  lemma CleanupPhase(s: Sys, s': Sys, e: Exec, t: TaskId, k: Token)
    requires PhaseOk(s, e) && SinceOk(s, e) && !e.phase.Recovering? && s'.nextToken == s.nextToken + 1
    requires forall u :: u in s.tasks ==> u in s'.tasks && s'.tasks[u].rec == s.tasks[u].rec && s.tasks[u].past <= s'.tasks[u].past
    requires forall u :: u in s'.tasks && u !in s.tasks ==> Unstarted(s'.tasks[u])
    ensures PhaseOk(s', CleanedUp(e, t, k)) && SinceOk(s', CleanedUp(e, t, k))
  {
  }

  lemma CleanupSettle(s: Sys, s': Sys, e: Exec, t: TaskId, k: Token)
    requires SettleOk(s, e)
    requires forall u :: u in s.tasks ==> u in s'.tasks && s'.tasks[u].rec == s.tasks[u].rec && s.tasks[u].past <= s'.tasks[u].past
    requires forall u :: u in s.tasks ==> forall j :: j in s'.tasks[u].jobs ==> j in s.tasks[u].jobs && s'.tasks[u].jobs[j] == s.tasks[u].jobs[j]
    ensures SettleOk(s', CleanedUp(e, t, k))
  {
  }

  function CleanedUp(e: Exec, t: TaskId, k: Token): Exec {
    if t in e.inflight && e.inflight[t] == k then e.(inflight := e.inflight - {t}) else e
  }

  lemma CleanupLive(s: Sys, s': Sys, e: Exec, t: TaskId, k: Token)
    requires LiveOk(s, e.inflight) && OnlyTask(s, s', t, Die(k)) && Finished(s, t, k)
    ensures LiveOk(s', CleanedUp(e, t, k).inflight)
  {
    var inflight := CleanedUp(e, t, k).inflight;
    forall u, j | u in s'.tasks && j in s'.tasks[u].jobs && Live(s'.tasks[u].jobs[j])
      ensures Tok(s'.tasks[u]) == Some(j) && u in inflight && inflight[u] == j
    {
      assert u in s.tasks;
      assert u == t ==> s'.tasks[t].jobs == s.tasks[t].jobs - {k};
      assert j in s.tasks[u].jobs && s.tasks[u].jobs[j] == s'.tasks[u].jobs[j];
    }
  }

  // -- the scheduler ------------------------------------------------------------------------------------

  /** The settler's compare-and-set on a task that still executes under the claim it read:
      it applies unless a pause or terminate request (or, checking for life, a heartbeat) came
      in between. */
  predicate SettleEffect(ts: TaskSys, ts': TaskSys, snap: Task, checkAlive: bool) {
    && (ts'.released != ts.released <==> Tok(ts).Some? && Tok(ts').None?)
    && (Tok(ts).Some? && ts'.released == ts.released && !checkAlive ==> Flags(snap) < Flags(ts'.rec.row))
  }

  lemma SettleDoes(cfg: Config, ts: TaskSys, snap: Task, checkAlive: bool, drawn: Token, next: TaskId)
    requires TaskOk(cfg, ts, drawn) && snap in ts.past && Executing(snap.status)
    requires Tok(ts).Some? ==> snap.lock.token == Tok(ts)
    ensures SettleEffect(ts, TaskStep(cfg, ts, Action.Settle(snap, checkAlive, "settled"), drawn, next).sys, snap, checkAlive)
  {
    assert VersionOk(ts.rec.row, snap, drawn);
    assert RowOk(cfg, snap);
  }

  /** A settler's write: whom it releases has no live worker; if it fails, a flag has risen. */
  lemma SettleWriteKeeps(s: Sys, s': Sys, e: Exec)
    requires ExecOk(s, e) && e.settle.Some? && e.settle.value.Trying?
    requires var st := e.settle.value;
             var a := Action.Settle(st.snap, st.checkAlive, "settled");
             && OnlyTask(s, s', st.task, a)
             && TaskEffect(s.tasks[st.task], s'.tasks[st.task], a, s.nextToken)
             && SettleEffect(s.tasks[st.task], s'.tasks[st.task], st.snap, st.checkAlive)
    ensures ExecOk(s', e.(settle := SettleNext(s, e.settle.value, s')))
  {
    var st := e.settle.value;
    SettleLive(s, s', e.inflight, st.task, Action.Settle(st.snap, st.checkAlive, "settled"));
  }

  lemma SettleLive(s: Sys, s': Sys, inflight: map<TaskId, Token>, t: TaskId, a: Action)
    requires LiveOk(s, inflight) && a.Settle? && OnlyTask(s, s', t, a) && (Tok(s.tasks[t]).Some? ==> Idle1(s.tasks[t]))
    ensures LiveOk(s', inflight)
  {
    forall u, j | u in s'.tasks && j in s'.tasks[u].jobs && Live(s'.tasks[u].jobs[j])
      ensures Tok(s'.tasks[u]) == Some(j) && u in inflight && inflight[u] == j
    {
      assert u in s.tasks && j in s.tasks[u].jobs;
    }
  }

  /** What the invariant of the protocol says of rows and claims, without the rest. */
  predicate RowsOk(s: Sys) {
    forall t :: t in s.tasks ==>
      && (Executing(s.tasks[t].rec.row.status) <==> Tok(s.tasks[t]).Some?)
      && s.tasks[t].rec.row in s.tasks[t].past
      && (Tok(s.tasks[t]).Some? ==> Tok(s.tasks[t]).value < s.nextToken)
  }

  lemma RowsFollow(cfg: Config, s: Sys)
    requires SysOk(cfg, s)
    ensures RowsOk(s)
  {
    forall t | t in s.tasks
      ensures Executing(s.tasks[t].rec.row.status) <==> Tok(s.tasks[t]).Some?
      ensures s.tasks[t].rec.row in s.tasks[t].past
      ensures Tok(s.tasks[t]).Some? ==> Tok(s.tasks[t]).value < s.nextToken
    {
      RowFollows(cfg, s.tasks[t], s.nextToken);
    }
  }

  lemma RowFollows(cfg: Config, ts: TaskSys, bound: Token)
    requires TaskOk(cfg, ts, bound)
    ensures Executing(ts.rec.row.status) <==> Tok(ts).Some?
    ensures ts.rec.row in ts.past
    ensures Tok(ts).Some? ==> Tok(ts).value < bound
  {
    assert VersionOk(ts.rec.row, ts.rec.row, bound);
  }

  /** A read of the settler. */
  lemma SettleReadKeeps(s: Sys, e: Exec)
    requires ExecOk(s, e) && RowsOk(s) && e.settle.Some? && e.settle.value.Reading?
    ensures ExecOk(s, e.(settle := SettleNext(s, e.settle.value, s)))
  {
  }

  lemma SettleClosedKeeps(s: Sys, e: Exec)
    requires ExecOk(s, e) && e.settle.Some? && e.settle.value.ClosingRuns?
    ensures ExecOk(s, e.(settle := None))
  {
  }

  /** The scheduler between its writes: picking the next task to settle, listing, counting. */
  lemma PhaseKeeps(cfg: Config, quota: map<string, nat>, w: World, e: Exec, inp: SchedInput)
    requires ExecOk(w.sys, e) && RowsOk(w.sys) && e.settle.None? && w.lock == Some(e)
    requires e.phase.Queueing? ==> inp.pick !in e.phase.queue || !Won(w.sys, w.sys, inp.pick)
    ensures ExecOk(w.sys, SchedNext(cfg, quota, w, e, inp, w.sys))
  {
    hide RowsOk, Won;
    if e.phase.Reclaiming? && inp.pick in e.phase.stale {
      ReclaimPickKeeps(w.sys, e, e.phase.stale, inp.pick);
    }
  }

  /** A stale task that is not running here has no live worker. */
  lemma ReclaimPickKeeps(s: Sys, e: Exec, stale: map<TaskId, Task>, t: TaskId)
    requires ExecOk(s, e) && RowsOk(s) && e.settle.None? && e.phase == Reclaiming(stale) && t in stale
    ensures !RunningHere(e.inflight, t, stale[t]) && Tok(s.tasks[t]).Some? ==> Idle1(s.tasks[t])
  {
    forall k | k in s.tasks[t].jobs && Live(s.tasks[t].jobs[k]) && Tok(s.tasks[t]).Some?
      ensures RunningHere(e.inflight, t, stale[t])
    {
      assert Tok(s.tasks[t]) == Some(k) && e.inflight[t] == k;
    }
  }

  lemma QuietScheduleKeeps(s: Sys, s': Sys, e: Exec, phase: Phase)
    requires ExecOk(s, e) && Undisturbed(s, s') && e.settle.None?
    requires (e.phase.Requeuing? && phase.Requeuing?) || (e.phase.Queueing? && phase.Queueing?)
    ensures ExecOk(s', e.(phase := phase))
  {
    UndisturbedKeeps(s, s', e);
  }

  /** A claim: the new worker holds the task under the token just drawn, and is in flight. */
  lemma ClaimScheduleKeeps(s: Sys, s': Sys, e: Exec, t: TaskId, a: Action, phase: Phase)
    requires ExecOk(s, e) && RowsOk(s) && e.settle.None? && e.phase.Queueing? && phase.Queueing?
    requires a.Claim? && OnlyTask(s, s', t, a) && TaskEffect(s.tasks[t], s'.tasks[t], a, s.nextToken)
    ensures ExecOk(s', if Won(s, s', t) then e.(phase := phase, inflight := e.inflight[t := s.nextToken]) else e.(phase := phase))
  {
    hide RowsOk;
    if Won(s, s', t) {
      ClaimLive(s, s', e.inflight, t, a);
    } else {
      assert Undisturbed(s, s');
      UndisturbedKeeps(s, s', e);
    }
  }

  lemma ClaimLive(s: Sys, s': Sys, inflight: map<TaskId, Token>, t: TaskId, a: Action)
    requires LiveOk(s, inflight) && RowsOk(s) && a.Claim? && OnlyTask(s, s', t, a) && Won(s, s', t)
    ensures LiveOk(s', inflight[t := s.nextToken])
  {
    var ts, ts' := s.tasks[t], s'.tasks[t];
    assert ts'.jobs == ts.jobs[s.nextToken := Fresh] && Tok(ts).None?;
    UnheldIdle(s, inflight, t);
    var now := inflight[t := s.nextToken];
    forall u, j | u in s'.tasks && j in s'.tasks[u].jobs && Live(s'.tasks[u].jobs[j])
      ensures Tok(s'.tasks[u]) == Some(j)
      ensures u in now && now[u] == j
    {
      assert u in s.tasks;
      if u != t { assert j in s.tasks[u].jobs && Live(s.tasks[u].jobs[j]); }
    }
  }

  lemma UnheldIdle(s: Sys, inflight: map<TaskId, Token>, t: TaskId)
    requires LiveOk(s, inflight) && t in s.tasks && Tok(s.tasks[t]).None?
    ensures Idle1(s.tasks[t])
  {
  }

  // -- every deed -----------------------------------------------------------------------------------------

  lemma OutsideKeeps(cfg: Config, s: Sys, e: Exec, m: Turn)
    requires SysOk(cfg, s) && ExecOk(s, e) && Unlocked(m)
    ensures SysOk(cfg, Step(cfg, s, m)) && ExecOk(Step(cfg, s, m), e)
  {
    var s' := Step(cfg, s, m);
    match m
    case On(t, a) =>
      if t in s.tasks {
        OnTask(cfg, s, t, a);
        QuietOnly(s, s', t, a);
        UndisturbedKeeps(s, s', e);
      }
    case Create(_, _) =>
      StepKeeps(cfg, s, m);
      Below(cfg, s);
      CreateUndisturbed(cfg, s, m);
      UndisturbedKeeps(s, s', e);
    case Crash =>
  }

  lemma CreateUndisturbed(cfg: Config, s: Sys, m: Turn)
    requires m.Create? && (forall u :: u in s.tasks ==> u < s.nextTask)
    ensures Undisturbed(s, Step(cfg, s, m))
  {
  }

  lemma OutsideIdle(cfg: Config, s: Sys, m: Turn)
    requires SysOk(cfg, s) && NoJobs(s) && Unlocked(m)
    ensures SysOk(cfg, Step(cfg, s, m)) && NoJobs(Step(cfg, s, m))
  {
    hide OnlyTask, TaskEffect, AllOk;
    var s' := Step(cfg, s, m);
    match m
    case On(t, a) =>
      if t in s.tasks {
        OnTask(cfg, s, t, a);
        QuietOnly(s, s', t, a);
        assert forall u :: u in s'.tasks ==> s'.tasks[u].jobs == map[];
      }
    case Create(_, _) =>
      StepKeeps(cfg, s, m);
      Below(cfg, s);
    case Crash =>
  }

  lemma SettleDeed(cfg: Config, quota: map<string, nat>, w: World, e: Exec, inp: SchedInput)
    requires SysOk(cfg, w.sys) && ExecOk(w.sys, e) && w.lock == Some(e) && e.settle.Some?
    ensures WorldOk(cfg, Doing(cfg, quota, w, Schedule(inp)))
  {
    hide Step, PhaseOk, OnlyTask, TaskEffect, Insert, Undisturbed, SettleEffect, RowsOk, NewTask, LiveOk, SinceOk;
    hide TaskStep, AllOk;
    var s, st := w.sys, e.settle.value;
    match st
    case Reading(_, _, _, _) =>
      RowsFollow(cfg, s);
      SettleReadKeeps(s, e);
    case Trying(t, checkAlive, _, _, snap) =>
      var a := Action.Settle(snap, checkAlive, "settled");
      OnTask(cfg, s, t, a);
      At(cfg, s, t);
      SettleDoes(cfg, s.tasks[t], snap, checkAlive, s.nextToken, s.nextTask);
      TaskAfter(cfg, s, t, a);
      SettleWriteKeeps(s, Step(cfg, s, On(t, a)), e);
    case ClosingRuns(t) =>
      OnTask(cfg, s, t, CloseOpenRuns);
      var s' := Step(cfg, s, On(t, CloseOpenRuns));
      QuietOnly(s, s', t, CloseOpenRuns);
      UndisturbedKeeps(s, s', e);
      SettleClosedKeeps(s', e);
  }

  lemma TaskAfter(cfg: Config, s: Sys, t: TaskId, a: Action)
    requires SysOk(cfg, s) && t in s.tasks
    ensures t in Step(cfg, s, On(t, a)).tasks && Step(cfg, s, On(t, a)).tasks[t] == TaskStep(cfg, s.tasks[t], a, s.nextToken, s.nextTask).sys
  {
    Below(cfg, s);
    TasksStay(cfg, s, On(t, a));
  }

  lemma ScheduleDeed(cfg: Config, quota: map<string, nat>, w: World, e: Exec, inp: SchedInput)
    requires SysOk(cfg, w.sys) && ExecOk(w.sys, e) && w.lock == Some(e) && e.settle.None?
    ensures WorldOk(cfg, Doing(cfg, quota, w, Schedule(inp)))
  {
    hide Step, ExecOk, SysOk, Quiet, OnlyTask, Undisturbed, TaskEffect, LiveOk;
    var s := w.sys;
    var turn := SchedTurn(cfg, quota, w, e, inp);
    RowsFollow(cfg, s);
    if turn.None? {
      PhaseKeeps(cfg, quota, w, e, inp);
    } else {
      var a := turn.value.action;
      var s' := Step(cfg, s, turn.value);
      OnTask(cfg, s, inp.pick, a);
      var e' := SchedNext(cfg, quota, w, e, inp, s');
      if a.Claim? {
        ClaimScheduleKeeps(s, s', e, inp.pick, a, e'.phase);
      } else {
        QuietOnly(s, s', inp.pick, a);
        QuietScheduleKeeps(s, s', e, e'.phase);
      }
    }
  }

  lemma LabourDeed(cfg: Config, s: Sys, e: Exec, t: TaskId, k: Token, inp: Input)
    requires SysOk(cfg, s) && ExecOk(s, e)
    ensures SysOk(cfg, Step(cfg, s, On(t, Work(k, inp)))) && ExecOk(Step(cfg, s, On(t, Work(k, inp))), e)
  {
    if t in s.tasks {
      OnTask(cfg, s, t, Work(k, inp));
      LabourKeeps(s, Step(cfg, s, On(t, Work(k, inp))), e, t, k, inp);
    }
  }

  lemma PulseDeed(cfg: Config, s: Sys, e: Exec, t: TaskId, a: Action)
    requires SysOk(cfg, s) && ExecOk(s, e) && a.Beat?
    ensures SysOk(cfg, Step(cfg, s, On(t, a))) && ExecOk(Step(cfg, s, On(t, a)), e)
  {
    if t in s.tasks {
      OnTask(cfg, s, t, a);
      QuietOnly(s, Step(cfg, s, On(t, a)), t, a);
      UndisturbedKeeps(s, Step(cfg, s, On(t, a)), e);
    }
  }

  lemma CleanupDeed(cfg: Config, s: Sys, e: Exec, t: TaskId, k: Token)
    requires SysOk(cfg, s) && ExecOk(s, e) && Finished(s, t, k)
    ensures SysOk(cfg, Step(cfg, s, On(t, Die(k)))) && ExecOk(Step(cfg, s, On(t, Die(k))), CleanedUp(e, t, k))
  {
    OnTask(cfg, s, t, Die(k));
    CleanupKeeps(s, Step(cfg, s, On(t, Die(k))), e, t, k);
  }

  lemma AcquireKeeps(cfg: Config, s: Sys)
    requires SysOk(cfg, s) && NoJobs(s)
    ensures ExecOk(s, Exec(Recovering(Listed(s, Running), false), None, map[], s.nextToken))
  {
    RowsFollow(cfg, s);
  }

  lemma DoKeeps(cfg: Config, quota: map<string, nat>, w: World, d: Deed)
    requires WorldOk(cfg, w)
    ensures WorldOk(cfg, Doing(cfg, quota, w, d))
  {
    hide Unlocked, Finished, ExecOk, SysOk;
    match d
    case Acquire => if w.lock.None? { AcquireKeeps(cfg, w.sys); }
    case Kill => if w.lock.Some? { StepKeeps(cfg, w.sys, Crash); }
    case Release =>
    case Schedule(inp) =>
      if w.lock.Some? {
        if w.lock.value.settle.Some? { SettleDeed(cfg, quota, w, w.lock.value, inp); }
        else { ScheduleDeed(cfg, quota, w, w.lock.value, inp); }
      }
    case Labour(t, k, inp) => if w.lock.Some? { LabourDeed(cfg, w.sys, w.lock.value, t, k, inp); }
    case Pulse(t, k, now, progress) => if w.lock.Some? { PulseDeed(cfg, w.sys, w.lock.value, t, Beat(k, now, progress)); }
    case Cleanup(t, k) =>
      if w.lock.Some? && Finished(w.sys, t, k) { CleanupDeed(cfg, w.sys, w.lock.value, t, k); }
    case Outside(turn) =>
      if Unlocked(turn) {
        if w.lock.Some? { OutsideKeeps(cfg, w.sys, w.lock.value, turn); } else { OutsideIdle(cfg, w.sys, turn); }
      }
  }

  lemma {:induction false} HistoryOk(cfg: Config, quota: map<string, nat>, deeds: seq<Deed>)
    ensures WorldOk(cfg, History(cfg, quota, START, deeds))
  {
    if deeds != [] {
      var n := |deeds| - 1;
      HistoryOk(cfg, quota, deeds[..n]);
      DoKeeps(cfg, quota, History(cfg, quota, START, deeds[..n]), deeds[n]);
    }
  }

  // -- theorems -------------------------------------------------------------------------------------------

  /** In every history of lock holders, crashes, schedulers, workers and outsiders, at most one
      live worker exists for a task, and it holds the task's claim: from its claim check to its
      boundary it is never stale. Without a lock holder there is no worker at all. */
  lemma {:induction false} OneLiveWorker(cfg: Config, quota: map<string, nat>, deeds: seq<Deed>, t: TaskId, k: Token)
    requires var w := History(cfg, quota, START, deeds);
             t in w.sys.tasks && k in w.sys.tasks[t].jobs && Live(w.sys.tasks[t].jobs[k])
    ensures var w := History(cfg, quota, START, deeds);
            && w.lock.Some?
            && Holder(w.sys.tasks[t].rec.row, k)
            && (forall j :: j in w.sys.tasks[t].jobs && Live(w.sys.tasks[t].jobs[j]) ==> j == k)
  {
    HistoryOk(cfg, quota, deeds);
    var w := History(cfg, quota, START, deeds);
    WorldRows(cfg, w);
    OneLive(w, t, k);
  }

  lemma WorldRows(cfg: Config, w: World)
    requires WorldOk(cfg, w)
    ensures RowsOk(w.sys) && (if w.lock.Some? then ExecOk(w.sys, w.lock.value) else NoJobs(w.sys))
  {
    RowsFollow(cfg, w.sys);
  }

  lemma OneLive(w: World, t: TaskId, k: Token)
    requires RowsOk(w.sys) && (if w.lock.Some? then ExecOk(w.sys, w.lock.value) else NoJobs(w.sys))
    requires t in w.sys.tasks && k in w.sys.tasks[t].jobs && Live(w.sys.tasks[t].jobs[k])
    ensures w.lock.Some? && Holder(w.sys.tasks[t].rec.row, k)
    ensures forall j :: j in w.sys.tasks[t].jobs && Live(w.sys.tasks[t].jobs[j]) ==> j == k
  {
  }

  /** Once recovery is over, nothing executes under a claim made before this process took the
      lock: every interrupted task was settled, whatever users did meanwhile. */
  lemma RecoveryIsComplete(cfg: Config, quota: map<string, nat>, deeds: seq<Deed>, t: TaskId)
    requires var w := History(cfg, quota, START, deeds);
             && w.lock.Some? && !w.lock.value.phase.Recovering?
             && t in w.sys.tasks && Executing(w.sys.tasks[t].rec.row.status)
    ensures var w := History(cfg, quota, START, deeds);
            Tok(w.sys.tasks[t]).Some? && Tok(w.sys.tasks[t]).value >= w.lock.value.since
  {
    HistoryOk(cfg, quota, deeds);
    RowsFollow(cfg, History(cfg, quota, START, deeds).sys);
  }
}
