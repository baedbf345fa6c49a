/** run_until_idle: one process, holding the lock, advances everything it can until nothing is
    left to run, or its cap on the rounds stops it. Each transaction is a step of the protocol;
    every read is current. */
module Idle {
  import opened Models
  import opened Records
  import opened StateMachine
  import opened Worker
  import opened Protocol
  import opened Invariant
  import opened InvariantProof
  import opened Safety
  import opened Executor
  import opened Progress

  // -- the environment -------------------------------------------------------------------------------

  /** What steps and validators do during the call. Smooth: none fails, defers or spawns, and only if
      `rejects` may a validator turn a submission down. Stubborn: everything is about one external
      step, nobody stops its tasks on the way, and its validator turns every submission down. */
  datatype Env = Smooth(rejects: bool) | Stubborn(step: string)

  predicate Rejects(e: Env) {
    e.Stubborn? || e.rejects
  }

  /** External steps allow an attempt. */
  predicate SmoothConfig(cfg: Config, e: Env) {
    && (forall step :: step in cfg.registry && cfg.registry[step].external ==> cfg.registry[step].maxAttempts >= 1)
    && (e.Stubborn? ==> e.step in cfg.registry && cfg.registry[e.step].external && !cfg.registry[e.step].sideEffect)
  }

  /** Requests are well-formed, the gate delays nobody, every step returns; `judging`: the step has a
      submission to validate. */
  predicate SmoothInput(e: Env, inp: Input, judging: bool) {
    && inp.requestOk && (inp.gate.Gate? ==> !inp.gate.policy.Delays?)
    && (inp.result.SubmissionRejected? || (inp.result.Returned? && inp.result.children == []))
    && (inp.result.SubmissionRejected? ==> judging && Rejects(e))
    && (e.Stubborn? ==> inp.gate.NoGate? && (judging ==> inp.result.SubmissionRejected?))
  }

  // -- what is left to do --------------------------------------------------------------------------

  /** A submission waits for its verdict. */
  predicate ToJudge(rec: Record) {
    rec.items != [] && rec.items[|rec.items| - 1].status.Submitted?
  }

  /** How many claims a task may still see: one for each step it has before it (one that executes has
      taken its own off), and one more if its submission may be turned down. */
  function ClaimsLeft(cfg: Config, e: Env, rec: Record): nat {
    var steps := Steps(cfg, rec.row.workflow);
    var left := |steps| - IndexOf(steps, rec.row.step);
    var again := if Rejects(e) && ToJudge(rec) then 1 else 0;
    if rec.row.status.Queued? || rec.row.status.Failed? then left + again
    else if Executing(rec.row.status) then (if left > 0 then left - 1 else 0) + again
    else 0
  }

  function TotalLeft(cfg: Config, e: Env, tasks: map<TaskId, TaskSys>, n: nat): nat {
    if n == 0 then 0
    else TotalLeft(cfg, e, tasks, n - 1) + if n - 1 in tasks then ClaimsLeft(cfg, e, tasks[n - 1].rec) else 0
  }

  /** Only task `t` changed. */
  predicate OnlyChanged(s: Sys, s': Sys, t: TaskId) {
    && t in s.tasks && s'.tasks.Keys == s.tasks.Keys && s'.nextTask == s.nextTask
    && (forall u {:trigger u in s.tasks} :: u in s.tasks && u != t ==> s'.tasks[u] == s.tasks[u])
  }

  lemma {:induction false} TotalChanged(cfg: Config, e: Env, s: Sys, s': Sys, t: TaskId, n: nat)
    requires OnlyChanged(s, s', t)
    ensures TotalLeft(cfg, e, s'.tasks, n) + (if t < n then ClaimsLeft(cfg, e, s.tasks[t].rec) else 0)
         == TotalLeft(cfg, e, s.tasks, n) + (if t < n then ClaimsLeft(cfg, e, s'.tasks[t].rec) else 0)
  {
    hide ClaimsLeft;
    if n > 0 {
      TotalChanged(cfg, e, s, s', t, n - 1);
      if n - 1 != t { assert n - 1 in s.tasks <==> n - 1 in s'.tasks; }
    }
  }

  function Earlier(tasks: map<TaskId, TaskSys>, n: nat): set<TaskId> {
    set t | t in tasks && t < n
  }

  /** Without rejections: never more than all steps of all tasks. */
  lemma {:induction false} TotalBounded(cfg: Config, tasks: map<TaskId, TaskSys>, n: nat, longest: nat)
    requires forall t :: t in tasks ==> |Steps(cfg, tasks[t].rec.row.workflow)| <= longest
    ensures TotalLeft(cfg, Smooth(false), tasks, n) <= |Earlier(tasks, n)| * longest
  {
    if n > 0 {
      TotalBounded(cfg, tasks, n - 1, longest);
      LeftBounded(cfg, tasks, n - 1, longest);
      hide ClaimsLeft, Steps;
      if n - 1 in tasks {
        assert Earlier(tasks, n) == Earlier(tasks, n - 1) + {n - 1};
        OneMore(|Earlier(tasks, n - 1)|, longest);
      } else { assert Earlier(tasks, n) == Earlier(tasks, n - 1); }
    }
  }

  lemma LeftBounded(cfg: Config, tasks: map<TaskId, TaskSys>, t: TaskId, longest: nat)
    requires t in tasks ==> |Steps(cfg, tasks[t].rec.row.workflow)| <= longest
    ensures t in tasks ==> ClaimsLeft(cfg, Smooth(false), tasks[t].rec) <= longest
  {
  }

  lemma OneMore(a: nat, b: nat)
    ensures (a + 1) * b == a * b + b
  {
  }

  /** Tasks whose submission waits for its verdict while the task waits for its claim. */
  function Judgeable(tasks: map<TaskId, TaskSys>, n: nat): set<TaskId> {
    set t | t in tasks && t < n && ToJudge(tasks[t].rec)
            && (tasks[t].rec.row.status.Queued? || tasks[t].rec.row.status.Failed? || Executing(tasks[t].rec.row.status))
  }

  /** With rejections: one more for each submission to judge. */
  lemma {:induction false} TotalWithRejections(cfg: Config, e: Env, tasks: map<TaskId, TaskSys>, n: nat)
    requires Rejects(e)
    ensures TotalLeft(cfg, e, tasks, n) == TotalLeft(cfg, Smooth(false), tasks, n) + |Judgeable(tasks, n)|
  {
    hide ClaimsLeft, ToJudge, Executing, Judgeable;
    if n == 0 { NobodyJudgeable(tasks); }
    else {
      TotalWithRejections(cfg, e, tasks, n - 1);
      OneMoreJudgeable(cfg, e, tasks, n);
    }
  }

  lemma NobodyJudgeable(tasks: map<TaskId, TaskSys>)
    ensures Judgeable(tasks, 0) == {}
  {
  }

  lemma OneMoreJudgeable(cfg: Config, e: Env, tasks: map<TaskId, TaskSys>, n: nat)
    requires Rejects(e) && n > 0
    ensures n - 1 !in tasks ==> Judgeable(tasks, n) == Judgeable(tasks, n - 1)
    ensures n - 1 in tasks ==>
              ClaimsLeft(cfg, e, tasks[n - 1].rec) + |Judgeable(tasks, n - 1)|
              == ClaimsLeft(cfg, Smooth(false), tasks[n - 1].rec) + |Judgeable(tasks, n)|
  {
    hide IndexOf, Steps;
    if n - 1 in Judgeable(tasks, n) { assert Judgeable(tasks, n) == Judgeable(tasks, n - 1) + {n - 1}; }
    else { assert Judgeable(tasks, n) == Judgeable(tasks, n - 1); }
  }

  // -- tasks on course ---------------------------------------------------------------------------------

  /** Not failed, and from its step the workflow finishes. */
  predicate OnCourse(cfg: Config, e: Env, ts: TaskSys) {
    && !ts.rec.row.status.Failed? && Straight(Steps(cfg, ts.rec.row.workflow), ts.rec.row.step)
    && (e.Stubborn? ==> StubbornTask(cfg, e.step, ts))
  }

  /** A task of a one-step workflow that is queued with a submission that leaves a further attempt, or
      with none; or on its way to be rejected or opened; or waiting for a submission. */
  predicate StubbornTask(cfg: Config, x: string, ts: TaskSys) {
    var row := ts.rec.row;
    && row.workflow in cfg.workflows && Steps(cfg, row.workflow) == [x] && row.step == x
    && row.nextRetryAt.None? && !row.pauseRequested && !row.terminateRequested
    && (row.status.Queued? || row.status.Running? || row.status.AwaitingExternal?)
    && (ToJudge(ts.rec) ==> Last(ts.rec).attempt < Last(ts.rec).maxAttempts)
    && (row.status.Running? ==> row.lock.token.Some? && row.lock.token.value in ts.jobs && StubbornJob(ts.jobs[row.lock.token.value]))
  }

  function Last(rec: Record): Item
    requires rec.items != []
  {
    rec.items[|rec.items| - 1]
  }

  predicate StubbornJob(pc: PC) {
    match pc
    case Ready(_, _, found) => found.Some?
    case Cleared(_, _, found) => found.Some?
    case InStep(_, found, _) => found.Some?
    case Updating(_, _, _, _, _) => false
    case Closing(_, o, _, _) => o.Rejection?
    case Finishing(_, o) => o.Rejection? || o.ExternalNeeded?
    case Ended => false
    case _ => true
  }

  // -- one worker -----------------------------------------------------------------------------------

  predicate SmoothOutcome(e: Env, o: Outcome) {
    (o.Success? && o.plan.None?) || o.Denial? || o.ApprovalNeeded? || o.ExternalNeeded? || (Rejects(e) && o.Rejection?)
  }

  predicate SmoothJob(e: Env, pc: PC) {
    match pc
    case Updating(_, o, _, _, _) => SmoothOutcome(e, o)
    case Closing(_, o, _, _) => SmoothOutcome(e, o)
    case Finishing(_, o) => SmoothOutcome(e, o)
    case _ => true
  }

  predicate Judges(pc: PC) {
    pc.InStep? && pc.found.Some?
  }

  /** A claimed task nobody has asked to stop, on a registered step, its worker under way. */
  predicate UnderWay(cfg: Config, e: Env, ts: TaskSys, token: Token) {
    && token in ts.jobs && !ts.jobs[token].Ended? && SmoothJob(e, ts.jobs[token])
    && Holder(ts.rec.row, token) && ts.rec.row.status.Running? && !ts.rec.row.terminateRequested
    && ts.rec.row.step in cfg.registry && OnCourse(cfg, e, ts)
  }

  /** No claim was added, and if the environment is stubborn none was lost. */
  predicate Spent1(cfg: Config, e: Env, rec: Record, rec': Record) {
    ClaimsLeft(cfg, e, rec') <= ClaimsLeft(cfg, e, rec) && (e.Stubborn? ==> ClaimsLeft(cfg, e, rec') == ClaimsLeft(cfg, e, rec))
  }

  /** One step of the worker's program: nearer its end, and at its end the claim is released. */
  predicate WentOn(cfg: Config, e: Env, ts: TaskSys, ts': TaskSys, token: Token) {
    && token in ts.jobs && token in ts'.jobs && Rank(ts'.jobs[token]) < Rank(ts.jobs[token])
    && ts'.rec.row.workflow == ts.rec.row.workflow
    && ts'.jobs.Keys == ts.jobs.Keys && Spent1(cfg, e, ts.rec, ts'.rec) && OnCourse(cfg, e, ts')
    && (if ts'.jobs[token].Ended? then !Executing(ts'.rec.row.status) else UnderWay(cfg, e, ts', token))
  }

  lemma SmoothProgram(cfg: Config, e: Env, ts: TaskSys, token: Token, inp: Input, drawn: Token, next: TaskId)
    requires TaskOk(cfg, ts, drawn) && UnderWay(cfg, e, ts, token) && SmoothConfig(cfg, e) && inp.row == ts.rec.row
    requires !ts.jobs[token].Finishing? && SmoothInput(e, inp, Judges(ts.jobs[token]))
    ensures var r := TaskStep(cfg, ts, Work(token, inp), drawn, next); WentOn(cfg, e, ts, r.sys, token) && r.born == []
  {
    hide SmoothConfig, SmoothInput, OnCourse, Straight, SmoothJob, AttemptsOk, GrantOk;
    var pc := ts.jobs[token];
    assert JobOk(cfg, ts, token, pc) && ts.rec.row in ts.past;
    if SnapOf(pc).Some? { assert VersionOk(ts.rec.row, SnapOf(pc).value, drawn); }
    ProgramWrites(cfg, ts.rec, token, pc, inp, next);
    SmoothCounter(cfg, e, ts.rec, token, pc, inp, next);
    if e.Stubborn? {
      StubbornStep(cfg, e, ts);
      StubbornCounter(cfg, e, ts.rec, token, pc, inp, next);
    }
    hide JobStep;
    ProgramCourse(cfg, e, ts, token, pc, inp, drawn, next);
  }

  lemma StubbornStep(cfg: Config, e: Env, ts: TaskSys)
    requires OnCourse(cfg, e, ts) && e.Stubborn? && ts.rec.row.status.Running?
    ensures ts.rec.row.step == e.step && !ts.rec.row.pauseRequested
    ensures ts.rec.row.lock.token.Some? && ts.rec.row.lock.token.value in ts.jobs && StubbornJob(ts.jobs[ts.rec.row.lock.token.value])
  {
  }

  /** A statement that is not the boundary changes nothing of what is left. */
  lemma ProgramCourse(cfg: Config, e: Env, ts: TaskSys, token: Token, pc: PC, inp: Input, drawn: Token, next: TaskId)
    requires token in ts.jobs && pc == ts.jobs[token] && Holder(ts.rec.row, token) && ts.rec.row.status.Running? && OnCourse(cfg, e, ts) && inp.row in ts.past
    requires var m := JobStep(cfg, ts.rec, token, pc, inp, next);
             && m.rec.items == ts.rec.items && m.born == []
             && m.rec.row == ts.rec.row.(maxRetries := m.rec.row.maxRetries, progress := m.rec.row.progress)
             && (e.Stubborn? ==> StubbornJob(m.pc))
    ensures var ts' := TaskStep(cfg, ts, Work(token, inp), drawn, next).sys;
            OnCourse(cfg, e, ts') && Spent1(cfg, e, ts.rec, ts'.rec)
  {
    hide JobStep, Straight;
  }

  lemma SmoothCounter(cfg: Config, e: Env, rec: Record, token: Token, pc: PC, inp: Input, next: TaskId)
    requires RecordOk(cfg, rec) && !pc.Finishing? && !pc.Ended? && SmoothJob(e, pc) && SmoothConfig(cfg, e) && SmoothInput(e, inp, Judges(pc))
    requires inp.row == rec.row && Holder(rec.row, token) && rec.row.status.Running? && !rec.row.terminateRequested && rec.row.step in cfg.registry
    requires SnapOf(pc).Some? ==> SnapOf(pc).value.step == rec.row.step
    ensures var pc' := JobStep(cfg, rec, token, pc, inp, next).pc; Rank(pc') < Rank(pc) && !pc'.Ended? && SmoothJob(e, pc')
  {
    hide AttemptsOk, GrantOk;
  }

  lemma StubbornCounter(cfg: Config, e: Env, rec: Record, token: Token, pc: PC, inp: Input, next: TaskId)
    requires RecordOk(cfg, rec) && !pc.Finishing? && e.Stubborn? && StubbornJob(pc) && SmoothConfig(cfg, e) && SmoothInput(e, inp, Judges(pc))
    requires inp.row == rec.row && Holder(rec.row, token) && rec.row.status.Running? && !rec.row.terminateRequested && !rec.row.pauseRequested
    requires rec.row.step == e.step && (SnapOf(pc).Some? ==> SnapOf(pc).value.step == rec.row.step)
    ensures StubbornJob(JobStep(cfg, rec, token, pc, inp, next).pc)
  {
    hide AttemptsOk, GrantOk;
  }

  // -- the boundary ------------------------------------------------------------------------------------

  lemma SmoothFinish(cfg: Config, e: Env, ts: TaskSys, token: Token, inp: Input, drawn: Token, next: TaskId)
    requires TaskOk(cfg, ts, drawn) && UnderWay(cfg, e, ts, token) && SmoothConfig(cfg, e) && inp.row == ts.rec.row
    requires ts.jobs[token].Finishing?
    ensures var r := TaskStep(cfg, ts, Work(token, inp), drawn, next); WentOn(cfg, e, ts, r.sys, token) && r.born == []
  {
    hide TaskOk, FinishRound, ClaimsLeft, RecordOk, OutcomeOk, SmoothOutcome, PlanOf, OnCourse, Straight, Course, ToJudge, SmoothConfig, Spent1;
    var o := ts.jobs[token].outcome;
    FinishFacts(cfg, ts, token, drawn);
    CourseFacts(cfg, e, ts, token);
    FinishCommits(cfg, e, ts.rec, token, o, inp.seenDegraded, inp.now, next);
    FinishMoved(cfg, ts.rec, token, ts.jobs[token], inp, next);
    hide JobStep;
    CourseAgain(cfg, e, ts, token, inp, drawn, next);
  }

  /** What a task on course brings to its boundary. */
  predicate Course(cfg: Config, e: Env, rec: Record, o: Outcome) {
    && Straight(Steps(cfg, rec.row.workflow), rec.row.step)
    && (e.Stubborn? ==>
          && rec.row.workflow in cfg.workflows && Steps(cfg, rec.row.workflow) == [rec.row.step] && rec.row.step == e.step
          && rec.row.nextRetryAt.None? && !rec.row.pauseRequested && (o.Rejection? || o.ExternalNeeded?)
          && (ToJudge(rec) ==> Last(rec).attempt < Last(rec).maxAttempts))
  }

  lemma CourseFacts(cfg: Config, e: Env, ts: TaskSys, token: Token)
    requires UnderWay(cfg, e, ts, token) && ts.jobs[token].Finishing?
    ensures Course(cfg, e, ts.rec, ts.jobs[token].outcome)
  {
  }

  /** And takes from it. */
  predicate CourseAfter(cfg: Config, e: Env, rec: Record) {
    && !rec.row.status.Failed? && !Executing(rec.row.status) && Straight(Steps(cfg, rec.row.workflow), rec.row.step)
    && (e.Stubborn? ==>
          && rec.row.workflow in cfg.workflows && Steps(cfg, rec.row.workflow) == [e.step] && rec.row.step == e.step
          && rec.row.nextRetryAt.None? && !rec.row.pauseRequested && !rec.row.terminateRequested
          && (rec.row.status.Queued? || rec.row.status.AwaitingExternal?) && !ToJudge(rec))
  }

  lemma CourseAgain(cfg: Config, e: Env, ts: TaskSys, token: Token, inp: Input, drawn: Token, next: TaskId)
    requires Enabled(ts, Work(token, inp)) && CourseAfter(cfg, e, JobStep(cfg, ts.rec, token, ts.jobs[token], inp, next).rec)
    ensures OnCourse(cfg, e, TaskStep(cfg, ts, Work(token, inp), drawn, next).sys)
  {
    hide JobStep, Straight;
  }

  lemma FinishFacts(cfg: Config, ts: TaskSys, token: Token, drawn: Token)
    requires TaskOk(cfg, ts, drawn) && token in ts.jobs && ts.jobs[token].Finishing? && Current(ts.rec, token)
    ensures RecordOk(cfg, ts.rec) && OutcomeOk(cfg, ts.rec, ts.jobs[token].outcome) && ts.rec.row in ts.past
  {
    assert JobOk(cfg, ts, token, ts.jobs[token]);
  }

  lemma FinishMoved(cfg: Config, rec: Record, token: Token, pc: PC, inp: Input, next: TaskId)
    requires pc.Finishing?
    requires var r := FinishRound(Steps(cfg, rec.row.workflow), rec, token, inp.row, pc.outcome, inp.seenDegraded, inp.now, next);
             r.Tried? && r.tx.Committed?
    ensures var r := FinishRound(Steps(cfg, rec.row.workflow), rec, token, inp.row, pc.outcome, inp.seenDegraded, inp.now, next);
            var m := JobStep(cfg, rec, token, pc, inp, next);
            m.rec == r.tx.rec && m.pc == Ended && m.born == r.tx.born
  {
    hide FinishRound, PlanOf;
  }

  /** From a current read, a boundary commits. */
  lemma FinishCommits(cfg: Config, e: Env, rec: Record, token: Token, o: Outcome, seen: bool, now: int, next: TaskId)
    requires RecordOk(cfg, rec) && OutcomeOk(cfg, rec, o) && SmoothOutcome(e, o) && Course(cfg, e, rec, o)
    requires Holder(rec.row, token) && rec.row.status.Running? && !rec.row.terminateRequested
    ensures var r := FinishRound(Steps(cfg, rec.row.workflow), rec, token, rec.row, o, seen, now, next);
            && r.Tried? && r.tx.Committed? && r.tx.born == []
            && r.tx.rec.row.workflow == rec.row.workflow
            && CourseAfter(cfg, e, r.tx.rec) && Spent1(cfg, e, rec, r.tx.rec)
  {
    var steps := Steps(cfg, rec.row.workflow);
    NextStaysInside(steps, rec.row.step);
    BoundaryRow(cfg, rec.row, rec.row, o, seen, now);
    var d := Boundary(steps, rec.row, o, rec.row.terminateRequested, rec.row.pauseRequested, seen, now).value;
    BoundaryCommit(cfg, rec, o, d, next, BoundaryRequire(rec.row, token), rec.row.status);
    FinishRow(steps, rec, token, rec.row, o, seen, now, next);
    FinishItems(steps, rec, token, rec.row, o, seen, now, next);
    BoundaryBorn(steps, rec, token, rec.row, o, seen, now, next);
    hide RecordOk, OutcomeOk;
    FinishCourse(cfg, e, rec, o, seen, now, FinishRound(steps, rec, token, rec.row, o, seen, now, next).tx.rec);
    hide FinishRound, Boundary, Move, ClaimsLeft, Course, CourseAfter;
  }

  /** The items a committed boundary leaves. */
  lemma FinishItems(steps: seq<string>, rec: Record, token: Token, read: Task, o: Outcome, seen: bool, now: int, next: TaskId)
    requires FinishRound(steps, rec, token, read, o, seen, now, next).Tried?
    requires FinishRound(steps, rec, token, read, o, seen, now, next).tx.Committed?
    ensures var d := Boundary(steps, read, o, read.terminateRequested, read.pauseRequested, seen, now);
            && d.Some?
            && var changed := ChangeItem(rec.items, read.step, BoundaryItem(o, d.value.patch));
               changed.Some? && FinishRound(steps, rec, token, read, o, seen, now, next).tx.rec.items == Cancelling(changed.value, Left(d.value.patch))
  {
    hide Boundary, BoundaryItem, Spawns, ChangeItem, SpawnAll, Cancelling, CloseOpenRun, Put, PutUpdates, BoundaryRequire, Holds;
  }

  /** Nothing at a boundary makes a submission. */
  lemma NoNewSubmission(items: seq<Item>, step: string, o: Outcome, p: Patch)
    requires ChangeItem(items, step, BoundaryItem(o, p)).Some?
    ensures var after := Cancelling(ChangeItem(items, step, BoundaryItem(o, p)).value, Left(p));
            && (after != [] && after[|after| - 1].status.Submitted? ==>
                  items != [] && items[|items| - 1].status.Submitted? && |after| == |items|)
            && (o.Rejection? && o.item + 1 == |items| ==> after != [] && !after[|after| - 1].status.Submitted?)
  {
  }

  /** The record a committed boundary leaves, as far as its course goes. */
  predicate Leaves(cfg: Config, rec: Record, o: Outcome, seen: bool, now: int, rec': Record) {
    var d := Boundary(Steps(cfg, rec.row.workflow), rec.row, o, rec.row.terminateRequested, rec.row.pauseRequested, seen, now);
    && d.Some? && rec'.row == Put(rec.row, d.value.patch)
    && var changed := ChangeItem(rec.items, rec.row.step, BoundaryItem(o, d.value.patch));
       changed.Some? && rec'.items == Cancelling(changed.value, Left(d.value.patch))
  }

  lemma FinishCourse(cfg: Config, e: Env, rec: Record, o: Outcome, seen: bool, now: int, rec': Record)
    requires RowOk(cfg, rec.row) && ItemOutcomeOk(cfg, rec, o) && SmoothOutcome(e, o) && Course(cfg, e, rec, o)
    requires rec.row.status.Running? && !rec.row.terminateRequested && Leaves(cfg, rec, o, seen, now, rec')
    ensures CourseAfter(cfg, e, rec') && Spent1(cfg, e, rec, rec')
  {
    FinishAfter(cfg, e, rec, o, seen, now, rec');
    FinishSpent(cfg, e, rec, o, seen, now, rec');
    hide *;
  }

  lemma FinishAfter(cfg: Config, e: Env, rec: Record, o: Outcome, seen: bool, now: int, rec': Record)
    requires RowOk(cfg, rec.row) && ItemOutcomeOk(cfg, rec, o) && SmoothOutcome(e, o) && Course(cfg, e, rec, o)
    requires rec.row.status.Running? && !rec.row.terminateRequested && Leaves(cfg, rec, o, seen, now, rec')
    ensures CourseAfter(cfg, e, rec')
  {
    hide ChangeItem, Cancelling, BoundaryItem, NextAttempt, MaxAttempts, Straight, IndexOf;
    var steps := Steps(cfg, rec.row.workflow);
    var d := Boundary(steps, rec.row, o, rec.row.terminateRequested, rec.row.pauseRequested, seen, now).value;
    NoNewSubmission(rec.items, rec.row.step, o, d.patch);
    if Next(steps, rec.row.step).Advance? { NextIndex(steps, rec.row.step); }
  }

  lemma FinishSpent(cfg: Config, e: Env, rec: Record, o: Outcome, seen: bool, now: int, rec': Record)
    requires RowOk(cfg, rec.row) && ItemOutcomeOk(cfg, rec, o) && SmoothOutcome(e, o) && Course(cfg, e, rec, o)
    requires rec.row.status.Running? && !rec.row.terminateRequested && Leaves(cfg, rec, o, seen, now, rec')
    ensures Spent1(cfg, e, rec, rec')
  {
    hide ChangeItem, Cancelling, BoundaryItem, NextAttempt, MaxAttempts, Straight, IndexOf;
    var steps := Steps(cfg, rec.row.workflow);
    var d := Boundary(steps, rec.row, o, rec.row.terminateRequested, rec.row.pauseRequested, seen, now).value;
    NoNewSubmission(rec.items, rec.row.step, o, d.patch);
    if Next(steps, rec.row.step).Advance? { NextIndex(steps, rec.row.step); }
  }

  // -- one turn -------------------------------------------------------------------------------------

  /** A turn that creates no task. */
  lemma TurnOnly(cfg: Config, s: Sys, t: TaskId, a: Action)
    requires SysOk(cfg, s) && t in s.tasks && TaskStep(cfg, s.tasks[t], a, s.nextToken, s.nextTask).born == []
    ensures var s' := Step(cfg, s, On(t, a));
            && SysOk(cfg, s') && OnlyChanged(s, s', t) && s'.nextToken == s.nextToken + 1
            && s'.tasks[t] == TaskStep(cfg, s.tasks[t], a, s.nextToken, s.nextTask).sys
  {
    StepKeeps(cfg, s, On(t, a));
    hide SysOk, TaskStep;
  }

  /** The change of one task, in the total. */
  lemma TotalTurn(cfg: Config, e: Env, s: Sys, s': Sys, t: TaskId)
    requires OnlyChanged(s, s', t) && t < s.nextTask
    ensures TotalLeft(cfg, e, s'.tasks, s'.nextTask) + ClaimsLeft(cfg, e, s.tasks[t].rec)
         == TotalLeft(cfg, e, s.tasks, s.nextTask) + ClaimsLeft(cfg, e, s'.tasks[t].rec)
  {
    TotalChanged(cfg, e, s, s', t, s.nextTask);
  }

  /** All claims that may still be made. */
  function Total(cfg: Config, e: Env, s: Sys): nat {
    TotalLeft(cfg, e, s.tasks, s.nextTask)
  }

  /** `n` claims (or steps skipped) off the total: exactly as many, if the environment is stubborn. */
  predicate Spent(cfg: Config, e: Env, s: Sys, s': Sys, n: nat) {
    Total(cfg, e, s') + n <= Total(cfg, e, s) && (e.Stubborn? ==> Total(cfg, e, s') + n == Total(cfg, e, s))
  }

  lemma SpentOn(cfg: Config, e: Env, s: Sys, s1: Sys, s2: Sys, n: nat, m: nat)
    requires Spent(cfg, e, s, s1, n) && Spent(cfg, e, s1, s2, m)
    ensures Spent(cfg, e, s, s2, n + m)
  {
  }

  lemma SpentNothing(cfg: Config, e: Env, s: Sys)
    ensures Spent(cfg, e, s, s, 0)
  {
  }

  predicate SameWorkflows(s: Sys, s': Sys) {
    s'.tasks.Keys == s.tasks.Keys && s'.nextTask == s.nextTask
    && forall u {:trigger u in s.tasks} :: u in s.tasks ==> s'.tasks[u].rec.row.workflow == s.tasks[u].rec.row.workflow
  }

  lemma SameStart(s: Sys)
    ensures SameWorkflows(s, s)
  {
  }

  lemma WorkflowsTrans(a: Sys, b: Sys, c: Sys)
    requires SameWorkflows(a, b) && SameWorkflows(b, c)
    ensures SameWorkflows(a, c)
  {
  }

  lemma WorkTurn(cfg: Config, e: Env, s: Sys, t: TaskId, token: Token, inp: Input)
    requires SysOk(cfg, s) && t in s.tasks && UnderWay(cfg, e, s.tasks[t], token) && SmoothConfig(cfg, e)
    requires inp.row == s.tasks[t].rec.row && SmoothInput(e, inp, Judges(s.tasks[t].jobs[token]))
    ensures var s' := Step(cfg, s, On(t, Work(token, inp)));
            && SysOk(cfg, s') && OnlyChanged(s, s', t) && WentOn(cfg, e, s.tasks[t], s'.tasks[t], token) && Spent(cfg, e, s, s', 0)
  {
    hide SysOk, TaskStep, Step, UnderWay, ClaimsLeft, TaskOk, SmoothConfig, SmoothInput, TotalLeft, OnCourse, Rank, Judges;
    At(cfg, s, t);
    Below(cfg, s);
    StillThere(cfg, e, s.tasks[t], token);
    if s.tasks[t].jobs[token].Finishing? { SmoothFinish(cfg, e, s.tasks[t], token, inp, s.nextToken, s.nextTask); }
    else { SmoothProgram(cfg, e, s.tasks[t], token, inp, s.nextToken, s.nextTask); }
    TurnOnly(cfg, s, t, Work(token, inp));
    TotalTurn(cfg, e, s, Step(cfg, s, On(t, Work(token, inp))), t);
  }

  /** What the environment answers, in each round, each job at each step of its program; it is told
      whether there is a submission to judge. */
  type Answers = (nat, TaskId, nat, bool) -> Input

  ghost predicate SmoothAnswers(e: Env, answers: Answers) {
    forall round: nat, t: TaskId, n: nat, judging: bool :: SmoothInput(e, answers(round, t, n, judging), judging)
  }

  lemma SmoothRead(e: Env, answers: Answers, round: nat, t: TaskId, n: nat, judging: bool, row: Task)
    requires SmoothAnswers(e, answers)
    ensures SmoothInput(e, answers(round, t, n, judging).(row := row), judging)
  {
  }

  /** One job, from its claim check to its boundary. */
  method RunJob(cfg: Config, e: Env, s0: Sys, t: TaskId, token: Token, answers: Answers, round: nat) returns (s: Sys)
    requires SysOk(cfg, s0) && t in s0.tasks && UnderWay(cfg, e, s0.tasks[t], token)
    requires SmoothConfig(cfg, e) && SmoothAnswers(e, answers)
    ensures SysOk(cfg, s) && OnlyChanged(s0, s, t) && SameWorkflows(s0, s) && Spent(cfg, e, s0, s, 0)
    ensures !Executing(s.tasks[t].rec.row.status) && OnCourse(cfg, e, s.tasks[t])
    ensures s.tasks[t].jobs.Keys == s0.tasks[t].jobs.Keys
  {
    hide SysOk, UnderWay, Spent, SmoothConfig, SmoothInput, SmoothAnswers, Step, Rank, Spent1, OnCourse, Judges;
    StillThere(cfg, e, s0.tasks[t], token);
    SpentNothing(cfg, e, s0);
    s := s0;
    var n := 0;
    while !s.tasks[t].jobs[token].Ended?
      invariant SysOk(cfg, s) && OnlyChanged(s0, s, t) && Spent(cfg, e, s0, s, 0) && token in s.tasks[t].jobs && s.tasks[t].jobs.Keys == s0.tasks[t].jobs.Keys
      invariant s.tasks[t].rec.row.workflow == s0.tasks[t].rec.row.workflow && OnCourse(cfg, e, s.tasks[t])
      invariant if s.tasks[t].jobs[token].Ended? then !Executing(s.tasks[t].rec.row.status) else UnderWay(cfg, e, s.tasks[t], token)
      decreases Rank(s.tasks[t].jobs[token])
    {
      ghost var was := s;
      var judging := Judges(s.tasks[t].jobs[token]);
      var inp := answers(round, t, n, judging).(row := s.tasks[t].rec.row);
      SmoothRead(e, answers, round, t, n, judging, s.tasks[t].rec.row);
      WorkTurn(cfg, e, s, t, token, inp);
      s := Step(cfg, s, On(t, Work(token, inp)));
      SpentOn(cfg, e, s0, was, s, 0, 0);
      n := n + 1;
    }
  }

  lemma StillThere(cfg: Config, e: Env, ts: TaskSys, token: Token)
    requires UnderWay(cfg, e, ts, token)
    ensures token in ts.jobs && !ts.jobs[token].Ended? && OnCourse(cfg, e, ts)
  {
  }

  // -- the pool ---------------------------------------------------------------------------------------

  /** Exactly the jobs in flight execute, and each is under way. */
  predicate InFlight(cfg: Config, e: Env, s: Sys, jobs: map<TaskId, Token>) {
    && (forall t {:trigger t in jobs} :: t in jobs ==> t in s.tasks && UnderWay(cfg, e, s.tasks[t], jobs[t]))
    && (forall t {:trigger t in s.tasks} :: t in s.tasks && Executing(s.tasks[t].rec.row.status) ==> t in jobs)
  }

  predicate AllOnCourse(cfg: Config, e: Env, s: Sys) {
    forall t {:trigger t in s.tasks} :: t in s.tasks ==> OnCourse(cfg, e, s.tasks[t])
  }

  lemma JobThere(cfg: Config, e: Env, s: Sys, jobs: map<TaskId, Token>, t: TaskId)
    requires InFlight(cfg, e, s, jobs) && t in jobs
    ensures t in s.tasks && UnderWay(cfg, e, s.tasks[t], jobs[t])
  {
  }

  lemma JobRan(cfg: Config, e: Env, s: Sys, s': Sys, jobs: map<TaskId, Token>, t: TaskId)
    requires InFlight(cfg, e, s, jobs) && OnlyChanged(s, s', t) && t in jobs && !Executing(s'.tasks[t].rec.row.status)
    ensures InFlight(cfg, e, s', jobs - {t})
    ensures AllOnCourse(cfg, e, s) && OnCourse(cfg, e, s'.tasks[t]) ==> AllOnCourse(cfg, e, s')
  {
    hide OnCourse, UnderWay, Executing;
    forall u | u in jobs - {t} ensures u in s'.tasks && UnderWay(cfg, e, s'.tasks[u], (jobs - {t})[u]) { assert u in jobs && u in s.tasks; }
  }

  /** Jobs of tasks that are not in flight are none of the pool's business. */
  predicate Apart(s: Sys, s': Sys, jobs: map<TaskId, Token>) {
    forall t {:trigger t in s.tasks} :: t in s.tasks && t !in jobs ==> t in s'.tasks && s'.tasks[t] == s.tasks[t]
  }

  lemma ApartOn(s0: Sys, s: Sys, s': Sys, jobs: map<TaskId, Token>, t: TaskId)
    requires Apart(s0, s, jobs) && OnlyChanged(s, s', t) && t in jobs
    ensures Apart(s0, s', jobs)
  {
  }

  lemma ApartNone(s: Sys, jobs: map<TaskId, Token>)
    ensures Apart(s, s, jobs)
  {
  }

  /** The jobs left while those of `now` are run: `todo` are still to come. */
  predicate Leftover(inflight: map<TaskId, Token>, now: set<TaskId>, left: map<TaskId, Token>, todo: set<TaskId>) {
    todo <= left.Keys && left.Keys <= inflight.Keys && left - todo == inflight - now
  }

  lemma LeftoverOn(inflight: map<TaskId, Token>, now: set<TaskId>, left: map<TaskId, Token>, todo: set<TaskId>, t: TaskId)
    requires Leftover(inflight, now, left, todo) && t in todo
    ensures t in left && t in inflight && Leftover(inflight, now, left - {t}, todo - {t})
  {
    assert (left - {t}) - (todo - {t}) == left - todo;
  }

  lemma LeftoverEnds(inflight: map<TaskId, Token>, now: set<TaskId>)
    ensures Leftover(inflight, now, inflight, inflight.Keys * now)
    ensures forall left :: Leftover(inflight, now, left, {}) ==> left == inflight - now
  {
  }

  /** Nobody got a worker, nor lost one. */
  predicate SameWorkers(s: Sys, s': Sys) {
    s'.tasks.Keys == s.tasks.Keys && forall t {:trigger t in s.tasks} :: t in s.tasks ==> s'.tasks[t].jobs.Keys == s.tasks[t].jobs.Keys
  }

  lemma WorkersStart(s: Sys)
    ensures SameWorkers(s, s)
  {
  }

  lemma WorkersOn(s0: Sys, s: Sys, s': Sys, t: TaskId)
    requires SameWorkers(s0, s) && OnlyChanged(s, s', t) && s'.tasks[t].jobs.Keys == s.tasks[t].jobs.Keys
    ensures SameWorkers(s0, s')
  {
  }

  /** The pool runs the jobs of `now` to their ends, in any order. */
  method RunJobs(cfg: Config, e: Env, s0: Sys, inflight: map<TaskId, Token>, now: set<TaskId>, answers: Answers, round: nat)
    returns (s: Sys, left: map<TaskId, Token>)
    requires SysOk(cfg, s0) && InFlight(cfg, e, s0, inflight) && AllOnCourse(cfg, e, s0)
    requires SmoothConfig(cfg, e) && SmoothAnswers(e, answers)
    ensures SysOk(cfg, s) && SameWorkflows(s0, s) && Spent(cfg, e, s0, s, 0)
    ensures InFlight(cfg, e, s, left) && AllOnCourse(cfg, e, s) && left == inflight - now && Apart(s0, s, inflight)
    ensures SameWorkers(s0, s) && (inflight == map[] ==> s == s0)
  {
    hide SysOk, UnderWay, Spent, SmoothConfig, SmoothAnswers, InFlight, AllOnCourse, OnCourse, SameWorkflows, OnlyChanged, Apart, Leftover, SameWorkers;
    s, left := s0, inflight;
    WorkersStart(s0);
    SpentNothing(cfg, e, s0);
    SameStart(s);
    LeftoverEnds(inflight, now);
    ApartNone(s0, inflight);
    var todo := inflight.Keys * now;
    while todo != {}
      invariant Leftover(inflight, now, left, todo)
      invariant SysOk(cfg, s) && SameWorkflows(s0, s) && Spent(cfg, e, s0, s, 0) && InFlight(cfg, e, s, left) && AllOnCourse(cfg, e, s)
      invariant Apart(s0, s, inflight) && SameWorkers(s0, s) && (inflight == map[] ==> s == s0)
      decreases |todo|
    {
      var t :| t in todo;
      ghost var was := s;
      LeftoverOn(inflight, now, left, todo, t);
      JobThere(cfg, e, s, left, t);
      s := RunJob(cfg, e, s, t, left[t], answers, round);
      JobRan(cfg, e, was, s, left, t);
      SpentOn(cfg, e, s0, was, s, 0, 0);
      WorkflowsTrans(s0, was, s);
      ApartOn(s0, was, s, inflight, t);
      WorkersOn(s0, was, s, t);
      left, todo := left - {t}, todo - {t};
    }
  }

  /** pool.drain */
  method Drain(cfg: Config, e: Env, s0: Sys, inflight: map<TaskId, Token>, answers: Answers, round: nat) returns (s: Sys)
    requires SysOk(cfg, s0) && InFlight(cfg, e, s0, inflight) && AllOnCourse(cfg, e, s0)
    requires SmoothConfig(cfg, e) && SmoothAnswers(e, answers)
    ensures SysOk(cfg, s) && SameWorkflows(s0, s) && Spent(cfg, e, s0, s, 0)
    ensures InFlight(cfg, e, s, map[]) && AllOnCourse(cfg, e, s) && Apart(s0, s, inflight) && SameWorkers(s0, s)
    ensures inflight == map[] ==> s == s0
  {
    hide *;
    var left;
    s, left := RunJobs(cfg, e, s0, inflight, inflight.Keys, answers, round);
    assert left == map[];
  }

  // -- a scheduling round -----------------------------------------------------------------------------

  /** A queued task the scheduler would take up, were its step's quota free. */
  predicate Runnable(cfg: Config, quota: map<string, nat>, row: Task, now: int) {
    && row.status.Queued? && (row.nextRetryAt.Some? ==> row.nextRetryAt.value <= now)
    && row.workflow in cfg.workflows && row.step in cfg.registry && Quota(quota, row.step) > 0
  }

  predicate NothingRunnable(cfg: Config, quota: map<string, nat>, s: Sys, now: int) {
    forall t {:trigger t in s.tasks} :: t in s.tasks ==> !Runnable(cfg, quota, s.tasks[t].rec.row, now)
  }

  /** No task changed but those the scheduler may take up: queued, their time come, of a known workflow
      and step with a positive quota. */
  predicate Touches(cfg: Config, quota: map<string, nat>, s0: Sys, s: Sys, now: int) {
    forall t {:trigger t in s0.tasks} :: t in s0.tasks ==>
      t in s.tasks && (s.tasks[t] == s0.tasks[t] || Runnable(cfg, quota, s0.tasks[t].rec.row, now))
  }

  /** The tasks on a step that got a worker. */
  function Claimed(s0: Sys, s: Sys, step: string): set<TaskId> {
    set t | t in s0.tasks && t in s.tasks && s0.tasks[t].rec.row.step == step && s.tasks[t].jobs.Keys != s0.tasks[t].jobs.Keys
  }

  /** The load counts every claim of the round, and no step is over its quota. */
  ghost predicate Counted1(quota: map<string, nat>, s0: Sys, s: Sys, load: map<string, nat>) {
    forall step :: |Claimed(s0, s, step)| <= LoadOf(load, step) <= Quota(quota, step)
  }

  /** Those in flight were taken up in this round. */
  predicate TakenUp(cfg: Config, quota: map<string, nat>, s0: Sys, inflight: map<TaskId, Token>, now: int) {
    forall t {:trigger t in inflight} :: t in inflight ==> t in s0.tasks && Runnable(cfg, quota, s0.tasks[t].rec.row, now)
  }

  /** What became of the tasks the round came to: those that run got a worker; those whose when() said
      no got none, and are on the next step, or finished. */
  predicate AsAsked(cfg: Config, s0: Sys, s: Sys, runs: (nat, TaskId) -> bool, round: nat) {
    forall t {:trigger t in s0.tasks} :: t in s0.tasks ==>
      t in s.tasks
      && (s.tasks[t] == s0.tasks[t]
          || if runs(round, t) then s.tasks[t].jobs.Keys != s0.tasks[t].jobs.Keys
             else s.tasks[t].jobs == s0.tasks[t].jobs && Advanced(cfg, s0.tasks[t].rec.row, s.tasks[t].rec.row))
  }

  /** Those in flight have a worker they did not have. */
  predicate Newly(s0: Sys, s: Sys, inflight: map<TaskId, Token>, runs: (nat, TaskId) -> bool, round: nat) {
    forall t {:trigger t in inflight} :: t in inflight ==>
      t in s0.tasks && t in s.tasks && runs(round, t) && s.tasks[t].jobs.Keys != s0.tasks[t].jobs.Keys
  }

  lemma NobodyAsked(cfg: Config, s: Sys, runs: (nat, TaskId) -> bool, round: nat)
    ensures AsAsked(cfg, s, s, runs, round) && Newly(s, s, map[], runs, round)
  {
  }

  lemma JobsAsked(cfg: Config, s0: Sys, s: Sys, s': Sys, inflight: map<TaskId, Token>, runs: (nat, TaskId) -> bool, round: nat)
    requires AsAsked(cfg, s0, s, runs, round) && Newly(s0, s, inflight, runs, round) && Apart(s, s', inflight) && SameWorkers(s, s')
    ensures AsAsked(cfg, s0, s', runs, round) && forall now: set<TaskId> :: Newly(s0, s', inflight - now, runs, round)
  {
    hide Advanced;
  }

  lemma OneAsked(cfg: Config, s0: Sys, s: Sys, s': Sys, inflight: map<TaskId, Token>, runs: (nat, TaskId) -> bool, round: nat, t: TaskId, won: Option<Token>)
    requires AsAsked(cfg, s0, s, runs, round) && Newly(s0, s, inflight, runs, round) && OnlyChanged(s, s', t)
    requires t in s0.tasks && s.tasks[t] == s0.tasks[t] && t !in inflight && (won.Some? <==> runs(round, t))
    requires if won.Some? then won.value in s'.tasks[t].jobs && won.value !in s.tasks[t].jobs
             else s'.tasks[t].jobs == s.tasks[t].jobs && Advanced(cfg, s.tasks[t].rec.row, s'.tasks[t].rec.row)
    ensures AsAsked(cfg, s0, s', runs, round) && Newly(s0, s', if won.Some? then inflight[t := won.value] else inflight, runs, round)
  {
    hide Advanced;
  }

  lemma NothingTouched(cfg: Config, quota: map<string, nat>, s: Sys, now: int, load: map<string, nat>)
    requires forall step :: LoadOf(load, step) == 0
    ensures Touches(cfg, quota, s, s, now) && TakenUp(cfg, quota, s, map[], now) && Counted1(quota, s, s, load)
  {
    forall step ensures Claimed(s, s, step) == {} {}
  }

  lemma JobsTouch(cfg: Config, quota: map<string, nat>, s0: Sys, s: Sys, s': Sys, inflight: map<TaskId, Token>, now: int, load: map<string, nat>)
    requires Touches(cfg, quota, s0, s, now) && TakenUp(cfg, quota, s0, inflight, now) && Apart(s, s', inflight)
    requires Counted1(quota, s0, s, load) && SameWorkers(s, s')
    ensures Touches(cfg, quota, s0, s', now) && Counted1(quota, s0, s', load)
    ensures forall now': set<TaskId> :: TakenUp(cfg, quota, s0, inflight - now', now)
  {
    hide Runnable, Quota;
    forall step ensures Claimed(s0, s', step) == Claimed(s0, s, step) {}
  }

  /** A task is skipped or claimed. */
  lemma OneTouched(cfg: Config, quota: map<string, nat>, s0: Sys, s: Sys, s': Sys, inflight: map<TaskId, Token>, now: int,
                   load: map<string, nat>, t: TaskId, won: Option<Token>)
    requires Touches(cfg, quota, s0, s, now) && TakenUp(cfg, quota, s0, inflight, now) && Counted1(quota, s0, s, load)
    requires OnlyChanged(s, s', t) && t in s0.tasks && Runnable(cfg, quota, s0.tasks[t].rec.row, now)
    requires won.None? ==> s'.tasks[t].jobs.Keys == s.tasks[t].jobs.Keys
    requires LoadOf(load, s0.tasks[t].rec.row.step) < Quota(quota, s0.tasks[t].rec.row.step)
    ensures Touches(cfg, quota, s0, s', now) && TakenUp(cfg, quota, s0, if won.Some? then inflight[t := won.value] else inflight, now)
    ensures var step := s0.tasks[t].rec.row.step;
            Counted1(quota, s0, s', if won.Some? then load[step := LoadOf(load, step) + 1] else load)
  {
    hide Runnable, Quota, Claimed, Counted1;
    CountedOne(quota, s0, s, s', load, t, won.Some?);
  }

  lemma CountedOne(quota: map<string, nat>, s0: Sys, s: Sys, s': Sys, load: map<string, nat>, t: TaskId, won: bool)
    requires Counted1(quota, s0, s, load) && OnlyChanged(s, s', t) && t in s0.tasks
    requires !won ==> s'.tasks[t].jobs.Keys == s.tasks[t].jobs.Keys
    requires LoadOf(load, s0.tasks[t].rec.row.step) < Quota(quota, s0.tasks[t].rec.row.step)
    ensures var step := s0.tasks[t].rec.row.step; Counted1(quota, s0, s', if won then load[step := LoadOf(load, step) + 1] else load)
  {
    hide Quota, Claimed;
    var mine := s0.tasks[t].rec.row.step;
    forall step ensures |Claimed(s0, s', step)| <= |Claimed(s0, s, step)| + (if won && step == mine then 1 else 0) {
      ClaimedOne(s0, s, s', t, won, step);
    }
  }

  lemma ClaimedOne(s0: Sys, s: Sys, s': Sys, t: TaskId, won: bool, step: string)
    requires OnlyChanged(s, s', t) && t in s0.tasks && (!won ==> s'.tasks[t].jobs.Keys == s.tasks[t].jobs.Keys)
    ensures |Claimed(s0, s', step)| <= |Claimed(s0, s, step)| + (if won && step == s0.tasks[t].rec.row.step then 1 else 0)
  {
    var more := if won && step == s0.tasks[t].rec.row.step then {t} else {};
    assert Claimed(s0, s', step) <= Claimed(s0, s, step) + more;
    SubsetSize(Claimed(s0, s', step), Claimed(s0, s, step) + more);
  }

  lemma RequeueTurn(cfg: Config, e: Env, s: Sys, t: TaskId)
    requires SysOk(cfg, s) && t in s.tasks && s.tasks[t].rec.row.status.Failed?
    ensures var s' := Step(cfg, s, On(t, Requeue(s.tasks[t].rec.row)));
            && SysOk(cfg, s') && OnlyChanged(s, s', t) && Spent(cfg, e, s, s', 0)
            && s'.tasks[t].rec.row == s.tasks[t].rec.row.(status := Queued, nextRetryAt := None)
  {
    hide SysOk, TaskStep, Step, ClaimsLeft, TaskOk, TotalLeft;
    At(cfg, s, t);
    Below(cfg, s);
    RequeueTask(cfg, e, s.tasks[t], s.nextToken, s.nextTask);
    TurnOnly(cfg, s, t, Requeue(s.tasks[t].rec.row));
    TotalTurn(cfg, e, s, Step(cfg, s, On(t, Requeue(s.tasks[t].rec.row))), t);
  }

  lemma RequeueTask(cfg: Config, e: Env, ts: TaskSys, drawn: Token, next: TaskId)
    requires TaskOk(cfg, ts, drawn) && ts.rec.row.status.Failed?
    ensures var r := TaskStep(cfg, ts, Requeue(ts.rec.row), drawn, next);
            && r.born == [] && r.sys.rec.row == ts.rec.row.(status := Queued, nextRetryAt := None)
            && ClaimsLeft(cfg, e, r.sys.rec) == ClaimsLeft(cfg, e, ts.rec)
  {
    hide RecordOk, JobsOk, ReleasedOk;
  }

  lemma SkippedTurn(cfg: Config, e: Env, s: Sys, t: TaskId, seen: bool)
    requires SysOk(cfg, s) && t in s.tasks && s.tasks[t].rec.row.status.Queued? && e.Smooth? && OnCourse(cfg, e, s.tasks[t])
    ensures var s' := Step(cfg, s, On(t, Skip(s.tasks[t].rec.row, seen)));
            && SysOk(cfg, s') && OnlyChanged(s, s', t) && Spent(cfg, e, s, s', 1)
            && !Executing(s'.tasks[t].rec.row.status) && OnCourse(cfg, e, s'.tasks[t])
            && s'.tasks[t].rec.row.workflow == s.tasks[t].rec.row.workflow && s'.tasks[t].jobs == s.tasks[t].jobs
            && Advanced(cfg, s.tasks[t].rec.row, s'.tasks[t].rec.row)
  {
    hide SysOk, TaskStep, Step, ClaimsLeft, TaskOk, TotalLeft, OnCourse, Advanced;
    At(cfg, s, t);
    Below(cfg, s);
    SkippedTask(cfg, e, s.tasks[t], seen, s.nextToken, s.nextTask);
    TurnOnly(cfg, s, t, Skip(s.tasks[t].rec.row, seen));
    TotalTurn(cfg, e, s, Step(cfg, s, On(t, Skip(s.tasks[t].rec.row, seen))), t);
  }

  lemma SkippedTask(cfg: Config, e: Env, ts: TaskSys, seen: bool, drawn: Token, next: TaskId)
    requires TaskOk(cfg, ts, drawn) && ts.rec.row.status.Queued? && e.Smooth? && OnCourse(cfg, e, ts)
    ensures var r := TaskStep(cfg, ts, Skip(ts.rec.row, seen), drawn, next);
            && r.born == [] && !Executing(r.sys.rec.row.status) && OnCourse(cfg, e, r.sys)
            && r.sys.rec.row.workflow == ts.rec.row.workflow && r.sys.jobs == ts.jobs && Advanced(cfg, ts.rec.row, r.sys.rec.row)
            && ClaimsLeft(cfg, e, r.sys.rec) < ClaimsLeft(cfg, e, ts.rec)
  {
    hide TaskOk, SkipRound, Straight, Steps, ClaimsLeft, Advanced;
    SkipFacts(cfg, ts, drawn);
    SkippedRec(cfg, e, ts.rec, seen, next);
  }

  lemma SkippedRec(cfg: Config, e: Env, rec: Record, seen: bool, next: TaskId)
    requires rec.row.status.Queued? && rec.row.step in Steps(cfg, rec.row.workflow) && Straight(Steps(cfg, rec.row.workflow), rec.row.step)
    ensures var rec' := SkipRound(Steps(cfg, rec.row.workflow), rec, rec.row, seen, next);
            && !Executing(rec'.row.status) && !rec'.row.status.Failed? && rec'.row.workflow == rec.row.workflow
            && Advanced(cfg, rec.row, rec'.row)
            && Straight(Steps(cfg, rec.row.workflow), rec'.row.step) && ClaimsLeft(cfg, e, rec') < ClaimsLeft(cfg, e, rec)
  {
    hide SkipRound, Straight, Cancelling, Steps, IndexOf, Advanced;
    var steps := Steps(cfg, rec.row.workflow);
    NextStaysInside(steps, rec.row.step);
    SkipDoes(steps, rec, seen, next);
    if Next(steps, rec.row.step).Advance? { NextIndex(steps, rec.row.step); }
    SkipLeaves(rec.items, Next(steps, rec.row.step));
    SkippedLeft(cfg, e, rec, SkipRound(steps, rec, rec.row, seen, next));
    PassedNext(cfg, rec.row, SkipRound(steps, rec, rec.row, seen, next).row, seen);
  }

  lemma PassedNext(cfg: Config, row: Task, row': Task, seen: bool)
    requires row.status.Queued? && row.step in Steps(cfg, row.workflow)
    requires var n := Next(Steps(cfg, row.workflow), row.step);
             row' == if n.Done? then row.(status := FinalStatus(false, seen)) else row.(step := if n.Advance? then n.step else row.step)
    ensures Advanced(cfg, row, row')
  {
    hide Steps;
  }

  lemma SkippedLeft(cfg: Config, e: Env, rec: Record, rec': Record)
    requires rec.row.status.Queued? && rec'.row.workflow == rec.row.workflow && rec.row.step in Steps(cfg, rec.row.workflow)
    requires rec'.row.status.Queued? || Terminal(rec'.row.status)
    requires var steps := Steps(cfg, rec.row.workflow);
             rec'.row.status.Queued? ==> IndexOf(steps, rec'.row.step) == IndexOf(steps, rec.row.step) + 1
    requires ToJudge(rec') ==> ToJudge(rec)
    ensures ClaimsLeft(cfg, e, rec') < ClaimsLeft(cfg, e, rec)
  {
    hide ToJudge, Steps;
  }

  lemma SkipFacts(cfg: Config, ts: TaskSys, drawn: Token)
    requires TaskOk(cfg, ts, drawn)
    ensures ts.rec.row in ts.past && ts.rec.row.step in Steps(cfg, ts.rec.row.workflow)
  {
  }

  lemma SkipDoes(steps: seq<string>, rec: Record, seen: bool, next: TaskId)
    requires rec.row.status.Queued? && !Next(steps, rec.row.step).NotInWorkflow?
    ensures var rec' := SkipRound(steps, rec, rec.row, seen, next);
            var n := Next(steps, rec.row.step);
            && rec'.row == (if n.Done? then rec.row.(status := FinalStatus(false, seen)) else rec.row.(step := n.step))
            && rec'.items == Cancelling(rec.items, if n.Advance? then CancelOther(n.step) else CancelAll)
  {
    hide Next, Cancelling;
  }

  /** Skipping makes no submission. */
  lemma SkipLeaves(items: seq<Item>, n: NextStep)
    ensures var after := Cancelling(items, if n.Advance? then CancelOther(n.step) else CancelAll);
            after != [] && after[|after| - 1].status.Submitted? ==> items != [] && items[|items| - 1].status.Submitted?
  {
  }

  lemma ClaimedTurn(cfg: Config, e: Env, s: Sys, t: TaskId, now: int)
    requires SysOk(cfg, s) && t in s.tasks && s.tasks[t].rec.row.status.Queued? && s.tasks[t].rec.row.step in cfg.registry && OnCourse(cfg, e, s.tasks[t])
    ensures var s' := Step(cfg, s, On(t, Claim(s.tasks[t].rec.row, "pool", now)));
            && SysOk(cfg, s') && OnlyChanged(s, s', t) && Spent(cfg, e, s, s', 1)
            && s.nextToken in s'.tasks[t].jobs && s.nextToken !in s.tasks[t].jobs
            && Won(s, s', t) && UnderWay(cfg, e, s'.tasks[t], s.nextToken) && s'.tasks[t].rec.row.workflow == s.tasks[t].rec.row.workflow
  {
    hide SysOk, TaskStep, Step, ClaimsLeft, TaskOk, TotalLeft, UnderWay, OnCourse;
    At(cfg, s, t);
    Below(cfg, s);
    ClaimedTask(cfg, e, s.tasks[t], now, s.nextToken, s.nextTask);
    TurnOnly(cfg, s, t, Claim(s.tasks[t].rec.row, "pool", now));
    TotalTurn(cfg, e, s, Step(cfg, s, On(t, Claim(s.tasks[t].rec.row, "pool", now))), t);
  }

  lemma ClaimedTask(cfg: Config, e: Env, ts: TaskSys, now: int, drawn: Token, next: TaskId)
    requires TaskOk(cfg, ts, drawn) && ts.rec.row.status.Queued? && ts.rec.row.step in cfg.registry && OnCourse(cfg, e, ts)
    ensures var r := TaskStep(cfg, ts, Claim(ts.rec.row, "pool", now), drawn, next);
            && drawn in r.sys.jobs && drawn !in ts.jobs
            && r.born == [] && UnderWay(cfg, e, r.sys, drawn) && r.sys.rec.row.lock.token == Some(drawn)
            && r.sys.rec.row.workflow == ts.rec.row.workflow
            && ClaimsLeft(cfg, e, r.sys.rec) + 1 == ClaimsLeft(cfg, e, ts.rec)
  {
    FreshToken(cfg, ts, drawn);
    hide JobsOk, ReleasedOk, AttemptsOk, ItemsOk, GrantOk, Straight;
  }

  lemma FreshToken(cfg: Config, ts: TaskSys, drawn: Token)
    requires TaskOk(cfg, ts, drawn)
    ensures drawn !in ts.jobs
  {
  }

  /** In the middle of a round: what is in flight, what is left, and what the tasks not yet come
      to look like. */
  predicate InRound(cfg: Config, e: Env, s0: Sys, s: Sys, inflight: map<TaskId, Token>, todo: set<TaskId>) {
    && SysOk(cfg, s) && SameWorkflows(s0, s) && InFlight(cfg, e, s, inflight)
    && (forall t {:trigger t in todo} :: t in todo ==> t in s.tasks && t in s0.tasks && t !in inflight && s.tasks[t] == s0.tasks[t])
  }

  lemma RoundOn(cfg: Config, e: Env, s0: Sys, s: Sys, s': Sys, inflight: map<TaskId, Token>, todo: set<TaskId>, t: TaskId, won: Option<Token>)
    requires InRound(cfg, e, s0, s, inflight, todo) && SysOk(cfg, s') && OnlyChanged(s, s', t) && t !in todo && t !in inflight
    requires s'.tasks[t].rec.row.workflow == s.tasks[t].rec.row.workflow
    requires if won.Some? then UnderWay(cfg, e, s'.tasks[t], won.value) else !Executing(s'.tasks[t].rec.row.status)
    ensures InRound(cfg, e, s0, s', if won.Some? then inflight[t := won.value] else inflight, todo)
  {
    hide SysOk, UnderWay, InFlight, OnlyChanged;
    FlightOn(cfg, e, s, s', inflight, t, won);
    WorkflowsOn(s0, s, s', t);
    TodoOn(s0, s, s', inflight, todo, t, won);
  }

  lemma RoundDrained(cfg: Config, e: Env, s0: Sys, s: Sys, s': Sys, inflight: map<TaskId, Token>, now: set<TaskId>, todo: set<TaskId>)
    requires InRound(cfg, e, s0, s, inflight, todo) && SysOk(cfg, s') && SameWorkflows(s, s')
    requires InFlight(cfg, e, s', inflight - now) && Apart(s, s', inflight)
    ensures InRound(cfg, e, s0, s', inflight - now, todo)
  {
    hide SysOk, InFlight;
    WorkflowsTrans(s0, s, s');
    hide SameWorkflows;
  }

  lemma FlightOn(cfg: Config, e: Env, s: Sys, s': Sys, inflight: map<TaskId, Token>, t: TaskId, won: Option<Token>)
    requires InFlight(cfg, e, s, inflight) && OnlyChanged(s, s', t) && t !in inflight
    requires if won.Some? then UnderWay(cfg, e, s'.tasks[t], won.value) else !Executing(s'.tasks[t].rec.row.status)
    ensures InFlight(cfg, e, s', if won.Some? then inflight[t := won.value] else inflight)
  {
    hide UnderWay;
    var inflight' := if won.Some? then inflight[t := won.value] else inflight;
    forall u | u in inflight' ensures u in s'.tasks && UnderWay(cfg, e, s'.tasks[u], inflight'[u]) {
      if u != t { assert u in inflight && u in s.tasks; }
    }
  }

  lemma WorkflowsOn(s0: Sys, s: Sys, s': Sys, t: TaskId)
    requires SameWorkflows(s0, s) && OnlyChanged(s, s', t) && s'.tasks[t].rec.row.workflow == s.tasks[t].rec.row.workflow
    ensures SameWorkflows(s0, s')
  {
  }

  lemma TodoOn(s0: Sys, s: Sys, s': Sys, inflight: map<TaskId, Token>, todo: set<TaskId>, t: TaskId, won: Option<Token>)
    requires OnlyChanged(s, s', t) && t !in todo && s0.tasks.Keys == s.tasks.Keys
    requires forall u {:trigger u in todo} :: u in todo ==> u in s.tasks && u in s0.tasks && u !in inflight && s.tasks[u] == s0.tasks[u]
    ensures forall u {:trigger u in todo} :: u in todo ==>
              u in s'.tasks && u in s0.tasks && u !in (if won.Some? then inflight[t := won.value] else inflight) && s'.tasks[u] == s0.tasks[u]
  {
  }

  /** Of the failed tasks that were due, all but `todo` are queued again; nobody else changed. */
  predicate Requeued(cfg: Config, s0: Sys, s: Sys, now: int, todo: set<TaskId>) {
    && SameWorkflows(s0, s) && todo <= DueFailed(cfg, s0, now)
    && (forall t {:trigger t in s0.tasks} :: t in s0.tasks ==>
          if t in DueFailed(cfg, s0, now) && t !in todo then s.tasks[t].rec.row == s0.tasks[t].rec.row.(status := Queued, nextRetryAt := None)
          else s.tasks[t] == s0.tasks[t])
  }

  lemma RequeuedOne(cfg: Config, s0: Sys, s: Sys, s': Sys, now: int, todo: set<TaskId>, t: TaskId)
    requires Requeued(cfg, s0, s, now, todo) && t in todo && OnlyChanged(s, s', t)
    requires s'.tasks[t].rec.row == s.tasks[t].rec.row.(status := Queued, nextRetryAt := None)
    ensures Requeued(cfg, s0, s', now, todo - {t})
  {
    hide DueFailed;
  }

  lemma RequeuedThere(cfg: Config, s0: Sys, s: Sys, now: int, todo: set<TaskId>, t: TaskId)
    requires Requeued(cfg, s0, s, now, todo) && t in todo
    ensures t in s.tasks && s.tasks[t].rec.row.status.Failed?
  {
  }

  function Known(cfg: Config, s: Sys, listed: set<TaskId>): set<TaskId> {
    set t | t in listed && t in s.tasks && s.tasks[t].rec.row.workflow in cfg.workflows
  }

  /** _requeue_due_failures: every failed task whose time has come is queued again. */
  method RequeueDue(cfg: Config, e: Env, s0: Sys, now: int) returns (s: Sys, count: nat)
    requires SysOk(cfg, s0)
    ensures SysOk(cfg, s) && Spent(cfg, e, s0, s, 0) && Requeued(cfg, s0, s, now, {})
    ensures count == |DueFailed(cfg, s0, now)|
    ensures DueFailed(cfg, s0, now) == {} ==> s == s0
  {
    hide SysOk, Spent, Step, DueFailed, Requeued, OnlyChanged, Known, DueFailures;
    s, count := s0, 0;
    SpentNothing(cfg, e, s0);
    var todo := Known(cfg, s0, DueFailures(s0, now));
    DueListed(cfg, s0, now);
    RequeuedNone(cfg, s0, now);
    while todo != {}
      invariant SysOk(cfg, s) && Spent(cfg, e, s0, s, 0) && Requeued(cfg, s0, s, now, todo) && todo <= DueFailed(cfg, s0, now)
      invariant count + |todo| == |DueFailed(cfg, s0, now)|
      invariant count == 0 ==> s == s0
      decreases |todo|
    {
      var t :| t in todo;
      ghost var was := s;
      RequeuedThere(cfg, s0, s, now, todo, t);
      RequeueTurn(cfg, e, s, t);
      s := Step(cfg, s, On(t, Requeue(s.tasks[t].rec.row)));
      RequeuedOne(cfg, s0, was, s, now, todo, t);
      SpentOn(cfg, e, s0, was, s, 0, 0);
      todo := todo - {t};
      count := count + 1;
    }
  }

  /** What the query lists of failed tasks, less those of unknown workflows. */
  lemma DueListed(cfg: Config, s: Sys, now: int)
    ensures Known(cfg, s, DueFailures(s, now)) == DueFailed(cfg, s, now)
  {
  }

  lemma RequeuedNone(cfg: Config, s: Sys, now: int)
    ensures Requeued(cfg, s, s, now, DueFailed(cfg, s, now))
  {
  }

  /** Failed tasks of known workflows whose retry time has arrived. */
  function DueFailed(cfg: Config, s: Sys, now: int): set<TaskId> {
    set t | t in s.tasks && s.tasks[t].rec.row.status.Failed?
            && (s.tasks[t].rec.row.nextRetryAt.Some? ==> s.tasks[t].rec.row.nextRetryAt.value <= now)
            && s.tasks[t].rec.row.workflow in cfg.workflows
  }

  /** A stubborn environment skips no step. */
  ghost predicate SmoothRuns(e: Env, runs: (nat, TaskId) -> bool) {
    e.Stubborn? ==> forall round: nat, t: TaskId :: runs(round, t)
  }

  lemma RunsHere(e: Env, runs: (nat, TaskId) -> bool, round: nat, t: TaskId)
    requires SmoothRuns(e, runs)
    ensures e.Stubborn? ==> runs(round, t)
  {
  }

  /** Coordinator.tick, with current reads: requeue due failures, then walk the queue in any order,
      skipping or claiming what its step's quota allows, while the pool already runs some of the
      jobs submitted. */
  method Tick(cfg: Config, quota: map<string, nat>, e: Env, s0: Sys, now: int, answers: Answers, early: (nat, nat) -> set<TaskId>,
              runs: (nat, TaskId) -> bool, seen: (nat, TaskId) -> bool, round: nat)
    returns (s: Sys, inflight: map<TaskId, Token>, progressed: nat)
    requires SysOk(cfg, s0) && InFlight(cfg, e, s0, map[]) && AllOnCourse(cfg, e, s0)
    requires SmoothConfig(cfg, e) && SmoothAnswers(e, answers) && SmoothRuns(e, runs)
    ensures SysOk(cfg, s) && SameWorkflows(s0, s) && InFlight(cfg, e, s, inflight) && AllOnCourse(cfg, e, s)
    ensures Spent(cfg, e, s0, s, progressed) && (e.Stubborn? ==> progressed <= Quota(quota, e.step))
    ensures progressed == 0 ==> s == s0 && inflight == map[]
    ensures progressed == 0 ==> NothingRunnable(cfg, quota, s, now)
    ensures Touches(cfg, quota, s0, s, now) && TakenUp(cfg, quota, s0, inflight, now)
    ensures forall step :: |Claimed(s0, s, step)| <= Quota(quota, step)
    ensures AsAsked(cfg, s0, s, runs, round)
  {
    hide Touches, Claimed, Counted1, TakenUp, SameWorkers, AsAsked, Newly, Advanced;
    hide SysOk, UnderWay, Spent, SmoothConfig, SmoothAnswers, SmoothRuns, InFlight, Step, InRound, SameWorkflows, OnlyChanged, AllOnCourse, OnCourse, Requeued, Apart;
    hide Listed, RowsOf, StepsOf, TotalLoad, Runnable, DueFailed, NothingRunnable, Quota;
    inflight := map[];
    s, progressed := RequeueDue(cfg, e, s0, now);
    NoDueFailed(cfg, e, s0, now);
    SpentNothing(cfg, e, s0);
    var load: map<string, nat> := TotalLoad(StepsOf(s, Listed(s, Running)), StepsOf(s, Listed(s, PausePending)));
    IdleLoad(cfg, e, s, load);
    var queue := RowsOf(s, Listed(s, Queued));
    var todo := queue.Keys;
    RoundStarts(cfg, e, s, todo);
    NothingTouched(cfg, quota, s0, now, load);
    NobodyAsked(cfg, s0, runs, round);
    while todo != {}
      invariant InRound(cfg, e, s0, s, inflight, todo) && AllOnCourse(cfg, e, s) && todo <= queue.Keys
      invariant Spent(cfg, e, s0, s, progressed)
      invariant Touches(cfg, quota, s0, s, now) && TakenUp(cfg, quota, s0, inflight, now) && Counted1(quota, s0, s, load)
      invariant AsAsked(cfg, s0, s, runs, round) && Newly(s0, s, inflight, runs, round)
      invariant e.Stubborn? ==> progressed == LoadOf(load, e.step) && progressed <= Quota(quota, e.step)
      invariant progressed == 0 ==> s == s0 && inflight == map[] && forall step :: LoadOf(load, step) == 0
      invariant progressed == 0 ==> forall t {:trigger t in queue} :: t in queue && t !in todo ==> !Runnable(cfg, quota, queue[t], now)
      decreases |todo|
    {
      var t :| t in todo;
      RoundEnds(cfg, e, s0, s, inflight, todo);
      ghost var paused := s;
      var now', left := early(round, |todo|), inflight;
      s, left := RunJobs(cfg, e, s, inflight, now', answers, round);
      RoundDrained(cfg, e, s0, paused, s, inflight, now', todo);
      SpentOn(cfg, e, s0, paused, s, progressed, 0);
      JobsTouch(cfg, quota, s0, paused, s, inflight, now, load);
      JobsAsked(cfg, s0, paused, s, inflight, runs, round);
      inflight := left;
      InTurn(cfg, e, s0, s, inflight, todo, queue, t);
      OnStubbornStep(cfg, e, s, t);
      todo := todo - {t};
      var row := queue[t];
      NotTaken(cfg, quota, row, load, now);
      if DueAt(row, now) && LoadOf(load, row.step) < Quota(quota, row.step) && row.workflow in cfg.workflows && row.step in cfg.registry {
        ghost var was := s;
        RunsHere(e, runs, round, t);
        if !runs(round, t) {
          SkippedTurn(cfg, e, s, t, seen(round, t));
          s := Step(cfg, s, On(t, Skip(s.tasks[t].rec.row, seen(round, t))));
          RoundOn(cfg, e, s0, was, s, inflight, todo, t, None);
          OneTouched(cfg, quota, s0, was, s, inflight, now, load, t, None);
          OneAsked(cfg, s0, was, s, inflight, runs, round, t, None);
        } else {
          ClaimedTurn(cfg, e, s, t, now);
          var token := s.nextToken;
          s := Step(cfg, s, On(t, Claim(s.tasks[t].rec.row, "pool", now)));
          OneTouched(cfg, quota, s0, was, s, inflight, now, load, t, Some(token));
          OneAsked(cfg, s0, was, s, inflight, runs, round, t, Some(token));
          load := load[row.step := LoadOf(load, row.step) + 1];
          RoundOn(cfg, e, s0, was, s, inflight, todo, t, Some(token));
          StillThere(cfg, e, s.tasks[t], token);
          inflight := inflight[t := token];
        }
        StillOnCourse(cfg, e, was, s, t);
        SpentOn(cfg, e, s0, was, s, progressed, 1);
        progressed := progressed + 1;
      }
    }
    RoundEnds(cfg, e, s0, s, inflight, todo);
    NothingElse(cfg, quota, s0, queue, now);
    WithinQuotas(quota, s0, s, load);
  }

  lemma WithinQuotas(quota: map<string, nat>, s0: Sys, s: Sys, load: map<string, nat>)
    requires Counted1(quota, s0, s, load)
    ensures forall step :: |Claimed(s0, s, step)| <= Quota(quota, step)
  {
  }

  lemma OnStubbornStep(cfg: Config, e: Env, s: Sys, t: TaskId)
    requires AllOnCourse(cfg, e, s) && t in s.tasks
    ensures OnCourse(cfg, e, s.tasks[t]) && (e.Stubborn? ==> s.tasks[t].rec.row.step == e.step)
  {
    hide Straight;
  }

  lemma RoundEnds(cfg: Config, e: Env, s0: Sys, s: Sys, inflight: map<TaskId, Token>, todo: set<TaskId>)
    requires InRound(cfg, e, s0, s, inflight, todo)
    ensures SysOk(cfg, s) && SameWorkflows(s0, s) && InFlight(cfg, e, s, inflight)
  {
    hide SysOk, SameWorkflows, InFlight;
  }

  /** The next task of the queue is as it was listed. */
  lemma InTurn(cfg: Config, e: Env, s0: Sys, s: Sys, inflight: map<TaskId, Token>, todo: set<TaskId>, queue: map<TaskId, Task>, t: TaskId)
    requires InRound(cfg, e, s0, s, inflight, todo) && t in todo && queue == RowsOf(s0, Listed(s0, Queued)) && todo <= queue.Keys
    ensures SysOk(cfg, s) && t in s.tasks && t in queue && s.tasks[t].rec.row == queue[t] && queue[t].status.Queued? && t !in inflight
    ensures t in s0.tasks && s.tasks[t] == s0.tasks[t]
    ensures InRound(cfg, e, s0, s, inflight, todo - {t})
  {
    hide SysOk, InFlight, SameWorkflows;
  }

  lemma NotTaken(cfg: Config, quota: map<string, nat>, row: Task, load: map<string, nat>, now: int)
    requires row.status.Queued?
    ensures LoadOf(load, row.step) == 0
            && !(DueAt(row, now) && LoadOf(load, row.step) < Quota(quota, row.step) && row.workflow in cfg.workflows && row.step in cfg.registry)
            ==> !Runnable(cfg, quota, row, now)
    ensures DueAt(row, now) && LoadOf(load, row.step) < Quota(quota, row.step) && row.workflow in cfg.workflows && row.step in cfg.registry
            ==> Runnable(cfg, quota, row, now)
  {
  }

  lemma StillOnCourse(cfg: Config, e: Env, s: Sys, s': Sys, t: TaskId)
    requires AllOnCourse(cfg, e, s) && OnlyChanged(s, s', t) && OnCourse(cfg, e, s'.tasks[t])
    ensures AllOnCourse(cfg, e, s')
  {
    hide OnCourse;
  }

  lemma NoDueFailed(cfg: Config, e: Env, s: Sys, now: int)
    requires AllOnCourse(cfg, e, s)
    ensures DueFailed(cfg, s, now) == {}
  {
  }

  lemma IdleLoad(cfg: Config, e: Env, s: Sys, load: map<string, nat>)
    requires InFlight(cfg, e, s, map[]) && load == TotalLoad(StepsOf(s, Listed(s, Running)), StepsOf(s, Listed(s, PausePending)))
    ensures forall step :: LoadOf(load, step) == 0
  {
    assert Listed(s, Running) == {} && Listed(s, PausePending) == {};
  }

  lemma RoundStarts(cfg: Config, e: Env, s: Sys, todo: set<TaskId>)
    requires SysOk(cfg, s) && InFlight(cfg, e, s, map[]) && todo == RowsOf(s, Listed(s, Queued)).Keys
    ensures InRound(cfg, e, s, s, map[], todo)
  {
    hide SysOk, InFlight;
  }

  lemma NothingElse(cfg: Config, quota: map<string, nat>, s: Sys, queue: map<TaskId, Task>, now: int)
    requires queue == RowsOf(s, Listed(s, Queued))
    ensures (forall t {:trigger t in queue} :: t in queue ==> !Runnable(cfg, quota, queue[t], now)) ==>
              NothingRunnable(cfg, quota, s, now)
  {
    forall t | t in s.tasks && s.tasks[t].rec.row.status.Queued? ensures t in queue && queue[t] == s.tasks[t].rec.row {
      assert t in Listed(s, Queued);
    }
  }

  // -- run until idle ---------------------------------------------------------------------------------

  /** max(len(wf.steps) ..., default=1). */
  predicate LongestIs(cfg: Config, longest: nat) {
    if cfg.workflows == map[] then longest == 1
    else && (exists w :: w in cfg.workflows && |cfg.workflows[w]| == longest)
         && (forall w {:trigger w in cfg.workflows} :: w in cfg.workflows ==> |cfg.workflows[w]| <= longest)
  }

  method LongestWorkflow(cfg: Config) returns (longest: nat)
    ensures LongestIs(cfg, longest)
  {
    if cfg.workflows == map[] { return 1; }
    longest := 0;
    var todo := cfg.workflows.Keys;
    assert todo != {};
    while todo != {}
      invariant todo <= cfg.workflows.Keys
      invariant forall w {:trigger w in cfg.workflows} :: w in cfg.workflows && w !in todo ==> |cfg.workflows[w]| <= longest
      invariant (todo == cfg.workflows.Keys && longest == 0) || exists w :: w in cfg.workflows && |cfg.workflows[w]| == longest
      decreases |todo|
    {
      var w :| w in todo;
      todo := todo - {w};
      if |cfg.workflows[w]| >= longest { longest := |cfg.workflows[w]|; }
    }
  }

  lemma StepsBounded(cfg: Config, s: Sys, longest: nat)
    requires LongestIs(cfg, longest)
    requires forall t :: t in s.tasks ==> t < s.nextTask
    ensures Total(cfg, Smooth(false), s) <= |s.tasks| * longest
  {
    TotalBounded(cfg, s.tasks, s.nextTask, longest);
    assert Earlier(s.tasks, s.nextTask) == s.tasks.Keys;
  }

  ghost predicate CapIs(cfg: Config, s: Sys, cap: nat) {
    exists w: nat :: LongestIs(cfg, w) && cap == |s.tasks| * w + 50
  }

  method Cap(cfg: Config, s: Sys) returns (cap: nat)
    requires SysOk(cfg, s)
    ensures CapIs(cfg, s, cap)
    ensures Total(cfg, Smooth(false), s) + 50 <= cap
  {
    Below(cfg, s);
    var longest := LongestWorkflow(cfg);
    StepsBounded(cfg, s, longest);
    hide LongestIs, Total, SysOk;
    cap := |s.tasks| * longest + 50;
  }

  /** Between rounds: nothing in flight, every task on course. */
  predicate Settled(cfg: Config, e: Env, s0: Sys, s: Sys) {
    SysOk(cfg, s) && SameWorkflows(s0, s) && InFlight(cfg, e, s, map[]) && AllOnCourse(cfg, e, s)
  }

  /** One scheduling round and its jobs. A round that submits nothing changes nothing. */
  method Round(cfg: Config, quota: map<string, nat>, e: Env, s0: Sys, s: Sys, answers: Answers, early: (nat, nat) -> set<TaskId>,
               runs: (nat, TaskId) -> bool, seen: (nat, TaskId) -> bool, now: int, round: nat) returns (s': Sys, submitted: nat)
    requires Settled(cfg, e, s0, s) && SmoothConfig(cfg, e) && SmoothAnswers(e, answers) && SmoothRuns(e, runs)
    ensures Settled(cfg, e, s0, s') && Spent(cfg, e, s, s', submitted) && (e.Stubborn? ==> submitted <= Quota(quota, e.step))
    ensures submitted == 0 ==> NothingRunnable(cfg, quota, s', now)
    ensures Touches(cfg, quota, s, s', now) && forall step :: |Claimed(s, s', step)| <= Quota(quota, step)
  {
    hide Touches, Claimed, TakenUp, SameWorkers, Apart;
    hide SysOk, Spent, SmoothConfig, InFlight, SameWorkflows, AllOnCourse, NothingRunnable, SmoothAnswers, SmoothRuns, Quota;
    var inflight, ticked;
    ticked, inflight, submitted := Tick(cfg, quota, e, s, now, answers, early, runs, seen, round);
    s' := Drain(cfg, e, ticked, inflight, answers, round);
    WorkflowsTrans(s0, s, ticked);
    WorkflowsTrans(s0, ticked, s');
    SpentOn(cfg, e, s, ticked, s', submitted, 0);
    DrainTouches(cfg, quota, s, ticked, s', inflight, now);
  }

  lemma DrainTouches(cfg: Config, quota: map<string, nat>, s0: Sys, s: Sys, s': Sys, inflight: map<TaskId, Token>, now: int)
    requires Touches(cfg, quota, s0, s, now) && TakenUp(cfg, quota, s0, inflight, now) && Apart(s, s', inflight) && SameWorkers(s, s')
    ensures Touches(cfg, quota, s0, s', now) && forall step :: Claimed(s0, s', step) == Claimed(s0, s, step)
  {
    hide Runnable;
  }

  /** What the clock says in a round. */
  function Reading(clock: int -> int, round: int): int {
    clock(round)
  }

  /** A queued task whose time some round's reading of the clock had reached. */
  ghost predicate ComesUp(row: Task, clock: int -> int, rounds: nat) {
    row.status.Queued? && (row.nextRetryAt.Some? ==> exists i: nat :: i < rounds && row.nextRetryAt.value <= Reading(clock, i))
  }

  /** Nobody else was touched. */
  ghost predicate OnlyComing(s0: Sys, s: Sys, clock: int -> int, rounds: nat) {
    forall t {:trigger t in s0.tasks} :: t in s0.tasks ==>
      t in s.tasks && (s.tasks[t] == s0.tasks[t] || ComesUp(s0.tasks[t].rec.row, clock, rounds))
  }

  lemma NobodyCame(s: Sys, clock: int -> int)
    ensures OnlyComing(s, s, clock, 0)
  {
  }

  lemma ComingOn(cfg: Config, quota: map<string, nat>, s0: Sys, s: Sys, s': Sys, clock: int -> int, rounds: nat)
    requires OnlyComing(s0, s, clock, rounds) && Touches(cfg, quota, s, s', Reading(clock, rounds))
    ensures OnlyComing(s0, s', clock, rounds + 1)
  {
    hide Reading;
  }

  lemma ComingMeans(s0: Sys, s: Sys, clock: int -> int, rounds: nat)
    requires OnlyComing(s0, s, clock, rounds)
    ensures forall t {:trigger t in s0.tasks} :: t in s0.tasks ==>
              t in s.tasks && (s.tasks[t] == s0.tasks[t] || ComesUp(s0.tasks[t].rec.row, clock, rounds))
  {
  }

  /** Rounds of scheduling and draining, until a round makes no progress (`idle`) or the cap is
      reached. Starting after recovery with every task on course, and with no step failing, deferring
      or spawning and nobody else acting:
      when the claims that may still be made are fewer than the cap, the cap never stops it; so it
      never does unless a submission is turned down. In a stubborn environment with a quota of one
      that is exact. When it is idle no due task of a known workflow and step with a positive quota
      is left queued. */
  method RunUntilIdle(cfg: Config, quota: map<string, nat>, e: Env, s0: Sys, answers: Answers, early: (nat, nat) -> set<TaskId>,
                      runs: (nat, TaskId) -> bool, seen: (nat, TaskId) -> bool, clock: int -> int)
    returns (s: Sys, rounds: nat, cap: nat, idle: bool)
    requires Settled(cfg, e, s0, s0)
    requires SmoothConfig(cfg, e) && SmoothAnswers(e, answers) && SmoothRuns(e, runs)
    ensures 0 < rounds <= cap && CapIs(cfg, s0, cap) && Settled(cfg, e, s0, s)
    ensures if idle then NothingRunnable(cfg, quota, s, Reading(clock, rounds - 1)) else rounds == cap
    ensures Total(cfg, e, s0) < cap ==> idle
    ensures e == Smooth(false) ==> idle && rounds < cap
    ensures e.Stubborn? && Quota(quota, e.step) == 1 ==>
              && (idle <==> Total(cfg, e, s0) < cap)
              && (Total(cfg, e, s0) > cap ==> forall now :: !NothingRunnable(cfg, quota, s, now))
    ensures forall t {:trigger t in s0.tasks} :: t in s0.tasks ==>
              t in s.tasks && (s.tasks[t] == s0.tasks[t] || ComesUp(s0.tasks[t].rec.row, clock, rounds))
  {
    hide *;
    ghost var most := Total(cfg, e, s0);
    SettledOk(cfg, e, s0, s0);
    cap := Cap(cfg, s0);
    SpentNothing(cfg, e, s0);
    s, rounds := s0, 0;
    NobodyCame(s0, clock);
    var submitted: nat := 1;
    while rounds < cap && submitted != 0
      invariant rounds <= cap && Settled(cfg, e, s0, s)
      invariant Total(cfg, e, s) + rounds <= most + if submitted == 0 then 1 else 0
      invariant submitted == 0 ==> rounds > 0 && NothingRunnable(cfg, quota, s, Reading(clock, rounds - 1))
      invariant e.Stubborn? && Quota(quota, e.step) == 1 ==> Total(cfg, e, s) + rounds == most + if submitted == 0 then 1 else 0
      invariant OnlyComing(s0, s, clock, rounds)
      decreases cap - rounds
    {
      ghost var was := s;
      s, submitted := Round(cfg, quota, e, s0, s, answers, early, runs, seen, Reading(clock, rounds), rounds);
      SpentMeans(cfg, e, was, s, submitted);
      ComingOn(cfg, quota, s0, was, s, clock, rounds);
      rounds := rounds + 1;
    }
    idle := submitted == 0;
    ComingMeans(s0, s, clock, rounds);
    if e.Stubborn? && Quota(quota, e.step) == 1 {
      NothingLeft(cfg, quota, e, s0, s);
    }
  }

  /** Between rounds of a stubborn environment, whatever can still be claimed can be claimed now. */
  lemma NothingLeft(cfg: Config, quota: map<string, nat>, e: Env, s0: Sys, s: Sys)
    requires Settled(cfg, e, s0, s) && e.Stubborn? && SmoothConfig(cfg, e) && Quota(quota, e.step) > 0
    ensures forall now {:trigger NothingRunnable(cfg, quota, s, now)} :: NothingRunnable(cfg, quota, s, now) ==> Total(cfg, e, s) == 0
  {
    forall now | NothingRunnable(cfg, quota, s, now) ensures Total(cfg, e, s) == 0 {
      forall t | t in s.tasks ensures ClaimsLeft(cfg, e, s.tasks[t].rec) == 0 { NoClaimLeft(cfg, quota, e, s.tasks[t], now); }
      TotalZero(cfg, e, s.tasks, s.nextTask);
    }
  }

  lemma NoClaimLeft(cfg: Config, quota: map<string, nat>, e: Env, ts: TaskSys, now: int)
    requires OnCourse(cfg, e, ts) && e.Stubborn? && e.step in cfg.registry && Quota(quota, e.step) > 0
    requires !Runnable(cfg, quota, ts.rec.row, now) && !Executing(ts.rec.row.status)
    ensures ClaimsLeft(cfg, e, ts.rec) == 0
  {
    hide Straight;
  }

  lemma {:induction false} TotalZero(cfg: Config, e: Env, tasks: map<TaskId, TaskSys>, n: nat)
    requires forall t {:trigger t in tasks} :: t in tasks ==> ClaimsLeft(cfg, e, tasks[t].rec) == 0
    ensures TotalLeft(cfg, e, tasks, n) == 0
  {
    hide ClaimsLeft;
    if n > 0 { TotalZero(cfg, e, tasks, n - 1); }
  }

  lemma SettledOk(cfg: Config, e: Env, s0: Sys, s: Sys)
    requires Settled(cfg, e, s0, s)
    ensures SysOk(cfg, s)
  {
    hide SysOk;
  }

  lemma SpentMeans(cfg: Config, e: Env, s: Sys, s': Sys, n: nat)
    requires Spent(cfg, e, s, s', n)
    ensures Total(cfg, e, s') + n <= Total(cfg, e, s) && (e.Stubborn? ==> Total(cfg, e, s') + n == Total(cfg, e, s))
  {
  }
}
