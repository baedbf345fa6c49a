/** What a worker's program makes of a step from end to end, while nobody disturbs it: its reads are
    current and no request has been made. (What disturbances do is in the other modules.) */
module Jobs {
  import opened Models
  import opened Records
  import opened StateMachine
  import opened Worker
  import opened Protocol
  import opened Invariant
  import opened InvariantProof
  import opened Endings

  /** The task after the worker's next statement. */
  function Did(cfg: Config, ts: TaskSys, token: Token, inp: Input, drawn: Token, next: TaskId): TaskSys {
    TaskStep(cfg, ts, Work(token, inp), drawn, next).sys
  }

  /** The worker holds its task. */
  predicate Mine(cfg: Config, ts: TaskSys, token: Token, drawn: Token) {
    TaskOk(cfg, ts, drawn) && token in ts.jobs && Current(ts.rec, token)
  }

  /** Running, and nobody has asked for anything. */
  predicate Unasked(row: Task) {
    row.status.Running? && !row.terminateRequested
  }

  /** A statement short of finish_step: what the program says, and the claim stays. */
  lemma Goes(cfg: Config, ts: TaskSys, token: Token, inp: Input, drawn: Token, next: TaskId)
    requires Mine(cfg, ts, token, drawn) && inp.row in ts.past && !ts.jobs[token].Finishing?
    ensures var ts', m := Did(cfg, ts, token, inp, drawn, next), JobStep(cfg, ts.rec, token, ts.jobs[token], inp, next);
            && Mine(cfg, ts', token, drawn + 1) && ts'.rec == m.rec && ts'.jobs[token] == m.pc && ts'.past == ts.past + {m.rec.row}
            && m.rec.items == ts.rec.items && m.rec.row == ts.rec.row.(maxRetries := m.rec.row.maxRetries, progress := m.rec.row.progress)
  {
    hide TaskOk, JobStep;
    TaskStepKeeps(cfg, ts, Work(token, inp), drawn, next);
    ProgramWrites(cfg, ts.rec, token, ts.jobs[token], inp, next);
  }

  /** finish_step on a current read always releases the claim. */
  lemma CurrentReadEnds(cfg: Config, ts: TaskSys, token: Token, inp: Input, drawn: Token, next: TaskId)
    requires Mine(cfg, ts, token, drawn) && inp.row == ts.rec.row && ts.jobs[token].Finishing?
    ensures Ends(cfg, ts, token, inp, drawn, next)
  {
    assert VersionOk(ts.rec.row, inp.row, drawn) && JobOk(cfg, ts, token, ts.jobs[token]);
    hide TaskOk, FinishRound, RecordOk, VersionOk, OutcomeOk;
    var o := ts.jobs[token].outcome;
    HolderHere(cfg, ts.rec, token);
    FinishMatches(cfg, ts.rec, token, inp.row, o, inp.seenDegraded, inp.now, drawn, next);
    FinishKeepsRow(cfg, ts.rec, token, inp.row, o, inp.seenDegraded, inp.now, next);
  }

  lemma HolderHere(cfg: Config, rec: Record, token: Token)
    requires RecordOk(cfg, rec) && Current(rec, token)
    ensures Holder(rec.row, token) && Holds(rec.row, BoundaryRequire(rec.row, token))
  {
  }

  // -- the step's answer ------------------------------------------------------------------------------------

  /** On the next step, or finished. */
  predicate MovedOn(cfg: Config, row: Task, row': Task) {
    var steps := Steps(cfg, row.workflow);
    var i := IndexOf(steps, row.step);
    i < |steps| && row'.retryCount == row.retryCount
    && if i + 1 == |steps| then row'.step == row.step && (row'.status.Completed? || row'.status.PartiallyCompleted?)
       else row'.step == steps[i + 1] && row'.status.Queued?
  }

  /** One retry more; back when the delay is over, or in a person's hands. */
  predicate FailedOnce(cfg: Config, row: Task, row': Task, now: int) {
    && row'.step == row.step && row'.retryCount == row.retryCount + 1 && row'.lastError.Some?
    && if row.retryCount >= row.maxRetries || (row.step in cfg.registry && !cfg.registry[row.step].retry) then row'.status.ManualRequired? && row'.nextRetryAt.None?
       else row'.status.Failed? && row'.nextRetryAt == Some(now + cfg.retryDelay)
  }

  predicate PutOff(row: Task, row': Task, delay: int, now: int) {
    && row'.status.Queued? && row'.step == row.step && row'.retryCount == row.retryCount && row'.lastError == row.lastError
    && row'.nextRetryAt == if delay > 0 then Some(now + delay) else None
  }

  /** The submission was turned down: its item is closed, and there is another attempt or none. */
  predicate TurnedDown(rec: Record, rec': Record, i: ItemId, reason: string, run: RunId) {
    && i < |rec.items| && |rec'.items| == |rec.items| && rec'.row.step == rec.row.step && rec'.row.retryCount == rec.row.retryCount
    && rec'.items[i].error == Some(reason) && rec'.items[i].run == Some(run)
    && if rec.items[i].attempt < rec.items[i].maxAttempts then rec'.items[i].status.Rejected? && rec'.row.status.Queued? && rec'.row.lastError == Some(reason)
       else rec'.items[i].status.Exhausted? && rec'.row.status.ManualRequired?
  }

  /** The submission it validated, if any, is accepted. */
  predicate AcceptedWith(rec: Record, rec': Record, found: Option<Found>, run: RunId) {
    found.Some? ==>
      && found.value.id < |rec.items| && |rec'.items| == |rec.items|
      && rec'.items[found.value.id] == rec.items[found.value.id].(status := Accepted, error := None, run := Some(run))
  }

  /** How the run is closed. */
  predicate ClosedAs(r: StepResult, validated: bool, status: RunStatus) {
    match r
    case Raises(_) => status.RunFailed?
    case NotReady(_, _) => status.RunDeferred?
    case SubmissionRejected(_) => if validated then status.RunRejected? else status.RunFailed?
    case Returned(degraded, _, _) => if degraded then status.RunDegraded? else status.RunOk?
  }

  /** An answer that spawns nothing and writes no columns. */
  predicate Plainly(r: StepResult) {
    r.Returned? ==> r.children == [] && r.updates.None?
  }

  /** From the step's answer to the end of the job: the run is closed as the answer says, the item
      that was validated with it, and the task is where the answer sends it. */
  lemma StepAnswers(cfg: Config, ts: TaskSys, token: Token, i1: Input, i2: Input, i3: Input, drawn: Token, next: TaskId)
    requires Mine(cfg, ts, token, drawn) && ts.jobs[token].InStep? && Unasked(ts.rec.row) && ts.jobs[token].run < |ts.rec.runs|
    requires i1.row in ts.past && i2.row in ts.past && i3.row == ts.rec.row && Plainly(i1.result)
    ensures var run, found := ts.jobs[token].run, ts.jobs[token].found;
            var rec := ts.rec;
            var ts' := Did(cfg, Did(cfg, Did(cfg, ts, token, i1, drawn, next), token, i2, drawn + 1, next), token, i3, drawn + 2, next);
            var rec' := ts'.rec;
            && token in ts'.jobs && ts'.jobs[token].Ended? && rec'.row.lock == UNLOCKED
            && |rec'.runs| == |rec.runs| && rec'.runs == rec.runs[run := rec'.runs[run]]
            && rec'.runs[run].step == rec.runs[run].step && ClosedAs(i1.result, found.Some?, rec'.runs[run].status)
            && match i1.result
               case Raises(error) => FailedOnce(cfg, rec.row, rec'.row, i3.now) && rec'.row.lastError == Some(error)
               case NotReady(_, delay) => PutOff(rec.row, rec'.row, delay, i3.now)
               case SubmissionRejected(reason) =>
                 if found.Some? then TurnedDown(rec, rec', found.value.id, reason, run) else FailedOnce(cfg, rec.row, rec'.row, i3.now)
               case Returned(_, _, _) => MovedOn(cfg, rec.row, rec'.row) && AcceptedWith(rec, rec', found, run)
  {
    hide TaskOk, Current, Did, FailedOnce, PutOff, MovedOn, ClosedAs, Plainly, Unasked, Means;
    var ts1 := Did(cfg, ts, token, i1, drawn, next);
    Answered(cfg, ts, token, i1, drawn, next);
    var ts2 := Did(cfg, ts1, token, i2, drawn + 1, next);
    Closed1(cfg, ts1, token, i2, drawn + 1, next);
    Answered3(cfg, ts2, token, i3, drawn + 2, next, i1.result, ts.jobs[token].found, ts.jobs[token].run);
  }

  /** What the answer makes of the outcome. */
  predicate Means(cfg: Config, r: StepResult, found: Option<Found>, run: RunId, o: Outcome) {
    match r
    case Raises(error) => o.Failure? && o.error == error
    case NotReady(_, delay) => o.Defer? && o.delay == delay
    case SubmissionRejected(reason) => if found.Some? then o.Rejection? && o.reason == reason && o.item == found.value.id && o.run == run else o.Failure?
    case Returned(_, _, _) => o.Success? && o.plan.None? && Accepts(o, found, run)
  }

  predicate Accepts(o: Outcome, found: Option<Found>, run: RunId)
    requires o.Success?
  {
    o.run == run && o.accepted == if found.Some? then Some(found.value.id) else None
  }

  lemma Answered(cfg: Config, ts: TaskSys, token: Token, inp: Input, drawn: Token, next: TaskId)
    requires Mine(cfg, ts, token, drawn) && ts.jobs[token].InStep? && inp.row in ts.past && Plainly(inp.result)
    ensures var ts', run, found := Did(cfg, ts, token, inp, drawn, next), ts.jobs[token].run, ts.jobs[token].found;
            && Mine(cfg, ts', token, drawn + 1) && ts'.rec == ts.rec && ts'.past == ts.past
            && ts'.jobs[token].Closing? && ts'.jobs[token].run == run
            && ClosedAs(inp.result, found.Some?, ts'.jobs[token].status) && Means(cfg, inp.result, found, run, ts'.jobs[token].outcome)
  {
    hide TaskOk, Did, Finish, Check, Admit, Seek, UpdateFields, CountRuns;
    Goes(cfg, ts, token, inp, drawn, next);
    RowThere(cfg, ts, drawn);
  }

  lemma Closed1(cfg: Config, ts: TaskSys, token: Token, inp: Input, drawn: Token, next: TaskId)
    requires Mine(cfg, ts, token, drawn) && ts.jobs[token].Closing? && inp.row in ts.past && ts.jobs[token].run < |ts.rec.runs|
    ensures var ts', run := Did(cfg, ts, token, inp, drawn, next), ts.jobs[token].run;
            && Mine(cfg, ts', token, drawn + 1) && ts'.rec == ts.rec.(runs := ts.rec.runs[run := ts.rec.runs[run].(status := ts.jobs[token].status)])
            && ts'.jobs[token].Finishing? && ts'.jobs[token].outcome == ts.jobs[token].outcome
  {
    hide TaskOk, Did, Finish, Check, Admit, Seek, UpdateFields, CountRuns;
    Goes(cfg, ts, token, inp, drawn, next);
  }

  lemma Answered3(cfg: Config, ts: TaskSys, token: Token, inp: Input, drawn: Token, next: TaskId, r: StepResult, found: Option<Found>, run: RunId)
    requires Mine(cfg, ts, token, drawn) && ts.jobs[token].Finishing? && Unasked(ts.rec.row) && inp.row == ts.rec.row
    requires Means(cfg, r, found, run, ts.jobs[token].outcome)
    ensures var ts' := Did(cfg, ts, token, inp, drawn, next);
            var rec, rec' := ts.rec, ts'.rec;
            && token in ts'.jobs && ts'.jobs[token].Ended? && rec'.row.lock == UNLOCKED && rec'.runs == rec.runs
            && match r
               case Raises(error) => FailedOnce(cfg, rec.row, rec'.row, inp.now) && rec'.row.lastError == Some(error)
               case NotReady(_, delay) => PutOff(rec.row, rec'.row, delay, inp.now)
               case SubmissionRejected(reason) =>
                 if found.Some? then TurnedDown(rec, rec', found.value.id, reason, run) else FailedOnce(cfg, rec.row, rec'.row, inp.now)
               case Returned(_, _, _) => MovedOn(cfg, rec.row, rec'.row) && AcceptedWith(rec, rec', found, run)
  {
    hide TaskOk, TaskStep, Ends, MovedOn, FailedOnce, PutOff, TurnedDown;
    CurrentReadEnds(cfg, ts, token, inp, drawn, next);
    EndsJob(cfg, ts, token, inp, drawn, next);
    TerminateEnds(cfg, ts, token, inp, drawn, next);
    var o := ts.jobs[token].outcome;
    if o.Failure? { AfterFailure(cfg, ts, token, inp, drawn, next); }
    if o.Defer? { AfterDefer(cfg, ts, token, inp, drawn, next); }
    if o.Rejection? { AfterRejection(cfg, ts, token, inp, drawn, next); }
    if o.Success? { AfterSuccess(cfg, ts, token, inp, drawn, next); AcceptedEnds(cfg, ts, token, inp, drawn, next); }
  }

  /** The worker's boundary on an undisturbed task. */
  predicate Quietly(cfg: Config, ts: TaskSys, token: Token, inp: Input, drawn: Token, next: TaskId) {
    TaskOk(cfg, ts, drawn) && Ends(cfg, ts, token, inp, drawn, next) && Unasked(ts.rec.row)
  }

  lemma AfterFailure(cfg: Config, ts: TaskSys, token: Token, inp: Input, drawn: Token, next: TaskId)
    requires Quietly(cfg, ts, token, inp, drawn, next) && OutcomeOf(ts, token).Failure?
    ensures var row' := EndOf(cfg, ts, token, inp, drawn, next).row;
            FailedOnce(cfg, ts.rec.row, row', inp.now) && row'.lastError == Some(OutcomeOf(ts, token).error)
  {
    hide TaskOk, Ends, EndOf;
    FailureEnds(cfg, ts, token, inp, drawn, next);
    RunningHere(cfg, ts, drawn);
  }

  lemma AfterDefer(cfg: Config, ts: TaskSys, token: Token, inp: Input, drawn: Token, next: TaskId)
    requires Quietly(cfg, ts, token, inp, drawn, next) && OutcomeOf(ts, token).Defer?
    ensures PutOff(ts.rec.row, EndOf(cfg, ts, token, inp, drawn, next).row, OutcomeOf(ts, token).delay, inp.now)
  {
    hide TaskOk, Ends, EndOf;
    DeferEnds(cfg, ts, token, inp, drawn, next);
    RunningHere(cfg, ts, drawn);
  }

  lemma AfterRejection(cfg: Config, ts: TaskSys, token: Token, inp: Input, drawn: Token, next: TaskId)
    requires Quietly(cfg, ts, token, inp, drawn, next) && OutcomeOf(ts, token).Rejection?
    ensures var o := OutcomeOf(ts, token); TurnedDown(ts.rec, EndOf(cfg, ts, token, inp, drawn, next), o.item, o.reason, o.run)
  {
    hide TaskOk, Ends, EndOf;
    RejectionEnds(cfg, ts, token, inp, drawn, next);
    RunningHere(cfg, ts, drawn);
  }

  lemma AfterSuccess(cfg: Config, ts: TaskSys, token: Token, inp: Input, drawn: Token, next: TaskId)
    requires Quietly(cfg, ts, token, inp, drawn, next) && OutcomeOf(ts, token).Success?
    ensures MovedOn(cfg, ts.rec.row, EndOf(cfg, ts, token, inp, drawn, next).row)
  {
    hide TaskOk, Ends, EndOf;
    SuccessEnds(cfg, ts, token, inp, drawn, next);
    RunningHere(cfg, ts, drawn);
  }

  lemma RowThere(cfg: Config, ts: TaskSys, drawn: Token)
    requires TaskOk(cfg, ts, drawn)
    ensures ts.rec.row in ts.past
  {
  }

  lemma RunningHere(cfg: Config, ts: TaskSys, drawn: Token)
    requires TaskOk(cfg, ts, drawn)
    ensures ts.rec.row.pauseRequested <==> ts.rec.row.status.PausePending?
  {
  }

  lemma EndsJob(cfg: Config, ts: TaskSys, token: Token, inp: Input, drawn: Token, next: TaskId)
    requires TaskOk(cfg, ts, drawn) && Ends(cfg, ts, token, inp, drawn, next)
    ensures var ts' := Did(cfg, ts, token, inp, drawn, next);
            && token in ts'.jobs && ts'.jobs[token].Ended? && (PlanOf(ts.jobs[token].outcome).None? ==> ts'.rec.runs == ts.rec.runs)
  {
    hide TaskOk, Boundary, BoundaryItem, ChangeItem, Cancelling, Spawns, SpawnAll, Put, JobStep;
    EndDecided(cfg, ts, token, inp, drawn, next);
    JobEnds(cfg, ts.rec, token, ts.jobs[token], inp, next);
  }

  lemma JobEnds(cfg: Config, rec: Record, token: Token, pc: PC, inp: Input, next: TaskId)
    requires pc.Finishing? && Current(rec, token)
    ensures var m := JobStep(cfg, rec, token, pc, inp, next); m.rec.row.lock.token.None? ==> m.pc.Ended?
  {
    hide FinishRound;
  }

  // -- before the step runs -----------------------------------------------------------------------------------

  /** The job starts: what was asked for while it waited is honoured without running anything;
      otherwise the attempt to come is one more than the runs of the step so far. */
  lemma JobBegins(cfg: Config, ts: TaskSys, token: Token, i1: Input, i2: Input, drawn: Token, next: TaskId)
    requires Mine(cfg, ts, token, drawn) && ts.jobs[token].Fresh? && i1.row == ts.rec.row && i2.row == ts.rec.row
    ensures var row := ts.rec.row;
            var ts' := Did(cfg, Did(cfg, ts, token, i1, drawn, next), token, i2, drawn + 1, next);
            && token in ts'.jobs && ts'.rec.runs == ts.rec.runs
            && (if row.terminateRequested || row.pauseRequested then
                  && ts'.jobs[token].Ended? && ts'.rec.row.step == row.step && ts'.rec.row.retryCount == row.retryCount
                  && (if row.terminateRequested then ts'.rec.row.status.Terminated? else ts'.rec.row.status.Paused?)
                else if row.step in cfg.registry then
                  && ts'.jobs[token].Counted? && ts'.rec == ts.rec
                  && ts'.jobs[token].attempt == CountRuns(ts.rec.runs, row.step) + 1
                else ts'.jobs[token].Ended? && ts'.rec == ts.rec)
  {
    hide TaskOk, Did, JobStep, EndOf, Ends, CountRuns;
    var ts1 := Did(cfg, ts, token, i1, drawn, next);
    RowThere(cfg, ts, drawn);
    Starts(cfg, ts, token, i1, drawn, next);
    if ts1.jobs[token].Finishing? {
      CurrentReadEnds(cfg, ts1, token, i2, drawn + 1, next);
      EndsJob(cfg, ts1, token, i2, drawn + 1, next);
      TerminateEnds(cfg, ts1, token, i2, drawn + 1, next);
      if !ts.rec.row.terminateRequested { DeferEnds(cfg, ts1, token, i2, drawn + 1, next); }
      Same(cfg, ts1, token, i2, drawn + 1, next);
    } else {
      Goes(cfg, ts1, token, i2, drawn + 1, next);
      CountsRuns(cfg, ts1.rec, token, ts1.jobs[token], i2, next);
    }
  }

  lemma Same(cfg: Config, ts: TaskSys, token: Token, inp: Input, drawn: Token, next: TaskId)
    ensures Did(cfg, ts, token, inp, drawn, next).rec == EndOf(cfg, ts, token, inp, drawn, next)
  {
    hide TaskStep;
  }

  lemma Starts(cfg: Config, ts: TaskSys, token: Token, inp: Input, drawn: Token, next: TaskId)
    requires Mine(cfg, ts, token, drawn) && ts.jobs[token].Fresh? && inp.row == ts.rec.row && inp.row in ts.past
    ensures var ts', row := Did(cfg, ts, token, inp, drawn, next), ts.rec.row;
            && Mine(cfg, ts', token, drawn + 1) && ts'.rec == ts.rec && ts'.past == ts.past
            && ts'.jobs[token] == if row.terminateRequested || row.pauseRequested then Finishing(row, Defer("not started", 0)) else Holding(row)
  {
    HolderThere(cfg, ts, token, drawn);
    hide TaskOk, Did, Finish, Admit, Seek, UpdateFields, CountRuns, Ending;
    Goes(cfg, ts, token, inp, drawn, next);
  }

  lemma HolderThere(cfg: Config, ts: TaskSys, token: Token, drawn: Token)
    requires TaskOk(cfg, ts, drawn) && Current(ts.rec, token)
    ensures Holder(ts.rec.row, token)
  {
  }

  lemma CountsRuns(cfg: Config, rec: Record, token: Token, pc: PC, inp: Input, next: TaskId)
    requires pc.Holding?
    ensures JobStep(cfg, rec, token, pc, inp, next)
         == Moved(rec, if pc.snap.step in cfg.registry then Counted(pc.snap, CountRuns(rec.runs, pc.snap.step) + 1) else Ended, [], None)
  {
  }

  /** The gate: the step goes on exactly if nobody objects and an approval it needs was granted for
      this attempt. Otherwise it does not run: a person is asked for this very attempt, or it is put
      off as a listener wants, or it needs a person. */
  lemma GateEnds(cfg: Config, ts: TaskSys, token: Token, i1: Input, i2: Input, drawn: Token, next: TaskId)
    requires Mine(cfg, ts, token, drawn) && ts.jobs[token].Counted? && Unasked(ts.rec.row) && i1.row in ts.past && i2.row == ts.rec.row
    requires ts.rec.row.step in cfg.registry
    ensures var row, env, attempt := ts.rec.row, i1.gate, ts.jobs[token].attempt;
            var granted := row.grant == Granted(row.step, attempt);
            var needed := NeedsApproval(env, cfg.registry[row.step].sideEffect);
            var ts1 := Did(cfg, ts, token, i1, drawn, next);
            var ts' := Did(cfg, ts1, token, i2, drawn + 1, next);
            && token in ts1.jobs && ts1.rec == ts.rec
            && (ts1.jobs[token].Admitted? <==> !Objects(env) && (needed ==> granted))
            && (ts1.jobs[token].Admitted? ==> ts1.jobs[token].attempt == attempt)
            && (!ts1.jobs[token].Admitted? ==>
                  && token in ts'.jobs && ts'.jobs[token].Ended? && ts'.rec.runs == ts.rec.runs && ts'.rec.row.step == row.step
                  && if env.Gate? && !env.contractProblem && env.policy.Delays? then PutOff(row, ts'.rec.row, env.policy.delay, i2.now)
                     else if !Objects(env) && env.Gate? && env.approval == Some(true) then
                       ts'.rec.row.status.AwaitingApproval? && ts'.rec.row.grant == Asked(row.step, attempt)
                     else ts'.rec.row.status.ManualRequired? && ts'.rec.row.nextRetryAt.None?)
  {
    hide TaskOk, Did, JobStep, EndOf, Ends, PutOff, NeedsApproval;
    var ts1 := Did(cfg, ts, token, i1, drawn, next);
    RowThere(cfg, ts, drawn);
    Gated(cfg, ts, token, i1, drawn, next);
    if ts1.jobs[token].Finishing? {
      CurrentReadEnds(cfg, ts1, token, i2, drawn + 1, next);
      EndsJob(cfg, ts1, token, i2, drawn + 1, next);
      Same(cfg, ts1, token, i2, drawn + 1, next);
      RunningHere(cfg, ts1, drawn + 1);
      var o := OutcomeOf(ts1, token);
      if o.Defer? {
        AfterDefer(cfg, ts1, token, i2, drawn + 1, next);
        DeferEnds(cfg, ts1, token, i2, drawn + 1, next);
      } else if o.ApprovalNeeded? {
        ApprovalEnds(cfg, ts1, token, i2, drawn + 1, next);
      } else {
        DenialEnds(cfg, ts1, token, i2, drawn + 1, next);
      }
    }
  }

  lemma Gated(cfg: Config, ts: TaskSys, token: Token, inp: Input, drawn: Token, next: TaskId)
    requires Mine(cfg, ts, token, drawn) && ts.jobs[token].Counted? && inp.row in ts.past && ts.rec.row.step in cfg.registry
    ensures var ts', row, env, attempt := Did(cfg, ts, token, inp, drawn, next), ts.rec.row, inp.gate, ts.jobs[token].attempt;
            var granted := row.grant == Granted(row.step, attempt);
            var needed := NeedsApproval(env, cfg.registry[row.step].sideEffect);
            && Mine(cfg, ts', token, drawn + 1) && ts'.rec == ts.rec
            && match ts'.jobs[token]
               case Admitted(_, a) => a == attempt && !Objects(env) && (needed ==> granted)
               case Finishing(_, Defer(_, delay)) => env.Gate? && !env.contractProblem && env.policy.Delays? && delay == env.policy.delay && Objects(env)
               case Finishing(_, ApprovalNeeded(_, a)) => a == attempt && !Objects(env) && needed && !granted && env.Gate? && env.approval == Some(true)
               case Finishing(_, Denial(_)) =>
                 && !(env.Gate? && !env.contractProblem && env.policy.Delays?)
                 && (Objects(env) || (needed && !granted && !(env.Gate? && env.approval == Some(true))))
               case _ => false
  {
    SnapHere(cfg, ts, token, drawn);
    hide TaskOk, Did, Finish, Check, Seek, UpdateFields, CountRuns, Ending, GateAnswer, Objects, NeedsApproval;
    Goes(cfg, ts, token, inp, drawn, next);
  }

  /** The row a worker read when it started speaks of the step and the grant as they are. */
  lemma SnapHere(cfg: Config, ts: TaskSys, token: Token, drawn: Token)
    requires Mine(cfg, ts, token, drawn) && SnapOf(ts.jobs[token]).Some?
    ensures var snap := SnapOf(ts.jobs[token]).value; snap.step == ts.rec.row.step && snap.grant == ts.rec.row.grant
  {
    assert JobOk(cfg, ts, token, ts.jobs[token]);
    assert VersionOk(ts.rec.row, SnapOf(ts.jobs[token]).value, drawn);
  }

  // -- external steps --------------------------------------------------------------------------------------------

  /** An admitted external step that has no item: a new one is opened and the task waits for it. A
      broken request, or a limit that allows no attempt, fails the step. No run is started. */
  lemma ExternalOpens(cfg: Config, ts: TaskSys, token: Token, i1: Input, i2: Input, i3: Input, drawn: Token, next: TaskId)
    requires Mine(cfg, ts, token, drawn) && ts.jobs[token].Admitted? && Unasked(ts.rec.row)
    requires ts.rec.row.step in cfg.registry && cfg.registry[ts.rec.row.step].external && NothingActive(ts.rec)
    requires i1.row in ts.past && i2.row == ts.rec.row && i3.row == ts.rec.row
    ensures var rec, attempts := ts.rec, cfg.registry[ts.rec.row.step].maxAttempts;
            var ts1 := Did(cfg, ts, token, i1, drawn, next);
            var ts2 := Did(cfg, ts1, token, i2, drawn + 1, next);
            var ts' := if attempts < 1 then ts2 else Did(cfg, ts2, token, i3, drawn + 2, next);
            && token in ts'.jobs && ts'.jobs[token].Ended? && ts'.rec.runs == rec.runs
            && (if attempts < 1 || !i2.requestOk then
                  FailedOnce(cfg, rec.row, ts'.rec.row, if attempts < 1 then i2.now else i3.now) && ts'.rec.items == rec.items
                else
                  && ts'.rec.row.status.AwaitingExternal? && ts'.rec.row.step == rec.row.step && ts'.rec.row.retryCount == rec.row.retryCount
                  && |ts'.rec.items| == |rec.items| + 1 && ts'.rec.items[..|rec.items|] == rec.items
                  && FreshItem(cfg, rec.items, ts'.rec.items[|rec.items|], rec.row.step))
  {
    hide TaskOk, Did, JobStep, EndOf, Ends, FailedOnce, NothingActive, FreshItem;
    var ts1 := Did(cfg, ts, token, i1, drawn, next);
    RowThere(cfg, ts, drawn);
    Sought(cfg, ts, token, i1, drawn, next);
    if ts1.jobs[token].Finishing? { FailsOutside(cfg, ts1, token, i2, drawn + 1, next); }
    else {
      var ts2 := Did(cfg, ts1, token, i2, drawn + 1, next);
      Requested(cfg, ts1, token, i2, drawn + 1, next);
      if i2.requestOk {
        CurrentReadEnds(cfg, ts2, token, i3, drawn + 2, next);
        EndsJob(cfg, ts2, token, i3, drawn + 2, next);
        RunningHere(cfg, ts2, drawn + 2);
        ExternalEnds(cfg, ts2, token, i3, drawn + 2, next);
        Same(cfg, ts2, token, i3, drawn + 2, next);
      } else { FailsOutside(cfg, ts2, token, i3, drawn + 2, next); }
    }
  }

  lemma FailsOutside(cfg: Config, ts: TaskSys, token: Token, inp: Input, drawn: Token, next: TaskId)
    requires Mine(cfg, ts, token, drawn) && ts.jobs[token].Finishing? && ts.jobs[token].outcome.Failure? && Unasked(ts.rec.row) && inp.row == ts.rec.row
    ensures var ts' := Did(cfg, ts, token, inp, drawn, next);
            && token in ts'.jobs && ts'.jobs[token].Ended? && ts'.rec.runs == ts.rec.runs && ts'.rec.items == ts.rec.items
            && FailedOnce(cfg, ts.rec.row, ts'.rec.row, inp.now)
  {
    hide TaskOk, Did, JobStep, EndOf, Ends, FailedOnce;
    CurrentReadEnds(cfg, ts, token, inp, drawn, next);
    EndsJob(cfg, ts, token, inp, drawn, next);
    AfterFailure(cfg, ts, token, inp, drawn, next);
    FailureItems(cfg, ts, token, inp, drawn, next);
    Same(cfg, ts, token, inp, drawn, next);
  }

  lemma FailureItems(cfg: Config, ts: TaskSys, token: Token, inp: Input, drawn: Token, next: TaskId)
    requires TaskOk(cfg, ts, drawn) && Ends(cfg, ts, token, inp, drawn, next) && OutcomeOf(ts, token).Failure? && !ts.rec.row.terminateRequested
    ensures EndOf(cfg, ts, token, inp, drawn, next).items == ts.rec.items
  {
    hide EndOf, Ends, TaskOk;
    EndDecided(cfg, ts, token, inp, drawn, next);
  }

  lemma Sought(cfg: Config, ts: TaskSys, token: Token, inp: Input, drawn: Token, next: TaskId)
    requires Mine(cfg, ts, token, drawn) && ts.jobs[token].Admitted? && inp.row in ts.past
    requires External(cfg, ts.rec.row.step) && NothingActive(ts.rec)
    ensures var ts' := Did(cfg, ts, token, inp, drawn, next);
            && Mine(cfg, ts', token, drawn + 1) && ts'.rec == ts.rec && ts'.past == ts.past + {ts.rec.row}
            && (if MaxAttempts(cfg, ts.rec.row.step) < 1 then ts'.jobs[token].Finishing? && ts'.jobs[token].outcome.Failure?
                else ts'.jobs[token].Opening?)
  {
    SnapHere(cfg, ts, token, drawn);
    NoneActive(cfg, ts, drawn);
    hide TaskOk, Did, Finish, Check, Admit, UpdateFields, CountRuns, Ending, NothingActive, MaxAttempts;
    Goes(cfg, ts, token, inp, drawn, next);
  }

  lemma NoneActive(cfg: Config, ts: TaskSys, drawn: Token)
    requires TaskOk(cfg, ts, drawn) && NothingActive(ts.rec)
    ensures ActiveItem(ts.rec.items).None?
  {
  }

  lemma Requested(cfg: Config, ts: TaskSys, token: Token, inp: Input, drawn: Token, next: TaskId)
    requires Mine(cfg, ts, token, drawn) && ts.jobs[token].Opening? && inp.row in ts.past
    ensures var ts' := Did(cfg, ts, token, inp, drawn, next);
            && Mine(cfg, ts', token, drawn + 1) && ts'.rec == ts.rec && ts'.past == ts.past + {ts.rec.row}
            && ts'.jobs[token].Finishing? && (if inp.requestOk then ts'.jobs[token].outcome.ExternalNeeded? else ts'.jobs[token].outcome.Failure?)
  {
    hide TaskOk, Did, Finish, Check, Admit, UpdateFields, CountRuns, Ending, Seek;
    Goes(cfg, ts, token, inp, drawn, next);
  }

  // -- starting the run --------------------------------------------------------------------------------------------

  /** A step that may run, external or not: leftover progress is cleared, one run of the step is
      opened, the newest, and the step is called with the submission if there is one to judge. */
  lemma RunStarts(cfg: Config, ts: TaskSys, token: Token, i1: Input, i2: Input, i3: Input, drawn: Token, next: TaskId)
    requires Mine(cfg, ts, token, drawn) && ts.jobs[token].Admitted? && i1.row in ts.past && i2.row in ts.past && i3.row in ts.past
    requires ts.rec.row.step in cfg.registry && (cfg.registry[ts.rec.row.step].external ==> !NothingActive(ts.rec))
    ensures var rec := ts.rec;
            var ts' := Did(cfg, Did(cfg, Did(cfg, ts, token, i1, drawn, next), token, i2, drawn + 1, next), token, i3, drawn + 2, next);
            && Mine(cfg, ts', token, drawn + 3) && ts'.jobs[token].InStep? && ts'.jobs[token].run == |rec.runs|
            && ts'.rec == rec.(runs := rec.runs + [Run(rec.row.step, RunOpen)], row := rec.row.(progress := None))
            && (ts'.jobs[token].found.Some? <==> cfg.registry[rec.row.step].external)
            && (ts'.jobs[token].found.Some? ==> Judging(rec, ts'.jobs[token].found.value.id))
  {
    hide TaskOk, Did, JobStep, NothingActive, Judging, StartRun;
    var ts1 := Did(cfg, ts, token, i1, drawn, next);
    Readied(cfg, ts, token, i1, drawn, next);
    var ts2 := Did(cfg, ts1, token, i2, drawn + 1, next);
    Cleared2(cfg, ts1, token, i2, drawn + 1, next);
    Opened(cfg, ts2, token, i3, drawn + 2, next);
  }

  lemma Readied(cfg: Config, ts: TaskSys, token: Token, inp: Input, drawn: Token, next: TaskId)
    requires Mine(cfg, ts, token, drawn) && ts.jobs[token].Admitted? && inp.row in ts.past
    requires External(cfg, ts.rec.row.step) ==> !NothingActive(ts.rec)
    ensures var ts' := Did(cfg, ts, token, inp, drawn, next);
            && Mine(cfg, ts', token, drawn + 1) && ts'.rec == ts.rec && ts.past <= ts'.past && ts'.jobs[token].Ready?
            && (ts'.jobs[token].found.Some? <==> External(cfg, ts.rec.row.step))
            && (ts'.jobs[token].found.Some? ==> Judging(ts.rec, ts'.jobs[token].found.value.id))
  {
    SnapHere(cfg, ts, token, drawn);
    HolderThere(cfg, ts, token, drawn);
    ActiveJudged(cfg, ts, drawn);
    hide TaskOk, Did, Finish, Check, Admit, UpdateFields, CountRuns, Ending;
    Goes(cfg, ts, token, inp, drawn, next);
  }

  lemma ActiveJudged(cfg: Config, ts: TaskSys, drawn: Token)
    requires TaskOk(cfg, ts, drawn) && Executing(ts.rec.row.status)
    ensures ActiveItem(ts.rec.items).Some? ==> Judging(ts.rec, ActiveItem(ts.rec.items).value) && ts.rec.items[ActiveItem(ts.rec.items).value].step == ts.rec.row.step
    ensures ActiveItem(ts.rec.items).None? ==> NothingActive(ts.rec)
  {
  }

  lemma Cleared2(cfg: Config, ts: TaskSys, token: Token, inp: Input, drawn: Token, next: TaskId)
    requires Mine(cfg, ts, token, drawn) && ts.jobs[token].Ready? && inp.row in ts.past
    ensures var ts' := Did(cfg, ts, token, inp, drawn, next);
            && Mine(cfg, ts', token, drawn + 1) && ts'.rec == ts.rec.(row := ts.rec.row.(progress := None)) && ts.past <= ts'.past
            && ts'.jobs[token].Cleared? && ts'.jobs[token].found == ts.jobs[token].found
  {
    hide TaskOk, Did, Finish, Check, Admit, CountRuns, Ending, Seek;
    Goes(cfg, ts, token, inp, drawn, next);
  }

  lemma Opened(cfg: Config, ts: TaskSys, token: Token, inp: Input, drawn: Token, next: TaskId)
    requires Mine(cfg, ts, token, drawn) && ts.jobs[token].Cleared? && inp.row in ts.past
    ensures var ts' := Did(cfg, ts, token, inp, drawn, next);
            && Mine(cfg, ts', token, drawn + 1) && ts'.rec == ts.rec.(runs := ts.rec.runs + [Run(ts.rec.row.step, RunOpen)])
            && ts'.jobs[token].InStep? && ts'.jobs[token].run == |ts.rec.runs| && ts'.jobs[token].found == ts.jobs[token].found
  {
    SnapHere(cfg, ts, token, drawn);
    hide TaskOk, Did, Finish, Check, Admit, CountRuns, Ending, Seek, UpdateFields;
    Goes(cfg, ts, token, inp, drawn, next);
  }

  // -- updates and children -------------------------------------------------------------------------------------------

  /** A step that returns updates and no children: they are written before its run is closed. One
      that returns children leaves both to its boundary, with a plan of exactly those children. A
      request for children that does not hold up fails the step. */
  lemma StepReturns(cfg: Config, ts: TaskSys, token: Token, i1: Input, i2: Input, drawn: Token, next: TaskId)
    requires Mine(cfg, ts, token, drawn) && ts.jobs[token].InStep? && i1.row in ts.past && i2.row in ts.past && i1.result.Returned? && !Plainly(i1.result)
    ensures var r, rec, pc := i1.result, ts.rec, ts.jobs[token];
            var ts1 := Did(cfg, ts, token, i1, drawn, next);
            var ts2 := Did(cfg, ts1, token, i2, drawn + 1, next);
            && token in ts1.jobs && token in ts2.jobs && ts1.rec == rec
            && (if !Planned(cfg, r.children) then
                  ts1.jobs[token].Closing? && ts1.jobs[token].status.RunFailed? && ts1.jobs[token].run == pc.run && ts1.jobs[token].outcome.Failure?
                else if r.children == [] then
                  && ts2.rec == rec.(row := PutUpdates(rec.row, r.updates.value))
                  && ts2.jobs[token].Closing? && ts2.jobs[token].run == pc.run && ClosedAs(r, pc.found.Some?, ts2.jobs[token].status)
                  && ts2.jobs[token].outcome.Success? && ts2.jobs[token].outcome.plan.None? && Accepts(ts2.jobs[token].outcome, pc.found, pc.run)
                else
                  && ts1.jobs[token].Finishing? && PlanOf(ts1.jobs[token].outcome).Some? && Accepts(ts1.jobs[token].outcome, pc.found, pc.run)
                  && var plan := PlanOf(ts1.jobs[token].outcome).value;
                     && plan.children == r.children && plan.step == rec.row.step && plan.run == pc.run && ClosedAs(r, pc.found.Some?, plan.runStatus)
                     && plan.updates == if r.updates.Some? then r.updates.value else Updates(Keep, Keep))
  {
    hide TaskOk, Did, JobStep, Planned, PutUpdates;
    var ts1 := Did(cfg, ts, token, i1, drawn, next);
    Returned1(cfg, ts, token, i1, drawn, next);
    Updated(cfg, ts1, token, i2, drawn + 1, next);
  }

  lemma Returned1(cfg: Config, ts: TaskSys, token: Token, inp: Input, drawn: Token, next: TaskId)
    requires Mine(cfg, ts, token, drawn) && ts.jobs[token].InStep? && inp.row in ts.past && inp.result.Returned? && !Plainly(inp.result)
    ensures var r, rec, pc, ts1 := inp.result, ts.rec, ts.jobs[token], Did(cfg, ts, token, inp, drawn, next);
            && Mine(cfg, ts1, token, drawn + 1) && ts1.rec == rec && ts.past <= ts1.past
            && (if !Planned(cfg, r.children) then
                  ts1.jobs[token].Closing? && ts1.jobs[token].status.RunFailed? && ts1.jobs[token].run == pc.run && ts1.jobs[token].outcome.Failure?
                else if r.children == [] then
                  && ts1.jobs[token].Updating? && ts1.jobs[token].run == pc.run && ts1.jobs[token].updates == r.updates.value
                  && ClosedAs(r, pc.found.Some?, ts1.jobs[token].status) && ts1.jobs[token].outcome.Success?
                   && ts1.jobs[token].outcome.plan.None? && Accepts(ts1.jobs[token].outcome, pc.found, pc.run)
                else
                  && ts1.jobs[token].Finishing? && PlanOf(ts1.jobs[token].outcome).Some? && Accepts(ts1.jobs[token].outcome, pc.found, pc.run)
                  && var plan := PlanOf(ts1.jobs[token].outcome).value;
                     && plan.children == r.children && plan.step == rec.row.step && plan.run == pc.run && ClosedAs(r, pc.found.Some?, plan.runStatus)
                     && plan.updates == if r.updates.Some? then r.updates.value else Updates(Keep, Keep))
  {
    SnapHere(cfg, ts, token, drawn);
    hide TaskOk, Did, Finish, Check, Admit, CountRuns, Seek, UpdateFields, Planned;
    Goes(cfg, ts, token, inp, drawn, next);
  }

  lemma Updated(cfg: Config, ts: TaskSys, token: Token, inp: Input, drawn: Token, next: TaskId)
    requires Mine(cfg, ts, token, drawn) && inp.row in ts.past
    ensures var ts', pc := Did(cfg, ts, token, inp, drawn, next), ts.jobs[token];
            && token in ts'.jobs
            && (pc.Updating? ==> ts'.rec == ts.rec.(row := PutUpdates(ts.rec.row, pc.updates)) && ts'.jobs[token] == Closing(pc.snap, pc.outcome, pc.run, pc.status))
  {
    hide TaskOk, Finish, Check, Admit, CountRuns, Seek, Ending, FinishRound;
    if ts.jobs[token].Updating? { Goes(cfg, ts, token, inp, drawn, next); }
  }
}
