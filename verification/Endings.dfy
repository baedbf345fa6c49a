/** Where a worker's boundary leaves its task, outcome by outcome: whatever the other workers,
    settlers and users did meanwhile, and however old the row it read. */
module Endings {
  import opened Models
  import opened Records
  import opened StateMachine
  import opened Worker
  import opened Protocol
  import opened Invariant
  import opened InvariantProof
  import opened Spawning

  /** The holder of the claim, inside finish_step, releases it with this statement. */
  predicate Ends(cfg: Config, ts: TaskSys, token: Token, inp: Input, drawn: Token, next: TaskId) {
    && token in ts.jobs && ts.jobs[token].Finishing? && inp.row in ts.past && Current(ts.rec, token)
    && EndOf(cfg, ts, token, inp, drawn, next).row.lock.token.None?
  }

  /** The record after the statement. */
  function EndOf(cfg: Config, ts: TaskSys, token: Token, inp: Input, drawn: Token, next: TaskId): Record {
    TaskStep(cfg, ts, Work(token, inp), drawn, next).sys.rec
  }

  function OutcomeOf(ts: TaskSys, token: Token): Outcome
    requires token in ts.jobs && ts.jobs[token].Finishing?
  {
    ts.jobs[token].outcome
  }

  // -- the decision behind it ---------------------------------------------------------------------------

  /** The decision was made from the row as it still is, and written with its hooks. */
  predicate Decided(cfg: Config, rec: Record, o: Outcome, inp: Input, rec': Record, next: TaskId) {
    var row := rec.row;
    var d := Boundary(Steps(cfg, row.workflow), row, o, row.terminateRequested, row.pauseRequested, inp.seenDegraded, inp.now);
    && d.Some? && row.step in Steps(cfg, row.workflow) && Executing(row.status) && (row.pauseRequested <==> row.status.PausePending?)
    && rec'.row == (if PlanOf(o).Some? then PutUpdates(Put(row, d.value.patch), PlanOf(o).value.updates) else Put(row, d.value.patch))
    && ChangeItem(rec.items, row.step, BoundaryItem(o, d.value.patch)).Some?
    && rec'.items == Cancelling(ChangeItem(rec.items, row.step, BoundaryItem(o, d.value.patch)).value, Left(d.value.patch))
    && rec'.runs == (if PlanOf(o).Some? then CloseOpenRun(rec.runs, PlanOf(o).value.run, PlanOf(o).value.runStatus) else rec.runs)
    && (if Spawns(o, d.value.patch) then
          var s := SpawnAll(rec.spawns, PlanOf(o).value, |PlanOf(o).value.children|, next);
          rec'.spawns == s.spawns && rec'.events == rec.events + d.value.events + [Event(ChildrenSpawned(Ids(|s.born|, next), s.existing), PlanOf(o).value.step)]
        else rec'.spawns == rec.spawns && rec'.events == rec.events + d.value.events)
  }

  lemma DecidedRound(cfg: Config, rec: Record, token: Token, read: Task, o: Outcome, inp: Input, bound: Token, next: TaskId)
    requires RowOk(cfg, rec.row) && VersionOk(rec.row, read, bound) && Current(rec, token)
    ensures var r := FinishRound(Steps(cfg, rec.row.workflow), rec, token, read, o, inp.seenDegraded, inp.now, next);
            r.Tried? && r.tx.Committed? ==> Decided(cfg, rec, o, inp, r.tx.rec, next)
  {
    hide Boundary, Move, BoundaryItem, Decided, Holds;
    var steps := Steps(cfg, rec.row.workflow);
    var r := FinishRound(steps, rec, token, read, o, inp.seenDegraded, inp.now, next);
    if r.Tried? && r.tx.Committed? {
      var d := Boundary(steps, read, o, read.terminateRequested, read.pauseRequested, inp.seenDegraded, inp.now).value;
      Matched(rec, read, token, d, o, next);
      SameDecision(steps, rec.row, read, o, inp.seenDegraded, inp.now);
      MovedAs(cfg, rec, read, token, d, o, inp, next);
    }
  }

  /** What a committed write required. */
  lemma Matched(rec: Record, read: Task, token: Token, d: Decision, o: Outcome, next: TaskId)
    requires Move(rec, read.status, BoundaryRequire(read, token), d, read.step, BoundaryItem(o, d.patch), PlanOf(o), Spawns(o, d.patch), next).Committed?
    ensures rec.row.status == read.status && rec.row.lock.token == Some(token)
    ensures rec.row.pauseRequested == read.pauseRequested && rec.row.terminateRequested == read.terminateRequested
    ensures rec.row.retryCount == read.retryCount && rec.row.maxRetries == read.maxRetries
  {
    hide RunHooks, BoundaryItem, Spawns;
  }

  lemma MovedAs(cfg: Config, rec: Record, read: Task, token: Token, d: Decision, o: Outcome, inp: Input, next: TaskId)
    requires RowOk(cfg, rec.row) && Executing(rec.row.status) && read.step == rec.row.step
    requires Some(d) == Boundary(Steps(cfg, rec.row.workflow), rec.row, o, rec.row.terminateRequested, rec.row.pauseRequested, inp.seenDegraded, inp.now)
    requires Move(rec, read.status, BoundaryRequire(read, token), d, read.step, BoundaryItem(o, d.patch), PlanOf(o), Spawns(o, d.patch), next).Committed?
    ensures Decided(cfg, rec, o, inp, Move(rec, read.status, BoundaryRequire(read, token), d, read.step, BoundaryItem(o, d.patch), PlanOf(o),
                                            Spawns(o, d.patch), next).rec, next)
  {
    hide Boundary, BoundaryItem, Cancelling, ChangeItem, SpawnAll, Holds, Put, Left;
  }

  /** The decision depends on nothing of the row that the write does not require. */
  lemma SameDecision(steps: seq<string>, row: Task, read: Task, o: Outcome, seen: bool, now: int)
    requires read.step == row.step && read.retryCount == row.retryCount && read.maxRetries == row.maxRetries
    ensures forall terminate: bool, pause: bool :: Boundary(steps, read, o, terminate, pause, seen, now) == Boundary(steps, row, o, terminate, pause, seen, now)
  {
  }

  lemma EndDecided(cfg: Config, ts: TaskSys, token: Token, inp: Input, drawn: Token, next: TaskId)
    requires TaskOk(cfg, ts, drawn) && Ends(cfg, ts, token, inp, drawn, next)
    ensures Decided(cfg, ts.rec, OutcomeOf(ts, token), inp, EndOf(cfg, ts, token, inp, drawn, next), next)
    ensures OutcomeOk(cfg, ts.rec, OutcomeOf(ts, token)) && RowOk(cfg, ts.rec.row)
  {
    hide Decided, FinishRound, ReleasedOk, OutcomeOk;
    assert JobOk(cfg, ts, token, ts.jobs[token]);
    assert VersionOk(ts.rec.row, inp.row, drawn);
    DecidedRound(cfg, ts.rec, token, inp.row, OutcomeOf(ts, token), inp, drawn, next);
  }

  // -- outcome by outcome ----------------------------------------------------------------------------------

  /** A terminate request wins over every outcome, and nothing else terminates. */
  lemma TerminateEnds(cfg: Config, ts: TaskSys, token: Token, inp: Input, drawn: Token, next: TaskId)
    requires TaskOk(cfg, ts, drawn) && Ends(cfg, ts, token, inp, drawn, next)
    ensures var row, row' := ts.rec.row, EndOf(cfg, ts, token, inp, drawn, next).row;
            && (row'.status.Terminated? <==> row.terminateRequested)
            && !row'.terminateRequested && !row'.pauseRequested && row'.lock == UNLOCKED
            && (row.terminateRequested ==>
                  && row'.step == row.step && row'.retryCount == row.retryCount && row'.nextRetryAt.None?
                  && row'.lastError == if OutcomeOf(ts, token).Failure? then Some(OutcomeOf(ts, token).error) else row.lastError)
  {
    hide EndOf, Ends, TaskOk, OutcomeOk, ChangeItem, Cancelling, BoundaryItem;
    EndDecided(cfg, ts, token, inp, drawn, next);
  }

  /** A step that succeeded is behind its task: at the end of its workflow the task is finished, and
      else it is on the next step, paused exactly if a pause was requested, so that no resume runs the
      step again. No retry is counted. */
  lemma SuccessEnds(cfg: Config, ts: TaskSys, token: Token, inp: Input, drawn: Token, next: TaskId)
    requires TaskOk(cfg, ts, drawn) && Ends(cfg, ts, token, inp, drawn, next)
    requires OutcomeOf(ts, token).Success? && !ts.rec.row.terminateRequested
    ensures var row, row' := ts.rec.row, EndOf(cfg, ts, token, inp, drawn, next).row;
            var steps := Steps(cfg, row.workflow);
            var i := IndexOf(steps, row.step);
            && i < |steps| && steps[i] == row.step
            && (if i + 1 == |steps| then row'.step == row.step && (row'.status.Completed? || row'.status.PartiallyCompleted?)
                else && row'.step == steps[i + 1]
                     && (row'.status.Paused? <==> row.pauseRequested) && (row'.status.Queued? <==> !row.pauseRequested))
            && row'.retryCount == row.retryCount && row'.nextRetryAt == row.nextRetryAt
  {
    hide EndOf, Ends, TaskOk, OutcomeOk, ChangeItem, Cancelling, BoundaryItem;
    EndDecided(cfg, ts, token, inp, drawn, next);
  }

  /** A failure costs one retry. Beyond the budget, or of a step that opted out, it waits for a
      person; else it is retried on the same step when its delay is over, or after a resume. */
  lemma FailureEnds(cfg: Config, ts: TaskSys, token: Token, inp: Input, drawn: Token, next: TaskId)
    requires TaskOk(cfg, ts, drawn) && Ends(cfg, ts, token, inp, drawn, next)
    requires OutcomeOf(ts, token).Failure? && !ts.rec.row.terminateRequested
    ensures var row, row' := ts.rec.row, EndOf(cfg, ts, token, inp, drawn, next).row;
            && row'.step == row.step && row'.retryCount == row.retryCount + 1 && row'.lastError == Some(OutcomeOf(ts, token).error)
            && (row'.status.ManualRequired? <==> row.retryCount >= row.maxRetries || (row.step in cfg.registry && !cfg.registry[row.step].retry))
            && (!row'.status.ManualRequired? ==>
                  && (row'.status.Paused? <==> row.pauseRequested) && (row'.status.Failed? <==> !row.pauseRequested))
            && (if row'.status.Failed? then row'.nextRetryAt == Some(inp.now + cfg.retryDelay) else row'.nextRetryAt.None?)
  {
    hide EndOf, Ends, TaskOk, ChangeItem, Cancelling, BoundaryItem;
    EndDecided(cfg, ts, token, inp, drawn, next);
  }

  /** A step that is not ready is run again when its delay is over, or after a resume; no retry is
      counted. */
  lemma DeferEnds(cfg: Config, ts: TaskSys, token: Token, inp: Input, drawn: Token, next: TaskId)
    requires TaskOk(cfg, ts, drawn) && Ends(cfg, ts, token, inp, drawn, next)
    requires OutcomeOf(ts, token).Defer? && !ts.rec.row.terminateRequested
    ensures var row, row' := ts.rec.row, EndOf(cfg, ts, token, inp, drawn, next).row;
            var delay := OutcomeOf(ts, token).delay;
            && row'.step == row.step && row'.retryCount == row.retryCount && row'.lastError == row.lastError
            && (row'.status.Paused? <==> row.pauseRequested) && (row'.status.Queued? <==> !row.pauseRequested)
            && (!row.pauseRequested ==> row'.nextRetryAt == if delay > 0 then Some(inp.now + delay) else None)
  {
    hide EndOf, Ends, TaskOk, OutcomeOk, ChangeItem, Cancelling, BoundaryItem;
    EndDecided(cfg, ts, token, inp, drawn, next);
  }

  /** A step the gate refused needs a person, also if a pause was requested. */
  lemma DenialEnds(cfg: Config, ts: TaskSys, token: Token, inp: Input, drawn: Token, next: TaskId)
    requires TaskOk(cfg, ts, drawn) && Ends(cfg, ts, token, inp, drawn, next)
    requires OutcomeOf(ts, token).Denial? && !ts.rec.row.terminateRequested
    ensures var row, row' := ts.rec.row, EndOf(cfg, ts, token, inp, drawn, next).row;
            && row'.status.ManualRequired? && row'.step == row.step && row'.retryCount == row.retryCount
            && row'.nextRetryAt.None? && row'.lastError.Some?
  {
    hide EndOf, Ends, TaskOk, OutcomeOk, ChangeItem, Cancelling, BoundaryItem;
    EndDecided(cfg, ts, token, inp, drawn, next);
  }

  /** Approval is asked for the attempt that was to run, unless a pause comes first; then nothing has
      been asked. */
  lemma ApprovalEnds(cfg: Config, ts: TaskSys, token: Token, inp: Input, drawn: Token, next: TaskId)
    requires TaskOk(cfg, ts, drawn) && Ends(cfg, ts, token, inp, drawn, next)
    requires OutcomeOf(ts, token).ApprovalNeeded? && !ts.rec.row.terminateRequested
    ensures var row, row' := ts.rec.row, EndOf(cfg, ts, token, inp, drawn, next).row;
            && row'.step == row.step && row'.retryCount == row.retryCount
            && (row'.status.Paused? <==> row.pauseRequested) && (row'.status.AwaitingApproval? <==> !row.pauseRequested)
            && row'.grant == (if row.pauseRequested then row.grant else Asked(row.step, OutcomeOf(ts, token).attempt))
  {
    hide EndOf, Ends, TaskOk, OutcomeOk, ChangeItem, Cancelling, BoundaryItem;
    EndDecided(cfg, ts, token, inp, drawn, next);
  }

  /** The task waits on exactly one new open item for its step, numbered and with the error its
      rejected predecessor left; unless a pause comes first, and then there is no new item. */
  lemma ExternalEnds(cfg: Config, ts: TaskSys, token: Token, inp: Input, drawn: Token, next: TaskId)
    requires TaskOk(cfg, ts, drawn) && Ends(cfg, ts, token, inp, drawn, next)
    requires OutcomeOf(ts, token).ExternalNeeded? && !ts.rec.row.terminateRequested
    ensures var rec, rec' := ts.rec, EndOf(cfg, ts, token, inp, drawn, next);
            && rec'.row.step == rec.row.step && rec'.row.retryCount == rec.row.retryCount
            && (rec'.row.status.Paused? <==> rec.row.pauseRequested) && (rec'.row.status.AwaitingExternal? <==> !rec.row.pauseRequested)
            && (if rec.row.pauseRequested then rec'.items == rec.items
                else |rec'.items| == |rec.items| + 1 && rec'.items[..|rec.items|] == rec.items
                     && FreshItem(cfg, rec.items, rec'.items[|rec.items|], rec.row.step))
  {
    hide EndOf, Ends, TaskOk;
    EndDecided(cfg, ts, token, inp, drawn, next);
  }

  /** Open, unclaimed, the first attempt or the one after a rejection, whose error it carries. */
  predicate FreshItem(cfg: Config, items: seq<Item>, it: Item, step: string) {
    var last := LatestFor(items, step);
    && it.status.Open? && it.claim.None? && it.error.None? && it.run.None? && it.step == step
    && step in cfg.registry && it.maxAttempts == cfg.registry[step].maxAttempts
    && (if last.Some? && items[last.value].status.Rejected?
        then it.attempt == items[last.value].attempt + 1 && it.previousError == items[last.value].error
        else it.attempt == 1 && it.previousError.None?)
  }

  /** A rejected submission is closed with the validator's words and the run that judged it. With an
      attempt left the step is run again (and opens the next item); without, a person is needed. */
  lemma RejectionEnds(cfg: Config, ts: TaskSys, token: Token, inp: Input, drawn: Token, next: TaskId)
    requires TaskOk(cfg, ts, drawn) && Ends(cfg, ts, token, inp, drawn, next)
    requires OutcomeOf(ts, token).Rejection? && !ts.rec.row.terminateRequested
    ensures var rec, rec', o := ts.rec, EndOf(cfg, ts, token, inp, drawn, next), OutcomeOf(ts, token);
            && o.item < |rec.items| && rec.items[o.item].status.Submitted?
            && rec'.items == rec.items[o.item := rec.items[o.item].(
                 status := if rec.items[o.item].attempt < rec.items[o.item].maxAttempts then Rejected else Exhausted,
                 error := Some(o.reason), run := Some(o.run))]
            && rec'.row.step == rec.row.step && rec'.row.retryCount == rec.row.retryCount && rec'.row.lastError.Some?
            && (rec'.row.status.ManualRequired? <==> rec'.items[o.item].status.Exhausted?)
            && (rec'.items[o.item].status.Rejected? ==>
                  && rec'.row.lastError == Some(o.reason) && rec'.row.nextRetryAt == rec.row.nextRetryAt
                  && (rec'.row.status.Paused? <==> rec.row.pauseRequested) && (rec'.row.status.Queued? <==> !rec.row.pauseRequested))
  {
    hide EndOf, Ends, TaskOk;
    EndDecided(cfg, ts, token, inp, drawn, next);
  }

  /** A submission whose step succeeded is accepted, with the run that judged it, in the same
      transition; without one no item changes. */
  lemma AcceptedEnds(cfg: Config, ts: TaskSys, token: Token, inp: Input, drawn: Token, next: TaskId)
    requires TaskOk(cfg, ts, drawn) && Ends(cfg, ts, token, inp, drawn, next) && OutcomeOf(ts, token).Success?
    ensures var rec, rec', o := ts.rec, EndOf(cfg, ts, token, inp, drawn, next), OutcomeOf(ts, token);
            if o.accepted.Some? then
              && o.accepted.value < |rec.items| && rec.items[o.accepted.value].status.Submitted?
              && |rec'.items| == |rec.items|
              && rec'.items[o.accepted.value] == rec.items[o.accepted.value].(status := Accepted, error := None, run := Some(o.run))
            else forall i :: 0 <= i < |rec.items| && i < |rec'.items| ==> rec'.items[i] == rec.items[i] || rec'.items[i].status.Cancelled?
  {
    hide EndOf, Ends, TaskOk;
    EndDecided(cfg, ts, token, inp, drawn, next);
  }

  /** What a boundary leaves alone. */
  lemma EndKeeps(cfg: Config, ts: TaskSys, token: Token, inp: Input, drawn: Token, next: TaskId)
    requires TaskOk(cfg, ts, drawn) && Ends(cfg, ts, token, inp, drawn, next)
    ensures var row, row', o := ts.rec.row, EndOf(cfg, ts, token, inp, drawn, next).row, OutcomeOf(ts, token);
            && row'.workflow == row.workflow && row'.parent == row.parent
            && (PlanOf(o).None? ==> row'.maxRetries == row.maxRetries && row'.progress == row.progress)
            && (!o.ApprovalNeeded? ==> row'.grant == row.grant)
            && (!o.Failure? ==> row'.retryCount == row.retryCount)
            && (!o.Failure? && !o.Denial? && !o.Rejection? ==> row'.lastError == row.lastError)
  {
    hide EndOf, Ends, TaskOk, OutcomeOk, ChangeItem, Cancelling, BoundaryItem;
    EndDecided(cfg, ts, token, inp, drawn, next);
  }

  /** A spawning step's updates and the end of its run are written with its transition, whatever that
      is; its plan is carried out in full unless the task is terminated, and then not at all. */
  lemma SpawnEnds(cfg: Config, ts: TaskSys, token: Token, inp: Input, drawn: Token, next: TaskId)
    requires TaskOk(cfg, ts, drawn) && Ends(cfg, ts, token, inp, drawn, next)
    requires PlanOf(OutcomeOf(ts, token)).Some? && PlanOf(OutcomeOf(ts, token)).value.children != []
    ensures var e, plan := TaskStep(cfg, ts, Work(token, inp), drawn, next), PlanOf(OutcomeOf(ts, token)).value;
            && PlanWritten(ts.rec, e.sys.rec, plan)
            && (if ts.rec.row.terminateRequested then e.sys.plans == ts.plans && e.sys.rec.spawns == ts.rec.spawns && e.born == []
                else e.sys.plans == ts.plans + [plan] && e.born == SpawnAll(ts.rec.spawns, plan, |plan.children|, next).born)
  {
    EndPlanned(cfg, ts, token, inp, drawn, next);
    EndDecided(cfg, ts, token, inp, drawn, next);
    hide TaskOk, OutcomeOk, RowOk, TaskStep, Ends, SpawnAll;
    PlanDecided(cfg, ts.rec, OutcomeOf(ts, token), inp, EndOf(cfg, ts, token, inp, drawn, next), next);
  }

  predicate PlanWritten(rec: Record, rec': Record, plan: SpawnPlan) {
    && rec'.row.maxRetries == Written(plan.updates.maxRetries, rec.row.maxRetries)
    && rec'.row.progress == Written(plan.updates.progress, rec.row.progress)
    && |rec'.runs| == |rec.runs|
    && (forall i :: 0 <= i < |rec.runs| ==>
          rec'.runs[i] == if i == plan.run && rec.runs[i].status.RunOpen? then rec.runs[i].(status := plan.runStatus) else rec.runs[i])
  }

  predicate ToldLast(rec: Record, rec': Record) {
    |rec'.events| > |rec.events| && rec'.events[|rec'.events| - 1].kind.ChildrenSpawned?
  }

  lemma PlanDecided(cfg: Config, rec: Record, o: Outcome, inp: Input, rec': Record, next: TaskId)
    requires Decided(cfg, rec, o, inp, rec', next) && PlanOf(o).Some? && PlanOf(o).value.children != []
    ensures PlanWritten(rec, rec', PlanOf(o).value)
    ensures ToldLast(rec, rec') <==> !rec.row.terminateRequested
    ensures rec.row.terminateRequested ==> rec'.spawns == rec.spawns
  {
    hide ChangeItem, Cancelling, BoundaryItem, SpawnAll, Left;
  }

  lemma EndPlanned(cfg: Config, ts: TaskSys, token: Token, inp: Input, drawn: Token, next: TaskId)
    requires TaskOk(cfg, ts, drawn) && Ends(cfg, ts, token, inp, drawn, next) && PlanOf(OutcomeOf(ts, token)).Some?
    ensures var e, plan := TaskStep(cfg, ts, Work(token, inp), drawn, next), PlanOf(OutcomeOf(ts, token)).value;
            if ToldLast(ts.rec, e.sys.rec) then e.sys.plans == ts.plans + [plan] && e.born == SpawnAll(ts.rec.spawns, plan, |plan.children|, next).born
            else e.sys.plans == ts.plans && e.born == []
  {
    SpawnStep(cfg, ts, Work(token, inp), drawn, next);
    hide FinishRound, TaskOk, SpawnAll, Finish, EndOf, Planned;
    FinishPlan(cfg, ts.rec, token, ts.jobs[token].snap, OutcomeOf(ts, token), inp, next);
  }

  lemma FinishPlan(cfg: Config, rec: Record, token: Token, snap: Task, o: Outcome, inp: Input, next: TaskId)
    ensures var m := Finish(cfg, rec, token, snap, o, inp, next);
            m.plan == if ToldLast(rec, m.rec) then PlanOf(o) else None
  {
    hide FinishRound;
  }
}
