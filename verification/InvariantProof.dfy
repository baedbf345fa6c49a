/** Every action of every actor keeps the invariant. */
module InvariantProof {
  import opened Models
  import opened Records
  import opened StateMachine
  import opened Worker
  import opened Protocol
  import opened Invariant

  lemma NextStaysInside(steps: seq<string>, s: string)
    ensures Next(steps, s).Advance? ==> Next(steps, s).step in steps
    ensures s in steps ==> !Next(steps, s).NotInWorkflow?
  {
    var i := IndexOf(steps, s);
  }

  lemma CancellingAttempts(cfg: Config, items: seq<Item>, c: Cancel)
    requires AttemptsOk(cfg, items)
    requires forall i :: 0 <= i < |items| - 1 ==> !Active(items[i].status)
    ensures AttemptsOk(cfg, Cancelling(items, c))
  {
    var r := Cancelling(items, c);
    assert |r| == |items|;
    forall j | 0 <= j < |r| ensures AttemptOk(cfg, r, j) {
      assert AttemptOk(cfg, items, j);
      assert r[..j] == items[..j];
    }
  }

  lemma ChangeItemAttempts(cfg: Config, items: seq<Item>, step: string, c: ItemChange)
    requires AttemptsOk(cfg, items)
    requires forall i :: 0 <= i < |items| - 1 ==> !Active(items[i].status)
    requires ChangeItem(items, step, c).Some?
    requires c.OpenItem? ==> c.attempt == NextAttempt(items, step) && c.maxAttempts == MaxAttempts(cfg, step) && 1 <= c.maxAttempts
    requires c.OpenItem? ==> c.previousError == PreviousError(items, step)
    requires c.CloseItem? && c.status.Rejected? ==> c.error.Some?
    requires c.CloseItem? && c.status.Rejected? ==> items[c.item].attempt < items[c.item].maxAttempts
    requires c.CloseItem? && c.status.Exhausted? ==> items[c.item].attempt == items[c.item].maxAttempts
    ensures AttemptsOk(cfg, ChangeItem(items, step, c).value)
    ensures var r := ChangeItem(items, step, c).value; forall i :: 0 <= i < |r| - 1 && i < |items| - 1 ==> r[i] == items[i]
  {
    var r := ChangeItem(items, step, c).value;
    forall j | 0 <= j < |r| ensures AttemptOk(cfg, r, j) {
      if j < |items| {
        assert AttemptOk(cfg, items, j);
        assert r[..j] == items[..j];
      } else {
        assert r[..j] == items;
        var last := LatestFor(items, step);
        if last.Some? { assert AttemptOk(cfg, items, last.value); }
      }
    }
  }

  /** Transitions that carry no item change: users (but submissions), scheduler, settlers. */
  lemma PlainMove(cfg: Config, rec: Record, from: Status, q: Require, d: Decision, step: string, next: TaskId)
    requires RecordOk(cfg, rec)
    requires Move(rec, from, q, d, step, NoItem, None, false, next).Committed?
    requires RowOk(cfg, Put(rec.row, d.patch))
    requires !rec.row.status.AwaitingExternal? && d.patch.status.Set? ==> d.patch.status.value != AwaitingExternal
    requires rec.row.status.AwaitingExternal? && d.patch.status.Set? ==> Terminal(d.patch.status.value)
    requires rec.row.status.AwaitingExternal? || Terminal(rec.row.status) ==> d.patch.step.Keep?
    requires Terminal(rec.row.status) ==> d.patch.status.Keep?
    requires d.patch.grant.Set? && d.patch.grant.value.Granted? ==>
      Event(ApprovalDecided(true, d.patch.grant.value.attempt), d.patch.grant.value.step) in d.events
    ensures RecordOk(cfg, Move(rec, from, q, d, step, NoItem, None, false, next).rec)
    ensures d.patch.step.Keep? && (d.patch.status.Set? ==> !Terminal(d.patch.status.value)) ==>
      Move(rec, from, q, d, step, NoItem, None, false, next).rec.items == rec.items
  {
    CancellingAttempts(cfg, rec.items, Left(d.patch));
  }

  lemma SettleKeeps(cfg: Config, rec: Record, snap: Task, checkAlive: bool, reason: string, drawn: Token, next: TaskId)
    requires RecordOk(cfg, rec)
    ensures var rec' := After(rec, SettleRound(rec, snap, NoRetry(cfg, snap.step), checkAlive, reason, next));
            RecordOk(cfg, rec') && Calm(rec, rec', drawn)
  {
    var noRetry := NoRetry(cfg, snap.step);
    if SettleRound(rec, snap, noRetry, checkAlive, reason, next).Committed? {
      PlainMove(cfg, rec, snap.status, SettleRequire(snap, checkAlive), SettleDecision(snap, noRetry, reason), snap.step, next);
    }
  }

  /** A user decision, applied to a row of the status it was decided from. */
  lemma UserRow(cfg: Config, row: Task, snap: Task, req: Request, itemStep: Option<string>)
    requires RowOk(cfg, row) && row.status == snap.status
    requires Decide(Steps(cfg, row.workflow), snap, req, itemStep).Do?
    ensures var p := Decide(Steps(cfg, row.workflow), snap, req, itemStep).decision.patch;
            && RowOk(cfg, Put(row, p))
            && !p.unlock
            && (p.status.Set? ==> p.status.value != AwaitingExternal && !Terminal(row.status))
            && (Executing(row.status) ==> p.step.Keep? && p.grant.Keep? && (p.status.Set? ==> !Terminal(p.status.value)))
            && (row.status.AwaitingExternal? || Terminal(row.status) ==> p.step.Keep?)
            && (row.status.AwaitingExternal? && p.status.Set? && !req.Submit? ==> Terminal(p.status.value))
            && (p.grant.Set? && p.grant.value.Granted? ==>
                  Event(ApprovalDecided(true, p.grant.value.attempt), p.grant.value.step)
                    in Decide(Steps(cfg, row.workflow), snap, req, itemStep).decision.events)
            && (Executing(row.status) && p.pause.Set? ==> p.pause.value)
            && (Executing(row.status) && p.terminate.Set? ==> p.terminate.value)
  {
  }

  lemma SubmitKeeps(cfg: Config, rec: Record, snap: Task, i: ItemId, token: Token, drawn: Token, next: TaskId)
    requires RecordOk(cfg, rec)
    requires UserRound(Steps(cfg, rec.row.workflow), rec, snap, Submit(i, token), next).Committed?
    ensures var rec' := UserRound(Steps(cfg, rec.row.workflow), rec, snap, Submit(i, token), next).rec;
            RecordOk(cfg, rec') && Calm(rec, rec', drawn)
  {
    ChangeItemAttempts(cfg, rec.items, snap.step, SubmitItem(i, token));
  }

  lemma UserKeeps(cfg: Config, rec: Record, snap: Task, req: Request, drawn: Token, next: TaskId)
    requires RecordOk(cfg, rec)
    ensures var rec' := After(rec, UserRound(Steps(cfg, rec.row.workflow), rec, snap, req, next));
            RecordOk(cfg, rec') && Calm(rec, rec', drawn)
  {
    var steps := Steps(cfg, rec.row.workflow);
    if UserRound(steps, rec, snap, req, next).Committed? {
      if req.Submit? {
        SubmitKeeps(cfg, rec, snap, req.item, req.token, drawn, next);
      } else {
        UserDoes(steps, rec, snap, req, next);
        var d := Decide(steps, snap, req, None).decision;
        UserRow(cfg, rec.row, snap, req, None);
        PlainMove(cfg, rec, snap.status, ANYTHING, d, snap.step, next);
      }
    }
  }

  /** Any user action but a submission is a plain transition. */
  lemma UserDoes(steps: seq<string>, rec: Record, snap: Task, req: Request, next: TaskId)
    requires !req.Submit?
    requires UserRound(steps, rec, snap, req, next).Committed?
    ensures Decide(steps, snap, req, None).Do? && rec.row.status == snap.status
    ensures UserRound(steps, rec, snap, req, next)
         == Move(rec, snap.status, ANYTHING, Decide(steps, snap, req, None).decision, snap.step, NoItem, None, false, next)
  {
  }

  lemma SkipKeeps(cfg: Config, rec: Record, snap: Task, seen: bool, drawn: Token, next: TaskId)
    requires RecordOk(cfg, rec)
    ensures var rec' := SkipRound(Steps(cfg, rec.row.workflow), rec, snap, seen, next);
            RecordOk(cfg, rec') && Calm(rec, rec', drawn)
  {
    var steps := Steps(cfg, rec.row.workflow);
    NextStaysInside(steps, snap.step);
    var q := ANYTHING.(step := Set(snap.step));
    match Next(steps, snap.step)
    case NotInWorkflow =>
    case Done =>
      var d := Decision(NOTHING.(status := Set(FinalStatus(false, seen))), [Event(CompletedEvent, snap.step)]);
      if Move(rec, Queued, q, d, snap.step, NoItem, None, false, next).Committed? {
        PlainMove(cfg, rec, Queued, q, d, snap.step, next);
      }
    case Advance(to) =>
      var d := Decision(NOTHING.(step := Set(to)), [Event(StepCompleted, snap.step)]);
      if Move(rec, Queued, q, d, snap.step, NoItem, None, false, next).Committed? {
        PlainMove(cfg, rec, Queued, q, d, snap.step, next);
      }
  }

  lemma RequeueKeeps(cfg: Config, rec: Record, snap: Task, drawn: Token, next: TaskId)
    requires RecordOk(cfg, rec)
    ensures var rec' := RequeueRound(rec, snap, next); RecordOk(cfg, rec') && Calm(rec, rec', drawn)
  {
    var d := Decision(NOTHING.(status := Set(Queued), nextRetryAt := Set(None)), [Event(RetryEvent, snap.step)]);
    if Move(rec, Failed, ANYTHING, d, snap.step, NoItem, None, false, next).Committed? {
      PlainMove(cfg, rec, Failed, ANYTHING, d, snap.step, next);
    }
  }

  lemma ClaimKeeps(cfg: Config, rec: Record, snap: Task, worker: string, now: int, drawn: Token, next: TaskId)
    requires RecordOk(cfg, rec)
    ensures var r := ClaimRound(rec, snap, worker, now, drawn, next);
            && RecordOk(cfg, r.0) && Calm(rec, r.0, drawn)
            && (r.1 ==> !Executing(rec.row.status) && Holder(r.0.row, drawn))
            && (!r.1 ==> r.0 == rec)
  {
  }

  lemma ItemClientsKeep(cfg: Config, rec: Record, i: ItemId, client: Token, holder: Option<Token>, drawn: Token)
    requires RecordOk(cfg, rec)
    ensures RecordOk(cfg, ClaimItem(rec, i, client)) && Calm(rec, ClaimItem(rec, i, client), drawn)
    ensures RecordOk(cfg, ReleaseItem(rec, i, holder)) && Calm(rec, ReleaseItem(rec, i, holder), drawn)
  {
    forall r: Record | r == ClaimItem(rec, i, client) || r == ReleaseItem(rec, i, holder)
      ensures RecordOk(cfg, r) && Calm(rec, r, drawn)
    {
      forall j | 0 <= j < |r.items| ensures AttemptOk(cfg, r.items, j) {
        assert AttemptOk(cfg, rec.items, j);
        assert i < |rec.items| && r.items != rec.items ==> i == |rec.items| - 1;
        assert r.items[..j] == rec.items[..j];
      }
    }
  }

  // -- the worker ----------------------------------------------------------------------

  /** A boundary decision, applied to the row it was decided from up to columns it ignores:
      it always releases the claim, and both flags with it. */
  lemma BoundaryRow(cfg: Config, row: Task, snap: Task, o: Outcome, seen: bool, now: int)
    requires RowOk(cfg, row) && Executing(row.status)
    requires snap.status == row.status && snap.step == row.step
    requires snap.pauseRequested == row.pauseRequested && snap.terminateRequested == row.terminateRequested
    ensures Boundary(Steps(cfg, row.workflow), snap, o, snap.terminateRequested, snap.pauseRequested, seen, now).Some?
    ensures var p := Boundary(Steps(cfg, row.workflow), snap, o, snap.terminateRequested, snap.pauseRequested, seen, now).value.patch;
            && p.unlock && p.status.Set? && !Executing(p.status.value)
            && RowOk(cfg, Put(row, p))
            && (p.step.Set? ==> o.Success? && !Terminal(p.status.value))
            && (p.status.value.AwaitingExternal? ==> o.ExternalNeeded?)
            && (p.grant.Set? ==> p.grant.value.Asked?)
  {
    NextStaysInside(Steps(cfg, row.workflow), row.step);
  }

  /** The items after a committed boundary. */
  lemma BoundaryItems(cfg: Config, rec: Record, o: Outcome, p: Patch, row': Task)
    requires row'.status == Written(p.status, rec.row.status) && row'.step == Written(p.step, rec.row.step)
    requires RecordOk(cfg, rec) && Executing(rec.row.status) && OutcomeOk(cfg, rec, o)
    requires p.status.Set? && !Executing(p.status.value)
    requires p.step.Set? ==> o.Success? && !Terminal(p.status.value)
    requires p.status.value.AwaitingExternal? ==> o.ExternalNeeded?
    ensures ChangeItem(rec.items, rec.row.step, BoundaryItem(o, p)).Some?
    ensures var items := Cancelling(ChangeItem(rec.items, rec.row.step, BoundaryItem(o, p)).value, Left(p));
            ItemsOk(rec.(row := row', items := items)) && AttemptsOk(cfg, items)
  {
    var c := BoundaryItem(o, p);
    if c.CloseItem? { assert AttemptOk(cfg, rec.items, c.item); }
    ChangeItemAttempts(cfg, rec.items, rec.row.step, c);
    CancellingAttempts(cfg, ChangeItem(rec.items, rec.row.step, c).value, Left(p));
  }

  /** One round of finish_step from any version the row had: it commits only under the current
      claim, releases it, and no hook ever raises. */
  lemma FinishKeeps(cfg: Config, rec: Record, token: Token, read: Task, o: Outcome, seen: bool, now: int,
                    bound: Token, next: TaskId)
    requires RecordOk(cfg, rec) && VersionOk(rec.row, read, bound)
    requires Current(rec, token) ==> OutcomeOk(cfg, rec, o)
    ensures var r := FinishRound(Steps(cfg, rec.row.workflow), rec, token, read, o, seen, now, next);
            && (r.BadStep? ==> !Current(rec, token))
            && (r.Tried? ==> !r.tx.Raised?)
            && (r.Tried? && r.tx.Committed? ==>
                  && Holder(rec.row, token) && RecordOk(cfg, r.tx.rec)
                  && !Executing(r.tx.rec.row.status) && r.tx.rec.row.workflow == rec.row.workflow && r.tx.rec.row.parent == rec.row.parent)
  {
    var steps := Steps(cfg, rec.row.workflow);
    if Holder(read, token) {
      var q := BoundaryRequire(read, token);
      if rec.row.status == read.status && Holds(rec.row, q) {
        FinishMatches(cfg, rec, token, read, o, seen, now, bound, next);
      } else {
        FinishMisses(cfg, rec, token, read, o, seen, now, next);
        if Current(rec, token) { FinishStep1(cfg, rec, read, token, bound); NextStaysInside(steps, read.step); }
      }
    }
  }

  lemma FinishStep1(cfg: Config, rec: Record, read: Task, token: Token, bound: Token)
    requires RecordOk(cfg, rec) && VersionOk(rec.row, read, bound) && Current(rec, token) && read.lock.token == Some(token)
    ensures read.step == rec.row.step && read.step in Steps(cfg, rec.row.workflow)
  {
  }

  lemma FinishMisses(cfg: Config, rec: Record, token: Token, read: Task, o: Outcome, seen: bool, now: int, next: TaskId)
    requires rec.row.status != read.status || !Holds(rec.row, BoundaryRequire(read, token))
    ensures var r := FinishRound(Steps(cfg, rec.row.workflow), rec, token, read, o, seen, now, next);
            && (r.Tried? ==> r.tx.Unmatched?)
            && (read.step in Steps(cfg, rec.row.workflow) ==> !r.BadStep?)
  {
    hide Holds, BoundaryRequire, RunHooks;
    NextStaysInside(Steps(cfg, rec.row.workflow), read.step);
  }

  lemma FinishMatches(cfg: Config, rec: Record, token: Token, read: Task, o: Outcome, seen: bool, now: int, bound: Token, next: TaskId)
    requires RecordOk(cfg, rec) && VersionOk(rec.row, read, bound) && Holder(read, token)
    requires Current(rec, token) ==> OutcomeOk(cfg, rec, o)
    requires rec.row.status == read.status && Holds(rec.row, BoundaryRequire(read, token))
    ensures var r := FinishRound(Steps(cfg, rec.row.workflow), rec, token, read, o, seen, now, next);
            && Holder(rec.row, token) && r.Tried? && r.tx.Committed? && RecordOk(cfg, r.tx.rec)
            && !Executing(r.tx.rec.row.status) && r.tx.rec.row.workflow == rec.row.workflow && r.tx.rec.row.parent == rec.row.parent
  {
    hide Move, Boundary, OutcomeOk, ItemsOk, AttemptsOk, GrantOk;
    var d := Boundary(Steps(cfg, rec.row.workflow), read, o, read.terminateRequested, read.pauseRequested, seen, now);
    BoundaryRow(cfg, rec.row, read, o, seen, now);
    BoundaryCommit(cfg, rec, o, d.value, next, BoundaryRequire(read, token), read.status);
  }

  lemma BoundaryCommit(cfg: Config, rec: Record, o: Outcome, d: Decision, next: TaskId, q: Require, from: Status)
    requires RecordOk(cfg, rec) && Executing(rec.row.status) && OutcomeOk(cfg, rec, o)
    requires rec.row.status == from && Holds(rec.row, q)
    requires var p := d.patch;
            && p.unlock && p.status.Set? && !Executing(p.status.value)
            && RowOk(cfg, Put(rec.row, p))
            && (p.step.Set? ==> o.Success? && !Terminal(p.status.value))
            && (p.status.value.AwaitingExternal? ==> o.ExternalNeeded?)
            && (p.grant.Set? ==> p.grant.value.Asked?)
    ensures var tx := Move(rec, from, q, d, rec.row.step, BoundaryItem(o, d.patch), PlanOf(o), Spawns(o, d.patch), next);
            && tx.Committed? && RecordOk(cfg, tx.rec)
            && !Executing(tx.rec.row.status) && tx.rec.row.workflow == rec.row.workflow && tx.rec.row.parent == rec.row.parent
  {
    var tx := Move(rec, from, q, d, rec.row.step, BoundaryItem(o, d.patch), PlanOf(o), Spawns(o, d.patch), next);
    var row' := Put(rec.row, d.patch);
    BoundaryItems(cfg, rec, o, d.patch, row');
    var row'' := if PlanOf(o).Some? then PutUpdates(row', PlanOf(o).value.updates) else row';
    assert tx.Committed? && tx.rec.row == row'';
    assert ItemsOk(rec.(row := row'', items := tx.rec.items));
  }

  /** Looking for the active item: a worker that holds the task finds none, or one that has
      been submitted. */
  lemma SeekKeeps(cfg: Config, rec: Record, snap: Task, attempt: nat)
    requires RecordOk(cfg, rec)
    ensures SnapOf(Seek(cfg, rec, snap, attempt)) == Some(snap)
    ensures Executing(rec.row.status) && rec.row.step == snap.step ==> HolderOk(cfg, rec, Seek(cfg, rec, snap, attempt))
  {
  }

  lemma EndingKeeps(cfg: Config, rec: Record, snap: Task, found: Option<Found>, run: RunId, r: StepResult)
    requires FoundOk(rec, found) && snap.step == rec.row.step
    ensures HolderOk(cfg, rec, Ending(cfg, snap, found, run, r))
  {
  }

  /** Short of finish_step a worker writes its run, and retry or progress columns. */
  lemma ProgramWrites(cfg: Config, rec: Record, token: Token, pc: PC, inp: Input, next: TaskId)
    requires !pc.Finishing?
    ensures var m := JobStep(cfg, rec, token, pc, inp, next);
            && m.rec.items == rec.items && m.rec.spawns == rec.spawns && m.rec.events == rec.events && m.born == []
            && m.rec.row == rec.row.(maxRetries := m.rec.row.maxRetries, progress := m.rec.row.progress)
            && (!Current(rec, token) ==> m.rec.row == rec.row)
  {
  }

  /** Where its program counter goes. */
  lemma ProgramCounter(cfg: Config, rec: Record, token: Token, pc: PC, inp: Input, next: TaskId)
    requires RecordOk(cfg, rec) && !pc.Finishing?
    requires Current(rec, token) ==> HolderOk(cfg, rec, pc)
    requires SnapOf(pc).Some? && Current(rec, token) ==> SnapOf(pc).value.step == rec.row.step
    requires pc.Fresh? && Current(rec, token) && Holder(inp.row, token) ==> inp.row.step == rec.row.step
    ensures var pc' := JobStep(cfg, rec, token, pc, inp, next).pc;
            && (SnapOf(pc').Some? ==> SnapOf(pc') == SnapOf(pc) || (SnapOf(pc') == Some(inp.row) && Holder(inp.row, token)))
            && (Current(rec, token) ==> HolderOk(cfg, rec, pc'))
  {
    match pc
    case Admitted(snap, attempt) => SeekKeeps(cfg, rec, snap, attempt);
    case InStep(snap, found, run) =>
      if Current(rec, token) { EndingKeeps(cfg, rec, snap, found, run, inp.result); }
    case Opening(snap) =>
      assert Current(rec, token) ==> HolderOk(cfg, rec, JobStep(cfg, rec, token, pc, inp, next).pc);
    case _ =>
  }

  // -- assembling ----------------------------------------------------------------------

  lemma SameForHolder(cfg: Config, rec: Record, rec': Record, pc: PC)
    requires rec'.items == rec.items && rec'.row.step == rec.row.step
    requires HolderOk(cfg, rec, pc)
    ensures HolderOk(cfg, rec', pc)
  {
  }

  lemma PastKeeps(ts: TaskSys, rec': Record, drawn: Token)
    requires PastOk(ts, drawn) && Calm(ts.rec, rec', drawn)
    ensures forall v :: v in ts.past + {rec'.row} ==> VersionOk(rec'.row, v, drawn + 1)
  {
    forall v | v in ts.past + {rec'.row} ensures VersionOk(rec'.row, v, drawn + 1) {
      assert VersionOk(ts.rec.row, ts.rec.row, drawn);
      if v in ts.past { assert VersionOk(ts.rec.row, v, drawn); }
    }
  }

  lemma ReleasedKeeps(ts: TaskSys, rec': Record, drawn: Token)
    requires PastOk(ts, drawn) && ReleasedOk(ts, drawn) && Calm(ts.rec, rec', drawn)
    ensures var ts' := ts.(rec := rec', released := ts.released + ReleasedBy(ts.rec.row, rec'.row));
            ReleasedOk(ts', drawn + 1)
  {
    assert VersionOk(ts.rec.row, ts.rec.row, drawn);
  }

  /** What one action does, seen from the task: the record stays good, the change is calm, the
      program counters of the other workers stay, and the moved one is good. */
  predicate Sound(cfg: Config, ts: TaskSys, e: Effect, drawn: Token) {
    && RecordOk(cfg, e.rec) && Calm(ts.rec, e.rec, drawn)
    && (forall k :: k in e.jobs ==>
          || (k in ts.jobs && e.jobs[k] == ts.jobs[k])
          || (k <= drawn
              && (SnapOf(e.jobs[k]).Some? ==> SnapOk(ts, k, SnapOf(e.jobs[k]).value))
              && (Current(e.rec, k) ==> HolderOk(cfg, e.rec, e.jobs[k]))))
  }

  lemma Assemble(cfg: Config, ts: TaskSys, e: Effect, drawn: Token)
    requires TaskOk(cfg, ts, drawn) && Sound(cfg, ts, e, drawn)
    ensures TaskOk(cfg, Recorded(ts, e), drawn + 1)
  {
    var ts' := Recorded(ts, e);
    PastKeeps(ts, e.rec, drawn);
    ReleasedKeeps(ts, e.rec, drawn);
    forall k | k in ts'.jobs ensures k < drawn + 1 && JobOk(cfg, ts', k, ts'.jobs[k]) {
      if k in ts.jobs && e.jobs[k] == ts.jobs[k] {
        assert JobOk(cfg, ts, k, ts.jobs[k]);
        if Current(ts'.rec, k) { SameForHolder(cfg, ts.rec, ts'.rec, ts.jobs[k]); }
      }
    }
  }

  lemma FinishSound(cfg: Config, ts: TaskSys, token: Token, inp: Input, drawn: Token, next: TaskId)
    requires TaskOk(cfg, ts, drawn) && Enabled(ts, Work(token, inp)) && ts.jobs[token].Finishing?
    ensures var m := JobStep(cfg, ts.rec, token, ts.jobs[token], inp, next);
            && RecordOk(cfg, m.rec) && Calm(ts.rec, m.rec, drawn)
            && (SnapOf(m.pc).Some? ==> SnapOf(m.pc) == SnapOf(ts.jobs[token]))
            && (Current(m.rec, token) ==> m.rec == ts.rec && (m.pc == ts.jobs[token] || m.pc.Ended?))
  {
    hide Boundary, Ending, Seek, Admit, Check, Move, UpdateFields, BoundaryItem;
    hide FinishRound, ReleasedOk;
    var pc := ts.jobs[token];
    assert JobOk(cfg, ts, token, pc);
    assert VersionOk(ts.rec.row, inp.row, drawn);
    FinishKeeps(cfg, ts.rec, token, inp.row, pc.outcome, inp.seenDegraded, inp.now, drawn, next);
    FinishKeepsRow(cfg, ts.rec, token, inp.row, pc.outcome, inp.seenDegraded, inp.now, next);
  }

  /** A round of finish_step that commits releases the lock. */
  lemma FinishKeepsRow(cfg: Config, rec: Record, token: Token, read: Task, o: Outcome, seen: bool, now: int, next: TaskId)
    ensures var r := FinishRound(Steps(cfg, rec.row.workflow), rec, token, read, o, seen, now, next);
            r.Tried? && r.tx.Committed? ==> r.tx.rec.row.lock == UNLOCKED
  {
  }

  lemma ProgramSound(cfg: Config, ts: TaskSys, token: Token, inp: Input, drawn: Token, next: TaskId)
    requires TaskOk(cfg, ts, drawn) && Enabled(ts, Work(token, inp)) && !ts.jobs[token].Finishing?
    ensures Sound(cfg, ts, Act(cfg, ts, Work(token, inp), drawn, next), drawn)
  {
    hide JobStep, SnapOf;
    var pc := ts.jobs[token];
    assert JobOk(cfg, ts, token, pc);
    assert VersionOk(ts.rec.row, inp.row, drawn);
    var m := JobStep(cfg, ts.rec, token, pc, inp, next);
    if SnapOf(pc).Some? { assert VersionOk(ts.rec.row, SnapOf(pc).value, drawn); }
    ProgramWrites(cfg, ts.rec, token, pc, inp, next);
    ProgramCounter(cfg, ts.rec, token, pc, inp, next);
    if Current(m.rec, token) { SameForHolder(cfg, ts.rec, m.rec, m.pc); }
  }

  lemma WorkSound(cfg: Config, ts: TaskSys, token: Token, inp: Input, drawn: Token, next: TaskId)
    requires TaskOk(cfg, ts, drawn) && Enabled(ts, Work(token, inp))
    ensures Sound(cfg, ts, Act(cfg, ts, Work(token, inp), drawn, next), drawn)
  {
    if ts.jobs[token].Finishing? {
      assert JobOk(cfg, ts, token, ts.jobs[token]);
      FinishSound(cfg, ts, token, inp, drawn, next);
    } else {
      ProgramSound(cfg, ts, token, inp, drawn, next);
    }
  }

  lemma ActSound(cfg: Config, ts: TaskSys, a: Action, drawn: Token, next: TaskId)
    requires TaskOk(cfg, ts, drawn) && Enabled(ts, a)
    ensures Sound(cfg, ts, Act(cfg, ts, a, drawn, next), drawn)
  {
    hide TaskOk, Sound, Act;
    if a.Work? { WorkSound(cfg, ts, a.token, a.inp, drawn, next); }
    else if a.Claim? { ClaimSound(cfg, ts, a, drawn, next); }
    else if a.Settle? || a.Requeue? || a.Skip? { SchedulerSound(cfg, ts, a, drawn, next); }
    else if a.User? || a.TakeItem? || a.GiveItem? { ClientSound(cfg, ts, a, drawn, next); }
    else { SmallSound(cfg, ts, a, drawn, next); }
  }

  lemma ClaimSound(cfg: Config, ts: TaskSys, a: Action, drawn: Token, next: TaskId)
    requires TaskOk(cfg, ts, drawn) && Enabled(ts, a) && a.Claim?
    ensures Sound(cfg, ts, Act(cfg, ts, a, drawn, next), drawn)
  {
    hide RecordOk, Calm, ClaimRound;
    ClaimKeeps(cfg, ts.rec, a.snap, a.worker, a.now, drawn, next);
  }

  /** Whoever moves no program counter is sound if the record stays good and calm. */
  lemma RecordSound(cfg: Config, ts: TaskSys, e: Effect, drawn: Token)
    requires RecordOk(cfg, e.rec) && Calm(ts.rec, e.rec, drawn) && e.jobs == ts.jobs
    ensures Sound(cfg, ts, e, drawn)
  {
  }

  lemma SchedulerSound(cfg: Config, ts: TaskSys, a: Action, drawn: Token, next: TaskId)
    requires TaskOk(cfg, ts, drawn) && Enabled(ts, a) && (a.Settle? || a.Requeue? || a.Skip?)
    ensures Sound(cfg, ts, Act(cfg, ts, a, drawn, next), drawn)
  {
    hide RecordOk, Calm, SettleRound, RequeueRound, SkipRound, Sound, After;
    match a {
      case Settle(snap, checkAlive, reason) => SettleKeeps(cfg, ts.rec, snap, checkAlive, reason, drawn, next);
      case Requeue(snap) => RequeueKeeps(cfg, ts.rec, snap, drawn, next);
      case Skip(snap, seen) => SkipKeeps(cfg, ts.rec, snap, seen, drawn, next);
    }
    RecordSound(cfg, ts, Act(cfg, ts, a, drawn, next), drawn);
  }

  lemma ClientSound(cfg: Config, ts: TaskSys, a: Action, drawn: Token, next: TaskId)
    requires TaskOk(cfg, ts, drawn) && Enabled(ts, a) && (a.User? || a.TakeItem? || a.GiveItem?)
    ensures Sound(cfg, ts, Act(cfg, ts, a, drawn, next), drawn)
  {
    hide RecordOk, Calm, UserRound, ClaimItem, ReleaseItem, Sound, After;
    match a {
      case User(snap, req) => UserKeeps(cfg, ts.rec, snap, req, drawn, next);
      case TakeItem(i, client) => ItemClientsKeep(cfg, ts.rec, i, client, None, drawn);
      case GiveItem(i, holder) => ItemClientsKeep(cfg, ts.rec, i, 0, holder, drawn);
    }
    RecordSound(cfg, ts, Act(cfg, ts, a, drawn, next), drawn);
  }

  lemma SmallSound(cfg: Config, ts: TaskSys, a: Action, drawn: Token, next: TaskId)
    requires TaskOk(cfg, ts, drawn) && Enabled(ts, a) && (a.Beat? || a.Die? || a.CloseOpenRuns? || a.Tune?)
    ensures Sound(cfg, ts, Act(cfg, ts, a, drawn, next), drawn)
  {
    hide RowOk, AttemptsOk, ItemsOk, PastOk, ReleasedOk, JobsOk;
    SmallRow(cfg, ts, a, drawn, next);
  }

  /** Heartbeats, updates, closing runs and a worker's death leave the row's claim and the items. */
  lemma SmallRow(cfg: Config, ts: TaskSys, a: Action, drawn: Token, next: TaskId)
    requires RowOk(cfg, ts.rec.row) && ItemsOk(ts.rec) && Enabled(ts, a) && (a.Beat? || a.Die? || a.CloseOpenRuns? || a.Tune?)
    ensures var e := Act(cfg, ts, a, drawn, next);
            && RowOk(cfg, e.rec.row) && ItemsOk(e.rec) && e.rec.items == ts.rec.items && e.rec.events == ts.rec.events
            && e.rec.row.grant == ts.rec.row.grant && Calm(ts.rec, e.rec, drawn)
  {
    hide JobStep, SkipRound;
  }

  lemma TaskStepKeeps(cfg: Config, ts: TaskSys, a: Action, drawn: Token, next: TaskId)
    requires TaskOk(cfg, ts, drawn)
    ensures TaskOk(cfg, TaskStep(cfg, ts, a, drawn, next).sys, drawn + 1)
  {
    if Enabled(ts, a) {
      ActSound(cfg, ts, a, drawn, next);
      Assemble(cfg, ts, Act(cfg, ts, a, drawn, next), drawn);
    } else {
      LaterBound(cfg, ts, drawn, drawn + 1);
    }
  }

  lemma LaterBound(cfg: Config, ts: TaskSys, bound: Token, later: Token)
    requires TaskOk(cfg, ts, bound) && bound <= later
    ensures TaskOk(cfg, ts, later)
  {
    forall v | v in ts.past ensures VersionOk(ts.rec.row, v, later) {
      assert VersionOk(ts.rec.row, v, bound);
    }
  }

  // -- children and runs ---------------------------------------------------------------

  lemma {:induction false} BornPlanned(cfg: Config, spawns: seq<Spawn>, plan: SpawnPlan, n: nat, next: TaskId)
    requires n <= |plan.children| && Planned(cfg, plan.children)
    ensures forall i :: 0 <= i < |SpawnAll(spawns, plan, n, next).born| ==> SpawnAll(spawns, plan, n, next).born[i] in plan.children
  {
    if n > 0 { BornPlanned(cfg, spawns, plan, n - 1, next); }
  }

  /** Only a committed, non-terminating boundary creates children, and only planned ones. */
  lemma BornFrom(cfg: Config, ts: TaskSys, a: Action, drawn: Token, next: TaskId)
    requires TaskOk(cfg, ts, drawn)
    ensures forall i :: 0 <= i < |TaskStep(cfg, ts, a, drawn, next).born| ==> FirstStepOf(cfg, TaskStep(cfg, ts, a, drawn, next).born[i])
  {
    if Enabled(ts, a) && a.Work? {
      var pc := ts.jobs[a.token];
      if pc.Finishing? { BornFinish(cfg, ts, a.token, a.inp, drawn, next); }
      else {
        hide TaskOk, FirstStepOf;
        ProgramWrites(cfg, ts.rec, a.token, pc, a.inp, next);
      }
    } else {
      hide TaskOk, FirstStepOf;
    }
  }

  lemma BornFinish(cfg: Config, ts: TaskSys, token: Token, inp: Input, drawn: Token, next: TaskId)
    requires TaskOk(cfg, ts, drawn) && Enabled(ts, Work(token, inp)) && ts.jobs[token].Finishing?
    ensures var born := JobStep(cfg, ts.rec, token, ts.jobs[token], inp, next).born;
            forall i :: 0 <= i < |born| ==> FirstStepOf(cfg, born[i])
  {
    hide RecordOk, PastOk, ReleasedOk, RowOk, FinishRound, SnapOk, Steps;
    var o := ts.jobs[token].outcome;
    assert JobOk(cfg, ts, token, ts.jobs[token]);
    BoundaryBorn(Steps(cfg, ts.rec.row.workflow), ts.rec, token, inp.row, o, inp.seenDegraded, inp.now, next);
    if PlanOf(o).Some? && Planned(cfg, PlanOf(o).value.children) {
      BornPlanned(cfg, ts.rec.spawns, PlanOf(o).value, |PlanOf(o).value.children|, next);
    }
  }

  /** What a committed boundary creates, under the claim it required. */
  lemma BoundaryBorn(steps: seq<string>, rec: Record, token: Token, read: Task, o: Outcome, seen: bool, now: int, next: TaskId)
    ensures var r := FinishRound(steps, rec, token, read, o, seen, now, next);
            r.Tried? && r.tx.Committed? ==>
              && Current(rec, token)
              && (r.tx.born == []
                  || (PlanOf(o).Some? && r.tx.born == SpawnAll(rec.spawns, PlanOf(o).value, |PlanOf(o).value.children|, next).born))
  {
    hide Boundary, ChangeItem, SpawnAll, Cancelling, CloseOpenRun, BoundaryItem, Spawns;
  }

  lemma NewTaskOk(cfg: Config, workflow: string, maxRetries: int, parent: Option<TaskId>, bound: Token)
    requires Steps(cfg, workflow) != []
    ensures TaskOk(cfg, NewTask(workflow, Steps(cfg, workflow)[0], maxRetries, parent), bound)
  {
  }

  lemma {:induction false} InsertKeeps(cfg: Config, tasks: map<TaskId, TaskSys>, parent: TaskId, born: seq<Child>, next: TaskId, bound: Token)
    requires AllOk(cfg, tasks, next, bound)
    requires forall i :: 0 <= i < |born| ==> FirstStepOf(cfg, born[i])
    ensures AllOk(cfg, Insert(tasks, parent, born, next), next + |born|, bound)
    ensures forall t :: t in tasks ==> t in Insert(tasks, parent, born, next) && Insert(tasks, parent, born, next)[t] == tasks[t]
  {
    if born != [] {
      var n := |born| - 1;
      var c := born[n];
      InsertKeeps(cfg, tasks, parent, born[..n], next, bound);
      assert FirstStepOf(cfg, c);
      NewTaskOk(cfg, c.workflow, c.maxRetries, Some(parent), bound);
      PutTask(cfg, Insert(tasks, parent, born[..n], next), next + n, NewTask(c.workflow, c.firstStep, c.maxRetries, Some(parent)), next + n, bound);
    }
  }

  /** Rewriting or adding one good task. */
  lemma PutTask(cfg: Config, tasks: map<TaskId, TaskSys>, t: TaskId, ts: TaskSys, next: TaskId, bound: Token)
    requires AllOk(cfg, tasks, next, bound) && TaskOk(cfg, ts, bound) && t <= next
    ensures AllOk(cfg, tasks[t := ts], if t == next then next + 1 else next, bound)
  {
  }

  lemma AllLater(cfg: Config, tasks: map<TaskId, TaskSys>, next: TaskId, bound: Token)
    requires AllOk(cfg, tasks, next, bound)
    ensures AllOk(cfg, tasks, next, bound + 1)
  {
    forall t | t in tasks ensures TaskOk(cfg, tasks[t], bound + 1) { LaterBound(cfg, tasks[t], bound, bound + 1); }
  }

  lemma OrphanedOk(cfg: Config, ts: TaskSys, bound: Token)
    requires TaskOk(cfg, ts, bound)
    ensures TaskOk(cfg, Orphaned(ts), bound)
  {
    forall v | v in ts.past ensures VersionOk(ts.rec.row, v, bound) {}
  }

  lemma CrashKeeps(cfg: Config, tasks: map<TaskId, TaskSys>, next: TaskId, bound: Token)
    requires AllOk(cfg, tasks, next, bound)
    ensures AllOk(cfg, map t | t in tasks :: Orphaned(tasks[t]), next, bound)
  {
    forall t | t in tasks ensures TaskOk(cfg, Orphaned(tasks[t]), bound) { OrphanedOk(cfg, tasks[t], bound); }
  }

  lemma OnKeeps(cfg: Config, s: Sys, t: TaskId, a: Action)
    requires SysOk(cfg, s) && t in s.tasks
    ensures SysOk(cfg, Step(cfg, s, On(t, a)))
  {
    hide TaskStep, FirstStepOf;
    var e := TaskStep(cfg, s.tasks[t], a, s.nextToken, s.nextTask);
    TaskStepKeeps(cfg, s.tasks[t], a, s.nextToken, s.nextTask);
    BornFrom(cfg, s.tasks[t], a, s.nextToken, s.nextTask);
    AllLater(cfg, s.tasks, s.nextTask, s.nextToken);
    PutTask(cfg, s.tasks, t, e.sys, s.nextTask, s.nextToken + 1);
    InsertKeeps(cfg, s.tasks[t := e.sys], t, e.born, s.nextTask, s.nextToken + 1);
  }

  lemma {:induction false} StepKeeps(cfg: Config, s: Sys, m: Turn)
    requires SysOk(cfg, s)
    ensures SysOk(cfg, Step(cfg, s, m))
  {
    match m
    case Crash => CrashKeeps(cfg, s.tasks, s.nextTask, s.nextToken);
    case Create(workflow, maxRetries) =>
      if Steps(cfg, workflow) != [] {
        NewTaskOk(cfg, workflow, maxRetries, None, s.nextToken);
        PutTask(cfg, s.tasks, s.nextTask, NewTask(workflow, Steps(cfg, workflow)[0], maxRetries, None), s.nextTask, s.nextToken);
      }
    case On(t, a) =>
      if t in s.tasks { OnKeeps(cfg, s, t, a); }
  }

  /** The invariant holds in every reachable state. */
  lemma {:induction false} Reachable(cfg: Config, moves: seq<Turn>)
    ensures SysOk(cfg, Play(cfg, EMPTY, moves))
  {
    if moves != [] {
      Reachable(cfg, moves[..|moves| - 1]);
      StepKeeps(cfg, Play(cfg, EMPTY, moves[..|moves| - 1]), moves[|moves| - 1]);
    }
  }

  /** What the invariant says of one task, and of task ids. */
  lemma At(cfg: Config, s: Sys, t: TaskId)
    requires SysOk(cfg, s) && t in s.tasks
    ensures TaskOk(cfg, s.tasks[t], s.nextToken)
  {
  }

  lemma Below(cfg: Config, s: Sys)
    requires SysOk(cfg, s)
    ensures forall u :: u in s.tasks ==> u < s.nextTask
  {
  }
}
