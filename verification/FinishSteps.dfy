/** finish_step as the retry loop it is, against everything others may do meanwhile. */
module FinishSteps {
  import opened Models
  import opened Records
  import opened StateMachine
  import opened Worker
  import opened Protocol
  import opened Invariant
  import opened InvariantProof

  /** _ATTEMPTS in the state machine. */
  const ROUNDS: nat := 5

  /** What others do to the task around one round: before its read, and between its read and its
      write. Also what has_degraded answers in that round, and the time. */
  datatype Gap = Gap(before: seq<Action>, between: seq<Action>, seen: bool, now: int)

  /** Anyone but the worker's own program: users, settlers, clients, other workers, and the
      worker's heartbeat thread. */
  predicate Others(token: Token, actions: seq<Action>) {
    forall i :: 0 <= i < |actions| ==>
      !(actions[i].Work? && actions[i].token == token) && !(actions[i].Die? && actions[i].token == token)
  }

  function Elsewhere(cfg: Config, ts: TaskSys, actions: seq<Action>, drawn: Token, next: TaskId): TaskSys {
    if actions == [] then ts
    else
      var n := |actions| - 1;
      TaskStep(cfg, Elsewhere(cfg, ts, actions[..n], drawn, next), actions[n], drawn + n, next).sys
  }

  predicate SameRetries(row: Task, row': Task) {
    row'.retryCount == row.retryCount && row'.maxRetries == row.maxRetries
  }

  /** How many of the actions changed retry_count or max_retries. */
  function RetryWrites(cfg: Config, ts: TaskSys, actions: seq<Action>, drawn: Token, next: TaskId): nat {
    if actions == [] then 0
    else
      var n := |actions| - 1;
      var was := Elsewhere(cfg, ts, actions[..n], drawn, next);
      var now := Elsewhere(cfg, ts, actions, drawn, next);
      RetryWrites(cfg, ts, actions[..n], drawn, next) + if SameRetries(was.rec.row, now.rec.row) then 0 else 1
  }

  datatype FinishEnd = Resolved | Lost | Failing | GaveUp

  datatype Finished = Finished(ts: TaskSys, end: FinishEnd)

  /** The commit of a round is the worker's own action in the protocol. */
  function Commit(cfg: Config, ts: TaskSys, token: Token, read: Task, g: Gap, drawn: Token, next: TaskId): TaskSys {
    TaskStep(cfg, ts, Work(token, RoundInput(read, g)), drawn, next).sys
  }

  function RoundInput(read: Task, g: Gap): Input {
    Input(read, NoGate, false, Raises(""), g.seen, g.now)
  }

  function Rounds(cfg: Config, ts: TaskSys, token: Token, o: Outcome, gaps: seq<Gap>, drawn: Token, next: TaskId): Finished
    decreases |gaps|
  {
    if gaps == [] then Finished(ts, GaveUp)
    else
      var g := gaps[0];
      var ts1 := Elsewhere(cfg, ts, g.before, drawn, next);
      var read := ts1.rec.row;
      if !Holder(read, token) then Finished(ts1, Lost)
      else
        var drawn2 := drawn + |g.before| + |g.between|;
        var ts2 := Elsewhere(cfg, ts1, g.between, drawn + |g.before|, next);
        match FinishRound(Steps(cfg, ts2.rec.row.workflow), ts2.rec, token, read, o, g.seen, g.now, next)
        case ClaimLost => Finished(ts2, Lost)
        case BadStep => Finished(ts2, Failing)
        case Tried(Raised) => Finished(ts2, Failing)
        case Tried(Committed(_, _)) => Finished(Commit(cfg, ts2, token, read, g, drawn2, next), Resolved)
        case Tried(Unmatched) => Rounds(cfg, ts2, token, o, gaps[1..], drawn2, next)
  }

  function AllRetryWrites(cfg: Config, ts: TaskSys, gaps: seq<Gap>, drawn: Token, next: TaskId): nat
    decreases |gaps|
  {
    if gaps == [] then 0
    else
      var g := gaps[0];
      var ts1 := Elsewhere(cfg, ts, g.before, drawn, next);
      var ts2 := Elsewhere(cfg, ts1, g.between, drawn + |g.before|, next);
      RetryWrites(cfg, ts, g.before, drawn, next) + RetryWrites(cfg, ts1, g.between, drawn + |g.before|, next)
      + AllRetryWrites(cfg, ts2, gaps[1..], drawn + |g.before| + |g.between|, next)
  }

  /** finish_step: read, decide, compare-and-set; on contention read again, up to five times. */
  method FinishStep(cfg: Config, ts0: TaskSys, token: Token, o: Outcome, gaps: seq<Gap>, drawn0: Token, next: TaskId)
    returns (ts: TaskSys, end: FinishEnd)
    requires |gaps| == ROUNDS && token in ts0.jobs
    ensures Finished(ts, end) == Rounds(cfg, ts0, token, o, gaps, drawn0, next)
  {
    hide Boundary, Move, BoundaryItem, Spawns, PlanOf, Elsewhere, Steps, BoundaryRequire, Commit, Executing;
    ts := ts0;
    var drawn: Token := drawn0;
    for i := 0 to ROUNDS
      invariant Rounds(cfg, ts0, token, o, gaps, drawn0, next) == Rounds(cfg, ts, token, o, gaps[i..], drawn, next)
    {
      var g := gaps[i];
      assert gaps[i..][0] == g && gaps[i..][1..] == gaps[i + 1..];
      ts := Elsewhere(cfg, ts, g.before, drawn, next);
      var task := ts.rec.row;
      if !Executing(task.status) || task.lock.token != Some(token) {
        return ts, Lost;
      }
      ts := Elsewhere(cfg, ts, g.between, drawn + |g.before|, next);
      drawn := drawn + |g.before| + |g.between|;
      var decided := Boundary(Steps(cfg, ts.rec.row.workflow), task, o, task.terminateRequested, task.pauseRequested, g.seen, g.now);
      if decided.None? {
        return ts, Failing;
      }
      var d := decided.value;
      var tx := Move(ts.rec, task.status, BoundaryRequire(task, token), d, task.step,
                     BoundaryItem(o, d.patch), PlanOf(o), Spawns(o, d.patch), next);
      if tx.Committed? {
        return Commit(cfg, ts, token, task, g, drawn, next), Resolved;
      }
      if tx.Raised? {
        return ts, Failing;
      }
    }
    end := GaveUp;
  }

  // -- what others can do while a claim lasts -----------------------------------------------------

  /** How many of the two requests are pending. */
  function Asked2(row: Task): nat {
    (if row.pauseRequested then 1 else 0) + (if row.terminateRequested then 1 else 0)
  }

  /** If the claim still holds later, it held before, and requests have only been added. */
  predicate Since(ts: TaskSys, ts': TaskSys, token: Token) {
    && ts.past <= ts'.past
    && (Current(ts'.rec, token) ==>
          && Current(ts.rec, token) && ts'.rec.row.step == ts.rec.row.step && ts'.rec.row.workflow == ts.rec.row.workflow
          && (ts.rec.row.pauseRequested ==> ts'.rec.row.pauseRequested)
          && (ts.rec.row.terminateRequested ==> ts'.rec.row.terminateRequested))
  }

  lemma {:induction false} ElsewhereKeeps(cfg: Config, ts: TaskSys, actions: seq<Action>, token: Token, drawn: Token, next: TaskId)
    requires TaskOk(cfg, ts, drawn) && token in ts.jobs && Others(token, actions)
    ensures var ts' := Elsewhere(cfg, ts, actions, drawn, next);
            && TaskOk(cfg, ts', drawn + |actions|) && token in ts'.jobs && ts'.jobs[token] == ts.jobs[token]
            && Since(ts, ts', token)
            && (SameRetries(ts.rec.row, ts'.rec.row) || RetryWrites(cfg, ts, actions, drawn, next) > 0)
  {
    ElsewhereLast(cfg, ts, actions, drawn, next);
    hide TaskOk, TaskStep, Since, SameRetries, Elsewhere, RetryWrites;
    if actions != [] {
      var n := |actions| - 1;
      assert Others(token, actions[..n]);
      ElsewhereKeeps(cfg, ts, actions[..n], token, drawn, next);
      var was := Elsewhere(cfg, ts, actions[..n], drawn, next);
      OtherAction(cfg, was, actions[n], token, drawn + n, next);
      SinceTrans(ts, was, Elsewhere(cfg, ts, actions, drawn, next), token);
      RetriesTrans(ts.rec.row, was.rec.row, Elsewhere(cfg, ts, actions, drawn, next).rec.row);
    } else {
      SinceTrans(ts, ts, ts, token);
      RetriesTrans(ts.rec.row, ts.rec.row, ts.rec.row);
    }
  }

  lemma ElsewhereLast(cfg: Config, ts: TaskSys, actions: seq<Action>, drawn: Token, next: TaskId)
    ensures actions == [] ==> Elsewhere(cfg, ts, actions, drawn, next) == ts
    ensures actions != [] ==>
            var n := |actions| - 1;
            var was, now := Elsewhere(cfg, ts, actions[..n], drawn, next), Elsewhere(cfg, ts, actions, drawn, next);
            && now == TaskStep(cfg, was, actions[n], drawn + n, next).sys
            && RetryWrites(cfg, ts, actions, drawn, next)
               == RetryWrites(cfg, ts, actions[..n], drawn, next) + if SameRetries(was.rec.row, now.rec.row) then 0 else 1
  {
    hide TaskStep;
  }

  lemma SinceTrans(ts: TaskSys, ts1: TaskSys, ts2: TaskSys, token: Token)
    ensures Since(ts, ts, token)
    ensures Since(ts, ts1, token) && Since(ts1, ts2, token) ==> Since(ts, ts2, token)
  {
  }

  lemma RetriesTrans(a: Task, b: Task, c: Task)
    ensures SameRetries(a, a) && (SameRetries(a, b) && SameRetries(b, c) ==> SameRetries(a, c))
  {
  }

  lemma OtherAction(cfg: Config, ts: TaskSys, a: Action, token: Token, drawn: Token, next: TaskId)
    requires TaskOk(cfg, ts, drawn) && token in ts.jobs && !(a.Work? && a.token == token) && !(a.Die? && a.token == token)
    ensures var ts' := TaskStep(cfg, ts, a, drawn, next).sys;
            && TaskOk(cfg, ts', drawn + 1) && token in ts'.jobs && ts'.jobs[token] == ts.jobs[token]
            && Since(ts, ts', token)
  {
    TaskStepKeeps(cfg, ts, a, drawn, next);
    if Enabled(ts, a) {
      TokenDrawn(cfg, ts, token, drawn);
      OtherJobs(cfg, ts, a, token, drawn, next);
      ActSound(cfg, ts, a, drawn, next);
      hide TaskOk, Act, RecordOk, HolderOk, SnapOk;
    } else {
      hide TaskOk;
    }
  }

  lemma TokenDrawn(cfg: Config, ts: TaskSys, token: Token, drawn: Token)
    requires TaskOk(cfg, ts, drawn) && token in ts.jobs
    ensures token < drawn
  {
  }

  lemma OtherJobs(cfg: Config, ts: TaskSys, a: Action, token: Token, drawn: Token, next: TaskId)
    requires Enabled(ts, a) && token in ts.jobs && token < drawn && !(a.Work? && a.token == token) && !(a.Die? && a.token == token)
    ensures token in Act(cfg, ts, a, drawn, next).jobs && Act(cfg, ts, a, drawn, next).jobs[token] == ts.jobs[token]
  {
    hide JobStep, ClaimRound, UserRound, SettleRound, SkipRound, RequeueRound;
  }

  /** A compare-and-set under a claim that still holds fails only if a request was added or a
      retry column changed since the read. */
  predicate Spoiled(read: Task, row: Task) {
    read.pauseRequested != row.pauseRequested || read.terminateRequested != row.terminateRequested || !SameRetries(read, row)
  }

  lemma SpoiledBy(cfg: Config, ts: TaskSys, read: Task, token: Token, o: Outcome, g: Gap, drawn: Token, next: TaskId)
    requires TaskOk(cfg, ts, drawn) && token in ts.jobs && ts.jobs[token].Finishing? && ts.jobs[token].outcome == o
    requires read in ts.past && Holder(read, token) && Current(ts.rec, token)
    ensures var r := FinishRound(Steps(cfg, ts.rec.row.workflow), ts.rec, token, read, o, g.seen, g.now, next);
            r.Tried? && !r.tx.Raised? && (r.tx.Unmatched? <==> Spoiled(read, ts.rec.row))
  {
    SpoiledFacts(cfg, ts, read, token, drawn);
    assert JobOk(cfg, ts, token, ts.jobs[token]);
    FinishKeeps(cfg, ts.rec, token, read, o, g.seen, g.now, drawn, next);
    hide TaskOk, RecordOk, OutcomeOk, Boundary;
    SpoiledCore(cfg, ts.rec, read, token, o, g, next);
  }

  lemma SpoiledFacts(cfg: Config, ts: TaskSys, read: Task, token: Token, drawn: Token)
    requires TaskOk(cfg, ts, drawn) && read in ts.past && Holder(read, token) && Current(ts.rec, token)
    ensures RecordOk(cfg, ts.rec) && VersionOk(ts.rec.row, read, drawn) && RowOk(cfg, read) && RowOk(cfg, ts.rec.row) && Holder(ts.rec.row, token)
  {
  }

  lemma SpoiledCore(cfg: Config, rec: Record, read: Task, token: Token, o: Outcome, g: Gap, next: TaskId)
    requires RowOk(cfg, read) && RowOk(cfg, rec.row) && Holder(read, token) && Holder(rec.row, token)
    ensures var r := FinishRound(Steps(cfg, rec.row.workflow), rec, token, read, o, g.seen, g.now, next);
            r.Tried? ==> (r.tx.Unmatched? <==> Spoiled(read, rec.row))
  {
    hide Boundary, BoundaryItem, Spawns, ChangeItem, SpawnAll, Cancelling, CloseOpenRun, Put;
  }

  // -- the theorem ----------------------------------------------------------------------------------

  predicate ByOthers(token: Token, gaps: seq<Gap>) {
    forall i :: 0 <= i < |gaps| ==> Others(token, gaps[i].before) && Others(token, gaps[i].between)
  }

  predicate Ending(ts: TaskSys, token: Token, o: Outcome) {
    token in ts.jobs && ts.jobs[token].Finishing? && ts.jobs[token].outcome == o
  }

  /** How many compare-and-sets can still be spoiled: one by each request not made yet, and one
      by each change of a retry column. */
  function Spoilers(cfg: Config, ts: TaskSys, gaps: seq<Gap>, drawn: Token, next: TaskId): int {
    2 - Asked2(ts.rec.row) + AllRetryWrites(cfg, ts, gaps, drawn, next)
  }

  lemma LostStays(cfg: Config, ts: TaskSys, token: Token, o: Outcome, gaps: seq<Gap>, drawn: Token, next: TaskId)
    requires TaskOk(cfg, ts, drawn) && token in ts.jobs && !Current(ts.rec, token) && ByOthers(token, gaps)
    ensures var f := Rounds(cfg, ts, token, o, gaps, drawn, next); !Current(f.ts.rec, token) && !f.end.Failing? && !f.end.Resolved?
  {
    if gaps != [] {
      assert Others(token, gaps[0].before);
      ElsewhereKeeps(cfg, ts, gaps[0].before, token, drawn, next);
      var ts1 := Elsewhere(cfg, ts, gaps[0].before, drawn, next);
      HolderIff(cfg, ts1, token, drawn + |gaps[0].before|);
      hide TaskOk, Elsewhere;
    }
  }

  /** A boundary decided from a read under a claim that has gone since matches no row. */
  lemma LostRound(cfg: Config, ts: TaskSys, read: Task, token: Token, o: Outcome, g: Gap, drawn: Token, next: TaskId)
    requires TaskOk(cfg, ts, drawn) && read in ts.past && Holder(read, token) && !Current(ts.rec, token)
    ensures FinishRound(Steps(cfg, ts.rec.row.workflow), ts.rec, token, read, o, g.seen, g.now, next) == Tried(Unmatched)
  {
    PastRow(cfg, ts, read, drawn);
    hide TaskOk, BoundaryItem, Spawns, RunHooks, Put;
  }

  lemma PastRow(cfg: Config, ts: TaskSys, read: Task, drawn: Token)
    requires TaskOk(cfg, ts, drawn) && read in ts.past
    ensures RowOk(cfg, read) && read.workflow == ts.rec.row.workflow
  {
    assert VersionOk(ts.rec.row, read, drawn);
  }

  /** One round: it resolves the claim, finds it lost, or was spoiled. */
  lemma OneRound(cfg: Config, ts: TaskSys, token: Token, o: Outcome, g: Gap, drawn: Token, next: TaskId)
    requires TaskOk(cfg, ts, drawn) && Ending(ts, token, o) && Others(token, g.before) && Others(token, g.between)
    ensures var ts1 := Elsewhere(cfg, ts, g.before, drawn, next);
            var drawn2 := drawn + |g.before| + |g.between|;
            var ts2 := Elsewhere(cfg, ts1, g.between, drawn + |g.before|, next);
            var read := ts1.rec.row;
            && TaskOk(cfg, ts2, drawn2) && Ending(ts2, token, o) && Since(ts, ts1, token) && Since(ts1, ts2, token)
            && (!Holder(read, token) ==> !Current(ts1.rec, token)) && read in ts2.past
            && (Current(ts2.rec, token) ==>
                  && Holder(read, token)
                  && (Spoiled(read, ts2.rec.row) ==>
                        Asked2(ts2.rec.row) > Asked2(read) || RetryWrites(cfg, ts1, g.between, drawn + |g.before|, next) > 0)
                  && Asked2(ts.rec.row) <= Asked2(read) <= Asked2(ts2.rec.row))
  {
    hide *;
    var ts1 := Elsewhere(cfg, ts, g.before, drawn, next);
    var drawn1 := drawn + |g.before|;
    var ts2 := Elsewhere(cfg, ts1, g.between, drawn1, next);
    EndingThere(ts, token, o);
    ElsewhereKeeps(cfg, ts, g.before, token, drawn, next);
    EndingKept(ts, ts1, token, o);
    EndingThere(ts1, token, o);
    HolderIff(cfg, ts1, token, drawn1);
    ElsewhereKeeps(cfg, ts1, g.between, token, drawn1, next);
    EndingKept(ts1, ts2, token, o);
    RoundFacts(ts, ts1, ts2, token);
  }

  lemma EndingThere(ts: TaskSys, token: Token, o: Outcome)
    requires Ending(ts, token, o)
    ensures token in ts.jobs
  {
  }

  lemma EndingKept(ts: TaskSys, ts': TaskSys, token: Token, o: Outcome)
    requires Ending(ts, token, o) && token in ts'.jobs && ts'.jobs[token] == ts.jobs[token]
    ensures Ending(ts', token, o)
  {
  }

  lemma RoundFacts(ts: TaskSys, ts1: TaskSys, ts2: TaskSys, token: Token)
    requires Since(ts, ts1, token) && Since(ts1, ts2, token) && ts1.rec.row in ts1.past
    requires Holder(ts1.rec.row, token) <==> Current(ts1.rec, token)
    ensures ts1.rec.row in ts2.past
    ensures Current(ts2.rec, token) ==>
              && Holder(ts1.rec.row, token)
              && (Spoiled(ts1.rec.row, ts2.rec.row) ==> Asked2(ts2.rec.row) > Asked2(ts1.rec.row) || !SameRetries(ts1.rec.row, ts2.rec.row))
              && Asked2(ts.rec.row) <= Asked2(ts1.rec.row) <= Asked2(ts2.rec.row)
  {
  }

  lemma HolderIff(cfg: Config, ts: TaskSys, token: Token, drawn: Token)
    requires TaskOk(cfg, ts, drawn)
    ensures Holder(ts.rec.row, token) <==> Current(ts.rec, token)
    ensures ts.rec.row in ts.past
  {
  }

  /** A round that commits releases the claim. */
  lemma CommitReleases(cfg: Config, ts: TaskSys, token: Token, read: Task, o: Outcome, g: Gap, drawn: Token, next: TaskId)
    requires Ending(ts, token, o) && read in ts.past
    requires var r := FinishRound(Steps(cfg, ts.rec.row.workflow), ts.rec, token, read, o, g.seen, g.now, next); r.Tried? && r.tx.Committed?
    ensures !Current(Commit(cfg, ts, token, read, g, drawn, next).rec, token)
  {
    FinishKeepsRow(cfg, ts.rec, token, read, o, g.seen, g.now, next);
    hide FinishRound;
  }

  /** When finish_step may try more often than the claim can be spoiled, the claim is resolved when
      it returns: by its own commit, or by someone else's. */
  lemma {:induction false} EnoughRounds(cfg: Config, ts: TaskSys, token: Token, o: Outcome, gaps: seq<Gap>, drawn: Token, next: TaskId)
    requires TaskOk(cfg, ts, drawn) && Ending(ts, token, o) && ByOthers(token, gaps)
    requires |gaps| > Spoilers(cfg, ts, gaps, drawn, next)
    ensures var f := Rounds(cfg, ts, token, o, gaps, drawn, next); !Current(f.ts.rec, token) && !f.end.Failing?
    decreases |gaps|
  {
    hide TaskOk, Elsewhere, FinishRound, RetryWrites, Commit, Spoiled, Since;
    assert |gaps| > 0;
    var g := gaps[0];
    assert Others(token, g.before) && Others(token, g.between);
    OneRound(cfg, ts, token, o, g, drawn, next);
    var ts1 := Elsewhere(cfg, ts, g.before, drawn, next);
    var ts2 := Elsewhere(cfg, ts1, g.between, drawn + |g.before|, next);
    var drawn2 := drawn + |g.before| + |g.between|;
    var read := ts1.rec.row;
    LaterGaps(token, gaps);
    if Holder(read, token) {
      var r := FinishRound(Steps(cfg, ts2.rec.row.workflow), ts2.rec, token, read, o, g.seen, g.now, next);
      if Current(ts2.rec, token) {
        SpoiledBy(cfg, ts2, read, token, o, g, drawn2, next);
        if r.tx.Committed? { CommitReleases(cfg, ts2, token, read, o, g, drawn2, next); }
        else { EnoughRounds(cfg, ts2, token, o, gaps[1..], drawn2, next); }
      } else {
        LostRound(cfg, ts2, read, token, o, g, drawn2, next);
        LostStays(cfg, ts2, token, o, gaps[1..], drawn2, next);
      }
    }
  }

  lemma LaterGaps(token: Token, gaps: seq<Gap>)
    requires ByOthers(token, gaps) && gaps != []
    ensures ByOthers(token, gaps[1..])
  {
  }

  /** The five attempts of finish_step are enough against anything others do to the task, as long
      as retry_count and max_retries change at most twice during the call: only one pause and one
      terminate request can each spoil one more compare-and-set. */
  lemma FiveRoundsSuffice(cfg: Config, ts: TaskSys, token: Token, o: Outcome, gaps: seq<Gap>, drawn: Token, next: TaskId)
    requires TaskOk(cfg, ts, drawn) && Ending(ts, token, o) && ByOthers(token, gaps)
    requires |gaps| == ROUNDS && AllRetryWrites(cfg, ts, gaps, drawn, next) <= 2
    ensures var f := Rounds(cfg, ts, token, o, gaps, drawn, next); !Current(f.ts.rec, token) && !f.end.Failing?
  {
    EnoughRounds(cfg, ts, token, o, gaps, drawn, next);
  }

  // -- and they are not more than enough ------------------------------------------------------------

  function Asking(ts: TaskSys, req: Request): Action {
    User(ts.rec.row, req)
  }

  function Nudge(a: Action): Gap {
    Gap([], [a], false, 0)
  }

  /** A round spoiled by one action between its read and its write. */
  lemma SpoiledRound(cfg: Config, ts: TaskSys, token: Token, o: Outcome, a: Action, rest: seq<Gap>, drawn: Token, next: TaskId)
    requires TaskOk(cfg, ts, drawn) && Ending(ts, token, o) && Current(ts.rec, token) && Others(token, [a])
    requires var ts2 := TaskStep(cfg, ts, a, drawn, next).sys; Current(ts2.rec, token) && Spoiled(ts.rec.row, ts2.rec.row)
    ensures var ts2 := TaskStep(cfg, ts, a, drawn, next).sys;
            && Rounds(cfg, ts, token, o, [Nudge(a)] + rest, drawn, next) == Rounds(cfg, ts2, token, o, rest, drawn + 1, next)
            && AllRetryWrites(cfg, ts, [Nudge(a)] + rest, drawn, next)
               == (if SameRetries(ts.rec.row, ts2.rec.row) then 0 else 1) + AllRetryWrites(cfg, ts2, rest, drawn + 1, next)
            && TaskOk(cfg, ts2, drawn + 1) && Ending(ts2, token, o)
  {
    hide TaskOk, TaskStep, FinishRound, Elsewhere, RetryWrites, Spoiled, SameRetries, Holder, Since;
    var gaps := [Nudge(a)] + rest;
    assert gaps[0] == Nudge(a) && gaps[1..] == rest;
    var g := Nudge(a);
    var ts2 := TaskStep(cfg, ts, a, drawn, next).sys;
    ElsewhereLast(cfg, ts, [], drawn, next);
    assert [a][..0] == [];
    ElsewhereLast(cfg, ts, [a], drawn, next);
    assert [a][0] == a;
    OneRound(cfg, ts, token, o, g, drawn, next);
    SpoiledBy(cfg, ts2, ts.rec.row, token, o, g, drawn + 1, next);
    RetryNone(cfg, ts, drawn, next);
    HolderIff(cfg, ts, token, drawn);
  }

  lemma RetryNone(cfg: Config, ts: TaskSys, drawn: Token, next: TaskId)
    ensures RetryWrites(cfg, ts, [], drawn, next) == 0 && AllRetryWrites(cfg, ts, [], drawn, next) == 0
  {
  }

  /** What a pause, a terminate and a set-retries request do to an executing row. */
  lemma AskedRow(cfg: Config, ts: TaskSys, req: Request, token: Token, drawn: Token, next: TaskId)
    requires TaskOk(cfg, ts, drawn) && Current(ts.rec, token)
    requires (req.Pause? && ts.rec.row.status.Running?) || req.Terminate? || (req.SetRetries? && req.max >= 0)
    ensures var row, row' := ts.rec.row, TaskStep(cfg, ts, Asking(ts, req), drawn, next).sys.rec.row;
            match req
            case Pause => row' == row.(status := PausePending, pauseRequested := true)
            case Terminate => row' == row.(terminateRequested := true)
            case SetRetries(max) => row' == row.(maxRetries := max, retryCount := 0)
            case _ => true
  {
    HolderIff(cfg, ts, token, drawn);
    hide TaskOk;
  }

  /** What can spoil one more attempt: a request nobody has made yet, else a change of max_retries. */
  function Spoiler(row: Task): Request {
    if !row.terminateRequested then Terminate
    else if !row.pauseRequested then Pause
    else SetRetries(if row.maxRetries == 0 then 1 else 0)
  }

  lemma SpoilerSpoils(cfg: Config, ts: TaskSys, token: Token, drawn: Token, next: TaskId)
    requires TaskOk(cfg, ts, drawn) && Current(ts.rec, token)
    ensures var row, row' := ts.rec.row, TaskStep(cfg, ts, Asking(ts, Spoiler(ts.rec.row)), drawn, next).sys.rec.row;
            && row'.lock == row.lock && Spoiled(row, row')
            && Asked2(row') == Asked2(row) + (if Asked2(row) < 2 then 1 else 0) && (SameRetries(row, row') <==> Asked2(row) < 2)
  {
    AskedRow(cfg, ts, Spoiler(ts.rec.row), token, drawn, next);
    RunningUnpaused(cfg, ts, drawn, token);
    hide TaskOk, TaskStep;
  }

  lemma RunningUnpaused(cfg: Config, ts: TaskSys, drawn: Token, token: Token)
    requires TaskOk(cfg, ts, drawn) && Current(ts.rec, token)
    ensures !ts.rec.row.pauseRequested ==> ts.rec.row.status.Running?
  {
  }

  /** No fewer attempts than EnoughRounds asks for would do: from every start, if the requests not
      made yet and the allowed changes of a retry column are as many as the attempts, they can spoil
      them all, and finish_step gives up while its claim still holds the task. */
  lemma {:induction false} SpoilersSuffice(cfg: Config, ts: TaskSys, token: Token, o: Outcome, n: nat, writes: nat, drawn: Token, next: TaskId)
    returns (gaps: seq<Gap>)
    requires TaskOk(cfg, ts, drawn) && Ending(ts, token, o) && Current(ts.rec, token)
    requires n <= 2 - Asked2(ts.rec.row) + writes
    ensures |gaps| == n && ByOthers(token, gaps) && AllRetryWrites(cfg, ts, gaps, drawn, next) <= writes
    ensures var f := Rounds(cfg, ts, token, o, gaps, drawn, next); f.end.GaveUp? && Current(f.ts.rec, token)
    decreases n
  {
    hide TaskOk, TaskStep, AllRetryWrites, Rounds, Ending, Spoiler, Spoiled, SameRetries;
    if n == 0 {
      RoundsNone(cfg, ts, token, o, drawn, next);
      RetryNone(cfg, ts, drawn, next);
      gaps := [];
    } else {
      var row := ts.rec.row;
      var a := Asking(ts, Spoiler(row));
      SpoilerSpoils(cfg, ts, token, drawn, next);
      var ts2 := TaskStep(cfg, ts, a, drawn, next).sys;
      SpoiledRound(cfg, ts, token, o, a, [], drawn, next);
      var rest := SpoilersSuffice(cfg, ts2, token, o, n - 1, if Asked2(row) < 2 then writes else writes - 1, drawn + 1, next);
      SpoiledRound(cfg, ts, token, o, a, rest, drawn, next);
      gaps := [Nudge(a)] + rest;
      NudgeByOthers(token, a, rest);
    }
  }

  lemma NudgeByOthers(token: Token, a: Action, rest: seq<Gap>)
    requires a.User? && ByOthers(token, rest)
    ensures ByOthers(token, [Nudge(a)] + rest)
  {
  }

  lemma RoundsNone(cfg: Config, ts: TaskSys, token: Token, o: Outcome, drawn: Token, next: TaskId)
    ensures Rounds(cfg, ts, token, o, [], drawn, next) == Finished(ts, GaveUp)
  {
  }
}
