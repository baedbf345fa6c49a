/** The store: rows changed in place, one transaction per method. Each method is proved against the
    function of module Records that the protocol's steps are made of; a transition whose hook
    raises leaves every row as it was. */
module Stores {
  import opened Models
  import opened Records
  import opened StateMachine
  import opened Worker
  import opened Protocol

  // -- what a transaction leaves, as a function -------------------------------------------------

  function NewRecord(c: Child, parent: TaskId): Record {
    NewTask(c.workflow, c.firstStep, c.maxRetries, Some(parent)).rec
  }

  /** The rows with the children of one transition inserted; their ids are consecutive. */
  function WithBorn(tasks: map<TaskId, Record>, parent: TaskId, born: seq<Child>, next: TaskId): map<TaskId, Record> {
    if born == [] then tasks
    else
      var n := |born| - 1;
      WithBorn(tasks, parent, born[..n], next)[next + n := NewRecord(born[n], parent)]
  }

  /** The rows after a transaction on task `t`. */
  function Applied(tasks: map<TaskId, Record>, t: TaskId, tx: Tx, next: TaskId): map<TaskId, Record> {
    if tx.Committed? then WithBorn(tasks[t := tx.rec], t, tx.born, next) else tasks
  }

  function BornBy(tx: Tx): nat {
    if tx.Committed? then |tx.born| else 0
  }

  /** The rows of a system, without the bookkeeping about its workers and its past. */
  function Rows(tasks: map<TaskId, TaskSys>): map<TaskId, Record> {
    map t | t in tasks :: tasks[t].rec
  }

  lemma {:induction false} RowsInsert(tasks: map<TaskId, TaskSys>, parent: TaskId, born: seq<Child>, next: TaskId)
    ensures Rows(Insert(tasks, parent, born, next)) == WithBorn(Rows(tasks), parent, born, next)
  {
    if born != [] { RowsInsert(tasks, parent, born[..|born| - 1], next); }
  }

  /** Every step of the protocol is one transaction of the store. */
  lemma {:induction false} StepIsTransaction(cfg: Config, s: Sys, t: TaskId, a: Action)
    requires t in s.tasks && Enabled(s.tasks[t], a)
    ensures var e := Act(cfg, s.tasks[t], a, s.nextToken, s.nextTask);
            var s' := Step(cfg, s, On(t, a));
            && Rows(s'.tasks) == Applied(Rows(s.tasks), t, Committed(e.rec, e.born), s.nextTask)
            && s'.nextTask == s.nextTask + |e.born|
  {
    hide Act;
    var e := Act(cfg, s.tasks[t], a, s.nextToken, s.nextTask);
    var ts := Recorded(s.tasks[t], e);
    RowsInsert(s.tasks[t := ts], t, e.born, s.nextTask);
    assert Rows(s.tasks[t := ts]) == Rows(s.tasks)[t := e.rec];
  }

  // -- claims --------------------------------------------------------------------------------------

  /** Of two claimants of a queued task exactly one wins. */
  lemma OneClaimWins(rec: Record, worker: string, worker': string, now: int, now': int, token: Token, token': Token, e: Event, e': Event)
    ensures var first := ClaimQueued(rec, worker, now, token, e);
            && (first.Some? <==> rec.row.status.Queued? && !rec.row.terminateRequested)
            && (first.Some? ==> Holder(first.value.row, token) && ClaimQueued(first.value, worker', now', token', e').None?)
  {
  }

  /** Of two clients claiming a work item exactly one wins, and only the winner's token submits it. */
  lemma OneClientWins(rec: Record, i: ItemId, client: Token, other: Token)
    requires ClaimItem(rec, i, client) != rec
    ensures var first := ClaimItem(rec, i, client);
            && ClaimItem(first, i, other) == first
            && (ChangeItem(first.items, "", SubmitItem(i, other)).Some? <==> other == client)
  {
    assert |ClaimItem(rec, i, client).items| == |rec.items|;
  }

  /** At most one item is open, claimed or submitted. */
  predicate OneActive(items: seq<Item>) {
    forall i, j :: 0 <= i < j < |items| && Active(items[i].status) ==> !Active(items[j].status)
  }

  // -- the spawner's loop, as steps of a fold --------------------------------------------------------

  predicate BelowNext(tasks: map<TaskId, Record>, next: TaskId) {
    forall t {:trigger t in tasks} :: t in tasks ==> t < next
  }

  /** The parent's row written after some children were inserted, or before: the same rows. */
  lemma {:induction false} ParentFirst(tasks: map<TaskId, Record>, parent: TaskId, rec: Record, born: seq<Child>, next: TaskId)
    requires parent < next
    ensures WithBorn(tasks, parent, born, next)[parent := rec] == WithBorn(tasks[parent := rec], parent, born, next)
  {
    if born != [] { ParentFirst(tasks, parent, rec, born[..|born| - 1], next); }
  }

  lemma {:induction false} ParentThere(tasks: map<TaskId, Record>, parent: TaskId, born: seq<Child>, next: TaskId)
    requires parent in tasks && parent < next
    ensures parent in WithBorn(tasks, parent, born, next) && WithBorn(tasks, parent, born, next)[parent] == tasks[parent]
    ensures BelowNext(tasks, next) ==> BelowNext(WithBorn(tasks, parent, born, next), next + |born|)
  {
    if born != [] { ParentThere(tasks, parent, born[..|born| - 1], next); }
  }

  /** The parent with the spawn rows made so far. */
  function SpawnedRows(before: map<TaskId, Record>, parent: TaskId, s: Spawned): map<TaskId, Record>
    requires parent in before
  {
    before[parent := before[parent].(spawns := s.spawns)]
  }

  /** The first `i` children of a plan are done. */
  ghost predicate Midway(tasks: map<TaskId, Record>, nextTask: TaskId, before: map<TaskId, Record>, parent: TaskId,
                         plan: SpawnPlan, i: nat, next: TaskId)
    requires parent in before && i <= |plan.children|
  {
    var s := SpawnAll(before[parent].spawns, plan, i, next);
    tasks == WithBorn(SpawnedRows(before, parent, s), parent, s.born, next) && nextTask == next + |s.born|
  }

  /** What the spawner did, against the function. */
  ghost predicate SpawnDone(before: map<TaskId, Record>, next: TaskId, parent: TaskId, plan: SpawnPlan,
                            tasks: map<TaskId, Record>, nextTask: TaskId)
    requires parent in before
  {
    var rec := before[parent];
    var s := SpawnAll(rec.spawns, plan, |plan.children|, next);
    var told := Event(ChildrenSpawned(Ids(|s.born|, next), s.existing), plan.step);
    && tasks == WithBorn(before[parent := rec.(spawns := s.spawns, events := rec.events + [told])], parent, s.born, next)
    && nextTask == next + |s.born|
  }

  /** How child `i` was dealt with. */
  ghost predicate Told(spawns: seq<Spawn>, plan: SpawnPlan, i: nat, next: TaskId, created: Option<TaskId>, existing: Option<TaskId>)
    requires i < |plan.children|
  {
    var s := SpawnAll(spawns, plan, i, next);
    var key := plan.children[i].key;
    && existing == (if key.Some? then FindKey(s.spawns, key.value) else None)
    && created == if existing.Some? then None else Some(next + |s.born|)
  }

  lemma SpawnNext(spawns: seq<Spawn>, plan: SpawnPlan, i: nat, next: TaskId)
    requires i < |plan.children|
    ensures var s := SpawnAll(spawns, plan, i, next);
            var c := plan.children[i];
            var found := if c.key.Some? then FindKey(s.spawns, c.key.value) else None;
            SpawnAll(spawns, plan, i + 1, next) ==
              if found.Some? then s.(existing := s.existing + [found.value])
              else Spawned(s.spawns + [Spawn(next + |s.born|, c.key, plan.step, plan.run)], s.born + [c], s.existing)
  {
  }

  lemma ToldNext(spawns: seq<Spawn>, plan: SpawnPlan, i: nat, next: TaskId, created: Option<TaskId>, existing: Option<TaskId>)
    requires i < |plan.children| && Told(spawns, plan, i, next, created, existing)
    ensures var s, s' := SpawnAll(spawns, plan, i, next), SpawnAll(spawns, plan, i + 1, next);
            && (existing.None? ==> created.Some? && Ids(|s'.born|, next) == Ids(|s.born|, next) + [created.value] && s'.existing == s.existing)
            && (existing.Some? ==> Ids(|s'.born|, next) == Ids(|s.born|, next) && s'.existing == s.existing + [existing.value])
  {
    SpawnNext(spawns, plan, i, next);
  }

  lemma OneBorn(tasks: map<TaskId, Record>, parent: TaskId, born: seq<Child>, child: Child, next: TaskId)
    ensures WithBorn(tasks, parent, born + [child], next) == WithBorn(tasks, parent, born, next)[next + |born| := NewRecord(child, parent)]
  {
    assert (born + [child])[..|born|] == born;
  }

  lemma MidwayStart(before: map<TaskId, Record>, parent: TaskId, plan: SpawnPlan, next: TaskId)
    requires parent in before
    ensures Midway(before, next, before, parent, plan, 0, next)
    ensures SpawnAll(before[parent].spawns, plan, 0, next) == Spawned(before[parent].spawns, [], [])
  {
    assert before[parent := before[parent].(spawns := before[parent].spawns)] == before;
  }

  lemma MidwayEnd(tasks: map<TaskId, Record>, nextTask: TaskId, before: map<TaskId, Record>, parent: TaskId, plan: SpawnPlan, next: TaskId)
    requires parent in before && parent < next && Midway(tasks, nextTask, before, parent, plan, |plan.children|, next)
    ensures parent in tasks
    ensures var s := SpawnAll(before[parent].spawns, plan, |plan.children|, next);
            var told := Event(ChildrenSpawned(Ids(|s.born|, next), s.existing), plan.step);
            SpawnDone(before, next, parent, plan, tasks[parent := tasks[parent].(events := tasks[parent].events + [told])], nextTask)
  {
    var rec := before[parent];
    var s := SpawnAll(rec.spawns, plan, |plan.children|, next);
    var told := Event(ChildrenSpawned(Ids(|s.born|, next), s.existing), plan.step);
    var start := SpawnedRows(before, parent, s);
    ParentThere(start, parent, s.born, next);
    hide SpawnAll, WithBorn;
    var written := rec.(spawns := s.spawns, events := rec.events + [told]);
    ParentFirst(start, parent, written, s.born, next);
    assert start[parent := written] == before[parent := written];
  }

  lemma Overwritten(tasks: map<TaskId, Record>, t: TaskId, first: Record, second: Record)
    ensures var mid: map<TaskId, Record> := tasks[t := first]; mid[t := second] == tasks[t := second]
  {
  }

  lemma SpawnedInto(begun: map<TaskId, Record>, t: TaskId, rec: Record, plan: SpawnPlan, tasks: map<TaskId, Record>, next: TaskId, nextTask: TaskId)
    requires SpawnDone(begun[t := rec], next, t, plan, tasks, nextTask)
    ensures var s := SpawnAll(rec.spawns, plan, |plan.children|, next);
            var told := Event(ChildrenSpawned(Ids(|s.born|, next), s.existing), plan.step);
            && tasks == WithBorn(begun[t := rec.(spawns := s.spawns, events := rec.events + [told])], t, s.born, next)
            && nextTask == next + |s.born|
  {
    hide SpawnAll, WithBorn;
    var s := SpawnAll(rec.spawns, plan, |plan.children|, next);
    var told := Event(ChildrenSpawned(Ids(|s.born|, next), s.existing), plan.step);
    var written := rec.(spawns := s.spawns, events := rec.events + [told]);
    Overwritten(begun, t, rec, written);
  }

  class Store {
    var tasks: map<TaskId, Record>
    var nextTask: TaskId

    ghost predicate Valid()
      reads this
    {
      BelowNext(tasks, nextTask)
    }

    constructor ()
      ensures Valid() && tasks == map[] && nextTask == 0
    {
      tasks, nextTask := map[], 0;
    }

    /** One child: found under its key, or inserted with its spawn row. */
    method SpawnOne(parent: TaskId, plan: SpawnPlan, i: nat, ghost before: map<TaskId, Record>, ghost next: TaskId)
      returns (created: Option<TaskId>, existing: Option<TaskId>)
      requires Valid() && parent in before && parent < next && i < |plan.children|
      requires Midway(tasks, nextTask, before, parent, plan, i, next)
      modifies this
      ensures Valid() && Midway(tasks, nextTask, before, parent, plan, i + 1, next)
      ensures Told(before[parent].spawns, plan, i, next, created, existing)
    {
      hide SpawnAll, WithBorn;
      ghost var was := SpawnAll(before[parent].spawns, plan, i, next);
      ghost var start := SpawnedRows(before, parent, was);
      ParentThere(start, parent, was.born, next);
      SpawnNext(before[parent].spawns, plan, i, next);
      var child := plan.children[i];
      created := None;
      existing := if child.key.Some? then FindKey(tasks[parent].spawns, child.key.value) else None;
      if existing.Some? { return; }
      var id := nextTask;
      var rec := tasks[parent].(spawns := tasks[parent].spawns + [Spawn(id, child.key, plan.step, plan.run)]);
      tasks := tasks[id := NewRecord(child, parent)];
      OneBorn(start, parent, was.born, child, next);
      ParentFirst(start, parent, rec, was.born + [child], next);
      tasks := tasks[parent := rec];
      nextTask := id + 1;
      created := Some(id);
      assert start[parent := rec] == SpawnedRows(before, parent, SpawnAll(before[parent].spawns, plan, i + 1, next));
    }

    /** spawner: the children of a plan, one by one; a key the parent has spawned is not spawned
        again. */
    method Spawner(parent: TaskId, plan: SpawnPlan)
      requires Valid() && parent in tasks
      modifies this
      ensures Valid()
      ensures SpawnDone(old(tasks), old(nextTask), parent, plan, tasks, nextTask)
    {
      hide SpawnAll, WithBorn, Midway, Told;
      var created: seq<TaskId>, existing: seq<TaskId> := [], [];
      ghost var before, next := tasks, nextTask;
      MidwayStart(before, parent, plan, next);
      for i := 0 to |plan.children|
        invariant Valid() && Midway(tasks, nextTask, before, parent, plan, i, next)
        invariant created == Ids(|SpawnAll(before[parent].spawns, plan, i, next).born|, next)
        invariant existing == SpawnAll(before[parent].spawns, plan, i, next).existing
      {
        var made, found := SpawnOne(parent, plan, i, before, next);
        ToldNext(before[parent].spawns, plan, i, next, made, found);
        if found.Some? {
          existing := existing + [found.value];
        } else {
          created := created + [made.value];
        }
      }
      MidwayEnd(tasks, nextTask, before, parent, plan, next);
      tasks := tasks[parent := tasks[parent].(events := tasks[parent].events + [Event(ChildrenSpawned(created, existing), plan.step)])];
    }

    /** opener, submitter and closer: the work item that changes with a transition. A task never gets
        a second active item: opening one is refused exactly while there is one. */
    method ItemHook(t: TaskId, step: string, change: ItemChange) returns (ok: bool)
      requires Valid() && t in tasks
      modifies this`tasks
      ensures Valid()
      ensures var items := ChangeItem(old(tasks[t].items), step, change);
              && ok == items.Some?
              && tasks == if ok then old(tasks)[t := old(tasks[t]).(items := items.value)] else old(tasks)
      ensures change.OpenItem? ==> (ok <==> forall i :: 0 <= i < |old(tasks[t]).items| ==> !Active(old(tasks[t]).items[i].status))
      ensures OneActive(old(tasks[t]).items) ==> OneActive(tasks[t].items)
    {
      var items := tasks[t].items;
      match change {
        case NoItem =>
        case OpenItem(attempt, max, previous) =>
          if ActiveItem(items).Some? { return false; }   // the unique index
          items := items + [Item(step, attempt, max, Open, None, None, previous, None)];
        case SubmitItem(i, token) =>
          if i >= |items| || !items[i].status.Claimed? || items[i].claim != Some(token) { return false; }
          items := items[i := items[i].(status := Submitted)];
        case CloseItem(i, status, error, run) =>
          if i >= |items| || !items[i].status.Submitted? { return false; }
          items := items[i := items[i].(status := status, error := error, run := Some(run))];
      }
      tasks := tasks[t := tasks[t].(items := items)];
      ok := true;
    }

    /** The hooks of a transition, chained: the item, the cancelling of items left behind, the
        result of a spawning step, its children. */
    method Hooks(t: TaskId, step: string, also: Also) returns (ok: bool)
      requires Valid() && t in tasks
      modifies this
      ensures Valid()
      ensures var tx := RunHooks(old(tasks[t]), step, also, old(nextTask));
              && ok == tx.Committed? && (tx.Committed? || tx.Raised?)
              && tasks == Applied(old(tasks), t, tx, old(nextTask)) && nextTask == old(nextTask) + BornBy(tx)
    {
      hide SpawnAll, PutUpdates, Cancelling, ChangeItem, CloseOpenRun, SpawnDone;
      ghost var begun := tasks;
      ok := ItemHook(t, step, also.item);
      if !ok { return; }
      tasks := tasks[t := tasks[t].(items := Cancelling(tasks[t].items, also.cancel))];
      if also.plan.Some? {
        var plan := also.plan.value;
        tasks := tasks[t := tasks[t].(row := PutUpdates(tasks[t].row, plan.updates),
                                      runs := CloseOpenRun(tasks[t].runs, plan.run, plan.runStatus))];
      }
      ghost var rec := tasks[t];
      assert tasks == begun[t := rec];
      if also.plan.Some? && also.spawn {
        Spawner(t, also.plan.value);
        SpawnedInto(begun, t, rec, also.plan.value, tasks, old(nextTask), nextTask);
      }
    }

    /** transition: compare-and-set a task row, record the events, run the hooks; if a hook raises,
        everything the transaction wrote is rolled back. */
    method Transition(t: TaskId, from: Status, q: Require, p: Patch, events: seq<Event>, step: string, also: Also)
      returns (applied: bool, raised: bool)
      requires Valid() && t in tasks
      modifies this
      ensures Valid()
      ensures var tx := Records.Transition(old(tasks[t]), from, q, p, events, step, also, old(nextTask));
              && applied == tx.Committed? && raised == tx.Raised?
              && tasks == Applied(old(tasks), t, tx, old(nextTask)) && nextTask == old(nextTask) + BornBy(tx)
    {
      hide Put, Holds, RunHooks, WithBorn;
      var begun, row := tasks, tasks[t].row;
      if row.status != from || !Holds(row, q) { return false, false; }
      var rec := tasks[t].(row := Put(row, p), events := tasks[t].events + events);
      tasks := tasks[t := rec];
      ghost var tx := RunHooks(rec, step, also, nextTask);
      applied := Hooks(t, step, also);
      raised := !applied;
      if raised { tasks := begun; }
      else { Overwritten(begun, t, rec, tx.rec); }
    }

    /** claim_queued */
    method Claim(t: TaskId, worker: string, now: int, token: Token, event: Event) returns (won: bool)
      requires Valid() && t in tasks
      modifies this`tasks
      ensures Valid()
      ensures var claimed := ClaimQueued(old(tasks[t]), worker, now, token, event);
              && won == claimed.Some?
              && tasks == if won then old(tasks)[t := claimed.value] else old(tasks)
      ensures won ==> forall k :: Holder(tasks[t].row, k) <==> k == token
    {
      var rec := tasks[t];
      if rec.row.status != Queued || rec.row.terminateRequested { return false; }
      var row := rec.row.(status := Running, lock := Lock(Some(worker), Some(now), Some(now), Some(token)), nextRetryAt := None);
      tasks := tasks[t := rec.(row := row)];
      tasks := tasks[t := tasks[t].(events := tasks[t].events + [event])];
      won := true;
    }

    /** update_fields; given a token, only for the claim that holds the task. */
    method Write(t: TaskId, updates: Updates, token: Option<Token>) returns (wrote: bool)
      requires Valid() && t in tasks
      modifies this`tasks
      ensures Valid() && tasks == old(tasks)[t := UpdateFields(old(tasks[t]), updates, token)]
      ensures wrote <==> token.Some? ==> old(tasks[t]).row.lock.token == token
    {
      var row := tasks[t].row;
      if token.Some? && row.lock.token != token {
        assert tasks == tasks[t := tasks[t]];
        return false;
      }
      if updates.maxRetries.Set? { row := row.(maxRetries := updates.maxRetries.value); }
      if updates.progress.Set? { row := row.(progress := updates.progress.value); }
      tasks := tasks[t := tasks[t].(row := row)];
      wrote := true;
    }

    /** StepRunLog.start: the new run is the task's newest, and open. */
    method Start(t: TaskId, step: string) returns (run: RunId)
      requires Valid() && t in tasks
      modifies this`tasks
      ensures Valid() && tasks == old(tasks)[t := StartRun(old(tasks[t]), step)]
      ensures run == |old(tasks[t]).runs| && run < |tasks[t].runs| && tasks[t].runs[run] == Run(step, RunOpen)
    {
      run := |tasks[t].runs|;
      tasks := tasks[t := tasks[t].(runs := tasks[t].runs + [Run(step, RunOpen)])];
    }

    /** StepRunLog.finish: whoever knows the run writes it. */
    method End(t: TaskId, run: RunId, status: RunStatus)
      requires Valid() && t in tasks
      modifies this`tasks
      ensures Valid() && tasks == old(tasks)[t := FinishRun(old(tasks[t]), run, status)]
      ensures forall i :: 0 <= i < |old(tasks[t]).runs| && i != run ==> tasks[t].runs[i] == old(tasks[t]).runs[i]
    {
      var runs := tasks[t].runs;
      if run < |runs| { runs := runs[run := runs[run].(status := status)]; }
      tasks := tasks[t := tasks[t].(runs := runs)];
    }

    /** StepRunLog.close_running_for_task: no run is left open. */
    method CloseAll(t: TaskId) returns (closed: nat)
      requires Valid() && t in tasks
      modifies this`tasks
      ensures Valid() && tasks == old(tasks)[t := old(tasks[t]).(runs := CloseRuns(old(tasks[t]).runs))]
      ensures forall i :: 0 <= i < |tasks[t].runs| ==> !tasks[t].runs[i].status.RunOpen?
      ensures closed == 0 <==> tasks == old(tasks)
    {
      var runs := tasks[t].runs;
      closed := 0;
      ghost var was := runs;
      for i := 0 to |runs|
        invariant |runs| == |was| && tasks == old(tasks)
        invariant forall j :: 0 <= j < i ==> runs[j] == CloseRuns(was)[j]
        invariant forall j :: i <= j < |was| ==> runs[j] == was[j]
        invariant closed == 0 <==> runs == was
      {
        if runs[i].status.RunOpen? {
          runs := runs[i := runs[i].(status := RunInterrupted)];
          closed := closed + 1;
          assert runs[i] != was[i];
        }
      }
      assert runs == CloseRuns(was);
      if closed == 0 { assert tasks == tasks[t := tasks[t].(runs := runs)]; }
      tasks := tasks[t := tasks[t].(runs := runs)];
    }

    /** heartbeat */
    method Beat(t: TaskId, now: int, progress: Write<Option<string>>, token: Token) returns (wrote: bool)
      requires Valid() && t in tasks
      modifies this`tasks
      ensures Valid() && wrote == Holder(old(tasks[t]).row, token)
      ensures tasks == old(tasks)[t := Heartbeat(old(tasks[t]), now, progress, token)]
    {
      var row := tasks[t].row;
      if !Executing(row.status) || row.lock.token != Some(token) {
        assert tasks == tasks[t := tasks[t]];
        return false;
      }
      row := row.(lock := row.lock.(heartbeat := Some(now)));
      if progress.Set? { row := row.(progress := progress.value); }
      tasks := tasks[t := tasks[t].(row := row)];
      wrote := true;
    }

    /** WorkItems.claim */
    method TakeItem(t: TaskId, i: ItemId, client: Token) returns (won: bool)
      requires Valid() && t in tasks
      modifies this`tasks
      ensures Valid() && tasks == old(tasks)[t := ClaimItem(old(tasks[t]), i, client)]
      ensures won <==> ClaimItem(old(tasks[t]), i, client) != old(tasks[t])
    {
      var rec := tasks[t];
      if i >= |rec.items| || !rec.items[i].status.Open? || !rec.row.status.AwaitingExternal? {
        assert tasks == tasks[t := rec];
        return false;
      }
      var item := rec.items[i].(status := Claimed, claim := Some(client));
      assert item != rec.items[i] && rec.items[i := item][i] == item;
      tasks := tasks[t := rec.(items := rec.items[i := item], events := rec.events + [Event(ItemClaimed, item.step)])];
      won := true;
    }

    /** WorkItems.release */
    method GiveItem(t: TaskId, i: ItemId, holder: Option<Token>) returns (freed: bool)
      requires Valid() && t in tasks
      modifies this`tasks
      ensures Valid() && tasks == old(tasks)[t := ReleaseItem(old(tasks[t]), i, holder)]
      ensures freed <==> ReleaseItem(old(tasks[t]), i, holder) != old(tasks[t])
    {
      var rec := tasks[t];
      if i >= |rec.items| || !rec.items[i].status.Claimed? || (holder.Some? && rec.items[i].claim != holder) {
        assert tasks == tasks[t := rec];
        return false;
      }
      var item := rec.items[i].(status := Open, claim := None);
      assert item != rec.items[i] && rec.items[i := item][i] == item;
      tasks := tasks[t := rec.(items := rec.items[i := item], events := rec.events + [Event(ItemReleased, item.step)])];
      freed := true;
    }
  }

  // -- step runs ---------------------------------------------------------------------------------

  /** has_degraded: the latest status of every step, gathered in one pass. */
  method AnyDegraded(runs: seq<Run>) returns (degraded: bool)
    ensures degraded <==> HasDegraded(runs)
  {
    var latest: map<string, RunStatus> := map[];
    ghost var at: map<string, nat> := map[];
    for i := 0 to |runs|
      invariant latest.Keys == at.Keys
      invariant forall j :: 0 <= j < i ==> runs[j].step in at && j <= at[runs[j].step]
      invariant forall s {:trigger at[s]} :: s in at ==> at[s] < i && runs[at[s]].step == s && latest[s] == runs[at[s]].status
    {
      latest := latest[runs[i].step := runs[i].status];
      at := at[runs[i].step := i];
    }
    forall k | 0 <= k < |runs| ensures LastOfStep(runs, k) <==> at[runs[k].step] == k {
      if at[runs[k].step] != k { assert runs[at[runs[k].step]].step == runs[k].step; }
    }
    degraded := exists s :: s in latest && latest[s].RunDegraded?;
    if degraded {
      ghost var s :| s in latest && latest[s].RunDegraded?;
      assert LastOfStep(runs, at[s]);
    }
  }

  // -- spawn requests ------------------------------------------------------------------------------

  /** A child as a step asks for it. `wellFormed` stands for the checks of its texts and metadata. */
  datatype ChildTask = ChildTask(wellFormed: bool, workflow: string, key: Option<string>)

  predicate Acceptable(cfg: Config, spawn: seq<ChildTask>, i: nat)
    requires i < |spawn|
  {
    && spawn[i].wellFormed && Steps(cfg, spawn[i].workflow) != [] && spawn[i].key != Some("")
    && (spawn[i].key.Some? ==> forall j :: 0 <= j < i ==> spawn[j].key != spawn[i].key)
  }

  predicate ChildOf(cfg: Config, c: Child, asked: ChildTask, retries: int) {
    && c.workflow == asked.workflow && c.key == asked.key && c.maxRetries == retries
    && Steps(cfg, c.workflow) != [] && c.firstStep == Steps(cfg, c.workflow)[0]
  }

  /** plan_children: every child checked, in order; any problem refuses them all. */
  method PlanChildren(cfg: Config, spawn: seq<ChildTask>, retries: int) returns (plan: Option<seq<Child>>)
    ensures plan.Some? <==> forall i :: 0 <= i < |spawn| ==> Acceptable(cfg, spawn, i)
    ensures plan.Some? ==> Planned(cfg, plan.value) && |plan.value| == |spawn|
    ensures plan.Some? ==> forall i :: 0 <= i < |spawn| ==> ChildOf(cfg, plan.value[i], spawn[i], retries)
  {
    var planned: seq<Child> := [];
    var keys: set<string> := {};
    for i := 0 to |spawn|
      invariant |planned| == i && forall j :: 0 <= j < i ==> ChildOf(cfg, planned[j], spawn[j], retries)
      invariant forall j :: 0 <= j < i ==> Acceptable(cfg, spawn, j)
      invariant forall k :: k in keys <==> exists j :: 0 <= j < i && spawn[j].key == Some(k)
    {
      var child := spawn[i];
      if !child.wellFormed || Steps(cfg, child.workflow) == [] { assert !Acceptable(cfg, spawn, i); return None; }
      if child.key.Some? {
        if child.key.value == "" || child.key.value in keys { assert !Acceptable(cfg, spawn, i); return None; }
        keys := keys + {child.key.value};
      }
      planned := planned + [Child(child.workflow, Steps(cfg, child.workflow)[0], retries, child.key)];
    }
    plan := Some(planned);
    forall i, j | 0 <= i < j < |planned| && planned[i].key.Some? ensures planned[i].key != planned[j].key {
      assert ChildOf(cfg, planned[i], spawn[i], retries) && ChildOf(cfg, planned[j], spawn[j], retries) && Acceptable(cfg, spawn, j);
    }
  }
}
