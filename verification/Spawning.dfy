/** Child tasks are created exactly once per key, and exactly with the transition that
    advances their parent. */
module Spawning {
  import opened Models
  import opened Records
  import opened StateMachine
  import opened Worker
  import opened Protocol
  import opened Invariant
  import opened InvariantProof
  import opened Safety

  predicate HasKey(spawns: seq<Spawn>, key: string) {
    exists i :: 0 <= i < |spawns| && spawns[i].key == Some(key)
  }

  predicate Plans(children: seq<Child>, key: string) {
    exists i :: 0 <= i < |children| && children[i].key == Some(key)
  }

  /** The unique index on (parent, key). */
  predicate KeysDistinct(spawns: seq<Spawn>) {
    forall i, j :: 0 <= i < j < |spawns| && spawns[i].key.Some? ==> spawns[i].key != spawns[j].key
  }

  /** The children of a plan that are new to a parent: those without a key, and those whose
      key it has not spawned. */
  function Fresh(spawns: seq<Spawn>, children: seq<Child>): seq<Child> {
    if children == [] then []
    else
      var c := children[|children| - 1];
      Fresh(spawns, children[..|children| - 1]) + if c.key.Some? && HasKey(spawns, c.key.value) then [] else [c]
  }

  predicate DistinctKeys(children: seq<Child>) {
    forall i, j :: 0 <= i < j < |children| && children[i].key.Some? ==> children[i].key != children[j].key
  }

  lemma PlansOneMore(children: seq<Child>, n: nat)
    requires n < |children|
    ensures forall key :: Plans(children[..n + 1], key) <==> Plans(children[..n], key) || children[n].key == Some(key)
  {
    var before, all := children[..n], children[..n + 1];
    forall key ensures Plans(all, key) <==> Plans(before, key) || children[n].key == Some(key) {
      if Plans(before, key) { var i :| 0 <= i < n && before[i].key == Some(key); assert all[i].key == Some(key); }
      if children[n].key == Some(key) { assert all[n].key == Some(key); }
    }
  }

  lemma HasKeyOneMore(spawns: seq<Spawn>, x: Spawn)
    ensures forall key :: HasKey(spawns + [x], key) <==> HasKey(spawns, key) || x.key == Some(key)
  {
    forall key ensures HasKey(spawns + [x], key) <==> HasKey(spawns, key) || x.key == Some(key) {
      if HasKey(spawns, key) { var i :| 0 <= i < |spawns| && spawns[i].key == Some(key); assert (spawns + [x])[i].key == Some(key); }
      if x.key == Some(key) { assert (spawns + [x])[|spawns|].key == Some(key); }
    }
  }

  lemma FindKeyFinds(spawns: seq<Spawn>, key: string)
    ensures FindKey(spawns, key).Some? <==> HasKey(spawns, key)
  {
  }

  predicate RowFor(r: Spawned, base: nat, i: nat, plan: SpawnPlan, next: TaskId)
    requires i < |r.born|
  {
    base + i < |r.spawns| && r.spawns[base + i] == Spawn(next + i, r.born[i].key, plan.step, plan.run)
  }

  /** Running a plan inserts one spawn row per child it creates, with consecutive ids; every
      other child of the plan is reported as existing. */
  lemma {:induction false} SpawnRows(spawns: seq<Spawn>, plan: SpawnPlan, n: nat, next: TaskId)
    requires n <= |plan.children|
    ensures var r := SpawnAll(spawns, plan, n, next);
            && |r.born| + |r.existing| == n
            && |r.spawns| == |spawns| + |r.born| && r.spawns[..|spawns|] == spawns
            && (forall i :: 0 <= i < |r.born| ==> RowFor(r, |spawns|, i, plan, next))
  {
    if n > 0 {
      SpawnRows(spawns, plan, n - 1, next);
      var s, r := SpawnAll(spawns, plan, n - 1, next), SpawnAll(spawns, plan, n, next);
      assert r.spawns[..|spawns|] == s.spawns[..|spawns|];
      forall i | 0 <= i < |r.born| ensures RowFor(r, |spawns|, i, plan, next) {
        if i < |s.born| { assert RowFor(s, |spawns|, i, plan, next); }
      }
    }
  }

  /** The children it creates are exactly the fresh ones, and it leaves one row per key. */
  lemma {:induction false} SpawnsFresh(spawns: seq<Spawn>, plan: SpawnPlan, n: nat, next: TaskId)
    requires n <= |plan.children| && KeysDistinct(spawns) && DistinctKeys(plan.children)
    ensures var r := SpawnAll(spawns, plan, n, next);
            && r.born == Fresh(spawns, plan.children[..n])
            && KeysDistinct(r.spawns)
            && (forall key :: HasKey(r.spawns, key) <==> HasKey(spawns, key) || Plans(plan.children[..n], key))
  {
    hide FindKey, HasKey;
    if n > 0 {
      SpawnsFresh(spawns, plan, n - 1, next);
      var s := SpawnAll(spawns, plan, n - 1, next);
      var c := plan.children[n - 1];
      assert plan.children[..n][..n - 1] == plan.children[..n - 1];
      PlansOneMore(plan.children, n - 1);
      HasKeyOneMore(s.spawns, Spawn(next + |s.born|, c.key, plan.step, plan.run));
      if c.key.Some? {
        assert !Plans(plan.children[..n - 1], c.key.value);
        FindKeyFinds(s.spawns, c.key.value);
      }
      assert c.key.Some? ==> (FindKey(s.spawns, c.key.value).Some? <==> HasKey(spawns, c.key.value));
    }
  }

  // -- over whole runs -----------------------------------------------------------------

  predicate PlannedKey(plans: seq<SpawnPlan>, key: string) {
    exists p :: 0 <= p < |plans| && Plans(plans[p].children, key)
  }

  function Unkeyed(children: seq<Child>): nat {
    if children == [] then 0
    else Unkeyed(children[..|children| - 1]) + if children[|children| - 1].key.None? then 1 else 0
  }

  function UnkeyedInPlans(plans: seq<SpawnPlan>): nat {
    if plans == [] then 0
    else UnkeyedInPlans(plans[..|plans| - 1]) + Unkeyed(plans[|plans| - 1].children)
  }

  function UnkeyedRows(spawns: seq<Spawn>): nat {
    if spawns == [] then 0
    else UnkeyedRows(spawns[..|spawns| - 1]) + if spawns[|spawns| - 1].key.None? then 1 else 0
  }

  /** A parent's spawn rows against the plans its transitions committed: one row per planned
      key, one per planned child without a key, and nothing else. */
  ghost predicate SpawnsOk(ts: TaskSys) {
    && KeysDistinct(ts.rec.spawns)
    && (forall key :: HasKey(ts.rec.spawns, key) <==> PlannedKey(ts.plans, key))
    && UnkeyedRows(ts.rec.spawns) == UnkeyedInPlans(ts.plans)
  }

  /** An action either spawns nothing, or runs one well-formed plan in full. */
  predicate SpawnsPlan(cfg: Config, spawns: seq<Spawn>, e: Effect, next: TaskId) {
    match e.plan
    case None => e.rec.spawns == spawns && e.born == []
    case Some(plan) =>
      && Planned(cfg, plan.children)
      && e.rec.spawns == SpawnAll(spawns, plan, |plan.children|, next).spawns
      && e.born == SpawnAll(spawns, plan, |plan.children|, next).born
  }

  lemma SpawnStep(cfg: Config, ts: TaskSys, a: Action, drawn: Token, next: TaskId)
    requires TaskOk(cfg, ts, drawn) && Enabled(ts, a)
    ensures SpawnsPlan(cfg, ts.rec.spawns, Act(cfg, ts, a, drawn, next), next)
  {
    hide TaskOk, Act, SpawnsPlan;
    if a.Work? { SpawnWork(cfg, ts, a.token, a.inp, drawn, next); } else { SpawnOther(cfg, ts, a, drawn, next); }
  }

  lemma SpawnWork(cfg: Config, ts: TaskSys, token: Token, inp: Input, drawn: Token, next: TaskId)
    requires TaskOk(cfg, ts, drawn) && Enabled(ts, Work(token, inp))
    ensures SpawnsPlan(cfg, ts.rec.spawns, Act(cfg, ts, Work(token, inp), drawn, next), next)
  {
    hide Holder, Current;
    hide RecordOk, PastOk, ReleasedOk, RowOk, SpawnAll, Planned;
    var pc := ts.jobs[token];
    if pc.Finishing? {
      hide FinishRound;
      assert JobOk(cfg, ts, token, pc);
      BoundarySpawn(cfg, ts.rec, token, inp.row, pc.outcome, inp.seenDegraded, inp.now, next);
    } else {
      ProgramWrites(cfg, ts.rec, token, pc, inp, next);
    }
  }

  lemma SpawnOther(cfg: Config, ts: TaskSys, a: Action, drawn: Token, next: TaskId)
    requires Enabled(ts, a) && !a.Work?
    ensures SpawnsPlan(cfg, ts.rec.spawns, Act(cfg, ts, a, drawn, next), next)
  {
    hide SpawnAll, Planned;
    if a.User? {
      hide UserRound;
      UserSpawnsNothing(Steps(cfg, ts.rec.row.workflow), ts.rec, a.snap, a.req, next);
    }
  }

  lemma UserSpawnsNothing(steps: seq<string>, rec: Record, snap: Task, req: Request, next: TaskId)
    ensures After(rec, UserRound(steps, rec, snap, req, next)).spawns == rec.spawns
  {
  }

  lemma BoundarySpawn(cfg: Config, rec: Record, token: Token, read: Task, o: Outcome, seen: bool, now: int, next: TaskId)
    requires Current(rec, token) ==> OutcomeOk(cfg, rec, o)
    ensures var r := FinishRound(Steps(cfg, rec.row.workflow), rec, token, read, o, seen, now, next);
            r.Tried? && r.tx.Committed? ==>
              if ToldSpawn(rec, r.tx.rec) then
                && PlanOf(o).Some? && Planned(cfg, PlanOf(o).value.children)
                && var s := SpawnAll(rec.spawns, PlanOf(o).value, |PlanOf(o).value.children|, next);
                   r.tx.rec.spawns == s.spawns && r.tx.born == s.born
              else r.tx.rec.spawns == rec.spawns && r.tx.born == []
  {
    hide SpawnAll, Planned, ItemOutcomeOk, BoundaryItem, ChangeItem, Steps;
  }

  lemma {:induction false} UnkeyedAdded(spawns: seq<Spawn>, plan: SpawnPlan, n: nat, next: TaskId)
    requires n <= |plan.children|
    ensures UnkeyedRows(SpawnAll(spawns, plan, n, next).spawns) == UnkeyedRows(spawns) + Unkeyed(plan.children[..n])
  {
    if n > 0 {
      UnkeyedAdded(spawns, plan, n - 1, next);
      assert plan.children[..n][..n - 1] == plan.children[..n - 1];
      var s := SpawnAll(spawns, plan, n - 1, next);
      var c := plan.children[n - 1];
      assert (s.spawns + [Spawn(next + |s.born|, c.key, plan.step, plan.run)])[..|s.spawns|] == s.spawns;
    }
  }

  lemma PlannedOneMore(plans: seq<SpawnPlan>, plan: SpawnPlan)
    ensures forall key :: PlannedKey(plans + [plan], key) <==> PlannedKey(plans, key) || Plans(plan.children, key)
    ensures UnkeyedInPlans(plans + [plan]) == UnkeyedInPlans(plans) + Unkeyed(plan.children)
  {
    assert (plans + [plan])[..|plans|] == plans;
    forall key ensures PlannedKey(plans + [plan], key) <==> PlannedKey(plans, key) || Plans(plan.children, key) {
      if PlannedKey(plans, key) { var p :| 0 <= p < |plans| && Plans(plans[p].children, key); assert Plans((plans + [plan])[p].children, key); }
      if Plans(plan.children, key) { assert Plans((plans + [plan])[|plans|].children, key); }
    }
  }

  // -- parents and children ----------------------------------------------------------------

  predicate Lists(rec: Record, child: TaskId) {
    exists i :: 0 <= i < |rec.spawns| && rec.spawns[i].child == child
  }

  /** A parent's spawn rows name live tasks that name it as their parent, each once (ids grow). */
  predicate ParentOk(tasks: map<TaskId, TaskSys>, next: TaskId, p: TaskId)
    requires p in tasks
  {
    var spawns := tasks[p].rec.spawns;
    && (forall i :: 0 <= i < |spawns| ==>
          spawns[i].child in tasks && spawns[i].child < next && tasks[spawns[i].child].rec.row.parent == Some(p))
    && (forall i, j :: 0 <= i < j < |spawns| ==> spawns[i].child < spawns[j].child)
  }

  /** A task with a parent is listed by it. */
  predicate ChildOk(tasks: map<TaskId, TaskSys>, c: TaskId)
    requires c in tasks
  {
    var p := tasks[c].rec.row.parent;
    p.Some? ==> p.value in tasks && Lists(tasks[p.value].rec, c)
  }

  /** A task exists as a child of `p` if and only if a transition of `p` listed it. */
  ghost predicate FamilyOk(s: Sys) {
    forall t :: t in s.tasks ==> ParentOk(s.tasks, s.nextTask, t) && ChildOk(s.tasks, t) && SpawnsOk(s.tasks[t])
  }

  lemma {:induction false} InsertedChild(tasks: map<TaskId, TaskSys>, parent: TaskId, born: seq<Child>, next: TaskId)
    requires forall t :: t in tasks ==> t < next
    ensures var r := Insert(tasks, parent, born, next);
            forall i :: 0 <= i < |born| ==>
              next + i in r && r[next + i] == NewTask(born[i].workflow, born[i].firstStep, born[i].maxRetries, Some(parent))
  {
    if born != [] {
      InsertedChild(tasks, parent, born[..|born| - 1], next);
      InsertApart(tasks, parent, born[..|born| - 1], next);
    }
  }

  /** What one turn on task `t` does to the family: `n` new tasks with parent `t`, listed at the
      end of its spawn rows; nothing else about parents or spawn rows changes. */
  predicate Grew(s: Sys, s': Sys, t: TaskId, n: nat) {
    && t in s.tasks && s'.nextTask == s.nextTask + n
    && (forall u :: u in s.tasks ==>
          && u < s.nextTask && u in s'.tasks && s'.tasks[u].rec.row.parent == s.tasks[u].rec.row.parent
          && (u != t ==> s'.tasks[u].rec.spawns == s.tasks[u].rec.spawns))
    && (forall u :: u in s'.tasks && u !in s.tasks ==>
          s.nextTask <= u < s.nextTask + n && s'.tasks[u].rec.row.parent == Some(t) && s'.tasks[u].rec.spawns == [])
    && (forall u :: s.nextTask <= u < s.nextTask + n ==> u in s'.tasks)
    && var before, after := s.tasks[t].rec.spawns, s'.tasks[t].rec.spawns;
       && |after| == |before| + n && after[..|before|] == before
       && (forall i :: |before| <= i < |after| ==> after[i].child == s.nextTask + i - |before|)
  }

  lemma ParentGrows(s: Sys, s': Sys, t: TaskId, n: nat, u: TaskId)
    requires Grew(s, s', t, n) && u in s'.tasks
    requires forall v :: v in s.tasks ==> ParentOk(s.tasks, s.nextTask, v)
    ensures ParentOk(s'.tasks, s'.nextTask, u)
  {
    if u in s.tasks {
      assert ParentOk(s.tasks, s.nextTask, u);
      var before, after := s.tasks[u].rec.spawns, s'.tasks[u].rec.spawns;
      forall i | 0 <= i < |before| ensures after[i] == before[i] { assert after[..|before|][i] == before[i]; }
    }
  }

  lemma ChildGrows(s: Sys, s': Sys, t: TaskId, n: nat, u: TaskId)
    requires Grew(s, s', t, n) && u in s'.tasks
    requires forall v :: v in s.tasks ==> ChildOk(s.tasks, v)
    ensures ChildOk(s'.tasks, u)
  {
    if u in s.tasks {
      assert ChildOk(s.tasks, u);
      var p := s.tasks[u].rec.row.parent;
      if p.Some? {
        var before, after := s.tasks[p.value].rec.spawns, s'.tasks[p.value].rec.spawns;
        var i :| 0 <= i < |before| && before[i].child == u;
        assert after[..|before|][i] == before[i];
      }
    } else {
      var base := |s.tasks[t].rec.spawns|;
      assert s'.tasks[t].rec.spawns[base + u - s.nextTask].child == u;
    }
  }

  /** The rows an effect spawned, in short. */
  predicate Spawning(before: seq<Spawn>, e: Effect, next: TaskId) {
    match e.plan
    case None => e.rec.spawns == before && e.born == []
    case Some(plan) =>
      && DistinctKeys(plan.children)
      && e.rec.spawns == SpawnAll(before, plan, |plan.children|, next).spawns
      && e.born == SpawnAll(before, plan, |plan.children|, next).born
  }

  lemma NewRows(before: seq<Spawn>, e: Effect, next: TaskId)
    requires Spawning(before, e, next)
    ensures |e.rec.spawns| == |before| + |e.born| && e.rec.spawns[..|before|] == before
    ensures forall i :: |before| <= i < |e.rec.spawns| ==> e.rec.spawns[i].child == next + i - |before|
  {
    if e.plan.Some? {
      var plan := e.plan.value;
      SpawnRows(before, plan, |plan.children|, next);
      forall i | |before| <= i < |e.rec.spawns| ensures e.rec.spawns[i].child == next + i - |before| {
        assert RowFor(SpawnAll(before, plan, |plan.children|, next), |before|, i - |before|, plan, next);
      }
    }
  }

  lemma SpawnsOkEffect(ts: TaskSys, e: Effect, next: TaskId)
    requires SpawnsOk(ts) && Spawning(ts.rec.spawns, e, next)
    ensures SpawnsOk(Recorded(ts, e))
  {
    if e.plan.Some? {
      var plan := e.plan.value;
      SpawnsFresh(ts.rec.spawns, plan, |plan.children|, next);
      UnkeyedAdded(ts.rec.spawns, plan, |plan.children|, next);
      PlannedOneMore(ts.plans, plan);
      assert plan.children[..|plan.children|] == plan.children;
    } else {
      assert Recorded(ts, e).plans == ts.plans;
    }
  }

  /** The tasks after an effect: the acting one rewritten, the children inserted. */
  predicate Grown(tasks: map<TaskId, TaskSys>, tasks': map<TaskId, TaskSys>, t: TaskId, ts': TaskSys, n: nat, next: TaskId) {
    && t in tasks && tasks' != map[]
    && (forall u :: u in tasks ==> u < next && u in tasks' && tasks'[u] == if u == t then ts' else tasks[u])
    && (forall u :: u in tasks' && u !in tasks ==>
          next <= u < next + n && tasks'[u].rec.row.parent == Some(t) && tasks'[u].rec.spawns == [] && tasks'[u].plans == [])
    && (forall u :: next <= u < next + n ==> u in tasks')
  }

  lemma InsertGrows(tasks: map<TaskId, TaskSys>, t: TaskId, ts': TaskSys, born: seq<Child>, next: TaskId)
    requires t in tasks && (forall u :: u in tasks ==> u < next)
    ensures Grown(tasks, Insert(tasks[t := ts'], t, born, next), t, ts', |born|, next)
  {
    var mid := tasks[t := ts'];
    var r := Insert(mid, t, born, next);
    InsertApart(mid, t, born, next);
    InsertedChild(mid, t, born, next);
    assert r[t] == ts';
    forall u | u in r && u !in tasks
      ensures next <= u < next + |born| && r[u].rec.row.parent == Some(t) && r[u].rec.spawns == [] && r[u].plans == []
    {
      assert u !in mid;
      var i := u - next;
      assert r[next + i] == NewTask(born[i].workflow, born[i].firstStep, born[i].maxRetries, Some(t));
    }
  }

  lemma EffectGrows(s: Sys, s': Sys, t: TaskId, ts': TaskSys, n: nat)
    requires Grown(s.tasks, s'.tasks, t, ts', n, s.nextTask) && s'.nextTask == s.nextTask + n
    requires ts'.rec.row.parent == s.tasks[t].rec.row.parent
    requires var before, after := s.tasks[t].rec.spawns, ts'.rec.spawns;
             && |after| == |before| + n && after[..|before|] == before
             && (forall i :: |before| <= i < |after| ==> after[i].child == s.nextTask + i - |before|)
    ensures Grew(s, s', t, n)
  {
  }

  lemma NoSpawnsOk(ts: TaskSys)
    requires ts.rec.spawns == [] && ts.plans == []
    ensures SpawnsOk(ts)
  {
  }

  lemma FamilyEffect(s: Sys, s': Sys, t: TaskId, e: Effect)
    requires FamilyOk(s) && t in s.tasks
    requires Spawning(s.tasks[t].rec.spawns, e, s.nextTask) && e.rec.row.parent == s.tasks[t].rec.row.parent
    requires Grown(s.tasks, s'.tasks, t, Recorded(s.tasks[t], e), |e.born|, s.nextTask) && s'.nextTask == s.nextTask + |e.born|
    ensures FamilyOk(s')
  {
    NewRows(s.tasks[t].rec.spawns, e, s.nextTask);
    EffectGrows(s, s', t, Recorded(s.tasks[t], e), |e.born|);
    forall u | u in s'.tasks ensures ParentOk(s'.tasks, s'.nextTask, u) && ChildOk(s'.tasks, u) && SpawnsOk(s'.tasks[u]) {
      ParentGrows(s, s', t, |e.born|, u);
      ChildGrows(s, s', t, |e.born|, u);
      if u == t { SpawnsOkEffect(s.tasks[t], e, s.nextTask); }
      else if u !in s.tasks { NoSpawnsOk(s'.tasks[u]); }
    }
  }

  lemma EffectSpawns(cfg: Config, ts: TaskSys, a: Action, drawn: Token, next: TaskId)
    requires TaskOk(cfg, ts, drawn) && Enabled(ts, a)
    ensures Spawning(ts.rec.spawns, Act(cfg, ts, a, drawn, next), next)
    ensures Act(cfg, ts, a, drawn, next).rec.row.parent == ts.rec.row.parent
  {
    ActSound(cfg, ts, a, drawn, next);
    SpawnStep(cfg, ts, a, drawn, next);
  }

  lemma FamilyCreate(s: Sys, ts: TaskSys)
    requires FamilyOk(s) && (forall u :: u in s.tasks ==> u < s.nextTask)
    requires ts.rec.spawns == [] && ts.plans == [] && ts.rec.row.parent.None?
    ensures FamilyOk(Sys(s.tasks[s.nextTask := ts], s.nextTask + 1, s.nextToken))
  {
    var s' := Sys(s.tasks[s.nextTask := ts], s.nextTask + 1, s.nextToken);
    forall t | t in s'.tasks ensures ParentOk(s'.tasks, s'.nextTask, t) && ChildOk(s'.tasks, t) && SpawnsOk(s'.tasks[t]) {
      if t in s.tasks { assert ParentOk(s.tasks, s.nextTask, t) && ChildOk(s.tasks, t); }
    }
  }

  lemma FamilyCrash(s: Sys)
    requires FamilyOk(s)
    ensures FamilyOk(s.(tasks := map t | t in s.tasks :: Orphaned(s.tasks[t])))
  {
    var s' := s.(tasks := map t | t in s.tasks :: Orphaned(s.tasks[t]));
    forall t | t in s'.tasks ensures ParentOk(s'.tasks, s'.nextTask, t) && ChildOk(s'.tasks, t) && SpawnsOk(s'.tasks[t]) {
      assert ParentOk(s.tasks, s.nextTask, t) && ChildOk(s.tasks, t) && SpawnsOk(s.tasks[t]);
    }
  }

  lemma FamilyStep(cfg: Config, s: Sys, m: Turn)
    requires SysOk(cfg, s) && FamilyOk(s)
    ensures FamilyOk(Step(cfg, s, m))
  {
    hide Act, Enabled, Recorded, Spawning, Grown, ParentOk, ChildOk, SpawnsOk;
    Below(cfg, s);
    match m
    case Crash => FamilyCrash(s);
    case Create(workflow, maxRetries) =>
      if Steps(cfg, workflow) != [] {
        FamilyCreate(s, NewTask(workflow, Steps(cfg, workflow)[0], maxRetries, None));
      }
    case On(t, a) =>
      if t in s.tasks && Enabled(s.tasks[t], a) {
        var e := Act(cfg, s.tasks[t], a, s.nextToken, s.nextTask);
        EffectSpawns(cfg, s.tasks[t], a, s.nextToken, s.nextTask);
        InsertGrows(s.tasks, t, Recorded(s.tasks[t], e), e.born, s.nextTask);
        FamilyEffect(s, Step(cfg, s, m), t, e);
      } else if t in s.tasks {
        assert Step(cfg, s, m).tasks == s.tasks;
      }
  }

  /** Exactly-once spawning, in every reachable state: one row per key any committed plan of
      the parent named and none besides, as many unkeyed rows as unkeyed planned children, and
      the children that exist are exactly the ones their parents' transitions listed. */
  lemma {:induction false} SpawnedExactlyOnce(cfg: Config, moves: seq<Turn>)
    ensures FamilyOk(Play(cfg, EMPTY, moves))
  {
    if moves != [] {
      var n := |moves| - 1;
      SpawnedExactlyOnce(cfg, moves[..n]);
      Reachable(cfg, moves[..n]);
      FamilyStep(cfg, Play(cfg, EMPTY, moves[..n]), moves[n]);
    }
  }

  /** A child starts queued on its workflow's first step, with the retries its plan gave it, its
      parent's name, and no history of its own. */
  predicate StartsAs(cfg: Config, child: TaskSys, c: Child, parent: TaskId) {
    var row := child.rec.row;
    && row.workflow == c.workflow && row.maxRetries == c.maxRetries && row.parent == Some(parent)
    && Steps(cfg, row.workflow) != [] && row.step == Steps(cfg, row.workflow)[0]
    && row.status.Queued? && row.retryCount == 0 && row.nextRetryAt.None? && row.lock == UNLOCKED && row.grant.NoGrant?
    && child.rec.items == [] && child.rec.runs == [] && child.rec.spawns == [] && child.jobs == map[]
  }

  predicate ChildrenAre(cfg: Config, tasks: map<TaskId, TaskSys>, born: seq<Child>, parent: TaskId, next: TaskId) {
    forall c: TaskId {:trigger c in tasks} :: next <= c < next + |born| ==> c in tasks && StartsAs(cfg, tasks[c], born[c - next], parent)
  }

  lemma ChildrenStart(cfg: Config, s: Sys, t: TaskId, a: Action)
    requires SysOk(cfg, s) && t in s.tasks
    ensures ChildrenAre(cfg, Step(cfg, s, On(t, a)).tasks, TaskStep(cfg, s.tasks[t], a, s.nextToken, s.nextTask).born, t, s.nextTask)
  {
    Below(cfg, s);
    At(cfg, s, t);
    BornFrom(cfg, s.tasks[t], a, s.nextToken, s.nextTask);
    hide *;
    ChildrenInserted(cfg, s, t, TaskStep(cfg, s.tasks[t], a, s.nextToken, s.nextTask));
    OnStep(cfg, s, t, a);
  }

  lemma OnStep(cfg: Config, s: Sys, t: TaskId, a: Action)
    requires t in s.tasks
    ensures var e := TaskStep(cfg, s.tasks[t], a, s.nextToken, s.nextTask);
            Step(cfg, s, On(t, a)).tasks == Insert(s.tasks[t := e.sys], t, e.born, s.nextTask)
  {
    hide TaskStep, Insert;
  }

  lemma ChildInserted(cfg: Config, tasks: map<TaskId, TaskSys>, parent: TaskId, born: seq<Child>, next: TaskId, i: nat)
    requires (forall u :: u in tasks ==> u < next) && i < |born| && FirstStepOf(cfg, born[i])
    ensures next + i in Insert(tasks, parent, born, next) && StartsAs(cfg, Insert(tasks, parent, born, next)[next + i], born[i], parent)
  {
    hide StartsAs, FirstStepOf, NewTask, Insert;
    InsertedChild(tasks, parent, born, next);
    NewStarts(cfg, born[i], parent);
  }

  lemma ChildrenInserted(cfg: Config, s: Sys, t: TaskId, e: Stepped)
    requires t in s.tasks && (forall u :: u in s.tasks ==> u < s.nextTask)
    requires forall i :: 0 <= i < |e.born| ==> FirstStepOf(cfg, e.born[i])
    ensures ChildrenAre(cfg, Insert(s.tasks[t := e.sys], t, e.born, s.nextTask), e.born, t, s.nextTask)
  {
    hide StartsAs, FirstStepOf, Insert;
    var tasks := s.tasks[t := e.sys];
    forall c: TaskId | s.nextTask <= c < s.nextTask + |e.born|
      ensures c in Insert(tasks, t, e.born, s.nextTask) && StartsAs(cfg, Insert(tasks, t, e.born, s.nextTask)[c], e.born[c - s.nextTask], t)
    {
      ChildInserted(cfg, tasks, t, e.born, s.nextTask, c - s.nextTask);
    }
  }

  lemma NewStarts(cfg: Config, c: Child, parent: TaskId)
    requires FirstStepOf(cfg, c)
    ensures StartsAs(cfg, NewTask(c.workflow, c.firstStep, c.maxRetries, Some(parent)), c, parent)
  {
  }
}
