/** The proof steps of the kernel's operations, one operation after another. */
module KernelProof {
  import opened Models
  import opened KernelState
  import opened KernelSteps
  import opened KernelFrames
  import opened KernelGrowth
  import opened KernelRollback
  import opened KernelCalls

  // -- proof steps of Unload ----------------------------------------------------------------------

  /** Unload may be called: for a loaded fiber, nothing below it is being unloaded already. */
  ghost predicate Unloadable(c: Ctx, k: State, busy: set<Id>, f: Id) {
    && c.Down? && Ready(c, k) && BusyBut(c, k, busy, {f}) && StaleBut(k, c.others + {f})
    && f in k.fibers && f != ROOT && (Active(k, f) ==> f in c.zone && FreeBelow(k, f) && AboveAll(k, f))
  }

  ghost predicate Unloaded(c: Ctx, k: State, k': State, busy: set<Id>, f: Id, log: seq<Entry>, mark: nat, log': seq<Entry>) {
    && c.Down? && Ready(c, k') && BusyBut(c, k', busy, {f}) && StaleBut(k', c.others)
    && Shrunk(k, k', c.zone, {}) && NoNewLoads(k, k', {f}) && Logged(k, k', log, log', {}) && |Actives(k')| <= |Actives(k)|
    && f in k.fibers && f in k'.fibers && !Active(k', f)
    && (Active(k, f) ==>
          k'.fibers[f] == Blank(k.fibers[f]) && |Actives(k')| < |Actives(k)| && UndoneInOrder(k, log, mark, log', f))
    && (!Active(k, f) ==> k' == k && log' == log)
  }

  lemma AtRest(c: Ctx, k: State, busy: set<Id>, f: Id)
    requires Unloadable(c, k, busy, f)
    ensures c.Down? && f in k.fibers && f != ROOT
    ensures k.fibers[f].phase.Unloading? || k.fibers[f].loaded.None? || Active(k, f)
  {
    assert FiberOk(k, f);
  }

  lemma NotUnloaded(c: Ctx, k: State, busy: set<Id>, f: Id, log: seq<Entry>)
    requires Unloadable(c, k, busy, f) && !Active(k, f)
    ensures Unloaded(c, k, k, busy, f, log, 0, log)
  {
    TookNothing(k, c.zone, {}, log);
  }

  lemma UnloadStarts(c: Ctx, k: State, busy: set<Id>, f: Id)
    requires Unloadable(c, k, busy, f) && Active(k, f)
    ensures var k1 := Departing(k, f);
            && Ready(c, k1) && BusyOk(c, k1, busy) && DueOrHears(c, k1, NamesWithin(k1, f)) && NotifyDown(c, k1, NamesWithin(k1, f))
            && |Actives(k1)| < |Actives(k)|
  {
    DepartDown(k, c.zone, f);
    DepartHeard(k, c.zone, f);
    DepartHears(c, k, f);
  }

  lemma DepartHears(c: Ctx, k: State, f: Id)
    requires c.Down? && Active(k, f) && StaleBut(k, c.others + {f})
    requires forall h :: Stale(Departing(k, f), h) ==> Stale(k, h) || Hears(k, h, NamesWithin(k, f))
    ensures DueOrHears(c, Departing(k, f), NamesWithin(Departing(k, f), f)) && NamesWithin(Departing(k, f), f) == NamesWithin(k, f)
  {
    var k1 := Departing(k, f);
    assert NamesWithin(k1, f) == NamesWithin(k, f);
    forall h | Stale(k1, h) ensures h in c.others || Hears(k1, h, NamesWithin(k1, f)) {
      assert h != f;
    }
  }

  /** Everyone who used the services has been unloaded; now the fiber's own turn. */
  lemma UnloadNotified(c: Ctx, k: State, k2: State, busy: set<Id>, f: Id, log: seq<Entry>, log2: seq<Entry>)
    requires Unloadable(c, k, busy, f) && Active(k, f)
    requires Ready(c, k2) && BusyOk(c, k2, busy) && (forall h :: Due(c, k2, h) ==> h in c.others)
    requires Moved(c, Departing(k, f), k2) && Logged(Departing(k, f), k2, log, log2, {})
    ensures Undoable(c, k2, busy, f) && AllMounted(k2, f) && |Actives(k2)| < |Actives(k)|
    ensures k2.fibers[f] == Departing(k, f).fibers[f]
  {
    var k1 := Departing(k, f);
    DepartDown(k, c.zone, f);
    assert ShrunkAt(k1, k2, c.zone, {}, f);
    ShrunkAtStart(k1, k2, c.zone, f);
    UndoAbove(k1, k2, c.zone, f);
    ShrunkActives(k1, k2, c.zone, {f});
    DepartMounted(k, f);
    AllMountedShrunk(k1, k2, c.zone, f);
  }

  lemma DepartMounted(k: State, f: Id)
    requires ChildrenOk(k) && Active(k, f)
    ensures AllMounted(Departing(k, f), f)
  {
    forall x | x in k.fibers && x != ROOT && k.fibers[x].parent == f ensures Mounted(x) in k.fibers[f].effects { assert ChildOk(k, x); }
  }

  lemma UnloadEnds(c: Ctx, k: State, k2: State, k3: State, busy: set<Id>, f: Id, log: seq<Entry>, log2: seq<Entry>, log3: seq<Entry>)
    requires Unloadable(c, k, busy, f) && Active(k, f)
    requires Moved(c, Departing(k, f), k2) && Logged(Departing(k, f), k2, log, log2, {})
    requires forall h :: Active(k2, h) ==> !Hears(Departing(k, f), h, NamesWithin(Departing(k, f), f))
    requires |Actives(k2)| < |Actives(k)| && f in k2.fibers && k2.fibers[f] == Departing(k, f).fibers[f]
    requires Undoable(c, k3, busy, f) && Took(k2, k3, c.zone, {f}, log2, log3) && Alone(k3, f)
    requires k3.fibers[f] == k2.fibers[f].(effects := []) && UndoneSince(log2, log3, f) == Reverse(k2.fibers[f].effects)
    ensures Unloaded(c, k, Put(k3, f, Blank(k3.fibers[f])), busy, f, log, |log2|, log3 + [Off(f)])
  {
    hide WellFormed, ClosedUnder, ShrunkAt, Logged, NoNewLoads, AboveAll, OnlySelf, Stale, FreeBelow, Hears, Usable, Desired;
    var k1, k4 := Departing(k, f), Put(k3, f, Blank(k3.fibers[f]));
    OwnFirst(c, k, busy, f);
    UnloadEndsLogs(c, k, k2, k3, f, log, log2, log3);
    UnloadEndsShrunk(c, k, k2, k3, f);
    UnloadEndsLoads(c, k, k2, k3, f);
    EndDown(k3, c.zone, f);
    UnloadEndsBusy(c, k3, busy, f);
  }

  lemma OwnFirst(c: Ctx, k: State, busy: set<Id>, f: Id)
    requires Unloadable(c, k, busy, f) && Active(k, f)
    ensures k.fibers[f].effects != [] && k.fibers[f].effects[0] == Own
  {
    assert FiberOk(k, f);
  }

  lemma UnloadEndsBusy(c: Ctx, k: State, busy: set<Id>, f: Id)
    requires c.Down? && BusyOk(c, k, busy) && IsUnloading(k, f)
    ensures BusyBut(c, Put(k, f, Blank(k.fibers[f])), busy, {f})
  {
  }

  lemma UnloadEndsLogs(c: Ctx, k: State, k2: State, k3: State, f: Id, log: seq<Entry>, log2: seq<Entry>, log3: seq<Entry>)
    requires c.Down? && Active(k, f) && Moved(c, Departing(k, f), k2) && Logged(Departing(k, f), k2, log, log2, {})
    requires k.fibers[f].effects != [] && k.fibers[f].effects[0] == Own
    requires forall h :: Active(k2, h) ==> !Hears(Departing(k, f), h, NamesWithin(Departing(k, f), f))
    requires f in k2.fibers && k2.fibers[f] == Departing(k, f).fibers[f] && f in k3.fibers
    requires Took(k2, k3, c.zone, {f}, log2, log3) && UndoneSince(log2, log3, f) == Reverse(k2.fibers[f].effects)
    ensures Logged(k, Put(k3, f, Blank(k3.fibers[f])), log, log3 + [Off(f)], {})
    ensures UndoneInOrder(k, log, |log2|, log3 + [Off(f)], f)
  {
    assert NamesWithin(Departing(k, f), f) == NamesWithin(k, f);
    UnloadLogged(k, k2, k3, c.zone, f, log, log2, log3);
  }

  lemma UnloadEndsShrunk(c: Ctx, k: State, k2: State, k3: State, f: Id)
    requires c.Down? && f in c.zone && Active(k, f) && Shrunk(Departing(k, f), k2, c.zone, {}) && Shrunk(k2, k3, c.zone, {f})
    requires f in k2.fibers && k2.fibers[f] == Departing(k, f).fibers[f] && f in k3.fibers && k3.fibers[f] == k2.fibers[f].(effects := [])
    ensures Shrunk(k, Put(k3, f, Blank(k3.fibers[f])), c.zone, {})
  {
    ShrunkAtStart(Departing(k, f), k2, c.zone, f);
    ShrunkTrans(Departing(k, f), k2, k3, c.zone, {f});
    UnloadShrunk(k, k3, c.zone, f);
  }

  lemma UnloadEndsLoads(c: Ctx, k: State, k2: State, k3: State, f: Id)
    requires c.Down? && DownOk(k3, c.zone) && IsUnloading(k3, f) && f in c.zone && k3.fibers[f].effects == [] && Alone(k3, f)
    requires Active(k, f) && NoNewLoads(Departing(k, f), k2, {}) && NoNewLoads(k2, k3, {})
    ensures NoNewLoads(k, Put(k3, f, Blank(k3.fibers[f])), {f})
  {
    DepartLoads(k, f);
    EndDown(k3, c.zone, f);
  }

  // -- proof steps of Dispose ---------------------------------------------------------------------

  ghost predicate Disposable(c: Ctx, k: State, busy: set<Id>, x: Id) {
    && c.Down? && Ready(c, k) && BusyOk(c, k, busy) && StaleBut(k, c.others)
    && x in k.fibers && x != ROOT && k.fibers[x].phase.Rest? && x in c.zone && FreeBelow(k, x) && AboveAll(k, x)
  }

  ghost predicate Disposed(c: Ctx, k: State, k': State, busy: set<Id>, x: Id, log: seq<Entry>, log': seq<Entry>) {
    && c.Down? && Ready(c, k') && BusyOk(c, k', busy) && StaleBut(k', c.others)
    && NoNewLoads(k, k', {}) && |Actives(k')| <= |Actives(k)| && Logged(k, k', log, log', {})
    && x in k.fibers && x !in k'.fibers
    && var p := k.fibers[x].parent;
       && p in k.fibers && p in k'.fibers
       && k'.fibers[p] == k.fibers[p].(effects := Without(k.fibers[p].effects, Mounted(x)))
       && Shrunk(k, k', c.zone, {p})
  }

  lemma DisposeAtRest(c: Ctx, k: State, busy: set<Id>, x: Id)
    requires Disposable(c, k, busy, x)
    ensures Unloadable(c, k, busy, x) && x !in busy && x in k.fibers
    ensures (k.fibers[x].loaded.Some? <==> Active(k, x)) && k.fibers[x].phase.Rest?
  {
    assert FiberOk(k, x);
  }

  lemma DisposeEnds(c: Ctx, k: State, k1: State, busy: set<Id>, x: Id, log: seq<Entry>, mark: nat, log1: seq<Entry>)
    requires Disposable(c, k, busy, x) && Unloaded(c, k, k1, busy, x, log, mark, log1)
    ensures Leaf(k1, x) && Disposed(c, k, Removing(k1, x), busy, x, log, log1)
  {
    hide WellFormed, ClosedUnder, ShrunkAt, Logged, NoNewLoads, AboveAll, Stale, FreeBelow, Usable, Desired, UndoneInOrder, Without;
    DisposeAtRest(c, k, busy, x);
    DisposePending(c, k, k1, busy, x, log, mark, log1);
    ParentKept(k, k1, c.zone, x);
    RemoveDown(k1, c.zone, x);
    var p := k.fibers[x].parent;
    ShrunkWider(k, k1, c.zone, p);
    ShrunkTrans(k, k1, Removing(k1, x), c.zone, {p});
    DisposeLogged(k, k1, x, log, log1);
    DisposeLoads(c, k, k1, busy, x);
    DisposeParent(k1, x);
  }

  lemma DisposePending(c: Ctx, k: State, k1: State, busy: set<Id>, x: Id, log: seq<Entry>, mark: nat, log1: seq<Entry>)
    requires Disposable(c, k, busy, x) && Unloaded(c, k, k1, busy, x, log, mark, log1)
    ensures Pending(k1, x) && x in c.zone && x != ROOT
  {
    assert FiberOk(k, x);
  }

  lemma DisposeParent(k: State, x: Id)
    requires Leaf(k, x)
    ensures var k' := Removing(k, x); var p := k.fibers[x].parent;
            x !in k'.fibers && p in k'.fibers && k'.fibers[p] == k.fibers[p].(effects := Without(k.fibers[p].effects, Mounted(x)))
  {
  }

  lemma DisposeLogged(k: State, k1: State, x: Id, log: seq<Entry>, log1: seq<Entry>)
    requires Leaf(k1, x) && Logged(k, k1, log, log1, {})
    ensures Logged(k, Removing(k1, x), log, log1, {})
  {
    forall h | Active(k, h) && !Active(Removing(k1, x), h) ensures !Active(k1, h) {}
  }

  lemma DisposeLoads(c: Ctx, k: State, k1: State, busy: set<Id>, x: Id)
    requires Leaf(k1, x) && NoNewLoads(k, k1, {x}) && NoNewLoads(k1, Removing(k1, x), {}) && BusyBut(c, k1, busy, {x}) && x !in busy
    ensures NoNewLoads(k, Removing(k1, x), {}) && BusyOk(c, Removing(k1, x), busy)
  {
  }

  // -- proof steps of Notify -----------------------------------------------------------------------

  ghost predicate Heard(c: Ctx, k: State, names: set<string>) {
    if c.Up? then NotifyUp(c, k, names) else NotifyDown(c, k, names)
  }

  /** The fibers still to come in a notification that hear it. */
  function Waiting(k: State, list: seq<Id>, names: set<string>): set<Id> {
    set h | h in list && Hears(k, h, names)
  }

  /** Reconcile may be called. */
  ghost predicate Reconcilable(c: Ctx, k: State, busy: set<Id>, g: Id) {
    && Ready(c, k) && BusyOk(c, k, busy) && g != ROOT
    && (forall h :: Due(c, k, h) ==> h in c.others || h == g)
    && (c.Up? && CanLoad(k, g) ==> c.top in k.fibers[g].ancestors)
    && (c.Down? && g in k.fibers ==> Desired(k, g).None?)
    && (c.Down? && Active(k, g) ==> g in c.zone && FreeBelow(k, g) && AboveAll(k, g))
  }

  ghost predicate Reconciled(c: Ctx, k: State, k': State, busy: set<Id>, g: Id, log: seq<Entry>, log': seq<Entry>) {
    && Ready(c, k') && BusyOk(c, k', busy) && (forall h :: Due(c, k', h) ==> h in c.others) && Moved(c, k, k') && Fuel(c, k') <= Fuel(c, k)
    && (c.Down? ==> !Active(k', g) && Logged(k, k', log, log', {}))
    && (c.Up? && Pending(k, g) && !Active(k', g) ==> OnlyItself(k, k', g))
  }

  /** Nothing but the fiber's own record has changed. */
  ghost predicate OnlyItself(k: State, k': State, g: Id) {
    g in k.fibers && g in k'.fibers && SameButCounters(Put(k, g, k'.fibers[g]), k')
  }

  /** In the middle of a notification, the first `i` listed fibers have been told. */
  ghost predicate Notified(c: Ctx, k0: State, k: State, list: seq<Id>, i: nat, names: set<string>, log0: seq<Entry>, log: seq<Entry>) {
    && i <= |list| && list == k0.live && Ready(c, k0) && Heard(c, k, names)
    && (forall h :: Due(c, k, h) ==> h in c.others || h in Waiting(k0, list[i..], names))
    && Moved(c, k0, k)
    && (c.Down? ==> Logged(k0, k, log0, log, {}) && forall j :: 0 <= j < i && Hears(k0, list[j], names) ==> !Active(k, list[j]))
  }

  lemma MovedNothing(c: Ctx, k: State, log: seq<Entry>)
    ensures Moved(c, k, k) && Logged(k, k, log, log, {})
  {
    TookNothing(k, if c.Down? then c.zone else {}, {}, log);
  }

  lemma NotifyStarts(c: Ctx, k: State, names: set<string>, log: seq<Entry>)
    requires Ready(c, k) && DueOrHears(c, k, names) && Heard(c, k, names)
    ensures Notified(c, k, k, k.live, 0, names, log, log)
  {
    MovedNothing(c, k, log);
    forall h | Due(c, k, h) ensures h in c.others || h in Waiting(k, k.live[0..], names) {
      if Hears(k, h, names) { assert h != ROOT && h in k.live && k.live[0..] == k.live; }
    }
  }

  lemma NotifyNobody(c: Ctx, k: State, names: set<string>, log: seq<Entry>)
    requires Notified(c, k, k, k.live, 0, names, log, log) && names == {}
    ensures forall h :: Due(c, k, h) ==> h in c.others
    ensures Moved(c, k, k)
    ensures c.Down? ==> Logged(k, k, log, log, {}) && forall h :: Active(k, h) ==> !Hears(k, h, names)
  {
  }
  /** `c` with the fibers that will be told after this one. */
  function Then(c: Ctx, waiting: set<Id>): Ctx {
    c.(others := c.others + waiting)
  }

  predicate Told(k: State, g: Id, names: set<string>) {
    g in k.fibers && k.fibers[g].plugin.inject * names != {}
  }

  lemma WaitingNext(k0: State, list: seq<Id>, i: nat, names: set<string>)
    requires i < |list|
    ensures Waiting(k0, list[i..], names) == (if Hears(k0, list[i], names) then {list[i]} else {}) + Waiting(k0, list[i + 1..], names)
  {
    assert list[i..] == [list[i]] + list[i + 1..];
  }

  lemma MovedShape(c: Ctx, k0: State, k: State, g: Id)
    requires Moved(c, k0, k) && g in k.fibers && g in k0.fibers
    ensures SameShape(k0.fibers[g], k.fibers[g])
  {
  }

  lemma ToldHears(c: Ctx, k0: State, k: State, g: Id, names: set<string>)
    requires Moved(c, k0, k) && g in k0.fibers
    ensures Told(k, g, names) ==> Hears(k0, g, names) && Hears(k, g, names)
    ensures g in k.fibers && Hears(k0, g, names) ==> Told(k, g, names)
  {
    if g in k.fibers {
      MovedShape(c, k0, k, g);
      if Told(k, g, names) { var n :| n in k.fibers[g].plugin.inject * names; assert n in names && n in k.fibers[g].plugin.inject; }
      if Hears(k0, g, names) { var n :| n in names && n in k0.fibers[g].plugin.inject; assert n in k.fibers[g].plugin.inject * names; }
    }
  }

  /** A fiber told while services open up is below the one that loads. */
  lemma ToldUp(c: Ctx, k: State, g: Id, names: set<string>)
    requires c.Up? && UpOk(k, c.top) && NotifyUp(c, k, names) && Hears(k, g, names) && CanLoad(k, g)
    ensures c.top in k.fibers[g].ancestors
  {
    var n :| n in names && n in k.fibers[g].plugin.inject;
    assert Usable(k, n, g) && Under(k, c.top, k.impls[n].owner);
    assert Lets(k, c.top, g) && PlaceOk(k, g);
  }

  lemma ToldDown(c: Ctx, k: State, g: Id, names: set<string>)
    requires c.Down? && DownOk(k, c.zone) && NotifyDown(c, k, names) && Hears(k, g, names)
    ensures Desired(k, g).None? && (Active(k, g) ==> g in c.zone && FreeBelow(k, g) && AboveAll(k, g))
  {
    var n :| n in names && n in k.fibers[g].plugin.inject;
    assert Gone(k, n);
    assert !Usable(k, n, g) by { GoneUnusable(k, n, g); }
    if Active(k, g) {
      assert FiberOk(k, g) && n in k.fibers[g].store;
      NotifiedFree(k, g, n);
    }
  }

  lemma GoneUnusable(k: State, n: string, g: Id)
    requires Gone(k, n) && g in k.fibers
    ensures !Usable(k, n, g)
  {
    if n in k.impls && k.impls[n].owner in k.fibers {
      var a :| a in k.fibers[k.impls[n].owner].ancestors && IsUnloading(k, a);
      assert !Lets(k, a, g);
    }
  }

  /** The next fiber of a notification: told, it may be reconciled; otherwise it is not due. */
  lemma NotifyNext(c: Ctx, k0: State, k: State, busy: set<Id>, list: seq<Id>, i: nat, names: set<string>, log0: seq<Entry>, log: seq<Entry>)
    requires Ready(c, k) && BusyOk(c, k, busy) && Notified(c, k0, k, list, i, names, log0, log) && i < |list|
    ensures Told(k, list[i], names) ==> Reconcilable(Then(c, Waiting(k0, list[i + 1..], names)), k, busy, list[i])
    ensures !Told(k, list[i], names) ==> Notified(c, k0, k, list, i + 1, names, log0, log)
  {
    hide WellFormed, UpOk, DownOk, Grew, Shrunk, Logged, NotifyUp, NotifyDown, FreeBelow, AboveAll, Desired, CanLoad, Stale, Hears, BusyBut, Told;
    var g := list[i];
    WaitingNext(k0, list, i, names);
    ListedHere(c, k0, g);
    ToldHears(c, k0, k, g, names);
    if Told(k, g, names) {
      if c.Up? { if CanLoad(k, g) { ToldUp(c, k, g, names); } }
      else { ToldDown(c, k, g, names); }
      NotifyBusy(c, k, busy, Waiting(k0, list[i + 1..], names));
    } else {
      NotToldNotDue(c, k0, k, g, names);
    }
  }

  lemma ListedHere(c: Ctx, k: State, g: Id)
    requires Ready(c, k) && g in k.live
    ensures g in k.fibers && g != ROOT
  {
  }

  lemma NotifyBusy(c: Ctx, k: State, busy: set<Id>, w: set<Id>)
    requires Ready(c, k) && BusyOk(c, k, busy)
    ensures Ready(Then(c, w), k) && BusyOk(Then(c, w), k, busy)
  {
  }

  lemma NotToldNotDue(c: Ctx, k0: State, k: State, g: Id, names: set<string>)
    requires g in k.fibers ==> !Hears(k0, g, names)
    ensures Hears(k0, g, names) ==> !Due(c, k, g) && !Active(k, g)
  {
  }

  lemma NotifyDid(c: Ctx, k0: State, k: State, k1: State, busy: set<Id>, list: seq<Id>, i: nat, names: set<string>,
                  log0: seq<Entry>, log: seq<Entry>, log1: seq<Entry>)
    requires Ready(c, k) && Notified(c, k0, k, list, i, names, log0, log) && i < |list|
    requires Reconciled(Then(c, Waiting(k0, list[i + 1..], names)), k, k1, busy, list[i], log, log1)
    ensures Ready(c, k1) && BusyOk(c, k1, busy) && Fuel(c, k1) <= Fuel(c, k)
    ensures Notified(c, k0, k1, list, i + 1, names, log0, log1)
  {
    hide WellFormed, UpOk, DownOk, Grew, Shrunk, Logged, NotifyUp, NotifyDown, Desired, CanLoad, Stale, Hears, BusyBut;
    MovedTrans(c, k0, k, k1, log0, log, log1);
    NotifyQuiet(c, k0, k, k1, list, i, names);
    NotifyReady(c, k1, busy, Waiting(k0, list[i + 1..], names));
    if c.Up? { NotifyUpStays(c, k, k1, names); } else { NotifyDownStays(c, k, k1, names); }
    var w := Waiting(k0, list[i + 1..], names);
    forall h | Due(c, k1, h) ensures h in c.others || h in w { assert Due(Then(c, w), k1, h); }
  }

  lemma NotifyReady(c: Ctx, k: State, busy: set<Id>, w: set<Id>)
    requires Ready(Then(c, w), k) && BusyOk(Then(c, w), k, busy)
    ensures Ready(c, k) && BusyOk(c, k, busy)
  {
  }

  /** Whoever was told stays unloaded. */
  lemma NotifyQuiet(c: Ctx, k0: State, k: State, k1: State, list: seq<Id>, i: nat, names: set<string>)
    requires i < |list| && Moved(c, k, k1) && (c.Down? ==> !Active(k1, list[i]))
    requires c.Down? ==> forall j :: 0 <= j < i && Hears(k0, list[j], names) ==> !Active(k, list[j])
    ensures c.Down? ==> forall j :: 0 <= j < i + 1 && Hears(k0, list[j], names) ==> !Active(k1, list[j])
  {
    if c.Down? {
      forall j | 0 <= j < i && Hears(k0, list[j], names) ensures !Active(k1, list[j]) {
        if list[j] in k1.fibers { assert ShrunkAt(k, k1, c.zone, {}, list[j]); }
      }
    }
  }

  lemma MovedTrans(c: Ctx, k0: State, k: State, k1: State, log0: seq<Entry>, log: seq<Entry>, log1: seq<Entry>)
    requires Moved(c, k0, k) && Moved(c, k, k1)
    ensures Moved(c, k0, k1)
    ensures c.Down? && Logged(k0, k, log0, log, {}) && Logged(k, k1, log, log1, {}) ==> Logged(k0, k1, log0, log1, {})
  {
    if c.Up? { GrewTrans(k0, k, k1, c.top); }
    else {
      ShrunkTrans(k0, k, k1, c.zone, {});
      if Logged(k0, k, log0, log, {}) && Logged(k, k1, log, log1, {}) { LoggedTrans(k0, k, k1, log0, log, log1, c.zone, {}); }
    }
  }

  lemma NotifyUpStays(c: Ctx, k: State, k1: State, names: set<string>)
    requires c.Up? && UpOk(k, c.top) && UpOk(k1, c.top) && Grew(k, k1, c.top) && NotifyUp(c, k, names)
    ensures NotifyUp(c, k1, names)
  {
    forall n | n in names ensures n in k1.impls && Under(k1, c.top, k1.impls[n].owner) { GrewImpl(k, k1, c.top, n); }
  }

  lemma NotifyDownStays(c: Ctx, k: State, k1: State, names: set<string>)
    requires c.Down? && DownOk(k, c.zone) && DownOk(k1, c.zone) && Shrunk(k, k1, c.zone, {}) && NotifyDown(c, k, names)
    ensures NotifyDown(c, k1, names)
  {
    forall n | n in names ensures Gone(k1, n) { assert Gone(k, n); GoneStays(k, k1, c.zone, n); }
    forall h, n | Active(k1, h) && n in k1.fibers[h].store && n in names ensures h in c.zone && Above(k1, k1.fibers[h].store[n]) {
      assert ShrunkAt(k, k1, c.zone, {}, h);
      assert Active(k, h) && n in k.fibers[h].store;
      ShrunkAbove(k, k1, c.zone, {}, k.fibers[h].store[n]);
    }
  }

  lemma GoneStays(k: State, k1: State, zone: set<Id>, n: string)
    requires ServicesOk(k) && ServicesOk(k1) && Shrunk(k, k1, zone, {}) && Gone(k, n)
    ensures Gone(k1, n)
  {
    if n in k1.impls {
      ShrunkImpl(k, k1, zone, {}, n);
      var o := k.impls[n].owner;
      var a :| a in k.fibers[o].ancestors && IsUnloading(k, a);
      assert ShrunkAt(k, k1, zone, {}, o) && ShrunkAt(k, k1, zone, {}, a);
      assert a in k1.fibers[o].ancestors && IsUnloading(k1, a);
    }
  }

  lemma NotifyEnds(c: Ctx, k0: State, k: State, list: seq<Id>, names: set<string>, log0: seq<Entry>, log: seq<Entry>)
    requires Ready(c, k) && Notified(c, k0, k, list, |list|, names, log0, log)
    ensures forall h :: Due(c, k, h) ==> h in c.others
    ensures Moved(c, k0, k)
    ensures c.Down? ==> Logged(k0, k, log0, log, {}) && forall h :: Active(k, h) ==> !Hears(k0, h, names)
  {
    if c.Down? {
      forall h | h in list && Hears(k0, h, names) ensures !Active(k, h) { var j :| 0 <= j < |list| && list[j] == h; }
      forall h | Hears(k0, h, names) ensures h in list { HearsListed(k0, c, h, names); }
    }
  }

  lemma HearsListed(k: State, c: Ctx, h: Id, names: set<string>)
    requires Ready(c, k) && Hears(k, h, names)
    ensures h in k.live
  {
  }

  // -- proof steps of Reconcile --------------------------------------------------------------------

  /** Load may be called. */
  ghost predicate Loadable(c: Ctx, k: State, busy: set<Id>, g: Id, epoch: Epoch) {
    && c.Up? && Ready(c, k) && BusyBut(c, k, busy, {g}) && g in busy
    && CanLoad(k, g) && Desired(k, g) == Some(epoch) && c.top in k.fibers[g].ancestors
    && (forall h :: CanLoad(k, h) ==> h in c.others || h == g)
  }

  /** After Load the fiber is loaded, or it has failed or disposed itself meanwhile; and then the
      services table, the fiber list, the listeners and every other fiber are exactly as they were. */
  ghost predicate LoadDone(c: Ctx, k: State, k': State, busy: set<Id>, g: Id, epoch: Epoch) {
    && c.Up? && Ready(c, k') && BusyBut(c, k', busy, {g}) && (forall h :: CanLoad(k', h) ==> h in c.others)
    && Grew(k, k', c.top) && Left(k') < Left(k) && (Whole(k) ==> Whole(k')) && g in k.fibers && g in k'.fibers
    && (k.fibers[g].plugin.retires ==> !Active(k', g))
    && (!Active(k', g) ==> EndsAs(k.fibers[g], k'.fibers[g], epoch) && SameButCounters(Put(k, g, k'.fibers[g]), k'))
  }

  /** Between two looks at a fiber. */
  ghost predicate Rechecking(c: Ctx, k0: State, k: State, busy: set<Id>, g: Id, log0: seq<Entry>, log: seq<Entry>, again: bool) {
    && Ready(c, k) && BusyBut(c, k, busy, {g}) && g in busy && g in k.fibers && g != ROOT && !IsLoading(k, g)
    && Moved(c, k0, k) && Fuel(c, k) <= Fuel(c, k0)
    && (forall h :: Due(c, k, h) ==> h in c.others || (again && h == g))
    && (c.Up? ==> c.top in k.fibers[g].ancestors || !CanLoad(k, g))
    && (c.Up? && Pending(k0, g) && !Active(k, g) ==> OnlyItself(k0, k, g))
    && (c.Down? ==> Desired(k, g).None? && Logged(k0, k, log0, log, {})
                    && (Active(k, g) ==> again && g in c.zone && FreeBelow(k, g) && AboveAll(k, g)))
  }

  /** After the first half of a look: a fiber loaded against something else has been unloaded. */
  ghost predicate Half(c: Ctx, k0: State, k: State, busy: set<Id>, g: Id, log0: seq<Entry>, log: seq<Entry>, desired: Option<Epoch>) {
    && Rechecking(c, k0, k, busy, g, log0, log, c.Up?)
    && desired == Desired(k, g)
    && (k.fibers[g].loaded.Some? && k.fibers[g].phase.Rest? ==> desired == k.fibers[g].loaded)
  }

  lemma ReconcileNot(c: Ctx, k: State, busy: set<Id>, g: Id, log: seq<Entry>)
    requires Reconcilable(c, k, busy, g) && (g !in k.fibers || k.fibers[g].gone || g in busy)
    ensures Reconciled(c, k, k, busy, g, log, log)
  {
    MovedNothing(c, k, log);
    if g in k.fibers {
      assert FiberOk(k, g);
      OnlyItselfNothing(k, g);
    }
  }

  lemma OnlyItselfNothing(k: State, g: Id)
    requires g in k.fibers
    ensures OnlyItself(k, k, g)
  {
    assert k.fibers[g := k.fibers[g]] == k.fibers;
  }

  lemma OnlyItselfAgain(k0: State, k: State, k1: State, g: Id, y: Fiber)
    requires OnlyItself(k0, k, g) && SameButCounters(Put(k, g, y), k1)
    ensures OnlyItself(k0, k1, g)
  {
  }

  lemma ReconcileStarts(c: Ctx, k: State, busy: set<Id>, g: Id, log: seq<Entry>)
    requires Reconcilable(c, k, busy, g) && g in k.fibers && g !in busy
    ensures Rechecking(c, k, k, busy + {g}, g, log, log, true) && (c.Up? ==> c.top in k.fibers)
  {
    MovedNothing(c, k, log);
    OnlyItselfNothing(k, g);
    assert PlaceOk(k, g);
  }

  lemma RecheckFinds(c: Ctx, k0: State, k: State, busy: set<Id>, g: Id, log0: seq<Entry>, log: seq<Entry>)
    requires Rechecking(c, k0, k, busy, g, log0, log, true)
    ensures g in k.fibers && g != ROOT && (c.Up? ==> !k.fibers[g].phase.Unloading?)
    ensures k.fibers[g].loaded.Some? && Desired(k, g) != k.fibers[g].loaded ==> c.Down? && Unloadable(c, k, busy, g)
  {
    if c.Up? && k.fibers[g].loaded.Some? { SettledDesired(k, c.top, g); }
  }

  /** While something loads, whoever is loaded is loaded against what is there. */
  lemma SettledDesired(k: State, top: Id, g: Id)
    requires UpOk(k, top) && g in k.fibers && k.fibers[g].loaded.Some?
    ensures Active(k, g) && Desired(k, g) == k.fibers[g].loaded
  {
    var x := k.fibers[g];
    assert FiberOk(k, g);
    forall n | n in x.plugin.inject ensures Usable(k, n, g) && n in k.impls && k.impls[n].serial == x.store[n] { assert n in x.store; }
    assert Serials(k.impls, x.plugin.inject) == x.store;
  }

  lemma RecheckUnloaded(c: Ctx, k0: State, k: State, k1: State, busy: set<Id>, g: Id, log0: seq<Entry>, log: seq<Entry>, mark: nat, log1: seq<Entry>)
    requires Rechecking(c, k0, k, busy, g, log0, log, true) && Unloaded(c, k, k1, busy, g, log, mark, log1)
    ensures Half(c, k0, k1, busy, g, log0, log1, Desired(k, g)) && (Active(k, g) ==> Fuel(c, k1) < Fuel(c, k))
    ensures g in k1.fibers && Fuel(c, k1) <= Fuel(c, k)
  {
    hide WellFormed, UpOk, Grew, Logged, FreeBelow, AboveAll, CanLoad, BusyBut, UndoneInOrder, Hears;
    UnloadedNone(c, k, k1, g);
    UnloadedLoads(c, k, k1, busy, g, log, mark, log1);
    MovedTrans(c, k0, k, k1, log0, log, log1);
  }

  lemma UnloadedNone(c: Ctx, k: State, k1: State, g: Id)
    requires c.Down? && Ready(c, k) && Ready(c, k1) && Shrunk(k, k1, c.zone, {}) && g in k1.fibers && g in k.fibers && Desired(k, g).None?
    ensures Desired(k1, g).None?
  {
    ShrunkDesired(k, k1, c.zone, {}, g);
  }

  lemma UnloadedLoads(c: Ctx, k: State, k1: State, busy: set<Id>, g: Id, log: seq<Entry>, mark: nat, log1: seq<Entry>)
    requires Unloaded(c, k, k1, busy, g, log, mark, log1) && Desired(k1, g).None?
    ensures Moved(c, k, k1)
  {
  }

  lemma RecheckKept(c: Ctx, k0: State, k: State, busy: set<Id>, g: Id, log0: seq<Entry>, log: seq<Entry>)
    requires Rechecking(c, k0, k, busy, g, log0, log, true)
    requires k.fibers[g].loaded.None? || Desired(k, g) == k.fibers[g].loaded
    ensures Half(c, k0, k, busy, g, log0, log, Desired(k, g))
  {
  }

  lemma HalfLoadable(c: Ctx, k0: State, k: State, busy: set<Id>, g: Id, log0: seq<Entry>, log: seq<Entry>, desired: Option<Epoch>)
    requires Half(c, k0, k, busy, g, log0, log, desired)
    requires desired.Some? && k.fibers[g].loaded.None? && !k.fibers[g].gone && desired != k.fibers[g].failed
    ensures c.Up? && Loadable(c, k, busy, g, desired.value)
  {
    assert FiberOk(k, g);
  }

  lemma RecheckLoaded(c: Ctx, k0: State, k: State, k1: State, busy: set<Id>, g: Id, log0: seq<Entry>, log: seq<Entry>, log1: seq<Entry>, desired: Option<Epoch>)
    requires Half(c, k0, k, busy, g, log0, log, desired) && c.Up? && desired.Some?
    requires Loadable(c, k, busy, g, desired.value) && LoadDone(c, k, k1, busy, g, desired.value)
    ensures Rechecking(c, k0, k1, busy, g, log0, log1, false) && Fuel(c, k1) < Fuel(c, k)
    ensures Rechecking(c, k0, k1, busy, g, log0, log1, true) && g in k1.fibers
  {
    hide WellFormed, UpOk, Desired, CanLoad, BusyBut, SameButCounters;
    MovedTrans(c, k0, k, k1, log0, log, log1);
    LoadableParts(c, k, busy, g, desired.value);
    if Pending(k0, g) && !Active(k1, g) { OnlyItselfAgain(k0, k, k1, g, k1.fibers[g]); }
  }

  lemma RecheckIdle(c: Ctx, k0: State, k: State, busy: set<Id>, g: Id, log0: seq<Entry>, log: seq<Entry>, desired: Option<Epoch>)
    requires Half(c, k0, k, busy, g, log0, log, desired)
    requires desired.None? || k.fibers[g].loaded.Some? || k.fibers[g].gone || desired == k.fibers[g].failed
    ensures Rechecking(c, k0, k, busy, g, log0, log, false) && Rechecking(c, k0, k, busy, g, log0, log, true)
  {
    hide WellFormed, UpOk, DownOk, Grew, Shrunk, Logged, FreeBelow, AboveAll, BusyBut, Usable;
  }

  lemma ReconcileEnds(c: Ctx, k0: State, k: State, busy: set<Id>, g: Id, log0: seq<Entry>, log: seq<Entry>)
    requires Rechecking(c, k0, k, busy + {g}, g, log0, log, false) && g !in busy
    ensures Reconciled(c, k0, k, busy, g, log0, log)
  {
  }

  // -- which loads were begun ------------------------------------------------------------------------

  /** Of a fiber that was pending and is not loaded now, only it and fibers below it were begun; and
      it was itself tried, unless nothing has happened yet or it could not load. */
  ghost predicate Began(c: Ctx, k0: State, k: State, g: Id, loads0: seq<Begin>, loads: seq<Begin>, again: bool) {
    c.Up? ==>
      && (Pending(k0, g) && !Active(k, g) ==> BegunBelow(loads0, loads, {g}))
      && (Pending(k0, g) && !CanLoad(k0, g) ==> k == k0 && loads == loads0)
      && (Tried(loads0, loads, g) || (k == k0 && loads == loads0 && (again || !CanLoad(k0, g))))
  }

  ghost predicate BegunFor(c: Ctx, k0: State, k: State, busy: set<Id>, g: Id, loads0: seq<Begin>, loads: seq<Begin>) {
    c.Up? ==>
      && (Pending(k0, g) && !Active(k, g) ==> BegunBelow(loads0, loads, {g}))
      && (Pending(k0, g) && !CanLoad(k0, g) ==> k == k0 && loads == loads0)
      && (g !in busy ==> Tried(loads0, loads, g) || (k == k0 && !CanLoad(k0, g)))
  }

  lemma BegunNothing(c: Ctx, k: State, busy: set<Id>, g: Id, loads: seq<Begin>)
    ensures Began(c, k, k, g, loads, loads, true)
    ensures g !in k.fibers || k.fibers[g].gone || g in busy ==> BegunFor(c, k, k, busy, g, loads, loads)
  {
    hide Desired;
  }

  lemma LoadBegun(c: Ctx, k0: State, k: State, k1: State, busy: set<Id>, g: Id, log0: seq<Entry>, log: seq<Entry>, desired: Option<Epoch>,
                  loads0: seq<Begin>, loads: seq<Begin>, loads1: seq<Begin>)
    requires Half(c, k0, k, busy, g, log0, log, desired) && c.Up? && desired.Some? && Loadable(c, k, busy, g, desired.value)
    requires BegunIn(c, k0, loads0, loads) && Began(c, k0, k, g, loads0, loads, true)
    requires BegunIn(c, k, loads, loads1) && Tried(loads, loads1, g) && (!Active(k1, g) ==> BegunBelow(loads, loads1, {g}))
    requires c.top in k0.fibers
    ensures BegunIn(c, k0, loads0, loads1) && Began(c, k0, k1, g, loads0, loads1, false) && Began(c, k0, k1, g, loads0, loads1, true)
  {
    hide UpOk, Desired, BusyBut, BegunBelow, Tried, Grew;
    BegunOn(c, k0, k, loads0, loads, loads1);
    BegunTrans(loads0, loads, loads1, Line(k0, c.top)) by { LineSame(c, k0, k); }
    if Pending(k0, g) && !Active(k1, g) { BegunTrans(loads0, loads, loads1, {g}); }
  }

  lemma LineSame(c: Ctx, k0: State, k: State)
    requires c.Up? && Moved(c, k0, k) && c.top in k0.fibers
    ensures Line(k, c.top) == Line(k0, c.top)
  {
    LineGrew(k0, k, c.top);
  }

  lemma IdleBegun(c: Ctx, k0: State, k: State, k1: State, busy: set<Id>, g: Id, log0: seq<Entry>, log: seq<Entry>, log1: seq<Entry>, desired: Option<Epoch>,
                  loads0: seq<Begin>, loads: seq<Begin>)
    requires Half(c, k0, k1, busy, g, log0, log1, desired) && (c.Up? ==> k1 == k) && Began(c, k0, k, g, loads0, loads, true)
    requires desired.None? || k1.fibers[g].loaded.Some? || k1.fibers[g].gone || desired == k1.fibers[g].failed
    ensures Began(c, k0, k1, g, loads0, loads, false) && Began(c, k0, k1, g, loads0, loads, true)
  {
    hide Ready, BusyBut, Desired, BegunBelow, Tried, Moved, Logged, FreeBelow, AboveAll;
  }

  lemma BegunEnds(c: Ctx, k0: State, k: State, busy: set<Id>, g: Id, loads0: seq<Begin>, loads: seq<Begin>)
    requires Began(c, k0, k, g, loads0, loads, false)
    ensures BegunFor(c, k0, k, busy, g, loads0, loads)
  {
    hide CanLoad, BegunBelow, Tried;
  }

  lemma NotifyBegun(c: Ctx, c': Ctx, k0: State, k: State, list: seq<Id>, i: nat, names: set<string>, log0: seq<Entry>, log1: seq<Entry>,
                    loads0: seq<Begin>, loads1: seq<Begin>, loads2: seq<Begin>)
    requires Notified(c, k0, k, list, i, names, log0, log1) && c' == c.(others := c'.others)
    requires BegunIn(c, k0, loads0, loads1) && BegunIn(c', k, loads1, loads2)
    ensures BegunIn(c, k0, loads0, loads2)
  {
    hide Due, Waiting, Heard, Logged, Moved, BegunBelow;
    BegunOn(c, k0, k, loads0, loads1, loads2);
  }

  lemma ProvideLine(k: State, f: Id, n: string)
    requires f in k.fibers
    ensures Line(Serving(k, f, n), f) == Line(k, f)
    ensures forall h :: h in k.fibers ==> h in Serving(k, f, n).fibers && Serving(k, f, n).fibers[h].gone == k.fibers[h].gone
  {
  }

  lemma MountBegun(c: Ctx, k0: State, k: State, busy: set<Id>, f: Id, p: Plugin, loads0: seq<Begin>, loads: seq<Begin>)
    requires c.Up? && f in k0.fibers && k0.uids !in k0.fibers && c.top in k0.fibers
    requires BegunIn(c, Bearing(k0, f, p), loads0, loads) && BegunFor(c, Bearing(k0, f, p), k, busy, k0.uids, loads0, loads)
    requires k0.uids !in busy && (CanLoad(Bearing(k0, f, p), k0.uids) <==> Offered(k0, f, p.inject))
    ensures BegunIn(c, k0, loads0, loads) && (!Active(k, k0.uids) ==> BegunBelow(loads0, loads, {k0.uids}))
    ensures if Offered(k0, f, p.inject) then Tried(loads0, loads, k0.uids) else k == Bearing(k0, f, p) && loads == loads0
  {
    hide BegunBelow, CanLoad, Tried;
    assert Pending(Bearing(k0, f, p), k0.uids) && Line(Bearing(k0, f, p), c.top) == Line(k0, c.top);
    assert Later(k0, Bearing(k0, f, p));
  }

  // -- proof steps of loading ----------------------------------------------------------------------

  /** Inside the apply of the innermost loading fiber, or at the top: only fibers that callers
      will still reconcile can load. */
  ghost predicate Applying(c: Ctx, k: State, busy: set<Id>) {
    c.Up? && Ready(c, k) && BusyOk(c, k, busy) && forall h :: CanLoad(k, h) ==> h in c.others
  }

  lemma ProvideStarts(c: Ctx, k: State, busy: set<Id>, n: string)
    requires Applying(c, k, busy) && n !in k.impls
    ensures var k1 := Serving(k, c.top, n);
            && Ready(c, k1) && BusyOk(c, k1, busy) && DueOrHears(c, k1, {n}) && Heard(c, k1, {n}) && Left(k1) <= Left(k)
  {
    assert PlaceOk(k, c.top);
    ServingUp(k, c.top, n);
    ProvideBusy(c, k, busy, n);
    ProvideHears(c, k, n);
  }

  lemma ProvideBusy(c: Ctx, k: State, busy: set<Id>, n: string)
    requires c.Up? && BusyOk(c, k, busy) && c.top in k.fibers && !Pending(k, c.top)
    ensures BusyOk(c, Serving(k, c.top, n), busy)
  {
  }

  lemma ProvideHears(c: Ctx, k: State, n: string)
    requires c.Up? && c.top in k.fibers && c.top in k.fibers[c.top].ancestors
    requires forall h :: CanLoad(k, h) ==> h in c.others
    requires forall h :: CanLoad(Serving(k, c.top, n), h) ==> CanLoad(k, h) || n in k.fibers[h].plugin.inject
    ensures DueOrHears(c, Serving(k, c.top, n), {n}) && Heard(c, Serving(k, c.top, n), {n})
  {
    var k1 := Serving(k, c.top, n);
    forall h | CanLoad(k1, h) ensures h in c.others || Hears(k1, h, {n}) {
      if h !in c.others { assert n in k1.fibers[h].plugin.inject; }
    }
  }

  lemma MountStarts(c: Ctx, k: State, busy: set<Id>, f: Id, p: Plugin)
    requires Applying(c, k, busy) && f in k.fibers && !Pending(k, f) && c.top in k.fibers[f].ancestors
    ensures var k1 := Bearing(k, f, p);
            Reconcilable(c, k1, busy, k.uids) && Left(k1) <= Left(k) + Size(p)
  {
    UidsFresh(k);
    BearingUp(k, f, p, c.top);
    MountBusy(c, k, busy, f, p);
  }

  lemma MountFresh(c: Ctx, k: State, busy: set<Id>, f: Id, p: Plugin)
    requires Applying(c, k, busy) && f in k.fibers
    ensures k.uids !in k.fibers && Pending(Bearing(k, f, p), k.uids)
  {
    UidsFresh(k);
  }

  lemma MountOffered(c: Ctx, k: State, busy: set<Id>, f: Id, p: Plugin)
    requires Applying(c, k, busy) && f in k.fibers
    ensures k.uids !in busy && (CanLoad(Bearing(k, f, p), k.uids) <==> Offered(k, f, p.inject))
  {
    UidsFresh(k);
    var k1 := Bearing(k, f, p);
    forall n ensures Usable(k1, n, k.uids) <==> OfferedOne(k, f, n) { OfferedUsable(k, f, p, n); }
    hide WellFormed, Settled, Usable, OfferedOne;
  }

  lemma OfferedUsable(k: State, f: Id, p: Plugin, n: string)
    requires WellFormed(k) && f in k.fibers && k.uids !in k.fibers
    ensures Usable(Bearing(k, f, p), n, k.uids) <==> OfferedOne(k, f, n)
  {
    hide WellFormed;
    TreeHere(k);
    if n in k.impls && k.impls[n].owner in k.fibers {
      forall a | a in k.fibers[k.impls[n].owner].ancestors
        ensures Lets(Bearing(k, f, p), a, k.uids) <==>
                (k.fibers[a].phase.Rest? && k.fibers[a].loaded.Some?) || (k.fibers[a].phase.Loading? && a in k.fibers[f].ancestors)
      {
      }
    }
  }

  lemma TreeHere(k: State)
    requires WellFormed(k)
    ensures forall f, a {:trigger a in k.fibers[f].ancestors} :: f in k.fibers && a in k.fibers[f].ancestors ==> a in k.fibers
    ensures forall n {:trigger n in k.impls} :: n in k.impls ==> k.impls[n].owner in k.fibers
  {
  }

  lemma MountBusy(c: Ctx, k: State, busy: set<Id>, f: Id, p: Plugin)
    requires c.Up? && BusyOk(c, k, busy) && f in k.fibers && k.uids !in k.fibers
    ensures BusyOk(c, Bearing(k, f, p), busy)
  {
  }

  lemma HearingBusy(c: Ctx, k: State, busy: set<Id>, event: string, prepend: bool)
    requires Applying(c, k, busy) && IsLoading(k, c.top)
    ensures Applying(c, Hearing(k, c.top, event, prepend), busy) && Left(Hearing(k, c.top, event, prepend)) <= Left(k)
  {
    hide WellFormed, UpOk, CanLoad, Left, Hearing, BusyOk;
    HearingUp(k, c.top, event, prepend);
    HearingBusy1(c, k, busy, event, prepend);
  }

  lemma HearingBusy1(c: Ctx, k: State, busy: set<Id>, event: string, prepend: bool)
    requires c.Up? && BusyOk(c, k, busy) && IsLoading(k, c.top)
    ensures BusyOk(c, Hearing(k, c.top, event, prepend), busy)
  {
  }

  // -- proof steps of Load --------------------------------------------------------------------------

  /** Load has run the first `i` actions of fiber `g`'s plugin; `k0` is the state before it. */
  ghost predicate Doing(c: Ctx, k0: State, k: State, busy: set<Id>, g: Id, epoch: Epoch, i: nat) {
    && Loadable(c, k0, busy, g, epoch)
    && Applying(Up(g, c.others), k, busy) && IsLoading(k, g) && Within(k0, k, g)
    && k.fibers[g] == Begun(k0.fibers[g], epoch).(effects := k.fibers[g].effects)
    && MatchesTo(k, g, i)
    && Left(k) + Sizes(k0.fibers[g].plugin, |k0.fibers[g].plugin.actions|) + 1 <= Left(k0) + Sizes(k0.fibers[g].plugin, i)
    && (Whole(k0) ==> Whole(k))
  }

  lemma LoadStarts(c: Ctx, k: State, busy: set<Id>, g: Id, epoch: Epoch)
    requires Loadable(c, k, busy, g, epoch)
    ensures Doing(c, k, Put(k, g, Begun(k.fibers[g], epoch)), busy, g, epoch, 0)
  {
    hide WellFormed, UpOk, CanLoad, Left, Whole, Within, BusyOk, Size, Sizes;
    LoadFree(c, k, busy, g, epoch);
    BeginUp(k, c.top, g);
    LoadWithin(k, g, epoch);
    LoadWhole(k, g, epoch);
    LoadBusy(c, k, busy, g, epoch);
    LoadSize(k.fibers[g].plugin);
  }

  lemma LoadSize(p: Plugin)
    ensures Size(p) == 1 + Sizes(p, |p.actions|) && Sizes(p, 0) == 0
  {
  }

  lemma LoadFree(c: Ctx, k: State, busy: set<Id>, g: Id, epoch: Epoch)
    requires Loadable(c, k, busy, g, epoch)
    ensures UpOk(k, c.top) && Pending(k, g) && k.fibers[g].loaded.None? && (forall f :: Under(k, g, f) ==> f == g) && CanLoad(k, g)
  {
    assert PlaceOk(k, g) && FiberOk(k, g);
    NothingUnder(k, g);
  }

  lemma LoadBusy(c: Ctx, k: State, busy: set<Id>, g: Id, epoch: Epoch)
    requires Loadable(c, k, busy, g, epoch)
    ensures BusyOk(Up(g, c.others), Put(k, g, Begun(k.fibers[g], epoch)), busy)
  {
  }

  lemma LoadWithin(k: State, g: Id, epoch: Epoch)
    requires Pending(k, g) && forall f :: Under(k, g, f) ==> f == g
    ensures Within(k, Put(k, g, Begun(k.fibers[g], epoch)), g)
  {
    forall f | f in k.fibers && f != g ensures g !in k.fibers[f].ancestors { assert !Under(k, g, f); }
  }

  lemma LoadWhole(k: State, g: Id, epoch: Epoch)
    requires Pending(k, g)
    ensures Whole(k) ==> Whole(Put(k, g, Begun(k.fibers[g], epoch)))
  {
    var k1 := Put(k, g, Begun(k.fibers[g], epoch));
    if Whole(k) {
      forall f | Active(k1, f) && f != ROOT ensures Matches(k1, f) { assert Active(k, f) && Matches(k, f); }
    }
  }

  /** How much the rest of the plugin may still add. */
  lemma {:induction false} SizesGrow(p: Plugin, i: nat, n: nat)
    requires i <= n <= |p.actions|
    ensures Sizes(p, i) <= Sizes(p, n)
  {
    if i < n { SizesGrow(p, i, n - 1); }
  }

  lemma DoingLeft(c: Ctx, k0: State, k: State, busy: set<Id>, g: Id, epoch: Epoch, i: nat)
    requires Doing(c, k0, k, busy, g, epoch, i)
    ensures g in k.fibers && g in k0.fibers && k.fibers[g].plugin == k0.fibers[g].plugin && Left(k) < Left(k0)
    ensures i < |k0.fibers[g].plugin.actions| && k0.fibers[g].plugin.actions[i].Mount? ==>
              Left(k) + Size(k0.fibers[g].plugin.actions[i].plugin) < Left(k0)
  {
    hide Left, Size;
    var p := k0.fibers[g].plugin;
    SizesGrow(p, i, |p.actions|);
    if i < |p.actions| { SizesGrow(p, i + 1, |p.actions|); }
  }

  /** What an action left behind goes on fitting as other fibers come and go below. */
  lemma MatchesGrew(k: State, k1: State, top: Id, f: Id, i: nat)
    requires Grew(k, k1, top) && MatchesTo(k, f, i) && k1.fibers[f] == k.fibers[f]
    ensures MatchesTo(k1, f, i)
  {
    forall j | 0 <= j < i ensures EffectFits(k1, k1.fibers[f].plugin.actions[j], k1.fibers[f].effects[j + 1]) {
      assert EffectFits(k, k.fibers[f].plugin.actions[j], k.fibers[f].effects[j + 1]);
    }
  }

  lemma DidProvide(c: Ctx, k0: State, k: State, k1: State, busy: set<Id>, g: Id, epoch: Epoch, i: nat, n: string)
    requires Doing(c, k0, k, busy, g, epoch, i) && i < |k0.fibers[g].plugin.actions| && k0.fibers[g].plugin.actions[i] == Provide(n)
    requires n !in k.impls && Applying(Up(g, c.others), k1, busy) && Moved(Up(g, c.others), Serving(k, g, n), k1)
    ensures Doing(c, k0, k1, busy, g, epoch, i + 1)
  {
    hide Ready, BusyOk, CanLoad, Loadable, UpOk, Left, EffectFits;
    var ks := Serving(k, g, n);
    ServingMatches(k, g, n, i);
    ServingWithin(k0, k, g, n);
    GrewWithin(k0, ks, k1, g);
    MatchesGrew(ks, k1, g, g, i + 1);
    assert Left(ks) <= Left(k) by { ProvideStarts(Up(g, c.others), k, busy, n); }
    ServingWhole(k, g, n);
  }

  lemma ServingMatches(k: State, g: Id, n: string, i: nat)
    requires MatchesTo(k, g, i) && i < |k.fibers[g].plugin.actions| && k.fibers[g].plugin.actions[i] == Provide(n)
    ensures MatchesTo(Serving(k, g, n), g, i + 1)
  {
    var ks := Serving(k, g, n);
    forall j | 0 <= j < i + 1 ensures EffectFits(ks, ks.fibers[g].plugin.actions[j], ks.fibers[g].effects[j + 1]) {
      if j < i { assert EffectFits(k, k.fibers[g].plugin.actions[j], k.fibers[g].effects[j + 1]); }
    }
  }

  lemma ServingWithin(k0: State, k: State, g: Id, n: string)
    requires Within(k0, k, g) && IsLoading(k, g)
    ensures Within(k0, Serving(k, g, n), g) && IsLoading(Serving(k, g, n), g)
  {
  }

  lemma ServingWhole(k: State, g: Id, n: string)
    requires IsLoading(k, g)
    ensures Whole(k) ==> Whole(Serving(k, g, n))
  {
    var ks := Serving(k, g, n);
    if Whole(k) {
      forall f | Active(ks, f) && f != ROOT ensures Matches(ks, f) { assert Active(k, f) && Matches(k, f); SameFits(k, ks, f); }
    }
  }

  lemma SameFits(k: State, k1: State, f: Id)
    requires Matches(k, f) && f in k1.fibers && k1.fibers[f] == k.fibers[f]
    requires forall g {:trigger g in k.fibers} :: g in k.fibers ==> g in k1.fibers && k1.fibers[g].plugin == k.fibers[g].plugin
    ensures Matches(k1, f)
  {
    forall j | 0 <= j < |k.fibers[f].plugin.actions| ensures EffectFits(k1, k1.fibers[f].plugin.actions[j], k1.fibers[f].effects[j + 1]) {
      assert EffectFits(k, k.fibers[f].plugin.actions[j], k.fibers[f].effects[j + 1]);
    }
  }

  lemma DidListen(c: Ctx, k0: State, k: State, busy: set<Id>, g: Id, epoch: Epoch, i: nat, event: string, prepend: bool)
    requires Doing(c, k0, k, busy, g, epoch, i) && i < |k0.fibers[g].plugin.actions| && k0.fibers[g].plugin.actions[i] == Listen(event, prepend)
    ensures Doing(c, k0, Hearing(k, g, event, prepend), busy, g, epoch, i + 1)
  {
    hide Ready, BusyOk, CanLoad, Loadable, UpOk, Left, EffectFits;
    HearingBusy(Up(g, c.others), k, busy, event, prepend);
    HearingMatches(k, g, event, prepend, i);
    HearingWithin(k0, k, g, event, prepend);
    HearingWhole(k, g, event, prepend);
  }

  lemma HearingMatches(k: State, g: Id, event: string, prepend: bool, i: nat)
    requires MatchesTo(k, g, i) && i < |k.fibers[g].plugin.actions| && k.fibers[g].plugin.actions[i] == Listen(event, prepend)
    ensures MatchesTo(Hearing(k, g, event, prepend), g, i + 1)
  {
    var ks := Hearing(k, g, event, prepend);
    forall j | 0 <= j < i + 1 ensures EffectFits(ks, ks.fibers[g].plugin.actions[j], ks.fibers[g].effects[j + 1]) {
      if j < i { assert EffectFits(k, k.fibers[g].plugin.actions[j], k.fibers[g].effects[j + 1]); }
    }
  }

  lemma HearingWithin(k0: State, k: State, g: Id, event: string, prepend: bool)
    requires Within(k0, k, g) && IsLoading(k, g)
    ensures Within(k0, Hearing(k, g, event, prepend), g) && IsLoading(Hearing(k, g, event, prepend), g)
  {
  }

  lemma HearingWhole(k: State, g: Id, event: string, prepend: bool)
    requires IsLoading(k, g)
    ensures Whole(k) ==> Whole(Hearing(k, g, event, prepend))
  {
    var ks := Hearing(k, g, event, prepend);
    if Whole(k) {
      forall f | Active(ks, f) && f != ROOT ensures Matches(ks, f) { assert Active(k, f) && Matches(k, f); SameFits(k, ks, f); }
    }
  }

  lemma DidMount(c: Ctx, k0: State, k: State, k1: State, busy: set<Id>, g: Id, epoch: Epoch, i: nat, p: Plugin)
    requires Doing(c, k0, k, busy, g, epoch, i) && i < |k0.fibers[g].plugin.actions| && k0.fibers[g].plugin.actions[i] == Mount(p)
    requires Applying(Up(g, c.others), k1, busy) && Moved(Up(g, c.others), Bearing(k, g, p), k1)
    ensures Doing(c, k0, k1, busy, g, epoch, i + 1)
  {
    hide Grew, Within;
    hide Ready, BusyOk, CanLoad, Loadable, UpOk, Left, EffectFits;
    var kb := Bearing(k, g, p);
    DoingFresh(c, k0, k, busy, g, epoch, i);
    BearingMatches(k, g, p, i);
    BearingWithin(k0, k, g, p);
    GrewWithin(k0, kb, k1, g);
    MatchesGrew(kb, k1, g, g, i + 1);
    assert Left(kb) <= Left(k) + Size(p) by { DoingBearing(c, k0, k, busy, g, epoch, i, p); }
    BearingWhole(k, g, p);
  }

  lemma DoingFresh(c: Ctx, k0: State, k: State, busy: set<Id>, g: Id, epoch: Epoch, i: nat)
    requires Doing(c, k0, k, busy, g, epoch, i)
    ensures k.uids !in k.fibers && k0.uids <= k.uids && g in k.fibers[g].ancestors && k.uids > g
  {
    UidsFresh(k);
    assert PlaceOk(k, g);
  }

  lemma DoingBearing(c: Ctx, k0: State, k: State, busy: set<Id>, g: Id, epoch: Epoch, i: nat, p: Plugin)
    requires Doing(c, k0, k, busy, g, epoch, i)
    ensures Left(Bearing(k, g, p)) <= Left(k) + Size(p)
  {
    BearingUp(k, g, p, g);
  }

  lemma BearingMatches(k: State, g: Id, p: Plugin, i: nat)
    requires MatchesTo(k, g, i) && i < |k.fibers[g].plugin.actions| && k.fibers[g].plugin.actions[i] == Mount(p)
    requires k.uids !in k.fibers
    ensures MatchesTo(Bearing(k, g, p), g, i + 1)
  {
    var ks := Bearing(k, g, p);
    forall j | 0 <= j < i + 1 ensures EffectFits(ks, ks.fibers[g].plugin.actions[j], ks.fibers[g].effects[j + 1]) {
      if j < i { assert EffectFits(k, k.fibers[g].plugin.actions[j], k.fibers[g].effects[j + 1]); }
    }
  }

  lemma BearingWithin(k0: State, k: State, g: Id, p: Plugin)
    requires Within(k0, k, g) && IsLoading(k, g) && k.uids !in k.fibers && g in k.fibers[g].ancestors && k0.uids <= k.uids
    ensures Within(k0, Bearing(k, g, p), g) && IsLoading(Bearing(k, g, p), g)
  {
    var kb := Bearing(k, g, p);
    forall f | f in kb.fibers && f !in k0.fibers ensures k0.uids <= f && g in kb.fibers[f].ancestors && kb.fibers[f].phase.Rest? {
      if f != k.uids && f != g { assert f in k.fibers; }
    }
  }

  lemma BearingWhole(k: State, g: Id, p: Plugin)
    requires IsLoading(k, g) && k.uids !in k.fibers
    ensures Whole(k) ==> Whole(Bearing(k, g, p))
  {
    var ks := Bearing(k, g, p);
    if Whole(k) {
      forall f | Active(ks, f) && f != ROOT ensures Matches(ks, f) { assert Active(k, f) && Matches(k, f); SameFits(k, ks, f); }
    }
  }

  lemma AppliedAgain(c: Ctx, k: State, busy: set<Id>)
    requires c.Up? && Ready(c, k) && BusyOk(c, k, busy) && forall h :: Due(c, k, h) ==> h in c.others
    ensures Applying(c, k, busy)
  {
    forall h | CanLoad(k, h) ensures h in c.others { assert Due(c, k, h); }
  }

  lemma ApplyingHere(c: Ctx, k: State, busy: set<Id>)
    requires Applying(c, k, busy)
    ensures c.Up? && c.top in k.fibers
  {
  }

  lemma MountEnds(c: Ctx, k: State, k1: State, busy: set<Id>, x: Id, log: seq<Entry>, log1: seq<Entry>)
    requires c.Up? && Reconciled(c, k, k1, busy, x, log, log1)
    ensures Applying(c, k1, busy) && Moved(c, k, k1) && (Pending(k, x) && !Active(k1, x) ==> OnlyItself(k, k1, x))
  {
    AppliedAgain(c, k1, busy);
  }

  lemma LoadableHere(c: Ctx, k: State, busy: set<Id>, g: Id, epoch: Epoch)
    requires Loadable(c, k, busy, g, epoch)
    ensures c.Up? && g in k.fibers && !k.fibers[g].gone
  {
  }

  lemma DoingHere(c: Ctx, k0: State, k: State, busy: set<Id>, g: Id, epoch: Epoch, i: nat)
    requires Doing(c, k0, k, busy, g, epoch, i)
    ensures Applying(Up(g, c.others), k, busy) && IsLoading(k, g) && g in k.fibers[g].ancestors && !Pending(k, g)
    ensures g in k0.fibers && k.fibers[g].plugin == k0.fibers[g].plugin && Left(k) < Left(k0)
    ensures i < |k0.fibers[g].plugin.actions| && k0.fibers[g].plugin.actions[i].Mount? ==>
              Left(k) + Size(k0.fibers[g].plugin.actions[i].plugin) < Left(k0)
  {
    DoingLeft(c, k0, k, busy, g, epoch, i);
    assert PlaceOk(k, g);
  }

  /** Since the load of `g` began, only it and fibers below it were begun. */
  ghost predicate LoadingLog(k0: State, g: Id, loads0: seq<Begin>, loads: seq<Begin>) {
    g in k0.fibers && !k0.fibers[g].gone && BegunBelow(loads0, loads, k0.fibers[g].ancestors) && Tried(loads0, loads, g) && Spared(k0, loads0, loads)
  }

  lemma LoadLogStarts(k0: State, g: Id, loads0: seq<Begin>)
    requires g in k0.fibers && !k0.fibers[g].gone
    ensures LoadingLog(k0, g, loads0, loads0 + [Begin(g, k0.fibers[g].ancestors)])
  {
    BegunOne(loads0, g, k0.fibers[g].ancestors);
  }

  lemma LoadLogOn(c: Ctx, k0: State, k: State, busy: set<Id>, g: Id, epoch: Epoch, i: nat, loads0: seq<Begin>, loads: seq<Begin>, loads1: seq<Begin>)
    requires Doing(c, k0, k, busy, g, epoch, i) && LoadingLog(k0, g, loads0, loads) && BegunIn(Up(g, c.others), k, loads, loads1)
    ensures LoadingLog(k0, g, loads0, loads1)
  {
    hide Loadable, Applying, MatchesTo, Left, Whole, BegunBelow, Tried, Spared, UpOk;
    BegunTrans(loads0, loads, loads1, k0.fibers[g].ancestors);
    SparedTrans(k0, k, loads0, loads, loads1, k0.fibers[g].ancestors) by { LoadLogSpares(k0, k, g); }
  }

  lemma LoadLogSpares(k0: State, k: State, g: Id)
    requires Within(k0, k, g) && g in k0.fibers && !k0.fibers[g].gone
    ensures Later(k0, k)
  {
  }

  lemma LoadLogEnds(c: Ctx, k0: State, busy: set<Id>, g: Id, epoch: Epoch, loads0: seq<Begin>, loads: seq<Begin>)
    requires Loadable(c, k0, busy, g, epoch) && LoadingLog(k0, g, loads0, loads)
    ensures BegunIn(c, k0, loads0, loads) && Tried(loads0, loads, g) && BegunBelow(loads0, loads, {g})
  {
    hide BegunBelow, Tried, BusyBut, Desired, Settled, Spared;
    LoadLine(c, k0, g);
    BegunLess(loads0, loads, {g}, k0.fibers[g].ancestors);
    BegunLess(loads0, loads, Line(k0, c.top), k0.fibers[g].ancestors);
  }

  lemma LoadLine(c: Ctx, k: State, g: Id)
    requires c.Up? && UpOk(k, c.top) && g in k.fibers && c.top in k.fibers[g].ancestors
    ensures Line(k, c.top) <= k.fibers[g].ancestors && g in k.fibers[g].ancestors && c.top in k.fibers
  {
    assert PlaceOk(k, g);
  }

  lemma LoadLogNotified(c: Ctx, k0: State, k1: State, busy: set<Id>, g: Id, epoch: Epoch, loads0: seq<Begin>, loads: seq<Begin>, loads1: seq<Begin>)
    requires Loadable(c, k0, busy, g, epoch) && LoadingLog(k0, g, loads0, loads) && Grew(k0, k1, c.top) && BegunIn(c, k1, loads, loads1)
    ensures BegunIn(c, k0, loads0, loads1) && Tried(loads0, loads1, g)
  {
    hide BegunBelow, Tried, BusyBut, Desired, Settled, WellFormed, Grew, Spared;
    LoadLogEnds(c, k0, busy, g, epoch, loads0, loads);
    LineGrew(k0, k1, c.top);
    BegunTrans(loads0, loads, loads1, Line(k0, c.top));
    SparedTrans(k0, k1, loads0, loads, loads1, Line(k0, c.top)) by { GrewLater(k0, k1, c.top); }
  }

  lemma LoadDoneActive(c: Ctx, k0: State, k1: State, k2: State, g: Id)
    requires c.Up? && Active(k1, g) && Moved(c, k1, k2)
    ensures Active(k2, g)
  {
  }

  // -- a load that fails -----------------------------------------------------------------------------

  function Rollback(k: State, g: Id): Ctx {
    Down(Below(k, g), Below(k, g))
  }

  lemma LoadFails(c: Ctx, k0: State, k: State, busy: set<Id>, g: Id, epoch: Epoch, i: nat)
    requires Doing(c, k0, k, busy, g, epoch, i)
    ensures var ku := Put(k, g, Failing(k.fibers[g], epoch));
            Undoable(Rollback(k, g), ku, busy, g) && AllMounted(ku, g)
  {
    hide Doing, Undoable, AllMounted, UpOk, DownOk, BusyOk, OnlySelf, AboveAll, Stale, CanLoad, Loadable, BusyBut;
    DoingParts(c, k0, k, busy, g, epoch, i);
    FailDown(k, g, epoch);
    FailBusy(c, k0, k, busy, g, epoch);
    FailMounted(k, g, epoch);
    FailUndoable(k, busy, g, epoch);
  }

  lemma DoingParts(c: Ctx, k0: State, k: State, busy: set<Id>, g: Id, epoch: Epoch, i: nat)
    requires Doing(c, k0, k, busy, g, epoch, i)
    ensures UpOk(k, g) && IsLoading(k, g) && Within(k0, k, g) && Loadable(c, k0, busy, g, epoch) && BusyOk(Up(g, c.others), k, busy)
    ensures k.fibers[g].loaded.None? && Pending(k0, g) && !k0.fibers[g].gone
  {
  }

  lemma FailUndoable(k: State, busy: set<Id>, g: Id, epoch: Epoch)
    requires IsLoading(k, g)
    requires var ku := Put(k, g, Failing(k.fibers[g], epoch));
             && DownOk(ku, Below(k, g)) && OnlySelf(ku, g) && AboveAll(ku, g) && BusyOk(Rollback(k, g), ku, busy)
             && (forall f :: Stale(ku, f) ==> f in Below(k, g)) && g in k.fibers[g].ancestors
    ensures Undoable(Rollback(k, g), Put(k, g, Failing(k.fibers[g], epoch)), busy, g)
  {
  }

  lemma FailBusy(c: Ctx, k0: State, k: State, busy: set<Id>, g: Id, epoch: Epoch)
    requires Loadable(c, k0, busy, g, epoch) && Within(k0, k, g) && UpOk(k, g) && IsLoading(k, g) && BusyOk(Up(g, c.others), k, busy)
    ensures BusyOk(Rollback(k, g), Put(k, g, Failing(k.fibers[g], epoch)), busy) && g in k.fibers[g].ancestors
  {
    hide PlaceOk, Desired;
    assert PlaceOk(k, g);
    var ku := Put(k, g, Failing(k.fibers[g], epoch));
    forall r | r in busy && r in ku.fibers && r in Below(k, g) ensures r == g {
      assert r < k0.uids && (r in k0.fibers || k0.uids <= r);
    }
  }

  lemma FailMounted(k: State, g: Id, epoch: Epoch)
    requires UpOk(k, g) && IsLoading(k, g)
    ensures AllMounted(Put(k, g, Failing(k.fibers[g], epoch)), g)
  {
    forall x | x in k.fibers && x != ROOT && k.fibers[x].parent == g ensures Mounted(x) in k.fibers[g].effects { assert ChildOk(k, x); }
  }

  lemma LoadRolledBack(c: Ctx, k0: State, k: State, kd: State, busy: set<Id>, g: Id, epoch: Epoch, i: nat, log: seq<Entry>, log1: seq<Entry>)
    requires Doing(c, k0, k, busy, g, epoch, i)
    requires Undoable(Rollback(k, g), kd, busy, g) && Alone(kd, g)
    requires Took(Put(k, g, Failing(k.fibers[g], epoch)), kd, Below(k, g), {g}, log, log1)
    requires kd.fibers[g] == Failing(k.fibers[g], epoch).(effects := [])
    ensures LoadDone(c, k0, Put(kd, g, Dropped(kd.fibers[g])), busy, g, epoch)
  {
    hide Doing, Undoable, AllMounted, UpOk, BusyOk, OnlySelf, AboveAll, Stale, CanLoad, Loadable, Shrunk, Logged, NoNewLoads, Actives, ClosedUnder;
    DoingParts(c, k0, k, busy, g, epoch, i);
    UndoableParts(Rollback(k, g), kd, busy, g);
    LoadableParts(c, k0, busy, g, epoch);
    UpTree(k, g);
    TookShrunk(Put(k, g, Failing(k.fibers[g], epoch)), kd, Below(k, g), {g}, log, log1);
    RolledBack(k0, k, kd, g, epoch);
    GivenUp(c, k0, Put(kd, g, Dropped(kd.fibers[g])), busy, g, epoch, GaveUp(k0.fibers[g], epoch));
  }

  lemma UndoableParts(c: Ctx, k: State, busy: set<Id>, g: Id)
    requires Undoable(c, k, busy, g)
    ensures WellFormed(k) && g in k.fibers
  {
  }

  lemma LoadableParts(c: Ctx, k: State, busy: set<Id>, g: Id, epoch: Epoch)
    requires Loadable(c, k, busy, g, epoch)
    ensures WellFormed(k) && Pending(k, g) && g in k.fibers && !k.fibers[g].gone && g != ROOT
  {
    assert k.fibers[ROOT].phase.Rest?;
  }

  lemma UpTree(k: State, top: Id)
    requires UpOk(k, top)
    ensures TreeOk(k)
  {
  }

  lemma TookShrunk(k: State, k1: State, zone: set<Id>, except: set<Id>, log: seq<Entry>, log1: seq<Entry>)
    requires Took(k, k1, zone, except, log, log1)
    ensures Shrunk(k, k1, zone, except)
  {
  }

  /** The state after a rollback is a good one to go on from: the fiber is not due again. */
  lemma GivenUp(c: Ctx, k0: State, kf: State, busy: set<Id>, g: Id, epoch: Epoch, y: Fiber)
    requires Loadable(c, k0, busy, g, epoch) && WellFormed(kf) && g in k0.fibers
    requires SameButCounters(Put(k0, g, y), kf) && EndsAs(k0.fibers[g], y, epoch)
    ensures LoadDone(c, k0, kf, busy, g, epoch)
  {
    GivenUpDesired(k0, kf, g, epoch, y);
    GivenUpSettled(c, k0, kf, busy, g, epoch, y);
    GivenUpLeft(k0, kf, g, epoch, y);
    GivenUpWhole(k0, kf, g, epoch, y);
    GivenUpBusy(c, k0, kf, busy, g, epoch, y);
  }

  lemma GivenUpDesired(k0: State, kf: State, g: Id, epoch: Epoch, y: Fiber)
    requires Pending(k0, g) && SameButCounters(Put(k0, g, y), kf) && EndsAs(k0.fibers[g], y, epoch)
    ensures forall h, n :: h in k0.fibers ==> (Usable(kf, n, h) <==> Usable(k0, n, h))
    ensures forall h :: h in k0.fibers ==> Desired(kf, h) == Desired(k0, h)
  {
    forall h, n | h in k0.fibers ensures Usable(kf, n, h) <==> Usable(k0, n, h) {
      if n in k0.impls && k0.impls[n].owner in k0.fibers {
        forall a | a in k0.fibers[k0.impls[n].owner].ancestors ensures Lets(kf, a, h) <==> Lets(k0, a, h) {}
      }
    }
  }

  lemma GivenUpSettled(c: Ctx, k0: State, kf: State, busy: set<Id>, g: Id, epoch: Epoch, y: Fiber)
    requires Loadable(c, k0, busy, g, epoch) && WellFormed(kf) && SameButCounters(Put(k0, g, y), kf) && EndsAs(k0.fibers[g], y, epoch)
    requires forall h, n :: h in k0.fibers ==> (Usable(kf, n, h) <==> Usable(k0, n, h))
    ensures UpOk(kf, c.top) && Grew(k0, kf, c.top)
  {
    hide WellFormed, Desired, BusyBut;
    GivenUpGrew(k0, kf, g, epoch, y, c.top);
    GivenUpStores(k0, kf, g, epoch, y);
  }

  lemma GivenUpStores(k0: State, kf: State, g: Id, epoch: Epoch, y: Fiber)
    requires Pending(k0, g) && Settled(k0) && SameButCounters(Put(k0, g, y), kf) && EndsAs(k0.fibers[g], y, epoch)
    requires forall h, n :: h in k0.fibers ==> (Usable(kf, n, h) <==> Usable(k0, n, h))
    ensures Settled(kf)
  {
    hide Usable;
    forall f, n | f in kf.fibers && n in kf.fibers[f].store ensures Usable(kf, n, f) { assert n in k0.fibers[f].store; }
  }

  lemma GivenUpGrew(k0: State, kf: State, g: Id, epoch: Epoch, y: Fiber, top: Id)
    requires Pending(k0, g) && !k0.fibers[g].gone && top in k0.fibers[g].ancestors && SameButCounters(Put(k0, g, y), kf) && EndsAs(k0.fibers[g], y, epoch)
    ensures Grew(k0, kf, top)
  {
  }

  lemma GivenUpLeft(k0: State, kf: State, g: Id, epoch: Epoch, y: Fiber)
    requires WellFormed(k0) && CanLoad(k0, g) && Desired(k0, g) == Some(epoch) && SameButCounters(Put(k0, g, y), kf) && EndsAs(k0.fibers[g], y, epoch)
    requires forall h :: h in k0.fibers ==> Desired(kf, h) == Desired(k0, h)
    ensures Left(kf) < Left(k0)
  {
    forall h | h in k0.live ensures Weight(kf, h) <= Weight(k0, h) {}
    assert PlaceOk(k0, g);
    TotalLess(k0, kf, k0.live, g, 1);
  }

  lemma GivenUpWhole(k0: State, kf: State, g: Id, epoch: Epoch, y: Fiber)
    requires Pending(k0, g) && SameButCounters(Put(k0, g, y), kf) && EndsAs(k0.fibers[g], y, epoch)
    ensures Whole(k0) ==> Whole(kf)
  {
    if Whole(k0) {
      forall f | Active(kf, f) && f != ROOT ensures Matches(kf, f) { assert Active(k0, f) && Matches(k0, f); SameFits(k0, kf, f); }
    }
  }

  lemma GivenUpBusy(c: Ctx, k0: State, kf: State, busy: set<Id>, g: Id, epoch: Epoch, y: Fiber)
    requires Loadable(c, k0, busy, g, epoch) && SameButCounters(Put(k0, g, y), kf) && EndsAs(k0.fibers[g], y, epoch)
    requires forall h :: h in k0.fibers ==> Desired(kf, h) == Desired(k0, h)
    ensures BusyBut(c, kf, busy, {g}) && (forall h :: CanLoad(kf, h) ==> h in c.others)
  {
    forall h | CanLoad(kf, h) ensures h in c.others { assert h != g && CanLoad(k0, h); }
  }

  // -- a load that succeeds ----------------------------------------------------------------------------

  lemma LoadFinishes(c: Ctx, k0: State, k: State, busy: set<Id>, g: Id, epoch: Epoch)
    requires g in k0.fibers && Doing(c, k0, k, busy, g, epoch, |k0.fibers[g].plugin.actions|)
    ensures g in k.fibers && k.fibers[g].store == epoch
    ensures var k1 := Put(k, g, k.fibers[g].(loaded := Some(epoch), phase := Rest));
            && Ready(c, k1) && BusyOk(c, k1, busy) && DueOrHears(c, k1, NamesWithin(k1, g)) && Heard(c, k1, NamesWithin(k1, g))
            && Left(k1) < Left(k0) && Grew(k0, k1, c.top) && (Whole(k0) && !k0.fibers[g].plugin.retires ==> Whole(k1)) && Active(k1, g)
  {
    hide WellFormed, UpOk, BusyOk, BusyBut, CanLoad, Whole, Left, Hears, Matches, Desired;
    DoingParts(c, k0, k, busy, g, epoch, |k0.fibers[g].plugin.actions|);
    TopOutside(c, k0, k, busy, g, epoch);
    FinishUp(k, g, c.top);
    FinishBusy(c, k0, k, busy, g, epoch);
    FinishHears(c, k, g, epoch);
    DoingLeft(c, k0, k, busy, g, epoch, |k0.fibers[g].plugin.actions|);
    FinishWhole(k, g, epoch);
    FinishGrew(c, k0, k, g, epoch);
  }

  lemma TopOutside(c: Ctx, k0: State, k: State, busy: set<Id>, g: Id, epoch: Epoch)
    requires Loadable(c, k0, busy, g, epoch) && Within(k0, k, g) && IsLoading(k, g)
    ensures c.Up? && c.top in k.fibers && c.top != g && (c.top == ROOT || IsLoading(k, c.top)) && c.top in k.fibers[g].ancestors
    ensures forall f :: IsLoading(k, f) && f != g ==> f in k.fibers[c.top].ancestors
    ensures forall f :: f in k0.fibers && g in k0.fibers[f].ancestors ==> f == g
    ensures c.top in k0.fibers[g].ancestors && Pending(k0, g)
  {
    forall f | IsLoading(k, f) && f != g ensures f in k.fibers[c.top].ancestors {
      assert f in k0.fibers && IsLoading(k0, f);
    }
  }

  lemma FinishBusy(c: Ctx, k0: State, k: State, busy: set<Id>, g: Id, epoch: Epoch)
    requires Loadable(c, k0, busy, g, epoch) && Within(k0, k, g) && IsLoading(k, g) && BusyOk(Up(g, c.others), k, busy)
    ensures BusyOk(c, Put(k, g, k.fibers[g].(loaded := Some(epoch), phase := Rest)), busy)
  {
  }

  lemma FinishHears(c: Ctx, k: State, g: Id, epoch: Epoch)
    requires c.Up? && UpOk(k, g) && IsLoading(k, g) && c.top in k.fibers[g].ancestors && (forall h :: CanLoad(k, h) ==> h in c.others)
    requires var k1 := Put(k, g, k.fibers[g].(loaded := Some(epoch), phase := Rest));
             forall h :: CanLoad(k1, h) ==> CanLoad(k, h) || exists n :: n in k.fibers[h].plugin.inject && n in NamesWithin(k1, g)
    ensures var k1 := Put(k, g, k.fibers[g].(loaded := Some(epoch), phase := Rest));
            DueOrHears(c, k1, NamesWithin(k1, g)) && Heard(c, k1, NamesWithin(k1, g))
  {
    hide IsLoading;
    var k1 := Put(k, g, k.fibers[g].(loaded := Some(epoch), phase := Rest));
    forall n | n in NamesWithin(k1, g) ensures n in k1.impls && Under(k1, c.top, k1.impls[n].owner) {
      assert g in k.fibers[k.impls[n].owner].ancestors;
    }
    forall h | CanLoad(k1, h) ensures h in c.others || Hears(k1, h, NamesWithin(k1, g)) {}
  }

  lemma FinishWhole(k: State, g: Id, epoch: Epoch)
    requires IsLoading(k, g) && MatchesTo(k, g, |k.fibers[g].plugin.actions|)
    ensures var k1 := Put(k, g, k.fibers[g].(loaded := Some(epoch), phase := Rest)); Whole(k) && !k.fibers[g].plugin.retires ==> Whole(k1)
  {
    var k1 := Put(k, g, k.fibers[g].(loaded := Some(epoch), phase := Rest));
    if Whole(k) && !k.fibers[g].plugin.retires {
      forall f | Active(k1, f) && f != ROOT ensures Matches(k1, f) {
        if f != g { assert Active(k, f) && Matches(k, f); SameFits(k, k1, f); }
        else {
          forall j | 0 <= j < |k.fibers[g].plugin.actions| ensures EffectFits(k1, k1.fibers[g].plugin.actions[j], k1.fibers[g].effects[j + 1]) {
            assert EffectFits(k, k.fibers[g].plugin.actions[j], k.fibers[g].effects[j + 1]);
          }
        }
      }
    }
  }

  lemma FinishGrew(c: Ctx, k0: State, k: State, g: Id, epoch: Epoch)
    requires c.Up? && UpOk(k, g) && Within(k0, k, g) && Pending(k0, g) && c.top in k0.fibers[g].ancestors && IsLoading(k, g) && c.top != g
    requires !k0.fibers[g].gone && forall f :: f in k0.fibers && g in k0.fibers[f].ancestors ==> f == g
    ensures Grew(k0, Put(k, g, k.fibers[g].(loaded := Some(epoch), phase := Rest)), c.top)
  {
    var k1 := Put(k, g, k.fibers[g].(loaded := Some(epoch), phase := Rest));
    forall f | f in k1.fibers && f !in k0.fibers ensures c.top in k1.fibers[f].ancestors && k0.uids <= f && k1.fibers[f].phase.Rest? {
      assert g in k.fibers[f].ancestors;
    }
  }

  lemma LoadEnds(c: Ctx, k0: State, k1: State, k2: State, busy: set<Id>, g: Id, epoch: Epoch)
    requires c.Up? && Grew(k0, k1, c.top) && Left(k1) < Left(k0) && (Whole(k0) ==> Whole(k1)) && Active(k1, g) && g in k0.fibers && !k0.fibers[g].plugin.retires
    requires Ready(c, k2) && BusyOk(c, k2, busy) && (forall h :: CanLoad(k2, h) ==> h in c.others) && Moved(c, k1, k2)
    ensures LoadDone(c, k0, k2, busy, g, epoch)
  {
    hide Whole, UpOk, CanLoad, Left;
    GrewTrans(k0, k1, k2, c.top);
  }

  // -- a load that ends in its own disposal -------------------------------------------------------------

  /** The loaded fiber can be unloaded at once: nobody outside uses it yet. */
  lemma LoadRetires(c: Ctx, k0: State, k: State, busy: set<Id>, g: Id, epoch: Epoch)
    requires g in k0.fibers && Doing(c, k0, k, busy, g, epoch, |k0.fibers[g].plugin.actions|)
    ensures var k1 := Put(k, g, LoadedWith(k.fibers[g], epoch)); Unloadable(Rollback(k, g), k1, busy, g) && Active(k1, g)
  {
    hide Doing, UpOk, DownOk, BusyOk, BusyBut, OnlySelf, AboveAll, FreeBelow, StaleBut, Stale, CanLoad, Loadable, Left, Whole, Grew, DueOrHears, Heard, NamesWithin;
    DoingParts(c, k0, k, busy, g, epoch, |k0.fibers[g].plugin.actions|);
    var k1 := Put(k, g, LoadedWith(k.fibers[g], epoch));
    LoadFinishes(c, k0, k, busy, g, epoch);
    TopOutside(c, k0, k, busy, g, epoch);
    RetireDown(k, g, epoch, c.top);
    RetireBusy(c, k0, k, busy, g, epoch);
    RetireUnloadable(k, k1, busy, g);
  }

  lemma RetireUnloadable(k: State, k1: State, busy: set<Id>, g: Id)
    requires DownOk(k1, Below(k, g)) && FreeBelow(k1, g) && AboveAll(k1, g) && (forall h :: !Stale(k1, h))
    requires BusyBut(Rollback(k, g), k1, busy, {g}) && g in k1.fibers && g != ROOT && g in Below(k, g)
    ensures Unloadable(Rollback(k, g), k1, busy, g)
  {
    hide DownOk, FreeBelow, AboveAll, BusyBut, Stale;
  }

  lemma RetireDown(k: State, g: Id, epoch: Epoch, top: Id)
    requires UpOk(k, g) && IsLoading(k, g) && UpOk(Put(k, g, LoadedWith(k.fibers[g], epoch)), top)
    ensures var k1 := Put(k, g, LoadedWith(k.fibers[g], epoch));
            && DownOk(k1, Below(k, g)) && FreeBelow(k1, g) && AboveAll(k1, g) && (forall h :: !Stale(k1, h)) && g != ROOT && g in Below(k, g)
  {
    var k1 := Put(k, g, LoadedWith(k.fibers[g], epoch));
    FinishClosed(k, g, epoch);
    assert PlaceOk(k, g);
    forall h | Stale(k1, h) ensures false { SettledDesired(k1, top, h); }
    forall f | f in Below(k, g) ensures !IsLoading(k1, f) {
      assert g <= f && (IsLoading(k, f) ==> f <= g);
    }
  }

  lemma RetireBusy(c: Ctx, k0: State, k: State, busy: set<Id>, g: Id, epoch: Epoch)
    requires Loadable(c, k0, busy, g, epoch) && Within(k0, k, g) && IsLoading(k, g)
    requires BusyOk(c, Put(k, g, LoadedWith(k.fibers[g], epoch)), busy)
    ensures BusyBut(Rollback(k, g), Put(k, g, LoadedWith(k.fibers[g], epoch)), busy, {g})
  {
    hide PlaceOk, Desired, UpOk;
    var k1 := Put(k, g, LoadedWith(k.fibers[g], epoch));
    forall r | r in busy && r in k1.fibers && r in Below(k, g) ensures r == g {
      assert r < k0.uids && (r in k0.fibers || k0.uids <= r);
    }
  }

  lemma LoadRetired(c: Ctx, k0: State, k: State, kd: State, busy: set<Id>, g: Id, epoch: Epoch, log: seq<Entry>, mark: nat, log1: seq<Entry>)
    requires g in k0.fibers && Doing(c, k0, k, busy, g, epoch, |k0.fibers[g].plugin.actions|) && k0.fibers[g].plugin.retires
    requires Unloaded(Rollback(k, g), Put(k, g, LoadedWith(k.fibers[g], epoch)), kd, busy, g, log, mark, log1)
    ensures LoadDone(c, k0, kd, busy, g, epoch)
  {
    hide UpOk, BusyOk, OnlySelf, AboveAll, Stale, CanLoad, Loadable, Shrunk, Logged, NoNewLoads, Actives, ClosedUnder, MatchesTo, Applying, WellFormed;
    DoingParts(c, k0, k, busy, g, epoch, |k0.fibers[g].plugin.actions|);
    LoadableParts(c, k0, busy, g, epoch);
    Withdrawn(k0, k, kd, g, epoch);
    GivenUp(c, k0, kd, busy, g, epoch, Departed(k0.fibers[g]));
  }

  // -- proof steps of UndoLast --------------------------------------------------------------------

  lemma UndoableHere(c: Ctx, k: State, busy: set<Id>, f: Id)
    requires Undoable(c, k, busy, f)
    ensures IsUnloading(k, f) && c.Down? && f in k.fibers
  {
  }

  lemma AllMountedLater(c: Ctx, k: State, busy: set<Id>, f: Id)
    requires Undoable(c, k, busy, f) && AllMounted(k, f) && k.fibers[f].effects != []
    ensures !Newest(k, f).Mounted? ==> AllMounted(Undoing(k, f), f)
    ensures Newest(k, f).Mounted? ==> AllMountedBut(Undoing(k, f), f, Newest(k, f).child)
  {
    AllMountedAfter(k, f);
  }

  /** Every child but `x`, whose turn it is. */
  ghost predicate AllMountedBut(k: State, f: Id, x: Id) {
    && f in k.fibers && x in k.fibers && x != ROOT && k.fibers[x].parent == f && Mounted(x) !in k.fibers[f].effects
    && forall y {:trigger y in k.fibers} :: y in k.fibers && y != ROOT && y != x && k.fibers[y].parent == f ==> Mounted(y) in k.fibers[f].effects
  }

  lemma WithdrawHeard(c: Ctx, k: State, busy: set<Id>, f: Id, n: string, s: nat)
    requires Undoable(c, k, busy, f) && k.fibers[f].effects != [] && Newest(k, f) == Provided(n, s)
    ensures var k1 := Undoing(k, f);
            && NotifyDown(c, k1, {n}) && (Undoable(c, k1, busy, f) ==> Ready(c, k1) && BusyOk(c, k1, busy) && DueOrHears(c, k1, {n}))
  {
    UndoHeard(k, c.zone, f, n, s);
  }

  lemma WithdrawDone(c: Ctx, k: State, k1: State, busy: set<Id>, f: Id, log: seq<Entry>, log1: seq<Entry>)
    requires Undoable(c, k, busy, f) && Moved(c, k, k1) && Logged(k, k1, log, log1, {})
    requires Ready(c, k1) && BusyOk(c, k1, busy) && forall h :: Due(c, k1, h) ==> h in c.others
    ensures Undoable(c, k1, busy, f) && k1.fibers[f] == k.fibers[f] && (AllMounted(k, f) ==> AllMounted(k1, f))
    ensures Took(k, k1, c.zone, {f}, log, log1) && UndoneSince(log, log1, f) == []
  {
    ShrunkAtStart(k, k1, c.zone, f);
    assert ShrunkAt(k, k1, c.zone, {}, f);
    UndoOthers(c, k, k1, busy, f, log, log1);
    if AllMounted(k, f) { AllMountedShrunk(k, k1, c.zone, f); }
  }

  lemma DisposeStarts(c: Ctx, k: State, busy: set<Id>, f: Id, x: Id)
    requires Undoable(c, k, busy, f) && AllMountedBut(k, f, x)
    ensures Disposable(c, k, busy, x)
  {
    MountedBelow(k, c.zone, f, x);
  }

  lemma DisposeDone(c: Ctx, k: State, k1: State, busy: set<Id>, f: Id, x: Id, log: seq<Entry>, log1: seq<Entry>)
    requires Undoable(c, k, busy, f) && AllMountedBut(k, f, x)
    requires Disposed(c, k, k1, busy, x, log, log1)
    ensures Undoable(c, k1, busy, f) && k1.fibers[f] == k.fibers[f] && AllMounted(k1, f)
    ensures Took(k, k1, c.zone, {f}, log, log1) && UndoneSince(log, log1, f) == []
  {
    WithoutAbsent(k.fibers[f].effects, Mounted(x));
    UndoOthers(c, k, k1, busy, f, log, log1);
    forall y | y in k1.fibers && y != ROOT && k1.fibers[y].parent == f ensures Mounted(y) in k1.fibers[f].effects {
      assert ShrunkAt(k, k1, c.zone, {f}, y);
    }
  }

  lemma ReverseNothing()
    ensures Reverse<Effect>([]) == []
  {
  }

  lemma NoChildren(k: State, c: Ctx, f: Id)
    requires c.Down? && Ready(c, k) && f in k.fibers && k.fibers[f].effects == [] && AllMounted(k, f)
    ensures Alone(k, f)
  {
    forall x | x in k.fibers && f in k.fibers[x].ancestors ensures x == f {
      assert Under(k, f, x);
      NoDescendant(k, f, x);
    }
  }

  // -- between operations --------------------------------------------------------------------------

  /** Nothing is in transition, every loaded fiber can use exactly what it was loaded against,
      and no fiber could load that has not. */
  ghost predicate Quiet(k: State, busy: set<Id>) {
    busy == {} && UpOk(k, ROOT) && (forall h :: !CanLoad(k, h))
  }

  lemma QuietRest(k: State, busy: set<Id>)
    requires Quiet(k, busy)
    ensures forall f :: f in k.fibers ==> k.fibers[f].phase.Rest?
    ensures Applying(Up(ROOT, {}), k, busy)
  {
    forall f | f in k.fibers ensures k.fibers[f].phase.Rest? { assert k.fibers[f].phase.Loading? ==> IsLoading(k, f); }
  }

  function Everyone(k: State): set<Id> {
    k.fibers.Keys - {ROOT}
  }

  function Outermost(k: State): Ctx {
    Down(Everyone(k), {})
  }

  lemma QuietDown(k: State, busy: set<Id>, f: Id)
    requires Quiet(k, busy) && f in k.fibers && f != ROOT
    ensures Disposable(Outermost(k), k, busy, f) && Unloadable(Outermost(k), k, busy, f)
  {
    QuietRest(k, busy);
    assert FiberOk(k, ROOT);
    forall g | Stale(k, g) ensures false { SettledDesired(k, ROOT, g); }
    assert DownOk(k, Everyone(k));
  }

  /** After unloading from a quiet state, only what was asked for may be due. */
  lemma QuietAgain(k: State, k': State, busy: set<Id>, except: set<Id>, but: set<Id>)
    requires Quiet(k, busy) && DownOk(k', Everyone(k)) && StaleBut(k', {}) && NoNewLoads(k, k', but)
    requires Shrunk(k, k', Everyone(k), except)
    ensures UpOk(k', ROOT) && (forall h :: CanLoad(k', h) ==> h in but) && forall f :: f in k'.fibers ==> k'.fibers[f].phase.Rest?
  {
    QuietRest(k, busy);
    forall f | f in k'.fibers ensures k'.fibers[f].phase.Rest? { assert ShrunkAt(k, k', Everyone(k), except, f); }
    forall f, n | f in k'.fibers && n in k'.fibers[f].store ensures Usable(k', n, f) {
      assert FiberOk(k', f) && Active(k', f) && !Stale(k', f);
    }
  }

  lemma WholeShrunk(k: State, k': State, zone: set<Id>)
    requires Whole(k) && MountedOk(k') && Shrunk(k, k', zone, {})
    ensures Whole(k')
  {
    forall f | Active(k', f) && f != ROOT ensures Matches(k', f) {
      assert ShrunkAt(k, k', zone, {}, f) && Active(k, f) && Matches(k, f);
      MatchesShrunk(k, k', zone, {}, f);
    }
  }

  lemma MatchesShrunk(k: State, k': State, zone: set<Id>, except: set<Id>, f: Id)
    requires Matches(k, f) && MountedOk(k') && Shrunk(k, k', zone, except) && f in k'.fibers && k'.fibers[f] == k.fibers[f]
    ensures Matches(k', f)
  {
    forall j | 0 <= j < |k.fibers[f].plugin.actions| ensures EffectFits(k', k'.fibers[f].plugin.actions[j], k'.fibers[f].effects[j + 1]) {
      var e := k.fibers[f].effects[j + 1];
      assert EffectFits(k, k.fibers[f].plugin.actions[j], e);
      if e.Mounted? {
        assert Mounted(e.child) in k'.fibers[f].effects;
        assert ShrunkAt(k, k', zone, except, e.child);
      }
    }
  }

  /** Only the root's list of children shrank. */
  lemma WholeTop(k: State, k': State, zone: set<Id>)
    requires Whole(k) && MountedOk(k') && Shrunk(k, k', zone, {ROOT})
    ensures Whole(k')
  {
    forall f | Active(k', f) && f != ROOT ensures Matches(k', f) {
      assert ShrunkAt(k, k', zone, {ROOT}, f) && Active(k, f) && Matches(k, f);
      MatchesShrunk(k, k', zone, {ROOT}, f);
    }
  }

  function Retried(x: Fiber): Fiber {
    x.(failed := None)
  }

  /** A restarted fiber may load again. */
  lemma RestartReady(k: State, f: Id)
    requires UpOk(k, ROOT) && (forall h :: CanLoad(k, h) ==> h == f) && f in k.fibers && f != ROOT
    requires forall g :: g in k.fibers ==> k.fibers[g].phase.Rest?
    ensures Reconcilable(Up(ROOT, {}), Put(k, f, Retried(k.fibers[f])), {}, f)
    ensures Whole(k) ==> Whole(Put(k, f, Retried(k.fibers[f])))
  {
    hide MatchesTo, Usable;
    var k1 := Put(k, f, Retried(k.fibers[f]));
    assert FiberOk(k, f) && PlaceOk(k, f);
    PhaseKeeps(k, f, k1.fibers[f]);
    forall h, n | h in k.fibers ensures Usable(k1, n, h) <==> Usable(k, n, h) { RetriedUsable(k, f, n, h); }
    forall h | CanLoad(k1, h) ensures h == f { assert h == f || CanLoad(k, h); }
    forall g, n | g in k1.fibers && n in k1.fibers[g].store ensures Usable(k1, n, g) { assert n in k.fibers[g].store && Usable(k, n, g); }
    if Whole(k) {
      forall g | Active(k1, g) && g != ROOT ensures Matches(k1, g) { assert Active(k, g) && Matches(k, g); RetriedMatches(k, f, g); }
    }
  }

  lemma RetriedUsable(k: State, f: Id, n: string, h: Id)
    requires f in k.fibers && h in k.fibers
    ensures Usable(Put(k, f, Retried(k.fibers[f])), n, h) <==> Usable(k, n, h)
  {
    var k1 := Put(k, f, Retried(k.fibers[f]));
    if n in k.impls && k.impls[n].owner in k.fibers {
      forall a | a in k.fibers[k.impls[n].owner].ancestors ensures Lets(k1, a, h) <==> Lets(k, a, h) {}
    }
  }

  lemma RetriedMatches(k: State, f: Id, g: Id)
    requires f in k.fibers && Matches(k, g)
    ensures Matches(Put(k, f, Retried(k.fibers[f])), g)
  {
    var k1 := Put(k, f, Retried(k.fibers[f]));
    forall j | 0 <= j < |k.fibers[g].plugin.actions| ensures EffectFits(k1, k1.fibers[g].plugin.actions[j], k1.fibers[g].effects[j + 1]) {
      assert EffectFits(k, k.fibers[g].plugin.actions[j], k.fibers[g].effects[j + 1]);
    }
  }

  lemma RootAbove(k: State, f: Id)
    requires UpOk(k, ROOT) && f in k.fibers
    ensures ROOT in k.fibers[f].ancestors
  {
    assert PlaceOk(k, f);
  }

  lemma PlugWhole(k: State, p: Plugin)
    requires UpOk(k, ROOT) && Whole(k)
    ensures Whole(Bearing(k, ROOT, p))
  {
    UidsFresh(k);
    var ks := Bearing(k, ROOT, p);
    forall f | Active(ks, f) && f != ROOT ensures Matches(ks, f) { assert Active(k, f) && Matches(k, f); SameFits(k, ks, f); }
  }

  lemma OfferWhole(k: State, n: string)
    requires UpOk(k, ROOT) && Whole(k)
    ensures Whole(Serving(k, ROOT, n))
  {
    var ks := Serving(k, ROOT, n);
    forall f | Active(ks, f) && f != ROOT ensures Matches(ks, f) { assert Active(k, f) && Matches(k, f); SameFits(k, ks, f); }
  }

  lemma OfferStarts(k: State, busy: set<Id>, n: string)
    requires Quiet(k, busy)
    ensures Applying(Up(ROOT, {}), k, busy) && ROOT in k.fibers && (Whole(k) ==> Whole(Serving(k, ROOT, n)))
  {
    QuietRest(k, busy);
    if Whole(k) { OfferWhole(k, n); }
  }

  lemma OfferEnds(k: State, k1: State, busy: set<Id>, n: string)
    requires busy == {} && Applying(Up(ROOT, {}), k1, busy) && UpOk(k, ROOT)
    requires Moved(Up(ROOT, {}), Serving(k, ROOT, n), k1) && n !in k.impls
    ensures Quiet(k1, busy) && n in k1.impls && k1.impls[n].owner == ROOT
  {
    ServingUp(k, ROOT, n);
    GrewImpl(Serving(k, ROOT, n), k1, ROOT, n);
  }

  lemma QuietStill(k: State, busy: set<Id>)
    requires busy == {} && Applying(Up(ROOT, {}), k, busy)
    ensures Quiet(k, busy)
  {
  }

  lemma QuietHere(k: State, busy: set<Id>)
    requires Quiet(k, busy)
    ensures busy == {} && UpOk(k, ROOT)
  {
  }

  lemma OfferWholeEnds(k: State, k1: State, n: string)
    requires ROOT in k.fibers && Moved(Up(ROOT, {}), Serving(k, ROOT, n), k1) && (Whole(k) ==> Whole(Serving(k, ROOT, n)))
    ensures Whole(k) ==> Whole(k1)
  {
  }

  lemma PlugStarts(k: State, parent: Id, p: Plugin)
    requires UpOk(k, ROOT) && Active(k, parent)
    ensures k.uids !in k.fibers && Pending(Bearing(k, parent, p), k.uids)
  {
    UidsFresh(k);
  }

  lemma RestartIdle(k: State, busy: set<Id>, f: Id, log: seq<Entry>)
    requires Quiet(k, busy) && f in k.fibers && f != ROOT && k.fibers[f].loaded.None?
    ensures Unloaded(Outermost(k), k, k, busy, f, log, 0, log)
  {
    QuietDown(k, busy, f);
    NotUnloaded(Outermost(k), k, busy, f, log);
  }

  lemma RestartUnloaded(k: State, k1: State, busy: set<Id>, f: Id, log: seq<Entry>, mark: nat, log1: seq<Entry>)
    requires Quiet(k, busy) && Unloaded(Outermost(k), k, k1, busy, f, log, mark, log1) && f != ROOT
    ensures var k2 := Put(k1, f, Retried(k1.fibers[f]));
            Reconcilable(Up(ROOT, {}), k2, busy, f) && (Whole(k) ==> Whole(k2)) && Pending(k2, f) && k2.fibers[f].failed.None?
  {
    QuietAgain(k, k1, busy, {}, {f});
    RestartReady(k1, f);
    if Whole(k) { WholeShrunk(k, k1, Everyone(k)); }
  }

  lemma RestartTried(k: State, f: Id)
    requires Pending(k, f) && k.fibers[f].failed.None?
    ensures CanLoad(k, f) || k.fibers[f].gone || Desired(k, f).None?
  {
    hide Desired;
  }

  lemma RestartDone(k: State, busy: set<Id>)
    requires busy == {} && UpOk(k, ROOT) && (forall h :: Due(Up(ROOT, {}), k, h) ==> h in {})
    ensures Quiet(k, busy)
  {
    forall h ensures !CanLoad(k, h) { assert Due(Up(ROOT, {}), k, h) == CanLoad(k, h); }
  }

  const BLANK := State(map[], map[ROOT := ROOT_FIBER], [], [], 1, 1, 0)

  lemma BlankQuiet()
    ensures Quiet(BLANK, {}) && Whole(BLANK)
  {
    assert PlaceOk(BLANK, ROOT) && FiberOk(BLANK, ROOT);
  }
}
