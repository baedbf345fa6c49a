/** The plugin kernel. Reconciling, loading, unloading and notifying call one another; every
    call goes down in how much is left to load, or in how many fibers are loaded. */
module Kernels {
  import opened Models
  import opened KernelState
  import opened KernelSteps
  import opened KernelFrames
  import opened KernelGrowth
  import opened KernelRollback
  import opened KernelCalls
  import opened KernelProof
  import opened KernelEvents
  import opened KernelWithdraw
  import opened KernelGone

  class Kernel {
    var impls: map<string, Impl>
    var fibers: map<Id, Fiber>
    var live: seq<Id>
    var listeners: seq<Listener>
    var serials: nat
    var uids: nat
    var keys: nat
    var reconciling: set<Id>
    var dirty: set<Id>
    ghost var log: seq<Entry>
    ghost var loads: seq<Begin>

    function S(): State
      reads this
    {
      State(impls, fibers, live, listeners, serials, uids, keys)
    }

    constructor ()
      ensures S() == BLANK && reconciling == {} && log == []
      ensures Quiet(S(), reconciling) && Whole(S())
    {
      BlankQuiet();
      impls, fibers, live, listeners := map[], map[ROOT := ROOT_FIBER], [], [];
      serials, uids, keys := 1, 1, 0;
      reconciling, dirty, log, loads := {}, {}, [], [];
    }

    // -- what applications call ----------------------------------------------------------------------

    /** Mount a plugin on a loaded one. If it does not load, nothing else has changed. */
    method Plug(parent: Id, p: Plugin) returns (x: Id)
      requires Quiet(S(), reconciling) && Active(S(), parent)
      modifies this
      ensures Quiet(S(), reconciling) && x in fibers && fibers[x].plugin == p && fibers[x].parent == parent
      ensures old(Whole(S())) && parent == ROOT ==> Whole(S())
      ensures parent in old(fibers) && (!Active(S(), x) ==> OnlyItself(Bearing(old(S()), parent, p), S(), x))
      ensures !Active(S(), x) ==> BegunBelow(old(loads), loads, {x})
      ensures GoneForGood(old(S()), S(), old(loads), loads)
    {
      QuietRest(S(), reconciling);
      RootAbove(S(), parent);
      PlugStarts(S(), parent, p);
      if Whole(S()) { PlugWhole(S(), p); }
      ghost var k0 := S();
      x := MountChild(parent, p, Up(ROOT, {}));
      GonePlugged(k0, S(), {}, parent, p, old(loads), loads);
    }

    /** The application itself provides a service. */
    method Offer(n: string) returns (raised: bool)
      requires Quiet(S(), reconciling)
      modifies this
      ensures Quiet(S(), reconciling) && (old(Whole(S())) ==> Whole(S()))
      ensures raised <==> n in {"plugin", "provide", "get", "on", "emit", "bail", "waterfall", "effect", "logger", "fiber"}
                          || (n != "" && n[0] == '_') || n in old(impls)
      ensures if raised then S() == old(S()) else n in impls && impls[n].owner == ROOT
      ensures GoneForGood(old(S()), S(), old(loads), loads)
    {
      hide Quiet, Applying, Moved, UpOk, Whole, CanLoad;
      ghost var k0 := S();
      OfferStarts(k0, reconciling, n);
      QuietHere(k0, reconciling);
      raised := ProvideService(ROOT, n, Up(ROOT, {}));
      GoneOffered(k0, S(), reconciling, n, raised, old(loads), loads);
      if raised { QuietStill(S(), reconciling); } else { OfferEnds(k0, S(), reconciling, n); OfferWholeEnds(k0, S(), n); }
    }

    /** Unload a plugin and remove it, with all its children. */
    method Unplug(f: Id) returns (ghost mark: nat)
      requires Quiet(S(), reconciling) && f in fibers && f != ROOT
      modifies this
      ensures Quiet(S(), reconciling) && f !in fibers
      ensures old(Whole(S())) && old(fibers[f].parent) == ROOT ==> Whole(S())
      ensures old(Active(S(), f)) ==> UndoneInOrder(old(S()), old(log), mark, log, f)
      ensures GoneForGood(old(S()), S(), old(loads), loads)
    {
      QuietDown(S(), reconciling, f);
      ghost var k0 := S();
      mark := Dispose(f, Outermost(S()));
      GoneUnplugged(Outermost(k0), k0, S(), {}, f, old(log), log, loads);
      QuietAgain(k0, S(), {}, {k0.fibers[f].parent}, {});
      if Whole(k0) && k0.fibers[f].parent == ROOT { WholeTop(k0, S(), Everyone(k0)); }
    }

    /** Unload a plugin, if it is loaded, and load it again. */
    method Restart(f: Id) returns (ghost mark: nat)
      requires Quiet(S(), reconciling) && f in fibers && f != ROOT
      modifies this
      ensures Quiet(S(), reconciling) && f in fibers
      ensures old(Whole(S())) ==> Whole(S())
      ensures f in old(fibers) && (old(fibers[f].gone) ==> S() == old(S()))
      ensures Tried(old(loads), loads, f) || fibers[f].gone || Desired(S(), f).None?
      ensures GoneForGood(old(S()), S(), old(loads), loads)
    {
      hide Reconcilable, Unloadable;
      ghost var k0, log0 := S(), log;
      QuietDown(k0, reconciling, f);
      mark := 0;
      GoneNothing(k0, reconciling, loads);
      if fibers[f].gone { return; }
      if fibers[f].loaded.Some? {
        mark := Unload(f, Outermost(S()));
      } else {
        RestartIdle(k0, reconciling, f, log0);
      }
      ghost var ku, log1 := S(), log;
      RestartUnloaded(k0, ku, reconciling, f, log0, mark, log);
      fibers := fibers[f := Retried(fibers[f])];
      ghost var k1 := S();
      Reconcile(f, Up(ROOT, {}));
      RestartDone(S(), reconciling);
      GoneRestarted(k0, ku, S(), reconciling, f, log0, mark, log1, old(loads), loads);
      RestartTried(k1, f);
    }

    /** The disposer that provide returned, called while nothing is in transition. It works once;
        of the other fibers only those that rest on something as young may go. */
    method Withdraw(n: string, serial: nat)
      requires Quiet(S(), reconciling)
      modifies this
      ensures Quiet(S(), reconciling) && !Registered(S(), n, serial) && loads == old(loads)
      ensures !old(Registered(S(), n, serial)) ==> S() == old(S()) && log == old(log)
      ensures old(Registered(S(), n, serial)) ==>
        && old(n in impls && impls[n].owner in fibers)
        && n !in impls && old(impls[n].owner) in fibers
        && fibers[old(impls[n].owner)] == Withdrawing(old(S()), n).fibers[old(impls[n].owner)]
        && Shrunk(Withdrawing(old(S()), n), S(), Newer(old(S()), serial), {})
      ensures old(Registered(S(), n, serial)) ==> forall h :: Active(S(), h) ==> n !in fibers[h].plugin.inject
      ensures old(Whole(S())) && (old(Registered(S(), n, serial)) ==> old(impls[n].owner) == ROOT) ==> Whole(S())
      ensures GoneForGood(old(S()), S(), old(loads), loads)
    {
      hide Quiet, Ready, BusyOk, DueOrHears, Heard, Due, Moved, Newer, Usable, CanLoad, NoNewLoads, Shrunk, Logged, Hears, Active, Without;
      GoneNothing(S(), reconciling, loads);
      if n !in impls || impls[n].serial != serial { return; }
      ghost var k0, f := S(), impls[n].owner;
      WithdrawStarts(k0, reconciling, n);
      var owner := fibers[impls[n].owner];
      fibers := fibers[impls[n].owner := owner.(effects := Without(owner.effects, Provided(n, serial)))];
      impls := impls - {n};
      Notify({n}, Down(Newer(k0, serial), {}));
      WithdrawEnds(k0, S(), reconciling, n);
      GoneWithdrawn(k0, S(), reconciling, n, Newer(k0, serial), loads);
      if Whole(k0) && f == ROOT { WithdrawnWhole(k0, S(), reconciling, n); }
    }

    // -- unloading ---------------------------------------------------------------------------------

    /** The disposer of a service: withdraw it, and let those who inject it look again. */
    method Unregister(f: Id, n: string, ghost c: Ctx, ghost k: State)
      requires Undoable(c, k, reconciling, f) && k.fibers[f].effects != []
      requires Newest(k, f).Provided? && Newest(k, f).name == n && AllMounted(Undoing(k, f), f)
      requires S() == Undoing(k, f).(impls := k.impls) && Undoable(c, Undoing(k, f), reconciling, f) && |Actives(Undoing(k, f))| <= |Actives(k)|
      modifies this
      ensures Undoable(c, S(), reconciling, f) && AllMounted(S(), f) && reconciling == old(reconciling) && loads == old(loads)
      ensures fibers[f] == old(fibers[f])
      ensures Took(Undoing(k, f), S(), c.zone, {f}, old(log), log) && UndoneSince(old(log), log, f) == []
      decreases 0, |Actives(k)|, 4
    {
      hide IsUnloading;
      assert IsUnloading(k, f) && c.Down?;
      hide Ready, Took, StaleBut, BusyOk, OnlySelf, AboveAll, AllMounted, UndoneSince, Undoable, Shrunk, Logged;
      hide NotifyDown, DueOrHears, NoNewLoads, FreeBelow, Moved, Actives, Without, Desired, Usable, CanLoad, Stale, Due, Hears, Under;
      ghost var log1 := log;
      WithdrawHeard(c, k, reconciling, f, n, Newest(k, f).serial);
      impls := impls - {n};
      Notify({n}, c);
      WithdrawDone(c, Undoing(k, f), S(), reconciling, f, log1, log);
    }

    /** Undo the newest registration of a fiber. */
    method UndoLast(f: Id, ghost c: Ctx)
      requires Undoable(c, S(), reconciling, f) && AllMounted(S(), f)
      requires fibers[f].effects != []
      modifies this
      ensures Undoable(c, S(), reconciling, f) && AllMounted(S(), f) && reconciling == old(reconciling) && loads == old(loads)
      ensures Took(old(S()), S(), c.zone, {f}, old(log), log) && |Actives(S())| <= |Actives(old(S()))|
      ensures fibers[f] == old(fibers[f]).(effects := old(fibers[f].effects[..|fibers[f].effects| - 1]))
      ensures UndoneSince(old(log), log, f) == [old(fibers[f].effects[|fibers[f].effects| - 1])]
      decreases 0, |Actives(S())|, 5
    {
      hide Logged, Shrunk, UpOk, UndoneOf, AboveAll, DownOk;
      UndoableHere(c, S(), reconciling, f);
      hide Ready, Took, AllMounted, AllMountedBut, UndoneSince, Undoable, Disposable, Disposed, Actives, Without, IsUnloading;
      ghost var k0, log0 := S(), log;
      UndoOne(c, k0, reconciling, f, log0);
      AllMountedLater(c, k0, reconciling, f);
      var e := Take(f);
      ghost var k1, log1 := Undoing(k0, f), log;
      hide Undoing;
      if e.Provided? {
        Unregister(f, e.name, c, k0);
      } else if e.Mounted? {
        DisposeChild(f, e.child, c, k0);
      } else {
        TookNothing(k1, c.zone, {f}, log);
      }
      TookMore(k0, k1, S(), c.zone, {f}, log0, log1, log);
    }

    /** Take the newest effect off a fiber's list, and a listener off the bus. */
    method Take(f: Id) returns (e: Effect)
      requires f in fibers && fibers[f].effects != []
      modifies this
      ensures f in old(fibers) && e == Newest(old(S()), f) && log == old(log) + [Undone(f, e)] && reconciling == old(reconciling) && loads == old(loads)
      ensures S() == if e.Provided? then Undoing(old(S()), f).(impls := old(impls)) else Undoing(old(S()), f)
      ensures e.Listening? ==> Audience(listeners, e.event) == Without(old(Audience(listeners, e.event)), Listener(f, e.event, e.key))
      ensures forall event :: (e.Listening? ==> event != e.event) ==> Audience(listeners, event) == old(Audience(listeners, event))
    {
      e := fibers[f].effects[|fibers[f].effects| - 1];
      log := log + [Undone(f, e)];
      fibers := fibers[f := fibers[f].(effects := Without(fibers[f].effects, e))];
      if e.Listening? {
        forall event { AudienceWithout(listeners, Listener(f, e.event, e.key), event); }
        listeners := Without(listeners, Listener(f, e.event, e.key));
      }
    }

    /** The disposer of a mounted child. */
    method DisposeChild(f: Id, x: Id, ghost c: Ctx, ghost k: State)
      requires Undoable(c, S(), reconciling, f) && AllMountedBut(S(), f, x) && |Actives(S())| <= |Actives(k)|
      modifies this
      ensures Undoable(c, S(), reconciling, f) && AllMounted(S(), f) && reconciling == old(reconciling) && loads == old(loads)
      ensures f in old(fibers) && f in fibers && fibers[f] == old(fibers[f])
      ensures Took(old(S()), S(), c.zone, {f}, old(log), log) && UndoneSince(old(log), log, f) == []
      decreases 0, |Actives(k)|, 4
    {
      UndoableHere(c, S(), reconciling, f);
      hide Took, AllMounted, AllMountedBut, UndoneSince, Undoable, Disposable, Disposed, Actives, UndoneInOrder, Active;
      ghost var k1, log1 := S(), log;
      DisposeStarts(c, k1, reconciling, f, x);
      ghost var mark := Dispose(x, c);
      DisposeDone(c, k1, S(), reconciling, f, x, log1, log);
    }

    /** Undo everything a fiber registered, newest first. */
    method RunDisposers(f: Id, ghost c: Ctx)
      requires Undoable(c, S(), reconciling, f) && AllMounted(S(), f)
      modifies this
      ensures Undoable(c, S(), reconciling, f) && reconciling == old(reconciling) && loads == old(loads)
      ensures Took(old(S()), S(), c.zone, {f}, old(log), log)
      ensures f in fibers && fibers[f] == old(fibers[f]).(effects := []) && Alone(S(), f)
      ensures UndoneSince(old(log), log, f) == Reverse(old(fibers[f].effects))
      decreases 0, |Actives(S())|, 6
    {
      hide Ready, Took, StaleBut, BusyOk, OnlySelf, AboveAll, AllMounted, UndoneSince, Reverse;
      ghost var k0, log0 := S(), log;
      TookNothing(k0, c.zone, {f}, log0);
      while fibers[f].effects != []
        invariant Undoable(c, S(), reconciling, f) && AllMounted(S(), f) && reconciling == old(reconciling) && loads == old(loads)
        invariant Took(k0, S(), c.zone, {f}, log0, log) && |Actives(S())| <= |Actives(k0)|
        invariant fibers[f] == k0.fibers[f].(effects := fibers[f].effects)
        invariant UndoneSince(log0, log, f) + Reverse(fibers[f].effects) == Reverse(k0.fibers[f].effects)
        decreases |fibers[f].effects|
      {
        ghost var k1, log1 := S(), log;
        UndoLast(f, c);
        TookMore(k0, k1, S(), c.zone, {f}, log0, log1, log);
        ReverseLast(k1.fibers[f].effects);
      }
      NoChildren(S(), c, f);
      ReverseNothing();
    }

    /** Unload a fiber: whoever depends on it first, then its own registrations. */
    method Unload(f: Id, ghost c: Ctx) returns (ghost mark: nat)
      requires Unloadable(c, S(), reconciling, f)
      modifies this
      ensures reconciling == old(reconciling) && loads == old(loads) && Unloaded(c, old(S()), S(), reconciling, f, old(log), mark, log)
      ensures old(f in fibers) && (!old(Active(S(), f)) ==> dirty == old(dirty))
      ensures old(Active(S(), f)) ==> f in fibers && (fibers[f].gone <==> fibers[f].plugin.retires || fibers[f].plugin.leaves)
      decreases 0, |Actives(S())|, 1
    {
      hide Grew, ShrunkAt, UpOk, Above, UndoneOf, Gone, Left, Lets, DownOk;
      mark := 0;
      AtRest(c, S(), reconciling, f);
      if fibers[f].phase.Unloading? || fibers[f].loaded.None? {
        NotUnloaded(c, S(), reconciling, f, log);
        return;
      }
      hide Ready, Took, StaleBut, BusyOk, BusyBut, OnlySelf, AboveAll, AllMounted, UndoneSince, Undoable, Shrunk, Logged, Unloadable, Unloaded;
      hide NotifyDown, DueOrHears, NoNewLoads, FreeBelow, Moved, Actives, Without, Desired, Usable, CanLoad, Stale, Due, Hears, Under, Alone, UndoneInOrder;
      ghost var k0, log0 := S(), log;
      UnloadStarts(c, k0, reconciling, f);
      fibers := fibers[f := fibers[f].(phase := Unloading)];
      Notify(NamesWithin(S(), f), c);
      ghost var k2, log2 := S(), log;
      mark := |log|;
      UnloadNotified(c, k0, k2, reconciling, f, log0, log2);
      RunDisposers(f, c);
      ghost var k3, log3 := S(), log;
      log := log + [Off(f)];
      fibers := fibers[f := Blank(fibers[f])];
      UnloadEnds(c, k0, k2, k3, reconciling, f, log0, log2, log3);
    }

    /** Unload a fiber that is at rest, and remove it for good. */
    method Dispose(x: Id, ghost c: Ctx) returns (ghost mark: nat)
      requires Disposable(c, S(), reconciling, x)
      modifies this
      ensures reconciling == old(reconciling) && loads == old(loads) && Disposed(c, old(S()), S(), reconciling, x, old(log), log)
      ensures old(Active(S(), x)) ==> UndoneInOrder(old(S()), old(log), mark, log, x)
      decreases 0, |Actives(S())|, 2
    {
      hide UpOk, DownOk, Grew, Lets, Left;
      DisposeAtRest(c, S(), reconciling, x);
      hide Ready, StaleBut, BusyOk, BusyBut, AboveAll, Shrunk, Logged, Unloadable, Unloaded, Disposable, Disposed;
      hide NoNewLoads, FreeBelow, Actives, Without, Desired, Usable, CanLoad, Stale, Under, UndoneInOrder;
      ghost var k0, log0 := S(), log;
      mark := 0;
      if fibers[x].loaded.Some? {
        mark := Unload(x, c);
      } else {
        NotUnloaded(c, k0, reconciling, x, log);
      }
      DisposeEnds(c, k0, S(), reconciling, x, log0, mark, log);
      var p := fibers[x].parent;
      var up := fibers[p].(effects := Without(fibers[p].effects, Mounted(x)));
      fibers, live := fibers[p := up] - {x}, Without(live, x);
    }

    // -- reconciling -------------------------------------------------------------------------------

    /** Let every fiber that injects one of these services look again. */
    method Notify(names: set<string>, ghost c: Ctx)
      requires Ready(c, S()) && BusyOk(c, S(), reconciling) && DueOrHears(c, S(), names) && Heard(c, S(), names)
      modifies this
      ensures Ready(c, S()) && BusyOk(c, S(), reconciling) && reconciling == old(reconciling)
      ensures forall h :: Due(c, S(), h) ==> h in c.others
      ensures Moved(c, old(S()), S()) && BegunIn(c, old(S()), old(loads), loads)
      ensures c.Down? ==> Logged(old(S()), S(), old(log), log, {}) && forall h :: Active(S(), h) ==> !Hears(old(S()), h, names)
      decreases Mode(c), Fuel(c, S()), 3
    {
      hide Ready, BusyOk, DueOrHears, Heard, Due, Moved, Logged, Hears, Notified, Waiting, Active, Reconcilable, Reconciled, BegunIn;
      ghost var k0, log0, loads0 := S(), log, loads;
      BegunNone(c, k0, loads0);
      NotifyStarts(c, k0, names, log0);
      if names == {} {
        NotifyNobody(c, k0, names, log0);
        return;
      }
      var list := live;
      for i := 0 to |list|
        invariant Ready(c, S()) && BusyOk(c, S(), reconciling) && reconciling == old(reconciling)
        invariant Notified(c, k0, S(), list, i, names, log0, log) && Fuel(c, S()) <= Fuel(c, k0) && BegunIn(c, k0, loads0, loads)
      {
        NotifyNext(c, k0, S(), reconciling, list, i, names, log0, log);
        if list[i] in fibers && fibers[list[i]].plugin.inject * names != {} {
          ghost var k, log1, loads1 := S(), log, loads;
          Reconcile(list[i], c.(others := c.others + Waiting(k0, list[i + 1..], names)));
          NotifyBegun(c, c.(others := c.others + Waiting(k0, list[i + 1..], names)), k0, k, list, i, names, log0, log1, loads0, loads1, loads);
          NotifyDid(c, k0, k, S(), reconciling, list, i, names, log0, log1, log);
        }
      }
      NotifyEnds(c, k0, S(), list, names, log0, log);
    }

    /** Make a fiber what its services demand. */
    method Reconcile(g: Id, ghost c: Ctx)
      requires Reconcilable(c, S(), reconciling, g)
      modifies this
      ensures reconciling == old(reconciling) && Reconciled(c, old(S()), S(), reconciling, g, old(log), log)
      ensures BegunIn(c, old(S()), old(loads), loads) && BegunFor(c, old(S()), S(), old(reconciling), g, old(loads), loads)
      decreases Mode(c), Fuel(c, S()), 2
    {
      hide Ready, BusyOk, BusyBut, Due, Moved, Logged, Active, Reconcilable, Reconciled, CanLoad, Desired, Unloadable, Unloaded;
      hide Rechecking, Half, Loadable, LoadDone, BegunIn, Began;
      ghost var k0, log0, loads0 := S(), log, loads;
      BegunNone(c, k0, loads0);
      BegunNothing(c, k0, reconciling, g, loads0);
      if g !in fibers || fibers[g].gone {
        ReconcileNot(c, k0, reconciling, g, log0);
        return;
      }
      if g in reconciling {
        ReconcileNot(c, k0, reconciling, g, log0);
        dirty := dirty + {g};
        return;
      }
      ReconcileStarts(c, k0, reconciling, g, log0);
      reconciling := reconciling + {g};
      var again := true;
      while again
        invariant reconciling == old(reconciling) + {g} && g in fibers
        invariant Rechecking(c, k0, S(), reconciling, g, log0, log, again) && Fuel(c, S()) <= Fuel(c, k0)
        invariant BegunIn(c, k0, loads0, loads) && Began(c, k0, S(), g, loads0, loads, again)
        decreases Fuel(c, S()), if again then 1 else 0
      {
        dirty := dirty - {g};
        var desired := Desired(S(), g);
        ghost var k1, log1 := S(), log;
        RecheckFinds(c, k0, k1, reconciling, g, log0, log1);
        ghost var mark := 0;
        if fibers[g].loaded.Some? && desired != fibers[g].loaded {
          mark := Unload(g, c);
          RecheckUnloaded(c, k0, k1, S(), reconciling, g, log0, log1, mark, log);
        } else {
          RecheckKept(c, k0, k1, reconciling, g, log0, log1);
        }
        ghost var k2, log2 := S(), log;
        if g in fibers && desired.Some? && fibers[g].loaded.None? && !fibers[g].gone && desired != fibers[g].failed {
          HalfLoadable(c, k0, k2, reconciling, g, log0, log2, desired);
          ghost var loads2 := loads;
          Load(g, desired.value, c);
          LoadBegun(c, k0, k2, S(), reconciling, g, log0, log2, desired, loads0, loads2, loads);
          RecheckLoaded(c, k0, k2, S(), reconciling, g, log0, log2, log, desired);
        } else {
          RecheckIdle(c, k0, k2, reconciling, g, log0, log2, desired);
          IdleBegun(c, k0, k1, k2, reconciling, g, log0, log1, log2, desired, loads0, loads);
        }
        again := g in fibers && g in dirty;
      }
      ReconcileEnds(c, k0, S(), old(reconciling), g, log0, log);
      BegunEnds(c, k0, S(), old(reconciling), g, loads0, loads);
      reconciling := reconciling - {g};
    }

    // -- loading -----------------------------------------------------------------------------------

    /** Provide a service; a name that is reserved or taken is refused. */
    method ProvideService(f: Id, n: string, ghost c: Ctx) returns (raised: bool)
      requires Applying(c, S(), reconciling) && c.top == f
      modifies this
      ensures reconciling == old(reconciling) && Applying(c, S(), reconciling)
      ensures raised <==> Refused(n) || n in old(impls)
      ensures raised ==> S() == old(S())
      ensures f in old(fibers) && (!raised ==> Moved(c, Serving(old(S()), f, n), S()))
      ensures BegunIn(c, old(S()), old(loads), loads)
      decreases 1, Left(S()), 4
    {
      hide Grew, NotifyDown, BusyBut, Shrunk, UpOk, Usable;
      ApplyingHere(c, S(), reconciling);
      hide Ready, BusyOk, CanLoad, DueOrHears, Heard, Moved, Left, Applying, Due, Desired, Refused;
      if Refused(n) || n in impls {
        return true;
      }
      ghost var k0 := S();
      ProvideLine(k0, f, n);
      ProvideStarts(c, k0, reconciling, n);
      impls := impls[n := Impl(f, serials)];
      fibers := fibers[f := fibers[f].(effects := fibers[f].effects + [Provided(n, serials)])];
      serials := serials + 1;
      assert S() == Serving(k0, f, n);
      Notify({n}, c);
      AppliedAgain(c, S(), reconciling);
      raised := false;
    }

    /** Mount a child plugin. */
    method MountChild(f: Id, p: Plugin, ghost c: Ctx) returns (x: Id)
      requires Applying(c, S(), reconciling) && f in fibers && !Pending(S(), f) && c.top in fibers[f].ancestors
      modifies this
      ensures reconciling == old(reconciling) && Applying(c, S(), reconciling)
      ensures x == old(uids) && f in old(fibers) && Moved(c, Bearing(old(S()), f, p), S())
      ensures !Active(S(), x) ==> OnlyItself(Bearing(old(S()), f, p), S(), x) && BegunBelow(old(loads), loads, {x})
      ensures BegunIn(c, old(S()), old(loads), loads)
      ensures if Offered(old(S()), f, p.inject) then Tried(old(loads), loads, x)
              else S() == Bearing(old(S()), f, p) && loads == old(loads)
      decreases 1, Left(S()) + Size(p), 4
    {
      hide Ready, BusyOk, CanLoad, Moved, Left, Reconcilable, Reconciled, Applying, OnlyItself, Size, BegunIn, BegunFor, BegunBelow, Line, Bearing, Active, Pending;
      hide Offered, Tried;
      ghost var k0, log0 := S(), log;
      ApplyingHere(c, k0, reconciling);
      MountFresh(c, k0, reconciling, f, p);
      MountOffered(c, k0, reconciling, f, p);
      x := Bear(f, p);
      MountStarts(c, k0, reconciling, f, p);
      Reconcile(x, c);
      MountEnds(c, Bearing(k0, f, p), S(), reconciling, x, log0, log);
      MountBegun(c, k0, S(), reconciling, f, p, old(loads), loads);
    }

    /** A new fiber, pending, the last of the list and of its parent's effects. */
    method Bear(f: Id, p: Plugin) returns (x: Id)
      requires f in fibers && uids !in fibers
      modifies this
      ensures f in old(fibers) && S() == Bearing(old(S()), f, p) && x == old(uids)
      ensures reconciling == old(reconciling) && log == old(log) && loads == old(loads)
    {
      x := uids;
      fibers := fibers[x := Fiber(p, f, fibers[f].ancestors + {x}, [], map[], None, None, false, Rest, false)];
      live, uids := live + [x], uids + 1;
      fibers := fibers[f := fibers[f].(effects := fibers[f].effects + [Mounted(x)])];
    }

    /** A new listener is called first or last of its event; no other event's list changes. */
    method AddListener(f: Id, event: string, prepend: bool) returns (l: Listener)
      requires f in fibers
      modifies this
      ensures l.owner == f && l.event == event && Prepended(l) == prepend && Turn(l) == old(keys) && keys == old(keys) + 1
      ensures Audience(listeners, event) == if prepend then [l] + old(Audience(listeners, event)) else old(Audience(listeners, event)) + [l]
      ensures forall e :: e != event ==> Audience(listeners, e) == old(Audience(listeners, e))
      ensures S() == Hearing(old(S()), f, event, prepend) && reconciling == old(reconciling) && log == old(log) && loads == old(loads)
    {
      var key := if prepend then -(keys as int) - 1 else keys;
      l := Listener(f, event, key);
      forall e
        ensures Audience([l] + listeners, e) == Audience([l], e) + Audience(listeners, e)
        ensures Audience(listeners + [l], e) == Audience(listeners, e) + Audience([l], e)
      {
        AudienceOfBoth([l], listeners, e);
        AudienceOfBoth(listeners, [l], e);
      }
      if prepend {
        listeners := [l] + listeners;
      } else {
        listeners := listeners + [l];
      }
      fibers := fibers[f := fibers[f].(effects := fibers[f].effects + [Listening(event, key)])];
      keys := keys + 1;
    }

    /** Load a pending fiber: run what its plugin does; if that fails, or the plugin disposed itself
        meanwhile, undo all of it. */
    method Load(g: Id, epoch: Epoch, ghost c: Ctx)
      requires Loadable(c, S(), reconciling, g, epoch)
      modifies this
      ensures reconciling == old(reconciling) && LoadDone(c, old(S()), S(), reconciling, g, epoch)
      ensures BegunIn(c, old(S()), old(loads), loads) && Tried(old(loads), loads, g)
      ensures !Active(S(), g) ==> BegunBelow(old(loads), loads, {g})
      decreases 1, Left(S()), 1
    {
      hide Ready, BusyOk, CanLoad, Moved, Left, Loadable, LoadDone, Applying, Doing, Undoable, AllMounted, Took, Alone, Heard, DueOrHears;
      hide LoadingLog, BegunIn, BegunBelow, Tried;
      ghost var k0, inner, loads0 := S(), Up(g, c.others), loads;
      LoadableHere(c, k0, reconciling, g, epoch);
      var plugin := fibers[g].plugin;
      LoadStarts(c, k0, reconciling, g, epoch);
      LoadLogStarts(k0, g, loads0);
      loads := loads + [Begin(g, fibers[g].ancestors)];
      fibers := fibers[g := Begun(fibers[g], epoch)];
      var failed, i := false, 0;
      while i < |plugin.actions| && !failed
        invariant 0 <= i <= |plugin.actions| && reconciling == old(reconciling) && LoadingLog(k0, g, loads0, loads)
        invariant if failed then i > 0 && Doing(c, k0, S(), reconciling, g, epoch, i - 1) else Doing(c, k0, S(), reconciling, g, epoch, i)
        decreases |plugin.actions| - i
      {
        DoingHere(c, k0, S(), reconciling, g, epoch, i);
        ghost var k, loads1 := S(), loads;
        match plugin.actions[i] {
          case Provide(n) =>
            failed := ProvideService(g, n, inner);
            LoadLogOn(c, k0, k, reconciling, g, epoch, i, loads0, loads1, loads);
            if !failed { DidProvide(c, k0, k, S(), reconciling, g, epoch, i, n); }
          case Mount(p) =>
            var x := MountChild(g, p, inner);
            LoadLogOn(c, k0, k, reconciling, g, epoch, i, loads0, loads1, loads);
            DidMount(c, k0, k, S(), reconciling, g, epoch, i, p);
          case Listen(event, prepend) =>
            var _ := AddListener(g, event, prepend);
            DidListen(c, k0, k, reconciling, g, epoch, i, event, prepend);
          case Fail =>
            failed := true;
        }
        i := i + 1;
      }
      ghost var k, log0, loads2 := S(), log, loads;
      LoadLogEnds(c, k0, reconciling, g, epoch, loads0, loads);
      if failed {
        DoingHere(c, k0, k, reconciling, g, epoch, i - 1);
        LoadFails(c, k0, k, reconciling, g, epoch, i - 1);
        fibers := fibers[g := Failing(fibers[g], epoch)];
        RunDisposers(g, Rollback(k, g));
        LoadRolledBack(c, k0, k, S(), reconciling, g, epoch, i - 1, log0, log);
        fibers := fibers[g := Dropped(fibers[g])];
      } else if plugin.retires {
        LoadRetires(c, k0, k, reconciling, g, epoch);
        fibers := fibers[g := fibers[g].(loaded := Some(epoch), phase := Rest)];
        ghost var mark := Unload(g, Rollback(k, g));
        LoadRetired(c, k0, k, S(), reconciling, g, epoch, log0, mark, log);
      } else {
        LoadFinishes(c, k0, k, reconciling, g, epoch);
        fibers := fibers[g := fibers[g].(loaded := Some(epoch), phase := Rest)];
        ghost var k1 := S();
        Notify(NamesWithin(S(), g), c);
        LoadEnds(c, k0, k1, S(), reconciling, g, epoch);
        LoadLogNotified(c, k0, k1, reconciling, g, epoch, loads0, loads2, loads);
        LoadDoneActive(c, k0, k1, S(), g);
      }
    }
  }
}
