/** A load that fails is undone completely. */
module KernelRollback {
  import opened Models
  import opened KernelState
  import opened KernelSteps
  import opened KernelFrames
  import opened KernelGrowth

  // -- the tables follow from the fibers -----------------------------------------------------------

  lemma {:induction false} AscendingSame(s: seq<Id>, t: seq<Id>)
    requires Ascending(s) && Ascending(t) && forall x :: x in s <==> x in t
    ensures s == t
  {
    if t != [] { assert t[0] in t; }
    if s != [] {
      assert s[0] in t;
      var n, m := |s| - 1, |t| - 1;
      assert s[n] in t && t[m] in s;
      var i :| 0 <= i < |t| && t[i] == s[n];
      var j :| 0 <= j < |s| && s[j] == t[m];
      assert s[n] == t[m];
      forall x ensures x in s[..n] <==> x in t[..m] {
        if x in s[..n] { assert x in s; }
        if x in t[..m] { assert x in t; }
      }
      AscendingSame(s[..n], t[..m]);
      assert s == s[..n] + [s[n]] && t == t[..m] + [t[m]];
    }
  }

  lemma LastKeySame(s: seq<Listener>, t: seq<Listener>)
    requires AscendingKeys(s) && AscendingKeys(t) && (forall x :: x in s <==> x in t) && s != []
    ensures t != [] && s[|s| - 1] == t[|t| - 1]
  {
    assert s[0] in t;
    var n, m := |s| - 1, |t| - 1;
    assert s[n] in t && t[m] in s;
    var i :| 0 <= i < |t| && t[i] == s[n];
    var j :| 0 <= j < |s| && s[j] == t[m];
    assert t[i].key <= t[m].key && s[j].key <= s[n].key;
  }

  lemma FrontHas(s: seq<Listener>, x: Listener)
    requires AscendingKeys(s) && s != []
    ensures x in s[..|s| - 1] <==> x in s && x != s[|s| - 1]
  {
    var n := |s| - 1;
    if x in s && x != s[n] { var i :| 0 <= i < |s| && s[i] == x; assert s[..n][i] == x; }
    if x in s[..n] { var i :| 0 <= i < n && s[..n][i] == x; assert s[i].key < s[n].key; }
  }

  lemma {:induction false} AscendingKeysSame(s: seq<Listener>, t: seq<Listener>)
    requires AscendingKeys(s) && AscendingKeys(t) && forall x :: x in s <==> x in t
    ensures s == t
  {
    if t != [] { assert t[0] in t; }
    if s != [] {
      var n, m := |s| - 1, |t| - 1;
      LastKeySame(s, t);
      forall x ensures x in s[..n] <==> x in t[..m] { FrontHas(s, x); FrontHas(t, x); }
      AscendingKeysSame(s[..n], t[..m]);
      assert s == s[..n] + [s[n]] && t == t[..m] + [t[m]];
    }
  }

  ghost predicate SameRegistrations(a: State, b: State) {
    && a.fibers.Keys == b.fibers.Keys
    && forall f {:trigger f in a.fibers} :: f in a.fibers ==> a.fibers[f].effects == b.fibers[f].effects
  }

  /** The services table, the fiber list and the listeners are determined by what the fibers
      have registered. */
  lemma TablesDetermined(a: State, b: State)
    requires ServicesOk(a) && ServicesOk(b) && ListOk(a) && ListOk(b) && ListenersOk(a) && ListenersOk(b)
    requires SameRegistrations(a, b)
    ensures a.impls == b.impls && a.live == b.live && a.listeners == b.listeners
  {
    AscendingSame(a.live, b.live);
    ServicesDetermined(a, b);
    ServicesDetermined(b, a);
    assert a.impls.Keys == b.impls.Keys;
    ListenersDetermined(a, b);
    ListenersDetermined(b, a);
    AscendingKeysSame(a.listeners, b.listeners);
  }

  lemma ServicesDetermined(a: State, b: State)
    requires ServicesOk(a) && ServicesOk(b) && SameRegistrations(a, b)
    ensures forall n :: n in a.impls ==> n in b.impls && b.impls[n] == a.impls[n]
  {
    forall n | n in a.impls ensures n in b.impls && b.impls[n] == a.impls[n] {
      assert Provided(n, a.impls[n].serial) in b.fibers[a.impls[n].owner].effects;
    }
  }

  lemma ListenersDetermined(a: State, b: State)
    requires ListenersOk(a) && ListenersOk(b) && SameRegistrations(a, b)
    ensures forall l :: l in a.listeners ==> l in b.listeners
  {
    forall l | l in a.listeners ensures l in b.listeners {
      assert Listening(l.event, l.key) in b.fibers[l.owner].effects;
      assert l == Listener(l.owner, l.event, l.key);
    }
  }

  // -- while a fiber loads --------------------------------------------------------------------------

  /** Since fiber `g` began to load, only it and what is below it changed. */
  ghost predicate Within(k0: State, k: State, g: Id) {
    && g in k0.fibers && g in k.fibers && SameShape(k0.fibers[g], k.fibers[g]) && k0.uids <= k.uids && k0.serials <= k.serials
    && (forall f {:trigger f in k0.fibers} {:trigger f in k.fibers} :: f in k0.fibers && f != g ==>
          g !in k0.fibers[f].ancestors && f in k.fibers && k.fibers[f] == k0.fibers[f])
    && (forall f {:trigger f in k.fibers} :: f in k.fibers && f !in k0.fibers ==>
          k0.uids <= f && g in k.fibers[f].ancestors && k.fibers[f].phase.Rest?)
  }

  lemma GrewWithin(k0: State, k: State, k': State, g: Id)
    requires Within(k0, k, g) && Grew(k, k', g) && !Pending(k, g)
    ensures Within(k0, k', g) && k'.fibers[g] == k.fibers[g]
  {
  }

  // -- rolling back -----------------------------------------------------------------------------------

  /** Unloading may go on in this state. */
  ghost predicate DownOk(k: State, zone: set<Id>) {
    WellFormed(k) && ClosedUnder(k, zone) && ROOT !in zone && forall f :: f in zone ==> !IsLoading(k, f)
  }

  ghost predicate OnlySelf(k: State, f: Id) {
    forall u :: IsUnloading(k, u) && f in k.fibers[u].ancestors ==> u == f
  }

  function Below(k: State, g: Id): set<Id> {
    set f | f in k.fibers && g in k.fibers[f].ancestors
  }

  function Failing(x: Fiber, epoch: Epoch): Fiber {
    x.(error := true, failed := Some(epoch), phase := Unloading)
  }

  /** When a load fails, what it provided was open to nobody outside, so undoing it needs to
      look no further than what is below it. */
  lemma FailDown(k: State, g: Id, epoch: Epoch)
    requires UpOk(k, g) && IsLoading(k, g)
    ensures var k1 := Put(k, g, Failing(k.fibers[g], epoch));
            && DownOk(k1, Below(k, g)) && OnlySelf(k1, g) && AboveAll(k1, g)
            && (forall f :: Stale(k1, f) ==> f in Below(k, g))
  {
    var k1 := Put(k, g, Failing(k.fibers[g], epoch));
    assert FiberOk(k, g) && PlaceOk(k, g);
    PhaseKeeps(k, g, k1.fibers[g]);
    FailClosed(k, g, epoch);
    FailStale(k, g, epoch);
    FailAbove(k, g, epoch);
    forall f | f in Below(k, g) ensures !IsLoading(k1, f) {
      assert g <= f && (IsLoading(k, f) ==> f <= g);
    }
  }

  lemma FailClosed(k: State, g: Id, epoch: Epoch)
    requires TreeOk(k) && Settled(k) && IsLoading(k, g)
    ensures ClosedUnder(Put(k, g, Failing(k.fibers[g], epoch)), Below(k, g))
  {
    var k1 := Put(k, g, Failing(k.fibers[g], epoch));
    forall h, n | h in k1.fibers && n in k1.fibers[h].store && n in k1.impls && k1.impls[n].owner in Below(k, g) ensures h in Below(k, g) {
      assert n in k.fibers[h].store && Usable(k, n, h);
      assert Lets(k, g, h);
    }
    forall h, a | h in k1.fibers && a in k1.fibers[h].ancestors && a in Below(k, g) ensures h in Below(k, g) {
      assert a in k.fibers[h].ancestors && g in k.fibers[a].ancestors;
    }
  }

  lemma FailStale(k: State, g: Id, epoch: Epoch)
    requires Settled(k) && IsLoading(k, g) && (forall f {:trigger FiberOk(k, f)} :: f in k.fibers ==> FiberOk(k, f))
    ensures forall f :: Stale(Put(k, g, Failing(k.fibers[g], epoch)), f) ==> f in Below(k, g)
  {
    var k1 := Put(k, g, Failing(k.fibers[g], epoch));
    forall f | Stale(k1, f) ensures f in Below(k, g) {
      assert FiberOk(k, f);
      var n :| n in k.fibers[f].plugin.inject && !Usable(k1, n, f);
      assert n in k.fibers[f].store && Usable(k, n, f);
      FailUsable(k, g, epoch, n, f);
    }
  }

  lemma FailUsable(k: State, g: Id, epoch: Epoch, n: string, f: Id)
    requires IsLoading(k, g) && f in k.fibers && Usable(k, n, f) && !Usable(Put(k, g, Failing(k.fibers[g], epoch)), n, f)
    ensures g in k.fibers[f].ancestors
  {
    var k1 := Put(k, g, Failing(k.fibers[g], epoch));
    var a :| a in k.fibers[k.impls[n].owner].ancestors && !Lets(k1, a, f);
    assert Lets(k, a, f);
  }

  lemma FailAbove(k: State, g: Id, epoch: Epoch)
    requires SerialsOk(k) && TreeOk(k) && IsLoading(k, g) && (forall f :: f in k.fibers ==> !k.fibers[f].phase.Unloading?)
    ensures AboveAll(Put(k, g, Failing(k.fibers[g], epoch)), g)
  {
    var k1 := Put(k, g, Failing(k.fibers[g], epoch));
    forall n | n in k1.impls && Under(k1, g, k1.impls[n].owner) ensures Above(k1, k1.impls[n].serial) {
      var o := k.impls[n].owner;
      forall u, a, m | IsUnloading(k1, u) && a in k1.fibers[u].ancestors && a in k1.fibers && m in k1.fibers[a].store
        ensures k1.fibers[a].store[m] < k1.impls[n].serial
      {
        assert u == g && a in k.fibers[g].ancestors && a in k.fibers[o].ancestors && m in k.fibers[a].store;
      }
    }
  }

  function GaveUp(x: Fiber, epoch: Epoch): Fiber {
    x.(failed := Some(epoch), error := true, gone := x.plugin.retires)
  }

  /** A fiber after its failed load has been undone. */
  function Dropped(x: Fiber): Fiber {
    x.(store := map[], phase := Rest, gone := x.plugin.retires)
  }

  /** A fiber that disposed itself while it loaded, after that was honoured. */
  function Departed(x: Fiber): Fiber {
    x.(failed := None, error := false, gone := true)
  }

  /** What a load that leaves nothing behind makes of its own fiber. */
  predicate EndsAs(x: Fiber, y: Fiber, epoch: Epoch) {
    y == GaveUp(x, epoch) || (x.plugin.retires && y == Departed(x))
  }

  /** Two states that differ only in how far the counters went. */
  ghost predicate SameButCounters(a: State, b: State) {
    a.impls == b.impls && a.fibers == b.fibers && a.live == b.live && a.listeners == b.listeners
    && a.serials <= b.serials && a.uids <= b.uids
  }

  /** After the rollback the services table, the fiber list, the listeners and every other
      fiber are exactly as they were before the load. */
  lemma RolledBack(k0: State, k: State, kd: State, g: Id, epoch: Epoch)
    requires WellFormed(k0) && Pending(k0, g) && Within(k0, k, g) && IsLoading(k, g) && TreeOk(k)
    requires WellFormed(kd) && Shrunk(Put(k, g, Failing(k.fibers[g], epoch)), kd, Below(k, g), {g})
    requires kd.fibers[g] == Failing(k.fibers[g], epoch).(effects := []) && k.fibers[g].loaded.None?
    requires forall f {:trigger f in kd.fibers} :: f in kd.fibers && g in kd.fibers[f].ancestors ==> f == g
    ensures var kf := Put(kd, g, Dropped(kd.fibers[g]));
            && WellFormed(kf)
            && SameButCounters(Put(k0, g, GaveUp(k0.fibers[g], epoch)), kf)
  {
    var kf := Put(kd, g, Dropped(kd.fibers[g]));
    assert FiberOk(k0, g) && FiberOk(kd, g) && PlaceOk(kd, g);
    forall c | c in kd.fibers && c != ROOT ensures kd.fibers[c].parent != g {
      assert PlaceOk(kd, c) && PlaceOk(kd, kd.fibers[c].parent);
      assert kd.fibers[c].parent in kd.fibers[c].ancestors;
    }
    PhaseKeeps(kd, g, kf.fibers[g]);
    RolledBackFibers(k0, k, kd, g, epoch);
    var k1 := Put(k0, g, GaveUp(k0.fibers[g], epoch));
    PhaseKeeps(k0, g, k1.fibers[g]);
    TablesDetermined(k1, kf);
  }

  lemma RolledBackFibers(k0: State, k: State, kd: State, g: Id, epoch: Epoch)
    requires Pending(k0, g) && FiberOk(k0, g) && Within(k0, k, g) && IsLoading(k, g)
    requires Shrunk(Put(k, g, Failing(k.fibers[g], epoch)), kd, Below(k, g), {g}) && g in kd.fibers
    requires kd.fibers[g] == Failing(k.fibers[g], epoch).(effects := []) && k.fibers[g].loaded.None?
    requires forall f {:trigger f in kd.fibers} :: f in kd.fibers && g in kd.fibers[f].ancestors ==> f == g
    ensures kd.fibers[g := Dropped(kd.fibers[g])] == k0.fibers[g := GaveUp(k0.fibers[g], epoch)]
  {
    var ku := Put(k, g, Failing(k.fibers[g], epoch));
    forall f | f in k0.fibers && f != g ensures f in kd.fibers && kd.fibers[f] == k0.fibers[f] {
      assert f in k.fibers && ShrunkAt(ku, kd, Below(k, g), {g}, f);
    }
    forall f | f in kd.fibers && f != g ensures f in k0.fibers {
      assert f in ku.fibers && ShrunkAt(ku, kd, Below(k, g), {g}, f);
      assert f in k.fibers;
    }
    assert Dropped(kd.fibers[g]) == GaveUp(k0.fibers[g], epoch);
  }

  // -- withdrawing at the end of a load ---------------------------------------------------------------

  function LoadedWith(x: Fiber, epoch: Epoch): Fiber {
    x.(loaded := Some(epoch), phase := Rest)
  }

  /** A plugin that disposes itself while it loads is unloaded at once: again nobody outside ever
      used it, and again everything is exactly as it was. */
  lemma Withdrawn(k0: State, k: State, kd: State, g: Id, epoch: Epoch)
    requires WellFormed(k0) && Pending(k0, g) && !k0.fibers[g].gone && Within(k0, k, g) && k0.fibers[g].plugin.retires
    requires k.fibers[g] == Begun(k0.fibers[g], epoch).(effects := k.fibers[g].effects)
    requires WellFormed(kd) && Shrunk(Put(k, g, LoadedWith(k.fibers[g], epoch)), kd, Below(k, g), {})
    requires g in kd.fibers && kd.fibers[g] == Blank(LoadedWith(k.fibers[g], epoch)) && g != ROOT
    ensures SameButCounters(Put(k0, g, Departed(k0.fibers[g])), kd)
  {
    var k1 := Put(k0, g, Departed(k0.fibers[g]));
    assert FiberOk(k0, g) && FiberOk(kd, g);
    NothingUnder(kd, g);
    PhaseKeeps(k0, g, k1.fibers[g]);
    WithdrawnFibers(k0, k, kd, g, epoch);
    TablesDetermined(k1, kd);
  }

  lemma WithdrawnFibers(k0: State, k: State, kd: State, g: Id, epoch: Epoch)
    requires Pending(k0, g) && FiberOk(k0, g) && Within(k0, k, g) && k0.fibers[g].plugin.retires
    requires k.fibers[g] == Begun(k0.fibers[g], epoch).(effects := k.fibers[g].effects)
    requires Shrunk(Put(k, g, LoadedWith(k.fibers[g], epoch)), kd, Below(k, g), {})
    requires g in kd.fibers && kd.fibers[g] == Blank(LoadedWith(k.fibers[g], epoch))
    requires forall f :: Under(kd, g, f) ==> f == g
    ensures kd.fibers == k0.fibers[g := Departed(k0.fibers[g])]
  {
    var ku := Put(k, g, LoadedWith(k.fibers[g], epoch));
    forall f | f in k0.fibers && f != g ensures f in kd.fibers && kd.fibers[f] == k0.fibers[f] {
      assert f in k.fibers && ShrunkAt(ku, kd, Below(k, g), {}, f);
    }
    forall f | f in kd.fibers && f != g ensures f in k0.fibers {
      assert f in ku.fibers && ShrunkAt(ku, kd, Below(k, g), {}, f);
      assert !Under(kd, g, f);
    }
    assert kd.fibers[g] == Departed(k0.fibers[g]);
  }

  lemma FinishClosed(k: State, g: Id, epoch: Epoch)
    requires TreeOk(k) && Settled(k) && IsLoading(k, g)
    ensures ClosedUnder(Put(k, g, LoadedWith(k.fibers[g], epoch)), Below(k, g))
  {
    var k1 := Put(k, g, LoadedWith(k.fibers[g], epoch));
    forall h, n | h in k1.fibers && n in k1.fibers[h].store && n in k1.impls && k1.impls[n].owner in Below(k, g) ensures h in Below(k, g) {
      assert n in k.fibers[h].store && Usable(k, n, h);
      assert Lets(k, g, h);
    }
    forall h, a | h in k1.fibers && a in k1.fibers[h].ancestors && a in Below(k, g) ensures h in Below(k, g) {
      assert a in k.fibers[h].ancestors && g in k.fibers[a].ancestors;
    }
  }
}
