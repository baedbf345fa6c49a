/** A loaded fiber takes back a service early, by calling the disposer its provide returned. */
module KernelWithdraw {
  import opened Models
  import opened KernelState
  import opened KernelSteps
  import opened KernelFrames
  import opened KernelGrowth
  import opened KernelRollback
  import opened KernelCalls
  import opened KernelProof

  predicate Registered(k: State, n: string, s: nat) {
    n in k.impls && k.impls[n].serial == s
  }

  /** The service is off the table and off its provider's list of effects. */
  function Withdrawing(k: State, n: string): State
    requires n in k.impls && k.impls[n].owner in k.fibers
  {
    var f := k.impls[n].owner;
    Put(k, f, k.fibers[f].(effects := Without(k.fibers[f].effects, Provided(n, k.impls[n].serial)))).(impls := k.impls - {n})
  }

  /** It, or a fiber above it, loaded against a registration as young as `s`. */
  predicate RestsOn(k: State, g: Id, s: nat)
    requires g in k.fibers
  {
    exists a, m {:trigger m in k.fibers[a].store} :: a in k.fibers[g].ancestors && a in k.fibers && m in k.fibers[a].store && s <= k.fibers[a].store[m]
  }

  function Newer(k: State, s: nat): set<Id> {
    set g | g in k.fibers && RestsOn(k, g, s)
  }

  /** No cascade leaves the fibers that rest on something as young. */
  lemma NewerClosed(k: State, s: nat)
    requires WellFormed(k)
    ensures ClosedUnder(k, Newer(k, s)) && ROOT !in Newer(k, s)
  {
    assert FiberOk(k, ROOT);
    forall g, a | g in k.fibers && a in k.fibers[g].ancestors && a in Newer(k, s) ensures g in Newer(k, s) {
      var b, m :| b in k.fibers[a].ancestors && b in k.fibers && m in k.fibers[b].store && s <= k.fibers[b].store[m];
      assert b in k.fibers[g].ancestors;
    }
    forall g, n | g in k.fibers && n in k.fibers[g].store && n in k.impls && k.impls[n].owner in Newer(k, s) ensures g in Newer(k, s) {
      var o := k.impls[n].owner;
      var b, m :| b in k.fibers[o].ancestors && b in k.fibers && m in k.fibers[b].store && s <= k.fibers[b].store[m];
      assert PlaceOk(k, g) && k.fibers[b].store[m] < k.impls[n].serial == k.fibers[g].store[n];
    }
  }

  lemma WithdrawingServices(k: State, n: string)
    requires ServicesOk(k) && n in k.impls
    ensures k.impls[n].owner in k.fibers && ServicesOk(Withdrawing(k, n))
  {
    var f, s, k1 := k.impls[n].owner, k.impls[n].serial, Withdrawing(k, n);
    assert Provided(n, s) in k.fibers[f].effects;
    forall m | m in k1.impls ensures Provided(m, k1.impls[m].serial) in k1.fibers[k1.impls[m].owner].effects {
      assert Provided(m, k.impls[m].serial) in k.fibers[k.impls[m].owner].effects;
    }
    forall g, m, t | g in k1.fibers && Provided(m, t) in k1.fibers[g].effects ensures m in k1.impls && k1.impls[m] == Impl(g, t) {
      assert Provided(m, t) in k.fibers[g].effects;
    }
  }

  lemma WithdrawingMounted(k: State, n: string)
    requires MountedOk(k) && n in k.impls && k.impls[n].owner in k.fibers
    ensures MountedOk(Withdrawing(k, n))
  {
    hide Without;
    var k1 := Withdrawing(k, n);
    forall g, c | g in k1.fibers && Mounted(c) in k1.fibers[g].effects ensures c in k1.fibers && c != ROOT && k1.fibers[c].parent == g {
      assert Mounted(c) in k.fibers[g].effects;
    }
  }

  lemma WithdrawingListeners(k: State, n: string)
    requires ListenersOk(k) && n in k.impls && k.impls[n].owner in k.fibers
    ensures ListenersOk(Withdrawing(k, n))
  {
    hide Without, AscendingKeys;
    var k1 := Withdrawing(k, n);
    forall g, v, key | g in k1.fibers && Listening(v, key) in k1.fibers[g].effects ensures Listener(g, v, key) in k1.listeners {
      assert Listening(v, key) in k.fibers[g].effects;
    }
    forall l | l in k1.listeners ensures Listening(l.event, l.key) in k1.fibers[l.owner].effects {
      assert Listening(l.event, l.key) in k.fibers[l.owner].effects;
    }
  }

  lemma WithdrawingSerials(k: State, n: string)
    requires SerialsOk(k) && n in k.impls && k.impls[n].owner in k.fibers
    ensures SerialsOk(Withdrawing(k, n))
  {
    hide Without;
  }

  lemma WithdrawingFibers(k: State, n: string)
    requires n in k.impls && k.impls[n].owner in k.fibers && Active(k, k.impls[n].owner) && MountedOk(Withdrawing(k, n))
    requires (forall g {:trigger FiberOk(k, g)} :: g in k.fibers ==> FiberOk(k, g)) && ChildrenOk(k)
    ensures forall g {:trigger FiberOk(Withdrawing(k, n), g)} :: g in k.fibers ==> FiberOk(Withdrawing(k, n), g)
    ensures ChildrenOk(Withdrawing(k, n))
  {
    hide Without;
    var f, e, k1 := k.impls[n].owner, Provided(n, k.impls[n].serial), Withdrawing(k, n);
    assert FiberOk(k, f);
    WithoutNoDup(k.fibers[f].effects, e);
    WithoutFirst(k.fibers[f].effects, e);
    forall g | g in k.fibers ensures FiberOk(k1, g) { assert FiberOk(k, g); }
    forall c | c in k.fibers && c != ROOT ensures ChildOk(k1, c) { assert ChildOk(k, c); }
  }

  /** Who provides is loaded, while nothing is in transition. */
  lemma WithdrawingKeeps(k: State, n: string)
    requires WellFormed(k) && n in k.impls && forall f :: f in k.fibers ==> k.fibers[f].phase.Rest?
    ensures k.impls[n].owner in k.fibers && WellFormed(Withdrawing(k, n))
  {
    var f := k.impls[n].owner;
    assert Provided(n, k.impls[n].serial) in k.fibers[f].effects && FiberOk(k, f);
    WithdrawingServices(k, n);
    assert MountedOk(k);
    hide ServicesOk, ListenersOk, ChildrenOk, SerialsOk, FiberOk;
    TreeSame(k, Withdrawing(k, n));
    WithdrawingMounted(k, n);
    WithdrawingListeners(k, n);
    WithdrawingSerials(k, n);
    WithdrawingFibers(k, n);
  }

  lemma WithoutFirst<T(!new)>(s: seq<T>, x: T)
    ensures s != [] && s[0] != x ==> Without(s, x) != [] && Without(s, x)[0] == s[0]
  {
  }

  /** What a withdrawal starts from: whoever should not be loaded any more hears of it. */
  lemma WithdrawStarts(k: State, busy: set<Id>, n: string)
    requires Quiet(k, busy) && n in k.impls
    ensures k.impls[n].owner in k.fibers
    ensures var k1, c := Withdrawing(k, n), Down(Newer(k, k.impls[n].serial), {});
      && Ready(c, k1) && BusyOk(c, k1, busy) && DueOrHears(c, k1, {n}) && Heard(c, k1, {n})
      && k.impls[n].owner !in c.zone && NoNewLoads(k, k1, {})
  {
    QuietRest(k, busy);
    assert WellFormed(k) && busy == {};
    hide *;
    WithdrawingKeeps(k, n);
    WithdrawingDown(k, n);
    WithdrawingStale(k, busy, n);
    WithdrawingHeard(k, n);
    WithdrawingRest(k, busy, n);
  }

  lemma WithdrawingDown(k: State, n: string)
    requires WellFormed(k) && n in k.impls && k.impls[n].owner in k.fibers && WellFormed(Withdrawing(k, n))
    requires forall f :: f in k.fibers ==> k.fibers[f].phase.Rest?
    ensures DownOk(Withdrawing(k, n), Newer(k, k.impls[n].serial)) && NoNewLoads(k, Withdrawing(k, n), {})
  {
    var zone := Newer(k, k.impls[n].serial);
    NewerClosed(k, k.impls[n].serial);
    WithdrawingShrinks(k, n, zone);
    ShrunkClosed(k, Withdrawing(k, n), zone, {k.impls[n].owner});
    hide Usable, Desired, Newer, ClosedUnder, RestsOn, Without;
    ShrunkLoads(k, Withdrawing(k, n), zone, {k.impls[n].owner}, {});
  }

  lemma WithdrawingRest(k: State, busy: set<Id>, n: string)
    requires n in k.impls && k.impls[n].owner in k.fibers && busy == {} && forall f :: f in k.fibers ==> k.fibers[f].phase.Rest?
    requires forall h :: Stale(Withdrawing(k, n), h) ==> Hears(k, h, {n})
    requires var k1, zone := Withdrawing(k, n), Newer(k, k.impls[n].serial);
      && DownOk(k1, zone)
      && forall h {:trigger n in k1.fibers[h].store} :: Active(k1, h) && n in k1.fibers[h].store ==> h in zone && Above(k1, k1.fibers[h].store[n])
    ensures var k1, c := Withdrawing(k, n), Down(Newer(k, k.impls[n].serial), {});
      Ready(c, k1) && BusyOk(c, k1, busy) && DueOrHears(c, k1, {n}) && Heard(c, k1, {n})
  {
    hide Stale, Without, Above, DownOk, Newer;
    forall h | Stale(Withdrawing(k, n), h) ensures Hears(Withdrawing(k, n), h, {n}) { assert Hears(k, h, {n}); }
  }

  /** The provider itself loaded against older services only. */
  lemma WithdrawingHeard(k: State, n: string)
    requires WellFormed(k) && n in k.impls && k.impls[n].owner in k.fibers && forall f :: f in k.fibers ==> k.fibers[f].phase.Rest?
    ensures var k1, zone := Withdrawing(k, n), Newer(k, k.impls[n].serial);
      && k.impls[n].owner !in zone
      && forall h {:trigger n in k1.fibers[h].store} :: Active(k1, h) && n in k1.fibers[h].store ==> h in zone && Above(k1, k1.fibers[h].store[n])
  {
    var k1, zone := Withdrawing(k, n), Newer(k, k.impls[n].serial);
    forall h | Active(k1, h) && n in k1.fibers[h].store ensures h in zone && Above(k1, k1.fibers[h].store[n]) {
      assert n in k.fibers[h].store && PlaceOk(k, h);
    }
  }

  lemma WithdrawingShrinks(k: State, n: string, zone: set<Id>)
    requires n in k.impls && k.impls[n].owner in k.fibers
    ensures Shrunk(k, Withdrawing(k, n), zone, {k.impls[n].owner})
  {
  }

  lemma WithdrawingUsable(k: State, n: string, m: string, h: Id)
    requires n in k.impls && k.impls[n].owner in k.fibers && h in k.fibers && m != n && Usable(k, m, h)
    ensures Usable(Withdrawing(k, n), m, h)
  {
    forall a | a in k.fibers[k.impls[m].owner].ancestors ensures Lets(Withdrawing(k, n), a, h) { assert Lets(k, a, h); }
  }

  lemma WithdrawingStale(k: State, busy: set<Id>, n: string)
    requires Quiet(k, busy) && n in k.impls && k.impls[n].owner in k.fibers
    ensures forall h :: Stale(Withdrawing(k, n), h) ==> Hears(k, h, {n})
  {
    hide WellFormed, Settled, CanLoad, Usable;
    forall h | Stale(Withdrawing(k, n), h) ensures Hears(k, h, {n}) {
      SettledDesired(k, ROOT, h);
      var m :| m in k.fibers[h].plugin.inject && !Usable(Withdrawing(k, n), m, h);
      if m != n { WithdrawingUsable(k, n, m, h); }
    }
  }

  /** What a withdrawal ends in. */
  lemma WithdrawEnds(k: State, k2: State, busy: set<Id>, n: string)
    requires Quiet(k, busy) && n in k.impls && k.impls[n].owner in k.fibers
    requires var k1, c := Withdrawing(k, n), Down(Newer(k, k.impls[n].serial), {});
      && NoNewLoads(k, k1, {}) && Ready(c, k2) && Moved(c, k1, k2) && (forall h :: Due(c, k2, h) ==> h in c.others)
    ensures Quiet(k2, busy) && n !in k2.impls && Shrunk(Withdrawing(k, n), k2, Newer(k, k.impls[n].serial), {})
    ensures var f := k.impls[n].owner; f !in Newer(k, k.impls[n].serial) ==> f in k2.fibers && k2.fibers[f] == Withdrawing(k, n).fibers[f]
    ensures forall h :: Active(k2, h) ==> n !in k2.fibers[h].plugin.inject
  {
    var k1, zone := Withdrawing(k, n), Newer(k, k.impls[n].serial);
    QuietRest(k, busy);
    WithdrawingServices(k, n);
    WithdrawingRests(k, n);
    hide Newer, Withdrawing, Desired, CanLoad, UpOk;
    forall h ensures !CanLoad(k2, h) && !Stale(k2, h) {
      assert !CanLoad(k, h) && !CanLoad(k1, h) && Due(Down(zone, {}), k2, h) == Stale(k2, h);
    }
    hide Stale;
    WithdrawnIs(k1, k2, zone, n);
    WithdrawnRest(k2, busy, zone);
  }

  lemma WithdrawingRests(k: State, n: string)
    requires n in k.impls && k.impls[n].owner in k.fibers && forall f :: f in k.fibers ==> k.fibers[f].phase.Rest?
    ensures n !in Withdrawing(k, n).impls && k.impls[n].owner in Withdrawing(k, n).fibers
    ensures forall f :: f in Withdrawing(k, n).fibers ==> Withdrawing(k, n).fibers[f].phase.Rest?
  {
  }

  lemma WithdrawnIs(k1: State, k2: State, zone: set<Id>, n: string)
    requires ServicesOk(k1) && ServicesOk(k2) && Shrunk(k1, k2, zone, {}) && n !in k1.impls && (forall h :: !Stale(k2, h))
    requires forall f :: f in k1.fibers ==> k1.fibers[f].phase.Rest?
    ensures n !in k2.impls && (forall f :: f in k2.fibers ==> k2.fibers[f].phase.Rest?)
    ensures forall h :: Active(k2, h) ==> n !in k2.fibers[h].plugin.inject
    ensures forall f :: f in k1.fibers && f !in zone ==> f in k2.fibers && k2.fibers[f] == k1.fibers[f]
  {
    if n in k2.impls { ShrunkImpl(k1, k2, zone, {}, n); }
    forall f | f in k2.fibers ensures k2.fibers[f].phase.Rest? { assert ShrunkAt(k1, k2, zone, {}, f); }
    forall h | Active(k2, h) ensures n !in k2.fibers[h].plugin.inject { assert !Stale(k2, h); }
  }

  /** Nothing in transition, nobody stale, nobody who could load: the kernel is quiet. */
  lemma WithdrawnRest(k: State, busy: set<Id>, zone: set<Id>)
    requires busy == {} && DownOk(k, zone) && (forall f :: f in k.fibers ==> k.fibers[f].phase.Rest?)
    requires forall h :: !Stale(k, h) && !CanLoad(k, h)
    ensures Quiet(k, busy)
  {
    hide CanLoad;
    forall f, m | f in k.fibers && m in k.fibers[f].store ensures Usable(k, m, f) {
      assert FiberOk(k, f) && Active(k, f) && !Stale(k, f);
    }
  }

  /** A withdrawal by the application leaves every plugin's registrations as they should be. */
  lemma WithdrawnWhole(k: State, k2: State, busy: set<Id>, n: string)
    requires Whole(k) && n in k.impls && k.impls[n].owner == ROOT && ROOT in k.fibers
    requires Quiet(k2, busy) && Shrunk(Withdrawing(k, n), k2, Newer(k, k.impls[n].serial), {})
    ensures Whole(k2)
  {
    var k1 := Withdrawing(k, n);
    forall f | Active(k1, f) && f != ROOT ensures Matches(k1, f) { assert Active(k, f) && Matches(k, f); }
    WholeShrunk(k1, k2, Newer(k, k.impls[n].serial));
  }
}
