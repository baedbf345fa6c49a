/** What a call in the kernel's cascade may change, and what of it its caller can go on relying
    on. Unloading only takes away; loading only adds, below the fiber that is loading. */
module KernelFrames {
  import opened Models
  import opened KernelState
  import opened KernelSteps

  // -- unloading -----------------------------------------------------------------------------

  /** `x` but for some effects that are gone. */
  ghost predicate FewerEffects(x: Fiber, y: Fiber) {
    y == x.(effects := y.effects) && forall e :: e in y.effects ==> e in x.effects
  }

  /** Unloading changed fibers of `zone` only: some left, some became blank. Whoever was in
      transition is as before; those of `except` at most lost effects. */
  ghost predicate Shrunk(k: State, k': State, zone: set<Id>, except: set<Id>) {
    && k'.fibers.Keys <= k.fibers.Keys && k'.uids == k.uids && k'.serials == k.serials
    && (forall f {:trigger f in k.fibers} {:trigger f in k'.fibers} :: f in k.fibers ==> ShrunkAt(k, k', zone, except, f))
  }

  ghost predicate ShrunkAt(k: State, k': State, zone: set<Id>, except: set<Id>, f: Id)
    requires f in k.fibers
  {
    if f in except then f in k'.fibers && FewerEffects(k.fibers[f], k'.fibers[f])
    else
      && (f !in zone || !k.fibers[f].phase.Rest? ==> f in k'.fibers && k'.fibers[f] == k.fibers[f])
      && (f in k'.fibers ==> k'.fibers[f] == k.fibers[f] || (Active(k, f) && k'.fibers[f] == Blank(k.fibers[f])))
  }

  lemma ShrunkTrans(k: State, k1: State, k2: State, zone: set<Id>, except: set<Id>)
    requires Shrunk(k, k1, zone, except) && Shrunk(k1, k2, zone, except)
    ensures Shrunk(k, k2, zone, except)
  {
  }

  /** What is still in the services table is the same registration. */
  lemma ShrunkImpl(k: State, k': State, zone: set<Id>, except: set<Id>, n: string)
    requires ServicesOk(k) && ServicesOk(k') && Shrunk(k, k', zone, except) && n in k'.impls
    ensures n in k.impls && k'.impls[n] == k.impls[n]
  {
    var o, s := k'.impls[n].owner, k'.impls[n].serial;
    assert Provided(n, s) in k'.fibers[o].effects;
    assert o in k.fibers && ShrunkAt(k, k', zone, except, o);
    assert Provided(n, s) in k.fibers[o].effects;
  }

  lemma ShrunkLets(k: State, k': State, zone: set<Id>, except: set<Id>, a: Id, g: Id)
    requires Shrunk(k, k', zone, except) && g in k'.fibers && Lets(k', a, g)
    ensures g in k.fibers && Lets(k, a, g)
  {
    assert ShrunkAt(k, k', zone, except, a) && ShrunkAt(k, k', zone, except, g);
  }

  /** Nothing becomes usable by unloading. */
  lemma ShrunkUsable(k: State, k': State, zone: set<Id>, except: set<Id>, n: string, g: Id)
    requires ServicesOk(k) && ServicesOk(k') && Shrunk(k, k', zone, except)
    requires g in k'.fibers && Usable(k', n, g)
    ensures g in k.fibers && Usable(k, n, g)
  {
    ShrunkImpl(k, k', zone, except, n);
    var o := k.impls[n].owner;
    assert ShrunkAt(k, k', zone, except, o) && ShrunkAt(k, k', zone, except, g);
    forall a | a in k.fibers[o].ancestors ensures Lets(k, a, g) {
      assert Lets(k', a, g);
      ShrunkLets(k, k', zone, except, a, g);
    }
  }

  /** What a fiber of the new state could load against, it could load against before. */
  lemma ShrunkDesired(k: State, k': State, zone: set<Id>, except: set<Id>, g: Id)
    requires ServicesOk(k) && ServicesOk(k') && Shrunk(k, k', zone, except) && g in k'.fibers
    ensures g in k.fibers && (Desired(k', g).Some? ==> Desired(k, g) == Desired(k', g))
  {
    hide ServicesOk;
    assert ShrunkAt(k, k', zone, except, g);
    if Desired(k', g).Some? {
      forall n | n in k.fibers[g].plugin.inject ensures Usable(k, n, g) && n in k'.impls && k'.impls[n] == k.impls[n] {
        assert Usable(k', n, g);
        ShrunkUsable(k, k', zone, except, n, g);
        ShrunkImpl(k, k', zone, except, n);
      }
      assert Serials(k.impls, k.fibers[g].plugin.inject) == Serials(k'.impls, k.fibers[g].plugin.inject);
    }
  }

  /** `zone` holds, with a fiber, its descendants and whoever loaded against what it provides. */
  ghost predicate ClosedUnder(k: State, zone: set<Id>) {
    && (forall g, a {:trigger a in k.fibers[g].ancestors} :: g in k.fibers && a in k.fibers[g].ancestors && a in zone ==> g in zone)
    && (forall g, n {:trigger n in k.fibers[g].store} :: g in k.fibers && n in k.fibers[g].store && n in k.impls && k.impls[n].owner in zone ==> g in zone)
  }

  lemma ShrunkClosed(k: State, k': State, zone: set<Id>, except: set<Id>)
    requires ServicesOk(k) && ServicesOk(k') && Shrunk(k, k', zone, except) && ClosedUnder(k, zone)
    ensures ClosedUnder(k', zone)
  {
    forall g, n | g in k'.fibers && n in k'.fibers[g].store && n in k'.impls && k'.impls[n].owner in zone ensures g in zone {
      ShrunkImpl(k, k', zone, except, n);
      assert ShrunkAt(k, k', zone, except, g);
      assert n in k.fibers[g].store;
    }
    forall g, a | g in k'.fibers && a in k'.fibers[g].ancestors && a in zone ensures g in zone {
      assert ShrunkAt(k, k', zone, except, g);
      assert a in k.fibers[g].ancestors;
    }
  }

  /** Everything an ancestor of an unloading fiber loaded against is older than `s`. */
  ghost predicate Above(k: State, s: nat) {
    forall u, a, m {:trigger a in k.fibers[u].ancestors, m in k.fibers[a].store} ::
      IsUnloading(k, u) && a in k.fibers[u].ancestors && a in k.fibers && m in k.fibers[a].store ==> k.fibers[a].store[m] < s
  }

  ghost predicate AboveAll(k: State, g: Id) {
    forall n {:trigger n in k.impls} :: n in k.impls && Under(k, g, k.impls[n].owner) ==> Above(k, k.impls[n].serial)
  }

  /** No fiber below is being unloaded. */
  ghost predicate FreeBelow(k: State, g: Id) {
    forall u :: IsUnloading(k, u) ==> g !in k.fibers[u].ancestors
  }

  lemma ShrunkAbove(k: State, k': State, zone: set<Id>, except: set<Id>, s: nat)
    requires Shrunk(k, k', zone, except) && Above(k, s)
    ensures Above(k', s)
  {
    forall u, a, m | IsUnloading(k', u) && a in k'.fibers[u].ancestors && a in k'.fibers && m in k'.fibers[a].store
      ensures k'.fibers[a].store[m] < s
    {
      assert u in k.fibers && a in k.fibers;
      assert a in k.fibers[u].ancestors && m in k.fibers[a].store;
    }
  }

  lemma ShrunkAboveAll(k: State, k': State, zone: set<Id>, except: set<Id>, g: Id)
    requires ServicesOk(k) && ServicesOk(k') && Shrunk(k, k', zone, except) && AboveAll(k, g)
    ensures AboveAll(k', g)
  {
    forall n | n in k'.impls && Under(k', g, k'.impls[n].owner) ensures Above(k', k'.impls[n].serial) {
      ShrunkImpl(k, k', zone, except, n);
      assert ShrunkAt(k, k', zone, except, k.impls[n].owner);
      assert Under(k, g, k.impls[n].owner);
      ShrunkAbove(k, k', zone, except, k'.impls[n].serial);
    }
  }

  function Actives(k: State): set<Id> {
    set f | f in k.fibers && Active(k, f)
  }

  lemma ShrunkActives(k: State, k': State, zone: set<Id>, except: set<Id>)
    requires Shrunk(k, k', zone, except)
    ensures |Actives(k')| <= |Actives(k)|
  {
    SubsetSize(Actives(k'), Actives(k));
  }

  /** A fiber that is notified of a service it loaded against, and the service newer than all
      that ancestors of unloading fibers loaded against: it is no such ancestor itself. */
  lemma NotifiedFree(k: State, g: Id, n: string)
    requires WellFormed(k) && g in k.fibers && n in k.fibers[g].store && Above(k, k.fibers[g].store[n])
    ensures FreeBelow(k, g) && AboveAll(k, g)
  {
    forall u | IsUnloading(k, u) ensures g !in k.fibers[u].ancestors {}
    forall p | p in k.impls && Under(k, g, k.impls[p].owner) ensures Above(k, k.impls[p].serial) {
      assert k.fibers[g].store[n] < k.impls[p].serial;
    }
  }
}
