/** Which plugins are loaded between operations does not depend on how the kernel got there: it is
    the least solution of the plugins' own demands. */
module KernelFixpoint {
  import opened Models
  import opened KernelState
  import opened KernelSteps
  import opened KernelGrowth
  import opened KernelCalls
  import opened KernelProof

  /** The services a plugin and what it mounts provide, once the services of `on` are there. */
  function Serves(p: Plugin, on: set<string>): set<string>
    decreases p, |p.actions| + 1
  {
    if p.inject <= on && !p.retires then ServesTo(p, |p.actions|, on) else {}
  }

  function ServesTo(p: Plugin, n: nat, on: set<string>): set<string>
    requires n <= |p.actions|
    decreases p, n
  {
    if n == 0 then {}
    else ServesTo(p, n - 1, on) + match p.actions[n - 1]
                                  case Provide(s) => {s}
                                  case Mount(q) => Serves(q, on)
                                  case _ => {}
  }

  /** The plugins mounted at the top. */
  function Tops(k: State): set<Plugin> {
    set f | f in k.fibers && f != ROOT && k.fibers[f].parent == ROOT :: k.fibers[f].plugin
  }

  /** The services the application itself provides. */
  function Base(k: State): set<string> {
    set n | n in k.impls && k.impls[n].owner == ROOT
  }

  /** `on` is closed: the application's services are in it, and everything the plugins provide
      once `on` is there. */
  predicate Enough(base: set<string>, tops: set<Plugin>, on: set<string>) {
    base <= on && forall p :: p in tops ==> Serves(p, on) <= on
  }

  /** No plugin has failed, and none is gone but those that dispose themselves as they load. */
  predicate NoneFailed(k: State) {
    forall f :: f in k.fibers ==> k.fibers[f].failed.None? && (k.fibers[f].gone ==> k.fibers[f].plugin.retires)
  }

  ghost predicate Settling(k: State) {
    UpOk(k, ROOT) && Whole(k) && NoneFailed(k) && forall h :: !CanLoad(k, h)
  }

  lemma {:induction false} ServedBy(p: Plugin, n: nat, j: nat, on: set<string>)
    requires j < n <= |p.actions|
    ensures p.actions[j].Provide? ==> p.actions[j].name in ServesTo(p, n, on)
    ensures p.actions[j].Mount? ==> Serves(p.actions[j].plugin, on) <= ServesTo(p, n, on)
  {
    if j < n - 1 { ServedBy(p, n - 1, j, on); }
  }

  // -- complete: whatever could be loaded is ---------------------------------------------------------

  lemma AtRestNow(k: State)
    requires UpOk(k, ROOT)
    ensures forall f :: f in k.fibers ==> k.fibers[f].phase.Rest?
  {
    forall f | f in k.fibers ensures k.fibers[f].phase.Rest? { assert k.fibers[f].phase.Loading? ==> IsLoading(k, f); }
  }

  /** Between operations a service in the table is usable by everyone. */
  lemma Open(k: State, n: string, h: Id)
    requires UpOk(k, ROOT) && n in k.impls && h in k.fibers
    ensures Usable(k, n, h)
  {
    AtRestNow(k);
    var o := k.impls[n].owner;
    assert Provided(n, k.impls[n].serial) in k.fibers[o].effects && FiberOk(k, o);
    forall a | a in k.fibers[o].ancestors ensures Lets(k, a, h) {
      if Pending(k, a) {
        assert FiberOk(k, a);
        NothingUnder(k, a);
      }
    }
  }

  /** A fiber is loaded exactly when the services it injects are all there. */
  lemma LoadedIff(k: State, f: Id)
    requires Settling(k) && f in k.fibers
    ensures Active(k, f) <==> !k.fibers[f].plugin.retires && k.fibers[f].plugin.inject <= k.impls.Keys
  {
    AtRestNow(k);
    assert FiberOk(k, f);
    if Active(k, f) {
      if f != ROOT { assert Matches(k, f); }
      forall n | n in k.fibers[f].plugin.inject ensures n in k.impls { assert n in k.fibers[f].store; }
    }
    if !k.fibers[f].plugin.retires && k.fibers[f].plugin.inject <= k.impls.Keys {
      forall n | n in k.fibers[f].plugin.inject ensures Usable(k, n, f) { Open(k, n, f); }
      assert !CanLoad(k, f);
    }
  }

  lemma ServesThere(k: State, f: Id)
    requires Settling(k) && f in k.fibers && f != ROOT
    ensures Serves(k.fibers[f].plugin, k.impls.Keys) <= k.impls.Keys
    decreases k.fibers[f].plugin, |k.fibers[f].plugin.actions| + 1
  {
    LoadedIff(k, f);
    if Active(k, f) { ServesToThere(k, f, |k.fibers[f].plugin.actions|); }
  }

  lemma ServesToThere(k: State, f: Id, n: nat)
    requires Settling(k) && Active(k, f) && f != ROOT && n <= |k.fibers[f].plugin.actions|
    ensures ServesTo(k.fibers[f].plugin, n, k.impls.Keys) <= k.impls.Keys
    decreases k.fibers[f].plugin, n
  {
    if n > 0 {
      ServesToThere(k, f, n - 1);
      assert Matches(k, f);
      var a, e := k.fibers[f].plugin.actions[n - 1], k.fibers[f].effects[n];
      assert EffectFits(k, k.fibers[f].plugin.actions[n - 1], k.fibers[f].effects[n - 1 + 1]);
      assert e in k.fibers[f].effects;
      match a
      case Provide(s) => assert Provided(s, e.serial) in k.fibers[f].effects;
      case Mount(q) =>
        assert Mounted(e.child) in k.fibers[f].effects;
        ServesThere(k, e.child);
      case _ =>
    }
  }

  // -- and nothing else is ------------------------------------------------------------------------------

  /** If all a fiber and its ancestors need is in `on`, and `on` is closed, so is what it serves. */
  lemma {:induction false} ServesWithin(k: State, f: Id, on: set<string>)
    requires Settling(k) && Enough(Base(k), Tops(k), on) && f in k.fibers && f != ROOT
    requires forall a :: a in k.fibers[f].ancestors ==> a in k.fibers && k.fibers[a].plugin.inject <= on
    ensures Serves(k.fibers[f].plugin, on) <= on
    decreases f
  {
    assert PlaceOk(k, f) && ChildOk(k, f);
    var p := k.fibers[f].parent;
    if p == ROOT {
      assert k.fibers[f].plugin in Tops(k);
    } else {
      AtRestNow(k);
      assert FiberOk(k, p) && Active(k, p) && Matches(k, p) && PlaceOk(k, p);
      var i :| 0 <= i < |k.fibers[p].effects| && k.fibers[p].effects[i] == Mounted(f);
      var acts := k.fibers[p].plugin.actions;
      assert EffectFits(k, acts[i - 1], k.fibers[p].effects[i - 1 + 1]);
      ServedBy(k.fibers[p].plugin, |acts|, i - 1, on);
      ServesWithin(k, p, on);
    }
  }

  /** Services are in every closed set, oldest first. */
  lemma {:induction false} Needed(k: State, n: string, on: set<string>)
    requires Settling(k) && Enough(Base(k), Tops(k), on) && n in k.impls
    ensures n in on
    decreases k.impls[n].serial, 1
  {
    var o, s := k.impls[n].owner, k.impls[n].serial;
    AtRestNow(k);
    assert Provided(n, s) in k.fibers[o].effects && FiberOk(k, o) && FiberOk(k, ROOT);
    forall a | a in k.fibers[o].ancestors ensures a in k.fibers && k.fibers[a].plugin.inject <= on { AncestorNeeds(k, n, a, on); }
    if o != ROOT {
      assert PlaceOk(k, o) && Matches(k, o);
      var i :| 0 <= i < |k.fibers[o].effects| && k.fibers[o].effects[i] == Provided(n, s);
      var acts := k.fibers[o].plugin.actions;
      assert EffectFits(k, acts[i - 1], k.fibers[o].effects[i - 1 + 1]);
      ServedBy(k.fibers[o].plugin, |acts|, i - 1, on);
      ServesWithin(k, o, on);
    }
  }

  /** What an ancestor of a provider injects is older than what is provided. */
  lemma {:induction false} AncestorNeeds(k: State, n: string, a: Id, on: set<string>)
    requires Settling(k) && Enough(Base(k), Tops(k), on) && n in k.impls && a in k.fibers[k.impls[n].owner].ancestors
    ensures a in k.fibers && k.fibers[a].plugin.inject <= on
    decreases k.impls[n].serial, 0
  {
    AtRestNow(k);
    assert FiberOk(k, a) && Active(k, a) by { ProviderAncestor(k, n, a); }
    forall m | m in k.fibers[a].plugin.inject ensures m in on {
      assert m in k.fibers[a].store && Usable(k, m, a);
      assert k.fibers[a].store[m] < k.impls[n].serial && k.impls[m].serial == k.fibers[a].store[m];
      Needed(k, m, on);
    }
  }

  lemma ProviderAncestor(k: State, n: string, a: Id)
    requires UpOk(k, ROOT) && n in k.impls && a in k.fibers[k.impls[n].owner].ancestors
    ensures Active(k, a) && FiberOk(k, a)
  {
    AtRestNow(k);
    Open(k, n, ROOT);
    assert Lets(k, a, ROOT) && FiberOk(k, a);
  }

  // -- theorems -------------------------------------------------------------------------------------------

  /** Between operations, if no plugin has failed: the services there are exactly the least set
      closed under what the plugins provide, and a fiber is loaded exactly when all it injects is
      among them, against the very registrations in the table. */
  lemma LeastFixpoint(k: State, busy: set<Id>)
    requires Quiet(k, busy) && Whole(k) && NoneFailed(k)
    ensures Enough(Base(k), Tops(k), k.impls.Keys)
    ensures forall on :: Enough(Base(k), Tops(k), on) ==> k.impls.Keys <= on
    ensures forall f :: f in k.fibers ==> (Active(k, f) <==> !k.fibers[f].plugin.retires && k.fibers[f].plugin.inject <= k.impls.Keys)
    ensures forall f :: Active(k, f) ==> k.fibers[f].loaded == Some(Serials(k.impls, k.fibers[f].plugin.inject))
  {
    forall p | p in Tops(k) ensures Serves(p, k.impls.Keys) <= k.impls.Keys {
      var f :| f in k.fibers && f != ROOT && k.fibers[f].parent == ROOT && k.fibers[f].plugin == p;
      ServesThere(k, f);
    }
    forall on | Enough(Base(k), Tops(k), on) ensures k.impls.Keys <= on {
      forall n | n in k.impls ensures n in on { Needed(k, n, on); }
    }
    forall f | f in k.fibers ensures Active(k, f) <==> !k.fibers[f].plugin.retires && k.fibers[f].plugin.inject <= k.impls.Keys { LoadedIff(k, f); }
    forall f | Active(k, f) ensures k.fibers[f].loaded == Some(Serials(k.impls, k.fibers[f].plugin.inject)) {
      SettledDesired(k, ROOT, f);
    }
  }

  /** So the outcome does not depend on the order of mounting, or on restarts and removals on the
      way: two kernels with the same top plugins and the same services of the application have
      the same services, and the same plugins loaded. */
  lemma OrderIndependent(k1: State, k2: State, busy: set<Id>, f: Id, g: Id)
    requires Quiet(k1, busy) && Whole(k1) && NoneFailed(k1) && Quiet(k2, busy) && Whole(k2) && NoneFailed(k2)
    requires Tops(k1) == Tops(k2) && Base(k1) == Base(k2)
    requires f in k1.fibers && g in k2.fibers && k1.fibers[f].plugin == k2.fibers[g].plugin
    ensures k1.impls.Keys == k2.impls.Keys
    ensures Active(k1, f) <==> Active(k2, g)
  {
    LeastFixpoint(k1, busy);
    LeastFixpoint(k2, busy);
  }
}
