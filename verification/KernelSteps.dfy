/** Every single change the kernel makes keeps its state well-formed. */
module KernelSteps {
  import opened Models
  import opened KernelState

  lemma {:induction false} WithoutSorted(s: seq<Id>, x: Id)
    requires Ascending(s)
    ensures Ascending(Without(s, x))
  {
    if s != [] {
      var t := Without(s[1..], x);
      WithoutSorted(s[1..], x);
      forall i | 0 <= i < |t| ensures s[0] < t[i] {
        assert t[i] in s[1..];
        var j :| 0 <= j < |s[1..]| && s[1..][j] == t[i];
        assert s[0] < s[j + 1];
      }
      if s[0] != x { assert Without(s, x) == [s[0]] + t && Ascending([s[0]] + t); }
    }
  }

  lemma {:induction false} WithoutSortedKeys(s: seq<Listener>, x: Listener)
    requires AscendingKeys(s)
    ensures AscendingKeys(Without(s, x))
  {
    if s != [] {
      var t := Without(s[1..], x);
      WithoutSortedKeys(s[1..], x);
      forall i | 0 <= i < |t| ensures s[0].key < t[i].key {
        assert t[i] in s[1..];
        var j :| 0 <= j < |s[1..]| && s[1..][j] == t[i];
        assert s[0].key < s[j + 1].key;
      }
      if s[0] != x { assert Without(s, x) == [s[0]] + t && AscendingKeys([s[0]] + t); }
    }
  }

  lemma {:induction false} WithoutNoDup<T(!new)>(s: seq<T>, x: T)
    requires NoDup(s)
    ensures NoDup(Without(s, x))
  {
    if s != [] {
      WithoutNoDup(s[1..], x);
      var t := Without(s[1..], x);
      forall i | 0 <= i < |t| ensures s[0] != t[i] {
        assert t[i] in s[1..];
        var j :| 0 <= j < |s[1..]| && s[1..][j] == t[i];
        assert s[0] != s[j + 1];
      }
    }
  }

  /** Taking the last element of a list without repetition leaves the others in order. */
  lemma {:induction false} WithoutLast<T(!new)>(s: seq<T>)
    requires NoDup(s) && s != []
    ensures Without(s, s[|s| - 1]) == s[..|s| - 1]
  {
    if |s| > 1 {
      WithoutLast(s[1..]);
      assert s[1..][..|s[1..]| - 1] == s[1..|s| - 1];
      assert s[0] != s[|s| - 1];
      assert [s[0]] + s[1..|s| - 1] == s[..|s| - 1];
    }
  }

  lemma Appended<T(!new)>(s: seq<T>, x: T)
    ensures forall y :: y in s + [x] <==> y in s || y == x
    ensures NoDup(s) && x !in s ==> NoDup(s + [x])
  {
  }

  // -- what rests on the shape of the tree alone -----------------------------------------------

  predicate SameShape(x: Fiber, y: Fiber) {
    x.plugin == y.plugin && x.parent == y.parent && x.ancestors == y.ancestors
  }

  /** The same fibers, in the same places. */
  predicate SameTree(k: State, k': State) {
    && k'.fibers.Keys == k.fibers.Keys && k'.uids == k.uids && k'.live == k.live
    && (forall f :: f in k.fibers ==> SameShape(k.fibers[f], k'.fibers[f]))
  }

  lemma TreeSame(k: State, k': State)
    requires TreeOk(k) && ListOk(k) && SameTree(k, k') && Active(k', ROOT)
    ensures TreeOk(k') && ListOk(k')
  {
    forall f | f in k'.fibers ensures PlaceOk(k', f) { assert PlaceOk(k, f); }
  }

  lemma UidsFresh(k: State)
    requires TreeOk(k)
    ensures forall g :: g in k.fibers ==> g < k.uids
  {
    forall g | g in k.fibers ensures g < k.uids { assert PlaceOk(k, g); }
  }

  /** Without children there are no descendants. */
  lemma {:induction false} NoDescendant(k: State, f: Id, g: Id)
    requires TreeOk(k) && f in k.fibers && Under(k, f, g)
    requires forall c :: c in k.fibers && c != ROOT ==> k.fibers[c].parent != f
    ensures g == f
    decreases g
  {
    if g != f {
      assert g != ROOT && PlaceOk(k, g);
      NoDescendant(k, f, k.fibers[g].parent);
    }
  }

  /** A pending fiber has nothing below it and provides nothing. */
  lemma NothingUnder(k: State, f: Id)
    requires TreeOk(k) && ServicesOk(k) && ChildrenOk(k) && Pending(k, f) && FiberOk(k, f)
    ensures forall g :: Under(k, f, g) ==> g == f
    ensures forall n :: n in k.impls ==> !Under(k, f, k.impls[n].owner)
  {
    forall c | c in k.fibers && c != ROOT ensures k.fibers[c].parent != f { assert ChildOk(k, c); }
    forall g | Under(k, f, g) ensures g == f { NoDescendant(k, f, g); }
  }

  // -- changes of one fiber that registers nothing ----------------------------------------------

  /** The same registrations. */
  ghost predicate SameEffects(k: State, k': State) {
    && k'.impls == k.impls && k'.listeners == k.listeners && k'.serials == k.serials && k'.keys == k.keys
    && (forall f: Id, e: Effect {:trigger e in k.fibers[f].effects} {:trigger e in k'.fibers[f].effects} ::
          f in k.fibers && f in k'.fibers && !e.Own? ==> (e in k'.fibers[f].effects <==> e in k.fibers[f].effects))
  }

  lemma EffectsSame(k: State, k': State)
    requires ServicesOk(k) && ListenersOk(k) && SameTree(k, k') && SameEffects(k, k')
    ensures ServicesOk(k') && ListenersOk(k')
  {
  }

  predicate StillUndoing(k: State, k': State, c: Id)
    requires c in k.fibers
  {
    IsUnloading(k, k.fibers[c].parent) ==> IsUnloading(k', k.fibers[c].parent)
  }

  lemma MountedSame(k: State, k': State)
    requires MountedOk(k) && SameTree(k, k') && SameEffects(k, k')
    ensures MountedOk(k')
  {
    forall f, c | f in k'.fibers && Mounted(c) in k'.fibers[f].effects
      ensures c in k'.fibers && c != ROOT && k'.fibers[c].parent == f
    {
      assert Mounted(c) in k.fibers[f].effects;
    }
  }

  lemma ChildSame(k: State, k': State, c: Id)
    requires c in k.fibers && ChildOk(k, c) && SameTree(k, k') && SameEffects(k, k') && StillUndoing(k, k', c)
    ensures ChildOk(k', c)
  {
  }

  lemma ChildrenSame(k: State, k': State)
    requires ChildrenOk(k) && SameTree(k, k') && SameEffects(k, k')
    requires forall c {:trigger StillUndoing(k, k', c)} :: c in k.fibers && c != ROOT ==> StillUndoing(k, k', c)
    ensures ChildrenOk(k')
  {
    MountedSame(k, k');
    forall c | c in k'.fibers && c != ROOT ensures ChildOk(k', c) {
      assert ChildOk(k, c) && StillUndoing(k, k', c);
      ChildSame(k, k', c);
    }
  }

  /** Stores only of the fiber that changed, and only to registrations in the table now. */
  lemma SerialsPut(k: State, f: Id, x: Fiber)
    requires TreeOk(k) && ServicesOk(k) && SerialsOk(k) && f in k.fibers && SameShape(k.fibers[f], x)
    requires (forall m :: m in x.store ==> m in k.fibers[f].store && x.store[m] == k.fibers[f].store[m])
             || (&& (forall m :: m in x.store && m in k.impls ==> k.impls[m].serial == x.store[m])
                 && (forall n :: n in k.impls ==> !Under(k, f, k.impls[n].owner)))
    ensures SerialsOk(Put(k, f, x))
  {
  }

  /** A pending fiber begins to load. */
  lemma BeginKeeps(k: State, f: Id, epoch: Epoch)
    requires WellFormed(k) && Pending(k, f) && !k.fibers[f].gone && Desired(k, f) == Some(epoch)
    ensures WellFormed(Put(k, f, Begun(k.fibers[f], epoch)))
  {
    var x := Begun(k.fibers[f], epoch);
    assert FiberOk(k, f);
    assert epoch.Keys == k.fibers[f].plugin.inject;
    assert forall m :: m in epoch ==> m in k.impls && epoch[m] == k.impls[m].serial && Usable(k, m, f);
    NothingUnder(k, f);
    BeginCore(k, f, x);
  }

  lemma BeginCore(k: State, f: Id, x: Fiber)
    requires WellFormed(k) && Pending(k, f) && SameShape(k.fibers[f], x)
    requires x.effects == [Own] && x.phase.Loading? && x.loaded.None? && !x.gone && x.store.Keys == x.plugin.inject
    requires forall m :: m in x.store ==> m in k.impls && x.store[m] == k.impls[m].serial
    requires forall n :: n in k.impls ==> !Under(k, f, k.impls[n].owner)
    ensures WellFormed(Put(k, f, x))
  {
    var k' := Put(k, f, x);
    assert FiberOk(k, f);
    TreeSame(k, k');
    EffectsSame(k, k');
    ChildrenSame(k, k');
    SerialsPut(k, f, x);
    assert FiberOk(k', f);
    FibersElse(k, k', f);
  }

  lemma FibersElse(k: State, k': State, f: Id)
    requires forall g :: g in k'.fibers && g != f ==> g in k.fibers && k'.fibers[g] == k.fibers[g] && FiberOk(k, g)
    requires k.serials <= k'.serials
    ensures forall g :: g in k'.fibers && g != f ==> FiberOk(k', g)
  {
    forall g | g in k'.fibers && g != f ensures FiberOk(k', g) { assert FiberOk(k, g); }
  }

  /** A change of phase: nothing registered, nothing forgotten. */
  lemma PhaseKeeps(k: State, f: Id, x: Fiber)
    requires WellFormed(k) && f in k.fibers && SameShape(k.fibers[f], x) && x.effects == k.fibers[f].effects
    requires forall m :: m in x.store ==> m in k.fibers[f].store && x.store[m] == k.fibers[f].store[m]
    requires f != ROOT && FiberOk(Put(k, f, x), f)
    requires IsUnloading(k, f) ==> x.phase.Unloading? || forall c {:trigger ChildOk(k, c)} :: c in k.fibers && c != ROOT ==> k.fibers[c].parent != f
    ensures WellFormed(Put(k, f, x))
  {
    var k' := Put(k, f, x);
    TreeSame(k, k');
    EffectsSame(k, k');
    forall c | c in k.fibers && c != ROOT ensures StillUndoing(k, k', c) { assert ChildOk(k, c); }
    ChildrenSame(k, k');
    SerialsPut(k, f, x);
    forall g | g in k.fibers && g != f ensures FiberOk(k, g) {}
    FibersElse(k, k', f);
  }

  // -- registrations ---------------------------------------------------------------------------

  lemma ServingKeeps(k: State, f: Id, n: string)
    requires WellFormed(k) && f in k.fibers && !Pending(k, f)
    requires n !in k.impls && forall g :: g in k.fibers ==> n !in k.fibers[g].store
    ensures WellFormed(Serving(k, f, n))
  {
    var k' := Serving(k, f, n);
    var e := Provided(n, k.serials);
    Appended(k.fibers[f].effects, e);
    assert SameTree(k, k');
    TreeSame(k, k');
    ServingTables(k, f, n);
    ServingSerials(k, f, n);
    forall c | c in k.fibers && c != ROOT ensures ChildOk(k', c) { assert ChildOk(k, c); }
    forall g | g in k.fibers ensures FiberOk(k', g) { assert FiberOk(k, g); }
  }

  lemma ServingTables(k: State, f: Id, n: string)
    requires ServicesOk(k) && ListenersOk(k) && MountedOk(k) && f in k.fibers && n !in k.impls
    ensures ServicesOk(Serving(k, f, n)) && ListenersOk(Serving(k, f, n)) && MountedOk(Serving(k, f, n))
    ensures Provided(n, k.serials) !in k.fibers[f].effects
  {
    Appended(k.fibers[f].effects, Provided(n, k.serials));
  }

  lemma ServingSerials(k: State, f: Id, n: string)
    requires SerialsOk(k) && f in k.fibers && (forall g {:trigger FiberOk(k, g)} :: g in k.fibers ==> FiberOk(k, g))
    requires n !in k.impls && forall g :: g in k.fibers ==> n !in k.fibers[g].store
    ensures SerialsOk(Serving(k, f, n))
  {
    var k' := Serving(k, f, n);
    forall p, a, m | p in k'.impls && k'.impls[p].owner in k'.fibers && a in k'.fibers[k'.impls[p].owner].ancestors
                     && a in k'.fibers && m in k'.fibers[a].store
      ensures k'.fibers[a].store[m] < k'.impls[p].serial
    {
      assert FiberOk(k, a);
    }
  }

  lemma HearingKeeps(k: State, f: Id, event: string, prepend: bool)
    requires WellFormed(k) && f in k.fibers && !Pending(k, f)
    ensures WellFormed(Hearing(k, f, event, prepend))
  {
    var k' := Hearing(k, f, event, prepend);
    assert SameTree(k, k');
    TreeSame(k, k');
    HearingListeners(k, f, event, prepend);
    HearingServices(k, f, event, prepend);
    HearingRest(k, f, event, prepend);
    forall c | c in k.fibers && c != ROOT ensures ChildOk(k', c) { assert ChildOk(k, c); }
    forall g | g in k.fibers ensures FiberOk(k', g) { assert FiberOk(k, g); }
  }

  lemma HearingListeners(k: State, f: Id, event: string, prepend: bool)
    requires ListenersOk(k) && f in k.fibers
    ensures ListenersOk(Hearing(k, f, event, prepend))
    ensures NoDup(k.fibers[f].effects) ==> NoDup(Hearing(k, f, event, prepend).fibers[f].effects)
  {
    var k' := Hearing(k, f, event, prepend);
    var key := if prepend then -(k.keys as int) - 1 else k.keys;
    Appended(k.fibers[f].effects, Listening(event, key));
    Appended(k.listeners, Listener(f, event, key));
    assert forall i :: 0 <= i < |k.listeners| ==> k.listeners[i] in k.listeners;
    assert AscendingKeys(k'.listeners);
    forall l | l in k'.listeners
      ensures -(k'.keys as int) <= l.key < k'.keys && l.owner in k'.fibers && Listening(l.event, l.key) in k'.fibers[l.owner].effects
    {
      if l in k.listeners { assert Listening(l.event, l.key) in k.fibers[l.owner].effects; } else { assert l == Listener(f, event, key); }
    }
    forall g, e, i | g in k'.fibers && Listening(e, i) in k'.fibers[g].effects ensures Listener(g, e, i) in k'.listeners {
      if Listening(e, i) in k.fibers[g].effects { assert Listener(g, e, i) in k.listeners; }
      else { assert Listener(g, e, i) == Listener(f, event, key); }
    }
  }

  lemma HearingServices(k: State, f: Id, event: string, prepend: bool)
    requires ServicesOk(k) && f in k.fibers
    ensures ServicesOk(Hearing(k, f, event, prepend))
  {
    var key := if prepend then -(k.keys as int) - 1 else k.keys;
    Appended(k.fibers[f].effects, Listening(event, key));
  }

  lemma HearingRest(k: State, f: Id, event: string, prepend: bool)
    requires MountedOk(k) && SerialsOk(k) && f in k.fibers
    ensures MountedOk(Hearing(k, f, event, prepend)) && SerialsOk(Hearing(k, f, event, prepend))
  {
    var key := if prepend then -(k.keys as int) - 1 else k.keys;
    Appended(k.fibers[f].effects, Listening(event, key));
  }

  lemma BearingKeeps(k: State, f: Id, p: Plugin)
    requires WellFormed(k) && f in k.fibers && !Pending(k, f)
    ensures WellFormed(Bearing(k, f, p))
  {
    var k', c := Bearing(k, f, p), k.uids;
    UidsFresh(k);
    BearingTree(k, f, p);
    BearingList(k, f, p);
    BearingServices(k, f, p);
    BearingMounted(k, f, p);
    BearingSerials(k, f, p);
    assert FiberOk(k, f);
    forall g | g in k'.fibers && g != ROOT ensures ChildOk(k', g) { if g != c { assert ChildOk(k, g); } }
    forall g | g in k'.fibers ensures FiberOk(k', g) { if g != c { assert FiberOk(k, g); } }
  }

  lemma BearingTree(k: State, f: Id, p: Plugin)
    requires TreeOk(k) && f in k.fibers && (forall g {:trigger PlaceOk(k, g)} :: g in k.fibers ==> PlaceOk(k, g))
    ensures TreeOk(Bearing(k, f, p))
  {
    var k', c := Bearing(k, f, p), k.uids;
    assert PlaceOk(k, f);
    UidsFresh(k);
    forall g | g in k'.fibers ensures PlaceOk(k', g) { if g != c { assert PlaceOk(k, g); } }
    forall g, a | g in k'.fibers && a in k'.fibers[g].ancestors
      ensures a <= g && a in k'.fibers && k'.fibers[a].ancestors <= k'.fibers[g].ancestors
    {
      if g == c && a != c { assert a in k.fibers[f].ancestors; }
    }
  }

  lemma BearingList(k: State, f: Id, p: Plugin)
    requires ListOk(k) && f in k.fibers && ROOT in k.fibers && (forall g :: g in k.fibers ==> g < k.uids)
    ensures ListOk(Bearing(k, f, p))
  {
    Appended(k.live, k.uids);
    assert forall i :: 0 <= i < |k.live| ==> k.live[i] in k.live;
  }

  lemma BearingServices(k: State, f: Id, p: Plugin)
    requires ServicesOk(k) && ListenersOk(k) && f in k.fibers && k.uids !in k.fibers
    ensures ServicesOk(Bearing(k, f, p)) && ListenersOk(Bearing(k, f, p))
  {
    Appended(k.fibers[f].effects, Mounted(k.uids));
  }

  lemma BearingMounted(k: State, f: Id, p: Plugin)
    requires MountedOk(k) && f in k.fibers && k.uids !in k.fibers && ROOT in k.fibers
    ensures MountedOk(Bearing(k, f, p))
    ensures NoDup(k.fibers[f].effects) ==> NoDup(Bearing(k, f, p).fibers[f].effects)
  {
    Appended(k.fibers[f].effects, Mounted(k.uids));
  }

  lemma BearingSerials(k: State, f: Id, p: Plugin)
    requires ServicesOk(k) && SerialsOk(k) && f in k.fibers && k.uids !in k.fibers
    ensures SerialsOk(Bearing(k, f, p))
  {
    var k', c := Bearing(k, f, p), k.uids;
    forall g | g in k.fibers ensures SameShape(k.fibers[g], k'.fibers[g]) && k'.fibers[g].store == k.fibers[g].store {}
    assert k'.fibers[c].store == map[];
    StoresSame(k, k');
  }

  /** Serials depend on the services table, the ancestors of its owners, and the stores. */
  lemma StoresSame(k: State, k': State)
    requires ServicesOk(k) && SerialsOk(k) && k'.impls == k.impls
    requires forall g :: g in k.fibers ==> g in k'.fibers && SameShape(k.fibers[g], k'.fibers[g]) && k'.fibers[g].store == k.fibers[g].store
    requires forall g :: g in k'.fibers && g !in k.fibers ==> k'.fibers[g].store == map[]
    ensures SerialsOk(k')
  {
  }

  // -- undoing -----------------------------------------------------------------------------------

  lemma UndoingKeeps(k: State, f: Id)
    requires WellFormed(k) && IsUnloading(k, f) && k.fibers[f].effects != []
    ensures WellFormed(Undoing(k, f))
  {
    var k' := Undoing(k, f);
    assert FiberOk(k, f);
    TreeSame(k, k');
    UndoingServices(k, f);
    UndoingListeners(k, f);
    UndoingMounted(k, f);
    UndoingSerials(k, f);
    UndoingFibers(k, f);
  }

  lemma UndoingFibers(k: State, f: Id)
    requires IsUnloading(k, f) && k.fibers[f].effects != [] && MountedOk(Undoing(k, f))
    requires (forall g {:trigger FiberOk(k, g)} :: g in k.fibers ==> FiberOk(k, g)) && ChildrenOk(k)
    ensures (forall g {:trigger FiberOk(Undoing(k, f), g)} :: g in k.fibers ==> FiberOk(Undoing(k, f), g)) && ChildrenOk(Undoing(k, f))
  {
    hide Without;
    var k' := Undoing(k, f);
    assert FiberOk(k, f);
    WithoutNoDup(k.fibers[f].effects, k.fibers[f].effects[|k.fibers[f].effects| - 1]);
    forall g | g in k.fibers ensures FiberOk(k', g) { assert FiberOk(k, g); }
    forall c | c in k.fibers && c != ROOT ensures ChildOk(k', c) { assert ChildOk(k, c); }
  }

  lemma UndoingServices(k: State, f: Id)
    requires ServicesOk(k) && f in k.fibers && k.fibers[f].effects != []
    ensures ServicesOk(Undoing(k, f))
  {
    var k' := Undoing(k, f);
    var e := k.fibers[f].effects[|k.fibers[f].effects| - 1];
    forall n | n in k'.impls
      ensures k'.impls[n].owner in k'.fibers && k'.impls[n].serial < k'.serials
      ensures Provided(n, k'.impls[n].serial) in k'.fibers[k'.impls[n].owner].effects
    {
      assert Provided(n, k.impls[n].serial) in k.fibers[k.impls[n].owner].effects;
      assert e != Provided(n, k.impls[n].serial);
    }
    if e.Provided? { assert Provided(e.name, e.serial) in k.fibers[f].effects; }
    forall g, n, s | g in k'.fibers && Provided(n, s) in k'.fibers[g].effects
      ensures n in k'.impls && k'.impls[n] == Impl(g, s)
    {
      assert Provided(n, s) in k.fibers[g].effects;
    }
  }

  lemma UndoingListeners(k: State, f: Id)
    requires ListenersOk(k) && f in k.fibers && k.fibers[f].effects != []
    ensures ListenersOk(Undoing(k, f))
  {
    hide Without, AscendingKeys;
    var x := k.fibers[f];
    var e := x.effects[|x.effects| - 1];
    if e.Listening? { WithoutSortedKeys(k.listeners, Listener(f, e.event, e.key)); }
  }

  lemma UndoingMounted(k: State, f: Id)
    requires MountedOk(k) && f in k.fibers && k.fibers[f].effects != []
    ensures MountedOk(Undoing(k, f))
  {
    var k' := Undoing(k, f);
    forall g, c | g in k'.fibers && Mounted(c) in k'.fibers[g].effects ensures c in k'.fibers && c != ROOT && k'.fibers[c].parent == g {
      assert Mounted(c) in k.fibers[g].effects;
    }
  }

  lemma UndoingSerials(k: State, f: Id)
    requires SerialsOk(k) && f in k.fibers && k.fibers[f].effects != []
    ensures SerialsOk(Undoing(k, f))
  {
    hide Without;
  }

  // -- leaving -------------------------------------------------------------------------------------

  predicate Leaf(k: State, f: Id) {
    && f in k.fibers && f != ROOT && k.fibers[f].parent in k.fibers && k.fibers[f].parent != f
    && Pending(k, f) && k.fibers[f].effects == []
    && forall g :: g in k.fibers && f in k.fibers[g].ancestors ==> g == f
  }

  lemma RemovingKeeps(k: State, f: Id)
    requires WellFormed(k) && Pending(k, f)
    ensures Leaf(k, f) && WellFormed(Removing(k, f))
  {
    assert PlaceOk(k, f) && FiberOk(k, f);
    NothingUnder(k, f);
    forall g | g in k.fibers && f in k.fibers[g].ancestors ensures g == f { assert Under(k, f, g); }
    RemovingTree(k, f);
    WithoutSorted(k.live, f);
    RemovingTables(k, f);
    RemovingSerials(k, f);
    RemovingFibers(k, f);
  }

  lemma RemovingFibers(k: State, f: Id)
    requires Leaf(k, f) && MountedOk(Removing(k, f)) && TreeOk(k)
    requires (forall g {:trigger FiberOk(k, g)} :: g in k.fibers ==> FiberOk(k, g)) && ChildrenOk(k)
    ensures var k' := Removing(k, f); (forall g {:trigger FiberOk(k', g)} :: g in k'.fibers ==> FiberOk(k', g)) && ChildrenOk(k')
  {
    var k', p := Removing(k, f), k.fibers[f].parent;
    assert FiberOk(k, p);
    WithoutNoDup(k.fibers[p].effects, Mounted(f));
    forall g | g in k'.fibers ensures FiberOk(k', g) { assert FiberOk(k, g); }
    forall c | c in k'.fibers && c != ROOT ensures ChildOk(k', c) {
      assert ChildOk(k, c);
      ParentStays(k, f, c);
    }
  }

  lemma ParentStays(k: State, f: Id, c: Id)
    requires TreeOk(k) && Leaf(k, f) && c in k.fibers && c != f && c != ROOT
    ensures k.fibers[c].parent in k.fibers && k.fibers[c].parent != f
  {
    assert PlaceOk(k, c);
    assert PlaceOk(k, k.fibers[c].parent);
  }

  lemma RemovingTree(k: State, f: Id)
    requires TreeOk(k) && Leaf(k, f)
    ensures TreeOk(Removing(k, f))
  {
    var k' := Removing(k, f);
    forall g | g in k'.fibers ensures PlaceOk(k', g) {
      assert PlaceOk(k, g);
      if g != ROOT { ParentStays(k, f, g); }
    }
    forall g, a | g in k'.fibers && a in k'.fibers[g].ancestors
      ensures a <= g && a in k'.fibers && k'.fibers[a].ancestors <= k'.fibers[g].ancestors
    {
      assert a in k.fibers[g].ancestors;
    }
  }

  lemma RemovingTables(k: State, f: Id)
    requires ServicesOk(k) && ListenersOk(k) && MountedOk(k) && Leaf(k, f)
    ensures ServicesOk(Removing(k, f)) && ListenersOk(Removing(k, f)) && MountedOk(Removing(k, f))
  {
  }

  lemma RemovingSerials(k: State, f: Id)
    requires ServicesOk(k) && SerialsOk(k) && Leaf(k, f)
    ensures SerialsOk(Removing(k, f))
  {
  }
}
