/** Loading: only fibers below the one that loads are touched, whoever is loaded stays loaded
    against the same registrations, and the weight of what is left to load goes down. */
module KernelGrowth {
  import opened Models
  import opened KernelState
  import opened KernelSteps
  import opened KernelFrames

  // -- how much is left to load ----------------------------------------------------------------

  /** A plugin and all plugins it would mount. */
  function Size(p: Plugin): nat
    decreases p, |p.actions| + 1
  {
    1 + Sizes(p, |p.actions|)
  }

  function Sizes(p: Plugin, n: nat): nat
    requires n <= |p.actions|
    decreases p, n
  {
    if n == 0 then 0
    else Sizes(p, n - 1) + match p.actions[n - 1]
                           case Mount(q) => Size(q)
                           case _ => 0
  }

  /** Pending, and not known to fail against what is there now. */
  function Weight(k: State, f: Id): nat {
    if Pending(k, f) && !k.fibers[f].gone && !(k.fibers[f].failed.Some? && Desired(k, f) == k.fibers[f].failed) then Size(k.fibers[f].plugin) else 0
  }

  function Total(k: State, s: seq<Id>): nat {
    if s == [] then 0 else Total(k, s[..|s| - 1]) + Weight(k, s[|s| - 1])
  }

  function Left(k: State): nat {
    Total(k, k.live)
  }

  lemma {:induction false} TotalMono(k: State, k': State, s: seq<Id>)
    requires forall f :: f in s ==> Weight(k', f) <= Weight(k, f)
    ensures Total(k', s) <= Total(k, s)
  {
    if s != [] { TotalMono(k, k', s[..|s| - 1]); }
  }

  lemma {:induction false} TotalLess(k: State, k': State, s: seq<Id>, g: Id, d: nat)
    requires forall f :: f in s ==> Weight(k', f) <= Weight(k, f)
    requires g in s && Weight(k', g) + d <= Weight(k, g)
    ensures Total(k', s) + d <= Total(k, s)
  {
    if s[|s| - 1] == g { TotalMono(k, k', s[..|s| - 1]); }
    else { TotalLess(k, k', s[..|s| - 1], g, d); }
  }

  // -- opening ---------------------------------------------------------------------------------

  /** Whoever lets others use its services still does; registrations stay. */
  ghost predicate Opens(k: State, k': State) {
    && (forall f {:trigger f in k.fibers} :: f in k.fibers ==>
          && f in k'.fibers && SameShape(k.fibers[f], k'.fibers[f])
          && (Active(k, f) ==> Active(k', f))
          && (IsLoading(k, f) ==> IsLoading(k', f) || Active(k', f)))
    && (forall n {:trigger n in k.impls} :: n in k.impls ==> n in k'.impls && k'.impls[n] == k.impls[n])
  }

  lemma OpensUsable(k: State, k': State, n: string, h: Id)
    requires Opens(k, k') && h in k.fibers && Usable(k, n, h)
    ensures Usable(k', n, h)
  {
    forall a | a in k'.fibers[k'.impls[n].owner].ancestors ensures Lets(k', a, h) { assert Lets(k, a, h); }
  }

  lemma OpensDesired(k: State, k': State, h: Id)
    requires Opens(k, k') && h in k.fibers && Desired(k, h).Some?
    ensures Desired(k', h) == Desired(k, h)
  {
    var inject := k.fibers[h].plugin.inject;
    forall n | n in inject ensures Usable(k', n, h) && n in k.impls && k'.impls[n] == k.impls[n] {
      assert Usable(k, n, h);
      OpensUsable(k, k', n, h);
    }
    assert Serials(k.impls, inject) == Serials(k'.impls, inject);
  }

  lemma OpensWeight(k: State, k': State, h: Id)
    requires Opens(k, k') && h in k.fibers && (Pending(k', h) ==> k'.fibers[h] == k.fibers[h])
    ensures Weight(k', h) <= Weight(k, h)
  {
    if Desired(k, h).Some? { OpensDesired(k, k', h); }
  }

  /** A fiber that can load only now lacked some service before. */
  lemma NewlyLoads(k: State, k': State, h: Id) returns (n: string)
    requires Opens(k, k') && CanLoad(k', h) && h in k.fibers && k'.fibers[h] == k.fibers[h] && !CanLoad(k, h)
    ensures n in k.fibers[h].plugin.inject && Usable(k', n, h) && !Usable(k, n, h)
  {
    if Desired(k, h).Some? { OpensDesired(k, k', h); }
    n :| n in k.fibers[h].plugin.inject && !Usable(k, n, h);
  }

  // -- the state while something loads -----------------------------------------------------------

  /** `top` is the innermost loading fiber, or the root: all loading fibers are its ancestors,
      nothing is being unloaded, and whoever loaded can use all it loaded against. */
  ghost predicate UpOk(k: State, top: Id) {
    && WellFormed(k) && top in k.fibers && (top == ROOT || IsLoading(k, top))
    && (forall f :: f in k.fibers ==> !k.fibers[f].phase.Unloading?)
    && (forall f :: IsLoading(k, f) ==> f in k.fibers[top].ancestors)
    && Settled(k)
  }

  ghost predicate Settled(k: State) {
    forall f, n {:trigger n in k.fibers[f].store} :: f in k.fibers && n in k.fibers[f].store ==> Usable(k, n, f)
  }

  /** Loading below `top`: pending fibers there may have been loaded or failed, others were
      added there; nothing else changed. */
  ghost predicate Grew(k: State, k': State, top: Id) {
    && k.uids <= k'.uids && k.serials <= k'.serials
    && (forall f {:trigger f in k.fibers} {:trigger f in k'.fibers} :: f in k.fibers ==>
          && f in k'.fibers && SameShape(k.fibers[f], k'.fibers[f])
          && (Pending(k, f) && top in k.fibers[f].ancestors ==> k'.fibers[f].phase.Rest?)
          && (!(Pending(k, f) && top in k.fibers[f].ancestors) || k.fibers[f].gone ==> k'.fibers[f] == k.fibers[f]))
    && (forall f {:trigger f in k'.fibers} :: f in k'.fibers && f !in k.fibers ==>
          k.uids <= f && top in k'.fibers[f].ancestors && k'.fibers[f].phase.Rest?)
  }

  lemma GrewTrans(k: State, k1: State, k2: State, top: Id)
    requires Grew(k, k1, top) && Grew(k1, k2, top)
    ensures Grew(k, k2, top)
  {
  }

  lemma GrewImpl(k: State, k': State, top: Id, n: string)
    requires WellFormed(k) && ServicesOk(k') && Grew(k, k', top) && n in k.impls
    ensures n in k'.impls && k'.impls[n] == k.impls[n]
  {
    var o := k.impls[n].owner;
    assert Provided(n, k.impls[n].serial) in k.fibers[o].effects;
    assert FiberOk(k, o);
    assert !Pending(k, o);
    assert Provided(n, k.impls[n].serial) in k'.fibers[o].effects;
  }

  // -- single steps of a load ----------------------------------------------------------------------

  /** Loading begins: one less to load, nobody else notices. */
  lemma BeginUp(k: State, top: Id, g: Id)
    requires UpOk(k, top) && CanLoad(k, g) && top in k.fibers[g].ancestors
    ensures var k1 := Put(k, g, Begun(k.fibers[g], Desired(k, g).value));
            && UpOk(k1, g) && Left(k1) + Size(k.fibers[g].plugin) <= Left(k)
            && (forall h :: CanLoad(k1, h) ==> CanLoad(k, h) && h != g)
  {
    var k1 := Put(k, g, Begun(k.fibers[g], Desired(k, g).value));
    BeginKeeps(k, g, Desired(k, g).value);
    assert FiberOk(k, g) && PlaceOk(k, g);
    assert k.fibers[top].ancestors <= k.fibers[g].ancestors;
    NothingUnder(k, g);
    BeginOpens(k, g);
    forall h | CanLoad(k1, h) ensures CanLoad(k, h) && h != g {
      if !CanLoad(k, h) { var n := NewlyLoads(k, k1, h); BeginUsable(k, g, n, h); }
    }
    BeginSettled(k, g);
    forall h | h in k.live ensures Weight(k1, h) <= Weight(k, h) { OpensWeight(k, k1, h); }
    TotalLess(k, k1, k.live, g, Size(k.fibers[g].plugin));
  }

  lemma BeginOpens(k: State, g: Id)
    requires CanLoad(k, g)
    ensures Opens(k, Put(k, g, Begun(k.fibers[g], Desired(k, g).value)))
  {
  }

  /** A fiber with nothing below it opens nothing by loading. */
  lemma BeginUsable(k: State, g: Id, n: string, h: Id)
    requires CanLoad(k, g) && h in k.fibers && (forall m :: m in k.impls ==> !Under(k, g, k.impls[m].owner))
    requires Usable(Put(k, g, Begun(k.fibers[g], Desired(k, g).value)), n, h)
    ensures Usable(k, n, h)
  {
    var k1 := Put(k, g, Begun(k.fibers[g], Desired(k, g).value));
    var o := k.impls[n].owner;
    assert !Under(k, g, o);
    forall a | a in k.fibers[o].ancestors ensures Lets(k, a, h) { assert Lets(k1, a, h); }
  }

  lemma BeginSettled(k: State, g: Id)
    requires WellFormed(k) && Settled(k) && CanLoad(k, g) && Opens(k, Put(k, g, Begun(k.fibers[g], Desired(k, g).value)))
    ensures Settled(Put(k, g, Begun(k.fibers[g], Desired(k, g).value)))
  {
    var k1 := Put(k, g, Begun(k.fibers[g], Desired(k, g).value));
    forall f, n | f in k1.fibers && n in k1.fibers[f].store ensures Usable(k1, n, f) {
      if f != g { assert n in k.fibers[f].store; }
      assert Usable(k, n, f);
      OpensUsable(k, k1, n, f);
    }
  }

  /** A service is provided by the innermost loading fiber, or by the root. */
  lemma ServingUp(k: State, f: Id, n: string)
    requires UpOk(k, f) && n !in k.impls
    ensures var k1 := Serving(k, f, n);
            && UpOk(k1, f) && Left(k1) <= Left(k)
            && (forall h :: CanLoad(k1, h) ==> CanLoad(k, h) || n in k.fibers[h].plugin.inject)
  {
    SettledStores(k);
    ServingKeeps(k, f, n);
    ServingOpens(k, f, n);
    OpensSettled(k, Serving(k, f, n));
    ServingLoads(k, f, n);
    ServingLeft(k, f, n);
    UpPhases(k, Serving(k, f, n), f);
  }

  lemma SettledStores(k: State)
    requires Settled(k)
    ensures forall g, m :: g in k.fibers && m in k.fibers[g].store ==> m in k.impls
  {
    forall g, m | g in k.fibers && m in k.fibers[g].store ensures m in k.impls { assert Usable(k, m, g); }
  }

  lemma ServingOpens(k: State, f: Id, n: string)
    requires f in k.fibers && n !in k.impls
    ensures Opens(k, Serving(k, f, n))
  {
  }

  /** The same phases. */
  lemma UpPhases(k: State, k1: State, top: Id)
    requires UpOk(k, top) && WellFormed(k1) && Settled(k1)
    requires forall f {:trigger f in k.fibers} :: f in k.fibers ==> f in k1.fibers && k1.fibers[f].phase == k.fibers[f].phase && k1.fibers[f].ancestors == k.fibers[f].ancestors
    requires forall f {:trigger f in k1.fibers} :: f in k1.fibers && f !in k.fibers ==> k1.fibers[f].phase.Rest?
    ensures UpOk(k1, top)
  {
  }

  lemma ServingLoads(k: State, f: Id, n: string)
    requires f in k.fibers && !Pending(k, f) && n !in k.impls && Opens(k, Serving(k, f, n))
    ensures forall h :: CanLoad(Serving(k, f, n), h) ==> CanLoad(k, h) || n in k.fibers[h].plugin.inject
  {
    var k1 := Serving(k, f, n);
    forall h | CanLoad(k1, h) ensures CanLoad(k, h) || n in k.fibers[h].plugin.inject {
      if !CanLoad(k, h) { var m := NewlyLoads(k, k1, h); ServingUsable(k, f, n, m, h); }
    }
  }

  lemma ServingLeft(k: State, f: Id, n: string)
    requires ListOk(k) && f in k.fibers && !Pending(k, f) && Opens(k, Serving(k, f, n))
    ensures Left(Serving(k, f, n)) <= Left(k)
  {
    forall h | h in k.live ensures Weight(Serving(k, f, n), h) <= Weight(k, h) { OpensWeight(k, Serving(k, f, n), h); }
    TotalMono(k, Serving(k, f, n), k.live);
  }

  lemma ServingUsable(k: State, f: Id, n: string, m: string, h: Id)
    requires f in k.fibers && h in k.fibers && n !in k.impls && Usable(Serving(k, f, n), m, h) && !Usable(k, m, h)
    ensures m == n
  {
    var k1 := Serving(k, f, n);
    if m != n {
      forall a | a in k.fibers[k.impls[m].owner].ancestors ensures Lets(k, a, h) { assert Lets(k1, a, h); }
    }
  }

  lemma OpensSettled(k: State, k1: State)
    requires Settled(k) && Opens(k, k1)
    requires forall f, n {:trigger n in k1.fibers[f].store} :: f in k1.fibers && n in k1.fibers[f].store ==> f in k.fibers && n in k.fibers[f].store
    ensures Settled(k1)
  {
    forall f, n | f in k1.fibers && n in k1.fibers[f].store ensures Usable(k1, n, f) { OpensUsable(k, k1, n, f); }
  }

  lemma HearingUp(k: State, f: Id, event: string, prepend: bool)
    requires UpOk(k, f) && IsLoading(k, f)
    ensures var k1 := Hearing(k, f, event, prepend);
            UpOk(k1, f) && Left(k1) <= Left(k) && (forall h :: CanLoad(k1, h) ==> CanLoad(k, h))
  {
    hide WellFormed, Settled, CanLoad, Left, Opens;
    HearingKeeps(k, f, event, prepend);
    HearingOpens(k, f, event, prepend);
    HearingSettled(k, f, event, prepend);
    ListedThere(k);
    HearingLoads(k, f, event, prepend);
    UpPhases(k, Hearing(k, f, event, prepend), f);
  }

  lemma HearingOpens(k: State, f: Id, event: string, prepend: bool)
    requires f in k.fibers
    ensures Opens(k, Hearing(k, f, event, prepend)) && Opens(Hearing(k, f, event, prepend), k)
  {
  }

  lemma HearingSettled(k: State, f: Id, event: string, prepend: bool)
    requires Settled(k) && f in k.fibers && Opens(k, Hearing(k, f, event, prepend))
    ensures Settled(Hearing(k, f, event, prepend))
  {
    OpensSettled(k, Hearing(k, f, event, prepend));
  }

  lemma ListedThere(k: State)
    requires WellFormed(k)
    ensures forall h :: h in k.live ==> h in k.fibers
  {
  }

  lemma HearingLoads(k: State, f: Id, event: string, prepend: bool)
    requires f in k.fibers && !Pending(k, f) && (forall h :: h in k.live ==> h in k.fibers)
    requires Opens(k, Hearing(k, f, event, prepend)) && Opens(Hearing(k, f, event, prepend), k)
    ensures Left(Hearing(k, f, event, prepend)) <= Left(k)
    ensures forall h :: CanLoad(Hearing(k, f, event, prepend), h) ==> CanLoad(k, h)
  {
    hide Opens, Usable, Size;
    var k1 := Hearing(k, f, event, prepend);
    forall h | CanLoad(k1, h) ensures CanLoad(k, h) { OpensDesired(k1, k, h); }
    forall h | h in k.live ensures Weight(k1, h) <= Weight(k, h) { OpensWeight(k, k1, h); }
    TotalMono(k, k1, k.live);
  }

  /** A child is mounted; it may be able to load at once. */
  lemma BearingUp(k: State, f: Id, p: Plugin, top: Id)
    requires UpOk(k, top) && f in k.fibers && !Pending(k, f)
    ensures var k1 := Bearing(k, f, p);
            && UpOk(k1, top) && Left(k1) <= Left(k) + Size(p)
            && (forall h :: CanLoad(k1, h) ==> CanLoad(k, h) || h == k.uids)
  {
    UidsFresh(k);
    BearingKeeps(k, f, p);
    BearingOpens(k, f, p);
    OpensSettled(k, Bearing(k, f, p));
    BearingLoads(k, f, p);
    BearingLeft(k, f, p);
    UpPhases(k, Bearing(k, f, p), top);
  }

  lemma BearingOpens(k: State, f: Id, p: Plugin)
    requires f in k.fibers && k.uids !in k.fibers
    ensures Opens(k, Bearing(k, f, p))
  {
  }

  lemma BearingLoads(k: State, f: Id, p: Plugin)
    requires ServicesOk(k) && TreeOk(k) && f in k.fibers && !Pending(k, f) && k.uids !in k.fibers && Opens(k, Bearing(k, f, p))
    ensures forall h :: CanLoad(Bearing(k, f, p), h) ==> CanLoad(k, h) || h == k.uids
  {
    var k1, c := Bearing(k, f, p), k.uids;
    forall h | CanLoad(k1, h) ensures CanLoad(k, h) || h == c {
      if h != c && !CanLoad(k, h) { var m := NewlyLoads(k, k1, h); BearingUsable(k, f, p, m, h); }
    }
  }

  lemma BearingLeft(k: State, f: Id, p: Plugin)
    requires ListOk(k) && f in k.fibers && !Pending(k, f) && k.uids !in k.fibers && Opens(k, Bearing(k, f, p))
    ensures Left(Bearing(k, f, p)) <= Left(k) + Size(p)
  {
    var k1 := Bearing(k, f, p);
    forall h | h in k.live ensures Weight(k1, h) <= Weight(k, h) { OpensWeight(k, k1, h); }
    TotalMono(k, k1, k.live);
    assert k1.live[..|k1.live| - 1] == k.live;
  }

  lemma BearingUsable(k: State, f: Id, p: Plugin, m: string, h: Id)
    requires ServicesOk(k) && k.uids !in k.fibers && f in k.fibers && h in k.fibers && Usable(Bearing(k, f, p), m, h)
    requires forall g, a {:trigger a in k.fibers[g].ancestors} :: g in k.fibers && a in k.fibers[g].ancestors ==> a in k.fibers
    ensures Usable(k, m, h)
  {
    var k1 := Bearing(k, f, p);
    forall a | a in k.fibers[k.impls[m].owner].ancestors ensures Lets(k, a, h) { assert Lets(k1, a, h); }
  }

  /** Loading ends well: what the fiber and its children provide is open to everyone. */
  lemma FinishUp(k: State, g: Id, top: Id)
    requires UpOk(k, g) && IsLoading(k, g) && top in k.fibers && top != g && (top == ROOT || IsLoading(k, top))
    requires forall f :: IsLoading(k, f) && f != g ==> f in k.fibers[top].ancestors
    ensures var x := k.fibers[g];
            var k1 := Put(k, g, x.(loaded := Some(x.store), phase := Rest));
            && UpOk(k1, top) && Left(k1) <= Left(k)
            && (forall h :: CanLoad(k1, h) ==> CanLoad(k, h) || exists n :: n in k.fibers[h].plugin.inject && n in NamesWithin(k1, g))
  {
    hide WellFormed, Settled, CanLoad, Left, Opens, NamesWithin;
    FinishKeeps(k, g);
    FinishOpens(k, g);
    FinishSettled(k, g);
    ListedThere(k);
    FinishLoads(k, g);
  }

  function Finishing(x: Fiber): Fiber {
    x.(loaded := Some(x.store), phase := Rest)
  }

  lemma FinishKeeps(k: State, g: Id)
    requires WellFormed(k) && IsLoading(k, g)
    ensures WellFormed(Put(k, g, Finishing(k.fibers[g])))
  {
    assert FiberOk(k, g);
    PhaseKeeps(k, g, Finishing(k.fibers[g]));
  }

  lemma FinishOpens(k: State, g: Id)
    requires IsLoading(k, g)
    ensures Opens(k, Put(k, g, Finishing(k.fibers[g])))
  {
  }

  lemma FinishSettled(k: State, g: Id)
    requires Settled(k) && IsLoading(k, g) && Opens(k, Put(k, g, Finishing(k.fibers[g])))
    ensures Settled(Put(k, g, Finishing(k.fibers[g])))
  {
    OpensSettled(k, Put(k, g, Finishing(k.fibers[g])));
  }

  lemma FinishLoads(k: State, g: Id)
    requires IsLoading(k, g) && Opens(k, Put(k, g, Finishing(k.fibers[g]))) && (forall h :: h in k.live ==> h in k.fibers)
    ensures var k1 := Put(k, g, Finishing(k.fibers[g]));
            && Left(k1) <= Left(k)
            && (forall h :: CanLoad(k1, h) ==> CanLoad(k, h) || exists n :: n in k.fibers[h].plugin.inject && n in NamesWithin(k1, g))
  {
    hide Opens, Usable, Size;
    var k1 := Put(k, g, Finishing(k.fibers[g]));
    forall h | CanLoad(k1, h)
      ensures CanLoad(k, h) || exists n :: n in k.fibers[h].plugin.inject && n in NamesWithin(k1, g)
    {
      if !CanLoad(k, h) {
        var m := NewlyLoads(k, k1, h);
        FinishUsable(k, k1, g, m, h);
        assert m in NamesWithin(k1, g);
      }
    }
    forall h | h in k.live ensures Weight(k1, h) <= Weight(k, h) { OpensWeight(k, k1, h); }
    TotalMono(k, k1, k.live);
  }

  lemma FinishUsable(k: State, k1: State, g: Id, m: string, h: Id)
    requires g in k.fibers && g in k1.fibers && h in k.fibers && k1 == Put(k, g, k1.fibers[g]) && SameShape(k.fibers[g], k1.fibers[g])
    requires Usable(k1, m, h) && !Usable(k, m, h)
    ensures m in k.impls && Under(k, g, k.impls[m].owner)
  {
    if !Under(k, g, k.impls[m].owner) {
      forall a | a in k.fibers[k.impls[m].owner].ancestors ensures Lets(k, a, h) { assert Lets(k1, a, h); }
    }
  }
}
