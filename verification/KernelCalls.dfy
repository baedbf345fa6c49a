/** Contracts of the kernel's mutually recursive operations, and what each of their single steps
    contributes. A call either loads below some fiber or unloads within some zone. */
module KernelCalls {
  import opened Models
  import opened KernelState
  import opened KernelSteps
  import opened KernelFrames
  import opened KernelGrowth
  import opened KernelRollback

  /** `others`: fibers that callers further up will still reconcile. */
  datatype Ctx = Up(top: Id, others: set<Id>) | Down(zone: set<Id>, others: set<Id>)

  /** A load that was begun, with the fibers above and including the one that loads. */
  datatype Begin = Begin(fiber: Id, ancestors: set<Id>)

  /** Loads were begun only of fibers that have all of `line` above them (or among them). */
  ghost predicate BegunBelow(was: seq<Begin>, now: seq<Begin>, line: set<Id>) {
    && |was| <= |now| && now[..|was|] == was
    && forall i :: |was| <= i < |now| ==> line <= now[i].ancestors
  }

  /** A load of `f` was begun. */
  ghost predicate Tried(was: seq<Begin>, now: seq<Begin>, f: Id) {
    exists i :: |was| <= i < |now| && now[i].fiber == f
  }

  /** A child of `f` may use the service: every plugin from its provider up is loaded, or is loading
      and stands above the child. */
  predicate OfferedOne(k: State, f: Id, name: string) {
    && name in k.impls && k.impls[name].owner in k.fibers && f in k.fibers
    && forall a :: a in k.fibers[k.impls[name].owner].ancestors ==>
         a in k.fibers
         && ((k.fibers[a].phase.Rest? && k.fibers[a].loaded.Some?) || (k.fibers[a].phase.Loading? && a in k.fibers[f].ancestors))
  }

  predicate Offered(k: State, f: Id, inject: set<string>) {
    forall n :: n in inject ==> OfferedOne(k, f, n)
  }

  function Line(k: State, f: Id): set<Id> {
    if f in k.fibers then k.fibers[f].ancestors else {}
  }

  /** What a call may begin: going down nothing, going up only below the fiber that is loading. */
  ghost predicate BegunIn(c: Ctx, k: State, was: seq<Begin>, now: seq<Begin>) {
    match c
    case Up(top, _) => BegunBelow(was, now, Line(k, top)) && Spared(k, was, now)
    case Down(_, _) => now == was
  }

  /** Loads were begun only of fibers that were there and not gone, and of new ones. */
  ghost predicate Spared(k: State, was: seq<Begin>, now: seq<Begin>) {
    |was| <= |now| && forall i :: |was| <= i < |now| ==>
      if now[i].fiber in k.fibers then !k.fibers[now[i].fiber].gone else k.uids <= now[i].fiber
  }

  /** Whoever is gone is so later, and whoever is there later was there or is new. */
  ghost predicate Later(k: State, k1: State) {
    && k.uids <= k1.uids
    && (forall f {:trigger f in k.fibers} :: f in k.fibers ==> f in k1.fibers && (k.fibers[f].gone ==> k1.fibers[f].gone))
    && (forall f {:trigger f in k1.fibers} :: f in k1.fibers && f !in k.fibers ==> k.uids <= f)
  }

  lemma SparedTrans(k: State, k1: State, a: seq<Begin>, b: seq<Begin>, d: seq<Begin>, line: set<Id>)
    requires Spared(k, a, b) && Spared(k1, b, d) && BegunBelow(b, d, line) && Later(k, k1)
    ensures Spared(k, a, d)
  {
    forall i | |a| <= i < |d| ensures if d[i].fiber in k.fibers then !k.fibers[d[i].fiber].gone else k.uids <= d[i].fiber {
      if i < |b| { assert d[i] == d[..|b|][i]; }
    }
  }

  lemma GrewLater(k: State, k1: State, top: Id)
    requires Grew(k, k1, top)
    ensures Later(k, k1) && forall f :: f in k.fibers && k.fibers[f].gone ==> k1.fibers[f] == k.fibers[f]
  {
  }

  lemma BegunTrans(a: seq<Begin>, b: seq<Begin>, d: seq<Begin>, line: set<Id>)
    requires BegunBelow(a, b, line) && BegunBelow(b, d, line)
    ensures BegunBelow(a, d, line)
    ensures forall f :: Tried(a, b, f) || Tried(b, d, f) ==> Tried(a, d, f)
  {
    assert d[..|a|] == b[..|a|];
    forall f | Tried(a, b, f) ensures Tried(a, d, f) {
      var i :| |a| <= i < |b| && b[i].fiber == f;
      assert d[i] == d[..|b|][i];
    }
    forall f | Tried(b, d, f) ensures Tried(a, d, f) {
      var i :| |b| <= i < |d| && d[i].fiber == f;
      assert |a| <= i < |d|;
    }
  }

  lemma BegunOn(c: Ctx, k: State, k1: State, a: seq<Begin>, b: seq<Begin>, d: seq<Begin>)
    requires BegunIn(c, k, a, b) && BegunIn(c, k1, b, d) && Moved(c, k, k1) && (c.Up? ==> c.top in k.fibers)
    ensures BegunIn(c, k, a, d)
  {
    if c.Up? {
      LineGrew(k, k1, c.top);
      BegunTrans(a, b, d, Line(k, c.top));
      GrewLater(k, k1, c.top);
      SparedTrans(k, k1, a, b, d, Line(k, c.top));
    }
  }

  lemma LineGrew(k: State, k1: State, top: Id)
    requires Grew(k, k1, top) && top in k.fibers
    ensures Line(k1, top) == Line(k, top)
  {
  }

  lemma BegunNone(c: Ctx, k: State, a: seq<Begin>)
    ensures BegunIn(c, k, a, a)
    ensures forall line :: BegunBelow(a, a, line)
  {
  }

  lemma BegunLess(a: seq<Begin>, b: seq<Begin>, less: set<Id>, more: set<Id>)
    requires BegunBelow(a, b, more) && less <= more
    ensures BegunBelow(a, b, less)
  {
  }

  lemma BegunOne(a: seq<Begin>, f: Id, line: set<Id>)
    ensures BegunBelow(a, a + [Begin(f, line)], line) && Tried(a, a + [Begin(f, line)], f)
  {
    var b := a + [Begin(f, line)];
    assert b[..|a|] == a && b[|a|].fiber == f;
  }

  ghost predicate Ready(c: Ctx, k: State) {
    match c
    case Up(top, _) => UpOk(k, top)
    case Down(zone, _) => DownOk(k, zone)
  }

  /** Not as its services demand: could load, or loaded and should not be. */
  predicate Due(c: Ctx, k: State, h: Id) {
    if c.Up? then CanLoad(k, h) else Stale(k, h)
  }

  /** Fibers being reconciled are in transition, or loaded and notifying others. */
  ghost predicate BusyBut(c: Ctx, k: State, busy: set<Id>, but: set<Id>) {
    && (forall r :: r in busy ==> r < k.uids)
    && (forall r :: r in busy && r in k.fibers && r !in but ==> !Pending(k, r) && (c.Down? && r in c.zone ==> IsUnloading(k, r)))
    && (forall r :: IsLoading(k, r) ==> r in busy)
  }

  ghost predicate BusyOk(c: Ctx, k: State, busy: set<Id>) {
    BusyBut(c, k, busy, {})
  }

  ghost predicate NoNewLoads(k: State, k': State, but: set<Id>) {
    forall h :: CanLoad(k', h) ==> CanLoad(k, h) || h in but
  }

  /** The effect an action of apply leaves behind. */
  predicate EffectFits(k: State, a: Act, e: Effect) {
    match a
    case Provide(n) => e.Provided? && e.name == n
    case Mount(p) => e.Mounted? && e.child in k.fibers && k.fibers[e.child].plugin == p
    case Listen(event, _) => e.Listening? && e.event == event
    case Fail => false
  }

  predicate MatchesTo(k: State, f: Id, i: nat) {
    && f in k.fibers && i <= |k.fibers[f].plugin.actions|
    && |k.fibers[f].effects| == i + 1 && k.fibers[f].effects[0] == Own
    && forall j :: 0 <= j < i ==> EffectFits(k, k.fibers[f].plugin.actions[j], k.fibers[f].effects[j + 1])
  }

  predicate Matches(k: State, f: Id) {
    f in k.fibers && !k.fibers[f].plugin.retires && MatchesTo(k, f, |k.fibers[f].plugin.actions|)
  }

  /** Every loaded plugin has all it registered, and nothing else; none has disposed itself. */
  ghost predicate Whole(k: State) {
    forall f {:trigger Matches(k, f)} :: Active(k, f) && f != ROOT ==> Matches(k, f)
  }

  ghost predicate Moved(c: Ctx, k: State, k': State) {
    match c
    case Up(top, _) => Grew(k, k', top) && Left(k') <= Left(k) && (Whole(k) ==> Whole(k'))
    case Down(zone, _) => Shrunk(k, k', zone, {}) && NoNewLoads(k, k', {})
  }

  function Fuel(c: Ctx, k: State): nat {
    if c.Up? then Left(k) else |Actives(k)|
  }

  function Mode(c: Ctx): nat {
    if c.Up? then 1 else 0
  }

  /** A fiber injects one of these services. */
  predicate Hears(k: State, h: Id, names: set<string>) {
    h in k.fibers && exists n :: n in names && n in k.fibers[h].plugin.inject
  }

  /** Usable by nobody. */
  ghost predicate Gone(k: State, n: string) {
    n !in k.impls || (k.impls[n].owner in k.fibers && exists a :: a in k.fibers[k.impls[n].owner].ancestors && IsUnloading(k, a))
  }

  /** Whoever is due will be reconciled by a caller, or hears the notification. */
  ghost predicate DueOrHears(c: Ctx, k: State, names: set<string>) {
    forall h :: Due(c, k, h) ==> h in c.others || Hears(k, h, names)
  }

  /** Services newly open are provided below the fiber that loads. */
  ghost predicate NotifyUp(c: Ctx, k: State, names: set<string>)
    requires c.Up?
  {
    forall n {:trigger n in names} :: n in names ==> n in k.impls && Under(k, c.top, k.impls[n].owner)
  }

  /** Services that nobody can use any more; whoever loaded against them is in the zone, and
      younger than everything being unloaded. */
  ghost predicate NotifyDown(c: Ctx, k: State, names: set<string>)
    requires c.Down?
  {
    && (forall n {:trigger n in names} :: n in names ==> Gone(k, n))
    && (forall h, n {:trigger n in k.fibers[h].store} :: Active(k, h) && n in k.fibers[h].store && n in names ==>
          h in c.zone && Above(k, k.fibers[h].store[n]))
  }

  // -- what was undone, in order ---------------------------------------------------------------------

  datatype Entry = Undone(fiber: Id, effect: Effect) | Off(fiber: Id)

  function UndoneOf(log: seq<Entry>, f: Id): seq<Effect> {
    if log == [] then []
    else
      var e := log[|log| - 1];
      UndoneOf(log[..|log| - 1], f) + if e.Undone? && e.fiber == f then [e.effect] else []
  }

  function Reverse<T>(s: seq<T>): seq<T> {
    if s == [] then [] else [s[|s| - 1]] + Reverse(s[..|s| - 1])
  }

  lemma {:induction false} UndoneJoined(a: seq<Entry>, b: seq<Entry>, f: Id)
    ensures UndoneOf(a + b, f) == UndoneOf(a, f) + UndoneOf(b, f)
  {
    if b == [] { assert a + b == a; }
    else {
      assert (a + b)[..|a + b| - 1] == a + b[..|b| - 1];
      UndoneJoined(a, b[..|b| - 1], f);
    }
  }

  lemma {:induction false} NothingUndone(log: seq<Entry>, f: Id)
    requires forall e :: e in log ==> e.fiber != f
    ensures UndoneOf(log, f) == []
  {
    if log != [] { NothingUndone(log[..|log| - 1], f); }
  }

  /** The log grew by entries of fibers that were at rest (or `except`), and names every fiber
      that was unloaded. */
  ghost predicate Logged(k: State, k': State, log: seq<Entry>, log': seq<Entry>, except: set<Id>) {
    && |log| <= |log'| && log'[..|log|] == log
    && (forall e {:trigger e in log'[|log|..]} :: e in log'[|log|..] ==>
          e.fiber in k.fibers && (k.fibers[e.fiber].phase.Rest? || e.fiber in except))
    && (forall h :: Active(k, h) && !Active(k', h) && h !in except ==> Off(h) in log'[|log|..])
  }

  lemma LoggedTrans(k: State, k1: State, k2: State, log: seq<Entry>, log1: seq<Entry>, log2: seq<Entry>, zone: set<Id>, except: set<Id>)
    requires Logged(k, k1, log, log1, except) && Logged(k1, k2, log1, log2, except) && Shrunk(k, k1, zone, except)
    ensures Logged(k, k2, log, log2, except)
  {
    var a, b := log1[|log|..], log2[|log1|..];
    assert log2[|log|..] == a + b;
    forall e: Entry | e in a + b ensures e.fiber in k.fibers && (k.fibers[e.fiber].phase.Rest? || e.fiber in except) {
      if e in b { assert ShrunkAt(k, k1, zone, except, e.fiber); }
    }
  }

  // -- unloading: single steps -----------------------------------------------------------------------

  ghost predicate StaleBut(k: State, others: set<Id>) {
    forall h :: Stale(k, h) ==> h in others
  }

  /** A change that opens nothing leaves what can load as it was, but for fibers it blanked. */
  lemma ShrunkLoads(k: State, k': State, zone: set<Id>, except: set<Id>, but: set<Id>)
    requires ServicesOk(k) && ServicesOk(k') && Shrunk(k, k', zone, except)
    requires forall h {:trigger Pending(k', h)} :: Pending(k', h) ==> h in but || (Pending(k, h) && k'.fibers[h].failed == k.fibers[h].failed) || Desired(k', h).None?
    ensures NoNewLoads(k, k', but)
  {
    forall h | CanLoad(k', h) ensures CanLoad(k, h) || h in but { ShrunkDesired(k, k', zone, except, h); }
  }

  function Departing(k: State, f: Id): State
    requires f in k.fibers
  {
    Put(k, f, k.fibers[f].(phase := Unloading))
  }

  /** A fiber begins to unload: its services, and those below it, are out of use. */
  lemma DepartDown(k: State, zone: set<Id>, f: Id)
    requires DownOk(k, zone) && Active(k, f) && f in zone && FreeBelow(k, f) && AboveAll(k, f)
    ensures var k1 := Departing(k, f);
            && DownOk(k1, zone) && OnlySelf(k1, f) && AboveAll(k1, f)
            && |Actives(k1)| < |Actives(k)|
            && (forall h :: Stale(k1, h) ==> Stale(k, h) || Hears(k, h, NamesWithin(k, f)))
  {
    hide PlaceOk, Above;
    var k1 := Departing(k, f);
    assert FiberOk(k, f) && PlaceOk(k, f);
    PhaseKeeps(k, f, k1.fibers[f]);
    forall h, n | h in k1.fibers && n in k1.fibers[h].store && n in k1.impls && k1.impls[n].owner in zone ensures h in zone { assert n in k.fibers[h].store; }
    forall h, a | h in k1.fibers && a in k1.fibers[h].ancestors && a in zone ensures h in zone { assert a in k.fibers[h].ancestors; }
    DepartAbove(k, f);
    DepartStale(k, f);
    assert Actives(k1) == Actives(k) - {f};
  }

  lemma DepartAbove(k: State, f: Id)
    requires SerialsOk(k) && TreeOk(k) && Active(k, f) && AboveAll(k, f)
    ensures AboveAll(Departing(k, f), f)
  {
    var k1 := Departing(k, f);
    forall n | n in k1.impls && Under(k1, f, k1.impls[n].owner) ensures Above(k1, k1.impls[n].serial) {
      assert Under(k, f, k.impls[n].owner) && Above(k, k.impls[n].serial);
      var o := k.impls[n].owner;
      forall u, a, m | IsUnloading(k1, u) && a in k1.fibers[u].ancestors && a in k1.fibers && m in k1.fibers[a].store
        ensures k1.fibers[a].store[m] < k1.impls[n].serial
      {
        assert a in k.fibers[u].ancestors && m in k.fibers[a].store;
        if u == f { assert a in k.fibers[o].ancestors; }
      }
    }
  }

  lemma DepartStale(k: State, f: Id)
    requires Active(k, f)
    ensures forall h :: Stale(Departing(k, f), h) ==> Stale(k, h) || Hears(k, h, NamesWithin(k, f))
  {
    var k1 := Departing(k, f);
    forall h | Stale(k1, h) ensures Stale(k, h) || Hears(k, h, NamesWithin(k, f)) {
      var n :| n in k.fibers[h].plugin.inject && !Usable(k1, n, h);
      if Usable(k, n, h) {
        var a :| a in k.fibers[k.impls[n].owner].ancestors && !Lets(k1, a, h);
        assert Lets(k, a, h) && a == f;
        assert n in NamesWithin(k, f);
      }
    }
  }

  /** What the notification of a departing fiber's services finds. */
  lemma DepartHeard(k: State, zone: set<Id>, f: Id)
    requires DownOk(k, zone) && Active(k, f) && f in zone && AboveAll(Departing(k, f), f)
    ensures var k1 := Departing(k, f);
            && (forall n {:trigger n in NamesWithin(k, f)} :: n in NamesWithin(k, f) ==> Gone(k1, n))
            && (forall h, n {:trigger n in k1.fibers[h].store} :: Active(k1, h) && n in k1.fibers[h].store && n in NamesWithin(k, f) ==>
                  h in zone && Above(k1, k1.fibers[h].store[n]))
  {
    var k1 := Departing(k, f);
    forall n | n in NamesWithin(k, f) ensures Gone(k1, n) { assert f in k1.fibers[k1.impls[n].owner].ancestors && IsUnloading(k1, f); }
    forall h, n | Active(k1, h) && n in k1.fibers[h].store && n in NamesWithin(k, f) ensures h in zone && Above(k1, k1.fibers[h].store[n]) {
      var o := k.impls[n].owner;
      assert n in k.fibers[h].store && Under(k1, f, o);
      assert f in k.fibers[o].ancestors;
      assert o in zone;
    }
  }

  /** Taking back one registration of an unloading fiber disturbs nobody: its services were out
      of use already. */
  lemma UndoDown(k: State, zone: set<Id>, f: Id)
    requires DownOk(k, zone) && IsUnloading(k, f) && f in zone && k.fibers[f].effects != []
    ensures var k1 := Undoing(k, f);
            && DownOk(k1, zone) && Shrunk(k, k1, zone, {f}) && |Actives(k1)| <= |Actives(k)|
            && NoNewLoads(k, k1, {}) && (forall h :: Stale(k1, h) ==> Stale(k, h))
  {
    UndoingKeeps(k, f);
    UndoShrunk(k, zone, f);
    UndoStale(k, f);
    UndoCore(k, Undoing(k, f), zone, {f});
  }

  lemma UndoShrunk(k: State, zone: set<Id>, f: Id)
    requires IsUnloading(k, f) && k.fibers[f].effects != []
    ensures Shrunk(k, Undoing(k, f), zone, {f})
    ensures forall h :: Pending(Undoing(k, f), h) ==> Pending(k, h) && Undoing(k, f).fibers[h] == k.fibers[h]
    ensures forall h :: IsLoading(Undoing(k, f), h) ==> IsLoading(k, h)
  {
  }

  /** What a step that only takes away keeps. */
  lemma UndoCore(k: State, k1: State, zone: set<Id>, except: set<Id>)
    requires ServicesOk(k) && ClosedUnder(k, zone) && ROOT !in zone && (forall f :: f in zone ==> !IsLoading(k, f))
    requires WellFormed(k1) && Shrunk(k, k1, zone, except)
    requires forall h :: Pending(k1, h) ==> Pending(k, h) && k1.fibers[h].failed == k.fibers[h].failed
    requires forall h :: IsLoading(k1, h) ==> IsLoading(k, h)
    ensures DownOk(k1, zone) && |Actives(k1)| <= |Actives(k)| && NoNewLoads(k, k1, {})
  {
    ShrunkClosed(k, k1, zone, except);
    ShrunkActives(k, k1, zone, except);
    ShrunkLoads(k, k1, zone, except, {});
  }

  lemma UndoStale(k: State, f: Id)
    requires ServicesOk(k) && TreeOk(k) && IsUnloading(k, f) && k.fibers[f].effects != []
    ensures forall h :: Stale(Undoing(k, f), h) ==> Stale(k, h)
  {
    var k1 := Undoing(k, f);
    var e := k.fibers[f].effects[|k.fibers[f].effects| - 1];
    if e.Provided? { assert Provided(e.name, e.serial) in k.fibers[f].effects; }
    assert PlaceOk(k, f);
    forall h | Stale(k1, h) ensures Stale(k, h) {
      var n :| n in k.fibers[h].plugin.inject && !Usable(k1, n, h);
      if Usable(k, n, h) {
        assert Lets(k, k.impls[n].owner, h) by { assert PlaceOk(k, k.impls[n].owner); }
        forall a | a in k1.fibers[k.impls[n].owner].ancestors ensures Lets(k1, a, h) { assert Lets(k, a, h); }
      }
    }
  }

  /** Who hears that a service was withdrawn. */
  lemma UndoHeard(k: State, zone: set<Id>, f: Id, n: string, s: nat)
    requires DownOk(k, zone) && IsUnloading(k, f) && f in zone && AboveAll(k, f)
    requires k.fibers[f].effects != [] && k.fibers[f].effects[|k.fibers[f].effects| - 1] == Provided(n, s)
    ensures var k1 := Undoing(k, f);
            && Gone(k1, n)
            && (forall h {:trigger n in k1.fibers[h].store} :: Active(k1, h) && n in k1.fibers[h].store ==>
                  h in zone && Above(k1, k1.fibers[h].store[n]))
  {
    var k1 := Undoing(k, f);
    assert Provided(n, s) in k.fibers[f].effects && PlaceOk(k, f);
    UndoShrunk(k, zone, f);
    assert Under(k, f, k.impls[n].owner);
    ShrunkAbove(k, k1, zone, {f}, k.impls[n].serial);
    UndoHearers(k, zone, f, n);
  }

  lemma UndoHearers(k: State, zone: set<Id>, f: Id, n: string)
    requires ClosedUnder(k, zone) && SerialsOk(k) && f in k.fibers && k.fibers[f].effects != [] && f in zone
    requires n in k.impls && k.impls[n].owner == f
    ensures forall h {:trigger n in Undoing(k, f).fibers[h].store} :: h in k.fibers && n in Undoing(k, f).fibers[h].store ==>
              h in zone && Undoing(k, f).fibers[h].store[n] == k.impls[n].serial
  {
    forall h | h in k.fibers && n in Undoing(k, f).fibers[h].store
      ensures h in zone && Undoing(k, f).fibers[h].store[n] == k.impls[n].serial
    {
      assert n in k.fibers[h].store;
    }
  }

  /** Unloading ends: the fiber is blank. */
  lemma EndDown(k: State, zone: set<Id>, f: Id)
    requires DownOk(k, zone) && IsUnloading(k, f) && f in zone && k.fibers[f].effects == []
    requires forall g {:trigger g in k.fibers} :: g in k.fibers && f in k.fibers[g].ancestors ==> g == f
    ensures var k1 := Put(k, f, Blank(k.fibers[f]));
            && DownOk(k1, zone) && |Actives(k1)| <= |Actives(k)|
            && NoNewLoads(k, k1, {f}) && (forall h :: Stale(k1, h) ==> Stale(k, h))
  {
    var k1 := Put(k, f, Blank(k.fibers[f]));
    assert FiberOk(k, f) && PlaceOk(k, f);
    forall c | c in k.fibers && c != ROOT ensures k.fibers[c].parent != f {
      assert PlaceOk(k, c) && PlaceOk(k, k.fibers[c].parent);
      assert k.fibers[c].parent in k.fibers[c].ancestors;
    }
    PhaseKeeps(k, f, k1.fibers[f]);
    hide Usable, Desired;
    EndClosed(k, zone, f);
    EndUsable(k, f);
    assert Actives(k1) == Actives(k);
  }

  lemma EndClosed(k: State, zone: set<Id>, f: Id)
    requires ClosedUnder(k, zone) && f in k.fibers
    ensures ClosedUnder(Put(k, f, Blank(k.fibers[f])), zone)
  {
    var k1 := Put(k, f, Blank(k.fibers[f]));
    forall h, n | h in k1.fibers && n in k1.fibers[h].store && n in k1.impls && k1.impls[n].owner in zone ensures h in zone { assert n in k.fibers[h].store; }
    forall h, a | h in k1.fibers && a in k1.fibers[h].ancestors && a in zone ensures h in zone { assert a in k.fibers[h].ancestors; }
  }

  lemma EndUsable(k: State, f: Id)
    requires ServicesOk(k) && IsUnloading(k, f) && k.fibers[f].effects == []
    requires forall g {:trigger g in k.fibers} :: g in k.fibers && f in k.fibers[g].ancestors ==> g == f
    ensures var k1 := Put(k, f, Blank(k.fibers[f]));
            NoNewLoads(k, k1, {f}) && (forall h :: Stale(k1, h) ==> Stale(k, h))
  {
    var k1 := Put(k, f, Blank(k.fibers[f]));
    forall h | h in k.fibers && h != f ensures Desired(k1, h) == Desired(k, h) {
      forall n ensures Usable(k1, n, h) <==> Usable(k, n, h) { EndUsable1(k, f, n, h); }
    }
  }

  lemma EndUsable1(k: State, f: Id, n: string, h: Id)
    requires ServicesOk(k) && IsUnloading(k, f) && k.fibers[f].effects == [] && h in k.fibers && h != f
    requires forall g {:trigger g in k.fibers} :: g in k.fibers && f in k.fibers[g].ancestors ==> g == f
    ensures Usable(Put(k, f, Blank(k.fibers[f])), n, h) <==> Usable(k, n, h)
  {
    var k1 := Put(k, f, Blank(k.fibers[f]));
    if n in k.impls {
      var o := k.impls[n].owner;
      assert Provided(n, k.impls[n].serial) in k.fibers[o].effects;
      assert f !in k.fibers[o].ancestors;
      forall a | a in k.fibers[o].ancestors ensures Lets(k1, a, h) <==> Lets(k, a, h) {}
    }
  }

  /** A blank fiber leaves for good. */
  lemma RemoveDown(k: State, zone: set<Id>, f: Id)
    requires DownOk(k, zone) && Pending(k, f) && f in zone
    ensures Leaf(k, f)
    ensures var k1 := Removing(k, f);
            && DownOk(k1, zone) && Shrunk(k, k1, zone, {k.fibers[f].parent}) && |Actives(k1)| <= |Actives(k)|
            && NoNewLoads(k, k1, {}) && (forall h :: Stale(k1, h) ==> Stale(k, h))
  {
    RemovingKeeps(k, f);
    var k1, p := Removing(k, f), k.fibers[f].parent;
    assert Shrunk(k, k1, zone, {p});
    RemoveStale(k, f);
    UndoCore(k, k1, zone, {p});
  }

  lemma RemoveStale(k: State, f: Id)
    requires ServicesOk(k) && Leaf(k, f)
    ensures forall h :: Stale(Removing(k, f), h) ==> Stale(k, h)
  {
    var k1 := Removing(k, f);
    forall h | Stale(k1, h) ensures Stale(k, h) {
      var n :| n in k.fibers[h].plugin.inject && !Usable(k1, n, h);
      if Usable(k, n, h) {
        var o := k.impls[n].owner;
        assert Provided(n, k.impls[n].serial) in k.fibers[o].effects;
        forall a | a in k1.fibers[o].ancestors ensures Lets(k1, a, h) { assert Lets(k, a, h); }
      }
    }
  }

  // -- unloading: putting steps together ------------------------------------------------------------

  lemma ShrunkWider(k: State, k': State, zone: set<Id>, f: Id)
    requires Shrunk(k, k', zone, {}) && f in k'.fibers && (f in k.fibers ==> k'.fibers[f] == k.fibers[f])
    ensures Shrunk(k, k', zone, {f})
  {
    forall h | h in k.fibers ensures ShrunkAt(k, k', zone, {f}, h) {
      assert ShrunkAt(k, k', zone, {}, h);
      assert h == f ==> k.fibers[h] == k.fibers[h].(effects := k.fibers[h].effects);
    }
  }

  lemma LoggedWider(k: State, k': State, log: seq<Entry>, log': seq<Entry>, f: Id)
    requires Logged(k, k', log, log', {})
    ensures Logged(k, k', log, log', {f})
  {
  }

  lemma DepartLoads(k: State, f: Id)
    requires Active(k, f)
    ensures NoNewLoads(k, Departing(k, f), {})
  {
    var k1 := Departing(k, f);
    forall h | CanLoad(k1, h) ensures CanLoad(k, h) {
      forall n | n in k.fibers[h].plugin.inject ensures Usable(k, n, h) {
        assert Usable(k1, n, h);
        forall a | a in k.fibers[k.impls[n].owner].ancestors ensures Lets(k, a, h) { assert Lets(k1, a, h); }
      }
    }
  }

  /** A child of an unloading fiber may be disposed of. */
  lemma MountedBelow(k: State, zone: set<Id>, f: Id, x: Id)
    requires DownOk(k, zone) && IsUnloading(k, f) && f in zone && OnlySelf(k, f) && AboveAll(k, f)
    requires x in k.fibers && x != ROOT && k.fibers[x].parent == f
    ensures x in zone && k.fibers[x].phase.Rest? && FreeBelow(k, x) && AboveAll(k, x)
  {
    assert PlaceOk(k, x) && PlaceOk(k, f);
    assert f in k.fibers[x].ancestors && x !in k.fibers[f].ancestors;
    forall u | u in k.fibers && x in k.fibers[u].ancestors ensures f in k.fibers[u].ancestors {}
    forall n | n in k.impls && Under(k, x, k.impls[n].owner) ensures Above(k, k.impls[n].serial) {
      assert Under(k, f, k.impls[n].owner);
    }
  }

  /** The parent of a fiber that is still there was not unloaded. */
  lemma ParentKept(k: State, k': State, zone: set<Id>, x: Id)
    requires WellFormed(k') && Shrunk(k, k', zone, {}) && x in k'.fibers && x in k.fibers && x != ROOT
    ensures k'.fibers[x].parent == k.fibers[x].parent && k.fibers[x].parent in k.fibers && k.fibers[x].parent in k'.fibers
    ensures k'.fibers[k.fibers[x].parent] == k.fibers[k.fibers[x].parent]
  {
    assert ShrunkAt(k, k', zone, {}, x) && ChildOk(k', x);
    assert ShrunkAt(k, k', zone, {}, k.fibers[x].parent);
  }

  /** From the start of an unload to its end. */
  lemma UnloadShrunk(k: State, k3: State, zone: set<Id>, f: Id)
    requires Active(k, f) && f in zone && Shrunk(Departing(k, f), k3, zone, {f})
    requires f in k3.fibers && k3.fibers[f] == Departing(k, f).fibers[f].(effects := [])
    ensures Shrunk(k, Put(k3, f, Blank(k3.fibers[f])), zone, {})
  {
    var k1, k4 := Departing(k, f), Put(k3, f, Blank(k3.fibers[f]));
    forall h | h in k.fibers ensures ShrunkAt(k, k4, zone, {}, h) { assert ShrunkAt(k1, k3, zone, {f}, h); }
  }

  /** The disposer that apply returned runs after all others. */
  predicate OwnLast(undone: seq<Effect>) {
    undone != [] && undone[|undone| - 1] == Own
  }

  lemma {:induction false} FirstLast<T>(s: seq<T>)
    requires s != []
    ensures Reverse(s) != [] && Reverse(s)[|Reverse(s)| - 1] == s[0]
  {
    if |s| > 1 { FirstLast(s[..|s| - 1]); }
  }

  /** What an unload undid, and that everyone who used what it took away was unloaded first. */
  ghost predicate UndoneInOrder(k: State, log: seq<Entry>, mark: nat, log': seq<Entry>, f: Id)
    requires f in k.fibers
  {
    && |log| <= mark <= |log'|
    && UndoneOf(log'[|log|..mark], f) == []
    && UndoneOf(log'[mark..], f) == Reverse(k.fibers[f].effects) && OwnLast(UndoneOf(log'[mark..], f))
    && (forall h :: h != f && Active(k, h) && Hears(k, h, NamesWithin(k, f)) ==> Off(h) in log'[|log|..mark])
  }

  lemma UnloadLogged(k: State, k2: State, k3: State, zone: set<Id>, f: Id, log: seq<Entry>, log2: seq<Entry>, log3: seq<Entry>)
    requires Active(k, f) && k.fibers[f].effects != [] && k.fibers[f].effects[0] == Own && Logged(Departing(k, f), k2, log, log2, {}) && Logged(k2, k3, log2, log3, {f})
    requires Shrunk(Departing(k, f), k2, zone, {})
    requires f in k2.fibers && UndoneOf(log3[|log2|..], f) == Reverse(k.fibers[f].effects)
    requires forall h :: Active(k2, h) ==> !Hears(Departing(k, f), h, NamesWithin(k, f))
    requires f in k3.fibers
    ensures Logged(k, Put(k3, f, Blank(k3.fibers[f])), log, log3 + [Off(f)], {})
    ensures UndoneInOrder(k, log, |log2|, log3 + [Off(f)], f)
  {
    UnloadLog(k, k2, k3, zone, f, log, log2, log3);
    UnloadOrder(k, k2, zone, f, log, log2, log3);
  }

  lemma UnloadLog(k: State, k2: State, k3: State, zone: set<Id>, f: Id, log: seq<Entry>, log2: seq<Entry>, log3: seq<Entry>)
    requires Active(k, f) && Logged(Departing(k, f), k2, log, log2, {}) && Logged(k2, k3, log2, log3, {f})
    requires Shrunk(Departing(k, f), k2, zone, {}) && f in k2.fibers && f in k3.fibers
    ensures Logged(k, Put(k3, f, Blank(k3.fibers[f])), log, log3 + [Off(f)], {})
  {
    var k1, k4, log4 := Departing(k, f), Put(k3, f, Blank(k3.fibers[f])), log3 + [Off(f)];
    LoggedWider(k1, k2, log, log2, f);
    ShrunkAtStart(k1, k2, zone, f);
    LoggedTrans(k1, k2, k3, log, log2, log3, zone, {f});
    LoggedEnd(k, k3, f, log, log3);
  }

  lemma ShrunkAtStart(k1: State, k2: State, zone: set<Id>, f: Id)
    requires IsUnloading(k1, f) && Shrunk(k1, k2, zone, {}) && f in k2.fibers
    ensures Shrunk(k1, k2, zone, {f})
  {
    assert ShrunkAt(k1, k2, zone, {}, f);
    ShrunkWider(k1, k2, zone, f);
  }

  lemma LoggedEnd(k: State, k3: State, f: Id, log: seq<Entry>, log3: seq<Entry>)
    requires Active(k, f) && Logged(Departing(k, f), k3, log, log3, {f}) && f in k3.fibers
    ensures Logged(k, Put(k3, f, Blank(k3.fibers[f])), log, log3 + [Off(f)], {})
  {
    var k1, k4, log4 := Departing(k, f), Put(k3, f, Blank(k3.fibers[f])), log3 + [Off(f)];
    assert log4[|log|..] == log3[|log|..] + [Off(f)];
    forall h | Active(k, h) && !Active(k4, h) ensures Off(h) in log4[|log|..] {
      if h != f { assert Active(k1, h) && !Active(k3, h); }
    }
  }

  lemma UnloadOrder(k: State, k2: State, zone: set<Id>, f: Id, log: seq<Entry>, log2: seq<Entry>, log3: seq<Entry>)
    requires Active(k, f) && k.fibers[f].effects != [] && k.fibers[f].effects[0] == Own && Logged(Departing(k, f), k2, log, log2, {})
    requires |log2| <= |log3| && log3[..|log2|] == log2 && UndoneOf(log3[|log2|..], f) == Reverse(k.fibers[f].effects)
    requires forall h :: Active(k2, h) ==> !Hears(Departing(k, f), h, NamesWithin(k, f))
    ensures UndoneInOrder(k, log, |log2|, log3 + [Off(f)], f)
  {
    hide NamesWithin, Reverse, Hears, Logged;
    OrderParts(k, k2, f, log, log2, log3);
    FirstLast(k.fibers[f].effects);
    OrderOff(k, k2, f, log, log2);
  }

  lemma OrderParts(k: State, k2: State, f: Id, log: seq<Entry>, log2: seq<Entry>, log3: seq<Entry>)
    requires Active(k, f) && Logged(Departing(k, f), k2, log, log2, {})
    requires |log2| <= |log3| && log3[..|log2|] == log2
    ensures var log4 := log3 + [Off(f)];
            && |log| <= |log2| && log4[|log|..|log2|] == log2[|log|..]
            && UndoneOf(log4[|log|..|log2|], f) == [] && UndoneOf(log4[|log2|..], f) == UndoneOf(log3[|log2|..], f)
  {
    hide Departing, Active;
    var log4 := log3 + [Off(f)];
    assert log4[|log2|..] == log3[|log2|..] + [Off(f)];
    assert log4[|log|..|log2|] == log2[|log|..];
    UndoneJoined(log3[|log2|..], [Off(f)], f);
    assert UndoneOf([Off(f)], f) == [];
    OrderNothing(k, k2, f, log, log2);
  }

  lemma OrderNothing(k: State, k2: State, f: Id, log: seq<Entry>, log2: seq<Entry>)
    requires Active(k, f) && Logged(Departing(k, f), k2, log, log2, {})
    ensures UndoneOf(log2[|log|..], f) == []
  {
    NothingUndone(log2[|log|..], f);
  }

  lemma OrderOff(k: State, k2: State, f: Id, log: seq<Entry>, log2: seq<Entry>)
    requires Active(k, f) && Logged(Departing(k, f), k2, log, log2, {})
    requires forall h :: Active(k2, h) ==> !Hears(Departing(k, f), h, NamesWithin(k, f))
    ensures forall h :: h != f && Active(k, h) && Hears(k, h, NamesWithin(k, f)) ==> Off(h) in log2[|log|..]
  {
    hide NamesWithin;
    var k1 := Departing(k, f);
    forall h | h != f && Active(k, h) && Hears(k, h, NamesWithin(k, f)) ensures Off(h) in log2[|log|..] {
      assert Active(k1, h) && Hears(k1, h, NamesWithin(k, f));
    }
  }

  /** Some unloading happened within a zone. */
  ghost predicate Took(k: State, k': State, zone: set<Id>, except: set<Id>, log: seq<Entry>, log': seq<Entry>) {
    && Shrunk(k, k', zone, except) && NoNewLoads(k, k', {}) && |Actives(k')| <= |Actives(k)|
    && Logged(k, k', log, log', except)
  }

  /** What was undone of a fiber between two moments. */
  function UndoneSince(log: seq<Entry>, log': seq<Entry>, f: Id): seq<Effect> {
    if |log| <= |log'| then UndoneOf(log'[|log|..], f) else []
  }

  lemma TookMore(k: State, k1: State, k2: State, zone: set<Id>, except: set<Id>, log: seq<Entry>, log1: seq<Entry>, log2: seq<Entry>)
    requires Took(k, k1, zone, except, log, log1) && Took(k1, k2, zone, except, log1, log2)
    ensures Took(k, k2, zone, except, log, log2) && |Actives(k2)| <= |Actives(k1)| <= |Actives(k)|
    ensures forall f :: UndoneSince(log, log2, f) == UndoneSince(log, log1, f) + UndoneSince(log1, log2, f)
  {
    ShrunkTrans(k, k1, k2, zone, except);
    LoggedTrans(k, k1, k2, log, log1, log2, zone, except);
    assert log2[|log|..] == log1[|log|..] + log2[|log1|..];
    forall f ensures UndoneSince(log, log2, f) == UndoneSince(log, log1, f) + UndoneSince(log1, log2, f) {
      UndoneJoined(log1[|log|..], log2[|log1|..], f);
    }
  }

  lemma TookNothing(k: State, zone: set<Id>, except: set<Id>, log: seq<Entry>)
    ensures Took(k, k, zone, except, log, log)
    ensures forall f :: UndoneSince(log, log, f) == []
  {
    forall f | f in k.fibers ensures ShrunkAt(k, k, zone, except, f) {
      assert k.fibers[f] == k.fibers[f].(effects := k.fibers[f].effects);
    }
    assert log[|log|..] == [];
  }

  lemma ReverseLast(s: seq<Effect>)
    requires s != []
    ensures Reverse(s) == [s[|s| - 1]] + Reverse(s[..|s| - 1])
  {
  }

  /** Every child of `f` is still among its effects. */
  ghost predicate AllMounted(k: State, f: Id) {
    f in k.fibers && forall x {:trigger x in k.fibers} :: x in k.fibers && x != ROOT && k.fibers[x].parent == f ==> Mounted(x) in k.fibers[f].effects
  }

  predicate Alone(k: State, f: Id) {
    forall x {:trigger x in k.fibers} :: x in k.fibers && f in k.fibers[x].ancestors ==> x == f
  }

  /** An unloading fiber whose registrations are being undone. */
  ghost predicate Undoable(c: Ctx, k: State, busy: set<Id>, f: Id) {
    && c.Down? && Ready(c, k) && BusyOk(c, k, busy) && StaleBut(k, c.others)
    && IsUnloading(k, f) && f in c.zone && OnlySelf(k, f) && AboveAll(k, f)
  }

  function Newest(k: State, f: Id): Effect
    requires f in k.fibers && k.fibers[f].effects != []
  {
    k.fibers[f].effects[|k.fibers[f].effects| - 1]
  }

  lemma UndoOne(c: Ctx, k: State, busy: set<Id>, f: Id, log: seq<Entry>)
    requires Undoable(c, k, busy, f) && k.fibers[f].effects != []
    ensures var k1 := Undoing(k, f);
            && Undoable(c, k1, busy, f) && |Actives(k1)| <= |Actives(k)|
            && Took(k, k1, c.zone, {f}, log, log + [Undone(f, Newest(k, f))])
            && UndoneSince(log, log + [Undone(f, Newest(k, f))], f) == [Newest(k, f)]
            && k1.fibers[f] == k.fibers[f].(effects := k.fibers[f].effects[..|k.fibers[f].effects| - 1])
  {
    hide WellFormed, ClosedUnder, Shrunk, Logged, NoNewLoads, AboveAll, OnlySelf, BusyOk, Stale, FiberOk, Actives, Undoing, NoDup, UndoneSince;
    NoDupEffects(k, f);
    UndoDown(k, c.zone, f);
    UndoneLast(k, f);
    UndoneOne(log, f, Newest(k, f));
    UndoAbove(k, Undoing(k, f), c.zone, f);
    UndoLogged(k, f, log);
    UndoBusy(c, k, busy, f);
  }

  lemma NoDupEffects(k: State, f: Id)
    requires WellFormed(k) && f in k.fibers
    ensures NoDup(k.fibers[f].effects)
  {
    assert FiberOk(k, f);
  }

  lemma UndoneLast(k: State, f: Id)
    requires IsUnloading(k, f) && k.fibers[f].effects != [] && NoDup(k.fibers[f].effects)
    ensures var k1 := Undoing(k, f);
            && IsUnloading(k1, f) && k1.fibers[f] == k.fibers[f].(effects := k.fibers[f].effects[..|k.fibers[f].effects| - 1])
            && k1.fibers[f].phase == k.fibers[f].phase
  {
    WithoutLast(k.fibers[f].effects);
  }

  lemma UndoneOne(log: seq<Entry>, f: Id, e: Effect)
    ensures UndoneSince(log, log + [Undone(f, e)], f) == [e]
  {
    assert (log + [Undone(f, e)])[|log|..] == [Undone(f, e)];
    assert UndoneOf([Undone(f, e)], f) == [e] by { assert [Undone(f, e)][..0] == []; }
  }

  lemma UndoBusy(c: Ctx, k: State, busy: set<Id>, f: Id)
    requires BusyOk(c, k, busy) && IsUnloading(k, f) && k.fibers[f].effects != []
    ensures BusyOk(c, Undoing(k, f), busy)
  {
  }

  lemma UndoLogged(k: State, f: Id, log: seq<Entry>)
    requires IsUnloading(k, f) && k.fibers[f].effects != []
    ensures Logged(k, Undoing(k, f), log, log + [Undone(f, Newest(k, f))], {f})
  {
    assert (log + [Undone(f, Newest(k, f))])[|log|..] == [Undone(f, Newest(k, f))];
  }

  /** What unloading fibers rely on survives the unloading of others. */
  lemma UndoAbove(k: State, k1: State, zone: set<Id>, f: Id)
    requires WellFormed(k) && WellFormed(k1) && Shrunk(k, k1, zone, {f}) && AboveAll(k, f) && OnlySelf(k, f)
    requires f in k1.fibers && k1.fibers[f].phase == k.fibers[f].phase
    ensures AboveAll(k1, f) && OnlySelf(k1, f)
  {
    ShrunkAboveAll(k, k1, zone, {f}, f);
    forall u | IsUnloading(k1, u) && f in k1.fibers[u].ancestors ensures u == f {
      assert u in k.fibers && ShrunkAt(k, k1, zone, {f}, u);
      assert IsUnloading(k, u);
    }
  }

  /** A call that unloaded others left the unloading fiber itself alone. */
  lemma UndoOthers(c: Ctx, k: State, k1: State, busy: set<Id>, f: Id, log: seq<Entry>, log1: seq<Entry>)
    requires Undoable(c, k, busy, f) && Shrunk(k, k1, c.zone, {f}) && Logged(k, k1, log, log1, {}) && NoNewLoads(k, k1, {})
    requires f in k1.fibers && k1.fibers[f] == k.fibers[f]
    requires Ready(c, k1) && BusyOk(c, k1, busy) && StaleBut(k1, c.others)
    ensures Undoable(c, k1, busy, f)
    ensures Took(k, k1, c.zone, {f}, log, log1) && UndoneSince(log, log1, f) == []
  {
    UndoAbove(k, k1, c.zone, f);
    ShrunkActives(k, k1, c.zone, {f});
    LoggedWider(k, k1, log, log1, f);
    NothingUndone(log1[|log|..], f);
  }

  lemma AllMountedAfter(k: State, f: Id)
    requires AllMounted(k, f) && k.fibers[f].effects != [] && MountedOk(k)
    ensures var k1 := Undoing(k, f);
            && (!Newest(k, f).Mounted? ==> AllMounted(k1, f))
            && (Newest(k, f).Mounted? ==>
                  && Newest(k, f).child in k1.fibers && Newest(k, f).child != ROOT && k1.fibers[Newest(k, f).child].parent == f
                  && Mounted(Newest(k, f).child) !in k1.fibers[f].effects
                  && forall x {:trigger x in k1.fibers} :: x in k1.fibers && x != ROOT && x != Newest(k, f).child && k1.fibers[x].parent == f ==>
                       Mounted(x) in k1.fibers[f].effects)
  {
    var e := Newest(k, f);
    assert e in k.fibers[f].effects;
    if e.Mounted? { assert Mounted(e.child) in k.fibers[f].effects; }
  }

  lemma AllMountedShrunk(k: State, k1: State, zone: set<Id>, f: Id)
    requires AllMounted(k, f) && Shrunk(k, k1, zone, {f}) && f in k1.fibers && k1.fibers[f].effects == k.fibers[f].effects
    ensures AllMounted(k1, f)
  {
    forall x | x in k1.fibers && x != ROOT && k1.fibers[x].parent == f ensures Mounted(x) in k1.fibers[f].effects {
      assert ShrunkAt(k, k1, zone, {f}, x);
    }
  }

  lemma {:induction false} WithoutAbsent<T(!new)>(s: seq<T>, x: T)
    requires x !in s
    ensures Without(s, x) == s
  {
    if s != [] { WithoutAbsent(s[1..], x); }
  }
}
