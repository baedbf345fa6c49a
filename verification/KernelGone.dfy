/** A fiber that disposed itself is gone for good: no later operation loads it. */
module KernelGone {
  import opened Models
  import opened KernelState
  import opened KernelSteps
  import opened KernelFrames
  import opened KernelGrowth
  import opened KernelRollback
  import opened KernelCalls
  import opened KernelProof
  import opened KernelWithdraw

  /** Who is gone stays gone, and no load of it was begun. */
  ghost predicate GoneForGood(k: State, k': State, was: seq<Begin>, now: seq<Begin>) {
    forall f {:trigger f in k.fibers} :: f in k.fibers && k.fibers[f].gone ==>
      !Tried(was, now, f) && (f in k'.fibers ==> k'.fibers[f].gone && !Active(k', f))
  }

  /** Nothing that is gone was touched. */
  ghost predicate GoneSame(k: State, k': State) {
    forall f {:trigger f in k.fibers} :: f in k.fibers && k.fibers[f].gone && f in k'.fibers ==> k'.fibers[f].gone && !Active(k', f)
  }

  lemma GoneRests(k: State)
    requires WellFormed(k)
    ensures GoneSame(k, k)
  {
    forall f | f in k.fibers && k.fibers[f].gone ensures !Active(k, f) { assert FiberOk(k, f); }
  }

  lemma GoneNothing(k: State, busy: set<Id>, loads: seq<Begin>)
    requires Quiet(k, busy)
    ensures GoneForGood(k, k, loads, loads)
  {
    hide WellFormed;
    GoneRests(k);
  }

  lemma GoneShrunk(k: State, k': State, zone: set<Id>, except: set<Id>)
    requires WellFormed(k) && Shrunk(k, k', zone, except)
    ensures GoneSame(k, k')
  {
    GoneRests(k);
    hide WellFormed;
    forall f | f in k.fibers && k.fibers[f].gone && f in k'.fibers ensures k'.fibers[f].gone && !Active(k', f) {
      assert ShrunkAt(k, k', zone, except, f);
    }
  }

  lemma IdsUsed(k: State)
    requires WellFormed(k)
    ensures forall f :: f in k.fibers ==> f < k.uids
  {
    forall f | f in k.fibers ensures f < k.uids { assert PlaceOk(k, f); }
  }

  // -- the operations -----------------------------------------------------------------------------------

  lemma GonePlugged(k: State, k': State, busy: set<Id>, parent: Id, p: Plugin, was: seq<Begin>, now: seq<Begin>)
    requires Quiet(k, busy) && parent in k.fibers && k.uids !in k.fibers
    requires Moved(Up(ROOT, {}), Bearing(k, parent, p), k') && BegunIn(Up(ROOT, {}), k, was, now)
    ensures GoneForGood(k, k', was, now)
  {
    GoneRests(k);
    GrewLater(Bearing(k, parent, p), k', ROOT);
    hide Grew, WellFormed;
  }

  lemma GoneOffered(k: State, k': State, busy: set<Id>, n: string, raised: bool, was: seq<Begin>, now: seq<Begin>)
    requires Quiet(k, busy) && ROOT in k.fibers && BegunIn(Up(ROOT, {}), k, was, now)
    requires if raised then k' == k else Moved(Up(ROOT, {}), Serving(k, ROOT, n), k')
    ensures GoneForGood(k, k', was, now)
  {
    GoneRests(k);
    if !raised { GrewLater(Serving(k, ROOT, n), k', ROOT); }
    hide Grew, WellFormed;
  }

  lemma GoneUnplugged(c: Ctx, k: State, k': State, busy: set<Id>, x: Id, log: seq<Entry>, log': seq<Entry>, loads: seq<Begin>)
    requires Quiet(k, busy) && Disposed(c, k, k', busy, x, log, log')
    ensures GoneForGood(k, k', loads, loads)
  {
    hide WellFormed, Shrunk;
    GoneShrunk(k, k', c.zone, {k.fibers[x].parent});
  }

  lemma GoneRestarted(k: State, k1: State, k': State, busy: set<Id>, f: Id, log: seq<Entry>, mark: nat, log1: seq<Entry>, was: seq<Begin>, now: seq<Begin>)
    requires Quiet(k, busy) && Unloaded(Outermost(k), k, k1, busy, f, log, mark, log1)
    requires var k2 := Put(k1, f, Retried(k1.fibers[f])); Moved(Up(ROOT, {}), k2, k') && BegunIn(Up(ROOT, {}), k2, was, now)
    ensures GoneForGood(k, k', was, now)
  {
    hide WellFormed, Logged, UndoneInOrder, DownOk, BusyBut, StaleBut, NoNewLoads, CanLoad, Stale, Left, Whole;
    var k2 := Put(k1, f, Retried(k1.fibers[f]));
    IdsUsed(k);
    GoneShrunk(k, k1, Everyone(k), {});
    assert k1.uids == k.uids;
    GrewLater(k2, k', ROOT);
    GoneAcross(k, k1, k', f, was, now);
  }

  lemma GoneAcross(k: State, k1: State, k': State, f: Id, was: seq<Begin>, now: seq<Begin>)
    requires GoneSame(k, k1) && (forall x :: x in k.fibers ==> x < k.uids) && k1.uids == k.uids && f in k1.fibers
    requires var k2 := Put(k1, f, Retried(k1.fibers[f]));
             Spared(k2, was, now) && Later(k2, k') && forall x :: x in k2.fibers && k2.fibers[x].gone ==> k'.fibers[x] == k2.fibers[x]
    ensures GoneForGood(k, k', was, now)
  {
    var k2 := Put(k1, f, Retried(k1.fibers[f]));
    forall x | x in k.fibers && k.fibers[x].gone
      ensures !Tried(was, now, x) && (x in k'.fibers ==> k'.fibers[x].gone && !Active(k', x))
    {
      if x in k1.fibers { assert x in k2.fibers && k2.fibers[x].gone && !Active(k2, x); }
    }
  }

  lemma GoneWithdrawn(k: State, k': State, busy: set<Id>, n: string, zone: set<Id>, loads: seq<Begin>)
    requires Quiet(k, busy) && n in k.impls && k.impls[n].owner in k.fibers && Shrunk(Withdrawing(k, n), k', zone, {})
    ensures GoneForGood(k, k', loads, loads)
  {
    var k1 := Withdrawing(k, n);
    GoneRests(k);
    hide WellFormed;
    forall f | f in k.fibers && k.fibers[f].gone && f in k'.fibers ensures k'.fibers[f].gone && !Active(k', f) {
      assert ShrunkAt(k1, k', zone, {}, f) && !Active(k, f);
    }
  }
}
