/** The plugin kernel's state: fibers, the services table, the fiber list and the listeners, and
    what its lifecycle keeps true of them. Plugins are data: the services they inject and what
    their apply does, in order. */
module KernelState {
  import opened Models

  type Id = nat
  type Epoch = map<string, nat>   // the serial of every injected service

  /** `retires`: the first thing its apply does is to dispose its own fiber; `leaves`: the
      disposer its apply returns does. Either way the dispose waits until the transition ends. */
  datatype Plugin = Plugin(inject: set<string>, actions: seq<Act>, retires: bool, leaves: bool)

  datatype Act = Provide(name: string) | Mount(plugin: Plugin) | Listen(event: string, prepend: bool) | Fail

  datatype Phase = Rest | Loading | Unloading

  /** What a fiber registered; Own is the slot of the disposer that apply itself returns. */
  datatype Effect = Own | Provided(name: string, serial: nat) | Mounted(child: Id) | Listening(event: string, key: int)

  /** `store` holds the registrations a fiber loads against; `ancestors` includes itself. A fiber
      that disposed itself is `gone`: it stays in its place but never does anything again. */
  datatype Fiber = Fiber(
    plugin: Plugin,
    parent: Id,
    ancestors: set<Id>,
    effects: seq<Effect>,
    store: Epoch,
    loaded: Option<Epoch>,
    failed: Option<Epoch>,
    error: bool,
    phase: Phase,
    gone: bool)

  datatype Impl = Impl(owner: Id, serial: nat)

  /** The listeners of all events in one list; a prepended one goes first. Its key tells a
      listener apart: keys count up from zero at the end of the list and down at its front. */
  datatype Listener = Listener(owner: Id, event: string, key: int)

  datatype State = State(
    impls: map<string, Impl>,
    fibers: map<Id, Fiber>,
    live: seq<Id>,
    listeners: seq<Listener>,
    serials: nat,
    uids: nat,
    keys: nat)

  const ROOT: Id := 0

  // -- what a fiber is doing ---------------------------------------------------------------

  predicate Active(k: State, f: Id) {
    f in k.fibers && k.fibers[f].phase.Rest? && k.fibers[f].loaded.Some?
  }

  /** Waiting for its services, or failed. */
  predicate Pending(k: State, f: Id) {
    f in k.fibers && k.fibers[f].phase.Rest? && k.fibers[f].loaded.None?
  }

  predicate IsLoading(k: State, f: Id) {
    f in k.fibers && k.fibers[f].phase.Loading?
  }

  predicate IsUnloading(k: State, f: Id) {
    f in k.fibers && k.fibers[f].phase.Unloading?
  }

  /** `a` lets `consumer` use what is provided below it. */
  predicate Lets(k: State, a: Id, consumer: Id)
    requires consumer in k.fibers
  {
    Active(k, a) || (IsLoading(k, a) && a in k.fibers[consumer].ancestors)
  }

  predicate Usable(k: State, name: string, consumer: Id)
    requires consumer in k.fibers
  {
    && name in k.impls && k.impls[name].owner in k.fibers
    && forall a :: a in k.fibers[k.impls[name].owner].ancestors ==> Lets(k, a, consumer)
  }

  function Serials(impls: map<string, Impl>, inject: set<string>): Epoch {
    map n | n in inject :: if n in impls then impls[n].serial else 0
  }

  /** The epoch a fiber would load against now; None while an injected service is missing. */
  function Desired(k: State, f: Id): Option<Epoch>
    requires f in k.fibers
  {
    var inject := k.fibers[f].plugin.inject;
    if forall n :: n in inject ==> Usable(k, n, f) then Some(Serials(k.impls, inject))
    else None
  }

  predicate CanLoad(k: State, f: Id) {
    Pending(k, f) && !k.fibers[f].gone && Desired(k, f).Some? && Desired(k, f) != k.fibers[f].failed
  }

  /** Loaded against something that is not usable any more. */
  predicate Stale(k: State, f: Id) {
    Active(k, f) && Desired(k, f).None?
  }

  predicate Under(k: State, f: Id, g: Id) {
    g in k.fibers && f in k.fibers[g].ancestors
  }

  function NamesWithin(k: State, f: Id): set<string> {
    set n | n in k.impls && Under(k, f, k.impls[n].owner)
  }

  // -- what always holds -------------------------------------------------------------------

  ghost predicate PlaceOk(k: State, f: Id)
    requires f in k.fibers
  {
    var p := k.fibers[f].parent;
    && f < k.uids && f in k.fibers[f].ancestors && ROOT in k.fibers[f].ancestors
    && (f != ROOT ==> p < f && p in k.fibers && k.fibers[f].ancestors == k.fibers[p].ancestors + {f})
  }

  ghost predicate TreeOk(k: State) {
    && ROOT in k.fibers && k.fibers[ROOT].ancestors == {ROOT} && Active(k, ROOT)
    && k.fibers[ROOT].plugin.inject == {} && !k.fibers[ROOT].plugin.retires
    && (forall f {:trigger PlaceOk(k, f)} :: f in k.fibers ==> PlaceOk(k, f))
    && (forall f, a {:trigger a in k.fibers[f].ancestors} :: f in k.fibers && a in k.fibers[f].ancestors ==>
          a <= f && a in k.fibers && k.fibers[a].ancestors <= k.fibers[f].ancestors)
  }

  ghost predicate Ascending(s: seq<Id>) {
    forall i, j :: 0 <= i < j < |s| ==> s[i] < s[j]
  }

  ghost predicate AscendingKeys(s: seq<Listener>) {
    forall i, j :: 0 <= i < j < |s| ==> s[i].key < s[j].key
  }

  /** The fiber list holds every fiber but the root, oldest first. */
  ghost predicate ListOk(k: State) {
    && Ascending(k.live)
    && (forall f :: f in k.live <==> f in k.fibers && f != ROOT)
  }

  /** The services table holds exactly the services fibers have in their effects. */
  ghost predicate ServicesOk(k: State) {
    && (forall n {:trigger n in k.impls} :: n in k.impls ==>
          && k.impls[n].owner in k.fibers && k.impls[n].serial < k.serials
          && Provided(n, k.impls[n].serial) in k.fibers[k.impls[n].owner].effects)
    && (forall f, n, s {:trigger Provided(n, s) in k.fibers[f].effects} :: f in k.fibers && Provided(n, s) in k.fibers[f].effects ==> n in k.impls && k.impls[n] == Impl(f, s))
  }

  ghost predicate ListenersOk(k: State) {
    && AscendingKeys(k.listeners)
    && (forall l :: l in k.listeners ==>
          -(k.keys as int) <= l.key < k.keys && l.owner in k.fibers && Listening(l.event, l.key) in k.fibers[l.owner].effects)
    && (forall f, e, key {:trigger Listening(e, key) in k.fibers[f].effects} :: f in k.fibers && Listening(e, key) in k.fibers[f].effects ==> Listener(f, e, key) in k.listeners)
  }

  ghost predicate NoDup<T>(s: seq<T>) {
    forall i, j :: 0 <= i < j < |s| ==> s[i] != s[j]
  }

  ghost predicate ChildOk(k: State, c: Id)
    requires c in k.fibers
  {
    var p := k.fibers[c].parent;
    p in k.fibers && (Mounted(c) in k.fibers[p].effects || IsUnloading(k, p))
  }

  ghost predicate MountedOk(k: State) {
    forall f, c {:trigger Mounted(c) in k.fibers[f].effects} :: f in k.fibers && Mounted(c) in k.fibers[f].effects ==>
      c in k.fibers && c != ROOT && k.fibers[c].parent == f
  }

  /** A child is one of its parent's effects, until the parent undoes it. */
  ghost predicate ChildrenOk(k: State) {
    && MountedOk(k)
    && (forall c {:trigger ChildOk(k, c)} :: c in k.fibers && c != ROOT ==> ChildOk(k, c))
  }

  ghost predicate FiberOk(k: State, f: Id)
    requires f in k.fibers
  {
    var x := k.fibers[f];
    && NoDup(x.effects) && (x.gone ==> x.phase.Rest? && x.loaded.None?)
    && (x.phase.Rest? && x.loaded.None? ==> x.effects == [] && x.store == map[])
    && (x.phase.Rest? && x.loaded.Some? ==> x.loaded == Some(x.store))
    && (x.phase.Loading? ==> x.loaded.None?)
    && (!(x.phase.Rest? && x.loaded.None?) ==> x.store.Keys == x.plugin.inject)
    && (forall m :: m in x.store ==> x.store[m] < k.serials)
    && (f != ROOT && (x.phase.Loading? || (x.phase.Rest? && x.loaded.Some?)) ==> x.effects != [] && x.effects[0] == Own)
  }

  /** Serials tell older from newer: what a provider or an ancestor of it loaded against is
      older than what it provides; and a service still in the table is the one its consumers
      loaded against. */
  ghost predicate SerialsOk(k: State) {
    && (forall n, a, m :: n in k.impls && k.impls[n].owner in k.fibers && a in k.fibers[k.impls[n].owner].ancestors
                          && a in k.fibers && m in k.fibers[a].store ==>
          k.fibers[a].store[m] < k.impls[n].serial)
    && (forall f, m :: f in k.fibers && m in k.fibers[f].store && m in k.impls ==> k.impls[m].serial == k.fibers[f].store[m])
  }

  ghost predicate WellFormed(k: State) {
    && TreeOk(k) && ListOk(k) && ServicesOk(k) && ListenersOk(k) && ChildrenOk(k) && SerialsOk(k)
    && (forall f {:trigger FiberOk(k, f)} :: f in k.fibers ==> FiberOk(k, f))
  }

  // -- single changes ----------------------------------------------------------------------

  function Put(k: State, f: Id, x: Fiber): State {
    k.(fibers := k.fibers[f := x])
  }

  function Begun(x: Fiber, epoch: Epoch): Fiber {
    x.(phase := Loading, error := false, failed := None, store := epoch, effects := [Own])
  }

  function Serving(k: State, f: Id, n: string): State
    requires f in k.fibers
  {
    Put(k, f, k.fibers[f].(effects := k.fibers[f].effects + [Provided(n, k.serials)])).(
      impls := k.impls[n := Impl(f, k.serials)], serials := k.serials + 1)
  }

  function Hearing(k: State, f: Id, event: string, prepend: bool): State
    requires f in k.fibers
  {
    var key := if prepend then -(k.keys as int) - 1 else k.keys;
    var l := Listener(f, event, key);
    Put(k, f, k.fibers[f].(effects := k.fibers[f].effects + [Listening(event, key)])).(
      listeners := if prepend then [l] + k.listeners else k.listeners + [l], keys := k.keys + 1)
  }

  function NewFiber(k: State, parent: Id, p: Plugin): Fiber
    requires parent in k.fibers
  {
    Fiber(p, parent, k.fibers[parent].ancestors + {k.uids}, [], map[], None, None, false, Rest, false)
  }

  function Bearing(k: State, f: Id, p: Plugin): State
    requires f in k.fibers
  {
    var c := k.uids;
    k.(fibers := k.fibers[c := NewFiber(k, f, p)][f := k.fibers[f].(effects := k.fibers[f].effects + [Mounted(c)])],
       live := k.live + [c], uids := k.uids + 1)
  }

  /** Its dispose was requested while it was in transition. */
  predicate Parting(p: Plugin) {
    p.retires || p.leaves
  }

  /** A fiber that has just been unloaded. */
  function Blank(x: Fiber): Fiber {
    x.(effects := [], store := map[], loaded := None, phase := Rest, gone := Parting(x.plugin))
  }

  function Without<T(==,!new)>(s: seq<T>, x: T): (r: seq<T>)
    ensures forall y :: y in r <==> y in s && y != x
  {
    if s == [] then [] else if s[0] == x then Without(s[1..], x) else [s[0]] + Without(s[1..], x)
  }

  /** The last effect of a fiber is taken back. */
  function Undoing(k: State, f: Id): State
    requires f in k.fibers && k.fibers[f].effects != []
  {
    var x := k.fibers[f];
    var e := x.effects[|x.effects| - 1];
    var k1 := Put(k, f, x.(effects := Without(x.effects, e)));
    match e
    case Provided(n, _) => k1.(impls := k.impls - {n})
    case Listening(event, key) => k1.(listeners := Without(k.listeners, Listener(f, event, key)))
    case _ => k1
  }

  /** A fiber leaves for good. */
  function Removing(k: State, f: Id): State
    requires f in k.fibers && k.fibers[f].parent in k.fibers && k.fibers[f].parent != f
  {
    var p := k.fibers[f].parent;
    var up := k.fibers[p].(effects := Without(k.fibers[p].effects, Mounted(f)));
    k.(fibers := k.fibers[p := up] - {f}, live := Without(k.live, f))
  }

  /** Service names that are the context's own API. */
  const RESERVED: set<string> :=
    {"plugin", "provide", "get", "on", "emit", "bail", "waterfall", "effect", "logger", "fiber"}

  predicate Refused(name: string) {
    name in RESERVED || (name != "" && name[0] == '_')
  }

  const ROOT_FIBER := Fiber(Plugin({}, [], false, false), ROOT, {ROOT}, [], map[], Some(map[]), None, false, Rest, false)
}
