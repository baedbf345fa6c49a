/** The order an event is dispatched in. The bus keeps one list per event; here the listeners of
    all events are one list, of which an event's list is the part with its name. */
module KernelEvents {
  import opened Models
  import opened KernelState

  /** The event's own list, in the order its listeners are called. */
  function Audience(s: seq<Listener>, event: string): seq<Listener> {
    if s == [] then [] else if s[0].event == event then [s[0]] + Audience(s[1..], event) else Audience(s[1..], event)
  }

  /** How many listeners were registered before it. */
  function Turn(l: Listener): nat {
    if l.key < 0 then -l.key - 1 else l.key
  }

  predicate Prepended(l: Listener) {
    l.key < 0
  }

  /** `a` is called before `b`: of the prepended ones the newest first, then the others, oldest
      first. */
  predicate Precedes(a: Listener, b: Listener) {
    if Prepended(a) then Prepended(b) ==> Turn(b) < Turn(a) else !Prepended(b) && Turn(a) < Turn(b)
  }

  /** Whoever registered for the event and has not taken it back is called, once, in its place. */
  lemma DispatchOrder(k: State, event: string)
    requires ListenersOk(k)
    ensures var order := Audience(k.listeners, event);
      && (forall l: Listener :: l in order <==>
            l.event == event && l.owner in k.fibers && Listening(event, l.key) in k.fibers[l.owner].effects)
      && (forall i, j :: 0 <= i < j < |order| ==> Precedes(order[i], order[j]))
  {
    AudienceIs(k.listeners, event);
    forall l: Listener | l.event == event && l.owner in k.fibers && Listening(event, l.key) in k.fibers[l.owner].effects
      ensures l in k.listeners
    {
      assert l == Listener(l.owner, event, l.key);
    }
  }

  lemma {:induction false} AudienceIs(s: seq<Listener>, event: string)
    requires AscendingKeys(s)
    ensures AscendingKeys(Audience(s, event))
    ensures forall l :: l in Audience(s, event) <==> l in s && l.event == event
  {
    if s != [] {
      AudienceIs(s[1..], event);
      assert s == [s[0]] + s[1..];
      assert forall l :: l in s[1..] ==> s[0].key < l.key;
    }
  }

  lemma {:induction false} AudienceOfBoth(s: seq<Listener>, t: seq<Listener>, event: string)
    ensures Audience(s + t, event) == Audience(s, event) + Audience(t, event)
  {
    if s == [] {
      assert s + t == t;
    } else {
      assert (s + t)[1..] == s[1..] + t;
      AudienceOfBoth(s[1..], t, event);
    }
  }

  /** Taking a listener back takes it out of its own event's list and leaves the others alone. */
  lemma {:induction false} AudienceWithout(s: seq<Listener>, l: Listener, event: string)
    ensures Audience(Without(s, l), event)
         == if event == l.event then Without(Audience(s, event), l) else Audience(s, event)
  {
    if s != [] {
      AudienceWithout(s[1..], l, event);
      if s[0] != l {
        assert ([s[0]] + Without(s[1..], l))[1..] == Without(s[1..], l);
      }
      if s[0].event == event {
        assert ([s[0]] + Audience(s[1..], event))[1..] == Audience(s[1..], event);
      }
    }
  }
}
