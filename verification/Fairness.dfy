/** How long a ready thread can be bypassed by the other threads of its ring. */
module Fairness {
  import opened Common
  import opened Rings

  /** What can happen to one ring: a thread becomes ready, is parked, or yields. */
  datatype Event = Arrive(who: Id) | Depart(who: Id) | Yield(who: Id)

  function Apply(r: seq<Id>, e: Event): seq<Id> {
    match e
    case Arrive(y) => r + [y]
    case Depart(y) => Remove(r, y)
    case Yield(y) => if r != [] && r[0] == y then Rotate(r) else r
  }

  predicate HeadYields(r: seq<Id>, e: Event) {
    r != [] && e == Yield(r[0])
  }

  lemma PlaceIs(r: seq<Id>, x: Id, i: nat)
    requires i < |r| && r[i] == x && forall j | 0 <= j < i :: r[j] != x
    ensures IndexOf(r, x) == i
  {
    hide IndexOf;
  }

  lemma PrefixPlace(r: seq<Id>, r': seq<Id>, x: Id)
    requires r <= r' && x in r
    ensures x in r' && IndexOf(r', x) == IndexOf(r, x)
  {
    hide IndexOf;
    var i := IndexOf(r, x);
    assert r[i] == x && r'[i] == x;
    PlaceIs(r', x, i);
  }

  lemma RemovePlace(r: seq<Id>, x: Id, y: Id)
    requires x in r && x != y
    ensures x in Remove(r, y)
    ensures IndexOf(Remove(r, y), x) == if IndexOf(r, y) < IndexOf(r, x) then IndexOf(r, x) - 1 else IndexOf(r, x)
  {
    hide IndexOf;
    var i, j := IndexOf(r, x), IndexOf(r, y);
    assert r[i] == x;
    if j < |r| {
      var r' := Remove(r, y);
      var m := if j < i then i - 1 else i;
      assert r'[m] == x;
      assert forall u | 0 <= u < m :: r'[u] == r[if u < j then u else u + 1];
      PlaceIs(r', x, m);
    }
  }

  lemma RotatePlace(r: seq<Id>, x: Id)
    requires x in r && r[0] != x
    ensures x in Rotate(r) && IndexOf(Rotate(r), x) == IndexOf(r, x) - 1
  {
    hide IndexOf;
    var i := IndexOf(r, x);
    assert r[i] == x && Rotate(r)[i - 1] == x;
    assert forall u | 0 <= u < i - 1 :: Rotate(r)[u] == r[u + 1];
    PlaceIs(Rotate(r), x, i - 1);
  }

  /** No event moves a waiting thread back; a yield of the head moves it exactly one place forward. */
  lemma DistanceStep(r: seq<Id>, x: Id, e: Event)
    requires x in r && r[0] != x && e != Depart(x)
    ensures x in Apply(r, e)
    ensures IndexOf(Apply(r, e), x) <= IndexOf(r, x)
    ensures HeadYields(r, e) ==> IndexOf(Apply(r, e), x) == IndexOf(r, x) - 1
    ensures e.Arrive? ==> IndexOf(Apply(r, e), x) == IndexOf(r, x)
  {
    hide IndexOf, Remove, Rotate;
    match e
    case Arrive(y) => PrefixPlace(r, r + [y], x);
    case Depart(y) => RemovePlace(r, x, y);
    case Yield(y) => if r[0] == y { RotatePlace(r, x); }
  }

  /** A run during which `x` stays linked and waits: it is not the head when an event happens. */
  ghost predicate Waits(r: seq<Id>, x: Id, events: seq<Event>)
    decreases |events|
  {
    events == [] ||
    (r != [] && r[0] != x && events[0] != Depart(x) &&
     Waits(Apply(r, events[0]), x, events[1..]))
  }

  function Run(r: seq<Id>, events: seq<Event>): seq<Id>
    decreases |events|
  {
    if events == [] then r else Run(Apply(r, events[0]), events[1..])
  }

  /** How often the thread at the head yielded during the run. */
  function Bypasses(r: seq<Id>, events: seq<Event>): nat
    decreases |events|
  {
    if events == [] then 0
    else (if HeadYields(r, events[0]) then 1 else 0) + Bypasses(Apply(r, events[0]), events[1..])
  }

  /**
   Bounded bypass: whatever arrives, leaves and yields meanwhile, every yield of the head brings
   `x` closer, so a ring of n threads sees at most n - 1 of them before `x` is the head; and after
   as many as there were threads ahead of it, it is.
   */
  lemma {:induction false} BoundedBypass(r: seq<Id>, x: Id, events: seq<Event>)
    requires x in r && Waits(r, x, events)
    ensures x in Run(r, events)
    ensures Bypasses(r, events) + IndexOf(Run(r, events), x) <= IndexOf(r, x) <= |r| - 1
    ensures Bypasses(r, events) == IndexOf(r, x) ==> Run(r, events)[0] == x
    decreases |events|
  {
    if events == [] {
    } else {
      DistanceStep(r, x, events[0]);
      BoundedBypass(Apply(r, events[0]), x, events[1..]);
    }
  }
}
