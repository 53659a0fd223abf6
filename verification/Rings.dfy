/**
 The scheduler's meaning: for every priority, the sequence of ready threads in the order in
 which they will be offered the processor.  Position 0 is the queue head.
 */
module Rings {
  import opened Common

  /** Position of `x` in `r`, or `|r|` when it is absent. */
  function IndexOf(r: seq<Id>, x: Id): (k: nat)
    ensures k <= |r|
    ensures k < |r| ==> r[k] == x
    ensures forall i :: 0 <= i < k ==> r[i] != x
  {
    if r == [] || r[0] == x then 0 else 1 + IndexOf(r[1..], x)
  }

  /** `r` without the first occurrence of `x`. */
  function Remove(r: seq<Id>, x: Id): seq<Id> {
    var k := IndexOf(r, x);
    if k == |r| then r else r[..k] + r[k + 1..]
  }

  function Rotate(r: seq<Id>): seq<Id> {
    if r == [] then [] else r[1..] + [r[0]]
  }

  /** `x` becomes ready: it goes to the tail of its ring. */
  function RingAdd(rings: seq<seq<Id>>, p: nat, x: Id): seq<seq<Id>> {
    if p < |rings| then rings[p := rings[p] + [x]] else rings
  }

  /** `x` is parked: it leaves its ring, wherever in it it sits. */
  function RingDrop(rings: seq<seq<Id>>, p: nat, x: Id): seq<seq<Id>> {
    if p < |rings| then rings[p := Remove(rings[p], x)] else rings
  }

  /** `x` yields: if it is the head of its ring, it goes to the tail. */
  function RingYield(rings: seq<seq<Id>>, p: nat, x: Id): seq<seq<Id>> {
    if p < |rings| && rings[p] != [] && rings[p][0] == x then rings[p := Rotate(rings[p])] else rings
  }

  ghost predicate NoDup(r: seq<Id>) {
    forall i, j | 0 <= i < |r| && 0 <= j < |r| :: r[i] == r[j] ==> i == j
  }

  /** No thread occurs twice, neither within one ring nor in two different rings. */
  ghost predicate Disjoint(rings: seq<seq<Id>>) {
    && (forall p | 0 <= p < |rings| :: NoDup(rings[p]))
    && (forall p, q, x: Id | 0 <= p < |rings| && 0 <= q < |rings| :: x in rings[p] && x in rings[q] ==> p == q)
  }

  ghost predicate Linked(rings: seq<seq<Id>>, x: Id) {
    exists p | 0 <= p < |rings| :: x in rings[p]
  }

  /** The greatest priority below `n` with a non-empty ring, 0 if there is none. */
  function HighestBelow(rings: seq<seq<Id>>, n: nat): (h: nat)
    requires n <= |rings|
    ensures h == 0 || h < n
    ensures h != 0 ==> rings[h] != []
    ensures forall p :: h < p < n ==> rings[p] == []
  {
    if n == 0 then 0
    else if rings[n - 1] != [] then n - 1
    else HighestBelow(rings, n - 1)
  }

  /** Number of threads in the first `n` rings. */
  function Count(rings: seq<seq<Id>>, n: nat): nat
    requires n <= |rings|
  {
    if n == 0 then 0 else Count(rings, n - 1) + |rings[n - 1]|
  }

  /** Removing a thread leaves the other threads in their order. */
  lemma RemoveFacts(r: seq<Id>, x: Id)
    requires NoDup(r) && x in r
    ensures |Remove(r, x)| == |r| - 1 && NoDup(Remove(r, x))
    ensures forall y :: y in Remove(r, x) <==> y in r && y != x
    ensures |r| > 1 ==> Remove(r, x)[0] == if r[0] == x then r[1] else r[0]
  {
    var k := IndexOf(r, x);
    var r' := Remove(r, x);
    assert r[k] == x;
    forall y
      ensures y in r' <==> y in r && y != x
    {
      if y in r && y != x {
        var j :| 0 <= j < |r| && r[j] == y;
        assert r'[if j < k then j else j - 1] == y;
      }
    }
  }

  lemma RotateFacts(r: seq<Id>)
    requires NoDup(r)
    ensures |Rotate(r)| == |r| && NoDup(Rotate(r))
    ensures forall y :: y in Rotate(r) <==> y in r
  {
    var r' := Rotate(r);
    forall y
      ensures y in r' <==> y in r
    {
      if y in r {
        var j :| 0 <= j < |r| && r[j] == y;
        assert r'[if j == 0 then |r| - 1 else j - 1] == y;
      }
    }
  }

  /** The cached priority is determined by which rings are non-empty. */
  lemma HighestUnique(rings: seq<seq<Id>>, n: nat, h: nat)
    requires n <= |rings| && (h == 0 || (h < n && rings[h] != []))
    requires forall p | h < p < n :: rings[p] == []
    ensures HighestBelow(rings, n) == h
  {
  }
}
