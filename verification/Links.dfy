/** The circular doubly linked lists that represent the rings, as a table from thread to link. */
module Links {
  import opened Common
  import opened Rings

  datatype Link = Link(next: Id, prev: Id)

  function Succ(r: seq<Id>, i: nat): Id
    requires i < |r|
  {
    r[if i + 1 == |r| then 0 else i + 1]
  }

  function Pred(r: seq<Id>, i: nat): Id
    requires i < |r|
  {
    r[if i == 0 then |r| - 1 else i - 1]
  }

  ghost predicate LinkedAt(table: map<Id, Link>, r: seq<Id>, i: nat)
    requires i < |r|
  {
    r[i] in table && table[r[i]] == Link(Succ(r, i), Pred(r, i))
  }

  /** `table` links the threads of `r` into one circle, in order. */
  ghost predicate Circle(table: map<Id, Link>, r: seq<Id>) {
    forall i | 0 <= i < |r| :: LinkedAt(table, r, i)
  }

  /** `table` consists of exactly one circle per ring and nothing else. */
  ghost predicate Represents(table: map<Id, Link>, rings: seq<seq<Id>>) {
    && Disjoint(rings)
    && (forall p | 0 <= p < |rings| :: Circle(table, rings[p]))
    && (forall x | x in table :: Linked(rings, x))
  }

  /** The table after linking `x` in before `head`, whose predecessor is the last of the ring. */
  function InsertBefore(table: map<Id, Link>, head: Id, x: Id): map<Id, Link>
    requires head in table && table[head].prev in table
  {
    var last := table[head].prev;
    var t := table[head := table[head].(prev := x)];
    t[last := t[last].(next := x)][x := Link(head, last)]
  }

  /** The table after unlinking `x`. */
  function Unlink(table: map<Id, Link>, x: Id): map<Id, Link>
    requires x in table
    requires table[x].next != x ==> table[x].next in table && table[x].prev in table - {x}
  {
    var Link(next, prev) := table[x];
    var t := table - {x};
    if next == x then t
    else
      var t' := t[prev := t[prev].(next := next)];
      if next in t' then t'[next := t'[next].(prev := prev)] else t'
  }

  lemma CircleAppend(table: map<Id, Link>, r: seq<Id>, x: Id)
    requires Circle(table, r) && NoDup(r) && x !in r && r != []
    ensures LinkedAt(table, r, 0) && table[r[0]].prev == r[|r| - 1] && r[|r| - 1] in table
    ensures Circle(InsertBefore(table, r[0], x), r + [x])
  {
    var n := |r|;
    var r' := r + [x];
    assert LinkedAt(table, r, 0) && LinkedAt(table, r, n - 1);
    assert table[r[0]].prev == r[n - 1];
    var table' := InsertBefore(table, r[0], x);
    forall i | 0 <= i < |r'|
      ensures LinkedAt(table', r', i)
    {
      if i < n {
        assert LinkedAt(table, r, i);
        assert r[i] == r[n - 1] <==> i == n - 1;
        assert r[i] == r[0] <==> i == 0;
      }
    }
  }

  lemma CircleRemove(table: map<Id, Link>, r: seq<Id>, k: nat)
    requires Circle(table, r) && NoDup(r) && k < |r|
    ensures LinkedAt(table, r, k) && (table[r[k]].next == r[k] <==> |r| == 1)
    ensures |r| > 1 ==> table[r[k]].next in table && table[r[k]].prev in table - {r[k]}
    ensures Circle(Unlink(table, r[k]), r[..k] + r[k + 1..])
  {
    var n := |r|;
    var x := r[k];
    var r' := r[..k] + r[k + 1..];
    assert LinkedAt(table, r, k);
    if n > 1 {
      var a := if k == 0 then n - 1 else k - 1;
      var b := if k + 1 == n then 0 else k + 1;
      assert table[x].next == r[b] && table[x].prev == r[a];
      assert r[a] != x && r[b] != x;
      assert LinkedAt(table, r, a) && LinkedAt(table, r, b);
      var table' := Unlink(table, x);
      forall i | 0 <= i < |r'|
        ensures LinkedAt(table', r', i)
      {
        var j := if i < k then i else i + 1;
        assert r'[i] == r[j] && r[j] != x;
        assert LinkedAt(table, r, j);
        assert r[j] == r[a] <==> j == a;
        assert r[j] == r[b] <==> j == b;
      }
    }
  }

  /** Circles through threads that are not touched stay as they are. */
  lemma CircleFrame(table: map<Id, Link>, table': map<Id, Link>, r: seq<Id>)
    requires Circle(table, r)
    requires forall x | x in r :: x in table ==> x in table' && table'[x] == table[x]
    ensures Circle(table', r)
  {
    forall i | 0 <= i < |r|
      ensures LinkedAt(table', r, i)
    {
      assert LinkedAt(table, r, i) && r[i] in r;
    }
  }

  lemma DisjointAppend(rings: seq<seq<Id>>, p: nat, x: Id)
    requires Disjoint(rings) && p < |rings| && !Linked(rings, x)
    ensures Disjoint(rings[p := rings[p] + [x]])
  {
  }

  /** Linking a new thread in at the tail of its ring. */
  lemma RepresentsAppend(table: map<Id, Link>, rings: seq<seq<Id>>, p: nat, x: Id)
    requires Represents(table, rings) && p < |rings| && !Linked(rings, x)
    ensures rings[p] == [] ==> Represents(table[x := Link(x, x)], rings[p := rings[p] + [x]])
    ensures rings[p] != [] ==>
      && rings[p][0] in table && table[rings[p][0]].prev in table
      && Represents(InsertBefore(table, rings[p][0], x), rings[p := rings[p] + [x]])
  {
    var r := rings[p];
    DisjointAppend(rings, p, x);
    if r == [] {
      var table' := table[x := Link(x, x)];
      assert LinkedAt(table', r + [x], 0);
      RepresentsUpdate(table, table', rings, p, r + [x], {x});
    } else {
      CircleAppend(table, r, x);
      RepresentsUpdate(table, InsertBefore(table, r[0], x), rings, p, r + [x], {r[0], r[|r| - 1], x});
    }
  }

  /** Changing one ring, and only links of its threads, keeps the table a set of circles. */
  lemma RepresentsUpdate(table: map<Id, Link>, table': map<Id, Link>, rings: seq<seq<Id>>,
                         p: nat, r': seq<Id>, touched: set<Id>)
    requires Represents(table, rings) && p < |rings|
    requires Disjoint(rings[p := r']) && Circle(table', r')
    requires forall y | y !in touched :: (y in table <==> y in table') && (y in table ==> table'[y] == table[y])
    requires forall y | y in touched :: (y in rings[p] || !Linked(rings, y)) && (y in table' ==> y in r')
    requires forall y | y in rings[p] && y !in touched :: y in r'
    ensures Represents(table', rings[p := r'])
  {
    var rings' := rings[p := r'];
    forall q | 0 <= q < |rings'|
      ensures Circle(table', rings'[q])
    {
      if q != p {
        forall y | y in rings[q]
          ensures y !in touched
        {
        }
        CircleFrame(table, table', rings[q]);
      }
    }
    forall y | y in table'
      ensures Linked(rings', y)
    {
      if y in r' {
        assert y in rings'[p];
      } else {
        var q :| 0 <= q < |rings| && y in rings[q];
        assert y in rings'[q];
      }
    }
  }

  /** The head's successor is the second of its ring. */
  lemma HeadLink(table: map<Id, Link>, rings: seq<seq<Id>>, p: nat)
    requires Represents(table, rings) && p < |rings| && rings[p] != []
    ensures NoDup(rings[p]) && rings[p][0] in table && (|rings[p]| > 1 ==> table[rings[p][0]].next == rings[p][1])
  {
    assert LinkedAt(table, rings[p], 0);
  }

  /** Unlinking a thread, wherever in its ring it sits. */
  lemma RepresentsRemove(table: map<Id, Link>, rings: seq<seq<Id>>, p: nat, x: Id)
    requires Represents(table, rings) && p < |rings| && x in rings[p]
    ensures x in table && (table[x].next == x <==> |rings[p]| == 1)
    ensures table[x].next != x ==> table[x].next in table && table[x].prev in table - {x}
    ensures Represents(Unlink(table, x), rings[p := Remove(rings[p], x)])
  {
    var r := rings[p];
    var k := IndexOf(r, x);
    RemoveFacts(r, x);
    CircleRemove(table, r, k);
    RepresentsUpdate(table, Unlink(table, x), rings, p, Remove(r, x), {x, table[x].next, table[x].prev});
  }

  /** Rotating a ring does not touch the links. */
  lemma RepresentsRotate(table: map<Id, Link>, rings: seq<seq<Id>>, p: nat)
    requires Represents(table, rings) && p < |rings|
    ensures Represents(table, rings[p := Rotate(rings[p])])
    ensures NoDup(rings[p]) && (rings[p] != [] ==>
            rings[p][0] in table && table[rings[p][0]].next == Rotate(rings[p])[0])
  {
    var r := rings[p];
    var r' := Rotate(r);
    RotateFacts(r);
    assert r != [] ==> LinkedAt(table, r, 0);
    forall i | 0 <= i < |r'|
      ensures LinkedAt(table, r', i)
    {
      assert LinkedAt(table, r, if i + 1 == |r| then 0 else i + 1);
    }
    RepresentsUpdate(table, table, rings, p, r', {});
  }
}
