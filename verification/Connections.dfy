/** The connection table of one process over time (xous/kernel/src/process.rs, services.rs). */
module Connections {
  import opened Common
  import opened KernelState

  /** What happens to a table: a connection is asked for, a server ends, the process gives a reference back. */
  datatype TableEvent =
    | Opened(sidx: nat, permissions: P.Permissions, born: nat)
    | ServerGone(sidx: nat)
    | ClosedAt(i: nat)

  function After(c: seq<ConnectionSlot>, e: TableEvent): (c': seq<ConnectionSlot>)
    ensures |c'| == |c|
  {
    match e
    case Opened(sidx, permissions, born) => AddConnection(c, sidx, permissions, born).1
    case ServerGone(sidx) => TombstoneConnections(c, sidx).1
    case ClosedAt(i) => if i < |c| then c[i := Released(c[i])] else c
  }

  function AfterAll(c: seq<ConnectionSlot>, es: seq<TableEvent>): (c': seq<ConnectionSlot>)
    ensures |c'| == |c|
    decreases |es|
  {
    if es == [] then c else AfterAll(After(c, es[0]), es[1..])
  }

  /** References that the process holds under slot `i`. */
  function Held(c: seq<ConnectionSlot>, i: nat): nat
    requires i < |c|
  {
    if c[i].FreeSlot? then 0 else c[i].refcount
  }

  /** How often slot `i` is given back. */
  function Closings(es: seq<TableEvent>, i: nat): nat {
    if es == [] then 0 else (if es[0] == ClosedAt(i) then 1 else 0) + Closings(es[1..], i)
  }

  /** Slot `now` still stands for the server that `before` stood for: connected to that server, or its tombstone. */
  predicate SameTarget(before: ConnectionSlot, now: ConnectionSlot) {
    match before
    case FreeSlot => false
    case Tombstone(_) => now.Tombstone?
    case Connected(sidx, _, permissions, born) =>
      now.Tombstone? || (now.Connected? && now.sidx == sidx && now.permissions == permissions && now.born == born)
  }

  lemma KeepsTarget(c: seq<ConnectionSlot>, e: TableEvent, i: nat)
    requires i < |c| && Held(c, i) > (if e == ClosedAt(i) then 1 else 0)
    ensures Held(After(c, e), i) >= Held(c, i) - (if e == ClosedAt(i) then 1 else 0)
    ensures SameTarget(c[i], After(c, e)[i])
  {
  }

  /**
   A connection id is not reassigned while the process holds a reference: as long as it has been
   given back fewer times than there are references, it stands for the same server or its tombstone.
   */
  lemma {:induction false} CidNotReassigned(c: seq<ConnectionSlot>, es: seq<TableEvent>, i: nat)
    requires i < |c| && Closings(es, i) < Held(c, i)
    ensures Held(AfterAll(c, es), i) >= Held(c, i) - Closings(es, i)
    ensures SameTarget(c[i], AfterAll(c, es)[i])
    decreases |es|
  {
    if es == [] {
    } else {
      KeepsTarget(c, es[0], i);
      CidNotReassigned(After(c, es[0]), es[1..], i);
    }
  }

  // ---- Counting references ----------------------------------------------------------------------

  /** The slot that `e` adds a reference to. */
  function OpenedAt(c: seq<ConnectionSlot>, e: TableEvent): Option<nat> {
    match e
    case Opened(sidx, permissions, born) =>
      (match AddConnection(c, sidx, permissions, born).0
       case Ok(cid) => if cid >= 2 then Some(cid - 2) else None
       case Err(_) => None)
    case _ => None
  }

  function Openings(c: seq<ConnectionSlot>, es: seq<TableEvent>, i: nat): nat
    decreases |es|
  {
    if es == [] then 0 else (if OpenedAt(c, es[0]) == Some(i) then 1 else 0) + Openings(After(c, es[0]), es[1..], i)
  }

  ghost predicate CountsOk(c: seq<ConnectionSlot>) {
    forall i | 0 <= i < |c| && !c[i].FreeSlot? :: c[i].refcount >= 1
  }

  /** Slot `i` is only given back while it is in use. */
  ghost predicate Balanced(c: seq<ConnectionSlot>, es: seq<TableEvent>, i: nat)
    decreases |es|
  {
    es != [] ==> (es[0] == ClosedAt(i) ==> i < |c| && !c[i].FreeSlot?) && Balanced(After(c, es[0]), es[1..], i)
  }

  lemma HeldStep(c: seq<ConnectionSlot>, e: TableEvent, i: nat)
    requires CountsOk(c) && i < |c| && (e == ClosedAt(i) ==> !c[i].FreeSlot?)
    ensures CountsOk(After(c, e))
    ensures Held(After(c, e), i) == Held(c, i) +
            (if OpenedAt(c, e) == Some(i) then 1 else 0) - (if e == ClosedAt(i) then 1 else 0)
  {
  }

  /** The reference count of a slot is the number of times it was opened less the number of times it was given back. */
  lemma {:induction false} HeldIsOpenedLessClosed(c: seq<ConnectionSlot>, es: seq<TableEvent>, i: nat)
    requires CountsOk(c) && i < |c| && Balanced(c, es, i)
    ensures Held(AfterAll(c, es), i) == Held(c, i) + Openings(c, es, i) - Closings(es, i)
    decreases |es|
  {
    if es == [] {
    } else {
      HeldStep(c, es[0], i);
      HeldIsOpenedLessClosed(After(c, es[0]), es[1..], i);
    }
  }
}
