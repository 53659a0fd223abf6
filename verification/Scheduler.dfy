/**
 Per-priority circular doubly linked lists, stored in a table of optional links indexed by
 process and thread, with a cached highest ready priority (xous/kernel/src/scheduler.rs).
 */
module Scheduling {
  import opened Common
  import opened Rings
  import opened Links

  const NUM_PRIORITIES: nat := 16
  const IRQ_TID: nat := 0

  class Scheduler {
    const maxProcesses: nat
    const maxThreads: nat
    const queueHeads: array<Option<Id>>
    const links: array2<Option<Link>>
    var highestReadyPriority: nat
    var inIrqHandler: bool

    /** The link table as a map, and the sequence per priority that it represents. */
    ghost var table: map<Id, Link>
    ghost var rings: seq<seq<Id>>

    predicate InRange(x: Id) {
      1 <= x.pid <= maxProcesses && 1 <= x.tid <= maxThreads
    }

    ghost predicate TableOk()
      reads this, links
    {
      && links.Length0 == maxProcesses && links.Length1 == maxThreads
      && (forall x | x in table :: InRange(x))
      && (forall x: Id | InRange(x) ::
            links[x.pid - 1, x.tid - 1] == if x in table then Some(table[x]) else None)
    }

    ghost predicate HeadsOk()
      reads this, queueHeads
    {
      && queueHeads.Length == NUM_PRIORITIES == |rings|
      && (forall p | 0 <= p < NUM_PRIORITIES ::
            queueHeads[p] == if rings[p] == [] then None else Some(rings[p][0]))
    }

    ghost predicate Valid()
      reads this, queueHeads, links
    {
      TableOk() && HeadsOk() && Represents(table, rings) &&
      highestReadyPriority == HighestBelow(rings, NUM_PRIORITIES)
    }

    constructor (maxProcesses: nat, maxThreads: nat)
      ensures Valid() && fresh(queueHeads) && fresh(links)
      ensures this.maxProcesses == maxProcesses && this.maxThreads == maxThreads
      ensures rings == seq(NUM_PRIORITIES, _ => []) && !inIrqHandler
    {
      this.maxProcesses, this.maxThreads := maxProcesses, maxThreads;
      queueHeads := new Option<Id>[NUM_PRIORITIES](_ => None);
      links := new Option<Link>[maxProcesses, maxThreads]((_, _) => None);
      highestReadyPriority, inIrqHandler := 0, false;
      rings, table := seq(NUM_PRIORITIES, _ => []), map[];
    }

    method LinkCopy(x: Id) returns (link: Option<Link>)
      requires TableOk() && InRange(x)
      ensures link == if x in table then Some(table[x]) else None
    {
      link := links[x.pid - 1, x.tid - 1];
    }

    method SetLink(x: Id, link: Option<Link>)
      requires TableOk() && InRange(x)
      modifies this`table, links
      ensures TableOk()
      ensures table == if link.Some? then old(table)[x := link.value] else old(table) - {x}
    {
      links[x.pid - 1, x.tid - 1] := link;
      table := if link.Some? then table[x := link.value] else table - {x};
    }

    /** Links `x` in between the last thread of the ring and its `head`. */
    method LinkLast(head: Id, x: Id)
      requires TableOk() && InRange(x)
      requires head in table && table[head].prev in table
      modifies this`table, links
      ensures TableOk() && table == InsertBefore(old(table), head, x)
    {
      var headLink := LinkCopy(head);
      SetLink(head, Some(headLink.value.(prev := x)));
      var last := headLink.value.prev;
      var lastLink := LinkCopy(last);
      SetLink(last, Some(lastLink.value.(next := x)));
      SetLink(x, Some(Link(head, last)));
    }

    /** Takes `x` out of the table and makes its neighbours point at each other. */
    method UnlinkThread(x: Id) returns (link: Link)
      requires TableOk() && x in table
      requires table[x].next != x ==> table[x].next in table && table[x].prev in table - {x}
      modifies this`table, links
      ensures TableOk() && link == old(table)[x] && table == Unlink(old(table), x)
    {
      var taken := LinkCopy(x);
      link := taken.value;
      SetLink(x, None);
      if link.next != x {
        var prev := LinkCopy(link.prev);
        SetLink(link.prev, Some(prev.value.(next := link.next)));
        var next := LinkCopy(link.next);
        SetLink(link.next, Some(next.value.(prev := link.prev)));
      }
    }

    /** Takes `x` out of the queue whose ring it is in; `next` follows it there. */
    method DropFromQueue(x: Id, priority: nat, next: Id)
      requires HeadsOk() && priority < NUM_PRIORITIES
      requires highestReadyPriority == HighestBelow(rings, NUM_PRIORITIES)
      requires NoDup(rings[priority]) && x in rings[priority]
      requires next == x <==> |rings[priority]| == 1
      requires rings[priority][0] == x && next != x ==> next == rings[priority][1]
      modifies this`rings, this`highestReadyPriority, queueHeads
      ensures HeadsOk() && highestReadyPriority == HighestBelow(rings, NUM_PRIORITIES)
      ensures rings == old(rings)[priority := Remove(old(rings)[priority], x)]
    {
      RemoveFacts(rings[priority], x);
      rings := rings[priority := Remove(rings[priority], x)];
      if next == x {
        queueHeads[priority] := None;
        if priority == highestReadyPriority {
          highestReadyPriority := HighestHead(priority);
        }
      } else if queueHeads[priority] == Some(x) {
        queueHeads[priority] := Some(next);
      }
      HighestUnique(rings, NUM_PRIORITIES, highestReadyPriority);
    }

    method ReadyThread(x: Id, priority: nat)
      requires Valid() && priority < NUM_PRIORITIES
      requires x.tid == IRQ_TID ==> !inIrqHandler
      requires x.tid != IRQ_TID ==> InRange(x) && !Linked(rings, x)
      modifies this, queueHeads, links
      ensures Valid()
      ensures x.tid == IRQ_TID ==> inIrqHandler && rings == old(rings)
      ensures x.tid != IRQ_TID ==>
        inIrqHandler == old(inIrqHandler) && rings == RingAdd(old(rings), priority, x)
    {
      hide Represents, Linked, InsertBefore;
      if x.tid == IRQ_TID {
        inIrqHandler := true;
        return;
      }
      RepresentsAppend(table, rings, priority, x);
      match queueHeads[priority] {
        case None =>
          queueHeads[priority] := Some(x);
          if highestReadyPriority < priority {
            highestReadyPriority := priority;
          }
          SetLink(x, Some(Link(x, x)));
        case Some(head) =>
          LinkLast(head, x);
      }
      rings := rings[priority := rings[priority] + [x]];
      HighestUnique(rings, NUM_PRIORITIES, highestReadyPriority);
    }

    method ParkThread(x: Id, priority: nat)
      requires Valid() && priority < NUM_PRIORITIES
      requires x.tid == IRQ_TID ==> inIrqHandler
      requires x.tid != IRQ_TID ==> x in rings[priority]
      modifies this, queueHeads, links
      ensures Valid()
      ensures x.tid == IRQ_TID ==> !inIrqHandler && rings == old(rings)
      ensures x.tid != IRQ_TID ==>
        inIrqHandler == old(inIrqHandler) && rings == RingDrop(old(rings), priority, x)
    {
      hide Represents, Linked, Unlink, NoDup, Remove;
      if x.tid == IRQ_TID {
        inIrqHandler := false;
        return;
      }
      HeadLink(table, rings, priority);
      RepresentsRemove(table, rings, priority, x);
      var link := UnlinkThread(x);
      DropFromQueue(x, priority, link.next);
    }

    /** The greatest priority below `n` whose queue has a head, 0 if there is none. */
    method HighestHead(n: nat) returns (h: nat)
      requires HeadsOk() && n <= NUM_PRIORITIES
      ensures h == HighestBelow(rings, n)
    {
      h := n;
      while h > 0 && queueHeads[h - 1].None?
        invariant 0 <= h <= n
        invariant HighestBelow(rings, n) == HighestBelow(rings, h)
      {
        h := h - 1;
      }
      h := if h == 0 then 0 else h - 1;
    }

    method YieldThread(x: Id, priority: nat)
      requires Valid() && priority < NUM_PRIORITIES
      modifies this`rings, queueHeads
      ensures Valid()
      ensures rings == RingYield(old(rings), priority, x)
    {
      hide Represents, Linked, NoDup;
      if queueHeads[priority] == Some(x) {
        RepresentsRotate(table, rings, priority);
        RotateFacts(rings[priority]);
        var link := LinkCopy(x);
        queueHeads[priority] := Some(link.value.next);
        rings := rings[priority := Rotate(rings[priority])];
        HighestUnique(rings, NUM_PRIORITIES, highestReadyPriority);
      }
    }
  }
}
