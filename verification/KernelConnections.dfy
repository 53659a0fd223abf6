/** The connection tables of the processes over runs of the kernel. */
module KernelConnections {
  import opened KernelState
  import opened KernelInv
  import opened Connections
  import opened KernelRuns
  import opened KernelFrames
  import opened KernelNames

  /** Process `p` is there at every moment of the run. */
  ghost predicate Lives(k: Kernel, es: seq<Event>, p: nat)
    decreases |es|
  {
    p in k.processes && (es != [] ==> Lives(Step(k, es[0]).0, es[1..], p))
  }

  /** What the run does to the table of process `p`. */
  function TableHistory(k: Kernel, es: seq<Event>, p: nat): seq<TableEvent>
    decreases |es|
  {
    if es == [] then [] else TableEvents(k, es[0], p) + TableHistory(Step(k, es[0]).0, es[1..], p)
  }

  lemma {:induction false} AfterBoth(c: seq<ConnectionSlot>, a: seq<TableEvent>, b: seq<TableEvent>)
    ensures AfterAll(c, a + b) == AfterAll(AfterAll(c, a), b)
    decreases |a|
  {
    if a == [] {
      assert a + b == b;
    } else {
      assert (a + b)[0] == a[0] && (a + b)[1..] == a[1..] + b;
      AfterBoth(After(c, a[0]), a[1..], b);
    }
  }

  /** Over any run, the table of a process that lives throughout changes by its own events only. */
  lemma {:induction false} TableOverRun(k: Kernel, es: seq<Event>, p: nat)
    requires Lives(k, es, p) && 1 <= p <= k.limits.processes
    ensures p in Run(k, es).processes && Table(Run(k, es), p) == AfterAll(Table(k, p), TableHistory(k, es, p))
    decreases |es|
  {
    hide Step, TableEvents, AfterAll;
    if es == [] {
      OneEvent(Table(k, p), ServerGone(0));
    } else {
      var k1 := Step(k, es[0]).0;
      StepFrame(k, es[0], p);
      TableOverRun(k1, es[1..], p);
      AfterBoth(Table(k, p), TableEvents(k, es[0], p), TableHistory(k1, es[1..], p));
    }
  }

  /**
   A connection id is not reassigned while its process holds a reference: whatever the kernel does in
   between, as long as the id was closed fewer times than there were references, it stands for the same
   server or its tombstone.
   */
  lemma CidKeptOverRun(k: Kernel, es: seq<Event>, p: nat, i: nat)
    requires Lives(k, es, p) && 1 <= p <= k.limits.processes
    requires i < |Table(k, p)| && Closings(TableHistory(k, es, p), i) < Held(Table(k, p), i)
    ensures |Table(Run(k, es), p)| == |Table(k, p)| && SameTarget(Table(k, p)[i], Table(Run(k, es), p)[i])
    ensures Held(Table(Run(k, es), p), i) >= Held(Table(k, p), i) - Closings(TableHistory(k, es, p), i)
  {
    hide Lives, TableHistory, Run, Held, Closings, SameTarget, Table;
    TableOverRun(k, es, p);
    CidNotReassigned(Table(k, p), TableHistory(k, es, p), i);
  }

  // ---- Counting references ----------------------------------------------------------------------

  /** A reference is given back only to a slot in use. */
  lemma StepBalanced(k: Kernel, e: Event, p: nat, i: nat)
    ensures Balanced(Table(k, p), TableEvents(k, e, p), i)
  {
    hide Gone, ServerIndex;
    if e.SysCall? && e.call.ExitProcess? { GoneBalanced(k, k.current.pid, 0, k.limits.servers, Table(k, p), i); }
    if e.SysCall? && e.call.KillProcess? { GoneBalanced(k, e.call.pid, 0, k.limits.servers, Table(k, p), i); }
  }

  lemma {:induction false} GoneBalanced(k: Kernel, pid: nat, s: nat, n: nat, c: seq<ConnectionSlot>, i: nat)
    ensures Balanced(c, Gone(k, pid, s, n), i)
    decreases n
  {
    if n == 0 {
    } else if s in k.servers && k.servers[s].q.pid == pid {
      assert Gone(k, pid, s, n)[1..] == Gone(k, pid, s + 1, n - 1);
      GoneBalanced(k, pid, s + 1, n - 1, After(c, ServerGone(s)), i);
    } else {
      assert Gone(k, pid, s, n) == Gone(k, pid, s + 1, n - 1);
      GoneBalanced(k, pid, s + 1, n - 1, c, i);
    }
  }

  lemma {:induction false} BalancedBoth(c: seq<ConnectionSlot>, a: seq<TableEvent>, b: seq<TableEvent>, i: nat)
    requires Balanced(c, a, i) && Balanced(AfterAll(c, a), b, i)
    ensures Balanced(c, a + b, i)
    decreases |a|
  {
    if a == [] {
      assert a + b == b;
    } else {
      assert (a + b)[0] == a[0] && (a + b)[1..] == a[1..] + b;
      BalancedBoth(After(c, a[0]), a[1..], b, i);
    }
  }

  lemma {:induction false} RunBalanced(k: Kernel, es: seq<Event>, p: nat, i: nat)
    requires Lives(k, es, p) && 1 <= p <= k.limits.processes
    ensures Balanced(Table(k, p), TableHistory(k, es, p), i)
    decreases |es|
  {
    hide Step, TableEvents, AfterAll;
    if es == [] {
    } else {
      var k1 := Step(k, es[0]).0;
      StepBalanced(k, es[0], p, i);
      StepFrame(k, es[0], p);
      RunBalanced(k1, es[1..], p, i);
      BalancedBoth(Table(k, p), TableEvents(k, es[0], p), TableHistory(k1, es[1..], p), i);
    }
  }

  /**
   From any state with the invariants: the references of a slot are those it had, plus one per
   opening, less one per closing.
   */
  lemma ReferencesOverRun(k: Kernel, es: seq<Event>, p: nat, i: nat)
    requires ConnsOk(k) && Lives(k, es, p) && 1 <= p <= k.limits.processes && i < |Table(k, p)|
    ensures var h := TableHistory(k, es, p);
      && |Table(Run(k, es), p)| == |Table(k, p)|
      && Held(Table(Run(k, es), p), i) == Held(Table(k, p), i) + Openings(Table(k, p), h, i) - Closings(h, i)
  {
    hide TableHistory, Run, Held, Closings, Openings, ConnsOk, CountsOk, Balanced, Table;
    CountsFrom(k, p);
    TableOverRun(k, es, p);
    RunBalanced(k, es, p, i);
    HeldIsOpenedLessClosed(Table(k, p), TableHistory(k, es, p), i);
  }

  lemma CountsFrom(k: Kernel, p: nat)
    requires ConnsOk(k)
    ensures CountsOk(Table(k, p))
  {
    forall i | 0 <= i < |Table(k, p)| && !Table(k, p)[i].FreeSlot? ensures Table(k, p)[i].refcount >= 1 {
      assert ConnAt(k, p, i) == Table(k, p)[i];
    }
  }
}
