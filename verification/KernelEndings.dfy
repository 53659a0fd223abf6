/** What is left when a server or a process has ended. */
module KernelEndings {
  import opened Common
  import opened ServerQueue
  import opened KernelState
  import opened KernelSteps
  import opened KernelInv
  import opened KernelMessages
  import opened KernelCalls
  import opened KernelActivate
  import opened KernelTables
  import opened KernelDestroy
  import opened KernelExit
  import opened KernelEffects
  import opened KernelRuns
  import opened KernelTheorems

  // ---- Connections ------------------------------------------------------------------------------

  /** A slot after the end of server `sidx`: a connection to it keeps its references as a tombstone. */
  function Buried(slot: ConnectionSlot, sidx: nat): ConnectionSlot {
    if slot.Connected? && slot.sidx == sidx then Tombstone(slot.refcount) else slot
  }

  lemma TombstoneOneExact(k: Kernel, sidx: nat, pid: nat)
    requires Base(k) && Ipc(k, None) && ConnsBut(k, sidx, pid) && sidx !in k.servers && pid in k.processes
    ensures forall p: nat, c: nat :: ConnAt(TombstoneOne(k, sidx, pid), p, c) ==
              if p == pid then Buried(ConnAt(k, p, c), sidx) else ConnAt(k, p, c)
  {
    hide Base, Ipc, SendEvent, Calm, OrphansStay;
    var c0 := k.processes[pid].connections;
    assert forall i | 0 <= i < |c0| :: c0[i] == ConnAt(k, pid, i);
    var (cid, c) := TombstoneConnections(c0, sidx);
    SetConnectionsAt(k, pid, c);
    assert forall i | 0 <= i < |c| :: c[i] == Buried(c0[i], sidx);
    if cid.Some? {
      var k1 := SetConnections(k, pid, c);
      SetConnectionsQuiet(k, pid, c);
      SetConnectionsIpc(k, pid, c, None);
      SendEventOk(k1, pid, Disconnected, cid.value);
      TameConns(k1, SendEvent(k1, pid, Disconnected, cid.value));
    }
  }

  lemma TameConns(k: Kernel, k': Kernel)
    requires Tame(k, k')
    ensures forall p: nat, c: nat :: ConnAt(k', p, c) == ConnAt(k, p, c)
  {
  }

  lemma {:induction false} TombstoneFromExact(k: Kernel, sidx: nat, pid: nat, n: nat)
    requires Base(k) && Ipc(k, None) && ConnsBut(k, sidx, pid) && sidx !in k.servers
    ensures forall p: nat, c: nat :: ConnAt(TombstoneFrom(k, sidx, pid, n), p, c) ==
              if pid <= p < pid + n then Buried(ConnAt(k, p, c), sidx) else ConnAt(k, p, c)
    decreases n
  {
    hide Base, Ipc, ConnsBut, Calm, SendEvent, SetConnections, TombstoneConnections, OrphansStay, ConnAt;
    if n == 0 {
    } else {
      if pid !in k.processes {
        ConnsButSkip(k, sidx, pid);
        TombstoneFromExact(k, sidx, pid + 1, n - 1);
        NoConns(k, pid);
      } else {
        var k1 := TombstoneOne(k, sidx, pid);
        TombstoneOneOk(k, sidx, pid);
        TombstoneOneExact(k, sidx, pid);
        CalmServers(k, k1, sidx);
        TombstoneFromExact(k1, sidx, pid + 1, n - 1);
      }
    }
  }

  lemma NoConns(k: Kernel, pid: nat)
    requires pid !in k.processes
    ensures forall c: nat :: ConnAt(k, pid, c) == FreeSlot
  {
  }

  /** The end of a server turns every connection to it, in every process, into a tombstone, and touches no other. */
  lemma DestroyBuriesConnections(k: Kernel, sidx: nat)
    requires Base(k) && Ipc(k, None) && ConnsOk(k) && sidx in k.servers && k.servers[sidx].q.pid == k.current.pid
    ensures forall p: nat, c: nat :: ConnAt(DestroySidx(k, sidx), p, c) == Buried(ConnAt(k, p, c), sidx)
  {
    assert forall p: nat, c: nat | ConnAt(k, p, c) != FreeSlot :: 1 <= p <= k.limits.processes;
    hide Base, Ipc, ConnsOk, ConnsBut, Calm, TombstoneFrom, WakeClients, WakeReceivers, ConnAt;
    WokenOk(k, sidx);
    WokenConns(k, sidx);
    TombstoneFromExact(Woken(k, sidx), sidx, 1, k.limits.processes);
  }

  lemma WokenConns(k: Kernel, sidx: nat)
    requires Base(k) && Ipc(k, None) && ConnsOk(k) && sidx in k.servers && k.servers[sidx].q.pid == k.current.pid
    ensures forall p: nat, c: nat :: ConnAt(Woken(k, sidx), p, c) == ConnAt(k, p, c)
  {
    hide Base, Ipc, ConnsOk, ConnsBut, Calm, Woken, Quiet, Tame, ConnAt;
    var k1 := k.(servers := k.servers - {sidx});
    RemovedRest(k, sidx);
    WokenQuiet(k, sidx);
    QuietIsTame(k1, Woken(k, sidx));
    TameConns(k1, Woken(k, sidx));
    ConnsIgnoreServers(k, sidx);
  }

  lemma ConnsIgnoreServers(k: Kernel, sidx: nat)
    ensures forall p: nat, c: nat :: ConnAt(k.(servers := k.servers - {sidx}), p, c) == ConnAt(k, p, c)
  {
  }

  /** A connection leads to the server with the id that was asked for. */
  lemma ConnectLeadsToServer(k: Kernel, sid: nat)
    requires k.current.pid in k.processes && Connect(k, k.current.pid, sid).1.Returned?
    ensures var (k', r) := Connect(k, k.current.pid, sid);
      && r.reply.Value? && |r.reply.words| == 1 && Lookup(k', r.reply.words[0]).Ok?
      && Lookup(k', r.reply.words[0]).value in k'.servers && k'.servers[Lookup(k', r.reply.words[0]).value].q.sid == sid
  {
  }

  // ---- Clients of a dead server -----------------------------------------------------------------

  lemma ReadyStays(k: Kernel, k': Kernel, x: Id)
    requires Quiet(k, k') && IsReady(k, x)
    ensures IsReady(k', x)
  {
  }

  lemma WokenIsReady(k: Kernel, x: Id)
    requires x in k.threads
    ensures IsReady(SetResult(SetState(k, x, Ready), x, Failed(ServerNotFound)), x)
  {
  }

  lemma {:induction false} ClientsReady(k: Kernel, queue: seq<QueuedMessage>, i: nat)
    requires Base(k) && ClientsWakeable(k, queue) && i < |queue| && queue[i].Names().Some? &&
             queue[i].Names().value in k.threads
    ensures IsReady(WakeClients(k, queue), queue[i].Names().value)
    decreases |queue|
  {
    hide Base, Quiet, SetState, SetResult, Wakeable, IsReady;
    var n := queue[0].Names();
    var k1 := match n case None => k case Some(x) => SetResult(SetState(k, x, Ready), x, Failed(ServerNotFound));
    QuietRefl(k);
    if n.Some? { WakeFailedOk(k, n.value); }
    forall j | 0 <= j < |queue[1..]| && queue[1..][j].Names().Some?
      ensures Wakeable(k1, queue[1..][j].Names().value)
    {
      QuietWakeable(k, k1, queue[j + 1].Names().value);
    }
    if i == 0 {
      WokenIsReady(k, n.value);
      WakeClientsOk(k1, queue[1..]);
      ReadyStays(k1, WakeClients(k1, queue[1..]), n.value);
    } else {
      assert queue[i].Names().value in k1.threads by { QuietKeys(k, k1); }
      assert queue[1..][i - 1] == queue[i];
      ClientsReady(k1, queue[1..], i - 1);
    }
  }

  lemma QuietKeys(k: Kernel, k': Kernel)
    requires Quiet(k, k')
    ensures k'.threads.Keys == k.threads.Keys
  {
  }

  lemma CalmReady(k: Kernel, k': Kernel, x: Id)
    requires Calm(k, k') && IsReady(k, x)
    ensures IsReady(k', x)
  {
  }

  /** In the table without the server, its client is ready and still waits for a reply. */
  lemma WokenClient(k: Kernel, sidx: nat, i: nat, x: Id)
    requires Base(k) && Ipc(k, None) && ConnsOk(k) && sidx in k.servers && k.servers[sidx].q.pid == k.current.pid
    requires NameAt(k, sidx, i) == Some(x)
    ensures IsReady(Woken(k, sidx), x) && AwaitsReply(Woken(k, sidx), x)
  {
    var q := k.servers[sidx].q;
    var k1 := k.(servers := k.servers - {sidx});
    assert AwaitsReply(k, x) && AwaitsReply(k1, x) && q.queue[i].Names() == Some(x);
    hide Base, Ipc, ConnsOk, ConnsBut, Calm, Quiet, WakeClients, WakeReceivers, ClientsWakeable, Wakeable, IsReady;
    RemovedRest(k, sidx);
    WaitersWakeable(k, sidx);
    RemovedClients(k, sidx, q.queue);
    ClientsReady(k1, q.queue, i);
    WakeClientsOk(k1, q.queue);
    var k2 := WakeClients(k1, q.queue);
    forall u | u in q.readyThreads
      ensures Wakeable(k2, Id(q.pid, u))
    {
      RemovedClient(k, sidx, Id(q.pid, u));
      QuietWakeable(k1, k2, Id(q.pid, u));
    }
    WakeReceiversOk(k2, q.pid, q.readyThreads, 0);
    ReadyStays(k2, WakeReceivers(k2, q.pid, q.readyThreads, 0), x);
    WokenQuiet(k, sidx);
    QuietOrphans(k1, Woken(k, sidx));
  }

  lemma RemovedClient(k: Kernel, sidx: nat, x: Id)
    requires Wakeable(k, x)
    ensures Wakeable(k.(servers := k.servers - {sidx}), x)
  {
  }

  lemma RemovedClients(k: Kernel, sidx: nat, queue: seq<QueuedMessage>)
    requires ClientsWakeable(k, queue)
    ensures ClientsWakeable(k.(servers := k.servers - {sidx}), queue)
  {
  }

  /**
   A client that waits for a reply when its server is destroyed does not get one: it is made ready, but
   its call is left unfinished, no slot names it any more, and choosing a thread parks it again.
   */
  lemma ClientsAreStranded(k: Kernel, sidx: nat, i: nat, x: Id)
    requires Base(k) && Ipc(k, None) && ConnsOk(k) && sidx in k.servers && k.servers[sidx].q.pid == k.current.pid
    requires NameAt(k, sidx, i) == Some(x)
    ensures var k' := DestroySidx(k, sidx);
      && IsReady(k', x) && Stranded(k', x) && FuturePending(k', x, WaitBlocking)
  {
    var k1, k' := Woken(k, sidx), DestroySidx(k, sidx);
    hide Base, Ipc, ConnsOk, ConnsBut, Woken, DestroySidx, IsReady, NameAt, Unnamed, Orphan, Calm;
    WokenClient(k, sidx, i, x);
    WokenOk(k, sidx);
    DestroyOk(k, sidx);
    DestroyAfterWoken(k, sidx);
    CalmReady(k1, k', x);
    NamedNoMore(k, k', sidx, i, x);
  }

  lemma NamedNoMore(k: Kernel, k': Kernel, sidx: nat, i: nat, x: Id)
    requires Ipc(k, None) && Calm(k, k') && sidx !in k'.servers && NameAt(k, sidx, i) == Some(x)
    ensures Unnamed(k', x)
  {
    assert forall r, j | NameAt(k', r, j) == Some(x) :: NameAt(k, r, j) == Some(x) && r != sidx;
  }

  lemma DestroyAfterWoken(k: Kernel, sidx: nat)
    requires Base(k) && Ipc(k, None) && ConnsOk(k) && sidx in k.servers && k.servers[sidx].q.pid == k.current.pid
    ensures Calm(Woken(k, sidx), DestroySidx(k, sidx))
  {
    hide Base, Ipc, ConnsOk, ConnsBut, Calm, TombstoneFrom, WakeClients, WakeReceivers;
    WokenOk(k, sidx);
    TombstoneFromOk(Woken(k, sidx), sidx, 1, k.limits.processes);
  }

  lemma CloseDestroys(k: Kernel, sid: nat)
    requires k.current.tid != IRQ_TID && ServerIndex(k, sid, Some(k.current.pid), 0) < k.limits.servers
    ensures Step(k, SysCall(CloseServer(sid))).0 == DestroySidx(k, ServerIndex(k, sid, Some(k.current.pid), 0))
  {
    hide DestroySidx, ServerIndex;
  }

  /**
   It stays so: after the call that closes the server, the client waits for a reply that no slot can
   bring it in every later state of every run, as long as its process lives.
   */
  lemma ClientsStayStranded(k: Kernel, sid: nat, i: nat, x: Id, es: seq<Event>)
    requires Sound(k) && k.current.tid != IRQ_TID && ServerIndex(k, sid, Some(k.current.pid), 0) < k.limits.servers
    requires NameAt(k, ServerIndex(k, sid, Some(k.current.pid), 0), i) == Some(x)
    requires var k1 := Step(k, SysCall(CloseServer(sid))).0;
      SoundRun(k1, es) && Lives(k1, es, x.pid)
    ensures Stranded(Run(Step(k, SysCall(CloseServer(sid))).0, es), x)
  {
    var s := ServerIndex(k, sid, Some(k.current.pid), 0);
    hide Base, Ipc, IdleOk, ConnsOk, CurrentOk, NoStale, SoundRun, Lives, Run, DestroySidx, Stranded, NameAt, Step,
         NoNewWaits, Stays;
    CloseDestroys(k, sid);
    ClientsAreStranded(k, s, i, x);
    DestroyInv(k, s);
    StrandedForever(DestroySidx(k, s), es, x);
  }

  // ---- The end of a process ---------------------------------------------------------------------

  /** After its end nothing of a process is left: not in the process, thread or server table, and no slot names it. */
  lemma ExitLeavesNothing(k: Kernel, code: nat)
    requires Inv(k) && !k.inIrq && k.current.pid in k.processes && k.current.pid != KERNEL_PID
    ensures var k', pid := TerminateCurrent(k, code).0, k.current.pid;
      && pid !in k'.processes && (forall x | x in k'.threads :: x.pid != pid)
      && (forall s | s in k'.servers :: k'.servers[s].q.pid != pid)
      && (forall s, i | NameAt(k', s, i).Some? :: NameAt(k', s, i).value.pid != pid)
  {
    hide Base, Ipc, IdleOk, ConnsOk, NoStale, CurrentOk, NoNewWaits, Stays, TerminateCurrent, NameAt;
    TerminateKeeps(k, code);
    NothingOf(TerminateCurrent(k, code).0, k.current.pid);
  }

  /** The invariants leave no trace of a process that is not in the table. */
  lemma NothingOf(k: Kernel, pid: nat)
    requires Inv(k) && pid !in k.processes
    ensures forall x | x in k.threads :: x.pid != pid
    ensures forall s | s in k.servers :: k.servers[s].q.pid != pid
    ensures forall s, i | NameAt(k, s, i).Some? :: NameAt(k, s, i).value.pid != pid
  {
  }

  // ---- Who is told of the end of a process ------------------------------------------------------

  /** The order in which the kernel looks for them. */
  predicate Precedes(x: Id, y: Id) {
    x.pid < y.pid || (x.pid == y.pid && x.tid < y.tid)
  }

  /** All threads that wait for the end of `dying`, in the processes from `pid` on. */
  function AllWaiters(k: Kernel, dying: nat, pid: nat, n: nat): seq<Id>
    requires k.limits.threads > 0
    decreases n
  {
    if n == 0 then []
    else WaitersFor(k, pid, WaitProcessExit(dying), 1, k.limits.threads - 1) + AllWaiters(k, dying, pid + 1, n - 1)
  }

  ghost predicate InOrder(ids: seq<Id>) {
    forall i, j | 0 <= i < j < |ids| :: Precedes(ids[i], ids[j])
  }

  lemma {:induction false} WaitersInOrder(k: Kernel, pid: nat, f: KernelFuture, tid: nat, n: nat)
    ensures InOrder(WaitersFor(k, pid, f, tid, n))
    decreases n
  {
    if n == 0 {
    } else {
      WaitersInOrder(k, pid, f, tid + 1, n - 1);
      WaitersForExact(k, pid, f, tid + 1, n - 1);
      var rest := WaitersFor(k, pid, f, tid + 1, n - 1);
      assert forall i | 0 <= i < |rest| :: rest[i] in rest;
    }
  }

  /** The list is complete and in order, so that no thread is in it twice. */
  lemma {:induction false} AllWaitersExact(k: Kernel, dying: nat, pid: nat, n: nat)
    requires k.limits.threads > 0
    ensures var ids := AllWaiters(k, dying, pid, n);
      && InOrder(ids)
      && forall x: Id :: x in ids <==>
           pid <= x.pid < pid + n && 1 <= x.tid < k.limits.threads && WaitsForExit(k, x, dying)
    decreases n
  {
    if n == 0 {
    } else {
      var here := WaitersFor(k, pid, WaitProcessExit(dying), 1, k.limits.threads - 1);
      var rest := AllWaiters(k, dying, pid + 1, n - 1);
      WaitersForExact(k, pid, WaitProcessExit(dying), 1, k.limits.threads - 1);
      WaitersInOrder(k, pid, WaitProcessExit(dying), 1, k.limits.threads - 1);
      AllWaitersExact(k, dying, pid + 1, n - 1);
      assert forall i | 0 <= i < |here| :: here[i] in here;
      assert forall i | 0 <= i < |rest| :: rest[i] in rest;
    }
  }

  lemma FirstOfMore(a: seq<Id>, x: Id, rest: seq<Id>, n: nat)
    requires |a| <= n
    ensures FirstOf(a + ([x] + rest), n) == FirstOf((if |a| < n then a + [x] else a) + rest, n)
  {
    assert a + ([x] + rest) == a + [x] + rest;
  }

  lemma {:induction false} ExitWaitersInExact(k: Kernel, dying: nat, pid: nat, tid: nat, n: nat, found: seq<Id>)
    requires |found| <= MAX_EXIT_WAITERS
    ensures ExitWaitersIn(k, dying, pid, tid, n, found) ==
            FirstOf(found + WaitersFor(k, pid, WaitProcessExit(dying), tid, n), MAX_EXIT_WAITERS)
    decreases n
  {
    if n == 0 {
      assert found + [] == found;
    } else {
      var x, rest := Id(pid, tid), WaitersFor(k, pid, WaitProcessExit(dying), tid + 1, n - 1);
      if WaitsForExit(k, x, dying) {
        FirstOfMore(found, x, rest, MAX_EXIT_WAITERS);
      } else {
        assert [] + rest == rest;
      }
      ExitWaitersInExact(k, dying, pid, tid + 1, n - 1,
                         if WaitsForExit(k, x, dying) && |found| < MAX_EXIT_WAITERS then found + [x] else found);
    }
  }

  /** The threads that are told are the first 64 of all that wait. */
  lemma {:induction false} ExitWaitersComplete(k: Kernel, dying: nat, pid: nat, n: nat, found: seq<Id>)
    requires k.limits.threads > 0 && |found| <= MAX_EXIT_WAITERS
    ensures ExitWaiters(k, dying, pid, n, found) == FirstOf(found + AllWaiters(k, dying, pid, n), MAX_EXIT_WAITERS)
    decreases n
  {
    if n == 0 {
      assert found + [] == found;
    } else {
      var here := WaitersFor(k, pid, WaitProcessExit(dying), 1, k.limits.threads - 1);
      var rest := AllWaiters(k, dying, pid + 1, n - 1);
      ExitWaitersInExact(k, dying, pid, 1, k.limits.threads - 1, found);
      ExitWaitersComplete(k, dying, pid + 1, n - 1, FirstOf(found + here, MAX_EXIT_WAITERS));
      FirstOfTwice(found + here, rest, MAX_EXIT_WAITERS);
      assert found + (here + rest) == found + here + rest;
    }
  }

  lemma FirstOfTwice(a: seq<Id>, rest: seq<Id>, n: nat)
    ensures FirstOf(FirstOf(a, n) + rest, n) == FirstOf(a + rest, n)
  {
    if n <= |a| {
      assert (a[..n] + rest)[..n] == a[..n] == (a + rest)[..n];
    }
  }

  /** The threads that wait for the end of `dying` and are found before `x`. */
  function EarlierWaiters(k: Kernel, dying: nat, x: Id): set<Id> {
    set y | y in k.threads && k.threads[y].future == Some(WaitProcessExit(dying)) && Precedes(y, x)
  }

  function Members(ids: seq<Id>): set<Id> {
    set y | y in ids
  }

  lemma {:induction false} PrefixCount(ids: seq<Id>, n: nat)
    requires InOrder(ids) && n <= |ids|
    ensures |Members(ids[..n])| == n
    decreases n
  {
    if n == 0 {
      assert Members(ids[..0]) == {};
    } else {
      PrefixCount(ids, n - 1);
      assert ids[..n] == ids[..n - 1] + [ids[n - 1]];
      assert Members(ids[..n]) == Members(ids[..n - 1]) + {ids[n - 1]};
      assert ids[n - 1] !in ids[..n - 1];
    }
  }

  /** The place of a waiter in the list is the number of waiters before it. */
  lemma WaiterPlace(k: Kernel, dying: nat, ids: seq<Id>, i: nat)
    requires InOrder(ids) && i < |ids|
    requires forall x: Id :: x in ids <==> x in k.threads && k.threads[x].future == Some(WaitProcessExit(dying))
    ensures |EarlierWaiters(k, dying, ids[i])| == i
  {
    PrefixCount(ids, i);
    forall y
      ensures y in EarlierWaiters(k, dying, ids[i]) <==> y in ids[..i]
    {
      if y in EarlierWaiters(k, dying, ids[i]) {
        var j :| 0 <= j < |ids| && ids[j] == y;
        assert j < i;
      }
    }
    assert EarlierWaiters(k, dying, ids[i]) == Members(ids[..i]);
  }

  /** The scan covers all threads. */
  lemma ScanIsComplete(k: Kernel, dying: nat)
    requires Shape(k) && CleanOk(k)
    ensures var ids := AllWaiters(k, dying, 1, k.limits.processes);
      && InOrder(ids) && ExitWaiters(k, dying, 1, k.limits.processes, []) == FirstOf(ids, MAX_EXIT_WAITERS)
      && forall y: Id :: y in ids <==> y in k.threads && k.threads[y].future == Some(WaitProcessExit(dying))
  {
    var ids := AllWaiters(k, dying, 1, k.limits.processes);
    AllWaitersExact(k, dying, 1, k.limits.processes);
    ExitWaitersComplete(k, dying, 1, k.limits.processes, []);
    assert [] + ids == ids;
    hide AllWaiters, InOrder;
    forall y: Id
      ensures y in ids <==> y in k.threads && k.threads[y].future == Some(WaitProcessExit(dying))
    {
      assert WaitsForExit(k, y, dying) ==> 1 <= y.pid <= k.limits.processes && 1 <= y.tid < k.limits.threads;
    }
  }

  /** A thread that waits for the end of a process is found iff fewer than 64 waiters come before it. */
  lemma WaiterListed(k: Kernel, dying: nat, x: Id)
    requires Shape(k) && CleanOk(k) && WaitsForExit(k, x, dying)
    ensures x in ExitWaiters(k, dying, 1, k.limits.processes, []) <==> |EarlierWaiters(k, dying, x)| < MAX_EXIT_WAITERS
  {
    var ids := AllWaiters(k, dying, 1, k.limits.processes);
    ScanIsComplete(k, dying);
    hide Shape, CleanOk, AllWaiters, ExitWaiters, EarlierWaiters;
    var i :| 0 <= i < |ids| && ids[i] == x;
    WaiterPlace(k, dying, ids, i);
    PlaceIsUnique(ids, i);
  }

  lemma PlaceIsUnique(ids: seq<Id>, i: nat)
    requires InOrder(ids) && i < |ids|
    ensures ids[i] in FirstOf(ids, MAX_EXIT_WAITERS) <==> i < MAX_EXIT_WAITERS
  {
    var first := FirstOf(ids, MAX_EXIT_WAITERS);
    assert forall j | 0 <= j < |first| :: first[j] == ids[j];
    if i < |first| { assert first[i] == ids[i]; }
  }

  /** Closing the servers of the dying process does not change who waits for its end. */
  lemma SameWaiters(k: Kernel, k': Kernel, dying: nat, x: Id)
    requires PatientStay(k, k') && Calm(k, k')
    ensures forall y :: WaitsForExit(k', y, dying) <==> WaitsForExit(k, y, dying)
    ensures EarlierWaiters(k', dying, x) == EarlierWaiters(k, dying, x)
  {
    forall y
      ensures WaitsForExit(k', y, dying) <==> WaitsForExit(k, y, dying)
    {
      assert WaitsForExit(k, y, dying) ==> Patient(k, y);
      assert y in k.threads ==> TameThread(k.threads[y], k'.threads[y]);
    }
    assert forall y :: y in EarlierWaiters(k', dying, x) <==> WaitsForExit(k', y, dying) && Precedes(y, x);
    assert forall y :: y in EarlierWaiters(k, dying, x) <==> WaitsForExit(k, y, dying) && Precedes(y, x);
  }

  lemma ListedSuspended(k: Kernel, dying: nat)
    requires CleanOk(k)
    ensures Suspended(k, ExitWaiters(k, dying, 1, k.limits.processes, []))
  {
    ExitWaitersWait(k, dying, 1, k.limits.processes, []);
    var r := ExitWaiters(k, dying, 1, k.limits.processes, []);
    forall i | 0 <= i < |r|
      ensures r[i] in k.threads && k.threads[r[i]].future.Some? && r[i].tid != IRQ_TID
    {
      assert WaitsForExit(k, r[i], dying);
    }
  }

  lemma RemoveOthers(k: Kernel, pid: nat, x: Id)
    requires x in k.threads && x.pid != pid
    ensures x in RemoveProcess(k, pid).threads && RemoveProcess(k, pid).threads[x] == k.threads[x]
    ensures pid !in RemoveProcess(k, pid).processes
  {
  }

  /** The thread has the exit code in its mailbox and is ready to look there. */
  predicate Told(k: Kernel, x: Id, code: nat) {
    x in k.threads && k.threads[x].mailbox == Some(Value([code])) && k.threads[x].state.Ready?
  }

  /**
   The end of a process is announced to the first 64 threads that wait for it.  A thread of another
   process that waits for it gets the exit code iff fewer than 64 waiters come before it in the order of
   process and thread numbers.  Otherwise it stays suspended, with the mailbox it had, in a wait for a
   process that is no longer there.  All that remains of the call is to choose the next thread.
   */
  lemma ExitTellsWaiters(k: Kernel, code: nat, x: Id)
    requires Inv(k) && !k.inIrq && k.current.pid in k.processes && k.current.pid != KERNEL_PID
    requires x.pid != k.current.pid && WaitsForExit(k, x, k.current.pid)
    ensures var pid := k.current.pid;
      var left := RemoveProcess(Cleared(k, pid, code), pid);
      && TerminateCurrent(k, code) == Activate(left) && pid !in left.processes && WaitsForExit(left, x, pid)
      && (if |EarlierWaiters(k, pid, x)| < MAX_EXIT_WAITERS then Told(left, x, code)
          else left.threads[x].mailbox == k.threads[x].mailbox)
      && Prepared(k, left, None)
  {
    assert k.limits.threads >= 2;
    var pid := k.current.pid;
    var k2, k4 := Closed(k, pid, code), Cleared(k, pid, code);
    hide Coupled, IrqCoupled, ServersOk, NamesOk, MailOk, ReceiversOk, RetryOk, StampsOk, IdleOk, ConnsOk, NoStale,
         Cleared, Closed, TerminateCurrent, RemoveProcess, Activate, ExitWaiters, WakeAll, NoNewWaits, StaysOutside,
         Retired, FreshBut, Disowned, Calm, EarlierWaiters;
    ClosedOk(k, pid, code);
    SameWaiters(k, k2, pid, x);
    ClosingTables(k, k2, pid);
    TerminateUnfold(k, code);
    WaiterListed(k2, pid, x);
    ListedSuspended(k2, pid);
    WakeAllDelivers(k2, ExitWaiters(k2, pid, 1, k.limits.processes, []), Value([code]));
    ClearedOk(k, code);
    RemoveOthers(k4, pid, x);
    RemovedOk(k, code);
  }

  /** A waiter that is not told is abandoned: see `AbandonedForever` for how long. */
  lemma UntoldIsAbandoned(k: Kernel, code: nat, x: Id)
    requires Inv(k) && !k.inIrq && k.current.pid in k.processes && k.current.pid != KERNEL_PID
    requires x.pid != k.current.pid && WaitsForExit(k, x, k.current.pid) && k.threads[x].mailbox.None?
    requires |EarlierWaiters(k, k.current.pid, x)| >= MAX_EXIT_WAITERS
    ensures var k' := TerminateCurrent(k, code).0;
      Abandoned(k', x) && WaitsForExit(k', x, k.current.pid)
  {
    hide Base, Ipc, IdleOk, ConnsOk, NoStale, Cleared, TerminateCurrent, RemoveProcess, Activate, NoNewWaits,
         EarlierWaiters, Chosen, Stranded, Recorded, FreeStays, Births;
    BaseThreads(k);
    ExitTellsWaiters(k, code, x);
    var left := RemoveProcess(Cleared(k, k.current.pid, code), k.current.pid);
    assert x.pid in left.processes by { WaiterLives(left, x); }
    ActivateOk(left);
    assert WaitsOn(left, Activate(left).0, x);
  }

  lemma BaseThreads(k: Kernel)
    requires Base(k)
    ensures k.limits.threads >= 2
  {
  }

  lemma WaiterLives(k: Kernel, x: Id)
    requires Base(k) && x in k.threads
    ensures x.pid in k.processes
  {
  }
}
