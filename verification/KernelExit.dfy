/** The end of a process: its servers, its threads, the messages it sent and those who wait for it. */
module KernelExit {
  import opened Common
  import opened Rings
  import opened ServerQueue
  import opened Fifo
  import opened KernelState
  import opened KernelSteps
  import opened KernelInv
  import opened KernelMessages
  import opened KernelActivate
  import opened KernelCalls
  import opened KernelTables
  import opened KernelDestroy

  // ---- Closing the servers ----------------------------------------------------------------------

  /** Of the servers that have gone, all belonged to `pid`. */
  ghost predicate Closing(k: Kernel, k': Kernel, pid: nat) {
    Calm(k, k') && forall s | s in k.servers && s !in k'.servers :: k.servers[s].q.pid == pid
  }

  lemma ClosingTrans(k: Kernel, k1: Kernel, k2: Kernel, pid: nat)
    requires Closing(k, k1, pid) && Closing(k1, k2, pid)
    ensures Closing(k, k2, pid)
  {
    CalmTrans(k, k1, k2);
    assert forall s | s in k1.servers :: SameServer(k, k1, s);
    hide Calm;
  }

  predicate NamesOther(n: Option<Id>, pid: nat) {
    n.Some? ==> n.value.pid != pid
  }

  /** No server below index `n` belongs to `pid` or would wake one of its threads. */
  ghost predicate Disowned(k: Kernel, pid: nat, n: nat) {
    && (forall s | s in k.servers && s < n :: k.servers[s].q.pid != pid)
    && (forall s: nat, i: nat | s < n :: NamesOther(NameAt(k, s, i), pid))
  }

  lemma CalmDisowned(k: Kernel, k': Kernel, pid: nat, n: nat)
    requires Calm(k, k') && Disowned(k, pid, n)
    ensures Disowned(k', pid, n)
  {
  }

  /** Every receiver outside `pid` has its server. */
  ghost predicate FreshBut(k: Kernel, pid: nat) {
    forall x | x in k.threads && x.pid != pid && k.threads[x].future.Some? &&
           k.threads[x].future.value.ReceiveMessage? ::
      ReceivesFrom(k, x, k.threads[x].future.value.sidx)
  }

  lemma ClosingFresh(k: Kernel, k': Kernel, pid: nat)
    requires Closing(k, k', pid) && ReceiversOk(k) && FreshBut(k, pid)
    ensures FreshBut(k', pid)
  {
  }

  /** Another process' server forgets who sent the messages of `pid`. */
  lemma DiscardOk(k: Kernel, s: nat, pid: nat)
    requires Base(k) && Ipc(k, None) && s in k.servers
    ensures var k' := SetQueue(k, s, Discard(k.servers[s].q, pid));
      Base(k') && Ipc(k', None) && Tame(k, k') && Calm(k, k') && forall i :: NamesOther(NameAt(k', s, i), pid)
  {
    var q := k.servers[s].q;
    assert QueueOk(q) && (q.readyThreads != {} ==> q.headGeneration == q.tailGeneration);
    DiscardFifo(q, pid);
    CountEmptyBound(q);
    hide Base, Ipc, Tame, Calm, SetQueue, QueueOk, NameAt;
    FilledOk(k, s, Discard(q, pid), 0, Id(0, 0));
    DiscardNames(k, s, pid);
    TameIsCalm(k, SetQueue(k, s, Discard(q, pid)));
  }

  lemma DiscardNames(k: Kernel, s: nat, pid: nat)
    requires s in k.servers && QueueOk(k.servers[s].q)
    ensures var k' := SetQueue(k, s, Discard(k.servers[s].q, pid));
      && (forall r, i | NameAt(k', r, i).Some? :: NameAt(k', r, i) == NameAt(k, r, i))
      && (forall i :: NamesOther(NameAt(k', s, i), pid))
  {
  }

  /** One server: destroyed if it belongs to the process, otherwise cleared of its messages. */
  function CloseOne(k: Kernel, pid: nat, s: nat): Kernel {
    if s !in k.servers then k
    else if k.servers[s].q.pid == pid then DestroySidx(k, s)
    else SetQueue(k, s, Discard(k.servers[s].q, pid))
  }

  lemma CloseOneOk(k: Kernel, pid: nat, s: nat)
    requires Base(k) && Ipc(k, None) && ConnsOk(k) && k.current.pid == pid
    ensures var k' := CloseOne(k, pid, s);
      && Base(k') && Ipc(k', None) && ConnsOk(k') && Closing(k, k', pid)
      && (s in k'.servers ==> k'.servers[s].q.pid != pid) && (forall i :: NamesOther(NameAt(k', s, i), pid))
      && PatientStay(k, k')
  {
    hide Base, Ipc, ConnsOk, Tame, DestroySidx, IdleOk, CurrentOk, NoStale;
    if s !in k.servers {
      CalmRefl(k);
    } else if k.servers[s].q.pid == pid {
      DestroyOk(k, s);
    } else {
      DiscardOk(k, s, pid);
      TameKeeps(k, CloseOne(k, pid, s));
    }
  }

  lemma DisownedStep(k: Kernel, k': Kernel, pid: nat, s: nat)
    requires Disowned(k, pid, s) && Calm(k, k')
    requires (s in k'.servers ==> k'.servers[s].q.pid != pid) && forall i :: NamesOther(NameAt(k', s, i), pid)
    ensures Disowned(k', pid, s + 1)
  {
  }

  lemma {:induction false} CloseServersOk(k: Kernel, pid: nat, s: nat, n: nat)
    requires Base(k) && Ipc(k, None) && ConnsOk(k) && k.current.pid == pid && Disowned(k, pid, s)
    ensures var k' := CloseServers(k, pid, s, n);
      && Base(k') && Ipc(k', None) && ConnsOk(k') && Closing(k, k', pid) && Disowned(k', pid, s + n)
      && PatientStay(k, k')
    decreases n
  {
    hide Base, Ipc, ConnsOk, DestroySidx, Disowned, Discard, SetQueue, NamesOther, NameAt;
    CalmRefl(k);
    if n == 0 {
    } else {
      var k1 := CloseOne(k, pid, s);
      CloseOneOk(k, pid, s);
      DisownedStep(k, k1, pid, s);
      CloseServersOk(k1, pid, s + 1, n - 1);
      ClosingTrans(k, k1, CloseServers(k1, pid, s + 1, n - 1), pid);
      PatientTrans(k, k1, CloseServers(k1, pid, s + 1, n - 1));
    }
  }

  // ---- Telling those who wait for the process ---------------------------------------------------

  lemma WakeResultServers(k: Kernel, x: Id, r: Reply)
    ensures WakeWithResult(k, x, r).servers == k.servers
  {
    hide SetState;
    StateServers(SetMailbox(k, x, Some(r)), x);
    StateServers(k, x);
  }

  lemma StateServers(k: Kernel, x: Id)
    ensures SetState(k, x, Ready).servers == k.servers
  {
  }

  ghost predicate AllWait(k: Kernel, waiters: seq<Id>, dying: nat) {
    forall i | 0 <= i < |waiters| :: WaitsForExit(k, waiters[i], dying)
  }

  lemma {:induction false} ExitWaitersInWait(k: Kernel, dying: nat, pid: nat, tid: nat, n: nat, found: seq<Id>)
    requires AllWait(k, found, dying)
    ensures AllWait(k, ExitWaitersIn(k, dying, pid, tid, n, found), dying)
    decreases n
  {
    if n == 0 {
    } else {
      var x := Id(pid, tid);
      ExitWaitersInWait(k, dying, pid, tid + 1, n - 1,
                        if WaitsForExit(k, x, dying) && |found| < MAX_EXIT_WAITERS then found + [x] else found);
    }
  }

  lemma {:induction false} ExitWaitersWait(k: Kernel, dying: nat, pid: nat, n: nat, found: seq<Id>)
    requires AllWait(k, found, dying)
    ensures AllWait(k, ExitWaiters(k, dying, pid, n, found), dying)
    decreases n
  {
    if n == 0 {
    } else {
      var m := if k.limits.threads == 0 then 0 else k.limits.threads - 1;
      ExitWaitersInWait(k, dying, pid, 1, m, found);
      ExitWaitersWait(k, dying, pid + 1, n - 1, ExitWaitersIn(k, dying, pid, 1, m, found));
    }
  }

  lemma WakeResultFutures(k: Kernel, x: Id, r: Reply, y: Id, dying: nat)
    requires WaitsForExit(k, y, dying)
    ensures WaitsForExit(WakeWithResult(k, x, r), y, dying)
  {
    hide RingAdd, RingDrop;
  }

  /** A thread that waits for something else than a reply is woken. */
  lemma WakeOtherWaits(k: Kernel, x: Id, r: Reply)
    requires x in k.threads && k.threads[x].future != Some(WaitBlocking) && !Abandoned(k, x)
    ensures WaitsStay(k, WakeWithResult(k, x, r)) && WakeWithResult(k, x, r).processes == k.processes
  {
    hide WakeWithResult;
    WakeResultOthers(k, x, r);
  }

  lemma {:induction false} WakeAllOk(k: Kernel, waiters: seq<Id>, dying: nat, r: Reply)
    requires Base(k) && Ipc(k, None) && AllWait(k, waiters, dying) && dying in k.processes
    ensures var k' := WakeAll(k, waiters, r);
      Base(k') && Ipc(k', None) && Tame(k, k') && k'.servers == k.servers && WaitsStay(k, k') &&
          k'.processes == k.processes
    decreases |waiters|
  {
    hide Base, Ipc, Tame, WakeWithResult, AwaitsReply;
    TameRefl(k);
    if waiters == [] {
    } else {
      var k1 := WakeWithResult(k, waiters[0], r);
      assert WaitsForExit(k, waiters[0], dying);
      WakeOtherOk(k, waiters[0], r);
      WakeResultServers(k, waiters[0], r);
      WakeOtherWaits(k, waiters[0], r);
      forall i | 0 <= i < |waiters[1..]|
        ensures WaitsForExit(k1, waiters[1..][i], dying)
      {
        WakeResultFutures(k, waiters[0], r, waiters[i + 1], dying);
      }
      WakeAllOk(k1, waiters[1..], dying, r);
      TameTrans(k, k1, WakeAll(k1, waiters[1..], r));
      WaitsStayTrans(k, k1, WakeAll(k1, waiters[1..], r));
    }
  }

  lemma SameServersCalm(k: Kernel, k': Kernel)
    requires Tame(k, k') && k'.servers == k.servers && WaitsStay(k, k')
    ensures Calm(k, k')
  {
    assert forall s, i :: NameAt(k', s, i) == NameAt(k, s, i);
    TameIsCalm(k, k');
  }

  // ---- Freeing the threads ----------------------------------------------------------------------

  /** The threads of `pid` below `n`, except the interrupt thread, are free. */
  ghost predicate FreedBelow(k: Kernel, pid: nat, n: nat) {
    forall t | 1 <= t < n && Id(pid, t) in k.threads :: k.threads[Id(pid, t)].state.Free?
  }

  /** What freeing the threads of `pid` leaves alone. */
  ghost predicate Freeing(k: Kernel, k': Kernel, pid: nat) {
    && k' == k.(threads := k'.threads, rings := k'.rings)
    && k'.threads.Keys == k.threads.Keys
    && (forall x | x in k.threads && x.pid != pid :: k'.threads[x] == k.threads[x])
    && (forall x | x in k.threads && x.tid == IRQ_TID :: k'.threads[x] == k.threads[x])
    && NoNewWaits(k, k', None)
  }

  lemma FreeOneOk(k: Kernel, pid: nat, tid: nat)
    requires Base(k) && Ipc(k, None) && Disowned(k, pid, k.limits.servers) && Id(pid, tid) in k.threads &&
             tid != IRQ_TID
    ensures var k' := ClearThread(k, Id(pid, tid));
      Base(k') && Ipc(k', None) && Freeing(k, k', pid)
  {
    var x := Id(pid, tid);
    hide Base, Ipc, ReceivesFrom, ClearThread, NameAt, Disowned, Unnamed, AwaitsReply;
    DisownedForgets(k, x);
    ClearExact(k, x);
    ClearBase(k, x);
    ClearIpc(k, x);
    ClearFrees(k, ClearThread(k, x), x);
  }

  /** No slot and no parked receiver is a thread of a process that is dying. */
  lemma DisownedForgets(k: Kernel, x: Id)
    requires Ipc(k, None) && Disowned(k, x.pid, k.limits.servers)
    ensures Unnamed(k, x) && forall s :: !ReceivesFrom(k, x, s)
  {
    assert ServersOk(k) && ReceiversOk(k);
    hide NamesOk, CleanOk, MailOk, RetryOk, StampsOk, QueueOk;
    forall s: nat, i: nat
      ensures NameAt(k, s, i) != Some(x)
    {
      assert s in k.servers ==> s < k.limits.servers;
      assert s < k.limits.servers ==> NamesOther(NameAt(k, s, i), x.pid);
    }
  }

  lemma ClearFrees(k: Kernel, k': Kernel, x: Id)
    requires x in k.threads && x.tid != IRQ_TID && k' == k.(threads := k'.threads, rings := k'.rings)
    requires k'.threads == k.threads[x := k.threads[x].(state := Free, future := None, mailbox := None)]
    ensures Freeing(k, k', x.pid)
  {
  }

  lemma FreeingDisowned(k: Kernel, k': Kernel, pid: nat, n: nat)
    requires k'.servers == k.servers && Disowned(k, pid, n)
    ensures Disowned(k', pid, n)
  {
    assert forall s, i :: NameAt(k', s, i) == NameAt(k, s, i);
  }

  lemma FreeStep(k: Kernel, pid: nat, tid: nat)
    requires Shape(k) && pid in k.processes && 1 <= tid < k.limits.threads && FreedBelow(k, pid, tid)
    ensures Id(pid, tid) in k.threads && FreedBelow(ClearThread(k, Id(pid, tid)), pid, tid + 1)
  {
    assert Id(pid, tid) in k.threads;
    ClearExact(k, Id(pid, tid));
  }

  lemma FreeingTrans(k: Kernel, k1: Kernel, k2: Kernel, pid: nat)
    requires Freeing(k, k1, pid) && Freeing(k1, k2, pid)
    ensures Freeing(k, k2, pid)
  {
  }

  /** Stranded threads of other processes stay stranded. */
  ghost predicate StaysOutside(k: Kernel, k': Kernel, pid: nat) {
    && (forall x | Stranded(k, x) && x.pid != pid && x.pid in k.processes :: Stranded(k', x))
    && (forall x | Abandoned(k, x) && x.pid != pid :: WaitsOn(k, k', x))
    && Recorded(k, k')
  }

  lemma FreeingStays(k: Kernel, k1: Kernel, k2: Kernel, pid: nat)
    requires Stays(k, k1) && Freeing(k1, k2, pid) && k1.processes.Keys == k.processes.Keys
    ensures StaysOutside(k, k2, pid)
  {
    forall x | Stranded(k, x) && x.pid != pid && x.pid in k.processes
      ensures Stranded(k2, x)
    {
      assert Stranded(k1, x);
      StrandedOthers(k1, k2, x);
    }
    forall x | Abandoned(k, x) && x.pid != pid
      ensures WaitsOn(k, k2, x)
    {
      assert WaitsOn(k, k1, x);
    }
  }

  lemma FreeingTables(k: Kernel, k': Kernel, pid: nat)
    requires Freeing(k, k', pid)
    ensures k'.servers == k.servers && k'.limits == k.limits && k'.processes == k.processes && k'.inIrq == k.inIrq
    ensures NoNewWaits(k, k', None)
  {
  }

  lemma {:induction false} FreeThreadsOk(k: Kernel, pid: nat, tid: nat, n: nat)
    requires Base(k) && Ipc(k, None) && Disowned(k, pid, k.limits.servers) && pid in k.processes
    requires 1 <= tid && tid + n == k.limits.threads && FreedBelow(k, pid, tid)
    ensures var k' := FreeThreads(k, pid, tid, n);
      Base(k') && Ipc(k', None) && Freeing(k, k', pid) && FreedBelow(k', pid, k.limits.threads)
    decreases n
  {
    hide Ipc, ClearThread, Disowned, FreedBelow, Shape, Coupled, IrqCoupled;
    if n == 0 {
    } else {
      hide Freeing;
      FreeStep(k, pid, tid);
      var k1 := ClearThread(k, Id(pid, tid));
      FreeOneOk(k, pid, tid);
      FreeingTables(k, k1, pid);
      FreeingDisowned(k, k1, pid, k.limits.servers);
      FreeThreadsOk(k1, pid, tid + 1, n - 1);
      FreeingTrans(k, k1, FreeThreads(k1, pid, tid + 1, n - 1), pid);
    }
  }

  // ---- Taking the process out of the table ------------------------------------------------------

  /** Nothing of process `pid` is in use any more. */
  ghost predicate Retired(k: Kernel, pid: nat) {
    pid != KERNEL_PID && Disowned(k, pid, k.limits.servers) &&
    forall x | x in k.threads && x.pid == pid :: k.threads[x].state.Free?
  }

  lemma RemoveBase(k: Kernel, pid: nat)
    requires Base(k) && Retired(k, pid)
    ensures Base(RemoveProcess(k, pid))
  {
    var k' := RemoveProcess(k, pid);
    assert forall x :: IsReady(k', x) <==> IsReady(k, x);
    assert forall p, x :: InRing(k', p, x) <==> InRing(k, p, x);
    assert forall p, x :: BelongsIn(k', p, x) <==> BelongsIn(k, p, x);
  }

  lemma RemoveNames(k: Kernel, pid: nat)
    requires ServersOk(k) && NamesOk(k, None) && Retired(k, pid)
    ensures ServersOk(RemoveProcess(k, pid)) && NamesOk(RemoveProcess(k, pid), None)
  {
    var k' := RemoveProcess(k, pid);
    forall s, i
      ensures NameAt(k', s, i) == NameAt(k, s, i) && NamesOther(NameAt(k, s, i), pid)
    {
    }
    forall s, i | NameAt(k', s, i).Some?
      ensures AwaitsReply(k', NameAt(k', s, i).value)
    {
      assert AwaitsReply(k, NameAt(k, s, i).value);
    }
  }

  lemma RemoveReceivers(k: Kernel, pid: nat)
    requires ReceiversOk(k) && ServersOk(k) && Retired(k, pid)
    ensures ReceiversOk(RemoveProcess(k, pid))
  {
    var k' := RemoveProcess(k, pid);
    assert forall y, s :: ReceivesFrom(k', y, s) <==> ReceivesFrom(k, y, s);
  }

  lemma RemoveIpc(k: Kernel, pid: nat)
    requires Ipc(k, None) && Retired(k, pid)
    ensures Ipc(RemoveProcess(k, pid), None)
  {
    var k' := RemoveProcess(k, pid);
    RemoveNames(k, pid);
    RemoveReceivers(k, pid);
    assert forall y, s | RetriesAt(k', y, s) :: RetriesAt(k, y, s);
  }

  lemma RemoveRest(k: Kernel, pid: nat)
    requires pid != KERNEL_PID
    ensures var k' := RemoveProcess(k, pid);
      && (IdleOk(k) ==> IdleOk(k')) && (ConnsOk(k) ==> ConnsOk(k')) && (FreshBut(k, pid) ==> NoStale(k'))
      && NoNewWaits(k, k', None) && k'.current == IDLE && k'.inIrq == k.inIrq &&
         k'.processes.Keys == k.processes.Keys - {pid}
  {
    var k' := RemoveProcess(k, pid);
    assert forall p, c :: ConnAt(k', p, c) == if p == pid then FreeSlot else ConnAt(k, p, c);
    assert forall x, s :: ReceivesFrom(k', x, s) <==> ReceivesFrom(k, x, s) && x.pid != pid;
  }

  lemma RemoveStays(k: Kernel, k4: Kernel, pid: nat)
    requires StaysOutside(k, k4, pid) && k4.processes.Keys == k.processes.Keys && pid in k.processes
    ensures Stays(k, RemoveProcess(k4, pid))
  {
    var k' := RemoveProcess(k4, pid);
    forall x | Stranded(k, x) && x.pid in k'.processes
      ensures Stranded(k', x)
    {
      StrandedOthers(k4, k', x);
    }
    forall x | Abandoned(k, x)
      ensures WaitsOn(k, k', x)
    {
      if x.pid != pid { assert WaitsOn(k, k4, x); }
    }
  }

  lemma IdleRuns(k: Kernel)
    requires IdleOk(k) && MailOk(k) && k.current == IDLE && !k.inIrq
    ensures CurrentOk(k)
  {
  }

  // ---- The whole operation ----------------------------------------------------------------------

  /** The dying process has no servers left, and its parent has been sent an event. */
  function Closed(k: Kernel, pid: nat, code: nat): Kernel
    requires pid in k.processes
  {
    var k1 := CloseServers(k, pid, 0, k.limits.servers);
    match k.processes[pid].ppid
    case None => k1
    case Some(parent) => SendEvent(k1, parent, ChildTerminated, code)
  }

  /** And everybody who waits for it has been told. */
  function Announced(k: Kernel, pid: nat, code: nat): Kernel
    requires pid in k.processes
  {
    var k2 := Closed(k, pid, code);
    WakeAll(k2, ExitWaiters(k2, pid, 1, k.limits.processes, []), Value([code]))
  }

  lemma TameClosing(k: Kernel, k': Kernel, pid: nat)
    requires Tame(k, k') && Calm(k, k')
    ensures Closing(k, k', pid)
  {
  }

  lemma NothingDisowned(k: Kernel, pid: nat)
    ensures Disowned(k, pid, 0)
  {
  }

  lemma ClosedOk(k: Kernel, pid: nat, code: nat)
    requires Base(k) && Ipc(k, None) && ConnsOk(k) && k.current.pid == pid && pid in k.processes
    ensures var k' := Closed(k, pid, code);
      && Base(k') && Ipc(k', None) && ConnsOk(k') && Closing(k, k', pid) && Disowned(k', pid, k.limits.servers)
      && PatientStay(k, k')
  {
    hide Base, Ipc, ConnsOk, Closing, Disowned, CloseServers, SendEvent, Calm, Tame, Orphan, WaitsStay, IdleOk,
         CurrentOk, NoStale, NoNewWaits, Stays;
    NothingDisowned(k, pid);
    CloseServersOk(k, pid, 0, k.limits.servers);
    var k1 := CloseServers(k, pid, 0, k.limits.servers);
    var parent := k.processes[pid].ppid;
    if parent.Some? {
      SendEventOk(k1, parent.value, ChildTerminated, code);
    } else {
      TameRefl(k1);
      CalmRefl(k1);
    }
    var k2 := Closed(k, pid, code);
    assert PatientStay(k1, k2);
    PatientTrans(k, k1, k2);
    TameKeeps(k1, k2);
    TameClosing(k1, k2, pid);
    ClosingTrans(k, k1, k2, pid);
    CalmDisowned(k1, k2, pid, k.limits.servers);
  }

  lemma AnnouncedOk(k: Kernel, pid: nat, code: nat)
    requires Base(k) && Ipc(k, None) && ConnsOk(k) && k.current.pid == pid && pid in k.processes
    ensures var k' := Announced(k, pid, code);
      Base(k') && Ipc(k', None) && ConnsOk(k') && Closing(k, k', pid) && Disowned(k', pid, k.limits.servers)
  {
    hide Base, Ipc, ConnsOk, Closing, Disowned, Closed, WakeAll, ExitWaiters, Calm, Tame, WaitsStay, IdleOk,
         CurrentOk, NoStale, NoNewWaits, Stays;
    ClosedOk(k, pid, code);
    var k2 := Closed(k, pid, code);
    var waiters := ExitWaiters(k2, pid, 1, k.limits.processes, []);
    var k3 := WakeAll(k2, waiters, Value([code]));
    ClosingTables(k, k2, pid);
    ExitWaitersWait(k2, pid, 1, k.limits.processes, []);
    WakeAllOk(k2, waiters, pid, Value([code]));
    TameKeeps(k2, k3);
    SameServersCalm(k2, k3);
    TameClosing(k2, k3, pid);
    ClosingTrans(k, k2, k3, pid);
    CalmDisowned(k2, k3, pid, k.limits.servers);
  }

  lemma FreedRetired(k: Kernel, pid: nat)
    requires Base(k) && Ipc(k, None) && !k.inIrq && pid != KERNEL_PID
    requires Disowned(k, pid, k.limits.servers) && FreedBelow(k, pid, k.limits.threads)
    ensures Retired(k, pid)
  {
    forall x | x in k.threads && x.pid == pid
      ensures k.threads[x].state.Free?
    {
      assert x == Id(pid, x.tid) && x.tid < k.limits.threads;
      if x.tid == IRQ_TID { assert !IsReady(k, Id(pid, IRQ_TID)); }
    }
  }

  lemma FreeingFresh(k: Kernel, k': Kernel, pid: nat)
    requires Freeing(k, k', pid) && pid != KERNEL_PID
    ensures FreshBut(k, pid) ==> FreshBut(k', pid)
    ensures IdleOk(k) ==> IdleOk(k')
    ensures ConnsOk(k) ==> ConnsOk(k')
  {
    assert forall p, c :: ConnAt(k', p, c) == ConnAt(k, p, c);
    assert forall x: Id, s: nat | x.pid != pid :: ReceivesFrom(k', x, s) <==> ReceivesFrom(k, x, s);
  }

  lemma ClosingTables(k: Kernel, k': Kernel, pid: nat)
    requires Closing(k, k', pid)
    ensures k'.limits == k.limits && k'.inIrq == k.inIrq && k'.processes.Keys == k.processes.Keys
    ensures IdleOk(k) ==> IdleOk(k')
    ensures NoNewWaits(k, k', None) && Stays(k, k')
  {
    CalmKeeps(k, k');
  }

  lemma StaleOnly(k: Kernel, pid: nat)
    requires NoStale(k)
    ensures FreshBut(k, pid)
  {
  }

  /** The dying process with nothing of it in use. */
  function Cleared(k: Kernel, pid: nat, code: nat): Kernel
    requires pid in k.processes && k.limits.threads > 0
  {
    FreeThreads(Announced(k, pid, code), pid, 1, k.limits.threads - 1)
  }

  lemma ClearedOk(k: Kernel, code: nat)
    requires Inv(k) && !k.inIrq && k.current.pid in k.processes && k.current.pid != KERNEL_PID && k.limits.threads > 1
    ensures var k' := Cleared(k, k.current.pid, code);
      && Base(k') && Ipc(k', None) && ConnsOk(k') && IdleOk(k') && !k'.inIrq && Retired(k', k.current.pid)
      && (NoStale(k) ==> FreshBut(k', k.current.pid)) && NoNewWaits(k, k', None)
      && StaysOutside(k, k', k.current.pid) && k'.processes.Keys == k.processes.Keys
      && Freeing(Announced(k, k.current.pid, code), k', k.current.pid)
  {
    hide NoNewWaits, Stays, StaysOutside, Base, ConnsOk, Closing, Disowned, Announced, FreeThreads, Freeing, IdleOk,
         NoStale, FreshBut, Retired, ServersOk, CleanOk, NamesOk, MailOk, ReceiversOk, RetryOk, StampsOk, Calm;
    var pid := k.current.pid;
    AnnouncedOk(k, pid, code);
    var k3 := Announced(k, pid, code);
    ClosingTables(k, k3, pid);
    FreeThreadsOk(k3, pid, 1, k.limits.threads - 1);
    var k4 := FreeThreads(k3, pid, 1, k.limits.threads - 1);
    FreeingTables(k3, k4, pid);
    FreeingStays(k, k3, k4, pid);
    FreeingFresh(k3, k4, pid);
    FreeingDisowned(k3, k4, pid, k.limits.servers);
    FreedRetired(k4, pid);
    WaitsTrans(k, k3, k4, None);
    if NoStale(k) {
      StaleOnly(k, pid);
      ClosingFresh(k, k3, pid);
    }
  }

  /** The kernel without the process, before the next thread is chosen: the idle thread is the running one. */
  lemma RemovedOk(k: Kernel, code: nat)
    requires Inv(k) && !k.inIrq && k.current.pid in k.processes && k.current.pid != KERNEL_PID && k.limits.threads > 1
    ensures var k' := RemoveProcess(Cleared(k, k.current.pid, code), k.current.pid);
      Prepared(k, k', None) && CurrentOk(k') && k'.processes.Keys == k.processes.Keys - {k.current.pid}
  {
    hide Base, ConnsOk, Cleared, RemoveProcess, IdleOk, CurrentOk, NoStale, FreshBut, NoNewWaits, Stays, StaysOutside,
         Retired, ServersOk, CleanOk, NamesOk, MailOk, ReceiversOk, RetryOk, StampsOk;
    var pid := k.current.pid;
    ClearedOk(k, code);
    var k4 := Cleared(k, pid, code);
    RetiredOther(k4, pid);
    RemoveBase(k4, pid);
    RemoveIpc(k4, pid);
    RemoveRest(k4, pid);
    RemoveStays(k, k4, pid);
    WaitsTrans(k, k4, RemoveProcess(k4, pid), None);
    IdleRuns(RemoveProcess(k4, pid));
  }

  lemma RetiredOther(k: Kernel, pid: nat)
    requires Retired(k, pid)
    ensures pid != KERNEL_PID
  {
  }

  /** Ending a process that is not the kernel's own, outside interrupt handlers. */
  lemma TerminateKeeps(k: Kernel, code: nat)
    requires Inv(k) && !k.inIrq && k.current.pid in k.processes && k.current.pid != KERNEL_PID
    ensures var k' := TerminateCurrent(k, code).0;
      Keeps(k, k') && k'.processes.Keys == k.processes.Keys - {k.current.pid}
  {
    assert k.limits.threads >= 2;
    hide Base, Ipc, IdleOk, ConnsOk, NoStale, Cleared, RemoveProcess, Activate, CurrentOk, Ends, TerminateCurrent,
         NoNewWaits, Stays, Chosen;
    RemovedOk(k, code);
    EndCall(k, RemoveProcess(Cleared(k, k.current.pid, code), k.current.pid), None);
    ActivateOk(RemoveProcess(Cleared(k, k.current.pid, code), k.current.pid));
    TerminateUnfold(k, code);
  }

  lemma TerminateUnfold(k: Kernel, code: nat)
    requires k.current.pid in k.processes && k.limits.threads > 0
    ensures var pid := k.current.pid;
      TerminateCurrent(k, code) == Activate(RemoveProcess(Cleared(k, pid, code), pid))
  {
  }

  /** Ending another process, on behalf of the running thread. */
  lemma TerminateOtherKeeps(k: Kernel, pid: nat, code: nat)
    requires Inv(k) && CurrentOk(k) && k.current.tid != IRQ_TID
    ensures Keeps(k, TerminateOther(k, pid, code).0)
  {
    hide Inv, NoStale, TerminateCurrent, SetResult, CurrentOk, Ends;
    UnchangedKeeps(k);
    if pid != k.current.pid && pid in k.processes && k.processes[pid].ppid != Some(KERNEL_PID) {
      var k2 := SetResult(k, k.current, Done).(current := Id(pid, INITIAL_TID));
      TargetOk(k, pid);
      TerminateKeeps(k2, code);
      SwitchedKeeps(k, k2, TerminateCurrent(k2, code).0);
    }
  }

  /** The kernel that has switched to the process it is about to end. */
  lemma TargetOk(k: Kernel, pid: nat)
    requires Inv(k) && CurrentOk(k) && k.current.tid != IRQ_TID
    requires pid in k.processes && k.processes[pid].ppid != Some(KERNEL_PID)
    ensures var k2 := SetResult(k, k.current, Done).(current := Id(pid, INITIAL_TID));
      && KeepsFor(k, k2, None) && k2.processes == k.processes && k2.servers == k.servers && !k2.inIrq &&
         pid != KERNEL_PID
  {
    assert pid != KERNEL_PID && !k.inIrq;
    hide Base, Ipc, IdleOk, ConnsOk, NoStale, Tame, CurrentOk, NoNewWaits, Stays;
    var k1 := SetResult(k, k.current, Done);
    ResultOk(k, k.current, Done, None);
    TameKeeps(k, k1);
    SwitchTo(k1, Id(pid, INITIAL_TID));
    SwitchKeeps(k1, Id(pid, INITIAL_TID));
    StaysSwitched(k, k1, Id(pid, INITIAL_TID));
  }

  lemma SwitchedKeeps(k: Kernel, k1: Kernel, k2: Kernel)
    requires KeepsFor(k, k1, None) && Keeps(k1, k2) && k2.processes.Keys <= k1.processes.Keys
    requires k1.servers == k.servers && k1.processes == k.processes
    ensures Keeps(k, k2)
  {
    hide Inv, NoStale, CurrentOk, NoNewWaits, Stranded, HeadStale, Settle;
    WaitsTrans(k, k1, k2, None);
    assert Recorded(k1, k2);
    forall x | Abandoned(k, x)
      ensures WaitsOn(k, k2, x)
    {
      assert WaitsOn(k, k1, x);
      assert Abandoned(k1, x) ==> WaitsOn(k1, k2, x);
    }
  }
}
