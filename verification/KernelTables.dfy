/** The calls that change the process, thread, server and connection tables keep the invariants. */
module KernelTables {
  import opened Common
  import opened Rings
  import opened ServerQueue
  import opened Fifo
  import opened KernelState
  import opened KernelSteps
  import opened KernelInv
  import opened KernelSched
  import opened KernelWakes
  import opened KernelIpc
  import opened KernelMessages
  import opened KernelActivate
  import opened KernelCalls

  // ---- Servers and connections ------------------------------------------------------------------

  /** A new server: nothing refers to it yet, whatever its index was used for before. */
  lemma NewServerIpc(k: Kernel, s: nat, e: Entry)
    requires Ipc(k, None) && s !in k.servers && s < k.limits.servers && e.born == k.clock
    requires QueueOk(e.q) && |e.q.queue| < GENERATIONS && e.q.pid in k.processes && e.q.readyThreads == {}
    requires forall i | 0 <= i < |e.q.queue| :: e.q.queue[i].Empty?
    ensures Ipc(k.(servers := k.servers[s := e], clock := k.clock + 1), None)
  {
    hide QueueOk;
    var k' := k.(servers := k.servers[s := e], clock := k.clock + 1);
    NewServerNames(k, k', s, e);
    assert forall y, r :: ReceivesFrom(k', y, r) <==> ReceivesFrom(k, y, r);
    assert forall y, r :: RetriesAt(k', y, r) <==> RetriesAt(k, y, r);
  }

  lemma NewServerNames(k: Kernel, k': Kernel, s: nat, e: Entry)
    requires NamesOk(k, None) && s !in k.servers && k'.servers == k.servers[s := e] && k'.threads == k.threads
    requires forall i | 0 <= i < |e.q.queue| :: e.q.queue[i].Empty?
    ensures NamesOk(k', None)
  {
    assert forall r, i :: NameAt(k', r, i) == NameAt(k, r, i);
    assert forall y :: AwaitsReply(k', y) <==> AwaitsReply(k, y);
  }

  lemma NewServerRest(k: Kernel, s: nat, e: Entry)
    requires Base(k) && IdleOk(k) && ConnsOk(k) && CurrentOk(k) && s !in k.servers
    requires forall i | 0 <= i < |e.q.queue| :: e.q.queue[i].Empty?
    ensures var k' := k.(servers := k.servers[s := e], clock := k.clock + 1);
      && Base(k') && IdleOk(k') && ConnsOk(k') && CurrentOk(k') && (NoStale(k) ==> NoStale(k'))
      && NoNewWaits(k, k', None) && Stays(k, k')
  {
    var k' := k.(servers := k.servers[s := e], clock := k.clock + 1);
    SameScheduleBase(k, k');
    NewServerStays(k, k', s, e);
    assert forall p, c :: ConnAt(k', p, c) == ConnAt(k, p, c);
    assert forall y, r | ReceivesFrom(k, y, r) :: ReceivesFrom(k', y, r);
  }

  lemma NewServerStays(k: Kernel, k': Kernel, s: nat, e: Entry)
    requires s !in k.servers && k'.servers == k.servers[s := e] && k'.threads == k.threads
    requires forall i | 0 <= i < |e.q.queue| :: e.q.queue[i].Empty?
    ensures Stays(k, k')
  {
    assert forall r, i :: NameAt(k', r, i) == NameAt(k, r, i);
    StaysRule(k, k');
  }

  /** No thread waits at server `s`, no slot of it names a thread, and no connection leads to it. */
  ghost predicate Unreferenced(k: Kernel, s: nat) {
    && (forall x :: !ReceivesFrom(k, x, s)) && (forall x :: !RetriesAt(k, x, s))
    && (forall i :: NameAt(k, s, i).None?)
    && (forall p, c | ConnAt(k, p, c).Connected? :: ConnAt(k, p, c).sidx != s)
  }

  lemma NewServerUnreferenced(k: Kernel, s: nat, e: Entry)
    requires ConnsOk(k) && StampsOk(k) && s !in k.servers && e.born == k.clock
    requires forall i | 0 <= i < |e.q.queue| :: e.q.queue[i].Empty?
    ensures Unreferenced(k.(servers := k.servers[s := e], clock := k.clock + 1), s)
  {
    var k' := k.(servers := k.servers[s := e], clock := k.clock + 1);
    assert forall p, c :: ConnAt(k', p, c) == ConnAt(k, p, c);
  }

  lemma NewServerKeeps(k: Kernel, s: nat, e: Entry)
    requires Inv(k) && CurrentOk(k) && s !in k.servers && s < k.limits.servers && e.born == k.clock
    requires QueueOk(e.q) && |e.q.queue| < GENERATIONS && e.q.pid == k.current.pid && e.q.readyThreads == {}
    requires forall i | 0 <= i < |e.q.queue| :: e.q.queue[i].Empty?
    ensures var k' := k.(servers := k.servers[s := e], clock := k.clock + 1);
      Keeps(k, k') && Unreferenced(k', s)
  {
    assert StampsOk(k);
    hide Base, Ipc, IdleOk, NoStale, CurrentOk, NoNewWaits, Stays, ConnsOk, Unreferenced, QueueOk;
    CurrentLives(k);
    NewServerIpc(k, s, e);
    NewServerRest(k, s, e);
    NewServerUnreferenced(k, s, e);
  }

  /**
   A new server gets the first free index.  It belongs to the caller, has nothing pending and nobody
   parked, and nothing refers to it, even if its index was in use before.
   */
  lemma CreateServerKeeps(k: Kernel, sid: nat, permissions: P.Permissions, backing: Result<nat>)
    requires Inv(k) && CurrentOk(k) && (backing.Ok? ==> 0 < backing.value < GENERATIONS)
    ensures var (k', r) := CreateServer(k, sid, permissions, backing);
      var s := FreeServer(k, 0);
      && Keeps(k, k')
      && (r.Returned? <==> s < k.limits.servers && backing.Ok?)
      && (if r.Returned?
          then && s !in k.servers && k'.servers.Keys == k.servers.Keys + {s} && Unreferenced(k', s)
               && k'.servers[s].q.sid == sid && k'.servers[s].q.pid == k.current.pid
               && Pending(k'.servers[s].q) == [] && k'.servers[s].q.readyThreads == {}
               && k'.servers[s].q.emptyCount == backing.value
          else k' == k)
  {
    hide Inv, CurrentOk, Keeps, Unreferenced, Tame;
    var s := FreeServer(k, 0);
    UnchangedKeeps(k);
    if s < k.limits.servers && backing.Ok? {
      NewQueueOk(sid, k.current.pid, backing.value);
      NewServerKeeps(k, s, Entry(NewQueue(sid, k.current.pid, backing.value), permissions, k.clock));
    }
  }

  /** A call that is refused. */
  lemma UnchangedKeeps(k: Kernel)
    requires Inv(k) && CurrentOk(k)
    ensures Keeps(k, k)
  {
    TameRefl(k);
    hide Base, Ipc, Tame, Keeps, CurrentOk;
    TameCall(k, k);
  }

  lemma CurrentLives(k: Kernel)
    requires Base(k) && CurrentOk(k)
    ensures k.current in k.threads && k.current.pid in k.processes && k.threads[k.current].priority < NUM_PRIORITIES
  {
  }

  /** Only connections change. */
  lemma SetConnectionsQuiet(k: Kernel, pid: nat, c: seq<ConnectionSlot>)
    requires pid in k.processes && |c| == |k.processes[pid].connections|
    ensures var k' := SetConnections(k, pid, c);
      && (Base(k) ==> Base(k'))
      && (IdleOk(k) ==> IdleOk(k')) && (CurrentOk(k) ==> CurrentOk(k')) && (NoStale(k) ==> NoStale(k'))
      && NoNewWaits(k, k', None) && Stays(k, k')
  {
    var k' := SetConnections(k, pid, c);
    assert forall r, i :: NameAt(k', r, i) == NameAt(k, r, i);
    StaysRule(k, k');
    if Base(k) { SameScheduleBase(k, k'); }
    assert forall y, r :: ReceivesFrom(k', y, r) <==> ReceivesFrom(k, y, r);
  }

  lemma SetConnectionsIpc(k: Kernel, pid: nat, c: seq<ConnectionSlot>, sending: Option<Id>)
    requires pid in k.processes && Ipc(k, sending)
    ensures Ipc(SetConnections(k, pid, c), sending)
  {
    var k' := SetConnections(k, pid, c);
    assert forall r, i :: NameAt(k', r, i) == NameAt(k, r, i);
    assert forall y :: AwaitsReply(k', y) <==> AwaitsReply(k, y);
    assert forall y, r :: ReceivesFrom(k', y, r) <==> ReceivesFrom(k, y, r);
    assert forall y, r :: RetriesAt(k', y, r) <==> RetriesAt(k, y, r);
  }

  lemma SetConnectionsAt(k: Kernel, pid: nat, c: seq<ConnectionSlot>)
    requires pid in k.processes && |c| == |k.processes[pid].connections|
    ensures forall p, i: nat ::
              ConnAt(SetConnections(k, pid, c), p, i) ==
              if p == pid then (if i < |c| then c[i] else FreeSlot) else ConnAt(k, p, i)
  {
  }

  /** Connecting leads to the present server under one connection id. */
  lemma ConnectConns(k: Kernel, pid: nat, s: nat)
    requires ConnsOk(k) && pid in k.processes && s in k.servers
    ensures var c := AddConnection(k.processes[pid].connections, s, k.servers[s].permissions, k.servers[s].born).1;
      |c| == |k.processes[pid].connections| && ConnsOk(SetConnections(k, pid, c))
  {
    var c0 := k.processes[pid].connections;
    assert forall i | 0 <= i < |c0| :: c0[i] == ConnAt(k, pid, i);
    SetConnectionsAt(k, pid, AddConnection(c0, s, k.servers[s].permissions, k.servers[s].born).1);
  }

  lemma ConnectKeeps(k: Kernel, pid: nat, sid: nat)
    requires Inv(k) && CurrentOk(k)
    ensures Keeps(k, Connect(k, pid, sid).0)
  {
    var s := ServerIndex(k, sid, None, 0);
    hide Base, Ipc, IdleOk, ConnsOk, NoStale, CurrentOk, SetConnections, AddConnection, ServerIndex, NoNewWaits,
         Stays, Tame;
    TameRefl(k);
    TameCall(k, k);
    if s < k.limits.servers && pid in k.processes {
      ConnectConns(k, pid, s);
      SetConnectionsIpc(k, pid, AddConnection(k.processes[pid].connections, s, k.servers[s].permissions,
              k.servers[s].born).1, None);
      SetConnectionsQuiet(k, pid, AddConnection(k.processes[pid].connections, s, k.servers[s].permissions,
              k.servers[s].born).1);
    }
  }

  lemma DisconnectConns(k: Kernel, pid: nat, i: nat)
    requires ConnsOk(k) && pid in k.processes && i < |k.processes[pid].connections|
    ensures var c := k.processes[pid].connections;
      ConnsOk(SetConnections(k, pid, c[i := Released(c[i])]))
  {
    var c0 := k.processes[pid].connections;
    assert forall j | 0 <= j < |c0| :: c0[j] == ConnAt(k, pid, j);
    SetConnectionsAt(k, pid, c0[i := Released(c0[i])]);
  }

  lemma DisconnectKeeps(k: Kernel, cid: nat)
    requires Inv(k) && CurrentOk(k)
    ensures Keeps(k, Disconnect(k, cid).0)
  {
    var pid := k.current.pid;
    hide Base, Ipc, IdleOk, ConnsOk, NoStale, CurrentOk, SetConnections, Released, NoNewWaits, Stays, Tame;
    TameRefl(k);
    TameCall(k, k);
    if pid in k.processes && 2 <= cid < |k.processes[pid].connections| + 2 {
      var c := k.processes[pid].connections;
      DisconnectConns(k, pid, cid - 2);
      SetConnectionsIpc(k, pid, c[cid - 2 := Released(c[cid - 2])], None);
      SetConnectionsQuiet(k, pid, c[cid - 2 := Released(c[cid - 2])]);
    }
  }

  // ---- Scheduling calls -------------------------------------------------------------------------

  lemma YieldKeeps(k: Kernel)
    requires Inv(k) && CurrentOk(k)
    ensures Keeps(k, Yield(k).0)
  {
    hide Base, Ipc, IdleOk, ConnsOk, NoStale, Quiet, Activate, RingYield;
    var k1 := SetResult(k, k.current, Done);
    var k2 := k1.(rings := RingYield(k.rings, k.threads[k.current].priority, k.current));
    ResultBase(k, k.current, Done);
    RingYieldBase(k1, k.current);
    YieldQuiet(k, k2.rings);
    QuietCall(k, k2);
    EndCall(k, k2, None);
  }

  lemma YieldQuiet(k: Kernel, rings: seq<seq<Id>>)
    ensures Quiet(k, SetResult(k, k.current, Done).(rings := rings))
  {
  }

  lemma PriorityQuiet(k: Kernel, x: Id, priority: nat)
    ensures Quiet(k, SetPriority(k, x, priority))
  {
  }

  lemma ChangePriorityKeeps(k: Kernel, priority: nat)
    requires Inv(k) && CurrentOk(k) && priority < NUM_PRIORITIES
    ensures Keeps(k, ChangePriority(k, priority).0)
  {
    hide Ipc, IdleOk, ConnsOk, NoStale, CurrentOk, Quiet, Activate, SetResult, SetPriority, Shape, Coupled,
         IrqCoupled;
    var k1 := SetPriority(k, k.current, priority);
    SetPriorityBase(k, k.current, priority);
    PriorityQuiet(k, k.current, priority);
    ResultBase(k1, k.current, Done);
    ResultQuiet(k1, k.current, Done);
    QuietTrans(k, k1, SetResult(k1, k.current, Done));
    QuietCall(k, SetResult(k1, k.current, Done));
    EndCall(k, SetResult(k1, k.current, Done), None);
  }

  // ---- Suspending calls -------------------------------------------------------------------------

  lemma JoinKeeps(k: Kernel, tid: nat)
    requires Inv(k) && MaySuspend(k)
    ensures Ends(k, Join(k, tid).0, None, JoinParks(k, tid))
  {
    hide Base, Ipc, IdleOk, ConnsOk, NoStale, Activate, Suspend, NoNewWaits, Stays, Tame, Ends;
    TameRefl(k);
    TameCall(k, k);
    TameKeeps(k, k);
    SuspendCall(k, k, WaitJoin(tid));
  }

  lemma WaitForKeeps(k: Kernel, target: nat)
    requires Inv(k) && MaySuspend(k)
    ensures Ends(k, WaitFor(k, target).0, None, WaitParks(k, target))
  {
    hide Base, Ipc, IdleOk, ConnsOk, NoStale, Activate, Suspend, NoNewWaits, Stays, Tame, Ends;
    TameRefl(k);
    TameCall(k, k);
    TameKeeps(k, k);
    SuspendCall(k, k, WaitProcessExit(target));
  }

  lemma FutexWaitKeeps(k: Kernel, addr: nat, same: bool)
    requires Inv(k) && MaySuspend(k)
    ensures Ends(k, FutexWait(k, addr, same).0, None, FutexParks(k, addr, same))
  {
    hide Base, Ipc, IdleOk, ConnsOk, NoStale, Activate, Suspend, SetResult, Tame, NoNewWaits, Stays, Ends;
    TameRefl(k);
    TameCall(k, k);
    ResultOk(k, k.current, Done, None);
    TameKeeps(k, SetResult(k, k.current, Done));
    assert SetResult(k, k.current, Done).current == k.current by { TameCurrent(k, SetResult(k, k.current, Done)); }
    SuspendCall(k, SetResult(k, k.current, Done), WaitFutex(addr));
  }

  lemma ParkIpcFor(k: Kernel, mask: set<nat>)
    requires Ipc(k, None) && MaySuspend(k)
    ensures Ipc(SetState(k, k.current, WaitEvent(mask)), None)
  {
    var k' := SetState(k, k.current, WaitEvent(mask));
    IdleUnnamed(k, k.current);
    ThreadChangeIpc(k, k', k.current, None, None);
  }

  /** A thread parks for notification bits, without a future. */
  lemma ParkEventKeeps(k: Kernel, mask: set<nat>)
    requires Inv(k) && MaySuspend(k)
    ensures var left := SetState(k, k.current, WaitEvent(mask));
      && Ends(k, Activate(left).0, None, Some(left))
      && Activate(left).0.processes.Keys == k.processes.Keys && Births(k, Activate(left).0)
  {
    var k' := SetState(k, k.current, WaitEvent(mask));
    assert k' == k.(threads := k'.threads, rings := k'.rings);
    ParkIpcFor(k, mask);
    SetStateBase(k, k.current, WaitEvent(mask));
    assert !k.inIrq;
    OneThreadKeeps(k, k', k.current);
    hide Base, Ipc, IdleOk, ConnsOk, NoStale, Activate, SetState, NoNewWaits, Stays, Ends;
    LeaveCall(k, k', None);
    ActivateOk(k');
  }

  lemma WithBitsQuiet(k: Kernel, pid: nat, bits: set<nat>)
    requires pid in k.processes
    ensures Quiet(k, WithBits(k, pid, bits)) && SameSchedule(k, WithBits(k, pid, bits))
  {
  }

  lemma AwaitEventKeeps(k: Kernel, mask: set<nat>)
    requires Inv(k) && MaySuspend(k)
    ensures Ends(k, AwaitEvent(k, mask).0, None, EventParks(k, mask))
  {
    hide Ends, NoNewWaits, Stays, Tame, Ipc, IdleOk, ConnsOk, NoStale, Activate, SetState, SetResult, Quiet,
         SameSchedule, Shape, Coupled, IrqCoupled;
    var pid := k.current.pid;
    TameRefl(k);
    TameCall(k, k);
    if pid in k.processes {
      var k1 := WithBits(k, pid, k.processes[pid].notificationBits - mask);
      WithBitsQuiet(k, pid, k.processes[pid].notificationBits - mask);
      SameScheduleBase(k, k1);
      QuietCall(k, k1);
      ResultBase(k1, k.current, Done);
      ResultQuiet(k1, k.current, Done);
      var k2 := SetResult(k1, k.current, Done);
      QuietTrans(k, k1, k2);
      QuietCall(k, k2);
      assert k2.current == k.current by { QuietCurrent(k, k2); }
      ParkEventKeeps(k2, mask);
      var left := SetState(k2, k.current, WaitEvent(mask));
      KeepsTrans(k, k2, Activate(left).0, Some(left));
    }
  }

  lemma QuietCurrent(k: Kernel, k': Kernel)
    requires Quiet(k, k')
    ensures k'.current == k.current
  {
  }

  lemma PostEventKeeps(k: Kernel, target: nat, bits: set<nat>)
    requires Inv(k) && CurrentOk(k)
    ensures Keeps(k, PostEvent(k, target, bits).0)
  {
    hide Base, Ipc, IdleOk, ConnsOk, NoStale, CurrentOk, PostBits, Tame;
    TameRefl(k);
    TameCall(k, k);
    PostOk(k, target, bits, None);
    TameCall(k, PostBits(k, target, bits));
  }

  lemma RegisterHandlerKeeps(k: Kernel, event: SystemEvent, sid: nat, id: nat)
    requires Inv(k) && CurrentOk(k)
    ensures Keeps(k, RegisterHandler(k, event, sid, id).0)
  {
    var k' := RegisterHandler(k, event, sid, id).0;
    RegisterHandlerQuiet(k, event, sid, id);
    hide Base, Ipc, IdleOk, ConnsOk, NoStale, CurrentOk, RegisterHandler, Quiet, SameSchedule;
    SameScheduleBase(k, k');
    QuietCall(k, k');
  }

  lemma RegisterHandlerQuiet(k: Kernel, event: SystemEvent, sid: nat, id: nat)
    ensures var k' := RegisterHandler(k, event, sid, id).0;
      Quiet(k, k') && SameSchedule(k, k')
  {
  }

  // ---- Waking by future -------------------------------------------------------------------------

  /** Delivering a result to a thread whose future is neither a blocking call nor a receive. */
  lemma WakeOtherOk(k: Kernel, x: Id, r: Reply)
    requires Base(k) && Ipc(k, None) && x in k.threads && k.threads[x].future.Some?
    requires k.threads[x].future != Some(WaitBlocking) && !k.threads[x].future.value.ReceiveMessage? && !Abandoned(k, x)
    ensures var k' := WakeWithResult(k, x, r);
      Base(k') && Ipc(k', None) && Tame(k, k')
  {
    IdleUnnamed(k, x);
    hide *;
    WakeResultOk(k, x, r);
  }

  lemma {:induction false} WakeFutexOk(k: Kernel, pid: nat, addr: nat, remaining: nat, tid: nat, n: nat)
    requires Base(k) && Ipc(k, None)
    ensures var k' := WakeFutex(k, pid, addr, remaining, tid, n);
      Base(k') && Ipc(k', None) && Tame(k, k')
    decreases n
  {
    hide Base, Ipc, Tame, WakeWithResult;
    TameRefl(k);
    if n > 0 && remaining > 0 {
      var x := Id(pid, tid);
      if x in k.threads && k.threads[x].future == Some(WaitFutex(addr)) {
        var k1 := WakeWithResult(k, x, Done);
        WakeOtherOk(k, x, Done);
        WakeFutexOk(k1, pid, addr, remaining - 1, tid + 1, n - 1);
        TameTrans(k, k1, WakeFutex(k1, pid, addr, remaining - 1, tid + 1, n - 1));
      } else {
        WakeFutexOk(k, pid, addr, remaining, tid + 1, n - 1);
      }
    }
  }

  lemma FutexWakeKeeps(k: Kernel, addr: nat, n: nat)
    requires Inv(k) && CurrentOk(k)
    ensures Keeps(k, FutexWake(k, addr, n).0)
  {
    hide Base, Ipc, IdleOk, ConnsOk, NoStale, CurrentOk, WakeFutex, Tame;
    var m := if k.limits.threads == 0 then 0 else k.limits.threads - 1;
    WakeFutexOk(k, k.current.pid, addr, n, 1, m);
    TameCall(k, WakeFutex(k, k.current.pid, addr, n, 1, m));
  }

  lemma {:induction false} WakeJoinersOk(k: Kernel, pid: nat, target: nat, value: nat, tid: nat, n: nat)
    requires Base(k) && Ipc(k, None)
    ensures var k' := WakeJoiners(k, pid, target, value, tid, n);
      Base(k') && Ipc(k', None) && Tame(k, k')
    decreases n
  {
    hide Base, Ipc, Tame, WakeWithResult;
    TameRefl(k);
    if n == 0 {
    } else {
      var x := Id(pid, tid);
      var k1 := if x in k.threads && k.threads[x].future == Some(WaitJoin(target))
        then WakeWithResult(k, x, Value([value])) else k;
      if x in k.threads && k.threads[x].future == Some(WaitJoin(target)) { WakeOtherOk(k, x, Value([value])); }
      WakeJoinersOk(k1, pid, target, value, tid + 1, n - 1);
      TameTrans(k, k1, WakeJoiners(k1, pid, target, value, tid + 1, n - 1));
    }
  }

  // ---- Threads ----------------------------------------------------------------------------------

  lemma ClearExact(k: Kernel, x: Id)
    requires x in k.threads
    ensures var k' := ClearThread(k, x);
      && k' == k.(threads := k'.threads, rings := k'.rings, inIrq := k'.inIrq)
      && k'.threads == k.threads[x := k.threads[x].(state := Free, future := None, mailbox := None)]
      && k'.inIrq == if x.tid == IRQ_TID && k.threads[x].state.Ready? then false else k.inIrq
  {
  }

  lemma ClearBase(k: Kernel, x: Id)
    requires Base(k)
    ensures Base(ClearThread(k, x))
  {
    SetStateBase(k, x, Free);
    hide Base, SetState;
    ForgetBase(SetState(k, x, Free), x);
  }

  lemma ForgetBase(k: Kernel, x: Id)
    requires Base(k)
    ensures Base(SetMailbox(SetFuture(k, x, None), x, None))
  {
    hide *;
    ForgetSchedule(k, x);
    SameScheduleBase(k, SetMailbox(SetFuture(k, x, None), x, None));
  }

  lemma ForgetSchedule(k: Kernel, x: Id)
    ensures SameSchedule(k, SetMailbox(SetFuture(k, x, None), x, None))
  {
  }

  /** Freeing a thread that nobody refers to. */
  lemma ClearIpc(k: Kernel, x: Id)
    requires Ipc(k, None) && x in k.threads && Unnamed(k, x) && forall s :: !ReceivesFrom(k, x, s)
    ensures Ipc(ClearThread(k, x), None)
  {
    var k' := ClearThread(k, x);
    ClearExact(k, x);
    assert ThreadChange(k, k', x);
    ThreadChangeIpc(k, k', x, None, None);
  }

  lemma ClearRest(k: Kernel, x: Id)
    requires x in k.threads && x != IDLE
    ensures var k' := ClearThread(k, x);
      && (IdleOk(k) ==> IdleOk(k')) && (ConnsOk(k) ==> ConnsOk(k')) && (NoStale(k) ==> NoStale(k'))
      && NoNewWaits(k, k', None) && (k.threads[x].future.None? ==> Stays(k, k'))
  {
    var k' := ClearThread(k, x);
    ClearExact(k, x);
    hide ClearThread;
    assert forall s, i :: NameAt(k', s, i) == NameAt(k, s, i);
    if k.threads[x].future.None? { StaysRule(k, k'); }
    assert forall p, c :: ConnAt(k', p, c) == ConnAt(k, p, c);
    assert forall y, s | y != x :: ReceivesFrom(k', y, s) <==> ReceivesFrom(k, y, s);
  }

  lemma ClearCurrent(k: Kernel)
    requires Inv(k) && CurrentOk(k) && k.current != IDLE
    ensures var k' := ClearThread(k, k.current);
      && Inv(k') && !k'.inIrq && (NoStale(k) ==> NoStale(k')) && NoNewWaits(k, k', None) && Stays(k, k')
      && k'.current == k.current && k'.processes == k.processes
      && k.current in k'.threads && k'.threads[k.current].state.Free?
  {
    IdleUnnamed(k, k.current);
    ClearExact(k, k.current);
    assert forall s :: !ReceivesFrom(k, k.current, s);
    hide Base, Ipc, IdleOk, ConnsOk, NoStale, ClearThread, Unnamed, ReceivesFrom;
    ClearBase(k, k.current);
    ClearIpc(k, k.current);
    ClearRest(k, k.current);
  }

  /** The kernel once the running thread has exited, before the next is chosen. */
  lemma ThreadLeftOk(k: Kernel, value: nat)
    requires Inv(k) && CurrentOk(k) && k.current != IDLE
    ensures var k' := ThreadLeft(k, value);
      && Prepared(k, k', None) && !k'.inIrq && k'.current == k.current
      && k.current in k'.threads && k'.threads[k.current].state.Free?
  {
    ClearCurrent(k);
    hide Base, Ipc, IdleOk, ConnsOk, NoStale, ClearThread, Tame, Activate, WakeJoiners, CurrentOk, NoNewWaits, Stays;
    var k1 := ClearThread(k, k.current);
    var k2 := WakeJoiners(k1, k.current.pid, k.current.tid, value, 0, k.limits.threads);
    WakeJoinersOk(k1, k.current.pid, k.current.tid, value, 0, k.limits.threads);
    TameKeeps(k1, k2);
    WaitsTrans(k, k1, k2, None);
    TameIrq(k1, k2);
    TameAt(k1, k2, k.current);
    StaysTrans(k, k1, k2);
  }

  /**
   A thread that exits is free afterwards and keeps nothing for the next thread with its index; an
   interrupt thread that exits ends interrupt mode.
   */
  lemma ThreadExitedKeeps(k: Kernel, value: nat)
    requires Inv(k) && CurrentOk(k) && k.current != IDLE
    ensures var k' := ThreadExited(k, value).0;
      && Ends(k, k', None, Some(ThreadLeft(k, value))) && !k'.inIrq
      && k.current in k'.threads && k'.threads[k.current].state.Free?
      && k'.threads[k.current].future.None? && k'.threads[k.current].mailbox.None?
      && (forall p :: !InRing(k', p, k.current))
  {
    hide Base, Ipc, IdleOk, ConnsOk, NoStale, Activate, CurrentOk, ThreadLeft, NoNewWaits, Stays, Derailed;
    ThreadLeftOk(k, value);
    LeaveCall(k, ThreadLeft(k, value), None);
    ActivateOk(ThreadLeft(k, value));
    FreeIsClean(ThreadExited(k, value).0, k.current);
  }

  lemma FreeIsClean(k: Kernel, x: Id)
    requires Base(k) && Ipc(k, None) && x in k.threads && k.threads[x].state.Free?
    ensures k.threads[x].future.None? && k.threads[x].mailbox.None? && (forall p :: !InRing(k, p, x))
  {
    forall p
      ensures !InRing(k, p, x)
    {
      assert InRing(k, p, x) <==> BelongsIn(k, p, x);
    }
  }

  lemma TameIrq(k: Kernel, k': Kernel)
    requires Tame(k, k')
    ensures k'.inIrq == k.inIrq && k'.current == k.current && k'.processes.Keys == k.processes.Keys && Births(k, k')
  {
  }

  /** A free thread becomes ready. */
  lemma StartIpc(k: Kernel, x: Id)
    requires Ipc(k, None) && x in k.threads && k.threads[x].state.Free?
    ensures Ipc(SetState(k, x, Ready), None)
  {
    IdleUnnamed(k, x);
    ThreadChangeIpc(k, SetState(k, x, Ready), x, None, None);
  }

  lemma StartRest(k: Kernel, x: Id)
    requires x in k.threads && k.threads[x].state.Free? && k.threads[x].future.None?
    ensures var k' := SetState(k, x, Ready);
      && (IdleOk(k) ==> IdleOk(k')) && (ConnsOk(k) ==> ConnsOk(k')) && (NoStale(k) ==> NoStale(k'))
      && (x.tid != IRQ_TID && CurrentOk(k) ==> CurrentOk(k')) && NoNewWaits(k, k', None) && Stays(k, k')
  {
    var k' := SetState(k, x, Ready);
    assert forall s, i :: NameAt(k', s, i) == NameAt(k, s, i);
    StaysRule(k, k');
    assert forall p, c :: ConnAt(k', p, c) == ConnAt(k, p, c);
    assert forall y, s :: ReceivesFrom(k', y, s) <==> ReceivesFrom(k, y, s);
  }

  lemma StartKeeps(k: Kernel, x: Id)
    requires Inv(k) && CurrentOk(k) && x in k.threads && k.threads[x].state.Free? && x.tid != IRQ_TID
    ensures Keeps(k, SetState(k, x, Ready)) && Inv(SetState(k, x, Ready)) && CurrentOk(SetState(k, x, Ready))
  {
    hide Base, Ipc, IdleOk, ConnsOk, NoStale, SetState, CurrentOk, NoNewWaits, Stays, HeadStale, Settle;
    FreeIsClean(k, x);
    StartIpc(k, x);
    StartRest(k, x);
    SetStateBase(k, x, Ready);
  }

  lemma StartExact(k: Kernel, x: Id, priority: nat)
    requires x in k.threads && x.tid != IRQ_TID
    ensures var k' := SetPriority(SetState(k, x, Ready), x, priority);
      && k'.processes == k.processes
      && k'.threads == k.threads[x := k.threads[x].(state := Ready, priority := priority)]
  {
    hide RingAdd, RingDrop;
  }

  /**
   A new thread is ready, without a call under way, and linked at its parent's priority; other
   threads are as before.
   */
  lemma CreateThreadKeeps(k: Kernel, tid: nat)
    requires Inv(k) && CurrentOk(k) && tid != IRQ_TID
    requires Id(k.current.pid, tid) in k.threads && k.threads[Id(k.current.pid, tid)].state.Free?
    ensures var k' := CreateThread(k, tid).0;
      var x := Id(k.current.pid, tid);
      && Keeps(k, k') && CreateThread(k, tid).1 == Returned(Value([tid]))
      && x in k'.threads && InRing(k', k.threads[k.current].priority, x)
      && k'.threads[x].state.Ready? && k'.threads[x].future.None? && k'.threads[x].mailbox.None?
      && k'.threads == k.threads[x := k'.threads[x]]
  {
    hide Base, Ipc, IdleOk, ConnsOk, NoStale, SetState, CurrentOk, SetPriority, Quiet, Ends;
    CurrentLives(k);
    var x := Id(k.current.pid, tid);
    var priority := k.threads[k.current].priority;
    FreeIsClean(k, x);
    StartKeeps(k, x);
    var k1 := SetState(k, x, Ready);
    SetPriorityBase(k1, x, priority);
    PriorityQuiet(k1, x, priority);
    QuietCall(k1, SetPriority(k1, x, priority));
    StartExact(k, x, priority);
    assert SetPriority(k1, x, priority).processes == k1.processes by { StartTables(k, x, priority); }
    KeepsTrans(k, k1, SetPriority(k1, x, priority), None);
    ReadyLinked(SetPriority(k1, x, priority), x);
  }

  lemma StartTables(k: Kernel, x: Id, priority: nat)
    ensures SetPriority(SetState(k, x, Ready), x, priority).processes == SetState(k, x, Ready).processes
  {
    hide RingAdd, RingDrop;
  }

  lemma ReadyLinked(k: Kernel, x: Id)
    requires Base(k) && IsReady(k, x) && x.tid != IRQ_TID
    ensures InRing(k, k.threads[x].priority, x)
  {
    assert BelongsIn(k, k.threads[x].priority, x);
  }

  /** An interrupt thread becomes ready and runs, in interrupt mode; the rings and the other threads are as before. */
  lemma EnterIrqKeeps(k: Kernel, pid: nat)
    requires Inv(k) && !k.inIrq && pid in k.processes
    ensures var k' := EnterIrq(k, pid).0;
      var x := Id(pid, IRQ_TID);
      && Keeps(k, k') && k'.inIrq && k'.current == x && IsReady(k', x)
      && k'.rings == k.rings && k'.threads == k.threads[x := k'.threads[x]]
  {
    var x := Id(pid, IRQ_TID);
    var k1 := SetState(k, x, Ready);
    hide Base, Ipc, NoStale, IdleOk, ConnsOk, SetState, NoNewWaits, Stays, CurrentOk, HeadStale, Settle;
    IrqFree(k, pid);
    StartIpc(k, x);
    StartRest(k, x);
    SetStateBase(k, x, Ready);
    EnteredExact(k, x);
    SwitchTo(k1, x);
    SwitchKeeps(k1, x);
    StaysSwitched(k, k1, x);
  }

  lemma IrqFree(k: Kernel, pid: nat)
    requires Base(k) && Ipc(k, None) && !k.inIrq && pid in k.processes
    ensures var x := Id(pid, IRQ_TID);
      x in k.threads && k.threads[x].state.Free? && k.threads[x].future.None? && k.threads[x].mailbox.None?
      && !IsReady(k, x) && !exists p :: IsReady(k, Id(p, IRQ_TID))
  {
    assert !IsReady(k, Id(pid, IRQ_TID));
  }

  lemma EnteredExact(k: Kernel, x: Id)
    requires x in k.threads && x.tid == IRQ_TID && k.threads[x].state.Free? && k.threads[x].future.None? &&
             k.threads[x].mailbox.None?
    ensures var k' := SetState(k, x, Ready).(current := x);
      && k'.inIrq && k'.rings == k.rings && k'.threads == k.threads[x := k.threads[x].(state := Ready)] && CurrentOk(k')
  {
  }

  lemma StaysSwitched(k: Kernel, k1: Kernel, x: Id)
    requires NoNewWaits(k, k1, None) && Stays(k, k1)
    ensures NoNewWaits(k, k1.(current := x), None) && Stays(k, k1.(current := x))
  {
    forall y | Stranded(k, y) && y.pid in k1.processes
      ensures Stranded(k1.(current := x), y)
    {
      StrandedOthers(k1, k1.(current := x), y);
    }
    assert forall y | Abandoned(k, y) :: WaitsOn(k, k1, y);
  }

  // ---- New processes ----------------------------------------------------------------------------

  lemma WithProcessThreads(k: Kernel, pid: nat, p: Process)
    requires forall x | x in k.threads :: x.pid != pid
    ensures var k' := WithProcess(k, pid, p);
      && (forall x: Id :: x in k'.threads <==> x in k.threads || (x.pid == pid && x.tid < k.limits.threads))
      && (forall x | x in k'.threads :: k'.threads[x] == if x in k.threads then k.threads[x] else NewThread())
  {
  }

  lemma WithProcessBase(k: Kernel, pid: nat, p: Process)
    requires Base(k) && pid !in k.processes && 1 <= pid <= k.limits.processes && |p.connections| == k.limits.connections
    ensures Base(WithProcess(k, pid, p))
  {
    var k' := WithProcess(k, pid, p);
    WithProcessThreads(k, pid, p);
    assert forall x :: IsReady(k', x) <==> IsReady(k, x);
    assert forall q, x :: InRing(k', q, x) <==> InRing(k, q, x);
    assert forall q, x :: BelongsIn(k', q, x) <==> BelongsIn(k, q, x);
  }

  lemma WithProcessNames(k: Kernel, pid: nat, p: Process)
    requires NamesOk(k, None) && ReceiversOk(k) && RetryOk(k) && pid !in k.processes &&
             forall x | x in k.threads :: x.pid in k.processes
    ensures var k' := WithProcess(k, pid, p);
      NamesOk(k', None) && ReceiversOk(k') && RetryOk(k')
  {
    var k' := WithProcess(k, pid, p);
    WithProcessThreads(k, pid, p);
    hide WithProcess;
    WithProcessServers(k, pid, p);
    assert forall r, i :: NameAt(k', r, i) == NameAt(k, r, i);
    assert forall y | AwaitsReply(k, y) :: AwaitsReply(k', y);
    assert forall y, r :: ReceivesFrom(k', y, r) <==> ReceivesFrom(k, y, r);
    assert forall y, r :: RetriesAt(k', y, r) <==> RetriesAt(k, y, r);
  }

  lemma WithProcessServers(k: Kernel, pid: nat, p: Process)
    ensures var k' := WithProcess(k, pid, p);
      k'.servers == k.servers && k'.limits == k.limits && k'.clock == k.clock && k'.processes == k.processes[pid := p]
  {
  }

  lemma WithProcessIpc(k: Kernel, pid: nat, p: Process)
    requires Ipc(k, None) && pid !in k.processes && forall x | x in k.threads :: x.pid in k.processes
    ensures Ipc(WithProcess(k, pid, p), None)
  {
    hide QueueOk, NamesOk, ReceiversOk, RetryOk, WithProcess;
    WithProcessNames(k, pid, p);
    WithProcessServers(k, pid, p);
    WithProcessThreads(k, pid, p);
  }

  lemma WithProcessRest(k: Kernel, pid: nat, p: Process)
    requires pid !in k.processes && forall x | x in k.threads :: x.pid in k.processes
    requires forall c | 0 <= c < |p.connections| :: p.connections[c].FreeSlot?
    ensures var k' := WithProcess(k, pid, p);
      && (IdleOk(k) ==> IdleOk(k')) && (ConnsOk(k) ==> ConnsOk(k')) && (NoStale(k) ==> NoStale(k'))
      && (CurrentOk(k) ==> CurrentOk(k')) && NoNewWaits(k, k', None) && Stays(k, k')
  {
    var k' := WithProcess(k, pid, p);
    WithProcessThreads(k, pid, p);
    assert forall r, i :: NameAt(k', r, i) == NameAt(k, r, i);
    StaysRule(k, k');
    assert forall q, c :: ConnAt(k', q, c) == ConnAt(k, q, c);
    assert forall y, r :: ReceivesFrom(k', y, r) <==> ReceivesFrom(k, y, r);
  }

  /**
   A process that has just been created: a child of `parent` with one ready thread, linked at the
   default priority.
   */
  ghost predicate FreshProcess(k: Kernel, pid: nat, parent: nat) {
    && pid in k.processes && k.processes[pid].ppid == Some(parent)
    && (forall c :: ConnAt(k, pid, c).FreeSlot?) && k.processes[pid].handlers == map[] &&
        k.processes[pid].notificationBits == {}
    && (forall t | 0 <= t < k.limits.threads :: FreshThread(k, Id(pid, t)))
    && InRing(k, APP_DEFAULT, Id(pid, INITIAL_TID))
  }

  predicate FreshThread(k: Kernel, x: Id) {
    && x in k.threads && k.threads[x].future.None? && k.threads[x].mailbox.None? && k.threads[x].priority == APP_DEFAULT
    && k.threads[x].state == if x.tid == INITIAL_TID then Ready else Free
  }

  lemma CreatedThreads(k: Kernel, pid: nat, p: Process)
    requires Shape(k) && pid !in k.processes
    ensures var k' := SetState(WithProcess(k, pid, p), Id(pid, INITIAL_TID), Ready);
      && (forall t | 0 <= t < k.limits.threads :: FreshThread(k', Id(pid, t)))
      && (forall x | x in k.threads :: x in k'.threads && k'.threads[x] == k.threads[x])
      && k'.processes == k.processes[pid := p] && k'.limits == k.limits
  {
    var k1, x := WithProcess(k, pid, p), Id(pid, INITIAL_TID);
    WithProcessThreads(k, pid, p);
    assert x in k1.threads && k1.threads[x] == NewThread();
    hide SetState;
    StartedExact(k1, x);
  }

  lemma CreatedFresh(k: Kernel, pid: nat, p: Process)
    requires Shape(k) && pid !in k.processes && p.ppid == Some(k.current.pid) && p.handlers == map[] &&
             p.notificationBits == {}
    requires forall c | 0 <= c < |p.connections| :: p.connections[c].FreeSlot?
    requires Base(SetState(WithProcess(k, pid, p), Id(pid, INITIAL_TID), Ready))
    ensures FreshProcess(SetState(WithProcess(k, pid, p), Id(pid, INITIAL_TID), Ready), pid, k.current.pid)
  {
    hide Base, SetState, WithProcess;
    CreatedThreads(k, pid, p);
    assert 2 <= k.limits.threads;
    ReadyLinked(SetState(WithProcess(k, pid, p), Id(pid, INITIAL_TID), Ready), Id(pid, INITIAL_TID));
  }

  lemma StartedExact(k: Kernel, x: Id)
    requires x in k.threads && k.threads[x].state.Free? && x.tid != IRQ_TID
    ensures var k' := SetState(k, x, Ready);
      && k'.processes == k.processes && k'.limits == k.limits && k'.servers == k.servers
      && k'.threads == k.threads[x := k.threads[x].(state := Ready)]
  {
    hide RingAdd, RingDrop;
  }

  /**
   A new process gets the first free number.  It is a child of the caller, has one ready thread and
   no connection, and shares nothing with whoever had the number before; other threads are as before.
   */
  lemma CreateProcessKeeps(k: Kernel, space: Result<()>)
    requires Inv(k) && CurrentOk(k)
    ensures var (k', r) := CreateProcess(k, space);
      var pid := FreePid(k, 1);
      && Keeps(k, k')
      && (r.Returned? <==> pid <= k.limits.processes && space.Ok?)
      && (if r.Returned?
          then && r.reply == Value([pid]) && pid !in k.processes && FreshProcess(k', pid, k.current.pid)
               && k'.processes.Keys == k.processes.Keys + {pid}
               && (forall x | x in k.threads :: x in k'.threads && k'.threads[x] == k.threads[x])
          else k' == k)
  {
    hide Inv, CurrentOk, Keeps, FreshProcess, SetState, WithProcess, NewProcess;
    UnchangedKeeps(k);
    NewProcessBare(k);
    var pid := FreePid(k, 1);
    if pid <= k.limits.processes && space.Ok? {
      CreatedKeeps(k, pid, NewProcess(k));
    }
  }

  lemma ThreadsLive(k: Kernel)
    requires Base(k)
    ensures forall x | x in k.threads :: x.pid in k.processes
  {
  }

  lemma NewProcessBare(k: Kernel)
    ensures var p := NewProcess(k);
      && p.ppid == Some(k.current.pid) && p.handlers == map[] && p.notificationBits == {}
      && |p.connections| == k.limits.connections && forall c | 0 <= c < |p.connections| :: p.connections[c].FreeSlot?
  {
  }

  lemma WithProcessKeeps(k: Kernel, pid: nat, p: Process)
    requires Inv(k) && CurrentOk(k) && pid !in k.processes && 1 <= pid <= k.limits.processes
    requires |p.connections| == k.limits.connections &&
             forall c | 0 <= c < |p.connections| :: p.connections[c].FreeSlot?
    ensures Keeps(k, WithProcess(k, pid, p)) && Inv(WithProcess(k, pid, p)) && CurrentOk(WithProcess(k, pid, p))
  {
    hide Base, Ipc, IdleOk, ConnsOk, NoStale, CurrentOk, WithProcess, NoNewWaits, Stays, HeadStale, Settle;
    ThreadsLive(k);
    WithProcessBase(k, pid, p);
    WithProcessIpc(k, pid, p);
    WithProcessRest(k, pid, p);
  }

  lemma CreatedKeeps(k: Kernel, pid: nat, p: Process)
    requires Inv(k) && CurrentOk(k) && pid !in k.processes && 1 <= pid <= k.limits.processes
    requires p.ppid == Some(k.current.pid) && p.handlers == map[] && p.notificationBits == {}
    requires |p.connections| == k.limits.connections &&
             forall c | 0 <= c < |p.connections| :: p.connections[c].FreeSlot?
    ensures var k' := SetState(WithProcess(k, pid, p), Id(pid, INITIAL_TID), Ready);
      && Keeps(k, k') && FreshProcess(k', pid, k.current.pid) && k'.processes == k.processes[pid := p]
      && (forall x | x in k.threads :: x in k'.threads && k'.threads[x] == k.threads[x])
  {
    var k1 := WithProcess(k, pid, p);
    var x := Id(pid, INITIAL_TID);
    hide Coupled, IrqCoupled, Ipc, IdleOk, ConnsOk, NoStale, SetState, CurrentOk, WithProcess, FreshProcess, Ends;
    WithProcessThreads(k, pid, p);
    WithProcessServers(k, pid, p);
    assert x in k1.threads && k1.threads[x].state.Free?;
    StartedExact(k1, x);
    WithProcessKeeps(k, pid, p);
    StartKeeps(k1, x);
    CreatedThreads(k, pid, p);
    CreatedFresh(k, pid, p);
    KeepsTrans(k, k1, SetState(k1, x, Ready), None);
  }
}
