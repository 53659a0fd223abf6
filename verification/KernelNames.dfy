/** Which steps can make two slots name one thread, and what a step does to the connection tables. */
module KernelNames {
  import opened Common
  import opened Rings
  import opened ServerQueue
  import opened KernelState
  import opened KernelSteps
  import opened KernelInv
  import opened Connections
  import opened KernelFrames
  import opened KernelRuns

  // ---- Sending and answering --------------------------------------------------------------------

  /** Only threads and rings differ. */
  lemma ThreadsPlain(k: Kernel, k': Kernel)
    requires k'.limits == k.limits && k'.processes == k.processes && k'.servers == k.servers
    ensures Plain(k, k') && SameNames(k, k')
  {
  }

  lemma MildPlain(k: Kernel, k': Kernel)
    requires Mild(k, k') && FewerNames(k, k')
    ensures Plain(k, k')
  {
  }

  /**
   The tables are untouched, and a slot names the sender afterwards exactly if the message was
   accepted and blocks.
   */
  ghost predicate SendsFrom(k: Kernel, k': Kernel, accepted: bool) {
    && k'.limits == k.limits
    && (forall p | p in k.processes && p in k'.processes :: Table(k', p) == Table(k, p))
    && if accepted then AddsName(k, k', k.current) else SameNames(k, k')
  }

  lemma SendsThen(k: Kernel, k1: Kernel, k2: Kernel, accepted: bool)
    requires SendsFrom(k, k1, accepted) && k2.limits == k1.limits && k2.processes == k1.processes && SameNames(k1, k2)
    ensures SendsFrom(k, k2, accepted)
  {
    if accepted { AddsThenSame(k, k1, k2, k.current); }
  }

  lemma SendNames(k: Kernel, cid: nat, message: Message, mapped: Result<nat>)
    ensures SendsFrom(k, SendMessage(k, cid, message, mapped).0, SendParks(k, cid, message, mapped).Some?)
    ensures SendMessage(k, cid, message, mapped).1 == Error(ServerQueueFull) ==>
            SendParks(k, cid, message, mapped).None?
  {
    hide SendInner, Activate, Suspend, SetResult, Lookup, Permitted, AddsName;
    var found := Lookup(k, cid);
    if found.Ok? && Permitted(k, cid, found.value, message) {
      var (k1, r) := SendInner(k, k.current, found.value, message, mapped);
      SendInnerMild(k, k.current, found.value, message, mapped);
      if r.Ok? {
        var k2 := if message.IsBlocking() then Suspend(k1, k.current, WaitBlocking) else SetResult(k1, k.current, Done);
        SuspendFrame(k1, k.current, WaitBlocking);
        FieldsWoken(k1, k.current, Done, None);
        ActivateFrame(k2);
        ActivateReports(k2);
        SendsThen(k, k1, k2, message.IsBlocking());
        SendsThen(k, k2, Activate(k2).0, message.IsBlocking());
      }
    }
  }

  /** Choosing the next thread never reports a full queue. */
  lemma {:induction false} ActivateReports(k: Kernel)
    ensures Activate(k).1 != Error(ServerQueueFull)
    decreases ReadyCount(k)
  {
    hide Suspend, ReadyCount, TakeMessage;
    if !k.inIrq {
      var h := HighestBelow(k.rings, |k.rings|);
      if h < |k.rings| && k.rings[h] != [] && k.rings[h][0] in k.threads && k.threads[k.rings[h][0]].future.Some? {
        var x := k.rings[h][0];
        var f := k.threads[x].future.value;
        var (k1, polled) := Poll(SetFuture(k, x, None), x, f);
        if polled.PollPending? && ReadyCount(Suspend(k1, x, f)) < ReadyCount(k) { ActivateReports(Suspend(k1, x, f)); }
      }
    }
  }

  lemma RetryNames(k: Kernel, cid: nat, message: Message, mapped: Result<nat>)
    ensures SendsFrom(k, SendMessageRetrying(k, cid, message, mapped).0, SendParks(k, cid, message, mapped).Some?)
  {
    hide SendMessage, SendParks, Activate, Lookup, AddsName, SetState;
    var (k1, r) := SendMessage(k, cid, message, mapped);
    SendNames(k, cid, message, mapped);
    var found := Lookup(k1, cid);
    if r == Error(ServerQueueFull) && found.Ok? && found.value in k1.servers {
      var k2 := SetState(k1, k1.current, RetryQueueFull(found.value, k1.servers[found.value].born));
      StateFrame(k1, k1.current, RetryQueueFull(found.value, k1.servers[found.value].born));
      ActivateFrame(k2);
      SendsThen(k, k1, k2, false);
      SendsThen(k, k2, Activate(k2).0, false);
    }
  }

  lemma StateFrame(k: Kernel, x: Id, state: ThreadState)
    ensures var k' := SetState(k, x, state);
      k'.limits == k.limits && k'.processes == k.processes && k'.servers == k.servers && SameNames(k, k')
  {
  }

  /** Taking an answered message out removes at most its name. */
  lemma TakeReplyPlain(k: Kernel, sidx: nat, idx: nat, buf: Option<(nat, nat)>)
    ensures Plain(k, TakeReply(k, sidx, idx, buf).0)
  {
    hide SetQueueWaking;
    if sidx in k.servers {
      var q := TakeWaiting(k.servers[sidx].q, idx, buf).1;
      SetQueueMild(k, sidx, q);
      SetQueueWakingMild(k, sidx, q);
    }
  }

  lemma AnswerPlain(k: Kernel, k1: Kernel, x: Id, r: Reply)
    requires Plain(k, k1)
    ensures Plain(k, Activate(SetResult(WakeWithResult(k1, x, r), k.current, Done)).0)
    ensures Plain(k, Activate(SetResult(k1, k.current, Done)).0)
  {
    hide Activate, SetResult, WakeWithResult;
    var k2 := WakeWithResult(k1, x, r);
    ToldWoken(k1, x, r);
    FieldsWoken(k2, k.current, Done, None);
    FieldsWoken(k1, k.current, Done, None);
    WokenPlain(k, k1, k2);
    WokenPlain(k, k2, SetResult(k2, k.current, Done));
    WokenPlain(k, k1, SetResult(k1, k.current, Done));
    ActivatePlain(k, SetResult(k2, k.current, Done));
    ActivatePlain(k, SetResult(k1, k.current, Done));
  }

  lemma WokenPlain(k: Kernel, k1: Kernel, k2: Kernel)
    requires Plain(k, k1) && Woken(k1, k2)
    ensures Plain(k, k2)
  {
    WokenMild(k1, k2);
  }

  lemma ReplyPlain(k: Kernel, sidx: nat, idx: nat, buf: (nat, nat), value: Reply, returned: Result<()>)
    ensures Plain(k, ReturnResult(k, sidx, idx, value).0) &&
            Plain(k, ReturnMemory(k, sidx, idx, buf, value, returned).0)
  {
    hide TakeReply, Activate, SetResult, WakeWithResult, Plain;
    TakeReplyPlain(k, sidx, idx, None);
    TakeReplyPlain(k, sidx, idx, Some(buf));
    var (k1, r1) := TakeReply(k, sidx, idx, None);
    var (k2, r2) := TakeReply(k, sidx, idx, Some(buf));
    AnswerPlain(k, k1, if r1.Ok? && r1.value.ScalarReply? then Id(r1.value.pid, r1.value.tid) else IDLE, value);
    AnswerPlain(k, k2, if r2.Ok? && r2.value.BorrowedMemory? then Id(r2.value.pid, r2.value.tid) else IDLE, value);
  }

  lemma ReceivePlain(k: Kernel, sid: nat, blocking: bool)
    ensures Plain(k, Receive(k, sid, blocking).0)
  {
    hide TakeMessage, Activate, Suspend, ServerIndex;
    var s := ServerIndex(k, sid, Some(k.current.pid), 0);
    if s < k.limits.servers {
      TakeMessageMild(k, s);
      var e := k.servers[s];
      var q := e.q.(readyThreads := e.q.readyThreads + {k.current.tid});
      var k1 := SetQueue(k, s, q);
      SetQueueMild(k, s, q);
      SuspendFrame(k1, k.current, ReceiveMessage(s, e.born));
      assert Plain(k, Suspend(k1, k.current, ReceiveMessage(s, e.born)));
      ActivatePlain(k, Suspend(k1, k.current, ReceiveMessage(s, e.born)));
    }
  }

  // ---- Threads and servers ----------------------------------------------------------------------

  lemma NewServerPlain(k: Kernel, sid: nat, permissions: P.Permissions, backing: Result<nat>)
    ensures Plain(k, CreateServer(k, sid, permissions, backing).0)
  {
  }

  /** Parking the running thread once only its process' pending events have changed. */
  lemma ParkPlain(k: Kernel, k1: Kernel, f: KernelFuture)
    requires Plain(k, k1)
    ensures Plain(k, Activate(Suspend(k1, k.current, f)).0)
  {
    hide Activate, Suspend;
    SuspendFrame(k1, k.current, f);
    assert Plain(k, Suspend(k1, k.current, f));
    ActivatePlain(k, Suspend(k1, k.current, f));
  }

  lemma YieldPlain(k: Kernel)
    ensures Plain(k, Yield(k).0)
  {
    hide Activate;
    var k1 := SetResult(k, k.current, Done);
    var k2 := if k.current in k.threads
      then k1.(rings := RingYield(k.rings, k.threads[k.current].priority, k.current)) else k1;
    ThreadsPlain(k, k2);
    ActivatePlain(k, k2);
  }

  lemma PriorityFrame(k: Kernel, x: Id, priority: nat)
    ensures var k' := SetPriority(k, x, priority);
      k'.limits == k.limits && k'.processes == k.processes && k'.servers == k.servers
  {
  }

  lemma PriorityPlain(k: Kernel, priority: nat)
    ensures Plain(k, ChangePriority(k, priority).0)
  {
    hide Activate, SetPriority, SetResult;
    var k1 := SetResult(SetPriority(k, k.current, priority), k.current, Done);
    PriorityFrame(k, k.current, priority);
    FieldsWoken(SetPriority(k, k.current, priority), k.current, Done, None);
    ThreadsPlain(k, k1);
    ActivatePlain(k, k1);
  }

  lemma NewThreadPlain(k: Kernel, tid: nat)
    ensures Plain(k, CreateThread(k, tid).0)
  {
    hide SetState, SetPriority;
    var x := Id(k.current.pid, tid);
    StateFrame(k, x, Ready);
    if k.current in k.threads { PriorityFrame(SetState(k, x, Ready), x, k.threads[k.current].priority); }
    ThreadsPlain(k, CreateThread(k, tid).0);
  }

  lemma NewProcessPlain(k: Kernel, space: Result<()>)
    ensures Plain(k, CreateProcess(k, space).0)
  {
    hide FreePid, SetState;
    var pid := FreePid(k, 1);
    var k1 := WithProcess(k, pid, NewProcess(k));
    StateFrame(k1, Id(pid, INITIAL_TID), Ready);
  }

  lemma WaitPlain(k: Kernel, tid: nat, pid: nat, addr: nat, same: bool)
    ensures Plain(k, Join(k, tid).0) && Plain(k, WaitFor(k, pid).0) && Plain(k, FutexWait(k, addr, same).0)
  {
    hide Activate, Suspend, SetResult;
    ThreadsPlain(k, k);
    FieldsWoken(k, k.current, Done, None);
    WokenPlain(k, k, SetResult(k, k.current, Done));
    ParkPlain(k, k, WaitJoin(tid));
    ParkPlain(k, k, WaitProcessExit(pid));
    ParkPlain(k, SetResult(k, k.current, Done), WaitFutex(addr));
  }

  lemma WakePlain(k: Kernel, addr: nat, n: nat)
    ensures Plain(k, FutexWake(k, addr, n).0)
  {
    hide WakeFutex;
    var threads := if k.limits.threads == 0 then 0 else k.limits.threads - 1;
    WakeFutexWoken(k, k.current.pid, addr, n, 1, threads);
    ThreadsPlain(k, k);
    WokenPlain(k, k, WakeFutex(k, k.current.pid, addr, n, 1, threads));
  }

  lemma AwaitPlain(k: Kernel, mask: set<nat>)
    ensures Plain(k, AwaitEvent(k, mask).0)
  {
    hide Activate, SetState, SetResult;
    if mask != {} && k.current.pid in k.processes {
      var p := k.processes[k.current.pid];
      var k1 := k.(processes := k.processes[k.current.pid := p.(notificationBits := p.notificationBits - mask)]);
      assert Plain(k, k1);
      var k2 := SetResult(k1, k.current, Done);
      FieldsWoken(k1, k.current, Done, None);
      WokenPlain(k, k1, k2);
      StateFrame(k2, k.current, WaitEvent(mask));
      assert Plain(k, SetState(k2, k.current, WaitEvent(mask)));
      ActivatePlain(k, SetState(k2, k.current, WaitEvent(mask)));
    }
  }

  lemma EventPlain(k: Kernel, target: nat, bits: set<nat>, pid: nat)
    ensures Plain(k, PostEvent(k, target, bits).0) && Plain(k, EnterIrq(k, pid).0)
  {
    hide PostBits, SetState;
    PostBitsMild(k, target, bits);
    StateFrame(k, Id(pid, IRQ_TID), Ready);
  }

  lemma RegisterPlain(k: Kernel, event: SystemEvent, sid: nat, id: nat)
    ensures Plain(k, RegisterHandler(k, event, sid, id).0)
  {
  }

  lemma ReturnsPlain(k: Kernel, value: nat)
    ensures Plain(k, ThreadExited(k, value).0)
  {
    hide Activate, ClearThread, WakeJoiners;
    var k1 := ClearThread(k, k.current);
    ClearFrame(k, k.current);
    WakeJoinersWoken(k1, k.current.pid, k.current.tid, value, 0, k.limits.threads);
    ThreadsPlain(k, k1);
    WokenPlain(k, k1, WakeJoiners(k1, k.current.pid, k.current.tid, value, 0, k.limits.threads));
    ActivatePlain(k, ThreadLeft(k, value));
  }

  // ---- Connections and endings ------------------------------------------------------------------

  /** No name is new, and the table of whoever is there before and after has gone through `events`. */
  ghost predicate Through(k: Kernel, k': Kernel, p: nat, events: seq<TableEvent>) {
    && k'.limits == k.limits && FewerNames(k, k')
    && (p in k.processes && p in k'.processes && 1 <= p <= k.limits.processes ==>
          Table(k', p) == AfterAll(Table(k, p), events))
  }

  function Connecting(k: Kernel, pid: nat, sid: nat, p: nat): seq<TableEvent> {
    var s := ServerIndex(k, sid, None, 0);
    if s < k.limits.servers && p == pid then [Opened(s, k.servers[s].permissions, k.servers[s].born)] else []
  }

  lemma OneEvent(c: seq<ConnectionSlot>, e: TableEvent)
    ensures AfterAll(c, [e]) == Connections.After(c, e) && AfterAll(c, []) == c
  {
    assert [e][1..] == [];
  }

  lemma ConnectThrough(k: Kernel, pid: nat, sid: nat, p: nat)
    ensures Through(k, Connect(k, pid, sid).0, p, Connecting(k, pid, sid, p))
  {
    hide ServerIndex, AfterAll, AddConnection;
    var s := ServerIndex(k, sid, None, 0);
    if s < k.limits.servers { OneEvent(Table(k, p), Opened(s, k.servers[s].permissions, k.servers[s].born)); }
    else { OneEvent(Table(k, p), ServerGone(0)); }
  }

  function Disconnecting(k: Kernel, cid: nat, p: nat): seq<TableEvent> {
    match Connection(k, k.current.pid, cid)
    case None => []
    case Some(slot) => if p == k.current.pid && !slot.FreeSlot? then [ClosedAt(cid - 2)] else []
  }

  lemma DisconnectThrough(k: Kernel, cid: nat, p: nat)
    ensures Through(k, Disconnect(k, cid).0, p, Disconnecting(k, cid, p))
  {
    hide AfterAll;
    OneEvent(Table(k, p), ClosedAt(if cid >= 2 then cid - 2 else 0));
  }

  function Closing(k: Kernel, sid: nat): seq<TableEvent> {
    var s := ServerIndex(k, sid, Some(k.current.pid), 0);
    if s < k.limits.servers then [ServerGone(s)] else []
  }

  lemma CloseThrough(k: Kernel, sid: nat, p: nat)
    ensures Through(k, DestroyServer(k, sid).0, p, Closing(k, sid))
  {
    hide AfterAll, DestroySidx, ServerIndex, Connections.After;
    var s := ServerIndex(k, sid, Some(k.current.pid), 0);
    OneEvent(Table(k, p), ServerGone(s));
    if s < k.limits.servers { DestroyEnds(k, s); }
  }

  lemma ThroughThen(k: Kernel, k1: Kernel, k2: Kernel, p: nat, events: seq<TableEvent>)
    requires Through(k, k1, p, events) && Plain(k1, k2) && (p in k2.processes ==> p in k1.processes)
    ensures Through(k, k2, p, events)
  {
  }

  lemma PlainTrans(k: Kernel, k1: Kernel, k2: Kernel)
    requires Plain(k, k1) && Plain(k1, k2) && k2.processes.Keys <= k1.processes.Keys
    ensures Plain(k, k2)
  {
  }

  /** What follows the closing of a process' servers touches nobody else's table. */
  lemma WindUpPlain(k1: Kernel, pid: nat, parent: Option<nat>, code: nat, n: nat)
    ensures var k2 := match parent
        case None => k1
        case Some(q) => SendEvent(k1, q, ChildTerminated, code);
      var k3 := WakeAll(k2, ExitWaiters(k2, pid, 1, k1.limits.processes, []), Value([code]));
      var k' := Activate(RemoveProcess(FreeThreads(k3, pid, 1, n), pid)).0;
      Plain(k1, k') && k'.processes.Keys <= k1.processes.Keys
  {
    hide SendEvent, WakeAll, ExitWaiters, FreeThreads, Activate;
    var k2 := match parent
      case None => k1
      case Some(q) => SendEvent(k1, q, ChildTerminated, code);
    if parent.Some? { SendEventMild(k1, parent.value, ChildTerminated, code); }
    var waiters := ExitWaiters(k2, pid, 1, k1.limits.processes, []);
    var k3 := WakeAll(k2, waiters, Value([code]));
    WakeAllWoken(k2, waiters, Value([code]));
    var k4 := FreeThreads(k3, pid, 1, n);
    FreeThreadsFrame(k3, pid, 1, n);
    assert Plain(k1, k4) && k4.processes.Keys == k1.processes.Keys;
    var k5 := RemoveProcess(k4, pid);
    RemovePlain(k4, pid);
    PlainTrans(k1, k4, k5);
    ActivatePlain(k1, k5);
    ActivateFrame(k5);
  }

  lemma RemovePlain(k: Kernel, pid: nat)
    ensures Plain(k, RemoveProcess(k, pid)) && RemoveProcess(k, pid).processes.Keys <= k.processes.Keys
  {
  }

  function Exiting(k: Kernel): seq<TableEvent> {
    if k.current.pid in k.processes then Gone(k, k.current.pid, 0, k.limits.servers) else []
  }

  lemma ExitThrough(k: Kernel, code: nat, p: nat)
    ensures Through(k, TerminateCurrent(k, code).0, p, Exiting(k))
  {
    hide CloseServers, SendEvent, WakeAll, ExitWaiters, FreeThreads, Activate, RemoveProcess, AfterAll, Gone;
    var pid := k.current.pid;
    if pid in k.processes {
      var k1 := CloseServers(k, pid, 0, k.limits.servers);
      CloseServersCloses(k, pid, 0, k.limits.servers);
      assert Through(k, k1, p, Exiting(k));
      WindUpPlain(k1, pid, k.processes[pid].ppid, code, if k.limits.threads == 0 then 0 else k.limits.threads - 1);
      ThroughThen(k, k1, TerminateCurrent(k, code).0, p, Exiting(k));
    } else {
      NothingThrough(k, k, p);
    }
  }

  lemma NothingThrough(k: Kernel, k': Kernel, p: nat)
    requires Plain(k, k')
    ensures Through(k, k', p, [])
  {
  }

  function Killing(k: Kernel, pid: nat): seq<TableEvent> {
    if pid == k.current.pid || pid !in k.processes || k.processes[pid].ppid == Some(KERNEL_PID) then []
    else Gone(k, pid, 0, k.limits.servers)
  }

  lemma KillThrough(k: Kernel, pid: nat, code: nat, p: nat)
    ensures Through(k, TerminateOther(k, pid, code).0, p, Killing(k, pid))
  {
    hide TerminateCurrent, AfterAll, Gone, SetResult;
    if Killing(k, pid) == [] { OneEvent(Table(k, p), ServerGone(0)); }
    if pid != k.current.pid && pid in k.processes && k.processes[pid].ppid != Some(KERNEL_PID) {
      FieldsWoken(k, k.current, Done, None);
      var k1 := SetResult(k, k.current, Done).(current := Id(pid, INITIAL_TID));
      ExitThrough(k1, code, p);
      SameGone(k, k1, pid, 0, k.limits.servers);
    }
  }

  // ---- A step -----------------------------------------------------------------------------------

  /** What `e` does to the table of process `p`. */
  function TableEvents(k: Kernel, e: Event, p: nat): seq<TableEvent> {
    if !e.SysCall? || !Legal(k, e.call) then []
    else
      match e.call
      case TryConnect(sid) => Connecting(k, k.current.pid, sid, p)
      case ConnectFor(pid, sid) => Connecting(k, pid, sid, p)
      case Close(cid) => Disconnecting(k, cid, p)
      case CloseServer(sid) => Closing(k, sid)
      case ExitProcess(_) => Exiting(k)
      case KillProcess(pid, _) => Killing(k, pid)
      case _ => []
  }

  predicate TouchesTables(c: Call) {
    c.TryConnect? || c.ConnectFor? || c.Close? || c.CloseServer? || c.ExitProcess? || c.KillProcess?
  }

  lemma TableCallThrough(k: Kernel, c: Call, p: nat)
    requires TouchesTables(c) && Legal(k, c)
    ensures Through(k, Dispatch(k, c).0, p, TableEvents(k, SysCall(c), p))
  {
    hide Through, Connect, Disconnect, DestroyServer, TerminateCurrent, TerminateOther, Connecting, Disconnecting,
         Closing, Killing, Gone;
    match c
    case TryConnect(sid) => ConnectThrough(k, k.current.pid, sid, p);
    case ConnectFor(pid, sid) => ConnectThrough(k, pid, sid, p);
    case Close(cid) => DisconnectThrough(k, cid, p);
    case CloseServer(sid) => CloseThrough(k, sid, p);
    case ExitProcess(code) => ExitThrough(k, code, p);
    case KillProcess(pid, code) => KillThrough(k, pid, code, p);
  }

  lemma MessageCallPlain(k: Kernel, c: Call)
    requires c.ReplyScalar? || c.ReplyMemory? || c.TryReceive? || c.ReceiveBlocking? || c.OpenServer? || c.Notify? ||
             c.Register? || c.WaitForEvent?
    ensures Plain(k, Dispatch(k, c).0)
  {
    hide Plain, ReturnResult, ReturnMemory, Receive, CreateServer, PostEvent, RegisterHandler, AwaitEvent;
    match c
    case ReplyScalar(sidx, idx, value) => ReplyPlain(k, sidx, idx, (0, 0), value, Ok(()));
    case ReplyMemory(sidx, idx, buf, value, returned) => ReplyPlain(k, sidx, idx, buf, value, returned);
    case TryReceive(sid) => ReceivePlain(k, sid, false);
    case ReceiveBlocking(sid) => ReceivePlain(k, sid, true);
    case OpenServer(sid, permissions, backing) => NewServerPlain(k, sid, permissions, backing);
    case Notify(pid, bits) => EventPlain(k, pid, bits, 0);
    case Register(event, sid, id) => RegisterPlain(k, event, sid, id);
    case WaitForEvent(mask) => AwaitPlain(k, mask);
  }

  lemma ThreadCallPlain(k: Kernel, c: Call)
    requires c.YieldSlice? || c.Prioritise? || c.StartThread? || c.StartProcess? || c.JoinThread? || c.WaitProcess? ||
             c.WaitOnFutex? || c.WakeOnFutex?
    ensures Plain(k, Dispatch(k, c).0)
  {
    hide Plain, Yield, ChangePriority, CreateThread, CreateProcess, Join, WaitFor, FutexWait, FutexWake;
    match c
    case YieldSlice => YieldPlain(k);
    case Prioritise(priority) => PriorityPlain(k, priority);
    case StartThread(tid) => NewThreadPlain(k, tid);
    case StartProcess(space) => NewProcessPlain(k, space);
    case JoinThread(tid) => WaitPlain(k, tid, 0, 0, false);
    case WaitProcess(pid) => WaitPlain(k, 0, pid, 0, false);
    case WaitOnFutex(addr, same) => WaitPlain(k, 0, 0, addr, same);
    case WakeOnFutex(addr, n) => WakePlain(k, addr, n);
  }

  /**
   Exactly an accepted blocking send adds a name, namely that of the running thread, and every table
   goes through the events of the step.
   */
  lemma StepFrame(k: Kernel, e: Event, p: nat)
    ensures var k' := Step(k, e).0;
      && k'.limits == k.limits
      && (if Asks(k, e) then AddsName(k, k', k.current) else FewerNames(k, k'))
      && (p in k.processes && p in k'.processes && 1 <= p <= k.limits.processes ==>
            Table(k', p) == AfterAll(Table(k, p), TableEvents(k, e, p)))
  {
    hide Dispatch, EnterIrq, ThreadExited, AfterAll, AddsName, SendParks, Connecting, Disconnecting, Closing, Exiting,
         Killing;
    OneEvent(Table(k, p), ServerGone(0));
    match e
    case Interrupt(pid) => EventPlain(k, 0, {}, pid);
    case ThreadReturns(value) => ReturnsPlain(k, value);
    case SysCall(c) =>
      if Legal(k, c) {
        if c.TrySend? || c.Send? { SendCallNames(k, c); }
        else if TouchesTables(c) { TableCallThrough(k, c, p); }
        else if c.ReplyScalar? || c.ReplyMemory? || c.TryReceive? || c.ReceiveBlocking? || c.OpenServer? ||
                c.Notify? || c.Register? || c.WaitForEvent? { MessageCallPlain(k, c); }
        else { ThreadCallPlain(k, c); }
      }
  }

  lemma SendCallNames(k: Kernel, c: Call)
    requires (c.TrySend? || c.Send?) && Legal(k, c)
    ensures SendsFrom(k, Dispatch(k, c).0, Asks(k, SysCall(c)))
  {
    hide SendsFrom, SendMessage, SendMessageRetrying, SendParks;
    match c
    case TrySend(cid, message, mapped) => SendNames(k, cid, message, mapped);
    case Send(cid, message, mapped) => RetryNames(k, cid, message, mapped);
  }

  // ---- Two slots, one thread --------------------------------------------------------------------

  /** Two slots name one thread. */
  ghost predicate SharedName(k: Kernel) {
    exists s, i, s', i' :: (s != s' || i != i') && NameAt(k, s, i).Some? && NameAt(k, s, i) == NameAt(k, s', i')
  }

  lemma FewerNotShared(k: Kernel, k': Kernel)
    requires NamesOk(k, None) && FewerNames(k, k')
    ensures !SharedName(k')
  {
    hide NameAt;
  }

  lemma AddedShares(k: Kernel, k': Kernel, x: Id)
    requires NamesOk(k, None) && AddsName(k, k', x)
    ensures SharedName(k') <==> !Unnamed(k, x)
  {
    hide NameAt;
    var s, i :| Added(k, k', x, s, i);
    if !Unnamed(k, x) {
      var s', i' :| NameAt(k, s', i') == Some(x);
      assert NameAt(k', s', i') == NameAt(k', s, i);
    }
  }

  /**
   From any state that meets the invariants, whatever thread is running: two slots name one thread
   after a step exactly if the step is an accepted blocking send of a thread that a slot already names.
   */
  lemma SharedNameExactly(k: Kernel, e: Event)
    requires Inv(k)
    ensures SharedName(Step(k, e).0) <==> Asks(k, e) && !Unnamed(k, k.current)
  {
    hide Step, Asks, NameAt, Unnamed, FewerNames, AddsName, SharedName, NamesOk;
    StepFrame(k, e, 0);
    assert NamesOk(k, None);
    if Asks(k, e) { AddedShares(k, Step(k, e).0, k.current); } else { FewerNotShared(k, Step(k, e).0); }
  }
}
