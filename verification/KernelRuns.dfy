/** Whole runs of the kernel, from its start. */
module KernelRuns {
  import opened Common
  import opened Rings
  import opened ServerQueue
  import opened KernelState
  import opened KernelSteps
  import opened KernelInv
  import opened KernelMessages
  import opened KernelActivate
  import opened KernelCalls
  import opened KernelTables
  import opened KernelDestroy
  import opened KernelExit

  /** The system calls.  Arguments beyond the caller's own tell how the parts that are not modelled turned out. */
  datatype Call =
    | TrySend(cid: nat, message: Message, mapped: Result<nat>)
    | Send(cid: nat, message: Message, mapped: Result<nat>)
    | ReplyScalar(sidx: nat, idx: nat, value: Reply)
    | ReplyMemory(sidx: nat, idx: nat, buf: (nat, nat), value: Reply, returned: Result<()>)
    | TryReceive(sid: nat)
    | ReceiveBlocking(sid: nat)
    | OpenServer(sid: nat, permissions: P.Permissions, backing: Result<nat>)
    | CloseServer(sid: nat)
    | TryConnect(sid: nat)
    | ConnectFor(pid: nat, sid: nat)
    | Close(cid: nat)
    | YieldSlice
    | Prioritise(priority: nat)
    | StartThread(tid: nat)
    | StartProcess(space: Result<()>)
    | JoinThread(tid: nat)
    | WaitProcess(pid: nat)
    | WaitOnFutex(addr: nat, same: bool)
    | WakeOnFutex(addr: nat, n: nat)
    | WaitForEvent(mask: set<nat>)
    | Notify(pid: nat, bits: set<nat>)
    | Register(event: SystemEvent, sid: nat, id: nat)
    | ExitProcess(code: nat)
    | KillProcess(pid: nat, code: nat)

  /** What moves the kernel: a call of the running thread, an interrupt, or the return of a thread's main function. */
  datatype Event = SysCall(call: Call) | Interrupt(pid: nat) | ThreadReturns(value: nat)

  /** The calls an interrupt handler may make. */
  predicate FromInterrupt(c: Call) {
    match c
    case TrySend(_, message, _) => !message.IsBlocking()
    case TryConnect(_) => true
    case TryReceive(_) => true
    case ReplyScalar(_, _, _) => true
    case ReplyMemory(_, _, _, _, _) => true
    case Notify(_, _) => true
    case _ => false
  }

  predicate Legal(k: Kernel, c: Call) {
    k.current.tid == IRQ_TID ==> FromInterrupt(c)
  }

  function Dispatch(k: Kernel, c: Call): (Kernel, Outcome) {
    match c
    case TrySend(cid, message, mapped) => SendMessage(k, cid, message, mapped)
    case Send(cid, message, mapped) => SendMessageRetrying(k, cid, message, mapped)
    case ReplyScalar(sidx, idx, value) => ReturnResult(k, sidx, idx, value)
    case ReplyMemory(sidx, idx, buf, value, returned) => ReturnMemory(k, sidx, idx, buf, value, returned)
    case TryReceive(sid) => Receive(k, sid, false)
    case ReceiveBlocking(sid) => Receive(k, sid, true)
    case OpenServer(sid, permissions, backing) => CreateServer(k, sid, permissions, backing)
    case CloseServer(sid) => DestroyServer(k, sid)
    case TryConnect(sid) => Connect(k, k.current.pid, sid)
    case ConnectFor(pid, sid) => Connect(k, pid, sid)
    case Close(cid) => Disconnect(k, cid)
    case YieldSlice => Yield(k)
    case Prioritise(priority) => ChangePriority(k, priority)
    case StartThread(tid) => CreateThread(k, tid)
    case StartProcess(space) => CreateProcess(k, space)
    case JoinThread(tid) => Join(k, tid)
    case WaitProcess(pid) => WaitFor(k, pid)
    case WaitOnFutex(addr, same) => FutexWait(k, addr, same)
    case WakeOnFutex(addr, n) => FutexWake(k, addr, n)
    case WaitForEvent(mask) => AwaitEvent(k, mask)
    case Notify(pid, bits) => PostEvent(k, pid, bits)
    case Register(event, sid, id) => RegisterHandler(k, event, sid, id)
    case ExitProcess(code) => TerminateCurrent(k, code)
    case KillProcess(pid, code) => TerminateOther(k, pid, code)
  }

  function Step(k: Kernel, e: Event): (Kernel, Outcome) {
    match e
    case SysCall(c) =>
      if Legal(k, c) then Dispatch(k, c) else (k, Error(InvalidSyscall))
    case Interrupt(pid) => EnterIrq(k, pid)
    case ThreadReturns(value) => ThreadExited(k, value)
  }

  /** The calls that may park the running thread. */
  predicate MayPark(c: Call) {
    || (c.TrySend? && c.message.IsBlocking()) || c.Send? || c.ReceiveBlocking? || c.JoinThread? || c.WaitProcess?
    || c.WaitOnFutex? || c.WaitForEvent?
  }

  /**
   What the rest of the system guarantees: the idle thread does not park and the kernel's own process
   does not end; a priority is one of the sixteen; the page that backs a queue holds between 1 and 255
   slots; mapping a message's pages does not report a full queue; interrupts do not nest.  It does not
   guarantee that a new thread has a free entry in the thread table, which is asked for here as well:
   see `KernelTheorems.NewThreadFits`.
   */
  predicate Enabled(k: Kernel, e: Event) {
    match e
    case Interrupt(pid) => !k.inIrq && pid in k.processes
    case ThreadReturns(_) => k.current != IDLE
    case SysCall(c) =>
      && (MayPark(c) ==> k.current != IDLE)
      && match c
         case Send(_, _, mapped) => mapped != Err(ServerQueueFull)
         case OpenServer(_, _, backing) => backing.Ok? ==> 0 < backing.value < GENERATIONS
         case Prioritise(priority) => priority < NUM_PRIORITIES
         case StartThread(tid) =>
           tid != IRQ_TID && Id(k.current.pid, tid) in k.threads && k.threads[Id(k.current.pid, tid)].state.Free?
         case ExitProcess(_) => k.current.pid != KERNEL_PID
         case _ => true
  }

  /** No server is closed while a thread is parked on it. */
  predicate Orderly(k: Kernel, e: Event) {
    e.SysCall? && e.call.CloseServer? ==>
      var s := ServerIndex(k, e.call.sid, Some(k.current.pid), 0);
      s >= k.limits.servers || k.current.tid == IRQ_TID || k.servers[s].q.readyThreads == {}
  }

  // ---- Leaving the processor --------------------------------------------------------------------

  /** If `e` takes the running thread off the processor: the kernel once it has, before the next thread is chosen. */
  function Leaving(k: Kernel, e: Event): Option<Kernel> {
    match e
    case Interrupt(_) => None
    case ThreadReturns(value) => Some(ThreadLeft(k, value))
    case SysCall(c) =>
      if !Legal(k, c) then None
      else
        match c
        case TrySend(cid, message, mapped) => SendParks(k, cid, message, mapped)
        case Send(cid, message, mapped) =>
          var retry := RetryParks(k, cid, message, mapped);
          if retry.Some? then retry else SendParks(k, cid, message, mapped)
        case ReceiveBlocking(sid) => ReceiveParks(k, sid)
        case JoinThread(tid) => JoinParks(k, tid)
        case WaitProcess(pid) => WaitParks(k, pid)
        case WaitOnFutex(addr, same) => FutexParks(k, addr, same)
        case WaitForEvent(mask) => EventParks(k, mask)
        case _ => None
  }

  /** `e` takes the running thread off the processor while the first thread that need not wait has lost its server. */
  predicate Derails(k: Kernel, e: Event) {
    Derailed(Leaving(k, e))
  }

  // ---- One step ---------------------------------------------------------------------------------

  /** The kernel between two events: all invariants hold and the running thread may run. */
  ghost predicate Sound(k: Kernel) {
    Inv(k) && CurrentOk(k)
  }

  /**
   In a call that leaves the processor the caller is no longer ready, and all that remains is to
   choose the next thread.
   */
  lemma LeavingChooses(k: Kernel, e: Event)
    requires Sound(k) && Enabled(k, e) && Leaving(k, e).Some?
    ensures var left := Leaving(k, e).value;
      Step(k, e) == Activate(left) && left.current == k.current && !IsReady(left, k.current)
  {
    hide Base, Ipc, IdleOk, ConnsOk, CurrentOk, Activate, SendInner, Suspend, SetState, SetResult, SetQueue,
         TakeMessage, Permitted, Connection, ServerIndex, ThreadLeft;
    match e
    case ThreadReturns(value) => ThreadLeftOk(k, value);
    case SysCall(c) =>
      match c {
        case TrySend(cid, message, mapped) => SendLeaves(k, cid, message, mapped);
        case Send(cid, message, mapped) => RetryLeaves(k, cid, message, mapped);
        case ReceiveBlocking(sid) => ReceiveLeaves(k, sid);
        case JoinThread(tid) => SuspendLeaves(k, WaitJoin(tid));
        case WaitProcess(pid) => SuspendLeaves(k, WaitProcessExit(pid));
        case WaitOnFutex(addr, same) => SuspendLeaves(SetResult(k, k.current, Done), WaitFutex(addr)); ResultCurrent(k);
        case WaitForEvent(mask) => EventLeaves(k, mask);
      }
  }

  lemma StateLeaves(k: Kernel, state: ThreadState)
    requires !state.Ready?
    ensures var k' := SetState(k, k.current, state);
      k'.current == k.current && !IsReady(k', k.current)
  {
    hide RingAdd, RingDrop;
  }

  lemma SuspendLeaves(k: Kernel, f: KernelFuture)
    ensures var k' := Suspend(k, k.current, f);
      k'.current == k.current && !IsReady(k', k.current)
  {
    hide SetState;
    StateLeaves(SetFuture(k, k.current, Some(f)), WaitEvent(SuspensionMask(f)));
  }

  lemma ResultCurrent(k: Kernel)
    ensures SetResult(k, k.current, Done).current == k.current
  {
  }

  lemma EventLeaves(k: Kernel, mask: set<nat>)
    requires EventParks(k, mask).Some?
    ensures var left := EventParks(k, mask).value;
      AwaitEvent(k, mask) == Activate(left) && left.current == k.current && !IsReady(left, k.current)
  {
    hide SetState, Activate;
    var p := k.processes[k.current.pid];
    var k1 := k.(processes := k.processes[k.current.pid := p.(notificationBits := p.notificationBits - mask)]);
    StateLeaves(SetResult(k1, k.current, Done), WaitEvent(mask));
  }

  lemma ReceiveLeaves(k: Kernel, sid: nat)
    requires ReceiveParks(k, sid).Some?
    ensures var left := ReceiveParks(k, sid).value;
      Receive(k, sid, true) == Activate(left) && left.current == k.current && !IsReady(left, k.current)
  {
    hide Suspend, Activate, TakeMessage, ServerIndex;
    var sidx := ServerIndex(k, sid, Some(k.current.pid), 0);
    var e := k.servers[sidx];
    SuspendLeaves(SetQueue(k, sidx, e.q.(readyThreads := e.q.readyThreads + {k.current.tid})),
          ReceiveMessage(sidx, e.born));
  }

  lemma SendLeaves(k: Kernel, cid: nat, message: Message, mapped: Result<nat>)
    requires Sound(k) && (message.IsBlocking() ==> MaySuspend(k)) && SendParks(k, cid, message, mapped).Some?
    ensures var left := SendParks(k, cid, message, mapped).value;
      SendMessage(k, cid, message, mapped) == Activate(left) && left.current == k.current && !IsReady(left, k.current)
  {
    hide Base, Ipc, IdleOk, ConnsOk, Suspend, Activate, SendInner, Permitted, Connection, Tame;
    var s := Lookup(k, cid).value;
    var k1 := SendInner(k, k.current, s, message, mapped).0;
    SendInnerOk(k, k.current, s, message, mapped);
    TameCurrent(k, k1);
    SuspendLeaves(k1, WaitBlocking);
  }

  lemma RetryLeaves(k: Kernel, cid: nat, message: Message, mapped: Result<nat>)
    requires Sound(k) && MaySuspend(k) && mapped != Err(ServerQueueFull)
    ensures var retry, sent := RetryParks(k, cid, message, mapped), SendParks(k, cid, message, mapped);
      var left := if retry.Some? then retry else sent;
      left.Some? ==>
        && SendMessageRetrying(k, cid, message, mapped) == Activate(left.value)
        && left.value.current == k.current && !IsReady(left.value, k.current)
  {
    hide Inv, SetState, Activate, SendMessage, SendParks, SendMessageRetrying, Lookup, Ends;
    var retry, sent := RetryParks(k, cid, message, mapped), SendParks(k, cid, message, mapped);
    SendRetryingKeeps(k, cid, message, mapped);
    if retry.Some? {
      var s := Lookup(k, cid).value;
      StateLeaves(k, RetryQueueFull(s, k.servers[s].born));
    } else if sent.Some? {
      SendLeaves(k, cid, message, mapped);
    }
  }

  lemma NotInIrq(k: Kernel)
    requires Base(k) && CurrentOk(k) && k.current.tid != IRQ_TID
    ensures !k.inIrq && k.current.pid in k.processes
  {
  }

  /** `e` is a send of a blocking message that is accepted. */
  predicate Asks(k: Kernel, e: Event) {
    e.SysCall? && Legal(k, e.call) && (e.call.TrySend? || e.call.Send?) &&
    SendParks(k, e.call.cid, e.call.message, e.call.mapped).Some?
  }

  function Asker(k: Kernel, e: Event): Option<Id> {
    if Asks(k, e) then Some(k.current) else None
  }

  lemma SendCallEnds(k: Kernel, c: Call)
    requires Sound(k) && Enabled(k, SysCall(c)) && (c.TrySend? || c.Send?) && Legal(k, c)
    ensures Ends(k, Dispatch(k, c).0, Asker(k, SysCall(c)), Leaving(k, SysCall(c)))
  {
    hide Inv, NoStale, SendMessage, SendMessageRetrying, Ends, SendParks, RetryParks;
    match c
    case TrySend(cid, message, mapped) => SendKeeps(k, cid, message, mapped);
    case Send(cid, message, mapped) => SendRetryingKeeps(k, cid, message, mapped);
  }

  lemma MessageCallEnds(k: Kernel, c: Call)
    requires Sound(k) && Enabled(k, SysCall(c)) && Legal(k, c)
    requires c.ReplyScalar? || c.ReplyMemory? || c.TryReceive? || c.ReceiveBlocking? || c.Notify? || c.WaitForEvent? ||
             c.Register?
    ensures Ends(k, Dispatch(k, c).0, None, Leaving(k, SysCall(c)))
  {
    hide Inv, NoStale, Ends, ReturnResult, ReturnMemory, Receive, PostEvent, AwaitEvent, RegisterHandler,
         ReceiveParks, EventParks;
    match c
    case ReplyScalar(sidx, idx, value) => ReturnResultKeeps(k, sidx, idx, value);
    case ReplyMemory(sidx, idx, buf, value, returned) => ReturnMemoryKeeps(k, sidx, idx, buf, value, returned);
    case TryReceive(sid) => ReceiveKeeps(k, sid, false);
    case ReceiveBlocking(sid) => ReceiveKeeps(k, sid, true);
    case Notify(pid, bits) => PostEventKeeps(k, pid, bits);
    case WaitForEvent(mask) => AwaitEventKeeps(k, mask);
    case Register(event, sid, id) => RegisterHandlerKeeps(k, event, sid, id);
  }

  lemma TableCallKeeps(k: Kernel, c: Call)
    requires Sound(k) && Enabled(k, SysCall(c))
    requires c.OpenServer? || c.TryConnect? || c.ConnectFor? || c.Close? || c.StartThread? || c.StartProcess?
    ensures Keeps(k, Dispatch(k, c).0) && Leaving(k, SysCall(c)).None?
  {
    hide Inv, NoStale, CurrentOk, Keeps, CreateServer, Connect, Disconnect, CreateThread, CreateProcess;
    match c
    case OpenServer(sid, permissions, backing) => CreateServerKeeps(k, sid, permissions, backing);
    case TryConnect(sid) => ConnectKeeps(k, k.current.pid, sid);
    case ConnectFor(pid, sid) => ConnectKeeps(k, pid, sid);
    case Close(cid) => DisconnectKeeps(k, cid);
    case StartThread(tid) => CreateThreadKeeps(k, tid);
    case StartProcess(space) => CreateProcessKeeps(k, space);
  }

  lemma ThreadCallEnds(k: Kernel, c: Call)
    requires Sound(k) && Enabled(k, SysCall(c)) && Legal(k, c)
    requires c.YieldSlice? || c.Prioritise? || c.JoinThread? || c.WaitProcess? || c.WaitOnFutex? || c.WakeOnFutex?
    ensures Ends(k, Dispatch(k, c).0, None, Leaving(k, SysCall(c)))
  {
    hide Inv, NoStale, Ends, Yield, ChangePriority, Join, WaitFor, FutexWait, FutexWake, JoinParks, WaitParks,
         FutexParks;
    match c
    case YieldSlice => YieldKeeps(k);
    case Prioritise(priority) => ChangePriorityKeeps(k, priority);
    case JoinThread(tid) => JoinKeeps(k, tid);
    case WaitProcess(pid) => WaitForKeeps(k, pid);
    case WaitOnFutex(addr, same) => FutexWaitKeeps(k, addr, same);
    case WakeOnFutex(addr, n) => FutexWakeKeeps(k, addr, n);
  }

  lemma ExitCallKeeps(k: Kernel, c: Call)
    requires Sound(k) && Enabled(k, SysCall(c)) && Legal(k, c) && (c.ExitProcess? || c.KillProcess?)
    ensures Keeps(k, Dispatch(k, c).0) && Leaving(k, SysCall(c)).None?
  {
    hide NoStale, Keeps, TerminateCurrent, TerminateOther, Base, Ipc, IdleOk, ConnsOk, CurrentOk;
    NotInIrq(k);
    match c
    case ExitProcess(code) => TerminateKeeps(k, code);
    case KillProcess(pid, code) => TerminateOtherKeeps(k, pid, code);
  }

  /** How every event but the closing of a server ends. */
  lemma EventEnds(k: Kernel, e: Event)
    requires Sound(k) && Enabled(k, e) && !(e.SysCall? && e.call.CloseServer?)
    ensures Ends(k, Step(k, e).0, Asker(k, e), Leaving(k, e))
  {
    hide Dispatch, Inv, NoStale, CurrentOk, FromInterrupt, EnterIrq, ThreadExited, Ends, ThreadLeft, SendParks,
         RetryParks, ReceiveParks, JoinParks, WaitParks, FutexParks, EventParks;
    match e
    case Interrupt(pid) => EnterIrqKeeps(k, pid);
    case ThreadReturns(value) => ThreadExitedKeeps(k, value);
    case SysCall(c) =>
      UnchangedKeeps(k);
      if Legal(k, c) {
        if c.TrySend? || c.Send? { SendCallEnds(k, c); }
        else if c.ReplyScalar? || c.ReplyMemory? || c.TryReceive? || c.ReceiveBlocking? || c.Notify? ||
                c.WaitForEvent? || c.Register? { MessageCallEnds(k, c); }
        else if c.OpenServer? || c.TryConnect? || c.ConnectFor? || c.Close? || c.StartThread? || c.StartProcess? {
          TableCallKeeps(k, c);
        }
        else if c.ExitProcess? || c.KillProcess? { ExitCallKeeps(k, c); }
        else { ThreadCallEnds(k, c); }
      }
  }

  /**
   Every event keeps all invariants.  It leaves a running thread that may run exactly if it does not
   take the running thread off the processor while the first thread that need not wait is a receiver
   whose server is gone.  Only the sender of an accepted blocking message starts to wait for a reply.
   While every receiver has its server no event derails, and it stays so exactly if no server is
   closed on which a thread is parked.
   */
  lemma StepKeeps(k: Kernel, e: Event)
    requires Sound(k) && Enabled(k, e)
    ensures Inv(Step(k, e).0)
    ensures CurrentOk(Step(k, e).0) <==> !Derails(k, e)
    ensures NoNewWaits(k, Step(k, e).0, Asker(k, e)) && Stays(k, Step(k, e).0)
    ensures NoStale(k) ==> !Derails(k, e) && (NoStale(Step(k, e).0) <==> Orderly(k, e))
  {
    hide Inv, NoStale, CurrentOk, NoNewWaits, Stays, EnterIrq, ThreadExited, DestroyServer, Leaving, HeadStale,
         Settle, FromInterrupt;
    if e.SysCall? && e.call.CloseServer? {
      CloseLeaves(k, e);
      RefWaits(k);
      DestroyServerKeeps(k, e.call.sid);
    } else {
      EventEnds(k, e);
    }
  }

  lemma CloseLeaves(k: Kernel, e: Event)
    requires e.SysCall? && e.call.CloseServer?
    ensures Leaving(k, e).None? && Asker(k, e).None? && !FromInterrupt(e.call)
  {
  }

  // ---- Whole runs -------------------------------------------------------------------------------

  function Run(k: Kernel, es: seq<Event>): Kernel
    decreases |es|
  {
    if es == [] then k else Run(Step(k, es[0]).0, es[1..])
  }

  /** A run in which no event derails. */
  ghost predicate SoundRun(k: Kernel, es: seq<Event>)
    decreases |es|
  {
    es != [] ==> Enabled(k, es[0]) && !Derails(k, es[0]) && SoundRun(Step(k, es[0]).0, es[1..])
  }

  lemma {:induction false} RunAppend(k: Kernel, a: seq<Event>, b: seq<Event>)
    ensures Run(k, a + b) == Run(Run(k, a), b)
    ensures SoundRun(k, a + b) <==> SoundRun(k, a) && SoundRun(Run(k, a), b)
    decreases |a|
  {
    hide Step, Derails, Enabled;
    if a == [] {
      assert a + b == b;
    } else {
      assert (a + b)[0] == a[0] && (a + b)[1..] == a[1..] + b;
      RunAppend(Step(k, a[0]).0, a[1..], b);
    }
  }

  lemma RunOne(k: Kernel, e: Event)
    ensures Run(k, [e]) == Step(k, e).0
    ensures SoundRun(k, [e]) <==> Enabled(k, e) && !Derails(k, e)
  {
    hide Step, Derails, Enabled;
    assert [e][1..] == [];
  }

  lemma {:induction false} RunKeeps(k: Kernel, es: seq<Event>)
    requires Sound(k) && SoundRun(k, es)
    ensures Sound(Run(k, es))
    decreases |es|
  {
    if es == [] {
    } else {
      hide Inv, NoStale, CurrentOk, Step, NoNewWaits, Stays, Derails;
      StepKeeps(k, es[0]);
      RunKeeps(Step(k, es[0]).0, es[1..]);
    }
  }

  /** A run in which no server is closed while a thread is parked on it. */
  ghost predicate OrderlyRun(k: Kernel, es: seq<Event>)
    decreases |es|
  {
    es != [] ==> Enabled(k, es[0]) && Orderly(k, es[0]) && OrderlyRun(Step(k, es[0]).0, es[1..])
  }

  /** Such a run never derails: closing servers only when nobody is parked on them is enough. */
  lemma {:induction false} OrderlyIsSound(k: Kernel, es: seq<Event>)
    requires Good(k) && OrderlyRun(k, es)
    ensures SoundRun(k, es) && Good(Run(k, es))
    decreases |es|
  {
    if es == [] {
    } else {
      hide Inv, NoStale, CurrentOk, Step, NoNewWaits, Stays, Derails;
      StepKeeps(k, es[0]);
      OrderlyIsSound(Step(k, es[0]).0, es[1..]);
    }
  }

  /** The kernel after start-up, with nothing but its own process. */
  function Boot(l: Limits): Kernel {
    Kernel(l,
           map[KERNEL_PID := Process(Some(KERNEL_PID), seq(l.connections, _ => FreeSlot), {}, map[])],
           map t: nat | t < l.threads :: Id(KERNEL_PID, t) :=
             if t == INITIAL_TID then Thread(Ready, 0, None, None, None) else NewThread(),
           map[],
           seq(NUM_PRIORITIES, p => if p == 0 then [IDLE] else []),
           false, IDLE, 0)
  }

  ghost predicate Reachable(k: Kernel) {
    exists l, es :: Start(l, es) && k == Run(Boot(l), es)
  }

  /** A run from start-up; a thread mask is a 64-bit word. */
  ghost predicate Start(l: Limits, es: seq<Event>) {
    2 <= l.threads <= MASK_BITS && 1 <= l.processes && SoundRun(Boot(l), es)
  }

  lemma BootThreads(l: Limits)
    ensures forall x: Id :: x in Boot(l).threads <==> x.pid == KERNEL_PID && x.tid < l.threads
    ensures forall x | x in Boot(l).threads ::
              Boot(l).threads[x] == if x == IDLE then Thread(Ready, 0, None, None, None) else NewThread()
  {
  }

  lemma BootBase(l: Limits)
    requires 2 <= l.threads <= MASK_BITS && 1 <= l.processes
    ensures Base(Boot(l))
  {
  }

  lemma BootGood(l: Limits)
    requires 2 <= l.threads <= MASK_BITS && 1 <= l.processes
    ensures Good(Boot(l))
  {
  }

  /** In every state the kernel can reach, all invariants hold. */
  lemma ReachableSound(k: Kernel)
    requires Reachable(k)
    ensures Sound(k)
  {
    var l, es :| Start(l, es) && k == Run(Boot(l), es);
    hide Inv, CurrentOk, NoStale, SoundRun, Run, Boot;
    BootGood(l);
    RunKeeps(Boot(l), es);
  }
}
