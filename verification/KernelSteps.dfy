/** The system calls, each as one step of the kernel (xous/kernel/src/syscall.rs, services.rs). */
module KernelSteps {
  import opened Common
  import opened Rings
  import opened ServerQueue
  import opened KernelState

  // ---- Sending ----------------------------------------------------------------------------------

  /** The message as the server sees it; `mapped` is where its pages went, or why they could not go. */
  function Translate(message: Message, mapped: Result<nat>): Result<Message> {
    if message.Scalar? || message.BlockingScalar? then Ok(message)
    else if mapped.Err? then Err(mapped.error)
    else Ok(message.(memory := message.memory.(addr := mapped.value)))
  }

  /** Where a message's pages came from. */
  function ClientAddress(message: Message): Option<nat> {
    if message.Scalar? || message.BlockingScalar? || message.memory.addr == 0 then None else Some(message.memory.addr)
  }

  /** Give a message to a server thread that was parked waiting for one. */
  function HandOver(k: Kernel, x: Id, r: Reply): Kernel {
    SetResult(SetState(SetFuture(k, x, None), x, Ready), x, r)
  }

  /** A message handed over directly was sent and received at once. */
  function Passed(q: ServerState, m: Message): ServerState {
    q.(sent := q.sent + [m], received := q.received + [m])
  }

  function SendInner(k: Kernel, sender: Id, sidx: nat, message: Message, mapped: Result<nat>): (Kernel, Result<()>) {
    if sidx !in k.servers then (k, Err(ServerNotFound))
    else
      var q := k.servers[sidx].q;
      if q.emptyCount == 0 then (k, Err(ServerQueueFull))
      else
        var translated := Translate(message, mapped);
        if translated.Err? then (k, Err(translated.error))
        else
          var m := translated.value;
          match AvailableThread(q)
          case Some(t) =>
            var q1 := q.(readyThreads := q.readyThreads - {t});
            if !m.IsBlocking() then
              (HandOver(SetQueue(k, sidx, Passed(q1, m)), Id(q.pid, t), Delivered(sidx, Envelope(sender.pid, 0, m))),
               Ok(()))
            else
              var (r, q2) := QueueResponse(q1, sender.pid, sender.tid, m, ClientAddress(message));
              if r.Err? then (SetQueue(k, sidx, q2.(readyThreads := q.readyThreads)), Err(r.error))
              else (HandOver(SetQueue(k, sidx, Passed(q2, m)), Id(q.pid, t),
                             Delivered(sidx, Envelope(sender.pid, r.value, m))), Ok(()))
          case None =>
            var (r, q1) := QueueMessage(q, sender.pid, sender.tid, m, ClientAddress(message));
            if r.Err? then (SetQueue(k, sidx, q1), Err(r.error))
            else (PostBits(SetQueue(k, sidx, q1), q.pid, {EVENT_SERVER_MSG}), Ok(()))
  }

  /** The server a connection of the running process leads to. */
  function Lookup(k: Kernel, cid: nat): Result<nat> {
    match Connection(k, k.current.pid, cid)
    case Some(Connected(sidx, _, _, _)) => Ok(sidx)
    case _ => Err(ServerNotFound)
  }

  predicate Permitted(k: Kernel, cid: nat, sidx: nat, message: Message) {
    sidx in k.servers &&
    (k.servers[sidx].q.pid == k.current.pid ||
     match Connection(k, k.current.pid, cid)
     case Some(Connected(_, _, permissions, _)) => permissions.IsPermitted(message.MessageId())
     case _ => false)
  }

  /** Sending over a connection; a blocking sender is suspended until it is answered. */
  function SendMessage(k: Kernel, cid: nat, message: Message, mapped: Result<nat>): (Kernel, Outcome) {
    var found := Lookup(k, cid);
    if found.Err? then (k, Error(found.error))
    else if !Permitted(k, cid, found.value, message) then (k, Error(AccessDenied))
    else
      var (k1, r) := SendInner(k, k.current, found.value, message, mapped);
      if r.Err? then (k1, Error(r.error))
      else Activate(if message.IsBlocking() then Suspend(k1, k.current, WaitBlocking)
                    else SetResult(k1, k.current, Done))
  }

  /** The kernel once a blocking send has been accepted and its sender suspended, before the next thread is chosen. */
  function SendParks(k: Kernel, cid: nat, message: Message, mapped: Result<nat>): Option<Kernel> {
    var found := Lookup(k, cid);
    if found.Err? || !Permitted(k, cid, found.value, message) || !message.IsBlocking() then None
    else
      var (k1, r) := SendInner(k, k.current, found.value, message, mapped);
      if r.Err? then None else Some(Suspend(k1, k.current, WaitBlocking))
  }

  /** The kernel once a sender that found the queue full has been put to wait for room. */
  function RetryParks(k: Kernel, cid: nat, message: Message, mapped: Result<nat>): Option<Kernel> {
    var found := Lookup(k, cid);
    if SendMessage(k, cid, message, mapped).1 != Error(ServerQueueFull) || found.Err? ||
       found.value !in k.servers then None
    else Some(SetState(k, k.current, RetryQueueFull(found.value, k.servers[found.value].born)))
  }

  /** The variant that waits for room in a full queue. */
  function SendMessageRetrying(k: Kernel, cid: nat, message: Message, mapped: Result<nat>): (Kernel, Outcome) {
    var (k1, r) := SendMessage(k, cid, message, mapped);
    if r != Error(ServerQueueFull) then (k1, r)
    else
      var found := Lookup(k1, cid);
      if found.Err? || found.value !in k1.servers then (k1, Error(ServerNotFound))
      else Activate(SetState(k1, k1.current, RetryQueueFull(found.value, k1.servers[found.value].born)))
  }

  // ---- Answering --------------------------------------------------------------------------------

  /** Take a waiting message out of a server of the running process. */
  function TakeReply(k: Kernel, sidx: nat, idx: nat, buf: Option<(nat, nat)>): (Kernel, Result<WaitingMessage>) {
    if sidx !in k.servers || k.servers[sidx].q.pid != k.current.pid then (k, Err(ServerNotFound))
    else
      var (r, q) := TakeWaiting(k.servers[sidx].q, idx, buf);
      if r.Err? then (k, r) else (SetQueueWaking(k, sidx, q), r)
  }

  function ReturnResult(k: Kernel, sidx: nat, idx: nat, value: Reply): (Kernel, Outcome) {
    var (k1, r) := TakeReply(k, sidx, idx, None);
    match r
    case Err(e) => (k1, Error(e))
    case Ok(ScalarReply(p, t)) => Activate(SetResult(WakeWithResult(k1, Id(p, t), value), k.current, Done))
    case Ok(ScalarTerminated) => Activate(SetResult(k1, k.current, Done))
    case Ok(_) => (k1, Error(DoubleFree))
  }

  /** `returned` tells whether the lent pages could be given back or released. */
  function ReturnMemory(k: Kernel, sidx: nat, idx: nat, buf: (nat, nat), value: Reply, returned: Result<()>)
    : (Kernel, Outcome)
  {
    var (k1, r) := TakeReply(k, sidx, idx, Some(buf));
    match r
    case Err(e) => (k1, Error(e))
    case Ok(BorrowedMemory(p, t, _)) =>
      if returned.Err? then (k1, Error(returned.error))
      else Activate(SetResult(WakeWithResult(k1, Id(p, t), value), k.current, Done))
    case Ok(ForgetMemory(_, _)) =>
      if returned.Err? then (k1, Error(returned.error)) else Activate(SetResult(k1, k.current, Done))
    case Ok(_) => (k1, Error(DoubleFree))
  }

  // ---- Receiving --------------------------------------------------------------------------------

  function Receive(k: Kernel, sid: nat, blocking: bool): (Kernel, Outcome) {
    var sidx := ServerIndex(k, sid, Some(k.current.pid), 0);
    if sidx >= k.limits.servers then (k, Error(ServerNotFound))
    else
      var (k1, r) := TakeMessage(k, sidx);
      if r.Some? then (k1, Returned(Delivered(sidx, r.value)))
      else if !blocking then (k1, Returned(Nothing))
      else
        var e := k.servers[sidx];
        Activate(Suspend(SetQueue(k, sidx, e.q.(readyThreads := e.q.readyThreads + {k.current.tid})),
                         k.current, ReceiveMessage(sidx, e.born)))
  }

  /** The kernel once the running thread has parked on a server that has nothing for it. */
  function ReceiveParks(k: Kernel, sid: nat): Option<Kernel> {
    var sidx := ServerIndex(k, sid, Some(k.current.pid), 0);
    if sidx >= k.limits.servers || TakeMessage(k, sidx).1.Some? then None
    else
      var e := k.servers[sidx];
      Some(Suspend(SetQueue(k, sidx, e.q.(readyThreads := e.q.readyThreads + {k.current.tid})),
                   k.current, ReceiveMessage(sidx, e.born)))
  }

  // ---- Servers and connections ------------------------------------------------------------------

  function FreeServer(k: Kernel, i: nat): (s: nat)
    ensures s < k.limits.servers ==> i <= s && s !in k.servers
    decreases k.limits.servers - i
  {
    if i >= k.limits.servers then k.limits.servers else if i !in k.servers then i else FreeServer(k, i + 1)
  }

  /** `backing` is the number of slots in the page mapped for the queue, or why none could be mapped. */
  function CreateServer(k: Kernel, sid: nat, permissions: P.Permissions, backing: Result<nat>): (Kernel, Outcome) {
    var s := FreeServer(k, 0);
    if s >= k.limits.servers then (k, Error(ServerNotFound))
    else if backing.Err? then (k, Error(backing.error))
    else
      var q := NewQueue(sid, k.current.pid, backing.value);
      (k.(servers := k.servers[s := Entry(q, permissions, k.clock)], clock := k.clock + 1), Returned(Done))
  }

  function Connect(k: Kernel, pid: nat, sid: nat): (Kernel, Outcome) {
    var s := ServerIndex(k, sid, None, 0);
    if s >= k.limits.servers then (k, Error(ServerNotFound))
    else if pid !in k.processes then (k, Error(ProcessNotFound))
    else
      var (r, c) := AddConnection(k.processes[pid].connections, s, k.servers[s].permissions, k.servers[s].born);
      (SetConnections(k, pid, c), if r.Ok? then Returned(Value([r.value])) else Error(r.error))
  }

  function Disconnect(k: Kernel, cid: nat): (Kernel, Outcome) {
    match Connection(k, k.current.pid, cid)
    case None => (k, Error(ServerNotFound))
    case Some(slot) =>
      if slot.FreeSlot? then (k, Error(ServerNotFound))
      else (SetConnections(k, k.current.pid, k.processes[k.current.pid].connections[cid - 2 := Released(slot)]),
            Returned(Done))
  }

  /** Wake the clients named in the slots of a dying server; their futures are left in place. */
  function WakeClients(k: Kernel, queue: seq<QueuedMessage>): Kernel
    decreases |queue|
  {
    if queue == [] then k
    else
      WakeClients(match queue[0].Names()
                  case None => k
                  case Some(x) => SetResult(SetState(k, x, Ready), x, Failed(ServerNotFound)),
                  queue[1..])
  }

  /** Wake the threads parked on a dying server; their futures are left in place. */
  function WakeReceivers(k: Kernel, pid: nat, mask: set<nat>, t: nat): Kernel
    decreases MASK_BITS - t
  {
    if t >= MASK_BITS then k
    else
      var x := Id(pid, t);
      WakeReceivers(if t in mask then SetResult(SetState(k, x, Ready), x, Failed(ServerNotFound)) else k,
                    pid, mask, t + 1)
  }

  function SendEvent(k: Kernel, pid: nat, event: SystemEvent, arg: nat): Kernel {
    if pid !in k.processes || event !in k.processes[pid].handlers then k
    else
      var (sid, id) := k.processes[pid].handlers[event];
      var sidx := ServerIndex(k, sid, Some(pid), 0);
      if sidx >= k.limits.servers then k
      else SendInner(k, Id(k.current.pid, IRQ_TID), sidx, Scalar(ScalarBody(id, arg, 0, 0, 0)), Ok(0)).0
  }

  /** Tombstone the connections to a dead server and tell their processes, from `pid` on. */
  function TombstoneFrom(k: Kernel, sidx: nat, pid: nat, n: nat): Kernel
    decreases n
  {
    if n == 0 then k
    else if pid !in k.processes then TombstoneFrom(k, sidx, pid + 1, n - 1)
    else
      var (cid, c) := TombstoneConnections(k.processes[pid].connections, sidx);
      var k1 := SetConnections(k, pid, c);
      TombstoneFrom(if cid.Some? then SendEvent(k1, pid, Disconnected, cid.value) else k1, sidx, pid + 1, n - 1)
  }

  function DestroySidx(k: Kernel, sidx: nat): Kernel {
    if sidx !in k.servers then k
    else
      var q := k.servers[sidx].q;
      var k1 := k.(servers := k.servers - {sidx});
      var k2 := WakeReceivers(WakeClients(k1, q.queue), k.current.pid, q.readyThreads, 0);
      TombstoneFrom(k2, sidx, 1, k.limits.processes)
  }

  function DestroyServer(k: Kernel, sid: nat): (Kernel, Outcome) {
    var s := ServerIndex(k, sid, Some(k.current.pid), 0);
    if s >= k.limits.servers then (k, Error(ServerNotFound)) else (DestroySidx(k, s), Returned(Done))
  }

  // ---- Threads and processes --------------------------------------------------------------------

  function Yield(k: Kernel): (Kernel, Outcome) {
    var k1 := SetResult(k, k.current, Done);
    Activate(if k.current in k.threads
             then k1.(rings := RingYield(k.rings, k.threads[k.current].priority, k.current)) else k1)
  }

  function ChangePriority(k: Kernel, priority: nat): (Kernel, Outcome) {
    if priority == 0 then (k, Error(InvalidArguments))
    else Activate(SetResult(SetPriority(k, k.current, priority), k.current, Done))
  }

  /** `tid` is the free register context that was found for the new thread. */
  function CreateThread(k: Kernel, tid: nat): (Kernel, Outcome) {
    var x := Id(k.current.pid, tid);
    if k.current !in k.threads then (k, Error(ThreadNotAvailable))
    else (SetPriority(SetState(k, x, Ready), x, k.threads[k.current].priority), Returned(Value([tid])))
  }

  function FreePid(k: Kernel, i: nat): (pid: nat)
    ensures pid <= k.limits.processes ==> i <= pid && pid !in k.processes
    decreases k.limits.processes + 1 - i
  {
    if i > k.limits.processes then k.limits.processes + 1 else if i !in k.processes then i else FreePid(k, i + 1)
  }

  function NewThread(): Thread {
    Thread(Free, APP_DEFAULT, None, None, None)
  }

  /** A child of the running process, without a connection. */
  function NewProcess(k: Kernel): Process {
    Process(Some(k.current.pid), seq(k.limits.connections, _ => FreeSlot), {}, map[])
  }

  /** A process with all its threads, none of them started. */
  function WithProcess(k: Kernel, pid: nat, p: Process): Kernel {
    k.(processes := k.processes[pid := p],
       threads := k.threads + (map t: nat | t < k.limits.threads :: Id(pid, t) := NewThread()))
  }

  /** `space` tells whether an address space could be set up. */
  function CreateProcess(k: Kernel, space: Result<()>): (Kernel, Outcome) {
    var pid := FreePid(k, 1);
    if pid > k.limits.processes then (k, Error(OutOfMemory))
    else if space.Err? then (k, Error(space.error))
    else
      (SetState(WithProcess(k, pid, NewProcess(k)), Id(pid, INITIAL_TID), Ready), Returned(Value([pid])))
  }

  function Join(k: Kernel, tid: nat): (Kernel, Outcome) {
    var x := Id(k.current.pid, tid);
    if tid == k.current.tid then (k, Error(ThreadNotAvailable))
    else if x in k.threads && !k.threads[x].state.Free? then Activate(Suspend(k, k.current, WaitJoin(tid)))
    else (k, Returned(Value([0])))
  }

  function JoinParks(k: Kernel, tid: nat): Option<Kernel> {
    var x := Id(k.current.pid, tid);
    if tid != k.current.tid && x in k.threads && !k.threads[x].state.Free?
    then Some(Suspend(k, k.current, WaitJoin(tid))) else None
  }

  /** Deliver the exit value to the joiners of `target`, from thread `tid` on. */
  function WakeJoiners(k: Kernel, pid: nat, target: nat, value: nat, tid: nat, n: nat): Kernel
    decreases n
  {
    if n == 0 then k
    else
      var x := Id(pid, tid);
      WakeJoiners(if x in k.threads && k.threads[x].future == Some(WaitJoin(target))
                  then WakeWithResult(k, x, Value([value])) else k,
                  pid, target, value, tid + 1, n - 1)
  }

  function ClearThread(k: Kernel, x: Id): Kernel {
    SetMailbox(SetFuture(SetState(k, x, Free), x, None), x, None)
  }

  /** The kernel once the running thread has been cleared and its joiners have been told. */
  function ThreadLeft(k: Kernel, value: nat): Kernel {
    var k1 := ClearThread(k, k.current);
    if k.current.tid == IRQ_TID then k1
    else WakeJoiners(k1, k.current.pid, k.current.tid, value, 0, k.limits.threads)
  }

  /** The running thread exits with `value`. */
  function ThreadExited(k: Kernel, value: nat): (Kernel, Outcome) {
    Activate(ThreadLeft(k, value))
  }

  function WaitFor(k: Kernel, target: nat): (Kernel, Outcome) {
    if target !in k.processes then (k, Returned(Value([0])))
    else Activate(Suspend(k, k.current, WaitProcessExit(target)))
  }

  function WaitParks(k: Kernel, target: nat): Option<Kernel> {
    if target !in k.processes then None else Some(Suspend(k, k.current, WaitProcessExit(target)))
  }

  function FutexWait(k: Kernel, addr: nat, same: bool): (Kernel, Outcome) {
    if !same then (k, Error(Again))
    else Activate(Suspend(SetResult(k, k.current, Done), k.current, WaitFutex(addr)))
  }

  function FutexParks(k: Kernel, addr: nat, same: bool): Option<Kernel> {
    if !same then None else Some(Suspend(SetResult(k, k.current, Done), k.current, WaitFutex(addr)))
  }

  function WakeFutex(k: Kernel, pid: nat, addr: nat, remaining: nat, tid: nat, n: nat): Kernel
    decreases n
  {
    if n == 0 || remaining == 0 then k
    else
      var x := Id(pid, tid);
      if x in k.threads && k.threads[x].future == Some(WaitFutex(addr))
      then WakeFutex(WakeWithResult(k, x, Done), pid, addr, remaining - 1, tid + 1, n - 1)
      else WakeFutex(k, pid, addr, remaining, tid + 1, n - 1)
  }

  function FutexWake(k: Kernel, addr: nat, n: nat): (Kernel, Outcome) {
    (WakeFutex(k, k.current.pid, addr, n, 1, if k.limits.threads == 0 then 0 else k.limits.threads - 1), Returned(Done))
  }

  function AwaitEvent(k: Kernel, mask: set<nat>): (Kernel, Outcome) {
    if mask == {} || k.current.pid !in k.processes then (k, Error(InvalidArguments))
    else
      var p := k.processes[k.current.pid];
      var fired := p.notificationBits * mask;
      var k1 := k.(processes := k.processes[k.current.pid := p.(notificationBits := p.notificationBits - mask)]);
      if fired != {} then (k1, Returned(Fired(fired)))
      else Activate(SetState(SetResult(k1, k.current, Done), k.current, WaitEvent(mask)))
  }

  function EventParks(k: Kernel, mask: set<nat>): Option<Kernel> {
    if mask == {} || k.current.pid !in k.processes || k.processes[k.current.pid].notificationBits * mask != {} then None
    else
      var p := k.processes[k.current.pid];
      var k1 := k.(processes := k.processes[k.current.pid := p.(notificationBits := p.notificationBits - mask)]);
      Some(SetState(SetResult(k1, k.current, Done), k.current, WaitEvent(mask)))
  }

  function PostEvent(k: Kernel, target: nat, bits: set<nat>): (Kernel, Outcome) {
    if bits == {} then (k, Returned(Done))
    else if target != k.current.pid then (k, Error(AccessDenied))
    else (PostBits(k, target, bits), Returned(Done))
  }

  /** A process names a server of its own that is told of an event; this cannot be changed. */
  function RegisterHandler(k: Kernel, event: SystemEvent, sid: nat, id: nat): (Kernel, Outcome) {
    var pid := k.current.pid;
    if pid !in k.processes then (k, Error(ProcessNotFound))
    else if event in k.processes[pid].handlers then (k, Error(AccessDenied))
    else
      var p := k.processes[pid];
      (k.(processes := k.processes[pid := p.(handlers := p.handlers[event := (sid, id)])]), Returned(Done))
  }

  /** An interrupt enters the handler thread of process `pid`. */
  function EnterIrq(k: Kernel, pid: nat): (Kernel, Outcome) {
    var x := Id(pid, IRQ_TID);
    (SetState(k, x, Ready).(current := x), Resumed)
  }

  // ---- Process termination ----------------------------------------------------------------------

  /** At most this many waiters are told of a process' end. */
  const MAX_EXIT_WAITERS: nat := 64

  function CloseServers(k: Kernel, pid: nat, sidx: nat, n: nat): Kernel
    decreases n
  {
    if n == 0 then k
    else
      CloseServers(if sidx !in k.servers then k
                   else if k.servers[sidx].q.pid == pid then DestroySidx(k, sidx)
                   else SetQueue(k, sidx, Discard(k.servers[sidx].q, pid)),
                   pid, sidx + 1, n - 1)
  }

  predicate WaitsForExit(k: Kernel, x: Id, dying: nat) {
    x in k.threads && k.threads[x].future == Some(WaitProcessExit(dying))
  }

  /** The threads of one process that wait for the end of `dying`, from `tid` on, as far as there is room for them. */
  function ExitWaitersIn(k: Kernel, dying: nat, pid: nat, tid: nat, n: nat, found: seq<Id>): seq<Id>
    decreases n
  {
    if n == 0 then found
    else
      var x := Id(pid, tid);
      ExitWaitersIn(k, dying, pid, tid + 1, n - 1,
                    if WaitsForExit(k, x, dying) && |found| < MAX_EXIT_WAITERS then found + [x] else found)
  }

  function ExitWaiters(k: Kernel, dying: nat, pid: nat, n: nat, found: seq<Id>): seq<Id>
    decreases n
  {
    if n == 0 then found
    else
      ExitWaiters(k, dying, pid + 1, n - 1,
                  ExitWaitersIn(k, dying, pid, 1, if k.limits.threads == 0 then 0 else k.limits.threads - 1, found))
  }

  function WakeAll(k: Kernel, waiters: seq<Id>, r: Reply): Kernel
    decreases |waiters|
  {
    if waiters == [] then k else WakeAll(WakeWithResult(k, waiters[0], r), waiters[1..], r)
  }

  /** Free the threads of a dying process, from `tid` on. */
  function FreeThreads(k: Kernel, pid: nat, tid: nat, n: nat): Kernel
    decreases n
  {
    if n == 0 then k else FreeThreads(ClearThread(k, Id(pid, tid)), pid, tid + 1, n - 1)
  }

  /** Take a process out of the table; its children lose their parent. */
  function RemoveProcess(k: Kernel, pid: nat): Kernel {
    k.(processes := map q | q in k.processes && q != pid ::
         if k.processes[q].ppid == Some(pid) then k.processes[q].(ppid := None) else k.processes[q],
       threads := map x | x in k.threads && x.pid != pid :: k.threads[x],
       current := IDLE)
  }

  function TerminateCurrent(k: Kernel, code: nat): (Kernel, Outcome) {
    var pid := k.current.pid;
    if pid !in k.processes then (k, Error(ProcessNotFound))
    else
      var k1 := CloseServers(k, pid, 0, k.limits.servers);
      var k2 := match k.processes[pid].ppid
        case None => k1
        case Some(parent) => SendEvent(k1, parent, ChildTerminated, code);
      var k3 := WakeAll(k2, ExitWaiters(k2, pid, 1, k.limits.processes, []), Value([code]));
      var k4 := FreeThreads(k3, pid, 1, if k.limits.threads == 0 then 0 else k.limits.threads - 1);
      Activate(RemoveProcess(k4, pid))
  }

  /** Terminating another process: the kernel first switches to it. */
  function TerminateOther(k: Kernel, pid: nat, code: nat): (Kernel, Outcome) {
    if pid == k.current.pid then (k, Error(InvalidArguments))
    else if pid !in k.processes then (k, Error(ProcessNotFound))
    else if k.processes[pid].ppid == Some(KERNEL_PID) then (k, Error(AccessDenied))
    else TerminateCurrent(SetResult(k, k.current, Done).(current := Id(pid, INITIAL_TID)), code)
  }
}
