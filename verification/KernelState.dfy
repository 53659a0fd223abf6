/**
 The kernel tables as one value: processes, threads, servers, the scheduler's rings and the
 running thread (xous/kernel/src/services.rs, process.rs, kfuture.rs, scheduler.rs).
 */
module KernelState {
  import opened Common
  import opened Rings
  import opened ServerQueue
  import P = Permissions

  const NUM_PRIORITIES: nat := 16
  const APP_DEFAULT: nat := 3
  const IRQ_TID: nat := 0
  const INITIAL_TID: nat := 1
  const KERNEL_PID: nat := 1

  /** The idle thread of the kernel's own process. */
  const IDLE: Id := Id(KERNEL_PID, INITIAL_TID)

  /** Notification bits, by position. */
  const EVENT_SERVER_MSG: nat := 0
  const EVENT_KERNEL: nat := 1

  /** The sizes of the tables. */
  datatype Limits = Limits(processes: nat, threads: nat, servers: nat, connections: nat)

  /** What a call hands back in a thread's registers. */
  datatype Reply =
    | Done
    | Nothing
    | Value(words: seq<nat>)
    | Fired(bits: set<nat>)
    | MemoryReturned(offset: Option<nat>, valid: Option<nat>)
    | Delivered(sidx: nat, envelope: Envelope)
    | Failed(error: Error)

  /**
   A suspended kernel operation.  `born` is a history stamp, the birth of the server it waits on;
   no operation reads it.
   */
  datatype KernelFuture =
    | ReceiveMessage(sidx: nat, born: nat)
    | WaitBlocking
    | WaitProcessExit(targetPid: nat)
    | WaitJoin(targetTid: nat)
    | WaitFutex(addr: nat)

  /** `born` is a history stamp as in `KernelFuture`. */
  datatype ThreadState =
    | Free
    | Ready
    | RetryQueueFull(sidx: nat, born: nat)
    | WaitEvent(mask: set<nat>)

  datatype Thread = Thread(
    state: ThreadState,
    priority: nat,
    future: Option<KernelFuture>,
    mailbox: Option<Reply>,
    result: Option<Reply>)

  /** `born` is a history stamp as in `KernelFuture`. */
  datatype ConnectionSlot =
    | FreeSlot
    | Tombstone(refcount: nat)
    | Connected(sidx: nat, refcount: nat, permissions: P.Permissions, born: nat)

  datatype SystemEvent = ChildTerminated | Disconnected

  datatype Process = Process(
    ppid: Option<nat>,
    connections: seq<ConnectionSlot>,
    notificationBits: set<nat>,
    handlers: map<SystemEvent, (nat, nat)>)

  /** A server: its queue, the permissions given to new connections, and its birth stamp. */
  datatype Entry = Entry(q: ServerState, permissions: P.Permissions, born: nat)

  datatype Kernel = Kernel(
    limits: Limits,
    processes: map<nat, Process>,
    threads: map<Id, Thread>,
    servers: map<nat, Entry>,
    rings: seq<seq<Id>>,
    inIrq: bool,
    current: Id,
    clock: nat)

  // ---- Threads ----------------------------------------------------------------------------------

  function SuspensionMask(f: KernelFuture): set<nat> {
    if f.ReceiveMessage? then {EVENT_SERVER_MSG} else {EVENT_KERNEL}
  }

  function SetThread(k: Kernel, x: Id, t: Thread): Kernel {
    k.(threads := k.threads[x := t])
  }

  /** Changing a thread's state also links or unlinks it; the interrupt thread is kept out of the rings. */
  function SetState(k: Kernel, x: Id, state: ThreadState): Kernel {
    if x !in k.threads then k
    else
      var t := k.threads[x];
      var k1 := SetThread(k, x, t.(state := state));
      if t.state.Ready? == state.Ready? then k1
      else if x.tid == IRQ_TID then k1.(inIrq := state.Ready?)
      else k1.(rings := if state.Ready? then RingAdd(k.rings, t.priority, x) else RingDrop(k.rings, t.priority, x))
  }

  function SetPriority(k: Kernel, x: Id, priority: nat): Kernel {
    if x !in k.threads then k
    else
      var t := k.threads[x];
      if t.priority == priority then k
      else
        var k1 := SetThread(k, x, t.(priority := priority));
        if t.state.Ready? && x.tid != IRQ_TID
        then k1.(rings := RingAdd(RingDrop(k.rings, t.priority, x), priority, x)) else k1
  }

  function SetFuture(k: Kernel, x: Id, f: Option<KernelFuture>): Kernel {
    if x in k.threads then SetThread(k, x, k.threads[x].(future := f)) else k
  }

  function SetMailbox(k: Kernel, x: Id, m: Option<Reply>): Kernel {
    if x in k.threads then SetThread(k, x, k.threads[x].(mailbox := m)) else k
  }

  function SetResult(k: Kernel, x: Id, r: Reply): Kernel {
    if x in k.threads then SetThread(k, x, k.threads[x].(result := Some(r))) else k
  }

  /** Deliver a result to a blocked thread: through its mailbox if a future will look there. */
  function WakeWithResult(k: Kernel, x: Id, r: Reply): Kernel {
    if x !in k.threads then k
    else if k.threads[x].future.Some? then SetState(SetMailbox(k, x, Some(r)), x, Ready)
    else SetResult(SetState(k, x, Ready), x, r)
  }

  /** Store the future and park its thread with the future's own mask. */
  function Suspend(k: Kernel, x: Id, f: KernelFuture): Kernel {
    SetState(SetFuture(k, x, Some(f)), x, WaitEvent(SuspensionMask(f)))
  }

  // ---- Wake-ups ---------------------------------------------------------------------------------

  predicate Retrying(k: Kernel, x: Id, sidx: nat) {
    x in k.threads && k.threads[x].state.RetryQueueFull? && k.threads[x].state.sidx == sidx
  }

  /**
   Threads of one process that wait for room in queue `sidx`, from `tid` on; the scan stops short of
   the last thread.
   */
  function WakeRetryIn(k: Kernel, sidx: nat, pid: nat, tid: nat): (k': Kernel)
    ensures k'.limits == k.limits
    decreases k.limits.threads - tid
  {
    if tid + 1 >= k.limits.threads then k
    else
      var x := Id(pid, tid);
      WakeRetryIn(if Retrying(k, x, sidx) then SetState(k, x, Ready) else k, sidx, pid, tid + 1)
  }

  /** All threads that wait for room in queue `sidx`, in the processes from `pid` on. */
  function WakeRetry(k: Kernel, sidx: nat, pid: nat): (k': Kernel)
    ensures k'.limits == k.limits
    decreases k.limits.processes + 1 - pid
  {
    if pid > k.limits.processes then k
    else WakeRetry(if pid in k.processes then WakeRetryIn(k, sidx, pid, 1) else k, sidx, pid + 1)
  }

  /** The first thread of the process, from `tid` on, that waits for one of the pending bits. */
  function WaiterFrom(k: Kernel, pid: nat, tid: nat): nat
    decreases k.limits.threads - tid
  {
    if tid >= k.limits.threads then tid
    else
      var x := Id(pid, tid);
      if x in k.threads && pid in k.processes && k.threads[x].state.WaitEvent? &&
         k.processes[pid].notificationBits * k.threads[x].state.mask != {}
      then tid else WaiterFrom(k, pid, tid + 1)
  }

  /** Post bits to a process; wakes at most one thread, which is told the bits that fired. */
  function PostBits(k: Kernel, pid: nat, bits: set<nat>): Kernel {
    if pid !in k.processes then k
    else
      var p := k.processes[pid];
      var k1 := k.(processes := k.processes[pid := p.(notificationBits := p.notificationBits + bits)]);
      var t := WaiterFrom(k1, pid, 1);
      var x := Id(pid, t);
      if t >= k.limits.threads || x !in k.threads || !k.threads[x].state.WaitEvent? then k1
      else
        var fired := (p.notificationBits + bits) * k.threads[x].state.mask;
        var k2 := k1.(processes := k.processes[pid := p.(notificationBits := p.notificationBits + bits - fired)]);
        SetResult(SetState(k2, x, Ready), x, Fired(fired))
  }

  // ---- Messages ---------------------------------------------------------------------------------

  function SetQueue(k: Kernel, sidx: nat, q: ServerState): Kernel
    requires sidx in k.servers
  {
    k.(servers := k.servers[sidx := k.servers[sidx].(q := q)])
  }

  /** Store a queue that may have gained room, and wake the senders waiting for room if it was full. */
  function SetQueueWaking(k: Kernel, sidx: nat, q: ServerState): Kernel
    requires sidx in k.servers
  {
    var k1 := SetQueue(k, sidx, q);
    if k.servers[sidx].q.emptyCount == 0 && q.emptyCount != 0 then WakeRetry(k1, sidx, 1) else k1
  }

  function TakeMessage(k: Kernel, sidx: nat): (Kernel, Option<Envelope>)
    requires sidx in k.servers
  {
    var (r, q) := TakeNext(k.servers[sidx].q);
    if r.None? then (k, None) else (SetQueueWaking(k, sidx, q), r)
  }

  datatype Polled = PollReady(reply: Reply) | PollError(error: Error) | PollPending

  function Poll(k: Kernel, x: Id, f: KernelFuture): (Kernel, Polled) {
    if f.ReceiveMessage? then
      if f.sidx !in k.servers || k.servers[f.sidx].q.pid != x.pid then (k, PollError(ServerNotFound))
      else
        var (k1, r) := TakeMessage(k, f.sidx);
        (k1, if r.None? then PollPending else PollReady(Delivered(f.sidx, r.value)))
    else if x !in k.threads then (k, PollError(ProcessNotFound))
    else
      match k.threads[x].mailbox
      case None => (k, PollPending)
      case Some(r) => (SetMailbox(k, x, None), PollReady(r))
  }

  /** How a call ends: the chosen thread runs, the caller goes on with a value or an error, or no thread was ready. */
  datatype Outcome = Resumed | Returned(reply: Reply) | Error(error: Error) | Drained

  function ReadyCount(k: Kernel): nat {
    Count(k.rings, |k.rings|)
  }

  /** Choose the next thread to run, polling the futures of the threads it considers. */
  function Activate(k: Kernel): (Kernel, Outcome)
    decreases ReadyCount(k)
  {
    if k.inIrq then (k, Resumed)
    else
      var h := HighestBelow(k.rings, |k.rings|);
      if h >= |k.rings| || k.rings[h] == [] then (k, Drained)
      else
        var x := k.rings[h][0];
        if x !in k.threads || k.threads[x].future.None? then (k.(current := x), Resumed)
        else
          var f := k.threads[x].future.value;
          var (k1, polled) := Poll(SetFuture(k, x, None), x, f);
          match polled
          case PollReady(r) => (SetResult(k1, x, r).(current := x), Resumed)
          case PollError(e) => (k1, Error(e))
          case PollPending =>
            var k2 := Suspend(k1, x, f);
            if ReadyCount(k2) < ReadyCount(k) then Activate(k2) else (k2, Drained)
  }

  // ---- Connections ------------------------------------------------------------------------------

  /** Connection ids 0 and 1 do not exist. */
  function Connection(k: Kernel, pid: nat, cid: nat): Option<ConnectionSlot> {
    if pid in k.processes && 2 <= cid < |k.processes[pid].connections| + 2
    then Some(k.processes[pid].connections[cid - 2]) else None
  }

  function SetConnections(k: Kernel, pid: nat, c: seq<ConnectionSlot>): Kernel
    requires pid in k.processes
  {
    k.(processes := k.processes[pid := k.processes[pid].(connections := c)])
  }

  /** First slot at or after `i` that is connected to `sidx`, `|c|` if there is none. */
  function ConnectedTo(c: seq<ConnectionSlot>, sidx: nat, i: nat): (j: nat)
    ensures j <= |c|
    ensures j < |c| ==> c[j].Connected? && c[j].sidx == sidx
    ensures forall m | i <= m < j :: !(c[m].Connected? && c[m].sidx == sidx)
    decreases |c| - i
  {
    if i >= |c| then |c| else if c[i].Connected? && c[i].sidx == sidx then i else ConnectedTo(c, sidx, i + 1)
  }

  function FreeConnection(c: seq<ConnectionSlot>, i: nat): (j: nat)
    ensures j <= |c|
    ensures j < |c| ==> c[j].FreeSlot?
    ensures forall m | i <= m < j :: !c[m].FreeSlot?
    decreases |c| - i
  {
    if i >= |c| then |c| else if c[i].FreeSlot? then i else FreeConnection(c, i + 1)
  }

  /** Connecting twice to the same server reuses the slot and counts the references. */
  function AddConnection(c: seq<ConnectionSlot>, sidx: nat, permissions: P.Permissions, born: nat)
    : (Result<nat>, seq<ConnectionSlot>)
  {
    var i := ConnectedTo(c, sidx, 0);
    if i < |c| then (Ok(i + 2), c[i := c[i].(refcount := c[i].refcount + 1)])
    else
      var j := FreeConnection(c, 0);
      if j < |c| then (Ok(j + 2), c[j := Connected(sidx, 1, permissions, born)]) else (Err(OutOfMemory), c)
  }

  function TombstoneConnections(c: seq<ConnectionSlot>, sidx: nat): (Option<nat>, seq<ConnectionSlot>) {
    var i := ConnectedTo(c, sidx, 0);
    if i < |c| then (Some(i + 2), c[i := Tombstone(c[i].refcount)]) else (None, c)
  }

  function Released(slot: ConnectionSlot): ConnectionSlot {
    match slot
    case FreeSlot => FreeSlot
    case Tombstone(n) => if n > 1 then Tombstone(n - 1) else FreeSlot
    case Connected(s, n, p, b) => if n > 1 then Connected(s, n - 1, p, b) else FreeSlot
  }

  // ---- Lookups ----------------------------------------------------------------------------------

  /** Lowest server index at or after `i` with this id, owned by `owner` if one is given. */
  function ServerIndex(k: Kernel, sid: nat, owner: Option<nat>, i: nat): (s: nat)
    ensures s < k.limits.servers ==> s in k.servers && k.servers[s].q.sid == sid &&
                                      (owner.Some? ==> k.servers[s].q.pid == owner.value)
    decreases k.limits.servers - i
  {
    if i >= k.limits.servers then k.limits.servers
    else if i in k.servers && k.servers[i].q.sid == sid && (owner.Some? ==> k.servers[i].q.pid == owner.value) then i
    else ServerIndex(k, sid, owner, i + 1)
  }
}
