/**
 The kernel's tables updated in place, with the scheduler's linked lists beneath them
 (xous/kernel/src/process.rs, services.rs, syscall.rs, kfuture.rs, scheduler.rs).
 `View()` is the value that the functions of KernelState and KernelSteps speak about.
 */
module Services {
  import opened Common
  import opened Rings
  import opened ServerQueue
  import opened KernelState
  import opened KernelSteps
  import opened KernelInv
  import opened KernelSched
  import opened KernelWakes
  import opened KernelMessages
  import opened KernelActivate
  import opened KernelTables
  import opened KernelDestroy
  import opened KernelExit
  import opened KernelRuns
  import Scheduling

  lemma BootRings(l: Limits, rings: seq<seq<Id>>)
    requires |rings| == NUM_PRIORITIES && forall p | 0 <= p < |rings| :: rings[p] == []
    ensures RingAdd(rings, 0, IDLE) == Boot(l).rings && !Linked(rings, IDLE)
  {
    var r := RingAdd(rings, 0, IDLE);
    assert |r| == |Boot(l).rings| && forall p | 0 <= p < |r| :: r[p] == Boot(l).rings[p];
  }

  lemma BootView(l: Limits)
    ensures Boot(l) ==
            Kernel(l, map[KERNEL_PID := Process(Some(KERNEL_PID), seq(l.connections, _ => FreeSlot), {}, map[])],
                   map t: nat | t < l.threads :: Id(KERNEL_PID, t) :=
                     if t == INITIAL_TID then Thread(Ready, 0, None, None, None) else NewThread(),
                   map[], Boot(l).rings, false, IDLE, 0)
  {
  }

  lemma BaseLimits(k: Kernel)
    requires Base(k)
    ensures 2 <= k.limits.threads
  {
  }

  lemma WithBitsBase(k: Kernel, pid: nat, bits: set<nat>)
    requires Base(k) && pid in k.processes
    ensures Base(WithBits(k, pid, bits))
  {
    WithBitsQuiet(k, pid, bits);
    SameScheduleBase(k, WithBits(k, pid, bits));
  }

  lemma PostBitsUnfold(k: Kernel, pid: nat, bits: set<nat>)
    requires pid in k.processes
    ensures var all := k.processes[pid].notificationBits + bits;
      var x := Id(pid, WaiterFrom(WithBits(k, pid, all), pid, 1));
      && (x.tid >= k.limits.threads ==> PostBits(k, pid, bits) == WithBits(k, pid, all))
      && (x.tid < k.limits.threads && x in k.threads && k.threads[x].state.WaitEvent? ==>
            var fired := all * k.threads[x].state.mask;
            PostBits(k, pid, bits) == SetResult(SetState(WithBits(WithBits(k, pid, all), pid, all - fired), x, Ready),
                  x, Fired(fired)))
  {
    var all := k.processes[pid].notificationBits + bits;
    assert forall b :: WithBits(WithBits(k, pid, all), pid, b) == WithBits(k, pid, b);
  }

  lemma LinkedReady(k: Kernel, x: Id)
    requires Base(k) && x in k.threads
    ensures k.threads[x].priority < NUM_PRIORITIES == |k.rings|
    ensures x.tid == IRQ_TID ==> (k.threads[x].state.Ready? ==> k.inIrq)
    ensures x.tid != IRQ_TID ==>
      && (k.threads[x].state.Ready? ==> x in k.rings[k.threads[x].priority])
      && (!k.threads[x].state.Ready? ==> !Linked(k.rings, x))
      && 1 <= x.pid <= k.limits.processes && 1 <= x.tid <= k.limits.threads
  {
    var p := k.threads[x].priority;
    assert IsReady(k, x) && x.tid == IRQ_TID ==> IsReady(k, Id(x.pid, IRQ_TID));
    assert InRing(k, p, x) <==> BelongsIn(k, p, x);
    if Linked(k.rings, x) {
      var q :| 0 <= q < |k.rings| && x in k.rings[q];
      assert InRing(k, q, x);
      assert BelongsIn(k, q, x);
    }
  }

  lemma RingsDropped(rings: seq<seq<Id>>, p: nat, x: Id)
    requires p < |rings| && NoDup(rings[p]) && x in rings[p]
    requires forall q: nat | q < |rings| && x in rings[q] :: q == p
    ensures !Linked(RingDrop(rings, p, x), x)
  {
    RemoveFacts(rings[p], x);
  }

  class SystemServices {
    const limits: Limits
    const scheduler: Scheduling.Scheduler
    var processes: map<nat, Process>
    var threads: map<Id, Thread>
    var servers: map<nat, Entry>
    var current: Id
    var clock: nat

    ghost function View(): Kernel
      reads this, scheduler
    {
      Kernel(limits, processes, threads, servers, scheduler.rings, scheduler.inIrqHandler, current, clock)
    }

    ghost predicate Valid()
      reads this, scheduler, scheduler.queueHeads, scheduler.links
    {
      && scheduler.Valid() && scheduler.maxProcesses == limits.processes && scheduler.maxThreads == limits.threads
      && Base(View())
    }

    /** The kernel's own process, with its idle thread ready. */
    constructor (limits: Limits)
      requires 2 <= limits.threads <= MASK_BITS && 1 <= limits.processes
      ensures Valid() && View() == Boot(limits)
      ensures fresh(scheduler) && fresh(scheduler.queueHeads) && fresh(scheduler.links)
    {
      this.limits := limits;
      var s := new Scheduling.Scheduler(limits.processes, limits.threads);
      hide Base, Linked, Boot, NewThread;
      BootRings(limits, s.rings);
      s.ReadyThread(IDLE, 0);
      scheduler := s;
      processes := map[KERNEL_PID := Process(Some(KERNEL_PID), seq(limits.connections, _ => FreeSlot), {}, map[])];
      threads := map t: nat | t < limits.threads ::
        Id(KERNEL_PID, t) := if t == INITIAL_TID then Thread(Ready, 0, None, None, None) else NewThread();
      servers, current, clock := map[], IDLE, 0;
      new;
      BootBase(limits);
      assert View() == Boot(limits) by { BootView(limits); }
    }

    // ---- Threads --------------------------------------------------------------------------------

    method SetThreadState(x: Id, state: ThreadState)
      requires Valid()
      requires x in threads && x.tid == IRQ_TID && state.Ready? && !IsReady(View(), x) ==> !scheduler.inIrqHandler
      modifies this`threads, scheduler, scheduler.queueHeads, scheduler.links
      ensures Valid() && View() == SetState(old(View()), x, state)
    {
      hide Base, Linked;
      if x !in threads { return; }
      SetStateBase(View(), x, state);
      var t := threads[x];
      LinkedReady(View(), x);
      if t.state.Ready? && !state.Ready? {
        scheduler.ParkThread(x, t.priority);
      }
      if !t.state.Ready? && state.Ready? {
        scheduler.ReadyThread(x, t.priority);
      }
      threads := threads[x := t.(state := state)];
    }

    method SetThreadPriority(x: Id, priority: nat)
      requires Valid() && priority < NUM_PRIORITIES
      modifies this`threads, scheduler, scheduler.queueHeads, scheduler.links
      ensures Valid() && View() == SetPriority(old(View()), x, priority)
    {
      hide Base, Linked;
      SetPriorityBase(View(), x, priority);
      if x !in threads || threads[x].priority == priority { return; }
      var t := threads[x];
      LinkedReady(View(), x);
      if t.state.Ready? {
        if x.tid != IRQ_TID {
          CoupledOnce(View(), x);
          RingsDropped(scheduler.rings, t.priority, x);
        }
        scheduler.ParkThread(x, t.priority);
        scheduler.ReadyThread(x, priority);
      }
      threads := threads[x := t.(priority := priority)];
    }

    method SetThreadResult(x: Id, r: Reply)
      requires Valid()
      modifies this`threads
      ensures Valid() && View() == SetResult(old(View()), x, r)
    {
      hide Base;
      ResultBase(View(), x, r);
      if x in threads { threads := threads[x := threads[x].(result := Some(r))]; }
    }

    method SetKernelFuture(x: Id, f: Option<KernelFuture>)
      requires Valid()
      modifies this`threads
      ensures Valid() && View() == SetFuture(old(View()), x, f)
    {
      hide Base;
      SameScheduleBase(View(), SetFuture(View(), x, f));
      if x in threads { threads := threads[x := threads[x].(future := f)]; }
    }

    method SetThreadMailbox(x: Id, m: Option<Reply>)
      requires Valid()
      modifies this`threads
      ensures Valid() && View() == SetMailbox(old(View()), x, m)
    {
      hide Base;
      SameScheduleBase(View(), SetMailbox(View(), x, m));
      if x in threads { threads := threads[x := threads[x].(mailbox := m)]; }
    }

    method WakeThreadWithResult(x: Id, r: Reply)
      requires Valid() && x.tid != IRQ_TID
      modifies this`threads, scheduler, scheduler.queueHeads, scheduler.links
      ensures Valid() && View() == WakeWithResult(old(View()), x, r)
    {
      if x !in threads { return; }
      if threads[x].future.Some? {
        SetThreadMailbox(x, Some(r));
        SetThreadState(x, Ready);
      } else {
        SetThreadState(x, Ready);
        SetThreadResult(x, r);
      }
    }

    method SuspendWithFuture(x: Id, f: KernelFuture)
      requires Valid()
      modifies this`threads, scheduler, scheduler.queueHeads, scheduler.links
      ensures Valid() && View() == Suspend(old(View()), x, f)
    {
      SetKernelFuture(x, Some(f));
      SetThreadState(x, WaitEvent(SuspensionMask(f)));
    }

    // ---- Wake-ups -------------------------------------------------------------------------------

    method WakeRetryingIn(sidx: nat, pid: nat)
      requires Valid()
      modifies this`threads, scheduler, scheduler.queueHeads, scheduler.links
      ensures Valid() && View() == WakeRetryIn(old(View()), sidx, pid, 1)
    {
      BaseLimits(View());
      for tid := 1 to limits.threads - 1
        invariant Valid()
        invariant WakeRetryIn(View(), sidx, pid, tid) == WakeRetryIn(old(View()), sidx, pid, 1)
      {
        var x := Id(pid, tid);
        if x in threads && threads[x].state.RetryQueueFull? && threads[x].state.sidx == sidx {
          SetThreadState(x, Ready);
        }
      }
    }

    /** Wake the senders that wait for room in queue `sidx`. */
    method WakeThreadsWithState(sidx: nat)
      requires Valid()
      modifies this`threads, scheduler, scheduler.queueHeads, scheduler.links
      ensures Valid() && View() == WakeRetry(old(View()), sidx, 1)
    {
      for pid := 1 to limits.processes + 1
        invariant Valid()
        invariant WakeRetry(View(), sidx, pid) == WakeRetry(old(View()), sidx, 1)
      {
        if pid in processes {
          WakeRetryingIn(sidx, pid);
        }
      }
    }

    method SetBits(pid: nat, bits: set<nat>)
      requires Valid() && pid in processes
      modifies this`processes
      ensures Valid() && View() == WithBits(old(View()), pid, bits)
    {
      hide Base;
      WithBitsBase(View(), pid, bits);
      processes := processes[pid := processes[pid].(notificationBits := bits)];
    }

    method PostNotificationBits(pid: nat, bits: set<nat>)
      requires Valid()
      modifies this`threads, this`processes, scheduler, scheduler.queueHeads, scheduler.links
      ensures Valid() && View() == PostBits(old(View()), pid, bits)
    {
      if pid !in processes { return; }
      PostBitsUnfold(View(), pid, bits);
      hide Base, PostBits, WaiterFrom, SetState, SetResult;
      var all := processes[pid].notificationBits + bits;
      SetBits(pid, all);
      var tid := FirstWaiter(pid);
      if tid < limits.threads {
        var x := Id(pid, tid);
        var fired := all * threads[x].state.mask;
        SetBits(pid, all - fired);
        SetThreadState(x, Ready);
        SetThreadResult(x, Fired(fired));
      }
    }

    method FirstWaiter(pid: nat) returns (tid: nat)
      requires Valid() && pid in processes
      ensures tid == WaiterFrom(View(), pid, 1)
      ensures 1 <= tid && (tid < limits.threads ==> Id(pid, tid) in threads && threads[Id(pid, tid)].state.WaitEvent?)
    {
      var bits := processes[pid].notificationBits;
      tid := 1;
      while tid < limits.threads
        invariant 1 <= tid && WaiterFrom(View(), pid, tid) == WaiterFrom(View(), pid, 1)
      {
        var x := Id(pid, tid);
        if x in threads && threads[x].state.WaitEvent? && bits * threads[x].state.mask != {} { return; }
        tid := tid + 1;
      }
    }

    // ---- Messages -------------------------------------------------------------------------------

    method StoreQueue(sidx: nat, q: ServerState)
      requires Valid() && sidx in servers
      modifies this`servers
      ensures Valid() && View() == SetQueue(old(View()), sidx, q)
    {
      SetQueueBase(View(), sidx, q);
      servers := servers[sidx := servers[sidx].(q := q)];
    }

    method TakeNextMessage(sidx: nat) returns (r: Option<Envelope>)
      requires Valid() && sidx in servers
      modifies this`threads, this`servers, scheduler, scheduler.queueHeads, scheduler.links
      ensures Valid() && (View(), r) == TakeMessage(old(View()), sidx)
    {
      var queueWasFull := servers[sidx].q.emptyCount == 0;
      var (taken, q) := TakeNext(servers[sidx].q);
      r := taken;
      if r.Some? {
        StoreQueue(sidx, q);
        if queueWasFull && q.emptyCount != 0 {
          WakeThreadsWithState(sidx);
        }
      }
    }

    /** The future has been taken off its thread. */
    method PollFuture(x: Id, f: KernelFuture) returns (polled: Polled)
      requires Valid()
      modifies this`threads, this`servers, scheduler, scheduler.queueHeads, scheduler.links
      ensures Valid() && (View(), polled) == Poll(old(View()), x, f)
    {
      if f.ReceiveMessage? {
        if f.sidx !in servers || servers[f.sidx].q.pid != x.pid { return PollError(ServerNotFound); }
        var r := TakeNextMessage(f.sidx);
        return if r.None? then PollPending else PollReady(Delivered(f.sidx, r.value));
      }
      if x !in threads { return PollError(ProcessNotFound); }
      var m := threads[x].mailbox;
      if m.None? { return PollPending; }
      SetThreadMailbox(x, None);
      polled := PollReady(m.value);
    }

    // ---- Choosing the next thread ---------------------------------------------------------------

    method NextThread() returns (next: Option<Id>)
      requires Valid()
      ensures next == Head(View())
    {
      hide Base;
      next := scheduler.queueHeads[scheduler.highestReadyPriority];
    }

    method SwitchThread(x: Id)
      requires Valid()
      modifies this`current
      ensures Valid() && View() == old(View()).(current := x)
    {
      hide Base, Ipc;
      SwitchTo(View(), x);
      current := x;
    }

    /** Poll the unfinished call of the thread at the head; if it has to go on waiting, park it again. */
    method PollHead(x: Id) returns (done: Option<Outcome>)
      requires Valid() && !scheduler.inIrqHandler && Head(View()) == Some(x) && x in threads && threads[x].future.Some?
      modifies this`threads, this`servers, this`current, scheduler, scheduler.queueHeads, scheduler.links
      ensures Valid()
      ensures done.Some? ==> (View(), done.value) == Activate(old(View()))
      ensures done.None? ==> Activate(View()) == Activate(old(View())) && ReadyCount(View()) < ReadyCount(old(View()))
      ensures done.None? ==> !scheduler.inIrqHandler
    {
      hide Base, Activate, Poll, SetFuture, Suspend, ReadyCount, Head, SetResult;
      ActivateCases(View());
      var f := threads[x].future.value;
      SetKernelFuture(x, None);
      var polled := PollFuture(x, f);
      match polled {
        case PollReady(reply) =>
          SetThreadResult(x, reply);
          SwitchThread(x);
          done := Some(Resumed);
        case PollError(e) =>
          done := Some(Error(e));
        case PollPending =>
          SuspendWithFuture(x, f);
          done := None;
      }
    }

    method ActivateCurrent() returns (r: Outcome)
      requires Valid()
      modifies this`threads, this`servers, this`current, scheduler, scheduler.queueHeads, scheduler.links
      ensures Valid() && (View(), r) == Activate(old(View()))
    {
      if scheduler.inIrqHandler { return Resumed; }
      hide Base, Activate, ReadyCount, Head;
      while true
        invariant Valid()
        invariant Activate(View()) == Activate(old(View())) && scheduler.inIrqHandler == old(scheduler.inIrqHandler)
        decreases ReadyCount(View())
      {
        ActivateCases(View());
        var next := NextThread();
        if next.None? { return Drained; }
        if threads[next.value].future.None? {
          SwitchThread(next.value);
          return Resumed;
        }
        var done := PollHead(next.value);
        if done.Some? { return done.value; }
      }
    }

    // ---- Sending and answering ------------------------------------------------------------------

    /** Give a message to a server thread that was parked waiting for one. */
    method DeliverTo(x: Id, r: Reply)
      requires Valid() && x.tid != IRQ_TID
      modifies this`threads, scheduler, scheduler.queueHeads, scheduler.links
      ensures Valid() && View() == HandOver(old(View()), x, r)
    {
      SetKernelFuture(x, None);
      SetThreadState(x, Ready);
      SetThreadResult(x, r);
    }

    method SendMessageInner(sender: Id, sidx: nat, message: Message, mapped: Result<nat>) returns (r: Result<()>)
      requires Valid() && Ipc(View(), None)
      modifies this`threads, this`processes, this`servers, scheduler, scheduler.queueHeads, scheduler.links
      ensures Valid() && (View(), r) == SendInner(old(View()), sender, sidx, message, mapped)
    {
      hide Base, QueueMessage, QueueResponse, PostBits, HandOver, SetQueue, ClientAddress, ServersOk, CleanOk,
           NamesOk, MailOk, RetryOk, StampsOk;
      if sidx !in servers { return Err(ServerNotFound); }
      var q := servers[sidx].q;
      if q.emptyCount == 0 { return Err(ServerQueueFull); }
      var translated := Translate(message, mapped);
      if translated.Err? { return Err(translated.error); }
      var m := translated.value;
      var available := AvailableThread(q);
      AvailableIsLeast(q);
      match available {
        case Some(t) =>
          var q1 := q.(readyThreads := q.readyThreads - {t});
          var slot := 0;
          if m.IsBlocking() {
            var (remembered, q2) := QueueResponse(q1, sender.pid, sender.tid, m, ClientAddress(message));
            if remembered.Err? {
              StoreQueue(sidx, q2.(readyThreads := q.readyThreads));
              return Err(remembered.error);
            }
            StoreQueue(sidx, Passed(q2, m));
            slot := remembered.value;
          } else {
            StoreQueue(sidx, Passed(q1, m));
          }
          DeliverTo(Id(q.pid, t), Delivered(sidx, Envelope(sender.pid, slot, m)));
        case None =>
          var (queued, q1) := QueueMessage(q, sender.pid, sender.tid, m, ClientAddress(message));
          StoreQueue(sidx, q1);
          if queued.Err? { return Err(queued.error); }
          PostNotificationBits(q.pid, {EVENT_SERVER_MSG});
      }
      r := Ok(());
    }

    method SendMessage(cid: nat, message: Message, mapped: Result<nat>) returns (r: Outcome)
      requires Valid() && Ipc(View(), None)
      modifies this, scheduler, scheduler.queueHeads, scheduler.links
      ensures Valid() && (View(), r) == KernelSteps.SendMessage(old(View()), cid, message, mapped)
    {
      hide Base, Ipc, SendInner, Activate, Suspend, SetResult;
      var k := current;
      var found: Result<nat> := LookUp(cid);
      if found.Err? { return Error(found.error); }
      var permitted := IsPermitted(cid, found.value, message);
      if !permitted { return Error(AccessDenied); }
      var sent := SendMessageInner(k, found.value, message, mapped);
      if sent.Err? { return Error(sent.error); }
      if message.IsBlocking() {
        SuspendWithFuture(k, WaitBlocking);
      } else {
        SetThreadResult(k, Done);
      }
      r := ActivateCurrent();
    }

    method LookUp(cid: nat) returns (r: Result<nat>)
      ensures r == Lookup(View(), cid)
    {
      if current.pid !in processes { return Err(ServerNotFound); }
      var c := processes[current.pid].connections;
      if cid < 2 || cid - 2 >= |c| || !c[cid - 2].Connected? { return Err(ServerNotFound); }
      r := Ok(c[cid - 2].sidx);
    }

    method IsPermitted(cid: nat, sidx: nat, message: Message) returns (ok: bool)
      requires Lookup(View(), cid) == Ok(sidx)
      ensures ok == Permitted(View(), cid, sidx, message)
    {
      if sidx !in servers { return false; }
      ok := servers[sidx].q.pid == current.pid ||
            processes[current.pid].connections[cid - 2].permissions.IsPermitted(message.MessageId());
    }

    /** The variant that waits for room in a full queue. */
    method SendMessageRetrying(cid: nat, message: Message, mapped: Result<nat>) returns (r: Outcome)
      requires Valid() && Ipc(View(), None)
      modifies this, scheduler, scheduler.queueHeads, scheduler.links
      ensures Valid() && (View(), r) == KernelSteps.SendMessageRetrying(old(View()), cid, message, mapped)
    {
      hide Base, Ipc, KernelSteps.SendMessage, Activate, SetState, Lookup;
      r := SendMessage(cid, message, mapped);
      if r != Error(ServerQueueFull) { return; }
      var found := LookUp(cid);
      if found.Err? || found.value !in servers { return Error(ServerNotFound); }
      SetThreadState(current, RetryQueueFull(found.value, servers[found.value].born));
      r := ActivateCurrent();
    }

    method TakeWaitingMessage(sidx: nat, idx: nat, buf: Option<(nat, nat)>) returns (r: Result<WaitingMessage>)
      requires Valid()
      modifies this`threads, this`servers, scheduler, scheduler.queueHeads, scheduler.links
      ensures Valid() && (View(), r) == TakeReply(old(View()), sidx, idx, buf)
    {
      hide Base, TakeWaiting, WakeRetry;
      if sidx !in servers || servers[sidx].q.pid != current.pid { return Err(ServerNotFound); }
      var queueWasFull := servers[sidx].q.emptyCount == 0;
      var (taken, q) := TakeWaiting(servers[sidx].q, idx, buf);
      r := taken;
      if r.Err? { return; }
      StoreQueue(sidx, q);
      if queueWasFull && q.emptyCount != 0 {
        WakeThreadsWithState(sidx);
      }
    }

    /** The end of a reply: the answered thread, if any, is woken and the caller goes on. */
    method FinishReply(x: Option<Id>, value: Reply) returns (r: Outcome)
      requires Valid() && (x.Some? ==> x.value.tid != IRQ_TID)
      modifies this, scheduler, scheduler.queueHeads, scheduler.links
      ensures Valid()
      ensures (View(), r) ==
              Activate(SetResult(if x.Some? then WakeWithResult(old(View()), x.value, value) else old(View()),
                                 old(current), Done))
    {
      hide Base, Activate, SetResult, WakeWithResult;
      var k := current;
      if x.Some? { WakeThreadWithResult(x.value, value); }
      SetThreadResult(k, Done);
      r := ActivateCurrent();
    }

    method ReturnResult(sidx: nat, idx: nat, value: Reply) returns (r: Outcome)
      requires Valid() && Ipc(View(), None)
      modifies this, scheduler, scheduler.queueHeads, scheduler.links
      ensures Valid() && (View(), r) == KernelSteps.ReturnResult(old(View()), sidx, idx, value)
    {
      hide Base, Ipc, Activate, SetResult, WakeWithResult, TakeReply, Unnamed, NameAt, Tame;
      TakeReplyOk(View(), sidx, idx, None);
      var taken := TakeWaitingMessage(sidx, idx, None);
      match taken {
        case Err(e) => r := Error(e);
        case Ok(ScalarReply(p, t)) => r := FinishReply(Some(Id(p, t)), value);
        case Ok(ScalarTerminated) => r := FinishReply(None, value);
        case Ok(_) => r := Error(DoubleFree);
      }
    }

    method ReturnMemory(sidx: nat, idx: nat, buf: (nat, nat), value: Reply, returned: Result<()>) returns (r: Outcome)
      requires Valid() && Ipc(View(), None)
      modifies this, scheduler, scheduler.queueHeads, scheduler.links
      ensures Valid() && (View(), r) == KernelSteps.ReturnMemory(old(View()), sidx, idx, buf, value, returned)
    {
      hide Base, Ipc, Activate, SetResult, WakeWithResult, TakeReply, Unnamed, NameAt, Tame;
      TakeReplyOk(View(), sidx, idx, Some(buf));
      var taken := TakeWaitingMessage(sidx, idx, Some(buf));
      match taken {
        case Err(e) => r := Error(e);
        case Ok(BorrowedMemory(p, t, _)) =>
          if returned.Err? { return Error(returned.error); }
          r := FinishReply(Some(Id(p, t)), value);
        case Ok(ForgetMemory(_, _)) =>
          if returned.Err? { return Error(returned.error); }
          r := FinishReply(None, value);
        case Ok(_) => r := Error(DoubleFree);
      }
    }

    method SidxFromSid(sid: nat, owner: Option<nat>) returns (s: nat)
      ensures s == ServerIndex(View(), sid, owner, 0)
    {
      s := 0;
      while s < limits.servers
        invariant ServerIndex(View(), sid, owner, s) == ServerIndex(View(), sid, owner, 0) && s <= limits.servers
      {
        if s in servers && servers[s].q.sid == sid && (owner.Some? ==> servers[s].q.pid == owner.value) { return; }
        s := s + 1;
      }
    }

    method ReceiveMessage(sid: nat, blocking: bool) returns (r: Outcome)
      requires Valid() && Ipc(View(), None) && CurrentOk(View())
      modifies this, scheduler, scheduler.queueHeads, scheduler.links
      ensures Valid() && (View(), r) == Receive(old(View()), sid, blocking)
    {
      hide Base, Ipc, CurrentOk, Activate, TakeMessage, Suspend, ServerIndex;
      var sidx := SidxFromSid(sid, Some(current.pid));
      if sidx >= limits.servers { return Error(ServerNotFound); }
      assert sidx in servers by { IndexFound(View(), sid, Some(current.pid)); }
      TakeNothing(View(), sidx);
      var taken := TakeNextMessage(sidx);
      if taken.Some? { return Returned(Delivered(sidx, taken.value)); }
      if !blocking { return Returned(Nothing); }
      var e := servers[sidx];
      RunningIsNotParked(View(), sidx);
      assert current.tid !in e.q.readyThreads;
      StoreQueue(sidx, e.q.(readyThreads := e.q.readyThreads + {current.tid}));
      SuspendWithFuture(current, KernelFuture.ReceiveMessage(sidx, e.born));
      r := ActivateCurrent();
    }

    // ---- Connections ----------------------------------------------------------------------------

    method StoreConnections(pid: nat, c: seq<ConnectionSlot>)
      requires Valid() && pid in processes && |c| == |processes[pid].connections|
      modifies this`processes
      ensures Valid() && View() == SetConnections(old(View()), pid, c)
    {
      hide Base, Ipc, IdleOk, CurrentOk, NoStale, NoNewWaits;
      SetConnectionsQuiet(View(), pid, c);
      processes := processes[pid := processes[pid].(connections := c)];
    }

    method FindConnectedTo(c: seq<ConnectionSlot>, sidx: nat) returns (i: nat)
      ensures i == ConnectedTo(c, sidx, 0)
    {
      i := 0;
      while i < |c|
        invariant i <= |c| && ConnectedTo(c, sidx, i) == ConnectedTo(c, sidx, 0)
      {
        if c[i].Connected? && c[i].sidx == sidx { return; }
        i := i + 1;
      }
    }

    method AddConnection(pid: nat, sidx: nat, permissions: P.Permissions, born: nat) returns (r: Result<nat>)
      requires Valid() && pid in processes
      modifies this`processes
      ensures Valid()
      ensures var (added, c) := KernelState.AddConnection(old(processes)[pid].connections, sidx, permissions, born);
        r == added && View() == SetConnections(old(View()), pid, c)
    {
      hide Base;
      var c := processes[pid].connections;
      var i := FindConnectedTo(c, sidx);
      if i < |c| {
        StoreConnections(pid, c[i := c[i].(refcount := c[i].refcount + 1)]);
        return Ok(i + 2);
      }
      var j := 0;
      while j < |c| && !c[j].FreeSlot?
        invariant j <= |c| && FreeConnection(c, j) == FreeConnection(c, 0)
      {
        j := j + 1;
      }
      if j == |c| {
        StoreConnections(pid, c);
        return Err(OutOfMemory);
      }
      StoreConnections(pid, c[j := Connected(sidx, 1, permissions, born)]);
      r := Ok(j + 2);
    }

    method TombstoneConnectionBySidx(pid: nat, sidx: nat) returns (cid: Option<nat>)
      requires Valid() && pid in processes
      modifies this`processes
      ensures Valid()
      ensures var (dead, c) := TombstoneConnections(old(processes)[pid].connections, sidx);
        cid == dead && View() == SetConnections(old(View()), pid, c)
    {
      hide Base;
      var c := processes[pid].connections;
      var i := FindConnectedTo(c, sidx);
      if i < |c| {
        StoreConnections(pid, c[i := Tombstone(c[i].refcount)]);
        return Some(i + 2);
      }
      StoreConnections(pid, c);
      cid := None;
    }

    method ConnectToServer(pid: nat, sid: nat) returns (r: Outcome)
      requires Valid()
      modifies this`processes
      ensures Valid() && (View(), r) == Connect(old(View()), pid, sid)
    {
      hide Base, KernelState.AddConnection, ServerIndex;
      var sidx := SidxFromSid(sid, None);
      if sidx >= limits.servers { return Error(ServerNotFound); }
      assert sidx in servers by { IndexFound(View(), sid, None); }
      if pid !in processes { return Error(ProcessNotFound); }
      var added := AddConnection(pid, sidx, servers[sidx].permissions, servers[sidx].born);
      r := if added.Ok? then Returned(Value([added.value])) else Error(added.error);
    }

    method DisconnectFromServer(cid: nat) returns (r: Outcome)
      requires Valid()
      modifies this`processes
      ensures Valid() && (View(), r) == Disconnect(old(View()), cid)
    {
      hide Base;
      if current.pid !in processes { return Error(ServerNotFound); }
      var c := processes[current.pid].connections;
      if cid < 2 || cid - 2 >= |c| || c[cid - 2].FreeSlot? { return Error(ServerNotFound); }
      var slot := c[cid - 2];
      if slot.refcount > 1 {
        StoreConnections(current.pid, c[cid - 2 := slot.(refcount := slot.refcount - 1)]);
      } else {
        StoreConnections(current.pid, c[cid - 2 := FreeSlot]);
      }
      r := Returned(Done);
    }

    // ---- Servers --------------------------------------------------------------------------------

    method CreateServerWithAddress(sid: nat, permissions: P.Permissions, backing: Result<nat>) returns (r: Outcome)
      requires Valid()
      modifies this`servers, this`clock
      ensures Valid() && (View(), r) == CreateServer(old(View()), sid, permissions, backing)
    {
      hide Base;
      var s := 0;
      while s < limits.servers && s in servers
        invariant s <= limits.servers && FreeServer(View(), s) == FreeServer(View(), 0)
      {
        s := s + 1;
      }
      if s == limits.servers { return Error(ServerNotFound); }
      if backing.Err? { return Error(backing.error); }
      var q := NewQueue(sid, current.pid, backing.value);
      SameScheduleBase(View(), View().(servers := servers[s := Entry(q, permissions, clock)], clock := clock + 1));
      servers, clock := servers[s := Entry(q, permissions, clock)], clock + 1;
      r := Returned(Done);
    }

    method SendSystemEvent(pid: nat, event: SystemEvent, arg: nat)
      requires Valid() && Ipc(View(), None)
      modifies this`threads, this`processes, this`servers, scheduler, scheduler.queueHeads, scheduler.links
      ensures Valid() && View() == SendEvent(old(View()), pid, event, arg)
    {
      hide Base, Ipc, SendInner, ServerIndex;
      if pid !in processes || event !in processes[pid].handlers { return; }
      var handler := processes[pid].handlers[event];
      var sidx := SidxFromSid(handler.0, Some(pid));
      if sidx >= limits.servers { return; }
      var sent := SendMessageInner(Id(current.pid, IRQ_TID), sidx, Scalar(ScalarBody(handler.1, arg, 0, 0, 0)), Ok(0));
    }

    /** A thread that waited for a dead server is made ready and told so. */
    method WakeFailed(x: Id)
      requires Valid() && Wakeable(View(), x)
      modifies this`threads, scheduler, scheduler.queueHeads, scheduler.links
      ensures Valid() && View() == SetResult(SetState(old(View()), x, Ready), x, Failed(ServerNotFound))
    {
      hide Base;
      SetThreadState(x, Ready);
      SetThreadResult(x, Failed(ServerNotFound));
    }

    method WakeAllClients(queue: seq<QueuedMessage>)
      requires Valid() && ClientsWakeable(View(), queue)
      modifies this`threads, scheduler, scheduler.queueHeads, scheduler.links
      ensures Valid() && View() == WakeClients(old(View()), queue)
    {
      hide Base, SetResult, SetState, Wakeable;
      var i := 0;
      while i < |queue|
        invariant 0 <= i <= |queue| && Valid() && ClientsWakeable(View(), queue)
        invariant WakeClients(View(), queue[i..]) == WakeClients(old(View()), queue)
      {
        assert queue[i..][1..] == queue[i + 1..];
        var named := queue[i].Names();
        if named.Some? {
          ghost var k := View();
          WakeFailed(named.value);
          ClientsStayWakeable(k, queue, named.value);
        }
        i := i + 1;
      }
    }

    method WakeAllReceivers(pid: nat, mask: set<nat>)
      requires Valid() && ReceiversWakeable(View(), pid, mask)
      modifies this`threads, scheduler, scheduler.queueHeads, scheduler.links
      ensures Valid() && View() == WakeReceivers(old(View()), pid, mask, 0)
    {
      hide Base, SetResult, SetState, Wakeable;
      var t := 0;
      while t < MASK_BITS
        invariant Valid() && ReceiversWakeable(View(), pid, mask)
        invariant WakeReceivers(View(), pid, mask, t) == WakeReceivers(old(View()), pid, mask, 0)
      {
        if t in mask {
          ghost var k := View();
          WakeFailed(Id(pid, t));
          ReceiversStayWakeable(k, pid, mask, Id(pid, t));
        }
        t := t + 1;
      }
    }

    method TombstoneAll(sidx: nat)
      requires Valid() && Ipc(View(), None) && ConnsBut(View(), sidx, 1) && sidx !in servers
      modifies this`threads, this`processes, this`servers, scheduler, scheduler.queueHeads, scheduler.links
      ensures Valid() && View() == TombstoneFrom(old(View()), sidx, 1, limits.processes)
    {
      hide Base, Ipc, ConnsBut, SendEvent, SetConnections, TombstoneConnections, Calm, OrphansStay, IdleOk, CurrentOk,
           NoStale, NoNewWaits;
      var pid := 1;
      while pid < limits.processes + 1
        invariant 1 <= pid <= limits.processes + 1 && Valid() && Ipc(View(), None) && ConnsBut(View(), sidx, pid) &&
                  sidx !in servers
        invariant TombstoneFrom(View(), sidx, pid, limits.processes + 1 - pid) ==
                  TombstoneFrom(old(View()), sidx, 1, limits.processes)
      {
        ghost var k := View();
        if pid in processes {
          TombstoneOneOk(k, sidx, pid);
          CalmServers(k, TombstoneOne(k, sidx, pid), sidx);
          TombstonedIpc(k, sidx, pid);
          var cid := TombstoneConnectionBySidx(pid, sidx);
          if cid.Some? {
            SendSystemEvent(pid, Disconnected, cid.value);
          }
        } else {
          ConnsButSkip(k, sidx, pid);
        }
        pid := pid + 1;
      }
    }

    method DestroyServerAt(sidx: nat)
      requires Valid() && Ipc(View(), None) && ConnsOk(View()) && sidx in servers && servers[sidx].q.pid == current.pid
      modifies this`threads, this`processes, this`servers, scheduler, scheduler.queueHeads, scheduler.links
      ensures Valid() && View() == DestroySidx(old(View()), sidx)
    {
      hide Base, Ipc, ConnsOk, ConnsBut, WakeClients, WakeReceivers, TombstoneFrom, ClientsWakeable, Wakeable, Calm,
           Quiet;
      var q := servers[sidx].q;
      ghost var k := View();
      WaitersWakeable(k, sidx);
      RemovedRest(k, sidx);
      WokenOk(k, sidx);
      servers := servers - {sidx};
      RemovedWakeable(k, sidx, q.queue, q.pid, q.readyThreads);
      WakeAllClients(q.queue);
      ReceiversAfterClients(k.(servers := k.servers - {sidx}), q.queue, q.pid, q.readyThreads);
      WakeAllReceivers(current.pid, q.readyThreads);
      TombstoneAll(sidx);
    }

    // ---- Threads and processes ------------------------------------------------------------------

    method ClearThreadAt(x: Id)
      requires Valid()
      modifies this`threads, scheduler, scheduler.queueHeads, scheduler.links
      ensures Valid() && View() == ClearThread(old(View()), x)
    {
      hide Base;
      SetThreadState(x, Free);
      SetKernelFuture(x, None);
      SetThreadMailbox(x, None);
    }

    /** The running thread exits with `value` and its joiners are told. */
    method WakeAllJoiners(pid: nat, target: nat, value: nat)
      requires Valid() && Ipc(View(), None)
      modifies this`threads, scheduler, scheduler.queueHeads, scheduler.links
      ensures Valid() && View() == WakeJoiners(old(View()), pid, target, value, 0, limits.threads)
    {
      hide Base, Ipc, WakeWithResult, Tame;
      var tid := 0;
      while tid < limits.threads
        invariant 0 <= tid <= limits.threads && Valid() && Ipc(View(), None)
        invariant WakeJoiners(View(), pid, target, value, tid, limits.threads - tid) ==
                  WakeJoiners(old(View()), pid, target, value, 0, limits.threads)
      {
        var x := Id(pid, tid);
        if x in threads && threads[x].future == Some(WaitJoin(target)) {
          WakeOtherOk(View(), x, Value([value]));
          FutureNotIrq(View(), x);
          WakeThreadWithResult(x, Value([value]));
        }
        tid := tid + 1;
      }
    }

    method ExitThread(value: nat) returns (r: Outcome)
      requires Valid() && Inv(View()) && CurrentOk(View()) && current != IDLE
      modifies this, scheduler, scheduler.queueHeads, scheduler.links
      ensures Valid() && (View(), r) == ThreadExited(old(View()), value)
    {
      hide Base, Ipc, IdleOk, ConnsOk, CurrentOk, NoStale, ClearThread, Activate, WakeJoiners, NoNewWaits, Stays;
      ClearCurrent(View());
      var x := current;
      ClearThreadAt(x);
      assert current == x by { ClearKeepsCurrent(old(View()), x); }
      if x.tid != IRQ_TID {
        WakeAllJoiners(x.pid, x.tid, value);
      }
      r := ActivateCurrent();
    }

    method FutexWakeThreads(addr: nat, n: nat)
      requires Valid() && Ipc(View(), None)
      modifies this`threads, scheduler, scheduler.queueHeads, scheduler.links
      ensures Valid() && View() == FutexWake(old(View()), addr, n).0
    {
      hide Base, Ipc, WakeWithResult, Tame;
      BaseLimits(View());
      var remaining, tid := n, 1;
      ghost var pid := current.pid;
      while tid < limits.threads && remaining > 0
        invariant 1 <= tid <= limits.threads && Valid() && Ipc(View(), None) && current.pid == pid
        invariant WakeFutex(View(), pid, addr, remaining, tid, limits.threads - tid) ==
                  WakeFutex(old(View()), pid, addr, n, 1, limits.threads - 1)
      {
        var x := Id(current.pid, tid);
        if x in threads && threads[x].future == Some(WaitFutex(addr)) {
          WakeOtherOk(View(), x, Done);
          FutureNotIrq(View(), x);
          WakeThreadWithResult(x, Done);
          remaining := remaining - 1;
        }
        tid := tid + 1;
      }
    }

    method CloseAllServers(pid: nat)
      requires Valid() && Ipc(View(), None) && ConnsOk(View()) && current.pid == pid
      modifies this`threads, this`processes, this`servers, scheduler, scheduler.queueHeads, scheduler.links
      ensures Valid() && View() == CloseServers(old(View()), pid, 0, limits.servers)
    {
      hide Base, Ipc, ConnsOk, DestroySidx, Discard, SetQueue, NamesOther, NameAt, Closing;
      var s := 0;
      while s < limits.servers
        invariant 0 <= s <= limits.servers && Valid() && Ipc(View(), None) && ConnsOk(View()) && current.pid == pid
        invariant CloseServers(View(), pid, s, limits.servers - s) == CloseServers(old(View()), pid, 0, limits.servers)
      {
        CloseOneOk(View(), pid, s);
        if s in servers {
          if servers[s].q.pid == pid {
            DestroyServerAt(s);
          } else {
            StoreQueue(s, Discard(servers[s].q, pid));
          }
        }
        s := s + 1;
      }
    }

    method CollectExitWaiters(dying: nat) returns (waiters: seq<Id>)
      requires Valid()
      ensures waiters == ExitWaiters(View(), dying, 1, limits.processes, [])
    {
      BaseLimits(View());
      hide Base;
      waiters := [];
      var pid := 1;
      while pid < limits.processes + 1
        invariant 1 <= pid <= limits.processes + 1
        invariant ExitWaiters(View(), dying, pid, limits.processes + 1 - pid, waiters) ==
                  ExitWaiters(View(), dying, 1, limits.processes, [])
      {
        ghost var before := waiters;
        var tid := 1;
        while tid < limits.threads
          invariant 1 <= tid <= limits.threads
          invariant ExitWaitersIn(View(), dying, pid, tid, limits.threads - tid, waiters) ==
                    ExitWaitersIn(View(), dying, pid, 1, limits.threads - 1, before)
        {
          var x := Id(pid, tid);
          if x in threads && threads[x].future == Some(WaitProcessExit(dying)) && |waiters| < MAX_EXIT_WAITERS {
            waiters := waiters + [x];
          }
          tid := tid + 1;
        }
        pid := pid + 1;
      }
    }

    method WakeAllWaiters(waiters: seq<Id>, ghost dying: nat, r: Reply)
      requires Valid() && Ipc(View(), None) && AllWait(View(), waiters, dying) && dying in processes
      modifies this`threads, scheduler, scheduler.queueHeads, scheduler.links
      ensures Valid() && View() == WakeAll(old(View()), waiters, r)
    {
      hide Base, Ipc, WakeWithResult, Tame;
      var i := 0;
      while i < |waiters|
        invariant 0 <= i <= |waiters| && Valid() && Ipc(View(), None) && AllWait(View(), waiters, dying)
        invariant WakeAll(View(), waiters[i..], r) == WakeAll(old(View()), waiters, r)
      {
        var x := waiters[i];
        ghost var k := View();
        assert WaitsForExit(k, x, dying) && !Abandoned(k, x);
        WakeOtherOk(k, x, r);
        FutureNotIrq(k, x);
        WakeThreadWithResult(x, r);
        AllStillWait(k, waiters, x, dying, r);
        assert waiters[i..][1..] == waiters[i + 1..];
        i := i + 1;
      }
    }

    method FreeAllThreads(pid: nat)
      requires Valid()
      modifies this`threads, scheduler, scheduler.queueHeads, scheduler.links
      ensures Valid() && View() == FreeThreads(old(View()), pid, 1, limits.threads - 1)
    {
      BaseLimits(View());
      hide Base, ClearThread;
      var tid := 1;
      while tid < limits.threads
        invariant 1 <= tid <= limits.threads && Valid()
        invariant FreeThreads(View(), pid, tid, limits.threads - tid) ==
                  FreeThreads(old(View()), pid, 1, limits.threads - 1)
      {
        ClearThreadAt(Id(pid, tid));
        tid := tid + 1;
      }
    }

    /** Close the servers of the dying process and tell those who wait for its end. */
    method AnnounceExit(pid: nat, code: nat)
      requires Valid() && Ipc(View(), None) && ConnsOk(View()) && current.pid == pid && pid in processes
      modifies this`threads, this`processes, this`servers, scheduler, scheduler.queueHeads, scheduler.links
      ensures Valid() && View() == Announced(old(View()), pid, code)
    {
      hide Base, Ipc, ConnsOk, CloseServers, SendEvent, WakeAll, ExitWaiters, Disowned, Tame, Calm, OrphansStay,
           WaitsForExit;
      ghost var before := View();
      NothingDisowned(View(), pid);
      CloseServersOk(View(), pid, 0, limits.servers);
      var parent := processes[pid].ppid;
      CloseAllServers(pid);
      CalmProcesses(before, View());
      if parent.Some? {
        before := View();
        SendEventOk(before, parent.value, ChildTerminated, code);
        SendSystemEvent(parent.value, ChildTerminated, code);
        CalmProcesses(before, View());
      }
      var waiters := CollectExitWaiters(pid);
      ExitWaitersWait(View(), pid, 1, limits.processes, []);
      WakeAllWaiters(waiters, pid, Value([code]));
    }

    method TerminateCurrentProcess(code: nat) returns (r: Outcome)
      requires Valid() && Inv(View()) && !scheduler.inIrqHandler && current.pid in processes &&
               current.pid != KERNEL_PID
      modifies this, scheduler, scheduler.queueHeads, scheduler.links
      ensures Valid() && (View(), r) == TerminateCurrent(old(View()), code)
    {
      hide Base, Ipc, IdleOk, ConnsOk, NoStale, FreshBut, Announced, FreeThreads, TerminateCurrent, Activate,
           NoNewWaits, Retired, RemoveProcess, Scheduling.Scheduler.Valid;
      BaseLimits(View());
      var pid := current.pid;
      ClearedOk(View(), code);
      TerminateUnfold(View(), code);
      AnnounceExit(pid, code);
      FreeAllThreads(pid);
      FreeProcess(pid);
      r := ActivateCurrent();
    }

    method FreeProcess(pid: nat)
      requires Valid() && Retired(View(), pid)
      modifies this`processes, this`threads, this`current
      ensures Valid() && View() == RemoveProcess(old(View()), pid)
    {
      hide Base, Retired;
      RemoveBase(View(), pid);
      processes := map q | q in processes && q != pid ::
        if processes[q].ppid == Some(pid) then processes[q].(ppid := None) else processes[q];
      threads := map x | x in threads && x.pid != pid :: threads[x];
      current := IDLE;
    }
  }

  lemma ClearKeepsCurrent(k: Kernel, x: Id)
    ensures ClearThread(k, x).current == k.current
  {
  }

  lemma FutureNotIrq(k: Kernel, x: Id)
    requires Ipc(k, None) && x in k.threads && k.threads[x].future.Some?
    ensures x.tid != IRQ_TID
  {
  }

  lemma AllStillWait(k: Kernel, waiters: seq<Id>, x: Id, dying: nat, r: Reply)
    requires AllWait(k, waiters, dying)
    ensures AllWait(WakeWithResult(k, x, r), waiters, dying)
  {
    hide WaitsForExit, WakeWithResult;
    forall i | 0 <= i < |waiters|
      ensures WaitsForExit(WakeWithResult(k, x, r), waiters[i], dying)
    {
      WakeResultFutures(k, x, r, waiters[i], dying);
    }
  }

  /** The threads in `mask` can be made ready. */
  ghost predicate ReceiversWakeable(k: Kernel, pid: nat, mask: set<nat>) {
    forall u | u in mask :: Wakeable(k, Id(pid, u))
  }

  lemma ClientsStayWakeable(k: Kernel, queue: seq<QueuedMessage>, x: Id)
    requires Base(k) && ClientsWakeable(k, queue) && Wakeable(k, x)
    ensures ClientsWakeable(SetResult(SetState(k, x, Ready), x, Failed(ServerNotFound)), queue)
  {
    var k1 := SetResult(SetState(k, x, Ready), x, Failed(ServerNotFound));
    hide Base, Quiet, SetState, SetResult, Wakeable;
    WakeFailedOk(k, x);
    forall i | 0 <= i < |queue| && queue[i].Names().Some?
      ensures Wakeable(k1, queue[i].Names().value)
    {
      QuietWakeable(k, k1, queue[i].Names().value);
    }
  }

  lemma ReceiversStayWakeable(k: Kernel, pid: nat, mask: set<nat>, x: Id)
    requires Base(k) && ReceiversWakeable(k, pid, mask) && Wakeable(k, x)
    ensures ReceiversWakeable(SetResult(SetState(k, x, Ready), x, Failed(ServerNotFound)), pid, mask)
  {
    var k1 := SetResult(SetState(k, x, Ready), x, Failed(ServerNotFound));
    hide Base, Quiet, SetState, SetResult, Wakeable;
    WakeFailedOk(k, x);
    forall u | u in mask
      ensures Wakeable(k1, Id(pid, u))
    {
      QuietWakeable(k, k1, Id(pid, u));
    }
  }

  lemma RemovedWakeable(k: Kernel, sidx: nat, queue: seq<QueuedMessage>, pid: nat, mask: set<nat>)
    requires ClientsWakeable(k, queue) && ReceiversWakeable(k, pid, mask)
    ensures ClientsWakeable(k.(servers := k.servers - {sidx}), queue)
    ensures ReceiversWakeable(k.(servers := k.servers - {sidx}), pid, mask)
  {
    forall u | u in mask
      ensures Wakeable(k.(servers := k.servers - {sidx}), Id(pid, u))
    {
      assert Wakeable(k, Id(pid, u));
    }
    forall i | 0 <= i < |queue| && queue[i].Names().Some?
      ensures Wakeable(k.(servers := k.servers - {sidx}), queue[i].Names().value)
    {
      assert Wakeable(k, queue[i].Names().value);
    }
  }

  lemma ReceiversAfterClients(k: Kernel, queue: seq<QueuedMessage>, pid: nat, mask: set<nat>)
    requires Base(k) && ClientsWakeable(k, queue) && ReceiversWakeable(k, pid, mask)
    ensures ReceiversWakeable(WakeClients(k, queue), pid, mask)
  {
    hide Base, Quiet, WakeClients, Wakeable;
    WakeClientsOk(k, queue);
    forall u | u in mask
      ensures Wakeable(WakeClients(k, queue), Id(pid, u))
    {
      QuietWakeable(k, WakeClients(k, queue), Id(pid, u));
    }
  }

  lemma TombstonedIpc(k: Kernel, sidx: nat, pid: nat)
    requires Ipc(k, None) && pid in k.processes
    ensures Ipc(SetConnections(k, pid, TombstoneConnections(k.processes[pid].connections, sidx).1), None)
  {
    SetConnectionsIpc(k, pid, TombstoneConnections(k.processes[pid].connections, sidx).1, None);
  }

  lemma IndexFound(k: Kernel, sid: nat, owner: Option<nat>)
    ensures ServerIndex(k, sid, owner, 0) < k.limits.servers ==> ServerIndex(k, sid, owner, 0) in k.servers
  {
  }

  lemma TakeNothing(k: Kernel, sidx: nat)
    requires sidx in k.servers
    ensures TakeMessage(k, sidx).1.None? ==> TakeMessage(k, sidx).0 == k
  {
  }

  /** What one round of choosing does, for each thread that can be at the head. */
  lemma ActivateCases(k: Kernel)
    requires Base(k) && !k.inIrq
    ensures Head(k).None? ==> Activate(k) == (k, Drained)
    ensures Head(k).Some? ==> Head(k).value in k.threads
    ensures Head(k).Some? && k.threads[Head(k).value].future.None? ==>
            Activate(k) == (k.(current := Head(k).value), Resumed)
    ensures Head(k).Some? && k.threads[Head(k).value].future.Some? ==>
      var x, f := Head(k).value, k.threads[Head(k).value].future.value;
      var (k1, polled) := Poll(SetFuture(k, x, None), x, f);
      match polled
      case PollReady(r) => Activate(k) == (SetResult(k1, x, r).(current := x), Resumed)
      case PollError(e) => Activate(k) == (k1, Error(e))
      case PollPending =>
        && Activate(k) == Activate(Suspend(k1, x, f))
        && ReadyCount(Suspend(k1, x, f)) < ReadyCount(k) && !Suspend(k1, x, f).inIrq
  {
    if Head(k).Some? {
      HeadInRing(k);
      if k.threads[Head(k).value].future.Some? {
        ActivateUnfold(k);
        PendingSkips(k);
      }
    }
  }

  lemma PendingSkips(k: Kernel)
    requires Base(k) && !k.inIrq && Head(k).Some? && Head(k).value in k.threads && k.threads[Head(k).value].future.Some?
    ensures var x, f := Head(k).value, k.threads[Head(k).value].future.value;
      var (k1, polled) := Poll(SetFuture(k, x, None), x, f);
      polled.PollPending? ==>
        && Activate(k) == Activate(Suspend(k1, x, f))
        && ReadyCount(Suspend(k1, x, f)) < ReadyCount(k) && !Suspend(k1, x, f).inIrq
  {
    var x, f := Head(k).value, k.threads[Head(k).value].future.value;
    var (k1, polled) := Poll(SetFuture(k, x, None), x, f);
    if polled.PollPending? {
      assert HeadPending(k);
      assert k1 == SetFuture(k, x, None);
      assert SetFuture(k1, x, Some(f)) == SetFuture(k, x, Some(f)) by {
        assert SetFuture(k1, x, Some(f)).threads == SetFuture(k, x, Some(f)).threads;
      }
      hide Activate;
      SkipExact(k);
      ActivateSkips(k);
      SkipDecreases(k);
    }
  }

  lemma CoupledOnce(k: Kernel, x: Id)
    requires Base(k) && x in k.threads && x.tid != IRQ_TID
    ensures NoDup(k.rings[k.threads[x].priority])
    ensures forall q: nat | q < |k.rings| && x in k.rings[q] :: q == k.threads[x].priority
  {
    forall q: nat | q < |k.rings| && x in k.rings[q]
      ensures q == k.threads[x].priority
    {
      assert InRing(k, q, x);
      assert BelongsIn(k, q, x);
    }
  }

  /** A running thread is not recorded as parked on a server of its process. */
  lemma RunningIsNotParked(k: Kernel, s: nat)
    requires Ipc(k, None) && CurrentOk(k) && s in k.servers && k.servers[s].q.pid == k.current.pid
    ensures k.current.tid !in k.servers[s].q.readyThreads
  {
    assert !ReceivesFrom(k, Id(k.current.pid, k.current.tid), s);
  }
}
