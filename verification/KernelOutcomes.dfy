/** What a system call does, seen from its caller and from the threads it is about. */
module KernelOutcomes {
  import opened Common
  import opened Rings
  import opened ServerQueue
  import opened KernelState
  import opened KernelSteps
  import opened KernelInv
  import opened KernelSched
  import opened KernelWakes
  import opened KernelMessages
  import opened KernelActivate
  import opened KernelCalls
  import opened KernelTables
  import opened KernelRuns
  import opened KernelEffects

  /** Every thread but `x` is as the choice of the next thread to run leaves it. */
  ghost predicate OthersLeft(k: Kernel, k': Kernel, r: Outcome, x: Id) {
    forall y | y in k.threads && y != x :: Left(k, k', r, y)
  }

  /** The choice of the next thread sees the same of `y` in `left` as in `k`. */
  lemma LeftFrom(k: Kernel, left: Kernel, k': Kernel, r: Outcome, y: Id)
    requires y in k.threads && y in left.threads && left.threads[y] == k.threads[y]
    requires left.servers == k.servers && left.processes == k.processes && Left(left, k', r, y)
    ensures Left(k, k', r, y)
  {
    hide Pending, Handed;
  }

  /** One thread has changed; then the next thread to run is chosen. */
  lemma OneThenActivate(k: Kernel, left: Kernel, x: Id)
    requires Base(left) && Ipc(left, None) && x in k.threads && x in left.threads
    requires left.threads == k.threads[x := left.threads[x]]
    requires left.servers == k.servers && left.processes == k.processes
    ensures var (k', r) := Activate(left);
      OthersLeft(k, k', r, x) && Left(left, k', r, x)
  {
    hide Base, Ipc, Activate, Left;
    var (k', r) := Activate(left);
    forall y | y in k.threads && y != x
      ensures Left(k, k', r, y)
    {
      ActivateThread(left, y);
      LeftFrom(k, left, k', r, y);
    }
    ActivateThread(left, x);
  }

  /** A thread that has left the processor stays as it left, and one without an unfinished call as it is. */
  lemma LeftSame(k: Kernel, k': Kernel, r: Outcome, x: Id)
    requires Left(k, k', r, x)
    requires (!IsReady(k, x) && !k.threads[x].state.RetryQueueFull?) || (IsReady(k, x) && k.threads[x].future.None?)
    ensures x in k'.threads && k'.threads[x] == k.threads[x]
  {
  }

  // ---- Waiting ----------------------------------------------------------------------------------

  /** The caller is suspended in `f`, with the event that ends it; for the others nothing has happened. */
  ghost predicate Parked(k: Kernel, k': Kernel, r: Outcome, f: KernelFuture) {
    && k.current in k.threads && k.current in k'.threads
    && k'.threads[k.current] == k.threads[k.current].(state := WaitEvent({EVENT_KERNEL}), future := Some(f))
    && OthersLeft(k, k', r, k.current)
  }

  lemma LeavingOk(k: Kernel, e: Event)
    requires Sound(k) && Enabled(k, e) && Leaving(k, e).Some? && !(e.SysCall? && e.call.CloseServer?)
    ensures var left := Leaving(k, e).value;
      Step(k, e) == Activate(left) && Base(left) && Ipc(left, None) && !IsReady(left, k.current)
  {
    hide Base, Ipc, IdleOk, ConnsOk, CurrentOk, Leaving, Step, Activate, NoStale, NoNewWaits, Stays, Derailed, Enabled;
    LeavingChooses(k, e);
    EventEnds(k, e);
  }

  /** The running thread, when it is not an interrupt handler. */
  lemma Running(k: Kernel)
    requires Sound(k)
    ensures IsReady(k, k.current) && k.threads[k.current].future.None? && k.threads[k.current].mailbox.None?
    ensures k.current.pid in k.processes && k.current.tid < k.limits.threads && Base(k) && Ipc(k, None)
  {
  }

  /** A call that does nothing but to park its caller. */
  lemma ParksIn(k: Kernel, e: Event, f: KernelFuture)
    requires Sound(k) && Enabled(k, e) && k.current.tid != IRQ_TID && !f.ReceiveMessage?
    requires Leaving(k, e) == Some(Suspend(k, k.current, f)) && !(e.SysCall? && e.call.CloseServer?)
    ensures var (k', r) := Step(k, e);
      Parked(k, k', r, f)
  {
    hide Base, Ipc, IdleOk, ConnsOk, CurrentOk, Leaving, Step, Activate, Suspend, Enabled, Left, Sound;
    Running(k);
    LeavingOk(k, e);
    SuspendExact(k, k.current, f);
    var left := Suspend(k, k.current, f);
    var (k', r) := Activate(left);
    OneThenActivate(k, left, k.current);
    LeftSame(left, k', r, k.current);
  }

  /** Joining another thread parks the caller until it ends; a thread that is not there has ended. */
  lemma JoinOutcome(k: Kernel, tid: nat)
    requires Sound(k) && Enabled(k, SysCall(JoinThread(tid))) && k.current.tid != IRQ_TID
    ensures var (k', r) := Step(k, SysCall(JoinThread(tid)));
      var x := Id(k.current.pid, tid);
      if x == k.current then k' == k && r == Error(ThreadNotAvailable)
      else if x in k.threads && !k.threads[x].state.Free? then Parked(k, k', r, WaitJoin(tid))
      else k' == k && r == Returned(Value([0]))
  {
    hide Inv, CurrentOk, Activate, Suspend, Parked;
    var e := SysCall(JoinThread(tid));
    if Leaving(k, e).Some? { ParksIn(k, e, WaitJoin(tid)); }
  }

  /** Waiting for a process parks the caller until it ends; a process that is not there has ended. */
  lemma WaitOutcome(k: Kernel, target: nat)
    requires Sound(k) && Enabled(k, SysCall(WaitProcess(target))) && k.current.tid != IRQ_TID
    ensures var (k', r) := Step(k, SysCall(WaitProcess(target)));
      if target in k.processes then Parked(k, k', r, WaitProcessExit(target))
      else k' == k && r == Returned(Value([0]))
  {
    hide Inv, CurrentOk, Activate, Suspend, Parked;
    var e := SysCall(WaitProcess(target));
    if Leaving(k, e).Some? { ParksIn(k, e, WaitProcessExit(target)); }
  }

  /** Waiting on a futex parks the caller unless the word has changed. */
  lemma FutexWaitOutcome(k: Kernel, addr: nat, same: bool)
    requires Sound(k) && Enabled(k, SysCall(WaitOnFutex(addr, same))) && k.current.tid != IRQ_TID
    ensures var (k', r) := Step(k, SysCall(WaitOnFutex(addr, same)));
      if !same then k' == k && r == Error(Again)
      else
        && k.current in k'.threads && OthersLeft(k, k', r, k.current)
        && k'.threads[k.current] == k.threads[k.current].(state := WaitEvent({EVENT_KERNEL}),
                                                          future := Some(WaitFutex(addr)), result := Some(Done))
  {
    hide Base, Ipc, IdleOk, ConnsOk, CurrentOk, Activate, Suspend, SetResult, Left;
    if same {
      var e := SysCall(WaitOnFutex(addr, same));
      var k1 := SetResult(k, k.current, Done);
      Running(k);
      LeavingOk(k, e);
      ResultExact(k, k.current, Done);
      SuspendExact(k1, k.current, WaitFutex(addr));
      var left := Suspend(k1, k.current, WaitFutex(addr));
      var (k', r) := Activate(left);
      OneThenActivate(k, left, k.current);
      LeftSame(left, k', r, k.current);
    }
  }

  lemma ResultExact(k: Kernel, x: Id, r: Reply)
    requires x in k.threads
    ensures SetResult(k, x, r) == k.(threads := k.threads[x := k.threads[x].(result := Some(r))])
  {
  }

  /**
   Waiting for events: those that have fired are returned and taken off the process; if none has, the
   caller waits for exactly the events it asked for.
   */
  lemma EventOutcome(k: Kernel, mask: set<nat>)
    requires Sound(k) && Enabled(k, SysCall(WaitForEvent(mask))) && k.current.tid != IRQ_TID
    ensures var (k', r) := Step(k, SysCall(WaitForEvent(mask)));
      var pid := k.current.pid;
      pid in k.processes &&
      var p := k.processes[pid];
      if mask == {} then k' == k && r == Error(InvalidArguments)
      else if p.notificationBits * mask != {} then
        && r == Returned(Fired(p.notificationBits * mask))
        && k' == k.(processes := k.processes[pid := p.(notificationBits := p.notificationBits - mask)])
      else
        && k.current in k'.threads && OthersLeft(k, k', r, k.current) && k'.processes == k.processes
        && k'.threads[k.current] == k.threads[k.current].(state := WaitEvent(mask), result := Some(Done))
  {
    hide Base, Ipc, IdleOk, ConnsOk, CurrentOk, Activate, SetState, SetResult, Left;
    Running(k);
    var p := k.processes[k.current.pid];
    if mask != {} && p.notificationBits * mask == {} {
      NothingFired(p.notificationBits, mask);
      assert k.processes[k.current.pid := p.(notificationBits := p.notificationBits - mask)] == k.processes;
      EventParked(k, mask);
    }
  }

  lemma NothingFired(bits: set<nat>, mask: set<nat>)
    requires bits * mask == {}
    ensures bits - mask == bits
  {
    assert forall b :: b in bits && b in mask ==> b in bits * mask;
  }

  lemma EventParked(k: Kernel, mask: set<nat>)
    requires Sound(k) && Enabled(k, SysCall(WaitForEvent(mask))) && k.current.tid != IRQ_TID
    requires EventParks(k, mask) == Some(SetState(SetResult(k, k.current, Done), k.current, WaitEvent(mask)))
    ensures var (k', r) := Step(k, SysCall(WaitForEvent(mask)));
      && k.current in k.threads && k.current in k'.threads && OthersLeft(k, k', r, k.current)
      && k'.processes == k.processes
      && k'.threads[k.current] == k.threads[k.current].(state := WaitEvent(mask), result := Some(Done))
  {
    hide Base, Ipc, IdleOk, ConnsOk, CurrentOk, Activate, SetState, SetResult, Left, EventParks, Step, Sound, Enabled;
    var k1 := SetResult(k, k.current, Done);
    var left := SetState(k1, k.current, WaitEvent(mask));
    Running(k);
    LeavingOk(k, SysCall(WaitForEvent(mask)));
    ResultExact(k, k.current, Done);
    StateExact(k1, k.current, WaitEvent(mask));
    var (k', r) := Activate(left);
    OneThenActivate(k, left, k.current);
    LeftSame(left, k', r, k.current);
    SameEvents(left);
  }

  lemma SameEvents(k: Kernel)
    requires Base(k) && Ipc(k, None)
    ensures Activate(k).0.processes == k.processes
  {
    hide Base, Ipc, Activate, Resumption, FirstAble, OthersWait, MustWait;
    if k.inIrq { ActivateInIrq(k); } else { ActivateRunsFirst(k); ResumptionProcesses(k); }
  }

  lemma ResumptionProcesses(k: Kernel)
    ensures Resumption(k, Activate(k).0, Activate(k).0.current) ==> Activate(k).0.processes == k.processes
  {
    hide Activate;
  }

  lemma StateExact(k: Kernel, x: Id, state: ThreadState)
    requires x in k.threads && x.tid != IRQ_TID
    ensures var k' := SetState(k, x, state);
      && k' == k.(threads := k'.threads, rings := k'.rings)
      && k'.threads == k.threads[x := k.threads[x].(state := state)]
  {
  }

  // ---- Going on ---------------------------------------------------------------------------------

  /**
   The caller keeps the processor, or comes after others, with `t` as its record; for the others
   nothing has happened.
   */
  ghost predicate GoesOn(k: Kernel, k': Kernel, r: Outcome, t: Thread) {
    k.current in k'.threads && k'.threads[k.current] == t && OthersLeft(k, k', r, k.current)
  }

  /** After `k1`, only the caller has changed, to `t`; then the next thread to run has been chosen. */
  ghost predicate CallerThen(k1: Kernel, k': Kernel, r: Outcome, x: Id, t: Thread) {
    && x in k'.threads && k'.threads[x] == t
    && exists left: Kernel ::
         left == k1.(threads := k1.threads[x := t], rings := left.rings) && (k', r) == Activate(left)
  }

  lemma RecordThenActivate(k: Kernel, left: Kernel)
    requires Base(left) && Ipc(left, None) && k.current in k.threads && IsReady(left, k.current)
    requires left.threads[k.current].future.None? && left.threads == k.threads[k.current := left.threads[k.current]]
    requires left.servers == k.servers && left.processes == k.processes
    ensures var (k', r) := Activate(left);
      GoesOn(k, k', r, left.threads[k.current])
  {
    hide Base, Ipc, Activate, Left;
    var (k', r) := Activate(left);
    OneThenActivate(k, left, k.current);
    LeftSame(left, k', r, k.current);
  }

  /** Giving up the processor changes nothing of the caller but that it is told so. */
  lemma YieldOutcome(k: Kernel)
    requires Sound(k) && k.current.tid != IRQ_TID
    ensures var (k', r) := Step(k, SysCall(YieldSlice));
      && k.current in k.threads
      && GoesOn(k, k', r, k.threads[k.current].(result := Some(Done)))
  {
    hide Base, Ipc, IdleOk, ConnsOk, CurrentOk, NoStale, Activate, SetResult, RingYield, GoesOn, Quiet;
    Running(k);
    var k1 := SetResult(k, k.current, Done);
    var left := k1.(rings := RingYield(k.rings, k.threads[k.current].priority, k.current));
    ResultExact(k, k.current, Done);
    ResultBase(k, k.current, Done);
    RingYieldBase(k1, k.current);
    YieldQuiet(k, left.rings);
    QuietIpc(k, left, None);
    RecordThenActivate(k, left);
  }

  /** The caller has the priority it asked for, and its place in that ring; 0 is not to be had. */
  lemma PriorityOutcome(k: Kernel, priority: nat)
    requires Sound(k) && k.current.tid != IRQ_TID && priority < NUM_PRIORITIES
    ensures var (k', r) := Step(k, SysCall(Prioritise(priority)));
      if priority == 0 then k' == k && r == Error(InvalidArguments)
      else
        && k.current in k.threads && InRing(k', priority, k.current)
        && GoesOn(k, k', r, k.threads[k.current].(priority := priority, result := Some(Done)))
  {
    hide Base, Ipc, IdleOk, ConnsOk, CurrentOk, NoStale, Activate, SetResult, SetPriority, GoesOn, Quiet;
    if priority != 0 {
      Running(k);
      var k1 := SetPriority(k, k.current, priority);
      var left := SetResult(k1, k.current, Done);
      PriorityExact(k, k.current, priority);
      SetPriorityBase(k, k.current, priority);
      PriorityQuiet(k, k.current, priority);
      ResultExact(k1, k.current, Done);
      ResultBase(k1, k.current, Done);
      ResultQuiet(k1, k.current, Done);
      QuietTrans(k, k1, left);
      QuietIpc(k, left, None);
      RecordThenActivate(k, left);
      var k' := Activate(left).0;
      assert IsReady(k', k.current) && k'.threads[k.current].priority == priority by {
        assert GoesOn(k, k', Activate(left).1, left.threads[k.current]);
        GoesOnAt(k, k', Activate(left).1, left.threads[k.current]);
      }
      ActivateBase(left);
      ReadyLinked(k', k.current);
    }
  }

  lemma GoesOnAt(k: Kernel, k': Kernel, r: Outcome, t: Thread)
    requires GoesOn(k, k', r, t)
    ensures k.current in k'.threads && k'.threads[k.current] == t
  {
  }

  lemma ActivateBase(k: Kernel)
    requires Base(k) && Ipc(k, None)
    ensures Base(Activate(k).0)
  {
    hide Base, Ipc, Activate;
    ActivateOk(k);
  }

  lemma PriorityExact(k: Kernel, x: Id, priority: nat)
    requires x in k.threads
    ensures var k' := SetPriority(k, x, priority);
      && k' == k.(threads := k'.threads, rings := k'.rings)
      && k'.threads == k.threads[x := k.threads[x].(priority := priority)]
  {
  }

  // ---- Events -----------------------------------------------------------------------------------

  /**
   Posting concerns the caller's own process only; the first thread that waits for a bit is woken
   (`PostWakesFirst`).
   */
  lemma NotifyOutcome(k: Kernel, pid: nat, bits: set<nat>)
    requires Sound(k)
    ensures var (k', r) := Step(k, SysCall(Notify(pid, bits)));
      if bits == {} then k' == k && r == Returned(Done)
      else if pid != k.current.pid then k' == k && r == Error(AccessDenied)
      else r == Returned(Done) && Posted(k, k', pid, bits)
  {
    hide PostBits;
    Running(k);
    PostWakesFirst(k, k.current.pid, bits);
  }

  /** A process names a handler once, and it is kept. */
  lemma RegisterOutcome(k: Kernel, event: SystemEvent, sid: nat, id: nat)
    requires Sound(k) && k.current.tid != IRQ_TID
    ensures var (k', r) := Step(k, SysCall(Register(event, sid, id)));
      var pid := k.current.pid;
      pid in k.processes &&
      var p := k.processes[pid];
      if event in p.handlers then k' == k && r == Error(AccessDenied)
      else
        && r == Returned(Done) && k' == k.(processes := k'.processes) && k'.processes.Keys == k.processes.Keys
        && (forall q | q in k.processes && q != pid :: k'.processes[q] == k.processes[q])
        && k'.processes[pid] == p.(handlers := k'.processes[pid].handlers)
        && k'.processes[pid].handlers == p.handlers[event := (sid, id)]
  {
    Running(k);
  }

  // ---- The end of a thread ----------------------------------------------------------------------

  /** `x`, suspended in `f`, has been sent `v` and is ready, or has gone on with it already. */
  predicate Got(k: Kernel, x: Id, f: KernelFuture, v: Reply) {
    IsReady(k, x) &&
    ((k.threads[x].future == Some(f) && k.threads[x].mailbox == Some(v)) ||
     (k.current == x && k.threads[x].future.None? && k.threads[x].mailbox.None? && k.threads[x].result == Some(v)))
  }

  lemma GotActivates(k: Kernel, x: Id, f: KernelFuture, v: Reply)
    requires Base(k) && Ipc(k, None) && IsReady(k, x) && !f.ReceiveMessage?
    requires k.threads[x].future == Some(f) && k.threads[x].mailbox == Some(v)
    ensures Got(Activate(k).0, x, f, v)
  {
    hide Base, Ipc, Activate, FirstAble, OthersWait;
    ActivateThread(k, x);
    if !k.inIrq { ActivateRunsFirst(k); } else { ActivateInIrq(k); }
  }

  /** `x` waits for the end of the thread that is running. */
  predicate Joins(k: Kernel, x: Id) {
    x in k.threads && x.pid == k.current.pid && k.threads[x].future == Some(WaitJoin(k.current.tid))
  }

  lemma LeftThreads(k: Kernel, value: nat, x: Id)
    requires Sound(k) && k.current.tid != IRQ_TID && x in k.threads && x != k.current
    ensures var left := ThreadLeft(k, value);
      && x in left.threads && left.servers == k.servers && left.processes == k.processes
      && left.threads[x] ==
         if Joins(k, x) then k.threads[x].(mailbox := Some(Value([value])), state := Ready) else k.threads[x]
  {
    hide Base, Ipc, IdleOk, ConnsOk, CurrentOk, ClearThread, WakeJoiners, WakeAll, WaitersFor;
    Running(k);
    var k1 := ClearThread(k, k.current);
    var ids := WaitersFor(k1, k.current.pid, WaitJoin(k.current.tid), 0, k.limits.threads);
    ClearExact(k, k.current);
    JoinersAreTold(k1, k.current.pid, k.current.tid, value, 0, k.limits.threads);
    WaitersForExact(k1, k.current.pid, WaitJoin(k.current.tid), 0, k.limits.threads);
    JoinersSuspended(k, k1, ids);
    WakeAllDelivers(k1, ids, Value([value]));
    TidsBounded(k, x);
  }

  lemma TidsBounded(k: Kernel, x: Id)
    requires Base(k) && x in k.threads
    ensures x.tid < k.limits.threads
  {
  }

  lemma JoinersSuspended(k: Kernel, k1: Kernel, ids: seq<Id>)
    requires Ipc(k, None) && k.current in k.threads
    requires k1.threads == k.threads[k.current := k.threads[k.current].(state := Free, future := None, mailbox := None)]
    requires forall x | x in ids :: x in k1.threads && k1.threads[x].future == Some(WaitJoin(k.current.tid))
    ensures Suspended(k1, ids)
  {
    forall i | 0 <= i < |ids|
      ensures ids[i] in k1.threads && k1.threads[ids[i]].future.Some? && ids[i].tid != IRQ_TID
    {
      assert ids[i] in ids;
    }
  }

  /** A thread that returns leaves its value to all that join it and to nobody else, and nothing of itself. */
  lemma ReturnOutcome(k: Kernel, value: nat, x: Id)
    requires Sound(k) && Enabled(k, ThreadReturns(value)) && k.current.tid != IRQ_TID && x in k.threads
    ensures var (k', r) := Step(k, ThreadReturns(value));
      if x == k.current then
        && x in k'.threads && k'.threads[x] == k.threads[x].(state := Free, future := None, mailbox := None)
      else if Joins(k, x) then Got(k', x, WaitJoin(k.current.tid), Value([value]))
      else Left(k, k', r, x)
  {
    hide Base, Ipc, IdleOk, ConnsOk, CurrentOk, Activate, ThreadLeft, Left, Got, Enabled, Inv;
    var e := ThreadReturns(value);
    var left := ThreadLeft(k, value);
    Running(k);
    LeavingOk(k, e);
    ThreadLeftOk(k, value) by { assert k.current != IDLE by { NotIdle(k, value); } }
    if x == k.current {
      OwnRecord(k, value);
      ActivateThread(left, x);
      LeftSame(left, Activate(left).0, Activate(left).1, x);
    } else {
      LeftThreads(k, value, x);
      if Joins(k, x) {
        GotActivates(left, x, WaitJoin(k.current.tid), Value([value]));
      } else {
        ActivateThread(left, x);
        LeftFrom(k, left, Activate(left).0, Activate(left).1, x);
      }
    }
  }

  lemma NotIdle(k: Kernel, value: nat)
    requires Enabled(k, ThreadReturns(value))
    ensures k.current != IDLE
  {
  }

  lemma OwnRecord(k: Kernel, value: nat)
    requires Sound(k) && k.current.tid != IRQ_TID
    ensures var left := ThreadLeft(k, value);
      && k.current in left.threads
      && left.threads[k.current] == k.threads[k.current].(state := Free, future := None, mailbox := None)
  {
    hide Base, Ipc, IdleOk, ConnsOk, CurrentOk, ClearThread, WakeJoiners, WakeAll, WaitersFor;
    Running(k);
    var k1 := ClearThread(k, k.current);
    var ids := WaitersFor(k1, k.current.pid, WaitJoin(k.current.tid), 0, k.limits.threads);
    ClearExact(k, k.current);
    JoinersAreTold(k1, k.current.pid, k.current.tid, value, 0, k.limits.threads);
    WaitersForExact(k1, k.current.pid, WaitJoin(k.current.tid), 0, k.limits.threads);
    JoinersSuspended(k, k1, ids);
    WakeAllDelivers(k1, ids, Value([value]));
  }

  // ---- Futexes ----------------------------------------------------------------------------------

  /** The threads of the caller's process that wait on the word, in the order of their numbers, as many as asked for. */
  function FutexReached(k: Kernel, addr: nat, n: nat): seq<Id>
    requires k.limits.threads > 0
  {
    FirstOf(WaitersFor(k, k.current.pid, WaitFutex(addr), 1, k.limits.threads - 1), n)
  }

  /** A wake on a futex reaches those and nobody else. */
  lemma FutexWakeOutcome(k: Kernel, addr: nat, n: nat)
    requires Sound(k) && k.current.tid != IRQ_TID
    ensures var (k', r) := Step(k, SysCall(WakeOnFutex(addr, n)));
      && r == Returned(Done) && k.limits.threads > 0 && k'.current == k.current
      && k' == k.(threads := k'.threads, rings := k'.rings) && k'.threads.Keys == k.threads.Keys
      && forall x | x in k.threads ::
           k'.threads[x] == if x in FutexReached(k, addr, n) then k.threads[x].(mailbox := Some(Done), state := Ready)
                            else k.threads[x]
  {
    hide Ipc, IdleOk, ConnsOk, CurrentOk, WakeFutex, WakeAll, WaitersFor, Coupled, IrqCoupled;
    Running(k);
    var ids := FutexReached(k, addr, n);
    FutexWakesFirst(k, k.current.pid, addr, n, 1, k.limits.threads - 1);
    WaitersForExact(k, k.current.pid, WaitFutex(addr), 1, k.limits.threads - 1);
    FirstSuspended(k, WaitersFor(k, k.current.pid, WaitFutex(addr), 1, k.limits.threads - 1), WaitFutex(addr), n);
    WakeAllDelivers(k, ids, Done);
  }

  lemma FirstSuspended(k: Kernel, ids: seq<Id>, f: KernelFuture, n: nat)
    requires forall x | x in ids :: x in k.threads && k.threads[x].future == Some(f) && x.tid != IRQ_TID
    ensures Suspended(k, FirstOf(ids, n))
  {
    var first := FirstOf(ids, n);
    forall i | 0 <= i < |first|
      ensures first[i] in k.threads && k.threads[first[i]].future.Some? && first[i].tid != IRQ_TID
    {
      assert first[i] == ids[i] && ids[i] in ids;
    }
  }
}
