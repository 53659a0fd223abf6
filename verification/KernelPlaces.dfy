/** The place of a ready thread in its ring over runs of the kernel. */
module KernelPlaces {
  import opened Common
  import opened Rings
  import F = Fairness
  import opened ServerQueue
  import opened KernelState
  import opened KernelSteps
  import opened KernelInv
  import opened KernelFrames
  import opened KernelRuns
  import N = KernelNames

  /** `x` is ready and linked in ring `p`. */
  predicate At(k: Kernel, x: Id, p: nat) {
    IsReady(k, x) && p < |k.rings| && x in k.rings[p]
  }

  /** How many threads are ahead of `x` in ring `p`. */
  function Place(k: Kernel, x: Id, p: nat): nat {
    if p < |k.rings| then IndexOf(k.rings[p], x) else 0
  }

  /** `x` stays where it is, or moves up. */
  ghost predicate Stays(k: Kernel, k': Kernel, x: Id, p: nat) {
    At(k, x, p) ==> At(k', x, p) && Place(k', x, p) <= Place(k, x, p)
  }

  /** If `x` is ready afterwards, it is where it was, or further up by at least `n` places. */
  ghost predicate Onward(k: Kernel, k': Kernel, x: Id, p: nat, n: nat) {
    At(k, x, p) && IsReady(k', x) ==> At(k', x, p) && Place(k', x, p) + n <= Place(k, x, p)
  }

  // ---- Parts of a step --------------------------------------------------------------------------

  lemma StaysTrans(k: Kernel, k1: Kernel, k2: Kernel, x: Id, p: nat)
    requires Stays(k, k1, x, p) && Stays(k1, k2, x, p)
    ensures Stays(k, k2, x, p)
  {
  }

  lemma GrownStays(k: Kernel, k': Kernel, x: Id, p: nat)
    requires Grown(k.rings, k'.rings) && ReadyStay(k, k')
    ensures Stays(k, k', x, p)
  {
    hide IndexOf;
    if At(k, x, p) { F.PrefixPlace(k.rings[p], k'.rings[p], x); }
  }

  /** Another thread changes its state. */
  lemma StateStays(k: Kernel, y: Id, state: ThreadState, x: Id, p: nat)
    requires x != y
    ensures Stays(k, SetState(k, y, state), x, p)
  {
    hide IndexOf, Remove;
    if At(k, x, p) {
      F.RemovePlace(k.rings[p], x, y);
      F.PrefixPlace(k.rings[p], k.rings[p] + [y], x);
    }
  }

  lemma FieldsStay(k: Kernel, y: Id, r: Reply, f: Option<KernelFuture>, m: Option<Reply>, x: Id, p: nat)
    ensures Stays(k, SetResult(k, y, r), x, p) && Stays(k, SetFuture(k, y, f), x, p) &&
            Stays(k, SetMailbox(k, y, m), x, p)
  {
    hide IndexOf;
  }

  lemma SuspendStays(k: Kernel, y: Id, f: KernelFuture, x: Id, p: nat)
    requires x != y
    ensures Stays(k, Suspend(k, y, f), x, p)
  {
    hide SetState, SetFuture, Stays;
    var k1 := SetFuture(k, y, Some(f));
    FieldsStay(k, y, Done, Some(f), None, x, p);
    StateStays(k1, y, WaitEvent(SuspensionMask(f)), x, p);
    StaysTrans(k, k1, Suspend(k, y, f), x, p);
  }

  lemma PriorityStays(k: Kernel, y: Id, priority: nat, x: Id, p: nat)
    requires x != y
    ensures Stays(k, SetPriority(k, y, priority), x, p)
  {
    hide IndexOf, Remove;
    if At(k, x, p) {
      var r := k.rings[p];
      F.RemovePlace(r, x, y);
      F.PrefixPlace(r, r + [y], x);
      F.PrefixPlace(Remove(r, y), Remove(r, y) + [y], x);
    }
  }

  lemma ClearStays(k: Kernel, y: Id, x: Id, p: nat)
    requires x != y
    ensures Stays(k, ClearThread(k, y), x, p)
  {
    hide SetState, SetFuture, SetMailbox, Stays;
    var k1 := SetState(k, y, Free);
    var k2 := SetFuture(k1, y, None);
    StateStays(k, y, Free, x, p);
    FieldsStay(k1, y, Done, None, None, x, p);
    FieldsStay(k2, y, Done, None, None, x, p);
    StaysTrans(k, k1, k2, x, p);
    StaysTrans(k, k2, ClearThread(k, y), x, p);
  }

  lemma {:induction false} FreeThreadsStay(k: Kernel, pid: nat, tid: nat, n: nat, x: Id, p: nat)
    requires x.pid != pid
    ensures Stays(k, FreeThreads(k, pid, tid, n), x, p)
    decreases n
  {
    hide ClearThread, Place;
    if n == 0 {
    } else {
      var k1 := ClearThread(k, Id(pid, tid));
      ClearStays(k, Id(pid, tid), x, p);
      FreeThreadsStay(k1, pid, tid + 1, n - 1, x, p);
    }
  }

  // ---- Choosing the next thread -----------------------------------------------------------------

  /** `x` does not run and does not wait for room, so that choosing the next thread does not make it ready. */
  predicate Out(k: Kernel, x: Id) {
    x in k.threads ==> !k.threads[x].state.Ready? && !k.threads[x].state.RetryQueueFull?
  }

  lemma {:induction false} WakeRetryInOut(k: Kernel, sidx: nat, pid: nat, tid: nat, x: Id)
    requires Out(k, x)
    ensures Out(WakeRetryIn(k, sidx, pid, tid), x)
    decreases k.limits.threads - tid
  {
    if tid + 1 < k.limits.threads {
      var y := Id(pid, tid);
      WakeRetryInOut(if Retrying(k, y, sidx) then SetState(k, y, Ready) else k, sidx, pid, tid + 1, x);
    }
  }

  lemma {:induction false} WakeRetryOut(k: Kernel, sidx: nat, pid: nat, x: Id)
    requires Out(k, x)
    ensures Out(WakeRetry(k, sidx, pid), x)
    decreases k.limits.processes + 1 - pid
  {
    hide WakeRetryIn;
    if pid <= k.limits.processes {
      WakeRetryInOut(k, sidx, pid, 1, x);
      WakeRetryOut(if pid in k.processes then WakeRetryIn(k, sidx, pid, 1) else k, sidx, pid + 1, x);
    }
  }

  lemma PollOut(k: Kernel, y: Id, f: KernelFuture, x: Id)
    requires Out(k, x)
    ensures Out(Poll(k, y, f).0, x)
  {
    hide WakeRetry, TakeNext;
    if f.ReceiveMessage? && f.sidx in k.servers {
      WakeRetryOut(SetQueue(k, f.sidx, TakeNext(k.servers[f.sidx].q).1), f.sidx, 1, x);
    }
  }

  lemma SuspendOut(k: Kernel, y: Id, f: KernelFuture, x: Id)
    requires Out(k, x) || x == y
    ensures Out(Suspend(k, y, f), x)
  {
  }

  lemma {:induction false} ActivateOut(k: Kernel, x: Id)
    requires Out(k, x)
    ensures Out(Activate(k).0, x)
    decreases ReadyCount(k)
  {
    hide Poll, Suspend, ReadyCount;
    if !k.inIrq {
      var h := HighestBelow(k.rings, |k.rings|);
      if h < |k.rings| && k.rings[h] != [] && k.rings[h][0] in k.threads && k.threads[k.rings[h][0]].future.Some? {
        var y := k.rings[h][0];
        var f := k.threads[y].future.value;
        var k0 := SetFuture(k, y, None);
        var (k1, polled) := Poll(k0, y, f);
        PollOut(k0, y, f, x);
        if polled.PollPending? {
          var k2 := Suspend(k1, y, f);
          SuspendOut(k1, y, f, x);
          if ReadyCount(k2) < ReadyCount(k) { ActivateOut(k2, x); }
        }
      }
    }
  }

  lemma PollStays(k: Kernel, y: Id, f: KernelFuture, x: Id, p: nat)
    ensures Stays(k, Poll(k, y, f).0, x, p)
  {
    hide TakeMessage, SetMailbox, IndexOf;
    FieldsStay(k, y, Done, None, None, x, p);
    if f.ReceiveMessage? && f.sidx in k.servers {
      TakeMessageMild(k, f.sidx);
      GrownStays(k, TakeMessage(k, f.sidx).0, x, p);
    }
  }

  /** Choosing the next thread parks those at the head that have to wait; nobody else loses its place. */
  lemma {:induction false} ActivateOnward(k: Kernel, x: Id, p: nat)
    ensures Onward(k, Activate(k).0, x, p, 0)
    decreases ReadyCount(k)
  {
    hide Poll, Suspend, ReadyCount, Place;
    if !k.inIrq {
      var h := HighestBelow(k.rings, |k.rings|);
      if h < |k.rings| && k.rings[h] != [] && k.rings[h][0] in k.threads && k.threads[k.rings[h][0]].future.Some? {
        var y := k.rings[h][0];
        var f := k.threads[y].future.value;
        var k0 := SetFuture(k, y, None);
        var (k1, polled) := Poll(k0, y, f);
        FieldsStay(k, y, Done, None, None, x, p);
        PollStays(k0, y, f, x, p);
        StaysTrans(k, k0, k1, x, p);
        if polled.PollReady? { ChosenStays(k1, y, polled.reply, x, p); }
        if polled.PollPending? {
          var k2 := Suspend(k1, y, f);
          if x == y {
            SuspendOut(k1, y, f, x);
            if ReadyCount(k2) < ReadyCount(k) { ActivateOut(k2, x); }
          } else {
            SuspendStays(k1, y, f, x, p);
            if ReadyCount(k2) < ReadyCount(k) { ActivateOnward(k2, x, p); }
          }
        }
      } else {
        RunsStays(k, if h < |k.rings| && k.rings[h] != [] then k.rings[h][0] else k.current, x, p);
      }
    }
  }

  lemma RunsStays(k: Kernel, y: Id, x: Id, p: nat)
    ensures Stays(k, k.(current := y), x, p)
  {
  }

  lemma ChosenStays(k: Kernel, y: Id, r: Reply, x: Id, p: nat)
    ensures Stays(k, SetResult(k, y, r).(current := y), x, p)
  {
    hide SetResult, IndexOf;
    FieldsStay(k, y, r, None, None, x, p);
    RunsStays(SetResult(k, y, r), y, x, p);
  }

  lemma ThenActivate(k: Kernel, k1: Kernel, x: Id, p: nat)
    requires Stays(k, k1, x, p)
    ensures Onward(k, Activate(k1).0, x, p, 0)
  {
    hide Activate, Place;
    ActivateOnward(k1, x, p);
  }

  // ---- Sending and answering --------------------------------------------------------------------

  lemma MildStays(k: Kernel, k': Kernel, x: Id, p: nat)
    requires Mild(k, k')
    ensures Stays(k, k', x, p)
  {
    GrownStays(k, k', x, p);
  }

  lemma WokenStays(k: Kernel, k': Kernel, x: Id, p: nat)
    requires Woken(k, k')
    ensures Stays(k, k', x, p)
  {
    GrownStays(k, k', x, p);
  }

  /** A call that parks the running thread, or tells it `r`, once `k1` has been reached. */
  lemma ParkOnward(k: Kernel, k1: Kernel, f: KernelFuture, x: Id, p: nat)
    requires Stays(k, k1, x, p) && x != k.current
    ensures Onward(k, Activate(Suspend(k1, k.current, f)).0, x, p, 0)
  {
    hide Activate, Suspend, Stays, Onward;
    SuspendStays(k1, k.current, f, x, p);
    StaysTrans(k, k1, Suspend(k1, k.current, f), x, p);
    ThenActivate(k, Suspend(k1, k.current, f), x, p);
  }

  lemma TellOnward(k: Kernel, k1: Kernel, x: Id, p: nat)
    requires Stays(k, k1, x, p)
    ensures Onward(k, Activate(SetResult(k1, k.current, Done)).0, x, p, 0)
  {
    hide Activate, SetResult, Stays, Onward;
    FieldsStay(k1, k.current, Done, None, None, x, p);
    StaysTrans(k, k1, SetResult(k1, k.current, Done), x, p);
    ThenActivate(k, SetResult(k1, k.current, Done), x, p);
  }

  lemma StaysOnward(k: Kernel, k': Kernel, x: Id, p: nat)
    requires Stays(k, k', x, p)
    ensures Onward(k, k', x, p, 0)
  {
  }

  lemma SendOnward(k: Kernel, cid: nat, message: Message, mapped: Result<nat>, x: Id, p: nat)
    requires x != k.current
    ensures Onward(k, SendMessage(k, cid, message, mapped).0, x, p, 0)
    ensures SendMessage(k, cid, message, mapped).1 == Error(ServerQueueFull) ==>
              Stays(k, SendMessage(k, cid, message, mapped).0, x, p) &&
                  SendMessage(k, cid, message, mapped).0.current == k.current
  {
    hide SendInner, Activate, Suspend, SetResult, Lookup, Permitted, Stays, Onward;
    var found := Lookup(k, cid);
    SameStays(k, x, p);
    StaysOnward(k, k, x, p);
    if found.Ok? && Permitted(k, cid, found.value, message) {
      var (k1, r) := SendInner(k, k.current, found.value, message, mapped);
      SendInnerMild(k, k.current, found.value, message, mapped);
      MildStays(k, k1, x, p);
      StaysOnward(k, k1, x, p);
      ParkOnward(k, k1, WaitBlocking, x, p);
      TellOnward(k, k1, x, p);
      N.ActivateReports(if message.IsBlocking() then Suspend(k1, k.current, WaitBlocking)
            else SetResult(k1, k.current, Done));
    }
  }

  lemma SameStays(k: Kernel, x: Id, p: nat)
    ensures Stays(k, k, x, p)
  {
  }

  lemma RetryOnward(k: Kernel, cid: nat, message: Message, mapped: Result<nat>, x: Id, p: nat)
    requires x != k.current
    ensures Onward(k, SendMessageRetrying(k, cid, message, mapped).0, x, p, 0)
  {
    hide SendMessage, Activate, Lookup, SetState, Stays, Onward;
    var (k1, r) := SendMessage(k, cid, message, mapped);
    SendOnward(k, cid, message, mapped, x, p);
    var found := Lookup(k1, cid);
    if r == Error(ServerQueueFull) {
      StaysOnward(k, k1, x, p);
      if found.Ok? && found.value in k1.servers {
        var k2 := SetState(k1, k1.current, RetryQueueFull(found.value, k1.servers[found.value].born));
        StateStays(k1, k1.current, RetryQueueFull(found.value, k1.servers[found.value].born), x, p);
        StaysTrans(k, k1, k2, x, p);
        ThenActivate(k, k2, x, p);
      }
    }
  }

  lemma TakeReplyStays(k: Kernel, sidx: nat, idx: nat, buf: Option<(nat, nat)>, x: Id, p: nat)
    ensures Stays(k, TakeReply(k, sidx, idx, buf).0, x, p)
  {
    hide SetQueueWaking, Stays;
    SameStays(k, x, p);
    if sidx in k.servers {
      var q := TakeWaiting(k.servers[sidx].q, idx, buf).1;
      SetQueueWakingMild(k, sidx, q);
      MildStays(k, SetQueueWaking(k, sidx, q), x, p);
    }
  }

  lemma AnswerOnward(k: Kernel, k1: Kernel, y: Id, r: Reply, x: Id, p: nat)
    requires Stays(k, k1, x, p)
    ensures Onward(k, Activate(SetResult(WakeWithResult(k1, y, r), k.current, Done)).0, x, p, 0)
  {
    hide Activate, SetResult, WakeWithResult, Stays, Onward;
    ToldWoken(k1, y, r);
    WokenStays(k1, WakeWithResult(k1, y, r), x, p);
    StaysTrans(k, k1, WakeWithResult(k1, y, r), x, p);
    TellOnward(k, WakeWithResult(k1, y, r), x, p);
  }

  lemma ReplyOnward(k: Kernel, sidx: nat, idx: nat, value: Reply, x: Id, p: nat)
    ensures Onward(k, ReturnResult(k, sidx, idx, value).0, x, p, 0)
  {
    hide TakeReply, Activate, SetResult, WakeWithResult, Stays, Onward;
    var (k1, r) := TakeReply(k, sidx, idx, None);
    TakeReplyStays(k, sidx, idx, None, x, p);
    StaysOnward(k, k1, x, p);
    TellOnward(k, k1, x, p);
    if r.Ok? && r.value.ScalarReply? { AnswerOnward(k, k1, Id(r.value.pid, r.value.tid), value, x, p); }
  }

  lemma ReplyMemoryOnward(k: Kernel, sidx: nat, idx: nat, buf: (nat, nat), value: Reply, returned: Result<()>, x: Id,
          p: nat)
    ensures Onward(k, ReturnMemory(k, sidx, idx, buf, value, returned).0, x, p, 0)
  {
    hide TakeReply, Activate, SetResult, WakeWithResult, Stays, Onward;
    var (k1, r) := TakeReply(k, sidx, idx, Some(buf));
    TakeReplyStays(k, sidx, idx, Some(buf), x, p);
    StaysOnward(k, k1, x, p);
    TellOnward(k, k1, x, p);
    if r.Ok? && r.value.BorrowedMemory? { AnswerOnward(k, k1, Id(r.value.pid, r.value.tid), value, x, p); }
  }

  lemma ReceiveOnward(k: Kernel, sid: nat, blocking: bool, x: Id, p: nat)
    requires x != k.current
    ensures Onward(k, Receive(k, sid, blocking).0, x, p, 0)
  {
    hide TakeMessage, Activate, Suspend, ServerIndex, Stays, Onward;
    var s := ServerIndex(k, sid, Some(k.current.pid), 0);
    SameStays(k, x, p);
    StaysOnward(k, k, x, p);
    if s < k.limits.servers {
      TakeMessageMild(k, s);
      MildStays(k, TakeMessage(k, s).0, x, p);
      StaysOnward(k, TakeMessage(k, s).0, x, p);
      var e := k.servers[s];
      var q := e.q.(readyThreads := e.q.readyThreads + {k.current.tid});
      SetQueueMild(k, s, q);
      MildStays(k, SetQueue(k, s, q), x, p);
      ParkOnward(k, SetQueue(k, s, q), ReceiveMessage(s, e.born), x, p);
    }
  }

  // ---- Threads ----------------------------------------------------------------------------------

  /** The running thread is the head of ring `p` and gives up its turn. */
  predicate HeadYields(k: Kernel, e: Event, p: nat) {
    && e == SysCall(YieldSlice) && Legal(k, YieldSlice) && k.current in k.threads && k.threads[k.current].priority == p
    && p < |k.rings| && k.rings[p] != [] && k.rings[p][0] == k.current
  }

  lemma YieldOnward(k: Kernel, x: Id, p: nat)
    requires x != k.current && Legal(k, YieldSlice)
    ensures Onward(k, Yield(k).0, x, p, if HeadYields(k, SysCall(YieldSlice), p) then 1 else 0)
  {
    hide Activate, SetResult, IndexOf, Rotate;
    var k1 := SetResult(k, k.current, Done);
    FieldsStay(k, k.current, Done, None, None, x, p);
    FieldsRings(k, k.current, Done);
    var k2 := if k.current in k.threads
      then k1.(rings := RingYield(k.rings, k.threads[k.current].priority, k.current)) else k1;
    if At(k, x, p) && k.rings[p][0] != x { F.RotatePlace(k.rings[p], x); }
    ActivateOnward(k2, x, p);
  }

  lemma FieldsRings(k: Kernel, y: Id, r: Reply)
    ensures SetResult(k, y, r).rings == k.rings
  {
  }

  lemma PriorityOnward(k: Kernel, priority: nat, x: Id, p: nat)
    requires x != k.current
    ensures Onward(k, ChangePriority(k, priority).0, x, p, 0)
  {
    hide Activate, SetPriority, SetResult, Stays, Onward;
    SameStays(k, x, p);
    StaysOnward(k, k, x, p);
    PriorityStays(k, k.current, priority, x, p);
    TellOnward(k, SetPriority(k, k.current, priority), x, p);
  }

  /** A thread started now is not one that was ready. */
  lemma NewThreadOnward(k: Kernel, tid: nat, x: Id, p: nat)
    requires IsReady(k, Id(k.current.pid, tid)) ==> x != Id(k.current.pid, tid)
    ensures Onward(k, CreateThread(k, tid).0, x, p, 0)
  {
    hide SetState, SetPriority, Stays, Place;
    var y := Id(k.current.pid, tid);
    SameStays(k, x, p);
    if x != y && k.current in k.threads {
      StateStays(k, y, Ready, x, p);
      PriorityStays(SetState(k, y, Ready), y, k.threads[k.current].priority, x, p);
      StaysTrans(k, SetState(k, y, Ready), CreateThread(k, tid).0, x, p);
      StaysOnward(k, CreateThread(k, tid).0, x, p);
    }
  }

  lemma NewProcessOnward(k: Kernel, space: Result<()>, x: Id, p: nat)
    requires forall t: nat :: Id(FreePid(k, 1), t) !in k.threads
    ensures Onward(k, CreateProcess(k, space).0, x, p, 0)
  {
    hide FreePid, SetState, Place;
    var pid := FreePid(k, 1);
    var k1 := WithProcess(k, pid, NewProcess(k));
    assert Stays(k, k1, x, p) by { ReadyElsewhere(k, pid, x, p); }
    ReadyWoken(k1, Id(pid, INITIAL_TID));
    WokenStays(k1, SetState(k1, Id(pid, INITIAL_TID), Ready), x, p);
  }

  lemma ReadyElsewhere(k: Kernel, pid: nat, x: Id, p: nat)
    requires forall t: nat :: Id(pid, t) !in k.threads
    ensures Stays(k, WithProcess(k, pid, NewProcess(k)), x, p)
  {
    if At(k, x, p) { assert x == Id(x.pid, x.tid) && x.pid != pid; }
  }

  lemma WaitOnward(k: Kernel, tid: nat, pid: nat, addr: nat, same: bool, x: Id, p: nat)
    requires x != k.current
    ensures Onward(k, Join(k, tid).0, x, p, 0) && Onward(k, WaitFor(k, pid).0, x, p, 0) &&
            Onward(k, FutexWait(k, addr, same).0, x, p, 0)
  {
    hide Activate, Suspend, SetResult, Stays, Onward;
    SameStays(k, x, p);
    StaysOnward(k, k, x, p);
    FieldsStay(k, k.current, Done, None, None, x, p);
    ParkOnward(k, k, WaitJoin(tid), x, p);
    ParkOnward(k, k, WaitProcessExit(pid), x, p);
    ParkOnward(k, SetResult(k, k.current, Done), WaitFutex(addr), x, p);
  }

  lemma WakeOnward(k: Kernel, addr: nat, n: nat, x: Id, p: nat)
    ensures Onward(k, FutexWake(k, addr, n).0, x, p, 0)
  {
    hide WakeFutex, Stays, Onward;
    var threads := if k.limits.threads == 0 then 0 else k.limits.threads - 1;
    WakeFutexWoken(k, k.current.pid, addr, n, 1, threads);
    WokenStays(k, WakeFutex(k, k.current.pid, addr, n, 1, threads), x, p);
    StaysOnward(k, WakeFutex(k, k.current.pid, addr, n, 1, threads), x, p);
  }

  lemma AwaitOnward(k: Kernel, mask: set<nat>, x: Id, p: nat)
    requires x != k.current
    ensures Onward(k, AwaitEvent(k, mask).0, x, p, 0)
  {
    hide Activate, SetState, SetResult, Place;
    if mask != {} && k.current.pid in k.processes {
      var q := k.processes[k.current.pid];
      var k1 := k.(processes := k.processes[k.current.pid := q.(notificationBits := q.notificationBits - mask)]);
      assert Stays(k, k1, x, p) by { SameRings(k, k1, x, p); }
      var k2 := SetResult(k1, k.current, Done);
      FieldsStay(k1, k.current, Done, None, None, x, p);
      StateStays(k2, k.current, WaitEvent(mask), x, p);
      ThenActivate(k, SetState(k2, k.current, WaitEvent(mask)), x, p);
    }
  }

  lemma SameRings(k: Kernel, k': Kernel, x: Id, p: nat)
    requires k'.rings == k.rings && k'.threads == k.threads
    ensures Stays(k, k', x, p)
  {
  }

  lemma EventOnward(k: Kernel, target: nat, bits: set<nat>, pid: nat, x: Id, p: nat)
    ensures Onward(k, PostEvent(k, target, bits).0, x, p, 0) && Onward(k, EnterIrq(k, pid).0, x, p, 0)
  {
    hide PostBits, SetState, Place;
    PostBitsMild(k, target, bits);
    MildStays(k, PostBits(k, target, bits), x, p);
    ReadyWoken(k, Id(pid, IRQ_TID));
    WokenStays(k, SetState(k, Id(pid, IRQ_TID), Ready), x, p);
    RunsStays(SetState(k, Id(pid, IRQ_TID), Ready), Id(pid, IRQ_TID), x, p);
    SameStays(k, x, p);
  }

  lemma ReturnsOnward(k: Kernel, value: nat, x: Id, p: nat)
    requires x != k.current
    ensures Onward(k, ThreadExited(k, value).0, x, p, 0)
  {
    hide Activate, ClearThread, WakeJoiners, Stays, Onward;
    var k1 := ClearThread(k, k.current);
    var k2 := WakeJoiners(k1, k.current.pid, k.current.tid, value, 0, k.limits.threads);
    ClearStays(k, k.current, x, p);
    WakeJoinersWoken(k1, k.current.pid, k.current.tid, value, 0, k.limits.threads);
    WokenStays(k1, k2, x, p);
    StaysTrans(k, k1, k2, x, p);
    ThenActivate(k, ThreadLeft(k, value), x, p);
  }

  // ---- Servers and processes --------------------------------------------------------------------

  lemma DestroyOnward(k: Kernel, sid: nat, x: Id, p: nat)
    ensures Onward(k, DestroyServer(k, sid).0, x, p, 0)
  {
    hide DestroySidx, ServerIndex, Place, Connections.After;
    var s := ServerIndex(k, sid, Some(k.current.pid), 0);
    SameStays(k, x, p);
    if s < k.limits.servers {
      DestroyEnds(k, s);
      GrownStays(k, DestroySidx(k, s), x, p);
    }
  }

  /** After the end of its own process a thread is not there; any other keeps its place. */
  lemma RemoveOnward(k: Kernel, pid: nat, n: nat, x: Id, p: nat)
    ensures Onward(k, Activate(RemoveProcess(FreeThreads(k, pid, 1, n), pid)).0, x, p, 0)
  {
    hide FreeThreads, Activate, Place;
    var k1 := FreeThreads(k, pid, 1, n);
    var k2 := RemoveProcess(k1, pid);
    if x.pid == pid {
      assert x !in k2.threads;
      ActivateOut(k2, x);
    } else {
      FreeThreadsStay(k, pid, 1, n, x, p);
      assert Stays(k1, k2, x, p) by { OthersStay(k1, pid, x, p); }
      ThenActivate(k, k2, x, p);
    }
  }

  lemma OthersStay(k: Kernel, pid: nat, x: Id, p: nat)
    requires x.pid != pid
    ensures Stays(k, RemoveProcess(k, pid), x, p)
  {
  }

  lemma StaysThenOnward(k: Kernel, k1: Kernel, k2: Kernel, x: Id, p: nat)
    requires Stays(k, k1, x, p) && Onward(k1, k2, x, p, 0)
    ensures Onward(k, k2, x, p, 0)
  {
  }

  lemma ExitOnward(k: Kernel, code: nat, x: Id, p: nat)
    ensures Onward(k, TerminateCurrent(k, code).0, x, p, 0)
  {
    hide CloseServers, SendEvent, WakeAll, ExitWaiters, FreeThreads, Activate, RemoveProcess, Stays, Onward, Gone;
    var pid := k.current.pid;
    SameStays(k, x, p);
    StaysOnward(k, k, x, p);
    if pid in k.processes {
      var k1 := CloseServers(k, pid, 0, k.limits.servers);
      CloseServersCloses(k, pid, 0, k.limits.servers);
      GrownStays(k, k1, x, p);
      var k2 := match k.processes[pid].ppid
        case None => k1
        case Some(parent) => SendEvent(k1, parent, ChildTerminated, code);
      assert Stays(k, k2, x, p) by { ParentTold(k, k1, code, x, p); }
      var waiters := ExitWaiters(k2, pid, 1, k.limits.processes, []);
      var k3 := WakeAll(k2, waiters, Value([code]));
      WakeAllWoken(k2, waiters, Value([code]));
      WokenStays(k2, k3, x, p);
      StaysTrans(k, k2, k3, x, p);
      RemoveOnward(k3, pid, if k.limits.threads == 0 then 0 else k.limits.threads - 1, x, p);
      StaysThenOnward(k, k3, TerminateCurrent(k, code).0, x, p);
    }
  }

  lemma ParentTold(k: Kernel, k1: Kernel, code: nat, x: Id, p: nat)
    requires k.current.pid in k.processes && Stays(k, k1, x, p)
    ensures Stays(k, match k.processes[k.current.pid].ppid
        case None => k1
        case Some(parent) => SendEvent(k1, parent, ChildTerminated, code), x, p)
  {
    hide SendEvent, Stays;
    if k.processes[k.current.pid].ppid.Some? {
      var parent := k.processes[k.current.pid].ppid.value;
      SendEventMild(k1, parent, ChildTerminated, code);
      MildStays(k1, SendEvent(k1, parent, ChildTerminated, code), x, p);
      StaysTrans(k, k1, SendEvent(k1, parent, ChildTerminated, code), x, p);
    }
  }

  lemma KillOnward(k: Kernel, pid: nat, code: nat, x: Id, p: nat)
    ensures Onward(k, TerminateOther(k, pid, code).0, x, p, 0)
  {
    hide TerminateCurrent, SetResult, Stays, Onward;
    var k1 := SetResult(k, k.current, Done);
    var k2 := k1.(current := Id(pid, INITIAL_TID));
    SameStays(k, x, p);
    StaysOnward(k, k, x, p);
    FieldsStay(k, k.current, Done, None, None, x, p);
    RunsStays(k1, Id(pid, INITIAL_TID), x, p);
    StaysTrans(k, k1, k2, x, p);
    ExitOnward(k2, code, x, p);
    StaysThenOnward(k, k2, TerminateCurrent(k2, code).0, x, p);
  }

  // ---- A step -----------------------------------------------------------------------------------

  predicate SchedulerIdle(c: Call) {
    c.OpenServer? || c.TryConnect? || c.ConnectFor? || c.Close? || c.Register?
  }

  lemma IdleCallSame(k: Kernel, c: Call)
    requires SchedulerIdle(c)
    ensures Dispatch(k, c).0.rings == k.rings && Dispatch(k, c).0.threads == k.threads
  {
    hide ServerIndex, FreeServer, AddConnection, NewQueue;
  }

  lemma MessageCallOnward(k: Kernel, c: Call, x: Id, p: nat)
    requires x != k.current
    requires c.TrySend? || c.Send? || c.ReplyScalar? || c.ReplyMemory? || c.TryReceive? || c.ReceiveBlocking? ||
             c.Notify? || c.WaitForEvent?
    ensures Onward(k, Dispatch(k, c).0, x, p, 0)
  {
    hide Onward, SendMessage, SendMessageRetrying, ReturnResult, ReturnMemory, Receive, PostEvent, AwaitEvent;
    match c
    case TrySend(cid, message, mapped) => SendOnward(k, cid, message, mapped, x, p);
    case Send(cid, message, mapped) => RetryOnward(k, cid, message, mapped, x, p);
    case ReplyScalar(sidx, idx, value) => ReplyOnward(k, sidx, idx, value, x, p);
    case ReplyMemory(sidx, idx, buf, value, returned) => ReplyMemoryOnward(k, sidx, idx, buf, value, returned, x, p);
    case TryReceive(sid) => ReceiveOnward(k, sid, false, x, p);
    case ReceiveBlocking(sid) => ReceiveOnward(k, sid, true, x, p);
    case Notify(pid, bits) => EventOnward(k, pid, bits, 0, x, p);
    case WaitForEvent(mask) => AwaitOnward(k, mask, x, p);
  }

  lemma ThreadCallOnward(k: Kernel, c: Call, x: Id, p: nat)
    requires Base(k) && x != k.current && Enabled(k, SysCall(c))
    requires c.Prioritise? || c.StartThread? || c.StartProcess? || c.JoinThread? || c.WaitProcess? || c.WaitOnFutex? ||
             c.WakeOnFutex?
      || c.CloseServer? || c.ExitProcess? || c.KillProcess?
    ensures Onward(k, Dispatch(k, c).0, x, p, 0)
  {
    hide Onward, ChangePriority, CreateThread, CreateProcess, Join, WaitFor, FutexWait, FutexWake, DestroyServer,
         TerminateCurrent, TerminateOther;
    match c
    case Prioritise(priority) => PriorityOnward(k, priority, x, p);
    case StartThread(tid) => NewThreadOnward(k, tid, x, p);
    case StartProcess(space) =>
      FreshPid(k);
      NewProcessOnward(k, space, x, p);
    case JoinThread(tid) => WaitOnward(k, tid, 0, 0, false, x, p);
    case WaitProcess(pid) => WaitOnward(k, 0, pid, 0, false, x, p);
    case WaitOnFutex(addr, same) => WaitOnward(k, 0, 0, addr, same, x, p);
    case WakeOnFutex(addr, n) => WakeOnward(k, addr, n, x, p);
    case CloseServer(sid) => DestroyOnward(k, sid, x, p);
    case ExitProcess(code) => ExitOnward(k, code, x, p);
    case KillProcess(pid, code) => KillOnward(k, pid, code, x, p);
  }

  lemma FreshPid(k: Kernel)
    requires Base(k)
    ensures forall t: nat :: Id(FreePid(k, 1), t) !in k.threads
  {
  }

  /** No step moves another ready thread back, and a yield of the head of its ring moves it up one place. */
  lemma PlaceStep(k: Kernel, e: Event, x: Id, p: nat)
    requires Base(k) && Enabled(k, e) && x != k.current
    ensures Onward(k, Step(k, e).0, x, p, if HeadYields(k, e, p) then 1 else 0)
  {
    hide Dispatch, EnterIrq, ThreadExited, Enabled, Onward, Base, Stays;
    SameStays(k, x, p);
    StaysOnward(k, k, x, p);
    match e
    case Interrupt(pid) => EventOnward(k, 0, {}, pid, x, p);
    case ThreadReturns(value) => ReturnsOnward(k, value, x, p);
    case SysCall(c) =>
      if Legal(k, c) {
        if c.YieldSlice? { YieldOnward(k, x, p); YieldIs(k); }
        else if SchedulerIdle(c) {
          IdleCallSame(k, c);
          SameRings(k, Dispatch(k, c).0, x, p);
          StaysOnward(k, Dispatch(k, c).0, x, p);
        }
        else if c.TrySend? || c.Send? || c.ReplyScalar? || c.ReplyMemory? || c.TryReceive? || c.ReceiveBlocking? ||
                c.Notify? || c.WaitForEvent? {
          MessageCallOnward(k, c, x, p);
        }
        else { ThreadCallOnward(k, c, x, p); }
      }
  }

  lemma YieldIs(k: Kernel)
    ensures Dispatch(k, YieldSlice) == Yield(k)
  {
  }

  // ---- Runs -------------------------------------------------------------------------------------

  /** `x` is ready at every moment of the run and runs at none of them, except perhaps the last. */
  ghost predicate WaitsReady(k: Kernel, es: seq<Event>, x: Id)
    decreases |es|
  {
    IsReady(k, x) && (es != [] ==> x != k.current && WaitsReady(Step(k, es[0]).0, es[1..], x))
  }

  /** How often during the run the thread at the head of ring `p` gave up its turn. */
  function Turns(k: Kernel, es: seq<Event>, p: nat): nat
    decreases |es|
  {
    if es == [] then 0 else (if HeadYields(k, es[0], p) then 1 else 0) + Turns(Step(k, es[0]).0, es[1..], p)
  }

  lemma {:induction false} PlaceOverRun(k: Kernel, es: seq<Event>, x: Id, p: nat)
    requires Sound(k) && SoundRun(k, es) && WaitsReady(k, es, x) && At(k, x, p)
    ensures At(Run(k, es), x, p) && Turns(k, es, p) + Place(Run(k, es), x, p) <= Place(k, x, p)
    decreases |es|
  {
    hide Step, Inv, CurrentOk, Derails, Enabled, HeadYields, Place;
    if es == [] {
    } else {
      var k1 := Step(k, es[0]).0;
      SoundBase(k);
      PlaceStep(k, es[0], x, p);
      StepKeeps(k, es[0]);
      assert IsReady(k1, x) by { assert WaitsReady(k1, es[1..], x); }
      PlaceOverRun(k1, es[1..], x, p);
    }
  }

  lemma SoundBase(k: Kernel)
    requires Sound(k)
    ensures Base(k)
  {
  }

  /** A ready thread other than an interrupt handler is in the ring of its priority. */
  lemma ReadyIsLinked(k: Kernel, x: Id)
    requires Sound(k) && IsReady(k, x) && x.tid != IRQ_TID
    ensures At(k, x, k.threads[x].priority)
  {
    SoundBase(k);
    assert BelongsIn(k, k.threads[x].priority, x);
    assert InRing(k, k.threads[x].priority, x);
  }

  /**
   Bounded bypass over runs of the kernel: while a thread is ready and waits for its turn, the heads of
   its ring can give up theirs at most as often as there were threads ahead of it; once they have done
   so that often, it is the head.
   */
  lemma BypassOverRun(k: Kernel, es: seq<Event>, x: Id)
    requires Sound(k) && SoundRun(k, es) && WaitsReady(k, es, x) && x.tid != IRQ_TID
    ensures var p := k.threads[x].priority;
      && At(k, x, p) && At(Run(k, es), x, p)
      && Turns(k, es, p) + Place(Run(k, es), x, p) <= Place(k, x, p) <= |k.rings[p]| - 1
      && (Turns(k, es, p) == Place(k, x, p) ==> Run(k, es).rings[p][0] == x)
  {
    hide Sound, SoundRun, Run, Turns, IndexOf;
    ReadyIsLinked(k, x);
    PlaceOverRun(k, es, x, k.threads[x].priority);
  }
}
