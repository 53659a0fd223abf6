/** What the calls do for the threads and servers concerned. */
module KernelEffects {
  import opened Common
  import opened Rings
  import opened ServerQueue
  import opened Fifo
  import opened KernelState
  import opened KernelSteps
  import opened KernelInv
  import opened KernelWakes
  import opened KernelMessages
  import opened KernelCalls

  // ---- Delivering results -----------------------------------------------------------------------

  /** Every listed thread is suspended in a call. */
  ghost predicate Suspended(k: Kernel, ids: seq<Id>) {
    forall i | 0 <= i < |ids| :: ids[i] in k.threads && k.threads[ids[i]].future.Some? && ids[i].tid != IRQ_TID
  }

  /** Thread `t` with mail for the call it is suspended in. */
  function Answered(t: Thread, r: Reply): Thread {
    t.(mailbox := Some(r), state := Ready)
  }

  lemma WakeOne(k: Kernel, x: Id, r: Reply)
    requires x in k.threads && k.threads[x].future.Some? && x.tid != IRQ_TID
    ensures var k' := WakeWithResult(k, x, r);
      k' == k.(threads := k.threads[x := Answered(k.threads[x], r)], rings := k'.rings)
  {
  }

  /** Exactly the listed threads get the result, and become ready. */
  lemma {:induction false} WakeAllDelivers(k: Kernel, ids: seq<Id>, r: Reply)
    requires Suspended(k, ids)
    ensures var k' := WakeAll(k, ids, r);
      && k' == k.(threads := k'.threads, rings := k'.rings) && k'.threads.Keys == k.threads.Keys
      && (forall x | x in k.threads :: k'.threads[x] == if x in ids then Answered(k.threads[x], r) else k.threads[x])
    decreases |ids|
  {
    if ids == [] {
    } else {
      WakeOne(k, ids[0], r);
      var k1 := WakeWithResult(k, ids[0], r);
      forall i | 0 <= i < |ids[1..]|
        ensures ids[1..][i] in k1.threads && k1.threads[ids[1..][i]].future.Some? && ids[1..][i].tid != IRQ_TID
      {
        assert ids[1..][i] == ids[i + 1];
      }
      WakeAllDelivers(k1, ids[1..], r);
      assert forall x :: x in ids <==> x == ids[0] || x in ids[1..];
    }
  }

  /** The threads of a process whose call is `f`, in order, from `tid` on. */
  function WaitersFor(k: Kernel, pid: nat, f: KernelFuture, tid: nat, n: nat): seq<Id>
    decreases n
  {
    if n == 0 then []
    else
      var x := Id(pid, tid);
      (if x in k.threads && k.threads[x].future == Some(f) then [x] else []) + WaitersFor(k, pid, f, tid + 1, n - 1)
  }

  /** The list is complete, and each thread is in it once. */
  lemma {:induction false} WaitersForExact(k: Kernel, pid: nat, f: KernelFuture, tid: nat, n: nat)
    ensures forall x: Id :: x in WaitersFor(k, pid, f, tid, n) <==>
              x.pid == pid && tid <= x.tid < tid + n && x in k.threads && k.threads[x].future == Some(f)
    ensures NoDup(WaitersFor(k, pid, f, tid, n))
    decreases n
  {
    if n == 0 {
    } else {
      WaitersForExact(k, pid, f, tid + 1, n - 1);
      var rest := WaitersFor(k, pid, f, tid + 1, n - 1);
      forall x: Id | x in k.threads && x.pid == pid && x.tid == tid
        ensures x == Id(pid, tid)
      {
      }
    }
  }

  lemma {:induction false} WaitersUnchanged(k: Kernel, k': Kernel, pid: nat, f: KernelFuture, tid: nat, n: nat)
    requires SameFutures(k, k')
    ensures WaitersFor(k', pid, f, tid, n) == WaitersFor(k, pid, f, tid, n)
    decreases n
  {
    if n == 0 {
    } else {
      WaitersUnchanged(k, k', pid, f, tid + 1, n - 1);
    }
  }

  function FirstOf(ids: seq<Id>, n: nat): seq<Id> {
    if n <= |ids| then ids[..n] else ids
  }

  ghost predicate SameFutures(k: Kernel, k': Kernel) {
    k'.threads.Keys == k.threads.Keys && forall x | x in k.threads :: k'.threads[x].future == k.threads[x].future
  }

  lemma StateFutures(k: Kernel, x: Id, state: ThreadState)
    ensures SameFutures(k, SetState(k, x, state))
  {
  }

  lemma MailFutures(k: Kernel, x: Id, r: Reply)
    ensures SameFutures(k, SetMailbox(k, x, Some(r))) && SameFutures(k, SetResult(k, x, r))
  {
  }

  lemma WakeFutures(k: Kernel, x: Id, r: Reply)
    ensures SameFutures(k, WakeWithResult(k, x, r))
  {
    hide SetState, SetMailbox, SetResult;
    MailFutures(k, x, r);
    StateFutures(SetMailbox(k, x, Some(r)), x, Ready);
    StateFutures(k, x, Ready);
    MailFutures(SetState(k, x, Ready), x, r);
  }

  /** A futex wake reaches the first waiters on that address, as many as asked for. */
  lemma {:induction false} FutexWakesFirst(k: Kernel, pid: nat, addr: nat, remaining: nat, tid: nat, n: nat)
    ensures WakeFutex(k, pid, addr, remaining, tid, n) ==
            WakeAll(k, FirstOf(WaitersFor(k, pid, WaitFutex(addr), tid, n), remaining), Done)
    decreases n
  {
    hide WakeWithResult, SameFutures;
    if n > 0 && remaining > 0 {
      var x := Id(pid, tid);
      var rest := WaitersFor(k, pid, WaitFutex(addr), tid + 1, n - 1);
      if x in k.threads && k.threads[x].future == Some(WaitFutex(addr)) {
        var k1 := WakeWithResult(k, x, Done);
        WakeFutures(k, x, Done);
        WaitersUnchanged(k, k1, pid, WaitFutex(addr), tid + 1, n - 1);
        FutexWakesFirst(k1, pid, addr, remaining - 1, tid + 1, n - 1);
        assert FirstOf([x] + rest, remaining) == [x] + FirstOf(rest, remaining - 1);
        assert ([x] + FirstOf(rest, remaining - 1))[1..] == FirstOf(rest, remaining - 1);
      } else {
        FutexWakesFirst(k, pid, addr, remaining, tid + 1, n - 1);
        assert [] + rest == rest;
      }
    }
  }

  /** The end of a thread is told to all threads that wait for it. */
  lemma {:induction false} JoinersAreTold(k: Kernel, pid: nat, target: nat, value: nat, tid: nat, n: nat)
    ensures WakeJoiners(k, pid, target, value, tid, n) ==
            WakeAll(k, WaitersFor(k, pid, WaitJoin(target), tid, n), Value([value]))
    decreases n
  {
    hide WakeWithResult, SameFutures;
    if n == 0 {
    } else {
      var x := Id(pid, tid);
      var rest := WaitersFor(k, pid, WaitJoin(target), tid + 1, n - 1);
      if x in k.threads && k.threads[x].future == Some(WaitJoin(target)) {
        var k1 := WakeWithResult(k, x, Value([value]));
        WakeFutures(k, x, Value([value]));
        WaitersUnchanged(k, k1, pid, WaitJoin(target), tid + 1, n - 1);
        JoinersAreTold(k1, pid, target, value, tid + 1, n - 1);
        assert ([x] + rest)[1..] == rest;
      } else {
        JoinersAreTold(k, pid, target, value, tid + 1, n - 1);
        assert [] + rest == rest;
      }
    }
  }

  // ---- Answering --------------------------------------------------------------------------------

  /** An answer of the right kind reaches the thread that the slot names, and empties the slot. */
  lemma AnswerReaches(k: Kernel, s: nat, i: nat, buf: Option<(nat, nat)>, value: Reply)
    requires Base(k) && Ipc(k, None) && KernelMessages.Answered(TakeReply(k, s, i, buf).1).Some?
    ensures var (k1, r) := TakeReply(k, s, i, buf);
      var x := KernelMessages.Answered(r).value;
      var k' := WakeWithResult(k1, x, value);
      && NameAt(k, s, i) == Some(x) && x in k'.threads && IsReady(k', x)
      && k'.threads[x].mailbox == Some(value) && k'.threads[x].future == Some(WaitBlocking)
      && s in k'.servers && i < |k'.servers[s].q.queue| && k'.servers[s].q.queue[i].Empty?
  {
    hide Base, Ipc, Tame, TakeReply, Unnamed, NameAt;
    TakeReplyOk(k, s, i, buf);
    var (k1, r) := TakeReply(k, s, i, buf);
    var x := KernelMessages.Answered(r).value;
    WakeOne(k1, x, value);
    EmptiedSlot(k, s, i, buf);
  }

  lemma EmptiedSlot(k: Kernel, s: nat, i: nat, buf: Option<(nat, nat)>)
    requires Base(k) && Ipc(k, None) && KernelMessages.Answered(TakeReply(k, s, i, buf).1).Some?
    ensures var k1 := TakeReply(k, s, i, buf).0;
      s in k1.servers && i < |k1.servers[s].q.queue| && k1.servers[s].q.queue[i].Empty?
  {
    hide Base, NamesOk, CleanOk, MailOk, RetryOk, StampsOk, SetQueueWaking, Tame;
    var q := k.servers[s].q;
    TakeWaitingFifo(q, i, buf);
    SetQueueWakingOk(k, s, TakeWaiting(q, i, buf).1, None);
  }

  // ---- Receiving --------------------------------------------------------------------------------

  /** The first message in line, and the line without it; the server's record says that it was handed out. */
  ghost predicate TookOldest(q: ServerState, q': ServerState, body: Message) {
    && Pending(q) != [] && Pending(q)[0].IsPending() && body == Pending(q)[0].Body()
    && Pending(q) == [Pending(q)[0]] + Pending(q') && q'.received == q.received + [body] && q'.sent == q.sent
  }

  /** `x` is parked on server `s`, in `left` but not before. */
  ghost predicate ParksOn(k: Kernel, left: Kernel, x: Id, s: nat)
    requires s in k.servers
  {
    && s in left.servers && left.servers[s].q == k.servers[s].q.(readyThreads := k.servers[s].q.readyThreads + {x.tid})
    && (x in k.threads ==> ReceivesFrom(left, x, s) && left.threads[x].state == WaitEvent({EVENT_SERVER_MSG}))
  }

  /**
   A receive takes the oldest message of the caller's own server; without one it says so or parks
   the caller on it.
   */
  lemma ReceiveTakesOldest(k: Kernel, sid: nat, blocking: bool)
    requires Base(k) && Ipc(k, None)
    ensures var s := ServerIndex(k, sid, Some(k.current.pid), 0);
      var (k', r) := Receive(k, sid, blocking);
      if s >= k.limits.servers then k' == k && r == Error(ServerNotFound)
      else if Pending(k.servers[s].q) != [] then
        && s in k'.servers && r.Returned? && r.reply.Delivered? && r.reply.sidx == s
        && TookOldest(k.servers[s].q, k'.servers[s].q, r.reply.envelope.body)
      else if !blocking then k' == k && r == Returned(Nothing)
      else
        var left := ReceiveParks(k, sid);
        left.Some? && (k', r) == Activate(left.value) && ParksOn(k, left.value, k.current, s)
  {
    hide Activate, TakeNext, QueueOk, Pending, Base, Ipc, TookOldest;
    var s := ServerIndex(k, sid, Some(k.current.pid), 0);
    if s < k.limits.servers {
      var q := k.servers[s].q;
      QueueFacts(k, s, None);
      TakeNextFifo(q);
      if Pending(q) != [] {
        TakenServers(k, s);
        TakenOldest(q);
      }
    }
  }

  lemma TakenOldest(q: ServerState)
    requires QueueOk(q) && Pending(q) != []
    ensures var (r, q') := TakeNext(q);
      r.Some? && TookOldest(q, q', r.value.body)
  {
    TakeNextFifo(q);
  }

  lemma TakenServers(k: Kernel, s: nat)
    requires Base(k) && Ipc(k, None) && s in k.servers && TakeNext(k.servers[s].q).0.Some?
    ensures s in TakeMessage(k, s).0.servers && TakeMessage(k, s).0.servers[s].q == TakeNext(k.servers[s].q).1
  {
    hide Base, NamesOk, CleanOk, MailOk, RetryOk, StampsOk, SetQueueWaking, Tame;
    var q := k.servers[s].q;
    TakeNextFifo(q);
    TakeNextNames(q);
    SetQueueWakingOk(k, s, TakeNext(q).1, None);
  }

  /** So does the poll of a thread that was parked on the server. */
  lemma PollTakesOldest(k: Kernel, x: Id, s: nat, born: nat)
    requires Base(k) && Ipc(k, None)
    ensures var (k', polled) := Poll(k, x, ReceiveMessage(s, born));
      if s !in k.servers || k.servers[s].q.pid != x.pid then k' == k && polled == PollError(ServerNotFound)
      else if Pending(k.servers[s].q) == [] then k' == k && polled == PollPending
      else
        && s in k'.servers && polled.PollReady? && polled.reply.Delivered? && polled.reply.sidx == s
        && TookOldest(k.servers[s].q, k'.servers[s].q, polled.reply.envelope.body)
  {
    if s in k.servers && k.servers[s].q.pid == x.pid {
      var q := k.servers[s].q;
      assert QueueOk(q);
      TakeNextFifo(q);
      hide TakeNext, QueueOk, Pending, TookOldest, Base, Ipc;
      if Pending(q) != [] {
        TakenServers(k, s);
        TakenOldest(q);
      }
    }
  }

  // ---- Sending ----------------------------------------------------------------------------------

  /** The connection leads to a server of another process and does not allow the message's id. */
  predicate Forbidden(k: Kernel, cid: nat, message: Message) {
    var found := Lookup(k, cid);
    found.Ok? && found.value in k.servers && k.servers[found.value].q.pid != k.current.pid &&
    !Connection(k, k.current.pid, cid).value.permissions.IsPermitted(message.MessageId())
  }

  /** The message's pages were asked for and could not be mapped for lack of permission. */
  predicate MappingDenied(k: Kernel, cid: nat, message: Message, mapped: Result<nat>) {
    var found := Lookup(k, cid);
    found.Ok? && found.value in k.servers && k.servers[found.value].q.emptyCount > 0 &&
        Translate(message, mapped) == Err(AccessDenied)
  }

  lemma LookupServer(k: Kernel, cid: nat)
    requires ConnsOk(k) && Lookup(k, cid).Ok?
    ensures Lookup(k, cid).value in k.servers
  {
    assert ConnAt(k, k.current.pid, cid - 2) == Connection(k, k.current.pid, cid).value;
  }

  lemma ForbiddenExactly(k: Kernel, cid: nat, message: Message)
    requires Lookup(k, cid).Ok? && Lookup(k, cid).value in k.servers
    ensures Forbidden(k, cid, message) <==> !Permitted(k, cid, Lookup(k, cid).value, message)
  {
  }

  /**
   Access is denied exactly if the connection leads to another process' server and does not allow the
   message's id, in which case nothing happens, or if mapping the message's pages was denied.
   */
  lemma DeniedExactly(k: Kernel, cid: nat, message: Message, mapped: Result<nat>)
    requires Inv(k)
    ensures SendMessage(k, cid, message, mapped).1 == Error(AccessDenied) <==>
            Forbidden(k, cid, message) || MappingDenied(k, cid, message, mapped)
    ensures Forbidden(k, cid, message) ==> SendMessage(k, cid, message, mapped).0 == k
  {
    assert ServersOk(k);
    hide Base, Ipc, IdleOk, ConnsOk, SendInner, Activate, Suspend, SetResult, Permitted, Forbidden, Connection,
         ServersOk;
    var found := Lookup(k, cid);
    if found.Ok? {
      var s := found.value;
      LookupServer(k, cid);
      ForbiddenExactly(k, cid, message);
      SendInnerErrors(k, k.current, s, message, mapped);
      SendInnerRefuses(k, k.current, s, message, mapped);
      var (k1, r) := SendInner(k, k.current, s, message, mapped);
      ActivateErrors(if message.IsBlocking() then Suspend(k1, k.current, WaitBlocking)
            else SetResult(k1, k.current, Done));
    } else {
      assert !Forbidden(k, cid, message) by { NotFoundNotForbidden(k, cid, message); }
    }
  }

  lemma NotFoundNotForbidden(k: Kernel, cid: nat, message: Message)
    requires Lookup(k, cid).Err?
    ensures !Forbidden(k, cid, message) && Lookup(k, cid).error == ServerNotFound
  {
  }

  lemma SendInnerRefuses(k: Kernel, sender: Id, s: nat, message: Message, mapped: Result<nat>)
    requires ServersOk(k) && s in k.servers
    ensures k.servers[s].q.emptyCount >= 0
    ensures k.servers[s].q.emptyCount > 0 && Translate(message, mapped).Err? ==>
            SendInner(k, sender, s, message, mapped).1 == Err(Translate(message, mapped).error)
  {
    assert QueueOk(k.servers[s].q);
  }

  // ---- Notification bits ------------------------------------------------------------------------

  /** `x` waits for one of the bits `b`. */
  predicate WaitsForBits(k: Kernel, x: Id, b: set<nat>) {
    x in k.threads && k.threads[x].state.WaitEvent? && b * k.threads[x].state.mask != {}
  }

  lemma {:induction false} FirstWaiter(k: Kernel, pid: nat, tid: nat)
    requires pid in k.processes
    ensures var t := WaiterFrom(k, pid, tid);
      && (t < k.limits.threads ==> WaitsForBits(k, Id(pid, t), k.processes[pid].notificationBits))
      && (forall u | tid <= u < t && u < k.limits.threads ::
          !WaitsForBits(k, Id(pid, u), k.processes[pid].notificationBits))
    decreases k.limits.threads - tid
  {
    if tid < k.limits.threads { FirstWaiter(k, pid, tid + 1); }
  }

  /**
   The bits are pending for process `pid`, or the first thread that waits for one of them has been woken
   and it alone has consumed what it waited for.  Nothing else has happened.
   */
  ghost predicate Posted(k: Kernel, k': Kernel, pid: nat, bits: set<nat>)
    requires pid in k.processes
  {
    var all := k.processes[pid].notificationBits + bits;
    && k' == k.(threads := k'.threads, rings := k'.rings, processes := k'.processes) && pid in k'.processes
    && k'.processes == k.processes[pid := k.processes[pid].(notificationBits := k'.processes[pid].notificationBits)]
    && ((k'.threads == k.threads && k'.processes[pid].notificationBits == all &&
         forall t: nat | 1 <= t < k.limits.threads :: !WaitsForBits(k, Id(pid, t), all))
        || exists t: nat | 1 <= t < k.limits.threads && WaitsForBits(k, Id(pid, t), all) ::
             && (forall u: nat | 1 <= u < t :: !WaitsForBits(k, Id(pid, u), all))
             && k'.threads == k.threads[Id(pid, t) :=
                  k.threads[Id(pid, t)].(state := Ready, result := Some(Fired(all * k.threads[Id(pid, t)].state.mask)))]
             && k'.processes[pid].notificationBits == all - k.threads[Id(pid, t)].state.mask)
  }

  /** Posting bits wakes the first thread that waits for one of them, and it alone consumes what it waited for. */
  lemma PostWakesFirst(k: Kernel, pid: nat, bits: set<nat>)
    requires pid in k.processes
    ensures Posted(k, PostBits(k, pid, bits), pid, bits)
  {
    var all := k.processes[pid].notificationBits + bits;
    var k1 := WithBits(k, pid, all);
    FirstWaiter(k1, pid, 1);
    WaiterIsWaiting(k1, pid, 1);
    var t := WaiterFrom(k1, pid, 1);
    assert forall u: nat :: WaitsForBits(k1, Id(pid, u), all) <==> WaitsForBits(k, Id(pid, u), all);
    if t < k.limits.threads {
      assert WaitsForBits(k, Id(pid, t), all);
    }
  }
}
