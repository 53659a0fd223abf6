/** Choosing the next thread to run (xous/kernel/src/scheduler.rs, kfuture.rs). */
module KernelActivate {
  import opened Common
  import opened Rings
  import opened ServerQueue
  import opened Fifo
  import opened KernelState
  import opened KernelInv
  import opened KernelSched
  import opened KernelWakes
  import opened KernelIpc
  import opened KernelMessages

  /** The head of the highest non-empty ring. */
  function Head(k: Kernel): Option<Id> {
    var h := HighestBelow(k.rings, |k.rings|);
    if h >= |k.rings| || k.rings[h] == [] then None else Some(k.rings[h][0])
  }

  /** The thread at the head waits for something that has not happened yet. */
  predicate HeadPending(k: Kernel) {
    !k.inIrq && Head(k).Some? && Head(k).value in k.threads &&
    k.threads[Head(k).value].future.Some? &&
    FuturePending(k, Head(k).value, k.threads[Head(k).value].future.value)
  }

  predicate FuturePending(k: Kernel, x: Id, f: KernelFuture) {
    if f.ReceiveMessage? then
      f.sidx in k.servers && k.servers[f.sidx].q.pid == x.pid && TakeNext(k.servers[f.sidx].q).0.None?
    else x in k.threads && k.threads[x].mailbox.None?
  }

  /** Park the head again, with the mask of its own future. */
  function SkipHead(k: Kernel): Kernel
    requires HeadPending(k)
  {
    Suspend(k, Head(k).value, k.threads[Head(k).value].future.value)
  }

  /** Skip heads that have to go on waiting. */
  function Settle(k: Kernel): Kernel
    decreases ReadyCount(k)
  {
    if HeadPending(k) && ReadyCount(SkipHead(k)) < ReadyCount(k) then Settle(SkipHead(k)) else k
  }

  lemma HeadInRing(k: Kernel)
    requires Shape(k) && Coupled(k) && Head(k).Some?
    ensures var x := Head(k).value;
      && IsReady(k, x) && x.tid != IRQ_TID && InRing(k, k.threads[x].priority, x)
      && (forall p | k.threads[x].priority < p < |k.rings| :: k.rings[p] == [])
      && k.rings[k.threads[x].priority][0] == x
  {
    var h := HighestBelow(k.rings, |k.rings|);
    assert InRing(k, h, Head(k).value);
  }

  lemma {:induction false} CountDrop(rings: seq<seq<Id>>, p: nat, r: seq<Id>, n: nat)
    requires p < n <= |rings| && |r| < |rings[p]|
    ensures Count(rings[p := r], n) < Count(rings, n)
    decreases n
  {
    if p < n - 1 { CountDrop(rings, p, r, n - 1); } else { CountSame(rings, p, r, n - 1); }
  }

  lemma {:induction false} CountSame(rings: seq<seq<Id>>, p: nat, r: seq<Id>, n: nat)
    requires n <= p < |rings|
    ensures Count(rings[p := r], n) == Count(rings, n)
    decreases n
  {
    if n == 0 {
    } else {
      CountSame(rings, p, r, n - 1);
    }
  }

  lemma SkipExact(k: Kernel)
    requires Shape(k) && Coupled(k) && HeadPending(k)
    ensures var x := Head(k).value;
      && SkipHead(k) == k.(threads := SkipHead(k).threads, rings := RingDrop(k.rings, k.threads[x].priority, x))
      && SkipHead(k).threads ==
         k.threads[x := k.threads[x].(state := WaitEvent(SuspensionMask(k.threads[x].future.value)))]
  {
    HeadInRing(k);
  }

  /** Every skip leaves one ready thread less: choosing a thread terminates. */
  lemma SkipDecreases(k: Kernel)
    requires Shape(k) && Coupled(k) && HeadPending(k)
    ensures ReadyCount(SkipHead(k)) < ReadyCount(k)
  {
    var x := Head(k).value;
    var p := k.threads[x].priority;
    SkipExact(k);
    HeadInRing(k);
    RemoveFacts(k.rings[p], x);
    CountDrop(k.rings, p, Remove(k.rings[p], x), |k.rings|);
  }

  lemma SkipBase(k: Kernel)
    requires Base(k) && HeadPending(k)
    ensures Base(SkipHead(k))
  {
    var x := Head(k).value;
    var f := k.threads[x].future.value;
    HeadInRing(k);
    SameScheduleBase(k, SetFuture(k, x, Some(f)));
    SetStateBase(SetFuture(k, x, Some(f)), x, WaitEvent(SuspensionMask(f)));
  }

  lemma SkipIpc(k: Kernel)
    requires Base(k) && Ipc(k, None) && HeadPending(k)
    ensures Ipc(SkipHead(k), None)
  {
    var x := Head(k).value;
    var k' := SkipHead(k);
    HeadInRing(k);
    SkipExact(k);
    assert ThreadChange(k, k', x);
    assert forall s :: ReceivesFrom(k', x, s) <==> ReceivesFrom(k, x, s);
    assert ThreadOk(k, x, k'.threads[x]);
    if AwaitsReply(k, x) {
      assert AwaitsReply(k', x);
    } else {
      assert Unnamed(k, x);
    }
    hide Base, NamesOk, CleanOk, MailOk, ReceiversOk, RetryOk, StampsOk, ServersOk, ThreadOk;
    ThreadChangeIpc(k, k', x, None, None);
  }

  /** Activation skips a pending head and goes on. */
  lemma ActivateSkips(k: Kernel)
    requires Shape(k) && Coupled(k) && HeadPending(k)
    ensures Activate(k) == Activate(SkipHead(k))
  {
    var x := Head(k).value;
    var f := k.threads[x].future.value;
    SkipDecreases(k);
    var k0 := SetFuture(k, x, None);
    assert Poll(k0, x, f) == (k0, PollPending);
    assert SetFuture(k0, x, Some(f)) == SetFuture(k, x, Some(f)) by {
      assert SetFuture(k0, x, Some(f)).threads == SetFuture(k, x, Some(f)).threads;
    }
    assert Suspend(k0, x, f) == SkipHead(k);
  }

  /** `y` was ready, waits for something that has not happened, and is parked again with its own mask. */
  predicate Reparked(k: Kernel, y: Id, t: Thread) {
    IsReady(k, y) && k.threads[y].future.Some? && FuturePending(k, y, k.threads[y].future.value) &&
    t == k.threads[y].(state := WaitEvent(SuspensionMask(k.threads[y].future.value)))
  }

  ghost predicate Settled(k: Kernel, k': Kernel) {
    && k' == k.(threads := k'.threads, rings := k'.rings)
    && k'.threads.Keys == k.threads.Keys
    && (forall y | y in k.threads :: k'.threads[y] == k.threads[y] || Reparked(k, y, k'.threads[y]))
  }

  lemma SettledStep(k: Kernel, k': Kernel)
    requires Shape(k) && Coupled(k) && HeadPending(k) && Settled(SkipHead(k), k')
    ensures Settled(k, k')
  {
    SkipExact(k);
    HeadInRing(k);
    var k1 := SkipHead(k);
    forall y | y in k.threads
      ensures k'.threads[y] == k.threads[y] || Reparked(k, y, k'.threads[y])
    {
      assert k'.threads[y] == k1.threads[y] || Reparked(k1, y, k'.threads[y]);
    }
  }

  /**
   Activation first skips the heads that have to go on waiting.  Each is parked again with its own
   future's mask, nothing else changes, and then the head of the highest ring is one that can run.
   */
  lemma {:induction false} SettleOk(k: Kernel)
    requires Base(k) && Ipc(k, None)
    ensures Base(Settle(k)) && Ipc(Settle(k), None)
    ensures Settled(k, Settle(k)) && !HeadPending(Settle(k))
    ensures Activate(k) == Activate(Settle(k))
    decreases ReadyCount(k)
  {
    if HeadPending(k) {
      SkipDecreases(k);
      ActivateSkips(k);
      SkipBase(k);
      SkipIpc(k);
      hide Base, Ipc, Activate, Settled, SkipHead;
      SettleOk(SkipHead(k));
      SettledStep(k, Settle(SkipHead(k)));
    }
  }

  // ---- The chosen thread ------------------------------------------------------------------------

  /** The future of the thread at the head refers to a server that is gone. */
  predicate HeadStale(k: Kernel) {
    Head(k).Some? && Head(k).value in k.threads && k.threads[Head(k).value].future.Some? &&
    Stale(k, Head(k).value, k.threads[Head(k).value].future.value)
  }

  predicate Stale(k: Kernel, x: Id, f: KernelFuture) {
    f.ReceiveMessage? && !(f.sidx in k.servers && k.servers[f.sidx].q.pid == x.pid)
  }

  /** A future that completes or fails is not one a server knows of, and no slot names its thread. */
  lemma DoneUnknown(k: Kernel, x: Id)
    requires ServersOk(k) && NamesOk(k, None) && ReceiversOk(k)
    requires x in k.threads && k.threads[x].future.Some? && !FuturePending(k, x, k.threads[x].future.value)
    ensures Unnamed(k, x) && forall s :: !ReceivesFrom(k, x, s)
  {
  }

  lemma TakeFutureChange(k: Kernel, x: Id)
    requires x in k.threads && CleanOk(k) && StampsOk(k)
    ensures var k' := SetMailbox(SetFuture(k, x, None), x, None);
      && ThreadChange(k, k', x) && ThreadOk(k, x, k'.threads[x])
      && k'.threads[x] == k.threads[x].(future := None, mailbox := None)
      && (forall s :: !ReceivesFrom(k', x, s)) && (forall s :: RetriesAt(k', x, s) <==> RetriesAt(k, x, s))
  {
  }

  lemma TakeFutureIpc(k: Kernel, x: Id)
    requires Ipc(k, None) && x in k.threads && k.threads[x].future.Some?
    requires !FuturePending(k, x, k.threads[x].future.value)
    ensures Ipc(SetMailbox(SetFuture(k, x, None), x, None), None)
  {
    DoneUnknown(k, x);
    TakeFutureChange(k, x);
    assert forall s | RetriesAt(k, x, s) && 1 <= x.tid && x.tid + 1 < k.limits.threads ::
             k.servers[s].q.emptyCount == 0;
    hide *;
    ThreadChangeIpc(k, SetMailbox(SetFuture(k, x, None), x, None), x, None, None);
  }

  lemma TakeFutureTame(k: Kernel, x: Id)
    requires x in k.threads && k.threads[x].future.Some? && !FuturePending(k, x, k.threads[x].future.value)
    ensures var k' := SetMailbox(SetFuture(k, x, None), x, None);
      SameSchedule(k, k') && Tame(k, k') && k'.servers == k.servers
  {
    var k' := SetMailbox(SetFuture(k, x, None), x, None);
    assert forall s, i :: NameAt(k', s, i) == NameAt(k, s, i);
    StaysRule(k, k');
  }

  /** The three ways a poll can end, for a thread whose future is not pending. */
  lemma PollDone(k: Kernel, x: Id)
    requires x in k.threads && k.threads[x].future.Some? && !FuturePending(k, x, k.threads[x].future.value)
    requires k.threads[x].future.value.ReceiveMessage? ==> k.threads[x].mailbox.None?
    ensures var f := k.threads[x].future.value;
      var k0 := SetMailbox(SetFuture(k, x, None), x, None);
      match Poll(SetFuture(k, x, None), x, f).1
      case PollPending => false
      case PollError(_) => Stale(k, x, f) && Poll(SetFuture(k, x, None), x, f).0 == k0
      case PollReady(_) =>
        && !Stale(k, x, f)
        && Poll(SetFuture(k, x, None), x, f).0 == if f.ReceiveMessage? then TakeMessage(k0, f.sidx).0 else k0
  {
    var k0 := SetMailbox(SetFuture(k, x, None), x, None);
    if k.threads[x].mailbox.None? {
      assert k0.threads == SetFuture(k, x, None).threads;
      assert k0 == SetFuture(k, x, None);
    }
  }

  /** What the server owes for message `m` once it has received it: an answer to the sender, if it waits for one. */
  predicate Owes(m: QueuedMessage, m': QueuedMessage) {
    match m
    case BlockingScalarMessage(p, t, _, _) => m' == WaitingReturnScalar(p, t)
    case MemoryMessageROLend(p, t, _, c, b) => m' == WaitingReturnMemory(p, t, b.addr, c, b.size)
    case MemoryMessageRWLend(p, t, _, c, b) => m' == WaitingReturnMemory(p, t, b.addr, c, b.size)
    case BlockingScalarTerminated(_, _) => m' == WaitingReturnScalarTerminated
    case MemoryMessageROLendTerminated(_, b) => m' == WaitingForget(b.addr, b.size)
    case MemoryMessageRWLendTerminated(_, b) => m' == WaitingForget(b.addr, b.size)
    case _ => m' == Empty
  }

  /** The message first in line has gone to a thread of server `s` with result `result`, together with its slot. */
  ghost predicate Handed(q: ServerState, q': ServerState, s: nat, result: Option<Reply>) {
    && result.Some? && result.value.Delivered? && result.value.sidx == s
    && var e := result.value.envelope;
       && e.slot < |q.queue| && q.queue[e.slot].IsPending() && Pending(q) == [q.queue[e.slot]] + Pending(q')
       && e.body == q.queue[e.slot].Body() && e.senderPid == q.queue[e.slot].SenderPid()
       && |q'.queue| == |q.queue| && Owes(q.queue[e.slot], q'.queue[e.slot])
       && q'.queue == q.queue[e.slot := q'.queue[e.slot]]
       && q'.sent == q.sent && q'.received == q.received + [e.body]
  }

  /**
   Thread `x` goes on with the answer to its call: what is in its mailbox, the oldest message of the
   server it waited on, or what it had if no call was unfinished.  No other server is touched.
   */
  ghost predicate Resumption(k: Kernel, k': Kernel, x: Id) {
    && x in k.threads && x in k'.threads && k'.processes == k.processes
    && match k.threads[x].future
       case None => k'.threads[x] == k.threads[x] && k'.servers == k.servers
       case Some(ReceiveMessage(s, _)) =>
         && k'.threads[x] == k.threads[x].(future := None, result := k'.threads[x].result)
         && s in k.servers && s in k'.servers && Handed(k.servers[s].q, k'.servers[s].q, s, k'.threads[x].result)
         && k'.servers == k.servers[s := k.servers[s].(q := k'.servers[s].q)]
       case Some(_) =>
         && k.threads[x].mailbox.Some? && k'.servers == k.servers
         && k'.threads[x] == k.threads[x].(future := None, mailbox := None, result := k.threads[x].mailbox)
  }

  /** The other threads are as before, except that senders that waited for room may be ready. */
  ghost predicate OthersKept(k: Kernel, k': Kernel, x: Id) {
    && k'.threads.Keys == k.threads.Keys
    && forall y | y in k.threads && y != x ::
         k'.threads[y] == k.threads[y] ||
         (k.threads[y].state.RetryQueueFull? && k'.threads[y] == k.threads[y].(state := Ready))
  }

  /** What activation has done when it has found a thread that need not wait. */
  ghost predicate Chosen(k: Kernel, k': Kernel, r: Outcome) {
    match r
    case Resumed =>
      Head(k).Some? && !HeadStale(k) && k'.current == Head(k).value &&
      IsReady(k', k'.current) && k'.threads[k'.current].future.None? && k'.threads[k'.current].mailbox.None? &&
      Resumption(k, k', k'.current) && OthersKept(k, k', k'.current)
    case Error(e) => HeadStale(k) && k'.current == k.current && e == ServerNotFound
    case Drained => Head(k).None? && k' == k
    case Returned(_) => false
  }

  /** Taking a finished future off its thread. */
  lemma TakeFutureOk(k: Kernel, x: Id)
    requires Base(k) && Ipc(k, None) && x in k.threads && k.threads[x].future.Some?
    requires !FuturePending(k, x, k.threads[x].future.value)
    ensures var k' := SetMailbox(SetFuture(k, x, None), x, None);
      Base(k') && Ipc(k', None) && Tame(k, k') && k'.servers == k.servers
  {
    hide *;
    TakeFutureIpc(k, x);
    TakeFutureTame(k, x);
    SameScheduleBase(k, SetMailbox(SetFuture(k, x, None), x, None));
  }

  /** The kernel after the poll of a thread that need not wait. */
  lemma PollDoneKeeps(k: Kernel, x: Id)
    requires Base(k) && Ipc(k, None) && x in k.threads && k.threads[x].future.Some?
    requires !FuturePending(k, x, k.threads[x].future.value)
    ensures var (k', polled) := Poll(SetFuture(k, x, None), x, k.threads[x].future.value);
      && Base(k') && Ipc(k', None) && Tame(k, k') && !polled.PollPending?
      && (polled.PollError? <==> Stale(k, x, k.threads[x].future.value))
      && x in k'.threads && k'.threads[x].future.None? && k'.threads[x].mailbox.None?
  {
    var f := k.threads[x].future.value;
    assert f.ReceiveMessage? ==> k.threads[x].mailbox.None?;
    PollDone(k, x);
    TakeFutureOk(k, x);
    var k0 := SetMailbox(SetFuture(k, x, None), x, None);
    assert k0.threads[x].future.None? && k0.threads[x].mailbox.None?;
    hide Base, Ipc, Tame, Poll, SetFuture, SetMailbox, TakeMessage;
    if f.ReceiveMessage? && !Stale(k, x, f) {
      TakeMessageOk(k0, f.sidx, None);
      TameAt(k0, TakeMessage(k0, f.sidx).0, x);
      TameTrans(k, k0, TakeMessage(k0, f.sidx).0);
    }
  }

  /** The message first in line is taken; senders that waited for room may become ready. */
  lemma TakeMessageExact(k: Kernel, s: nat)
    requires Base(k) && s in k.servers && QueueOk(k.servers[s].q) && Pending(k.servers[s].q) != []
    ensures var (k', r) := TakeMessage(k, s);
      && r.Some? && s in k'.servers && Handed(k.servers[s].q, k'.servers[s].q, s, Some(Delivered(s, r.value)))
      && k'.servers == k.servers[s := k.servers[s].(q := k'.servers[s].q)]
      && k'.processes == k.processes && k'.current == k.current
      && forall x :: OthersKept(k, k', x)
  {
    hide Base, Pending, QueueOk, TakeNext;
    var q := k.servers[s].q;
    var q' := TakeNext(q).1;
    TakeNextFifo(q);
    TakenRecord(q);
    TakeNextNames(q);
    SetQueueBase(k, s, q');
    WakeRetryExact(SetQueue(k, s, q'), s);
  }

  lemma TakenRecord(q: ServerState)
    ensures var (r, q') := TakeNext(q);
      r.Some? ==>
        && r.value.slot < |q.queue| && q.queue[r.value.slot].IsPending()
        && |q'.queue| == |q.queue| && Owes(q.queue[r.value.slot], q'.queue[r.value.slot])
        && r.value.senderPid == q.queue[r.value.slot].SenderPid()
        && q'.sent == q.sent && q'.received == q.received + [r.value.body]
  {
  }

  lemma MailResumes(k: Kernel, x: Id)
    requires x in k.threads && k.threads[x].future.Some? && !k.threads[x].future.value.ReceiveMessage?
    requires k.threads[x].mailbox.Some?
    ensures var (k1, polled) := Poll(SetFuture(k, x, None), x, k.threads[x].future.value);
      && polled.PollReady?
      && Resumption(k, SetResult(k1, x, polled.reply).(current := x), x)
      && OthersKept(k, SetResult(k1, x, polled.reply).(current := x), x)
  {
  }

  lemma PollReceives(k: Kernel, x: Id, s: nat, born: nat)
    requires s in k.servers && k.servers[s].q.pid == x.pid && TakeMessage(k, s).1.Some?
    ensures Poll(k, x, ReceiveMessage(s, born)) ==
            (TakeMessage(k, s).0, PollReady(Delivered(s, TakeMessage(k, s).1.value)))
  {
  }

  /** Only `x` is told something, and runs. */
  lemma ToldAndRuns(k: Kernel, k1: Kernel, x: Id, r: Reply)
    requires OthersKept(k, k1, x) && x in k.threads
    ensures var k' := SetResult(k1, x, r).(current := x);
      && OthersKept(k, k', x) && k'.threads[x] == k1.threads[x].(result := Some(r))
      && k'.servers == k1.servers && k'.processes == k1.processes
  {
  }

  lemma FutureKept(k: Kernel, x: Id)
    ensures var k0 := SetFuture(k, x, None);
      && k0.servers == k.servers && k0.processes == k.processes && OthersKept(k, k0, x) && SameSchedule(k, k0)
      && (x in k.threads ==> k0.threads[x] == k.threads[x].(future := None))
  {
  }

  lemma ReadyKept(k: Kernel, k': Kernel, x: Id)
    requires forall y :: OthersKept(k, k', y)
    requires IsReady(k, x)
    ensures x in k'.threads && k'.threads[x] == k.threads[x]
  {
    assert OthersKept(k, k', Id(x.pid, x.tid + 1));
  }

  lemma OthersTrans(k: Kernel, k1: Kernel, k2: Kernel, x: Id)
    requires OthersKept(k, k1, x) && OthersKept(k1, k2, x)
    ensures OthersKept(k, k2, x)
  {
  }

  lemma MessageResumes(k: Kernel, x: Id)
    requires Base(k) && IsReady(k, x) && k.threads[x].future.Some? && k.threads[x].future.value.ReceiveMessage?
    requires var s := k.threads[x].future.value.sidx;
      s in k.servers && k.servers[s].q.pid == x.pid && QueueOk(k.servers[s].q) && Pending(k.servers[s].q) != []
    ensures var (k1, polled) := Poll(SetFuture(k, x, None), x, k.threads[x].future.value);
      && polled.PollReady?
      && Resumption(k, SetResult(k1, x, polled.reply).(current := x), x)
      && OthersKept(k, SetResult(k1, x, polled.reply).(current := x), x)
  {
    hide Base, Pending, QueueOk, TakeMessage, Handed, SetFuture, SetResult, Poll, OthersKept, SameSchedule;
    var s := k.threads[x].future.value.sidx;
    var k0 := SetFuture(k, x, None);
    FutureKept(k, x);
    SameScheduleBase(k, k0);
    TakeMessageExact(k0, s);
    var (k1, r) := TakeMessage(k0, s);
    PollReceives(k0, x, s, k.threads[x].future.value.born);
    ReadyKept(k0, k1, x);
    OthersTrans(k, k0, k1, x);
    ToldAndRuns(k, k1, x, Delivered(s, r.value));
    assert x in SetResult(k1, x, Delivered(s, r.value)).threads;
  }

  /** The poll of a thread that need not wait and has not lost its server. */
  lemma PollResumes(k: Kernel, x: Id)
    requires Base(k) && Ipc(k, None) && IsReady(k, x) && k.threads[x].future.Some?
    requires !FuturePending(k, x, k.threads[x].future.value) && !Stale(k, x, k.threads[x].future.value)
    ensures var (k1, polled) := Poll(SetFuture(k, x, None), x, k.threads[x].future.value);
      && polled.PollReady?
      && Resumption(k, SetResult(k1, x, polled.reply).(current := x), x)
      && OthersKept(k, SetResult(k1, x, polled.reply).(current := x), x)
  {
    var f := k.threads[x].future.value;
    if f.ReceiveMessage? {
      QueueFacts(k, f.sidx, None);
      TakeNextFifo(k.servers[f.sidx].q);
      hide Base, Ipc, Pending, QueueOk, TakeNext, Poll, SetFuture, Resumption, OthersKept;
      MessageResumes(k, x);
    } else {
      hide Base, Ipc, Poll, SetFuture, Resumption, OthersKept;
      MailResumes(k, x);
    }
  }

  /** A poll fails only for want of the server. */
  lemma PollFails(k: Kernel, x: Id, f: KernelFuture)
    requires x in k.threads && Poll(k, x, f).1.PollError?
    ensures Poll(k, x, f).1.error == ServerNotFound
  {
  }

  /**
   The poll of a ready thread that need not wait.  Its call is over; it fails exactly if its server is
   gone, and otherwise the thread has its mail, or the oldest message, for an answer.
   */
  lemma PollDoneOk(k: Kernel, x: Id)
    requires Base(k) && Ipc(k, None) && IsReady(k, x) && k.threads[x].future.Some?
    requires !FuturePending(k, x, k.threads[x].future.value)
    ensures var (k1, polled) := Poll(SetFuture(k, x, None), x, k.threads[x].future.value);
      && Base(k1) && Ipc(k1, None) && Tame(k, k1) && !polled.PollPending?
      && (polled.PollError? <==> Stale(k, x, k.threads[x].future.value))
      && (polled.PollError? ==> polled.error == ServerNotFound)
      && x in k1.threads && k1.threads[x].future.None? && k1.threads[x].mailbox.None?
      && (polled.PollReady? ==>
            var k' := SetResult(k1, x, polled.reply).(current := x);
            Resumption(k, k', x) && OthersKept(k, k', x))
  {
    hide Base, Ipc, Tame, Poll, SetFuture, SetResult, Resumption, OthersKept, Stale, FuturePending;
    PollDoneKeeps(k, x);
    FutureTaken(k, x);
    var f := k.threads[x].future.value;
    if Stale(k, x, f) {
      PollFails(SetFuture(k, x, None), x, f);
    } else {
      PollResumes(k, x);
    }
  }

  lemma TameAt(k: Kernel, k': Kernel, x: Id)
    requires Tame(k, k') && x in k.threads
    ensures x in k'.threads && TameThread(k.threads[x], k'.threads[x])
  {
  }

  /** Only the running thread differs. */
  lemma SwitchTo(k: Kernel, x: Id)
    ensures Base(k.(current := x)) <==> Base(k)
    ensures Ipc(k.(current := x), None) <==> Ipc(k, None)
  {
    hide QueueOk;
    var k' := k.(current := x);
    assert forall y :: IsReady(k', y) <==> IsReady(k, y);
    assert forall p, y :: InRing(k', p, y) <==> InRing(k, p, y);
    assert forall p, y :: BelongsIn(k', p, y) <==> BelongsIn(k, p, y);
    assert forall s, i :: NameAt(k', s, i) == NameAt(k, s, i);
    assert forall y :: AwaitsReply(k', y) <==> AwaitsReply(k, y);
    assert forall y, s :: ReceivesFrom(k', y, s) <==> ReceivesFrom(k, y, s);
    assert forall y, s :: RetriesAt(k', y, s) <==> RetriesAt(k, y, s);
  }

  lemma ActivateUnfold(k: Kernel)
    requires !k.inIrq && Head(k).Some? && Head(k).value in k.threads && k.threads[Head(k).value].future.Some?
    ensures var x := Head(k).value;
      var (k1, polled) := Poll(SetFuture(k, x, None), x, k.threads[x].future.value);
      && (polled.PollReady? ==> Activate(k) == (SetResult(k1, x, polled.reply).(current := x), Resumed))
      && (polled.PollError? ==> Activate(k) == (k1, Error(polled.error)))
  {
  }

  lemma ResultTame(k: Kernel, x: Id, r: Reply, y: Id)
    ensures Tame(k, SetResult(k, x, r).(current := y).(current := k.current))
  {
    ResultQuiet(k, x, r);
    QuietIsTame(k, SetResult(k, x, r));
    assert SetResult(k, x, r).(current := y).(current := k.current) == SetResult(k, x, r);
  }

  lemma HeadRuns(k: Kernel, x: Id, k1: Kernel, r: Reply)
    requires IsReady(k, x) && Tame(k, k1)
    requires k1.threads[x].future.None? && k1.threads[x].mailbox.None?
    ensures var k' := SetResult(k1, x, r).(current := x);
      && Tame(k, k'.(current := k.current))
      && IsReady(k', x) && k'.threads[x].future.None? && k'.threads[x].mailbox.None?
  {
    ResultTame(k1, x, r, x);
    TameTrans(k, k1, SetResult(k1, x, r).(current := x).(current := k.current));
  }

  /** Activation, once the head is a thread that need not wait: it runs, unless its server is gone. */
  lemma ActivatePolled(k: Kernel)
    requires Base(k) && Ipc(k, None) && !k.inIrq && !HeadPending(k)
    requires Head(k).Some? && Head(k).value in k.threads && k.threads[Head(k).value].future.Some?
    ensures var (k', r) := Activate(k);
      Base(k') && Ipc(k', None) && Tame(k, k'.(current := k.current)) && Chosen(k, k', r)
  {
    hide Ipc, Shape, Coupled, IrqCoupled, Tame, Poll, SetFuture, Activate, SetResult, FuturePending, Resumption,
         OthersKept;
    var x := Head(k).value;
    HeadInRing(k);
    PollDoneKeeps(k, x);
    FutureTaken(k, x);
    ActivateUnfold(k);
    var (k1, polled) := Poll(SetFuture(k, x, None), x, k.threads[x].future.value);
    if polled.PollReady? {
      ResultOk(k1, x, polled.reply, None);
      SwitchTo(SetResult(k1, x, polled.reply), x);
      HeadRuns(k, x, k1, polled.reply);
      PollResumes(k, x);
    } else {
      PollFails(SetFuture(k, x, None), x, k.threads[x].future.value);
      TameCurrent(k, k1);
    }
  }

  lemma FutureTaken(k: Kernel, x: Id)
    requires x in k.threads
    ensures x in SetFuture(k, x, None).threads
  {
  }

  lemma TameCurrent(k: Kernel, k': Kernel)
    requires Tame(k, k')
    ensures k'.current == k.current && k'.(current := k.current) == k'
  {
  }

  lemma ActivateIdle(k: Kernel)
    requires Base(k) && Ipc(k, None) && !k.inIrq
    requires Head(k).Some? ==> Head(k).value in k.threads && k.threads[Head(k).value].future.None?
    ensures var (k', r) := Activate(k);
      Base(k') && Ipc(k', None) && Tame(k, k'.(current := k.current)) && Chosen(k, k', r)
  {
    TameRefl(k);
    if Head(k).Some? {
      HeadInRing(k);
      SwitchTo(k, Head(k).value);
      assert k.(current := Head(k).value).(current := k.current) == k;
      assert k.threads[Head(k).value].mailbox.None?;
    } else {
      assert k.(current := k.current) == k;
    }
  }

  /** No server is opened. */
  ghost predicate Births(k: Kernel, k': Kernel) {
    forall s | s in k'.servers :: s in k.servers && k'.servers[s].born == k.servers[s].born
  }

  ghost predicate FreeStays(k: Kernel, k': Kernel) {
    forall y | y in k.threads && k.threads[y].state.Free? :: y in k'.threads && k'.threads[y].state.Free?
  }

  lemma SettledKeeps(k: Kernel, k': Kernel)
    requires Settled(k, k')
    ensures IdleOk(k) ==> IdleOk(k')
    ensures NoStale(k) ==> NoStale(k')
    ensures ConnsOk(k) ==> ConnsOk(k')
    ensures NoNewWaits(k, k', None) && Stays(k, k') && FreeStays(k, k')
  {
    assert forall p, c :: ConnAt(k', p, c) == ConnAt(k, p, c);
    assert forall y, s :: ReceivesFrom(k', y, s) <==> ReceivesFrom(k, y, s);
    assert forall s, i :: NameAt(k', s, i) == NameAt(k, s, i);
    StaysRule(k, k');
    assert IDLE in k.threads ==> k'.threads[IDLE] == k.threads[IDLE] || Reparked(k, IDLE, k'.threads[IDLE]);
  }

  /**
   Activation keeps every invariant.  Outside interrupt mode it runs the head of the highest
   non-empty ring, as that stands once the threads that must go on waiting are out of the way; the
   thread it runs has no unfinished call.  It fails only if that head waited for a server that is
   gone, and it finds nobody to run only if nobody is ready.
   */
  lemma ActivateOk(k: Kernel)
    requires Base(k) && Ipc(k, None)
    ensures var (k', r) := Activate(k);
      && Base(k') && Ipc(k', None)
      && (IdleOk(k) ==> IdleOk(k')) && (NoStale(k) ==> NoStale(k')) && (ConnsOk(k) ==> ConnsOk(k'))
      && NoNewWaits(k, k', None) && SameProcesses(k, k') && Stays(k, k') && FreeStays(k, k') && Births(k, k')
      && k'.inIrq == k.inIrq && k'.limits == k.limits && k'.clock == k.clock
      && (k.inIrq ==> k' == k && r == Resumed)
      && (!k.inIrq ==> Chosen(Settle(k), k', r))
  {
    hide Ipc, Shape, Coupled, IrqCoupled, IdleOk, ConnsOk, NoStale, Activate, Settle, NoNewWaits, Stays, FreeStays,
         Births, Head, HeadPending, HeadStale, Chosen;
    SettleOk(k);
    var k1 := Settle(k);
    SettledKeeps(k, k1);
    var (k', r) := Activate(k);
    if !k.inIrq {
      if Head(k1).Some? {
        HeadInRing(k1);
        if k1.threads[Head(k1).value].future.Some? {
          ActivatePolled(k1);
        } else {
          ActivateIdle(k1);
        }
      } else {
        ActivateIdle(k1);
      }
      TameKeeps(k1, k'.(current := k1.current));
      SwitchKeeps(k', k1.current);
      SwitchWaits(k, k1, k', k1.current);
      SwitchStays(k, k1, k', k1.current);
    } else {
      ActivateInIrq(k);
      RefWaits(k);
    }
  }

  lemma RefWaits(k: Kernel)
    ensures NoNewWaits(k, k, None) && Stays(k, k) && FreeStays(k, k) && Births(k, k)
  {
  }

  lemma SwitchStays(k: Kernel, k1: Kernel, k2: Kernel, x: Id)
    requires Stays(k, k1) && FreeStays(k, k1) && Tame(k1, k2.(current := x))
    requires k1.servers == k.servers && k1.processes == k.processes
    ensures Stays(k, k2) && FreeStays(k, k2) && Births(k, k2)
  {
    var k' := k2.(current := x);
    assert Recorded(k, k2) by { assert Recorded(k1, k'); }
    forall y | Stranded(k, y) && y.pid in k2.processes
      ensures Stranded(k2, y)
    {
      assert Stranded(k', y);
      StrandedOthers(k', k2, y);
    }
    forall y | Abandoned(k, y)
      ensures WaitsOn(k, k2, y)
    {
      assert WaitsOn(k, k1, y);
      assert Abandoned(k1, y) ==> WaitsOn(k1, k', y);
    }
    forall y | y in k.threads && k.threads[y].state.Free?
      ensures y in k2.threads && k2.threads[y].state.Free?
    {
      assert TameThread(k1.threads[y], k'.threads[y]);
    }
  }

  lemma ActivateInIrq(k: Kernel)
    requires k.inIrq
    ensures Activate(k) == (k, Resumed)
  {
  }

  lemma SwitchWaits(k: Kernel, k1: Kernel, k2: Kernel, x: Id)
    requires NoNewWaits(k, k1, None) && NoNewWaits(k1, k2.(current := x), None)
    ensures NoNewWaits(k, k2, None)
  {
  }

  lemma SwitchKeeps(k: Kernel, x: Id)
    ensures IdleOk(k.(current := x)) <==> IdleOk(k)
    ensures NoStale(k.(current := x)) <==> NoStale(k)
    ensures ConnsOk(k.(current := x)) <==> ConnsOk(k)
    ensures forall y :: AwaitsReply(k.(current := x), y) <==> AwaitsReply(k, y)
  {
    var k' := k.(current := x);
    assert forall y, s :: ReceivesFrom(k', y, s) <==> ReceivesFrom(k, y, s);
    assert forall p, c :: ConnAt(k', p, c) == ConnAt(k, p, c);
  }

  lemma ReadyHead(k: Kernel, x: Id)
    requires Shape(k) && Coupled(k) && IsReady(k, x) && x.tid != IRQ_TID
    ensures Head(k).Some?
  {
    var p := k.threads[x].priority;
    assert BelongsIn(k, p, x);
    assert InRing(k, p, x);
  }

  lemma IdleReady(k: Kernel)
    requires IdleOk(k)
    ensures IsReady(k, IDLE)
  {
  }

  /** With the idle thread ready, somebody is always found. */
  lemma NeverDrained(k: Kernel)
    requires Base(k) && Ipc(k, None) && IdleOk(k)
    ensures !Activate(k).1.Drained?
  {
    hide Activate, Settle, Ipc, IrqCoupled, Head, IdleOk, Settled, Shape, Coupled;
    ActivateOk(k);
    SettleOk(k);
    SettledKeeps(k, Settle(k));
    IdleReady(Settle(k));
    ReadyHead(Settle(k), IDLE);
  }

  lemma HeadFresh(k: Kernel)
    requires Shape(k) && Coupled(k) && ReceiversOk(k) && NoStale(k)
    ensures !HeadStale(k)
  {
  }

  /** While every suspended receiver still has its server, activation does not fail. */
  lemma NeverFails(k: Kernel)
    requires Base(k) && Ipc(k, None) && NoStale(k)
    ensures !Activate(k).1.Error?
  {
    hide Activate, Settle, IrqCoupled, Head, NoStale, Settled, Shape, Coupled, ReceiversOk, NamesOk, HeadStale;
    ActivateOk(k);
    SettleOk(k);
    SettledKeeps(k, Settle(k));
    HeadFresh(Settle(k));
  }

  // ---- Which thread is left running -------------------------------------------------------------

  /** A failed activation takes the future of the head away and changes nothing else. */
  lemma StaleHeadFails(k: Kernel)
    requires Base(k) && Ipc(k, None) && !k.inIrq && HeadStale(k)
    ensures Head(k).Some? && Head(k).value in k.threads
    ensures var x := Head(k).value;
      Activate(k).0 == k.(threads := k.threads[x := k.threads[x].(future := None)])
  {
  }

  lemma SettledCurrent(k: Kernel, k1: Kernel)
    requires Settled(k, k1)
    ensures k1.current == k.current && k1.inIrq == k.inIrq
    ensures CurrentOk(k) ==> CurrentOk(k1)
    ensures !IsReady(k, k.current) ==> !IsReady(k1, k.current)
  {
  }

  /**
   A sound running thread is followed by a sound running thread.  A thread that has left the
   processor stops running exactly if the first thread that need not wait is not a receiver whose
   server has gone; otherwise activation fails and the thread that left is still the running one.
   */
  lemma ActivateLands(k: Kernel)
    requires Base(k) && Ipc(k, None) && IdleOk(k)
    ensures CurrentOk(k) ==> CurrentOk(Activate(k).0)
    ensures !k.inIrq && !IsReady(k, k.current) ==> (CurrentOk(Activate(k).0) <==> !HeadStale(Settle(k)))
  {
    hide Activate, Settle, Base, Ipc, IdleOk, Settled, HeadStale, Head;
    ActivateOk(k);
    NeverDrained(k);
    SettleOk(k);
    var k1 := Settle(k);
    SettledCurrent(k, k1);
    if !k.inIrq && HeadStale(k1) {
      StaleHeadFails(k1);
      StaleHeadWaits(k1);
    }
  }

  lemma StaleHeadWaits(k: Kernel)
    requires HeadStale(k)
    ensures Head(k).Some? && Head(k).value in k.threads && k.threads[Head(k).value].future.Some?
  {
  }

  // ---- Who runs next, and with what -------------------------------------------------------------

  /** `y` waits for a message of its own server that has none, or for mail that has not come. */
  ghost predicate MustWait(k: Kernel, y: Id) {
    y in k.threads &&
    match k.threads[y].future
    case None => false
    case Some(ReceiveMessage(s, _)) => s in k.servers && k.servers[s].q.pid == y.pid && Pending(k.servers[s].q) == []
    case Some(_) => k.threads[y].mailbox.None?
  }

  /** `x` need not wait, and every thread of a higher priority, or before it in its ring, must. */
  ghost predicate FirstAble(k: Kernel, x: Id) {
    && x in k.threads && !MustWait(k, x)
    && var p := k.threads[x].priority;
       && p < |k.rings| && x in k.rings[p]
       && (forall q: nat, y | p < q < |k.rings| && y in k.rings[q] :: MustWait(k, y))
       && (forall i | 0 <= i < IndexOf(k.rings[p], x) :: MustWait(k, k.rings[p][i]))
  }

  lemma PendingIsMustWait(k: Kernel, y: Id)
    requires ServersOk(k)
    ensures MustWait(k, y) <==>
            y in k.threads && k.threads[y].future.Some? && FuturePending(k, y, k.threads[y].future.value)
  {
    hide QueueOk, Pending, TakeNext;
    if y in k.threads && k.threads[y].future.Some? && k.threads[y].future.value.ReceiveMessage? &&
       k.threads[y].future.value.sidx in k.servers {
      TakeNextFifo(k.servers[k.threads[y].future.value.sidx].q);
    }
  }

  lemma SkipMustWait(k: Kernel, y: Id)
    requires Shape(k) && Coupled(k) && HeadPending(k)
    ensures MustWait(SkipHead(k), y) <==> MustWait(k, y)
  {
    hide Pending, FuturePending, SkipHead;
    SkipExact(k);
  }

  lemma HeadIsFirst(k: Kernel)
    requires Shape(k) && Coupled(k) && ServersOk(k) && Head(k).Some? && !k.inIrq && !HeadPending(k)
    ensures FirstAble(k, Head(k).value)
  {
    hide MustWait, FuturePending;
    HeadInRing(k);
    PendingIsMustWait(k, Head(k).value);
  }

  /** What skipping the head does to the rings: the head was the first of its ring. */
  lemma SkipRings(k: Kernel)
    requires Shape(k) && Coupled(k) && ServersOk(k) && HeadPending(k)
    ensures var h, k1 := Head(k).value, SkipHead(k);
      && h in k.threads && MustWait(k, h) && |k1.rings| == |k.rings|
      && k.threads[h].priority < |k.rings| && k.rings[k.threads[h].priority] == [h] + k1.rings[k.threads[h].priority]
      && (forall p | 0 <= p < |k.rings| && p != k.threads[h].priority :: k1.rings[p] == k.rings[p])
      && k1.threads.Keys == k.threads.Keys
      && (forall x | x in k.threads :: k1.threads[x].priority == k.threads[x].priority)
  {
    hide MustWait, FuturePending, SkipHead, ServersOk;
    var h := Head(k).value;
    HeadInRing(k);
    SkipExact(k);
    PendingIsMustWait(k, h);
    var r := k.rings[k.threads[h].priority];
    assert IndexOf(r, h) == 0;
    assert Remove(r, h) == r[1..];
  }

  /** A thread that is first once the waiting head is out of the way was first before. */
  lemma FirstBefore(k: Kernel, x: Id)
    requires Shape(k) && Coupled(k) && ServersOk(k) && HeadPending(k) && FirstAble(SkipHead(k), x)
    ensures FirstAble(k, x)
  {
    var h, k1 := Head(k).value, SkipHead(k);
    hide MustWait, SkipHead, ServersOk, Head, HeadPending, IndexOf;
    SkipRings(k);
    forall y ensures MustWait(k1, y) <==> MustWait(k, y) { SkipMustWait(k, y); }
    var p := k.threads[x].priority;
    forall i | 0 <= i < IndexOf(k.rings[p], x)
      ensures MustWait(k, k.rings[p][i])
    {
      if p == k.threads[h].priority && i > 0 { LaterIndex(k.rings[p], x, i); }
    }
  }

  lemma LaterIndex(r: seq<Id>, x: Id, i: nat)
    requires 0 < i < IndexOf(r, x) && x in r[1..]
    ensures i - 1 < IndexOf(r[1..], x) && r[1..][i - 1] == r[i]
  {
  }

  lemma {:induction false} SettleFirst(k: Kernel)
    requires Base(k) && Ipc(k, None) && !k.inIrq && Head(Settle(k)).Some?
    ensures FirstAble(k, Head(Settle(k)).value)
    decreases ReadyCount(k)
  {
    if HeadPending(k) {
      SkipDecreases(k);
      SkipBase(k);
      SkipIpc(k);
      SkipExact(k);
      assert ServersOk(k);
      hide Ipc, Settle, SkipHead, FirstAble, ServersOk, IrqCoupled;
      assert Settle(k) == Settle(SkipHead(k)) by { SettleSkips(k); }
      SettleFirst(SkipHead(k));
      FirstBefore(k, Head(Settle(k)).value);
    } else {
      HeadIsFirst(k);
    }
  }

  lemma SettleSkips(k: Kernel)
    requires HeadPending(k) && ReadyCount(SkipHead(k)) < ReadyCount(k)
    ensures Settle(k) == Settle(SkipHead(k))
  {
  }

  /** The other threads are as before, except that senders may have found room and waiting threads are parked again. */
  ghost predicate OthersWait(k: Kernel, k': Kernel, x: Id) {
    && k'.threads.Keys == k.threads.Keys
    && forall y | y in k.threads && y != x ::
         || k'.threads[y] == k.threads[y]
         || (k.threads[y].state.RetryQueueFull? && k'.threads[y] == k.threads[y].(state := Ready))
         || (IsReady(k, y) && MustWait(k, y) && Waiting(k, k', y))
  }

  /** `y` is parked with the event that ends its wait, and has lost nothing. */
  predicate Waiting(k: Kernel, k': Kernel, y: Id) {
    && y in k.threads && y in k'.threads && k.threads[y].future.Some?
    && k'.threads[y] == k.threads[y].(state := WaitEvent(if k.threads[y].future.value.ReceiveMessage?
                                                         then {EVENT_SERVER_MSG} else {EVENT_KERNEL}))
  }

  lemma SettledOthers(k: Kernel, k1: Kernel, k': Kernel, x: Id)
    requires ServersOk(k) && Settled(k, k1) && OthersKept(k1, k', x)
    ensures OthersWait(k, k', x)
  {
    hide MustWait, FuturePending;
    forall y | y in k.threads && y != x
      ensures || k'.threads[y] == k.threads[y]
              || (k.threads[y].state.RetryQueueFull? && k'.threads[y] == k.threads[y].(state := Ready))
              || (IsReady(k, y) && MustWait(k, y) && Waiting(k, k', y))
    {
      if k1.threads[y] != k.threads[y] {
        assert Reparked(k, y, k1.threads[y]);
        PendingIsMustWait(k, y);
      }
    }
  }

  /** `x` is not to run: its server is gone, and it is told so when it is looked at. */
  ghost predicate Forsaken(k: Kernel, k': Kernel, x: Id) {
    && FirstAble(k, x) && LostServer(k, x) && OthersWait(k, k', x)
    && k'.threads[x] == k.threads[x].(future := None)
  }

  /**
   Outside interrupt mode, whatever activation finds: it runs the first thread that need not wait, in
   the order of priorities and rings, with the answer to that thread's call; it fails only if that
   thread waited for a server that is gone; and it finds nobody only if every ready thread must wait.
   */
  lemma ActivateRunsFirst(k: Kernel)
    requires Base(k) && Ipc(k, None) && !k.inIrq
    ensures var (k', r) := Activate(k);
      match r
      case Resumed =>
        FirstAble(k, k'.current) && Resumption(k, k', k'.current) && OthersWait(k, k', k'.current)
        && k'.threads[k'.current].state.Ready?
      case Error(e) =>
        e == ServerNotFound && k'.current == k.current && k'.servers == k.servers && k'.processes == k.processes
        && exists x :: Forsaken(k, k', x)
      case Drained =>
        k' == k.(threads := k'.threads, rings := k'.rings) && (forall x :: OthersWait(k, k', x))
        && forall x | IsReady(k, x) && x.tid != IRQ_TID :: MustWait(k, x)
      case Returned(_) => false
  {
    hide Base, Ipc, Activate, Settle, Head, HeadStale, FirstAble, Resumption, OthersKept, OthersWait, Settled,
         IdleOk, ConnsOk, NoStale, NoNewWaits, Stays, FreeStays, Births, MustWait, LostServer;
    var (k', r) := Activate(k);
    var k1 := Settle(k);
    ActivateOk(k);
    SettleOk(k);
    IpcServers(k);
    SettledCurrent(k, k1);
    SettledTables(k, k1);
    match r
    case Resumed =>
      SettleFirst(k);
      SettledResumption(k, k1, k');
      SettledOthers(k, k1, k', k'.current);
    case Error(e) =>
      StaleHeadFails(k1);
      SettleFirst(k);
      var x := Head(k1).value;
      StaleHeadLost(k, k1);
      OneKept(k1, x);
      SettledOthers(k, k1, k', x);
      SettledHead(k, k1, x);
      assert Forsaken(k, k', x);
    case Drained =>
      forall x
        ensures OthersWait(k, k', x)
      {
        SelfKept(k1, x);
        SettledOthers(k, k1, k', x);
      }
      forall x | IsReady(k, x) && x.tid != IRQ_TID
        ensures MustWait(k, x)
      {
        NobodyAble(k, k1, x);
      }
  }

  lemma SelfKept(k: Kernel, x: Id)
    ensures OthersKept(k, k, x)
  {
  }

  lemma OneKept(k: Kernel, x: Id)
    ensures x in k.threads ==> OthersKept(k, k.(threads := k.threads[x := k.threads[x].(future := None)]), x)
  {
  }

  lemma SettledTables(k: Kernel, k1: Kernel)
    requires Settled(k, k1)
    ensures k1 == k.(threads := k1.threads, rings := k1.rings)
  {
  }

  /** A thread that has lost its server was not made to wait. */
  lemma SettledHead(k: Kernel, k1: Kernel, x: Id)
    requires Settled(k, k1) && LostServer(k, x)
    ensures x in k1.threads && k1.threads[x] == k.threads[x]
  {
  }

  /**
   What activation may have done to thread `y`: nothing; made it ready, if it waited for room; parked it
   again, if it must wait; run it with the answer to its call; or taken its call away with its server gone.
   */
  ghost predicate Left(k: Kernel, k': Kernel, r: Outcome, y: Id) {
    && y in k.threads && y in k'.threads
    && (|| k'.threads[y] == k.threads[y]
        || (k.threads[y].state.RetryQueueFull? && k'.threads[y] == k.threads[y].(state := Ready))
        || (IsReady(k, y) && MustWait(k, y) && Waiting(k, k', y))
        || (r == Resumed && k'.current == y && IsReady(k, y) && Resumption(k, k', y))
        || (r == Error(ServerNotFound) && IsReady(k, y) && LostServer(k, y) &&
            k'.threads[y] == k.threads[y].(future := None)))
  }

  lemma ActivateThread(k: Kernel, y: Id)
    requires Base(k) && Ipc(k, None) && y in k.threads
    ensures Left(k, Activate(k).0, Activate(k).1, y)
  {
    hide Base, Ipc, Activate, FirstAble, MustWait, Resumption, LostServer;
    if k.inIrq {
      ActivateInIrq(k);
    } else {
      ActivateRunsFirst(k);
      assert Activate(k).1.Drained? ==> OthersWait(k, Activate(k).0, Id(y.pid, y.tid + 1));
      if FirstAble(k, y) { FirstIsReady(k, y); }
    }
  }

  predicate LostServer(k: Kernel, x: Id) {
    x in k.threads && k.threads[x].future.Some? && Stale(k, x, k.threads[x].future.value)
  }

  lemma FirstIsReady(k: Kernel, x: Id)
    requires Base(k) && FirstAble(k, x)
    ensures IsReady(k, x)
  {
    hide MustWait;
    assert InRing(k, k.threads[x].priority, x);
  }

  lemma IpcServers(k: Kernel)
    requires Ipc(k, None)
    ensures ServersOk(k)
  {
  }

  lemma SettledResumption(k: Kernel, k1: Kernel, k': Kernel)
    requires Base(k1) && Settled(k, k1) && Head(k1).Some? && k'.current == Head(k1).value
    requires Resumption(k1, k', k'.current) && IsReady(k', k'.current)
    ensures Resumption(k, k', k'.current)
  {
    HeadInRing(k1);
  }

  lemma StaleHeadLost(k: Kernel, k1: Kernel)
    requires Settled(k, k1) && HeadStale(k1)
    ensures LostServer(k, Head(k1).value)
  {
  }

  lemma NobodyAble(k: Kernel, k1: Kernel, x: Id)
    requires Ipc(k, None) && Base(k1) && Settled(k, k1) && Head(k1).None? && IsReady(k, x) && x.tid != IRQ_TID
    ensures MustWait(k, x)
  {
    IpcServers(k);
    PendingIsMustWait(k, x);
    if IsReady(k1, x) { ReadyHead(k1, x); }
  }
}
