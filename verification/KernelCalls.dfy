/** The system calls that neither end a server nor a process keep the invariants. */
module KernelCalls {
  import opened Common
  import opened Rings
  import opened ServerQueue
  import opened Fifo
  import opened KernelState
  import opened KernelSteps
  import opened KernelInv
  import opened KernelSched
  import opened KernelIpc
  import opened KernelMessages
  import opened KernelActivate

  /** The kernel between two calls: all invariants, a sound running thread, and no receiver without its server. */
  ghost predicate Good(k: Kernel) {
    Inv(k) && CurrentOk(k) && NoStale(k)
  }

  /** What a call that ends in `k'` keeps, whatever thread it leaves running; only `asker` may now wait for a reply. */
  ghost predicate KeepsFor(k: Kernel, k': Kernel, asker: Option<Id>) {
    Inv(k') && (NoStale(k) ==> NoStale(k')) && NoNewWaits(k, k', asker) && Stays(k, k')
  }

  /** The running thread has left the processor, and the first thread that need not wait has lost its server. */
  predicate Derailed(left: Option<Kernel>) {
    left.Some? && HeadStale(Settle(left.value))
  }

  /** How a call ends, if `left` is the kernel once the caller has left the processor, or None if it stays ready. */
  ghost predicate Ends(k: Kernel, k': Kernel, asker: Option<Id>, left: Option<Kernel>) {
    && KeepsFor(k, k', asker)
    && (CurrentOk(k') <==> !Derailed(left))
    && (NoStale(k) ==> CurrentOk(k'))
    && (left.Some? ==> Inv(left.value))
  }

  ghost predicate Keeps(k: Kernel, k': Kernel) {
    Ends(k, k', None, None)
  }

  lemma WaitsTrans(k: Kernel, k1: Kernel, k2: Kernel, asker: Option<Id>)
    requires NoNewWaits(k, k1, asker) && NoNewWaits(k1, k2, None)
    ensures NoNewWaits(k, k2, asker)
  {
  }

  lemma StaysTrans(k: Kernel, k1: Kernel, k2: Kernel)
    requires Stays(k, k1) && Stays(k1, k2) && k2.processes.Keys == k1.processes.Keys && Births(k1, k2)
    ensures Stays(k, k2)
  {
    assert Recorded(k, k1) && Recorded(k1, k2);
    forall x | Abandoned(k, x)
      ensures WaitsOn(k, k2, x)
    {
      assert WaitsOn(k, k1, x);
      assert Abandoned(k1, x) ==> WaitsOn(k1, k2, x);
    }
  }

  /** What a call has done before it chooses the next thread. */
  ghost predicate Prepared(k: Kernel, k1: Kernel, asker: Option<Id>) {
    Inv(k1) && (NoStale(k) ==> NoStale(k1)) && NoNewWaits(k, k1, asker) && Stays(k, k1)
  }

  lemma ChosenKeeps(k: Kernel, k1: Kernel, asker: Option<Id>)
    requires Prepared(k, k1, asker)
    ensures KeepsFor(k, Activate(k1).0, asker)
  {
    hide Base, Ipc, Activate, IdleOk, ConnsOk, NoStale, Settle, NoNewWaits, Stays, Chosen, Births;
    ActivateOk(k1);
    WaitsTrans(k, k1, Activate(k1).0, asker);
    StaysTrans(k, k1, Activate(k1).0);
  }

  /** A call that ends by choosing the next thread, the caller being ready. */
  lemma EndCall(k: Kernel, k1: Kernel, asker: Option<Id>)
    requires Prepared(k, k1, asker) && CurrentOk(k1)
    ensures Ends(k, Activate(k1).0, asker, None)
  {
    ChosenKeeps(k, k1, asker);
    hide Base, Ipc, Activate, IdleOk, ConnsOk, NoStale, NoNewWaits, Stays, CurrentOk;
    ActivateLands(k1);
  }

  /** A call that takes the caller off the processor. */
  lemma LeaveCall(k: Kernel, k1: Kernel, asker: Option<Id>)
    requires Prepared(k, k1, asker) && !k1.inIrq && !IsReady(k1, k1.current)
    ensures Ends(k, Activate(k1).0, asker, Some(k1))
  {
    ChosenKeeps(k, k1, asker);
    hide Base, Ipc, Activate, IdleOk, ConnsOk, NoStale, NoNewWaits, Stays, CurrentOk, Settle, HeadStale;
    ActivateLands(k1);
    if NoStale(k) { FreshLands(k1); }
  }

  /** While every suspended receiver still has its server, the thread chosen first can run. */
  lemma FreshLands(k: Kernel)
    requires Base(k) && Ipc(k, None) && NoStale(k)
    ensures !HeadStale(Settle(k))
  {
    hide Settle, IrqCoupled, Head, NoStale, Settled, Shape, Coupled, ReceiversOk, NamesOk, HeadStale;
    SettleOk(k);
    SettledKeeps(k, Settle(k));
    HeadFresh(Settle(k));
  }

  /** A call that only moved messages and woke threads leaves the running thread alone. */
  lemma TameCall(k: Kernel, k': Kernel)
    requires Inv(k) && CurrentOk(k) && Tame(k, k') && Base(k') && Ipc(k', None)
    ensures Keeps(k, k') && Inv(k') && CurrentOk(k')
  {
    hide Base, Ipc, IdleOk, ConnsOk, NoStale, Tame, CurrentOk, NoNewWaits, Stays;
    TameKeeps(k, k');
  }

  lemma KeepsTrans(k: Kernel, k1: Kernel, k2: Kernel, left: Option<Kernel>)
    requires Keeps(k, k1) && Ends(k1, k2, None, left) && k2.processes.Keys == k1.processes.Keys && Births(k1, k2)
    ensures Ends(k, k2, None, left)
  {
    hide Inv, NoStale, CurrentOk, NoNewWaits, Stays, Derailed;
    WaitsTrans(k, k1, k2, None);
    StaysTrans(k, k1, k2);
  }

  lemma QuietCall(k: Kernel, k': Kernel)
    requires Inv(k) && CurrentOk(k) && Quiet(k, k') && Base(k')
    ensures Keeps(k, k') && Inv(k') && CurrentOk(k')
  {
    hide Base, Ipc, IdleOk, ConnsOk, NoStale, Tame, CurrentOk, Quiet, Keeps;
    QuietIpc(k, k', None);
    QuietIsTame(k, k');
    TameCall(k, k');
  }

  /** The running thread may suspend itself unless it handles an interrupt. */
  ghost predicate MaySuspend(k: Kernel) {
    CurrentOk(k) && k.current.tid != IRQ_TID && k.current != IDLE
  }

  /** Suspending ends the call. */
  lemma SuspendCall(k: Kernel, k1: Kernel, f: KernelFuture)
    requires NoNewWaits(k, k1, None) && Stays(k, k1) && (NoStale(k) ==> NoStale(k1))
    requires Base(k1) && Ipc(k1, if f == WaitBlocking then Some(k1.current) else None) && IdleOk(k1) && ConnsOk(k1)
    requires MaySuspend(k1) && !f.ReceiveMessage?
    ensures var left := Suspend(k1, k1.current, f);
      Ends(k, Activate(left).0, if f == WaitBlocking then Some(k1.current) else None, Some(left))
  {
    hide Base, Ipc, IdleOk, ConnsOk, NoStale, Suspend, Activate, AwaitsReply, NoNewWaits, Stays;
    var asker := if f == WaitBlocking then Some(k1.current) else None;
    var left := Suspend(k1, k1.current, f);
    SuspendOk(k1, k1.current, f, asker);
    SuspendWaits(k1, k1.current, f);
    AskerTrans(k, k1, left, asker);
    StaysTrans(k, k1, left);
    LeaveCall(k, left, asker);
  }

  lemma AskerTrans(k: Kernel, k1: Kernel, k2: Kernel, asker: Option<Id>)
    requires NoNewWaits(k, k1, None) && NoNewWaits(k1, k2, asker)
    ensures NoNewWaits(k, k2, asker)
  {
  }

  lemma SuspendWaits(k: Kernel, x: Id, f: KernelFuture)
    requires IsReady(k, x) && x.tid != IRQ_TID && k.threads[x].future.None?
    ensures var k' := Suspend(k, x, f);
      && NoNewWaits(k, k', if f == WaitBlocking then Some(x) else None) && Stays(k, k')
      && k'.processes == k.processes && k'.servers == k.servers
      && k'.current == k.current && !IsReady(k', x) && k'.inIrq == k.inIrq
  {
    var k' := Suspend(k, x, f);
    SuspendExact(k, x, f);
    assert forall s, i :: NameAt(k', s, i) == NameAt(k, s, i);
    StaysRule(k, k');
  }

  // ---- Suspending the running thread ------------------------------------------------------------

  lemma SuspendExact(k: Kernel, x: Id, f: KernelFuture)
    requires IsReady(k, x) && x.tid != IRQ_TID
    ensures var k' := Suspend(k, x, f);
      && k' == k.(threads := k'.threads, rings := k'.rings)
      && k'.threads == k.threads[x := k.threads[x].(state := WaitEvent(SuspensionMask(f)), future := Some(f))]
  {
  }

  lemma SuspendBase(k: Kernel, x: Id, f: KernelFuture)
    requires Base(k) && IsReady(k, x) && x.tid != IRQ_TID
    ensures Base(Suspend(k, x, f))
  {
    SameScheduleBase(k, SetFuture(k, x, Some(f)));
    SetStateBase(SetFuture(k, x, Some(f)), x, WaitEvent(SuspensionMask(f)));
  }

  lemma SuspendChange(k: Kernel, x: Id, f: KernelFuture)
    requires IsReady(k, x) && x.tid != IRQ_TID && k.threads[x].future.None? && k.threads[x].mailbox.None?
    requires !f.ReceiveMessage?
    ensures var k' := Suspend(k, x, f);
      && ThreadChange(k, k', x) && ThreadOk(k, x, k'.threads[x])
      && (forall s :: !ReceivesFrom(k', x, s) && !ReceivesFrom(k, x, s)) && (forall s :: !RetriesAt(k', x, s))
      && (f == WaitBlocking ==> AwaitsReply(k', x))
  {
  }

  /** Only thread `x` changes, and not into a receiver. */
  lemma OneThreadKeeps(k: Kernel, k': Kernel, x: Id)
    requires k' == k.(threads := k'.threads, rings := k'.rings) && x in k.threads && x in k'.threads
    requires k'.threads == k.threads[x := k'.threads[x]]
    ensures x != IDLE && IdleOk(k) ==> IdleOk(k')
    ensures ConnsOk(k) ==> ConnsOk(k')
    ensures NoStale(k) && (k'.threads[x].future.None? || !k'.threads[x].future.value.ReceiveMessage?) ==> NoStale(k')
    ensures k'.threads[x].future != Some(WaitBlocking) ==> NoNewWaits(k, k', None)
    ensures k.threads[x].future.None? ==> Stays(k, k')
  {
    assert forall s, i :: NameAt(k', s, i) == NameAt(k, s, i);
    if k.threads[x].future.None? { StaysRule(k, k'); }
    assert forall p, c :: ConnAt(k', p, c) == ConnAt(k, p, c);
    assert forall y, s | y != x :: ReceivesFrom(k', y, s) <==> ReceivesFrom(k, y, s);
  }

  /** Suspending the running thread; a blocking sender is the one that a slot already names. */
  lemma SuspendOk(k: Kernel, x: Id, f: KernelFuture, sending: Option<Id>)
    requires Base(k) && Ipc(k, sending) && IdleOk(k) && ConnsOk(k)
    requires IsReady(k, x) && x.tid != IRQ_TID && x != IDLE
    requires k.threads[x].future.None? && k.threads[x].mailbox.None? && !f.ReceiveMessage?
    requires sending == (if f == WaitBlocking then Some(x) else None)
    ensures Inv(Suspend(k, x, f)) && (NoStale(k) ==> NoStale(Suspend(k, x, f)))
    ensures Suspend(k, x, f).inIrq == k.inIrq
  {
    if f != WaitBlocking { IdleUnnamed(k, x); }
    SuspendExact(k, x, f);
    hide Base, Ipc, IdleOk, ConnsOk, NoStale, Suspend, ThreadChange, ThreadOk, ReceivesFrom, RetriesAt, AwaitsReply,
         Unnamed;
    SuspendBase(k, x, f);
    SuspendChange(k, x, f);
    ThreadChangeIpc(k, Suspend(k, x, f), x, sending, None);
    OneThreadKeeps(k, Suspend(k, x, f), x);
  }

  // ---- Sending ----------------------------------------------------------------------------------

  /** Sending: the sender of a blocking message that was accepted, and only that, now waits for a reply. */
  lemma SendKeeps(k: Kernel, cid: nat, message: Message, mapped: Result<nat>)
    requires Inv(k) && CurrentOk(k) && (message.IsBlocking() ==> MaySuspend(k))
    ensures var left := SendParks(k, cid, message, mapped);
      Ends(k, SendMessage(k, cid, message, mapped).0, if left.Some? then Some(k.current) else None, left)
  {
    hide Base, Ipc, IdleOk, ConnsOk, NoStale, Tame, SendInner, Suspend, SetResult, Activate, Connection, Permitted,
         Ends, NoNewWaits, Stays;
    var found := Lookup(k, cid);
    if found.Ok? && Permitted(k, cid, found.value, message) {
      SendInnerOk(k, k.current, found.value, message, mapped);
      var (k1, r) := SendInner(k, k.current, found.value, message, mapped);
      TameKeeps(k, k1);
      assert k1.current == k.current by { TameCurrent(k, k1); }
      if r.Err? {
        TameCall(k, k1);
      } else if message.IsBlocking() {
        SuspendCall(k, k1, WaitBlocking);
      } else {
        ReturnCall(k, k1);
      }
    } else {
      TameRefl(k);
      TameCall(k, k);
    }
  }

  /** A call that moved messages and returns to its caller, unless another thread comes first. */
  lemma ReturnCall(k: Kernel, k1: Kernel)
    requires Inv(k) && CurrentOk(k) && Tame(k, k1) && Base(k1) && Ipc(k1, None)
    ensures Keeps(k, Activate(SetResult(k1, k.current, Done)).0)
  {
    var k2 := SetResult(k1, k.current, Done);
    hide Base, Ipc, IdleOk, ConnsOk, NoStale, Tame, SetResult, Activate, CurrentOk, NoNewWaits, Stays, Derailed;
    ResultOk(k1, k.current, Done, None);
    TameTrans(k, k1, k2);
    TameCall(k, k2);
    EndCall(k, k2, None);
  }

  /** The only errors that choosing a thread reports. */
  lemma {:induction false} ActivateErrors(k: Kernel)
    ensures Activate(k).1.Error? ==> Activate(k).1.error == ServerNotFound || Activate(k).1.error == ProcessNotFound
    decreases ReadyCount(k)
  {
    hide SetFuture, Suspend, SetResult, TakeMessage, SetMailbox;
    if !k.inIrq {
      var h := HighestBelow(k.rings, |k.rings|);
      if h < |k.rings| && k.rings[h] != [] {
        var x := k.rings[h][0];
        if x in k.threads && k.threads[x].future.Some? {
          var f := k.threads[x].future.value;
          var (k1, polled) := Poll(SetFuture(k, x, None), x, f);
          if polled.PollPending? && ReadyCount(Suspend(k1, x, f)) < ReadyCount(k) {
            ActivateErrors(Suspend(k1, x, f));
          }
        }
      }
    }
  }

  lemma FillErrors(q: ServerState, slot: Result<QueuedMessage>)
    requires QueueOk(q) && q.emptyCount != 0
    ensures Fill(q, slot).0.Err? ==> slot.Err? && slot.error == Fill(q, slot).0.error
  {
    EmptySlotFound(q);
  }

  lemma QueueingErrors(q: ServerState, x: Id, m: Message, addr: Option<nat>)
    requires QueueOk(q) && q.emptyCount != 0
    ensures var r := QueueMessage(q, x.pid, x.tid, m, addr).0;
      r.Err? ==> r.error == BadAddress || r.error == InvalidArguments
    ensures var r := QueueResponse(q, x.pid, x.tid, m, addr).0;
      r.Err? ==> r.error == BadAddress || r.error == InvalidArguments
  {
    FillErrors(q, QueuedSlot(x.pid, x.tid, q.tailGeneration, m, addr));
    FillErrors(q, ResponseSlot(x.pid, x.tid, m, addr));
  }

  /** Why a message is refused: a full queue, pages that could not be mapped, or an address that makes no sense. */
  lemma SendInnerErrors(k: Kernel, sender: Id, s: nat, message: Message, mapped: Result<nat>)
    requires ServersOk(k) && s in k.servers
    ensures var r := SendInner(k, sender, s, message, mapped).1;
      r.Err? ==> r.error == if k.servers[s].q.emptyCount == 0 then ServerQueueFull
                            else if Translate(message, mapped).Err? then Translate(message, mapped).error
                            else if r.error == BadAddress then BadAddress else InvalidArguments
  {
    var q := k.servers[s].q;
    assert QueueOk(q);
    hide QueueOk, ServersOk, QueueMessage, QueueResponse, SetQueue, HandOver, PostBits, Translate, ClientAddress;
    if q.emptyCount != 0 && Translate(message, mapped).Ok? {
      var m := Translate(message, mapped).value;
      QueueingErrors(q, sender, m, ClientAddress(message));
      var t := AvailableThread(q);
      if t.Some? {
        MaskQueueOk(q, q.readyThreads - {t.value});
        QueueingErrors(q.(readyThreads := q.readyThreads - {t.value}), sender, m, ClientAddress(message));
      }
    }
  }

  lemma SendFull(k: Kernel, cid: nat, message: Message, mapped: Result<nat>)
    requires ServersOk(k) && mapped != Err(ServerQueueFull)
    requires SendMessage(k, cid, message, mapped).1 == Error(ServerQueueFull)
    ensures SendMessage(k, cid, message, mapped).0 == k && Lookup(k, cid).Ok? &&
            SendParks(k, cid, message, mapped).None?
    ensures Lookup(k, cid).value in k.servers && k.servers[Lookup(k, cid).value].q.emptyCount == 0
  {
    hide SendInner, Activate, Suspend, SetResult, Permitted, ServersOk, Connection;
    var found := Lookup(k, cid);
    var (k1, r) := SendInner(k, k.current, found.value, message, mapped);
    ActivateErrors(if message.IsBlocking() then Suspend(k1, k.current, WaitBlocking)
          else SetResult(k1, k.current, Done));
    assert r == Err(ServerQueueFull);
    assert found.value in k.servers by { PermittedServer(k, cid, found.value, message); }
    SendInnerErrors(k, k.current, found.value, message, mapped);
    SendInnerUnchanged(k, k.current, found.value, message, mapped);
  }

  lemma PermittedServer(k: Kernel, cid: nat, s: nat, message: Message)
    requires Permitted(k, cid, s, message)
    ensures s in k.servers
  {
  }

  lemma SendInnerUnchanged(k: Kernel, sender: Id, s: nat, message: Message, mapped: Result<nat>)
    requires s in k.servers && k.servers[s].q.emptyCount == 0
    ensures SendInner(k, sender, s, message, mapped).0 == k
  {
  }

  lemma RetryParkIpc(k: Kernel, s: nat)
    requires Ipc(k, None) && MaySuspend(k) && s in k.servers && k.servers[s].q.emptyCount == 0
    ensures Ipc(SetState(k, k.current, RetryQueueFull(s, k.servers[s].born)), None)
  {
    var k' := SetState(k, k.current, RetryQueueFull(s, k.servers[s].born));
    IdleUnnamed(k, k.current);
    ThreadChangeIpc(k, k', k.current, None, None);
  }

  /** A sender that found the queue full waits until there is room. */
  lemma RetryParkKeeps(k: Kernel, s: nat)
    requires Inv(k) && MaySuspend(k) && s in k.servers && k.servers[s].q.emptyCount == 0
    ensures var left := SetState(k, k.current, RetryQueueFull(s, k.servers[s].born));
      Ends(k, Activate(left).0, None, Some(left)) && RetriesAt(left, k.current, s) && left.servers == k.servers
  {
    var k' := SetState(k, k.current, RetryQueueFull(s, k.servers[s].born));
    assert k' == k.(threads := k'.threads, rings := k'.rings);
    assert RetriesAt(k', k.current, s) && !k'.inIrq by { assert !k.inIrq; }
    RetryParkIpc(k, s);
    SetStateBase(k, k.current, RetryQueueFull(s, k.servers[s].born));
    OneThreadKeeps(k, k', k.current);
    hide Base, Ipc, IdleOk, ConnsOk, NoStale, Activate, SetState, NoNewWaits, Stays;
    LeaveCall(k, k', None);
  }

  /**
   Sending with patience.  If the queue is full the sender waits at that queue, which is full still,
   and nothing else has happened; otherwise the call is the plain send.
   */
  lemma SendRetryingKeeps(k: Kernel, cid: nat, message: Message, mapped: Result<nat>)
    requires Inv(k) && MaySuspend(k) && mapped != Err(ServerQueueFull)
    ensures var sent, retry := SendParks(k, cid, message, mapped), RetryParks(k, cid, message, mapped);
      && Ends(k, SendMessageRetrying(k, cid, message, mapped).0, if sent.Some? then Some(k.current) else None,
              if retry.Some? then retry else sent)
      && (retry.Some? <==> SendMessage(k, cid, message, mapped).1 == Error(ServerQueueFull))
      && (retry.Some? ==>
            && sent.None? && Lookup(k, cid).Ok? && RetriesAt(retry.value, k.current, Lookup(k, cid).value)
            && retry.value.servers == k.servers && k.servers[Lookup(k, cid).value].q.emptyCount == 0
            && SendMessageRetrying(k, cid, message, mapped) == Activate(retry.value))
      && (retry.None? ==> SendMessageRetrying(k, cid, message, mapped) == SendMessage(k, cid, message, mapped))
  {
    hide Base, Ipc, IdleOk, ConnsOk, NoStale, Activate, Ends, NoNewWaits, Stays, RetriesAt, SetState, SendMessage,
         SendParks, Lookup;
    SendKeeps(k, cid, message, mapped);
    if SendMessage(k, cid, message, mapped).1 == Error(ServerQueueFull) {
      assert ServersOk(k) by { InvServers(k); }
      SendFull(k, cid, message, mapped);
      RetryParkKeeps(k, Lookup(k, cid).value);
    }
  }

  lemma InvServers(k: Kernel)
    requires Inv(k)
    ensures ServersOk(k)
  {
  }

  // ---- Answering --------------------------------------------------------------------------------

  /** The caller of a reply goes on, and the thread that waited for it is ready. */
  lemma AnswerKeeps(k: Kernel, k1: Kernel, x: Option<Id>, value: Reply)
    requires Inv(k) && CurrentOk(k) && Base(k1) && Ipc(k1, None) && Tame(k, k1)
    requires x.Some? ==> AwaitsReply(k1, x.value) && Unnamed(k1, x.value) && !Unnamed(k, x.value)
    ensures var k2 := if x.Some? then WakeWithResult(k1, x.value, value) else k1;
      Keeps(k, Activate(SetResult(k2, k.current, Done)).0)
  {
    hide Base, Ipc, IdleOk, ConnsOk, NoStale, Tame, SetResult, Activate, CurrentOk, WakeWithResult, Unnamed, Keeps;
    var k2 := if x.Some? then WakeWithResult(k1, x.value, value) else k1;
    if x.Some? {
      WakeResultOk(k1, x.value, value);
      AnsweredTame(k, k1, x.value, value);
    }
    ReturnCall(k, k2);
  }

  lemma ReturnResultKeeps(k: Kernel, sidx: nat, idx: nat, value: Reply)
    requires Inv(k) && CurrentOk(k)
    ensures Keeps(k, ReturnResult(k, sidx, idx, value).0)
  {
    hide Base, Ipc, IdleOk, ConnsOk, NoStale, Tame, SetResult, Activate, CurrentOk, WakeWithResult, TakeReply,
         Unnamed, AwaitsReply, NameAt, Keeps;
    TakeReplyOk(k, sidx, idx, None);
    var (k1, r) := TakeReply(k, sidx, idx, None);
    if Answered(r).Some? { SlotNames(k, sidx, idx, Answered(r).value); }
    TameCall(k, k1);
    AnswerKeeps(k, k1, Answered(r), value);
  }

  lemma SlotNames(k: Kernel, s: nat, i: nat, x: Id)
    requires NameAt(k, s, i) == Some(x)
    ensures !Unnamed(k, x)
  {
  }

  lemma ReturnMemoryKeeps(k: Kernel, sidx: nat, idx: nat, buf: (nat, nat), value: Reply, returned: Result<()>)
    requires Inv(k) && CurrentOk(k)
    ensures Keeps(k, ReturnMemory(k, sidx, idx, buf, value, returned).0)
  {
    hide Base, Ipc, IdleOk, ConnsOk, NoStale, Tame, SetResult, Activate, CurrentOk, WakeWithResult, TakeReply,
         Unnamed, AwaitsReply, NameAt, Keeps;
    TakeReplyOk(k, sidx, idx, Some(buf));
    var (k1, r) := TakeReply(k, sidx, idx, Some(buf));
    if Answered(r).Some? { SlotNames(k, sidx, idx, Answered(r).value); }
    TameCall(k, k1);
    AnswerKeeps(k, k1, Answered(r), value);
  }

  // ---- Receiving --------------------------------------------------------------------------------

  lemma ParkIpc(k: Kernel, s: nat)
    requires Base(k) && Ipc(k, None) && MaySuspend(k) && s in k.servers && k.servers[s].q.pid == k.current.pid
    requires k.servers[s].q.headGeneration == k.servers[s].q.tailGeneration
    ensures var e := k.servers[s];
      Ipc(Suspend(SetQueue(k, s, e.q.(readyThreads := e.q.readyThreads + {k.current.tid})), k.current,
              ReceiveMessage(s, e.born)), None)
  {
    var e := k.servers[s];
    var k1 := SetQueue(k, s, e.q.(readyThreads := e.q.readyThreads + {k.current.tid}));
    SuspendExact(k1, k.current, ReceiveMessage(s, e.born));
    ParkedIpc(k, Suspend(k1, k.current, ReceiveMessage(s, e.born)), s, k.current);
  }

  lemma ParkStays(k: Kernel, s: nat)
    requires Base(k) && MaySuspend(k) && s in k.servers
    ensures var e := k.servers[s];
      var k' := Suspend(SetQueue(k, s, e.q.(readyThreads := e.q.readyThreads + {k.current.tid})), k.current,
            ReceiveMessage(s, e.born));
      NoNewWaits(k, k', None) && Stays(k, k') && k'.current == k.current && !IsReady(k', k'.current) &&
          k'.inIrq == k.inIrq
  {
    var e := k.servers[s];
    var k1 := SetQueue(k, s, e.q.(readyThreads := e.q.readyThreads + {k.current.tid}));
    var k' := Suspend(k1, k.current, ReceiveMessage(s, e.born));
    SuspendExact(k1, k.current, ReceiveMessage(s, e.born));
    hide Suspend;
    assert forall r, i :: NameAt(k', r, i) == NameAt(k, r, i);
    assert NoNewWaits(k, k', None);
    hide Base, NoNewWaits, MaySuspend, NameAt;
    StaysRule(k, k');
  }

  lemma ParkRest(k: Kernel, s: nat)
    requires Base(k) && IdleOk(k) && ConnsOk(k) && MaySuspend(k) && s in k.servers
    ensures var e := k.servers[s];
      var k' := Suspend(SetQueue(k, s, e.q.(readyThreads := e.q.readyThreads + {k.current.tid})), k.current,
            ReceiveMessage(s, e.born));
      Base(k') && IdleOk(k') && ConnsOk(k') && !k'.inIrq && (NoStale(k) ==> NoStale(k'))
  {
    var e := k.servers[s];
    var k1 := SetQueue(k, s, e.q.(readyThreads := e.q.readyThreads + {k.current.tid}));
    var k' := Suspend(k1, k.current, ReceiveMessage(s, e.born));
    SetQueueBase(k, s, e.q.(readyThreads := e.q.readyThreads + {k.current.tid}));
    SuspendExact(k1, k.current, ReceiveMessage(s, e.born));
    SuspendBase(k1, k.current, ReceiveMessage(s, e.born));
    hide Suspend;
    assert forall p, c :: ConnAt(k', p, c) == ConnAt(k, p, c);
    assert forall y, r | y != k.current :: ReceivesFrom(k', y, r) <==> ReceivesFrom(k, y, r);
  }

  lemma ReceiveKeeps(k: Kernel, sid: nat, blocking: bool)
    requires Inv(k) && CurrentOk(k) && (blocking ==> MaySuspend(k))
    ensures Ends(k, Receive(k, sid, blocking).0, None, if blocking then ReceiveParks(k, sid) else None)
  {
    hide Base, Ipc, IdleOk, ConnsOk, NoStale, Tame, TakeMessage, SetQueue, Suspend, Activate, CurrentOk, NoNewWaits,
         Stays, Derailed, Ends;
    var s := ServerIndex(k, sid, Some(k.current.pid), 0);
    TameRefl(k);
    TameCall(k, k);
    if s < k.limits.servers {
      TakeMessageOk(k, s, None);
      var (k1, r) := TakeMessage(k, s);
      TameCall(k, k1);
      if r.None? && blocking {
        ParkIpc(k, s);
        ParkRest(k, s);
        ParkStays(k, s);
        var e := k.servers[s];
        LeaveCall(k, Suspend(SetQueue(k, s, e.q.(readyThreads := e.q.readyThreads + {k.current.tid})), k.current,
                ReceiveMessage(s, e.born)), None);
      }
    }
  }
}
