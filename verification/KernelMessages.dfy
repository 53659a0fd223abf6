/** Sending, receiving and answering keep the invariants. */
module KernelMessages {
  import opened Common
  import opened Rings
  import opened ServerQueue
  import opened Fifo
  import opened KernelState
  import opened KernelSteps
  import opened KernelInv
  import opened KernelSched
  import opened KernelWakes
  import opened KernelIpc

  // ---- What message passing leaves alone --------------------------------------------------------

  /** Every suspended receiver still has its server. */
  ghost predicate NoStale(k: Kernel) {
    forall x | x in k.threads && k.threads[x].future.Some? && k.threads[x].future.value.ReceiveMessage? ::
      ReceivesFrom(k, x, k.threads[x].future.value.sidx)
  }

  /** Nobody but `asker` starts to wait for a reply. */
  ghost predicate NoNewWaits(k: Kernel, k': Kernel, asker: Option<Id>) {
    forall x | AwaitsReply(k', x) && asker != Some(x) :: AwaitsReply(k, x)
  }

  predicate TameThread(t: Thread, t': Thread) {
    && (t'.state == t.state || (!t.state.Free? && t'.state.Ready?))
    && (t'.future == t.future || t'.future.None?)
    && (t.future.None? ==> t'.mailbox == t.mailbox)
    && (t'.future.Some? && t.mailbox.Some? ==> t'.mailbox.Some?)
  }

  /** `x` waits for a reply that no slot of any server can bring it. */
  ghost predicate Stranded(k: Kernel, x: Id) {
    AwaitsReply(k, x) && Unnamed(k, x)
  }

  /** `x` waits for the end of a process that is not there. */
  predicate Abandoned(k: Kernel, x: Id) {
    x in k.threads && k.threads[x].mailbox.None? && k.threads[x].future.Some? &&
    k.threads[x].future.value.WaitProcessExit? && k.threads[x].future.value.targetPid !in k.processes
  }

  /** Such a wait goes on, unless the process of `x` has ended or there is one now of the awaited number. */
  predicate WaitsOn(k: Kernel, k': Kernel, x: Id)
    requires Abandoned(k, x)
  {
    x.pid in k'.processes && k.threads[x].future.value.targetPid !in k'.processes ==>
      x in k'.threads && k'.threads[x].future == k.threads[x].future && k'.threads[x].mailbox.None?
  }

  /** Stranded and abandoned threads stay so while their process lives, and the record of a server is kept. */
  ghost predicate Stays(k: Kernel, k': Kernel) {
    && (forall x | Stranded(k, x) && x.pid in k'.processes :: Stranded(k', x))
    && (forall x | Abandoned(k, x) :: WaitsOn(k, k', x))
    && Recorded(k, k')
  }

  /** Of a server that is still there, the histories have only grown. */
  ghost predicate Recorded(k: Kernel, k': Kernel) {
    forall s | s in k.servers && s in k'.servers && k'.servers[s].born == k.servers[s].born ::
      Extends(k.servers[s].q, k'.servers[s].q)
  }

  predicate Extends(q: ServerState, q': ServerState) {
    q.sent <= q'.sent && q.received <= q'.received
  }

  /** `s` has a slot that names `x`. */
  ghost predicate NamedIn(k: Kernel, s: nat, x: Id) {
    exists i :: NameAt(k, s, i) == Some(x)
  }

  /** The step moves messages and wakes threads; it starts no wait and opens or closes nothing. */
  ghost predicate Tame(k: Kernel, k': Kernel) {
    Moves(k, k') && Stays(k, k')
  }

  ghost predicate Moves(k: Kernel, k': Kernel) {
    && k'.limits == k.limits && k'.clock == k.clock && k'.current == k.current && k'.inIrq == k.inIrq
    && SameProcesses(k, k')
    && k'.servers.Keys == k.servers.Keys
    && (forall s | s in k.servers ::
          k'.servers[s].q.pid == k.servers[s].q.pid && k'.servers[s].born == k.servers[s].born)
    && k'.threads.Keys == k.threads.Keys
    && (forall x | x in k.threads :: TameThread(k.threads[x], k'.threads[x]))
  }

  /** Waits go on, and a slot that gets a name gets that of a thread that did not wait. */
  lemma StaysRule(k: Kernel, k': Kernel)
    requires forall x | AwaitsReply(k, x) && x.pid in k'.processes :: AwaitsReply(k', x)
    requires forall s, i | NameAt(k', s, i).Some? && NameAt(k', s, i) != NameAt(k, s, i) ::
               !AwaitsReply(k, NameAt(k', s, i).value)
    requires Recorded(k, k') && forall x | Abandoned(k, x) :: WaitsOn(k, k', x)
    ensures Stays(k, k')
  {
    forall x | Stranded(k, x) && x.pid in k'.processes
      ensures Unnamed(k', x)
    {
      forall s, i
        ensures NameAt(k', s, i) != Some(x)
      {
        assert NameAt(k, s, i) != Some(x);
      }
    }
  }

  lemma TameRefl(k: Kernel)
    ensures Tame(k, k)
  {
  }

  lemma TameTrans(k: Kernel, k1: Kernel, k2: Kernel)
    requires Tame(k, k1) && Tame(k1, k2)
    ensures Tame(k, k2)
  {
    MovesTrans(k, k1, k2);
    assert Recorded(k, k1) && Recorded(k1, k2);
    forall x | Abandoned(k, x)
      ensures WaitsOn(k, k2, x)
    {
      assert WaitsOn(k, k1, x);
      assert Abandoned(k1, x) ==> WaitsOn(k1, k2, x);
    }
    hide Unnamed, Extends, TameThread;
  }

  lemma TameKeeps(k: Kernel, k': Kernel)
    requires Tame(k, k')
    ensures IdleOk(k) ==> IdleOk(k')
    ensures CurrentOk(k) ==> CurrentOk(k')
    ensures NoStale(k) ==> NoStale(k')
    ensures ConnsOk(k) ==> ConnsOk(k')
    ensures NoNewWaits(k, k', None) && Stays(k, k')
  {
    assert forall p, c :: ConnAt(k', p, c) == ConnAt(k, p, c);
    assert IDLE in k.threads ==> TameThread(k.threads[IDLE], k'.threads[IDLE]);
    assert k.current in k.threads ==> TameThread(k.threads[k.current], k'.threads[k.current]);
    forall x | x in k.threads
      ensures TameThread(k.threads[x], k'.threads[x])
    {
    }
  }

  lemma QuietIsTame(k: Kernel, k': Kernel)
    requires Quiet(k, k')
    ensures Tame(k, k')
  {
    assert forall s, i :: NameAt(k', s, i) == NameAt(k, s, i);
    QuietWaits(k, k');
    StaysRule(k, k');
  }

  lemma QuietWaits(k: Kernel, k': Kernel)
    requires k'.threads.Keys == k.threads.Keys && forall x | x in k.threads :: QuietThread(k.threads[x], k'.threads[x])
    ensures forall x | AwaitsReply(k, x) :: AwaitsReply(k', x)
    ensures forall x | Abandoned(k, x) :: WaitsOn(k, k', x)
  {
    forall x | x in k.threads
      ensures QuietThread(k.threads[x], k'.threads[x])
    {
    }
  }

  // ---- Taking from a queue ----------------------------------------------------------------------

  lemma SetQueueBase(k: Kernel, s: nat, q: ServerState)
    requires Base(k) && s in k.servers
    ensures Base(SetQueue(k, s, q))
  {
    SameScheduleBase(k, SetQueue(k, s, q));
  }

  lemma SetQueueWakingBase(k: Kernel, s: nat, q: ServerState)
    requires Base(k) && s in k.servers
    ensures Base(SetQueueWaking(k, s, q))
  {
    SetQueueBase(k, s, q);
    WakeRetryBase(SetQueue(k, s, q), s, 1);
  }

  /** After a full queue gains room, no scanned sender still waits at it. */
  lemma SetQueueWakingRetry(k: Kernel, s: nat, q: ServerState)
    requires Base(k) && RetryOk(k) && s in k.servers
    ensures RetryOkAt(SetQueueWaking(k, s, q), s)
    ensures Quiet(SetQueue(k, s, q), SetQueueWaking(k, s, q))
  {
    var k1 := SetQueue(k, s, q);
    var k' := SetQueueWaking(k, s, q);
    SetQueueBase(k, s, q);
    WakeRetryExact(k1, s);
    forall x | RetriesAt(k', x, s) && 1 <= x.tid && x.tid + 1 < k.limits.threads
      ensures k'.servers[s].q.emptyCount == 0
    {
      assert RetriesAt(k, x, s) && Scanned(k1, x, s);
    }
  }

  /** No slot gets a name. */
  lemma ShrinkStays(k: Kernel, k': Kernel, s: nat)
    requires QueueChange(k, k', s) && NamesShrink(k.servers[s].q.queue, k'.servers[s].q.queue)
    requires Extends(k.servers[s].q, k'.servers[s].q)
    ensures Stays(k, k')
  {
    QuietWaits(k, k');
    forall r, i
      ensures NameAt(k', r, i).Some? ==> NameAt(k', r, i) == NameAt(k, r, i)
    {
    }
    StaysRule(k, k');
  }

  /** Slot `j` gets the name of a thread that did not wait. */
  lemma GrowStays(k: Kernel, k': Kernel, s: nat, j: nat, x: Id)
    requires QueueChange(k, k', s) && NamesGrow(k.servers[s].q.queue, k'.servers[s].q.queue, j, x)
    requires !AwaitsReply(k, x) && Extends(k.servers[s].q, k'.servers[s].q)
    ensures Stays(k, k') && NamedIn(k', s, x)
  {
    QuietWaits(k, k');
    forall r, i
      ensures NameAt(k', r, i) == if r == s && i == j then Some(x) else NameAt(k, r, i)
    {
    }
    assert NameAt(k', s, j) == Some(x);
    StaysRule(k, k');
  }

  lemma SetQueueWakingTame(k: Kernel, s: nat, q: ServerState)
    requires s in k.servers && q.pid == k.servers[s].q.pid && NamesShrink(k.servers[s].q.queue, q.queue)
    requires Extends(k.servers[s].q, q)
    requires Quiet(SetQueue(k, s, q), SetQueueWaking(k, s, q))
    ensures Tame(k, SetQueueWaking(k, s, q))
    ensures SetQueueWaking(k, s, q).servers == k.servers[s := k.servers[s].(q := q)]
  {
    ShrinkStays(k, SetQueueWaking(k, s, q), s);
  }

  lemma SetQueueWakingIpc(k: Kernel, s: nat, q: ServerState, sending: Option<Id>)
    requires Ipc(k, sending) && s in k.servers
    requires QueueOk(q) && q.pid == k.servers[s].q.pid && NamesShrink(k.servers[s].q.queue, q.queue)
    requires q.readyThreads == k.servers[s].q.readyThreads
    requires q.readyThreads != {} ==> q.headGeneration == q.tailGeneration
    requires Quiet(SetQueue(k, s, q), SetQueueWaking(k, s, q)) && RetryOkAt(SetQueueWaking(k, s, q), s)
    ensures Ipc(SetQueueWaking(k, s, q), sending)
  {
    assert QueueChange(k, SetQueueWaking(k, s, q), s);
    QueueShrinkIpc(k, SetQueueWaking(k, s, q), s, sending);
  }

  lemma SetQueueWakingOk(k: Kernel, s: nat, q: ServerState, sending: Option<Id>)
    requires Base(k) && Ipc(k, sending) && s in k.servers && Extends(k.servers[s].q, q)
    requires QueueOk(q) && q.pid == k.servers[s].q.pid && NamesShrink(k.servers[s].q.queue, q.queue)
    requires q.readyThreads == k.servers[s].q.readyThreads
    requires q.readyThreads != {} ==> q.headGeneration == q.tailGeneration
    ensures var k' := SetQueueWaking(k, s, q);
      Base(k') && Ipc(k', sending) && Tame(k, k') && k'.servers == k.servers[s := k.servers[s].(q := q)]
  {
    SetQueueWakingBase(k, s, q);
    SetQueueWakingRetry(k, s, q);
    SetQueueWakingIpc(k, s, q, sending);
    SetQueueWakingTame(k, s, q);
  }

  lemma TakeNextNames(q: ServerState)
    requires QueueOk(q)
    ensures NamesShrink(q.queue, TakeNext(q).1.queue)
    ensures TakeNext(q).1.readyThreads == q.readyThreads && TakeNext(q).1.pid == q.pid && Extends(q, TakeNext(q).1)
  {
  }

  lemma TakeMessageOk(k: Kernel, s: nat, sending: Option<Id>)
    requires Base(k) && Ipc(k, sending) && s in k.servers
    ensures var (k', r) := TakeMessage(k, s);
      && Base(k') && Ipc(k', sending) && Tame(k, k')
      && (r.None? <==> k.servers[s].q.headGeneration == k.servers[s].q.tailGeneration)
      && (r.None? ==> k' == k)
  {
    var q := k.servers[s].q;
    TakeNextFifo(q);
    TakeNextNames(q);
    if TakeNext(q).0.Some? {
      SetQueueWakingOk(k, s, TakeNext(q).1, sending);
    } else {
      TameRefl(k);
    }
  }

  lemma QueueFacts(k: Kernel, s: nat, sending: Option<Id>)
    requires Ipc(k, sending) && s in k.servers
    ensures QueueOk(k.servers[s].q) && |k.servers[s].q.queue| < GENERATIONS && k.servers[s].q.emptyCount >= 0
    ensures k.servers[s].q.readyThreads != {} ==> k.servers[s].q.headGeneration == k.servers[s].q.tailGeneration
  {
  }

  // ---- Answering --------------------------------------------------------------------------------

  /** Who an answer wakes. */
  function Answered(r: Result<WaitingMessage>): Option<Id> {
    match r
    case Ok(BorrowedMemory(p, t, _)) => Some(Id(p, t))
    case Ok(ScalarReply(p, t)) => Some(Id(p, t))
    case _ => None
  }

  /** Answering uses a slot up; nobody else's is touched. */
  lemma AnswerNames(k: Kernel, k': Kernel, s: nat, e: Entry, i: nat, x: Id)
    requires NamesOk(k, None) && s in k.servers && NameAt(k, s, i) == Some(x)
    requires k'.servers == k.servers[s := e] && e.q.queue == k.servers[s].q.queue[i := Empty]
    ensures AwaitsReply(k, x) && Unnamed(k', x)
  {
    forall r, j
      ensures NameAt(k', r, j) != Some(x)
    {
      assert NameAt(k', r, j) == if r == s && i == j then None else NameAt(k, r, j);
    }
  }

  /** The answered thread waited for this answer, still does, and is named by no slot any more. */
  ghost predicate AnsweredOk(k: Kernel, k': Kernel, x: Id) {
    AwaitsReply(k, x) && AwaitsReply(k', x) && Unnamed(k', x)
  }

  lemma TakeReplyNames(k: Kernel, s: nat, i: nat, buf: Option<(nat, nat)>)
    requires NamesOk(k, None) && s in k.servers && QueueOk(k.servers[s].q)
    requires SetQueueWaking(k, s, TakeWaiting(k.servers[s].q, i, buf).1).servers ==
             k.servers[s := k.servers[s].(q := TakeWaiting(k.servers[s].q, i, buf).1)]
    requires Quiet(SetQueue(k, s, TakeWaiting(k.servers[s].q, i, buf).1),
               SetQueueWaking(k, s, TakeWaiting(k.servers[s].q, i, buf).1))
    ensures var (k', r) := TakeReply(k, s, i, buf);
      Answered(r).Some? ==> NameAt(k, s, i) == Answered(r) && AnsweredOk(k, k', Answered(r).value)
  {
    var (k', r) := TakeReply(k, s, i, buf);
    TakeWaitingFifo(k.servers[s].q, i, buf);
    if Answered(r).Some? {
      assert NameAt(k, s, i) == Some(Answered(r).value);
      AnswerNames(k, k', s, k'.servers[s], i, Answered(r).value);
      assert QuietThread(k.threads[Answered(r).value], k'.threads[Answered(r).value]);
    }
  }

  lemma TakeWaitingNames(q: ServerState, i: nat, buf: Option<(nat, nat)>)
    requires QueueOk(q)
    ensures var q' := TakeWaiting(q, i, buf).1;
      && QueueOk(q') && q'.pid == q.pid && q'.readyThreads == q.readyThreads && NamesShrink(q.queue, q'.queue) &&
         Extends(q, q')
      && q'.headGeneration == q.headGeneration && q'.tailGeneration == q.tailGeneration
  {
    TakeWaitingFifo(q, i, buf);
  }

  /** An answer is for a thread that waits for one, and uses its slot up. */
  lemma TakeReplyOk(k: Kernel, s: nat, i: nat, buf: Option<(nat, nat)>)
    requires Base(k) && Ipc(k, None)
    ensures var (k', r) := TakeReply(k, s, i, buf);
      && Base(k') && Ipc(k', None) && Tame(k, k')
      && (Answered(r).Some? ==> NameAt(k, s, i) == Answered(r) && AnsweredOk(k, k', Answered(r).value))
  {
    if s in k.servers && k.servers[s].q.pid == k.current.pid && TakeWaiting(k.servers[s].q, i, buf).0.Ok? {
      TakeReplyStores(k, s, i, buf);
      hide *;
      StoredReplyOk(k, s, i, buf);
    } else {
      TameRefl(k);
    }
  }

  lemma TakeReplyStores(k: Kernel, s: nat, i: nat, buf: Option<(nat, nat)>)
    requires s in k.servers && k.servers[s].q.pid == k.current.pid && TakeWaiting(k.servers[s].q, i, buf).0.Ok?
    ensures var (r, q) := TakeWaiting(k.servers[s].q, i, buf);
      TakeReply(k, s, i, buf) == (SetQueueWaking(k, s, q), r)
  {
  }

  lemma StoredReplyOk(k: Kernel, s: nat, i: nat, buf: Option<(nat, nat)>)
    requires Base(k) && Ipc(k, None) && s in k.servers
    ensures var (r, q) := TakeWaiting(k.servers[s].q, i, buf);
      var k' := SetQueueWaking(k, s, q);
      && Base(k') && Ipc(k', None) && Tame(k, k')
      && (TakeReply(k, s, i, buf) == (k', r) && Answered(r).Some? ==>
          NameAt(k, s, i) == Answered(r) && AnsweredOk(k, k', Answered(r).value))
  {
    assert NamesOk(k, None) && RetryOk(k);
    hide *;
    QueueFacts(k, s, None);
    TakeWaitingNames(k.servers[s].q, i, buf);
    SetQueueWakingOk(k, s, TakeWaiting(k.servers[s].q, i, buf).1, None);
    SetQueueWakingRetry(k, s, TakeWaiting(k.servers[s].q, i, buf).1);
    TakeReplyNames(k, s, i, buf);
  }

  lemma WakeResultBase(k: Kernel, x: Id, r: Reply)
    requires Base(k) && x.tid != IRQ_TID
    ensures Base(WakeWithResult(k, x, r))
  {
    if x in k.threads {
      if k.threads[x].future.Some? {
        SameScheduleBase(k, SetMailbox(k, x, Some(r)));
        WakeBase(SetMailbox(k, x, Some(r)), x);
      } else {
        WakeBase(k, x);
        ResultBase(SetState(k, x, Ready), x, r);
      }
    }
  }

  lemma WakeResultIpc(k: Kernel, x: Id, r: Reply)
    requires Ipc(k, None) && Unnamed(k, x)
    requires x in k.threads && k.threads[x].future.Some? && !k.threads[x].future.value.ReceiveMessage?
    ensures Ipc(WakeWithResult(k, x, r), None)
  {
    assert x.tid != IRQ_TID && !k.threads[x].state.Free?;
    hide Ipc, ThreadOk, ThreadChange, WakeWithResult;
    WakeResultChange(k, x, r);
    ThreadChangeIpc(k, WakeWithResult(k, x, r), x, None, None);
  }

  lemma WakeResultChange(k: Kernel, x: Id, r: Reply)
    requires x in k.threads && k.threads[x].future.Some? && !k.threads[x].future.value.ReceiveMessage?
    requires x.tid != IRQ_TID && !k.threads[x].state.Free?
    ensures var k' := WakeWithResult(k, x, r);
      && ThreadChange(k, k', x) && ThreadOk(k, x, k'.threads[x])
      && (forall s :: ReceivesFrom(k', x, s) <==> ReceivesFrom(k, x, s)) && (forall s :: !RetriesAt(k', x, s))
  {
  }

  /** Only a thread that waited for no reply has changed. */
  lemma WakeOtherStays(k: Kernel, k': Kernel, x: Id)
    requires k'.processes == k.processes && k'.servers == k.servers
    requires forall y | y in k.threads && y != x :: y in k'.threads && k'.threads[y] == k.threads[y]
    requires x in k.threads && k.threads[x].future != Some(WaitBlocking) && !Abandoned(k, x)
    ensures Stays(k, k')
  {
    assert forall s, i :: NameAt(k', s, i) == NameAt(k, s, i);
    StaysRule(k, k');
  }

  lemma WakeResultTame(k: Kernel, x: Id, r: Reply)
    requires x in k.threads && x.tid != IRQ_TID && k.threads[x].future.Some? && !k.threads[x].state.Free?
    ensures Moves(k, WakeWithResult(k, x, r))
    ensures k.threads[x].future != Some(WaitBlocking) && !Abandoned(k, x) ==> Tame(k, WakeWithResult(k, x, r))
  {
    var k' := WakeWithResult(k, x, r);
    WakeResultOthers(k, x, r);
    if k.threads[x].future != Some(WaitBlocking) && !Abandoned(k, x) {
      WakeOtherStays(k, k', x);
    }
  }

  lemma SetStateOthers(k: Kernel, x: Id, state: ThreadState)
    ensures var k' := SetState(k, x, state);
      && k'.processes == k.processes && k'.servers == k.servers
      && (forall y | y in k.threads && y != x :: y in k'.threads && k'.threads[y] == k.threads[y])
  {
    hide RingAdd, RingDrop;
  }

  lemma WakeResultOthers(k: Kernel, x: Id, r: Reply)
    ensures var k' := WakeWithResult(k, x, r);
      && k'.processes == k.processes && k'.servers == k.servers
      && (forall y | y in k.threads && y != x :: y in k'.threads && k'.threads[y] == k.threads[y])
  {
    hide SetState;
    SetStateOthers(k, x, Ready);
    SetStateOthers(SetMailbox(k, x, Some(r)), x, Ready);
  }

  lemma StrandedOthers(k: Kernel, k': Kernel, y: Id)
    requires k'.servers == k.servers && Stranded(k, y)
    requires y in k'.threads && k'.threads[y] == k.threads[y]
    ensures Stranded(k', y)
  {
    assert forall s, i :: NameAt(k', s, i) == NameAt(k, s, i);
  }

  /** An answer reaches a thread that a slot named before, so nobody who was stranded. */
  lemma AnsweredTame(k: Kernel, k1: Kernel, x: Id, r: Reply)
    requires Tame(k, k1) && !Unnamed(k, x) && AwaitsReply(k1, x)
    ensures Tame(k, WakeWithResult(k1, x, r))
  {
    var k2 := WakeWithResult(k1, x, r);
    WakeResultTame(k1, x, r);
    MovesTrans(k, k1, k2);
    hide Moves, WakeWithResult, Unnamed;
    WakeResultOthers(k1, x, r);
    forall y | Stranded(k, y) && y.pid in k2.processes
      ensures Stranded(k2, y)
    {
      StrandedOthers(k1, k2, y);
    }
    forall y | Abandoned(k, y)
      ensures WaitsOn(k, k2, y)
    {
      assert WaitsOn(k, k1, y);
    }
  }

  lemma MovesTrans(k: Kernel, k1: Kernel, k2: Kernel)
    requires Moves(k, k1) && Moves(k1, k2)
    ensures Moves(k, k2)
  {
  }

  /** Delivering a result to a thread that waits for one, and that no slot names (any more). */
  lemma WakeResultOk(k: Kernel, x: Id, r: Reply)
    requires Base(k) && Ipc(k, None) && Unnamed(k, x)
    requires x in k.threads && k.threads[x].future.Some? && !k.threads[x].future.value.ReceiveMessage?
    ensures var k' := WakeWithResult(k, x, r);
      && Base(k') && Ipc(k', None) && Moves(k, k')
      && (k.threads[x].future != Some(WaitBlocking) && !Abandoned(k, x) ==> Tame(k, k'))
  {
    assert x.tid != IRQ_TID && !k.threads[x].state.Free?;
    hide *;
    WakeResultBase(k, x, r);
    WakeResultIpc(k, x, r);
    WakeResultTame(k, x, r);
  }

  lemma ResultOk(k: Kernel, x: Id, r: Reply, sending: Option<Id>)
    requires Base(k) && Ipc(k, sending)
    ensures var k' := SetResult(k, x, r);
      Base(k') && Ipc(k', sending) && Tame(k, k')
  {
    ResultBase(k, x, r);
    ResultQuiet(k, x, r);
    QuietIpc(k, SetResult(k, x, r), sending);
    QuietIsTame(k, SetResult(k, x, r));
  }

  // ---- Sending ----------------------------------------------------------------------------------

  lemma AvailableIsLeast(q: ServerState)
    requires forall t | t in q.readyThreads :: t < MASK_BITS
    ensures AvailableThread(q).None? <==> q.readyThreads == {}
    ensures AvailableThread(q).Some? ==> AvailableThread(q).value in q.readyThreads
  {
  }

  lemma HandOverBase(k: Kernel, x: Id, r: Reply)
    requires Base(k) && x.tid != IRQ_TID
    ensures Base(HandOver(k, x, r))
  {
    FutureBase(k, x, None);
    hide Base, SetState, SetFuture, SetResult;
    WakeBase(SetFuture(k, x, None), x);
    ResultBase(SetState(SetFuture(k, x, None), x, Ready), x, r);
  }

  lemma FutureBase(k: Kernel, x: Id, f: Option<KernelFuture>)
    requires Base(k)
    ensures Base(SetFuture(k, x, f))
  {
    SameScheduleBase(k, SetFuture(k, x, f));
  }

  lemma HandOverExact(k: Kernel, x: Id, r: Reply)
    requires x in k.threads && x.tid != IRQ_TID
    ensures var k' := HandOver(k, x, r);
      && k' == k.(threads := k'.threads, rings := k'.rings)
      && k'.threads == k.threads[x := k.threads[x].(state := Ready, future := None, result := Some(r))]
  {
  }

  lemma HandOverChange(k: Kernel, s: nat, t: nat, r: Reply)
    requires s in k.servers && t != IRQ_TID && Id(k.servers[s].q.pid, t) in k.threads
    requires !k.threads[Id(k.servers[s].q.pid, t)].state.Free? && k.threads[Id(k.servers[s].q.pid, t)].future.Some?
    requires k.threads[Id(k.servers[s].q.pid, t)].future.value.ReceiveMessage?
    ensures var q := k.servers[s].q;
      var x := Id(q.pid, t);
      var k' := HandOver(SetQueue(k, s, q.(readyThreads := q.readyThreads - {t})), x, r);
      && Tame(k, k') && MaskChange(k, k', s, x, q.readyThreads - {t})
      && k'.threads[x] == k.threads[x].(state := Ready, future := None, result := Some(r))
  {
    var q := k.servers[s].q;
    var k' := HandOver(SetQueue(k, s, q.(readyThreads := q.readyThreads - {t})), Id(q.pid, t), r);
    HandOverExact(SetQueue(k, s, q.(readyThreads := q.readyThreads - {t})), Id(q.pid, t), r);
    hide HandOver, Moves, Stays, MaskChange, TameThread;
    assert TameThread(k.threads[Id(q.pid, t)], k'.threads[Id(q.pid, t)]) by { HandedTame(k.threads[Id(q.pid, t)], r); }
    HandOverMoves(k, k', s, Id(q.pid, t));
    HandOverStays(k, k', s, Id(q.pid, t));
  }

  lemma HandedTame(t: Thread, r: Reply)
    requires !t.state.Free? && t.future.Some?
    ensures TameThread(t, t.(state := Ready, future := None, result := Some(r)))
  {
  }

  lemma HandOverMoves(k: Kernel, k': Kernel, s: nat, x: Id)
    requires s in k.servers && k' == k.(servers := k'.servers, threads := k'.threads, rings := k'.rings)
    requires k'.servers ==
             SetQueue(k, s, k.servers[s].q.(readyThreads := k.servers[s].q.readyThreads - {x.tid})).servers
    requires x in k.threads && x in k'.threads && k'.threads == k.threads[x := k'.threads[x]] &&
             TameThread(k.threads[x], k'.threads[x])
    ensures Moves(k, k') && MaskChange(k, k', s, x, k.servers[s].q.readyThreads - {x.tid})
  {
  }

  /** A thread that waited for no reply has changed, and the set of threads parked on a server. */
  lemma HandOverStays(k: Kernel, k': Kernel, s: nat, x: Id)
    requires s in k.servers
    requires k'.servers ==
             SetQueue(k, s, k.servers[s].q.(readyThreads := k.servers[s].q.readyThreads - {x.tid})).servers
    requires x in k.threads && x in k'.threads && k'.threads == k.threads[x := k'.threads[x]]
    requires k.threads[x].future != Some(WaitBlocking) && !Abandoned(k, x)
    ensures Stays(k, k')
  {
    assert forall s, i :: NameAt(k', s, i) == NameAt(k, s, i);
    StaysRule(k, k');
  }

  /** A parked thread is given a message directly. */
  lemma HandOverOk(k: Kernel, s: nat, t: nat, r: Reply)
    requires Base(k) && Ipc(k, None) && s in k.servers && t in k.servers[s].q.readyThreads
    ensures var q := k.servers[s].q;
      var k' := HandOver(SetQueue(k, s, q.(readyThreads := q.readyThreads - {t})), Id(q.pid, t), r);
      Base(k') && Ipc(k', None) && Tame(k, k')
  {
    var q := k.servers[s].q;
    var x := Id(q.pid, t);
    assert ReceivesFrom(k, x, s) && t != IRQ_TID;
    assert k.threads[x].mailbox.None? && !k.threads[x].state.Free? && k.threads[x].future.Some?;
    assert k.threads[x].future.value.ReceiveMessage?;
    hide *;
    HandOverChange(k, s, t, r);
    TakenIpc(k, HandOver(SetQueue(k, s, q.(readyThreads := q.readyThreads - {t})), x, r), s, x);
    SetQueueBase(k, s, q.(readyThreads := q.readyThreads - {t}));
    HandOverBase(SetQueue(k, s, q.(readyThreads := q.readyThreads - {t})), x, r);
  }

  lemma FillNames(q: ServerState, slot: Result<QueuedMessage>)
    requires QueueOk(q)
    ensures var (r, q') := Fill(q, slot);
      && (r.Ok? ==>
            slot.Ok? && r.value < |q.queue| && q.queue[r.value].Empty? && q'.queue == q.queue[r.value := slot.value])
      && (r.Err? ==> q'.queue == q.queue)
      && q'.readyThreads == q.readyThreads && q'.pid == q.pid && q'.emptyCount <= q.emptyCount
      && q'.headGeneration == q.headGeneration && q'.tailGeneration == q.tailGeneration && Extends(q, q')
  {
  }

  /** A queue that gains a message (or only moves a hint) keeps waiting senders where they belong. */
  lemma FilledRetry(k: Kernel, s: nat, q: ServerState)
    requires RetryOk(k) && s in k.servers && 0 <= q.emptyCount <= k.servers[s].q.emptyCount
    ensures RetryOkAt(SetQueue(k, s, q), s)
  {
  }

  lemma SetQueueChange(k: Kernel, s: nat, q: ServerState)
    requires s in k.servers && q.pid == k.servers[s].q.pid && |q.queue| == |k.servers[s].q.queue|
    ensures QueueChange(k, SetQueue(k, s, q), s) && Moves(k, SetQueue(k, s, q))
  {
  }

  /** Storing a queue in which slot `j` may now hold a message of `sender`. */
  lemma FilledOk(k: Kernel, s: nat, q: ServerState, j: nat, sender: Id)
    requires Base(k) && Ipc(k, None) && s in k.servers && QueueOk(q) && q.pid == k.servers[s].q.pid
    requires Extends(k.servers[s].q, q)
    requires 0 <= q.emptyCount <= k.servers[s].q.emptyCount && |q.queue| == |k.servers[s].q.queue|
    requires q.readyThreads == k.servers[s].q.readyThreads
    requires q.readyThreads != {} ==> q.headGeneration == q.tailGeneration
    requires NamesShrink(k.servers[s].q.queue, q.queue) ||
             (Unnamed(k, sender) && !AwaitsReply(k, sender) && NamesGrow(k.servers[s].q.queue, q.queue, j, sender))
    ensures Ipc(SetQueue(k, s, q), if NamesShrink(k.servers[s].q.queue, q.queue) then None else Some(sender))
    ensures Base(SetQueue(k, s, q)) && Tame(k, SetQueue(k, s, q))
    ensures !NamesShrink(k.servers[s].q.queue, q.queue) ==> NamedIn(SetQueue(k, s, q), s, sender)
  {
    assert RetryOk(k);
    hide *;
    assert Tame(k, SetQueue(k, s, q)) <==> Moves(k, SetQueue(k, s, q)) && Stays(k, SetQueue(k, s, q)) by {
      TameParts(k, SetQueue(k, s, q));
    }
    SetQueueBase(k, s, q);
    FilledRetry(k, s, q);
    SetQueueChange(k, s, q);
    assert SetQueue(k, s, q).servers[s] == k.servers[s].(q := q) by { SetQueueAt(k, s, q); }
    if NamesShrink(k.servers[s].q.queue, q.queue) {
      QueueShrinkIpc(k, SetQueue(k, s, q), s, None);
      ShrinkStays(k, SetQueue(k, s, q), s);
    } else {
      QueueGrowIpc(k, SetQueue(k, s, q), s, j, sender);
      GrowStays(k, SetQueue(k, s, q), s, j, sender);
    }
  }

  lemma TameParts(k: Kernel, k': Kernel)
    ensures Tame(k, k') <==> Moves(k, k') && Stays(k, k')
  {
  }

  lemma SetQueueAt(k: Kernel, s: nat, q: ServerState)
    requires s in k.servers
    ensures s in SetQueue(k, s, q).servers && SetQueue(k, s, q).servers[s] == k.servers[s].(q := q)
  {
  }

  // ---- The sending step -------------------------------------------------------------------------

  /** Remembering a message that was handed over directly: the sender is named by the slot it got. */
  lemma RememberOk(k: Kernel, s: nat, sender: Id, m: Message, addr: Option<nat>)
    requires Base(k) && Ipc(k, None) && s in k.servers && Unnamed(k, sender) && !AwaitsReply(k, sender) &&
             m.IsBlocking()
    ensures var (r, q) := QueueResponse(k.servers[s].q, sender.pid, sender.tid, m, addr);
      && Base(SetQueue(k, s, q)) && Tame(k, SetQueue(k, s, q))
      && Ipc(SetQueue(k, s, q), if r.Ok? then Some(sender) else None)
      && (r.Ok? ==> NamedIn(SetQueue(k, s, q), s, sender))
  {
    hide Base, Ipc, Tame, SetQueue, Unnamed, AwaitsReply, NamedIn, QueueOk;
    var q0 := k.servers[s].q;
    QueueFacts(k, s, None);
    var (r, q) := QueueResponse(q0, sender.pid, sender.tid, m, addr);
    var slot := ResponseSlot(sender.pid, sender.tid, m, addr);
    QueueResponseFifo(q0, sender.pid, sender.tid, m, addr);
    FillNames(q0, slot);
    EmptySlotFound(q0);
    if r.Ok? {
      assert slot.value.Names() == Some(sender);
      assert NamesGrow(q0.queue, q.queue, r.value, sender);
      assert q.queue[r.value].Names() != q0.queue[r.value].Names();
    }
    assert 0 <= q.emptyCount by { CountEmptyBound(q); }
    FilledOk(k, s, q, if r.Ok? then r.value else 0, sender);
  }

  lemma CountEmptyBound(q: ServerState)
    requires QueueOk(q)
    ensures q.emptyCount >= 0
  {
  }

  lemma EnqueueNames(q: ServerState, sender: Id, m: Message, addr: Option<nat>)
    requires QueueOk(q) && |q.queue| < GENERATIONS
    ensures var (r, q') := QueueMessage(q, sender.pid, sender.tid, m, addr);
      && QueueOk(q') && q'.pid == q.pid && 0 <= q'.emptyCount <= q.emptyCount && |q'.queue| == |q.queue|
      && q'.readyThreads == q.readyThreads && Extends(q, q')
      && (if r.Ok? && m.IsBlocking()
          then NamesGrow(q.queue, q'.queue, r.value, sender) && !NamesShrink(q.queue, q'.queue)
          else NamesShrink(q.queue, q'.queue))
  {
    var (r, q') := QueueMessage(q, sender.pid, sender.tid, m, addr);
    GenerationsSuffice(q);
    QueueMessageFifo(q, sender.pid, sender.tid, m, addr);
    FillNames(q, QueuedSlot(sender.pid, sender.tid, q.tailGeneration, m, addr));
    EmptySlotFound(q);
    if r.Ok? && m.IsBlocking() {
      assert q'.queue[r.value].Names() == Some(sender) && q.queue[r.value].Names() == None;
    }
  }

  /** Queueing a message: a blocking sender is named by the slot it got. */
  lemma EnqueueOk(k: Kernel, s: nat, sender: Id, m: Message, addr: Option<nat>)
    requires Base(k) && Ipc(k, None) && s in k.servers && k.servers[s].q.readyThreads == {}
    requires m.IsBlocking() ==> Unnamed(k, sender) && !AwaitsReply(k, sender)
    ensures var (r, q) := QueueMessage(k.servers[s].q, sender.pid, sender.tid, m, addr);
      && Base(SetQueue(k, s, q)) && Tame(k, SetQueue(k, s, q))
      && Ipc(SetQueue(k, s, q), if r.Ok? && m.IsBlocking() then Some(sender) else None)
      && (r.Ok? && m.IsBlocking() ==> NamedIn(SetQueue(k, s, q), s, sender))
  {
    var q0 := k.servers[s].q;
    assert QueueOk(q0) && |q0.queue| < GENERATIONS;
    hide *;
    EnqueueNames(q0, sender, m, addr);
    var (r, q) := QueueMessage(q0, sender.pid, sender.tid, m, addr);
    FilledOk(k, s, q, if r.Ok? then r.value else 0, sender);
  }

  lemma PostOk(k: Kernel, pid: nat, bits: set<nat>, sending: Option<Id>)
    requires Base(k) && Ipc(k, sending)
    ensures var k' := PostBits(k, pid, bits);
      Base(k') && Ipc(k', sending) && Tame(k, k')
  {
    hide *;
    PostBitsBase(k, pid, bits);
    PostBitsQuiet(k, pid, bits);
    QuietIpc(k, PostBits(k, pid, bits), sending);
    QuietIsTame(k, PostBits(k, pid, bits));
  }

  lemma PostNames(k: Kernel, pid: nat, bits: set<nat>, s: nat, x: Id)
    ensures NamedIn(k, s, x) ==> NamedIn(PostBits(k, pid, bits), s, x)
  {
    PostBitsQuiet(k, pid, bits);
    assert forall i :: NameAt(PostBits(k, pid, bits), s, i) == NameAt(k, s, i);
  }

  /** A thread without an unfinished call is named by no slot. */
  lemma IdleUnnamed(k: Kernel, x: Id)
    requires NamesOk(k, None) && (x in k.threads ==> k.threads[x].future != Some(WaitBlocking))
    ensures Unnamed(k, x) && !AwaitsReply(k, x)
  {
  }

  lemma HandOverCommutes(k: Kernel, s: nat, q1: ServerState, q2: ServerState, x: Id, r: Reply)
    requires s in k.servers
    ensures s in HandOver(SetQueue(k, s, q1), x, r).servers && HandOver(SetQueue(k, s, q1), x, r).servers[s].q == q1
    ensures HandOver(SetQueue(k, s, q2), x, r) == SetQueue(HandOver(SetQueue(k, s, q1), x, r), s, q2)
  {
    var k1 := SetQueue(k, s, q1);
    assert SetQueue(k, s, q2) == SetQueue(k1, s, q2);
    hide SetState;
    StateCommutes(SetFuture(k1, x, None), s, q2, x, Ready);
  }

  lemma StateCommutes(k: Kernel, s: nat, q: ServerState, x: Id, state: ThreadState)
    requires s in k.servers
    ensures SetState(k, x, state).servers == k.servers
    ensures SetState(SetQueue(k, s, q), x, state) == SetQueue(SetState(k, x, state), s, q)
  {
  }

  lemma ResponseCommutes(q: ServerState, m: Message, pid: nat, tid: nat, m': Message, addr: Option<nat>)
    ensures var (r, q') := QueueResponse(q, pid, tid, m', addr);
      QueueResponse(Passed(q, m), pid, tid, m', addr) == (r, Passed(q', m))
  {
  }

  /** Recording a message that is handed over directly: nothing was pending. */
  lemma PassedOk(k: Kernel, s: nat, m: Message)
    requires Base(k) && Ipc(k, None) && s in k.servers && k.servers[s].q.readyThreads != {}
    ensures var k' := SetQueue(k, s, Passed(k.servers[s].q, m));
      && Base(k') && Ipc(k', None) && Tame(k, k')
      && k'.threads == k.threads && s in k'.servers && k'.servers[s].q == Passed(k.servers[s].q, m)
  {
    var q := k.servers[s].q;
    assert QueueOk(Passed(q, m)) by {
      assert Pending(q) == [] && Pending(Passed(q, m)) == [];
    }
    assert NamesShrink(q.queue, Passed(q, m).queue);
    assert q.emptyCount >= 0;
    FilledOk(k, s, Passed(q, m), 0, IDLE);
  }

  lemma SetQueueTwice(k: Kernel, s: nat, q1: ServerState, q2: ServerState)
    requires s in k.servers
    ensures s in SetQueue(k, s, q1).servers && SetQueue(SetQueue(k, s, q1), s, q2) == SetQueue(k, s, q2)
  {
  }

  /** A parked thread is given a message, and both happen at once in the history. */
  lemma PassOk(k: Kernel, s: nat, t: nat, r: Reply, m: Message)
    requires Base(k) && Ipc(k, None) && s in k.servers && t in k.servers[s].q.readyThreads
    ensures var q := k.servers[s].q;
      var k' := HandOver(SetQueue(k, s, Passed(q.(readyThreads := q.readyThreads - {t}), m)), Id(q.pid, t), r);
      Base(k') && Ipc(k', None) && Tame(k, k')
  {
    var q := k.servers[s].q;
    var k0 := SetQueue(k, s, Passed(q, m));
    hide Base, Ipc, Tame, SetQueue, HandOver;
    PassedOk(k, s, m);
    HandOverOk(k0, s, t, r);
    SetQueueTwice(k, s, Passed(q, m), Passed(q.(readyThreads := q.readyThreads - {t}), m));
    TameTrans(k, k0, HandOver(SetQueue(k, s, Passed(q.(readyThreads := q.readyThreads - {t}), m)), Id(q.pid, t), r));
  }

  /** The direct hand-over of a blocking message. */
  lemma HandOverBlocking(k: Kernel, s: nat, t: nat, sender: Id, m: Message, addr: Option<nat>)
    requires Base(k) && Ipc(k, None) && s in k.servers && t in k.servers[s].q.readyThreads && m.IsBlocking()
    requires sender in k.threads && k.threads[sender].future.None?
    requires QueueResponse(k.servers[s].q.(readyThreads := k.servers[s].q.readyThreads - {t}), sender.pid, sender.tid,
               m, addr).0.Ok?
    ensures var q := k.servers[s].q;
      var (r, q2) := QueueResponse(q.(readyThreads := q.readyThreads - {t}), sender.pid, sender.tid, m, addr);
      var k' := HandOver(SetQueue(k, s, Passed(q2, m)), Id(q.pid, t), Delivered(s, Envelope(sender.pid, r.value, m)));
      Base(k') && Ipc(k', Some(sender)) && Tame(k, k') && NamedIn(k', s, sender)
  {
    var q := k.servers[s].q;
    var q1 := q.(readyThreads := q.readyThreads - {t});
    var (r, q2) := QueueResponse(q1, sender.pid, sender.tid, m, addr);
    var x, d := Id(q.pid, t), Delivered(s, Envelope(sender.pid, r.value, m));
    var k1 := HandOver(SetQueue(k, s, Passed(q1, m)), x, d);
    PassOk(k, s, t, d, m);
    assert TameThread(k.threads[sender], k1.threads[sender]);
    IdleUnnamed(k1, sender);
    hide *;
    HandOverCommutes(k, s, Passed(q1, m), Passed(q2, m), x, d);
    ResponseCommutes(q1, m, sender.pid, sender.tid, m, addr);
    RememberOk(k1, s, sender, m, addr);
    TameTrans(k, k1, SetQueue(k1, s, Passed(q2, m)));
  }

  /** Who a successful send leaves named. */
  function Sending(r: Result<()>, sender: Id, message: Message): Option<Id> {
    if r.Ok? && message.IsBlocking() then Some(sender) else None
  }

  /** A hand-over that could not be remembered leaves the thread parked; only a hint moves. */
  lemma HandOverRefused(k: Kernel, s: nat, t: nat, sender: Id, m: Message, addr: Option<nat>)
    requires Base(k) && Ipc(k, None) && s in k.servers
    requires QueueResponse(k.servers[s].q.(readyThreads := k.servers[s].q.readyThreads - {t}), sender.pid, sender.tid,
               m, addr).0.Err?
    ensures var q := k.servers[s].q;
      var (r, q2) := QueueResponse(q.(readyThreads := q.readyThreads - {t}), sender.pid, sender.tid, m, addr);
      var k' := SetQueue(k, s, q2.(readyThreads := q.readyThreads));
      Base(k') && Ipc(k', None) && Tame(k, k')
  {
    hide Base, Ipc, Tame, SetQueue, QueueOk, Unnamed, AwaitsReply;
    var q := k.servers[s].q;
    QueueFacts(k, s, None);
    var q1 := q.(readyThreads := q.readyThreads - {t});
    MaskQueueOk(q, q1.readyThreads);
    QueueResponseFifo(q1, sender.pid, sender.tid, m, addr);
    FillNames(q1, ResponseSlot(sender.pid, sender.tid, m, addr));
    var q2 := QueueResponse(q1, sender.pid, sender.tid, m, addr).1;
    MaskQueueOk(q2, q.readyThreads);
    CountEmptyBound(q2);
    FilledOk(k, s, q2.(readyThreads := q.readyThreads), 0, sender);
  }

  lemma SendDirect(k: Kernel, sender: Id, s: nat, message: Message, mapped: Result<nat>)
    requires Base(k) && Ipc(k, None) && s in k.servers && AvailableThread(k.servers[s].q).Some?
    requires AvailableThread(k.servers[s].q).value in k.servers[s].q.readyThreads
    requires message.IsBlocking() ==> sender in k.threads && k.threads[sender].future.None?
    ensures var (k', r) := SendInner(k, sender, s, message, mapped);
      && Base(k') && Ipc(k', Sending(r, sender, message)) && Tame(k, k')
      && (Sending(r, sender, message).Some? ==> NamedIn(k', s, sender))
  {
    hide Base, Ipc, Tame, HandOver, SetQueue, QueueResponse, AvailableThread, ClientAddress;
    TameRefl(k);
    var q := k.servers[s].q;
    var translated := Translate(message, mapped);
    if q.emptyCount != 0 && translated.Ok? {
      var t, m := AvailableThread(q).value, translated.value;
      var q1 := q.(readyThreads := q.readyThreads - {t});
      if !m.IsBlocking() {
        PassOk(k, s, t, Delivered(s, Envelope(sender.pid, 0, m)), m);
      } else if QueueResponse(q1, sender.pid, sender.tid, m, ClientAddress(message)).0.Err? {
        HandOverRefused(k, s, t, sender, m, ClientAddress(message));
      } else {
        HandOverBlocking(k, s, t, sender, m, ClientAddress(message));
      }
    }
  }

  lemma EnqueuePosted(k: Kernel, s: nat, sender: Id, m: Message, addr: Option<nat>)
    requires Base(k) && Ipc(k, None) && s in k.servers && k.servers[s].q.readyThreads == {}
    requires m.IsBlocking() ==> sender in k.threads && k.threads[sender].future.None?
    ensures var (r, q) := QueueMessage(k.servers[s].q, sender.pid, sender.tid, m, addr);
      var k1 := SetQueue(k, s, q);
      var k' := if r.Ok? then PostBits(k1, k.servers[s].q.pid, {EVENT_SERVER_MSG}) else k1;
      && Base(k') && Ipc(k', if r.Ok? && m.IsBlocking() then Some(sender) else None) && Tame(k, k')
      && (r.Ok? && m.IsBlocking() ==> NamedIn(k', s, sender))
  {
    if m.IsBlocking() { IdleUnnamed(k, sender); }
    hide *;
    EnqueueOk(k, s, sender, m, addr);
    var (r, q) := QueueMessage(k.servers[s].q, sender.pid, sender.tid, m, addr);
    var k1 := SetQueue(k, s, q);
    PostNames(k1, k.servers[s].q.pid, {EVENT_SERVER_MSG}, s, sender);
    PostOk(k1, k.servers[s].q.pid, {EVENT_SERVER_MSG}, if r.Ok? && m.IsBlocking() then Some(sender) else None);
    TameTrans(k, k1, PostBits(k1, k.servers[s].q.pid, {EVENT_SERVER_MSG}));
  }

  lemma SendQueued(k: Kernel, sender: Id, s: nat, message: Message, mapped: Result<nat>)
    requires Base(k) && Ipc(k, None) && s in k.servers && AvailableThread(k.servers[s].q).None?
    requires k.servers[s].q.readyThreads == {}
    requires message.IsBlocking() ==> sender in k.threads && k.threads[sender].future.None?
    ensures var (k', r) := SendInner(k, sender, s, message, mapped);
      && Base(k') && Ipc(k', Sending(r, sender, message)) && Tame(k, k')
      && (Sending(r, sender, message).Some? ==> NamedIn(k', s, sender))
  {
    hide Base, Ipc, Tame, SetQueue, PostBits, QueueMessage, AvailableThread, ClientAddress;
    TameRefl(k);
    var translated := Translate(message, mapped);
    if k.servers[s].q.emptyCount != 0 && translated.Ok? {
      var q := k.servers[s].q;
      EnqueuePosted(k, s, sender, translated.value, ClientAddress(message));
      var (r, q1) := QueueMessage(q, sender.pid, sender.tid, translated.value, ClientAddress(message));
      assert SendInner(k, sender, s, message, mapped).0 ==
             if r.Ok? then PostBits(SetQueue(k, s, q1), q.pid, {EVENT_SERVER_MSG}) else SetQueue(k, s, q1);
    }
  }

  /** A message is either handed over directly or queued; a blocking sender ends up named by exactly one slot. */
  lemma SendInnerOk(k: Kernel, sender: Id, s: nat, message: Message, mapped: Result<nat>)
    requires Base(k) && Ipc(k, None)
    requires message.IsBlocking() ==> sender in k.threads && k.threads[sender].future.None?
    ensures var (k', r) := SendInner(k, sender, s, message, mapped);
      && Base(k') && Ipc(k', Sending(r, sender, message)) && Tame(k, k')
      && (Sending(r, sender, message).Some? ==> NamedIn(k', s, sender))
  {
    if s !in k.servers {
      TameRefl(k);
    } else {
      AvailableIsLeast(k.servers[s].q);
      hide *;
      if k.servers[s].q.readyThreads == {} {
        SendQueued(k, sender, s, message, mapped);
      } else {
        SendDirect(k, sender, s, message, mapped);
      }
    }
  }
}
