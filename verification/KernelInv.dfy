/** What every step of the kernel keeps. */
module KernelInv {
  import opened Common
  import opened Rings
  import opened ServerQueue
  import opened KernelState

  // ---- The tables -------------------------------------------------------------------------------

  /** Every live process has all its threads, and nothing lies outside the tables. */
  ghost predicate Shape(k: Kernel) {
    && |k.rings| == NUM_PRIORITIES
    && 2 <= k.limits.threads <= MASK_BITS
    && (forall x | x in k.threads ::
          x.pid in k.processes && x.tid < k.limits.threads && k.threads[x].priority < NUM_PRIORITIES)
    && (forall p, t | p in k.processes && 0 <= t < k.limits.threads :: Id(p, t) in k.threads)
    && (forall p | p in k.processes ::
          1 <= p <= k.limits.processes && |k.processes[p].connections| == k.limits.connections)
  }

  predicate IsReady(k: Kernel, x: Id) {
    x in k.threads && k.threads[x].state.Ready?
  }

  predicate InRing(k: Kernel, p: nat, x: Id) {
    p < |k.rings| && x in k.rings[p]
  }

  predicate BelongsIn(k: Kernel, p: nat, x: Id) {
    IsReady(k, x) && x.tid != IRQ_TID && k.threads[x].priority == p
  }

  /** A thread other than an interrupt thread is linked iff it is ready: once, in the ring of its priority. */
  ghost predicate Coupled(k: Kernel) {
    && (forall p | 0 <= p < |k.rings| :: NoDup(k.rings[p]))
    && (forall p: nat, x: Id :: InRing(k, p, x) <==> BelongsIn(k, p, x))
  }

  /** The scheduler is in interrupt mode iff an interrupt thread is ready, and then there is only one. */
  ghost predicate IrqCoupled(k: Kernel) {
    && (k.inIrq <==> exists p :: IsReady(k, Id(p, IRQ_TID)))
    && (forall p, q | IsReady(k, Id(p, IRQ_TID)) && IsReady(k, Id(q, IRQ_TID)) :: p == q)
  }

  ghost predicate ServersOk(k: Kernel) {
    forall s | s in k.servers ::
      && s < k.limits.servers && k.servers[s].q.pid in k.processes && k.servers[s].born < k.clock
      && QueueOk(k.servers[s].q) && |k.servers[s].q.queue| < GENERATIONS
  }

  /** The idle thread never leaves the run queue, and its process cannot be terminated. */
  ghost predicate IdleOk(k: Kernel) {
    && IsReady(k, IDLE) && k.threads[IDLE].future.None?
    && KERNEL_PID in k.processes && k.processes[KERNEL_PID].ppid == Some(KERNEL_PID)
  }

  /** A free thread carries nothing over to the next thread with its index; an interrupt thread never waits. */
  ghost predicate CleanOk(k: Kernel) {
    forall x | x in k.threads && (k.threads[x].state.Free? || x.tid == IRQ_TID) ::
      && k.threads[x].future.None? && k.threads[x].mailbox.None?
      && (k.threads[x].state.Free? || k.threads[x].state.Ready?)
  }

  // ---- Blocking calls ---------------------------------------------------------------------------

  /** The thread named by slot `i` of server `s`. */
  function NameAt(k: Kernel, s: nat, i: nat): Option<Id> {
    if s in k.servers && i < |k.servers[s].q.queue| then k.servers[s].q.queue[i].Names() else None
  }

  /** `x` is suspended in a blocking call that nobody has answered. */
  predicate AwaitsReply(k: Kernel, x: Id) {
    x in k.threads && x.tid != IRQ_TID && !k.threads[x].state.Free? &&
    k.threads[x].future == Some(WaitBlocking) && k.threads[x].mailbox.None?
  }

  /**
   Each slot that would wake a thread names one that waits for it, except that `sending` may be
   named already while its call is under way; and no two slots name the same thread.
   */
  ghost predicate NamesOk(k: Kernel, sending: Option<Id>) {
    && (forall s, i | NameAt(k, s, i).Some? && NameAt(k, s, i) != sending :: AwaitsReply(k, NameAt(k, s, i).value))
    && (forall s, i, s', i' | NameAt(k, s, i).Some? && NameAt(k, s, i) == NameAt(k, s', i') :: s == s' && i == i')
  }

  ghost predicate Unnamed(k: Kernel, x: Id) {
    forall s, i :: NameAt(k, s, i) != Some(x)
  }

  /** A mailbox is filled only for a future that looks into it. */
  ghost predicate MailOk(k: Kernel) {
    forall x | x in k.threads && k.threads[x].mailbox.Some? ::
      k.threads[x].future.Some? && !k.threads[x].future.value.ReceiveMessage?
  }

  // ---- Receivers --------------------------------------------------------------------------------

  /** `x` waits for a message of the present server `s`, not of an earlier one with that index. */
  predicate ReceivesFrom(k: Kernel, x: Id, s: nat) {
    x in k.threads && s in k.servers && k.threads[x].future == Some(ReceiveMessage(s, k.servers[s].born))
  }

  /** A thread's bit is set iff it waits for a message of that server, and then nothing is pending there. */
  ghost predicate ReceiversOk(k: Kernel) {
    && (forall s, t | s in k.servers && t in k.servers[s].q.readyThreads ::
          t != IRQ_TID && t < MASK_BITS && ReceivesFrom(k, Id(k.servers[s].q.pid, t), s))
    && (forall x, s | ReceivesFrom(k, x, s) :: x.pid == k.servers[s].q.pid && x.tid in k.servers[s].q.readyThreads)
    && (forall s | s in k.servers && k.servers[s].q.readyThreads != {} ::
          k.servers[s].q.headGeneration == k.servers[s].q.tailGeneration)
  }

  // ---- Back-pressure ----------------------------------------------------------------------------

  /** `x` waits for room in the queue of the present server `s`. */
  predicate RetriesAt(k: Kernel, x: Id, s: nat) {
    x in k.threads && s in k.servers && k.threads[x].state == RetryQueueFull(s, k.servers[s].born)
  }

  /** A sender within the scanned range that waits for room waits at a queue that is full. */
  ghost predicate RetryOk(k: Kernel) {
    forall x, s | RetriesAt(k, x, s) && 1 <= x.tid && x.tid + 1 < k.limits.threads :: k.servers[s].q.emptyCount == 0
  }

  // ---- Connections ------------------------------------------------------------------------------

  /** Slot `c` of process `p`. */
  function ConnAt(k: Kernel, p: nat, c: nat): ConnectionSlot {
    if p in k.processes && c < |k.processes[p].connections| then k.processes[p].connections[c] else FreeSlot
  }

  /** A connected slot leads to the server it was opened to, and a process has one per server. */
  ghost predicate ConnsOk(k: Kernel) {
    && (forall p, c | ConnAt(k, p, c).Connected? ::
          ConnAt(k, p, c).sidx in k.servers && k.servers[ConnAt(k, p, c).sidx].born == ConnAt(k, p, c).born)
    && (forall p, c, d | ConnAt(k, p, c).Connected? && ConnAt(k, p, d).Connected? &&
                         ConnAt(k, p, c).sidx == ConnAt(k, p, d).sidx :: c == d)
    && (forall p, c | !ConnAt(k, p, c).FreeSlot? :: ConnAt(k, p, c).refcount >= 1)
  }

  /** Stamps lie in the past, so that no waiting thread is mistaken for one of a future server. */
  ghost predicate StampsOk(k: Kernel) {
    forall x | x in k.threads ::
      && (k.threads[x].state.RetryQueueFull? ==> k.threads[x].state.born < k.clock)
      && (k.threads[x].future.Some? && k.threads[x].future.value.ReceiveMessage? ==>
          k.threads[x].future.value.born < k.clock)
  }

  // ---- Together ---------------------------------------------------------------------------------

  /** What the scheduler needs. */
  ghost predicate Base(k: Kernel) {
    Shape(k) && Coupled(k) && IrqCoupled(k)
  }

  /** What the inter-process communication needs. */
  ghost predicate Ipc(k: Kernel, sending: Option<Id>) {
    && ServersOk(k) && CleanOk(k) && NamesOk(k, sending) && MailOk(k)
    && ReceiversOk(k) && RetryOk(k) && StampsOk(k)
  }

  ghost predicate Inv(k: Kernel) {
    Base(k) && IdleOk(k) && Ipc(k, None) && ConnsOk(k)
  }

  /** The running thread is ready and has no unfinished call; in interrupt mode it is the interrupt thread. */
  ghost predicate CurrentOk(k: Kernel) {
    && IsReady(k, k.current) && k.threads[k.current].future.None? && k.threads[k.current].mailbox.None?
    && (k.inIrq ==> k.current.tid == IRQ_TID)
  }

  // ---- Changes that matter only to the scheduler ------------------------------------------------

  /** `k'` differs from `k` at most in that some waiting threads have become ready. */
  ghost predicate Quiet(k: Kernel, k': Kernel) {
    && k'.limits == k.limits && k'.clock == k.clock && k'.servers == k.servers
    && k'.current == k.current && k'.inIrq == k.inIrq
    && SameProcesses(k, k')
    && k'.threads.Keys == k.threads.Keys
    && (forall x | x in k.threads :: QuietThread(k.threads[x], k'.threads[x]))
  }

  ghost predicate SameProcesses(k: Kernel, k': Kernel) {
    && k'.processes.Keys == k.processes.Keys
    && (forall p | p in k.processes ::
          k'.processes[p].connections == k.processes[p].connections && k'.processes[p].ppid == k.processes[p].ppid)
  }

  predicate QuietThread(t: Thread, t': Thread) {
    && t'.future == t.future && t'.mailbox == t.mailbox
    && (t'.state == t.state || (!t.state.Free? && t'.state.Ready?))
  }

  lemma QuietTrans(k: Kernel, k1: Kernel, k2: Kernel)
    requires Quiet(k, k1) && Quiet(k1, k2)
    ensures Quiet(k, k2)
  {
  }

  lemma QuietNames(k: Kernel, k': Kernel, sending: Option<Id>)
    requires Quiet(k, k') && NamesOk(k, sending)
    ensures NamesOk(k', sending)
  {
    assert forall s, i :: NameAt(k', s, i) == NameAt(k, s, i);
    forall s, i | NameAt(k', s, i).Some? && NameAt(k', s, i) != sending
      ensures AwaitsReply(k', NameAt(k', s, i).value)
    {
      var x := NameAt(k, s, i).value;
      assert AwaitsReply(k, x) && QuietThread(k.threads[x], k'.threads[x]);
    }
  }

  lemma QuietReceivers(k: Kernel, k': Kernel)
    requires Quiet(k, k') && ReceiversOk(k)
    ensures ReceiversOk(k')
  {
  }

  lemma QuietRest(k: Kernel, k': Kernel)
    requires Quiet(k, k')
    ensures CleanOk(k) ==> CleanOk(k')
    ensures MailOk(k) ==> MailOk(k')
    ensures RetryOk(k) ==> RetryOk(k')
    ensures StampsOk(k) ==> StampsOk(k')
  {
  }

  lemma QuietIpc(k: Kernel, k': Kernel, sending: Option<Id>)
    requires Quiet(k, k') && Ipc(k, sending)
    ensures Ipc(k', sending)
  {
    QuietNames(k, k', sending);
    QuietReceivers(k, k');
    QuietRest(k, k');
  }
}
