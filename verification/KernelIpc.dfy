/** How single changes of a thread or a queue affect the communication invariants. */
module KernelIpc {
  import opened Common
  import opened ServerQueue
  import opened KernelState
  import opened KernelInv

  // ---- One thread changes -----------------------------------------------------------------------

  /** `k'` differs from `k` in thread `x`, and in that other waiting threads may have become ready. */
  ghost predicate ThreadChange(k: Kernel, k': Kernel, x: Id) {
    && k'.limits == k.limits && k'.clock == k.clock && k'.servers == k.servers
    && SameProcesses(k, k')
    && x in k.threads && k'.threads.Keys == k.threads.Keys
    && (forall y | y in k.threads && y != x :: QuietThread(k.threads[y], k'.threads[y]))
  }

  /** What the thread table asks of each single thread. */
  ghost predicate ThreadOk(k: Kernel, x: Id, t: Thread) {
    && (t.state.Free? || x.tid == IRQ_TID ==> t.future.None? && t.mailbox.None? && (t.state.Free? || t.state.Ready?))
    && (t.mailbox.Some? ==> t.future.Some? && !t.future.value.ReceiveMessage?)
    && (t.state.RetryQueueFull? ==> t.state.born < k.clock)
    && (t.future.Some? && t.future.value.ReceiveMessage? ==> t.future.value.born < k.clock)
  }

  lemma ThreadChangeNames(k: Kernel, k': Kernel, x: Id, sending: Option<Id>, sending': Option<Id>)
    requires ThreadChange(k, k', x) && NamesOk(k, sending)
    requires sending' == sending || sending == Some(x)
    requires sending' == Some(x) || AwaitsReply(k', x) || Unnamed(k, x)
    ensures NamesOk(k', sending')
  {
    assert forall s, i :: NameAt(k', s, i) == NameAt(k, s, i);
    forall s, i | NameAt(k', s, i).Some? && NameAt(k', s, i) != sending'
      ensures AwaitsReply(k', NameAt(k', s, i).value)
    {
      var y := NameAt(k, s, i).value;
      if y != x {
        assert AwaitsReply(k, y) && QuietThread(k.threads[y], k'.threads[y]);
      }
    }
  }

  lemma ThreadChangeReceivers(k: Kernel, k': Kernel, x: Id)
    requires ThreadChange(k, k', x) && ReceiversOk(k)
    requires forall s :: ReceivesFrom(k', x, s) <==> ReceivesFrom(k, x, s)
    ensures ReceiversOk(k')
  {
  }

  lemma ThreadChangeRest(k: Kernel, k': Kernel, x: Id)
    requires ThreadChange(k, k', x) && ThreadOk(k, x, k'.threads[x])
    requires CleanOk(k) && MailOk(k) && RetryOk(k) && StampsOk(k) && ServersOk(k)
    requires forall s | RetriesAt(k', x, s) && 1 <= x.tid && x.tid + 1 < k.limits.threads ::
               k.servers[s].q.emptyCount == 0
    ensures CleanOk(k') && MailOk(k') && RetryOk(k') && StampsOk(k') && ServersOk(k')
  {
    hide QueueOk;
  }

  /** The general rule for a step that changes one thread. */
  lemma ThreadChangeIpc(k: Kernel, k': Kernel, x: Id, sending: Option<Id>, sending': Option<Id>)
    requires Ipc(k, sending) && ThreadChange(k, k', x) && ThreadOk(k, x, k'.threads[x])
    requires sending' == sending || sending == Some(x)
    requires sending' == Some(x) || AwaitsReply(k', x) || Unnamed(k, x)
    requires forall s :: ReceivesFrom(k', x, s) <==> ReceivesFrom(k, x, s)
    requires forall s | RetriesAt(k', x, s) && 1 <= x.tid && x.tid + 1 < k.limits.threads ::
               k.servers[s].q.emptyCount == 0
    ensures Ipc(k', sending')
  {
    ThreadChangeNames(k, k', x, sending, sending');
    ThreadChangeReceivers(k, k', x);
    ThreadChangeRest(k, k', x);
  }

  // ---- One queue changes ------------------------------------------------------------------------

  /** `k'` differs from `k` in the queue of server `s`, and in that waiting threads may have become ready. */
  ghost predicate QueueChange(k: Kernel, k': Kernel, s: nat) {
    && k'.limits == k.limits && k'.clock == k.clock && SameProcesses(k, k')
    && s in k.servers && k'.servers.Keys == k.servers.Keys
    && (forall r | r in k.servers && r != s :: k'.servers[r] == k.servers[r])
    && k'.servers[s].born == k.servers[s].born && k'.servers[s].q.pid == k.servers[s].q.pid
    && |k'.servers[s].q.queue| == |k.servers[s].q.queue|
    && k'.threads.Keys == k.threads.Keys
    && (forall y | y in k.threads :: QuietThread(k.threads[y], k'.threads[y]))
  }

  predicate NamesShrink(q: seq<QueuedMessage>, q': seq<QueuedMessage>) {
    |q'| == |q| && forall i | 0 <= i < |q| :: q'[i].Names().Some? ==> q'[i].Names() == q[i].Names()
  }

  /** Slot `j`, which named nobody, now names `x`. */
  predicate NamesGrow(q: seq<QueuedMessage>, q': seq<QueuedMessage>, j: nat, x: Id) {
    && |q'| == |q| && j < |q| && q'[j].Names() == Some(x)
    && forall i | 0 <= i < |q| && i != j :: q'[i].Names() == q[i].Names()
  }

  lemma QueueShrinkNames(k: Kernel, k': Kernel, s: nat, sending: Option<Id>)
    requires QueueChange(k, k', s) && NamesOk(k, sending)
    requires NamesShrink(k.servers[s].q.queue, k'.servers[s].q.queue)
    ensures NamesOk(k', sending)
  {
    forall r, i
      ensures NameAt(k', r, i).Some? ==> NameAt(k', r, i) == NameAt(k, r, i)
    {
    }
    forall r, i | NameAt(k', r, i).Some? && NameAt(k', r, i) != sending
      ensures AwaitsReply(k', NameAt(k', r, i).value)
    {
      var x := NameAt(k, r, i).value;
      assert AwaitsReply(k, x) && QuietThread(k.threads[x], k'.threads[x]);
    }
  }

  lemma QueueGrowNames(k: Kernel, k': Kernel, s: nat, j: nat, x: Id)
    requires QueueChange(k, k', s) && NamesOk(k, None) && Unnamed(k, x)
    requires NamesGrow(k.servers[s].q.queue, k'.servers[s].q.queue, j, x)
    ensures NamesOk(k', Some(x))
  {
    forall r, i
      ensures NameAt(k', r, i) == if r == s && i == j then Some(x) else NameAt(k, r, i)
    {
    }
    forall r, i | NameAt(k', r, i).Some? && NameAt(k', r, i) != Some(x)
      ensures AwaitsReply(k', NameAt(k', r, i).value)
    {
      var y := NameAt(k, r, i).value;
      assert AwaitsReply(k, y) && QuietThread(k.threads[y], k'.threads[y]);
    }
  }

  lemma QueueChangeReceivers(k: Kernel, k': Kernel, s: nat)
    requires QueueChange(k, k', s) && ReceiversOk(k)
    requires k'.servers[s].q.readyThreads == k.servers[s].q.readyThreads
    requires k.servers[s].q.readyThreads != {} ==> k'.servers[s].q.headGeneration == k'.servers[s].q.tailGeneration
    ensures ReceiversOk(k')
  {
  }

  /** No scanned sender is left waiting at a queue with room. */
  ghost predicate RetryOkAt(k: Kernel, s: nat) {
    forall x | RetriesAt(k, x, s) && 1 <= x.tid && x.tid + 1 < k.limits.threads :: k.servers[s].q.emptyCount == 0
  }

  lemma QueueChangeRest(k: Kernel, k': Kernel, s: nat)
    requires QueueChange(k, k', s)
    requires CleanOk(k) && MailOk(k) && RetryOk(k) && StampsOk(k) && ServersOk(k)
    requires QueueOk(k'.servers[s].q) && RetryOkAt(k', s)
    ensures CleanOk(k') && MailOk(k') && RetryOk(k') && StampsOk(k') && ServersOk(k')
  {
    hide QueueOk;
    forall y | y in k.threads
      ensures QuietThread(k.threads[y], k'.threads[y])
    {
    }
    forall y, r | RetriesAt(k', y, r) && r != s
      ensures RetriesAt(k, y, r)
    {
    }
  }

  /** The general rule for a step that takes something out of a queue or only moves its hints. */
  lemma QueueShrinkIpc(k: Kernel, k': Kernel, s: nat, sending: Option<Id>)
    requires Ipc(k, sending) && QueueChange(k, k', s) && QueueOk(k'.servers[s].q) && RetryOkAt(k', s)
    requires NamesShrink(k.servers[s].q.queue, k'.servers[s].q.queue)
    requires k'.servers[s].q.readyThreads == k.servers[s].q.readyThreads
    requires k.servers[s].q.readyThreads != {} ==> k'.servers[s].q.headGeneration == k'.servers[s].q.tailGeneration
    ensures Ipc(k', sending)
  {
    QueueShrinkNames(k, k', s, sending);
    QueueChangeReceivers(k, k', s);
    QueueChangeRest(k, k', s);
  }

  /** The general rule for a step that puts a blocking message into a queue. */
  lemma QueueGrowIpc(k: Kernel, k': Kernel, s: nat, j: nat, x: Id)
    requires Ipc(k, None) && QueueChange(k, k', s) && QueueOk(k'.servers[s].q) && RetryOkAt(k', s)
    requires NamesGrow(k.servers[s].q.queue, k'.servers[s].q.queue, j, x) && Unnamed(k, x)
    requires k'.servers[s].q.readyThreads == k.servers[s].q.readyThreads
    requires k.servers[s].q.readyThreads != {} ==> k'.servers[s].q.headGeneration == k'.servers[s].q.tailGeneration
    ensures Ipc(k', Some(x))
  {
    QueueGrowNames(k, k', s, j, x);
    QueueChangeReceivers(k, k', s);
    QueueChangeRest(k, k', s);
  }

  // ---- A thread parks on a server or is taken off it ----------------------------------------------

  /** `k'` differs from `k` in thread `x` and in the set of threads parked on server `s`. */
  ghost predicate MaskChange(k: Kernel, k': Kernel, s: nat, x: Id, mask: set<nat>) {
    && k'.limits == k.limits && k'.clock == k.clock && SameProcesses(k, k')
    && s in k.servers && SetQueue(k, s, k.servers[s].q.(readyThreads := mask)).servers == k'.servers
    && x in k.threads && k'.threads.Keys == k.threads.Keys
    && (forall y | y in k.threads && y != x :: QuietThread(k.threads[y], k'.threads[y]))
  }

  lemma MaskChangeNames(k: Kernel, k': Kernel, s: nat, x: Id, mask: set<nat>)
    requires MaskChange(k, k', s, x, mask) && NamesOk(k, None) && Unnamed(k, x)
    ensures NamesOk(k', None)
  {
    assert forall r, i :: NameAt(k', r, i) == NameAt(k, r, i);
    forall r, i | NameAt(k', r, i).Some?
      ensures AwaitsReply(k', NameAt(k', r, i).value)
    {
      var y := NameAt(k, r, i).value;
      assert AwaitsReply(k, y) && y != x && QuietThread(k.threads[y], k'.threads[y]);
    }
  }

  lemma MaskQueueOk(q: ServerState, mask: set<nat>)
    ensures QueueOk(q.(readyThreads := mask)) <==> QueueOk(q)
  {
  }

  lemma MaskChangeRest(k: Kernel, k': Kernel, s: nat, x: Id, mask: set<nat>)
    requires MaskChange(k, k', s, x, mask) && ThreadOk(k, x, k'.threads[x])
    requires CleanOk(k) && MailOk(k) && RetryOk(k) && StampsOk(k) && ServersOk(k)
    requires !k'.threads[x].state.RetryQueueFull?
    ensures CleanOk(k') && MailOk(k') && RetryOk(k') && StampsOk(k') && ServersOk(k')
  {
    hide QueueOk;
    MaskQueueOk(k.servers[s].q, mask);
    var k1 := SetQueue(k, s, k.servers[s].q.(readyThreads := mask));
    assert RetryOkAt(k1, s) by {
      assert forall y :: RetriesAt(k1, y, s) <==> RetriesAt(k, y, s);
    }
    QueueChangeRest(k, k1, s);
    ThreadChangeRest(k1, k', x);
  }

  /** A parked thread is taken off the server and made ready. */
  lemma TakenReceivers(k: Kernel, k': Kernel, s: nat, x: Id)
    requires ReceiversOk(k) && s in k.servers && x.pid == k.servers[s].q.pid && x.tid in k.servers[s].q.readyThreads
    requires MaskChange(k, k', s, x, k.servers[s].q.readyThreads - {x.tid}) && k'.threads[x].future.None?
    ensures ReceiversOk(k')
  {
  }

  lemma TakenIpc(k: Kernel, k': Kernel, s: nat, x: Id)
    requires Ipc(k, None) && s in k.servers && x.pid == k.servers[s].q.pid && x.tid in k.servers[s].q.readyThreads
    requires MaskChange(k, k', s, x, k.servers[s].q.readyThreads - {x.tid})
    requires k'.threads[x].future.None? && k'.threads[x].mailbox.None? && k'.threads[x].state.Ready?
    ensures Ipc(k', None)
  {
    assert ReceivesFrom(k, Id(k.servers[s].q.pid, x.tid), s) && x == Id(k.servers[s].q.pid, x.tid);
    assert Unnamed(k, x);
    MaskChangeNames(k, k', s, x, k.servers[s].q.readyThreads - {x.tid});
    MaskChangeRest(k, k', s, x, k.servers[s].q.readyThreads - {x.tid});
    TakenReceivers(k, k', s, x);
  }

  lemma ParkedReceivers(k: Kernel, k': Kernel, s: nat, x: Id)
    requires ReceiversOk(k) && s in k.servers && x.pid == k.servers[s].q.pid && 1 <= x.tid < MASK_BITS
    requires MaskChange(k, k', s, x, k.servers[s].q.readyThreads + {x.tid})
    requires k.threads[x].future.None? && k.servers[s].q.headGeneration == k.servers[s].q.tailGeneration
    requires k'.threads[x].future == Some(ReceiveMessage(s, k.servers[s].born))
    ensures ReceiversOk(k')
  {
  }

  /** A thread parks on a server that has nothing for it. */
  lemma ParkedIpc(k: Kernel, k': Kernel, s: nat, x: Id)
    requires Ipc(k, None) && s in k.servers && x.pid == k.servers[s].q.pid && 1 <= x.tid < MASK_BITS
    requires MaskChange(k, k', s, x, k.servers[s].q.readyThreads + {x.tid})
    requires k.threads[x].future.None? && k.servers[s].q.headGeneration == k.servers[s].q.tailGeneration
    requires k'.threads[x].future == Some(ReceiveMessage(s, k.servers[s].born))
    requires k'.threads[x].mailbox.None? && k'.threads[x].state.WaitEvent?
    ensures Ipc(k', None)
  {
    assert Unnamed(k, x);
    MaskChangeNames(k, k', s, x, k.servers[s].q.readyThreads + {x.tid});
    MaskChangeRest(k, k', s, x, k.servers[s].q.readyThreads + {x.tid});
    ParkedReceivers(k, k', s, x);
  }
}
