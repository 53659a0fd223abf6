/** What the parts of a step leave alone: the names in the queues, the connection tables and the order of the rings. */
module KernelFrames {
  import opened Common
  import opened Rings
  import opened ServerQueue
  import opened KernelState
  import opened KernelSteps
  import opened KernelInv
  import opened Connections

  // ---- Waking -----------------------------------------------------------------------------------

  /** Every ring keeps its order and may have got longer at its tail. */
  ghost predicate Grown(r: seq<seq<Id>>, r': seq<seq<Id>>) {
    |r'| == |r| && forall p | 0 <= p < |r| :: r[p] <= r'[p]
  }

  /** Ready threads stay ready. */
  ghost predicate ReadyStay(k: Kernel, k': Kernel) {
    forall x | IsReady(k, x) :: IsReady(k', x)
  }

  /** At most threads have changed, none for the worse, and joined their rings. */
  ghost predicate Woken(k: Kernel, k': Kernel) {
    && k'.limits == k.limits && k'.current == k.current && k'.processes == k.processes && k'.servers == k.servers
    && Grown(k.rings, k'.rings) && ReadyStay(k, k')
  }

  lemma WokenTrans(k: Kernel, k1: Kernel, k2: Kernel)
    requires Woken(k, k1) && Woken(k1, k2)
    ensures Woken(k, k2)
  {
    forall p | 0 <= p < |k.rings| ensures k.rings[p] <= k2.rings[p] {
      assert k.rings[p] <= k1.rings[p] <= k2.rings[p];
    }
  }

  lemma ReadyWoken(k: Kernel, x: Id)
    ensures Woken(k, SetState(k, x, Ready))
  {
    if x in k.threads && x.tid != IRQ_TID && !k.threads[x].state.Ready? {
      var p := k.threads[x].priority;
      assert p < |k.rings| ==> k.rings[p] <= k.rings[p] + [x];
    }
  }

  /** A thread's result, mailbox and future concern nobody else. */
  lemma FieldsWoken(k: Kernel, x: Id, r: Reply, f: Option<KernelFuture>)
    ensures Woken(k, SetResult(k, x, r)) && Woken(k, SetMailbox(k, x, Some(r))) && Woken(k, SetFuture(k, x, f))
  {
  }

  lemma ToldWoken(k: Kernel, x: Id, r: Reply)
    ensures Woken(k, SetResult(SetState(k, x, Ready), x, r)) && Woken(k, WakeWithResult(k, x, r)) &&
            Woken(k, HandOver(k, x, r))
  {
    hide SetState, SetResult, SetMailbox, SetFuture;
    var k1, k2, k3 := SetState(k, x, Ready), SetMailbox(k, x, Some(r)), SetFuture(k, x, None);
    ReadyWoken(k, x);
    ReadyWoken(k2, x);
    ReadyWoken(k3, x);
    FieldsWoken(k, x, r, None);
    FieldsWoken(k1, x, r, None);
    FieldsWoken(SetState(k3, x, Ready), x, r, None);
    WokenTrans(k, k1, SetResult(k1, x, r));
    WokenTrans(k, k2, SetState(k2, x, Ready));
    WokenTrans(k, k3, SetState(k3, x, Ready));
    WokenTrans(k, SetState(k3, x, Ready), HandOver(k, x, r));
  }

  lemma {:induction false} WakeRetryInWoken(k: Kernel, sidx: nat, pid: nat, tid: nat)
    ensures Woken(k, WakeRetryIn(k, sidx, pid, tid))
    decreases k.limits.threads - tid
  {
    if tid + 1 < k.limits.threads {
      var x := Id(pid, tid);
      var k1 := if Retrying(k, x, sidx) then SetState(k, x, Ready) else k;
      ReadyWoken(k, x);
      WakeRetryInWoken(k1, sidx, pid, tid + 1);
      WokenTrans(k, k1, WakeRetryIn(k, sidx, pid, tid));
    }
  }

  lemma {:induction false} WakeRetryWoken(k: Kernel, sidx: nat, pid: nat)
    ensures Woken(k, WakeRetry(k, sidx, pid))
    decreases k.limits.processes + 1 - pid
  {
    if pid <= k.limits.processes {
      var k1 := if pid in k.processes then WakeRetryIn(k, sidx, pid, 1) else k;
      WakeRetryInWoken(k, sidx, pid, 1);
      WakeRetryWoken(k1, sidx, pid + 1);
      WokenTrans(k, k1, WakeRetry(k, sidx, pid));
    }
  }

  lemma {:induction false} WakeClientsWoken(k: Kernel, queue: seq<QueuedMessage>)
    ensures Woken(k, WakeClients(k, queue))
    decreases |queue|
  {
    if queue == [] {
    } else {
      var k1 := match queue[0].Names()
        case None => k
        case Some(x) => SetResult(SetState(k, x, Ready), x, Failed(ServerNotFound));
      if queue[0].Names().Some? { ToldWoken(k, queue[0].Names().value, Failed(ServerNotFound)); }
      WakeClientsWoken(k1, queue[1..]);
      WokenTrans(k, k1, WakeClients(k, queue));
    }
  }

  lemma {:induction false} WakeReceiversWoken(k: Kernel, pid: nat, mask: set<nat>, t: nat)
    ensures Woken(k, WakeReceivers(k, pid, mask, t))
    decreases MASK_BITS - t
  {
    if t < MASK_BITS {
      var x := Id(pid, t);
      var k1 := if t in mask then SetResult(SetState(k, x, Ready), x, Failed(ServerNotFound)) else k;
      ToldWoken(k, x, Failed(ServerNotFound));
      WakeReceiversWoken(k1, pid, mask, t + 1);
      WokenTrans(k, k1, WakeReceivers(k, pid, mask, t));
    }
  }

  lemma {:induction false} WakeJoinersWoken(k: Kernel, pid: nat, target: nat, value: nat, tid: nat, n: nat)
    ensures Woken(k, WakeJoiners(k, pid, target, value, tid, n))
    decreases n
  {
    if n == 0 {
    } else {
      var x := Id(pid, tid);
      var k1 := if x in k.threads && k.threads[x].future == Some(WaitJoin(target))
        then WakeWithResult(k, x, Value([value])) else k;
      ToldWoken(k, x, Value([value]));
      WakeJoinersWoken(k1, pid, target, value, tid + 1, n - 1);
      WokenTrans(k, k1, WakeJoiners(k, pid, target, value, tid, n));
    }
  }

  lemma {:induction false} WakeFutexWoken(k: Kernel, pid: nat, addr: nat, remaining: nat, tid: nat, n: nat)
    ensures Woken(k, WakeFutex(k, pid, addr, remaining, tid, n))
    decreases n
  {
    if n == 0 || remaining == 0 {
    } else {
      var x := Id(pid, tid);
      if x in k.threads && k.threads[x].future == Some(WaitFutex(addr)) {
        var k1 := WakeWithResult(k, x, Done);
        ToldWoken(k, x, Done);
        WakeFutexWoken(k1, pid, addr, remaining - 1, tid + 1, n - 1);
        WokenTrans(k, k1, WakeFutex(k, pid, addr, remaining, tid, n));
      } else {
        WakeFutexWoken(k, pid, addr, remaining, tid + 1, n - 1);
      }
    }
  }

  lemma {:induction false} WakeAllWoken(k: Kernel, waiters: seq<Id>, r: Reply)
    ensures Woken(k, WakeAll(k, waiters, r))
    decreases |waiters|
  {
    if waiters == [] {
    } else {
      var k1 := WakeWithResult(k, waiters[0], r);
      ToldWoken(k, waiters[0], r);
      WakeAllWoken(k1, waiters[1..], r);
      WokenTrans(k, k1, WakeAll(k, waiters, r));
    }
  }

  // ---- Names and owners -------------------------------------------------------------------------

  /** The slots name the threads they named before. */
  ghost predicate SameNames(k: Kernel, k': Kernel) {
    forall s, i :: NameAt(k', s, i) == NameAt(k, s, i)
  }

  /** Names may have gone; none is new. */
  ghost predicate FewerNames(k: Kernel, k': Kernel) {
    forall s, i | NameAt(k', s, i).Some? :: NameAt(k', s, i) == NameAt(k, s, i)
  }

  /** One slot that named nobody names `x`; the others are as before. */
  ghost predicate Added(k: Kernel, k': Kernel, x: Id, s: nat, i: nat) {
    && NameAt(k, s, i).None? && NameAt(k', s, i) == Some(x)
    && forall s', i' | s' != s || i' != i :: NameAt(k', s', i') == NameAt(k, s', i')
  }

  ghost predicate AddsName(k: Kernel, k': Kernel, x: Id) {
    exists s, i :: Added(k, k', x, s, i)
  }

  /** The servers are the same ones. */
  ghost predicate SameOwners(k: Kernel, k': Kernel) {
    && k'.servers.Keys == k.servers.Keys
    && forall s | s in k.servers ::
         && k'.servers[s].q.pid == k.servers[s].q.pid && k'.servers[s].q.sid == k.servers[s].q.sid
         && k'.servers[s].permissions == k.servers[s].permissions && k'.servers[s].born == k.servers[s].born
  }

  /** Beyond the threads, at most the contents of queues and the pending events of processes have changed. */
  ghost predicate Mild(k: Kernel, k': Kernel) {
    k'.limits == k.limits && k'.current == k.current && SameProcesses(k, k') && SameOwners(k, k')
    && Grown(k.rings, k'.rings) && ReadyStay(k, k')
  }

  lemma MildTrans(k: Kernel, k1: Kernel, k2: Kernel)
    requires Mild(k, k1) && Mild(k1, k2)
    ensures Mild(k, k2)
  {
    forall p | 0 <= p < |k.rings| ensures k.rings[p] <= k2.rings[p] {
      assert k.rings[p] <= k1.rings[p] <= k2.rings[p];
    }
  }

  lemma WokenMild(k: Kernel, k': Kernel)
    requires Woken(k, k')
    ensures Mild(k, k') && SameNames(k, k')
  {
  }

  /** Storing a queue of the same server changes at most the names in it. */
  lemma SetQueueMild(k: Kernel, s: nat, q: ServerState)
    requires s in k.servers && q.pid == k.servers[s].q.pid && q.sid == k.servers[s].q.sid
    ensures var k' := SetQueue(k, s, q);
      && Mild(k, k')
      && (forall s', i | s' != s :: NameAt(k', s', i) == NameAt(k, s', i))
      && (forall i: nat :: NameAt(k', s, i) == if i < |q.queue| then q.queue[i].Names() else None)
  {
  }

  lemma PostBitsMild(k: Kernel, pid: nat, bits: set<nat>)
    ensures Mild(k, PostBits(k, pid, bits)) && SameNames(k, PostBits(k, pid, bits)) &&
            PostBits(k, pid, bits).servers == k.servers
  {
    hide WaiterFrom, SetState, SetResult;
    if pid in k.processes {
      var p := k.processes[pid];
      var k1 := k.(processes := k.processes[pid := p.(notificationBits := p.notificationBits + bits)]);
      var x := Id(pid, WaiterFrom(k1, pid, 1));
      if x in k.threads && k.threads[x].state.WaitEvent? {
        var fired := (p.notificationBits + bits) * k.threads[x].state.mask;
        var k2 := k1.(processes := k.processes[pid := p.(notificationBits := p.notificationBits + bits - fired)]);
        assert Mild(k, k2);
        ToldWoken(k2, x, Fired(fired));
        WokenMild(k2, SetResult(SetState(k2, x, Ready), x, Fired(fired)));
        MildTrans(k, k2, SetResult(SetState(k2, x, Ready), x, Fired(fired)));
      }
    }
  }

  /** Filling a slot names its sender at most there. */
  lemma FillNames(q: ServerState, slot: Result<QueuedMessage>)
    ensures var (r, q') := Fill(q, slot);
      && q'.pid == q.pid && q'.sid == q.sid && |q'.queue| == |q.queue|
      && (r.Err? ==> q'.queue == q.queue)
      && (r.Ok? ==>
            slot.Ok? && r.value < |q.queue| && q.queue[r.value].Empty? && q'.queue == q.queue[r.value := slot.value])
  {
  }

  lemma TakeNextNames(q: ServerState)
    ensures var q' := TakeNext(q).1;
      && q'.pid == q.pid && q'.sid == q.sid && |q'.queue| == |q.queue|
      && forall i | 0 <= i < |q.queue| :: q'.queue[i].Names() == q.queue[i].Names()
  {
  }

  lemma SetQueueWakingMild(k: Kernel, s: nat, q: ServerState)
    requires s in k.servers && q.pid == k.servers[s].q.pid && q.sid == k.servers[s].q.sid
    ensures Mild(k, SetQueueWaking(k, s, q)) && SameNames(SetQueue(k, s, q), SetQueueWaking(k, s, q))
    ensures SetQueueWaking(k, s, q).processes == k.processes
  {
    hide WakeRetry;
    SetQueueMild(k, s, q);
    WakeRetryWoken(SetQueue(k, s, q), s, 1);
    WokenMild(SetQueue(k, s, q), WakeRetry(SetQueue(k, s, q), s, 1));
    MildTrans(k, SetQueue(k, s, q), SetQueueWaking(k, s, q));
  }

  lemma TakeMessageMild(k: Kernel, s: nat)
    requires s in k.servers
    ensures Mild(k, TakeMessage(k, s).0) && SameNames(k, TakeMessage(k, s).0) &&
            TakeMessage(k, s).0.processes == k.processes
  {
    hide TakeNext, SetQueueWaking;
    var q := TakeNext(k.servers[s].q).1;
    TakeNextNames(k.servers[s].q);
    SetQueueMild(k, s, q);
    SetQueueWakingMild(k, s, q);
  }

  // ---- Sending ----------------------------------------------------------------------------------

  lemma SlotNames(pid: nat, tid: nat, idx: nat, message: Message, client: Option<nat>)
    ensures var slot := QueuedSlot(pid, tid, idx, message, client);
      slot.Ok? ==> slot.value.Names() == if message.IsBlocking() then Some(Id(pid, tid)) else None
    ensures var slot := ResponseSlot(pid, tid, message, client);
      slot.Ok? && message.IsBlocking() ==> slot.value.Names() == Some(Id(pid, tid))
  {
  }

  /** Storing a queue with one slot filled adds exactly the name in that slot. */
  lemma StoreNames(k: Kernel, s: nat, q: ServerState, i: nat, m: QueuedMessage)
    requires s in k.servers && q.pid == k.servers[s].q.pid && q.sid == k.servers[s].q.sid
    requires i < |k.servers[s].q.queue| && k.servers[s].q.queue[i].Empty? && q.queue == k.servers[s].q.queue[i := m]
    ensures m.Names().Some? ==> Added(k, SetQueue(k, s, q), m.Names().value, s, i)
    ensures m.Names().None? ==> SameNames(k, SetQueue(k, s, q))
  {
    SetQueueMild(k, s, q);
  }

  lemma EnqueueMild(k: Kernel, sender: Id, s: nat, m: Message, client: Option<nat>)
    requires s in k.servers
    ensures var (r, q) := QueueMessage(k.servers[s].q, sender.pid, sender.tid, m, client);
      && Mild(k, SetQueue(k, s, q))
      && (if r.Ok? && m.IsBlocking() then AddsName(k, SetQueue(k, s, q), sender) else SameNames(k, SetQueue(k, s, q)))
  {
    hide Fill, QueuedSlot, SetQueue;
    var q0 := k.servers[s].q;
    var slot := QueuedSlot(sender.pid, sender.tid, q0.tailGeneration, m, client);
    var (r, q) := QueueMessage(q0, sender.pid, sender.tid, m, client);
    FillNames(q0, slot);
    SlotNames(sender.pid, sender.tid, q0.tailGeneration, m, client);
    SetQueueMild(k, s, q);
    if r.Ok? { StoreNames(k, s, q, r.value, slot.value); }
  }

  lemma PassedMild(k: Kernel, s: nat, ready: set<nat>, m: Message)
    requires s in k.servers
    ensures var k' := SetQueue(k, s, Passed(k.servers[s].q.(readyThreads := ready), m));
      Mild(k, k') && SameNames(k, k')
  {
    SetQueueMild(k, s, Passed(k.servers[s].q.(readyThreads := ready), m));
  }

  /** A message handed directly to a parked thread. */
  lemma RespondMild(k: Kernel, sender: Id, s: nat, m: Message, client: Option<nat>, ready: set<nat>)
    requires s in k.servers && m.IsBlocking()
    ensures var (r, q) := QueueResponse(k.servers[s].q.(readyThreads := ready), sender.pid, sender.tid, m, client);
      && (r.Ok? ==> Mild(k, SetQueue(k, s, Passed(q, m))) && AddsName(k, SetQueue(k, s, Passed(q, m)), sender))
      && (r.Err? ==>
            var q' := q.(readyThreads := k.servers[s].q.readyThreads);
            Mild(k, SetQueue(k, s, q')) && SameNames(k, SetQueue(k, s, q')))
  {
    hide Fill, ResponseSlot, SetQueue;
    var q0 := k.servers[s].q.(readyThreads := ready);
    var slot := ResponseSlot(sender.pid, sender.tid, m, client);
    var (r, q) := QueueResponse(q0, sender.pid, sender.tid, m, client);
    FillNames(q0, slot);
    SlotNames(sender.pid, sender.tid, 0, m, client);
    if r.Ok? {
      SetQueueMild(k, s, Passed(q, m));
      StoreNames(k, s, Passed(q, m), r.value, slot.value);
    } else {
      SetQueueMild(k, s, q.(readyThreads := k.servers[s].q.readyThreads));
    }
  }

  /** Names added stay added when only threads wake. */
  lemma AddsThenSame(k: Kernel, k1: Kernel, k2: Kernel, x: Id)
    requires AddsName(k, k1, x) && SameNames(k1, k2)
    ensures AddsName(k, k2, x)
  {
    var s, i :| Added(k, k1, x, s, i);
    assert Added(k, k2, x, s, i);
  }

  lemma HandedMild(k: Kernel, k1: Kernel, x: Id, r: Reply)
    requires Mild(k, k1)
    ensures Mild(k, HandOver(k1, x, r)) && SameNames(k1, HandOver(k1, x, r))
  {
    hide HandOver, Mild, SameNames;
    ToldWoken(k1, x, r);
    WokenMild(k1, HandOver(k1, x, r));
    MildTrans(k, k1, HandOver(k1, x, r));
  }

  lemma PostedMild(k: Kernel, k1: Kernel, pid: nat, bits: set<nat>)
    requires Mild(k, k1)
    ensures Mild(k, PostBits(k1, pid, bits)) && SameNames(k1, PostBits(k1, pid, bits))
  {
    hide PostBits, Mild, SameNames;
    PostBitsMild(k1, pid, bits);
    MildTrans(k, k1, PostBits(k1, pid, bits));
  }

  lemma MildSame(k: Kernel)
    ensures Mild(k, k) && SameNames(k, k)
  {
  }

  lemma SameNamesTrans(k: Kernel, k1: Kernel, k2: Kernel)
    requires SameNames(k, k1) && SameNames(k1, k2)
    ensures SameNames(k, k2)
  {
  }

  /** A slot names the sender afterwards, where none did, exactly if a blocking message was accepted. */
  lemma SendInnerMild(k: Kernel, sender: Id, s: nat, message: Message, mapped: Result<nat>)
    ensures var (k', r) := SendInner(k, sender, s, message, mapped);
      && Mild(k, k')
      && (if r.Ok? && message.IsBlocking() then AddsName(k, k', sender) else SameNames(k, k'))
  {
    hide HandOver, PostBits, QueueMessage, QueueResponse, SetQueue, AddsName, AvailableThread, Mild, SameNames;
    MildSame(k);
    if s in k.servers && k.servers[s].q.emptyCount != 0 && Translate(message, mapped).Ok? {
      var q := k.servers[s].q;
      var m := Translate(message, mapped).value;
      match AvailableThread(q)
      case Some(t) =>
        var q1 := q.(readyThreads := q.readyThreads - {t});
        if !m.IsBlocking() {
          PassedMild(k, s, q1.readyThreads, m);
          var k1, reply := SetQueue(k, s, Passed(q1, m)), Delivered(s, Envelope(sender.pid, 0, m));
          HandedMild(k, k1, Id(q.pid, t), reply);
          SameNamesTrans(k, k1, HandOver(k1, Id(q.pid, t), reply));
        } else {
          var (r, q2) := QueueResponse(q1, sender.pid, sender.tid, m, ClientAddress(message));
          RespondMild(k, sender, s, m, ClientAddress(message), q1.readyThreads);
          if r.Ok? {
            var k1, reply := SetQueue(k, s, Passed(q2, m)), Delivered(s, Envelope(sender.pid, r.value, m));
            HandedMild(k, k1, Id(q.pid, t), reply);
            AddsThenSame(k, k1, HandOver(k1, Id(q.pid, t), reply), sender);
          }
        }
      case None =>
        var (r, q1) := QueueMessage(q, sender.pid, sender.tid, m, ClientAddress(message));
        EnqueueMild(k, sender, s, m, ClientAddress(message));
        if r.Ok? {
          var k1 := SetQueue(k, s, q1);
          PostedMild(k, k1, q.pid, {EVENT_SERVER_MSG});
          var k2 := PostBits(k1, q.pid, {EVENT_SERVER_MSG});
          if m.IsBlocking() { AddsThenSame(k, k1, k2, sender); } else { SameNamesTrans(k, k1, k2); }
        }
    }
  }

  lemma SendEventMild(k: Kernel, pid: nat, event: SystemEvent, arg: nat)
    ensures Mild(k, SendEvent(k, pid, event, arg)) && SameNames(k, SendEvent(k, pid, event, arg))
  {
    hide SendInner, ServerIndex;
    if pid in k.processes && event in k.processes[pid].handlers {
      var (sid, id) := k.processes[pid].handlers[event];
      SendInnerMild(k, Id(k.current.pid, IRQ_TID), ServerIndex(k, sid, Some(pid), 0),
            Scalar(ScalarBody(id, arg, 0, 0, 0)), Ok(0));
    }
  }

  // ---- The end of a server ----------------------------------------------------------------------

  /** The table of process `p`. */
  function Table(k: Kernel, p: nat): seq<ConnectionSlot> {
    if p in k.processes then k.processes[p].connections else []
  }

  /** Servers, names and rings as after a mild change; the tables of `lo <= p < hi` lose server `s`. */
  ghost predicate Buries(k: Kernel, k': Kernel, s: nat, lo: nat, hi: nat) {
    && k'.limits == k.limits && k'.current == k.current && SameOwners(k, k') && SameNames(k, k')
    && Grown(k.rings, k'.rings) && ReadyStay(k, k')
    && k'.processes.Keys == k.processes.Keys
    && forall p | p in k.processes ::
         Table(k', p) == if lo <= p < hi then Connections.After(Table(k, p), ServerGone(s)) else Table(k, p)
  }

  lemma BuriesOne(k: Kernel, s: nat, p: nat)
    requires p in k.processes
    ensures var (cid, c) := TombstoneConnections(k.processes[p].connections, s);
      var k1 := SetConnections(k, p, c);
      && Buries(k, k1, s, p, p + 1)
      && (cid.Some? ==> Buries(k, SendEvent(k1, p, Disconnected, cid.value), s, p, p + 1))
  {
    hide TombstoneConnections, SendEvent;
    var (cid, c) := TombstoneConnections(k.processes[p].connections, s);
    var k1 := SetConnections(k, p, c);
    if cid.Some? { SendEventMild(k1, p, Disconnected, cid.value); }
  }

  lemma BuriesTrans(k: Kernel, k1: Kernel, k2: Kernel, s: nat, lo: nat, mid: nat, hi: nat)
    requires Buries(k, k1, s, lo, mid) && Buries(k1, k2, s, mid, hi) && lo <= mid <= hi
    ensures Buries(k, k2, s, lo, hi)
  {
    hide Connections.After, Table;
    forall p | 0 <= p < |k.rings| ensures k.rings[p] <= k2.rings[p] {
      assert k.rings[p] <= k1.rings[p] <= k2.rings[p];
    }
  }

  lemma {:induction false} TombstoneBuries(k: Kernel, s: nat, pid: nat, n: nat)
    ensures Buries(k, TombstoneFrom(k, s, pid, n), s, pid, pid + n)
    decreases n
  {
    hide Buries, SendEvent, TombstoneConnections;
    if n == 0 {
      BuriesNone(k, s, pid, pid);
    } else if pid !in k.processes {
      BuriesNone(k, s, pid, pid + 1);
      TombstoneBuries(k, s, pid + 1, n - 1);
      BuriesTrans(k, k, TombstoneFrom(k, s, pid, n), s, pid, pid + 1, pid + n);
    } else {
      BuriesOne(k, s, pid);
      var (cid, c) := TombstoneConnections(k.processes[pid].connections, s);
      var k1 := SetConnections(k, pid, c);
      var k2 := if cid.Some? then SendEvent(k1, pid, Disconnected, cid.value) else k1;
      TombstoneBuries(k2, s, pid + 1, n - 1);
      BuriesTrans(k, k2, TombstoneFrom(k, s, pid, n), s, pid, pid + 1, pid + n);
    }
  }

  lemma BuriesNone(k: Kernel, s: nat, lo: nat, hi: nat)
    requires hi <= lo || (hi == lo + 1 && lo !in k.processes)
    ensures Buries(k, k, s, lo, hi)
  {
  }

  /** Server `s` is gone and with it its names; every table has lost it. */
  ghost predicate Ended(k: Kernel, k': Kernel, s: nat) {
    && k'.limits == k.limits && k'.current == k.current && FewerNames(k, k')
    && Grown(k.rings, k'.rings) && ReadyStay(k, k')
    && k'.servers.Keys == k.servers.Keys - {s}
    && (forall s' | s' in k'.servers :: k'.servers[s'].q.pid == k.servers[s'].q.pid)
    && k'.processes.Keys == k.processes.Keys
    && forall p | p in k.processes && 1 <= p <= k.limits.processes ::
       Table(k', p) == Connections.After(Table(k, p), ServerGone(s))
  }

  lemma DestroyEnds(k: Kernel, s: nat)
    requires s in k.servers
    ensures Ended(k, DestroySidx(k, s), s)
  {
    hide WakeClients, WakeReceivers, TombstoneFrom, Connections.After;
    var q := k.servers[s].q;
    var k1 := k.(servers := k.servers - {s});
    var k2 := WakeClients(k1, q.queue);
    var k3 := WakeReceivers(k2, k.current.pid, q.readyThreads, 0);
    WakeClientsWoken(k1, q.queue);
    WakeReceiversWoken(k2, k.current.pid, q.readyThreads, 0);
    WokenTrans(k1, k2, k3);
    TombstoneBuries(k3, s, 1, k.limits.processes);
    var k4 := DestroySidx(k, s);
    forall p | 0 <= p < |k.rings| ensures k.rings[p] <= k4.rings[p] {
      assert k.rings[p] <= k3.rings[p] <= k4.rings[p];
    }
    assert FewerNames(k, k1);
  }

  // ---- The end of a process ---------------------------------------------------------------------

  /** The servers of `pid` from index `s` on, as events for everybody's table. */
  function Gone(k: Kernel, pid: nat, s: nat, n: nat): seq<TableEvent>
    decreases n
  {
    if n == 0 then []
    else (if s in k.servers && k.servers[s].q.pid == pid then [ServerGone(s)] else []) + Gone(k, pid, s + 1, n - 1)
  }

  lemma {:induction false} SameGone(k: Kernel, k': Kernel, pid: nat, s: nat, n: nat)
    requires forall s' | s <= s' :: s' in k'.servers <==> s' in k.servers
    requires forall s' | s <= s' && s' in k.servers :: k'.servers[s'].q.pid == k.servers[s'].q.pid
    ensures Gone(k', pid, s, n) == Gone(k, pid, s, n)
    decreases n
  {
    if n == 0 {
    } else {
      SameGone(k, k', pid, s + 1, n - 1);
    }
  }

  /** Servers end one after the other; what is left of names, tables and rings. */
  ghost predicate Closes(k: Kernel, k': Kernel, gone: seq<TableEvent>) {
    && k'.limits == k.limits && k'.current == k.current && FewerNames(k, k')
    && Grown(k.rings, k'.rings) && ReadyStay(k, k')
    && k'.processes.Keys == k.processes.Keys
    && forall p | p in k.processes && 1 <= p <= k.limits.processes :: Table(k', p) == AfterAll(Table(k, p), gone)
  }

  lemma ClosesTrans(k: Kernel, k1: Kernel, k2: Kernel, s: nat, gone: seq<TableEvent>)
    requires Ended(k, k1, s) && Closes(k1, k2, gone)
    ensures Closes(k, k2, [ServerGone(s)] + gone)
  {
    hide Connections.After, Table, AfterAll;
    forall p | 0 <= p < |k.rings| ensures k.rings[p] <= k2.rings[p] {
      assert k.rings[p] <= k1.rings[p] <= k2.rings[p];
    }
    forall p | p in k.processes && 1 <= p <= k.limits.processes
      ensures Table(k2, p) == AfterAll(Table(k, p), [ServerGone(s)] + gone)
    {
      AfterCons(Table(k, p), ServerGone(s), gone);
    }
  }

  lemma AfterCons(c: seq<ConnectionSlot>, e: TableEvent, es: seq<TableEvent>)
    ensures AfterAll(c, [e] + es) == AfterAll(Connections.After(c, e), es)
  {
    assert ([e] + es)[1..] == es;
  }

  lemma DiscardMild(k: Kernel, s: nat, pid: nat)
    requires s in k.servers
    ensures var k' := SetQueue(k, s, Discard(k.servers[s].q, pid));
      Mild(k, k') && FewerNames(k, k')
  {
    SetQueueMild(k, s, Discard(k.servers[s].q, pid));
  }

  lemma {:induction false} CloseServersCloses(k: Kernel, pid: nat, s: nat, n: nat)
    ensures Closes(k, CloseServers(k, pid, s, n), Gone(k, pid, s, n))
    decreases n
  {
    hide DestroySidx, Discard, AfterAll, Table;
    if n == 0 {
      assert forall p :: AfterAll(Table(k, p), []) == Table(k, p) by { AfterNothing(); }
    } else if s !in k.servers {
      assert Gone(k, pid, s, n) == Gone(k, pid, s + 1, n - 1);
      CloseServersCloses(k, pid, s + 1, n - 1);
    } else if k.servers[s].q.pid == pid {
      var k1 := DestroySidx(k, s);
      DestroyEnds(k, s);
      CloseServersCloses(k1, pid, s + 1, n - 1);
      SameGone(k, k1, pid, s + 1, n - 1);
      ClosesTrans(k, k1, CloseServers(k, pid, s, n), s, Gone(k, pid, s + 1, n - 1));
    } else {
      var k1 := SetQueue(k, s, Discard(k.servers[s].q, pid));
      DiscardMild(k, s, pid);
      CloseServersCloses(k1, pid, s + 1, n - 1);
      SameGone(k, k1, pid, s + 1, n - 1);
      assert Gone(k, pid, s, n) == Gone(k, pid, s + 1, n - 1);
      MildCloses(k, k1, CloseServers(k, pid, s, n), Gone(k, pid, s, n));
    }
  }

  lemma AfterNothing()
    ensures forall c :: AfterAll(c, []) == c
  {
  }

  lemma MildCloses(k: Kernel, k1: Kernel, k2: Kernel, gone: seq<TableEvent>)
    requires Mild(k, k1) && FewerNames(k, k1) && Closes(k1, k2, gone)
    ensures Closes(k, k2, gone)
  {
    forall p | 0 <= p < |k.rings| ensures k.rings[p] <= k2.rings[p] {
      assert k.rings[p] <= k1.rings[p] <= k2.rings[p];
    }
    assert forall p | p in k.processes :: Table(k1, p) == Table(k, p);
  }

  lemma ClearFrame(k: Kernel, x: Id)
    ensures var k' := ClearThread(k, x);
      k'.limits == k.limits && k'.processes == k.processes && k'.servers == k.servers
  {
  }

  lemma {:induction false} FreeThreadsFrame(k: Kernel, pid: nat, tid: nat, n: nat)
    ensures var k' := FreeThreads(k, pid, tid, n);
      k'.limits == k.limits && k'.processes == k.processes && k'.servers == k.servers
    decreases n
  {
    hide ClearThread;
    if n == 0 {
    } else {
      ClearFrame(k, Id(pid, tid));
      FreeThreadsFrame(ClearThread(k, Id(pid, tid)), pid, tid + 1, n - 1);
    }
  }

  // ---- Choosing the next thread -----------------------------------------------------------------

  /** No name is new, and whoever is there before and after has the same table. */
  ghost predicate Plain(k: Kernel, k': Kernel) {
    && k'.limits == k.limits && FewerNames(k, k')
    && forall p | p in k.processes && p in k'.processes :: Table(k', p) == Table(k, p)
  }

  lemma PollFrame(k: Kernel, x: Id, f: KernelFuture)
    ensures var k' := Poll(k, x, f).0;
      k'.limits == k.limits && k'.processes == k.processes && SameNames(k, k')
  {
    hide TakeMessage;
    if f.ReceiveMessage? && f.sidx in k.servers { TakeMessageMild(k, f.sidx); }
  }

  lemma {:induction false} ActivateFrame(k: Kernel)
    ensures var k' := Activate(k).0;
      k'.limits == k.limits && k'.processes == k.processes && SameNames(k, k')
    decreases ReadyCount(k)
  {
    hide Poll, Suspend, ReadyCount;
    if !k.inIrq {
      var h := HighestBelow(k.rings, |k.rings|);
      if h < |k.rings| && k.rings[h] != [] && k.rings[h][0] in k.threads && k.threads[k.rings[h][0]].future.Some? {
        var x := k.rings[h][0];
        var f := k.threads[x].future.value;
        var k0 := SetFuture(k, x, None);
        var (k1, polled) := Poll(k0, x, f);
        assert SameNames(k, k0);
        PollFrame(k0, x, f);
        if polled.PollPending? {
          var k2 := Suspend(k1, x, f);
          SuspendFrame(k1, x, f);
          if ReadyCount(k2) < ReadyCount(k) { ActivateFrame(k2); }
        }
      }
    }
  }

  lemma SuspendFrame(k: Kernel, x: Id, f: KernelFuture)
    ensures var k' := Suspend(k, x, f);
      k'.limits == k.limits && k'.processes == k.processes && k'.servers == k.servers && SameNames(k, k')
  {
  }

  /** Once only threads have changed since `k`, choosing the next one changes no name and no table. */
  lemma ActivatePlain(k: Kernel, k1: Kernel)
    requires Plain(k, k1)
    ensures Plain(k, Activate(k1).0)
  {
    hide Activate;
    ActivateFrame(k1);
  }
}
