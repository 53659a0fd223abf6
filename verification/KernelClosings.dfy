/** What the end of a server or a process comes to for those who are left. */
module KernelClosings {
  import opened Common
  import opened ServerQueue
  import opened KernelState
  import opened KernelSteps
  import opened KernelInv
  import opened KernelMessages
  import opened KernelActivate
  import opened KernelTables
  import opened KernelDestroy
  import opened KernelExit
  import opened KernelRuns
  import opened KernelEffects
  import opened KernelTheorems
  import opened KernelEndings
  import opened KernelOutcomes
  import opened KernelSends

  // ---- Events -----------------------------------------------------------------------------------

  predicate IsServerOf(k: Kernel, pid: nat, sid: nat, s: nat) {
    s in k.servers && k.servers[s].q.sid == sid && k.servers[s].q.pid == pid
  }

  /** Process `pid` has named its server `s` to be told of `event`, with message id `id`. */
  predicate Listens(k: Kernel, pid: nat, event: SystemEvent, s: nat, id: nat) {
    && pid in k.processes && event in k.processes[pid].handlers && k.processes[pid].handlers[event].1 == id
    && s < k.limits.servers && IsServerOf(k, pid, k.processes[pid].handlers[event].0, s)
    && forall u | 0 <= u < s :: !IsServerOf(k, pid, k.processes[pid].handlers[event].0, u)
  }

  lemma {:induction false} ListenerIndex(k: Kernel, pid: nat, sid: nat, i: nat)
    requires forall u | 0 <= u < i :: !IsServerOf(k, pid, sid, u)
    ensures var s := ServerIndex(k, sid, Some(pid), i);
      if s < k.limits.servers then IsServerOf(k, pid, sid, s) && forall u | 0 <= u < s :: !IsServerOf(k, pid, sid, u)
      else forall u | 0 <= u < k.limits.servers :: !IsServerOf(k, pid, sid, u)
    decreases k.limits.servers - i
  {
    if i < k.limits.servers && !IsServerOf(k, pid, sid, i) { ListenerIndex(k, pid, sid, i + 1); }
  }

  /** The message that tells of an event. */
  function Notice(id: nat, arg: nat): Message {
    Scalar(ScalarBody(id, arg, 0, 0, 0))
  }

  predicate HasRoom(q: ServerState) {
    exists i :: 0 <= i < |q.queue| && q.queue[i].Empty?
  }

  /** The message has reached server `s`: a parked thread has it, or it is last in line. */
  ghost predicate Reaches(k: Kernel, k': Kernel, s: nat, m: Message, sender: Id) {
    && s in k.servers && s in k'.servers
    && if k.servers[s].q.readyThreads != {} then HandedOver(k, k', s, m, m, sender)
       else Enqueued(k, k', s, m, m, sender)
  }

  /** An event is told to whoever listens, by the interrupt thread of the running process, as long as there is room. */
  lemma EventSent(k: Kernel, pid: nat, event: SystemEvent, arg: nat, s: nat, id: nat)
    requires Base(k) && Ipc(k, None)
    ensures var k' := SendEvent(k, pid, event, arg);
      && ((forall s', id' :: !Listens(k, pid, event, s', id')) ==> k' == k)
      && (Listens(k, pid, event, s, id) ==>
            if HasRoom(k.servers[s].q) then Reaches(k, k', s, Notice(id, arg), Id(k.current.pid, IRQ_TID)) else k' == k)
  {
    hide Base, Ipc, SendInner, ServerIndex, HandedOver, Enqueued, Refusal;
    if pid in k.processes && event in k.processes[pid].handlers {
      var (sid, id0) := k.processes[pid].handlers[event];
      ListenerIndex(k, pid, sid, 0);
      var s0 := ServerIndex(k, sid, Some(pid), 0);
      if s0 < k.limits.servers {
        assert Listens(k, pid, event, s0, id0);
        assert Listens(k, pid, event, s, id) ==> s == s0 && id == id0;
        NoticeSent(k, s0, Notice(id0, arg));
      }
    }
  }

  lemma NoticeSent(k: Kernel, s: nat, m: Message)
    requires Base(k) && Ipc(k, None) && s in k.servers && m.Scalar?
    ensures var k' := SendInner(k, Id(k.current.pid, IRQ_TID), s, m, Ok(0)).0;
      if HasRoom(k.servers[s].q) then Reaches(k, k', s, m, Id(k.current.pid, IRQ_TID)) else k' == k
  {
    hide Base, Ipc, SendInner, HandedOver, Enqueued, Pending;
    var sender := Id(k.current.pid, IRQ_TID);
    RefusedExactly(k, sender, s, m, Ok(0));
    RoomFacts(k, s);
    if HasRoom(k.servers[s].q) {
      HandedOverOrQueued(k, sender, s, m, Ok(0));
    } else {
      FullChangesNothing(k, sender, s, m);
    }
  }

  lemma FullChangesNothing(k: Kernel, sender: Id, s: nat, m: Message)
    requires s in k.servers && k.servers[s].q.emptyCount == 0
    ensures SendInner(k, sender, s, m, Ok(0)).0 == k
  {
  }

  // ---- The end of a server ----------------------------------------------------------------------

  /** `x` waits for an answer of server `s`, or for a message of it. */
  predicate DependsOn(k: Kernel, s: nat, x: Id)
    requires s in k.servers
  {
    || (exists i :: 0 <= i < |k.servers[s].q.queue| && k.servers[s].q.queue[i].Names() == Some(x))
    || (x.pid == k.current.pid && x.tid in k.servers[s].q.readyThreads)
  }

  function ToldGone(t: Thread): Thread {
    t.(state := Ready, result := Some(Failed(ServerNotFound)))
  }

  lemma {:induction false} ClientsTold(k: Kernel, queue: seq<QueuedMessage>)
    requires forall i | 0 <= i < |queue| && queue[i].Names().Some? :: queue[i].Names().value.tid != IRQ_TID
    ensures var k' := WakeClients(k, queue);
      && k' == k.(threads := k'.threads, rings := k'.rings) && k'.threads.Keys == k.threads.Keys
      && forall x | x in k.threads ::
           k'.threads[x] == if exists i :: 0 <= i < |queue| && queue[i].Names() == Some(x) then ToldGone(k.threads[x])
                            else k.threads[x]
    decreases |queue|
  {
    if queue == [] {
    } else {
      var k1 := match queue[0].Names()
        case None => k
        case Some(x) => SetResult(SetState(k, x, Ready), x, Failed(ServerNotFound));
      if queue[0].Names().Some? { OneTold(k, queue[0].Names().value); }
      hide SetState, SetResult;
      ClientsTold(k1, queue[1..]);
      forall x | x in k.threads
        ensures (exists i :: 0 <= i < |queue| && queue[i].Names() == Some(x)) <==>
                queue[0].Names() == Some(x) || exists i :: 0 <= i < |queue[1..]| && queue[1..][i].Names() == Some(x)
      {
        Later(queue, x);
      }
    }
  }

  lemma Later(queue: seq<QueuedMessage>, x: Id)
    requires queue != []
    ensures (exists i :: 0 <= i < |queue| && queue[i].Names() == Some(x)) <==>
            queue[0].Names() == Some(x) || exists i :: 0 <= i < |queue[1..]| && queue[1..][i].Names() == Some(x)
  {
    if i :| 0 <= i < |queue| && queue[i].Names() == Some(x) {
      if i > 0 { assert queue[1..][i - 1] == queue[i]; }
    }
    if i :| 0 <= i < |queue[1..]| && queue[1..][i].Names() == Some(x) {
      assert queue[i + 1] == queue[1..][i];
    }
  }

  lemma OneTold(k: Kernel, x: Id)
    requires x.tid != IRQ_TID
    ensures var k' := SetResult(SetState(k, x, Ready), x, Failed(ServerNotFound));
      && k' == k.(threads := k'.threads, rings := k'.rings)
      && k'.threads == if x in k.threads then k.threads[x := ToldGone(k.threads[x])] else k.threads
  {
  }

  lemma {:induction false} ReceiversTold(k: Kernel, pid: nat, mask: set<nat>, t: nat)
    requires IRQ_TID !in mask && (forall u | u in mask :: u < MASK_BITS)
    ensures var k' := WakeReceivers(k, pid, mask, t);
      && k' == k.(threads := k'.threads, rings := k'.rings) && k'.threads.Keys == k.threads.Keys
      && forall x | x in k.threads ::
           k'.threads[x] == if x.pid == pid && x.tid in mask && t <= x.tid then ToldGone(k.threads[x]) else k.threads[x]
    decreases MASK_BITS - t
  {
    if t < MASK_BITS {
      var x := Id(pid, t);
      if t in mask { OneTold(k, x); }
      hide SetState, SetResult;
      var k1 := if t in mask then SetResult(SetState(k, x, Ready), x, Failed(ServerNotFound)) else k;
      ReceiversTold(k1, pid, mask, t + 1);
    }
  }

  lemma SlotsNameThreads(k: Kernel, s: nat)
    requires Ipc(k, None) && s in k.servers
    ensures var q := k.servers[s].q;
      && (forall i | 0 <= i < |q.queue| && q.queue[i].Names().Some? :: q.queue[i].Names().value.tid != IRQ_TID)
      && IRQ_TID !in q.readyThreads && (forall u | u in q.readyThreads :: u < MASK_BITS)
  {
    var q := k.servers[s].q;
    forall i | 0 <= i < |q.queue| && q.queue[i].Names().Some?
      ensures q.queue[i].Names().value.tid != IRQ_TID
    {
      assert NameAt(k, s, i) == q.queue[i].Names();
    }
  }

  /** Exactly the threads that depend on the server are told that it is gone, and made ready. */
  lemma WokenExact(k: Kernel, s: nat)
    requires Ipc(k, None) && s in k.servers
    ensures var k' := Woken(k, s);
      && k' == k.(servers := k.servers - {s}, threads := k'.threads, rings := k'.rings)
      && k'.threads.Keys == k.threads.Keys
      && forall x | x in k.threads ::
           k'.threads[x] == if DependsOn(k, s, x) then ToldGone(k.threads[x]) else k.threads[x]
  {
    hide Ipc, WakeClients, WakeReceivers;
    SlotsNameThreads(k, s);
    var q := k.servers[s].q;
    var k1 := k.(servers := k.servers - {s});
    ClientsTold(k1, q.queue);
    ReceiversTold(WakeClients(k1, q.queue), k.current.pid, q.readyThreads, 0);
  }

  /** A ready thread that no server knows as its receiver. */
  ghost predicate Apart(k: Kernel, y: Id) {
    IsReady(k, y) && forall s :: !ReceivesFrom(k, y, s)
  }

  lemma EventLeavesApart(k: Kernel, pid: nat, event: SystemEvent, arg: nat, y: Id)
    requires Base(k) && Ipc(k, None) && Apart(k, y)
    ensures var k' := SendEvent(k, pid, event, arg);
      y in k'.threads && k'.threads[y] == k.threads[y]
  {
    hide Base, Ipc, SendInner, ServerIndex, SameButHint;
    if pid in k.processes && event in k.processes[pid].handlers {
      var (sid, id) := k.processes[pid].handlers[event];
      var s, sender, m := ServerIndex(k, sid, Some(pid), 0), Id(k.current.pid, IRQ_TID), Notice(id, arg);
      if s < k.limits.servers {
        RefusedExactly(k, sender, s, m, Ok(0));
        if SendInner(k, sender, s, m, Ok(0)).1.Ok? {
          RunningUnchanged(k, sender, s, m, Ok(0), y);
        } else {
          HintKeepsThreads(k, SendInner(k, sender, s, m, Ok(0)).0, s);
        }
      }
    }
  }

  lemma HintKeepsThreads(k: Kernel, k': Kernel, s: nat)
    requires s in k.servers && SameButHint(k, k', s)
    ensures k'.threads == k.threads
  {
  }

  lemma ApartStays(k: Kernel, k': Kernel, y: Id)
    requires Apart(k, y) && y in k'.threads && k'.threads[y] == k.threads[y] && Calm(k, k')
    ensures Apart(k', y)
  {
    forall s
      ensures !ReceivesFrom(k', y, s)
    {
      assert !ReceivesFrom(k, y, s);
      if s in k'.servers { assert SameServer(k, k', s); }
    }
  }

  lemma {:induction false} TombstonesLeaveApart(k: Kernel, s: nat, pid: nat, n: nat, y: Id)
    requires Base(k) && Ipc(k, None) && ConnsBut(k, s, pid) && s !in k.servers && Apart(k, y)
    ensures var k' := TombstoneFrom(k, s, pid, n);
      y in k'.threads && k'.threads[y] == k.threads[y]
    decreases n
  {
    hide Base, Ipc, ConnsBut, Calm, SendEvent, TombstoneConnections, OrphansStay, Apart;
    if n == 0 {
      ApartThere(k, y);
    } else if pid !in k.processes {
      ConnsButSkip(k, s, pid);
      TombstonesLeaveApart(k, s, pid + 1, n - 1, y);
    } else {
      var k1 := TombstoneOne(k, s, pid);
      TombstoneOneOk(k, s, pid);
      TombstoneLeavesApart(k, s, pid, y);
      ApartStays(k, k1, y);
      GoneStays(k, k1, s);
      TombstonesLeaveApart(k1, s, pid + 1, n - 1, y);
    }
  }

  lemma ApartThere(k: Kernel, y: Id)
    requires Apart(k, y)
    ensures y in k.threads
  {
  }

  lemma GoneStays(k: Kernel, k': Kernel, s: nat)
    requires Calm(k, k') && s !in k.servers
    ensures s !in k'.servers
  {
    assert s in k'.servers ==> SameServer(k, k', s);
  }

  lemma TombstoneLeavesApart(k: Kernel, s: nat, pid: nat, y: Id)
    requires Base(k) && Ipc(k, None) && ConnsBut(k, s, pid) && s !in k.servers && pid in k.processes && Apart(k, y)
    ensures var k' := TombstoneOne(k, s, pid);
      y in k'.threads && k'.threads[y] == k.threads[y]
  {
    hide Base, Ipc, ConnsBut, SendEvent, TombstoneConnections, SetConnections;
    var (cid, c) := TombstoneConnections(k.processes[pid].connections, s);
    var k1 := SetConnections(k, pid, c);
    TombstoneConns(k, s, pid);
    SetConnectionsQuiet(k, pid, c);
    SetConnectionsIpc(k, pid, c, None);
    TableOnly(k, pid, c);
    assert forall h :: ReceivesFrom(k1, y, h) <==> ReceivesFrom(k, y, h);
    if cid.Some? { EventLeavesApart(k1, pid, Disconnected, cid.value, y); }
  }

  lemma TableOnly(k: Kernel, pid: nat, c: seq<ConnectionSlot>)
    requires pid in k.processes
    ensures var k1 := SetConnections(k, pid, c);
      && k1.threads == k.threads && k1.servers == k.servers && k1.limits == k.limits && k1.current == k.current
      && k1.processes == k.processes[pid := k.processes[pid].(connections := c)]
  {
  }

  /** Whoever depended on the server is ready, and is told that it is gone. */
  lemma DependentsTold(k: Kernel, s: nat, x: Id)
    requires Base(k) && Ipc(k, None) && ConnsOk(k) && s in k.servers && k.servers[s].q.pid == k.current.pid
    requires x in k.threads && DependsOn(k, s, x)
    ensures var k' := DestroySidx(k, s);
      x in k'.threads && k'.threads[x] == ToldGone(k.threads[x])
  {
    hide Base, Ipc, ConnsOk, ConnsBut, Calm, Woken, TombstoneFrom, DependsOn;
    WokenOk(k, s);
    WokenExact(k, s);
    DependentApart(k, s, x);
    TombstonesLeaveApart(Woken(k, s), s, 1, k.limits.processes, x);
    DestroyIs(k, s);
  }

  lemma DestroyIs(k: Kernel, s: nat)
    requires s in k.servers
    ensures DestroySidx(k, s) == TombstoneFrom(Woken(k, s), s, 1, k.limits.processes)
  {
  }

  lemma DependentApart(k: Kernel, s: nat, x: Id)
    requires Ipc(k, None) && s in k.servers && k.servers[s].q.pid == k.current.pid && x in k.threads &&
             DependsOn(k, s, x)
    requires var k' := Woken(k, s);
      k'.servers == k.servers - {s} && x in k'.threads && k'.threads[x] == ToldGone(k.threads[x])
    ensures Apart(Woken(k, s), x)
  {
    var q := k.servers[s].q;
    if i :| 0 <= i < |q.queue| && q.queue[i].Names() == Some(x) {
      assert NameAt(k, s, i) == Some(x);
      assert AwaitsReply(k, x);
    } else {
      assert x == Id(q.pid, x.tid);
      assert ReceivesFrom(k, x, s);
    }
  }

  // ---- Notices ----------------------------------------------------------------------------------

  /** What sending to server `s` leaves alone: the other servers, and of the processes all but their pending events. */
  ghost predicate OnlyAt(k: Kernel, k': Kernel, s: nat) {
    && k'.limits == k.limits && k'.current == k.current && k'.servers.Keys == k.servers.Keys
    && (forall h | h in k.servers && h != s :: k'.servers[h] == k.servers[h])
    && (forall h | h in k.servers ::
          k'.servers[h].q.sid == k.servers[h].q.sid && k'.servers[h].q.pid == k.servers[h].q.pid)
    && SameButEvents(k, k')
  }

  ghost predicate SameButEvents(k: Kernel, k': Kernel) {
    && k'.processes.Keys == k.processes.Keys
    && forall p | p in k.processes ::
         k'.processes[p] == k.processes[p].(notificationBits := k'.processes[p].notificationBits)
  }

  lemma StoredOnlyAt(k: Kernel, s: nat, q: ServerState)
    requires s in k.servers && q.sid == k.servers[s].q.sid && q.pid == k.servers[s].q.pid
    ensures OnlyAt(k, SetQueue(k, s, q), s)
  {
  }

  lemma PostedOnlyAt(k: Kernel, k1: Kernel, s: nat, pid: nat, bits: set<nat>)
    requires OnlyAt(k, k1, s)
    ensures OnlyAt(k, PostBits(k1, pid, bits), s)
  {
    hide PostBits, WaitsForBits;
    if pid in k1.processes { PostWakesFirst(k1, pid, bits); } else { NothingPosted(k1, pid, bits); }
  }

  lemma HandedOnlyAt(k: Kernel, k1: Kernel, s: nat, x: Id, r: Reply)
    requires OnlyAt(k, k1, s) && x in k1.threads && x.tid != IRQ_TID
    ensures OnlyAt(k, HandOver(k1, x, r), s)
  {
    hide HandOver;
    HandOverExact(k1, x, r);
  }

  lemma NoticeOnlyAt(k: Kernel, s: nat, m: Message)
    requires Base(k) && Ipc(k, None) && s in k.servers && m.Scalar?
    ensures OnlyAt(k, SendInner(k, Id(k.current.pid, IRQ_TID), s, m, Ok(0)).0, s)
  {
    hide Base, Ipc, HandOver, QueueMessage, PostBits, AvailableThread, QueueOk, OnlyAt, SetQueue;
    var q := k.servers[s].q;
    RoomFacts(k, s);
    StoredOnlyAt(k, s, q);
    NothingStored(k, s);
    if q.readyThreads != {} {
      ParkedThread(k, s);
      var t := AvailableThread(q).value;
      var q1 := Passed(q.(readyThreads := q.readyThreads - {t}), m);
      StoredOnlyAt(k, s, q1);
      HandedOnlyAt(k, SetQueue(k, s, q1), s, Id(q.pid, t), Delivered(s, Envelope(k.current.pid, 0, m))) by {
        SameStored(k, s, q1);
      }
    } else {
      var q1 := QueueMessage(q, k.current.pid, IRQ_TID, m, None).1;
      QueueSame(q, k.current.pid, IRQ_TID, m);
      StoredOnlyAt(k, s, q1);
      PostedOnlyAt(k, SetQueue(k, s, q1), s, q.pid, {EVENT_SERVER_MSG});
    }
  }

  lemma NothingStored(k: Kernel, s: nat)
    requires s in k.servers
    ensures SetQueue(k, s, k.servers[s].q) == k
  {
    assert k.servers == k.servers[s := k.servers[s]];
  }

  lemma SameStored(k: Kernel, s: nat, q: ServerState)
    requires s in k.servers
    ensures SetQueue(k, s, q).threads == k.threads
  {
  }

  lemma QueueSame(q: ServerState, pid: nat, tid: nat, m: Message)
    ensures var q' := QueueMessage(q, pid, tid, m, None).1;
      q'.sid == q.sid && q'.pid == q.pid
  {
  }

  /** The process of server `h` had a connection to `s` in slot `i`, and listens at `h` for its end. */
  predicate Notified(k: Kernel, s: nat, h: nat, i: nat, id: nat) {
    && h in k.servers && k.servers[h].q.pid in k.processes
    && var p := k.servers[h].q.pid;
       && i < |k.processes[p].connections| && k.processes[p].connections[i].Connected?
       && k.processes[p].connections[i].sidx == s && Listens(k, p, Disconnected, h, id) && HasRoom(k.servers[h].q)
  }

  /** What server `h` has been sent between `k` and `k'`: the notice that is due to it, if one is. */
  ghost predicate GetsNotice(k: Kernel, k': Kernel, s: nat, h: nat) {
    && h in k.servers && h in k'.servers
    && if exists i, id :: Notified(k, s, h, i, id) then
         exists i: nat, id: nat | Notified(k, s, h, i, id) ::
             k'.servers[h].q.sent == k.servers[h].q.sent + [Notice(id, i + 2)]
       else k'.servers[h].q.sent == k.servers[h].q.sent
  }

  lemma ListensSame(k: Kernel, k': Kernel, pid: nat, event: SystemEvent, s: nat, id: nat)
    requires k'.limits == k.limits && k'.servers.Keys == k.servers.Keys
    requires forall h | h in k.servers ::
               k'.servers[h].q.sid == k.servers[h].q.sid && k'.servers[h].q.pid == k.servers[h].q.pid
    requires pid in k.processes && pid in k'.processes && k'.processes[pid].handlers == k.processes[pid].handlers
    ensures Listens(k', pid, event, s, id) <==> Listens(k, pid, event, s, id)
  {
    assert forall sid, u: nat :: IsServerOf(k', pid, sid, u) <==> IsServerOf(k, pid, sid, u);
  }

  lemma RecordsReach(k: Kernel, k': Kernel, s: nat, m: Message, sender: Id)
    requires Reaches(k, k', s, m, sender)
    ensures k'.servers[s].q.sent == k.servers[s].q.sent + [m]
  {
  }

  /** One process is told, and only its own server gets anything. */
  lemma TombstoneNotifies(k: Kernel, s: nat, pid: nat, h: nat)
    requires Base(k) && Ipc(k, None) && ConnsBut(k, s, pid) && s !in k.servers && pid in k.processes && h in k.servers
    ensures var k' := TombstoneOne(k, s, pid);
      && k'.limits == k.limits && k'.servers.Keys == k.servers.Keys
      && (forall g | g in k.servers ::
            k'.servers[g].q.sid == k.servers[g].q.sid && k'.servers[g].q.pid == k.servers[g].q.pid)
      && k'.processes.Keys == k.processes.Keys
      && (forall p | p in k.processes :: k'.processes[p].handlers == k.processes[p].handlers)
      && (forall p | p in k.processes && p != pid :: k'.processes[p].connections == k.processes[p].connections)
      && (k.servers[h].q.pid != pid ==> k'.servers[h] == k.servers[h])
      && (k.servers[h].q.pid == pid ==> GetsNotice(k, k', s, h))
  {
    hide Base, Ipc, ConnsBut, SendEvent, SetConnections, Reaches, Listens, HasRoom, Notice, OnlyAt;
    var c := k.processes[pid].connections;
    var i := ConnectedTo(c, s, 0);
    var (cid, c') := TombstoneConnections(c, s);
    var k1 := SetConnections(k, pid, c');
    TombstoneConns(k, s, pid);
    SetConnectionsQuiet(k, pid, c');
    SetConnectionsIpc(k, pid, c', None);
    TableOnly(k, pid, c');
    if cid.Some? {
      EventOnlyAt(k1, pid, Disconnected, i + 2, h);
      NoticeDue(k, k1, SendEvent(k1, pid, Disconnected, i + 2), s, pid, h, i);
    } else if k.servers[h].q.pid == pid {
      NoNoticeDue(k, s, h);
    }
  }

  lemma NoNoticeDue(k: Kernel, s: nat, h: nat)
    requires h in k.servers && k.servers[h].q.pid in k.processes
    requires var conns := k.processes[k.servers[h].q.pid].connections; ConnectedTo(conns, s, 0) >= |conns|
    ensures forall i, id :: !Notified(k, s, h, i, id)
  {
    hide Listens, HasRoom;
  }

  /** An event goes to a server of the process itself, or nowhere. */
  lemma EventOnlyAt(k: Kernel, pid: nat, event: SystemEvent, arg: nat, h: nat)
    requires Base(k) && Ipc(k, None) && h in k.servers
    ensures var k' := SendEvent(k, pid, event, arg);
      && k'.limits == k.limits && k'.servers.Keys == k.servers.Keys && SameButEvents(k, k')
      && (forall g | g in k.servers ::
            k'.servers[g].q.sid == k.servers[g].q.sid && k'.servers[g].q.pid == k.servers[g].q.pid)
      && (k.servers[h].q.pid != pid ==> k'.servers[h] == k.servers[h])
      && (if exists id :: Listens(k, pid, event, h, id) && HasRoom(k.servers[h].q)
          then exists id | Listens(k, pid, event, h, id) ::
              k'.servers[h].q.sent == k.servers[h].q.sent + [Notice(id, arg)]
          else k'.servers[h].q.sent == k.servers[h].q.sent)
  {
    hide Base, Ipc, SendInner, ServerIndex, HasRoom, Notice, Reaches;
    if pid in k.processes && event in k.processes[pid].handlers {
      var (sid, id0) := k.processes[pid].handlers[event];
      ListenerIndex(k, pid, sid, 0);
      var s := ServerIndex(k, sid, Some(pid), 0);
      if s < k.limits.servers {
        var k' := SendInner(k, Id(k.current.pid, IRQ_TID), s, Notice(id0, arg), Ok(0)).0;
        assert Notice(id0, arg).Scalar? by { NoticeIsScalar(id0, arg); }
        assert SendEvent(k, pid, event, arg) == k' by { NoticeIsScalar(id0, arg); }
        NoticeOnlyAt(k, s, Notice(id0, arg));
        NoticeSent(k, s, Notice(id0, arg));
        assert Listens(k, pid, event, s, id0);
        assert forall g, id :: Listens(k, pid, event, g, id) ==> g == s && id == id0;
        if HasRoom(k.servers[s].q) { RecordsReach(k, k', s, Notice(id0, arg), Id(k.current.pid, IRQ_TID)); }
      } else {
        assert forall g, id :: !Listens(k, pid, event, g, id);
      }
    }
  }

  lemma NoticeIsScalar(id: nat, arg: nat)
    ensures Notice(id, arg) == Scalar(ScalarBody(id, arg, 0, 0, 0))
  {
  }

  lemma NoticeDue(k: Kernel, k1: Kernel, k': Kernel, s: nat, pid: nat, h: nat, i: nat)
    requires ConnsBut(k, s, pid) && h in k.servers && pid in k.processes && h in k'.servers
    requires i < |k.processes[pid].connections| && k.processes[pid].connections[i].Connected?
    requires k.processes[pid].connections[i].sidx == s
    requires k1.servers == k.servers && k1.limits == k.limits
    requires pid in k1.processes && k1.processes[pid].handlers == k.processes[pid].handlers
    requires if exists id :: Listens(k1, pid, Disconnected, h, id) && HasRoom(k1.servers[h].q)
      then exists id | Listens(k1, pid, Disconnected, h, id) ::
             k'.servers[h].q.sent == k1.servers[h].q.sent + [Notice(id, i + 2)]
      else k'.servers[h].q.sent == k1.servers[h].q.sent
    ensures k.servers[h].q.pid == pid ==> GetsNotice(k, k', s, h)
  {
    hide HasRoom, Notice;
    if k.servers[h].q.pid == pid {
      forall id
        ensures Listens(k1, pid, Disconnected, h, id) <==> Listens(k, pid, Disconnected, h, id)
      {
        ListensSame(k, k1, pid, Disconnected, h, id);
      }
      forall j, id | Notified(k, s, h, j, id)
        ensures j == i
      {
        assert ConnAt(k, pid, j).Connected? && ConnAt(k, pid, i).Connected?;
      }
      if id :| Listens(k1, pid, Disconnected, h, id) && HasRoom(k1.servers[h].q) {
        assert Notified(k, s, h, i, id);
      }
    }
  }

  lemma NotifiedSame(k: Kernel, k': Kernel, s: nat, h: nat)
    requires h in k.servers && h in k'.servers && k'.servers[h] == k.servers[h]
    requires k'.limits == k.limits && k'.servers.Keys == k.servers.Keys && k'.processes.Keys == k.processes.Keys
    requires forall g | g in k.servers ::
               k'.servers[g].q.sid == k.servers[g].q.sid && k'.servers[g].q.pid == k.servers[g].q.pid
    requires var p := k.servers[h].q.pid;
      p in k.processes ==>
        && k'.processes[p].handlers == k.processes[p].handlers
        && k'.processes[p].connections == k.processes[p].connections
    ensures forall i, id :: Notified(k', s, h, i, id) <==> Notified(k, s, h, i, id)
  {
    hide Listens, HasRoom;
    var p := k.servers[h].q.pid;
    if p in k.processes {
      forall id
        ensures Listens(k', p, Disconnected, h, id) <==> Listens(k, p, Disconnected, h, id)
      {
        ListensSame(k, k', p, Disconnected, h, id);
      }
    }
  }

  lemma {:induction false} TombstonesNotify(k: Kernel, s: nat, pid: nat, n: nat, h: nat)
    requires Base(k) && Ipc(k, None) && ConnsBut(k, s, pid) && s !in k.servers && h in k.servers
    ensures var k' := TombstoneFrom(k, s, pid, n);
      && h in k'.servers
      && if pid <= k.servers[h].q.pid < pid + n then GetsNotice(k, k', s, h) || k.servers[h].q.pid !in k.processes
         else k'.servers[h] == k.servers[h]
    decreases n
  {
    hide Base, Ipc, ConnsBut, Calm, SendEvent, TombstoneConnections, OrphansStay, Notified, TombstoneOne, Notice;
    if n == 0 {
    } else if pid !in k.processes {
      ConnsButSkip(k, s, pid);
      TombstonesNotify(k, s, pid + 1, n - 1, h);
    } else {
      var k1 := TombstoneOne(k, s, pid);
      TombstoneOneOk(k, s, pid);
      TombstoneNotifies(k, s, pid, h);
      GoneStays(k, k1, s);
      TombstonesNotify(k1, s, pid + 1, n - 1, h);
      if k.servers[h].q.pid != pid { NotifiedSame(k, k1, s, h); }
      TombstoneFirst(k, s, pid, n);
    }
  }

  lemma TombstoneFirst(k: Kernel, s: nat, pid: nat, n: nat)
    requires pid in k.processes && n > 0
    ensures TombstoneFrom(k, s, pid, n) == TombstoneFrom(TombstoneOne(k, s, pid), s, pid + 1, n - 1)
  {
  }

  /** The kernel without server `s`. */
  function Without(k: Kernel, s: nat): Kernel {
    k.(servers := k.servers - {s})
  }

  /** What is due to server `h` is judged with server `s` out of the table. */
  lemma NoticesSent(k: Kernel, s: nat, h: nat)
    requires Base(k) && Ipc(k, None) && ConnsOk(k) && s in k.servers && k.servers[s].q.pid == k.current.pid
    requires h in k.servers && h != s
    ensures GetsNotice(Without(k, s), DestroySidx(k, s), s, h)
  {
    hide Base, Ipc, ConnsOk, ConnsBut, Calm, Woken, TombstoneFrom, DependsOn, Notified, Notice;
    WokenOk(k, s);
    WokenExact(k, s);
    OwnerInRange(k, h);
    DestroyIs(k, s);
    TombstonesNotify(Woken(k, s), s, 1, k.limits.processes, h);
    NotifiedSame(Without(k, s), Woken(k, s), s, h);
  }

  lemma OwnerInRange(k: Kernel, h: nat)
    requires Base(k) && Ipc(k, None) && h in k.servers
    ensures k.servers[h].q.pid in k.processes && 1 <= k.servers[h].q.pid <= k.limits.processes
  {
  }

  /**
   Closing a server: those who depended on it are ready and told, every connection to it is a tombstone
   with the references it had, and the processes that listen for it get a notice, each at its own server.
   */
  ghost predicate Closes(k: Kernel, k': Kernel, s: nat)
    requires s in k.servers
  {
    && k'.current == k.current && k'.servers.Keys == k.servers.Keys - {s}
    && (forall x | x in k.threads && DependsOn(k, s, x) :: x in k'.threads && k'.threads[x] == ToldGone(k.threads[x]))
    && (forall p: nat, i: nat :: ConnAt(k', p, i) ==
          if ConnAt(k, p, i).Connected? && ConnAt(k, p, i).sidx == s then Tombstone(ConnAt(k, p, i).refcount)
          else ConnAt(k, p, i))
    && (forall h | h in k.servers && h != s :: GetsNotice(Without(k, s), k', s, h))
  }

  lemma DestroyCloses(k: Kernel, s: nat)
    requires Base(k) && Ipc(k, None) && ConnsOk(k) && s in k.servers && k.servers[s].q.pid == k.current.pid
    ensures Closes(k, DestroySidx(k, s), s)
  {
    hide Base, Ipc, ConnsOk, DestroySidx, DependsOn, GetsNotice, Calm, OrphansStay, PatientStay, Orphan;
    var k' := DestroySidx(k, s);
    DestroyOk(k, s);
    assert k'.current == k.current by { CalmCurrent(k, k'); }
    DestroyBuriesConnections(k, s);
    forall x | x in k.threads && DependsOn(k, s, x)
      ensures x in k'.threads && k'.threads[x] == ToldGone(k.threads[x])
    {
      DependentsTold(k, s, x);
    }
    forall h | h in k.servers && h != s
      ensures GetsNotice(Without(k, s), k', s, h)
    {
      NoticesSent(k, s, h);
    }
  }

  lemma CalmCurrent(k: Kernel, k': Kernel)
    requires Calm(k, k')
    ensures k'.current == k.current
  {
  }

  lemma CloseServerStep(k: Kernel, sid: nat)
    requires Sound(k) && k.current.tid != IRQ_TID
    ensures var (k', r) := Step(k, SysCall(CloseServer(sid)));
      if !exists s :: OwnServer(k, sid, s) then k' == k && r == Error(ServerNotFound)
      else exists s | OwnServer(k, sid, s) && s in k.servers :: r == Returned(Done) && Closes(k, k', s)
  {
    hide Base, Ipc, IdleOk, ConnsOk, CurrentOk, DestroySidx, ServerIndex, Closes, OwnServer;
    Running(k);
    var s := ServerIndex(k, sid, Some(k.current.pid), 0);
    OwnIndex(k, sid, 0);
    if s < k.limits.servers {
      DestroyCloses(k, s);
    } else {
      NoneOwn(k, sid);
    }
  }

  // ---- The end of a process ---------------------------------------------------------------------

  /**
   The parent of the ending process listens at `h` for the end of its children, and there is room
   once `k1` is reached.
   */
  predicate ParentListens(k: Kernel, k1: Kernel, pid: nat, h: nat, id: nat) {
    pid in k.processes && k.processes[pid].ppid.Some? && h in k1.servers &&
    Listens(k1, k.processes[pid].ppid.value, ChildTerminated, h, id) && HasRoom(k1.servers[h].q)
  }

  /**
   The end of process `pid`: its children have no parent, the waiters of other processes are told (the
   first 64 of them), and so is the parent if it listens and has room once the servers are closed.
   */
  ghost predicate Departs(k: Kernel, k': Kernel, pid: nat, code: nat) {
    && k'.processes.Keys == k.processes.Keys - {pid}
    && (forall q | q in k'.processes ::
          k'.processes[q].ppid == if k.processes[q].ppid == Some(pid) then None else k.processes[q].ppid)
    && (forall x: Id | x.pid != pid && WaitsForExit(k, x, pid) ::
          if |EarlierWaiters(k, pid, x)| < MAX_EXIT_WAITERS then Got(k', x, WaitProcessExit(pid), Value([code]))
          else k.threads[x].mailbox.None? ==> WaitsForExit(k', x, pid) && k'.threads[x].mailbox.None?)
    && (var k1 := CloseServers(k, pid, 0, k.limits.servers);
        forall h, id | ParentListens(k, k1, pid, h, id) && h in k'.servers ::
          k'.servers[h].q.sent == k1.servers[h].q.sent + [Notice(id, code)])
  }

  lemma ActivateRecords(k: Kernel, h: nat)
    requires Base(k) && Ipc(k, None) && h in k.servers
    ensures var k' := Activate(k).0;
      h in k'.servers && k'.servers[h].q.sent == k.servers[h].q.sent
  {
    hide Base, Ipc, Activate, FirstAble, OthersWait, MustWait;
    if k.inIrq { ActivateInIrq(k); } else { ActivateRunsFirst(k); }
  }

  lemma FreeingTables(k: Kernel, pid: nat, code: nat)
    requires Inv(k) && !k.inIrq && k.current.pid == pid && pid in k.processes && pid != KERNEL_PID
    ensures k.limits.threads > 1
    ensures var k2, k4 := Closed(k, pid, code), Cleared(k, pid, code);
      k4.processes == k2.processes && k4.servers == k2.servers
  {
    hide Base, Ipc, IdleOk, ConnsOk, Closed, ExitWaiters, WakeAll, FreeThreads, NoStale, FreshBut, Retired, NoNewWaits,
         StaysOutside, Calm, Disowned, PatientStay;
    BaseThreads(k);
    ClosedOk(k, pid, code);
    var k2 := Closed(k, pid, code);
    CleanServers(k2);
    ListedSuspended(k2, pid);
    ClosingTables(k, k2, pid);
    WakeAllDelivers(k2, ExitWaiters(k2, pid, 1, k.limits.processes, []), Value([code]));
    FreeTables(Announced(k, pid, code), pid, 1, k.limits.threads - 1);
  }

  lemma CleanServers(k: Kernel)
    requires Ipc(k, None)
    ensures CleanOk(k)
  {
  }

  lemma {:induction false} FreeTables(k: Kernel, pid: nat, tid: nat, n: nat)
    ensures FreeThreads(k, pid, tid, n).processes == k.processes && FreeThreads(k, pid, tid, n).servers == k.servers
    decreases n
  {
    if n == 0 {
    } else {
      ClearTables(k, Id(pid, tid));
      hide ClearThread;
      FreeTables(ClearThread(k, Id(pid, tid)), pid, tid + 1, n - 1);
    }
  }

  lemma ClearTables(k: Kernel, x: Id)
    ensures ClearThread(k, x).processes == k.processes && ClearThread(k, x).servers == k.servers
  {
  }

  lemma ParentsKept(k: Kernel, k': Kernel)
    requires Calm(k, k')
    ensures k'.processes.Keys == k.processes.Keys
    ensures forall p | p in k.processes :: k'.processes[p].ppid == k.processes[p].ppid
  {
  }

  lemma ChildrenLetGo(k: Kernel, code: nat)
    requires Inv(k) && !k.inIrq && k.current.pid in k.processes && k.current.pid != KERNEL_PID
    ensures var k', pid := TerminateCurrent(k, code).0, k.current.pid;
      && k'.processes.Keys == k.processes.Keys - {pid}
      && (forall q | q in k'.processes ::
            k'.processes[q].ppid == if k.processes[q].ppid == Some(pid) then None else k.processes[q].ppid)
  {
    hide Base, Ipc, IdleOk, ConnsOk, Closed, Cleared, Activate, NoStale, NoNewWaits, Stays, Calm, Disowned, PatientStay,
         CurrentOk, TerminateCurrent;
    var pid := k.current.pid;
    FreeingTables(k, pid, code);
    ClosedOk(k, pid, code);
    ParentsKept(k, Closed(k, pid, code));
    RemovedOk(k, code);
    TerminateUnfold(k, code);
    SameEvents(RemoveProcess(Cleared(k, pid, code), pid));
  }

  lemma ParentIsTold(k: Kernel, code: nat, h: nat, id: nat)
    requires Inv(k) && !k.inIrq && k.current.pid in k.processes && k.current.pid != KERNEL_PID
    requires var k1 := CloseServers(k, k.current.pid, 0, k.limits.servers);
      ParentListens(k, k1, k.current.pid, h, id)
    ensures var k', k1 := TerminateCurrent(k, code).0, CloseServers(k, k.current.pid, 0, k.limits.servers);
      h in k'.servers && k'.servers[h].q.sent == k1.servers[h].q.sent + [Notice(id, code)]
  {
    hide Base, Ipc, IdleOk, ConnsOk, Cleared, Activate, NoStale, NoNewWaits, Stays, Calm, Disowned, PatientStay,
         CurrentOk,
         TerminateCurrent, CloseServers, SendEvent, Closing, Listens, HasRoom, Notice;
    var pid := k.current.pid;
    var k1 := CloseServers(k, pid, 0, k.limits.servers);
    NothingDisowned(k, pid);
    CloseServersOk(k, pid, 0, k.limits.servers);
    var parent := k.processes[pid].ppid.value;
    EventOnlyAt(k1, parent, ChildTerminated, code, h);
    forall id' | Listens(k1, parent, ChildTerminated, h, id')
      ensures id' == id
    {
      ListensOnce(k1, parent, h, id, id');
    }
    FreeingTables(k, pid, code);
    RemovedOk(k, code);
    TerminateUnfold(k, code);
    var left := RemoveProcess(Cleared(k, pid, code), pid);
    assert left.servers == SendEvent(k1, parent, ChildTerminated, code).servers;
    ActivateRecords(left, h);
  }

  lemma ListensOnce(k: Kernel, pid: nat, h: nat, id: nat, id': nat)
    requires Listens(k, pid, ChildTerminated, h, id) && Listens(k, pid, ChildTerminated, h, id')
    ensures id' == id
  {
  }

  lemma WaiterOutcome(k: Kernel, code: nat, x: Id)
    requires Inv(k) && !k.inIrq && k.current.pid in k.processes && k.current.pid != KERNEL_PID
    requires x.pid != k.current.pid && WaitsForExit(k, x, k.current.pid)
    ensures var k', pid := TerminateCurrent(k, code).0, k.current.pid;
      if |EarlierWaiters(k, pid, x)| < MAX_EXIT_WAITERS then Got(k', x, WaitProcessExit(pid), Value([code]))
      else k.threads[x].mailbox.None? ==> WaitsForExit(k', x, pid) && k'.threads[x].mailbox.None?
  {
    hide Base, Ipc, IdleOk, ConnsOk, NoStale, Cleared, TerminateCurrent, RemoveProcess, Activate, NoNewWaits, Stays,
         EarlierWaiters, Got;
    var pid := k.current.pid;
    BaseThreads(k);
    ExitTellsWaiters(k, code, x);
    if |EarlierWaiters(k, pid, x)| < MAX_EXIT_WAITERS {
      GotActivates(RemoveProcess(Cleared(k, pid, code), pid), x, WaitProcessExit(pid), Value([code]));
    } else if k.threads[x].mailbox.None? {
      UntoldIsAbandoned(k, code, x);
    }
  }

  lemma TerminateEnds(k: Kernel, code: nat)
    requires Inv(k) && !k.inIrq && k.current.pid in k.processes && k.current.pid != KERNEL_PID
    ensures Departs(k, TerminateCurrent(k, code).0, k.current.pid, code)
  {
    hide Inv, TerminateCurrent, EarlierWaiters, Got, CloseServers, ParentListens, Notice, WaitsForExit;
    var k', pid := TerminateCurrent(k, code).0, k.current.pid;
    ChildrenLetGo(k, code);
    forall x: Id | x.pid != pid && WaitsForExit(k, x, pid)
      ensures x in k.threads
      ensures if |EarlierWaiters(k, pid, x)| < MAX_EXIT_WAITERS then Got(k', x, WaitProcessExit(pid), Value([code]))
              else k.threads[x].mailbox.None? ==>
                WaitsForExit(k', x, pid) && x in k'.threads && k'.threads[x].mailbox.None?
    {
      WaiterThere(k, x, pid);
      WaiterOutcome(k, code, x);
      if WaitsForExit(k', x, pid) { WaiterThere(k', x, pid); }
    }
    var k1 := CloseServers(k, pid, 0, k.limits.servers);
    forall h, id | ParentListens(k, k1, pid, h, id)
      ensures h in k1.servers && h in k'.servers && k'.servers[h].q.sent == k1.servers[h].q.sent + [Notice(id, code)]
    {
      ParentIsTold(k, code, h, id);
      ParentServer(k, k1, pid, h, id);
    }
  }

  lemma ParentServer(k: Kernel, k1: Kernel, pid: nat, h: nat, id: nat)
    requires ParentListens(k, k1, pid, h, id)
    ensures h in k1.servers
  {
  }

  lemma WaiterThere(k: Kernel, x: Id, pid: nat)
    requires WaitsForExit(k, x, pid)
    ensures x in k.threads
  {
  }

  lemma ExitStep(k: Kernel, code: nat)
    requires Sound(k) && Enabled(k, SysCall(ExitProcess(code))) && k.current.tid != IRQ_TID
    ensures Departs(k, Step(k, SysCall(ExitProcess(code))).0, k.current.pid, code)
  {
    hide Base, Ipc, IdleOk, ConnsOk, CurrentOk, TerminateCurrent, Departs;
    Running(k);
    assert !k.inIrq by { HandlerOnly(k); }
    TerminateEnds(k, code);
  }

  lemma HandlerOnly(k: Kernel)
    requires Sound(k) && k.current.tid != IRQ_TID
    ensures !k.inIrq
  {
  }

  /** Ending another process: not one's own, one that is there, and not one that the kernel started. */
  lemma KillStep(k: Kernel, pid: nat, code: nat)
    requires Sound(k) && k.current.tid != IRQ_TID
    ensures var (k', r) := Step(k, SysCall(KillProcess(pid, code)));
      if pid == k.current.pid then k' == k && r == Error(InvalidArguments)
      else if pid !in k.processes then k' == k && r == Error(ProcessNotFound)
      else if k.processes[pid].ppid == Some(KERNEL_PID) then k' == k && r == Error(AccessDenied)
      else
        && k.current in k.threads
        && Departs(k.(threads := k.threads[k.current := k.threads[k.current].(result := Some(Done))],
                   current := Id(pid, INITIAL_TID)), k', pid, code)
  {
    hide Base, Ipc, IdleOk, ConnsOk, CurrentOk, TerminateCurrent, Departs, SetResult, NoStale, NoNewWaits, Stays;
    Running(k);
    if pid != k.current.pid && pid in k.processes && k.processes[pid].ppid != Some(KERNEL_PID) {
      TargetOk(k, pid);
      ResultExact(k, k.current, Done);
      TerminateEnds(SetResult(k, k.current, Done).(current := Id(pid, INITIAL_TID)), code);
    }
  }
}
