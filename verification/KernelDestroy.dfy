/** The end of a server: its clients, its receivers and the connections to it. */
module KernelDestroy {
  import opened Common
  import opened ServerQueue
  import opened KernelState
  import opened KernelSteps
  import opened KernelInv
  import opened KernelSched
  import opened KernelWakes
  import opened KernelMessages
  import opened KernelActivate
  import opened KernelTables

  // ---- Steps that only end things ---------------------------------------------------------------

  /** Threads wake, messages move, servers and connections end; nobody starts to wait and no slot gains a name. */
  ghost predicate Calm(k: Kernel, k': Kernel) {
    && k'.limits == k.limits && k'.clock == k.clock && k'.current == k.current && k'.inIrq == k.inIrq
    && k'.processes.Keys == k.processes.Keys
    && (forall p | p in k.processes :: k'.processes[p].ppid == k.processes[p].ppid)
    && (forall s | s in k'.servers :: SameServer(k, k', s))
    && k'.threads.Keys == k.threads.Keys
    && (forall x | x in k.threads :: TameThread(k.threads[x], k'.threads[x]))
    && (forall s, i | NameAt(k', s, i).Some? :: NameAt(k', s, i) == NameAt(k, s, i))
    && WaitsStay(k, k') && Recorded(k, k')
  }

  lemma CalmProcesses(k: Kernel, k': Kernel)
    requires Calm(k, k')
    ensures k'.processes.Keys == k.processes.Keys
  {
  }

  /** Who waits for a reply, or in vain for the end of a process, goes on waiting. */
  ghost predicate WaitsStay(k: Kernel, k': Kernel) {
    (forall x | AwaitsReply(k, x) :: AwaitsReply(k', x)) && (forall x | Abandoned(k, x) :: WaitsOn(k, k', x))
  }

  /** Server `s` of `k'` is the one `k` had. */
  predicate SameServer(k: Kernel, k': Kernel, s: nat) {
    s in k.servers && s in k'.servers && k'.servers[s].q.pid == k.servers[s].q.pid &&
        k'.servers[s].born == k.servers[s].born
  }

  lemma CalmRefl(k: Kernel)
    ensures Calm(k, k)
  {
  }

  lemma CalmTrans(k: Kernel, k1: Kernel, k2: Kernel)
    requires Calm(k, k1) && Calm(k1, k2)
    ensures Calm(k, k2)
  {
    WaitsStayTrans(k, k1, k2);
    hide WaitsStay, TameThread;
  }

  lemma WaitsStayTrans(k: Kernel, k1: Kernel, k2: Kernel)
    requires WaitsStay(k, k1) && WaitsStay(k1, k2)
    requires k1.processes.Keys == k.processes.Keys && k2.processes.Keys == k1.processes.Keys
    ensures WaitsStay(k, k2)
  {
    forall x | Abandoned(k, x)
      ensures WaitsOn(k, k2, x)
    {
      assert WaitsOn(k, k1, x);
      assert Abandoned(k1, x) ==> WaitsOn(k1, k2, x);
    }
  }

  lemma CalmKeeps(k: Kernel, k': Kernel)
    requires Calm(k, k')
    ensures IdleOk(k) ==> IdleOk(k')
    ensures CurrentOk(k) ==> CurrentOk(k')
    ensures NoNewWaits(k, k', None) && Stays(k, k')
  {
    StaysRule(k, k');
  }

  lemma TameIsCalm(k: Kernel, k': Kernel)
    requires Tame(k, k') && WaitsStay(k, k')
    requires forall s, i | NameAt(k', s, i).Some? :: NameAt(k', s, i) == NameAt(k, s, i)
    ensures Calm(k, k')
  {
  }

  // ---- Telling processes about it ---------------------------------------------------------------

  lemma SendScalarServers(k: Kernel, sender: Id, s: nat, body: ScalarBody)
    requires s in k.servers && k.servers[s].q.emptyCount != 0
    ensures var k' := SendInner(k, sender, s, Scalar(body), Ok(0)).0;
      var q := k.servers[s].q;
      k'.servers == SetQueue(k, s, if AvailableThread(q).Some?
                                   then Passed(q.(readyThreads := q.readyThreads - {AvailableThread(q).value}),
                                         Scalar(body))
                                   else QueueMessage(q, sender.pid, sender.tid, Scalar(body), None).1).servers
  {
    hide QueueMessage, AvailableThread, WaiterFrom, PostBits, HandOver, SetQueue;
    var q := k.servers[s].q;
    if AvailableThread(q).Some? {
      var q1 := Passed(q.(readyThreads := q.readyThreads - {AvailableThread(q).value}), Scalar(body));
      HandOverServers(SetQueue(k, s, q1), Id(q.pid, AvailableThread(q).value),
            Delivered(s, Envelope(sender.pid, 0, Scalar(body))));
    } else {
      PostBitsQuiet(SetQueue(k, s, QueueMessage(q, sender.pid, sender.tid, Scalar(body), None).1), q.pid,
            {EVENT_SERVER_MSG});
    }
  }

  lemma HandOverServers(k: Kernel, x: Id, r: Reply)
    ensures HandOver(k, x, r).servers == k.servers
  {
    hide SetState;
    SetStateOthers(SetFuture(k, x, None), x, Ready);
  }

  /** A message that does not block adds no name. */
  lemma SendScalarNames(k: Kernel, sender: Id, s: nat, body: ScalarBody)
    requires ServersOk(k)
    ensures var k' := SendInner(k, sender, s, Scalar(body), Ok(0)).0;
      forall r, i | NameAt(k', r, i).Some? :: NameAt(k', r, i) == NameAt(k, r, i)
  {
    if s in k.servers && k.servers[s].q.emptyCount != 0 {
      SendScalarServers(k, sender, s, body);
      EnqueueNames(k.servers[s].q, sender, Scalar(body), None);
    }
  }

  // ---- Receivers whose server is gone -----------------------------------------------------------

  /** `x` still waits for a message of a server that no longer exists. */
  predicate Orphan(k: Kernel, x: Id) {
    x in k.threads && k.threads[x].future.Some? && k.threads[x].future.value.ReceiveMessage? &&
    k.threads[x].future.value.sidx !in k.servers
  }

  /** Orphans stay orphans, who waits for a reply goes on waiting, and no server is opened or closed. */
  ghost predicate OrphansStay(k: Kernel, k': Kernel) {
    k'.servers.Keys == k.servers.Keys && (forall x | Orphan(k, x) :: Orphan(k', x)) && WaitsStay(k, k') &&
        PatientStay(k, k')
  }

  /** Suspended in a call that does not wait for a message. */
  predicate Patient(k: Kernel, x: Id) {
    x in k.threads && k.threads[x].future.Some? && !k.threads[x].future.value.ReceiveMessage?
  }

  /** Such calls and their mail are left alone. */
  ghost predicate PatientStay(k: Kernel, k': Kernel) {
    forall x | Patient(k, x) ::
      x in k'.threads && k'.threads[x].future == k.threads[x].future && k'.threads[x].mailbox == k.threads[x].mailbox
  }

  lemma PatientTrans(k: Kernel, k1: Kernel, k2: Kernel)
    requires PatientStay(k, k1) && PatientStay(k1, k2)
    ensures PatientStay(k, k2)
  {
  }

  lemma OrphansRefl(k: Kernel)
    ensures OrphansStay(k, k)
  {
  }

  lemma QuietOrphans(k: Kernel, k': Kernel)
    requires Quiet(k, k')
    ensures OrphansStay(k, k')
  {
  }

  /** A hand-over picks a thread whose server is there. */
  lemma HandOverOrphans(k: Kernel, s: nat, q: ServerState, t: nat, r: Reply)
    requires ReceiversOk(k) && s in k.servers && t in k.servers[s].q.readyThreads
    ensures OrphansStay(k, HandOver(SetQueue(k, s, q), Id(k.servers[s].q.pid, t), r))
  {
  }

  lemma PostedOrphans(k: Kernel, s: nat, q: ServerState, pid: nat)
    requires s in k.servers
    ensures OrphansStay(k, SetQueue(k, s, q)) && OrphansStay(k, PostBits(SetQueue(k, s, q), pid, {EVENT_SERVER_MSG}))
  {
    var k1 := SetQueue(k, s, q);
    hide PostBits;
    PostBitsQuiet(k1, pid, {EVENT_SERVER_MSG});
    QuietWaits(k, PostBits(k1, pid, {EVENT_SERVER_MSG}));
  }

  lemma SendScalarOrphans(k: Kernel, sender: Id, s: nat, body: ScalarBody)
    requires ReceiversOk(k)
    ensures OrphansStay(k, SendInner(k, sender, s, Scalar(body), Ok(0)).0)
  {
    if s in k.servers && k.servers[s].q.emptyCount != 0 {
      var q := k.servers[s].q;
      AvailableIsLeast(q);
      hide HandOver, SetQueue, PostBits, QueueMessage, AvailableThread, ReceiversOk, OrphansStay;
      if AvailableThread(q).Some? {
        var t := AvailableThread(q).value;
        HandOverOrphans(k, s, Passed(q.(readyThreads := q.readyThreads - {t}), Scalar(body)), t,
              Delivered(s, Envelope(sender.pid, 0, Scalar(body))));
      } else {
        PostedOrphans(k, s, QueueMessage(q, sender.pid, sender.tid, Scalar(body), None).1, q.pid);
      }
    }
  }

  lemma SendScalarOk(k: Kernel, sender: Id, s: nat, body: ScalarBody)
    requires Base(k) && Ipc(k, None)
    ensures var k' := SendInner(k, sender, s, Scalar(body), Ok(0)).0;
      Base(k') && Ipc(k', None) && Tame(k, k') && Calm(k, k') && OrphansStay(k, k')
  {
    assert ServersOk(k) && ReceiversOk(k);
    hide Base, Ipc, Tame, SendInner, Calm, ServersOk, NameAt, ReceiversOk, Orphan, WaitsStay;
    SendScalarNames(k, sender, s, body);
    SendScalarOrphans(k, sender, s, body);
    SendInnerOk(k, sender, s, Scalar(body), Ok(0));
    TameIsCalm(k, SendInner(k, sender, s, Scalar(body), Ok(0)).0);
  }

  lemma SendEventOk(k: Kernel, pid: nat, event: SystemEvent, arg: nat)
    requires Base(k) && Ipc(k, None)
    ensures var k' := SendEvent(k, pid, event, arg);
      Base(k') && Ipc(k', None) && Tame(k, k') && Calm(k, k') && OrphansStay(k, k')
  {
    hide Base, Ipc, Tame, SendInner, Calm, OrphansStay;
    TameRefl(k);
    CalmRefl(k);
    OrphansRefl(k);
    if pid in k.processes && event in k.processes[pid].handlers {
      var (sid, id) := k.processes[pid].handlers[event];
      SendScalarOk(k, Id(k.current.pid, IRQ_TID), ServerIndex(k, sid, Some(pid), 0), ScalarBody(id, arg, 0, 0, 0));
    }
  }

  // ---- Connections to the dead server -----------------------------------------------------------

  /** All connections are sound, except that processes from `pid` on may still be connected to the dead `sidx`. */
  ghost predicate ConnsBut(k: Kernel, sidx: nat, pid: nat) {
    && (forall p: nat, c: nat | ConnAt(k, p, c).Connected? ::
          (ConnAt(k, p, c).sidx == sidx && p >= pid) ||
          (ConnAt(k, p, c).sidx in k.servers && k.servers[ConnAt(k, p, c).sidx].born == ConnAt(k, p, c).born))
    && (forall p, c, d | ConnAt(k, p, c).Connected? && ConnAt(k, p, d).Connected? &&
                         ConnAt(k, p, c).sidx == ConnAt(k, p, d).sidx :: c == d)
    && (forall p, c | !ConnAt(k, p, c).FreeSlot? :: ConnAt(k, p, c).refcount >= 1)
  }

  /** One process: its only connection to the dead server becomes a tombstone. */
  lemma TombstoneConns(k: Kernel, sidx: nat, pid: nat)
    requires ConnsBut(k, sidx, pid) && sidx !in k.servers && pid in k.processes
    ensures var c := TombstoneConnections(k.processes[pid].connections, sidx).1;
      |c| == |k.processes[pid].connections| && ConnsBut(SetConnections(k, pid, c), sidx, pid + 1)
  {
    var c0 := k.processes[pid].connections;
    assert forall i | 0 <= i < |c0| :: c0[i] == ConnAt(k, pid, i);
    var c := TombstoneConnections(c0, sidx).1;
    SetConnectionsAt(k, pid, c);
    assert forall i | 0 <= i < |c| :: !(c[i].Connected? && c[i].sidx == sidx);
  }

  lemma ConnsButTame(k: Kernel, k': Kernel, sidx: nat, pid: nat)
    requires ConnsBut(k, sidx, pid) && Tame(k, k')
    ensures ConnsBut(k', sidx, pid)
  {
    assert forall p, c :: ConnAt(k', p, c) == ConnAt(k, p, c);
  }

  lemma ConnsButSkip(k: Kernel, sidx: nat, pid: nat)
    requires ConnsBut(k, sidx, pid) && pid !in k.processes
    ensures ConnsBut(k, sidx, pid + 1)
  {
  }

  lemma SetConnectionsCalm(k: Kernel, pid: nat, c: seq<ConnectionSlot>)
    requires pid in k.processes
    ensures Calm(k, SetConnections(k, pid, c)) && OrphansStay(k, SetConnections(k, pid, c))
    ensures SetConnections(k, pid, c).servers == k.servers
  {
  }

  /** One process loses its connection to the dead server and is told. */
  function TombstoneOne(k: Kernel, sidx: nat, pid: nat): Kernel
    requires pid in k.processes
  {
    var (cid, c) := TombstoneConnections(k.processes[pid].connections, sidx);
    var k1 := SetConnections(k, pid, c);
    if cid.Some? then SendEvent(k1, pid, Disconnected, cid.value) else k1
  }

  lemma TombstoneOneOk(k: Kernel, sidx: nat, pid: nat)
    requires Base(k) && Ipc(k, None) && ConnsBut(k, sidx, pid) && sidx !in k.servers && pid in k.processes
    ensures var k' := TombstoneOne(k, sidx, pid);
      Base(k') && Ipc(k', None) && ConnsBut(k', sidx, pid + 1) && Calm(k, k') && OrphansStay(k, k')
  {
    hide Base, Ipc, ConnsBut, Calm, SendEvent, SetConnections, TombstoneConnections, Tame, IdleOk, CurrentOk, NoStale;
    var (cid, c) := TombstoneConnections(k.processes[pid].connections, sidx);
    var k1 := SetConnections(k, pid, c);
    TombstoneConns(k, sidx, pid);
    SetConnectionsQuiet(k, pid, c);
    SetConnectionsIpc(k, pid, c, None);
    SetConnectionsCalm(k, pid, c);
    if cid.Some? {
      SendEventOk(k1, pid, Disconnected, cid.value);
      ConnsButTame(k1, SendEvent(k1, pid, Disconnected, cid.value), sidx, pid + 1);
      CalmTrans(k, k1, SendEvent(k1, pid, Disconnected, cid.value));
    }
  }

  lemma CalmServers(k: Kernel, k': Kernel, s: nat)
    requires Calm(k, k') && s !in k.servers
    ensures s !in k'.servers
  {
  }

  lemma {:induction false} TombstoneFromOk(k: Kernel, sidx: nat, pid: nat, n: nat)
    requires Base(k) && Ipc(k, None) && ConnsBut(k, sidx, pid) && sidx !in k.servers
    ensures var k' := TombstoneFrom(k, sidx, pid, n);
      Base(k') && Ipc(k', None) && ConnsBut(k', sidx, pid + n) && Calm(k, k') && OrphansStay(k, k')
    decreases n
  {
    hide Base, Ipc, ConnsBut, Calm, SendEvent, SetConnections, TombstoneConnections;
    CalmRefl(k);
    if n == 0 {
    } else {
      if pid !in k.processes {
        ConnsButSkip(k, sidx, pid);
        TombstoneFromOk(k, sidx, pid + 1, n - 1);
      } else {
        var k1 := TombstoneOne(k, sidx, pid);
        TombstoneOneOk(k, sidx, pid);
        CalmServers(k, k1, sidx);
        TombstoneFromOk(k1, sidx, pid + 1, n - 1);
        CalmTrans(k, k1, TombstoneFrom(k1, sidx, pid + 1, n - 1));
      }
    }
  }

  lemma ConnsButDone(k: Kernel, sidx: nat)
    requires ConnsBut(k, sidx, k.limits.processes + 1) && Shape(k)
    ensures ConnsOk(k)
  {
  }

  // ---- Taking the server out of the table -------------------------------------------------------

  lemma RemovedReceivers(k: Kernel, sidx: nat)
    requires ReceiversOk(k)
    ensures ReceiversOk(k.(servers := k.servers - {sidx}))
  {
  }

  lemma RemovedIpc(k: Kernel, sidx: nat)
    requires Ipc(k, None)
    ensures Ipc(k.(servers := k.servers - {sidx}), None)
  {
    var k' := k.(servers := k.servers - {sidx});
    RemovedReceivers(k, sidx);
    assert forall r, i :: NameAt(k', r, i) == if r == sidx then None else NameAt(k, r, i);
    assert forall y :: AwaitsReply(k', y) <==> AwaitsReply(k, y);
    assert forall y, r :: RetriesAt(k', y, r) <==> RetriesAt(k, y, r) && r != sidx;
  }

  lemma RemovedRest(k: Kernel, sidx: nat)
    requires Base(k) && ConnsOk(k)
    ensures var k' := k.(servers := k.servers - {sidx});
      Base(k') && ConnsBut(k', sidx, 1) && Calm(k, k')
  {
    var k' := k.(servers := k.servers - {sidx});
    SameScheduleBase(k, k');
    assert forall p, c :: ConnAt(k', p, c) == ConnAt(k, p, c);
    assert forall p, c | ConnAt(k, p, c).Connected? :: p >= 1;
    assert forall r, i :: NameAt(k', r, i) == if r == sidx then None else NameAt(k, r, i);
    assert forall s | s in k'.servers :: SameServer(k, k', s);
  }

  // ---- Waking everybody who waited for it -------------------------------------------------------

  /** A thread that a wake-up may make ready without further ado. */
  predicate Wakeable(k: Kernel, x: Id) {
    x in k.threads ==> x.tid != IRQ_TID && !k.threads[x].state.Free?
  }

  lemma WakeFailedOk(k: Kernel, x: Id)
    requires Base(k) && Wakeable(k, x)
    ensures var k' := SetResult(SetState(k, x, Ready), x, Failed(ServerNotFound));
      Base(k') && Quiet(k, k')
  {
    var k1 := SetState(k, x, Ready);
    if x in k.threads {
      WakeBase(k, x);
      WakeQuiet(k, x);
      hide *;
      ResultBase(k1, x, Failed(ServerNotFound));
      ResultQuiet(k1, x, Failed(ServerNotFound));
      QuietTrans(k, k1, SetResult(k1, x, Failed(ServerNotFound)));
    }
  }

  lemma QuietRefl(k: Kernel)
    ensures Quiet(k, k)
  {
  }

  lemma QuietWakeable(k: Kernel, k': Kernel, x: Id)
    requires Quiet(k, k') && Wakeable(k, x)
    ensures Wakeable(k', x)
  {
  }

  ghost predicate ClientsWakeable(k: Kernel, queue: seq<QueuedMessage>) {
    forall i | 0 <= i < |queue| && queue[i].Names().Some? :: Wakeable(k, queue[i].Names().value)
  }

  lemma {:induction false} WakeClientsOk(k: Kernel, queue: seq<QueuedMessage>)
    requires Base(k) && ClientsWakeable(k, queue)
    ensures Base(WakeClients(k, queue)) && Quiet(k, WakeClients(k, queue))
    decreases |queue|
  {
    hide Base, Quiet, SetState, SetResult, Wakeable;
    QuietRefl(k);
    if queue == [] {
    } else {
      var n := queue[0].Names();
      var k1 := match n case None => k case Some(x) => SetResult(SetState(k, x, Ready), x, Failed(ServerNotFound));
      if n.Some? { WakeFailedOk(k, n.value); }
      forall i | 0 <= i < |queue[1..]| && queue[1..][i].Names().Some?
        ensures Wakeable(k1, queue[1..][i].Names().value)
      {
        QuietWakeable(k, k1, queue[i + 1].Names().value);
      }
      WakeClientsOk(k1, queue[1..]);
      QuietTrans(k, k1, WakeClients(k1, queue[1..]));
    }
  }

  lemma {:induction false} WakeReceiversOk(k: Kernel, pid: nat, mask: set<nat>, t: nat)
    requires Base(k) && forall u | u in mask :: Wakeable(k, Id(pid, u))
    ensures var k' := WakeReceivers(k, pid, mask, t);
      Base(k') && Quiet(k, k')
    decreases MASK_BITS - t
  {
    hide Base, Quiet, SetState, SetResult, Wakeable;
    QuietRefl(k);
    if t < MASK_BITS {
      var x := Id(pid, t);
      var k1 := if t in mask then SetResult(SetState(k, x, Ready), x, Failed(ServerNotFound)) else k;
      if t in mask { WakeFailedOk(k, x); }
      forall u | u in mask
        ensures Wakeable(k1, Id(pid, u))
      {
        QuietWakeable(k, k1, Id(pid, u));
      }
      WakeReceiversOk(k1, pid, mask, t + 1);
      QuietTrans(k, k1, WakeReceivers(k1, pid, mask, t + 1));
    }
  }

  lemma WaitersWakeable(k: Kernel, sidx: nat)
    requires Ipc(k, None) && sidx in k.servers
    ensures ClientsWakeable(k, k.servers[sidx].q.queue)
    ensures forall u | u in k.servers[sidx].q.readyThreads :: Wakeable(k, Id(k.servers[sidx].q.pid, u))
  {
    var q := k.servers[sidx].q;
    forall i | 0 <= i < |q.queue| && q.queue[i].Names().Some?
      ensures Wakeable(k, q.queue[i].Names().value)
    {
      assert NameAt(k, sidx, i) == q.queue[i].Names();
    }
    forall u | u in q.readyThreads
      ensures Wakeable(k, Id(q.pid, u))
    {
      assert ReceivesFrom(k, Id(q.pid, u), sidx);
    }
  }

  // ---- The whole operation ----------------------------------------------------------------------

  /** The table without the server, after everybody who waited for it was woken. */
  function Woken(k: Kernel, sidx: nat): Kernel
    requires sidx in k.servers
  {
    var q := k.servers[sidx].q;
    WakeReceivers(WakeClients(k.(servers := k.servers - {sidx}), q.queue), k.current.pid, q.readyThreads, 0)
  }

  lemma WokenQuiet(k: Kernel, sidx: nat)
    requires Base(k) && Ipc(k, None) && sidx in k.servers && k.servers[sidx].q.pid == k.current.pid
    requires Base(k.(servers := k.servers - {sidx}))
    ensures Base(Woken(k, sidx)) && Quiet(k.(servers := k.servers - {sidx}), Woken(k, sidx))
  {
    hide Base, Ipc, Quiet, WakeClients, WakeReceivers;
    var q := k.servers[sidx].q;
    var k1 := k.(servers := k.servers - {sidx});
    WaitersWakeable(k, sidx);
    WakeClientsOk(k1, q.queue);
    var k2 := WakeClients(k1, q.queue);
    forall u | u in q.readyThreads
      ensures Wakeable(k2, Id(q.pid, u))
    {
      QuietWakeable(k1, k2, Id(q.pid, u));
    }
    WakeReceiversOk(k2, q.pid, q.readyThreads, 0);
    QuietTrans(k1, k2, WakeReceivers(k2, q.pid, q.readyThreads, 0));
  }

  lemma QuietIsCalm(k: Kernel, k': Kernel)
    requires Quiet(k, k')
    ensures Calm(k, k')
  {
  }

  lemma WokenOk(k: Kernel, sidx: nat)
    requires Base(k) && Ipc(k, None) && ConnsOk(k) && sidx in k.servers && k.servers[sidx].q.pid == k.current.pid
    ensures var k' := Woken(k, sidx);
      && Base(k') && Ipc(k', None) && ConnsBut(k', sidx, 1) && Calm(k, k') && k'.servers == k.servers - {sidx}
  {
    hide Base, Ipc, ConnsOk, ConnsBut, Calm, Quiet, Woken, Tame;
    var k1 := k.(servers := k.servers - {sidx});
    RemovedIpc(k, sidx);
    RemovedRest(k, sidx);
    WokenQuiet(k, sidx);
    QuietIpc(k1, Woken(k, sidx), None);
    QuietIsTame(k1, Woken(k, sidx));
    ConnsButTame(k1, Woken(k, sidx), sidx, 1);
    QuietIsCalm(k1, Woken(k, sidx));
    CalmTrans(k, k1, Woken(k, sidx));
    assert Woken(k, sidx).servers == k1.servers by { QuietServers(k1, Woken(k, sidx)); }
  }

  /** The threads parked on the server are left waiting for it. */
  lemma WokenOrphans(k: Kernel, sidx: nat)
    requires Base(k) && Ipc(k, None) && ConnsOk(k) && sidx in k.servers && k.servers[sidx].q.pid == k.current.pid
    ensures forall t | t in k.servers[sidx].q.readyThreads :: Orphan(Woken(k, sidx), Id(k.current.pid, t))
  {
    assert ReceiversOk(k);
    hide Base, Ipc, Quiet, Woken, Calm, ConnsBut, ConnsOk;
    var k1 := k.(servers := k.servers - {sidx});
    RemovedRest(k, sidx);
    WokenQuiet(k, sidx);
    QuietOrphans(k1, Woken(k, sidx));
    forall t | t in k.servers[sidx].q.readyThreads
      ensures Orphan(Woken(k, sidx), Id(k.current.pid, t))
    {
      assert ReceivesFrom(k, Id(k.current.pid, t), sidx);
      assert Orphan(k1, Id(k.current.pid, t));
    }
  }

  lemma QuietServers(k: Kernel, k': Kernel)
    requires Quiet(k, k')
    ensures k'.servers == k.servers
  {
  }

  lemma WokenPatient(k: Kernel, sidx: nat)
    requires Base(k) && Ipc(k, None) && ConnsOk(k) && sidx in k.servers && k.servers[sidx].q.pid == k.current.pid
    ensures PatientStay(k, Woken(k, sidx))
  {
    hide Base, Ipc, Woken, Calm, ConnsBut, ConnsOk;
    RemovedRest(k, sidx);
    WokenQuiet(k, sidx);
    QuietPatient(k.(servers := k.servers - {sidx}), Woken(k, sidx));
  }

  lemma QuietPatient(k: Kernel, k': Kernel)
    requires Quiet(k, k')
    ensures PatientStay(k, k')
  {
  }

  /** Destroying a server ends it and the connections to it, and keeps the invariants for everything else. */
  lemma DestroyOk(k: Kernel, sidx: nat)
    requires Base(k) && Ipc(k, None) && ConnsOk(k) && sidx in k.servers && k.servers[sidx].q.pid == k.current.pid
    ensures var k' := DestroySidx(k, sidx);
      && Base(k') && Ipc(k', None) && ConnsOk(k') && Calm(k, k') && k'.servers.Keys == k.servers.Keys - {sidx}
      && (forall t | t in k.servers[sidx].q.readyThreads :: Orphan(k', Id(k.current.pid, t)))
      && OrphansStay(Woken(k, sidx), k') && PatientStay(k, k')
  {
    hide Ipc, ConnsOk, ConnsBut, Calm, TombstoneFrom, WakeClients, WakeReceivers, Shape, Coupled, IrqCoupled;
    var k1 := Woken(k, sidx);
    WokenOk(k, sidx);
    TombstoneFromOk(k1, sidx, 1, k.limits.processes);
    var k' := TombstoneFrom(k1, sidx, 1, k.limits.processes);
    CalmTrans(k, k1, k');
    WokenOrphans(k, sidx);
    WokenPatient(k, sidx);
    PatientTrans(k, k1, k');
    assert k'.limits == k.limits by { CalmLimits(k, k'); }
    ConnsButDone(k', sidx);
  }

  lemma CalmLimits(k: Kernel, k': Kernel)
    requires Calm(k, k')
    ensures k'.limits == k.limits
  {
  }

  /** A server without receivers leaves none behind. */
  lemma DestroyFresh(k: Kernel, k': Kernel, sidx: nat)
    requires NoStale(k) && ReceiversOk(k) && sidx in k.servers && k.servers[sidx].q.readyThreads == {}
    requires Calm(k, k') && k'.servers.Keys == k.servers.Keys - {sidx}
    ensures NoStale(k')
  {
  }

  lemma OrphanIsStale(k: Kernel, x: Id)
    requires Orphan(k, x)
    ensures !NoStale(k)
  {
  }

  lemma DestroyInv(k: Kernel, sidx: nat)
    requires Inv(k) && CurrentOk(k) && sidx in k.servers && k.servers[sidx].q.pid == k.current.pid
    ensures var k' := DestroySidx(k, sidx);
      Inv(k') && CurrentOk(k') && NoNewWaits(k, k', None) && Stays(k, k')
  {
    hide Base, Ipc, ConnsOk, Calm, DestroySidx, IdleOk, CurrentOk, OrphansStay, Woken, Orphan, NoNewWaits, Stays;
    DestroyOk(k, sidx);
    CalmKeeps(k, DestroySidx(k, sidx));
  }

  lemma DestroyStale(k: Kernel, sidx: nat)
    requires Base(k) && Ipc(k, None) && ConnsOk(k) && sidx in k.servers && k.servers[sidx].q.pid == k.current.pid &&
             NoStale(k)
    ensures NoStale(DestroySidx(k, sidx)) <==> k.servers[sidx].q.readyThreads == {}
  {
    assert ReceiversOk(k);
    hide Base, Ipc, ConnsOk, Calm, DestroySidx, NoStale, ReceiversOk, OrphansStay, Woken, Orphan;
    DestroyOk(k, sidx);
    var k' := DestroySidx(k, sidx);
    if k.servers[sidx].q.readyThreads == {} {
      DestroyFresh(k, k', sidx);
    } else {
      var t :| t in k.servers[sidx].q.readyThreads;
      OrphanIsStale(k', Id(k.current.pid, t));
    }
  }

  /**
   Destroying a server keeps every invariant and lets its caller go on.  If every receiver had its
   server, it leaves them so exactly if no thread was parked on the destroyed one.
   */
  lemma DestroyServerKeeps(k: Kernel, sid: nat)
    requires Inv(k) && CurrentOk(k)
    ensures var k' := DestroyServer(k, sid).0;
      var s := ServerIndex(k, sid, Some(k.current.pid), 0);
      && Inv(k') && CurrentOk(k') && NoNewWaits(k, k', None) && Stays(k, k')
      && (NoStale(k) ==> (NoStale(k') <==> s >= k.limits.servers || k.servers[s].q.readyThreads == {}))
  {
    hide Base, Ipc, IdleOk, ConnsOk, CurrentOk, NoStale, NoNewWaits, Stays, DestroySidx;
    var s := ServerIndex(k, sid, Some(k.current.pid), 0);
    if s < k.limits.servers {
      DestroyInv(k, s);
      if NoStale(k) { DestroyStale(k, s); }
    } else {
      RefWaits(k);
    }
  }
}
