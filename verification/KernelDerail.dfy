/**
 A run of the kernel in which two slots of a server come to name the same thread.  It starts from
 the state after start-up and derails once: a thread is suspended in a blocking send while the
 first thread that need not wait is a receiver of a server that has been closed.
 */
module KernelDerail {
  import opened Common
  import opened Rings
  import opened ServerQueue
  import opened KernelState
  import opened KernelSteps
  import opened KernelInv
  import opened KernelActivate
  import opened KernelRuns

  // ---- The states of the run --------------------------------------------------------------------

  const ONE: Id := Id(2, 1)
  const TWO: Id := Id(2, 2)

  function Sizes(): Limits {
    Limits(2, 3, 2, 1)
  }

  function ReadyThread(): Thread {
    NewThread().(state := Ready)
  }

  /** The idle thread; the rest of the kernel's own process never runs. */
  function IdleThread(result: Option<Reply>): Thread {
    Thread(Ready, 0, None, None, result)
  }

  /** The idle thread alone at priority 0, and `r` at the default priority. */
  function TwoRings(r: seq<Id>): (rings: seq<seq<Id>>)
    ensures |rings| == NUM_PRIORITIES && rings[0] == [IDLE] && rings[APP_DEFAULT] == r
    ensures forall p | 0 <= p < NUM_PRIORITIES && p != 0 && p != APP_DEFAULT :: rings[p] == []
  {
    seq(NUM_PRIORITIES, p => if p == 0 then [IDLE] else if p == APP_DEFAULT then r else [])
  }

  function Threads(idle: Option<Reply>, t1: Thread, t2: Thread): map<Id, Thread> {
    map[Id(1, 0) := NewThread(), IDLE := IdleThread(idle), Id(1, 2) := NewThread(),
        Id(2, 0) := NewThread(), ONE := t1, TWO := t2]
  }

  function Processes(connections: seq<ConnectionSlot>, bits: set<nat>): map<nat, Process> {
    map[KERNEL_PID := Process(Some(KERNEL_PID), [FreeSlot], {}, map[]),
        2 := Process(Some(KERNEL_PID), connections, bits, map[])]
  }

  /** A kernel with one process besides its own, whose two threads are `t1` and `t2`. */
  function World(idle: Option<Reply>, t1: Thread, t2: Thread, servers: map<nat, Entry>,
                 connections: seq<ConnectionSlot>, bits: set<nat>, ring: seq<Id>, current: Id, clock: nat): Kernel
  {
    Kernel(Sizes(), Processes(connections, bits), Threads(idle, t1, t2), servers, TwoRings(ring), false, current, clock)
  }

  function FirstServer(p: P.Permissions): Entry {
    Entry(NewQueue(10, 2, 2), p, 0)
  }

  function SecondServer(p: P.Permissions): Entry {
    Entry(NewQueue(20, 2, 1), p, 1)
  }

  // ---- Small computations -----------------------------------------------------------------------

  lemma Highest(ring: seq<Id>)
    requires ring != []
    ensures HighestBelow(TwoRings(ring), NUM_PRIORITIES) == APP_DEFAULT
  {
    hide TwoRings;
    HighestUnique(TwoRings(ring), NUM_PRIORITIES, APP_DEFAULT);
  }

  /** The head of the ring runs if it has no unfinished call. */
  lemma HeadStarts(k: Kernel, ring: seq<Id>)
    requires !k.inIrq && k.rings == TwoRings(ring) && ring != [] && ring[0] in k.threads &&
             k.threads[ring[0]].future.None?
    ensures Activate(k) == (k.(current := ring[0]), Resumed) && !HeadStale(Settle(k))
  {
    hide TwoRings, HighestBelow, Poll, Suspend;
    Highest(ring);
  }

  lemma RingsDiffer(rings: seq<seq<Id>>, r: seq<Id>)
    requires |rings| == NUM_PRIORITIES && rings[0] == [IDLE] && rings[APP_DEFAULT] == r
    requires forall p | 0 <= p < NUM_PRIORITIES && p != 0 && p != APP_DEFAULT :: rings[p] == []
    ensures rings == TwoRings(r)
  {
    hide TwoRings;
  }

  lemma RingsChange(ring: seq<Id>, x: Id)
    ensures RingAdd(TwoRings(ring), APP_DEFAULT, x) == TwoRings(ring + [x])
    ensures RingDrop(TwoRings(ring), APP_DEFAULT, x) == TwoRings(Remove(ring, x))
    ensures ring != [] && ring[0] == x ==> RingYield(TwoRings(ring), APP_DEFAULT, x) == TwoRings(ring[1..] + [x])
    ensures RingYield(TwoRings(ring), 0, IDLE) == TwoRings(ring)
  {
    hide TwoRings, Remove;
    RingsDiffer(RingAdd(TwoRings(ring), APP_DEFAULT, x), ring + [x]);
    RingsDiffer(RingDrop(TwoRings(ring), APP_DEFAULT, x), Remove(ring, x));
    RingsDiffer(RingYield(TwoRings(ring), 0, IDLE), ring);
    if ring != [] && ring[0] == x {
      RingsDiffer(RingYield(TwoRings(ring), APP_DEFAULT, x), ring[1..] + [x]);
    }
  }

  lemma ThreadsSet(idle: Option<Reply>, t1: Thread, t2: Thread, t: Thread, r: Reply)
    ensures Threads(idle, t1, t2)[ONE := t] == Threads(idle, t, t2)
    ensures Threads(idle, t1, t2)[TWO := t] == Threads(idle, t1, t)
    ensures Threads(idle, t1, t2)[IDLE := IdleThread(Some(r))] == Threads(Some(r), t1, t2)
  {
  }

  // ---- The steps --------------------------------------------------------------------------------

  lemma BootIs()
    ensures var k := Boot(Sizes());
      && k.processes == map[KERNEL_PID := Process(Some(KERNEL_PID), [FreeSlot], {}, map[])]
      && k.threads == map[Id(1, 0) := NewThread(), IDLE := IdleThread(None), Id(1, 2) := NewThread()]
      && k.rings == TwoRings([])
  {
    var k := Boot(Sizes());
    BootThreads(Sizes());
    var m := map[Id(1, 0) := NewThread(), IDLE := IdleThread(None), Id(1, 2) := NewThread()];
    assert forall x: Id :: x in m <==> x.pid == KERNEL_PID && x.tid < 3;
    assert k.threads == m;
    RingsDiffer(k.rings, []);
    assert seq(1, _ => FreeSlot) == [FreeSlot];
  }

  lemma SecondProcess(k: Kernel)
    requires k.limits == Sizes() && k.current == IDLE
    requires k.processes == map[KERNEL_PID := Process(Some(KERNEL_PID), [FreeSlot], {}, map[])]
    requires k.threads == map[Id(1, 0) := NewThread(), IDLE := IdleThread(None), Id(1, 2) := NewThread()]
    ensures FreePid(k, 1) == 2
    ensures WithProcess(k, 2, NewProcess(k)) ==
            k.(processes := Processes([FreeSlot], {}), threads := Threads(None, NewThread(), NewThread()))
  {
    assert FreePid(k, 1) == FreePid(k, 2) == 2;
    assert NewProcess(k).connections == [FreeSlot];
    var k' := WithProcess(k, 2, NewProcess(k));
    assert k'.processes == Processes([FreeSlot], {});
    var n := map t: nat | t < 3 :: Id(2, t) := NewThread();
    assert forall x: Id :: x in n <==> x.pid == 2 && x.tid < 3;
    assert k'.threads == Threads(None, NewThread(), NewThread());
  }

  function World1(): Kernel {
    World(None, ReadyThread(), NewThread(), map[], [FreeSlot], {}, [ONE], IDLE, 0)
  }

  lemma Step1()
    ensures Step(Boot(Sizes()), SysCall(StartProcess(Ok(())))).0 == World1()
  {
    var k := Boot(Sizes());
    BootIs();
    SecondProcess(k);
    ThreadsSet(None, NewThread(), NewThread(), ReadyThread(), Done);
    RingsChange([], ONE);
    hide Boot, TwoRings, WithProcess, FreePid, RingAdd;
    assert [] + [ONE] == [ONE];
  }

  function World2(): Kernel {
    World(Some(Done), ReadyThread(), NewThread(), map[], [FreeSlot], {}, [ONE], ONE, 0)
  }

  lemma Step2()
    ensures Step(World1(), SysCall(YieldSlice)).0 == World2()
  {
    hide TwoRings, RingYield, Activate;
    ThreadsSet(None, ReadyThread(), NewThread(), NewThread(), Done);
    RingsChange([ONE], IDLE);
    var k := SetResult(World1(), IDLE, Done);
    assert k == World(Some(Done), ReadyThread(), NewThread(), map[], [FreeSlot], {}, [ONE], IDLE, 0);
    HeadStarts(k, [ONE]);
  }

  function World3(): Kernel {
    World(Some(Done), ReadyThread(), ReadyThread(), map[], [FreeSlot], {}, [ONE, TWO], ONE, 0)
  }

  lemma Step3()
    ensures Step(World2(), SysCall(StartThread(2))).0 == World3()
  {
    hide TwoRings, RingAdd;
    ThreadsSet(Some(Done), ReadyThread(), NewThread(), ReadyThread(), Done);
    RingsChange([ONE], TWO);
    assert [ONE] + [TWO] == [ONE, TWO];
  }

  function World4(p: P.Permissions): Kernel {
    World3().(servers := map[0 := FirstServer(p)], clock := 1)
  }

  function World5(p: P.Permissions): Kernel {
    World3().(servers := map[0 := FirstServer(p), 1 := SecondServer(p)], clock := 2)
  }

  lemma Step45(p: P.Permissions)
    ensures Step(World3(), SysCall(OpenServer(10, p, Ok(2)))).0 == World4(p)
    ensures Step(World4(p), SysCall(OpenServer(20, p, Ok(1)))).0 == World5(p)
  {
    hide TwoRings, NewQueue, Threads, Processes;
    assert FreeServer(World3(), 0) == 0;
    assert FreeServer(World4(p), 0) == FreeServer(World4(p), 1) == 1;
  }

  function Opened(p: P.Permissions): seq<ConnectionSlot> {
    [Connected(0, 1, p, 0)]
  }

  function World6(p: P.Permissions): Kernel {
    World(Some(Done), ReadyThread(), ReadyThread(), map[0 := FirstServer(p), 1 := SecondServer(p)], Opened(p), {},
          [ONE, TWO], ONE, 2)
  }

  lemma Step6(p: P.Permissions)
    ensures Step(World5(p), SysCall(TryConnect(10))).0 == World6(p)
  {
    hide TwoRings, Threads;
    var k := World5(p);
    assert ServerIndex(k, 10, None, 0) == 0;
    assert ConnectedTo([FreeSlot], 0, 0) == 1 && FreeConnection([FreeSlot], 0) == 0;
    assert [FreeSlot][0 := Connected(0, 1, p, 0)] == Opened(p);
    assert SetConnections(k, 2, Opened(p)).processes == Processes(Opened(p), {});
  }

  function World7(p: P.Permissions): Kernel {
    World(Some(Done), ReadyThread().(result := Some(Done)), ReadyThread(),
          map[0 := FirstServer(p), 1 := SecondServer(p)], Opened(p), {}, [TWO, ONE], TWO, 2)
  }

  lemma Step7(p: P.Permissions)
    ensures Step(World6(p), SysCall(YieldSlice)).0 == World7(p)
  {
    hide TwoRings, RingYield, Activate, FirstServer, SecondServer, Opened;
    var t := ReadyThread().(result := Some(Done));
    ThreadsSet(Some(Done), ReadyThread(), ReadyThread(), t, Done);
    RingsChange([ONE, TWO], ONE);
    assert [ONE, TWO][1..] + [ONE] == [TWO, ONE];
    var k := World(Some(Done), t, ReadyThread(), map[0 := FirstServer(p), 1 := SecondServer(p)], Opened(p), {},
          [TWO, ONE], ONE, 2);
    assert SetResult(World6(p), ONE, Done).(rings := TwoRings([TWO, ONE])) == k;
    HeadStarts(k, [TWO, ONE]);
  }

  /** The second thread parked on the second server. */
  function ParkedThread(): Thread {
    Thread(WaitEvent({EVENT_SERVER_MSG}), APP_DEFAULT, Some(ReceiveMessage(1, 1)), None, None)
  }

  function ParkedServer(p: P.Permissions): Entry {
    Entry(NewQueue(20, 2, 1).(readyThreads := {2}), p, 1)
  }

  function World8(p: P.Permissions): Kernel {
    World(Some(Done), ReadyThread().(result := Some(Done)), ParkedThread(),
          map[0 := FirstServer(p), 1 := ParkedServer(p)], Opened(p), {}, [ONE], ONE, 2)
  }

  /** The second thread parks on the second server. */
  lemma Parks(p: P.Permissions)
    ensures Suspend(SetQueue(World7(p), 1, NewQueue(20, 2, 1).(readyThreads := {2})), TWO, ReceiveMessage(1, 1)) ==
            World8(p).(current := TWO)
  {
    hide TwoRings, RingDrop, Opened, NewQueue, FirstServer;
    var k := World7(p);
    var t1 := ReadyThread().(result := Some(Done));
    ThreadsSet(Some(Done), t1, ReadyThread(), ReadyThread().(future := Some(ReceiveMessage(1, 1))), Done);
    ThreadsSet(Some(Done), t1, ReadyThread().(future := Some(ReceiveMessage(1, 1))), ParkedThread(), Done);
    RingsChange([TWO, ONE], TWO);
    assert Remove([TWO, ONE], TWO) == [ONE];
    assert SetQueue(k, 1, NewQueue(20, 2, 1).(readyThreads := {2})).servers == World8(p).servers;
  }

  lemma Step8(p: P.Permissions)
    ensures Step(World7(p), SysCall(ReceiveBlocking(20))).0 == World8(p) &&
            !Derails(World7(p), SysCall(ReceiveBlocking(20)))
  {
    hide TwoRings, Activate, Opened, NewQueue, Suspend, SetQueue;
    var k := World7(p);
    NewQueueIs(10, 2, 2);
    NewQueueIs(20, 2, 1);
    assert ServerIndex(k, 20, Some(2), 0) == ServerIndex(k, 20, Some(2), 1) == 1;
    assert TakeMessage(k, 1) == (k, None);
    assert {} + {2} == {2};
    Parks(p);
    HeadStarts(World8(p).(current := TWO), [ONE]);
  }

  lemma NewQueueIs(sid: nat, pid: nat, n: nat)
    ensures var q := NewQueue(sid, pid, n);
      && q.sid == sid && q.pid == pid && |q.queue| == n && (forall i | 0 <= i < n :: q.queue[i] == Empty)
      && q.queueHead == 0 && q.headGeneration == 0 && q.tailGeneration == 0 && q.emptyCount == n && q.readyThreads == {}
  {
  }

  /** The second thread, woken by the end of its server and still waiting for it. */
  function OrphanThread(): Thread {
    ParkedThread().(state := Ready, result := Some(Failed(ServerNotFound)))
  }

  function World9(p: P.Permissions): Kernel {
    World(Some(Done), ReadyThread().(result := Some(Done)), OrphanThread(), map[0 := FirstServer(p)], Opened(p), {},
          [ONE, TWO], ONE, 2)
  }

  lemma {:induction false} WakeOnly(k: Kernel, pid: nat, u: nat, t: nat)
    requires u < MASK_BITS
    ensures WakeReceivers(k, pid, {u}, t) ==
            if t <= u then SetResult(SetState(k, Id(pid, u), Ready), Id(pid, u), Failed(ServerNotFound)) else k
    decreases MASK_BITS - t
  {
    if t < MASK_BITS {
      var x := Id(pid, t);
      WakeOnly(if t == u then SetResult(SetState(k, x, Ready), x, Failed(ServerNotFound)) else k, pid, u, t + 1);
    }
  }

  /** No connection leads to server 1, so nothing is left to bury. */
  lemma NoTombstones(k: Kernel, c: seq<ConnectionSlot>)
    requires k.processes == Processes(c, {}) && |c| == 1 && !(c[0].Connected? && c[0].sidx == 1)
    ensures TombstoneFrom(k, 1, 1, 2) == k
  {
    assert ConnectedTo([FreeSlot], 1, 0) == 1 && ConnectedTo(c, 1, 0) == 1;
    assert SetConnections(k, 1, [FreeSlot]) == k;
    assert SetConnections(k, 2, c) == k;
    assert TombstoneFrom(k, 1, 3, 0) == k;
    assert TombstoneFrom(k, 1, 2, 1) == k;
  }

  lemma Step9(p: P.Permissions)
    ensures Step(World8(p), SysCall(CloseServer(20))).0 == World9(p)
  {
    hide TwoRings, RingAdd, NewQueue, WakeReceivers, TombstoneFrom, SetState;
    var k := World8(p);
    NewQueueIs(10, 2, 2);
    NewQueueIs(20, 2, 1);
    assert ServerIndex(k, 20, Some(2), 0) == ServerIndex(k, 20, Some(2), 1) == 1;
    var k1 := k.(servers := k.servers - {1});
    assert k1.servers == map[0 := FirstServer(p)];
    assert k1 == World(Some(Done), ReadyThread().(result := Some(Done)), ParkedThread(), map[0 := FirstServer(p)],
             Opened(p), {}, [ONE], ONE, 2);
    assert WakeClients(k1, ParkedServer(p).q.queue) == k1 by {
      assert WakeClients(k1, ParkedServer(p).q.queue[1..]) == k1;
    }
    WakeOnly(k1, 2, 2, 0);
    OrphanWakes(p);
    NoTombstones(World9(p), Opened(p));
  }

  lemma OrphanWakes(p: P.Permissions)
    ensures var k := World(Some(Done), ReadyThread().(result := Some(Done)), ParkedThread(), map[0 := FirstServer(p)],
            Opened(p), {}, [ONE], ONE, 2);
      SetResult(SetState(k, TWO, Ready), TWO, Failed(ServerNotFound)) == World9(p)
  {
    hide TwoRings, RingAdd, NewQueue, Opened, FirstServer;
    var t1 := ReadyThread().(result := Some(Done));
    ThreadsSet(Some(Done), t1, ParkedThread(), ParkedThread().(state := Ready), Done);
    ThreadsSet(Some(Done), t1, ParkedThread().(state := Ready), OrphanThread(), Done);
    RingsChange([ONE], TWO);
    assert [ONE] + [TWO] == [ONE, TWO];
  }

  // ---- The send that derails --------------------------------------------------------------------

  /** The first server's queue with the first `n` slots holding the blocking message of the first thread. */
  function QueueWith(b: ScalarBody, n: nat): ServerState
    requires n <= 2
  {
    var named0, named1 := BlockingScalarMessage(2, 1, 0, b), BlockingScalarMessage(2, 1, 1, b);
    var m := BlockingScalar(b);
    if n == 0 then NewQueue(10, 2, 2)
    else if n == 1 then ServerState(10, 2, [named0, Empty], 1, 0, 0, 1, 1, {}, [m], [])
    else ServerState(10, 2, [named0, named1], 0, 0, 0, 2, 0, {}, [m, m], [])
  }

  lemma Queues(b: ScalarBody)
    ensures QueueMessage(QueueWith(b, 0), 2, 1, BlockingScalar(b), None) == (Ok(0), QueueWith(b, 1))
    ensures QueueMessage(QueueWith(b, 1), 2, 1, BlockingScalar(b), None) == (Ok(1), QueueWith(b, 2))
  {
    assert QueueWith(b, 0).queue == [Empty, Empty];
    assert FirstEmpty(QueueWith(b, 0).queue, 0) == 0;
    assert FirstEmpty(QueueWith(b, 1).queue, 1) == 1;
    assert [Empty, Empty][0 := BlockingScalarMessage(2, 1, 0, b)] == QueueWith(b, 1).queue;
    assert QueueWith(b, 1).queue[1 := BlockingScalarMessage(2, 1, 1, b)] == QueueWith(b, 2).queue;
    assert QueueWith(b, 1).sent + [BlockingScalar(b)] == QueueWith(b, 2).sent;
    assert QueueWith(b, 0).sent + [BlockingScalar(b)] == QueueWith(b, 1).sent;
  }

  /** The first thread, suspended in its blocking send. */
  function WaitingThread(): Thread {
    Thread(WaitEvent({EVENT_KERNEL}), APP_DEFAULT, Some(WaitBlocking), None, Some(Done))
  }

  /** The kernel with `n` messages queued, the first thread being `t1` and the second `t2`. */
  function Sent(p: P.Permissions, b: ScalarBody, n: nat, t1: Thread, t2: Thread, bits: set<nat>, ring: seq<Id>,
          current: Id): Kernel
    requires n <= 2
  {
    World(Some(Done), t1, t2, map[0 := Entry(QueueWith(b, n), p, 0)], Opened(p), bits, ring, current, 2)
  }

  /** Nobody waits for a message of the server. */
  predicate Deaf(t: Thread) {
    t.state.WaitEvent? ==> EVENT_SERVER_MSG !in t.state.mask
  }

  lemma PostedDeaf(p: P.Permissions, b: ScalarBody, n: nat, t1: Thread, t2: Thread, bits: set<nat>, ring: seq<Id>,
          current: Id)
    requires n <= 2 && Deaf(t1) && Deaf(t2) && bits <= {EVENT_SERVER_MSG}
    ensures PostBits(Sent(p, b, n, t1, t2, bits, ring, current), 2, {EVENT_SERVER_MSG}) ==
            Sent(p, b, n, t1, t2, {EVENT_SERVER_MSG}, ring, current)
  {
    hide TwoRings, QueueWith, Opened;
    var k1 := Sent(p, b, n, t1, t2, {EVENT_SERVER_MSG}, ring, current);
    assert bits + {EVENT_SERVER_MSG} == {EVENT_SERVER_MSG};
    var was := Processes(Opened(p), bits);
    assert was[2 := was[2].(notificationBits := {EVENT_SERVER_MSG})] == Processes(Opened(p), {EVENT_SERVER_MSG});
    assert WaiterFrom(k1, 2, 3) == 3;
    assert WaiterFrom(k1, 2, 2) == 3;
    assert WaiterFrom(k1, 2, 1) == 3;
  }

  /** The message is queued, with the first thread named in the next slot. */
  lemma Queueing(p: P.Permissions, b: ScalarBody, n: nat, t1: Thread, t2: Thread, bits: set<nat>, ring: seq<Id>)
    requires n < 2 && Deaf(t1) && Deaf(t2) && bits <= {EVENT_SERVER_MSG}
    ensures var k := Sent(p, b, n, t1, t2, bits, ring, ONE);
      SendInner(k, ONE, 0, BlockingScalar(b), Ok(0)) ==
          (Sent(p, b, n + 1, t1, t2, {EVENT_SERVER_MSG}, ring, ONE), Ok(()))
  {
    hide TwoRings, QueueMessage, PostBits, Opened, Threads, Processes;
    var k := Sent(p, b, n, t1, t2, bits, ring, ONE);
    Queues(b);
    assert QueueWith(b, n).readyThreads == {} && QueueWith(b, n).emptyCount != 0;
    assert AvailableThread(QueueWith(b, n)) == None;
    assert SetQueue(k, 0, QueueWith(b, n + 1)).servers == map[0 := Entry(QueueWith(b, n + 1), p, 0)];
    assert SetQueue(k, 0, QueueWith(b, n + 1)) == Sent(p, b, n + 1, t1, t2, bits, ring, ONE);
    PostedDeaf(p, b, n + 1, t1, t2, bits, ring, ONE);
  }

  function SendIt(b: ScalarBody): Event {
    SysCall(TrySend(2, BlockingScalar(b), Ok(0)))
  }

  /** The connection leads to the first server, which belongs to the sender's own process. */
  lemma Finds(p: P.Permissions, b: ScalarBody, n: nat, t1: Thread, t2: Thread, bits: set<nat>, ring: seq<Id>)
    requires n <= 2
    ensures var k := Sent(p, b, n, t1, t2, bits, ring, ONE);
      Lookup(k, 2) == Ok(0) && Permitted(k, 2, 0, BlockingScalar(b))
  {
    hide TwoRings, Threads;
    assert QueueWith(b, n).pid == 2;
  }

  /** Suspending the first thread, whether it is in the ring or has been taken out before. */
  lemma Suspends(p: P.Permissions, b: ScalarBody, n: nat, t1: Thread, t2: Thread, bits: set<nat>, ring: seq<Id>)
    requires n <= 2 && !t1.state.Free? && !t1.state.RetryQueueFull? && t1.priority == APP_DEFAULT &&
             t1.mailbox.None? && t1.result == Some(Done)
    ensures Suspend(Sent(p, b, n, t1, t2, bits, ring, ONE), ONE, WaitBlocking) ==
            Sent(p, b, n, WaitingThread(), t2, bits, if t1.state.Ready? then Remove(ring, ONE) else ring, ONE)
  {
    hide TwoRings, QueueWith, Opened, Remove, RingDrop;
    ThreadsSet(Some(Done), t1, t2, t1.(future := Some(WaitBlocking)), Done);
    ThreadsSet(Some(Done), t1.(future := Some(WaitBlocking)), t2, WaitingThread(), Done);
    RingsChange(ring, ONE);
  }

  /** Where the first send leaves the kernel before the next thread is chosen, and after. */
  function LeftBehind(p: P.Permissions, b: ScalarBody): Kernel {
    Sent(p, b, 1, WaitingThread(), OrphanThread(), {EVENT_SERVER_MSG}, [TWO], ONE)
  }

  function World10(p: P.Permissions, b: ScalarBody): Kernel {
    Sent(p, b, 1, WaitingThread(), OrphanThread().(future := None), {EVENT_SERVER_MSG}, [TWO], ONE)
  }

  lemma OrphanAtHead(p: P.Permissions, b: ScalarBody)
    ensures var k := LeftBehind(p, b);
      && Head(k) == Some(TWO) && Settle(k) == k && HeadStale(k)
      && Activate(k) == (World10(p, b), Error(ServerNotFound))
  {
    hide TwoRings, QueueWith, Opened, HighestBelow, Suspend;
    var k := LeftBehind(p, b);
    Highest([TWO]);
    ThreadsSet(Some(Done), WaitingThread(), OrphanThread(), OrphanThread().(future := None), Done);
    assert SetFuture(k, TWO, None) == World10(p, b);
  }

  lemma Step10(p: P.Permissions, b: ScalarBody)
    ensures Leaving(World9(p), SendIt(b)) == Some(LeftBehind(p, b)) && Derails(World9(p), SendIt(b))
    ensures Step(World9(p), SendIt(b)) == (World10(p, b), Error(ServerNotFound))
  {
    hide TwoRings, QueueWith, SendInner, Suspend, Permitted, Lookup, Activate, Settle, HeadStale, Threads, Processes,
         Remove;
    var t1, t2 := ReadyThread().(result := Some(Done)), OrphanThread();
    assert World9(p) == Sent(p, b, 0, t1, t2, {}, [ONE, TWO], ONE) by { FirstQueue(b); }
    Finds(p, b, 0, t1, t2, {}, [ONE, TWO]);
    Queueing(p, b, 0, t1, t2, {}, [ONE, TWO]);
    Suspends(p, b, 1, t1, t2, {EVENT_SERVER_MSG}, [ONE, TWO]);
    assert Remove([ONE, TWO], ONE) == [TWO] by { RemoveFirst(); }
    OrphanAtHead(p, b);
  }

  lemma FirstQueue(b: ScalarBody)
    ensures QueueWith(b, 0) == NewQueue(10, 2, 2)
  {
  }

  lemma RemoveFirst()
    ensures Remove([ONE, TWO], ONE) == [TWO]
  {
  }

  function World11(p: P.Permissions, b: ScalarBody): Kernel {
    Sent(p, b, 2, WaitingThread(), OrphanThread().(future := None), {EVENT_SERVER_MSG}, [TWO], TWO)
  }

  lemma Step11(p: P.Permissions, b: ScalarBody)
    ensures Step(World10(p, b), SendIt(b)) == (World11(p, b), Resumed)
  {
    hide TwoRings, QueueWith, SendInner, Suspend, Permitted, Lookup, Activate, Processes;
    var t1, t2 := WaitingThread(), OrphanThread().(future := None);
    Finds(p, b, 1, t1, t2, {EVENT_SERVER_MSG}, [TWO]);
    Queueing(p, b, 1, t1, t2, {EVENT_SERVER_MSG}, [TWO]);
    Suspends(p, b, 2, t1, t2, {EVENT_SERVER_MSG}, [TWO]);
    HeadStarts(Sent(p, b, 2, t1, t2, {EVENT_SERVER_MSG}, [TWO], ONE), [TWO]);
  }

  // ---- The run ----------------------------------------------------------------------------------

  /** A process with two threads opens two servers; one thread parks on the second, and the other closes it. */
  function Opening(p: P.Permissions): seq<Event> {
    [SysCall(StartProcess(Ok(()))), SysCall(YieldSlice), SysCall(StartThread(2)), SysCall(OpenServer(10, p, Ok(2))),
     SysCall(OpenServer(20, p, Ok(1))), SysCall(TryConnect(10)), SysCall(YieldSlice), SysCall(ReceiveBlocking(20)),
     SysCall(CloseServer(20))]
  }

  lemma RunAt(k: Kernel, es: seq<Event>, i: nat, k1: Kernel)
    requires i < |es| && Enabled(k, es[i]) && !Derails(k, es[i]) && Step(k, es[i]).0 == k1
    ensures Run(k, es[i..]) == Run(k1, es[i + 1..])
    ensures SoundRun(k1, es[i + 1..]) ==> SoundRun(k, es[i..])
  {
    hide Step, Derails, Enabled;
    assert es[i..][0] == es[i] && es[i..][1..] == es[i + 1..];
  }

  /** An event that leaves the caller on the processor does not derail. */
  lemma OnProcessor(k: Kernel, e: Event)
    requires Leaving(k, e).None?
    ensures !Derails(k, e)
  {
  }

  lemma TwoThreads(p: P.Permissions)
    ensures Run(Boot(Sizes()), Opening(p)) == Run(World3(), Opening(p)[3..])
    ensures SoundRun(World3(), Opening(p)[3..]) ==> SoundRun(Boot(Sizes()), Opening(p))
  {
    hide Step, Derails, World1, World2, World3, Boot, Run, SoundRun, World;
    var es := Opening(p);
    assert es[0..] == es;
    Step1();
    Step2();
    Step3();
    OnProcessor(Boot(Sizes()), es[0]);
    OnProcessor(World1(), es[1]);
    OnProcessor(World2(), es[2]);
    SecondIsFree();
    RunAt(Boot(Sizes()), es, 0, World1());
    RunAt(World1(), es, 1, World2());
    RunAt(World2(), es, 2, World3());
  }

  lemma TwoServers(p: P.Permissions)
    ensures Run(World3(), Opening(p)[3..]) == Run(World5(p), Opening(p)[5..])
    ensures SoundRun(World5(p), Opening(p)[5..]) ==> SoundRun(World3(), Opening(p)[3..])
  {
    hide Step, Derails, World3, World4, World5, Run, SoundRun, World;
    var es := Opening(p);
    Step45(p);
    OnProcessor(World3(), es[3]);
    OnProcessor(World4(p), es[4]);
    RunAt(World3(), es, 3, World4(p));
    RunAt(World4(p), es, 4, World5(p));
  }

  lemma SecondIsFree()
    ensures Enabled(World2(), SysCall(StartThread(2)))
  {
  }

  lemma OneCloses(p: P.Permissions)
    ensures Run(World5(p), Opening(p)[5..]) == World9(p) && SoundRun(World5(p), Opening(p)[5..])
  {
    hide Step, Derails, World5, World6, World7, World8, World9, World;
    var es := Opening(p);
    Step6(p);
    Step7(p);
    Step8(p);
    Step9(p);
    OnProcessor(World5(p), es[5]);
    OnProcessor(World6(p), es[6]);
    OnProcessor(World8(p), es[8]);
    RunAt(World5(p), es, 5, World6(p));
    RunAt(World6(p), es, 6, World7(p));
    assert Enabled(World7(p), es[7]) by { SecondRuns(p); }
    RunAt(World7(p), es, 7, World8(p));
    RunAt(World8(p), es, 8, World9(p));
    assert es[9..] == [];
  }

  lemma SecondRuns(p: P.Permissions)
    ensures World7(p).current == TWO
  {
  }

  lemma LastNames(p: P.Permissions, b: ScalarBody)
    ensures NameAt(World10(p, b), 0, 0) == Some(ONE) && AwaitsReply(World10(p, b), ONE) && World10(p, b).current == ONE
    ensures NameAt(World11(p, b), 0, 0) == Some(ONE) && NameAt(World11(p, b), 0, 1) == Some(ONE)
  {
    hide TwoRings, Processes;
  }

  /**
   The law that no two slots name the same thread fails of the code.  After the opening, which does
   not derail, a blocking send of the running thread does: it reports an error although its message
   is queued, and leaves its sender suspended, named by the slot and still the running thread.  If
   the sender tries again, two slots name it.
   */
  lemma TwoSlotsNameOneThread(p: P.Permissions, b: ScalarBody)
    ensures Start(Sizes(), Opening(p))
    ensures var k := Run(Boot(Sizes()), Opening(p));
      var (k1, r) := Step(k, SendIt(b));
      var k2 := Step(k1, SendIt(b)).0;
      && Enabled(k, SendIt(b)) && Derails(k, SendIt(b))
      && r == Error(ServerNotFound) && k1.current == ONE && AwaitsReply(k1, ONE) && NameAt(k1, 0, 0) == Some(ONE)
      && Enabled(k1, SendIt(b)) && NameAt(k2, 0, 0) == Some(ONE) && NameAt(k2, 0, 1) == Some(ONE)
  {
    hide Step, Derails, World10, World11, World9, Boot, Run, SoundRun, NameAt, AwaitsReply;
    TwoThreads(p);
    TwoServers(p);
    OneCloses(p);
    Step10(p, b);
    Step11(p, b);
    LastNames(p, b);
    assert World9(p).current == ONE by { FirstRuns(p); }
  }

  lemma FirstRuns(p: P.Permissions)
    ensures World9(p).current == ONE
  {
  }
}
