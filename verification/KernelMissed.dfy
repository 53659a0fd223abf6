/**
 A run of the kernel in which a sender waits for room at a queue that has room: the last thread of a
 process parks at a full queue, the owner of the queue receives, and the thread is not woken.
 */
module KernelMissed {
  import opened Common
  import opened Rings
  import opened ServerQueue
  import opened KernelState
  import opened KernelSteps
  import opened KernelInv
  import opened KernelWakes
  import opened KernelMessages
  import opened KernelActivate
  import opened KernelRuns
  import opened KernelTheorems
  import opened KernelDerail

  // ---- The states of the run --------------------------------------------------------------------

  /** A queue of one slot, empty or with the message of the first thread in it. */
  function Single(b: ScalarBody, full: bool): ServerState {
    if full then ServerState(10, 2, [ScalarMessage(2, 0, b)], 0, 0, 0, 1, 0, {}, [Scalar(b)], [])
    else NewQueue(10, 2, 1)
  }

  /** The kernel with that server and a connection to it. */
  function Room(p: P.Permissions, b: ScalarBody, full: bool, t1: Thread, t2: Thread, ring: seq<Id>,
          current: Id): Kernel {
    World(Some(Done), t1, t2, map[0 := Entry(Single(b, full), p, 0)], Opened(p),
          if full then {EVENT_SERVER_MSG} else {}, ring, current, 1)
  }

  function Served(): Thread {
    ReadyThread().(result := Some(Done))
  }

  /** The second thread, which is the last of its process, waiting for room. */
  function Patient(): Thread {
    ReadyThread().(state := RetryQueueFull(0, 0))
  }

  function Room4(p: P.Permissions, b: ScalarBody): Kernel {
    World3().(servers := map[0 := Entry(Single(b, false), p, 0)], clock := 1)
  }

  function Room5(p: P.Permissions, b: ScalarBody): Kernel {
    Room(p, b, false, ReadyThread(), ReadyThread(), [ONE, TWO], ONE)
  }

  function Room6(p: P.Permissions, b: ScalarBody): Kernel {
    Room(p, b, true, Served(), ReadyThread(), [ONE, TWO], ONE)
  }

  function Room7(p: P.Permissions, b: ScalarBody): Kernel {
    Room(p, b, true, Served(), ReadyThread(), [TWO, ONE], TWO)
  }

  function Room8(p: P.Permissions, b: ScalarBody): Kernel {
    Room(p, b, true, Served(), Patient(), [ONE], ONE)
  }

  // ---- The steps --------------------------------------------------------------------------------

  function TrySendIt(b: ScalarBody): Event {
    SysCall(TrySend(2, Scalar(b), Ok(0)))
  }

  function SendPatiently(b: ScalarBody): Event {
    SysCall(Send(2, Scalar(b), Ok(0)))
  }

  lemma OpenStep(p: P.Permissions, b: ScalarBody)
    ensures Step(World3(), SysCall(OpenServer(10, p, Ok(1)))).0 == Room4(p, b)
  {
    hide TwoRings, NewQueue, Threads, Processes;
    assert FreeServer(World3(), 0) == 0;
  }

  lemma ConnectStep(p: P.Permissions, b: ScalarBody)
    ensures Step(Room4(p, b), SysCall(TryConnect(10))).0 == Room5(p, b)
  {
    hide TwoRings, Threads;
    var k := Room4(p, b);
    assert ServerIndex(k, 10, None, 0) == 0;
    assert ConnectedTo([FreeSlot], 0, 0) == 1 && FreeConnection([FreeSlot], 0) == 0;
    assert [FreeSlot][0 := Connected(0, 1, p, 0)] == Opened(p);
    assert SetConnections(k, 2, Opened(p)).processes == Processes(Opened(p), {});
  }

  /** The connection leads to the server, which belongs to the sender's own process. */
  lemma FindsRoom(p: P.Permissions, b: ScalarBody, full: bool, t1: Thread, t2: Thread, ring: seq<Id>, current: Id)
    requires current.pid == 2
    ensures var k := Room(p, b, full, t1, t2, ring, current);
      Lookup(k, 2) == Ok(0) && Permitted(k, 2, 0, Scalar(b))
  {
    hide TwoRings, Threads;
  }

  lemma Fills(b: ScalarBody)
    ensures QueueMessage(Single(b, false), 2, 1, Scalar(b), None) == (Ok(0), Single(b, true))
  {
    assert Single(b, false).queue == [Empty];
    assert FirstEmpty([Empty], 0) == 0;
    assert [Empty][0 := ScalarMessage(2, 0, b)] == Single(b, true).queue;
    assert [] + [Scalar(b)] == [Scalar(b)];
  }

  /** Nobody waits for the message. */
  lemma NobodyWakes(k: Kernel, p: P.Permissions, t1: Thread, t2: Thread)
    requires k.limits == Sizes() && k.processes == Processes(Opened(p), {}) && k.threads == Threads(Some(Done), t1, t2)
    requires t1.state.Ready? && t2.state.Ready?
    ensures PostBits(k, 2, {EVENT_SERVER_MSG}) == k.(processes := Processes(Opened(p), {EVENT_SERVER_MSG}))
  {
    hide Opened;
    var was := Processes(Opened(p), {});
    var k1 := k.(processes := Processes(Opened(p), {EVENT_SERVER_MSG}));
    assert {} + {EVENT_SERVER_MSG} == {EVENT_SERVER_MSG};
    assert was[2 := was[2].(notificationBits := {EVENT_SERVER_MSG})] == k1.processes;
    assert WaiterFrom(k1, 2, 3) == 3;
    assert WaiterFrom(k1, 2, 2) == 3;
    assert WaiterFrom(k1, 2, 1) == 3;
  }

  lemma FillStep(p: P.Permissions, b: ScalarBody)
    ensures Step(Room5(p, b), TrySendIt(b)).0 == Room6(p, b)
  {
    hide TwoRings, QueueMessage, PostBits, Opened, Activate, Lookup, Permitted, Processes;
    var k := Room5(p, b);
    FindsRoom(p, b, false, ReadyThread(), ReadyThread(), [ONE, TWO], ONE);
    Fills(b);
    assert AvailableThread(Single(b, false)) == None && Single(b, false).emptyCount == 1;
    var k1 := SetQueue(k, 0, Single(b, true));
    assert k1.servers == map[0 := Entry(Single(b, true), p, 0)];
    NobodyWakes(k1, p, ReadyThread(), ReadyThread());
    ThreadsSet(Some(Done), ReadyThread(), ReadyThread(), Served(), Done);
    var k2 := Room(p, b, true, ReadyThread(), ReadyThread(), [ONE, TWO], ONE);
    assert SendInner(k, ONE, 0, Scalar(b), Ok(0)) == (k2, Ok(()));
    assert SetResult(k2, ONE, Done) == Room6(p, b) by { ResultOfOne(p, b); }
    HeadStarts(Room6(p, b), [ONE, TWO]);
  }

  lemma ResultOfOne(p: P.Permissions, b: ScalarBody)
    ensures SetResult(Room(p, b, true, ReadyThread(), ReadyThread(), [ONE, TWO], ONE), ONE, Done) == Room6(p, b)
  {
    hide TwoRings, Opened, Processes;
    ThreadsSet(Some(Done), ReadyThread(), ReadyThread(), Served(), Done);
  }

  /** The first thread gives up the processor. */
  lemma TurnStep(p: P.Permissions, b: ScalarBody)
    ensures Step(Room6(p, b), SysCall(YieldSlice)).0 == Room7(p, b)
  {
    hide TwoRings, RingYield, Activate, Single, Opened, Processes;
    ThreadsSet(Some(Done), Served(), ReadyThread(), Served(), Done);
    RingsChange([ONE, TWO], ONE);
    assert [ONE, TWO][1..] + [ONE] == [TWO, ONE];
    var k := Room(p, b, true, Served(), ReadyThread(), [TWO, ONE], ONE);
    assert SetResult(Room6(p, b), ONE, Done).(rings := TwoRings([TWO, ONE])) == k;
    HeadStarts(k, [TWO, ONE]);
  }

  lemma NoRoom(p: P.Permissions, b: ScalarBody)
    ensures SendMessage(Room7(p, b), 2, Scalar(b), Ok(0)) == (Room7(p, b), Error(ServerQueueFull))
  {
    hide TwoRings, Opened, Lookup, Permitted, Threads, Processes;
    FindsRoom(p, b, true, Served(), ReadyThread(), [TWO, ONE], TWO);
    assert Single(b, true).emptyCount == 0;
  }

  /** The second thread finds the queue full and waits for room. */
  lemma WaitStep(p: P.Permissions, b: ScalarBody)
    ensures Step(Room7(p, b), SendPatiently(b)).0 == Room8(p, b) && !Derails(Room7(p, b), SendPatiently(b))
  {
    hide TwoRings, RingDrop, Activate, Opened, Single, SendMessage, Lookup, Permitted, Settle, HeadStale, Processes;
    FindsRoom(p, b, true, Served(), ReadyThread(), [TWO, ONE], TWO);
    NoRoom(p, b);
    assert SendParks(Room7(p, b), 2, Scalar(b), Ok(0)) == None;
    ThreadsSet(Some(Done), Served(), ReadyThread(), Patient(), Done);
    RingsChange([TWO, ONE], TWO);
    assert Remove([TWO, ONE], TWO) == [ONE];
    var left := Room8(p, b).(current := TWO);
    assert SetState(Room7(p, b), TWO, RetryQueueFull(0, 0)) == left;
    HeadStarts(left, [ONE]);
  }

  // ---- The run ----------------------------------------------------------------------------------

  /** A thread fills the queue of its process' server, and the last thread of the process finds it full. */
  function Waiting(p: P.Permissions, b: ScalarBody): seq<Event> {
    [SysCall(StartProcess(Ok(()))), SysCall(YieldSlice), SysCall(StartThread(2)), SysCall(OpenServer(10, p, Ok(1))),
     SysCall(TryConnect(10)), TrySendIt(b), SysCall(YieldSlice), SendPatiently(b)]
  }

  lemma ServerOpens(p: P.Permissions, b: ScalarBody)
    ensures Run(Boot(Sizes()), Waiting(p, b)) == Run(Room5(p, b), Waiting(p, b)[5..])
    ensures SoundRun(Room5(p, b), Waiting(p, b)[5..]) ==> SoundRun(Boot(Sizes()), Waiting(p, b))
  {
    hide Step, Derails, World1, World2, World3, Room4, Room5, Boot, Run, SoundRun, World;
    var es := Waiting(p, b);
    assert es[0..] == es;
    Step1();
    Step2();
    Step3();
    OpenStep(p, b);
    ConnectStep(p, b);
    OnProcessor(Boot(Sizes()), es[0]);
    OnProcessor(World1(), es[1]);
    OnProcessor(World2(), es[2]);
    OnProcessor(World3(), es[3]);
    OnProcessor(Room4(p, b), es[4]);
    SecondIsFree();
    RunAt(Boot(Sizes()), es, 0, World1());
    RunAt(World1(), es, 1, World2());
    RunAt(World2(), es, 2, World3());
    RunAt(World3(), es, 3, Room4(p, b));
    RunAt(Room4(p, b), es, 4, Room5(p, b));
  }

  lemma QueueFills(p: P.Permissions, b: ScalarBody)
    ensures Run(Room5(p, b), Waiting(p, b)[5..]) == Room8(p, b) && SoundRun(Room5(p, b), Waiting(p, b)[5..])
  {
    hide Step, Derails, Room5, Room6, Room7, Room8, Room;
    var es := Waiting(p, b);
    FillStep(p, b);
    TurnStep(p, b);
    WaitStep(p, b);
    assert SendParks(Room5(p, b), 2, Scalar(b), Ok(0)) == None;
    OnProcessor(Room5(p, b), es[5]);
    OnProcessor(Room6(p, b), es[6]);
    RunAt(Room5(p, b), es, 5, Room6(p, b));
    RunAt(Room6(p, b), es, 6, Room7(p, b));
    assert Enabled(Room7(p, b), es[7]) by { TwoRuns(p, b); }
    RunAt(Room7(p, b), es, 7, Room8(p, b));
    assert es[8..] == [];
  }

  lemma TwoRuns(p: P.Permissions, b: ScalarBody)
    ensures Room7(p, b).current == TWO && Room8(p, b).current == ONE
  {
  }

  /** The message leaves the queue, which has room again. */
  lemma Gains(b: ScalarBody)
    ensures TakeNext(Single(b, true)).0.Some? && TakeNext(Single(b, true)).1.emptyCount == 1
  {
  }

  lemma ReceiveIs(p: P.Permissions, b: ScalarBody)
    ensures Step(Room8(p, b), SysCall(TryReceive(10))).0 == SetQueueWaking(Room8(p, b), 0, TakeNext(Single(b, true)).1)
  {
    hide TwoRings, Opened, TakeNext, Single, SetQueueWaking, Threads, Processes;
    Gains(b);
    FullQueue(b);
    assert ServerIndex(Room8(p, b), 10, Some(2), 0) == 0;
  }

  lemma LastWaits(p: P.Permissions, b: ScalarBody)
    ensures RetriesAt(Room8(p, b), TWO, 0) && Room8(p, b).servers[0].q == Single(b, true) &&
            Room8(p, b).limits.threads == 3
  {
    hide TwoRings, Single, Processes;
  }

  lemma FirstReceives(p: P.Permissions, b: ScalarBody)
    requires Sound(Room8(p, b))
    ensures var k := Room8(p, b);
      var k' := Step(k, SysCall(TryReceive(10))).0;
      RetriesAt(k, TWO, 0) && RetriesAt(k', TWO, 0) && k'.servers[0].q.emptyCount == 1
  {
    hide Room8, TakeNext, Single, WakeRetry, Inv, CurrentOk, Step, Base, CleanOk, RetriesAt;
    var k := Room8(p, b);
    SoundParts(k);
    LastWaits(p, b);
    Gains(b);
    FullQueue(b);
    ReceiveIs(p, b);
    var q := TakeNext(Single(b, true)).1;
    assert 0 in k.servers by { RetriesFull(p, b); }
    LastThreadIsMissed(k, 0, q, TWO);
    assert SetQueueWaking(k, 0, q).servers == SetQueue(k, 0, q).servers by {
      SetQueueBase(k, 0, q);
      WakeRetryExact(SetQueue(k, 0, q), 0);
    }
  }

  lemma FullQueue(b: ScalarBody)
    ensures Single(b, true).emptyCount == 0 && Single(b, true).sid == 10 && Single(b, true).pid == 2
  {
  }

  lemma SoundParts(k: Kernel)
    requires Sound(k)
    ensures Base(k) && CleanOk(k)
  {
  }

  /**
   The promise that a sender which waits for room goes on once there is room fails of the code.  A run
   from start-up leads to the last thread of a process waiting at a full queue; a message is received,
   so that the queue has room, and the thread goes on waiting.
   */
  lemma WaitsAtRoom(p: P.Permissions, b: ScalarBody)
    ensures Start(Sizes(), Waiting(p, b))
    ensures var k := Run(Boot(Sizes()), Waiting(p, b));
      var e := SysCall(TryReceive(10));
      var k' := Step(k, e).0;
      && RetriesAt(k, TWO, 0) && k.servers[0].q.emptyCount == 0
      && Enabled(k, e) && !Derails(k, e)
      && RetriesAt(k', TWO, 0) && k'.servers[0].q.emptyCount == 1
  {
    var k := Run(Boot(Sizes()), Waiting(p, b));
    hide Step, Derails, Boot, Run, SoundRun, Room8, Waiting, RetriesAt, Single;
    ServerOpens(p, b);
    QueueFills(p, b);
    assert Reachable(k) by { assert Start(Sizes(), Waiting(p, b)); }
    ReachableSound(k);
    FirstReceives(p, b);
    assert k.servers[0].q.emptyCount == 0 by { RetriesFull(p, b); }
    OnProcessor(k, SysCall(TryReceive(10)));
    TwoRuns(p, b);
  }

  lemma RetriesFull(p: P.Permissions, b: ScalarBody)
    ensures 0 in Room8(p, b).servers && Room8(p, b).servers[0].q.emptyCount == 0
  {
  }
}
