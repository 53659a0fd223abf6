/**
 A run of the kernel in which 65 threads wait for the end of one process: when it ends, 64 of them are
 told and the last one goes on waiting for a process that is no longer there.
 */
module KernelCrowd {
  import opened Common
  import opened Rings
  import opened KernelState
  import opened KernelSteps
  import opened KernelInv
  import opened KernelSched
  import opened KernelWakes
  import opened KernelMessages
  import opened KernelActivate
  import opened KernelCalls
  import opened KernelTables
  import opened KernelRuns
  import opened KernelEndings

  // ---- States without surprises -----------------------------------------------------------------

  /** Tables of the size that the system has for threads. */
  function Wide(): Limits {
    Limits(5, 32, 0, 0)
  }

  /** The process whose end is awaited, by its only thread. */
  const HOST: Id := Id(2, 1)

  predicate Waits(t: Thread) {
    t.state.WaitEvent? && t.future == Some(WaitProcessExit(HOST.pid)) && t.mailbox.None?
  }

  predicate Runs(t: Thread, priority: nat) {
    t.state.Ready? && t.future.None? && t.priority == priority
  }

  /** Every thread either waits for the end of the host, is ready at the priority given, or is free. */
  ghost predicate Placed(k: Kernel, w: set<Id>, ready: map<Id, nat>) {
    && k.limits == Wide() && !k.inIrq && w !! ready.Keys && IDLE in ready
    && (forall x | x in w + ready.Keys :: x in k.threads && x.tid != IRQ_TID)
    && (forall x | x in k.threads :: Takes(k.threads[x], x in w, if x in ready then Some(ready[x]) else None))
  }

  ghost predicate Lineup(k: Kernel, w: set<Id>, ready: map<Id, nat>) {
    Good(k) && Placed(k, w, ready) && k.current in ready
  }

  predicate Takes(t: Thread, waits: bool, ready: Option<nat>) {
    if waits then Waits(t) else if ready.Some? then Runs(t, ready.value) else t.state.Free?
  }

  /** The running thread has the highest priority of all that are ready. */
  ghost predicate Leads(k: Kernel, ready: map<Id, nat>) {
    k.current in ready && forall x | x in ready :: ready[x] <= ready[k.current]
  }

  /** If no ready thread has an unfinished call, one of the highest priority is chosen and nothing else happens. */
  lemma PlainNext(k: Kernel)
    requires Base(k) && IdleOk(k) && !k.inIrq && forall x | IsReady(k, x) :: k.threads[x].future.None?
    ensures var h := Activate(k).0.current;
      && Activate(k) == (k.(current := h), Resumed) && IsReady(k, h) && h.tid != IRQ_TID
      && forall y | IsReady(k, y) && y.tid != IRQ_TID :: k.threads[y].priority <= k.threads[h].priority
  {
    IdleReady(k);
    ReadyHead(k, IDLE);
    HeadInRing(k);
    var h := Head(k).value;
    forall y | IsReady(k, y) && y.tid != IRQ_TID
      ensures k.threads[y].priority <= k.threads[h].priority
    {
      assert BelongsIn(k, k.threads[y].priority, y);
      assert InRing(k, k.threads[y].priority, y);
    }
  }

  lemma StepGood(k: Kernel, e: Event)
    requires Good(k) && Enabled(k, e) && !(e.SysCall? && e.call.CloseServer?)
    ensures Good(Step(k, e).0) && !Derails(k, e)
  {
    hide Inv, CurrentOk, NoStale, Step, NoNewWaits, Stays, Derails;
    StepKeeps(k, e);
  }

  /** A thread parks. */
  lemma PlacedPark(k: Kernel, k': Kernel, w: set<Id>, ready: map<Id, nat>, x: Id)
    requires Placed(k, w, ready) && x in ready && x != IDLE && x in k'.threads && Waits(k'.threads[x])
    requires k'.limits == k.limits && k'.inIrq == k.inIrq && k'.threads == k.threads[x := k'.threads[x]]
    ensures Placed(k', w + {x}, ready - {x})
  {
  }

  /** A thread starts, or changes its priority. */
  lemma PlacedRun(k: Kernel, k': Kernel, w: set<Id>, ready: map<Id, nat>, x: Id, priority: nat)
    requires Placed(k, w, ready) && x !in w && x.tid != IRQ_TID && x in k'.threads && Runs(k'.threads[x], priority)
    requires k'.limits == k.limits && k'.inIrq == k.inIrq && k'.threads == k.threads[x := k'.threads[x]]
    ensures Placed(k', w, ready[x := priority])
  {
  }

  lemma PlacedReady(k: Kernel, w: set<Id>, ready: map<Id, nat>, x: Id)
    requires Placed(k, w, ready)
    ensures x in ready ==> IsReady(k, x) && x.tid != IRQ_TID && Runs(k.threads[x], ready[x])
    ensures IsReady(k, x) ==> x in ready
  {
    assert x in ready ==> x in w + ready.Keys;
  }

  /** A line-up in which the next thread has been chosen. */
  lemma ChosenLeads(k: Kernel, w: set<Id>, ready: map<Id, nat>)
    requires Base(k) && IdleOk(k) && Placed(k, w, ready) && Good(Activate(k).0)
    ensures Lineup(Activate(k).0, w, ready) && Leads(Activate(k).0, ready)
    ensures Activate(k).0.processes == k.processes
  {
    assert !k.inIrq;
    hide Base, IdleOk, Activate, Good, Placed;
    forall x
      ensures x in ready ==> IsReady(k, x) && x.tid != IRQ_TID && Runs(k.threads[x], ready[x])
      ensures IsReady(k, x) ==> x in ready
    {
      PlacedReady(k, w, ready, x);
    }
    PlainNext(k);
    PlacedSwitch(k, Activate(k).0.current, w, ready);
  }

  lemma PlacedSwitch(k: Kernel, x: Id, w: set<Id>, ready: map<Id, nat>)
    requires Placed(k, w, ready)
    ensures Placed(k.(current := x), w, ready)
  {
  }

  // ---- The calls that are made ------------------------------------------------------------------

  function WaitForHost(): Event {
    SysCall(WaitProcess(HOST.pid))
  }

  lemma WaitStep(k: Kernel, w: set<Id>, ready: map<Id, nat>)
    requires Lineup(k, w, ready) && HOST.pid in k.processes && k.current != IDLE
    ensures Enabled(k, WaitForHost()) && !Derails(k, WaitForHost())
    ensures var k' := Step(k, WaitForHost()).0;
      && Lineup(k', w + {k.current}, ready - {k.current}) && Leads(k', ready - {k.current})
      && k'.processes == k.processes
  {
    hide Base, Ipc, IdleOk, ConnsOk, NoStale, Activate, Suspend, Derails, Placed;
    var f := WaitProcessExit(HOST.pid);
    var k1 := Suspend(k, k.current, f);
    PlacedReady(k, w, ready, k.current);
    StepGood(k, WaitForHost());
    SuspendExact(k, k.current, f);
    SuspendOk(k, k.current, f, None);
    PlacedPark(k, k1, w, ready, k.current);
    ChosenLeads(k1, w + {k.current}, ready - {k.current});
  }

  lemma CreateThreadExact(k: Kernel, tid: nat)
    requires k.current in k.threads && tid != IRQ_TID
    ensures var k' := CreateThread(k, tid).0;
      k'.current == k.current && k'.limits == k.limits && k'.processes == k.processes && k'.inIrq == k.inIrq
  {
    hide SetState, SetPriority;
    var x := Id(k.current.pid, tid);
    StateTables(k, x, Ready);
    PriorityTables(SetState(k, x, Ready), x, k.threads[k.current].priority);
  }

  lemma StateTables(k: Kernel, x: Id, state: ThreadState)
    requires x.tid != IRQ_TID
    ensures var k' := SetState(k, x, state);
      k'.current == k.current && k'.limits == k.limits && k'.processes == k.processes && k'.inIrq == k.inIrq
  {
    hide RingAdd, RingDrop;
  }

  lemma PriorityTables(k: Kernel, x: Id, priority: nat)
    ensures var k' := SetPriority(k, x, priority);
      && k'.current == k.current && k'.limits == k.limits && k'.processes == k.processes && k'.inIrq == k.inIrq
      && (x in k.threads ==> k'.threads == k.threads[x := k.threads[x].(priority := priority)])
  {
    hide RingAdd, RingDrop;
  }

  lemma StartStep(k: Kernel, w: set<Id>, ready: map<Id, nat>, tid: nat)
    requires Lineup(k, w, ready) && 1 <= tid < 32 && Id(k.current.pid, tid) !in w + ready.Keys
    ensures var e := SysCall(StartThread(tid));
      var k' := Step(k, e).0;
      && Enabled(k, e) && !Derails(k, e)
      && Lineup(k', w, ready[Id(k.current.pid, tid) := ready[k.current]]) && k'.current == k.current &&
         k'.processes == k.processes
  {
    hide Base, Ipc, IdleOk, ConnsOk, NoStale, Derails, Placed, CreateThread, Ends;
    var x := Id(k.current.pid, tid);
    FreeThread(k, w, ready, tid);
    PlacedReady(k, w, ready, k.current);
    StepGood(k, SysCall(StartThread(tid)));
    CreateThreadExact(k, tid);
    CreateThreadKeeps(k, tid);
    var k' := CreateThread(k, tid).0;
    assert k'.threads[x].priority == ready[k.current] by { RingPriority(k', ready[k.current], x); }
    PlacedRun(k, k', w, ready, x, ready[k.current]);
  }

  lemma FreeThread(k: Kernel, w: set<Id>, ready: map<Id, nat>, tid: nat)
    requires Base(k) && CurrentOk(k) && Placed(k, w, ready) && tid < 32 && Id(k.current.pid, tid) !in w + ready.Keys
    ensures Id(k.current.pid, tid) in k.threads && k.threads[Id(k.current.pid, tid)].state.Free?
  {
    assert k.current.pid in k.processes;
  }

  lemma RingPriority(k: Kernel, p: nat, x: Id)
    requires Base(k) && InRing(k, p, x)
    ensures k.threads[x].priority == p
  {
    assert BelongsIn(k, p, x);
  }

  lemma PlacedGrow(k: Kernel, pid: nat, p: Process, w: set<Id>, ready: map<Id, nat>)
    requires Placed(k, w, ready) && forall x | x in k.threads :: x.pid != pid
    ensures Placed(WithProcess(k, pid, p), w, ready)
  {
    WithProcessThreads(k, pid, p);
  }

  lemma CreateStep(k: Kernel, w: set<Id>, ready: map<Id, nat>, pid: nat)
    requires Lineup(k, w, ready) && FreePid(k, 1) == pid <= 5
    ensures var e := SysCall(StartProcess(Ok(())));
      var k' := Step(k, e).0;
      && Enabled(k, e) && !Derails(k, e) && Id(pid, INITIAL_TID) !in w
      && Lineup(k', w, ready[Id(pid, INITIAL_TID) := APP_DEFAULT]) && k'.current == k.current
      && k'.processes.Keys == k.processes.Keys + {pid}
  {
    hide Base, Ipc, IdleOk, ConnsOk, NoStale, Derails, Placed, WithProcess, SetState;
    var p, x := NewProcess(k), Id(pid, INITIAL_TID);
    var k1 := WithProcess(k, pid, p);
    var k' := SetState(k1, x, Ready);
    StepGood(k, SysCall(StartProcess(Ok(()))));
    PlacedLimits(k, w, ready);
    NewPid(k, w, ready, pid);
    PlacedReady(k, w, ready, k.current);
    PlacedGrow(k, pid, p, w, ready);
    WithProcessThreads(k, pid, p);
    WithProcessTables(k, pid, p);
    assert x in k1.threads && k1.threads[x] == NewThread();
    StartedExact(k1, x);
    StateTables(k1, x, Ready);
    PlacedRun(k1, k', w, ready, x, APP_DEFAULT);
  }

  lemma PlacedLimits(k: Kernel, w: set<Id>, ready: map<Id, nat>)
    requires Placed(k, w, ready)
    ensures k.limits == Wide()
  {
  }

  lemma NewPid(k: Kernel, w: set<Id>, ready: map<Id, nat>, pid: nat)
    requires Base(k) && Placed(k, w, ready) && pid !in k.processes
    ensures (forall x | x in k.threads :: x.pid != pid) && forall t :: Id(pid, t) !in w && Id(pid, t) !in ready
    ensures k.limits == Wide()
  {
    assert forall t | Id(pid, t) in w + ready.Keys :: Id(pid, t) in k.threads;
  }

  lemma WithProcessTables(k: Kernel, pid: nat, p: Process)
    ensures var k' := WithProcess(k, pid, p);
      k'.current == k.current && k'.processes.Keys == k.processes.Keys + {pid} && k'.limits == k.limits &&
          k'.inIrq == k.inIrq
  {
  }

  /** A thread that yields or changes its priority is ready when the next one is chosen. */
  lemma StaysLinedUp(k: Kernel, k2: Kernel, w: set<Id>, ready: map<Id, nat>, priority: nat)
    requires Lineup(k, w, ready) && Quiet(k, k2) && Base(k2) && Good(Activate(k2).0)
    requires k2.threads == k.threads[k.current := k.threads[k.current].(priority := priority, result := Some(Done))]
    ensures var k' := Activate(k2).0;
      && Lineup(k', w, ready[k.current := priority]) && Leads(k', ready[k.current := priority])
      && k'.processes.Keys == k.processes.Keys
  {
    hide Base, Ipc, IdleOk, ConnsOk, NoStale, Activate, Placed, Quiet, Ends;
    QuietCall(k, k2);
    QuietTables(k, k2);
    PlacedReady(k, w, ready, k.current);
    assert k.current !in w by { PlacedApart(k, w, ready, k.current); }
    PlacedRun(k, k2, w, ready, k.current, priority);
    ChosenLeads(k2, w, ready[k.current := priority]);
  }

  lemma PlacedApart(k: Kernel, w: set<Id>, ready: map<Id, nat>, x: Id)
    requires Placed(k, w, ready) && x in ready
    ensures x !in w
  {
  }

  lemma QuietTables(k: Kernel, k': Kernel)
    requires Quiet(k, k')
    ensures k'.limits == k.limits && k'.inIrq == k.inIrq && k'.processes.Keys == k.processes.Keys
  {
  }

  lemma YieldStep(k: Kernel, w: set<Id>, ready: map<Id, nat>)
    requires Lineup(k, w, ready)
    ensures var e := SysCall(YieldSlice);
      var k' := Step(k, e).0;
      && Enabled(k, e) && !Derails(k, e) && Lineup(k', w, ready) && Leads(k', ready) &&
         k'.processes.Keys == k.processes.Keys
  {
    hide Base, Ipc, IdleOk, ConnsOk, NoStale, Derails, Placed, Activate, RingYield, Quiet;
    PlacedReady(k, w, ready, k.current);
    StepGood(k, SysCall(YieldSlice));
    var k1 := SetResult(k, k.current, Done);
    var k2 := k1.(rings := RingYield(k.rings, k.threads[k.current].priority, k.current));
    ResultBase(k, k.current, Done);
    RingYieldBase(k1, k.current);
    YieldQuiet(k, k2.rings);
    assert ready[k.current := ready[k.current]] == ready;
    StaysLinedUp(k, k2, w, ready, ready[k.current]);
  }

  lemma PrioritiseStep(k: Kernel, w: set<Id>, ready: map<Id, nat>, priority: nat)
    requires Lineup(k, w, ready) && 0 < priority < NUM_PRIORITIES
    ensures var e := SysCall(Prioritise(priority));
      var k' := Step(k, e).0;
      && Enabled(k, e) && !Derails(k, e) && Lineup(k', w, ready[k.current := priority]) &&
         Leads(k', ready[k.current := priority])
      && k'.processes.Keys == k.processes.Keys
  {
    hide Base, Ipc, IdleOk, ConnsOk, NoStale, Derails, Placed, Activate, Quiet, SetPriority;
    PlacedReady(k, w, ready, k.current);
    StepGood(k, SysCall(Prioritise(priority)));
    var k1 := SetPriority(k, k.current, priority);
    var k2 := SetResult(k1, k.current, Done);
    SetPriorityBase(k, k.current, priority);
    PriorityQuiet(k, k.current, priority);
    PriorityTables(k, k.current, priority);
    ResultBase(k1, k.current, Done);
    ResultQuiet(k1, k.current, Done);
    QuietTrans(k, k1, k2);
    StaysLinedUp(k, k2, w, ready, priority);
  }

  // ---- Many threads -----------------------------------------------------------------------------

  /** The running thread starts `n` threads of its process, from `tid` on. */
  function Starting(tid: nat, n: nat): seq<Event>
    decreases n
  {
    if n == 0 then [] else [SysCall(StartThread(tid))] + Starting(tid + 1, n - 1)
  }

  function Crew(ready: map<Id, nat>, pid: nat, tid: nat, n: nat): map<Id, nat>
    decreases n
  {
    if n == 0 then ready else Crew(ready[Id(pid, tid) := APP_DEFAULT], pid, tid + 1, n - 1)
  }

  lemma {:induction false} CrewIs(ready: map<Id, nat>, pid: nat, tid: nat, n: nat)
    ensures forall x: Id :: x in Crew(ready, pid, tid, n) <==> x in ready || (x.pid == pid && tid <= x.tid < tid + n)
    ensures forall x | x in Crew(ready, pid, tid, n) ::
      Crew(ready, pid, tid, n)[x] == if x.pid == pid && tid <= x.tid < tid + n then APP_DEFAULT else ready[x]
    decreases n
  {
    if n == 0 {
    } else {
      CrewIs(ready[Id(pid, tid) := APP_DEFAULT], pid, tid + 1, n - 1);
      assert forall x: Id :: x.pid == pid && x.tid == tid <==> x == Id(pid, tid);
    }
  }

  lemma {:induction false} StartAll(k: Kernel, w: set<Id>, ready: map<Id, nat>, tid: nat, n: nat)
    requires Lineup(k, w, ready) && ready[k.current] == APP_DEFAULT && 1 <= tid && tid + n <= 32
    requires forall t: nat | tid <= t < tid + n :: Id(k.current.pid, t) !in w + ready.Keys
    ensures SoundRun(k, Starting(tid, n))
    ensures var k' := Run(k, Starting(tid, n));
      && Lineup(k', w, Crew(ready, k.current.pid, tid, n)) && k'.current == k.current && k'.processes == k.processes
    decreases n
  {
    hide Good, Placed, Step, Derails, Enabled;
    if n == 0 {
    } else {
      hide Run, SoundRun;
      var e, x := SysCall(StartThread(tid)), Id(k.current.pid, tid);
      var k1 := Step(k, e).0;
      StartStep(k, w, ready, tid);
      RunOne(k, e);
      RunAppend(k, [e], Starting(tid + 1, n - 1));
      StartAll(k1, w, ready[x := APP_DEFAULT], tid + 1, n - 1);
    }
  }

  /** `n` threads, one after the other, wait for the host. */
  function Waiting(n: nat): seq<Event> {
    if n == 0 then [] else [WaitForHost()] + Waiting(n - 1)
  }

  /** The threads that come before the host. */
  function Team(ready: map<Id, nat>): set<Id> {
    set x | x in ready && ready[x] == APP_DEFAULT
  }

  lemma {:induction false} WaitAll(k: Kernel, w: set<Id>, ready: map<Id, nat>)
    requires Lineup(k, w, ready) && Leads(k, ready) && HOST.pid in k.processes
    requires forall x | x in ready :: ready[x] <= APP_DEFAULT && (x == IDLE ==> ready[x] == 0)
    ensures SoundRun(k, Waiting(|Team(ready)|))
    ensures var k' := Run(k, Waiting(|Team(ready)|));
      && Lineup(k', w + Team(ready), ready - Team(ready)) && Leads(k', ready - Team(ready)) &&
         k'.processes == k.processes
    decreases |Team(ready)|
  {
    hide Good, Placed, Step, Derails, Enabled, Team;
    var team := Team(ready);
    if team == {} {
      assert w + team == w && ready - team == ready;
    } else {
      hide Run, SoundRun;
      var x := k.current;
      TeamLeads(k, ready);
      var k1 := Step(k, WaitForHost()).0;
      WaitStep(k, w, ready);
      RunOne(k, WaitForHost());
      RunAppend(k, [WaitForHost()], Waiting(|team| - 1));
      WaitAll(k1, w + {x}, ready - {x});
      TeamLess(w, ready, x);
    }
  }

  lemma TeamLeads(k: Kernel, ready: map<Id, nat>)
    requires Leads(k, ready) && Team(ready) != {}
    requires forall x | x in ready :: ready[x] <= APP_DEFAULT && (x == IDLE ==> ready[x] == 0)
    ensures k.current in Team(ready) && k.current != IDLE && |Team(ready - {k.current})| == |Team(ready)| - 1
  {
    var y :| y in Team(ready);
    assert Team(ready - {k.current}) == Team(ready) - {k.current};
  }

  lemma TeamLess(w: set<Id>, ready: map<Id, nat>, x: Id)
    requires x in Team(ready)
    ensures w + {x} + Team(ready - {x}) == w + Team(ready)
    ensures ready - {x} - Team(ready - {x}) == ready - Team(ready)
  {
    assert Team(ready - {x}) == Team(ready) - {x};
  }

  // ---- One process after the other --------------------------------------------------------------

  /** Threads 1 to `n` of a process. */
  function Seats(pid: nat, n: nat): set<Id> {
    set t: nat | 1 <= t <= n :: Id(pid, t)
  }

  lemma {:induction false} SeatCount(pid: nat, n: nat)
    ensures |Seats(pid, n)| == n
  {
    if n == 0 {
      assert Seats(pid, 0) == {};
    } else {
      SeatCount(pid, n - 1);
      assert Seats(pid, n) == Seats(pid, n - 1) + {Id(pid, n)};
    }
  }

  /** Only the idle thread and the host are ready. */
  function Quiescent(): map<Id, nat> {
    map[IDLE := 0, HOST := 1]
  }

  /** A process is started and fills up with threads. */
  function Filling(n: nat): seq<Event>
    requires n > 0
  {
    [SysCall(StartProcess(Ok(())))] + ([SysCall(YieldSlice)] + Starting(2, n - 1))
  }

  /** And all of them wait for the host. */
  function Round(n: nat): seq<Event>
    requires n > 0
  {
    Filling(n) + Waiting(n)
  }

  /** The ready threads when process `pid` has `n` threads. */
  function Filled(pid: nat, n: nat): map<Id, nat>
    requires n > 0
  {
    Crew(Quiescent()[Id(pid, INITIAL_TID) := APP_DEFAULT], pid, 2, n - 1)
  }

  /** Whoever leads is the host, or the one thread that comes before it. */
  lemma OnlyLeader(k: Kernel, x: Id)
    ensures Leads(k, Quiescent()) ==> k.current == HOST
    ensures Leads(k, Quiescent()[x := APP_DEFAULT]) ==> k.current == x
  {
    assert HOST in Quiescent() && x in Quiescent()[x := APP_DEFAULT];
  }

  lemma RoundFills(k: Kernel, w: set<Id>, pid: nat, n: nat)
    requires Lineup(k, w, Quiescent()) && k.current == HOST && HOST.pid in k.processes
    requires FreePid(k, 1) == pid <= 5 && 1 <= n < 32
    ensures SoundRun(k, Filling(n))
    ensures var k' := Run(k, Filling(n));
      && Lineup(k', w, Filled(pid, n)) && k'.current == Id(pid, INITIAL_TID) &&
         k'.processes.Keys == k.processes.Keys + {pid}
  {
    hide Good, Placed, Step, Derails, Enabled, Run, SoundRun, FreePid, Quiescent, Leads;
    var e1, e2, x := SysCall(StartProcess(Ok(()))), SysCall(YieldSlice), Id(pid, INITIAL_TID);
    var ready1 := Quiescent()[x := APP_DEFAULT];
    CreateStep(k, w, Quiescent(), pid);
    var k1 := Step(k, e1).0;
    YieldStep(k1, w, ready1);
    var k2 := Step(k1, e2).0;
    OnlyLeader(k2, x);
    SeatsFree(k, w, pid, ready1);
    StartAll(k2, w, ready1, 2, n - 1);
    RunOne(k, e1);
    RunOne(k1, e2);
    RunAppend(k1, [e2], Starting(2, n - 1));
    RunAppend(k, [e1], [e2] + Starting(2, n - 1));
  }

  lemma RoundWaits(k: Kernel, w: set<Id>, pid: nat, n: nat)
    requires Lineup(k, w, Quiescent()) && k.current == HOST && HOST.pid in k.processes
    requires FreePid(k, 1) == pid <= 5 && 1 <= n < 32
    ensures SoundRun(k, Round(n))
    ensures var k' := Run(k, Round(n));
      && Lineup(k', w + Seats(pid, n), Quiescent()) && k'.current == HOST &&
         k'.processes.Keys == k.processes.Keys + {pid}
  {
    hide Good, Placed, Step, Derails, Enabled, Run, SoundRun, FreePid, Quiescent, Crew, Team;
    var k1 := Run(k, Filling(n));
    PidIsNew(k, w, pid);
    RoundFills(k, w, pid, n);
    FullTeam(pid, n);
    SeatCount(pid, n);
    WaitAll(k1, w, Filled(pid, n));
    OnlyLeader(Run(k1, Waiting(n)), HOST);
    RunAppend(k, Filling(n), Waiting(n));
  }

  lemma PidIsNew(k: Kernel, w: set<Id>, pid: nat)
    requires Lineup(k, w, Quiescent()) && FreePid(k, 1) == pid <= 5 && HOST.pid in k.processes
    ensures pid !in k.processes && pid != HOST.pid && pid != KERNEL_PID
  {
    assert IdleOk(k);
  }

  lemma SeatsFree(k: Kernel, w: set<Id>, pid: nat, ready: map<Id, nat>)
    requires Lineup(k, w, Quiescent()) && FreePid(k, 1) == pid <= 5 && HOST.pid in k.processes
    requires ready == Quiescent()[Id(pid, INITIAL_TID) := APP_DEFAULT]
    ensures forall t: nat | 2 <= t :: Id(pid, t) !in w + ready.Keys
  {
    PidIsNew(k, w, pid);
    NewPid(k, w, Quiescent(), pid);
  }

  lemma FullTeam(pid: nat, n: nat)
    requires n >= 1 && pid != HOST.pid && pid != KERNEL_PID
    ensures var ready := Filled(pid, n);
      && Id(pid, INITIAL_TID) in ready && ready[Id(pid, INITIAL_TID)] == APP_DEFAULT && Team(ready) == Seats(pid, n) &&
         ready - Team(ready) == Quiescent()
      && forall x | x in ready :: ready[x] <= APP_DEFAULT && (x == IDLE ==> ready[x] == 0)
  {
    CrewIs(Quiescent()[Id(pid, INITIAL_TID) := APP_DEFAULT], pid, 2, n - 1);
    var ready := Filled(pid, n);
    assert forall x: Id :: x in Seats(pid, n) <==> x.pid == pid && 1 <= x.tid <= n by {
      assert forall x: Id :: x == Id(x.pid, x.tid);
    }
    assert Team(ready) == Seats(pid, n);
    assert ready - Team(ready) == Quiescent();
  }

  // ---- The run ----------------------------------------------------------------------------------

  /** The host is started and steps back behind threads of the default priority. */
  function Opening(): seq<Event> {
    [SysCall(StartProcess(Ok(())))] + ([SysCall(YieldSlice)] + [SysCall(Prioritise(1))])
  }

  lemma BootLine()
    ensures Lineup(Boot(Wide()), {}, map[IDLE := 0]) && Boot(Wide()).processes.Keys == {KERNEL_PID}
  {
    BootGood(Wide());
    BootThreads(Wide());
    hide Good;
  }

  lemma HostWaits()
    ensures SoundRun(Boot(Wide()), Opening())
    ensures var k := Run(Boot(Wide()), Opening());
      Lineup(k, {}, Quiescent()) && k.current == HOST && k.processes.Keys == {KERNEL_PID, HOST.pid}
  {
    hide Good, Placed, Step, Derails, Enabled, Run, SoundRun, Boot;
    var e1, e2, e3 := SysCall(StartProcess(Ok(()))), SysCall(YieldSlice), SysCall(Prioritise(1));
    var k0 := Boot(Wide());
    var idle: map<Id, nat> := map[IDLE := 0];
    BootLine();
    assert FreePid(k0, 1) == FreePid(k0, 2) == 2 by { PlacedLimits(k0, {}, idle); }
    CreateStep(k0, {}, idle, 2);
    var k1 := Step(k0, e1).0;
    YieldStep(k1, {}, idle[HOST := APP_DEFAULT]);
    var k2 := Step(k1, e2).0;
    assert k2.current == HOST by { assert HOST in idle[HOST := APP_DEFAULT]; }
    PrioritiseStep(k2, {}, idle[HOST := APP_DEFAULT], 1);
    var k3 := Step(k2, e3).0;
    assert idle[HOST := APP_DEFAULT][HOST := 1] == Quiescent();
    OnlyLeader(k3, HOST);
    RunOne(k0, e1);
    RunOne(k1, e2);
    RunOne(k2, e3);
    RunAppend(k1, [e2], [e3]);
    RunAppend(k0, [e1], [e2] + [e3]);
  }

  /** 65 threads of three processes wait for the host. */
  function Crowding(): seq<Event> {
    Opening() + (Round(31) + (Round(31) + Round(3)))
  }

  function Crowd(): set<Id> {
    Seats(3, 31) + Seats(4, 31) + Seats(5, 3)
  }

  lemma NextPid(k: Kernel, w: set<Id>, pid: nat)
    requires Lineup(k, w, Quiescent()) && 3 <= pid <= 5 && forall p: nat :: p in k.processes <==> 1 <= p < pid
    ensures FreePid(k, 1) == pid && HOST.pid in k.processes
  {
    assert k.limits == Wide();
    hide Good, Placed;
    FreePidFrom(k, 1, pid);
  }

  lemma {:induction false} FreePidFrom(k: Kernel, i: nat, pid: nat)
    requires i <= pid <= k.limits.processes && pid !in k.processes && forall p: nat | i <= p < pid :: p in k.processes
    ensures FreePid(k, i) == pid
    decreases pid - i
  {
    if i == pid {
    } else {
      FreePidFrom(k, i + 1, pid);
    }
  }

  lemma CrowdGathers()
    ensures SoundRun(Boot(Wide()), Crowding())
    ensures var k := Run(Boot(Wide()), Crowding());
      Lineup(k, Crowd(), Quiescent()) && k.current == HOST && HOST.pid in k.processes
  {
    hide Lineup, Run, SoundRun, Boot, Opening, Round, Seats, FreePid;
    var k0 := Boot(Wide());
    HostWaits();
    var k1 := Run(k0, Opening());
    assert forall p: nat :: p in k1.processes <==> p in k1.processes.Keys;
    NextPid(k1, {}, 3);
    RoundWaits(k1, {}, 3, 31);
    var k2 := Run(k1, Round(31));
    assert {} + Seats(3, 31) == Seats(3, 31);
    assert forall p: nat :: p in k2.processes <==> p in k2.processes.Keys;
    NextPid(k2, Seats(3, 31), 4);
    RoundWaits(k2, Seats(3, 31), 4, 31);
    var k3 := Run(k2, Round(31));
    assert forall p: nat :: p in k3.processes <==> p in k3.processes.Keys;
    NextPid(k3, Seats(3, 31) + Seats(4, 31), 5);
    RoundWaits(k3, Seats(3, 31) + Seats(4, 31), 5, 3);
    RunAppend(k2, Round(31), Round(3));
    RunAppend(k1, Round(31), Round(31) + Round(3));
    RunAppend(k0, Opening(), Round(31) + (Round(31) + Round(3)));
  }

  lemma SeatIs(pid: nat, n: nat)
    ensures forall x: Id :: x in Seats(pid, n) <==> x.pid == pid && 1 <= x.tid <= n
  {
    assert forall x: Id :: x == Id(x.pid, x.tid);
  }

  lemma CrowdIs()
    ensures |Crowd()| == 65 && Id(5, 3) in Crowd()
    ensures forall x | x in Crowd() && x != Id(5, 3) :: Precedes(x, Id(5, 3))
  {
    SeatIs(3, 31);
    SeatIs(4, 31);
    SeatIs(5, 3);
    SeatCount(3, 31);
    SeatCount(4, 31);
    SeatCount(5, 3);
    hide Seats;
    assert Seats(3, 31) !! Seats(4, 31) && (Seats(3, 31) + Seats(4, 31)) !! Seats(5, 3);
  }

  lemma WaitersAre(k: Kernel, w: set<Id>, x: Id)
    requires Placed(k, w, Quiescent()) && CleanOk(k)
    ensures WaitsForExit(k, x, HOST.pid) <==> x in w
    ensures x in w ==> k.threads[x].mailbox.None?
  {
    assert x in w ==> x in w + Quiescent().Keys;
    assert x in k.threads ==> Takes(k.threads[x], x in w, if x in Quiescent() then Some(Quiescent()[x]) else None);
  }

  lemma CrowdCount(k: Kernel)
    requires Placed(k, Crowd(), Quiescent()) && CleanOk(k)
    ensures forall x: Id :: WaitsForExit(k, x, HOST.pid) <==> x in Crowd()
    ensures |EarlierWaiters(k, HOST.pid, Id(5, 3))| == 64
  {
    CrowdIs();
    hide Placed, CleanOk, Crowd;
    forall x: Id
      ensures WaitsForExit(k, x, HOST.pid) <==> x in Crowd()
    {
      WaitersAre(k, Crowd(), x);
    }
    var earlier := EarlierWaiters(k, HOST.pid, Id(5, 3));
    assert forall x: Id :: x in earlier <==> WaitsForExit(k, x, HOST.pid) && Precedes(x, Id(5, 3));
    assert earlier == Crowd() - {Id(5, 3)};
  }

  /** When the host ends, the last of the crowd is not told. */
  lemma HostEnds(k: Kernel, code: nat)
    requires Lineup(k, Crowd(), Quiescent()) && k.current == HOST && HOST.pid in k.processes
    ensures var e := SysCall(ExitProcess(code));
      var k' := Step(k, e).0;
      && Enabled(k, e) && !Derails(k, e)
      && HOST.pid !in k'.processes && Abandoned(k', Id(5, 3)) && WaitsForExit(k', Id(5, 3), HOST.pid)
  {
    hide Base, IdleOk, ConnsOk, NoStale, Crowd, TerminateCurrent, Derails, EarlierWaiters, Placed, ServersOk, CleanOk,
         NamesOk, MailOk, ReceiversOk, RetryOk, StampsOk;
    CrowdIs();
    CrowdCount(k);
    WaitersAre(k, Crowd(), Id(5, 3));
    PlacedReady(k, Crowd(), Quiescent(), HOST);
    StepGood(k, SysCall(ExitProcess(code)));
    assert !k.inIrq by { PlacedIrq(k, Crowd(), Quiescent()); }
    UntoldIsAbandoned(k, code, Id(5, 3));
  }

  lemma PlacedIrq(k: Kernel, w: set<Id>, ready: map<Id, nat>)
    requires Placed(k, w, ready)
    ensures !k.inIrq
  {
  }

  /**
   The promise that every thread which waits for the end of a process is told fails of the code.  A run
   from start-up leads to 65 threads that wait for one process; it ends, and the last of them goes on
   waiting for a process that is no longer there.
   */
  lemma SixtyFifthIsAbandoned(code: nat)
    ensures Start(Wide(), Crowding())
    ensures var k := Run(Boot(Wide()), Crowding());
      var e := SysCall(ExitProcess(code));
      var k' := Step(k, e).0;
      && |Crowd()| == 65 && (forall x: Id :: WaitsForExit(k, x, HOST.pid) <==> x in Crowd())
      && k.current == HOST && Enabled(k, e) && !Derails(k, e)
      && HOST.pid !in k'.processes && Abandoned(k', Id(5, 3)) && WaitsForExit(k', Id(5, 3), HOST.pid)
  {
    var k := Run(Boot(Wide()), Crowding());
    hide Base, IdleOk, ConnsOk, NoStale, CurrentOk, Placed, Run, SoundRun, Boot, Crowding, Crowd, Step, Derails,
         Enabled, ServersOk, CleanOk, NamesOk, MailOk, ReceiversOk, RetryOk, StampsOk, WaitsForExit;
    CrowdGathers();
    CrowdIs();
    CrowdCount(k);
    HostEnds(k, code);
  }
}
