/** What opening and closing servers, connections, threads and processes comes to. */
module KernelOpenings {
  import opened Common
  import opened ServerQueue
  import opened KernelState
  import opened KernelSteps
  import opened KernelInv
  import opened KernelCalls
  import opened KernelTables
  import opened KernelRuns
  import opened KernelOutcomes

  // ---- Servers ----------------------------------------------------------------------------------

  /** `s` is the first place in the server table that is not taken. */
  predicate FirstFree(k: Kernel, s: nat) {
    s < k.limits.servers && s !in k.servers && forall u | 0 <= u < s :: u in k.servers
  }

  lemma {:induction false} FreeServerFirst(k: Kernel, i: nat)
    requires forall u | 0 <= u < i :: u in k.servers
    ensures var s := FreeServer(k, i);
      && (s < k.limits.servers ==> FirstFree(k, s))
      && (s >= k.limits.servers ==> forall u | 0 <= u < k.limits.servers :: u in k.servers)
    decreases k.limits.servers - i
  {
    if i < k.limits.servers && i in k.servers { FreeServerFirst(k, i + 1); }
  }

  /** A server as it starts: of this id and process, with `n` empty slots, nobody parked and no history. */
  ghost predicate NewServer(e: Entry, sid: nat, pid: nat, permissions: P.Permissions, n: nat, born: nat) {
    && e.q.sid == sid && e.q.pid == pid && e.permissions == permissions && e.born == born
    && |e.q.queue| == n && (forall i | 0 <= i < n :: e.q.queue[i].Empty?) && e.q.emptyCount == n
    && Pending(e.q) == [] && e.q.readyThreads == {} && e.q.sent == [] && e.q.received == []
  }

  /** Opening a server takes the first free place for it, and nothing else changes. */
  lemma OpenServerOutcome(k: Kernel, sid: nat, permissions: P.Permissions, backing: Result<nat>)
    requires Sound(k) && k.current.tid != IRQ_TID
    ensures var (k', r) := Step(k, SysCall(OpenServer(sid, permissions, backing)));
      if !exists s :: FirstFree(k, s) then k' == k && r == Error(ServerNotFound)
      else if backing.Err? then k' == k && r == Error(backing.error)
      else exists s | FirstFree(k, s) ::
        && r == Returned(Done) && s in k'.servers
        && k' == k.(servers := k.servers[s := k'.servers[s]], clock := k.clock + 1)
        && NewServer(k'.servers[s], sid, k.current.pid, permissions, backing.value, k.clock)
  {
    hide Inv, CurrentOk, FirstFree;
    var s := FreeServer(k, 0);
    FreeServerFirst(k, 0);
    if s >= k.limits.servers { NoneFree(k); }
  }

  lemma NoneFree(k: Kernel)
    requires forall u | 0 <= u < k.limits.servers :: u in k.servers
    ensures forall s :: !FirstFree(k, s)
  {
  }

  // ---- Connections ------------------------------------------------------------------------------

  /** `s` is the first server with this id. */
  predicate FirstNamed(k: Kernel, sid: nat, s: nat) {
    s < k.limits.servers && HasId(k, sid, s) && forall u | 0 <= u < s :: !HasId(k, sid, u)
  }

  predicate HasId(k: Kernel, sid: nat, s: nat) {
    s in k.servers && k.servers[s].q.sid == sid
  }

  lemma {:induction false} NamedIndex(k: Kernel, sid: nat, i: nat)
    requires forall u | 0 <= u < i :: !HasId(k, sid, u)
    ensures var s := ServerIndex(k, sid, None, i);
      && (s < k.limits.servers ==> FirstNamed(k, sid, s))
      && (s >= k.limits.servers ==> forall u :: !FirstNamed(k, sid, u))
    decreases k.limits.servers - i
  {
    if i < k.limits.servers && !HasId(k, sid, i) { NamedIndex(k, sid, i + 1); }
  }

  /** Slot `i` is connected to server `s`. */
  predicate ConnectedAt(c: seq<ConnectionSlot>, s: nat, i: nat) {
    i < |c| && c[i].Connected? && c[i].sidx == s
  }

  predicate FirstFreeSlot(c: seq<ConnectionSlot>, i: nat) {
    i < |c| && c[i].FreeSlot? && forall j | 0 <= j < i :: !c[j].FreeSlot?
  }

  /**
   The table after a connection to server `s` has been asked for: one reference more on the slot that
   has it, or the first free slot with the server's own permissions; without either the table is full.
   */
  ghost predicate Connects(c: seq<ConnectionSlot>, s: nat, e: Entry, c': seq<ConnectionSlot>, r: Outcome) {
    if exists i :: ConnectedAt(c, s, i) then
      exists i: nat | ConnectedAt(c, s, i) ::
        r == Returned(Value([i + 2])) && c' == c[i := Connected(s, c[i].refcount + 1, c[i].permissions, c[i].born)]
    else if exists i :: FirstFreeSlot(c, i) then
      exists i: nat | FirstFreeSlot(c, i) ::
        r == Returned(Value([i + 2])) && c' == c[i := Connected(s, 1, e.permissions, e.born)]
    else c' == c && r == Error(OutOfMemory)
  }

  lemma AddConnects(c: seq<ConnectionSlot>, s: nat, e: Entry)
    ensures var (r, c') := AddConnection(c, s, e.permissions, e.born);
      Connects(c, s, e, c', if r.Ok? then Returned(Value([r.value])) else Error(r.error))
  {
    var i := ConnectedTo(c, s, 0);
    if i < |c| {
      assert ConnectedAt(c, s, i);
    } else {
      var j := FreeConnection(c, 0);
      if j < |c| { assert FirstFreeSlot(c, j); }
    }
  }

  /** Connecting process `pid`: only its table changes. */
  ghost predicate ConnectOutcome(k: Kernel, pid: nat, sid: nat, k': Kernel, r: Outcome) {
    if !exists s :: FirstNamed(k, sid, s) then k' == k && r == Error(ServerNotFound)
    else if pid !in k.processes then k' == k && r == Error(ProcessNotFound)
    else exists s | FirstNamed(k, sid, s) && s in k.servers ::
      && pid in k'.processes
      && Connects(k.processes[pid].connections, s, k.servers[s], k'.processes[pid].connections, r)
      && k' == k.(processes := k.processes[pid := k.processes[pid].(connections := k'.processes[pid].connections)])
  }

  lemma ConnectGives(k: Kernel, pid: nat, sid: nat)
    ensures var (k', r) := Connect(k, pid, sid);
      ConnectOutcome(k, pid, sid, k', r)
  {
    hide ServerIndex, AddConnection, FirstNamed, Connects;
    var s := ServerIndex(k, sid, None, 0);
    NamedIndex(k, sid, 0);
    if s < k.limits.servers && pid in k.processes {
      AddConnects(k.processes[pid].connections, s, k.servers[s]);
    }
  }

  lemma ConnectStep(k: Kernel, sid: nat)
    ensures var (k', r) := Step(k, SysCall(TryConnect(sid)));
      ConnectOutcome(k, k.current.pid, sid, k', r)
  {
    hide Connect, ConnectOutcome;
    ConnectGives(k, k.current.pid, sid);
  }

  lemma ConnectForStep(k: Kernel, pid: nat, sid: nat)
    requires k.current.tid != IRQ_TID
    ensures var (k', r) := Step(k, SysCall(ConnectFor(pid, sid)));
      ConnectOutcome(k, pid, sid, k', r)
  {
    hide Connect, ConnectOutcome;
    ConnectGives(k, pid, sid);
  }

  /** Giving a reference back: the slot loses one, and is free without any; whatever is not a slot in use is refused. */
  lemma DisconnectStep(k: Kernel, cid: nat)
    requires Sound(k) && k.current.tid != IRQ_TID
    ensures var (k', r) := Step(k, SysCall(Close(cid)));
      k.current.pid in k.processes &&
      var p := k.processes[k.current.pid];
      if cid < 2 || cid - 2 >= |p.connections| || p.connections[cid - 2].FreeSlot?
      then k' == k && r == Error(ServerNotFound)
      else
        var slot := p.connections[cid - 2];
        var slot' := if slot.refcount <= 1 then FreeSlot else slot.(refcount := slot.refcount - 1);
        r == Returned(Done) &&
        k' == k.(processes := k.processes[k.current.pid := p.(connections := p.connections[cid - 2 := slot'])])
  {
    Running(k);
  }

  // ---- Threads and processes --------------------------------------------------------------------

  /** `pid` is the first process number that is not in use. */
  predicate FirstPid(k: Kernel, pid: nat) {
    1 <= pid <= k.limits.processes && pid !in k.processes && forall u | 1 <= u < pid :: u in k.processes
  }

  lemma {:induction false} FreePidFirst(k: Kernel, i: nat)
    requires 1 <= i && forall u | 1 <= u < i :: u in k.processes
    ensures var pid := FreePid(k, i);
      && (pid <= k.limits.processes ==> FirstPid(k, pid))
      && (pid > k.limits.processes ==> forall u :: !FirstPid(k, u))
    decreases k.limits.processes + 1 - i
  {
    if i <= k.limits.processes && i in k.processes { FreePidFirst(k, i + 1); }
  }

  /**
   A new process has the first free number, the caller as its parent, no connections, handlers or events,
   and one ready thread; nobody else is affected.
   */
  lemma StartProcessOutcome(k: Kernel, space: Result<()>)
    requires Sound(k) && k.current.tid != IRQ_TID
    ensures var (k', r) := Step(k, SysCall(StartProcess(space)));
      if !exists pid :: FirstPid(k, pid) then k' == k && r == Error(OutOfMemory)
      else if space.Err? then k' == k && r == Error(space.error)
      else exists pid | FirstPid(k, pid) ::
        && r == Returned(Value([pid])) && FreshProcess(k', pid, k.current.pid)
        && k'.processes == k.processes[pid := k'.processes[pid]] && k'.servers == k.servers && k'.current == k.current
        && (forall x | x in k.threads :: x in k'.threads && k'.threads[x] == k.threads[x])
  {
    hide Inv, CurrentOk, FirstPid, FreePid, FreshProcess, Keeps, WithProcess, SetState;
    var pid := FreePid(k, 1);
    FreePidFirst(k, 1);
    CreateProcessKeeps(k, space);
    if pid <= k.limits.processes && space.Ok? { CreatedTables(k, pid); }
  }

  lemma CreatedTables(k: Kernel, pid: nat)
    ensures var k' := SetState(WithProcess(k, pid, NewProcess(k)), Id(pid, INITIAL_TID), Ready);
      && pid in k'.processes && k'.processes == k.processes[pid := k'.processes[pid]]
      && k'.servers == k.servers && k'.current == k.current
  {
  }

  /** A new thread is ready, at its parent's priority and with nothing left from an earlier thread of its number. */
  lemma StartThreadOutcome(k: Kernel, tid: nat)
    requires Sound(k) && Enabled(k, SysCall(StartThread(tid))) && k.current.tid != IRQ_TID
    ensures var (k', r) := Step(k, SysCall(StartThread(tid)));
      var x := Id(k.current.pid, tid);
      && r == Returned(Value([tid])) && x in k.threads && x in k'.threads && k.current in k.threads
      && k' == k.(threads := k.threads[x := k'.threads[x]], rings := k'.rings)
      && k'.threads[x] == k.threads[x].(state := Ready, priority := k.threads[k.current].priority)
      && k'.threads[x].future.None? && k'.threads[x].mailbox.None? && InRing(k', k.threads[k.current].priority, x)
  {
    hide Inv, CurrentOk, SetState, SetPriority, Keeps;
    Running(k);
    var x := Id(k.current.pid, tid);
    CreateThreadKeeps(k, tid);
    StartExact(k, x, k.threads[k.current].priority);
    StartedTables(k, x, k.threads[k.current].priority);
  }

  lemma StateTables(k: Kernel, x: Id)
    requires x.tid != IRQ_TID
    ensures var k' := SetState(k, x, Ready); k' == k.(threads := k'.threads, rings := k'.rings)
  {
  }

  lemma PriorityTables(k: Kernel, x: Id, priority: nat)
    ensures var k' := SetPriority(k, x, priority); k' == k.(threads := k'.threads, rings := k'.rings)
  {
  }

  lemma StartedTables(k: Kernel, x: Id, priority: nat)
    requires x.tid != IRQ_TID
    ensures var k' := SetPriority(SetState(k, x, Ready), x, priority);
      k' == k.(threads := k'.threads, rings := k'.rings)
  {
    hide SetState, SetPriority;
    StateTables(k, x);
    PriorityTables(SetState(k, x, Ready), x, priority);
  }
}
