/** What becomes of an answer over runs: the client goes on with it. */
module KernelClients {
  import opened Common
  import opened ServerQueue
  import opened KernelState
  import opened KernelSteps
  import opened KernelInv
  import opened KernelMessages
  import opened KernelActivate
  import opened KernelCalls
  import opened KernelTables
  import opened KernelDestroy
  import opened KernelExit
  import opened KernelRuns
  import opened KernelEffects
  import opened KernelTheorems
  import opened KernelEndings
  import opened KernelOutcomes
  import opened KernelReplies
  import opened KernelSends

  /** The call of `x` and its mail are as before. */
  predicate Untouched(k: Kernel, k': Kernel, x: Id) {
    x in k.threads && x in k'.threads && k'.threads[x].future == k.threads[x].future &&
    k'.threads[x].mailbox == k.threads[x].mailbox
  }

  /** The answer is still there, or its client goes on with it now. */
  predicate KeptOrUsed(k: Kernel, x: Id, v: Reply) {
    Mailed(k, x, v) || RunsWith(k, x, v)
  }

  lemma MailThen(k: Kernel, left: Kernel, x: Id, v: Reply)
    requires Mailed(k, x, v) && Untouched(k, left, x) && Base(left) && Ipc(left, None)
    ensures KeptOrUsed(Activate(left).0, x, v)
  {
    hide Base, Ipc, Activate;
    MailActivates(left, x, v);
  }

  lemma QuietUntouched(k: Kernel, k': Kernel, x: Id)
    requires Quiet(k, k') && x in k.threads
    ensures Untouched(k, k', x)
  {
    assert QuietThread(k.threads[x], k'.threads[x]);
  }

  lemma RoomUntouched(k: Kernel, k': Kernel, x: Id)
    requires RoomFound(k, k') && x in k.threads
    ensures Untouched(k, k', x)
  {
  }

  lemma NotRunning(k: Kernel, x: Id, v: Reply)
    requires Sound(k) && Mailed(k, x, v)
    ensures x != k.current && x.tid != IRQ_TID && !k.threads[x].state.Free? && x.pid in k.processes
  {
  }

  // ---- Messages ---------------------------------------------------------------------------------

  lemma SendUntouched(k: Kernel, sender: Id, s: nat, message: Message, mapped: Result<nat>, x: Id, v: Reply)
    requires Base(k) && Ipc(k, None) && Mailed(k, x, v) && SendInner(k, sender, s, message, mapped).1.Ok?
    ensures Untouched(k, SendInner(k, sender, s, message, mapped).0, x)
  {
    hide Base, Ipc, HandOver, QueueMessage, QueueResponse, PostBits, AvailableThread, ClientAddress, QueueOk;
    var q := k.servers[s].q;
    if q.readyThreads != {} {
      hide SendInner;
      ParkedThread(k, s);
      var t := AvailableThread(q).value;
      ParkedReceives(k, s, t);
      var m, addr := Translate(message, mapped).value, ClientAddress(message);
      DirectUnfold(k, sender, s, message, mapped, t);
      HandOverExact(SetQueue(k, s, DirectQueue(q, t, sender, m, addr)), Id(q.pid, t),
                    DirectReply(q, s, t, sender, m, addr));
    } else {
      RoomFacts(k, s);
      var q1 := QueueMessage(q, sender.pid, sender.tid, Translate(message, mapped).value, ClientAddress(message)).1;
      PostUntouched(SetQueue(k, s, q1), q.pid, {EVENT_SERVER_MSG}, x);
    }
  }

  lemma PostUntouched(k: Kernel, pid: nat, bits: set<nat>, x: Id)
    requires x in k.threads
    ensures Untouched(k, PostBits(k, pid, bits), x)
  {
    hide PostBits, WaitsForBits;
    if pid in k.processes { PostWakesFirst(k, pid, bits); } else { NothingPosted(k, pid, bits); }
  }

  lemma SendMail(k: Kernel, cid: nat, message: Message, mapped: Result<nat>, x: Id, v: Reply)
    requires Sound(k) && Mailed(k, x, v) && (message.IsBlocking() ==> MaySuspend(k))
    ensures KeptOrUsed(SendMessage(k, cid, message, mapped).0, x, v)
  {
    hide Base, Ipc, IdleOk, CurrentOk, SendInner, Suspend, SetResult, Activate, Permitted, Lookup, ConnsOk, SameButHint;
    Running(k);
    NotRunning(k, x, v);
    var found := Lookup(k, cid);
    if found.Ok? && Permitted(k, cid, found.value, message) {
      var s := found.value;
      PermittedServer(k, cid, s, message);
      RefusedExactly(k, k.current, s, message, mapped);
      var (k1, r) := SendInner(k, k.current, s, message, mapped);
      if r.Ok? {
        SendUntouched(k, k.current, s, message, mapped, x, v);
        RunningUnchanged(k, k.current, s, message, mapped, k.current);
        AcceptedOk(k, s, message, mapped);
        if message.IsBlocking() {
          SuspendExact(k1, k.current, WaitBlocking) by { MaySuspendTid(k); }
          MailThen(k, Suspend(k1, k.current, WaitBlocking), x, v);
        } else {
          ResultExact(k1, k.current, Done);
          MailThen(k, SetResult(k1, k.current, Done), x, v);
        }
      } else {
        HintThreads(k, k1, s);
      }
    }
  }

  lemma HintThreads(k: Kernel, k': Kernel, s: nat)
    requires s in k.servers && SameButHint(k, k', s)
    ensures k'.threads == k.threads
  {
  }

  lemma PatientMail(k: Kernel, cid: nat, message: Message, mapped: Result<nat>, x: Id, v: Reply)
    requires Sound(k) && Mailed(k, x, v) && MaySuspend(k) && mapped != Err(ServerQueueFull)
    ensures KeptOrUsed(SendMessageRetrying(k, cid, message, mapped).0, x, v)
  {
    hide Base, Ipc, IdleOk, ConnsOk, CurrentOk, SendMessage, SendMessageRetrying, SendParks, SetState, Activate, Lookup,
         NoStale, NoNewWaits, Stays;
    Running(k);
    NotRunning(k, x, v);
    SendMail(k, cid, message, mapped, x, v);
    SendRetryingKeeps(k, cid, message, mapped);
    var retry := RetryParks(k, cid, message, mapped);
    if retry.Some? {
      var s := Lookup(k, cid).value;
      StateExact(k, k.current, RetryQueueFull(s, k.servers[s].born)) by { MaySuspendTid(k); }
      MailThen(k, retry.value, x, v);
    }
  }

  /** An answer to another client does not touch this one. */
  lemma AnswerMail(k: Kernel, k1: Kernel, y: Id, w: Reply, x: Id, v: Reply)
    requires Sound(k) && Mailed(k, x, v) && RoomFound(k, k1) && Base(k1) && Ipc(k1, None)
    ensures KeptOrUsed(Activate(SetResult(k1, k.current, Done)).0, x, v)
    ensures AwaitsReply(k1, y) && Unnamed(k1, y) ==>
              KeptOrUsed(Activate(SetResult(WakeWithResult(k1, y, w), k.current, Done)).0, x, v)
  {
    hide Base, Ipc, IdleOk, ConnsOk, CurrentOk, Activate, SetResult, WakeWithResult, Unnamed, RoomFound;
    Running(k);
    NotRunning(k, x, v);
    RoomFoundAt(k, k1, k.current);
    RoomFoundAt(k, k1, x);
    ResultExact(k1, k.current, Done);
    ResultOk(k1, k.current, Done, None);
    MailThen(k, SetResult(k1, k.current, Done), x, v);
    if AwaitsReply(k1, y) && Unnamed(k1, y) {
      SentThreads(k1, y, w, k.current);
      SentOk(k1, y, w, k.current);
      MailThen(k, SetResult(WakeWithResult(k1, y, w), k.current, Done), x, v);
    }
  }

  lemma TakenRoom(k: Kernel, s: nat, i: nat, buf: Option<(nat, nat)>)
    requires Base(k) && Ipc(k, None)
    ensures RoomFound(k, TakeReply(k, s, i, buf).0)
  {
    hide Base, Ipc, TakeWaiting, SetQueueWaking;
    if s in k.servers { EmptyingKeeps(k, s, TakeWaiting(k.servers[s].q, i, buf).1); }
  }

  lemma ReplyMail(k: Kernel, c: Call, x: Id, v: Reply)
    requires Sound(k) && Mailed(k, x, v) && (c.ReplyScalar? || c.ReplyMemory?)
    ensures KeptOrUsed(Dispatch(k, c).0, x, v)
  {
    hide Base, Ipc, IdleOk, ConnsOk, CurrentOk, Activate, SetResult, WakeWithResult, Unnamed, RoomFound, TakeReply,
         Tame,
         NameAt, KeptOrUsed;
    Running(k);
    var buf := if c.ReplyScalar? then None else Some(c.buf);
    TakeReplyOk(k, c.sidx, c.idx, buf);
    TakenRoom(k, c.sidx, c.idx, buf);
    var (k1, r) := TakeReply(k, c.sidx, c.idx, buf);
    var y := if KernelMessages.Answered(r).Some? then KernelMessages.Answered(r).value else IDLE;
    AnswerMail(k, k1, y, c.value, x, v);
    RoomKept(k, k1, x, v);
  }

  lemma RoomKept(k: Kernel, k1: Kernel, x: Id, v: Reply)
    requires Mailed(k, x, v) && RoomFound(k, k1)
    ensures KeptOrUsed(k1, x, v)
  {
  }

  lemma ReceiveMail(k: Kernel, sid: nat, blocking: bool, x: Id, v: Reply)
    requires Sound(k) && Mailed(k, x, v) && (blocking ==> MaySuspend(k))
    ensures KeptOrUsed(Receive(k, sid, blocking).0, x, v)
  {
    hide Base, Ipc, IdleOk, ConnsOk, CurrentOk, Activate, Suspend, ServerIndex, TakeMessage, Pending, QueueOk, Handed,
         NoStale, NoNewWaits, Stays;
    Running(k);
    NotRunning(k, x, v);
    var s := ServerIndex(k, sid, Some(k.current.pid), 0);
    if s < k.limits.servers {
      QueueFacts(k, s, None);
      if Pending(k.servers[s].q) != [] {
        TakeMessageExact(k, s);
        assert OthersKept(k, TakeMessage(k, s).0, Id(x.pid, x.tid + 1));
      } else {
        KernelSends.NothingTaken(k, s);
        if blocking {
          ReceiveKeeps(k, sid, true);
          var e := k.servers[s];
          var k1 := SetQueue(k, s, e.q.(readyThreads := e.q.readyThreads + {k.current.tid}));
          SuspendExact(k1, k.current, ReceiveMessage(s, e.born)) by { MaySuspendTid(k); }
          MailThen(k, Suspend(k1, k.current, ReceiveMessage(s, e.born)), x, v);
        }
      }
    }
  }

  // ---- Threads ----------------------------------------------------------------------------------

  lemma LeftMail(k: Kernel, k': Kernel, r: Outcome, x: Id, v: Reply)
    requires Left(k, k', r, x) && Mailed(k, x, v)
    ensures KeptOrUsed(k', x, v)
  {
  }

  lemma ThreadCallMail(k: Kernel, c: Call, x: Id, v: Reply)
    requires Sound(k) && Enabled(k, SysCall(c)) && k.current.tid != IRQ_TID && Mailed(k, x, v)
    requires c.YieldSlice? || c.Prioritise? || c.JoinThread? || c.WaitProcess? || c.WaitOnFutex? || c.WaitForEvent?
    ensures KeptOrUsed(Step(k, SysCall(c)).0, x, v)
  {
    hide Base, Ipc, IdleOk, ConnsOk, CurrentOk, Step, Left, KeptOrUsed, Sound;
    Running(k);
    NotRunning(k, x, v);
    var (k', r) := Step(k, SysCall(c));
    match c {
      case YieldSlice => YieldOutcome(k);
      case Prioritise(priority) => PriorityOutcome(k, priority);
      case JoinThread(tid) => JoinOutcome(k, tid);
      case WaitProcess(pid) => WaitOutcome(k, pid);
      case WaitOnFutex(addr, same) => FutexWaitOutcome(k, addr, same);
      case WaitForEvent(mask) => EventOutcome(k, mask);
    }
    if OthersLeft(k, k', r, k.current) {
      LeftMail(k, k', r, x, v);
    } else {
      SameThreads(k, k', x, v);
    }
  }

  lemma SameThreads(k: Kernel, k': Kernel, x: Id, v: Reply)
    requires Mailed(k, x, v) && x in k'.threads && Untouched(k, k', x)
    ensures KeptOrUsed(k', x, v)
  {
  }

  lemma WakeCallMail(k: Kernel, c: Call, x: Id, v: Reply)
    requires Sound(k) && Mailed(k, x, v) && (c.WakeOnFutex? ==> k.current.tid != IRQ_TID)
    requires c.WakeOnFutex? || c.Notify?
    ensures KeptOrUsed(Step(k, SysCall(c)).0, x, v)
  {
    hide Base, Ipc, IdleOk, ConnsOk, CurrentOk, Step, Sound, WaitsForBits, WaitersFor;
    match c
    case WakeOnFutex(addr, n) =>
      FutexWakeOutcome(k, addr, n);
      NotReached(k, addr, n, x);
    case Notify(pid, bits) => NotifyOutcome(k, pid, bits); Running(k);
  }

  lemma NotReached(k: Kernel, addr: nat, n: nat, x: Id)
    requires k.limits.threads > 0 && x in k.threads && k.threads[x].future != Some(WaitFutex(addr))
    ensures x !in FutexReached(k, addr, n)
  {
    WaitersForExact(k, k.current.pid, WaitFutex(addr), 1, k.limits.threads - 1);
  }

  lemma ReturnMail(k: Kernel, value: nat, x: Id, v: Reply)
    requires Sound(k) && Enabled(k, ThreadReturns(value)) && Mailed(k, x, v)
    ensures KeptOrUsed(Step(k, ThreadReturns(value)).0, x, v)
  {
    hide Base, Ipc, IdleOk, ConnsOk, CurrentOk, Step, Left, KeptOrUsed, Sound, ThreadLeft, Enabled;
    Running(k);
    NotRunning(k, x, v);
    var e := ThreadReturns(value);
    if k.current.tid != IRQ_TID {
      ReturnOutcome(k, value, x);
      LeftMail(k, Step(k, e).0, Step(k, e).1, x, v);
    } else {
      LeavingOk(k, e);
      HandlerLeft(k, value, x);
      MailThen(k, ThreadLeft(k, value), x, v);
    }
  }

  lemma HandlerLeft(k: Kernel, value: nat, x: Id)
    requires k.current.tid == IRQ_TID && k.current in k.threads && x in k.threads && x != k.current
    ensures Untouched(k, ThreadLeft(k, value), x)
  {
    hide ClearThread;
    ClearExact(k, k.current);
  }

  lemma StartMail(k: Kernel, c: Call, x: Id, v: Reply)
    requires Sound(k) && Enabled(k, SysCall(c)) && Mailed(k, x, v) && (c.StartThread? || c.StartProcess?)
    ensures KeptOrUsed(Dispatch(k, c).0, x, v)
  {
    hide Base, Ipc, IdleOk, ConnsOk, CurrentOk, CreateThread, CreateProcess, Keeps, FreshProcess;
    NotRunning(k, x, v);
    match c
    case StartThread(tid) => CreateThreadKeeps(k, tid);
    case StartProcess(space) => CreateProcessKeeps(k, space);
  }

  // ---- Servers and processes --------------------------------------------------------------------

  lemma TableMail(k: Kernel, c: Call, x: Id, v: Reply)
    requires Mailed(k, x, v) && (c.OpenServer? || c.TryConnect? || c.ConnectFor? || c.Close? || c.Register?)
    ensures KeptOrUsed(Dispatch(k, c).0, x, v)
  {
    hide ServerIndex, FreeServer, AddConnection, NewQueue;
    assert Dispatch(k, c).0.threads == k.threads;
  }

  lemma PatientMailed(k: Kernel, k': Kernel, x: Id, v: Reply)
    requires PatientStay(k, k') && Mailed(k, x, v)
    ensures Mailed(k', x, v)
  {
    assert Patient(k, x);
  }

  lemma CloseMail(k: Kernel, sid: nat, x: Id, v: Reply)
    requires Sound(k) && Mailed(k, x, v)
    ensures KeptOrUsed(DestroyServer(k, sid).0, x, v)
  {
    hide Base, Ipc, IdleOk, ConnsOk, CurrentOk, DestroySidx, ServerIndex, Calm, OrphansStay, PatientStay, Orphan;
    Running(k);
    var s := ServerIndex(k, sid, Some(k.current.pid), 0);
    if s < k.limits.servers {
      DestroyOk(k, s);
      PatientMailed(k, DestroySidx(k, s), x, v);
    }
  }

  lemma ExitMail(k: Kernel, code: nat, x: Id, v: Reply)
    requires Inv(k) && !k.inIrq && k.current.pid in k.processes && k.current.pid != KERNEL_PID
    requires Mailed(k, x, v) && x.pid != k.current.pid
    ensures KeptOrUsed(TerminateCurrent(k, code).0, x, v)
  {
    var pid := k.current.pid;
    hide Base, Ipc, IdleOk, ConnsOk, NoStale, Cleared, Closed, TerminateCurrent, RemoveProcess, Activate, ExitWaiters,
         WakeAll, NoNewWaits, Stays, StaysOutside, Retired, FreshBut, Disowned, Calm, PatientStay, KeptOrUsed;
    BaseThreads(k);
    ClosedOk(k, pid, code);
    var k2, k4 := Closed(k, pid, code), Cleared(k, pid, code);
    PatientMailed(k, k2, x, v);
    CleanFrom(k2);
    ListedSuspended(k2, pid);
    ExitWaitersWait(k2, pid, 1, k.limits.processes, []);
    ClosingTables(k, k2, pid);
    WakeAllDelivers(k2, ExitWaiters(k2, pid, 1, k.limits.processes, []), Value([code]));
    ClearedOk(k, code);
    RemoveOthers(k4, pid, x);
    RemovedOk(k, code);
    TerminateUnfold(k, code);
    MailThen(k, RemoveProcess(k4, pid), x, v);
  }

  lemma CleanFrom(k: Kernel)
    requires Ipc(k, None)
    ensures CleanOk(k)
  {
  }

  lemma KillMail(k: Kernel, pid: nat, code: nat, x: Id, v: Reply)
    requires Sound(k) && Mailed(k, x, v) && k.current.tid != IRQ_TID &&
             x.pid in TerminateOther(k, pid, code).0.processes
    ensures KeptOrUsed(TerminateOther(k, pid, code).0, x, v)
  {
    hide Base, Ipc, IdleOk, ConnsOk, CurrentOk, NoStale, TerminateCurrent, SetResult, NoNewWaits, Stays, KeptOrUsed;
    Running(k);
    NotRunning(k, x, v);
    if pid != k.current.pid && pid in k.processes && k.processes[pid].ppid != Some(KERNEL_PID) {
      TargetOk(k, pid);
      var k2 := SetResult(k, k.current, Done).(current := Id(pid, INITIAL_TID));
      ResultExact(k, k.current, Done);
      TerminateKeeps(k2, code);
      ExitMail(k2, code, x, v);
    } else {
      SameThreads(k, k, x, v);
    }
  }

  lemma InterruptMail(k: Kernel, pid: nat, x: Id, v: Reply)
    requires Mailed(k, x, v)
    ensures KeptOrUsed(EnterIrq(k, pid).0, x, v)
  {
  }

  // ---- Steps and runs ---------------------------------------------------------------------------

  lemma MessageCallMail(k: Kernel, c: Call, x: Id, v: Reply)
    requires Sound(k) && Enabled(k, SysCall(c)) && Legal(k, c) && Mailed(k, x, v)
    requires c.TrySend? || c.Send? || c.TryReceive? || c.ReceiveBlocking?
    ensures KeptOrUsed(Dispatch(k, c).0, x, v)
  {
    hide Inv, SendMessage, SendMessageRetrying, Receive, KeptOrUsed;
    match c
    case TrySend(cid, message, mapped) => SendMail(k, cid, message, mapped, x, v);
    case Send(cid, message, mapped) => PatientMail(k, cid, message, mapped, x, v);
    case TryReceive(sid) => ReceiveMail(k, sid, false, x, v);
    case ReceiveBlocking(sid) => ReceiveMail(k, sid, true, x, v);
  }

  lemma EndCallMail(k: Kernel, c: Call, x: Id, v: Reply)
    requires Sound(k) && Enabled(k, SysCall(c)) && k.current.tid != IRQ_TID && Mailed(k, x, v)
    requires (c.CloseServer? || c.ExitProcess? || c.KillProcess?) && x.pid in Dispatch(k, c).0.processes
    ensures KeptOrUsed(Dispatch(k, c).0, x, v)
  {
    hide Inv, DestroyServer, TerminateCurrent, TerminateOther, KeptOrUsed, CurrentOk, Keeps;
    Running(k);
    match c
    case CloseServer(sid) => CloseMail(k, sid, x, v);
    case ExitProcess(code) =>
      NotInIrqBase(k);
      TerminateKeeps(k, code);
      ExitMail(k, code, x, v);
    case KillProcess(pid, code) => KillMail(k, pid, code, x, v);
  }

  lemma NotInIrqBase(k: Kernel)
    requires Sound(k) && k.current.tid != IRQ_TID
    ensures !k.inIrq
  {
  }

  /** No step loses an answer or spends it on anybody else. */
  lemma MailStep(k: Kernel, e: Event, x: Id, v: Reply)
    requires Sound(k) && Enabled(k, e) && Mailed(k, x, v) && x.pid in Step(k, e).0.processes
    ensures KeptOrUsed(Step(k, e).0, x, v)
  {
    hide Inv, CurrentOk, Dispatch, EnterIrq, ThreadExited, KeptOrUsed;
    match e
    case Interrupt(pid) => InterruptMail(k, pid, x, v);
    case ThreadReturns(value) => ReturnMail(k, value, x, v);
    case SysCall(c) =>
      if !Legal(k, c) {
        SameThreads(k, k, x, v);
      } else if c.TrySend? || c.Send? || c.TryReceive? || c.ReceiveBlocking? {
        MessageCallMail(k, c, x, v);
      } else if c.ReplyScalar? || c.ReplyMemory? {
        ReplyMail(k, c, x, v);
      } else if c.StartThread? || c.StartProcess? {
        StartMail(k, c, x, v);
      } else if c.OpenServer? || c.TryConnect? || c.ConnectFor? || c.Close? || c.Register? {
        TableMail(k, c, x, v);
      } else if c.WakeOnFutex? || c.Notify? {
        WakeCallMail(k, c, x, v);
      } else if c.CloseServer? || c.ExitProcess? || c.KillProcess? {
        EndCallMail(k, c, x, v);
      } else {
        ThreadCallMail(k, c, x, v);
      }
  }

  /** After some part of the run the client runs with its answer, having had it in its mailbox until then. */
  ghost predicate GoesOnWith(k: Kernel, es: seq<Event>, x: Id, v: Reply)
    decreases |es|
  {
    Mailed(k, x, v) && es != [] &&
    var k1 := Step(k, es[0]).0;
    RunsWith(k1, x, v) || GoesOnWith(k1, es[1..], x, v)
  }

  /**
   An answer that has been sent is not lost, not overwritten and not given to anybody else: over every run
   during which its process lives, the client still has it waiting, or has gone on with exactly that value.
   */
  lemma {:induction false} AnswerReachesClient(k: Kernel, es: seq<Event>, x: Id, v: Reply)
    requires Sound(k) && SoundRun(k, es) && Lives(k, es, x.pid) && Mailed(k, x, v)
    ensures Mailed(Run(k, es), x, v) || GoesOnWith(k, es, x, v)
    decreases |es|
  {
    if es == [] {
    } else {
      hide Inv, CurrentOk, NoStale, Step, Derails, Enabled, NoNewWaits, Stays;
      var k1 := Step(k, es[0]).0;
      StepKeeps(k, es[0]);
      assert x.pid in k1.processes by { assert Lives(k1, es[1..], x.pid); }
      MailStep(k, es[0], x, v);
      if Mailed(k1, x, v) { AnswerReachesClient(k1, es[1..], x, v); }
    }
  }
}
