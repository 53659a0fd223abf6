/** What a send does, from the connection it goes over to the caller that goes on or waits. */
module KernelSends {
  import opened Common
  import opened ServerQueue
  import opened Fifo
  import opened KernelState
  import opened KernelSteps
  import opened KernelInv
  import opened KernelIpc
  import opened KernelMessages
  import opened KernelActivate
  import opened KernelCalls
  import opened KernelRuns
  import opened KernelTheorems
  import opened KernelEffects
  import opened KernelOutcomes

  // ---- What is refused --------------------------------------------------------------------------

  /** The address and the size of memory that is sent must make sense. */
  function BadMemory(mapped: nat, size: nat): Option<Error> {
    if mapped == 0 then Some(BadAddress) else if size == 0 then Some(InvalidArguments) else None
  }

  /**
   Why server `s` does not take the message: its queue is full, the pages could not be mapped, or their
   address or size makes no sense.  Memory that is given away is looked at only if it has to be queued.
   */
  function Refusal(k: Kernel, s: nat, message: Message, mapped: Result<nat>): Option<Error>
    requires s in k.servers
  {
    if forall i | 0 <= i < |k.servers[s].q.queue| :: !k.servers[s].q.queue[i].Empty? then Some(ServerQueueFull)
    else if message.Scalar? || message.BlockingScalar? then None
    else if mapped.Err? then Some(mapped.error)
    else if message.Move? then
      (if k.servers[s].q.readyThreads != {} then None else BadMemory(mapped.value, message.memory.size))
    else if message.memory.addr == 0 then Some(InvalidArguments)
    else BadMemory(mapped.value, message.memory.size)
  }

  lemma FillExactly(q: ServerState, slot: Result<QueuedMessage>)
    requires QueueOk(q) && q.emptyCount > 0
    ensures var (r, q') := Fill(q, slot);
      && r.Ok? == slot.Ok? && (r.Err? ==> r.error == slot.error)
      && q'.sent == q.sent && q'.received == q.received && q'.readyThreads == q.readyThreads
      && (r.Err? ==> q' == q.(queueHead := q'.queueHead))
  {
    EmptySlotFound(q);
  }

  lemma SlotRefusals(sender: Id, idx: nat, message: Message, mapped: Result<nat>)
    requires Translate(message, mapped).Ok?
    ensures var m := Translate(message, mapped).value;
      var e := if message.Scalar? || message.BlockingScalar? then None
        else if !message.Move? && message.memory.addr == 0 then Some(InvalidArguments)
        else if mapped.Ok? then BadMemory(mapped.value, message.memory.size) else None;
      && QueuedSlot(sender.pid, sender.tid, idx, m, ClientAddress(message)).Err? == e.Some?
      && (e.Some? ==> QueuedSlot(sender.pid, sender.tid, idx, m, ClientAddress(message)).error == e.value)
      && (m.IsBlocking() ==>
            && ResponseSlot(sender.pid, sender.tid, m, ClientAddress(message)).Err? == e.Some?
            && (e.Some? ==> ResponseSlot(sender.pid, sender.tid, m, ClientAddress(message)).error == e.value))
  {
  }

  /** Nothing but the hint where to look for an empty slot of server `s` differs. */
  predicate SameButHint(k: Kernel, k': Kernel, s: nat)
    requires s in k.servers
  {
    s in k'.servers &&
    k' == k.(servers := k.servers[s := k.servers[s].(q := k.servers[s].q.(queueHead := k'.servers[s].q.queueHead))])
  }

  ghost predicate RefusesOnly(k: Kernel, sender: Id, s: nat, message: Message, mapped: Result<nat>)
    requires s in k.servers
  {
    var (k', r) := SendInner(k, sender, s, message, mapped);
    && (if Refusal(k, s, message, mapped).Some? then r == Err(Refusal(k, s, message, mapped).value) else r.Ok?)
    && (r.Err? ==> SameButHint(k, k', s))
  }

  lemma HintOnly(k: Kernel, s: nat, q: ServerState)
    requires s in k.servers && q == k.servers[s].q.(queueHead := q.queueHead)
    ensures SameButHint(k, SetQueue(k, s, q), s)
  {
  }

  lemma QueuedRefused(k: Kernel, sender: Id, s: nat, message: Message, mapped: Result<nat>)
    requires s in k.servers && QueueOk(k.servers[s].q) && k.servers[s].q.emptyCount > 0
    requires k.servers[s].q.readyThreads == {} && AvailableThread(k.servers[s].q).None?
    requires Translate(message, mapped).Ok?
    requires !forall i | 0 <= i < |k.servers[s].q.queue| :: !k.servers[s].q.queue[i].Empty?
    ensures RefusesOnly(k, sender, s, message, mapped)
  {
    hide QueueOk, Fill, QueuedSlot, PostBits, AvailableThread, ClientAddress, SameButHint, SetQueue;
    var q := k.servers[s].q;
    var m := Translate(message, mapped).value;
    SlotRefusals(sender, q.tailGeneration, message, mapped);
    var slot := QueuedSlot(sender.pid, sender.tid, q.tailGeneration, m, ClientAddress(message));
    FillExactly(q, slot);
    if slot.Err? { HintOnly(k, s, Fill(q, slot).1); }
  }

  lemma DirectRefused(k: Kernel, sender: Id, s: nat, message: Message, mapped: Result<nat>)
    requires s in k.servers && QueueOk(k.servers[s].q) && k.servers[s].q.emptyCount > 0
    requires k.servers[s].q.readyThreads != {} && AvailableThread(k.servers[s].q).Some?
    requires Translate(message, mapped).Ok?
    requires !forall i | 0 <= i < |k.servers[s].q.queue| :: !k.servers[s].q.queue[i].Empty?
    ensures RefusesOnly(k, sender, s, message, mapped)
  {
    hide QueueOk, Fill, ResponseSlot, HandOver, AvailableThread, ClientAddress, SameButHint, SetQueue;
    var q := k.servers[s].q;
    var m := Translate(message, mapped).value;
    SlotRefusals(sender, q.tailGeneration, message, mapped);
    var q1 := q.(readyThreads := q.readyThreads - {AvailableThread(q).value});
    MaskQueueOk(q, q1.readyThreads);
    var slot := ResponseSlot(sender.pid, sender.tid, m, ClientAddress(message));
    FillExactly(q1, slot);
    if m.IsBlocking() && slot.Err? { HintOnly(k, s, Fill(q1, slot).1.(readyThreads := q.readyThreads)); }
  }

  lemma EarlyRefused(k: Kernel, sender: Id, s: nat, message: Message, mapped: Result<nat>)
    requires s in k.servers && (k.servers[s].q.emptyCount == 0 || Translate(message, mapped).Err?)
    requires k.servers[s].q.emptyCount == 0 <==>
             forall i | 0 <= i < |k.servers[s].q.queue| :: !k.servers[s].q.queue[i].Empty?
    ensures RefusesOnly(k, sender, s, message, mapped)
  {
    hide HandOver, PostBits, AvailableThread, ClientAddress, QueueMessage, QueueResponse, SetQueue;
    HintOnly(k, s, k.servers[s].q);
    assert k.servers == k.servers[s := k.servers[s]];
  }

  lemma RoomFacts(k: Kernel, s: nat)
    requires Ipc(k, None) && s in k.servers
    ensures var q := k.servers[s].q;
      && QueueOk(q) && q.emptyCount >= 0
      && (q.emptyCount == 0 <==> forall i | 0 <= i < |q.queue| :: !q.queue[i].Empty?)
      && (AvailableThread(q).None? <==> q.readyThreads == {})
  {
    CountEmptyZero(k.servers[s].q.queue);
    AvailableIsLeast(k.servers[s].q);
  }

  /** A message is refused exactly for the reasons above, and then nothing has happened. */
  lemma RefusedExactly(k: Kernel, sender: Id, s: nat, message: Message, mapped: Result<nat>)
    requires Ipc(k, None) && s in k.servers
    ensures var (k', r) := SendInner(k, sender, s, message, mapped);
      && (if Refusal(k, s, message, mapped).Some? then r == Err(Refusal(k, s, message, mapped).value) else r.Ok?)
      && (r.Err? ==> SameButHint(k, k', s))
  {
    hide Ipc, QueueOk, SendInner, SameButHint, AvailableThread, Translate, Refusal;
    var q := k.servers[s].q;
    RoomFacts(k, s);
    if q.emptyCount > 0 && Translate(message, mapped).Ok? {
      if q.readyThreads == {} {
        QueuedRefused(k, sender, s, message, mapped);
      } else {
        DirectRefused(k, sender, s, message, mapped);
      }
    } else {
      EarlyRefused(k, sender, s, message, mapped);
    }
  }

  // ---- The call ---------------------------------------------------------------------------------

  /** Connection `cid` of the running process leads to server `s`. */
  predicate LeadsTo(k: Kernel, cid: nat, s: nat) {
    k.current.pid in k.processes && 2 <= cid < |k.processes[k.current.pid].connections| + 2 &&
    k.processes[k.current.pid].connections[cid - 2].Connected? &&
    k.processes[k.current.pid].connections[cid - 2].sidx == s
  }

  /** The server belongs to the caller's own process, or the connection allows messages with this id. */
  predicate Allowed(k: Kernel, cid: nat, s: nat, message: Message)
    requires LeadsTo(k, cid, s) && s in k.servers
  {
    k.servers[s].q.pid == k.current.pid ||
    k.processes[k.current.pid].connections[cid - 2].permissions.IsPermitted(
      if message.Scalar? || message.BlockingScalar? then message.scalar.id else message.memory.id)
  }

  lemma LookupLeads(k: Kernel, cid: nat)
    ensures Lookup(k, cid).Ok? ==> LeadsTo(k, cid, Lookup(k, cid).value)
    ensures Lookup(k, cid).Err? ==> Lookup(k, cid).error == ServerNotFound && forall s :: !LeadsTo(k, cid, s)
  {
  }

  lemma LeadsToServer(k: Kernel, cid: nat, s: nat)
    requires ConnsOk(k) && LeadsTo(k, cid, s)
    ensures s in k.servers
  {
    assert ConnAt(k, k.current.pid, cid - 2).Connected?;
  }

  lemma PermittedIsAllowed(k: Kernel, cid: nat, s: nat, message: Message)
    requires LeadsTo(k, cid, s) && s in k.servers
    ensures Permitted(k, cid, s, message) <==> Allowed(k, cid, s, message)
  {
  }

  lemma ParkedReceives(k: Kernel, s: nat, t: nat)
    requires Ipc(k, None) && s in k.servers && t in k.servers[s].q.readyThreads
    ensures var x := Id(k.servers[s].q.pid, t);
      && x in k.threads && k.threads[x].future.Some? && k.threads[x].future.value.ReceiveMessage? && t != IRQ_TID
      && ReceivesFrom(k, x, s)
  {
    assert ReceivesFrom(k, Id(k.servers[s].q.pid, t), s);
  }

  /** A message changes nobody but the thread it is handed to, or one that waits for an event. */
  lemma RunningUnchanged(k: Kernel, sender: Id, s: nat, message: Message, mapped: Result<nat>, y: Id)
    requires Base(k) && Ipc(k, None) && IsReady(k, y) && !ReceivesFrom(k, y, s)
    requires SendInner(k, sender, s, message, mapped).1.Ok?
    ensures var k1 := SendInner(k, sender, s, message, mapped).0;
      y in k1.threads && k1.threads[y] == k.threads[y] && k1.current == k.current && s in k.servers
  {
    hide Base, Ipc, HandOver, QueueMessage, QueueResponse, PostBits, AvailableThread, ClientAddress, QueueOk;
    var q := k.servers[s].q;
    if q.readyThreads != {} {
      hide SendInner;
      ParkedThread(k, s);
      var t := AvailableThread(q).value;
      ParkedReceives(k, s, t);
      var m, addr := Translate(message, mapped).value, ClientAddress(message);
      DirectUnfold(k, sender, s, message, mapped, t);
      HandOverExact(SetQueue(k, s, DirectQueue(q, t, sender, m, addr)), Id(q.pid, t),
                    DirectReply(q, s, t, sender, m, addr));
    } else {
      RoomFacts(k, s);
      var q1 := QueueMessage(q, sender.pid, sender.tid, Translate(message, mapped).value, ClientAddress(message)).1;
      PostedRunning(SetQueue(k, s, q1), q.pid, {EVENT_SERVER_MSG}, y);
    }
  }

  lemma PostedRunning(k: Kernel, pid: nat, bits: set<nat>, y: Id)
    requires IsReady(k, y)
    ensures var k' := PostBits(k, pid, bits);
      y in k'.threads && k'.threads[y] == k.threads[y] && k'.current == k.current
  {
    hide PostBits;
    if pid in k.processes { PostWakesFirst(k, pid, bits); } else { NothingPosted(k, pid, bits); }
  }

  lemma NothingPosted(k: Kernel, pid: nat, bits: set<nat>)
    requires pid !in k.processes
    ensures PostBits(k, pid, bits) == k
  {
  }

  /** The message is on its way: handed to a parked thread, or queued behind those that wait. */
  ghost predicate Taken(k: Kernel, k1: Kernel, s: nat, message: Message, mapped: Result<nat>) {
    && s in k.servers && s in k1.servers
    && exists m | Carries(message, mapped, m) ::
         if k.servers[s].q.readyThreads != {}
         then HandedOver(k, k1, s, message, m, k.current) && Pending(k.servers[s].q) == []
         else Enqueued(k, k1, s, message, m, k.current)
  }

  /** The caller once its message is on its way: it goes on, or waits for the answer. */
  function AfterSend(t: Thread, message: Message): Thread {
    if message.BlockingScalar? || message.Borrow? || message.MutableBorrow?
    then t.(state := WaitEvent({EVENT_KERNEL}), future := Some(WaitBlocking))
    else t.(result := Some(Done))
  }

  /**
   What sending over connection `cid` comes to when the queue of the server is not full or the
   caller is not patient.
   */
  ghost predicate SendOutcome(k: Kernel, cid: nat, message: Message, mapped: Result<nat>, k': Kernel, r: Outcome) {
    if !exists s :: LeadsTo(k, cid, s) then k' == k && r == Error(ServerNotFound)
    else
      exists s :: LeadsTo(k, cid, s) && s in k.servers && SendsTo(k, cid, s, message, mapped, k', r)
  }

  ghost predicate SendsTo(k: Kernel, cid: nat, s: nat, message: Message, mapped: Result<nat>, k': Kernel, r: Outcome)
    requires LeadsTo(k, cid, s) && s in k.servers
  {
    if !Allowed(k, cid, s, message) then k' == k && r == Error(AccessDenied)
    else if Refusal(k, s, message, mapped).Some? then
      r == Error(Refusal(k, s, message, mapped).value) && SameButHint(k, k', s)
    else
      exists k1 ::
        && Taken(k, k1, s, message, mapped) && k.current in k.threads
        && CallerThen(k1, k', r, k.current, AfterSend(k.threads[k.current], message))
  }

  lemma AcceptedOk(k: Kernel, s: nat, message: Message, mapped: Result<nat>)
    requires Sound(k) && s in k.servers && (message.IsBlocking() ==> MaySuspend(k))
    requires SendInner(k, k.current, s, message, mapped).1.Ok?
    ensures var k1 := SendInner(k, k.current, s, message, mapped).0;
      var left := if message.IsBlocking() then Suspend(k1, k.current, WaitBlocking) else SetResult(k1, k.current, Done);
      && Base(left) && Ipc(left, None)
  {
    hide Base, Ipc, IdleOk, ConnsOk, SendInner, Suspend, SetResult, Tame;
    Running(k);
    var k1 := SendInner(k, k.current, s, message, mapped).0;
    SendInnerOk(k, k.current, s, message, mapped);
    RunningUnchanged(k, k.current, s, message, mapped, k.current);
    if message.IsBlocking() {
      TameKeeps(k, k1);
      SuspendOk(k1, k.current, WaitBlocking, Some(k.current));
    } else {
      ResultOk(k1, k.current, Done, None);
    }
  }

  lemma AcceptedThen(k: Kernel, s: nat, message: Message, mapped: Result<nat>)
    requires Sound(k) && s in k.servers && (message.IsBlocking() ==> MaySuspend(k))
    requires SendInner(k, k.current, s, message, mapped).1.Ok?
    ensures var k1 := SendInner(k, k.current, s, message, mapped).0;
      var left := if message.IsBlocking() then Suspend(k1, k.current, WaitBlocking) else SetResult(k1, k.current, Done);
      && k.current in k.threads
      && CallerThen(k1, Activate(left).0, Activate(left).1, k.current, AfterSend(k.threads[k.current], message))
  {
    hide Base, Ipc, IdleOk, ConnsOk, CurrentOk, SendInner, Suspend, SetResult, Activate, Left, Sound;
    Running(k);
    var k1 := SendInner(k, k.current, s, message, mapped).0;
    RunningUnchanged(k, k.current, s, message, mapped, k.current);
    AcceptedOk(k, s, message, mapped);
    var left := if message.IsBlocking() then Suspend(k1, k.current, WaitBlocking) else SetResult(k1, k.current, Done);
    if message.IsBlocking() {
      SuspendExact(k1, k.current, WaitBlocking) by { MaySuspendTid(k); }
    } else {
      ResultExact(k1, k.current, Done);
    }
    ActivateThread(left, k.current);
    LeftSame(left, Activate(left).0, Activate(left).1, k.current);
    var t := AfterSend(k.threads[k.current], message);
    assert left == k1.(threads := k1.threads[k.current := t], rings := left.rings);
  }

  lemma MaySuspendTid(k: Kernel)
    requires MaySuspend(k)
    ensures k.current.tid != IRQ_TID
  {
  }

  lemma SendMessageOutcome(k: Kernel, cid: nat, message: Message, mapped: Result<nat>)
    requires Sound(k) && (message.IsBlocking() ==> MaySuspend(k))
    ensures var (k', r) := SendMessage(k, cid, message, mapped);
      SendOutcome(k, cid, message, mapped, k', r)
  {
    hide Base, Ipc, IdleOk, CurrentOk, SendInner, Suspend, SetResult, Activate, Lookup, Permitted, LeadsTo, Allowed,
         ConnsOk, CallerThen, Taken, Refusal, SameButHint;
    LookupLeads(k, cid);
    var found := Lookup(k, cid);
    if found.Ok? {
      var s := found.value;
      LeadsToServer(k, cid, s);
      PermittedIsAllowed(k, cid, s, message);
      RefusedExactly(k, k.current, s, message, mapped);
      var (k1, r) := SendInner(k, k.current, s, message, mapped);
      if Allowed(k, cid, s, message) && r.Ok? {
        AcceptedThen(k, s, message, mapped);
        HandedOverOrQueued(k, k.current, s, message, mapped);
        assert Taken(k, k1, s, message, mapped) by { TakenFrom(k, k1, s, message, mapped); }
      }
      var (k', o) := SendMessage(k, cid, message, mapped);
      assert SendsTo(k, cid, s, message, mapped, k', o);
    }
  }

  lemma TakenFrom(k: Kernel, k1: Kernel, s: nat, message: Message, mapped: Result<nat>)
    requires s in k.servers && s in k1.servers
    requires exists m | Carries(message, mapped, m) ::
         if k.servers[s].q.readyThreads != {}
         then HandedOver(k, k1, s, message, m, k.current) && Pending(k.servers[s].q) == []
         else Enqueued(k, k1, s, message, m, k.current)
    ensures Taken(k, k1, s, message, mapped)
  {
    hide HandedOver, Enqueued, Pending, Carries;
  }

  /** Sending without patience. */
  lemma TrySendStep(k: Kernel, cid: nat, message: Message, mapped: Result<nat>)
    requires var e := SysCall(TrySend(cid, message, mapped));
      Sound(k) && Enabled(k, e) && (k.current.tid == IRQ_TID ==> !message.IsBlocking())
    ensures var (k', r) := Step(k, SysCall(TrySend(cid, message, mapped)));
      SendOutcome(k, cid, message, mapped, k', r)
  {
    hide Inv, SendMessage, SendOutcome;
    SendMessageOutcome(k, cid, message, mapped);
  }

  /** The message may go to server `s` over connection `cid`, but its queue is full. */
  ghost predicate Full(k: Kernel, cid: nat, s: nat, message: Message) {
    && LeadsTo(k, cid, s) && s in k.servers && Allowed(k, cid, s, message)
    && forall i | 0 <= i < |k.servers[s].q.queue| :: !k.servers[s].q.queue[i].Empty?
  }

  /** Sending with patience: a caller that finds the queue full waits for room, and nothing else has happened. */
  lemma PatientSendStep(k: Kernel, cid: nat, message: Message, mapped: Result<nat>, s: nat)
    requires Sound(k) && Enabled(k, SysCall(Send(cid, message, mapped))) && k.current.tid != IRQ_TID
    ensures var (k', r) := Step(k, SysCall(Send(cid, message, mapped)));
      && ((forall s' :: !Full(k, cid, s', message)) ==> SendOutcome(k, cid, message, mapped, k', r))
      && (Full(k, cid, s, message) ==>
            && k.current in k.threads && k.current in k'.threads && OthersLeft(k, k', r, k.current)
            && (|| k'.threads[k.current] == k.threads[k.current].(state := RetryQueueFull(s, k.servers[s].born))
                || k'.threads[k.current] == k.threads[k.current].(state := Ready)))
  {
    hide Base, Ipc, IdleOk, ConnsOk, CurrentOk, SendMessage, SendMessageRetrying, SendOutcome, SendParks, SetState,
         Activate, Lookup, Left, LeadsTo, Allowed;
    var e := SysCall(Send(cid, message, mapped));
    Running(k);
    SendMessageOutcome(k, cid, message, mapped);
    SendRetryingKeeps(k, cid, message, mapped);
    FullExactly(k, cid, message, mapped);
    if Full(k, cid, s, message) {
      LookupLeads(k, cid);
      LeadsOnce(k, cid, s);
      var left := RetryParks(k, cid, message, mapped).value;
      assert left == SetState(k, k.current, RetryQueueFull(s, k.servers[s].born));
      LeavingOk(k, e);
      StateExact(k, k.current, RetryQueueFull(s, k.servers[s].born));
      OneThenActivate(k, left, k.current);
      LeftRetrying(left, Activate(left).0, Activate(left).1, k.current);
    }
  }

  lemma LeftRetrying(k: Kernel, k': Kernel, r: Outcome, x: Id)
    requires Left(k, k', r, x) && k.threads[x].state.RetryQueueFull?
    ensures x in k'.threads && (k'.threads[x] == k.threads[x] || k'.threads[x] == k.threads[x].(state := Ready))
  {
  }

  lemma LeadsOnce(k: Kernel, cid: nat, s: nat)
    requires LeadsTo(k, cid, s)
    ensures Lookup(k, cid) == Ok(s)
  {
  }

  lemma FullExactly(k: Kernel, cid: nat, message: Message, mapped: Result<nat>)
    requires Sound(k) && mapped != Err(ServerQueueFull) && (message.IsBlocking() ==> MaySuspend(k))
    ensures SendMessage(k, cid, message, mapped).1 == Error(ServerQueueFull) <==> exists s :: Full(k, cid, s, message)
  {
    hide Base, Ipc, IdleOk, CurrentOk, SendInner, Suspend, SetResult, Activate, Lookup, Permitted, LeadsTo, Allowed,
         ConnsOk, Refusal, SameButHint;
    LookupLeads(k, cid);
    var found := Lookup(k, cid);
    if found.Ok? {
      var s := found.value;
      LeadsToServer(k, cid, s);
      PermittedIsAllowed(k, cid, s, message);
      RefusedExactly(k, k.current, s, message, mapped);
      RefusedAsFull(k, s, message, mapped);
      var (k1, r) := SendInner(k, k.current, s, message, mapped);
      ActivateErrors(if message.IsBlocking() then Suspend(k1, k.current, WaitBlocking)
                     else SetResult(k1, k.current, Done));
      forall s' | LeadsTo(k, cid, s')
        ensures s' == s
      {
        LeadsOnce(k, cid, s');
      }
      assert SendMessage(k, cid, message, mapped).1 == Error(ServerQueueFull) <==> Full(k, cid, s, message);
    }
  }

  lemma RefusedAsFull(k: Kernel, s: nat, message: Message, mapped: Result<nat>)
    requires s in k.servers && mapped != Err(ServerQueueFull)
    ensures Refusal(k, s, message, mapped) == Some(ServerQueueFull) <==>
            forall i | 0 <= i < |k.servers[s].q.queue| :: !k.servers[s].q.queue[i].Empty?
  {
  }

  // ---- Receiving --------------------------------------------------------------------------------

  /** `s` is the first of the caller's own servers with this id. */
  predicate OwnServer(k: Kernel, sid: nat, s: nat) {
    s < k.limits.servers && IsOwn(k, sid, s) && forall u | 0 <= u < s :: !IsOwn(k, sid, u)
  }

  predicate IsOwn(k: Kernel, sid: nat, s: nat) {
    s in k.servers && k.servers[s].q.sid == sid && k.servers[s].q.pid == k.current.pid
  }

  lemma {:induction false} OwnIndex(k: Kernel, sid: nat, i: nat)
    requires forall u | 0 <= u < i :: !IsOwn(k, sid, u)
    ensures var s := ServerIndex(k, sid, Some(k.current.pid), i);
      && (s < k.limits.servers ==> OwnServer(k, sid, s))
      && (s >= k.limits.servers ==> forall u | 0 <= u < k.limits.servers :: !IsOwn(k, sid, u))
    decreases k.limits.servers - i
  {
    if i < k.limits.servers && !IsOwn(k, sid, i) { OwnIndex(k, sid, i + 1); }
  }

  /** Server `s` with the caller marked as parked on it. */
  function WithParked(k: Kernel, s: nat): Kernel
    requires s in k.servers
  {
    var q := k.servers[s].q;
    k.(servers := k.servers[s := k.servers[s].(q := q.(readyThreads := q.readyThreads + {k.current.tid}))])
  }

  /** Waiting for a message of server `s`: the caller is parked on it; for the others nothing has happened. */
  ghost predicate ParkedOn(k: Kernel, k': Kernel, r: Outcome, s: nat)
    requires s in k.servers
  {
    && k.current in k.threads && k.current in k'.threads
    && k'.threads[k.current] == k.threads[k.current].(state := WaitEvent({EVENT_SERVER_MSG}),
                                                      future := Some(ReceiveMessage(s, k.servers[s].born)))
    && OthersLeft(WithParked(k, s), k', r, k.current)
  }

  /**
   Receiving: the oldest message of the caller's own server, with its slot and its sender; without one
   the caller is told so, or parked on the server.
   */
  lemma ReceiveStep(k: Kernel, sid: nat, blocking: bool)
    requires Sound(k) && (blocking ==> k.current.tid != IRQ_TID && k.current != IDLE)
    ensures var (k', r) := Step(k, SysCall(if blocking then ReceiveBlocking(sid) else TryReceive(sid)));
      if !exists s :: OwnServer(k, sid, s) then k' == k && r == Error(ServerNotFound)
      else exists s | OwnServer(k, sid, s) ::
        if Pending(k.servers[s].q) != [] then
          && r.Returned? && s in k'.servers && Handed(k.servers[s].q, k'.servers[s].q, s, Some(r.reply))
          && k'.servers == k.servers[s := k.servers[s].(q := k'.servers[s].q)] && forall x :: OthersKept(k, k', x)
        else if !blocking then k' == k && r == Returned(Nothing)
        else ParkedOn(k, k', r, s)
  {
    hide Base, IdleOk, ConnsOk, CurrentOk, TakeMessage, Activate, Suspend, ServerIndex, Handed, OthersKept, ParkedOn,
         Pending, QueueOk, OwnServer, CleanOk, NamesOk, MailOk, ReceiversOk, RetryOk, StampsOk, ServersOk;
    var s := ServerIndex(k, sid, Some(k.current.pid), 0);
    OwnIndex(k, sid, 0);
    Running(k);
    if s < k.limits.servers {
      QueueFacts(k, s, None);
      var q := k.servers[s].q;
      if Pending(q) != [] {
        TakeMessageExact(k, s);
      } else {
        NothingTaken(k, s);
        if blocking { ReceiveParked(k, sid, s); }
      }
    } else {
      assert !exists u :: OwnServer(k, sid, u) by { NoneOwn(k, sid); }
    }
  }

  lemma NoneOwn(k: Kernel, sid: nat)
    requires forall u | 0 <= u < k.limits.servers :: !IsOwn(k, sid, u)
    ensures forall u :: !OwnServer(k, sid, u)
  {
  }

  lemma NothingTaken(k: Kernel, s: nat)
    requires s in k.servers && QueueOk(k.servers[s].q) && Pending(k.servers[s].q) == []
    ensures TakeMessage(k, s) == (k, None)
  {
    TakeNextFifo(k.servers[s].q);
  }

  lemma ReceiveParked(k: Kernel, sid: nat, s: nat)
    requires Sound(k) && k.current.tid != IRQ_TID && k.current != IDLE
    requires s == ServerIndex(k, sid, Some(k.current.pid), 0) && s < k.limits.servers && TakeMessage(k, s) == (k, None)
    ensures var (k', r) := Step(k, SysCall(ReceiveBlocking(sid)));
      ParkedOn(k, k', r, s)
  {
    hide Base, Ipc, IdleOk, ConnsOk, CurrentOk, TakeMessage, Activate, Suspend, ServerIndex, Left;
    Running(k);
    var e := SysCall(ReceiveBlocking(sid));
    var f := ReceiveMessage(s, k.servers[s].born);
    var k1 := WithParked(k, s);
    LeavingOk(k, e);
    SuspendExact(k1, k.current, f);
    var left := Suspend(k1, k.current, f);
    OneThenActivate(k1, left, k.current);
    LeftSame(left, Activate(left).0, Activate(left).1, k.current);
  }
}
