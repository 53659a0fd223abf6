/** What the invariants mean for every run of the kernel. */
module KernelTheorems {
  import opened Common
  import opened Rings
  import opened ServerQueue
  import opened Fifo
  import opened KernelState
  import opened KernelSteps
  import opened KernelInv
  import opened KernelWakes
  import opened KernelIpc
  import opened KernelMessages
  import opened KernelActivate
  import opened KernelCalls
  import opened KernelRuns
  import E = KernelEffects

  // ---- Blocking calls ---------------------------------------------------------------------------

  /**
   In every reachable state, each slot of each server that would wake a thread names a live thread
   that is suspended in a blocking call with an empty mailbox, and no two slots name the same thread.
   */
  lemma SlotsNameWaitingClients(k: Kernel, s: nat, i: nat, x: Id)
    requires Reachable(k) && NameAt(k, s, i) == Some(x)
    ensures x in k.threads && x.pid in k.processes && !k.threads[x].state.Free?
    ensures k.threads[x].future == Some(WaitBlocking) && k.threads[x].mailbox.None?
    ensures forall s', i' :: NameAt(k, s', i') == Some(x) ==> s' == s && i' == i
  {
    ReachableSound(k);
    assert AwaitsReply(k, NameAt(k, s, i).value);
  }

  /** The thread to which an event delivers a reply. */
  function Replied(k: Kernel, e: Event): Option<Id> {
    match e
    case SysCall(ReplyScalar(sidx, idx, _)) =>
      (match TakeReply(k, sidx, idx, None).1
       case Ok(ScalarReply(p, t)) => Some(Id(p, t))
       case _ => None)
    case SysCall(ReplyMemory(sidx, idx, buf, _, Ok(_))) =>
      (match TakeReply(k, sidx, idx, Some(buf)).1
       case Ok(BorrowedMemory(p, t, _)) => Some(Id(p, t))
       case _ => None)
    case _ => None
  }

  lemma DeliveredReply(k: Kernel, k1: Kernel, x: Id, value: Reply)
    requires Base(k1) && Ipc(k1, None) && AwaitsReply(k1, x) && Unnamed(k1, x)
    ensures !AwaitsReply(Activate(SetResult(WakeWithResult(k1, x, value), k.current, Done)).0, x)
  {
    hide Base, Ipc, Tame, WakeWithResult, SetResult, Activate, AwaitsReply, Unnamed, NoStale, IdleOk, ConnsOk, Chosen;
    var k2 := WakeWithResult(k1, x, value);
    MailEndsWait(k1, x, value, k.current);
    WakeResultOk(k1, x, value);
    ResultOk(k2, k.current, Done, None);
    ActivateOk(SetResult(k2, k.current, Done));
  }

  lemma MailEndsWait(k: Kernel, x: Id, value: Reply, y: Id)
    requires AwaitsReply(k, x)
    ensures x in k.threads && k.threads[x].future == Some(WaitBlocking)
    ensures !AwaitsReply(SetResult(WakeWithResult(k, x, value), y, Done), x)
  {
  }

  /** A reply goes to a thread that waits for one, and ends its wait. */
  lemma ReplyEndsWait(k: Kernel, e: Event, x: Id)
    requires Sound(k) && Replied(k, e) == Some(x)
    ensures AwaitsReply(k, x) && !AwaitsReply(Step(k, e).0, x)
  {
    hide Base, Ipc, IdleOk, ConnsOk, NoStale, Tame, WakeWithResult, SetResult, Activate, Unnamed, AwaitsReply,
         TakeReply, CurrentOk, NameAt;
    match e
    case SysCall(ReplyScalar(sidx, idx, value)) =>
      TakeReplyOk(k, sidx, idx, None);
      DeliveredReply(k, TakeReply(k, sidx, idx, None).0, x, value);
    case SysCall(ReplyMemory(sidx, idx, buf, value, returned)) =>
      TakeReplyOk(k, sidx, idx, Some(buf));
      DeliveredReply(k, TakeReply(k, sidx, idx, Some(buf)).0, x, value);
  }

  /** How many replies a run delivers to `x`. */
  function Replies(k: Kernel, es: seq<Event>, x: Id): nat
    decreases |es|
  {
    if es == [] then 0
    else (if Replied(k, es[0]) == Some(x) then 1 else 0) + Replies(Step(k, es[0]).0, es[1..], x)
  }

  /** How many blocking messages of `x` are accepted in a run. */
  function BlockingSends(k: Kernel, es: seq<Event>, x: Id): nat
    decreases |es|
  {
    if es == [] then 0
    else (if Asker(k, es[0]) == Some(x) then 1 else 0) + BlockingSends(Step(k, es[0]).0, es[1..], x)
  }

  function Waits(k: Kernel, x: Id): nat {
    if AwaitsReply(k, x) then 1 else 0
  }

  lemma StepBalance(k: Kernel, e: Event, x: Id)
    requires Sound(k) && Enabled(k, e)
    ensures (if Replied(k, e) == Some(x) then 1 else 0) + Waits(Step(k, e).0, x) <=
            Waits(k, x) + (if Asker(k, e) == Some(x) then 1 else 0)
  {
    hide Inv, NoStale, CurrentOk, Step, AwaitsReply, TakeReply, Stays, Derails;
    StepKeeps(k, e);
    if Replied(k, e) == Some(x) { ReplyEndsWait(k, e, x); }
  }

  /** The balance over a run from any sound state. */
  lemma {:induction false} RepliesBalance(k: Kernel, es: seq<Event>, x: Id)
    requires Sound(k) && SoundRun(k, es)
    ensures Replies(k, es, x) + Waits(Run(k, es), x) <= Waits(k, x) + BlockingSends(k, es, x)
    decreases |es|
  {
    if es == [] {
    } else {
      hide Inv, NoStale, CurrentOk, Step, AwaitsReply, Replied, Asker, NoNewWaits, Stays, Derails;
      StepKeeps(k, es[0]);
      StepBalance(k, es[0], x);
      RepliesBalance(Step(k, es[0]).0, es[1..], x);
    }
  }

  /** At most one reply is delivered per blocking message that was accepted, over every run from start-up. */
  lemma AtMostOneReplyPerSend(l: Limits, es: seq<Event>, x: Id)
    requires Start(l, es)
    ensures Replies(Boot(l), es, x) <= BlockingSends(Boot(l), es, x)
  {
    BootGood(l);
    assert Waits(Boot(l), x) == 0 by { BootThreads(l); }
    hide Inv, CurrentOk, NoStale, SoundRun, Boot, Replies, BlockingSends, Waits, Run;
    RepliesBalance(Boot(l), es, x);
  }

  // ---- Stranded clients -------------------------------------------------------------------------

  /** Process `pid` lives throughout the run. */
  ghost predicate Lives(k: Kernel, es: seq<Event>, pid: nat)
    decreases |es|
  {
    pid in k.processes && (es != [] ==> Lives(Step(k, es[0]).0, es[1..], pid))
  }

  /** A thread that waits for a reply and is named by no slot waits for ever, or until its process ends. */
  lemma {:induction false} StrandedForever(k: Kernel, es: seq<Event>, x: Id)
    requires Sound(k) && SoundRun(k, es) && Stranded(k, x) && Lives(k, es, x.pid)
    ensures Stranded(Run(k, es), x)
    decreases |es|
  {
    if es == [] {
    } else {
      hide Inv, NoStale, CurrentOk, Step, NoNewWaits, Derails, Stranded;
      StepKeeps(k, es[0]);
      assert x.pid in Step(k, es[0]).0.processes;
      StrandedForever(Step(k, es[0]).0, es[1..], x);
    }
  }

  /** There is no process `pid` throughout the run. */
  ghost predicate Absent(k: Kernel, es: seq<Event>, pid: nat)
    decreases |es|
  {
    pid !in k.processes && (es != [] ==> Absent(Step(k, es[0]).0, es[1..], pid))
  }

  /**
   A thread that waits for the end of a process that is not there waits for ever, or until its own
   process ends or one of the awaited number is started.
   */
  lemma {:induction false} AbandonedForever(k: Kernel, es: seq<Event>, x: Id)
    requires Sound(k) && SoundRun(k, es) && Abandoned(k, x) && Lives(k, es, x.pid)
    requires Absent(k, es, k.threads[x].future.value.targetPid)
    ensures Abandoned(Run(k, es), x) && Run(k, es).threads[x].future == k.threads[x].future
    decreases |es|
  {
    if es == [] {
    } else {
      hide Inv, NoStale, CurrentOk, Step, NoNewWaits, Derails, Stranded;
      var k1 := Step(k, es[0]).0;
      StepKeeps(k, es[0]);
      assert WaitsOn(k, k1, x) && Absent(k1, es[1..], k.threads[x].future.value.targetPid);
      AbandonedForever(k1, es[1..], x);
    }
  }

  // ---- Delivery order ---------------------------------------------------------------------------

  /** The server that was born at `born` has index `s` throughout the run. */
  ghost predicate Stands(k: Kernel, es: seq<Event>, s: nat, born: nat)
    decreases |es|
  {
    s in k.servers && k.servers[s].born == born && (es != [] ==> Stands(Step(k, es[0]).0, es[1..], s, born))
  }

  lemma {:induction false} RecordKept(k: Kernel, es: seq<Event>, s: nat, born: nat)
    requires Sound(k) && SoundRun(k, es) && Stands(k, es, s, born)
    ensures s in k.servers && s in Run(k, es).servers && Extends(k.servers[s].q, Run(k, es).servers[s].q)
    decreases |es|
  {
    if es == [] {
    } else {
      hide Inv, NoStale, CurrentOk, Step, NoNewWaits, Derails, Stays, Extends;
      var k1 := Step(k, es[0]).0;
      StepKeeps(k, es[0]);
      RecordKept(k1, es[1..], s, born);
      RecordStep(k, k1, s, Run(k, es).servers[s].q);
    }
  }

  lemma RecordStep(k: Kernel, k1: Kernel, s: nat, q: ServerState)
    requires Stays(k, k1) && s in k.servers && s in k1.servers && k1.servers[s].born == k.servers[s].born
    requires Extends(k1.servers[s].q, q)
    ensures Extends(k.servers[s].q, q)
  {
    assert Recorded(k, k1);
  }

  lemma RecordOrder(q: ServerState, q': ServerState)
    requires QueueOk(q) && QueueOk(q') && Extends(q, q')
    ensures q'.received[|q.received|..] + Backlog(q') == Backlog(q) + q'.sent[|q.sent|..]
  {
    hide SlotsOk, Pending;
    var n := |q.received|;
    assert q'.received == q.received + q'.received[n..] && q'.sent == q.sent + q'.sent[|q.sent|..];
    assert q.received + (q'.received[n..] + Backlog(q')) == q'.sent == q.received + (Backlog(q) + q'.sent[|q.sent|..]);
    assert (q.received + (q'.received[n..] + Backlog(q')))[n..] ==
           (q.received + (Backlog(q) + q'.sent[|q.sent|..]))[n..];
  }

  /**
   First in, first out through the whole kernel.  For every run during which a server stands: what it
   was given meanwhile, by receiving, by a future that was polled or by direct hand-over, followed by
   what still waits for it, is what waited at the start followed by what was accepted meanwhile.
   */
  lemma DeliveredInOrder(k: Kernel, es: seq<Event>, s: nat, born: nat)
    requires Sound(k) && SoundRun(k, es) && Stands(k, es, s, born)
    ensures var k' := Run(k, es);
      && s in k.servers && s in k'.servers && QueueOk(k.servers[s].q) && QueueOk(k'.servers[s].q)
      && Extends(k.servers[s].q, k'.servers[s].q)
      && k'.servers[s].q.received[|k.servers[s].q.received|..] + Backlog(k'.servers[s].q) ==
         Backlog(k.servers[s].q) + k'.servers[s].q.sent[|k.servers[s].q.sent|..]
  {
    RecordKept(k, es, s, born);
    RunKeeps(k, es);
    hide Run, SoundRun, Stands, Backlog, Base, IdleOk, ConnsOk, CurrentOk;
    assert QueueOk(k.servers[s].q) && QueueOk(Run(k, es).servers[s].q);
    RecordOrder(k.servers[s].q, Run(k, es).servers[s].q);
  }

  // ---- Sending ----------------------------------------------------------------------------------

  /** A connection that can be sent over leads to the very server it was opened to. */
  lemma SendFindsItsServer(k: Kernel, cid: nat)
    requires Reachable(k) && Lookup(k, cid).Ok?
    ensures Lookup(k, cid).value in k.servers
    ensures Connection(k, k.current.pid, cid).value.born == k.servers[Lookup(k, cid).value].born
  {
    ReachableSound(k);
    assert ConnAt(k, k.current.pid, cid - 2) == Connection(k, k.current.pid, cid).value;
  }

  /** The message as the server sees it: memory is where it has been mapped, and all else is as it was sent. */
  predicate Carries(message: Message, mapped: Result<nat>, m: Message) {
    match message
    case Scalar(_) => m == message
    case BlockingScalar(_) => m == message
    case Move(b) => mapped.Ok? && m == Move(MemoryBody(b.id, mapped.value, b.size, b.offset, b.valid))
    case Borrow(b) => mapped.Ok? && m == Borrow(MemoryBody(b.id, mapped.value, b.size, b.offset, b.valid))
    case MutableBorrow(b) => mapped.Ok? && m == MutableBorrow(MemoryBody(b.id, mapped.value, b.size, b.offset, b.valid))
  }

  /** The slot of a queued message: who sent it, what it carries, and where lent memory came from. */
  predicate Remembers(slot: QueuedMessage, message: Message, m: Message, sender: Id) {
    match message
    case Scalar(b) => slot.ScalarMessage? && slot.pid == sender.pid && slot.scalar == b
    case BlockingScalar(b) => slot.BlockingScalarMessage? && Id(slot.pid, slot.tid) == sender && slot.scalar == b
    case Move(b) => m.Move? && slot.MemoryMessageSend? && slot.pid == sender.pid && slot.memory == m.memory
    case Borrow(b) =>
      m.Borrow? && slot.MemoryMessageROLend? && Id(slot.pid, slot.tid) == sender && slot.clientAddr == b.addr &&
      slot.memory == m.memory
    case MutableBorrow(b) =>
      m.MutableBorrow? && slot.MemoryMessageRWLend? && Id(slot.pid, slot.tid) == sender && slot.clientAddr == b.addr &&
      slot.memory == m.memory
  }

  /** The slot of a message that was handed over at once: who waits for the answer, and for which memory. */
  predicate Awaits(slot: QueuedMessage, message: Message, m: Message, sender: Id) {
    match message
    case BlockingScalar(_) => slot == WaitingReturnScalar(sender.pid, sender.tid)
    case Borrow(b) => m.Borrow? && slot == WaitingReturnMemory(sender.pid, sender.tid, m.memory.addr, b.addr, b.size)
    case MutableBorrow(b) =>
      m.MutableBorrow? && slot == WaitingReturnMemory(sender.pid, sender.tid, m.memory.addr, b.addr, b.size)
    case _ => true
  }

  /** The message goes straight to the lowest-numbered parked thread; the slot it is told of names a blocking sender. */
  ghost predicate HandedOver(k: Kernel, k': Kernel, s: nat, message: Message, m: Message, sender: Id)
    requires s in k.servers && s in k'.servers
  {
    var q, q' := k.servers[s].q, k'.servers[s].q;
    exists t | t in q.readyThreads ::
      && (forall u | u in q.readyThreads :: t <= u)
      && q'.readyThreads == q.readyThreads - {t} && Pending(q') == Pending(q)
      && q'.sent == q.sent + [m] && q'.received == q.received + [m]
      && TookDelivery(k', Id(q.pid, t), s, message, m, sender)
  }

  predicate TookDelivery(k: Kernel, x: Id, s: nat, message: Message, m: Message, sender: Id) {
    x in k.threads && k.threads[x].state.Ready? && k.threads[x].future.None? &&
    k.threads[x].result.Some? && k.threads[x].result.value.Delivered? &&
    k.threads[x].result.value.sidx == s &&
    var e := k.threads[x].result.value.envelope;
    e.body == m && e.senderPid == sender.pid &&
    (m.IsBlocking() ==>
       s in k.servers && e.slot < |k.servers[s].q.queue| && Awaits(k.servers[s].q.queue[e.slot], message, m, sender))
  }

  /** The message is the last that the server will receive; whoever waits for the next event of the server is told. */
  ghost predicate Enqueued(k: Kernel, k': Kernel, s: nat, message: Message, m: Message, sender: Id)
    requires s in k.servers && s in k'.servers
  {
    var p, p' := Pending(k.servers[s].q), Pending(k'.servers[s].q);
    && k.servers[s].q.readyThreads == {} && k'.servers[s].q.readyThreads == {}
    && k'.servers[s].q.sent == k.servers[s].q.sent + [m] && k'.servers[s].q.received == k.servers[s].q.received
    && |p'| == |p| + 1 && p'[..|p|] == p && Remembers(p'[|p|], message, m, sender)
    && p'[|p|].IsPending() && p'[|p|].Body() == m && p'[|p|].SenderPid() == sender.pid
    && k.servers[s].q.pid in k.processes
    && E.Posted(k.(servers := k'.servers), k', k.servers[s].q.pid, {EVENT_SERVER_MSG})
  }

  /** The queue and the reply of a direct hand-over to thread `t`. */
  function DirectQueue(q: ServerState, t: nat, sender: Id, m: Message, addr: Option<nat>): ServerState {
    var q1 := q.(readyThreads := q.readyThreads - {t});
    Passed(if m.IsBlocking() then QueueResponse(q1, sender.pid, sender.tid, m, addr).1 else q1, m)
  }

  function DirectReply(q: ServerState, s: nat, t: nat, sender: Id, m: Message, addr: Option<nat>): Reply {
    var r := QueueResponse(q.(readyThreads := q.readyThreads - {t}), sender.pid, sender.tid, m, addr).0;
    Delivered(s, Envelope(sender.pid, if m.IsBlocking() && r.Ok? then r.value else 0, m))
  }

  lemma DirectUnfold(k: Kernel, sender: Id, s: nat, message: Message, mapped: Result<nat>, t: nat)
    requires s in k.servers && AvailableThread(k.servers[s].q) == Some(t) &&
             SendInner(k, sender, s, message, mapped).1.Ok?
    ensures Translate(message, mapped).Ok?
    ensures var q, m, addr := k.servers[s].q, Translate(message, mapped).value, ClientAddress(message);
      && SendInner(k, sender, s, message, mapped).0 ==
         HandOver(SetQueue(k, s, DirectQueue(q, t, sender, m, addr)), Id(q.pid, t),
               DirectReply(q, s, t, sender, m, addr))
      && (m.IsBlocking() ==>
            QueueResponse(q.(readyThreads := q.readyThreads - {t}), sender.pid, sender.tid, m, addr).0.Ok?)
  {
  }

  lemma DirectQueueOk(q: ServerState, t: nat, sender: Id, m: Message, addr: Option<nat>)
    requires QueueOk(q)
    ensures DirectQueue(q, t, sender, m, addr).readyThreads == q.readyThreads - {t}
    ensures Pending(DirectQueue(q, t, sender, m, addr)) == Pending(q)
    ensures DirectQueue(q, t, sender, m, addr).sent == q.sent + [m] &&
            DirectQueue(q, t, sender, m, addr).received == q.received + [m]
  {
    var q1 := q.(readyThreads := q.readyThreads - {t});
    assert QueueOk(q1);
    QueueResponseFifo(q1, sender.pid, sender.tid, m, addr);
    ResponseKeepsMask(q1, sender, m, addr);
    assert Pending(DirectQueue(q, t, sender, m, addr)) ==
           Pending(if m.IsBlocking() then QueueResponse(q1, sender.pid, sender.tid, m, addr).1 else q1);
  }

  /** The thread that gets the message is parked on the server, and no parked thread has a lower number. */
  lemma ParkedThread(k: Kernel, s: nat)
    requires Ipc(k, None) && s in k.servers && k.servers[s].q.readyThreads != {}
    ensures var q := k.servers[s].q;
      && AvailableThread(q).Some? && AvailableThread(q).value in q.readyThreads && AvailableThread(q).value != IRQ_TID
      && (forall u | u in q.readyThreads :: AvailableThread(q).value <= u)
      && Id(q.pid, AvailableThread(q).value) in k.threads
      && QueueOk(q) && QueueOk(q.(readyThreads := q.readyThreads - {AvailableThread(q).value}))
  {
  }

  lemma DirectDelivery(k: Kernel, sender: Id, s: nat, message: Message, mapped: Result<nat>)
    requires Base(k) && Ipc(k, None) && s in k.servers && k.servers[s].q.readyThreads != {}
    requires SendInner(k, sender, s, message, mapped).1.Ok?
    ensures var k' := SendInner(k, sender, s, message, mapped).0;
      && s in k'.servers && Translate(message, mapped).Ok?
      && HandedOver(k, k', s, message, Translate(message, mapped).value, sender)
  {
    hide Base, Ipc, Pending, SendInner, HandOver, QueueResponse, QueueOk, AvailableThread, ReceivesFrom,
         ClientAddress;
    ParkedThread(k, s);
    var q := k.servers[s].q;
    var t := AvailableThread(q).value;
    DirectUnfold(k, sender, s, message, mapped, t);
    var m, addr := Translate(message, mapped).value, ClientAddress(message);
    DirectQueueOk(q, t, sender, m, addr);
    ResponseAwaits(q.(readyThreads := q.readyThreads - {t}), sender, message, mapped);
    HandOverExact(SetQueue(k, s, DirectQueue(q, t, sender, m, addr)), Id(q.pid, t),
          DirectReply(q, s, t, sender, m, addr));
    assert TookDelivery(SendInner(k, sender, s, message, mapped).0, Id(q.pid, t), s, message, m, sender);
  }

  lemma TranslateCarries(message: Message, mapped: Result<nat>)
    requires Translate(message, mapped).Ok?
    ensures Carries(message, mapped, Translate(message, mapped).value)
    ensures Translate(message, mapped).value.IsBlocking() == message.IsBlocking()
  {
  }

  lemma ResponseAwaits(q: ServerState, sender: Id, message: Message, mapped: Result<nat>)
    requires Translate(message, mapped).Ok?
    ensures var m := Translate(message, mapped).value;
      var (r, q') := QueueResponse(q, sender.pid, sender.tid, m, ClientAddress(message));
      r.Ok? && m.IsBlocking() ==> r.value < |q'.queue| && Awaits(q'.queue[r.value], message, m, sender)
  {
  }

  lemma QueuedRemembers(q: ServerState, sender: Id, message: Message, mapped: Result<nat>)
    requires Translate(message, mapped).Ok?
    ensures var m := Translate(message, mapped).value;
      var (r, q') := QueueMessage(q, sender.pid, sender.tid, m, ClientAddress(message));
      r.Ok? ==>
        && r.value < |q'.queue| && Remembers(q'.queue[r.value], message, m, sender)
        && q'.queue[r.value].IsPending() && q'.queue[r.value].SenderPid() == sender.pid
  {
  }

  lemma ResponseKeepsMask(q: ServerState, sender: Id, m: Message, addr: Option<nat>)
    ensures var q' := QueueResponse(q, sender.pid, sender.tid, m, addr).1;
      q'.readyThreads == q.readyThreads && q'.sent == q.sent && q'.received == q.received
  {
  }

  lemma QueuedDelivery(k: Kernel, sender: Id, s: nat, message: Message, mapped: Result<nat>)
    requires Base(k) && Ipc(k, None) && s in k.servers && k.servers[s].q.readyThreads == {}
    requires SendInner(k, sender, s, message, mapped).1.Ok?
    ensures var k' := SendInner(k, sender, s, message, mapped).0;
      && s in k'.servers && Translate(message, mapped).Ok?
      && Enqueued(k, k', s, message, Translate(message, mapped).value, sender)
  {
    hide Base, QueueOk, QueueMessage, PostBits, Pending, Quiet, AvailableThread, ClientAddress, SetQueue, CleanOk,
         NamesOk, MailOk, RetryOk, StampsOk, NamesGrow, NamesShrink;
    var q := k.servers[s].q;
    AvailableIsLeast(q);
    var m := Translate(message, mapped).value;
    GenerationsSuffice(q);
    assert q.pid in k.processes;
    hide ServersOk, ReceiversOk;
    EnqueuedLog(q, sender, m, ClientAddress(message));
    QueueMessageFifo(q, sender.pid, sender.tid, m, ClientAddress(message));
    EnqueueNames(q, sender, m, ClientAddress(message));
    QueuedRemembers(q, sender, message, mapped);
    var q1 := QueueMessage(q, sender.pid, sender.tid, m, ClientAddress(message)).1;
    PostBitsQuiet(SetQueue(k, s, q1), q.pid, {EVENT_SERVER_MSG});
    var k' := SendInner(k, sender, s, message, mapped).0;
    assert k' == PostBits(SetQueue(k, s, q1), q.pid, {EVENT_SERVER_MSG});
    assert k'.servers == SetQueue(k, s, q1).servers by { QuietSame(SetQueue(k, s, q1), k'); }
    SetQueueAt(k, s, q1);
    QueueNotified(k, s, q1);
  }

  lemma QueueNotified(k: Kernel, s: nat, q: ServerState)
    requires s in k.servers && k.servers[s].q.pid in k.processes
    ensures var pid := k.servers[s].q.pid;
      var k' := PostBits(SetQueue(k, s, q), pid, {EVENT_SERVER_MSG});
      E.Posted(k.(servers := k'.servers), k', pid, {EVENT_SERVER_MSG})
  {
    hide PostBits, E.WaitsForBits;
    E.PostWakesFirst(SetQueue(k, s, q), k.servers[s].q.pid, {EVENT_SERVER_MSG});
  }

  lemma EnqueuedLog(q: ServerState, sender: Id, m: Message, addr: Option<nat>)
    ensures var (r, q') := QueueMessage(q, sender.pid, sender.tid, m, addr);
      r.Ok? ==> q'.sent == q.sent + [m] && q'.received == q.received
  {
  }

  lemma QuietSame(k: Kernel, k': Kernel)
    requires Quiet(k, k')
    ensures k'.servers == k.servers
  {
  }

  /**
   A message that is sent is either handed to a parked thread or queued, never both and never lost:
   handed over exactly if a thread is parked, and then nothing was pending that it could overtake.
   */
  lemma HandedOverOrQueued(k: Kernel, sender: Id, s: nat, message: Message, mapped: Result<nat>)
    requires Base(k) && Ipc(k, None) && SendInner(k, sender, s, message, mapped).1.Ok?
    ensures s in k.servers
    ensures var k' := SendInner(k, sender, s, message, mapped).0;
      && s in k'.servers
      && exists m | Carries(message, mapped, m) ::
           if k.servers[s].q.readyThreads != {}
           then HandedOver(k, k', s, message, m, sender) && Pending(k.servers[s].q) == []
           else Enqueued(k, k', s, message, m, sender)
  {
    assert k.servers[s].q.readyThreads != {} ==> Pending(k.servers[s].q) == [];
    hide Base, Ipc, SendInner, HandedOver, Enqueued, Pending;
    if k.servers[s].q.readyThreads != {} {
      DirectDelivery(k, sender, s, message, mapped);
    } else {
      QueuedDelivery(k, sender, s, message, mapped);
    }
    TranslateCarries(message, mapped);
  }

  // ---- The scheduler ----------------------------------------------------------------------------

  /**
   In every reachable state a thread that is not an interrupt thread is linked iff it is ready: then
   once, in the ring of its priority.  The interrupt flag is up iff an interrupt thread is ready.
   */
  lemma LinkedIffReady(k: Kernel, x: Id)
    requires Reachable(k) && x in k.threads && x.tid != IRQ_TID
    ensures k.threads[x].state.Ready? <==> exists p: nat :: InRing(k, p, x)
    ensures forall p: nat, i: nat | p < |k.rings| && i < |k.rings[p]| && k.rings[p][i] == x ::
              p == k.threads[x].priority && (forall j | 0 <= j < |k.rings[p]| && k.rings[p][j] == x :: j == i)
    ensures k.inIrq <==> exists p :: IsReady(k, Id(p, IRQ_TID))
  {
    ReachableSound(k);
    hide Good, Ipc, IdleOk, ConnsOk, NoStale, CurrentOk;
    CoupledAt(k, x);
  }

  lemma CoupledAt(k: Kernel, x: Id)
    requires Shape(k) && Coupled(k) && x in k.threads && x.tid != IRQ_TID
    ensures k.threads[x].state.Ready? <==> exists p: nat :: InRing(k, p, x)
    ensures forall p: nat, i: nat | p < |k.rings| && i < |k.rings[p]| && k.rings[p][i] == x ::
              p == k.threads[x].priority && (forall j | 0 <= j < |k.rings[p]| && k.rings[p][j] == x :: j == i)
  {
    var p0 := k.threads[x].priority;
    assert InRing(k, p0, x) <==> BelongsIn(k, p0, x);
    forall p: nat, i: nat | p < |k.rings| && i < |k.rings[p]| && k.rings[p][i] == x
      ensures p == p0 && (forall j | 0 <= j < |k.rings[p]| && k.rings[p][j] == x :: j == i)
    {
      assert InRing(k, p, x);
      assert BelongsIn(k, p, x);
      assert NoDup(k.rings[p]);
    }
  }

  // ---- Back-pressure ----------------------------------------------------------------------------

  /** No wake-up is lost: a sender in the scanned range that waits for room waits at a full queue. */
  lemma WaitsOnlyWhileFull(k: Kernel, x: Id, s: nat)
    requires Reachable(k) && RetriesAt(k, x, s) && x.tid + 1 < k.limits.threads
    ensures k.servers[s].q.emptyCount == 0
    ensures forall i | 0 <= i < |k.servers[s].q.queue| :: !k.servers[s].q.queue[i].Empty?
  {
    ReachableSound(k);
    var q := k.servers[s].q;
    assert CleanOk(k) && x.tid != IRQ_TID;
    assert q.emptyCount == 0;
    EmptySlotFound(q);
    CountEmptyZero(q.queue);
  }

  /** When a full queue gains room, a waiting sender goes on waiting exactly if it is the last thread of its process. */
  lemma LastThreadIsMissed(k: Kernel, s: nat, q: ServerState, x: Id)
    requires Base(k) && CleanOk(k) && RetriesAt(k, x, s) && k.servers[s].q.emptyCount == 0 && q.emptyCount != 0
    ensures RetriesAt(SetQueueWaking(k, s, q), x, s) <==> x.tid + 1 == k.limits.threads
  {
    SetQueueBase(k, s, q);
    WakeRetryExact(SetQueue(k, s, q), s);
    assert x.tid != IRQ_TID && x.tid < k.limits.threads;
    assert Scanned(SetQueue(k, s, q), x, s) <==> x.tid + 1 < k.limits.threads;
  }

  // ---- Receivers --------------------------------------------------------------------------------

  /**
   Parked receivers and pending messages never coexist, and a thread is marked as parked on a server
   iff it holds the future that waits for that server's messages.
   */
  lemma ReceiversHaveNothingPending(k: Kernel, s: nat, t: nat)
    requires Reachable(k) && s in k.servers
    ensures k.servers[s].q.readyThreads != {} ==> Pending(k.servers[s].q) == []
    ensures t in k.servers[s].q.readyThreads <==>
            Id(k.servers[s].q.pid, t) in k.threads &&
            k.threads[Id(k.servers[s].q.pid, t)].future == Some(ReceiveMessage(s, k.servers[s].born))
  {
    ReachableSound(k);
    var x := Id(k.servers[s].q.pid, t);
    assert t in k.servers[s].q.readyThreads ==> ReceivesFrom(k, x, s);
    assert ReceivesFrom(k, x, s) ==> x.tid in k.servers[s].q.readyThreads;
  }

  // ---- New threads ------------------------------------------------------------------------------

  /**
   The first register context of process `pid`, from `t` on, that is not in use.  Contexts are numbered
   from 1 to the number of threads, while the thread table starts at 0: the last context has no entry in it.
   */
  function FreeContext(k: Kernel, pid: nat, t: nat): Option<nat>
    decreases k.limits.threads + 1 - t
  {
    if t > k.limits.threads then None
    else if Id(pid, t) !in k.threads || k.threads[Id(pid, t)].state.Free? then Some(t)
    else FreeContext(k, pid, t + 1)
  }

  /** `u` is the table entry of a thread that is not in use. */
  predicate FreeEntry(k: Kernel, pid: nat, u: nat) {
    u < k.limits.threads && Id(pid, u) in k.threads && k.threads[Id(pid, u)].state.Free?
  }

  lemma {:induction false} FreeContextFrom(k: Kernel, pid: nat, t: nat)
    requires Shape(k) && pid in k.processes && t <= k.limits.threads
    ensures var c := FreeContext(k, pid, t);
      && c.Some? && t <= c.value <= k.limits.threads
      && (FreeEntry(k, pid, c.value) <==> exists u :: t <= u && FreeEntry(k, pid, u))
      && (!FreeEntry(k, pid, c.value) ==> c.value == k.limits.threads)
    decreases k.limits.threads - t
  {
    if t < k.limits.threads && !FreeEntry(k, pid, t) {
      assert Id(pid, t) in k.threads;
      FreeContextFrom(k, pid, t + 1);
    }
  }

  /**
   A free context is always found, but the thread table has a place for it exactly if one of its
   entries other than the interrupt thread's is free; otherwise the context is the last one.
   */
  lemma NewThreadFits(k: Kernel)
    requires Base(k) && k.current.pid in k.processes
    ensures var c := FreeContext(k, k.current.pid, 1);
      && c.Some?
      && (Enabled(k, SysCall(StartThread(c.value))) <==> exists u :: 1 <= u && FreeEntry(k, k.current.pid, u))
      && (!Enabled(k, SysCall(StartThread(c.value))) ==>
          c.value == k.limits.threads && Id(k.current.pid, c.value) !in k.threads)
  {
    hide FreeContext;
    FreeContextFrom(k, k.current.pid, 1);
  }
}
