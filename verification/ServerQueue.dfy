/**
 A server's message queue as a value: a fixed array of slots, stamped with 8-bit generation
 numbers that wrap around (xous/kernel/src/server.rs).  The functions here say what each
 operation does to the queue; the in-place operations are in Server.dfy.
 */
module ServerQueue {
  import opened Common

  /** Generations are 8 bits wide. */
  const GENERATIONS: nat := 256

  datatype ScalarBody = ScalarBody(id: nat, arg1: nat, arg2: nat, arg3: nat, arg4: nat)
  datatype MemoryBody = MemoryBody(id: nat, addr: nat, size: nat, offset: nat, valid: nat)

  datatype Message =
    | Scalar(scalar: ScalarBody)
    | BlockingScalar(scalar: ScalarBody)
    | Move(memory: MemoryBody)
    | Borrow(memory: MemoryBody)
    | MutableBorrow(memory: MemoryBody)
  {
    predicate IsBlocking() {
      BlockingScalar? || Borrow? || MutableBorrow?
    }

    function MessageId(): nat {
      if Scalar? || BlockingScalar? then scalar.id else memory.id
    }
  }

  datatype QueuedMessage =
    | Empty
    | BlockingScalarMessage(pid: nat, tid: nat, idx: nat, scalar: ScalarBody)
    | ScalarMessage(pid: nat, idx: nat, scalar: ScalarBody)
    | MemoryMessageSend(pid: nat, idx: nat, memory: MemoryBody)
    | MemoryMessageROLend(pid: nat, tid: nat, idx: nat, clientAddr: nat, memory: MemoryBody)
    | MemoryMessageRWLend(pid: nat, tid: nat, idx: nat, clientAddr: nat, memory: MemoryBody)
    | MemoryMessageROLendTerminated(idx: nat, memory: MemoryBody)
    | MemoryMessageRWLendTerminated(idx: nat, memory: MemoryBody)
    | BlockingScalarTerminated(idx: nat, scalar: ScalarBody)
    | WaitingReturnMemory(pid: nat, tid: nat, serverAddr: nat, clientAddr: nat, bufSize: nat)
    | WaitingForget(serverAddr: nat, bufSize: nat)
    | WaitingReturnScalar(pid: nat, tid: nat)
    | WaitingReturnScalarTerminated
  {
    /** The slot holds a message the server has not received yet. */
    predicate IsPending() {
      BlockingScalarMessage? || ScalarMessage? || MemoryMessageSend? || MemoryMessageROLend? ||
      MemoryMessageRWLend? || MemoryMessageROLendTerminated? || MemoryMessageRWLendTerminated? ||
      BlockingScalarTerminated?
    }

    /** The slot holds a received message that the server still has to answer. */
    predicate IsWaiting() {
      WaitingReturnMemory? || WaitingForget? || WaitingReturnScalar? || WaitingReturnScalarTerminated?
    }

    /** The thread that answering this slot would wake. */
    function Names(): Option<Id> {
      if BlockingScalarMessage? || MemoryMessageROLend? || MemoryMessageRWLend? ||
         WaitingReturnMemory? || WaitingReturnScalar?
      then Some(Id(pid, tid)) else None
    }

    /** What the server is given when it receives the message. */
    function Body(): Message
      requires IsPending()
    {
      match this
      case BlockingScalarMessage(_, _, _, s) => BlockingScalar(s)
      case BlockingScalarTerminated(_, s) => BlockingScalar(s)
      case ScalarMessage(_, _, s) => Scalar(s)
      case MemoryMessageSend(_, _, m) => Move(m)
      case MemoryMessageROLend(_, _, _, _, m) => Borrow(m)
      case MemoryMessageROLendTerminated(_, m) => Borrow(m)
      case MemoryMessageRWLend(_, _, _, _, m) => MutableBorrow(m)
      case MemoryMessageRWLendTerminated(_, m) => MutableBorrow(m)
    }

    /** The sender's process; 255 stands for one that has terminated. */
    function SenderPid(): nat
      requires IsPending()
    {
      if MemoryMessageROLendTerminated? || MemoryMessageRWLendTerminated? || BlockingScalarTerminated?
      then 255 else pid
    }

    /** What receiving the message leaves in its slot. */
    function Response(): QueuedMessage
      requires IsPending()
    {
      match this
      case BlockingScalarMessage(p, t, _, _) => WaitingReturnScalar(p, t)
      case BlockingScalarTerminated(_, _) => WaitingReturnScalarTerminated
      case ScalarMessage(_, _, _) => Empty
      case MemoryMessageSend(_, _, _) => Empty
      case MemoryMessageROLend(p, t, _, c, m) => WaitingReturnMemory(p, t, m.addr, c, m.size)
      case MemoryMessageRWLend(p, t, _, c, m) => WaitingReturnMemory(p, t, m.addr, c, m.size)
      case MemoryMessageROLendTerminated(_, m) => WaitingForget(m.addr, m.size)
      case MemoryMessageRWLendTerminated(_, m) => WaitingForget(m.addr, m.size)
    }

    /** The slot after process `p` has died. */
    function Discarded(p: nat): QueuedMessage {
      match this
      case MemoryMessageROLend(q, _, i, _, m) => if q == p then MemoryMessageROLendTerminated(i, m) else this
      case MemoryMessageRWLend(q, _, i, _, m) => if q == p then MemoryMessageRWLendTerminated(i, m) else this
      case BlockingScalarMessage(q, _, i, s) => if q == p then BlockingScalarTerminated(i, s) else this
      case WaitingReturnMemory(q, _, a, _, n) => if q == p then WaitingForget(a, n) else this
      case WaitingReturnScalar(q, _) => if q == p then WaitingReturnScalarTerminated else this
      case _ => this
    }
  }

  /** What answering a message gives back. */
  datatype WaitingMessage =
    | NotWaiting
    | BorrowedMemory(pid: nat, tid: nat, clientAddr: nat)
    | ScalarReply(pid: nat, tid: nat)
    | ScalarTerminated
    | ForgetMemory(addr: nat, size: nat)

  datatype Envelope = Envelope(senderPid: nat, slot: nat, body: Message)

  /** `sent` and `received` are histories, the bodies accepted and handed out so far; no operation reads them. */
  datatype ServerState = ServerState(
    sid: nat,
    pid: nat,
    queue: seq<QueuedMessage>,
    queueHead: nat,
    queueTail: nat,
    headGeneration: nat,
    tailGeneration: nat,
    emptyCount: int,
    readyThreads: set<nat>,
    sent: seq<Message>,
    received: seq<Message>)

  function Wrap(g: nat): nat {
    if g >= GENERATIONS then g - GENERATIONS else g
  }

  /** The slot index after `i`, going round. */
  function After(i: nat, n: nat): nat {
    if i + 1 >= n then 0 else i + 1
  }

  /** Number of messages queued but not received, as the generations tell it. */
  function PendingCount(s: ServerState): nat {
    if s.tailGeneration >= s.headGeneration then s.tailGeneration - s.headGeneration
    else if s.tailGeneration + GENERATIONS >= s.headGeneration
    then s.tailGeneration + GENERATIONS - s.headGeneration
    else 0
  }

  predicate Holds(m: QueuedMessage, g: nat) {
    m.IsPending() && m.idx == g
  }

  /** First slot holding the pending message of generation `g`, `|q|` if there is none. */
  function SlotOf(q: seq<QueuedMessage>, g: nat): (i: nat)
    ensures i <= |q|
    ensures i < |q| ==> Holds(q[i], g)
    ensures forall j | 0 <= j < i :: !Holds(q[j], g)
  {
    if q == [] || Holds(q[0], g) then 0 else 1 + SlotOf(q[1..], g)
  }

  /** First empty slot at or after `from`, `|q|` if there is none. */
  function FirstEmpty(q: seq<QueuedMessage>, from: nat): (i: nat)
    ensures i <= |q|
    ensures i < |q| ==> from <= i && q[i].Empty?
    ensures forall j | from <= j < i :: !q[j].Empty?
    decreases |q| - from
  {
    if from >= |q| then |q| else if q[from].Empty? then from else FirstEmpty(q, from + 1)
  }

  function CountEmpty(q: seq<QueuedMessage>): (n: nat)
    ensures n <= |q|
  {
    if q == [] then 0 else (if q[0].Empty? then 1 else 0) + CountEmpty(q[1..])
  }

  /** `g` is one of the generations from `head` up to, but not including, `tail`. */
  predicate InWindow(head: nat, tail: nat, g: nat) {
    if head <= tail then head <= g < tail else head <= g < GENERATIONS || g < tail
  }

  /** Every pending slot is the only one of its generation, and the window is full. */
  ghost predicate OrderOk(q: seq<QueuedMessage>, head: nat, tail: nat) {
    && (forall i | 0 <= i < |q| && q[i].IsPending() :: InWindow(head, tail, q[i].idx) && SlotOf(q, q[i].idx) == i)
    && (forall g | InWindow(head, tail, g) :: SlotOf(q, g) < |q|)
  }

  /** The slots, the counter and the generations agree. */
  ghost predicate SlotsOk(s: ServerState) {
    && s.queueHead < |s.queue| && s.queueTail < |s.queue|
    && s.headGeneration < GENERATIONS && s.tailGeneration < GENERATIONS
    && s.emptyCount == CountEmpty(s.queue)
    && OrderOk(s.queue, s.headGeneration, s.tailGeneration)
  }

  /** First in, first out: what was received, then what is still pending, is what was sent. */
  ghost predicate LogOk(s: ServerState) {
    AllPending(Pending(s)) && s.received + Bodies(Pending(s)) == s.sent
  }

  /** The queue invariant that every operation keeps. */
  ghost predicate QueueOk(s: ServerState) {
    SlotsOk(s) && LogOk(s)
  }

  ghost predicate AllPending(p: seq<QueuedMessage>) {
    forall i | 0 <= i < |p| :: p[i].IsPending()
  }

  function Bodies(p: seq<QueuedMessage>): seq<Message>
    requires AllPending(p)
  {
    seq(|p|, i requires 0 <= i < |p| => p[i].Body())
  }

  /** The pending message of generation `g`. */
  function At(q: seq<QueuedMessage>, g: nat): QueuedMessage {
    var i := SlotOf(q, g);
    if i < |q| then q[i] else Empty
  }

  /** The messages the server will receive, in the order in which it will receive them. */
  function Pending(s: ServerState): seq<QueuedMessage> {
    PendingFrom(s.queue, s.headGeneration, PendingCount(s))
  }

  function PendingFrom(q: seq<QueuedMessage>, g: nat, n: nat): (p: seq<QueuedMessage>)
    ensures |p| == n
    decreases n
  {
    if n == 0 then [] else [At(q, g)] + PendingFrom(q, Wrap(g + 1), n - 1)
  }

  /** A new queue of `n` slots, all zero and therefore all empty. */
  function NewQueue(sid: nat, pid: nat, n: nat): ServerState {
    ServerState(sid, pid, seq(n, _ => Empty), 0, 0, 0, 0, n, {}, [], [])
  }

  // ---- What the operations do ----------------------------------------------------------------

  /** The first empty slot at or after the head hint, going round. */
  function FindEmptySlot(s: ServerState): Option<nat> {
    var i := FirstEmpty(s.queue, s.queueHead);
    if i < |s.queue| then Some(i)
    else
      var j := FirstEmpty(s.queue, 0);
      if j < |s.queue| then Some(j) else None
  }

  /** The slot content for a message to be queued, or the error that its addresses raise. */
  function QueuedSlot(pid: nat, tid: nat, idx: nat, message: Message, clientAddr: Option<nat>): Result<QueuedMessage> {
    match message
    case Scalar(s) => Ok(ScalarMessage(pid, idx, s))
    case BlockingScalar(s) => Ok(BlockingScalarMessage(pid, tid, idx, s))
    case Move(m) =>
      if m.addr == 0 then Err(BadAddress)
      else if m.size == 0 then Err(InvalidArguments)
      else Ok(MemoryMessageSend(pid, idx, m))
    case Borrow(m) =>
      if clientAddr.None? then Err(InvalidArguments)
      else if m.addr == 0 then Err(BadAddress)
      else if m.size == 0 then Err(InvalidArguments)
      else Ok(MemoryMessageROLend(pid, tid, idx, clientAddr.value, m))
    case MutableBorrow(m) =>
      if clientAddr.None? then Err(InvalidArguments)
      else if m.addr == 0 then Err(BadAddress)
      else if m.size == 0 then Err(InvalidArguments)
      else Ok(MemoryMessageRWLend(pid, tid, idx, clientAddr.value, m))
  }

  /** The slot content for a message handed directly to a waiting server thread. */
  function ResponseSlot(pid: nat, tid: nat, message: Message, clientAddr: Option<nat>): Result<QueuedMessage> {
    match message
    case Scalar(_) => Ok(WaitingReturnScalar(pid, tid))
    case BlockingScalar(_) => Ok(WaitingReturnScalar(pid, tid))
    case Move(m) =>
      if m.addr == 0 then Err(BadAddress)
      else if m.size == 0 then Err(InvalidArguments)
      else Ok(WaitingForget(m.addr, m.size))
    case _ =>
      if clientAddr.None? then Err(InvalidArguments)
      else if message.memory.addr == 0 then Err(BadAddress)
      else if message.memory.size == 0 then Err(InvalidArguments)
      else Ok(WaitingReturnMemory(pid, tid, message.memory.addr, clientAddr.value, message.memory.size))
  }

  /** Filling an empty slot: the head hint moves even when the slot content is in error. */
  function Fill(s: ServerState, slot: Result<QueuedMessage>): (Result<nat>, ServerState) {
    match FindEmptySlot(s)
    case None => (Err(ServerQueueFull), s)
    case Some(i) =>
      var s1 := s.(queueHead := After(i, |s.queue|));
      match slot
      case Err(e) => (Err(e), s1)
      case Ok(m) => (Ok(i), s1.(queue := s.queue[i := m], emptyCount := s.emptyCount - 1))
  }

  function QueueMessage(s: ServerState, pid: nat, tid: nat, message: Message, clientAddr: Option<nat>)
    : (Result<nat>, ServerState)
  {
    var (r, s1) := Fill(s, QueuedSlot(pid, tid, s.tailGeneration, message, clientAddr));
    (r, if r.Ok? then s1.(tailGeneration := Wrap(s.tailGeneration + 1), sent := s.sent + [message]) else s1)
  }

  function QueueResponse(s: ServerState, pid: nat, tid: nat, message: Message, clientAddr: Option<nat>)
    : (Result<nat>, ServerState)
  {
    Fill(s, ResponseSlot(pid, tid, message, clientAddr))
  }

  function TakeNext(s: ServerState): (Option<Envelope>, ServerState) {
    if s.tailGeneration == s.headGeneration then (None, s)
    else
      var i := SlotOf(s.queue, s.headGeneration);
      if i == |s.queue| then (None, s)
      else
        var m := s.queue[i];
        (Some(Envelope(m.SenderPid(), i, m.Body())),
         s.(queue := s.queue[i := m.Response()],
            queueTail := After(i, |s.queue|),
            emptyCount := s.emptyCount + (if m.Response().Empty? then 1 else 0),
            headGeneration := Wrap(s.headGeneration + 1),
            received := s.received + [m.Body()]))
  }

  /** What answering a slot gives back, given the buffer the answer names. */
  function Answer(m: QueuedMessage, buf: Option<(nat, nat)>): Result<WaitingMessage> {
    match m
    case WaitingReturnMemory(p, t, a, c, n) =>
      if buf.Some? && buf.value != (a, n) then Err(BadAddress) else Ok(BorrowedMemory(p, t, c))
    case WaitingForget(a, n) =>
      if buf.Some? && buf.value != (a, n) then Err(BadAddress) else Ok(ForgetMemory(a, n))
    case WaitingReturnScalar(p, t) => Ok(ScalarReply(p, t))
    case WaitingReturnScalarTerminated => Ok(ScalarTerminated)
    case _ => Ok(NotWaiting)
  }

  function TakeWaiting(s: ServerState, i: nat, buf: Option<(nat, nat)>): (Result<WaitingMessage>, ServerState) {
    if i >= |s.queue| then (Err(BadAddress), s)
    else
      var r := Answer(s.queue[i], buf);
      if r.Err? || r.value.NotWaiting? then (r, s)
      else (r, s.(queue := s.queue[i := Empty],
                  emptyCount := s.emptyCount + 1,
                  queueTail := After(i, |s.queue|)))
  }

  function DiscardedAll(p: seq<QueuedMessage>, pid: nat): seq<QueuedMessage> {
    seq(|p|, i requires 0 <= i < |p| => p[i].Discarded(pid))
  }

  function Discard(s: ServerState, pid: nat): ServerState {
    s.(queue := DiscardedAll(s.queue, pid))
  }

  // ---- Threads parked on the server -------------------------------------------------------------

  /** Width of the word that records the parked threads; the model keeps it as the set of its bits. */
  const MASK_BITS: nat := 64

  function LeastFrom(mask: set<nat>, i: nat): (t: nat)
    requires i <= MASK_BITS
    ensures i <= t <= MASK_BITS
    ensures t < MASK_BITS ==> t in mask
    ensures forall u | i <= u < t :: u !in mask
    decreases MASK_BITS - i
  {
    if i == MASK_BITS || i in mask then i else LeastFrom(mask, i + 1)
  }

  /** The lowest-numbered parked thread. */
  function AvailableThread(s: ServerState): Option<nat> {
    var t := LeastFrom(s.readyThreads, 0);
    if t < MASK_BITS then Some(t) else None
  }
}
