/** One request in its slot, from the moment it is queued until it is answered (xous/kernel/src/server.rs). */
module Requests {
  import opened Common
  import opened ServerQueue
  import opened Fifo

  /** What a blocking sender waits for: a scalar, or the return of `size` bytes that the server sees at `addr`. */
  datatype Debt = ScalarDebt | MemoryDebt(addr: nat, size: nat, client: nat)

  /** Slot `q` owes `d` to the thread `x`, whether the server has received the message or not. */
  predicate Owes(q: QueuedMessage, x: Id, d: Debt) {
    match d
    case ScalarDebt =>
      (q.BlockingScalarMessage? && Id(q.pid, q.tid) == x) || q == WaitingReturnScalar(x.pid, x.tid)
    case MemoryDebt(a, n, c) =>
      || ((q.MemoryMessageROLend? || q.MemoryMessageRWLend?) && Id(q.pid, q.tid) == x && q.clientAddr == c &&
          q.memory.addr == a && q.memory.size == n)
      || q == WaitingReturnMemory(x.pid, x.tid, a, c, n)
  }

  /** The same after the sender's process has died: only the server's side of `d` is left. */
  predicate Forgotten(q: QueuedMessage, d: Debt) {
    match d
    case ScalarDebt => q.BlockingScalarTerminated? || q.WaitingReturnScalarTerminated?
    case MemoryDebt(a, n, _) =>
      || ((q.MemoryMessageROLendTerminated? || q.MemoryMessageRWLendTerminated?) &&
          q.memory.addr == a && q.memory.size == n)
      || q == WaitingForget(a, n)
  }

  /** What the sender of blocking message `m` waits for. */
  function DebtOf(m: Message, client: Option<nat>): Debt
    requires m.IsBlocking() && (m.BlockingScalar? || client.Some?)
  {
    if m.BlockingScalar? then ScalarDebt else MemoryDebt(m.memory.addr, m.memory.size, client.value)
  }

  // ---- Accepting a message ----------------------------------------------------------------------

  predicate HasEmpty(s: ServerState) {
    exists i | 0 <= i < |s.queue| :: s.queue[i].Empty?
  }

  /** Why a message cannot be put into a slot, though there is one. */
  function Defect(m: Message, client: Option<nat>): Option<Error> {
    if m.Scalar? || m.BlockingScalar? then None
    else if !m.Move? && client.None? then Some(InvalidArguments)
    else if m.memory.addr == 0 then Some(BadAddress)
    else if m.memory.size == 0 then Some(InvalidArguments)
    else None
  }

  /** Whether a message is accepted, and what it is refused with. */
  predicate AcceptedOr(r: Result<nat>, s: ServerState, m: Message, client: Option<nat>) {
    match r
    case Ok(_) => HasEmpty(s) && Defect(m, client).None?
    case Err(e) => if HasEmpty(s) then Defect(m, client) == Some(e) else e == ServerQueueFull
  }

  lemma EmptyFound(s: ServerState)
    ensures FindEmptySlot(s).Some? <==> HasEmpty(s)
    ensures FindEmptySlot(s).Some? ==> FindEmptySlot(s).value < |s.queue| && s.queue[FindEmptySlot(s).value].Empty?
  {
  }

  /** An empty slot, and no other, holds something new. */
  predicate Filled(s: ServerState, s': ServerState, i: nat) {
    i < |s.queue| && s.queue[i].Empty? && |s'.queue| == |s.queue| && s'.queue == s.queue[i := s'.queue[i]]
  }

  /** A queued message owes its sender what it waits for, and carries its body and the next generation. */
  lemma QueuedOwes(s: ServerState, pid: nat, tid: nat, m: Message, client: Option<nat>)
    ensures var (r, s') := QueueMessage(s, pid, tid, m, client);
      && AcceptedOr(r, s, m, client)
      && (r.Err? || (
          && Filled(s, s', r.value)
          && var q := s'.queue[r.value];
          && q.IsPending() && q.Body() == m && q.SenderPid() == pid && q.idx == s.tailGeneration
          && (m.IsBlocking() ==> Owes(q, Id(pid, tid), DebtOf(m, client)))
          && (!m.IsBlocking() ==> q.Names().None?)))
  {
    EmptyFound(s);
  }

  /** So does a message that is handed to a waiting server thread; a slot is taken for those that do not block, too. */
  lemma HandedOwes(s: ServerState, pid: nat, tid: nat, m: Message, client: Option<nat>)
    ensures var (r, s') := QueueResponse(s, pid, tid, m, client);
      && AcceptedOr(r, s, m, client)
      && (r.Err? || (
          && Filled(s, s', r.value)
          && var q := s'.queue[r.value];
          && q.IsWaiting()
          && (m.IsBlocking() ==> Owes(q, Id(pid, tid), DebtOf(m, client)))
          && (m.Scalar? ==> Owes(q, Id(pid, tid), ScalarDebt))
          && (m.Move? ==> Forgotten(q, MemoryDebt(m.memory.addr, m.memory.size, 0)))))
  {
    EmptyFound(s);
  }

  // ---- In between -------------------------------------------------------------------------------

  predicate Answers(op: Op, i: nat) {
    op.Reply? && op.slot == i
  }

  ghost predicate Unanswered(ops: seq<Op>, i: nat) {
    forall j | 0 <= j < |ops| :: !Answers(ops[j], i)
  }

  /** What `op` does to a slot in use that it does not answer. */
  lemma SlotStep(s: ServerState, op: Op, i: nat)
    requires QueueOk(s) && |s.queue| < GENERATIONS && i < |s.queue| && !s.queue[i].Empty? && !Answers(op, i)
    ensures var q, q' := s.queue[i], Operate(s, op).queue[i];
      if op.ClientDied? then q' == q.Discarded(op.pid)
      else q' == q || (q.IsPending() && q' == q.Response())
  {
    hide SlotsOk, LogOk, Pending, QueueMessage, QueueResponse, TakeNext, TakeWaiting;
    match op {
      case Queue(p, t, m, c) =>
        GenerationsSuffice(s);
        QueuedOwes(s, p, t, m, c);
        QueueMessageFifo(s, p, t, m, c);
      case Respond(p, t, m, c) =>
        HandedOwes(s, p, t, m, c);
        QueueResponseFifo(s, p, t, m, c);
      case Fetch => TakeNextFifo(s);
      case Reply(j, b) => TakeWaitingFifo(s, j, b);
      case ClientDied(p) =>
    }
  }

  ghost predicate Kept(q: QueuedMessage, x: Id, d: Debt, died: bool) {
    if died then Forgotten(q, d) else Owes(q, x, d)
  }

  lemma KeptStep(s: ServerState, op: Op, i: nat, x: Id, d: Debt, died: bool)
    requires QueueOk(s) && |s.queue| < GENERATIONS && i < |s.queue|
    requires Kept(s.queue[i], x, d, died) && !Answers(op, i)
    ensures Kept(Operate(s, op).queue[i], x, d, died || op == ClientDied(x.pid))
  {
    hide QueueOk, Operate;
    SlotStep(s, op, i);
  }

  /**
   A request stays owed until it is answered, in whatever order others are; its sender's death
   leaves the server's side.
   */
  lemma {:induction false} DebtStays(s: ServerState, ops: seq<Op>, i: nat, x: Id, d: Debt, died: bool)
    requires QueueOk(s) && |s.queue| < GENERATIONS && i < |s.queue|
    requires Kept(s.queue[i], x, d, died) && Unanswered(ops, i)
    ensures Kept(Final(s, ops).queue[i], x, d, died || ClientDied(x.pid) in ops)
    decreases |ops|
  {
    if ops == [] {
    } else {
      hide Kept, Operate, QueueOk;
      KeptStep(s, ops[0], i, x, d, died);
      var died' := died || ops[0] == ClientDied(x.pid);
      assert Unanswered(ops[1..], i) by {
        assert forall j | 0 <= j < |ops[1..]| :: ops[1..][j] == ops[j + 1];
      }
      assert ClientDied(x.pid) in ops <==> ops[0] == ClientDied(x.pid) || ClientDied(x.pid) in ops[1..] by {
        assert ops == [ops[0]] + ops[1..];
      }
      DebtStays(Operate(s, ops[0]), ops[1..], i, x, d, died');
    }
  }

  /** Messages that the server receives before the one in slot `i`. */
  function Ahead(s: ServerState, i: nat): nat
    requires i < |s.queue| && s.queue[i].IsPending()
  {
    var g := s.queue[i].idx;
    if g >= s.headGeneration then g - s.headGeneration
    else if g + GENERATIONS >= s.headGeneration then g + GENERATIONS - s.headGeneration
    else 0
  }

  /** The server receives the message exactly if none is ahead of it. */
  lemma FetchAhead(s: ServerState, i: nat)
    requires QueueOk(s) && i < |s.queue| && s.queue[i].IsPending()
    ensures var (r, s') := TakeNext(s);
      && r.Some? && |s'.queue| == |s.queue|
      && (Ahead(s, i) == 0 ==> r.value.slot == i && !s'.queue[i].IsPending())
      && (Ahead(s, i) > 0 ==> s'.queue[i] == s.queue[i] && Ahead(s', i) == Ahead(s, i) - 1)
  {
    assert InWindow(s.headGeneration, s.tailGeneration, s.queue[i].idx) && SlotOf(s.queue, s.queue[i].idx) == i;
    assert InWindow(s.headGeneration, s.tailGeneration, s.headGeneration);
  }

  lemma OthersAhead(s: ServerState, op: Op, i: nat)
    requires QueueOk(s) && |s.queue| < GENERATIONS && i < |s.queue| && s.queue[i].IsPending()
    requires !op.Fetch? && !Answers(op, i)
    ensures var s' := Operate(s, op); s'.queue[i].IsPending() && Ahead(s', i) == Ahead(s, i)
  {
    hide QueueOk, Pending;
    match op {
      case Queue(p, t, m, c) => QueuedOwes(s, p, t, m, c);
      case Respond(p, t, m, c) => HandedOwes(s, p, t, m, c);
      case Reply(j, b) =>
      case ClientDied(p) => DiscardSlot(s.queue[i], p);
    }
  }

  function Fetches(ops: seq<Op>): nat {
    if ops == [] then 0 else (if ops[0].Fetch? then 1 else 0) + Fetches(ops[1..])
  }

  lemma {:induction false} ReceivedStays(s: ServerState, ops: seq<Op>, i: nat)
    requires QueueOk(s) && |s.queue| < GENERATIONS && i < |s.queue|
    requires s.queue[i].IsWaiting() && Unanswered(ops, i)
    ensures Final(s, ops).queue[i].IsWaiting()
    decreases |ops|
  {
    if ops == [] {
    } else {
      SlotStep(s, ops[0], i);
      assert forall j | 0 <= j < |ops[1..]| :: ops[1..][j] == ops[j + 1];
      ReceivedStays(Operate(s, ops[0]), ops[1..], i);
    }
  }

  /** A blocking message has been received exactly if more messages were fetched than were ahead of it. */
  lemma {:induction false} ReceivedInTurn(s: ServerState, ops: seq<Op>, i: nat)
    requires QueueOk(s) && |s.queue| < GENERATIONS && i < |s.queue| && Unanswered(ops, i)
    requires s.queue[i].IsPending() && s.queue[i].Body().IsBlocking()
    ensures var q := Final(s, ops).queue[i];
      if Fetches(ops) <= Ahead(s, i) then q.IsPending() else q.IsWaiting()
    decreases |ops|
  {
    if ops == [] {
    } else {
      var s' := Operate(s, ops[0]);
      assert forall j | 0 <= j < |ops[1..]| :: ops[1..][j] == ops[j + 1];
      SlotStep(s, ops[0], i);
      if ops[0].Fetch? {
        FetchAhead(s, i);
      } else {
        OthersAhead(s, ops[0], i);
        if ops[0].ClientDied? { DiscardSlot(s.queue[i], ops[0].pid); }
      }
      if s'.queue[i].IsPending() {
        ReceivedInTurn(s', ops[1..], i);
      } else {
        ReceivedStays(s', ops[1..], i);
      }
    }
  }

  // ---- The answer -------------------------------------------------------------------------------

  /** What answering gives back: whom to wake and where the memory goes, or what the server may forget. */
  function Settlement(x: Id, d: Debt, died: bool, buf: Option<(nat, nat)>): Result<WaitingMessage> {
    match d
    case ScalarDebt => Ok(if died then ScalarTerminated else ScalarReply(x.pid, x.tid))
    case MemoryDebt(a, n, c) =>
      if buf.Some? && buf.value != (a, n) then Err(BadAddress)
      else Ok(if died then ForgetMemory(a, n) else BorrowedMemory(x.pid, x.tid, c))
  }

  lemma AnswerSettles(s: ServerState, i: nat, x: Id, d: Debt, died: bool, buf: Option<(nat, nat)>)
    requires i < |s.queue| && Kept(s.queue[i], x, d, died)
    ensures TakeWaiting(s, i, buf).0 == if s.queue[i].IsPending() then Ok(NotWaiting) else Settlement(x, d, died, buf)
  {
  }

  /**
   The life of a request.  A blocking message that a queue accepts is received in its turn.  Answering it before
   then has no effect; answering it after that, however much has happened to the queue meanwhile, wakes its own
   sender and gives back the address its sender lent it from, provided the buffer is the one that the server was given.
   */
  lemma RequestIsAnswered(
    s: ServerState, pid: nat, tid: nat, m: Message, client: Option<nat>, ops: seq<Op>, buf: Option<(nat, nat)>)
    requires QueueOk(s) && |s.queue| < GENERATIONS && m.IsBlocking()
    requires var r := QueueMessage(s, pid, tid, m, client).0; r.Ok? && Unanswered(ops, r.value)
    ensures HasEmpty(s) && Defect(m, client).None?
    ensures var s1, i := Operate(s, Queue(pid, tid, m, client)), QueueMessage(s, pid, tid, m, client).0.value;
      && i < |s.queue|
      && TakeWaiting(Final(s1, ops), i, buf).0 ==
         if Fetches(ops) <= |Pending(s)| then Ok(NotWaiting)
         else Settlement(Id(pid, tid), DebtOf(m, client), ClientDied(pid) in ops, buf)
  {
    hide SlotsOk, LogOk, QueueMessage, TakeWaiting, Answer, Settlement;
    var s1, i := Operate(s, Queue(pid, tid, m, client)), QueueMessage(s, pid, tid, m, client).0.value;
    QueuedOwes(s, pid, tid, m, client);
    QueuedIsLast(s, pid, tid, m, client);
    var x, d := Id(pid, tid), DebtOf(m, client);
    DebtStays(s1, ops, i, x, d, false);
    ReceivedInTurn(s1, ops, i);
    AnswerSettles(Final(s1, ops), i, x, d, ClientDied(pid) in ops, buf);
  }

  /** All messages that were pending are ahead of a new one. */
  lemma QueuedIsLast(s: ServerState, pid: nat, tid: nat, m: Message, client: Option<nat>)
    requires QueueOk(s)
    requires QueueMessage(s, pid, tid, m, client).0.Ok?
    ensures var (r, s') := QueueMessage(s, pid, tid, m, client);
      r.value < |s'.queue| && s'.queue[r.value].IsPending() && Ahead(s', r.value) == |Pending(s)|
  {
    EmptyFound(s);
  }
}
