/**
 The server queue updated in place (xous/kernel/src/server.rs).  `State()` is the value that
 the functions of ServerQueue speak about.
 */
module Servers {
  import opened Common
  import opened ServerQueue
  import opened Fifo

  class Server {
    const sid: nat
    const pid: nat
    const queue: array<QueuedMessage>
    var queueHead: nat
    var queueTail: nat
    var headGeneration: nat
    var tailGeneration: nat
    var emptyCount: int
    var readyThreads: set<nat>
    ghost var sent: seq<Message>
    ghost var received: seq<Message>

    ghost function State(): ServerState
      reads this, queue
    {
      ServerState(sid, pid, queue[..], queueHead, queueTail, headGeneration, tailGeneration, emptyCount, readyThreads,
                  sent, received)
    }

    ghost predicate Valid()
      reads this, queue
    {
      QueueOk(State()) && forall t | t in readyThreads :: t < MASK_BITS
    }

    /** `backing` is the mapped page that holds the slots, all zero and therefore all empty. */
    constructor (pid: nat, sid: nat, backing: array<QueuedMessage>)
      requires 0 < backing.Length
      requires forall i | 0 <= i < backing.Length :: backing[i] == Empty
      ensures Valid() && queue == backing && this.pid == pid && this.sid == sid
      ensures State() == NewQueue(sid, pid, queue.Length)
    {
      this.pid, this.sid, queue := pid, sid, backing;
      queueHead, queueTail, headGeneration, tailGeneration := 0, 0, 0, 0;
      emptyCount, readyThreads, sent, received := backing.Length, {}, [], [];
      NewQueueOk(sid, pid, backing.Length);
      assert backing[..] == NewQueue(sid, pid, backing.Length).queue;
    }

    method IsQueueFull() returns (full: bool)
      requires Valid()
      ensures full <==> forall i | 0 <= i < queue.Length :: !queue[i].Empty?
    {
      CountEmptyZero(queue[..]);
      full := emptyCount == 0;
    }

    method FindEmptySlot() returns (r: Result<nat>)
      requires Valid()
      modifies this`queueHead
      ensures match ServerQueue.FindEmptySlot(old(State()))
        case None => r == Err(ServerQueueFull) && State() == old(State())
        case Some(i) => r == Ok(i) && State() == old(State()).(queueHead := After(i, queue.Length))
    {
      var s := State();
      for i := queueHead to queue.Length
        invariant FirstEmpty(s.queue, queueHead) >= i
      {
        if queue[i].Empty? {
          queueHead := After(i, queue.Length);
          return Ok(i);
        }
      }
      for i := 0 to queueHead
        invariant FirstEmpty(s.queue, queueHead) == queue.Length
        invariant FirstEmpty(s.queue, 0) >= i
      {
        if queue[i].Empty? {
          queueHead := After(i, queue.Length);
          return Ok(i);
        }
      }
      return Err(ServerQueueFull);
    }

    /** Needs a generation to give; a queue of at most 255 slots always has one. */
    method QueueMessage(pid: nat, tid: nat, message: Message, originalAddress: Option<nat>) returns (r: Result<nat>)
      requires Valid() && (emptyCount > 0 ==> PendingCount(State()) < GENERATIONS - 1)
      modifies this, queue
      ensures Valid()
      ensures (r, State()) == ServerQueue.QueueMessage(old(State()), pid, tid, message, originalAddress)
    {
      hide QueueOk, Pending;
      ghost var s := State();
      QueueMessageFifo(s, pid, tid, message, originalAddress);
      EmptySlotFound(s);
      r := FindEmptySlot();
      if r.Err? { return; }
      var i := r.value;
      var slot := QueuedSlot(pid, tid, tailGeneration, message, originalAddress);
      if slot.Err? { return Err(slot.error); }
      queue[i] := slot.value;
      emptyCount := emptyCount - 1;
      tailGeneration := Wrap(tailGeneration + 1);
      sent := sent + [message];
      assert queue[..] == s.queue[i := slot.value];
      assert tailGeneration != headGeneration;
    }

    method QueueResponse(pid: nat, tid: nat, message: Message, clientAddress: Option<nat>) returns (r: Result<nat>)
      requires Valid()
      modifies this, queue
      ensures Valid()
      ensures (r, State()) == ServerQueue.QueueResponse(old(State()), pid, tid, message, clientAddress)
    {
      QueueResponseFifo(State(), pid, tid, message, clientAddress);
      EmptySlotFound(State());
      r := FindEmptySlot();
      if r.Err? { return; }
      var i := r.value;
      var slot := ResponseSlot(pid, tid, message, clientAddress);
      if slot.Err? { return Err(slot.error); }
      queue[i] := slot.value;
      emptyCount := emptyCount - 1;
    }

    /** Looks for the message of the head generation from the tail hint on, going round. */
    method FindHeadMessage() returns (i: nat)
      requires QueueOk(State()) && headGeneration != tailGeneration
      ensures i < queue.Length && queue[i].IsPending() && i == SlotOf(queue[..], headGeneration)
    {
      TakeOrder(queue[..], headGeneration, tailGeneration, Empty);
      ghost var target := SlotOf(queue[..], headGeneration);
      i := queueTail;
      while !(queue[i].IsPending() && queue[i].idx == headGeneration)
        invariant 0 <= i < queue.Length
        invariant i <= target || target < queueTail <= i
        decreases if i <= target then target - i else queue.Length - i + target
      {
        i := After(i, queue.Length);
        assert i != queueTail;  // the search does not come round to where it started
      }
    }

    /** The message in slot `i` leaves its response there. */
    method ReceiveAt(i: nat) returns (e: Envelope)
      requires i < queue.Length && queue[i].IsPending()
      modifies this, queue
      ensures var s, m := old(State()), old(queue[i]);
        && e == Envelope(m.SenderPid(), i, m.Body())
        && State() == s.(queue := s.queue[i := m.Response()], queueTail := After(i, |s.queue|),
                         headGeneration := Wrap(s.headGeneration + 1), received := s.received + [m.Body()],
                         emptyCount := s.emptyCount + if m.Response().Empty? then 1 else 0)
    {
      var m := queue[i];
      queueTail := After(i, queue.Length);
      if m.Response().Empty? {
        emptyCount := emptyCount + 1;
      }
      queue[i] := m.Response();
      headGeneration := Wrap(headGeneration + 1);
      received := received + [m.Body()];
      e := Envelope(m.SenderPid(), i, m.Body());
    }

    /** Starts looking at the tail hint, wherever out-of-order answers have moved it. */
    method TakeNextMessage() returns (r: Option<Envelope>)
      requires Valid()
      modifies this, queue
      ensures Valid()
      ensures (r, State()) == TakeNext(old(State()))
    {
      hide QueueOk, Pending;
      if tailGeneration == headGeneration { return None; }
      TakeNextFifo(State());
      var i := FindHeadMessage();
      var e := ReceiveAt(i);
      r := Some(e);
    }

    method TakeWaitingMessage(messageIndex: nat, buf: Option<(nat, nat)>) returns (r: Result<WaitingMessage>)
      requires Valid()
      modifies this, queue
      ensures Valid()
      ensures (r, State()) == TakeWaiting(old(State()), messageIndex, buf)
    {
      TakeWaitingFifo(State(), messageIndex, buf);
      if messageIndex >= queue.Length { return Err(BadAddress); }
      r := Answer(queue[messageIndex], buf);
      if r.Err? || r.value.NotWaiting? { return; }
      queue[messageIndex] := Empty;
      emptyCount := emptyCount + 1;
      queueTail := After(messageIndex, queue.Length);
    }

    method DiscardMessagesForPid(pid: nat)
      requires Valid()
      modifies queue
      ensures Valid()
      ensures State() == Discard(old(State()), pid)
    {
      ghost var s := State();
      DiscardFifo(s, pid);
      for i := 0 to queue.Length
        invariant forall j | 0 <= j < i :: queue[j] == s.queue[j].Discarded(pid)
        invariant forall j | i <= j < queue.Length :: queue[j] == s.queue[j]
      {
        queue[i] := queue[i].Discarded(pid);
      }
      assert queue[..] == DiscardedAll(s.queue, pid);
    }

    method TakeAvailableThread() returns (r: Option<nat>)
      requires Valid()
      modifies this`readyThreads
      ensures Valid()
      ensures r == AvailableThread(old(State()))
      ensures r.None? <==> old(readyThreads) == {}
      ensures readyThreads == old(readyThreads) - (if r.Some? then {r.value} else {})
    {
      if readyThreads == {} { return None; }
      var t := 0;
      while t !in readyThreads
        invariant t <= LeastFrom(readyThreads, 0) < MASK_BITS
        decreases MASK_BITS - t
      {
        t := t + 1;
      }
      readyThreads := readyThreads - {t};
      r := Some(t);
    }

    method ParkThread(tid: nat)
      requires Valid() && tid < MASK_BITS && tid !in readyThreads
      modifies this`readyThreads
      ensures Valid()
      ensures State() == old(State()).(readyThreads := old(readyThreads) + {tid})
    {
      readyThreads := readyThreads + {tid};
    }
  }
}
