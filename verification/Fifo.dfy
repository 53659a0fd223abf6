/** Delivery order of a server queue, across generation wrap-around and out-of-order answers. */
module Fifo {
  import opened Common
  import opened ServerQueue

  /** `h` is one of the `n` generations starting at `g`. */
  predicate InRun(g: nat, n: nat, h: nat) {
    (g <= h < g + n && h < GENERATIONS) || h + GENERATIONS < g + n
  }

  lemma {:induction false} PendingFrame(q: seq<QueuedMessage>, q': seq<QueuedMessage>, g: nat, n: nat)
    requires g < GENERATIONS && n <= GENERATIONS
    requires forall h | InRun(g, n, h) :: At(q, h) == At(q', h)
    ensures PendingFrom(q, g, n) == PendingFrom(q', g, n)
    decreases n
  {
    if n == 0 {
    } else {
      assert InRun(g, n, g);
      forall h | InRun(Wrap(g + 1), n - 1, h)
        ensures At(q, h) == At(q', h)
      {
        assert InRun(g, n, h);
      }
      PendingFrame(q, q', Wrap(g + 1), n - 1);
    }
  }

  lemma {:induction false} PendingSnoc(q: seq<QueuedMessage>, g: nat, n: nat)
    requires g < GENERATIONS && n < GENERATIONS
    ensures PendingFrom(q, g, n + 1) == PendingFrom(q, g, n) + [At(q, Wrap(g + n))]
    decreases n
  {
    if n == 0 {
    } else {
      PendingSnoc(q, Wrap(g + 1), n - 1);
      assert Wrap(Wrap(g + 1) + (n - 1)) == Wrap(g + n);
    }
  }

  lemma {:induction false} CountEmptyUpdate(q: seq<QueuedMessage>, i: nat, m: QueuedMessage)
    requires i < |q|
    ensures CountEmpty(q[i := m]) ==
            CountEmpty(q) + (if m.Empty? then 1 else 0) - (if q[i].Empty? then 1 else 0)
  {
    if i == 0 {
      assert q[i := m][1..] == q[1..];
    } else {
      assert q[i := m][1..] == q[1..][i - 1 := m];
      CountEmptyUpdate(q[1..], i - 1, m);
    }
  }

  lemma {:induction false} CountEmptyZero(q: seq<QueuedMessage>)
    ensures CountEmpty(q) == 0 <==> forall i | 0 <= i < |q| :: !q[i].Empty?
  {
    if q == [] {
    } else {
      CountEmptyZero(q[1..]);
      assert forall i | 0 < i < |q| :: q[i] == q[1..][i - 1];
      assert forall i | 0 <= i < |q| - 1 :: q[1..][i] == q[i + 1];
    }
  }

  /** A slot whose old and new contents both have another generation does not change the lookup. */
  lemma AtUpdate(q: seq<QueuedMessage>, i: nat, m: QueuedMessage, g: nat)
    requires i < |q| && !Holds(q[i], g) && !Holds(m, g)
    ensures SlotOf(q[i := m], g) == SlotOf(q, g) && At(q[i := m], g) == At(q, g)
  {
    var q' := q[i := m];
    var a, b := SlotOf(q, g), SlotOf(q', g);
    if a < |q| { assert q'[a] == q[a]; }
    if b < |q| { assert q'[b] == q[b]; }
  }

  /** A queue has an empty slot exactly when its counter says so, and then one is found. */
  lemma EmptySlotFound(s: ServerState)
    requires QueueOk(s)
    ensures FindEmptySlot(s).Some? <==> s.emptyCount > 0
    ensures FindEmptySlot(s).Some? ==> FindEmptySlot(s).value < |s.queue| && s.queue[FindEmptySlot(s).value].Empty?
  {
    CountEmptyZero(s.queue);
  }

  /** Changing a slot that is not pending into another that is not keeps the order. */
  lemma QuietUpdate(s: ServerState, i: nat, m: QueuedMessage, s': ServerState)
    requires QueueOk(s) && i < |s.queue| && !s.queue[i].IsPending() && !m.IsPending()
    requires s' == s.(queue := s.queue[i := m], queueHead := s'.queueHead, queueTail := s'.queueTail,
                      emptyCount := s'.emptyCount)
    requires s'.queueHead < |s.queue| && s'.queueTail < |s.queue|
    requires s'.emptyCount == s.emptyCount + (if m.Empty? then 1 else 0) - (if s.queue[i].Empty? then 1 else 0)
    ensures QueueOk(s') && Pending(s') == Pending(s)
  {
    CountEmptyUpdate(s.queue, i, m);
    forall g
      ensures SlotOf(s'.queue, g) == SlotOf(s.queue, g) && At(s'.queue, g) == At(s.queue, g)
    {
      AtUpdate(s.queue, i, m, g);
    }
    PendingFrame(s.queue, s'.queue, s.headGeneration, PendingCount(s));
  }

  lemma AppendOrder(q: seq<QueuedMessage>, head: nat, tail: nat, i: nat, m: QueuedMessage)
    requires head < GENERATIONS && tail < GENERATIONS && OrderOk(q, head, tail)
    requires Wrap(tail + 1) != head
    requires i < |q| && q[i].Empty? && m.IsPending() && m.idx == tail
    ensures OrderOk(q[i := m], head, Wrap(tail + 1))
    ensures forall h | h != tail :: At(q[i := m], h) == At(q, h)
    ensures At(q[i := m], tail) == m
  {
    var q', tail' := q[i := m], Wrap(tail + 1);
    forall h | h != tail
      ensures SlotOf(q', h) == SlotOf(q, h) && At(q', h) == At(q, h)
    {
      AtUpdate(q, i, m, h);
    }
    var k := SlotOf(q', tail);
    assert k <= i by { assert Holds(q'[i], tail); }
    assert k == i by {
      assert !InWindow(head, tail, tail);
      assert forall j | 0 <= j < |q| && j != i :: q[j] == q'[j];
    }
    forall j | 0 <= j < |q'| && q'[j].IsPending()
      ensures InWindow(head, tail', q'[j].idx) && SlotOf(q', q'[j].idx) == j
    {
      if j != i { assert q'[j] == q[j]; }
    }
    forall g | InWindow(head, tail', g)
      ensures SlotOf(q', g) < |q'|
    {
      if g != tail { assert InWindow(head, tail, g); }
    }
  }

  lemma TakeOrder(q: seq<QueuedMessage>, head: nat, tail: nat, m: QueuedMessage)
    requires head < GENERATIONS && tail < GENERATIONS && OrderOk(q, head, tail) && head != tail
    requires !m.IsPending()
    ensures InWindow(head, tail, head) && SlotOf(q, head) < |q|
    ensures OrderOk(q[SlotOf(q, head) := m], Wrap(head + 1), tail)
    ensures forall h | h != head :: At(q[SlotOf(q, head) := m], h) == At(q, h)
  {
    assert InWindow(head, tail, head);
    var i := SlotOf(q, head);
    var q', head' := q[i := m], Wrap(head + 1);
    forall h | h != head
      ensures SlotOf(q', h) == SlotOf(q, h) && At(q', h) == At(q, h)
    {
      AtUpdate(q, i, m, h);
    }
    forall j | 0 <= j < |q'| && q'[j].IsPending()
      ensures InWindow(head', tail, q'[j].idx) && SlotOf(q', q'[j].idx) == j
    {
      assert j != i && q'[j] == q[j];
    }
    forall g | InWindow(head', tail, g)
      ensures SlotOf(q', g) < |q'|
    {
      assert InWindow(head, tail, g);
    }
  }

  lemma BodiesSnoc(p: seq<QueuedMessage>, m: QueuedMessage)
    requires AllPending(p) && m.IsPending()
    ensures AllPending(p + [m]) && Bodies(p + [m]) == Bodies(p) + [m.Body()]
  {
  }

  lemma BodiesCons(m: QueuedMessage, p: seq<QueuedMessage>)
    requires AllPending([m] + p)
    ensures m.IsPending() && AllPending(p) && Bodies([m] + p) == [m.Body()] + Bodies(p)
  {
    assert ([m] + p)[0] == m;
    assert forall i | 0 <= i < |p| :: p[i] == ([m] + p)[i + 1];
  }

  lemma AppendLog(s: ServerState, m: QueuedMessage, s': ServerState)
    requires LogOk(s) && m.IsPending() && Pending(s') == Pending(s) + [m]
    requires s'.sent == s.sent + [m.Body()] && s'.received == s.received
    ensures LogOk(s')
  {
    hide Pending, Bodies, AllPending;
    BodiesSnoc(Pending(s), m);
    assert s.received + (Bodies(Pending(s)) + [m.Body()]) == s.received + Bodies(Pending(s)) + [m.Body()];
  }

  lemma TakeLog(s: ServerState, m: QueuedMessage, s': ServerState)
    requires LogOk(s) && m.IsPending() && Pending(s) == [m] + Pending(s')
    requires s'.sent == s.sent && s'.received == s.received + [m.Body()]
    ensures LogOk(s')
  {
    hide Pending, Bodies, AllPending;
    BodiesCons(m, Pending(s'));
    assert s.received + ([m.Body()] + Bodies(Pending(s'))) == s.received + [m.Body()] + Bodies(Pending(s'));
  }

  lemma AppendPending(s: ServerState, i: nat, m: QueuedMessage, s': ServerState)
    requires OrderOk(s.queue, s.headGeneration, s.tailGeneration) && PendingCount(s) < GENERATIONS - 1
    requires s.headGeneration < GENERATIONS && s.tailGeneration < GENERATIONS
    requires i < |s.queue| && s.queue[i].Empty? && m.IsPending() && m.idx == s.tailGeneration
    requires s'.queue == s.queue[i := m] && s'.headGeneration == s.headGeneration &&
             s'.tailGeneration == Wrap(s.tailGeneration + 1)
    ensures OrderOk(s'.queue, s'.headGeneration, s'.tailGeneration) && PendingCount(s') == PendingCount(s) + 1
    ensures Pending(s') == Pending(s) + [m]
  {
    AppendOrder(s.queue, s.headGeneration, s.tailGeneration, i, m);
    hide OrderOk, SlotOf;
    PendingFrame(s.queue, s'.queue, s.headGeneration, PendingCount(s));
    PendingSnoc(s'.queue, s.headGeneration, PendingCount(s));
  }

  /** Writing the next generation into an empty slot appends it to the order. */
  lemma AppendSlot(s: ServerState, i: nat, m: QueuedMessage, s': ServerState)
    requires QueueOk(s) && PendingCount(s) < GENERATIONS - 1
    requires i < |s.queue| && s.queue[i].Empty? && m.IsPending() && m.idx == s.tailGeneration
    requires s' == s.(queue := s.queue[i := m], queueHead := s'.queueHead, emptyCount := s.emptyCount - 1,
                      tailGeneration := Wrap(s.tailGeneration + 1), sent := s.sent + [m.Body()])
    requires s'.queueHead < |s.queue|
    ensures QueueOk(s') && PendingCount(s') == PendingCount(s) + 1
    ensures Pending(s') == Pending(s) + [m]
  {
    hide OrderOk, LogOk, Pending, PendingCount;
    CountEmptyUpdate(s.queue, i, m);
    AppendPending(s, i, m, s');
    AppendLog(s, m, s');
  }

  /** Taking the message of the head generation removes the front of the order. */
  lemma TakeSlot(s: ServerState, i: nat, m: QueuedMessage, s': ServerState)
    requires QueueOk(s) && s.headGeneration != s.tailGeneration
    requires i == SlotOf(s.queue, s.headGeneration) && i < |s.queue| && !m.IsPending()
    requires s' == s.(queue := s.queue[i := m], queueTail := s'.queueTail,
                      emptyCount := s.emptyCount + (if m.Empty? then 1 else 0),
                      headGeneration := Wrap(s.headGeneration + 1), received := s.received + [s.queue[i].Body()])
    requires s'.queueTail < |s.queue|
    ensures QueueOk(s') && Pending(s) == [s.queue[i]] + Pending(s')
  {
    CountEmptyUpdate(s.queue, i, m);
    TakeOrder(s.queue, s.headGeneration, s.tailGeneration, m);
    hide OrderOk, LogOk, Pending;
    TakePending(s, i, m, s');
    TakeLog(s, s.queue[i], s');
  }

  lemma TakePending(s: ServerState, i: nat, m: QueuedMessage, s': ServerState)
    requires OrderOk(s.queue, s.headGeneration, s.tailGeneration) && s.headGeneration != s.tailGeneration
    requires s.headGeneration < GENERATIONS && s.tailGeneration < GENERATIONS
    requires i == SlotOf(s.queue, s.headGeneration) && i < |s.queue| && !m.IsPending()
    requires s'.queue == s.queue[i := m] && s'.headGeneration == Wrap(s.headGeneration + 1) &&
             s'.tailGeneration == s.tailGeneration
    ensures Pending(s) == [s.queue[i]] + Pending(s')
  {
    TakeOrder(s.queue, s.headGeneration, s.tailGeneration, m);
    hide OrderOk, SlotOf;
    PendingFrame(s.queue, s'.queue, s'.headGeneration, PendingCount(s'));
  }

  /** Receiving removes the front of the delivery order, and fails exactly when it is empty. */
  lemma TakeNextFifo(s: ServerState)
    requires QueueOk(s)
    ensures var (r, s') := TakeNext(s);
      && QueueOk(s')
      && (r.None? <==> Pending(s) == [])
      && (r.None? ==> s' == s)
      && (r.Some? ==> r.value.slot < |s.queue| && s.queue[r.value.slot].IsPending() &&
                      Pending(s) == [s.queue[r.value.slot]] + Pending(s') &&
                      r.value.body == s.queue[r.value.slot].Body() &&
                      s'.queue == s.queue[r.value.slot := s.queue[r.value.slot].Response()])
  {
    if s.headGeneration != s.tailGeneration {
      TakeOrder(s.queue, s.headGeneration, s.tailGeneration, Empty);
      var i := SlotOf(s.queue, s.headGeneration);
      TakeSlot(s, i, s.queue[i].Response(), TakeNext(s).1);
    }
  }

  /** Answering a received message, in whatever order, does not disturb the delivery order. */
  lemma TakeWaitingFifo(s: ServerState, i: nat, buf: Option<(nat, nat)>)
    requires QueueOk(s)
    ensures var (r, s') := TakeWaiting(s, i, buf);
      && QueueOk(s') && Pending(s') == Pending(s)
      && (r.Ok? && !r.value.NotWaiting? <==> s' != s)
      && (s' != s ==> i < |s.queue| && s.queue[i].IsWaiting() && s'.queue == s.queue[i := Empty] &&
                      s'.emptyCount == s.emptyCount + 1)
  {
    var (r, s') := TakeWaiting(s, i, buf);
    if s' != s {
      QuietUpdate(s, i, Empty, s');
    }
  }

  /** Neither does remembering a message that was handed over directly. */
  lemma QueueResponseFifo(s: ServerState, pid: nat, tid: nat, message: Message, clientAddr: Option<nat>)
    requires QueueOk(s)
    ensures var (r, s') := QueueResponse(s, pid, tid, message, clientAddr);
      && QueueOk(s') && Pending(s') == Pending(s)
      && (r.Ok? ==> r.value < |s.queue| && s.queue[r.value].Empty? && s'.queue[r.value].IsWaiting())
      && (r.Err? ==> s'.queue == s.queue)
  {
    EmptySlotFound(s);
    var (r, s') := QueueResponse(s, pid, tid, message, clientAddr);
    if r.Ok? {
      QuietUpdate(s, r.value, s'.queue[r.value], s');
    }
  }

  lemma {:induction false} CountEmptyDiscard(q: seq<QueuedMessage>, pid: nat)
    ensures CountEmpty(DiscardedAll(q, pid)) == CountEmpty(q)
  {
    if q == [] {
    } else {
      assert DiscardedAll(q, pid)[1..] == DiscardedAll(q[1..], pid);
      CountEmptyDiscard(q[1..], pid);
    }
  }

  lemma {:induction false} PendingDiscard(q: seq<QueuedMessage>, pid: nat, g: nat, n: nat)
    ensures PendingFrom(DiscardedAll(q, pid), g, n) == DiscardedAll(PendingFrom(q, g, n), pid)
    decreases n
  {
    if n == 0 {
    } else {
      AtDiscard(q, pid, g);
      PendingDiscard(q, pid, Wrap(g + 1), n - 1);
    }
  }

  lemma AtDiscard(q: seq<QueuedMessage>, pid: nat, g: nat)
    ensures SlotOf(DiscardedAll(q, pid), g) == SlotOf(q, g)
    ensures At(DiscardedAll(q, pid), g) == At(q, g).Discarded(pid)
  {
    var q' := DiscardedAll(q, pid);
    var a, b := SlotOf(q, g), SlotOf(q', g);
    if a < |q| { assert Holds(q'[a], g); }
    if b < |q| { assert Holds(q[b], g); }
  }

  lemma DiscardOrder(q: seq<QueuedMessage>, pid: nat, head: nat, tail: nat)
    requires OrderOk(q, head, tail)
    ensures OrderOk(DiscardedAll(q, pid), head, tail)
  {
    var q' := DiscardedAll(q, pid);
    forall g
      ensures SlotOf(q', g) == SlotOf(q, g)
    {
      AtDiscard(q, pid, g);
    }
    forall j | 0 <= j < |q'| && q'[j].IsPending()
      ensures InWindow(head, tail, q'[j].idx) && SlotOf(q', q'[j].idx) == j
    {
      assert q[j].IsPending() && q[j].idx == q'[j].idx;
    }
  }

  function KeepUnless(x: Option<Id>, pid: nat): Option<Id> {
    if x.Some? && x.value.pid == pid then None else x
  }

  lemma DiscardSlot(m: QueuedMessage, pid: nat)
    ensures var m' := m.Discarded(pid);
      && m'.Names() == KeepUnless(m.Names(), pid)
      && (m.IsPending() <==> m'.IsPending()) && (m.Empty? <==> m'.Empty?)
      && (m.IsPending() ==> m'.Body() == m.Body() && m'.idx == m.idx)
  {
  }

  lemma DiscardBodies(p: seq<QueuedMessage>, pid: nat)
    requires AllPending(p)
    ensures AllPending(DiscardedAll(p, pid)) && Bodies(DiscardedAll(p, pid)) == Bodies(p)
  {
  }

  lemma DiscardNames(s: ServerState, pid: nat)
    ensures forall i | 0 <= i < |s.queue| ::
      Discard(s, pid).queue[i].Names() == KeepUnless(s.queue[i].Names(), pid)
  {
    forall i | 0 <= i < |s.queue|
      ensures Discard(s, pid).queue[i].Names() == KeepUnless(s.queue[i].Names(), pid)
    {
      DiscardSlot(s.queue[i], pid);
    }
  }

  /**
   A dying client: the delivery order keeps every message in its place with the same body, the
   number of empty slots does not change, and no slot names a thread of that process any more.
   */
  lemma DiscardFifo(s: ServerState, pid: nat)
    requires QueueOk(s)
    ensures QueueOk(Discard(s, pid)) && Discard(s, pid).emptyCount == s.emptyCount
    ensures Pending(Discard(s, pid)) == DiscardedAll(Pending(s), pid)
    ensures forall i | 0 <= i < |s.queue| ::
      Discard(s, pid).queue[i].Names() == KeepUnless(s.queue[i].Names(), pid)
  {
    hide OrderOk, Bodies, AllPending;
    DiscardNames(s, pid);
    CountEmptyDiscard(s.queue, pid);
    DiscardOrder(s.queue, pid, s.headGeneration, s.tailGeneration);
    PendingDiscard(s.queue, pid, s.headGeneration, PendingCount(s));
    DiscardBodies(Pending(s), pid);
  }

  /** Number of slots without a pending message. */
  function CountQuiet(q: seq<QueuedMessage>): (n: nat)
    ensures n <= |q|
  {
    if q == [] then 0 else (if q[0].IsPending() then 0 else 1) + CountQuiet(q[1..])
  }

  lemma {:induction false} CountQuietUpdate(q: seq<QueuedMessage>, i: nat, m: QueuedMessage)
    requires i < |q| && q[i].IsPending() && !m.IsPending()
    ensures CountQuiet(q[i := m]) == CountQuiet(q) + 1
  {
    if i == 0 {
      assert q[i := m][1..] == q[1..];
    } else {
      assert q[i := m][1..] == q[1..][i - 1 := m];
      CountQuietUpdate(q[1..], i - 1, m);
    }
  }

  lemma {:induction false} EmptyIsQuiet(q: seq<QueuedMessage>)
    ensures CountEmpty(q) <= CountQuiet(q)
  {
    if q == [] {
    } else {
      EmptyIsQuiet(q[1..]);
    }
  }

  /** Pending messages sit in different slots. */
  lemma {:induction false} PendingFits(q: seq<QueuedMessage>, head: nat, tail: nat, n: nat)
    requires head < GENERATIONS && tail < GENERATIONS && OrderOk(q, head, tail)
    requires n == if head <= tail then tail - head else tail + GENERATIONS - head
    ensures n + CountQuiet(q) <= |q|
    decreases n
  {
    if n == 0 {
    } else {
      TakeOrder(q, head, tail, Empty);
      CountQuietUpdate(q, SlotOf(q, head), Empty);
      PendingFits(q[SlotOf(q, head) := Empty], Wrap(head + 1), tail, n - 1);
    }
  }

  /** The generations cannot run out in a queue of at most 255 slots that still has an empty one. */
  lemma GenerationsSuffice(s: ServerState)
    requires QueueOk(s) && |s.queue| < GENERATIONS
    ensures s.emptyCount > 0 ==> PendingCount(s) < GENERATIONS - 1
  {
    PendingFits(s.queue, s.headGeneration, s.tailGeneration, PendingCount(s));
    EmptyIsQuiet(s.queue);
  }

  /** Queueing appends to the delivery order; an error leaves the order alone. */
  lemma QueueMessageFifo(s: ServerState, pid: nat, tid: nat, message: Message, clientAddr: Option<nat>)
    requires QueueOk(s) && (s.emptyCount > 0 ==> PendingCount(s) < GENERATIONS - 1)
    ensures var (r, s') := QueueMessage(s, pid, tid, message, clientAddr);
      && QueueOk(s')
      && (r.Ok? ==> s'.tailGeneration != s'.headGeneration && r.value < |s.queue| && s.queue[r.value].Empty? &&
                    Pending(s') == Pending(s) + [s'.queue[r.value]] &&
                    s'.queue[r.value].IsPending() && s'.queue[r.value].Body() == message)
      && (r.Err? ==> Pending(s') == Pending(s) && s'.queue == s.queue)
  {
    EmptySlotFound(s);
    var (r, s') := QueueMessage(s, pid, tid, message, clientAddr);
    if r.Ok? {
      AppendSlot(s, r.value, s'.queue[r.value], s');
    }
  }

  /**
   In a queue of any length, queueing trips the assertion that the tail
   generation differs from the head generation exactly when 255 messages are already pending.
   */
  lemma AssertionTrips(s: ServerState, pid: nat, tid: nat, message: Message, clientAddr: Option<nat>)
    requires QueueOk(s) && QueueMessage(s, pid, tid, message, clientAddr).0.Ok?
    ensures var s' := QueueMessage(s, pid, tid, message, clientAddr).1;
      s'.tailGeneration == s'.headGeneration <==> |Pending(s)| == GENERATIONS - 1
  {
  }

  lemma {:induction false} AllEmpty(q: seq<QueuedMessage>)
    requires forall i | 0 <= i < |q| :: q[i] == Empty
    ensures CountEmpty(q) == |q|
    ensures forall g :: SlotOf(q, g) == |q|
  {
    if q == [] {
    } else {
      AllEmpty(q[1..]);
    }
  }

  lemma NewQueueOk(sid: nat, pid: nat, n: nat)
    requires 0 < n
    ensures QueueOk(NewQueue(sid, pid, n))
  {
    AllEmpty(NewQueue(sid, pid, n).queue);
  }

  /** A new queue after thread `x` has queued the same scalar message `n` times. */
  function Filled(sid: nat, pid: nat, slots: nat, x: Id, body: ScalarBody, n: nat): ServerState {
    if n == 0 then NewQueue(sid, pid, slots)
    else QueueMessage(Filled(sid, pid, slots, x, body, n - 1), x.pid, x.tid, Scalar(body), None).1
  }

  lemma {:induction false} FilledCounts(sid: nat, pid: nat, slots: nat, x: Id, body: ScalarBody, n: nat)
    requires GENERATIONS <= slots && n < GENERATIONS
    ensures var s := Filled(sid, pid, slots, x, body, n);
      && QueueOk(s) && |s.queue| == slots
      && PendingCount(s) == n && s.emptyCount == slots - n
  {
    if n == 0 {
      NewQueueOk(sid, pid, slots);
    } else {
      FilledCounts(sid, pid, slots, x, body, n - 1);
      FillOnce(Filled(sid, pid, slots, x, body, n - 1), x, body);
    }
  }

  lemma FillOnce(s: ServerState, x: Id, body: ScalarBody)
    requires QueueOk(s) && s.emptyCount > 0 && PendingCount(s) < GENERATIONS - 1
    ensures var s' := QueueMessage(s, x.pid, x.tid, Scalar(body), None).1;
      && QueueOk(s') && |s'.queue| == |s.queue|
      && PendingCount(s') == PendingCount(s) + 1 && s'.emptyCount == s.emptyCount - 1
  {
    EmptySlotFound(s);
    QueueMessageFifo(s, x.pid, x.tid, Scalar(body), None);
  }

  /**
   The assertion does trip in a page of 256 slots or more: after 255 messages that the server has not
   received there is still an empty slot, the next message is accepted, and the generations are
   equal.  The server then finds nothing to receive in a queue that holds 256 messages.
   */
  lemma AssertionTripsAt256(sid: nat, pid: nat, slots: nat, x: Id, body: ScalarBody)
    requires GENERATIONS <= slots
    ensures var s := Filled(sid, pid, slots, x, body, GENERATIONS - 1);
      var (r, s') := QueueMessage(s, x.pid, x.tid, Scalar(body), None);
      && QueueOk(s) && |Pending(s)| == GENERATIONS - 1
      && r.Ok? && s'.tailGeneration == s'.headGeneration && TakeNext(s').0.None?
  {
    var s := Filled(sid, pid, slots, x, body, GENERATIONS - 1);
    FilledCounts(sid, pid, slots, x, body, GENERATIONS - 1);
    EmptySlotFound(s);
    AssertionTrips(s, x.pid, x.tid, Scalar(body), None);
  }

  // ---- Whole runs ------------------------------------------------------------------------------

  /** The operations on a queue; `Respond` is the direct hand-over to a waiting thread. */
  datatype Op =
    | Queue(pid: nat, tid: nat, message: Message, clientAddr: Option<nat>)
    | Respond(pid: nat, tid: nat, message: Message, clientAddr: Option<nat>)
    | Fetch
    | Reply(slot: nat, buf: Option<(nat, nat)>)
    | ClientDied(pid: nat)

  function Operate(s: ServerState, op: Op): (s': ServerState)
    requires QueueOk(s) && |s.queue| < GENERATIONS
    ensures QueueOk(s') && |s'.queue| == |s.queue|
  {
    match op
    case Queue(p, t, m, c) => GenerationsSuffice(s); QueueMessageFifo(s, p, t, m, c); QueueMessage(s, p, t, m, c).1
    case Respond(p, t, m, c) => QueueResponseFifo(s, p, t, m, c); QueueResponse(s, p, t, m, c).1
    case Fetch => TakeNextFifo(s); TakeNext(s).1
    case Reply(i, b) => TakeWaitingFifo(s, i, b); TakeWaiting(s, i, b).1
    case ClientDied(p) => DiscardFifo(s, p); Discard(s, p)
  }

  function Final(s: ServerState, ops: seq<Op>): (s': ServerState)
    requires QueueOk(s) && |s.queue| < GENERATIONS
    ensures QueueOk(s') && |s'.queue| == |s.queue|
    decreases |ops|
  {
    if ops == [] then s else Final(Operate(s, ops[0]), ops[1..])
  }

  /** The message `op` queued, if it did. */
  function QueuedBy(s: ServerState, op: Op): seq<Message>
    requires QueueOk(s)
  {
    if op.Queue? && QueueMessage(s, op.pid, op.tid, op.message, op.clientAddr).0.Ok? then [op.message] else []
  }

  /** The message the server received by `op`, if it did. */
  function ReceivedBy(s: ServerState, op: Op): seq<Message>
    requires QueueOk(s)
  {
    if op.Fetch? && TakeNext(s).0.Some? then [TakeNext(s).0.value.body] else []
  }

  function Queued(s: ServerState, ops: seq<Op>): seq<Message>
    requires QueueOk(s) && |s.queue| < GENERATIONS
    decreases |ops|
  {
    if ops == [] then [] else QueuedBy(s, ops[0]) + Queued(Operate(s, ops[0]), ops[1..])
  }

  function Received(s: ServerState, ops: seq<Op>): seq<Message>
    requires QueueOk(s) && |s.queue| < GENERATIONS
    decreases |ops|
  {
    if ops == [] then [] else ReceivedBy(s, ops[0]) + Received(Operate(s, ops[0]), ops[1..])
  }

  /** The bodies the server has still to receive. */
  ghost function Backlog(s: ServerState): seq<Message>
    requires QueueOk(s)
  {
    Bodies(Pending(s))
  }

  /** Each operation takes from the front of the backlog what it receives and appends what it queues. */
  lemma StepOrder(s: ServerState, op: Op)
    requires QueueOk(s) && |s.queue| < GENERATIONS
    ensures ReceivedBy(s, op) + Backlog(Operate(s, op)) == Backlog(s) + QueuedBy(s, op)
  {
    hide SlotsOk, Pending, QueueMessage, QueueResponse, TakeNext, TakeWaiting, Discard;
    match op {
      case Queue(p, t, m, c) =>
        GenerationsSuffice(s);
        QueueMessageFifo(s, p, t, m, c);
      case Respond(p, t, m, c) =>
        QueueResponseFifo(s, p, t, m, c);
      case Fetch =>
        TakeNextFifo(s);
      case Reply(i, b) =>
        TakeWaitingFifo(s, i, b);
      case ClientDied(p) =>
        DiscardFifo(s, p);
        DiscardBodies(Pending(s), p);
    }
  }

  lemma Splice<T>(r1: seq<T>, b1: seq<T>, b0: seq<T>, q1: seq<T>, r2: seq<T>, b2: seq<T>, q2: seq<T>)
    requires r1 + b1 == b0 + q1 && r2 + b2 == b1 + q2
    ensures r1 + r2 + b2 == b0 + (q1 + q2)
  {
    calc {
      r1 + r2 + b2;
      r1 + (r2 + b2);
      r1 + (b1 + q2);
      (r1 + b1) + q2;
      b0 + (q1 + q2);
    }
  }

  /**
   First in, first out over every run: what the server received, followed by what is still
   waiting for it, is what was waiting at the start followed by what was queued since.
   */
  lemma {:induction false} DeliveryOrder(s: ServerState, ops: seq<Op>)
    requires QueueOk(s) && |s.queue| < GENERATIONS
    ensures Received(s, ops) + Backlog(Final(s, ops)) == Backlog(s) + Queued(s, ops)
    decreases |ops|
  {
    if ops == [] {
    } else {
      var s' := Operate(s, ops[0]);
      StepOrder(s, ops[0]);
      DeliveryOrder(s', ops[1..]);
      Splice(ReceivedBy(s, ops[0]), Backlog(s'), Backlog(s), QueuedBy(s, ops[0]),
             Received(s', ops[1..]), Backlog(Final(s', ops[1..])), Queued(s', ops[1..]));
    }
  }
}
