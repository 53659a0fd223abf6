/** The value that a server answers with, from the answer to the client that goes on with it. */
module KernelReplies {
  import opened Common
  import opened ServerQueue
  import opened Fifo
  import opened KernelState
  import opened KernelSteps
  import opened KernelInv
  import opened KernelWakes
  import opened KernelMessages
  import opened KernelActivate
  import opened KernelRuns
  import opened KernelOutcomes

  /** `x` is suspended in a blocking call and has been sent `v`. */
  predicate Mailed(k: Kernel, x: Id, v: Reply) {
    x in k.threads && k.threads[x].future == Some(WaitBlocking) && k.threads[x].mailbox == Some(v)
  }

  /** `x` is the running thread and goes on with `v`. */
  predicate RunsWith(k: Kernel, x: Id, v: Reply) {
    k.current == x && IsReady(k, x) && k.threads[x].future.None? && k.threads[x].mailbox.None? &&
    k.threads[x].result == Some(v)
  }

  /** Mail stays where it is until its thread runs, and then the thread goes on with it. */
  lemma MailActivates(k: Kernel, x: Id, v: Reply)
    requires Base(k) && Ipc(k, None) && Mailed(k, x, v)
    ensures var k' := Activate(k).0;
      (Mailed(k', x, v) && (IsReady(k, x) ==> IsReady(k', x))) || RunsWith(k', x, v)
  {
    hide Base, Ipc, Activate, FirstAble, OthersWait;
    ActivateThread(k, x);
    if !k.inIrq { ActivateRunsFirst(k); } else { ActivateInIrq(k); }
  }

  /** Nobody is sent anything by activation, and a thread without an unfinished call keeps its result. */
  lemma ActivateSendsNothing(k: Kernel, y: Id)
    requires Base(k) && Ipc(k, None) && y in k.threads
    ensures var k' := Activate(k).0;
      && y in k'.threads && (k.threads[y].mailbox.None? ==> k'.threads[y].mailbox.None?)
      && (k.threads[y].future.None? ==> k'.threads[y].result == k.threads[y].result)
  {
    hide Base, Ipc, Activate, MustWait;
    ActivateThread(k, y);
  }

  // ---- Answering --------------------------------------------------------------------------------

  /** Slot `i` of server `s`, which belongs to the running process, holds `m`. */
  predicate OwnSlot(k: Kernel, s: nat, i: nat, m: QueuedMessage) {
    s in k.servers && k.servers[s].q.pid == k.current.pid && i < |k.servers[s].q.queue| && k.servers[s].q.queue[i] == m
  }

  /** `x` alone has been sent something, namely `v`, and the server is told that all went well. */
  ghost predicate Delivers(k: Kernel, k': Kernel, x: Id, v: Reply) {
    && ((Mailed(k', x, v) && IsReady(k', x)) || RunsWith(k', x, v))
    && (forall y | y in k.threads && y != x && k.threads[y].mailbox.None? ::
          y in k'.threads && k'.threads[y].mailbox.None?)
    && k.current in k'.threads && k'.threads[k.current].result == Some(Done)
  }

  /** Between `k` and `k'` senders that waited for room may have become ready; no other thread has changed. */
  ghost predicate RoomFound(k: Kernel, k': Kernel) {
    && k'.threads.Keys == k.threads.Keys && k'.current == k.current && k'.processes == k.processes
    && forall y | y in k.threads ::
         k'.threads[y] == k.threads[y] ||
         (k.threads[y].state.RetryQueueFull? && k'.threads[y] == k.threads[y].(state := Ready))
  }

  lemma RoomFoundAt(k: Kernel, k': Kernel, y: Id)
    requires RoomFound(k, k') && y in k.threads
    ensures y in k'.threads && k'.threads[y].future == k.threads[y].future &&
            k'.threads[y].mailbox == k.threads[y].mailbox
    ensures k'.threads[y].result == k.threads[y].result && k'.threads[y].priority == k.threads[y].priority
    ensures !k.threads[y].state.RetryQueueFull? ==> k'.threads[y] == k.threads[y]
  {
  }

  /** Emptying a slot changes no thread but to make it ready. */
  lemma EmptyingKeeps(k: Kernel, s: nat, q: ServerState)
    requires Base(k) && s in k.servers
    ensures var k' := SetQueueWaking(k, s, q);
      RoomFound(k, k') && k'.servers == k.servers[s := k.servers[s].(q := q)]
  {
    hide Base;
    SetQueueBase(k, s, q);
    WakeRetryExact(SetQueue(k, s, q), s);
  }

  /** What the answer takes out of the queue. */
  lemma AnswerTakes(k: Kernel, s: nat, i: nat, m: QueuedMessage, buf: Option<(nat, nat)>, x: Id)
    requires OwnSlot(k, s, i, m)
    requires
      (m == WaitingReturnScalar(x.pid, x.tid) && buf.None?) ||
      (m.WaitingReturnMemory? && m.pid == x.pid && m.tid == x.tid && buf == Some((m.serverAddr, m.bufSize)))
    ensures var (k1, r) := TakeReply(k, s, i, buf);
      && k1 == SetQueueWaking(k, s, TakeWaiting(k.servers[s].q, i, buf).1) && r.Ok? && Answered(r) == Some(x)
      && (m.WaitingReturnScalar? ==> r.value == ScalarReply(x.pid, x.tid))
      && (m.WaitingReturnMemory? ==> r.value == BorrowedMemory(x.pid, x.tid, m.clientAddr))
  {
  }

  /** The threads once `x` has been sent `v` and the caller told that all went well. */
  lemma SentThreads(k: Kernel, x: Id, v: Reply, y: Id)
    requires AwaitsReply(k, x) && x != y && y in k.threads
    ensures var left := SetResult(WakeWithResult(k, x, v), y, Done);
      && left.threads == k.threads[x := k.threads[x].(mailbox := Some(v), state := Ready)]
                                  [y := k.threads[y].(result := Some(Done))]
  {
  }

  lemma SentOk(k: Kernel, x: Id, v: Reply, y: Id)
    requires Base(k) && Ipc(k, None) && AwaitsReply(k, x) && Unnamed(k, x)
    ensures var left := SetResult(WakeWithResult(k, x, v), y, Done);
      Base(left) && Ipc(left, None)
  {
    assert x in k.threads && k.threads[x].future == Some(WaitBlocking);
    hide Base, Ipc, Tame, WakeWithResult, SetResult, Unnamed, AwaitsReply;
    WakeResultOk(k, x, v);
    ResultOk(WakeWithResult(k, x, v), y, Done, None);
  }

  lemma CurrentIsNot(k: Kernel, x: Id)
    requires CurrentOk(k) && AwaitsReply(k, x)
    ensures x != k.current && k.current in k.threads && k.threads[k.current].future.None?
    ensures k.threads[k.current].state.Ready? && x in k.threads
  {
  }

  lemma AnswerDelivers(k: Kernel, k1: Kernel, x: Id, v: Reply)
    requires CurrentOk(k) && Base(k1) && Ipc(k1, None) && AwaitsReply(k1, x) && Unnamed(k1, x)
    requires RoomFound(k, k1) && AwaitsReply(k, x)
    ensures Delivers(k, Activate(SetResult(WakeWithResult(k1, x, v), k.current, Done)).0, x, v)
  {
    hide Base, Ipc, WakeWithResult, SetResult, Activate, Unnamed, CurrentOk, AwaitsReply, RoomFound;
    var left := SetResult(WakeWithResult(k1, x, v), k.current, Done);
    CurrentIsNot(k, x);
    RoomFoundAt(k, k1, k.current);
    RoomFoundAt(k, k1, x);
    SentThreads(k1, x, v, k.current);
    SentOk(k1, x, v, k.current);
    assert Mailed(left, x, v) by { WaitsBlocking(k1, x); }
    MailActivates(left, x, v);
    forall y | y in k.threads && y != x && k.threads[y].mailbox.None?
      ensures y in Activate(left).0.threads && Activate(left).0.threads[y].mailbox.None?
    {
      RoomFoundAt(k, k1, y);
      ActivateSendsNothing(left, y);
    }
    ActivateSendsNothing(left, k.current);
  }

  lemma WaitsBlocking(k: Kernel, x: Id)
    requires AwaitsReply(k, x)
    ensures x in k.threads && k.threads[x].future == Some(WaitBlocking)
  {
  }

  /** An answer to a blocking scalar brings its value to the client, and to nobody else. */
  lemma ScalarAnswerArrives(k: Kernel, s: nat, i: nat, v: Reply, x: Id)
    requires Sound(k) && OwnSlot(k, s, i, WaitingReturnScalar(x.pid, x.tid))
    ensures Delivers(k, Step(k, SysCall(ReplyScalar(s, i, v))).0, x, v)
  {
    hide Base, IdleOk, ConnsOk, ServersOk, CleanOk, MailOk, ReceiversOk, RetryOk, StampsOk, CurrentOk, NamesOk,
         TakeReply, TakeWaiting, SetQueueWaking, Tame, WakeWithResult, SetResult, Activate, Delivers, AwaitsReply,
         Unnamed, NameAt;
    AnswerTakes(k, s, i, WaitingReturnScalar(x.pid, x.tid), None, x);
    TakeReplyOk(k, s, i, None);
    EmptyingKeeps(k, s, TakeWaiting(k.servers[s].q, i, None).1);
    AnswerDelivers(k, TakeReply(k, s, i, None).0, x, v);
  }

  /** Giving lent memory back brings the value to the client that lent it, and to nobody else. */
  lemma MemoryAnswerArrives(k: Kernel, s: nat, i: nat, m: QueuedMessage, v: Reply, x: Id)
    requires Sound(k) && OwnSlot(k, s, i, m) && m.WaitingReturnMemory? && x == Id(m.pid, m.tid)
    ensures Delivers(k, Step(k, SysCall(ReplyMemory(s, i, (m.serverAddr, m.bufSize), v, Ok(())))).0, x, v)
  {
    hide Base, IdleOk, ConnsOk, ServersOk, CleanOk, MailOk, ReceiversOk, RetryOk, StampsOk, CurrentOk, NamesOk,
         TakeReply, TakeWaiting, SetQueueWaking, Tame, WakeWithResult, SetResult, Activate, Delivers, AwaitsReply,
         Unnamed, NameAt;
    var buf := (m.serverAddr, m.bufSize);
    AnswerTakes(k, s, i, m, Some(buf), x);
    TakeReplyOk(k, s, i, Some(buf));
    EmptyingKeeps(k, s, TakeWaiting(k.servers[s].q, i, Some(buf)).1);
    AnswerDelivers(k, TakeReply(k, s, i, Some(buf)).0, x, v);
  }

  // ---- All answers ------------------------------------------------------------------------------

  /** Slot `i` of server `s` is empty; senders that waited for room may be ready. */
  ghost predicate Emptied(k: Kernel, k': Kernel, s: nat, i: nat) {
    && RoomFound(k, k') && s in k.servers && s in k'.servers && i < |k.servers[s].q.queue|
    && k'.servers == k.servers[s := k.servers[s].(q := k'.servers[s].q)]
    && k'.servers[s].q.queue == k.servers[s].q.queue[i := Empty] && Pending(k'.servers[s].q) == Pending(k.servers[s].q)
  }

  lemma TakenEmpties(k: Kernel, s: nat, i: nat, buf: Option<(nat, nat)>)
    requires Base(k) && Ipc(k, None) && s in k.servers && i < |k.servers[s].q.queue|
    requires TakeWaiting(k.servers[s].q, i, buf).1 != k.servers[s].q
    ensures Emptied(k, SetQueueWaking(k, s, TakeWaiting(k.servers[s].q, i, buf).1), s, i)
  {
    hide Base, Ipc, QueueOk, Pending, TakeWaiting, SetQueueWaking, RoomFound;
    QueueFacts(k, s, None);
    TakeWaitingFifo(k.servers[s].q, i, buf);
    EmptyingKeeps(k, s, TakeWaiting(k.servers[s].q, i, buf).1);
  }

  /** The caller is told that all went well, and the next thread to run is chosen. */
  lemma AnswererGoesOn(k: Kernel, k1: Kernel)
    requires Base(k1) && Ipc(k1, None) && RoomFound(k, k1) && IsReady(k, k.current) && k.threads[k.current].future.None?
    ensures var (k', r) := Activate(SetResult(k1, k.current, Done));
      CallerThen(k1, k', r, k.current, k.threads[k.current].(result := Some(Done)))
  {
    hide Base, Ipc, Activate, SetResult, RoomFound, Left;
    RoomFoundAt(k, k1, k.current);
    var left := SetResult(k1, k.current, Done);
    ResultExact(k1, k.current, Done);
    ResultOk(k1, k.current, Done, None);
    ActivateThread(left, k.current);
    LeftSame(left, Activate(left).0, Activate(left).1, k.current);
    var t := k.threads[k.current].(result := Some(Done));
    assert left == k1.(threads := k1.threads[k.current := t], rings := left.rings);
  }

  /** What answering slot `i` with scalar values comes to, whatever the slot holds. */
  ghost predicate ScalarAnswer(k: Kernel, s: nat, i: nat, v: Reply, k': Kernel, r: Outcome) {
    if s !in k.servers || k.servers[s].q.pid != k.current.pid then k' == k && r == Error(ServerNotFound)
    else if i >= |k.servers[s].q.queue| then k' == k && r == Error(BadAddress)
    else
      var m := k.servers[s].q.queue[i];
      if m.WaitingReturnScalar? then Delivers(k, k', Id(m.pid, m.tid), v)
      else if m.WaitingReturnScalarTerminated? then
        && k.current in k.threads
        && exists k1 ::
             Emptied(k, k1, s, i) && CallerThen(k1, k', r, k.current, k.threads[k.current].(result := Some(Done)))
      else if m.WaitingReturnMemory? || m.WaitingForget? then Emptied(k, k', s, i) && r == Error(DoubleFree)
      else k' == k && r == Error(DoubleFree)
  }

  lemma NothingTaken(k: Kernel, s: nat)
    requires s in k.servers
    ensures SetQueueWaking(k, s, k.servers[s].q) == k
  {
  }

  lemma ScalarAnswerExactly(k: Kernel, s: nat, i: nat, v: Reply)
    requires Sound(k)
    ensures var (k', r) := Step(k, SysCall(ReplyScalar(s, i, v)));
      ScalarAnswer(k, s, i, v, k', r)
  {
    hide Base, Ipc, IdleOk, ConnsOk, CurrentOk, SetQueueWaking, WakeWithResult, SetResult, Activate, Delivers, Emptied,
         CallerThen, RoomFound, Tame;
    Running(k);
    if s in k.servers && k.servers[s].q.pid == k.current.pid {
      var q := k.servers[s].q;
      if i < |q.queue| {
        var m := q.queue[i];
        if m.WaitingReturnScalar? {
          ScalarAnswerArrives(k, s, i, v, Id(m.pid, m.tid));
        } else if m.IsWaiting() {
          TakenEmpties(k, s, i, None);
          if m.WaitingReturnScalarTerminated? {
            TakeReplyOk(k, s, i, None);
            EmptyingKeeps(k, s, TakeWaiting(q, i, None).1);
            AnswererGoesOn(k, TakeReply(k, s, i, None).0);
          }
        } else {
          NothingTaken(k, s);
        }
      }
    }
  }

  /** What giving lent memory back through slot `i` comes to, whatever the slot holds. */
  ghost predicate MemoryAnswer(k: Kernel, s: nat, i: nat, buf: (nat, nat), v: Reply, returned: Result<()>,
          k': Kernel, r: Outcome)
  {
    if s !in k.servers || k.servers[s].q.pid != k.current.pid then k' == k && r == Error(ServerNotFound)
    else if i >= |k.servers[s].q.queue| then k' == k && r == Error(BadAddress)
    else
      var m := k.servers[s].q.queue[i];
      if (m.WaitingReturnMemory? || m.WaitingForget?) && (m.serverAddr, m.bufSize) != buf then
        k' == k && r == Error(BadAddress)
      else if (m.WaitingReturnMemory? || m.WaitingForget?) && returned.Err? then
        Emptied(k, k', s, i) && r == Error(returned.error)
      else if m.WaitingReturnMemory? then Delivers(k, k', Id(m.pid, m.tid), v)
      else if m.WaitingForget? then
        && k.current in k.threads
        && exists k1 ::
             Emptied(k, k1, s, i) && CallerThen(k1, k', r, k.current, k.threads[k.current].(result := Some(Done)))
      else if m.WaitingReturnScalar? || m.WaitingReturnScalarTerminated? then
        Emptied(k, k', s, i) && r == Error(DoubleFree)
      else k' == k && r == Error(DoubleFree)
  }

  lemma MemoryAnswerExactly(k: Kernel, s: nat, i: nat, buf: (nat, nat), v: Reply, returned: Result<()>)
    requires Sound(k)
    ensures var (k', r) := Step(k, SysCall(ReplyMemory(s, i, buf, v, returned)));
      MemoryAnswer(k, s, i, buf, v, returned, k', r)
  {
    hide Base, Ipc, IdleOk, ConnsOk, CurrentOk, SetQueueWaking, WakeWithResult, SetResult, Activate, Delivers, Emptied,
         CallerThen, RoomFound, Tame;
    Running(k);
    if s in k.servers && k.servers[s].q.pid == k.current.pid {
      var q := k.servers[s].q;
      if i < |q.queue| {
        var m := q.queue[i];
        if m.IsWaiting() && TakeWaiting(q, i, Some(buf)).0.Ok? {
          TakenEmpties(k, s, i, Some(buf));
          if m.WaitingReturnMemory? && returned.Ok? {
            MemoryAnswerArrives(k, s, i, m, v, Id(m.pid, m.tid));
          } else if m.WaitingForget? && returned.Ok? {
            TakeReplyOk(k, s, i, Some(buf));
            EmptyingKeeps(k, s, TakeWaiting(q, i, Some(buf)).1);
            AnswererGoesOn(k, TakeReply(k, s, i, Some(buf)).0);
          }
        } else {
          NothingTaken(k, s);
        }
      }
    }
  }
}
