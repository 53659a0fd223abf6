/**
 The reactor of the async runtime: it polls the registered servers and timers and wakes the tasks
 that wait for them (xous/async-rt/src/reactor.rs, server.rs, timer.rs).  The kernel's side is the
 queue of each server, `inbox`, out of which messages are taken one at a time.
 */
module Reactors {
  import opened Common
  import opened ServerQueue

  /** Tasks are known by number; waking one raises its flag. */
  type TaskId = nat

  /**
   `base` and `took` are the history of the slot: how much the kernel had handed out for its server
   when it was registered, and what its task has received since.
   */
  datatype ServerSlot = ServerSlot(
    sid: nat, queue: seq<Envelope>, waker: Option<TaskId>, active: bool, base: nat, took: seq<Envelope>)

  datatype TimerSlot = TimerSlot(deadline: nat, waker: Option<TaskId>, active: bool)

  /**
   The reactor and what surrounds it: the flags that are up, the messages that wait in the kernel, all
   it has handed out so far, and the slots that have had to share their server with another one.
   */
  datatype State = State(
    servers: seq<ServerSlot>, timers: seq<TimerSlot>, tick: nat, ready: set<TaskId>,
    inbox: map<nat, seq<Envelope>>, handedOut: map<nat, seq<Envelope>>, shared: set<nat>)

  function Of(m: map<nat, seq<Envelope>>, sid: nat): seq<Envelope> {
    if sid in m then m[sid] else []
  }

  // ---- What always holds ------------------------------------------------------------------------

  /** What the holder received and what is still buffered is what the kernel handed out, in that order. */
  predicate StreamOk(v: State, s: ServerSlot) {
    s.base <= |Of(v.handedOut, s.sid)| && Of(v.handedOut, s.sid)[s.base..] == s.took + s.queue
  }

  /** A parked waker means that there is nothing to wake for. */
  predicate ServerSlotOk(s: ServerSlot) {
    (s.queue != [] ==> s.waker.None?) && (!s.active ==> s.queue == [] && s.waker.None?)
  }

  predicate TimerSlotOk(tick: nat, t: TimerSlot) {
    t.waker.Some? ==> t.active && tick < t.deadline
  }

  /** The slots that live handles hold. */
  predicate Live(v: State, i: nat) {
    i < |v.servers| && v.servers[i].active
  }

  /** The slot is live and no other live slot has its server. */
  ghost predicate Alone(v: State, i: nat) {
    Live(v, i) && forall j: nat | Live(v, j) && v.servers[j].sid == v.servers[i].sid :: j == i
  }

  /** And its stream is complete. */
  ghost predicate Whole(v: State, i: nat) {
    Alone(v, i) && StreamOk(v, v.servers[i])
  }

  ghost predicate Sound(v: State) {
    && (forall i | 0 <= i < |v.servers| :: ServerSlotOk(v.servers[i]))
    && (forall i | 0 <= i < |v.timers| :: TimerSlotOk(v.tick, v.timers[i]))
    && (forall i: nat | Live(v, i) && i !in v.shared :: Whole(v, i))
  }

  // ---- Receiving --------------------------------------------------------------------------------

  /** The kernel hands out the next message of a server, if there is one. */
  function HandOut(v: State, sid: nat): (State, Option<Envelope>) {
    var waiting := Of(v.inbox, sid);
    if waiting == [] then (v, None)
    else (v.(inbox := v.inbox[sid := waiting[1..]],
             handedOut := v.handedOut[sid := Of(v.handedOut, sid) + [waiting[0]]]),
          Some(waiting[0]))
  }

  /** Buffered messages first, then one straight from the kernel. */
  function TryRecv(v: State, id: nat): (State, Option<Envelope>) {
    if !Live(v, id) then (v, None)
    else
      var s := v.servers[id];
      if s.queue != [] then
        (v.(servers := v.servers[id := s.(queue := s.queue[1..], took := s.took + [s.queue[0]])]), Some(s.queue[0]))
      else
        var (v1, r) := HandOut(v, s.sid);
        if r.None? then (v1, None) else (v1.(servers := v.servers[id := s.(took := s.took + [r.value])]), r)
  }

  /** One poll of the future that waits for the next message. */
  function PollRecv(v: State, id: nat, task: TaskId): (State, Result<Option<Envelope>>) {
    if !Live(v, id) then (v, Err(ServerNotFound))
    else
      var (v1, r) := TryRecv(v, id);
      if r.Some? || id >= |v1.servers| then (v1, Ok(r))
      else (v1.(servers := v1.servers[id := v1.servers[id].(waker := Some(task))]), Ok(None))
  }

  /** Move one message from the kernel into the buffer of slot `i`, and use its waker. */
  function BufferOne(v: State, i: nat): (State, bool)
    requires i < |v.servers|
  {
    var s := v.servers[i];
    var (v1, r) := HandOut(v, s.sid);
    if r.None? then (v, false)
    else (v1.(servers := v.servers[i := s.(queue := s.queue + [r.value], waker := None)],
              ready := if s.waker.Some? then v.ready + {s.waker.value} else v.ready), true)
  }

  function DrainSlot(v: State, i: nat): (v': State)
    requires i < |v.servers|
    ensures |v'.servers| == |v.servers|
    decreases |Of(v.inbox, v.servers[i].sid)|
  {
    var (v1, more) := BufferOne(v, i);
    if more then DrainSlot(v1, i) else v
  }

  /** The active slots from `i` on are drained. */
  function PollServers(v: State, i: nat): (v': State)
    ensures |v'.servers| == |v.servers|
    decreases |v.servers| - i
  {
    if i >= |v.servers| then v else PollServers(if v.servers[i].active then DrainSlot(v, i) else v, i + 1)
  }

  // ---- Registering ------------------------------------------------------------------------------

  function FirstInactive(s: seq<ServerSlot>, i: nat): (j: nat)
    requires i <= |s|
    ensures i <= j <= |s| && (j < |s| ==> !s[j].active) && forall k | i <= k < j :: s[k].active
    decreases |s| - i
  {
    if i == |s| || !s[i].active then i else FirstInactive(s, i + 1)
  }

  /** The live slots of a server. */
  function Holders(v: State, sid: nat): set<nat> {
    set i: nat | i < |v.servers| && v.servers[i].active && v.servers[i].sid == sid
  }

  /** A slot that joins others of its server shares it from then on, and so do they. */
  function Register(v: State, sid: nat): (State, nat) {
    var id := FirstInactive(v.servers, 0);
    var s := ServerSlot(sid, [], None, true, |Of(v.handedOut, sid)|, []);
    var others := Holders(v, sid);
    (v.(servers := if id < |v.servers| then v.servers[id := s] else v.servers + [s],
        shared := if others == {} then v.shared - {id} else v.shared + others + {id}), id)
  }

  function Unregister(v: State, id: nat): State {
    if id >= |v.servers| then v
    else v.(servers := v.servers[id := v.servers[id].(active := false, queue := [], waker := None)])
  }

  // ---- Timers -----------------------------------------------------------------------------------

  function FirstIdle(t: seq<TimerSlot>, i: nat): (j: nat)
    requires i <= |t|
    ensures i <= j <= |t| && (j < |t| ==> !t[j].active) && forall k | i <= k < j :: t[k].active
    decreases |t| - i
  {
    if i == |t| || !t[i].active then i else FirstIdle(t, i + 1)
  }

  function RegisterTimer(v: State, delay: nat): (State, nat) {
    var id := FirstIdle(v.timers, 0);
    var t := TimerSlot(v.tick + delay, None, true);
    (v.(timers := if id < |v.timers| then v.timers[id := t] else v.timers + [t]), id)
  }

  function UnregisterTimer(v: State, id: nat): State {
    if id >= |v.timers| then v else v.(timers := v.timers[id := v.timers[id].(active := false, waker := None)])
  }

  predicate Expired(v: State, id: nat) {
    id < |v.timers| && v.timers[id].active && v.tick >= v.timers[id].deadline
  }

  /** One poll of a timer whose slot is `slot`, if it has one yet; the new slot, and whether it is done. */
  function PollTimer(v: State, slot: Option<nat>, delay: nat, task: TaskId): (State, Option<nat>, bool) {
    var (v1, id) := if slot.Some? then (v, slot.value) else RegisterTimer(v, delay);
    if Expired(v1, id) then (UnregisterTimer(v1, id), None, true)
    else if id < |v1.timers| then (v1.(timers := v1.timers[id := v1.timers[id].(waker := Some(task))]), Some(id), false)
    else (v1, Some(id), false)
  }

  /** Due timers from `i` on use their wakers. */
  function WakeTimers(v: State, i: nat): (v': State)
    ensures |v'.timers| == |v.timers|
    decreases |v.timers| - i
  {
    if i >= |v.timers| then v
    else
      var t := v.timers[i];
      WakeTimers(if t.active && v.tick >= t.deadline && t.waker.Some?
                 then v.(timers := v.timers[i := t.(waker := None)], ready := v.ready + {t.waker.value}) else v, i + 1)
  }

  function PollTimers(v: State): State {
    WakeTimers(v.(tick := v.tick + 1), 0)
  }

  // ---- Every step keeps it ----------------------------------------------------------------------

  /** Slot `i` is not opened but may change otherwise, and with it what was handed out for its server if it is live. */
  ghost predicate Touched(v: State, v': State, i: nat) {
    && i < |v.servers| == |v'.servers|
    && v' == v.(servers := v'.servers, inbox := v'.inbox, handedOut := v'.handedOut, ready := v'.ready)
    && (forall j | 0 <= j < |v.servers| && j != i :: v'.servers[j] == v.servers[j])
    && v'.servers[i].sid == v.servers[i].sid && (v'.servers[i].active ==> v.servers[i].active)
    && (forall t | t != v.servers[i].sid || !v.servers[i].active :: Of(v'.handedOut, t) == Of(v.handedOut, t))
  }

  /** Complete streams stay complete. */
  ghost predicate WholeStay(v: State, v': State) {
    forall j: nat | Whole(v, j) && Live(v', j) :: Whole(v', j)
  }

  ghost predicate SameHolders(v: State, v': State) {
    forall i: nat :: (Live(v', i) <==> Live(v, i)) && (Live(v, i) ==> v'.servers[i].sid == v.servers[i].sid)
  }

  lemma ServersOk(v: State, v': State, i: nat)
    requires Sound(v) && Touched(v, v', i) && ServerSlotOk(v'.servers[i])
    requires StreamOk(v, v.servers[i]) && v'.servers[i].active ==> StreamOk(v', v'.servers[i])
    ensures Sound(v') && WholeStay(v, v')
  {
    forall j: nat | Whole(v, j) && Live(v', j)
      ensures Whole(v', j)
    {
      assert forall m: nat | Live(v', m) :: Live(v, m) && v'.servers[m].sid == v.servers[m].sid;
      assert Live(v, i) && v.servers[i].sid == v.servers[j].sid ==> i == j;
    }
    forall j: nat | Live(v', j) && j !in v'.shared
      ensures Whole(v', j)
    {
      assert Live(v, j) && Whole(v, j);
    }
  }

  /** Slot `id` gives out the oldest message: the first that is buffered, or else the first that waits in the kernel. */
  ghost predicate OldestOf(v: State, v': State, id: nat, m: Envelope) {
    && id < |v.servers| == |v'.servers|
    && (forall j | 0 <= j < |v.servers| && j != id :: v'.servers[j] == v.servers[j])
    && v'.ready == v.ready && v'.timers == v.timers && v'.servers[id].waker == v.servers[id].waker
    && var sid := v.servers[id].sid;
       && [m] + (v'.servers[id].queue + Of(v'.inbox, sid)) == v.servers[id].queue + Of(v.inbox, sid)
       && (v.servers[id].queue != [] ==> v'.inbox == v.inbox)
       && (forall t | t != sid :: Of(v'.inbox, t) == Of(v.inbox, t))
  }

  lemma TryRecvOk(v: State, id: nat)
    requires Sound(v)
    ensures var (v', r) := TryRecv(v, id);
      && Sound(v') && WholeStay(v, v') && |v'.servers| == |v.servers| && SameHolders(v, v')
      && (r.Some? ==> Live(v, id) && v'.servers[id].took == v.servers[id].took + [r.value])
      && (r.None? ==> v' == v && (Live(v, id) ==> v.servers[id].queue == [] && Of(v.inbox, v.servers[id].sid) == []))
      && (r.Some? ==> OldestOf(v, v', id, r.value))
  {
    if Live(v, id) {
      var s := v.servers[id];
      var (v', r) := TryRecv(v, id);
      assert r.Some? && s.queue != [] ==> v'.servers[id].took + v'.servers[id].queue == s.took + s.queue;
      var w := Of(v.inbox, s.sid);
      if s.queue != [] {
        assert [s.queue[0]] + (s.queue[1..] + w) == s.queue + w;
      } else if w != [] {
        assert [w[0]] + ([] + w[1..]) == [] + w;
      }
      ServersOk(v, v', id);
    }
  }

  /** A task that has to wait has nothing to receive, and its waker is parked. */
  lemma PollRecvOk(v: State, id: nat, task: TaskId)
    requires Sound(v)
    ensures var (v', r) := PollRecv(v, id, task);
      && Sound(v') && WholeStay(v, v') && SameHolders(v, v') && (r.Err? <==> !Live(v, id))
      && (r.Ok? && r.value.Some? ==> id < |v'.servers| && v'.servers[id].took == v.servers[id].took + [r.value.value])
      && (r == Ok(None) ==> v' == v.(servers := v.servers[id := v.servers[id].(waker := Some(task))]) &&
                            v.servers[id].queue == [] && Of(v.inbox, v.servers[id].sid) == [])
  {
    TryRecvOk(v, id);
    if Live(v, id) && TryRecv(v, id).1.None? {
      var v' := PollRecv(v, id, task).0;
      ServersOk(v, v', id);
    }
  }

  lemma BufferOneOk(v: State, i: nat)
    requires Sound(v) && Live(v, i)
    ensures var v' := BufferOne(v, i).0;
      Sound(v') && WholeStay(v, v') && SameHolders(v, v')
  {
    var s := v.servers[i];
    var v' := BufferOne(v, i).0;
    if v' != v {
      assert s.took + (s.queue + [Of(v.inbox, s.sid)[0]]) == s.took + s.queue + [Of(v.inbox, s.sid)[0]];
      ServersOk(v, v', i);
    }
  }

  lemma {:induction false} DrainSlotOk(v: State, i: nat)
    requires Sound(v) && Live(v, i)
    ensures var v' := DrainSlot(v, i);
      Sound(v') && WholeStay(v, v') && SameHolders(v, v')
    decreases |Of(v.inbox, v.servers[i].sid)|
  {
    if BufferOne(v, i).1 {
      hide Sound, Whole, StreamOk;
      BufferOneOk(v, i);
      DrainSlotOk(BufferOne(v, i).0, i);
    }
  }

  /** All that waits in the kernel for the server of slot `i` goes to its buffer, and its waker is used. */
  ghost predicate Drained(v: State, v': State, i: nat)
    requires i < |v.servers|
  {
    var s := v.servers[i];
    var w := Of(v.inbox, s.sid);
    && v' == v.(servers := v'.servers, inbox := v'.inbox, handedOut := v'.handedOut, ready := v'.ready)
    && v'.servers == v.servers[i := if w == [] then s else s.(queue := s.queue + w, waker := None)]
    && Of(v'.inbox, s.sid) == [] && (forall t | t != s.sid :: Of(v'.inbox, t) == Of(v.inbox, t))
    && v'.ready == if w != [] && s.waker.Some? then v.ready + {s.waker.value} else v.ready
  }

  lemma {:induction false} DrainExact(v: State, i: nat)
    requires i < |v.servers|
    ensures Drained(v, DrainSlot(v, i), i)
    decreases |Of(v.inbox, v.servers[i].sid)|
  {
    var s := v.servers[i];
    var w := Of(v.inbox, s.sid);
    if w == [] {
      assert v.servers == v.servers[i := s];
    } else {
      var v1 := BufferOne(v, i).0;
      DrainExact(v1, i);
      assert (s.queue + [w[0]]) + w[1..] == s.queue + w;
      assert w[1..] == [] ==> s.queue + [w[0]] == s.queue + w;
    }
  }

  /** Slot `j`, from `i` on, is the first live one of its server. */
  predicate FirstHolder(v: State, i: nat, j: nat) {
    i <= j && Live(v, j) && forall m: nat | i <= m < j && Live(v, m) :: v.servers[m].sid != v.servers[j].sid
  }

  /** Something waits in the kernel for slot `j`, and it is the first to get it. */
  predicate IsServed(v: State, i: nat, j: nat) {
    FirstHolder(v, i, j) && Of(v.inbox, v.servers[j].sid) != []
  }

  /**
   Draining the slots from `i` on: the first live slot of each server gets all that waits for it, after
   what it has; nothing is left waiting; and exactly the tasks parked at the slots served are woken.
   */
  ghost predicate Polled(v: State, v': State, i: nat) {
    && |v'.servers| == |v.servers| && v'.timers == v.timers && v'.tick == v.tick && v'.shared == v.shared
    && (forall j: nat | j < |v.servers| :: v'.servers[j] ==
          if IsServed(v, i, j)
          then v.servers[j].(queue := v.servers[j].queue + Of(v.inbox, v.servers[j].sid), waker := None)
          else v.servers[j])
    && (forall sid :: Of(v'.inbox, sid) ==
          if exists j: nat :: i <= j && Live(v, j) && v.servers[j].sid == sid then [] else Of(v.inbox, sid))
    && (forall t :: t in v'.ready <==>
          t in v.ready || exists j: nat :: IsServed(v, i, j) && v.servers[j].waker == Some(t))
  }

  lemma {:induction false} PollServersExact(v: State, i: nat)
    ensures Polled(v, PollServers(v, i), i)
    decreases |v.servers| - i
  {
    hide DrainSlot;
    if i < |v.servers| {
      if v.servers[i].active {
        var v1 := DrainSlot(v, i);
        DrainExact(v, i);
        PollServersExact(v1, i + 1);
        DrainedThenPolled(v, v1, PollServers(v, i), i);
      } else {
        PollServersExact(v, i + 1);
        SkippedThenPolled(v, PollServers(v, i), i);
      }
    }
  }

  lemma ServedLater(v: State, v1: State, i: nat, j: nat)
    requires Live(v, i) && Drained(v, v1, i)
    ensures IsServed(v1, i + 1, j) <==> IsServed(v, i, j) && j != i
  {
    assert forall m: nat :: Live(v1, m) <==> Live(v, m);
    if j < |v.servers| && v.servers[j].sid != v.servers[i].sid {
      assert Of(v1.inbox, v.servers[j].sid) == Of(v.inbox, v.servers[j].sid);
    }
  }

  lemma DrainedThenPolled(v: State, v1: State, v': State, i: nat)
    requires Live(v, i) && Drained(v, v1, i) && Polled(v1, v', i + 1)
    ensures Polled(v, v', i)
  {
    forall j: nat
      ensures IsServed(v1, i + 1, j) <==> IsServed(v, i, j) && j != i
    {
      ServedLater(v, v1, i, j);
    }
    assert FirstHolder(v, i, i);
    hide Drained;
    DrainedSlots(v, v1, v', i);
    DrainedInboxes(v, v1, v', i);
    DrainedTasks(v, v1, v', i);
  }

  lemma DrainedSlots(v: State, v1: State, v': State, i: nat)
    requires Live(v, i) && Drained(v, v1, i) && Polled(v1, v', i + 1) && FirstHolder(v, i, i)
    requires forall j: nat :: IsServed(v1, i + 1, j) <==> IsServed(v, i, j) && j != i
    ensures |v'.servers| == |v.servers| && v'.timers == v.timers && v'.tick == v.tick && v'.shared == v.shared
    ensures forall j: nat | j < |v.servers| :: v'.servers[j] ==
              if IsServed(v, i, j)
              then v.servers[j].(queue := v.servers[j].queue + Of(v.inbox, v.servers[j].sid), waker := None)
              else v.servers[j]
  {
    forall j: nat | j < |v.servers|
      ensures v'.servers[j] ==
              if IsServed(v, i, j)
              then v.servers[j].(queue := v.servers[j].queue + Of(v.inbox, v.servers[j].sid), waker := None)
              else v.servers[j]
    {
      if IsServed(v, i, j) && j != i { assert Of(v1.inbox, v.servers[j].sid) == Of(v.inbox, v.servers[j].sid); }
    }
  }

  lemma DrainedInboxes(v: State, v1: State, v': State, i: nat)
    requires Live(v, i) && Drained(v, v1, i) && Polled(v1, v', i + 1)
    ensures forall sid :: Of(v'.inbox, sid) ==
              if exists j: nat :: i <= j && Live(v, j) && v.servers[j].sid == sid then [] else Of(v.inbox, sid)
  {
    assert forall m: nat :: Live(v1, m) <==> Live(v, m);
    assert forall m: nat | m < |v.servers| :: v1.servers[m].sid == v.servers[m].sid;
  }

  lemma DrainedTasks(v: State, v1: State, v': State, i: nat)
    requires Live(v, i) && Drained(v, v1, i) && Polled(v1, v', i + 1) && FirstHolder(v, i, i)
    requires forall j: nat :: IsServed(v1, i + 1, j) <==> IsServed(v, i, j) && j != i
    ensures forall t :: t in v'.ready <==>
              t in v.ready || exists j: nat :: IsServed(v, i, j) && v.servers[j].waker == Some(t)
  {
  }

  lemma SkippedThenPolled(v: State, v': State, i: nat)
    requires i < |v.servers| && !v.servers[i].active && Polled(v, v', i + 1)
    ensures Polled(v, v', i)
  {
    assert !Live(v, i);
    assert forall j: nat :: FirstHolder(v, i, j) <==> FirstHolder(v, i + 1, j);
    assert forall j: nat :: IsServed(v, i, j) <==> IsServed(v, i + 1, j);
  }

  /**
   Draining keeps what always holds; it leaves nothing waiting for a live slot, a slot that is alone with
   its server gets what waited, in order and after what it has, and a task that is parked at a slot is
   woken if there was anything for it.
   */
  lemma {:induction false} PollServersOk(v: State, i: nat)
    requires Sound(v)
    ensures var v' := PollServers(v, i);
      && Sound(v') && WholeStay(v, v') && SameHolders(v, v') && Polled(v, v', i)
      && v.ready <= v'.ready
      && (forall j: nat | i <= j && Live(v, j) :: Of(v'.inbox, v.servers[j].sid) == [])
      && (forall j: nat | i <= j && Alone(v, j) ::
            && v'.servers[j].queue == v.servers[j].queue + Of(v.inbox, v.servers[j].sid)
            && (v.servers[j].waker.Some? && Of(v.inbox, v.servers[j].sid) != [] ==>
                v.servers[j].waker.value in v'.ready))
    decreases |v.servers| - i
  {
    PollServersExact(v, i);
    forall j: nat | i <= j && Alone(v, j)
      ensures j < |v.servers| && (IsServed(v, i, j) <==> Of(v.inbox, v.servers[j].sid) != [])
    {
      assert FirstHolder(v, i, j);
    }
    hide Sound, Whole, StreamOk, DrainSlot, Polled;
    PollServersSound(v, i);
    AloneServed(v, PollServers(v, i), i);
  }

  lemma AloneServed(v: State, v': State, i: nat)
    requires Polled(v, v', i)
    requires forall j: nat | i <= j && Alone(v, j) ::
               j < |v.servers| && (IsServed(v, i, j) <==> Of(v.inbox, v.servers[j].sid) != [])
    ensures v.ready <= v'.ready && |v'.servers| == |v.servers|
    ensures forall j: nat | i <= j && Live(v, j) :: Of(v'.inbox, v.servers[j].sid) == []
    ensures forall j: nat | i <= j && Alone(v, j) ::
              && v'.servers[j].queue == v.servers[j].queue + Of(v.inbox, v.servers[j].sid)
              && (v.servers[j].waker.Some? && Of(v.inbox, v.servers[j].sid) != [] ==>
                  v.servers[j].waker.value in v'.ready)
  {
  }

  lemma {:induction false} PollServersSound(v: State, i: nat)
    requires Sound(v)
    ensures var v' := PollServers(v, i);
      Sound(v') && WholeStay(v, v') && SameHolders(v, v')
    decreases |v.servers| - i
  {
    hide Sound, Whole, StreamOk, DrainSlot;
    if i < |v.servers| {
      if v.servers[i].active { DrainSlotOk(v, i); }
      PollServersSound(if v.servers[i].active then DrainSlot(v, i) else v, i + 1);
    }
  }

  lemma RegisterSlots(v: State, sid: nat)
    ensures var (v', id) := Register(v, sid);
      && v' == v.(servers := v'.servers, shared := v'.shared) && !Live(v, id) && id < |v'.servers|
      && |v.servers| <= |v'.servers| <= |v.servers| + 1 && (|v.servers| < |v'.servers| ==> id == |v.servers|)
      && v'.servers[id] == ServerSlot(sid, [], None, true, |Of(v.handedOut, sid)|, [])
      && (forall i | 0 <= i < |v.servers| && i != id :: v'.servers[i] == v.servers[i])
      && (forall i: nat | i != id && i !in v'.shared :: i !in v.shared && !(Live(v, i) && v.servers[i].sid == sid))
      && (id !in v'.shared ==> forall i: nat | Live(v, i) :: v.servers[i].sid != sid)
  {
    hide Of;
    assert forall i: nat :: i in Holders(v, sid) <==> Live(v, i) && v.servers[i].sid == sid;
  }

  /** Slots of other servers keep their streams when a slot is opened. */
  lemma RegisterWhole(v: State, sid: nat, j: nat)
    requires Whole(v, j) && v.servers[j].sid != sid
    ensures Whole(Register(v, sid).0, j) && Register(v, sid).0.servers[j] == v.servers[j]
  {
    hide Register;
    RegisterSlots(v, sid);
  }

  /** A new handle gets a slot that no live handle holds, and nobody else's slot changes. */
  lemma RegisterOk(v: State, sid: nat)
    requires Sound(v)
    ensures var (v', id) := Register(v, sid);
      && Sound(v') && !Live(v, id) && (forall i: nat :: Live(v', i) <==> Live(v, i) || i == id)
      && (forall i: nat | Live(v, i) :: v'.servers[i] == v.servers[i])
      && v'.servers[id].sid == sid && v'.servers[id].took == [] && v'.servers[id].queue == []
  {
    hide Register;
    RegisterSlots(v, sid);
    var (v', id) := Register(v, sid);
    forall i: nat | Live(v', i) && i !in v'.shared
      ensures Whole(v', i)
    {
      if i != id { RegisterWhole(v, sid, i); }
    }
  }

  lemma UnregisterOk(v: State, id: nat)
    requires Sound(v)
    ensures var v' := Unregister(v, id);
      && Sound(v') && WholeStay(v, v') && (forall i: nat :: Live(v', i) <==> Live(v, i) && i != id)
      && (forall i: nat | Live(v', i) :: v'.servers[i] == v.servers[i])
  {
    if id < |v.servers| { ServersOk(v, Unregister(v, id), id); }
  }

  // ---- Timers -----------------------------------------------------------------------------------

  predicate LiveTimer(v: State, i: nat) {
    i < |v.timers| && v.timers[i].active
  }

  /** Only the timers and the flags change. */
  lemma TimersSound(v: State, v': State)
    requires Sound(v) && v' == v.(timers := v'.timers, tick := v'.tick, ready := v'.ready)
    requires forall i | 0 <= i < |v'.timers| :: TimerSlotOk(v'.tick, v'.timers[i])
    ensures Sound(v')
  {
    SameServers(v, v');
  }

  /** The streams depend on the slots and on what was handed out for them. */
  lemma SameServers(v: State, v': State)
    requires v'.servers == v.servers && v'.handedOut == v.handedOut
    ensures forall j: nat :: Whole(v', j) <==> Whole(v, j)
  {
    assert forall j: nat :: Live(v', j) <==> Live(v, j);
  }

  /** A timer that has to wait is not due, and its waker is parked; it is done exactly from its deadline on. */
  lemma PollTimerOk(v: State, slot: Option<nat>, delay: nat, task: TaskId)
    requires Sound(v) && (slot.Some? ==> LiveTimer(v, slot.value))
    ensures var (v', slot', done) := PollTimer(v, slot, delay, task);
      && Sound(v') && v'.servers == v.servers && v'.handedOut == v.handedOut && v'.tick == v.tick
      && (done <==> v.tick >= if slot.Some? then v.timers[slot.value].deadline else v.tick + delay)
      && (done <==> slot'.None?)
      && (slot'.Some? ==>
            && LiveTimer(v', slot'.value) && v'.timers[slot'.value].waker == Some(task)
            && (slot.Some? ==> slot' == slot)
            && v'.timers[slot'.value].deadline ==
               if slot.Some? then v.timers[slot.value].deadline else v.tick + delay)
      && (slot.None? && slot'.Some? ==> !LiveTimer(v, slot'.value))
      && (forall i: nat | LiveTimer(v, i) && slot != Some(i) :: i < |v'.timers| && v'.timers[i] == v.timers[i])
  {
    TimersSound(v, PollTimer(v, slot, delay, task).0);
  }

  /** Timer `j` is live, from `i` on, and its deadline has come. */
  predicate Due(v: State, i: nat, j: nat) {
    i <= j && LiveTimer(v, j) && v.tick >= v.timers[j].deadline
  }

  lemma {:induction false} WakeTimersExact(v: State, i: nat)
    ensures var v' := WakeTimers(v, i);
      && v' == v.(timers := v'.timers, ready := v'.ready) && |v'.timers| == |v.timers|
      && (forall j: nat | j < |v.timers| ::
            v'.timers[j] == if Due(v, i, j) then v.timers[j].(waker := None) else v.timers[j])
      && (forall t :: t in v'.ready <==> t in v.ready || exists j: nat :: Due(v, i, j) && v.timers[j].waker == Some(t))
    decreases |v.timers| - i
  {
    if i < |v.timers| {
      var t := v.timers[i];
      var v1 := if t.active && v.tick >= t.deadline && t.waker.Some?
        then v.(timers := v.timers[i := t.(waker := None)], ready := v.ready + {t.waker.value}) else v;
      WakeTimersExact(v1, i + 1);
      forall j: nat
        ensures Due(v1, i + 1, j) <==> Due(v, i, j) && j != i
      {
      }
      assert Due(v, i, i) <==> t.active && v.tick >= t.deadline;
    }
  }

  /** A tick wakes the tasks of all timers that have become due, and nobody else; the other timers keep their wakers. */
  lemma PollTimersOk(v: State)
    requires Sound(v)
    ensures var v' := PollTimers(v);
      && Sound(v') && v'.tick == v.tick + 1 && v'.servers == v.servers && v'.handedOut == v.handedOut
      && |v'.timers| == |v.timers| && v'.inbox == v.inbox
      && (forall i: nat | i < |v.timers| ::
            v'.timers[i] == if LiveTimer(v, i) && v.tick + 1 >= v.timers[i].deadline then v.timers[i].(waker := None)
                            else v.timers[i])
      && (forall t :: t in v'.ready <==>
            t in v.ready ||
            exists i: nat :: LiveTimer(v, i) && v.tick + 1 >= v.timers[i].deadline && v.timers[i].waker == Some(t))
  {
    var v1 := v.(tick := v.tick + 1);
    WakeTimersExact(v1, 0);
    assert forall i: nat :: Due(v1, 0, i) <==> LiveTimer(v, i) && v.tick + 1 >= v.timers[i].deadline;
    TimersSound(v, PollTimers(v));
  }

  lemma UnregisterTimerOk(v: State, id: nat)
    requires Sound(v)
    ensures Sound(UnregisterTimer(v, id))
    ensures forall i: nat :: LiveTimer(UnregisterTimer(v, id), i) <==> LiveTimer(v, i) && i != id
    ensures forall i: nat | LiveTimer(v, i) && i != id :: UnregisterTimer(v, id).timers[i] == v.timers[i]
  {
    TimersSound(v, UnregisterTimer(v, id));
  }

  // ---- Whole runs -------------------------------------------------------------------------------

  /** What happens around the reactor; a timer is polled or dropped through the slot it holds. */
  datatype Event =
    | Arrives(sid: nat, message: Envelope)
    | Registers(sid: nat)
    | Drops(id: nat)
    | Receives(id: nat, task: TaskId)
    | TimerPolled(slot: Option<nat>, delay: nat, task: TaskId)
    | TimerDropped(timer: nat)
    | Ticks

  predicate Possible(v: State, e: Event) {
    e.TimerPolled? && e.slot.Some? ==> LiveTimer(v, e.slot.value)
  }

  function Apply(v: State, e: Event): State {
    match e
    case Arrives(sid, m) => v.(inbox := v.inbox[sid := Of(v.inbox, sid) + [m]])
    case Registers(sid) => Register(v, sid).0
    case Drops(id) => Unregister(v, id)
    case Receives(id, task) => PollRecv(v, id, task).0
    case TimerPolled(slot, delay, task) => PollTimer(v, slot, delay, task).0
    case TimerDropped(id) => UnregisterTimer(v, id)
    case Ticks => PollTimers(PollServers(v, 0))
  }

  lemma ApplySound(v: State, e: Event)
    requires Sound(v) && Possible(v, e)
    ensures Sound(Apply(v, e))
  {
    match e
    case Arrives(sid, m) => SameServers(v, Apply(v, e));
    case Registers(sid) => RegisterOk(v, sid);
    case Drops(id) => UnregisterOk(v, id);
    case Receives(id, task) => PollRecvOk(v, id, task);
    case TimerPolled(slot, delay, task) => PollTimerOk(v, slot, delay, task);
    case TimerDropped(id) => UnregisterTimerOk(v, id);
    case Ticks =>
      PollServersOk(v, 0);
      PollTimersOk(PollServers(v, 0));
  }

  /**
   No wake-up is lost.  Whatever happens, a task that is parked at a slot stays parked there or is ready,
   unless the slot is dropped or polled anew; and a task that is ready stays so.
   */
  lemma WakerKept(v: State, e: Event, i: nat, t: TaskId)
    requires Sound(v) && Possible(v, e) && Live(v, i) && v.servers[i].waker == Some(t)
    requires e != Drops(i) && !(e.Receives? && e.id == i)
    ensures var v' := Apply(v, e);
      t in v'.ready || (Live(v', i) && v'.servers[i].waker == Some(t))
  {
    hide Sound, Whole, StreamOk, Register, PollServers, PollTimers, PollTimer, TryRecv, Polled;
    match e
    case Arrives(sid, m) =>
    case Registers(sid) => RegisterOk(v, sid);
    case Drops(id) => UnregisterOk(v, id);
    case Receives(id, task) => OtherReceives(v, id, task);
    case TimerPolled(slot, delay, task) => PollTimerOk(v, slot, delay, task);
    case TimerDropped(id) =>
    case Ticks =>
      PollServersOk(v, 0);
      PollTimersOk(PollServers(v, 0));
      WakerUsed(v, PollServers(v, 0), i, t);
  }

  lemma OtherReceives(v: State, id: nat, task: TaskId)
    ensures var v' := PollRecv(v, id, task).0;
      && v'.ready == v.ready && v'.timers == v.timers && |v'.servers| == |v.servers|
      && forall i | 0 <= i < |v.servers| && i != id :: v'.servers[i] == v.servers[i]
  {
  }

  lemma WakerUsed(v: State, v': State, i: nat, t: TaskId)
    requires Polled(v, v', 0) && Live(v, i) && v.servers[i].waker == Some(t)
    ensures t in v'.ready || (Live(v', i) && v'.servers[i].waker == Some(t))
  {
  }

  /** The same for a task that waits for a timer. */
  lemma TimerWakerKept(v: State, e: Event, i: nat, t: TaskId)
    requires Sound(v) && Possible(v, e) && LiveTimer(v, i) && v.timers[i].waker == Some(t)
    requires e != TimerDropped(i) && !(e.TimerPolled? && e.slot == Some(i))
    ensures var v' := Apply(v, e);
      t in v'.ready || (LiveTimer(v', i) && v'.timers[i].waker == Some(t))
  {
    hide Sound, Whole, StreamOk, Register, PollServers, PollTimers, PollTimer, TryRecv;
    match e
    case Arrives(sid, m) =>
    case Registers(sid) => RegisterSlots(v, sid);
    case Drops(id) =>
    case Receives(id, task) => OtherReceives(v, id, task);
    case TimerPolled(slot, delay, task) => PollTimerOk(v, slot, delay, task);
    case TimerDropped(id) => UnregisterTimerOk(v, id);
    case Ticks =>
      PollServersOk(v, 0);
      PollTimersOk(PollServers(v, 0));
  }

  /** Flags that are up stay up. */
  lemma ReadyStays(v: State, e: Event)
    requires Sound(v) && Possible(v, e)
    ensures v.ready <= Apply(v, e).ready
  {
    hide Sound, Whole, StreamOk, Register, PollServers, PollTimers, TryRecv;
    match e
    case Arrives(sid, m) =>
    case Registers(sid) => RegisterSlots(v, sid);
    case Drops(id) =>
    case Receives(id, task) => OtherReceives(v, id, task);
    case TimerPolled(slot, delay, task) =>
    case TimerDropped(id) =>
    case Ticks =>
      PollServersOk(v, 0);
      PollTimersOk(PollServers(v, 0));
  }

  function ApplyAll(v: State, es: seq<Event>): State
    decreases |es|
  {
    if es == [] then v else ApplyAll(Apply(v, es[0]), es[1..])
  }

  ghost predicate AllPossible(v: State, es: seq<Event>)
    decreases |es|
  {
    es != [] ==> Possible(v, es[0]) && AllPossible(Apply(v, es[0]), es[1..])
  }

  lemma {:induction false} RunSound(v: State, es: seq<Event>)
    requires Sound(v) && AllPossible(v, es)
    ensures Sound(ApplyAll(v, es))
    decreases |es|
  {
    if es == [] {
    } else {
      ApplySound(v, es[0]);
      RunSound(Apply(v, es[0]), es[1..]);
    }
  }

  /** Slot `i` is neither dropped nor polled. */
  predicate LeavesSlot(e: Event, i: nat) {
    e != Drops(i) && !(e.Receives? && e.id == i)
  }

  /** Over any run that leaves the slot alone, a task parked at it stays parked there or has been woken. */
  lemma {:induction false} WakerKeptOverRun(v: State, es: seq<Event>, i: nat, t: TaskId)
    requires Sound(v) && AllPossible(v, es) && (forall j | 0 <= j < |es| :: LeavesSlot(es[j], i))
    requires t in v.ready || (Live(v, i) && v.servers[i].waker == Some(t))
    ensures var v' := ApplyAll(v, es);
      t in v'.ready || (Live(v', i) && v'.servers[i].waker == Some(t))
    decreases |es|
  {
    if es == [] {
    } else {
      hide Sound, Apply;
      assert LeavesSlot(es[0], i);
      ApplySound(v, es[0]);
      ReadyStays(v, es[0]);
      if t !in v.ready { WakerKept(v, es[0], i, t); }
      WakerKeptOverRun(Apply(v, es[0]), es[1..], i, t);
    }
  }

  /** After a tick a task is parked at a slot only if there is nothing for it, neither buffered nor in the kernel. */
  lemma ParkedForNothing(v: State, i: nat)
    requires Sound(v)
    ensures var v' := Apply(v, Ticks);
      Live(v', i) && v'.servers[i].waker.Some? ==> v'.servers[i].queue == [] && Of(v'.inbox, v'.servers[i].sid) == []
  {
    hide PollServers, PollTimers, Polled;
    PollServersOk(v, 0);
    PollTimersOk(PollServers(v, 0));
    var v' := Apply(v, Ticks);
    assert Live(v', i) ==> ServerSlotOk(v'.servers[i]);
  }

  function Initial(): State {
    State([], [], 0, {}, map[], map[], {})
  }

  /**
   In every run: what the holder of a slot received that has never shared its server, followed by what is
   buffered, is what the kernel handed out since the slot was registered; a slot with something in its
   buffer has no parked waker; and no parked timer is due.
   */
  lemma DeliveredInOrder(es: seq<Event>, i: nat)
    requires AllPossible(Initial(), es) && Live(ApplyAll(Initial(), es), i)
    ensures var v := ApplyAll(Initial(), es);
      var s := v.servers[i];
      && (i !in v.shared ==> s.base <= |Of(v.handedOut, s.sid)| && Of(v.handedOut, s.sid)[s.base..] == s.took + s.queue)
      && (s.queue != [] ==> s.waker.None?)
      && (forall t: nat | t < |v.timers| && v.timers[t].waker.Some? ::
            v.timers[t].active && v.tick < v.timers[t].deadline)
  {
    RunSound(Initial(), es);
    var v := ApplyAll(Initial(), es);
    assert i !in v.shared ==> Whole(v, i);
    assert forall t: nat | t < |v.timers| :: TimerSlotOk(v.tick, v.timers[t]);
  }

  // ---- Nothing is lost on the way ---------------------------------------------------------------

  /** All that has ever reached server `sid`. */
  function Total(v: State, sid: nat): seq<Envelope> {
    Of(v.handedOut, sid) + Of(v.inbox, sid)
  }

  lemma HandOutTotal(v: State, sid: nat, t: nat)
    ensures Total(HandOut(v, sid).0, t) == Total(v, t)
  {
    var w := Of(v.inbox, sid);
    if w != [] { assert [w[0]] + w[1..] == w; }
  }

  lemma {:induction false} DrainTotal(v: State, i: nat, t: nat)
    requires i < |v.servers|
    ensures Total(DrainSlot(v, i), t) == Total(v, t)
    decreases |Of(v.inbox, v.servers[i].sid)|
  {
    HandOutTotal(v, v.servers[i].sid, t);
    if BufferOne(v, i).1 { DrainTotal(BufferOne(v, i).0, i, t); }
  }

  lemma {:induction false} PollServersTotal(v: State, i: nat, t: nat)
    ensures Total(PollServers(v, i), t) == Total(v, t)
    decreases |v.servers| - i
  {
    if i < |v.servers| {
      DrainTotal(v, i, t);
      PollServersTotal(if v.servers[i].active then DrainSlot(v, i) else v, i + 1, t);
    }
  }

  function Arrived(e: Event, sid: nat): seq<Envelope> {
    if e.Arrives? && e.sid == sid then [e.message] else []
  }

  lemma ApplyTotal(v: State, e: Event, t: nat)
    ensures Total(Apply(v, e), t) == Total(v, t) + Arrived(e, t)
  {
    hide HandOut, PollServers, WakeTimers, FirstInactive, FirstIdle, Holders, PollRecv, PollTimer, PollTimers,
         Register, Unregister, UnregisterTimer;
    match e
    case Arrives(_, _) =>
    case Receives(id, task) => ReceivesTotal(v, id, task, t);
    case Ticks => TicksTotal(v, t);
    case _ => BookkeepingTotal(v, e, t);
  }

  lemma ReceivesTotal(v: State, id: nat, task: nat, t: nat)
    ensures Total(Apply(v, Receives(id, task)), t) == Total(v, t)
  {
    hide HandOut;
    if Live(v, id) { HandOutTotal(v, v.servers[id].sid, t); }
  }

  /** Registering and dropping handles and timers moves no message. */
  lemma BookkeepingTotal(v: State, e: Event, t: nat)
    requires e.Registers? || e.Drops? || e.TimerPolled? || e.TimerDropped?
    ensures Total(Apply(v, e), t) == Total(v, t)
  {
    hide FirstInactive, FirstIdle, Holders;
  }

  lemma TicksTotal(v: State, t: nat)
    ensures Total(Apply(v, Ticks), t) == Total(v, t)
  {
    hide PollServers, WakeTimers;
    PollServersTotal(v, 0, t);
    var v1 := PollServers(v, 0);
    WakeTimersExact(v1.(tick := v1.tick + 1), 0);
  }

  lemma {:induction false} DrainTick(v: State, i: nat)
    requires i < |v.servers|
    ensures DrainSlot(v, i).tick == v.tick && DrainSlot(v, i).timers == v.timers
    decreases |Of(v.inbox, v.servers[i].sid)|
  {
    if BufferOne(v, i).1 { DrainTick(BufferOne(v, i).0, i); }
  }

  lemma {:induction false} PollServersTick(v: State, i: nat)
    ensures PollServers(v, i).tick == v.tick && PollServers(v, i).timers == v.timers
    decreases |v.servers| - i
  {
    if i < |v.servers| {
      DrainTick(v, i);
      PollServersTick(if v.servers[i].active then DrainSlot(v, i) else v, i + 1);
    }
  }

  function AllArrived(es: seq<Event>, sid: nat): seq<Envelope> {
    if es == [] then [] else Arrived(es[0], sid) + AllArrived(es[1..], sid)
  }

  /** What the kernel handed out, followed by what still waits in it, is what was sent to the server, in order. */
  lemma {:induction false} NothingLost(v: State, es: seq<Event>, sid: nat)
    ensures Total(ApplyAll(v, es), sid) == Total(v, sid) + AllArrived(es, sid)
    decreases |es|
  {
    hide Apply, Total, Arrived;
    if es == [] {
    } else {
      ApplyTotal(v, es[0], sid);
      NothingLost(Apply(v, es[0]), es[1..], sid);
      assert Total(v, sid) + Arrived(es[0], sid) + AllArrived(es[1..], sid) ==
             Total(v, sid) + (Arrived(es[0], sid) + AllArrived(es[1..], sid));
    }
  }

  // ---- Timers fire on time ----------------------------------------------------------------------

  predicate Concerns(e: Event, id: nat) {
    e == TimerDropped(id) || (e.TimerPolled? && e.slot == Some(id))
  }

  function TickCount(es: seq<Event>): nat {
    if es == [] then 0 else (if es[0].Ticks? then 1 else 0) + TickCount(es[1..])
  }

  /** What other handles do leaves a timer's deadline alone. */
  lemma TimerKept(v: State, e: Event, id: nat)
    requires Sound(v) && Possible(v, e) && LiveTimer(v, id) && !Concerns(e, id)
    ensures var v' := Apply(v, e);
      LiveTimer(v', id) && v'.timers[id].deadline == v.timers[id].deadline &&
          v'.tick == v.tick + if e.Ticks? then 1 else 0
  {
    match e
    case TimerPolled(slot, delay, task) => PollTimerOk(v, slot, delay, task);
    case Ticks =>
      PollServersOk(v, 0);
      PollServersTick(v, 0);
      PollTimersOk(PollServers(v, 0));
    case _ =>
  }

  lemma {:induction false} TimerKeptAll(v: State, es: seq<Event>, id: nat)
    requires Sound(v) && AllPossible(v, es) && LiveTimer(v, id) && forall i | 0 <= i < |es| :: !Concerns(es[i], id)
    ensures var v' := ApplyAll(v, es);
      LiveTimer(v', id) && v'.timers[id].deadline == v.timers[id].deadline && v'.tick == v.tick + TickCount(es)
    decreases |es|
  {
    if es == [] {
    } else {
      TimerKept(v, es[0], id);
      ApplySound(v, es[0]);
      TimerKeptAll(Apply(v, es[0]), es[1..], id);
    }
  }

  /** A timer that was first polled before `es` is done after them exactly if `delay` ticks have passed. */
  lemma TimerFiresOnTime(v: State, delay: nat, task: TaskId, es: seq<Event>, later: TaskId)
    requires Sound(v) && PollTimer(v, None, delay, task).1.Some?
    requires var (v1, slot, _) := PollTimer(v, None, delay, task);
      AllPossible(v1, es) && forall i | 0 <= i < |es| :: !Concerns(es[i], slot.value)
    ensures var (v1, slot, _) := PollTimer(v, None, delay, task);
      PollTimer(ApplyAll(v1, es), slot, delay, later).2 <==> TickCount(es) >= delay
  {
    var (v1, slot, done) := PollTimer(v, None, delay, task);
    PollTimerOk(v, None, delay, task);
    TimerKeptAll(v1, es, slot.value);
    RunSound(v1, es);
    PollTimerOk(ApplyAll(v1, es), slot, delay, later);
  }

  // ---- Slots that share a server ----------------------------------------------------------------

  /** Slot `j` stays, and no other slot of its server is opened. */
  predicate Spares(e: Event, j: nat, sid: nat) {
    e != Drops(j) && e != Registers(sid)
  }

  /** A continuation that spares slot `j`. */
  ghost predicate Continues(v: State, es: seq<Event>, j: nat)
    requires Live(v, j)
  {
    AllPossible(v, es) && forall i | 0 <= i < |es| :: Spares(es[i], j, v.servers[j].sid)
  }

  lemma WholeStep(v: State, e: Event, j: nat)
    requires Sound(v) && Possible(v, e) && Whole(v, j) && Spares(e, j, v.servers[j].sid)
    ensures Whole(Apply(v, e), j) && Apply(v, e).servers[j].sid == v.servers[j].sid
  {
    hide Sound, Whole, Register, PollRecv, PollServers, PollTimer, PollTimers, Unregister, UnregisterTimer;
    match e
    case Arrives(sid, m) => SameServers(v, Apply(v, e));
    case Registers(sid) => RegisterWhole(v, sid, j);
    case Drops(id) => UnregisterOk(v, id); WholeLive(v, j);
    case Receives(id, task) => PollRecvOk(v, id, task); WholeLive(v, j);
    case TimerPolled(slot, delay, task) => PollTimerOk(v, slot, delay, task); SameServers(v, Apply(v, e));
    case TimerDropped(id) => TimerDropServers(v, id); SameServers(v, Apply(v, e));
    case Ticks =>
      PollServersOk(v, 0);
      WholeLive(v, j);
      PollTimersOk(PollServers(v, 0));
      SameServers(PollServers(v, 0), Apply(v, e));
  }

  lemma WholeLive(v: State, j: nat)
    requires Whole(v, j)
    ensures Live(v, j)
  {
  }

  lemma TimerDropServers(v: State, id: nat)
    ensures UnregisterTimer(v, id).servers == v.servers && UnregisterTimer(v, id).handedOut == v.handedOut
  {
  }

  lemma {:induction false} WholeForever(v: State, es: seq<Event>, j: nat)
    requires Sound(v) && Whole(v, j) && Continues(v, es, j)
    ensures Whole(ApplyAll(v, es), j) && ApplyAll(v, es).servers[j].sid == v.servers[j].sid
    decreases |es|
  {
    if es == [] {
    } else {
      var v1 := Apply(v, es[0]);
      WholeStep(v, es[0], j);
      ApplySound(v, es[0]);
      hide Sound, Apply, Whole;
      WholeLive(v1, j);
      assert forall i | 0 <= i < |es[1..]| :: es[1..][i] == es[i + 1];
      WholeForever(v1, es[1..], j);
    }
  }

  /** The task of slot `i` receives `n` times. */
  function Receiving(i: nat, n: nat): seq<Event> {
    if n == 0 then [] else [Receives(i, 0)] + Receiving(i, n - 1)
  }

  lemma {:induction false} ReceivingSpares(v: State, i: nat, n: nat, j: nat, sid: nat)
    ensures AllPossible(v, Receiving(i, n))
    ensures forall m | 0 <= m < n == |Receiving(i, n)| :: Spares(Receiving(i, n)[m], j, sid)
    ensures |Receiving(i, n)| == n
    decreases n
  {
    hide Apply;
    if n == 0 {
    } else {
      var rest := Receiving(i, n - 1);
      assert Receiving(i, n)[1..] == rest;
      ReceivingSpares(Apply(v, Receives(i, 0)), i, n - 1, j, sid);
      assert forall m | 1 <= m < n :: Receiving(i, n)[m] == rest[m - 1];
    }
  }

  lemma ReceiveOne(v: State, i: nat, j: nat)
    requires Live(v, i) && Live(v, j) && i != j && Of(v.inbox, v.servers[i].sid) != []
    ensures var v' := Apply(v, Receives(i, 0));
      var s, s' := v.servers[i], v'.servers[i];
      && |v'.servers| == |v.servers| && v'.servers[j] == v.servers[j] && s'.sid == s.sid && s'.active
      && (if s.queue != [] then s'.queue == s.queue[1..] && v'.inbox == v.inbox && v'.handedOut == v.handedOut
          else |Of(v'.handedOut, s.sid)| == |Of(v.handedOut, s.sid)| + 1)
  {
  }

  /**
   Once the buffer of slot `i` is used up its next receive takes a message out of the kernel that
   slot `j` does not get.
   */
  lemma {:induction false} OtherTakes(v: State, i: nat, j: nat)
    requires Live(v, i) && Live(v, j) && i != j && Of(v.inbox, v.servers[i].sid) != []
    ensures var v' := ApplyAll(v, Receiving(i, |v.servers[i].queue| + 1));
      && Live(v', j) && v'.servers[j] == v.servers[j]
      && |Of(v'.handedOut, v.servers[i].sid)| == |Of(v.handedOut, v.servers[i].sid)| + 1
    decreases |v.servers[i].queue|
  {
    var n := |v.servers[i].queue|;
    var v1 := Apply(v, Receives(i, 0));
    ReceiveOne(v, i, j);
    hide Apply;
    assert Receiving(i, n + 1)[1..] == Receiving(i, n);
    assert ApplyAll(v, Receiving(i, n + 1)) == ApplyAll(v1, Receiving(i, n));
    if n == 0 {
    } else {
      OtherTakes(v1, i, j);
    }
  }

  function AnyMessage(): Envelope {
    Envelope(0, 0, Scalar(ScalarBody(0, 0, 0, 0, 0)))
  }

  /** A message arrives, and the task of slot `i` receives until it has taken one out of the kernel. */
  function Splitting(v: State, i: nat): seq<Event>
    requires Live(v, i)
  {
    [Arrives(v.servers[i].sid, AnyMessage())] + Receiving(i, |v.servers[i].queue| + 1)
  }

  /** If another live slot has the server, a complete stream does not stay so. */
  lemma SharedMisses(v: State, i: nat, j: nat)
    requires Live(v, i) && Live(v, j) && i != j && v.servers[i].sid == v.servers[j].sid && StreamOk(v, v.servers[j])
    ensures Continues(v, Splitting(v, i), j) && !CompleteAfter(v, Splitting(v, i), j)
  {
    var sid, n := v.servers[j].sid, |v.servers[i].queue| + 1;
    var e := Arrives(sid, AnyMessage());
    var v1 := Apply(v, e);
    var es := Splitting(v, i);
    assert es[0] == e && es[1..] == Receiving(i, n);
    ReceivingSpares(v1, i, n, j, sid);
    assert forall m | 1 <= m < |es| :: es[m] == Receiving(i, n)[m - 1];
    OtherTakes(v1, i, j);
    assert ApplyAll(v, es) == ApplyAll(v1, Receiving(i, n));
  }

  /** Slot `j` has a complete stream after `es`. */
  predicate CompleteAfter(v: State, es: seq<Event>, j: nat) {
    var v' := ApplyAll(v, es);
    Live(v', j) && StreamOk(v', v'.servers[j])
  }

  /**
   The exact condition for a complete stream: as long as slot `j` stays and no further slot of its server
   is opened, its stream is complete in every continuation iff it is complete now and no other live slot
   has the server.
   */
  lemma CompleteIffAlone(v: State, j: nat)
    requires Sound(v) && Live(v, j)
    ensures (forall es | Continues(v, es, j) :: CompleteAfter(v, es, j)) <==> StreamOk(v, v.servers[j]) && Alone(v, j)
  {
    hide Sound, Apply, StreamOk;
    if !StreamOk(v, v.servers[j]) {
      assert Continues(v, [], j) && !CompleteAfter(v, [], j);
    } else if !Alone(v, j) {
      var i: nat :| Live(v, i) && v.servers[i].sid == v.servers[j].sid && i != j;
      SharedMisses(v, i, j);
    } else {
      forall es | Continues(v, es, j)
        ensures CompleteAfter(v, es, j)
      {
        WholeForever(v, es, j);
      }
    }
  }

  /**
   An instance from the start: with a second slot for the same server, a slot gets only a part of
   what the kernel hands out.
   */
  lemma SecondSlotSplits(m: Envelope)
    ensures var v := ApplyAll(Initial(), [Registers(7), Registers(7), Arrives(7, m), Receives(0, 1)]);
      Live(v, 1) && v.servers[1].base == 0 && Of(v.handedOut, 7) == [m] && v.servers[1].took == v.servers[1].queue == []
  {
    var v1 := Apply(Initial(), Registers(7));
    assert v1.servers == [ServerSlot(7, [], None, true, 0, [])];
    var v2 := Apply(v1, Registers(7));
    assert v2.servers == [ServerSlot(7, [], None, true, 0, []), ServerSlot(7, [], None, true, 0, [])];
    var v3 := Apply(v2, Arrives(7, m));
    var v4 := Apply(v3, Receives(0, 1));
    assert v4.handedOut[7] == [m];
    assert ApplyAll(v3, [Receives(0, 1)]) == ApplyAll(v4, []) == v4;
    assert ApplyAll(v2, [Arrives(7, m), Receives(0, 1)]) == ApplyAll(v3, [Receives(0, 1)]);
    assert ApplyAll(v1, [Registers(7), Arrives(7, m), Receives(0, 1)]) == ApplyAll(v2, [Arrives(7, m), Receives(0, 1)]);
  }
}
