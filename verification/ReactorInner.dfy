/** The reactor updated in place (xous/async-rt/src/reactor.rs, server.rs, timer.rs). */
module ReactorInner {
  import opened Common
  import opened ServerQueue
  import opened Reactors

  class Reactor {
    var servers: seq<ServerSlot>
    var timers: seq<TimerSlot>
    var tick: nat
    var ready: set<TaskId>
    var inbox: map<nat, seq<Envelope>>
    var handedOut: map<nat, seq<Envelope>>
    ghost var shared: set<nat>

    ghost function View(): State
      reads this
    {
      State(servers, timers, tick, ready, inbox, handedOut, shared)
    }

    constructor ()
      ensures View() == Initial()
    {
      servers, timers, tick, ready, inbox, handedOut := [], [], 0, {}, map[], map[];
      shared := {};
    }

    method RegisterServer(sid: nat) returns (id: nat)
      modifies this`servers, this`shared
      ensures (View(), id) == Register(old(View()), sid)
    {
      ghost var others := Holders(View(), sid);
      var slot := ServerSlot(sid, [], None, true, |Of(handedOut, sid)|, []);
      id := 0;
      while id < |servers| && servers[id].active
        invariant 0 <= id <= |servers| && FirstInactive(servers, id) == FirstInactive(servers, 0)
      {
        id := id + 1;
      }
      shared := if others == {} then shared - {id} else shared + others + {id};
      servers := if id < |servers| then servers[id := slot] else servers + [slot];
    }

    method UnregisterServer(id: nat)
      modifies this`servers
      ensures View() == Unregister(old(View()), id)
    {
      if id < |servers| {
        servers := servers[id := servers[id].(active := false, queue := [], waker := None)];
      }
    }

    /** The kernel's non-blocking receive. */
    method TryReceiveMessage(sid: nat) returns (r: Option<Envelope>)
      modifies this`inbox, this`handedOut
      ensures (View(), r) == HandOut(old(View()), sid)
    {
      if sid !in inbox || inbox[sid] == [] { return None; }
      r := Some(inbox[sid][0]);
      handedOut := handedOut[sid := Of(handedOut, sid) + [r.value]];
      inbox := inbox[sid := inbox[sid][1..]];
    }

    method TryRecv(id: nat) returns (r: Option<Envelope>)
      modifies this`servers, this`inbox, this`handedOut
      ensures (View(), r) == Reactors.TryRecv(old(View()), id)
    {
      if id >= |servers| || !servers[id].active { return None; }
      var slot := servers[id];
      if slot.queue != [] {
        servers := servers[id := slot.(queue := slot.queue[1..], took := slot.took + [slot.queue[0]])];
        return Some(slot.queue[0]);
      }
      r := TryReceiveMessage(slot.sid);
      if r.Some? {
        servers := servers[id := slot.(took := slot.took + [r.value])];
      }
    }

    /** Poll the future that waits for the next message of slot `id`. */
    method PollNext(id: nat, task: TaskId) returns (r: Result<Option<Envelope>>)
      modifies this`servers, this`inbox, this`handedOut
      ensures (View(), r) == PollRecv(old(View()), id, task)
    {
      if id >= |servers| || !servers[id].active { return Err(ServerNotFound); }
      var m := TryRecv(id);
      if m.Some? { return Ok(m); }
      if id < |servers| {
        servers := servers[id := servers[id].(waker := Some(task))];
      }
      r := Ok(None);
    }

    /** Drain the kernel's messages for slot `i`; tells whether a task was woken. */
    method DrainServer(i: nat) returns (woke: bool)
      requires i < |servers|
      modifies this`servers, this`ready, this`inbox, this`handedOut
      ensures View() == DrainSlot(old(View()), i)
      ensures |servers| == |old(servers)| && forall j | 0 <= j < |servers| && j != i :: servers[j] == old(servers)[j]
      ensures woke <==> old(servers)[i].waker.Some? && servers[i].waker.None?
    {
      woke := false;
      var sid := servers[i].sid;
      while true
        invariant i < |servers| == |old(servers)| && servers[i].sid == sid &&
                  DrainSlot(View(), i) == DrainSlot(old(View()), i)
        invariant forall j | 0 <= j < |servers| && j != i :: servers[j] == old(servers)[j]
        invariant woke <==> old(servers)[i].waker.Some? && servers[i].waker.None?
        invariant servers[i].waker.Some? ==> servers[i].waker == old(servers)[i].waker
        decreases |Of(inbox, sid)|
      {
        var m := TryReceiveMessage(sid);
        if m.None? { break; }
        var slot := servers[i];
        servers := servers[i := slot.(queue := slot.queue + [m.value], waker := None)];
        if slot.waker.Some? {
          ready := ready + {slot.waker.value};
          woke := true;
        }
      }
    }

    method PollServers() returns (woke: bool)
      modifies this`servers, this`ready, this`inbox, this`handedOut
      ensures View() == Reactors.PollServers(old(View()), 0)
      ensures |servers| == |old(servers)|
      ensures woke <==> exists i :: 0 <= i < |servers| && old(servers)[i].waker.Some? && servers[i].waker.None?
    {
      woke := false;
      var i := 0;
      while i < |servers|
        invariant 0 <= i <= |servers| == |old(servers)| &&
                  Reactors.PollServers(View(), i) == Reactors.PollServers(old(View()), 0)
        invariant forall j | i <= j < |servers| :: servers[j] == old(servers)[j]
        invariant woke <==> exists j :: 0 <= j < i && old(servers)[j].waker.Some? && servers[j].waker.None?
      {
        if servers[i].active {
          var w := DrainServer(i);
          woke := woke || w;
        }
        i := i + 1;
      }
    }

    method AddTimer(delay: nat) returns (id: nat)
      modifies this`timers
      ensures (View(), id) == RegisterTimer(old(View()), delay)
    {
      var slot := TimerSlot(tick + delay, None, true);
      id := 0;
      while id < |timers| && timers[id].active
        invariant 0 <= id <= |timers| && FirstIdle(timers, id) == FirstIdle(timers, 0)
      {
        id := id + 1;
      }
      timers := if id < |timers| then timers[id := slot] else timers + [slot];
    }

    method DropTimer(id: nat)
      modifies this`timers
      ensures View() == UnregisterTimer(old(View()), id)
    {
      if id < |timers| {
        timers := timers[id := timers[id].(active := false, waker := None)];
      }
    }

    method PollTimers() returns (woke: bool)
      modifies this`timers, this`tick, this`ready
      ensures View() == Reactors.PollTimers(old(View()))
      ensures |timers| == |old(timers)|
      ensures woke <==> exists i :: 0 <= i < |timers| && old(timers)[i].waker.Some? && timers[i].waker.None?
    {
      tick := tick + 1;
      woke := false;
      var i := 0;
      while i < |timers|
        invariant 0 <= i <= |timers| == |old(timers)| && WakeTimers(View(), i) == Reactors.PollTimers(old(View()))
        invariant forall j | i <= j < |timers| :: timers[j] == old(timers)[j]
        invariant woke <==> exists j :: 0 <= j < i && old(timers)[j].waker.Some? && timers[j].waker.None?
      {
        var t := timers[i];
        if t.active && tick >= t.deadline && t.waker.Some? {
          timers := timers[i := t.(waker := None)];
          ready := ready + {t.waker.value};
          woke := true;
        }
        i := i + 1;
      }
    }
  }

  /** A future that completes after `delay` ticks. */
  class Timer {
    var slot: Option<nat>
    const delay: nat

    constructor (delay: nat)
      ensures slot == None && this.delay == delay
    {
      slot, this.delay := None, delay;
    }

    method Poll(r: Reactor, task: TaskId) returns (done: bool)
      modifies this, r`timers
      ensures (r.View(), slot, done) == PollTimer(old(r.View()), old(slot), delay, task)
    {
      var id: nat;
      if slot.Some? {
        id := slot.value;
      } else {
        id := r.AddTimer(delay);
        slot := Some(id);
      }
      if id < |r.timers| && r.timers[id].active && r.tick >= r.timers[id].deadline {
        r.DropTimer(id);
        slot := None;
        return true;
      }
      if id < |r.timers| {
        r.timers := r.timers[id := r.timers[id].(waker := Some(task))];
      }
      done := false;
    }
  }
}
