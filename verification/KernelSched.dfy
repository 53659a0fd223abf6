/** The coupling of thread states and rings, and the wake-ups that only the scheduler notices. */
module KernelSched {
  import opened Common
  import opened Rings
  import opened KernelState
  import opened KernelInv

  /** Changing anything but state and priority of a thread does not concern the scheduler. */
  ghost predicate SameSchedule(k: Kernel, k': Kernel) {
    && k'.limits == k.limits && k'.rings == k.rings && k'.inIrq == k.inIrq
    && k'.processes.Keys == k.processes.Keys
    && (forall p | p in k.processes :: |k'.processes[p].connections| == |k.processes[p].connections|)
    && k'.threads.Keys == k.threads.Keys
    && (forall x | x in k.threads ::
          k'.threads[x].state.Ready? == k.threads[x].state.Ready? && k'.threads[x].priority == k.threads[x].priority)
  }

  lemma SameScheduleBase(k: Kernel, k': Kernel)
    requires Base(k) && SameSchedule(k, k')
    ensures Base(k')
  {
    assert forall x :: IsReady(k', x) <==> IsReady(k, x);
    assert forall p, x :: InRing(k', p, x) <==> InRing(k, p, x);
    assert forall p, x :: BelongsIn(k', p, x) <==> BelongsIn(k, p, x);
  }

  lemma CoupledAdd(k: Kernel, x: Id, state: ThreadState)
    requires Shape(k) && Coupled(k) && x in k.threads && x.tid != IRQ_TID
    requires !k.threads[x].state.Ready? && state.Ready?
    ensures Coupled(SetState(k, x, state))
  {
    var k' := SetState(k, x, state);
    var p0 := k.threads[x].priority;
    assert !BelongsIn(k, p0, x);
    forall p: nat, y: Id
      ensures InRing(k', p, y) <==> BelongsIn(k', p, y)
    {
      assert InRing(k, p, y) <==> BelongsIn(k, p, y);
    }
    assert !InRing(k, p0, x);
  }

  lemma CoupledDrop(k: Kernel, x: Id, state: ThreadState)
    requires Shape(k) && Coupled(k) && x in k.threads && x.tid != IRQ_TID
    requires k.threads[x].state.Ready? && !state.Ready?
    ensures Coupled(SetState(k, x, state))
  {
    var k' := SetState(k, x, state);
    var p0 := k.threads[x].priority;
    assert BelongsIn(k, p0, x);
    assert InRing(k, p0, x);
    RemoveFacts(k.rings[p0], x);
    forall p: nat, y: Id
      ensures InRing(k', p, y) <==> BelongsIn(k', p, y)
    {
      assert InRing(k, p, y) <==> BelongsIn(k, p, y);
    }
  }

  lemma IrqState(k: Kernel, x: Id, state: ThreadState)
    requires Base(k) && x in k.threads && x.tid == IRQ_TID && k.threads[x].state.Ready? != state.Ready?
    requires state.Ready? ==> !k.inIrq
    ensures Coupled(SetState(k, x, state)) && IrqCoupled(SetState(k, x, state))
  {
    var k' := SetState(k, x, state);
    forall p: nat, y: Id
      ensures InRing(k', p, y) <==> BelongsIn(k', p, y)
    {
      assert InRing(k, p, y) <==> BelongsIn(k, p, y);
    }
    assert x == Id(x.pid, IRQ_TID);
    forall p
      ensures IsReady(k', Id(p, IRQ_TID)) <==> (if p == x.pid then state.Ready? else IsReady(k, Id(p, IRQ_TID)))
    {
    }
  }

  /** Changing a state keeps the coupling; a second interrupt thread is not made ready. */
  lemma SetStateBase(k: Kernel, x: Id, state: ThreadState)
    requires Base(k)
    requires x.tid == IRQ_TID && state.Ready? && !IsReady(k, x) ==> !k.inIrq
    ensures Base(SetState(k, x, state))
  {
    if x in k.threads {
      var k' := SetState(k, x, state);
      if k.threads[x].state.Ready? == state.Ready? {
        SameScheduleBase(k, k');
      } else if x.tid == IRQ_TID {
        IrqState(k, x, state);
      } else {
        if state.Ready? { CoupledAdd(k, x, state); } else { CoupledDrop(k, x, state); }
        assert forall p :: IsReady(k', Id(p, IRQ_TID)) <==> IsReady(k, Id(p, IRQ_TID));
      }
    }
  }

  lemma SetPriorityBase(k: Kernel, x: Id, priority: nat)
    requires Base(k) && priority < NUM_PRIORITIES
    ensures Base(SetPriority(k, x, priority))
  {
    if x in k.threads && k.threads[x].priority != priority {
      var k' := SetPriority(k, x, priority);
      assert forall y :: IsReady(k', y) <==> IsReady(k, y);
      hide Coupled;
      CoupledMove(k, x, priority);
    }
  }

  lemma CoupledMove(k: Kernel, x: Id, priority: nat)
    requires Shape(k) && Coupled(k) && priority < NUM_PRIORITIES && x in k.threads && k.threads[x].priority != priority
    ensures Coupled(SetPriority(k, x, priority))
  {
    var k' := SetPriority(k, x, priority);
    var p0 := k.threads[x].priority;
    assert InRing(k, p0, x) <==> BelongsIn(k, p0, x);
    assert !BelongsIn(k, priority, x);
    assert !InRing(k, priority, x);
    if BelongsIn(k, p0, x) { RemoveFacts(k.rings[p0], x); }
    forall p: nat, y: Id
      ensures InRing(k', p, y) <==> BelongsIn(k', p, y)
    {
      assert InRing(k, p, y) <==> BelongsIn(k, p, y);
    }
  }

  lemma RingYieldBase(k: Kernel, x: Id)
    requires Base(k) && x in k.threads
    ensures Base(k.(rings := RingYield(k.rings, k.threads[x].priority, x)))
  {
    var p0 := k.threads[x].priority;
    var k' := k.(rings := RingYield(k.rings, p0, x));
    RotateFacts(k.rings[p0]);
    assert forall y :: IsReady(k', y) <==> IsReady(k, y);
    forall p: nat, y: Id
      ensures InRing(k', p, y) <==> BelongsIn(k', p, y)
    {
      assert InRing(k, p, y) <==> BelongsIn(k, p, y);
    }
  }
}
