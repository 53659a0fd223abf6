/** Wake-ups: steps that make threads ready and change nothing else that matters. */
module KernelWakes {
  import opened Common
  import opened KernelState
  import opened KernelInv
  import opened KernelSched

  lemma WakeBase(k: Kernel, x: Id)
    requires Base(k) && x.tid != IRQ_TID
    ensures Base(SetState(k, x, Ready))
  {
    SetStateBase(k, x, Ready);
  }

  lemma WakeQuiet(k: Kernel, x: Id)
    requires x in k.threads ==> x.tid != IRQ_TID && !k.threads[x].state.Free?
    ensures Quiet(k, SetState(k, x, Ready))
  {
  }

  lemma ResultBase(k: Kernel, x: Id, r: Reply)
    requires Base(k)
    ensures Base(SetResult(k, x, r))
  {
    SameScheduleBase(k, SetResult(k, x, r));
  }

  lemma ResultQuiet(k: Kernel, x: Id, r: Reply)
    ensures Quiet(k, SetResult(k, x, r))
  {
  }

  // ---- Senders waiting for room -----------------------------------------------------------------

  /** The senders that a scan for queue `sidx` wakes: all but the last thread of each process. */
  predicate Scanned(k: Kernel, x: Id, sidx: nat) {
    Retrying(k, x, sidx) && 1 <= x.tid && x.tid + 1 < k.limits.threads
  }

  lemma {:induction false} WakeRetryInBase(k: Kernel, sidx: nat, pid: nat, tid: nat)
    requires Base(k) && tid >= 1
    ensures Base(WakeRetryIn(k, sidx, pid, tid))
    decreases k.limits.threads - tid
  {
    if tid + 1 < k.limits.threads {
      var x := Id(pid, tid);
      if Retrying(k, x, sidx) { WakeBase(k, x); }
      WakeRetryInBase(if Retrying(k, x, sidx) then SetState(k, x, Ready) else k, sidx, pid, tid + 1);
    }
  }

  lemma {:induction false} WakeRetryBase(k: Kernel, sidx: nat, pid: nat)
    requires Base(k)
    ensures Base(WakeRetry(k, sidx, pid))
    decreases k.limits.processes + 1 - pid
  {
    if pid <= k.limits.processes {
      if pid in k.processes { WakeRetryInBase(k, sidx, pid, 1); }
      WakeRetryBase(if pid in k.processes then WakeRetryIn(k, sidx, pid, 1) else k, sidx, pid + 1);
    }
  }

  /** Only threads and rings change. */
  ghost predicate SameTables(k: Kernel, k': Kernel) {
    && k'.limits == k.limits && k'.processes == k.processes && k'.servers == k.servers
    && k'.current == k.current && k'.inIrq == k.inIrq && k'.clock == k.clock
    && k'.threads.Keys == k.threads.Keys
  }

  lemma {:induction false} WakeRetryInExact(k: Kernel, sidx: nat, pid: nat, tid: nat)
    requires tid >= 1
    ensures var k' := WakeRetryIn(k, sidx, pid, tid);
      && SameTables(k, k')
      && (forall x | x in k.threads :: k'.threads[x] ==
            if Scanned(k, x, sidx) && x.pid == pid && tid <= x.tid
            then k.threads[x].(state := Ready) else k.threads[x])
    decreases k.limits.threads - tid
  {
    if tid + 1 < k.limits.threads {
      var x := Id(pid, tid);
      WakeRetryInExact(if Retrying(k, x, sidx) then SetState(k, x, Ready) else k, sidx, pid, tid + 1);
    }
  }

  lemma {:induction false} WakeRetryFrom(k: Kernel, sidx: nat, pid: nat)
    requires forall x | x in k.threads :: x.pid in k.processes && x.pid <= k.limits.processes
    ensures var k' := WakeRetry(k, sidx, pid);
      && SameTables(k, k')
      && (forall x | x in k.threads :: k'.threads[x] ==
            if Scanned(k, x, sidx) && pid <= x.pid then k.threads[x].(state := Ready) else k.threads[x])
    decreases k.limits.processes + 1 - pid
  {
    if pid <= k.limits.processes {
      if pid in k.processes { WakeRetryInExact(k, sidx, pid, 1); }
      WakeRetryFrom(if pid in k.processes then WakeRetryIn(k, sidx, pid, 1) else k, sidx, pid + 1);
    }
  }

  /** The wake-up reaches every scanned sender and nobody else. */
  lemma WakeRetryExact(k: Kernel, sidx: nat)
    requires Base(k)
    ensures var k' := WakeRetry(k, sidx, 1);
      && Base(k') && SameTables(k, k') && Quiet(k, k')
      && (forall x | x in k.threads :: k'.threads[x] ==
            if Scanned(k, x, sidx) then k.threads[x].(state := Ready) else k.threads[x])
  {
    WakeRetryBase(k, sidx, 1);
    WakeRetryFrom(k, sidx, 1);
  }

  // ---- Notification bits ------------------------------------------------------------------------

  lemma {:induction false} WaiterIsWaiting(k: Kernel, pid: nat, tid: nat)
    requires pid in k.processes
    ensures var t := WaiterFrom(k, pid, tid);
      && t >= tid
      && (t < k.limits.threads ==> Id(pid, t) in k.threads && k.threads[Id(pid, t)].state.WaitEvent?)
    decreases k.limits.threads - tid
  {
    if tid < k.limits.threads {
      WaiterIsWaiting(k, pid, tid + 1);
    }
  }

  /** Replacing the bits of a process. */
  function WithBits(k: Kernel, pid: nat, bits: set<nat>): Kernel
    requires pid in k.processes
  {
    k.(processes := k.processes[pid := k.processes[pid].(notificationBits := bits)])
  }

  lemma PostBitsBase(k: Kernel, pid: nat, bits: set<nat>)
    requires Base(k)
    ensures Base(PostBits(k, pid, bits))
  {
    if pid in k.processes {
      var all := k.processes[pid].notificationBits + bits;
      var k1 := WithBits(k, pid, all);
      WaiterIsWaiting(k1, pid, 1);
      SameScheduleBase(k, k1);
      var x := Id(pid, WaiterFrom(k1, pid, 1));
      if x.tid < k.limits.threads {
        var fired := all * k.threads[x].state.mask;
        var k2 := WithBits(k, pid, all - fired);
        SameScheduleBase(k, k2);
        WakeBase(k2, x);
        ResultBase(SetState(k2, x, Ready), x, Fired(fired));
      }
    }
  }

  lemma PostBitsQuiet(k: Kernel, pid: nat, bits: set<nat>)
    ensures Quiet(k, PostBits(k, pid, bits))
  {
    if pid in k.processes {
      var all := k.processes[pid].notificationBits + bits;
      var k1 := WithBits(k, pid, all);
      WaiterIsWaiting(k1, pid, 1);
    }
  }
}
