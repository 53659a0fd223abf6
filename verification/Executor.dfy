/**
 The cooperative executor (xous/async-rt/src/executor.rs, waker.rs).  A task's future is seen only
 through what its polls do: which tasks they wake, how many tasks they spawn, and whether the future
 is done.  An oracle gives the effect of every poll of a run, so the results hold for all futures.
 */
module Executors {

  datatype Effect = Effect(done: bool, wakes: set<nat>, spawns: nat)

  /** `polls` records which task each poll so far was for; `pending` and `progress` are of the present round. */
  datatype State = State(
    completed: seq<bool>, ready: set<nat>, start: nat, spawned: nat, pending: bool, progress: bool, polls: seq<nat>)
  {
    ghost predicate Valid() {
      |completed| == 0 || start < |completed|
    }

    predicate AllDone() {
      spawned == 0 && forall i | 0 <= i < |completed| :: completed[i]
    }
  }

  function Range(lo: nat, n: nat): (s: set<nat>)
    ensures forall i: nat :: i in s <==> lo <= i < lo + n
  {
    if n == 0 then {} else Range(lo, n - 1) + {lo + n - 1}
  }

  /** The tasks that were spawned join the list, ready for their first poll. */
  function Drain(x: State): State {
    x.(completed := x.completed + seq(x.spawned, _ => false), ready := x.ready + Range(|x.completed|, x.spawned),
       spawned := 0, pending := false, progress := false)
  }

  /** One task's turn: its flag is cleared before it is polled. */
  function Visit(x: State, i: nat, oracle: nat -> Effect): State
    requires i < |x.completed|
  {
    if x.completed[i] then x
    else if i !in x.ready then x.(pending := true)
    else
      var e := oracle(|x.polls|);
      x.(completed := x.completed[i := e.done], ready := x.ready - {i} + e.wakes, spawned := x.spawned + e.spawns,
         pending := true, progress := x.progress || e.done, polls := x.polls + [i])
  }

  function Turn(x: State, i: nat): (t: nat)
    requires |x.completed| > 0
    ensures t < |x.completed|
  {
    (x.start + i) % |x.completed|
  }

  /** The turns from the `i`th on. */
  function Visits(x: State, i: nat, oracle: nat -> Effect): State
    decreases |x.completed| - i
  {
    if i >= |x.completed| then x else Visits(Visit(x, Turn(x, i), oracle), i + 1, oracle)
  }

  function Round(x: State, oracle: nat -> Effect): State {
    var x1 := Visits(Drain(x), 0, oracle);
    if |x1.completed| > 0 then x1.(start := (x1.start + 1) % |x1.completed|) else x1
  }

  // ---- Every task has one turn ------------------------------------------------------------------

  lemma TurnIs(x: State, i: nat)
    requires |x.completed| > 0 && x.start < |x.completed| && i < |x.completed|
    ensures Turn(x, i) == if x.start + i < |x.completed| then x.start + i else x.start + i - |x.completed|
  {
    var n := |x.completed|;
    if x.start + i >= n {
      assert x.start + i == n * 1 + (x.start + i - n);
    }
  }

  /** The turn in which task `t` comes. */
  function TurnOf(x: State, t: nat): nat
    requires t < |x.completed| && x.start < |x.completed|
  {
    if t >= x.start then t - x.start else t + |x.completed| - x.start
  }

  lemma TurnOfTurn(x: State, t: nat)
    requires t < |x.completed| && x.start < |x.completed|
    ensures TurnOf(x, t) < |x.completed| && Turn(x, TurnOf(x, t)) == t
    ensures forall i: nat | i < |x.completed| && Turn(x, i) == t :: i == TurnOf(x, t)
  {
    TurnIs(x, TurnOf(x, t));
    forall i: nat | i < |x.completed| && Turn(x, i) == t
      ensures i == TurnOf(x, t)
    {
      TurnIs(x, i);
    }
  }

  // ---- What the turns do ------------------------------------------------------------------------

  /** The polls between two states. */
  function NewPolls(x: State, x': State): seq<nat>
    requires |x.polls| <= |x'.polls|
  {
    x'.polls[|x.polls|..]
  }

  ghost predicate Extends(x: State, x': State) {
    && |x'.completed| == |x.completed| && x'.start == x.start && x.polls <= x'.polls && x.spawned <= x'.spawned
    && (x.pending ==> x'.pending)
  }

  predicate PolledAt(x: State, k: nat, t: nat) {
    k < |x.polls| && x.polls[k] == t
  }

  ghost predicate Distinct(p: seq<nat>) {
    forall k, l | 0 <= k < l < |p| :: p[k] != p[l]
  }

  lemma {:induction false} VisitsExtend(x: State, i: nat, oracle: nat -> Effect)
    ensures Extends(x, Visits(x, i, oracle))
    decreases |x.completed| - i
  {
    if i < |x.completed| { VisitsExtend(Visit(x, Turn(x, i), oracle), i + 1, oracle); }
  }

  /** A task whose turn is over is not polled again in this round; it may only be woken. */
  lemma {:induction false} Untouched(x: State, i: nat, oracle: nat -> Effect, t: nat)
    requires x.Valid() && t < |x.completed| && TurnOf(x, t) < i
    ensures var x' := Visits(x, i, oracle);
      && Extends(x, x') && t !in NewPolls(x, x') && x'.completed[t] == x.completed[t] &&
         (t in x.ready ==> t in x'.ready)
    decreases |x.completed| - i
  {
    hide Turn;
    VisitsExtend(x, i, oracle);
    if i < |x.completed| {
      var x1 := Visit(x, Turn(x, i), oracle);
      TurnOfTurn(x, Turn(x, i));
      VisitsExtend(x1, i + 1, oracle);
      Untouched(x1, i + 1, oracle, t);
      var p, p1 := NewPolls(x, Visits(x, i, oracle)), NewPolls(x1, Visits(x, i, oracle));
      assert p == if |x1.polls| > |x.polls| then [Turn(x, i)] + p1 else p1;
    }
  }

  lemma VisitPolls(x: State, i: nat, oracle: nat -> Effect)
    requires i < |x.completed|
    ensures var x1 := Visit(x, Turn(x, i), oracle);
      var x' := Visits(x1, i + 1, oracle);
      && Visits(x, i, oracle) == x' && Extends(x, x1) && Extends(x1, x') && Extends(x, x')
      && NewPolls(x, x') == if |x1.polls| > |x.polls| then [Turn(x, i)] + NewPolls(x1, x') else NewPolls(x1, x')
  {
    VisitsExtend(x, i, oracle);
    VisitsExtend(Visit(x, Turn(x, i), oracle), i + 1, oracle);
  }

  /** A task's turn: a completed task is not polled, one whose flag is up is, and any other is pending. */
  lemma {:induction false} TurnComes(x: State, i: nat, oracle: nat -> Effect, t: nat)
    requires x.Valid() && t < |x.completed| && TurnOf(x, t) >= i
    ensures var x' := Visits(x, i, oracle);
      && Extends(x, x')
      && (x.completed[t] ==> t !in NewPolls(x, x') && x'.completed[t])
      && (!x.completed[t] && t in x.ready ==> t in NewPolls(x, x'))
      && (!x.completed[t] ==> x'.pending)
    decreases |x.completed| - i
  {
    hide Turn, NewPolls, Visits;
    TurnOfTurn(x, t);
    VisitPolls(x, i, oracle);
    var x1 := Visit(x, Turn(x, i), oracle);
    if TurnOf(x, t) == i {
      Untouched(x1, i + 1, oracle, t);
    } else {
      TurnOfTurn(x, Turn(x, i));
      TurnComes(x1, i + 1, oracle, t);
    }
  }

  /** A task is completed after the round iff it was before or a poll of this round finished it. */
  lemma {:induction false} TurnCompletes(x: State, i: nat, oracle: nat -> Effect, t: nat)
    requires x.Valid() && t < |x.completed| && TurnOf(x, t) >= i
    ensures var x' := Visits(x, i, oracle);
      && Extends(x, x')
      && (x'.completed[t] <==>
          x.completed[t] || exists k: nat :: PolledAt(x', k, t) && k >= |x.polls| && oracle(k).done)
    decreases |x.completed| - i
  {
    hide Turn, NewPolls, Visits;
    TurnOfTurn(x, t);
    VisitPolls(x, i, oracle);
    var x1 := Visit(x, Turn(x, i), oracle);
    var x' := Visits(x1, i + 1, oracle);
    if TurnOf(x, t) == i {
      Untouched(x1, i + 1, oracle, t);
      NotPolledAfter(x1, x', t);
      assert |x1.polls| > |x.polls| ==> PolledAt(x', |x.polls|, t);
    } else {
      TurnOfTurn(x, Turn(x, i));
      TurnCompletes(x1, i + 1, oracle, t);
      assert forall k: nat | PolledAt(x', k, t) && k >= |x.polls| :: k >= |x1.polls|;
    }
  }

  lemma NotPolledAfter(x: State, x': State, t: nat)
    requires x.polls <= x'.polls && t !in NewPolls(x, x')
    ensures forall k: nat | k >= |x.polls| :: !PolledAt(x', k, t)
  {
    forall k: nat | |x.polls| <= k < |x'.polls|
      ensures x'.polls[k] != t
    {
      assert x'.polls[k] == NewPolls(x, x')[k - |x.polls|];
    }
  }

  /** No task is polled twice in a round. */
  lemma {:induction false} VisitsDistinct(x: State, i: nat, oracle: nat -> Effect)
    requires x.Valid()
    ensures x.polls <= Visits(x, i, oracle).polls && Distinct(NewPolls(x, Visits(x, i, oracle)))
    decreases |x.completed| - i
  {
    VisitsExtend(x, i, oracle);
    if i < |x.completed| {
      var t := Turn(x, i);
      var x1 := Visit(x, t, oracle);
      var x' := Visits(x1, i + 1, oracle);
      TurnOfTurn(x, t);
      VisitsDistinct(x1, i + 1, oracle);
      Untouched(x1, i + 1, oracle, t);
      hide *;
      OneMorePoll(x, x1, x', t);
    }
  }

  lemma OneMorePoll(x: State, x1: State, x': State, t: nat)
    requires x1.polls == x.polls || x1.polls == x.polls + [t]
    requires x1.polls <= x'.polls && Distinct(NewPolls(x1, x')) && t !in NewPolls(x1, x')
    ensures Distinct(NewPolls(x, x'))
  {
    var p := NewPolls(x1, x');
    assert NewPolls(x, x') == if |x1.polls| > |x.polls| then [t] + p else p;
  }

  /** A wake that comes during a task's own poll or later in the round leaves its flag up. */
  lemma {:induction false} WakeKept(x: State, i: nat, oracle: nat -> Effect, t: nat, k: nat, w: nat)
    requires x.Valid() && t < |x.completed|
    requires var x' := Visits(x, i, oracle);
      |x.polls| <= k <= w < |x'.polls| && PolledAt(x', k, t) && t in oracle(w).wakes
    ensures t in Visits(x, i, oracle).ready
    decreases |x.completed| - i
  {
    VisitsExtend(x, i, oracle);
    if i < |x.completed| {
      var x1 := Visit(x, Turn(x, i), oracle);
      var x' := Visits(x1, i + 1, oracle);
      VisitsExtend(x1, i + 1, oracle);
      if k >= |x1.polls| {
        WakeKept(x1, i + 1, oracle, t, k, w);
      } else {
        assert x'.polls[k] == x1.polls[k];
        TurnOfTurn(x, t);
        WokenLater(x1, i + 1, oracle, t, w);
      }
    }
  }

  /** Task `t`, whose turn is over, is woken by poll `w`, or has been. */
  lemma {:induction false} WokenLater(x: State, i: nat, oracle: nat -> Effect, t: nat, w: nat)
    requires x.Valid() && t < |x.completed| && TurnOf(x, t) < i && (w < |x.polls| ==> t in x.ready)
    requires w < |Visits(x, i, oracle).polls| && t in oracle(w).wakes
    ensures t in Visits(x, i, oracle).ready
    decreases |x.completed| - i
  {
    if i < |x.completed| {
      TurnOfTurn(x, Turn(x, i));
      WokenLater(Visit(x, Turn(x, i), oracle), i + 1, oracle, t, w);
    }
  }

  // ---- Rounds -----------------------------------------------------------------------------------

  lemma DrainValid(x: State)
    requires x.Valid() && (|x.completed| == 0 ==> x.start == 0)
    ensures Drain(x).Valid()
  {
  }

  /** One of the polls between `x` and `x'` wakes task `t`. */
  predicate WokenIn(x: State, x': State, oracle: nat -> Effect, t: nat, w: nat) {
    |x.polls| <= w < |x'.polls| && t in oracle(w).wakes
  }

  lemma VisitsEnd(x: State, i: nat, oracle: nat -> Effect)
    requires i >= |x.completed|
    ensures Visits(x, i, oracle) == x && NewPolls(x, x) == []
  {
  }

  /** A turn polls its task if the flag is up and the task is not completed, and otherwise leaves the flags alone. */
  lemma VisitExact(x: State, t: nat, oracle: nat -> Effect)
    requires t < |x.completed|
    ensures var x1, e := Visit(x, t, oracle), oracle(|x.polls|);
      && |x1.completed| == |x.completed| && x1.start == x.start
      && (if t in x.ready && !x.completed[t]
          then x1.polls == x.polls + [t] && x1.ready == x.ready - {t} + e.wakes &&
               x1.spawned == x.spawned + e.spawns && x1.progress == (x.progress || e.done)
          else x1.polls == x.polls && x1.ready == x.ready && x1.spawned == x.spawned && x1.progress == x.progress)
  {
  }

  /** A flag that is up stays up unless its task is polled. */
  lemma {:induction false} FlagKept(x: State, i: nat, oracle: nat -> Effect, t: nat)
    requires t in x.ready
    ensures var x' := Visits(x, i, oracle);
      x.polls <= x'.polls && (t !in NewPolls(x, x') ==> t in x'.ready)
    decreases |x.completed| - i
  {
    hide Turn, Visits, NewPolls, Visit;
    if i < |x.completed| {
      VisitPolls(x, i, oracle);
      VisitExact(x, Turn(x, i), oracle);
      var x1 := Visit(x, Turn(x, i), oracle);
      if t in x1.ready { FlagKept(x1, i + 1, oracle, t); }
    } else {
      VisitsEnd(x, i, oracle);
    }
  }

  /** A flag that is down stays down, and its task is not polled, unless a poll wakes it. */
  lemma {:induction false} FlagStaysDown(x: State, i: nat, oracle: nat -> Effect, t: nat)
    requires t !in x.ready && forall w: nat :: !WokenIn(x, Visits(x, i, oracle), oracle, t, w)
    ensures var x' := Visits(x, i, oracle);
      x.polls <= x'.polls && t !in NewPolls(x, x') && t !in x'.ready
    decreases |x.completed| - i
  {
    hide Turn, Visits, NewPolls, Visit;
    if i < |x.completed| {
      VisitPolls(x, i, oracle);
      VisitExact(x, Turn(x, i), oracle);
      var x1 := Visit(x, Turn(x, i), oracle);
      var x' := Visits(x1, i + 1, oracle);
      if |x1.polls| > |x.polls| { assert !WokenIn(x, x', oracle, t, |x.polls|); }
      forall w: nat
        ensures !WokenIn(x1, x', oracle, t, w)
      {
        assert !WokenIn(x, x', oracle, t, w);
      }
      FlagStaysDown(x1, i + 1, oracle, t);
    } else {
      VisitsEnd(x, i, oracle);
    }
  }

  lemma NotPolledSince(x: State, x': State, t: nat)
    requires x.polls <= x'.polls && forall k: nat | k >= |x.polls| :: !PolledAt(x', k, t)
    ensures t !in NewPolls(x, x')
  {
    forall j | 0 <= j < |NewPolls(x, x')|
      ensures NewPolls(x, x')[j] != t
    {
      assert !PolledAt(x', |x.polls| + j, t);
    }
  }

  /** A task that is woken has its flag up at the end, unless it is polled after that. */
  lemma {:induction false} WakeStays(x: State, i: nat, oracle: nat -> Effect, t: nat, w: nat)
    requires var x' := Visits(x, i, oracle);
      WokenIn(x, x', oracle, t, w) && forall k: nat | k > w :: !PolledAt(x', k, t)
    ensures t in Visits(x, i, oracle).ready
    decreases |x.completed| - i
  {
    hide Turn, Visits, NewPolls, Visit;
    if i < |x.completed| {
      VisitPolls(x, i, oracle);
      VisitExact(x, Turn(x, i), oracle);
      var x1 := Visit(x, Turn(x, i), oracle);
      if w < |x1.polls| {
        FlagKept(x1, i + 1, oracle, t);
        NotPolledSince(x1, Visits(x1, i + 1, oracle), t);
      } else {
        WakeStays(x1, i + 1, oracle, t, w);
      }
    } else {
      VisitsEnd(x, i, oracle);
    }
  }

  /**
   The flag is taken down for the poll: it is down at the end unless the poll itself or a later one
   wakes the task.
   */
  lemma {:induction false} FlagTakenDown(x: State, i: nat, oracle: nat -> Effect, t: nat, k: nat)
    requires var x' := Visits(x, i, oracle);
      && |x.polls| <= k && PolledAt(x', k, t)
      && forall w: nat | w >= k :: !WokenIn(x, x', oracle, t, w)
    ensures t !in Visits(x, i, oracle).ready
    decreases |x.completed| - i
  {
    hide Turn, Visits, NewPolls, Visit;
    VisitsExtend(x, i, oracle);
    if i < |x.completed| {
      VisitPolls(x, i, oracle);
      VisitExact(x, Turn(x, i), oracle);
      var x1 := Visit(x, Turn(x, i), oracle);
      var x' := Visits(x1, i + 1, oracle);
      if k < |x1.polls| {
        assert x'.polls[k] == x1.polls[k];
        assert !WokenIn(x, x', oracle, t, k);
        forall w: nat
          ensures !WokenIn(x1, x', oracle, t, w)
        {
          if w >= k { assert !WokenIn(x, x', oracle, t, w); }
        }
        FlagStaysDown(x1, i + 1, oracle, t);
      } else {
        forall w: nat | w >= k
          ensures !WokenIn(x1, x', oracle, t, w)
        {
          assert !WokenIn(x, x', oracle, t, w);
        }
        FlagTakenDown(x1, i + 1, oracle, t, k);
      }
    } else {
      VisitsEnd(x, i, oracle);
    }
  }

  /** How many tasks the polls from number `lo` up to, but not including, `hi` spawn. */
  function SpawnedBy(oracle: nat -> Effect, lo: nat, hi: nat): nat
    decreases hi
  {
    if hi <= lo then 0 else SpawnedBy(oracle, lo, hi - 1) + oracle(hi - 1).spawns
  }

  lemma {:induction false} SpawnedFirst(oracle: nat -> Effect, lo: nat, hi: nat)
    requires lo < hi
    ensures SpawnedBy(oracle, lo, hi) == oracle(lo).spawns + SpawnedBy(oracle, lo + 1, hi)
    decreases hi
  {
    if hi == lo + 1 {
    } else {
      SpawnedFirst(oracle, lo, hi - 1);
    }
  }

  /** What the polls do adds up: spawned tasks are counted, and there is progress exactly if a poll finished a task. */
  lemma {:induction false} EffectsAddUp(x: State, i: nat, oracle: nat -> Effect)
    ensures var x' := Visits(x, i, oracle);
      && |x.polls| <= |x'.polls| && x'.spawned == x.spawned + SpawnedBy(oracle, |x.polls|, |x'.polls|)
      && (x'.progress <==> x.progress || exists k: nat :: |x.polls| <= k < |x'.polls| && oracle(k).done)
    decreases |x.completed| - i
  {
    hide Turn, Visits, Visit, NewPolls;
    if i < |x.completed| {
      VisitPolls(x, i, oracle);
      VisitExact(x, Turn(x, i), oracle);
      var x1 := Visit(x, Turn(x, i), oracle);
      var x' := Visits(x1, i + 1, oracle);
      EffectsAddUp(x1, i + 1, oracle);
      if |x1.polls| > |x.polls| { SpawnedFirst(oracle, |x.polls|, |x'.polls|); }
    } else {
      VisitsEnd(x, i, oracle);
    }
  }

  /** The tasks of `p` are in the order of their turns, none before turn `i`. */
  ghost predicate InTurns(x: State, p: seq<nat>, i: nat)
    requires x.Valid()
  {
    && (forall k | 0 <= k < |p| :: p[k] < |x.completed| && TurnOf(x, p[k]) >= i)
    && (forall k, l | 0 <= k < l < |p| :: TurnOf(x, p[k]) < TurnOf(x, p[l]))
  }

  lemma InTurnsCons(x: State, x1: State, t: nat, p: seq<nat>)
    requires x.Valid() && x1.Valid() && |x1.completed| == |x.completed| && x1.start == x.start
    requires t < |x.completed| && InTurns(x1, p, TurnOf(x, t) + 1)
    ensures InTurns(x, [t] + p, TurnOf(x, t)) && InTurns(x, p, TurnOf(x, t))
  {
    assert forall u: nat | u < |x.completed| :: TurnOf(x1, u) == TurnOf(x, u);
    hide TurnOf;
  }

  lemma InTurnsNone(x: State, i: nat)
    requires x.Valid()
    ensures InTurns(x, [], i)
  {
  }

  /** The turns are taken in order. */
  lemma {:induction false} TurnsInOrder(x: State, i: nat, oracle: nat -> Effect)
    requires x.Valid()
    ensures x.polls <= Visits(x, i, oracle).polls && InTurns(x, NewPolls(x, Visits(x, i, oracle)), i)
    decreases |x.completed| - i
  {
    hide Turn, Visits, NewPolls, Visit, InTurns, TurnOf;
    if i < |x.completed| {
      TurnOfTurn(x, Turn(x, i));
      VisitPolls(x, i, oracle);
      var x1 := Visit(x, Turn(x, i), oracle);
      TurnsInOrder(x1, i + 1, oracle);
      InTurnsCons(x, x1, Turn(x, i), NewPolls(x1, Visits(x1, i + 1, oracle)));
    } else {
      VisitsEnd(x, i, oracle);
      InTurnsNone(x, i);
    }
  }

  /** Task `t` is there when the next round begins and is not completed; those that were spawned are new. */
  predicate Unfinished(x: State, t: nat) {
    t < |x.completed| + x.spawned && (t < |x.completed| ==> !x.completed[t])
  }

  /** Task `t` is to be polled in the next round: its flag is up, or it was spawned and has had no poll yet. */
  predicate Called(x: State, t: nat) {
    Unfinished(x, t) && (t < |x.completed| ==> t in x.ready)
  }

  lemma DrainedTask(x: State, t: nat)
    requires t < |x.completed| + x.spawned
    ensures var x0 := Drain(x);
      && |x0.completed| == |x.completed| + x.spawned && (x0.completed[t] <==> !Unfinished(x, t))
      && (Called(x, t) ==> t in x0.ready) && (t < |x.completed| ==> (t in x0.ready <==> t in x.ready))
      && x0.polls == x.polls && x0.spawned == 0 && !x0.progress && x0.start == x.start
  {
  }

  /**
   One round: the tasks that were spawned join the others; every task is polled at most once; a task
   whose flag is up, or that was spawned, is polled; a completed one is not, nor one whose flag is down
   and that nobody wakes; and a task is completed afterwards iff it was or a poll finished it.
   */
  lemma RoundIsFair(x: State, oracle: nat -> Effect, t: nat)
    requires x.Valid() && (|x.completed| == 0 ==> x.start == 0) && t < |x.completed| + x.spawned
    ensures var x' := Round(x, oracle);
      && |x'.completed| == |x.completed| + x.spawned && x.polls <= x'.polls && Distinct(NewPolls(x, x'))
      && (Called(x, t) ==> t in NewPolls(x, x'))
      && (!Unfinished(x, t) ==> t !in NewPolls(x, x'))
      && (!Called(x, t) && (forall w: nat :: !WokenIn(x, x', oracle, t, w)) ==> t !in NewPolls(x, x'))
      && (x'.completed[t] <==>
          !Unfinished(x, t) || exists k: nat :: PolledAt(x', k, t) && k >= |x.polls| && oracle(k).done)
  {
    var x0 := Drain(x);
    DrainValid(x);
    DrainedTask(x, t);
    VisitsDistinct(x0, 0, oracle);
    TurnComes(x0, 0, oracle, t);
    TurnCompletes(x0, 0, oracle, t);
    var x' := Round(x, oracle);
    if Unfinished(x, t) && !Called(x, t) && (forall w: nat :: !WokenIn(x, x', oracle, t, w)) {
      assert forall w: nat :: WokenIn(x0, Visits(x0, 0, oracle), oracle, t, w) ==> WokenIn(x, x', oracle, t, w);
      FlagStaysDown(x0, 0, oracle, t);
    }
  }

  /** What a round leaves of the flags, and of what its polls have asked for. */
  lemma RoundFlags(x: State, oracle: nat -> Effect, t: nat)
    requires x.Valid() && (|x.completed| == 0 ==> x.start == 0)
    ensures var x' := Round(x, oracle);
      && |x.polls| <= |x'.polls|
      && (forall w: nat | WokenIn(x, x', oracle, t, w) && (forall k: nat | k > w :: !PolledAt(x', k, t)) ::
            t in x'.ready)
      && (forall k: nat | k >= |x.polls| && PolledAt(x', k, t) &&
                          (forall w: nat | w >= k :: !WokenIn(x, x', oracle, t, w)) :: t !in x'.ready)
      && x'.spawned == SpawnedBy(oracle, |x.polls|, |x'.polls|)
      && (x'.progress <==> exists k: nat :: |x.polls| <= k < |x'.polls| && oracle(k).done)
  {
    var x0, x' := Drain(x), Round(x, oracle);
    var x1 := Visits(x0, 0, oracle);
    DrainValid(x);
    EffectsAddUp(x0, 0, oracle);
    assert forall w: nat :: WokenIn(x0, x1, oracle, t, w) <==> WokenIn(x, x', oracle, t, w);
    assert forall k: nat :: PolledAt(x1, k, t) <==> PolledAt(x', k, t);
    hide Drain, Visits, Round;
    assert x1.ready == x'.ready && x1.polls == x'.polls && x0.polls == x.polls by { RoundIs(x, oracle); }
    forall w: nat | WokenIn(x, x', oracle, t, w) && (forall k: nat | k > w :: !PolledAt(x', k, t))
      ensures t in x'.ready
    {
      WakeStays(x0, 0, oracle, t, w);
    }
    forall k: nat | k >= |x.polls| && PolledAt(x', k, t) && (forall w: nat | w >= k :: !WokenIn(x, x', oracle, t, w))
      ensures t !in x'.ready
    {
      FlagTakenDown(x0, 0, oracle, t, k);
    }
  }

  lemma RoundIs(x: State, oracle: nat -> Effect)
    ensures var x1, x' := Visits(Drain(x), 0, oracle), Round(x, oracle);
      && x1.ready == x'.ready && x1.polls == x'.polls && Drain(x).polls == x.polls && x1.completed == x'.completed
      && x1.spawned == x'.spawned
  {
  }

  /** The task that has the first turn in one round has the last in the next; all others move up by one. */
  lemma TurnsMoveOn(x: State, oracle: nat -> Effect, t: nat)
    requires x.Valid() && (|x.completed| == 0 ==> x.start == 0) && t < |x.completed| + x.spawned
    ensures var x0, x' := Drain(x), Round(x, oracle);
      && x0.start < |x0.completed| && x'.start < |x'.completed| == |x0.completed| && t < |x0.completed|
      && TurnOf(x', t) == if TurnOf(x0, t) == 0 then |x0.completed| - 1 else TurnOf(x0, t) - 1
  {
    var x0 := Drain(x);
    DrainValid(x);
    DrainedTask(x, t);
    VisitsExtend(x0, 0, oracle);
    NextStart(x0.start, |x0.completed|);
    hide Visits, Drain;
  }

  lemma NextStart(start: nat, n: nat)
    requires start < n
    ensures (start + 1) % n == if start + 1 == n then 0 else start + 1
  {
  }

  /** Flags may be raised between rounds. */
  function Woken(x: State, more: set<nat>): State {
    x.(ready := x.ready + more)
  }

  /**
   No wake-up is lost: a task that a poll wakes is polled after that in the same round, or is completed
   when the round ends, or is polled in the next round, whatever is woken in between.
   */
  lemma WakeLeadsToPoll(x: State, oracle: nat -> Effect, more: set<nat>, t: nat, w: nat)
    requires x.Valid() && (|x.completed| == 0 ==> x.start == 0)
    requires WokenIn(x, Round(x, oracle), oracle, t, w) && t < |x.completed| + x.spawned
    ensures var x1 := Round(x, oracle);
      var x2 := Round(Woken(x1, more), oracle);
      && |x1.completed| == |x.completed| + x.spawned && x1.polls <= x2.polls
      && (|| (exists k: nat :: k > w && PolledAt(x1, k, t)) || x1.completed[t] || t in NewPolls(x1, x2))
  {
    hide Round, Drain;
    RoundIsFair(x, oracle, t);
    RoundFlags(x, oracle, t);
    RoundStops(x, oracle);
    var x1 := Woken(Round(x, oracle), more);
    RoundIsFair(x1, oracle, t);
  }

  lemma {:induction false} NothingPending(x: State, i: nat, oracle: nat -> Effect)
    requires !Visits(x, i, oracle).pending
    ensures Visits(x, i, oracle) == x
    decreases |x.completed| - i
  {
    if i < |x.completed| {
      var x1 := Visit(x, Turn(x, i), oracle);
      VisitsExtend(x1, i + 1, oracle);
      NothingPending(x1, i + 1, oracle);
    }
  }

  /**
   The executor stops after a round in which nothing was pending: exactly if all tasks, and all they
   spawned, are done.
   */
  lemma RoundStops(x: State, oracle: nat -> Effect)
    requires x.Valid() && (|x.completed| == 0 ==> x.start == 0)
    ensures !Round(x, oracle).pending <==> x.AllDone()
    ensures !Round(x, oracle).pending ==> Round(x, oracle).AllDone() && Round(x, oracle).polls == x.polls
    ensures Round(x, oracle).Valid() && (|Round(x, oracle).completed| == 0 ==> Round(x, oracle).start == 0)
  {
    var x0 := Drain(x);
    DrainValid(x);
    VisitsExtend(x0, 0, oracle);
    assert x.spawned > 0 ==> !x0.completed[|x.completed|];
    if !Visits(x0, 0, oracle).pending {
      NothingPending(x0, 0, oracle);
      forall t | 0 <= t < |x0.completed|
        ensures x0.completed[t]
      {
        TurnComes(x0, 0, oracle, t);
      }
      assert forall t | 0 <= t < |x.completed| :: x.completed[t] == x0.completed[t];
    } else if x.AllDone() {
      assert x0.completed == x.completed;
      AllDoneIdle(x0, 0, oracle);
    }
  }

  lemma {:induction false} AllDoneIdle(x: State, i: nat, oracle: nat -> Effect)
    requires forall t | 0 <= t < |x.completed| :: x.completed[t]
    ensures Visits(x, i, oracle) == x
    decreases |x.completed| - i
  {
    if i < |x.completed| { AllDoneIdle(x, i + 1, oracle); }
  }

  // ---- Rounds after rounds ----------------------------------------------------------------------

  /** At most `n` rounds, with the flags of `ticks` raised between them; whether the last one left nothing to do. */
  function Rounds(x: State, oracle: nat -> Effect, ticks: nat -> set<nat>, n: nat): (State, bool)
    decreases n
  {
    if n == 0 then (x, false)
    else
      var x1 := Round(x, oracle);
      if !x1.pending then (x1, true) else Rounds(Woken(x1, ticks(|x1.polls|)), oracle, ticks, n - 1)
  }

  /** The executor comes to its end only when all tasks, spawned ones included, are done; polls are only added. */
  lemma {:induction false} RoundsEnd(x: State, oracle: nat -> Effect, ticks: nat -> set<nat>, n: nat)
    requires x.Valid() && (|x.completed| == 0 ==> x.start == 0)
    ensures var (x', finished) := Rounds(x, oracle, ticks, n);
      && x.polls <= x'.polls && (finished ==> x'.AllDone())
      && x'.Valid() && (|x'.completed| == 0 ==> x'.start == 0)
      && (n > 0 && x.AllDone() ==> finished && x'.polls == x.polls)
    decreases n
  {
    hide Round;
    if n == 0 {
    } else {
      RoundStops(x, oracle);
      RoundPolls(x, oracle);
      var x1 := Round(x, oracle);
      if x1.pending { RoundsEnd(Woken(x1, ticks(|x1.polls|)), oracle, ticks, n - 1); }
    }
  }

  lemma RoundPolls(x: State, oracle: nat -> Effect)
    ensures x.polls <= Round(x, oracle).polls
  {
    VisitsExtend(Drain(x), 0, oracle);
  }

  /** A round starts from scratch: what the last one reported does not matter. */
  lemma RoundForgets(x: State, oracle: nat -> Effect, pending: bool, progress: bool)
    ensures Round(x.(pending := pending, progress := progress), oracle) == Round(x, oracle)
  {
    assert Drain(x.(pending := pending, progress := progress)) == Drain(x);
  }

  // ---- The executor itself ----------------------------------------------------------------------

  class Executor {
    /** One entry per task: whether its future is done. */
    var completed: seq<bool>
    /** The tasks whose flag is up. */
    var ready: set<nat>
    var pollStart: nat
    /** Futures in the spawn queue. */
    var spawned: nat
    var polls: seq<nat>

    ghost function View(pending: bool, progress: bool): State
      reads this
    {
      State(completed, ready, pollStart, spawned, pending, progress, polls)
    }

    ghost predicate Valid()
      reads this
    {
      View(false, false).Valid() && (|completed| == 0 ==> pollStart == 0)
    }

    constructor ()
      ensures Valid() && View(false, false) == State([], {}, 0, 0, false, false, [])
    {
      completed, ready, pollStart, spawned, polls := [], {}, 0, 0, [];
    }

    /** A task given to the executor before it runs starts ready. */
    method Spawn()
      requires Valid()
      modifies this`completed, this`ready
      ensures Valid() && completed == old(completed) + [false] && ready == old(ready) + {|old(completed)|}
    {
      ready := ready + {|completed|};
      completed := completed + [false];
    }

    method DrainSpawns()
      requires Valid()
      modifies this`completed, this`ready, this`spawned
      ensures Valid() && View(false, false) == Drain(old(View(false, false)))
      ensures |completed| == old(|completed| + spawned) && spawned == 0
      ensures forall t: nat | t < |completed| ::
                if t < old(|completed|) then completed[t] == old(completed[t]) && (t in ready <==> t in old(ready))
                else !completed[t] && t in ready
    {
      var n := |completed|;
      for i := 0 to spawned
        invariant completed == old(completed) + seq(i, _ => false) && ready == old(ready) + Range(n, i)
      {
        ready := ready + {|completed|};
        completed := completed + [false];
      }
      spawned := 0;
    }

    /** One task's turn. */
    method VisitTask(idx: nat, oracle: nat -> Effect, pending: bool, progress: bool)
      returns (pending': bool, progress': bool)
      requires Valid() && idx < |completed|
      modifies this`completed, this`ready, this`spawned, this`polls
      ensures Valid() && |completed| == |old(completed)|
      ensures View(pending', progress') == Visit(old(View(pending, progress)), idx, oracle)
    {
      if completed[idx] { return pending, progress; }
      if idx !in ready { return true, progress; }
      ready := ready - {idx};
      var e := oracle(|polls|);
      polls := polls + [idx];
      ready := ready + e.wakes;
      spawned := spawned + e.spawns;
      completed := completed[idx := e.done];
      return true, progress || e.done;
    }

    method PollRound(oracle: nat -> Effect) returns (pending: bool, progress: bool)
      requires Valid()
      modifies this
      ensures Valid() && View(pending, progress) == Round(old(View(false, false)), oracle)
    {
      hide Visit, Drain;
      RoundStops(View(false, false), oracle);
      DrainSpawns();
      ghost var x0 := View(false, false);
      pending, progress := false, false;
      var n := |completed|;
      for i := 0 to n
        invariant Valid() && |completed| == n
        invariant Visits(View(pending, progress), i, oracle) == Visits(x0, 0, oracle)
      {
        pending, progress := VisitTask((pollStart + i) % n, oracle, pending, progress);
      }
      if n > 0 { pollStart := (pollStart + 1) % n; }
    }

    /** At most `rounds` rounds of the event loop; `finished` tells whether it came to its end. */
    method Run(oracle: nat -> Effect, ticks: nat -> set<nat>, rounds: nat) returns (finished: bool)
      requires Valid()
      modifies this
      ensures Valid()
      ensures var (x', f) := Rounds(old(View(false, false)), oracle, ticks, rounds);
        finished == f && View(x'.pending, x'.progress) == x'
      ensures finished ==> spawned == 0 && forall i | 0 <= i < |completed| :: completed[i]
    {
      hide Round;
      RoundsEnd(View(false, false), oracle, ticks, rounds);
      ghost var x := View(false, false);
      for r := 0 to rounds
        invariant Valid() && View(x.pending, x.progress) == x
        invariant Rounds(x, oracle, ticks, rounds - r) == Rounds(old(View(false, false)), oracle, ticks, rounds)
      {
        RoundForgets(x, oracle, false, false);
        var pending, progress := PollRound(oracle);
        x := View(pending, progress);
        if !pending { return true; }
        ready := ready + ticks(|polls|);
        x := View(pending, progress);
      }
      finished := false;
    }
  }
}
