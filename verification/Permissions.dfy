/**
 Message permissions of a connection: a mask for the message ids below 64 and a few id ranges
 for the others, merged where they touch (xous/kernel/src/server.rs).
 */
module Permissions {
  import opened Common

  const MESSAGE_PERMISSION_COUNT: nat := 4
  const MASK_IDS: nat := 64

  /** The ids from `start` up to, but not including, `end`. */
  datatype Range = Range(start: nat, end: nat) {
    predicate IsEmpty() { start >= end }
    predicate Contains(id: nat) { start <= id < end }
  }

  /** The 64-bit mask is kept as the set of its bits. */
  datatype Permissions = Permissions(allowAll: bool, mask: set<nat>, list: seq<Range>) {
    predicate IsPermitted(id: nat) {
      if allowAll then true
      else if id < MASK_IDS then id in mask
      else exists i | 0 <= i < |list| :: list[i].Contains(id)
    }
  }

  function Default(): Permissions {
    Permissions(true, {}, seq(MESSAGE_PERMISSION_COUNT, _ => Range(0, 0)))
  }

  function Min(a: nat, b: nat): nat { if a < b then a else b }
  function Max(a: nat, b: nat): nat { if a > b then a else b }

  /** The range touches the slot, so that their union is one range. */
  predicate Touches(slot: Range, r: Range) {
    slot.start <= r.end && r.start <= slot.end
  }

  /** First slot at or after `i` that touches `r` or is unused, `|list|` if there is none. */
  function Target(list: seq<Range>, r: Range, i: nat): (j: nat)
    requires i <= |list|
    ensures i <= j <= |list|
    ensures j < |list| ==> Touches(list[j], r) || list[j].IsEmpty()
    ensures forall m | i <= m < j :: !Touches(list[m], r) && !list[m].IsEmpty()
    decreases |list| - i
  {
    if i == |list| || Touches(list[i], r) || list[i].IsEmpty() then i else Target(list, r, i + 1)
  }

  function Merged(slot: Range, r: Range): Range {
    if Touches(slot, r) then Range(Min(slot.start, r.start), Max(slot.end, r.end)) else r
  }

  /** The ids from `lo` up to, but not including, `hi`. */
  function Ids(lo: nat, hi: nat): (ids: set<nat>)
    ensures forall id :: id in ids <==> lo <= id < hi
  {
    if lo >= hi then {} else Ids(lo, hi - 1) + {hi - 1}
  }

  /** What adding a range does, and whether it succeeds. */
  function AddRange(p: Permissions, r: Range): (Result<()>, Permissions) {
    if r.IsEmpty() then (Err(InvalidArguments), p)
    else
      var p1 := p.(allowAll := false, mask := p.mask + Ids(r.start, Min(r.end, MASK_IDS)));
      if r.end <= MASK_IDS then (Ok(()), p1)
      else
        var j := Target(p.list, r, 0);
        if j == |p.list| then (Err(OutOfMemory), p1)
        else (Ok(()), p1.(list := p.list[j := Merged(p.list[j], r)]))
  }

  /** The in-place record. */
  class MessagePermissions {
    var allowAll: bool
    var mask: set<nat>
    var list: seq<Range>

    ghost function State(): Permissions
      reads this
    {
      Permissions(allowAll, mask, list)
    }

    constructor ()
      ensures State() == Default()
    {
      allowAll, mask, list := true, {}, seq(MESSAGE_PERMISSION_COUNT, _ => Range(0, 0));
    }

    method Add(messages: Range) returns (r: Result<()>)
      modifies this
      ensures (r, State()) == AddRange(old(State()), messages)
    {
      if messages.IsEmpty() { return Err(InvalidArguments); }
      allowAll := false;
      var mask0 := mask;
      for id := messages.start to Max(messages.start, Min(messages.end, MASK_IDS))
        invariant mask == mask0 + Ids(messages.start, id)
        invariant !allowAll && list == old(list)
      {
        mask := mask + {id};
      }
      assert mask == mask0 + Ids(messages.start, Min(messages.end, MASK_IDS));
      if messages.end <= MASK_IDS { return Ok(()); }
      for i := 0 to |list|
        invariant Target(list, messages, 0) >= i
      {
        var slot := list[i];
        if slot.start <= messages.end && messages.start <= slot.end {
          list := list[i := Range(Min(slot.start, messages.start), Max(slot.end, messages.end))];
          return Ok(());
        }
        if slot.IsEmpty() {
          list := list[i := messages];
          return Ok(());
        }
      }
      r := Err(OutOfMemory);
    }
  }

  // ---- Whole histories --------------------------------------------------------------------------

  /** The permissions after further adds, oldest first. */
  function Replay(p: Permissions, history: seq<Range>): Permissions
    decreases |history|
  {
    if history == [] then p else Replay(AddRange(p, history[0]).1, history[1..])
  }

  /** Some add of the history covered `id`, and had room or `id` needs none. */
  predicate Granted(p: Permissions, history: seq<Range>, id: nat)
    decreases |history|
  {
    history != [] &&
    var (ok, p') := AddRange(p, history[0]);
    (history[0].Contains(id) && (ok.Ok? || id < MASK_IDS)) || Granted(p', history[1..], id)
  }

  /** A range that was added stays non-empty and merging adds exactly the ids of both. */
  lemma MergedContains(slot: Range, r: Range, id: nat)
    requires !r.IsEmpty() && (Touches(slot, r) || slot.IsEmpty())
    ensures Merged(slot, r).Contains(id) <==> slot.Contains(id) || r.Contains(id)
    ensures !Merged(slot, r).IsEmpty()
  {
  }

  /** One add grants the ids of its range and nothing else. */
  lemma AddExact(p: Permissions, r: Range, id: nat)
    requires !r.IsEmpty() && |p.list| == MESSAGE_PERMISSION_COUNT
    requires p.allowAll ==> p == Default()
    ensures var (ok, p') := AddRange(p, r);
      && |p'.list| == MESSAGE_PERMISSION_COUNT && !p'.allowAll
      && (p'.IsPermitted(id) <==> (!p.allowAll && p.IsPermitted(id)) || (r.Contains(id) && (ok.Ok? || id < MASK_IDS)))
  {
    var (ok, p') := AddRange(p, r);
    if id >= MASK_IDS && r.end > MASK_IDS {
      var j := Target(p.list, r, 0);
      if j < |p.list| {
        MergedContains(p.list[j], r, id);
        assert p'.list[j] == Merged(p.list[j], r);
        if p.allowAll { assert forall m | 0 <= m < |p.list| :: p.list[m] == Range(0, 0); }
        assert forall m | 0 <= m < |p.list| && m != j :: p'.list[m] == p.list[m];
        assert p'.list[j].Contains(id) <==> p.list[j].Contains(id) || r.Contains(id);
      }
    }
  }

  /** A range that goes beyond the mask needs a slot that is unused or that it touches. */
  ghost predicate HasRoom(list: seq<Range>, r: Range) {
    r.end <= MASK_IDS || exists i | 0 <= i < |list| :: Touches(list[i], r) || list[i].IsEmpty()
  }

  /** An add fails exactly if its range is empty or finds no room; in the second case the mask has changed already. */
  lemma AddFailsExactly(p: Permissions, r: Range)
    ensures var (ok, p') := AddRange(p, r);
      && (ok.Ok? <==> !r.IsEmpty() && HasRoom(p.list, r))
      && (ok == Err(InvalidArguments) <==> r.IsEmpty()) && (r.IsEmpty() ==> p' == p)
      && (ok == Err(OutOfMemory) <==> !r.IsEmpty() && !HasRoom(p.list, r)) && (ok.Err? ==> p'.list == p.list)
  {
    var j := Target(p.list, r, 0);
    if r.end > MASK_IDS && j < |p.list| {
      assert HasRoom(p.list, r);
    }
  }

  /** Slots in use among the first `n`. */
  function Used(list: seq<Range>, n: nat): nat
    requires n <= |list|
  {
    if n == 0 then 0 else Used(list, n - 1) + if list[n - 1].IsEmpty() then 0 else 1
  }

  lemma {:induction false} UsedUpdate(list: seq<Range>, n: nat, j: nat, r: Range)
    requires n <= |list| && j < |list|
    ensures Used(list[j := r], n) <= Used(list, n) + 1 && (j >= n ==> Used(list[j := r], n) == Used(list, n))
    ensures !list[j].IsEmpty() ==> Used(list[j := r], n) <= Used(list, n)
  {
    if n == 0 {
    } else {
      UsedUpdate(list, n - 1, j, r);
    }
  }

  lemma {:induction false} UnusedSlot(list: seq<Range>, n: nat)
    requires n <= |list| && Used(list, n) < n
    ensures exists i | 0 <= i < n :: list[i].IsEmpty()
  {
    if n == 0 {
    } else if list[n - 1].IsEmpty() {
    } else {
      UnusedSlot(list, n - 1);
    }
  }

  /** Every add takes at most one slot: as many non-empty ranges as there are slots left always fit. */
  lemma {:induction false} SlotsSuffice(p: Permissions, history: seq<Range>, r: Range)
    requires Used(p.list, |p.list|) + |history| < |p.list| && !r.IsEmpty()
    ensures AddRange(Replay(p, history), r).0.Ok?
    decreases |history|
  {
    if history == [] {
      UnusedSlot(p.list, |p.list|);
      AddFailsExactly(p, r);
    } else {
      var j := Target(p.list, history[0], 0);
      if j < |p.list| {
        UsedUpdate(p.list, |p.list|, j, Merged(p.list[j], history[0]));
      }
      SlotsSuffice(AddRange(p, history[0]).1, history[1..], r);
    }
  }

  /** In particular the first four ranges added to a fresh record always fit. */
  lemma FourFit(history: seq<Range>, r: Range)
    requires |history| < MESSAGE_PERMISSION_COUNT && !r.IsEmpty()
    ensures AddRange(Replay(Default(), history), r).0.Ok?
  {
    var list := Default().list;
    assert Used(list, 4) == 0;
    SlotsSuffice(Default(), history, r);
  }

  /**
   After any history of non-empty adds, a message is permitted if and only if it was before (when
   the record is not the all-permitting default), or some add covered it and had room, or covered
   it and its id is below 64: merging never grants an id nobody added and never drops one.
   */
  lemma {:induction false} PermittedExactly(p: Permissions, history: seq<Range>, id: nat)
    requires |p.list| == MESSAGE_PERMISSION_COUNT && (p.allowAll ==> p == Default())
    requires history != [] && forall i | 0 <= i < |history| :: !history[i].IsEmpty()
    ensures Replay(p, history).IsPermitted(id) <==>
            (!p.allowAll && p.IsPermitted(id)) || Granted(p, history, id)
    decreases |history|
  {
    AddExact(p, history[0], id);
    if |history| > 1 {
      PermittedExactly(AddRange(p, history[0]).1, history[1..], id);
    }
  }
}
