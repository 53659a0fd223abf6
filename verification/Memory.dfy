/** The physical page allocator (xous/kernel/src/mem.rs). */
module Memory {
  import opened Common

  // ---- Counting ---------------------------------------------------------------------------------

  /** Number of pages among the first `n` that have no owner. */
  function Unowned(owners: seq<Option<nat>>, n: nat): (c: nat)
    requires n <= |owners|
    ensures c <= n
  {
    if n == 0 then 0 else Unowned(owners, n - 1) + (if owners[n - 1].None? then 1 else 0)
  }

  lemma {:induction false} UnownedUpdate(owners: seq<Option<nat>>, n: nat, i: nat, o: Option<nat>)
    requires n <= |owners| && i < |owners|
    ensures Unowned(owners[i := o], n) == Unowned(owners, n) +
            (if i >= n || owners[i].None? == o.None? then 0 else if o.None? then 1 else -1)
    decreases n
  {
    if n == 0 {
    } else {
      UnownedUpdate(owners, n - 1, i, o);
    }
  }

  /** `runs` pages without an owner count. */
  lemma {:induction false} UnownedRange(owners: seq<Option<nat>>, n: nat, lo: nat, hi: nat)
    requires lo <= hi <= n <= |owners| && forall i | lo <= i < hi :: owners[i].None?
    ensures Unowned(owners, n) >= hi - lo
    decreases n
  {
    if n == 0 {
    } else {
      if hi == n && lo < hi { UnownedRange(owners, n - 1, lo, hi - 1); }
      else if hi < n { UnownedRange(owners, n - 1, lo, hi); }
    }
  }

  // ---- Addresses --------------------------------------------------------------------------------

  /** Main memory is visible at two addresses; further regions follow it in the owner table. */
  datatype Layout = Layout(
    pageSize: nat, ramPages: nat, encryptedBase: nat, plaintextBase: nat, regions: seq<(nat, nat)>)
  {
    ghost predicate Valid() {
      pageSize > 0 && (encryptedBase + ramPages * pageSize <= plaintextBase ||
            plaintextBase + ramPages * pageSize <= encryptedBase)
    }

    function RegionOffset(addr: nat, r: nat, offset: nat): Option<nat>
      requires pageSize > 0 && r <= |regions|
      decreases |regions| - r
    {
      if r == |regions| then None
      else if regions[r].0 <= addr < regions[r].0 + regions[r].1 then Some(offset + (addr - regions[r].0) / pageSize)
      else RegionOffset(addr, r + 1, offset + regions[r].1 / pageSize)
    }

    /** The place of a physical address in the owner table. */
    function Offset(addr: nat): Option<nat>
      requires pageSize > 0
    {
      if encryptedBase <= addr < encryptedBase + ramPages * pageSize then Some((addr - encryptedBase) / pageSize)
      else if plaintextBase <= addr < plaintextBase + ramPages * pageSize then Some((addr - plaintextBase) / pageSize)
      else RegionOffset(addr, 0, ramPages)
    }

    /** Places in the owner table from region `r` on. */
    function RegionPages(r: nat): nat
      requires pageSize > 0 && r <= |regions|
      decreases |regions| - r
    {
      if r == |regions| then 0 else regions[r].1 / pageSize + RegionPages(r + 1)
    }

    /** The regions consist of whole pages, and the owner table has a place for each. */
    ghost predicate Fits(places: nat) {
      pageSize > 0 && (forall r | 0 <= r < |regions| :: regions[r].1 % pageSize == 0) &&
          places == ramPages + RegionPages(0)
    }

    /** The address an allocation of page `i` returns. */
    function Address(i: nat): nat {
      encryptedBase + i * pageSize
    }
  }

  lemma NoMultipleBelow(d: int, size: nat, r: int)
    requires d * size == r && 0 <= r < size
    ensures d == 0
  {
  }

  lemma PageOf(i: nat, size: nat)
    requires size > 0
    ensures (i * size) / size == i
  {
    var q := (i * size) / size;
    assert (i - q) * size == (i * size) % size;
    NoMultipleBelow(i - q, size, (i * size) % size);
  }

  lemma WithinPages(i: nat, n: nat, size: nat)
    requires i < n && size > 0
    ensures i * size < n * size
  {
  }

  /** An allocated address leads back to its page, through either view of main memory. */
  lemma AddressRoundTrip(l: Layout, i: nat)
    requires l.Valid() && i < l.ramPages
    ensures l.Offset(l.Address(i)) == Some(i)
    ensures l.Offset(l.plaintextBase + i * l.pageSize) == Some(i)
  {
    WithinPages(i, l.ramPages, l.pageSize);
    PageOf(i, l.pageSize);
  }

  lemma FewerPages(a: nat, b: nat, page: nat)
    requires a * page < b * page
    ensures a < b
  {
  }

  lemma PageInside(a: nat, size: nat, page: nat)
    requires page > 0 && a < size && size % page == 0
    ensures a / page < size / page
  {
    assert size == (size / page) * page && a == (a / page) * page + a % page;
    FewerPages(a / page, size / page, page);
  }

  lemma {:induction false} RegionInside(l: Layout, addr: nat, r: nat, offset: nat)
    requires l.pageSize > 0 && r <= |l.regions| && forall i | 0 <= i < |l.regions| :: l.regions[i].1 % l.pageSize == 0
    ensures l.RegionOffset(addr, r, offset).Some? ==>
            offset <= l.RegionOffset(addr, r, offset).value < offset + l.RegionPages(r)
    decreases |l.regions| - r
  {
    if r == |l.regions| {
    } else if l.regions[r].0 <= addr < l.regions[r].0 + l.regions[r].1 {
      PageInside(addr - l.regions[r].0, l.regions[r].1, l.pageSize);
    } else {
      RegionInside(l, addr, r + 1, offset + l.regions[r].1 / l.pageSize);
    }
  }

  /** Every address that is found lies in the owner table: in main memory exactly if it is in one of its two views. */
  lemma OffsetInside(l: Layout, addr: nat, places: nat)
    requires l.Fits(places)
    ensures var i := l.Offset(addr);
      i.Some? ==> i.value < places && (i.value < l.ramPages <==>
        || l.encryptedBase <= addr < l.encryptedBase + l.ramPages * l.pageSize
        || l.plaintextBase <= addr < l.plaintextBase + l.ramPages * l.pageSize)
  {
    RegionInside(l, addr, 0, l.ramPages);
    PageOf(l.ramPages, l.pageSize);
    if l.encryptedBase <= addr < l.encryptedBase + l.ramPages * l.pageSize {
      PageInside(addr - l.encryptedBase, l.ramPages * l.pageSize, l.pageSize);
    } else if l.plaintextBase <= addr < l.plaintextBase + l.ramPages * l.pageSize {
      PageInside(addr - l.plaintextBase, l.ramPages * l.pageSize, l.pageSize);
    }
  }

  /** Page `i` of region `r` has a place of its own: behind main memory and the regions before it. */
  lemma {:induction false} RegionPage(l: Layout, from: nat, r: nat, i: nat, offset: nat)
    requires l.pageSize > 0 && from <= r < |l.regions|
    requires i * l.pageSize < l.regions[r].1
    requires forall q | from <= q < r ::
               !(l.regions[q].0 <= l.regions[r].0 + i * l.pageSize < l.regions[q].0 + l.regions[q].1)
    ensures l.RegionOffset(l.regions[r].0 + i * l.pageSize, from, offset) ==
            Some(offset + (l.RegionPages(from) - l.RegionPages(r)) + i)
    decreases r - from
  {
    if from == r {
      PageOf(i, l.pageSize);
    } else {
      RegionPage(l, from + 1, r, i, offset + l.regions[from].1 / l.pageSize);
    }
  }

  /** The same from any address: the regions do not overlap main memory or one another. */
  lemma RegionRoundTrip(l: Layout, r: nat, i: nat)
    requires l.pageSize > 0 && r < |l.regions| && i * l.pageSize < l.regions[r].1
    requires var addr := l.regions[r].0 + i * l.pageSize;
      && !(l.encryptedBase <= addr < l.encryptedBase + l.ramPages * l.pageSize)
      && !(l.plaintextBase <= addr < l.plaintextBase + l.ramPages * l.pageSize)
      && forall q | 0 <= q < r :: !(l.regions[q].0 <= addr < l.regions[q].0 + l.regions[q].1)
    ensures l.Offset(l.regions[r].0 + i * l.pageSize) == Some(l.ramPages + (l.RegionPages(0) - l.RegionPages(r)) + i)
  {
    RegionPage(l, 0, r, i, l.ramPages);
  }

  // ---- The allocator ----------------------------------------------------------------------------

  function Filled<T>(s: seq<T>, lo: nat, hi: nat, v: T): (r: seq<T>)
    requires lo <= hi <= |s|
    ensures |r| == |s| && forall i | 0 <= i < |s| :: r[i] == if lo <= i < hi then v else s[i]
  {
    s[..lo] + seq(hi - lo, _ => v) + s[hi..]
  }

  function Pages(lo: nat, n: nat): (s: set<nat>)
    ensures forall i: nat :: i in s <==> lo <= i < lo + n
  {
    if n == 0 then {} else Pages(lo, n - 1) + {lo + n - 1}
  }

  // ---- What the tables mean ---------------------------------------------------------------------

  /**
   The tables of the allocator.  `inFlight` are the pages the zeroer has taken and not yet given
   back, `used` those that have had an owner since they were last zeroed.
   */
  datatype Frames = Frames(
    ramPages: nat, lowMark: nat, highMark: nat, owners: seq<Option<nat>>, dirty: seq<bool>, zeroed: seq<bool>,
    inFlight: set<nat>, used: set<nat>, numFree: nat, lowMemory: bool)
  {
    ghost predicate Sized() {
      |owners| >= ramPages && |dirty| == |zeroed| == ramPages && lowMark <= highMark
    }

    /** A page of main memory is owned, dirty, zeroed or being zeroed, and only one of these. */
    predicate InOnePlace(i: nat)
      requires i < |owners| && i < |dirty| && i < |zeroed|
    {
      && (owners[i].Some? || dirty[i] || zeroed[i] || i in inFlight)
      && !(owners[i].Some? && (dirty[i] || zeroed[i] || i in inFlight))
      && !(dirty[i] && (zeroed[i] || i in inFlight)) && !(zeroed[i] && i in inFlight)
    }

    /** What every operation keeps; `roomy` tells whether enough pages were free at the start. */
    ghost predicate Ok(roomy: bool) {
      && Sized()
      && (forall i: nat | i < ramPages :: InOnePlace(i))
      && (forall i | i in inFlight :: i < ramPages)
      && (forall i: nat | i < ramPages && zeroed[i] :: i !in used)
      && numFree == Unowned(owners, ramPages)
      && (lowMemory ==> numFree < highMark) && (roomy && !lowMemory ==> numFree >= lowMark)
    }

    /** Pages `[lo, lo + n)` all have their bit set. */
    ghost predicate AllZeroed(lo: nat, n: nat) {
      lo + n <= |zeroed| && forall j | lo <= j < lo + n :: zeroed[j]
    }

    ghost predicate AllDirty(lo: nat, n: nat) {
      lo + n <= |dirty| && forall j | lo <= j < lo + n :: dirty[j]
    }

    ghost predicate AllFree(lo: nat, n: nat) {
      lo + n <= |zeroed| == |dirty| && forall j | lo <= j < lo + n :: zeroed[j] || dirty[j]
    }

    ghost predicate NoneFree() {
      forall i: nat | i < |zeroed| && i < |dirty| :: !zeroed[i] && !dirty[i]
    }

    /** The count went down by `n`: too few pages raise the flag. */
    function Less(n: nat): Frames {
      var left := if n <= numFree then numFree - n else 0;
      this.(numFree := left, lowMemory := lowMemory || left < lowMark)
    }

    /** The count went up by `n`: enough pages lower the flag. */
    function More(n: nat): Frames {
      this.(numFree := numFree + n, lowMemory := lowMemory && numFree + n < highMark)
    }

    /** Pages `[lo, lo + n)` go to `pid`. */
    function Give(lo: nat, n: nat, pid: nat): Frames
      requires lo + n <= |owners| && lo + n <= |dirty| && lo + n <= |zeroed|
    {
      Less(n).(owners := Filled(owners, lo, lo + n, Some(pid)), used := used + Pages(lo, n),
               dirty := Filled(dirty, lo, lo + n, false), zeroed := Filled(zeroed, lo, lo + n, false))
    }

    /** A page of main memory loses its owner. */
    function TakeBack(i: nat): Frames
      requires i < |owners| && i < |dirty|
    {
      More(1).(owners := owners[i := None], dirty := dirty[i := true])
    }

    /** The zeroer takes dirty pages, and gives them back zeroed. */
    function StartZeroing(lo: nat, n: nat): Frames
      requires lo + n <= |dirty|
    {
      this.(dirty := Filled(dirty, lo, lo + n, false), inFlight := inFlight + Pages(lo, n))
    }

    function FinishZeroing(lo: nat, n: nat): Frames
      requires lo + n <= |zeroed|
    {
      this.(zeroed := Filled(zeroed, lo, lo + n, true), inFlight := inFlight - Pages(lo, n),
            used := used - Pages(lo, n))
    }
  }

  lemma {:induction false} UnownedFilled(owners: seq<Option<nat>>, n: nat, lo: nat, hi: nat, pid: nat)
    requires lo <= hi <= n <= |owners| && forall i | lo <= i < hi :: owners[i].None?
    ensures Unowned(Filled(owners, lo, hi, Some(pid)), n) == Unowned(owners, n) - (hi - lo)
    decreases hi
  {
    if lo == hi {
      assert Filled(owners, lo, hi, Some(pid)) == owners;
    } else {
      var f := Filled(owners, lo, hi - 1, Some(pid));
      UnownedFilled(owners, n, lo, hi - 1, pid);
      UnownedUpdate(f, n, hi - 1, Some(pid));
      assert Filled(owners, lo, hi, Some(pid)) == f[hi - 1 := Some(pid)];
    }
  }

  /** Owners and pools of all pages but `[lo, lo + n)` are the same. */
  ghost predicate SameElsewhere(m: Frames, m': Frames, lo: nat, n: nat) {
    && m'.ramPages == m.ramPages && m'.lowMark == m.lowMark && m'.highMark == m.highMark
    && |m'.owners| == |m.owners| && |m'.dirty| == |m.dirty| && |m'.zeroed| == |m.zeroed|
    && (forall i | 0 <= i < |m.owners| && !(lo <= i < lo + n) :: m'.owners[i] == m.owners[i])
    && (forall i | 0 <= i < |m.dirty| && !(lo <= i < lo + n) :: m'.dirty[i] == m.dirty[i])
    && (forall i | 0 <= i < |m.zeroed| && !(lo <= i < lo + n) :: m'.zeroed[i] == m.zeroed[i])
  }

  /** Free pages have no owner, and the counter covers them. */
  lemma FreeUnowned(m: Frames, roomy: bool, lo: nat, n: nat)
    requires m.Ok(roomy) && m.AllFree(lo, n)
    ensures n <= m.numFree && forall i | lo <= i < lo + n :: m.owners[i].None?
  {
    forall i | lo <= i < lo + n
      ensures m.owners[i].None?
    {
      assert m.InOnePlace(i);
    }
    UnownedRange(m.owners, m.ramPages, lo, lo + n);
  }

  /** Free pages that are given away have their new owner and are in no pool; no other page is touched. */
  lemma GiveOk(m: Frames, roomy: bool, lo: nat, n: nat, pid: nat)
    requires m.Ok(roomy) && m.AllFree(lo, n)
    ensures n <= m.numFree && m.Give(lo, n, pid).Ok(roomy)
    ensures var m' := m.Give(lo, n, pid);
      && SameElsewhere(m, m', lo, n) && m'.inFlight == m.inFlight && m'.numFree == m.numFree - n
      && (forall i | lo <= i < lo + n :: m'.owners[i] == Some(pid) && !m'.dirty[i] && !m'.zeroed[i])
      && m'.lowMemory == (m.lowMemory || m.numFree - n < m.lowMark)
  {
    FreeUnowned(m, roomy, lo, n);
    UnownedFilled(m.owners, m.ramPages, lo, lo + n, pid);
    var m' := m.Give(lo, n, pid);
    forall i: nat | i < m.ramPages
      ensures m'.InOnePlace(i)
    {
      assert m.InOnePlace(i);
    }
  }

  /** A page that is taken back has no owner and is dirty. */
  lemma TakeBackOk(m: Frames, roomy: bool, i: nat)
    requires m.Ok(roomy) && i < m.ramPages && m.owners[i].Some?
    ensures m.numFree < m.ramPages && m.TakeBack(i).Ok(roomy)
    ensures var m' := m.TakeBack(i);
      && SameElsewhere(m, m', i, 1) && m'.inFlight == m.inFlight && m'.numFree == m.numFree + 1
      && m'.owners[i].None? && m'.dirty[i] && !m'.zeroed[i]
      && m'.lowMemory == (m.lowMemory && m.numFree + 1 < m.highMark)
  {
    UnownedUpdate(m.owners, m.ramPages, i, None);
    var m' := m.TakeBack(i);
    assert m.InOnePlace(i);
    forall j: nat | j < m.ramPages
      ensures m'.InOnePlace(j)
    {
      assert m.InOnePlace(j);
    }
  }

  lemma StartZeroingOk(m: Frames, roomy: bool, lo: nat, n: nat)
    requires m.Ok(roomy) && m.AllDirty(lo, n)
    ensures m.StartZeroing(lo, n).Ok(roomy)
    ensures var m' := m.StartZeroing(lo, n);
      && SameElsewhere(m, m', lo, n) && m'.numFree == m.numFree && m'.lowMemory == m.lowMemory
      && (forall i: nat :: i in m'.inFlight <==> i in m.inFlight || lo <= i < lo + n)
      && (forall i | lo <= i < lo + n :: m'.owners[i].None? && !m'.dirty[i] && !m'.zeroed[i])
  {
    forall i: nat | lo <= i < lo + n
      ensures m.InOnePlace(i) && m.owners[i].None? && !m.zeroed[i]
    {
      assert m.InOnePlace(i);
    }
    var m' := m.StartZeroing(lo, n);
    forall j: nat | j < m.ramPages
      ensures m'.InOnePlace(j)
    {
      assert m.InOnePlace(j);
    }
  }

  lemma FinishZeroingOk(m: Frames, roomy: bool, lo: nat, n: nat)
    requires m.Ok(roomy) && lo + n <= m.ramPages && forall i | lo <= i < lo + n :: i in m.inFlight
    ensures m.FinishZeroing(lo, n).Ok(roomy)
    ensures var m' := m.FinishZeroing(lo, n);
      && SameElsewhere(m, m', lo, n) && m'.numFree == m.numFree && m'.lowMemory == m.lowMemory
      && (forall i: nat :: i in m'.inFlight <==> i in m.inFlight && !(lo <= i < lo + n))
      && (forall i | lo <= i < lo + n :: m'.owners[i].None? && !m'.dirty[i] && m'.zeroed[i])
  {
    forall i: nat | lo <= i < lo + n
      ensures m.InOnePlace(i) && m.owners[i].None? && !m.dirty[i]
    {
      assert m.InOnePlace(i);
    }
    var m' := m.FinishZeroing(lo, n);
    forall j: nat | j < m.ramPages
      ensures m'.InOnePlace(j)
    {
      assert m.InOnePlace(j);
    }
  }

  /** A page that has an owner changes hands, or a page outside main memory gets or loses one. */
  lemma ReassignOk(m: Frames, roomy: bool, i: nat, o: Option<nat>)
    requires m.Ok(roomy) && i < |m.owners| && (i < m.ramPages ==> m.owners[i].Some? && o.Some?)
    ensures m.(owners := m.owners[i := o]).Ok(roomy)
  {
    UnownedUpdate(m.owners, m.ramPages, i, o);
    var m' := m.(owners := m.owners[i := o]);
    forall j: nat | j < m.ramPages
      ensures m'.InOnePlace(j)
    {
      assert m.InOnePlace(j);
    }
  }

  // ---- Starting up ------------------------------------------------------------------------------

  /** The tables after a scan of the first `scan` pages: those without an owner are free, and dirty. */
  function AfterScan(owners: seq<Option<nat>>, ramPages: nat, scan: nat, lowMark: nat, highMark: nat): Frames
    requires scan <= ramPages <= |owners|
  {
    Frames(ramPages, lowMark, highMark, owners,
           seq(ramPages, i requires 0 <= i < ramPages => i < scan && owners[i].None?),
           seq(ramPages, _ => false), {}, Pages(0, ramPages), Unowned(owners, scan), false)
  }

  lemma {:induction false} UnownedBeyond(owners: seq<Option<nat>>, scan: nat, n: nat)
    requires scan <= n <= |owners| && forall i | scan <= i < n :: owners[i].Some?
    ensures Unowned(owners, n) == Unowned(owners, scan)
    decreases n
  {
    if scan < n { UnownedBeyond(owners, scan, n - 1); }
  }

  /** A partial scan makes sound tables exactly if every page it leaves out has an owner. */
  lemma ScanIsSound(owners: seq<Option<nat>>, ramPages: nat, scan: nat, lowMark: nat, highMark: nat)
    requires scan <= ramPages <= |owners| && lowMark <= highMark
    ensures var m := AfterScan(owners, ramPages, scan, lowMark, highMark);
      m.Ok(m.numFree >= lowMark) <==> forall i | scan <= i < ramPages :: owners[i].Some?
  {
    var m := AfterScan(owners, ramPages, scan, lowMark, highMark);
    if forall i | scan <= i < ramPages :: owners[i].Some? {
      UnownedBeyond(owners, scan, ramPages);
    }
    if m.Ok(m.numFree >= lowMark) {
      forall i | scan <= i < ramPages
        ensures owners[i].Some?
      {
        assert m.InOnePlace(i);
      }
    }
  }

  // ---- Whole runs -------------------------------------------------------------------------------

  /** What happens to pages: allocation or claim, loss of the owner, change of hands, and the zeroer's two steps. */
  datatype PageEvent =
    | Given(lo: nat, n: nat, pid: nat)
    | Lost(i: nat)
    | Moved(i: nat, pid: nat)
    | Taken(lo: nat, n: nat)
    | Cleaned(lo: nat, n: nat)

  ghost predicate Can(m: Frames, e: PageEvent) {
    match e
    case Given(lo, n, _) => m.AllFree(lo, n)
    case Lost(i) => i < m.ramPages <= |m.owners| && m.owners[i].Some?
    case Moved(i, _) => i < |m.owners| && m.owners[i].Some?
    case Taken(lo, n) => m.AllDirty(lo, n)
    case Cleaned(lo, n) => lo + n <= m.ramPages && forall i | lo <= i < lo + n :: i in m.inFlight
  }

  ghost function Next(m: Frames, e: PageEvent): Frames
    requires m.Sized() && Can(m, e)
  {
    match e
    case Given(lo, n, pid) => m.Give(lo, n, pid)
    case Lost(i) => m.TakeBack(i)
    case Moved(i, pid) => m.(owners := m.owners[i := Some(pid)])
    case Taken(lo, n) => m.StartZeroing(lo, n)
    case Cleaned(lo, n) => m.FinishZeroing(lo, n)
  }

  /** Each event keeps the partition and the count, and moves the flag only at its two marks. */
  lemma NextOk(m: Frames, roomy: bool, e: PageEvent)
    requires m.Ok(roomy) && Can(m, e)
    ensures var m' := Next(m, e);
      && m'.Ok(roomy)
      && (!m.lowMemory && m'.lowMemory ==> m'.numFree < m.lowMark)
      && (m.lowMemory && !m'.lowMemory ==> m'.numFree >= m.highMark)
  {
    match e
    case Given(lo, n, pid) => GiveOk(m, roomy, lo, n, pid);
    case Lost(i) => TakeBackOk(m, roomy, i);
    case Moved(i, pid) => ReassignOk(m, roomy, i, Some(pid));
    case Taken(lo, n) => StartZeroingOk(m, roomy, lo, n);
    case Cleaned(lo, n) => FinishZeroingOk(m, roomy, lo, n);
  }

  ghost predicate History(m: Frames, es: seq<PageEvent>, m': Frames)
    decreases |es|
  {
    if es == [] then m' == m else m.Sized() && Can(m, es[0]) && History(Next(m, es[0]), es[1..], m')
  }

  /** Through every mix of events, each page is in one place and the counter counts the pages without an owner. */
  lemma {:induction false} HistoryOk(m: Frames, roomy: bool, es: seq<PageEvent>, m': Frames)
    requires m.Ok(roomy) && History(m, es, m')
    ensures m'.Ok(roomy)
    decreases |es|
  {
    if es == [] {
    } else {
      NextOk(m, roomy, es[0]);
      HistoryOk(Next(m, es[0]), roomy, es[1..], m');
    }
  }

  /** What event `e` does about the owner of page `i`, if anything. */
  function NewOwner(e: PageEvent, i: nat): Option<Option<nat>> {
    match e
    case Given(lo, n, pid) => if lo <= i < lo + n then Some(Some(pid)) else None
    case Lost(j) => if i == j then Some(None) else None
    case Moved(j, pid) => if i == j then Some(Some(pid)) else None
    case _ => None
  }

  /** The owner that the last event about page `i` leaves it with. */
  function LastOwner(first: Option<nat>, es: seq<PageEvent>, i: nat): Option<nat>
    decreases |es|
  {
    if es == [] then first
    else
      var e := NewOwner(es[|es| - 1], i);
      if e.Some? then e.value else LastOwner(first, es[..|es| - 1], i)
  }

  lemma {:induction false} LastOwnerFirst(first: Option<nat>, es: seq<PageEvent>, i: nat)
    requires es != []
    ensures LastOwner(first, es, i) ==
            LastOwner(if NewOwner(es[0], i).Some? then NewOwner(es[0], i).value else first, es[1..], i)
    decreases |es|
  {
    if |es| == 1 {
      assert es[..0] == [] && es[1..] == [];
    } else {
      assert es[1..][|es| - 2] == es[|es| - 1] && es[1..][..|es| - 2] == es[..|es| - 1][1..];
      LastOwnerFirst(first, es[..|es| - 1], i);
    }
  }

  /** A page belongs to whom it was last given or moved, and to nobody once it was taken back. */
  lemma {:induction false} OwnedByLast(m: Frames, roomy: bool, es: seq<PageEvent>, m': Frames, i: nat)
    requires m.Ok(roomy) && History(m, es, m') && i < |m.owners|
    ensures |m'.owners| == |m.owners| && m'.owners[i] == LastOwner(m.owners[i], es, i)
    decreases |es|
  {
    if es == [] {
    } else {
      var m1 := Next(m, es[0]);
      NextOk(m, roomy, es[0]);
      assert |m1.owners| == |m.owners| &&
             m1.owners[i] == if NewOwner(es[0], i).Some? then NewOwner(es[0], i).value else m.owners[i];
      hide *;
      LastOwnerFirst(m.owners[i], es, i);
      OwnedByLast(m1, roomy, es[1..], m', i) by { HistoryNext(m, es, m'); }
    }
  }

  lemma HistoryNext(m: Frames, es: seq<PageEvent>, m': Frames)
    requires History(m, es, m') && es != []
    ensures m.Sized() && Can(m, es[0]) && History(Next(m, es[0]), es[1..], m')
  {
  }

  predicate Covers(lo: nat, n: nat, i: nat) {
    lo <= i < lo + n
  }

  /** Nobody is given page `i` from event `c` on. */
  ghost predicate NotGiven(es: seq<PageEvent>, c: nat, i: nat) {
    forall d | c <= d < |es| && es[d].Given? :: !Covers(es[d].lo, es[d].n, i)
  }

  /** Event `c` gives page `i` back zeroed, and nobody is given it afterwards. */
  ghost predicate CleansAt(es: seq<PageEvent>, c: nat, i: nat) {
    c < |es| && es[c].Cleaned? && Covers(es[c].lo, es[c].n, i) && NotGiven(es, c + 1, i)
  }

  /** A page in the zeroed bitmap has had no owner since the zeroer last gave it back. */
  lemma {:induction false} ZeroedSinceLastOwner(m: Frames, roomy: bool, es: seq<PageEvent>, m': Frames, i: nat)
    requires m.Ok(roomy) && History(m, es, m') && i < |m'.zeroed| && m'.zeroed[i]
    ensures (i !in m.used && NotGiven(es, 0, i)) || exists c: nat :: CleansAt(es, c, i)
    decreases |es|
  {
    if es == [] {
      assert m.Ok(roomy);
    } else {
      var rest := es[1..];
      NextOk(m, roomy, es[0]);
      ZeroedSinceLastOwner(Next(m, es[0]), roomy, rest, m', i);
      assert forall d | 1 <= d < |es| :: es[d] == rest[d - 1];
      if c: nat :| CleansAt(rest, c, i) {
        assert CleansAt(es, c + 1, i);
      } else if es[0].Cleaned? && Covers(es[0].lo, es[0].n, i) {
        assert CleansAt(es, 0, i);
      }
    }
  }

  /** One of the first four pages of the peripheral at `base`. */
  predicate FirstPages(l: Layout, base: nat, addr: nat) {
    addr == base || addr == base + l.pageSize || addr == base + 2 * l.pageSize || addr == base + 3 * l.pageSize
  }

  /** Part of a peripheral that user processes share with the kernel. */
  predicate Shared(l: Layout, peripherals: seq<nat>, addr: nat) {
    exists i | 0 <= i < |peripherals| :: FirstPages(l, peripherals[i], addr)
  }

  /** What a process wants with a page. */
  datatype Action = Claim | Move(existing: nat) | Release

  /** What becomes of the request, for the page at place `i` of the owner table. */
  function Verdict(m: Frames, i: nat, pid: nat, action: Action): Result<()>
    requires i < |m.owners|
  {
    match action
    case Claim => if m.owners[i].Some? || i in m.inFlight then Err(MemoryInUse) else Ok(())
    case Move(existing) =>
      if m.owners[i].None? then Err(DoubleFree)
      else if m.owners[i] == Some(pid) || m.owners[i] == Some(existing) then Ok(()) else Err(MemoryInUse)
    case Release =>
      if m.owners[i].None? then Err(DoubleFree) else if m.owners[i] == Some(pid) then Ok(()) else Err(MemoryInUse)
  }

  /** The tables after a request that was granted. */
  function Granted(m: Frames, i: nat, pid: nat, action: Action): Frames
    requires i < |m.owners| && |m.owners| >= m.ramPages && |m.dirty| == |m.zeroed| == m.ramPages
  {
    match action
    case Claim => if i < m.ramPages then m.Give(i, 1, pid) else m.(owners := m.owners[i := Some(pid)])
    case Move(_) => m.(owners := m.owners[i := Some(pid)])
    case Release => Surrendered(m, i)
  }

  /** What becomes of a request for the page at a physical address, and the tables afterwards. */
  ghost function Decide(m: Frames, l: Layout, peripherals: seq<nat>, permitted: Result<()>, addr: nat, pid: nat,
          action: Action)
      : (Result<()>, Frames)
    requires l.Fits(|m.owners|) && l.ramPages == m.ramPages == |m.dirty| == |m.zeroed|
  {
    if addr % l.pageSize != 0 then (Err(BadAlignment), m)
    else if permitted.Err? then (permitted, m)
    else if pid != 1 && Shared(l, peripherals, addr) then (Ok(()), m)
    else if l.Offset(addr).None? then (Err(BadAddress), m)
    else
      OffsetInside(l, addr, |m.owners|);
      var i := l.Offset(addr).value;
      var r := Verdict(m, i, pid, action);
      (r, if r.Ok? then Granted(m, i, pid, action) else m)
  }

  class MemoryManager {
    const ramPages: nat
    /** Single pages are taken from below this index while there are any. */
    const fragmented: nat
    /** Fewer free pages than this are too few; this many are enough again. */
    const lowMark: nat
    const highMark: nat
    /** The most pages that are zeroed in one go. */
    const maxRun: nat
    const allocations: array<Option<nat>>
    const dirty: array<bool>
    const zeroed: array<bool>
    var nextDirty: Option<nat>
    var nextZeroed: nat
    var numFree: nat
    var lowMemory: bool

    ghost var inFlight: set<nat>
    ghost var used: set<nat>
    /** There were enough free pages at the start. */
    ghost const roomy: bool

    ghost function View(): Frames
      reads this, allocations, dirty, zeroed
    {
      Frames(ramPages, lowMark, highMark, allocations[..], dirty[..], zeroed[..], inFlight, used, numFree, lowMemory)
    }

    ghost predicate Shape()
      reads this
    {
      && allocations.Length >= ramPages && dirty.Length == zeroed.Length == ramPages && dirty != zeroed
      && 0 < maxRun && fragmented <= ramPages
      && nextZeroed <= fragmented && (nextDirty.Some? ==> nextDirty.value < ramPages)
    }

    ghost predicate Valid()
      reads this, allocations, dirty, zeroed
    {
      Shape() && View().Ok(roomy)
    }

    /** Pages found without an owner at start-up are free, and have still to be zeroed. */
    constructor (owners: array<Option<nat>>, ramPages: nat, fragmented: nat, lowMark: nat, highMark: nat, maxRun: nat)
      requires owners.Length >= ramPages && fragmented <= ramPages && lowMark <= highMark && 0 < maxRun
      ensures Valid() && allocations == owners && fresh(dirty) && fresh(zeroed) && this.ramPages == ramPages
      ensures forall i: nat | i < ramPages :: dirty[i] == owners[i].None? && !zeroed[i]
      ensures inFlight == {} && (roomy <==> numFree >= lowMark)
    {
      this.ramPages, this.fragmented, this.lowMark, this.highMark, this.maxRun :=
        ramPages, fragmented, lowMark, highMark, maxRun;
      allocations := owners;
      var d := new bool[ramPages](_ => false);
      var z := new bool[ramPages](_ => false);
      var n := 0;
      for i := 0 to ramPages
        invariant fresh(d) && fresh(z) && d != z
        invariant n == Unowned(owners[..], i)
        invariant forall j | 0 <= j < ramPages :: d[j] == (j < i && owners[j].None?) && !z[j]
      {
        if owners[i].None? {
          d[i] := true;
          n := n + 1;
        }
      }
      dirty, zeroed, numFree := d, z, n;
      nextDirty, nextZeroed, lowMemory := None, 0, false;
      inFlight, used, roomy := {}, Pages(0, ramPages), n >= lowMark;
    }

    // ---- The counter ----------------------------------------------------------------------------

    method AddFreePages(n: nat)
      requires numFree + n <= ramPages
      modifies this`numFree, this`lowMemory
      ensures View() == old(View()).More(n)
    {
      numFree := numFree + n;
      if lowMemory && numFree >= highMark { lowMemory := false; }
    }

    /** `raised` tells that the event of low memory is due: exactly when the flag goes up. */
    method SubtractFreePages(n: nat) returns (raised: bool)
      requires numFree >= n
      modifies this`numFree, this`lowMemory
      ensures View() == old(View()).Less(n)
      ensures raised <==> lowMemory && !old(lowMemory)
    {
      numFree := numFree - n;
      raised := !lowMemory && numFree < lowMark;
      if raised { lowMemory := true; }
    }

    // ---- Searching ------------------------------------------------------------------------------

    /** The first set bit in `[lo, hi)`. */
    method FirstOne(bits: array<bool>, lo: nat, hi: nat) returns (r: Option<nat>)
      requires lo <= hi <= bits.Length
      ensures r.None? <==> forall i | lo <= i < hi :: !bits[i]
      ensures r.Some? ==> lo <= r.value < hi && bits[r.value] && forall i | lo <= i < r.value :: !bits[i]
    {
      for i := lo to hi
        invariant forall j | lo <= j < i :: !bits[j]
      {
        if bits[i] { return Some(i); }
      }
      r := None;
    }

    /** Where a single page comes from: zeroed pages first, the end of memory last. */
    method FindSingle() returns (r: Option<(nat, bool)>)
      requires Shape()
      ensures r.None? <==> View().NoneFree()
      ensures r.Some? ==> r.value.0 < ramPages && (if r.value.1 then zeroed[r.value.0] else dirty[r.value.0])
      ensures r.Some? && r.value.0 >= fragmented ==> forall i: nat | i < fragmented :: !dirty[i] && !zeroed[i]
      ensures r.Some? && !r.value.1 ==> forall i: nat | i < if r.value.0 < fragmented then fragmented else ramPages ::
              !zeroed[i]
    {
      var z := FirstOne(zeroed, nextZeroed, fragmented);
      if z.None? { z := FirstOne(zeroed, 0, nextZeroed); }
      if z.Some? { return Some((z.value, true)); }
      var d := FirstOne(dirty, 0, fragmented);
      if d.Some? { return Some((d.value, false)); }
      z := FirstOne(zeroed, fragmented, ramPages);
      if z.Some? { return Some((z.value, true)); }
      d := FirstOne(dirty, fragmented, ramPages);
      if d.Some? { return Some((d.value, false)); }
      r := None;
    }

    /** The highest aligned block of `n` pages that are all zeroed. */
    method FindZeroedBlock(align: nat, n: nat) returns (r: Option<nat>)
      requires Shape() && align > 0 && 1 <= n <= ramPages
      ensures r.None? <==> forall i: nat | i % align == 0 :: !View().AllZeroed(i, n)
      ensures r.Some? ==> r.value % align == 0 && View().AllZeroed(r.value, n)
      ensures r.Some? ==> forall i: nat | r.value < i && i % align == 0 :: !View().AllZeroed(i, n)
    {
      var i := ramPages - n + 1;
      while i > 0
        invariant 0 <= i <= ramPages - n + 1
        invariant forall k: nat | i <= k && k % align == 0 :: !View().AllZeroed(k, n)
      {
        i := i - 1;
        if i % align == 0 {
          var j := 0;
          while j < n && zeroed[i + j]
            invariant 0 <= j <= n && forall k | i <= k < i + j :: zeroed[k]
          {
            j := j + 1;
          }
          if j == n {
            assert View().AllZeroed(i, n);
            return Some(i);
          }
          assert !View().AllZeroed(i, n) by { assert !zeroed[..][i + j]; }
        }
      }
      r := None;
    }

    /** The highest aligned block of `n` free pages. */
    method FindFreeBlock(align: nat, n: nat) returns (r: Option<nat>)
      requires Shape() && align > 0 && 1 <= n <= ramPages
      ensures r.None? <==> forall i: nat | i % align == 0 :: !View().AllFree(i, n)
      ensures r.Some? ==> r.value % align == 0 && View().AllFree(r.value, n)
      ensures r.Some? ==> forall i: nat | r.value < i && i % align == 0 :: !View().AllFree(i, n)
    {
      var i := ramPages - n + 1;
      while i > 0
        invariant 0 <= i <= ramPages - n + 1
        invariant forall k: nat | i <= k && k % align == 0 :: !View().AllFree(k, n)
      {
        i := i - 1;
        if i % align == 0 {
          var j := 0;
          while j < n && (zeroed[i + j] || dirty[i + j])
            invariant 0 <= j <= n && forall k | i <= k < i + j :: zeroed[k] || dirty[k]
          {
            j := j + 1;
          }
          if j == n {
            assert View().AllFree(i, n);
            return Some(i);
          }
          assert !View().AllFree(i, n) by { assert !zeroed[..][i + j] && !dirty[..][i + j]; }
        }
      }
      r := None;
    }

    // ---- Allocating -----------------------------------------------------------------------------

    method SetDirty(i: nat, v: bool)
      requires Shape() && i < ramPages
      modifies dirty
      ensures View() == old(View()).(dirty := old(dirty[..])[i := v])
    {
      dirty[i] := v;
    }

    method SetZeroed(i: nat, v: bool)
      requires Shape() && i < ramPages
      modifies zeroed
      ensures View() == old(View()).(zeroed := old(zeroed[..])[i := v])
    {
      zeroed[i] := v;
    }

    method SetOwner(i: nat, o: Option<nat>)
      requires Shape() && i < allocations.Length
      modifies allocations
      ensures View() == old(View()).(owners := old(allocations[..])[i := o])
    {
      allocations[i] := o;
    }

    method FillBits(bits: array<bool>, lo: nat, hi: nat, v: bool)
      requires Shape() && lo <= hi <= ramPages && (bits == dirty || bits == zeroed)
      modifies bits
      ensures bits == dirty ==> View() == old(View()).(dirty := Filled(old(dirty[..]), lo, hi, v))
      ensures bits == zeroed ==> View() == old(View()).(zeroed := Filled(old(zeroed[..]), lo, hi, v))
    {
      for i := lo to hi
        invariant forall j | 0 <= j < bits.Length :: bits[j] == if lo <= j < i then v else old(bits[j])
      {
        bits[i] := v;
      }
      assert bits[..] == Filled(old(bits[..]), lo, hi, v);
    }

    method FillOwners(lo: nat, hi: nat, owner: Option<nat>)
      requires Shape() && lo <= hi <= allocations.Length
      modifies allocations
      ensures View() == old(View()).(owners := Filled(old(allocations[..]), lo, hi, owner))
    {
      for i := lo to hi
        invariant forall j | 0 <= j < allocations.Length ::
                  allocations[j] == if lo <= j < i then owner else old(allocations[j])
      {
        allocations[i] := owner;
      }
    }

    /** A single page; it fails exactly if no page is dirty or zeroed. */
    method AllocSinglePage(pid: nat) returns (r: Result<(nat, bool)>)
      requires Valid()
      modifies this, allocations, dirty, zeroed
      ensures Valid()
      ensures r.Err? <==> old(View()).NoneFree()
      ensures r.Err? ==> r.error == OutOfMemory && View() == old(View())
      ensures r.Ok? ==> old(View()).AllFree(r.value.0, 1) && View() == old(View()).Give(r.value.0, 1, pid)
      ensures r.Ok? ==> r.value.1 == old(View()).zeroed[r.value.0] && (r.value.1 ==> r.value.0 !in old(used))
      ensures r.Ok? && r.value.0 >= fragmented ==>
              forall i: nat | i < fragmented :: !old(View()).dirty[i] && !old(View()).zeroed[i]
      ensures r.Ok? && !r.value.1 ==> forall i: nat | i < if r.value.0 < fragmented then fragmented else ramPages ::
              !old(View()).zeroed[i]
    {
      hide Frames.Ok, Frames.Give, Frames.AllFree, Frames.NoneFree;
      var found := FindSingle();
      if found.None? { return Err(OutOfMemory); }
      var (i, z) := found.value;
      SingleFacts(View(), roomy, i, z);
      TakePage(i, z, pid);
      nextZeroed := if i + 1 > fragmented then 0 else i + 1;
      r := Ok((i, z));
    }

    /** Page `i`, which is free, goes to `pid`. */
    method TakePage(i: nat, z: bool, pid: nat)
      requires Valid() && i < ramPages && (if z then zeroed[i] else dirty[i])
      modifies this`numFree, this`lowMemory, this`used, allocations, dirty, zeroed
      ensures Valid() && View() == old(View()).Give(i, 1, pid)
    {
      hide Frames.Ok, Frames.Give, Frames.AllFree, Frames.NoneFree, Pages, Filled;
      ghost var m := View();
      SingleFacts(m, roomy, i, z);
      GiveOk(m, roomy, i, 1, pid);
      GivenOne(m, i, pid, z);
      assert allocations[i].None?;
      if z { SetZeroed(i, false); } else { SetDirty(i, false); }
      var _ := SubtractFreePages(1);
      SetOwner(i, Some(pid));
      used := used + Pages(i, 1);
    }

    /** `n` pages in a row at a multiple of `align`; it fails exactly if there is no such run of free pages. */
    method AllocRangeAligned(align: nat, n: nat, pid: nat) returns (r: Result<(nat, bool)>)
      requires Valid() && align > 0 && 1 <= n <= ramPages
      modifies this`numFree, this`lowMemory, this`used, allocations, dirty, zeroed
      ensures Valid()
      ensures r.Err? <==> forall i: nat | i % align == 0 :: !old(View()).AllFree(i, n)
      ensures r.Err? ==> r.error == OutOfMemory && View() == old(View())
      ensures r.Ok? ==>
                r.value.0 % align == 0 && old(View()).AllFree(r.value.0, n) &&
                View() == old(View()).Give(r.value.0, n, pid)
      ensures r.Ok? ==> (r.value.1 <==> old(View()).AllZeroed(r.value.0, n))
      ensures r.Ok? && r.value.1 ==> forall j | r.value.0 <= j < r.value.0 + n :: j !in old(used)
      ensures r.Ok? ==> forall i: nat | r.value.0 < i && i % align == 0 ::
                !old(View()).AllZeroed(i, n) && (!r.value.1 ==> !old(View()).AllFree(i, n))
    {
      hide Frames.Ok, Frames.Give, Pages, Filled;
      var block := FindZeroedBlock(align, n);
      var z := block.Some?;
      if block.None? {
        block := FindFreeBlock(align, n);
        if block.None? { return Err(OutOfMemory); }
      }
      if z { ZeroedFacts(View(), roomy, block.value, n); }
      TakeBlock(block.value, n, z, pid);
      r := Ok((block.value, z));
    }

    method TakeBlock(i: nat, n: nat, z: bool, pid: nat)
      requires Valid() && View().AllFree(i, n) && (z ==> View().AllZeroed(i, n))
      modifies this`numFree, this`lowMemory, this`used, allocations, dirty, zeroed
      ensures Valid() && View() == old(View()).Give(i, n, pid)
    {
      hide Frames.Ok, Frames.AllFree, Frames.AllZeroed, Pages, Filled;
      ghost var m := View();
      GiveOk(m, roomy, i, n, pid);
      BlockFacts(m, roomy, i, n, z);
      var _ := SubtractFreePages(n);
      FillOwners(i, i + n, Some(pid));
      FillBits(zeroed, i, i + n, false);
      if !z { FillBits(dirty, i, i + n, false); }
      used := used + Pages(i, n);
    }

    method AllocRange(n: nat, pid: nat) returns (r: Result<(nat, bool)>)
      requires Valid() && 1 <= n <= ramPages
      modifies this, allocations, dirty, zeroed
      ensures Valid()
      ensures r.Err? <==> forall i: nat :: !old(View()).AllFree(i, n)
      ensures r.Err? ==> r.error == OutOfMemory && View() == old(View())
      ensures r.Ok? ==> old(View()).AllFree(r.value.0, n) && View() == old(View()).Give(r.value.0, n, pid)
      ensures r.Ok? ==> (r.value.1 <==> old(View()).AllZeroed(r.value.0, n))
    {
      hide Frames.Ok, Frames.Give, Pages, Filled, Frames.AllFree, Frames.AllZeroed, Frames.NoneFree;
      OneFree(View(), roomy);
      if n == 1 {
        r := AllocSinglePage(pid);
      } else {
        r := AllocRangeAligned(1, n, pid);
        assert forall i: nat :: i % 1 == 0;
      }
    }

    // ---- Zeroing --------------------------------------------------------------------------------

    /**
     The zeroer takes a run of dirty pages, as long as possible up to its limit; there is none iff
     no page is dirty.
     */
    method TakeDirtyPages() returns (r: Option<(nat, nat)>)
      requires Valid()
      modifies this`nextDirty, this`inFlight, dirty
      ensures Valid()
      ensures r.None? <==> forall i: nat | i < ramPages :: !old(View()).dirty[i]
      ensures r.None? ==> View() == old(View())
      ensures r.Some? ==> 1 <= r.value.1 <= maxRun && old(View()).AllDirty(r.value.0, r.value.1)
      ensures r.Some? ==> View() == old(View()).StartZeroing(r.value.0, r.value.1)
      ensures r.Some? ==>
                r.value.1 == maxRun || r.value.0 + r.value.1 == ramPages || !old(View()).dirty[r.value.0 + r.value.1]
    {
      hide Frames.Ok, Frames.StartZeroing, Frames.AllDirty, Round;
      var start := if nextDirty.Some? then nextDirty.value else 0;
      StartsInside(View(), roomy);
      var first := FirstOne(dirty, start, ramPages);
      if first.None? { first := FirstOne(dirty, 0, start); }
      if first.None? {
        nextDirty := None;
        return None;
      }
      var n := DirtyRun(first.value);
      MarkInFlight(first.value, n);
      nextDirty := Some(Round(first.value + n, ramPages));
      r := Some((first.value, n));
    }

    /** How many pages from `o` on are dirty, up to the limit. */
    method DirtyRun(o: nat) returns (n: nat)
      requires Shape() && o < ramPages && dirty[o]
      ensures 1 <= n <= maxRun && View().AllDirty(o, n)
      ensures n == maxRun || o + n == ramPages || !dirty[o + n]
    {
      n := 1;
      while n < maxRun && o + n < ramPages && dirty[o + n]
        invariant 1 <= n <= maxRun && o + n <= ramPages && forall j | o <= j < o + n :: dirty[j]
      {
        n := n + 1;
      }
    }

    method MarkInFlight(o: nat, n: nat)
      requires Valid() && View().AllDirty(o, n)
      modifies this`inFlight, dirty
      ensures Valid() && View() == old(View()).StartZeroing(o, n)
    {
      hide Frames.Ok, Pages, Filled;
      StartZeroingOk(View(), roomy, o, n);
      FillBits(dirty, o, o + n, false);
      inFlight := inFlight + Pages(o, n);
    }

    /** Pages that the zeroer took come back. */
    method SetPagesToZeroed(o: nat, n: nat)
      requires Valid() && o + n <= ramPages && forall i | o <= i < o + n :: i in inFlight
      modifies this`inFlight, this`used, zeroed
      ensures Valid() && View() == old(View()).FinishZeroing(o, n)
    {
      hide Frames.Ok, Pages, Filled;
      FinishZeroingOk(View(), roomy, o, n);
      FillBits(zeroed, o, o + n, true);
      inFlight, used := inFlight - Pages(o, n), used - Pages(o, n);
    }

    // ---- Claiming, moving and releasing ---------------------------------------------------------

    /** Claim one given page: refused iff it has an owner or is being zeroed. */
    method ClaimPage(i: nat, pid: nat) returns (r: Result<()>)
      requires Valid() && i < allocations.Length
      modifies this`numFree, this`lowMemory, this`used, allocations, dirty, zeroed
      ensures Valid()
      ensures r == if old(View()).owners[i].Some? || i in old(inFlight) then Err(MemoryInUse) else Ok(())
      ensures r.Err? ==> View() == old(View())
      ensures r.Ok? ==> View() == if i < ramPages then old(View()).Give(i, 1, pid)
                                  else old(View()).(owners := old(View()).owners[i := Some(pid)])
    {
      hide Frames.Ok, Frames.Give, Pages, Filled;
      PlaceFacts(View(), roomy, i);
      if allocations[i].Some? { return Err(MemoryInUse); }
      if i < ramPages {
        if zeroed[i] {
          TakePage(i, true, pid);
        } else if dirty[i] {
          TakePage(i, false, pid);
        } else {
          return Err(MemoryInUse);
        }
      } else {
        ReassignOk(View(), roomy, i, Some(pid));
        SetOwner(i, Some(pid));
      }
      r := Ok(());
    }

    /** Hand an owned page over to `pid`. */
    method MovePage(i: nat, pid: nat, existing: nat) returns (r: Result<()>)
      requires Valid() && i < allocations.Length
      modifies allocations
      ensures Valid()
      ensures r == match old(View()).owners[i]
        case None => Err(DoubleFree)
        case Some(o) => if o == pid || o == existing then Ok(()) else Err(MemoryInUse)
      ensures View() == if r.Ok? then old(View()).(owners := old(View()).owners[i := Some(pid)]) else old(View())
    {
      hide Frames.Ok;
      if allocations[i].None? { return Err(DoubleFree); }
      if allocations[i].value != pid && existing != allocations[i].value { return Err(MemoryInUse); }
      ReassignOk(View(), roomy, i, Some(pid));
      SetOwner(i, Some(pid));
      r := Ok(());
    }

    /** Give up a page: it becomes dirty, unless it lies outside main memory. */
    method ReleasePage(i: nat, pid: nat) returns (r: Result<()>)
      requires Valid() && i < allocations.Length
      modifies this`nextDirty, this`numFree, this`lowMemory, allocations, dirty
      ensures Valid()
      ensures r == match old(View()).owners[i]
        case None => Err(DoubleFree)
        case Some(o) => if o == pid then Ok(()) else Err(MemoryInUse)
      ensures View() == if r.Err? then old(View()) else Surrendered(old(View()), i)
    {
      hide Frames.Ok;
      if allocations[i].None? { return Err(DoubleFree); }
      if allocations[i].value != pid { return Err(MemoryInUse); }
      Surrender(i);
      if i < ramPages && nextDirty.None? { nextDirty := Some(i); }
      r := Ok(());
    }

    method Surrender(i: nat)
      requires Valid() && i < allocations.Length && allocations[i].Some?
      modifies this`numFree, this`lowMemory, allocations, dirty
      ensures Valid() && View() == Surrendered(old(View()), i)
    {
      hide Frames.Ok;
      PlaceFacts(View(), roomy, i);
      if i < ramPages {
        TakeBackOk(View(), roomy, i);
        SetDirty(i, true);
        AddFreePages(1);
      } else {
        ReassignOk(View(), roomy, i, None);
      }
      SetOwner(i, None);
    }

    method IsShared(l: Layout, peripherals: seq<nat>, addr: nat) returns (shared: bool)
      ensures shared <==> Shared(l, peripherals, addr)
    {
      for i := 0 to |peripherals|
        invariant forall j | 0 <= j < i :: !FirstPages(l, peripherals[j], addr)
      {
        if FirstPages(l, peripherals[i], addr) { return true; }
      }
      return false;
    }

    /**
     A process asks for the page at a physical address, hands one over or gives one up.  `permitted` is
     what the process' hardware permissions say.  The checks come in this order: alignment, permission,
     the peripherals that need no owner, the address; then the owner table decides.
     */
    method ClaimReleaseMove(l: Layout, peripherals: seq<nat>, permitted: Result<()>, addr: nat, pid: nat,
            action: Action) returns (r: Result<()>)
      requires Valid() && l.Fits(allocations.Length) && l.ramPages == ramPages
      modifies this, allocations, dirty, zeroed
      ensures Valid()
      ensures (r, View()) == Decide(old(View()), l, peripherals, permitted, addr, pid, action)
    {
      hide Frames.Ok, Frames.Give, Pages, Filled, Shared, Surrendered;
      if addr % l.pageSize != 0 { return Err(BadAlignment); }
      if permitted.Err? { return permitted; }
      if pid != 1 {
        var shared := IsShared(l, peripherals, addr);
        if shared { return Ok(()); }
      }
      var place := l.Offset(addr);
      if place.None? { return Err(BadAddress); }
      OffsetInside(l, addr, allocations.Length);
      match action {
        case Claim => r := ClaimPage(place.value, pid);
        case Move(existing) => r := MovePage(place.value, pid, existing);
        case Release => r := ReleasePage(place.value, pid);
      }
    }

    /** The end of a process: all its pages are free afterwards, and no other page changes hands. */
    method ReleaseAllMemoryForProcess(pid: nat)
      requires Valid()
      modifies this`numFree, this`lowMemory, allocations, dirty
      ensures Valid() && View() == Emptied(old(View()), pid, 0)
    {
      hide Frames.Ok, Surrendered;
      for i := 0 to allocations.Length
        invariant Valid() && Emptied(View(), pid, i) == Emptied(old(View()), pid, 0)
      {
        if allocations[i] == Some(pid) {
          Surrender(i);
        }
      }
    }
  }

  /** Page `i` without its owner. */
  function Surrendered(m: Frames, i: nat): (m': Frames)
    requires i < |m.owners| && |m.dirty| == m.ramPages
    ensures |m'.owners| == |m.owners| && m'.ramPages == m.ramPages && |m'.dirty| == |m.dirty|
    ensures m'.owners == m.owners[i := None]
  {
    if i < m.ramPages then m.TakeBack(i) else m.(owners := m.owners[i := None])
  }

  /** The pages of `pid` from `i` on without their owner. */
  function Emptied(m: Frames, pid: nat, i: nat): (m': Frames)
    requires |m.dirty| == m.ramPages
    decreases |m.owners| - i
  {
    if i >= |m.owners| then m
    else Emptied(if m.owners[i] == Some(pid) then Surrendered(m, i) else m, pid, i + 1)
  }

  /** Exactly the pages of the process have lost their owner; those of main memory are dirty. */
  lemma {:induction false} EmptiedExactly(m: Frames, pid: nat, i: nat)
    requires |m.dirty| == m.ramPages <= |m.owners|
    ensures var m' := Emptied(m, pid, i);
      && |m'.owners| == |m.owners| && |m'.dirty| == |m.dirty| && m'.zeroed == m.zeroed && m'.inFlight == m.inFlight
      && (forall j: nat | j < |m.owners| ::
            m'.owners[j] == if j >= i && m.owners[j] == Some(pid) then None else m.owners[j])
      && (forall j: nat | j < m.ramPages :: m'.dirty[j] == (m.dirty[j] || (j >= i && m.owners[j] == Some(pid))))
    decreases |m.owners| - i
  {
    if i < |m.owners| {
      EmptiedExactly(if m.owners[i] == Some(pid) then Surrendered(m, i) else m, pid, i + 1);
    }
  }

  lemma ZeroedFacts(m: Frames, roomy: bool, i: nat, n: nat)
    requires m.Ok(roomy) && m.AllZeroed(i, n)
    ensures m.AllFree(i, n) && forall j | i <= j < i + n :: j !in m.used
  {
  }

  lemma BlockFacts(m: Frames, roomy: bool, i: nat, n: nat, z: bool)
    requires m.Ok(roomy) && m.AllFree(i, n) && (z ==> m.AllZeroed(i, n))
    ensures m.Sized() && i + n <= m.ramPages && n <= m.numFree
    ensures z ==> Filled(m.dirty, i, i + n, false) == m.dirty
  {
    FreeUnowned(m, roomy, i, n);
    if z {
      forall j | i <= j < i + n
        ensures !m.dirty[j]
      {
        assert m.InOnePlace(j);
      }
    }
  }

  lemma OneFreeAt(m: Frames, i: nat)
    ensures m.AllFree(i, 1) <==> |m.zeroed| == |m.dirty| && i < |m.zeroed| && (m.zeroed[i] || m.dirty[i])
    ensures i < |m.zeroed| ==> (m.AllZeroed(i, 1) <==> m.zeroed[i])
  {
  }

  /** A single free page is a run of one. */
  lemma OneFree(m: Frames, roomy: bool)
    requires m.Ok(roomy)
    ensures m.NoneFree() <==> forall i: nat :: !m.AllFree(i, 1)
    ensures forall i: nat | m.AllFree(i, 1) :: i < m.ramPages && (m.zeroed[i] <==> m.AllZeroed(i, 1))
  {
    assert |m.zeroed| == |m.dirty| == m.ramPages;
    hide Frames.Ok, Frames.AllFree, Frames.AllZeroed;
    forall i: nat
      ensures m.AllFree(i, 1) <==> i < |m.zeroed| && (m.zeroed[i] || m.dirty[i])
      ensures i < |m.zeroed| ==> (m.AllZeroed(i, 1) <==> m.zeroed[i])
    {
      OneFreeAt(m, i);
    }
  }

  function Round(i: nat, n: nat): (r: nat)
    requires n > 0
    ensures r < n
  {
    i % n
  }

  lemma StartsInside(m: Frames, roomy: bool)
    requires m.Ok(roomy)
    ensures m.Sized()
  {
  }

  /** A page of main memory without an owner is zeroed, dirty or being zeroed; other pages are none of these. */
  lemma PlaceFacts(m: Frames, roomy: bool, i: nat)
    requires m.Ok(roomy) && i < |m.owners|
    ensures m.Sized() && (i >= m.ramPages ==> i !in m.inFlight)
    ensures i < m.ramPages ==> m.InOnePlace(i)
  {
  }

  lemma SingleFacts(m: Frames, roomy: bool, i: nat, z: bool)
    requires m.Ok(roomy) && i < m.ramPages && (if z then m.zeroed[i] else m.dirty[i])
    ensures m.Sized() && m.AllFree(i, 1) && !m.NoneFree() && m.owners[i].None? && m.zeroed[i] == z && m.dirty[i] != z
    ensures z ==> i !in m.used
    ensures m.numFree >= 1
  {
    assert m.InOnePlace(i);
    FreeUnowned(m, roomy, i, 1);
  }

  lemma GivenOne(m: Frames, i: nat, pid: nat, z: bool)
    requires m.Sized() && i < m.ramPages && m.zeroed[i] == z && m.dirty[i] != z
    ensures m.Give(i, 1, pid) == m.Less(1).(
              owners := m.owners[i := Some(pid)], used := m.used + Pages(i, 1),
              dirty := if z then m.dirty else m.dirty[i := false],
              zeroed := if z then m.zeroed[i := false] else m.zeroed)
  {
  }
}
