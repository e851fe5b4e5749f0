/**
 * The scanner for arrays of references (GC_PointerArrayObjectScanner). Every
 * element is a reference slot, so its maps are runs of ones; its element
 * range can be cut into chunks, each scanned by its own scanner instance.
 */
module PointerArrayScanning {
  import opened ScanMaps

  /** What the array object model tells the scanner about one array. */
  datatype ArrayLayout = ArrayLayout(address: nat, dataPtr: nat, sizeInElements: nat)

  /** A range of slots [scan, end) owned by one scanner. */
  datatype SlotRange = SlotRange(scan: nat, end: nat)

  function Min(a: nat, b: nat): nat
  {
    if a <= b then a else b
  }

  /**
   * The map the constructor installs for n = end - scan slots: the low n bits
   * when n is below the map width, all ones otherwise.
   */
  function InitialScanMap(n: nat): (r: Word)
    ensures r == Ones(Min(n, BitsPerScanMap))
  {
    MaxWordIsOnes();
    if n < BitsPerScanMap then LowBits(n) else MaxWord
  }

  /** The initial map marks as references exactly the first min(n, W) slots. */
  lemma InitialScanMapBits(n: nat, i: nat)
    ensures Bit(InitialScanMap(n), i) <==> i < n && i < BitsPerScanMap
  {
    OnesBits(Min(n, BitsPerScanMap), i);
  }

  /**
   * The element range newInstance gives a scanner: it starts at startIndex
   * and runs to the end of the array unless splitting is allowed and
   * startIndex + splitAmount falls strictly inside the array.
   */
  function NewInstanceRange(layout: ArrayLayout, startIndex: nat, splitAmount: nat, noSplit: bool): (r: SlotRange)
    requires startIndex <= layout.sizeInElements
    ensures r.scan == layout.dataPtr + startIndex
    ensures r.scan <= r.end <= layout.dataPtr + layout.sizeInElements
    ensures (!noSplit && 0 < splitAmount && startIndex + splitAmount < layout.sizeInElements)
      ==> r.end == r.scan + splitAmount
    ensures (noSplit || splitAmount == 0 || layout.sizeInElements <= startIndex + splitAmount)
      ==> r.end == layout.dataPtr + layout.sizeInElements
  {
    var scanPtr := layout.dataPtr + startIndex;
    var limitPtr := layout.dataPtr + layout.sizeInElements;
    var endPtr := limitPtr;
    if !noSplit then
      var splitPtr := scanPtr + splitAmount;
      if splitPtr > scanPtr && splitPtr < endPtr then SlotRange(scanPtr, splitPtr)
      else SlotRange(scanPtr, endPtr)
    else SlotRange(scanPtr, endPtr)
  }

  /**
   * The range splitTo gives the new scanner: the next chunk after the
   * parent's end, at most amount slots, never past the limit.
   */
  function SplitRange(end: nat, limit: nat, amount: nat): (r: SlotRange)
    requires end <= limit
    ensures r.scan == end <= r.end <= limit
    ensures r.end - r.scan == Min(amount, limit - end)
  {
    var remainder := limit - end;
    var clamped := if amount > remainder then remainder else amount;
    SlotRange(end, end + clamped)
  }

  /**
   * The block getNextSlotMap hands out from map pointer p with end pointer
   * end: all of the remaining slots, up to one map's worth.
   */
  function ArraySlotMap(p: nat, end: nat): (r: SlotMapResult)
    ensures r.base.Some? <==> p < end
    ensures r.base.Some? ==>
      && r.base.value == p
      && r.slotMap == Ones(Min(end - p, BitsPerScanMap))
      && (r.hasNext <==> end - p > BitsPerScanMap)
    ensures r.base.None? ==> r.slotMap == 0 && !r.hasNext
  {
    MaxWordIsOnes();
    if end > p then
      var remainder := end - p;
      var slotMap := if remainder >= BitsPerScanMap then MaxWord else LowBits(remainder);
      SlotMapResult(Some(p), slotMap, remainder > BitsPerScanMap)
    else
      SlotMapResult(None, 0, false)
  }

  /**
   * A block handed out for [p, end) reports every slot from p up to the end
   * or up to one map's worth, whichever comes first, and nothing else.
   */
  lemma ArraySlotMapReportsEverySlot(p: nat, end: nat)
    requires p < end
    ensures var n := Min(end - p, BitsPerScanMap);
      ReferenceSlots(p, ArraySlotMap(p, end).slotMap, n) == seq(n, i => p + i)
  {
    OnesReportEverySlot(p, Min(end - p, BitsPerScanMap));
  }

  /** A split taken at the limit owns nothing and hands out NULL at once. */
  lemma SplitAtLimitIsEmpty(limit: nat, amount: nat)
    ensures SplitRange(limit, limit, amount) == SlotRange(limit, limit)
    ensures ArraySlotMap(limit, limit) == SlotMapResult(None, 0, false)
  {
  }

  /** The ranges of the scanners split off one after another from end on, with split size s. */
  function ChainFrom(end: nat, limit: nat, s: nat): seq<SlotRange>
    requires 0 < s && end <= limit
    decreases limit - end
  {
    if end == limit then []
    else
      var r := SplitRange(end, limit, s);
      [r] + ChainFrom(r.end, limit, s)
  }

  /**
   * The ranges of the head scanner made by newInstance(startIndex 0, s) and of
   * the scanners made by calling splitTo(s) on the newest one, until the
   * array is used up.
   */
  function SplitChain(layout: ArrayLayout, s: nat): seq<SlotRange>
    requires 0 < s
  {
    var first := NewInstanceRange(layout, 0, s, false);
    [first] + ChainFrom(first.end, layout.dataPtr + layout.sizeInElements, s)
  }

  predicate Covered(c: seq<SlotRange>, x: nat)
  {
    exists i :: 0 <= i < |c| && c[i].scan <= x < c[i].end
  }

  /** Ranges follow each other in address order without overlapping. */
  predicate PairwiseDisjoint(c: seq<SlotRange>)
  {
    forall i, j :: 0 <= i < j < |c| ==> c[i].end <= c[j].scan
  }

  /** Each range ends where the next one starts. */
  predicate Contiguous(c: seq<SlotRange>)
  {
    forall i :: 0 <= i < |c| - 1 ==> c[i].end == c[i + 1].scan
  }

  /** The ranges split [lo, hi) into disjoint, contiguous pieces, every slot in exactly one. */
  ghost predicate Partitions(c: seq<SlotRange>, lo: nat, hi: nat)
  {
    && PairwiseDisjoint(c)
    && Contiguous(c)
    && (forall i :: 0 <= i < |c| ==> c[i].scan <= c[i].end)
    && (forall x: nat :: Covered(c, x) <==> lo <= x < hi)
  }

  /** Putting a range in front of a partition of the slots after it partitions the union. */
  lemma ConsPartitions(r: SlotRange, rest: seq<SlotRange>, hi: nat)
    requires r.scan <= r.end <= hi
    requires Partitions(rest, r.end, hi)
    requires |rest| > 0 ==> rest[0].scan == r.end
    requires |rest| == 0 ==> r.end == hi
    ensures Partitions([r] + rest, r.scan, hi)
  {
    var c := [r] + rest;
    ConsOrdered(r, rest);
    forall x: nat ensures Covered(c, x) <==> r.scan <= x < hi {
      ConsCovered(r, rest, hi, x);
    }
  }

  lemma ConsOrdered(r: SlotRange, rest: seq<SlotRange>)
    requires r.scan <= r.end
    requires PairwiseDisjoint(rest) && Contiguous(rest)
    requires forall i :: 0 <= i < |rest| ==> rest[i].scan <= rest[i].end
    requires |rest| > 0 ==> rest[0].scan == r.end
    ensures PairwiseDisjoint([r] + rest) && Contiguous([r] + rest)
    ensures forall i :: 0 <= i < |[r] + rest| ==> ([r] + rest)[i].scan <= ([r] + rest)[i].end
  {
    var c := [r] + rest;
    forall i, j | 0 <= i < j < |c| ensures c[i].end <= c[j].scan {
      assert c[j] == rest[j - 1];
      if i > 0 {
        assert c[i] == rest[i - 1];
      } else if j > 1 {
        assert rest[0].end <= rest[j - 1].scan;
      }
    }
    forall i | 0 <= i < |c| - 1 ensures c[i].end == c[i + 1].scan {
      assert c[i + 1] == rest[i];
      if i > 0 {
        assert c[i] == rest[i - 1];
      }
    }
    forall i | 0 <= i < |c| ensures c[i].scan <= c[i].end {
      if i > 0 {
        assert c[i] == rest[i - 1];
      }
    }
  }

  lemma ConsCovered(r: SlotRange, rest: seq<SlotRange>, hi: nat, x: nat)
    requires r.scan <= r.end <= hi
    requires Covered(rest, x) <==> r.end <= x < hi
    ensures Covered([r] + rest, x) <==> r.scan <= x < hi
  {
    var c := [r] + rest;
    if Covered(c, x) {
      var i :| 0 <= i < |c| && c[i].scan <= x < c[i].end;
      if i > 0 {
        assert c[i] == rest[i - 1];
        assert Covered(rest, x);
      }
    }
    if r.scan <= x < hi {
      if x < r.end {
        assert c[0].scan <= x < c[0].end;
      } else {
        assert Covered(rest, x);
        var i :| 0 <= i < |rest| && rest[i].scan <= x < rest[i].end;
        assert c[i + 1] == rest[i];
      }
    }
  }

  /** Every range of a chain is nonempty and holds s slots, the last one at most s. */
  predicate ChunkSizes(c: seq<SlotRange>, s: nat)
  {
    && (forall i :: 0 <= i < |c| ==> c[i].scan < c[i].end <= c[i].scan + s)
    && (forall i :: 0 <= i < |c| - 1 ==> c[i].end == c[i].scan + s)
  }

  lemma {:induction false} ChainFromPartitions(end: nat, limit: nat, s: nat)
    requires 0 < s && end <= limit
    ensures Partitions(ChainFrom(end, limit, s), end, limit)
    ensures ChainFrom(end, limit, s) == [] <==> end == limit
    ensures ChainFrom(end, limit, s) != [] ==> ChainFrom(end, limit, s)[0].scan == end
    ensures ChunkSizes(ChainFrom(end, limit, s), s)
    decreases limit - end
  {
    var c := ChainFrom(end, limit, s);
    if end < limit {
      var r := SplitRange(end, limit, s);
      var rest := ChainFrom(r.end, limit, s);
      ChainFromPartitions(r.end, limit, s);
      assert c == [r] + rest;
      ConsPartitions(r, rest, limit);
      forall i | 0 <= i < |c| ensures c[i].scan < c[i].end <= c[i].scan + s {
        if i > 0 {
          assert c[i] == rest[i - 1];
        }
      }
      forall i | 0 <= i < |c| - 1 ensures c[i].end == c[i].scan + s {
        if i > 0 {
          assert c[i] == rest[i - 1];
        } else {
          assert r.end < limit;
        }
      }
    } else {
      assert forall x: nat :: !Covered(c, x);
    }
  }

  /**
   * Chained splits cover the array exactly once: the head scanner's range
   * and the ranges split off after it are disjoint, contiguous, start at
   * element 0, end at the array's length, and each holds at most s elements.
   */
  lemma SplitChainPartitionsArray(layout: ArrayLayout, s: nat)
    requires 0 < s
    ensures Partitions(SplitChain(layout, s), layout.dataPtr, layout.dataPtr + layout.sizeInElements)
    ensures SplitChain(layout, s)[0].scan == layout.dataPtr
    ensures forall r :: r in SplitChain(layout, s) ==> r.end - r.scan <= s
  {
    var limit := layout.dataPtr + layout.sizeInElements;
    var first := NewInstanceRange(layout, 0, s, false);
    var rest := ChainFrom(first.end, limit, s);
    ChainFromPartitions(first.end, limit, s);
    var c := [first] + rest;
    assert SplitChain(layout, s) == c;
    ConsPartitions(first, rest, limit);
    forall r | r in c ensures r.end - r.scan <= s {
      var i :| 0 <= i < |c| && c[i] == r;
      if i > 0 {
        assert c[i] == rest[i - 1];
      }
    }
  }

  /** 1000 elements split by 300: four scanners, the last one shorter. */
  lemma ThousandBy300Scenario()
    ensures SplitChain(ArrayLayout(0, 0, 1000), 300)
      == [SlotRange(0, 300), SlotRange(300, 600), SlotRange(600, 900), SlotRange(900, 1000)]
  {
    assert ChainFrom(1000, 1000, 300) == [];
    assert ChainFrom(900, 1000, 300) == [SlotRange(900, 1000)];
    assert ChainFrom(600, 1000, 300) == [SlotRange(600, 900), SlotRange(900, 1000)];
    assert ChainFrom(300, 1000, 300) == [SlotRange(300, 600), SlotRange(600, 900), SlotRange(900, 1000)];
  }

  class PointerArrayObjectScanner {
    const arrayObject: nat
    const slotBytes: SlotWidth
    /** First element slot of the array. */
    const basePtr: nat
    /** Slot just past the last element of the array. */
    const limitPtr: nat
    /** Slot where this scanner stops. */
    const endPtr: nat
    /** The first slot map, installed at construction. */
    var scanMap: Word
    /** Base slot of the current block, kept by the scanner base class. */
    var mapPtr: nat
    var flags: set<ScanFlag>

    predicate HasMoreSlots()
      reads this
    {
      NoMoreSlots !in flags
    }

    function Range(): SlotRange
      reads this
    {
      SlotRange(mapPtr, endPtr)
    }

    /** A scanner over [scanPtr, endPtr) of the array whose elements span [basePtr, limitPtr). */
    constructor (arrayObject: nat, basePtr: nat, limitPtr: nat, scanPtr: nat, endPtr: nat,
                 flags: set<ScanFlag>, slotBytes: SlotWidth)
      requires scanPtr <= endPtr
      ensures this.arrayObject == arrayObject && this.slotBytes == slotBytes
      ensures this.basePtr == basePtr && this.limitPtr == limitPtr && this.endPtr == endPtr
      ensures mapPtr == scanPtr && this.flags == flags
      ensures scanMap == InitialScanMap(endPtr - scanPtr)
    {
      this.arrayObject := arrayObject;
      this.slotBytes := slotBytes;
      this.basePtr := basePtr;
      this.limitPtr := limitPtr;
      this.endPtr := endPtr;
      mapPtr := scanPtr;
      this.flags := flags;
      scanMap := InitialScanMap(endPtr - scanPtr);
    }

    /** The base class's setMapPtr: record the block base and the more-slots flag. */
    method SetMapPtr(p: nat, hasMoreSlots: bool)
      modifies this`mapPtr, this`flags
      ensures mapPtr == p
      ensures HasMoreSlots() == hasMoreSlots
      ensures flags - {NoMoreSlots} == old(flags) - {NoMoreSlots}
    {
      mapPtr := p;
      flags := if hasMoreSlots then flags - {NoMoreSlots} else flags + {NoMoreSlots};
    }

    /** The base class's setFlags: set or clear one flag. */
    method SetFlags(flag: ScanFlag, value: bool)
      modifies this`flags
      ensures flags == if value then old(flags) + {flag} else old(flags) - {flag}
    {
      flags := if value then flags + {flag} else flags - {flag};
    }

    /**
     * Build a scanner for the array from startIndex, over the next
     * splitAmount elements when splitting is allowed, else to the end.
     */
    static method NewInstance(layout: ArrayLayout, slotBytes: SlotWidth, flags: set<ScanFlag>,
                              splitAmount: nat, startIndex: nat)
      returns (s: PointerArrayObjectScanner)
      requires startIndex <= layout.sizeInElements
      ensures fresh(s)
      ensures s.Range() == NewInstanceRange(layout, startIndex, splitAmount, IndexableObjectNoSplit in flags)
      ensures s.arrayObject == layout.address && s.slotBytes == slotBytes
      ensures s.basePtr == layout.dataPtr
      ensures s.limitPtr == layout.dataPtr + layout.sizeInElements
      ensures s.scanMap == InitialScanMap(s.endPtr - s.mapPtr)
      ensures s.HasMoreSlots() <==> s.endPtr - s.mapPtr > BitsPerScanMap
      ensures HeadObjectScanner in s.flags <==> startIndex == 0
      ensures s.flags - {NoMoreSlots, HeadObjectScanner} == flags - {NoMoreSlots, HeadObjectScanner}
    {
      var r := NewInstanceRange(layout, startIndex, splitAmount, IndexableObjectNoSplit in flags);
      s := new PointerArrayObjectScanner(layout.address, layout.dataPtr,
        layout.dataPtr + layout.sizeInElements, r.scan, r.end, flags, slotBytes);
      var slotsToScan := r.end - r.scan;
      s.SetMapPtr(r.scan, slotsToScan > BitsPerScanMap);
      ghost var mapped := s.flags;
      s.SetFlags(HeadObjectScanner, 0 == startIndex);
      assert s.flags - {NoMoreSlots, HeadObjectScanner} == mapped - {NoMoreSlots} - {HeadObjectScanner};
    }

    /** The next block: every remaining slot up to one map's worth, or NULL at the end. */
    function GetNextSlotMap(): (r: SlotMapResult)
      reads this
      ensures r == ArraySlotMap(mapPtr, endPtr)
      ensures r.base.Some? <==> mapPtr < endPtr
      ensures r.base.Some? ==>
        && r.base.value == mapPtr
        && r.slotMap == Ones(Min(endPtr - mapPtr, BitsPerScanMap))
        && (r.hasNext <==> endPtr - mapPtr > BitsPerScanMap)
      ensures r.base.None? ==> r.slotMap == 0 && !r.hasNext
    {
      ArraySlotMap(mapPtr, endPtr)
    }

    /**
     * Bytes of this scanner's range at or beyond the scan cursor (None for
     * NULL); 0 once the cursor is NULL or past the end.
     */
    function GetBytesRemaining(scanPtr: Option<nat>): (r: nat)
      reads this
      ensures r == 0 <==> scanPtr.None? || endPtr <= scanPtr.value
      ensures r % slotBytes == 0
      ensures scanPtr.Some? && scanPtr.value <= endPtr ==> r / slotBytes == endPtr - scanPtr.value
    {
      if scanPtr.Some? && endPtr >= scanPtr.value then (endPtr - scanPtr.value) * slotBytes else 0
    }

    /**
     * Carve the next chunk of at most splitAmount elements after this
     * scanner's end into a new scanner with the same array, bounds and flags.
     * This scanner itself is left as it was.
     */
    method SplitTo(splitAmount: nat) returns (s: PointerArrayObjectScanner)
      requires endPtr <= limitPtr
      ensures fresh(s)
      ensures s.Range() == SplitRange(endPtr, limitPtr, splitAmount)
      ensures s.arrayObject == arrayObject && s.slotBytes == slotBytes
      ensures s.basePtr == basePtr && s.limitPtr == limitPtr && s.flags == flags
      ensures s.scanMap == InitialScanMap(s.endPtr - s.mapPtr)
    {
      var amount := splitAmount;
      var remainder := limitPtr - endPtr;
      if amount > remainder {
        amount := remainder;
      }
      s := new PointerArrayObjectScanner(arrayObject, basePtr, limitPtr, endPtr, endPtr + amount,
        flags, slotBytes);
    }
  }
}
