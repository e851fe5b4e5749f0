/**
 * The scanner for fixed-shape objects (GC_MixedObjectScanner): it decodes the
 * class's instance description into one W-bit slot map per block of W slots
 * and hands out, block by block, only the maps that have a bit set.
 */
module MixedObjectScanning {
  import opened ScanMaps

  /**
   * What the object model and the class tell the scanner about one object.
   * The description word is either an inline map tagged by its low bit, or
   * the word address of an out-of-line array of maps in descriptionWords.
   */
  datatype ObjectLayout = ObjectLayout(
    address: nat,
    headerSlots: nat,
    consumedSlots: nat,
    instanceDescription: Word,
    descriptionWords: seq<Word>)

  /** Number of W-slot blocks needed to cover n slots. */
  function Blocks(n: nat): (r: nat)
    ensures n <= r * BitsPerScanMap < n + BitsPerScanMap
    ensures (n == 0) == (r == 0)
  {
    if n == 0 then 0 else if n <= BitsPerScanMap then 1 else 1 + Blocks(n - BitsPerScanMap)
  }

  function BlocksBetween(p: nat, end: nat): nat
  {
    if end > p then Blocks(end - p) else 0
  }

  /** The description words from dp on cover every block of [p, end). */
  predicate Describes(words: seq<Word>, dp: nat, p: nat, end: nat)
  {
    dp + BlocksBetween(p, end) <= |words|
  }

  /** One block handed out by a scan: its base slot and its nonzero map. */
  datatype Block = Block(base: nat, slotMap: Word)

  /** A getNextSlotMap result together with where the description pointer is left. */
  datatype DescriptionStep = DescriptionStep(result: SlotMapResult, nextDescription: nat)

  /**
   * The getNextSlotMap walk from map pointer p with the description pointer
   * at dp: examine the blocks of [p, end) in order, consuming one description
   * word each, and stop at the first nonzero word.
   */
  function NextNonzeroBlock(words: seq<Word>, dp: nat, p: nat, end: nat): (r: DescriptionStep)
    requires Describes(words, dp, p, end)
    ensures r.result.base.Some? ==>
      && dp < r.nextDescription
      && p <= r.result.base.value < end
      && r.result.slotMap != 0
      && Describes(words, r.nextDescription, r.result.base.value + BitsPerScanMap, end)
    ensures r.result.base.None? ==> r.result.slotMap == 0 && !r.result.hasNext
    decreases end - p
  {
    if end <= p then
      DescriptionStep(SlotMapResult(None, 0, false), dp)
    else
      assert BlocksBetween(p, end) == 1 + BlocksBetween(p + BitsPerScanMap, end);
      if words[dp] != 0 then
        DescriptionStep(SlotMapResult(Some(p), words[dp], BitsPerScanMap < end - p), dp + 1)
      else
        NextNonzeroBlock(words, dp + 1, p + BitsPerScanMap, end)
  }

  /**
   * A non-NULL walk result is the first block below end whose description
   * word is nonzero, with that word as its map: one word was consumed for
   * each block examined and every word skipped is zero.
   */
  lemma {:induction false} NextNonzeroBlockFound(words: seq<Word>, dp: nat, p: nat, end: nat)
    requires Describes(words, dp, p, end)
    ensures var r := NextNonzeroBlock(words, dp, p, end);
      r.result.base.Some? ==>
        var b := r.result.base.value;
        && b == p + (r.nextDescription - dp - 1) * BitsPerScanMap
        && r.result.slotMap == words[r.nextDescription - 1]
        && (forall j :: dp <= j < r.nextDescription - 1 ==> words[j] == 0)
        && r.result.hasNext == (BitsPerScanMap < end - b)
    decreases end - p
  {
    if end > p && words[dp] == 0 {
      NextNonzeroBlockStep(words, dp, p, end);
      NextNonzeroBlockFound(words, dp + 1, p + BitsPerScanMap, end);
      var r := NextNonzeroBlock(words, dp + 1, p + BitsPerScanMap, end);
      if r.result.base.Some? {
        var n := r.nextDescription - dp - 1;
        assert p + BitsPerScanMap + (n - 1) * BitsPerScanMap == p + n * BitsPerScanMap;
      }
    }
  }

  /**
   * A NULL walk result means every block of [p, end) was examined, one word
   * each, and every one of those words is zero.
   */
  lemma {:induction false} NextNonzeroBlockExhausted(words: seq<Word>, dp: nat, p: nat, end: nat)
    requires Describes(words, dp, p, end)
    ensures var r := NextNonzeroBlock(words, dp, p, end);
      r.result.base.None? ==>
        && r.nextDescription == dp + BlocksBetween(p, end)
        && (forall j :: dp <= j < r.nextDescription ==> words[j] == 0)
    decreases end - p
  {
    if end > p && words[dp] == 0 {
      NextNonzeroBlockStep(words, dp, p, end);
      NextNonzeroBlockExhausted(words, dp + 1, p + BitsPerScanMap, end);
    }
  }

  /** One block of the walk: a nonzero word ends it, a zero word moves on to the next block. */
  lemma NextNonzeroBlockStep(words: seq<Word>, dp: nat, p: nat, end: nat)
    requires p < end && Describes(words, dp, p, end)
    ensures words[dp] != 0 ==>
      NextNonzeroBlock(words, dp, p, end)
      == DescriptionStep(SlotMapResult(Some(p), words[dp], BitsPerScanMap < end - p), dp + 1)
    ensures words[dp] == 0 ==>
      && Describes(words, dp + 1, p + BitsPerScanMap, end)
      && NextNonzeroBlock(words, dp, p, end) == NextNonzeroBlock(words, dp + 1, p + BitsPerScanMap, end)
    ensures words[dp] == 0 && end <= p + BitsPerScanMap ==>
      NextNonzeroBlock(words, dp, p, end) == DescriptionStep(SlotMapResult(None, 0, false), dp + 1)
  {
    if words[dp] == 0 {
      assert BlocksBetween(p, end) == 1 + BlocksBetween(p + BitsPerScanMap, end);
    }
  }

  /**
   * Every block a whole scan hands out, calling getNextSlotMap again at the
   * block after the one just returned until it returns NULL.
   */
  function ScanBlocks(words: seq<Word>, dp: nat, p: nat, end: nat): seq<Block>
    requires Describes(words, dp, p, end)
    decreases end - p
  {
    var r := NextNonzeroBlock(words, dp, p, end);
    match r.result.base
    case None => []
    case Some(b) =>
      [Block(b, r.result.slotMap)] + ScanBlocks(words, r.nextDescription, b + BitsPerScanMap, end)
  }

  /** Every block lies in [p, end) and has a nonzero map. */
  predicate BlocksWithin(s: seq<Block>, p: nat, end: nat)
  {
    forall i :: 0 <= i < |s| ==> p <= s[i].base < end && s[i].slotMap != 0
  }

  /** Blocks are in increasing address order and do not overlap. */
  predicate BlocksAscending(s: seq<Block>)
  {
    forall i, j :: 0 <= i < j < |s| ==> s[i].base + BitsPerScanMap <= s[j].base
  }

  /** Blocks come out in increasing address order, inside [p, end), each with a nonzero map. */
  lemma {:induction false} ScanBlocksOrdered(words: seq<Word>, dp: nat, p: nat, end: nat)
    requires Describes(words, dp, p, end)
    ensures BlocksWithin(ScanBlocks(words, dp, p, end), p, end)
    ensures BlocksAscending(ScanBlocks(words, dp, p, end))
    decreases end - p
  {
    var r := NextNonzeroBlock(words, dp, p, end);
    if r.result.base.Some? {
      var b := r.result.base.value;
      var rest := ScanBlocks(words, r.nextDescription, b + BitsPerScanMap, end);
      ScanBlocksOrdered(words, r.nextDescription, b + BitsPerScanMap, end);
      var x := Block(b, r.result.slotMap);
      assert ScanBlocks(words, dp, p, end) == [x] + rest;
      ConsWithin(x, rest, p, end);
      ConsAscending(x, rest, end);
    }
  }

  /** A block in front of blocks that lie past it stays within the range. */
  lemma ConsWithin(x: Block, rest: seq<Block>, p: nat, end: nat)
    requires p <= x.base < end && x.slotMap != 0
    requires BlocksWithin(rest, x.base + BitsPerScanMap, end)
    ensures BlocksWithin([x] + rest, p, end)
  {
    var s := [x] + rest;
    forall i | 0 <= i < |s| ensures p <= s[i].base < end && s[i].slotMap != 0 {
      if i > 0 {
        assert s[i] == rest[i - 1];
      }
    }
  }

  /** A block in front of ascending blocks that start a block past it keeps them ascending. */
  lemma ConsAscending(x: Block, rest: seq<Block>, end: nat)
    requires BlocksWithin(rest, x.base + BitsPerScanMap, end)
    requires BlocksAscending(rest)
    ensures BlocksAscending([x] + rest)
  {
    var s := [x] + rest;
    forall i, j | 0 <= i < j < |s| ensures s[i].base + BitsPerScanMap <= s[j].base {
      assert s[j] == rest[j - 1];
      if i > 0 {
        assert s[i] == rest[i - 1];
      }
    }
  }

  /**
   * Exactly the blocks with a nonzero description word are handed out: block
   * k of [p, end), based at p + k * W, is reported, with its own word as the
   * map, iff that word is nonzero.
   */
  lemma {:induction false} ScanBlocksExact(words: seq<Word>, dp: nat, p: nat, end: nat, k: nat)
    requires Describes(words, dp, p, end)
    requires k < BlocksBetween(p, end)
    ensures words[dp + k] != 0 <==>
      Block(p + k * BitsPerScanMap, words[dp + k]) in ScanBlocks(words, dp, p, end)
    decreases end - p
  {
    var r := NextNonzeroBlock(words, dp, p, end);
    var target := Block(p + k * BitsPerScanMap, words[dp + k]);
    var s := ScanBlocks(words, dp, p, end);
    if r.result.base.Some? {
      NextNonzeroBlockFound(words, dp, p, end);
      var b := r.result.base.value;
      var j := r.nextDescription - dp - 1;
      var first := Block(b, r.result.slotMap);
      var q := b + BitsPerScanMap;
      var rest := ScanBlocks(words, r.nextDescription, q, end);
      assert s == [first] + rest;
      if k < j {
        assert words[dp + k] == 0;
        ScanBlocksOrdered(words, r.nextDescription, q, end);
        BlocksPastExclude(rest, q, end, target);
        assert target.base < first.base;
      } else if k == j {
        assert first == target;
      } else {
        var k2 := k - j - 1;
        assert BlocksBetween(p, end) == j + 1 + BlocksBetween(q, end) by {
          BlocksSplit(p, end, j + 1);
        }
        ScanBlocksExact(words, r.nextDescription, q, end, k2);
        assert r.nextDescription + k2 == dp + k;
        assert q + k2 * BitsPerScanMap == target.base by {
          BlockBaseShift(p, j, k);
        }
        assert Block(q + k2 * BitsPerScanMap, words[r.nextDescription + k2]) == target;
        assert (words[dp + k] != 0) == (target in rest);
        assert first.base < target.base;
      }
    } else {
      NextNonzeroBlockExhausted(words, dp, p, end);
      assert words[dp + k] == 0;
      assert s == [];
    }
  }

  /** Block k of [p, end), based k blocks past p, with description word k as its map. */
  function BlockAt(words: seq<Word>, dp: nat, p: nat, k: nat): Block
    requires dp + k < |words|
  {
    Block(p + k * BitsPerScanMap, words[dp + k])
  }

  /**
   * Nothing spurious is handed out: every block of a whole scan is some
   * block k of [p, end) carrying description word k as its map.
   */
  lemma {:induction false} ScanBlocksGenuine(words: seq<Word>, dp: nat, p: nat, end: nat)
    requires Describes(words, dp, p, end)
    ensures forall x :: x in ScanBlocks(words, dp, p, end) ==>
      exists k: nat :: k < BlocksBetween(p, end) && x == BlockAt(words, dp, p, k)
    decreases end - p
  {
    var r := NextNonzeroBlock(words, dp, p, end);
    var s := ScanBlocks(words, dp, p, end);
    if r.result.base.Some? {
      NextNonzeroBlockFound(words, dp, p, end);
      var b := r.result.base.value;
      var j := r.nextDescription - dp - 1;
      var first := Block(b, r.result.slotMap);
      var q := b + BitsPerScanMap;
      var rest := ScanBlocks(words, r.nextDescription, q, end);
      assert s == [first] + rest;
      BlockIndexBound(p, end, j);
      assert BlocksBetween(p, end) == j + 1 + BlocksBetween(q, end) by {
        BlocksSplit(p, end, j + 1);
      }
      ScanBlocksGenuine(words, r.nextDescription, q, end);
      forall x | x in s
        ensures exists k: nat :: k < BlocksBetween(p, end) && x == BlockAt(words, dp, p, k)
      {
        if x == first {
          assert x == BlockAt(words, dp, p, j);
        } else {
          assert x in rest;
          var k2: nat :| k2 < BlocksBetween(q, end) && x == BlockAt(words, r.nextDescription, q, k2);
          var k := j + 1 + k2;
          BlockBaseShift(p, j, k);
          assert x == BlockAt(words, dp, p, k);
        }
      }
    }
  }

  /** A block based before end is one of the blocks of [p, end). */
  lemma BlockIndexBound(p: nat, end: nat, j: nat)
    requires p + j * BitsPerScanMap < end
    ensures j < BlocksBetween(p, end)
  {
  }

  /** No block based before q is among blocks that all lie at or after q. */
  lemma BlocksPastExclude(rest: seq<Block>, q: nat, end: nat, target: Block)
    requires BlocksWithin(rest, q, end)
    requires target.base < q
    ensures target !in rest
  {
    forall i | 0 <= i < |rest| ensures rest[i] != target {
      assert q <= rest[i].base;
    }
  }

  /** Block k - j - 1 counted from the block after block j is block k. */
  lemma BlockBaseShift(p: nat, j: nat, k: nat)
    requires j < k
    ensures p + j * BitsPerScanMap + BitsPerScanMap + (k - j - 1) * BitsPerScanMap == p + k * BitsPerScanMap
  {
  }

  /** Skipping n whole blocks from p leaves the remaining blocks of [p, end). */
  lemma {:induction false} BlocksSplit(p: nat, end: nat, n: nat)
    requires n <= BlocksBetween(p, end)
    ensures BlocksBetween(p, end) == n + BlocksBetween(p + n * BitsPerScanMap, end)
  {
    if n > 0 {
      BlocksSplit(p, end, n - 1);
      var q := p + (n - 1) * BitsPerScanMap;
      assert p + n * BitsPerScanMap == q + BitsPerScanMap;
    }
  }

  class MixedObjectScanner {
    const slotBytes: SlotWidth
    var flags: set<ScanFlag>
    /** The first slot map, decoded when the scanner is bound to an object. */
    var scanMap: Word
    /** Word memory the out-of-line description lives in. */
    var descriptionWords: seq<Word>
    /** Current description pointer; None is NULL. */
    var descriptionPtr: Option<nat>
    /** First slot past the object. */
    var endPtr: nat
    /** Base slot of the current block, kept by the scanner base class. */
    var mapPtr: nat
    /** The object's consumed size in bytes, cached when it fits in 32 bits. */
    var objectSizeInBytes: Option<nat>

    predicate HasMoreSlots()
      reads this
    {
      NoMoreSlots !in flags
    }

    /** An unbound scanner: NULL pointers, an empty map, the caller's flags. */
    constructor (slotBytes: SlotWidth, flags: set<ScanFlag>)
      ensures this.slotBytes == slotBytes && this.flags == flags
      ensures scanMap == 0 && descriptionPtr == None && endPtr == 0 && mapPtr == 0
      ensures descriptionWords == [] && objectSizeInBytes == None
    {
      this.slotBytes := slotBytes;
      this.flags := flags;
      scanMap := 0;
      descriptionWords := [];
      descriptionPtr := None;
      endPtr := 0;
      mapPtr := 0;
      objectSizeInBytes := None;
    }

    /**
     * Bind the scanner to an object: decode the description, cache the size,
     * place the end pointer and the first map base.
     */
    method Initialize(obj: ObjectLayout)
      requires obj.headerSlots <= obj.consumedSlots
      requires obj.instanceDescription % 2 == 0 ==> obj.instanceDescription < |obj.descriptionWords|
      modifies this
      ensures descriptionWords == obj.descriptionWords
      ensures obj.instanceDescription % 2 == 1 ==>
        scanMap == obj.instanceDescription / 2 && descriptionPtr == None
      ensures obj.instanceDescription % 2 == 0 ==>
        scanMap == obj.descriptionWords[obj.instanceDescription]
        && descriptionPtr == Some(obj.instanceDescription + 1)
      ensures objectSizeInBytes ==
        if obj.consumedSlots * slotBytes < 0x1_0000_0000 then Some(obj.consumedSlots * slotBytes)
        else old(objectSizeInBytes)
      ensures endPtr == obj.address + obj.consumedSlots
      ensures mapPtr == obj.address + obj.headerSlots
      ensures HasMoreSlots() <==> BitsPerScanMap < endPtr - mapPtr
      ensures flags - {NoMoreSlots} == old(flags) - {NoMoreSlots}
    {
      descriptionWords := obj.descriptionWords;
      var description := obj.instanceDescription;
      scanMap := description;
      if scanMap % 2 == 1 {
        scanMap := scanMap / 2;
        descriptionPtr := None;
        flags := flags + {NoMoreSlots};
      } else {
        descriptionPtr := Some(scanMap);
        scanMap := descriptionWords[description];
        descriptionPtr := Some(description + 1);
        flags := flags + {NoMoreSlots};
      }
      var objectSize := obj.consumedSlots * slotBytes;
      if 0x1_0000_0000 > objectSize {
        objectSizeInBytes := Some(objectSize);
      }
      endPtr := obj.address + obj.consumedSlots;
      var scanPtr := obj.address + obj.headerSlots;
      var hasMoreSlots := BitsPerScanMap < endPtr - scanPtr;
      SetMapPtr(scanPtr, hasMoreSlots);
    }

    /** The base class's setMapPtr: record the block base and the more-slots flag. */
    method SetMapPtr(p: nat, hasMoreSlots: bool)
      modifies this`mapPtr, this`flags
      ensures mapPtr == p
      ensures HasMoreSlots() == hasMoreSlots
      ensures flags - {NoMoreSlots} == old(flags) - {NoMoreSlots}
    {
      mapPtr := p;
      flags := if hasMoreSlots then flags - {NoMoreSlots} else flags + {NoMoreSlots};
    }

    /** In-place instantiation: construct, then bind to the object. */
    static method NewInstance(obj: ObjectLayout, slotBytes: SlotWidth, flags: set<ScanFlag>)
      returns (s: MixedObjectScanner)
      requires obj.headerSlots <= obj.consumedSlots
      requires obj.instanceDescription % 2 == 0 ==> obj.instanceDescription < |obj.descriptionWords|
      ensures fresh(s)
      ensures s.slotBytes == slotBytes
      ensures s.descriptionWords == obj.descriptionWords
      ensures s.objectSizeInBytes ==
        if obj.consumedSlots * slotBytes < 0x1_0000_0000 then Some(obj.consumedSlots * slotBytes) else None
      ensures s.endPtr == obj.address + obj.consumedSlots
      ensures s.mapPtr == obj.address + obj.headerSlots
      ensures s.HasMoreSlots() <==> BitsPerScanMap < obj.consumedSlots - obj.headerSlots
      ensures s.flags - {NoMoreSlots} == flags - {NoMoreSlots}
      ensures obj.instanceDescription % 2 == 1 ==>
        s.scanMap == obj.instanceDescription / 2 && s.descriptionPtr == None
      ensures obj.instanceDescription % 2 == 0 ==>
        s.scanMap == obj.descriptionWords[obj.instanceDescription]
        && s.descriptionPtr == Some(obj.instanceDescription + 1)
    {
      s := new MixedObjectScanner(slotBytes, flags);
      s.Initialize(obj);
    }

    /**
     * Hand out the next block, from the current map pointer on, whose
     * description word is nonzero; consume one description word per block
     * examined.
     */
    method GetNextSlotMap() returns (base: Option<nat>, slotMap: Word, hasNext: bool)
      requires endPtr > mapPtr ==>
        descriptionPtr.Some? && Describes(descriptionWords, descriptionPtr.value, mapPtr, endPtr)
      modifies this`descriptionPtr
      ensures endPtr > mapPtr ==>
        var r := NextNonzeroBlock(descriptionWords, old(descriptionPtr).value, mapPtr, endPtr);
        SlotMapResult(base, slotMap, hasNext) == r.result && descriptionPtr == Some(r.nextDescription)
      ensures endPtr <= mapPtr ==>
        base == None && slotMap == 0 && !hasNext && descriptionPtr == old(descriptionPtr)
    {
      slotMap := 0;
      var words, end := descriptionWords, endPtr;
      var nextMapPtr := mapPtr;
      ghost var target := if end > nextMapPtr
        then NextNonzeroBlock(words, descriptionPtr.value, nextMapPtr, end)
        else DescriptionStep(SlotMapResult(None, 0, false), 0);
      while end > nextMapPtr
        invariant words == descriptionWords && end == endPtr
        invariant end > nextMapPtr ==>
          && descriptionPtr.Some?
          && Describes(words, descriptionPtr.value, nextMapPtr, end)
          && NextNonzeroBlock(words, descriptionPtr.value, nextMapPtr, end) == target
        invariant end <= nextMapPtr && end > mapPtr ==>
          && descriptionPtr.Some?
          && target == DescriptionStep(SlotMapResult(None, 0, false), descriptionPtr.value)
        invariant end <= mapPtr ==> descriptionPtr == old(descriptionPtr)
        invariant slotMap == 0
        decreases end - nextMapPtr
      {
        var dp := descriptionPtr.value;
        slotMap := words[dp];
        descriptionPtr := Some(dp + 1);
        NextNonzeroBlockStep(words, dp, nextMapPtr, end);
        if 0 != slotMap {
          hasNext := BitsPerScanMap < end - nextMapPtr;
          return Some(nextMapPtr), slotMap, hasNext;
        }
        nextMapPtr := nextMapPtr + BitsPerScanMap;
      }
      hasNext := false;
      return None, slotMap, hasNext;
    }

    /**
     * Bytes of the object at or beyond the scan cursor (the base class's scan
     * pointer, None for NULL); 0 once the cursor is NULL or past the end.
     */
    function GetBytesRemaining(scanPtr: Option<nat>): (r: nat)
      reads this
      ensures r == 0 <==> scanPtr.None? || endPtr <= scanPtr.value
      ensures r % slotBytes == 0
      ensures scanPtr.Some? && scanPtr.value <= endPtr ==> r / slotBytes == endPtr - scanPtr.value
    {
      if scanPtr.Some? && scanPtr.value <= endPtr then (endPtr - scanPtr.value) * slotBytes else 0
    }
  }
}
