/**
 * Machine words, scan flags and slot bit maps shared by every object scanner.
 *
 * Slot addresses are modelled as slot indices (a `nat`), so that "the slot
 * after p" is p + 1 whatever the width of a reference slot; byte counts are
 * recovered by multiplying by the slot width (4 bytes with compressed
 * references, 8 without).
 */
module ScanMaps {

  datatype Option<T> = None | Some(value: T)

  /** Number of slots mapped by one scan map: the bit width of uintptr_t. */
  const BitsPerScanMap: nat := 64

  const WordModulus: nat := 0x1_0000_0000_0000_0000

  /** UDATA_MAX, the all-ones word. */
  const MaxWord: nat := 0xFFFF_FFFF_FFFF_FFFF

  /** An unsigned machine word (uintptr_t). */
  type Word = x: nat | x < WordModulus

  /** Width in bytes of one reference slot: compressed or full references. */
  type SlotWidth = n: nat | n == 4 || n == 8 witness 8

  /** The scanning-context flag bits the core reads or sets. */
  datatype ScanFlag =
    | HeapScan
    | IndexableObjectNoSplit
    | HeadObjectScanner
    | LinkedObjectScanner
    | NoMoreSlots

  /**
   * What a getNextSlotMap call hands back: the base slot of the block (None
   * for NULL), the block's bit map and the "call me again" flag.
   */
  datatype SlotMapResult = SlotMapResult(base: Option<nat>, slotMap: Word, hasNext: bool)

  function Pow2(n: nat): (r: nat)
    ensures r >= 1
  {
    if n == 0 then 1 else 2 * Pow2(n - 1)
  }

  lemma {:induction false} Pow2Add(n: nat, k: nat)
    ensures Pow2(n + k) == Pow2(n) * Pow2(k)
  {
    if k > 0 {
      Pow2Add(n, k - 1);
      assert Pow2(n + k) == 2 * Pow2(n + k - 1);
    }
  }

  lemma {:induction false} Pow2Monotone(n: nat, k: nat)
    requires n <= k
    ensures Pow2(n) <= Pow2(k)
  {
    if n < k {
      Pow2Monotone(n, k - 1);
    }
  }

  lemma Pow2Width()
    ensures Pow2(BitsPerScanMap) == WordModulus
  {
    Pow2Add(4, 4);
    assert Pow2(8) == 256 by {
      assert Pow2(4) == 16;
    }
    Pow2Add(8, 8);
    assert Pow2(16) == 0x1_0000;
    Pow2Add(16, 16);
    assert Pow2(32) == 0x1_0000_0000;
    Pow2Add(32, 32);
  }

  /** The word whose n least significant bits are set and no other. */
  function Ones(n: nat): nat
  {
    Pow2(n) - 1
  }

  /** ((uintptr_t)1 << n) - 1, defined for shift counts below the word width. */
  function LowBits(n: nat): (r: Word)
    requires n < BitsPerScanMap
    ensures r == Ones(n)
  {
    Pow2Monotone(n, BitsPerScanMap);
    Pow2Width();
    Pow2(n) - 1
  }

  /** Bit i of m, counting from the least significant bit. */
  predicate Bit(m: nat, i: nat)
  {
    if i == 0 then m % 2 == 1 else Bit(m / 2, i - 1)
  }

  lemma MaxWordIsOnes()
    ensures MaxWord == Ones(BitsPerScanMap)
  {
    Pow2Width();
  }

  /** Exactly the n least significant bits of Ones(n) are set. */
  lemma {:induction false} OnesBits(n: nat, i: nat)
    ensures Bit(Ones(n), i) <==> i < n
  {
    if n == 0 {
      ZeroHasNoBits(i);
    } else {
      OnesStep(n);
      if i > 0 {
        OnesBits(n - 1, i - 1);
      }
    }
  }

  lemma {:induction false} ZeroHasNoBits(i: nat)
    ensures !Bit(0, i)
  {
    if i > 0 {
      ZeroHasNoBits(i - 1);
    }
  }

  /**
   * The slots a block of n slots starting at base reports as references:
   * slot base + i is reported when bit i of the map is set, in increasing
   * address order.
   */
  function ReferenceSlots(base: nat, m: nat, n: nat): seq<nat>
    decreases n
  {
    if n == 0 then []
    else (if m % 2 == 1 then [base] else []) + ReferenceSlots(base + 1, m / 2, n - 1)
  }

  /** A slot is reported exactly when it lies in the block and its bit is set. */
  lemma {:induction false} ReferenceSlotsMembership(base: nat, m: nat, n: nat, x: nat)
    ensures x in ReferenceSlots(base, m, n) <==> base <= x < base + n && Bit(m, x - base)
    decreases n
  {
    if n > 0 {
      var head := if m % 2 == 1 then [base] else [];
      var rest := ReferenceSlots(base + 1, m / 2, n - 1);
      assert ReferenceSlots(base, m, n) == head + rest;
      assert (x in head + rest) == (x in head || x in rest);
      ReferenceSlotsMembership(base + 1, m / 2, n - 1, x);
      if x > base {
        assert Bit(m, x - base) == Bit(m / 2, x - (base + 1));
      }
    }
  }

  predicate Increasing(s: seq<nat>)
  {
    forall i, j :: 0 <= i < j < |s| ==> s[i] < s[j]
  }

  /** Reported slots come out in strictly increasing address order. */
  lemma {:induction false} ReferenceSlotsIncreasing(base: nat, m: nat, n: nat)
    ensures Increasing(ReferenceSlots(base, m, n))
    ensures forall x :: x in ReferenceSlots(base, m, n) ==> base <= x
    decreases n
  {
    if n > 0 {
      var rest := ReferenceSlots(base + 1, m / 2, n - 1);
      ReferenceSlotsIncreasing(base + 1, m / 2, n - 1);
      if m % 2 == 1 {
        var s := [base] + rest;
        forall i, j | 0 <= i < j < |s| ensures s[i] < s[j] {
          assert s[j] == rest[j - 1] && s[j] in rest;
          if i > 0 {
            assert s[i] == rest[i - 1];
          }
        }
        assert ReferenceSlots(base, m, n) == s;
      } else {
        assert ReferenceSlots(base, m, n) == rest;
      }
    }
  }

  /** A map with its n low bits set reports every slot of an n-slot block. */
  lemma {:induction false} OnesReportEverySlot(base: nat, n: nat)
    ensures ReferenceSlots(base, Ones(n), n) == seq(n, i => base + i)
    decreases n
  {
    if n > 0 {
      OnesStep(n);
      OnesReportEverySlot(base + 1, n - 1);
      var rest := seq(n - 1, i => base + 1 + i);
      assert ReferenceSlots(base, Ones(n), n) == [base] + rest;
      assert [base] + rest == seq(n, i => base + i) by {
        forall i | 0 <= i < n ensures ([base] + rest)[i] == base + i {
          if i > 0 {
            assert ([base] + rest)[i] == rest[i - 1];
          }
        }
      }
    }
  }

  /** Dropping the lowest bit of Ones(n) leaves Ones(n - 1). */
  lemma OnesStep(n: nat)
    requires n > 0
    ensures Ones(n) % 2 == 1 && Ones(n) / 2 == Ones(n - 1)
  {
    assert Pow2(n) == 2 * Pow2(n - 1);
  }

  /** The map 0b101 over three slots reports the first and the third slot. */
  lemma SparseMapScenario(base: nat)
    ensures ReferenceSlots(base, 5, 3) == [base, base + 2]
  {
  }
}
