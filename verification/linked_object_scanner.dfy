/**
 * The linked-object scanner (GC_LinkedObjectScanner): a mixed scanner that
 * also reports up to two self-referencing field offsets, the fields that
 * thread objects of its class into intrusive lists.
 */
module LinkedObjectScanning {
  import opened ScanMaps

  /** The self-referencing field offsets a class declares (0 for none). */
  datatype ClassLinkage = ClassLinkage(selfReferencingField1: nat, selfReferencingField2: nat)

  /**
   * The part of a linked-object scanner this model keeps: its flags and the
   * two offsets, fixed when the scanner is built.
   */
  datatype LinkedScanner = LinkedScanner(
    flags: set<ScanFlag>,
    fieldOffset1: nat,
    fieldOffset2: nat)

  /** Build the scanner: mark it as a linked-object scanner and read both offsets from the class once. */
  function NewLinkedObjectScanner(clazz: ClassLinkage, flags: set<ScanFlag>): (s: LinkedScanner)
    ensures LinkedObjectScanner in s.flags
    ensures s.flags - {LinkedObjectScanner} == flags - {LinkedObjectScanner}
    ensures s.fieldOffset1 == clazz.selfReferencingField1
    ensures s.fieldOffset2 == clazz.selfReferencingField2
  {
    LinkedScanner(flags + {LinkedObjectScanner}, clazz.selfReferencingField1, clazz.selfReferencingField2)
  }

  /**
   * The self-referencing slot offset after last: the first offset after 0,
   * the second after the first, and 0 (no more) otherwise.
   */
  function GetNextSelfReferencingSlotOffset(s: LinkedScanner, last: nat): (r: nat)
    ensures r == 0 || r == s.fieldOffset1 || r == s.fieldOffset2
    ensures r != 0 ==> (last == 0 && r == s.fieldOffset1) || (last == s.fieldOffset1 && r == s.fieldOffset2)
  {
    if 0 == last && 0 < s.fieldOffset1 then s.fieldOffset1
    else if s.fieldOffset1 == last && 0 < s.fieldOffset2 then s.fieldOffset2
    else 0
  }

  /** The three cases of the query, one by one. */
  lemma NextOffsetCases(s: LinkedScanner, last: nat)
    ensures last == 0 && s.fieldOffset1 > 0 ==> GetNextSelfReferencingSlotOffset(s, last) == s.fieldOffset1
    ensures last == s.fieldOffset1 && s.fieldOffset2 > 0 && !(last == 0 && s.fieldOffset1 > 0)
      ==> GetNextSelfReferencingSlotOffset(s, last) == s.fieldOffset2
    ensures last != 0 && last != s.fieldOffset1 ==> GetNextSelfReferencingSlotOffset(s, last) == 0
  {
  }

  /**
   * The offsets reported by feeding each answer back in, starting from 0,
   * for at most fuel queries; the walk stops at the first 0.
   */
  function SelfReferencingWalk(s: LinkedScanner, last: nat, fuel: nat): seq<nat>
    decreases fuel
  {
    if fuel == 0 then []
    else
      var next := GetNextSelfReferencingSlotOffset(s, last);
      if next == 0 then [] else [next] + SelfReferencingWalk(s, next, fuel - 1)
  }

  /** The positive offsets among the two, in declaration order. */
  function DeclaredOffsets(s: LinkedScanner): seq<nat>
  {
    (if s.fieldOffset1 > 0 then [s.fieldOffset1] else [])
    + (if s.fieldOffset2 > 0 then [s.fieldOffset2] else [])
  }

  /**
   * Unless both offsets are the same positive offset, the walk from 0
   * reports each positive offset once, in order, and the query after the
   * last one reported answers 0: at most three queries end the walk.
   */
  lemma {:induction false} SelfReferencingWalkEnds(s: LinkedScanner)
    requires !(0 < s.fieldOffset1 == s.fieldOffset2)
    ensures SelfReferencingWalk(s, 0, 3) == DeclaredOffsets(s)
    ensures var w := SelfReferencingWalk(s, 0, 3);
      GetNextSelfReferencingSlotOffset(s, if w == [] then 0 else w[|w| - 1]) == 0
  {
    var f1, f2 := s.fieldOffset1, s.fieldOffset2;
    if f1 > 0 {
      assert GetNextSelfReferencingSlotOffset(s, 0) == f1;
      if f2 > 0 {
        assert GetNextSelfReferencingSlotOffset(s, f1) == f2;
        assert GetNextSelfReferencingSlotOffset(s, f2) == 0;
        assert SelfReferencingWalk(s, f2, 1) == [];
        assert SelfReferencingWalk(s, f1, 2) == [f2];
      } else {
        assert GetNextSelfReferencingSlotOffset(s, f1) == 0;
        assert SelfReferencingWalk(s, f1, 2) == [];
      }
    } else if f2 > 0 {
      assert GetNextSelfReferencingSlotOffset(s, 0) == f2;
      assert GetNextSelfReferencingSlotOffset(s, f2) == 0;
      assert SelfReferencingWalk(s, f2, 2) == [];
    } else {
      assert GetNextSelfReferencingSlotOffset(s, 0) == 0;
    }
  }

  /** With two equal positive offsets the query never answers 0: the distinctness is needed. */
  lemma EqualOffsetsNeverEnd(s: LinkedScanner, fuel: nat)
    requires 0 < s.fieldOffset1 == s.fieldOffset2
    ensures SelfReferencingWalk(s, 0, fuel + 1) == [s.fieldOffset1] + SelfReferencingWalk(s, s.fieldOffset1, fuel)
    ensures GetNextSelfReferencingSlotOffset(s, s.fieldOffset1) == s.fieldOffset1
  {
  }
}
