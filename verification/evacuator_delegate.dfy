/**
 * The Java side of the evacuator (MM_EvacuatorDelegate): the policy that
 * decides, for each weak, soft or phantom reference object met during a
 * heap scan, whether its referent is cleared, the object queued for the
 * clearing phase, or the referent marked as strongly reachable; ownable
 * synchronizer bookkeeping; per-cycle state; and the array-scanner factories.
 */
module EvacuatorDelegation {
  import opened ScanMaps
  import PointerArrayScanning

  datatype ReferenceState = Initial | Cleared | Enqueued

  datatype ReferenceKind = Weak | Soft | Phantom

  /** The reference-object option bits of the cycle. */
  datatype ReferenceOptions = ReferenceOptions(
    clearWeak: bool,
    clearSoft: bool,
    clearPhantom: bool,
    softAsWeak: bool)

  /** Flags the delegate raises on the evacuator controller. */
  datatype EvacuatorFlag =
    | ShouldScavengeWeakReferenceObjects
    | ShouldScavengeSoftReferenceObjects
    | ShouldScavengePhantomReferenceObjects

  function ScavengeFlag(kind: ReferenceKind): EvacuatorFlag
  {
    match kind
    case Weak => ShouldScavengeWeakReferenceObjects
    case Soft => ShouldScavengeSoftReferenceObjects
    case Phantom => ShouldScavengePhantomReferenceObjects
  }

  /** Which scanner a factory builds for an object that is not an array. */
  datatype ScannerKind =
    | MixedScanner
    | ReferenceScanner(referentSlot: Option<nat>)

  /** The booleans the heap-scan policy computes for one reference object. */
  datatype ReferenceDecision = ReferenceDecision(
    isCleared: bool,
    shouldScavenge: bool,
    mustMark: bool,
    mustClear: bool)

  /** The cycle's clear option for references of the given kind. */
  function ClearOption(kind: ReferenceKind, options: ReferenceOptions): bool
  {
    match kind
    case Weak => options.clearWeak
    case Soft => options.clearSoft
    case Phantom => options.clearPhantom
  }

  /** A soft reference still younger than the maximum age while soft references are not treated as weak. */
  predicate YoungSoft(kind: ReferenceKind, age: nat, options: ReferenceOptions, maxSoftAge: nat)
  {
    kind == Soft && !options.softAsWeak && age < maxSoftAge
  }

  /**
   * The decision for a reference object of the given kind and state, in or
   * out of survivor space, under the cycle's options; age and maxSoftAge
   * matter to soft references only.
   */
  function Decide(state: ReferenceState, kind: ReferenceKind, age: nat, inSurvivor: bool,
                  options: ReferenceOptions, maxSoftAge: nat): (d: ReferenceDecision)
    ensures d.isCleared <==> state != Initial
    ensures d.shouldScavenge <==> inSurvivor && state == Initial
    ensures !d.mustMark ==> d.shouldScavenge
    ensures d.mustMark <==> state != Initial || !inSurvivor || YoungSoft(kind, age, options, maxSoftAge)
    ensures d.mustClear == ClearOption(kind, options)
  {
    var isCleared := state == Cleared || state == Enqueued;
    var shouldScavenge := inSurvivor && !isCleared;
    var mustMark := isCleared || !inSurvivor;
    match kind
    case Weak => ReferenceDecision(isCleared, shouldScavenge, mustMark, options.clearWeak)
    case Soft =>
      ReferenceDecision(isCleared, shouldScavenge,
        mustMark || (!options.softAsWeak && age < maxSoftAge), options.clearSoft)
    case Phantom => ReferenceDecision(isCleared, shouldScavenge, mustMark, options.clearPhantom)
  }

  /** What one heap-scan visit of a reference object does. */
  datatype ReferenceOutcome = ReferenceOutcome(
    state: ReferenceState,
    referentCleared: bool,
    buffered: bool,
    referentSlot: Option<nat>)

  /**
   * The effect of visiting a reference object in a heap scan: clear the
   * referent (recording Cleared unless already cleared or enqueued), or else
   * queue the object when it is a scavenge candidate; the referent slot is
   * exposed to the reference scanner only when it need not be marked.
   */
  function HeapScanOutcome(state: ReferenceState, kind: ReferenceKind, age: nat, slot: nat,
                           inSurvivor: bool, options: ReferenceOptions, maxSoftAge: nat): (o: ReferenceOutcome)
    ensures o.state == state || (state == Initial && o.state == Cleared)
    ensures !(o.referentCleared && o.buffered)
    ensures o.buffered ==> state == Initial && inSurvivor
    ensures o.referentSlot.Some? ==> o.referentSlot.value == slot && state == Initial && inSurvivor
    ensures !ClearOption(kind, options) ==> o.state == state
    ensures ClearOption(kind, options) ==> o.state != Initial
    ensures state == Initial && inSurvivor && !YoungSoft(kind, age, options, maxSoftAge) ==>
      o.referentSlot == Some(slot)
  {
    var d := Decide(state, kind, age, inSurvivor, options, maxSoftAge);
    var newState := if d.mustClear && !d.isCleared then Cleared else state;
    var referentSlot := if d.mustMark then None else Some(slot);
    ReferenceOutcome(newState, d.mustClear, !d.mustClear && d.shouldScavenge, referentSlot)
  }

  /** A soft reference younger than the maximum age, with soft-as-weak off, is always marked. */
  lemma YoungSoftReferenceIsMarked(state: ReferenceState, age: nat, inSurvivor: bool,
                                   options: ReferenceOptions, maxSoftAge: nat)
    requires !options.softAsWeak && age < maxSoftAge
    ensures Decide(state, Soft, age, inSurvivor, options, maxSoftAge).mustMark
  {
  }

  /**
   * The referent is cleared exactly when the kind's clear option is set, and
   * the object is queued (with the controller's flag for its kind raised)
   * exactly when it is not cleared and is a scavenge candidate.
   */
  lemma ClearOrQueue(state: ReferenceState, kind: ReferenceKind, age: nat, slot: nat,
                     inSurvivor: bool, options: ReferenceOptions, maxSoftAge: nat)
    ensures var o := HeapScanOutcome(state, kind, age, slot, inSurvivor, options, maxSoftAge);
      && (o.referentCleared <==> ClearOption(kind, options))
      && (o.buffered <==> !ClearOption(kind, options) && inSurvivor && state == Initial)
      && (o.referentSlot == None <==> Decide(state, kind, age, inSurvivor, options, maxSoftAge).mustMark)
  {
  }

  /**
   * A second heap-scan visit of a reference object whose referent the first
   * visit cleared changes nothing further: the state stays, the referent
   * stays NULL and nothing is queued.
   */
  lemma {:induction false} ClearingIsIdempotent(state: ReferenceState, kind: ReferenceKind, age: nat,
                                                slot: nat, inSurvivor: bool, options: ReferenceOptions,
                                                maxSoftAge: nat)
    requires ClearOption(kind, options)
    ensures var first := HeapScanOutcome(state, kind, age, slot, inSurvivor, options, maxSoftAge);
      var second := HeapScanOutcome(first.state, kind, age, slot, inSurvivor, options, maxSoftAge);
      && first.state != Initial
      && second.state == first.state
      && second.referentCleared
      && !first.buffered && !second.buffered
  {
    var first := HeapScanOutcome(state, kind, age, slot, inSurvivor, options, maxSoftAge);
    assert Decide(state, kind, age, inSurvivor, options, maxSoftAge).mustClear;
    assert first.state != Initial;
    assert Decide(first.state, kind, age, inSurvivor, options, maxSoftAge).isCleared;
  }

  /** What one heap-scan visit of an ownable synchronizer does to the worker's books. */
  datatype SynchronizerOutcome = SynchronizerOutcome(buffered: bool, totalSurvived: nat, nurserySurvived: nat)

  /**
   * In a heap scan without the concurrent scavenger, a synchronizer that is
   * on a list (non-NULL link) is buffered and counted as survived, and also
   * as nursery-survived when it is in survivor space; otherwise nothing.
   */
  function OwnableSynchronizerOutcome(concurrentScavenger: bool, heapScan: bool, link: Option<nat>,
                                      inSurvivor: bool): (o: SynchronizerOutcome)
    ensures o.buffered <==> !concurrentScavenger && heapScan && link.Some?
    ensures o.totalSurvived == (if o.buffered then 1 else 0)
    ensures o.nurserySurvived == (if o.buffered && inSurvivor then 1 else 0)
  {
    if !concurrentScavenger && heapScan && link.Some? then
      SynchronizerOutcome(true, 1, if inSurvivor then 1 else 0)
    else
      SynchronizerOutcome(false, 0, 0)
  }

  /** Counters of one reference kind (candidates seen, cleared, enqueued). */
  datatype ReferenceStats = ReferenceStats(candidates: nat, cleared: nat, enqueued: nat)

  function MergeReferenceStats(a: ReferenceStats, b: ReferenceStats): ReferenceStats
  {
    ReferenceStats(a.candidates + b.candidates, a.cleared + b.cleared, a.enqueued + b.enqueued)
  }

  const NoReferenceStats := ReferenceStats(0, 0, 0)

  /** The Java-specific scavenger statistics, as a value. */
  datatype JavaStats = JavaStats(
    unfinalizedCandidates: nat,
    unfinalizedEnqueued: nat,
    ownableSynchronizerCandidates: nat,
    ownableSynchronizerTotalSurvived: nat,
    ownableSynchronizerNurserySurvived: nat,
    weakReferenceStats: ReferenceStats,
    softReferenceStats: ReferenceStats,
    phantomReferenceStats: ReferenceStats)

  const NoJavaStats := JavaStats(0, 0, 0, 0, 0, NoReferenceStats, NoReferenceStats, NoReferenceStats)

  /** Every counter of the worker's statistics added into the matching global counter. */
  function MergeJavaStats(global: JavaStats, worker: JavaStats): (r: JavaStats)
    ensures worker == NoJavaStats ==> r == global
  {
    JavaStats(
      global.unfinalizedCandidates + worker.unfinalizedCandidates,
      global.unfinalizedEnqueued + worker.unfinalizedEnqueued,
      global.ownableSynchronizerCandidates + worker.ownableSynchronizerCandidates,
      global.ownableSynchronizerTotalSurvived + worker.ownableSynchronizerTotalSurvived,
      global.ownableSynchronizerNurserySurvived + worker.ownableSynchronizerNurserySurvived,
      MergeReferenceStats(global.weakReferenceStats, worker.weakReferenceStats),
      MergeReferenceStats(global.softReferenceStats, worker.softReferenceStats),
      MergeReferenceStats(global.phantomReferenceStats, worker.phantomReferenceStats))
  }

  /** The total after merging each worker's statistics in turn. */
  function MergeAll(global: JavaStats, workers: seq<JavaStats>): JavaStats
    decreases |workers|
  {
    if workers == [] then global else MergeAll(MergeJavaStats(global, workers[0]), workers[1..])
  }

  /** Merging workers one after another gives the same total in whichever order they come. */
  lemma {:induction false} MergeOrderIrrelevant(global: JavaStats, a: JavaStats, b: JavaStats, rest: seq<JavaStats>)
    ensures MergeAll(global, [a, b] + rest) == MergeAll(global, [b, a] + rest)
  {
    assert ([a, b] + rest)[1..] == [b] + rest;
    assert ([b, a] + rest)[1..] == [a] + rest;
    assert ([b] + rest)[1..] == rest;
    assert ([a] + rest)[1..] == rest;
    assert MergeJavaStats(MergeJavaStats(global, a), b) == MergeJavaStats(MergeJavaStats(global, b), a);
  }

  /** Merging a sequence of workers is merging a prefix, then the rest into that total. */
  lemma {:induction false} MergeAllAppend(global: JavaStats, p: seq<JavaStats>, q: seq<JavaStats>)
    ensures MergeAll(global, p + q) == MergeAll(MergeAll(global, p), q)
    decreases |p|
  {
    if p == [] {
      assert p + q == q;
    } else {
      assert (p + q)[1..] == p[1..] + q;
      MergeAllAppend(MergeJavaStats(global, p[0]), p[1..], q);
    }
  }

  /** Swapping any two adjacent workers leaves the merged totals unchanged. */
  lemma MergeAdjacentSwap(global: JavaStats, p: seq<JavaStats>, a: JavaStats, b: JavaStats, q: seq<JavaStats>)
    ensures MergeAll(global, p + [a, b] + q) == MergeAll(global, p + [b, a] + q)
  {
    assert p + [a, b] + q == p + ([a, b] + q);
    assert p + [b, a] + q == p + ([b, a] + q);
    MergeAllAppend(global, p, [a, b] + q);
    MergeAllAppend(global, p, [b, a] + q);
    MergeOrderIrrelevant(MergeAll(global, p), a, b, q);
  }

  /** Per-thread Java scavenger statistics, updated in place. */
  class ScavengerJavaStats {
    var unfinalizedCandidates: nat
    var unfinalizedEnqueued: nat
    var ownableSynchronizerCandidates: nat
    var ownableSynchronizerTotalSurvived: nat
    var ownableSynchronizerNurserySurvived: nat
    var weakReferenceStats: ReferenceStats
    var softReferenceStats: ReferenceStats
    var phantomReferenceStats: ReferenceStats

    function Value(): JavaStats
      reads this
    {
      JavaStats(unfinalizedCandidates, unfinalizedEnqueued, ownableSynchronizerCandidates,
        ownableSynchronizerTotalSurvived, ownableSynchronizerNurserySurvived,
        weakReferenceStats, softReferenceStats, phantomReferenceStats)
    }

    constructor ()
      ensures Value() == NoJavaStats
    {
      unfinalizedCandidates, unfinalizedEnqueued := 0, 0;
      ownableSynchronizerCandidates, ownableSynchronizerTotalSurvived := 0, 0;
      ownableSynchronizerNurserySurvived := 0;
      weakReferenceStats, softReferenceStats, phantomReferenceStats :=
        NoReferenceStats, NoReferenceStats, NoReferenceStats;
    }

    method Clear()
      modifies this
      ensures Value() == NoJavaStats
    {
      unfinalizedCandidates, unfinalizedEnqueued := 0, 0;
      ownableSynchronizerCandidates, ownableSynchronizerTotalSurvived := 0, 0;
      ownableSynchronizerNurserySurvived := 0;
      weakReferenceStats, softReferenceStats, phantomReferenceStats :=
        NoReferenceStats, NoReferenceStats, NoReferenceStats;
    }
  }

  /** A worker thread's GC environment: its statistics and staging buffers. */
  class GCEnvironment {
    const scavengerJavaStats: ScavengerJavaStats
    /** Reference objects staged for the clearing phase. */
    var referenceObjectBuffer: seq<ReferenceObject>
    /** Ownable synchronizer objects staged for their lists. */
    var ownableSynchronizerObjectBuffer: seq<nat>

    constructor ()
      ensures fresh(scavengerJavaStats) && scavengerJavaStats.Value() == NoJavaStats
      ensures referenceObjectBuffer == [] && ownableSynchronizerObjectBuffer == []
    {
      scavengerJavaStats := new ScavengerJavaStats();
      referenceObjectBuffer := [];
      ownableSynchronizerObjectBuffer := [];
    }
  }

  /** A java.lang.ref.Reference instance: its kind, state, referent and (soft) age. */
  class ReferenceObject {
    const kind: ReferenceKind
    /** Address of the referent field. */
    const referentSlot: nat
    var state: ReferenceState
    /** The referent; None is NULL. */
    var referent: Option<nat>
    var age: nat

    constructor (kind: ReferenceKind, referentSlot: nat, state: ReferenceState, referent: Option<nat>, age: nat)
      ensures this.kind == kind && this.referentSlot == referentSlot
      ensures this.state == state && this.referent == referent && this.age == age
    {
      this.kind := kind;
      this.referentSlot := referentSlot;
      this.state := state;
      this.referent := referent;
      this.age := age;
    }
  }

  /** The evacuator controller's flag word. */
  class Controller {
    var evacuatorFlags: set<EvacuatorFlag>

    constructor ()
      ensures evacuatorFlags == {}
    {
      evacuatorFlags := {};
    }
  }

  class EvacuatorDelegate {
    const controller: Controller
    /** The environment of the evacuator this delegate serves. */
    const evacuatorEnv: GCEnvironment
    /** The environment bound for the current cycle; null between cycles. */
    var env: GCEnvironment?
    /** Set once the clearing phase has run in this cycle. */
    var cycleCleared: bool

    constructor (controller: Controller, evacuatorEnv: GCEnvironment)
      ensures this.controller == controller && this.evacuatorEnv == evacuatorEnv
      ensures env == null
    {
      this.controller := controller;
      this.evacuatorEnv := evacuatorEnv;
      env := null;
      cycleCleared := false;
    }

    /** Start a cycle: not yet cleared, bind the evacuator's environment, zero its statistics. */
    method CycleStart()
      modifies this, evacuatorEnv.scavengerJavaStats
      ensures !cycleCleared
      ensures env == evacuatorEnv
      ensures env.scavengerJavaStats.Value() == NoJavaStats
    {
      cycleCleared := false;
      env := evacuatorEnv;
      env.scavengerJavaStats.Clear();
    }

    /** End a cycle: unbind the environment. */
    method CycleEnd()
      modifies this`env
      ensures env == null
    {
      env := null;
    }

    /**
     * Complete the clearing stage and record that it ran; there is no guard
     * against a second call. The environment's buffers may be flushed, so
     * they are left unconstrained.
     */
    method ScanClearable()
      requires env != null
      modifies this`cycleCleared, env
      ensures cycleCleared
    {
      cycleCleared := true;
    }

    /**
     * Add every worker counter into the global statistics, then zero the
     * worker's counters.
     */
    method MergeGCStats(finalGCJavaStats: ScavengerJavaStats, workerEnv: GCEnvironment)
      requires finalGCJavaStats != workerEnv.scavengerJavaStats
      modifies finalGCJavaStats, workerEnv.scavengerJavaStats
      ensures finalGCJavaStats.Value()
        == MergeJavaStats(old(finalGCJavaStats.Value()), old(workerEnv.scavengerJavaStats.Value()))
      ensures workerEnv.scavengerJavaStats.Value() == NoJavaStats
    {
      var scavJavaStats := workerEnv.scavengerJavaStats;
      finalGCJavaStats.unfinalizedCandidates :=
        finalGCJavaStats.unfinalizedCandidates + scavJavaStats.unfinalizedCandidates;
      finalGCJavaStats.unfinalizedEnqueued :=
        finalGCJavaStats.unfinalizedEnqueued + scavJavaStats.unfinalizedEnqueued;
      finalGCJavaStats.ownableSynchronizerCandidates :=
        finalGCJavaStats.ownableSynchronizerCandidates + scavJavaStats.ownableSynchronizerCandidates;
      finalGCJavaStats.ownableSynchronizerTotalSurvived :=
        finalGCJavaStats.ownableSynchronizerTotalSurvived + scavJavaStats.ownableSynchronizerTotalSurvived;
      finalGCJavaStats.ownableSynchronizerNurserySurvived :=
        finalGCJavaStats.ownableSynchronizerNurserySurvived + scavJavaStats.ownableSynchronizerNurserySurvived;
      finalGCJavaStats.weakReferenceStats :=
        MergeReferenceStats(finalGCJavaStats.weakReferenceStats, scavJavaStats.weakReferenceStats);
      finalGCJavaStats.softReferenceStats :=
        MergeReferenceStats(finalGCJavaStats.softReferenceStats, scavJavaStats.softReferenceStats);
      finalGCJavaStats.phantomReferenceStats :=
        MergeReferenceStats(finalGCJavaStats.phantomReferenceStats, scavJavaStats.phantomReferenceStats);
      scavJavaStats.Clear();
    }

    /**
     * Scanner for an ownable synchronizer object: in a heap scan without the
     * concurrent scavenger, stage it for its list and count it when it is on
     * a list; always scan it as a plain mixed object.
     */
    method GetOwnableSynchronizerObjectScanner(objectPtr: nat, flags: set<ScanFlag>,
                                               concurrentScavenger: bool, link: Option<nat>,
                                               inSurvivor: bool)
      returns (k: ScannerKind)
      requires env != null
      modifies env, env.scavengerJavaStats
      ensures k == MixedScanner
      ensures var o := OwnableSynchronizerOutcome(concurrentScavenger, HeapScan in flags, link, inSurvivor);
        && env.ownableSynchronizerObjectBuffer
          == old(env.ownableSynchronizerObjectBuffer) + (if o.buffered then [objectPtr] else [])
        && env.scavengerJavaStats.Value() == old(env.scavengerJavaStats.Value()).(
          ownableSynchronizerTotalSurvived :=
            old(env.scavengerJavaStats.ownableSynchronizerTotalSurvived) + o.totalSurvived,
          ownableSynchronizerNurserySurvived :=
            old(env.scavengerJavaStats.ownableSynchronizerNurserySurvived) + o.nurserySurvived)
      ensures env.referenceObjectBuffer == old(env.referenceObjectBuffer)
    {
      var e := env;
      if !concurrentScavenger {
        if HeapScan in flags {
          if link.Some? {
            e.ownableSynchronizerObjectBuffer := e.ownableSynchronizerObjectBuffer + [objectPtr];
            e.scavengerJavaStats.ownableSynchronizerTotalSurvived :=
              e.scavengerJavaStats.ownableSynchronizerTotalSurvived + 1;
            if inSurvivor {
              e.scavengerJavaStats.ownableSynchronizerNurserySurvived :=
                e.scavengerJavaStats.ownableSynchronizerNurserySurvived + 1;
            }
          }
        }
      }
      k := MixedScanner;
    }

    /**
     * Scanner for a reference object. In a heap scan, apply the clearing
     * policy: write NULL to the referent and record Cleared, or stage the
     * object and raise its kind's scavenge flag; then build a reference
     * scanner that sees the referent slot only if the referent need not be
     * marked. Outside a heap scan, change nothing and scan it as a plain
     * mixed object.
     */
    method GetReferenceObjectScanner(ref: ReferenceObject, flags: set<ScanFlag>, inSurvivor: bool,
                                     options: ReferenceOptions, maxSoftAge: nat)
      returns (k: ScannerKind)
      requires env != null
      modifies ref, env, controller
      ensures HeapScan in flags ==>
        var o := HeapScanOutcome(old(ref.state), ref.kind, old(ref.age), ref.referentSlot,
                                 inSurvivor, options, maxSoftAge);
        && ref.state == o.state
        && ref.referent == (if o.referentCleared then None else old(ref.referent))
        && env.referenceObjectBuffer == old(env.referenceObjectBuffer) + (if o.buffered then [ref] else [])
        && controller.evacuatorFlags
          == old(controller.evacuatorFlags) + (if o.buffered then {ScavengeFlag(ref.kind)} else {})
        && k == ReferenceScanner(o.referentSlot)
      ensures HeapScan !in flags ==>
        && ref.state == old(ref.state) && ref.referent == old(ref.referent)
        && env.referenceObjectBuffer == old(env.referenceObjectBuffer)
        && controller.evacuatorFlags == old(controller.evacuatorFlags)
        && k == MixedScanner
      ensures ref.age == old(ref.age)
      ensures env.ownableSynchronizerObjectBuffer == old(env.ownableSynchronizerObjectBuffer)
    {
      var e := env;
      if HeapScan in flags {
        var referenceState := ref.state;
        var isReferenceCleared := referenceState == Cleared || referenceState == Enqueued;
        var isObjectInNewSpace := inSurvivor;
        var shouldScavengeReferenceObject := isObjectInNewSpace && !isReferenceCleared;
        var referentMustBeMarked := isReferenceCleared || !isObjectInNewSpace;
        var referentMustBeCleared := false;
        match ref.kind {
          case Weak =>
            referentMustBeCleared := options.clearWeak;
            if !referentMustBeCleared && shouldScavengeReferenceObject {
              controller.evacuatorFlags := controller.evacuatorFlags + {ShouldScavengeWeakReferenceObjects};
            }
          case Soft =>
            referentMustBeCleared := options.clearSoft;
            referentMustBeMarked := referentMustBeMarked || (!options.softAsWeak && ref.age < maxSoftAge);
            if !referentMustBeCleared && shouldScavengeReferenceObject {
              controller.evacuatorFlags := controller.evacuatorFlags + {ShouldScavengeSoftReferenceObjects};
            }
          case Phantom =>
            referentMustBeCleared := options.clearPhantom;
            if !referentMustBeCleared && shouldScavengeReferenceObject {
              controller.evacuatorFlags := controller.evacuatorFlags + {ShouldScavengePhantomReferenceObjects};
            }
        }
        if referentMustBeCleared {
          ref.referent := None;
          if !isReferenceCleared {
            ref.state := Cleared;
          }
        } else if shouldScavengeReferenceObject {
          e.referenceObjectBuffer := e.referenceObjectBuffer + [ref];
        }
        var referentSlotAddress := if referentMustBeMarked then None else Some(ref.referentSlot);
        k := ReferenceScanner(referentSlotAddress);
      } else {
        k := MixedScanner;
      }
    }

    /** Scanner for a whole reference array, never split. */
    method GetPointerArrayObjectScanner(layout: PointerArrayScanning.ArrayLayout, slotBytes: SlotWidth,
                                        flags: set<ScanFlag>)
      returns (s: PointerArrayScanning.PointerArrayObjectScanner)
      ensures fresh(s)
      ensures s.Range() == PointerArrayScanning.SlotRange(layout.dataPtr, layout.dataPtr + layout.sizeInElements)
      ensures HeadObjectScanner in s.flags
      ensures IndexableObjectNoSplit in s.flags
      ensures s.arrayObject == layout.address && s.slotBytes == slotBytes
      ensures s.basePtr == layout.dataPtr
      ensures s.limitPtr == layout.dataPtr + layout.sizeInElements
      ensures s.endPtr <= s.limitPtr
      ensures s.scanMap == PointerArrayScanning.InitialScanMap(s.endPtr - s.mapPtr)
      ensures s.HasMoreSlots() <==> s.endPtr - s.mapPtr > BitsPerScanMap
      ensures forall f :: f != NoMoreSlots && f != HeadObjectScanner ==>
        (f in s.flags <==> f in flags || f == IndexableObjectNoSplit)
    {
      var splitAmount := 0;
      var noSplitFlags := flags + {IndexableObjectNoSplit};
      s := PointerArrayScanning.PointerArrayObjectScanner.NewInstance(layout, slotBytes, noSplitFlags, splitAmount, 0);
      assert IndexableObjectNoSplit in noSplitFlags - {NoMoreSlots, HeadObjectScanner};
      forall f | f != NoMoreSlots && f != HeadObjectScanner
        ensures f in s.flags <==> f in flags || f == IndexableObjectNoSplit
      {
        assert f in s.flags <==> f in s.flags - {NoMoreSlots, HeadObjectScanner};
      }
    }

    /** Scanner for the chunk of a reference array starting at splitIndex, at most splitAmount elements. */
    method GetSplitPointerArrayObjectScanner(layout: PointerArrayScanning.ArrayLayout, slotBytes: SlotWidth,
                                             splitIndex: nat, splitAmount: nat, flags: set<ScanFlag>)
      returns (s: PointerArrayScanning.PointerArrayObjectScanner)
      requires 0 < splitAmount
      requires IndexableObjectNoSplit !in flags
      requires splitIndex <= layout.sizeInElements
      ensures fresh(s)
      ensures s.Range() == PointerArrayScanning.NewInstanceRange(layout, splitIndex, splitAmount, false)
      ensures HeadObjectScanner in s.flags <==> splitIndex == 0
      ensures IndexableObjectNoSplit !in s.flags
      ensures s.arrayObject == layout.address && s.slotBytes == slotBytes
      ensures s.basePtr == layout.dataPtr
      ensures s.limitPtr == layout.dataPtr + layout.sizeInElements
      ensures s.endPtr <= s.limitPtr
      ensures s.scanMap == PointerArrayScanning.InitialScanMap(s.endPtr - s.mapPtr)
      ensures s.HasMoreSlots() <==> s.endPtr - s.mapPtr > BitsPerScanMap
      ensures forall f :: f != NoMoreSlots && f != HeadObjectScanner ==> (f in s.flags <==> f in flags)
    {
      s := PointerArrayScanning.PointerArrayObjectScanner.NewInstance(layout, slotBytes, flags, splitAmount, splitIndex);
      assert IndexableObjectNoSplit !in flags - {NoMoreSlots, HeadObjectScanner};
      forall f | f != NoMoreSlots && f != HeadObjectScanner
        ensures f in s.flags <==> f in flags
      {
        assert f in s.flags <==> f in s.flags - {NoMoreSlots, HeadObjectScanner};
      }
    }
  }
}
