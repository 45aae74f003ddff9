/**
 * The save-slot comparison engine of the Secret of Evermore S-RAM comparer:
 * `OnCompareSram` (slot selection, the slot loop, the region outside the
 * slots), its local function `CompareSaveSlots` and `OnCompareSaveSlot` (the
 * ordered, flag-gated field walk).
 *
 * Each method is proved against a specification function (`CompareSram`,
 * `SlotStep`, `StructuredCount`); the lemmas at the end state what those
 * functions promise. Console output is not modelled; the two text builders the
 * comparer fills for the closing summary become sequences of `ValueEntry`.
 */
module SramComparerSoE {
  import opened FieldComparer
  import opened ComparisonFlagsSoE
  import opened SaveSlotLayout

  /** The options the comparer reads: two 1-based slot selectors (0 = unset) and the flags. */
  datatype Options = Options(currentFileSaveSlot: int, comparisonFileSaveSlot: int, comparisonFlags: Flags)

  datatype FileRole = CurrentFile | ComparisonFile

  /** One line of the checksum or timer summary: which file, which 1-based slot, which value. */
  datatype ValueEntry = ValueEntry(file: FileRole, slotId: int, value: seq<Byte>)

  /** What the comparison accumulates: the running byte total and the two summaries. */
  datatype Tally = Tally(allDiffBytes: nat, checksums: seq<ValueEntry>, timestamps: seq<ValueEntry>)

  datatype CompareError = SlotIndexOutOfRange(index: int)

  datatype Result<T> = Ok(value: T) | Err(error: CompareError)

  /** 0-based slot indices; -1 (or any value below 0) means "not selected". */
  datatype SlotPair = SlotPair(currSlotIndex: int, compSlotIndex: int)

  datatype SlotMode = CrossSlot | SingleSlot | AllSlots

  // ---------------------------------------------------------------------------
  // Specification: slot selection

  /** The selector normalisation at the top of `OnCompareSram`. */
  function NormalizedIndices(currentFileSaveSlot: int, comparisonFileSaveSlot: int): (r: SlotPair)
    ensures r.currSlotIndex == currentFileSaveSlot - 1
    // a set comparison index is dropped only to avoid a self-pairing or a pairing without a current slot
    ensures r.compSlotIndex > -1 ==> r.currSlotIndex != -1 && r.currSlotIndex != r.compSlotIndex
    ensures (comparisonFileSaveSlot - 1 > -1 && currentFileSaveSlot - 1 != -1
             && currentFileSaveSlot != comparisonFileSaveSlot) ==> r.compSlotIndex == comparisonFileSaveSlot - 1
    ensures comparisonFileSaveSlot - 1 <= -1 ==> r.compSlotIndex == comparisonFileSaveSlot - 1
    ensures r.compSlotIndex == comparisonFileSaveSlot - 1 || r.compSlotIndex == -1
  {
    var curr := currentFileSaveSlot - 1;
    var comp := comparisonFileSaveSlot - 1;
    if comp > -1 && (curr == -1 || curr == comp) then SlotPair(curr, -1) else SlotPair(curr, comp)
  }

  function ModeOf(p: SlotPair): (m: SlotMode)
    ensures m == CrossSlot <==> p.currSlotIndex > -1 && p.compSlotIndex > -1
    ensures m == SingleSlot <==> p.currSlotIndex > -1 && p.compSlotIndex <= -1
    ensures m == AllSlots <==> p.currSlotIndex <= -1
  {
    if p.currSlotIndex > -1 && p.compSlotIndex > -1 then CrossSlot
    else if p.currSlotIndex > -1 then SingleSlot
    else AllSlots
  }

  /** The calls of `CompareSaveSlots` made by the slot loop over indices 0 .. count-1. */
  function LoopPairs(currSlotIndex: int, count: nat): (ps: seq<SlotPair>)
    requires count <= SlotCount
    ensures forall k :: 0 <= k < |ps| ==>
              && 0 <= ps[k].currSlotIndex < count && ps[k].compSlotIndex == -1
              && (currSlotIndex > -1 ==> ps[k].currSlotIndex == currSlotIndex)
    ensures AllInRange(ps)
  {
    if count == 0 then []
    else
      LoopPairs(currSlotIndex, count - 1)
      + (if currSlotIndex > -1 && currSlotIndex != count - 1 then [] else [SlotPair(count - 1, -1)])
  }

  /** A selection `OnCompareSram` accepts: anything but a cross-slot pair naming a missing slot. */
  predicate Accepted(p: SlotPair) {
    !(ModeOf(p) == CrossSlot && !PairInRange(p))
  }

  /** The slot pairs one comparison visits, in order. */
  function ComparedPairs(p: SlotPair): (ps: seq<SlotPair>)
    ensures Accepted(p) ==> AllInRange(ps)
  {
    if ModeOf(p) == CrossSlot then [p] else LoopPairs(p.currSlotIndex, SlotCount)
  }

  predicate PairInRange(p: SlotPair) {
    0 <= p.currSlotIndex < SlotCount && (p.compSlotIndex == -1 || 0 <= p.compSlotIndex < SlotCount)
  }

  predicate AllInRange(ps: seq<SlotPair>) {
    forall k :: 0 <= k < |ps| ==> PairInRange(ps[k])
  }

  // ---------------------------------------------------------------------------
  // Specification: counting

  /** `CompareValue` on one slot field (see `FieldComparer`). */
  function FieldDiffBytes(l: Layout, f: Field, currSlot: seq<Byte>, compSlot: seq<Byte>): (n: nat)
    requires ValidLayout(l)
    requires |currSlot| == l.saveSlotSize && |compSlot| == l.saveSlotSize
    ensures n <= l.fieldExtent[f].length
  {
    DiffCount(Slice(currSlot, l.fieldExtent[f]), Slice(compSlot, l.fieldExtent[f]))
  }

  /** The sum of the field counts over `fs`. */
  function SumDiff(l: Layout, fs: seq<Field>, currSlot: seq<Byte>, compSlot: seq<Byte>): nat
    requires ValidLayout(l)
    requires |currSlot| == l.saveSlotSize && |compSlot| == l.saveSlotSize
  {
    if fs == [] then 0
    else
      var k := |fs| - 1;
      SumDiff(l, fs[..k], currSlot, compSlot) + FieldDiffBytes(l, fs[k], currSlot, compSlot)
  }

  /** The structured slot count: the field counts summed over the walk that `flags` selects. */
  function StructuredCount(l: Layout, flags: Flags, currSlot: seq<Byte>, compSlot: seq<Byte>): nat
    requires ValidLayout(l) && |currSlot| == l.saveSlotSize && |compSlot| == l.saveSlotSize
  {
    SumDiff(l, SlotWalk(flags), currSlot, compSlot)
  }

  /** What one compared slot adds to the running total. */
  function SlotDiffBytes(l: Layout, flags: Flags, currSlot: seq<Byte>, compSlot: seq<Byte>): nat
    requires ValidLayout(l) && |currSlot| == l.saveSlotSize && |compSlot| == l.saveSlotSize
  {
    if compSlot == currSlot then 0
    else if HasFlag(flags, SlotByteComparison) then DiffCount(currSlot, compSlot)
    else StructuredCount(l, flags, currSlot, compSlot)
  }

  /** The current file's summary line: written when `always` is set or the two values differ. */
  function CurrentEntry(always: bool, currSlotId: int, currValue: seq<Byte>, compValue: seq<Byte>): seq<ValueEntry> {
    if always || compValue != currValue then [ValueEntry(CurrentFile, currSlotId, currValue)] else []
  }

  /** The comparison file's summary line: written whenever the two slots differ at all. */
  function ComparisonEntry(compSlotId: int, compValue: seq<Byte>, slotsEqual: bool): seq<ValueEntry> {
    if slotsEqual then [] else [ValueEntry(ComparisonFile, compSlotId, compValue)]
  }

  /** The comparison file's slot index of a pair: the current one when none is selected. */
  function CompIndex(p: SlotPair): (i: int)
    ensures PairInRange(p) ==> 0 <= i < SlotCount
    ensures p.compSlotIndex == -1 ==> i == p.currSlotIndex
    ensures p.compSlotIndex != -1 ==> i == p.compSlotIndex
  {
    if p.compSlotIndex == -1 then p.currSlotIndex else p.compSlotIndex
  }

  /** The byte count one pair of slots adds. */
  function PairDiffBytes(l: Layout, currFile: SramFile, compFile: SramFile, flags: Flags, p: SlotPair): nat
    requires ValidLayout(l) && FileFits(l, currFile) && FileFits(l, compFile)
    requires PairInRange(p)
  {
    SlotDiffBytes(l, flags, SlotBytes(l, currFile, p.currSlotIndex), SlotBytes(l, compFile, CompIndex(p)))
  }

  /** The checksum summary `lines` with one pair of slots' lines appended. */
  function ChecksumLines(l: Layout, currFile: SramFile, compFile: SramFile, flags: Flags,
                         lines: seq<ValueEntry>, p: SlotPair): seq<ValueEntry>
    requires ValidLayout(l) && FileFits(l, currFile) && FileFits(l, compFile)
    requires PairInRange(p)
  {
    var currSlot := SlotBytes(l, currFile, p.currSlotIndex);
    var compSlot := SlotBytes(l, compFile, CompIndex(p));
    lines
    + CurrentEntry(HasFlag(flags, Checksum), p.currSlotIndex + 1, ChecksumOf(l, currSlot), ChecksumOf(l, compSlot))
    + ComparisonEntry(CompIndex(p) + 1, ChecksumOf(l, compSlot), compSlot == currSlot)
  }

  /** The timer summary `lines` with one pair of slots' lines appended. */
  function TimerLines(l: Layout, currFile: SramFile, compFile: SramFile, flags: Flags,
                      lines: seq<ValueEntry>, p: SlotPair): seq<ValueEntry>
    requires ValidLayout(l) && FileFits(l, currFile) && FileFits(l, compFile)
    requires PairInRange(p)
  {
    var currSlot := SlotBytes(l, currFile, p.currSlotIndex);
    var compSlot := SlotBytes(l, compFile, CompIndex(p));
    lines
    + CurrentEntry(HasFlag(flags, ComparisonFlagsSoE.ScriptedEventTimer), p.currSlotIndex + 1, TimerOf(l, currSlot), TimerOf(l, compSlot))
    + ComparisonEntry(CompIndex(p) + 1, TimerOf(l, compSlot), compSlot == currSlot)
  }

  /** The effect of one call of `CompareSaveSlots` on the tally. */
  function SlotStep(l: Layout, currFile: SramFile, compFile: SramFile, flags: Flags, t: Tally, p: SlotPair): Tally
    requires ValidLayout(l) && FileFits(l, currFile) && FileFits(l, compFile)
    requires PairInRange(p)
  {
    Tally(t.allDiffBytes + PairDiffBytes(l, currFile, compFile, flags, p),
          ChecksumLines(l, currFile, compFile, flags, t.checksums, p),
          TimerLines(l, currFile, compFile, flags, t.timestamps, p))
  }

  /** The tally after the slot loop has visited indices 0 .. count-1, starting from nothing. */
  function SlotLoop(l: Layout, currFile: SramFile, compFile: SramFile, flags: Flags,
                    currSlotIndex: int, count: nat): Tally
    requires ValidLayout(l) && FileFits(l, currFile) && FileFits(l, compFile)
    requires count <= SlotCount
  {
    if count == 0 then Tally(0, [], [])
    else
      var t := SlotLoop(l, currFile, compFile, flags, currSlotIndex, count - 1);
      if currSlotIndex > -1 && currSlotIndex != count - 1 then t
      else SlotStep(l, currFile, compFile, flags, t, SlotPair(count - 1, -1))
  }

  /** The tally of the save slots alone, for an accepted selection. */
  function SlotsTally(l: Layout, currFile: SramFile, compFile: SramFile, flags: Flags, p: SlotPair): Tally
    requires ValidLayout(l) && FileFits(l, currFile) && FileFits(l, compFile)
    requires Accepted(p)
  {
    if ModeOf(p) == CrossSlot then SlotStep(l, currFile, compFile, flags, Tally(0, [], []), p)
    else SlotLoop(l, currFile, compFile, flags, p.currSlotIndex, SlotCount)
  }

  /** The count of the `Unknown19` region, taken only under the non-slot flag. */
  function NonSlotDiffBytes(l: Layout, flags: Flags, currFile: SramFile, compFile: SramFile): (n: nat)
    requires FileFits(l, currFile) && FileFits(l, compFile)
    ensures n <= l.unknown19Size
    ensures n > 0 <==> HasFlag(flags, NonSlotComparison) && currFile.unknown19 != compFile.unknown19
  {
    if HasFlag(flags, NonSlotComparison) then DiffCount(currFile.unknown19, compFile.unknown19)
    else 0
  }

  /** The whole comparison of two S-RAM files. */
  function CompareSram(l: Layout, currFile: SramFile, compFile: SramFile, options: Options): Result<Tally>
    requires ValidLayout(l) && FileFits(l, currFile) && FileFits(l, compFile)
  {
    var p := NormalizedIndices(options.currentFileSaveSlot, options.comparisonFileSaveSlot);
    var flags := options.comparisonFlags;
    if !Accepted(p) then
      Err(SlotIndexOutOfRange(if p.currSlotIndex >= SlotCount then p.currSlotIndex else p.compSlotIndex))
    else
      var t := SlotsTally(l, currFile, compFile, flags, p);
      Ok(Tally(t.allDiffBytes + NonSlotDiffBytes(l, flags, currFile, compFile), t.checksums, t.timestamps))
  }

  /** The reference reading of a comparison: the slot pairs it visits, folded left to right. */
  function FoldSlots(l: Layout, currFile: SramFile, compFile: SramFile, flags: Flags,
                     ps: seq<SlotPair>, t: Tally): Tally
    requires ValidLayout(l) && FileFits(l, currFile) && FileFits(l, compFile)
    requires AllInRange(ps)
  {
    if ps == [] then t
    else
      var k := |ps| - 1;
      SlotStep(l, currFile, compFile, flags, FoldSlots(l, currFile, compFile, flags, ps[..k], t), ps[k])
  }

  // ---------------------------------------------------------------------------
  // The comparer

  /** `OnCompareSaveSlot`: the structured count of one pair of slots. */
  method OnCompareSaveSlot(l: Layout, currSlot: seq<Byte>, compSlot: seq<Byte>, flags: Flags)
    returns (diffBytes: nat)
    requires ValidLayout(l) && |currSlot| == l.saveSlotSize && |compSlot| == l.saveSlotSize
    ensures diffBytes == StructuredCount(l, flags, currSlot, compSlot)
  {
    diffBytes := 0;

    // Chunk 3: the boy's buff status entries
    for i := 0 to BuffEntryCount
      invariant diffBytes == SumDiff(l, BuffFields(BoyStatusBuffs, i), currSlot, compSlot)
    {
      diffBytes := diffBytes + FieldDiffBytes(l, BuffMember(BoyStatusBuffs, i, Id), currSlot, compSlot);
      diffBytes := diffBytes + FieldDiffBytes(l, BuffMember(BoyStatusBuffs, i, Timer), currSlot, compSlot);
      diffBytes := diffBytes + FieldDiffBytes(l, BuffMember(BoyStatusBuffs, i, Boost), currSlot, compSlot);
      BuffEntryStep(l, BoyStatusBuffs, i, currSlot, compSlot);
    }
    var boyBytes := diffBytes;

    // Chunk 10: the dog's buff status entries
    for i := 0 to BuffEntryCount
      invariant diffBytes == boyBytes + SumDiff(l, BuffFields(DogStatusBuffs, i), currSlot, compSlot)
    {
      diffBytes := diffBytes + FieldDiffBytes(l, BuffMember(DogStatusBuffs, i, Id), currSlot, compSlot);
      diffBytes := diffBytes + FieldDiffBytes(l, BuffMember(DogStatusBuffs, i, Timer), currSlot, compSlot);
      diffBytes := diffBytes + FieldDiffBytes(l, BuffMember(DogStatusBuffs, i, Boost), currSlot, compSlot);
      BuffEntryStep(l, DogStatusBuffs, i, currSlot, compSlot);
    }
    var buffBytes := diffBytes;

    // Chunks 16 to 21, in declaration order; only the event timer is gated
    var chunk := ChunkTable();
    for j := 0 to |chunk|
      invariant diffBytes == buffBytes + SumDiff(l, Included(chunk[..j], flags), currSlot, compSlot)
    {
      var f := chunk[j];
      ChunkStep(l, chunk, j, flags, currSlot, compSlot);
      if f != TimerField || HasFlag(flags, ScriptedEventTimerIfDifferent) {
        diffBytes := diffBytes + FieldDiffBytes(l, f, currSlot, compSlot);
      }
    }
    assert chunk[..|chunk|] == chunk;
    StructuredCountSplit(l, flags, currSlot, compSlot);
  }

  /**
   * `CompareSaveSlots`, the local function of `OnCompareSram`. The variables it
   * captures (the running total and the two summaries) are passed in and the
   * updated values returned; like the source, it returns the running total.
   */
  method CompareSaveSlots(l: Layout, currFile: SramFile, compFile: SramFile, optionFlags: Flags,
                          allDiffBytes: nat, checksums: seq<ValueEntry>, timestamps: seq<ValueEntry>,
                          currSlotIndex: int, compSlotIndex: int)
    returns (total: nat, checksums': seq<ValueEntry>, timestamps': seq<ValueEntry>)
    requires ValidLayout(l) && FileFits(l, currFile) && FileFits(l, compFile)
    requires PairInRange(SlotPair(currSlotIndex, compSlotIndex))
    ensures total == allDiffBytes + PairDiffBytes(l, currFile, compFile, optionFlags, SlotPair(currSlotIndex, compSlotIndex))
    ensures checksums' == ChecksumLines(l, currFile, compFile, optionFlags, checksums, SlotPair(currSlotIndex, compSlotIndex))
    ensures timestamps' == TimerLines(l, currFile, compFile, optionFlags, timestamps, SlotPair(currSlotIndex, compSlotIndex))
  {
    var compIndex := compSlotIndex;
    if compIndex == -1 {
      compIndex := currSlotIndex;
    }

    ghost var p := SlotPair(currSlotIndex, compSlotIndex);
    assert compIndex == CompIndex(p);
    var currSlot := SlotBytes(l, currFile, currSlotIndex);
    var compSlot := SlotBytes(l, compFile, compIndex);
    var currSlotId := currSlotIndex + 1;
    var compSlotId := compIndex + 1;

    checksums', timestamps' := checksums, timestamps;
    var currChecksum, compChecksum := ChecksumOf(l, currSlot), ChecksumOf(l, compSlot);
    var currTimer, compTimer := TimerOf(l, currSlot), TimerOf(l, compSlot);

    if HasFlag(optionFlags, Checksum) || compChecksum != currChecksum {
      checksums' := checksums' + [ValueEntry(CurrentFile, currSlotId, currChecksum)];
    }
    if HasFlag(optionFlags, ComparisonFlagsSoE.ScriptedEventTimer) || compTimer != currTimer {
      timestamps' := timestamps' + [ValueEntry(CurrentFile, currSlotId, currTimer)];
    }
    assert PairDiffBytes(l, currFile, compFile, optionFlags, p) == SlotDiffBytes(l, optionFlags, currSlot, compSlot);

    if compSlot == currSlot {
      return allDiffBytes, checksums', timestamps';
    }

    checksums' := checksums' + [ValueEntry(ComparisonFile, compSlotId, compChecksum)];
    timestamps' := timestamps' + [ValueEntry(ComparisonFile, compSlotId, compTimer)];
    assert checksums' == ChecksumLines(l, currFile, compFile, optionFlags, checksums, p);
    assert timestamps' == TimerLines(l, currFile, compFile, optionFlags, timestamps, p);

    var slotDiffBytes := OnCompareSaveSlot(l, currSlot, compSlot, optionFlags);

    total := allDiffBytes;
    if HasFlag(optionFlags, SlotByteComparison) {
      var slotBufferDiffBytes := DiffCount(currSlot, compSlot);
      total := total + slotBufferDiffBytes;
    } else {
      total := total + slotDiffBytes;
    }
  }

  /**
   * The slot comparison of `OnCompareSram`: the one cross-slot pair, or the
   * slot loop over every slot (or only the selected one), each compared with
   * the same slot of the other file. A cross-slot pair naming a missing slot
   * fails, as `GetSegment` does.
   */
  method CompareSlots(l: Layout, currFile: SramFile, compFile: SramFile, optionFlags: Flags,
                      optionCurrSlotIndex: int, optionCompSlotIndex: int)
    returns (r: Result<Tally>)
    requires ValidLayout(l) && FileFits(l, currFile) && FileFits(l, compFile)
    ensures var p := SlotPair(optionCurrSlotIndex, optionCompSlotIndex);
            r == if Accepted(p) then Ok(SlotsTally(l, currFile, compFile, optionFlags, p))
                 else Err(SlotIndexOutOfRange(if optionCurrSlotIndex >= SlotCount then optionCurrSlotIndex else optionCompSlotIndex))
  {
    var allDiffBytes: nat := 0;
    var checksums: seq<ValueEntry> := [];
    var timestamps: seq<ValueEntry> := [];
    ghost var p := SlotPair(optionCurrSlotIndex, optionCompSlotIndex);

    if optionCurrSlotIndex > -1 && optionCompSlotIndex > -1 {
      if optionCurrSlotIndex >= SlotCount {
        return Err(SlotIndexOutOfRange(optionCurrSlotIndex));
      }
      if optionCompSlotIndex >= SlotCount {
        return Err(SlotIndexOutOfRange(optionCompSlotIndex));
      }
      allDiffBytes, checksums, timestamps :=
        CompareSaveSlots(l, currFile, compFile, optionFlags, allDiffBytes, checksums, timestamps,
                         optionCurrSlotIndex, optionCompSlotIndex);
      SlotStepIs(l, currFile, compFile, optionFlags, Tally(0, [], []), p);
      return Ok(Tally(allDiffBytes, checksums, timestamps));
    }

    for slotIndex := 0 to SlotCount
      invariant Tally(allDiffBytes, checksums, timestamps)
                == SlotLoop(l, currFile, compFile, optionFlags, optionCurrSlotIndex, slotIndex)
    {
      if optionCurrSlotIndex > -1 && optionCurrSlotIndex != slotIndex {
        continue;
      }
      ghost var before := Tally(allDiffBytes, checksums, timestamps);
      allDiffBytes, checksums, timestamps :=
        CompareSaveSlots(l, currFile, compFile, optionFlags, allDiffBytes, checksums, timestamps, slotIndex, -1);
      SlotStepIs(l, currFile, compFile, optionFlags, before, SlotPair(slotIndex, -1));
    }
    return Ok(Tally(allDiffBytes, checksums, timestamps));
  }

  /** `OnCompareSram`: the total number of differing bytes, with the two summaries. */
  method OnCompareSram(l: Layout, currFile: SramFile, compFile: SramFile, options: Options)
    returns (r: Result<Tally>)
    requires ValidLayout(l) && FileFits(l, currFile) && FileFits(l, compFile)
    ensures r == CompareSram(l, currFile, compFile, options)
  {
    var optionCurrSlotIndex := options.currentFileSaveSlot - 1;
    var optionCompSlotIndex := options.comparisonFileSaveSlot - 1;

    if optionCompSlotIndex > -1 {
      if optionCurrSlotIndex == -1 || optionCurrSlotIndex == optionCompSlotIndex {
        optionCompSlotIndex := -1;
      }
    }
    assert SlotPair(optionCurrSlotIndex, optionCompSlotIndex)
           == NormalizedIndices(options.currentFileSaveSlot, options.comparisonFileSaveSlot);

    var optionFlags := options.comparisonFlags;
    r := CompareSlots(l, currFile, compFile, optionFlags, optionCurrSlotIndex, optionCompSlotIndex);
    if r.Err? {
      return;
    }
    var allDiffBytes, checksums, timestamps := r.value.allDiffBytes, r.value.checksums, r.value.timestamps;

    if HasFlag(options.comparisonFlags, NonSlotComparison) {
      var nonSaveSlotUnknownDiffBytes := DiffCount(currFile.unknown19, compFile.unknown19);
      if nonSaveSlotUnknownDiffBytes > 0 {
        allDiffBytes := allDiffBytes + nonSaveSlotUnknownDiffBytes;
      }
    }

    return Ok(Tally(allDiffBytes, checksums, timestamps));
  }

  // ---------------------------------------------------------------------------
  // Lemmas used by the methods

  /** `SlotStep` by its three parts. */
  lemma SlotStepIs(l: Layout, currFile: SramFile, compFile: SramFile, flags: Flags, t: Tally, p: SlotPair)
    requires ValidLayout(l) && FileFits(l, currFile) && FileFits(l, compFile)
    requires PairInRange(p)
    ensures SlotStep(l, currFile, compFile, flags, t, p)
            == Tally(t.allDiffBytes + PairDiffBytes(l, currFile, compFile, flags, p),
                     ChecksumLines(l, currFile, compFile, flags, t.checksums, p),
                     TimerLines(l, currFile, compFile, flags, t.timestamps, p))
  {
  }

  lemma {:induction false} SumDiffAppend(l: Layout, a: seq<Field>, b: seq<Field>,
                                         currSlot: seq<Byte>, compSlot: seq<Byte>)
    requires ValidLayout(l)
    requires |currSlot| == l.saveSlotSize && |compSlot| == l.saveSlotSize
    ensures SumDiff(l, a + b, currSlot, compSlot) == SumDiff(l, a, currSlot, compSlot) + SumDiff(l, b, currSlot, compSlot)
  {
    if b == [] {
      assert a + b == a;
    } else {
      var k := |b| - 1;
      assert (a + b)[..|a + b| - 1] == a + b[..k];
      SumDiffAppend(l, a, b[..k], currSlot, compSlot);
    }
  }

  lemma BuffEntryStep(l: Layout, g: BuffGroup, index: BuffIndex, currSlot: seq<Byte>, compSlot: seq<Byte>)
    requires ValidLayout(l)
    requires |currSlot| == l.saveSlotSize && |compSlot| == l.saveSlotSize
    ensures SumDiff(l, BuffFields(g, index + 1), currSlot, compSlot)
            == SumDiff(l, BuffFields(g, index), currSlot, compSlot)
               + FieldDiffBytes(l, BuffMember(g, index, Id), currSlot, compSlot)
               + FieldDiffBytes(l, BuffMember(g, index, Timer), currSlot, compSlot)
               + FieldDiffBytes(l, BuffMember(g, index, Boost), currSlot, compSlot)
  {
    var prev := BuffFields(g, index);
    var f0, f1, f2 := BuffMember(g, index, Id), BuffMember(g, index, Timer), BuffMember(g, index, Boost);
    BuffFieldsStep(g, index);
    assert BuffEntry(g, index) == [f0] + [f1] + [f2];
    assert BuffFields(g, index + 1) == prev + [f0] + [f1] + [f2];
    SumDiffSnoc(l, prev, f0, currSlot, compSlot);
    SumDiffSnoc(l, prev + [f0], f1, currSlot, compSlot);
    SumDiffSnoc(l, prev + [f0] + [f1], f2, currSlot, compSlot);
  }

  /** One step of the chunk walk: the next field adds its count exactly when its gate is open. */
  lemma ChunkStep(l: Layout, chunk: seq<Field>, j: nat, flags: Flags, currSlot: seq<Byte>, compSlot: seq<Byte>)
    requires ValidLayout(l) && |currSlot| == l.saveSlotSize && |compSlot| == l.saveSlotSize
    requires j < |chunk|
    ensures SumDiff(l, Included(chunk[..j + 1], flags), currSlot, compSlot)
            == SumDiff(l, Included(chunk[..j], flags), currSlot, compSlot)
               + (if Counted(chunk[j], flags) then FieldDiffBytes(l, chunk[j], currSlot, compSlot) else 0)
  {
    var f := chunk[j];
    var before := Included(chunk[..j], flags);
    assert chunk[..j + 1] == chunk[..j] + [f];
    IncludedSnoc(chunk[..j], f, flags);
    if Counted(f, flags) {
      assert Included(chunk[..j + 1], flags) == before + [f];
      SumDiffSnoc(l, before, f, currSlot, compSlot);
    } else {
      assert Included(chunk[..j + 1], flags) == before;
    }
  }

  lemma SumDiffSnoc(l: Layout, fs: seq<Field>, f: Field, currSlot: seq<Byte>, compSlot: seq<Byte>)
    requires ValidLayout(l)
    requires |currSlot| == l.saveSlotSize && |compSlot| == l.saveSlotSize
    ensures SumDiff(l, fs + [f], currSlot, compSlot)
            == SumDiff(l, fs, currSlot, compSlot) + FieldDiffBytes(l, f, currSlot, compSlot)
  {
    assert (fs + [f])[..|fs|] == fs;
  }

  lemma IncludedSnoc(fs: seq<Field>, f: Field, flags: Flags)
    ensures Included(fs + [f], flags) == Included(fs, flags) + (if Counted(f, flags) then [f] else [])
  {
    assert (fs + [f])[..|fs|] == fs;
  }

  /** The structured count is the boy's buffs, then the dog's, then the walked chunk fields. */
  lemma StructuredCountSplit(l: Layout, flags: Flags, currSlot: seq<Byte>, compSlot: seq<Byte>)
    requires ValidLayout(l) && |currSlot| == l.saveSlotSize && |compSlot| == l.saveSlotSize
    ensures StructuredCount(l, flags, currSlot, compSlot)
            == SumDiff(l, BuffFields(BoyStatusBuffs, BuffEntryCount), currSlot, compSlot)
               + SumDiff(l, BuffFields(DogStatusBuffs, BuffEntryCount), currSlot, compSlot)
               + SumDiff(l, Included(ChunkTable(), flags), currSlot, compSlot)
  {
    var boy := BuffFields(BoyStatusBuffs, BuffEntryCount);
    var dog := BuffFields(DogStatusBuffs, BuffEntryCount);
    var chunk := ChunkTable();
    assert SlotTable() == boy + dog + chunk;
    IncludedAppend(boy + dog, chunk, flags);
    IncludedAppend(boy, dog, flags);
    BuffFieldsUngated(BoyStatusBuffs, BuffEntryCount);
    BuffFieldsUngated(DogStatusBuffs, BuffEntryCount);
    IncludedUngated(boy, flags);
    IncludedUngated(dog, flags);
    SumDiffAppend(l, boy, dog, currSlot, compSlot);
    SumDiffAppend(l, boy + dog, Included(chunk, flags), currSlot, compSlot);
  }

  // ---------------------------------------------------------------------------
  // Properties

  /**
   * The slot loop visits, in slot order, every slot when no current slot is
   * selected, only the selected one when it exists, and none when the selector
   * names a slot past the last.
   */
  lemma LoopPairsSelection(currSlotIndex: int)
    ensures currSlotIndex <= -1 ==>
              LoopPairs(currSlotIndex, SlotCount)
              == [SlotPair(0, -1), SlotPair(1, -1), SlotPair(2, -1), SlotPair(3, -1)]
    ensures 0 <= currSlotIndex < SlotCount ==> LoopPairs(currSlotIndex, SlotCount) == [SlotPair(currSlotIndex, -1)]
    ensures currSlotIndex >= SlotCount ==> LoopPairs(currSlotIndex, SlotCount) == []
  {
    var c := currSlotIndex;
    assert LoopPairs(c, 1) == LoopPairs(c, 0) + (if c > -1 && c != 0 then [] else [SlotPair(0, -1)]);
    assert LoopPairs(c, 2) == LoopPairs(c, 1) + (if c > -1 && c != 1 then [] else [SlotPair(1, -1)]);
    assert LoopPairs(c, 3) == LoopPairs(c, 2) + (if c > -1 && c != 2 then [] else [SlotPair(2, -1)]);
    assert LoopPairs(c, 4) == LoopPairs(c, 3) + (if c > -1 && c != 3 then [] else [SlotPair(3, -1)]);
  }

  /** The pairs one comparison visits: the one cross-slot pair, or the slot loop's. */
  lemma ComparedPairsSelection(p: SlotPair)
    ensures ModeOf(p) == CrossSlot ==> ComparedPairs(p) == [p]
    ensures ModeOf(p) == SingleSlot && p.currSlotIndex < SlotCount ==> ComparedPairs(p) == [SlotPair(p.currSlotIndex, -1)]
    ensures ModeOf(p) == SingleSlot && p.currSlotIndex >= SlotCount ==> ComparedPairs(p) == []
    ensures ModeOf(p) == AllSlots ==>
              ComparedPairs(p) == [SlotPair(0, -1), SlotPair(1, -1), SlotPair(2, -1), SlotPair(3, -1)]
  {
    LoopPairsSelection(p.currSlotIndex);
  }

  /** The slot loop's tally is the fold of `SlotStep` over the pairs it visits. */
  lemma {:induction false} SlotLoopVisits(l: Layout, currFile: SramFile, compFile: SramFile, flags: Flags,
                                          currSlotIndex: int, count: nat)
    requires ValidLayout(l) && FileFits(l, currFile) && FileFits(l, compFile)
    requires count <= SlotCount
    ensures SlotLoop(l, currFile, compFile, flags, currSlotIndex, count)
            == FoldSlots(l, currFile, compFile, flags, LoopPairs(currSlotIndex, count), Tally(0, [], []))
  {
    if count > 0 {
      SlotLoopVisits(l, currFile, compFile, flags, currSlotIndex, count - 1);
      if currSlotIndex > -1 && currSlotIndex != count - 1 {
        SlotLoopSkips(l, currFile, compFile, flags, currSlotIndex, count);
      } else {
        SlotLoopSteps(l, currFile, compFile, flags, currSlotIndex, count);
      }
    }
  }

  /** A skipped index adds neither a pair nor anything to the tally. */
  lemma SlotLoopSkips(l: Layout, currFile: SramFile, compFile: SramFile, flags: Flags,
                      currSlotIndex: int, count: nat)
    requires ValidLayout(l) && FileFits(l, currFile) && FileFits(l, compFile)
    requires 0 < count <= SlotCount && currSlotIndex > -1 && currSlotIndex != count - 1
    ensures LoopPairs(currSlotIndex, count) == LoopPairs(currSlotIndex, count - 1)
    ensures SlotLoop(l, currFile, compFile, flags, currSlotIndex, count)
            == SlotLoop(l, currFile, compFile, flags, currSlotIndex, count - 1)
  {
    assert LoopPairs(currSlotIndex, count) == LoopPairs(currSlotIndex, count - 1) + [];
  }

  /** A visited index adds its pair, and its step to the tally. */
  lemma SlotLoopSteps(l: Layout, currFile: SramFile, compFile: SramFile, flags: Flags,
                      currSlotIndex: int, count: nat)
    requires ValidLayout(l) && FileFits(l, currFile) && FileFits(l, compFile)
    requires 0 < count <= SlotCount && !(currSlotIndex > -1 && currSlotIndex != count - 1)
    requires SlotLoop(l, currFile, compFile, flags, currSlotIndex, count - 1)
             == FoldSlots(l, currFile, compFile, flags, LoopPairs(currSlotIndex, count - 1), Tally(0, [], []))
    ensures SlotLoop(l, currFile, compFile, flags, currSlotIndex, count)
            == FoldSlots(l, currFile, compFile, flags, LoopPairs(currSlotIndex, count), Tally(0, [], []))
  {
    var prev := LoopPairs(currSlotIndex, count - 1);
    var q := SlotPair(count - 1, -1);
    assert LoopPairs(currSlotIndex, count) == prev + [q];
    FoldSlotsSnoc(l, currFile, compFile, flags, prev, q, Tally(0, [], []));
  }

  lemma FoldSlotsSnoc(l: Layout, currFile: SramFile, compFile: SramFile, flags: Flags,
                      ps: seq<SlotPair>, q: SlotPair, t: Tally)
    requires ValidLayout(l) && FileFits(l, currFile) && FileFits(l, compFile)
    requires AllInRange(ps) && PairInRange(q)
    ensures AllInRange(ps + [q])
    ensures FoldSlots(l, currFile, compFile, flags, ps + [q], t)
            == SlotStep(l, currFile, compFile, flags, FoldSlots(l, currFile, compFile, flags, ps, t), q)
  {
    assert (ps + [q])[..|ps|] == ps;
  }

  /** The slots' tally is the fold of `SlotStep` over the pairs the selection visits. */
  lemma SlotsTallyVisits(l: Layout, currFile: SramFile, compFile: SramFile, flags: Flags, p: SlotPair)
    requires ValidLayout(l) && FileFits(l, currFile) && FileFits(l, compFile)
    requires Accepted(p)
    ensures SlotsTally(l, currFile, compFile, flags, p)
            == FoldSlots(l, currFile, compFile, flags, ComparedPairs(p), Tally(0, [], []))
  {
    if ModeOf(p) == CrossSlot {
      assert [p][..0] == [];
    } else {
      SlotLoopVisits(l, currFile, compFile, flags, p.currSlotIndex, SlotCount);
    }
  }

  /**
   * A comparison fails exactly when both selectors survive normalisation and
   * one of them names a slot past the last; the error names that slot.
   */
  lemma CompareSramRejects(l: Layout, currFile: SramFile, compFile: SramFile, options: Options)
    requires ValidLayout(l) && FileFits(l, currFile) && FileFits(l, compFile)
    ensures var p := NormalizedIndices(options.currentFileSaveSlot, options.comparisonFileSaveSlot);
            && (CompareSram(l, currFile, compFile, options).Err?
                <==> p.currSlotIndex > -1 && p.compSlotIndex > -1
                     && (p.currSlotIndex >= SlotCount || p.compSlotIndex >= SlotCount))
            && (CompareSram(l, currFile, compFile, options).Err? ==>
                  CompareSram(l, currFile, compFile, options).error.index >= SlotCount)
  {
  }

  /** An unset comparison index compares the slot with the same slot of the other file. */
  lemma UnsetComparisonIsSameSlot(l: Layout, currFile: SramFile, compFile: SramFile, flags: Flags,
                                  t: Tally, slotIndex: int)
    requires ValidLayout(l) && FileFits(l, currFile) && FileFits(l, compFile)
    requires 0 <= slotIndex < SlotCount
    ensures SlotStep(l, currFile, compFile, flags, t, SlotPair(slotIndex, -1))
            == SlotStep(l, currFile, compFile, flags, t, SlotPair(slotIndex, slotIndex))
  {
  }

  /**
   * A byte-identical pair of slots leaves the total alone, adds no comparison
   * file line and records the current values only under their "always" flags.
   */
  lemma EqualSlotsAddNothing(l: Layout, currFile: SramFile, compFile: SramFile, flags: Flags, t: Tally, p: SlotPair)
    requires ValidLayout(l) && FileFits(l, currFile) && FileFits(l, compFile)
    requires PairInRange(p)
    requires SlotBytes(l, currFile, p.currSlotIndex) == SlotBytes(l, compFile, CompIndex(p))
    ensures var slot := SlotBytes(l, currFile, p.currSlotIndex);
            var step := SlotStep(l, currFile, compFile, flags, t, p);
            && step.allDiffBytes == t.allDiffBytes
            && step.checksums == t.checksums
                                 + (if HasFlag(flags, Checksum) then [ValueEntry(CurrentFile, p.currSlotIndex + 1, ChecksumOf(l, slot))] else [])
            && step.timestamps == t.timestamps
                                  + (if HasFlag(flags, ComparisonFlagsSoE.ScriptedEventTimer)
                                     then [ValueEntry(CurrentFile, p.currSlotIndex + 1, TimerOf(l, slot))] else [])
  {
  }

  /**
   * A differing pair of slots adds the raw whole-slot count (the number of
   * differing positions, never 0) under the slot-byte flag and the structured
   * count otherwise, never both.
   */
  lemma DifferingSlotCount(l: Layout, currFile: SramFile, compFile: SramFile, flags: Flags, p: SlotPair)
    requires ValidLayout(l) && FileFits(l, currFile) && FileFits(l, compFile)
    requires PairInRange(p)
    requires SlotBytes(l, currFile, p.currSlotIndex) != SlotBytes(l, compFile, CompIndex(p))
    ensures var currSlot := SlotBytes(l, currFile, p.currSlotIndex);
            var compSlot := SlotBytes(l, compFile, CompIndex(p));
            && (HasFlag(flags, SlotByteComparison) ==>
                  && PairDiffBytes(l, currFile, compFile, flags, p) == |DiffPositions(currSlot, compSlot)|
                  && PairDiffBytes(l, currFile, compFile, flags, p) > 0)
            && (!HasFlag(flags, SlotByteComparison) ==>
                  PairDiffBytes(l, currFile, compFile, flags, p) == StructuredCount(l, flags, currSlot, compSlot))
  {
    var currSlot := SlotBytes(l, currFile, p.currSlotIndex);
    var compSlot := SlotBytes(l, compFile, CompIndex(p));
    DiffCountIsDiffPositions(currSlot, compSlot);
  }

  /**
   * The checksum lines of one pair: the lines already there are kept; the
   * current file's checksum is added exactly when the "always" flag is set or
   * the two checksums differ; the comparison file's exactly when the slots differ.
   */
  lemma ChecksumLinesRecorded(l: Layout, currFile: SramFile, compFile: SramFile, flags: Flags,
                              lines: seq<ValueEntry>, p: SlotPair)
    requires ValidLayout(l) && FileFits(l, currFile) && FileFits(l, compFile)
    requires PairInRange(p)
    ensures var currSlot := SlotBytes(l, currFile, p.currSlotIndex);
            var compSlot := SlotBytes(l, compFile, CompIndex(p));
            var added := ChecksumLines(l, currFile, compFile, flags, lines, p);
            && added[..|lines|] == lines
            && |added| <= |lines| + 2
            && (ValueEntry(CurrentFile, p.currSlotIndex + 1, ChecksumOf(l, currSlot)) in added[|lines|..]
                <==> HasFlag(flags, Checksum) || ChecksumOf(l, compSlot) != ChecksumOf(l, currSlot))
            && (ValueEntry(ComparisonFile, CompIndex(p) + 1, ChecksumOf(l, compSlot)) in added[|lines|..]
                <==> compSlot != currSlot)
  {
    var currSlot := SlotBytes(l, currFile, p.currSlotIndex);
    var compSlot := SlotBytes(l, compFile, CompIndex(p));
    var currValue, compValue := ChecksumOf(l, currSlot), ChecksumOf(l, compSlot);
    var c1 := CurrentEntry(HasFlag(flags, Checksum), p.currSlotIndex + 1, currValue, compValue);
    var c2 := ComparisonEntry(CompIndex(p) + 1, compValue, compSlot == currSlot);
    var added := ChecksumLines(l, currFile, compFile, flags, lines, p);
    assert added == lines + c1 + c2;
    EntriesRecorded(lines, HasFlag(flags, Checksum), p.currSlotIndex + 1, CompIndex(p) + 1, currValue, compValue, compSlot == currSlot);
  }

  /** The timer lines of one pair, by the same rule under the timer's "always" flag. */
  lemma TimerLinesRecorded(l: Layout, currFile: SramFile, compFile: SramFile, flags: Flags,
                           lines: seq<ValueEntry>, p: SlotPair)
    requires ValidLayout(l) && FileFits(l, currFile) && FileFits(l, compFile)
    requires PairInRange(p)
    ensures var currSlot := SlotBytes(l, currFile, p.currSlotIndex);
            var compSlot := SlotBytes(l, compFile, CompIndex(p));
            var added := TimerLines(l, currFile, compFile, flags, lines, p);
            && added[..|lines|] == lines
            && |added| <= |lines| + 2
            && (ValueEntry(CurrentFile, p.currSlotIndex + 1, TimerOf(l, currSlot)) in added[|lines|..]
                <==> HasFlag(flags, ComparisonFlagsSoE.ScriptedEventTimer) || TimerOf(l, compSlot) != TimerOf(l, currSlot))
            && (ValueEntry(ComparisonFile, CompIndex(p) + 1, TimerOf(l, compSlot)) in added[|lines|..]
                <==> compSlot != currSlot)
  {
    var currSlot := SlotBytes(l, currFile, p.currSlotIndex);
    var compSlot := SlotBytes(l, compFile, CompIndex(p));
    var currValue, compValue := TimerOf(l, currSlot), TimerOf(l, compSlot);
    var c1 := CurrentEntry(HasFlag(flags, ComparisonFlagsSoE.ScriptedEventTimer), p.currSlotIndex + 1, currValue, compValue);
    var c2 := ComparisonEntry(CompIndex(p) + 1, compValue, compSlot == currSlot);
    var added := TimerLines(l, currFile, compFile, flags, lines, p);
    assert added == lines + c1 + c2;
    EntriesRecorded(lines, HasFlag(flags, ComparisonFlagsSoE.ScriptedEventTimer), p.currSlotIndex + 1, CompIndex(p) + 1, currValue, compValue, compSlot == currSlot);
  }

  /** Appending one slot's two possible lines keeps the old lines and adds each line exactly under its rule. */
  lemma EntriesRecorded(lines: seq<ValueEntry>, always: bool, currSlotId: int, compSlotId: int,
                        currValue: seq<Byte>, compValue: seq<Byte>, slotsEqual: bool)
    ensures var added := lines + CurrentEntry(always, currSlotId, currValue, compValue)
                         + ComparisonEntry(compSlotId, compValue, slotsEqual);
            && added[..|lines|] == lines
            && |added| <= |lines| + 2
            && (ValueEntry(CurrentFile, currSlotId, currValue) in added[|lines|..] <==> always || compValue != currValue)
            && (ValueEntry(ComparisonFile, compSlotId, compValue) in added[|lines|..] <==> !slotsEqual)
  {
    var c1 := CurrentEntry(always, currSlotId, currValue, compValue);
    var c2 := ComparisonEntry(compSlotId, compValue, slotsEqual);
    assert (lines + c1 + c2)[|lines|..] == c1 + c2;
    assert (lines + c1 + c2)[..|lines|] == lines;
  }

  /** Without the non-slot flag the region outside the slots never affects the result. */
  lemma NonSlotRegionIgnored(l: Layout, currFile: SramFile, compFile: SramFile,
                             currFile': SramFile, compFile': SramFile, options: Options)
    requires ValidLayout(l)
    requires FileFits(l, currFile) && FileFits(l, compFile) && FileFits(l, currFile') && FileFits(l, compFile')
    requires currFile'.saveSlots == currFile.saveSlots && compFile'.saveSlots == compFile.saveSlots
    requires !HasFlag(options.comparisonFlags, NonSlotComparison)
    ensures CompareSram(l, currFile', compFile', options) == CompareSram(l, currFile, compFile, options)
  {
    var p := NormalizedIndices(options.currentFileSaveSlot, options.comparisonFileSaveSlot);
    if Accepted(p) && ModeOf(p) != CrossSlot {
      SlotLoopSlotsOnly(l, currFile, compFile, currFile', compFile', options.comparisonFlags, p.currSlotIndex, SlotCount);
    }
  }

  /** With the non-slot flag an accepted comparison adds the count of the `Unknown19` region. */
  lemma NonSlotRegionCounted(l: Layout, currFile: SramFile, compFile: SramFile, options: Options)
    requires ValidLayout(l) && FileFits(l, currFile) && FileFits(l, compFile)
    requires HasFlag(options.comparisonFlags, NonSlotComparison)
    ensures var p := NormalizedIndices(options.currentFileSaveSlot, options.comparisonFileSaveSlot);
            Accepted(p) ==>
              CompareSram(l, currFile, compFile, options).value.allDiffBytes
              == SlotsTally(l, currFile, compFile, options.comparisonFlags, p).allDiffBytes
                 + |DiffPositions(currFile.unknown19, compFile.unknown19)|
  {
    DiffCountIsDiffPositions(currFile.unknown19, compFile.unknown19);
  }

  /** The slot loop reads only the save slots of the two files. */
  lemma {:induction false} SlotLoopSlotsOnly(l: Layout, currFile: SramFile, compFile: SramFile,
                                             currFile': SramFile, compFile': SramFile, flags: Flags,
                                             currSlotIndex: int, count: nat)
    requires ValidLayout(l)
    requires FileFits(l, currFile) && FileFits(l, compFile) && FileFits(l, currFile') && FileFits(l, compFile')
    requires currFile'.saveSlots == currFile.saveSlots && compFile'.saveSlots == compFile.saveSlots
    requires count <= SlotCount
    ensures SlotLoop(l, currFile', compFile', flags, currSlotIndex, count)
            == SlotLoop(l, currFile, compFile, flags, currSlotIndex, count)
  {
    if count > 0 {
      SlotLoopSlotsOnly(l, currFile, compFile, currFile', compFile', flags, currSlotIndex, count - 1);
    }
  }

  /** Comparing a file with itself, slot by slot, finds no differing byte. */
  lemma SelfComparisonIsZero(l: Layout, file: SramFile, options: Options)
    requires ValidLayout(l) && FileFits(l, file)
    ensures var p := NormalizedIndices(options.currentFileSaveSlot, options.comparisonFileSaveSlot);
            ModeOf(p) != CrossSlot ==>
              CompareSram(l, file, file, options).Ok? && CompareSram(l, file, file, options).value.allDiffBytes == 0
  {
    var p := NormalizedIndices(options.currentFileSaveSlot, options.comparisonFileSaveSlot);
    if ModeOf(p) != CrossSlot {
      SlotLoopSelfIsZero(l, file, options.comparisonFlags, p.currSlotIndex, SlotCount);
    }
  }

  lemma {:induction false} SlotLoopSelfIsZero(l: Layout, file: SramFile, flags: Flags, currSlotIndex: int, count: nat)
    requires ValidLayout(l) && FileFits(l, file)
    requires count <= SlotCount
    ensures SlotLoop(l, file, file, flags, currSlotIndex, count).allDiffBytes == 0
  {
    if count > 0 {
      SlotLoopSelfIsZero(l, file, flags, currSlotIndex, count - 1);
    }
  }

  /**
   * The structured count in the comparer's terms: the buff entries and every
   * chunk field, plus the event timer only under its "if different" flag.
   */
  lemma StructuredCountTimerGate(l: Layout, flags: Flags, currSlot: seq<Byte>, compSlot: seq<Byte>)
    requires ValidLayout(l) && |currSlot| == l.saveSlotSize && |compSlot| == l.saveSlotSize
    ensures StructuredCount(l, flags, currSlot, compSlot)
            == SumDiff(l, BuffFields(BoyStatusBuffs, BuffEntryCount) + BuffFields(DogStatusBuffs, BuffEntryCount)
                          + ChunkHead + ChunkTail, currSlot, compSlot)
               + (if HasFlag(flags, ScriptedEventTimerIfDifferent) then FieldDiffBytes(l, TimerField, currSlot, compSlot) else 0)
  {
    var front := BuffFields(BoyStatusBuffs, BuffEntryCount) + BuffFields(DogStatusBuffs, BuffEntryCount) + ChunkHead;
    var gate: seq<Field> := if HasFlag(flags, ScriptedEventTimerIfDifferent) then [TimerField] else [];
    SlotWalkSplit(flags);
    assert SlotWalk(flags) == front + gate + ChunkTail;
    SumDiffAppend(l, front + gate, ChunkTail, currSlot, compSlot);
    SumDiffAppend(l, front, gate, currSlot, compSlot);
    SumDiffAppend(l, front, ChunkTail, currSlot, compSlot);
    assert SumDiff(l, gate, currSlot, compSlot)
           == (if HasFlag(flags, ScriptedEventTimerIfDifferent) then FieldDiffBytes(l, TimerField, currSlot, compSlot) else 0)
    by {
      if gate != [] {
        assert gate[..0] == [];
      }
    }
  }

  /** Identical slots have a structured count of 0. */
  lemma StructuredCountOfEqualSlots(l: Layout, flags: Flags, slot: seq<Byte>)
    requires ValidLayout(l) && |slot| == l.saveSlotSize
    ensures StructuredCount(l, flags, slot, slot) == 0
  {
    SumDiffOfEqualSlots(l, SlotWalk(flags), slot);
  }

  lemma {:induction false} SumDiffOfEqualSlots(l: Layout, fs: seq<Field>, slot: seq<Byte>)
    requires ValidLayout(l) && |slot| == l.saveSlotSize
    ensures SumDiff(l, fs, slot, slot) == 0
  {
    if fs != [] {
      SumDiffOfEqualSlots(l, fs[..|fs| - 1], slot);
    }
  }

  /** The count of a pair of slots is the same whichever file is the current one. */
  lemma {:induction false} SumDiffSymmetric(l: Layout, fs: seq<Field>, currSlot: seq<Byte>, compSlot: seq<Byte>)
    requires ValidLayout(l) && |currSlot| == l.saveSlotSize && |compSlot| == l.saveSlotSize
    ensures SumDiff(l, fs, currSlot, compSlot) == SumDiff(l, fs, compSlot, currSlot)
  {
    if fs != [] {
      var f := fs[|fs| - 1];
      SumDiffSymmetric(l, fs[..|fs| - 1], currSlot, compSlot);
      DiffCountSymmetric(Slice(currSlot, l.fieldExtent[f]), Slice(compSlot, l.fieldExtent[f]));
    }
  }

  /** A slot's count does not depend on which side is the current file. */
  lemma SlotDiffBytesSymmetric(l: Layout, flags: Flags, currSlot: seq<Byte>, compSlot: seq<Byte>)
    requires ValidLayout(l) && |currSlot| == l.saveSlotSize && |compSlot| == l.saveSlotSize
    ensures SlotDiffBytes(l, flags, currSlot, compSlot) == SlotDiffBytes(l, flags, compSlot, currSlot)
  {
    DiffCountSymmetric(currSlot, compSlot);
    SumDiffSymmetric(l, SlotWalk(flags), currSlot, compSlot);
  }

  /**
   * The slot loop reports the same byte count whichever file is the current
   * one: every visited index pairs the same slot of both files.
   */
  lemma {:induction false} SlotLoopSymmetric(l: Layout, a: SramFile, b: SramFile, flags: Flags,
                                             currSlotIndex: int, count: nat)
    requires ValidLayout(l) && FileFits(l, a) && FileFits(l, b)
    requires count <= SlotCount
    ensures SlotLoop(l, a, b, flags, currSlotIndex, count).allDiffBytes
            == SlotLoop(l, b, a, flags, currSlotIndex, count).allDiffBytes
  {
    if count > 0 {
      SlotLoopSymmetric(l, a, b, flags, currSlotIndex, count - 1);
      SlotDiffBytesSymmetric(l, flags, SlotBytes(l, a, count - 1), SlotBytes(l, b, count - 1));
    }
  }

  /**
   * Swapping the two files reports the same total. For a cross-slot pair the
   * two selectors are swapped with the files, so that the same two slots meet;
   * the swapped selection is accepted exactly when the original one is.
   */
  lemma CompareSramSymmetric(l: Layout, a: SramFile, b: SramFile, options: Options)
    requires ValidLayout(l) && FileFits(l, a) && FileFits(l, b)
    ensures var p := NormalizedIndices(options.currentFileSaveSlot, options.comparisonFileSaveSlot);
            var swapped := if ModeOf(p) == CrossSlot
                           then Options(options.comparisonFileSaveSlot, options.currentFileSaveSlot, options.comparisonFlags)
                           else options;
            var forward := CompareSram(l, a, b, options);
            var backward := CompareSram(l, b, a, swapped);
            && (ModeOf(p) != CrossSlot ==> forward.Ok?)
            && forward.Ok? == backward.Ok?
            && (forward.Ok? ==> forward.value.allDiffBytes == backward.value.allDiffBytes)
  {
    var p := NormalizedIndices(options.currentFileSaveSlot, options.comparisonFileSaveSlot);
    var flags := options.comparisonFlags;
    DiffCountSymmetric(a.unknown19, b.unknown19);
    if ModeOf(p) == CrossSlot {
      var q := NormalizedIndices(options.comparisonFileSaveSlot, options.currentFileSaveSlot);
      assert q == SlotPair(p.compSlotIndex, p.currSlotIndex);
      if Accepted(p) {
        SlotDiffBytesSymmetric(l, flags, SlotBytes(l, a, p.currSlotIndex), SlotBytes(l, b, p.compSlotIndex));
      }
    } else {
      SlotLoopSymmetric(l, a, b, flags, p.currSlotIndex, SlotCount);
    }
  }
}
