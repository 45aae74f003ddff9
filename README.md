# Secret of Evermore S-RAM comparer: the save-slot comparison engine

This project models in Dafny the part of the Secret of Evermore S-RAM
comparer that counts differing bytes between two S-RAM files.
`SramComparerSoE.OnCompareSram` works through these steps:
- It normalises the two 1-based slot selectors.
- It compares either one cross-slot pair, one slot, or all four slots. Each slot is handled by the local function `CompareSaveSlots`.
- It adds the count of the `Unknown19` region outside the slots when the non-slot flag is set.
- It builds the two summaries of checksum and event-timer values that the comparer prints at the end.

`OnCompareSaveSlot` is the structured count of one pair of slots. It walks
a fixed, ordered list of fields: the boy's and the dog's four buff entries,
named with `BuildIndexName`, then the fields of chunks 16 to 21. Only the
scripted event timer in that list is behind a flag.

Files:
- `flags.dfy` holds the `ComparisonFlagsSoE` bit set. `HasFlag` means every bit of the flag is set in the value.
- `field_comparer.dfy` holds the per-field count `DiffCount`, which stands in for the base class's `CompareValue`.
- `save_layout.dfy` holds:
  - the memory map the comparer reads, as a `Layout` value;
  - a loaded file, as save slots plus `Unknown19`;
  - the ordered field table;
  - the lookup keys of the fields, with the indexed names built by `BuildIndexName`.
- `comparer.dfy` holds:
  - the three methods `OnCompareSram` (with its slot region `CompareSlots`), `CompareSaveSlots` and `OnCompareSaveSlot`;
  - the specification functions they are proved against (`CompareSram`, `SlotStep`, `SlotLoop`, `StructuredCount`);
  - the lemmas about those functions.

The captured locals of the C# closure `CompareSaveSlots` are the running
total and the two `StringBuilder`s. In the model they are passed in and
returned. A summary text becomes a sequence of `ValueEntry`, one per line
the comparer appends. Each entry records the file, the 1-based slot id and
the value. Byte totals are unbounded integers: a total is at most the size
of two S-RAM images, so C#'s `int` width is never reached. The slot
selectors are unbounded integers too; "Left out" says what that gives up.

## Model

| member | source | states |
|---|---|---|
| ComparisonFlagsSoE.DeclaredValues | Enums/ComparisonFlagsSoE.cs:19-28 | `ChecksumIfDifferent` is 4, `Checksum` is 12, `Unknown12BIfDifferent` is 16 and `Unknown12B` is 48 |
| ComparisonFlagsSoE.AlwaysImpliesIfDifferent | Enums/ComparisonFlagsSoE.cs:22-28 | any value that has an "always" flag (`Checksum`, `Unknown12B`) also has its "if different" flag |
| ComparisonFlagsSoE.IfDifferentDoesNotImplyAlways | Enums/ComparisonFlagsSoE.cs:19-28 | the "if different" flag alone does not have the "always" flag, because of the extra bit |
| ComparisonFlagsSoE.ChecksumAndTimerDisjoint | Enums/ComparisonFlagsSoE.cs:19-28 | the checksum pair and the timer pair share no bit, so OR-ing one pair into a value leaves the other pair's `HasFlag` tests unchanged |
| ComparisonFlagsSoE.HasFlagMeansBitsSet | Services/SramComparerSoE.cs:90 | a value has a flag exactly when OR-ing the flag's bits into it leaves it unchanged |
| ComparisonFlagsSoE.HasFlagOfSetBits | Services/SramComparerSoE.cs:338 | every value has the empty flag, and a value with a flag's bits OR-ed in has that flag |
| ComparisonFlagsSoE.InheritedBitsIndependent | Enums/ComparisonFlagsSoE.cs:13-17 | documents an assumption of this model, not a fact of the source: the values chosen for the inherited slot-byte, non-slot and checksum-status flags are distinct bits, and none is a bit of the title's own four flags |
| FieldComparer.DiffCount | Services/SramComparerSoE.cs:92 | the count of a field is at most its length, and it is 0 exactly when the two byte sequences are equal |
| FieldComparer.DiffCountIsDiffPositions | Services/SramComparerSoE.cs:92 | the count equals the size of the set of positions at which the two sequences differ |
| FieldComparer.DiffCountSymmetric | Services/SramComparerSoE.cs:92 | swapping the current and the comparison bytes gives the same count |
| FieldComparer.DiffCountAppend | Services/SramComparerSoE.cs:92 | counting two adjacent spans at once gives the sum of their separate counts |
| SaveSlotLayout.NatToString | Services/SramComparerSoE.cs:448 | the rendered index is a non-empty string of decimal digits with no leading zero |
| SaveSlotLayout.ParseNatToString | Services/SramComparerSoE.cs:448 | reading the rendered index back as a decimal number gives the index |
| SaveSlotLayout.BuildIndexName | Services/SramComparerSoE.cs:448 | an indexed name is longer than the parent name, the delimiter and the field name together; it starts with the parent name and ends with `.` and then the field name |
| SaveSlotLayout.BuildIndexNameForm | Services/SramComparerSoE.cs:448 | an indexed name is the parent name, then the decimal index, then the delimiter and the field name; the index can be read back from it |
| SaveSlotLayout.BuildIndexNameInjective | Services/SramComparerSoE.cs:448 | two entries of one group with the same field name get the same name only if their indices are equal |
| SaveSlotLayout.BuffKeyShape | Services/SramComparerSoE.cs:288-318 | a buff member's name is the 14-character group name, the entry's digit, `.` and the member's name |
| SaveSlotLayout.BuffKeyInjective | Services/SramComparerSoE.cs:288-318 | two buff members get the same name only if they have the same group, entry and member |
| SaveSlotLayout.KeyOfInjective | Services/SramComparerSoE.cs:285-442 | two compared fields share a lookup key only if they are the same field; this is why offsets can be keyed by field |
| SaveSlotLayout.ChunkKeyInjective | Services/SramComparerSoE.cs:323-442 | the 25 chunk fields have pairwise different keys |
| SaveSlotLayout.ChunkOfKeyInverts | Services/SramComparerSoE.cs:323-442 | a chunk field can be read back from its key |
| SaveSlotLayout.BuffFieldsStep | Services/SramComparerSoE.cs:288-298 | each buff entry adds its `Id`, `Timer` and `Boost` members, in that order, after the entries before it |
| SaveSlotLayout.TimerOnlyOnce | Services/SramComparerSoE.cs:323-349 | the event timer occurs in the chunk table only at its gated position |
| SaveSlotLayout.IncludedMembers | Services/SramComparerSoE.cs:338-343 | a field is walked exactly when it is in the table and its gate is open |
| SaveSlotLayout.SlotWalkSplit | Services/SramComparerSoE.cs:285-444 | the walk is the 4 boy entries, the 4 dog entries, chunk 16 up to the timer, then the timer exactly when its "if different" flag is set, then the rest of chunks 16 to 21 |
| SaveSlotLayout.SlotWalkShape | Services/SramComparerSoE.cs:285-444 | the walk has 49 fields with the timer flag and 48 without; its first 24 fields are the buff entries; the timer is in it exactly when its flag is set; every other field is always in it |
| SramComparerSoE.NormalizedIndices | Services/SramComparerSoE.cs:36-41 | both selectors become 0-based; a set comparison selector is dropped exactly when the current one is unset or names the same slot, and is kept otherwise |
| SramComparerSoE.ModeOf | Services/SramComparerSoE.cs:49-54 | the comparison is cross-slot exactly when both normalised indices are set, single-slot exactly when only the current one is, and over all slots exactly when the current one is unset |
| SramComparerSoE.LoopPairs | Services/SramComparerSoE.cs:77-82 | every pair the loop visits has a slot index below the loop bound and no comparison index, and is the selected slot when a current slot is selected |
| SramComparerSoE.LoopPairsSelection | Services/SramComparerSoE.cs:77-82 | the slot loop visits slots 0, 1, 2, 3 in order when no current slot is selected, only the selected slot when it exists, and nothing when the selector names a slot past the last |
| SramComparerSoE.ComparedPairsSelection | Services/SramComparerSoE.cs:72-82 | a comparison visits exactly the one cross-slot pair when both selectors are set, and otherwise what the slot loop visits |
| SramComparerSoE.FieldDiffBytes | Services/SramComparerSoE.cs:292 | one field's count is at most the field's length |
| SramComparerSoE.SlotLoopVisits | Services/SramComparerSoE.cs:77-82 | the slot loop's tally equals the reference fold of one slot step over the visited pairs, in order |
| SramComparerSoE.SlotLoopSkips | Services/SramComparerSoE.cs:79 | a skipped index adds no pair and leaves the tally unchanged |
| SramComparerSoE.SlotLoopSteps | Services/SramComparerSoE.cs:81 | a compared index adds its pair, and extends the fold by that pair's step |
| SramComparerSoE.FoldSlotsSnoc | Services/SramComparerSoE.cs:77-82 | folding one more pair applies that pair's step to the tally so far |
| SramComparerSoE.SlotsTallyVisits | Services/SramComparerSoE.cs:69-86 | for an accepted selection, the slot region's tally equals the fold over the pairs it visits |
| SramComparerSoE.CompareSlots | Services/SramComparerSoE.cs:69-86 | the slot region returns the tally of the one cross-slot pair or of the slot loop; a cross-slot pair that names a missing slot is an error naming that slot |
| SramComparerSoE.OnCompareSram | Services/SramComparerSoE.cs:34-110 | the result is `CompareSram`: the slot tally plus the `Unknown19` count under the non-slot flag, with both summaries, or the error for a missing cross-slot slot |
| SramComparerSoE.CompareSramRejects | Services/SramComparerSoE.cs:72-73 | a comparison fails exactly when both selectors survive normalisation and one of them is past the last slot; the error names an index past the last slot |
| SramComparerSoE.CompareSaveSlots | Services/SramComparerSoE.cs:146-238 | the returned total is the running total plus the pair's count; the returned summaries are the old ones plus the pair's checksum and timer lines |
| SramComparerSoE.CompIndex | Services/SramComparerSoE.cs:148-149 | the comparison file's slot is the current slot when the comparison index is -1 and the given index otherwise; for a pair in range it is a valid slot |
| SramComparerSoE.UnsetComparisonIsSameSlot | Services/SramComparerSoE.cs:148-149 | an unset comparison index has the same effect as naming the current slot's own index |
| SramComparerSoE.EqualSlotsAddNothing | Services/SramComparerSoE.cs:170-178 | a byte-identical pair of slots leaves the total unchanged and adds no comparison-file line; the current file's values are recorded only under their "always" flags |
| SramComparerSoE.DifferingSlotCount | Services/SramComparerSoE.cs:197-235 | a differing pair adds the raw whole-slot count under the slot-byte flag, which is the number of differing positions and never 0; otherwise it adds the structured count; never both |
| SramComparerSoE.ChecksumLinesRecorded | Services/SramComparerSoE.cs:170-186 | earlier checksum lines are kept and at most two are added; the current file's checksum is added exactly when the "always" flag is set or the two checksums differ; the comparison file's checksum is added exactly when the slots differ |
| SramComparerSoE.TimerLinesRecorded | Services/SramComparerSoE.cs:173-186 | the same rule for the event timer under its own "always" flag |
| SramComparerSoE.EntriesRecorded | Services/SramComparerSoE.cs:170-186 | appending one slot's possible lines keeps the old lines and adds each line exactly under its rule |
| SramComparerSoE.NonSlotDiffBytes | Services/SramComparerSoE.cs:90-107 | the `Unknown19` count is at most the region's size, and it is non-zero exactly when the non-slot flag is set and the two regions differ |
| SramComparerSoE.NonSlotRegionIgnored | Services/SramComparerSoE.cs:90-108 | without the non-slot flag, changing the region outside the slots never changes the result |
| SramComparerSoE.NonSlotRegionCounted | Services/SramComparerSoE.cs:90-108 | with the non-slot flag, an accepted comparison's total is the slot total plus the number of differing `Unknown19` positions |
| SramComparerSoE.SlotLoopSlotsOnly | Services/SramComparerSoE.cs:77-82 | the slot loop reads only the save slots of the two files |
| SramComparerSoE.SelfComparisonIsZero | Services/SramComparerSoE.cs:77-82 | comparing a file with itself slot by slot gives no error and a total of 0 |
| SramComparerSoE.SlotLoopSelfIsZero | Services/SramComparerSoE.cs:77-82 | the slot loop's total over a file and itself is 0 |
| SramComparerSoE.OnCompareSaveSlot | Services/SramComparerSoE.cs:275-444 | the returned count is the structured count: field counts summed over the ordered walk the flags select |
| SramComparerSoE.StructuredCountSplit | Services/SramComparerSoE.cs:285-444 | the structured count is the boy's buff entries, then the dog's, then the walked chunk fields |
| SramComparerSoE.StructuredCountTimerGate | Services/SramComparerSoE.cs:337-343 | the structured count is the count of every ungated field, plus the event timer's count exactly when its "if different" flag is set |
| SramComparerSoE.StructuredCountOfEqualSlots | Services/SramComparerSoE.cs:275-444 | identical slots have a structured count of 0 |
| SramComparerSoE.SumDiffSymmetric | Services/SramComparerSoE.cs:275-444 | a summed field count does not depend on which file is the current one |
| SramComparerSoE.SlotDiffBytesSymmetric | Services/SramComparerSoE.cs:197-235 | one pair's count does not depend on which file is the current one |
| SramComparerSoE.SlotLoopSymmetric | Services/SramComparerSoE.cs:77-82 | the slot loop's total does not depend on which file is the current one |
| SramComparerSoE.CompareSramSymmetric | Services/SramComparerSoE.cs:34-110 | swapping the two files gives the same total, and for a cross-slot pair the selectors are swapped with them; the swapped comparison fails exactly when the original does, and a comparison without a cross-slot pair never fails |

## Left out

- All console output is left out: colours, padding, section headers, the closing banner, resource strings, `FormatAdditionalValues` and `EnsureMinConsoleWidth`. So are the two header lines each summary starts with (Services/SramComparerSoE.cs:64-65).
- Printing the summaries under the "if different" flags (Services/SramComparerSoE.cs:129-142) is printing only. The model stops at the summaries' contents.
- The checksum-status flag and `PrintSaveSlotChecksumValidation` (Services/SramComparerSoE.cs:44-45, 243-268) only print. They also depend on the file's `IsValid`, which is not part of this model.
- The second, printing call of `CompareValue` on a region that differs does not change any count. Neither does the `slotBufferDiffBytes > slotDiffBytes` test (Services/SramComparerSoE.cs:214), which only decides whether the raw comparison is printed. As the code at line 230 does, the raw count is always added under the slot-byte flag.
- `CompareValue` belongs to the title-independent base class, which is not part of this model. `DiffCount` assumes its count is the number of differing byte positions.
- The reflection-based lookup is replaced by `Layout.fieldExtent`, a map from each compared field to its extent within a slot. This covers `GetSaveSlotBufferOffset`, `BuildFieldName`, `GetFieldNameByOffset` and `GetWramOffset`. `KeyOfInjective` shows that no two fields share a key, so keying by field loses nothing.
- The offset and size tables (`SramOffsets`, `SramSizes`) are not part of this model. A `Layout` value carries them as parameters.
- The printed offset of the raw slot comparison uses the 1-based slot id (Services/SramComparerSoE.cs:212). It affects labels only, so it is not modelled.
- The struct decoders (`GetSegment`, `GetSegmentBytes`, `ToUShort`, `ToBytes`) are not part of this model. A file is given as its save slots' bytes and its `Unknown19` bytes. The checksum and the event timer are byte spans within a slot.
- The checksum and timer comparisons (`!=` at lines 170 and 173) are taken as value comparisons of those spans, because the fields' types are not part of this model.
- `GetSegment` is not part of this model. For a cross-slot pair that names a slot past the last, the model returns the error `SlotIndexOutOfRange` where the source would fail inside `GetSegment`.
- `NormalizedIndices`: the selectors are unbounded integers, so the 32-bit wrap-around of `- 1` at `int.MinValue` (Services/SramComparerSoE.cs:36-37) is not modelled. For that input the source gets `int.MaxValue`. The command handler offers selectors up to `GetMaxSaveSlotId()`, which is 4 (Services/CommandHandlerSoE.cs:157).
- The values of the inherited flags `SlotByteComparison`, `NonSlotComparison` and `ChecksumStatus` come from an enum that is not part of this model. They are taken as three bits that no other flag uses.
- The comparer's `ScriptedEventTimer` and `ScriptedEventTimerIfDifferent` are taken to be the enum's `Unknown12B` and `Unknown12BIfDifferent`.
- `StructDelimiter` is defined outside the comparer; the model takes it to be `.`.
- `OnCompareSaveSlot`: the chunk fields 16 to 21 are straight-line code in the source. The model walks them as an ordered table in one loop, with the same order and the same single gate. The buff groups keep the source's `for` loops.
- `OnCompareSram`: the slot comparison region (lines 69-86) is its own method, `CompareSlots`, which `OnCompareSram` calls.
- `Services/CommandHandlerSoE.cs` is not part of this model: command routing, configuration loading and savestate conversion are I/O around the comparer.
