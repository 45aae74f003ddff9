/**
 * The save-data layout the comparer walks: where the four save slots lie in an
 * S-RAM image, where the region outside the slots (`Unknown19`) lies, and the
 * ordered table of slot fields `OnCompareSaveSlot` compares.
 *
 * The byte offsets and sizes come from the title's offset tables and struct
 * definitions (`SramOffsets`, `SramSizes`, the reflection-based offset lookup),
 * which are not part of this model: a `Layout` value carries them. The ORDER of
 * the fields, their names and which one is flag-gated are fixed here, as the
 * comparer's code fixes them.
 */
module SaveSlotLayout {
  import opened FieldComparer
  import opened ComparisonFlagsSoE

  /** A span of bytes: start offset and length. */
  datatype Extent = Extent(offset: nat, length: nat)

  predicate Within(e: Extent, size: nat) {
    e.offset + e.length <= size
  }

  function Slice(s: seq<Byte>, e: Extent): (r: seq<Byte>)
    requires Within(e, |s|)
    ensures |r| == e.length
  {
    s[e.offset..e.offset + e.length]
  }

  /** The number of save slots; the comparer's slot loop runs over indices 0..3. */
  const SlotCount: nat := 4

  /**
   * How the comparer asks for a field's offset: by its (possibly indexed) name,
   * or, for a name that occurs in several structs, by the containing struct's
   * name and the field's name.
   */
  datatype LookupKey = Name(name: string) | TypeScoped(containingType: string, fieldName: string)

  /**
   * The title's memory map, as far as the comparer uses it. `saveSlotSize` is
   * the length of every save slot, `checksum` is relative to a
   * slot's start, `fieldExtent` gives each compared field's extent relative to
   * a slot's start (it stands for the reflection-based lookup under the field's
   * key, see `KeyOf`), and `unknown19Size` is the size of the one region
   * outside the slots that is compared.
   */
  datatype Layout = Layout(
    saveSlotSize: nat,
    checksum: Extent,
    fieldExtent: map<Field, Extent>,
    unknown19Size: nat)

  /** A loaded S-RAM file: the bytes of its four save slots and its `Unknown19` region. */
  datatype SramFile = SramFile(saveSlots: seq<seq<Byte>>, unknown19: seq<Byte>)

  /** The delimiter between a group entry and its member; assumed to be ".". */
  const StructDelimiter: string := "."

  /** The two buff-status groups of chunks 3 and 10. */
  datatype BuffGroup = BoyStatusBuffs | DogStatusBuffs

  /** The members of one `CharacterBuffStatus` entry, in comparison order. */
  datatype BuffPart = Id | Timer | Boost

  /** Entries per buff-status group. */
  const BuffEntryCount: nat := 4

  /** The index of an entry of a buff-status group. */
  type BuffIndex = i: nat | i < BuffEntryCount

  /** The single fields of chunks 16 to 21, named after the struct members they read. */
  datatype ChunkField =
    | CurrentEquippedWeapon | Unknown9 | EquippedAlchemies | Unknown11 | ScriptedEventTimer
    | ControlsPrefsConfiguration
    | Unknown13
    | Unknown14 | Unknown14B | GourdSpots | IngredientSniffSpots | Unknown15Data
    | Unknown16A | Unknown16B | Unknown16CData
    | Unknown17A | Unknown17B
    | Unknown17C | Chunk20CurrentEquippedWeapon | Unknown17D | Unknown17E | LastLandingLocation
    | Unknown17F | Unknown17G | Unknown18

  /** A field `OnCompareSaveSlot` compares. */
  datatype Field = BuffMember(group: BuffGroup, index: BuffIndex, part: BuffPart) | ChunkMember(chunk: ChunkField)

  /** The one flag-gated field: the scripted event timer ("Unknown 12"). */
  const TimerField: Field := ChunkMember(ScriptedEventTimer)

  function GroupName(g: BuffGroup): string {
    match g
    case BoyStatusBuffs => "BoyStatusBuffs"
    case DogStatusBuffs => "DogStatusBuffs"
  }

  function PartName(p: BuffPart): string {
    match p
    case Id => "Id"
    case Timer => "Timer"
    case Boost => "Boost"
  }

  /** The key under which the comparer looks a chunk field up. */
  function ChunkKey(f: ChunkField): LookupKey {
    match f
    case CurrentEquippedWeapon => Name("CurrentEquippedWeapon")
    case Unknown9 => Name("Unknown9")
    case EquippedAlchemies => Name("EquippedAlchemies")
    case Unknown11 => Name("Unknown11")
    case ScriptedEventTimer => Name("ScriptedEventTimer")
    case ControlsPrefsConfiguration => Name("ControlsPrefs_Configuration")
    case Unknown13 => Name("Unknown13")
    case Unknown14 => Name("Unknown14")
    case Unknown14B => Name("Unknown14B")
    case GourdSpots => Name("GourdSpots")
    case IngredientSniffSpots => Name("IngredientSniffSpots")
    case Unknown15Data => TypeScoped("Unknown15", "Data")
    case Unknown16A => Name("Unknown16A")
    case Unknown16B => Name("Unknown16B")
    case Unknown16CData => TypeScoped("Unknown16C", "Data")
    case Unknown17A => Name("Unknown17A")
    case Unknown17B => Name("Unknown17B")
    case Unknown17C => Name("Unknown17C")
    case Chunk20CurrentEquippedWeapon => TypeScoped("Chunk20", "CurrentEquippedWeapon")
    case Unknown17D => Name("Unknown17D")
    case Unknown17E => Name("Unknown17E")
    case LastLandingLocation => Name("LastLandingLocation")
    case Unknown17F => Name("Unknown17F")
    case Unknown17G => Name("Unknown17G")
    case Unknown18 => Name("Unknown18")
  }

  /** The key under which the comparer looks a field up; buff members by their indexed name. */
  function KeyOf(f: Field): LookupKey {
    match f
    case BuffMember(g, i, p) => Name(BuildIndexName(GroupName(g), i, PartName(p)))
    case ChunkMember(c) => ChunkKey(c)
  }

  /** A buff member's name: the group's name, the entry's digit, the delimiter, the member's name. */
  lemma BuffKeyShape(g: BuffGroup, i: BuffIndex, p: BuffPart)
    ensures var name := BuildIndexName(GroupName(g), i, PartName(p));
            && |name| == 16 + |PartName(p)|
            && name[..14] == GroupName(g)
            && name[14] == ('0' as int + i) as char
            && name[15] == '.'
            && name[16..] == PartName(p)
  {
    assert NatToString(i) == [('0' as int + i) as char];
  }

  /** No chunk field's name has the delimiter where a buff member's name has it. */
  lemma ChunkKeyUndelimited(c: ChunkField)
    ensures ChunkKey(c).Name? ==> |ChunkKey(c).name| < 16 || ChunkKey(c).name[15] != '.'
  {
  }

  /** Different fields are looked up under different keys, so a map keyed by field loses nothing. */
  lemma KeyOfInjective(f: Field, g: Field)
    requires KeyOf(f) == KeyOf(g)
    ensures f == g
  {
    match f {
      case BuffMember(g1, i1, p1) =>
        BuffKeyShape(g1, i1, p1);
        match g {
          case BuffMember(g2, i2, p2) =>
            BuffKeyInjective(g1, i1, p1, g2, i2, p2);
          case ChunkMember(c2) =>
            ChunkKeyUndelimited(c2);
        }
      case ChunkMember(c1) =>
        if g.BuffMember? {
          BuffKeyShape(g.group, g.index, g.part);
          ChunkKeyUndelimited(c1);
        } else {
          ChunkKeyInjective(c1, g.chunk);
        }
    }
  }

  /** Two buff members share a name only if they are the same member. */
  lemma BuffKeyInjective(g1: BuffGroup, i1: BuffIndex, p1: BuffPart, g2: BuffGroup, i2: BuffIndex, p2: BuffPart)
    requires BuildIndexName(GroupName(g1), i1, PartName(p1)) == BuildIndexName(GroupName(g2), i2, PartName(p2))
    ensures g1 == g2 && i1 == i2 && p1 == p2
  {
    BuffKeyShape(g1, i1, p1);
    BuffKeyShape(g2, i2, p2);
    var name := BuildIndexName(GroupName(g1), i1, PartName(p1));
    assert GroupName(g1) == name[..14] == GroupName(g2);
    assert PartName(p1) == name[16..] == PartName(p2);
  }

  /** The chunk fields' keys are pairwise different. */
  lemma ChunkKeyInjective(c: ChunkField, d: ChunkField)
    requires ChunkKey(c) == ChunkKey(d)
    ensures c == d
  {
    ChunkOfKeyInverts(c);
    ChunkOfKeyInverts(d);
  }

  /**
   * Reads a chunk field back from its key by the key's length and last two
   * characters, which tell the 25 keys apart; any other key gives `Unknown18`.
   * It models nothing in the comparer: it exists only as the inverse that the
   * proof of `ChunkKeyInjective` goes through.
   */
  function ChunkOfKey(k: LookupKey): ChunkField {
    match k
    case TypeScoped(t, _) => if |t| == 9 then Unknown15Data else if |t| == 10 then Unknown16CData else Chunk20CurrentEquippedWeapon
    case Name(s) =>
      if |s| < 2 then Unknown18
      else
        var n, a, b := |s|, s[|s| - 1], s[|s| - 2];
        if n == 21 then CurrentEquippedWeapon
        else if n == 8 then Unknown9
        else if n == 17 then EquippedAlchemies
        else if n == 9 then (if a == '1' then Unknown11 else if a == '3' then Unknown13 else if a == '4' then Unknown14 else Unknown18)
        else if n == 18 then ScriptedEventTimer
        else if n == 27 then ControlsPrefsConfiguration
        else if n == 20 then IngredientSniffSpots
        else if n == 19 then LastLandingLocation
        else if a == 'B' && b == '4' then Unknown14B
        else if a == 's' then GourdSpots
        else if a == 'A' then (if b == '6' then Unknown16A else Unknown17A)
        else if a == 'B' then (if b == '6' then Unknown16B else Unknown17B)
        else if a == 'C' then Unknown17C
        else if a == 'D' then Unknown17D
        else if a == 'E' then Unknown17E
        else if a == 'F' then Unknown17F
        else Unknown17G
  }

  /** `ChunkOfKey` inverts `ChunkKey`. */
  lemma ChunkOfKeyInverts(c: ChunkField)
    ensures ChunkOfKey(ChunkKey(c)) == c
  {
    match c
    case CurrentEquippedWeapon =>
    case Unknown9 =>
    case EquippedAlchemies =>
    case Unknown11 =>
    case ScriptedEventTimer =>
    case ControlsPrefsConfiguration =>
    case Unknown13 =>
    case Unknown14 =>
    case Unknown14B =>
    case GourdSpots =>
    case IngredientSniffSpots =>
    case Unknown15Data =>
    case Unknown16A =>
    case Unknown16B =>
    case Unknown16CData =>
    case Unknown17A =>
    case Unknown17B =>
    case Unknown17C =>
    case Chunk20CurrentEquippedWeapon =>
    case Unknown17D =>
    case Unknown17E =>
    case LastLandingLocation =>
    case Unknown17F =>
    case Unknown17G =>
    case Unknown18 =>
  }

  // ---------------------------------------------------------------------------
  // Slot geometry

  /** The checksum lies within a slot, and every compared field has an extent within a slot. */
  ghost predicate ValidLayout(l: Layout) {
    && Within(l.checksum, l.saveSlotSize)
    && (forall f: Field :: f in l.fieldExtent && Within(l.fieldExtent[f], l.saveSlotSize))
  }

  /** A file of this layout: four slots of the slot size and an `Unknown19` region of its size. */
  predicate FileFits(l: Layout, file: SramFile) {
    && |file.saveSlots| == SlotCount
    && (forall i :: 0 <= i < |file.saveSlots| ==> |file.saveSlots[i]| == l.saveSlotSize)
    && |file.unknown19| == l.unknown19Size
  }

  /** `GetSegmentBytes(index)`: the bytes of one save slot. */
  function SlotBytes(l: Layout, file: SramFile, index: nat): (slot: seq<Byte>)
    requires FileFits(l, file) && index < SlotCount
    ensures |slot| == l.saveSlotSize
  {
    file.saveSlots[index]
  }

  /** A slot's two checksum bytes. */
  function ChecksumOf(l: Layout, slot: seq<Byte>): seq<Byte>
    requires ValidLayout(l) && |slot| == l.saveSlotSize
  {
    Slice(slot, l.checksum)
  }

  /** A slot's scripted event timer bytes. */
  function TimerOf(l: Layout, slot: seq<Byte>): seq<Byte>
    requires ValidLayout(l) && |slot| == l.saveSlotSize
  {
    Slice(slot, l.fieldExtent[TimerField])
  }

  // ---------------------------------------------------------------------------
  // Indexed names

  predicate IsDecimal(s: string) {
    forall i :: 0 <= i < |s| ==> '0' <= s[i] <= '9'
  }

  /** The decimal rendering of `n`, as `int.ToString()` gives it. */
  function NatToString(n: nat): (s: string)
    ensures |s| > 0 && IsDecimal(s)
    ensures |s| > 1 ==> s[0] != '0'
  {
    if n < 10 then [('0' as int + n) as char]
    else NatToString(n / 10) + [('0' as int + n % 10) as char]
  }

  /** The value of a string of decimal digits. */
  function ParseDecimal(s: string): nat
    requires IsDecimal(s)
  {
    if s == [] then 0
    else ParseDecimal(s[..|s| - 1]) * 10 + (s[|s| - 1] as int - '0' as int)
  }

  lemma {:induction false} ParseNatToString(n: nat)
    ensures ParseDecimal(NatToString(n)) == n
  {
    if n >= 10 {
      var s := NatToString(n);
      assert s[..|s| - 1] == NatToString(n / 10);
      ParseNatToString(n / 10);
    }
  }

  /** `BuildIndexName`: the name of member `fieldName` of entry `index` of group `parentName`. */
  function BuildIndexName(parentName: string, index: nat, fieldName: string): (name: string)
    ensures |name| > |parentName| + |StructDelimiter| + |fieldName|
    ensures name[..|parentName|] == parentName
    ensures name[|name| - |fieldName|..] == fieldName
    ensures name[|name| - |fieldName| - 1] == '.'
  {
    parentName + NatToString(index) + StructDelimiter + fieldName
  }

  /**
   * An indexed name is the parent's name, then the index in decimal, then the
   * delimiter and the member's name; the index can be read back from it.
   */
  lemma BuildIndexNameForm(parentName: string, index: nat, fieldName: string)
    ensures var name := BuildIndexName(parentName, index, fieldName);
            var tail := |name| - |StructDelimiter| - |fieldName|;
            && |parentName| < tail
            && name[..|parentName|] == parentName
            && name[tail..] == StructDelimiter + fieldName
            && IsDecimal(name[|parentName|..tail])
            && ParseDecimal(name[|parentName|..tail]) == index
  {
    var name := BuildIndexName(parentName, index, fieldName);
    var tail := |name| - |StructDelimiter| - |fieldName|;
    assert name[|parentName|..tail] == NatToString(index);
    ParseNatToString(index);
  }

  /** Different entries of one group get different names. */
  lemma BuildIndexNameInjective(parentName: string, i: nat, j: nat, fieldName: string)
    requires BuildIndexName(parentName, i, fieldName) == BuildIndexName(parentName, j, fieldName)
    ensures i == j
  {
    BuildIndexNameForm(parentName, i, fieldName);
    BuildIndexNameForm(parentName, j, fieldName);
  }

  // ---------------------------------------------------------------------------
  // The field table

  /** The members of one buff entry in comparison order. */
  const BuffParts: seq<BuffPart> := [Id, Timer, Boost]

  /** The members of entries 0 .. count-1 of a buff-status group, entry by entry. */
  function BuffFields(g: BuffGroup, count: nat): (fs: seq<Field>)
    requires count <= BuffEntryCount
    ensures |fs| == 3 * count
  {
    seq(3 * count, k requires 0 <= k < 3 * count => BuffMember(g, k / 3, BuffParts[k % 3]))
  }

  /** Entry `index` of group `g`: its three members in order. */
  function BuffEntry(g: BuffGroup, index: BuffIndex): seq<Field> {
    [BuffMember(g, index, Id), BuffMember(g, index, Timer), BuffMember(g, index, Boost)]
  }

  /** Each entry of a group adds its three members after those of the entries before it. */
  lemma BuffFieldsStep(g: BuffGroup, index: BuffIndex)
    ensures BuffFields(g, index + 1) == BuffFields(g, index) + BuffEntry(g, index)
  {
    var next := BuffFields(g, index + 1);
    var prev := BuffFields(g, index);
    forall k | 0 <= k < |next|
      ensures next[k] == (prev + BuffEntry(g, index))[k]
    {
      if k < 3 * index {
        assert next[k] == prev[k];
      } else {
        assert k / 3 == index;
      }
    }
  }

  /** Chunk 16 up to the event timer. */
  const ChunkHead: seq<Field> :=
    [ChunkMember(CurrentEquippedWeapon), ChunkMember(Unknown9), ChunkMember(EquippedAlchemies),
     ChunkMember(Unknown11)]

  /** Chunk 16 after the event timer, then chunks 17 to 21. */
  const ChunkTail: seq<Field> :=
    [ChunkMember(ControlsPrefsConfiguration),
     ChunkMember(Unknown13),
     ChunkMember(Unknown14), ChunkMember(Unknown14B), ChunkMember(GourdSpots),
     ChunkMember(IngredientSniffSpots), ChunkMember(Unknown15Data),
     ChunkMember(Unknown16A), ChunkMember(Unknown16B), ChunkMember(Unknown16CData),
     ChunkMember(Unknown17A), ChunkMember(Unknown17B),
     ChunkMember(Unknown17C), ChunkMember(Chunk20CurrentEquippedWeapon), ChunkMember(Unknown17D),
     ChunkMember(Unknown17E), ChunkMember(LastLandingLocation),
     ChunkMember(Unknown17F), ChunkMember(Unknown17G), ChunkMember(Unknown18)]

  /** Chunks 16 to 21, in the order the comparer reads them. */
  function ChunkTable(): seq<Field> {
    ChunkHead + [TimerField] + ChunkTail
  }

  lemma TimerOnlyOnce()
    ensures TimerField !in ChunkHead && TimerField !in ChunkTail
  {
  }

  /** The fields `OnCompareSaveSlot` compares, in order, before any flag is applied. */
  function SlotTable(): seq<Field> {
    BuffFields(BoyStatusBuffs, BuffEntryCount) + BuffFields(DogStatusBuffs, BuffEntryCount) + ChunkHead + [TimerField] + ChunkTail
  }

  /** Whether a field is compared under `flags`: only the event timer has a gate. */
  predicate Counted(f: Field, flags: Flags) {
    f != TimerField || HasFlag(flags, ScriptedEventTimerIfDifferent)
  }

  /** The fields of `fs` that are compared under `flags`, in order. */
  function Included(fs: seq<Field>, flags: Flags): seq<Field> {
    if fs == [] then []
    else
      var last := fs[|fs| - 1];
      Included(fs[..|fs| - 1], flags) + (if Counted(last, flags) then [last] else [])
  }

  /** The fields one slot comparison walks under `flags`. */
  function SlotWalk(flags: Flags): seq<Field> {
    Included(SlotTable(), flags)
  }

  lemma {:induction false} IncludedAppend(a: seq<Field>, b: seq<Field>, flags: Flags)
    ensures Included(a + b, flags) == Included(a, flags) + Included(b, flags)
  {
    if b == [] {
      assert a + b == a;
    } else {
      var k := |b| - 1;
      assert (a + b)[..|a + b| - 1] == a + b[..k];
      IncludedAppend(a, b[..k], flags);
    }
  }

  /** A stretch without the event timer is walked whole. */
  lemma {:induction false} IncludedUngated(fs: seq<Field>, flags: Flags)
    requires TimerField !in fs
    ensures Included(fs, flags) == fs
  {
    if fs != [] {
      var k := |fs| - 1;
      assert fs == fs[..k] + [fs[k]];
      IncludedUngated(fs[..k], flags);
    }
  }

  /** A field is walked exactly when it is in the table and its gate is open. */
  lemma {:induction false} IncludedMembers(fs: seq<Field>, flags: Flags, f: Field)
    ensures f in Included(fs, flags) <==> f in fs && Counted(f, flags)
  {
    if fs != [] {
      var k := |fs| - 1;
      assert fs == fs[..k] + [fs[k]];
      IncludedMembers(fs[..k], flags, f);
    }
  }

  lemma BuffFieldsUngated(g: BuffGroup, count: nat)
    requires count <= BuffEntryCount
    ensures TimerField !in BuffFields(g, count)
  {
  }

  /** The walk is the table with the event timer cut out when its flag is clear. */
  lemma SlotWalkSplit(flags: Flags)
    ensures SlotWalk(flags)
            == BuffFields(BoyStatusBuffs, 4) + BuffFields(DogStatusBuffs, 4) + ChunkHead
               + (if HasFlag(flags, ScriptedEventTimerIfDifferent) then [TimerField] else [])
               + ChunkTail
  {
    var buffs := BuffFields(BoyStatusBuffs, 4) + BuffFields(DogStatusBuffs, 4);
    BuffFieldsUngated(BoyStatusBuffs, 4);
    BuffFieldsUngated(DogStatusBuffs, 4);
    var head := ChunkHead;
    var tail := ChunkTail;
    TimerOnlyOnce();
    IncludedAppend(buffs + head + [TimerField], tail, flags);
    IncludedAppend(buffs + head, [TimerField], flags);
    IncludedAppend(buffs, head, flags);
    IncludedUngated(buffs, flags);
    IncludedUngated(head, flags);
    IncludedUngated(tail, flags);
    assert Included([TimerField], flags) == Included([], flags) + (if Counted(TimerField, flags) then [TimerField] else []);
  }

  /**
   * The walk consists of the 4 boy and 4 dog buff entries (three members each),
   * then the chunk fields; the event timer is in it exactly when its
   * "if different" flag is set, and every other field always is.
   */
  lemma SlotWalkShape(flags: Flags)
    ensures var walk := SlotWalk(flags);
            && |walk| == (if HasFlag(flags, ScriptedEventTimerIfDifferent) then 49 else 48)
            && walk[..24] == BuffFields(BoyStatusBuffs, 4) + BuffFields(DogStatusBuffs, 4)
            && (TimerField in walk <==> HasFlag(flags, ScriptedEventTimerIfDifferent))
            && (forall f :: f != TimerField ==> (f in walk <==> f in SlotTable()))
  {
    SlotWalkSplit(flags);
    forall f | f != TimerField
      ensures f in SlotWalk(flags) <==> f in SlotTable()
    {
      IncludedMembers(SlotTable(), flags, f);
    }
    IncludedMembers(SlotTable(), flags, TimerField);
  }
}
