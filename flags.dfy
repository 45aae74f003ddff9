/**
 * The comparison flags of the Secret of Evermore comparer: a 32-bit flag set
 * (`ComparisonFlagsSoE : uint`) whose members are tested with `Enum.HasFlag`,
 * that is, "every bit of the flag is set in the value".
 */
module ComparisonFlagsSoE {

  /** The underlying `uint` of the flag enum. */
  type Flags = bv32

  /** `value.HasFlag(flag)`: every bit of `flag` is also set in `value`. */
  predicate HasFlag(value: Flags, flag: Flags) {
    value & flag == flag
  }

  // The three members inherited from the title-independent flag enum. Their
  // values are not part of this model; they are taken as three single bits
  // that no member of the title's own enum uses.

  /** Whole-slot byte-by-byte comparison. */
  const SlotByteComparison: Flags := 1 << 0
  /** Comparison of the region outside the save slots. */
  const NonSlotComparison: Flags := 1 << 1
  /** Printing of every slot's checksum validity. */
  const ChecksumStatus: Flags := 1 << 6

  /** `SlotByteByByteComparison = ComparisonFlags.SlotByteComparison` */
  const SlotByteByByteComparison: Flags := SlotByteComparison
  /** `NonSlotByteByByteComparison = ComparisonFlags.NonSlotComparison` */
  const NonSlotByteByByteComparison: Flags := NonSlotComparison

  /** Record a slot's checksum only when it differs between the files. */
  const ChecksumIfDifferent: Flags := 1 << 2
  /** Record every compared slot's checksum; carries the bit above as well. */
  const Checksum: Flags := (1 << 3) | ChecksumIfDifferent

  /** The scripted event timer ("Unknown 12") only when it differs. */
  const Unknown12BIfDifferent: Flags := 1 << 4
  /** The scripted event timer always; carries the bit above as well. */
  const Unknown12B: Flags := (1 << 5) | Unknown12BIfDifferent

  /** The comparer's name for `Unknown12BIfDifferent`. */
  const ScriptedEventTimerIfDifferent: Flags := Unknown12BIfDifferent
  /** The comparer's name for `Unknown12B`. */
  const ScriptedEventTimer: Flags := Unknown12B

  /** The numeric values the enum declares. */
  lemma DeclaredValues()
    ensures ChecksumIfDifferent == 4 && Checksum == 12
    ensures Unknown12BIfDifferent == 16 && Unknown12B == 48
  {
  }

  /** `HasFlag` as a set test: setting the flag's bits again leaves the value unchanged. */
  lemma HasFlagMeansBitsSet(value: Flags, flag: Flags)
    ensures HasFlag(value, flag) ==> value | flag == value
    ensures value | flag == value ==> HasFlag(value, flag)
  {
  }

  /** The empty flag is always present, and OR-ing a flag into a value sets it. */
  lemma HasFlagOfSetBits(value: Flags, flag: Flags)
    ensures HasFlag(value, 0)
    ensures HasFlag(value | flag, flag)
  {
  }

  /** Having an "always" flag means having its "if different" flag. */
  lemma AlwaysImpliesIfDifferent(value: Flags)
    ensures HasFlag(value, Checksum) ==> HasFlag(value, ChecksumIfDifferent)
    ensures HasFlag(value, Unknown12B) ==> HasFlag(value, Unknown12BIfDifferent)
  {
  }

  /** The converse fails: the "always" flags carry one extra bit (1 << 3, 1 << 5). */
  lemma IfDifferentDoesNotImplyAlways()
    ensures HasFlag(ChecksumIfDifferent, ChecksumIfDifferent) && !HasFlag(ChecksumIfDifferent, Checksum)
    ensures HasFlag(Unknown12BIfDifferent, Unknown12BIfDifferent) && !HasFlag(Unknown12BIfDifferent, Unknown12B)
  {
  }

  /** The checksum pair and the timer pair share no bit: setting one pair leaves the other's tests unchanged. */
  lemma ChecksumAndTimerDisjoint(value: Flags)
    ensures Checksum & Unknown12B == 0
    ensures HasFlag(value | Checksum, Unknown12BIfDifferent) <==> HasFlag(value, Unknown12BIfDifferent)
    ensures HasFlag(value | Checksum, Unknown12B) <==> HasFlag(value, Unknown12B)
    ensures HasFlag(value | Unknown12B, ChecksumIfDifferent) <==> HasFlag(value, ChecksumIfDifferent)
    ensures HasFlag(value | Unknown12B, Checksum) <==> HasFlag(value, Checksum)
  {
  }

  /**
   * The inherited bits' values are chosen by this model, not read from the
   * source; this lemma records the assumption made about them: they are
   * independent of each other and of the title's bits.
   */
  lemma InheritedBitsIndependent()
    ensures SlotByteComparison & NonSlotComparison == 0
    ensures SlotByteComparison & ChecksumStatus == 0 && NonSlotComparison & ChecksumStatus == 0
    ensures (SlotByteComparison | NonSlotComparison | ChecksumStatus) & (Checksum | Unknown12B) == 0
  {
  }
}
