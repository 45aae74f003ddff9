/**
 * The per-field comparison primitive. The comparer calls `CompareValue` of its
 * title-independent base class for every field; that base class is not part of
 * this model. Its count is taken to be the number of byte positions at which
 * two equally long byte sequences differ.
 */
module FieldComparer {

  type Byte = bv8

  /** The number of positions `i` with `a[i] != b[i]`. */
  function DiffCount(a: seq<Byte>, b: seq<Byte>): (n: nat)
    requires |a| == |b|
    ensures n <= |a|
    ensures n == 0 <==> a == b
  {
    if |a| == 0 then 0
    else
      var k := |a| - 1;
      assert a == a[..k] + [a[k]] && b == b[..k] + [b[k]];
      DiffCount(a[..k], b[..k]) + (if a[k] != b[k] then 1 else 0)
  }

  /** The differing positions, as a set: the reference definition of the count. */
  ghost function DiffPositions(a: seq<Byte>, b: seq<Byte>): set<int>
    requires |a| == |b|
  {
    set i | 0 <= i < |a| && a[i] != b[i]
  }

  /** `DiffCount` counts exactly the differing positions. */
  lemma {:induction false} DiffCountIsDiffPositions(a: seq<Byte>, b: seq<Byte>)
    requires |a| == |b|
    ensures DiffCount(a, b) == |DiffPositions(a, b)|
  {
    if |a| > 0 {
      var k := |a| - 1;
      DiffCountIsDiffPositions(a[..k], b[..k]);
      var rest := DiffPositions(a[..k], b[..k]);
      assert k !in rest;
      if a[k] != b[k] {
        assert DiffPositions(a, b) == rest + {k};
      } else {
        assert DiffPositions(a, b) == rest;
      }
    }
  }

  /** The count does not depend on which side is the current file. */
  lemma {:induction false} DiffCountSymmetric(a: seq<Byte>, b: seq<Byte>)
    requires |a| == |b|
    ensures DiffCount(a, b) == DiffCount(b, a)
  {
    if |a| > 0 {
      DiffCountSymmetric(a[..|a| - 1], b[..|b| - 1]);
    }
  }

  /** Counting two adjacent spans at once gives the sum of their counts. */
  lemma {:induction false} DiffCountAppend(a1: seq<Byte>, a2: seq<Byte>, b1: seq<Byte>, b2: seq<Byte>)
    requires |a1| == |b1| && |a2| == |b2|
    ensures DiffCount(a1 + a2, b1 + b2) == DiffCount(a1, b1) + DiffCount(a2, b2)
  {
    if |a2| > 0 {
      var k := |a2| - 1;
      assert (a1 + a2)[..|a1| + k] == a1 + a2[..k];
      assert (b1 + b2)[..|b1| + k] == b1 + b2[..k];
      DiffCountAppend(a1, a2[..k], b1, b2[..k]);
    } else {
      assert a1 + a2 == a1 && b1 + b2 == b1;
    }
  }
}
