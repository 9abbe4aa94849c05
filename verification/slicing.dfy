/** Python's basic slicing `a[lo:hi]` (step 1) on one axis of an array, as numpy
    applies it to each axis of `data[x1:x2, y1:y2, ...]`. */
module Slicing {
  import opened IntMath

  /** The position a slice bound denotes before clamping: a negative bound
      counts from the end of the axis. */
  function Resolve(a: int, n: nat): int {
    if a < 0 then a + n else a
  }

  /** Index `i` of an axis of length `n` is selected by the slice `a:b`. This is
      the reference meaning of a slice, independent of how it is computed. */
  predicate Picks(a: int, b: int, n: nat, i: int) {
    0 <= i < n && Resolve(a, n) <= i < Resolve(b, n)
  }

  /** A run of consecutive indices `lo .. hi-1`. */
  datatype Span = Span(lo: nat, hi: nat) {
    predicate Valid() { lo <= hi }
    function Length(): nat requires Valid() { hi - lo }
  }

  /** One slice bound clamped into `0 .. n`, the way CPython normalises it. */
  function ClampBound(a: int, n: nat): (c: nat)
    ensures c <= n
  {
    var r := Resolve(a, n);
    if r < 0 then 0 else if r > n then n else r
  }

  /** The indices the slice `a:b` selects on an axis of length `n`: exactly the
      ones `Picks` names, as one run inside the axis (empty when the resolved
      upper bound does not exceed the lower one). */
  function SliceSpan(a: int, b: int, n: nat): (s: Span)
    ensures s.Valid() && s.hi <= n
    ensures forall i :: s.lo <= i < s.hi <==> Picks(a, b, n, i)
  {
    var lo := ClampBound(a, n);
    var hi := ClampBound(b, n);
    Span(lo, if hi < lo then lo else hi)
  }

  /** For non-negative bounds the slice keeps `min(a, n) .. min(b, n) - 1`, and
      nothing at all when `a >= b`. */
  lemma NonNegativeSlice(a: int, b: int, n: nat)
    requires 0 <= a && 0 <= b
    ensures SliceSpan(a, b, n).lo == Min(a, n)
    ensures a < b ==> SliceSpan(a, b, n).hi == Min(b, n)
    ensures b <= a ==> SliceSpan(a, b, n).Length() == 0
  {
  }
}
