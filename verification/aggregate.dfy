/** The arithmetic behind `np.mean` over a rectangular selection of a 2-D
    array: the selection is read in row-major order and its values averaged
    exactly (intensities are reals, not IEEE doubles). */
module Aggregate {
  import opened Wrappers

  function Sum(vs: seq<real>): real {
    if vs == [] then 0.0 else vs[0] + Sum(vs[1..])
  }

  /** `np.mean`: the sum divided by the number of values; an empty array has no
      mean (numpy answers NaN). */
  function Mean(vs: seq<real>): (m: Option<real>)
    ensures m.Some? <==> vs != []
  {
    if vs == [] then None else Some(Sum(vs) / |vs| as real)
  }

  /** Row `x` of a rectangle, columns `y0 .. y1-1`. */
  function Row(at: (int, int) -> real, x: int, y0: int, y1: int): (row: seq<real>)
    requires y0 <= y1
    ensures |row| == y1 - y0
    ensures forall j :: 0 <= j < |row| ==> row[j] == at(x, y0 + j)
  {
    seq(y1 - y0, j => at(x, y0 + j))
  }

  /** The values of rows `x0 .. x1-1` and columns `y0 .. y1-1`, flattened in
      numpy's row-major (C) order: one full row after the other. */
  function Block(at: (int, int) -> real, x0: int, x1: int, y0: int, y1: int): (vs: seq<real>)
    requires x0 <= x1 && y0 <= y1
    ensures |vs| == (x1 - x0) * (y1 - y0)
    decreases x1 - x0
  {
    if x0 == x1 then []
    else
      var rest := Block(at, x0 + 1, x1, y0, y1);
      assert (x1 - x0) * (y1 - y0) == (y1 - y0) + (x1 - x0 - 1) * (y1 - y0);
      Row(at, x0, y0, y1) + rest
  }

  /** Reference sum of a rectangle, written as the double sum over rows and
      then columns, with no flattening. */
  function RowSum(at: (int, int) -> real, x: int, y0: int, y1: int): real
    requires y0 <= y1
    decreases y1 - y0
  {
    if y0 == y1 then 0.0 else at(x, y0) + RowSum(at, x, y0 + 1, y1)
  }

  function RectSum(at: (int, int) -> real, x0: int, x1: int, y0: int, y1: int): real
    requires x0 <= x1 && y0 <= y1
    decreases x1 - x0
  {
    if x0 == x1 then 0.0 else RowSum(at, x0, y0, y1) + RectSum(at, x0 + 1, x1, y0, y1)
  }

  lemma {:induction false} SumAppend(a: seq<real>, b: seq<real>)
    ensures Sum(a + b) == Sum(a) + Sum(b)
  {
    if a != [] {
      assert (a + b)[1..] == a[1..] + b;
      SumAppend(a[1..], b);
    } else {
      assert a + b == b;
    }
  }

  lemma {:induction false} SumOfRow(at: (int, int) -> real, x: int, y0: int, y1: int)
    requires y0 <= y1
    ensures Sum(Row(at, x, y0, y1)) == RowSum(at, x, y0, y1)
    decreases y1 - y0
  {
    if y0 < y1 {
      assert Row(at, x, y0, y1)[1..] == Row(at, x, y0 + 1, y1);
      SumOfRow(at, x, y0 + 1, y1);
    }
  }

  /** Flattening in row-major order does not change the total: the sum numpy
      takes equals the double sum over the rectangle. */
  lemma {:induction false} SumOfBlock(at: (int, int) -> real, x0: int, x1: int, y0: int, y1: int)
    requires x0 <= x1 && y0 <= y1
    ensures Sum(Block(at, x0, x1, y0, y1)) == RectSum(at, x0, x1, y0, y1)
    decreases x1 - x0
  {
    if x0 < x1 {
      SumAppend(Row(at, x0, y0, y1), Block(at, x0 + 1, x1, y0, y1));
      SumOfRow(at, x0, y0, y1);
      SumOfBlock(at, x0 + 1, x1, y0, y1);
    }
  }

  /** If every value lies in `[lo, hi]`, so does their sum scaled by the count. */
  lemma {:induction false} SumBounds(vs: seq<real>, lo: real, hi: real)
    requires forall k :: 0 <= k < |vs| ==> lo <= vs[k] <= hi
    ensures lo * |vs| as real <= Sum(vs) <= hi * |vs| as real
  {
    if vs != [] {
      SumBounds(vs[1..], lo, hi);
      assert lo * |vs| as real == lo + lo * |vs[1..]| as real;
      assert hi * |vs| as real == hi + hi * |vs[1..]| as real;
    }
  }

  /** The mean of values that all lie in `[lo, hi]` lies in `[lo, hi]`. */
  lemma MeanBounds(vs: seq<real>, lo: real, hi: real)
    requires vs != []
    requires forall k :: 0 <= k < |vs| ==> lo <= vs[k] <= hi
    ensures lo <= Mean(vs).value <= hi
  {
    SumBounds(vs, lo, hi);
    var n, m := |vs| as real, Mean(vs).value;
    assert Sum(vs) == m * n;
    assert 0.0 <= (m - lo) * n && 0.0 <= (hi - m) * n;
  }

  /** Every value of the flattened block is a value of the rectangle, so bounds
      on the rectangle carry over to the block. */
  lemma {:induction false} BlockBounds(at: (int, int) -> real, x0: int, x1: int, y0: int, y1: int, lo: real, hi: real)
    requires x0 <= x1 && y0 <= y1
    requires forall x, y :: x0 <= x < x1 && y0 <= y < y1 ==> lo <= at(x, y) <= hi
    ensures forall k :: 0 <= k < |Block(at, x0, x1, y0, y1)| ==> lo <= Block(at, x0, x1, y0, y1)[k] <= hi
    decreases x1 - x0
  {
    if x0 < x1 {
      BlockBounds(at, x0 + 1, x1, y0, y1, lo, hi);
      var row := Row(at, x0, y0, y1);
      assert forall j :: 0 <= j < |row| ==> lo <= row[j] <= hi by {
        forall j | 0 <= j < |row| ensures lo <= row[j] <= hi {
          assert row[j] == at(x0, y0 + j);
        }
      }
    }
  }

  /** Two functions that agree on a rectangle flatten it to the same block. */
  lemma {:induction false} BlockAgrees(f: (int, int) -> real, g: (int, int) -> real, x0: int, x1: int, y0: int, y1: int)
    requires x0 <= x1 && y0 <= y1
    requires forall x, y :: x0 <= x < x1 && y0 <= y < y1 ==> f(x, y) == g(x, y)
    ensures Block(f, x0, x1, y0, y1) == Block(g, x0, x1, y0, y1)
    decreases x1 - x0
  {
    if x0 < x1 {
      BlockAgrees(f, g, x0 + 1, x1, y0, y1);
      assert Row(f, x0, y0, y1) == Row(g, x0, y0, y1);
    }
  }
}
