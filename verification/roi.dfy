/** The region-of-interest analysis: capturing the box the user drags, and the
    average intensity inside it, on one slab and through time. */
module RoiAnalysis {
  import opened Wrappers
  import opened Slicing
  import opened Aggregate
  import opened Imaging

  /** The box `roi_coords = [x1, x2, y1, y2]`: fields in the order of that list,
      corners as captured (not sorted). */
  datatype Roi = Roi(x1: int, x2: int, y1: int, y2: int)

  /** The data coordinates `(xdata, ydata)` of a mouse event. */
  datatype Point = Point(x: real, y: real)

  /** `n` is what Python's `int()` gives for the float `r`: `r` rounded toward
      zero. */
  predicate IsTruncation(n: int, r: real) {
    (0.0 <= r ==> n as real <= r < n as real + 1.0) &&
    (r < 0.0 ==> n as real - 1.0 < r <= n as real)
  }

  function Trunc(r: real): (n: int)
    ensures IsTruncation(n, r)
  {
    if 0.0 <= r then r.Floor else -((-r).Floor)
  }

  /** Truncation is a function: `IsTruncation` pins down one integer. */
  lemma TruncationIsUnique(m: int, n: int, r: real)
    requires IsTruncation(m, r) && IsTruncation(n, r)
    ensures m == n
  {
  }

  /** The box captured from the press and release events of a drag: each
      coordinate truncated toward zero, packed as `[x1, x2, y1, y2]` with the
      press corner first on each axis. */
  function CaptureRoi(press: Point, release: Point): (roi: Roi)
    ensures IsTruncation(roi.x1, press.x) && IsTruncation(roi.x2, release.x)
    ensures IsTruncation(roi.y1, press.y) && IsTruncation(roi.y2, release.y)
  {
    Roi(Trunc(press.x), Trunc(release.x), Trunc(press.y), Trunc(release.y))
  }

  /** Corners that already sit on whole numbers are captured unchanged. */
  lemma CaptureOfWholeCoordinates(x1: int, y1: int, x2: int, y2: int)
    ensures CaptureRoi(Point(x1 as real, y1 as real), Point(x2 as real, y2 as real)) == Roi(x1, x2, y1, y2)
  {
    var roi := CaptureRoi(Point(x1 as real, y1 as real), Point(x2 as real, y2 as real));
    TruncationIsUnique(roi.x1, x1, x1 as real);
    TruncationIsUnique(roi.x2, x2, x2 as real);
    TruncationIsUnique(roi.y1, y1, y1 as real);
    TruncationIsUnique(roi.y2, y2, y2 as real);
  }

  /** Pixel `(i, j)` of a plane lies in the part of the box the slicing
      `data[x1:x2, y1:y2]` keeps. */
  predicate InRoi(p: Plane, roi: Roi, i: int, j: int) {
    Picks(roi.x1, roi.x2, p.nx, i) && Picks(roi.y1, roi.y2, p.ny, j)
  }

  /** `roi_data = data[x1:x2, y1:y2]`, flattened in row-major order. */
  function RoiData(p: Plane, roi: Roi): (vs: seq<real>)
    ensures vs != [] <==> exists i, j :: InRoi(p, roi, i, j)
  {
    var xs := SliceSpan(roi.x1, roi.x2, p.nx);
    var ys := SliceSpan(roi.y1, roi.y2, p.ny);
    var vs := Block(p.at, xs.lo, xs.hi, ys.lo, ys.hi);
    assert vs != [] ==> InRoi(p, roi, xs.lo, ys.lo);
    vs
  }

  /** `calculate_avg_b_value`: the mean of the box on a 2-D plane, undefined
      (NaN in numpy) when the slicing keeps no pixel. */
  function AvgBValue(p: Plane, roi: Roi): (r: Option<real>)
    ensures r.Some? <==> exists i, j :: InRoi(p, roi, i, j)
  {
    Mean(RoiData(p, roi))
  }

  /** The mean is the plain arithmetic mean of the box: the double sum over its
      rows and columns divided by its pixel count. */
  lemma AvgBValueIsArithmeticMean(p: Plane, roi: Roi)
    requires AvgBValue(p, roi).Some?
    ensures var xs, ys := SliceSpan(roi.x1, roi.x2, p.nx), SliceSpan(roi.y1, roi.y2, p.ny);
      AvgBValue(p, roi).value
        == RectSum(p.at, xs.lo, xs.hi, ys.lo, ys.hi) / (xs.Length() * ys.Length()) as real
  {
    var xs, ys := SliceSpan(roi.x1, roi.x2, p.nx), SliceSpan(roi.y1, roi.y2, p.ny);
    SumOfBlock(p.at, xs.lo, xs.hi, ys.lo, ys.hi);
  }

  /** The mean lies between any lower and upper bound of the pixels in the box. */
  lemma AvgBValueWithinBounds(p: Plane, roi: Roi, lo: real, hi: real)
    requires forall i, j :: InRoi(p, roi, i, j) ==> lo <= p.at(i, j) <= hi
    ensures AvgBValue(p, roi).Some? ==> lo <= AvgBValue(p, roi).value <= hi
  {
    var xs, ys := SliceSpan(roi.x1, roi.x2, p.nx), SliceSpan(roi.y1, roi.y2, p.ny);
    assert forall x, y :: xs.lo <= x < xs.hi && ys.lo <= y < ys.hi ==> lo <= p.at(x, y) <= hi by {
      forall x, y | xs.lo <= x < xs.hi && ys.lo <= y < ys.hi ensures lo <= p.at(x, y) <= hi {
        assert InRoi(p, roi, x, y);
      }
    }
    BlockBounds(p.at, xs.lo, xs.hi, ys.lo, ys.hi, lo, hi);
    if RoiData(p, roi) != [] {
      MeanBounds(RoiData(p, roi), lo, hi);
    }
  }

  /** A box of uniform intensity `c` averages to exactly `c`. */
  lemma AvgBValueOfUniformBox(p: Plane, roi: Roi, c: real)
    requires exists i, j :: InRoi(p, roi, i, j)
    requires forall i, j :: InRoi(p, roi, i, j) ==> p.at(i, j) == c
    ensures AvgBValue(p, roi) == Some(c)
  {
    AvgBValueWithinBounds(p, roi, c, c);
  }

  /** The mean reads only the pixels inside the box: planes of the same extents
      that agree there have the same mean. */
  lemma AvgBValueReadsOnlyBox(p: Plane, q: Plane, roi: Roi)
    requires p.nx == q.nx && p.ny == q.ny
    requires forall i, j :: InRoi(p, roi, i, j) ==> p.at(i, j) == q.at(i, j)
    ensures AvgBValue(p, roi) == AvgBValue(q, roi)
  {
    var xs, ys := SliceSpan(roi.x1, roi.x2, p.nx), SliceSpan(roi.y1, roi.y2, p.ny);
    assert forall x, y :: xs.lo <= x < xs.hi && ys.lo <= y < ys.hi ==> p.at(x, y) == q.at(x, y) by {
      forall x, y | xs.lo <= x < xs.hi && ys.lo <= y < ys.hi ensures p.at(x, y) == q.at(x, y) {
        assert InRoi(p, roi, x, y);
      }
    }
    BlockAgrees(p.at, q.at, xs.lo, xs.hi, ys.lo, ys.hi);
  }

  /** Corners captured in decreasing order (x2 < x1 or y2 < y1) inside the
      image are not normalised before slicing: the slicing keeps no pixel and
      the mean is undefined. */
  lemma ReversedBoxHasNoMean(p: Plane, roi: Roi)
    requires 0 <= roi.x2 < roi.x1 <= p.nx || 0 <= roi.y2 < roi.y1 <= p.ny
    ensures AvgBValue(p, roi) == None
  {
  }

  /** `calculate_avg_b_value_through_time`: one mean per time point, in
      ascending time order, each taken over the box on the single slice
      `currentSlice` (the global cursor, passed in). */
  method AvgBValueThroughTime(data: Volume, roiCoords: Roi, currentSlice: int)
    returns (avgBValues: seq<Option<real>>)
    requires 0 <= currentSlice < data.nz
    ensures data.HasTimeDimension() ==> |avgBValues| == data.nt
    ensures !data.HasTimeDimension() ==> |avgBValues| == 1
    ensures forall t :: 0 <= t < |avgBValues| ==>
      avgBValues[t] == AvgBValue(Slab(data, currentSlice, t), roiCoords)
  {
    var hasTimeDimension := data.HasTimeDimension();
    var numTimePoints := if hasTimeDimension then data.nt else 1;
    avgBValues := [];
    for t := 0 to numTimePoints
      invariant |avgBValues| == t
      invariant forall i :: 0 <= i < t ==>
        avgBValues[i] == AvgBValue(Slab(data, currentSlice, i), roiCoords)
    {
      var roiData := RoiData(Slab(data, currentSlice, t), roiCoords);
      var avgBValue := Mean(roiData);
      avgBValues := avgBValues + [avgBValue];
    }
  }

  /** Only the current slice is read: two volumes of the same shape whose voxels
      agree inside the box on that slice, at every time point, give the same
      mean at every time point, whatever the other slices hold. */
  lemma ThroughTimeReadsOnlyCurrentSlice(v: Volume, w: Volume, roi: Roi, z: int)
    requires v.Volume3? == w.Volume3? && v.nx == w.nx && v.ny == w.ny && v.nz == w.nz
    requires v.TimePoints() == w.TimePoints()
    requires 0 <= z < v.nz
    requires forall i, j, t ::
      0 <= t < v.TimePoints() && Picks(roi.x1, roi.x2, v.nx, i) && Picks(roi.y1, roi.y2, v.ny, j) ==>
        v.Voxel(i, j, z, t) == w.Voxel(i, j, z, t)
    ensures forall t :: 0 <= t < v.TimePoints() ==>
      AvgBValue(Slab(v, z, t), roi) == AvgBValue(Slab(w, z, t), roi)
  {
    forall t | 0 <= t < v.TimePoints()
      ensures AvgBValue(Slab(v, z, t), roi) == AvgBValue(Slab(w, z, t), roi)
    {
      AvgBValueReadsOnlyBox(Slab(v, z, t), Slab(w, z, t), roi);
    }
  }

  /** A worked case: a 4 x 4 x 2 x 3 volume holding 7.0 everywhere, box
      `[0, 2, 0, 2]` on slice 0, gives 7.0 at each of the three time points. */
  lemma UniformVolumeSeries()
    ensures var data := Volume4(4, 4, 2, 3, (x, y, z, t) => 7.0);
      forall t :: 0 <= t < 3 ==> AvgBValue(Slab(data, 0, t), Roi(0, 2, 0, 2)) == Some(7.0)
  {
    var data := Volume4(4, 4, 2, 3, (x, y, z, t) => 7.0);
    forall t | 0 <= t < 3
      ensures AvgBValue(Slab(data, 0, t), Roi(0, 2, 0, 2)) == Some(7.0)
    {
      assert InRoi(Slab(data, 0, t), Roi(0, 2, 0, 2), 0, 0);
      AvgBValueOfUniformBox(Slab(data, 0, t), Roi(0, 2, 0, 2), 7.0);
    }
  }
}
