/** The application state that the event handlers share: the loaded volume,
    the slice and time cursors, and the last box selected. */
module Session {
  import opened Wrappers
  import opened IntMath
  import opened Imaging
  import opened Navigation
  import opened RoiAnalysis

  class Viewer {
    const data: Volume
    var currentSlice: int
    var currentTime: int
    var roiCoords: Roi

    function Cursor(): Cursors
      reads this
    {
      Cursors(currentSlice, currentTime)
    }

    ghost predicate Valid()
      reads this
    {
      InRange(Cursor(), data)
    }

    /** The start-up state: the middle slice (`nz // 2`), the first time point
        and the empty box `[0, 0, 0, 0]`. The cursors are in range whenever the
        volume has a slice and a time point to show. */
    constructor (data: Volume)
      ensures this.data == data
      ensures currentSlice == data.nz / 2 && currentTime == 0
      ensures roiCoords == Roi(0, 0, 0, 0)
      ensures 1 <= data.nz && 1 <= data.TimePoints() ==> Valid()
    {
      this.data := data;
      currentSlice := data.nz / 2;
      currentTime := 0;
      roiCoords := Roi(0, 0, 0, 0);
    }

    /** `on_key`: apply one key press to the cursors; the box is untouched. */
    method OnKey(key: string)
      modifies this`currentSlice, this`currentTime
      ensures Cursor() == Press(key, old(Cursor()), data)
      ensures old(Valid()) ==> Valid()
    {
      if key == "up" {
        currentSlice := Min(currentSlice + 1, data.nz - 1);
      } else if key == "down" {
        currentSlice := Max(currentSlice - 1, 0);
      } else if key == "left" {
        currentTime := Max(currentTime - 1, 0);
      } else if key == "right" {
        currentTime := Min(currentTime + 1, if data.HasTimeDimension() then data.nt - 1 else 0);
      }
    }

    /** `onselect`: record the dragged box and compute its mean through time on
        the displayed slice; the cursors are untouched. */
    method OnSelect(press: Point, release: Point) returns (avgBValues: seq<Option<real>>)
      requires Valid()
      modifies this`roiCoords
      ensures roiCoords == CaptureRoi(press, release)
      ensures |avgBValues| == data.TimePoints()
      ensures forall t :: 0 <= t < |avgBValues| ==>
        avgBValues[t] == AvgBValue(Slab(data, currentSlice, t), roiCoords)
    {
      roiCoords := CaptureRoi(press, release);
      avgBValues := AvgBValueThroughTime(data, roiCoords, currentSlice);
    }
  }
}
