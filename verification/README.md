# MUMRI ROI analysis — a verified model

MUMRI_analysis is a small viewer for 4-D (x, y, slice, time) or 3-D NIfTI
volumes. The user pages through slices and time points with the arrow keys,
drags a rectangle on the displayed slice, and gets the average intensity
("b-value") inside that rectangle at every time point. This project models
the part of `main.py` with real logic and proves its properties:

- the box capture: the two mouse corners truncated with `int()` and packed
  as `[x1, x2, y1, y2]` (`RoiAnalysis.CaptureRoi`);
- the box mean on one 2-D slab (`calculate_avg_b_value`, `RoiAnalysis.AvgBValue`),
  with numpy's slicing rules for `data[x1:x2, y1:y2]` (`Slicing`) and
  `np.mean` as an exact mean over reals (`Aggregate`);
- the time series (`calculate_avg_b_value_through_time`,
  `RoiAnalysis.AvgBValueThroughTime`): a loop that appends one mean per time
  point, reading only the current slice;
- the slice and time cursors and the key handler (`on_key`): a pure transition
  `Navigation.Press` and the class `Session.Viewer`, whose fields are the
  program's global state.

Modules: `Wrappers` (Option), `IntMath` (min/max), `Slicing`, `Aggregate`,
`Imaging` (volume and slabs), `RoiAnalysis`, `Navigation`, `Session`.

Modelling choices:
- A volume is `Imaging.Volume`: its extents plus a voxel function over index
  tuples; a 3-D volume has no time axis and is read as one time point.
- Intensities are `real`; a mean is the exact sum divided by the count.
  Where numpy gives NaN (the slicing keeps no pixel) the model gives `None`,
  so a series is a `seq<Option<real>>`.
- The global `current_slice` is a parameter of the time-series computation.
- Python slice bounds are modelled in full: a negative bound counts from the
  end of the axis, bounds are clamped, and `a:b` keeps nothing when the
  resolved `b` is not above the resolved `a`.
- `main.py` does not normalise the box corners, has no zero-count guard and
  no polygon mode: corners captured in decreasing order (x2 < x1 or y2 < y1)
  keep no pixel, because the mean is taken over `data[x1:x2, y1:y2]` as
  captured, and the mean of that empty selection is NaN
  (`RoiAnalysis.ReversedBoxHasNoMean`).

## Model

| member | source | states |
|---|---|---|
| Slicing.SliceSpan | main.py:72 | `data[a:b]` on an axis of length n keeps one run of indices inside the axis, and index i is in it exactly when 0 <= i < n and i lies between the bounds read from the end when negative |
| Slicing.NonNegativeSlice | main.py:104 | with non-negative bounds the slice starts at min(a, n), ends at min(b, n) when a < b, and is empty when a >= b |
| Aggregate.Mean | main.py:73 | `np.mean` is defined exactly when there is at least one value |
| Aggregate.Block | main.py:72 | the flattened rectangle holds width × height values |
| Aggregate.SumOfBlock | main.py:73 | the sum over the row-major flattening equals the double sum over the rectangle's rows and columns |
| Aggregate.MeanBounds | main.py:73 | the mean of values in [lo, hi] lies in [lo, hi] |
| RoiAnalysis.Trunc | main.py:49 | `int()` of a float rounds toward zero: the result is within one of the input, on the zero side |
| RoiAnalysis.TruncationIsUnique | main.py:49 | the truncation property determines the integer uniquely |
| RoiAnalysis.CaptureRoi | main.py:47-49 | each of x1, x2, y1, y2 is the truncation of the press x, release x, press y and release y, in that list order |
| RoiAnalysis.CaptureOfWholeCoordinates | main.py:47-49 | corners on whole numbers are captured unchanged and in the order [x1, x2, y1, y2] |
| RoiAnalysis.RoiData | main.py:72 | the sliced box is non-empty exactly when some pixel is picked on both axes |
| RoiAnalysis.AvgBValue | main.py:70-74 | the box mean on a 2-D slab is defined exactly when the slicing keeps at least one pixel |
| RoiAnalysis.AvgBValueIsArithmeticMean | main.py:72-73 | a defined mean equals the sum of the box's pixels divided by its pixel count |
| RoiAnalysis.AvgBValueWithinBounds | main.py:72-73 | a defined mean lies between any lower and upper bound of the pixels in the box |
| RoiAnalysis.AvgBValueOfUniformBox | main.py:72-73 | a non-empty box of constant intensity c has mean exactly c |
| RoiAnalysis.AvgBValueReadsOnlyBox | main.py:72-73 | planes of equal extents that agree inside the box have equal means |
| RoiAnalysis.ReversedBoxHasNoMean | main.py:71-73 | corners captured in decreasing order (x2 < x1 or y2 < y1) inside the image are not normalised before slicing: the mean is undefined |
| RoiAnalysis.AvgBValueThroughTime | main.py:91-108 | the series has nt entries for a 4-D volume and one for a 3-D volume; entry t, in ascending order, is the box mean of the slab at the current slice and time t |
| RoiAnalysis.ThroughTimeReadsOnlyCurrentSlice | main.py:103-105 | two volumes of one shape that agree inside the box on the current slice give the same mean at every time point, whatever the other slices hold |
| RoiAnalysis.UniformVolumeSeries | main.py:96-106 | a 4×4×2×3 volume of 7.0 with box [0, 2, 0, 2] on slice 0 gives 7.0 at all three time points |
| Imaging.Slab | main.py:129 | the slab `data[:, :, z, t]` (`data[:, :, z]` in 3-D) has the volume's x and y extents and holds voxel (x, y, z, t) |
| Navigation.Press | main.py:78-87 | up and down change only the slice, left and right only the time, other keys nothing; each step moves at most one toward its bound; in-range cursors stay in range |
| Navigation.PressAllKeepsRange | main.py:78-87 | no sequence of key presses takes in-range cursors out of range |
| Navigation.RepeatedPress | main.py:80-87 | n presses of up give min(s+n, nz-1), of down max(s-n, 0), of left max(t-n, 0), of right min(t+n, nt-1), or 0 for 3-D data; presses at a bound change nothing |
| Session.Viewer.constructor | main.py:120-124 | the viewer starts on slice nz // 2, time 0 and box [0, 0, 0, 0], in range whenever the volume has a slice and a time point |
| Session.Viewer.OnKey | main.py:78-87 | a key press updates the two cursors as `Press` says, leaves the box alone, and keeps the cursors in range |
| Session.Viewer.OnSelect | main.py:44-52 | a selection stores the captured box and returns the box mean through time on the displayed slice |

## Left out

- File selection and NIfTI loading (`select_nifti_file`, `load_nifti`): a tkinter dialog and nibabel I/O; the volume is an input.
- Display and redraw (`display_slice`, `update_slice`, the re-created `RectangleSelector`, the redraw at the end of `on_key`): matplotlib UI wiring.
- Printing, plotting and the clipboard copy in `onselect`, and the `__main__` driver, including its last computation after the window closes: output side effects and program start-up.
- IEEE double arithmetic of `np.mean` (rounding, overflow): intensities are exact reals, and NaN is `None`.
- Events whose `xdata`/`ydata` is missing or not finite (where `int()` would raise): the widget only delivers points on the axes, which is library behaviour not visible here.
- Whether the widget delivers corners already sorted: corner order is an unconstrained input.
- RoiAnalysis.AvgBValueThroughTime: requires `0 <= currentSlice < nz`. numpy would also accept `-nz <= currentSlice < 0` (counted from the end) and raise IndexError below `-nz` or from `nz` on; neither case is modelled, because the cursor starts at `nz // 2` (main.py:120), never goes below 0 (main.py:83) and never above `nz - 1` (main.py:81).
- Session.Viewer.OnSelect: requires the viewer invariant `Valid()`, which includes `0 <= currentSlice < nz`, for the same reason.
- Polygon regions, corner normalisation and a zero-count guard: `main.py` has none of them, so the model has none.
