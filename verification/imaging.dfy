/** The loaded image volume (what `img.get_fdata()` returns) and the 2-D
    slices the rest of the program reads from it. */
module Imaging {

  /** A 2-D array of intensities with extents `nx` by `ny`; `at(x, y)` is the
      value at row `x`, column `y` (only indices inside the extents matter). */
  datatype Plane = Plane(nx: nat, ny: nat, at: (int, int) -> real)

  /** A 3-D volume of shape `(nx, ny, nz)` or a 4-D one of shape
      `(nx, ny, nz, nt)`; the axes are x, y, slice and time. */
  datatype Volume =
    | Volume3(nx: nat, ny: nat, nz: nat, voxel3: (int, int, int) -> real)
    | Volume4(nx: nat, ny: nat, nz: nat, nt: nat, voxel4: (int, int, int, int) -> real)
  {
    /** `len(data.shape) == 4` */
    predicate HasTimeDimension() {
      Volume4?
    }

    /** The number of time points: the fourth extent, or one for a 3-D volume. */
    function TimePoints(): nat {
      if HasTimeDimension() then nt else 1
    }

    /** The voxel at `(x, y, z)` at time point `t`; a 3-D volume ignores `t`. */
    function Voxel(x: int, y: int, z: int, t: int): real {
      match this
      case Volume3(_, _, _, v) => v(x, y, z)
      case Volume4(_, _, _, _, v) => v(x, y, z, t)
    }
  }

  /** The 2-D slab `data[:, :, z, t]` of a 4-D volume, or `data[:, :, z]` of a
      3-D one. */
  function Slab(data: Volume, z: int, t: int): (p: Plane)
    requires 0 <= z < data.nz && 0 <= t < data.TimePoints()
    ensures p.nx == data.nx && p.ny == data.ny
    ensures forall x, y :: p.at(x, y) == data.Voxel(x, y, z, t)
  {
    Plane(data.nx, data.ny, (x, y) => data.Voxel(x, y, z, t))
  }
}
