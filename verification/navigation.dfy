/** Keyboard navigation over the volume: two integer cursors, the displayed
    slice and the displayed time point, moved one step at a time and clamped
    to the volume's extents. */
module Navigation {
  import opened IntMath
  import opened Imaging

  datatype Cursors = Cursors(slice: int, time: int)

  /** The highest time cursor the right arrow reaches: the last time point of a
      4-D volume, 0 for a 3-D one. */
  function LastTime(data: Volume): int {
    if data.HasTimeDimension() then data.nt - 1 else 0
  }

  /** Both cursors index the volume: a slice in `0 .. nz-1` and a time point in
      `0 .. TimePoints()-1`. */
  predicate InRange(c: Cursors, data: Volume) {
    0 <= c.slice < data.nz && 0 <= c.time < data.TimePoints()
  }

  /** The effect of one key press. Each of the four arrow keys moves exactly
      one cursor by at most one step toward its bound; any other key changes
      nothing, and cursors in range stay in range. */
  function Press(key: string, c: Cursors, data: Volume): (d: Cursors)
    ensures key == "up" || key == "down" ==> d.time == c.time
    ensures key == "left" || key == "right" ==> d.slice == c.slice
    ensures key !in {"up", "down", "left", "right"} ==> d == c
    ensures InRange(c, data) ==> InRange(d, data)
    ensures InRange(c, data) && key == "up" ==> c.slice <= d.slice <= c.slice + 1
    ensures InRange(c, data) && key == "down" ==> c.slice - 1 <= d.slice <= c.slice
    ensures InRange(c, data) && key == "left" ==> c.time - 1 <= d.time <= c.time
    ensures InRange(c, data) && key == "right" ==> c.time <= d.time <= c.time + 1
  {
    if key == "up" then c.(slice := Min(c.slice + 1, data.nz - 1))
    else if key == "down" then c.(slice := Max(c.slice - 1, 0))
    else if key == "left" then c.(time := Max(c.time - 1, 0))
    else if key == "right" then c.(time := Min(c.time + 1, LastTime(data)))
    else c
  }

  /** The cursors after a sequence of key presses, handled in order. */
  function PressAll(keys: seq<string>, c: Cursors, data: Volume): Cursors
    decreases |keys|
  {
    if keys == [] then c else PressAll(keys[1..], Press(keys[0], c, data), data)
  }

  function Repeat(key: string, n: nat): (keys: seq<string>)
    ensures |keys| == n && forall k :: 0 <= k < n ==> keys[k] == key
  {
    seq(n, _ => key)
  }

  /** No sequence of key presses takes in-range cursors out of range. */
  lemma {:induction false} PressAllKeepsRange(keys: seq<string>, c: Cursors, data: Volume)
    requires InRange(c, data)
    ensures InRange(PressAll(keys, c, data), data)
    decreases |keys|
  {
    if keys != [] {
      PressAllKeepsRange(keys[1..], Press(keys[0], c, data), data);
    }
  }

  /** Holding an arrow key saturates: `n` presses move the cursor `n` steps or
      up to its bound, whichever is nearer, and leave the other cursor alone;
      further presses at the bound change nothing. */
  lemma {:induction false} RepeatedPress(key: string, n: nat, c: Cursors, data: Volume)
    requires InRange(c, data)
    ensures key == "up" ==> PressAll(Repeat(key, n), c, data) == c.(slice := Min(c.slice + n, data.nz - 1))
    ensures key == "down" ==> PressAll(Repeat(key, n), c, data) == c.(slice := Max(c.slice - n, 0))
    ensures key == "left" ==> PressAll(Repeat(key, n), c, data) == c.(time := Max(c.time - n, 0))
    ensures key == "right" ==> PressAll(Repeat(key, n), c, data) == c.(time := Min(c.time + n, LastTime(data)))
    decreases n
  {
    if n > 0 {
      assert Repeat(key, n)[1..] == Repeat(key, n - 1);
      RepeatedPress(key, n - 1, Press(key, c, data), data);
    }
  }
}
