/** The level editor's grid snapping (`level_editor/src/main.rs`):
    `f32::round` (to the nearest integer, halves away from zero) and the
    three snap helpers built on it. The editor's grid is fixed at 10 world
    units. */
module EditorSnap {
  import opened Geometry

  /** `snap_size`: set to 10 when the editor opens and never changed. */
  const SnapSize: real := 10.0

  /** `f32::round`: the nearest integer, a tie going away from zero. The two
      ensures pin the result down uniquely. */
  function Round(v: real): (r: int)
    ensures v >= 0.0 ==> v - 0.5 < r as real <= v + 0.5
    ensures v < 0.0 ==> v - 0.5 <= r as real < v + 0.5
  {
    if v >= 0.0 then (v + 0.5).Floor else -((-v + 0.5).Floor)
  }

  /** Rounding leaves integers alone. */
  lemma RoundInteger(k: int)
    ensures Round(k as real) == k
  {
  }

  /** Rounding is symmetric about zero. */
  lemma RoundOdd(v: real)
    ensures Round(-v) == -Round(v)
  {
  }

  /** The grid index `snap_value` rounds to. */
  function SnapIndex(v: real, grid: real): int
    requires grid != 0.0
  {
    Round(v / grid)
  }

  /** `snap_value`: the multiple of `grid` nearest to `v`, no further than
      half a grid step away. */
  function SnapValue(v: real, grid: real): (r: real)
    requires grid != 0.0
    ensures r == SnapIndex(v, grid) as real * grid
    ensures Abs(r - v) <= Abs(grid) / 2.0
  {
    var k := SnapIndex(v, grid);
    NearestMultiple(v, grid, k);
    k as real * grid
  }

  /** If `k` is within a half of `v / grid`, then `k * grid` is within half a
      grid step of `v`. */
  lemma NearestMultiple(v: real, grid: real, k: int)
    requires grid != 0.0
    requires Abs(k as real - v / grid) <= 0.5
    ensures Abs(k as real * grid - v) <= Abs(grid) / 2.0
  {
    var d := k as real - v / grid;
    assert k as real * grid - v == d * grid;
    if d >= 0.0 {
      if grid > 0.0 { assert d * grid <= 0.5 * grid; } else { assert d * grid >= 0.5 * grid; }
    } else {
      if grid > 0.0 { assert d * grid >= -0.5 * grid; } else { assert d * grid <= -0.5 * grid; }
    }
  }

  /** A snapped value snaps to itself: snapping twice is snapping once. */
  lemma SnapIdempotent(v: real, grid: real)
    requires grid != 0.0
    ensures SnapValue(SnapValue(v, grid), grid) == SnapValue(v, grid)
  {
    SnapOfMultiple(SnapIndex(v, grid), SnapValue(v, grid), grid);
  }

  /** A multiple of the grid has its own factor as its grid index. */
  lemma SnapOfMultiple(k: int, r: real, grid: real)
    requires grid != 0.0 && r == k as real * grid
    ensures SnapIndex(r, grid) == k
  {
    CancelFactor(k as real, grid);
    assert r / grid == k as real;
    RoundInteger(k);
  }

  lemma CancelFactor(k: real, g: real)
    requires g != 0.0
    ensures (k * g) / g == k
  {
    var q := (k * g) / g;
    assert q * g == k * g;
    assert (q - k) * g == 0.0;
  }

  /** `snap_positive`: the magnitude rounded to the grid, never negative for
      a positive grid: the size of the snapped value. */
  function SnapPositive(v: real, grid: real): (r: real)
    requires grid != 0.0
    ensures grid > 0.0 ==> r >= 0.0 && r == Abs(SnapValue(v, grid))
  {
    var k := SnapIndex(v, grid);
    var a := if k < 0 then -k else k;
    AbsOfMultiple(k, grid);
    a as real * grid
  }

  lemma AbsOfMultiple(k: int, grid: real)
    requires grid > 0.0 || grid < 0.0
    ensures grid > 0.0 ==> Abs(k as real * grid) == (if k < 0 then -k else k) as real * grid
  {
    if grid > 0.0 && k < 0 {
      assert k as real * grid < 0.0;
    }
  }

  /** `snap_vec2`: both coordinates snapped. */
  function SnapVec2(p: Vec2, grid: real): (r: Vec2)
    requires grid != 0.0
    ensures r == Vec2(SnapValue(p.x, grid), SnapValue(p.y, grid))
    ensures Abs(r.x - p.x) <= Abs(grid) / 2.0 && Abs(r.y - p.y) <= Abs(grid) / 2.0
  {
    Vec2(SnapValue(p.x, grid), SnapValue(p.y, grid))
  }
}
