/** Two-component vectors over exact reals and the scalar helpers the game
    code takes from `f32` (`abs`, `min`, `max`, `clamp`, `signum`). */
module Geometry {

  datatype Vec2 = Vec2(x: real, y: real)

  const Zero: Vec2 := Vec2(0.0, 0.0)

  function Abs(a: real): real {
    if a < 0.0 then -a else a
  }

  function Min(a: real, b: real): real {
    if a <= b then a else b
  }

  function Max(a: real, b: real): real {
    if a >= b then a else b
  }

  /** `f32::clamp`: `lo` when below, `hi` when above, otherwise the value. */
  function Clamp(a: real, lo: real, hi: real): real {
    if a < lo then lo else if a > hi then hi else a
  }

  /** `f32::signum`: 1 for every non-negative value (Rust answers 1.0 for +0.0),
      -1 for negative values. */
  function Signum(a: real): real {
    if a < 0.0 then -1.0 else 1.0
  }

  /** Whether `a` lies on the closed segment between `lo` and `hi`, in either order. */
  predicate Between(a: real, lo: real, hi: real) {
    Min(lo, hi) <= a <= Max(lo, hi)
  }
}
