/** Small numeric helpers shared by the dashboard's modules. */
module Numbers {

  /** A value returned by `Math.random()`: a number in [0, 1). */
  type UnitReal = r: real | 0.0 <= r < 1.0

  function Min(a: int, b: int): int { if a <= b then a else b }
}
