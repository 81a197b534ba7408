/** IEEE-754 double values as the integer core sees them: a finite value is an
    exact real (rounding of the arithmetic that produced it is not modelled),
    plus the two infinities and NaN. Only the operations the integer core
    applies to floats are defined: `floor`, `max`, `clamp` and the saturating
    `as u32` / `as i32` casts. */
module Float64 {
  import opened Widths

  datatype F64 = Num(value: real) | Infinity | NegInfinity | NaN

  /** `lat`, `lon` in degrees and `alt` in metres (coords/types.rs). */
  datatype LatLonAlt = LatLonAlt(lat: F64, lon: F64, alt: F64)

  /** The numeric order of doubles; NaN is unordered. */
  predicate LessEq(a: F64, b: F64)
  {
    match (a, b)
    case (NaN, _) => false
    case (_, NaN) => false
    case (NegInfinity, _) => true
    case (_, Infinity) => true
    case (Num(p), Num(q)) => p <= q
    case (_, _) => false
  }

  /** `f64::floor`: the largest integer not above a finite value; infinities
      and NaN are returned unchanged. */
  function Floor(v: F64): (r: F64)
    ensures v.Num? <==> r.Num?
    ensures v.Num? ==> r.value <= v.value < r.value + 1.0 && r.value == r.value.Floor as real
    ensures !v.Num? ==> r == v
  {
    match v
    case Num(p) => Num(p.Floor as real)
    case _ => v
  }

  /** `f64::max(v, 0.0)`: NaN yields the other operand, 0.0. */
  function MaxZero(v: F64): (r: F64)
    ensures r.Num? ==> r.value >= 0.0
    ensures r != NaN && r != NegInfinity
    ensures v.Num? && v.value >= 0.0 ==> r == v
    ensures LessEq(v, r) || v.NaN?
    ensures (v.Num? && v.value < 0.0) || v.NegInfinity? || v.NaN? ==> r == Num(0.0)
    ensures v.Infinity? ==> r == Infinity
  {
    match v
    case Num(p) => if p < 0.0 then Num(0.0) else v
    case NegInfinity => Num(0.0)
    case NaN => Num(0.0)
    case Infinity => Infinity
  }

  /** `v as u32`: truncation toward zero, saturating at both ends of the
      range, NaN becoming 0. */
  function ToU32(v: F64): (r: u32)
    ensures v.Num? && 0.0 <= v.value < U32_LIMIT as real ==> r == v.value.Floor
    ensures v.Num? && v.value < 1.0 ==> r == 0
    ensures v.Num? && v.value >= U32_MAX as real ==> r == U32_MAX
    ensures v.Infinity? ==> r == U32_MAX
    ensures v.NegInfinity? || v.NaN? ==> r == 0
  {
    match v
    case Num(p) =>
      if p < 0.0 then 0
      else if p.Floor > U32_MAX then U32_MAX
      else p.Floor
    case Infinity => U32_MAX
    case NegInfinity => 0
    case NaN => 0
  }

  /** `v.floor() as i32`: the floor of a finite value saturated into the i32
      range, the infinities saturating and NaN becoming 0. */
  function FloorToI32(v: F64): (r: i32)
    ensures v.Num? && I32_MIN as real <= v.value < (I32_MAX + 1) as real ==> r == v.value.Floor
    ensures v.Num? && v.value < I32_MIN as real ==> r == I32_MIN
    ensures v.Num? && v.value >= I32_MAX as real ==> r == I32_MAX
    ensures v.Infinity? ==> r == I32_MAX
    ensures v.NegInfinity? ==> r == I32_MIN
    ensures v.NaN? ==> r == 0
  {
    match Floor(v)
    case Num(p) =>
      if p.Floor < I32_MIN then I32_MIN
      else if p.Floor > I32_MAX then I32_MAX
      else p.Floor
    case Infinity => I32_MAX
    case NegInfinity => I32_MIN
    case NaN => 0
  }

  /** Flooring then saturating never reverses the order of two doubles. */
  lemma FloorToI32Monotone(a: F64, b: F64)
    requires LessEq(a, b)
    ensures FloorToI32(a) <= FloorToI32(b)
  {
  }

}
