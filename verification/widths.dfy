/** Rust's fixed-width integer types, as subset types of the mathematical
    integers. A value that leaves its range is an arithmetic overflow, which
    panics in a debug build; the model therefore makes every overflow a
    proof obligation. */
module Widths {

  const U8_LIMIT: int := 0x100
  const U32_LIMIT: int := 0x1_0000_0000
  const U32_MAX: int := 0xffff_ffff
  const I32_MIN: int := -0x8000_0000
  const I32_MAX: int := 0x7fff_ffff

  type u8 = n: int | 0 <= n < 0x100
  type u32 = n: int | 0 <= n < 0x1_0000_0000
  type i32 = n: int | -0x8000_0000 <= n < 0x8000_0000

  /** 2 to the power n, unbounded. */
  function Pow2(n: nat): (r: nat)
    ensures r >= 1
  {
    if n == 0 then 1 else 2 * Pow2(n - 1)
  }

  lemma {:induction false} Pow2Monotone(m: nat, n: nat)
    requires m <= n
    ensures Pow2(m) <= Pow2(n)
    decreases n
  {
    if m < n {
      Pow2Monotone(m, n - 1);
    }
  }

  lemma Pow2Values()
    ensures Pow2(30) == 0x4000_0000
    ensures Pow2(31) == 0x8000_0000
  {
    assert Pow2(5) == 0x20;
    assert Pow2(10) == 0x400;
    assert Pow2(15) == 0x8000;
    assert Pow2(20) == 0x10_0000;
    assert Pow2(25) == 0x200_0000;
    assert Pow2(30) == 0x4000_0000;
  }

  /** `i32::abs`. Rust panics on `i32::MIN`, whose magnitude is not an i32. */
  function Abs(n: i32): (r: i32)
    requires n != I32_MIN
    ensures r >= 0 && (r == n || r == -n)
  {
    if n < 0 then -n else n
  }

}
