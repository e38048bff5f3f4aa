/** Fixed-width integers of the contract and the checked operations on them,
    with the few nonlinear facts the vesting laws rest on. */
module Arithmetic {
  import opened Wrappers

  const I128_MAX: int := 0x7FFF_FFFF_FFFF_FFFF_FFFF_FFFF_FFFF_FFFF
  const I128_MIN: int := -0x8000_0000_0000_0000_0000_0000_0000_0000
  const U64_MAX: int := 0xFFFF_FFFF_FFFF_FFFF
  const U32_MAX: int := 0xFFFF_FFFF

  type Int128 = x: int | I128_MIN <= x <= I128_MAX
  type UInt64 = x: int | 0 <= x <= U64_MAX
  type UInt32 = x: int | 0 <= x <= U32_MAX

  // `checked_add`, `checked_sub` and `checked_mul` all fail exactly when the
  // mathematical result leaves the 128-bit range.
  function Checked(x: int): Option<Int128> {
    if I128_MIN <= x <= I128_MAX then Some(x) else None
  }

  function CheckedU64(x: int): Option<UInt64> {
    if 0 <= x <= U64_MAX then Some(x) else None
  }

  // Rust's integer division rounds toward zero.
  function TruncDiv(a: int, d: int): int
    requires d > 0
  {
    if a >= 0 then a / d else -(-a / d)
  }

  function Max(a: int, b: int): int {
    if a >= b then a else b
  }

  lemma MulMonotone(a: int, b: int, k: int)
    requires a <= b && 0 <= k
    ensures a * k <= b * k
  {
    assert 0 <= (b - a) * k;
  }

  lemma DivIsFloor(a: int, d: int, q: int)
    requires d > 0
    requires q * d <= a < q * d + d
    ensures a / d == q
  {
    var r := a - q * d;
    assert a == q * d + r;
    if a / d > q {
      MulMonotone(q + 1, a / d, d);
    } else if a / d < q {
      MulMonotone(a / d + 1, q, d);
    }
  }

  lemma QuotientBounds(a: int, d: int)
    requires d > 0
    ensures (a / d) * d <= a < (a / d) * d + d
  {
    assert a == (a / d) * d + a % d;
  }

  lemma DivMonotone(a: int, b: int, d: int)
    requires a <= b && d > 0
    ensures a / d <= b / d
  {
    if b / d < a / d {
      MulMonotone(b / d + 1, a / d, d);
    }
  }

  // Rounding down only once loses at most one unit against rounding twice.
  lemma FloorOfSum(a: int, b: int, d: int)
    requires d > 0
    ensures a / d + b / d <= (a + b) / d <= a / d + b / d + 1
  {
    var q := a / d + b / d;
    var r := a % d + b % d;
    assert a + b == q * d + r by {
      assert (a / d + b / d) * d == (a / d) * d + (b / d) * d;
    }
    if r < d {
      DivIsFloor(a + b, d, q);
    } else {
      assert (q + 1) * d == q * d + d;
      DivIsFloor(a + b, d, q + 1);
    }
  }

  // A larger divisor never gives a larger quotient.
  lemma DivAntitone(a: int, d: int, e: int)
    requires 0 <= a && 0 < d <= e
    ensures a / e <= a / d
  {
    var q := a / e;
    assert q >= 0;
    assert q * d <= q * e <= a;
    if a / d < q {
      MulMonotone(a / d + 1, q, d);
    }
  }
}
