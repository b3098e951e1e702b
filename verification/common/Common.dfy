/** Machine integers, Option/Result and the saturating helpers shared by every component. */
module Common {
  const U32_MAX: nat := 0xFFFF_FFFF
  const U64_MAX: nat := 0xFFFF_FFFF_FFFF_FFFF
  const U128_MAX: nat := 0xFFFF_FFFF_FFFF_FFFF_FFFF_FFFF_FFFF_FFFF

  const U256_MAX: nat := (U128_MAX + 1) * (U128_MAX + 1) - 1

  type u32 = x: int | 0 <= x <= U32_MAX
  type u64 = x: int | 0 <= x <= U64_MAX
  type u128 = x: int | 0 <= x <= U128_MAX

  datatype Option<+T> = None | Some(value: T)

  datatype Result<+T, +E> = Ok(value: T) | Err(error: E)

  function Min(a: int, b: int): int {
    if a <= b then a else b
  }

  function Max(a: int, b: int): int {
    if a >= b then a else b
  }

  /** Rust's `saturating_sub` on an unsigned type. */
  function SatSub(a: nat, b: nat): nat {
    if a >= b then a - b else 0
  }

  /** Rust's `saturating_add` on u32. */
  function SatAdd32(a: u32, b: u32): u32 {
    Min(a + b, U32_MAX)
  }

  /** Rust's `saturating_add` on u64. */
  function SatAdd64(a: u64, b: u64): u64 {
    Min(a + b, U64_MAX)
  }

  /** Rust's `saturating_add` on u128. */
  function SatAdd128(a: u128, b: u128): u128 {
    Min(a + b, U128_MAX)
  }

  /** Rust's `saturating_mul` on u128. */
  function SatMul128(a: u128, b: u128): u128 {
    Min(a * b, U128_MAX)
  }

  method Lowest(s: set<nat>) returns (low: nat)
    requires s != {}
    ensures low in s && forall b | b in s :: low <= b
  {
    low :| low in s;
    var rest := s - {low};
    while rest != {}
      invariant rest <= s && low in s
      invariant forall b | b in s && b !in rest :: low <= b
    {
      var b :| b in rest;
      if b < low {
        low := b;
      }
      rest := rest - {b};
    }
  }
}
