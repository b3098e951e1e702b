/** Newton's integer square root, as the pools compute it on 256-bit products. */
module Isqrt {
  import opened Common
  import opened Arith

  /** `256 - leading_zeros`: the number of binary digits of `n`. */
  function BitLength(n: nat): (b: nat)
    ensures n < Pow2(b) && (n > 0 ==> b > 0 && Pow2(b - 1) <= n)
  {
    if n == 0 then 0 else 1 + BitLength(n / 2)
  }

  predicate IsFloorSqrt(n: nat, r: nat) {
    r * r <= n < (r + 1) * (r + 1)
  }

  /** The floor square root by counting up: the slow definition the loop is held to. */
  ghost function FloorSqrt(n: nat): nat {
    if n == 0 then 0
    else
      var r := FloorSqrt(n - 1);
      if (r + 1) * (r + 1) <= n then r + 1 else r
  }

  lemma {:induction false} FloorSqrtIs(n: nat)
    ensures IsFloorSqrt(n, FloorSqrt(n))
  {
    if n > 0 {
      FloorSqrtIs(n - 1);
      var r := FloorSqrt(n - 1);
      assert (r + 2) * (r + 2) > (r + 1) * (r + 1);
    }
  }

  lemma FloorSqrtUnique(n: nat, r: nat)
    requires IsFloorSqrt(n, r)
    ensures r == FloorSqrt(n)
  {
    FloorSqrtIs(n);
    OnlyOneFloorSqrt(n, r, FloorSqrt(n));
  }

  method Sqrt(n: nat) returns (r: u128)
    requires n <= U256_MAX
    ensures r == FloorSqrt(n)
  {
    if n < 2 {
      FloorSqrtUnique(n, n);
      return n;
    }
    var shift := (BitLength(n) + 1) / 2;
    StartIsAbove(n);
    var x := Pow2(shift);
    while true
      invariant x > 0 && n < (x + 1) * (x + 1)
      decreases x
    {
      var next := (x + n / x) / 2;
      if next >= x {
        NewtonStops(n, x);
        SqrtFits(n, x);
        FloorSqrtUnique(n, x);
        return x;
      }
      NewtonStaysAbove(n, x);
      NextPositive(n, x);
      x := next;
    }
  }

  /** Rounding the bit length up to an even number puts the first guess above the root. */
  lemma StartIsAbove(n: nat)
    requires n > 0
    ensures var x := Pow2((BitLength(n) + 1) / 2); n < x * x <= (x + 1) * (x + 1)
  {
    var b := BitLength(n);
    var s := (b + 1) / 2;
    PowAdd(s, s);
    PowGrows(b, s + s);
    NextSquare(Pow2(s));
  }

  lemma NextSquare(x: nat)
    ensures x * x <= (x + 1) * (x + 1)
  {
  }

  /** One Newton step from anywhere positive lands on or above the floor root. */
  lemma NewtonStaysAbove(n: nat, x: nat)
    requires x > 0
    ensures var next := (x + n / x) / 2; n < (next + 1) * (next + 1)
  {
    var q := n / x;
    var m := (x + q) / 2 + 1;
    assert n < (q + 1) * x by {
      assert n == q * x + n % x;
    }
    assert x + q + 1 <= 2 * m;
    SquareOfMean(x, q + 1, m);
  }

  /** The product of two numbers is at most the square of anything at or above their mean. */
  lemma SquareOfMean(a: nat, b: nat, m: nat)
    requires a + b <= 2 * m
    ensures b * a <= m * m
  {
    var d := m - a;
    MulLe(b, m + d, a);
    assert (m + d) * (m - d) == m * m - d * d;
    assert d * d >= 0;
  }

  /** When a step does not go down, the guess squared is at most `n`. */
  lemma NewtonStops(n: nat, x: nat)
    requires x > 0 && (x + n / x) / 2 >= x
    ensures x * x <= n
  {
    MulLe(x, n / x, x);
    assert n == (n / x) * x + n % x;
  }

  lemma NextPositive(n: nat, x: nat)
    requires n >= 2 && x > 0 && n < (x + 1) * (x + 1)
    ensures (x + n / x) / 2 > 0
  {
    if x == 1 {
      assert n / x == n;
    } else {
    }
  }

  lemma SqrtFits(n: nat, r: nat)
    requires n <= U256_MAX && r * r <= n
    ensures r <= U128_MAX
  {
    if r > U128_MAX {
      SquareLe(U128_MAX + 1, r);
    }
  }

  /** There is only one floor square root. */
  lemma OnlyOneFloorSqrt(n: nat, r: nat, s: nat)
    requires IsFloorSqrt(n, r) && IsFloorSqrt(n, s)
    ensures r == s
  {
    if r < s {
      SquareLe(r + 1, s);
    } else if s < r {
      SquareLe(s + 1, r);
    }
  }

  lemma SquareLe(a: nat, b: nat)
    requires a <= b
    ensures a * a <= b * b
  {
    MulLe(a, b, a);
    MulLe(a, b, b);
  }
}
