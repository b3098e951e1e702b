/** Facts about products and floors that the ledgers and pools rest on. */
module Arith {
  lemma MulLe(x: nat, y: nat, c: nat)
    requires x <= y
    ensures x * c <= y * c
  {
  }

  lemma MulCancelLt(x: nat, y: nat, c: nat)
    requires x * c < y * c
    ensures x < y
  {
    if y <= x {
      MulLe(y, x, c);
    }
  }

  lemma MulCancelLe(x: nat, y: nat, c: nat)
    requires c > 0 && x * c <= y * c
    ensures x <= y
  {
    if y < x {
      MulLe(y + 1, x, c);
    }
  }

  /**
   Floor division by repeated subtraction; being recursive, it is a closed box to the solver until a
   lemma below opens it.
   */
  function Quotient(p: nat, c: nat): nat
    requires c > 0
    decreases p
  {
    if p < c then 0 else 1 + Quotient(p - c, c)
  }

  lemma {:induction false} QuotientIsDiv(p: nat, c: nat)
    requires c > 0
    ensures Quotient(p, c) * c <= p < Quotient(p, c) * c + c
    ensures Quotient(p, c) == p / c
    decreases p
  {
    if p >= c {
      QuotientIsDiv(p - c, c);
      assert (1 + Quotient(p - c, c)) * c == c + Quotient(p - c, c) * c;
    }
    DivUnique(p, c, Quotient(p, c));
  }

  lemma DivUnique(p: nat, c: nat, q: nat)
    requires c > 0 && q * c <= p < q * c + c
    ensures q == p / c
  {
    var d := p / c;
    assert p == d * c + p % c;
    assert (q + 1) * c == q * c + c && (d + 1) * c == d * c + c;
    MulCancelLt(d, q + 1, c);
    MulCancelLt(q, d + 1, c);
  }

  /** `a * b / c`, rounded down. */
  function MulFloor(a: nat, b: nat, c: nat): nat
    requires c > 0
  {
    Quotient(Product(a, b), c)
  }

  function Product(a: nat, b: nat): nat {
    a * b
  }

  lemma FloorBracket(a: nat, b: nat, c: nat)
    requires c > 0
    ensures MulFloor(a, b, c) * c <= a * b < MulFloor(a, b, c) * c + c
  {
    QuotientIsDiv(a * b, c);
  }

  lemma FloorIs(a: nat, b: nat, c: nat, q: nat)
    requires c > 0 && q * c <= a * b < q * c + c
    ensures MulFloor(a, b, c) == q
  {
    FloorBracket(a, b, c);
    var m := MulFloor(a, b, c);
    assert (q + 1) * c == q * c + c && (m + 1) * c == m * c + c;
    MulCancelLt(m, q + 1, c);
    MulCancelLt(q, m + 1, c);
  }

  lemma FloorAtMost(a: nat, b: nat, c: nat, q: nat)
    requires c > 0 && a * b <= q * c
    ensures MulFloor(a, b, c) <= q
  {
    FloorBracket(a, b, c);
    MulCancelLe(MulFloor(a, b, c), q, c);
  }

  lemma FloorAtLeast(a: nat, b: nat, c: nat, q: nat)
    requires c > 0 && q * c <= a * b
    ensures q <= MulFloor(a, b, c)
  {
    FloorBracket(a, b, c);
    var m := MulFloor(a, b, c);
    assert (m + 1) * c == m * c + c;
    MulCancelLt(q, m + 1, c);
  }

  function Pow2(k: nat): (p: nat)
    ensures p > 0
  {
    if k == 0 then 1 else 2 * Pow2(k - 1)
  }

  lemma {:induction false} PowAdd(a: nat, b: nat)
    ensures Pow2(a + b) == Pow2(a) * Pow2(b)
  {
    if a > 0 {
      PowAdd(a - 1, b);
      DoubleTimes(Pow2(a - 1), Pow2(b));
    }
  }

  lemma DoubleTimes(x: nat, y: nat)
    ensures (2 * x) * y == 2 * (x * y)
  {
  }

  lemma {:induction false} PowGrows(a: nat, b: nat)
    requires a <= b
    ensures Pow2(a) <= Pow2(b)
    decreases b
  {
    if a < b {
      PowGrows(a, b - 1);
    }
  }
}
