/** Arithmetic of a pool that keeps the product of its two reserves from falling. */
module ConstantProduct {
  import opened Arith

  /** The floor price keeps the product, and one unit more out would break it. */
  lemma OutputIsExact(rin: nat, rout: nat, eff: nat)
    requires rin + eff > 0
    ensures var out := MulFloor(rout, eff, rin + eff);
      (rin + eff) * (rout - out - 1) < rin * rout <= (rin + eff) * (rout - out)
  {
    var out := MulFloor(rout, eff, rin + eff);
    FloorBracket(rout, eff, rin + eff);
    assert (rin + eff) * (rout - out) == rin * rout + rout * eff - out * (rin + eff);
    assert (rin + eff) * (rout - out - 1) == (rin + eff) * (rout - out) - (rin + eff);
  }

  /** If the product did not fall and one reserve did not rise, the other did not fall. */
  lemma OtherSideGrew(x: nat, y: nat, x2: nat, y2: nat)
    requires x > 0 && x * y <= x2 * y2
    ensures x2 <= x ==> y <= y2
    ensures y > 0 ==> x2 > 0
  {
    if x2 <= x {
      MulLe(x2, x, y2);
      assert x * y == y * x && x * y2 == y2 * x;
      MulCancelLe(y, y2, x);
    }
    assert x2 == 0 ==> x2 * y2 == 0;
    if y > 0 {
      MulLe(1, x, y);
    }
  }
}
