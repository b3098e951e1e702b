/** The halving schedule, and the era-at-a-time loop that sums it. */
module Tokenomics {
  import opened Common
  import opened Arith

  const WEI_PER_ZBX: u128 := 1_000_000_000_000_000_000
  const TOTAL_SUPPLY_WEI: u128 := 150_000_000 * WEI_PER_ZBX
  const INITIAL_REWARD_WEI: u128 := 3 * WEI_PER_ZBX
  const HALVING_INTERVAL: u64 := 25_000_000
  /** Rewards shift to zero after this many halvings; the code stops at 64. */
  const LAST_PAID_ERAS: nat := 62

  /** `x >> k` on an unsigned integer. */
  function ShiftRight(x: nat, k: nat): (r: nat)
    ensures r <= x
  {
    if k == 0 then x else ShiftRight(x, k - 1) / 2
  }

  function EraReward(halvings: nat): u128 {
    if halvings >= 64 then 0 else ShiftRight(INITIAL_REWARD_WEI, halvings)
  }

  function RewardAtHeight(height: u64): u128 {
    if height == 0 then 0 else EraReward((height - 1) / HALVING_INTERVAL)
  }

  /** What the chain has paid out, block by block. */
  ghost function MintedUpTo(height: nat): nat
    requires height <= U64_MAX
  {
    if height == 0 then 0 else MintedUpTo(height - 1) + RewardAtHeight(height)
  }

  method CumulativeSupply(height: u64) returns (total: u128)
    ensures total == MintedUpTo(height)
    ensures total < TOTAL_SUPPLY_WEI
  {
    SupplyCap(height);
    if height == 0 {
      return 0;
    }
    total := 0;
    var h: u64 := 1;
    ghost var era := 0;
    while h <= height
      invariant 1 <= h <= height + 1 && era <= 64 && total == MintedUpTo(h - 1)
      invariant h <= height ==> h - 1 == era * HALVING_INTERVAL
      decreases height - h
    {
      var halvings := (h - 1) / HALVING_INTERVAL;
      DivUnique(h - 1, HALVING_INTERVAL, era);
      if halvings >= 64 {
        EraSum(h - 1, height - (h - 1), 64);
        break;
      }
      var reward := ShiftRight(INITIAL_REWARD_WEI, halvings);
      var eraEnd := Min((halvings + 1) * HALVING_INTERVAL, height);
      var blocks := eraEnd - h + 1;
      EraSum(h - 1, blocks, halvings);
      SupplyCap(eraEnd);
      total := Min(total + Min(reward * blocks, U128_MAX), U128_MAX);
      h := eraEnd + 1;
      era := era + 1;
    }
  }

  /** Within one era, and past the sixty-fourth, the sum is a product. */
  lemma {:induction false} EraSum(a: nat, blocks: nat, halvings: nat)
    requires a + blocks <= U64_MAX && halvings * HALVING_INTERVAL <= a && halvings <= 64
    requires halvings < 64 ==> a + blocks <= halvings * HALVING_INTERVAL + HALVING_INTERVAL
    ensures MintedUpTo(a + blocks) == MintedUpTo(a) + EraReward(halvings) * blocks
    decreases blocks
  {
    if blocks > 0 {
      EraSum(a, blocks - 1, halvings);
      EraOf(a + blocks - 1, halvings);
      OneMore(EraReward(halvings), blocks);
    }
  }

  lemma OneMore(r: nat, n: nat)
    requires n > 0
    ensures r * n == r * (n - 1) + r
  {
  }

  lemma EraOf(x: nat, halvings: nat)
    requires x < U64_MAX && halvings * HALVING_INTERVAL <= x && halvings <= 64
    requires halvings < 64 ==> x < halvings * HALVING_INTERVAL + HALVING_INTERVAL
    ensures EraReward(x / HALVING_INTERVAL) == EraReward(halvings)
  {
    if halvings < 64 {
      DivUnique(x, HALVING_INTERVAL, halvings);
    } else {
      assert x / HALVING_INTERVAL >= 64;
    }
  }

  /** At the start of every era, twice that era's full payout still fits under the cap. */
  lemma {:induction false} EraCap(n: nat, start: nat)
    requires n <= 64 && start == n * HALVING_INTERVAL
    ensures MintedUpTo(start) + 2 * (ShiftRight(INITIAL_REWARD_WEI, n) * HALVING_INTERVAL) <= TOTAL_SUPPLY_WEI
    ensures MintedUpTo(start) < TOTAL_SUPPLY_WEI
  {
    if n > 0 {
      var before := start - HALVING_INTERVAL;
      EraCap(n - 1, before);
      EraSum(before, HALVING_INTERVAL, n - 1);
      EraCapStep(MintedUpTo(before), MintedUpTo(start),
                 ShiftRight(INITIAL_REWARD_WEI, n - 1), ShiftRight(INITIAL_REWARD_WEI, n));
    }
  }

  lemma EraCapStep(before: nat, after: nat, reward: nat, next: nat)
    requires after == before + reward * HALVING_INTERVAL && next == reward / 2
    requires before + 2 * (reward * HALVING_INTERVAL) <= TOTAL_SUPPLY_WEI && before < TOTAL_SUPPLY_WEI
    ensures after + 2 * (next * HALVING_INTERVAL) <= TOTAL_SUPPLY_WEI && after < TOTAL_SUPPLY_WEI
  {
    MulLe(2 * next, reward, HALVING_INTERVAL);
    if reward > 0 {
      MulLe(1, reward, HALVING_INTERVAL);
    }
  }

  /** No height, however late, takes the minted total to 150,000,000 ZBX. */
  lemma SupplyCap(height: u64)
    ensures MintedUpTo(height) < TOTAL_SUPPLY_WEI
  {
    var n := Min(height / HALVING_INTERVAL, 64);
    var start := n * HALVING_INTERVAL;
    EraCap(n, start);
    EraSum(start, height - start, n);
    if n < 64 {
      PartialEra(EraReward(n), height - start);
    }
  }

  lemma PartialEra(reward: nat, blocks: nat)
    requires blocks < HALVING_INTERVAL
    ensures reward * blocks <= reward * HALVING_INTERVAL
    ensures reward > 0 ==> reward * HALVING_INTERVAL < 2 * (reward * HALVING_INTERVAL)
  {
    MulLe(blocks, HALVING_INTERVAL, reward);
    if reward > 0 {
      MulLe(1, reward, HALVING_INTERVAL);
    }
  }

  /** The block reward never rises with height. */
  lemma {:induction false} RewardNeverRises(h: u64, k: u64)
    requires 1 <= h <= k
    ensures RewardAtHeight(k) <= RewardAtHeight(h)
    decreases k - h
  {
    var e, f := (h - 1) / HALVING_INTERVAL, (k - 1) / HALVING_INTERVAL;
    ShiftFalls(INITIAL_REWARD_WEI, e, f);
  }

  lemma {:induction false} ShiftFalls(x: nat, j: nat, k: nat)
    requires j <= k
    ensures ShiftRight(x, k) <= ShiftRight(x, j)
  {
    if j < k {
      ShiftFalls(x, j, k - 1);
    }
  }

  /** Rewards are paid for exactly the first 62 eras, two fewer than the code's own cut-off. */
  lemma RewardPaidIff(height: u64)
    ensures RewardAtHeight(height) > 0 <==> 1 <= height <= LAST_PAID_ERAS * HALVING_INTERVAL
  {
    if height > 0 {
      var n := (height - 1) / HALVING_INTERVAL;
      LastReward(LAST_PAID_ERAS - 1);
      if n < LAST_PAID_ERAS {
        ShiftFalls(INITIAL_REWARD_WEI, n, LAST_PAID_ERAS - 1);
      } else {
        ShiftFalls(INITIAL_REWARD_WEI, LAST_PAID_ERAS, n);
      }
    }
  }

  /** Shifting right by `k` divides by two to the `k`, rounding down. */
  lemma {:induction false} ShiftIsDivision(x: nat, k: nat)
    ensures ShiftRight(x, k) * Pow2(k) <= x < (ShiftRight(x, k) + 1) * Pow2(k)
  {
    if k > 0 {
      ShiftIsDivision(x, k - 1);
      Halve(x, ShiftRight(x, k - 1), ShiftRight(x, k), Pow2(k - 1), Pow2(k));
    }
  }

  lemma Halve(x: nat, s: nat, r: nat, p: nat, p2: nat)
    requires s * p <= x < (s + 1) * p && r == s / 2 && p2 == p + p
    ensures r * p2 <= x < (r + 1) * p2
  {
    MulLe(r + r, s, p);
    MulLe(s + 1, (r + 1) + (r + 1), p);
    assert r * p2 == (r + r) * p;
    assert (r + 1) * p2 == ((r + 1) + (r + 1)) * p;
  }

  lemma PowSixtyOne(k: nat)
    requires k == 61
    ensures Pow2(k) == 0x2000_0000_0000_0000
  {
    var fifteen := k - 46;
    PowFifteen(fifteen);
    PowAdd(fifteen, fifteen);
    PowAdd(fifteen + fifteen, fifteen + fifteen);
    PowAdd(k - 1, k - 60);
  }

  lemma PowFifteen(k: nat)
    requires k == 15
    ensures Pow2(k) == 0x8000
  {
    var five := k - 10;
    assert Pow2(five) == 2 * Pow2(five - 1) && Pow2(five - 1) == 2 * Pow2(five - 2);
    assert Pow2(five - 2) == 2 * Pow2(five - 3) && Pow2(five - 3) == 2 * Pow2(five - 4);
    assert Pow2(five - 4) == 2 * Pow2(0);
    PowAdd(five, five);
    PowAdd(five + five, five);
  }

  /** The sixty-second era pays one wei a block. */
  lemma LastReward(k: nat)
    requires k == LAST_PAID_ERAS - 1
    ensures ShiftRight(INITIAL_REWARD_WEI, k) == 1
  {
    ShiftIsDivision(INITIAL_REWARD_WEI, k);
    PowSixtyOne(k);
    OneAndABit(ShiftRight(INITIAL_REWARD_WEI, k));
  }

  lemma OneAndABit(r: nat)
    requires r * 0x2000_0000_0000_0000 <= 3_000_000_000_000_000_000 < (r + 1) * 0x2000_0000_0000_0000
    ensures r == 1
  {
  }
}
