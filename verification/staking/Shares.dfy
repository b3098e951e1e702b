/** What shares are worth: never more than the stake, never less for what another delegator does. */
module StakingShares {
  import opened Common
  import opened Arith
  import opened Sums
  import opened Staking
  import opened StakingConservation

  // ───────────── ratios ─────────────

  /** A holding is worth no less when stake per share has not fallen. */
  lemma ValueFollowsRatio(x: nat, s: nat, t: nat, s': nat, t': nat)
    requires t > 0 && t' > 0 && s * t' <= s' * t
    ensures MulFloor(x, s, t) <= MulFloor(x, s', t')
  {
    var q := MulFloor(x, s, t);
    FloorBracket(x, s, t);
    MulLe(q * t, x * s, t');
    MulLe(s * t', s' * t, x);
    assert (q * t') * t == (q * t) * t' by { Rotate(q, t', t); }
    assert (x * s) * t' == (s * t') * x by { Rotate(s, t', x); Rotate(x, s, t'); }
    assert (x * s') * t == (s' * t) * x by { Rotate(s', t, x); Rotate(x, s', t); }
    MulCancelLe(q * t', x * s', t);
    FloorAtLeast(x, s', t', q);
  }

  lemma Rotate(a: nat, b: nat, c: nat)
    ensures (a * b) * c == (a * c) * b == (c * a) * b == (c * b) * a == (b * c) * a
  {
  }

  /** Minting at most the pro-rata shares does not lower stake per share. */
  lemma MintingKeepsRatio(s: nat, t: nat, a: nat, m: nat)
    requires m * s <= a * t
    ensures s * (t + m) <= (s + a) * t
  {
    assert s * (t + m) == s * t + s * m && (s + a) * t == s * t + a * t;
    assert s * m == m * s;
  }

  /** Paying out at most the pro-rata stake does not lower stake per share. */
  lemma BurningKeepsRatio(s: nat, t: nat, a: nat, x: nat)
    requires a * t <= x * s && a <= s && x <= t
    ensures s * (t - x) <= (s - a) * t
  {
    assert s * (t - x) == s * t - s * x && (s - a) * t == s * t - a * t;
    assert s * x == x * s;
  }

  /** Stake per share of a validator with shares has not fallen from `v` to `v'`. */
  ghost predicate RatioKept(v: Validator, v': Validator) {
    v.totalStake * v'.totalShares <= v'.totalStake * v.totalShares
  }

  /** A ratio kept means every holding within the shares keeps its value. */
  lemma RatioKeepsValue(v: Validator, v': Validator, x: u128)
    requires RatioKept(v, v') && x <= v.totalShares && x <= v'.totalShares
    requires v.totalShares == 0 <==> v.totalStake == 0
    requires v'.totalShares == 0 <==> v'.totalStake == 0
    ensures SharesToAmount(v, x) <= SharesToAmount(v', x)
  {
    ValueOfPart(v, x);
    ValueOfPart(v', x);
    if v.totalShares > 0 && v'.totalShares > 0 {
      ValueFollowsRatio(x, v.totalStake, v.totalShares, v'.totalStake, v'.totalShares);
    }
  }

  // ───────────── solvency ─────────────

  ghost function Values(l: Ledger, a: Address): map<Position, nat>
    requires a in l.validators
  {
    map p | p in l.delegations && p.validator == a :: SharesToAmount(l.validators[a], l.delegations[p])
  }

  /** All positions on a validator together are worth at most its stake, and short of it by less than one each. */
  lemma DelegatorsAreSolvent(l: Ledger, a: Address)
    requires SharesMatch(l) && a in l.validators
    ensures Sum(Values(l, a)) <= l.validators[a].totalStake
    ensures l.validators[a].totalStake > 0 ==>
      l.validators[a].totalStake < Sum(Values(l, a)) + |Column(l.delegations, a)|
  {
    var v := l.validators[a];
    var column := Column(l.delegations, a);
    if v.totalShares > 0 {
      var cuts := Cuts(column, v.totalStake, v.totalShares);
      forall p | p in column ensures Values(l, a)[p] == cuts[p] {
        SumAtLeast(column, p);
        ValueOfPart(v, column[p]);
        FloorCommutes(column[p], v.totalStake, v.totalShares);
      }
      assert Values(l, a) == cuts;
      CutsOfWhole(column, v.totalStake, v.totalShares);
    } else {
      forall p | p in column ensures Values(l, a)[p] == 0 {
      }
      SumOfZeros(Values(l, a));
    }
  }

  lemma FloorCommutes(a: nat, b: nat, c: nat)
    requires c > 0
    ensures MulFloor(a, b, c) == MulFloor(b, a, c)
  {
    FloorBracket(b, a, c);
    assert a * b == b * a;
    FloorIs(a, b, c, MulFloor(b, a, c));
  }

  // ───────────── no dilution ─────────────

  lemma MintedWithinRatio(v: Validator, amount: u128)
    requires v.totalShares > 0 && v.totalStake > 0
    ensures AmountToShares(v, amount) * v.totalStake <= amount * v.totalShares
  {
    var m := MulFloor(amount, v.totalShares, v.totalStake);
    FloorBracket(amount, v.totalShares, v.totalStake);
    MulLe(Min(m, U128_MAX), m, v.totalStake);
  }

  /** A holding keeps its value when stake and pro-rata shares are added. */
  lemma EnlargedKeepsValue(v: Validator, amount: u128, minted: u128, x: u128)
    requires v.totalStake + amount <= U128_MAX && v.totalShares + minted <= U128_MAX && x <= v.totalShares
    requires minted == AmountToShares(v, amount)
    requires v.totalShares == 0 <==> v.totalStake == 0
    ensures SharesToAmount(v, x) <= SharesToAmount(Enlarged(v, amount, minted), x)
  {
    if v.totalShares > 0 {
      MintedWithinRatio(v, amount);
      MintingKeepsRatio(v.totalStake, v.totalShares, amount, minted);
      RatioKeepsValue(v, Enlarged(v, amount, minted), x);
    }
  }

  /** A holding keeps its value when other shares leave with their own value. */
  lemma ReducedKeepsValue(v: Validator, amount: u128, shares: u128, x: u128)
    requires amount == SharesToAmount(v, shares) && amount <= v.totalStake
    requires shares <= v.totalShares && x <= v.totalShares - shares
    requires v.totalShares == 0 <==> v.totalStake == 0
    requires amount == v.totalStake <==> shares == v.totalShares
    ensures SharesToAmount(v, x) <= SharesToAmount(Reduced(v, amount, shares), x)
  {
    if v.totalShares > 0 {
      ValueOfPart(v, shares);
      FloorBracket(shares, v.totalStake, v.totalShares);
      BurningKeepsRatio(v.totalStake, v.totalShares, amount, shares);
      RatioKeepsValue(v, Reduced(v, amount, shares), x);
    }
  }

  /** Changing one position leaves what others hold. */
  lemma ChangeKeepsHeld(l: Ledger, p: Position, v: Validator, shares: Option<u128>, other: Address, on: Address)
    requires p.validator in l.validators && p != Position(other, on)
    ensures Held(Change(l, p, v, shares), other, on) == Held(l, other, on)
    ensures on != p.validator ==> DelegationValue(Change(l, p, v, shares), other, on) == DelegationValue(l, other, on)
    ensures on == p.validator ==>
      DelegationValue(Change(l, p, v, shares), other, on) == SharesToAmount(v, Held(l, other, on))
  {
  }

  lemma DepositKeepsOthers(l: Ledger, d: Address, a: Address, amount: u128, other: Address, on: Address)
    requires SharesMatch(l) && Deposit(l, d, a, amount).1.Ok? && Position(other, on) != Position(d, a)
    ensures DelegationValue(l, other, on) <= DelegationValue(Deposit(l, d, a, amount).0, other, on)
  {
    var minted := DepositShape(l, d, a, amount);
    var v := l.validators[a];
    ChangeKeepsHeld(l, Position(d, a), Enlarged(v, amount, minted), Some(Held(l, d, a) + minted), other, on);
    if on == a {
      HeldAtMostShares(l, other, a);
      EnlargedKeepsValue(v, amount, minted, Held(l, other, a));
    }
  }

  lemma WithdrawKeepsOthers(l: Ledger, d: Address, a: Address, shares: u128, other: Address, on: Address)
    requires SharesMatch(l) && Withdraw(l, d, a, shares).1.Ok? && Position(other, on) != Position(d, a)
    ensures DelegationValue(l, other, on) <= DelegationValue(Withdraw(l, d, a, shares).0, other, on)
  {
    var amount := WithdrawShape(l, d, a, shares);
    var v := l.validators[a];
    ChangeKeepsHeld(l, Position(d, a), Reduced(v, amount, shares), Remaining(l, d, a, shares), other, on);
    if on == a {
      WithdrawShares(l, d, a, shares);
      HeldAtMostShares(Withdraw(l, d, a, shares).0, other, a);
      ReducedKeepsValue(v, amount, shares, Held(l, other, a));
    }
  }

  /** Staking, unstaking and redelegating by one delegator never lower another delegator's value. */
  lemma NoDilutionByDelegators(l: Ledger, op: Op, d: Address, other: Address, on: Address)
    requires LedgerInv(l) && d != other && Effect(l, op).Some?
    requires (op.OpStake? || op.OpUnstake? || op.OpRedelegate?) && op.delegator == d
    ensures DelegationValue(l, other, on) <= DelegationValue(Effect(l, op).value.0, other, on)
  {
    match op
    case OpStake(_, v, amount) => DepositKeepsOthers(l, d, v, amount, other, on);
    case OpUnstake(_, v, shares) =>
      var l1, e := UnstakeShape(l, d, v, shares);
      WithdrawKeepsOthers(l, d, v, shares, other, on);
      assert DelegationValue(l1, other, on) == DelegationValue(Effect(l, op).value.0, other, on);
    case OpRedelegate(_, f, t, shares) =>
      WithdrawKeepsOthers(l, d, f, shares, other, on);
      WithdrawShares(l, d, f, shares);
      DepositKeepsOthers(Withdraw(l, d, f, shares).0, d, t, Withdraw(l, d, f, shares).1.value, other, on);
  }

  lemma MoreStakeKeepsValue(v: Validator, v': Validator, x: u128)
    requires v'.totalShares == v.totalShares && v.totalStake <= v'.totalStake && x <= v.totalShares
    requires v.totalShares == 0 <==> v.totalStake == 0
    requires v'.totalStake == 0 <==> v.totalStake == 0
    ensures SharesToAmount(v, x) <= SharesToAmount(v', x)
  {
    MulLe(v.totalStake, v'.totalStake, v.totalShares);
    RatioKeepsValue(v, v', x);
  }

  /** An epoch never lowers anyone's value. */
  lemma NoDilutionByEpoch(l: Ledger, reward: u128, d: Address, a: Address)
    requires LedgerInv(l) && Total(l) + reward <= U128_MAX
    requires RatesFit(l.validators) && Sum(ActiveStakes(l.validators)) <= U128_MAX
    ensures DelegationValue(l, d, a) <= DelegationValue(EndEpoch(l, reward).0, d, a)
  {
    var l' := EndEpoch(l, reward).0;
    assert l'.validators == AfterRewards(l.validators, reward) && l'.delegations == l.delegations;
    if a in l.validators {
      RewardsKeepValue(l, reward, d, a);
    }
  }

  lemma RewardsKeepValue(l: Ledger, reward: u128, d: Address, a: Address)
    requires LedgerInv(l) && Total(l) + reward <= U128_MAX && a in l.validators
    requires RatesFit(l.validators) && Sum(ActiveStakes(l.validators)) <= U128_MAX
    ensures var v' := AfterRewards(l.validators, reward)[a];
      SharesToAmount(l.validators[a], Held(l, d, a)) <= SharesToAmount(v', Held(l, d, a))
  {
    HoldingsSum(l.validators);
    RewardAllShape(l.validators, reward, a);
    HeldAtMostShares(l, d, a);
    MoreStakeKeepsValue(l.validators[a], AfterRewards(l.validators, reward)[a], Held(l, d, a));
  }

  /** What freshly minted shares are worth: at most what was paid for them. */
  lemma MintedWorth(v: Validator, amount: u128, minted: u128)
    requires v.totalStake + amount <= U128_MAX && v.totalShares + minted <= U128_MAX
    requires minted == AmountToShares(v, amount)
    requires v.totalShares == 0 <==> v.totalStake == 0
    ensures SharesToAmount(Enlarged(v, amount, minted), minted) <= amount
  {
    if v.totalShares + minted > 0 {
      if v.totalShares > 0 {
        MintedWithinRatio(v, amount);
      }
      RedeemBound(v.totalStake, v.totalShares, amount, minted);
    }
  }

  /** Staking and then unstaking the minted shares never returns more than was put in. */
  lemma RoundTripGainsNothing(l: Ledger, d: Address, a: Address, amount: u128)
    requires LedgerInv(l) && Stake(l, d, a, amount).1.Ok?
    ensures var (l1, minted) := Stake(l, d, a, amount);
      Unstake(l1, d, a, minted.value).1.Ok? ==> Unstake(l1, d, a, minted.value).1.value <= amount
  {
    var minted := DepositShape(l, d, a, amount);
    MintedWorth(l.validators[a], amount, minted);
  }

  lemma RedeemBound(s: nat, t: nat, a: nat, m: nat)
    requires t + m > 0 && m * s <= a * t
    ensures MulFloor(m, s + a, t + m) <= a
  {
    assert m * (s + a) == m * s + m * a && a * (t + m) == a * t + a * m;
    assert m * a == a * m;
    FloorAtMost(m, s + a, t + m, a);
  }

  /** The largest first deposit whose shares are one per wei: the scaled amount still fits 128 bits. */
  const BOOTSTRAP_LIMIT: nat := U128_MAX / SHARE_PRECISION

  /** The first deposit mints one share per wei exactly up to that limit, and the limit beyond it. */
  lemma BootstrapIsOneToOne(v: Validator, amount: u128)
    requires v.totalShares == 0 || v.totalStake == 0
    ensures AmountToShares(v, amount) == amount <==> amount <= BOOTSTRAP_LIMIT
    ensures AmountToShares(v, amount) == Min(amount, BOOTSTRAP_LIMIT)
  {
    if amount <= BOOTSTRAP_LIMIT {
      assert amount * SHARE_PRECISION <= U128_MAX;
    } else {
      assert amount * SHARE_PRECISION > U128_MAX;
    }
  }
}
