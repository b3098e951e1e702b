/** A reward pool split by stake, less commission, then by shares; every division rounds down. */
module RewardSplit {
  import opened Common
  import opened Arith
  import opened Sums
  import opened Staking
  import opened StakingConservation

  ghost function Active(l: Ledger): u128
    requires Sum(ActiveStakes(l.validators)) <= U128_MAX
  {
    Sum(ActiveStakes(l.validators))
  }

  ghost predicate Splittable(l: Ledger) {
    SharesMatch(l) && Sum(ActiveStakes(l.validators)) <= U128_MAX
  }

  predicate IsActive(l: Ledger, a: Address) {
    a in l.validators && !l.validators[a].jailed
  }

  ghost function ShareOf(l: Ledger, pool: u128, a: Address): u128
    requires Splittable(l) && a in l.validators
  {
    RewardShare(l.validators[a], pool, Active(l))
  }

  ghost function CommissionOf(l: Ledger, pool: u128, bps: u128, a: Address): u128
    requires Splittable(l) && a in l.validators
  {
    MulDiv(ShareOf(l, pool, a), bps, COMMISSION_BPS_DEN)
  }

  ghost function BondedOf(l: Ledger, pool: u128, bps: u128, a: Address): u128
    requires Splittable(l) && a in l.validators
  {
    SatSub(ShareOf(l, pool, a), CommissionOf(l, pool, bps, a))
  }

  /** What one delegation receives out of the bonded part. */
  ghost function CutAt(l: Ledger, pool: u128, bps: u128, p: Position): u128
    requires Splittable(l) && IsActive(l, p.validator)
  {
    if p in l.delegations
    then MulDiv(BondedOf(l, pool, bps, p.validator), l.delegations[p], l.validators[p.validator].totalShares)
    else 0
  }

  ghost function Commissions(l: Ledger, pool: u128, bps: u128): map<Address, nat>
    requires Splittable(l)
  {
    map a | a in l.validators && IsActive(l, a) :: CommissionOf(l, pool, bps, a)
  }

  ghost function PositionCuts(l: Ledger, pool: u128, bps: u128): map<Position, nat>
    requires Splittable(l)
  {
    map p | p in l.delegations && IsActive(l, p.validator) :: CutAt(l, pool, bps, p)
  }

  ghost function Shares(l: Ledger, pool: u128): map<Address, nat>
    requires Splittable(l)
  {
    map a | a in l.validators && IsActive(l, a) :: ShareOf(l, pool, a)
  }

  // ───────────── sums by validator ─────────────

  ghost function ColumnOf(m: map<Position, nat>, a: Address): map<Position, nat> {
    map p | p in m && p.validator == a :: m[p]
  }

  ghost function ColumnSums(m: map<Position, nat>, vs: set<Address>): map<Address, nat> {
    map a | a in vs :: Sum(ColumnOf(m, a))
  }

  ghost function OtherColumns(m: map<Position, nat>, a: Address): map<Position, nat> {
    map p | p in m && p.validator != a :: m[p]
  }

  lemma SumSplitColumn(m: map<Position, nat>, a: Address)
    ensures Sum(m) == Sum(ColumnOf(m, a)) + Sum(OtherColumns(m, a))
  {
    var inside := map p | p in m :: if p.validator == a then m[p] else 0;
    var outside := map p | p in m :: if p.validator != a then m[p] else 0;
    SumAdd(m, inside, outside);
    SumSkipsZeros(inside, ColumnOf(m, a));
    SumSkipsZeros(outside, OtherColumns(m, a));
  }

  /** A sum over positions is the sum of its columns. */
  lemma {:induction false} SumByColumn(m: map<Position, nat>, vs: set<Address>)
    requires forall p :: p in m ==> p.validator in vs
    ensures Sum(m) == Sum(ColumnSums(m, vs))
    decreases |vs|
  {
    if vs == {} {
      assert m == map[] && ColumnSums(m, vs) == map[];
    } else {
      var a :| a in vs;
      var rest := OtherColumns(m, a);
      SumSplitColumn(m, a);
      SumByColumn(rest, vs - {a});
      SumRemove(ColumnSums(m, vs), a);
      ColumnSumsOfRest(m, vs, a);
    }
  }

  lemma ColumnSumsOfRest(m: map<Position, nat>, vs: set<Address>, a: Address)
    ensures ColumnSums(m, vs) - {a} == ColumnSums(OtherColumns(m, a), vs - {a})
  {
    forall b | b in vs - {a} ensures ColumnOf(m, b) == ColumnOf(OtherColumns(m, a), b) {
    }
  }

  lemma {:induction false} SumOfOnes<K(!new)>(m: map<K, nat>)
    requires forall k :: k in m ==> m[k] == 1
    ensures Sum(m) == |m|
    decreases |m|
  {
    if m != map[] {
      var k :| k in m;
      SumRemove(m, k);
      assert (m - {k}).Keys == m.Keys - {k};
      SumOfOnes(m - {k});
    }
  }

  // ───────────── the split ─────────────

  lemma CommissionWithin(share: u128, bps: u128)
    requires bps <= COMMISSION_BPS_DEN
    ensures MulDiv(share, bps, COMMISSION_BPS_DEN) <= share
  {
    MulLe(bps, COMMISSION_BPS_DEN, share);
    assert share * bps == bps * share && share * COMMISSION_BPS_DEN == COMMISSION_BPS_DEN * share;
    FloorAtMost(share, bps, COMMISSION_BPS_DEN, share);
  }

  /** A validator's column of cuts is a pro-rata split of its bonded part. */
  lemma ColumnIsSplit(l: Ledger, pool: u128, bps: u128, a: Address)
    requires Splittable(l) && IsActive(l, a)
    ensures var column := ColumnOf(PositionCuts(l, pool, bps), a);
      Sum(column) <= BondedOf(l, pool, bps, a) <= Sum(column) + |column|
  {
    if l.validators[a].totalShares > 0 {
      ColumnIsCuts(l, pool, bps, a);
      CutsOfWhole(Column(l.delegations, a), BondedOf(l, pool, bps, a), l.validators[a].totalShares);
      SameSize(Column(l.delegations, a), ColumnOf(PositionCuts(l, pool, bps), a));
    } else {
      EmptyEarnsNothing(l, pool, a);
      EmptyColumn(l, pool, bps, a);
    }
  }

  lemma SameSize(m: map<Position, nat>, n: map<Position, nat>)
    requires m.Keys == n.Keys
    ensures |m| == |n|
  {
    assert |m| == |m.Keys| && |n| == |n.Keys|;
  }

  lemma EmptyColumn(l: Ledger, pool: u128, bps: u128, a: Address)
    requires Splittable(l) && IsActive(l, a) && l.validators[a].totalShares == 0
    ensures Sum(ColumnOf(PositionCuts(l, pool, bps), a)) == 0
  {
    SumOfZeros(ColumnOf(PositionCuts(l, pool, bps), a));
  }

  /** A delegation's cut is its floor share of the bonded part. */
  lemma CutIsFloor(l: Ledger, bonded: u128, p: Position)
    requires SharesMatch(l) && p in l.delegations && l.validators[p.validator].totalShares > 0
    ensures MulDiv(bonded, l.delegations[p], l.validators[p.validator].totalShares)
         == MulFloor(bonded, l.delegations[p], l.validators[p.validator].totalShares)
  {
    var x, t := l.delegations[p], l.validators[p.validator].totalShares;
    SumAtLeast(Column(l.delegations, p.validator), p);
    MulLe(x, t, bonded);
    assert bonded * x == x * bonded && bonded * t == t * bonded;
    FloorAtMost(bonded, x, t, bonded);
  }

  lemma ColumnIsCuts(l: Ledger, pool: u128, bps: u128, a: Address)
    requires Splittable(l) && IsActive(l, a) && l.validators[a].totalShares > 0
    ensures ColumnOf(PositionCuts(l, pool, bps), a)
         == Cuts(Column(l.delegations, a), BondedOf(l, pool, bps, a), l.validators[a].totalShares)
  {
    forall p | p in l.delegations && p.validator == a
      ensures CutAt(l, pool, bps, p)
           == MulFloor(BondedOf(l, pool, bps, a), l.delegations[p], l.validators[a].totalShares)
    {
      CutIsFloor(l, BondedOf(l, pool, bps, a), p);
    }
  }

  lemma EmptyEarnsNothing(l: Ledger, pool: u128, a: Address)
    requires Splittable(l) && IsActive(l, a) && l.validators[a].totalStake == 0
    ensures ShareOf(l, pool, a) == 0
  {
    if Active(l) > 0 {
      FloorIs(pool, 0, Active(l), 0);
    }
  }

  /** A validator's share is its commission plus its cuts, up to one unit per delegation. */
  lemma ShareIsSpent(l: Ledger, pool: u128, bps: u128, a: Address)
    requires Splittable(l) && IsActive(l, a) && bps <= COMMISSION_BPS_DEN
    ensures var column := ColumnOf(PositionCuts(l, pool, bps), a);
      CommissionOf(l, pool, bps, a) + Sum(column)
        <= ShareOf(l, pool, a) <= CommissionOf(l, pool, bps, a) + Sum(column) + |column|
  {
    ColumnIsSplit(l, pool, bps, a);
    CommissionWithin(ShareOf(l, pool, a), bps);
  }

  ghost function Ones(m: map<Position, nat>): map<Position, nat> {
    map p | p in m :: 1
  }

  lemma ColumnSize(m: map<Position, nat>, a: Address)
    ensures Sum(ColumnOf(Ones(m), a)) == |ColumnOf(m, a)|
  {
    SumOfOnes(ColumnOf(Ones(m), a));
    assert ColumnOf(Ones(m), a).Keys == ColumnOf(m, a).Keys;
    assert |ColumnOf(Ones(m), a)| == |ColumnOf(Ones(m), a).Keys|;
  }

  lemma SharesAreSpent(l: Ledger, pool: u128, bps: u128)
    requires Splittable(l) && bps <= COMMISSION_BPS_DEN
    ensures Sum(Commissions(l, pool, bps)) + Sum(PositionCuts(l, pool, bps)) <= Sum(Shares(l, pool))
    ensures Sum(Shares(l, pool))
         <= Sum(Commissions(l, pool, bps)) + Sum(PositionCuts(l, pool, bps)) + |PositionCuts(l, pool, bps)|
  {
    var shares, commissions, cuts := Shares(l, pool), Commissions(l, pool, bps), PositionCuts(l, pool, bps);
    var vs := shares.Keys;
    var sums, sizes := ColumnSums(cuts, vs), ColumnSums(Ones(cuts), vs);
    SumByColumn(cuts, vs);
    SumByColumn(Ones(cuts), vs);
    SumOfOnes(Ones(cuts));
    assert Ones(cuts).Keys == cuts.Keys;
    var low := map a | a in vs :: commissions[a] + sums[a];
    var high := map a | a in vs :: low[a] + sizes[a];
    forall a | a in vs ensures low[a] <= shares[a] <= high[a] {
      ShareIsSpent(l, pool, bps, a);
      ColumnSize(cuts, a);
    }
    SumAdd(low, commissions, sums);
    SumAdd(high, low, sizes);
    SumMonotone(low, shares);
    SumMonotone(shares, high);
  }

  /**
   Commissions and cuts together never exceed the pool, and what is left undistributed is less than
   one unit for each active validator and each of their delegations.
   */
  lemma SplitStaysWithinPool(l: Ledger, pool: u128, bps: u128)
    requires Splittable(l) && bps <= COMMISSION_BPS_DEN && Active(l) > 0
    ensures var spent := Sum(Commissions(l, pool, bps)) + Sum(PositionCuts(l, pool, bps));
      spent <= pool < spent + |ActiveStakes(l.validators)| + |PositionCuts(l, pool, bps)|
  {
    var cuts := Cuts(ActiveStakes(l.validators), pool, Active(l));
    forall a | a in cuts ensures Shares(l, pool)[a] == cuts[a] {
      RewardShareBound(l.validators, a, pool, Active(l));
    }
    assert Shares(l, pool) == cuts;
    CutsOfWhole(ActiveStakes(l.validators), pool, Active(l));
    SharesAreSpent(l, pool, bps);
  }

  /** A commission above 100% overspends: for every such rate some ledger and pool show it. */
  lemma RatesAboveOneOverspend(bps: u128) returns (l: Ledger, pool: u128)
    requires bps > COMMISSION_BPS_DEN
    ensures Splittable(l) && Active(l) > 0
    ensures Sum(Commissions(l, pool, bps)) > pool
  {
    pool := COMMISSION_BPS_DEN;
    var v := Validator(0, 1, 1, 0, 0, false, 0, 0);
    l := EmptyLedger.(validators := map[7 := v], delegations := map[Position(9, 7) := 1]);
    LoneValidatorSplits(l, v);
    FloorIs(pool, 1, 1, pool);
    FloorIs(pool, bps, COMMISSION_BPS_DEN, bps);
    assert CommissionOf(l, pool, bps, 7) == bps;
    SumAtLeast(Commissions(l, pool, bps), 7);
  }

  lemma LoneValidatorSplits(l: Ledger, v: Validator)
    requires v.totalStake == v.totalShares == 1 && !v.jailed
    requires l == EmptyLedger.(validators := map[7 := v], delegations := map[Position(9, 7) := 1])
    ensures Splittable(l) && Active(l) == 1
  {
    var stakes := ActiveStakes(l.validators);
    assert stakes == map[7 := 1];
    SumOfOnes(stakes);
    var column := Column(l.delegations, 7);
    assert column == map[Position(9, 7) := 1];
    SumOfOnes(column);
  }
}
