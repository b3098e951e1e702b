/** The loop that pays a reward pool out: commissions and the founder liquid, everyone else locked. */
module Distribution {
  import opened Common
  import opened Arith
  import opened Sums
  import opened Staking
  import opened StakingConservation
  import opened RewardSplit
  import opened LockedRewards

  datatype Credit = Credit(to: Address, amount: u128)

  function Paid(cs: seq<Credit>): nat {
    if cs == [] then 0 else Paid(cs[..|cs|-1]) + cs[|cs|-1].amount
  }

  function PaidTo(cs: seq<Credit>, d: Address): nat {
    if cs == [] then 0 else PaidTo(cs[..|cs|-1], d) + if cs[|cs|-1].to == d then cs[|cs|-1].amount else 0
  }

  lemma PaidAppend(cs: seq<Credit>, c: Credit, d: Address)
    ensures Paid(cs + [c]) == Paid(cs) + c.amount
    ensures PaidTo(cs + [c], d) == PaidTo(cs, d) + if c.to == d then c.amount else 0
  {
    assert (cs + [c])[..|cs|] == cs;
  }

  lemma {:induction false} PaidConcat(cs: seq<Credit>, ds: seq<Credit>, d: Address)
    ensures PaidTo(cs + ds, d) == PaidTo(cs, d) + PaidTo(ds, d)
    decreases |ds|
  {
    if ds == [] {
      assert cs + ds == cs;
    } else {
      var n := |ds| - 1;
      PaidConcat(cs, ds[..n], d);
      assert cs + ds == (cs + ds[..n]) + [ds[n]];
      PaidAppend(cs + ds[..n], ds[n], d);
    }
  }

  function LockAll(bs: Buckets, cs: seq<Credit>, height: u64): Buckets {
    if cs == [] then bs
    else AddLocked(LockAll(bs, cs[..|cs|-1], height), cs[|cs|-1].to, cs[|cs|-1].amount, height)
  }

  /** The part of a map still to be visited. */
  ghost function Rest(m: map<Address, nat>, s: set<Address>): map<Address, nat> {
    map k | k in m && k in s :: m[k]
  }

  lemma RestStep(m: map<Address, nat>, s: set<Address>, a: Address)
    requires a in s
    ensures Sum(Rest(m, s)) == Sum(Rest(m, s - {a})) + if a in m then m[a] else 0
  {
    if a in m {
      SumRemove(Rest(m, s), a);
      assert Rest(m, s) - {a} == Rest(m, s - {a});
    } else {
      assert Rest(m, s) == Rest(m, s - {a});
    }
  }

  /** What an address is due on each active validator. */
  ghost function DueMap(l: Ledger, pool: u128, bps: u128, d: Address): map<Address, nat>
    requires Splittable(l)
  {
    map a | a in l.validators && IsActive(l, a) :: CutAt(l, pool, bps, Position(d, a))
  }

  class Distributor {
    const staking: StakingModule
    const book: RewardsBook

    constructor (staking: StakingModule, book: RewardsBook)
      ensures this.staking == staking && this.book == book
    {
      this.staking, this.book := staking, book;
    }

    /** The shares delegated to one validator, added up. */
    method ColumnTotal(a: Address) returns (total: u128)
      requires Sum(Column(staking.delegations, a)) <= U128_MAX
      ensures total == Sum(Column(staking.delegations, a))
    {
      var rest := staking.delegations.Keys;
      total := 0;
      ghost var left := Column(staking.delegations, a);
      while rest != {}
        invariant rest <= staking.delegations.Keys
        invariant left == map p | p in Column(staking.delegations, a) && p in rest :: Column(staking.delegations, a)[p]
        invariant total + Sum(left) == Sum(Column(staking.delegations, a))
      {
        var p :| p in rest;
        rest := rest - {p};
        if p.validator == a {
          SumRemove(left, p);
          total := total + staking.delegations[p];
          left := left - {p};
        }
      }
      assert left == map[];
    }

    /** Divide one validator's bonded part over its delegations. */
    method SplitOne(a: Address, bonded: u128, founder: Address) returns (liquid: seq<Credit>, locks: seq<Credit>)
      requires a in staking.validators && SharesMatch(staking.View())
      ensures forall d :: PaidTo(locks, d) == if d == founder then 0 else CutOn(staking.View(), bonded, Position(d, a))
      ensures forall c :: c in liquid ==> c.to == founder
      ensures Paid(liquid) == CutOn(staking.View(), bonded, Position(founder, a))
      ensures Paid(liquid) + Paid(locks) == Sum(CutsOn(staking.View(), bonded, a, staking.delegations.Keys))
    {
      ghost var l := staking.View();
      liquid, locks := [], [];
      var totalShares := ColumnTotal(a);
      if totalShares == 0 || bonded == 0 {
        NothingToCut(l, bonded, a);
        SumOfZeros(CutsOn(l, bonded, a, l.delegations.Keys));
        return;
      }
      liquid, locks := CutShares(a, bonded, totalShares, founder);
    }

    /** Visit the delegations of one validator and credit each its cut, founder apart. */
    method CutShares(a: Address, bonded: u128, totalShares: u128, founder: Address)
      returns (liquid: seq<Credit>, locks: seq<Credit>)
      requires a in staking.validators && totalShares == staking.validators[a].totalShares > 0
      ensures SplitCovers(staking.View(), bonded, a, founder, {}, liquid, locks)
    {
      ghost var l := staking.View();
      liquid, locks := [], [];
      var rest := staking.delegations.Keys;
      SplitStart(l, bonded, a, founder);
      while rest != {}
        invariant rest <= staking.delegations.Keys && l == staking.View()
        invariant SplitCovers(l, bonded, a, founder, rest, liquid, locks)
      {
        var p :| p in rest;
        if p.validator == a {
          var cut := MulDiv(bonded, staking.delegations[p], totalShares);
          SplitStep(l, bonded, a, founder, rest, liquid, locks, p);
          if cut > 0 {
            if p.delegator == founder {
              liquid := liquid + [Credit(founder, cut)];
            } else {
              locks := locks + [Credit(p.delegator, cut)];
            }
          }
        } else {
          SplitSkip(l, bonded, a, founder, rest, liquid, locks, p);
        }
        rest := rest - {p};
      }
    }

    /** Apply the collected lock credits, one by one. */
    method LockCredits(cs: seq<Credit>, height: u64) returns (total: u128)
      modifies book
      ensures book.locked == LockAll(old(book.locked), cs, height)
      ensures total == Min(Paid(cs), U128_MAX)
    {
      total := 0;
      for i := 0 to |cs|
        invariant book.locked == LockAll(old(book.locked), cs[..i], height)
        invariant total == Min(Paid(cs[..i]), U128_MAX)
      {
        book.Lock(cs[i].to, cs[i].amount, height);
        total := SatAdd128(total, cs[i].amount);
        assert cs[..i+1][..i] == cs[..i];
      }
      assert cs[..|cs|] == cs;
    }

    /**
     Pay the pool out. Commissions and the founder's own cuts are liquid; every other delegator is
     credited, into its locked bucket, exactly the sum of its cuts over the active validators.
     */
    method DistributePoolRewards(height: u64, pool: u128, bps: u128, founder: Address)
      returns (commissions: seq<Credit>, liquid: seq<Credit>, totalLocked: u128, ghost credits: seq<Credit>)
      requires Splittable(staking.View())
      modifies book
      ensures pool == 0 || Active(staking.View()) == 0 ==>
        commissions == [] && liquid == [] && totalLocked == 0 && book.locked == old(book.locked)
      ensures pool > 0 && Active(staking.View()) > 0 ==>
        && Paid(commissions) == Sum(Commissions(staking.View(), pool, bps))
        && Paid(liquid) == Sum(DueMap(staking.View(), pool, bps, founder))
        && (forall c :: c in commissions + liquid ==> c.to == founder)
        && book.locked == LockAll(old(book.locked), credits, height)
        && totalLocked == Min(Paid(credits), U128_MAX)
        && Paid(liquid) + Paid(credits) == Sum(PositionCuts(staking.View(), pool, bps))
        && forall d :: PaidTo(credits, d) == if d == founder then 0 else Sum(DueMap(staking.View(), pool, bps, d))
      ensures pool > 0 && Active(staking.View()) > 0 && bps <= COMMISSION_BPS_DEN ==>
        var spent := Paid(commissions) + Paid(liquid) + Paid(credits);
        && spent <= pool
        && pool < spent + |ActiveStakes(staking.validators)| + |PositionCuts(staking.View(), pool, bps)|
        && totalLocked == Paid(credits)
    {
      commissions, liquid, totalLocked, credits := [], [], 0, [];
      if pool == 0 {
        return;
      }
      var active := staking.ActiveTotal();
      if active == 0 {
        return;
      }
      var locks: seq<Credit>;
      commissions, liquid, locks := CollectCredits(pool, active, bps, founder);
      totalLocked := LockCredits(locks, height);
      credits := locks;
      if bps <= COMMISSION_BPS_DEN {
        SplitStaysWithinPool(staking.View(), pool, bps);
      }
    }

    method CollectCredits(pool: u128, active: u128, bps: u128, founder: Address)
      returns (commissions: seq<Credit>, liquid: seq<Credit>, locks: seq<Credit>)
      requires Splittable(staking.View()) && active == Active(staking.View()) && active > 0
      ensures Paid(commissions) == Sum(Commissions(staking.View(), pool, bps))
      ensures Paid(liquid) == Sum(DueMap(staking.View(), pool, bps, founder))
      ensures forall c :: c in commissions + liquid ==> c.to == founder
      ensures forall d :: PaidTo(locks, d) == if d == founder then 0 else Sum(DueMap(staking.View(), pool, bps, d))
      ensures Paid(liquid) + Paid(locks) == Sum(PositionCuts(staking.View(), pool, bps))
    {
      ghost var l := staking.View();
      commissions, liquid, locks := [], [], [];
      var rest := staking.validators.Keys;
      RestOfAll(l, pool, bps, founder);
      assert Rest(ColumnTotals(l, pool, bps), rest) == ColumnTotals(l, pool, bps);
      while rest != {}
        invariant rest <= staking.validators.Keys && l == staking.View()
        invariant LiquidCovers(l, pool, bps, founder, rest, commissions, liquid)
        invariant LocksCover(l, pool, bps, founder, rest, locks)
        invariant CutsCovered(l, pool, bps, rest, liquid, locks)
      {
        var a :| a in rest;
        if !staking.validators[a].jailed {
          var fee, cutsLiquid, cutsLocked := ShareOut(a, pool, active, bps, founder);
          LiquidStep(l, pool, bps, founder, rest, commissions, liquid, a, fee, cutsLiquid);
          LocksCoverStep(l, pool, bps, founder, rest, locks, a, cutsLocked);
          CutsCoveredStep(l, pool, bps, rest, liquid, locks, a, cutsLiquid, cutsLocked);
          commissions, liquid, locks := commissions + fee, liquid + cutsLiquid, locks + cutsLocked;
        } else {
          LiquidSkipJailed(l, pool, bps, founder, rest, commissions, liquid, a);
          LocksSkipJailed(l, pool, bps, founder, rest, locks, a);
          RestStep(ColumnTotals(l, pool, bps), rest, a);
        }
        rest := rest - {a};
      }
      NothingRests(l, pool, bps, founder, locks);
      AllCutsCovered(l, pool, bps, liquid, locks);
    }

    /** One active validator: its commission to the founder, its bonded part over its delegations. */
    method ShareOut(a: Address, pool: u128, active: u128, bps: u128, founder: Address)
      returns (fee: seq<Credit>, liquid: seq<Credit>, locks: seq<Credit>)
      requires Splittable(staking.View()) && active == Active(staking.View()) && IsActive(staking.View(), a)
      ensures Paid(fee) == CommissionOf(staking.View(), pool, bps, a)
      ensures Paid(liquid) == CutOn(staking.View(), BondedOf(staking.View(), pool, bps, a), Position(founder, a))
      ensures forall c :: c in fee + liquid ==> c.to == founder
      ensures LockedPerDelegator(staking.View(), pool, bps, founder, a, locks)
      ensures Paid(liquid) + Paid(locks) == Sum(ColumnOf(PositionCuts(staking.View(), pool, bps), a))
    {
      var share := MulDiv(pool, staking.validators[a].totalStake, active);
      var commission := MulDiv(share, bps, COMMISSION_BPS_DEN);
      fee := [];
      if commission > 0 {
        PaidAppend([], Credit(founder, commission), founder);
        fee := [] + [Credit(founder, commission)];
      }
      liquid, locks := SplitOne(a, SatSub(share, commission), founder);
      ColumnOfCuts(staking.View(), pool, bps, a);
    }
  }

  // ───────────── one validator's delegations ─────────────

  /** Everyone but the founder is locked exactly the cut of their delegation to `a`. */
  ghost predicate LockedPerDelegator(l: Ledger, pool: u128, bps: u128, founder: Address, a: Address, locks: seq<Credit>)
    requires Splittable(l) && a in l.validators
  {
    forall d :: PaidTo(locks, d) == if d == founder then 0 else CutOn(l, BondedOf(l, pool, bps, a), Position(d, a))
  }

  /** The cuts of the positions on `a` still to be visited. */
  ghost function CutsOn(l: Ledger, bonded: u128, a: Address, rest: set<Position>): map<Position, nat> {
    map p | p in l.delegations && p.validator == a && p in rest :: CutOn(l, bonded, p)
  }

  lemma CutsOnStep(l: Ledger, bonded: u128, a: Address, rest: set<Position>, p: Position)
    requires p in rest && p in l.delegations
    ensures Sum(CutsOn(l, bonded, a, rest))
         == Sum(CutsOn(l, bonded, a, rest - {p})) + if p.validator == a then CutOn(l, bonded, p) else 0
  {
    if p.validator == a {
      SumRemove(CutsOn(l, bonded, a, rest), p);
      assert CutsOn(l, bonded, a, rest) - {p} == CutsOn(l, bonded, a, rest - {p});
    } else {
      assert CutsOn(l, bonded, a, rest) == CutsOn(l, bonded, a, rest - {p});
    }
  }

  /** Credits so far cover the cuts of the positions visited, per address and in all. */
  ghost predicate SplitCovers(l: Ledger, bonded: u128, a: Address, founder: Address, rest: set<Position>,
                              liquid: seq<Credit>, locks: seq<Credit>) {
    && LocksSplit(l, bonded, a, founder, rest, locks)
    && (forall c :: c in liquid ==> c.to == founder)
    && Paid(liquid) == (if Position(founder, a) in rest then 0 else CutOn(l, bonded, Position(founder, a)))
    && Paid(liquid) + Paid(locks) + Sum(CutsOn(l, bonded, a, rest)) == Sum(CutsOn(l, bonded, a, l.delegations.Keys))
  }

  ghost predicate LocksSplit(l: Ledger, bonded: u128, a: Address, founder: Address, rest: set<Position>,
                             locks: seq<Credit>) {
    forall d :: PaidTo(locks, d)
             == if d == founder || Position(d, a) in rest then 0 else CutOn(l, bonded, Position(d, a))
  }

  lemma SplitStart(l: Ledger, bonded: u128, a: Address, founder: Address)
    ensures SplitCovers(l, bonded, a, founder, l.delegations.Keys, [], [])
  {
  }

  /** One delegation of `a`: its cut joins the founder's payment or the locks. */
  lemma SplitStep(l: Ledger, bonded: u128, a: Address, founder: Address, rest: set<Position>,
                  liquid: seq<Credit>, locks: seq<Credit>, p: Position)
    requires SplitCovers(l, bonded, a, founder, rest, liquid, locks)
    requires p in rest && p in l.delegations && p.validator == a
    ensures var cut := CutOn(l, bonded, p);
      SplitCovers(l, bonded, a, founder, rest - {p},
        if cut > 0 && p.delegator == founder then liquid + [Credit(founder, cut)] else liquid,
        if cut > 0 && p.delegator != founder then locks + [Credit(p.delegator, cut)] else locks)
  {
    var cut := CutOn(l, bonded, p);
    assert p == Position(p.delegator, a);
    CutsOnStep(l, bonded, a, rest, p);
    if cut > 0 && p.delegator == founder {
      PaidAppend(liquid, Credit(founder, cut), founder);
    } else if cut > 0 {
      PaidAppend(locks, Credit(p.delegator, cut), founder);
    }
    LocksSplitStep(l, bonded, a, founder, rest, locks, p);
  }

  lemma LocksSplitStep(l: Ledger, bonded: u128, a: Address, founder: Address, rest: set<Position>,
                       locks: seq<Credit>, p: Position)
    requires LocksSplit(l, bonded, a, founder, rest, locks) && p in rest && p.validator == a
    ensures var cut := CutOn(l, bonded, p);
      LocksSplit(l, bonded, a, founder, rest - {p},
        if cut > 0 && p.delegator != founder then locks + [Credit(p.delegator, cut)] else locks)
  {
    var cut := CutOn(l, bonded, p);
    assert p == Position(p.delegator, a);
    if cut > 0 && p.delegator != founder {
      forall d
        ensures PaidTo(locks + [Credit(p.delegator, cut)], d) == PaidTo(locks, d) + if d == p.delegator then cut else 0
      {
        PaidAppend(locks, Credit(p.delegator, cut), d);
      }
    }
  }

  /** A delegation elsewhere changes nothing here. */
  lemma SplitSkip(l: Ledger, bonded: u128, a: Address, founder: Address, rest: set<Position>,
                  liquid: seq<Credit>, locks: seq<Credit>, p: Position)
    requires SplitCovers(l, bonded, a, founder, rest, liquid, locks)
    requires p in rest && p in l.delegations && p.validator != a
    ensures SplitCovers(l, bonded, a, founder, rest - {p}, liquid, locks)
  {
    CutsOnStep(l, bonded, a, rest, p);
  }

  /** One validator's column of the split is what its delegations are cut. */
  lemma ColumnOfCuts(l: Ledger, pool: u128, bps: u128, a: Address)
    requires Splittable(l) && IsActive(l, a)
    ensures ColumnOf(PositionCuts(l, pool, bps), a) == CutsOn(l, BondedOf(l, pool, bps, a), a, l.delegations.Keys)
  {
  }

  // ───────────── over the validators ─────────────

  /** What each active validator's delegations are cut in all. */
  ghost function ColumnTotals(l: Ledger, pool: u128, bps: u128): map<Address, nat>
    requires Splittable(l)
  {
    ColumnSums(PositionCuts(l, pool, bps), ActiveStakes(l.validators).Keys)
  }

  /** Liquid and locked credits so far are the whole columns of the validators visited. */
  ghost predicate CutsCovered(l: Ledger, pool: u128, bps: u128, rest: set<Address>, liquid: seq<Credit>,
                              locks: seq<Credit>)
    requires Splittable(l)
  {
    Paid(liquid) + Paid(locks) + Sum(Rest(ColumnTotals(l, pool, bps), rest)) == Sum(ColumnTotals(l, pool, bps))
  }

  lemma CutsCoveredStep(l: Ledger, pool: u128, bps: u128, rest: set<Address>, liquid: seq<Credit>, locks: seq<Credit>,
                        a: Address, cutsLiquid: seq<Credit>, cutsLocked: seq<Credit>)
    requires Splittable(l) && IsActive(l, a) && a in rest && CutsCovered(l, pool, bps, rest, liquid, locks)
    requires Paid(cutsLiquid) + Paid(cutsLocked) == Sum(ColumnOf(PositionCuts(l, pool, bps), a))
    ensures CutsCovered(l, pool, bps, rest - {a}, liquid + cutsLiquid, locks + cutsLocked)
  {
    RestStep(ColumnTotals(l, pool, bps), rest, a);
    PaidSum(liquid, cutsLiquid);
    PaidSum(locks, cutsLocked);
  }

  /** Rows and columns meet: everything credited, to whomever, is the sum of the cuts over all positions. */
  lemma AllCutsCovered(l: Ledger, pool: u128, bps: u128, liquid: seq<Credit>, locks: seq<Credit>)
    requires Splittable(l) && CutsCovered(l, pool, bps, {}, liquid, locks)
    ensures Paid(liquid) + Paid(locks) == Sum(PositionCuts(l, pool, bps))
  {
    assert Rest(ColumnTotals(l, pool, bps), {}) == map[];
    SumByColumn(PositionCuts(l, pool, bps), ActiveStakes(l.validators).Keys);
  }

  /** Liquid payments so far cover commissions and the founder's cuts of the validators visited. */
  ghost predicate LiquidCovers(l: Ledger, pool: u128, bps: u128, founder: Address, rest: set<Address>,
                               fees: seq<Credit>, liquid: seq<Credit>)
    requires Splittable(l)
  {
    && Paid(fees) + Sum(Rest(Commissions(l, pool, bps), rest)) == Sum(Commissions(l, pool, bps))
    && Paid(liquid) + Sum(Rest(DueMap(l, pool, bps, founder), rest)) == Sum(DueMap(l, pool, bps, founder))
    && forall c :: c in fees + liquid ==> c.to == founder
  }

  lemma LiquidStep(l: Ledger, pool: u128, bps: u128, founder: Address, rest: set<Address>, fees: seq<Credit>,
                   liquid: seq<Credit>,
                   a: Address, fee: seq<Credit>, cuts: seq<Credit>)
    requires Splittable(l) && IsActive(l, a) && a in rest && LiquidCovers(l, pool, bps, founder, rest, fees, liquid)
    requires Paid(fee) == CommissionOf(l, pool, bps, a)
    requires Paid(cuts) == CutOn(l, BondedOf(l, pool, bps, a), Position(founder, a))
    requires forall c :: c in fee + cuts ==> c.to == founder
    ensures LiquidCovers(l, pool, bps, founder, rest - {a}, fees + fee, liquid + cuts)
  {
    RestStep(Commissions(l, pool, bps), rest, a);
    RestStep(DueMap(l, pool, bps, founder), rest, a);
    PaidSum(fees, fee);
    PaidSum(liquid, cuts);
    assert DueMap(l, pool, bps, founder)[a] == CutOn(l, BondedOf(l, pool, bps, a), Position(founder, a));
  }

  lemma LiquidSkipJailed(l: Ledger, pool: u128, bps: u128, founder: Address, rest: set<Address>, fees: seq<Credit>,
                         liquid: seq<Credit>, a: Address)
    requires Splittable(l) && !IsActive(l, a) && a in rest && LiquidCovers(l, pool, bps, founder, rest, fees, liquid)
    ensures LiquidCovers(l, pool, bps, founder, rest - {a}, fees, liquid)
  {
    RestStep(Commissions(l, pool, bps), rest, a);
    RestStep(DueMap(l, pool, bps, founder), rest, a);
  }

  /** `CutAt` for a given bonded part; nothing for someone without a position. */
  function CutOn(l: Ledger, bonded: u128, p: Position): u128 {
    if p in l.delegations && p.validator in l.validators
    then MulDiv(bonded, l.delegations[p], l.validators[p.validator].totalShares) else 0
  }

  lemma NothingToCut(l: Ledger, bonded: u128, a: Address)
    requires SharesMatch(l) && a in l.validators
    requires Sum(Column(l.delegations, a)) == 0 || bonded == 0
    ensures forall d :: CutOn(l, bonded, Position(d, a)) == 0
  {
    forall d ensures CutOn(l, bonded, Position(d, a)) == 0 {
      var p := Position(d, a);
      if p in l.delegations && l.validators[a].totalShares > 0 {
        FloorIs(0, l.delegations[p], l.validators[a].totalShares, 0);
      }
    }
  }

  lemma {:induction false} PaidSum(cs: seq<Credit>, ds: seq<Credit>)
    ensures Paid(cs + ds) == Paid(cs) + Paid(ds)
    decreases |ds|
  {
    if ds == [] {
      assert cs + ds == cs;
    } else {
      var n := |ds| - 1;
      PaidSum(cs, ds[..n]);
      assert cs + ds == (cs + ds[..n]) + [ds[n]];
      PaidAppend(cs + ds[..n], ds[n], 0);
    }
  }

  /** The locks collected so far cover what each delegator is due on the validators visited. */
  ghost predicate LocksCover(l: Ledger, pool: u128, bps: u128, founder: Address, rest: set<Address>, locks: seq<Credit>)
    requires Splittable(l)
  {
    forall d :: PaidTo(locks, d) + (if d == founder then 0 else Sum(Rest(DueMap(l, pool, bps, d), rest)))
             == if d == founder then 0 else Sum(DueMap(l, pool, bps, d))
  }

  lemma LocksCoverStep(l: Ledger, pool: u128, bps: u128, founder: Address, rest: set<Address>, locks: seq<Credit>,
                       a: Address, more: seq<Credit>)
    requires Splittable(l) && IsActive(l, a) && a in rest && LocksCover(l, pool, bps, founder, rest, locks)
    requires LockedPerDelegator(l, pool, bps, founder, a, more)
    ensures LocksCover(l, pool, bps, founder, rest - {a}, locks + more)
  {
    forall d
      ensures PaidTo(locks + more, d) + (if d == founder then 0 else Sum(Rest(DueMap(l, pool, bps, d), rest - {a})))
           == if d == founder then 0 else Sum(DueMap(l, pool, bps, d))
    {
      PaidConcat(locks, more, d);
      RestStep(DueMap(l, pool, bps, d), rest, a);
    }
  }

  lemma LocksSkipJailed(l: Ledger, pool: u128, bps: u128, founder: Address, rest: set<Address>, locks: seq<Credit>,
                        a: Address)
    requires Splittable(l) && !IsActive(l, a) && a in rest && LocksCover(l, pool, bps, founder, rest, locks)
    ensures LocksCover(l, pool, bps, founder, rest - {a}, locks)
  {
    forall d
      ensures PaidTo(locks, d) + (if d == founder then 0 else Sum(Rest(DueMap(l, pool, bps, d), rest - {a})))
           == if d == founder then 0 else Sum(DueMap(l, pool, bps, d))
    {
      RestStep(DueMap(l, pool, bps, d), rest, a);
    }
  }

  lemma RestOfAll(l: Ledger, pool: u128, bps: u128, founder: Address)
    requires Splittable(l)
    ensures Rest(Commissions(l, pool, bps), l.validators.Keys) == Commissions(l, pool, bps)
    ensures Rest(DueMap(l, pool, bps, founder), l.validators.Keys) == DueMap(l, pool, bps, founder)
    ensures LocksCover(l, pool, bps, founder, l.validators.Keys, [])
    ensures LiquidCovers(l, pool, bps, founder, l.validators.Keys, [], [])
  {
    forall d ensures Rest(DueMap(l, pool, bps, d), l.validators.Keys) == DueMap(l, pool, bps, d) {
    }
  }

  lemma NothingRests(l: Ledger, pool: u128, bps: u128, founder: Address, locks: seq<Credit>)
    requires Splittable(l) && LocksCover(l, pool, bps, founder, {}, locks)
    ensures Rest(Commissions(l, pool, bps), {}) == map[] && Rest(DueMap(l, pool, bps, founder), {}) == map[]
    ensures forall d :: PaidTo(locks, d) == if d == founder then 0 else Sum(DueMap(l, pool, bps, d))
  {
    forall d ensures Rest(DueMap(l, pool, bps, d), {}) == map[] {
    }
  }
}
