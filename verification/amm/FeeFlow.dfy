/** Where every token of the native pool goes, over any run of swaps and settlements. */
module FeeFlow {
  import opened Common
  import opened Arith
  import opened ConstantProduct
  import opened NativePool

  datatype Move = SellZbx(zbxIn: u128, atZbx: u64) | SellZusd(zusdIn: u128, atZusd: u64) | SettleUp

  /** What traders put in and took out, and what the admin was paid. */
  datatype Flow = Flow(zbxIn: nat, zbxOut: nat, zusdIn: nat, zusdOut: nat, adminZbx: nat, adminZusd: nat)

  const NOTHING := Flow(0, 0, 0, 0, 0, 0)

  function Plus(a: Flow, b: Flow): Flow {
    Flow(a.zbxIn + b.zbxIn, a.zbxOut + b.zbxOut, a.zusdIn + b.zusdIn, a.zusdOut + b.zusdOut,
         a.adminZbx + b.adminZbx, a.adminZusd + b.adminZusd)
  }

  function Apply(p: Amm, m: Move): (Amm, Flow) {
    match m
    case SellZbx(x, h) =>
      (match SellingZbx(p, x)
       case Ok(out) => (AfterSellZbx(p, x, out, h), NOTHING.(zbxIn := x, zusdOut := out))
       case Err(_) => (p, NOTHING))
    case SellZusd(x, h) =>
      (match SellingZusd(p, x)
       case Ok(out) => (AfterSellZusd(p, x, out, h), NOTHING.(zusdIn := x, zbxOut := out))
       case Err(_) => (p, NOTHING))
    case SettleUp =>
      var (after, admin) := Settle(p);
      (after, NOTHING.(adminZbx := admin.zbx, adminZusd := admin.zusd))
  }

  /** Neither a reserve nor a fee bucket has to hold more than a u128 counts. */
  predicate Fits(p: Amm, m: Move) {
    match m
    case SellZbx(x, _) =>
      SellingZbx(p, x).Ok? ==> p.zbx + (x - FeeOn(x)) <= U128_MAX && p.feeZbx + FeeOn(x) <= U128_MAX
    case SellZusd(x, _) =>
      SellingZusd(p, x).Ok? ==> p.zusd + (x - FeeOn(x)) <= U128_MAX && p.feeZusd + FeeOn(x) <= U128_MAX
    case SettleUp =>
      var admin := Settle(p).1;
      p.zbx + p.feeZbx - admin.zbx <= U128_MAX && p.zusd + p.feeZusd - admin.zusd <= U128_MAX
  }

  /** Reserves and buckets hold what they held, plus what traders paid, less what was paid out. */
  predicate Conserved(p: Amm, after: Amm, f: Flow) {
    && after.zbx + after.feeZbx + f.zbxOut + f.adminZbx == p.zbx + p.feeZbx + f.zbxIn
    && after.zusd + after.feeZusd + f.zusdOut + f.adminZusd == p.zusd + p.feeZusd + f.zusdIn
  }

  /** The same with at most for equal: saturation can lose tokens, never make them. */
  predicate NoneMade(p: Amm, after: Amm, f: Flow) {
    && after.zbx + after.feeZbx + f.zbxOut + f.adminZbx <= p.zbx + p.feeZbx + f.zbxIn
    && after.zusd + after.feeZusd + f.zusdOut + f.adminZusd <= p.zusd + p.feeZusd + f.zusdIn
  }

  predicate ProductHolds(p: Amm, after: Amm) {
    p.zbx * p.zusd <= after.zbx * after.zusd
  }

  /** The admin has been paid only if the loan is gone. */
  predicate LoanFirst(p: Amm, after: Amm, f: Flow) {
    after.loan <= p.loan && (f.adminZbx > 0 || f.adminZusd > 0 ==> after.loan == 0)
  }

  // ───────────── one swap ─────────────

  lemma FeeIsPart(x: u128)
    ensures FeeOn(x) <= x && (x > 0 ==> FeeOn(x) < x)
  {
  }

  /** The product of the reserves, the fee left aside, is kept, and one unit more out would break it. */
  lemma SwapIsExact(lp: u128, rin: u128, rout: u128, amount: u128, most: Option<u128>)
    requires Swapping(lp, rin, rout, amount, most).Ok?
    ensures var out, eff := Swapping(lp, rin, rout, amount, most).value, SatSub(amount, FeeOn(amount));
      && MIN_SWAP_OUT <= out < rout
      && (rin + eff) * (rout - out - 1) < rin * rout <= (rin + eff) * (rout - out)
  {
    FeeIsPart(amount);
    OutputIsExact(rin, rout, SatSub(amount, FeeOn(amount)));
  }

  /** What one move does, saturating or not. */
  predicate Flows(p: Amm, m: Move) {
    var (after, f) := Apply(p, m);
    && NoneMade(p, after, f) && LoanFirst(p, after, f)
    && (Conserved(p, after, f) <==> Fits(p, m))
    && (Fits(p, m) ==> ProductHolds(p, after))
  }

  lemma SellZbxFlows(p: Amm, x: u128, h: u64)
    ensures Flows(p, SellZbx(x, h))
  {
    FeeIsPart(x);
    if SellingZbx(p, x).Ok? {
      SwapIsExact(p.lp, p.zbx, p.zusd, x, None);
    }
  }

  lemma SellZusdFlows(p: Amm, x: u128, h: u64)
    ensures Flows(p, SellZusd(x, h))
  {
    FeeIsPart(x);
    if SellingZusd(p, x).Ok? {
      SwapIsExact(p.lp, p.zusd, p.zbx, x, Some(MAX_SWAP));
    }
  }

  // ───────────── one settlement ─────────────

  /** Settling always empties the bucket, into the admin's hands and, up to their room, the reserves. */
  lemma SettleMoves(p: Amm)
    ensures var (after, admin) := Settle(p);
      && after.feeZbx == 0 && after.feeZusd == 0
      && 2 * admin.zbx <= p.feeZbx && 2 * admin.zusd <= p.feeZusd
      && after.zbx == Min(p.zbx + p.feeZbx - admin.zbx, U128_MAX)
      && after.zusd == Min(p.zusd + p.feeZusd - admin.zusd, U128_MAX)
  {
  }

  /** The loan only falls, and a payout means it is gone; saturation does not matter here. */
  lemma SettleRepaysFirst(p: Amm)
    ensures var (after, admin) := Settle(p);
      after.loan <= p.loan && (admin.zbx > 0 || admin.zusd > 0 ==> after.loan == 0)
    ensures Settle(Settle(p).0) == (Settle(p).0, Payout(0, 0))
  {
  }

  lemma SettleFlows(p: Amm)
    ensures Flows(p, SettleUp)
  {
    var after := Settle(p).0;
    SettleMoves(p);
    SettleRepaysFirst(p);
    MulLe(p.zbx, after.zbx, p.zusd);
    assert p.zusd * after.zbx == after.zbx * p.zusd;
    MulLe(p.zusd, after.zusd, after.zbx);
    assert after.zusd * after.zbx == after.zbx * after.zusd;
  }

  // ───────────── whole runs ─────────────

  function RunMoves(p: Amm, ms: seq<Move>): (Amm, Flow)
    decreases |ms|
  {
    if ms == [] then (p, NOTHING)
    else
      var (next, f) := Apply(p, ms[0]);
      var (last, g) := RunMoves(next, ms[1..]);
      (last, Plus(f, g))
  }

  predicate RunFits(p: Amm, ms: seq<Move>)
    decreases |ms|
  {
    ms == [] || (Fits(p, ms[0]) && RunFits(Apply(p, ms[0]).0, ms[1..]))
  }

  lemma MoveFlows(p: Amm, m: Move)
    ensures Flows(p, m)
  {
    match m
    case SellZbx(x, h) => SellZbxFlows(p, x, h);
    case SellZusd(x, h) => SellZusdFlows(p, x, h);
    case SettleUp => SettleFlows(p);
  }

  /**
   Over any run no token is made and the loan comes before the admin; every token is accounted for
   exactly when every move fits, and then the product of the reserves never falls.
   */
  lemma {:induction false} EveryTokenIsAccounted(p: Amm, ms: seq<Move>)
    ensures var (after, f) := RunMoves(p, ms);
      && NoneMade(p, after, f) && LoanFirst(p, after, f)
      && (Conserved(p, after, f) <==> RunFits(p, ms))
      && (RunFits(p, ms) ==> ProductHolds(p, after))
    decreases |ms|
  {
    if ms != [] {
      MoveFlows(p, ms[0]);
      EveryTokenIsAccounted(Apply(p, ms[0]).0, ms[1..]);
    }
  }

  /** What the moves of a run ask to put into the pool. */
  function Offered(ms: seq<Move>): (nat, nat)
    decreases |ms|
  {
    if ms == [] then (0, 0)
    else
      var (zbx, zusd) := Offered(ms[1..]);
      match ms[0]
      case SellZbx(x, _) => (zbx + x, zusd)
      case SellZusd(x, _) => (zbx, zusd + x)
      case SettleUp => (zbx, zusd)
  }

  /** A run fits whenever what the pool holds and everything offered to it can be counted in a u128. */
  lemma {:induction false} BoundedRunFits(p: Amm, ms: seq<Move>)
    requires p.zbx + p.feeZbx + Offered(ms).0 <= U128_MAX && p.zusd + p.feeZusd + Offered(ms).1 <= U128_MAX
    ensures RunFits(p, ms)
    decreases |ms|
  {
    if ms != [] {
      MoveFlows(p, ms[0]);
      RoomForMove(p, ms[0]);
      BoundedRunFits(Apply(p, ms[0]).0, ms[1..]);
    }
  }

  lemma RoomForMove(p: Amm, m: Move)
    requires p.zbx + p.feeZbx + Offered([m]).0 <= U128_MAX && p.zusd + p.feeZusd + Offered([m]).1 <= U128_MAX
    ensures Fits(p, m)
  {
    if m.SellZbx? { FeeIsPart(m.zbxIn); }
    if m.SellZusd? { FeeIsPart(m.zusdIn); }
    SettleMoves(p);
  }

  /** Traders as a whole cannot leave with both tokens: taking ZBX out on balance costs them zUSD. */
  lemma TradersPayForWhatTheyTake(p: Amm, ms: seq<Move>)
    requires RunFits(p, ms) && p.zbx > 0 && p.zusd > 0
    ensures var (after, f) := RunMoves(p, ms);
      && after.zbx > 0 && after.zusd > 0
      && (after.zbx <= p.zbx ==> after.zusd >= p.zusd)
      && (after.zusd <= p.zusd ==> after.zbx >= p.zbx)
  {
    EveryTokenIsAccounted(p, ms);
    BothSidesWeigh(p, RunMoves(p, ms).0);
  }

  lemma BothSidesWeigh(p: Amm, after: Amm)
    requires p.zbx > 0 && p.zusd > 0 && ProductHolds(p, after)
    ensures after.zbx > 0 && after.zusd > 0
    ensures (after.zbx <= p.zbx ==> after.zusd >= p.zusd) && (after.zusd <= p.zusd ==> after.zbx >= p.zbx)
  {
    OtherSideGrew(p.zbx, p.zusd, after.zbx, after.zusd);
    assert p.zusd * p.zbx <= after.zusd * after.zbx;
    OtherSideGrew(p.zusd, p.zbx, after.zusd, after.zbx);
  }

  // ───────────── the lifetime totals ─────────────

  predicate TotalsAgree(p: Amm) {
    p.totalFees == p.totalAdmin + p.totalReinvested
  }

  /** What a settlement adds to the admin's total, and what to the reinvested total, before capping. */
  function Booked(p: Amm): (nat, nat) {
    if p.feeZbx == 0 && p.feeZusd == 0 then (0, 0)
    else if p.loan == 0 then (AdminValue(p), KeptValue(p))
    else if BucketValue(p) <= p.loan then (0, BucketValue(p))
    else (AdminValue(RepayPart(p)), p.loan + KeptValue(RepayPart(p)))
  }

  lemma SettleBooks(p: Amm)
    ensures var ((after, _), (admin, kept)) := (Settle(p), Booked(p));
      && after.totalAdmin == Min(p.totalAdmin + admin, U128_MAX)
      && after.totalReinvested == Min(p.totalReinvested + kept, U128_MAX)
      && after.totalFees == Min(p.totalFees + admin + kept, U128_MAX)
  {
    if p.loan == 0 {
      SplitBooks(p);
    } else if BucketValue(p) > p.loan {
      SplitBooks(RepayPart(p));
      RepayBooks(p);
    }
  }

  lemma SplitBooks(p: Amm)
    ensures var (after, admin, kept) := (Split(p), AdminValue(p), KeptValue(p));
      && after.totalAdmin == Min(p.totalAdmin + admin, U128_MAX)
      && after.totalReinvested == Min(p.totalReinvested + kept, U128_MAX)
      && after.totalFees == Min(p.totalFees + admin + kept, U128_MAX)
  {
  }

  lemma RepayBooks(p: Amm)
    requires p.loan < BucketValue(p)
    ensures var after := RepayPart(p);
      && after.totalAdmin == p.totalAdmin
      && after.totalReinvested == Min(p.totalReinvested + p.loan, U128_MAX)
      && after.totalFees == Min(p.totalFees + p.loan, U128_MAX)
  {
  }

  /** Fees collected stay equal to fees paid plus fees reinvested exactly while the sum fits, or only one side earns. */
  lemma TotalsAgreeIff(p: Amm)
    requires TotalsAgree(p)
    ensures var (admin, kept) := Booked(p);
      TotalsAgree(Settle(p).0) <==>
        p.totalFees + admin + kept <= U128_MAX || p.totalAdmin + admin == 0 || p.totalReinvested + kept == 0
  {
    SettleBooks(p);
  }

  /** What the settlements of a run book in all. */
  function BookedAll(p: Amm, ms: seq<Move>): (nat, nat)
    decreases |ms|
  {
    if ms == [] then (0, 0)
    else
      var (admin, kept) := if ms[0].SettleUp? then Booked(p) else (0, 0);
      var (moreAdmin, moreKept) := BookedAll(Apply(p, ms[0]).0, ms[1..]);
      (admin + moreAdmin, kept + moreKept)
  }

  /** The totals grew by what was booked, each capped, and the loan fell by no more than was reinvested. */
  predicate Books(p: Amm, after: Amm, admin: nat, kept: nat) {
    && after.totalAdmin == Min(p.totalAdmin + admin, U128_MAX)
    && after.totalReinvested == Min(p.totalReinvested + kept, U128_MAX)
    && after.totalFees == Min(p.totalFees + admin + kept, U128_MAX)
    && p.loan <= after.loan + kept
  }

  lemma MoveBooks(p: Amm, m: Move)
    ensures var (admin, kept) := if m.SettleUp? then Booked(p) else (0, 0); Books(p, Apply(p, m).0, admin, kept)
  {
    if m.SettleUp? {
      SettleBooks(p);
      LoanIsBooked(p);
    }
  }

  lemma BooksChain(p: Amm, next: Amm, last: Amm, admin: nat, kept: nat, moreAdmin: nat, moreKept: nat)
    requires Books(p, next, admin, kept) && Books(next, last, moreAdmin, moreKept)
    ensures Books(p, last, admin + moreAdmin, kept + moreKept)
  {
  }

  lemma {:induction false} RunBooks(p: Amm, ms: seq<Move>)
    ensures Books(p, RunMoves(p, ms).0, BookedAll(p, ms).0, BookedAll(p, ms).1)
    decreases |ms|
  {
    if ms != [] {
      var next, rest := Apply(p, ms[0]).0, ms[1..];
      var (admin, kept) := if ms[0].SettleUp? then Booked(p) else (0, 0);
      MoveBooks(p, ms[0]);
      RunBooks(next, rest);
      BooksChain(p, next, RunMoves(next, rest).0, admin, kept, BookedAll(next, rest).0, BookedAll(next, rest).1);
    }
  }

  lemma BooksDecide(p: Amm, after: Amm, admin: nat, kept: nat)
    requires TotalsAgree(p) && Books(p, after, admin, kept)
    ensures TotalsAgree(after) <==>
      p.totalFees + admin + kept <= U128_MAX || p.totalAdmin + admin == 0 || p.totalReinvested + kept == 0
  {
  }

  /** So over a whole run, too, the totals agree exactly while the sum fits, or only one side earns. */
  lemma TotalsAgreeOverRuns(p: Amm, ms: seq<Move>)
    requires TotalsAgree(p)
    ensures var (after, (admin, kept)) := (RunMoves(p, ms).0, BookedAll(p, ms));
      && p.loan <= after.loan + kept
      && (TotalsAgree(after) <==>
            p.totalFees + admin + kept <= U128_MAX || p.totalAdmin + admin == 0 || p.totalReinvested + kept == 0)
  {
    RunBooks(p, ms);
    BooksDecide(p, RunMoves(p, ms).0, BookedAll(p, ms).0, BookedAll(p, ms).1);
  }

  lemma LoanIsBooked(p: Amm)
    ensures p.loan <= Settle(p).0.loan + Booked(p).1
  {
  }

  // ───────────── where capped products bend the arithmetic ─────────────

  /** A product capped at the largest u128 divides exactly when the excess stays within the last quotient. */
  lemma CappedDivisionExactIff(a: u128, b: u128, c: u128)
    requires c > 0
    ensures SatMulDiv(a, b, c) == MulFloor(a, b, c) <==> a * b < (U128_MAX / c + 1) * c
  {
    if a * b > U128_MAX {
      var q := MulFloor(a, b, c);
      QuotientIsDiv(U128_MAX, c);
      FloorBracket(a, b, c);
      if a * b < (U128_MAX / c + 1) * c {
        MulCancelLt(q, U128_MAX / c + 1, c);
        FloorAtLeast(a, b, c, U128_MAX / c);
      } else {
        FloorAtLeast(a, b, c, U128_MAX / c + 1);
      }
    } else {
      CapUnused(a * b, c);
    }
  }

  lemma CapUnused(n: nat, c: nat)
    requires c > 0 && n <= U128_MAX
    ensures n < (U128_MAX / c + 1) * c
  {
    QuotientIsDiv(U128_MAX, c);
    assert (U128_MAX / c + 1) * c == U128_MAX / c * c + c;
  }

  /** The product of a fee side and the loan stays within the last quotient the cap leaves. */
  predicate Divides(fee: u128, loan: u128, value: u128) {
    value > 0 && fee * loan < (U128_MAX / value + 1) * value
  }

  /**
   A bucket worth more than the loan strikes the loan off. Each side of it gives up its proportional
   part exactly when that side's product with the loan divides, and otherwise less.
   */
  lemma RepaymentExactIff(p: Amm)
    requires 0 < p.loan < BucketValue(p)
    ensures Settle(p) == (Split(RepayPart(p)), AdminShare(RepayPart(p))) && Settle(p).0.loan == 0
    ensures var (value, after) := (BucketValue(p), RepayPart(p));
      var (zbxPart, zusdPart) := (MulFloor(p.feeZbx, p.loan, value), MulFloor(p.feeZusd, p.loan, value));
      && p.feeZbx - after.feeZbx <= zbxPart && p.feeZusd - after.feeZusd <= zusdPart
      && (p.feeZbx - after.feeZbx == zbxPart <==> Divides(p.feeZbx, p.loan, value))
      && (p.feeZusd - after.feeZusd == zusdPart <==> Divides(p.feeZusd, p.loan, value))
  {
    NothingIsWorthNothing(p.zbx, p.zusd);
    CappedAtMost(p.feeZbx, p.loan, BucketValue(p));
    CappedAtMost(p.feeZusd, p.loan, BucketValue(p));
    CappedDivisionExactIff(p.feeZbx, p.loan, BucketValue(p));
    CappedDivisionExactIff(p.feeZusd, p.loan, BucketValue(p));
  }

  lemma CappedAtMost(a: u128, b: u128, c: u128)
    requires c > 0
    ensures SatMulDiv(a, b, c) <= MulFloor(a, b, c)
  {
    QuotientIsDiv(SatMul128(a, b), c);
    FloorAtLeast(a, b, c, SatMulDiv(a, b, c));
  }

  /** No swap leaves more than 300 of either token in an empty bucket. */
  lemma FeeAtMost(x: u128)
    requires x <= MAX_SWAP
    ensures FeeOn(x) <= 300 * SCALE && (x == MAX_SWAP ==> FeeOn(x) == 300 * SCALE)
  {
  }

  /**
   The last 150 zUSD of a loan, settled after one swap of the largest size: 1.134 zUSD of the fee
   strikes it off, and the admin takes half of the rest.
   */
  lemma PartialRepaymentCanFallShort(p: Amm, h: u64)
    requires p.feeZbx == 0 && p.feeZusd == 0 && p.loan == 150 * SCALE && SellingZusd(p, MAX_SWAP).Ok?
    ensures var q := Apply(p, SellZusd(MAX_SWAP, h)).0;
      && q.feeZbx == 0 && q.feeZusd == 300 * SCALE && q.loan == 150 * SCALE && BucketValue(q) == 300 * SCALE
      && MulFloor(q.feeZusd, q.loan, BucketValue(q)) == 150 * SCALE
      && q.feeZusd - RepayPart(q).feeZusd == 1_134_274_556_403_128_211
      && Settle(q).0.loan == 0 && Settle(q).1.zusd == (300 * SCALE - 1_134_274_556_403_128_211) / 2
  {
    var q := Apply(p, SellZusd(MAX_SWAP, h)).0;
    FeeAtMost(MAX_SWAP);
    NothingIsWorthNothing(q.zbx, q.zusd);
    assert BucketValue(q) == q.feeZusd;
    QuotientIsDiv(U128_MAX, 300 * SCALE);
    FloorIs(q.feeZusd, q.loan, q.feeZusd, 150 * SCALE);
  }

  /** Such a swap goes through, for instance, in a pool of a million of each token. */
  lemma LargestSwapGoesThrough(p: Amm)
    requires p.lp > 0 && p.zbx == p.zusd == 1_000_000 * SCALE
    ensures SellingZusd(p, MAX_SWAP).Ok?
  {
    var eff := SatSub(MAX_SWAP, FeeOn(MAX_SWAP));
    FeeAtMost(MAX_SWAP);
    FloorBracket(p.zbx, eff, p.zusd + eff);
  }

  lemma NothingIsWorthNothing(zbx: u128, zusd: u128)
    ensures ValueInZusd(zbx, zusd, 0) == 0
  {
    assert SatMul128(0, SpotPrice(zbx, zusd)) == 0;
  }
}
