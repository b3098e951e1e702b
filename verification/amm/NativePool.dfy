/** The native ZBX/zUSD pool: a fee bucket beside the reserves, settled against the genesis loan. */
module NativePool {
  import opened Common
  import opened Arith
  import opened Isqrt
  import opened Tokenomics

  const SCALE: u128 := 1_000_000_000_000_000_000
  const MIN_LIQUIDITY: u128 := 1_000
  const FEE_NUM: u128 := 3
  const FEE_DEN: u128 := 1_000
  const MAX_SWAP: u128 := 100_000 * WEI_PER_ZBX
  const MIN_SWAP_OUT: u128 := 10_000_000_000_000_000

  datatype PoolError =
    | AlreadyInitialized | NotInitialized | ZeroLiquidity | TooSmall | ZeroInput
    | InputTooLarge | OutputOverflow | InsufficientLiquidity | OutputTooLarge | OutputTooSmall

  datatype Amm = Amm(
    zbx: u128,
    zusd: u128,
    lp: u128,
    lastUpdate: u64,
    priceCumulative: u128,
    initHeight: u64,
    loan: u128,
    feeZbx: u128,
    feeZusd: u128,
    totalFees: u128,
    totalAdmin: u128,
    totalReinvested: u128)

  datatype Payout = Payout(zbx: u128, zusd: u128)

  // ───────────── prices ─────────────

  /** zUSD per ZBX, scaled by 10^18. */
  function SpotPrice(zbx: u128, zusd: u128): u128 {
    if zbx == 0 then 0 else Min(MulFloor(zusd, SCALE, zbx), U128_MAX)
  }

  /** `a * b / c` with the product capped at the largest u128. */
  function SatMulDiv(a: u128, b: u128, c: u128): u128
    requires c > 0
  {
    QuotientIsDiv(SatMul128(a, b), c);
    Quotient(SatMul128(a, b), c)
  }

  /** The zUSD worth of an amount of each token. */
  function Worth(zbx: u128, zusd: u128, someZbx: u128, someZusd: u128): u128 {
    SatAdd128(ValueInZusd(zbx, zusd, someZbx), someZusd)
  }

  function ValueInZusd(zbx: u128, zusd: u128, amount: u128): u128 {
    SatMulDiv(amount, SpotPrice(zbx, zusd), SCALE)
  }

  function FeeOn(amount: u128): u128 {
    SatMul128(amount, FEE_NUM) / FEE_DEN
  }

  // ───────────── what each operation answers and leaves ─────────────

  ghost function Genesis(p: Amm, zbx: u128, zusd: u128): Result<nat, PoolError> {
    if p.lp > 0 then Err(AlreadyInitialized)
    else if zbx == 0 || zusd == 0 then Err(ZeroLiquidity)
    else if FloorSqrt(zbx * zusd) <= MIN_LIQUIDITY then Err(TooSmall)
    else Ok(FloorSqrt(zbx * zusd))
  }

  function UpdateOracle(p: Amm, height: u64): Amm {
    if height <= p.lastUpdate then p
    else
      var gained := SatMul128(SpotPrice(p.zbx, p.zusd), height - p.lastUpdate);
      p.(priceCumulative := SatAdd128(p.priceCumulative, gained), lastUpdate := height)
  }

  /** What `amount` into `rin` buys out of `rout`; `most` caps the output and is absent one way. */
  function Swapping(lp: u128, rin: u128, rout: u128, amount: u128, most: Option<u128>): Result<u128, PoolError> {
    if lp == 0 then Err(NotInitialized)
    else if amount == 0 then Err(ZeroInput)
    else if amount > MAX_SWAP then Err(InputTooLarge)
    else
      var eff := SatSub(amount, FeeOn(amount));
      assert eff > 0;
      var out := MulFloor(rout, eff, rin + eff);
      if out > U128_MAX then Err(OutputOverflow)
      else if out == 0 || out >= rout then Err(InsufficientLiquidity)
      else if most.Some? && out > most.value then Err(OutputTooLarge)
      else if out < MIN_SWAP_OUT then Err(OutputTooSmall)
      else Ok(out)
  }

  function SellingZbx(p: Amm, amount: u128): Result<u128, PoolError> {
    Swapping(p.lp, p.zbx, p.zusd, amount, None)
  }

  function SellingZusd(p: Amm, amount: u128): Result<u128, PoolError> {
    Swapping(p.lp, p.zusd, p.zbx, amount, Some(MAX_SWAP))
  }

  function AfterSellZbx(p: Amm, amount: u128, out: u128, height: u64): Amm {
    UpdateOracle(p, height).(
      zbx := SatAdd128(p.zbx, SatSub(amount, FeeOn(amount))),
      zusd := SatSub(p.zusd, out),
      feeZbx := SatAdd128(p.feeZbx, FeeOn(amount)))
  }

  function AfterSellZusd(p: Amm, amount: u128, out: u128, height: u64): Amm {
    UpdateOracle(p, height).(
      zusd := SatAdd128(p.zusd, SatSub(amount, FeeOn(amount))),
      zbx := SatSub(p.zbx, out),
      feeZusd := SatAdd128(p.feeZusd, FeeOn(amount)))
  }

  /** The zUSD value of the whole bucket, at the price before it is settled. */
  function BucketValue(p: Amm): u128 {
    Worth(p.zbx, p.zusd, p.feeZbx, p.feeZusd)
  }

  /** The bucket does not cover the loan: all of it goes to the reserves. */
  function RepayAll(p: Amm): Amm {
    var value := BucketValue(p);
    p.(zbx := SatAdd128(p.zbx, p.feeZbx), zusd := SatAdd128(p.zusd, p.feeZusd),
       loan := SatSub(p.loan, value),
       totalFees := SatAdd128(p.totalFees, value), totalReinvested := SatAdd128(p.totalReinvested, value),
       feeZbx := 0, feeZusd := 0)
  }

  /** The part of one side of the bucket that pays the loan off. */
  function ToLoan(fee: u128, loan: u128, value: u128): (part: u128)
    requires loan < value
    ensures part <= fee
  {
    PartOfFee(fee, loan, value);
    SatMulDiv(fee, loan, value)
  }

  /** The bucket covers the loan: a proportional part pays it off, the rest stays in the bucket. */
  function RepayPart(p: Amm): Amm
    requires p.loan < BucketValue(p)
  {
    var toZbx, toZusd := ToLoan(p.feeZbx, p.loan, BucketValue(p)), ToLoan(p.feeZusd, p.loan, BucketValue(p));
    p.(zbx := SatAdd128(p.zbx, toZbx), zusd := SatAdd128(p.zusd, toZusd),
       feeZbx := p.feeZbx - toZbx, feeZusd := p.feeZusd - toZusd,
       totalFees := SatAdd128(p.totalFees, p.loan), totalReinvested := SatAdd128(p.totalReinvested, p.loan),
       loan := 0)
  }

  /** With the loan gone, half of each side is the admin's and half joins the reserves. */
  function AdminShare(p: Amm): Payout {
    Payout(p.feeZbx / 2, p.feeZusd / 2)
  }

  /** The half that stays joins the reserves first, so both halves are valued at the new price. */
  function Reinvest(p: Amm): Amm {
    p.(zbx := SatAdd128(p.zbx, p.feeZbx - p.feeZbx / 2), zusd := SatAdd128(p.zusd, p.feeZusd - p.feeZusd / 2))
  }

  function AdminValue(p: Amm): u128 {
    Worth(Reinvest(p).zbx, Reinvest(p).zusd, p.feeZbx / 2, p.feeZusd / 2)
  }

  function KeptValue(p: Amm): u128 {
    Worth(Reinvest(p).zbx, Reinvest(p).zusd, p.feeZbx - p.feeZbx / 2, p.feeZusd - p.feeZusd / 2)
  }

  function Book(p: Amm, admin: u128, kept: u128): Amm {
    p.(feeZbx := 0, feeZusd := 0,
       totalAdmin := SatAdd128(p.totalAdmin, admin),
       totalReinvested := SatAdd128(p.totalReinvested, kept),
       totalFees := SatAdd128(SatAdd128(p.totalFees, admin), kept))
  }

  function Split(p: Amm): Amm {
    Book(Reinvest(p), AdminValue(p), KeptValue(p))
  }

  function Settle(p: Amm): (Amm, Payout) {
    if p.feeZbx == 0 && p.feeZusd == 0 then (p, Payout(0, 0))
    else if p.loan == 0 then (Split(p), AdminShare(p))
    else if BucketValue(p) <= p.loan then (RepayAll(p), Payout(0, 0))
    else (Split(RepayPart(p)), AdminShare(RepayPart(p)))
  }

  lemma PartOfFee(fee: u128, loan: u128, value: u128)
    requires loan < value
    ensures SatMulDiv(fee, loan, value) <= fee
  {
    var s := SatMul128(fee, loan);
    MulLe(loan, value, fee);
    QuotientIsDiv(s, value);
    assert Quotient(s, value) * value <= fee * value;
    MulCancelLe(Quotient(s, value), fee, value);
  }

  // ───────────── the pool record, updated in place ─────────────

  class Pool {
    var zbxReserve: u128
    var zusdReserve: u128
    var lpSupply: u128
    var lastUpdateHeight: u64
    var priceCumulative: u128
    var initHeight: u64
    var loanOutstanding: u128
    var feeAccZbx: u128
    var feeAccZusd: u128
    var totalFeesCollected: u128
    var totalAdminPaid: u128
    var totalReinvested: u128

    ghost function View(): Amm
      reads this
    {
      Amm(zbxReserve, zusdReserve, lpSupply, lastUpdateHeight, priceCumulative, initHeight,
          loanOutstanding, feeAccZbx, feeAccZusd, totalFeesCollected, totalAdminPaid, totalReinvested)
    }

    constructor ()
      ensures View() == Amm(0, 0, 0, 0, 0, 0, 0, 0, 0, 0, 0, 0)
    {
      zbxReserve, zusdReserve, lpSupply, lastUpdateHeight, priceCumulative, initHeight := 0, 0, 0, 0, 0, 0;
      loanOutstanding, feeAccZbx, feeAccZusd := 0, 0, 0;
      totalFeesCollected, totalAdminPaid, totalReinvested := 0, 0, 0;
    }

    method InitGenesis(zbx: u128, zusd: u128, height: u64) returns (r: Result<u128, PoolError>)
      modifies this
      ensures r.Err? ==> Genesis(old(View()), zbx, zusd) == Err(r.error) && View() == old(View())
      ensures r.Ok? ==> Genesis(old(View()), zbx, zusd) == Ok(lpSupply) && r.value == lpSupply
      ensures r.Ok? ==>
        View() == old(View()).(zbx := zbx, zusd := zusd, lp := lpSupply, initHeight := height,
                               lastUpdate := height, priceCumulative := 0, loan := zusd)
    {
      if lpSupply > 0 {
        return Err(AlreadyInitialized);
      }
      if zbx == 0 || zusd == 0 {
        return Err(ZeroLiquidity);
      }
      MulLe(zbx, U128_MAX, zusd);
      MulLe(zusd, U128_MAX, U128_MAX);
      var k := Sqrt(zbx * zusd);
      if k <= MIN_LIQUIDITY {
        return Err(TooSmall);
      }
      zbxReserve, zusdReserve, lpSupply := zbx, zusd, k;
      initHeight, lastUpdateHeight, priceCumulative := height, height, 0;
      loanOutstanding := zusd;
      return Ok(k);
    }

    method TouchOracle(height: u64)
      modifies this`priceCumulative, this`lastUpdateHeight
      ensures View() == UpdateOracle(old(View()), height)
    {
      if height <= lastUpdateHeight {
        return;
      }
      var elapsed := height - lastUpdateHeight;
      var price := SpotPrice(zbxReserve, zusdReserve);
      priceCumulative := SatAdd128(priceCumulative, SatMul128(price, elapsed));
      lastUpdateHeight := height;
    }

    method SwapZbxForZusd(zbxIn: u128, height: u64) returns (r: Result<u128, PoolError>)
      modifies this
      ensures r == SellingZbx(old(View()), zbxIn)
      ensures View() == if r.Ok? then AfterSellZbx(old(View()), zbxIn, r.value, height) else old(View())
    {
      if lpSupply == 0 {
        return Err(NotInitialized);
      }
      if zbxIn == 0 {
        return Err(ZeroInput);
      }
      if zbxIn > MAX_SWAP {
        return Err(InputTooLarge);
      }
      var fee := SatMul128(zbxIn, FEE_NUM) / FEE_DEN;
      var eff := SatSub(zbxIn, fee);
      assert eff > 0;
      var out := MulFloor(zusdReserve, eff, zbxReserve + eff);
      if out > U128_MAX {
        return Err(OutputOverflow);
      }
      if out == 0 || out >= zusdReserve {
        return Err(InsufficientLiquidity);
      }
      if out < MIN_SWAP_OUT {
        return Err(OutputTooSmall);
      }
      TouchOracle(height);
      zbxReserve := SatAdd128(zbxReserve, eff);
      zusdReserve := SatSub(zusdReserve, out);
      feeAccZbx := SatAdd128(feeAccZbx, fee);
      return Ok(out);
    }

    method SwapZusdForZbx(zusdIn: u128, height: u64) returns (r: Result<u128, PoolError>)
      modifies this
      ensures r == SellingZusd(old(View()), zusdIn)
      ensures View() == if r.Ok? then AfterSellZusd(old(View()), zusdIn, r.value, height) else old(View())
    {
      if lpSupply == 0 {
        return Err(NotInitialized);
      }
      if zusdIn == 0 {
        return Err(ZeroInput);
      }
      if zusdIn > MAX_SWAP {
        return Err(InputTooLarge);
      }
      var fee := SatMul128(zusdIn, FEE_NUM) / FEE_DEN;
      var eff := SatSub(zusdIn, fee);
      assert eff > 0;
      var out := MulFloor(zbxReserve, eff, zusdReserve + eff);
      if out > U128_MAX {
        return Err(OutputOverflow);
      }
      if out == 0 || out >= zbxReserve {
        return Err(InsufficientLiquidity);
      }
      if out > MAX_SWAP {
        return Err(OutputTooLarge);
      }
      if out < MIN_SWAP_OUT {
        return Err(OutputTooSmall);
      }
      TouchOracle(height);
      zusdReserve := SatAdd128(zusdReserve, eff);
      zbxReserve := SatSub(zbxReserve, out);
      feeAccZusd := SatAdd128(feeAccZusd, fee);
      return Ok(out);
    }

    method SettleFees() returns (admin: Payout)
      modifies this
      ensures (View(), admin) == Settle(old(View()))
    {
      if feeAccZbx == 0 && feeAccZusd == 0 {
        return Payout(0, 0);
      }
      if loanOutstanding > 0 {
        var value := Worth(zbxReserve, zusdReserve, feeAccZbx, feeAccZusd);
        if value <= loanOutstanding {
          zbxReserve := SatAdd128(zbxReserve, feeAccZbx);
          zusdReserve := SatAdd128(zusdReserve, feeAccZusd);
          loanOutstanding := SatSub(loanOutstanding, value);
          totalFeesCollected := SatAdd128(totalFeesCollected, value);
          totalReinvested := SatAdd128(totalReinvested, value);
          feeAccZbx, feeAccZusd := 0, 0;
          return Payout(0, 0);
        }
        PayOffLoan(value);
      }
      admin := SplitBucket();
    }

    method PayOffLoan(value: u128)
      requires value == BucketValue(View()) && loanOutstanding < value
      modifies this
      ensures View() == RepayPart(old(View()))
    {
      var toZbx, toZusd := ToLoan(feeAccZbx, loanOutstanding, value), ToLoan(feeAccZusd, loanOutstanding, value);
      zbxReserve := SatAdd128(zbxReserve, toZbx);
      zusdReserve := SatAdd128(zusdReserve, toZusd);
      feeAccZbx, feeAccZusd := feeAccZbx - toZbx, feeAccZusd - toZusd;
      totalFeesCollected := SatAdd128(totalFeesCollected, loanOutstanding);
      totalReinvested := SatAdd128(totalReinvested, loanOutstanding);
      loanOutstanding := 0;
    }

    method SplitBucket() returns (admin: Payout)
      modifies this
      ensures View() == Split(old(View())) && admin == AdminShare(old(View()))
    {
      admin := Payout(feeAccZbx / 2, feeAccZusd / 2);
      var liqZbx, liqZusd := feeAccZbx - admin.zbx, feeAccZusd - admin.zusd;
      zbxReserve := SatAdd128(zbxReserve, liqZbx);
      zusdReserve := SatAdd128(zusdReserve, liqZusd);
      ghost var kept := View();
      assert kept == Reinvest(old(View()));
      var adminValue := Worth(zbxReserve, zusdReserve, admin.zbx, admin.zusd);
      var liqValue := Worth(zbxReserve, zusdReserve, liqZbx, liqZusd);
      assert adminValue == AdminValue(old(View()));
      assert liqValue == KeptValue(old(View()));
      BookFees(adminValue, liqValue);
      assert View() == Book(kept, adminValue, liqValue);
    }

    method BookFees(adminValue: u128, liqValue: u128)
      modifies this
      ensures View() == Book(old(View()), adminValue, liqValue)
    {
      totalAdminPaid := SatAdd128(totalAdminPaid, adminValue);
      totalReinvested := SatAdd128(totalReinvested, liqValue);
      totalFeesCollected := SatAdd128(SatAdd128(totalFeesCollected, adminValue), liqValue);
      feeAccZbx, feeAccZusd := 0, 0;
    }
  }
}
