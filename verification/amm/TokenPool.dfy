/** One token's constant-product pool against ZBX: fees stay in the reserves, so they accrue to LPs. */
module TokenPool {
  import opened Common
  import opened Arith
  import opened Isqrt

  type Address = nat

  const MIN_TOKEN_POOL_LIQUIDITY: u128 := 1_000
  const FEE_NUM: u128 := 30
  const FEE_DEN: u128 := 10_000

  datatype PoolError =
    | AlreadyInitialized | NotInitialized | ZeroInput | TooSmall
    | RatioOverflow | RatioExceedsRequest | Dust | MintOverflow | ZeroMinted
    | LockedLiquidity | WithdrawOverflow | InsufficientLiquidity | WouldDrain

  datatype Market = Market(
    tokenId: u64,
    zbx: u128,
    token: u128,
    lp: u128,
    initHeight: u64,
    creator: Address,
    zbxVolume: u128,
    tokenVolume: u128,
    swaps: u64)

  datatype Deposit = Deposit(zbx: u128, token: u128, lp: u128)
  datatype Withdrawal = Withdrawal(zbx: u128, token: u128)

  /** What every operation keeps, saturation or not. */
  predicate Sound(m: Market) {
    m.lp > 0 ==> m.lp >= MIN_TOKEN_POOL_LIQUIDITY && m.zbx > 0 && m.token > 0
  }

  // ───────────── what each operation answers and leaves ─────────────

  ghost function Founding(m: Market, zbxIn: u128, tokenIn: u128): Result<nat, PoolError> {
    if m.lp > 0 then Err(AlreadyInitialized)
    else if zbxIn == 0 || tokenIn == 0 then Err(ZeroInput)
    else if FloorSqrt(zbxIn * tokenIn) <= MIN_TOKEN_POOL_LIQUIDITY then Err(TooSmall)
    else Ok(FloorSqrt(zbxIn * tokenIn))
  }

  /** The two sides actually taken: as much ZBX as asked unless the token allowance binds. */
  function Matching(m: Market, zbxDesired: u128, tokenMax: u128): Result<Withdrawal, PoolError>
    requires m.zbx > 0 && m.token > 0
  {
    var optimal := MulFloor(zbxDesired, m.token, m.zbx);
    if optimal > U128_MAX then Err(RatioOverflow)
    else if optimal <= tokenMax then Ok(Withdrawal(zbxDesired, optimal))
    else
      var actual := MulFloor(tokenMax, m.zbx, m.token);
      if actual > U128_MAX then Err(RatioOverflow)
      else if actual > zbxDesired then Err(RatioExceedsRequest)
      else Ok(Withdrawal(actual, tokenMax))
  }

  function Minting(m: Market, zbxIn: u128, tokenIn: u128): Result<Deposit, PoolError>
    requires m.zbx > 0 && m.token > 0
  {
    if zbxIn == 0 || tokenIn == 0 then Err(Dust)
    else
      var lp := Min(MulFloor(zbxIn, m.lp, m.zbx), MulFloor(tokenIn, m.lp, m.token));
      if lp > U128_MAX then Err(MintOverflow)
      else if lp == 0 then Err(ZeroMinted)
      else Ok(Deposit(zbxIn, tokenIn, lp))
  }

  function Adding(m: Market, zbxDesired: u128, tokenMax: u128): Result<Deposit, PoolError>
    requires Sound(m)
  {
    if m.lp == 0 then Err(NotInitialized)
    else if zbxDesired == 0 || tokenMax == 0 then Err(ZeroInput)
    else match Matching(m, zbxDesired, tokenMax)
      case Err(e) => Err(e)
      case Ok(sides) => Minting(m, sides.zbx, sides.token)
  }

  function AfterAdd(m: Market, d: Deposit): Market {
    m.(zbx := SatAdd128(m.zbx, d.zbx), token := SatAdd128(m.token, d.token), lp := SatAdd128(m.lp, d.lp))
  }

  function Removing(m: Market, burn: u128): Result<Withdrawal, PoolError>
    requires Sound(m)
  {
    if m.lp == 0 then Err(NotInitialized)
    else if burn == 0 then Err(ZeroInput)
    else if burn > SatSub(m.lp, MIN_TOKEN_POOL_LIQUIDITY) then Err(LockedLiquidity)
    else
      var zbx, token := MulFloor(m.zbx, burn, m.lp), MulFloor(m.token, burn, m.lp);
      if zbx > U128_MAX || token > U128_MAX then Err(WithdrawOverflow)
      else if zbx == 0 || token == 0 then Err(Dust)
      else Ok(Withdrawal(zbx, token))
  }

  function AfterRemove(m: Market, burn: u128, w: Withdrawal): Market {
    m.(zbx := SatSub(m.zbx, w.zbx), token := SatSub(m.token, w.token), lp := SatSub(m.lp, burn))
  }

  /** The input less the 0.3% fee. */
  function Effective(amount: u128): u128 {
    SatSub(amount, SatMul128(amount, FEE_NUM) / FEE_DEN)
  }

  /** What `amount` into a reserve of `rin` buys out of a reserve of `rout`. */
  function Quote(lp: u128, rin: u128, rout: u128, amount: u128): u128 {
    if lp == 0 || amount == 0 then 0
    else
      var eff := Effective(amount);
      if rin + eff == 0 then 0
      else
        var out := MulFloor(rout, eff, rin + eff);
        if out > U128_MAX then 0 else out
  }

  function Swapping(lp: u128, rin: u128, rout: u128, amount: u128): Result<u128, PoolError> {
    if lp == 0 then Err(NotInitialized)
    else if amount == 0 then Err(ZeroInput)
    else
      var out := Quote(lp, rin, rout, amount);
      if out == 0 then Err(InsufficientLiquidity)
      else if out >= rout then Err(WouldDrain)
      else Ok(out)
  }

  function AfterSwapZbx(m: Market, amount: u128, out: u128): Market {
    m.(zbx := SatAdd128(m.zbx, amount), token := SatSub(m.token, out),
       zbxVolume := SatAdd128(m.zbxVolume, amount), swaps := SatAdd64(m.swaps, 1))
  }

  function AfterSwapToken(m: Market, amount: u128, out: u128): Market {
    m.(token := SatAdd128(m.token, amount), zbx := SatSub(m.zbx, out),
       tokenVolume := SatAdd128(m.tokenVolume, amount), swaps := SatAdd64(m.swaps, 1))
  }

  // ───────────── the pool record, updated in place ─────────────

  class TokenPool {
    var tokenId: u64
    var zbxReserve: u128
    var tokenReserve: u128
    var lpSupply: u128
    var initHeight: u64
    var creator: Address
    var cumZbxIn: u128
    var cumTokenIn: u128
    var swapCount: u64

    ghost function View(): Market
      reads this
    {
      Market(tokenId, zbxReserve, tokenReserve, lpSupply, initHeight, creator, cumZbxIn, cumTokenIn, swapCount)
    }

    constructor ()
      ensures View() == Market(0, 0, 0, 0, 0, 0, 0, 0, 0) && Sound(View())
    {
      tokenId, zbxReserve, tokenReserve, lpSupply, initHeight, creator := 0, 0, 0, 0, 0, 0;
      cumZbxIn, cumTokenIn, swapCount := 0, 0, 0;
    }

    /** Founds the pool; the caller is credited all shares but the thousand locked for ever. */
    method Init(founder: Address, id: u64, zbxIn: u128, tokenIn: u128, height: u64) returns (r: Result<u128, PoolError>)
      requires Sound(View())
      modifies this
      ensures Sound(View())
      ensures r.Err? ==> Founding(old(View()), zbxIn, tokenIn) == Err(r.error) && View() == old(View())
      ensures r.Ok? ==> Founding(old(View()), zbxIn, tokenIn) == Ok(lpSupply)
      ensures r.Ok? ==> r.value == lpSupply - MIN_TOKEN_POOL_LIQUIDITY
      ensures r.Ok? ==> View() == Market(id, zbxIn, tokenIn, lpSupply, height, founder, 0, 0, 0)
    {
      if lpSupply > 0 {
        return Err(AlreadyInitialized);
      }
      if zbxIn == 0 || tokenIn == 0 {
        return Err(ZeroInput);
      }
      ProductFits(zbxIn, tokenIn);
      var total := Sqrt(zbxIn * tokenIn);
      if total <= MIN_TOKEN_POOL_LIQUIDITY {
        return Err(TooSmall);
      }
      tokenId, zbxReserve, tokenReserve, lpSupply := id, zbxIn, tokenIn, total;
      initHeight, creator := height, founder;
      cumZbxIn, cumTokenIn, swapCount := 0, 0, 0;
      return Ok(SatSub(total, MIN_TOKEN_POOL_LIQUIDITY));
    }

    method AddLiquidity(zbxDesired: u128, tokenMax: u128) returns (r: Result<Deposit, PoolError>)
      requires Sound(View())
      modifies this
      ensures r == Adding(old(View()), zbxDesired, tokenMax)
      ensures View() == if r.Ok? then AfterAdd(old(View()), r.value) else old(View())
      ensures Sound(View())
    {
      if lpSupply == 0 {
        return Err(NotInitialized);
      }
      if zbxDesired == 0 || tokenMax == 0 {
        return Err(ZeroInput);
      }
      var optimal := MulFloor(zbxDesired, tokenReserve, zbxReserve);
      if optimal > U128_MAX {
        return Err(RatioOverflow);
      }
      var zbxIn, tokenIn := zbxDesired, optimal;
      if optimal > tokenMax {
        zbxIn, tokenIn := MulFloor(tokenMax, zbxReserve, tokenReserve), tokenMax;
        if zbxIn > U128_MAX {
          return Err(RatioOverflow);
        }
        if zbxIn > zbxDesired {
          return Err(RatioExceedsRequest);
        }
      }
      if zbxIn == 0 || tokenIn == 0 {
        return Err(Dust);
      }
      var minted := Min(MulFloor(zbxIn, lpSupply, zbxReserve), MulFloor(tokenIn, lpSupply, tokenReserve));
      if minted > U128_MAX {
        return Err(MintOverflow);
      }
      if minted == 0 {
        return Err(ZeroMinted);
      }
      zbxReserve := SatAdd128(zbxReserve, zbxIn);
      tokenReserve := SatAdd128(tokenReserve, tokenIn);
      lpSupply := SatAdd128(lpSupply, minted);
      return Ok(Deposit(zbxIn, tokenIn, minted));
    }

    method RemoveLiquidity(burn: u128) returns (r: Result<Withdrawal, PoolError>)
      requires Sound(View())
      modifies this
      ensures r == Removing(old(View()), burn)
      ensures View() == if r.Ok? then AfterRemove(old(View()), burn, r.value) else old(View())
      ensures Sound(View())
    {
      if lpSupply == 0 {
        return Err(NotInitialized);
      }
      if burn == 0 {
        return Err(ZeroInput);
      }
      if burn > SatSub(lpSupply, MIN_TOKEN_POOL_LIQUIDITY) {
        return Err(LockedLiquidity);
      }
      var zbxOut, tokenOut := MulFloor(zbxReserve, burn, lpSupply), MulFloor(tokenReserve, burn, lpSupply);
      if zbxOut > U128_MAX || tokenOut > U128_MAX {
        return Err(WithdrawOverflow);
      }
      if zbxOut == 0 || tokenOut == 0 {
        return Err(Dust);
      }
      PartIsLess(zbxReserve, burn, lpSupply);
      PartIsLess(tokenReserve, burn, lpSupply);
      zbxReserve := SatSub(zbxReserve, zbxOut);
      tokenReserve := SatSub(tokenReserve, tokenOut);
      lpSupply := SatSub(lpSupply, burn);
      return Ok(Withdrawal(zbxOut, tokenOut));
    }

    method QuoteZbxForToken(zbxIn: u128) returns (out: u128)
      ensures out == Quote(lpSupply, zbxReserve, tokenReserve, zbxIn)
    {
      out := QuoteOf(zbxReserve, tokenReserve, zbxIn);
    }

    method QuoteTokenForZbx(tokenIn: u128) returns (out: u128)
      ensures out == Quote(lpSupply, tokenReserve, zbxReserve, tokenIn)
    {
      out := QuoteOf(tokenReserve, zbxReserve, tokenIn);
    }

    method QuoteOf(rin: u128, rout: u128, amount: u128) returns (out: u128)
      ensures out == Quote(lpSupply, rin, rout, amount)
    {
      if lpSupply == 0 || amount == 0 {
        return 0;
      }
      var fee := SatMul128(amount, FEE_NUM) / FEE_DEN;
      var eff := SatSub(amount, fee);
      out := 0;
      if rin + eff > 0 {
        var bought := MulFloor(rout, eff, rin + eff);
        out := if bought > U128_MAX then 0 else bought;
      }
    }

    method SwapZbxForToken(zbxIn: u128) returns (r: Result<u128, PoolError>)
      requires Sound(View())
      modifies this
      ensures r == Swapping(old(lpSupply), old(zbxReserve), old(tokenReserve), zbxIn)
      ensures View() == if r.Ok? then AfterSwapZbx(old(View()), zbxIn, r.value) else old(View())
      ensures Sound(View())
    {
      if lpSupply == 0 {
        return Err(NotInitialized);
      }
      if zbxIn == 0 {
        return Err(ZeroInput);
      }
      var out := QuoteZbxForToken(zbxIn);
      if out == 0 {
        return Err(InsufficientLiquidity);
      }
      if out >= tokenReserve {
        return Err(WouldDrain);
      }
      zbxReserve := SatAdd128(zbxReserve, zbxIn);
      tokenReserve := SatSub(tokenReserve, out);
      cumZbxIn := SatAdd128(cumZbxIn, zbxIn);
      swapCount := SatAdd64(swapCount, 1);
      return Ok(out);
    }

    method SwapTokenForZbx(tokenIn: u128) returns (r: Result<u128, PoolError>)
      requires Sound(View())
      modifies this
      ensures r == Swapping(old(lpSupply), old(tokenReserve), old(zbxReserve), tokenIn)
      ensures View() == if r.Ok? then AfterSwapToken(old(View()), tokenIn, r.value) else old(View())
      ensures Sound(View())
    {
      if lpSupply == 0 {
        return Err(NotInitialized);
      }
      if tokenIn == 0 {
        return Err(ZeroInput);
      }
      var out := QuoteTokenForZbx(tokenIn);
      if out == 0 {
        return Err(InsufficientLiquidity);
      }
      if out >= zbxReserve {
        return Err(WouldDrain);
      }
      tokenReserve := SatAdd128(tokenReserve, tokenIn);
      zbxReserve := SatSub(zbxReserve, out);
      cumTokenIn := SatAdd128(cumTokenIn, tokenIn);
      swapCount := SatAdd64(swapCount, 1);
      return Ok(out);
    }
  }

  lemma ProductFits(a: u128, b: u128)
    ensures a * b <= U256_MAX
  {
    MulLe(a, U128_MAX, b);
    MulLe(b, U128_MAX, U128_MAX);
  }

  /** Part of the shares redeems part of the reserve, never all of it. */
  lemma PartIsLess(reserve: nat, burn: nat, supply: nat)
    requires reserve > 0 && burn < supply
    ensures MulFloor(reserve, burn, supply) < reserve
    ensures (reserve - MulFloor(reserve, burn, supply)) * supply >= reserve * (supply - burn)
  {
    var out := MulFloor(reserve, burn, supply);
    FloorBracket(reserve, burn, supply);
    assert reserve * (supply - burn) == reserve * supply - reserve * burn;
    MulLe(1, supply - burn, reserve);
    MulCancelLt(out, reserve, supply);
    assert (reserve - out) * supply == reserve * supply - out * supply;
  }
}
