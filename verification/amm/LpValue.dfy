/** What a share of a token pool is worth, over any run of deposits, withdrawals and swaps. */
module LpValue {
  import opened Common
  import opened Arith
  import opened ConstantProduct
  import opened Isqrt
  import opened TokenPool

  datatype PoolOp =
    | Add(zbxDesired: u128, tokenMax: u128)
    | Remove(burn: u128)
    | SwapZbx(zbxIn: u128)
    | SwapToken(tokenIn: u128)

  function Apply(m: Market, op: PoolOp): (after: Market)
    requires Sound(m)
    ensures Sound(after)
  {
    match op
    case Add(d, t) => (match Adding(m, d, t) case Ok(v) => AfterAdd(m, v) case Err(_) => m)
    case Remove(b) =>
      (match Removing(m, b)
       case Ok(w) => PartIsLess(m.zbx, b, m.lp); PartIsLess(m.token, b, m.lp); AfterRemove(m, b, w)
       case Err(_) => m)
    case SwapZbx(x) =>
      (match Swapping(m.lp, m.zbx, m.token, x) case Ok(out) => AfterSwapZbx(m, x, out) case Err(_) => m)
    case SwapToken(x) =>
      (match Swapping(m.lp, m.token, m.zbx, x) case Ok(out) => AfterSwapToken(m, x, out) case Err(_) => m)
  }

  /**
   A deposit saturates nothing. A swap leaves room for its input less the fee, or buys no more than
   the room that is left pays for.
   */
  predicate Fits(m: Market, op: PoolOp)
    requires Sound(m)
  {
    match op
    case Add(d, t) =>
      (match Adding(m, d, t)
       case Ok(v) => m.zbx + v.zbx <= U128_MAX && m.token + v.token <= U128_MAX && m.lp + v.lp <= U128_MAX
       case Err(_) => true)
    case Remove(_) => true
    case SwapZbx(x) => SwapFits(m.lp, m.zbx, m.token, x)
    case SwapToken(x) => SwapFits(m.lp, m.token, m.zbx, x)
  }

  predicate SwapFits(lp: u128, rin: u128, rout: u128, amount: u128) {
    match Swapping(lp, rin, rout, amount)
    case Ok(out) => rin + Effective(amount) <= U128_MAX || out <= MulFloor(rout, U128_MAX - rin, U128_MAX)
    case Err(_) => true
  }

  /** A share of `b` is backed by at least the geometric mean that a share of `a` was. */
  predicate WorthAtLeast(b: Market, a: Market) {
    b.zbx * b.token * (a.lp * a.lp) >= a.zbx * a.token * (b.lp * b.lp)
  }

  // ───────────── one operation ─────────────

  /** The swap price: the product of the reserves, fee left aside, is kept, and one unit more would break it. */
  lemma SwapIsExact(lp: u128, rin: u128, rout: u128, amount: u128)
    requires Swapping(lp, rin, rout, amount).Ok?
    ensures var out, eff := Swapping(lp, rin, rout, amount).value, Effective(amount);
      && out < rout && eff <= amount
      && (rin + eff) * (rout - out - 1) < rin * rout <= (rin + eff) * (rout - out)
  {
    OutputIsExact(rin, rout, Effective(amount));
  }

  /** A swap, saturating or not, keeps the product of the reserves exactly when it fits. */
  lemma SwapKeepsProductIff(lp: u128, rin: u128, rout: u128, amount: u128)
    requires Swapping(lp, rin, rout, amount).Ok?
    ensures var out := Swapping(lp, rin, rout, amount).value;
      && out < rout
      && (rin * rout <= SatAdd128(rin, amount) * (rout - out) <==> SwapFits(lp, rin, rout, amount))
  {
    var out, eff := Swapping(lp, rin, rout, amount).value, Effective(amount);
    SwapIsExact(lp, rin, rout, amount);
    if rin + eff <= U128_MAX {
      MulLe(rin + eff, SatAdd128(rin, amount), rout - out);
    } else {
      FullProductIff(rin, rout, out);
    }
  }

  /** With the reserve filled up, the product is kept exactly when the output is what the room was worth. */
  lemma FullProductIff(rin: u128, rout: u128, out: u128)
    requires out < rout
    ensures rin * rout <= U128_MAX * (rout - out) <==> out <= MulFloor(rout, U128_MAX - rin, U128_MAX)
  {
    var most := MulFloor(rout, U128_MAX - rin, U128_MAX);
    FloorBracket(rout, U128_MAX - rin, U128_MAX);
    assert rout * (U128_MAX - rin) == rout * U128_MAX - rin * rout;
    assert U128_MAX * (rout - out) == rout * U128_MAX - out * U128_MAX;
    if out <= most {
      MulLe(out, most, U128_MAX);
    } else {
      MulLe(most + 1, out, U128_MAX);
      assert (most + 1) * U128_MAX == most * U128_MAX + U128_MAX;
    }
  }

  /** If both reserves grow at least as fast as the shares, a share is worth no less. */
  lemma BothSidesBack(z: nat, t: nat, l: nat, z2: nat, t2: nat, l2: nat)
    requires z2 * l >= z * l2 && t2 * l >= t * l2
    ensures z2 * t2 * (l * l) >= z * t * (l2 * l2)
  {
    MulLe(z * l2, z2 * l, t * l2);
    MulLe(t * l2, t2 * l, z2 * l);
    Regroup(z, t, l2);
    Regroup(z2, t2, l);
    assert (z2 * l) * (t * l2) == (t * l2) * (z2 * l);
  }

  lemma Regroup(z: nat, t: nat, l: nat)
    ensures (z * l) * (t * l) == z * t * (l * l)
    ensures (t * l) * (z * l) == z * t * (l * l)
  {
    assert (z * l) * (t * l) == z * (l * (t * l));
    assert l * (t * l) == t * (l * l);
  }

  /** A deposit mints no more shares than either side of it pays for. */
  lemma MintIsBacked(deposit: nat, reserve: nat, lp: nat, minted: nat)
    requires reserve > 0 && minted <= MulFloor(deposit, lp, reserve)
    ensures (reserve + deposit) * lp >= reserve * (lp + minted)
  {
    FloorBracket(deposit, lp, reserve);
    MulLe(minted, MulFloor(deposit, lp, reserve), reserve);
    assert (reserve + deposit) * lp == reserve * lp + deposit * lp;
    assert reserve * (lp + minted) == reserve * lp + minted * reserve;
  }

  lemma AddKeepsWorth(m: Market, d: u128, t: u128)
    requires Sound(m) && Fits(m, Add(d, t))
    ensures WorthAtLeast(Apply(m, Add(d, t)), m)
  {
    if Adding(m, d, t).Ok? {
      var v := Adding(m, d, t).value;
      var after := Apply(m, Add(d, t));
      MintIsBacked(v.zbx, m.zbx, m.lp, v.lp);
      MintIsBacked(v.token, m.token, m.lp, v.lp);
      BothSidesBack(m.zbx, m.token, m.lp, after.zbx, after.token, after.lp);
    }
  }

  lemma RemoveKeepsWorth(m: Market, burn: u128)
    requires Sound(m)
    ensures WorthAtLeast(Apply(m, Remove(burn)), m)
  {
    if Removing(m, burn).Ok? {
      var after := Apply(m, Remove(burn));
      PartIsLess(m.zbx, burn, m.lp);
      PartIsLess(m.token, burn, m.lp);
      BothSidesBack(m.zbx, m.token, m.lp, after.zbx, after.token, after.lp);
    }
  }

  /** With the shares unchanged, worth follows the product. */
  lemma ProductIsWorth(m: Market, after: Market)
    requires after.lp == m.lp > 0
    ensures m.zbx * m.token <= after.zbx * after.token <==> WorthAtLeast(after, m)
  {
    var q := m.lp * m.lp;
    MulLe(1, m.lp, m.lp);
    if m.zbx * m.token <= after.zbx * after.token {
      MulLe(m.zbx * m.token, after.zbx * after.token, q);
    }
    if WorthAtLeast(after, m) {
      MulCancelLe(m.zbx * m.token, after.zbx * after.token, q);
    }
  }

  /** A swap for ZBX or for the token keeps the worth of a share exactly when it fits. */
  lemma SwapKeepsWorthIff(m: Market, op: PoolOp)
    requires Sound(m) && (op.SwapZbx? || op.SwapToken?)
    ensures WorthAtLeast(Apply(m, op), m) <==> Fits(m, op)
  {
    if op.SwapZbx? && Swapping(m.lp, m.zbx, m.token, op.zbxIn).Ok? {
      SwapKeepsProductIff(m.lp, m.zbx, m.token, op.zbxIn);
      ProductIsWorth(m, Apply(m, op));
    } else if op.SwapToken? && Swapping(m.lp, m.token, m.zbx, op.tokenIn).Ok? {
      SwapKeepsProductIff(m.lp, m.token, m.zbx, op.tokenIn);
      Swapped(m, Apply(m, op));
      ProductIsWorth(m, Apply(m, op));
    }
  }

  lemma Swapped(m: Market, after: Market)
    ensures m.token * m.zbx == m.zbx * m.token && after.token * after.zbx == after.zbx * after.token
  {
  }

  lemma OpKeepsWorth(m: Market, op: PoolOp)
    requires Sound(m) && Fits(m, op)
    ensures WorthAtLeast(Apply(m, op), m)
    ensures m.lp > 0 <==> Apply(m, op).lp > 0
  {
    match op
    case Add(d, t) => AddKeepsWorth(m, d, t);
    case Remove(burn) => RemoveKeepsWorth(m, burn);
    case _ => SwapKeepsWorthIff(m, op);
  }

  // ───────────── whole runs ─────────────

  predicate RunFits(m: Market, ops: seq<PoolOp>)
    requires Sound(m)
    decreases |ops|
  {
    ops == [] || (Fits(m, ops[0]) && RunFits(Apply(m, ops[0]), ops[1..]))
  }

  function RunPool(m: Market, ops: seq<PoolOp>): (after: Market)
    requires Sound(m)
    ensures Sound(after)
    decreases |ops|
  {
    if ops == [] then m else RunPool(Apply(m, ops[0]), ops[1..])
  }

  /** Over any run, the reserve product over the squared share count never falls. */
  lemma {:induction false} WorthNeverFalls(m: Market, ops: seq<PoolOp>)
    requires Sound(m) && m.lp > 0 && RunFits(m, ops)
    ensures var after := RunPool(m, ops); after.lp > 0 && WorthAtLeast(after, m)
    decreases |ops|
  {
    if ops != [] {
      var next := Apply(m, ops[0]);
      OpKeepsWorth(m, ops[0]);
      WorthNeverFalls(next, ops[1..]);
      WorthChains(m, next, RunPool(m, ops));
    }
  }

  lemma WorthChains(a: Market, b: Market, c: Market)
    requires b.lp > 0 && WorthAtLeast(b, a) && WorthAtLeast(c, b)
    ensures WorthAtLeast(c, a)
  {
    RatioChains(a.zbx * a.token, a.lp * a.lp, b.zbx * b.token, b.lp * b.lp, c.zbx * c.token, c.lp * c.lp);
  }

  lemma RatioChains(ka: nat, qa: nat, kb: nat, qb: nat, kc: nat, qc: nat)
    requires qb > 0 && kb * qa >= ka * qb && kc * qb >= kb * qc
    ensures kc * qa >= ka * qc
  {
    MulLe(kb * qc, kc * qb, qa);
    MulLe(ka * qb, kb * qa, qc);
    assert (kb * qc) * qa == (kb * qa) * qc;
    assert (ka * qb) * qc == (ka * qc) * qb;
    assert (kc * qb) * qa == (kc * qa) * qb;
    MulCancelLe(ka * qc, kc * qa, qb);
  }

  /** No more shares than the root of the reserve product, and neither reserve empty. */
  predicate Backed(m: Market) {
    m.lp >= MIN_TOKEN_POOL_LIQUIDITY && m.zbx > 0 && m.token > 0 && m.lp * m.lp <= m.zbx * m.token
  }

  lemma FoundingIsBacked(m: Market, founded: Market)
    requires Founding(m, founded.zbx, founded.token) == Ok(founded.lp)
    ensures Backed(founded)
  {
    FloorSqrtIs(founded.zbx * founded.token);
  }

  /** From its founding on, over any run, a pool stays backed. */
  lemma SharesStayBacked(m: Market, founded: Market, ops: seq<PoolOp>)
    requires Founding(m, founded.zbx, founded.token) == Ok(founded.lp)
    requires Sound(founded) && RunFits(founded, ops)
    ensures Backed(RunPool(founded, ops))
  {
    FoundingIsBacked(m, founded);
    WorthNeverFalls(founded, ops);
    BackingCarries(founded, RunPool(founded, ops));
  }

  lemma BackingCarries(m: Market, after: Market)
    requires Backed(m) && WorthAtLeast(after, m) && Sound(after) && after.lp > 0
    ensures Backed(after)
  {
    SquareCarries(m.zbx, m.token, m.lp, after.zbx, after.token, after.lp);
  }

  lemma SquareCarries(z: nat, t: nat, l: nat, z2: nat, t2: nat, l2: nat)
    requires z > 0 && t > 0 && l * l <= z * t && z2 * t2 * (l * l) >= z * t * (l2 * l2)
    ensures l2 * l2 <= z2 * t2
  {
    MulLe(1, z, t);
    RootCarries(z * t, l * l, z2 * t2, l2 * l2);
  }

  lemma RootCarries(k: nat, q: nat, k2: nat, q2: nat)
    requires k > 0 && q <= k && k2 * q >= k * q2
    ensures q2 <= k2
  {
    MulLe(q, k, k2);
    assert k2 * q == q * k2 && k * q2 == q2 * k && k * k2 == k2 * k;
    MulCancelLe(q2, k2, k);
  }

  /** No run that leaves as many shares and no more of one reserve can leave less of the other. */
  lemma NoFreeLunch(m: Market, ops: seq<PoolOp>)
    requires Sound(m) && m.lp > 0 && RunFits(m, ops)
    ensures var after := RunPool(m, ops);
      && (after.lp >= m.lp && after.zbx <= m.zbx ==> after.token >= m.token)
      && (after.lp >= m.lp && after.token <= m.token ==> after.zbx >= m.zbx)
  {
    var after := RunPool(m, ops);
    WorthNeverFalls(m, ops);
    if after.lp >= m.lp {
      ProductGrew(m, after);
      OtherSideGrew(m.zbx, m.token, after.zbx, after.token);
      OtherSideGrew(m.token, m.zbx, after.token, after.zbx);
    }
  }

  lemma ProductGrew(m: Market, after: Market)
    requires WorthAtLeast(after, m) && 0 < m.lp <= after.lp
    ensures m.zbx * m.token <= after.zbx * after.token
    ensures m.token * m.zbx <= after.token * after.zbx
  {
    SquareLe(m.lp, after.lp);
    ProductBound(m.zbx * m.token, after.zbx * after.token, m.lp * m.lp, after.lp * after.lp);
  }

  lemma ProductBound(k: nat, k2: nat, q: nat, q2: nat)
    requires 0 < q <= q2 && k2 * q >= k * q2
    ensures k <= k2
  {
    MulLe(q, q2, k);
    assert k * q == q * k && k * q2 == q2 * k;
    MulCancelLe(k, k2, q);
  }

  // ───────────── single operations, seen by their caller ─────────────

  /** A deposit takes no more than was offered, and the branch that would report otherwise is never taken. */
  lemma DepositWithinOffer(m: Market, d: u128, t: u128)
    requires Sound(m)
    ensures Adding(m, d, t) != Err(RatioExceedsRequest)
    ensures Adding(m, d, t).Ok? ==> Adding(m, d, t).value.zbx <= d && Adding(m, d, t).value.token <= t
  {
    if m.lp > 0 && MulFloor(d, m.token, m.zbx) > t {
      var optimal, actual := MulFloor(d, m.token, m.zbx), MulFloor(t, m.zbx, m.token);
      FloorBracket(d, m.token, m.zbx);
      MulLe(t, optimal, m.zbx);
      FloorAtMost(t, m.zbx, m.token, d);
    }
  }

  /** Depositing and burning the minted shares never returns more of either side than was put in. */
  lemma DepositThenBurnGainsNothing(m: Market, d: u128, t: u128)
    requires Sound(m) && Adding(m, d, t).Ok? && Fits(m, Add(d, t))
    ensures var v := Adding(m, d, t).value;
      match Removing(Apply(m, Add(d, t)), v.lp)
      case Ok(w) => w.zbx <= v.zbx && w.token <= v.token
      case Err(e) => e == Dust
  {
    var v := Adding(m, d, t).value;
    BurnReturnsAtMost(v.zbx, m.zbx, m.lp, v.lp);
    BurnReturnsAtMost(v.token, m.token, m.lp, v.lp);
  }

  lemma BurnReturnsAtMost(deposit: nat, reserve: nat, lp: nat, minted: nat)
    requires reserve > 0 && lp > 0 && minted <= MulFloor(deposit, lp, reserve)
    ensures MulFloor(reserve + deposit, minted, lp + minted) <= deposit
  {
    FloorBracket(deposit, lp, reserve);
    MulLe(minted, MulFloor(deposit, lp, reserve), reserve);
    assert (reserve + deposit) * minted == minted * reserve + deposit * minted;
    assert deposit * (lp + minted) == deposit * lp + deposit * minted;
    FloorAtMost(reserve + deposit, minted, lp + minted, deposit);
  }

  // ───────────── runs within the supply of both tokens ─────────────

  /** What an operation takes from its caller, and what it gives. */
  datatype Purse = Purse(zbx: nat, token: nat)

  function Spent(m: Market, op: PoolOp): Purse
    requires Sound(m)
  {
    match op
    case Add(d, t) => (match Adding(m, d, t) case Ok(v) => Purse(v.zbx, v.token) case Err(_) => Purse(0, 0))
    case Remove(_) => Purse(0, 0)
    case SwapZbx(x) => if Swapping(m.lp, m.zbx, m.token, x).Ok? then Purse(x, 0) else Purse(0, 0)
    case SwapToken(x) => if Swapping(m.lp, m.token, m.zbx, x).Ok? then Purse(0, x) else Purse(0, 0)
  }

  function Gained(m: Market, op: PoolOp): Purse
    requires Sound(m)
  {
    match op
    case Add(_, _) => Purse(0, 0)
    case Remove(b) => (match Removing(m, b) case Ok(w) => Purse(w.zbx, w.token) case Err(_) => Purse(0, 0))
    case SwapZbx(x) =>
      (match Swapping(m.lp, m.zbx, m.token, x) case Ok(out) => Purse(0, out) case Err(_) => Purse(0, 0))
    case SwapToken(x) =>
      (match Swapping(m.lp, m.token, m.zbx, x) case Ok(out) => Purse(out, 0) case Err(_) => Purse(0, 0))
  }

  predicate Affords(m: Market, held: Purse, op: PoolOp)
    requires Sound(m)
  {
    Spent(m, op).zbx <= held.zbx && Spent(m, op).token <= held.token
  }

  function Settled(m: Market, held: Purse, op: PoolOp): Purse
    requires Sound(m) && Affords(m, held, op)
  {
    Purse(held.zbx - Spent(m, op).zbx + Gained(m, op).zbx, held.token - Spent(m, op).token + Gained(m, op).token)
  }

  /** Everybody outside the pool together holds `held`, and no operation spends more than that. */
  predicate RunAffords(m: Market, held: Purse, ops: seq<PoolOp>)
    requires Sound(m)
    decreases |ops|
  {
    ops == [] || (Affords(m, held, ops[0]) && RunAffords(Apply(m, ops[0]), Settled(m, held, ops[0]), ops[1..]))
  }

  /** Pool and holders together have no more of either token than a u128 counts. */
  predicate WithinSupply(m: Market, held: Purse) {
    m.zbx + held.zbx <= U128_MAX && m.token + held.token <= U128_MAX
  }

  /** Then an operation fits: what is spent has room in the reserves, and the shares under their root. */
  lemma SupplyFits(m: Market, held: Purse, op: PoolOp)
    requires Backed(m) && WithinSupply(m, held) && Affords(m, held, op)
    ensures Fits(m, op) && Backed(Apply(m, op)) && WithinSupply(Apply(m, op), Settled(m, held, op))
  {
    if op.Add? && Adding(m, op.zbxDesired, op.tokenMax).Ok? {
      SharesFit(m, op.zbxDesired, op.tokenMax);
    }
    OpKeepsWorth(m, op);
    BackingCarries(m, Apply(m, op));
    match op {
      case Add(_, _) =>
      case Remove(b) =>
        if Removing(m, b).Ok? {
          PartIsLess(m.zbx, b, m.lp);
          PartIsLess(m.token, b, m.lp);
        }
      case SwapZbx(_) =>
      case SwapToken(_) =>
    }
  }

  lemma SharesFit(m: Market, d: u128, t: u128)
    requires Backed(m) && Adding(m, d, t).Ok?
    requires var v := Adding(m, d, t).value; m.zbx + v.zbx <= U128_MAX && m.token + v.token <= U128_MAX
    ensures m.lp + Adding(m, d, t).value.lp <= U128_MAX
  {
    var v := Adding(m, d, t).value;
    var z, k, l := m.zbx + v.zbx, m.token + v.token, m.lp + v.lp;
    MintIsBacked(v.zbx, m.zbx, m.lp, v.lp);
    MintIsBacked(v.token, m.token, m.lp, v.lp);
    BothSidesBack(m.zbx, m.token, m.lp, z, k, l);
    SquareCarries(m.zbx, m.token, m.lp, z, k, l);
    RootFits(z, k, l);
  }

  lemma RootFits(z: nat, k: nat, l: nat)
    requires z <= U128_MAX && k <= U128_MAX && l * l <= z * k
    ensures l <= U128_MAX
  {
    if l > U128_MAX {
      MulLe(z, U128_MAX, k);
      MulLe(k, U128_MAX, U128_MAX);
      SquareLe(U128_MAX + 1, l);
    }
  }

  /** So as long as nobody spends what is not there, no run of a founded pool ever saturates. */
  lemma {:induction false} RunFitsWithinSupply(m: Market, held: Purse, ops: seq<PoolOp>)
    requires Backed(m) && WithinSupply(m, held) && RunAffords(m, held, ops)
    ensures RunFits(m, ops) && Backed(RunPool(m, ops))
    decreases |ops|
  {
    if ops != [] {
      SupplyFits(m, held, ops[0]);
      RunFitsWithinSupply(Apply(m, ops[0]), Settled(m, held, ops[0]), ops[1..]);
    }
  }

  /** And a share never loses worth, with no condition on the run but that. */
  lemma WorthWithinSupply(m: Market, held: Purse, ops: seq<PoolOp>)
    requires Backed(m) && WithinSupply(m, held) && RunAffords(m, held, ops)
    ensures WorthAtLeast(RunPool(m, ops), m) && Backed(RunPool(m, ops))
  {
    RunFitsWithinSupply(m, held, ops);
    WorthNeverFalls(m, ops);
  }
}
