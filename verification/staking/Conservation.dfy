/** The ledger invariant, and conservation: what came in equals what is held plus what was paid out. */
module StakingConservation {
  import opened Common
  import opened Arith
  import opened Sums
  import opened Staking

  ghost function Stakes(vs: map<Address, Validator>): map<Address, nat> {
    map a | a in vs :: vs[a].totalStake
  }

  ghost function Pools(vs: map<Address, Validator>): map<Address, nat> {
    map a | a in vs :: vs[a].commissionPool
  }

  /** The positions on one validator. */
  ghost function Column(ds: map<Position, u128>, v: Address): map<Position, nat> {
    map p | p in ds && p.validator == v :: ds[p]
  }

  function SumQueue(q: seq<Unbonding>): nat {
    if q == [] then 0 else q[0].amount + SumQueue(q[1..])
  }

  /** Everything the module is answerable for. */
  ghost function Total(l: Ledger): nat {
    Sum(Stakes(l.validators)) + Sum(Pools(l.validators)) + SumQueue(l.queue) + l.totalSlashed
  }

  predicate QueueOrdered(q: seq<Unbonding>) {
    forall i, j :: 0 <= i < j < |q| ==> q[i].matureAt <= q[j].matureAt
  }

  /** Shares on a validator are exactly its delegations, and stand for stake exactly when there is some. */
  ghost predicate SharesMatch(l: Ledger) {
    && (forall p :: p in l.delegations ==> p.validator in l.validators)
    && (forall v :: v in l.validators ==>
          && Sum(Column(l.delegations, v)) == l.validators[v].totalShares
          && (l.validators[v].totalShares == 0 <==> l.validators[v].totalStake == 0))
  }

  predicate QueueInv(l: Ledger) {
    QueueOrdered(l.queue) && forall e :: e in l.queue ==> e.matureAt <= l.epoch + UNBONDING_EPOCHS
  }

  predicate RatesInv(l: Ledger) {
    forall v :: v in l.validators ==> l.validators[v].commissionBps <= MAX_COMMISSION_BPS
  }

  ghost predicate LedgerInv(l: Ledger) {
    SharesMatch(l) && QueueInv(l) && RatesInv(l)
  }

  // ───────────── operations and what flows in and out ─────────────

  datatype Op =
    | OpCreate(signer: Address, address: Address, bps: nat, selfBond: u128, minBond: u128)
    | OpEdit(signer: Address, validator: Address, newBps: Option<nat>)
    | OpStake(delegator: Address, validator: Address, amount: u128)
    | OpUnstake(delegator: Address, validator: Address, shares: u128)
    | OpRedelegate(delegator: Address, from: Address, to: Address, shares: u128)
    | OpClaim(signer: Address, validator: Address)
    | OpSlashDoubleSign(validator: Address)
    | OpSlashDowntime(validator: Address)
    | OpSlashEvidence(validator: Address, height: u64, round: u32)
    | OpUnjail(signer: Address, validator: Address)
    | OpEndEpoch(reward: u128)

  datatype Flow = Flow(deposited: nat, rewarded: nat, paid: nat)

  function Incoming(op: Op): nat {
    match op
    case OpCreate(_, _, _, selfBond, _) => selfBond
    case OpStake(_, _, amount) => amount
    case OpEndEpoch(reward) => reward
    case _ => 0
  }

  ghost function ShareMap(vs: map<Address, Validator>, reward: u128, active: u128): map<Address, nat> {
    map a | a in vs :: RewardShare(vs[a], reward, active)
  }

  /** What an epoch hands to validators and their operators. */
  ghost function Distributed(vs: map<Address, Validator>, reward: u128): nat
    requires Sum(ActiveStakes(vs)) <= U128_MAX
  {
    var active := Sum(ActiveStakes(vs));
    if active > 0 && reward > 0 then Sum(ShareMap(vs, reward, active)) else 0
  }

  ghost function OkFlow<T>(r: (Ledger, Result<T, StakingError>), f: Flow): Option<(Ledger, Flow)> {
    if r.1.Ok? then Some((r.0, f)) else None
  }

  /** The state after an operation that succeeds, and its flow; the caller reverts one that fails. */
  ghost function Effect(l: Ledger, op: Op): Option<(Ledger, Flow)> {
    match op
    case OpCreate(s, a, bps, bond, min) => OkFlow(CreateValidator(l, s, a, bps, bond, min), Flow(bond, 0, 0))
    case OpEdit(s, v, bps) => OkFlow(EditValidator(l, s, v, bps), Flow(0, 0, 0))
    case OpStake(d, v, amount) => OkFlow(Stake(l, d, v, amount), Flow(amount, 0, 0))
    case OpUnstake(d, v, shares) => OkFlow(Unstake(l, d, v, shares), Flow(0, 0, 0))
    case OpRedelegate(d, f, t, shares) => OkFlow(Redelegate(l, d, f, t, shares), Flow(0, 0, 0))
    case OpClaim(s, v) =>
      var r := ClaimRewards(l, s, v);
      OkFlow(r, Flow(0, 0, if r.1.Ok? then r.1.value else 0))
    case OpSlashDoubleSign(v) => OkFlow(Slash(l, v, SLASH_DOUBLE_SIGN_BPS, JAIL_EPOCHS_DOUBLE_SIGN), Flow(0, 0, 0))
    case OpSlashDowntime(v) => OkFlow(Slash(l, v, SLASH_DOWNTIME_BPS, JAIL_EPOCHS_DOWNTIME), Flow(0, 0, 0))
    case OpSlashEvidence(v, h, r) => OkFlow(SlashForEvidence(l, v, h, r), Flow(0, 0, 0))
    case OpUnjail(s, v) => OkFlow(Unjail(l, s, v), Flow(0, 0, 0))
    case OpEndEpoch(reward) =>
      if RatesFit(l.validators) && Sum(ActiveStakes(l.validators)) <= U128_MAX then
        var (l', payout) := EndEpoch(l, reward);
        Some((l', Flow(0, Distributed(l.validators, reward), Sum(payout))))
      else None
  }

  ghost predicate Balanced(l: Ledger, r: (Ledger, Flow)) {
    Total(r.0) + r.1.paid == Total(l) + r.1.deposited + r.1.rewarded
  }

  // ───────────── one validator, one position ─────────────

  /** Replacing one validator changes the sums by that validator's change. */
  lemma ReplaceValidator(vs: map<Address, Validator>, a: Address, v: Validator)
    requires a in vs
    ensures Sum(Stakes(vs[a := v])) + vs[a].totalStake == Sum(Stakes(vs)) + v.totalStake
    ensures Sum(Pools(vs[a := v])) + vs[a].commissionPool == Sum(Pools(vs)) + v.commissionPool
    ensures vs[a].totalStake <= Sum(Stakes(vs)) && vs[a].commissionPool <= Sum(Pools(vs))
  {
    assert Stakes(vs[a := v]) == Stakes(vs)[a := v.totalStake];
    SumUpdate(Stakes(vs), a, v.totalStake);
    assert Pools(vs[a := v]) == Pools(vs)[a := v.commissionPool];
    SumUpdate(Pools(vs), a, v.commissionPool);
  }

  lemma AddValidator(vs: map<Address, Validator>, a: Address, v: Validator)
    requires a !in vs
    ensures Sum(Stakes(vs[a := v])) == Sum(Stakes(vs)) + v.totalStake
    ensures Sum(Pools(vs[a := v])) == Sum(Pools(vs)) + v.commissionPool
  {
    assert Stakes(vs[a := v]) == Stakes(vs)[a := v.totalStake];
    SumUpdate(Stakes(vs), a, v.totalStake);
    assert Pools(vs[a := v]) == Pools(vs)[a := v.commissionPool];
    SumUpdate(Pools(vs), a, v.commissionPool);
  }

  lemma SetPosition(ds: map<Position, u128>, p: Position, x: u128, v: Address)
    ensures Sum(Column(ds[p := x], v)) + (if v == p.validator && p in ds then ds[p] else 0)
         == Sum(Column(ds, v)) + (if v == p.validator then x else 0)
  {
    if v == p.validator {
      assert Column(ds[p := x], v) == Column(ds, v)[p := x];
      SumUpdate(Column(ds, v), p, x);
    } else {
      assert Column(ds[p := x], v) == Column(ds, v);
    }
  }

  lemma DropPosition(ds: map<Position, u128>, p: Position, v: Address)
    requires p in ds
    ensures Sum(Column(ds - {p}, v)) + (if v == p.validator then ds[p] else 0) == Sum(Column(ds, v))
  {
    if v == p.validator {
      assert Column(ds - {p}, v) == Column(ds, v) - {p};
      SumRemove(Column(ds, v), p);
    } else {
      assert Column(ds - {p}, v) == Column(ds, v);
    }
  }

  /** One validator replaced and one of its positions set, or dropped. */
  ghost function Change(l: Ledger, p: Position, v: Validator, shares: Option<u128>): Ledger {
    l.(validators := l.validators[p.validator := v],
       delegations := if shares.None? then l.delegations - {p} else l.delegations[p := shares.value])
  }

  lemma ChangeKeepsShares(l: Ledger, p: Position, v: Validator, shares: Option<u128>)
    requires SharesMatch(l) && p.validator in l.validators
    requires shares.None? ==> p in l.delegations
    requires v.totalShares + Held(l, p.delegator, p.validator)
          == l.validators[p.validator].totalShares + if shares.None? then 0 else shares.value
    requires v.totalShares == 0 <==> v.totalStake == 0
    ensures SharesMatch(Change(l, p, v, shares))
  {
    var l' := Change(l, p, v, shares);
    assert p == Position(p.delegator, p.validator);
    forall a | a in l'.validators
      ensures Sum(Column(l'.delegations, a)) == l'.validators[a].totalShares
    {
      if shares.None? {
        DropPosition(l.delegations, p, a);
      } else {
        SetPosition(l.delegations, p, shares.value, a);
      }
    }
  }

  lemma ChangeTotal(l: Ledger, p: Position, v: Validator, shares: Option<u128>)
    requires p.validator in l.validators
    ensures var v0 := l.validators[p.validator];
      Total(Change(l, p, v, shares)) + v0.totalStake + v0.commissionPool == Total(l) + v.totalStake + v.commissionPool
  {
    ReplaceValidator(l.validators, p.validator, v);
  }

  lemma HeldAtMostShares(l: Ledger, d: Address, v: Address)
    requires SharesMatch(l) && v in l.validators
    ensures Held(l, d, v) <= l.validators[v].totalShares
  {
    if Position(d, v) in l.delegations {
      SumAtLeast(Column(l.delegations, v), Position(d, v));
    }
  }

  /** A part of the shares is worth a part of the stake: all of it only for all shares. */
  lemma ValueOfPart(v: Validator, shares: u128)
    requires shares <= v.totalShares && (v.totalShares == 0 <==> v.totalStake == 0)
    ensures SharesToAmount(v, shares) <= v.totalStake
    ensures v.totalShares > 0 ==> SharesToAmount(v, shares) == MulFloor(shares, v.totalStake, v.totalShares)
    ensures SharesToAmount(v, shares) == v.totalStake <==> shares == v.totalShares
  {
    if v.totalShares > 0 {
      var s, t, q := v.totalStake, v.totalShares, MulFloor(shares, v.totalStake, v.totalShares);
      FloorBracket(shares, s, t);
      assert shares * s == s * shares && t * s == s * t;
      MulLe(shares, t, s);
      FloorAtMost(shares, s, t, s);
      if shares == t {
        FloorIs(shares, s, t, s);
      } else {
        MulLe(shares + 1, t, s);
        assert (shares + 1) * s == shares * s + s;
      }
    }
  }

  // ───────────── per operation ─────────────

  lemma CreateKeeps(l: Ledger, s: Address, a: Address, bps: nat, bond: u128, min: u128)
    requires LedgerInv(l) && CreateValidator(l, s, a, bps, bond, min).1.Ok?
    ensures var l' := CreateValidator(l, s, a, bps, bond, min).0; LedgerInv(l') && Total(l') == Total(l) + bond
  {
    var l' := CreateValidator(l, s, a, bps, bond, min).0;
    var v := l'.validators[a];
    assert v.totalStake == bond && v.commissionPool == 0;
    assert l' == Change(l, Position(s, a), v, Some(v.totalShares));
    NewPosition(l, Position(s, a), v);
  }

  lemma NewPosition(l: Ledger, p: Position, v: Validator)
    requires SharesMatch(l) && p.validator !in l.validators
    requires v.totalShares == 0 <==> v.totalStake == 0
    ensures SharesMatch(Change(l, p, v, Some(v.totalShares)))
    ensures Total(Change(l, p, v, Some(v.totalShares))) == Total(l) + v.totalStake + v.commissionPool
  {
    var l' := Change(l, p, v, Some(v.totalShares));
    AddValidator(l.validators, p.validator, v);
    assert Column(l.delegations, p.validator) == map[];
    forall a | a in l'.validators ensures Sum(Column(l'.delegations, a)) == l'.validators[a].totalShares {
      SetPosition(l.delegations, p, v.totalShares, a);
    }
  }

  /** A successful deposit adds the amount to stake and the minted shares to validator and position. */
  lemma DepositShape(l: Ledger, d: Address, a: Address, amount: u128) returns (minted: u128)
    requires Deposit(l, d, a, amount).1.Ok?
    ensures a in l.validators && minted == AmountToShares(l.validators[a], amount)
    ensures Deposit(l, d, a, amount).1 == Ok(minted) && !l.validators[a].jailed
    ensures var v := l.validators[a];
      && v.totalStake + amount <= U128_MAX && v.totalShares + minted <= U128_MAX && Held(l, d, a) + minted <= U128_MAX
      && Deposit(l, d, a, amount).0
         == Change(l, Position(d, a), Enlarged(v, amount, minted), Some(Held(l, d, a) + minted))
  {
    minted := AmountToShares(l.validators[a], amount);
  }

  /** The first deposit mints shares exactly when it is not empty. */
  lemma BootstrapMints(v: Validator, amount: u128)
    requires v.totalShares == 0
    ensures AmountToShares(v, amount) == 0 <==> amount == 0
  {
  }

  /** The parts of the ledger a change of one position does not touch. */
  ghost predicate Aside(l: Ledger, l': Ledger) {
    l'.queue == l.queue && l'.epoch == l.epoch && (RatesInv(l) ==> RatesInv(l'))
  }

  lemma DepositShares(l: Ledger, d: Address, a: Address, amount: u128)
    requires SharesMatch(l) && Deposit(l, d, a, amount).1.Ok?
    ensures SharesMatch(Deposit(l, d, a, amount).0)
  {
    var minted := DepositShape(l, d, a, amount);
    var v := l.validators[a];
    if v.totalShares == 0 {
      BootstrapMints(v, amount);
    }
    ChangeKeepsShares(l, Position(d, a), Enlarged(v, amount, minted), Some(Held(l, d, a) + minted));
  }

  lemma DepositTotal(l: Ledger, d: Address, a: Address, amount: u128)
    requires Deposit(l, d, a, amount).1.Ok?
    ensures Aside(l, Deposit(l, d, a, amount).0) && Total(Deposit(l, d, a, amount).0) == Total(l) + amount
  {
    var minted := DepositShape(l, d, a, amount);
    var v := l.validators[a];
    ChangeTotal(l, Position(d, a), Enlarged(v, amount, minted), Some(Held(l, d, a) + minted));
  }

  /** A successful withdrawal takes the shares from validator and position and their value from stake. */
  lemma WithdrawShape(l: Ledger, d: Address, a: Address, shares: u128) returns (amount: u128)
    requires SharesMatch(l) && Withdraw(l, d, a, shares).1.Ok?
    ensures a in l.validators && amount == SharesToAmount(l.validators[a], shares)
    ensures Withdraw(l, d, a, shares).1 == Ok(amount) && 0 < shares <= Held(l, d, a)
    ensures var v := l.validators[a];
      && amount <= v.totalStake && shares <= v.totalShares && (amount == v.totalStake <==> shares == v.totalShares)
      && Withdraw(l, d, a, shares).0
         == Change(l, Position(d, a), Reduced(v, amount, shares), Remaining(l, d, a, shares))
  {
    amount := SharesToAmount(l.validators[a], shares);
    HeldAtMostShares(l, d, a);
    ValueOfPart(l.validators[a], shares);
  }

  function Enlarged(v: Validator, amount: u128, minted: u128): Validator
    requires v.totalStake + amount <= U128_MAX && v.totalShares + minted <= U128_MAX
  {
    v.(totalStake := v.totalStake + amount, totalShares := v.totalShares + minted)
  }

  function Reduced(v: Validator, amount: u128, shares: u128): Validator
    requires amount <= v.totalStake && shares <= v.totalShares
  {
    v.(totalStake := v.totalStake - amount, totalShares := v.totalShares - shares)
  }

  function Remaining(l: Ledger, d: Address, a: Address, shares: u128): Option<u128>
    requires shares <= Held(l, d, a)
  {
    if Held(l, d, a) == shares then None else Some(Held(l, d, a) - shares)
  }

  lemma WithdrawShares(l: Ledger, d: Address, a: Address, shares: u128)
    requires SharesMatch(l) && Withdraw(l, d, a, shares).1.Ok?
    ensures SharesMatch(Withdraw(l, d, a, shares).0)
  {
    var amount := WithdrawShape(l, d, a, shares);
    ChangeKeepsShares(l, Position(d, a), Reduced(l.validators[a], amount, shares), Remaining(l, d, a, shares));
  }

  lemma WithdrawTotal(l: Ledger, d: Address, a: Address, shares: u128)
    requires SharesMatch(l) && Withdraw(l, d, a, shares).1.Ok?
    ensures Aside(l, Withdraw(l, d, a, shares).0)
    ensures Total(Withdraw(l, d, a, shares).0) + Withdraw(l, d, a, shares).1.value == Total(l)
  {
    var amount := WithdrawShape(l, d, a, shares);
    ChangeTotal(l, Position(d, a), Reduced(l.validators[a], amount, shares), Remaining(l, d, a, shares));
  }

  lemma {:induction false} SumQueueAppend(q: seq<Unbonding>, e: Unbonding)
    ensures SumQueue(q + [e]) == SumQueue(q) + e.amount
  {
    if q != [] {
      assert (q + [e])[1..] == q[1..] + [e];
      SumQueueAppend(q[1..], e);
    }
  }

  /** Queueing an amount for unbonding adds it to the total and keeps the queue ordered. */
  lemma EnqueueKeeps(l: Ledger, e: Unbonding)
    requires LedgerInv(l) && e.matureAt == l.epoch + UNBONDING_EPOCHS
    ensures LedgerInv(l.(queue := l.queue + [e])) && Total(l.(queue := l.queue + [e])) == Total(l) + e.amount
  {
    SumQueueAppend(l.queue, e);
    assert forall i :: 0 <= i < |l.queue| ==> l.queue[i] in l.queue;
  }

  lemma UnstakeShape(l: Ledger, d: Address, a: Address, shares: u128) returns (l1: Ledger, e: Unbonding)
    requires Unstake(l, d, a, shares).1.Ok?
    ensures (l1, Ok(e.amount)) == Withdraw(l, d, a, shares) && l1.queue == l.queue && l1.epoch == l.epoch
    ensures e.matureAt == l.epoch + UNBONDING_EPOCHS && Unstake(l, d, a, shares).0 == l1.(queue := l1.queue + [e])
  {
    var r := Withdraw(l, d, a, shares);
    l1 := r.0;
    e := Unbonding(d, a, r.1.value, l.epoch + UNBONDING_EPOCHS);
  }

  lemma UnstakeKeeps(l: Ledger, d: Address, a: Address, shares: u128)
    requires LedgerInv(l) && Unstake(l, d, a, shares).1.Ok?
    ensures LedgerInv(Unstake(l, d, a, shares).0) && Total(Unstake(l, d, a, shares).0) == Total(l)
  {
    var l1, e := UnstakeShape(l, d, a, shares);
    WithdrawShares(l, d, a, shares);
    WithdrawTotal(l, d, a, shares);
    assert LedgerInv(l1);
    EnqueueKeeps(l1, e);
  }

  lemma StakeKeeps(l: Ledger, d: Address, a: Address, amount: u128)
    requires LedgerInv(l) && Stake(l, d, a, amount).1.Ok?
    ensures LedgerInv(Stake(l, d, a, amount).0) && Total(Stake(l, d, a, amount).0) == Total(l) + amount
  {
    DepositShares(l, d, a, amount);
    DepositTotal(l, d, a, amount);
  }

  lemma RedelegateKeeps(l: Ledger, d: Address, from: Address, to: Address, shares: u128)
    requires LedgerInv(l) && Redelegate(l, d, from, to, shares).1.Ok?
    ensures LedgerInv(Redelegate(l, d, from, to, shares).0) && Total(Redelegate(l, d, from, to, shares).0) == Total(l)
  {
    var l1, r := Withdraw(l, d, from, shares).0, Withdraw(l, d, from, shares).1;
    WithdrawShares(l, d, from, shares);
    WithdrawTotal(l, d, from, shares);
    DepositShares(l1, d, to, r.value);
    DepositTotal(l1, d, to, r.value);
  }

  /** Editing, claiming and unjailing change neither shares nor stake. */
  lemma RelabelKeeps(l: Ledger, a: Address, v: Validator)
    requires LedgerInv(l) && a in l.validators && v.commissionBps <= MAX_COMMISSION_BPS
    requires v.totalStake == l.validators[a].totalStake && v.totalShares == l.validators[a].totalShares
    ensures var l' := l.(validators := l.validators[a := v]);
      LedgerInv(l') && Total(l') + l.validators[a].commissionPool == Total(l) + v.commissionPool
  {
    ReplaceValidator(l.validators, a, v);
  }

  lemma CutWithin(x: u128, bps: nat)
    requires bps < COMMISSION_BPS_DEN
    ensures MulDiv(x, bps, COMMISSION_BPS_DEN) <= x
    ensures MulDiv(x, bps, COMMISSION_BPS_DEN) == x <==> x == 0
  {
    FloorBracket(x, bps, COMMISSION_BPS_DEN);
    var q := MulFloor(x, bps, COMMISSION_BPS_DEN);
    MulLe(bps, COMMISSION_BPS_DEN - 1, x);
    assert x * bps == bps * x;
    assert q * COMMISSION_BPS_DEN <= x * (COMMISSION_BPS_DEN - 1);
  }

  lemma {:induction false} SlashQueueSum(q: seq<Unbonding>, v: Address, bps: nat)
    requires bps < COMMISSION_BPS_DEN
    ensures SumQueue(SlashQueue(q, v, bps)) + SumCuts(q, v, bps) == SumQueue(q)
  {
    if q != [] {
      var n := |q| - 1;
      SlashQueueSum(q[..n], v, bps);
      assert q == q[..n] + [q[n]];
      assert SlashQueue(q, v, bps) == SlashQueue(q[..n], v, bps) + [SlashEntry(q[n], v, bps)];
      SumQueueAppend(q[..n], q[n]);
      SumQueueAppend(SlashQueue(q[..n], v, bps), SlashEntry(q[n], v, bps));
      CutWithin(q[n].amount, bps);
    }
  }

  lemma SlashShape(l: Ledger, a: Address, bps: nat, jail: nat) returns (bonded: u128, v': Validator)
    requires bps < COMMISSION_BPS_DEN && a in l.validators && Total(l) <= U128_MAX
    ensures bonded <= l.validators[a].totalStake
    ensures bonded == l.validators[a].totalStake <==> l.validators[a].totalStake == 0
    ensures v' == l.validators[a].(totalStake := l.validators[a].totalStake - bonded,
                                   jailed := true, jailedUntil := l.epoch + jail)
    ensures SumCuts(l.queue, a, bps) <= SumQueue(l.queue)
    ensures l.totalSlashed + bonded + SumCuts(l.queue, a, bps) <= Total(l)
    ensures Slash(l, a, bps, jail) ==
      (l.(validators := l.validators[a := v'], queue := SlashQueue(l.queue, a, bps),
          totalSlashed := l.totalSlashed + bonded + SumCuts(l.queue, a, bps)), Ok(bonded + SumCuts(l.queue, a, bps)))
  {
    var v := l.validators[a];
    bonded := MulDiv(v.totalStake, bps, COMMISSION_BPS_DEN);
    CutWithin(v.totalStake, bps);
    v' := v.(totalStake := v.totalStake - bonded, jailed := true, jailedUntil := l.epoch + jail);
    SlashQueueSum(l.queue, a, bps);
    ReplaceValidator(l.validators, a, v');
  }

  lemma SlashKeeps(l: Ledger, a: Address, bps: nat, jail: nat)
    requires bps < COMMISSION_BPS_DEN && LedgerInv(l) && Total(l) <= U128_MAX && a in l.validators
    ensures var (l', r) := Slash(l, a, bps, jail);
      LedgerInv(l') && Total(l') == Total(l) && r.Ok? && l'.totalSlashed == l.totalSlashed + r.value
  {
    var bonded, v' := SlashShape(l, a, bps, jail);
    var slashed := l.totalSlashed + bonded + SumCuts(l.queue, a, bps);
    SlashedInv(l, a, v', bps, slashed);
    SlashedTotal(l, a, v', bps, slashed);
  }

  lemma SlashedInv(l: Ledger, a: Address, v: Validator, bps: nat, slashed: u128)
    requires LedgerInv(l) && a in l.validators && bps <= COMMISSION_BPS_DEN
    requires v.totalShares == l.validators[a].totalShares && v.commissionBps == l.validators[a].commissionBps
    requires v.totalStake == 0 <==> l.validators[a].totalStake == 0
    ensures LedgerInv(l.(validators := l.validators[a := v],
                         queue := SlashQueue(l.queue, a, bps), totalSlashed := slashed))
  {
    var q' := SlashQueue(l.queue, a, bps);
    assert forall i :: 0 <= i < |q'| ==> q'[i].matureAt == l.queue[i].matureAt && l.queue[i] in l.queue;
  }

  lemma SlashedTotal(l: Ledger, a: Address, v: Validator, bps: nat, slashed: u128)
    requires a in l.validators && bps < COMMISSION_BPS_DEN && v.commissionPool == l.validators[a].commissionPool
    requires slashed == l.totalSlashed + (l.validators[a].totalStake - v.totalStake) + SumCuts(l.queue, a, bps)
    ensures var l' := l.(validators := l.validators[a := v],
                         queue := SlashQueue(l.queue, a, bps), totalSlashed := slashed);
      Total(l') == Total(l)
  {
    SlashQueueSum(l.queue, a, bps);
    ReplaceValidator(l.validators, a, v);
  }

  // ───────────── epochs ─────────────

  lemma RewardShareBound(vs: map<Address, Validator>, a: Address, reward: u128, active: u128)
    requires a in vs && active > 0 && active == Sum(ActiveStakes(vs))
    ensures RewardShare(vs[a], reward, active) <= reward
    ensures !vs[a].jailed ==> RewardShare(vs[a], reward, active) == MulFloor(reward, vs[a].totalStake, active)
  {
    if !vs[a].jailed {
      SumAtLeast(ActiveStakes(vs), a);
      MulLe(vs[a].totalStake, active, reward);
      assert reward * vs[a].totalStake == vs[a].totalStake * reward && active * reward == reward * active;
      FloorAtMost(reward, vs[a].totalStake, active, reward);
    }
  }

  /** An epoch distributes at most the reward, and falls short by less than one unit per active validator. */
  lemma DistributedBound(vs: map<Address, Validator>, reward: u128)
    requires Sum(ActiveStakes(vs)) <= U128_MAX
    ensures Distributed(vs, reward) <= reward
    ensures Sum(ActiveStakes(vs)) > 0 && reward > 0 ==> reward < Distributed(vs, reward) + |ActiveStakes(vs)|
  {
    var active := Sum(ActiveStakes(vs));
    if active > 0 && reward > 0 {
      var shares, cuts := ShareMap(vs, reward, active), Cuts(ActiveStakes(vs), reward, active);
      forall a | a in shares ensures shares[a] == if a in cuts then cuts[a] else 0 {
        RewardShareBound(vs, a, reward, active);
      }
      SumSkipsZeros(shares, cuts);
      CutsOfWhole(ActiveStakes(vs), reward, active);
    }
  }

  ghost function Holdings(vs: map<Address, Validator>): map<Address, nat> {
    map a | a in vs :: vs[a].totalStake + vs[a].commissionPool
  }

  lemma HoldingsSum(vs: map<Address, Validator>)
    ensures Sum(Holdings(vs)) == Sum(Stakes(vs)) + Sum(Pools(vs))
  {
    SumAdd(Holdings(vs), Stakes(vs), Pools(vs));
  }

  predicate RewardKeeps(v: Validator, v': Validator, share: u128) {
    && v'.totalStake + v'.commissionPool == v.totalStake + v.commissionPool + share
    && v'.totalStake >= v.totalStake && v'.totalShares == v.totalShares && v'.commissionBps == v.commissionBps
    && (v.totalStake == 0 ==> v'.totalStake == 0)
  }

  /** A share is split without loss when nothing saturates. */
  lemma SplitKeepsShare(v: Validator, reward: u128, active: u128)
    requires v.commissionBps <= MAX_COMMISSION_BPS
    requires v.totalStake + v.commissionPool + RewardShare(v, reward, active) <= U128_MAX
    requires v.totalStake == 0 ==> RewardShare(v, reward, active) == 0
    ensures RewardKeeps(v, Rewarded(v, reward, active), RewardShare(v, reward, active))
  {
    CutWithin(RewardShare(v, reward, active), v.commissionBps);
  }

  /** One validator keeps its whole share, split between stake and commission pool. */
  lemma RewardedKeepsShare(vs: map<Address, Validator>, a: Address, reward: u128, active: u128)
    requires a in vs && active > 0 && active == Sum(ActiveStakes(vs))
    requires vs[a].commissionBps <= MAX_COMMISSION_BPS
    requires Sum(Holdings(vs)) + reward <= U128_MAX
    ensures RewardKeeps(vs[a], Rewarded(vs[a], reward, active), RewardShare(vs[a], reward, active))
  {
    RewardShareBound(vs, a, reward, active);
    SumAtLeast(Holdings(vs), a);
    if vs[a].totalStake == 0 {
      FloorIs(reward, 0, active, 0);
    }
    SplitKeepsShare(vs[a], reward, active);
  }

  lemma RewardAllKeeps(vs: map<Address, Validator>, reward: u128)
    requires Sum(ActiveStakes(vs)) <= U128_MAX && Sum(Holdings(vs)) + reward <= U128_MAX
    requires forall a :: a in vs ==> vs[a].commissionBps <= MAX_COMMISSION_BPS
    ensures Sum(ActiveStakes(vs)) > 0 && reward > 0 ==>
      Sum(Holdings(RewardAll(vs, reward, Sum(ActiveStakes(vs))))) == Sum(Holdings(vs)) + Distributed(vs, reward)
  {
    var active := Sum(ActiveStakes(vs));
    if active > 0 && reward > 0 {
      var vs' := RewardAll(vs, reward, active);
      forall a | a in vs ensures Holdings(vs')[a] == Holdings(vs)[a] + ShareMap(vs, reward, active)[a] {
        RewardedKeepsShare(vs, a, reward, active);
      }
      SumAdd(Holdings(vs'), Holdings(vs), ShareMap(vs, reward, active));
    }
  }

  function Due(p: Payout, d: Address): nat {
    if d in p then p[d] else 0
  }

  function DueTo(q: seq<Unbonding>, d: Address): nat {
    if q == [] then 0 else (if q[0].delegator == d then q[0].amount else 0) + DueTo(q[1..], d)
  }

  /** How many entries at the front have matured. */
  function MaturedCount(q: seq<Unbonding>, epoch: nat): (n: nat)
    ensures n <= |q|
    ensures forall i :: 0 <= i < n ==> q[i].matureAt <= epoch
    ensures n < |q| ==> q[n].matureAt > epoch
  {
    if q == [] || q[0].matureAt > epoch then 0 else 1 + MaturedCount(q[1..], epoch)
  }

  /** Popping the front pays exactly the matured prefix and conserves the total. */
  lemma {:induction false} PopPays(q: seq<Unbonding>, epoch: nat, payout: Payout)
    requires SumQueue(q) + Sum(payout) <= U128_MAX
    ensures var (q', payout') := PopMatured(q, epoch, payout);
      && q' == q[MaturedCount(q, epoch)..]
      && SumQueue(q') + Sum(payout') == SumQueue(q) + Sum(payout)
    decreases q
  {
    var n := MaturedCount(q, epoch);
    if q != [] && q[0].matureAt <= epoch {
      var paid := Due(payout, q[0].delegator);
      SumUpdate(payout, q[0].delegator, paid + q[0].amount);
      var payout1: Payout := payout[q[0].delegator := paid + q[0].amount];
      assert SumQueue(q) == q[0].amount + SumQueue(q[1..]);
      PopPays(q[1..], epoch, payout1);
      assert q[1..][n-1..] == q[n..];
    } else {
      assert q[0..] == q;
    }
  }

  /** Each delegator is paid what the matured entries owe them. */
  lemma {:induction false} PopPaysEach(q: seq<Unbonding>, epoch: nat, payout: Payout, d: Address)
    requires SumQueue(q) + Sum(payout) <= U128_MAX
    ensures Due(PopMatured(q, epoch, payout).1, d) == Due(payout, d) + DueTo(q[..MaturedCount(q, epoch)], d)
    decreases q
  {
    var n := MaturedCount(q, epoch);
    if q != [] && q[0].matureAt <= epoch {
      var paid := Due(payout, q[0].delegator);
      SumUpdate(payout, q[0].delegator, paid + q[0].amount);
      PopPaysEach(q[1..], epoch, payout[q[0].delegator := paid + q[0].amount], d);
      assert q[..n][1..] == q[1..][..n-1];
    } else {
      assert q[..0] == [];
    }
  }

  /** In an ordered queue the matured entries are exactly those at the front. */
  lemma MaturedAreFront(q: seq<Unbonding>, epoch: nat)
    requires QueueOrdered(q)
    ensures forall i :: 0 <= i < |q| ==> (q[i].matureAt <= epoch <==> i < MaturedCount(q, epoch))
  {
  }

  /** After an epoch every validator has its old shares, its old rate, and stake where it had some. */
  lemma RewardAllShape(vs: map<Address, Validator>, reward: u128, a: Address)
    requires Sum(ActiveStakes(vs)) <= U128_MAX && Sum(Holdings(vs)) + reward <= U128_MAX && RatesFit(vs) && a in vs
    requires vs[a].commissionBps <= MAX_COMMISSION_BPS
    ensures var v' := AfterRewards(vs, reward)[a];
      && v'.totalShares == vs[a].totalShares && v'.commissionBps == vs[a].commissionBps
      && v'.totalStake >= vs[a].totalStake && (v'.totalStake == 0 <==> vs[a].totalStake == 0)
  {
    var active := Sum(ActiveStakes(vs));
    if active > 0 && reward > 0 {
      RewardedKeepsShare(vs, a, reward, active);
    }
  }

  ghost function AfterRewards(vs: map<Address, Validator>, reward: u128): (vs': map<Address, Validator>)
    requires RatesFit(vs) && Sum(ActiveStakes(vs)) <= U128_MAX
    ensures vs'.Keys == vs.Keys
  {
    var active := Sum(ActiveStakes(vs));
    if active > 0 && reward > 0 then RewardAll(vs, reward, active) else vs
  }

  lemma AfterRewardsTotal(vs: map<Address, Validator>, reward: u128)
    requires RatesFit(vs) && Sum(ActiveStakes(vs)) <= U128_MAX && Sum(Stakes(vs)) + Sum(Pools(vs)) + reward <= U128_MAX
    requires forall a :: a in vs ==> vs[a].commissionBps <= MAX_COMMISSION_BPS
    ensures var vs' := AfterRewards(vs, reward);
      Sum(Stakes(vs')) + Sum(Pools(vs')) == Sum(Stakes(vs)) + Sum(Pools(vs)) + Distributed(vs, reward)
  {
    HoldingsSum(vs);
    HoldingsSum(AfterRewards(vs, reward));
    RewardAllKeeps(vs, reward);
  }

  lemma EndEpochKeeps(l: Ledger, reward: u128)
    requires LedgerInv(l) && Total(l) + reward <= U128_MAX
    requires RatesFit(l.validators) && Sum(ActiveStakes(l.validators)) <= U128_MAX
    ensures var (l', payout) := EndEpoch(l, reward);
      LedgerInv(l') && Total(l') + Sum(payout) == Total(l) + Distributed(l.validators, reward)
  {
    var vs' := AfterRewards(l.validators, reward);
    var (q', payout) := PopMatured(l.queue, l.epoch + 1, map[]);
    var l' := l.(epoch := l.epoch + 1, validators := vs', queue := q');
    assert EndEpoch(l, reward) == (l', payout);
    AfterRewardsTotal(l.validators, reward);
    PopPays(l.queue, l.epoch + 1, map[]);
    RewardsKeepShares(l, reward);
    PoppedKeepsQueue(l);
  }

  lemma RewardsKeepShares(l: Ledger, reward: u128)
    requires SharesMatch(l) && RatesInv(l) && Sum(Stakes(l.validators)) + Sum(Pools(l.validators)) + reward <= U128_MAX
    requires RatesFit(l.validators) && Sum(ActiveStakes(l.validators)) <= U128_MAX
    ensures var l' := l.(validators := AfterRewards(l.validators, reward)); SharesMatch(l') && RatesInv(l')
  {
    var vs' := AfterRewards(l.validators, reward);
    HoldingsSum(l.validators);
    forall a | a in l.validators
      ensures vs'[a].totalShares == l.validators[a].totalShares && vs'[a].commissionBps == l.validators[a].commissionBps
      ensures vs'[a].totalStake == 0 <==> l.validators[a].totalStake == 0
    {
      RewardAllShape(l.validators, reward, a);
    }
  }

  lemma PoppedKeepsQueue(l: Ledger)
    requires QueueInv(l)
    ensures var n := MaturedCount(l.queue, l.epoch + 1); QueueInv(l.(epoch := l.epoch + 1, queue := l.queue[n..]))
  {
    var rest := l.queue[MaturedCount(l.queue, l.epoch + 1)..];
    RestOfQueue(l.queue, MaturedCount(l.queue, l.epoch + 1));
    assert forall e :: e in rest ==> e in l.queue;
  }

  lemma RestOfQueue(q: seq<Unbonding>, n: nat)
    requires n <= |q|
    ensures forall e :: e in q[n..] ==> e in q
    ensures QueueOrdered(q) ==> QueueOrdered(q[n..])
  {
    forall e | e in q[n..] ensures e in q {
      var i :| 0 <= i < |q[n..]| && q[n..][i] == e;
      assert q[n + i] == e;
    }
  }

  lemma ActiveWithinStakes(vs: map<Address, Validator>)
    ensures Sum(ActiveStakes(vs)) <= Sum(Stakes(vs))
  {
    SumMonotone(ActiveStakes(vs), Stakes(vs));
  }

  // ───────────── every run ─────────────

  /** If the operation succeeds it keeps the invariant, balances its flow and adds no more than came in. */
  ghost predicate OpGood(l: Ledger, op: Op) {
    Effect(l, op).Some? ==>
      && LedgerInv(Effect(l, op).value.0) && Balanced(l, Effect(l, op).value)
      && Total(Effect(l, op).value.0) <= Total(l) + Incoming(op)
  }

  lemma PositionOpKeeps(l: Ledger, op: Op)
    requires LedgerInv(l) && (op.OpStake? || op.OpUnstake? || op.OpRedelegate?)
    ensures OpGood(l, op)
  {
    if Effect(l, op).Some? {
      match op
      case OpStake(d, v, amount) => StakeKeeps(l, d, v, amount);
      case OpUnstake(d, v, shares) => UnstakeKeeps(l, d, v, shares);
      case OpRedelegate(d, f, t, shares) => RedelegateKeeps(l, d, f, t, shares);
    }
  }

  lemma ValidatorOpKeeps(l: Ledger, op: Op)
    requires LedgerInv(l) && (op.OpCreate? || op.OpEdit? || op.OpClaim? || op.OpUnjail?)
    ensures OpGood(l, op)
  {
    if Effect(l, op).Some? {
      var l' := Effect(l, op).value.0;
      match op
      case OpCreate(s, a, bps, bond, min) => CreateKeeps(l, s, a, bps, bond, min);
      case OpEdit(s, v, bps) => if bps.Some? { RelabelKeeps(l, v, l'.validators[v]); }
      case OpClaim(s, v) => RelabelKeeps(l, v, l'.validators[v]);
      case OpUnjail(s, v) => RelabelKeeps(l, v, l'.validators[v]);
    }
  }

  lemma SlashOpKeeps(l: Ledger, op: Op)
    requires LedgerInv(l) && Total(l) <= U128_MAX
    requires op.OpSlashDoubleSign? || op.OpSlashDowntime? || op.OpSlashEvidence?
    ensures OpGood(l, op)
  {
    if Effect(l, op).Some? {
      match op
      case OpSlashDoubleSign(v) => SlashKeeps(l, v, SLASH_DOUBLE_SIGN_BPS, JAIL_EPOCHS_DOUBLE_SIGN);
      case OpSlashDowntime(v) => SlashKeeps(l, v, SLASH_DOWNTIME_BPS, JAIL_EPOCHS_DOWNTIME);
      case OpSlashEvidence(v, h, r) =>
        var slot := EvidenceSlot(v, h, r);
        if slot !in l.evidence {
          SlashKeeps(l.(evidence := l.evidence + {slot}), v, SLASH_DOUBLE_SIGN_BPS, JAIL_EPOCHS_DOUBLE_SIGN);
        }
    }
  }

  lemma EpochOpKeeps(l: Ledger, reward: u128)
    requires LedgerInv(l) && Total(l) + reward <= U128_MAX
    ensures OpGood(l, OpEndEpoch(reward))
  {
    ActiveWithinStakes(l.validators);
    if RatesFit(l.validators) {
      EndEpochKeeps(l, reward);
      DistributedBound(l.validators, reward);
      var (l', payout) := EndEpoch(l, reward);
      EpochEffect(l, reward, l', payout);
    }
    assert Incoming(OpEndEpoch(reward)) == reward;
  }

  lemma EpochEffect(l: Ledger, reward: u128, l': Ledger, payout: Payout)
    requires RatesFit(l.validators) && Sum(ActiveStakes(l.validators)) <= U128_MAX
    requires EndEpoch(l, reward) == (l', payout)
    ensures Effect(l, OpEndEpoch(reward)) == Some((l', Flow(0, Distributed(l.validators, reward), Sum(payout))))
  {
  }

  /** Every operation keeps the ledger invariant and balances its flow. */
  lemma OpKeeps(l: Ledger, op: Op)
    requires LedgerInv(l) && Total(l) + Incoming(op) <= U128_MAX
    ensures OpGood(l, op)
  {
    if op.OpStake? || op.OpUnstake? || op.OpRedelegate? {
      PositionOpKeeps(l, op);
    } else if op.OpCreate? || op.OpEdit? || op.OpClaim? || op.OpUnjail? {
      ValidatorOpKeeps(l, op);
    } else if op.OpEndEpoch? {
      EpochOpKeeps(l, op.reward);
    } else {
      SlashOpKeeps(l, op);
    }
  }

  /** One operation as a caller performs it: one that fails is reverted whole. */
  ghost function Perform(l: Ledger, op: Op): (Ledger, Flow) {
    if Effect(l, op).Some? then Effect(l, op).value else (l, Flow(0, 0, 0))
  }

  /** A run of operations, with the flows added up. */
  ghost function RunOps(l: Ledger, ops: seq<Op>): (Ledger, Flow)
    decreases ops
  {
    if ops == [] then (l, Flow(0, 0, 0))
    else
      var (next, f) := Perform(l, ops[0]);
      var (last, g) := RunOps(next, ops[1..]);
      (last, AddFlow(f, g))
  }

  /** What the ledger answers for and what the next operation brings always fit its integers together. */
  ghost predicate RoomFor(l: Ledger, ops: seq<Op>)
    decreases ops
  {
    ops == [] || (Total(l) + Incoming(ops[0]) <= U128_MAX && RoomFor(Perform(l, ops[0]).0, ops[1..]))
  }

  function AddFlow(f: Flow, g: Flow): Flow {
    Flow(f.deposited + g.deposited, f.rewarded + g.rewarded, f.paid + g.paid)
  }

  lemma PerformKeeps(l: Ledger, op: Op)
    requires LedgerInv(l) && Total(l) + Incoming(op) <= U128_MAX
    ensures LedgerInv(Perform(l, op).0) && Balanced(l, Perform(l, op))
  {
    OpKeeps(l, op);
  }

  lemma {:induction false} RunKeeps(l: Ledger, ops: seq<Op>)
    requires LedgerInv(l) && RoomFor(l, ops)
    ensures LedgerInv(RunOps(l, ops).0) && Balanced(l, RunOps(l, ops))
    decreases ops
  {
    if ops != [] {
      PerformKeeps(l, ops[0]);
      RunKeeps(Perform(l, ops[0]).0, ops[1..]);
    }
  }

  /**
   From an empty ledger, over any run of operations, failed ones reverted, that never brings in more
   than its integers hold: deposits plus rewards distributed equal stake, commission, unbonding,
   slashed and paid amounts, and the invariant holds.
   */
  lemma StakeIsConserved(start: Ledger, ops: seq<Op>)
    requires start.validators == map[] && start.delegations == map[] && start.queue == [] && start.totalSlashed == 0
    requires RoomFor(start, ops)
    ensures var (l, f) := RunOps(start, ops);
      && LedgerInv(l)
      && f.deposited + f.rewarded
         == Sum(Stakes(l.validators)) + Sum(Pools(l.validators)) + SumQueue(l.queue) + l.totalSlashed + f.paid
  {
    EmptyIsSound(start);
    RunKeeps(start, ops);
  }

  lemma EmptyIsSound(l: Ledger)
    requires l.validators == map[] && l.delegations == map[] && l.queue == [] && l.totalSlashed == 0
    ensures LedgerInv(l) && Total(l) == 0
  {
    assert Stakes(l.validators) == map[] && Pools(l.validators) == map[];
  }

  lemma PerformKeepsEvidence(l: Ledger, op: Op)
    ensures l.evidence <= Perform(l, op).0.evidence
  {
    match op {
      case OpCreate(_, _, _, _, _) =>
      case OpEdit(_, _, _) =>
      case OpStake(_, _, _) =>
      case OpUnstake(_, _, _) =>
      case OpRedelegate(_, _, _, _) =>
      case OpClaim(_, _) =>
      case OpSlashDoubleSign(_) =>
      case OpSlashDowntime(_) =>
      case OpSlashEvidence(_, _, _) =>
      case OpUnjail(_, _) =>
      case OpEndEpoch(_) =>
    }
  }

  lemma {:induction false} RunKeepsEvidence(l: Ledger, ops: seq<Op>)
    ensures l.evidence <= RunOps(l, ops).0.evidence
    decreases ops
  {
    if ops != [] {
      PerformKeepsEvidence(l, ops[0]);
      RunKeepsEvidence(Perform(l, ops[0]).0, ops[1..]);
    }
  }

  /** Evidence for a slot burns once: applied again after any run of operations it changes nothing and returns 0. */
  lemma EvidenceBurnsOnce(l: Ledger, v: Address, h: u64, r: u32, ops: seq<Op>)
    requires SlashForEvidence(l, v, h, r).1.Ok?
    ensures var later := RunOps(SlashForEvidence(l, v, h, r).0, ops).0;
      SlashForEvidence(later, v, h, r) == (later, Ok(0))
  {
    RunKeepsEvidence(SlashForEvidence(l, v, h, r).0, ops);
  }

  /** The destination takes the amount into its stake, even if the shares for it then overflow. */
  predicate StakeArrives(l: Ledger, to: Address, amount: u128) {
    to in l.validators && !l.validators[to].jailed && l.validators[to].totalStake + amount <= U128_MAX
  }

  /**
   A redelegation whose deposit fails keeps the withdrawal: the shares at the source are gone and none
   are gained. The withdrawn amount is then in neither place, unless the destination's stake took it
   before its share count overflowed; so the total is kept exactly then, or when nothing was withdrawn.
   */
  lemma FailedRedelegateLosesStake(l: Ledger, d: Address, from: Address, to: Address, shares: u128)
    requires LedgerInv(l) && from != to && Withdraw(l, d, from, shares).1.Ok?
    requires Redelegate(l, d, from, to, shares).1.Err?
    ensures var l' := Redelegate(l, d, from, to, shares).0;
      var taken := Withdraw(l, d, from, shares).1.value;
      && LedgerInv(l')
      && Held(l', d, from) == Held(l, d, from) - shares && Held(l', d, to) == Held(l, d, to)
      && Total(l') + (if StakeArrives(l, to, taken) then 0 else taken) == Total(l)
      && (Total(l') == Total(l) <==> taken == 0 || StakeArrives(l, to, taken))
  {
    var (l1, taken) := Withdraw(l, d, from, shares);
    WithdrawKeepsOthers(l, d, from, to, shares);
    WithdrawShares(l, d, from, shares);
    WithdrawTotal(l, d, from, shares);
    FailedDeposit(l1, d, to, taken.value);
  }

  lemma WithdrawKeepsOthers(l: Ledger, d: Address, from: Address, to: Address, shares: u128)
    requires from != to && Withdraw(l, d, from, shares).1.Ok?
    ensures var l1 := Withdraw(l, d, from, shares).0;
      && (to in l1.validators <==> to in l.validators) && (to in l.validators ==> l1.validators[to] == l.validators[to])
      && Held(l1, d, from) == Held(l, d, from) - shares && Held(l1, d, to) == Held(l, d, to)
  {
  }

  /** A failed deposit either changes nothing or, when the shares overflow, adds the amount to the stake alone. */
  lemma FailedDepositShape(l: Ledger, d: Address, to: Address, amount: u128)
    requires SharesMatch(l) && Deposit(l, d, to, amount).1.Err?
    ensures StakeArrives(l, to, amount) ==>
      && l.validators[to].totalShares > 0
      && Deposit(l, d, to, amount).0 == l.(validators := l.validators[to := Heavier(l.validators[to], amount)])
    ensures !StakeArrives(l, to, amount) ==> Deposit(l, d, to, amount).0 == l
  {
    if StakeArrives(l, to, amount) {
      HeldAtMostShares(l, d, to);
    }
  }

  function Heavier(v: Validator, amount: u128): Validator
    requires v.totalStake + amount <= U128_MAX
  {
    v.(totalStake := v.totalStake + amount)
  }

  lemma HeavierKeeps(l: Ledger, to: Address, amount: u128)
    requires LedgerInv(l) && StakeArrives(l, to, amount) && l.validators[to].totalShares > 0
    ensures LedgerInv(l.(validators := l.validators[to := Heavier(l.validators[to], amount)]))
  {
  }

  lemma HeavierTotal(l: Ledger, to: Address, amount: u128)
    requires StakeArrives(l, to, amount)
    ensures Total(l.(validators := l.validators[to := Heavier(l.validators[to], amount)])) == Total(l) + amount
  {
    ReplaceValidator(l.validators, to, Heavier(l.validators[to], amount));
  }

  lemma FailedDeposit(l: Ledger, d: Address, to: Address, amount: u128)
    requires LedgerInv(l) && Deposit(l, d, to, amount).1.Err?
    ensures var l' := Deposit(l, d, to, amount).0;
      && LedgerInv(l') && l'.delegations == l.delegations
      && Total(l') == Total(l) + if StakeArrives(l, to, amount) then amount else 0
  {
    FailedDepositShape(l, d, to, amount);
    if StakeArrives(l, to, amount) {
      HeavierKeeps(l, to, amount);
      HeavierTotal(l, to, amount);
    }
  }
}
