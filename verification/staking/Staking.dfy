/**
 Share-based staking: validators, delegations, slashing, the unbonding queue and epoch rewards.

 `Ledger` and the functions on it are the specification, including what an operation that reports
 an error has already changed; the class `StakingModule` updates its fields in place.
 */
module Staking {
  import opened Common
  import opened Arith
  import opened Sums

  type Address = nat

  const UNBONDING_EPOCHS: nat := 7
  const ZBX: nat := 1_000_000_000_000_000_000
  const MIN_DELEGATION_WEI: nat := 10 * ZBX
  const COMMISSION_BPS_DEN: nat := 10_000
  const MAX_COMMISSION_BPS: nat := 5_000
  const MAX_COMMISSION_BPS_DELTA: nat := 100
  const SLASH_DOUBLE_SIGN_BPS: nat := 500
  const SLASH_DOWNTIME_BPS: nat := 10
  const JAIL_EPOCHS_DOUBLE_SIGN: nat := 10_000
  const JAIL_EPOCHS_DOWNTIME: nat := 1
  const SHARE_PRECISION: nat := ZBX

  datatype StakingError =
    | ValidatorNotFound | ValidatorExists | AmountTooSmall | SelfBondTooSmall | CommissionOutOfRange
    | CommissionChangeTooLarge | Jailed | InsufficientShares | SelfRedelegate | Overflow

  datatype Validator = Validator(
    operator: Address,
    totalStake: u128,
    totalShares: u128,
    commissionBps: nat,
    commissionPool: u128,
    jailed: bool,
    jailedUntil: nat,
    lastCommissionEdit: nat
  )

  datatype Position = Position(delegator: Address, validator: Address)

  datatype Unbonding = Unbonding(delegator: Address, validator: Address, amount: u128, matureAt: nat)

  datatype EvidenceSlot = EvidenceSlot(offender: Address, height: u64, round: u32)

  type Payout = map<Address, u128>

  datatype Ledger = Ledger(
    epoch: nat,
    validators: map<Address, Validator>,
    delegations: map<Position, u128>,
    queue: seq<Unbonding>,
    totalSlashed: u128,
    evidence: set<EvidenceSlot>
  )

  const EmptyLedger: Ledger := Ledger(0, map[], map[], [], 0, {})

  // ───────────── shares ─────────────

  /** Saturating `a * b / c`, and 0 when `c` is 0. */
  function MulDiv(a: u128, b: u128, c: u128): u128 {
    if c == 0 then 0 else Min(MulFloor(a, b, c), U128_MAX)
  }

  function SharesToAmount(v: Validator, shares: u128): u128 {
    if v.totalShares == 0 then 0 else MulDiv(shares, v.totalStake, v.totalShares)
  }

  function AmountToShares(v: Validator, amount: u128): u128 {
    if v.totalShares == 0 || v.totalStake == 0 then Min(amount * SHARE_PRECISION, U128_MAX) / SHARE_PRECISION
    else MulDiv(amount, v.totalShares, v.totalStake)
  }

  function Held(l: Ledger, d: Address, v: Address): u128 {
    if Position(d, v) in l.delegations then l.delegations[Position(d, v)] else 0
  }

  function DelegationValue(l: Ledger, d: Address, v: Address): u128 {
    if v in l.validators then SharesToAmount(l.validators[v], Held(l, d, v)) else 0
  }

  // ───────────── operations ─────────────

  function CreateValidator(l: Ledger, signer: Address, address: Address, bps: nat, selfBond: u128,
                           minBond: u128): (Ledger, Result<(), StakingError>) {
    if bps > MAX_COMMISSION_BPS then (l, Err(CommissionOutOfRange))
    else if selfBond < minBond then (l, Err(SelfBondTooSmall))
    else if address in l.validators then (l, Err(ValidatorExists))
    else
      var blank := Validator(signer, 0, 0, bps, 0, false, 0, l.epoch);
      var shares := AmountToShares(blank, selfBond);
      (l.(validators := l.validators[address := blank.(totalStake := selfBond, totalShares := shares)],
          delegations := l.delegations[Position(signer, address) := shares]), Ok(()))
  }

  function EditValidator(l: Ledger, signer: Address, validator: Address, newBps: Option<nat>): (Ledger,
                         Result<(), StakingError>) {
    if validator !in l.validators || l.validators[validator].operator != signer then (l, Err(ValidatorNotFound))
    else if newBps.None? then (l, Ok(()))
    else
      var v, bps := l.validators[validator], newBps.value;
      if bps > MAX_COMMISSION_BPS then (l, Err(CommissionOutOfRange))
      else if Max(bps, v.commissionBps) - Min(bps, v.commissionBps) > MAX_COMMISSION_BPS_DELTA then
        (l, Err(CommissionChangeTooLarge))
      else
        (l.(validators := l.validators[validator := v.(commissionBps := bps, lastCommissionEdit := l.epoch)]), Ok(()))
  }

  /** The checked additions happen one by one, so an overflow leaves the earlier ones in place. */
  function Deposit(l: Ledger, d: Address, validator: Address, amount: u128): (Ledger, Result<u128, StakingError>) {
    if validator !in l.validators then (l, Err(ValidatorNotFound))
    else
      var v := l.validators[validator];
      if v.jailed then (l, Err(Jailed))
      else
        var shares := AmountToShares(v, amount);
        if v.totalStake + amount > U128_MAX then (l, Err(Overflow))
        else
          var v1 := v.(totalStake := v.totalStake + amount);
          if v.totalShares + shares > U128_MAX then (l.(validators := l.validators[validator := v1]), Err(Overflow))
          else
            var v2 := v1.(totalShares := v.totalShares + shares);
            var l2 := l.(validators := l.validators[validator := v2]);
            var held := Held(l, d, validator);
            if held + shares > U128_MAX then
              (l2.(delegations := l.delegations[Position(d, validator) := held]), Err(Overflow))
            else (l2.(delegations := l.delegations[Position(d, validator) := held + shares]), Ok(shares))
  }

  function Stake(l: Ledger, d: Address, validator: Address, amount: u128): (Ledger, Result<u128, StakingError>) {
    if amount < MIN_DELEGATION_WEI then (l, Err(AmountTooSmall)) else Deposit(l, d, validator, amount)
  }

  /** Take shares out of a position; their current value is what leaves. */
  function Withdraw(l: Ledger, d: Address, validator: Address, shares: u128): (Ledger, Result<u128, StakingError>) {
    if validator !in l.validators then (l, Err(ValidatorNotFound))
    else
      var v, held := l.validators[validator], Held(l, d, validator);
      if held < shares || shares == 0 then (l, Err(InsufficientShares))
      else
        var amount := SharesToAmount(v, shares);
        var v' := v.(totalStake := SatSub(v.totalStake, amount), totalShares := SatSub(v.totalShares, shares));
        (l.(validators := l.validators[validator := v'],
            delegations := if held == shares then l.delegations - {Position(d, validator)}
                           else l.delegations[Position(d, validator) := held - shares]), Ok(amount))
  }

  function Unstake(l: Ledger, d: Address, validator: Address, shares: u128): (Ledger, Result<u128, StakingError>) {
    var (l1, r) := Withdraw(l, d, validator, shares);
    if r.Err? then (l1, r)
    else (l1.(queue := l.queue + [Unbonding(d, validator, r.value, l.epoch + UNBONDING_EPOCHS)]), r)
  }

  function Redelegate(l: Ledger, d: Address, from: Address, to: Address, shares: u128): (Ledger,
                      Result<u128, StakingError>) {
    if from == to then (l, Err(SelfRedelegate))
    else
      var (l1, r) := Withdraw(l, d, from, shares);
      if r.Err? then (l1, r)
      else
        var (l2, r2) := Deposit(l1, d, to, r.value);
        (l2, if r2.Err? then r2 else r)
  }

  function ClaimRewards(l: Ledger, signer: Address, validator: Address): (Ledger, Result<u128, StakingError>) {
    if validator !in l.validators || l.validators[validator].operator != signer then (l, Err(ValidatorNotFound))
    else (l.(validators := l.validators[validator := l.validators[validator].(commissionPool := 0)]),
          Ok(l.validators[validator].commissionPool))
  }

  function Unjail(l: Ledger, signer: Address, validator: Address): (Ledger, Result<(), StakingError>) {
    if validator !in l.validators || l.validators[validator].operator != signer then (l, Err(ValidatorNotFound))
    else if l.epoch < l.validators[validator].jailedUntil then (l, Err(Jailed))
    else (l.(validators := l.validators[validator := l.validators[validator].(jailed := false)]), Ok(()))
  }

  // ───────────── slashing ─────────────

  function CutOf(u: Unbonding, validator: Address, bps: nat): u128
    requires bps <= COMMISSION_BPS_DEN
  {
    if u.validator == validator then MulDiv(u.amount, bps, COMMISSION_BPS_DEN) else 0
  }

  function SlashEntry(u: Unbonding, validator: Address, bps: nat): Unbonding
    requires bps <= COMMISSION_BPS_DEN
  {
    u.(amount := SatSub(u.amount, CutOf(u, validator, bps)))
  }

  function SlashQueue(q: seq<Unbonding>, validator: Address, bps: nat): seq<Unbonding>
    requires bps <= COMMISSION_BPS_DEN
  {
    seq(|q|, i requires 0 <= i < |q| => SlashEntry(q[i], validator, bps))
  }

  function SumCuts(q: seq<Unbonding>, validator: Address, bps: nat): nat
    requires bps <= COMMISSION_BPS_DEN
  {
    if q == [] then 0 else SumCuts(q[..|q|-1], validator, bps) + CutOf(q[|q|-1], validator, bps)
  }

  function Slash(l: Ledger, validator: Address, bps: nat, jailEpochs: nat): (Ledger, Result<u128, StakingError>)
    requires bps <= COMMISSION_BPS_DEN
  {
    if validator !in l.validators then (l, Err(ValidatorNotFound))
    else
      var v := l.validators[validator];
      var bonded := MulDiv(v.totalStake, bps, COMMISSION_BPS_DEN);
      var total := SatAdd128(bonded, Min(SumCuts(l.queue, validator, bps), U128_MAX));
      var v' := v.(totalStake := SatSub(v.totalStake, bonded), jailed := true, jailedUntil := l.epoch + jailEpochs);
      (l.(validators := l.validators[validator := v'],
          queue := SlashQueue(l.queue, validator, bps),
          totalSlashed := SatAdd128(l.totalSlashed, total)), Ok(total))
  }

  function SlashForEvidence(l: Ledger, offender: Address, height: u64, round: u32): (Ledger,
                            Result<u128, StakingError>) {
    var slot := EvidenceSlot(offender, height, round);
    if slot in l.evidence then (l, Ok(0))
    else Slash(l.(evidence := l.evidence + {slot}), offender, SLASH_DOUBLE_SIGN_BPS, JAIL_EPOCHS_DOUBLE_SIGN)
  }

  // ───────────── epochs ─────────────

  ghost function ActiveStakes(vs: map<Address, Validator>): map<Address, nat> {
    map a | a in vs && !vs[a].jailed :: vs[a].totalStake
  }

  function RewardShare(v: Validator, reward: u128, active: u128): u128 {
    if v.jailed then 0 else MulDiv(reward, v.totalStake, active)
  }

  function CommissionOn(v: Validator, share: u128): u128
    requires v.commissionBps <= U128_MAX
  {
    MulDiv(share, v.commissionBps, COMMISSION_BPS_DEN)
  }

  function Rewarded(v: Validator, reward: u128, active: u128): Validator
    requires v.commissionBps <= U128_MAX
  {
    var share := RewardShare(v, reward, active);
    if share == 0 then v
    else
      var commission := CommissionOn(v, share);
      v.(commissionPool := SatAdd128(v.commissionPool, commission),
         totalStake := SatAdd128(v.totalStake, SatSub(share, commission)))
  }

  /** Pay the entries at the front of the queue that have matured. */
  function PopMatured(q: seq<Unbonding>, epoch: nat, payout: Payout): (seq<Unbonding>, Payout)
    decreases q
  {
    if q == [] || q[0].matureAt > epoch then (q, payout)
    else
      var paid: u128 := if q[0].delegator in payout then payout[q[0].delegator] else 0;
      PopMatured(q[1..], epoch, payout[q[0].delegator := SatAdd128(paid, q[0].amount)])
  }

  predicate RatesFit(vs: map<Address, Validator>) {
    forall a :: a in vs ==> vs[a].commissionBps <= U128_MAX
  }

  function RewardAll(vs: map<Address, Validator>, reward: u128, active: u128): map<Address, Validator>
    requires RatesFit(vs)
  {
    map a | a in vs :: Rewarded(vs[a], reward, active)
  }

  ghost function EndEpoch(l: Ledger, reward: u128): (Ledger, Payout)
    requires RatesFit(l.validators) && Sum(ActiveStakes(l.validators)) <= U128_MAX
  {
    var active := Sum(ActiveStakes(l.validators));
    var vs := if active > 0 && reward > 0 then RewardAll(l.validators, reward, active) else l.validators;
    var (q, payout) := PopMatured(l.queue, l.epoch + 1, map[]);
    (l.(epoch := l.epoch + 1, validators := vs, queue := q), payout)
  }

  // ───────────── the imperative module ─────────────

  class StakingModule {
    var epoch: nat
    var validators: map<Address, Validator>
    var delegations: map<Position, u128>
    var queue: seq<Unbonding>
    var totalSlashed: u128
    var evidence: set<EvidenceSlot>

    function View(): Ledger
      reads this
    {
      Ledger(epoch, validators, delegations, queue, totalSlashed, evidence)
    }

    constructor ()
      ensures View() == EmptyLedger
    {
      epoch, validators, delegations, queue, totalSlashed, evidence := 0, map[], map[], [], 0, {};
    }

    method Create(signer: Address, address: Address, bps: nat, selfBond: u128, minBond: u128)
      returns (r: Result<(), StakingError>)
      modifies this
      ensures (View(), r) == CreateValidator(old(View()), signer, address, bps, selfBond, minBond)
    {
      if bps > MAX_COMMISSION_BPS {
        return Err(CommissionOutOfRange);
      }
      if selfBond < minBond {
        return Err(SelfBondTooSmall);
      }
      if address in validators {
        return Err(ValidatorExists);
      }
      var v := Validator(signer, 0, 0, bps, 0, false, 0, epoch);
      var shares := AmountToShares(v, selfBond);
      v := v.(totalStake := selfBond);
      v := v.(totalShares := shares);
      validators := validators[address := v];
      delegations := delegations[Position(signer, address) := shares];
      r := Ok(());
    }

    method Edit(signer: Address, validator: Address, newBps: Option<nat>) returns (r: Result<(), StakingError>)
      modifies this`validators
      ensures (View(), r) == EditValidator(old(View()), signer, validator, newBps)
    {
      if validator !in validators {
        return Err(ValidatorNotFound);
      }
      var v := validators[validator];
      if v.operator != signer {
        return Err(ValidatorNotFound);
      }
      if newBps.Some? {
        var bps := newBps.value;
        if bps > MAX_COMMISSION_BPS {
          return Err(CommissionOutOfRange);
        }
        var delta := if bps > v.commissionBps then bps - v.commissionBps else v.commissionBps - bps;
        if delta > MAX_COMMISSION_BPS_DELTA {
          return Err(CommissionChangeTooLarge);
        }
        validators := validators[validator := v.(commissionBps := bps, lastCommissionEdit := epoch)];
      }
      r := Ok(());
    }

    method StakeOn(d: Address, validator: Address, amount: u128) returns (r: Result<u128, StakingError>)
      modifies this`validators, this`delegations
      ensures (View(), r) == Stake(old(View()), d, validator, amount)
    {
      if amount < MIN_DELEGATION_WEI {
        return Err(AmountTooSmall);
      }
      r := DepositUnchecked(d, validator, amount);
    }

    method DepositUnchecked(d: Address, validator: Address, amount: u128) returns (r: Result<u128, StakingError>)
      modifies this`validators, this`delegations
      ensures (View(), r) == Deposit(old(View()), d, validator, amount)
    {
      if validator !in validators {
        return Err(ValidatorNotFound);
      }
      var v := validators[validator];
      if v.jailed {
        return Err(Jailed);
      }
      var shares := AmountToShares(v, amount);
      if v.totalStake + amount > U128_MAX {
        return Err(Overflow);
      }
      validators := validators[validator := v.(totalStake := v.totalStake + amount)];
      if v.totalShares + shares > U128_MAX {
        return Err(Overflow);
      }
      validators := validators[validator := validators[validator].(totalShares := v.totalShares + shares)];
      assert validators == old(validators)[validator := validators[validator]];
      var key := Position(d, validator);
      if key !in delegations {
        delegations := delegations[key := 0];
      }
      if delegations[key] + shares > U128_MAX {
        assert delegations == old(delegations)[key := delegations[key]];
        return Err(Overflow);
      }
      delegations := delegations[key := delegations[key] + shares];
      assert delegations == old(delegations)[key := delegations[key]];
      r := Ok(shares);
    }

    method UnstakeFrom(d: Address, validator: Address, shares: u128) returns (r: Result<u128, StakingError>)
      modifies this`validators, this`delegations, this`queue
      ensures (View(), r) == Unstake(old(View()), d, validator, shares)
    {
      if validator !in validators {
        return Err(ValidatorNotFound);
      }
      var v := validators[validator];
      var key := Position(d, validator);
      var held: u128 := if key in delegations then delegations[key] else 0;
      if held < shares || shares == 0 {
        return Err(InsufficientShares);
      }
      var amount := SharesToAmount(v, shares);
      v := v.(totalStake := SatSub(v.totalStake, amount), totalShares := SatSub(v.totalShares, shares));
      validators := validators[validator := v];
      var remaining := held - shares;
      if remaining == 0 {
        delegations := delegations - {key};
      } else {
        delegations := delegations[key := remaining];
      }
      queue := queue + [Unbonding(d, validator, amount, epoch + UNBONDING_EPOCHS)];
      r := Ok(amount);
    }

    method RedelegateTo(d: Address, from: Address, to: Address, shares: u128) returns (r: Result<u128, StakingError>)
      modifies this`validators, this`delegations
      ensures (View(), r) == Redelegate(old(View()), d, from, to, shares)
    {
      if from == to {
        return Err(SelfRedelegate);
      }
      if from !in validators {
        return Err(ValidatorNotFound);
      }
      var v := validators[from];
      var key := Position(d, from);
      var held: u128 := if key in delegations then delegations[key] else 0;
      if held < shares || shares == 0 {
        return Err(InsufficientShares);
      }
      var amount := SharesToAmount(v, shares);
      v := v.(totalStake := SatSub(v.totalStake, amount), totalShares := SatSub(v.totalShares, shares));
      validators := validators[from := v];
      var remaining := held - shares;
      if remaining == 0 {
        delegations := delegations - {key};
      } else {
        delegations := delegations[key := remaining];
      }
      var minted := DepositUnchecked(d, to, amount);
      if minted.Err? {
        return minted;
      }
      r := Ok(amount);
    }

    method Claim(signer: Address, validator: Address) returns (r: Result<u128, StakingError>)
      modifies this`validators
      ensures (View(), r) == ClaimRewards(old(View()), signer, validator)
    {
      if validator !in validators {
        return Err(ValidatorNotFound);
      }
      var v := validators[validator];
      if v.operator != signer {
        return Err(ValidatorNotFound);
      }
      var amount := v.commissionPool;
      validators := validators[validator := v.(commissionPool := 0)];
      r := Ok(amount);
    }

    method SlashValidator(validator: Address, bps: nat, jailEpochs: nat) returns (r: Result<u128, StakingError>)
      requires bps <= COMMISSION_BPS_DEN
      modifies this`validators, this`queue, this`totalSlashed
      ensures (View(), r) == Slash(old(View()), validator, bps, jailEpochs)
    {
      if validator !in validators {
        return Err(ValidatorNotFound);
      }
      var v := validators[validator];
      var bonded := MulDiv(v.totalStake, bps, COMMISSION_BPS_DEN);
      v := v.(totalStake := SatSub(v.totalStake, bonded));
      var unbonding := SlashUnbonding(validator, bps);
      v := v.(jailed := true, jailedUntil := epoch + jailEpochs);
      validators := validators[validator := v];
      var total := SatAdd128(bonded, unbonding);
      totalSlashed := SatAdd128(totalSlashed, total);
      r := Ok(total);
    }

    /** Cuts every queued entry of the validator, in place. */
    method SlashUnbonding(validator: Address, bps: nat) returns (unbonding: u128)
      requires bps <= COMMISSION_BPS_DEN
      modifies this`queue
      ensures queue == SlashQueue(old(queue), validator, bps)
      ensures unbonding == Min(SumCuts(old(queue), validator, bps), U128_MAX)
    {
      unbonding := 0;
      ghost var q0 := queue;
      for i := 0 to |queue|
        invariant |queue| == |q0|
        invariant forall j :: 0 <= j < i ==> queue[j] == SlashEntry(q0[j], validator, bps)
        invariant forall j :: i <= j < |q0| ==> queue[j] == q0[j]
        invariant unbonding == Min(SumCuts(q0[..i], validator, bps), U128_MAX)
      {
        var u := queue[i];
        assert q0[..i+1][..i] == q0[..i];
        if u.validator == validator {
          var cut := MulDiv(u.amount, bps, COMMISSION_BPS_DEN);
          queue := queue[i := u.(amount := SatSub(u.amount, cut))];
          unbonding := SatAdd128(unbonding, cut);
        }
      }
      assert q0[..|q0|] == q0;
      assert queue == SlashQueue(q0, validator, bps);
    }

    method SlashEvidence(offender: Address, height: u64, round: u32) returns (r: Result<u128, StakingError>)
      modifies this
      ensures (View(), r) == SlashForEvidence(old(View()), offender, height, round)
    {
      var slot := EvidenceSlot(offender, height, round);
      if slot in evidence {
        return Ok(0);
      }
      evidence := evidence + {slot};
      r := SlashValidator(offender, SLASH_DOUBLE_SIGN_BPS, JAIL_EPOCHS_DOUBLE_SIGN);
    }

    method UnjailValidator(signer: Address, validator: Address) returns (r: Result<(), StakingError>)
      modifies this`validators
      ensures (View(), r) == Unjail(old(View()), signer, validator)
    {
      if validator !in validators {
        return Err(ValidatorNotFound);
      }
      var v := validators[validator];
      if v.operator != signer {
        return Err(ValidatorNotFound);
      }
      if epoch < v.jailedUntil {
        return Err(Jailed);
      }
      validators := validators[validator := v.(jailed := false)];
      r := Ok(());
    }

    /** Sum the stake of the validators that are not jailed. */
    method ActiveTotal() returns (total: u128)
      requires Sum(ActiveStakes(validators)) <= U128_MAX
      ensures total == Sum(ActiveStakes(validators))
    {
      var rest := validators.Keys;
      total := 0;
      ghost var left := ActiveStakes(validators);
      while rest != {}
        invariant rest <= validators.Keys
        invariant left == map a | a in validators && a in rest && !validators[a].jailed :: validators[a].totalStake
        invariant total + Sum(left) == Sum(ActiveStakes(validators))
      {
        var a :| a in rest;
        var v := validators[a];
        if !v.jailed {
          SumRemove(left, a);
          total := total + v.totalStake;
        } else {
          assert left - {a} == left;
        }
        left := left - {a};
        rest := rest - {a};
      }
      assert left == map[];
    }

    /** Pay rewards into stake and commission pools, advance the epoch, pay matured unbondings. */
    method FinishEpoch(reward: u128) returns (payout: Payout)
      requires RatesFit(validators) && Sum(ActiveStakes(validators)) <= U128_MAX
      modifies this`epoch, this`validators, this`queue
      ensures (View(), payout) == EndEpoch(old(View()), reward)
    {
      var active := ActiveTotal();
      if active > 0 && reward > 0 {
        RewardValidators(reward, active);
      }
      epoch := epoch + 1;
      payout := PayMatured();
    }

    method RewardValidators(reward: u128, active: u128)
      requires RatesFit(validators)
      modifies this`validators
      ensures validators == RewardAll(old(validators), reward, active)
    {
      ghost var before := validators;
      var rest := validators.Keys;
      while rest != {}
        invariant rest <= before.Keys == validators.Keys
        invariant forall a :: a in rest ==> validators[a] == before[a]
        invariant forall a :: a in before && a !in rest ==> validators[a] == Rewarded(before[a], reward, active)
      {
        var a :| a in rest;
        rest := rest - {a};
        var v := validators[a];
        if v.jailed {
          continue;
        }
        var share := MulDiv(reward, v.totalStake, active);
        if share == 0 {
          continue;
        }
        var commission := MulDiv(share, v.commissionBps, COMMISSION_BPS_DEN);
        var toPool := SatSub(share, commission);
        v := v.(commissionPool := SatAdd128(v.commissionPool, commission));
        v := v.(totalStake := SatAdd128(v.totalStake, toPool));
        validators := validators[a := v];
      }
    }

    method PayMatured() returns (payout: Payout)
      modifies this`queue
      ensures (queue, payout) == PopMatured(old(queue), epoch, map[])
    {
      payout := map[];
      while queue != [] && queue[0].matureAt <= epoch
        invariant PopMatured(queue, epoch, payout) == PopMatured(old(queue), epoch, map[])
        decreases |queue|
      {
        var e := queue[0];
        queue := queue[1..];
        var slot: u128 := if e.delegator in payout then payout[e.delegator] else 0;
        payout := payout[e.delegator := SatAdd128(slot, e.amount)];
      }
    }
  }
}
