/** Reward buckets that drip with stake and release a quarter per bulk interval, settled lazily. */
module LockedRewards {
  import opened Common
  import opened Arith
  import opened Sums
  import opened Staking

  const DRIP_BPS_PER_DAY: nat := 50
  const BULK_INTERVAL_BLOCKS: nat := 5_000_000
  const BULK_RELEASE_BPS: nat := 2_500
  const BLOCKS_PER_DAY: nat := 17_280

  datatype Bucket = Bucket(balance: u128, lastDrip: u64, lastBulk: u64, totalReleased: u128, lifetime: u128)

  type Buckets = map<Address, Bucket>

  // ───────────── one bucket ─────────────

  function DripDue(stake: u128, elapsed: u64): u128 {
    MulDiv(MulDiv(stake, DRIP_BPS_PER_DAY, COMMISSION_BPS_DEN), elapsed, BLOCKS_PER_DAY)
  }

  function DripTake(b: Bucket, stake: u128, height: u64): (take: u128)
    ensures take <= b.balance
  {
    if stake > 0 && height > b.lastDrip then Min(DripDue(stake, height - b.lastDrip), b.balance) else 0
  }

  function BulkTake(balance: u128): (take: u128)
    ensures take <= balance
  {
    Min(MulDiv(balance, BULK_RELEASE_BPS, COMMISSION_BPS_DEN), balance)
  }

  /** What is left after a number of bulk releases. */
  function BulkLeft(balance: u128, intervals: nat): (left: u128)
    ensures left <= balance
    decreases intervals
  {
    if intervals == 0 then balance else BulkLeft(balance - BulkTake(balance), intervals - 1)
  }

  lemma {:induction false} NothingLeftStays(intervals: nat)
    ensures BulkLeft(0, intervals) == 0
  {
    if intervals > 0 { NothingLeftStays(intervals - 1); }
  }

  /** One more release on top of those made. */
  lemma {:induction false} BulkLeftStep(balance: u128, intervals: nat)
    ensures BulkLeft(balance, intervals + 1) == BulkLeft(balance, intervals) - BulkTake(BulkLeft(balance, intervals))
    decreases intervals
  {
    if intervals > 0 { BulkLeftStep(balance - BulkTake(balance), intervals - 1); }
  }

  function IntervalsDue(b: Bucket, height: u64): nat {
    if height >= b.lastBulk then (height - b.lastBulk) / BULK_INTERVAL_BLOCKS else 0
  }

  /** Balance left when everything due at the height is released. */
  function LeftAt(b: Bucket, stake: u128, height: u64): (left: u128)
    ensures left <= b.balance
  {
    BulkLeft(b.balance - DripTake(b, stake, height), IntervalsDue(b, height))
  }

  /** The bucket after settlement, and what was released. */
  function Settle(b: Bucket, stake: u128, height: u64): (Bucket, u128) {
    if b.balance == 0 then (b.(lastDrip := height, lastBulk := height), 0)
    else
      var dripped := b.balance - DripTake(b, stake, height);
      var left := LeftAt(b, stake, height);
      var anchor := if height >= b.lastBulk
                    then b.lastBulk + IntervalsDue(b, height) * BULK_INTERVAL_BLOCKS else b.lastBulk;
      var bulkAt := if dripped > 0 then anchor else height;
      (Bucket(left, height, bulkAt, SatAdd128(b.totalReleased, b.balance - left), b.lifetime), b.balance - left)
  }

  // ───────────── the book of buckets ─────────────

  ghost function OwnValues(l: Ledger, a: Address): map<Position, nat> {
    map p | p in l.delegations && p.delegator == a && p.validator in l.validators
      :: SharesToAmount(l.validators[p.validator], l.delegations[p])
  }

  /** What an address has staked on all validators, saturating. */
  ghost function StakeOf(l: Ledger, a: Address): u128 {
    Min(Sum(OwnValues(l, a)), U128_MAX)
  }

  function AddLocked(bs: Buckets, a: Address, amount: u128, height: u64): Buckets {
    if amount == 0 then bs
    else
      var b := if a in bs then bs[a] else Bucket(0, height, height, 0, 0);
      bs[a := b.(balance := SatAdd128(b.balance, amount), lifetime := SatAdd128(b.lifetime, amount))]
  }

  /** Settling an address; an emptied bucket of someone without stake is dropped. */
  function SettleUnlock(bs: Buckets, a: Address, stake: u128, height: u64): (Buckets, u128) {
    if a !in bs then (bs, 0)
    else
      var (b', released) := Settle(bs[a], stake, height);
      (if bs[a].balance > 0 && b'.balance == 0 && stake == 0 then bs - {a} else bs[a := b'], released)
  }

  /** Released now, the heights of the next drip and the next bulk release, and what is left. */
  datatype Forecast = Forecast(released: u128, nextDrip: nat, nextBulk: nat, left: u128)

  /** What a holder is shown, without changing anything. */
  function PreviewUnlock(bs: Buckets, a: Address, stake: u128, height: u64): Forecast {
    if a !in bs || bs[a].balance == 0 then Forecast(0, height, height, 0)
    else
      var left := LeftAt(bs[a], stake, height);
      Forecast(bs[a].balance - left, height + 1, NextBulk(bs[a], height), left)
  }

  function NextBulk(b: Bucket, height: u64): nat {
    b.lastBulk + SatSub(height, b.lastBulk) / BULK_INTERVAL_BLOCKS * BULK_INTERVAL_BLOCKS + BULK_INTERVAL_BLOCKS
  }

  class RewardsBook {
    const staking: StakingModule
    var locked: Buckets

    constructor (staking: StakingModule)
      ensures this.staking == staking && locked == map[]
    {
      this.staking := staking;
      locked := map[];
    }

    method TotalStakeOf(a: Address) returns (total: u128)
      ensures total == StakeOf(staking.View(), a)
    {
      ghost var l := staking.View();
      var rest := staking.delegations.Keys;
      total := 0;
      ghost var left := OwnValues(l, a);
      ghost var done := 0;
      while rest != {}
        invariant rest <= staking.delegations.Keys && l == staking.View()
        invariant left == map p | p in OwnValues(l, a) && p in rest :: OwnValues(l, a)[p]
        invariant done + Sum(left) == Sum(OwnValues(l, a)) && total == Min(done, U128_MAX)
      {
        var p :| p in rest;
        rest := rest - {p};
        if p.delegator == a && p.validator in staking.validators {
          var value := SharesToAmount(staking.validators[p.validator], staking.delegations[p]);
          SumRemove(left, p);
          total := SatAdd128(total, value);
          done := done + value;
          left := left - {p};
        }
      }
      assert left == map[];
    }

    method Lock(a: Address, amount: u128, height: u64)
      modifies this
      ensures locked == AddLocked(old(locked), a, amount, height)
    {
      if amount == 0 {
        return;
      }
      if a !in locked {
        locked := locked[a := Bucket(0, height, height, 0, 0)];
      }
      var b := locked[a];
      b := b.(balance := SatAdd128(b.balance, amount));
      b := b.(lifetime := SatAdd128(b.lifetime, amount));
      locked := locked[a := b];
      assert locked == old(locked)[a := b];
    }

    method Unlock(a: Address, height: u64) returns (released: u128)
      modifies this
      ensures (locked, released) == SettleUnlock(old(locked), a, StakeOf(staking.View(), a), height)
    {
      var stake := TotalStakeOf(a);
      if a !in locked {
        return 0;
      }
      var b := locked[a];
      if b.balance == 0 {
        locked := locked[a := b.(lastDrip := height, lastBulk := height)];
        return 0;
      }
      b, released := ReleaseDue(b, stake, height);
      locked := locked[a := b];
      if b.balance == 0 && stake == 0 {
        locked := locked - {a};
        assert locked == old(locked) - {a};
      }
    }

    /** Drip first, then the bulk releases due on what remains. */
    method ReleaseDue(bucket: Bucket, stake: u128, height: u64) returns (b: Bucket, released: u128)
      requires bucket.balance > 0
      ensures (b, released) == Settle(bucket, stake, height)
    {
      b := bucket;
      released := 0;
      if stake > 0 && height > b.lastDrip {
        var take := Min(DripDue(stake, height - b.lastDrip), b.balance);
        b := b.(balance := b.balance - take);
        released := SatAdd128(released, take);
      }
      b := b.(lastDrip := height);
      NothingLeftStays(IntervalsDue(bucket, height));
      if b.balance > 0 && height >= b.lastBulk {
        var intervals := (height - b.lastBulk) / BULK_INTERVAL_BLOCKS;
        var left := ReleaseBulk(b.balance, intervals);
        released := released + (b.balance - left);
        b := b.(balance := left, lastBulk := b.lastBulk + intervals * BULK_INTERVAL_BLOCKS);
      } else if b.balance == 0 {
        b := b.(lastBulk := height);
      }
      b := b.(totalReleased := SatAdd128(b.totalReleased, released));
    }

    /** The release loop: a quarter per interval, stopping early when nothing is left. */
    method ReleaseBulk(balance: u128, intervals: nat) returns (left: u128)
      ensures left == BulkLeft(balance, intervals)
    {
      left := balance;
      var i := 0;
      while i < intervals
        invariant i <= intervals && left == BulkLeft(balance, i)
      {
        if left == 0 {
          BulkLeftSplit(balance, i, intervals - i);
          NothingLeftStays(intervals - i);
          return;
        }
        BulkLeftStep(balance, i);
        left := left - BulkTake(left);
        i := i + 1;
      }
    }

    method Preview(a: Address, height: u64) returns (f: Forecast)
      ensures f == PreviewUnlock(locked, a, StakeOf(staking.View(), a), height)
    {
      if a !in locked {
        return Forecast(0, height, height, 0);
      }
      var b := locked[a];
      if b.balance == 0 {
        return Forecast(0, height, height, 0);
      }
      var stake := TotalStakeOf(a);
      var left := b.balance;
      if stake > 0 && height > b.lastDrip {
        left := left - Min(DripDue(stake, height - b.lastDrip), left);
      }
      assert left == b.balance - DripTake(b, stake, height);
      left := AfterBulk(b, left, height);
      var anchor := b.lastBulk + SatSub(height, b.lastBulk) / BULK_INTERVAL_BLOCKS * BULK_INTERVAL_BLOCKS;
      f := Forecast(b.balance - left, height + 1, anchor + BULK_INTERVAL_BLOCKS, left);
    }

    method AfterBulk(b: Bucket, dripped: u128, height: u64) returns (left: u128)
      ensures left == BulkLeft(dripped, IntervalsDue(b, height))
    {
      left := dripped;
      NothingLeftStays(IntervalsDue(b, height));
      if left > 0 && height >= b.lastBulk {
        left := ReleaseBulk(left, (height - b.lastBulk) / BULK_INTERVAL_BLOCKS);
      }
    }
  }

  lemma {:induction false} BulkLeftSplit(balance: u128, i: nat, j: nat)
    ensures BulkLeft(balance, i + j) == BulkLeft(BulkLeft(balance, i), j)
    decreases i
  {
    if i > 0 { BulkLeftSplit(balance - BulkTake(balance), i - 1, j); }
  }

  // ───────────── properties ─────────────

  /** The preview states exactly what a settlement at that height releases and what it leaves. */
  lemma PreviewPredictsSettle(bs: Buckets, a: Address, stake: u128, height: u64)
    ensures var f := PreviewUnlock(bs, a, stake, height);
      var (bs', released) := SettleUnlock(bs, a, stake, height);
      f.released == released && f.left == if a in bs' then bs'[a].balance else 0
  {
  }

  /**
   And when more comes: after the settlement a bucket that still holds something has its first bulk
   release at the announced height and not before, and a holder with stake drips from the next block.
   */
  lemma PreviewPredictsNextBulk(bs: Buckets, a: Address, stake: u128, height: u64, later: u64)
    requires a in bs && height <= later && PreviewUnlock(bs, a, stake, height).left > 0
    ensures var f := PreviewUnlock(bs, a, stake, height);
      var bs' := SettleUnlock(bs, a, stake, height).0;
      && a in bs' && f.nextDrip == height + 1 == bs'[a].lastDrip + 1
      && (IntervalsDue(bs'[a], later) > 0 <==> later >= f.nextBulk)
  {
    var b := bs[a];
    NothingLeftStays(IntervalsDue(b, height));
    assert Settle(b, stake, height).0.lastBulk + BULK_INTERVAL_BLOCKS == NextBulk(b, height);
  }

  /** Settling again at the same height releases nothing, whatever the stake has become. */
  lemma SettleIsIdempotent(bs: Buckets, a: Address, stake: u128, later: u128, height: u64)
    ensures SettleUnlock(SettleUnlock(bs, a, stake, height).0, a, later, height).1 == 0
  {
    if a in bs && bs[a].balance > 0 {
      var b1 := Settle(bs[a], stake, height).0;
      assert b1.lastDrip == height;
      assert IntervalsDue(b1, height) == 0 by {
        if height >= bs[a].lastBulk {
          RemainderIsShort(height - bs[a].lastBulk);
        }
      }
    }
  }

  lemma RemainderIsShort(x: nat)
    ensures (x - x / BULK_INTERVAL_BLOCKS * BULK_INTERVAL_BLOCKS) / BULK_INTERVAL_BLOCKS == 0
  {
  }

  /** A bucket accounts for everything it ever received. */
  predicate Accounted(b: Bucket) {
    b.balance + b.totalReleased == b.lifetime
  }

  /** Settling keeps the account and moves exactly the release out of the balance. */
  lemma SettleKeepsAccount(b: Bucket, stake: u128, height: u64)
    requires Accounted(b)
    ensures var (b', released) := Settle(b, stake, height);
      && Accounted(b') && b'.balance + released == b.balance
      && b'.totalReleased == b.totalReleased + released && b'.lifetime == b.lifetime
  {
  }

  /**
   Locking keeps the account exactly when the lifetime total still fits 128 bits, or nothing was ever
   released: past that the two counters saturate apart.
   */
  lemma LockKeepsAccountIff(b: Bucket, amount: u128)
    requires Accounted(b)
    ensures Accounted(b.(balance := SatAdd128(b.balance, amount), lifetime := SatAdd128(b.lifetime, amount)))
       <==> b.lifetime + amount <= U128_MAX || b.totalReleased == 0
  {
  }

  datatype Op =
    | OpLock(a: Address, amount: u128, height: u64)
    | OpSettle(a: Address, stake: u128, height: u64)
    | OpForceUnlock(targets: set<Address>)

  function Apply(bs: Buckets, op: Op): Buckets {
    match op
    case OpLock(a, amount, height) => AddLocked(bs, a, amount, height)
    case OpSettle(a, stake, height) => SettleUnlock(bs, a, stake, height).0
    case OpForceUnlock(targets) => bs - targets
  }

  function ApplyAll(bs: Buckets, ops: seq<Op>): Buckets
    decreases ops
  {
    if ops == [] then bs else ApplyAll(Apply(bs, ops[0]), ops[1..])
  }

  predicate AllAccounted(bs: Buckets) {
    forall a :: a in bs ==> Accounted(bs[a])
  }

  /** Each lock fits the lifetime total of its own bucket, or nothing of that bucket was ever released. */
  predicate RoomToLock(bs: Buckets, ops: seq<Op>)
    decreases ops
  {
    ops == [] || (LockFits(bs, ops[0]) && RoomToLock(Apply(bs, ops[0]), ops[1..]))
  }

  predicate LockFits(bs: Buckets, op: Op) {
    op.OpLock? && op.a in bs ==> bs[op.a].lifetime + op.amount <= U128_MAX || bs[op.a].totalReleased == 0
  }

  /** One operation on accounted buckets keeps them accounted exactly when a lock it makes fits. */
  lemma ApplyKeepsAccountsIff(bs: Buckets, op: Op)
    requires AllAccounted(bs)
    ensures AllAccounted(Apply(bs, op)) <==> LockFits(bs, op)
  {
    if op.OpSettle? && op.a in bs {
      SettleKeepsAccount(bs[op.a], op.stake, op.height);
    }
    if op.OpLock? && op.a in bs {
      LockKeepsAccountIff(bs[op.a], op.amount);
      assert op.a in Apply(bs, op) && Apply(bs, op)[op.a].totalReleased == bs[op.a].totalReleased;
    }
  }

  /** Over any run of locks, settlements and forced unlocks every bucket stays accounted for, while its locks fit. */
  lemma {:induction false} EveryBucketIsAccounted(bs: Buckets, ops: seq<Op>)
    requires AllAccounted(bs) && RoomToLock(bs, ops)
    ensures AllAccounted(ApplyAll(bs, ops))
    decreases ops
  {
    if ops != [] {
      ApplyKeepsAccountsIff(bs, ops[0]);
      EveryBucketIsAccounted(Apply(bs, ops[0]), ops[1..]);
    }
  }

  function LockedIn(ops: seq<Op>): nat {
    if ops == [] then 0 else (if ops[0].OpLock? then ops[0].amount else 0) + LockedIn(ops[1..])
  }

  /** From an empty book there is room whenever everything ever locked can be counted in a u128. */
  lemma {:induction false} TotalGivesRoom(bs: Buckets, ops: seq<Op>, received: nat)
    requires forall a :: a in bs ==> bs[a].lifetime <= received
    requires received + LockedIn(ops) <= U128_MAX
    ensures RoomToLock(bs, ops)
    decreases ops
  {
    if ops != [] {
      TotalGivesRoom(Apply(bs, ops[0]), ops[1..], received + if ops[0].OpLock? then ops[0].amount else 0);
    }
  }
}
