/** Signed votes, the pool that collects them, and the commit certificates assembled from it. */
module Votes {
  import opened Common
  import opened ConsensusTypes
  import opened VotingPower

  type PubKey = nat

  datatype VoteData = VoteData(chainId: u64, height: u64, round: u32, voteType: VoteType, blockHash: Option<Hash>)

  /**
   Signatures are symbolic: a term records the key and the payload it was made for, so it verifies
   for exactly those. The nonce tells apart two valid signatures of one payload.
   */
  datatype Signature = Signed(key: PubKey, payload: VoteData, nonce: nat) | Garbage(bytes: nat)

  datatype Vote = Vote(data: VoteData, validator: Address, pubkey: PubKey, signature: Signature)

  /** The address of a key; hashing a key is modelled as the identity, hence without collisions. */
  function AddressOf(key: PubKey): Address { key }

  function SignVote(key: PubKey, data: VoteData): Vote {
    Vote(data, AddressOf(key), key, Signed(key, data, 0))
  }

  predicate VerifySig(v: Vote) {
    AddressOf(v.pubkey) == v.validator
    && v.signature.Signed? && v.signature.key == v.pubkey && v.signature.payload == v.data
  }

  datatype Slot = Slot(height: u64, round: u32, voteType: VoteType)

  type SlotVotes = map<Address, Vote>

  type Pool = map<Slot, SlotVotes>

  datatype AddVoteResult =
    | Inserted(reachedQuorum: bool)
    | Duplicate
    | DoubleSign(previous: Vote)
    | BadSignature
    | UnknownValidator
    | WrongChain

  function KeyOf(v: Vote): Slot {
    Slot(v.data.height, v.data.round, v.data.voteType)
  }

  function SlotAt(pool: Pool, k: Slot): SlotVotes {
    if k in pool then pool[k] else map[]
  }

  predicate Present(pool: Pool, v: Vote) {
    KeyOf(v) in pool && v.validator in pool[KeyOf(v)] && pool[KeyOf(v)][v.validator] == v
  }

  function Supporters(slot: SlotVotes, target: Option<Hash>): set<Address> {
    set a | a in slot && slot[a].data.blockHash == target
  }

  predicate Member(vals: seq<Validator>, a: Address) {
    Find(vals, a).Some? && Find(vals, a).value.votingPower > 0
  }

  predicate Acceptable(chainId: u64, v: Vote, vals: seq<Validator>) {
    v.data.chainId == chainId && VerifySig(v) && Member(vals, v.validator)
  }

  function AddVote(pool: Pool, chainId: u64, vote: Vote, vals: seq<Validator>): (Pool, AddVoteResult) {
    if vote.data.chainId != chainId then (pool, WrongChain)
    else if !VerifySig(vote) then (pool, BadSignature)
    else if !Member(vals, vote.validator) then (pool, UnknownValidator)
    else
      var slot := SlotAt(pool, KeyOf(vote));
      if vote.validator in slot then
        (pool, if slot[vote.validator] == vote then Duplicate else DoubleSign(slot[vote.validator]))
      else
        var slot' := slot[vote.validator := vote];
        (pool[KeyOf(vote) := slot'],
         Inserted(TotalPower(vals) > 0 && PowerOf(vals, Supporters(slot', vote.data.blockHash)) >= Quorum(vals)))
  }

  /** What every pool keeps: votes sit in their own slot under their own address, signed, on this chain. */
  ghost predicate WellFormed(pool: Pool, chainId: u64) {
    forall k, a :: k in pool && a in pool[k] ==>
      var v := pool[k][a];
      KeyOf(v) == k && v.validator == a && v.data.chainId == chainId && VerifySig(v)
  }

  lemma AddKeepsWellFormed(pool: Pool, chainId: u64, vote: Vote, vals: seq<Validator>)
    requires WellFormed(pool, chainId)
    ensures WellFormed(AddVote(pool, chainId, vote, vals).0, chainId)
  {
  }

  class VotePool {
    var inner: Pool
    const chainId: u64

    ghost predicate Valid()
      reads this
    {
      WellFormed(inner, chainId)
    }

    constructor (chainId: u64)
      ensures Valid() && inner == map[] && this.chainId == chainId
    {
      this.inner := map[];
      this.chainId := chainId;
    }

    method Add(vote: Vote, vals: seq<Validator>) returns (r: AddVoteResult)
      requires Valid() && GoodSet(vals)
      modifies this
      ensures Valid()
      ensures (inner, r) == AddVote(old(inner), chainId, vote, vals)
    {
      AddKeepsWellFormed(inner, chainId, vote, vals);
      if vote.data.chainId != chainId {
        return WrongChain;
      }
      if !VerifySig(vote) {
        return BadSignature;
      }
      var val := Find(vals, vote.validator);
      if val.None? {
        return UnknownValidator;
      }
      if val.value.votingPower == 0 {
        return UnknownValidator;
      }
      var total := TotalPower(vals);
      var quorum := if total == 0 then 0 else total * 2 / 3 + 1;
      var slot := SlotAt(inner, KeyOf(vote));
      if vote.validator in slot {
        var prev := slot[vote.validator];
        if prev == vote {
          return Duplicate;
        }
        return DoubleSign(prev);
      }
      slot := slot[vote.validator := vote];
      inner := inner[KeyOf(vote) := slot];
      var power := SumPower(slot, vote.data.blockHash, vals);
      r := Inserted(quorum > 0 && power >= quorum);
    }

    method HasQuorum(height: u64, round: u32, voteType: VoteType, target: Option<Hash>, vals: seq<Validator>)
      returns (r: bool)
      requires Valid() && GoodSet(vals)
      ensures r <==> TotalPower(vals) > 0
                     && PowerOf(vals, Supporters(SlotAt(inner, Slot(height, round, voteType)), target)) >= Quorum(vals)
    {
      var total := TotalPower(vals);
      if total == 0 {
        return false;
      }
      var power := PowerFor(height, round, voteType, target, vals);
      r := power >= total * 2 / 3 + 1;
    }

    method PowerFor(height: u64, round: u32, voteType: VoteType, target: Option<Hash>, vals: seq<Validator>)
      returns (p: u64)
      requires Valid() && GoodSet(vals)
      ensures p == PowerOf(vals, Supporters(SlotAt(inner, Slot(height, round, voteType)), target))
    {
      p := SumPower(SlotAt(inner, Slot(height, round, voteType)), target, vals);
    }

    method GcBelow(minHeight: u64) returns (n: nat)
      requires Valid()
      modifies this
      ensures Valid()
      ensures inner == map k | k in old(inner) && k.height >= minHeight :: old(inner)[k]
      ensures n + |inner| == old(|inner|)
    {
      var drop := set k | k in inner && k.height < minHeight;
      n := |drop|;
      inner := inner - drop;
      assert inner.Keys == old(inner).Keys - drop;
      SizeSplits(old(inner).Keys, drop);
    }

    /** One pass over the slot, indexing power by target. */
    method TallyFor(height: u64, round: u32, voteType: VoteType, vals: seq<Validator>)
      returns (tally: map<Option<Hash>, u64>)
      requires Valid() && GoodSet(vals)
      ensures IsTally(SlotAt(inner, Slot(height, round, voteType)), vals, tally)
    {
      var slot := SlotAt(inner, Slot(height, round, voteType));
      var rest := slot.Keys;
      tally := map[];
      NoPower(vals);
      assert forall t :: Among(slot, {}, t) == {};
      assert slot.Keys - rest == {};
      while rest != {}
        invariant rest <= slot.Keys
        invariant TallyOf(slot, slot.Keys - rest, vals, tally)
      {
        var a :| a in rest;
        ghost var before := tally;
        assert slot[a].validator == a;
        var val := Find(vals, slot[a].validator);
        if val.Some? {
          var target := slot[a].data.blockHash;
          var entry := if target in tally then tally[target] else 0;
          tally := tally[target := SatAdd64(entry, val.value.votingPower)];
        }
        TallyStep(slot, slot.Keys - rest, vals, before, a, tally);
        assert slot.Keys - rest + {a} == slot.Keys - (rest - {a});
        rest := rest - {a};
      }
      assert slot.Keys - rest == slot.Keys;
      assert forall t :: Among(slot, slot.Keys, t) == Supporters(slot, t);
    }

    /** Every voter's latest precommit for `target`, sorted by address. */
    method CollectPrecommitsFor(height: u64, target: Hash) returns (out: seq<Vote>)
      requires Valid()
      ensures IsCertificate(inner, height, target, out)
    {
      var todo := PrecommitSlots(inner, height);
      ghost var all := todo;
      var byValidator: map<Address, Vote> := map[];
      while todo != {}
        invariant todo <= all
        invariant forall k, j :: k in all && k !in todo && j in todo ==> k.round < j.round
        invariant LatestAmong(inner, all - todo, target, byValidator)
      {
        var k := NextSlot(todo);
        LatestStep(inner, all - todo, target, byValidator, k);
        byValidator := Overlay(byValidator, inner[k], target);
        assert all - (todo - {k}) == all - todo + {k};
        todo := todo - {k};
      }
      assert all - todo == all;
      out := SortByAddress(byValidator);
      LatestIsCertificate(inner, height, target, byValidator, out);
    }

    static method SumPower(slot: SlotVotes, target: Option<Hash>, vals: seq<Validator>) returns (p: u64)
      requires GoodSet(vals) && forall a :: a in slot ==> slot[a].validator == a
      ensures p == PowerOf(vals, Supporters(slot, target))
    {
      var rest := slot.Keys;
      p := 0;
      NoPower(vals);
      assert Among(slot, slot.Keys - rest, target) == {};
      while rest != {}
        invariant rest <= slot.Keys
        invariant p == PowerOf(vals, Among(slot, slot.Keys - rest, target))
      {
        var a :| a in rest;
        ghost var done := slot.Keys - rest;
        PowerStep(slot, done, vals, a, target);
        if slot[a].data.blockHash == target {
          var val := Find(vals, slot[a].validator);
          if val.Some? {
            p := SatAdd64(p, val.value.votingPower);
          }
        }
        assert done + {a} == slot.Keys - (rest - {a});
        rest := rest - {a};
      }
      assert Among(slot, slot.Keys - rest, target) == Supporters(slot, target);
    }
  }

  lemma SizeSplits(keys: set<Slot>, drop: set<Slot>)
    requires drop <= keys
    ensures |drop| + |keys - drop| == |keys|
  {
    assert keys == (keys - drop) + drop;
  }

  // ───────────── tallies ─────────────

  /** The supporters of `target` among the voters in `done`. */
  function Among(slot: SlotVotes, done: set<Address>, target: Option<Hash>): set<Address> {
    set a | a in done && a in slot && slot[a].data.blockHash == target
  }

  /** `tally` indexes, by target, the power of the voters in `done`. */
  ghost predicate TallyOf(slot: SlotVotes, done: set<Address>, vals: seq<Validator>, tally: map<Option<Hash>, u64>) {
    forall t ::
      && PowerOf(vals, Among(slot, done, t)) == (if t in tally then tally[t] else 0)
      && (t in tally <==> exists a :: a in Among(slot, done, t) && Find(vals, a).Some?)
  }

  /** A finished tally: exactly the targets some validator voted for, each with its supporters' power. */
  ghost predicate IsTally(slot: SlotVotes, vals: seq<Validator>, tally: map<Option<Hash>, u64>) {
    forall t ::
      && PowerOf(vals, Supporters(slot, t)) == (if t in tally then tally[t] else 0)
      && (t in tally <==> exists a :: a in Supporters(slot, t) && Find(vals, a).Some?)
  }

  lemma PowerStep(slot: SlotVotes, done: set<Address>, vals: seq<Validator>, a: Address, t: Option<Hash>)
    requires GoodSet(vals) && a in slot && a !in done
    ensures PowerOf(vals, Among(slot, done + {a}, t)) <= TotalPower(vals)
    ensures PowerOf(vals, Among(slot, done + {a}, t))
         == PowerOf(vals, Among(slot, done, t)) + if slot[a].data.blockHash == t then FoundPower(vals, a) else 0
  {
    PowerMonotone(vals, Among(slot, done + {a}, t), Among(slot, done + {a}, t));
    if slot[a].data.blockHash == t {
      assert Among(slot, done + {a}, t) == Among(slot, done, t) + {a};
      PowerInsert(vals, Among(slot, done, t), a);
    } else {
      assert Among(slot, done + {a}, t) == Among(slot, done, t);
    }
  }

  lemma TallyStep(slot: SlotVotes, done: set<Address>, vals: seq<Validator>,
                  tally: map<Option<Hash>, u64>, a: Address, tally': map<Option<Hash>, u64>)
    requires GoodSet(vals) && a in slot && a !in done
    requires TallyOf(slot, done, vals, tally)
    requires var t := slot[a].data.blockHash;
             tally' == if Find(vals, a).None? then tally
                       else tally[t := SatAdd64(if t in tally then tally[t] else 0, FoundPower(vals, a))]
    ensures TallyOf(slot, done + {a}, vals, tally')
  {
    forall t
      ensures PowerOf(vals, Among(slot, done + {a}, t)) == (if t in tally' then tally'[t] else 0)
      ensures t in tally' <==> exists x :: x in Among(slot, done + {a}, t) && Find(vals, x).Some?
    {
      PowerStep(slot, done, vals, a, t);
      if slot[a].data.blockHash == t {
        assert Among(slot, done + {a}, t) == Among(slot, done, t) + {a};
      } else {
        assert Among(slot, done + {a}, t) == Among(slot, done, t);
      }
    }
  }

  // ───────────── collecting a certificate ─────────────

  /** `v` is a precommit for the block held by the pool, and no later one by the same validator is. */
  ghost predicate IsLatest(pool: Pool, height: u64, target: Hash, v: Vote) {
    && Present(pool, v)
    && v.data.height == height && v.data.voteType == PrecommitVote && v.data.blockHash == Some(target)
    && forall k :: k in PrecommitSlots(pool, height) && v.validator in Supporters(pool[k], Some(target))
                   ==> k.round <= v.data.round
  }

  ghost predicate SortedByAddress(vs: seq<Vote>) {
    forall i, j :: 0 <= i < j < |vs| ==> vs[i].validator < vs[j].validator
  }

  /** The commit list for a block: each supporter once, at its highest round, in address order. */
  ghost predicate IsCertificate(pool: Pool, height: u64, target: Hash, out: seq<Vote>) {
    && SortedByAddress(out)
    && (forall v :: v in out ==> IsLatest(pool, height, target, v))
    && (forall k, a :: k in PrecommitSlots(pool, height) && a in Supporters(pool[k], Some(target))
                       ==> exists i :: 0 <= i < |out| && out[i].validator == a)
  }

  /** `latest` holds, for each supporter of `target` in the given slots, its vote of the highest round. */
  ghost predicate LatestAmong(pool: Pool, slots: set<Slot>, target: Hash, latest: map<Address, Vote>)
    requires slots <= pool.Keys
  {
    && (forall a :: a in latest ==>
          var v := latest[a];
          && KeyOf(v) in slots && a in Supporters(pool[KeyOf(v)], Some(target)) && pool[KeyOf(v)][a] == v
          && forall k :: k in slots && a in Supporters(pool[k], Some(target)) ==> k.round <= v.data.round)
    && (forall k, a :: k in slots && a in Supporters(pool[k], Some(target)) ==> a in latest)
  }

  /** Insert every vote of the slot that names `target`, overwriting earlier rounds. */
  function Overlay(latest: map<Address, Vote>, slot: SlotVotes, target: Hash): map<Address, Vote> {
    latest + map a | a in Supporters(slot, Some(target)) :: slot[a]
  }

  function PrecommitSlots(pool: Pool, height: u64): set<Slot> {
    set k | k in pool && k.height == height && k.voteType == PrecommitVote
  }

  /** Visiting one more slot, of a later round, keeps the latest vote of every supporter. */
  lemma LatestStep(pool: Pool, slots: set<Slot>, target: Hash, latest: map<Address, Vote>, k: Slot)
    requires slots <= pool.Keys && k in pool
    requires forall a :: a in pool[k] ==> KeyOf(pool[k][a]) == k
    requires forall j :: j in slots ==> j.round < k.round
    requires LatestAmong(pool, slots, target, latest)
    ensures LatestAmong(pool, slots + {k}, target, Overlay(latest, pool[k], target))
  {
    var latest' := Overlay(latest, pool[k], target);
    forall a | a in latest'
      ensures var v := latest'[a];
        && KeyOf(v) in slots + {k} && a in Supporters(pool[KeyOf(v)], Some(target)) && pool[KeyOf(v)][a] == v
        && forall j :: j in slots + {k} && a in Supporters(pool[j], Some(target)) ==> j.round <= v.data.round
    {
      if a in Supporters(pool[k], Some(target)) {
        assert latest'[a] == pool[k][a];
      } else {
        assert latest'[a] == latest[a];
      }
    }
  }

  lemma LatestIsCertificate(pool: Pool, height: u64, target: Hash, latest: map<Address, Vote>, out: seq<Vote>)
    requires forall k, a :: k in pool && a in pool[k] ==> pool[k][a].validator == a
    requires LatestAmong(pool, PrecommitSlots(pool, height), target, latest)
    requires SortedByAddress(out)
    requires forall v :: v in out ==> v.validator in latest && latest[v.validator] == v
    requires forall a :: a in latest ==> latest[a] in out
    ensures IsCertificate(pool, height, target, out)
  {
    forall v | v in out ensures IsLatest(pool, height, target, v) {
      assert KeyOf(v) in PrecommitSlots(pool, height);
    }
    forall k, a | k in PrecommitSlots(pool, height) && a in Supporters(pool[k], Some(target))
      ensures exists i :: 0 <= i < |out| && out[i].validator == a
    {
      assert latest[a] in out;
    }
  }

  /** The pool is ordered by (height, round, type), so its precommits of a height come by round. */
  method NextSlot(todo: set<Slot>) returns (k: Slot)
    requires todo != {}
    ensures k in todo && forall j :: j in todo ==> k.round <= j.round
  {
    var rounds := set j | j in todo :: j.round;
    var some :| some in todo;
    assert some.round in rounds;
    var low := Lowest(rounds);
    assert forall j :: j in todo ==> j.round in rounds;
    k :| k in todo && k.round == low;
  }

  method SortByAddress(m: map<Address, Vote>) returns (out: seq<Vote>)
    requires forall a :: a in m ==> m[a].validator == a
    ensures SortedByAddress(out)
    ensures forall v :: v in out ==> v.validator in m && m[v.validator] == v
    ensures forall a :: a in m ==> m[a] in out
  {
    var rest := m.Keys;
    out := [];
    while rest != {}
      invariant rest <= m.Keys
      invariant SortedByAddress(out)
      invariant forall v :: v in out ==> v.validator in m && m[v.validator] == v
      invariant forall a :: a in m && a !in rest ==> m[a] in out
      invariant forall i, b :: 0 <= i < |out| && b in rest ==> out[i].validator < b
    {
      var a := Lowest(rest);
      out := out + [m[a]];
      rest := rest - {a};
    }
  }
}
