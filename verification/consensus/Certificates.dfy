/** Stored commit certificates: the verifier, and what an accepted certificate proves. */
module Certificates {
  import opened Common
  import opened ConsensusTypes
  import opened VotingPower
  import opened Votes

  /** The stored blob: serialization is a bijection, so bytes that decode are their vote list. */
  datatype Blob = Empty | Decodes(votes: seq<Vote>) | Undecodable

  datatype CommitError =
    | NotEmptyAtGenesis | MissingCommit | DecodeFailed | ZeroVotes
    | WrongChainId | WrongHeight | NotPrecommit | WrongTarget | BadVoteSignature | DuplicateSigner
    | NonValidator | ZeroPowerValidator | ZeroTotalPower | InsufficientPower

  function Signers(votes: seq<Vote>): set<Address> {
    set v | v in votes :: v.validator
  }

  /** The first check that the vote fails, in the verifier's order. */
  function VoteFault(v: Vote, seen: set<Address>, parent: Hash, height: u64, chainId: u64,
                     vals: seq<Validator>): Option<CommitError> {
    if v.data.chainId != chainId then Some(WrongChainId)
    else if v.data.height != height then Some(WrongHeight)
    else if v.data.voteType != PrecommitVote then Some(NotPrecommit)
    else if v.data.blockHash != Some(parent) then Some(WrongTarget)
    else if !VerifySig(v) then Some(BadVoteSignature)
    else if v.validator in seen then Some(DuplicateSigner)
    else if Find(vals, v.validator).None? then Some(NonValidator)
    else if Find(vals, v.validator).value.votingPower == 0 then Some(ZeroPowerValidator)
    else None
  }

  function FirstFault(votes: seq<Vote>, seen: set<Address>, parent: Hash, height: u64, chainId: u64,
                      vals: seq<Validator>): Option<CommitError>
    decreases votes
  {
    if votes == [] then None
    else
      var fault := VoteFault(votes[0], seen, parent, height, chainId, vals);
      if fault.Some? then fault
      else FirstFault(votes[1..], seen + {votes[0].validator}, parent, height, chainId, vals)
  }

  function CommitVerdict(parent: Hash, height: u64, blob: Blob, chainId: u64,
                         vals: seq<Validator>): Result<(), CommitError> {
    if height == 0 then (if blob.Empty? then Ok(()) else Err(NotEmptyAtGenesis))
    else match blob
      case Empty => Err(MissingCommit)
      case Undecodable => Err(DecodeFailed)
      case Decodes(votes) =>
        if votes == [] then Err(ZeroVotes)
        else
          var fault := FirstFault(votes, {}, parent, height, chainId, vals);
          if fault.Some? then Err(fault.value)
          else if TotalPower(vals) == 0 then Err(ZeroTotalPower)
          else if PowerOf(vals, Signers(votes)) < Quorum(vals) then Err(InsufficientPower)
          else Ok(())
  }

  method VerifyLastCommitForParent(parent: Hash, height: u64, blob: Blob, chainId: u64, vals: seq<Validator>)
    returns (r: Result<(), CommitError>)
    requires GoodSet(vals)
    ensures r == CommitVerdict(parent, height, blob, chainId, vals)
  {
    if height == 0 {
      if !blob.Empty? {
        return Err(NotEmptyAtGenesis);
      }
      return Ok(());
    }
    if blob.Empty? {
      return Err(MissingCommit);
    }
    if blob.Undecodable? {
      return Err(DecodeFailed);
    }
    var votes := blob.votes;
    if votes == [] {
      return Err(ZeroVotes);
    }
    var seen: set<Address> := {};
    var counted: u64 := 0;
    NoPower(vals);
    for i := 0 to |votes|
      invariant FirstFault(votes, {}, parent, height, chainId, vals)
             == FirstFault(votes[i..], seen, parent, height, chainId, vals)
      invariant seen == Signers(votes[..i])
      invariant counted == PowerOf(vals, seen)
    {
      var v := votes[i];
      assert votes[i..][1..] == votes[i+1..];
      if v.data.chainId != chainId {
        return Err(WrongChainId);
      }
      if v.data.height != height {
        return Err(WrongHeight);
      }
      if v.data.voteType != PrecommitVote {
        return Err(NotPrecommit);
      }
      if v.data.blockHash != Some(parent) {
        return Err(WrongTarget);
      }
      if !VerifySig(v) {
        return Err(BadVoteSignature);
      }
      if v.validator in seen {
        return Err(DuplicateSigner);
      }
      var val := Find(vals, v.validator);
      if val.None? {
        return Err(NonValidator);
      }
      if val.value.votingPower == 0 {
        return Err(ZeroPowerValidator);
      }
      PowerInsert(vals, seen, v.validator);
      PowerMonotone(vals, seen + {v.validator}, seen + {v.validator});
      seen := seen + {v.validator};
      counted := SatAdd64(counted, val.value.votingPower);
      assert votes[..i+1] == votes[..i] + [v];
    }
    assert votes[..|votes|] == votes;
    var total := TotalPower(vals);
    if total == 0 {
      return Err(ZeroTotalPower);
    }
    if counted < total * 2 / 3 + 1 {
      return Err(InsufficientPower);
    }
    r := Ok(());
  }

  // ───────────── what acceptance means ─────────────

  predicate GoodPrecommit(v: Vote, parent: Hash, height: u64, chainId: u64, vals: seq<Validator>) {
    && v.data == VoteData(chainId, height, v.data.round, PrecommitVote, Some(parent))
    && Acceptable(chainId, v, vals)
  }

  /** Distinct validators of positive power, together a quorum, each signed a precommit for the block. */
  ghost predicate ProvesCommit(votes: seq<Vote>, parent: Hash, height: u64, chainId: u64, vals: seq<Validator>) {
    && (forall v :: v in votes ==> GoodPrecommit(v, parent, height, chainId, vals))
    && (forall i, j :: 0 <= i < j < |votes| ==> votes[i].validator != votes[j].validator)
    && TotalPower(vals) > 0
    && PowerOf(vals, Signers(votes)) >= Quorum(vals)
  }

  lemma {:induction false} NoFaultMeans(votes: seq<Vote>, seen: set<Address>, parent: Hash, height: u64, chainId: u64,
                                        vals: seq<Validator>)
    ensures FirstFault(votes, seen, parent, height, chainId, vals).None? <==>
      && (forall i | 0 <= i < |votes| ::
            GoodPrecommit(votes[i], parent, height, chainId, vals) && votes[i].validator !in seen)
      && (forall i, j :: 0 <= i < j < |votes| ==> votes[i].validator != votes[j].validator)
    decreases votes
  {
    if votes != [] {
      var tail := votes[1..];
      NoFaultMeans(tail, seen + {votes[0].validator}, parent, height, chainId, vals);
      assert forall i :: 0 < i < |votes| ==> votes[i] == tail[i-1];
      assert forall i :: 0 <= i < |tail| ==> tail[i] == votes[i+1];
    }
  }

  /** Above genesis the verifier accepts exactly the blobs that decode to a proof of commit. */
  lemma VerdictIsProof(parent: Hash, height: u64, blob: Blob, chainId: u64, vals: seq<Validator>)
    requires height > 0
    ensures CommitVerdict(parent, height, blob, chainId, vals).Ok?
       <==> blob.Decodes? && ProvesCommit(blob.votes, parent, height, chainId, vals)
  {
    if blob.Decodes? {
      NoFaultMeans(blob.votes, {}, parent, height, chainId, vals);
      if blob.votes == [] {
        assert Signers(blob.votes) == {};
        NoPower(vals);
      }
    }
  }

  /** The precommits of this height were cast by members of this height's set; nothing is asked of other slots. */
  ghost predicate FromMembers(pool: Pool, height: u64, vals: seq<Validator>) {
    forall k, a :: k in PrecommitSlots(pool, height) && a in pool[k] ==> Member(vals, a)
  }

  lemma AddKeepsMembers(pool: Pool, height: u64, chainId: u64, vote: Vote, vals: seq<Validator>)
    requires FromMembers(pool, height, vals)
    ensures FromMembers(AddVote(pool, chainId, vote, vals).0, height, vals)
  {
  }

  /**
   Once adding a precommit for a block above genesis reports a quorum, the list the pool collects
   for that block is accepted by the verifier.
   */
  lemma QuorumYieldsCertificate(pool: Pool, chainId: u64, vote: Vote, vals: seq<Validator>, out: seq<Vote>)
    requires WellFormed(pool, chainId) && FromMembers(pool, vote.data.height, vals)
    requires vote.data.voteType == PrecommitVote && vote.data.blockHash.Some? && vote.data.height > 0
    requires AddVote(pool, chainId, vote, vals).1 == Inserted(true)
    requires IsCertificate(AddVote(pool, chainId, vote, vals).0, vote.data.height, vote.data.blockHash.value, out)
    ensures CommitVerdict(vote.data.blockHash.value, vote.data.height, Decodes(out), chainId, vals) == Ok(())
  {
    var pool' := AddVote(pool, chainId, vote, vals).0;
    var height, target := vote.data.height, vote.data.blockHash.value;
    AddKeepsWellFormed(pool, chainId, vote, vals);
    AddKeepsMembers(pool, height, chainId, vote, vals);
    var k := KeyOf(vote);
    var supporters := Supporters(pool'[k], Some(target));
    assert k in PrecommitSlots(pool', height);
    assert supporters <= Signers(out) by {
      forall a | a in supporters ensures a in Signers(out) {
        var i :| 0 <= i < |out| && out[i].validator == a;
        assert out[i] in out;
      }
    }
    PowerMonotone(vals, supporters, Signers(out));
    forall v | v in out ensures GoodPrecommit(v, target, height, chainId, vals) {
      assert IsLatest(pool', height, target, v);
    }
    VerdictIsProof(target, height, Decodes(out), chainId, vals);
  }

  /** Two accepted certificates for different blocks share signers with over a third of the power. */
  lemma ConflictingCertificatesShareSigners(b1: Hash, v1: seq<Vote>, b2: Hash, v2: seq<Vote>, height: u64,
                                            chainId: u64, vals: seq<Validator>)
    requires height > 0 && b1 != b2
    requires CommitVerdict(b1, height, Decodes(v1), chainId, vals).Ok?
    requires CommitVerdict(b2, height, Decodes(v2), chainId, vals).Ok?
    ensures 3 * PowerOf(vals, Signers(v1) * Signers(v2)) > TotalPower(vals)
    ensures forall a :: a in Signers(v1) * Signers(v2) ==>
      exists x, y :: x in v1 && y in v2 && x.validator == y.validator == a && x.data.blockHash != y.data.blockHash
  {
    VerdictIsProof(b1, height, Decodes(v1), chainId, vals);
    VerdictIsProof(b2, height, Decodes(v2), chainId, vals);
    QuorumsIntersect(vals, Signers(v1), Signers(v2));
    forall a | a in Signers(v1) * Signers(v2)
      ensures exists x, y ::
        x in v1 && y in v2 && x.validator == y.validator == a && x.data.blockHash != y.data.blockHash
    {
      var x :| x in v1 && x.validator == a;
      var y :| y in v2 && y.validator == a;
      assert GoodPrecommit(x, b1, height, chainId, vals) && GoodPrecommit(y, b2, height, chainId, vals);
    }
  }

  // ───────────── the canonical certificate ─────────────

  function AddAll(pool: Pool, chainId: u64, votes: seq<Vote>, vals: seq<Validator>): Pool
    decreases votes
  {
    if votes == [] then pool
    else AddAll(AddVote(pool, chainId, votes[0], vals).0, chainId, votes[1..], vals)
  }

  /** No validator has two different votes in one slot. */
  ghost predicate NonEquivocating(s: set<Vote>) {
    forall v, w :: v in s && w in s && KeyOf(v) == KeyOf(w) && v.validator == w.validator ==> v == w
  }

  /** The pool holds exactly the votes of `s`, and no empty slots. */
  ghost predicate Holds(pool: Pool, s: set<Vote>) {
    && (forall v :: v in s ==> Present(pool, v))
    && (forall k, a | k in pool && a in pool[k] ::
          pool[k][a] in s && KeyOf(pool[k][a]) == k && pool[k][a].validator == a)
    && (forall k :: k in pool ==> pool[k] != map[])
  }

  lemma AddHolds(pool: Pool, chainId: u64, v: Vote, vals: seq<Validator>, s: set<Vote>)
    requires Holds(pool, s) && Acceptable(chainId, v, vals)
    requires forall w :: w in s && KeyOf(w) == KeyOf(v) && w.validator == v.validator ==> w == v
    ensures Holds(AddVote(pool, chainId, v, vals).0, s + {v})
  {
    var slot := SlotAt(pool, KeyOf(v));
    var pool' := AddVote(pool, chainId, v, vals).0;
    if v.validator in slot {
      assert slot[v.validator] in s;
      assert pool' == pool && s + {v} == s;
    } else {
      var slot': SlotVotes := slot[v.validator := v];
      assert pool' == pool[KeyOf(v) := slot'];
      forall w | w in s ensures Present(pool', w) {
        assert Present(pool, w);
      }
    }
  }

  lemma {:induction false} AddAllHolds(pool: Pool, chainId: u64, votes: seq<Vote>, vals: seq<Validator>, s: set<Vote>)
    requires Holds(pool, s)
    requires NonEquivocating(s + set v | v in votes)
    requires forall v :: v in votes ==> Acceptable(chainId, v, vals)
    ensures Holds(AddAll(pool, chainId, votes, vals), s + set v | v in votes)
    decreases votes
  {
    var all := s + set v | v in votes;
    if votes == [] {
      assert all == s;
    } else {
      var v := votes[0];
      assert all == s + {v} + (set w | w in votes[1..]) by {
        assert votes == [v] + votes[1..];
      }
      assert v in all;
      AddHolds(pool, chainId, v, vals, s);
      AddAllHolds(AddVote(pool, chainId, v, vals).0, chainId, votes[1..], vals, s + {v});
    }
  }

  lemma HoldsIsUnique(p: Pool, q: Pool, s: set<Vote>)
    requires Holds(p, s) && Holds(q, s)
    ensures p == q
  {
    forall k ensures k in p <==> k in q {
      if k in p {
        var a :| a in p[k];
        assert Present(q, p[k][a]);
      }
      if k in q {
        var a :| a in q[k];
        assert Present(p, q[k][a]);
      }
    }
    forall k | k in p ensures p[k] == q[k] {
      forall a ensures a in p[k] <==> a in q[k] {
        if a in p[k] { assert Present(q, p[k][a]); }
        if a in q[k] { assert Present(p, q[k][a]); }
      }
      forall a | a in p[k] ensures p[k][a] == q[k][a] {
        assert Present(q, p[k][a]);
      }
    }
  }

  lemma {:induction false} SortedListsAgree(x: seq<Vote>, y: seq<Vote>)
    requires SortedByAddress(x) && SortedByAddress(y)
    requires forall v :: v in x <==> v in y
    ensures x == y
    decreases |x|
  {
    assert y != [] ==> y[0] in y && y[0] in x;
    if x != [] {
      assert x[0] in y;
      assert y[0] in x;
      assert x[0] == y[0];
      forall v ensures v in x[1..] <==> v in y[1..] {
        if v in x[1..] {
          var i :| 0 <= i < |x[1..]| && x[1..][i] == v;
          assert x[i+1] == v && v in y;
        }
        if v in y[1..] {
          var i :| 0 <= i < |y[1..]| && y[1..][i] == v;
          assert y[i+1] == v && v in x;
        }
      }
      SortedListsAgree(x[1..], y[1..]);
    }
  }

  lemma LatestIsUnique(pool: Pool, chainId: u64, height: u64, target: Hash, v: Vote, w: Vote)
    requires WellFormed(pool, chainId)
    requires IsLatest(pool, height, target, v) && IsLatest(pool, height, target, w) && v.validator == w.validator
    ensures v == w
  {
    assert KeyOf(v) in PrecommitSlots(pool, height) && KeyOf(w) in PrecommitSlots(pool, height);
    assert v.validator in Supporters(pool[KeyOf(w)], Some(target));
    assert w.validator in Supporters(pool[KeyOf(v)], Some(target));
  }

  lemma CertificateCovers(pool: Pool, chainId: u64, height: u64, target: Hash, x: seq<Vote>, y: seq<Vote>)
    requires WellFormed(pool, chainId)
    requires IsCertificate(pool, height, target, x) && IsCertificate(pool, height, target, y)
    ensures forall v :: v in x ==> v in y
  {
    forall v | v in x ensures v in y {
      assert IsLatest(pool, height, target, v);
      assert KeyOf(v) in PrecommitSlots(pool, height) && v.validator in Supporters(pool[KeyOf(v)], Some(target));
      var i :| 0 <= i < |y| && y[i].validator == v.validator;
      assert y[i] in y;
      LatestIsUnique(pool, chainId, height, target, v, y[i]);
    }
  }

  /**
   Two nodes that add the same votes, in any order and with any repeats, end with equal pools, and
   every list either of them may collect for a block is the same list.
   */
  lemma CanonicalCertificate(chainId: u64, xs: seq<Vote>, ys: seq<Vote>, vals: seq<Validator>, height: u64,
                             target: Hash,
                             outX: seq<Vote>, outY: seq<Vote>)
    requires (set v | v in xs) == (set v | v in ys)
    requires NonEquivocating(set v | v in xs)
    requires forall v :: v in xs ==> Acceptable(chainId, v, vals)
    requires IsCertificate(AddAll(map[], chainId, xs, vals), height, target, outX)
    requires IsCertificate(AddAll(map[], chainId, ys, vals), height, target, outY)
    ensures AddAll(map[], chainId, xs, vals) == AddAll(map[], chainId, ys, vals)
    ensures outX == outY
  {
    var s := set v | v in xs;
    var p := AddAll(map[], chainId, xs, vals);
    assert {} + s == s;
    assert forall v :: v in ys ==> v in s;
    AddAllHolds(map[], chainId, xs, vals, {});
    AddAllHolds(map[], chainId, ys, vals, {});
    HoldsIsUnique(p, AddAll(map[], chainId, ys, vals), s);
    assert WellFormed(p, chainId) by {
      forall k, a | k in p && a in p[k]
        ensures var v := p[k][a]; KeyOf(v) == k && v.validator == a && v.data.chainId == chainId && VerifySig(v)
      {
        assert p[k][a] in s;
      }
    }
    CertificateCovers(p, chainId, height, target, outX, outY);
    CertificateCovers(p, chainId, height, target, outY, outX);
    SortedListsAgree(outX, outY);
  }

  /** In one slot of a pool at most one target gathers a quorum. */
  lemma OneQuorumPerSlot(slot: SlotVotes, vals: seq<Validator>, t: Option<Hash>, u: Option<Hash>)
    requires TotalPower(vals) > 0
    requires PowerOf(vals, Supporters(slot, t)) >= Quorum(vals)
    requires PowerOf(vals, Supporters(slot, u)) >= Quorum(vals)
    ensures t == u
  {
    if t != u {
      QuorumsIntersect(vals, Supporters(slot, t), Supporters(slot, u));
      assert Supporters(slot, t) * Supporters(slot, u) == {};
      NoPower(vals);
    }
  }
}
