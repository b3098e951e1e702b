/** The equivocation verifier, and its relation to the double-sign report of the vote pool. */
module Evidence {
  import opened Common
  import opened ConsensusTypes
  import opened VotingPower
  import opened Votes
  import opened Certificates

  datatype EquivocationEvidence = EquivocationEvidence(a: Vote, b: Vote)

  datatype EvidenceError =
    | DifferentValidators | HeightsDiffer | RoundsDiffer | TypesDiffer | SameTarget
    | WrongChainA | WrongChainB | BadSignatureA | BadSignatureB | NotInValidatorSet | ZeroPower

  function VerifyEquivocation(ev: EquivocationEvidence, chainId: u64, vals: seq<Validator>): Result<(), EvidenceError> {
    if ev.a.validator != ev.b.validator then Err(DifferentValidators)
    else if ev.a.data.height != ev.b.data.height then Err(HeightsDiffer)
    else if ev.a.data.round != ev.b.data.round then Err(RoundsDiffer)
    else if ev.a.data.voteType != ev.b.data.voteType then Err(TypesDiffer)
    else if ev.a.data.blockHash == ev.b.data.blockHash then Err(SameTarget)
    else if ev.a.data.chainId != chainId then Err(WrongChainA)
    else if ev.b.data.chainId != chainId then Err(WrongChainB)
    else if !VerifySig(ev.a) then Err(BadSignatureA)
    else if !VerifySig(ev.b) then Err(BadSignatureB)
    else if Find(vals, ev.a.validator).None? then Err(NotInValidatorSet)
    else if Find(vals, ev.a.validator).value.votingPower == 0 then Err(ZeroPower)
    else Ok(())
  }

  /**
   A double-sign the pool reports becomes evidence every verifier accepts exactly when the two votes
   name different targets; a second signature over the same target is reported but not slashable.
   */
  lemma DoubleSignIsEvidence(pool: Pool, chainId: u64, vote: Vote, vals: seq<Validator>)
    requires WellFormed(pool, chainId)
    requires AddVote(pool, chainId, vote, vals).1.DoubleSign?
    ensures var prev := AddVote(pool, chainId, vote, vals).1.previous;
      && Present(pool, prev)
      && (VerifyEquivocation(EquivocationEvidence(prev, vote), chainId, vals).Ok?
          <==> prev.data.blockHash != vote.data.blockHash)
  {
    var prev := AddVote(pool, chainId, vote, vals).1.previous;
    assert prev == pool[KeyOf(vote)][vote.validator];
    assert KeyOf(prev) == KeyOf(vote) && prev.validator == vote.validator;
  }

  /**
   Between two accepted certificates of a height for different blocks, a pair of votes is evidence
   exactly when one validator cast both at one round.
   */
  lemma ForkEvidenceIff(b1: Hash, v1: seq<Vote>, b2: Hash, v2: seq<Vote>, height: u64, chainId: u64,
                        vals: seq<Validator>,
                        x: Vote, y: Vote)
    requires height > 0 && b1 != b2 && x in v1 && y in v2
    requires CommitVerdict(b1, height, Decodes(v1), chainId, vals).Ok?
    requires CommitVerdict(b2, height, Decodes(v2), chainId, vals).Ok?
    ensures VerifyEquivocation(EquivocationEvidence(x, y), chainId, vals).Ok?
       <==> x.validator == y.validator && x.data.round == y.data.round
  {
    VerdictIsProof(b1, height, Decodes(v1), chainId, vals);
    VerdictIsProof(b2, height, Decodes(v2), chainId, vals);
    assert GoodPrecommit(x, b1, height, chainId, vals) && GoodPrecommit(y, b2, height, chainId, vals);
  }

  /** The round at which a certificate's signer signed it. */
  predicate SignedAt(votes: seq<Vote>, a: Address, round: u32) {
    exists v :: v in votes && v.validator == a && v.data.round == round
  }

  /** Some pair of votes of the two lists, either way round or within one, convicts `a`. */
  ghost predicate Convictable(votes: seq<Vote>, a: Address, chainId: u64, vals: seq<Validator>) {
    exists x, y :: x in votes && y in votes && x.validator == a
      && VerifyEquivocation(EquivocationEvidence(x, y), chainId, vals).Ok?
  }

  /** A fork convicts exactly the signers that signed both blocks at one round, whatever rounds the lists mix. */
  lemma ForkConvictsIff(b1: Hash, v1: seq<Vote>, b2: Hash, v2: seq<Vote>, height: u64, chainId: u64,
                        vals: seq<Validator>, a: Address)
    requires height > 0 && b1 != b2
    requires CommitVerdict(b1, height, Decodes(v1), chainId, vals).Ok?
    requires CommitVerdict(b2, height, Decodes(v2), chainId, vals).Ok?
    ensures Convictable(v1 + v2, a, chainId, vals) <==> exists r: u32 :: SignedAt(v1, a, r) && SignedAt(v2, a, r)
  {
    VerdictIsProof(b1, height, Decodes(v1), chainId, vals);
    VerdictIsProof(b2, height, Decodes(v2), chainId, vals);
    if Convictable(v1 + v2, a, chainId, vals) {
      var x, y :| x in v1 + v2 && y in v1 + v2 && x.validator == a
        && VerifyEquivocation(EquivocationEvidence(x, y), chainId, vals).Ok?;
      assert (x in v1 ==> x.data.blockHash == Some(b1)) && (x in v2 ==> x.data.blockHash == Some(b2));
      assert (y in v1 ==> y.data.blockHash == Some(b1)) && (y in v2 ==> y.data.blockHash == Some(b2));
      assert SignedAt(v1, a, x.data.round) && SignedAt(v2, a, x.data.round);
    }
    if r: u32 :| SignedAt(v1, a, r) && SignedAt(v2, a, r) {
      var x :| x in v1 && x.validator == a && x.data.round == r;
      var y :| y in v2 && y.validator == a && y.data.round == r;
      ForkEvidenceIff(b1, v1, b2, v2, height, chainId, vals, x, y);
      assert x in v1 + v2 && y in v1 + v2;
    }
  }

  /**
   Two accepted certificates of one height and one common round for different blocks convict every
   shared signer: more than a third of the power.
   */
  lemma SameRoundForkConvicts(b1: Hash, v1: seq<Vote>, b2: Hash, v2: seq<Vote>, height: u64, round: u32, chainId: u64,
                              vals: seq<Validator>)
    requires height > 0 && b1 != b2
    requires CommitVerdict(b1, height, Decodes(v1), chainId, vals).Ok?
    requires CommitVerdict(b2, height, Decodes(v2), chainId, vals).Ok?
    requires forall v :: v in v1 || v in v2 ==> v.data.round == round
    ensures 3 * PowerOf(vals, Signers(v1) * Signers(v2)) > TotalPower(vals)
    ensures forall a :: a in Signers(v1) * Signers(v2) ==> Convictable(v1 + v2, a, chainId, vals)
  {
    ConflictingCertificatesShareSigners(b1, v1, b2, v2, height, chainId, vals);
    forall a | a in Signers(v1) * Signers(v2) ensures Convictable(v1 + v2, a, chainId, vals) {
      ForkConvictsIff(b1, v1, b2, v2, height, chainId, vals, a);
      assert SignedAt(v1, a, round) && SignedAt(v2, a, round);
    }
  }

  /** The certificate in which every validator precommits the block at the given round. */
  function FullCertificate(vals: seq<Validator>, chainId: u64, height: u64, round: u32, hash: Hash): seq<Vote> {
    var data := VoteData(chainId, height, round, PrecommitVote, Some(hash));
    seq(|vals|, i requires 0 <= i < |vals| => SignVote(vals[i].address, data))
  }

  lemma {:induction false} FindIsAt(vals: seq<Validator>, i: nat)
    requires Distinct(vals) && i < |vals|
    ensures Find(vals, vals[i].address) == Some(vals[i])
  {
    if i > 0 {
      assert vals[0].address != vals[i].address;
      FindIsAt(vals[1..], i - 1);
    }
  }

  lemma FullCertificateAccepted(vals: seq<Validator>, chainId: u64, height: u64, round: u32, hash: Hash)
    requires Distinct(vals) && vals != [] && height > 0
    requires forall v :: v in vals ==> v.votingPower > 0
    ensures CommitVerdict(hash, height, Decodes(FullCertificate(vals, chainId, height, round, hash)), chainId, vals).Ok?
  {
    var votes := FullCertificate(vals, chainId, height, round, hash);
    forall v | v in votes ensures GoodPrecommit(v, hash, height, chainId, vals) {
      var i :| 0 <= i < |votes| && votes[i] == v;
      FindIsAt(vals, i);
    }
    forall v | v in vals ensures v.address in Signers(votes) {
      var i :| 0 <= i < |vals| && vals[i] == v;
      assert votes[i] in votes;
    }
    AllPower(vals, Signers(votes));
    VerdictIsProof(hash, height, Decodes(votes), chainId, vals);
  }

  lemma {:induction false} AllPower(vals: seq<Validator>, s: set<Address>)
    requires forall v :: v in vals ==> v.address in s
    ensures PowerOf(vals, s) == TotalPower(vals)
    ensures vals != [] && vals[0].votingPower > 0 ==> TotalPower(vals) > 0
  {
    if vals != [] { AllPower(vals[1..], s); }
  }

  /**
   Across rounds the same fork leaves no evidence: for every validator set two certificates for
   different blocks at rounds r and r' are both accepted, and no pair of their votes convicts.
   */
  lemma CrossRoundForkLeavesNoEvidence(vals: seq<Validator>, chainId: u64, height: u64, r: u32, r': u32, b: Hash,
                                       b': Hash)
    requires Distinct(vals) && vals != [] && height > 0 && r != r' && b != b'
    requires forall v :: v in vals ==> v.votingPower > 0
    ensures var c, c' := FullCertificate(vals, chainId, height, r, b), FullCertificate(vals, chainId, height, r', b');
      && CommitVerdict(b, height, Decodes(c), chainId, vals).Ok?
      && CommitVerdict(b', height, Decodes(c'), chainId, vals).Ok?
      && forall x, y | x in c + c' && y in c + c' ::
        VerifyEquivocation(EquivocationEvidence(x, y), chainId, vals).Err?
  {
    FullCertificateAccepted(vals, chainId, height, r, b);
    FullCertificateAccepted(vals, chainId, height, r', b');
    var c, c' := FullCertificate(vals, chainId, height, r, b), FullCertificate(vals, chainId, height, r', b');
    assert forall x :: x in c ==> x.data.round == r && x.data.blockHash == Some(b);
    assert forall x :: x in c' ==> x.data.round == r' && x.data.blockHash == Some(b');
  }
}
