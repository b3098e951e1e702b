/** Names shared by the state machine, the vote pool and the network model. */
module ConsensusTypes {
  import opened Common

  /** A block hash; hashing is abstract, only equality matters. */
  type Hash = nat

  /** A 20-byte address read as a big-endian number, so byte order is numeric order. */
  type Address = nat

  datatype VoteType = PrevoteVote | PrecommitVote

  /** A vote before signing: what a validator says, and in which (height, round, type) slot. */
  datatype Ballot = Ballot(height: u64, round: u32, voteType: VoteType, target: Option<Hash>)

  /** Where a validator stands in the protocol; stages are numbered within a round. */
  datatype Position = Position(height: u64, round: u32, stage: nat)

  predicate Before(p: Position, q: Position) {
    p.height < q.height
    || (p.height == q.height && (p.round < q.round || (p.round == q.round && p.stage < q.stage)))
  }

  predicate NotAfter(p: Position, q: Position) {
    p == q || Before(p, q)
  }

  function SlotOf(b: Ballot): Position {
    Position(b.height, b.round, if b.voteType == PrevoteVote then 1 else 2)
  }
}
