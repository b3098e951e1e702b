/**
 The network: honest nodes running the state machine on their own vote pools, faulty nodes that
 sign anything, and a set of all votes ever sent, from which delivery picks in any order.
 */
module Network {
  import opened Common
  import opened ConsensusTypes
  import opened ConsensusFsm
  import opened FsmSafety
  import opened VotingPower
  import opened Votes
  import opened Runtime

  /** The validator set is a function of the height; `honest` names the nodes that follow the code. */
  datatype Config = Config(chainId: u64, vals: u64 -> seq<Validator>, honest: set<Address>)

  datatype Node = Node(fsm: Fsm, pool: Pool, emitted: set<QuorumKey>, pending: set<Event>)

  datatype CommitRecord = CommitRecord(node: Address, height: u64, hash: Hash)

  datatype World = World(nodes: map<Address, Node>, sent: set<Vote>, commits: set<CommitRecord>)

  datatype Move =
    | SendFaulty(vote: Vote)
    | Deliver(node: Address, vote: Vote, view: seq<Validator>)
    | Prune(node: Address, minHeight: u64)
    | Poll(node: Address)
    | Feed(node: Address, ev: Event, amProposer: bool, now: nat)

  function Faulty(cfg: Config, h: u64): set<Address> {
    Addresses(cfg.vals(h)) - cfg.honest
  }

  /** At every height addresses are distinct and less than a third of the power is faulty. */
  ghost predicate Sound(cfg: Config) {
    forall h: u64 :: Distinct(cfg.vals(h)) && 3 * PowerOf(cfg.vals(h), Faulty(cfg, h)) < TotalPower(cfg.vals(h))
  }

  /** A vote that verifies under an honest validator's key. */
  predicate HonestVote(cfg: Config, v: Vote) {
    VerifySig(v) && v.validator in cfg.honest
  }

  /** The vote node `n` signs for a ballot. */
  function VoteOf(cfg: Config, n: Address, b: Ballot): Vote {
    SignVote(n, VoteData(cfg.chainId, b.height, b.round, b.voteType, b.target))
  }

  /** Nodes start at heights of their own, with empty pools; nothing has been sent or committed. */
  ghost predicate Init(cfg: Config, w: World) {
    && w.nodes.Keys == cfg.honest && w.sent == {} && w.commits == {}
    && forall n :: n in w.nodes ==>
         var f := w.nodes[n].fsm;
         w.nodes[n] == Node(NewFsm(f.height, f.timeouts, f.startedAt), map[], {}, {})
  }

  /**
   A signature of an honest key cannot be forged; delivery needs a sent vote; a quorum event is fed
   only after a poll of the node's own pool found it. Other events may be fed at any time.
   */
  predicate Enabled(cfg: Config, w: World, m: Move) {
    match m
    case SendFaulty(v) => !HonestVote(cfg, v)
    case Deliver(n, v, _) => n in w.nodes && v in w.sent
    case Prune(n, _) => n in w.nodes
    case Poll(n) => n in w.nodes
    case Feed(n, ev, _, now) =>
      && n in w.nodes
      && (ev.PrevoteQuorum? || ev.PrecommitQuorum? ==> ev in w.nodes[n].pending)
      && !Saturates(w.nodes[n].fsm, ev, now)
  }

  function Fed(cfg: Config, w: World, n: Address, ev: Event, amProposer: bool, now: nat): World
    requires n in w.nodes
  {
    var node := w.nodes[n];
    var (g, actions) := StepFsm(node.fsm, ev, amProposer, now);
    var bs := BallotsOf(g, actions);
    World(
      w.nodes[n := node.(fsm := g, emitted := if g.height != node.fsm.height then {} else node.emitted)],
      w.sent + (set b | b in bs :: VoteOf(cfg, n, b)),
      w.commits + (set a | a in actions && a.CommitBlock? :: CommitRecord(n, a.height, a.hash)))
  }

  function Next(cfg: Config, w: World, m: Move): World
    requires Enabled(cfg, w, m)
  {
    match m
    case SendFaulty(v) => w.(sent := w.sent + {v})
    case Deliver(n, v, view) =>
      var node := w.nodes[n];
      w.(nodes := w.nodes[n := node.(pool := AddVote(node.pool, cfg.chainId, v, view).0)])
    case Prune(n, minHeight) =>
      var node := w.nodes[n];
      w.(nodes := w.nodes[n := node.(pool := map k | k in node.pool && k.height >= minHeight :: node.pool[k])])
    case Poll(n) =>
      var node := w.nodes[n];
      var found := FreshQuorums(node.fsm, node.pool, node.emitted, cfg.vals(node.fsm.height));
      w.(nodes := w.nodes[n := node.(emitted := node.emitted + found,
                                     pending := node.pending + set k | k in found :: EventOf(k))])
    case Feed(n, ev, amProposer, now) => Fed(cfg, w, n, ev, amProposer, now)
  }

  /** The worlds some sequence of enabled moves leads to. */
  ghost predicate Run(cfg: Config, w: World, moves: seq<Move>, w': World)
    decreases moves
  {
    if moves == [] then w == w'
    else Enabled(cfg, w, moves[0]) && Run(cfg, Next(cfg, w, moves[0]), moves[1..], w')
  }

  ghost predicate Reachable(cfg: Config, w': World) {
    exists w, moves :: Init(cfg, w) && Run(cfg, w, moves, w')
  }
}
