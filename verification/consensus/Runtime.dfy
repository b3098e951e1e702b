/** Between tallies and the machine: the quorum events of a poll, the proposal cache, and applied commits. */
module Runtime {
  import opened Common
  import opened ConsensusTypes
  import opened ConsensusFsm
  import opened VotingPower
  import opened Votes

  const PROPOSAL_CACHE_CAP: nat := 64
  /** Milliseconds between two applied blocks. */
  const MIN_BLOCK_INTERVAL: nat := 5000

  datatype QuorumKey = QuorumKey(height: u64, round: u32, voteType: VoteType, target: Option<Hash>)

  function EventOf(k: QuorumKey): Event {
    match k.voteType
    case PrevoteVote => PrevoteQuorum(k.height, k.round, k.target)
    case PrecommitVote => PrecommitQuorum(k.height, k.round, k.target)
  }

  predicate Crossed(pool: Pool, k: QuorumKey, vals: seq<Validator>) {
    TotalPower(vals) > 0
    && PowerOf(vals, Supporters(SlotAt(pool, Slot(k.height, k.round, k.voteType)), k.target)) >= Quorum(vals)
  }

  /** Quorums of the current height and round that were not announced before. */
  function FreshQuorums(f: Fsm, pool: Pool, emitted: set<QuorumKey>, vals: seq<Validator>): set<QuorumKey> {
    FreshOfType(f, pool, PrevoteVote, emitted, vals) + FreshOfType(f, pool, PrecommitVote, emitted, vals)
  }

  function FreshOfType(f: Fsm, pool: Pool, vt: VoteType, emitted: set<QuorumKey>,
                       vals: seq<Validator>): set<QuorumKey> {
    var slot := SlotAt(pool, Slot(f.height, f.round, vt));
    set a | a in slot && (var k := QuorumKey(f.height, f.round, vt, slot[a].data.blockHash);
                          k !in emitted && Crossed(pool, k, vals))
      :: QuorumKey(f.height, f.round, vt, slot[a].data.blockHash)
  }

  lemma PollFinds(f: Fsm, pool: Pool, vt: VoteType, emitted: set<QuorumKey>, vals: seq<Validator>, k: QuorumKey)
    ensures k in FreshOfType(f, pool, vt, emitted, vals) <==>
      k.height == f.height && k.round == f.round && k.voteType == vt && k !in emitted && Crossed(pool, k, vals)
  {
    if k.height == f.height && k.round == f.round && k.voteType == vt && k !in emitted && Crossed(pool, k, vals) {
      var slot := SlotAt(pool, Slot(f.height, f.round, vt));
      if Supporters(slot, k.target) == {} {
        NoPower(vals);
      }
      var a :| a in Supporters(slot, k.target);
      assert slot[a].data.blockHash == k.target;
    }
  }

  /** A poll finds every crossed quorum of its height and round that is not yet announced. */
  lemma PollIsComplete(f: Fsm, pool: Pool, emitted: set<QuorumKey>, vals: seq<Validator>, k: QuorumKey)
    ensures k in FreshQuorums(f, pool, emitted, vals) <==>
      k.height == f.height && k.round == f.round && k !in emitted && Crossed(pool, k, vals)
  {
    PollFinds(f, pool, PrevoteVote, emitted, vals, k);
    PollFinds(f, pool, PrecommitVote, emitted, vals, k);
  }

  /** A second poll of an unchanged node announces nothing. */
  lemma PollTwiceIsSilent(f: Fsm, pool: Pool, emitted: set<QuorumKey>, vals: seq<Validator>)
    ensures FreshQuorums(f, pool, emitted + FreshQuorums(f, pool, emitted, vals), vals) == {}
  {
    var first := FreshQuorums(f, pool, emitted, vals);
    forall k | k in FreshQuorums(f, pool, emitted + first, vals) ensures false {
      PollIsComplete(f, pool, emitted, vals, k);
      PollIsComplete(f, pool, emitted + first, vals, k);
    }
  }

  /** `keys` lists the set `s`, each element once. */
  ghost predicate Lists(keys: seq<QuorumKey>, s: set<QuorumKey>) {
    && (forall i, j :: 0 <= i < j < |keys| ==> keys[i] != keys[j])
    && (forall k :: k in keys <==> k in s)
  }

  lemma ListsConcat(x: seq<QuorumKey>, s: set<QuorumKey>, y: seq<QuorumKey>, t: set<QuorumKey>)
    requires Lists(x, s) && Lists(y, t) && s !! t
    ensures Lists(x + y, s + t)
  {
    forall i, j | 0 <= i < j < |x + y| ensures (x + y)[i] != (x + y)[j] {
      if i < |x| <= j {
        assert x[i] in s && y[j - |x|] in t;
      }
    }
  }

  /** The keys of `target` already visited, when the targets in `rest` are still to come. */
  function Visited(target: set<QuorumKey>, rest: set<Option<Hash>>): set<QuorumKey> {
    set k | k in target && k.target !in rest
  }

  lemma VisitOne(target: set<QuorumKey>, rest: set<Option<Hash>>, key: QuorumKey)
    requires key.target in rest
    requires forall k :: k in target && k.target == key.target ==> k == key
    ensures key !in Visited(target, rest)
    ensures Visited(target, rest - {key.target}) == Visited(target, rest) + if key in target then {key} else {}
  {
  }

  datatype Block = Block(height: u64, hash: Hash, parent: Hash)

  datatype RuntimeError = NoProposalCached | HashMismatch | ApplyFailed

  // ───────────── dispatching actions ─────────────

  /** The applied blocks by height and their tip, the cached proposals, and when the last block was applied. */
  datatype Book = Book(
    tip: u64,
    tipHash: Hash,
    chain: map<u64, Block>,
    cache: map<u64, Block>,
    emitted: set<QuorumKey>,
    lastCommitAt: Option<nat>)

  predicate RateLimited(b: Book, now: nat) {
    b.lastCommitAt.Some? && SatSub(now, b.lastCommitAt.value) < MIN_BLOCK_INTERVAL
  }

  /** A block joins the chain at the next height, on top of the tip; `accepted` stands for its other checks. */
  predicate Applies(b: Book, block: Block, accepted: bool) {
    block.height == b.tip + 1 && block.parent == b.tipHash && accepted
  }

  function Handled(b: Book, action: Action, now: nat, accepted: bool): (Book, Result<seq<Event>, RuntimeError>) {
    match action
    case CommitBlock(height, hash) =>
      if height <= b.tip then (b, Ok([BlockApplied(height, hash)]))
      else if RateLimited(b, now) then (b, Ok([]))
      else if height !in b.cache then (b, Err(NoProposalCached))
      else
        var block, taken := b.cache[height], b.(cache := b.cache - {height});
        if block.hash != hash then (taken, Err(HashMismatch))
        else if !Applies(b, block, accepted) then (taken, Err(ApplyFailed))
        else (taken.(tip := height, tipHash := hash, chain := b.chain[height := block], lastCommitAt := Some(now)),
              Ok([BlockApplied(height, hash)]))
    case EnteredHeight(_) => (b.(emitted := {}), Ok([]))
    case _ => (b, Ok([]))
  }

  /** Actions in order, up to the first that fails. */
  function HandledAll(b: Book, actions: seq<Action>, now: nat, accepted: bool): (Book, Result<seq<Event>, RuntimeError>)
    decreases |actions|
  {
    if actions == [] then (b, Ok([]))
    else
      var n := |actions| - 1;
      var (b1, r1) := HandledAll(b, actions[..n], now, accepted);
      if r1.Err? then (b1, r1)
      else
        var (b2, r2) := Handled(b1, actions[n], now, accepted);
        (b2, if r2.Err? then r2 else Ok(r1.value + r2.value))
  }

  lemma {:induction false} ErrorsStick(b: Book, actions: seq<Action>, i: nat, now: nat, accepted: bool)
    requires i <= |actions| && HandledAll(b, actions[..i], now, accepted).1.Err?
    ensures HandledAll(b, actions, now, accepted) == HandledAll(b, actions[..i], now, accepted)
    decreases |actions|
  {
    if i == |actions| {
      assert actions[..i] == actions;
    } else {
      assert actions[..|actions|-1][..i] == actions[..i];
      ErrorsStick(b, actions[..|actions|-1], i, now, accepted);
    }
  }

  /** The cached proposal a commit request would apply now. */
  predicate Committable(b: Book, action: Action, now: nat, accepted: bool) {
    && action.CommitBlock? && action.height == b.tip + 1 && !RateLimited(b, now) && action.height in b.cache
    && b.cache[action.height].hash == action.hash && b.cache[action.height].parent == b.tipHash && accepted
  }

  /** The chain grows exactly by the requested block when that can be applied, and by nothing otherwise. */
  lemma CommitAppliesIff(b: Book, action: Action, now: nat, accepted: bool)
    requires forall h :: h in b.cache ==> b.cache[h].height == h
    requires forall h :: h in b.chain ==> h <= b.tip
    ensures var (b', r) := Handled(b, action, now, accepted);
      && (b'.chain != b.chain <==> Committable(b, action, now, accepted))
      && (Committable(b, action, now, accepted) ==>
            && b'.chain == b.chain[action.height := b.cache[action.height]] && b'.tip == action.height
            && b'.tipHash == action.hash && r == Ok([BlockApplied(action.height, action.hash)]))
      && (!Committable(b, action, now, accepted) ==>
            b'.tip == b.tip && b'.tipHash == b.tipHash && b'.lastCommitAt == b.lastCommitAt)
  {
    if Committable(b, action, now, accepted) {
      assert action.height !in b.chain;
    }
  }

  /** Every applied block sits at its height on top of the one below it, up to the tip. */
  predicate Linked(b: Book) {
    && (forall h :: h in b.cache ==> b.cache[h].height == h)
    && (forall h :: h in b.chain ==> h <= b.tip && b.chain[h].height == h)
    && (b.tip in b.chain ==> b.chain[b.tip].hash == b.tipHash)
    && (forall h, g :: h in b.chain && g in b.chain && g == h + 1 ==> b.chain[g].parent == b.chain[h].hash)
  }

  datatype Request = Request(action: Action, now: nat, accepted: bool)

  /** A run of requests, and the times at which blocks were applied. */
  function Served(b: Book, reqs: seq<Request>): (Book, seq<nat>)
    decreases |reqs|
  {
    if reqs == [] then (b, [])
    else
      var next := Handled(b, reqs[0].action, reqs[0].now, reqs[0].accepted).0;
      var (last, times) := Served(next, reqs[1..]);
      (last, (if next.tip > b.tip then [reqs[0].now] else []) + times)
  }

  predicate Later(last: Option<nat>, t: nat) {
    last.Some? ==> t >= last.value + MIN_BLOCK_INTERVAL
  }

  /** Each time is at least a block interval after those before it, and after `last`. */
  predicate Spaced(last: Option<nat>, times: seq<nat>) {
    && (forall i :: 0 <= i < |times| ==> Later(last, times[i]))
    && (forall i, j :: 0 <= i < j < |times| ==> times[j] >= times[i] + MIN_BLOCK_INTERVAL)
  }

  /** Over any run of requests the chain stays linked, and blocks are applied an interval apart. */
  lemma {:induction false} ChainStaysLinked(b: Book, reqs: seq<Request>)
    requires Linked(b)
    ensures Linked(Served(b, reqs).0) && Spaced(b.lastCommitAt, Served(b, reqs).1)
    decreases |reqs|
  {
    if reqs != [] {
      var q, rest := reqs[0], reqs[1..];
      var next := Handled(b, q.action, q.now, q.accepted).0;
      LinkedStep(b, q);
      ChainStaysLinked(next, rest);
      if next.tip > b.tip {
        SpacedCons(b.lastCommitAt, q.now, Served(next, rest).1);
      } else {
        assert [] + Served(next, rest).1 == Served(next, rest).1;
      }
    }
  }

  lemma SpacedCons(last: Option<nat>, t: nat, times: seq<nat>)
    requires Later(last, t) && Spaced(Some(t), times)
    ensures Spaced(last, [t] + times)
  {
  }

  lemma LinkedStep(b: Book, q: Request)
    requires Linked(b)
    ensures var next := Handled(b, q.action, q.now, q.accepted).0;
      Linked(next) && next.tip >= b.tip
      && (next.tip > b.tip ==> next.lastCommitAt == Some(q.now) && Later(b.lastCommitAt, q.now))
      && (next.tip == b.tip ==> next.lastCommitAt == b.lastCommitAt)
  {
  }

  class FsmRuntime {
    const fsm: FsmState
    const votePool: VotePool
    var proposalCache: map<u64, Block>
    var emitted: set<QuorumKey>
    var lastCommitAt: Option<nat>
    /** The applied chain, by height, and its tip: all of the node state this layer touches. */
    var tip: u64
    var tipHash: Hash
    var chain: map<u64, Block>

    function View(): Book
      reads this
    {
      Book(tip, tipHash, chain, proposalCache, emitted, lastCommitAt)
    }

    ghost predicate Valid()
      reads this, votePool
    {
      votePool.Valid() && |proposalCache| <= PROPOSAL_CACHE_CAP
      && forall h :: h in proposalCache ==> proposalCache[h].height == h
    }

    /** The machine starts at the height above the tip, without a commit to rate-limit against. */
    constructor (tip: u64, tipHash: Hash, chain: map<u64, Block>, votePool: VotePool, timeouts: Timeouts, now: nat)
      requires votePool.Valid()
      ensures Valid() && this.votePool == votePool && View() == Book(tip, tipHash, chain, map[], {}, None)
      ensures fresh(fsm) && fsm.View() == NewFsm(SatAdd64(tip, 1), timeouts, now)
    {
      this.fsm := new FsmState(SatAdd64(tip, 1), timeouts, now);
      this.votePool := votePool;
      this.tip, this.tipHash, this.chain := tip, tipHash, chain;
      this.proposalCache, this.emitted, this.lastCommitAt := map[], {}, None;
    }

    /** Insert a proposal, then drop the lowest heights until the cache fits its capacity. */
    method CacheProposal(block: Block)
      requires Valid()
      modifies this`proposalCache
      ensures Valid()
      ensures var full := old(proposalCache)[block.height := block];
        && proposalCache.Keys <= full.Keys
        && (forall h :: h in proposalCache ==> proposalCache[h] == full[h])
        && (forall h, d :: h in proposalCache && d in full && d !in proposalCache ==> d < h)
        && |proposalCache| == Min(|full|, PROPOSAL_CACHE_CAP)
    {
      proposalCache := proposalCache[block.height := block];
      ghost var full := proposalCache;
      assert proposalCache.Keys == old(proposalCache).Keys + {block.height};
      while |proposalCache| > PROPOSAL_CACHE_CAP
        invariant proposalCache.Keys <= full.Keys
        invariant |proposalCache| >= Min(|full|, PROPOSAL_CACHE_CAP)
        invariant forall h :: h in proposalCache ==> proposalCache[h] == full[h]
        invariant forall h, d :: h in proposalCache && d in full && d !in proposalCache ==> d < h
        decreases |proposalCache|
      {
        var smallest := Lowest(proposalCache.Keys);
        ghost var before := proposalCache;
        proposalCache := proposalCache - {smallest};
        assert proposalCache.Keys == before.Keys - {smallest};
      }
    }

    /** Announce each newly crossed quorum of the current height and round exactly once. */
    method PollVoteQuorums(vals: seq<Validator>) returns (events: seq<Event>, ghost keys: seq<QuorumKey>)
      requires Valid() && GoodSet(vals)
      modifies this`emitted
      ensures Valid()
      ensures emitted == old(emitted) + FreshQuorums(fsm.View(), votePool.inner, old(emitted), vals)
      ensures Lists(keys, FreshQuorums(fsm.View(), votePool.inner, old(emitted), vals))
      ensures |events| == |keys| && forall i :: 0 <= i < |keys| ==> events[i] == EventOf(keys[i])
    {
      ghost var view, pool := fsm.View(), votePool.inner;
      if TotalPower(vals) == 0 {
        assert FreshQuorums(view, pool, emitted, vals) == {};
        return [], [];
      }
      var prevotes := PollType(PrevoteVote, vals);
      assert FreshOfType(view, pool, PrecommitVote, emitted, vals)
          == FreshOfType(view, pool, PrecommitVote, old(emitted), vals);
      var precommits := PollType(PrecommitVote, vals);
      var all := prevotes + precommits;
      keys := all;
      ListsConcat(prevotes, FreshOfType(view, pool, PrevoteVote, old(emitted), vals),
                  precommits, FreshOfType(view, pool, PrecommitVote, old(emitted), vals));
      events := seq(|all|, i requires 0 <= i < |all| => EventOf(all[i]));
    }

    method PollType(vt: VoteType, vals: seq<Validator>) returns (keys: seq<QuorumKey>)
      requires Valid() && GoodSet(vals) && TotalPower(vals) > 0
      modifies this`emitted
      ensures Valid()
      ensures emitted == old(emitted) + FreshOfType(fsm.View(), votePool.inner, vt, old(emitted), vals)
      ensures Lists(keys, FreshOfType(fsm.View(), votePool.inner, vt, old(emitted), vals))
    {
      ghost var view, pool := fsm.View(), votePool.inner;
      ghost var target := FreshOfType(view, pool, vt, emitted, vals);
      var h, r := fsm.height, fsm.round;
      var tally := votePool.TallyFor(h, r, vt, vals);
      forall t | t in tally
        ensures QuorumKey(h, r, vt, t) in target <==>
          tally[t] >= 2 * TotalPower(vals) / 3 + 1 && QuorumKey(h, r, vt, t) !in emitted
      {
        PollFinds(view, pool, vt, emitted, vals, QuorumKey(h, r, vt, t));
      }
      forall k | k in target ensures k.target in tally {
        PollFinds(view, pool, vt, emitted, vals, k);
      }
      keys := Announce(h, r, vt, tally, 2 * TotalPower(vals) / 3 + 1, target);
    }

    /** Announces each target whose tally reached the quorum and which was not announced before. */
    method Announce(h: u64, r: u32, vt: VoteType, tally: map<Option<Hash>, u64>, quorum: nat,
                    ghost target: set<QuorumKey>)
      returns (keys: seq<QuorumKey>)
      requires forall k :: k in target ==> k == QuorumKey(h, r, vt, k.target) && k.target in tally
      requires forall t :: t in tally ==>
        (QuorumKey(h, r, vt, t) in target <==> tally[t] >= quorum && QuorumKey(h, r, vt, t) !in emitted)
      modifies this`emitted
      ensures emitted == old(emitted) + target && Lists(keys, target)
    {
      keys := [];
      var rest := tally.Keys;
      while rest != {}
        invariant rest <= tally.Keys
        invariant Lists(keys, Visited(target, rest))
        invariant emitted == old(emitted) + Visited(target, rest)
      {
        var t :| t in rest;
        var key := QuorumKey(h, r, vt, t);
        VisitOne(target, rest, key);
        if tally[t] >= quorum && key !in emitted {
          emitted := emitted + {key};
          ListsConcat(keys, Visited(target, rest), [key], {key});
          keys := keys + [key];
        }
        rest := rest - {t};
      }
      assert target == Visited(target, rest);
    }

    /** Apply a commit request, or answer an action that needs no work here. */
    method HandleAction(action: Action, now: nat, accepted: bool) returns (r: Result<seq<Event>, RuntimeError>)
      requires Valid()
      modifies this`proposalCache, this`emitted, this`lastCommitAt, this`tip, this`tipHash, this`chain
      ensures Valid() && (View(), r) == Handled(old(View()), action, now, accepted)
    {
      match action
      case CommitBlock(height, hash) =>
        if height <= tip {
          return Ok([BlockApplied(height, hash)]);
        }
        if lastCommitAt.Some? {
          var elapsed := SatSub(now, lastCommitAt.value);
          if elapsed < MIN_BLOCK_INTERVAL {
            return Ok([]);
          }
        }
        if height !in proposalCache {
          return Err(NoProposalCached);
        }
        var block := proposalCache[height];
        ghost var before := proposalCache;
        proposalCache := proposalCache - {height};
        assert proposalCache.Keys == before.Keys - {height};
        if block.hash != hash {
          return Err(HashMismatch);
        }
        if block.height != tip + 1 || block.parent != tipHash || !accepted {
          return Err(ApplyFailed);
        }
        tip, tipHash := height, hash;
        chain := chain[height := block];
        lastCommitAt := Some(now);
        r := Ok([BlockApplied(height, hash)]);
      case EnteredHeight(_) =>
        emitted := {};
        r := Ok([]);
      case _ =>
        r := Ok([]);
    }

    /** One clock tick: step the machine and dispatch its actions; the events to feed back come out. */
    method TickOnce(now: nat, amProposer: bool, accepted: bool) returns (r: Result<seq<Event>, RuntimeError>)
      requires Valid() && fsm as object != votePool
      modifies this, fsm
      ensures Valid()
      ensures fsm.View() == OnTick(old(fsm.View()), amProposer, now).0
      ensures (View(), r) == HandledAll(old(View()), OnTick(old(fsm.View()), amProposer, now).1, now, accepted)
    {
      ghost var before := View();
      var actions := fsm.Advance(Tick(now), amProposer, now);
      r := Ok([]);
      for i := 0 to |actions|
        invariant Valid() && fsm.View() == OnTick(old(fsm.View()), amProposer, now).0
        invariant r.Ok? && (View(), r) == HandledAll(before, actions[..i], now, accepted)
      {
        var out := HandleAction(actions[i], now, accepted);
        assert actions[..i+1][..i] == actions[..i];
        if out.Err? {
          r := out;
          ErrorsStick(before, actions, i + 1, now, accepted);
          return;
        }
        r := Ok(r.value + out.value);
      }
      assert actions[..|actions|] == actions;
    }
  }
}
