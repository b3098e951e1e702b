/** A run in which a certificate that mixes rounds is accepted for a block nobody commits. */
module MixedRounds {
  import opened Common
  import opened ConsensusTypes
  import opened ConsensusFsm
  import opened FsmSafety
  import opened VotingPower
  import opened Votes
  import opened Certificates
  import opened Evidence
  import opened Runtime
  import opened Network
  import opened Agreement

  /** Four validators of one unit each; the fourth is faulty. */
  function Four(): seq<Validator> {
    [Validator(1, 1), Validator(2, 1), Validator(3, 1), Validator(4, 1)]
  }

  function Quartet(chainId: u64): Config {
    Config(chainId, (h: u64) => Four(), {1, 2, 3})
  }

  lemma FourPower(s: set<Address>)
    ensures PowerOf(Four(), s) == (if 1 in s then 1 else 0) + (if 2 in s then 1 else 0)
                                + (if 3 in s then 1 else 0) + if 4 in s then 1 else 0
    ensures TotalPower(Four()) == 4 && Quorum(Four()) == 3
  {
    var v4 := [Validator(4, 1)];
    var v3 := [Validator(3, 1)] + v4;
    var v2 := [Validator(2, 1)] + v3;
    assert v4[1..] == [] && v3[1..] == v4 && v2[1..] == v3 && Four()[1..] == v2;
    assert PowerOf(v4, s) == if 4 in s then 1 else 0;
    assert PowerOf(v3, s) == (if 3 in s then 1 else 0) + PowerOf(v4, s);
    assert PowerOf(v2, s) == (if 2 in s then 1 else 0) + PowerOf(v3, s);
    assert TotalPower(v4) == 1 && TotalPower(v3) == 2 && TotalPower(v2) == 3;
  }

  lemma FourMember(a: Address)
    requires a in {1, 2, 3, 4}
    ensures Member(Four(), a)
  {
    var v := Four();
    assert a == v[a - 1].address;
    FindIsAt(v, a - 1);
  }

  lemma QuartetIsSound(chainId: u64)
    ensures Sound(Quartet(chainId))
  {
    forall h: u64 ensures 3 * PowerOf(Four(), Faulty(Quartet(chainId), h)) < TotalPower(Four()) {
      FourPower(Faulty(Quartet(chainId), h));
    }
  }

  // ───────────── runs in pieces ─────────────

  ghost predicate Leads(cfg: Config, w: World, w': World) {
    exists moves :: Run(cfg, w, moves, w')
  }

  lemma {:induction false} RunConcat(cfg: Config, w: World, ms: seq<Move>, v: World, ns: seq<Move>, u: World)
    requires Run(cfg, w, ms, v) && Run(cfg, v, ns, u)
    ensures Run(cfg, w, ms + ns, u)
    decreases ms
  {
    if ms == [] {
      assert ms + ns == ns;
    } else {
      RunConcat(cfg, Next(cfg, w, ms[0]), ms[1..], v, ns, u);
      assert (ms + ns)[0] == ms[0] && (ms + ns)[1..] == ms[1..] + ns;
    }
  }

  /** The network goes from w to w', and of the honest nodes only those in `s` may have moved. */
  ghost predicate Only(cfg: Config, w: World, s: set<Address>, w': World) {
    && Leads(cfg, w, w') && w'.nodes.Keys == w.nodes.Keys && w.sent <= w'.sent && w.commits <= w'.commits
    && forall m :: m in w.nodes && m !in s ==> w'.nodes[m] == w.nodes[m]
  }

  lemma OnlyTrans(cfg: Config, w: World, s: set<Address>, v: World, t: set<Address>, u: World)
    requires Only(cfg, w, s, v) && Only(cfg, v, t, u)
    ensures Only(cfg, w, s + t, u)
  {
    var ms :| Run(cfg, w, ms, v);
    var ns :| Run(cfg, v, ns, u);
    RunConcat(cfg, w, ms, v, ns, u);
  }

  lemma OneMove(cfg: Config, w: World, m: Move)
    requires Enabled(cfg, w, m)
    ensures Leads(cfg, w, Next(cfg, w, m))
  {
    assert [m][1..] == [];
    assert Run(cfg, Next(cfg, w, m), [], Next(cfg, w, m));
    assert Run(cfg, w, [m], Next(cfg, w, m));
  }

  /** Where a node stands: its machine, and the slots it holds votes of; it announced nothing of other slots. */
  predicate Stands(w: World, n: Address, f: Fsm, heard: set<Slot>) {
    && n in w.nodes && w.nodes[n].fsm == f && w.nodes[n].pool.Keys == heard
    && forall k :: k in w.nodes[n].emitted ==> Slot(k.height, k.round, k.voteType) in heard
  }

  // ───────────── moves of one node ─────────────

  function KeyFor(b: Ballot): QuorumKey {
    QuorumKey(b.height, b.round, b.voteType, b.target)
  }

  function SlotFor(b: Ballot): Slot {
    Slot(b.height, b.round, b.voteType)
  }

  lemma Feeds(cfg: Config, w: World, n: Address, f: Fsm, heard: set<Slot>, ev: Event, g: Fsm, acts: seq<Action>)
    returns (w': World)
    requires Stands(w, n, f, heard) && Enabled(cfg, w, Feed(n, ev, false, 0))
    requires StepFsm(f, ev, false, 0) == (g, acts) && g.height == f.height
    ensures Only(cfg, w, {n}, w') && Stands(w', n, g, heard)
    ensures forall b :: b in BallotsOf(g, acts) ==> VoteOf(cfg, n, b) in w'.sent
    ensures forall a :: a in acts && a.CommitBlock? ==> CommitRecord(n, a.height, a.hash) in w'.commits
  {
    w' := Next(cfg, w, Feed(n, ev, false, 0));
    OneMove(cfg, w, Feed(n, ev, false, 0));
  }

  lemma Delivers(cfg: Config, w: World, n: Address, f: Fsm, heard: set<Slot>, a: Address, b: Ballot) returns (w': World)
    requires Stands(w, n, f, heard) && a in {1, 2, 3, 4} && VoteOf(cfg, a, b) in w.sent
    requires a !in SlotAt(w.nodes[n].pool, SlotFor(b))
    ensures Only(cfg, w, {n}, w') && w'.sent == w.sent && Stands(w', n, f, heard + {SlotFor(b)})
    ensures w'.nodes[n].emitted == w.nodes[n].emitted
    ensures SlotAt(w'.nodes[n].pool, SlotFor(b)) == SlotAt(w.nodes[n].pool, SlotFor(b))[a := VoteOf(cfg, a, b)]
  {
    var v := VoteOf(cfg, a, b);
    FourMember(a);
    w' := Next(cfg, w, Deliver(n, v, Four()));
    OneMove(cfg, w, Deliver(n, v, Four()));
  }

  lemma Polls(cfg: Config, w: World, n: Address, f: Fsm, heard: set<Slot>, k: QuorumKey) returns (w': World)
    requires Stands(w, n, f, heard) && k !in w.nodes[n].emitted
    requires k.height == f.height && k.round == f.round && Crossed(w.nodes[n].pool, k, cfg.vals(f.height))
    ensures Only(cfg, w, {n}, w') && Stands(w', n, f, heard) && EventOf(k) in w'.nodes[n].pending
  {
    var node, vals := w.nodes[n], cfg.vals(f.height);
    w' := Next(cfg, w, Poll(n));
    OneMove(cfg, w, Poll(n));
    PollIsComplete(f, node.pool, node.emitted, vals, k);
    forall j | j in FreshQuorums(f, node.pool, node.emitted, vals)
      ensures Slot(j.height, j.round, j.voteType) in heard
    {
      PollIsComplete(f, node.pool, node.emitted, vals, j);
      NoPower(vals);
      assert SlotAt(node.pool, Slot(j.height, j.round, j.voteType)) == map[] ==> Supporters(map[], j.target) == {};
    }
  }

  /** Both validators and the faulty one sent the ballot. */
  predicate Trio(cfg: Config, sent: set<Vote>, p: Address, q: Address, b: Ballot) {
    && p in {1, 2, 3} && q in {1, 2, 3} && p != q
    && VoteOf(cfg, p, b) in sent && VoteOf(cfg, q, b) in sent && VoteOf(cfg, 4, b) in sent
  }

  lemma ThreeSupport(cfg: Config, p: Address, q: Address, b: Ballot)
    requires p != q && p != 4 && q != 4
    ensures var slot := map[][p := VoteOf(cfg, p, b)][q := VoteOf(cfg, q, b)][4 := VoteOf(cfg, 4, b)];
      {p, q, 4} <= Supporters(slot, b.target)
  {
  }

  /** Three votes for a slot the node held nothing of: it now sees all three support the target. */
  lemma Receives(chainId: u64, w: World, n: Address, f: Fsm, heard: set<Slot>, p: Address, q: Address, b: Ballot)
    returns (w': World)
    requires Stands(w, n, f, heard) && Trio(Quartet(chainId), w.sent, p, q, b) && SlotFor(b) !in heard
    ensures Only(Quartet(chainId), w, {n}, w') && Stands(w', n, f, heard + {SlotFor(b)})
    ensures w'.nodes[n].emitted == w.nodes[n].emitted
    ensures {p, q, 4} <= Supporters(SlotAt(w'.nodes[n].pool, SlotFor(b)), b.target)
  {
    var cfg := Quartet(chainId);
    var w1 := Delivers(cfg, w, n, f, heard, p, b);
    var w2 := Delivers(cfg, w1, n, f, heard + {SlotFor(b)}, q, b);
    OnlyTrans(cfg, w, {n}, w1, {n}, w2);
    assert {n} + {n} == {n} && heard + {SlotFor(b)} + {SlotFor(b)} == heard + {SlotFor(b)};
    w' := Delivers(cfg, w2, n, f, heard + {SlotFor(b)}, 4, b);
    OnlyTrans(cfg, w, {n}, w2, {n}, w');
    ThreeSupport(cfg, p, q, b);
  }

  /** A node receives three votes for its current slot and polls: the quorum is found. */
  lemma Hears(chainId: u64, w: World, n: Address, f: Fsm, heard: set<Slot>, p: Address, q: Address, b: Ballot)
    returns (w': World)
    requires Stands(w, n, f, heard) && Trio(Quartet(chainId), w.sent, p, q, b)
    requires b.height == f.height && b.round == f.round && SlotFor(b) !in heard
    ensures Only(Quartet(chainId), w, {n}, w') && Stands(w', n, f, heard + {SlotFor(b)})
    ensures EventOf(KeyFor(b)) in w'.nodes[n].pending
  {
    var cfg := Quartet(chainId);
    var v := Receives(chainId, w, n, f, heard, p, q, b);
    FourPower(Supporters(SlotAt(v.nodes[n].pool, SlotFor(b)), b.target));
    w' := Polls(cfg, v, n, f, heard + {SlotFor(b)}, KeyFor(b));
    OnlyTrans(cfg, w, {n}, v, {n}, w');
    assert {n} + {n} == {n};
  }

  // ───────────── steps of the scenario ─────────────

  function Seen(f: Fsm, r: u32, hash: Hash): Fsm {
    f.(round := r, step := Prevote, startedAt := 0, proposal := Some(hash))
  }

  predicate CanSee(f: Fsm, r: u32) {
    f.height == 1 && f.locked.None? && (r > f.round || (r == f.round && f.step == Propose))
  }

  lemma Sees(cfg: Config, w: World, n: Address, f: Fsm, heard: set<Slot>, r: u32, hash: Hash) returns (w': World)
    requires Stands(w, n, f, heard) && CanSee(f, r)
    ensures Only(cfg, w, {n}, w') && Stands(w', n, Seen(f, r, hash), heard)
    ensures VoteOf(cfg, n, Prevotes(1, r, hash)) in w'.sent
  {
    var acts := (if r > f.round then [EnteredRound(1, r)] else []) + [BroadcastPrevote(Some(hash))];
    var g := Seen(f, r, hash);
    assert BallotsOf(g, acts) == [Prevotes(1, r, hash)] by {
      var last := [BroadcastPrevote(Some(hash))];
      assert last[1..] == [] && BallotsOf(g, last) == [Prevotes(1, r, hash)];
      if r > f.round {
        assert acts[1..] == last;
      } else {
        assert acts == last;
      }
    }
    w' := Feeds(cfg, w, n, f, heard, ProposalSeen(1, r, hash), g, acts);
  }

  lemma Signs(cfg: Config, w: World, b: Ballot) returns (w': World)
    requires 4 !in cfg.honest
    ensures Only(cfg, w, {}, w') && w'.nodes == w.nodes && VoteOf(cfg, 4, b) in w'.sent
  {
    w' := Next(cfg, w, SendFaulty(VoteOf(cfg, 4, b)));
    OneMove(cfg, w, SendFaulty(VoteOf(cfg, 4, b)));
  }

  /** Two honest validators see the proposal and prevote it, and the faulty one prevotes it too. */
  lemma Prevoted(chainId: u64, w: World, p: Address, fp: Fsm, hp: set<Slot>, q: Address, fq: Fsm, hq: set<Slot>,
                 r: u32, hash: Hash) returns (w': World)
    requires Stands(w, p, fp, hp) && Stands(w, q, fq, hq) && CanSee(fp, r) && CanSee(fq, r)
    requires p in {1, 2, 3} && q in {1, 2, 3} && p != q
    ensures Only(Quartet(chainId), w, {p, q}, w')
    ensures Stands(w', p, Seen(fp, r, hash), hp) && Stands(w', q, Seen(fq, r, hash), hq)
    ensures Trio(Quartet(chainId), w'.sent, p, q, Prevotes(1, r, hash))
  {
    var cfg := Quartet(chainId);
    var w1 := Sees(cfg, w, p, fp, hp, r, hash);
    var w2 := Sees(cfg, w1, q, fq, hq, r, hash);
    w' := Signs(cfg, w2, Prevotes(1, r, hash));
    OnlyTrans(cfg, w, {p}, w1, {q}, w2);
    OnlyTrans(cfg, w, {p} + {q}, w2, {}, w');
    assert {p} + {q} + {} == {p, q};
  }

  function Onto(f: Fsm, hash: Hash): Fsm {
    f.(step := Precommit, startedAt := 0,
       locked := Some(LockedBlock(f.round, hash)), valid := Some(ValidBlock(f.round, hash)))
  }

  /** A node that prevoted the block hears its quorum: it locks the block and precommits it. */
  lemma Locks(chainId: u64, w: World, n: Address, f: Fsm, heard: set<Slot>, p: Address, q: Address, hash: Hash)
    returns (w': World)
    requires Stands(w, n, f, heard) && Trio(Quartet(chainId), w.sent, p, q, Prevotes(1, f.round, hash))
    requires f.height == 1 && f.step == Prevote && f.proposal == Some(hash) && f.locked.None?
    requires f.valid.None? || f.valid.value.round < f.round
    requires Slot(1, f.round, PrevoteVote) !in heard
    ensures Only(Quartet(chainId), w, {n}, w') && Stands(w', n, Onto(f, hash), heard + {Slot(1, f.round, PrevoteVote)})
    ensures VoteOf(Quartet(chainId), n, Precommits(1, f.round, hash)) in w'.sent
  {
    var cfg := Quartet(chainId);
    var w1 := Hears(chainId, w, n, f, heard, p, q, Prevotes(1, f.round, hash));
    var acts := [BroadcastPrecommit(Some(hash))];
    assert BallotsOf(Onto(f, hash), acts) == [Precommits(1, f.round, hash)];
    w' := Feeds(cfg, w1, n, f, heard + {Slot(1, f.round, PrevoteVote)},
                PrevoteQuorum(1, f.round, Some(hash)), Onto(f, hash), acts);
    OnlyTrans(cfg, w, {n}, w1, {n}, w');
    assert {n} + {n} == {n};
  }

  /** The machine after it moved to round r without a proposal and heard a prevote quorum for another block. */
  function Freed(f: Fsm, r: u32, hash: Hash): Fsm {
    f.EnterRound(r, 0).(step := Precommit, locked := None, valid := Some(ValidBlock(r, hash)))
  }

  /** A locked node hears a later round's quorum for another block: the lock is released. */
  lemma Yields(chainId: u64, w: World, n: Address, f: Fsm, heard: set<Slot>, r: u32, p: Address, q: Address, hash: Hash)
    returns (w': World)
    requires Stands(w, n, f, heard) && Trio(Quartet(chainId), w.sent, p, q, Prevotes(1, r, hash))
    requires f.height == 1 && f.round < r && f.locked.Some? && f.locked.value.round < r && f.locked.value.hash != hash
    requires f.valid.None? || f.valid.value.round < r
    requires Slot(1, r, PrevoteVote) !in heard
    ensures Only(Quartet(chainId), w, {n}, w') && Stands(w', n, Freed(f, r, hash), heard + {Slot(1, r, PrevoteVote)})
  {
    var cfg := Quartet(chainId);
    var w1 := Feeds(cfg, w, n, f, heard, HigherRoundSeen(1, r), f.EnterRound(r, 0), [EnteredRound(1, r)]);
    var w2 := Hears(chainId, w1, n, f.EnterRound(r, 0), heard, p, q, Prevotes(1, r, hash));
    w' := Feeds(cfg, w2, n, f.EnterRound(r, 0), heard + {Slot(1, r, PrevoteVote)},
                PrevoteQuorum(1, r, Some(hash)), Freed(f, r, hash), [BroadcastPrecommit(None)]);
    OnlyTrans(cfg, w, {n}, w1, {n}, w2);
    OnlyTrans(cfg, w, {n} + {n}, w2, {n}, w');
    assert {n} + {n} + {n} == {n};
  }

  /** A node hears a precommit quorum of its round and asks for the block to be committed. */
  lemma Commits(chainId: u64, w: World, n: Address, f: Fsm, heard: set<Slot>, p: Address, q: Address, hash: Hash)
    returns (w': World)
    requires Stands(w, n, f, heard) && Trio(Quartet(chainId), w.sent, p, q, Precommits(1, f.round, hash))
    requires f.height == 1 && Slot(1, f.round, PrecommitVote) !in heard
    ensures Only(Quartet(chainId), w, {n}, w') && CommitRecord(n, 1, hash) in w'.commits
  {
    var cfg := Quartet(chainId);
    var w1 := Hears(chainId, w, n, f, heard, p, q, Precommits(1, f.round, hash));
    var g := f.(committing := Some(hash), step := Commit, startedAt := 0);
    var acts := [CommitBlock(1, hash)];
    assert acts[0] in acts;
    w' := Feeds(cfg, w1, n, f, heard + {Slot(1, f.round, PrecommitVote)},
                PrecommitQuorum(1, f.round, Some(hash)), g, acts);
    OnlyTrans(cfg, w, {n}, w1, {n}, w');
    assert {n} + {n} == {n};
  }

  // ───────────── the scenario ─────────────

  function Fresh(t: Timeouts): Fsm {
    NewFsm(1, t, 0)
  }

  function Start(t: Timeouts): World {
    var node := Node(Fresh(t), map[], {}, {});
    World(map[1 := node, 2 := node, 3 := node], {}, {})
  }

  function PrevoteSlot(r: u32): Slot {
    Slot(1, r, PrevoteVote)
  }

  /** Node 1 after round 0 (locked on x) and round 1 (freed by y). */
  function FreedFirst(t: Timeouts, x: Hash, y: Hash): Fsm {
    Freed(Onto(Seen(Fresh(t), 0, x), x), 1, y)
  }

  /** Rounds 0 and 1: node 1 precommits x, then a prevote quorum for y frees it. */
  lemma TwoRounds(chainId: u64, t: Timeouts, x: Hash, y: Hash) returns (w: World)
    requires x != y
    ensures Only(Quartet(chainId), Start(t), {1, 2, 3}, w)
    ensures Stands(w, 1, FreedFirst(t, x, y), {PrevoteSlot(0), PrevoteSlot(1)})
    ensures Stands(w, 2, Seen(Fresh(t), 1, y), {}) && Stands(w, 3, Seen(Fresh(t), 1, y), {})
    ensures VoteOf(Quartet(chainId), 1, Precommits(1, 0, x)) in w.sent
  {
    var cfg, f := Quartet(chainId), Fresh(t);
    var w1 := Prevoted(chainId, Start(t), 1, f, {}, 3, f, {}, 0, x);
    var w2 := Locks(chainId, w1, 1, Seen(f, 0, x), {}, 1, 3, x);
    OnlyTrans(cfg, Start(t), {1, 3}, w1, {1}, w2);
    assert {1, 3} + {1} == {1, 3};
    var w3 := Prevoted(chainId, w2, 2, f, {}, 3, Seen(f, 0, x), {}, 1, y);
    OnlyTrans(cfg, Start(t), {1, 3}, w2, {2, 3}, w3);
    assert {1, 3} + {2, 3} == {1, 2, 3};
    w := Yields(chainId, w3, 1, Onto(Seen(f, 0, x), x), {PrevoteSlot(0)}, 1, 2, 3, y);
    OnlyTrans(cfg, Start(t), {1, 2, 3}, w3, {1}, w);
    assert {1, 2, 3} + {1} == {1, 2, 3};
  }

  /** Round 2: node 2 precommits x. */
  lemma ThirdRound(chainId: u64, w: World, f: Fsm, x: Hash) returns (w': World)
    requires Stands(w, 2, f, {}) && Stands(w, 3, f, {}) && CanSee(f, 2) && f.valid.None?
    ensures Only(Quartet(chainId), w, {2, 3}, w') && Stands(w', 3, Seen(f, 2, x), {})
    ensures VoteOf(Quartet(chainId), 2, Precommits(1, 2, x)) in w'.sent
  {
    var cfg := Quartet(chainId);
    var w1 := Prevoted(chainId, w, 2, f, {}, 3, f, {}, 2, x);
    w' := Locks(chainId, w1, 2, Seen(f, 2, x), {}, 2, 3, x);
    OnlyTrans(cfg, w, {2, 3}, w1, {2}, w');
    assert {2, 3} + {2} == {2, 3};
  }

  /** Round 3: nodes 1 and 3 precommit y with the faulty validator, and node 1 commits y. */
  lemma FourthRound(chainId: u64, w: World, f1: Fsm, h1: set<Slot>, f3: Fsm, y: Hash) returns (w': World)
    requires Stands(w, 1, f1, h1) && Stands(w, 3, f3, {}) && CanSee(f1, 3) && CanSee(f3, 3)
    requires f1.valid.None? || f1.valid.value.round < 3
    requires f3.valid.None? || f3.valid.value.round < 3
    requires Slot(1, 3, PrevoteVote) !in h1 && Slot(1, 3, PrecommitVote) !in h1
    ensures Only(Quartet(chainId), w, {1, 3}, w') && CommitRecord(1, 1, y) in w'.commits
  {
    var cfg := Quartet(chainId);
    var w1 := Prevoted(chainId, w, 1, f1, h1, 3, f3, {}, 3, y);
    var w2 := Locks(chainId, w1, 1, Seen(f1, 3, y), h1, 1, 3, y);
    OnlyTrans(cfg, w, {1, 3}, w1, {1}, w2);
    var w3 := Locks(chainId, w2, 3, Seen(f3, 3, y), {}, 1, 3, y);
    OnlyTrans(cfg, w, {1, 3} + {1}, w2, {3}, w3);
    var w4 := Signs(cfg, w3, Precommits(1, 3, y));
    OnlyTrans(cfg, w, {1, 3} + {1} + {3}, w3, {}, w4);
    w' := Commits(chainId, w4, 1, Onto(Seen(f1, 3, y), y), h1 + {PrevoteSlot(3)}, 1, 3, y);
    OnlyTrans(cfg, w, {1, 3} + {1} + {3} + {}, w4, {1}, w');
    assert {1, 3} + {1} + {3} + {} + {1} == {1, 3};
  }

  /** One precommit for the block from each of three validators, at rounds 0, 2 and 0. */
  function MixedList(chainId: u64, x: Hash): seq<Vote> {
    var cfg := Quartet(chainId);
    [VoteOf(cfg, 1, Precommits(1, 0, x)), VoteOf(cfg, 2, Precommits(1, 2, x)), VoteOf(cfg, 4, Precommits(1, 0, x))]
  }

  lemma MixedListAccepted(chainId: u64, x: Hash)
    ensures CommitVerdict(x, 1, Decodes(MixedList(chainId, x)), chainId, Four()).Ok?
  {
    var votes := MixedList(chainId, x);
    FourMember(1);
    FourMember(2);
    FourMember(4);
    assert votes[0] in votes && votes[1] in votes && votes[2] in votes;
    FourPower(Signers(votes));
    VerdictIsProof(x, 1, Decodes(votes), chainId, Four());
  }

  /**
   For any two blocks a network within the fault bound reaches a world in which one of them is
   committed, while precommits that were really sent make up an accepted certificate for the other.
   */
  lemma MixedRoundsMislead(chainId: u64, t: Timeouts, x: Hash, y: Hash)
    returns (cfg: Config, w: World, votes: seq<Vote>)
    requires x != y
    ensures Sound(cfg) && Reachable(cfg, w) && CommitRecord(1, 1, y) in w.commits
    ensures forall v :: v in votes ==> v in w.sent
    ensures CommitVerdict(x, 1, Decodes(votes), cfg.chainId, cfg.vals(1)).Ok?
  {
    cfg, votes := Quartet(chainId), MixedList(chainId, x);
    QuartetIsSound(chainId);
    MixedListAccepted(chainId, x);
    var w2 := TwoRounds(chainId, t, x, y);
    var f := Seen(Fresh(t), 1, y);
    var w3 := ThirdRound(chainId, w2, f, x);
    OnlyTrans(cfg, Start(t), {1, 2, 3}, w2, {2, 3}, w3);
    var w4 := FourthRound(chainId, w3, FreedFirst(t, x, y), {PrevoteSlot(0), PrevoteSlot(1)}, Seen(f, 2, x), y);
    OnlyTrans(cfg, Start(t), {1, 2, 3} + {2, 3}, w3, {1, 3}, w4);
    w := Signs(cfg, w4, Precommits(1, 0, x));
    OnlyTrans(cfg, Start(t), {1, 2, 3} + {2, 3} + {1, 3}, w4, {}, w);
    var moves :| Run(cfg, Start(t), moves, w);
    assert Init(cfg, Start(t));
  }
}
