/** Agreement over every run of the network of honest and faulty nodes. */
module Agreement {
  import opened Common
  import opened ConsensusTypes
  import opened ConsensusFsm
  import opened FsmSafety
  import opened VotingPower
  import opened Votes
  import opened Certificates
  import opened Evidence
  import opened Runtime
  import opened Network

  predicate Cast(cfg: Config, sent: set<Vote>, a: Address, b: Ballot) {
    VoteOf(cfg, a, b) in sent
  }

  /** Everyone who may be counted for a ballot: honest validators that cast it, and all faulty ones. */
  function Backers(cfg: Config, sent: set<Vote>, b: Ballot): set<Address> {
    set a | a in Addresses(cfg.vals(b.height)) && (a in cfg.honest ==> Cast(cfg, sent, a, b))
  }

  predicate Backed(cfg: Config, sent: set<Vote>, b: Ballot) {
    PowerOf(cfg.vals(b.height), Backers(cfg, sent, b)) >= Quorum(cfg.vals(b.height))
  }

  function Prevotes(h: u64, r: u32, hash: Hash): Ballot { Ballot(h, r, PrevoteVote, Some(hash)) }

  function Precommits(h: u64, r: u32, hash: Hash): Ballot { Ballot(h, r, PrecommitVote, Some(hash)) }

  /** A prevote quorum for another block exists at a round above r. */
  ghost predicate Overtaken(cfg: Config, sent: set<Vote>, h: u64, r: u32, hash: Hash) {
    exists q: u32, other: Hash :: q > r && other != hash && Backed(cfg, sent, Prevotes(h, q, other))
  }

  /** Validators that precommitted the block at round r, still could, or are faulty. */
  function Willing(cfg: Config, w: World, h: u64, r: u32, hash: Hash): set<Address>
    requires w.nodes.Keys == cfg.honest
  {
    set a | a in Addresses(cfg.vals(h)) &&
      (a in cfg.honest ==>
         Cast(cfg, w.sent, a, Precommits(h, r, hash)) || Before(Where(w.nodes[a].fsm), Position(h, r, 2)))
  }

  predicate CanGather(cfg: Config, w: World, h: u64, r: u32, hash: Hash)
    requires w.nodes.Keys == cfg.honest
  {
    PowerOf(cfg.vals(h), Willing(cfg, w, h, r, hash)) >= Quorum(cfg.vals(h))
  }

  function SlotPosition(v: Vote): Position {
    Position(v.data.height, v.data.round, if v.data.voteType == PrevoteVote then 1 else 2)
  }

  // ───────────── the invariant ─────────────

  /** Honest votes are exactly what their node signed, in slots it has reached. */
  ghost predicate Authentic(cfg: Config, w: World) {
    && w.nodes.Keys == cfg.honest
    && forall v :: v in w.sent && HonestVote(cfg, v) ==>
         && v == SignVote(v.validator, v.data) && v.data.chainId == cfg.chainId
         && NotAfter(SlotPosition(v), Where(w.nodes[v.validator].fsm))
  }

  ghost predicate OneVotePerSlot(cfg: Config, w: World) {
    forall v, u | v in w.sent && u in w.sent && HonestVote(cfg, v) && HonestVote(cfg, u)
                  && KeyOf(v) == KeyOf(u) && v.validator == u.validator
      :: v == u
  }

  ghost predicate PoolsFromSent(cfg: Config, w: World) {
    forall n :: n in w.nodes ==>
      WellFormed(w.nodes[n].pool, cfg.chainId)
      && forall k, a :: k in w.nodes[n].pool && a in w.nodes[n].pool[k] ==> w.nodes[n].pool[k][a] in w.sent
  }

  ghost predicate PendingBacked(cfg: Config, w: World) {
    forall n, ev :: n in w.nodes && ev in w.nodes[n].pending ==>
      && (ev.PrevoteQuorum? ==> Backed(cfg, w.sent, Ballot(ev.height, ev.round, PrevoteVote, ev.target)))
      && (ev.PrecommitQuorum? ==> Backed(cfg, w.sent, Ballot(ev.height, ev.round, PrecommitVote, ev.target)))
  }

  ghost predicate PrecommitsBacked(cfg: Config, w: World) {
    forall n, h, r, hash :: n in cfg.honest && Cast(cfg, w.sent, n, Precommits(h, r, hash)) ==>
      Backed(cfg, w.sent, Prevotes(h, r, hash))
  }

  predicate LockedOn(f: Fsm, r: u32, hash: Hash) {
    f.locked.Some? && f.locked.value.hash == hash && f.locked.value.round >= r
  }

  /** A node that precommitted a block at its current height is still locked on it, or was overtaken. */
  ghost predicate LocksHold(cfg: Config, w: World)
    requires w.nodes.Keys == cfg.honest
  {
    forall n, h, r, hash
      | n in cfg.honest && Cast(cfg, w.sent, n, Precommits(h, r, hash)) && w.nodes[n].fsm.height == h ::
      LockedOn(w.nodes[n].fsm, r, hash) || Overtaken(cfg, w.sent, h, r, hash)
  }

  /** Whoever precommitted a block and later prevoted another did so after being overtaken. */
  ghost predicate TurnsJustified(cfg: Config, w: World) {
    forall n, h, r, hash, q, other | n in cfg.honest && q > r && other != hash
        && Cast(cfg, w.sent, n, Precommits(h, r, hash)) && Cast(cfg, w.sent, n, Prevotes(h, q, other))
      :: Overtaken(cfg, w.sent, h, r, hash)
  }

  /**
   The heart of agreement: once a prevote quorum for another block exists at a round above r, a
   block can no longer gather a precommit quorum at round r.
   */
  ghost predicate Settled(cfg: Config, w: World)
    requires w.nodes.Keys == cfg.honest
  {
    forall h, r, hash :: Overtaken(cfg, w.sent, h, r, hash) ==> !CanGather(cfg, w, h, r, hash)
  }

  ghost predicate Certified(cfg: Config, sent: set<Vote>, h: u64, hash: Hash) {
    exists r: u32 :: Backed(cfg, sent, Precommits(h, r, hash))
  }

  ghost predicate CommitsCertified(cfg: Config, w: World) {
    && (forall c :: c in w.commits ==> Certified(cfg, w.sent, c.height, c.hash))
    && (forall n :: n in w.nodes && w.nodes[n].fsm.committing.Some? ==>
          Certified(cfg, w.sent, w.nodes[n].fsm.height, w.nodes[n].fsm.committing.value))
  }

  ghost predicate Inv(cfg: Config, w: World) {
    && Authentic(cfg, w) && OneVotePerSlot(cfg, w) && PoolsFromSent(cfg, w) && PendingBacked(cfg, w)
    && PrecommitsBacked(cfg, w) && LocksHold(cfg, w) && TurnsJustified(cfg, w) && Settled(cfg, w)
    && CommitsCertified(cfg, w)
  }

  // ───────────── votes only accumulate ─────────────

  lemma BackedGrows(cfg: Config, sent: set<Vote>, sent': set<Vote>, b: Ballot)
    requires sent <= sent' && Backed(cfg, sent, b)
    ensures Backed(cfg, sent', b)
  {
    PowerMonotone(cfg.vals(b.height), Backers(cfg, sent, b), Backers(cfg, sent', b));
  }

  lemma OvertakenGrows(cfg: Config, sent: set<Vote>, sent': set<Vote>, h: u64, r: u32, hash: Hash)
    requires sent <= sent' && Overtaken(cfg, sent, h, r, hash)
    ensures Overtaken(cfg, sent', h, r, hash)
  {
    var q: u32, other: Hash :| q > r && other != hash && Backed(cfg, sent, Prevotes(h, q, other));
    BackedGrows(cfg, sent, sent', Prevotes(h, q, other));
  }

  lemma CertifiedGrows(cfg: Config, sent: set<Vote>, sent': set<Vote>, h: u64, hash: Hash)
    requires sent <= sent' && Certified(cfg, sent, h, hash)
    ensures Certified(cfg, sent', h, hash)
  {
    var r: u32 :| Backed(cfg, sent, Precommits(h, r, hash));
    BackedGrows(cfg, sent, sent', Precommits(h, r, hash));
  }

  /** A quorum in a node's own pool is backed by the votes sent. */
  lemma PoolQuorumIsBacked(cfg: Config, w: World, n: Address, k: QuorumKey)
    requires Authentic(cfg, w) && PoolsFromSent(cfg, w) && n in w.nodes
    requires Crossed(w.nodes[n].pool, k, cfg.vals(k.height))
    ensures Backed(cfg, w.sent, Ballot(k.height, k.round, k.voteType, k.target))
  {
    var b := Ballot(k.height, k.round, k.voteType, k.target);
    var slot := SlotAt(w.nodes[n].pool, Slot(k.height, k.round, k.voteType));
    var vals := cfg.vals(k.height);
    forall a | a in Supporters(slot, k.target) && a in Addresses(vals) ensures a in Backers(cfg, w.sent, b) {
      if a in cfg.honest {
        assert slot[a] in w.sent && HonestVote(cfg, slot[a]);
        assert slot[a] == VoteOf(cfg, a, b);
      }
    }
    PowerMonotone(vals, Supporters(slot, k.target), Backers(cfg, w.sent, b));
  }

  /** Two quorums of one height have an honest validator in common. */
  lemma HonestOverlap(cfg: Config, h: u64, x: set<Address>, y: set<Address>) returns (a: Address)
    requires Sound(cfg)
    requires PowerOf(cfg.vals(h), x) >= Quorum(cfg.vals(h)) && PowerOf(cfg.vals(h), y) >= Quorum(cfg.vals(h))
    ensures a in x && a in y && a in cfg.honest && a in Addresses(cfg.vals(h))
  {
    QuorumsIntersect(cfg.vals(h), x, y);
    a := HeavyMeetsHonest(cfg.vals(h), x * y, Faulty(cfg, h));
  }

  // ───────────── moves that do not step a machine ─────────────

  /** Machines and commits are untouched and only votes that are not honest are added. */
  ghost predicate Quiet(cfg: Config, w: World, w': World) {
    && w'.nodes.Keys == w.nodes.Keys && w'.commits == w.commits
    && (forall n :: n in w.nodes ==> w'.nodes[n].fsm == w.nodes[n].fsm)
    && w.sent <= w'.sent && (forall v :: v in w'.sent && HonestVote(cfg, v) ==> v in w.sent)
  }

  lemma QuietCasts(cfg: Config, w: World, w': World, b: Ballot)
    requires Quiet(cfg, w, w')
    ensures forall a :: a in cfg.honest ==> (Cast(cfg, w'.sent, a, b) <==> Cast(cfg, w.sent, a, b))
    ensures Backed(cfg, w'.sent, b) <==> Backed(cfg, w.sent, b)
  {
    forall a | a in cfg.honest ensures Cast(cfg, w'.sent, a, b) <==> Cast(cfg, w.sent, a, b) {
      assert HonestVote(cfg, VoteOf(cfg, a, b));
    }
    assert Backers(cfg, w'.sent, b) == Backers(cfg, w.sent, b);
  }

  lemma QuietKeeps(cfg: Config, w: World, w': World)
    requires Inv(cfg, w) && Quiet(cfg, w, w')
    ensures Authentic(cfg, w') && OneVotePerSlot(cfg, w') && PrecommitsBacked(cfg, w') && LocksHold(cfg, w')
    ensures TurnsJustified(cfg, w') && Settled(cfg, w') && CommitsCertified(cfg, w')
  {
    forall b ensures (forall a :: a in cfg.honest ==> (Cast(cfg, w'.sent, a, b) <==> Cast(cfg, w.sent, a, b)))
                  && (Backed(cfg, w'.sent, b) <==> Backed(cfg, w.sent, b))
    {
      QuietCasts(cfg, w, w', b);
    }
    forall h, r, hash ensures Overtaken(cfg, w'.sent, h, r, hash) <==> Overtaken(cfg, w.sent, h, r, hash) {
      if Overtaken(cfg, w.sent, h, r, hash) { OvertakenGrows(cfg, w.sent, w'.sent, h, r, hash); }
    }
    forall h, r, hash | Overtaken(cfg, w'.sent, h, r, hash) ensures !CanGather(cfg, w', h, r, hash) {
      assert Willing(cfg, w', h, r, hash) == Willing(cfg, w, h, r, hash);
    }
    forall c | c in w'.commits ensures Certified(cfg, w'.sent, c.height, c.hash) {
      CertifiedGrows(cfg, w.sent, w'.sent, c.height, c.hash);
    }
    forall n | n in w'.nodes && w'.nodes[n].fsm.committing.Some?
      ensures Certified(cfg, w'.sent, w'.nodes[n].fsm.height, w'.nodes[n].fsm.committing.value)
    {
      CertifiedGrows(cfg, w.sent, w'.sent, w.nodes[n].fsm.height, w.nodes[n].fsm.committing.value);
    }
  }

  lemma SendKeepsPending(cfg: Config, w: World, v: Vote)
    requires PoolsFromSent(cfg, w) && PendingBacked(cfg, w)
    ensures PoolsFromSent(cfg, w.(sent := w.sent + {v})) && PendingBacked(cfg, w.(sent := w.sent + {v}))
  {
    forall b | Backed(cfg, w.sent, b) ensures Backed(cfg, w.sent + {v}, b) {
      BackedGrows(cfg, w.sent, w.sent + {v}, b);
    }
  }

  lemma PoolMoveKeepsPending(cfg: Config, w: World, n: Address, pool': Pool)
    requires PoolsFromSent(cfg, w) && PendingBacked(cfg, w) && n in w.nodes
    requires WellFormed(pool', cfg.chainId) && forall k, a :: k in pool' && a in pool'[k] ==> pool'[k][a] in w.sent
    ensures var w' := w.(nodes := w.nodes[n := w.nodes[n].(pool := pool')]);
      PoolsFromSent(cfg, w') && PendingBacked(cfg, w')
  {
    var w' := w.(nodes := w.nodes[n := w.nodes[n].(pool := pool')]);
    assert forall a :: a in w'.nodes ==> w'.nodes[a].pending == w.nodes[a].pending;
    assert forall a :: a in w'.nodes && a != n ==> w'.nodes[a] == w.nodes[a];
  }

  lemma PollKeepsPending(cfg: Config, w: World, n: Address)
    requires Authentic(cfg, w) && PoolsFromSent(cfg, w) && PendingBacked(cfg, w) && n in w.nodes
    ensures PoolsFromSent(cfg, Next(cfg, w, Poll(n))) && PendingBacked(cfg, Next(cfg, w, Poll(n)))
  {
    var node := w.nodes[n];
    var w' := Next(cfg, w, Poll(n));
    var found := FreshQuorums(node.fsm, node.pool, node.emitted, cfg.vals(node.fsm.height));
    assert forall a :: a in w'.nodes ==> w'.nodes[a].pool == w.nodes[a].pool;
    forall k | k in found ensures Backed(cfg, w.sent, Ballot(k.height, k.round, k.voteType, k.target)) {
      PollIsComplete(node.fsm, node.pool, node.emitted, cfg.vals(node.fsm.height), k);
      PoolQuorumIsBacked(cfg, w, n, k);
    }
  }

  lemma QuietMoveKeepsInv(cfg: Config, w: World, m: Move)
    requires Inv(cfg, w) && Enabled(cfg, w, m) && !m.Feed?
    ensures Inv(cfg, Next(cfg, w, m))
  {
    assert Quiet(cfg, w, Next(cfg, w, m));
    QuietKeeps(cfg, w, Next(cfg, w, m));
    match m
    case SendFaulty(v) => SendKeepsPending(cfg, w, v);
    case Deliver(n, v, view) =>
      AddKeepsWellFormed(w.nodes[n].pool, cfg.chainId, v, view);
      PoolMoveKeepsPending(cfg, w, n, AddVote(w.nodes[n].pool, cfg.chainId, v, view).0);
    case Prune(n, minHeight) =>
      PoolMoveKeepsPending(cfg, w, n, map k | k in w.nodes[n].pool && k.height >= minHeight :: w.nodes[n].pool[k]);
    case Poll(n) => PollKeepsPending(cfg, w, n);
  }

  // ───────────── one machine steps ─────────────

  /** What a feed adds: at most one ballot of node n, cast by the rules. */
  lemma FedCasts(cfg: Config, w: World, n: Address, ev: Event, p: bool, now: nat)
    requires n in w.nodes && n in cfg.honest
    ensures var bs := BallotsOf(StepFsm(w.nodes[n].fsm, ev, p, now).0, StepFsm(w.nodes[n].fsm, ev, p, now).1);
            var w' := Fed(cfg, w, n, ev, p, now);
      && w.sent <= w'.sent && |bs| <= 1
      && (bs != [] ==>
            BallotRule(w.nodes[n].fsm, w'.nodes[n].fsm, ev, bs[0]) && w'.sent == w.sent + {VoteOf(cfg, n, bs[0])})
      && (bs == [] ==> w'.sent == w.sent)
      && forall a, b :: a in cfg.honest ==>
           (Cast(cfg, w'.sent, a, b) <==> Cast(cfg, w.sent, a, b) || (a == n && bs == [b]))
  {
    var f := w.nodes[n].fsm;
    StepCastsByTheRules(f, ev, p, now);
    var (g, actions) := StepFsm(f, ev, p, now);
    var bs := BallotsOf(g, actions);
    var added := set b | b in bs :: VoteOf(cfg, n, b);
    if bs == [] {
      assert added == {};
    } else {
      assert bs == [bs[0]];
      assert added == {VoteOf(cfg, n, bs[0])};
    }
  }

  lemma FedAuthentic(cfg: Config, w: World, n: Address, ev: Event, p: bool, now: nat)
    requires Inv(cfg, w) && Enabled(cfg, w, Feed(n, ev, p, now))
    ensures Authentic(cfg, Fed(cfg, w, n, ev, p, now))
  {
    var w' := Fed(cfg, w, n, ev, p, now);
    var bs := BallotsOf(w'.nodes[n].fsm, StepFsm(w.nodes[n].fsm, ev, p, now).1);
    FedCasts(cfg, w, n, ev, p, now);
    NeverMovesBack(w.nodes[n].fsm, ev, p, now);
    forall v | v in w'.sent && HonestVote(cfg, v)
      ensures v == SignVote(v.validator, v.data) && v.data.chainId == cfg.chainId
      ensures NotAfter(SlotPosition(v), Where(w'.nodes[v.validator].fsm))
    {
      if v !in w.sent {
        assert v == VoteOf(cfg, n, bs[0]);
      }
    }
  }

  lemma FedOneVotePerSlot(cfg: Config, w: World, n: Address, ev: Event, p: bool, now: nat)
    requires Inv(cfg, w) && Enabled(cfg, w, Feed(n, ev, p, now))
    ensures OneVotePerSlot(cfg, Fed(cfg, w, n, ev, p, now))
  {
    var f := w.nodes[n].fsm;
    var w' := Fed(cfg, w, n, ev, p, now);
    var bs := BallotsOf(w'.nodes[n].fsm, StepFsm(f, ev, p, now).1);
    FedCasts(cfg, w, n, ev, p, now);
    forall v | v in w.sent && HonestVote(cfg, v) && v.validator == n && bs != []
      ensures KeyOf(v) != KeyOf(VoteOf(cfg, n, bs[0]))
    {
      assert NotAfter(SlotPosition(v), Where(f)) && Before(Where(f), SlotOf(bs[0]));
      assert SlotPosition(VoteOf(cfg, n, bs[0])) == SlotOf(bs[0]);
    }
  }

  lemma FedQuorumIsBacked(cfg: Config, w: World, n: Address, ev: Event, p: bool, now: nat)
    requires Inv(cfg, w) && Enabled(cfg, w, Feed(n, ev, p, now))
    ensures ev.PrevoteQuorum? ==> Backed(cfg, w.sent, Ballot(ev.height, ev.round, PrevoteVote, ev.target))
    ensures ev.PrecommitQuorum? ==> Backed(cfg, w.sent, Ballot(ev.height, ev.round, PrecommitVote, ev.target))
  {
    if ev.PrevoteQuorum? || ev.PrecommitQuorum? {
      assert ev in w.nodes[n].pending;
    }
  }

  lemma FedBacked(cfg: Config, w: World, n: Address, ev: Event, p: bool, now: nat)
    requires Inv(cfg, w) && Enabled(cfg, w, Feed(n, ev, p, now))
    ensures var w' := Fed(cfg, w, n, ev, p, now);
      PoolsFromSent(cfg, w') && PendingBacked(cfg, w') && PrecommitsBacked(cfg, w')
  {
    var w' := Fed(cfg, w, n, ev, p, now);
    FedCasts(cfg, w, n, ev, p, now);
    FedQuorumIsBacked(cfg, w, n, ev, p, now);
    forall b | Backed(cfg, w.sent, b) ensures Backed(cfg, w'.sent, b) {
      BackedGrows(cfg, w.sent, w'.sent, b);
    }
    forall a, h, r, hash | a in cfg.honest && Cast(cfg, w'.sent, a, Precommits(h, r, hash))
      ensures Backed(cfg, w'.sent, Prevotes(h, r, hash))
    {
    }
  }

  /** A lock taken on a precommitted block outlives the step, unless the block was overtaken. */
  lemma LockOutlivesStep(cfg: Config, w: World, n: Address, ev: Event, p: bool, now: nat, r: u32, hash: Hash)
    requires Inv(cfg, w) && Enabled(cfg, w, Feed(n, ev, p, now))
    requires var f := w.nodes[n].fsm;
      && LockedOn(f, r, hash) && NotAfter(Position(f.height, r, 2), Where(f))
      && StepFsm(f, ev, p, now).0.height == f.height
    ensures LockedOn(StepFsm(w.nodes[n].fsm, ev, p, now).0, r, hash)
         || Overtaken(cfg, w.sent, w.nodes[n].fsm.height, r, hash)
  {
    var f := w.nodes[n].fsm;
    var g := StepFsm(f, ev, p, now).0;
    FedQuorumIsBacked(cfg, w, n, ev, p, now);
    if ev.BlockApplied? {
      NeverMovesBack(f, ev, p, now);
      assert g == f;
    } else {
      LockYieldsOnlyToQuorum(f, ev, p, now);
      if g.locked != f.locked && ev.target.value != hash {
        assert Backed(cfg, w.sent, Prevotes(f.height, ev.round, ev.target.value)) && ev.round > r;
      }
    }
  }

  lemma FedLocks(cfg: Config, w: World, n: Address, ev: Event, p: bool, now: nat)
    requires Inv(cfg, w) && Enabled(cfg, w, Feed(n, ev, p, now))
    ensures Fed(cfg, w, n, ev, p, now).nodes.Keys == cfg.honest && LocksHold(cfg, Fed(cfg, w, n, ev, p, now))
  {
    var w' := Fed(cfg, w, n, ev, p, now);
    FedCasts(cfg, w, n, ev, p, now);
    NeverMovesBack(w.nodes[n].fsm, ev, p, now);
    var f, g := w.nodes[n].fsm, w'.nodes[n].fsm;
    forall a, h, r, hash
      | a in cfg.honest && Cast(cfg, w'.sent, a, Precommits(h, r, hash)) && w'.nodes[a].fsm.height == h
      ensures LockedOn(w'.nodes[a].fsm, r, hash) || Overtaken(cfg, w'.sent, h, r, hash)
    {
      var b := Precommits(h, r, hash);
      if a == n && Cast(cfg, w.sent, a, b) {
        assert HonestVote(cfg, VoteOf(cfg, a, b));
        assert NotAfter(Position(h, r, 2), Where(f));
        assert f.height == h;
        if LockedOn(f, r, hash) {
          LockOutlivesStep(cfg, w, n, ev, p, now, r, hash);
        }
      }
      if Overtaken(cfg, w.sent, h, r, hash) {
        OvertakenGrows(cfg, w.sent, w'.sent, h, r, hash);
      }
    }
  }

  /** An honest prevote against a block one precommitted is only cast when already overtaken. */
  lemma FedTurns(cfg: Config, w: World, n: Address, ev: Event, p: bool, now: nat)
    requires Inv(cfg, w) && Enabled(cfg, w, Feed(n, ev, p, now))
    ensures var w' := Fed(cfg, w, n, ev, p, now);
      forall a, h, r, hash, q, other | a in cfg.honest && q > r && other != hash
          && Cast(cfg, w'.sent, a, Precommits(h, r, hash)) && Cast(cfg, w'.sent, a, Prevotes(h, q, other))
        :: Overtaken(cfg, w.sent, h, r, hash)
  {
    var w' := Fed(cfg, w, n, ev, p, now);
    FedCasts(cfg, w, n, ev, p, now);
    var f := w.nodes[n].fsm;
    forall a, h, r, hash, q, other | a in cfg.honest && q > r && other != hash
        && Cast(cfg, w'.sent, a, Precommits(h, r, hash)) && Cast(cfg, w'.sent, a, Prevotes(h, q, other))
      ensures Overtaken(cfg, w.sent, h, r, hash)
    {
      var c, v := Precommits(h, r, hash), Prevotes(h, q, other);
      assert HonestVote(cfg, VoteOf(cfg, a, c)) && HonestVote(cfg, VoteOf(cfg, a, v));
      if Cast(cfg, w.sent, a, v) {
        assert NotAfter(Position(h, q, 1), Where(w.nodes[a].fsm));
      }
      if !Cast(cfg, w.sent, a, c) {
        assert false;
      } else if !Cast(cfg, w.sent, a, v) {
        assert f.height == h;
        assert !LockedOn(f, r, hash);
      }
    }
  }

  /** Nobody becomes willing again: a new precommit comes from a node that still could cast it. */
  lemma WillingShrinks(cfg: Config, w: World, n: Address, ev: Event, p: bool, now: nat, h: u64, r: u32, hash: Hash)
    requires Inv(cfg, w) && Enabled(cfg, w, Feed(n, ev, p, now))
    ensures var w' := Fed(cfg, w, n, ev, p, now);
      w'.nodes.Keys == cfg.honest && (CanGather(cfg, w', h, r, hash) ==> CanGather(cfg, w, h, r, hash))
  {
    var w' := Fed(cfg, w, n, ev, p, now);
    FedCasts(cfg, w, n, ev, p, now);
    NeverMovesBack(w.nodes[n].fsm, ev, p, now);
    assert Willing(cfg, w', h, r, hash) <= Willing(cfg, w, h, r, hash);
    PowerMonotone(cfg.vals(h), Willing(cfg, w', h, r, hash), Willing(cfg, w, h, r, hash));
  }

  /** If a block is overtaken and could still gather its quorum, it was overtaken before this step. */
  lemma OvertakenBefore(cfg: Config, w: World, n: Address, ev: Event, p: bool, now: nat, h: u64, r: u32, hash: Hash)
    requires Sound(cfg) && Inv(cfg, w) && Enabled(cfg, w, Feed(n, ev, p, now))
    requires var w' := Fed(cfg, w, n, ev, p, now);
      w'.nodes.Keys == cfg.honest && Overtaken(cfg, w'.sent, h, r, hash) && CanGather(cfg, w', h, r, hash)
    ensures Overtaken(cfg, w.sent, h, r, hash)
  {
    var w' := Fed(cfg, w, n, ev, p, now);
    FedAuthentic(cfg, w, n, ev, p, now);
    FedTurns(cfg, w, n, ev, p, now);
    var q: u32, other: Hash :| q > r && other != hash && Backed(cfg, w'.sent, Prevotes(h, q, other));
    var b := Prevotes(h, q, other);
    var a := HonestOverlap(cfg, h, Backers(cfg, w'.sent, b), Willing(cfg, w', h, r, hash));
    assert VoteOf(cfg, a, b) in w'.sent && HonestVote(cfg, VoteOf(cfg, a, b));
    assert NotAfter(Position(h, q, 1), Where(w'.nodes[a].fsm));
    assert Cast(cfg, w'.sent, a, Precommits(h, r, hash));
  }

  lemma FedSettled(cfg: Config, w: World, n: Address, ev: Event, p: bool, now: nat)
    requires Sound(cfg) && Inv(cfg, w) && Enabled(cfg, w, Feed(n, ev, p, now))
    ensures Fed(cfg, w, n, ev, p, now).nodes.Keys == cfg.honest && Settled(cfg, Fed(cfg, w, n, ev, p, now))
  {
    var w' := Fed(cfg, w, n, ev, p, now);
    forall h, r, hash | Overtaken(cfg, w'.sent, h, r, hash) ensures !CanGather(cfg, w', h, r, hash) {
      WillingShrinks(cfg, w, n, ev, p, now, h, r, hash);
      if CanGather(cfg, w', h, r, hash) {
        OvertakenBefore(cfg, w, n, ev, p, now, h, r, hash);
      }
    }
  }

  lemma FedCommits(cfg: Config, w: World, n: Address, ev: Event, p: bool, now: nat)
    requires Inv(cfg, w) && Enabled(cfg, w, Feed(n, ev, p, now))
    ensures CommitsCertified(cfg, Fed(cfg, w, n, ev, p, now))
  {
    var w' := Fed(cfg, w, n, ev, p, now);
    FedCasts(cfg, w, n, ev, p, now);
    FedQuorumIsBacked(cfg, w, n, ev, p, now);
    var f := w.nodes[n].fsm;
    if ev.PrecommitQuorum? && ev.target.Some? {
      assert Certified(cfg, w.sent, ev.height, ev.target.value) by {
        assert Backed(cfg, w.sent, Precommits(ev.height, ev.round, ev.target.value));
      }
    }
    forall h, hash | Certified(cfg, w.sent, h, hash) ensures Certified(cfg, w'.sent, h, hash) {
      CertifiedGrows(cfg, w.sent, w'.sent, h, hash);
    }
    forall c | c in w'.commits ensures Certified(cfg, w'.sent, c.height, c.hash) {
      if c !in w.commits {
        CommitNeedsQuorum(f, ev, p, now, c.hash);
      }
    }
    forall a | a in w'.nodes && w'.nodes[a].fsm.committing.Some?
      ensures Certified(cfg, w'.sent, w'.nodes[a].fsm.height, w'.nodes[a].fsm.committing.value)
    {
      CommitNeedsQuorum(f, ev, p, now, w'.nodes[a].fsm.committing.value);
    }
  }

  // ───────────── every run ─────────────

  lemma InitEstablishesInv(cfg: Config, w: World)
    requires Sound(cfg) && Init(cfg, w)
    ensures Inv(cfg, w)
  {
    forall h: u64, r: u32, hash: Hash ensures !Overtaken(cfg, w.sent, h, r, hash) {
      forall q: u32, other: Hash ensures !Backed(cfg, w.sent, Prevotes(h, q, other)) {
        PowerMonotone(cfg.vals(h), Backers(cfg, w.sent, Prevotes(h, q, other)), Faulty(cfg, h));
      }
    }
  }

  /** Every enabled move keeps the invariant. */
  lemma NextKeepsInv(cfg: Config, w: World, m: Move)
    requires Sound(cfg) && Inv(cfg, w) && Enabled(cfg, w, m)
    ensures Inv(cfg, Next(cfg, w, m))
  {
    if m.Feed? {
      FedAuthentic(cfg, w, m.node, m.ev, m.amProposer, m.now);
      FedOneVotePerSlot(cfg, w, m.node, m.ev, m.amProposer, m.now);
      FedBacked(cfg, w, m.node, m.ev, m.amProposer, m.now);
      FedLocks(cfg, w, m.node, m.ev, m.amProposer, m.now);
      FedTurns(cfg, w, m.node, m.ev, m.amProposer, m.now);
      FedSettled(cfg, w, m.node, m.ev, m.amProposer, m.now);
      FedCommits(cfg, w, m.node, m.ev, m.amProposer, m.now);
      FedCasts(cfg, w, m.node, m.ev, m.amProposer, m.now);
      var w' := Next(cfg, w, m);
      forall h, r, hash | Overtaken(cfg, w.sent, h, r, hash) ensures Overtaken(cfg, w'.sent, h, r, hash) {
        OvertakenGrows(cfg, w.sent, w'.sent, h, r, hash);
      }
    } else {
      QuietMoveKeepsInv(cfg, w, m);
    }
  }

  lemma {:induction false} RunKeepsInv(cfg: Config, w: World, moves: seq<Move>, w': World)
    requires Sound(cfg) && Inv(cfg, w) && Run(cfg, w, moves, w')
    ensures Inv(cfg, w')
    decreases moves
  {
    if moves != [] {
      NextKeepsInv(cfg, w, moves[0]);
      RunKeepsInv(cfg, Next(cfg, w, moves[0]), moves[1..], w');
    }
  }

  lemma ReachableInv(cfg: Config, w: World)
    requires Sound(cfg) && Reachable(cfg, w)
    ensures Inv(cfg, w)
  {
    var w0, moves :| Init(cfg, w0) && Run(cfg, w0, moves, w);
    InitEstablishesInv(cfg, w0);
    RunKeepsInv(cfg, w0, moves, w);
  }

  /** Precommit quorums of one height, at any two rounds, are for one block. */
  lemma PrecommitQuorumsAgree(cfg: Config, w: World, h: u64, r1: u32, b1: Hash, r2: u32, b2: Hash)
    requires Sound(cfg) && Inv(cfg, w)
    requires Backed(cfg, w.sent, Precommits(h, r1, b1)) && Backed(cfg, w.sent, Precommits(h, r2, b2))
    ensures b1 == b2
    decreases r1 > r2
  {
    if r1 > r2 {
      PrecommitQuorumsAgree(cfg, w, h, r2, b2, r1, b1);
    } else {
      var c1, c2 := Precommits(h, r1, b1), Precommits(h, r2, b2);
      var a := HonestOverlap(cfg, h, Backers(cfg, w.sent, c1), Backers(cfg, w.sent, c2));
      assert HonestVote(cfg, VoteOf(cfg, a, c1)) && HonestVote(cfg, VoteOf(cfg, a, c2));
      if r1 < r2 && b1 != b2 {
        assert Backed(cfg, w.sent, Prevotes(h, r2, b2));
        assert Overtaken(cfg, w.sent, h, r1, b1);
        PowerMonotone(cfg.vals(h), Backers(cfg, w.sent, c1), Willing(cfg, w, h, r1, b1));
        assert false;
      }
    }
  }

  /** In every reachable world two commits of one height, by any honest nodes, name one block. */
  lemma Agreement(cfg: Config, w: World, c1: CommitRecord, c2: CommitRecord)
    requires Sound(cfg) && Reachable(cfg, w)
    requires c1 in w.commits && c2 in w.commits && c1.height == c2.height
    ensures c1.hash == c2.hash
  {
    ReachableInv(cfg, w);
    var r1: u32 :| Backed(cfg, w.sent, Precommits(c1.height, r1, c1.hash));
    var r2: u32 :| Backed(cfg, w.sent, Precommits(c2.height, r2, c2.hash));
    PrecommitQuorumsAgree(cfg, w, c1.height, r1, c1.hash, r2, c2.hash);
  }

  /** No evidence built from votes of a reachable world convicts an honest validator. */
  lemma HonestNeverConvicted(cfg: Config, w: World, ev: EquivocationEvidence, chainId: u64, vals: seq<Validator>)
    requires Sound(cfg) && Reachable(cfg, w)
    requires ev.a in w.sent && ev.b in w.sent && ev.a.validator in cfg.honest
    ensures VerifyEquivocation(ev, chainId, vals).Err?
  {
    ReachableInv(cfg, w);
    if VerifySig(ev.a) && VerifySig(ev.b) && ev.a.validator == ev.b.validator && KeyOf(ev.a) == KeyOf(ev.b) {
      assert HonestVote(cfg, ev.a) && HonestVote(cfg, ev.b);
      assert ev.a == ev.b;
    }
  }

  lemma {:induction false} SentGrows(cfg: Config, w: World, moves: seq<Move>, w': World)
    requires Run(cfg, w, moves, w')
    ensures w.sent <= w'.sent
    decreases moves
  {
    if moves != [] {
      SentGrows(cfg, Next(cfg, w, moves[0]), moves[1..], w');
    }
  }

  /** A precommit quorum that once backed a block decides every later commit of its height. */
  lemma BackedDecides(cfg: Config, w: World, h: u64, r: u32, hash: Hash, moves: seq<Move>, w': World, c: CommitRecord)
    requires Sound(cfg) && Inv(cfg, w) && Run(cfg, w, moves, w')
    requires Backed(cfg, w.sent, Precommits(h, r, hash)) && c in w'.commits && c.height == h
    ensures hash == c.hash
  {
    RunKeepsInv(cfg, w, moves, w');
    SentGrows(cfg, w, moves, w');
    BackedGrows(cfg, w.sent, w'.sent, Precommits(h, r, hash));
    var rc: u32 :| Backed(cfg, w'.sent, Precommits(h, rc, c.hash));
    PrecommitQuorumsAgree(cfg, w', h, r, hash, rc, c.hash);
  }

  lemma ReportedIsCrossed(pool: Pool, chainId: u64, v: Vote, vals: seq<Validator>)
    requires AddVote(pool, chainId, v, vals).1 == Inserted(true)
    ensures Crossed(AddVote(pool, chainId, v, vals).0,
                    QuorumKey(v.data.height, v.data.round, v.data.voteType, v.data.blockHash), vals)
  {
  }

  /**
   What nodes store: once adding a precommit for a block reports a quorum to an honest node, only
   that block can be committed at the height, by anyone, however the run goes on.
   */
  lemma StoredCertificateAgrees(cfg: Config, w: World, n: Address, v: Vote, moves: seq<Move>, w': World,
                                c: CommitRecord)
    requires Sound(cfg) && Reachable(cfg, w)
    requires var m := Deliver(n, v, cfg.vals(v.data.height));
      && Enabled(cfg, w, m) && Run(cfg, Next(cfg, w, m), moves, w')
      && AddVote(w.nodes[n].pool, cfg.chainId, v, cfg.vals(v.data.height)).1 == Inserted(true)
    requires v.data.voteType == PrecommitVote && v.data.blockHash.Some?
    requires c in w'.commits && c.height == v.data.height
    ensures v.data.blockHash == Some(c.hash)
  {
    var m := Deliver(n, v, cfg.vals(v.data.height));
    ReachableInv(cfg, w);
    NextKeepsInv(cfg, w, m);
    ReportedIsCrossed(w.nodes[n].pool, cfg.chainId, v, cfg.vals(v.data.height));
    PoolQuorumIsBacked(cfg, Next(cfg, w, m), n,
                       QuorumKey(v.data.height, v.data.round, PrecommitVote, v.data.blockHash));
    BackedDecides(cfg, Next(cfg, w, m), v.data.height, v.data.round, v.data.blockHash.value, moves, w', c);
  }

  /** In every reachable world the precommit quorums any two honest nodes hold for a height name one block. */
  lemma HeldQuorumsAgree(cfg: Config, w: World, n1: Address, k1: QuorumKey, n2: Address, k2: QuorumKey)
    requires Sound(cfg) && Reachable(cfg, w) && n1 in w.nodes && n2 in w.nodes
    requires k1.height == k2.height && k1.voteType == k2.voteType == PrecommitVote && k1.target.Some? && k2.target.Some?
    requires Crossed(w.nodes[n1].pool, k1, cfg.vals(k1.height)) && Crossed(w.nodes[n2].pool, k2, cfg.vals(k2.height))
    ensures k1.target == k2.target
  {
    ReachableInv(cfg, w);
    PoolQuorumIsBacked(cfg, w, n1, k1);
    PoolQuorumIsBacked(cfg, w, n2, k2);
    PrecommitQuorumsAgree(cfg, w, k1.height, k1.round, k1.target.value, k2.round, k2.target.value);
  }

  /** The signers of the votes cast at round r. */
  function SignersAt(votes: seq<Vote>, r: u32): set<Address> {
    set v | v in votes && v.data.round == r :: v.validator
  }

  lemma CertificateIsBacked(cfg: Config, w: World, h: u64, r: u32, hash: Hash, votes: seq<Vote>)
    requires Inv(cfg, w) && h > 0
    requires forall v :: v in votes ==> v in w.sent
    requires CommitVerdict(hash, h, Decodes(votes), cfg.chainId, cfg.vals(h)).Ok?
    requires PowerOf(cfg.vals(h), SignersAt(votes, r)) >= Quorum(cfg.vals(h))
    ensures Backed(cfg, w.sent, Precommits(h, r, hash))
  {
    VerdictIsProof(hash, h, Decodes(votes), cfg.chainId, cfg.vals(h));
    var b := Precommits(h, r, hash);
    forall a | a in SignersAt(votes, r) && a in Addresses(cfg.vals(h)) ensures a in Backers(cfg, w.sent, b) {
      var v :| v in votes && v.data.round == r && v.validator == a;
      assert GoodPrecommit(v, hash, h, cfg.chainId, cfg.vals(h));
      if a in cfg.honest {
        assert HonestVote(cfg, v);
        assert v == VoteOf(cfg, a, b);
      }
    }
    PowerMonotone(cfg.vals(h), SignersAt(votes, r), Backers(cfg, w.sent, b));
  }

  /**
   An accepted certificate in which the votes of some one round are a quorum on their own names the
   block every honest node commits at that height. The verifier adds up votes of all rounds, so this
   is a condition on the list; `MixedRounds` shows what happens without it.
   */
  lemma OneRoundCertificateAgrees(cfg: Config, w: World, c: CommitRecord, r: u32, hash: Hash, votes: seq<Vote>)
    requires Sound(cfg) && Reachable(cfg, w) && c in w.commits && c.height > 0
    requires forall v :: v in votes ==> v in w.sent
    requires CommitVerdict(hash, c.height, Decodes(votes), cfg.chainId, cfg.vals(c.height)).Ok?
    requires PowerOf(cfg.vals(c.height), SignersAt(votes, r)) >= Quorum(cfg.vals(c.height))
    ensures hash == c.hash
  {
    ReachableInv(cfg, w);
    CertificateIsBacked(cfg, w, c.height, r, hash, votes);
    var rc: u32 :| Backed(cfg, w.sent, Precommits(c.height, rc, c.hash));
    PrecommitQuorumsAgree(cfg, w, c.height, r, hash, rc, c.hash);
  }

  /** A block is the one committed at its height exactly when precommits of some single round back it. */
  lemma CommittedIff(cfg: Config, w: World, c: CommitRecord, hash: Hash)
    requires Sound(cfg) && Reachable(cfg, w) && c in w.commits
    ensures hash == c.hash <==> exists r: u32 :: Backed(cfg, w.sent, Precommits(c.height, r, hash))
  {
    ReachableInv(cfg, w);
    var rc: u32 :| Backed(cfg, w.sent, Precommits(c.height, rc, c.hash));
    if r: u32 :| Backed(cfg, w.sent, Precommits(c.height, r, hash)) {
      PrecommitQuorumsAgree(cfg, w, c.height, r, hash, rc, c.hash);
    }
  }
}
