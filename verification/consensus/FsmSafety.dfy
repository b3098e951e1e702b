/** One machine never moves backwards, so its ballots increase; and its lock yields only to a later quorum. */
module FsmSafety {
  import opened Common
  import opened ConsensusTypes
  import opened ConsensusFsm

  function Stage(s: Step): nat {
    match s
    case Propose => 0
    case Prevote => 1
    case Precommit => 2
    case Commit => 3
  }

  function Where(f: Fsm): Position {
    Position(f.height, f.round, Stage(f.step))
  }

  /** The runtime signs a broadcast at the height and round the machine has after the step. */
  function BallotOf(after: Fsm, action: Action): seq<Ballot> {
    match action
    case BroadcastPrevote(t) => [Ballot(after.height, after.round, PrevoteVote, t)]
    case BroadcastPrecommit(t) => [Ballot(after.height, after.round, PrecommitVote, t)]
    case _ => []
  }

  function BallotsOf(after: Fsm, actions: seq<Action>): seq<Ballot> {
    if actions == [] then [] else BallotOf(after, actions[0]) + BallotsOf(after, actions[1..])
  }

  /**
   The three branches in which the source's `saturating_add` cannot move on: a round bump at
   round 2^32-1 (out of a step later than Propose) and a height advance at height 2^64-1.
   */
  predicate Saturates(f: Fsm, ev: Event, now: nat) {
    match ev
    case Tick(_) =>
      f.step == Precommit && f.round == U32_MAX && SatSub(now, f.startedAt) >= f.timeouts.precommit
    case PrecommitQuorum(h, r, t) =>
      h == f.height && t.None? && r == f.round == U32_MAX && f.committing.None? && f.step != Propose
    case BlockApplied(h, b) =>
      h == f.height == U64_MAX && f.step == Commit && f.committing == Some(b)
    case _ => false
  }

  /** A step moves the machine backwards exactly when it takes one of the saturating branches. */
  lemma NeverMovesBack(f: Fsm, ev: Event, amProposer: bool, now: nat)
    ensures NotAfter(Where(f), Where(StepFsm(f, ev, amProposer, now).0)) <==> !Saturates(f, ev, now)
  {
    match ev {
      case Tick(_) => match f.step { case Propose => case Prevote => case Precommit => case Commit => }
      case ProposalSeen(_, r, b) =>
      case PrevoteQuorum(_, r, t) =>
      case PrecommitQuorum(_, r, t) =>
      case HigherRoundSeen(_, r) =>
      case BlockApplied(_, b) =>
    }
  }

  /** A prevote cast in one step: its slot is new, and it is nil or agrees with the lock. */
  predicate PrevoteRule(f: Fsm, g: Fsm, b: Ballot) {
    && SlotOf(b) == Where(g)
    && Before(Where(f), Where(g))
    && b.height == f.height
    && g.locked == f.locked
    && (b.target.Some? && f.locked.Some? ==> f.locked.value.hash == b.target.value)
  }

  /** A precommit cast in one step: its slot is new, and a block is named only on its quorum, taking the lock. */
  predicate PrecommitRule(f: Fsm, g: Fsm, ev: Event, b: Ballot) {
    && SlotOf(b) == Where(g)
    && Before(Where(f), Where(g))
    && b.height == f.height && b.round == f.round
    && (b.target.Some? ==>
          && ev == PrevoteQuorum(b.height, b.round, b.target)
          && g.locked == Some(LockedBlock(b.round, b.target.value)))
  }

  predicate BallotRule(f: Fsm, g: Fsm, ev: Event, b: Ballot) {
    if b.voteType == PrevoteVote then PrevoteRule(f, g, b) else PrecommitRule(f, g, ev, b)
  }

  /** A step casts at most one ballot, in a slot the machine had not reached, by the rules above. */
  lemma StepCastsByTheRules(f: Fsm, ev: Event, amProposer: bool, now: nat)
    ensures var (g, actions) := StepFsm(f, ev, amProposer, now);
            var bs := BallotsOf(g, actions);
            |bs| <= 1 && (bs != [] ==> BallotRule(f, g, ev, bs[0]))
  {
    var (g, actions) := StepFsm(f, ev, amProposer, now);
    assert |actions| <= 2;
    if |actions| == 2 {
      assert actions[1..] == [actions[1]] && actions[1..][1..] == [];
      assert !actions[0].BroadcastPrevote? && !actions[0].BroadcastPrecommit?;
      assert BallotsOf(g, actions[1..]) == BallotOf(g, actions[1..][0]) + BallotsOf(g, actions[1..][1..]);
    } else if |actions| == 1 {
      assert actions[1..] == [];
      assert BallotsOf(g, actions) == BallotOf(g, actions[0]) + [];
    }
  }

  /**
   Within a height a lock changes only on a prevote quorum of that height naming a block: it is
   dropped by a later round's quorum for another block, or retaken on the current round's quorum.
   */
  lemma LockYieldsOnlyToQuorum(f: Fsm, ev: Event, amProposer: bool, now: nat)
    requires f.locked.Some? && !ev.BlockApplied?
    ensures var g := StepFsm(f, ev, amProposer, now).0;
            g.locked != f.locked ==>
              && ev.PrevoteQuorum? && ev.target.Some? && ev.height == f.height == g.height
              && (|| (&& g.locked.None? && ev.target.value != f.locked.value.hash && ev.round > f.locked.value.round)
                  || (&& g.locked == Some(LockedBlock(f.round, ev.target.value))
                      && ev.round == f.round && f.step in {Propose, Prevote}))
  {
  }

  /** A block is committed, or kept as the one being committed, only on a precommit quorum of this height. */
  lemma CommitNeedsQuorum(f: Fsm, ev: Event, amProposer: bool, now: nat, hash: Hash)
    ensures var (g, actions) := StepFsm(f, ev, amProposer, now);
      && (forall h :: CommitBlock(h, hash) in actions ==>
            && h == f.height
            && (f.committing == Some(hash) || (ev.PrecommitQuorum? && ev.height == h && ev.target == Some(hash))))
      && (g.committing == Some(hash) ==>
            && g.height == f.height
            && (|| f.committing == Some(hash)
                || (ev.PrecommitQuorum? && ev.height == g.height && ev.target == Some(hash))))
  {
  }

  // ───────────── whole runs of one machine ─────────────

  datatype Input = Input(ev: Event, amProposer: bool, now: nat)

  function RunFsm(f: Fsm, inputs: seq<Input>): (Fsm, seq<Ballot>)
    decreases inputs
  {
    if inputs == [] then (f, [])
    else
      var (g, actions) := StepFsm(f, inputs[0].ev, inputs[0].amProposer, inputs[0].now);
      var (h, rest) := RunFsm(g, inputs[1..]);
      (h, BallotsOf(g, actions) + rest)
  }

  predicate NeverSaturates(f: Fsm, inputs: seq<Input>)
    decreases inputs
  {
    inputs != [] ==>
      && !Saturates(f, inputs[0].ev, inputs[0].now)
      && NeverSaturates(StepFsm(f, inputs[0].ev, inputs[0].amProposer, inputs[0].now).0, inputs[1..])
  }

  predicate StrictlyIncreasing(bs: seq<Ballot>) {
    forall i, j :: 0 <= i < j < |bs| ==> Before(SlotOf(bs[i]), SlotOf(bs[j]))
  }

  /** A ballot list that starts after `p`, ends by `q` and is strictly increasing. */
  predicate Between(p: Position, bs: seq<Ballot>, q: Position) {
    NotAfter(p, q) && StrictlyIncreasing(bs) && forall b | b in bs :: Before(p, SlotOf(b)) && NotAfter(SlotOf(b), q)
  }

  /** Over any event sequence the ballots cast are strictly increasing: never two in one slot. */
  lemma {:induction false} BallotsIncrease(f: Fsm, inputs: seq<Input>)
    requires NeverSaturates(f, inputs)
    ensures var (g, bs) := RunFsm(f, inputs); Between(Where(f), bs, Where(g))
    decreases inputs
  {
    if inputs != [] {
      var i0 := inputs[0];
      StepMovesOn(f, i0);
      var (g, actions) := StepFsm(f, i0.ev, i0.amProposer, i0.now);
      BallotsIncrease(g, inputs[1..]);
      OrderChains(Where(f), Where(g), BallotsOf(g, actions), RunFsm(g, inputs[1..]).1, Where(RunFsm(g, inputs[1..]).0));
    }
  }

  lemma StepMovesOn(f: Fsm, i: Input)
    requires !Saturates(f, i.ev, i.now)
    ensures var (g, actions) := StepFsm(f, i.ev, i.amProposer, i.now);
      Between(Where(f), BallotsOf(g, actions), Where(g))
  {
    NeverMovesBack(f, i.ev, i.amProposer, i.now);
    StepCastsByTheRules(f, i.ev, i.amProposer, i.now);
  }

  lemma OrderChains(p: Position, q: Position, bs: seq<Ballot>, cs: seq<Ballot>, r: Position)
    requires Between(p, bs, q) && Between(q, cs, r)
    ensures Between(p, bs + cs, r)
  {
    forall i, j | 0 <= i < j < |bs + cs|
      ensures Before(SlotOf((bs + cs)[i]), SlotOf((bs + cs)[j]))
    {
      if i < |bs| <= j {
        assert bs[i] in bs && cs[j - |bs|] in cs;
      }
    }
  }

  /** No proposal or round announcement of the run is for a round above the bound. */
  predicate RoundsUpTo(inputs: seq<Input>, bound: nat) {
    forall i | 0 <= i < |inputs| && (inputs[i].ev.ProposalSeen? || inputs[i].ev.HigherRoundSeen?) ::
      inputs[i].ev.round <= bound
  }

  /** A run that starts and stays that many steps below the last round and height takes no saturating branch. */
  lemma {:induction false} FarFromTheEndNeverSaturates(f: Fsm, inputs: seq<Input>, bound: nat)
    requires f.round <= bound && RoundsUpTo(inputs, bound)
    requires bound + |inputs| <= U32_MAX && f.height + |inputs| <= U64_MAX
    ensures NeverSaturates(f, inputs)
    decreases inputs
  {
    if inputs != [] {
      var g := StepFsm(f, inputs[0].ev, inputs[0].amProposer, inputs[0].now).0;
      StepClimbs(f, inputs[0], bound);
      assert forall i :: 0 <= i < |inputs[1..]| ==> inputs[1..][i] == inputs[i + 1];
      FarFromTheEndNeverSaturates(g, inputs[1..], bound + 1);
    }
  }

  lemma StepClimbs(f: Fsm, i: Input, bound: nat)
    requires f.round <= bound < U32_MAX && f.height < U64_MAX
    requires i.ev.ProposalSeen? || i.ev.HigherRoundSeen? ==> i.ev.round <= bound
    ensures var g := StepFsm(f, i.ev, i.amProposer, i.now).0; g.round <= bound + 1 && g.height <= f.height + 1
    ensures !Saturates(f, i.ev, i.now)
  {
  }

  /**
   At round 2^32-1 the promise fails: from a fresh machine, for any two blocks, five events make
   it prevote both in one slot. The fourth event is the saturating branch.
   */
  lemma SaturatedRoundDoubleVotes(f: Fsm, a: Hash, b: Hash) returns (inputs: seq<Input>)
    requires f == NewFsm(f.height, f.timeouts, f.startedAt)
    ensures !NeverSaturates(f, inputs)
    ensures var bs := RunFsm(f, inputs).1;
            && Ballot(f.height, U32_MAX, PrevoteVote, Some(a)) in bs
            && Ballot(f.height, U32_MAX, PrevoteVote, Some(b)) in bs
  {
    var t1 := f.startedAt + f.timeouts.prevote;
    var t2 := t1 + f.timeouts.precommit;
    var f0 := f.EnterRound(U32_MAX, f.startedAt);
    var f1 := f0.(proposal := Some(a)).EnterStep(Prevote, f.startedAt);
    var f2 := f1.EnterStep(Precommit, t1);
    var f3 := f2.EnterRound(U32_MAX, t2);
    var f4 := f3.(proposal := Some(b)).EnterStep(Prevote, t2);
    var i4 := [Input(ProposalSeen(f.height, U32_MAX, b), false, t2)];
    var i3 := [Input(Tick(t2), false, t2)] + i4;
    var i2 := [Input(Tick(t1), false, t1)] + i3;
    var i1 := [Input(ProposalSeen(f.height, U32_MAX, a), false, f.startedAt)] + i2;
    inputs := [Input(HigherRoundSeen(f.height, U32_MAX), false, f.startedAt)] + i1;
    assert Saturates(f2, Tick(t2), t2);
    assert i2[1..] == i3 && i1[1..] == i2 && inputs[1..] == i1 && i3[1..] == i4;
    assert StepFsm(f, inputs[0].ev, false, f.startedAt).0 == f0;
    assert [] + [BroadcastPrevote(Some(a))] == [BroadcastPrevote(Some(a))];
    assert [] + [BroadcastPrevote(Some(b))] == [BroadcastPrevote(Some(b))];
    assert StepFsm(f0, i1[0].ev, false, f.startedAt) == (f1, [BroadcastPrevote(Some(a))]);
    assert StepFsm(f1, i2[0].ev, false, t1).0 == f2;
    assert StepFsm(f2, i3[0].ev, false, t2).0 == f3;
    assert StepFsm(f3, i4[0].ev, false, t2) == (f4, [BroadcastPrevote(Some(b))]);
    assert !NeverSaturates(f2, i3) && !NeverSaturates(f1, i2) && !NeverSaturates(f0, i1);
    assert BallotsOf(f1, [BroadcastPrevote(Some(a))]) == [Ballot(f.height, U32_MAX, PrevoteVote, Some(a))];
    assert BallotsOf(f4, [BroadcastPrevote(Some(b))]) == [Ballot(f.height, U32_MAX, PrevoteVote, Some(b))];
    assert Ballot(f.height, U32_MAX, PrevoteVote, Some(b)) in RunFsm(f3, i4).1;
    assert Ballot(f.height, U32_MAX, PrevoteVote, Some(b)) in RunFsm(f2, i3).1;
    assert Ballot(f.height, U32_MAX, PrevoteVote, Some(b)) in RunFsm(f1, i2).1;
    assert Ballot(f.height, U32_MAX, PrevoteVote, Some(a)) in RunFsm(f0, i1).1;
    assert Ballot(f.height, U32_MAX, PrevoteVote, Some(b)) in RunFsm(f0, i1).1;
  }
}
