/**
 The consensus state machine of one validator: Propose, Prevote, Precommit, Commit,
 with the lock a validator takes when it precommits a block and the rule that releases it.

 `Fsm` and the functions below it are the specification; the class `FsmState` updates its
 fields in place and is proved against them.
 */
module ConsensusFsm {
  import opened Common
  import opened ConsensusTypes

  datatype Step = Propose | Prevote | Precommit | Commit

  datatype LockedBlock = LockedBlock(round: u32, hash: Hash)

  datatype ValidBlock = ValidBlock(round: u32, hash: Hash)

  /** Step durations, in the clock's own unit. */
  datatype Timeouts = Timeouts(propose: nat, prevote: nat, precommit: nat, commit: nat)

  datatype Event =
    | Tick(now: nat)
    | ProposalSeen(height: u64, round: u32, blockHash: Hash)
    | PrevoteQuorum(height: u64, round: u32, target: Option<Hash>)
    | PrecommitQuorum(height: u64, round: u32, target: Option<Hash>)
    | HigherRoundSeen(height: u64, round: u32)
    | BlockApplied(height: u64, hash: Hash)

  datatype Action =
    | BuildProposal(reuseValid: Option<Hash>)
    | BroadcastPrevote(target: Option<Hash>)
    | BroadcastPrecommit(target: Option<Hash>)
    | CommitBlock(height: u64, hash: Hash)
    | EnteredRound(height: u64, round: u32)
    | EnteredHeight(height: u64)

  datatype Fsm = Fsm(
    height: u64,
    round: u32,
    step: Step,
    startedAt: nat,
    locked: Option<LockedBlock>,
    valid: Option<ValidBlock>,
    proposal: Option<Hash>,
    committing: Option<Hash>,
    timeouts: Timeouts
  ) {
    function EnterRound(newRound: u32, now: nat): Fsm {
      this.(round := newRound, step := Propose, startedAt := now, proposal := None)
    }

    function EnterHeight(newHeight: u64, now: nat): Fsm {
      Fsm(newHeight, 0, Propose, now, None, None, None, None, timeouts)
    }

    function EnterStep(s: Step, now: nat): Fsm {
      this.(step := s, startedAt := now)
    }
  }

  function NewFsm(height: u64, timeouts: Timeouts, now: nat): Fsm {
    Fsm(height, 0, Propose, now, None, None, None, None, timeouts)
  }

  function PrevoteTargetForProposal(proposal: Hash, locked: Option<LockedBlock>, proposalIsValid: bool): Option<Hash> {
    if !proposalIsValid then None
    else if locked.None? || locked.value.hash == proposal then Some(proposal)
    else None
  }

  function PrevoteTargetOnTimeout(locked: Option<LockedBlock>): Option<Hash> {
    if locked.None? then None else Some(locked.value.hash)
  }

  // ───────────── transition function ─────────────

  function OnTick(f: Fsm, amProposer: bool, now: nat): (Fsm, seq<Action>) {
    var elapsed := SatSub(now, f.startedAt);
    match f.step
    case Propose =>
      var build := if amProposer && f.proposal.None?
                   then [BuildProposal(if f.valid.Some? then Some(f.valid.value.hash) else None)] else [];
      if elapsed >= f.timeouts.propose then
        (f.EnterStep(Prevote, now), build + [BroadcastPrevote(PrevoteTargetOnTimeout(f.locked))])
      else (f, build)
    case Prevote =>
      if elapsed >= f.timeouts.prevote then (f.EnterStep(Precommit, now), [BroadcastPrecommit(None)]) else (f, [])
    case Precommit =>
      if elapsed >= f.timeouts.precommit then BumpRound(f, now) else (f, [])
    case Commit =>
      if elapsed >= f.timeouts.commit && f.committing.Some?
      then (f.(startedAt := now), [CommitBlock(f.height, f.committing.value)])
      else (f, [])
  }

  function BumpRound(f: Fsm, now: nat): (Fsm, seq<Action>) {
    var r := SatAdd32(f.round, 1);
    (f.EnterRound(r, now), [EnteredRound(f.height, r)])
  }

  function OnProposal(f: Fsm, round: u32, blockHash: Hash, now: nat): (Fsm, seq<Action>) {
    if round < f.round then (f, [])
    else
      var (g, acts) := OnHigherRound(f, round, now);
      var g' := g.(proposal := Some(blockHash));
      if g'.step != Propose then (g', acts)
      else (g'.EnterStep(Prevote, now),
            acts + [BroadcastPrevote(PrevoteTargetForProposal(blockHash, g'.locked, true))])
  }

  /** Valid-block tracking and lock release, done for a quorum of any round. */
  function NoteQuorum(f: Fsm, round: u32, hash: Hash): Fsm {
    var valid' := if round >= f.round && (f.valid.None? || round > f.valid.value.round)
                  then Some(ValidBlock(round, hash)) else f.valid;
    var locked' := if f.locked.Some? && round > f.locked.value.round && hash != f.locked.value.hash
                   then None else f.locked;
    f.(valid := valid', locked := locked')
  }

  function OnPrevoteQuorum(f: Fsm, round: u32, target: Option<Hash>, now: nat): (Fsm, seq<Action>) {
    var g := if target.Some? then NoteQuorum(f, round, target.value) else f;
    if round != g.round || (g.step != Prevote && g.step != Propose) then (g, [])
    else
      var own := if target.Some? && g.proposal == target then target else None;
      var g' := if own.Some? then g.(locked := Some(LockedBlock(g.round, own.value))) else g;
      (g'.EnterStep(Precommit, now), [BroadcastPrecommit(own)])
  }

  function OnPrecommitQuorum(f: Fsm, round: u32, target: Option<Hash>, now: nat): (Fsm, seq<Action>) {
    if target.Some? then
      (f.(committing := target).EnterStep(Commit, now), [CommitBlock(f.height, target.value)])
    else if round == f.round && f.committing.None? then BumpRound(f, now)
    else (f, [])
  }

  function OnBlockApplied(f: Fsm, hash: Hash, now: nat): (Fsm, seq<Action>) {
    if f.step != Commit || f.committing != Some(hash) then (f, [])
    else
      var h := SatAdd64(f.height, 1);
      (f.EnterHeight(h, now), [EnteredHeight(h)])
  }

  function OnHigherRound(f: Fsm, round: u32, now: nat): (Fsm, seq<Action>) {
    if round > f.round then (f.EnterRound(round, now), [EnteredRound(f.height, round)]) else (f, [])
  }

  function StepFsm(f: Fsm, ev: Event, amProposer: bool, now: nat): (Fsm, seq<Action>) {
    if !ev.Tick? && ev.height != f.height then (f, [])
    else match ev
      case Tick(_) => OnTick(f, amProposer, now)
      case ProposalSeen(_, r, b) => OnProposal(f, r, b, now)
      case PrevoteQuorum(_, r, t) => OnPrevoteQuorum(f, r, t, now)
      case PrecommitQuorum(_, r, t) => OnPrecommitQuorum(f, r, t, now)
      case HigherRoundSeen(_, r) => OnHigherRound(f, r, now)
      case BlockApplied(_, b) => OnBlockApplied(f, b, now)
  }

  // ───────────── the imperative state machine ─────────────

  class FsmState {
    var height: u64
    var round: u32
    var step: Step
    var stepStartedAt: nat
    var locked: Option<LockedBlock>
    var valid: Option<ValidBlock>
    var proposal: Option<Hash>
    var committing: Option<Hash>
    const timeouts: Timeouts

    function View(): Fsm
      reads this
    {
      Fsm(height, round, step, stepStartedAt, locked, valid, proposal, committing, timeouts)
    }

    constructor (height: u64, timeouts: Timeouts, now: nat)
      ensures View() == NewFsm(height, timeouts, now)
    {
      this.height, this.round, this.step, this.stepStartedAt := height, 0, Propose, now;
      this.locked, this.valid, this.proposal, this.committing := None, None, None, None;
      this.timeouts := timeouts;
    }

    method EnterRound(newRound: u32, now: nat)
      modifies this
      ensures View() == old(View()).EnterRound(newRound, now)
    {
      round := newRound;
      step := Propose;
      stepStartedAt := now;
      proposal := None;
    }

    method EnterHeight(newHeight: u64, now: nat)
      modifies this
      ensures View() == old(View()).EnterHeight(newHeight, now)
    {
      height := newHeight;
      round := 0;
      step := Propose;
      stepStartedAt := now;
      locked, valid, proposal, committing := None, None, None, None;
    }

    method EnterStep(s: Step, now: nat)
      modifies this
      ensures View() == old(View()).EnterStep(s, now)
    {
      step := s;
      stepStartedAt := now;
    }

    method Advance(ev: Event, amProposer: bool, now: nat) returns (actions: seq<Action>)
      modifies this
      ensures (View(), actions) == StepFsm(old(View()), ev, amProposer, now)
    {
      if !ev.Tick? && ev.height != height {
        return [];
      }
      match ev
      case Tick(_) => actions := HandleTick(amProposer, now);
      case ProposalSeen(_, r, b) => actions := HandleProposal(r, b, now);
      case PrevoteQuorum(_, r, t) => actions := HandlePrevoteQuorum(r, t, now);
      case PrecommitQuorum(_, r, t) => actions := HandlePrecommitQuorum(r, t, now);
      case HigherRoundSeen(_, r) => actions := HandleHigherRound(r, now);
      case BlockApplied(_, b) => actions := HandleBlockApplied(b, now);
    }

    method HandleTick(amProposer: bool, now: nat) returns (actions: seq<Action>)
      modifies this
      ensures (View(), actions) == OnTick(old(View()), amProposer, now)
    {
      var elapsed := SatSub(now, stepStartedAt);
      actions := [];
      match step
      case Propose =>
        if amProposer && proposal.None? {
          actions := [BuildProposal(if valid.Some? then Some(valid.value.hash) else None)];
        }
        if elapsed >= timeouts.propose {
          actions := actions + [BroadcastPrevote(PrevoteTargetOnTimeout(locked))];
          EnterStep(Prevote, now);
        }
      case Prevote =>
        if elapsed >= timeouts.prevote {
          actions := [BroadcastPrecommit(None)];
          EnterStep(Precommit, now);
        }
      case Precommit =>
        if elapsed >= timeouts.precommit {
          var newRound := SatAdd32(round, 1);
          EnterRound(newRound, now);
          actions := [EnteredRound(height, newRound)];
        }
      case Commit =>
        if elapsed >= timeouts.commit {
          if committing.Some? {
            actions := [CommitBlock(height, committing.value)];
            stepStartedAt := now;
          }
        }
    }

    method HandleProposal(r: u32, blockHash: Hash, now: nat) returns (actions: seq<Action>)
      modifies this
      ensures (View(), actions) == OnProposal(old(View()), r, blockHash, now)
    {
      actions := [];
      if r < round {
        return;
      }
      if r > round {
        EnterRound(r, now);
        actions := [EnteredRound(height, r)];
      }
      proposal := Some(blockHash);
      if step != Propose {
        return;
      }
      var target := PrevoteTargetForProposal(blockHash, locked, true);
      actions := actions + [BroadcastPrevote(target)];
      EnterStep(Prevote, now);
    }

    method HandlePrevoteQuorum(r: u32, target: Option<Hash>, now: nat) returns (actions: seq<Action>)
      modifies this
      ensures (View(), actions) == OnPrevoteQuorum(old(View()), r, target, now)
    {
      actions := [];
      if target.Some? {
        if r >= round {
          if valid.None? || r > valid.value.round {
            valid := Some(ValidBlock(r, target.value));
          }
        }
        if locked.Some? {
          if r > locked.value.round && target.value != locked.value.hash {
            locked := None;
          }
        }
      }
      if r != round {
        return;
      }
      if step != Prevote && step != Propose {
        return;
      }
      var precommitTarget := if target.Some? && proposal == target then target else None;
      if precommitTarget.Some? {
        locked := Some(LockedBlock(round, precommitTarget.value));
      }
      actions := [BroadcastPrecommit(precommitTarget)];
      EnterStep(Precommit, now);
    }

    method HandlePrecommitQuorum(r: u32, target: Option<Hash>, now: nat) returns (actions: seq<Action>)
      modifies this
      ensures (View(), actions) == OnPrecommitQuorum(old(View()), r, target, now)
    {
      actions := [];
      if target.Some? {
        committing := target;
        actions := [CommitBlock(height, target.value)];
        EnterStep(Commit, now);
        return;
      }
      if r == round && committing.None? {
        var newRound := SatAdd32(round, 1);
        EnterRound(newRound, now);
        actions := [EnteredRound(height, newRound)];
      }
    }

    method HandleBlockApplied(hash: Hash, now: nat) returns (actions: seq<Action>)
      modifies this
      ensures (View(), actions) == OnBlockApplied(old(View()), hash, now)
    {
      actions := [];
      if step != Commit {
        return;
      }
      if committing != Some(hash) {
        return;
      }
      var newHeight := SatAdd64(height, 1);
      EnterHeight(newHeight, now);
      actions := [EnteredHeight(newHeight)];
    }

    method HandleHigherRound(r: u32, now: nat) returns (actions: seq<Action>)
      modifies this
      ensures (View(), actions) == OnHigherRound(old(View()), r, now)
    {
      actions := [];
      if r > round {
        EnterRound(r, now);
        actions := [EnteredRound(height, r)];
      }
    }
  }
}
