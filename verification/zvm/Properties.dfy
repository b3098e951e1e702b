/** What holds of every run, at every nesting depth: purity, rollback, journal growth, instruction boundaries. */
module ZvmProperties {
  import opened Common
  import opened ZvmMachine
  import opened ZvmJumpdests
  import opened ZvmOpcodes
  import opened ZvmSemantics

  /** A code entry a CREATE may have written. */
  predicate WellDeployed(env: Env, entry: (Hash, seq<Byte>)) {
    entry.0 == env.hash(entry.1) && |entry.1| <= MAX_CODE_SIZE && (entry.1 != [] ==> entry.1[0] != 0xef)
  }

  /** The world after code ran: untouched if static; otherwise older entries stay and new code is deployable. */
  predicate Follows(env: Env, isStatic: bool, before: World, after: World) {
    && (isStatic ==> after == before)
    && before.journal.touched <= after.journal.touched
    && before.journal.code <= after.journal.code
    && before.refunded <= after.refunded
    && forall i | |before.journal.code| <= i < |after.journal.code| :: WellDeployed(env, after.journal.code[i])
  }

  lemma FollowsChains(env: Env, isStatic: bool, a: World, b: World, c: World)
    requires Follows(env, isStatic, a, b) && Follows(env, isStatic, b, c)
    ensures Follows(env, isStatic, a, c)
  {
    forall i | |a.journal.code| <= i < |c.journal.code|
      ensures WellDeployed(env, c.journal.code[i])
    {
      if i < |b.journal.code| {
        assert c.journal.code[i] == b.journal.code[i];
      }
    }
  }

  lemma AdoptFollows(env: Env, parent: World, start: World, child: World, isStatic: bool)
    requires start.journal == NO_ENTRIES && start.refunded == 0
    requires parent.storage == start.storage && parent.transient == start.transient
    requires Follows(env, isStatic, start, child)
    ensures Follows(env, isStatic, parent, Adopt(parent, child))
  {
    var after := Adopt(parent, child);
    forall i | |parent.journal.code| <= i < |after.journal.code|
      ensures WellDeployed(env, after.journal.code[i])
    {
      assert after.journal.code[i] == child.journal.code[i - |parent.journal.code|];
    }
    if isStatic {
      assert after.journal.touched == parent.journal.touched + [] == parent.journal.touched;
      assert after.journal.code == parent.journal.code + [] == parent.journal.code;
    }
  }

  // ───────────── purity and growth, by induction through nested frames ─────────────

  lemma {:induction false} RunFollows(env: Env, ctx: Context, m: Machine, code: seq<Byte>)
    ensures var r := Run(env, ctx, m, code); r.Success? ==> Follows(env, ctx.isStatic, m.world, r.world)
    decreases m.gas, 4
  {
    if ctx.depth < CALL_DEPTH_LIMIT {
      LoopFollows(env, ctx, m, code, m.gas);
    }
  }

  lemma {:induction false} LoopFollows(env: Env, ctx: Context, m: Machine, code: seq<Byte>, given: u64)
    requires m.gas <= given
    ensures var r := Loop(env, ctx, m, code, given); r.Success? ==> Follows(env, ctx.isStatic, m.world, r.world)
    decreases m.gas, 3
  {
    if m.pc < |code| {
      StepFollows(env, ctx, m, code);
      var last := Step(env, ctx, m, code);
      if last.Continue? || last.Jumped? {
        var next := if last.Continue? then last.m.(pc := last.m.pc + 1) else last.m;
        var r := Loop(env, ctx, next, code, given);
        LoopFollows(env, ctx, next, code, given);
        assert r == Loop(env, ctx, m, code, given);
        if r.Success? {
          FollowsChains(env, ctx.isStatic, m.world, next.world, r.world);
        }
      }
    }
  }

  lemma {:induction false} StepFollows(env: Env, ctx: Context, m: Machine, code: seq<Byte>)
    requires m.pc < |code|
    ensures var r := Step(env, ctx, m, code); !r.Error? && !r.Panic? ==> Follows(env, ctx.isStatic, m.world, r.m.world)
    decreases m.gas, 1
  {
    match code[m.pc] {
      case 0x55 =>
      case 0x5d =>
      case 0xf0 => CreateFollows(env, ctx, m, false);
      case 0xf5 => CreateFollows(env, ctx, m, true);
      case 0xf1 => CallFollows(env, ctx, m, Call);
      case 0xf2 => CallFollows(env, ctx, m, CallCode);
      case 0xf4 => CallFollows(env, ctx, m, DelegateCall);
      case 0xfa => CallFollows(env, ctx, m, StaticCall);
      case _ =>
    }
  }

  /** A STATICCALL, like any call made inside a static frame, leaves the world as it was. */
  lemma {:induction false} CallFollows(env: Env, ctx: Context, m: Machine, kind: CallKind)
    ensures var r := OpCall(env, ctx, m, kind);
      r.Continue? ==> Follows(env, ctx.isStatic || kind.StaticCall?, m.world, r.m.world)
    decreases m.gas, 0
  {
    var e := PrepareCall(env, ctx, m, kind);
    if e.Enter? {
      assert Follows(env, ctx.isStatic || kind.StaticCall?, m.world, e.entered);
      AnswerFollows(env, ctx, kind, e);
      var r := Answer(env, ctx, kind, e);
      if r.Continue? && r.m.world != e.m.world {
        FollowsChains(env, ctx.isStatic || kind.StaticCall?, m.world, e.entered, r.m.world);
      }
    }
  }

  lemma {:induction false} AnswerFollows(env: Env, ctx: Context, kind: CallKind, e: Entry)
    requires Payable(e) && e.entered.storage == e.m.world.storage && e.entered.transient == e.m.world.transient
    ensures var r := Answer(env, ctx, kind, e);
      r.Continue? && r.m.world != e.m.world ==> Follows(env, ctx.isStatic || kind.StaticCall?, e.entered, r.m.world)
    decreases e.budget, 5
  {
    var callee := CalleeContext(ctx, kind, e.to, e.value, e.calldata);
    var code := TargetCode(env, e.to);
    RunFollows(env, callee, CalleeMachine(e), code);
    var r := Run(env, callee, CalleeMachine(e), code);
    if r.Success? {
      AdoptFollows(env, e.entered, CalleeMachine(e).world, r.world, callee.isStatic);
    }
  }

  lemma {:induction false} CreateFollows(env: Env, ctx: Context, m: Machine, salted: bool)
    ensures var r := OpCreate(env, ctx, m, salted); r.Continue? ==> Follows(env, ctx.isStatic, m.world, r.m.world)
    decreases m.gas, 0
  {
    var b := PrepareCreate(env, ctx, m, salted);
    if b.Born? {
      var child := Machine(b.budget, [], [], [], 0, Inherited(b.m.world));
      var creator := CreatorContext(ctx, b.at, b.value);
      RunFollows(env, creator, child, b.init);
      assert Follows(env, false, m.world, b.m.world) && Follows(env, false, m.world, b.entered);
      FinishFollows(env, m.world, b, Run(env, creator, child, b.init));
    }
  }

  lemma FinishFollows(env: Env, before: World, b: Birth, res: RunResult)
    requires b.Born? && b.m.gas + b.budget <= U64_MAX
    requires Follows(env, false, before, b.m.world) && Follows(env, false, before, b.entered)
    requires b.entered.storage == b.m.world.storage && b.entered.transient == b.m.world.transient
    requires res.Success? ==> Follows(env, false, Inherited(b.m.world), res.world)
    ensures var r := FinishCreate(env, b, res); r.Continue? ==> Follows(env, false, before, r.m.world)
  {
    if res.Success? && !Undeployable(b.m.gas + SatSub(b.budget, res.gasUsed), res.data) {
      AdoptFollows(env, b.entered, Inherited(b.m.world), res.world, false);
      FollowsChains(env, false, before, b.entered, Adopt(b.entered, res.world));
      DeployFollows(env, b, res.world, res.data);
      FollowsChains(env, false, before, Adopt(b.entered, res.world), Deployed(env, b, res.world, res.data));
    }
  }

  lemma DeployFollows(env: Env, b: Birth, child: World, code: seq<Byte>)
    requires b.Born? && |code| <= MAX_CODE_SIZE && (code != [] ==> code[0] != 0xef)
    ensures Follows(env, false, Adopt(b.entered, child), Deployed(env, b, child, code))
  {
  }

  /** EIP-214 at any depth: a static frame that succeeds hands back the world it was given. */
  lemma StaticFrameIsPure(env: Env, ctx: Context, m: Machine, code: seq<Byte>)
    requires ctx.isStatic
    ensures var r := Run(env, ctx, m, code); r.Success? ==> r.world == m.world
  {
    RunFollows(env, ctx, m, code);
  }

  // ───────────── rollback ─────────────

  function Top(m: Machine): Word
    requires m.stack != []
  {
    m.stack[|m.stack| - 1]
  }

  /** A call answers 0 or 1, and 0 means storage, transient storage, journal and refunds are as before it. */
  lemma FailedCallRollsBack(env: Env, ctx: Context, m: Machine, kind: CallKind)
    requires |m.stack| <= STACK_LIMIT
    ensures var r := OpCall(env, ctx, m, kind);
      r.Continue? ==> r.m.stack != [] && Top(r.m) <= 1 && (Top(r.m) == 0 ==> r.m.world == m.world)
  {
    var e := PrepareCall(env, ctx, m, kind);
    if e.Halt? {
      HaltedCallAnswersZero(env, ctx, m, kind);
    } else {
      ZeroAnswerRollsBack(env, ctx, kind, e);
    }
  }

  lemma ZeroAnswerRollsBack(env: Env, ctx: Context, kind: CallKind, e: Entry)
    requires Payable(e) && |e.m.stack| < STACK_LIMIT
    ensures var r := Answer(env, ctx, kind, e);
      r.Continue? ==> r.m.stack != [] && Top(r.m) <= 1 && (Top(r.m) == 0 ==> r.m.world == e.m.world)
  {
  }

  lemma HaltedCallAnswersZero(env: Env, ctx: Context, m: Machine, kind: CallKind)
    requires |m.stack| <= STACK_LIMIT && PrepareCall(env, ctx, m, kind).Halt?
    ensures var r := PrepareCall(env, ctx, m, kind).r; r.Continue? ==> r.m.stack != [] && Top(r.m) == 0
  {
  }

  /** The creation goes ahead, at an address that derives to zero: then 0 is also the answer to success. */
  ghost predicate BornAtZero(env: Env, ctx: Context, m: Machine, salted: bool) {
    var b := PrepareCreate(env, ctx, m, salted);
    b.Born? && b.at == 0
  }

  /** A CREATE that answers 0 leaves the world as it was, but for the one entry that bumps the creator's nonce. */
  lemma FailedCreateKeepsOnlyNonce(env: Env, ctx: Context, m: Machine, salted: bool)
    requires |m.stack| <= STACK_LIMIT
    ensures var r := OpCreate(env, ctx, m, salted);
      && (r.Continue? ==> r.m.stack != [])
      && (r.Continue? && Top(r.m) == 0 && !BornAtZero(env, ctx, m, salted) ==>
            r.m.world == m.world || r.m.world == NonceBumped(env, ctx, m.world))
  {
    var b := PrepareCreate(env, ctx, m, salted);
    if b.Unborn? {
      UnbornAnswersZero(env, ctx, m, salted);
    } else {
      var child := Machine(b.budget, [], [], [], 0, Inherited(b.m.world));
      ZeroBirthRollsBack(env, b, Run(env, CreatorContext(ctx, b.at, b.value), child, b.init));
    }
  }

  lemma ZeroBirthRollsBack(env: Env, b: Birth, res: RunResult)
    requires b.Born? && b.m.gas + b.budget <= U64_MAX && |b.m.stack| < STACK_LIMIT
    ensures var r := FinishCreate(env, b, res);
      && (r.Continue? ==> r.m.stack != [])
      && (r.Continue? && Top(r.m) == 0 && b.at != 0 ==> r.m.world == b.m.world)
  {
  }

  lemma UnbornAnswersZero(env: Env, ctx: Context, m: Machine, salted: bool)
    requires |m.stack| <= STACK_LIMIT && PrepareCreate(env, ctx, m, salted).Unborn?
    ensures var r := PrepareCreate(env, ctx, m, salted).r; r.Continue? ==> r.m.stack != [] && Top(r.m) == 0
  {
  }

  // ───────────── instruction boundaries ─────────────

  lemma StepStaysOnInstructions(env: Env, ctx: Context, m: Machine, code: seq<Byte>)
    requires m.pc < |code| && IsStart(code, m.pc)
    ensures var r := Step(env, ctx, m, code);
      && (r.Continue? ==> IsStart(code, r.m.pc + 1))
      && (r.Jumped? ==> IsJumpdest(code, r.m.pc))
  {
    ReachesStep(code, 0, m.pc);
  }

  /** The program counters a run passes through. */
  function Visited(env: Env, ctx: Context, m: Machine, code: seq<Byte>): seq<nat>
    decreases m.gas
  {
    if m.pc >= |code| then []
    else
      [m.pc] +
      match Step(env, ctx, m, code)
      case Continue(n) => Visited(env, ctx, n.(pc := n.pc + 1), code)
      case Jumped(n) => Visited(env, ctx, n, code)
      case _ => []
  }

  /** Wherever a run goes inside the code, it is at an instruction, never in the data of a push. */
  lemma {:induction false} RunVisitsOnlyInstructions(env: Env, ctx: Context, m: Machine, code: seq<Byte>)
    requires IsStart(code, m.pc)
    ensures forall pc | pc in Visited(env, ctx, m, code) :: pc < |code| && IsStart(code, pc)
    decreases m.gas
  {
    if m.pc < |code| {
      StepStaysOnInstructions(env, ctx, m, code);
      match Step(env, ctx, m, code) {
        case Continue(n) => RunVisitsOnlyInstructions(env, ctx, n.(pc := n.pc + 1), code);
        case Jumped(n) => RunVisitsOnlyInstructions(env, ctx, n, code);
        case _ =>
      }
    }
  }

  // ───────────── storage and memory read back what was written ─────────────

  /** Storage is a map per address: the slot written reads back, and no other slot of any address moves. */
  lemma SstoreReadsBack(env: Env, ctx: Context, m: Machine, other: Context, key: Word)
    requires OpSstore(env, ctx, m).Continue?
    ensures var (n, w, k) := (|m.stack|, OpSstore(env, ctx, m).m.world, m.stack[|m.stack| - 1]);
      SloadAt(env, other, w, key) ==
      if (other.address, key) == (ctx.address, k) then m.stack[n - 2] else SloadAt(env, other, m.world, key)
  {
  }

  /** A word stored to memory loads back, whatever the offset. */
  lemma MstoreLoadsBack(m: Machine)
    requires OpMstore(m, 32).Continue? && |m.stack| <= STACK_LIMIT
    ensures var (n, off, w) := (OpMstore(m, 32).m, m.stack[|m.stack| - 1], m.stack[|m.stack| - 2]);
      off <= U64_MAX && LoadWord(n, off) == Continue(n.(stack := n.stack + [w]))
  {
    var t := Take(m, G_VERY_LOW, [false, false]);
    var popped := PopArgs(m.stack, [false, false]);
    assert t.args == popped.args;
    WordRoundTrip(t.args[1], 32);
    StoredWordLoads(t.m, t.args[0], BytesOf(t.args[1], 32), t.args[1]);
  }

  lemma StoredWordLoads(m: Machine, off: Word, bs: seq<Byte>, w: Word)
    requires |bs| == 32 && ValueOf(bs) == w && StoreBytes(m, off, bs).Continue? && |m.stack| < STACK_LIMIT
    ensures var n := StoreBytes(m, off, bs).m;
      off <= U64_MAX && LoadWord(n, off) == Continue(n.(stack := m.stack + [w]))
  {
    var n := StoreBytes(m, off, bs).m;
    assert n.memory[off..off + 32] == bs;
    assert ReadMemory(n, off, 32) == Granted(n, bs);
  }
}
