/** Frames inside frames: storage writes, the CALL family, CREATE, and the run of a whole frame. */
module ZvmSemantics {
  import opened Common
  import opened ZvmMachine
  import opened ZvmJumpdests
  import opened ZvmOpcodes

  const G_SSTORE_SET: u64 := 22_100
  const G_SSTORE_RESET: u64 := 5_000
  const SSTORE_REFUND: u64 := 4_800
  const G_CALL: u64 := 2_600
  const G_CALL_VALUE: u64 := 9_000
  const G_NEW_ACCOUNT: u64 := 25_000
  const G_CALL_STIPEND: u64 := 2_300
  const G_CREATE: u64 := 32_000
  const G_CODE_DEPOSIT: u64 := 200

  datatype CallKind = Call | CallCode | DelegateCall | StaticCall

  /** How a whole frame ends. A failure leaves nothing but its return data. */
  datatype RunResult =
    | Success(gasUsed: u64, data: seq<Byte>, world: World)
    | Failure(gasUsed: u64, data: seq<Byte>)
    | Panicked

  // ───────────── storage ─────────────

  function OpSstore(env: Env, ctx: Context, m: Machine): (r: StepResult)
    ensures Spends(m, r) && (r.Error? || (r.Continue? && r.m.pc == m.pc)) && (ctx.isStatic ==> r.Error?)
  {
    var n := |m.stack| - 2;
    if n < 0 || ctx.isStatic then Error
    else
      var key, val := m.stack[n + 1], m.stack[n];
      var prev := SloadAt(env, ctx, m.world, key);
      var cost := if prev == 0 && val != 0 then G_SSTORE_SET else G_SSTORE_RESET;
      if m.gas < cost then Error
      else
        var refunded := if prev != 0 && val == 0 then SatAdd64(m.world.refunded, SSTORE_REFUND) else m.world.refunded;
        Continue(m.(gas := m.gas - cost, stack := m.stack[..n],
                    world := m.world.(storage := m.world.storage[(ctx.address, key) := val], refunded := refunded)))
  }

  function OpTstore(ctx: Context, m: Machine): (r: StepResult)
    ensures Spends(m, r) && (r.Error? || (r.Continue? && r.m.pc == m.pc)) && (ctx.isStatic ==> r.Error?)
  {
    var n := |m.stack| - 2;
    if ctx.isStatic || m.gas < G_TRANSIENT || n < 0 then Error
    else
      Continue(m.(gas := m.gas - G_TRANSIENT, stack := m.stack[..n],
                  world := m.world.(transient := m.world.transient[(ctx.address, m.stack[n + 1]) := m.stack[n]])))
  }

  // ───────────── entering a call ─────────────

  /** Either the call ends before a frame is opened, or it has been paid for and `budget` is set aside. */
  datatype Entry =
    | Halt(r: StepResult)
    | Enter(m: Machine, to: Address, value: u128, calldata: seq<Byte>,
            budget: u64, outOff: u64, outSize: u64, entered: World)

  predicate TakesValue(kind: CallKind) {
    kind.Call? || kind.CallCode?
  }

  function CallArgs(kind: CallKind): (sized: seq<bool>)
    ensures |sized| == if TakesValue(kind) then 7 else 6
  {
    if TakesValue(kind) then [false, false, false, true, true, true, true] else [false, false, true, true, true, true]
  }

  predicate IsEmptyAccount(env: Env, a: Address) {
    match env.account(a)
    case None => true
    case Some(acct) => acct.nonce == 0 && acct.balance == 0 && acct.codeHash == env.emptyHash
  }

  function CallCost(env: Env, kind: CallKind, to: Address, value: u128): nat {
    G_CALL + if value == 0 then 0 else G_CALL_VALUE + if kind.Call? && IsEmptyAccount(env, to) then G_NEW_ACCOUNT else 0
  }

  /** The frame goes on with a zero on the stack and no return data. */
  function Refuse(m: Machine): StepResult {
    Continue(m.(returnData := [], stack := PushQuiet(m.stack, 0)))
  }

  /** All but a sixty-fourth of the gas left. */
  function AllButOne64th(gas: u64): u64 {
    gas - gas / 64
  }

  function Stipend(value: u128): u64 {
    if value > 0 then G_CALL_STIPEND else 0
  }

  /** The account entries a transferring CALL writes. */
  function Transferred(env: Env, ctx: Context, w: World, to: Address, value: u128): World {
    var payer, payee := AccountOf(env, ctx.address), AccountOf(env, to);
    w.(journal := w.journal.(touched := w.journal.touched + [
      (ctx.address, payer.(balance := SatSub(payer.balance, value))),
      (to, payee.(balance := SatAdd128(payee.balance, value)))]))
  }

  /** An entered call has paid at least the base price, counting what it sets aside. */
  predicate EntrySound(env: Env, ctx: Context, m: Machine, kind: CallKind, e: Entry) {
    match e
    case Halt(r) => (r.Error? || r.Panic? || r.Continue?) && Inline(m, r) && (r.Continue? ==> r.m.gas + G_CALL <= m.gas)
    case Enter(n, to, value, _, budget, outOff, outSize, entered) =>
      && (ctx.isStatic && kind.Call? ==> value == 0)
      && entered == (if kind.Call? && value > 0 then Transferred(env, ctx, m.world, to, value) else m.world)
      && n.gas + budget + G_CALL <= m.gas && n.world == m.world && n.pc == m.pc
      && budget <= 63 * (n.gas + 1) + Stipend(value)
      && |n.stack| + |CallArgs(kind)| == |m.stack| && n.stack == m.stack[..|n.stack|]
      && (outSize > 0 ==> outOff + outSize <= |n.memory|)
  }

  datatype Operands =
    Operands(gasArg: Word, to: Address, value: u128, inOff: u64, inSize: u64, outOff: u64, outSize: u64)

  /** The popped words by name; only CALL and CALLCODE carry a value. */
  function Named(kind: CallKind, args: seq<Word>): (o: Operands)
    requires |args| == |CallArgs(kind)| && forall i | 0 <= i < |args| :: CallArgs(kind)[i] ==> args[i] <= U64_MAX
    ensures !TakesValue(kind) ==> o.value == 0
  {
    if TakesValue(kind) then
      Operands(args[0], AddressOf(args[1]), args[2] % (U128_MAX + 1), args[3], args[4], args[5], args[6])
    else
      Operands(args[0], AddressOf(args[1]), 0, args[2], args[3], args[4], args[5])
  }

  function PrepareCall(env: Env, ctx: Context, m: Machine, kind: CallKind): (e: Entry)
    ensures EntrySound(env, ctx, m, kind, e)
  {
    match Pops(m, CallArgs(kind))
    case Broke(r) => Halt(r)
    case Taken(t, args) =>
      var o := Named(kind, args);
      if ctx.isStatic && kind.Call? && o.value > 0 then Halt(Error)
      else Window(env, ctx, t, kind, o.gasArg, o.to, o.value, o.inOff, o.inSize, o.outOff, o.outSize)
  }

  /** Reads the input and makes room for the output before the call itself is charged. */
  function Window(env: Env, ctx: Context, m: Machine, kind: CallKind, gasArg: Word, to: Address, value: u128,
                  inOff: u64, inSize: u64, outOff: u64, outSize: u64): (e: Entry)
    ensures e.Halt? ==> e.r.Error? || e.r.Panic? || e.r.Continue?
    ensures e.Halt? && e.r.Continue? ==>
      e.r.m.gas + G_CALL <= m.gas && e.r.m.world == m.world && e.r.m.pc == m.pc && e.r.m.stack == PushQuiet(m.stack, 0)
    ensures e.Enter? ==>
      && e.m.gas + e.budget + G_CALL <= m.gas && e.m.world == m.world && e.m.pc == m.pc && e.m.stack == m.stack
      && e.budget <= 63 * (e.m.gas + 1) + Stipend(value)
      && e.to == to && e.value == value && (e.outSize > 0 ==> e.outOff + e.outSize <= |e.m.memory|)
      && e.entered == if kind.Call? && value > 0 then Transferred(env, ctx, m.world, to, value) else m.world
  {
    match ReadMemory(m, inOff, inSize)
    case Refused => Halt(Error)
    case Crashed => Halt(Panic)
    case Granted(read, calldata) =>
      match Expand(read, outOff, outSize)
      case Refused => Halt(Error)
      case Crashed => Halt(Panic)
      case Granted(grown, _) => SetAside(env, ctx, grown, kind, gasArg, to, value, calldata, outOff, outSize)
  }

  /** Charges for the call and sets its gas aside. */
  function SetAside(env: Env, ctx: Context, m: Machine, kind: CallKind, gasArg: Word, to: Address, value: u128,
                    calldata: seq<Byte>, outOff: u64, outSize: u64): (e: Entry)
    ensures e.Halt? ==> e.r.Error? || (e.r.Continue? && e.r == Refuse(e.r.m.(stack := m.stack)))
    ensures e.Halt? && e.r.Continue? ==> e.r.m == m.(gas := e.r.m.gas, returnData := [], stack := PushQuiet(m.stack, 0))
    ensures e.Halt? && e.r.Continue? ==> e.r.m.gas + G_CALL <= m.gas
    ensures e.Enter? ==>
      && e.m == m.(gas := e.m.gas) && e.m.gas + e.budget + G_CALL <= m.gas
      && e.budget <= 63 * (e.m.gas + 1) + Stipend(value)
      && e.outOff == outOff && e.outSize == outSize && e.value == value && e.to == to
      && e.entered == if kind.Call? && value > 0 then Transferred(env, ctx, m.world, to, value) else m.world
  {
    var cost := CallCost(env, kind, to, value);
    if m.gas < cost then Halt(Error)
    else Admit(env, ctx, m.(gas := m.gas - cost), kind, gasArg, to, value, calldata, outOff, outSize)
  }

  /** A call too deep, or of more than the caller holds, is refused; any other is entered. */
  function Admit(env: Env, ctx: Context, m: Machine, kind: CallKind, gasArg: Word, to: Address, value: u128,
                 calldata: seq<Byte>, outOff: u64, outSize: u64): (e: Entry)
    ensures e.Halt? ==> e.r.Continue? && e.r == Refuse(m)
    ensures e.Enter? ==>
      && e.m == m.(gas := e.m.gas) && e.m.gas + e.budget <= m.gas + Stipend(value)
      && e.budget <= 63 * (e.m.gas + 1) + Stipend(value)
      && e.outOff == outOff && e.outSize == outSize && e.value == value && e.to == to
      && e.entered == if kind.Call? && value > 0 then Transferred(env, ctx, m.world, to, value) else m.world
  {
    if ctx.depth + 1 > CALL_DEPTH_LIMIT then Halt(Refuse(m))
    else if value > 0 && AccountOf(env, ctx.address).balance < value then Halt(Refuse(m))
    else
      var forward := Min(gasArg % (U64_MAX + 1), AllButOne64th(m.gas));
      Enter(m.(gas := m.gas - forward), to, value, calldata, SatAdd64(forward, Stipend(value)), outOff, outSize,
            if kind.Call? && value > 0 then Transferred(env, ctx, m.world, to, value) else m.world)
  }

  // ───────────── leaving a call ─────────────

  /** As much of the return data as fits the window the caller asked for. */
  function CopyBack(memory: seq<Byte>, outOff: nat, outSize: nat, data: seq<Byte>): seq<Byte>
    requires outSize > 0 ==> outOff + outSize <= |memory|
  {
    var n := Min(outSize, |data|);
    if n == 0 then memory else Overwrite(memory, outOff, data[..n])
  }

  /** Unspent gas comes back; a failure restores the world as it was before the transfer. */
  function Resume(e: Entry, ok: bool, gasUsed: u64, data: seq<Byte>, after: World): StepResult
    requires Payable(e)
  {
    Continue(e.m.(
      gas := e.m.gas + SatSub(e.budget, gasUsed),
      world := if ok then after else e.m.world,
      returnData := data,
      memory := CopyBack(e.m.memory, e.outOff, e.outSize, data),
      stack := PushQuiet(e.m.stack, if ok then 1 else 0)))
  }

  /** A successful child's buffers replace the parent's, and its entries follow the parent's. */
  function Adopt(parent: World, child: World): World {
    World(child.storage, child.transient,
          Journal(parent.journal.touched + child.journal.touched, parent.journal.code + child.journal.code),
          SatAdd64(parent.refunded, child.refunded))
  }

  /** What a child frame starts from: the parent's buffers, and nothing of its own. */
  function Inherited(w: World): World {
    World(w.storage, w.transient, NO_ENTRIES, 0)
  }

  function CalleeContext(ctx: Context, kind: CallKind, to: Address, value: u128, calldata: seq<Byte>): Context {
    Context(
      if kind.Call? || kind.StaticCall? then to else ctx.address,
      if kind.DelegateCall? then ctx.caller else ctx.address,
      ctx.origin,
      if kind.DelegateCall? then ctx.value else value,
      calldata,
      ctx.depth + 1,
      ctx.isStatic || kind.StaticCall?)
  }

  function TargetCode(env: Env, a: Address): seq<Byte> {
    var h := AccountOf(env, a).codeHash;
    if h == 0 || h == env.emptyHash then []
    else match env.code(h) case Some(c) => c case None => []
  }

  predicate Payable(e: Entry) {
    e.Enter? && e.m.gas + e.budget <= U64_MAX && (e.outSize > 0 ==> e.outOff + e.outSize <= |e.m.memory|)
  }

  /** A precompile answers at once, an account without code does nothing, and code runs in a frame of its own. */
  function Answer(env: Env, ctx: Context, kind: CallKind, e: Entry): (r: StepResult)
    requires Payable(e)
    ensures r.Panic? || (r.Continue? && r.m.gas <= e.m.gas + e.budget && r.m.pc == e.m.pc)
    ensures r.Continue? ==> r.m.stack == PushQuiet(e.m.stack, 0) || r.m.stack == PushQuiet(e.m.stack, 1)
    decreases e.budget, 5
  {
    match env.precompile(e.to, e.calldata, e.budget)
    case Some(out) => Resume(e, out.success, out.gasUsed, if out.success then out.returnData else [], e.entered)
    case None =>
      var code := TargetCode(env, e.to);
      if code == [] && e.value == 0 then Resume(e, true, 0, [], e.entered)
      else
        AfterRun(e, Run(env, CalleeContext(ctx, kind, e.to, e.value, e.calldata), CalleeMachine(e), code))
  }

  function AfterRun(e: Entry, res: RunResult): StepResult
    requires Payable(e)
  {
    match res
    case Success(used, data, world) => Resume(e, true, used, data, Adopt(e.entered, world))
    case Failure(used, data) => Resume(e, false, used, data, e.entered)
    case Panicked => Panic
  }

  function CalleeMachine(e: Entry): Machine
    requires e.Enter?
  {
    Machine(e.budget, [], [], [], 0, Inherited(e.m.world))
  }

  function OpCall(env: Env, ctx: Context, m: Machine, kind: CallKind): (r: StepResult)
    ensures r.Error? || r.Panic? || (r.Continue? && r.m.gas + G_CALL <= m.gas && r.m.pc == m.pc)
    ensures Spends(m, r)
    decreases m.gas, 0
  {
    var e := PrepareCall(env, ctx, m, kind);
    if e.Halt? then e.r else Answer(env, ctx, kind, e)
  }

  // ───────────── CREATE and CREATE2 ─────────────

  datatype Birth =
    | Unborn(r: StepResult)
    | Born(m: Machine, at: Address, value: u128, init: seq<Byte>, budget: u64, held: u128, entered: World)

  predicate Collides(env: Env, a: Address) {
    match env.account(a)
    case None => false
    case Some(acct) => acct.nonce != 0 || acct.codeHash != env.emptyHash
  }

  function Touch(w: World, a: Address, acct: Account): World {
    w.(journal := w.journal.(touched := w.journal.touched + [(a, acct)]))
  }

  function BumpedNonce(env: Env, a: Address): Account {
    var acct := AccountOf(env, a);
    acct.(nonce := SatAdd64(acct.nonce, 1))
  }

  /** The one entry a CREATE leaves behind even when it fails. */
  function NonceBumped(env: Env, ctx: Context, w: World): World {
    Touch(w, ctx.address, BumpedNonce(env, ctx.address))
  }

  function Debited(env: Env, ctx: Context, w: World, value: u128): World {
    var acct := BumpedNonce(env, ctx.address);
    if value == 0 then w else Touch(w, ctx.address, acct.(balance := SatSub(acct.balance, value)))
  }

  predicate BirthSound(env: Env, ctx: Context, m: Machine, b: Birth) {
    match b
    case Unborn(r) =>
      (r.Error? || r.Panic? || r.Continue?) && Inline(m, r) && (r.Continue? ==> r.m.gas + G_CREATE <= m.gas)
    case Born(n, _, value, _, budget, _, entered) =>
      && !ctx.isStatic && n.gas + budget + G_CREATE <= m.gas && n.pc == m.pc && |n.stack| + 3 <= |m.stack|
      && n.world == NonceBumped(env, ctx, m.world) && entered == Debited(env, ctx, n.world, value)
  }

  function CreateArgs(salted: bool): (sized: seq<bool>)
    ensures |sized| == (if salted then 4 else 3) && sized[1] && sized[2]
  {
    if salted then [false, true, true, false] else [false, true, true]
  }

  function PrepareCreate(env: Env, ctx: Context, m: Machine, salted: bool): (b: Birth)
    ensures BirthSound(env, ctx, m, b)
  {
    if ctx.isStatic then Unborn(Error)
    else
      match Take(m, G_CREATE, CreateArgs(salted))
      case Broke(r) => Unborn(r)
      case Taken(t, args) =>
        match ReadMemory(t, args[1], args[2])
        case Refused => Unborn(Error)
        case Crashed => Unborn(Panic)
        case Granted(read, init) =>
          Conceive(env, ctx, read, args[0] % (U128_MAX + 1), init, if salted then Some(args[3]) else None)
  }

  function Conceive(env: Env, ctx: Context, m: Machine, value: u128, init: seq<Byte>, salt: Option<Word>): (b: Birth)
    ensures b.Unborn? ==> b.r.Continue? && b.r.m == m.(returnData := b.r.m.returnData, stack := PushQuiet(m.stack, 0))
    ensures b.Born? ==>
      && b.m == m.(gas := b.m.gas, world := NonceBumped(env, ctx, m.world)) && b.m.gas + b.budget == m.gas
      && b.value == value && b.entered == Debited(env, ctx, b.m.world, value)
  {
    var payer := AccountOf(env, ctx.address);
    if |init| > MAX_INITCODE_SIZE then Unborn(Continue(m.(stack := PushQuiet(m.stack, 0))))
    else if ctx.depth + 1 > CALL_DEPTH_LIMIT || payer.balance < value then Unborn(Refuse(m))
    else
      var at := match salt
        case Some(s) => env.create2Address(ctx.address, s, init)
        case None => env.createAddress(ctx.address, payer.nonce);
      if Collides(env, at) then Unborn(Refuse(m))
      else
        var budget := AllButOne64th(m.gas);
        var bumped := NonceBumped(env, ctx, m.world);
        Born(m.(gas := m.gas - budget, world := bumped), at, value, init, budget, AccountOf(env, at).balance,
             Debited(env, ctx, bumped, value))
  }

  /** The runtime code is too long, starts with 0xEF, or cannot be paid for. */
  predicate Undeployable(gas: u64, code: seq<Byte>) {
    |code| > MAX_CODE_SIZE || (code != [] && code[0] == 0xef) || gas < |code| * G_CODE_DEPOSIT
  }

  /** The new account and its code, entered after everything the init code did. */
  function Deployed(env: Env, b: Birth, child: World, code: seq<Byte>): World
    requires b.Born?
  {
    var h := env.hash(code);
    var w := Touch(Adopt(b.entered, child), b.at, Account(1, SatAdd128(b.held, b.value), 0, h));
    w.(journal := w.journal.(code := w.journal.code + [(h, code)]))
  }

  function FinishCreate(env: Env, b: Birth, res: RunResult): (r: StepResult)
    requires b.Born? && b.m.gas + b.budget <= U64_MAX
    ensures r.Panic? || (r.Continue? && r.m.gas <= b.m.gas + b.budget && r.m.pc == b.m.pc)
    ensures r.Continue? ==> |r.m.stack| <= |b.m.stack| + 1
  {
    match res
    case Panicked => Panic
    case Failure(used, data) =>
      Continue(b.m.(gas := b.m.gas + SatSub(b.budget, used), returnData := data, stack := PushQuiet(b.m.stack, 0)))
    case Success(used, code, world) =>
      var back := b.m.(gas := b.m.gas + SatSub(b.budget, used));
      if Undeployable(back.gas, code) then Refuse(back)
      else
        Continue(back.(
          gas := back.gas - |code| * G_CODE_DEPOSIT,
          world := Deployed(env, b, world, code),
          returnData := [],
          stack := PushQuiet(back.stack, b.at)))
  }

  function CreatorContext(ctx: Context, at: Address, value: u128): Context {
    Context(at, ctx.address, ctx.origin, value, [], ctx.depth + 1, false)
  }

  function OpCreate(env: Env, ctx: Context, m: Machine, salted: bool): (r: StepResult)
    ensures r.Error? || r.Panic? || (r.Continue? && r.m.gas + G_CREATE <= m.gas && r.m.pc == m.pc)
    ensures Spends(m, r)
    decreases m.gas, 0
  {
    var b := PrepareCreate(env, ctx, m, salted);
    if b.Unborn? then b.r
    else
      var child := Machine(b.budget, [], [], [], 0, Inherited(b.m.world));
      FinishCreate(env, b, Run(env, CreatorContext(ctx, b.at, b.value), child, b.init))
  }

  // ───────────── steps and runs ─────────────

  predicate StepSound(m: Machine, code: seq<Byte>, r: StepResult)
    requires m.pc < |code|
  {
    && Spends(m, r)
    && (r.Continue? ==> r.m.pc + 1 == m.pc + Width(code[m.pc]))
    && (r.Jumped? ==> IsJumpdest(code, r.m.pc))
  }

  function Step(env: Env, ctx: Context, m: Machine, code: seq<Byte>): (r: StepResult)
    requires m.pc < |code|
    ensures StepSound(m, code, r)
    decreases m.gas, 2
  {
    Dispatch(env, ctx, m, code, code[m.pc])
  }

  function Dispatch(env: Env, ctx: Context, m: Machine, code: seq<Byte>, op: Byte): (r: StepResult)
    requires m.pc < |code| && op == code[m.pc]
    ensures StepSound(m, code, r)
    decreases m.gas, 1
  {
    match op
    case 0x55 => OpSstore(env, ctx, m)
    case 0x5d => OpTstore(ctx, m)
    case 0xf0 => OpCreate(env, ctx, m, false)
    case 0xf5 => OpCreate(env, ctx, m, true)
    case 0xf1 => OpCall(env, ctx, m, Call)
    case 0xf2 => OpCall(env, ctx, m, CallCode)
    case 0xf4 => OpCall(env, ctx, m, DelegateCall)
    case 0xfa => OpCall(env, ctx, m, StaticCall)
    case _ => LocalStep(env, ctx, m, code)
  }

  /** Every bytecode, on every gas amount, ends; and it reports no more gas than it was given. */
  function Run(env: Env, ctx: Context, m: Machine, code: seq<Byte>): (r: RunResult)
    ensures !r.Panicked? ==> r.gasUsed <= m.gas
    decreases m.gas, 4
  {
    if ctx.depth >= CALL_DEPTH_LIMIT then Failure(m.gas, []) else Loop(env, ctx, m, code, m.gas)
  }

  function Loop(env: Env, ctx: Context, m: Machine, code: seq<Byte>, given: u64): (r: RunResult)
    requires m.gas <= given
    ensures !r.Panicked? ==> r.gasUsed <= given
    decreases m.gas, 3
  {
    if m.pc >= |code| then Success(given - m.gas, [], m.world)
    else
      match Step(env, ctx, m, code)
      case Continue(n) => Loop(env, ctx, n.(pc := n.pc + 1), code, given)
      case Jumped(n) => Loop(env, ctx, n, code, given)
      case last => Conclude(last, given)
  }

  /** A frame in error is charged everything it was given; any other pays for what it used. */
  function Conclude(last: StepResult, given: u64): (r: RunResult)
    requires !last.Continue? && !last.Jumped? && (!last.Error? && !last.Panic? ==> last.m.gas <= given)
    ensures !r.Panicked? ==> r.gasUsed <= given
    ensures r.Success? ==> !last.Error? && !last.Panic? && r.world == last.m.world
  {
    match last
    case Return(n, data) => Success(given - n.gas, data, n.world)
    case Revert(n, data) => Failure(given - n.gas, data)
    case Stop(n) => Success(given - n.gas, [], n.world)
    case Error => Failure(given, [])
    case Panic => Panicked
  }
}
