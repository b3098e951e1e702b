/**
 The opcodes that stay inside their frame: stack, memory, jumps and reads of the outside world.

 An opcode has a head, which pays and pops in the order the source does, and a tail, which may pay
 again, touch memory and push. A head that cannot pay or pop ends the frame in error; a conversion
 that does not fit a machine word panics, even when a later pop would have failed. The order of the
 two is kept, so the model errs where the source errs and panics where it panics. Stack effect and
 gas are exact for every opcode; the word an arithmetic opcode pushes is a parameter.
 */
module ZvmOpcodes {
  import opened Common
  import opened Arith
  import opened ZvmMachine
  import opened ZvmJumpdests

  const G_BASE: u64 := 2
  const G_VERY_LOW: u64 := 3
  const G_LOW: u64 := 5
  const G_MID: u64 := 8
  const G_HIGH: u64 := 10
  const G_EXP_BYTE: u64 := 50
  const G_KECCAK: u64 := 30
  const G_KECCAK_WORD: u64 := 6
  const G_COPY: u64 := 3
  const G_LOG: u64 := 375
  const G_LOG_TOPIC: u64 := 375
  const G_LOG_DATA: u64 := 8
  const G_SLOAD: u64 := 2_100
  const G_TRANSIENT: u64 := 100
  const G_EXTERNAL: u64 := 2_600
  const G_BLOCKHASH: u64 := 20
  const G_JUMPDEST: u64 := 1

  /** A step that goes on has paid for it, and the stack stays within its limit. */
  predicate Spends(m: Machine, r: StepResult) {
    match r
    case Continue(n) => n.gas < m.gas && (|m.stack| <= STACK_LIMIT ==> |n.stack| <= STACK_LIMIT)
    case Jumped(n) => n.gas < m.gas && (|m.stack| <= STACK_LIMIT ==> |n.stack| <= STACK_LIMIT)
    case Return(n, _) => n.gas <= m.gas
    case Revert(n, _) => n.gas <= m.gas
    case Stop(n) => n.gas <= m.gas
    case Error => true
    case Panic => true
  }

  predicate KeepsWorld(m: Machine, r: StepResult) {
    !r.Error? && !r.Panic? ==> r.m.world == m.world
  }

  predicate Local(m: Machine, r: StepResult) {
    Spends(m, r) && KeepsWorld(m, r)
  }

  /** A local step that, if it goes on, leaves the program counter on its own opcode. */
  predicate Inline(m: Machine, r: StepResult) {
    Local(m, r) && (r.Continue? ==> r.m.pc == m.pc)
  }

  // ───────────── stack and arithmetic ─────────────

  /** The data of a push; cut short by the end of the code, it is the bytes that are there, right-aligned. */
  function Immediate(code: seq<Byte>, pc: nat): Word
    requires pc < |code| && 0x60 <= code[pc] <= 0x7f
  {
    WordOf(code[pc + 1..Min(pc + 1 + (code[pc] - 0x5f), |code|)])
  }

  function OpPush(m: Machine, code: seq<Byte>): (r: StepResult)
    requires m.pc < |code| && 0x60 <= code[m.pc] <= 0x7f
    ensures Local(m, r) && (r.Continue? ==> r.m.pc + 1 == m.pc + Width(code[m.pc]))
  {
    if m.gas < G_VERY_LOW || |m.stack| >= STACK_LIMIT then Error
    else
      Continue(m.(gas := m.gas - G_VERY_LOW, stack := m.stack + [Immediate(code, m.pc)],
                  pc := m.pc + (code[m.pc] - 0x5f)))
  }

  function OpPush0(m: Machine): (r: StepResult)
    ensures Inline(m, r)
  {
    if m.gas < G_BASE || |m.stack| >= STACK_LIMIT then Error
    else Continue(m.(gas := m.gas - G_BASE, stack := m.stack + [0]))
  }

  function OpDup(m: Machine, n: nat): (r: StepResult)
    ensures Inline(m, r)
  {
    if m.gas < G_VERY_LOW || |m.stack| < n + 1 || |m.stack| >= STACK_LIMIT then Error
    else Continue(m.(gas := m.gas - G_VERY_LOW, stack := m.stack + [m.stack[|m.stack| - 1 - n]]))
  }

  function OpSwap(m: Machine, n: nat): (r: StepResult)
    ensures Inline(m, r)
  {
    var top := |m.stack| - 1;
    if m.gas < G_VERY_LOW || |m.stack| <= n then Error
    else Continue(m.(gas := m.gas - G_VERY_LOW, stack := m.stack[top := m.stack[top - n]][top - n := m.stack[top]]))
  }

  function OpPop(m: Machine): (r: StepResult)
    ensures Inline(m, r)
  {
    if m.gas < G_BASE then Error
    else Continue(m.(gas := m.gas - G_BASE, stack := if m.stack == [] then [] else m.stack[..|m.stack| - 1]))
  }

  /** How many words an opcode takes for the one it pushes, and at what price. */
  function Arity(op: Byte): Option<(nat, u64)> {
    if op in {0x01, 0x03, 0x16, 0x17, 0x18} || 0x10 <= op <= 0x14 || 0x1a <= op <= 0x1d then Some((2, G_VERY_LOW))
    else if op == 0x02 || 0x04 <= op <= 0x07 || op == 0x0b then Some((2, G_LOW))
    else if op == 0x08 || op == 0x09 then Some((3, G_MID))
    else if op == 0x15 || op == 0x19 then Some((1, G_VERY_LOW))
    else if op in {0x31, 0x3b, 0x3f} then Some((1, G_EXTERNAL))
    else if op == 0x40 then Some((1, G_BLOCKHASH))
    else if op == 0x47 then Some((0, G_LOW))
    else if op in {0x30, 0x32, 0x33, 0x34, 0x36, 0x38, 0x3a, 0x3d, 0x58, 0x59, 0x5a} then Some((0, G_BASE))
    else if 0x41 <= op <= 0x46 || 0x48 <= op <= 0x4a then Some((0, G_BASE))
    else None
  }

  /** Opcodes whose push may overflow the stack unnoticed. */
  predicate IsQuiet(op: Byte) {
    op in {0x30, 0x32, 0x33, 0x41, 0x47}
  }

  /** A machine length as a word. */
  function Sized(n: nat): Word {
    Min(n, U256_MAX)
  }

  /** The word pushed. GAS reads the counter before its own charge. */
  function Evaluate(env: Env, ctx: Context, m: Machine, code: seq<Byte>, op: Byte, args: seq<Word>): Option<Word> {
    match op
    case 0x30 => Some(ctx.address)
    case 0x32 => Some(ctx.origin)
    case 0x33 => Some(ctx.caller)
    case 0x34 => Some(ctx.value)
    case 0x36 => Some(Sized(|ctx.calldata|))
    case 0x38 => Some(Sized(|code|))
    case 0x3d => Some(Sized(|m.returnData|))
    case 0x58 => Some(Sized(m.pc))
    case 0x59 => Some(Sized(|m.memory|))
    case 0x5a => Some(m.gas)
    case _ => env.eval(op, ctx, args)
  }

  function Unsized(n: nat): seq<bool> {
    seq(n, _ => false)
  }

  function OpPlain(env: Env, ctx: Context, m: Machine, code: seq<Byte>, op: Byte): (r: StepResult)
    requires Arity(op).Some?
    ensures Inline(m, r)
  {
    var (pops, cost) := Arity(op).value;
    match Take(m, cost, Unsized(pops))
    case Broke(r) => r
    case Taken(t, args) =>
      match Evaluate(env, ctx, m, code, op, args)
      case None => Panic
      case Some(w) =>
        if |t.stack| >= STACK_LIMIT && pops == 0 && !IsQuiet(op) then Error
        else Continue(t.(stack := PushQuiet(t.stack, w)))
  }

  function ByteLength(w: nat): nat {
    if w == 0 then 0 else 1 + ByteLength(w / 256)
  }

  function OpExp(env: Env, ctx: Context, m: Machine): (r: StepResult)
    ensures Inline(m, r)
  {
    match Take(m, G_HIGH, Unsized(2))
    case Broke(r) => r
    case Taken(t, args) =>
      match Charge(t, G_EXP_BYTE * ByteLength(args[1]))
      case Broke(r) => r
      case Taken(u, _) =>
        match env.eval(0x0a, ctx, args)
        case None => Panic
        case Some(w) => Continue(u.(stack := PushQuiet(u.stack, w)))
  }

  // ───────────── memory and copies ─────────────

  /** What follows the head of an opcode: no gas gained, at most one word pushed, the world left alone. */
  predicate Tail(m: Machine, r: StepResult) {
    !r.Error? && !r.Panic? ==>
      !r.Jumped? && r.m.gas <= m.gas && r.m.world == m.world && r.m.pc == m.pc && |r.m.stack| <= |m.stack| + 1
  }

  function LoadWord(m: Machine, off: u64): (r: StepResult)
    ensures Tail(m, r)
  {
    match ReadMemory(m, off, 32)
    case Refused => Error
    case Crashed => Panic
    case Granted(g, data) => Continue(g.(stack := PushQuiet(g.stack, WordOf(data))))
  }

  function OpMload(m: Machine): (r: StepResult)
    ensures Inline(m, r)
  {
    match Take(m, G_VERY_LOW, [true])
    case Broke(r) => r
    case Taken(t, args) => LoadWord(t, args[0])
  }

  /** Writes `data` to memory; the offset is converted last. */
  function StoreBytes(m: Machine, off: Word, data: seq<Byte>): (r: StepResult)
    requires |data| <= U64_MAX
    ensures Tail(m, r) && (r.Error? || r.Panic? || r.Continue?)
  {
    if off > U64_MAX then Panic
    else
      match WriteMemory(m, off, data)
      case Refused => Error
      case Crashed => Panic
      case Granted(g, _) => Continue(g)
  }

  function OpMstore(m: Machine, width: nat): (r: StepResult)
    requires width <= 32
    ensures Inline(m, r)
  {
    match Take(m, G_VERY_LOW, [false, false])
    case Broke(r) => r
    case Taken(t, args) => StoreBytes(t, args[0], BytesOf(args[1], width))
  }

  /** Pays for each word of `len` bytes; the sum that rounds up can overflow a machine word. */
  function ChargeWords(m: Machine, price: u64, len: Word): (t: Taken)
    ensures t.Taken? ==> len + 31 <= U64_MAX && t.m == m.(gas := t.m.gas) && t.m.gas <= m.gas
    ensures t.Broke? ==> t.r.Error? || t.r.Panic?
  {
    if len + 31 > U64_MAX then Broke(Panic) else Charge(m, price * ((len + 31) / 32))
  }

  /** `len` bytes of `source` from `src` on; the source offset is converted only if there is a byte to read. */
  function CopyIn(m: Machine, source: seq<Byte>, dst: Word, src: Word, len: Word): (r: StepResult)
    ensures Tail(m, r) && (r.Error? || r.Panic? || r.Continue?)
  {
    match ChargeWords(m, G_COPY, len)
    case Broke(r) => r
    case Taken(t, _) =>
      if len > 0 && src + len - 1 > U64_MAX then Panic else StoreBytes(t, dst, ZeroPadded(source, src, len))
  }

  /** CALLDATACOPY and CODECOPY. */
  function OpCopy(m: Machine, source: seq<Byte>): (r: StepResult)
    ensures Inline(m, r)
  {
    match Take(m, G_VERY_LOW, [false, false, false])
    case Broke(r) => r
    case Taken(t, args) => CopyIn(t, source, args[0], args[1], args[2])
  }

  function CodeOf(env: Env, a: Address): seq<Byte> {
    match env.account(a)
    case None => []
    case Some(acct) =>
      if acct.codeHash == env.emptyHash then []
      else match env.code(acct.codeHash) case Some(c) => c case None => []
  }

  function OpExtCodeCopy(env: Env, m: Machine): (r: StepResult)
    ensures Inline(m, r)
  {
    match Take(m, G_EXTERNAL, [false, true, true, true])
    case Broke(r) => r
    case Taken(t, args) => CopyIn(t, CodeOf(env, AddressOf(args[0])), args[1], args[2], args[3])
  }

  /** Unlike the other copies, this one may not read past the end of its source. */
  function CopyReturnData(m: Machine, dst: u64, src: u64, len: u64): (r: StepResult)
    ensures Tail(m, r) && (r.Error? || r.Panic? || r.Continue?)
  {
    match ChargeWords(m, G_COPY, len)
    case Broke(r) => r
    case Taken(t, _) =>
      if src + len > U64_MAX || src + len > |t.returnData| then Error
      else StoreBytes(t, dst, t.returnData[src..src + len])
  }

  function OpReturnDataCopy(m: Machine): (r: StepResult)
    ensures Inline(m, r)
  {
    match Take(m, G_VERY_LOW, [true, true, true])
    case Broke(r) => r
    case Taken(t, args) => CopyReturnData(t, args[0], args[1], args[2])
  }

  function CopyWithin(m: Machine, dst: Word, src: Word, len: Word): (r: StepResult)
    ensures Tail(m, r) && (r.Error? || r.Panic? || r.Continue?)
  {
    match ChargeWords(m, G_COPY, len)
    case Broke(r) => r
    case Taken(t, _) =>
      if src > U64_MAX then Panic
      else
        match ReadMemory(t, src, len)
        case Refused => Error
        case Crashed => Panic
        case Granted(g, data) => StoreBytes(g, dst, data)
  }

  function OpMcopy(m: Machine): (r: StepResult)
    ensures Inline(m, r)
  {
    match Take(m, G_VERY_LOW, [false, false, false])
    case Broke(r) => r
    case Taken(t, args) => CopyWithin(t, args[0], args[1], args[2])
  }

  function HashMemory(env: Env, m: Machine, off: Word, len: Word): (r: StepResult)
    ensures Tail(m, r) && (r.Error? || r.Panic? || r.Continue?)
  {
    match ChargeWords(m, G_KECCAK_WORD, len)
    case Broke(r) => r
    case Taken(t, _) =>
      if off > U64_MAX then Panic
      else
        match ReadMemory(t, off, len)
        case Refused => Error
        case Crashed => Panic
        case Granted(g, data) => Continue(g.(stack := PushQuiet(g.stack, env.hash(data))))
  }

  function OpKeccak(env: Env, m: Machine): (r: StepResult)
    ensures Inline(m, r)
  {
    match Take(m, G_KECCAK, [false, false])
    case Broke(r) => r
    case Taken(t, args) => HashMemory(env, t, args[0], args[1])
  }

  function OpCalldataLoad(ctx: Context, m: Machine): (r: StepResult)
    ensures Inline(m, r)
  {
    match Take(m, G_VERY_LOW, [true])
    case Broke(r) => r
    case Taken(t, args) =>
      if args[0] + 31 > U64_MAX then Panic
      else Continue(t.(stack := PushQuiet(t.stack, WordOf(ZeroPadded(ctx.calldata, args[0], 32)))))
  }

  /** Drops the topics and reads the data; the log itself is not kept here. */
  function ReadLog(m: Machine, topics: nat, off: Word, len: u64): (r: StepResult)
    ensures Tail(m, r) && (r.Error? || r.Panic? || r.Continue?)
  {
    if |m.stack| < topics then Error
    else if off > U64_MAX then Panic
    else
      match ReadMemory(m.(stack := m.stack[..|m.stack| - topics]), off, len)
      case Refused => Error
      case Crashed => Panic
      case Granted(g, _) => Continue(g)
  }

  function EmitLog(m: Machine, topics: nat, off: Word, len: Word): (r: StepResult)
    ensures Tail(m, r) && (r.Error? || r.Panic? || (r.Continue? && r.m.gas < m.gas))
  {
    var cost := G_LOG + G_LOG_TOPIC * topics + G_LOG_DATA * len;
    if cost > U64_MAX then Panic
    else
      match Charge(m, cost)
      case Broke(r) => r
      case Taken(t, _) => ReadLog(t, topics, off, len)
  }

  function OpLog(ctx: Context, m: Machine, topics: nat): (r: StepResult)
    ensures Inline(m, r)
  {
    if ctx.isStatic then Error
    else
      match Pops(m, [false, false])
      case Broke(r) => r
      case Taken(t, args) => EmitLog(t, topics, args[0], args[1])
  }

  // ───────────── storage reads, jumps and endings ─────────────

  /** Buffered storage, falling back to the database. */
  function SloadAt(env: Env, ctx: Context, w: World, key: Word): Word {
    if (ctx.address, key) in w.storage then w.storage[(ctx.address, key)] else env.slot(ctx.address, key)
  }

  function OpSload(env: Env, ctx: Context, m: Machine): (r: StepResult)
    ensures Inline(m, r)
  {
    if m.gas < G_SLOAD || m.stack == [] then Error
    else
      var n := |m.stack| - 1;
      Continue(m.(gas := m.gas - G_SLOAD, stack := PushQuiet(m.stack[..n], SloadAt(env, ctx, m.world, m.stack[n]))))
  }

  function OpTload(ctx: Context, m: Machine): (r: StepResult)
    ensures Inline(m, r)
  {
    if m.gas < G_TRANSIENT || m.stack == [] then Error
    else
      var n := |m.stack| - 1;
      var at := (ctx.address, m.stack[n]);
      var w := if at in m.world.transient then m.world.transient[at] else 0;
      Continue(m.(gas := m.gas - G_TRANSIENT, stack := PushQuiet(m.stack[..n], w)))
  }

  function OpJump(m: Machine, code: seq<Byte>): (r: StepResult)
    ensures Inline(m, r)
    ensures r.Jumped? ==> IsJumpdest(code, r.m.pc)
  {
    if m.gas < G_MID || m.stack == [] then Error
    else
      var n := |m.stack| - 1;
      if m.stack[n] > U64_MAX then Panic
      else if !IsJumpdest(code, m.stack[n]) then Error
      else Jumped(m.(gas := m.gas - G_MID, stack := m.stack[..n], pc := m.stack[n]))
  }

  /** A false condition is noticed before the destination is converted or checked. */
  function OpJumpi(m: Machine, code: seq<Byte>): (r: StepResult)
    ensures Inline(m, r)
    ensures r.Jumped? ==> IsJumpdest(code, r.m.pc)
  {
    if m.gas < G_HIGH || |m.stack| < 2 then Error
    else
      var n := |m.stack| - 2;
      var dst, cond := m.stack[n + 1], m.stack[n];
      var next := m.(gas := m.gas - G_HIGH, stack := m.stack[..n]);
      if cond == 0 then Continue(next)
      else if dst > U64_MAX then Panic
      else if !IsJumpdest(code, dst) then Error
      else Jumped(next.(pc := dst))
  }

  function OpJumpdest(m: Machine): (r: StepResult)
    ensures Inline(m, r)
  {
    if m.gas < G_JUMPDEST then Error else Continue(m.(gas := m.gas - G_JUMPDEST))
  }

  function HandOver(m: Machine, reverting: bool, off: Word, len: Word): (r: StepResult)
    ensures Tail(m, r) && !r.Continue?
  {
    if off > U64_MAX || len > U64_MAX then Panic
    else
      match ReadMemory(m, off, len)
      case Refused => Error
      case Crashed => Panic
      case Granted(g, data) => if reverting then Revert(g, data) else Return(g, data)
  }

  /** RETURN and REVERT cost nothing beyond the memory they touch. */
  function OpEnd(m: Machine, reverting: bool): (r: StepResult)
    ensures Inline(m, r)
  {
    match Pops(m, [false, false])
    case Broke(r) => r
    case Taken(t, args) => HandOver(t, reverting, args[0], args[1])
  }

  /** The low 160 bits of a word. */
  function AddressOf(w: Word): Address {
    w % 0x1_0000_0000_0000_0000_0000_0000_0000_0000_0000_0000
  }

  /** The opcodes that read or write memory, and those that do not exist. */
  function MemoryStep(env: Env, ctx: Context, m: Machine, code: seq<Byte>, op: Byte): (r: StepResult)
    ensures Inline(m, r) && !r.Jumped?
  {
    match op
    case 0x20 => OpKeccak(env, m)
    case 0x37 => OpCopy(m, ctx.calldata)
    case 0x39 => OpCopy(m, code)
    case 0x3c => OpExtCodeCopy(env, m)
    case 0x3e => OpReturnDataCopy(m)
    case 0x51 => OpMload(m)
    case 0x52 => OpMstore(m, 32)
    case 0x53 => OpMstore(m, 1)
    case 0x5e => OpMcopy(m)
    case 0xf3 => OpEnd(m, false)
    case 0xfd => OpEnd(m, true)
    case _ => if 0xa0 <= op <= 0xa4 then OpLog(ctx, m, op - 0xa0) else Error
  }

  /** Every opcode that neither writes storage nor opens a frame. */
  function LocalStep(env: Env, ctx: Context, m: Machine, code: seq<Byte>): (r: StepResult)
    requires m.pc < |code|
    ensures Local(m, r)
    ensures r.Continue? ==> r.m.pc + 1 == m.pc + Width(code[m.pc])
    ensures r.Jumped? ==> IsJumpdest(code, r.m.pc)
  {
    if IsNumbered(code[m.pc]) then NumberedStep(m, code) else OtherStep(env, ctx, m, code)
  }

  /** PUSH1 to PUSH32, DUP1 to DUP16, SWAP1 to SWAP16. */
  predicate IsNumbered(op: Byte) {
    0x60 <= op <= 0x9f
  }

  function NumberedStep(m: Machine, code: seq<Byte>): (r: StepResult)
    requires m.pc < |code| && IsNumbered(code[m.pc])
    ensures Local(m, r) && !r.Jumped?
    ensures r.Continue? ==> r.m.pc + 1 == m.pc + Width(code[m.pc])
  {
    var op := code[m.pc];
    if op <= 0x7f then OpPush(m, code)
    else if op <= 0x8f then OpDup(m, op - 0x80)
    else OpSwap(m, op - 0x8f)
  }

  function OtherStep(env: Env, ctx: Context, m: Machine, code: seq<Byte>): (r: StepResult)
    requires m.pc < |code| && !IsNumbered(code[m.pc])
    ensures Inline(m, r)
    ensures r.Jumped? ==> IsJumpdest(code, r.m.pc)
  {
    var op := code[m.pc];
    if Arity(op).Some? then OpPlain(env, ctx, m, code, op)
    else
      match op
      case 0x00 => Stop(m)
      case 0x0a => OpExp(env, ctx, m)
      case 0x35 => OpCalldataLoad(ctx, m)
      case 0x50 => OpPop(m)
      case 0x54 => OpSload(env, ctx, m)
      case 0x56 => OpJump(m, code)
      case 0x57 => OpJumpi(m, code)
      case 0x5b => OpJumpdest(m)
      case 0x5c => OpTload(ctx, m)
      case 0x5f => OpPush0(m)
      case _ => MemoryStep(env, ctx, m, code, op)
  }
}
