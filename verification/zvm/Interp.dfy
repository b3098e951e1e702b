/** The interpreter object: one frame's gas, stack, memory and buffers, updated in place, opcode by opcode. */
module ZvmInterp {
  import opened Common
  import opened ZvmMachine
  import opened ZvmJumpdests
  import O = ZvmOpcodes
  import P = ZvmProperties
  import S = ZvmSemantics

  datatype Signal =
    | Going | Jumping
    | Returning(data: seq<Byte>) | Reverting(data: seq<Byte>) | Stopping
    | Failing | Panicking

  datatype MemSignal = Fine | Refusing | Crashing

  /** What a call or a creation may have to go back to. */
  datatype Snapshot = Snapshot(
    storage: map<Slot, Word>,
    transient: map<Slot, Word>,
    refunded: u64,
    touchedLen: nat,
    codeLen: nat)

  ghost predicate TakenOf(snap: Snapshot, w: World) {
    snap == Snapshot(w.storage, w.transient, w.refunded, |w.journal.touched|, |w.journal.code|)
  }

  datatype EntrySignal =
    | HaltedWith(signal: Signal)
    | Entered(to: Address, amount: u128, data: seq<Byte>, budget: u64, outOff: u64, outSize: u64)

  datatype BirthSignal =
    | UnbornWith(signal: Signal)
    | BornAs(at: Address, amount: u128, init: seq<Byte>, budget: u64, held: u128)

  datatype ExecResult = Exec(success: bool, gasUsed: u64, gasRefunded: u64, returnData: seq<Byte>) | Aborted

  class Interp {
    const env: Env
    const address: Address
    const caller: Address
    const origin: Address
    const value: u128
    const calldata: seq<Byte>
    const depth: nat
    const isStatic: bool

    var gas: u64
    var gasRefunded: u64
    var stack: seq<Word>
    var memory: seq<Byte>
    var returnData: seq<Byte>
    var pc: nat
    var storageWrites: map<Slot, Word>
    var transientStorage: map<Slot, Word>
    var touched: seq<(Address, Account)>
    var newCode: seq<(Hash, seq<Byte>)>

    /** A new frame: empty stack, memory and journal, over the buffers it inherits. */
    constructor (env: Env, ctx: Context, gas: u64, storage: map<Slot, Word>, transient: map<Slot, Word>)
      ensures this.env == env && Ctx() == ctx
      ensures View() == Machine(gas, [], [], [], 0, World(storage, transient, NO_ENTRIES, 0))
    {
      this.env := env;
      address, caller, origin, value := ctx.address, ctx.caller, ctx.origin, ctx.value;
      calldata, depth, isStatic := ctx.calldata, ctx.depth, ctx.isStatic;
      this.gas, gasRefunded, pc := gas, 0, 0;
      stack, memory, returnData := [], [], [];
      storageWrites, transientStorage, touched, newCode := storage, transient, [], [];
    }

    function Ctx(): Context {
      Context(address, caller, origin, value, calldata, depth, isStatic)
    }

    ghost function WorldView(): World
      reads this
    {
      World(storageWrites, transientStorage, Journal(touched, newCode), gasRefunded)
    }

    ghost function View(): Machine
      reads this
    {
      Machine(gas, stack, memory, returnData, pc, WorldView())
    }

    /** The signal and the fields say what the specification says; a frame in error has no further say. */
    ghost predicate Did(s: Signal, r: StepResult)
      reads this
    {
      match r
      case Continue(m) => s == Going && View() == m
      case Jumped(m) => s == Jumping && View() == m
      case Return(m, data) => s == Returning(data) && View() == m
      case Revert(m, data) => s == Reverting(data) && View() == m
      case Stop(m) => s == Stopping && View() == m
      case Error => s == Failing
      case Panic => s == Panicking
    }

    ghost predicate DidAccess(s: MemSignal, r: Access)
      reads this
    {
      match r
      case Granted(m, _) => s == Fine && View() == m
      case Refused => s == Refusing
      case Crashed => s == Crashing
    }

    function Halted(s: MemSignal): Signal {
      if s == Crashing then Panicking else Failing
    }

    // ───────────── helpers ─────────────

    method UseGas(cost: nat) returns (ok: bool)
      modifies this`gas
      ensures ok == (old(gas) >= cost) && gas == if ok then old(gas) - cost else old(gas)
    {
      ok := gas >= cost;
      if ok {
        gas := gas - cost;
      }
    }

    method Push(w: Word) returns (ok: bool)
      modifies this`stack
      ensures ok == (|old(stack)| < STACK_LIMIT) && stack == PushQuiet(old(stack), w)
    {
      ok := |stack| < STACK_LIMIT;
      if ok {
        stack := stack + [w];
      }
    }

    /** Pops as many words as `sized` has entries, converting those marked. */
    method Pop(sized: seq<bool>) returns (p: Popped)
      modifies this`stack
      ensures p == PopArgs(old(stack), sized) && (p.Popped? ==> stack == p.rest)
      decreases |sized|
    {
      if sized == [] {
        return Popped([], stack);
      }
      if stack == [] {
        return Underflow;
      }
      var top := stack[|stack| - 1];
      stack := stack[..|stack| - 1];
      if sized[0] && top > U64_MAX {
        return TooBig;
      }
      var more := Pop(sized[1..]);
      p := if more.Popped? then Popped([top] + more.args, more.rest) else more;
    }

    ghost predicate DidTake(s: Signal, args: seq<Word>, t: Taken)
      reads this
    {
      match t
      case Taken(m, words) => s == Going && args == words && View() == m
      case Broke(r) => Did(s, r)
    }

    method Charge(cost: nat) returns (s: Signal)
      modifies this`gas
      ensures DidTake(s, [], ZvmMachine.Charge(old(View()), cost))
    {
      var paid := UseGas(cost);
      return if paid then Going else Failing;
    }

    method Pops(sized: seq<bool>) returns (s: Signal, args: seq<Word>)
      modifies this`stack
      ensures DidTake(s, args, ZvmMachine.Pops(old(View()), sized))
    {
      var p := Pop(sized);
      match p {
        case Popped(words, _) => return Going, words;
        case Underflow => return Failing, [];
        case TooBig => return Panicking, [];
      }
    }

    /** The head of an opcode: pay, then pop. */
    method Take(cost: nat, sized: seq<bool>) returns (s: Signal, args: seq<Word>)
      modifies this`gas, this`stack
      ensures DidTake(s, args, ZvmMachine.Take(old(View()), cost, sized))
    {
      s := Charge(cost);
      if s != Going {
        return s, [];
      }
      s, args := Pops(sized);
    }

    method MemExpand(off: u64, size: u64) returns (s: MemSignal)
      modifies this`gas, this`memory
      ensures DidAccess(s, Expand(old(View()), off, size))
    {
      if size == 0 {
        return Fine;
      }
      if off + size > U64_MAX {
        return Refusing;
      }
      if off + size <= |memory| {
        return Fine;
      }
      if off + size + 31 > U64_MAX {
        return Crashing;
      }
      var words := (off + size + 31) / 32;
      if words > MAX_MEMORY_WORDS {
        return Refusing;
      }
      var cost := SatSub(MemCost(words), MemCost((|memory| + 31) / 32));
      var paid := UseGas(cost);
      if !paid {
        return Refusing;
      }
      memory := memory + Zeros(words * 32 - |memory|);
      return Fine;
    }

    method MemRead(off: u64, size: u64) returns (s: MemSignal, data: seq<Byte>)
      modifies this`gas, this`memory
      ensures DidAccess(s, ReadMemory(old(View()), off, size))
      ensures s == Fine ==> ReadMemory(old(View()), off, size).data == data
    {
      data := [];
      s := MemExpand(off, size);
      if s == Fine {
        if off > |memory| {
          return Crashing, [];
        }
        data := memory[off..off + size];
      }
    }

    method StoreBytes(off: Word, data: seq<Byte>) returns (s: Signal)
      requires |data| <= U64_MAX
      modifies this`gas, this`memory
      ensures Did(s, O.StoreBytes(old(View()), off, data))
    {
      if off > U64_MAX {
        return Panicking;
      }
      var grown := MemExpand(off, |data|);
      if grown != Fine {
        return Halted(grown);
      }
      if off > |memory| {
        return Panicking;
      }
      memory := Overwrite(memory, off, data);
      return Going;
    }

    function Sload(key: Word): Word
      reads this
      ensures Sload(key) == O.SloadAt(env, Ctx(), WorldView(), key)
    {
      if (address, key) in storageWrites then storageWrites[(address, key)] else env.slot(address, key)
    }

    // ───────────── stack and arithmetic ─────────────

    method PushImmediate(code: seq<Byte>) returns (s: Signal)
      requires pc < |code| && 0x60 <= code[pc] <= 0x7f
      modifies this`gas, this`stack, this`pc
      ensures Did(s, O.OpPush(old(View()), code))
    {
      var paid := UseGas(O.G_VERY_LOW);
      if !paid {
        return Failing;
      }
      var pushed := Push(O.Immediate(code, pc));
      if !pushed {
        return Failing;
      }
      pc := pc + (code[pc] - 0x5f);
      return Going;
    }

    method PushZero() returns (s: Signal)
      modifies this`gas, this`stack
      ensures Did(s, O.OpPush0(old(View())))
    {
      var paid := UseGas(O.G_BASE);
      if !paid {
        return Failing;
      }
      var pushed := Push(0);
      return if pushed then Going else Failing;
    }

    method Dup(n: nat) returns (s: Signal)
      modifies this`gas, this`stack
      ensures Did(s, O.OpDup(old(View()), n))
    {
      var paid := UseGas(O.G_VERY_LOW);
      if !paid || |stack| < n + 1 {
        return Failing;
      }
      var pushed := Push(stack[|stack| - 1 - n]);
      return if pushed then Going else Failing;
    }

    method Swap(n: nat) returns (s: Signal)
      modifies this`gas, this`stack
      ensures Did(s, O.OpSwap(old(View()), n))
    {
      var paid := UseGas(O.G_VERY_LOW);
      if !paid || |stack| <= n {
        return Failing;
      }
      var top := |stack| - 1;
      stack := stack[top := stack[top - n]][top - n := stack[top]];
      return Going;
    }

    method Drop() returns (s: Signal)
      modifies this`gas, this`stack
      ensures Did(s, O.OpPop(old(View())))
    {
      var paid := UseGas(O.G_BASE);
      if !paid {
        return Failing;
      }
      if stack != [] {
        stack := stack[..|stack| - 1];
      }
      return Going;
    }

    function Operand(code: seq<Byte>, op: Byte, args: seq<Word>, gasBefore: u64): Option<Word>
      reads this
    {
      match op
      case 0x30 => Some(address)
      case 0x32 => Some(origin)
      case 0x33 => Some(caller)
      case 0x34 => Some(value)
      case 0x36 => Some(O.Sized(|calldata|))
      case 0x38 => Some(O.Sized(|code|))
      case 0x3d => Some(O.Sized(|returnData|))
      case 0x58 => Some(O.Sized(pc))
      case 0x59 => Some(O.Sized(|memory|))
      case 0x5a => Some(gasBefore)
      case _ => env.eval(op, Ctx(), args)
    }

    method Plain(code: seq<Byte>, op: Byte) returns (s: Signal)
      requires O.Arity(op).Some?
      modifies this`gas, this`stack
      ensures Did(s, O.OpPlain(env, Ctx(), old(View()), code, op))
    {
      var (pops, cost) := O.Arity(op).value;
      var before, args := gas, [];
      s, args := Take(cost, O.Unsized(pops));
      if s != Going {
        return;
      }
      var w := Operand(code, op, args, before);
      if w.None? {
        return Panicking;
      }
      var pushed := Push(w.value);
      return if pushed || pops > 0 || O.IsQuiet(op) then Going else Failing;
    }

    method Exp() returns (s: Signal)
      modifies this`gas, this`stack
      ensures Did(s, O.OpExp(env, Ctx(), old(View())))
    {
      var args;
      s, args := Take(O.G_HIGH, O.Unsized(2));
      if s != Going {
        return;
      }
      s := Charge(O.G_EXP_BYTE * O.ByteLength(args[1]));
      if s != Going {
        return;
      }
      var w := env.eval(0x0a, Ctx(), args);
      if w.None? {
        return Panicking;
      }
      var _ := Push(w.value);
    }

    // ───────────── memory and copies ─────────────

    method LoadWord(off: u64) returns (s: Signal)
      modifies this`gas, this`stack, this`memory
      ensures Did(s, O.LoadWord(old(View()), off))
    {
      var read, data := MemRead(off, 32);
      if read != Fine {
        return Halted(read);
      }
      var _ := Push(WordOf(data));
      return Going;
    }

    method Mload() returns (s: Signal)
      modifies this`gas, this`stack, this`memory
      ensures Did(s, O.OpMload(old(View())))
    {
      var args;
      s, args := Take(O.G_VERY_LOW, [true]);
      if s == Going {
        s := LoadWord(args[0]);
      }
    }

    method Mstore(width: nat) returns (s: Signal)
      requires width <= 32
      modifies this`gas, this`stack, this`memory
      ensures Did(s, O.OpMstore(old(View()), width))
    {
      var args;
      s, args := Take(O.G_VERY_LOW, [false, false]);
      if s == Going {
        s := StoreBytes(args[0], BytesOf(args[1], width));
      }
    }

    method ChargeWords(price: u64, len: Word) returns (s: Signal)
      modifies this`gas
      ensures DidTake(s, [], O.ChargeWords(old(View()), price, len))
    {
      if len + 31 > U64_MAX {
        return Panicking;
      }
      s := Charge(price * ((len + 31) / 32));
    }

    method CopyIn(source: seq<Byte>, dst: Word, src: Word, len: Word) returns (s: Signal)
      modifies this`gas, this`memory
      ensures Did(s, O.CopyIn(old(View()), source, dst, src, len))
    {
      s := ChargeWords(O.G_COPY, len);
      if s != Going {
        return;
      }
      if len > 0 && src + len - 1 > U64_MAX {
        return Panicking;
      }
      s := StoreBytes(dst, ZeroPadded(source, src, len));
    }

    method Copy(source: seq<Byte>) returns (s: Signal)
      modifies this`gas, this`stack, this`memory
      ensures Did(s, O.OpCopy(old(View()), source))
    {
      var args;
      s, args := Take(O.G_VERY_LOW, [false, false, false]);
      if s == Going {
        s := CopyIn(source, args[0], args[1], args[2]);
      }
    }

    method ExtCodeCopy() returns (s: Signal)
      modifies this`gas, this`stack, this`memory
      ensures Did(s, O.OpExtCodeCopy(env, old(View())))
    {
      var args;
      s, args := Take(O.G_EXTERNAL, [false, true, true, true]);
      if s == Going {
        s := CopyIn(O.CodeOf(env, O.AddressOf(args[0])), args[1], args[2], args[3]);
      }
    }

    method CopyReturnData(dst: u64, src: u64, len: u64) returns (s: Signal)
      modifies this`gas, this`memory
      ensures Did(s, O.CopyReturnData(old(View()), dst, src, len))
    {
      s := ChargeWords(O.G_COPY, len);
      if s != Going {
        return;
      }
      if src + len > U64_MAX || src + len > |returnData| {
        return Failing;
      }
      s := StoreBytes(dst, returnData[src..src + len]);
    }

    method ReturnDataCopy() returns (s: Signal)
      modifies this`gas, this`stack, this`memory
      ensures Did(s, O.OpReturnDataCopy(old(View())))
    {
      var args;
      s, args := Take(O.G_VERY_LOW, [true, true, true]);
      if s == Going {
        s := CopyReturnData(args[0], args[1], args[2]);
      }
    }

    method CopyWithin(dst: Word, src: Word, len: Word) returns (s: Signal)
      modifies this`gas, this`memory
      ensures Did(s, O.CopyWithin(old(View()), dst, src, len))
    {
      s := ChargeWords(O.G_COPY, len);
      if s != Going {
        return;
      }
      if src > U64_MAX {
        return Panicking;
      }
      var read, data := MemRead(src, len);
      if read != Fine {
        return Halted(read);
      }
      s := StoreBytes(dst, data);
    }

    method Mcopy() returns (s: Signal)
      modifies this`gas, this`stack, this`memory
      ensures Did(s, O.OpMcopy(old(View())))
    {
      var args;
      s, args := Take(O.G_VERY_LOW, [false, false, false]);
      if s == Going {
        s := CopyWithin(args[0], args[1], args[2]);
      }
    }

    method HashMemory(off: Word, len: Word) returns (s: Signal)
      modifies this`gas, this`stack, this`memory
      ensures Did(s, O.HashMemory(env, old(View()), off, len))
    {
      s := ChargeWords(O.G_KECCAK_WORD, len);
      if s != Going {
        return;
      }
      if off > U64_MAX {
        return Panicking;
      }
      var read, data := MemRead(off, len);
      if read != Fine {
        return Halted(read);
      }
      var _ := Push(env.hash(data));
    }

    method Keccak() returns (s: Signal)
      modifies this`gas, this`stack, this`memory
      ensures Did(s, O.OpKeccak(env, old(View())))
    {
      var args;
      s, args := Take(O.G_KECCAK, [false, false]);
      if s == Going {
        s := HashMemory(args[0], args[1]);
      }
    }

    method CalldataLoad() returns (s: Signal)
      modifies this`gas, this`stack
      ensures Did(s, O.OpCalldataLoad(Ctx(), old(View())))
    {
      var args;
      s, args := Take(O.G_VERY_LOW, [true]);
      if s != Going {
        return;
      }
      if args[0] + 31 > U64_MAX {
        return Panicking;
      }
      var _ := Push(WordOf(ZeroPadded(calldata, args[0], 32)));
    }

    method ReadLog(topics: nat, off: Word, len: u64) returns (s: Signal)
      modifies this`gas, this`stack, this`memory
      ensures Did(s, O.ReadLog(old(View()), topics, off, len))
    {
      if |stack| < topics {
        return Failing;
      }
      stack := stack[..|stack| - topics];
      if off > U64_MAX {
        return Panicking;
      }
      var read, data := MemRead(off, len);
      return if read == Fine then Going else Halted(read);
    }

    method EmitLog(topics: nat, off: Word, len: Word) returns (s: Signal)
      modifies this`gas, this`stack, this`memory
      ensures Did(s, O.EmitLog(old(View()), topics, off, len))
    {
      var cost := O.G_LOG + O.G_LOG_TOPIC * topics + O.G_LOG_DATA * len;
      if cost > U64_MAX {
        return Panicking;
      }
      s := Charge(cost);
      if s == Going {
        s := ReadLog(topics, off, len);
      }
    }

    method Log(topics: nat) returns (s: Signal)
      modifies this`gas, this`stack, this`memory
      ensures Did(s, O.OpLog(Ctx(), old(View()), topics))
    {
      if isStatic {
        return Failing;
      }
      var args;
      s, args := Pops([false, false]);
      if s == Going {
        s := EmitLog(topics, args[0], args[1]);
      }
    }

    // ───────────── storage, jumps and endings ─────────────

    method LoadStorage() returns (s: Signal)
      modifies this`gas, this`stack
      ensures Did(s, O.OpSload(env, Ctx(), old(View())))
    {
      var paid := UseGas(O.G_SLOAD);
      if !paid || stack == [] {
        return Failing;
      }
      var key := stack[|stack| - 1];
      stack := stack[..|stack| - 1];
      var _ := Push(Sload(key));
      return Going;
    }

    method StoreStorage() returns (s: Signal)
      modifies this`gas, this`stack, this`storageWrites, this`gasRefunded
      ensures Did(s, S.OpSstore(env, Ctx(), old(View())))
    {
      if |stack| < 2 {
        return Failing;
      }
      var key, val := stack[|stack| - 1], stack[|stack| - 2];
      stack := stack[..|stack| - 2];
      if isStatic {
        return Failing;
      }
      var prev := Sload(key);
      var cost := if prev == 0 && val != 0 then S.G_SSTORE_SET else S.G_SSTORE_RESET;
      var paid := UseGas(cost);
      if !paid {
        return Failing;
      }
      if prev != 0 && val == 0 {
        gasRefunded := SatAdd64(gasRefunded, S.SSTORE_REFUND);
      }
      storageWrites := storageWrites[(address, key) := val];
      return Going;
    }

    method LoadTransient() returns (s: Signal)
      modifies this`gas, this`stack
      ensures Did(s, O.OpTload(Ctx(), old(View())))
    {
      var paid := UseGas(O.G_TRANSIENT);
      if !paid || stack == [] {
        return Failing;
      }
      var at := (address, stack[|stack| - 1]);
      stack := stack[..|stack| - 1];
      var _ := Push(if at in transientStorage then transientStorage[at] else 0);
      return Going;
    }

    method StoreTransient() returns (s: Signal)
      modifies this`gas, this`stack, this`transientStorage
      ensures Did(s, S.OpTstore(Ctx(), old(View())))
    {
      if isStatic {
        return Failing;
      }
      var paid := UseGas(O.G_TRANSIENT);
      if !paid || |stack| < 2 {
        return Failing;
      }
      transientStorage := transientStorage[(address, stack[|stack| - 1]) := stack[|stack| - 2]];
      stack := stack[..|stack| - 2];
      return Going;
    }

    method Jump(code: seq<Byte>, jumpdests: array<bool>) returns (s: Signal)
      requires IsMarked(code, jumpdests)
      modifies this`gas, this`stack, this`pc
      ensures Did(s, O.OpJump(old(View()), code))
    {
      var paid := UseGas(O.G_MID);
      if !paid || stack == [] {
        return Failing;
      }
      var dst := stack[|stack| - 1];
      stack := stack[..|stack| - 1];
      if dst > U64_MAX {
        return Panicking;
      }
      if dst >= jumpdests.Length || !jumpdests[dst] {
        return Failing;
      }
      pc := dst;
      return Jumping;
    }

    method Jumpi(code: seq<Byte>, jumpdests: array<bool>) returns (s: Signal)
      requires IsMarked(code, jumpdests)
      modifies this`gas, this`stack, this`pc
      ensures Did(s, O.OpJumpi(old(View()), code))
    {
      var paid := UseGas(O.G_HIGH);
      if !paid || |stack| < 2 {
        return Failing;
      }
      var dst, cond := stack[|stack| - 1], stack[|stack| - 2];
      stack := stack[..|stack| - 2];
      if cond == 0 {
        return Going;
      }
      if dst > U64_MAX {
        return Panicking;
      }
      if dst >= jumpdests.Length || !jumpdests[dst] {
        return Failing;
      }
      pc := dst;
      return Jumping;
    }

    method MarkJumpdest() returns (s: Signal)
      modifies this`gas
      ensures Did(s, O.OpJumpdest(old(View())))
    {
      var paid := UseGas(O.G_JUMPDEST);
      return if paid then Going else Failing;
    }

    method HandOver(reverting: bool, off: Word, len: Word) returns (s: Signal)
      modifies this`gas, this`memory
      ensures Did(s, O.HandOver(old(View()), reverting, off, len))
    {
      if off > U64_MAX || len > U64_MAX {
        return Panicking;
      }
      var read, data := MemRead(off, len);
      if read != Fine {
        return Halted(read);
      }
      return if reverting then Reverting(data) else Returning(data);
    }

    method End(reverting: bool) returns (s: Signal)
      modifies this`gas, this`stack, this`memory
      ensures Did(s, O.OpEnd(old(View()), reverting))
    {
      var args;
      s, args := Pops([false, false]);
      if s == Going {
        s := HandOver(reverting, args[0], args[1]);
      }
    }

    // ───────────── the CALL family ─────────────

    ghost predicate DidPrepare(e: EntrySignal, spec: S.Entry)
      reads this
    {
      match spec
      case Halt(r) => e.HaltedWith? && Did(e.signal, r)
      case Enter(m, to, amount, data, budget, outOff, outSize, _) =>
        e == Entered(to, amount, data, budget, outOff, outSize) && View() == m
    }

    method PrepareCall(kind: S.CallKind) returns (e: EntrySignal)
      modifies this`gas, this`stack, this`memory, this`returnData
      ensures DidPrepare(e, S.PrepareCall(env, Ctx(), old(View()), kind))
    {
      var s, args := Pops(S.CallArgs(kind));
      if s != Going {
        return HaltedWith(s);
      }
      var o := S.Named(kind, args);
      if isStatic && kind.Call? && o.value > 0 {
        return HaltedWith(Failing);
      }
      e := OpenWindow(kind, o.gasArg, o.to, o.value, o.inOff, o.inSize, o.outOff, o.outSize);
    }

    method OpenWindow(kind: S.CallKind, gasArg: Word, to: Address, amount: u128, inOff: u64, inSize: u64, outOff: u64,
                      outSize: u64)
      returns (e: EntrySignal)
      modifies this`gas, this`stack, this`memory, this`returnData
      ensures DidPrepare(e, S.Window(env, Ctx(), old(View()), kind, gasArg, to, amount, inOff, inSize, outOff, outSize))
    {
      var read, data := MemRead(inOff, inSize);
      if read != Fine {
        return HaltedWith(Halted(read));
      }
      var grown := MemExpand(outOff, outSize);
      if grown != Fine {
        return HaltedWith(Halted(grown));
      }
      e := SetAside(kind, gasArg, to, amount, data, outOff, outSize);
    }

    method SetAside(kind: S.CallKind, gasArg: Word, to: Address, amount: u128, data: seq<Byte>, outOff: u64,
                    outSize: u64)
      returns (e: EntrySignal)
      modifies this`gas, this`stack, this`returnData
      ensures DidPrepare(e, S.SetAside(env, Ctx(), old(View()), kind, gasArg, to, amount, data, outOff, outSize))
    {
      var paid := PayForCall(kind, to, amount);
      if !paid {
        return HaltedWith(Failing);
      }
      e := Admit(kind, gasArg, to, amount, data, outOff, outSize);
    }

    method Admit(kind: S.CallKind, gasArg: Word, to: Address, amount: u128, data: seq<Byte>, outOff: u64, outSize: u64)
      returns (e: EntrySignal)
      modifies this`gas, this`stack, this`returnData
      ensures DidPrepare(e, S.Admit(env, Ctx(), old(View()), kind, gasArg, to, amount, data, outOff, outSize))
    {
      if depth + 1 > CALL_DEPTH_LIMIT || (amount > 0 && AccountOf(env, address).balance < amount) {
        Refuse();
        return HaltedWith(Going);
      }
      var forward := Min(gasArg % (U64_MAX + 1), gas - gas / 64);
      gas := gas - forward;
      return Entered(to, amount, data, SatAdd64(forward, S.Stipend(amount)), outOff, outSize);
    }

    /** The base price, the price of a transfer, and the price of bringing an account into being. */
    method PayForCall(kind: S.CallKind, to: Address, amount: u128) returns (ok: bool)
      modifies this`gas
      ensures ok == (old(gas) >= S.CallCost(env, kind, to, amount))
      ensures ok ==> gas == old(gas) - S.CallCost(env, kind, to, amount)
    {
      ok := UseGas(S.G_CALL);
      if ok && amount > 0 {
        ok := UseGas(S.G_CALL_VALUE);
        if ok && kind.Call? && S.IsEmptyAccount(env, to) {
          ok := UseGas(S.G_NEW_ACCOUNT);
        }
      }
    }

    method Refuse()
      modifies this`stack, this`returnData
      ensures View() == S.Refuse(old(View())).m
    {
      returnData := [];
      var _ := Push(0);
    }

    method Transfer(to: Address, amount: u128)
      modifies this`touched
      ensures WorldView() == S.Transferred(env, Ctx(), old(WorldView()), to, amount)
    {
      var payer, payee := AccountOf(env, address), AccountOf(env, to);
      touched := touched + [
        (address, payer.(balance := SatSub(payer.balance, amount))),
        (to, payee.(balance := SatAdd128(payee.balance, amount)))];
    }

    method TakeSnapshot() returns (snap: Snapshot)
      ensures TakenOf(snap, WorldView())
    {
      return Snapshot(storageWrites, transientStorage, gasRefunded, |touched|, |newCode|);
    }

    /** Back to a snapshot: buffers replaced, journal truncated. */
    method Restore(snap: Snapshot, ghost w: World)
      requires TakenOf(snap, w) && w.journal.touched <= touched && w.journal.code <= newCode
      modifies this`storageWrites, this`transientStorage, this`gasRefunded, this`touched, this`newCode
      ensures WorldView() == w
    {
      storageWrites, transientStorage, gasRefunded := snap.storage, snap.transient, snap.refunded;
      touched, newCode := touched[..snap.touchedLen], newCode[..snap.codeLen];
    }

    /** Takes over what a successful child left. */
    method AdoptChild(child: Interp)
      requires child != this
      modifies this`storageWrites, this`transientStorage, this`gasRefunded, this`touched, this`newCode
      ensures WorldView() == S.Adopt(old(WorldView()), old(child.WorldView()))
    {
      storageWrites, transientStorage := child.storageWrites, child.transientStorage;
      gasRefunded := SatAdd64(gasRefunded, child.gasRefunded);
      touched, newCode := touched + child.touched, newCode + child.newCode;
    }

    method Resume(ghost e: S.Entry, ghost after: World, budget: u64, outOff: u64, outSize: u64, ok: bool,
                  gasUsed: u64, data: seq<Byte>)
      returns (s: Signal)
      requires S.Payable(e) && e.budget == budget && e.outOff == outOff && e.outSize == outSize
      requires View() == e.m.(world := if ok then after else e.m.world)
      modifies this`gas, this`stack, this`memory, this`returnData
      ensures Did(s, S.Resume(e, ok, gasUsed, data, after))
    {
      gas := SatAdd64(gas, SatSub(budget, gasUsed));
      returnData := data;
      memory := S.CopyBack(memory, outOff, outSize, data);
      var _ := Push(if ok then 1 else 0);
      return Going;
    }

    method OpCall(kind: S.CallKind) returns (s: Signal)
      modifies this
      ensures Did(s, S.OpCall(env, Ctx(), old(View()), kind))
      decreases gas, 0
    {
      ghost var spec := S.PrepareCall(env, Ctx(), View(), kind);
      var e := PrepareCall(kind);
      if e.HaltedWith? {
        return e.signal;
      }
      s := AnswerCall(kind, spec, e.to, e.amount, e.data, e.budget, e.outOff, e.outSize);
    }

    method AnswerCall(kind: S.CallKind, ghost e: S.Entry, to: Address, amount: u128, data: seq<Byte>, budget: u64,
                      outOff: u64, outSize: u64)
      returns (s: Signal)
      requires S.Payable(e) && e == S.Enter(View(), to, amount, data, budget, outOff, outSize, e.entered)
      requires e.entered
            == if kind.Call? && amount > 0 then S.Transferred(env, Ctx(), WorldView(), to, amount) else WorldView()
      modifies this
      ensures Did(s, S.Answer(env, Ctx(), kind, e))
      decreases budget, 7
    {
      var snap := TakeSnapshot();
      if kind.Call? && amount > 0 {
        Transfer(to, amount);
      }
      var answered := env.precompile(to, data, budget);
      if answered.Some? {
        var out := answered.value;
        if !out.success {
          Restore(snap, e.m.world);
        }
        s := Resume(e, e.entered, budget, outOff, outSize,
                    out.success, out.gasUsed, if out.success then out.returnData else []);
        return;
      }
      var code := S.TargetCode(env, to);
      if code == [] && amount == 0 {
        s := Resume(e, e.entered, budget, outOff, outSize, true, 0, []);
      } else {
        s := RunCallee(e, snap, S.CalleeContext(Ctx(), kind, to, amount, data), code, budget, outOff, outSize);
      }
    }

    method RunCallee(ghost e: S.Entry, snap: Snapshot, callee: Context, code: seq<Byte>, budget: u64, outOff: u64,
                     outSize: u64)
      returns (s: Signal)
      requires S.Payable(e) && e.budget == budget && e.outOff == outOff && e.outSize == outSize
      requires View() == e.m.(world := e.entered) && TakenOf(snap, e.m.world)
      requires e.entered.storage == e.m.world.storage && e.entered.transient == e.m.world.transient
      requires e.m.world.journal.touched <= touched && e.m.world.journal.code <= newCode
      modifies this
      ensures Did(s, S.AfterRun(e, S.Run(env, callee, S.CalleeMachine(e), code)))
      decreases budget, 6
    {
      var child := new Interp(env, callee, budget, storageWrites, transientStorage);
      assert child.View() == S.CalleeMachine(e);
      var res := child.Run(code);
      if res.Aborted? {
        return Panicking;
      }
      ghost var after := S.Adopt(e.entered, child.WorldView());
      if res.success {
        AdoptChild(child);
      } else {
        Restore(snap, e.m.world);
      }
      s := Resume(e, after, budget, outOff, outSize, res.success, res.gasUsed, res.returnData);
    }

    // ───────────── CREATE and CREATE2 ─────────────

    ghost predicate DidConceive(b: BirthSignal, spec: S.Birth)
      reads this
    {
      match spec
      case Unborn(r) => b.UnbornWith? && Did(b.signal, r)
      case Born(m, at, amount, init, budget, held, _) => b == BornAs(at, amount, init, budget, held) && View() == m
    }

    method PrepareCreate(salted: bool) returns (b: BirthSignal)
      modifies this`gas, this`stack, this`memory, this`returnData, this`touched
      ensures DidConceive(b, S.PrepareCreate(env, Ctx(), old(View()), salted))
    {
      if isStatic {
        return UnbornWith(Failing);
      }
      var s, args := Take(S.G_CREATE, S.CreateArgs(salted));
      if s != Going {
        return UnbornWith(s);
      }
      var read, init := MemRead(args[1], args[2]);
      if read != Fine {
        return UnbornWith(Halted(read));
      }
      b := Conceive(args[0] % (U128_MAX + 1), init, if salted then Some(args[3]) else None);
    }

    method Conceive(amount: u128, init: seq<Byte>, salt: Option<Word>) returns (b: BirthSignal)
      modifies this`gas, this`stack, this`returnData, this`touched
      ensures DidConceive(b, S.Conceive(env, Ctx(), old(View()), amount, init, salt))
    {
      if |init| > MAX_INITCODE_SIZE {
        var _ := Push(0);
        return UnbornWith(Going);
      }
      var payer := AccountOf(env, address);
      if depth + 1 > CALL_DEPTH_LIMIT || payer.balance < amount {
        Refuse();
        return UnbornWith(Going);
      }
      var at := match salt
        case Some(s) => env.create2Address(address, s, init)
        case None => env.createAddress(address, payer.nonce);
      if S.Collides(env, at) {
        Refuse();
        return UnbornWith(Going);
      }
      touched := touched + [(address, S.BumpedNonce(env, address))];
      var budget := gas - gas / 64;
      gas := gas - budget;
      return BornAs(at, amount, init, budget, AccountOf(env, at).balance);
    }

    method Debit(amount: u128)
      modifies this`touched
      ensures WorldView() == S.Debited(env, Ctx(), old(WorldView()), amount)
    {
      if amount > 0 {
        var acct := S.BumpedNonce(env, address);
        touched := touched + [(address, acct.(balance := SatSub(acct.balance, amount)))];
      }
    }

    method OpCreate(salted: bool) returns (s: Signal)
      modifies this
      ensures Did(s, S.OpCreate(env, Ctx(), old(View()), salted))
      decreases gas, 0
    {
      ghost var spec := S.PrepareCreate(env, Ctx(), View(), salted);
      var b := PrepareCreate(salted);
      if b.UnbornWith? {
        return b.signal;
      }
      s := Deliver(spec, b.at, b.amount, b.init, b.budget, b.held);
    }

    method Deliver(ghost b: S.Birth, at: Address, amount: u128, init: seq<Byte>, budget: u64, held: u128)
      returns (s: Signal)
      requires b == S.Born(View(), at, amount, init, budget, held, S.Debited(env, Ctx(), WorldView(), amount))
      requires b.m.gas + budget <= U64_MAX
      modifies this
      ensures Did(s, S.FinishCreate(env, b, S.Run(env, S.CreatorContext(Ctx(), at, amount),
        Machine(budget, [], [], [], 0, S.Inherited(b.m.world)), init)))
      decreases budget, 6
    {
      var snap := TakeSnapshot();
      Debit(amount);
      var child := new Interp(env, S.CreatorContext(Ctx(), at, amount), budget, storageWrites, transientStorage);
      assert child.View() == Machine(budget, [], [], [], 0, S.Inherited(b.m.world));
      var res := child.Run(init);
      if res.Aborted? {
        return Panicking;
      }
      ghost var spec := S.Run(env, S.CreatorContext(Ctx(), at, amount),
                              Machine(budget, [], [], [], 0, S.Inherited(b.m.world)), init);
      FinishBirth(b, spec, snap, child, res, at, SatAdd128(held, amount), budget);
      s := Going;
    }

    /** Commits the new contract, or goes back to where only the nonce had changed. */
    method FinishBirth(ghost b: S.Birth, ghost spec: S.RunResult, snap: Snapshot, child: Interp, res: ExecResult,
                       at: Address, balance: u128, budget: u64)
      requires b.Born? && b.at == at && balance == SatAdd128(b.held, b.value) && b.budget == budget
      requires b.m.gas + budget <= U64_MAX && View() == b.m.(world := b.entered) && TakenOf(snap, b.m.world)
      requires b.m.world.journal.touched <= touched && b.m.world.journal.code <= newCode
      requires child != this && res.Exec? && child.DidRun(res, spec)
      modifies this
      ensures Did(Going, S.FinishCreate(env, b, spec))
    {
      gas := SatAdd64(gas, SatSub(budget, res.gasUsed));
      if !res.success || S.Undeployable(gas, res.returnData) {
        Restore(snap, b.m.world);
        Miscarry(if res.success then [] else res.returnData);
      } else {
        ghost var world := child.WorldView();
        AdoptChild(child);
        Register(b, world, at, balance, res.returnData);
      }
    }

    method Miscarry(data: seq<Byte>)
      modifies this`stack, this`returnData
      ensures View() == old(View()).(returnData := data, stack := PushQuiet(old(stack), 0))
    {
      returnData := data;
      var _ := Push(0);
    }

    /** Pays the deposit and enters the new account. */
    method Register(ghost b: S.Birth, ghost child: World, at: Address, balance: u128, code: seq<Byte>)
      requires b.Born? && b.at == at && balance == SatAdd128(b.held, b.value) && !S.Undeployable(gas, code)
      requires View() == b.m.(gas := gas, world := S.Adopt(b.entered, child))
      modifies this`gas, this`stack, this`returnData, this`touched, this`newCode
      ensures View() == b.m.(gas := old(gas) - |code| * S.G_CODE_DEPOSIT, world := S.Deployed(env, b, child, code),
                             returnData := [], stack := PushQuiet(b.m.stack, at))
    {
      gas := gas - |code| * S.G_CODE_DEPOSIT;
      Deploy(b, child, at, balance, code);
      returnData := [];
      var _ := Push(at);
    }

    method Deploy(ghost b: S.Birth, ghost child: World, at: Address, balance: u128, code: seq<Byte>)
      requires b.Born? && b.at == at && balance == SatAdd128(b.held, b.value)
      requires WorldView() == S.Adopt(b.entered, child)
      modifies this`touched, this`newCode
      ensures WorldView() == S.Deployed(env, b, child, code)
    {
      var h := env.hash(code);
      touched := touched + [(at, Account(1, balance, 0, h))];
      newCode := newCode + [(h, code)];
    }

    // ───────────── steps and runs ─────────────

    method MemoryStep(code: seq<Byte>, op: Byte) returns (s: Signal)
      modifies this`gas, this`stack, this`memory
      ensures Did(s, O.MemoryStep(env, Ctx(), old(View()), code, op))
    {
      match op
      case 0x20 => s := Keccak();
      case 0x37 => s := Copy(calldata);
      case 0x39 => s := Copy(code);
      case 0x3c => s := ExtCodeCopy();
      case 0x3e => s := ReturnDataCopy();
      case 0x51 => s := Mload();
      case 0x52 => s := Mstore(32);
      case 0x53 => s := Mstore(1);
      case 0x5e => s := Mcopy();
      case 0xf3 => s := End(false);
      case 0xfd => s := End(true);
      case _ =>
        if 0xa0 <= op <= 0xa4 {
          s := Log(op - 0xa0);
        } else {
          s := Failing;
        }
    }

    method LocalStep(code: seq<Byte>, jumpdests: array<bool>) returns (s: Signal)
      requires pc < |code| && IsMarked(code, jumpdests)
      modifies this`gas, this`stack, this`memory, this`pc
      ensures Did(s, O.LocalStep(env, Ctx(), old(View()), code))
    {
      if O.IsNumbered(code[pc]) {
        s := NumberedStep(code);
      } else {
        s := OtherStep(code, jumpdests);
      }
    }

    method NumberedStep(code: seq<Byte>) returns (s: Signal)
      requires pc < |code| && O.IsNumbered(code[pc])
      modifies this`gas, this`stack, this`pc
      ensures Did(s, O.NumberedStep(old(View()), code))
    {
      var op := code[pc];
      if op <= 0x7f {
        s := PushImmediate(code);
      } else if op <= 0x8f {
        s := Dup(op - 0x80);
      } else {
        s := Swap(op - 0x8f);
      }
    }

    method OtherStep(code: seq<Byte>, jumpdests: array<bool>) returns (s: Signal)
      requires pc < |code| && IsMarked(code, jumpdests) && !O.IsNumbered(code[pc])
      modifies this`gas, this`stack, this`memory, this`pc
      ensures Did(s, O.OtherStep(env, Ctx(), old(View()), code))
    {
      if O.Arity(code[pc]).Some? {
        s := Plain(code, code[pc]);
        return;
      }
      match code[pc]
      case 0x00 => s := Stopping;
      case 0x0a => s := Exp();
      case 0x35 => s := CalldataLoad();
      case 0x50 => s := Drop();
      case 0x54 => s := LoadStorage();
      case 0x56 => s := Jump(code, jumpdests);
      case 0x57 => s := Jumpi(code, jumpdests);
      case 0x5b => s := MarkJumpdest();
      case 0x5c => s := LoadTransient();
      case 0x5f => s := PushZero();
      case _ => s := MemoryStep(code, code[pc]);
    }

    method Step(code: seq<Byte>, jumpdests: array<bool>) returns (s: Signal)
      requires pc < |code| && IsMarked(code, jumpdests)
      modifies this
      ensures Did(s, S.Step(env, Ctx(), old(View()), code))
      decreases gas, 2
    {
      s := Dispatch(code, jumpdests, code[pc]);
    }

    method Dispatch(code: seq<Byte>, jumpdests: array<bool>, op: Byte) returns (s: Signal)
      requires pc < |code| && op == code[pc] && IsMarked(code, jumpdests)
      modifies this
      ensures Did(s, S.Dispatch(env, Ctx(), old(View()), code, op))
      decreases gas, 1
    {
      match op
      case 0x55 => s := StoreStorage();
      case 0x5d => s := StoreTransient();
      case 0xf0 => s := OpCreate(false);
      case 0xf5 => s := OpCreate(true);
      case 0xf1 => s := OpCall(S.Call);
      case 0xf2 => s := OpCall(S.CallCode);
      case 0xf4 => s := OpCall(S.DelegateCall);
      case 0xfa => s := OpCall(S.StaticCall);
      case _ => s := LocalStep(code, jumpdests);
    }

    ghost predicate DidRun(r: ExecResult, spec: S.RunResult)
      reads this
    {
      match spec
      case Success(used, data, world) => r == Exec(true, used, world.refunded, data) && WorldView() == world
      case Failure(used, data) => r == Exec(false, used, 0, data)
      case Panicked => r == Aborted
    }

    /** Runs the frame to its end: at most the gas given is spent, and a static frame that succeeds changed nothing. */
    method Run(code: seq<Byte>) returns (r: ExecResult)
      modifies this
      ensures DidRun(r, S.Run(env, Ctx(), old(View()), code))
      ensures r.Exec? ==> r.gasUsed <= old(gas)
      ensures isStatic && r.Exec? && r.success ==> WorldView() == old(WorldView())
      decreases gas, 5
    {
      P.RunFollows(env, Ctx(), View(), code);
      if depth >= CALL_DEPTH_LIMIT {
        return Exec(false, gas, 0, []);
      }
      var jumpdests := ScanJumpdests(code);
      r := Loop(code, jumpdests);
    }

    method Loop(code: seq<Byte>, jumpdests: array<bool>) returns (r: ExecResult)
      requires IsMarked(code, jumpdests)
      modifies this
      ensures DidRun(r, S.Loop(env, Ctx(), old(View()), code, old(gas)))
      decreases gas, 4
    {
      var initial := gas;
      while pc < |code|
        invariant gas <= initial && IsMarked(code, jumpdests)
        invariant S.Loop(env, Ctx(), View(), code, initial) == S.Loop(env, Ctx(), old(View()), code, initial)
        decreases gas
      {
        var ended := Advance(code, jumpdests, initial);
        if ended.Some? {
          return ended.value;
        }
      }
      return Exec(true, initial - gas, gasRefunded, []);
    }

    /** One turn of the loop: either the frame ends here, or it goes on with less gas. */
    method Advance(code: seq<Byte>, jumpdests: array<bool>, initial: u64) returns (ended: Option<ExecResult>)
      requires pc < |code| && gas <= initial && IsMarked(code, jumpdests)
      modifies this
      ensures ended.None? ==> gas < old(gas)
      ensures ended.None? ==>
        S.Loop(env, Ctx(), View(), code, initial) == S.Loop(env, Ctx(), old(View()), code, initial)
      ensures ended.Some? ==> DidRun(ended.value, S.Loop(env, Ctx(), old(View()), code, initial))
      decreases gas, 3
    {
      ghost var last := S.Step(env, Ctx(), View(), code);
      var s := Step(code, jumpdests);
      if s == Going {
        pc := pc + 1;
        return None;
      } else if s == Jumping {
        return None;
      }
      var r := Conclude(s, initial, last);
      return Some(r);
    }

    method Conclude(s: Signal, initial: u64, ghost last: StepResult) returns (r: ExecResult)
      requires s != Going && s != Jumping && Did(s, last)
      requires !last.Error? && !last.Panic? ==> last.m.gas <= initial
      ensures DidRun(r, S.Conclude(last, initial))
    {
      match s
      case Returning(data) => return Exec(true, initial - gas, gasRefunded, data);
      case Reverting(data) => return Exec(false, initial - gas, 0, data);
      case Stopping => return Exec(true, initial - gas, gasRefunded, []);
      case Failing => return Exec(false, initial, 0, []);
      case Panicking => return Aborted;
    }
  }

  ghost predicate IsMarked(code: seq<Byte>, jumpdests: array<bool>)
    reads jumpdests
  {
    jumpdests.Length == |code| && forall k | 0 <= k < |code| :: jumpdests[k] <==> IsJumpdest(code, k)
  }
}
