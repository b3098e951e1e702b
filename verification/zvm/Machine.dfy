/**
 The data of one interpreter frame, and the stack and memory primitives every opcode is built from.

 `Machine` is what a frame changes: gas, stack, memory, return data, program counter, and the `World`
 it shares with its parent once it succeeds. `Context` is what it cannot change. Words are numbers
 below 2^256; the places where the source narrows one to a machine size are the places that can panic.
 */
module ZvmMachine {
  import opened Common
  import opened Arith

  const STACK_LIMIT: nat := 1024
  const CALL_DEPTH_LIMIT: nat := 1024
  const MAX_CODE_SIZE: nat := 24_576
  const MAX_INITCODE_SIZE: nat := 49_152
  const MAX_MEMORY_WORDS: nat := 0x8000_0000

  type Byte = x: int | 0 <= x < 256
  type Word = x: int | 0 <= x <= U256_MAX
  type Address = Word
  type Hash = Word
  type Slot = (Address, Word)

  datatype Account = Account(nonce: u64, balance: u128, storageRoot: Hash, codeHash: Hash)

  datatype Journal = Journal(touched: seq<(Address, Account)>, code: seq<(Hash, seq<Byte>)>)

  const NO_ENTRIES := Journal([], [])

  /** What a frame can change beyond itself: buffered storage, the account journal, the refund counter. */
  datatype World = World(storage: map<Slot, Word>, transient: map<Slot, Word>, journal: Journal, refunded: u64)

  datatype Context = Context(
    address: Address,
    caller: Address,
    origin: Address,
    value: u128,
    calldata: seq<Byte>,
    depth: nat,
    isStatic: bool)

  datatype Machine = Machine(
    gas: u64,
    stack: seq<Word>,
    memory: seq<Byte>,
    returnData: seq<Byte>,
    pc: nat,
    world: World)

  datatype Precompiled = Precompiled(success: bool, gasUsed: u64, returnData: seq<Byte>)

  /** What the interpreter asks of the database, the hash function, the precompiles and the word arithmetic. */
  datatype Env = Env(
    account: Address -> Option<Account>,
    code: Hash -> Option<seq<Byte>>,
    slot: (Address, Word) -> Word,
    precompile: (Address, seq<Byte>, u64) -> Option<Precompiled>,
    createAddress: (Address, u64) -> Address,
    create2Address: (Address, Word, seq<Byte>) -> Address,
    hash: seq<Byte> -> Hash,
    eval: (Byte, Context, seq<Word>) -> Option<Word>,
    emptyHash: Hash)

  function AccountOf(env: Env, a: Address): Account {
    match env.account(a)
    case Some(acct) => acct
    case None => Account(0, 0, 0, env.emptyHash)
  }

  /** How a step ends; `Panic` is a conversion, slice or sum that the process itself does not survive. */
  datatype StepResult =
    | Continue(m: Machine)
    | Jumped(m: Machine)
    | Return(m: Machine, data: seq<Byte>)
    | Revert(m: Machine, data: seq<Byte>)
    | Stop(m: Machine)
    | Error
    | Panic

  // ───────────── the stack ─────────────

  datatype Popped = Popped(args: seq<Word>, rest: seq<Word>) | Underflow | TooBig

  /** Pops one word per entry of `sized`, top first; a `true` entry must also fit a machine size. */
  function PopArgs(stack: seq<Word>, sized: seq<bool>): (p: Popped)
    ensures p.Popped? ==>
      && |p.args| == |sized| <= |stack| && p.rest == stack[..|stack| - |sized|]
      && forall i | 0 <= i < |sized| :: p.args[i] == stack[|stack| - 1 - i] && (sized[i] ==> p.args[i] <= U64_MAX)
    decreases |stack|
  {
    if sized == [] then Popped([], stack)
    else if stack == [] then Underflow
    else
      var n := |stack| - 1;
      if sized[0] && stack[n] > U64_MAX then TooBig
      else
        match PopArgs(stack[..n], sized[1..])
        case Popped(args, rest) => Popped([stack[n]] + args, rest)
        case other => other
  }

  /** A push whose overflow is ignored. */
  function PushQuiet(stack: seq<Word>, w: Word): seq<Word> {
    if |stack| >= STACK_LIMIT then stack else stack + [w]
  }

  /** The head of an opcode: pay, then pop. */
  datatype Taken = Taken(m: Machine, args: seq<Word>) | Broke(r: StepResult)

  function Charge(m: Machine, cost: nat): (t: Taken)
    ensures t.Taken? ==> m.gas >= cost && t == Taken(m.(gas := m.gas - cost), [])
    ensures t.Broke? ==> t.r.Error?
  {
    if m.gas < cost then Broke(Error) else Taken(m.(gas := m.gas - cost), [])
  }

  function Pops(m: Machine, sized: seq<bool>): (t: Taken)
    ensures t.Taken? ==> |t.args| == |sized| <= |m.stack| && t.m == m.(stack := m.stack[..|m.stack| - |sized|])
    ensures t.Taken? ==> forall i | 0 <= i < |sized| :: sized[i] ==> t.args[i] <= U64_MAX
    ensures t.Broke? ==> t.r.Error? || t.r.Panic?
  {
    match PopArgs(m.stack, sized)
    case Popped(args, rest) => Taken(m.(stack := rest), args)
    case Underflow => Broke(Error)
    case TooBig => Broke(Panic)
  }

  function Take(m: Machine, cost: nat, sized: seq<bool>): (t: Taken)
    ensures t.Taken? ==>
      && m.gas >= cost && |t.args| == |sized| <= |m.stack|
      && t.m == m.(gas := m.gas - cost, stack := m.stack[..|m.stack| - |sized|])
      && forall i | 0 <= i < |sized| :: sized[i] ==> t.args[i] <= U64_MAX
    ensures t.Broke? ==> t.r.Error? || t.r.Panic?
  {
    var paid := Charge(m, cost);
    if paid.Broke? then paid else Pops(paid.m, sized)
  }

  // ───────────── bytes and words ─────────────

  /** Big-endian value of a byte string. */
  function ValueOf(bs: seq<Byte>): nat {
    if bs == [] then 0 else 256 * ValueOf(bs[..|bs|-1]) + bs[|bs|-1]
  }

  /** The `n` low-order bytes of `w`, most significant first. */
  function BytesOf(w: nat, n: nat): (bs: seq<Byte>)
    ensures |bs| == n
    decreases w + n
  {
    if n == 0 then [] else BytesOf(w / 256, n - 1) + [w % 256]
  }

  lemma {:induction false} ValueFits(bs: seq<Byte>)
    ensures ValueOf(bs) < Pow2(8 * |bs|)
  {
    if bs != [] {
      ValueFits(bs[..|bs|-1]);
      PowAdd(8, 8 * (|bs| - 1));
      PowEight();
    }
  }

  lemma PowEight()
    ensures Pow2(8) == 256
  {
    assert Pow2(4) == 16;
    PowAdd(4, 4);
  }

  lemma PowSquare(k: nat, p: nat)
    requires Pow2(k) == p
    ensures Pow2(k + k) == p * p
  {
    PowAdd(k, k);
  }

  lemma PowWord(k: nat)
    requires k == 256
    ensures Pow2(k) == U256_MAX + 1
  {
    PowHalfWord(k - 128);
    PowSquare(k - 128, U128_MAX + 1);
  }

  lemma PowHalfWord(k: nat)
    requires k == 128
    ensures Pow2(k) == U128_MAX + 1
  {
    var n := k - 120;
    PowEight();
    PowSquare(n, 0x100);
    PowSquare(n + n, 0x1_0000);
    PowSquare(4 * n, 0x1_0000_0000);
    PowSquare(8 * n, 0x1_0000_0000_0000_0000);
  }

  /** Up to thirty-two bytes read as one word. */
  function WordOf(bs: seq<Byte>): Word
    requires |bs| <= 32
  {
    ValueFits(bs);
    PowGrows(8 * |bs|, 256);
    PowWord(256);
    ValueOf(bs)
  }

  /** Reading a word back from its own thirty-two bytes. */
  lemma {:induction false} BytesRoundTrip(w: nat, n: nat)
    requires w < Pow2(8 * n)
    ensures ValueOf(BytesOf(w, n)) == w
    decreases n
  {
    if n > 0 {
      PowAdd(8, 8 * (n - 1));
      PowEight();
      BytesRoundTrip(w / 256, n - 1);
      var bs := BytesOf(w, n);
      assert bs[..n - 1] == BytesOf(w / 256, n - 1);
    }
  }

  lemma WordRoundTrip(w: Word, n: nat)
    requires n == 32
    ensures ValueOf(BytesOf(w, n)) == w
  {
    PowWord(8 * n);
    BytesRoundTrip(w, n);
  }

  // ───────────── memory ─────────────

  /** Three gas a word plus a quadratic term. */
  function MemCost(words: nat): nat {
    3 * words + Quotient(Product(words, words), 512)
  }

  function Zeros(n: nat): seq<Byte> {
    seq(n, _ => 0)
  }

  datatype Access = Granted(m: Machine, data: seq<Byte>) | Refused | Crashed

  /** Makes `[off, off + size)` addressable, charging for whole new words. */
  function Expand(m: Machine, off: u64, size: u64): (r: Access)
    ensures r.Granted? ==>
      && r.m == m.(gas := r.m.gas, memory := r.m.memory) && r.m.gas <= m.gas
      && m.memory <= r.m.memory && (size > 0 ==> off + size <= |r.m.memory|)
  {
    if size == 0 then Granted(m, [])
    else if off + size > U64_MAX then Refused
    else if off + size <= |m.memory| then Granted(m, [])
    else if off + size + 31 > U64_MAX then Crashed
    else
      var words := (off + size + 31) / 32;
      if words > MAX_MEMORY_WORDS then Refused
      else
        var cost := SatSub(MemCost(words), MemCost((|m.memory| + 31) / 32));
        if m.gas < cost then Refused
        else Granted(m.(gas := m.gas - cost, memory := m.memory + Zeros(words * 32 - |m.memory|)), [])
  }

  /** An empty read past the end of memory is not free: the slice itself panics. */
  function ReadMemory(m: Machine, off: u64, size: u64): (r: Access)
    ensures r.Granted? ==>
      && r.m == m.(gas := r.m.gas, memory := r.m.memory) && r.m.gas <= m.gas
      && m.memory <= r.m.memory && off + size <= |r.m.memory| && r.data == r.m.memory[off..off + size]
  {
    var g := Expand(m, off, size);
    if !g.Granted? then g
    else if off > |g.m.memory| then Crashed
    else Granted(g.m, g.m.memory[off..off + size])
  }

  function Overwrite(memory: seq<Byte>, off: nat, data: seq<Byte>): (r: seq<Byte>)
    requires off + |data| <= |memory|
    ensures |r| == |memory| && r[off..off + |data|] == data
    ensures forall i | 0 <= i < |memory| && !(off <= i < off + |data|) :: r[i] == memory[i]
  {
    memory[..off] + data + memory[off + |data|..]
  }

  function WriteMemory(m: Machine, off: u64, data: seq<Byte>): (r: Access)
    requires |data| <= U64_MAX
    ensures r.Granted? ==>
      && r.m == m.(gas := r.m.gas, memory := r.m.memory) && r.m.gas <= m.gas
      && |m.memory| <= |r.m.memory| && off + |data| <= |r.m.memory| && r.m.memory[off..off + |data|] == data
  {
    var g := Expand(m, off, |data|);
    if !g.Granted? then g
    else if off > |g.m.memory| then Crashed
    else Granted(g.m.(memory := Overwrite(g.m.memory, off, data)), [])
  }

  /** `len` bytes of `src` from `from` on, zero past its end. */
  function ZeroPadded(src: seq<Byte>, from: nat, len: nat): (r: seq<Byte>)
    ensures |r| == len
  {
    seq(len, i requires 0 <= i < len => if from + i < |src| then src[from + i] else 0)
  }
}
