/** Which positions of a byte string are instructions, and which of those may be jumped to. */
module ZvmJumpdests {
  import opened ZvmMachine

  const JUMPDEST: Byte := 0x5b

  /** An opcode and its immediate data. */
  function Width(op: Byte): (w: nat)
    ensures w > 0
  {
    if 0x60 <= op <= 0x7f then op - 0x5f + 1 else 1
  }

  /** Decoding one instruction after another from `i` arrives at `j`. */
  predicate Reaches(code: seq<Byte>, i: nat, j: nat)
    decreases |code| - i
  {
    i == j || (i < |code| && i < j && Reaches(code, i + Width(code[i]), j))
  }

  predicate IsStart(code: seq<Byte>, i: nat) {
    Reaches(code, 0, i)
  }

  predicate IsJumpdest(code: seq<Byte>, i: nat) {
    i < |code| && code[i] == JUMPDEST && IsStart(code, i)
  }

  lemma {:induction false} ReachesStep(code: seq<Byte>, i: nat, j: nat)
    requires Reaches(code, i, j) && j < |code|
    ensures Reaches(code, i, j + Width(code[j]))
    decreases |code| - i
  {
    if i != j {
      ReachesStep(code, i + Width(code[i]), j);
    }
  }

  /** Instructions do not overlap: nothing inside an instruction's data is reached. */
  lemma {:induction false} DataIsSkipped(code: seq<Byte>, i: nat, j: nat, k: nat)
    requires Reaches(code, i, j) && j < |code| && j < k < j + Width(code[j])
    ensures !Reaches(code, i, k)
    decreases |code| - i
  {
    if i != j {
      DataIsSkipped(code, i + Width(code[i]), j, k);
      ReachedIsAfter(code, i + Width(code[i]), j);
    }
  }

  lemma {:induction false} ReachedIsAfter(code: seq<Byte>, i: nat, j: nat)
    requires Reaches(code, i, j)
    ensures i <= j
  {
  }

  /** Marks exactly the jump destinations, by one sequential decode. */
  method ScanJumpdests(code: seq<Byte>) returns (out: array<bool>)
    ensures fresh(out) && out.Length == |code|
    ensures forall k | 0 <= k < |code| :: out[k] <==> IsJumpdest(code, k)
  {
    out := new bool[|code|](_ => false);
    var i := 0;
    while i < |code|
      invariant IsStart(code, i)
      invariant forall k | 0 <= k < |code| :: out[k] <==> k < i && IsJumpdest(code, k)
      decreases |code| - i
    {
      var op := code[i];
      if op == JUMPDEST {
        out[i] := true;
      }
      ReachesStep(code, 0, i);
      forall k | i < k < i + Width(op)
        ensures !IsStart(code, k)
      {
        DataIsSkipped(code, 0, i, k);
      }
      if 0x60 <= op <= 0x7f {
        i := i + (op - 0x5f) + 1;
      } else {
        i := i + 1;
      }
    }
  }
}
