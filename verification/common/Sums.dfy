/** Sums over finite maps, and sums of the integer divisions that split an amount pro rata. */
module Sums {
  import opened Arith

  ghost function Sum<K(!new)>(m: map<K, nat>): nat
    decreases |m|
  {
    if m == map[] then 0
    else
      var k :| k in m;
      assert (m - {k}).Keys == m.Keys - {k};
      m[k] + Sum(m - {k})
  }

  lemma {:induction false} SumRemove<K(!new)>(m: map<K, nat>, k: K)
    requires k in m
    ensures Sum(m) == m[k] + Sum(m - {k})
    decreases |m|
  {
    var k0 :| k0 in m && Sum(m) == m[k0] + Sum(m - {k0});
    assert (m - {k0}).Keys == m.Keys - {k0} && (m - {k}).Keys == m.Keys - {k};
    if k != k0 {
      SumRemove(m - {k0}, k);
      SumRemove(m - {k}, k0);
      assert m - {k0} - {k} == m - {k} - {k0};
    }
  }

  lemma SumUpdate<K(!new)>(m: map<K, nat>, k: K, x: nat)
    ensures Sum(m[k := x]) == Sum(m - {k}) + x
    ensures Sum(m) == Sum(m - {k}) + if k in m then m[k] else 0
  {
    SumRemove(m[k := x], k);
    assert m[k := x] - {k} == m - {k};
    if k in m {
      SumRemove(m, k);
    } else {
      assert m - {k} == m;
    }
  }

  lemma SumAtLeast<K(!new)>(m: map<K, nat>, k: K)
    requires k in m
    ensures m[k] <= Sum(m)
  {
    SumRemove(m, k);
  }

  /** Pointwise sum of two maps with the same keys. */
  lemma {:induction false} SumAdd<K(!new)>(m: map<K, nat>, a: map<K, nat>, b: map<K, nat>)
    requires m.Keys == a.Keys == b.Keys
    requires forall k :: k in m ==> m[k] == a[k] + b[k]
    ensures Sum(m) == Sum(a) + Sum(b)
    decreases |m|
  {
    if m == map[] {
      assert a == map[] && b == map[];
    } else {
      var k :| k in m;
      SumRemove(m, k);
      SumRemove(a, k);
      SumRemove(b, k);
      assert (m - {k}).Keys == m.Keys - {k};
      SumAdd(m - {k}, a - {k}, b - {k});
    }
  }

  lemma {:induction false} SumMonotone<K(!new)>(a: map<K, nat>, b: map<K, nat>)
    requires forall k :: k in a ==> k in b && a[k] <= b[k]
    ensures Sum(a) <= Sum(b)
    decreases |a|
  {
    if a != map[] {
      var k :| k in a;
      SumRemove(a, k);
      SumRemove(b, k);
      assert (a - {k}).Keys == a.Keys - {k};
      SumMonotone(a - {k}, b - {k});
    }
  }

  lemma {:induction false} SumPositive<K(!new)>(m: map<K, nat>)
    requires Sum(m) > 0
    ensures exists k :: k in m && m[k] > 0
    decreases |m|
  {
    var k :| k in m;
    SumRemove(m, k);
    if m[k] == 0 {
      assert (m - {k}).Keys == m.Keys - {k};
      SumPositive(m - {k});
      var j :| j in m - {k} && (m - {k})[j] > 0;
      assert j in m && m[j] > 0;
    }
  }

  lemma {:induction false} SumSkipsZeros<K(!new)>(m: map<K, nat>, part: map<K, nat>)
    requires part.Keys <= m.Keys
    requires forall k :: k in m ==> m[k] == if k in part then part[k] else 0
    ensures Sum(m) == Sum(part)
    decreases |m|
  {
    if m == map[] {
      assert part == map[];
    } else {
      var k :| k in m;
      SumRemove(m, k);
      assert (m - {k}).Keys == m.Keys - {k};
      if k in part {
        SumRemove(part, k);
        SumSkipsZeros(m - {k}, part - {k});
      } else {
        SumSkipsZeros(m - {k}, part);
      }
    }
  }

  lemma {:induction false} SumOfZeros<K(!new)>(m: map<K, nat>)
    requires forall k :: k in m ==> m[k] == 0
    ensures Sum(m) == 0
  {
    if Sum(m) > 0 {
      SumPositive(m);
    }
  }

  // ───────────── splitting pro rata ─────────────

  /** Each holder's floor share of `amount`, when `total` is split by weight. */
  ghost function Cuts<K(!new)>(m: map<K, nat>, amount: nat, total: nat): map<K, nat>
    requires total > 0
  {
    map k | k in m :: MulFloor(amount, m[k], total)
  }

  /** A sum `s` of `n` floors of the parts of `amount * w`, each over `total`. */
  predicate Brackets(amount: nat, total: nat, s: nat, w: nat, n: nat) {
    s * total <= amount * w <= (s + n) * total && (n > 0 ==> amount * w < (s + n) * total)
  }

  lemma CutsShape<K(!new)>(m: map<K, nat>, amount: nat, total: nat, k: K)
    requires total > 0 && k in m
    ensures Sum(m) == m[k] + Sum(m - {k}) && |m| == |m - {k}| + 1
    ensures Sum(Cuts(m, amount, total)) == MulFloor(amount, m[k], total) + Sum(Cuts(m - {k}, amount, total))
  {
    SumRemove(m, k);
    SumRemove(Cuts(m, amount, total), k);
    assert (m - {k}).Keys == m.Keys - {k};
    assert Cuts(m, amount, total) - {k} == Cuts(m - {k}, amount, total);
  }

  /** Floor shares add up to at most the pro-rata part, and fall short of it by less than one each. */
  lemma {:induction false} CutsBracket<K(!new)>(m: map<K, nat>, amount: nat, total: nat)
    requires total > 0
    ensures Brackets(amount, total, Sum(Cuts(m, amount, total)), Sum(m), |m|)
    decreases |m|
  {
    if m == map[] {
      assert Cuts(m, amount, total) == map[];
    } else {
      var k :| k in m;
      CutsShape(m, amount, total, k);
      CutsBracket(m - {k}, amount, total);
      CutsStep(amount, total, m[k], Sum(Cuts(m - {k}, amount, total)), Sum(m - {k}), |m - {k}|);
    }
  }

  lemma CutsStep(amount: nat, total: nat, w: nat, rest: nat, restW: nat, n: nat)
    requires total > 0 && Brackets(amount, total, rest, restW, n)
    ensures Brackets(amount, total, MulFloor(amount, w, total) + rest, w + restW, n + 1)
  {
    var q := MulFloor(amount, w, total);
    FloorBracket(amount, w, total);
    assert amount * (w + restW) == amount * w + amount * restW;
    assert (q + rest) * total == q * total + rest * total;
    assert (q + rest + (n + 1)) * total == q * total + (rest + n) * total + total;
  }

  /** A full split hands out at most the amount, and less than one unit per holder is left over. */
  lemma CutsOfWhole<K(!new)>(m: map<K, nat>, amount: nat, total: nat)
    requires total > 0 && Sum(m) == total
    ensures Sum(Cuts(m, amount, total)) <= amount < Sum(Cuts(m, amount, total)) + |m|
  {
    var s := Sum(Cuts(m, amount, total));
    CutsBracket(m, amount, total);
    MulCancelLe(s, amount, total);
    MulCancelLt(amount, s + |m|, total);
  }
}
