/** Validator sets, voting power and the 2/3 threshold. */
module VotingPower {
  import opened Common
  import opened ConsensusTypes

  datatype Validator = Validator(address: Address, votingPower: u64)

  function Find(vals: seq<Validator>, a: Address): Option<Validator> {
    if vals == [] then None
    else if vals[0].address == a then Some(vals[0])
    else Find(vals[1..], a)
  }

  function TotalPower(vals: seq<Validator>): nat {
    if vals == [] then 0 else vals[0].votingPower + TotalPower(vals[1..])
  }

  /** Power of the validators whose address lies in `s`. */
  function PowerOf(vals: seq<Validator>, s: set<Address>): nat {
    if vals == [] then 0
    else (if vals[0].address in s then vals[0].votingPower else 0) + PowerOf(vals[1..], s)
  }

  function Addresses(vals: seq<Validator>): set<Address> {
    set v | v in vals :: v.address
  }

  predicate Distinct(vals: seq<Validator>) {
    forall i, j :: 0 <= i < j < |vals| ==> vals[i].address != vals[j].address
  }

  /** Addresses are distinct and twice the total power fits the machine word it is computed in. */
  predicate GoodSet(vals: seq<Validator>) {
    Distinct(vals) && 2 * TotalPower(vals) <= U64_MAX
  }

  /** More than two thirds of the total: the threshold every quorum test uses. */
  function Quorum(vals: seq<Validator>): nat {
    2 * TotalPower(vals) / 3 + 1
  }

  function FoundPower(vals: seq<Validator>, a: Address): nat {
    if Find(vals, a).Some? then Find(vals, a).value.votingPower else 0
  }

  lemma {:induction false} FindFinds(vals: seq<Validator>, a: Address)
    ensures Find(vals, a).Some? <==> a in Addresses(vals)
    ensures Find(vals, a).Some? ==> Find(vals, a).value in vals && Find(vals, a).value.address == a
  {
    if vals != [] { FindFinds(vals[1..], a); }
  }

  lemma {:induction false} PowerInsert(vals: seq<Validator>, s: set<Address>, a: Address)
    requires Distinct(vals) && a !in s
    ensures PowerOf(vals, s + {a}) == PowerOf(vals, s) + FoundPower(vals, a)
  {
    if vals != [] {
      PowerInsert(vals[1..], s, a);
      FindFinds(vals[1..], a);
    }
  }

  lemma {:induction false} PowerUnion(vals: seq<Validator>, a: set<Address>, b: set<Address>)
    ensures PowerOf(vals, a + b) + PowerOf(vals, a * b) == PowerOf(vals, a) + PowerOf(vals, b)
  {
    if vals != [] { PowerUnion(vals[1..], a, b); }
  }

  lemma {:induction false} PowerMonotone(vals: seq<Validator>, a: set<Address>, b: set<Address>)
    requires forall x | x in a && x in Addresses(vals) :: x in b
    ensures PowerOf(vals, a) <= PowerOf(vals, b) <= TotalPower(vals)
  {
    if vals != [] {
      assert forall x | x in Addresses(vals[1..]) :: x in Addresses(vals);
      PowerMonotone(vals[1..], a, b);
      assert vals[0] in vals && vals[0].address in Addresses(vals);
    }
  }

  lemma {:induction false} NoPower(vals: seq<Validator>)
    ensures PowerOf(vals, {}) == 0
  {
    if vals != [] { NoPower(vals[1..]); }
  }

  /** Two quorums share validators holding more than a third of the power. */
  lemma QuorumsIntersect(vals: seq<Validator>, a: set<Address>, b: set<Address>)
    requires PowerOf(vals, a) >= Quorum(vals) && PowerOf(vals, b) >= Quorum(vals)
    ensures 3 * PowerOf(vals, a * b) > TotalPower(vals)
  {
    PowerUnion(vals, a, b);
    PowerMonotone(vals, a + b, a + b);
  }

  /** A set outweighing the faulty part holds a validator that is not faulty. */
  lemma HeavyMeetsHonest(vals: seq<Validator>, heavy: set<Address>, faulty: set<Address>) returns (a: Address)
    requires PowerOf(vals, heavy) > PowerOf(vals, faulty)
    ensures a in heavy && a !in faulty && a in Addresses(vals)
  {
    if forall x | x in heavy && x in Addresses(vals) :: x in faulty {
      PowerMonotone(vals, heavy, faulty);
    }
    a :| a in heavy && a in Addresses(vals) && a !in faulty;
  }
}
