/**
 * Proportional share accounting common to Buckets and ProofOfLiquidity: a list of
 * shares in 10^18 fixed point is accepted only when every share is positive and they
 * sum to exactly 10^18, and a balance is split as floor(share * balance / 10^18) per entry.
 */
module Shares {
  import opened FixedPoint

  /** Left-to-right sum, in the order the configuring loop accumulates it. */
  function Sum(s: seq<int>): int {
    if s == [] then 0 else Sum(s[..|s| - 1]) + s[|s| - 1]
  }

  ghost predicate AllPositive(s: seq<int>) {
    forall i :: 0 <= i < |s| ==> s[i] > 0
  }

  /** A configuration the contracts accept. */
  ghost predicate ValidShares(s: seq<int>) {
    AllPositive(s) && Sum(s) == EXA
  }

  /** Why a configuration is refused, in the order the configuring loop discovers it. */
  datatype ShareCheck = SharesOk | NonPositiveShare | WrongSum

  /**
   * The loop rejects at the first share that is not positive, before the sum is
   * compared, so any non-positive share wins over a wrong sum.
   */
  function Check(s: seq<int>): (c: ShareCheck)
    ensures c == SharesOk <==> ValidShares(s)
    ensures c == NonPositiveShare <==> exists i :: 0 <= i < |s| && s[i] <= 0
    ensures c == WrongSum <==> AllPositive(s) && Sum(s) != EXA
  {
    if exists i :: 0 <= i < |s| && s[i] <= 0 then NonPositiveShare
    else if Sum(s) != EXA then WrongSum
    else SharesOk
  }

  /**
   * The part of `balance` that one share earns: floor(share * balance / 10^18). Shares
   * are positive and balances non-negative wherever it is used, and there the floor is
   * Java's truncating quotient.
   */
  function Portion(share: int, balance: int): (r: int)
    ensures r * EXA <= share * balance < r * EXA + EXA
    ensures share * balance >= 0 ==> r == Quot(share * balance, EXA)
  {
    share * balance / EXA
  }

  /** Every entry's portion, in configuration order. */
  function Split(s: seq<int>, balance: int): (r: seq<int>)
    ensures |r| == |s|
    ensures forall i :: 0 <= i < |s| ==> r[i] == Portion(s[i], balance)
  {
    seq(|s|, i requires 0 <= i < |s| => Portion(s[i], balance))
  }

  /** The sum of the portions is within one unit per entry of `balance * Sum(s) / 10^18`. */
  lemma {:induction false} SplitSumBounds(s: seq<int>, balance: int)
    ensures Sum(Split(s, balance)) * EXA <= balance * Sum(s)
    ensures balance * Sum(s) - Sum(Split(s, balance)) * EXA <= |s| * (EXA - 1)
  {
    if s != [] {
      var n := |s|;
      var init := s[..n - 1];
      var p := Split(s, balance);
      assert p[..n - 1] == Split(init, balance);
      SplitSumBounds(init, balance);
      assert balance * Sum(s) == balance * Sum(init) + s[n - 1] * balance;
      assert Sum(p) == Sum(Split(init, balance)) + Portion(s[n - 1], balance);
    }
  }

  /**
   * Conservation with bounded dust: for an accepted configuration the portions never
   * exceed the balance, and less than one unit per entry is left over.
   */
  lemma DustBound(s: seq<int>, balance: int)
    requires ValidShares(s)
    ensures Sum(Split(s, balance)) <= balance
    ensures balance - Sum(Split(s, balance)) < |s|
  {
    SplitSumBounds(s, balance);
  }

  /** Each portion of a non-negative balance is non-negative. */
  lemma PortionsNonNegative(s: seq<int>, balance: int)
    requires AllPositive(s) && balance >= 0
    ensures forall i :: 0 <= i < |s| ==> Split(s, balance)[i] >= 0
  {
    forall i | 0 <= i < |s| ensures Split(s, balance)[i] >= 0 {
      assert s[i] * balance >= 0;
    }
  }

  /** A sum of positive shares bounds each of them, so no accepted share exceeds 100%. */
  lemma {:induction false} ShareAtMostSum(s: seq<int>, i: int)
    requires AllPositive(s) && 0 <= i < |s|
    ensures s[i] <= Sum(s)
  {
    var n := |s|;
    var init := s[..n - 1];
    assert AllPositive(init);
    if i < n - 1 {
      ShareAtMostSum(init, i);
      assert init[i] == s[i];
    } else if init != [] {
      ShareAtMostSum(init, 0);
    }
  }

  /** An accepted configuration is not empty, and every share is at most 10^18. */
  lemma ValidSharesShape(s: seq<int>)
    requires ValidShares(s)
    ensures |s| > 0
    ensures forall i :: 0 <= i < |s| ==> s[i] <= EXA
  {
    forall i | 0 <= i < |s| ensures s[i] <= EXA {
      ShareAtMostSum(s, i);
    }
  }

  /** The sum must be exact: one unit more or less than 10^18 is refused. */
  lemma OffByOneRejected(s: seq<int>)
    requires AllPositive(s) && (Sum(s) == EXA - 1 || Sum(s) == EXA + 1)
    ensures Check(s) == WrongSum
  {
  }

  /** The 90% / 6% / 4% split of 100 * 10^18 pays out the whole balance, with no dust. */
  lemma NinetySixFourExample()
    ensures Check([900_000_000_000_000_000, 60_000_000_000_000_000, 40_000_000_000_000_000]) == SharesOk
    ensures Split([900_000_000_000_000_000, 60_000_000_000_000_000, 40_000_000_000_000_000], 100 * EXA)
         == [90 * EXA, 6 * EXA, 4 * EXA]
  {
    var s := [900_000_000_000_000_000, 60_000_000_000_000_000, 40_000_000_000_000_000];
    assert s[..2] == [s[0], s[1]] && [s[0], s[1]][..1] == [s[0]] && [s[0]][..0] == [];
    assert Sum([s[0]]) == s[0];
    assert Sum([s[0], s[1]]) == s[0] + s[1];
    assert Sum(s) == EXA;
  }
}
