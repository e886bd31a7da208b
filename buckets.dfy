/**
 * The emissions splitter (Buckets): an owner-configured, ordered list of buckets, each
 * with an address and a share of 10^18; `distribute` pays every bucket its portion
 * of the contract's native balance.
 */
module Buckets {
  import opened Results
  import opened FixedPoint
  import opened Storage
  import opened Shares
  import DBUtils

  datatype Bucket = Bucket(name: string, address: Address, share: int)

  /** One native-currency transfer (Context.transfer). */
  datatype Transfer = Transfer(to: Address, amount: int)

  /** The revert messages of Buckets' Errors. */
  datatype Error = NegativePercentage | InvalidSum | BucketsNotConfigured | EmptyBalance | NoReentry

  function SharesOf(bs: seq<Bucket>): (s: seq<int>)
    ensures |s| == |bs| && forall i :: 0 <= i < |bs| ==> s[i] == bs[i].share
  {
    seq(|bs|, i requires 0 <= i < |bs| => bs[i].share)
  }

  function Amounts(ts: seq<Transfer>): (s: seq<int>)
    ensures |s| == |ts| && forall i :: 0 <= i < |ts| ==> s[i] == ts[i].amount
  {
    seq(|ts|, i requires 0 <= i < |ts| => ts[i].amount)
  }

  /** The revert that `configureBuckets` raises for a refused configuration. */
  function ConfigureOutcome(bs: seq<Bucket>): (r: Outcome<Error>)
    ensures r == Pass <==> ValidShares(SharesOf(bs))
    ensures r == Fail(NegativePercentage) <==> exists i :: 0 <= i < |bs| && bs[i].share <= 0
    ensures r == Fail(InvalidSum) <==> AllPositive(SharesOf(bs)) && Sum(SharesOf(bs)) != EXA
  {
    match Check(SharesOf(bs))
    case SharesOk => Pass
    case NonPositiveShare => Fail(NegativePercentage)
    case WrongSum => Fail(InvalidSum)
  }

  /** The transfers of one distribution: bucket i, in list order, gets its portion of `balance`. */
  function Payouts(bs: seq<Bucket>, balance: int): (ts: seq<Transfer>)
    ensures |ts| == |bs|
    ensures forall i :: 0 <= i < |bs| ==> ts[i].to == bs[i].address
    ensures Amounts(ts) == Split(SharesOf(bs), balance)
  {
    seq(|bs|, i requires 0 <= i < |bs| => Transfer(bs[i].address, Portion(bs[i].share, balance)))
  }

  /** For an accepted configuration the transfers total at most `balance`, with less than one unit of dust per bucket. */
  lemma PayoutsConserve(bs: seq<Bucket>, balance: int)
    requires ValidShares(SharesOf(bs))
    ensures Sum(Amounts(Payouts(bs, balance))) <= balance
    ensures balance - Sum(Amounts(Payouts(bs, balance))) < |bs|
  {
    DustBound(SharesOf(bs), balance);
  }

  class Buckets {
    const buckets: ArrayDB<Bucket>
    /** Re-entry latch: set for the duration of the transfers of `distribute`. */
    var distributing: bool

    /** The stored list is empty (never configured) or an accepted configuration. */
    ghost predicate Valid()
      reads this, buckets
    {
      buckets.elems == [] || ValidShares(SharesOf(buckets.elems))
    }

    constructor ()
      ensures Valid() && fresh(buckets)
      ensures buckets.elems == [] && !distributing
    {
      buckets := new ArrayDB<Bucket>();
      distributing := false;
    }

    /** `getBuckets`: copy the stored list into a new array, in order. */
    method GetBuckets() returns (out: array<Bucket>)
      ensures fresh(out) && out[..] == buckets.elems
    {
      var size := |buckets.elems|;
      out := new Bucket[size];
      for i := 0 to size
        invariant out[..i] == buckets.elems[..i]
      {
        out[i] := buckets.elems[i];
      }
    }

    /**
     * `configureBuckets`: clear the list, then append each bucket while adding up the
     * shares, rejecting a non-positive share as soon as it is reached and a total other
     * than 10^18 at the end. A rejection reverts the transaction, which restores the
     * list as it was on entry.
     */
    method ConfigureBuckets(input: seq<Bucket>) returns (r: Outcome<Error>)
      requires Valid()
      modifies buckets
      ensures Valid()
      ensures r == ConfigureOutcome(input)
      ensures r.Pass? ==> buckets.elems == input
      ensures r.Fail? ==> buckets.elems == old(buckets.elems)
    {
      var snapshot := buckets.elems;
      var sum := 0;
      DBUtils.Clear(buckets);
      for i := 0 to |input|
        invariant buckets.elems == input[..i]
        invariant sum == Sum(SharesOf(input)[..i])
        invariant forall j :: 0 <= j < i ==> input[j].share > 0
      {
        if input[i].share <= 0 {
          buckets.elems := snapshot;
          return Fail(NegativePercentage);
        }
        assert SharesOf(input)[..i + 1][..i] == SharesOf(input)[..i];
        sum := sum + input[i].share;
        buckets.Add(input[i]);
      }
      assert SharesOf(input)[..|input|] == SharesOf(input);
      assert buckets.elems == input;
      if sum != EXA {
        buckets.elems := snapshot;
        return Fail(InvalidSum);
      }
      return Pass;
    }

    /**
     * `distribute`: refuse re-entry, then an unconfigured list, then a non-positive
     * balance; otherwise raise the latch, transfer each bucket its portion in list
     * order, and lower the latch. The transfers are returned instead of performed.
     */
    method Distribute(balance: int) returns (r: Result<seq<Transfer>, Error>)
      requires Valid()
      modifies this
      ensures Valid()
      ensures distributing == old(distributing)
      ensures old(distributing) ==> r == Failure(NoReentry)
      ensures !old(distributing) && buckets.elems == [] ==> r == Failure(BucketsNotConfigured)
      ensures !old(distributing) && buckets.elems != [] && balance <= 0 ==> r == Failure(EmptyBalance)
      ensures !old(distributing) && buckets.elems != [] && balance > 0 ==> r == Success(Payouts(buckets.elems, balance))
      ensures r.Success? ==> Sum(Amounts(r.value)) <= balance && balance - Sum(Amounts(r.value)) < |buckets.elems|
    {
      if distributing {
        return Failure(NoReentry);
      }
      var size := |buckets.elems|;
      if size <= 0 {
        return Failure(BucketsNotConfigured);
      }
      if balance <= 0 {
        return Failure(EmptyBalance);
      }
      distributing := true;
      var transfers: seq<Transfer> := [];
      for i := 0 to size
        invariant |transfers| == i
        invariant forall j :: 0 <= j < i ==> transfers[j] == Transfer(buckets.elems[j].address, Portion(buckets.elems[j].share, balance))
      {
        var bucket := buckets.elems[i];
        var share := bucket.share * balance / EXA;
        transfers := transfers + [Transfer(bucket.address, share)];
      }
      distributing := false;
      assert transfers == Payouts(buckets.elems, balance);
      PayoutsConserve(buckets.elems, balance);
      return Success(transfers);
    }
  }

  /** The 90% / 6% / 4% example: 100 * 10^18 is paid out as exactly 90, 6 and 4 times 10^18. */
  lemma NinetySixFourPayouts(nol: Address, savings: Address, insurance: Address)
    ensures Payouts([Bucket("NOL", nol, 900_000_000_000_000_000), Bucket("Savings", savings, 60_000_000_000_000_000),
                     Bucket("Insurance", insurance, 40_000_000_000_000_000)], 100 * EXA)
         == [Transfer(nol, 90 * EXA), Transfer(savings, 6 * EXA), Transfer(insurance, 4 * EXA)]
  {
  }
}
