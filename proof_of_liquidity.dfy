/**
 * The proof-of-liquidity manager: an owner-configured, ordered list of liquidity
 * sources with shares of 10^18. `distribute` stakes the native balance for sICX and
 * sends the sum of the sources' portions of the sICX amount in ONE transfer to the
 * rewards contract, with a payload that records each source's portion.
 */
module ProofOfLiquidity {
  import opened Results
  import opened FixedPoint
  import opened Storage
  import opened Shares
  import DBUtils

  datatype LiquidityDistribution = LiquidityDistribution(source: string, share: int)

  /** One `{"source": ..., "amount": ...}` record of the transfer payload. */
  datatype SourceAmount = SourceAmount(source: string, amount: int)

  /**
   * The external effects of one distribution: `stakeICX` on `stakingContract` with
   * `staked` native units, then one `transfer` on the `token` contract of `total` to
   * `recipient` carrying `payload`.
   */
  datatype Dispatch = Dispatch(stakingContract: Address, staked: int, token: Address, recipient: Address,
                               total: int, payload: seq<SourceAmount>)

  /** The revert messages of ProofOfLiquidity's Errors. */
  datatype Error = NegativePercentage | InvalidSum | NotConfigured | EmptyBalance | NoReentry

  function SharesOf(ds: seq<LiquidityDistribution>): (s: seq<int>)
    ensures |s| == |ds| && forall i :: 0 <= i < |ds| ==> s[i] == ds[i].share
  {
    seq(|ds|, i requires 0 <= i < |ds| => ds[i].share)
  }

  /** The revert that `configureDistributions` raises for a refused configuration. */
  function ConfigureOutcome(ds: seq<LiquidityDistribution>): (r: Outcome<Error>)
    ensures r == Pass <==> ValidShares(SharesOf(ds))
    ensures r == Fail(NegativePercentage) <==> exists i :: 0 <= i < |ds| && ds[i].share <= 0
    ensures r == Fail(InvalidSum) <==> AllPositive(SharesOf(ds)) && Sum(SharesOf(ds)) != EXA
  {
    match Check(SharesOf(ds))
    case SharesOk => Pass
    case NonPositiveShare => Fail(NegativePercentage)
    case WrongSum => Fail(InvalidSum)
  }

  /** The payload: one record per configured source, in configuration order, with its portion of `amount`. */
  function Records(ds: seq<LiquidityDistribution>, amount: int): (rs: seq<SourceAmount>)
    ensures |rs| == |ds|
    ensures forall i :: 0 <= i < |ds| ==> rs[i].source == ds[i].source
    ensures forall i :: 0 <= i < |ds| ==> rs[i].amount == Split(SharesOf(ds), amount)[i]
  {
    seq(|ds|, i requires 0 <= i < |ds| => SourceAmount(ds[i].source, Portion(ds[i].share, amount)))
  }

  class ProofOfLiquidity {
    const distribution: ArrayDB<LiquidityDistribution>
    const staking: Address
    const sICX: Address
    const balancedRewards: Address
    /** Re-entry latch: set from the staking call until the sICX transfer has been made. */
    var distributing: bool

    /** The stored list is empty (never configured) or an accepted configuration. */
    ghost predicate Valid()
      reads this, distribution
    {
      distribution.elems == [] || ValidShares(SharesOf(distribution.elems))
    }

    constructor (staking: Address, sICX: Address, balancedRewards: Address)
      ensures Valid() && fresh(distribution)
      ensures distribution.elems == [] && !distributing
      ensures this.staking == staking && this.sICX == sICX && this.balancedRewards == balancedRewards
    {
      distribution := new ArrayDB<LiquidityDistribution>();
      this.staking := staking;
      this.sICX := sICX;
      this.balancedRewards := balancedRewards;
      distributing := false;
    }

    /** `getDistributions`: copy the stored list into a new array, in order. */
    method GetDistributions() returns (out: array<LiquidityDistribution>)
      ensures fresh(out) && out[..] == distribution.elems
    {
      var size := |distribution.elems|;
      out := new LiquidityDistribution[size];
      for i := 0 to size
        invariant out[..i] == distribution.elems[..i]
      {
        out[i] := distribution.elems[i];
      }
    }

    /**
     * `configureDistributions`: clear the list, then append each entry while adding up
     * the shares; a non-positive share is refused when it is reached, a total other than
     * 10^18 at the end. A refusal reverts, which restores the list as it was on entry.
     */
    method ConfigureDistributions(input: seq<LiquidityDistribution>) returns (r: Outcome<Error>)
      requires Valid()
      modifies distribution
      ensures Valid()
      ensures r == ConfigureOutcome(input)
      ensures r.Pass? ==> distribution.elems == input
      ensures r.Fail? ==> distribution.elems == old(distribution.elems)
    {
      var snapshot := distribution.elems;
      var sum := 0;
      DBUtils.Clear(distribution);
      for i := 0 to |input|
        invariant distribution.elems == input[..i]
        invariant sum == Sum(SharesOf(input)[..i])
        invariant forall j :: 0 <= j < i ==> input[j].share > 0
      {
        if input[i].share <= 0 {
          distribution.elems := snapshot;
          return Fail(NegativePercentage);
        }
        assert SharesOf(input)[..i + 1][..i] == SharesOf(input)[..i];
        sum := sum + input[i].share;
        distribution.Add(input[i]);
      }
      assert SharesOf(input)[..|input|] == SharesOf(input);
      assert distribution.elems == input;
      if sum != EXA {
        distribution.elems := snapshot;
        return Fail(InvalidSum);
      }
      return Pass;
    }

    /**
     * `distribute`: refuse re-entry, then a non-positive native balance, then an
     * unconfigured list (the reverse of Buckets' order). Otherwise raise the latch,
     * stake `balance`, read the resulting sICX balance `amount`, compute each source's
     * portion of `amount` while summing them, and transfer the sum once. The sICX
     * balance after staking is supplied by the caller as `amount`.
     */
    method Distribute(balance: int, amount: nat) returns (r: Result<Dispatch, Error>)
      requires Valid()
      modifies this
      ensures Valid()
      ensures distributing == old(distributing)
      ensures old(distributing) ==> r == Failure(NoReentry)
      ensures !old(distributing) && balance <= 0 ==> r == Failure(EmptyBalance)
      ensures !old(distributing) && balance > 0 && distribution.elems == [] ==> r == Failure(NotConfigured)
      ensures !old(distributing) && balance > 0 && distribution.elems != [] ==>
        r == Success(Dispatch(staking, balance, sICX, balancedRewards, Sum(Split(SharesOf(distribution.elems), amount)),
                              Records(distribution.elems, amount)))
      ensures r.Success? ==> r.value.total <= amount && amount - r.value.total < |distribution.elems|
    {
      if distributing {
        return Failure(NoReentry);
      }
      if balance <= 0 {
        return Failure(EmptyBalance);
      }
      var size := |distribution.elems|;
      if size <= 0 {
        return Failure(NotConfigured);
      }
      distributing := true;
      ghost var shares := SharesOf(distribution.elems);
      var sum := 0;
      var data: seq<SourceAmount> := [];
      for i := 0 to size
        invariant |data| == i
        invariant forall j :: 0 <= j < i ==> data[j] == SourceAmount(distribution.elems[j].source, Portion(distribution.elems[j].share, amount))
        invariant sum == Sum(Split(shares, amount)[..i])
      {
        var dist := distribution.elems[i];
        var share := dist.share * amount / EXA;
        assert Split(shares, amount)[..i + 1][..i] == Split(shares, amount)[..i];
        sum := sum + share;
        data := data + [SourceAmount(dist.source, share)];
      }
      assert Split(shares, amount)[..size] == Split(shares, amount);
      assert data == Records(distribution.elems, amount);
      distributing := false;
      DustBound(shares, amount);
      return Success(Dispatch(staking, balance, sICX, balancedRewards, sum, data));
    }

    /** `fallback`: receiving native currency attempts a distribution and swallows any revert. */
    method Fallback(balance: int, amount: nat) returns (r: Option<Dispatch>)
      requires Valid()
      modifies this
      ensures Valid()
      ensures distributing == old(distributing)
      ensures old(distributing) || balance <= 0 || distribution.elems == [] ==> r == None
      ensures !old(distributing) && balance > 0 && distribution.elems != [] ==>
        r == Some(Dispatch(staking, balance, sICX, balancedRewards, Sum(Split(SharesOf(distribution.elems), amount)),
                           Records(distribution.elems, amount)))
    {
      var attempt := Distribute(balance, amount);
      r := if attempt.Success? then Some(attempt.value) else None;
    }
  }
}
