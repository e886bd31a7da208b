/**
 * Network-owned liquidity: the contract buys LP tokens of configured pools with
 * native currency (ICX). A reward quote values the two legs of a deposit from the pool
 * reserves and oracle prices, refuses a deposit whose legs disagree by more than the
 * slippage tolerance, adds a bonus and converts to ICX; a per-pool order throttles the
 * payouts with a budget that is replenished linearly with block height.
 */
module NetworkOwnedLiquidity {
  import opened Results
  import opened FixedPoint
  import opened Storage
  import opened MathUtil
  import opened DBUtils

  /** One pool's order: its budget `limit`, the block of the last purchase and the budget `remaining` then. */
  datatype LiquidityOrder = LiquidityOrder(limit: int, lastPurchaseBlock: int, remaining: int)

  /** An entry of `getOrders`: the stored order with its pool id filled in. */
  datatype PidOrder = PidOrder(pid: int, order: LiquidityOrder)

  /** What the DEX's `getPoolStats` reports: reserves, LP supply and token decimals. */
  datatype PoolStats = PoolStats(base: int, quote: int, totalSupply: int, baseDecimals: int, quoteDecimals: int)

  /** The oracle's USD prices (18 decimals) of the base token, the quote token and ICX. */
  datatype Prices = Prices(baseUsd: int, quoteUsd: int, icxUsd: int)

  /**
   * The revert messages of NetworkOwnedLiquidity's Errors; `NullPointer` and
   * `DivisionByZero` stand for the NullPointerException and ArithmeticException that
   * revert a transaction dereferencing an absent order or dividing by zero.
   */
  datatype Error =
    | TokenFallbackZeroValue | TokenFallbackDataEmpty | Irc31MethodNotFound
    | OrderLimitReached | LpOverSlippageLimit | NoOrderExists | NullPointer | DivisionByZero

  /** A completed purchase: the `LiquidityPurchased` event, whose payout is transferred to `recipient`. */
  datatype Purchase = Purchase(pid: int, lpTokenAmount: int, recipient: Address, payout: int)

  /** The purchase together with the order as it is stored afterwards. */
  datatype Fill = Fill(purchase: Purchase, order: LiquidityOrder)

  /** The `method` tag of an inbound LP-token transfer's JSON payload. */
  datatype Command = Deposit | Swap | Unknown(name: string)

  /** What `onIRC31Received` did with an inbound transfer that it accepted. */
  datatype Receipt = Deposited | Purchased(purchase: Purchase)

  /** Default swap reward and LP slippage: 100 points, 1%. */
  const DEFAULT_SWAP_REWARDS: int := 100
  const DEFAULT_LP_SLIPPAGE: int := 100

  // ---------------------------------------------------------------- reward quote

  /** The share of one reserve that `amount` LP tokens stand for, rounded toward zero. */
  function LegTokens(reserve: int, amount: int, totalSupply: int): (r: int)
    requires totalSupply != 0
    ensures reserve >= 0 && amount >= 0 && totalSupply > 0 ==>
      r >= 0 && r * totalSupply <= reserve * amount < r * totalSupply + totalSupply
  {
    Quot(reserve * amount, totalSupply)
  }

  /** A leg's USD value in 18 decimals: its token amount times the USD price over 10^decimals. */
  function LegUsd(reserve: int, amount: int, totalSupply: int, priceUsd: int, decimals: int): (r: int)
    requires totalSupply != 0
    ensures reserve >= 0 && amount >= 0 && totalSupply > 0 && priceUsd >= 0 ==>
      var t, d := LegTokens(reserve, amount, totalSupply), DecimalScale(IntValue(decimals));
      r >= 0 && r * d <= t * priceUsd < r * d + d
  {
    var t, d := LegTokens(reserve, amount, totalSupply), DecimalScale(IntValue(decimals));
    assert reserve >= 0 && amount >= 0 && totalSupply > 0 && priceUsd >= 0 ==> t >= 0 && t * priceUsd >= 0;
    Quot(t * priceUsd, d)
  }

  function BaseUsd(stats: PoolStats, prices: Prices, amount: int): int
    requires stats.totalSupply != 0
  {
    LegUsd(stats.base, amount, stats.totalSupply, prices.baseUsd, stats.baseDecimals)
  }

  function QuoteUsd(stats: PoolStats, prices: Prices, amount: int): int
    requires stats.totalSupply != 0
  {
    LegUsd(stats.quote, amount, stats.totalSupply, prices.quoteUsd, stats.quoteDecimals)
  }

  /** The divisor of the slippage ratio: the legs' average, rounded toward zero. */
  function LegsAverage(stats: PoolStats, prices: Prices, amount: int): int
    requires stats.totalSupply != 0
  {
    Quot(BaseUsd(stats, prices, amount) + QuoteUsd(stats, prices, amount), 2)
  }

  /** The three divisors of the quote are non-zero: LP supply, legs' average, ICX price. */
  predicate QuoteDefined(stats: PoolStats, prices: Prices, amount: int) {
    stats.totalSupply != 0 && prices.icxUsd != 0 && LegsAverage(stats, prices, amount) != 0
  }

  /** How far apart the legs are, in points of their average: |b - q| * 10000 / ((b + q) / 2). */
  function SlippagePoints(b: int, q: int): (r: int)
    requires Quot(b + q, 2) != 0
    ensures b == q ==> r == 0
    ensures b >= 0 && q >= 0 ==> r >= 0
    ensures b >= 0 && q >= 0 ==>
      var avg := Quot(b + q, 2); r * avg <= Abs(b - q) * POINTS < r * avg + avg
  {
    var avg := Quot(b + q, 2);
    assert b >= 0 && q >= 0 ==> avg == (b + q) / 2 && avg > 0;
    assert Abs(b - q) * POINTS >= 0;
    Quot(Abs(b - q) * POINTS, avg)
  }

  /** The USD value with the swap bonus: total * (10000 + swapReward) / 10000. */
  function WithBonus(totalUsd: int, swapReward: int): (r: int)
    ensures totalUsd >= 0 && POINTS + swapReward >= 0 ==>
      r * POINTS <= totalUsd * (POINTS + swapReward) < r * POINTS + POINTS
    ensures totalUsd >= 0 && swapReward >= 0 ==> r >= totalUsd
  {
    Quot(totalUsd * (POINTS + swapReward), POINTS)
  }

  /** A USD amount in ICX: the largest ICX amount whose USD value does not exceed it. */
  function ToIcx(usd: int, icxUsd: int): (r: int)
    requires icxUsd != 0
    ensures usd >= 0 && icxUsd > 0 ==> r * icxUsd <= usd * EXA < r * icxUsd + icxUsd
  {
    Quot(usd * EXA, icxUsd)
  }

  /**
   * `calculateICXReward` with the DEX's pool stats and the oracle's prices supplied:
   * refuse legs more than `lpSlippage` points apart, otherwise pay the legs' total USD
   * value plus the bonus, in ICX. The divisions by the LP supply and by the legs'
   * average come before the slippage check, the one by the ICX price after it.
   */
  function CalculateIcxReward(stats: PoolStats, prices: Prices, amount: int, swapReward: int, lpSlippage: int)
    : (r: Result<int, Error>)
    ensures r.Success? <==>
      QuoteDefined(stats, prices, amount)
      && SlippagePoints(BaseUsd(stats, prices, amount), QuoteUsd(stats, prices, amount)) <= lpSlippage
    ensures r.Success? ==>
      r.value == ToIcx(WithBonus(BaseUsd(stats, prices, amount) + QuoteUsd(stats, prices, amount), swapReward), prices.icxUsd)
    ensures r == Failure(LpOverSlippageLimit) <==>
      stats.totalSupply != 0 && LegsAverage(stats, prices, amount) != 0
      && SlippagePoints(BaseUsd(stats, prices, amount), QuoteUsd(stats, prices, amount)) > lpSlippage
    ensures r.Failure? ==> r.error == LpOverSlippageLimit || r.error == DivisionByZero
  {
    if stats.totalSupply == 0 then Failure(DivisionByZero)
    else
      var baseAmountInUsd := BaseUsd(stats, prices, amount);
      var quoteAmountInUsd := QuoteUsd(stats, prices, amount);
      if Quot(baseAmountInUsd + quoteAmountInUsd, 2) == 0 then Failure(DivisionByZero)
      else if SlippagePoints(baseAmountInUsd, quoteAmountInUsd) > lpSlippage then Failure(LpOverSlippageLimit)
      else if prices.icxUsd == 0 then Failure(DivisionByZero)
      else Success(ToIcx(WithBonus(baseAmountInUsd + quoteAmountInUsd, swapReward), prices.icxUsd))
  }

  /** Perfectly priced legs pass any non-negative tolerance. */
  lemma EqualLegsPass(stats: PoolStats, prices: Prices, amount: int, swapReward: int, lpSlippage: int)
    requires QuoteDefined(stats, prices, amount) && lpSlippage >= 0
    requires BaseUsd(stats, prices, amount) == QuoteUsd(stats, prices, amount)
    ensures CalculateIcxReward(stats, prices, amount, swapReward, lpSlippage).Success?
  {
  }

  /**
   * What the guard guarantees: legs that pass a tolerance of `tol` points differ by less
   * than (tol + 1) points of their average.
   */
  lemma SlippageGuardBound(b: int, q: int, tol: int)
    requires b >= 0 && q >= 0 && Quot(b + q, 2) != 0
    requires SlippagePoints(b, q) <= tol
    ensures Abs(b - q) * POINTS < (tol + 1) * Quot(b + q, 2)
  {
    var x, avg := Abs(b - q) * POINTS, Quot(b + q, 2);
    assert avg == (b + q) / 2 && avg > 0;
    assert x >= 0;
    assert SlippagePoints(b, q) == x / avg;
    BelowNextMultiple(x, avg);
    MulMonotone(x / avg + 1, tol + 1, avg);
  }

  /** A non-negative x lies below the next multiple of d after floor(x / d). */
  lemma BelowNextMultiple(x: int, d: int)
    requires x >= 0 && d > 0
    ensures x < (x / d + 1) * d
  {
    assert x == (x / d) * d + x % d;
  }

  lemma MulMonotone(a: int, b: int, c: int)
    requires a <= b && c >= 0
    ensures a * c <= b * c
  {
  }

  /** An 18-decimal pool of 1000 sICX and 2000 bnUSD ($1) with ICX at $0.25. */
  function ExampleStats(): PoolStats {
    PoolStats(1000 * EXA, 2000 * EXA, 1000 * EXA, 18, 18)
  }

  function ExamplePrices(basePrice: int): Prices {
    Prices(basePrice, EXA, 250_000_000_000_000_000)
  }

  /** For 1% of the example pool's LP supply: base leg worth 10 * basePrice, quote leg worth $20. */
  lemma ExampleLegs(basePrice: int)
    requires basePrice >= 0
    ensures BaseUsd(ExampleStats(), ExamplePrices(basePrice), 10 * EXA) == 10 * basePrice
    ensures QuoteUsd(ExampleStats(), ExamplePrices(basePrice), 10 * EXA) == 20 * EXA
  {
    EighteenDecimalsIsExa();
    assert IntValue(18) == 18;
    assert LegTokens(1000 * EXA, 10 * EXA, 1000 * EXA) == 10 * EXA;
    assert LegTokens(2000 * EXA, 10 * EXA, 1000 * EXA) == 20 * EXA;
    assert Quot(10 * EXA * basePrice, EXA) == 10 * basePrice;
    assert Quot(20 * EXA * EXA, EXA) == 20 * EXA;
  }

  /** Legs of $20 and $20 with a 1% bonus and ICX at $0.25 earn 161.6 ICX. */
  lemma ExactlyPricedReward()
    ensures QuoteDefined(ExampleStats(), ExamplePrices(2 * EXA), 10 * EXA)
    ensures CalculateIcxReward(ExampleStats(), ExamplePrices(2 * EXA), 10 * EXA, DEFAULT_SWAP_REWARDS, DEFAULT_LP_SLIPPAGE)
      == Success(161_600_000_000_000_000_000)
  {
    ExampleLegs(2 * EXA);
    assert LegsAverage(ExampleStats(), ExamplePrices(2 * EXA), 10 * EXA) == 20 * EXA;
    assert SlippagePoints(20 * EXA, 20 * EXA) == 0;
    assert WithBonus(40 * EXA, 100) == 40_400_000_000_000_000_000;
    assert ToIcx(40_400_000_000_000_000_000, 250_000_000_000_000_000) == 161_600_000_000_000_000_000;
  }

  /** sICX quoted at $2.01: legs of $20.10 and $20 are 49 points apart, pass, and earn 162.004 ICX. */
  lemma SlightlyMispricedReward()
    ensures QuoteDefined(ExampleStats(), ExamplePrices(2_010_000_000_000_000_000), 10 * EXA)
    ensures SlippagePoints(BaseUsd(ExampleStats(), ExamplePrices(2_010_000_000_000_000_000), 10 * EXA),
                           QuoteUsd(ExampleStats(), ExamplePrices(2_010_000_000_000_000_000), 10 * EXA)) == 49
    ensures CalculateIcxReward(ExampleStats(), ExamplePrices(2_010_000_000_000_000_000), 10 * EXA,
                               DEFAULT_SWAP_REWARDS, DEFAULT_LP_SLIPPAGE)
      == Success(162_004_000_000_000_000_000)
  {
    var b := 20_100_000_000_000_000_000;
    ExampleLegs(2_010_000_000_000_000_000);
    assert SlippagePoints(b, 20 * EXA) == 49 by {
      assert Quot(b + 20 * EXA, 2) == 20_050_000_000_000_000_000;
      assert Abs(b - 20 * EXA) == 100_000_000_000_000_000;
      assert Quot(100_000_000_000_000_000 * POINTS, 20_050_000_000_000_000_000) == 49;
    }
    assert ToIcx(WithBonus(b + 20 * EXA, 100), 250_000_000_000_000_000) == 162_004_000_000_000_000_000 by {
      assert WithBonus(b + 20 * EXA, 100) == 40_501_000_000_000_000_000;
    }
  }

  /** sICX quoted at $1.93: legs of $19.30 and $20 are 356 points apart and are refused. */
  lemma OverSlippageRefused()
    ensures QuoteDefined(ExampleStats(), ExamplePrices(1_930_000_000_000_000_000), 10 * EXA)
    ensures SlippagePoints(BaseUsd(ExampleStats(), ExamplePrices(1_930_000_000_000_000_000), 10 * EXA),
                           QuoteUsd(ExampleStats(), ExamplePrices(1_930_000_000_000_000_000), 10 * EXA)) == 356
    ensures CalculateIcxReward(ExampleStats(), ExamplePrices(1_930_000_000_000_000_000), 10 * EXA,
                               DEFAULT_SWAP_REWARDS, DEFAULT_LP_SLIPPAGE)
      == Failure(LpOverSlippageLimit)
  {
    var b := 19_300_000_000_000_000_000;
    ExampleLegs(1_930_000_000_000_000_000);
    assert SlippagePoints(b, 20 * EXA) == 356 by {
      assert Quot(b + 20 * EXA, 2) == 19_650_000_000_000_000_000;
      assert Abs(b - 20 * EXA) == 700_000_000_000_000_000;
      assert Quot(700_000_000_000_000_000 * POINTS, 19_650_000_000_000_000_000) == 356;
    }
  }

  // ---------------------------------------------------------------- order throttle

  /**
   * The budget available at `height`: the remaining budget plus limit / orderPeriod per
   * block since the last purchase, capped at the limit.
   */
  function Replenished(order: LiquidityOrder, height: int, orderPeriod: int): (r: int)
    requires orderPeriod != 0
    ensures r <= order.limit
    ensures r <= order.remaining + (height - order.lastPurchaseBlock) * Quot(order.limit, orderPeriod)
    ensures r == order.limit || r == order.remaining + (height - order.lastPurchaseBlock) * Quot(order.limit, orderPeriod)
  {
    Min(order.limit, (height - order.lastPurchaseBlock) * Quot(order.limit, orderPeriod) + order.remaining)
  }

  /**
   * `validateOrder`: a payout is taken out of the replenished budget only if it fits
   * entirely; the purchase block becomes `height`. A zero order period divides by zero.
   */
  function Validated(order: LiquidityOrder, payout: int, height: int, orderPeriod: int): (r: Result<LiquidityOrder, Error>)
    ensures orderPeriod == 0 ==> r == Failure(DivisionByZero)
    ensures orderPeriod != 0 ==> (r.Success? <==> payout <= Replenished(order, height, orderPeriod))
    ensures orderPeriod != 0 && r.Failure? ==> r.error == OrderLimitReached
    ensures r.Success? ==>
      r.value.limit == order.limit && r.value.lastPurchaseBlock == height
      && r.value.remaining == Replenished(order, height, orderPeriod) - payout
    ensures r.Success? ==> 0 <= r.value.remaining <= order.limit - payout
  {
    if orderPeriod == 0 then Failure(DivisionByZero)
    else
      var available := Replenished(order, height, orderPeriod);
      if available < payout then Failure(OrderLimitReached)
      else Success(LiquidityOrder(order.limit, height, available - payout))
  }

  /** A purchase request at some block height. */
  datatype Request = Request(height: int, payout: int)

  /** The order after serving `rs` in turn, or None once one of them is refused. */
  function Serve(order: LiquidityOrder, rs: seq<Request>, orderPeriod: int): Option<LiquidityOrder>
    decreases |rs|
  {
    if rs == [] then Some(order)
    else match Validated(order, rs[0].payout, rs[0].height, orderPeriod)
      case Failure(_) => None
      case Success(next) => Serve(next, rs[1..], orderPeriod)
  }

  function TotalPayout(rs: seq<Request>): int {
    if rs == [] then 0 else rs[0].payout + TotalPayout(rs[1..])
  }

  /**
   * The throttle's guarantee: whatever the requests and their heights, the payouts served
   * plus the budget left never exceed the starting budget plus the linear replenishment
   * over the blocks between the first and the last purchase block.
   */
  lemma {:induction false} ThrottleBound(order: LiquidityOrder, rs: seq<Request>, orderPeriod: int)
    requires orderPeriod != 0 && Serve(order, rs, orderPeriod).Some?
    decreases |rs|
    ensures var last := Serve(order, rs, orderPeriod).value;
      last.limit == order.limit
      && TotalPayout(rs) + last.remaining
         <= order.remaining + (last.lastPurchaseBlock - order.lastPurchaseBlock) * Quot(order.limit, orderPeriod)
      && (rs != [] ==> last.remaining >= 0)
  {
    if rs != [] {
      var rate := Quot(order.limit, orderPeriod);
      var next := Validated(order, rs[0].payout, rs[0].height, orderPeriod).value;
      ThrottleBound(next, rs[1..], orderPeriod);
      var last := Serve(next, rs[1..], orderPeriod).value;
      var first := rs[0].height - order.lastPurchaseBlock;
      var rest := last.lastPurchaseBlock - next.lastPurchaseBlock;
      assert next.remaining + rs[0].payout <= order.remaining + first * rate;
      assert TotalPayout(rs[1..]) + last.remaining <= next.remaining + rest * rate;
      AddScaled(first, rest, rate);
    }
  }

  lemma AddScaled(a: int, b: int, c: int)
    ensures a * c + b * c == (a + b) * c
  {
  }

  /** A freshly configured order's first purchase, at or after the configuring block, succeeds iff it fits the limit. */
  lemma FreshOrderFirstPurchase(limit: int, configured: int, height: int, payout: int, orderPeriod: int)
    requires limit >= 0 && orderPeriod > 0 && height >= configured
    ensures Validated(LiquidityOrder(limit, configured, limit), payout, height, orderPeriod).Success? <==> payout <= limit
  {
    var rate := Quot(limit, orderPeriod);
    assert rate >= 0;
    assert (height - configured) * rate >= 0;
  }

  /**
   * Two purchases of `payout` against a freshly configured order, the second `gap` blocks
   * after the first: the first is taken from a full budget, the second from what is left
   * plus `gap` blocks of replenishment (while that stays below the limit).
   */
  lemma TwoPurchases(limit: int, configured: int, first: int, gap: int, payout: int, orderPeriod: int)
    requires orderPeriod > 0 && limit >= 0 && 0 <= payout && first >= configured && gap >= 0
    requires gap * Quot(limit, orderPeriod) <= payout
    requires payout <= limit - payout + gap * Quot(limit, orderPeriod)
    ensures Serve(LiquidityOrder(limit, configured, limit), [Request(first, payout), Request(first + gap, payout)], orderPeriod)
      == Some(LiquidityOrder(limit, first + gap, limit - payout + gap * Quot(limit, orderPeriod) - payout))
  {
    var rate := Quot(limit, orderPeriod);
    var rs := [Request(first, payout), Request(first + gap, payout)];
    assert (first - configured) * rate >= 0;
    var afterFirst := LiquidityOrder(limit, first, limit - payout);
    assert Validated(LiquidityOrder(limit, configured, limit), payout, first, orderPeriod) == Success(afterFirst);
    assert rs[1..] == [Request(first + gap, payout)];
    var afterSecond := LiquidityOrder(limit, first + gap, limit - payout + gap * rate - payout);
    assert Validated(afterFirst, payout, first + gap, orderPeriod) == Success(afterSecond);
    assert rs[1..][1..] == [];
    assert Serve(afterFirst, rs[1..], orderPeriod) == Serve(afterSecond, [], orderPeriod);
  }

  /**
   * When orderPeriod divides the limit, an order with a non-negative budget is full
   * again once orderPeriod blocks have passed since its last purchase.
   */
  lemma RefillAfterPeriod(order: LiquidityOrder, height: int, orderPeriod: int)
    requires orderPeriod > 0 && order.limit >= 0 && order.limit % orderPeriod == 0 && order.remaining >= 0
    requires height - order.lastPurchaseBlock >= orderPeriod
    ensures Replenished(order, height, orderPeriod) == order.limit
  {
    var rate := Quot(order.limit, orderPeriod);
    assert rate == order.limit / orderPeriod;
    assert rate * orderPeriod == order.limit;
    assert (height - order.lastPurchaseBlock) * rate >= orderPeriod * rate;
  }

  // ---------------------------------------------------------------- inbound transfers

  /** The `method` tag selects the command; anything but "deposit" and "swap" is unknown. */
  function ParseCommand(tag: string): (c: Command)
    ensures c == Deposit <==> tag == "deposit"
    ensures c == Swap <==> tag == "swap"
    ensures c == Unknown(tag) <==> tag != "deposit" && tag != "swap"
  {
    if tag == "deposit" then Deposit else if tag == "swap" then Swap else Unknown(tag)
  }

  /**
   * `swapLPTokens` on the stored orders: refuse an unknown pool, then quote the reward
   * (which may be refused for slippage), then take it out of the order's budget (which
   * may be refused for the limit).
   */
  function SwapOutcome(orders: map<int, LiquidityOrder>, from: Address, id: int, value: int, height: int,
                       orderPeriod: int, stats: PoolStats, prices: Prices, swapReward: int, lpSlippage: int)
    : (r: Result<Fill, Error>)
    ensures id !in orders ==> r == Failure(NoOrderExists)
    ensures r.Success? ==>
      id in orders
      && Success(r.value.purchase.payout) == CalculateIcxReward(stats, prices, value, swapReward, lpSlippage)
      && Success(r.value.order) == Validated(orders[id], r.value.purchase.payout, height, orderPeriod)
      && r.value.purchase == Purchase(id, value, from, r.value.purchase.payout)
    ensures id in orders && CalculateIcxReward(stats, prices, value, swapReward, lpSlippage).Failure? ==>
      r == Failure(CalculateIcxReward(stats, prices, value, swapReward, lpSlippage).error)
    ensures r.Failure? && id in orders && CalculateIcxReward(stats, prices, value, swapReward, lpSlippage).Success? ==>
      Failure(r.error) == Validated(orders[id], CalculateIcxReward(stats, prices, value, swapReward, lpSlippage).value, height, orderPeriod)
  {
    if id !in orders then Failure(NoOrderExists)
    else match CalculateIcxReward(stats, prices, value, swapReward, lpSlippage)
      case Failure(e) => Failure(e)
      case Success(reward) =>
        match Validated(orders[id], reward, height, orderPeriod)
        case Failure(e) => Failure(e)
        case Success(order) => Success(Fill(Purchase(id, value, from, reward), order))
  }

  // ---------------------------------------------------------------- the contract

  class NetworkOwnedLiquidity {
    var orders: map<int, LiquidityOrder>
    const ordersList: ArrayDB<int>
    var investedEmissions: int
    var orderPeriod: int
    var swapReward: int
    var lpSlippage: int

    /** The index list holds each configured pool id exactly once. */
    ghost predicate Valid()
      reads this, ordersList
    {
      && (forall pid :: pid in orders <==> pid in ordersList.elems)
      && Distinct(ordersList.elems)
    }

    constructor (orderPeriod: int)
      ensures Valid() && fresh(ordersList)
      ensures orders == map[] && ordersList.elems == [] && investedEmissions == 0
      ensures this.orderPeriod == orderPeriod
      ensures swapReward == DEFAULT_SWAP_REWARDS && lpSlippage == DEFAULT_LP_SLIPPAGE
    {
      orders := map[];
      ordersList := new ArrayDB<int>();
      investedEmissions := 0;
      this.orderPeriod := orderPeriod;
      swapReward := DEFAULT_SWAP_REWARDS;
      lpSlippage := DEFAULT_LP_SLIPPAGE;
    }

    /** `getOrders`: each listed pool's order with its pid, in list order. */
    method GetOrders() returns (out: array<PidOrder>)
      requires Valid()
      ensures fresh(out) && out.Length == |ordersList.elems|
      ensures forall i :: 0 <= i < out.Length ==>
        out[i].pid == ordersList.elems[i] && out[i].order == orders[ordersList.elems[i]]
    {
      var numberOfOrders := |ordersList.elems|;
      out := new PidOrder[numberOfOrders];
      for i := 0 to numberOfOrders
        invariant forall j :: 0 <= j < i ==> out[j].pid == ordersList.elems[j] && out[j].order == orders[ordersList.elems[j]]
      {
        var pid := ordersList.elems[i];
        out[i] := PidOrder(pid, orders[pid]);
      }
    }

    method SetOrderPeriod(period: int)
      requires Valid()
      modifies this`orderPeriod
      ensures Valid() && orderPeriod == period
    {
      orderPeriod := period;
    }

    method SetSwapReward(points: int)
      modifies this`swapReward
      ensures swapReward == points
    {
      swapReward := points;
    }

    method SetLPSlippage(points: int)
      modifies this`lpSlippage
      ensures lpSlippage == points
    {
      lpSlippage := points;
    }

    /**
     * `configureOrder` as the tests expect it: store a full order (budget = limit,
     * purchase block = the current height), and list the pid if it is not listed yet.
     */
    method ConfigureOrder(pid: int, limit: int, height: int)
      requires Valid()
      modifies this`orders, ordersList
      ensures Valid()
      ensures orders == old(orders)[pid := LiquidityOrder(limit, height, limit)]
      ensures ordersList.elems == if pid in old(ordersList.elems) then old(ordersList.elems) else old(ordersList.elems) + [pid]
    {
      orders := orders[pid := LiquidityOrder(limit, height, limit)];
      var listed := ArrayDbContains(ordersList, pid);
      if !listed {
        ordersList.Add(pid);
      }
    }

    /** `setAvailableAmount`: overwrite an order's remaining budget; an absent order is a null dereference. */
    method SetAvailableAmount(pid: int, amount: int) returns (r: Outcome<Error>)
      requires Valid()
      modifies this`orders
      ensures Valid()
      ensures pid !in old(orders) ==> r == Fail(NullPointer) && orders == old(orders)
      ensures pid in old(orders) ==> r == Pass && orders == old(orders)[pid := old(orders)[pid].(remaining := amount)]
    {
      if pid !in orders {
        return Fail(NullPointer);
      }
      var order := orders[pid];
      order := order.(remaining := amount);
      orders := orders[pid := order];
      return Pass;
    }

    /** `removeOrder`: drop the pid from the index list (swap with the last) and delete its order. */
    method RemoveOrder(pid: int)
      requires Valid()
      modifies this`orders, ordersList
      ensures Valid()
      ensures ordersList.elems == SwapRemove(old(ordersList.elems), pid)
      ensures orders == old(orders) - {pid}
      ensures forall p :: p in ordersList.elems <==> p in old(ordersList.elems) && p != pid
    {
      SwapRemoveDistinct(ordersList.elems, pid);
      var _ := RemoveFromArraydb(ordersList, pid);
      orders := orders - {pid};
    }

    /** `validateOrder`, step by step: replenish, refuse a payout that does not fit, deduct it. */
    method ValidateOrder(order: LiquidityOrder, payoutAmount: int, height: int) returns (r: Result<LiquidityOrder, Error>)
      ensures r == Validated(order, payoutAmount, height, orderPeriod)
    {
      var blockDiff := height - order.lastPurchaseBlock;
      if orderPeriod == 0 {
        return Failure(DivisionByZero);
      }
      var rate := Quot(order.limit, orderPeriod);
      var addedAmount := blockDiff * rate;
      var updated := order.(remaining := Min(order.limit, addedAmount + order.remaining));
      if updated.remaining < payoutAmount {
        return Failure(OrderLimitReached);
      }
      updated := updated.(remaining := updated.remaining - payoutAmount);
      updated := updated.(lastPurchaseBlock := height);
      return Success(updated);
    }

    /**
     * `swapLPTokens`: on success the order is stored back, the invested emissions grow
     * by the reward and the reward is owed to `from`; a refusal reverts and changes nothing.
     */
    method SwapLPTokens(from: Address, id: int, value: int, height: int, stats: PoolStats, prices: Prices)
      returns (r: Result<Purchase, Error>)
      requires Valid()
      modifies this`orders, this`investedEmissions
      ensures Valid()
      ensures var s := SwapOutcome(old(orders), from, id, value, height, orderPeriod, stats, prices, swapReward, lpSlippage);
        && (s.Success? ==> r == Success(s.value.purchase) && orders == old(orders)[id := s.value.order]
                           && investedEmissions == old(investedEmissions) + s.value.purchase.payout)
        && (s.Failure? ==> r == Failure(s.error) && orders == old(orders) && investedEmissions == old(investedEmissions))
    {
      if id !in orders {
        return Failure(NoOrderExists);
      }
      var order := orders[id];
      var quote := CalculateIcxReward(stats, prices, value, swapReward, lpSlippage);
      if quote.Failure? {
        return Failure(quote.error);
      }
      var reward := quote.value;
      var validated := ValidateOrder(order, reward, height);
      if validated.Failure? {
        return Failure(validated.error);
      }
      orders := orders[id := validated.value];
      investedEmissions := investedEmissions + reward;
      return Success(Purchase(id, value, from, reward));
    }

    /**
     * `onIRC31Received` with the payload's `method` field already parsed into `tag`:
     * refuse a zero value, then empty data; "deposit" accepts the tokens, "swap" sells
     * them to the contract, any other method reverts.
     */
    method OnIRC31Received(from: Address, id: int, value: int, data: string, tag: string, height: int,
                           stats: PoolStats, prices: Prices)
      returns (r: Result<Receipt, Error>)
      requires Valid()
      modifies this`orders, this`investedEmissions
      ensures Valid()
      ensures value <= 0 ==> r == Failure(TokenFallbackZeroValue)
      ensures value > 0 && data == "" ==> r == Failure(TokenFallbackDataEmpty)
      ensures value > 0 && data != "" && ParseCommand(tag) == Deposit ==> r == Success(Deposited)
      ensures value > 0 && data != "" && ParseCommand(tag).Unknown? ==> r == Failure(Irc31MethodNotFound)
      ensures value > 0 && data != "" && ParseCommand(tag) == Swap ==>
        var s := SwapOutcome(old(orders), from, id, value, height, orderPeriod, stats, prices, swapReward, lpSlippage);
        && (s.Success? ==> r == Success(Purchased(s.value.purchase)) && orders == old(orders)[id := s.value.order]
                           && investedEmissions == old(investedEmissions) + s.value.purchase.payout)
        && (s.Failure? ==> r == Failure(s.error))
      ensures !(r.Success? && r.value.Purchased?) ==> orders == old(orders) && investedEmissions == old(investedEmissions)
    {
      if value <= 0 {
        return Failure(TokenFallbackZeroValue);
      }
      if data == "" {
        return Failure(TokenFallbackDataEmpty);
      }
      match ParseCommand(tag)
      case Deposit =>
        return Success(Deposited);
      case Swap =>
        var swapped := SwapLPTokens(from, id, value, height, stats, prices);
        if swapped.Failure? {
          return Failure(swapped.error);
        }
        return Success(Purchased(swapped.value));
      case Unknown(_) =>
        return Failure(Irc31MethodNotFound);
    }
  }

  // ---------------------------------------------------------------- configureOrder as written

  /** An order record with Java's nullable fields, as `configureOrder` actually stores it. */
  datatype StoredOrder = StoredOrder(limit: Option<int>, lastPurchaseBlock: Option<int>, remaining: Option<int>)

  /** The source's `configureOrder` on one record: only `limit` is set, on a new record the other fields stay null. */
  function ConfigureOrderAsWritten(existing: Option<StoredOrder>, limit: int): (o: StoredOrder)
    ensures o.limit == Some(limit)
    ensures existing.None? ==> o.lastPurchaseBlock.None? && o.remaining.None?
    ensures existing.Some? ==> o.lastPurchaseBlock == existing.value.lastPurchaseBlock && o.remaining == existing.value.remaining
  {
    var order := match existing case Some(o) => o case None => StoredOrder(None, None, None);
    order.(limit := Some(limit))
  }

  /**
   * `validateOrder` on a nullable record, in the source's order of evaluation: the block
   * difference dereferences `lastPurchaseBlock`, the rate `limit` and divides by the
   * period, the replenishment dereferences `remaining`.
   */
  function ValidateOrderAsWritten(order: StoredOrder, payout: int, height: int, orderPeriod: int): (r: Result<LiquidityOrder, Error>)
    ensures order.lastPurchaseBlock.None? || order.limit.None? ==> r == Failure(NullPointer)
    ensures order.lastPurchaseBlock.Some? && order.limit.Some? && order.remaining.Some? ==>
      r == Validated(LiquidityOrder(order.limit.value, order.lastPurchaseBlock.value, order.remaining.value), payout, height, orderPeriod)
  {
    if order.lastPurchaseBlock.None? || order.limit.None? then Failure(NullPointer)
    else if orderPeriod == 0 then Failure(DivisionByZero)
    else if order.remaining.None? then Failure(NullPointer)
    else Validated(LiquidityOrder(order.limit.value, order.lastPurchaseBlock.value, order.remaining.value), payout, height, orderPeriod)
  }

  /** As written, the first swap against a newly configured pool always reverts. */
  lemma FreshOrderAsWrittenCannotSwap(limit: int, payout: int, height: int, orderPeriod: int)
    ensures ValidateOrderAsWritten(ConfigureOrderAsWritten(None, limit), payout, height, orderPeriod) == Failure(NullPointer)
    ensures ConfigureOrderAsWritten(None, limit).remaining != Some(limit)
  {
  }
}
