# ICON emissions buckets, modelled in Dafny

This project models the three contracts of the ICON emissions system that hold real logic, plus two helpers from its score library:

- **Buckets** splits the contract's native balance among a configured list of buckets. Each bucket has an address and a share, and the shares sum to exactly 10^18 (EXA).
- **ProofOfLiquidity** works the same way, with two differences. It first stakes the balance for sICX. It then sends the sum of the sources' portions of the sICX amount in one transfer to the rewards contract; the rounding dust stays behind. The transfer's payload records each liquidity source's portion.
- **NetworkOwnedLiquidity** buys LP tokens of configured pools for ICX:
  - a reward quote values the two legs of a deposit in USD;
  - it refuses a deposit whose legs are too far apart (slippage);
  - it adds a bonus and converts the value to ICX;
  - a per-pool order throttles payouts with a budget that is replenished linearly with block height.
- **DBUtils** clears an ArrayDB, searches it, and removes an item by swapping it with the last element.
- **Math.pow** is loop exponentiation.

Files:

- `results.dfy`: Result, Outcome and Option.
- `fixed_point.dfy`: Java `BigInteger` arithmetic.
  - `Quot` is `divide`, which truncates toward zero.
  - `IntValue` is `intValue`, which keeps the low 32 bits.
  - The constants are EXA = 10^18 and POINTS = 10000.
- `math_util.dfy`: `Math.pow` and the decimal divisors.
- `storage.dfy`: ArrayDB, as a class over a sequence.
- `db_utils.dfy`: DBUtils.
- `shares.dfy`: the share check and proportional split that Buckets and ProofOfLiquidity share.
- `buckets.dfy`, `proof_of_liquidity.dfy`, `network_owned_liquidity.dfy`: one file per contract.

How the model is built:

- Each contract is a class whose fields are its storage.
- A `Context.require` failure (a revert) becomes a `Failure`/`Fail` result.
- A revert undoes the whole transaction, so a refused call leaves the state as it was on entry.
- The Java runtime exceptions the code can hit are reverts too:
  - an absent order is dereferenced (`NullPointer`);
  - a divisor is zero (`DivisionByZero`): a zero LP supply, a zero leg average, a zero ICX price or a zero order period.
- These reverts are modelled in the order the code evaluates them. None is a precondition.
- Values that come from elsewhere are parameters: the contract balance, the sICX balance after staking, the block height, the DEX's pool stats and the oracle's prices.

Where the tests and the source disagree about `configureOrder`, the model follows the tests and records the source's behaviour under "Findings".

## Model

| member | source | states |
|---|---|---|
| FixedPoint.Quot | network-owned-liquidity/src/main/java/icon/inflation/score/nol/NetworkOwnedLiquidity.java:208-209 | BigInteger division truncates toward zero: the magnitude is \|a\|/\|b\|, the sign is the product of the operands' signs, and it is floor division for non-negative operands |
| FixedPoint.IntValue | network-owned-liquidity/src/main/java/icon/inflation/score/nol/NetworkOwnedLiquidity.java:205-206 | `intValue` lies in the 32-bit range, agrees with its argument modulo 2^32, and is the identity on values already in range |
| FixedPoint.Abs | network-owned-liquidity/src/main/java/icon/inflation/score/nol/NetworkOwnedLiquidity.java:217 | the result is non-negative and is x or -x |
| FixedPoint.Min | network-owned-liquidity/src/main/java/icon/inflation/score/nol/NetworkOwnedLiquidity.java:279 | the result is at most both arguments and is one of them |
| MathUtil.Power | score-lib/src/main/java/icon/inflation/score/util/Math.java:6-12 | b^0 = 1 and b^(e+1) = b^e·b; a positive base gives a positive power |
| MathUtil.Pow | score-lib/src/main/java/icon/inflation/score/util/Math.java:6-12 | the loop yields Power(base, exponent) for exponent ≥ 0, and 1 for a negative exponent (the body never runs) |
| MathUtil.DecimalScale | network-owned-liquidity/src/main/java/icon/inflation/score/nol/NetworkOwnedLiquidity.java:205-206 | the decimal divisor pow(10, d) is always positive, so it never divides by zero; for d ≤ 0 it is 1 |
| MathUtil.EighteenDecimalsIsExa | score-lib/src/main/java/icon/inflation/score/util/Math.java:6-12 | pow(10, 18) is EXA, the divisor for an 18-decimal token |
| Storage.ArrayDB.Add | buckets/src/main/java/icon/inflation/score/buckets/Buckets.java:54 | appends one element |
| Storage.ArrayDB.RemoveLast | score-lib/src/main/java/icon/inflation/score/util/DBUtils.java:9 | returns the last element and drops it |
| Storage.ArrayDB.Set | score-lib/src/main/java/icon/inflation/score/util/DBUtils.java:31 | overwrites one slot |
| DBUtils.Clear | score-lib/src/main/java/icon/inflation/score/util/DBUtils.java:6-11 | removing the last element size times leaves the array empty |
| DBUtils.ArrayDbContains | score-lib/src/main/java/icon/inflation/score/util/DBUtils.java:13-21 | the scan returns true iff some element equals the item |
| DBUtils.RemoveFromArraydb | score-lib/src/main/java/icon/inflation/score/util/DBUtils.java:23-38 | returns true iff the item was present; the array becomes SwapRemove of its old contents, so an empty array or an absent item leaves it unchanged |
| DBUtils.IndexOf | score-lib/src/main/java/icon/inflation/score/util/DBUtils.java:29-30 | the scan stops at the first index holding the item |
| DBUtils.SwapRemove | score-lib/src/main/java/icon/inflation/score/util/DBUtils.java:28-33 | with the item present, the length drops by one, the first matching slot holds the former last element, and every other slot below the new size is unchanged; with the item absent, nothing changes |
| DBUtils.SwapRemoveMultiset | score-lib/src/main/java/icon/inflation/score/util/DBUtils.java:30-33 | exactly one occurrence leaves: the result is the input minus one copy of the item, as a multiset |
| DBUtils.SwapRemoveDistinct | score-lib/src/main/java/icon/inflation/score/util/DBUtils.java:30-33 | on a duplicate-free list, removal keeps the list duplicate-free and drops exactly the item |
| DBUtils.DistinctCountsOne | score-lib/src/main/java/icon/inflation/score/util/DBUtils.java:30-33 | in a duplicate-free list, an element occurs exactly once |
| Shares.Check | buckets/src/main/java/icon/inflation/score/buckets/Buckets.java:51-57 | a configuration is accepted iff every share is positive and the shares sum to 10^18; a non-positive share is reported in preference to a wrong sum |
| Shares.Portion | buckets/src/main/java/icon/inflation/score/buckets/Buckets.java:75 | an entry's portion is floor(share·balance / 10^18), which is Java's truncating quotient when the product is non-negative |
| Shares.Split | buckets/src/main/java/icon/inflation/score/buckets/Buckets.java:70-77 | one portion per entry, in list order |
| Shares.SplitSumBounds | buckets/src/main/java/icon/inflation/score/buckets/Buckets.java:72-75 | the portions sum to within one unit per entry of balance·Sum(shares)/10^18, and never above it |
| Shares.DustBound | buckets/src/main/java/icon/inflation/score/buckets/Buckets.java:72-75 | for an accepted configuration the total paid is at most the balance, and less than one unit per entry is left over |
| Shares.PortionsNonNegative | buckets/src/main/java/icon/inflation/score/buckets/Buckets.java:75 | positive shares of a non-negative balance give non-negative portions |
| Shares.ShareAtMostSum | buckets/src/main/java/icon/inflation/score/buckets/Buckets.java:53 | with positive shares, no single share exceeds the running sum |
| Shares.ValidSharesShape | buckets/src/main/java/icon/inflation/score/buckets/Buckets.java:48-57 | an accepted configuration is non-empty and no share exceeds 10^18, so an empty list is refused |
| Shares.OffByOneRejected | buckets/src/main/java/icon/inflation/score/buckets/Buckets.java:57 | positive shares summing to 10^18 - 1 are refused with a wrong sum |
| Shares.NinetySixFourExample | buckets/src/test/java/icon/inflation/score/buckets/BucketsTest.java:129-152 | the 90/6/4 % shares are accepted and split 100·10^18 into exactly 90, 6 and 4 times 10^18 |
| Buckets.ConfigureOutcome | buckets/src/main/java/icon/inflation/score/buckets/Buckets.java:51-57 | NEGATIVE_PERCENTAGE iff some share is ≤ 0; otherwise INVALID_SUM iff the sum is not 10^18; otherwise accepted |
| Buckets.Payouts | buckets/src/main/java/icon/inflation/score/buckets/Buckets.java:70-77 | bucket i, in list order, is sent floor(share_i·balance/10^18) at its own address |
| Buckets.PayoutsConserve | buckets/src/main/java/icon/inflation/score/buckets/Buckets.java:70-77 | for an accepted configuration the transfers total at most the balance, with less than one unit of dust per bucket |
| Buckets.Buckets.constructor | buckets/src/main/java/icon/inflation/score/buckets/Buckets.java:18-24 | no buckets and the latch down |
| Buckets.Buckets.GetBuckets | buckets/src/main/java/icon/inflation/score/buckets/Buckets.java:32-40 | a fresh array holding the stored buckets, in order |
| Buckets.Buckets.ConfigureBuckets | buckets/src/main/java/icon/inflation/score/buckets/Buckets.java:43-58 | the outcome is ConfigureOutcome(input); on success the stored list is exactly the input, in order, replacing the old one; a refusal leaves the old list in place |
| Buckets.Buckets.Distribute | buckets/src/main/java/icon/inflation/score/buckets/Buckets.java:61-80 | NO_REENTRY, then BUCKETS_NOT_CONFIGURED, then EMPTY_BALANCE; otherwise the transfers are Payouts(list, balance), their total is at most the balance with less than one unit of dust per bucket, and the latch is as it was on entry |
| Buckets.NinetySixFourPayouts | buckets/src/test/java/icon/inflation/score/buckets/BucketsTest.java:129-152 | the 90/6/4 % buckets are paid exactly 90, 6 and 4 times 10^18 out of 100·10^18 |
| ProofOfLiquidity.ConfigureOutcome | proof-of-liquidity/src/main/java/icon/inflation/score/pol/ProofOfLiquidity.java:98-104 | NEGATIVE_PERCENTAGE iff some share is ≤ 0; otherwise INVALID_SUM iff the sum is not 10^18; otherwise accepted |
| ProofOfLiquidity.Records | proof-of-liquidity/src/main/java/icon/inflation/score/pol/ProofOfLiquidity.java:123-135 | the payload has one (source, amount) record per distribution, in configuration order, carrying that source's portion of the sICX amount |
| ProofOfLiquidity.ProofOfLiquidity.constructor | proof-of-liquidity/src/main/java/icon/inflation/score/pol/ProofOfLiquidity.java:34-38 | stores the three addresses; no distributions and the latch down |
| ProofOfLiquidity.ProofOfLiquidity.GetDistributions | proof-of-liquidity/src/main/java/icon/inflation/score/pol/ProofOfLiquidity.java:82-90 | a fresh array holding the stored distributions, in order |
| ProofOfLiquidity.ProofOfLiquidity.ConfigureDistributions | proof-of-liquidity/src/main/java/icon/inflation/score/pol/ProofOfLiquidity.java:93-105 | the outcome is ConfigureOutcome(input); on success the stored list is exactly the input, in order; a refusal leaves the old list in place |
| ProofOfLiquidity.ProofOfLiquidity.Distribute | proof-of-liquidity/src/main/java/icon/inflation/score/pol/ProofOfLiquidity.java:108-139 | NO_REENTRY, then EMPTY_BALANCE, then NOT_CONFIGURED; otherwise the whole balance is staked on the staking contract and one transfer on the sICX contract goes to the rewards contract; its total is the sum of the per-source portions of the sICX amount, at most that amount with less than one unit of dust per source; the payload is Records(list, amount); the latch is as it was on entry |
| ProofOfLiquidity.ProofOfLiquidity.Fallback | proof-of-liquidity/src/main/java/icon/inflation/score/pol/ProofOfLiquidity.java:147-153 | receiving ICX attempts a distribution; a revert of `distribute` is swallowed (no dispatch) and a success dispatches exactly what Distribute would |
| NetworkOwnedLiquidity.LegTokens | network-owned-liquidity/src/main/java/icon/inflation/score/nol/NetworkOwnedLiquidity.java:208-209 | a leg's token amount is floor(reserve·amount / totalSupply) for non-negative inputs |
| NetworkOwnedLiquidity.LegUsd | network-owned-liquidity/src/main/java/icon/inflation/score/nol/NetworkOwnedLiquidity.java:205-213 | for non-negative inputs, a leg's USD value is floor(tokens·price / d), with tokens = LegTokens(...) and d = pow(10, intValue(decimals)): r·d ≤ tokens·price < r·d + d, and r ≥ 0 |
| NetworkOwnedLiquidity.SlippagePoints | network-owned-liquidity/src/main/java/icon/inflation/score/nol/NetworkOwnedLiquidity.java:215-219 | for non-negative legs with average avg = (b + q)/2, the result is floor(\|b - q\|·10000 / avg), stated as r·avg ≤ \|b - q\|·10000 < r·avg + avg, so it is the exact value the LP_OVER_SLIPPAGE_LIMIT guard compares; zero for equal legs, non-negative for non-negative legs |
| NetworkOwnedLiquidity.WithBonus | network-owned-liquidity/src/main/java/icon/inflation/score/nol/NetworkOwnedLiquidity.java:222-224 | floor(total·(10000 + swapReward)/10000); never below the total for a non-negative bonus |
| NetworkOwnedLiquidity.ToIcx | network-owned-liquidity/src/main/java/icon/inflation/score/nol/NetworkOwnedLiquidity.java:226-227 | the largest ICX amount whose USD value does not exceed the USD reward |
| NetworkOwnedLiquidity.CalculateIcxReward | network-owned-liquidity/src/main/java/icon/inflation/score/nol/NetworkOwnedLiquidity.java:188-230 | succeeds iff all divisors are non-zero and the slippage is within lpSlippage; LP_OVER_SLIPPAGE_LIMIT iff the LP supply and the legs' average are non-zero and the slippage exceeds lpSlippage; any other failure is a division by zero; on success the reward is ToIcx(WithBonus(b + q)) |
| NetworkOwnedLiquidity.EqualLegsPass | network-owned-liquidity/src/main/java/icon/inflation/score/nol/NetworkOwnedLiquidity.java:215-220 | a perfectly priced pool (equal legs) passes any non-negative tolerance |
| NetworkOwnedLiquidity.SlippageGuardBound | network-owned-liquidity/src/main/java/icon/inflation/score/nol/NetworkOwnedLiquidity.java:217-220 | legs that pass a tolerance of tol points differ by less than tol + 1 points of their average |
| NetworkOwnedLiquidity.ExampleLegs | network-owned-liquidity/src/test/java/icon/inflation/score/nol/NetworkOwnedLiquidityTest.java:139-148 | 1 % of the 1000 sICX / 2000 bnUSD pool is 10 sICX and 20 bnUSD: legs worth 10·price and $20 |
| NetworkOwnedLiquidity.ExactlyPricedReward | network-owned-liquidity/src/test/java/icon/inflation/score/nol/NetworkOwnedLiquidityTest.java:130-169 | with sICX at $2, a 1 % bonus and ICX at $0.25, the reward is exactly 161.6 ICX |
| NetworkOwnedLiquidity.SlightlyMispricedReward | network-owned-liquidity/src/test/java/icon/inflation/score/nol/NetworkOwnedLiquidityTest.java:214-250 | with sICX at $2.01 the legs are 49 points apart, pass the default 1 % tolerance, and earn exactly 162.004 ICX |
| NetworkOwnedLiquidity.OverSlippageRefused | network-owned-liquidity/src/test/java/icon/inflation/score/nol/NetworkOwnedLiquidityTest.java:274-314 | with sICX at $1.93 the legs are 356 points apart and are refused with LP_OVER_SLIPPAGE_LIMIT |
| NetworkOwnedLiquidity.Replenished | network-owned-liquidity/src/main/java/icon/inflation/score/nol/NetworkOwnedLiquidity.java:275-279 | the replenished budget is min(limit, remaining + blocks·floor(limit/orderPeriod)): at most each of the two, and equal to one of them |
| NetworkOwnedLiquidity.Validated | network-owned-liquidity/src/main/java/icon/inflation/score/nol/NetworkOwnedLiquidity.java:273-285 | a zero period divides by zero; otherwise success iff the payout fits the replenished budget (no partial fill), else ORDER_LIMIT_REACHED; on success the limit is kept, the purchase block becomes the height, remaining is replenished minus payout, and 0 ≤ remaining ≤ limit - payout |
| NetworkOwnedLiquidity.ThrottleBound | network-owned-liquidity/src/main/java/icon/inflation/score/nol/NetworkOwnedLiquidity.java:273-285 | over any run of accepted purchases, the payouts plus the budget left never exceed the starting budget plus floor(limit/orderPeriod) per block elapsed; the limit never changes |
| NetworkOwnedLiquidity.FreshOrderFirstPurchase | network-owned-liquidity/src/test/java/icon/inflation/score/nol/NetworkOwnedLiquidityTest.java:57-80 | the first purchase against a freshly configured order succeeds iff the payout fits the limit |
| NetworkOwnedLiquidity.TwoPurchases | network-owned-liquidity/src/test/java/icon/inflation/score/nol/NetworkOwnedLiquidityTest.java:173-188 | two equal purchases gap blocks apart leave limit - payout + gap·rate - payout when the refill stays below the limit |
| NetworkOwnedLiquidity.RefillAfterPeriod | network-owned-liquidity/src/main/java/icon/inflation/score/nol/NetworkOwnedLiquidity.java:275-279 | when the period divides the limit, a full period after the last purchase the budget is full again |
| NetworkOwnedLiquidity.ParseCommand | network-owned-liquidity/src/main/java/icon/inflation/score/nol/NetworkOwnedLiquidity.java:241-250 | "deposit" and "swap" select their commands; any other tag is unknown |
| NetworkOwnedLiquidity.SwapOutcome | network-owned-liquidity/src/main/java/icon/inflation/score/nol/NetworkOwnedLiquidity.java:261-271 | NO_ORDER_EXISTS without an order, then the quote's failure, then the validation's failure; on success the payout is the quoted reward, the new order is the validated one, and the purchase names pid, LP amount and sender |
| NetworkOwnedLiquidity.NetworkOwnedLiquidity.constructor | network-owned-liquidity/src/main/java/icon/inflation/score/nol/NetworkOwnedLiquidity.java:49-56 | no orders, no invested emissions, the given period, and a default swap reward and slippage of 100 points |
| NetworkOwnedLiquidity.NetworkOwnedLiquidity.GetOrders | network-owned-liquidity/src/main/java/icon/inflation/score/nol/NetworkOwnedLiquidity.java:67-79 | one entry per listed pid, in list order, holding that pid's stored order |
| NetworkOwnedLiquidity.NetworkOwnedLiquidity.SetOrderPeriod | network-owned-liquidity/src/main/java/icon/inflation/score/nol/NetworkOwnedLiquidity.java:86-90 | stores the period, unvalidated |
| NetworkOwnedLiquidity.NetworkOwnedLiquidity.SetSwapReward | network-owned-liquidity/src/main/java/icon/inflation/score/nol/NetworkOwnedLiquidity.java:119-124 | stores the swap reward |
| NetworkOwnedLiquidity.NetworkOwnedLiquidity.SetLPSlippage | network-owned-liquidity/src/main/java/icon/inflation/score/nol/NetworkOwnedLiquidity.java:131-136 | stores the slippage tolerance |
| NetworkOwnedLiquidity.NetworkOwnedLiquidity.ConfigureOrder | network-owned-liquidity/src/main/java/icon/inflation/score/nol/NetworkOwnedLiquidity.java:143-152 | stores a full order (remaining = limit, purchase block = now), replacing any old one; the pid joins the index list only if it is not yet there, so the list stays duplicate-free and in step with the table |
| NetworkOwnedLiquidity.NetworkOwnedLiquidity.SetAvailableAmount | network-owned-liquidity/src/main/java/icon/inflation/score/nol/NetworkOwnedLiquidity.java:154-160 | overwrites only the remaining budget of an existing order; a missing order is a null dereference and changes nothing |
| NetworkOwnedLiquidity.NetworkOwnedLiquidity.RemoveOrder | network-owned-liquidity/src/main/java/icon/inflation/score/nol/NetworkOwnedLiquidity.java:162-167 | the order is deleted and its pid swap-removed from the list; every other pid remains |
| NetworkOwnedLiquidity.NetworkOwnedLiquidity.ValidateOrder | network-owned-liquidity/src/main/java/icon/inflation/score/nol/NetworkOwnedLiquidity.java:273-285 | the step-by-step update equals Validated(order, payout, height, orderPeriod) |
| NetworkOwnedLiquidity.NetworkOwnedLiquidity.SwapLPTokens | network-owned-liquidity/src/main/java/icon/inflation/score/nol/NetworkOwnedLiquidity.java:261-271 | on success the validated order is stored and investedEmissions grows by exactly the reward paid to the sender; any failure leaves the orders and investedEmissions unchanged |
| NetworkOwnedLiquidity.NetworkOwnedLiquidity.OnIRC31Received | network-owned-liquidity/src/main/java/icon/inflation/score/nol/NetworkOwnedLiquidity.java:232-251 | TOKEN_FALLBACK_ZERO_VALUE for value ≤ 0, then TOKEN_FALLBACK_DATA_EMPTY for empty data; "deposit" accepts and changes nothing; "swap" behaves as SwapLPTokens; any other method reverts with IRC31_METHOD_NOT_FOUND |
| NetworkOwnedLiquidity.ConfigureOrderAsWritten | network-owned-liquidity/src/main/java/icon/inflation/score/nol/NetworkOwnedLiquidity.java:146-148 | as written, only the limit is set; a new record keeps a null purchase block and a null budget |
| NetworkOwnedLiquidity.ValidateOrderAsWritten | network-owned-liquidity/src/main/java/icon/inflation/score/nol/NetworkOwnedLiquidity.java:273-279 | on a record with a null purchase block or limit, validation throws a NullPointerException |
| NetworkOwnedLiquidity.FreshOrderAsWrittenCannotSwap | network-owned-liquidity/src/main/java/icon/inflation/score/nol/NetworkOwnedLiquidity.java:144-152 | as written, the first swap against a newly configured pool always reverts, and its budget is not the limit the tests expect |

## Left out

- Authorization is left out: `onlyOwner`, and the `only(balancedDex)` check of `onIRC31Received`. The model assumes the caller is authorized.
- `validatePoints` on the swap-reward and slippage setters is left out. Checks.java shown here does not define it, so its bounds are unknown and are not invented.
- Calls to other contracts are left out. Their results are parameters and their effects are returned values:
  - the DEX's `getPoolStats`, the tokens' `symbol`, the oracle's `getLastPriceInUSD`;
  - ICX `Context.transfer`, `stakeICX`, sICX `balanceOf` and `transfer`.
- A failure inside a called contract is not modelled. Neither is a callee re-entering the contract; only the `distributing` latch and its check are modelled.
- The address getters and setters are left out, as are `name()`, the empty `fallback` and `tokenFallback` handlers, and the event declaration. These are plain storage reads and writes or no-ops.
- `disburse`, `disburseICX` and `withdrawLiquidity` are left out. Each forwards a single external call.
- The Insurance and SavingsRate contracts are left out. Each is a single transfer or staking call.
- JSON is left out. The inbound payload's `method` field arrives already parsed as a tag. A payload that is not valid JSON, or has no `method` field, is not modelled. The sICX transfer payload is a sequence of (source, amount) records, not its JSON text.
- The `writeObject`/`readObject` encoders of Bucket, LiquidityDistribution and LiquidityOrder are left out; datatypes stand in for them.
- The interface-only members `swap`, `calculateBnUSDReward`, `SwapFailed` and `setBnUSD` are left out, as are the test mocks.
- `BLOCKS_IN_A_MONTH`, the default order period, is not part of this model. The constructor takes the period as a parameter.
- POINTS = 10000 follows the "Points(0-10000)" comment at NetworkOwnedLiquidity.java:41. Constants.java as shown does not declare `POINTS`, so `FixedPoint.POINTS` supplies it.
- The Errors classes shown do not define TOKEN_FALLBACK_ZERO_VALUE and NO_ORDER_EXISTS. They are modelled by name.
- MathUtil.Pow: `exponent` is unbounded here. The source's `int` loop counter would overflow and never terminate for exponent = Integer.MAX_VALUE.
- Buckets.Buckets.Distribute, ProofOfLiquidity.ProofOfLiquidity.Distribute and ProofOfLiquidity.ProofOfLiquidity.Fallback: `distributing` lives in a static field in both contracts (Buckets.java:22 and ProofOfLiquidity.java:32). The model keeps it as an ordinary field of each contract object.
- ProofOfLiquidity.ProofOfLiquidity.Fallback: a distribution that fails after the latch is raised would be caught without lowering the latch. A failing staking or transfer call is not modelled, so that case cannot arise here.
- A fixed-window reset of order budgets is not implemented by the code. Only the linear replenishment of `validateOrder` is modelled.

## Findings

| source | as written | input that shows it | evidently intended | confidence | as-written member | corrected member |
|---|---|---|---|---|---|---|
| network-owned-liquidity/src/main/java/icon/inflation/score/nol/NetworkOwnedLiquidity.java:146-148 | `configureOrder` sets only `limit`. A new order keeps a null `lastPurchaseBlock` and `remaining`, and `validateOrder` (line 275) dereferences them. | `configureOrder(1, 100000·10^18)` then a "swap" for pool 1: `validateOrder` throws a NullPointerException, so the swap always reverts. | Configuring sets `remaining := limit` and `lastPurchaseBlock :=` the current block, as NetworkOwnedLiquidityTest.java:74-75 and 101-102 expect. | not executed | NetworkOwnedLiquidity.FreshOrderAsWrittenCannotSwap | NetworkOwnedLiquidity.FreshOrderFirstPurchase |
