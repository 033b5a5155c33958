# Pricing engine of the exchange indexer, in Dafny

This project models the pricing core of a decentralized-exchange subgraph.
That core has two parts.

- `src/mappings/pricing.ts` has four parts:
  - the ETH/USD reference price, a reserve-weighted average over the BUSD, USDC and USDT stablecoin pairs, with a fixed fallback order;
  - the ETH price of a token, found by searching the ordered whitelist for the first pair that has the token as token1 and more than 2 ETH of liquidity;
  - the tracked volume of a trade;
  - the tracked liquidity of an amount.
  The last two both depend on whitelist membership. Tracked volume also depends on a set of untracked pairs and on a gate for pairs with fewer than five liquidity providers; tracked liquidity uses neither.
- `src/mappings/tokenDefinition.ts` has the static token-metadata table and its lookup by address.

Modules:

- `Wrappers` (`wrappers.dfy`): the `Option` type used for the pair factory's answer and for nullable results.
- `Pricing` (`pricing.dfy`): the four pricing functions and the constants they use:
  - `WethAddress` and the three stablecoin pair addresses;
  - `Whitelist`, in the source's order;
  - `MinimumUsdThresholdNewPairs` = 400000;
  - `MinimumLiquidityThresholdEth` = 2.
- `TokenDefinitions` (`token_definition.dfy`): the `TokenDefinition` class, the table it builds, and the lookup.

How the inputs are represented:

- `BigDecimal` values are exact `real`s. `BigInt` values are `int`s.
- Addresses are strings. Pricing compares them with `==`; the token lookup compares their lower-case hex strings.
- The entity store is a `map<string, Pair>` and a `map<string, Token>`. A missing key stands for a `load` that returns null.
- The bundle is a `Bundle` value passed in.
- The untracked-pair list is a `set<string>` parameter.
- `factoryContract.getPair` is a function parameter that returns `Option<string>`. `None` stands for the zero address.

`findEthPerToken` loops with an early return, so it is the method `FindEthPerToken`, with a `while` loop.
That method is proved equal to the recursive specification `EthPerToken`.
The lemmas about the search are stated about that specification.

The source's second branch inside the loop (`pricing.ts:78-81`) has exactly the same guard as the first branch.
It can therefore never be taken, and the method marks it with `assert false`.
That branch was evidently meant for the case where the token is `token0`. It is not repaired here.
So a pair in which the token is `token0` never gives the token a price.

`getTrackedVolumeUSD` and `getTrackedLiquidityUSD` are functions.
Their bodies follow the source's branch chain.
The contract of `TrackedVolumeUSD` states the gate with a separate definition, `WhitelistedReserveUSD`: the sum of both sides' USD reserves, or twice the single whitelisted side.

## Model

| member | source | states |
|---|---|---|
| `Pricing.EthPriceInUSD` | src/mappings/pricing.ts:11-39 | All three pairs present: the price times the total ETH reserve is the reserve-weighted sum of the stablecoin prices (USDT read from token0Price/reserve1). BUSD and USDC without USDT: the same over two pairs. USDC without BUSD: exactly the USDC pair's token1Price, whether or not USDT exists. No USDC pair: 0. |
| `Pricing.EthPriceWeightsSumToOne` | src/mappings/pricing.ts:19-22 | The three weights of the three-pair average sum to exactly 1. |
| `Pricing.EthPriceWithinStablecoinPrices` | src/mappings/pricing.ts:18-26 | Three pairs, non-negative reserves, positive total: the price lies between any lower and upper bound of the three stablecoin prices (a convex combination). |
| `Pricing.EthPriceWithinTwoStablecoinPrices` | src/mappings/pricing.ts:28-32 | BUSD and USDC only, non-negative reserves, positive total: the price lies between bounds of the two stablecoin prices. |
| `Pricing.FindEthPerToken` | src/mappings/pricing.ts:65-85 | The loop returns exactly the search specification `EthPerToken`: 1 for WETH; otherwise the price through the first qualifying whitelist entry; otherwise 0. It requires only the loads the scan performs. |
| `Pricing.BaseAssetIsOne` | src/mappings/pricing.ts:66-68 | WETH's price is exactly 1, whatever the store and the factory hold. |
| `Pricing.EthPerTokenIsFirstMatch` | src/mappings/pricing.ts:70-77 | Suppose whitelist entry i has an existing pair with the token as token1 and reserveETH strictly above 2, and no earlier entry does. Then the price is that pair's token0Price times token0's derivedETH. |
| `Pricing.EthPerTokenNoMatchIsZero` | src/mappings/pricing.ts:70-84 | Suppose every whitelisted pair is absent, has the token as token0, or has reserveETH of at most 2 (so exactly 2 does not count). Then a token other than WETH is priced at 0. |
| `Pricing.TrackedVolumeUSD` | src/mappings/pricing.ts:93-150 | The result is 0 for an untracked pair. The result is 0 when there are fewer than 5 LPs and the whitelisted USD reserve is strictly below 400000; exactly 400000 passes. Otherwise it is the average of both sides' USD values when both tokens are whitelisted, or the one whitelisted side's value. It is 0 when neither token is whitelisted. |
| `Pricing.VolumeBetweenSides` | src/mappings/pricing.ts:130-136 | When both tokens are whitelisted and the trade counts, tracked volume lies between the USD values of the two sides. |
| `Pricing.TrackedLiquidityUSD` | src/mappings/pricing.ts:158-185 | Both tokens whitelisted: the sum of the two sides' USD values. Only one whitelisted: twice that side's USD value. Neither: 0. No untracked-pair filter and no liquidity-provider gate. |
| `Pricing.LiquidityIsTwiceVolume` | src/mappings/pricing.ts:158-185 | On a tracked pair with at least 5 LPs, tracked liquidity is exactly 2 × tracked volume: sum against average, doubled side against single side, 0 against 0. |
| `TokenDefinitions.TokenDefinition.constructor` | src/mappings/tokenDefinition.ts:14-19 | The four arguments are stored unchanged in address, symbol, name and decimals. |
| `TokenDefinitions.TokenDefinition.GetStaticDefinitions` | src/mappings/tokenDefinition.ts:22-81 | Returns exactly six definitions, in push order: UNI (9 decimals), AAVE (18), LINK (18), MATIC (18), GRT (16), RS (18), with their addresses and names. |
| `TokenDefinitions.StaticAddressesDistinct` | src/mappings/tokenDefinition.ts:27-78 | The six table addresses are pairwise distinct, even after lower-casing. |
| `TokenDefinitions.TokenDefinition.FromAddress` | src/mappings/tokenDefinition.ts:84-98 | Compares hex strings (lower-case) of both sides. Null exactly when no table entry's hex string is the query's. A non-null result has the query's hex string and is the first table entry that does. |
| `TokenDefinitions.LookupLowerCaseUni` | src/mappings/tokenDefinition.ts:27-33 | The all-lower-case spelling of the mixed-case UNI address finds the UNI definition, because the lookup compares hex strings. |
| `TokenDefinitions.LookupRewardToken` | src/mappings/tokenDefinition.ts:72-78 | Looking up the RS address gives symbol "RS", name "Reward Token" and 18 decimals. |

## Left out

- Store loads (`Pair.load`, `Token.load`, `Bundle.load`) are map lookups. The three pair loads of `getEthPriceInUSD` are checked for null (pricing.ts:18, 28, 34), and `EthPriceInUSD` branches on whether each key is present. The loads at pricing.ts:73, 75, 100 and 164 are not checked, so the model requires those keys to be present. For `FindEthPerToken` this covers only the pairs and the token0 records that the scan actually loads.
- `Bundle.load('1')` in both tracked functions is replaced by a `Bundle` argument.
- `factoryContract.getPair` is a foreign contract call. It is a function parameter here.
- `UNTRACKED_PAIRS`, `ZERO_BD`, `ONE_BD` and `ADDRESS_ZERO` come from `./helpers`, which is not part of this model. They are a set parameter, the literals 0 and 1, and `None`.
- `BigDecimal` precision and rounding are host-defined. The model uses exact reals, so it does not capture any rounding of the divisions.
- The source divides by the total ETH reserve without checking it. The host aborts on division by zero, so `EthPriceInUSD` requires a nonzero total in the branches that divide.
- Address handling in the lookup: `Address.fromString` followed by `toHexString` is modelled as `HexString`, which lower-cases ASCII letters. The model does not check that a string is a well-formed 20-byte hex address, which `Address.fromString` would reject.
- Address handling in pricing: token ids are compared with `==`, as the source compares strings there (pricing.ts:66, and `WHITELIST.includes`). `WETH_ADDRESS` and the first whitelist entry are mixed case, while pair ids come from `toHexString` (pricing.ts:73) and are lower case. If token ids are also lower case, the WETH branch at pricing.ts:66 and the WETH whitelist entry never match. Which spelling the store uses for token ids is decided outside this core, so the model keeps the comparison as written.
- `Token.derivedETH` is nullable in the store and is read with a cast. The model takes it to be a value.
- `TokenDefinitions.TokenDefinition.GetStaticDefinitions`: the source starts from `new Array<TokenDefinition>(6)`. That array already holds six empty slots, so the six pushes land after them, and `fromAddress` would dereference an empty slot first. The model holds only the six pushed definitions and does not model the runtime's behaviour on that dereference.
- `TokenDefinition` fields are assignable in the source but are only ever set by the constructor. They are `const` here.
