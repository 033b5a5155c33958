/**
 * The pricing engine of the exchange indexer: the reference ETH/USD price taken
 * from three stablecoin pairs, the ETH price of an arbitrary token found through
 * the whitelist, and the parts of a trade or a liquidity amount that count as
 * tracked volume and tracked liquidity.
 *
 * Decimal quantities (BigDecimal) are exact reals; the entity store is a map per
 * entity type; the pair factory is a function parameter that answers None where
 * the factory contract answers the zero address.
 */
module Pricing {
  import opened Wrappers

  /** A token record: its address and its price in ETH. */
  datatype Token = Token(id: string, derivedETH: real)

  /** A pair record, with the fields the pricing engine reads. */
  datatype Pair = Pair(
    id: string,
    token0: string,
    token1: string,
    reserve0: real,
    reserve1: real,
    reserveETH: real,
    token0Price: real,
    token1Price: real,
    liquidityProviderCount: int)

  /** The singleton bundle (key "1") holding the current ETH/USD price. */
  datatype Bundle = Bundle(ethPrice: real)

  const WethAddress: string := "0x4446Fc4eb47f2f6586f9fAAb68B3498F86C07521"
  const UsdcWethPair: string := "0xc2cacd273630bc1dcb1c7ca398374896fa1d6322"
  const BusdWethPair: string := "0x26d94a2e3bd703847c3be3c30ead42b926b427c2"
  const UsdtWethPair: string := "0x1116b80fd0ff9a980dcfbfa3ed477bfa6bbd6a85"

  /** Tokens whose amounts count towards tracked volume and liquidity, in search order. */
  const Whitelist: seq<string> := [
    "0x4446Fc4eb47f2f6586f9fAAb68B3498F86C07521", // WETH
    "0x755d74d009f656ca1652cbdc135e3b6abfccc455", // KSF
    "0x0039f574ee5cc39bdd162e9a88e3eb1f111baf48", // USDT
    "0xe3f5a90f9cb311505cd691a46596599aa1a0ad7d", // BUSD
    "0x1bbd57143428452a4deb42519391a0a436481c8e", // RS
    "0x980a5afef3d17ad98635f6c5aebcbaeded3c3430", // USDC
    "0x639a647fbe20b6c8ac19e48e2de44ea792c62c5c", // BNB
    "0xf55af137a98607f7ed2efefa4cd2dfe70e4253b1", // ETH
    "0x218c3c3d49d0e7b37aff0d8bb079de36ae61a4c0", // BTC
    "0xc9baa8cfdde8e328787e29b4b078abf2dadc2055"  // DAI
  ]

  /** Minimum USD reserve for a pair with fewer than five liquidity providers. */
  const MinimumUsdThresholdNewPairs: real := 400000.0

  /** Minimum ETH reserve for a pair to be used for pricing a token. */
  const MinimumLiquidityThresholdEth: real := 2.0

  /** `WHITELIST.includes(id)` */
  predicate IsWhitelisted(id: string) {
    id in Whitelist
  }

  // ---------------------------------------------------------------------------
  // Reference ETH/USD price
  // ---------------------------------------------------------------------------

  /** ETH-side liquidity of the three stablecoin pairs (USDT is token0 of its pair). */
  function TotalLiquidity3(busd: Pair, usdc: Pair, usdt: Pair): real {
    busd.reserve0 + usdc.reserve0 + usdt.reserve1
  }

  function TotalLiquidity2(busd: Pair, usdc: Pair): real {
    busd.reserve0 + usdc.reserve0
  }

  /** The divisions performed by the price computation are by a nonzero total. */
  predicate EthPriceDefined(pairs: map<string, Pair>) {
    && (BusdWethPair in pairs && UsdcWethPair in pairs && UsdtWethPair in pairs ==>
          TotalLiquidity3(pairs[BusdWethPair], pairs[UsdcWethPair], pairs[UsdtWethPair]) != 0.0)
    && (BusdWethPair in pairs && UsdcWethPair in pairs && UsdtWethPair !in pairs ==>
          TotalLiquidity2(pairs[BusdWethPair], pairs[UsdcWethPair]) != 0.0)
  }

  /**
   * The ETH/USD price: a reserve-weighted average of the stablecoin prices of
   * whichever of BUSD, USDC and USDT pairs exist, falling back to the USDC pair
   * alone, and to zero when there is no USDC pair.
   */
  function EthPriceInUSD(pairs: map<string, Pair>): (price: real)
    requires EthPriceDefined(pairs)
    // all three pairs: the price times the total ETH liquidity is the reserve-weighted sum of prices
    ensures BusdWethPair in pairs && UsdcWethPair in pairs && UsdtWethPair in pairs ==>
      var busd, usdc, usdt := pairs[BusdWethPair], pairs[UsdcWethPair], pairs[UsdtWethPair];
      price * TotalLiquidity3(busd, usdc, usdt) ==
        busd.token1Price * busd.reserve0 + usdc.token1Price * usdc.reserve0 + usdt.token0Price * usdt.reserve1
    // BUSD and USDC but no USDT: the same over two pairs
    ensures BusdWethPair in pairs && UsdcWethPair in pairs && UsdtWethPair !in pairs ==>
      var busd, usdc := pairs[BusdWethPair], pairs[UsdcWethPair];
      price * TotalLiquidity2(busd, usdc) == busd.token1Price * busd.reserve0 + usdc.token1Price * usdc.reserve0
    // USDC without BUSD: the USDC price, whether or not USDT exists
    ensures BusdWethPair !in pairs && UsdcWethPair in pairs ==> price == pairs[UsdcWethPair].token1Price
    // no USDC pair: zero, whether or not the others exist
    ensures UsdcWethPair !in pairs ==> price == 0.0
  {
    if BusdWethPair in pairs && UsdcWethPair in pairs && UsdtWethPair in pairs then
      var busd, usdc, usdt := pairs[BusdWethPair], pairs[UsdcWethPair], pairs[UsdtWethPair];
      var total := TotalLiquidity3(busd, usdc, usdt);
      var busdWeight := busd.reserve0 / total;
      var usdcWeight := usdc.reserve0 / total;
      var usdtWeight := usdt.reserve1 / total;
      WeightedSum3Scales(busd.token1Price, busd.reserve0, usdc.token1Price, usdc.reserve0,
                         usdt.token0Price, usdt.reserve1);
      busd.token1Price * busdWeight + usdc.token1Price * usdcWeight + usdt.token0Price * usdtWeight
    else if BusdWethPair in pairs && UsdcWethPair in pairs then
      var busd, usdc := pairs[BusdWethPair], pairs[UsdcWethPair];
      var total := TotalLiquidity2(busd, usdc);
      var busdWeight := busd.reserve0 / total;
      var usdcWeight := usdc.reserve0 / total;
      WeightedSum3Scales(busd.token1Price, busd.reserve0, usdc.token1Price, usdc.reserve0, 0.0, 0.0);
      busd.token1Price * busdWeight + usdc.token1Price * usdcWeight
    else if UsdcWethPair in pairs then
      pairs[UsdcWethPair].token1Price
    else
      0.0
  }

  /** Multiplying the weighted sum back by the total recovers the reserve-weighted sum. */
  lemma WeightedSum3Scales(p1: real, r1: real, p2: real, r2: real, p3: real, r3: real)
    requires r1 + r2 + r3 != 0.0
    ensures var t := r1 + r2 + r3;
      (p1 * (r1 / t) + p2 * (r2 / t) + p3 * (r3 / t)) * t == p1 * r1 + p2 * r2 + p3 * r3
  {
  }

  /** The three weights of the three-pair average add up to exactly one. */
  lemma EthPriceWeightsSumToOne(busd: Pair, usdc: Pair, usdt: Pair)
    requires TotalLiquidity3(busd, usdc, usdt) != 0.0
    ensures var t := TotalLiquidity3(busd, usdc, usdt);
      busd.reserve0 / t + usdc.reserve0 / t + usdt.reserve1 / t == 1.0
  {
  }

  /** A non-negative weight keeps the order of two prices. */
  lemma ScaleMonotonic(a: real, b: real, w: real)
    requires a <= b && 0.0 <= w
    ensures a * w <= b * w
  {
  }

  lemma SumOfThreeMonotonic(a1: real, a2: real, a3: real, b1: real, b2: real, b3: real)
    requires a1 <= b1 && a2 <= b2 && a3 <= b3
    ensures a1 + a2 + a3 <= b1 + b2 + b3
  {
  }

  /**
   * A reserve-weighted average of prices that lie in [lo, hi], with non-negative
   * reserves and a positive total, lies in [lo, hi] too.
   */
  lemma {:induction false} WeightedAverageWithin(lo: real, hi: real,
      p1: real, r1: real, p2: real, r2: real, p3: real, r3: real)
    requires 0.0 <= r1 && 0.0 <= r2 && 0.0 <= r3 && r1 + r2 + r3 > 0.0
    requires lo <= p1 <= hi && lo <= p2 <= hi && lo <= p3 <= hi
    ensures var t := r1 + r2 + r3;
      lo <= p1 * (r1 / t) + p2 * (r2 / t) + p3 * (r3 / t) <= hi
  {
    var t := r1 + r2 + r3;
    var w1, w2, w3 := r1 / t, r2 / t, r3 / t;
    assert 0.0 <= w1 && 0.0 <= w2 && 0.0 <= w3;
    assert w1 + w2 + w3 == 1.0 by {
      assert w1 + w2 + w3 == (r1 + r2 + r3) / t;
    }
    var s := p1 * w1 + p2 * w2 + p3 * w3;
    assert lo <= s by {
      ScaleMonotonic(lo, p1, w1);
      ScaleMonotonic(lo, p2, w2);
      ScaleMonotonic(lo, p3, w3);
      SumOfThreeMonotonic(lo * w1, lo * w2, lo * w3, p1 * w1, p2 * w2, p3 * w3);
      assert lo * w1 + lo * w2 + lo * w3 == lo * (w1 + w2 + w3) == lo;
    }
    assert s <= hi by {
      ScaleMonotonic(p1, hi, w1);
      ScaleMonotonic(p2, hi, w2);
      ScaleMonotonic(p3, hi, w3);
      SumOfThreeMonotonic(p1 * w1, p2 * w2, p3 * w3, hi * w1, hi * w2, hi * w3);
      assert hi * w1 + hi * w2 + hi * w3 == hi * (w1 + w2 + w3) == hi;
    }
  }

  /**
   * With all three stablecoin pairs present, non-negative ETH reserves and a
   * positive total, the ETH price lies between the lowest and the highest of the
   * three stablecoin prices.
   */
  lemma {:induction false} EthPriceWithinStablecoinPrices(pairs: map<string, Pair>, lo: real, hi: real)
    requires BusdWethPair in pairs && UsdcWethPair in pairs && UsdtWethPair in pairs
    requires var busd, usdc, usdt := pairs[BusdWethPair], pairs[UsdcWethPair], pairs[UsdtWethPair];
      && 0.0 <= busd.reserve0 && 0.0 <= usdc.reserve0 && 0.0 <= usdt.reserve1
      && TotalLiquidity3(busd, usdc, usdt) > 0.0
      && lo <= busd.token1Price <= hi && lo <= usdc.token1Price <= hi && lo <= usdt.token0Price <= hi
    ensures EthPriceDefined(pairs)
    ensures lo <= EthPriceInUSD(pairs) <= hi
  {
    var busd, usdc, usdt := pairs[BusdWethPair], pairs[UsdcWethPair], pairs[UsdtWethPair];
    WeightedAverageWithin(lo, hi, busd.token1Price, busd.reserve0, usdc.token1Price, usdc.reserve0,
                          usdt.token0Price, usdt.reserve1);
  }

  /**
   * With BUSD and USDC present and USDT absent, the two-pair average lies
   * between the two stablecoin prices.
   */
  lemma {:induction false} EthPriceWithinTwoStablecoinPrices(pairs: map<string, Pair>, lo: real, hi: real)
    requires BusdWethPair in pairs && UsdcWethPair in pairs && UsdtWethPair !in pairs
    requires var busd, usdc := pairs[BusdWethPair], pairs[UsdcWethPair];
      && 0.0 <= busd.reserve0 && 0.0 <= usdc.reserve0 && TotalLiquidity2(busd, usdc) > 0.0
      && lo <= busd.token1Price <= hi && lo <= usdc.token1Price <= hi
    ensures EthPriceDefined(pairs)
    ensures lo <= EthPriceInUSD(pairs) <= hi
  {
    var busd, usdc := pairs[BusdWethPair], pairs[UsdcWethPair];
    WeightedAverageWithin(lo, hi, busd.token1Price, busd.reserve0, usdc.token1Price, usdc.reserve0,
                          lo, 0.0);
    assert lo * (0.0 / TotalLiquidity2(busd, usdc)) == 0.0;
  }

  // ---------------------------------------------------------------------------
  // ETH price of a token through the whitelist
  // ---------------------------------------------------------------------------

  /** The pair the factory reports between the token and the i-th whitelisted token. */
  function PairAddressAt(token: Token, getPair: (string, string) -> Option<string>, i: nat): Option<string>
    requires i < |Whitelist|
  {
    getPair(token.id, Whitelist[i])
  }

  /** The i-th whitelist entry yields a price: its pair exists, has the token as token1, and holds more than 2 ETH. */
  predicate Qualifies(token: Token, getPair: (string, string) -> Option<string>, pairs: map<string, Pair>, i: nat)
    requires i < |Whitelist|
  {
    match PairAddressAt(token, getPair, i)
    case None => false
    case Some(a) =>
      a in pairs && pairs[a].token1 == token.id && pairs[a].reserveETH > MinimumLiquidityThresholdEth
  }

  /** No whitelist entry before index i yields a price. */
  predicate NoneQualifiesBefore(token: Token, getPair: (string, string) -> Option<string>, pairs: map<string, Pair>, i: nat)
    requires i <= |Whitelist|
  {
    forall j :: 0 <= j < i ==> !Qualifies(token, getPair, pairs, j)
  }

  /** The loads done when the scan reaches index i succeed: the pair, and its token0 if the pair is used. */
  predicate LoadsAt(token: Token, getPair: (string, string) -> Option<string>,
                    pairs: map<string, Pair>, tokens: map<string, Token>, i: nat)
    requires i < |Whitelist|
  {
    match PairAddressAt(token, getPair, i)
    case None => true
    case Some(a) =>
      a in pairs && (Qualifies(token, getPair, pairs, i) ==> pairs[a].token0 in tokens)
  }

  /** Every record the search loads is in the store (the source never checks for a missing one). */
  predicate LoadsSucceed(token: Token, getPair: (string, string) -> Option<string>,
                         pairs: map<string, Pair>, tokens: map<string, Token>)
  {
    token.id != WethAddress ==>
      forall i :: 0 <= i < |Whitelist| && NoneQualifiesBefore(token, getPair, pairs, i) ==>
        LoadsAt(token, getPair, pairs, tokens, i)
  }

  /** The token's price through the qualifying pair at index i: token0 per token times ETH per token0. */
  function PriceVia(token: Token, getPair: (string, string) -> Option<string>,
                    pairs: map<string, Pair>, tokens: map<string, Token>, i: nat): real
    requires i < |Whitelist|
    requires Qualifies(token, getPair, pairs, i) && LoadsAt(token, getPair, pairs, tokens, i)
  {
    var pair := pairs[PairAddressAt(token, getPair, i).value];
    pair.token0Price * tokens[pair.token0].derivedETH
  }

  /** The search from index i on, having found nothing before i. */
  function EthPerTokenFrom(token: Token, getPair: (string, string) -> Option<string>,
                           pairs: map<string, Pair>, tokens: map<string, Token>, i: nat): real
    requires token.id != WethAddress && LoadsSucceed(token, getPair, pairs, tokens)
    requires i <= |Whitelist| && NoneQualifiesBefore(token, getPair, pairs, i)
    decreases |Whitelist| - i
  {
    if i == |Whitelist| then 0.0
    else if Qualifies(token, getPair, pairs, i) then PriceVia(token, getPair, pairs, tokens, i)
    else EthPerTokenFrom(token, getPair, pairs, tokens, i + 1)
  }

  /** The token's price in ETH as the search defines it. */
  function EthPerToken(token: Token, getPair: (string, string) -> Option<string>,
                       pairs: map<string, Pair>, tokens: map<string, Token>): real
    requires LoadsSucceed(token, getPair, pairs, tokens)
  {
    if token.id == WethAddress then 1.0 else EthPerTokenFrom(token, getPair, pairs, tokens, 0)
  }

  /**
   * `findEthPerToken`: 1 for WETH itself; otherwise the price through the first
   * whitelist entry whose pair qualifies; 0 if there is none.
   */
  method FindEthPerToken(token: Token, getPair: (string, string) -> Option<string>,
                         pairs: map<string, Pair>, tokens: map<string, Token>) returns (ethPerToken: real)
    requires LoadsSucceed(token, getPair, pairs, tokens)
    ensures ethPerToken == EthPerToken(token, getPair, pairs, tokens)
  {
    if token.id == WethAddress {
      return 1.0;
    }
    var i := 0;
    while i < |Whitelist|
      invariant 0 <= i <= |Whitelist|
      invariant NoneQualifiesBefore(token, getPair, pairs, i)
      invariant EthPerTokenFrom(token, getPair, pairs, tokens, i) == EthPerToken(token, getPair, pairs, tokens)
    {
      var pairAddress := getPair(token.id, Whitelist[i]);
      if pairAddress.Some? {
        assert LoadsAt(token, getPair, pairs, tokens, i);
        var pair := pairs[pairAddress.value];
        if pair.token1 == token.id && pair.reserveETH > MinimumLiquidityThresholdEth {
          var token0 := tokens[pair.token0];
          return pair.token0Price * token0.derivedETH;
        }
        if pair.token1 == token.id && pair.reserveETH > MinimumLiquidityThresholdEth {
          // The source's second branch (meant for the token being token0) repeats
          // the first branch's guard, so it is never taken.
          assert false;
        }
      }
      i := i + 1;
    }
    return 0.0;
  }

  /** WETH is priced at exactly 1 ETH, whatever the store holds. */
  lemma BaseAssetIsOne(token: Token, getPair: (string, string) -> Option<string>,
                       pairs: map<string, Pair>, tokens: map<string, Token>)
    requires token.id == WethAddress
    ensures LoadsSucceed(token, getPair, pairs, tokens)
    ensures EthPerToken(token, getPair, pairs, tokens) == 1.0
  {
  }

  lemma {:induction false} EthPerTokenFromFirstMatch(token: Token, getPair: (string, string) -> Option<string>,
      pairs: map<string, Pair>, tokens: map<string, Token>, i: nat, k: nat)
    requires token.id != WethAddress && LoadsSucceed(token, getPair, pairs, tokens)
    requires k <= i < |Whitelist| && NoneQualifiesBefore(token, getPair, pairs, i)
    requires Qualifies(token, getPair, pairs, i)
    ensures NoneQualifiesBefore(token, getPair, pairs, k) && LoadsAt(token, getPair, pairs, tokens, i)
    ensures EthPerTokenFrom(token, getPair, pairs, tokens, k) == PriceVia(token, getPair, pairs, tokens, i)
    decreases i - k
  {
    if k < i {
      EthPerTokenFromFirstMatch(token, getPair, pairs, tokens, i, k + 1);
    }
  }

  /**
   * The search returns the price through the first qualifying whitelist entry:
   * if entry i qualifies and no earlier one does, the result is the price via i.
   */
  lemma {:induction false} EthPerTokenIsFirstMatch(token: Token, getPair: (string, string) -> Option<string>,
      pairs: map<string, Pair>, tokens: map<string, Token>, i: nat)
    requires token.id != WethAddress && LoadsSucceed(token, getPair, pairs, tokens)
    requires i < |Whitelist| && NoneQualifiesBefore(token, getPair, pairs, i)
    requires Qualifies(token, getPair, pairs, i)
    ensures LoadsAt(token, getPair, pairs, tokens, i)
    ensures EthPerToken(token, getPair, pairs, tokens) == PriceVia(token, getPair, pairs, tokens, i)
  {
    EthPerTokenFromFirstMatch(token, getPair, pairs, tokens, i, 0);
  }

  lemma {:induction false} EthPerTokenFromNoMatch(token: Token, getPair: (string, string) -> Option<string>,
      pairs: map<string, Pair>, tokens: map<string, Token>, k: nat)
    requires token.id != WethAddress && LoadsSucceed(token, getPair, pairs, tokens)
    requires k <= |Whitelist| && NoneQualifiesBefore(token, getPair, pairs, |Whitelist|)
    ensures NoneQualifiesBefore(token, getPair, pairs, k)
    ensures EthPerTokenFrom(token, getPair, pairs, tokens, k) == 0.0
    decreases |Whitelist| - k
  {
    if k < |Whitelist| {
      EthPerTokenFromNoMatch(token, getPair, pairs, tokens, k + 1);
    }
  }

  /**
   * When every whitelisted pair is missing, or holds the token as token0, or
   * holds at most 2 ETH, a token other than WETH is priced at 0.
   */
  lemma {:induction false} EthPerTokenNoMatchIsZero(token: Token, getPair: (string, string) -> Option<string>,
      pairs: map<string, Pair>, tokens: map<string, Token>)
    requires token.id != WethAddress && LoadsSucceed(token, getPair, pairs, tokens)
    requires forall i :: 0 <= i < |Whitelist| ==>
      match PairAddressAt(token, getPair, i)
      case None => true
      case Some(a) => a in pairs ==> pairs[a].token1 != token.id || pairs[a].reserveETH <= MinimumLiquidityThresholdEth
    ensures EthPerToken(token, getPair, pairs, tokens) == 0.0
  {
    EthPerTokenFromNoMatch(token, getPair, pairs, tokens, 0);
  }

  // ---------------------------------------------------------------------------
  // Tracked volume and tracked liquidity
  // ---------------------------------------------------------------------------

  /** A token's USD price: its ETH price times the ETH/USD price. */
  function UsdPrice(token: Token, bundle: Bundle): real {
    token.derivedETH * bundle.ethPrice
  }

  /** The early returns of the new-pair gate, one per whitelisting case. */
  predicate FailsNewPairGate(reserve1USD: real, reserve0USD: real, whitelisted1: bool, whitelisted0: bool) {
    || (whitelisted1 && whitelisted0 && reserve1USD + reserve0USD < MinimumUsdThresholdNewPairs)
    || (whitelisted1 && !whitelisted0 && reserve1USD * 2.0 < MinimumUsdThresholdNewPairs)
    || (!whitelisted1 && whitelisted0 && reserve0USD * 2.0 < MinimumUsdThresholdNewPairs)
  }

  /**
   * The USD reserve the gate compares with the threshold: both sides when both
   * tokens are whitelisted, twice the whitelisted side when only one is.
   */
  function WhitelistedReserveUSD(token1: Token, token0: Token, pair: Pair, bundle: Bundle): real {
    var reserve1USD := pair.reserve1 * UsdPrice(token1, bundle);
    var reserve0USD := pair.reserve0 * UsdPrice(token0, bundle);
    if IsWhitelisted(token1.id) && IsWhitelisted(token0.id) then reserve1USD + reserve0USD
    else if IsWhitelisted(token1.id) then 2.0 * reserve1USD
    else 2.0 * reserve0USD
  }

  /** `getTrackedVolumeUSD`: how much of a trade counts towards tracked volume. */
  function TrackedVolumeUSD(amount1: real, token1: Token, amount0: real, token0: Token,
                            pair: Pair, bundle: Bundle, untrackedPairs: set<string>): (volume: real)
    // untracked pairs never count
    ensures pair.id in untrackedPairs ==> volume == 0.0
    // a pair with fewer than five LPs and a whitelisted USD reserve below the threshold counts nothing
    ensures pair.id !in untrackedPairs && pair.liquidityProviderCount < 5
         && (IsWhitelisted(token1.id) || IsWhitelisted(token0.id))
         && WhitelistedReserveUSD(token1, token0, pair, bundle) < MinimumUsdThresholdNewPairs
         ==> volume == 0.0
    // otherwise, the value of the whitelisted side(s), averaged when both are
    ensures pair.id !in untrackedPairs
         && (pair.liquidityProviderCount >= 5
             || WhitelistedReserveUSD(token1, token0, pair, bundle) >= MinimumUsdThresholdNewPairs)
         ==> var value1, value0 := amount1 * UsdPrice(token1, bundle), amount0 * UsdPrice(token0, bundle);
             && (IsWhitelisted(token1.id) && IsWhitelisted(token0.id) ==> volume == (value1 + value0) / 2.0)
             && (IsWhitelisted(token1.id) && !IsWhitelisted(token0.id) ==> volume == value1)
             && (!IsWhitelisted(token1.id) && IsWhitelisted(token0.id) ==> volume == value0)
    // a trade between two non-whitelisted tokens never counts
    ensures !IsWhitelisted(token1.id) && !IsWhitelisted(token0.id) ==> volume == 0.0
  {
    var price1 := UsdPrice(token1, bundle);
    var price0 := UsdPrice(token0, bundle);
    if pair.id in untrackedPairs then
      0.0
    else if pair.liquidityProviderCount < 5
         && FailsNewPairGate(pair.reserve1 * price1, pair.reserve0 * price0,
                             IsWhitelisted(token1.id), IsWhitelisted(token0.id)) then
      0.0
    else if IsWhitelisted(token1.id) && IsWhitelisted(token0.id) then
      (amount1 * price1 + amount0 * price0) / 2.0
    else if IsWhitelisted(token1.id) && !IsWhitelisted(token0.id) then
      amount1 * price1
    else if !IsWhitelisted(token1.id) && IsWhitelisted(token0.id) then
      amount0 * price0
    else
      0.0
  }

  /** `getTrackedLiquidityUSD`: how much of a liquidity amount counts towards tracked liquidity. */
  function TrackedLiquidityUSD(amount1: real, token1: Token, amount0: real, token0: Token, bundle: Bundle): (liquidity: real)
    // both sides whitelisted: the sum of the two sides' USD values
    ensures IsWhitelisted(token1.id) && IsWhitelisted(token0.id) ==>
      liquidity == amount1 * UsdPrice(token1, bundle) + amount0 * UsdPrice(token0, bundle)
    // one side whitelisted: twice that side's USD value
    ensures IsWhitelisted(token1.id) && !IsWhitelisted(token0.id) ==>
      liquidity == 2.0 * (amount1 * UsdPrice(token1, bundle))
    ensures !IsWhitelisted(token1.id) && IsWhitelisted(token0.id) ==>
      liquidity == 2.0 * (amount0 * UsdPrice(token0, bundle))
    // neither whitelisted: nothing counts
    ensures !IsWhitelisted(token1.id) && !IsWhitelisted(token0.id) ==> liquidity == 0.0
  {
    var price1 := UsdPrice(token1, bundle);
    var price0 := UsdPrice(token0, bundle);
    if IsWhitelisted(token1.id) && IsWhitelisted(token0.id) then
      amount1 * price1 + amount0 * price0
    else if IsWhitelisted(token1.id) && !IsWhitelisted(token0.id) then
      amount1 * price1 * 2.0
    else if !IsWhitelisted(token1.id) && IsWhitelisted(token0.id) then
      amount0 * price0 * 2.0
    else
      0.0
  }

  /**
   * On a tracked pair with at least five liquidity providers, tracked liquidity
   * is exactly twice tracked volume: a sum against an average when both tokens
   * are whitelisted, a doubled side against a single side when one is, and zero
   * against zero when neither is.
   */
  lemma LiquidityIsTwiceVolume(amount1: real, token1: Token, amount0: real, token0: Token,
                               pair: Pair, bundle: Bundle, untrackedPairs: set<string>)
    requires pair.id !in untrackedPairs && pair.liquidityProviderCount >= 5
    ensures TrackedLiquidityUSD(amount1, token1, amount0, token0, bundle)
         == 2.0 * TrackedVolumeUSD(amount1, token1, amount0, token0, pair, bundle, untrackedPairs)
  {
  }

  /**
   * When both tokens are whitelisted and the trade counts, its tracked volume
   * lies between the USD values of its two sides.
   */
  lemma VolumeBetweenSides(amount1: real, token1: Token, amount0: real, token0: Token,
                           pair: Pair, bundle: Bundle, untrackedPairs: set<string>)
    requires IsWhitelisted(token1.id) && IsWhitelisted(token0.id) && pair.id !in untrackedPairs
    requires pair.liquidityProviderCount >= 5
          || WhitelistedReserveUSD(token1, token0, pair, bundle) >= MinimumUsdThresholdNewPairs
    ensures var value1, value0 := amount1 * UsdPrice(token1, bundle), amount0 * UsdPrice(token0, bundle);
      var volume := TrackedVolumeUSD(amount1, token1, amount0, token0, pair, bundle, untrackedPairs);
      (value1 <= volume <= value0) || (value0 <= volume <= value1)
  {
  }
}
