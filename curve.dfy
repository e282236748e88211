/** The Curve venue, `estimateCurveSwap`: it resolves the registry-exchange contract
    through Curve's address provider, picks one of two known pools by the trade's
    protocol token, asks the registry exchange for a quote, and prices the pool's
    exchange call. The address provider is the venue's own contract. */
module CurveVenue {
  import opened SwapTypes
  import opened Units
  import opened Classifier
  import opened Gates
  import opened Registry

  /** A pool handle: its contract (name and address from the registry, the two-item
      metapool ABI) and the exchange function it is called with. */
  datatype CurvePool = CurvePool(contract: Contract, functionName: string)

  /** The names in `curveMetapoolMiniAbi`. */
  const MetapoolAbi: seq<string> := ["exchange_underlying", "exchange"]

  /** Fixed gas budget for a Curve swap that still needs an approval. */
  const ApprovalSwapGas: nat := 350000

  /** The error JavaScript raises when `handleError` calls `.includes` on an
      undefined message. */
  const IncludesOfUndefined := RevertError(None, Some("Cannot read properties of undefined (reading 'includes')"))

  // ---------------------------------------------------------------------------
  // Token addresses

  /** The source address after the in-place normalisation: a source without an
      address becomes the null address (the native coin). */
  function NormalizedFrom(from: string): (a: string)
    ensures a != ""
    ensures from != "" ==> a == from
  {
    if from == "" then NullAddress else from
  }

  /** The destination address after the normalisation: it becomes the null address
      only when it has none and the source had one (`else if`). */
  function NormalizedTo(from: string, to: string): (a: string)
    ensures from == "" ==> a == to
    ensures from != "" ==> a != "" && (to != "" ==> a == to)
  {
    if from == "" then to else if to == "" then NullAddress else to
  }

  /** When neither token has an address only the source is repaired: the
      destination is left undefined. */
  lemma NormalizeBothMissing()
    ensures NormalizedFrom("") == NullAddress && NormalizedTo("", "") == ""
  {
  }

  /** The source decimals: 18 for the native coin (parseUnits' default when no
      decimals were read), else the token's `decimals()`. */
  function CurveDecimals(chain: Chain, from: string): Read<nat> {
    if from == NullAddress then Ok(18) else chain.decimals(from)
  }

  function CurveAmount(chain: Chain, from: string, value: real): (r: Read<nat>)
    requires value > 0.0
    ensures CurveDecimals(chain, from).Reverted? ==> r == Reverted(CurveDecimals(chain, from).error)
    ensures r.Ok? ==> r.value > 0 && r.value as real == Scale(value, CurveDecimals(chain, from).value)
  {
    match CurveDecimals(chain, from)
    case Reverted(e) => Reverted(e)
    case Ok(d) =>
      var r := ParseUnits(value, d);
      assert r.Ok? ==> r.value as real > 0.0;
      r
  }

  // ---------------------------------------------------------------------------
  // Pool choice

  predicate IsOUSD(registry: map<string, Contract>, fromSymbol: string, toSymbol: string)
    requires "OUSD" in registry
  {
    toSymbol == registry["OUSD"].symbol || fromSymbol == registry["OUSD"].symbol
  }

  predicate IsOETH(registry: map<string, Contract>, fromSymbol: string, toSymbol: string)
    requires "OETH" in registry
  {
    toSymbol == registry["OETH"].symbol || fromSymbol == registry["OETH"].symbol
  }

  function NameOf(registry: map<string, Contract>, key: string): string {
    if key in registry then registry[key].name else ""
  }

  function PoolAt(registry: map<string, Contract>, key: string, functionName: string): (p: CurvePool)
    ensures p.contract.address == AddressOf(registry, key) && p.functionName == functionName
    ensures p.contract.abi == MetapoolAbi
  {
    CurvePool(Contract(NameOf(registry, key), AddressOf(registry, key), MetapoolAbi, ""), functionName)
  }

  /** The pool for a trade: the OUSD metapool (`exchange_underlying`) when either side
      is OUSD, else the pool under "CurveOETHPool" (`exchange`) when either side is
      OETH, else none. */
  function SelectPool(registry: map<string, Contract>, fromSymbol: string, toSymbol: string): (p: Option<CurvePool>)
    requires "OUSD" in registry && "OETH" in registry
    ensures p.Some? <==> IsOUSD(registry, fromSymbol, toSymbol) || IsOETH(registry, fromSymbol, toSymbol)
    ensures p.Some? ==> p.value.contract.abi == MetapoolAbi
    ensures p.Some? ==> (p.value.functionName == "exchange_underlying" <==> IsOUSD(registry, fromSymbol, toSymbol))
  {
    if IsOUSD(registry, fromSymbol, toSymbol) then Some(PoolAt(registry, "CurveOUSDMetaPool", "exchange_underlying"))
    else if IsOETH(registry, fromSymbol, toSymbol) then Some(PoolAt(registry, "CurveOETHPool", "exchange"))
    else None
  }

  /** `poolContract` as the failure result reports it (undefined when no pool). */
  function PoolContract(p: Option<CurvePool>): Option<Contract> {
    if p.Some? then Some(p.value.contract) else None
  }

  /** `poolContract && poolContract.address` (its ABI is always present). */
  predicate HasLiquidityPool(p: Option<CurvePool>) {
    p.Some? && p.value.contract.address != ""
  }

  /** On the mainnet registry an OUSD trade gets the OUSD metapool, whatever the
      other side is. */
  lemma MainnetOUSDPool(fromSymbol: string, toSymbol: string)
    requires fromSymbol == "OUSD" || toSymbol == "OUSD"
    ensures SelectPool(Mainnet, fromSymbol, toSymbol)
            == Some(PoolAt(Mainnet, "CurveOUSDMetaPool", "exchange_underlying"))
    ensures HasLiquidityPool(SelectPool(Mainnet, fromSymbol, toSymbol))
  {
    assert Mainnet["OUSD"].symbol == "OUSD";
    assert AddressOf(Mainnet, "CurveOUSDMetaPool") == "0x87650D7bbfC3A9F10587d7778206671719d9910D";
  }

  /** On the mainnet registry an OETH trade without OUSD picks a pool entry under a
      key the registry does not have ("CurveOETHPool"; the table only has
      "CurveOETHMetaPool"), so it has no address and ends in NO_LIQUIDITY_POOL. */
  lemma MainnetOETHHasNoPool(fromSymbol: string, toSymbol: string)
    requires fromSymbol != "OUSD" && toSymbol != "OUSD"
    requires fromSymbol == "OETH" || toSymbol == "OETH"
    ensures SelectPool(Mainnet, fromSymbol, toSymbol).Some?
    ensures !HasLiquidityPool(SelectPool(Mainnet, fromSymbol, toSymbol))
  {
    assert Mainnet["OUSD"].symbol == "OUSD";
    assert Mainnet["OETH"].symbol == "OETH";
    assert "CurveOETHPool" !in Mainnet;
  }

  /** Any other pair of symbols has no pool on the mainnet registry. */
  lemma MainnetOtherHasNoPool(fromSymbol: string, toSymbol: string)
    requires fromSymbol !in {"OUSD", "OETH"} && toSymbol !in {"OUSD", "OETH"}
    ensures SelectPool(Mainnet, fromSymbol, toSymbol).None?
  {
    assert Mainnet["OUSD"].symbol == "OUSD";
    assert Mainnet["OETH"].symbol == "OETH";
  }

  // ---------------------------------------------------------------------------
  // Coin indices

  function LowerChar(c: char): char {
    if 'A' <= c <= 'Z' then (c as int + 32) as char else c
  }

  /** `toLowerCase` on ASCII letters (addresses are hexadecimal). */
  function ToLower(s: string): (r: string)
    ensures |r| == |s| && forall i :: 0 <= i < |s| ==> r[i] == LowerChar(s[i])
  {
    seq(|s|, i requires 0 <= i < |s| => LowerChar(s[i]))
  }

  /** Lower-casing twice is lower-casing once. */
  lemma ToLowerIdempotent(s: string)
    ensures ToLower(ToLower(s)) == ToLower(s)
  {
  }

  /** The null address is already lower case, so the native coin is found under
      its own spelling. */
  lemma NullAddressIsLowerCase()
    ensures ToLower(NullAddress) == NullAddress
  {
    forall i | 0 <= i < |NullAddress| ensures LowerChar(NullAddress[i]) == NullAddress[i] {
      assert NullAddress[i] == '0' || NullAddress[i] == 'x';
    }
  }

  /** `coins.map(address => address?.toLowerCase())`. */
  function LowerAll(coins: seq<string>): (r: seq<string>)
    ensures |r| == |coins| && forall i :: 0 <= i < |coins| ==> r[i] == ToLower(coins[i])
  {
    seq(|coins|, i requires 0 <= i < |coins| => ToLower(coins[i]))
  }

  /** `Array.prototype.indexOf`: the first position of `x`, or -1. */
  function IndexOf(xs: seq<string>, x: string): (i: int)
    ensures i == -1 <==> x !in xs
    ensures i != -1 ==> 0 <= i < |xs| && xs[i] == x && x !in xs[..i]
  {
    if |xs| == 0 then -1
    else if xs[0] == x then 0
    else
      var k := IndexOf(xs[1..], x);
      if k == -1 then -1
      else
        assert xs[..k + 1] == [xs[0]] + xs[1..][..k];
        k + 1
  }

  /** A coin listed in any letter case is found by the lower-cased address, at or
      before the place it is listed. */
  lemma CoinFoundIgnoringCase(coins: seq<string>, a: string, k: nat)
    requires k < |coins| && ToLower(coins[k]) == ToLower(a)
    ensures 0 <= IndexOf(LowerAll(coins), ToLower(a)) <= k
  {
    assert LowerAll(coins)[k] == ToLower(a);
  }

  // ---------------------------------------------------------------------------
  // Swap ratio

  /** `parseFloat(formatWeiBalance(v)) / parseFloat(formatWeiBalance(receive)) > 1.2`.
      Both sides are scaled by the same 18 decimals, which cancel, so the ratio is
      that of the raw base-unit amounts. A zero quote makes the ratio Infinity (too
      high) for a positive input, and NaN (not too high) for a zero one. */
  predicate SwapRatioTooHigh(v: nat, receive: nat) {
    if receive == 0 then v > 0
    else v as real / receive as real > 1.2
  }

  /** For a positive input the ratio test is the integer comparison 5v > 6 * receive. */
  lemma SwapRatioIntegerForm(v: nat, receive: nat)
    requires v > 0
    ensures SwapRatioTooHigh(v, receive) <==> 5 * v > 6 * receive
  {
    if receive > 0 {
      QuotientAbove(v as real, receive as real, 1.2);
      assert v as real > 1.2 * receive as real <==> 5 * v > 6 * receive;
    }
  }

  lemma QuotientAbove(x: real, y: real, c: real)
    requires y > 0.0
    ensures x / y > c <==> x > c * y
  {
    var q := x / y;
    assert q * y == x;
    if q > c {
      assert q * y > c * y;
    } else {
      assert q * y <= c * y;
    }
  }

  /** A quote giving 10 for 13 (ratio 1.3) is rejected; 10 for 12 (exactly 1.2) is not. */
  lemma SwapRatioExample()
    ensures SwapRatioTooHigh(13, 10)
    ensures !SwapRatioTooHigh(12, 10)
  {
    SwapRatioIntegerForm(13, 10);
    SwapRatioIntegerForm(12, 10);
  }

  /** The ratio compares raw base units: a one-for-one quote from an 18-decimal token
      into a 6-decimal one (1000 tokens for 1000) fails the test. */
  lemma SwapRatioIgnoresDecimals()
    ensures SwapRatioTooHigh(1000 * Pow10(18), 1000 * Pow10(6))
  {
    SwapRatioIntegerForm(1000 * Pow10(18), 1000 * Pow10(6));
    assert Pow10(18) == Pow10(12) * Pow10(6) by { Pow10Add(12, 6); }
  }

  lemma {:induction false} Pow10Add(a: nat, b: nat)
    ensures Pow10(a + b) == Pow10(a) * Pow10(b)
  {
    if a > 0 {
      Pow10Add(a - 1, b);
    }
  }

  // ---------------------------------------------------------------------------
  // Calls

  function ExchangeCall(pool: CurvePool, i: int, j: int, v: nat, minimumAmount: int, fromEth: bool): (c: Call)
    ensures c.address == pool.contract.address && c.functionName == pool.functionName
    ensures c.args == [Num(i), Num(j), Num(v), Num(minimumAmount)]
    ensures c.valueOverride.Some? <==> fromEth
  {
    Call(pool.contract.address, pool.functionName, [Num(i), Num(j), Num(v), Num(minimumAmount)],
         if fromEth then Some(v) else None)
  }

  /** The factory's coin-list function: underlying coins for the OUSD metapool. */
  function CoinsFunction(isOUSD: bool): string {
    if isOUSD then "get_underlying_coins" else "get_coins"
  }

  /** The inner `catch` around the quote: classified with the pool; if that throws,
      the outer `catch` classifies the resulting TypeError with the provider. */
  function QuoteError(e: RevertError, pool: CurvePool, provider: Contract): (r: Settled<Estimate>)
    ensures r.Resolved? && r.value.Failure? && Classifiable(r.value.error)
    ensures ErrorMessage(e).Some? ==> r == HandleError(e, Some(pool.contract))
    ensures ErrorMessage(e).None? ==> r == HandleError(IncludesOfUndefined, Some(provider))
  {
    match HandleError(e, Some(pool.contract))
    case Resolved(x) => Resolved(x)
    case Rejected => HandleError(IncludesOfUndefined, Some(provider))
  }

  // ---------------------------------------------------------------------------
  // The exchange step: coin list, ratio check, exchange gas

  /** The reads of the exchange step succeed: the factory address and its coin list. */
  predicate CoinsOk(chain: Chain, provider: Contract, pool: CurvePool, isOUSD: bool) {
    && chain.curveAddress(provider.address, 3).Ok?
    && chain.poolCoins(chain.curveAddress(provider.address, 3).value, CoinsFunction(isOUSD), pool.contract.address).Ok?
  }

  function Coins(chain: Chain, provider: Contract, pool: CurvePool, isOUSD: bool): seq<string>
    requires CoinsOk(chain, provider, pool, isOUSD)
  {
    chain.poolCoins(chain.curveAddress(provider.address, 3).value, CoinsFunction(isOUSD), pool.contract.address).value
  }

  /** An exchange quote: the pool as contract, the quoted amount, the minimum, and the
      prepared exchange call `(i, j, v, minimum)` over the lower-cased coin list
      (-1 for a coin not listed), paying `v` along only from the native coin. */
  predicate IsExchangeQuote(e: Estimate, last: ChainCall, provider: Contract, pool: CurvePool,
                            from: string, to: string, isOUSD: bool, address: string, value: real,
                            v: nat, receive: nat, minimum: int, chain: Chain)
    requires chain.feeData.Ok? && CoinsOk(chain, provider, pool, isOUSD)
  {
    var coins := LowerAll(Coins(chain, provider, pool, isOUSD));
    var call := ExchangeCall(pool, IndexOf(coins, ToLower(from)), IndexOf(coins, ToLower(to)), v, minimum,
                             from == NullAddress);
    && e.Success?
    && e.contract == Some(pool.contract)
    && e.receiveAmount == receive
    && e.minimumAmount == Some(minimum)
    && e.hasProvidedAllowance
    && e.feeData == chain.feeData.value
    && e.value == value
    && e.breakdown.None?
    && e.prepareParams == Some(PrepareParams(call, pool.contract.abi, Some(2000)))
    && chain.estimateGas(address, call) == Ok(e.gasLimit)
    && last == EstimateGas(call)
  }

  /** The first read of the exchange step that reverts: the factory address, its
      coin list, then (ratio accepted) the exchange estimate. None when no read
      reverts. */
  function ExchangeError(provider: Contract, pool: CurvePool, from: string, to: string, isOUSD: bool,
                         address: string, v: nat, receive: nat, minimum: int, chain: Chain): Option<RevertError>
  {
    var factory := chain.curveAddress(provider.address, 3);
    if factory.Reverted? then Some(factory.error)
    else
      var coins := chain.poolCoins(factory.value, CoinsFunction(isOUSD), pool.contract.address);
      if coins.Reverted? then Some(coins.error)
      else if SwapRatioTooHigh(v, receive) then None
      else
        var lowered := LowerAll(coins.value);
        ErrorOf(chain.estimateGas(address, ExchangeCall(pool, IndexOf(lowered, ToLower(from)),
                                                        IndexOf(lowered, ToLower(to)), v, minimum,
                                                        from == NullAddress)))
  }

  /** Coin list, ratio check and exchange gas. */
  method Exchange(provider: Contract, pool: CurvePool, from: string, to: string, isOUSD: bool,
                  address: string, value: real, v: nat, receive: nat, minimum: int, chain: Chain)
    returns (r: Settled<Estimate>, calls: seq<ChainCall>)
    requires chain.feeData.Ok?
    ensures r.Resolved? && r.value.Failure? ==>
      (r.value.contract == Some(provider) && Classifiable(r.value.error)) ||
      r.value == Failure(BadSwapRatio, Some(pool.contract))
    ensures ExchangeError(provider, pool, from, to, isOUSD, address, v, receive, minimum, chain).Some? ==>
      r == HandleError(ExchangeError(provider, pool, from, to, isOUSD, address, v, receive, minimum, chain).value,
                       Some(provider))
    ensures ExchangeError(provider, pool, from, to, isOUSD, address, v, receive, minimum, chain).None? ==>
      r.Resolved? && (r.value.Success? || r.value == Failure(BadSwapRatio, Some(pool.contract)))
    ensures r.Resolved? && r.value.Failure? && r.value.error == BadSwapRatio <==>
      CoinsOk(chain, provider, pool, isOUSD) && SwapRatioTooHigh(v, receive)
    ensures r.Resolved? && r.value.Failure? && r.value.error == BadSwapRatio ==> !HasGasEstimate(calls)
    ensures r.Resolved? && r.value.Success? ==>
      CoinsOk(chain, provider, pool, isOUSD) && !SwapRatioTooHigh(v, receive) && |calls| > 0 &&
      IsExchangeQuote(r.value, calls[|calls| - 1], provider, pool, from, to, isOUSD, address, value,
                      v, receive, minimum, chain)
  {
    calls := [ReadContract(provider.address, "get_address")];
    var factory := chain.curveAddress(provider.address, 3);
    if factory.Reverted? {
      r := HandleError(factory.error, Some(provider));
      HandleErrorKinds(factory.error, Some(provider));
      return;
    }
    calls := calls + [ReadContract(factory.value, CoinsFunction(isOUSD))];
    var coins := chain.poolCoins(factory.value, CoinsFunction(isOUSD), pool.contract.address);
    if coins.Reverted? {
      r := HandleError(coins.error, Some(provider));
      HandleErrorKinds(coins.error, Some(provider));
      return;
    }
    var lowered := LowerAll(coins.value);
    if SwapRatioTooHigh(v, receive) {
      r := Resolved(Failure(BadSwapRatio, Some(pool.contract)));
      return;
    }
    var fromIndex := IndexOf(lowered, ToLower(from));
    var toIndex := IndexOf(lowered, ToLower(to));
    var call := ExchangeCall(pool, fromIndex, toIndex, v, minimum, from == NullAddress);
    calls := calls + [EstimateGas(call)];
    var gas := chain.estimateGas(address, call);
    if gas.Reverted? {
      r := HandleError(gas.error, Some(provider));
      HandleErrorKinds(gas.error, Some(provider));
      return;
    }
    r := Resolved(Success(Some(pool.contract), gas.value, receive, Some(minimum), true, chain.feeData.value,
                          Some(PrepareParams(call, pool.contract.abi, Some(2000))), None, value));
  }

  // ---------------------------------------------------------------------------
  // The quote step: amount, quote, minimum, funding, then the exchange step

  /** The registry exchange's `get_exchange_amount` for the pool, the two
      addresses and the amount. */
  function QuoteRead(chain: Chain, provider: Contract, pool: CurvePool, from: string, to: string, v: nat): Read<nat>
    requires chain.curveAddress(provider.address, 2).Ok?
  {
    chain.exchangeAmount(chain.curveAddress(provider.address, 2).value, pool.contract.address, from, to, v)
  }

  /** The reads of the quote step succeed: the amount, the registry exchange's quote,
      and the slippage setting. */
  predicate QuoteReadsOk(chain: Chain, provider: Contract, pool: CurvePool, from: string, to: string,
                         value: real, settings: Settings)
    requires value > 0.0
  {
    && CurveAmount(chain, from, value).Ok?
    && chain.curveAddress(provider.address, 2).Ok?
    && QuoteRead(chain, provider, pool, from, to, CurveAmount(chain, from, value).value).Ok?
    && SlippageBps(settings).Ok?
  }

  function Quote(chain: Chain, provider: Contract, pool: CurvePool, from: string, to: string,
                 value: real, settings: Settings): nat
    requires value > 0.0 && QuoteReadsOk(chain, provider, pool, from, to, value, settings)
  {
    QuoteRead(chain, provider, pool, from, to, CurveAmount(chain, from, value).value).value
  }

  function QuoteMinimum(chain: Chain, from: string, value: real, settings: Settings): int
    requires value > 0.0 && CurveAmount(chain, from, value).Ok? && SlippageBps(settings).Ok?
  {
    MinimumAmount(CurveAmount(chain, from, value).value, SlippageBps(settings).value)
  }

  /** The native coin needs a wallet balance covering the amount; a token needs an
      allowance to the pool covering it. */
  predicate Funded(chain: Chain, pool: CurvePool, from: string, address: string, v: nat) {
    if from == NullAddress then chain.nativeBalance(address).Ok? && v <= chain.nativeBalance(address).value
    else chain.allowance(from, address, pool.contract.address).Ok? &&
         chain.allowance(from, address, pool.contract.address).value >= v
  }

  /** A Curve quote for amount `v`, quote `receive` and minimum `minimum`: either the
      exchange quote, or (a token without allowance) the quoted amount and minimum
      with a fixed 350,000 budget plus the approval gas and no prepared call. */
  predicate IsQuoteFor(e: Estimate, last: ChainCall, provider: Contract, pool: CurvePool,
                       from: string, to: string, isOUSD: bool, address: string, value: real,
                       v: nat, receive: nat, minimum: int, chain: Chain)
    requires chain.feeData.Ok?
  {
    && e.Success?
    && (e.hasProvidedAllowance ==>
          Funded(chain, pool, from, address, v) && CoinsOk(chain, provider, pool, isOUSD) &&
          !SwapRatioTooHigh(v, receive) &&
          IsExchangeQuote(e, last, provider, pool, from, to, isOUSD, address, value, v, receive, minimum, chain))
    && (!e.hasProvidedAllowance ==>
          var approve := ApproveCall(from, pool.contract.address, v);
          && from != NullAddress
          && chain.allowance(from, address, pool.contract.address).Ok?
          && chain.allowance(from, address, pool.contract.address).value < v
          && chain.estimateGas(address, approve).Ok?
          && e == Success(Some(pool.contract), ApprovalSwapGas + chain.estimateGas(address, approve).value,
                          receive, Some(minimum), false, chain.feeData.value, None, None, value)
          && last == EstimateGas(approve))
  }

  /** A Curve quote for the request: the amount, quote and minimum the reads give. */
  predicate IsCurveQuote(e: Estimate, last: ChainCall, provider: Contract, pool: CurvePool,
                         from: string, to: string, isOUSD: bool, address: string, value: real,
                         settings: Settings, chain: Chain)
    requires value > 0.0 && chain.feeData.Ok? && QuoteReadsOk(chain, provider, pool, from, to, value, settings)
  {
    IsQuoteFor(e, last, provider, pool, from, to, isOUSD, address, value, CurveAmount(chain, from, value).value,
               Quote(chain, provider, pool, from, to, value, settings), QuoteMinimum(chain, from, value, settings),
               chain)
  }

  /** What the quote step answers, `calls` being its own chain calls:
      - a failure is NOT_ENOUGH_BALANCE or a classified revert with the provider, or
        BAD_SWAP_RATIO or a classified revert with the pool;
      - a failing read of the amount, the quote or the slippage setting answers as
        `QuoteFailure` says;
      - those reads succeeding, a later revert is the first read from funding on
        to revert, classified with the provider; without one, a quote,
        NOT_ENOUGH_BALANCE or BAD_SWAP_RATIO;
      - NOT_ENOUGH_BALANCE exactly when the native-coin amount exceeds the wallet;
      - BAD_SWAP_RATIO exactly when the trade is funded, the coin list was read and
        the input-to-quote ratio is above 1.2;
      - neither of the two makes a gas estimate;
      - a quote is a Curve quote for the pool. */
  predicate QuoteAnswer(provider: Contract, pool: CurvePool, from: string, to: string, isOUSD: bool,
                        address: string, value: real, settings: Settings, chain: Chain,
                        r: Settled<Estimate>, calls: seq<ChainCall>)
    requires value > 0.0 && chain.feeData.Ok? && chain.curveAddress(provider.address, 2).Ok?
  {
    var failure := QuoteFailure(chain, provider, pool, from, to, value, settings);
    && (r.Resolved? && r.value.Failure? ==>
          (r.value.contract == Some(provider) && (r.value.error == NotEnoughBalance || Classifiable(r.value.error))) ||
          (r.value.contract == Some(pool.contract) && (r.value.error == BadSwapRatio || Classifiable(r.value.error))))
    && (failure.Some? ==> r == failure.value)
    && (failure.None? ==>
          var error := FundError(provider, pool, from, to, isOUSD, address, CurveAmount(chain, from, value).value,
                                 Quote(chain, provider, pool, from, to, value, settings),
                                 QuoteMinimum(chain, from, value, settings), chain);
          && (error.Some? ==> r == HandleError(error.value, Some(provider)))
          && (error.None? ==>
                r.Resolved? &&
                (r.value.Success? || r.value == Failure(NotEnoughBalance, Some(provider)) ||
                 r.value == Failure(BadSwapRatio, Some(pool.contract)))))
    && (r == Resolved(Failure(NotEnoughBalance, Some(provider))) <==>
          QuoteReadsOk(chain, provider, pool, from, to, value, settings) && from == NullAddress &&
          chain.nativeBalance(address).Ok? && CurveAmount(chain, from, value).value > chain.nativeBalance(address).value)
    && (r.Resolved? && r.value.Failure? && r.value.error == BadSwapRatio <==>
          QuoteReadsOk(chain, provider, pool, from, to, value, settings) &&
          Funded(chain, pool, from, address, CurveAmount(chain, from, value).value) &&
          CoinsOk(chain, provider, pool, isOUSD) &&
          SwapRatioTooHigh(CurveAmount(chain, from, value).value, Quote(chain, provider, pool, from, to, value, settings)))
    && (r.Resolved? && r.value.Failure? && r.value.error in {NotEnoughBalance, BadSwapRatio} ==>
          !HasGasEstimate(calls))
    && (r.Resolved? && r.value.Success? ==>
          QuoteReadsOk(chain, provider, pool, from, to, value, settings) && |calls| > 0 &&
          IsCurveQuote(r.value, calls[|calls| - 1], provider, pool, from, to, isOUSD, address, value, settings, chain))
  }

  /** Amount, quote, minimum; then the funding step. */
  method QuoteStep(provider: Contract, pool: CurvePool, from: string, to: string, isOUSD: bool,
                   address: string, value: real, settings: Settings, chain: Chain)
    returns (r: Settled<Estimate>, calls: seq<ChainCall>)
    requires value > 0.0 && chain.feeData.Ok? && chain.curveAddress(provider.address, 2).Ok?
    ensures QuoteAnswer(provider, pool, from, to, isOUSD, address, value, settings, chain, r, calls)
  {
    var amount := CurveAmount(chain, from, value);
    calls := if amount.Ok? then [ReadContract(chain.curveAddress(provider.address, 2).value, "get_exchange_amount")]
             else [];
    var failure := QuoteFailure(chain, provider, pool, from, to, value, settings);
    if failure.Some? {
      r := failure.value;
      assert r.Resolved? ==> r.value.error != NotEnoughBalance && r.value.error != BadSwapRatio;
      return;
    }
    assert QuoteReadsOk(chain, provider, pool, from, to, value, settings);
    var receive := Quote(chain, provider, pool, from, to, value, settings);
    var minimum := QuoteMinimum(chain, from, value, settings);
    var fundCalls;
    r, fundCalls := FundAndExchange(provider, pool, from, to, isOUSD, address, value, amount.value,
                                    receive, minimum, chain);
    HasGasEstimateAppend(calls, fundCalls);
    calls := calls + fundCalls;
    assert |fundCalls| > 0 ==> calls[|calls| - 1] == fundCalls[|fundCalls| - 1];
    assert r.Resolved? && r.value.Success? ==>
      IsCurveQuote(r.value, calls[|calls| - 1], provider, pool, from, to, isOUSD, address, value, settings, chain);
  }

  /** The errors before funding, in the order the reads happen: the amount (its
      decimals read, then `parseUnits`), the registry exchange's quote (inner
      handler), then the slippage setting. None when all three succeed. */
  function QuoteFailure(chain: Chain, provider: Contract, pool: CurvePool, from: string, to: string,
                        value: real, settings: Settings): (r: Option<Settled<Estimate>>)
    requires value > 0.0 && chain.curveAddress(provider.address, 2).Ok?
    ensures r.None? <==> QuoteReadsOk(chain, provider, pool, from, to, value, settings)
    ensures CurveAmount(chain, from, value).Reverted? ==>
      r == Some(HandleError(CurveAmount(chain, from, value).error, Some(provider)))
    ensures CurveAmount(chain, from, value).Ok? &&
            QuoteRead(chain, provider, pool, from, to, CurveAmount(chain, from, value).value).Reverted? ==>
      r == Some(QuoteError(QuoteRead(chain, provider, pool, from, to, CurveAmount(chain, from, value).value).error,
                           pool, provider))
    ensures CurveAmount(chain, from, value).Ok? &&
            QuoteRead(chain, provider, pool, from, to, CurveAmount(chain, from, value).value).Ok? &&
            SlippageBps(settings).Reverted? ==>
      r == Some(HandleError(SlippageBps(settings).error, Some(provider)))
    ensures r.Some? && r.value.Resolved? ==>
      r.value.value.Failure? && Classifiable(r.value.value.error) &&
      (r.value.value.contract == Some(provider) || r.value.value.contract == Some(pool.contract))
  {
    var amount := CurveAmount(chain, from, value);
    if amount.Reverted? then Some(HandleError(amount.error, Some(provider)))
    else
      var quote := QuoteRead(chain, provider, pool, from, to, amount.value);
      if quote.Reverted? then Some(QuoteError(quote.error, pool, provider))
      else if SlippageBps(settings).Reverted? then Some(HandleError(SlippageBps(settings).error, Some(provider)))
      else None
  }

  /** The first read from funding on that reverts: the wallet's native balance (an
      amount above it stops without one), or the allowance and, short, the approval
      estimate; then a read of the exchange step. None when no read reverts. */
  function FundError(provider: Contract, pool: CurvePool, from: string, to: string, isOUSD: bool,
                     address: string, v: nat, receive: nat, minimum: int, chain: Chain): Option<RevertError>
  {
    if from == NullAddress then
      var balance := chain.nativeBalance(address);
      if balance.Reverted? then Some(balance.error)
      else if v > balance.value then None
      else ExchangeError(provider, pool, from, to, isOUSD, address, v, receive, minimum, chain)
    else
      var allowance := chain.allowance(from, address, pool.contract.address);
      if allowance.Reverted? then Some(allowance.error)
      else if allowance.value < v then ErrorOf(chain.estimateGas(address, ApproveCall(from, pool.contract.address, v)))
      else ExchangeError(provider, pool, from, to, isOUSD, address, v, receive, minimum, chain)
  }

  /** Funding: the wallet for the native coin, the allowance for a token (a short one
      quotes the approval only); then the exchange step. */
  method FundAndExchange(provider: Contract, pool: CurvePool, from: string, to: string, isOUSD: bool,
                         address: string, value: real, v: nat, receive: nat, minimum: int, chain: Chain)
    returns (r: Settled<Estimate>, calls: seq<ChainCall>)
    requires chain.feeData.Ok?
    ensures r.Resolved? && r.value.Failure? ==>
      (r.value.contract == Some(provider) && (r.value.error == NotEnoughBalance || Classifiable(r.value.error))) ||
      r.value == Failure(BadSwapRatio, Some(pool.contract))
    ensures FundError(provider, pool, from, to, isOUSD, address, v, receive, minimum, chain).Some? ==>
      r == HandleError(FundError(provider, pool, from, to, isOUSD, address, v, receive, minimum, chain).value,
                       Some(provider))
    ensures FundError(provider, pool, from, to, isOUSD, address, v, receive, minimum, chain).None? ==>
      r.Resolved? &&
      (r.value.Success? || r.value == Failure(NotEnoughBalance, Some(provider)) ||
       r.value == Failure(BadSwapRatio, Some(pool.contract)))
    ensures r == Resolved(Failure(NotEnoughBalance, Some(provider))) <==>
      from == NullAddress && chain.nativeBalance(address).Ok? && v > chain.nativeBalance(address).value
    ensures r.Resolved? && r.value.Failure? && r.value.error == BadSwapRatio <==>
      Funded(chain, pool, from, address, v) && CoinsOk(chain, provider, pool, isOUSD) && SwapRatioTooHigh(v, receive)
    ensures r.Resolved? && r.value.Failure? && r.value.error in {NotEnoughBalance, BadSwapRatio} ==>
      !HasGasEstimate(calls)
    ensures r.Resolved? && r.value.Success? ==>
      |calls| > 0 &&
      IsQuoteFor(r.value, calls[|calls| - 1], provider, pool, from, to, isOUSD, address, value, v, receive,
                 minimum, chain)
  {
    if from == NullAddress {
      calls := [GetNativeBalance(address)];
      var balance := chain.nativeBalance(address);
      if balance.Reverted? {
        r := HandleError(balance.error, Some(provider));
        HandleErrorKinds(balance.error, Some(provider));
        return;
      }
      if v > balance.value {
        r := Resolved(Failure(NotEnoughBalance, Some(provider)));
        return;
      }
    } else {
      calls := [GetAllowance(from, address, pool.contract.address)];
      var allowance := chain.allowance(from, address, pool.contract.address);
      if allowance.Reverted? {
        r := HandleError(allowance.error, Some(provider));
        HandleErrorKinds(allowance.error, Some(provider));
        return;
      }
      if allowance.value < v {
        var approve := ApproveCall(from, pool.contract.address, v);
        calls := calls + [EstimateGas(approve)];
        var approveGas := chain.estimateGas(address, approve);
        if approveGas.Reverted? {
          r := HandleError(approveGas.error, Some(provider));
          HandleErrorKinds(approveGas.error, Some(provider));
          return;
        }
        r := Resolved(Success(Some(pool.contract), ApprovalSwapGas + approveGas.value, receive,
                              Some(minimum), false, chain.feeData.value, None, None, value));
        return;
      }
    }
    var exchangeCalls;
    r, exchangeCalls := Exchange(provider, pool, from, to, isOUSD, address, value, v, receive, minimum, chain);
    HasGasEstimateAppend(calls, exchangeCalls);
    calls := calls + exchangeCalls;
  }

  // ---------------------------------------------------------------------------
  // The whole venue

  /** The chain calls before the quote: the source decimals (not read for the
      native coin), then the registry exchange's address. */
  function PreludeCalls(provider: Contract, from: string): (c: seq<ChainCall>)
    ensures !HasGasEstimate(c)
  {
    (if from != NullAddress then [GetDecimals(from)] else []) + [ReadContract(provider.address, "get_address")]
  }

  /** What the Curve venue answers once its gates passed, the fee data was read and
      the token addresses were normalised (`from`, `to` are the normalised ones):
      - a failure carries the address provider or the chosen pool as contract;
      - a revert of the source decimals, then of the registry exchange's address,
        is classified with the provider and ends the estimate;
      - with both read, a trade with no pool (or a pool without an address) is
        NO_LIQUIDITY_POOL, reported with the pool handle, before any quote;
      - otherwise, after those two reads, the answer of the quote step for the
        chosen pool. */
  predicate CurveOutcome(r: Settled<Estimate>, calls: seq<ChainCall>, provider: Contract, from: string, to: string,
                         fromSymbol: string, toSymbol: string, address: string, value: real, settings: Settings,
                         registry: map<string, Contract>, chain: Chain)
    requires value > 0.0 && chain.feeData.Ok? && "OUSD" in registry && "OETH" in registry
  {
    var pool := SelectPool(registry, fromSymbol, toSymbol);
    var prelude := PreludeCalls(provider, from);
    var decimals := CurveDecimals(chain, from);
    var registryExchange := chain.curveAddress(provider.address, 2);
    && (r.Resolved? && r.value.Failure? ==>
          r.value.contract == Some(provider) || r.value.contract == PoolContract(pool))
    && (decimals.Reverted? ==> r == HandleError(decimals.error, Some(provider)) && calls == [GetDecimals(from)])
    && (decimals.Ok? && registryExchange.Reverted? ==>
          r == HandleError(registryExchange.error, Some(provider)) && calls == prelude)
    && (decimals.Ok? && registryExchange.Ok? && !HasLiquidityPool(pool) ==>
          r == Resolved(Failure(NoLiquidityPool, PoolContract(pool))) && calls == prelude)
    && (decimals.Ok? && registryExchange.Ok? && HasLiquidityPool(pool) ==>
          && |prelude| <= |calls| && calls[..|prelude|] == prelude
          && QuoteAnswer(provider, pool.value, from, to, IsOUSD(registry, fromSymbol, toSymbol), address, value,
                         settings, chain, r, calls[|prelude|..]))
  }

  /** `estimateCurveSwap` after the normalisation: source decimals, the registry
      exchange's address, the pool choice, then the quote step. */
  method QuoteCurveSwap(provider: Contract, from: string, to: string, fromSymbol: string, toSymbol: string,
                        address: string, value: real, settings: Settings, registry: map<string, Contract>,
                        chain: Chain)
    returns (r: Settled<Estimate>, calls: seq<ChainCall>)
    requires value > 0.0 && chain.feeData.Ok? && "OUSD" in registry && "OETH" in registry
    ensures CurveOutcome(r, calls, provider, from, to, fromSymbol, toSymbol, address, value, settings, registry, chain)
  {
    calls := [];
    if from != NullAddress {
      calls := [GetDecimals(from)];
    }
    var decimals := CurveDecimals(chain, from);
    if decimals.Reverted? {
      r := HandleError(decimals.error, Some(provider));
      return;
    }
    calls := calls + [ReadContract(provider.address, "get_address")];
    var registryExchange := chain.curveAddress(provider.address, 2);
    if registryExchange.Reverted? {
      r := HandleError(registryExchange.error, Some(provider));
      return;
    }
    var pool := SelectPool(registry, fromSymbol, toSymbol);
    if !HasLiquidityPool(pool) {
      r := Resolved(Failure(NoLiquidityPool, PoolContract(pool)));
      return;
    }
    var quoteCalls;
    r, quoteCalls := QuoteStep(provider, pool.value, from, to, IsOUSD(registry, fromSymbol, toSymbol),
                               address, value, settings, chain);
    assert calls == PreludeCalls(provider, from);
    calls := calls + quoteCalls;
    assert calls[|PreludeCalls(provider, from)|..] == quoteCalls;
  }

  /** The in-place repair of the caller's token objects: a source without an
      address becomes the native coin, else a destination without one does. */
  method NormalizeAddresses(fromToken: Token, toToken: Token)
    modifies fromToken, toToken
    ensures fromToken.address == NormalizedFrom(old(fromToken.address))
    ensures toToken.address ==
      (if fromToken == toToken then fromToken.address else NormalizedTo(old(fromToken.address), old(toToken.address)))
  {
    if fromToken.address == "" {
      fromToken.address := NullAddress;
    } else if toToken.address == "" {
      toToken.address := NullAddress;
    }
  }

  /** What `estimateCurveSwap` answers for tokens whose addresses were `from` and
      `to` on entry: the gates' answer without any chain call; a revert of the fee
      data classified with the provider; otherwise the fee data first, then the
      Curve answer for the normalised addresses (one token object passed as both
      sides keeps the source's repaired address). */
  predicate CurveSwapOutcome(config: VenueConfig, mode: Mode, fromToken: Token, toToken: Token, from: string,
                             to: string, address: string, value: real, settings: Settings,
                             registry: map<string, Contract>, chain: Chain, r: Settled<Estimate>,
                             calls: seq<ChainCall>)
    requires value > 0.0 && "OUSD" in registry && "OETH" in registry
  {
    var gate := Gate(config, mode, fromToken, toToken);
    var normalizedFrom := NormalizedFrom(from);
    var normalizedTo := if fromToken == toToken then normalizedFrom else NormalizedTo(from, to);
    && (gate.Some? ==> r == Resolved(gate.value) && calls == [])
    && (gate.None? && chain.feeData.Reverted? ==>
          r == HandleError(chain.feeData.error, config.contract) && calls == [GetFeeData])
    && (gate.None? && chain.feeData.Ok? ==>
          && |calls| > 0 && calls[0] == GetFeeData
          && CurveOutcome(r, calls[1..], config.contract.value, normalizedFrom, normalizedTo,
                          fromToken.symbol, toToken.symbol, address, value, settings, registry, chain))
  }

  /** `estimateCurveSwap`: the gates and the fee data, then the in-place repair of
      the caller's token objects, then the swap. */
  method EstimateCurveSwap(config: VenueConfig, mode: Mode, fromToken: Token, toToken: Token,
                           address: string, value: real, settings: Settings,
                           registry: map<string, Contract>, chain: Chain)
    returns (r: Settled<Estimate>, calls: seq<ChainCall>)
    requires value > 0.0 && "OUSD" in registry && "OETH" in registry
    modifies fromToken, toToken
    ensures CurveSwapOutcome(config, mode, fromToken, toToken, old(fromToken.address), old(toToken.address),
                             address, value, settings, registry, chain, r, calls)
    ensures Gate(config, mode, fromToken, toToken).Some? || chain.feeData.Reverted? ==>
      unchanged(fromToken, toToken)
    ensures Gate(config, mode, fromToken, toToken).None? && chain.feeData.Ok? ==>
      && fromToken.address == NormalizedFrom(old(fromToken.address))
      && toToken.address ==
           (if fromToken == toToken then fromToken.address
            else NormalizedTo(old(fromToken.address), old(toToken.address)))
  {
    var gate := Gate(config, mode, fromToken, toToken);
    if gate.Some? {
      return Resolved(gate.value), [];
    }
    calls := [GetFeeData];
    if chain.feeData.Reverted? {
      r := HandleError(chain.feeData.error, config.contract);
      return;
    }
    NormalizeAddresses(fromToken, toToken);
    var swapCalls;
    r, swapCalls := QuoteCurveSwap(config.contract.value, fromToken.address, toToken.address,
                                   fromToken.symbol, toToken.symbol, address, value, settings, registry, chain);
    calls := calls + swapCalls;
    assert calls[1..] == swapCalls;
  }
}
