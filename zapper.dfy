/** The zapper venue, `estimateZapperMint`: a payable deposit when the source is
    the native coin, else a deposit of an ERC20 liquid-staking token. */
module ZapperVenue {
  import opened SwapTypes
  import opened Units
  import opened Classifier
  import opened Gates

  function DepositCall(zapper: string, amount: nat): Call {
    Call(zapper, "deposit", [], Some(amount))
  }

  function DepositTokenCall(zapper: string, v: nat, minimumAmount: int): Call {
    Call(zapper, "depositSFRXETH", [Num(v), Num(minimumAmount)], None)
  }

  /** The zapper's funds check as the code computes it: `contractHasEnoughTokens` is
      `balance < v`, so the venue goes on only while the zapper holds LESS of the
      destination token than the deposit. */
  predicate ContractHasEnoughTokens(contractBalance: nat, v: nat) {
    contractBalance < v
  }

  /** Every read of the ERC20 path before its balance gate succeeds. */
  predicate TokenReadsOk(zapper: string, from: string, to: string, value: real, chain: Chain)
    requires value > 0.0
  {
    && chain.feeData.Ok?
    && chain.tokenBalance(to, zapper).Ok?
    && AmountIn(chain, from, value).Ok?
  }

  /** A native-coin quote: the deposit itself is the receive amount, with no
      minimum, no allowance needed, and the prepared payable `deposit()` carrying
      the deposit as its value (stale after 2 seconds). */
  predicate IsNativeZapQuote(e: Estimate, last: ChainCall, zapper: Contract, address: string,
                             value: real, chain: Chain)
    requires value > 0.0
  {
    && ParseUnits(value, 18).Ok?
    && var deposit := DepositCall(zapper.address, ParseUnits(value, 18).value);
    && e.Success?
    && e.contract == Some(zapper)
    && chain.feeData.Ok? && e.feeData == chain.feeData.value
    && e.value == value
    && e.receiveAmount == ParseUnits(value, 18).value
    && e.minimumAmount.None?
    && e.breakdown.None?
    && e.hasProvidedAllowance
    && e.prepareParams == Some(PrepareParams(deposit, zapper.abi, Some(2000)))
    && chain.estimateGas(address, deposit) == Ok(e.gasLimit)
    && last == EstimateGas(deposit)
  }

  /** An ERC20 quote: the input amount is the receive amount, no minimum is reported;
      with enough allowance the prepared `depositSFRXETH(v, minimum)` (stale after 2
      seconds) and its gas, otherwise no prepared call and the `approve` gas alone. */
  predicate IsTokenZapQuote(e: Estimate, last: ChainCall, zapper: Contract, from: string, to: string,
                            address: string, value: real, settings: Settings, chain: Chain)
    requires value > 0.0
    requires TokenReadsOk(zapper.address, from, to, value, chain)
  {
    var v := AmountIn(chain, from, value).value;
    && e.Success?
    && e.contract == Some(zapper)
    && e.feeData == chain.feeData.value
    && e.value == value
    && e.receiveAmount == v
    && e.minimumAmount.None?
    && e.breakdown.None?
    && chain.allowance(from, address, zapper.address).Ok?
    && (e.hasProvidedAllowance <==> chain.allowance(from, address, zapper.address).value >= v)
    && (e.hasProvidedAllowance <==> e.prepareParams.Some?)
    && (e.hasProvidedAllowance ==>
          SlippageBps(settings).Ok? &&
          var deposit := DepositTokenCall(zapper.address, v, MinimumAmount(v, SlippageBps(settings).value));
          e.prepareParams == Some(PrepareParams(deposit, zapper.abi, Some(2000))) &&
          chain.estimateGas(address, deposit) == Ok(e.gasLimit) &&
          last == EstimateGas(deposit))
    && (!e.hasProvidedAllowance ==>
          chain.estimateGas(address, ApproveCall(from, zapper.address, v)) == Ok(e.gasLimit) &&
          last == EstimateGas(ApproveCall(from, zapper.address, v)))
  }

  /** The first read of the native-coin path that reverts: the 18-decimal amount,
      the wallet's native balance, then (balance covering it) the `deposit`
      estimate. None when no read reverts. */
  function NativeZapError(zapper: Contract, address: string, value: real, chain: Chain): Option<RevertError>
    requires value > 0.0
  {
    var amount := ParseUnits(value, 18);
    if amount.Reverted? then Some(amount.error)
    else if chain.nativeBalance(address).Reverted? then Some(chain.nativeBalance(address).error)
    else if amount.value > chain.nativeBalance(address).value then None
    else ErrorOf(chain.estimateGas(address, DepositCall(zapper.address, amount.value)))
  }

  /** What the native-coin path answers, `calls` being its own chain calls:
      - a failure is NOT_ENOUGH_BALANCE or a classified revert, with the zapper;
      - a revert is the first read to revert;
      - without a revert, a quote or NOT_ENOUGH_BALANCE, the latter exactly when
        the 18-decimal amount exceeds the wallet's native balance, and without a
        gas estimate;
      - a quote is the native zap quote. */
  predicate NativeAnswer(zapper: Contract, address: string, value: real, chain: Chain,
                         r: Settled<Estimate>, calls: seq<ChainCall>)
    requires value > 0.0
  {
    var error := NativeZapError(zapper, address, value, chain);
    && (r.Resolved? && r.value.Failure? ==>
          r.value.contract == Some(zapper) && (r.value.error == NotEnoughBalance || Classifiable(r.value.error)))
    && (error.Some? ==> r == HandleError(error.value, Some(zapper)))
    && (error.None? ==> r.Resolved? && (r.value.Success? || r.value.error == NotEnoughBalance))
    && (r == Resolved(Failure(NotEnoughBalance, Some(zapper))) <==>
          ParseUnits(value, 18).Ok? && chain.nativeBalance(address).Ok? &&
          ParseUnits(value, 18).value > chain.nativeBalance(address).value)
    && (r == Resolved(Failure(NotEnoughBalance, Some(zapper))) ==> !HasGasEstimate(calls))
    && (r.Resolved? && r.value.Success? ==>
          |calls| > 0 && IsNativeZapQuote(r.value, calls[|calls| - 1], zapper, address, value, chain))
  }

  /** The native-coin path, after the fee data. */
  method ZapNative(zapper: Contract, address: string, value: real, chain: Chain)
    returns (r: Settled<Estimate>, calls: seq<ChainCall>)
    requires value > 0.0 && chain.feeData.Ok?
    ensures NativeAnswer(zapper, address, value, chain, r, calls)
  {
    var contract := Some(zapper);
    calls := [];
    var amount := ParseUnits(value, 18);
    if amount.Reverted? {
      r := HandleError(amount.error, contract);
      HandleErrorKinds(amount.error, contract);
      return;
    }
    calls := calls + [GetNativeBalance(address)];
    var balance := chain.nativeBalance(address);
    if balance.Reverted? {
      r := HandleError(balance.error, contract);
      HandleErrorKinds(balance.error, contract);
      return;
    }
    if amount.value > balance.value {
      r := Resolved(Failure(NotEnoughBalance, contract));
      return;
    }
    var last;
    r, last := NativeDeposit(zapper, address, amount.value, value, chain);
    assert r != Resolved(Failure(NotEnoughBalance, contract));
    calls := calls + [last];
  }

  /** The payable `deposit()` of the native-coin path, once the balance covers it:
      its gas estimate is the one chain call; a revert of it is classified with the
      zapper, and otherwise the answer is the native zap quote. */
  method NativeDeposit(zapper: Contract, address: string, amount: nat, value: real, chain: Chain)
    returns (r: Settled<Estimate>, last: ChainCall)
    requires value > 0.0 && chain.feeData.Ok? && ParseUnits(value, 18) == Ok(amount)
    ensures last == EstimateGas(DepositCall(zapper.address, amount))
    ensures chain.estimateGas(address, DepositCall(zapper.address, amount)).Reverted? ==>
      r == HandleError(chain.estimateGas(address, DepositCall(zapper.address, amount)).error, Some(zapper))
    ensures chain.estimateGas(address, DepositCall(zapper.address, amount)).Ok? ==> r.Resolved? && r.value.Success?
    ensures r.Resolved? && r.value.Failure? ==> r.value.contract == Some(zapper) && Classifiable(r.value.error)
    ensures r.Resolved? && r.value.Success? ==> IsNativeZapQuote(r.value, last, zapper, address, value, chain)
  {
    var deposit := DepositCall(zapper.address, amount);
    last := EstimateGas(deposit);
    var gas := chain.estimateGas(address, deposit);
    if gas.Reverted? {
      r := HandleError(gas.error, Some(zapper));
      return;
    }
    r := Resolved(Success(Some(zapper), gas.value, amount, None, true, chain.feeData.value,
                          Some(PrepareParams(deposit, zapper.abi, Some(2000))), None, value));
  }

  /** The first read of the ERC20 quote that reverts: the allowance, then the
      `approve` estimate (allowance short) or the slippage setting and the
      `depositSFRXETH` estimate. None when the quote succeeds. */
  function TokenQuoteError(zapper: Contract, from: string, to: string, address: string, value: real,
                           settings: Settings, chain: Chain): Option<RevertError>
    requires value > 0.0
    requires TokenReadsOk(zapper.address, from, to, value, chain)
  {
    var v := AmountIn(chain, from, value).value;
    var allowance := chain.allowance(from, address, zapper.address);
    if allowance.Reverted? then Some(allowance.error)
    else if allowance.value < v then ErrorOf(chain.estimateGas(address, ApproveCall(from, zapper.address, v)))
    else if SlippageBps(settings).Reverted? then Some(SlippageBps(settings).error)
    else ErrorOf(chain.estimateGas(address, DepositTokenCall(zapper.address, v, MinimumAmount(v, SlippageBps(settings).value))))
  }

  /** The ERC20 path after its balance and funds gates: allowance, then one of the
      two gas estimates. */
  method ZapTokenQuote(zapper: Contract, from: string, to: string, address: string, value: real,
                       settings: Settings, chain: Chain)
    returns (r: Settled<Estimate>, calls: seq<ChainCall>)
    requires value > 0.0
    requires TokenReadsOk(zapper.address, from, to, value, chain)
    ensures r.Resolved? && r.value.Failure? ==>
      r.value.contract == Some(zapper) && Classifiable(r.value.error)
    ensures TokenQuoteError(zapper, from, to, address, value, settings, chain).Some? ==>
      r == HandleError(TokenQuoteError(zapper, from, to, address, value, settings, chain).value, Some(zapper))
    ensures TokenQuoteError(zapper, from, to, address, value, settings, chain).None? ==>
      r.Resolved? && r.value.Success?
    ensures r.Resolved? && r.value.Success? ==>
      |calls| > 0 && IsTokenZapQuote(r.value, calls[|calls| - 1], zapper, from, to, address, value, settings, chain)
  {
    var contract := Some(zapper);
    var v := AmountIn(chain, from, value).value;
    calls := [GetAllowance(from, address, zapper.address)];
    var allowance := chain.allowance(from, address, zapper.address);
    if allowance.Reverted? {
      r := HandleError(allowance.error, contract);
      return;
    }
    if allowance.value < v {
      var approve := ApproveCall(from, zapper.address, v);
      calls := calls + [EstimateGas(approve)];
      var approveGas := chain.estimateGas(address, approve);
      if approveGas.Reverted? {
        r := HandleError(approveGas.error, contract);
        return;
      }
      r := Resolved(Success(contract, approveGas.value, v, None, false, chain.feeData.value, None, None, value));
      return;
    }
    var bps := SlippageBps(settings);
    if bps.Reverted? {
      r := HandleError(bps.error, contract);
      return;
    }
    var deposit := DepositTokenCall(zapper.address, v, MinimumAmount(v, bps.value));
    calls := calls + [EstimateGas(deposit)];
    var gas := chain.estimateGas(address, deposit);
    if gas.Reverted? {
      r := HandleError(gas.error, contract);
      return;
    }
    r := Resolved(Success(contract, gas.value, v, None, true, chain.feeData.value,
                          Some(PrepareParams(deposit, zapper.abi, Some(2000))), None, value));
  }

  /** The first read of the ERC20 path that reverts: the source decimals and the
      zapper's holding of the destination token (awaited together, the first in
      list order reported), the amount conversion, then (both gates passed) a read
      of the quote. None when no read reverts. */
  function TokenZapError(zapper: Contract, from: string, to: string, balanceOf: Option<nat>, address: string,
                         value: real, settings: Settings, chain: Chain): Option<RevertError>
    requires value > 0.0 && chain.feeData.Ok?
  {
    if chain.decimals(from).Reverted? then Some(chain.decimals(from).error)
    else if chain.tokenBalance(to, zapper.address).Reverted? then Some(chain.tokenBalance(to, zapper.address).error)
    else if AmountIn(chain, from, value).Reverted? then Some(AmountIn(chain, from, value).error)
    else if !HasEnoughBalance(balanceOf, AmountIn(chain, from, value).value) then None
    else if !ContractHasEnoughTokens(chain.tokenBalance(to, zapper.address).value, AmountIn(chain, from, value).value)
    then None
    else TokenQuoteError(zapper, from, to, address, value, settings, chain)
  }

  /** What the ERC20 path answers, `calls` being its own chain calls:
      - a failure is one of the two funds failures or a classified revert, with
        the zapper;
      - a revert is the first read to revert;
      - without a revert, a quote or a funds failure;
      - NOT_ENOUGH_BALANCE exactly when the reads succeed and the wallet is short;
      - NOT_ENOUGH_CONTRACT_FUNDS exactly when it is not and the zapper holds at
        least the amount (the inverted test of the code);
      - neither funds failure estimates gas;
      - a quote passed both gates and is the token zap quote. */
  predicate TokenAnswer(zapper: Contract, from: string, to: string, balanceOf: Option<nat>, address: string,
                        value: real, settings: Settings, chain: Chain, r: Settled<Estimate>, calls: seq<ChainCall>)
    requires value > 0.0 && chain.feeData.Ok?
  {
    var error := TokenZapError(zapper, from, to, balanceOf, address, value, settings, chain);
    var v := AmountIn(chain, from, value);
    && (r.Resolved? && r.value.Failure? ==>
          r.value.contract == Some(zapper) &&
          (r.value.error in {NotEnoughBalance, NotEnoughContractFunds} || Classifiable(r.value.error)))
    && (error.Some? ==> r == HandleError(error.value, Some(zapper)))
    && (error.None? ==>
          r.Resolved? && (r.value.Success? || r.value.error in {NotEnoughBalance, NotEnoughContractFunds}))
    && (r == Resolved(Failure(NotEnoughBalance, Some(zapper))) <==>
          TokenReadsOk(zapper.address, from, to, value, chain) && !HasEnoughBalance(balanceOf, v.value))
    && (r == Resolved(Failure(NotEnoughContractFunds, Some(zapper))) <==>
          TokenReadsOk(zapper.address, from, to, value, chain) && HasEnoughBalance(balanceOf, v.value) &&
          !ContractHasEnoughTokens(chain.tokenBalance(to, zapper.address).value, v.value))
    && (r.Resolved? && r.value.Failure? && r.value.error in {NotEnoughBalance, NotEnoughContractFunds} ==>
          !HasGasEstimate(calls))
    && (r.Resolved? && r.value.Success? ==>
          && TokenReadsOk(zapper.address, from, to, value, chain)
          && HasEnoughBalance(balanceOf, v.value)
          && ContractHasEnoughTokens(chain.tokenBalance(to, zapper.address).value, v.value)
          && |calls| > 0
          && IsTokenZapQuote(r.value, calls[|calls| - 1], zapper, from, to, address, value, settings, chain))
  }

  /** The ERC20 path, after the fee data: decimals and the zapper's holding of the
      destination token, the balance gate, the (inverted) funds gate, then the quote. */
  method ZapToken(zapper: Contract, from: string, to: string, balanceOf: Option<nat>, address: string,
                  value: real, settings: Settings, chain: Chain)
    returns (r: Settled<Estimate>, calls: seq<ChainCall>)
    requires value > 0.0 && chain.feeData.Ok?
    ensures TokenAnswer(zapper, from, to, balanceOf, address, value, settings, chain, r, calls)
  {
    var contract := Some(zapper);
    calls := [GetDecimals(from), GetTokenBalance(to, zapper.address)];
    var fromDecimals := chain.decimals(from);
    var contractBalance := chain.tokenBalance(to, zapper.address);
    if fromDecimals.Reverted? {
      r := HandleError(fromDecimals.error, contract);
      HandleErrorKinds(fromDecimals.error, contract);
      return;
    } else if contractBalance.Reverted? {
      r := HandleError(contractBalance.error, contract);
      HandleErrorKinds(contractBalance.error, contract);
      return;
    }
    var amount := ParseUnits(value, fromDecimals.value);
    if amount.Reverted? {
      r := HandleError(amount.error, contract);
      HandleErrorKinds(amount.error, contract);
      return;
    }
    assert TokenReadsOk(zapper.address, from, to, value, chain);
    if !HasEnoughBalance(balanceOf, amount.value) {
      r := Resolved(Failure(NotEnoughBalance, contract));
      return;
    }
    if !ContractHasEnoughTokens(contractBalance.value, amount.value) {
      r := Resolved(Failure(NotEnoughContractFunds, contract));
      return;
    }
    var quoteCalls;
    r, quoteCalls := ZapTokenQuote(zapper, from, to, address, value, settings, chain);
    assert r.Resolved? && r.value.Failure? ==> Classifiable(r.value.error);
    calls := calls + quoteCalls;
  }

  /** What `estimateZapperMint` answers once its gates passed; `native` is a source
      with the symbol ETH, `from` and `to` the tokens' addresses, `balanceOf` the
      source balance: the fee data is the first chain call; its revert is
      classified with the zapper and ends the estimate; otherwise the answer of the
      native-coin or of the ERC20 path, over the calls after the fee data. */
  predicate ZapAnswer(zapper: Contract, native: bool, from: string, to: string, balanceOf: Option<nat>,
                      address: string, value: real, settings: Settings, chain: Chain,
                      r: Settled<Estimate>, calls: seq<ChainCall>)
    requires value > 0.0
  {
    && |calls| > 0 && calls[0] == GetFeeData
    && (chain.feeData.Reverted? ==> r == HandleError(chain.feeData.error, Some(zapper)) && calls == [GetFeeData])
    && (chain.feeData.Ok? && native ==> NativeAnswer(zapper, address, value, chain, r, calls[1..]))
    && (chain.feeData.Ok? && !native ==>
          TokenAnswer(zapper, from, to, balanceOf, address, value, settings, chain, r, calls[1..]))
  }

  /** What `estimateZapperMint` answers for the tokens' addresses `from` and `to`:
      the gates' answer without any chain call, else the answer after the gates. */
  predicate ZapOutcome(config: VenueConfig, mode: Mode, fromToken: Token, toToken: Token, from: string,
                       to: string, address: string, value: real, settings: Settings, chain: Chain,
                       r: Settled<Estimate>, calls: seq<ChainCall>)
    requires value > 0.0
  {
    var gate := Gate(config, mode, fromToken, toToken);
    && (gate.Some? ==> r == Resolved(gate.value) && calls == [])
    && (gate.None? ==>
          ZapAnswer(config.contract.value, fromToken.symbol == "ETH", from, to, fromToken.balanceOf, address,
                    value, settings, chain, r, calls))
  }

  /** `estimateZapperMint` after the gates: the fee data, then the native-coin or the
      ERC20 path. */
  method ZapAfterGates(zapper: Contract, native: bool, from: string, to: string, balanceOf: Option<nat>,
                       address: string, value: real, settings: Settings, chain: Chain)
    returns (r: Settled<Estimate>, calls: seq<ChainCall>)
    requires value > 0.0
    ensures ZapAnswer(zapper, native, from, to, balanceOf, address, value, settings, chain, r, calls)
  {
    calls := [GetFeeData];
    if chain.feeData.Reverted? {
      r := HandleError(chain.feeData.error, Some(zapper));
      return;
    }
    var pathCalls;
    if native {
      r, pathCalls := ZapNative(zapper, address, value, chain);
    } else {
      r, pathCalls := ZapToken(zapper, from, to, balanceOf, address, value, settings, chain);
    }
    calls := calls + pathCalls;
    assert calls[1..] == pathCalls;
  }

  /** `estimateZapperMint`: the gates, then the chain. */
  method EstimateZapperMint(config: VenueConfig, mode: Mode, fromToken: Token, toToken: Token,
                            address: string, value: real, settings: Settings, chain: Chain)
    returns (r: Settled<Estimate>, calls: seq<ChainCall>)
    requires value > 0.0
    ensures ZapOutcome(config, mode, fromToken, toToken, fromToken.address, toToken.address, address, value,
                       settings, chain, r, calls)
  {
    var gate := Gate(config, mode, fromToken, toToken);
    if gate.Some? {
      return Resolved(gate.value), [];
    }
    r, calls := ZapAfterGates(config.contract.value, fromToken.symbol == "ETH", fromToken.address,
                              toToken.address, fromToken.balanceOf, address, value, settings, chain);
  }
}
