/** Values shared by every part of the swap estimator: the error taxonomy, tokens,
    venue configurations, prepared calls, estimates, and the chain reads the
    estimators perform (given here as data, since the chain itself is not modelled). */
module SwapTypes {

  datatype Option<+T> = None | Some(value: T) {
    function GetOr(default: T): T {
      if Some? then value else default
    }
  }

  /** A thrown error as the estimators see it: `e.data.message` (the provider's nested
      revert text) and `e.message`. None stands for `undefined`. */
  datatype RevertError = RevertError(dataMessage: Option<string>, message: Option<string>)

  /** One chain read (or local conversion that may throw): its value, or the error it raised. */
  datatype Read<+T> = Ok(value: T) | Reverted(error: RevertError)

  /** The error of a read that reverted; None for one that succeeded. */
  function ErrorOf<T>(r: Read<T>): (e: Option<RevertError>)
    ensures e.Some? <==> r.Reverted?
    ensures e.Some? ==> e.value == r.error
  {
    if r.Reverted? then Some(r.error) else None
  }

  /** How an estimator's promise settles: with an estimate, or rejected because an
      exception escaped its `catch` block. */
  datatype Settled<+T> = Resolved(value: T) | Rejected

  /** The closed error taxonomy ('UNKNOWN', 'UNSUPPORTED', ... in the source). */
  datatype ErrorKind =
    | Unknown
    | Unsupported
    | Unimplemented
    | NotEnoughBalance
    | NotEnoughContractFunds
    | PriceTooHigh
    | BelowPeg
    | NotEnoughLiquidity
    | NoLiquidityPool
    | RedeemTooLow
    | BadSwapRatio

  datatype Mode = Mint | Redeem | Wrap | Unwrap

  /** A registry entry or contract handle. `abi` is the list of the ABI items' names;
      the empty string stands for an undefined name, address or symbol. */
  datatype Contract = Contract(name: string, address: string, abi: seq<string>, symbol: string)

  /** A token object handed to the estimators. Its address is a field the Curve
      estimator overwrites in place; "" stands for a token without an address (ETH). */
  class Token {
    const symbol: string
    const balanceOf: Option<nat>
    var address: string

    constructor (symbol: string, address: string, balanceOf: Option<nat>)
      ensures this.symbol == symbol && this.address == address && this.balanceOf == balanceOf
    {
      this.symbol := symbol;
      this.address := address;
      this.balanceOf := balanceOf;
    }
  }

  /** One entry of `estimatesBy`: the venue's contract (possibly missing) and its
      optional eligibility predicate over (mode, fromToken, toToken). */
  datatype VenueConfig = VenueConfig(
    contract: Option<Contract>,
    canEstimateSwap: Option<(Mode, Token, Token) -> bool>)

  /** The slippage setting; `tolerance` is a percentage, None when undefined. */
  datatype Settings = Settings(tolerance: Option<real>)

  datatype Arg = Num(n: int) | Addr(a: string)

  /** A contract call: target, function, arguments and the `value` override, if any. */
  datatype Call = Call(address: string, functionName: string, args: seq<Arg>, valueOverride: Option<nat>)

  /** The prepared-call descriptor handed to the transaction layer. */
  datatype PrepareParams = PrepareParams(call: Call, abi: seq<string>, staleTime: Option<nat>)

  datatype FeeData = FeeData(gasPrice: Option<nat>)

  /** What one venue returns: an error kind, or a quote. */
  datatype Estimate =
    | Failure(error: ErrorKind, contract: Option<Contract>)
    | Success(
        contract: Option<Contract>,
        gasLimit: nat,
        receiveAmount: nat,
        minimumAmount: Option<int>,
        hasProvidedAllowance: bool,
        feeData: FeeData,
        prepareParams: Option<PrepareParams>,
        breakdown: Option<seq<(string, Option<nat>)>>,
        value: real)

  /** The chain I/O an estimator performs, in the order it issues it. */
  datatype ChainCall =
    | GetFeeData
    | GetDecimals(token: string)
    | GetTokenBalance(token: string, holder: string)
    | GetAllowance(token: string, owner: string, spender: string)
    | GetNativeBalance(holder: string)
    | ReadContract(contract: string, functionName: string)
    | EstimateGas(call: Call)

  /** The answers the chain gives during one round. Reads that take arguments are
      functions of those arguments. */
  datatype Chain = Chain(
    feeData: Read<FeeData>,
    nativeBalance: string -> Read<nat>,
    decimals: string -> Read<nat>,
    tokenBalance: (string, string) -> Read<nat>,
    allowance: (string, string, string) -> Read<nat>,
    estimateGas: (string, Call) -> Read<nat>,
    // vault reads, by vault address
    mintPrice: (string, string, string) -> Read<nat>,
    rebaseThreshold: string -> Read<nat>,
    autoAllocateThreshold: string -> Read<nat>,
    redeemFeeBps: string -> Read<nat>,
    redeemOutputs: (string, nat) -> Read<seq<nat>>,
    allAssets: string -> Read<seq<string>>,
    // Curve reads
    curveAddress: (string, nat) -> Read<string>,
    exchangeAmount: (string, string, string, string, nat) -> Read<nat>,
    poolCoins: (string, string, string) -> Read<seq<string>>)

  predicate HasGasEstimate(calls: seq<ChainCall>) {
    exists i :: 0 <= i < |calls| && calls[i].EstimateGas?
  }

  /** A trace made of two parts estimates gas exactly when one of the parts does. */
  lemma HasGasEstimateAppend(a: seq<ChainCall>, b: seq<ChainCall>)
    ensures HasGasEstimate(a + b) <==> HasGasEstimate(a) || HasGasEstimate(b)
  {
    if HasGasEstimate(a) {
      var i :| 0 <= i < |a| && a[i].EstimateGas?;
      assert (a + b)[i] == a[i];
    }
    if HasGasEstimate(b) {
      var i :| 0 <= i < |b| && b[i].EstimateGas?;
      assert (a + b)[|a| + i] == b[i];
    }
    if HasGasEstimate(a + b) {
      var i :| 0 <= i < |a + b| && (a + b)[i].EstimateGas?;
      if i >= |a| {
        assert b[i - |a|] == (a + b)[i];
      } else {
        assert a[i] == (a + b)[i];
      }
    }
  }
}
