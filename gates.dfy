/** What the venue estimators share: the two gates every one of them runs before
    touching the chain, the four venues that stop right after them, and the
    balance test, amount conversion and approval call of the real ones. */
module Gates {
  import opened SwapTypes
  import opened Units

  /** The venue's eligibility predicate, when present, rejects the request. */
  predicate Ineligible(config: VenueConfig, mode: Mode, fromToken: Token, toToken: Token) {
    config.canEstimateSwap.Some? && !config.canEstimateSwap.value(mode, fromToken, toToken)
  }

  /** The common prologue: a missing contract is UNKNOWN, then an ineligible request
      is UNSUPPORTED; None lets the venue-specific logic run. */
  function Gate(config: VenueConfig, mode: Mode, fromToken: Token, toToken: Token): (r: Option<Estimate>)
    ensures config.contract.None? ==> r == Some(Failure(Unknown, None))
    ensures config.contract.Some? ==>
      (r.Some? <==> Ineligible(config, mode, fromToken, toToken)) &&
      (r.Some? ==> r == Some(Failure(Unsupported, config.contract)))
  {
    if config.contract.None? then Some(Failure(Unknown, config.contract))
    else if Ineligible(config, mode, fromToken, toToken) then Some(Failure(Unsupported, config.contract))
    else None
  }

  /** Flipper, Uniswap V2, Uniswap V3 and SushiSwap: after the gates they always
      answer UNIMPLEMENTED, whatever the amount or the chain. */
  function EstimateUnimplemented(config: VenueConfig, mode: Mode, fromToken: Token, toToken: Token): (r: Estimate)
    ensures r.Failure? && r.contract == config.contract
    ensures r.error == Unknown <==> config.contract.None?
    ensures r.error == Unsupported <==> config.contract.Some? && Ineligible(config, mode, fromToken, toToken)
    ensures r.error == Unimplemented <==> config.contract.Some? && !Ineligible(config, mode, fromToken, toToken)
  {
    match Gate(config, mode, fromToken, toToken)
    case Some(failure) => failure
    case None => Failure(Unimplemented, config.contract)
  }

  /** A venue without an eligibility predicate is never UNSUPPORTED. */
  lemma AbsentPredicateAdmitsAll(config: VenueConfig, mode: Mode, fromToken: Token, toToken: Token)
    requires config.canEstimateSwap.None?
    ensures Gate(config, mode, fromToken, toToken).Some? <==> config.contract.None?
  {
  }

  /** `fromToken?.balanceOf && fromToken.balanceOf.gte(v)`: a missing balance is
      never enough. */
  predicate HasEnoughBalance(balanceOf: Option<nat>, v: nat) {
    balanceOf.Some? && balanceOf.value >= v
  }

  /** The request amount in the token's base units: its `decimals()` read, then
      `parseUnits`; the first of the two that fails decides the error. */
  function AmountIn(chain: Chain, token: string, value: real): (r: Read<nat>)
    requires value > 0.0
    ensures chain.decimals(token).Reverted? ==> r == Reverted(chain.decimals(token).error)
    ensures r.Ok? ==> r.value as real == Scale(value, chain.decimals(token).value)
  {
    match chain.decimals(token)
    case Reverted(e) => Reverted(e)
    case Ok(d) => ParseUnits(value, d)
  }

  function ApproveCall(token: string, spender: string, v: nat): Call {
    Call(token, "approve", [Addr(spender), Num(v)], None)
  }
}
