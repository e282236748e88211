/** The revert-message classifier `handleError`: an ordered, first-match-wins
    substring test over the error's message. */
module Classifier {
  import opened SwapTypes

  /** `p` occurs in `t` starting at index `i`. */
  predicate OccursAt(t: string, p: string, i: nat) {
    i + |p| <= |t| && t[i..i + |p|] == p
  }

  /** `String.prototype.includes`: does `p` occur anywhere in `t`? */
  function Includes(t: string, p: string): bool
    decreases |t|
  {
    if |p| <= |t| && t[..|p|] == p then true
    else if |t| == 0 then false
    else Includes(t[1..], p)
  }

  /** Includes agrees with its definition as "occurs at some index". */
  lemma {:induction false} IncludesIff(t: string, p: string)
    ensures Includes(t, p) <==> exists i: nat :: i <= |t| && OccursAt(t, p, i)
    decreases |t|
  {
    if |p| <= |t| && t[..|p|] == p {
      assert OccursAt(t, p, 0);
    } else if |t| == 0 {
    } else {
      IncludesIff(t[1..], p);
      if exists i: nat :: i <= |t| && OccursAt(t, p, i) {
        var i: nat :| i <= |t| && OccursAt(t, p, i);
        assert i != 0;
        assert t[1..][i - 1..i - 1 + |p|] == t[i..i + |p|];
        assert OccursAt(t[1..], p, i - 1);
      }
      if exists j: nat :: j <= |t[1..]| && OccursAt(t[1..], p, j) {
        var j: nat :| j <= |t[1..]| && OccursAt(t[1..], p, j);
        assert t[1..][j..j + |p|] == t[j + 1..j + 1 + |p|];
        assert OccursAt(t, p, j + 1);
      }
    }
  }

  /** Whatever surrounds it, a phrase is found inside a message that carries it. */
  lemma IncludesInfix(pre: string, p: string, post: string)
    ensures Includes(pre + p + post, p)
  {
    var t := pre + p + post;
    assert t[|pre|..|pre| + |p|] == p;
    assert OccursAt(t, p, |pre|);
    IncludesIff(t, p);
  }

  /** A phrase longer than the message cannot occur in it. */
  lemma {:induction false} NotIncludesLonger(t: string, p: string)
    requires |p| > |t|
    ensures !Includes(t, p)
    decreases |t|
  {
    if |t| > 0 {
      NotIncludesLonger(t[1..], p);
    }
  }

  /** A phrase whose first character never appears in the message cannot occur in it. */
  lemma {:induction false} NotIncludesMissingHead(t: string, p: string)
    requires |p| > 0 && p[0] !in t
    ensures !Includes(t, p)
    decreases |t|
  {
    if |t| > 0 {
      assert t[0] != p[0];
      assert p[0] !in t[1..];
      NotIncludesMissingHead(t[1..], p);
    }
  }

  const MintTooLow := "Mint amount lower than minimum"
  const RedeemTooLowPhrase := "Redeem amount lower than minimum"
  const PriceBelowPeg := "Asset price below peg"
  const RedeemFailed := "Redeem failed"
  const RedeemExceedsBalance := "Redeem exceeds balance"
  const ReasonFive := "reverted with reason string '5'"
  const Insufficient3Crv := "Insufficient 3CRV balance"
  const NoMarket := "No available market"
  const FewerCoins := "Exchange resulted in fewer coins than expected"

  predicate PriceRule(m: string) { Includes(m, MintTooLow) || Includes(m, RedeemTooLowPhrase) }
  predicate PegRule(m: string) { Includes(m, PriceBelowPeg) }
  predicate LiquidityRule(m: string) {
    Includes(m, RedeemFailed) || Includes(m, RedeemExceedsBalance) ||
    Includes(m, ReasonFive) || Includes(m, Insufficient3Crv)
  }
  predicate MarketRule(m: string) { Includes(m, NoMarket) }
  predicate FewerCoinsRule(m: string) { Includes(m, FewerCoins) }

  /** The kinds the classifier can produce. */
  predicate Classifiable(k: ErrorKind) {
    k in {PriceTooHigh, BelowPeg, NotEnoughLiquidity, NoLiquidityPool, RedeemTooLow, Unknown}
  }

  /** The ordered rule list: the first rule whose phrase occurs decides the kind. */
  function Classify(m: string): (k: ErrorKind)
    ensures Classifiable(k)
    ensures PriceRule(m) ==> k == PriceTooHigh
    ensures k == BelowPeg <==> !PriceRule(m) && PegRule(m)
    ensures k == NotEnoughLiquidity <==> !PriceRule(m) && !PegRule(m) && LiquidityRule(m)
    ensures k == NoLiquidityPool <==> !PriceRule(m) && !PegRule(m) && !LiquidityRule(m) && MarketRule(m)
    ensures k == RedeemTooLow <==>
      !PriceRule(m) && !PegRule(m) && !LiquidityRule(m) && !MarketRule(m) && FewerCoinsRule(m)
    ensures k == Unknown <==>
      !PriceRule(m) && !PegRule(m) && !LiquidityRule(m) && !MarketRule(m) && !FewerCoinsRule(m)
  {
    if PriceRule(m) then PriceTooHigh
    else if PegRule(m) then BelowPeg
    else if LiquidityRule(m) then NotEnoughLiquidity
    else if MarketRule(m) then NoLiquidityPool
    else if FewerCoinsRule(m) then RedeemTooLow
    else Unknown
  }

  /** `e?.data?.message || e?.message`: the nested message when it is a non-empty
      string, else the top-level one (None when that is undefined too). */
  function ErrorMessage(e: RevertError): (m: Option<string>)
    ensures e.dataMessage.Some? && e.dataMessage.value != "" ==> m == e.dataMessage
    ensures (e.dataMessage.None? || e.dataMessage.value == "") ==> m == e.message
  {
    if e.dataMessage.Some? && e.dataMessage.value != "" then e.dataMessage else e.message
  }

  /** `handleError(e, contract)`: the classified failure carrying the given contract;
      it throws (`.includes` of undefined) when the error has no message at all. */
  function HandleError(e: RevertError, contract: Option<Contract>): (r: Settled<Estimate>)
    ensures r.Rejected? <==> ErrorMessage(e).None?
    ensures r.Resolved? ==> r.value == Failure(Classify(ErrorMessage(e).value), contract)
  {
    match ErrorMessage(e)
    case None => Rejected
    case Some(m) => Resolved(Failure(Classify(m), contract))
  }

  /** The classifier only ever yields failures from its own six kinds; in particular
      never a gate, balance or ratio error. */
  lemma HandleErrorKinds(e: RevertError, contract: Option<Contract>)
    ensures HandleError(e, contract).Resolved? ==>
      HandleError(e, contract).value.Failure? &&
      Classifiable(HandleError(e, contract).value.error) &&
      HandleError(e, contract).value.error !in
        {Unsupported, Unimplemented, NotEnoughBalance, NotEnoughContractFunds, BadSwapRatio}
  {
  }

  /** Any revert text carrying a minimum-amount phrase is PRICE_TOO_HIGH, whatever
      else it says; the nested provider message wins over the top-level one. */
  lemma MinimumPhraseIsPriceTooHigh(pre: string, post: string, top: Option<string>)
    ensures HandleError(RevertError(Some(pre + MintTooLow + post), top), None)
            == Resolved(Failure(PriceTooHigh, None))
    ensures HandleError(RevertError(Some(pre + RedeemTooLowPhrase + post), top), None)
            == Resolved(Failure(PriceTooHigh, None))
  {
    IncludesInfix(pre, MintTooLow, post);
    IncludesInfix(pre, RedeemTooLowPhrase, post);
  }

  /** The peg phrase alone classifies as BELOW_PEG: the two earlier phrases are
      longer than it and cannot occur. */
  lemma BelowPegExample()
    ensures Classify(PriceBelowPeg) == BelowPeg
  {
    NotIncludesLonger(PriceBelowPeg, MintTooLow);
    NotIncludesLonger(PriceBelowPeg, RedeemTooLowPhrase);
    IncludesInfix("", PriceBelowPeg, "");
  }

  /** An empty top-level message (and no nested one) is UNKNOWN; a missing one throws. */
  lemma EmptyMessageIsUnknown(c: Option<Contract>)
    ensures HandleError(RevertError(Some(""), Some("")), c) == Resolved(Failure(Unknown, c))
    ensures HandleError(RevertError(Some(""), None), c) == Rejected
  {
    NotIncludesLonger("", MintTooLow);
    NotIncludesLonger("", RedeemTooLowPhrase);
    NotIncludesLonger("", PriceBelowPeg);
    NotIncludesLonger("", RedeemFailed);
    NotIncludesLonger("", RedeemExceedsBalance);
    NotIncludesLonger("", ReasonFive);
    NotIncludesLonger("", Insufficient3Crv);
    NotIncludesLonger("", NoMarket);
    NotIncludesLonger("", FewerCoins);
  }

  /** The market phrase alone is NO_LIQUIDITY_POOL. */
  lemma NoMarketExample(m: string)
    requires m == "No available market"
    ensures Classify(m) == NoLiquidityPool
  {
    NoMarketMatchesNoEarlierRule(m);
    IncludesInfix("", m, "");
    assert "" + m + "" == m;
  }

  lemma NoMarketMatchesNoEarlierRule(m: string)
    requires m == "No available market"
    ensures !PriceRule(m) && !PegRule(m) && !LiquidityRule(m)
  {
    NotIncludesLonger(m, MintTooLow);
    NotIncludesLonger(m, RedeemTooLowPhrase);
    NotIncludesLonger(m, PriceBelowPeg);
    NotIncludesMissingHead(m, RedeemFailed);
    NotIncludesLonger(m, RedeemExceedsBalance);
    NotIncludesLonger(m, ReasonFive);
    NotIncludesLonger(m, Insufficient3Crv);
  }

  /** A plain revert text that carries none of the phrases is UNKNOWN. */
  lemma UnrecognizedExample(u: string)
    requires u == "execution reverted"
    ensures Classify(u) == Unknown
  {
    NotIncludesLonger(u, MintTooLow);
    NotIncludesLonger(u, RedeemTooLowPhrase);
    NotIncludesLonger(u, PriceBelowPeg);
    NotIncludesMissingHead(u, RedeemFailed);
    NotIncludesLonger(u, RedeemExceedsBalance);
    NotIncludesLonger(u, ReasonFive);
    NotIncludesLonger(u, Insufficient3Crv);
    NotIncludesLonger(u, NoMarket);
    NotIncludesLonger(u, FewerCoins);
  }

  /** The faults raised by local BigNumber conversions are shorter than every phrase,
      so an estimator that hits one reports UNKNOWN. */
  lemma ShortMessageIsUnknown(m: string)
    requires |m| < |RedeemFailed|
    ensures Classify(m) == Unknown
  {
    NotIncludesLonger(m, MintTooLow);
    NotIncludesLonger(m, RedeemTooLowPhrase);
    NotIncludesLonger(m, PriceBelowPeg);
    NotIncludesLonger(m, RedeemFailed);
    NotIncludesLonger(m, RedeemExceedsBalance);
    NotIncludesLonger(m, ReasonFive);
    NotIncludesLonger(m, Insufficient3Crv);
    NotIncludesLonger(m, NoMarket);
    NotIncludesLonger(m, FewerCoins);
  }
}
