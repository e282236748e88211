/** `useSwapEstimator`: the venue lookup, one estimation round over the configured
    venues (in key order) and the hook's observable state: the loading flag and the
    arguments handed to `onEstimate`. */
module Estimator {
  import opened SwapTypes
  import opened Gates
  import Registry
  import VaultVenue
  import ZapperVenue
  import CurveVenue
  import Ranking

  datatype Venue = VaultMint | VaultRedeem | Zapper | Flipper | UniswapV2 | UniswapV3 | SushiSwap | Curve

  /** The four venues that answer after their gates only. */
  predicate IsStub(v: Venue) {
    v == Flipper || v == UniswapV2 || v == UniswapV3 || v == SushiSwap
  }

  /** The keys the lookup table knows. */
  const Keys: set<string> := {"vault", "zapper", "flipper", "uniswapV2", "uniswapV3", "sushiswap", "curve"}

  /** `estimateLookup[key]`: "vault" picks mint or redeem by mode; any other key
      than the seven has no estimator. */
  function Lookup(key: string, mode: Mode): (v: Option<Venue>)
    ensures v.None? <==> key !in Keys
    ensures v == Some(VaultMint) <==> key == "vault" && mode == Mint
    ensures v == Some(VaultRedeem) <==> key == "vault" && mode != Mint
    ensures v == Some(Curve) <==> key == "curve"
  {
    match key
    case "vault" => Some(if mode == Mint then VaultMint else VaultRedeem)
    case "zapper" => Some(Zapper)
    case "flipper" => Some(Flipper)
    case "uniswapV2" => Some(UniswapV2)
    case "uniswapV3" => Some(UniswapV3)
    case "sushiswap" => Some(SushiSwap)
    case "curve" => Some(Curve)
    case _ => None
  }

  /** What any venue may do to the caller's token objects: at most fill an empty
      address with the null address. */
  twostate predicate OnlyFillsAddress(t: Token)
    reads t
  {
    t.address == old(t.address) || (old(t.address) == "" && t.address == Registry.NullAddress)
  }

  /** What one venue's estimator answers, `from` and `to` being the tokens'
      addresses when it starts: each implemented venue as its own module states
      it (Curve against the static contract table), and the four stubs the stubs'
      answer without a chain call. */
  predicate VenueOutcome(venue: Venue, config: VenueConfig, mode: Mode, fromToken: Token, toToken: Token,
                         from: string, to: string, address: string, value: real, settings: Settings, chain: Chain,
                         r: Settled<Estimate>, calls: seq<ChainCall>)
    requires value > 0.0
  {
    match venue
    case VaultMint =>
      VaultVenue.MintOutcome(config, mode, fromToken, toToken, from, to, address, value, settings, chain, r, calls)
    case VaultRedeem =>
      VaultVenue.RedeemOutcome(config, mode, fromToken, toToken, from, address, value, settings, chain, r, calls)
    case Zapper =>
      ZapperVenue.ZapOutcome(config, mode, fromToken, toToken, from, to, address, value, settings, chain, r, calls)
    case Curve =>
      assert "OUSD" in Registry.Mainnet && "OETH" in Registry.Mainnet;
      CurveVenue.CurveSwapOutcome(config, mode, fromToken, toToken, from, to, address, value, settings,
                                  Registry.Mainnet, chain, r, calls)
    case _ => r == Resolved(EstimateUnimplemented(config, mode, fromToken, toToken)) && calls == []
  }

  /** One venue's estimator, run against the static contract table. */
  method RunVenue(venue: Venue, config: VenueConfig, mode: Mode, fromToken: Token, toToken: Token,
                  address: string, value: real, settings: Settings, chain: Chain)
    returns (r: Settled<Estimate>, calls: seq<ChainCall>)
    requires value > 0.0
    modifies fromToken, toToken
    ensures Gate(config, mode, fromToken, toToken).Some? ==>
      r == Resolved(Gate(config, mode, fromToken, toToken).value) && calls == []
    ensures VenueOutcome(venue, config, mode, fromToken, toToken, old(fromToken.address), old(toToken.address),
                         address, value, settings, chain, r, calls)
    ensures IsStub(venue) ==> r == Resolved(EstimateUnimplemented(config, mode, fromToken, toToken)) && calls == []
    ensures venue != Curve ==> unchanged(fromToken, toToken)
    ensures OnlyFillsAddress(fromToken) && OnlyFillsAddress(toToken)
  {
    match venue
    case VaultMint =>
      r, calls := VaultVenue.EstimateVaultMint(config, mode, fromToken, toToken, address, value, settings, chain);
    case VaultRedeem =>
      r, calls := VaultVenue.EstimateVaultRedeem(config, mode, fromToken, toToken, address, value, settings, chain);
    case Zapper =>
      r, calls := ZapperVenue.EstimateZapperMint(config, mode, fromToken, toToken, address, value, settings, chain);
    case Curve =>
      assert "OUSD" in Registry.Mainnet && "OETH" in Registry.Mainnet;
      r, calls := CurveVenue.EstimateCurveSwap(config, mode, fromToken, toToken, address, value, settings,
                                               Registry.Mainnet, chain);
    case _ =>
      r, calls := Resolved(EstimateUnimplemented(config, mode, fromToken, toToken)), [];
  }

  // ---------------------------------------------------------------------------
  // The end of a round

  /** Every key had an estimator and every estimator settled. */
  predicate AllResolved(outcomes: seq<Option<Settled<Estimate>>>) {
    forall k :: 0 <= k < |outcomes| ==> outcomes[k].Some? && outcomes[k].value.Resolved?
  }

  function Values(outcomes: seq<Option<Settled<Estimate>>>): (es: seq<Estimate>)
    requires AllResolved(outcomes)
    ensures |es| == |outcomes| && forall k :: 0 <= k < |es| ==> es[k] == outcomes[k].value.value
  {
    if |outcomes| == 0 then [] else [outcomes[0].value.value] + Values(outcomes[1..])
  }

  /** What a round hands to `onEstimate`: None when `Promise.all` rejects, when a
      key had no estimator (its `undefined` makes the enrichment throw) or when the
      enrichment throws; otherwise the ranking. */
  function RankRound(outcomes: seq<Option<Settled<Estimate>>>, usdConversionPrice: Option<real>)
    : (r: Option<seq<Ranking.Ranked>>)
    ensures r.Some? <==> AllResolved(outcomes) && Ranking.RankEstimates(Values(outcomes), usdConversionPrice).Some?
    ensures r.Some? ==> r == Ranking.RankEstimates(Values(outcomes), usdConversionPrice)
  {
    if AllResolved(outcomes) then Ranking.RankEstimates(Values(outcomes), usdConversionPrice) else None
  }

  /** A key without an estimator, or one estimator that rejects, fails the round. */
  lemma OneBadOutcomeFailsRound(outcomes: seq<Option<Settled<Estimate>>>, usd: Option<real>, k: nat)
    requires k < |outcomes| && (outcomes[k].None? || outcomes[k].value.Rejected?)
    ensures RankRound(outcomes, usd).None?
  {
  }

  /** A published ranking is in ascending effective-price order and holds exactly
      the quotes and the UNSUPPORTED answers of the round. */
  lemma PublishedRankingIsSorted(outcomes: seq<Option<Settled<Estimate>>>, usd: Option<real>)
    requires RankRound(outcomes, usd).Some?
    ensures Ranking.Sorted(RankRound(outcomes, usd).value)
    ensures multiset(Ranking.EstimatesOf(RankRound(outcomes, usd).value)) ==
            multiset(Ranking.KeptEstimates(Values(outcomes)))
  {
    Ranking.RankEstimatesSorted(Values(outcomes), usd);
    Ranking.RankEstimatesKeeps(Values(outcomes), usd);
  }

  /** A round in which every venue failed with anything but UNSUPPORTED publishes
      the empty ranking. */
  lemma {:induction false} AllFailuresPublishEmpty(outcomes: seq<Option<Settled<Estimate>>>, usd: Option<real>)
    requires AllResolved(outcomes)
    requires forall k :: 0 <= k < |outcomes| ==>
      outcomes[k].value.value.Failure? && outcomes[k].value.value.error != Unsupported
    ensures RankRound(outcomes, usd) == Some([])
  {
    var es := Values(outcomes);
    NoKeptEstimates(es, usd);
  }

  lemma {:induction false} NoKeptEstimates(es: seq<Estimate>, usd: Option<real>)
    requires forall k :: 0 <= k < |es| ==> es[k].Failure? && es[k].error != Unsupported
    ensures Ranking.EnrichAll(es, usd) == Some([])
  {
    if |es| > 0 {
      NoKeptEstimates(es[1..], usd);
      assert Ranking.Enrich(es[0], usd).Dropped?;
    }
  }

  /** One key's entry in a round: the estimator's outcome (None when the key has
      none), the chain calls it made, and the tokens' addresses it started from. */
  datatype KeyRun = KeyRun(outcome: Option<Settled<Estimate>>, calls: seq<ChainCall>, from: string, to: string)

  /** The outcomes `Promise.all` collects, in key order. */
  function Outcomes(runs: seq<KeyRun>): (os: seq<Option<Settled<Estimate>>>)
    ensures |os| == |runs| && forall k :: 0 <= k < |runs| ==> os[k] == runs[k].outcome
  {
    seq(|runs|, k requires 0 <= k < |runs| => runs[k].outcome)
  }

  /** What the round promises about one key: no outcome exactly when the key has
      no estimator, and then no chain call; the gates' answer when they stop the
      venue; the stubs' answer for the four unimplemented venues; and for every
      key with an estimator, the answer that venue gives from the addresses the
      key started with. */
  predicate KeyOutcome(key: string, config: VenueConfig, mode: Mode, fromToken: Token, toToken: Token,
                       address: string, value: real, settings: Settings, chain: Chain, run: KeyRun)
    requires value > 0.0
  {
    && (run.outcome.None? <==> key !in Keys)
    && (run.outcome.None? ==> run.calls == [])
    && (key in Keys && Gate(config, mode, fromToken, toToken).Some? ==>
          run.outcome == Some(Resolved(Gate(config, mode, fromToken, toToken).value)))
    && (Lookup(key, mode).Some? && IsStub(Lookup(key, mode).value) ==>
          run.outcome == Some(Resolved(EstimateUnimplemented(config, mode, fromToken, toToken))))
    && (Lookup(key, mode).Some? ==>
          run.outcome.Some? &&
          VenueOutcome(Lookup(key, mode).value, config, mode, fromToken, toToken, run.from, run.to, address, value,
                       settings, chain, run.outcome.value, run.calls))
  }

  /** What the round promises about its first |runs| keys: each run is the key's
      outcome as `KeyOutcome` states it. */
  predicate RoundOutcome(estimatesBy: seq<(string, VenueConfig)>, mode: Mode, fromToken: Token, toToken: Token,
                         address: string, value: real, settings: Settings, chain: Chain, runs: seq<KeyRun>)
    requires value > 0.0
    decreases |runs|
  {
    && |runs| <= |estimatesBy|
    && (|runs| > 0 ==>
          && RoundOutcome(estimatesBy, mode, fromToken, toToken, address, value, settings, chain, runs[..|runs| - 1])
          && KeyOutcome(estimatesBy[|runs| - 1].0, estimatesBy[|runs| - 1].1, mode, fromToken, toToken, address,
                        value, settings, chain, runs[|runs| - 1]))
  }

  /** A round's outcome extends by the outcome of its next key. */
  lemma RoundOutcomeSnoc(estimatesBy: seq<(string, VenueConfig)>, mode: Mode, fromToken: Token, toToken: Token,
                         address: string, value: real, settings: Settings, chain: Chain, runs: seq<KeyRun>,
                         run: KeyRun)
    requires value > 0.0 && |runs| < |estimatesBy|
    requires RoundOutcome(estimatesBy, mode, fromToken, toToken, address, value, settings, chain, runs)
    requires KeyOutcome(estimatesBy[|runs|].0, estimatesBy[|runs|].1, mode, fromToken, toToken, address, value,
                        settings, chain, run)
    ensures RoundOutcome(estimatesBy, mode, fromToken, toToken, address, value, settings, chain, runs + [run])
  {
    assert (runs + [run])[..|runs|] == runs;
  }

  /** Every key of a round ends as `KeyOutcome` states. */
  lemma {:induction false} RoundOutcomeAt(estimatesBy: seq<(string, VenueConfig)>, mode: Mode, fromToken: Token,
                                          toToken: Token, address: string, value: real, settings: Settings,
                                          chain: Chain, runs: seq<KeyRun>, k: nat)
    requires value > 0.0 && k < |runs|
    requires RoundOutcome(estimatesBy, mode, fromToken, toToken, address, value, settings, chain, runs)
    ensures KeyOutcome(estimatesBy[k].0, estimatesBy[k].1, mode, fromToken, toToken, address, value, settings, chain,
                       runs[k])
    decreases |runs|
  {
    if k < |runs| - 1 {
      RoundOutcomeAt(estimatesBy, mode, fromToken, toToken, address, value, settings, chain, runs[..|runs| - 1], k);
    }
  }

  /** One entry of the round: the key's estimator, when the table has one, run to
      its outcome. */
  method RunKey(key: string, config: VenueConfig, mode: Mode, fromToken: Token, toToken: Token,
                address: string, value: real, settings: Settings, chain: Chain)
    returns (run: KeyRun)
    requires value > 0.0
    modifies fromToken, toToken
    ensures run.from == old(fromToken.address) && run.to == old(toToken.address)
    ensures KeyOutcome(key, config, mode, fromToken, toToken, address, value, settings, chain, run)
    ensures key != "curve" ==> unchanged(fromToken, toToken)
    ensures OnlyFillsAddress(fromToken) && OnlyFillsAddress(toToken)
  {
    var from, to := fromToken.address, toToken.address;
    var venue := Lookup(key, mode);
    if venue.None? {
      return KeyRun(None, [], from, to);
    }
    var r, calls := RunVenue(venue.value, config, mode, fromToken, toToken, address, value, settings, chain);
    run := KeyRun(Some(r), calls, from, to);
  }

  /** The position of the first "curve" key, |estimatesBy| when there is none. */
  function FirstCurve(estimatesBy: seq<(string, VenueConfig)>): (n: nat)
    ensures n <= |estimatesBy|
    ensures forall j :: 0 <= j < n ==> estimatesBy[j].0 != "curve"
    ensures n < |estimatesBy| ==> estimatesBy[n].0 == "curve"
  {
    if |estimatesBy| == 0 then 0
    else if estimatesBy[0].0 == "curve" then 0
    else 1 + FirstCurve(estimatesBy[1..])
  }

  /** The estimators of a round, one per configured key, in key order. Only the
      Curve estimator repairs the token objects, so every key before the first
      "curve" starts from the caller's addresses. */
  method RunRound(estimatesBy: seq<(string, VenueConfig)>, mode: Mode, fromToken: Token, toToken: Token,
                  address: string, value: real, settings: Settings, chain: Chain)
    returns (runs: seq<KeyRun>)
    requires value > 0.0
    modifies fromToken, toToken
    ensures |runs| == |estimatesBy|
    ensures RoundOutcome(estimatesBy, mode, fromToken, toToken, address, value, settings, chain, runs)
    ensures forall k :: 0 <= k <= FirstCurve(estimatesBy) && k < |runs| ==>
      runs[k].from == old(fromToken.address) && runs[k].to == old(toToken.address)
    ensures FirstCurve(estimatesBy) == |estimatesBy| ==> unchanged(fromToken, toToken)
    ensures OnlyFillsAddress(fromToken) && OnlyFillsAddress(toToken)
  {
    runs := [];
    var i := 0;
    while i < |estimatesBy|
      invariant 0 <= i <= |estimatesBy| && |runs| == i
      invariant RoundOutcome(estimatesBy, mode, fromToken, toToken, address, value, settings, chain, runs)
      invariant forall k :: 0 <= k <= FirstCurve(estimatesBy) && k < i ==>
        runs[k].from == old(fromToken.address) && runs[k].to == old(toToken.address)
      invariant i <= FirstCurve(estimatesBy) ==> unchanged(fromToken, toToken)
      invariant OnlyFillsAddress(fromToken) && OnlyFillsAddress(toToken)
    {
      var run := RunKey(estimatesBy[i].0, estimatesBy[i].1, mode, fromToken, toToken, address, value,
                        settings, chain);
      RoundOutcomeSnoc(estimatesBy, mode, fromToken, toToken, address, value, settings, chain, runs, run);
      runs := runs + [run];
      i := i + 1;
    }
  }

  /** How a round ended: skipped for a non-positive amount, completed with a
      ranking, or failed. */
  datatype RoundEnd = Skipped | Completed | Failed

  /** The hook: whether a round is in flight, and every value handed to
      `onEstimate` so far (None is `onEstimate(null)`). */
  class SwapEstimator {
    var isLoading: bool
    var published: seq<Option<seq<Ranking.Ranked>>>

    constructor ()
      ensures !isLoading && published == []
    {
      isLoading := false;
      published := [];
    }

    /** The effect that watches the inputs: it raises the loading flag before the
        (debounced) round starts. */
    method InputsChanged()
      modifies this
      ensures isLoading && published == old(published)
    {
      isLoading := true;
    }

    /** `onFetchEstimations`: a non-positive amount publishes null; otherwise every
        configured key is looked up and its estimator run, in key order, and the
        round publishes the ranking or, when it throws, nothing. The loading flag
        is down at the end either way. */
    method FetchEstimations(estimatesBy: seq<(string, VenueConfig)>, mode: Mode, fromToken: Token,
                            toToken: Token, address: string, value: real, settings: Settings,
                            usdConversionPrice: Option<real>, chain: Chain)
      returns (end: RoundEnd, runs: seq<KeyRun>)
      modifies this, fromToken, toToken
      ensures !isLoading
      ensures value <= 0.0 ==>
        end == Skipped && runs == [] && published == old(published) + [None] &&
        unchanged(fromToken, toToken)
      ensures value > 0.0 ==> |runs| == |estimatesBy|
      ensures value > 0.0 ==>
        RoundOutcome(estimatesBy, mode, fromToken, toToken, address, value, settings, chain, runs)
      ensures value > 0.0 ==> forall k :: 0 <= k <= FirstCurve(estimatesBy) && k < |runs| ==>
        runs[k].from == old(fromToken.address) && runs[k].to == old(toToken.address)
      ensures value > 0.0 && RankRound(Outcomes(runs), usdConversionPrice).Some? ==>
        end == Completed && published == old(published) + [RankRound(Outcomes(runs), usdConversionPrice)]
      ensures value > 0.0 && RankRound(Outcomes(runs), usdConversionPrice).None? ==>
        end == Failed && published == old(published)
      ensures FirstCurve(estimatesBy) == |estimatesBy| ==> unchanged(fromToken, toToken)
      ensures OnlyFillsAddress(fromToken) && OnlyFillsAddress(toToken)
    {
      if value <= 0.0 {
        isLoading := false;
        published := published + [None];
        return Skipped, [];
      }
      runs := RunRound(estimatesBy, mode, fromToken, toToken, address, value, settings, chain);
      end := Publish(Outcomes(runs), usdConversionPrice);
    }

    /** The end of a round that ran: the ranking is handed to `onEstimate` unless
        building it throws; the loading flag goes down either way. */
    method Publish(outcomes: seq<Option<Settled<Estimate>>>, usdConversionPrice: Option<real>)
      returns (end: RoundEnd)
      modifies this
      ensures !isLoading
      ensures RankRound(outcomes, usdConversionPrice).Some? ==>
        end == Completed && published == old(published) + [RankRound(outcomes, usdConversionPrice)]
      ensures RankRound(outcomes, usdConversionPrice).None? ==> end == Failed && published == old(published)
    {
      var ranking := RankRound(outcomes, usdConversionPrice);
      if ranking.Some? {
        published := published + [ranking];
        end := Completed;
      } else {
        end := Failed;
      }
      isLoading := false;
    }
  }
}
