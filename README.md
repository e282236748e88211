# Swap estimator model

A Dafny model of the swap estimator of the Origin Protocol dapp
(`useSwapEstimator` in `packages/hooks/src/useSwapEstimator.ts`). Given an
amount, a pair of tokens and a table of configured venues, the estimator asks
every venue for a quote and then ranks the answers:

- the error classifier `handleError` turns a revert into a swap error kind;
- the per-venue estimators are the Origin vault (mint and redeem), the OETH
  zapper and Curve. Flipper, Uniswap V2, Uniswap V3 and SushiSwap stop after
  their gates;
- the ranking `enrichAndSortEstimates` prices every quote in USD terms, drops
  errors other than UNSUPPORTED and sorts by effective price;
- the hook runs one round over the configured venues and publishes the ranking
  through `onEstimate`, keeping an `isLoading` flag.

The model is organised as follows:

| file | module | what it holds |
|---|---|---|
| `types.dfy` | `SwapTypes` | errors, estimates, contracts, calls, and the `Token` class whose `address` Curve repairs in place |
| `units.dfy` | `Units` | `parseUnits`/`formatUnits` over exact decimals, and the slippage minimum |
| `classifier.dfy` | `Classifier` | `handleError` |
| `registry.dfy` | `Registry` | the contract-table entries the Curve estimator reads |
| `gates.dfy` | `Gates` | the shared gates and the four stub venues |
| `vault.dfy` | `VaultVenue` | `estimateVaultMint` and `estimateVaultRedeem` |
| `zapper.dfy` | `ZapperVenue` | `estimateZapperMint` |
| `curve.dfy` | `CurveVenue` | `estimateCurveSwap` |
| `ranking.dfy` | `Ranking` | `enrichAndSortEstimates` |
| `estimator.dfy` | `Estimator` | the venue lookup, the round, and the hook state as a class |

Chain and RPC reads are not performed. They are fields of a `Chain` value: each
read is a function of its arguments that answers `Ok(x)` or `Reverted(error)`.
Every estimator is a method that returns its settled result and the trace of
chain calls it issued. `Rejected` means the estimator's promise itself rejects:
`handleError` throws when the error has no message.

The model follows the code where it behaves unexpectedly:

- The effective price adds the raw input amount, not its USD value, to the USD
  gas cost (`Ranking.EffectivePrice`).
- The zapper reports NOT_ENOUGH_CONTRACT_FUNDS when its token balance is *at
  least* the amount (`ZapperVenue.ContractHasEnoughTokens`).
- The Curve branch for OETH reads the key `CurveOETHPool`, which the contract
  table does not have (it has `CurveOETHMetaPool`). So every OETH swap through
  Curve answers NO_LIQUIDITY_POOL (`CurveVenue.MainnetOETHHasNoPool`).
- When neither token has an address, Curve repairs only the source token
  (`CurveVenue.NormalizeBothMissing`).
- Curve's swap-ratio guard compares amounts that may have different decimals
  (`CurveVenue.SwapRatioIgnoresDecimals`).
- A key of the venue table that has no estimator makes the whole round fail
  (`Estimator.OneBadOutcomeFailsRound`).
- The slippage tolerance is a percentage: the code multiplies it by 100 into
  basis points (`Units.SlippageBps`), so a tolerance of 1 keeps 99%
  (`Units.MinimumAmountExample`).

## Model

| member | source | states |
|---|---|---|
| Units.ParseUnits | packages/hooks/src/useSwapEstimator.ts:260 | `parseUnits` succeeds exactly when the amount scaled by the decimals is a whole number, and then returns that number; otherwise it fails with the fractional-component error |
| Units.ParseFormatRoundTrip | packages/hooks/src/useSwapEstimator.ts:286-294 | formatting base units and parsing them back at the same decimals gives back the same base units |
| Units.TruncDiv | packages/hooks/src/useSwapEstimator.ts:297 | BigNumber division rounds toward zero: the quotient times the divisor is the multiple of the divisor nearest the numerator on the side of zero, for either sign |
| Units.TruncDivOdd | packages/hooks/src/useSwapEstimator.ts:297 | negating the numerator negates the quotient |
| Units.SlippageBps | packages/hooks/src/useSwapEstimator.ts:297 | `tolerance * 100` becomes a BigNumber only when the tolerance is present and `tolerance * 100` is whole, and then it equals that product |
| Units.MinimumAmountBounds | packages/hooks/src/useSwapEstimator.ts:296-298 | for a tolerance between 0 and 100 percent, the minimum lies between 0 and the amount |
| Units.MinimumAmountIsCeiling | packages/hooks/src/useSwapEstimator.ts:296-298 | `v - v*bps/10000` is the ceiling of `v*(10000-bps)/10000` |
| Units.MinimumAmountAntitone | packages/hooks/src/useSwapEstimator.ts:296-298 | a larger tolerance never raises the minimum amount |
| Units.MinimumAmountExample | packages/hooks/src/useSwapEstimator.ts:296-298 | a 1% tolerance on 1000 tokens of 18 decimals gives a minimum of 990 tokens |
| Classifier.IncludesIff | packages/hooks/src/useSwapEstimator.ts:124 | `includes` holds exactly when the phrase occurs at some position of the message |
| Classifier.IncludesInfix | packages/hooks/src/useSwapEstimator.ts:124 | a message that embeds a phrase includes it |
| Classifier.ErrorMessage | packages/hooks/src/useSwapEstimator.ts:121 | `data.message` is used when non-empty, otherwise the top-level `message` |
| Classifier.Classify | packages/hooks/src/useSwapEstimator.ts:123-163 | the first matching rule decides: each kind is returned exactly when every earlier rule fails and its own matches; UNKNOWN when none matches |
| Classifier.HandleError | packages/hooks/src/useSwapEstimator.ts:118-164 | throws exactly when there is no message; otherwise it is a failure with the classified kind and the given contract |
| Classifier.HandleErrorKinds | packages/hooks/src/useSwapEstimator.ts:118-164 | the classifier only ever answers one of its six kinds |
| Classifier.MinimumPhraseIsPriceTooHigh | packages/hooks/src/useSwapEstimator.ts:123-130 | any data message containing either "lower than minimum" phrase is PRICE_TOO_HIGH |
| Classifier.BelowPegExample | packages/hooks/src/useSwapEstimator.ts:131-135 | the peg phrase alone is BELOW_PEG |
| Classifier.EmptyMessageIsUnknown | packages/hooks/src/useSwapEstimator.ts:121-163 | an empty data message falls back to `message`: an empty one is UNKNOWN, a missing one throws |
| Classifier.NoMarketExample | packages/hooks/src/useSwapEstimator.ts:146-150 | "No available market" is NO_LIQUIDITY_POOL |
| Classifier.NoMarketMatchesNoEarlierRule | packages/hooks/src/useSwapEstimator.ts:123-146 | "No available market" matches none of the three earlier rules |
| Classifier.UnrecognizedExample | packages/hooks/src/useSwapEstimator.ts:160-163 | a plain "execution reverted" is UNKNOWN |
| Classifier.ShortMessageIsUnknown | packages/hooks/src/useSwapEstimator.ts:123-163 | a message shorter than every phrase is UNKNOWN |
| Registry.AddressOf | packages/hooks/src/useSwapEstimator.ts:835 | `?.address` of a missing table key is undefined |
| Gates.Gate | packages/hooks/src/useSwapEstimator.ts:209-226 | a missing contract gives UNKNOWN; otherwise UNSUPPORTED exactly when the eligibility predicate is present and rejects; otherwise the venue proceeds |
| Gates.EstimateUnimplemented | packages/hooks/src/useSwapEstimator.ts:652-683 | Flipper (and likewise Uniswap V2, Uniswap V3 and SushiSwap) answers UNKNOWN, UNSUPPORTED or UNIMPLEMENTED, each exactly under its gate condition, always with the configured contract |
| Gates.AbsentPredicateAdmitsAll | packages/hooks/src/useSwapEstimator.ts:214-221 | without an eligibility predicate only a missing contract stops a venue |
| Gates.AmountIn | packages/hooks/src/useSwapEstimator.ts:253-260 | a failed `decimals()` read is the error; a successful amount equals the request scaled by the token's decimals |
| VaultVenue.FindConverter | packages/hooks/src/useSwapEstimator.ts:273-276 | `find` returns the first ABI entry named `priceUnitMint` or `priceUSDMint`, and nothing exactly when there is none |
| VaultVenue.MintReceiveAmount | packages/hooks/src/useSwapEstimator.ts:286-294 | without an oracle price the amount is the request at the target decimals; with one, it is the request times the price scaled to the source decimals |
| VaultVenue.MintAtParPrice | packages/hooks/src/useSwapEstimator.ts:286-294 | a price of exactly one unit gives the same amount as no price |
| VaultVenue.ApprovalGasTier | packages/hooks/src/useSwapEstimator.ts:309-317 | the mint gas is 2900000 exactly above the auto-allocate threshold, 510000 exactly above the rebase threshold otherwise, else 220000 |
| VaultVenue.ApprovalGasTierMonotone | packages/hooks/src/useSwapEstimator.ts:309-317 | a larger amount never gets a lower gas tier |
| VaultVenue.QuoteMint | packages/hooks/src/useSwapEstimator.ts:273-357 | once the balance suffices, a mint quote either carries the approval tier plus the approval gas (allowance short) or the mint call's gas, the prepared `mint` call and the slippage minimum; every failure is classified with the vault |
| VaultVenue.MintReadError | packages/hooks/src/useSwapEstimator.ts:233-260 | there is no revert before the balance gate exactly when the fee data, the allowance, both decimals and the amount conversion all read |
| VaultVenue.MintAfterGates | packages/hooks/src/useSwapEstimator.ts:233-361 | after the gates: a reverted fee-data read or any later reverted read is `handleError` of the first one in source order with the vault; NOT_ENOUGH_BALANCE exactly when the reads succeed and the balance is missing or short, with no gas estimate; otherwise a mint quote |
| VaultVenue.EstimateVaultMint | packages/hooks/src/useSwapEstimator.ts:200-361 | the gates first, with no chain calls; then the fee data; the first reverted read, in source order, is the answer through `handleError` with the vault; NOT_ENOUGH_BALANCE exactly when the reads succeed and the balance is missing or short, with no gas estimate; a success is a mint quote |
| VaultVenue.Assign | packages/hooks/src/useSwapEstimator.ts:434 | assigning a new key appends it; assigning a present key keeps the object's size |
| VaultVenue.ZipObjectDistinct | packages/hooks/src/useSwapEstimator.ts:434 | with distinct assets the zipped object pairs each asset with the output at its index, in order |
| VaultVenue.ZipObjectRepeatedKey | packages/hooks/src/useSwapEstimator.ts:434 | a repeated asset keeps its first position and its last output |
| VaultVenue.SumValues | packages/hooks/src/useSwapEstimator.ts:436-441 | the reduce throws exactly when some value is undefined |
| VaultVenue.RedeemSumsOutputs | packages/hooks/src/useSwapEstimator.ts:429-441 | with distinct assets the receive amount is the sum of the first outputs, one per asset |
| VaultVenue.RedeemShortOutputsThrow | packages/hooks/src/useSwapEstimator.ts:429-441 | fewer outputs than assets make the sum throw |
| VaultVenue.RedeemMixExample | packages/hooks/src/useSwapEstimator.ts:429-441 | outputs 200, 150 and 150 over three assets receive 500 |
| VaultVenue.QuoteRedeem | packages/hooks/src/useSwapEstimator.ts:428-469 | a redeem quote carries the summed outputs, their breakdown, the `redeem` gas and call with the slippage minimum; every failure is classified with the vault |
| VaultVenue.RedeemReadError | packages/hooks/src/useSwapEstimator.ts:396-420 | there is no revert before the balance gate exactly when the fee data, the source decimals, the redeem fee and the amount conversion all read |
| VaultVenue.RedeemAfterGates | packages/hooks/src/useSwapEstimator.ts:396-473 | after the gates: the first reverted read, in source order, is `handleError` of it with the vault; NOT_ENOUGH_BALANCE exactly when the reads succeed and the balance is missing or short, with no gas estimate; otherwise a redeem quote |
| VaultVenue.EstimateVaultRedeem | packages/hooks/src/useSwapEstimator.ts:363-473 | the gates first, with no chain calls; then the fee data; the first reverted read is the answer through `handleError` with the vault; NOT_ENOUGH_BALANCE exactly when the reads succeed and the balance is missing or short, with no gas estimate; a success is a redeem quote |
| ZapperVenue.ZapNative | packages/hooks/src/useSwapEstimator.ts:516-553 | from ETH: a reverted amount, balance or gas read is `handleError` of the first one with the zapper; NOT_ENOUGH_BALANCE exactly when the 18-decimal deposit exceeds the wallet, with no gas estimate; a quote receives the deposit and prepares `deposit` paying it |
| ZapperVenue.NativeDeposit | packages/hooks/src/useSwapEstimator.ts:529-553 | the payable `deposit` gas estimate is the one chain call; a failure is classified and carries the zapper; a success is the native zap quote for that call |
| ZapperVenue.ZapTokenQuote | packages/hooks/src/useSwapEstimator.ts:598-646 | allowance short: only the approval gas, with receive equal to the amount and no minimum; otherwise the `depositSFRXETH` gas and call with the slippage minimum |
| ZapperVenue.ZapAfterGates | packages/hooks/src/useSwapEstimator.ts:508-650 | after the gates the fee data is read first; its revert is `handleError` with the zapper and ends the trace; otherwise the ETH or the ERC20 path answers, each as stated for `ZapNative` and `ZapToken` |
| ZapperVenue.EstimateZapperMint | packages/hooks/src/useSwapEstimator.ts:475-650 | the gates first; then the fee data and the ETH or ERC20 path chosen by the source symbol; NOT_ENOUGH_BALANCE exactly when the wallet is short; NOT_ENOUGH_CONTRACT_FUNDS exactly when the zapper's balance is *not below* the amount, as written; neither makes a gas estimate; any other failure is `handleError` of the first reverted read with the zapper; a success is a native or a token zap quote |
| ZapperVenue.ZapToken | packages/hooks/src/useSwapEstimator.ts:556-650 | for an ERC20: NOT_ENOUGH_BALANCE exactly when every read succeeds and the wallet holds less than the amount; NOT_ENOUGH_CONTRACT_FUNDS exactly when the wallet covers it and the zapper holds *at least* the amount; neither estimates gas; a reverted read is `handleError` of the first one with the zapper; a success passed both gates and is a token zap quote |
| CurveVenue.NormalizedFrom | packages/hooks/src/useSwapEstimator.ts:792-798 | a source token without an address becomes the null address; an address is kept |
| CurveVenue.NormalizedTo | packages/hooks/src/useSwapEstimator.ts:792-801 | the destination becomes the null address only when it has none and the source had one |
| CurveVenue.NormalizeBothMissing | packages/hooks/src/useSwapEstimator.ts:795-801 | with both addresses missing, the destination stays undefined |
| CurveVenue.CurveAmount | packages/hooks/src/useSwapEstimator.ts:863 | a parsed amount is positive and is the request at the source decimals |
| CurveVenue.PoolAt | packages/hooks/src/useSwapEstimator.ts:834-846 | the pool handle takes the table entry's address, the metapool ABI and the exchange function |
| CurveVenue.SelectPool | packages/hooks/src/useSwapEstimator.ts:825-847 | a pool is chosen exactly when either symbol is OUSD or OETH; OUSD wins and uses `exchange_underlying` |
| CurveVenue.MainnetOUSDPool | packages/hooks/src/useSwapEstimator.ts:833-839 | an OUSD swap gets the OUSD metapool, which has an address |
| CurveVenue.MainnetOETHHasNoPool | packages/hooks/src/useSwapEstimator.ts:840-855 | an OETH swap picks the missing `CurveOETHPool` entry, so it has no liquidity pool |
| CurveVenue.MainnetOtherHasNoPool | packages/hooks/src/useSwapEstimator.ts:849-855 | a swap without OUSD or OETH has no pool |
| CurveVenue.ToLower | packages/hooks/src/useSwapEstimator.ts:947-949 | lower-casing maps every character and keeps the length |
| CurveVenue.ToLowerIdempotent | packages/hooks/src/useSwapEstimator.ts:963-969 | lower-casing twice is lower-casing once |
| CurveVenue.NullAddressIsLowerCase | packages/hooks/src/useSwapEstimator.ts:963-971 | the null address is already lower case |
| CurveVenue.LowerAll | packages/hooks/src/useSwapEstimator.ts:947-949 | the coin list is lower-cased entry by entry |
| CurveVenue.IndexOf | packages/hooks/src/useSwapEstimator.ts:963-969 | `indexOf` is -1 exactly when absent, else the first position holding the value |
| CurveVenue.CoinFoundIgnoringCase | packages/hooks/src/useSwapEstimator.ts:963-965 | a coin listed in any letter case is found at or before its position |
| CurveVenue.SwapRatioIntegerForm | packages/hooks/src/useSwapEstimator.ts:951-955 | the ratio guard fires exactly when `5 * amount > 6 * quote` |
| CurveVenue.SwapRatioExample | packages/hooks/src/useSwapEstimator.ts:951-955 | 13 for 10 is rejected; 12 for 10 is accepted |
| CurveVenue.SwapRatioIgnoresDecimals | packages/hooks/src/useSwapEstimator.ts:951-953 | 1000 tokens of 18 decimals for 1000 tokens of 6 decimals is rejected |
| CurveVenue.ExchangeCall | packages/hooks/src/useSwapEstimator.ts:973-985 | the exchange call goes to the pool's function with `(i, j, amount, minimum)` and pays the amount exactly when swapping from the native coin |
| CurveVenue.QuoteError | packages/hooks/src/useSwapEstimator.ts:867-879 | a failed quote is classified with the pool; when that classification throws, the outer handler classifies the resulting TypeError with the provider |
| CurveVenue.Exchange | packages/hooks/src/useSwapEstimator.ts:932-1011 | a reverted factory, coin-list or gas read is `handleError` of the first one with the provider; BAD_SWAP_RATIO with the pool exactly when the coin list is read and the ratio is above 1.2, with no gas estimate; a success is an exchange quote over the lower-cased coin indices |
| CurveVenue.QuoteStep | packages/hooks/src/useSwapEstimator.ts:863-1011 | a failed amount, quote or slippage read is its classified failure; otherwise the first reverted funding or exchange read is `handleError` with the provider; NOT_ENOUGH_BALANCE exactly when swapping from the native coin beyond the wallet; BAD_SWAP_RATIO exactly when funded, the coins are read and the ratio is too high; neither makes a gas estimate; a short allowance quotes 350000 plus the approval gas |
| CurveVenue.QuoteFailure | packages/hooks/src/useSwapEstimator.ts:863-883 | no failure exactly when the amount, the registry quote and the slippage setting all read; a failed amount or slippage read is `handleError` with the provider, a failed quote the pool-then-provider classification |
| CurveVenue.FundAndExchange | packages/hooks/src/useSwapEstimator.ts:885-1011 | a reverted balance, allowance, approval-gas or exchange read is `handleError` of the first one with the provider; NOT_ENOUGH_BALANCE exactly when swapping from the native coin beyond the wallet; BAD_SWAP_RATIO exactly when funded, the coins are read and the ratio is too high; neither estimates gas; a success is the quote for the given amount, receive amount and minimum |
| CurveVenue.QuoteCurveSwap | packages/hooks/src/useSwapEstimator.ts:795-1011 | a reverted `decimals()` or registry-address read is `handleError` with the provider and ends the trace; without a usable pool the answer is NO_LIQUIDITY_POOL with the pool handle and no gas estimate; otherwise the quote step's outcomes after the prelude reads |
| CurveVenue.NormalizeAddresses | packages/hooks/src/useSwapEstimator.ts:792-801 | the token objects are repaired in place: the source gets its normalised address, the destination its normalised one unless it is the same object |
| CurveVenue.EstimateCurveSwap | packages/hooks/src/useSwapEstimator.ts:751-1015 | the gates first, touching nothing; a failed fee read is classified with the provider, touching nothing; otherwise the token objects are repaired in place and the swap is quoted on the repaired addresses, with every outcome of `QuoteCurveSwap` |
| Ranking.PriceLeTotal | packages/hooks/src/useSwapEstimator.ts:1099-1100 | the ascending price order is reflexive, total, transitive and antisymmetric |
| Ranking.Trunc | packages/hooks/src/useSwapEstimator.ts:1076 | `Math.trunc` drops the fraction toward zero: the result is within one below a non-negative number and within one above a negative one |
| Ranking.EffectivePrice | packages/hooks/src/useSwapEstimator.ts:1085-1087 | the price is Infinity exactly when the USD receive amount is zero |
| Ranking.Enrich | packages/hooks/src/useSwapEstimator.ts:1057-1096 | UNSUPPORTED is kept at Infinity without USD figures; every other error is dropped; a quote throws exactly when its gas price is missing; a kept entry carries its estimate |
| Ranking.QuotePriceFinite | packages/hooks/src/useSwapEstimator.ts:1083-1087 | a positive quote gets a finite price with a positive conversion price and Infinity without one |
| Ranking.EnrichAll | packages/hooks/src/useSwapEstimator.ts:1054-1098 | the map throws exactly when some quote lacks a gas price; the filtered list is never longer than the input |
| Ranking.EnrichAllKeeps | packages/hooks/src/useSwapEstimator.ts:1055-1098 | the filtered list holds exactly the quotes and the UNSUPPORTED answers, in input order |
| Ranking.Insert | packages/hooks/src/useSwapEstimator.ts:1054-1101 | one insertion step adds exactly one entry |
| Ranking.InsertPermutes | packages/hooks/src/useSwapEstimator.ts:1054-1101 | an insertion step loses and duplicates no entry: the result is the input plus the new entry, as a multiset |
| Ranking.OrderByPriceSorted | packages/hooks/src/useSwapEstimator.ts:1054-1101 | `orderBy(..., 'asc')` yields ascending effective prices |
| Ranking.OrderByPricePermutes | packages/hooks/src/useSwapEstimator.ts:1054-1101 | sorting neither adds nor loses an entry |
| Ranking.OrderByPriceStable | packages/hooks/src/useSwapEstimator.ts:1054-1101 | entries of equal price keep their relative order |
| Ranking.RankEstimates | packages/hooks/src/useSwapEstimator.ts:1050-1102 | the ranking exists exactly when the enrichment does not throw |
| Ranking.RankEstimatesSorted | packages/hooks/src/useSwapEstimator.ts:1050-1102 | a ranking is in ascending effective-price order |
| Ranking.RankEstimatesKeeps | packages/hooks/src/useSwapEstimator.ts:1050-1102 | a ranking holds exactly the quotes and the UNSUPPORTED answers |
| Ranking.RankEstimatesStable | packages/hooks/src/useSwapEstimator.ts:1050-1102 | among equal prices the ranking keeps the venue order |
| Ranking.RankEstimatesUnsupportedLast | packages/hooks/src/useSwapEstimator.ts:1059-1064 | every UNSUPPORTED answer comes after every finitely priced quote |
| Ranking.UnsupportedEntriesAreInfinite | packages/hooks/src/useSwapEstimator.ts:1059-1066 | every failure that survives the filter is priced at Infinity |
| Ranking.LargerQuoteIsCheaper | packages/hooks/src/useSwapEstimator.ts:1072-1087 | at the same gas and amount, a larger quote has a strictly lower effective price |
| Ranking.LargerQuoteRanksFirst | packages/hooks/src/useSwapEstimator.ts:1050-1102 | two quotes at the same cost are ranked larger first, whatever order they arrive in |
| Estimator.Lookup | packages/hooks/src/useSwapEstimator.ts:1118-1126 | exactly the seven keys have an estimator; "vault" means mint exactly in MINT mode, redeem otherwise |
| Estimator.RunVenue | packages/hooks/src/useSwapEstimator.ts:1137-1149 | the venue's estimator answers exactly as that estimator promises (mint, redeem, zapper or Curve outcome; the stubs' gate answers); only Curve may change the token objects, and only by filling an empty address with the null address |
| Estimator.RunKey | packages/hooks/src/useSwapEstimator.ts:1138-1149 | a key without an estimator yields undefined and no calls; otherwise the looked-up venue's full outcome on the addresses the key saw; only the Curve key may touch the token objects |
| Estimator.RunRound | packages/hooks/src/useSwapEstimator.ts:1137-1150 | one run per configured key, in key order, each with its venue's full outcome; the keys up to the first Curve key see the original addresses; without a Curve key the token objects are unchanged |
| Estimator.RoundOutcomeAt | packages/hooks/src/useSwapEstimator.ts:1137-1150 | in a round, the run at every position is its key's outcome |
| Estimator.RankRound | packages/hooks/src/useSwapEstimator.ts:1137-1158 | the round publishes exactly when every key had an estimator, every estimator settled and the enrichment did not throw; what it publishes is the ranking |
| Estimator.OneBadOutcomeFailsRound | packages/hooks/src/useSwapEstimator.ts:1137-1162 | a key without an estimator, or one rejected estimator, fails the round |
| Estimator.PublishedRankingIsSorted | packages/hooks/src/useSwapEstimator.ts:1152-1154 | a published ranking is sorted and holds exactly the round's quotes and UNSUPPORTED answers |
| Estimator.AllFailuresPublishEmpty | packages/hooks/src/useSwapEstimator.ts:1152-1154 | a round where every venue failed with anything but UNSUPPORTED publishes the empty ranking |
| Estimator.SwapEstimator.constructor | packages/hooks/src/useSwapEstimator.ts:1115 | the hook starts not loading, with nothing published |
| Estimator.SwapEstimator.InputsChanged | packages/hooks/src/useSwapEstimator.ts:1166-1170 | a change of the inputs raises the loading flag and publishes nothing |
| Estimator.SwapEstimator.Publish | packages/hooks/src/useSwapEstimator.ts:1150-1164 | the ranking of the outcomes is published when the round does not throw, and nothing is published when it does; the loading flag ends down |
| Estimator.SwapEstimator.FetchEstimations | packages/hooks/src/useSwapEstimator.ts:1128-1164 | a non-positive amount publishes null and runs no venue; otherwise every key gets its venue's full outcome, in order; the ranking is published exactly when the round does not throw; the loading flag ends down |

## Left out

- Network, RPC and wallet access: the chain is a value of reads, and the
  provider, signer and contract objects are not modelled.
- `Promise.all` concurrency: within one estimator the reads of a group are all
  issued, and the error reported is the first failing read in list order rather
  than the first in time.
- The round runs the venues one after another in key order. In the code they
  interleave at every `await`, so which other venues observe Curve's repaired
  token address depends on timing. The model shows one such order.
- `Estimator.SwapEstimator.FetchEstimations`: the debounce (1000 ms), React state
  timing, and the value of `onEstimate(null)` on the skip path are not modelled.
  The refresh function the hook returns is the same round.
- JavaScript numbers: amounts, USD figures and effective prices are exact reals.
  `formatWeiBalance` is taken to be an exact 18-decimal scaling. NaN and a
  negative infinity (possible only with a negative conversion price) are not
  modelled; a zero USD receive amount is Infinity.
- `console.error` logging.
- Lower-casing covers ASCII letters only.
- The `fromToken`, `toToken` and `fromTokenValue` fields the estimators copy into
  their answers, and ABI contents. The vault's ABI is a list of function names.
- `zipObject` on keys that look like integers: JavaScript orders such keys
  first; the model keeps insertion order.
- The contract table holds only the entries the estimators read. Its full
  contents live in `packages/web3/src/index.ts`, which is not part of this
  model.
- `VenueConfig.token` is not read by the estimators and is not modelled.
- `Units.ParseUnits` and `CurveVenue.CurveDecimals` take `parseUnits` and
  `formatUnits` of `@originprotocol/utils` to behave like those of ethers:
  `parseUnits` fails on more fraction digits than the decimals, and 18 decimals
  are used when none are given (the native-coin path of Curve). That package
  is not part of this model.
