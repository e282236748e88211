/** The vault venue: `estimateVaultMint` and `estimateVaultRedeem`. Each is a
    sequence of chain reads with early returns; a read that reverts (or a local
    conversion that throws) ends in `handleError` with the vault contract. */
module VaultVenue {
  import opened SwapTypes
  import opened Units
  import opened Classifier
  import opened Gates

  predicate IsConverter(name: string) {
    name == "priceUnitMint" || name == "priceUSDMint"
  }

  /** `abi.find(item => item.name is 'priceUnitMint' or 'priceUSDMint')`: the first
      price oracle the vault's ABI declares, if any. */
  function FindConverter(abi: seq<string>): (r: Option<string>)
    ensures r.None? <==> forall i :: 0 <= i < |abi| ==> !IsConverter(abi[i])
    ensures r.Some? ==> exists i :: 0 <= i < |abi| && abi[i] == r.value &&
                          IsConverter(r.value) && forall j :: 0 <= j < i ==> !IsConverter(abi[j])
  {
    if |abi| == 0 then None
    else if IsConverter(abi[0]) then Some(abi[0])
    else
      var rest := FindConverter(abi[1..]);
      if rest.Some? then
        var i :| 0 <= i < |abi[1..]| && abi[1..][i] == rest.value &&
                 IsConverter(rest.value) && forall j :: 0 <= j < i ==> !IsConverter(abi[1..][j]);
        assert abi[i + 1] == rest.value;
        assert forall j :: 0 <= j < i + 1 ==> !IsConverter(abi[j]) by {
          forall j | 0 <= j < i + 1 ensures !IsConverter(abi[j]) {
            if j > 0 { assert abi[j] == abi[1..][j - 1]; }
          }
        }
        rest
      else
        assert forall i :: 0 <= i < |abi| ==> !IsConverter(abi[i]) by {
          forall i | 0 <= i < |abi| ensures !IsConverter(abi[i]) {
            if i > 0 { assert abi[i] == abi[1..][i - 1]; }
          }
        }
        rest
  }

  /** The oracle price of the source asset, when the vault has an oracle. */
  function MintPrice(chain: Chain, vault: Contract, asset: string): Read<Option<nat>> {
    match FindConverter(vault.abi)
    case None => Ok(None)
    case Some(name) =>
      match chain.mintPrice(vault.address, name, asset)
      case Reverted(e) => Reverted(e)
      case Ok(p) => Ok(Some(p))
  }

  /** The mint receive amount: the amount times the oracle price (1 without an
      oracle), in the destination token's base units. */
  function MintReceiveAmount(value: real, price: Option<nat>, fromDecimals: nat, toDecimals: nat): (r: Read<nat>)
    requires value > 0.0
    ensures price.None? ==> r == ParseUnits(value, toDecimals)
    ensures r.Ok? && price.Some? ==>
      r.value as real == Scale(value * FormatUnits(price.value, fromDecimals), toDecimals)
  {
    var rate := if price.Some? then FormatUnits(price.value, fromDecimals) else 1.0;
    assert rate >= 0.0;
    ParseUnits(value * rate, toDecimals)
  }

  /** At the oracle's par price (one whole unit) the vault mints one for one. */
  lemma MintAtParPrice(value: real, fromDecimals: nat, decimals: nat)
    requires value > 0.0
    ensures MintReceiveAmount(value, Some(Pow10(fromDecimals)), fromDecimals, decimals)
            == MintReceiveAmount(value, None, fromDecimals, decimals)
  {
    var p := Pow10(fromDecimals) as real;
    assert p / p == 1.0;
    assert FormatUnits(Pow10(fromDecimals), fromDecimals) == 1.0;
  }

  /** The fixed mint gas added to the approval estimate when allowance is missing:
      2,900,000 above the auto-allocate threshold, else 510,000 above the rebase
      threshold, else 220,000. */
  function ApprovalGasTier(v: nat, rebaseThreshold: nat, autoAllocateThreshold: nat): (g: nat)
    ensures g == 220000 || g == 510000 || g == 2900000
    ensures g == 2900000 <==> v > autoAllocateThreshold
    ensures g == 510000 <==> v <= autoAllocateThreshold && v > rebaseThreshold
  {
    if v > autoAllocateThreshold then 2900000
    else if v > rebaseThreshold then 510000
    else 220000
  }

  /** A larger trade never needs a smaller gas tier. */
  lemma ApprovalGasTierMonotone(v1: nat, v2: nat, rebaseThreshold: nat, autoAllocateThreshold: nat)
    requires v1 <= v2
    ensures ApprovalGasTier(v1, rebaseThreshold, autoAllocateThreshold)
            <= ApprovalGasTier(v2, rebaseThreshold, autoAllocateThreshold)
  {
  }

  function MintCall(vault: string, asset: string, v: nat, minimumAmount: int): Call {
    Call(vault, "mint", [Addr(asset), Num(v), Num(minimumAmount)], None)
  }

  function RedeemCall(vault: string, v: nat, minimumAmount: int): Call {
    Call(vault, "redeem", [Num(v), Num(minimumAmount)], None)
  }

  /** Every read the mint makes before its balance gate succeeds. */
  predicate MintReadsOk(vault: string, from: string, to: string, address: string, value: real, chain: Chain)
    requires value > 0.0
  {
    && chain.feeData.Ok?
    && chain.allowance(from, address, vault).Ok?
    && chain.decimals(to).Ok?
    && AmountIn(chain, from, value).Ok?
  }

  /** Every read the redeem makes before its balance gate succeeds. */
  predicate RedeemReadsOk(vault: string, from: string, value: real, chain: Chain)
    requires value > 0.0
  {
    && chain.feeData.Ok?
    && chain.redeemFeeBps(vault).Ok?
    && AmountIn(chain, from, value).Ok?
  }

  /** What a mint quote holds once the reads before the balance gate succeeded:
      the slippage minimum of the input amount, the oracle-priced receive amount,
      and one of two shapes. With enough allowance it carries the prepared `mint`
      call (stale after 2 seconds) and that call's gas estimate; without, no
      prepared call, and a fixed mint budget plus the `approve` call's estimate.
      `last` is the final chain call made. */
  predicate IsMintQuote(e: Estimate, last: ChainCall, vault: Contract, from: string, to: string,
                        address: string, value: real, settings: Settings, chain: Chain)
    requires value > 0.0
    requires MintReadsOk(vault.address, from, to, address, value, chain)
  {
    var v := AmountIn(chain, from, value).value;
    var allowance := chain.allowance(from, address, vault.address).value;
    && e.Success?
    && SlippageBps(settings).Ok?
    && MintPrice(chain, vault, from).Ok?
    && var minimum := MinimumAmount(v, SlippageBps(settings).value);
    && e.contract == Some(vault)
    && e.feeData == chain.feeData.value
    && e.value == value
    && e.breakdown.None?
    && e.minimumAmount == Some(minimum)
    && MintReceiveAmount(value, MintPrice(chain, vault, from).value,
                         chain.decimals(from).value, chain.decimals(to).value) == Ok(e.receiveAmount)
    && (e.hasProvidedAllowance <==> allowance >= v)
    && (e.hasProvidedAllowance <==> e.prepareParams.Some?)
    && (e.hasProvidedAllowance ==>
          var mint := MintCall(vault.address, from, v, minimum);
          e.prepareParams == Some(PrepareParams(mint, vault.abi, Some(2000))) &&
          chain.estimateGas(address, mint) == Ok(e.gasLimit) &&
          last == EstimateGas(mint))
    && (!e.hasProvidedAllowance ==>
          var approve := ApproveCall(from, vault.address, v);
          chain.rebaseThreshold(vault.address).Ok? && chain.autoAllocateThreshold(vault.address).Ok? &&
          chain.estimateGas(address, approve).Ok? &&
          e.gasLimit == ApprovalGasTier(v, chain.rebaseThreshold(vault.address).value,
                                        chain.autoAllocateThreshold(vault.address).value)
                        + chain.estimateGas(address, approve).value &&
          last == EstimateGas(approve))
  }

  /** The first read of the mint quote that reverts, in the order the code makes
      them: the oracle price, the receive-amount conversion, the slippage setting,
      then either both thresholds and the `approve` estimate (allowance short) or
      the `mint` estimate. None when the quote succeeds. */
  function MintQuoteError(vault: Contract, from: string, to: string, address: string, value: real,
                          settings: Settings, chain: Chain): Option<RevertError>
    requires value > 0.0
    requires MintReadsOk(vault.address, from, to, address, value, chain)
  {
    var v := AmountIn(chain, from, value).value;
    var price := MintPrice(chain, vault, from);
    if price.Reverted? then Some(price.error)
    else
      var receive := MintReceiveAmount(value, price.value, chain.decimals(from).value, chain.decimals(to).value);
      if receive.Reverted? then Some(receive.error)
      else if SlippageBps(settings).Reverted? then Some(SlippageBps(settings).error)
      else if chain.allowance(from, address, vault.address).value < v then
        if chain.rebaseThreshold(vault.address).Reverted? then Some(chain.rebaseThreshold(vault.address).error)
        else if chain.autoAllocateThreshold(vault.address).Reverted? then
          Some(chain.autoAllocateThreshold(vault.address).error)
        else ErrorOf(chain.estimateGas(address, ApproveCall(from, vault.address, v)))
      else
        ErrorOf(chain.estimateGas(address, MintCall(vault.address, from, v, MinimumAmount(v, SlippageBps(settings).value))))
  }

  /** The part of `estimateVaultMint` after the balance gate: price, receive amount,
      minimum, then one of the two gas estimates. */
  method QuoteMint(vault: Contract, from: string, to: string, address: string, value: real,
                   settings: Settings, chain: Chain)
    returns (r: Settled<Estimate>, calls: seq<ChainCall>)
    requires value > 0.0
    requires MintReadsOk(vault.address, from, to, address, value, chain)
    ensures r.Resolved? && r.value.Failure? ==>
      r.value.contract == Some(vault) && Classifiable(r.value.error)
    ensures MintQuoteError(vault, from, to, address, value, settings, chain).Some? ==>
      r == HandleError(MintQuoteError(vault, from, to, address, value, settings, chain).value, Some(vault))
    ensures MintQuoteError(vault, from, to, address, value, settings, chain).None? ==> r.Resolved? && r.value.Success?
    ensures r.Resolved? && r.value.Success? ==>
      |calls| > 0 && IsMintQuote(r.value, calls[|calls| - 1], vault, from, to, address, value, settings, chain)
  {
    var contract := Some(vault);
    var v := AmountIn(chain, from, value).value;
    calls := [];
    var converter := FindConverter(vault.abi);
    var price: Option<nat> := None;
    if converter.Some? {
      calls := calls + [ReadContract(vault.address, converter.value)];
      var p := chain.mintPrice(vault.address, converter.value, from);
      if p.Reverted? {
        r := HandleError(p.error, contract);
        return;
      }
      price := Some(p.value);
    }
    var receive := MintReceiveAmount(value, price, chain.decimals(from).value, chain.decimals(to).value);
    if receive.Reverted? {
      r := HandleError(receive.error, contract);
      return;
    }
    var bps := SlippageBps(settings);
    if bps.Reverted? {
      r := HandleError(bps.error, contract);
      return;
    }
    var minimum := MinimumAmount(v, bps.value);
    var allowance := chain.allowance(from, address, vault.address).value;

    if allowance < v {
      // needs an approval first: a fixed mint budget plus the approval's own estimate
      calls := calls + [ReadContract(vault.address, "rebaseThreshold"),
                        ReadContract(vault.address, "autoAllocateThreshold")];
      var rebase := chain.rebaseThreshold(vault.address);
      var autoAllocate := chain.autoAllocateThreshold(vault.address);
      if rebase.Reverted? {
        r := HandleError(rebase.error, contract);
        return;
      } else if autoAllocate.Reverted? {
        r := HandleError(autoAllocate.error, contract);
        return;
      }
      var approve := ApproveCall(from, vault.address, v);
      calls := calls + [EstimateGas(approve)];
      var approveGas := chain.estimateGas(address, approve);
      if approveGas.Reverted? {
        r := HandleError(approveGas.error, contract);
        return;
      }
      var gasLimit := ApprovalGasTier(v, rebase.value, autoAllocate.value) + approveGas.value;
      r := Resolved(Success(contract, gasLimit, receive.value, Some(minimum), false,
                            chain.feeData.value, None, None, value));
      return;
    }

    var mint := MintCall(vault.address, from, v, minimum);
    calls := calls + [EstimateGas(mint)];
    var gas := chain.estimateGas(address, mint);
    if gas.Reverted? {
      r := HandleError(gas.error, contract);
      return;
    }
    r := Resolved(Success(contract, gas.value, receive.value, Some(minimum), true,
                          chain.feeData.value, Some(PrepareParams(mint, vault.abi, Some(2000))), None, value));
  }

  /** The first read of `estimateVaultMint` before its balance gate that reverts:
      the fee data, then the allowance and both tokens' decimals (awaited together;
      the first in list order is reported), then the amount conversion. */
  function MintReadError(vault: string, from: string, to: string, address: string, value: real,
                         chain: Chain): (e: Option<RevertError>)
    requires value > 0.0
    ensures e.None? <==> MintReadsOk(vault, from, to, address, value, chain)
  {
    if chain.feeData.Reverted? then Some(chain.feeData.error)
    else if chain.allowance(from, address, vault).Reverted? then Some(chain.allowance(from, address, vault).error)
    else if chain.decimals(from).Reverted? then Some(chain.decimals(from).error)
    else if chain.decimals(to).Reverted? then Some(chain.decimals(to).error)
    else ErrorOf(AmountIn(chain, from, value))
  }

  /** The revert `estimateVaultMint` hands to `handleError` after its gates, if
      any: a read before the balance gate, or, with the balance covered, a read of
      the quote. */
  function MintError(vault: Contract, from: string, to: string, balanceOf: Option<nat>, address: string,
                     value: real, settings: Settings, chain: Chain): Option<RevertError>
    requires value > 0.0
  {
    if MintReadError(vault.address, from, to, address, value, chain).Some? then
      MintReadError(vault.address, from, to, address, value, chain)
    else if !HasEnoughBalance(balanceOf, AmountIn(chain, from, value).value) then None
    else MintQuoteError(vault, from, to, address, value, settings, chain)
  }

  /** What `estimateVaultMint` answers once its gates passed, for a source token at
      `from` holding `balanceOf` and a destination at `to`:
      - the fee data is the first chain call;
      - a revert is classified with the vault, and it is the first read to revert;
      - without a revert, the answer is a quote or NOT_ENOUGH_BALANCE;
      - NOT_ENOUGH_BALANCE exactly when the reads succeed and the balance is short,
        and then no gas is estimated;
      - a quote is a mint quote. */
  predicate MintAnswer(vault: Contract, from: string, to: string, balanceOf: Option<nat>, address: string,
                       value: real, settings: Settings, chain: Chain, r: Settled<Estimate>, calls: seq<ChainCall>)
    requires value > 0.0
  {
    var readsOk := MintReadsOk(vault.address, from, to, address, value, chain);
    var error := MintError(vault, from, to, balanceOf, address, value, settings, chain);
    && |calls| > 0 && calls[0] == GetFeeData
    && (r.Resolved? && r.value.Failure? ==>
          r.value.contract == Some(vault) && (r.value.error == NotEnoughBalance || Classifiable(r.value.error)))
    && (error.Some? ==> r == HandleError(error.value, Some(vault)))
    && (error.None? ==> r.Resolved? && (r.value.Success? || r.value.error == NotEnoughBalance))
    && (r == Resolved(Failure(NotEnoughBalance, Some(vault))) <==>
          readsOk && !HasEnoughBalance(balanceOf, AmountIn(chain, from, value).value))
    && (r == Resolved(Failure(NotEnoughBalance, Some(vault))) ==> !HasGasEstimate(calls))
    && (r.Resolved? && r.value.Success? ==>
          && readsOk
          && HasEnoughBalance(balanceOf, AmountIn(chain, from, value).value)
          && |calls| > 0
          && IsMintQuote(r.value, calls[|calls| - 1], vault, from, to, address, value, settings, chain))
  }

  /** What `estimateVaultMint` answers for the tokens' addresses `from` and `to`:
      the gates' answer without any chain call, else the answer after the gates. */
  predicate MintOutcome(config: VenueConfig, mode: Mode, fromToken: Token, toToken: Token, from: string,
                        to: string, address: string, value: real, settings: Settings, chain: Chain,
                        r: Settled<Estimate>, calls: seq<ChainCall>)
    requires value > 0.0
  {
    var gate := Gate(config, mode, fromToken, toToken);
    && (gate.Some? ==> r == Resolved(gate.value) && calls == [])
    && (gate.None? ==>
          MintAnswer(config.contract.value, from, to, fromToken.balanceOf, address, value, settings, chain, r, calls))
  }

  /** `estimateVaultMint` after the gates: the fee data, the allowance and both
      tokens' decimals, the balance gate, then the quote. */
  method MintAfterGates(vault: Contract, from: string, to: string, balanceOf: Option<nat>, address: string,
                        value: real, settings: Settings, chain: Chain)
    returns (r: Settled<Estimate>, calls: seq<ChainCall>)
    requires value > 0.0
    ensures MintAnswer(vault, from, to, balanceOf, address, value, settings, chain, r, calls)
  {
    var contract := Some(vault);
    calls := [GetFeeData];
    if chain.feeData.Reverted? {
      r := HandleError(chain.feeData.error, contract);
      HandleErrorKinds(chain.feeData.error, contract);
      return;
    }

    calls := calls + [GetAllowance(from, address, vault.address), GetDecimals(from), GetDecimals(to)];
    var allowance := chain.allowance(from, address, vault.address);
    var fromDecimals := chain.decimals(from);
    var toDecimals := chain.decimals(to);
    if allowance.Reverted? {
      r := HandleError(allowance.error, contract);
      HandleErrorKinds(allowance.error, contract);
      return;
    } else if fromDecimals.Reverted? {
      r := HandleError(fromDecimals.error, contract);
      HandleErrorKinds(fromDecimals.error, contract);
      return;
    } else if toDecimals.Reverted? {
      r := HandleError(toDecimals.error, contract);
      HandleErrorKinds(toDecimals.error, contract);
      return;
    }
    var amount := ParseUnits(value, fromDecimals.value);
    if amount.Reverted? {
      r := HandleError(amount.error, contract);
      HandleErrorKinds(amount.error, contract);
      return;
    }
    if !HasEnoughBalance(balanceOf, amount.value) {
      r := Resolved(Failure(NotEnoughBalance, contract));
      return;
    }
    var quoteCalls;
    r, quoteCalls := QuoteMint(vault, from, to, address, value, settings, chain);
    assert r != Resolved(Failure(NotEnoughBalance, contract));
    calls := calls + quoteCalls;
  }

  /** `estimateVaultMint`: the gates, then the chain. */
  method EstimateVaultMint(config: VenueConfig, mode: Mode, fromToken: Token, toToken: Token,
                           address: string, value: real, settings: Settings, chain: Chain)
    returns (r: Settled<Estimate>, calls: seq<ChainCall>)
    requires value > 0.0
    ensures MintOutcome(config, mode, fromToken, toToken, fromToken.address, toToken.address, address, value,
                        settings, chain, r, calls)
  {
    var gate := Gate(config, mode, fromToken, toToken);
    if gate.Some? {
      return Resolved(gate.value), [];
    }
    r, calls := MintAfterGates(config.contract.value, fromToken.address, toToken.address, fromToken.balanceOf,
                               address, value, settings, chain);
  }

  /** The error `BigNumber.add` throws when handed `undefined`. */
  const InvalidBigNumber := RevertError(None, Some("invalid BigNumber value"))

  /** `values[i]`, undefined past the end. */
  function At(values: seq<nat>, i: nat): Option<nat> {
    if i < |values| then Some(values[i]) else None
  }

  /** The keys of an object, in insertion order. */
  function Keys(obj: seq<(string, Option<nat>)>): (ks: seq<string>)
    ensures |ks| == |obj| && forall i :: 0 <= i < |obj| ==> ks[i] == obj[i].0
  {
    if |obj| == 0 then [] else Keys(obj[..|obj| - 1]) + [obj[|obj| - 1].0]
  }

  /** `obj[k] = x`: overwrite in place when the key exists, else append. */
  function Assign(obj: seq<(string, Option<nat>)>, k: string, x: Option<nat>): (r: seq<(string, Option<nat>)>)
    ensures (forall i :: 0 <= i < |obj| ==> obj[i].0 != k) ==> r == obj + [(k, x)]
    ensures (exists i :: 0 <= i < |obj| && obj[i].0 == k) ==> |r| == |obj|
  {
    if |obj| == 0 then [(k, x)]
    else if obj[0].0 == k then [(k, x)] + obj[1..]
    else
      var rest := Assign(obj[1..], k, x);
      assert (exists i :: 0 <= i < |obj| && obj[i].0 == k) ==> exists i :: 0 <= i < |obj[1..]| && obj[1..][i].0 == k by {
        if exists i :: 0 <= i < |obj| && obj[i].0 == k {
          var i :| 0 <= i < |obj| && obj[i].0 == k;
          assert obj[1..][i - 1].0 == k;
        }
      }
      [obj[0]] + rest
  }

  /** lodash `zipObject(keys, values)`: keys assigned left to right, so a repeated
      key keeps its first position and its last value. */
  function ZipObject(keys: seq<string>, values: seq<nat>): seq<(string, Option<nat>)> {
    if |keys| == 0 then []
    else Assign(ZipObject(keys[..|keys| - 1], values), keys[|keys| - 1], At(values, |keys| - 1))
  }

  predicate Distinct(keys: seq<string>) {
    forall i, j :: 0 <= i < j < |keys| ==> keys[i] != keys[j]
  }

  /** With distinct keys the object pairs each key with the value at its position. */
  lemma {:induction false} ZipObjectDistinct(keys: seq<string>, values: seq<nat>)
    requires Distinct(keys)
    ensures |ZipObject(keys, values)| == |keys|
    ensures forall i :: 0 <= i < |keys| ==> ZipObject(keys, values)[i] == (keys[i], At(values, i))
  {
    if |keys| > 0 {
      var n := |keys| - 1;
      var init := keys[..n];
      assert Distinct(init);
      ZipObjectDistinct(init, values);
      var prev := ZipObject(init, values);
      assert forall i :: 0 <= i < |prev| ==> prev[i].0 != keys[n] by {
        forall i | 0 <= i < |prev| ensures prev[i].0 != keys[n] {
          assert prev[i].0 == keys[i];
        }
      }
      assert ZipObject(keys, values) == prev + [(keys[n], At(values, n))];
    }
  }

  /** A repeated key keeps its first position and takes its last value. */
  lemma ZipObjectRepeatedKey(a: string, b: string)
    requires a != b
    ensures ZipObject([a, b, a], [1, 2, 3]) == [(a, Some(3)), (b, Some(2))]
  {
    assert [a][..0] == [];
    assert ZipObject([a], [1, 2, 3]) == [(a, Some(1))];
    assert [a, b][..1] == [a];
    assert ZipObject([a, b], [1, 2, 3]) == [(a, Some(1)), (b, Some(2))];
    assert [a, b, a][..2] == [a, b];
    var prev := [(a, Some(1)), (b, Some(2))];
    assert Assign(prev, a, Some(3)) == [(a, Some(3))] + prev[1..];
  }

  function Sum(s: seq<nat>): nat {
    if |s| == 0 then 0 else Sum(s[..|s| - 1]) + s[|s| - 1]
  }

  /** `reduce(obj, (acc, value) => acc.add(value), 0)`: the sum of the object's
      values, left to right; an undefined value throws. */
  function SumValues(obj: seq<(string, Option<nat>)>): (r: Read<nat>)
    ensures r.Reverted? <==> exists i :: 0 <= i < |obj| && obj[i].1.None?
    ensures r.Reverted? ==> r.error == InvalidBigNumber
  {
    if |obj| == 0 then Ok(0)
    else
      var init := obj[..|obj| - 1];
      var acc := SumValues(init);
      assert forall i :: 0 <= i < |init| ==> init[i] == obj[i];
      if acc.Reverted? then acc
      else match obj[|obj| - 1].1
        case None => Reverted(InvalidBigNumber)
        case Some(x) => Ok(acc.value + x)
  }

  /** With distinct assets and an output for each, the receive amount is the sum of
      the outputs (extra outputs are ignored). */
  lemma {:induction false} RedeemSumsOutputs(assets: seq<string>, outputs: seq<nat>)
    requires Distinct(assets) && |outputs| >= |assets|
    ensures SumValues(ZipObject(assets, outputs)) == Ok(Sum(outputs[..|assets|]))
  {
    if |assets| > 0 {
      var n := |assets| - 1;
      var init := assets[..n];
      assert Distinct(init);
      RedeemSumsOutputs(init, outputs);
      ZipObjectSnoc(assets, outputs);
      SumValuesSnoc(ZipObject(init, outputs), assets[n], outputs[n]);
      SumSnoc(outputs[..n + 1]);
      assert outputs[..n + 1][..n] == outputs[..n];
    }
  }

  /** With distinct keys the last key is appended with its own value. */
  lemma ZipObjectSnoc(keys: seq<string>, values: seq<nat>)
    requires Distinct(keys) && 0 < |keys| <= |values|
    ensures ZipObject(keys, values) ==
      ZipObject(keys[..|keys| - 1], values) + [(keys[|keys| - 1], Some(values[|keys| - 1]))]
  {
    var n := |keys| - 1;
    var init := keys[..n];
    assert Distinct(init);
    ZipObjectDistinct(init, values);
    var prev := ZipObject(init, values);
    forall i | 0 <= i < |prev| ensures prev[i].0 != keys[n] {
      assert prev[i].0 == keys[i];
    }
  }

  lemma SumValuesSnoc(obj: seq<(string, Option<nat>)>, k: string, x: nat)
    requires SumValues(obj).Ok?
    ensures SumValues(obj + [(k, Some(x))]) == Ok(SumValues(obj).value + x)
  {
    assert (obj + [(k, Some(x))])[..|obj|] == obj;
  }

  lemma SumSnoc(s: seq<nat>)
    requires |s| > 0
    ensures Sum(s) == Sum(s[..|s| - 1]) + s[|s| - 1]
  {
  }

  /** With distinct assets and fewer outputs than assets, the sum throws. */
  lemma RedeemShortOutputsThrow(assets: seq<string>, outputs: seq<nat>)
    requires Distinct(assets) && |outputs| < |assets|
    ensures SumValues(ZipObject(assets, outputs)).Reverted?
  {
    ZipObjectDistinct(assets, outputs);
    assert ZipObject(assets, outputs)[|outputs|].1.None?;
  }

  /** Redeeming into DAI, USDC and USDT outputs of 200, 150 and 150 receives 500. */
  lemma RedeemMixExample(dai: string, usdc: string, usdt: string)
    requires dai != usdc && dai != usdt && usdc != usdt
    ensures SumValues(ZipObject([dai, usdc, usdt], [200, 150, 150])) == Ok(500)
  {
    RedeemSumsOutputs([dai, usdc, usdt], [200, 150, 150]);
    assert [200, 150, 150][..3] == [200, 150, 150];
    assert [200, 150, 150][..2] == [200, 150];
    assert [200, 150][..1] == [200];
  }

  /** What a redeem quote holds once the reads before the balance gate succeeded:
      the per-asset breakdown of the vault's redeem outputs, their sum as the receive
      amount, the slippage minimum, the prepared `redeem` call (no stale time) and
      its gas estimate; no allowance is ever needed. */
  predicate IsRedeemQuote(e: Estimate, last: ChainCall, vault: Contract, from: string,
                          address: string, value: real, settings: Settings, chain: Chain)
    requires value > 0.0
    requires RedeemReadsOk(vault.address, from, value, chain)
  {
    var v := AmountIn(chain, from, value).value;
    && e.Success?
    && chain.redeemOutputs(vault.address, v).Ok?
    && chain.allAssets(vault.address).Ok?
    && SlippageBps(settings).Ok?
    && var mixed := ZipObject(chain.allAssets(vault.address).value, chain.redeemOutputs(vault.address, v).value);
    && var redeem := RedeemCall(vault.address, v, MinimumAmount(v, SlippageBps(settings).value));
    && e.contract == Some(vault)
    && e.feeData == chain.feeData.value
    && e.value == value
    && e.breakdown == Some(mixed)
    && SumValues(mixed) == Ok(e.receiveAmount)
    && e.minimumAmount == Some(MinimumAmount(v, SlippageBps(settings).value))
    && e.hasProvidedAllowance
    && e.prepareParams == Some(PrepareParams(redeem, vault.abi, None))
    && chain.estimateGas(address, redeem) == Ok(e.gasLimit)
    && last == EstimateGas(redeem)
  }

  /** The first read of the redeem quote that reverts: the redeem outputs and the
      asset list (awaited together, the first in list order reported), the sum of
      the zipped outputs, the slippage setting, then the `redeem` estimate. None
      when the quote succeeds. */
  function RedeemQuoteError(vault: Contract, from: string, address: string, value: real,
                            settings: Settings, chain: Chain): Option<RevertError>
    requires value > 0.0
    requires RedeemReadsOk(vault.address, from, value, chain)
  {
    var v := AmountIn(chain, from, value).value;
    var outputs := chain.redeemOutputs(vault.address, v);
    var assets := chain.allAssets(vault.address);
    if outputs.Reverted? then Some(outputs.error)
    else if assets.Reverted? then Some(assets.error)
    else if SumValues(ZipObject(assets.value, outputs.value)).Reverted? then
      Some(SumValues(ZipObject(assets.value, outputs.value)).error)
    else if SlippageBps(settings).Reverted? then Some(SlippageBps(settings).error)
    else ErrorOf(chain.estimateGas(address, RedeemCall(vault.address, v, MinimumAmount(v, SlippageBps(settings).value))))
  }

  /** The part of `estimateVaultRedeem` after the balance gate. */
  method QuoteRedeem(vault: Contract, from: string, address: string, value: real,
                     settings: Settings, chain: Chain)
    returns (r: Settled<Estimate>, calls: seq<ChainCall>)
    requires value > 0.0
    requires RedeemReadsOk(vault.address, from, value, chain)
    ensures r.Resolved? && r.value.Failure? ==>
      r.value.contract == Some(vault) && Classifiable(r.value.error)
    ensures RedeemQuoteError(vault, from, address, value, settings, chain).Some? ==>
      r == HandleError(RedeemQuoteError(vault, from, address, value, settings, chain).value, Some(vault))
    ensures RedeemQuoteError(vault, from, address, value, settings, chain).None? ==> r.Resolved? && r.value.Success?
    ensures r.Resolved? && r.value.Success? ==>
      |calls| > 0 && IsRedeemQuote(r.value, calls[|calls| - 1], vault, from, address, value, settings, chain)
  {
    var contract := Some(vault);
    var v := AmountIn(chain, from, value).value;
    calls := [ReadContract(vault.address, "calculateRedeemOutputs"), ReadContract(vault.address, "getAllAssets")];
    var outputs := chain.redeemOutputs(vault.address, v);
    var assets := chain.allAssets(vault.address);
    if outputs.Reverted? {
      r := HandleError(outputs.error, contract);
      return;
    } else if assets.Reverted? {
      r := HandleError(assets.error, contract);
      return;
    }
    var mixed := ZipObject(assets.value, outputs.value);
    var receive := SumValues(mixed);
    if receive.Reverted? {
      r := HandleError(receive.error, contract);
      return;
    }
    var bps := SlippageBps(settings);
    if bps.Reverted? {
      r := HandleError(bps.error, contract);
      return;
    }
    var minimum := MinimumAmount(v, bps.value);
    var redeem := RedeemCall(vault.address, v, minimum);
    calls := calls + [EstimateGas(redeem)];
    var gas := chain.estimateGas(address, redeem);
    if gas.Reverted? {
      r := HandleError(gas.error, contract);
      return;
    }
    r := Resolved(Success(contract, gas.value, receive.value, Some(minimum), true, chain.feeData.value,
                          Some(PrepareParams(redeem, vault.abi, None)), Some(mixed), value));
  }

  /** The first read of `estimateVaultRedeem` before its balance gate that reverts:
      the fee data, then the source decimals and the redeem fee (awaited together,
      the first in list order reported), then the amount conversion. */
  function RedeemReadError(vault: string, from: string, value: real, chain: Chain): (e: Option<RevertError>)
    requires value > 0.0
    ensures e.None? <==> RedeemReadsOk(vault, from, value, chain)
  {
    if chain.feeData.Reverted? then Some(chain.feeData.error)
    else if chain.decimals(from).Reverted? then Some(chain.decimals(from).error)
    else if chain.redeemFeeBps(vault).Reverted? then Some(chain.redeemFeeBps(vault).error)
    else ErrorOf(AmountIn(chain, from, value))
  }

  /** The revert `estimateVaultRedeem` hands to `handleError` after its gates, if
      any: a read before the balance gate, or, with the balance covered, a read of
      the quote. */
  function RedeemError(vault: Contract, from: string, balanceOf: Option<nat>, address: string, value: real,
                       settings: Settings, chain: Chain): Option<RevertError>
    requires value > 0.0
  {
    if RedeemReadError(vault.address, from, value, chain).Some? then RedeemReadError(vault.address, from, value, chain)
    else if !HasEnoughBalance(balanceOf, AmountIn(chain, from, value).value) then None
    else RedeemQuoteError(vault, from, address, value, settings, chain)
  }

  /** What `estimateVaultRedeem` answers once its gates passed, for a source token
      at `from` holding `balanceOf`: the fee data first; a revert is classified with
      the vault and is the first read to revert; without a revert a quote or
      NOT_ENOUGH_BALANCE, the latter exactly when the reads succeed and the balance
      is short, with no gas estimate; a quote is a redeem quote. */
  predicate RedeemAnswer(vault: Contract, from: string, balanceOf: Option<nat>, address: string, value: real,
                         settings: Settings, chain: Chain, r: Settled<Estimate>, calls: seq<ChainCall>)
    requires value > 0.0
  {
    var readsOk := RedeemReadsOk(vault.address, from, value, chain);
    var error := RedeemError(vault, from, balanceOf, address, value, settings, chain);
    && |calls| > 0 && calls[0] == GetFeeData
    && (r.Resolved? && r.value.Failure? ==>
          r.value.contract == Some(vault) && (r.value.error == NotEnoughBalance || Classifiable(r.value.error)))
    && (error.Some? ==> r == HandleError(error.value, Some(vault)))
    && (error.None? ==> r.Resolved? && (r.value.Success? || r.value.error == NotEnoughBalance))
    && (r == Resolved(Failure(NotEnoughBalance, Some(vault))) <==>
          readsOk && !HasEnoughBalance(balanceOf, AmountIn(chain, from, value).value))
    && (r == Resolved(Failure(NotEnoughBalance, Some(vault))) ==> !HasGasEstimate(calls))
    && (r.Resolved? && r.value.Success? ==>
          && readsOk
          && HasEnoughBalance(balanceOf, AmountIn(chain, from, value).value)
          && |calls| > 0
          && IsRedeemQuote(r.value, calls[|calls| - 1], vault, from, address, value, settings, chain))
  }

  /** What `estimateVaultRedeem` answers for a source token at address `from`: the
      gates' answer without any chain call, else the answer after the gates. */
  predicate RedeemOutcome(config: VenueConfig, mode: Mode, fromToken: Token, toToken: Token, from: string,
                          address: string, value: real, settings: Settings, chain: Chain,
                          r: Settled<Estimate>, calls: seq<ChainCall>)
    requires value > 0.0
  {
    var gate := Gate(config, mode, fromToken, toToken);
    && (gate.Some? ==> r == Resolved(gate.value) && calls == [])
    && (gate.None? ==>
          RedeemAnswer(config.contract.value, from, fromToken.balanceOf, address, value, settings, chain, r, calls))
  }

  /** `estimateVaultRedeem` after the gates: the fee data, the source decimals and
      the redeem fee, the balance gate, then the quote. */
  method RedeemAfterGates(vault: Contract, from: string, balanceOf: Option<nat>, address: string, value: real,
                          settings: Settings, chain: Chain)
    returns (r: Settled<Estimate>, calls: seq<ChainCall>)
    requires value > 0.0
    ensures RedeemAnswer(vault, from, balanceOf, address, value, settings, chain, r, calls)
  {
    var contract := Some(vault);
    calls := [GetFeeData];
    if chain.feeData.Reverted? {
      r := HandleError(chain.feeData.error, contract);
      HandleErrorKinds(chain.feeData.error, contract);
      return;
    }
    calls := calls + [GetDecimals(from), ReadContract(vault.address, "redeemFeeBps")];
    var fromDecimals := chain.decimals(from);
    var redeemFee := chain.redeemFeeBps(vault.address);
    if fromDecimals.Reverted? {
      r := HandleError(fromDecimals.error, contract);
      HandleErrorKinds(fromDecimals.error, contract);
      return;
    } else if redeemFee.Reverted? {
      r := HandleError(redeemFee.error, contract);
      HandleErrorKinds(redeemFee.error, contract);
      return;
    }
    var amount := ParseUnits(value, fromDecimals.value);
    if amount.Reverted? {
      r := HandleError(amount.error, contract);
      HandleErrorKinds(amount.error, contract);
      return;
    }
    if !HasEnoughBalance(balanceOf, amount.value) {
      r := Resolved(Failure(NotEnoughBalance, contract));
      return;
    }
    var quoteCalls;
    r, quoteCalls := QuoteRedeem(vault, from, address, value, settings, chain);
    assert r != Resolved(Failure(NotEnoughBalance, contract));
    calls := calls + quoteCalls;
  }

  /** `estimateVaultRedeem`: the gates, then the chain. */
  method EstimateVaultRedeem(config: VenueConfig, mode: Mode, fromToken: Token, toToken: Token,
                             address: string, value: real, settings: Settings, chain: Chain)
    returns (r: Settled<Estimate>, calls: seq<ChainCall>)
    requires value > 0.0
    ensures RedeemOutcome(config, mode, fromToken, toToken, fromToken.address, address, value, settings, chain,
                          r, calls)
  {
    var gate := Gate(config, mode, fromToken, toToken);
    if gate.Some? {
      return Resolved(gate.value), [];
    }
    r, calls := RedeemAfterGates(config.contract.value, fromToken.address, fromToken.balanceOf, address, value,
                                 settings, chain);
  }
}
