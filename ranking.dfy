/** `enrichAndSortEstimates`: every estimate is priced in USD terms (or dropped),
    then the kept ones are ordered by effective price with a stable sort. Exact
    reals stand in for JavaScript numbers; `Infinite` stands for `Infinity`. */
module Ranking {
  import opened SwapTypes
  import opened Units

  datatype Price = Finite(amount: real) | Infinite

  /** The ascending order `orderBy` uses on effective prices: Infinity after every
      finite price. */
  predicate PriceLe(a: Price, b: Price) {
    b.Infinite? || (a.Finite? && a.amount <= b.amount)
  }

  /** PriceLe is a total preorder. */
  lemma PriceLeTotal(a: Price, b: Price, c: Price)
    ensures PriceLe(a, a)
    ensures PriceLe(a, b) || PriceLe(b, a)
    ensures PriceLe(a, b) && PriceLe(b, c) ==> PriceLe(a, c)
    ensures PriceLe(a, b) && PriceLe(b, a) ==> a == b
  {
  }

  /** The USD figures added to a priced quote. */
  datatype UsdFigures = UsdFigures(usdConversionPrice: Option<real>, gasCostUsd: real, valueInUsd: real,
                                   receiveAmountUsd: real)

  /** A ranked estimate: the estimate, its effective price, and the USD figures
      (present for quotes only). */
  datatype Ranked = Ranked(estimate: Estimate, effectivePrice: Price, figures: Option<UsdFigures>)

  /** What the enrichment map does to one estimate. */
  datatype Enrichment = Kept(entry: Ranked) | Dropped | Throws

  /** `Math.trunc`. */
  function Trunc(x: real): (t: int)
    ensures x >= 0.0 ==> t as real <= x < t as real + 1.0
    ensures x < 0.0 ==> t as real - 1.0 < x <= t as real
  {
    if x >= 0.0 then x.Floor else -((-x).Floor)
  }

  /** `gasPrice * gasLimit * trunc(usd)` formatted with 18 decimals. */
  function GasCostUsd(gasPrice: nat, gasLimit: nat, usd: real): real {
    (gasPrice * gasLimit * Trunc(usd)) as real / Pow10(18) as real
  }

  /** The quoted amount (18 decimals) times the conversion price. */
  function ReceiveAmountUsd(receiveAmount: nat, usd: real): real {
    FormatUnits(receiveAmount, 18) * usd
  }

  /** `(value + gasCostUsd) / receiveAmountUsd`: the numerator is the raw input
      amount, not its USD value. A zero denominator gives Infinity. */
  function EffectivePrice(value: real, gasCostUsd: real, receiveAmountUsd: real): (p: Price)
    ensures p.Infinite? <==> receiveAmountUsd == 0.0
  {
    if receiveAmountUsd == 0.0 then Infinite else Finite((value + gasCostUsd) / receiveAmountUsd)
  }

  /** One step of the map: UNSUPPORTED is kept at Infinity, other errors are
      dropped, a quote is priced (reading `feeData.gasPrice`, which throws when the
      gas price is missing). An absent conversion price counts as 0. */
  function Enrich(e: Estimate, usdConversionPrice: Option<real>): (r: Enrichment)
    ensures e.Failure? && e.error == Unsupported <==> r.Kept? && r.entry.effectivePrice.Infinite? && r.entry.figures.None?
    ensures e.Failure? && e.error != Unsupported <==> r.Dropped?
    ensures r.Throws? <==> e.Success? && e.feeData.gasPrice.None?
    ensures r.Kept? ==> r.entry.estimate == e
  {
    match e
    case Failure(error, _) =>
      if error == Unsupported then Kept(Ranked(e, Infinite, None)) else Dropped
    case Success(_, gasLimit, receiveAmount, _, _, feeData, _, _, value) =>
      if feeData.gasPrice.None? then Throws
      else
        var usd := usdConversionPrice.GetOr(0.0);
        var gasCostUsd := GasCostUsd(feeData.gasPrice.value, gasLimit, usd);
        var receiveAmountUsd := ReceiveAmountUsd(receiveAmount, usd);
        var figures := UsdFigures(usdConversionPrice, gasCostUsd, value * usd, receiveAmountUsd);
        Kept(Ranked(e, EffectivePrice(value, gasCostUsd, receiveAmountUsd), Some(figures)))
  }

  /** A quote with a positive price and a positive amount gets a finite effective
      price; without a conversion price it gets Infinity. */
  lemma QuotePriceFinite(e: Estimate, usd: real)
    requires e.Success? && e.feeData.gasPrice.Some? && e.receiveAmount > 0 && usd > 0.0
    ensures Enrich(e, Some(usd)).Kept? && Enrich(e, Some(usd)).entry.effectivePrice.Finite?
    ensures Enrich(e, None).Kept? && Enrich(e, None).entry.effectivePrice.Infinite?
  {
    assert FormatUnits(e.receiveAmount, 18) > 0.0;
    assert ReceiveAmountUsd(e.receiveAmount, usd) > 0.0;
  }

  /** The map then `filter(Boolean)`; None when the map throws. */
  function EnrichAll(estimates: seq<Estimate>, usdConversionPrice: Option<real>): (r: Option<seq<Ranked>>)
    ensures r.None? <==> exists i :: 0 <= i < |estimates| && Enrich(estimates[i], usdConversionPrice).Throws?
    ensures r.Some? ==> |r.value| <= |estimates|
  {
    if |estimates| == 0 then Some([])
    else
      var rest := EnrichAll(estimates[1..], usdConversionPrice);
      assert forall i :: 1 <= i < |estimates| ==> estimates[i] == estimates[1..][i - 1];
      match Enrich(estimates[0], usdConversionPrice)
      case Throws => None
      case Dropped => rest
      case Kept(entry) => if rest.None? then None else Some([entry] + rest.value)
  }

  /** The estimates an enrichment keeps, in order. */
  function KeptEstimates(estimates: seq<Estimate>): seq<Estimate> {
    if |estimates| == 0 then []
    else if estimates[0].Success? || estimates[0].error == Unsupported then [estimates[0]] + KeptEstimates(estimates[1..])
    else KeptEstimates(estimates[1..])
  }

  function EstimatesOf(rs: seq<Ranked>): (es: seq<Estimate>)
    ensures |es| == |rs| && forall i :: 0 <= i < |rs| ==> es[i] == rs[i].estimate
  {
    if |rs| == 0 then [] else [rs[0].estimate] + EstimatesOf(rs[1..])
  }

  /** The enrichment keeps exactly the quotes and the UNSUPPORTED failures, in order. */
  lemma {:induction false} EnrichAllKeeps(estimates: seq<Estimate>, usd: Option<real>)
    requires EnrichAll(estimates, usd).Some?
    ensures EstimatesOf(EnrichAll(estimates, usd).value) == KeptEstimates(estimates)
  {
    if |estimates| > 0 {
      EnrichAllKeeps(estimates[1..], usd);
    }
  }

  // ---------------------------------------------------------------------------
  // The stable sort

  /** Put `x` before the first entry whose price is not below its own. */
  function Insert(x: Ranked, s: seq<Ranked>): (r: seq<Ranked>)
    ensures |r| == |s| + 1
  {
    if |s| == 0 then [x]
    else if PriceLe(x.effectivePrice, s[0].effectivePrice) then [x] + s
    else [s[0]] + Insert(x, s[1..])
  }

  /** One insertion step adds exactly `x`. */
  lemma {:induction false} InsertPermutes(x: Ranked, s: seq<Ranked>)
    ensures multiset(Insert(x, s)) == multiset(s) + multiset{x}
  {
    if |s| > 0 && !PriceLe(x.effectivePrice, s[0].effectivePrice) {
      InsertPermutes(x, s[1..]);
      assert s == [s[0]] + s[1..];
    }
  }

  /** `orderBy(entries, 'effectivePrice', 'asc')`, as an insertion sort that keeps
      equal prices in their input order. */
  function OrderByPrice(s: seq<Ranked>): (r: seq<Ranked>)
    ensures |r| == |s|
  {
    if |s| == 0 then [] else Insert(s[0], OrderByPrice(s[1..]))
  }

  predicate Sorted(s: seq<Ranked>) {
    forall i, j :: 0 <= i < j < |s| ==> PriceLe(s[i].effectivePrice, s[j].effectivePrice)
  }

  lemma {:induction false} InsertSorted(x: Ranked, s: seq<Ranked>)
    requires Sorted(s)
    ensures Sorted(Insert(x, s))
  {
    if |s| > 0 && !PriceLe(x.effectivePrice, s[0].effectivePrice) {
      var s1 := s[1..];
      assert Sorted(s1);
      InsertSorted(x, s1);
      PriceLeTotal(x.effectivePrice, s[0].effectivePrice, x.effectivePrice);
      InsertLowerBound(x, s1, s[0].effectivePrice);
      SortedCons(s[0], Insert(x, s1));
    } else if |s| > 0 {
      forall j | 0 <= j < |s| ensures PriceLe(x.effectivePrice, s[j].effectivePrice) {
        PriceLeTotal(x.effectivePrice, s[0].effectivePrice, s[j].effectivePrice);
      }
      SortedCons(x, s);
    }
  }

  /** A lower bound of `x` and of every entry of `s` bounds every entry after the insertion. */
  lemma {:induction false} InsertLowerBound(x: Ranked, s: seq<Ranked>, b: Price)
    requires PriceLe(b, x.effectivePrice)
    requires forall k :: 0 <= k < |s| ==> PriceLe(b, s[k].effectivePrice)
    ensures forall k :: 0 <= k < |Insert(x, s)| ==> PriceLe(b, Insert(x, s)[k].effectivePrice)
  {
    if |s| > 0 && !PriceLe(x.effectivePrice, s[0].effectivePrice) {
      InsertLowerBound(x, s[1..], b);
      var t := Insert(x, s[1..]);
      assert Insert(x, s) == [s[0]] + t;
    } else if |s| > 0 {
      assert Insert(x, s) == [x] + s;
    }
  }

  lemma SortedCons(y: Ranked, s: seq<Ranked>)
    requires Sorted(s)
    requires forall k :: 0 <= k < |s| ==> PriceLe(y.effectivePrice, s[k].effectivePrice)
    ensures Sorted([y] + s)
  {
    var t := [y] + s;
    forall i, j | 0 <= i < j < |t| ensures PriceLe(t[i].effectivePrice, t[j].effectivePrice) {
      if i > 0 {
        assert t[i] == s[i - 1] && t[j] == s[j - 1];
      } else {
        assert t[j] == s[j - 1];
      }
    }
  }

  /** The output is in ascending effective-price order. */
  lemma {:induction false} OrderByPriceSorted(s: seq<Ranked>)
    ensures Sorted(OrderByPrice(s))
  {
    if |s| > 0 {
      OrderByPriceSorted(s[1..]);
      InsertSorted(s[0], OrderByPrice(s[1..]));
    }
  }

  /** The output holds exactly the input entries. */
  lemma {:induction false} OrderByPricePermutes(s: seq<Ranked>)
    ensures multiset(OrderByPrice(s)) == multiset(s)
  {
    if |s| > 0 {
      OrderByPricePermutes(s[1..]);
      InsertPermutes(s[0], OrderByPrice(s[1..]));
      assert s == [s[0]] + s[1..];
    }
  }

  /** The entries with price `p`, in order. */
  function WithPrice(s: seq<Ranked>, p: Price): seq<Ranked> {
    if |s| == 0 then []
    else (if s[0].effectivePrice == p then [s[0]] else []) + WithPrice(s[1..], p)
  }

  lemma WithPriceCons(y: Ranked, s: seq<Ranked>, p: Price)
    ensures WithPrice([y] + s, p) == (if y.effectivePrice == p then [y] else []) + WithPrice(s, p)
  {
    var t := [y] + s;
    assert t[0] == y && t[1..] == s;
  }

  lemma {:induction false} InsertWithPrice(x: Ranked, s: seq<Ranked>, p: Price)
    ensures WithPrice(Insert(x, s), p) == (if x.effectivePrice == p then [x] else []) + WithPrice(s, p)
  {
    if |s| == 0 {
      WithPriceCons(x, [], p);
      assert [x] + [] == [x];
    } else if PriceLe(x.effectivePrice, s[0].effectivePrice) {
      WithPriceCons(x, s, p);
    } else {
      InsertWithPrice(x, s[1..], p);
      InsertWithPriceStep(x, s, p);
    }
  }

  /** The inductive step: `x` goes past `s[0]`, whose price differs from its own. */
  lemma InsertWithPriceStep(x: Ranked, s: seq<Ranked>, p: Price)
    requires |s| > 0 && !PriceLe(x.effectivePrice, s[0].effectivePrice)
    requires WithPrice(Insert(x, s[1..]), p) == (if x.effectivePrice == p then [x] else []) + WithPrice(s[1..], p)
    ensures WithPrice(Insert(x, s), p) == (if x.effectivePrice == p then [x] else []) + WithPrice(s, p)
  {
    var xs := if x.effectivePrice == p then [x] else [];
    var ys := if s[0].effectivePrice == p then [s[0]] else [];
    var rest := WithPrice(s[1..], p);
    assert WithPrice(Insert(x, s), p) == ys + (xs + rest) by {
      var inserted := Insert(x, s[1..]);
      assert Insert(x, s) == [s[0]] + inserted;
      WithPriceCons(s[0], inserted, p);
    }
    assert WithPrice(s, p) == ys + rest by {
      assert s == [s[0]] + s[1..];
      WithPriceCons(s[0], s[1..], p);
    }
    assert xs == [] || ys == [] by {
      assert x.effectivePrice != s[0].effectivePrice;
    }
    assert ys + (xs + rest) == xs + (ys + rest) by {
      if xs == [] {
        assert xs + rest == rest && xs + (ys + rest) == ys + rest;
      } else {
        assert ys + (xs + rest) == xs + rest && ys + rest == rest;
      }
    }
  }

  /** Stability: for every price, the entries with that price keep their input order. */
  lemma {:induction false} OrderByPriceStable(s: seq<Ranked>, p: Price)
    ensures WithPrice(OrderByPrice(s), p) == WithPrice(s, p)
  {
    if |s| > 0 {
      OrderByPriceStable(s[1..], p);
      InsertWithPrice(s[0], OrderByPrice(s[1..]), p);
    }
  }

  /** `enrichAndSortEstimates`: None when enrichment throws. */
  function RankEstimates(estimates: seq<Estimate>, usdConversionPrice: Option<real>): (r: Option<seq<Ranked>>)
    ensures r.Some? <==> EnrichAll(estimates, usdConversionPrice).Some?
  {
    match EnrichAll(estimates, usdConversionPrice)
    case None => None
    case Some(entries) => Some(OrderByPrice(entries))
  }

  /** The ranking is in ascending effective-price order. */
  lemma RankEstimatesSorted(estimates: seq<Estimate>, usd: Option<real>)
    requires RankEstimates(estimates, usd).Some?
    ensures Sorted(RankEstimates(estimates, usd).value)
  {
    OrderByPriceSorted(EnrichAll(estimates, usd).value);
  }

  lemma {:induction false} InsertEstimates(x: Ranked, s: seq<Ranked>)
    ensures multiset(EstimatesOf(Insert(x, s))) == multiset(EstimatesOf(s)) + multiset{x.estimate}
  {
    if |s| > 0 && !PriceLe(x.effectivePrice, s[0].effectivePrice) {
      InsertEstimates(x, s[1..]);
      assert EstimatesOf(Insert(x, s)) == [s[0].estimate] + EstimatesOf(Insert(x, s[1..]));
      assert EstimatesOf(s) == [s[0].estimate] + EstimatesOf(s[1..]);
    } else if |s| > 0 {
      assert EstimatesOf(Insert(x, s)) == [x.estimate] + EstimatesOf(s);
    }
  }

  lemma {:induction false} OrderByPriceEstimates(s: seq<Ranked>)
    ensures multiset(EstimatesOf(OrderByPrice(s))) == multiset(EstimatesOf(s))
  {
    if |s| > 0 {
      OrderByPriceEstimates(s[1..]);
      InsertEstimates(s[0], OrderByPrice(s[1..]));
      assert EstimatesOf(s) == [s[0].estimate] + EstimatesOf(s[1..]);
    }
  }

  /** The ranking holds exactly the quotes and the UNSUPPORTED failures. */
  lemma RankEstimatesKeeps(estimates: seq<Estimate>, usd: Option<real>)
    requires RankEstimates(estimates, usd).Some?
    ensures multiset(EstimatesOf(RankEstimates(estimates, usd).value)) == multiset(KeptEstimates(estimates))
  {
    OrderByPriceEstimates(EnrichAll(estimates, usd).value);
    EnrichAllKeeps(estimates, usd);
  }

  /** Entries with equal effective price keep their fan-out order. */
  lemma RankEstimatesStable(estimates: seq<Estimate>, usd: Option<real>, p: Price)
    requires RankEstimates(estimates, usd).Some?
    ensures WithPrice(RankEstimates(estimates, usd).value, p) == WithPrice(EnrichAll(estimates, usd).value, p)
  {
    OrderByPriceStable(EnrichAll(estimates, usd).value, p);
  }

  /** Every UNSUPPORTED entry comes after every finite price. */
  lemma RankEstimatesUnsupportedLast(estimates: seq<Estimate>, usd: Option<real>, i: nat, j: nat)
    requires RankEstimates(estimates, usd).Some?
    requires i < |RankEstimates(estimates, usd).value| && j < |RankEstimates(estimates, usd).value|
    requires RankEstimates(estimates, usd).value[i].effectivePrice.Finite?
    requires RankEstimates(estimates, usd).value[j].estimate.Failure?
    ensures i < j
  {
    var entries := EnrichAll(estimates, usd).value;
    var r := OrderByPrice(entries);
    OrderByPriceSorted(entries);
    OrderByPricePermutes(entries);
    assert r[j] in multiset(entries);
    UnsupportedEntriesAreInfinite(estimates, usd, r[j]);
  }

  /** Every failure the enrichment keeps is priced at Infinity. */
  lemma {:induction false} UnsupportedEntriesAreInfinite(estimates: seq<Estimate>, usd: Option<real>, x: Ranked)
    requires EnrichAll(estimates, usd).Some? && x in EnrichAll(estimates, usd).value
    ensures x.estimate.Failure? ==> x.effectivePrice.Infinite?
  {
    if |estimates| > 0 {
      var rest := EnrichAll(estimates[1..], usd);
      if Enrich(estimates[0], usd).Kept? && x == Enrich(estimates[0], usd).entry {
      } else {
        UnsupportedEntriesAreInfinite(estimates[1..], usd, x);
      }
    }
  }

  /** With the same cost and a positive conversion price, the larger quote has the
      lower effective price. */
  lemma LargerQuoteIsCheaper(a: Estimate, b: Estimate, usd: real)
    requires a.Success? && b.Success? && usd > 0.0
    requires a.feeData.gasPrice.Some? && a.feeData == b.feeData
    requires a.gasLimit == b.gasLimit && a.value == b.value && a.value > 0.0
    requires a.receiveAmount > b.receiveAmount > 0
    ensures Enrich(a, Some(usd)).Kept? && Enrich(b, Some(usd)).Kept?
    ensures var pa := Enrich(a, Some(usd)).entry.effectivePrice;
            var pb := Enrich(b, Some(usd)).entry.effectivePrice;
            pa.Finite? && pb.Finite? && pa.amount < pb.amount
  {
    var gas := GasCostUsd(a.feeData.gasPrice.value, a.gasLimit, usd);
    assert gas >= 0.0 by {
      assert Trunc(usd) >= 0;
      assert a.feeData.gasPrice.value * a.gasLimit * Trunc(usd) >= 0;
    }
    var ra := ReceiveAmountUsd(a.receiveAmount, usd);
    var rb := ReceiveAmountUsd(b.receiveAmount, usd);
    ScaledAbove(a.receiveAmount, b.receiveAmount, usd);
    QuotientAntitone(a.value + gas, ra, rb);
  }

  lemma ScaledAbove(x: nat, y: nat, usd: real)
    requires x > y > 0 && usd > 0.0
    ensures ReceiveAmountUsd(x, usd) > ReceiveAmountUsd(y, usd) > 0.0
  {
    var p := Pow10(18) as real;
    var fx, fy := x as real / p, y as real / p;
    assert fx > fy > 0.0;
    assert fx * usd > fy * usd;
  }

  /** Two quotes at the same cost: the larger one is ranked first, whatever their
      fan-out order (receive 120 before receive 100). */
  lemma LargerQuoteRanksFirst(a: Estimate, b: Estimate, usd: real)
    requires a.Success? && b.Success? && usd > 0.0
    requires a.feeData.gasPrice.Some? && a.feeData == b.feeData
    requires a.gasLimit == b.gasLimit && a.value == b.value && a.value > 0.0
    requires a.receiveAmount > b.receiveAmount > 0
    ensures RankEstimates([b, a], Some(usd)) == Some([Enrich(a, Some(usd)).entry, Enrich(b, Some(usd)).entry])
  {
    LargerQuoteIsCheaper(a, b, usd);
    var ea, eb := Enrich(a, Some(usd)).entry, Enrich(b, Some(usd)).entry;
    EnrichPair(b, a, Some(usd));
    OrderPair(eb, ea);
  }

  lemma EnrichPair(a: Estimate, b: Estimate, usd: Option<real>)
    requires Enrich(a, usd).Kept? && Enrich(b, usd).Kept?
    ensures EnrichAll([a, b], usd) == Some([Enrich(a, usd).entry, Enrich(b, usd).entry])
  {
    assert [a, b][1..] == [b];
    assert [b][1..] == [];
    var ea, eb := Enrich(a, usd).entry, Enrich(b, usd).entry;
    assert EnrichAll([b], usd) == Some([eb]) by {
      assert EnrichAll([b][1..], usd) == Some([]);
      assert [eb] + [] == [eb];
    }
    assert [a, b][0] == a;
    assert [ea] + [eb] == [ea, eb];
  }

  lemma OrderPair(x: Ranked, y: Ranked)
    requires !PriceLe(x.effectivePrice, y.effectivePrice)
    ensures OrderByPrice([x, y]) == [y, x]
  {
    assert [x, y][1..] == [y];
    assert [y][1..] == [];
    assert OrderByPrice([y]) == [y];
    assert Insert(x, [y]) == [y] + Insert(x, []);
  }

  lemma QuotientAntitone(n: real, d1: real, d2: real)
    requires n > 0.0 && d1 > d2 > 0.0
    ensures n / d1 < n / d2
  {
    var q1, q2 := n / d1, n / d2;
    assert q1 * d1 == n && q2 * d2 == n;
  }
}
