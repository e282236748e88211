/** Exact-integer unit conversion and the slippage minimum, as the estimators
    compute them with `parseUnits` and `BigNumber` arithmetic. */
module Units {
  import opened SwapTypes

  function Pow10(n: nat): (r: nat)
    ensures r >= 1
  {
    if n == 0 then 1 else 10 * Pow10(n - 1)
  }

  /** The error `parseUnits` throws when the amount has more fractional digits than
      the token has decimals. */
  const FractionalFault := RevertError(None, Some("fractional component exceeds decimals"))

  /** The error `BigNumber.from` throws for a number that is not an integer (or NaN). */
  const NumericFault := RevertError(None, Some("underflow"))

  /** A base-unit amount shown with `decimals` decimals (`formatUnits`, exactly). */
  function FormatUnits(wei: nat, decimals: nat): real {
    wei as real / Pow10(decimals) as real
  }

  /** An amount expressed in base units of a token with `decimals` decimals. */
  function Scale(amount: real, decimals: nat): real {
    amount * Pow10(decimals) as real
  }

  /** `parseUnits(String(amount), decimals)`: the amount in base units, which must be whole. */
  function ParseUnits(amount: real, decimals: nat): (r: Read<nat>)
    requires amount >= 0.0
    ensures r.Ok? <==> Scale(amount, decimals).Floor as real == Scale(amount, decimals)
    ensures r.Ok? ==> r.value as real == Scale(amount, decimals)
    ensures r.Reverted? ==> r.error == FractionalFault
  {
    var scaled := Scale(amount, decimals);
    assert scaled >= 0.0;
    if scaled.Floor as real == scaled then Ok(scaled.Floor) else Reverted(FractionalFault)
  }

  /** parseUnits undoes formatUnits: a base-unit amount survives the round trip. */
  lemma ParseFormatRoundTrip(wei: nat, decimals: nat)
    ensures ParseUnits(FormatUnits(wei, decimals), decimals) == Ok(wei)
  {
    var p := Pow10(decimals) as real;
    var f := FormatUnits(wei, decimals);
    assert (wei as real / p) * p == wei as real;
    assert Scale(f, decimals) == wei as real;
    assert (wei as real).Floor == wei;
  }

  /** `BigNumber.div`: integer division truncating toward zero. The quotient times
      the divisor is the multiple of `b` nearest to `a` on the side of zero. */
  function TruncDiv(a: int, b: int): (q: int)
    requires b > 0
    ensures 0 <= a ==> 0 <= q * b <= a < q * b + b
    ensures a < 0 ==> q * b - b < a <= q * b <= 0
  {
    if a >= 0 then
      DivisionBounds(a, b);
      a / b
    else
      DivisionBounds(-a, b);
      -((-a) / b)
  }

  /** Euclidean division of a natural number: the quotient times the divisor lies
      less than one divisor below the dividend. */
  lemma DivisionBounds(n: nat, b: int)
    requires b > 0
    ensures 0 <= n / b * b <= n < n / b * b + b
    ensures -(n / b) * b == -(n / b * b)
  {
  }

  /** Truncation is symmetric in the sign of the dividend (Euclidean `/` is not). */
  lemma TruncDivOdd(a: int, b: int)
    requires b > 0
    ensures TruncDiv(-a, b) == -TruncDiv(a, b)
  {
    if a == 0 {
      assert TruncDiv(0, b) == 0;
    }
  }

  /** `settings?.tolerance * 100` turned into a BigNumber: basis points, or the
      fault `BigNumber.from` raises when the product is not a whole number. */
  function SlippageBps(settings: Settings): (r: Read<int>)
    ensures r.Ok? <==> settings.tolerance.Some? &&
                       (settings.tolerance.value * 100.0).Floor as real == settings.tolerance.value * 100.0
    ensures r.Ok? ==> r.value as real == settings.tolerance.value * 100.0
  {
    match settings.tolerance
    case None => Reverted(NumericFault)
    case Some(t) =>
      var x := t * 100.0;
      if x.Floor as real == x then Ok(x.Floor) else Reverted(NumericFault)
  }

  /** `v.sub(v.mul(bps).div(10000))`: the slippage-adjusted minimum, always taken from
      the input amount `v`. */
  function MinimumAmount(v: nat, bps: int): int {
    v - TruncDiv(v * bps, 10000)
  }

  /** With a tolerance between 0% and 100% the minimum lies between 0 and the input. */
  lemma MinimumAmountBounds(v: nat, bps: int)
    requires 0 <= bps <= 10000
    ensures 0 <= MinimumAmount(v, bps) <= v
  {
    assert 0 <= v * bps <= v * 10000 by {
      assert v * bps <= v * 10000;
    }
    DivLe(v * bps, v * 10000, 10000);
    assert v * 10000 / 10000 == v;
  }

  lemma DivLe(x: int, y: int, d: int)
    requires 0 <= x <= y && d > 0
    ensures x / d <= y / d
  {
    var qx, qy := x / d, y / d;
    assert d * qx + x % d == x && 0 <= x % d < d;
    assert d * qy + y % d == y && 0 <= y % d < d;
    if qx > qy {
      MulLe(d, qy + 1, qx);
      assert false;
    }
  }

  lemma MulLe(a: nat, b: int, c: int)
    requires 0 <= b <= c
    ensures a * b <= a * c
  {
  }

  /** The minimum is `v * (1 - bps/10000)` rounded up: it is never below the
      tolerated amount and exceeds it by less than one base unit. */
  lemma MinimumAmountIsCeiling(v: nat, bps: int)
    requires 0 <= bps
    ensures MinimumAmount(v, bps) * 10000 >= v * (10000 - bps)
    ensures MinimumAmount(v, bps) * 10000 < v * (10000 - bps) + 10000
  {
    var q := v * bps / 10000;
    var rem := v * bps % 10000;
    assert v * bps == 10000 * q + rem;
    assert MinimumAmount(v, bps) == v - q;
    calc {
      MinimumAmount(v, bps) * 10000;
      10000 * v - 10000 * q;
      10000 * v - v * bps + rem;
      { assert v * (10000 - bps) == 10000 * v - v * bps; }
      v * (10000 - bps) + rem;
    }
  }

  /** A larger tolerance never raises the minimum. */
  lemma MinimumAmountAntitone(v: nat, bps1: int, bps2: int)
    requires 0 <= bps1 <= bps2
    ensures MinimumAmount(v, bps2) <= MinimumAmount(v, bps1)
  {
    assert v * bps1 <= v * bps2;
    DivLe(v * bps1, v * bps2, 10000);
  }

  /** 1000 tokens of 18 decimals at a 1% tolerance give a minimum of 990 tokens. */
  lemma MinimumAmountExample()
    ensures SlippageBps(Settings(Some(1.0))) == Ok(100)
    ensures ParseUnits(1000.0, 18) == Ok(1000 * Pow10(18))
    ensures MinimumAmount(1000 * Pow10(18), 100) == 990 * Pow10(18)
  {
    var p := Pow10(18);
    assert Scale(1000.0, 18) == (1000 * p) as real;
    assert ((1000 * p) as real).Floor == 1000 * p;
    assert 1000 * p * 100 == 10000 * (10 * p);
    assert 10000 * (10 * p) / 10000 == 10 * p;
    assert TruncDiv(1000 * p * 100, 10000) == 10 * p;
  }
}
