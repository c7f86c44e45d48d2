/** Minor and major units of a currency (src/domain/payments/currency.ts). Doubles are reals here, and every
    operation on them is followed by a rounding `fl` with relative error at most 2^-53, like the one to the nearest
    double. */
module Currency {
  import opened Doubles
  import opened Outcomes
  import opened Text

  datatype CurrencyError = InvalidCode | UnsupportedCode | InvalidMinor | InvalidMajor | NotInteger | NotExact

  const EXPONENTS: map<string, nat> := map[
    "JPY" := 0, "KRW" := 0, "VND" := 0, "CLP" := 0,
    "USD" := 2, "EUR" := 2, "GBP" := 2, "COP" := 2, "MXN" := 2, "BRL" := 2, "CAD" := 2, "AUD" := 2, "CHF" := 2,
    "KWD" := 3, "BHD" := 3, "OMR" := 3, "JOD" := 3]

  predicate IsCode(s: string) {
    |s| == 3 && forall i | 0 <= i < 3 :: 'A' <= s[i] <= 'Z'
  }

  function CurrencyExponent(currency: string): Result<nat, CurrencyError> {
    var code := Upper(Trim(currency));
    if !IsCode(code) then Err(InvalidCode)
    else if code !in EXPONENTS then Err(UnsupportedCode)
    else Ok(EXPONENTS[code])
  }

  function Pow10(n: nat): nat
    ensures Pow10(n) >= 1
  {
    if n == 0 then 1 else 10 * Pow10(n - 1)
  }

  function Abs(x: real): real {
    if x < 0.0 then -x else x
  }

  function Max(x: real, y: real): real {
    if x >= y then x else y
  }

  /** Math.round: the nearest integer, ties upwards. */
  function Round(x: real): int {
    (x + 0.5).Floor
  }

  function Times(x: real, y: real): real {
    x * y
  }

  type Rounding = real -> real

  /** `valueMinor` is an integer already; the source also refuses fractions. */
  function MinorToMajor(fl: Rounding, valueMinor: int, currency: string): Result<real, CurrencyError> {
    if valueMinor < 0 then Err(InvalidMinor)
    else
      match CurrencyExponent(currency)
      case Err(e) => Err(e)
      case Ok(exp) => Ok(if exp == 0 then valueMinor as real else fl(valueMinor as real / Pow10(exp) as real))
  }

  /** The drift guard: how far the result, taken back to major units, may be from the input. */
  predicate Exact(fl: Rounding, minor: int, factor: nat, valueMajor: real)
    requires factor > 0
  {
    Abs(fl(fl(minor as real / factor as real) - valueMajor)) <= fl(Times(fl(1e-9), Max(1.0, Abs(valueMajor))))
  }

  function MajorToMinor(fl: Rounding, valueMajor: real, currency: string): Result<int, CurrencyError> {
    if valueMajor < 0.0 then Err(InvalidMajor)
    else
      match CurrencyExponent(currency)
      case Err(e) => Err(e)
      case Ok(exp) =>
        if exp == 0 then
          if valueMajor.Floor as real == valueMajor then Ok(valueMajor.Floor) else Err(NotInteger)
        else
          var factor := Pow10(exp);
          var minor := Round(fl(Times(valueMajor, factor as real)));
          if Exact(fl, minor, factor, valueMajor) then Ok(minor) else Err(NotExact)
  }

  // ---------------------------------------------------------------- what is refused

  /** The letters of a code count without their case and the space around them. */
  lemma CodeRefusedIff(currency: string)
    ensures var code, r := Upper(Trim(currency)), CurrencyExponent(currency);
            var letters := |code| == 3 && 'A' <= code[0] <= 'Z' && 'A' <= code[1] <= 'Z' && 'A' <= code[2] <= 'Z';
            && (r == Err(InvalidCode) <==> !letters)
            && (r == Err(UnsupportedCode) <==> letters && code !in EXPONENTS)
            && (r.Ok? <==> code in EXPONENTS) && (r.Ok? ==> r.value == EXPONENTS[code])
  {
  }

  predicate IsNumber(n: int, x: real) {
    n as real == x
  }

  /** An amount is refused when it is negative, then for its code, and a major amount at last when it is no whole number
      of minor units: exactly so without decimals, and up to the drift guard with some. */
  lemma AmountRefusedIff(fl: Rounding, minor: int, major: real, currency: string)
    ensures var exp, to := CurrencyExponent(currency), MinorToMajor(fl, minor, currency);
            && (to == Err(InvalidMinor) <==> minor < 0) && (minor >= 0 ==> (to.Ok? <==> exp.Ok?))
            && (minor >= 0 && exp.Err? ==> to == Err(exp.error))
    ensures var exp, from := CurrencyExponent(currency), MajorToMinor(fl, major, currency);
            && (from == Err(InvalidMajor) <==> major < 0.0)
            && (major >= 0.0 && exp.Err? ==> from == Err(exp.error))
            && (major >= 0.0 && exp == Ok(0) ==>
                  && (from.Ok? <==> exists n: int :: IsNumber(n, major))
                  && (from.Ok? ==> from.value as real == major) && (from.Err? ==> from.error == NotInteger))
            && (major >= 0.0 && exp.Ok? && exp.value > 0 ==> from.Ok? || from == Err(NotExact))
  {
    if n: int :| IsNumber(n, major) {
      assert major.Floor == n;
    }
    assert MajorToMinor(fl, major, currency).Ok? && major.Floor as real == major ==> IsNumber(major.Floor, major);
  }

  // ---------------------------------------------------------------- the round trip

  const ULP: real := 1.0 / TWO53

  /** 2^51 */
  const LIMIT: int := 2_251_799_813_685_248

  predicate RoundsAt(fl: Rounding, x: real) {
    Abs(fl(x) - x) <= ULP * Abs(x)
  }

  ghost predicate Rounds(fl: Rounding) {
    forall x :: RoundsAt(fl, x)
  }

  predicate RoundTrips(fl: Rounding, v: nat, currency: string) {
    && MinorToMajor(fl, v, currency).Ok?
    && MajorToMinor(fl, MinorToMajor(fl, v, currency).value, currency) == Ok(v)
  }

  /** `y` is `x` rounded, for a relative error of `u`. */
  predicate Near(y: real, x: real, u: real) {
    x - u * x <= y <= x + u * x
  }

  lemma RoundedIsNear(fl: Rounding, x: real)
    requires Rounds(fl) && x >= 0.0
    ensures Near(fl(x), x, ULP)
  {
    assert RoundsAt(fl, x);
  }

  lemma MulMono(a: real, b: real, f: real)
    requires a <= b && f >= 0.0
    ensures a * f <= b * f
  {
  }

  lemma NearNonNegative(y: real, x: real, u: real)
    requires Near(y, x, u) && x >= 0.0 && 0.0 <= u <= 1.0
    ensures y >= 0.0
  {
    MulMono(u, 1.0, x);
  }

  lemma NearScaled(y: real, x: real, u: real, f: real)
    requires Near(y, x, u) && f >= 0.0
    ensures Near(y * f, x * f, u)
  {
    MulMono(x - u * x, y, f);
    MulMono(y, x + u * x, f);
    assert (x - u * x) * f == x * f - u * (x * f);
    assert (x + u * x) * f == x * f + u * (x * f);
  }

  lemma TwiceExpanded(u: real, x: real)
    ensures (2.0 * u + u * u) * x == u * x + u * x + u * (u * x)
  {
  }

  lemma Expanded(u: real, x: real, a: real)
    ensures (x + u * x - a) * u == u * x + u * (u * x) - u * a
  {
  }

  lemma ProductBound(u: real, x: real, a: real)
    requires 0.0 <= u && a <= x + u * x
    ensures u * a <= u * x + u * (u * x)
  {
    MulMono(0.0, x + u * x - a, u);
    Expanded(u, x, a);
  }

  /** Two roundings in a row. */
  lemma NearTwice(b: real, a: real, x: real, u: real)
    requires Near(a, x, u) && Near(b, a, u) && 0.0 <= u
    ensures Near(b, x, 2.0 * u + u * u)
  {
    ProductBound(u, x, a);
    TwiceExpanded(u, x);
    NearTwiceLinear(b, a, x, u * x, u * (u * x), u * a, (2.0 * u + u * u) * x);
  }

  lemma ScaleBound(a: real, b: real, u: real)
    requires a <= b && u >= 0.0
    ensures u * a <= u * b
  {
    MulMono(a, b, u);
  }

  lemma NearTwiceLinear(b: real, a: real, x: real, ux: real, uux: real, ua: real, e: real)
    requires x - ux <= a <= x + ux && a - ua <= b <= a + ua && ua <= ux + uux && e == ux + ux + uux
    ensures x - e <= b <= x + e
  {
  }

  /** So an integer below 2^51 that is rounded twice is still the nearest integer. */
  lemma RoundsBack(v: nat, b: real)
    requires v < LIMIT && Near(b, v as real, 2.0 * ULP + ULP * ULP)
    ensures Round(b) == v
  {
    var e := 2.0 * ULP + ULP * ULP;
    ScaleBound(v as real, 2251799813685247.0, e);
    assert e * 2251799813685247.0 < 0.5;
  }

  /** The arithmetic of the round trip: `m` is the rounded quotient and `b` the rounded product. */
  lemma QuotientComesBack(v: nat, q: real, f: real, m: real, b: real)
    requires v < LIMIT && q >= 0.0 && f >= 0.0 && q * f == v as real
    requires Near(m, q, ULP) && Near(b, m * f, ULP)
    ensures Round(b) == v
  {
    NearScaled(m, q, ULP, f);
    NearTwice(b, m * f, v as real, ULP);
    RoundsBack(v, b);
  }

  lemma BoundNonNegative(c: real, z: real, r: real)
    requires Near(c, 1e-9, ULP) && z >= 0.0 && Near(r, c * z, ULP)
    ensures c >= 0.0 && r >= 0.0
  {
    NearNonNegative(c, 1e-9, ULP);
    MulMono(0.0, c, z);
    NearNonNegative(r, c * z, ULP);
  }

  lemma GuardAcceptsItself(fl: Rounding, v: nat, factor: nat, m: real)
    requires Rounds(fl) && factor > 0 && m == fl(v as real / factor as real)
    ensures Exact(fl, v, factor, m)
  {
    var z := Max(1.0, Abs(m));
    RoundedIsNear(fl, 1e-9);
    BoundIsRounded(fl, fl(1e-9), z);
    RoundedIsNear(fl, 0.0);
    BoundNonNegative(fl(1e-9), z, fl(Times(fl(1e-9), z)));
  }

  lemma BoundIsRounded(fl: Rounding, c: real, z: real)
    requires Rounds(fl) && Near(c, 1e-9, ULP) && z >= 0.0
    ensures Near(fl(Times(c, z)), c * z, ULP)
  {
    NearNonNegative(c, 1e-9, ULP);
    MulMono(0.0, c, z);
    RoundedIsNear(fl, Times(c, z));
  }

  lemma ProductIsRounded(fl: Rounding, q: real, f: real)
    requires Rounds(fl) && q >= 0.0 && f >= 0.0
    ensures fl(q) >= 0.0 && Near(fl(q), q, ULP) && Near(fl(Times(fl(q), f)), fl(q) * f, ULP)
  {
    RoundedIsNear(fl, q);
    NearNonNegative(fl(q), q, ULP);
    MulMono(0.0, fl(q), f);
    RoundedIsNear(fl, Times(fl(q), f));
  }

  lemma MinorComesBack(fl: Rounding, v: nat, factor: nat)
    requires Rounds(fl) && v < LIMIT && factor > 0
    ensures var m := fl(v as real / factor as real); m >= 0.0 && Round(fl(Times(m, factor as real))) == v
  {
    var q, f := v as real / factor as real, factor as real;
    assert q * f == v as real;
    ProductIsRounded(fl, q, f);
    QuotientComesBack(v, q, f, fl(q), fl(Times(fl(q), f)));
  }

  /** Every rounding gives back every amount below 2^51 minor units, and the drift guard accepts it. */
  lemma SmallAmountsRoundTrip(fl: Rounding, v: nat, currency: string)
    requires Rounds(fl) && CurrencyExponent(currency).Ok? && v < LIMIT
    ensures RoundTrips(fl, v, currency)
  {
    var exp := CurrencyExponent(currency).value;
    if exp > 0 {
      MinorComesBack(fl, v, Pow10(exp));
      GuardAcceptsItself(fl, v, Pow10(exp), fl(v as real / Pow10(exp) as real));
    }
  }

  // ---------------------------------------------------------------- 2^51 is tight for all roundings together

  /** The rounding of the class that errs most; no machine rounds like this. */
  function RoundUp(x: real): real {
    x + ULP * x
  }

  lemma RoundUpRounds()
    ensures Rounds(RoundUp)
  {
    forall x
      ensures RoundsAt(RoundUp, x)
    {
      AbsTimes(ULP, x);
    }
  }

  lemma AbsTimes(u: real, x: real)
    requires u >= 0.0
    ensures Abs(u * x) == u * Abs(x)
  {
    if x >= 0.0 {
      MulMono(0.0, x, u);
    } else {
      MulMono(x, 0.0, u);
      assert u * (-x) == -(u * x);
    }
  }

  lemma RoundUpMisses(v: nat, factor: nat)
    requires v >= LIMIT && factor > 0
    ensures Round(RoundUp(Times(RoundUp(v as real / factor as real), factor as real))) > v
  {
    var x, f := v as real, factor as real;
    var q := x / f;
    assert q * f == x;
    assert RoundUp(q) * f == x + ULP * x by {
      assert (q + ULP * q) * f == q * f + ULP * (q * f);
    }
    var ux := ULP * x;
    assert RoundUp(x + ux) == x + ux + (ULP * x + ULP * ux);
    MulMono(2251799813685248.0, x, ULP);
    assert ux >= 0.25;
    MulMono(0.25, ux, ULP);
  }

  /** An amount of a supported currency survives the round trip under every rounding with that relative error,
      exactly when the currency has no minor units or the amount is below 2^51: nothing better than 2^51 follows
      from the relative error alone. */
  lemma EveryRoundingIff(currency: string, v: nat)
    requires CurrencyExponent(currency).Ok?
    ensures (forall fl: Rounding | Rounds(fl) :: RoundTrips(fl, v, currency))
            <==> CurrencyExponent(currency).value == 0 || v < LIMIT
  {
    var exp := CurrencyExponent(currency).value;
    if exp > 0 && v >= LIMIT {
      RoundUpRounds();
      RoundUpMisses(v, Pow10(exp));
      LargeAmountsMiss(currency, v);
    } else {
      forall fl: Rounding | Rounds(fl)
        ensures RoundTrips(fl, v, currency)
      {
        if exp > 0 {
          SmallAmountsRoundTrip(fl, v, currency);
        }
      }
    }
  }

  lemma LargeAmountsMiss(currency: string, v: nat)
    requires CurrencyExponent(currency).Ok? && CurrencyExponent(currency).value > 0
    requires var f := Pow10(CurrencyExponent(currency).value);
             Round(RoundUp(Times(RoundUp(v as real / f as real), f as real))) > v
    ensures !RoundTrips(RoundUp, v, currency)
  {
  }
}
