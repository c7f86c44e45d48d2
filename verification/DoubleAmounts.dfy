/** Which amounts survive the detour over major units when every operation rounds to the nearest double, ties to
    even: the exact condition for every safe integer and every supported currency. */
module DoubleAmounts {
  import opened Currency
  import opened Doubles
  import opened Outcomes

  /** The doubles are one of the roundings of Currency. */
  lemma NearestRounds()
    ensures Rounds(Nearest)
  {
    forall x
      ensures RoundsAt(Nearest, x)
    {
      if x > 0.0 {
        PositiveIsNear(x);
      } else if x < 0.0 {
        PositiveIsNear(-x);
      }
    }
  }

  /** The number congruent to `a` that is closest to zero, for an odd modulus. */
  function Centered(a: int, g: nat): int
    requires g > 0
  {
    (a + g / 2) % g - g / 2
  }

  /** 2^52 and 2^53, above which doubles tell apart only integers and even integers */
  const UNIT: nat := 4_503_599_627_370_496
  const SAFE: nat := 9_007_199_254_740_992

  /** 100 * 2^45 and 100 * 2^46, where the spacing of the quotients doubles */
  const CENTS: nat := 3_518_437_208_883_200
  const CENTS2: nat := 7_036_874_417_766_400

  /** 1000 * 2^42 and 1000 * 2^43 */
  const MILLS: nat := 4_398_046_511_104_000
  const MILLS2: nat := 8_796_093_022_208_000

  predicate Survives(v: nat, exp: nat) {
    if exp == 2 then
      if v < CENTS then true
      else if v < UNIT then Centered(-(v * 32), 25) <= 8
      else if v < CENTS2 then true
      else
        var d := Centered(-(v * 16), 25);
        -8 < d < 8 || ((d == 8 || d == -8) && v % 2 == 0)
    else if exp == 3 then
      if v < MILLS then true
      else if v < UNIT then Centered(-(v * 128), 125) <= 32
      else if v < MILLS2 then true
      else
        var d := Centered(-(v * 64), 125);
        -32 < d < 32 || ((d == 32 || d == -32) && v % 2 == 0)
    else true
  }

  // ---------------------------------------------------------------- the rounded quotient and the product

  /** A quotient by 25 or 125 is never halfway between two integers. */
  lemma QuotientRounded(a: int, g: nat, z: real)
    requires (g == 25 || g == 125) && z * g as real == a as real
    ensures HalfEven(z) * g == a + Centered(-a, g)
  {
    var k := Centered(-a, g);
    assert (a + k) % g == 0;
    var n := (a + k) / g;
    assert n * g == a + k;
    if g == 25 {
      assert z * 25.0 == a as real && -12 <= k <= 12;
      HalfEvenIs(z, n);
    } else {
      assert z * 125.0 == a as real && -62 <= k <= 62;
      HalfEvenIs(z, n);
    }
  }

  lemma NearestOfPositive(x: real, s: nat)
    requires x > 0.0 && TWO52 <= Doubled(x, s) < TWO53
    ensures Nearest(x) == Halved(HalfEven(Doubled(x, s)) as real, s) && Nearest(x) >= 0.0
  {
    DoubledGrows(x, s);
    NearestAt(x, s);
    BelowIsNear(x);
  }

  /** A quotient between 2^(52-s) and 2^(53-s) that is `a` parts of 25 or 125 of the spacing 2^-s is rounded to a
      multiple of the spacing, and differs from it by the centered residue of `a`. */
  lemma RoundedQuotient(x: real, s: nat, g: nat, a: int)
    requires (g == 25 || g == 125) && x > 0.0 && Doubled(x, s) * g as real == a as real && UNIT * g <= a < SAFE * g
    ensures Nearest(x) >= 0.0
    ensures exists n: int :: n * g == a + Centered(-a, g) && Nearest(x) == Halved(n as real, s)
  {
    QuotientRounded(a, g, Doubled(x, s));
    NearestOfPositive(x, s);
    var n := HalfEven(Doubled(x, s));
    assert n * g == a + Centered(-a, g);
  }

  // ---------------------------------------------------------------- the rounded product

  /** The product misses `v` by less than a quarter. */
  lemma ShortMiss(v: nat, y: real)
    requires v as real - 0.25 < y < v as real + 0.25 && TWO52 / 4.0 <= y < TWO52
    ensures Round(Nearest(y)) == v
  {
    var s := if y < TWO52 / 2.0 then 2 else 1;
    DoubledTimes(y);
    NearestOfPositive(y, s);
    HalfEvenIsNear(Doubled(y, s));
    var n := HalfEven(Doubled(y, s)) as real;
    HalvedTimes(n);
  }

  /** Where doubles tell apart halves, a miss is lost if and only if it is by more than a quarter, upwards. */
  lemma HalfSteps(v: nat, y: real)
    requires v as real - 0.5 < y < v as real + 0.5 && TWO52 / 2.0 <= y < TWO52
    ensures Round(Nearest(y)) == v <==> y <= v as real + 0.25
  {
    DoubledTimes(y);
    NearestOfPositive(y, 1);
    var n := HalfEven(2.0 * y);
    HalvedTimes(n as real);
    assert n == 2 * v - 1 || n == 2 * v || n == 2 * v + 1;
    assert n == 2 * v + 1 <==> y > v as real + 0.25;
  }

  /** Where doubles tell apart integers, a miss by less than a half is rounded away. */
  lemma ShortMissOfUnits(v: nat, y: real)
    requires v as real - 0.5 < y < v as real + 0.5 && TWO52 <= v as real && y < TWO53
    ensures Round(Nearest(y)) == v
  {
    if y >= TWO52 {
      NearestOfPositive(y, 0);
      HalfEvenIs(y, v);
    } else {
      HalfSteps(v, y);
    }
  }

  lemma UnitSteps(v: nat, y: real)
    requires v as real - 1.0 < y < v as real + 1.0 && TWO52 <= y < TWO53
    ensures Round(Nearest(y)) == v <==>
              v as real - 0.5 < y < v as real + 0.5
              || ((y == v as real - 0.5 || y == v as real + 0.5) && v % 2 == 0)
  {
    NearestOfPositive(y, 0);
    assert Doubled(y, 0) == y;
    var n := HalfEven(y);
    assert Halved(n as real, 0) == n as real;
    assert Round(n as real) == n;
  }

  // ---------------------------------------------------------------- two decimals

  lemma CentsMissBy64(v: nat, x: real)
    requires UNIT / 2 <= v < CENTS && x * 100.0 == v as real
    ensures Nearest(x) >= 0.0 && Times(Nearest(x), 100.0) * 64.0 == (v * 64 + Centered(-(v * 64), 25)) as real
  {
    DoubledTimes(x);
    RoundedQuotient(x, 8, 25, v * 64);
    var n: int :| n * 25 == v * 64 + Centered(-(v * 64), 25) && Nearest(x) == Halved(n as real, 8);
    HalvedTimes(n as real);
  }

  lemma CentsMissBy32(v: nat, x: real)
    requires CENTS <= v < CENTS2 && x * 100.0 == v as real
    ensures Nearest(x) >= 0.0 && Times(Nearest(x), 100.0) * 32.0 == (v * 32 + Centered(-(v * 32), 25)) as real
  {
    DoubledTimes(x);
    RoundedQuotient(x, 7, 25, v * 32);
    var n: int :| n * 25 == v * 32 + Centered(-(v * 32), 25) && Nearest(x) == Halved(n as real, 7);
    HalvedTimes(n as real);
  }

  lemma CentsMissBy16(v: nat, x: real)
    requires CENTS2 <= v < SAFE && x * 100.0 == v as real
    ensures Nearest(x) >= 0.0 && Times(Nearest(x), 100.0) * 16.0 == (v * 16 + Centered(-(v * 16), 25)) as real
  {
    DoubledTimes(x);
    RoundedQuotient(x, 6, 25, v * 16);
    var n: int :| n * 25 == v * 16 + Centered(-(v * 16), 25) && Nearest(x) == Halved(n as real, 6);
    HalvedTimes(n as real);
  }

  lemma CentsSurviveIff(v: nat, x: real)
    requires UNIT / 2 <= v < SAFE && x * 100.0 == v as real
    ensures Nearest(x) >= 0.0
    ensures Round(Nearest(Times(Nearest(x), 100.0))) == v <==> Survives(v, 2)
  {
    var y := Times(Nearest(x), 100.0);
    if v < CENTS {
      CentsMissBy64(v, x);
      ShortMiss(v, y);
    } else if v < UNIT {
      CentsMissBy32(v, x);
      HalfSteps(v, y);
    } else if v < CENTS2 {
      CentsMissBy32(v, x);
      ShortMissOfUnits(v, y);
    } else {
      CentsMissBy16(v, x);
      UnitSteps(v, y);
    }
  }

  // ---------------------------------------------------------------- three decimals

  lemma MillsMissBy256(v: nat, x: real)
    requires UNIT / 2 <= v < MILLS && x * 1000.0 == v as real
    ensures Nearest(x) >= 0.0 && Times(Nearest(x), 1000.0) * 256.0 == (v * 256 + Centered(-(v * 256), 125)) as real
  {
    DoubledTimes(x);
    RoundedQuotient(x, 11, 125, v * 256);
    var n: int :| n * 125 == v * 256 + Centered(-(v * 256), 125) && Nearest(x) == Halved(n as real, 11);
    HalvedTimes(n as real);
  }

  lemma MillsMissBy128(v: nat, x: real)
    requires MILLS <= v < MILLS2 && x * 1000.0 == v as real
    ensures Nearest(x) >= 0.0 && Times(Nearest(x), 1000.0) * 128.0 == (v * 128 + Centered(-(v * 128), 125)) as real
  {
    DoubledTimes(x);
    RoundedQuotient(x, 10, 125, v * 128);
    var n: int :| n * 125 == v * 128 + Centered(-(v * 128), 125) && Nearest(x) == Halved(n as real, 10);
    HalvedTimes(n as real);
  }

  lemma MillsMissBy64(v: nat, x: real)
    requires MILLS2 <= v < SAFE && x * 1000.0 == v as real
    ensures Nearest(x) >= 0.0 && Times(Nearest(x), 1000.0) * 64.0 == (v * 64 + Centered(-(v * 64), 125)) as real
  {
    DoubledTimes(x);
    RoundedQuotient(x, 9, 125, v * 64);
    var n: int :| n * 125 == v * 64 + Centered(-(v * 64), 125) && Nearest(x) == Halved(n as real, 9);
    HalvedTimes(n as real);
  }

  lemma MillsSurviveIff(v: nat, x: real)
    requires UNIT / 2 <= v < SAFE && x * 1000.0 == v as real
    ensures Nearest(x) >= 0.0
    ensures Round(Nearest(Times(Nearest(x), 1000.0))) == v <==> Survives(v, 3)
  {
    var y := Times(Nearest(x), 1000.0);
    if v < MILLS {
      MillsMissBy256(v, x);
      ShortMiss(v, y);
    } else if v < UNIT {
      MillsMissBy128(v, x);
      HalfSteps(v, y);
    } else if v < MILLS2 {
      MillsMissBy128(v, x);
      ShortMissOfUnits(v, y);
    } else {
      MillsMissBy64(v, x);
      UnitSteps(v, y);
    }
  }

  // ---------------------------------------------------------------- the round trip

  lemma RoundTripsIffMinorComesBack(v: nat, currency: string)
    requires CurrencyExponent(currency).Ok? && CurrencyExponent(currency).value > 0
    requires var f := Pow10(CurrencyExponent(currency).value); Nearest(v as real / f as real) >= 0.0
    ensures var f := Pow10(CurrencyExponent(currency).value);
            RoundTrips(Nearest, v, currency) <==> Round(Nearest(Times(Nearest(v as real / f as real), f as real))) == v
  {
    NearestRounds();
    var f := Pow10(CurrencyExponent(currency).value);
    GuardAcceptsItself(Nearest, v, f, Nearest(v as real / f as real));
  }

  lemma ExponentsAre(currency: string)
    requires CurrencyExponent(currency).Ok?
    ensures CurrencyExponent(currency).value in {0, 2, 3}
  {
    assert forall c | c in EXPONENTS :: EXPONENTS[c] in {0, 2, 3};
  }

  /** With the rounding of doubles, a safe integer amount of a supported currency survives the round trip if and
      only if the currency has no minor units, the quotient is below the binade where the product is out of reach,
      or the residue of the amount is small enough. */
  lemma DoubleRoundTripIff(v: nat, currency: string)
    requires CurrencyExponent(currency).Ok? && v < SAFE
    ensures RoundTrips(Nearest, v, currency) <==> Survives(v, CurrencyExponent(currency).value)
  {
    ExponentsAre(currency);
    var exp := CurrencyExponent(currency).value;
    if v < LIMIT {
      NearestRounds();
      SmallAmountsRoundTrip(Nearest, v, currency);
    } else if exp == 2 {
      assert Pow10(2) == 100;
      CentsSurviveIff(v, v as real / 100.0);
      RoundTripsIffMinorComesBack(v, currency);
    } else if exp == 3 {
      assert Pow10(3) == 1000;
      MillsSurviveIff(v, v as real / 1000.0);
      RoundTripsIffMinorComesBack(v, currency);
    }
  }

  function LeastLost(exp: nat): nat {
    if exp == 2 then CENTS + 2 else MILLS + 21
  }

  lemma LeastLostFails(exp: nat)
    requires exp == 2 || exp == 3
    ensures LeastLost(exp) < SAFE && !Survives(LeastLost(exp), exp)
  {
  }

  lemma CenteredAt(a: int, g: nat, q: int, k: int)
    requires g == 25 || g == 125
    requires a == g * q + k && -(g / 2) <= k <= g / 2
    ensures Centered(a, g) == k
  {
    if g == 25 {
      assert (a + 12) % 25 == k + 12;
    } else {
      assert (a + 62) % 125 == k + 62;
    }
  }

  lemma LessCentsSurvive(v: nat)
    requires v < CENTS + 2
    ensures Survives(v, 2)
  {
    if v >= CENTS {
      var j: int := v - CENTS;
      CenteredAt(-(v * 32), 25, -j - UNIT, -7 * j);
    }
  }

  lemma LessMillsSurvive(v: nat)
    requires v < MILLS + 21
    ensures Survives(v, 3)
  {
    if v >= MILLS {
      var j: int := v - MILLS;
      CenteredAt(-(v * 128), 125, -j - UNIT, -3 * j);
    }
  }

  /** The least amounts that are lost: 35184372088832.02 in a currency with two decimals, 4398046511104.021 in one
      with three. */
  lemma LeastLostAmount(currency: string, v: nat)
    requires CurrencyExponent(currency).Ok? && CurrencyExponent(currency).value > 0
    requires v <= LeastLost(CurrencyExponent(currency).value)
    ensures RoundTrips(Nearest, v, currency) <==> v < LeastLost(CurrencyExponent(currency).value)
  {
    var exp := CurrencyExponent(currency).value;
    ExponentsAre(currency);
    LeastLostFails(exp);
    if v < LeastLost(exp) {
      if exp == 2 {
        LessCentsSurvive(v);
      } else {
        LessMillsSurvive(v);
      }
    }
    DoubleRoundTripIff(v, currency);
  }
}
