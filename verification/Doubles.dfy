/** Rounding to the nearest double, ties to even (IEEE 754, section 4.3.1), on amounts that neither overflow nor
    become subnormal: 53 significant bits and any exponent. */
module Doubles {
  /** 2^52 */
  const TWO52: real := 4503599627370496.0

  /** 2^53 */
  const TWO53: real := 9007199254740992.0

  function HalfEven(x: real): int {
    var n := x.Floor;
    var rest := x - n as real;
    if rest < 0.5 || (rest == 0.5 && n % 2 == 0) then n else n + 1
  }

  /** Below 2^53: scaled up until the integers are what a double can tell apart. */
  function NearestBelow(x: real): real
    requires 0.0 < x < TWO53
    decreases (TWO52 / x).Floor
  {
    if x >= TWO52 then HalfEven(x) as real
    else
      ScaledUp(x);
      NearestBelow(2.0 * x) / 2.0
  }

  function NearestPositive(x: real): real
    requires x > 0.0
    decreases x.Floor
  {
    if x >= TWO53 then 2.0 * NearestPositive(x / 2.0) else NearestBelow(x)
  }

  function Nearest(x: real): real {
    if x == 0.0 then 0.0 else if x > 0.0 then NearestPositive(x) else -NearestPositive(-x)
  }

  lemma ScaledUp(x: real)
    requires 0.0 < x < TWO52
    ensures (TWO52 / (2.0 * x)).Floor < (TWO52 / x).Floor && (TWO52 / (2.0 * x)).Floor >= 0
  {
    var r := TWO52 / x;
    assert r * x == TWO52;
    assert r > 1.0 by {
      if r <= 1.0 {
        ProductAtMost(r, x);
      }
    }
    HalfTheRatio(x, r);
  }

  lemma ProductAtMost(r: real, x: real)
    requires r <= 1.0 && x > 0.0
    ensures r * x <= x
  {
  }

  lemma HalfTheRatio(x: real, r: real)
    requires x > 0.0 && r * x == TWO52
    ensures TWO52 / (2.0 * x) == r / 2.0
  {
    assert (r / 2.0) * (2.0 * x) == TWO52;
  }

  lemma HalfEvenIsNear(x: real)
    ensures x - 0.5 <= HalfEven(x) as real <= x + 0.5
  {
  }

  lemma HalfEvenIs(x: real, n: int)
    requires n as real - 0.5 < x < n as real + 0.5
    ensures HalfEven(x) == n
  {
  }

  /** The relative error of a rounding is at most 2^-53. */
  lemma {:induction false} BelowIsNear(x: real)
    requires 0.0 < x < TWO53
    ensures x - x / TWO53 <= NearestBelow(x) <= x + x / TWO53
    decreases (TWO52 / x).Floor
  {
    if x >= TWO52 {
      HalfEvenIsNear(x);
    } else {
      ScaledUp(x);
      BelowIsNear(2.0 * x);
    }
  }

  lemma {:induction false} PositiveIsNear(x: real)
    requires x > 0.0
    ensures x - x / TWO53 <= NearestPositive(x) <= x + x / TWO53
    decreases x.Floor
  {
    if x >= TWO53 {
      PositiveIsNear(x / 2.0);
    } else {
      BelowIsNear(x);
    }
  }

  function Doubled(x: real, s: nat): real
    decreases s
  {
    if s == 0 then x else Doubled(2.0 * x, s - 1)
  }

  function Halved(y: real, s: nat): real
    decreases s
  {
    if s == 0 then y else Halved(y, s - 1) / 2.0
  }

  lemma {:induction false} DoubledGrows(x: real, s: nat)
    requires x >= 0.0
    ensures Doubled(x, s) >= x && (s > 0 ==> Doubled(x, s) >= 2.0 * x)
    decreases s
  {
    if s > 0 {
      DoubledGrows(2.0 * x, s - 1);
    }
  }

  /** In the binade whose spacing is 2^-s, rounding is to a multiple of 2^-s. */
  lemma {:induction false} NearestAt(x: real, s: nat)
    requires 0.0 < x < TWO53 && TWO52 <= Doubled(x, s) < TWO53
    ensures NearestBelow(x) == Halved(HalfEven(Doubled(x, s)) as real, s)
    decreases s
  {
    if s > 0 {
      DoubledGrows(x, s);
      NearestAt(2.0 * x, s - 1);
    }
  }

  lemma {:induction false} DoubledAgain(x: real, s: nat)
    ensures Doubled(x, s + 1) == 2.0 * Doubled(x, s)
    decreases s
  {
    if s > 0 {
      DoubledAgain(2.0 * x, s - 1);
    }
  }

  lemma DoubledTimes(x: real)
    ensures Doubled(x, 1) == 2.0 * x && Doubled(x, 2) == 4.0 * x && Doubled(x, 6) == 64.0 * x
    ensures Doubled(x, 7) == 128.0 * x && Doubled(x, 8) == 256.0 * x && Doubled(x, 9) == 512.0 * x
    ensures Doubled(x, 10) == 1024.0 * x && Doubled(x, 11) == 2048.0 * x
  {
    DoubledAgain(x, 2);
    DoubledAgain(x, 3);
    DoubledAgain(x, 4);
    DoubledAgain(x, 5);
    DoubledAgain(x, 6);
    DoubledAgain(x, 7);
    DoubledAgain(x, 8);
    DoubledAgain(x, 9);
    DoubledAgain(x, 10);
  }

  lemma HalvedTimes(y: real)
    ensures Halved(y, 1) == y / 2.0 && Halved(y, 2) == y / 4.0 && Halved(y, 6) == y / 64.0
    ensures Halved(y, 7) == y / 128.0 && Halved(y, 8) == y / 256.0 && Halved(y, 9) == y / 512.0
    ensures Halved(y, 10) == y / 1024.0 && Halved(y, 11) == y / 2048.0
  {
  }
}
