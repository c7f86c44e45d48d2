/** The Luhn check and the scan for card numbers of yuno_mock/src/domain/sensitive.ts:56-109. */
module SensitiveScan {
  import opened Text

  predicate IsDigit(c: char) {
    '0' <= c <= '9'
  }

  predicate AllDigits(s: string) {
    forall i | 0 <= i < |s| :: IsDigit(s[i])
  }

  function Digit(c: char): (d: nat)
    requires IsDigit(c)
    ensures d <= 9
  {
    c as int - '0' as int
  }

  /** What a digit contributes; a doubled digit above nine loses nine. */
  function Contribution(d: nat, doubled: bool): nat
    requires d <= 9
  {
    if !doubled then d else if 2 * d > 9 then 2 * d - 9 else 2 * d
  }

  /** The mod 10 sum (Annex B of ISO/IEC 7812-1): every second digit from the right is doubled. */
  function LuhnSum(s: string): nat
    requires AllDigits(s)
  {
    if s == "" then 0 else Contribution(Digit(s[0]), |s| % 2 == 0) + LuhnSum(s[1..])
  }

  predicate Luhn(s: string) {
    s != "" && AllDigits(s) && LuhnSum(s) % 10 == 0
  }

  method LuhnValid(digits: string) returns (valid: bool)
    ensures valid <==> Luhn(digits)
  {
    if digits == "" || !AllDigits(digits) {
      return false;
    }
    var sum := 0;
    var alternate := false;
    var i := |digits|;
    while i > 0
      invariant 0 <= i <= |digits|
      invariant alternate == ((|digits| - i) % 2 == 1)
      invariant sum == LuhnSum(digits[i..])
    {
      i := i - 1;
      var n := Digit(digits[i]);
      if alternate {
        n := n * 2;
        if n > 9 {
          n := n - 9;
        }
      }
      sum := sum + n;
      alternate := !alternate;
      assert digits[i..][1..] == digits[i + 1..];
    }
    assert digits[i..] == digits;
    return sum % 10 == 0;
  }

  // ---------------------------------------------------------------- what the check digit detects

  lemma {:induction false} LuhnSumSplit(a: string, b: string)
    requires AllDigits(a) && AllDigits(b)
    ensures AllDigits(a + b)
    ensures LuhnSum(a + b) == LuhnSum(b) + LuhnSumBefore(a, |b|)
  {
    if a == "" {
      assert a + b == b;
    } else {
      assert (a + b)[1..] == a[1..] + b;
      LuhnSumSplit(a[1..], b);
    }
  }

  /** The share of the digits of `a` when `after` digits follow them. */
  function LuhnSumBefore(a: string, after: nat): nat
    requires AllDigits(a)
  {
    if a == "" then 0 else Contribution(Digit(a[0]), (|a| + after) % 2 == 0) + LuhnSumBefore(a[1..], after)
  }

  function CheckDigit(payload: string): (d: nat)
    requires AllDigits(payload)
    ensures d <= 9
  {
    (10 - LuhnSumBefore(payload, 1) % 10) % 10
  }

  /** Exactly one digit completes a payload, the check digit of the standard. */
  lemma CheckDigitIff(payload: string, c: char)
    requires AllDigits(payload) && IsDigit(c)
    ensures Luhn(payload + [c]) <==> Digit(c) == CheckDigit(payload)
  {
    LuhnSumSplit(payload, [c]);
    assert LuhnSum([c]) == Digit(c);
    assert LuhnSum(payload + [c]) == LuhnSumBefore(payload, 1) + Digit(c);
    Complement(LuhnSumBefore(payload, 1), Digit(c));
  }

  lemma Complement(x: nat, d: nat)
    requires d <= 9
    ensures (x + d) % 10 == 0 <==> d == (10 - x % 10) % 10
  {
  }

  lemma SumAround(s: string, i: nat)
    requires AllDigits(s) && i < |s|
    ensures LuhnSum(s) == LuhnSumBefore(s[..i], |s| - i) + Contribution(Digit(s[i]), (|s| - i) % 2 == 0) + LuhnSum(s[i + 1..])
  {
    assert s == s[..i] + s[i..] && s[i..][1..] == s[i + 1..];
    LuhnSumSplit(s[..i], s[i..]);
  }

  lemma ContributionIsInjective(d: nat, e: nat, doubled: bool)
    requires d <= 9 && e <= 9 && d != e
    ensures Contribution(d, doubled) != Contribution(e, doubled)
    ensures Contribution(d, doubled) <= 9 && Contribution(e, doubled) <= 9
  {
  }

  lemma SameResidue(rest: nat, a: nat, b: nat)
    requires a <= 9 && b <= 9 && (rest + a) % 10 == 0 && (rest + b) % 10 == 0
    ensures a == b
  {
  }

  /** Changing any one digit of a valid string, of any length, makes it invalid. */
  lemma OneDigitErrorDetected(s: string, i: nat, c: char)
    requires Luhn(s) && i < |s| && IsDigit(c) && c != s[i]
    ensures !Luhn(s[i := c])
  {
    var t, doubled := s[i := c], (|s| - i) % 2 == 0;
    SumAround(s, i);
    SumAround(t, i);
    assert t[..i] == s[..i] && t[i + 1..] == s[i + 1..];
    ContributionIsInjective(Digit(s[i]), Digit(c), doubled);
    if Luhn(t) {
      SameResidue(LuhnSumBefore(s[..i], |s| - i) + LuhnSum(s[i + 1..]), Contribution(Digit(s[i]), doubled),
                  Contribution(Digit(c), doubled));
    }
  }

  lemma SumAroundPair(s: string, i: nat)
    requires AllDigits(s) && i + 1 < |s|
    ensures var doubled := (|s| - i) % 2 == 0;
            LuhnSum(s) == LuhnSumBefore(s[..i], |s| - i)
                          + (Contribution(Digit(s[i]), doubled) + Contribution(Digit(s[i + 1]), !doubled)) + LuhnSum(s[i + 2..])
  {
    SumAround(s, i);
    assert s[i + 1..][1..] == s[i + 2..] && s[i + 1..][0] == s[i + 1];
    NextParity(|s| - i);
  }

  lemma NextParity(n: int)
    ensures (n - 1) % 2 == 0 <==> n % 2 != 0
  {
  }

  function Swapped(s: string, i: nat): string
    requires i + 1 < |s|
  {
    s[i := s[i + 1]][i + 1 := s[i]]
  }

  lemma SumsOfSwap(s: string, i: nat) returns (rest: nat)
    requires AllDigits(s) && i + 1 < |s|
    ensures AllDigits(Swapped(s, i))
    ensures var a, b, doubled := Digit(s[i]), Digit(s[i + 1]), (|s| - i) % 2 == 0;
            && LuhnSum(s) == rest + (Contribution(a, doubled) + Contribution(b, !doubled))
            && LuhnSum(Swapped(s, i)) == rest + (Contribution(b, doubled) + Contribution(a, !doubled))
  {
    var t := Swapped(s, i);
    SumAroundPair(s, i);
    SumAroundPair(t, i);
    assert t[..i] == s[..i] && t[i + 2..] == s[i + 2..];
    rest := LuhnSumBefore(s[..i], |s| - i) + LuhnSum(s[i + 2..]);
  }

  /** By how much doubling changes the contribution of a digit. */
  function Gain(d: nat): int {
    if d <= 4 then d else d - 9
  }

  lemma SwapOfDigits(rest: nat, a: nat, b: nat, doubled: bool)
    requires a <= 9 && b <= 9 && a != b
    requires (rest + (Contribution(a, doubled) + Contribution(b, !doubled))) % 10 == 0
    ensures (rest + (Contribution(b, doubled) + Contribution(a, !doubled))) % 10 == 0
            <==> (a == 0 && b == 9) || (a == 9 && b == 0)
  {
    assert Contribution(a, true) == a + Gain(a) && Contribution(b, true) == b + Gain(b);
    var x, y := rest + (Contribution(a, doubled) + Contribution(b, !doubled)), Gain(b) - Gain(a);
    assert rest + (Contribution(b, doubled) + Contribution(a, !doubled)) == if doubled then x + y else x - y;
    assert -8 <= y <= 8;
    SmallShift(x, if doubled then y else -y);
    assert y == 0 <==> (a == 0 && b == 9) || (a == 9 && b == 0);
  }

  lemma SmallShift(x: int, y: int)
    requires x % 10 == 0 && -8 <= y <= 8
    ensures (x + y) % 10 == 0 <==> y == 0
  {
  }

  /** Swapping two unequal neighbours of a valid string goes unnoticed exactly when they are 0 and 9. */
  lemma SwapUndetectedIff(s: string, i: nat)
    requires Luhn(s) && i + 1 < |s| && s[i] != s[i + 1]
    ensures Luhn(Swapped(s, i)) <==> (s[i] == '0' && s[i + 1] == '9') || (s[i] == '9' && s[i + 1] == '0')
  {
    var rest := SumsOfSwap(s, i);
    SwapOfDigits(rest, Digit(s[i]), Digit(s[i + 1]), (|s| - i) % 2 == 0);
  }

  // ---------------------------------------------------------------- the scan

  predicate IsHex(c: char) {
    IsDigit(c) || 'a' <= c <= 'f' || 'A' <= c <= 'F'
  }

  predicate IsUuid(s: string) {
    && |s| == 36
    && s[8] == '-' && s[13] == '-' && s[18] == '-' && s[23] == '-'
    && (forall i | 0 <= i < 36 && i != 8 && i != 13 && i != 18 && i != 23 :: IsHex(s[i]))
    && '1' <= s[14] <= '8' && s[19] in "89abAB"
  }

  predicate AllHex(s: string) {
    forall i | 0 <= i < |s| :: IsHex(s[i])
  }

  /** Five groups of hexadecimal digits with hyphens between them. */
  predicate Grouped(s: string, a: string, b: string, c: string, d: string, e: string) {
    && |a| == 8 && |b| == 4 && |c| == 4 && |d| == 4 && |e| == 12 && AllHex(a + b + c + d + e)
    && s == a + "-" + b + "-" + c + "-" + d + "-" + e
  }

  lemma GroupedIsUuid(s: string, a: string, b: string, c: string, d: string, e: string)
    requires Grouped(s, a, b, c, d, e) && c[0] in "12345678" && d[0] in "89abAB"
    ensures IsUuid(s)
  {
    var all := a + b + c + d + e;
    assert s[14] == c[0] && s[19] == d[0];
    forall i | 0 <= i < 36 && i != 8 && i != 13 && i != 18 && i != 23
      ensures IsHex(s[i])
    {
      var shift := if i < 8 then 0 else if i < 13 then 1 else if i < 18 then 2 else if i < 23 then 3 else 4;
      assert s[i] == all[i - shift];
    }
  }

  lemma UuidIsGrouped(s: string)
    requires IsUuid(s)
    ensures Grouped(s, s[..8], s[9..13], s[14..18], s[19..23], s[24..])
  {
    var a, b, c, d, e := s[..8], s[9..13], s[14..18], s[19..23], s[24..];
    var all := a + b + c + d + e;
    forall i | 0 <= i < |all|
      ensures IsHex(all[i])
    {
      var shift := if i < 8 then 0 else if i < 12 then 1 else if i < 16 then 2 else if i < 20 then 3 else 4;
      assert all[i] == s[i + shift];
    }
  }

  /** A UUID is five groups of 8, 4, 4, 4 and 12 hexadecimal digits, of which the third begins with its version and the
      fourth with its variant. */
  lemma UuidIff(s: string)
    ensures IsUuid(s) <==>
              exists a, b, c, d, e :: Grouped(s, a, b, c, d, e) && c[0] in "12345678" && d[0] in "89abAB"
  {
    if IsUuid(s) {
      UuidIsGrouped(s);
      assert s[14..18][0] in "12345678" && s[19..23][0] in "89abAB";
    }
    if a, b, c, d, e :| Grouped(s, a, b, c, d, e) && c[0] in "12345678" && d[0] in "89abAB" {
      GroupedIsUuid(s, a, b, c, d, e);
    }
  }

  /** Without white space and hyphens. */
  function Compact(s: string): string {
    if s == "" then ""
    else Compact(s[..|s| - 1]) + if IsSpace(s[|s| - 1]) || s[|s| - 1] == '-' then "" else [s[|s| - 1]]
  }

  /** A maximal run of digits. */
  predicate IsRun(s: string, lo: nat, hi: nat) {
    && lo < hi <= |s|
    && (forall i | lo <= i < hi :: IsDigit(s[i]))
    && (lo == 0 || !IsDigit(s[lo - 1]))
    && (hi == |s| || !IsDigit(s[hi]))
  }

  predicate ValidWindow(run: string, start: nat, len: nat) {
    start + len <= |run| && Luhn(run[start..start + len])
  }

  predicate HasValidWindow(run: string, len: nat) {
    exists start: nat | start <= |run| :: ValidWindow(run, start, len)
  }

  /** A run of 13 to 19 digits counts as a whole; a longer one by its windows of 13 to 19. */
  predicate PanRun(run: string) {
    if |run| <= 19 then |run| >= 13 && Luhn(run)
    else exists len | 13 <= len <= 19 :: HasValidWindow(run, len)
  }

  ghost predicate HasPanRun(s: string) {
    exists lo: nat, hi: nat | IsRun(s, lo, hi) :: PanRun(s[lo..hi])
  }

  method WindowValid(run: string, len: nat) returns (found: bool)
    ensures found <==> HasValidWindow(run, len)
  {
    var start := 0;
    while start + len <= |run|
      invariant start + len <= |run| + 1 || start == 0
      invariant forall k: nat | k < start :: !ValidWindow(run, k, len)
    {
      var valid := LuhnValid(run[start..start + len]);
      if valid {
        assert ValidWindow(run, start, len);
        return true;
      }
      start := start + 1;
    }
    return false;
  }

  method RunIsPan(run: string) returns (found: bool)
    requires run != "" && AllDigits(run)
    ensures found <==> PanRun(run)
  {
    if 13 <= |run| <= 19 {
      found := LuhnValid(run);
      return;
    }
    if |run| > 19 {
      var len := 19;
      while len >= 13
        invariant 12 <= len <= 19
        invariant forall k | len < k <= 19 :: !HasValidWindow(run, k)
      {
        found := WindowValid(run, len);
        if found {
          return;
        }
        len := len - 1;
      }
    }
    return false;
  }

  method EndOfRun(s: string, lo: nat) returns (hi: nat)
    requires lo < |s| && IsDigit(s[lo])
    ensures lo < hi <= |s| && (forall i | lo <= i < hi :: IsDigit(s[i])) && (hi == |s| || !IsDigit(s[hi]))
  {
    hi := lo;
    while hi < |s| && IsDigit(s[hi])
      invariant lo <= hi <= |s|
      invariant forall i | lo <= i < hi :: IsDigit(s[i])
    {
      hi := hi + 1;
    }
  }

  method Stripped(value: string) returns (compact: string)
    ensures compact == Compact(value)
  {
    compact := "";
    for i := 0 to |value|
      invariant compact == Compact(value[..i])
    {
      assert value[..i + 1][..i] == value[..i];
      if !(IsSpace(value[i]) || value[i] == '-') {
        compact := compact + [value[i]];
      }
    }
    assert value[..|value|] == value;
  }

  /** True exactly when the text is not a UUID and some maximal digit run of it counts as a card number. */
  method LooksLikeRawPan(value: string) returns (found: bool)
    ensures found <==> !IsUuid(Trim(value)) && HasPanRun(Compact(value))
  {
    if IsUuid(Trim(value)) {
      return false;
    }
    var s := Stripped(value);
    var i := 0;
    while i < |s|
      invariant 0 <= i <= |s|
      invariant i > 0 && i < |s| && IsDigit(s[i]) ==> !IsDigit(s[i - 1])
      invariant forall lo: nat, hi: nat | IsRun(s, lo, hi) && lo < i :: !PanRun(s[lo..hi])
    {
      if !IsDigit(s[i]) {
        i := i + 1;
      } else {
        var hi := EndOfRun(s, i);
        assert IsRun(s, i, hi);
        found := RunIsPan(s[i..hi]);
        if found {
          return;
        }
        assert forall lo: nat, h: nat | IsRun(s, lo, h) && i <= lo < hi :: lo == i && h == hi;
        i := hi;
      }
    }
    return false;
  }

  /** Spaces and hyphens hide nothing: texts that differ only in them are treated alike, unless one is a UUID. */
  lemma {:induction false} SeparatorsHideNothing(a: string, sep: char, b: string)
    requires IsSpace(sep) || sep == '-'
    ensures Compact(a + [sep] + b) == Compact(a + b)
  {
    if b == "" {
      assert a + [sep] + b == a + [sep] && (a + [sep])[..|a|] == a && a + b == a;
    } else {
      SeparatorsHideNothing(a, sep, b[..|b| - 1]);
      assert (a + [sep] + b)[..|a| + |b|] == a + [sep] + b[..|b| - 1];
      assert (a + b)[..|a| + |b| - 1] == a + b[..|b| - 1];
    }
  }
}
