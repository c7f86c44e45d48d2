/** isStrictEvidenceHash of src/mandates/anchor-outbox.ts:53-60: what the alphabet and the last character of a hash have
    to do with decoding it to 32 bytes and encoding these again. */
module EvidenceHashes {
  import opened AnchorOutbox

  /** Two bits. */
  type Pair = p: int | 0 <= p < 4 witness 0

  /** The six bits of a character and the eight bits of a byte, from the highest. */
  datatype Digit = Digit(a: Pair, b: Pair, c: Pair)

  datatype Byte = Byte(a: Pair, b: Pair, c: Pair, d: Pair)

  const ZERO_DIGIT := Digit(0, 0, 0)
  const ZERO_BYTE := Byte(0, 0, 0, 0)

  function IndexOf(c: char): (n: int)
    requires Base64Url(c)
    ensures 0 <= n < 64
  {
    if 'A' <= c <= 'Z' then c as int - 'A' as int
    else if 'a' <= c <= 'z' then c as int - 'a' as int + 26
    else if '0' <= c <= '9' then c as int - '0' as int + 52
    else if c == '-' then 62
    else 63
  }

  function DigitAt(n: int): Digit
    requires 0 <= n < 64
  {
    Digit(n / 16, n / 4 % 4, n % 4)
  }

  function DigitOf(c: char): Digit
    requires Base64Url(c)
  {
    DigitAt(IndexOf(c))
  }

  function CharAt(n: int): char
    requires 0 <= n < 64
  {
    if n < 26 then 'A' + n as char
    else if n < 52 then 'a' + (n - 26) as char
    else if n < 62 then '0' + (n - 52) as char
    else if n == 62 then '-'
    else '_'
  }

  function Value(d: Digit): (n: int)
    ensures 0 <= n < 64
  {
    16 * d.a + 4 * d.b + d.c
  }

  function CharOf(d: Digit): char {
    CharAt(Value(d))
  }

  lemma DigitAtValue(d: Digit)
    ensures DigitAt(Value(d)) == d
  {
    assert Value(d) / 4 == 4 * d.a + d.b;
  }

  lemma ValueOfDigit(n: int)
    requires 0 <= n < 64
    ensures Value(DigitAt(n)) == n
  {
    assert n / 4 == 4 * (n / 16) + n / 4 % 4;
  }

  lemma IndexOfChar(n: int)
    requires 0 <= n < 64
    ensures Base64Url(CharAt(n)) && IndexOf(CharAt(n)) == n
  {
  }

  lemma DigitOfChar(d: Digit)
    ensures Base64Url(CharOf(d)) && DigitOf(CharOf(d)) == d
  {
    IndexOfChar(Value(d));
    DigitAtValue(d);
  }

  lemma CharOfDigit(c: char)
    requires Base64Url(c)
    ensures CharOf(DigitOf(c)) == c
  {
    ValueOfDigit(IndexOf(c));
  }

  // ---------------------------------------------------------------- decoding and encoding

  function FirstByte(p: Digit, q: Digit): Byte {
    Byte(p.a, p.b, p.c, q.a)
  }

  function SecondByte(q: Digit, r: Digit): Byte {
    Byte(q.b, q.c, r.a, r.b)
  }

  function ThirdByte(r: Digit, s: Digit): Byte {
    Byte(r.c, s.a, s.b, s.c)
  }

  /** Four digits are three bytes; of a shorter rest the bits that fill no byte are dropped. */
  function Decode(ds: seq<Digit>): seq<Byte> {
    if |ds| >= 4 then
      [FirstByte(ds[0], ds[1]), SecondByte(ds[1], ds[2]), ThirdByte(ds[2], ds[3])] + Decode(ds[4..])
    else if |ds| == 3 then [FirstByte(ds[0], ds[1]), SecondByte(ds[1], ds[2])]
    else if |ds| == 2 then [FirstByte(ds[0], ds[1])]
    else []
  }

  function FirstDigit(x: Byte): Digit {
    Digit(x.a, x.b, x.c)
  }

  function SecondDigit(x: Byte, y: Byte): Digit {
    Digit(x.d, y.a, y.b)
  }

  function ThirdDigit(y: Byte, z: Byte): Digit {
    Digit(y.c, y.d, z.a)
  }

  function FourthDigit(z: Byte): Digit {
    Digit(z.b, z.c, z.d)
  }

  /** Three bytes are four digits; a shorter rest is filled up with zero bits. */
  function Encode(bs: seq<Byte>): seq<Digit> {
    if |bs| >= 3 then
      [FirstDigit(bs[0]), SecondDigit(bs[0], bs[1]), ThirdDigit(bs[1], bs[2]), FourthDigit(bs[2])] + Encode(bs[3..])
    else if |bs| == 2 then [FirstDigit(bs[0]), SecondDigit(bs[0], bs[1]), ThirdDigit(bs[1], ZERO_BYTE)]
    else if |bs| == 1 then [FirstDigit(bs[0]), SecondDigit(bs[0], ZERO_BYTE)]
    else []
  }

  lemma {:induction false} DecodeOfEncode(bs: seq<Byte>)
    ensures Decode(Encode(bs)) == bs
  {
    if |bs| >= 3 {
      DecodeOfEncode(bs[3..]);
      assert Encode(bs)[4..] == Encode(bs[3..]);
      assert bs == bs[..3] + bs[3..];
    }
  }

  /** The filling bits of the last digit are zero. */
  predicate Filled(ds: seq<Digit>) {
    match |ds| % 4
    case 0 => true
    case 1 => false
    case 2 => ds[|ds| - 1].b == 0 && ds[|ds| - 1].c == 0
    case 3 => ds[|ds| - 1].c == 0
  }

  lemma DecodeStep(ds: seq<Digit>)
    requires |ds| >= 4
    ensures |Decode(ds)| == 3 + |Decode(ds[4..])| && Decode(ds)[3..] == Decode(ds[4..])
    ensures Decode(ds)[0] == FirstByte(ds[0], ds[1]) && Decode(ds)[1] == SecondByte(ds[1], ds[2])
    ensures Decode(ds)[2] == ThirdByte(ds[2], ds[3])
  {
  }

  lemma EncodeStep(ds: seq<Digit>)
    requires |ds| >= 4
    ensures Encode(Decode(ds)) == ds[..4] + Encode(Decode(ds[4..]))
  {
    DecodeStep(ds);
    assert ds[..4] == [ds[0], ds[1], ds[2], ds[3]];
  }

  lemma {:induction false} EncodeOfDecodeIff(ds: seq<Digit>)
    ensures Encode(Decode(ds)) == ds <==> Filled(ds)
  {
    if |ds| >= 4 {
      EncodeOfDecodeIff(ds[4..]);
      EncodeStep(ds);
      assert ds == ds[..4] + ds[4..];
      assert Encode(Decode(ds))[4..] == Encode(Decode(ds[4..]));
    }
  }

  lemma {:induction false} EncodeLength(bs: seq<Byte>)
    ensures |Encode(bs)| == |bs| / 3 * 4 + if |bs| % 3 == 0 then 0 else |bs| % 3 + 1
  {
    if |bs| >= 3 {
      EncodeLength(bs[3..]);
    }
  }

  lemma {:induction false} DecodeLength(ds: seq<Digit>)
    ensures |Decode(ds)| == |ds| / 4 * 3 + if |ds| % 4 == 0 then 0 else |ds| % 4 - 1
  {
    if |ds| >= 4 {
      DecodeLength(ds[4..]);
    }
  }

  predicate AllZero<T(==)>(s: seq<T>, zero: T) {
    forall i | 0 <= i < |s| :: s[i] == zero
  }

  lemma {:induction false} ZeroIff(ds: seq<Digit>)
    requires Filled(ds)
    ensures AllZero(Decode(ds), ZERO_BYTE) <==> AllZero(ds, ZERO_DIGIT)
  {
    if |ds| >= 4 {
      var rest := Decode(ds[4..]);
      ZeroIff(ds[4..]);
      AllZeroParts([FirstByte(ds[0], ds[1]), SecondByte(ds[1], ds[2]), ThirdByte(ds[2], ds[3])], rest, ZERO_BYTE);
      AllZeroParts([ds[0], ds[1], ds[2], ds[3]], ds[4..], ZERO_DIGIT);
      assert ds == [ds[0], ds[1], ds[2], ds[3]] + ds[4..];
    }
  }

  lemma AllZeroParts<T>(front: seq<T>, rest: seq<T>, zero: T)
    ensures AllZero(front + rest, zero) <==> AllZero(front, zero) && AllZero(rest, zero)
  {
    if AllZero(front + rest, zero) {
      assert forall i | 0 <= i < |front| :: front[i] == (front + rest)[i];
      assert forall i | 0 <= i < |rest| :: rest[i] == (front + rest)[|front| + i];
    }
  }

  // ---------------------------------------------------------------- the hashes that are accepted

  function Digits(s: string): seq<Digit>
    requires forall i | 0 <= i < |s| :: Base64Url(s[i])
  {
    seq(|s|, i requires 0 <= i < |s| => DigitOf(s[i]))
  }

  function Text(ds: seq<Digit>): string {
    seq(|ds|, i requires 0 <= i < |ds| => CharOf(ds[i]))
  }

  /** 43 characters of the alphabet that decode to 32 bytes, not all zero, whose encoding is the text itself. */
  predicate EncodedDigest(s: string) {
    && |s| == 43 && (forall i | 0 <= i < |s| :: Base64Url(s[i]))
    && |Decode(Digits(s))| == 32 && Text(Encode(Decode(Digits(s)))) == s && !AllZero(Decode(Digits(s)), ZERO_BYTE)
  }

  lemma TextIsInjective(a: seq<Digit>, b: seq<Digit>)
    ensures Text(a) == Text(b) <==> a == b
  {
    if Text(a) == Text(b) {
      assert |a| == |b|;
      forall i | 0 <= i < |a|
        ensures a[i] == b[i]
      {
        assert Text(a)[i] == Text(b)[i];
        DigitOfChar(a[i]);
        DigitOfChar(b[i]);
      }
    }
  }

  lemma TextOfDigits(s: string)
    requires forall i | 0 <= i < |s| :: Base64Url(s[i])
    ensures Text(Digits(s)) == s
  {
    forall i | 0 <= i < |s|
      ensures Text(Digits(s))[i] == s[i]
    {
      CharOfDigit(s[i]);
    }
  }

  lemma LastCharacter(c: char)
    requires Base64Url(c)
    ensures c in "AEIMQUYcgkosw048" <==> DigitOf(c).c == 0
  {
  }

  lemma DigitsOfText(ds: seq<Digit>)
    ensures forall i | 0 <= i < |ds| :: Base64Url(Text(ds)[i])
    ensures Digits(Text(ds)) == ds
  {
    forall i | 0 <= i < |ds|
      ensures Base64Url(Text(ds)[i]) && DigitOf(Text(ds)[i]) == ds[i]
    {
      DigitOfChar(ds[i]);
    }
  }

  lemma CanonicalIff(s: string)
    requires |s| == 43 && forall i | 0 <= i < |s| :: Base64Url(s[i])
    ensures |Decode(Digits(s))| == 32
    ensures Text(Encode(Decode(Digits(s)))) == s <==> s[42] in "AEIMQUYcgkosw048"
  {
    DecodeLength(Digits(s));
    EncodeOfDecodeIff(Digits(s));
    LastCharacter(s[42]);
    TextOfDigits(s);
    TextIsInjective(Encode(Decode(Digits(s))), Digits(s));
  }

  lemma ZeroTextIff(s: string)
    requires CanonicalBase64Url(s)
    ensures AllZero(Decode(Digits(s)), ZERO_BYTE) <==> forall i | 0 <= i < 43 :: s[i] == 'A'
  {
    LastCharacter(s[42]);
    ZeroIff(Digits(s));
    forall i | 0 <= i < 43
      ensures s[i] == 'A' <==> Digits(s)[i] == ZERO_DIGIT
    {
    }
  }

  /** A hash is accepted exactly when it is 0x and 64 hexadecimal digits, not all zero, or the encoding of 32 bytes that
      are not all zero. */
  lemma StrictIff(s: string)
    ensures StrictEvidenceHash(s) <==>
              EncodedDigest(s)
              || (|s| == 66 && s[..2] == "0x" && (forall i | 2 <= i < 66 :: HexDigit(s[i])) && exists i :: 2 <= i < 66 && s[i] != '0')
  {
    if |s| == 43 && forall i | 0 <= i < |s| :: Base64Url(s[i]) {
      CanonicalIff(s);
      if CanonicalBase64Url(s) {
        ZeroTextIff(s);
      }
    }
  }

  /** Every digest but the zero one has a text that is accepted, and this text decodes to it and to no other. */
  lemma DigestIsAccepted(bs: seq<Byte>)
    requires |bs| == 32 && !AllZero(bs, ZERO_BYTE)
    ensures EncodedDigest(Text(Encode(bs))) && StrictEvidenceHash(Text(Encode(bs))) && Decode(Digits(Text(Encode(bs)))) == bs
  {
    EncodeLength(bs);
    DigitsOfText(Encode(bs));
    DecodeOfEncode(bs);
    StrictIff(Text(Encode(bs)));
  }

  /** Evidence is accepted exactly when all its six hashes are such and its mandate type is a byte. */
  lemma HashOnlyIff(e: Evidence)
    ensures HashOnly(e) <==>
              0 <= e.mandateType < 256
              && forall s | s in [e.closedCheckoutHash, e.closedPaymentHash, e.checkoutHash, e.transactionIdHash,
                                  e.agentIdHash, e.policyVersionHash] :: StrictEvidenceHash(s)
  {
  }
}
