/** The canonical JSON printers of src/domain/payments/helpers.ts and src/mandates/canonical.ts, and a parser
    that undoes them. A JavaScript object is a list of members in insertion order; what it means is a map. */
module CanonicalJson {
  import opened Outcomes

  /** A finite number is represented by its JSON text; a number that is not finite prints as Null. */
  datatype Tree =
    | Undefined
    | Null
    | Bool(b: bool)
    | Num(literal: string)
    | Str(s: string)
    | Arr(items: seq<Tree>)
    | Obj(entries: seq<Entry>)

  datatype Entry = Entry(key: string, value: Tree)

  /** What a tree means: objects lose the order of their members. */
  datatype Value =
    | VUndefined
    | VNull
    | VBool(b: bool)
    | VNum(literal: string)
    | VStr(s: string)
    | VArr(items: seq<Value>)
    | VObj(members: map<string, Value>)

  predicate NumChar(c: char) {
    '0' <= c <= '9' || c == '-' || c == '+' || c == '.' || c == 'e' || c == 'E'
  }

  predicate NumLiteral(s: string) {
    s != "" && ('0' <= s[0] <= '9' || s[0] == '-') && forall i | 0 <= i < |s| :: NumChar(s[i])
  }

  predicate DistinctKeys(es: seq<Entry>) {
    forall i, j | 0 <= i < j < |es| :: es[i].key != es[j].key
  }

  predicate WellFormed(t: Tree) {
    match t
    case Num(literal) => NumLiteral(literal)
    case Arr(items) => forall i | 0 <= i < |items| :: WellFormed(items[i])
    case Obj(es) => DistinctKeys(es) && forall i | 0 <= i < |es| :: WellFormed(es[i].value)
    case _ => true
  }

  // ---------------------------------------------------------------- JSON.stringify of a string

  function HexDigit(n: nat): char
    requires n < 16
  {
    "0123456789abcdef"[n]
  }

  function EscapeChar(c: char): string {
    if c == '\"' then ['\\', '\"']
    else if c == '\\' then ['\\', '\\']
    else if c as int == 8 then ['\\', 'b']
    else if c == '\t' then ['\\', 't']
    else if c == '\n' then ['\\', 'n']
    else if c as int == 12 then ['\\', 'f']
    else if c == '\r' then ['\\', 'r']
    else if (c as int) < 32 then ['\\', 'u', '0', '0', HexDigit(c as int / 16), HexDigit(c as int % 16)]
    else [c]
  }

  /** Quotes, backslashes and the control characters with a short form have it, the other control characters are
      written in hexadecimal, and everything else stands for itself. */
  lemma EscapeByName(c: char)
    ensures var e, n := EscapeChar(c), c as int;
            && (e == [c] <==> n >= 32 && c != '"' && c != '\\')
            && (c in ['"', '\\'] ==> e == ['\\', c])
            && (n == 8 ==> e == "\\b") && (n == 9 ==> e == "\\t") && (n == 10 ==> e == "\\n")
            && (n == 12 ==> e == "\\f") && (n == 13 ==> e == "\\r")
            && (n < 32 && n !in [8, 9, 10, 12, 13] ==>
                  |e| == 6 && e[..4] == "\\u00" && e[4] == (if n < 16 then '0' else '1') && e[5] == "0123456789abcdef"[n % 16])
  {
  }

  function Escape(s: string): string {
    if s == "" then "" else EscapeChar(s[0]) + Escape(s[1..])
  }

  function Quote(s: string): string {
    ['\"'] + Escape(s) + ['\"']
  }

  // ---------------------------------------------------------------- the printers

  /** A printed member with the value it stands for; only the text is printed. */
  datatype Member = Member(key: string, text: string, value: Value)

  datatype Item = Item(text: string, value: Value)

  /** The comparison that sorts member names; the two printers differ only in it. */
  type Order = (string, string) -> bool

  function Insert(lt: Order, m: Member, ms: seq<Member>): seq<Member> {
    if ms == [] then [m]
    else if lt(ms[0].key, m.key) then [ms[0]] + Insert(lt, m, ms[1..])
    else [m] + ms
  }

  function Sort(lt: Order, ms: seq<Member>): seq<Member> {
    if ms == [] then [] else Insert(lt, ms[0], Sort(lt, ms[1..]))
  }

  function JoinItems(xs: seq<Item>): string {
    if xs == [] then ""
    else if |xs| == 1 then xs[0].text
    else xs[0].text + ("," + JoinItems(xs[1..]))
  }

  function MemberText(m: Member): string {
    Quote(m.key) + (":" + m.text)
  }

  function JoinMembers(ms: seq<Member>): string {
    if ms == [] then ""
    else if |ms| == 1 then MemberText(ms[0])
    else MemberText(ms[0]) + ("," + JoinMembers(ms[1..]))
  }

  function FromMembers(ms: seq<Member>): map<string, Value> {
    if ms == [] then map[] else FromMembers(ms[1..])[ms[0].key := ms[0].value]
  }

  /** What a tree means. An array holding a single undefined prints as the empty array, and means it. */
  function Denote(t: Tree): Value {
    match t
    case Undefined => VUndefined
    case Null => VNull
    case Bool(b) => VBool(b)
    case Num(literal) => VNum(literal)
    case Str(s) => VStr(s)
    case Arr(items) => if items == [Undefined] then VArr([]) else VArr(DenoteItems(items))
    case Obj(es) => VObj(DenoteEntries(es))
  }

  function DenoteItems(ts: seq<Tree>): (vs: seq<Value>)
    ensures |vs| == |ts|
    ensures forall i | 0 <= i < |ts| :: vs[i] == Denote(ts[i])
  {
    if ts == [] then [] else [Denote(ts[0])] + DenoteItems(ts[1..])
  }

  function DenoteEntries(es: seq<Entry>): map<string, Value> {
    if es == [] then map[] else DenoteEntries(es[1..])[es[0].key := Denote(es[0].value)]
  }

  /** The text of a tree. Inside an array `join` turns undefined into nothing; as a member it is printed. */
  function Print(lt: Order, t: Tree): string
    decreases t, 0
  {
    match t
    case Undefined => "undefined"
    case Null => "null"
    case Bool(b) => if b then "true" else "false"
    case Num(literal) => literal
    case Str(s) => Quote(s)
    case Arr(items) => "[" + (JoinItems(Items(lt, items)) + "]")
    case Obj(es) => "{" + (JoinMembers(Sort(lt, Members(lt, es))) + "}")
  }

  function PrintItem(lt: Order, t: Tree): string
    decreases t, 1
  {
    if t.Undefined? then "" else Print(lt, t)
  }

  function Items(lt: Order, ts: seq<Tree>): (xs: seq<Item>)
    ensures |xs| == |ts|
    ensures forall i | 0 <= i < |ts| :: xs[i] == Item(PrintItem(lt, ts[i]), Denote(ts[i]))
    decreases ts, 0
  {
    if ts == [] then [] else [Item(PrintItem(lt, ts[0]), Denote(ts[0]))] + Items(lt, ts[1..])
  }

  function Members(lt: Order, es: seq<Entry>): (ms: seq<Member>)
    ensures |ms| == |es|
    ensures forall i | 0 <= i < |es| :: ms[i] == Member(es[i].key, Print(lt, es[i].value), Denote(es[i].value))
    decreases es, 0
  {
    if es == [] then []
    else [Member(es[0].key, Print(lt, es[0].value), Denote(es[0].value))] + Members(lt, es[1..])
  }

  // ---------------------------------------------------------------- the parser

  type Parse<T> = Option<(T, string)>

  function HexValue(c: char): Option<int> {
    if '0' <= c <= '9' then Some(c as int - '0' as int)
    else if 'a' <= c <= 'f' then Some(c as int - 'a' as int + 10)
    else None
  }

  function HexChar(a: char, b: char): Option<char> {
    var x, y := HexValue(a), HexValue(b);
    if x.Some? && y.Some? then Some((16 * x.value + y.value) as char) else None
  }

  /** One character of a string literal, possibly escaped. */
  function ReadChar(s: string): (r: Parse<char>)
    ensures r.Some? ==> |r.value.1| < |s|
  {
    if s == "" then None
    else if s[0] != '\\' then Some((s[0], s[1..]))
    else if |s| < 2 then None
    else if s[1] == 'b' then Some((8 as char, s[2..]))
    else if s[1] == 't' then Some(('\t', s[2..]))
    else if s[1] == 'n' then Some(('\n', s[2..]))
    else if s[1] == 'f' then Some((12 as char, s[2..]))
    else if s[1] == 'r' then Some(('\r', s[2..]))
    else if s[1] == 'u' then
      if |s| < 6 || s[2] != '0' || s[3] != '0' || HexChar(s[4], s[5]).None? then None
      else Some((HexChar(s[4], s[5]).value, s[6..]))
    else Some((s[1], s[2..]))
  }

  /** The rest of a string literal, up to its closing quote. */
  function ParseString(s: string): (r: Parse<string>)
    ensures r.Some? ==> |r.value.1| < |s|
    decreases |s|
  {
    if s == "" then None
    else if s[0] == '\"' then Some(("", s[1..]))
    else
      var c := ReadChar(s);
      if c.None? then None
      else
        var more := ParseString(c.value.1);
        if more.None? then None else Some(([c.value.0] + more.value.0, more.value.1))
  }

  function NumPrefix(s: string): (n: nat)
    ensures n <= |s|
    ensures forall i | 0 <= i < n :: NumChar(s[i])
    ensures n < |s| ==> !NumChar(s[n])
  {
    if s == "" || !NumChar(s[0]) then 0 else 1 + NumPrefix(s[1..])
  }

  predicate StartsWith(s: string, word: string)
    ensures StartsWith(s, word) && word != "" ==> s != "" && s[0] == word[0]
  {
    |word| <= |s| && s[..|word|] == word
  }

  function ParseValue(s: string): (r: Parse<Value>)
    ensures r.Some? ==> |r.value.1| < |s|
    decreases |s|, 0
  {
    if s == "" then None
    else if s[0] == '\"' then
      var t := ParseString(s[1..]);
      if t.None? then None else Some((VStr(t.value.0), t.value.1))
    else if s[0] == '[' then
      if |s| > 1 && s[1] == ']' then Some((VArr([]), s[2..]))
      else
        var t := ParseItems(s[1..]);
        if t.None? then None else Some((VArr(t.value.0), t.value.1))
    else if s[0] == '{' then
      if |s| > 1 && s[1] == '}' then Some((VObj(map[]), s[2..]))
      else
        var t := ParseMembers(s[1..]);
        if t.None? then None else Some((VObj(t.value.0), t.value.1))
    else if StartsWith(s, "null") then Some((VNull, s[4..]))
    else if StartsWith(s, "true") then Some((VBool(true), s[4..]))
    else if StartsWith(s, "false") then Some((VBool(false), s[5..]))
    else if StartsWith(s, "undefined") then Some((VUndefined, s[9..]))
    else
      var n := NumPrefix(s);
      if n == 0 then None else Some((VNum(s[..n]), s[n..]))
  }

  /** One array element; nothing at all before a comma or the closing bracket is undefined. */
  function ParseItem(s: string): (r: Parse<Value>)
    ensures r.Some? ==> |r.value.1| <= |s|
    decreases |s|, 1
  {
    if s == "" then None
    else if s[0] == ',' || s[0] == ']' then Some((VUndefined, s))
    else ParseValue(s)
  }

  function ParseItems(s: string): (r: Parse<seq<Value>>)
    ensures r.Some? ==> |r.value.1| < |s|
    decreases |s|, 2
  {
    var x := ParseItem(s);
    if x.None? || x.value.1 == "" then None
    else if x.value.1[0] == ']' then Some(([x.value.0], x.value.1[1..]))
    else if x.value.1[0] == ',' then
      var more := ParseItems(x.value.1[1..]);
      if more.None? then None else Some(([x.value.0] + more.value.0, more.value.1))
    else None
  }

  function ParseMember(s: string): (r: Parse<(string, Value)>)
    ensures r.Some? ==> |r.value.1| < |s|
    decreases |s|, 1
  {
    if s == "" || s[0] != '\"' then None
    else
      var k := ParseString(s[1..]);
      if k.None? || k.value.1 == "" || k.value.1[0] != ':' then None
      else
        var v := ParseValue(k.value.1[1..]);
        if v.None? then None else Some(((k.value.0, v.value.0), v.value.1))
  }

  function ParseMembers(s: string): (r: Parse<map<string, Value>>)
    ensures r.Some? ==> |r.value.1| < |s|
    decreases |s|, 2
  {
    var m := ParseMember(s);
    if m.None? || m.value.1 == "" then None
    else if m.value.1[0] == '}' then Some((map[m.value.0.0 := m.value.0.1], m.value.1[1..]))
    else if m.value.1[0] == ',' then
      var more := ParseMembers(m.value.1[1..]);
      if more.None? then None else Some((more.value.0[m.value.0.0 := m.value.0.1], more.value.1))
    else None
  }

  // ---------------------------------------------------------------- strings round trip

  lemma ReadEscaped(c: char, rest: string)
    ensures ReadChar(EscapeChar(c) + rest) == Some((c, rest))
    ensures (EscapeChar(c) + rest)[0] != '\"'
  {
    var e := EscapeChar(c);
    assert (e + rest)[|e|..] == rest;
    if (c as int) < 32 && |e| == 6 {
      assert HexValue(HexDigit(c as int / 16)) == Some(c as int / 16);
      assert HexValue(HexDigit(c as int % 16)) == Some(c as int % 16);
    }
  }

  lemma EscapedText(s: string, rest: string)
    requires s != ""
    ensures Escape(s) + ['\"'] + rest == EscapeChar(s[0]) + (Escape(s[1..]) + ['\"'] + rest)
  {
  }

  lemma {:induction false} ParseEscaped(s: string, rest: string)
    ensures ParseString(Escape(s) + ['\"'] + rest) == Some((s, rest))
  {
    var text := Escape(s) + ['\"'] + rest;
    if s == "" {
      assert text[1..] == rest;
    } else {
      var tail := Escape(s[1..]) + ['\"'] + rest;
      ParseEscaped(s[1..], rest);
      EscapedText(s, rest);
      ReadEscaped(s[0], tail);
      assert [s[0]] + s[1..] == s;
    }
  }

  lemma ParseQuoted(s: string, rest: string)
    ensures Quote(s) + rest != "" && (Quote(s) + rest)[0] == '\"'
    ensures ParseString((Quote(s) + rest)[1..]) == Some((s, rest))
  {
    ParseEscaped(s, rest);
    assert (Quote(s) + rest)[1..] == Escape(s) + ['\"'] + rest;
  }

  // ---------------------------------------------------------------- trees round trip

  /** What may follow a value: the end of the text, or a separator or closing bracket. */
  predicate Stop(rest: string) {
    rest == "" || rest[0] == ',' || rest[0] == ']' || rest[0] == '}'
  }

  ghost predicate Parses(text: string, v: Value) {
    && text != "" && text[0] != ',' && text[0] != ']'
    && forall rest | Stop(rest) :: ParseValue(text + rest) == Some((v, rest))
  }

  ghost predicate ItemParses(x: Item) {
    if x.text == "" then x.value == VUndefined else Parses(x.text, x.value)
  }

  lemma {:induction false} NumPrefixOfLiteral(literal: string, rest: string)
    requires forall i | 0 <= i < |literal| :: NumChar(literal[i])
    requires Stop(rest)
    ensures NumPrefix(literal + rest) == |literal|
  {
    var n := NumPrefix(literal + rest);
    assert forall i | 0 <= i < |literal| :: (literal + rest)[i] == literal[i];
    assert rest != "" ==> (literal + rest)[|literal|] == rest[0];
  }

  lemma WordParses(text: string, v: Value, rest: string)
    requires (text, v) in {("undefined", VUndefined), ("null", VNull), ("true", VBool(true)), ("false", VBool(false))}
    ensures ParseValue(text + rest) == Some((v, rest))
  {
    assert (text + rest)[|text|..] == rest && (text + rest)[..|text|] == text;
    assert (text + rest)[0] == text[0];
  }

  lemma NumberStart(s: string, n: nat)
    requires s != "" && ('0' <= s[0] <= '9' || s[0] == '-') && NumPrefix(s) == n
    ensures n > 0 && ParseValue(s) == Some((VNum(s[..n]), s[n..]))
  {
  }

  lemma NumberParses(literal: string, rest: string)
    requires NumLiteral(literal) && Stop(rest)
    ensures ParseValue(literal + rest) == Some((VNum(literal), rest))
  {
    var s := literal + rest;
    NumPrefixOfLiteral(literal, rest);
    assert s[0] == literal[0];
    NumberStart(s, |literal|);
    assert s[|literal|..] == rest && s[..|literal|] == literal;
  }

  lemma LeafParses(lt: Order, t: Tree)
    requires WellFormed(t) && !t.Arr? && !t.Obj?
    ensures Parses(Print(lt, t), Denote(t))
  {
    forall rest | Stop(rest)
      ensures ParseValue(Print(lt, t) + rest) == Some((Denote(t), rest))
    {
      match t
      case Num(literal) => NumberParses(literal, rest);
      case Str(s) => ParseQuoted(s, rest);
      case _ => WordParses(Print(lt, t), Denote(t), rest);
    }
  }

  function ItemValues(xs: seq<Item>): seq<Value> {
    if xs == [] then [] else [xs[0].value] + ItemValues(xs[1..])
  }

  lemma ItemParse(x: Item, tail: string)
    requires ItemParses(x) && tail != "" && (tail[0] == ',' || tail[0] == ']')
    ensures ParseItem(x.text + tail) == Some((x.value, tail))
  {
    if x.text == "" {
      assert x.text + tail == tail;
    } else {
      assert (x.text + tail)[0] == x.text[0];
    }
  }

  lemma ItemsParseMore(s: string, v: Value, more: string, vs: seq<Value>, rest: string)
    requires ParseItem(s) == Some((v, "," + more))
    requires ParseItems(more) == Some((vs, rest))
    ensures ParseItems(s) == Some(([v] + vs, rest))
  {
    assert ("," + more)[1..] == more;
  }

  lemma ItemsParseLast(s: string, v: Value, rest: string)
    requires ParseItem(s) == Some((v, "]" + rest))
    ensures ParseItems(s) == Some(([v], rest))
  {
    assert ("]" + rest)[1..] == rest;
  }

  lemma OneItemParses(x: Item, rest: string)
    requires ItemParses(x)
    ensures ParseItems(x.text + ("]" + rest)) == Some(([x.value], rest))
  {
    ItemParse(x, "]" + rest);
    ItemsParseLast(x.text + ("]" + rest), x.value, rest);
  }

  lemma FirstItemParses(x: Item, more: string, vs: seq<Value>, rest: string)
    requires ItemParses(x) && ParseItems(more) == Some((vs, rest))
    ensures ParseItems(x.text + ("," + more)) == Some(([x.value] + vs, rest))
  {
    ItemParse(x, "," + more);
    ItemsParseMore(x.text + ("," + more), x.value, more, vs, rest);
  }

  ghost predicate AllItemsParse(xs: seq<Item>) {
    forall i | 0 <= i < |xs| :: ItemParses(xs[i])
  }

  lemma Regroup(a: string, b: string, c: string)
    ensures (a + b) + c == a + (b + c)
  {
  }

  /** A list of items followed by what comes after it. */
  function ItemsThen(xs: seq<Item>, tail: string): string
    requires xs != []
  {
    xs[0].text + if |xs| == 1 then tail else "," + ItemsThen(xs[1..], tail)
  }

  lemma {:induction false} JoinedItemsThen(xs: seq<Item>, tail: string)
    requires xs != []
    ensures JoinItems(xs) + tail == ItemsThen(xs, tail)
  {
    if |xs| > 1 {
      JoinedItemsThen(xs[1..], tail);
      Regroup(xs[0].text, "," + JoinItems(xs[1..]), tail);
      Regroup(",", JoinItems(xs[1..]), tail);
    }
  }

  lemma {:induction false} ItemsParse(xs: seq<Item>, rest: string)
    requires xs != [] && AllItemsParse(xs)
    ensures ParseItems(ItemsThen(xs, "]" + rest)) == Some((ItemValues(xs), rest))
  {
    assert ItemParses(xs[0]);
    if |xs| == 1 {
      OneItemParses(xs[0], rest);
      assert ItemValues(xs) == [xs[0].value];
    } else {
      ItemsParse(xs[1..], rest);
      FirstItemParses(xs[0], ItemsThen(xs[1..], "]" + rest), ItemValues(xs[1..]), rest);
    }
  }

  lemma MemberParse(m: Member, tail: string)
    requires Parses(m.text, m.value) && Stop(tail)
    ensures ParseMember(MemberText(m) + tail) == Some(((m.key, m.value), tail))
  {
    var after := ":" + (m.text + tail);
    Regroup(Quote(m.key), ":" + m.text, tail);
    Regroup(":", m.text, tail);
    ParseQuoted(m.key, after);
    MemberParseParts(Quote(m.key) + after, m.key, m.text + tail, m.value, tail);
  }

  lemma MemberParseParts(s: string, key: string, valueText: string, v: Value, tail: string)
    requires s != "" && s[0] == '\"' && ParseString(s[1..]) == Some((key, ":" + valueText))
    requires ParseValue(valueText) == Some((v, tail))
    ensures ParseMember(s) == Some(((key, v), tail))
  {
    assert (":" + valueText)[1..] == valueText;
  }

  /** A list of members followed by what comes after it. */
  function MembersThen(ms: seq<Member>, tail: string): string
    requires ms != []
  {
    MemberText(ms[0]) + if |ms| == 1 then tail else "," + MembersThen(ms[1..], tail)
  }

  lemma {:induction false} JoinedMembersThen(ms: seq<Member>, tail: string)
    requires ms != []
    ensures JoinMembers(ms) + tail == MembersThen(ms, tail)
  {
    if |ms| > 1 {
      JoinedMembersThen(ms[1..], tail);
      Regroup(MemberText(ms[0]), "," + JoinMembers(ms[1..]), tail);
      Regroup(",", JoinMembers(ms[1..]), tail);
    }
  }

  lemma OneMemberParses(m: Member, rest: string)
    requires Parses(m.text, m.value)
    ensures ParseMembers(MemberText(m) + ("}" + rest)) == Some((map[m.key := m.value], rest))
  {
    MemberParse(m, "}" + rest);
    assert ("}" + rest)[1..] == rest;
  }

  lemma FirstMemberParses(m: Member, more: string, vs: map<string, Value>, rest: string)
    requires Parses(m.text, m.value) && ParseMembers(more) == Some((vs, rest))
    ensures ParseMembers(MemberText(m) + ("," + more)) == Some((vs[m.key := m.value], rest))
  {
    MemberParse(m, "," + more);
    assert ("," + more)[1..] == more;
  }

  ghost predicate AllMembersParse(ms: seq<Member>) {
    forall i | 0 <= i < |ms| :: Parses(ms[i].text, ms[i].value)
  }

  lemma {:induction false} MembersParse(ms: seq<Member>, rest: string)
    requires ms != [] && AllMembersParse(ms)
    ensures ParseMembers(MembersThen(ms, "}" + rest)) == Some((FromMembers(ms), rest))
  {
    assert Parses(ms[0].text, ms[0].value);
    if |ms| == 1 {
      OneMemberParses(ms[0], rest);
      assert FromMembers(ms[1..]) == map[];
    } else {
      MembersParse(ms[1..], rest);
      FirstMemberParses(ms[0], MembersThen(ms[1..], "}" + rest), FromMembers(ms[1..]), rest);
    }
  }

  // ---------------------------------------------------------------- sorting

  ghost predicate StrictTotal(lt: Order) {
    && (forall a :: !lt(a, a))
    && (forall a, b, c :: lt(a, b) && lt(b, c) ==> lt(a, c))
    && (forall a, b :: a != b ==> lt(a, b) || lt(b, a))
  }

  ghost predicate DistinctMembers(ms: seq<Member>) {
    forall i, j | 0 <= i < j < |ms| :: ms[i].key != ms[j].key
  }

  ghost predicate Sorted(lt: Order, ms: seq<Member>) {
    forall i, j | 0 <= i < j < |ms| :: lt(ms[i].key, ms[j].key)
  }

  lemma {:induction false} InsertPermutes(lt: Order, m: Member, ms: seq<Member>)
    ensures forall x :: x in Insert(lt, m, ms) <==> x == m || x in ms
    ensures DistinctMembers(ms) && (forall x | x in ms :: x.key != m.key) ==> DistinctMembers(Insert(lt, m, ms))
  {
    if ms != [] && lt(ms[0].key, m.key) {
      InsertPermutes(lt, m, ms[1..]);
      assert forall x :: x in ms <==> x == ms[0] || x in ms[1..];
      var rest := Insert(lt, m, ms[1..]);
      if DistinctMembers(ms) && forall x | x in ms :: x.key != m.key {
        assert ms[0] in ms;
        assert forall x | x in rest :: x.key != ms[0].key;
        assert forall i | 0 <= i < |rest| :: rest[i] in rest;
      }
    }
  }

  lemma {:induction false} SortPermutes(lt: Order, ms: seq<Member>)
    ensures forall x :: x in Sort(lt, ms) <==> x in ms
    ensures DistinctMembers(ms) ==> DistinctMembers(Sort(lt, ms))
  {
    if ms != [] {
      SortPermutes(lt, ms[1..]);
      var rest := Sort(lt, ms[1..]);
      InsertPermutes(lt, ms[0], rest);
      assert forall x :: x in ms <==> x == ms[0] || x in ms[1..];
      if DistinctMembers(ms) {
        assert forall x | x in ms[1..] :: x.key != ms[0].key;
        assert forall i | 0 <= i < |rest| :: rest[i] in rest;
      }
    }
  }

  lemma {:induction false} InsertSorts(lt: Order, m: Member, ms: seq<Member>)
    requires StrictTotal(lt) && Sorted(lt, ms)
    requires forall x | x in ms :: x.key != m.key
    ensures Sorted(lt, Insert(lt, m, ms))
  {
    if ms != [] && lt(ms[0].key, m.key) {
      InsertSorts(lt, m, ms[1..]);
      InsertPermutes(lt, m, ms[1..]);
      var rest := Insert(lt, m, ms[1..]);
      assert forall i | 0 <= i < |rest| :: rest[i] in rest;
      assert forall x | x in ms[1..] :: lt(ms[0].key, x.key);
    } else if ms != [] {
      assert ms[0] in ms && lt(m.key, ms[0].key);
    }
  }

  lemma {:induction false} SortSorts(lt: Order, ms: seq<Member>)
    requires StrictTotal(lt) && DistinctMembers(ms)
    ensures Sorted(lt, Sort(lt, ms))
  {
    if ms != [] {
      SortSorts(lt, ms[1..]);
      SortPermutes(lt, ms[1..]);
      assert forall x | x in ms[1..] :: x.key != ms[0].key;
      InsertSorts(lt, ms[0], Sort(lt, ms[1..]));
    }
  }

  /** A set of members has one sorted order. */
  lemma {:induction false} SortedIsUnique(lt: Order, a: seq<Member>, b: seq<Member>)
    requires StrictTotal(lt) && Sorted(lt, a) && Sorted(lt, b)
    requires forall x :: x in a <==> x in b
    ensures a == b
  {
    if a == [] {
      assert forall i | 0 <= i < |b| :: b[i] in b;
    } else {
      assert a[0] in a && a[0] in b;
      assert b[0] in b && b[0] in a;
      assert a[0] == b[0] by {
        var i :| 0 <= i < |a| && a[i] == b[0];
        var j :| 0 <= j < |b| && b[j] == a[0];
      }
      forall x
        ensures x in a[1..] <==> x in b[1..]
      {
        TailMembership(lt, a, x);
        TailMembership(lt, b, x);
      }
      SortedIsUnique(lt, a[1..], b[1..]);
    }
  }

  lemma TailMembership(lt: Order, a: seq<Member>, x: Member)
    requires StrictTotal(lt) && Sorted(lt, a) && a != []
    ensures x in a[1..] <==> x in a && x != a[0]
  {
    if x in a[1..] {
      var i :| 0 <= i < |a| - 1 && a[1..][i] == x;
      assert a[i + 1] == x;
    }
    if x in a && x != a[0] {
      var i :| 0 <= i < |a| && a[i] == x;
      assert a[1..][i - 1] == x;
    }
  }

  // ---------------------------------------------------------------- members as a map

  lemma {:induction false} FromMembersContent(ms: seq<Member>)
    requires DistinctMembers(ms)
    ensures forall m | m in ms :: m.key in FromMembers(ms) && FromMembers(ms)[m.key] == m.value
    ensures forall k | k in FromMembers(ms) :: exists m :: m in ms && m.key == k
  {
    if ms != [] {
      FromMembersContent(ms[1..]);
      assert forall m | m in ms[1..] :: m.key != ms[0].key;
      assert forall m :: m in ms <==> m == ms[0] || m in ms[1..];
    }
  }

  lemma SameMembersSameMap(a: seq<Member>, b: seq<Member>)
    requires DistinctMembers(a) && DistinctMembers(b)
    requires forall x :: x in a <==> x in b
    ensures FromMembers(a) == FromMembers(b)
  {
    FromMembersContent(a);
    FromMembersContent(b);
  }

  lemma {:induction false} MembersMeanEntries(lt: Order, es: seq<Entry>)
    ensures FromMembers(Members(lt, es)) == DenoteEntries(es)
  {
    if es != [] {
      MembersMeanEntries(lt, es[1..]);
      assert Members(lt, es)[1..] == Members(lt, es[1..]);
    }
  }

  lemma SortedMembersMeanEntries(lt: Order, es: seq<Entry>)
    requires DistinctKeys(es)
    ensures FromMembers(Sort(lt, Members(lt, es))) == DenoteEntries(es)
  {
    var ms := Members(lt, es);
    SortPermutes(lt, ms);
    SameMembersSameMap(Sort(lt, ms), ms);
    MembersMeanEntries(lt, es);
  }

  // ---------------------------------------------------------------- print, then parse

  lemma {:induction false} ItemsMeanItems(lt: Order, ts: seq<Tree>)
    ensures ItemValues(Items(lt, ts)) == DenoteItems(ts)
  {
    if ts != [] {
      ItemsMeanItems(lt, ts[1..]);
      assert Items(lt, ts)[1..] == Items(lt, ts[1..]);
    }
  }

  lemma BracketParses(inner: string, vs: seq<Value>, rest: string)
    requires inner != "" && inner[0] != ']' && ParseItems(inner) == Some((vs, rest))
    ensures ParseValue("[" + inner) == Some((VArr(vs), rest))
  {
    assert ("[" + inner)[1..] == inner;
  }

  lemma BraceParses(inner: string, m: map<string, Value>, rest: string)
    requires inner != "" && inner[0] != '}' && ParseMembers(inner) == Some((m, rest))
    ensures ParseValue("{" + inner) == Some((VObj(m), rest))
  {
    assert ("{" + inner)[1..] == inner;
  }

  lemma ItemsThenStart(xs: seq<Item>, tail: string)
    requires xs != [] && AllItemsParse(xs) && (|xs| == 1 ==> xs[0].text != "")
    ensures ItemsThen(xs, tail) != "" && ItemsThen(xs, tail)[0] != ']'
  {
    assert ItemParses(xs[0]);
  }

  lemma ArrayParses(lt: Order, ts: seq<Tree>, rest: string)
    requires ts != [] && ts != [Undefined]
    requires AllItemsParse(Items(lt, ts))
    requires |ts| == 1 ==> Items(lt, ts)[0].text != ""
    ensures ParseValue(Print(lt, Arr(ts)) + rest) == Some((Denote(Arr(ts)), rest))
  {
    var xs := Items(lt, ts);
    var inner := ItemsThen(xs, "]" + rest);
    ItemsThenStart(xs, "]" + rest);
    ItemsParse(xs, rest);
    ItemsMeanItems(lt, ts);
    BracketParses(inner, DenoteItems(ts), rest);
    JoinedItemsThen(xs, "]" + rest);
    Regroup("[", JoinItems(xs) + "]", rest);
    Regroup(JoinItems(xs), "]", rest);
  }

  lemma ObjectParses(lt: Order, es: seq<Entry>, rest: string)
    requires es != [] && DistinctKeys(es)
    requires AllMembersParse(Members(lt, es))
    ensures ParseValue(Print(lt, Obj(es)) + rest) == Some((Denote(Obj(es)), rest))
  {
    var ms := Members(lt, es);
    var sorted := Sort(lt, ms);
    SortPermutes(lt, ms);
    assert ms[0] in sorted;
    assert AllMembersParse(sorted) by {
      assert forall i | 0 <= i < |sorted| :: sorted[i] in ms;
    }
    var inner := MembersThen(sorted, "}" + rest);
    assert inner[0] == '\"' by {
      assert inner[0] == MemberText(sorted[0])[0];
    }
    MembersParse(sorted, rest);
    SortedMembersMeanEntries(lt, es);
    BraceParses(inner, DenoteEntries(es), rest);
    JoinedMembersThen(sorted, "}" + rest);
    Regroup("{", JoinMembers(sorted) + "}", rest);
    Regroup(JoinMembers(sorted), "}", rest);
  }

  /** The parser undoes the printer, whatever may follow the text and whatever the member order. */
  lemma {:induction false} TreeParses(lt: Order, t: Tree)
    requires WellFormed(t)
    ensures Parses(Print(lt, t), Denote(t))
  {
    match t
    case Arr(ts) =>
      forall i | 0 <= i < |ts|
        ensures ItemParses(Items(lt, ts)[i])
      {
        TreeParses(lt, ts[i]);
      }
      forall rest | Stop(rest)
        ensures ParseValue(Print(lt, t) + rest) == Some((Denote(t), rest))
      {
        if ts == [] || ts == [Undefined] {
          assert Print(lt, t) + rest == "[]" + rest;
          assert ("[]" + rest)[2..] == rest;
        } else {
          ArrayParses(lt, ts, rest);
        }
      }
    case Obj(es) =>
      forall i | 0 <= i < |es|
        ensures Parses(Members(lt, es)[i].text, Members(lt, es)[i].value)
      {
        TreeParses(lt, es[i].value);
      }
      forall rest | Stop(rest)
        ensures ParseValue(Print(lt, t) + rest) == Some((Denote(t), rest))
      {
        if es == [] {
          assert Print(lt, t) + rest == "{}" + rest;
          assert ("{}" + rest)[2..] == rest;
        } else {
          ObjectParses(lt, es, rest);
        }
      }
    case _ => LeafParses(lt, t);
  }

  /** Parsing the printed text gives back what was printed. */
  lemma RoundTrip(lt: Order, t: Tree)
    requires WellFormed(t)
    ensures ParseValue(Print(lt, t)) == Some((Denote(t), ""))
  {
    TreeParses(lt, t);
    assert Print(lt, t) + "" == Print(lt, t);
  }

  // ---------------------------------------------------------------- same meaning, same text

  lemma {:induction false} SameMeaningSameText(lt: Order, a: Tree, b: Tree)
    requires StrictTotal(lt) && WellFormed(a) && WellFormed(b) && Denote(a) == Denote(b)
    ensures Print(lt, a) == Print(lt, b)
    decreases a
  {
    match a
    case Arr(xs) =>
      var ys := b.items;
      if xs != [Undefined] && ys != [Undefined] {
        assert DenoteItems(xs) == DenoteItems(ys);
        forall i | 0 <= i < |xs|
          ensures Items(lt, xs)[i] == Items(lt, ys)[i]
        {
          SameMeaningSameText(lt, xs[i], ys[i]);
        }
        assert Items(lt, xs) == Items(lt, ys);
      }
    case Obj(es) =>
      forall i, j | 0 <= i < |es| && 0 <= j < |b.entries| && Denote(es[i].value) == Denote(b.entries[j].value)
        ensures Print(lt, es[i].value) == Print(lt, b.entries[j].value)
      {
        SameMeaningSameText(lt, es[i].value, b.entries[j].value);
      }
      SameObjectText(lt, es, b.entries);
    case _ =>
  }

  lemma {:induction false} KeyHasMember(ms: seq<Member>, k: string) returns (j: nat)
    requires k in FromMembers(ms)
    ensures j < |ms| && ms[j].key == k && ms[j].value == FromMembers(ms)[k]
  {
    if ms[0].key == k {
      j := 0;
    } else {
      j := KeyHasMember(ms[1..], k);
      j := j + 1;
    }
  }

  lemma MemberAmong(lt: Order, es: seq<Entry>, fs: seq<Entry>, i: nat)
    requires DistinctKeys(es) && DenoteEntries(es) == DenoteEntries(fs) && i < |es|
    requires forall j | 0 <= j < |fs| && Denote(es[i].value) == Denote(fs[j].value) ::
               Print(lt, es[i].value) == Print(lt, fs[j].value)
    ensures Members(lt, es)[i] in Members(lt, fs)
  {
    var ms, ns := Members(lt, es), Members(lt, fs);
    MembersMeanEntries(lt, es);
    MembersMeanEntries(lt, fs);
    FromMembersContent(ms);
    assert ms[i] in ms;
    var j := KeyHasMember(ns, ms[i].key);
    assert Denote(es[i].value) == Denote(fs[j].value);
    assert ns[j] == ms[i];
  }

  lemma MembersAmong(lt: Order, es: seq<Entry>, fs: seq<Entry>, x: Member)
    requires StrictTotal(lt) && DistinctKeys(es) && DistinctKeys(fs) && DenoteEntries(es) == DenoteEntries(fs)
    requires forall i, j | 0 <= i < |es| && 0 <= j < |fs| && Denote(es[i].value) == Denote(fs[j].value) ::
               Print(lt, es[i].value) == Print(lt, fs[j].value)
    requires x in Members(lt, es)
    ensures x in Members(lt, fs)
  {
    var i :| 0 <= i < |Members(lt, es)| && Members(lt, es)[i] == x;
    MemberAmong(lt, es, fs, i);
  }

  lemma SameObjectText(lt: Order, es: seq<Entry>, fs: seq<Entry>)
    requires StrictTotal(lt) && DistinctKeys(es) && DistinctKeys(fs) && DenoteEntries(es) == DenoteEntries(fs)
    requires forall i, j | 0 <= i < |es| && 0 <= j < |fs| && Denote(es[i].value) == Denote(fs[j].value) ::
               Print(lt, es[i].value) == Print(lt, fs[j].value)
    ensures Print(lt, Obj(es)) == Print(lt, Obj(fs))
  {
    var ms, ns := Members(lt, es), Members(lt, fs);
    forall x: Member
      ensures x in ms <==> x in ns
    {
      if x in ms { MembersAmong(lt, es, fs, x); }
      if x in ns { MembersAmong(lt, fs, es, x); }
    }
    SortPermutes(lt, ms);
    SortPermutes(lt, ns);
    SortSorts(lt, ms);
    SortSorts(lt, ns);
    SortedIsUnique(lt, Sort(lt, ms), Sort(lt, ns));
  }

  /** Two trees print the same text exactly when they mean the same, whatever the order of their members. */
  lemma SameTextIffSameMeaning(lt: Order, a: Tree, b: Tree)
    requires StrictTotal(lt) && WellFormed(a) && WellFormed(b)
    ensures Print(lt, a) == Print(lt, b) <==> Denote(a) == Denote(b)
  {
    RoundTrip(lt, a);
    RoundTrip(lt, b);
    if Denote(a) == Denote(b) {
      SameMeaningSameText(lt, a, b);
    }
  }

  // ---------------------------------------------------------------- the two printers and their hashes

  /** The default order of Array.sort on strings. */
  predicate CodeLess(a: string, b: string) {
    b != "" && (a == "" || a[0] < b[0] || (a[0] == b[0] && CodeLess(a[1..], b[1..])))
  }

  lemma {:induction false} CodeLessTransitive(a: string, b: string, c: string)
    requires CodeLess(a, b) && CodeLess(b, c)
    ensures CodeLess(a, c)
  {
    if a != "" && a[0] == b[0] && b[0] == c[0] {
      CodeLessTransitive(a[1..], b[1..], c[1..]);
    }
  }

  lemma {:induction false} CodeLessTotal(a: string, b: string)
    ensures a == b ==> !CodeLess(a, b)
    ensures a != b ==> CodeLess(a, b) || CodeLess(b, a)
  {
    if a != "" && b != "" && a[0] == b[0] {
      CodeLessTotal(a[1..], b[1..]);
      assert a == [a[0]] + a[1..] && b == [b[0]] + b[1..];
    }
  }

  lemma CodeLessIsStrictTotal()
    ensures StrictTotal(CodeLess)
  {
    forall a, b
      ensures !CodeLess(a, a) && (a != b ==> CodeLess(a, b) || CodeLess(b, a))
    {
      CodeLessTotal(a, a);
      CodeLessTotal(a, b);
    }
    forall a, b, c | CodeLess(a, b) && CodeLess(b, c)
      ensures CodeLess(a, c)
    {
      CodeLessTransitive(a, b, c);
    }
  }

  /** SHA-256 as an injective function of the text. */
  datatype Digest = Digest(text: string)

  /** canonicalBodyHash; an absent body has no text to hash and throws. */
  function CanonicalBodyHash(body: Tree): Option<Digest> {
    if body.Undefined? then None else Some(Digest(Print(CodeLess, body)))
  }

  /** Bodies bound to one idempotency key have equal hashes exactly when they mean the same. */
  lemma BodyHashBindsBody(a: Tree, b: Tree)
    requires WellFormed(a) && WellFormed(b) && !a.Undefined? && !b.Undefined?
    ensures CanonicalBodyHash(a) == CanonicalBodyHash(b) <==> Denote(a) == Denote(b)
  {
    CodeLessIsStrictTotal();
    SameTextIffSameMeaning(CodeLess, a, b);
  }

  // ---------------------------------------------------------------- the one collision: a lone undefined element

  /** A tree up to the order of object members, and nothing else. */
  function Structure(t: Tree): Value {
    match t
    case Undefined => VUndefined
    case Null => VNull
    case Bool(b) => VBool(b)
    case Num(literal) => VNum(literal)
    case Str(s) => VStr(s)
    case Arr(items) => VArr(StructureItems(items))
    case Obj(es) => VObj(StructureEntries(es))
  }

  function StructureItems(ts: seq<Tree>): (vs: seq<Value>)
    ensures |vs| == |ts|
    ensures forall i | 0 <= i < |ts| :: vs[i] == Structure(ts[i])
  {
    if ts == [] then [] else [Structure(ts[0])] + StructureItems(ts[1..])
  }

  function StructureEntries(es: seq<Entry>): map<string, Value> {
    if es == [] then map[] else StructureEntries(es[1..])[es[0].key := Structure(es[0].value)]
  }

  /** Somewhere in the tree is an array whose only element is undefined. */
  predicate HasLoneHole(t: Tree) {
    match t
    case Arr(items) => items == [Undefined] || exists i :: 0 <= i < |items| && HasLoneHole(items[i])
    case Obj(es) => exists i :: 0 <= i < |es| && HasLoneHole(es[i].value)
    case _ => false
  }

  /** The tree with every such array emptied. */
  function Emptied(t: Tree): Tree {
    match t
    case Arr(items) => if items == [Undefined] then Arr([]) else Arr(EmptiedItems(items))
    case Obj(es) => Obj(EmptiedEntries(es))
    case _ => t
  }

  function EmptiedItems(ts: seq<Tree>): (us: seq<Tree>)
    ensures |us| == |ts|
    ensures forall i | 0 <= i < |ts| :: us[i] == Emptied(ts[i])
  {
    if ts == [] then [] else [Emptied(ts[0])] + EmptiedItems(ts[1..])
  }

  function EmptiedEntries(es: seq<Entry>): (fs: seq<Entry>)
    ensures |fs| == |es|
    ensures forall i | 0 <= i < |es| :: fs[i] == Entry(es[i].key, Emptied(es[i].value))
  {
    if es == [] then [] else [Entry(es[0].key, Emptied(es[0].value))] + EmptiedEntries(es[1..])
  }

  lemma {:induction false} StructureEntriesContent(es: seq<Entry>)
    requires DistinctKeys(es)
    ensures forall k :: k in StructureEntries(es) <==> exists i :: 0 <= i < |es| && es[i].key == k
    ensures forall i | 0 <= i < |es| :: es[i].key in StructureEntries(es) && StructureEntries(es)[es[i].key] == Structure(es[i].value)
  {
    if es != [] {
      var rest := es[1..];
      assert forall i | 0 <= i < |rest| :: rest[i] == es[i + 1];
      StructureEntriesContent(rest);
      forall k
        ensures k in StructureEntries(es) <==> exists i :: 0 <= i < |es| && es[i].key == k
      {
        if k in StructureEntries(rest) {
          var i :| 0 <= i < |rest| && rest[i].key == k;
          assert es[i + 1].key == k;
        }
        if i :| 0 <= i < |es| && es[i].key == k && i > 0 {
          assert rest[i - 1].key == k;
        }
      }
      forall i | 0 <= i < |es|
        ensures es[i].key in StructureEntries(es) && StructureEntries(es)[es[i].key] == Structure(es[i].value)
      {
        assert i > 0 ==> es[i] == rest[i - 1] && es[i].key != es[0].key;
      }
    }
  }

  lemma {:induction false} DenoteEntriesContent(es: seq<Entry>)
    requires DistinctKeys(es)
    ensures forall k :: k in DenoteEntries(es) <==> exists i :: 0 <= i < |es| && es[i].key == k
    ensures forall i | 0 <= i < |es| :: es[i].key in DenoteEntries(es) && DenoteEntries(es)[es[i].key] == Denote(es[i].value)
  {
    if es != [] {
      var rest := es[1..];
      assert forall i | 0 <= i < |rest| :: rest[i] == es[i + 1];
      DenoteEntriesContent(rest);
      forall k
        ensures k in DenoteEntries(es) <==> exists i :: 0 <= i < |es| && es[i].key == k
      {
        if k in DenoteEntries(rest) {
          var i :| 0 <= i < |rest| && rest[i].key == k;
          assert es[i + 1].key == k;
        }
        if i :| 0 <= i < |es| && es[i].key == k && i > 0 {
          assert rest[i - 1].key == k;
        }
      }
      forall i | 0 <= i < |es|
        ensures es[i].key in DenoteEntries(es) && DenoteEntries(es)[es[i].key] == Denote(es[i].value)
      {
        assert i > 0 ==> es[i] == rest[i - 1] && es[i].key != es[0].key;
      }
    }
  }

  lemma EntriesAgree(es: seq<Entry>)
    requires DistinctKeys(es) && forall i | 0 <= i < |es| :: Structure(es[i].value) == Denote(es[i].value)
    ensures StructureEntries(es) == DenoteEntries(es)
  {
    StructureEntriesContent(es);
    DenoteEntriesContent(es);
    forall k | k in StructureEntries(es)
      ensures k in DenoteEntries(es) && DenoteEntries(es)[k] == StructureEntries(es)[k]
    {
      var i :| 0 <= i < |es| && es[i].key == k;
    }
    assert StructureEntries(es).Keys == DenoteEntries(es).Keys;
  }

  lemma EntriesAgreeIff(es: seq<Entry>)
    requires DistinctKeys(es)
    ensures StructureEntries(es) == DenoteEntries(es)
            <==> forall i | 0 <= i < |es| :: Structure(es[i].value) == Denote(es[i].value)
  {
    StructureEntriesContent(es);
    DenoteEntriesContent(es);
    if forall i | 0 <= i < |es| :: Structure(es[i].value) == Denote(es[i].value) {
      EntriesAgree(es);
    } else {
      var i :| 0 <= i < |es| && Structure(es[i].value) != Denote(es[i].value);
      assert StructureEntries(es)[es[i].key] != DenoteEntries(es)[es[i].key];
    }
  }

  /** The meaning folds a lone undefined element into the empty array, and changes nothing else. */
  lemma {:induction false} MeaningIsStructureIff(t: Tree)
    requires WellFormed(t)
    ensures Structure(t) == Denote(t) <==> !HasLoneHole(t)
  {
    match t
    case Arr(items) =>
      forall i | 0 <= i < |items|
        ensures Structure(items[i]) == Denote(items[i]) <==> !HasLoneHole(items[i])
      {
        MeaningIsStructureIff(items[i]);
      }
      if items != [Undefined] {
        assert StructureItems(items) == DenoteItems(items)
          <==> forall i | 0 <= i < |items| :: StructureItems(items)[i] == DenoteItems(items)[i];
      }
    case Obj(es) =>
      forall i | 0 <= i < |es|
        ensures Structure(es[i].value) == Denote(es[i].value) <==> !HasLoneHole(es[i].value)
      {
        MeaningIsStructureIff(es[i].value);
      }
      EntriesAgreeIff(es);
    case _ =>
  }

  lemma SameDenoteEntries(es: seq<Entry>, fs: seq<Entry>)
    requires DistinctKeys(es) && |fs| == |es|
    requires forall i | 0 <= i < |es| :: fs[i].key == es[i].key && Denote(fs[i].value) == Denote(es[i].value)
    ensures DenoteEntries(fs) == DenoteEntries(es)
  {
    DenoteEntriesContent(es);
    assert DistinctKeys(fs);
    DenoteEntriesContent(fs);
    forall k
      ensures k in DenoteEntries(fs) <==> k in DenoteEntries(es)
      ensures k in DenoteEntries(es) ==> DenoteEntries(fs)[k] == DenoteEntries(es)[k]
    {
      if i :| 0 <= i < |es| && es[i].key == k {
        assert fs[i].key == k;
      }
      if i :| 0 <= i < |fs| && fs[i].key == k {
        assert es[i].key == k;
      }
    }
  }

  lemma {:induction false} EmptiedMeansTheSame(t: Tree)
    requires WellFormed(t)
    ensures WellFormed(Emptied(t)) && Denote(Emptied(t)) == Denote(t) && !HasLoneHole(Emptied(t))
    ensures Emptied(t).Undefined? <==> t.Undefined?
  {
    match t
    case Arr(items) =>
      forall i | 0 <= i < |items|
        ensures var u := Emptied(items[i]);
                WellFormed(u) && Denote(u) == Denote(items[i]) && !HasLoneHole(u) && (u.Undefined? <==> items[i].Undefined?)
      {
        EmptiedMeansTheSame(items[i]);
      }
      if items != [Undefined] {
        assert EmptiedItems(items) != [Undefined] by {
          assert |items| == 1 ==> items == [items[0]];
        }
        assert DenoteItems(EmptiedItems(items)) == DenoteItems(items);
      }
    case Obj(es) =>
      var fs := EmptiedEntries(es);
      forall i | 0 <= i < |es|
        ensures WellFormed(fs[i].value) && Denote(fs[i].value) == Denote(es[i].value) && !HasLoneHole(fs[i].value)
      {
        EmptiedMeansTheSame(es[i].value);
      }
      SameDenoteEntries(es, fs);
    case _ =>
  }

  /** Without lone undefined elements, two trees print the same text exactly when they are equal up to the order
      of object members. */
  lemma SameTextIffSameStructure(lt: Order, a: Tree, b: Tree)
    requires StrictTotal(lt) && WellFormed(a) && WellFormed(b) && !HasLoneHole(a) && !HasLoneHole(b)
    ensures Print(lt, a) == Print(lt, b) <==> Structure(a) == Structure(b)
  {
    SameTextIffSameMeaning(lt, a, b);
    MeaningIsStructureIff(a);
    MeaningIsStructureIff(b);
  }

  /** A lone undefined element is the one exception: a tree shares its text with a differently structured tree
      free of them if and only if it has one itself. */
  lemma LoneHoleCollidesIff(lt: Order, t: Tree)
    requires StrictTotal(lt) && WellFormed(t)
    ensures (exists u :: WellFormed(u) && !HasLoneHole(u) && Print(lt, u) == Print(lt, t) && Structure(u) != Structure(t))
            <==> HasLoneHole(t)
  {
    if HasLoneHole(t) {
      var u := Emptied(t);
      EmptiedMeansTheSame(t);
      MeaningIsStructureIff(t);
      MeaningIsStructureIff(u);
      SameTextIffSameMeaning(lt, u, t);
    } else {
      forall u | WellFormed(u) && !HasLoneHole(u) && Print(lt, u) == Print(lt, t)
        ensures Structure(u) == Structure(t)
      {
        SameTextIffSameStructure(lt, u, t);
      }
    }
  }
}
