/**
 * The part of Python's `json` module that the tool-calling loop relies on:
 * `json.dumps` with its default separators (`", "` and `": "`) as `Encode`,
 * and `json.loads` as the partial `Decode`, which fails on malformed text.
 * Values are JSON null, booleans, integers, strings, arrays and objects
 * (objects keep their members in insertion order, like a Python dict).
 */
module Json {
  import opened Wrappers

  datatype Value =
    | Null
    | Bool(b: bool)
    | Int(i: int)
    | Str(s: string)
    | Arr(items: seq<Value>)
    | Obj(members: seq<Member>)

  datatype Member = Member(key: string, value: Value)

  // ---------------------------------------------------------------------
  // Characters
  // ---------------------------------------------------------------------

  predicate IsDigit(c: char) {
    '0' <= c <= '9'
  }

  predicate IsHex(c: char) {
    IsDigit(c) || 'a' <= c <= 'f' || 'A' <= c <= 'F'
  }

  /** The four characters JSON treats as insignificant whitespace. */
  predicate IsWhitespace(c: char) {
    c == ' ' || c == '\t' || c == '\n' || c == '\r'
  }

  function Digit(d: nat): (c: char)
    requires d < 10
    ensures IsDigit(c)
  {
    (48 + d) as char
  }

  function DigitValue(c: char): (d: nat)
    requires IsDigit(c)
    ensures d < 10
  {
    c as int - 48
  }

  /** Lower-case hexadecimal digit, as `json.dumps` writes them in `\u` escapes. */
  function Hex(d: nat): (c: char)
    requires d < 16
    ensures IsHex(c)
  {
    if d < 10 then (48 + d) as char else (87 + d) as char
  }

  function HexValue(c: char): (d: nat)
    requires IsHex(c)
    ensures d < 16
  {
    if IsDigit(c) then c as int - 48
    else if 'a' <= c <= 'f' then c as int - 87
    else c as int - 55
  }

  // ---------------------------------------------------------------------
  // Encoding (json.dumps)
  // ---------------------------------------------------------------------

  /** Decimal digits of a natural number, most significant first. */
  function NatDigits(n: nat): (r: string)
    ensures |r| > 0
    ensures forall k :: 0 <= k < |r| ==> IsDigit(r[k])
    ensures n > 0 ==> r[0] != '0'
    decreases n
  {
    if n < 10 then [Digit(n)] else NatDigits(n / 10) + [Digit(n % 10)]
  }

  /** The letter `json.dumps` writes after a backslash for `c`, when `c` has a two-character escape. */
  function ShortEscape(c: char): Option<char> {
    if c == '"' then Some('"')
    else if c == '\\' then Some('\\')
    else if c == '\n' then Some('n')
    else if c == '\r' then Some('r')
    else if c == '\t' then Some('t')
    else if c as int == 8 then Some('b')
    else if c as int == 12 then Some('f')
    else None
  }

  /** The escape `json.dumps` writes for one character of a string. */
  function EscapeChar(c: char): string {
    match ShortEscape(c)
    case Some(e) => ['\\', e]
    case None =>
      if c as int < 32 then "\\u00" + [Hex(c as int / 16), Hex(c as int % 16)] else [c]
  }

  function EscapeString(s: string): string {
    if s == [] then [] else EscapeChar(s[0]) + EscapeString(s[1..])
  }

  function Quote(s: string): string {
    "\"" + EscapeString(s) + "\""
  }

  function Encode(v: Value): string
    decreases v
  {
    match v
    case Null => "null"
    case Bool(b) => if b then "true" else "false"
    case Int(i) => if i < 0 then "-" + NatDigits(-i) else NatDigits(i)
    case Str(s) => Quote(s)
    case Arr(items) => "[" + EncodeItems(items) + "]"
    case Obj(members) => "{" + EncodeMembers(members) + "}"
  }

  /** Array elements separated by `", "`. */
  function EncodeItems(items: seq<Value>): string
    decreases items
  {
    if items == [] then ""
    else Encode(items[0]) + (if |items| == 1 then "" else ", " + EncodeItems(items[1..]))
  }

  /** One object member, `"key": value`. */
  function EncodeMember(m: Member): string
    decreases m
  {
    Quote(m.key) + ": " + Encode(m.value)
  }

  /** Object members separated by `", "`. */
  function EncodeMembers(members: seq<Member>): string
    decreases members
  {
    if members == [] then ""
    else EncodeMember(members[0]) + (if |members| == 1 then "" else ", " + EncodeMembers(members[1..]))
  }

  // ---------------------------------------------------------------------
  // Decoding (json.loads)
  // ---------------------------------------------------------------------

  /** What a parser read and the text it left. */
  datatype Parsed<T> = Parsed(value: T, rest: string)

  function SkipWs(s: string): (r: string)
    ensures |r| <= |s|
    ensures r == [] || !IsWhitespace(r[0])
  {
    if s != [] && IsWhitespace(s[0]) then SkipWs(s[1..]) else s
  }

  /** Number of leading decimal digits. */
  function DigitRun(s: string): (k: nat)
    ensures k <= |s|
    ensures forall j :: 0 <= j < k ==> IsDigit(s[j])
    ensures k < |s| ==> !IsDigit(s[k])
  {
    if s != [] && IsDigit(s[0]) then 1 + DigitRun(s[1..]) else 0
  }

  predicate AllDigits(s: string) {
    forall j :: 0 <= j < |s| ==> IsDigit(s[j])
  }

  /** The number a run of decimal digits denotes. */
  function DigitsValue(s: string): nat
    requires AllDigits(s)
  {
    if s == [] then 0 else DigitsValue(s[..|s| - 1]) * 10 + DigitValue(s[|s| - 1])
  }

  /** A natural number: `0`, or a digit run without a leading zero. */
  function ParseNat(u: string): (r: Option<Parsed<nat>>)
    ensures r.Some? ==> |r.value.rest| < |u|
  {
    if u == [] || !IsDigit(u[0]) then None
    else if u[0] == '0' then Some(Parsed(0, u[1..]))
    else
      var k := DigitRun(u);
      Some(Parsed(DigitsValue(u[..k]), u[k..]))
  }

  /** An integer: an optional `-`, then a natural number. */
  function ParseInt(s: string): (r: Option<Parsed<Value>>)
    ensures r.Some? ==> |r.value.rest| < |s|
  {
    if s != [] && s[0] == '-' then
      match ParseNat(s[1..])
      case None => None
      case Some(p) => Some(Parsed(Int(-(p.value as int)), p.rest))
    else
      match ParseNat(s)
      case None => None
      case Some(p) => Some(Parsed(Int(p.value), p.rest))
  }

  /** The character a two-character escape `\\e` stands for. */
  function Unescape(e: char): Option<char> {
    if e == '"' then Some('"')
    else if e == '\\' then Some('\\')
    else if e == '/' then Some('/')
    else if e == 'b' then Some(8 as char)
    else if e == 'f' then Some(12 as char)
    else if e == 'n' then Some('\n')
    else if e == 'r' then Some('\r')
    else if e == 't' then Some('\t')
    else None
  }

  /** Four hexadecimal digits naming a character outside the surrogate range. */
  function ParseHex4(s: string): (r: Option<Parsed<char>>)
    ensures r.Some? ==> |r.value.rest| < |s|
  {
    if |s| >= 4 && IsHex(s[0]) && IsHex(s[1]) && IsHex(s[2]) && IsHex(s[3]) then
      var n := HexValue(s[0]) * 4096 + HexValue(s[1]) * 256 + HexValue(s[2]) * 16 + HexValue(s[3]);
      if 0xD800 <= n < 0xE000 then None else Some(Parsed(n as char, s[4..]))
    else None
  }

  /** The character after a backslash inside a string. */
  function ParseEscape(s: string): (r: Option<Parsed<char>>)
    ensures r.Some? ==> |r.value.rest| < |s|
  {
    if s == [] then None
    else if s[0] == 'u' then ParseHex4(s[1..])
    else
      match Unescape(s[0])
      case None => None
      case Some(c) => Some(Parsed(c, s[1..]))
  }

  /** The body of a string literal, after its opening quote, through its closing quote. */
  function ParseString(s: string): (r: Option<Parsed<string>>)
    ensures r.Some? ==> |r.value.rest| < |s|
    decreases |s|
  {
    if s == [] then None
    else if s[0] == '"' then Some(Parsed("", s[1..]))
    else if s[0] == '\\' then
      match ParseEscape(s[1..])
      case None => None
      case Some(e) =>
        match ParseString(e.rest)
        case None => None
        case Some(p) => Some(Parsed([e.value] + p.value, p.rest))
    else if s[0] as int < 32 then None
    else
      match ParseString(s[1..])
      case None => None
      case Some(p) => Some(Parsed([s[0]] + p.value, p.rest))
  }

  function ParseValue(s: string): (r: Option<Parsed<Value>>)
    ensures r.Some? ==> |r.value.rest| < |s|
    decreases |s|, 0
  {
    var t := SkipWs(s);
    if t == [] then None
    else if t[0] == 'n' then
      if |t| >= 4 && t[..4] == "null" then Some(Parsed(Null, t[4..])) else None
    else if t[0] == 't' then
      if |t| >= 4 && t[..4] == "true" then Some(Parsed(Bool(true), t[4..])) else None
    else if t[0] == 'f' then
      if |t| >= 5 && t[..5] == "false" then Some(Parsed(Bool(false), t[5..])) else None
    else if t[0] == '"' then
      match ParseString(t[1..])
      case None => None
      case Some(p) => Some(Parsed(Str(p.value), p.rest))
    else if t[0] == '[' then ParseArray(t[1..])
    else if t[0] == '{' then ParseObject(t[1..])
    else if t[0] == '-' || IsDigit(t[0]) then ParseInt(t)
    else None
  }

  /** An array, after its opening bracket. */
  function ParseArray(s: string): (r: Option<Parsed<Value>>)
    ensures r.Some? ==> |r.value.rest| < |s|
    decreases |s|, 2
  {
    var u := SkipWs(s);
    if u != [] && u[0] == ']' then Some(Parsed(Arr([]), u[1..]))
    else
      match ParseItems(s)
      case None => None
      case Some(p) => Some(Parsed(Arr(p.value), p.rest))
  }

  /** One or more elements, then the closing bracket. */
  function ParseItems(s: string): (r: Option<Parsed<seq<Value>>>)
    ensures r.Some? ==> |r.value.rest| < |s|
    decreases |s|, 1
  {
    match ParseValue(s)
    case None => None
    case Some(p) =>
      var u := SkipWs(p.rest);
      if u == [] then None
      else if u[0] == ']' then Some(Parsed([p.value], u[1..]))
      else if u[0] == ',' then
        match ParseItems(u[1..])
        case None => None
        case Some(q) => Some(Parsed([p.value] + q.value, q.rest))
      else None
  }

  /** An object, after its opening brace. */
  function ParseObject(s: string): (r: Option<Parsed<Value>>)
    ensures r.Some? ==> |r.value.rest| < |s|
    decreases |s|, 2
  {
    var u := SkipWs(s);
    if u != [] && u[0] == '}' then Some(Parsed(Obj([]), u[1..]))
    else
      match ParseMembers(s)
      case None => None
      case Some(p) => Some(Parsed(Obj(p.value), p.rest))
  }

  /** One or more `"key": value` members, then the closing brace. */
  function ParseMembers(s: string): (r: Option<Parsed<seq<Member>>>)
    ensures r.Some? ==> |r.value.rest| < |s|
    decreases |s|, 1
  {
    var u := SkipWs(s);
    if u == [] || u[0] != '"' then None
    else
      match ParseString(u[1..])
      case None => None
      case Some(k) =>
        var w := SkipWs(k.rest);
        if w == [] || w[0] != ':' then None
        else
          match ParseValue(w[1..])
          case None => None
          case Some(p) =>
            var x := SkipWs(p.rest);
            var m := Member(k.value, p.value);
            if x == [] then None
            else if x[0] == '}' then Some(Parsed([m], x[1..]))
            else if x[0] == ',' then
              match ParseMembers(x[1..])
              case None => None
              case Some(q) => Some(Parsed([m] + q.value, q.rest))
            else None
  }

  /** `json.loads`: one value, optionally surrounded by whitespace, and nothing else. */
  function Decode(s: string): Option<Value> {
    match ParseValue(s)
    case None => None
    case Some(p) => if SkipWs(p.rest) == [] then Some(p.value) else None
  }

  // ---------------------------------------------------------------------
  // Round trip: Decode(Encode(v)) == Some(v)
  // ---------------------------------------------------------------------

  /** Text that cannot extend a number written just before it. */
  predicate Delimited(rest: string) {
    rest == [] || !IsDigit(rest[0])
  }

  lemma {:induction false} NatDigitsValue(n: nat)
    ensures DigitsValue(NatDigits(n)) == n
    decreases n
  {
    if n >= 10 {
      var ds := NatDigits(n / 10) + [Digit(n % 10)];
      assert ds[..|ds| - 1] == NatDigits(n / 10);
      NatDigitsValue(n / 10);
    }
  }

  lemma {:induction false} DigitRunOfDigits(ds: string, rest: string)
    requires AllDigits(ds) && Delimited(rest)
    ensures DigitRun(ds + rest) == |ds|
    decreases |ds|
  {
    if ds == [] {
      assert ds + rest == rest;
    } else {
      assert (ds + rest)[1..] == ds[1..] + rest;
      DigitRunOfDigits(ds[1..], rest);
    }
  }

  lemma ParseNatEncoded(n: nat, rest: string)
    requires Delimited(rest)
    ensures ParseNat(NatDigits(n) + rest) == Some(Parsed(n, rest))
  {
    var ds := NatDigits(n);
    var u := ds + rest;
    if n == 0 {
      assert ds == "0";
      assert u[1..] == rest;
    } else {
      DigitRunOfDigits(ds, rest);
      NatDigitsValue(n);
      assert u[..|ds|] == ds && u[|ds|..] == rest;
    }
  }

  lemma SignShape(ds: string, rest: string)
    ensures ("-" + ds) + rest != [] && (("-" + ds) + rest)[0] == '-'
    ensures (("-" + ds) + rest)[1..] == ds + rest
  {
  }

  lemma ParseEncodedInt(i: int, rest: string)
    requires Delimited(rest)
    ensures ParseInt(Encode(Int(i)) + rest) == Some(Parsed(Int(i), rest))
  {
    if i < 0 {
      SignShape(NatDigits(-i), rest);
      ParseNatEncoded(-i, rest);
    } else {
      ParseNatEncoded(i, rest);
    }
  }

  lemma UnescapeShort(c: char)
    requires ShortEscape(c).Some?
    ensures Unescape(ShortEscape(c).value) == Some(c)
  {
  }

  lemma ParseHex4Control(c: char, tail: string)
    requires c as int < 32
    ensures ParseHex4("00" + [Hex(c as int / 16), Hex(c as int % 16)] + tail) == Some(Parsed(c, tail))
  {
    var hi, lo := c as int / 16, c as int % 16;
    var s := "00" + [Hex(hi), Hex(lo)] + tail;
    assert s[4..] == tail;
    assert HexValue(s[0]) == 0 && HexValue(s[1]) == 0;
    assert HexValue(Hex(hi)) == hi && HexValue(Hex(lo)) == lo;
    assert ((hi * 16 + lo) as char) == c;
  }

  lemma ParseEscapeOf(c: char, tail: string)
    requires EscapeChar(c)[0] == '\\'
    ensures ParseEscape(EscapeChar(c)[1..] + tail) == Some(Parsed(c, tail))
  {
    var s := EscapeChar(c)[1..] + tail;
    if ShortEscape(c).Some? {
      UnescapeShort(c);
      assert s[1..] == tail;
    } else {
      assert s[1..] == "00" + [Hex(c as int / 16), Hex(c as int % 16)] + tail;
      ParseHex4Control(c, tail);
    }
  }

  /** Parsing one escaped character hands the rest of the text to the next step. */
  lemma ParseEscapedChar(c: char, tail: string)
    ensures ParseString(EscapeChar(c) + tail) ==
      match ParseString(tail)
      case None => None
      case Some(p) => Some(Parsed([c] + p.value, p.rest))
  {
    var s := EscapeChar(c) + tail;
    if EscapeChar(c)[0] == '\\' {
      assert s[1..] == EscapeChar(c)[1..] + tail;
      ParseEscapeOf(c, tail);
    } else {
      assert EscapeChar(c) == [c];
      assert s[1..] == tail;
    }
  }

  lemma {:induction false} ParseEncodedString(x: string, rest: string)
    ensures ParseString(EscapeString(x) + "\"" + rest) == Some(Parsed(x, rest))
    decreases |x|
  {
    if x == [] {
      assert EscapeString(x) + "\"" + rest == "\"" + rest;
    } else {
      var tail := EscapeString(x[1..]) + "\"" + rest;
      assert EscapeString(x) + "\"" + rest == EscapeChar(x[0]) + tail;
      ParseEscapedChar(x[0], tail);
      ParseEncodedString(x[1..], rest);
      assert [x[0]] + x[1..] == x;
    }
  }

  lemma EncodeStart(v: Value)
    ensures Encode(v) != []
    ensures Encode(v)[0] in "ntf-\"[{" || IsDigit(Encode(v)[0])
  {
    match v
    case Int(i) =>
      if i < 0 { assert Encode(v)[0] == '-'; }
    case _ =>
  }

  lemma SkipWsEncoded(v: Value, rest: string)
    ensures SkipWs(Encode(v) + rest) == Encode(v) + rest
  {
    EncodeStart(v);
  }

  /** Leading whitespace before a value, an element or a member is skipped. */
  lemma ValueAfterSpace(s: string)
    ensures ParseValue(" " + s) == ParseValue(s)
  {
    assert (" " + s)[1..] == s;
  }

  lemma ItemsAfterSpace(s: string)
    ensures ParseItems(" " + s) == ParseItems(s)
  {
    ValueAfterSpace(s);
  }

  lemma MembersAfterSpace(s: string)
    ensures ParseMembers(" " + s) == ParseMembers(s)
  {
    assert (" " + s)[1..] == s;
  }

  lemma ParseEncodedNull(rest: string)
    ensures ParseValue(Encode(Null) + rest) == Some(Parsed(Null, rest))
  {
    var t := Encode(Null) + rest;
    SkipWsEncoded(Null, rest);
    assert t[..4] == "null" && t[4..] == rest;
  }

  lemma ParseEncodedBool(b: bool, rest: string)
    ensures ParseValue(Encode(Bool(b)) + rest) == Some(Parsed(Bool(b), rest))
  {
    var t := Encode(Bool(b)) + rest;
    SkipWsEncoded(Bool(b), rest);
    if b {
      assert t[..4] == "true" && t[4..] == rest;
    } else {
      assert t[..5] == "false" && t[5..] == rest;
    }
  }

  lemma ParseEncodedNumber(i: int, rest: string)
    requires Delimited(rest)
    ensures ParseValue(Encode(Int(i)) + rest) == Some(Parsed(Int(i), rest))
  {
    SkipWsEncoded(Int(i), rest);
    EncodeStart(Int(i));
    ParseEncodedInt(i, rest);
  }

  lemma ParseEncodedStr(x: string, rest: string)
    ensures ParseValue(Encode(Str(x)) + rest) == Some(Parsed(Str(x), rest))
  {
    var t := Encode(Str(x)) + rest;
    SkipWsEncoded(Str(x), rest);
    assert t[1..] == EscapeString(x) + "\"" + rest;
    ParseEncodedString(x, rest);
  }

  lemma ParseValueArray(t: string)
    requires t != [] && t[0] == '['
    ensures ParseValue(t) == ParseArray(t[1..])
  {
  }

  lemma ParseValueObject(t: string)
    requires t != [] && t[0] == '{'
    ensures ParseValue(t) == ParseObject(t[1..])
  {
  }

  lemma {:induction false} ParseEncoded(v: Value, rest: string)
    requires Delimited(rest)
    ensures ParseValue(Encode(v) + rest) == Some(Parsed(v, rest))
    decreases v, 0
  {
    match v
    case Null => ParseEncodedNull(rest);
    case Bool(b) => ParseEncodedBool(b, rest);
    case Int(i) => ParseEncodedNumber(i, rest);
    case Str(x) => ParseEncodedStr(x, rest);
    case Arr(items) => ParseEncodedArr(items, rest);
    case Obj(members) => ParseEncodedObj(members, rest);
  }

  lemma {:induction false} ParseEncodedArr(items: seq<Value>, rest: string)
    ensures ParseValue(Encode(Arr(items)) + rest) == Some(Parsed(Arr(items), rest))
    decreases items, 2
  {
    var t := Encode(Arr(items)) + rest;
    SkipWsEncoded(Arr(items), rest);
    assert t[1..] == EncodeItems(items) + "]" + rest;
    ParseValueArray(t);
    if items == [] {
      assert (t[1..])[1..] == rest;
    } else {
      ParseEncodedItems(items, rest);
      EncodeStart(items[0]);
    }
  }

  lemma {:induction false} ParseEncodedObj(members: seq<Member>, rest: string)
    ensures ParseValue(Encode(Obj(members)) + rest) == Some(Parsed(Obj(members), rest))
    decreases members, 2
  {
    var t := Encode(Obj(members)) + rest;
    SkipWsEncoded(Obj(members), rest);
    assert t[1..] == EncodeMembers(members) + "}" + rest;
    ParseValueObject(t);
    if members == [] {
      assert (t[1..])[1..] == rest;
    } else {
      ParseEncodedMembers(members, rest);
    }
  }

  /** Where the separator after an element or member leaves the parser. */
  lemma SeparatorShape(next: string)
    ensures (", " + next) != [] && (", " + next)[0] == ',' && (", " + next)[1..] == " " + next
  {
  }

  lemma CloserShape(c: char, rest: string)
    ensures ([c] + rest) != [] && ([c] + rest)[0] == c && ([c] + rest)[1..] == rest
  {
  }

  /** ParseItems after an element that ends right before `tail`. */
  lemma ParseItemsStep(s: string, x: Value, tail: string)
    requires ParseValue(s) == Some(Parsed(x, tail))
    requires tail != [] && (tail[0] == ']' || tail[0] == ',')
    ensures ParseItems(s) ==
      if tail[0] == ']' then Some(Parsed([x], tail[1..]))
      else match ParseItems(tail[1..])
        case None => None
        case Some(q) => Some(Parsed([x] + q.value, q.rest))
  {
  }

  /** The last element, then the closing bracket. */
  lemma ParseItemsLast(s: string, x: Value, rest: string)
    requires ParseValue(s) == Some(Parsed(x, "]" + rest))
    ensures ParseItems(s) == Some(Parsed([x], rest))
  {
    CloserShape(']', rest);
    ParseItemsStep(s, x, "]" + rest);
  }

  /** An element, `", "`, and further elements that parse on their own. */
  lemma ParseItemsCons(s: string, x: Value, next: string, xs: seq<Value>, rest: string)
    requires ParseValue(s) == Some(Parsed(x, ", " + next))
    requires ParseItems(next) == Some(Parsed(xs, rest))
    ensures ParseItems(s) == Some(Parsed([x] + xs, rest))
  {
    SeparatorShape(next);
    ParseItemsStep(s, x, ", " + next);
    ItemsAfterSpace(next);
  }

  /** How the text of a non-empty element list splits after its first element. */
  lemma EncodeItemsShape(items: seq<Value>, rest: string)
    requires items != []
    ensures |items| == 1 ==> EncodeItems(items) + "]" + rest == Encode(items[0]) + ("]" + rest)
    ensures |items| > 1 ==>
      EncodeItems(items) + "]" + rest == Encode(items[0]) + (", " + (EncodeItems(items[1..]) + "]" + rest))
  {
    var head := Encode(items[0]);
    if |items| == 1 {
      assert EncodeItems(items) == head + "";
      assert head + "" == head;
      Assoc(head, "]", rest);
    } else {
      var more := EncodeItems(items[1..]);
      var x := ", " + more;
      assert EncodeItems(items) == head + x;
      Assoc(head, x, "]");
      Assoc(head, x + "]", rest);
      Assoc(", ", more, "]");
      Assoc(", ", more + "]", rest);
    }
  }

  lemma {:induction false} ParseEncodedItems(items: seq<Value>, rest: string)
    requires items != []
    ensures ParseItems(EncodeItems(items) + "]" + rest) == Some(Parsed(items, rest))
    decreases items, 1
  {
    EncodeItemsShape(items, rest);
    var s := EncodeItems(items) + "]" + rest;
    if |items| == 1 {
      ParseEncoded(items[0], "]" + rest);
      ParseItemsLast(s, items[0], rest);
      assert [items[0]] == items;
    } else {
      var next := EncodeItems(items[1..]) + "]" + rest;
      ParseEncoded(items[0], ", " + next);
      ParseEncodedItems(items[1..], rest);
      ParseItemsCons(s, items[0], next, items[1..], rest);
      assert [items[0]] + items[1..] == items;
    }
  }

  /** ParseMembers after a key and the value that ends right before `tail`. */
  lemma ParseMembersStep(s: string, key: string, afterKey: string, x: Value, tail: string)
    requires s != [] && s[0] == '"'
    requires ParseString(s[1..]) == Some(Parsed(key, afterKey))
    requires afterKey != [] && afterKey[0] == ':'
    requires ParseValue(afterKey[1..]) == Some(Parsed(x, tail))
    requires tail != [] && (tail[0] == '}' || tail[0] == ',')
    ensures ParseMembers(s) ==
      if tail[0] == '}' then Some(Parsed([Member(key, x)], tail[1..]))
      else match ParseMembers(tail[1..])
        case None => None
        case Some(q) => Some(Parsed([Member(key, x)] + q.value, q.rest))
  {
  }

  /** How the text of a member splits around its key. */
  lemma MemberTextShape(key: string, vt: string)
    ensures var s := Quote(key) + (": " + vt);
      s != [] && s[0] == '"' && s[1..] == EscapeString(key) + "\"" + (": " + vt)
    ensures (": " + vt) != [] && (": " + vt)[0] == ':' && (": " + vt)[1..] == " " + vt
  {
    var s := Quote(key) + (": " + vt);
    assert s == "\"" + (EscapeString(key) + "\"" + (": " + vt));
  }

  /** ParseMembers on a key followed by a value whose parse ends right before `tail`. */
  lemma ParseMemberPrefix(key: string, vt: string, x: Value, tail: string)
    requires ParseValue(vt) == Some(Parsed(x, tail))
    requires tail != [] && (tail[0] == '}' || tail[0] == ',')
    ensures ParseMembers(Quote(key) + (": " + vt)) ==
      if tail[0] == '}' then Some(Parsed([Member(key, x)], tail[1..]))
      else match ParseMembers(tail[1..])
        case None => None
        case Some(q) => Some(Parsed([Member(key, x)] + q.value, q.rest))
  {
    var afterKey := ": " + vt;
    MemberTextShape(key, vt);
    ParseEncodedString(key, afterKey);
    ValueAfterSpace(vt);
    ParseMembersStep(Quote(key) + afterKey, key, afterKey, x, tail);
  }

  /** The last member, then the closing brace. */
  lemma ParseMembersLast(key: string, vt: string, x: Value, rest: string)
    requires ParseValue(vt) == Some(Parsed(x, "}" + rest))
    ensures ParseMembers(Quote(key) + (": " + vt)) == Some(Parsed([Member(key, x)], rest))
  {
    CloserShape('}', rest);
    ParseMemberPrefix(key, vt, x, "}" + rest);
  }

  /** A member, `", "`, and further members that parse on their own. */
  lemma ParseMembersCons(key: string, vt: string, x: Value, next: string, ms: seq<Member>, rest: string)
    requires ParseValue(vt) == Some(Parsed(x, ", " + next))
    requires ParseMembers(next) == Some(Parsed(ms, rest))
    ensures ParseMembers(Quote(key) + (": " + vt)) == Some(Parsed([Member(key, x)] + ms, rest))
  {
    SeparatorShape(next);
    ParseMemberPrefix(key, vt, x, ", " + next);
    MembersAfterSpace(next);
  }

  /** How the text of a non-empty member list, followed by `after`, splits after its first member. */
  lemma EncodeMembersShape(members: seq<Member>, after: string)
    requires members != []
    ensures var m := members[0];
      |members| == 1 ==> EncodeMembers(members) + after == Quote(m.key) + (": " + (Encode(m.value) + after))
    ensures var m := members[0];
      |members| > 1 ==>
        EncodeMembers(members) + after
        == Quote(m.key) + (": " + (Encode(m.value) + (", " + (EncodeMembers(members[1..]) + after))))
  {
    var m := members[0];
    var q, v := Quote(m.key), Encode(m.value);
    assert EncodeMember(m) == (q + ": ") + v;
    if |members| == 1 {
      assert EncodeMembers(members) == EncodeMember(m) + "";
      assert EncodeMember(m) + "" == EncodeMember(m);
      Assoc(q + ": ", v, after);
      Assoc(q, ": ", v + after);
    } else {
      var more := EncodeMembers(members[1..]);
      var x := ", " + more;
      assert EncodeMembers(members) == ((q + ": ") + v) + x;
      Assoc((q + ": ") + v, x, after);
      Assoc(q + ": ", v, x + after);
      Assoc(q, ": ", v + (x + after));
      Assoc(", ", more, after);
    }
  }

  lemma {:induction false} ParseEncodedMembers(members: seq<Member>, rest: string)
    requires members != []
    ensures ParseMembers(EncodeMembers(members) + "}" + rest) == Some(Parsed(members, rest))
    decreases members, 1
  {
    var m := members[0];
    EncodeMembersShape(members, "}" + rest);
    Assoc(EncodeMembers(members), "}", rest);
    if |members| == 1 {
      ParseEncoded(m.value, "}" + rest);
      ParseMembersLast(m.key, Encode(m.value) + ("}" + rest), m.value, rest);
      assert [m] == members;
    } else {
      var next := EncodeMembers(members[1..]) + "}" + rest;
      Assoc(EncodeMembers(members[1..]), "}", rest);
      ParseEncoded(m.value, ", " + next);
      ParseEncodedMembers(members[1..], rest);
      ParseMembersCons(m.key, Encode(m.value) + (", " + next), m.value, next, members[1..], rest);
      assert [m] + members[1..] == members;
    }
  }

  /** Whatever `json.dumps` writes, `json.loads` reads back as the same value. */
  lemma DecodeEncode(v: Value)
    ensures Decode(Encode(v)) == Some(v)
  {
    ParseEncoded(v, "");
    assert Encode(v) + "" == Encode(v);
  }

  /** The empty Python dict `{}` is written as the two characters `{}`. */
  lemma EncodeEmptyObject()
    ensures Encode(Obj([])) == "{}"
  {
  }

  /** Empty argument text is rejected. */
  lemma DecodeRejectsEmpty()
    ensures Decode("") == None
  {
  }

  /** A member whose value ends the text leaves the object open, so the member list fails. */
  lemma ParseMemberUnclosed(key: string, vt: string, x: Value)
    requires ParseValue(vt) == Some(Parsed(x, ""))
    ensures ParseMembers(Quote(key) + (": " + vt)) == None
  {
    var afterKey := ": " + vt;
    MemberTextShape(key, vt);
    ParseEncodedString(key, afterKey);
    ValueAfterSpace(vt);
  }

  /** The members of an object, without the closing brace, never parse as a complete member list. */
  lemma {:induction false} ParseMembersUnclosed(members: seq<Member>)
    requires members != []
    ensures ParseMembers(EncodeMembers(members)) == None
    decreases members
  {
    var m := members[0];
    EncodeMembersShape(members, "");
    assert EncodeMembers(members) + "" == EncodeMembers(members);
    if |members| == 1 {
      ParseEncoded(m.value, "");
      assert Encode(m.value) + "" == Encode(m.value);
      ParseMemberUnclosed(m.key, Encode(m.value), m.value);
    } else {
      var next := EncodeMembers(members[1..]);
      assert next + "" == next;
      ParseEncoded(m.value, ", " + next);
      ParseMembersUnclosed(members[1..]);
      SeparatorShape(next);
      ParseMemberPrefix(m.key, Encode(m.value) + (", " + next), m.value, ", " + next);
      MembersAfterSpace(next);
    }
  }

  /** Any object with its closing brace cut off is rejected. */
  lemma DecodeRejectsTruncated(members: seq<Member>)
    ensures var e := Encode(Obj(members));
      |e| >= 2 && Decode(e[..|e| - 1]) == None
  {
    var e := Encode(Obj(members));
    var t := "{" + EncodeMembers(members);
    assert e[..|e| - 1] == t;
    ParseValueObject(t);
    assert t[1..] == EncodeMembers(members);
    if members == [] {
      assert SkipWs("") == "";
    } else {
      ParseMembersUnclosed(members);
      MemberTextShape(members[0].key, "");
      assert EncodeMembers(members)[0] == '"';
    }
  }

  /** Any value followed by more than whitespace is rejected (`Extra data`). */
  lemma DecodeRejectsTrailing(v: Value, t: string)
    requires Delimited(t) && SkipWs(t) != []
    ensures Decode(Encode(v) + t) == None
  {
    ParseEncoded(v, t);
  }
}
