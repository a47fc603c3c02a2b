/**
 * JavaScript values as they pass through `JSON.stringify` and `JSON.parse`.
 *
 * The client stores its session in browser storage as text, so the model needs the
 * encoding: `Stringify` is `JSON.stringify` on JSON values (integers stand for
 * numbers), `Parse` is `JSON.parse` on the canonical text `JSON.stringify`
 * produces, and `ParseStringify` proves that decoding what was encoded gives the
 * value back. `Truthy`, `Get` and `ToJsString` are JavaScript's truthiness, property
 * access and string coercion on these values.
 */
module Json {
  import opened Wrappers

  datatype Json =
    | JNull
    | JBool(b: bool)
    | JNum(n: int)
    | JStr(s: string)
    | JArr(items: seq<Json>)
    | JObj(members: seq<Member>)

  datatype Member = Member(key: string, value: Json)

  // ---------------------------------------------------------------------------
  // JavaScript semantics on values

  /** JavaScript truthiness: null, false, 0 and "" are falsy; arrays and objects are truthy. */
  predicate Truthy(v: Json)
  {
    match v
    case JNull => false
    case JBool(b) => b
    case JNum(n) => n != 0
    case JStr(s) => s != ""
    case JArr(_) => true
    case JObj(_) => true
  }

  /** `v[key]` for an object (the last member with that key, as JSON.parse keeps it); None is `undefined`. */
  function Get(v: Json, key: string): (r: Option<Json>)
    ensures r.Some? ==> v.JObj? && exists i :: 0 <= i < |v.members| && v.members[i] == Member(key, r.value)
  {
    if v.JObj? then Lookup(v.members, key) else None
  }

  function Lookup(ms: seq<Member>, key: string): (r: Option<Json>)
    ensures r.Some? ==> exists i :: 0 <= i < |ms| && ms[i] == Member(key, r.value)
    ensures r.None? ==> forall i :: 0 <= i < |ms| ==> ms[i].key != key
  {
    if ms == [] then None
    else if ms[|ms| - 1].key == key then Some(ms[|ms| - 1].value)
    else Lookup(ms[..|ms| - 1], key)
  }

  /** `String(v)`, the coercion used by template literals and by `localStorage.setItem`. */
  function ToJsString(v: Json): string
  {
    match v
    case JNull => "null"
    case JBool(b) => if b then "true" else "false"
    case JNum(n) => IntText(n)
    case JStr(s) => s
    case JArr(items) => JoinElements(items)
    case JObj(_) => "[object Object]"
  }

  /** `Array.prototype.join(",")`: null elements become empty strings. */
  function JoinElements(items: seq<Json>): string
  {
    if items == [] then ""
    else
      var head := if items[0].JNull? then "" else ToJsString(items[0]);
      if |items| == 1 then head else head + "," + JoinElements(items[1..])
  }

  /** `String(x)` where `x` may be `undefined`. */
  function OptionToJsString(v: Option<Json>): string
  {
    match v
    case None => "undefined"
    case Some(j) => ToJsString(j)
  }

  // ---------------------------------------------------------------------------
  // JSON.stringify

  predicate IsDigit(c: char) { '0' <= c <= '9' }

  function DigitChar(d: nat): (c: char)
    requires d < 10
    ensures IsDigit(c) && c as int - '0' as int == d
  {
    ('0' as int + d) as char
  }

  /** Decimal digits of a natural number, without leading zeros. */
  function NatText(n: nat): (t: string)
    ensures |t| > 0
    ensures forall i :: 0 <= i < |t| ==> IsDigit(t[i])
    ensures n > 0 ==> t[0] != '0'
    ensures n == 0 ==> t == "0"
  {
    if n < 10 then [DigitChar(n)] else NatText(n / 10) + [DigitChar(n % 10)]
  }

  function IntText(n: int): string
  {
    if n < 0 then "-" + NatText(-n) else NatText(n)
  }

  function HexChar(d: nat): char
    requires d < 16
  {
    if d < 10 then DigitChar(d) else ('a' as int + d - 10) as char
  }

  /** How JSON.stringify writes one character inside a string literal. */
  function EscapeChar(c: char): string
  {
    if c == '"' then "\\\""
    else if c == '\\' then "\\\\"
    else if c as int == 8 then "\\b"
    else if c == '\t' then "\\t"
    else if c == '\n' then "\\n"
    else if c as int == 12 then "\\f"
    else if c == '\r' then "\\r"
    else if c as int < 32 then "\\u00" + [HexChar(c as int / 16), HexChar(c as int % 16)]
    else [c]
  }

  function EscapeString(s: string): string
  {
    if s == [] then "" else EscapeChar(s[0]) + EscapeString(s[1..])
  }

  function Quote(s: string): string
  {
    "\"" + EscapeString(s) + "\""
  }

  function Stringify(v: Json): string
    decreases v, 1
  {
    match v
    case JNull => "null"
    case JBool(b) => if b then "true" else "false"
    case JNum(n) => IntText(n)
    case JStr(s) => Quote(s)
    case JArr(items) => "[" + StringifyItems(items) + "]"
    case JObj(ms) => "{" + StringifyMembers(ms) + "}"
  }

  function StringifyItems(items: seq<Json>): string
    decreases items, 0
  {
    if items == [] then ""
    else if |items| == 1 then Stringify(items[0])
    else Stringify(items[0]) + "," + StringifyItems(items[1..])
  }

  function StringifyMember(m: Member): string
    decreases m, 0
  {
    Quote(m.key) + ":" + Stringify(m.value)
  }

  function StringifyMembers(ms: seq<Member>): string
    decreases ms, 0
  {
    if ms == [] then ""
    else if |ms| == 1 then StringifyMember(ms[0])
    else StringifyMember(ms[0]) + "," + StringifyMembers(ms[1..])
  }

  // ---------------------------------------------------------------------------
  // JSON.parse, on text without insignificant white space and with integer numbers

  function DigitValue(c: char): nat
    requires IsDigit(c)
  {
    c as int - '0' as int
  }

  /** The value of a string of decimal digits. */
  function DigitsValue(ds: string): nat
    requires forall i :: 0 <= i < |ds| ==> IsDigit(ds[i])
  {
    if ds == [] then 0 else DigitsValue(ds[..|ds| - 1]) * 10 + DigitValue(ds[|ds| - 1])
  }

  /** The number of leading decimal digits of `s`. */
  function DigitRun(s: string): (k: nat)
    ensures k <= |s|
    ensures forall i :: 0 <= i < k ==> IsDigit(s[i])
    ensures k < |s| ==> !IsDigit(s[k])
  {
    if s == [] || !IsDigit(s[0]) then 0 else 1 + DigitRun(s[1..])
  }

  /** An unsigned JSON integer: `0`, or a digit run that does not start with `0`. */
  function ParseNat(s: string): (r: Option<(nat, string)>)
    ensures r.Some? ==> |r.value.1| < |s|
  {
    if s == [] || !IsDigit(s[0]) then None
    else if s[0] == '0' then Some((0, s[1..]))
    else
      var k := DigitRun(s);
      Some((DigitsValue(s[..k]), s[k..]))
  }

  function HexValue(c: char): (v: Option<nat>)
    ensures v.Some? ==> v.value < 16
  {
    if '0' <= c <= '9' then Some(c as int - '0' as int)
    else if 'a' <= c <= 'f' then Some(c as int - 'a' as int + 10)
    else if 'A' <= c <= 'F' then Some(c as int - 'A' as int + 10)
    else None
  }

  /** The character of a `\uXXXX` escape; surrogate halves are not decoded. */
  function Hex4(s: string): Option<char>
    requires |s| == 4
  {
    match (HexValue(s[0]), HexValue(s[1]), HexValue(s[2]), HexValue(s[3]))
    case (Some(a), Some(b), Some(c), Some(d)) =>
      var code := a * 0x1000 + b * 0x100 + c * 0x10 + d;
      if code < 0xD800 || 0xE000 <= code then Some(code as char) else None
    case _ => None
  }

  /** The rest of a string literal after its opening quote: the decoded text and what follows the closing quote. */
  function ParseStringBody(s: string): (r: Option<(string, string)>)
    ensures r.Some? ==> |r.value.1| < |s|
  {
    if s == [] then None
    else if s[0] == '"' then Some(([], s[1..]))
    else if s[0] == '\\' then
      if |s| < 2 then None
      else
        var e := s[1];
        var simple :=
          if e == '"' then Some('"')
          else if e == '\\' then Some('\\')
          else if e == '/' then Some('/')
          else if e == 'b' then Some(8 as char)
          else if e == 'f' then Some(12 as char)
          else if e == 'n' then Some('\n')
          else if e == 'r' then Some('\r')
          else if e == 't' then Some('\t')
          else None;
        if simple.Some? then Prepend(simple.value, ParseStringBody(s[2..]))
        else if e == 'u' && |s| >= 6 then
          match Hex4(s[2..6])
          case Some(c) => Prepend(c, ParseStringBody(s[6..]))
          case None => None
        else None
    else if s[0] as int < 32 then None
    else Prepend(s[0], ParseStringBody(s[1..]))
  }

  function Prepend(c: char, r: Option<(string, string)>): Option<(string, string)>
  {
    match r
    case None => None
    case Some((t, rest)) => Some(([c] + t, rest))
  }

  /** One JSON value at the front of `s`, and the text after it. */
  function ParseValue(s: string): (r: Option<(Json, string)>)
    ensures r.Some? ==> |r.value.1| < |s|
    decreases |s|, 1
  {
    if s == [] then None
    else if s[0] == 'n' then
      if |s| >= 4 && s[..4] == "null" then Some((JNull, s[4..])) else None
    else if s[0] == 't' then
      if |s| >= 4 && s[..4] == "true" then Some((JBool(true), s[4..])) else None
    else if s[0] == 'f' then
      if |s| >= 5 && s[..5] == "false" then Some((JBool(false), s[5..])) else None
    else if s[0] == '"' then
      match ParseStringBody(s[1..])
      case None => None
      case Some((t, rest)) => Some((JStr(t), rest))
    else if s[0] == '-' then
      match ParseNat(s[1..])
      case None => None
      case Some((n, rest)) => Some((JNum(-(n as int)), rest))
    else if IsDigit(s[0]) then
      match ParseNat(s)
      case None => None
      case Some((n, rest)) => Some((JNum(n), rest))
    else if s[0] == '[' then
      if |s| >= 2 && s[1] == ']' then Some((JArr([]), s[2..]))
      else
        match ParseItems(s[1..])
        case None => None
        case Some((items, rest)) => Some((JArr(items), rest))
    else if s[0] == '{' then
      if |s| >= 2 && s[1] == '}' then Some((JObj([]), s[2..]))
      else
        match ParseMembers(s[1..])
        case None => None
        case Some((ms, rest)) => Some((JObj(ms), rest))
    else None
  }

  /** The elements of a non-empty array after its `[`, up to and including the closing `]`. */
  function ParseItems(s: string): (r: Option<(seq<Json>, string)>)
    ensures r.Some? ==> |r.value.1| < |s|
    decreases |s|, 2
  {
    match ParseValue(s)
    case None => None
    case Some((v, rest)) =>
      if rest == [] then None
      else if rest[0] == ']' then Some(([v], rest[1..]))
      else if rest[0] == ',' then
        match ParseItems(rest[1..])
        case None => None
        case Some((vs, rest')) => Some(([v] + vs, rest'))
      else None
  }

  /** One `"key":value` member at the front of `s`, and the text after it. */
  function ParseMember(s: string): (r: Option<(Member, string)>)
    ensures r.Some? ==> |r.value.1| < |s|
    decreases |s|, 2
  {
    if s == [] || s[0] != '"' then None
    else
      match ParseStringBody(s[1..])
      case None => None
      case Some((key, r1)) =>
        if r1 == [] || r1[0] != ':' then None
        else
          match ParseValue(r1[1..])
          case None => None
          case Some((v, r2)) => Some((Member(key, v), r2))
  }

  /** The members of a non-empty object after its `{`, up to and including the closing `}`. */
  function ParseMembers(s: string): (r: Option<(seq<Member>, string)>)
    ensures r.Some? ==> |r.value.1| < |s|
    decreases |s|, 3
  {
    match ParseMember(s)
    case None => None
    case Some((m, rest)) =>
      if rest == [] then None
      else if rest[0] == '}' then Some(([m], rest[1..]))
      else if rest[0] == ',' then
        match ParseMembers(rest[1..])
        case None => None
        case Some((ms, rest')) => Some(([m] + ms, rest'))
      else None
  }

  /** `JSON.parse(s)`; None is the SyntaxError it throws. */
  function Parse(s: string): Option<Json>
  {
    match ParseValue(s)
    case Some((v, rest)) => if rest == [] then Some(v) else None
    case None => None
  }

  // ---------------------------------------------------------------------------
  // Round trip: JSON.parse(JSON.stringify(v)) == v

  /** Text that may follow a value inside JSON text: nothing, or a separator or closing bracket. */
  predicate Follows(rest: string)
  {
    rest == [] || rest[0] == ',' || rest[0] == ']' || rest[0] == '}'
  }

  lemma {:induction false} DigitsValueOfNatText(n: nat)
    ensures DigitsValue(NatText(n)) == n
  {
    if n >= 10 {
      var t := NatText(n / 10) + [DigitChar(n % 10)];
      assert t[..|t| - 1] == NatText(n / 10);
      DigitsValueOfNatText(n / 10);
    }
  }

  lemma {:induction false} DigitRunOfDigits(t: string, rest: string)
    requires forall i :: 0 <= i < |t| ==> IsDigit(t[i])
    requires rest == [] || !IsDigit(rest[0])
    ensures DigitRun(t + rest) == |t|
  {
    if t != [] {
      assert (t + rest)[1..] == t[1..] + rest;
      DigitRunOfDigits(t[1..], rest);
    }
  }

  lemma ParseNatText(n: nat, rest: string)
    requires rest == [] || !IsDigit(rest[0])
    ensures ParseNat(NatText(n) + rest) == Some((n, rest))
  {
    var t := NatText(n);
    var s := t + rest;
    if n == 0 {
      assert s[1..] == rest;
    } else {
      DigitRunOfDigits(t, rest);
      assert s[..|t|] == t;
      assert s[|t|..] == rest;
      DigitsValueOfNatText(n);
    }
  }

  lemma ParseIntText(n: int, rest: string)
    requires Follows(rest)
    ensures ParseValue(IntText(n) + rest) == Some((JNum(n), rest))
  {
    if n < 0 {
      ParseNegativeText(-n, rest);
    } else {
      ParseUnsignedText(n, rest);
    }
  }

  lemma ParseNegativeText(n: nat, rest: string)
    requires n > 0 && Follows(rest)
    ensures ParseValue(IntText(-(n as int)) + rest) == Some((JNum(-(n as int)), rest))
  {
    var s := IntText(-(n as int)) + rest;
    assert s == "-" + (NatText(n) + rest);
    assert ParseNat(s[1..]) == Some((n, rest)) by {
      assert s[1..] == NatText(n) + rest;
      ParseNatText(n, rest);
    }
    ParseNegative(s, n, rest);
  }

  lemma ParseUnsignedText(n: nat, rest: string)
    requires Follows(rest)
    ensures ParseValue(IntText(n) + rest) == Some((JNum(n), rest))
  {
    var s := NatText(n) + rest;
    assert IsDigit(s[0]) by {
      assert s[0] == NatText(n)[0];
    }
    assert ParseNat(s) == Some((n, rest)) by {
      ParseNatText(n, rest);
    }
    ParseUnsigned(s, n, rest);
  }

  /** One step of `ParseValue` on text starting with `-`. */
  lemma ParseNegative(s: string, n: nat, rest: string)
    requires s != [] && s[0] == '-' && ParseNat(s[1..]) == Some((n, rest))
    ensures ParseValue(s) == Some((JNum(-(n as int)), rest))
  {
  }

  /** One step of `ParseValue` on text starting with a digit. */
  lemma ParseUnsigned(s: string, n: nat, rest: string)
    requires s != [] && IsDigit(s[0]) && ParseNat(s) == Some((n, rest))
    ensures ParseValue(s) == Some((JNum(n), rest))
  {
  }

  lemma ParseEscapeChar(c: char, t: string)
    ensures ParseStringBody(EscapeChar(c) + t) == Prepend(c, ParseStringBody(t))
  {
    var s := EscapeChar(c) + t;
    if c == '"' || c == '\\' || c as int == 8 || c == '\t' || c == '\n' || c as int == 12 || c == '\r' {
      assert s[2..] == t;
    } else if c as int < 32 {
      ParseControlEscape(c, t);
    } else {
      assert s[1..] == t;
    }
  }

  /** A control character without a short escape goes out as `\u00XY` and comes back from it. */
  lemma ParseControlEscape(c: char, t: string)
    requires c as int < 32
    requires !(c == '"' || c == '\\' || c as int == 8 || c == '\t' || c == '\n' || c as int == 12 || c == '\r')
    ensures ParseStringBody(EscapeChar(c) + t) == Prepend(c, ParseStringBody(t))
  {
    var hi, lo := c as int / 16, c as int % 16;
    var s := EscapeChar(c) + t;
    assert s == ['\\', 'u', '0', '0', HexChar(hi), HexChar(lo)] + t;
    assert Hex4(s[2..6]) == Some(c) by {
      assert s[2..6] == ['0', '0', HexChar(hi), HexChar(lo)];
      assert HexValue(HexChar(hi)) == Some(hi);
      assert HexValue(HexChar(lo)) == Some(lo);
    }
    assert s[6..] == t;
    ParseUnicodeStep(s, c);
  }

  /** One step of `ParseStringBody` over a `\uXXXX` escape. */
  lemma ParseUnicodeStep(s: string, c: char)
    requires |s| >= 6 && s[0] == '\\' && s[1] == 'u' && Hex4(s[2..6]) == Some(c)
    ensures ParseStringBody(s) == Prepend(c, ParseStringBody(s[6..]))
  {
  }

  lemma {:induction false} ParseEscapedString(str: string, rest: string)
    ensures ParseStringBody(EscapeString(str) + "\"" + rest) == Some((str, rest))
  {
    if str == [] {
      assert (EscapeString(str) + "\"" + rest)[1..] == rest;
    } else {
      var tail := EscapeString(str[1..]) + "\"" + rest;
      assert EscapeString(str) + "\"" + rest == EscapeChar(str[0]) + tail;
      ParseEscapeChar(str[0], tail);
      ParseEscapedString(str[1..], rest);
      assert [str[0]] + str[1..] == str;
    }
  }

  lemma ParseQuoted(str: string, rest: string)
    ensures ParseValue(Quote(str) + rest) == Some((JStr(str), rest))
  {
    var s := Quote(str) + rest;
    assert s[1..] == EscapeString(str) + "\"" + rest;
    ParseEscapedString(str, rest);
  }

  /** The first character of an encoded value opens a literal, a number, a string, an array or an object. */
  lemma StringifyStart(v: Json)
    ensures |Stringify(v)| > 0
    ensures Stringify(v)[0] != ']' && Stringify(v)[0] != '}'
  {
    if v.JNum? && v.n < 0 {
      assert Stringify(v)[0] == '-';
    }
  }

  /** Decoding the encoding of a value gives the value back and leaves what followed it. */
  lemma {:induction false} ParseStringifyValue(v: Json, rest: string)
    requires Follows(rest)
    ensures ParseValue(Stringify(v) + rest) == Some((v, rest))
    decreases v, 1
  {
    var s := Stringify(v) + rest;
    match v
    case JNull =>
      assert s[..4] == "null" && s[4..] == rest;
    case JBool(b) =>
      if b {
        assert s[..4] == "true" && s[4..] == rest;
      } else {
        assert s[..5] == "false" && s[5..] == rest;
      }
    case JNum(n) =>
      ParseIntText(n, rest);
    case JStr(str) =>
      ParseQuoted(str, rest);
    case JArr(items) =>
      ParseArray(items, rest);
    case JObj(ms) =>
      ParseObject(ms, rest);
  }

  lemma {:induction false} ParseArray(items: seq<Json>, rest: string)
    ensures ParseValue(Stringify(JArr(items)) + rest) == Some((JArr(items), rest))
    decreases items, 2
  {
    var s := Stringify(JArr(items)) + rest;
    if items == [] {
      assert s == "[]" + rest;
      assert s[2..] == rest;
    } else {
      StringifyStart(items[0]);
      var body := StringifyItems(items) + "]" + rest;
      assert s == "[" + body;
      assert s[1..] == body;
      assert s[1] == Stringify(items[0])[0];
      ParseStringifyItems(items, rest);
    }
  }

  lemma {:induction false} ParseObject(ms: seq<Member>, rest: string)
    ensures ParseValue(Stringify(JObj(ms)) + rest) == Some((JObj(ms), rest))
    decreases ms, 2
  {
    var s := Stringify(JObj(ms)) + rest;
    if ms == [] {
      assert s == "{}" + rest;
      assert s[2..] == rest;
    } else {
      var body := StringifyMembers(ms) + "}" + rest;
      assert s == "{" + body;
      assert s[1..] == body;
      assert body[0] == StringifyMember(ms[0])[0] == '"';
      ParseStringifyMembers(ms, rest);
    }
  }

  lemma {:induction false} ParseStringifyItems(items: seq<Json>, rest: string)
    requires items != []
    ensures ParseItems(StringifyItems(items) + "]" + rest) == Some((items, rest))
    decreases items, 1
  {
    var s := StringifyItems(items) + "]" + rest;
    if |items| == 1 {
      assert s == Stringify(items[0]) + ("]" + rest);
      assert ParseValue(s) == Some((items[0], "]" + rest)) by {
        ParseStringifyValue(items[0], "]" + rest);
      }
      ParseItemsLast(s, items[0], rest);
      assert [items[0]] == items;
    } else {
      ParseStringifyMoreItems(items, rest);
    }
  }

  lemma {:induction false} ParseStringifyMoreItems(items: seq<Json>, rest: string)
    requires |items| > 1
    ensures ParseItems(StringifyItems(items) + "]" + rest) == Some((items, rest))
    decreases items, 0
  {
    var s := StringifyItems(items) + "]" + rest;
    var tail := StringifyItems(items[1..]) + "]" + rest;
    assert s == Stringify(items[0]) + ("," + tail);
    assert ParseValue(s) == Some((items[0], "," + tail)) by {
      ParseStringifyValue(items[0], "," + tail);
    }
    ParseStringifyItems(items[1..], rest);
    ParseItemsNext(s, items[0], tail, items[1..], rest);
    assert [items[0]] + items[1..] == items;
  }

  /** One step of `ParseItems` that meets the closing `]`. */
  lemma ParseItemsLast(s: string, v: Json, rest: string)
    requires ParseValue(s) == Some((v, "]" + rest))
    ensures ParseItems(s) == Some(([v], rest))
  {
    assert ("]" + rest)[1..] == rest;
  }

  /** One step of `ParseItems` that meets a `,` and parses the remaining items. */
  lemma ParseItemsNext(s: string, v: Json, tail: string, vs: seq<Json>, rest: string)
    requires ParseValue(s) == Some((v, "," + tail)) && ParseItems(tail) == Some((vs, rest))
    ensures ParseItems(s) == Some(([v] + vs, rest))
  {
    assert ("," + tail)[1..] == tail;
  }

  lemma {:induction false} ParseMemberText(m: Member, after: string)
    requires Follows(after)
    ensures ParseMember(StringifyMember(m) + after) == Some((m, after))
    decreases m, 2
  {
    var s := StringifyMember(m) + after;
    var tail := ":" + (Stringify(m.value) + after);
    assert s == "\"" + (EscapeString(m.key) + "\"" + tail);
    assert ParseStringBody(s[1..]) == Some((m.key, tail)) by {
      assert s[1..] == EscapeString(m.key) + "\"" + tail;
      ParseEscapedString(m.key, tail);
    }
    assert ParseValue(tail[1..]) == Some((m.value, after)) by {
      assert tail[1..] == Stringify(m.value) + after;
      ParseStringifyValue(m.value, after);
    }
    ParseMemberStep(s, m.key, tail, m.value, after);
  }

  /** One step of `ParseMember`: a string key, a `:`, and a value. */
  lemma ParseMemberStep(s: string, key: string, r1: string, v: Json, r2: string)
    requires s != [] && s[0] == '"' && ParseStringBody(s[1..]) == Some((key, r1))
    requires r1 != [] && r1[0] == ':' && ParseValue(r1[1..]) == Some((v, r2))
    ensures ParseMember(s) == Some((Member(key, v), r2))
  {
  }

  lemma {:induction false} ParseStringifyMembers(ms: seq<Member>, rest: string)
    requires ms != []
    ensures ParseMembers(StringifyMembers(ms) + "}" + rest) == Some((ms, rest))
    decreases ms, 1
  {
    var s := StringifyMembers(ms) + "}" + rest;
    if |ms| == 1 {
      assert s == StringifyMember(ms[0]) + ("}" + rest);
      assert ParseMember(s) == Some((ms[0], "}" + rest)) by {
        ParseMemberText(ms[0], "}" + rest);
      }
      ParseMembersLast(s, ms[0], rest);
      assert [ms[0]] == ms;
    } else {
      ParseStringifyMoreMembers(ms, rest);
    }
  }

  lemma {:induction false} ParseStringifyMoreMembers(ms: seq<Member>, rest: string)
    requires |ms| > 1
    ensures ParseMembers(StringifyMembers(ms) + "}" + rest) == Some((ms, rest))
    decreases ms, 0
  {
    var s := StringifyMembers(ms) + "}" + rest;
    var tail := StringifyMembers(ms[1..]) + "}" + rest;
    assert s == StringifyMember(ms[0]) + ("," + tail);
    assert ParseMember(s) == Some((ms[0], "," + tail)) by {
      ParseMemberText(ms[0], "," + tail);
    }
    ParseStringifyMembers(ms[1..], rest);
    ParseMembersNext(s, ms[0], tail, ms[1..], rest);
    assert [ms[0]] + ms[1..] == ms;
  }

  /** One step of `ParseMembers` that meets the closing `}`. */
  lemma ParseMembersLast(s: string, m: Member, rest: string)
    requires ParseMember(s) == Some((m, "}" + rest))
    ensures ParseMembers(s) == Some(([m], rest))
  {
    assert ("}" + rest)[1..] == rest;
  }

  /** One step of `ParseMembers` that meets a `,` and parses the remaining members. */
  lemma ParseMembersNext(s: string, m: Member, tail: string, ms: seq<Member>, rest: string)
    requires ParseMember(s) == Some((m, "," + tail)) && ParseMembers(tail) == Some((ms, rest))
    ensures ParseMembers(s) == Some(([m] + ms, rest))
  {
    assert ("," + tail)[1..] == tail;
  }

  /** `JSON.parse(JSON.stringify(v))` is `v`. */
  lemma ParseStringify(v: Json)
    ensures Parse(Stringify(v)) == Some(v)
  {
    ParseStringifyValue(v, "");
    assert Stringify(v) + "" == Stringify(v);
  }

  /** The encoding of a value is never empty and never the text `undefined`, which `setItem(k, undefined)` stores. */
  lemma StringifyNotUndefined(v: Json)
    ensures Stringify(v) != "" && Stringify(v) != "undefined"
  {
    StringifyStart(v);
    if v.JNum? {
      assert Stringify(v)[0] == '-' || IsDigit(Stringify(v)[0]);
    }
  }
}
