/**
 * `JSON.stringify` and `JSON.parse` for the values the client stores:
 * `null`, booleans, integers and strings. An object or array is checked
 * against the JSON grammar and kept as its text; `Member` reads one field
 * back out of an object.
 */
module Json {
  import opened Wrappers
  import opened Js

  /** The white space JSON allows around a value. */
  predicate IsWs(c: char) {
    c == ' ' || c == '\t' || c == '\n' || c == '\r'
  }

  function SkipWs(s: string): (r: string)
    ensures |r| <= |s| && r == s[|s| - |r|..]
    ensures r != [] ==> !IsWs(r[0])
  {
    if s != [] && IsWs(s[0]) then SkipWs(s[1..]) else s
  }

  // ---------------------------------------------------------------- stringify

  function HexChar(d: nat): char
    requires d < 16
  {
    "0123456789abcdef"[d]
  }

  /** How `JSON.stringify` writes one character inside a string literal. */
  function QuoteChar(c: char): string {
    if c == '"' then "\\\""
    else if c == '\\' then "\\\\"
    else if c == '\U{8}' then "\\b"
    else if c == '\t' then "\\t"
    else if c == '\n' then "\\n"
    else if c == '\U{C}' then "\\f"
    else if c == '\r' then "\\r"
    else if (c as int) < 0x20 then "\\u00" + [HexChar(c as int / 16), HexChar(c as int % 16)]
    else [c]
  }

  function QuoteBody(s: string): string {
    if s == [] then "" else QuoteChar(s[0]) + QuoteBody(s[1..])
  }

  /** `JSON.stringify(v)`; `None` is the `undefined` it returns for `undefined`. */
  function Stringify(v: Value): Option<string> {
    match v
    case Undefined => None
    case Null => Some("null")
    case Bool(b) => Some(if b then "true" else "false")
    case Num(n) => Some(IntToString(n))
    case Str(s) => Some("\"" + QuoteBody(s) + "\"")
    case Object(json) => Some(json)
  }

  // -------------------------------------------------------------------- parse

  function HexValue(c: char): (r: Option<nat>)
    ensures r.Some? ==> r.value < 16
  {
    if '0' <= c <= '9' then Some(c as int - '0' as int)
    else if 'a' <= c <= 'f' then Some(c as int - 'a' as int + 10)
    else if 'A' <= c <= 'F' then Some(c as int - 'A' as int + 10)
    else None
  }

  /** The code unit written by four hexadecimal digits. */
  function Hex4(h: string): (r: Option<nat>)
    requires |h| == 4
    ensures r.Some? ==> r.value < 0x10000
  {
    match (HexValue(h[0]), HexValue(h[1]), HexValue(h[2]), HexValue(h[3]))
    case (Some(a), Some(b), Some(c), Some(d)) => Some(((a * 16 + b) * 16 + c) * 16 + d)
    case _ => None
  }

  /** The character a one-letter escape `\x` stands for. */
  function SimpleEscape(c: char): Option<char> {
    if c == '"' then Some('"')
    else if c == '\\' then Some('\\')
    else if c == '/' then Some('/')
    else if c == 'b' then Some('\U{8}')
    else if c == 'f' then Some('\U{C}')
    else if c == 'n' then Some('\n')
    else if c == 'r' then Some('\r')
    else if c == 't' then Some('\t')
    else None
  }

  function Prepend(c: char, r: Option<(string, string)>): Option<(string, string)> {
    match r
    case None => None
    case Some((v, rest)) => Some(([c] + v, rest))
  }

  /**
   * The contents of a string literal whose opening quote has been read:
   * the decoded text and what follows the closing quote.
   */
  function ParseStringBody(s: string): (r: Option<(string, string)>)
    ensures r.Some? ==> |r.value.1| < |s|
    decreases |s|
  {
    if s == [] then None
    else if s[0] == '"' then Some(("", s[1..]))
    else if s[0] == '\\' then
      if |s| < 2 then None
      else if s[1] == 'u' then
        if |s| < 6 then None
        else match Hex4(s[2..6])
          case None => None
          case Some(code) =>
            if code < 0xD800 || 0xE000 <= code then Prepend(code as char, ParseStringBody(s[6..]))
            else None
      else match SimpleEscape(s[1])
        case None => None
        case Some(c) => Prepend(c, ParseStringBody(s[2..]))
    else if (s[0] as int) < 0x20 then None
    else Prepend(s[0], ParseStringBody(s[1..]))
  }

  /** The longest prefix of decimal digits. */
  function TakeDigits(s: string): (r: string)
    ensures |r| <= |s| && r == s[..|r|]
    ensures forall i :: 0 <= i < |r| ==> IsDigit(r[i])
    ensures |r| < |s| ==> !IsDigit(s[|r|])
  {
    if s != [] && IsDigit(s[0]) then [s[0]] + TakeDigits(s[1..]) else []
  }

  function DigitValue(c: char): nat
    requires IsDigit(c)
  {
    c as int - '0' as int
  }

  /** The number a string of decimal digits writes. */
  function DigitsValue(ds: string): nat
    requires forall i :: 0 <= i < |ds| ==> IsDigit(ds[i])
  {
    if ds == [] then 0 else DigitsValue(ds[..|ds| - 1]) * 10 + DigitValue(ds[|ds| - 1])
  }

  /** An integer literal: optional minus, then `0` or digits without a leading zero. */
  function ParseInteger(s: string): (r: Option<(Value, string)>)
    ensures r.Some? ==> r.value.0.Num? && |r.value.1| < |s|
  {
    var negative := s != [] && s[0] == '-';
    var body := if negative then s[1..] else s;
    var ds := TakeDigits(body);
    var rest := body[|ds|..];
    if ds == [] || (|ds| > 1 && ds[0] == '0') then None
    else if rest != [] && (rest[0] == '.' || rest[0] == 'e' || rest[0] == 'E') then None
    else Some((Num(if negative then -(DigitsValue(ds) as int) else DigitsValue(ds)), rest))
  }

  // ------------------------------------------------------- grammar checking

  /** `s` minus its leading digits, when there is at least one. */
  function SkipDigits(s: string): (r: Option<string>)
    ensures r.Some? ==> |r.value| < |s|
  {
    var ds := TakeDigits(s);
    if ds == [] then None else Some(s[|ds|..])
  }

  /** An optional fraction `.digits`. */
  function SkipFraction(s: string): (r: Option<string>)
    ensures r.Some? ==> |r.value| <= |s|
  {
    if s != [] && s[0] == '.' then SkipDigits(s[1..]) else Some(s)
  }

  /** An optional exponent `e`, `E`, an optional sign, then digits. */
  function SkipExponent(s: string): (r: Option<string>)
    ensures r.Some? ==> |r.value| <= |s|
  {
    if s != [] && (s[0] == 'e' || s[0] == 'E') then
      var t := s[1..];
      SkipDigits(if t != [] && (t[0] == '+' || t[0] == '-') then t[1..] else t)
    else Some(s)
  }

  /** Any JSON number, fraction and exponent included. */
  function SkipNumber(s: string): (r: Option<string>)
    ensures r.Some? ==> |r.value| < |s|
  {
    var body := if s != [] && s[0] == '-' then s[1..] else s;
    var ds := TakeDigits(body);
    if ds == [] || (|ds| > 1 && ds[0] == '0') then None
    else match SkipFraction(body[|ds|..])
      case None => None
      case Some(t) => SkipExponent(t)
  }

  /**
   * What follows the JSON value at the start of `s`, or `None` when no
   * value starts there: the grammar `JSON.parse` accepts, objects and
   * arrays nested to any depth.
   */
  function SkipValue(s: string): (r: Option<string>)
    ensures r.Some? ==> |r.value| < |s|
    decreases |s|, 0
  {
    if s == [] then None
    else if s[0] == 'n' then (if "null" <= s then Some(s[4..]) else None)
    else if s[0] == 't' then (if "true" <= s then Some(s[4..]) else None)
    else if s[0] == 'f' then (if "false" <= s then Some(s[5..]) else None)
    else if s[0] == '"' then
      match ParseStringBody(s[1..])
      case None => None
      case Some((_, rest)) => Some(rest)
    else if s[0] == '-' || IsDigit(s[0]) then SkipNumber(s)
    else if s[0] == '{' then SkipMembers(SkipWs(s[1..]), true)
    else if s[0] == '[' then SkipElements(SkipWs(s[1..]), true)
    else None
  }

  /** The members of an object after its `{` or after a `,`, through the closing `}`. */
  function SkipMembers(s: string, first: bool): (r: Option<string>)
    ensures r.Some? ==> |r.value| < |s|
    decreases |s|, 1
  {
    if first && s != [] && s[0] == '}' then Some(s[1..])
    else if s == [] || s[0] != '"' then None
    else match ParseStringBody(s[1..])
      case None => None
      case Some((_, afterName)) =>
        var t := SkipWs(afterName);
        if t == [] || t[0] != ':' then None
        else match SkipValue(SkipWs(t[1..]))
          case None => None
          case Some(afterValue) =>
            var u := SkipWs(afterValue);
            if u == [] then None
            else if u[0] == '}' then Some(u[1..])
            else if u[0] == ',' then SkipMembers(SkipWs(u[1..]), false)
            else None
  }

  /** The elements of an array after its `[` or after a `,`, through the closing `]`. */
  function SkipElements(s: string, first: bool): (r: Option<string>)
    ensures r.Some? ==> |r.value| < |s|
    decreases |s|, 1
  {
    if first && s != [] && s[0] == ']' then Some(s[1..])
    else match SkipValue(s)
      case None => None
      case Some(afterValue) =>
        var u := SkipWs(afterValue);
        if u == [] then None
        else if u[0] == ']' then Some(u[1..])
        else if u[0] == ',' then SkipElements(SkipWs(u[1..]), false)
        else None
  }

  // -------------------------------------------------------------- values

  /** One value at the start of `s` (white space already skipped), and the text after it. */
  function ParseValue(s: string): (r: Option<(Value, string)>)
    ensures r.Some? ==> !r.value.0.Undefined? && |r.value.1| < |s|
  {
    if s == [] then None
    else if s[0] == 'n' then (if "null" <= s then Some((Null, s[4..])) else None)
    else if s[0] == 't' then (if "true" <= s then Some((Bool(true), s[4..])) else None)
    else if s[0] == 'f' then (if "false" <= s then Some((Bool(false), s[5..])) else None)
    else if s[0] == '"' then
      match ParseStringBody(s[1..])
      case None => None
      case Some((text, rest)) => Some((Str(text), rest))
    else if s[0] == '-' || IsDigit(s[0]) then ParseInteger(s)
    else if s[0] == '{' || s[0] == '[' then
      match SkipValue(s)
      case None => None
      case Some(rest) => Some((Object(s[..|s| - |rest|]), rest))
    else None
  }

  /** `JSON.parse(text)`; `None` is the `SyntaxError` it throws. */
  function Parse(text: string): (r: Option<Value>)
    ensures r != Some(Undefined)
  {
    match ParseValue(SkipWs(text))
    case None => None
    case Some((v, rest)) => if SkipWs(rest) == [] then Some(v) else None
  }

  /**
   * `v[key]` for a parsed value: the value of the last member named `key`
   * when `v` is an object, `undefined` when there is none or `v` is not an
   * object.
   */
  function Member(v: Value, key: string): Value {
    match v
    case Object(json) =>
      if json != [] && json[0] == '{' then LookupMembers(SkipWs(json[1..]), key, Undefined) else Undefined
    case _ => Undefined
  }

  /** The members from `s` on; `found` is the value of the last `key` member before them. */
  function LookupMembers(s: string, key: string, found: Value): Value
    decreases |s|
  {
    if s == [] || s[0] != '"' then found
    else match ParseStringBody(s[1..])
      case None => found
      case Some((name, afterName)) =>
        var t := SkipWs(afterName);
        if t == [] || t[0] != ':' then found
        else match ParseValue(SkipWs(t[1..]))
          case None => found
          case Some((value, afterValue)) =>
            var seen := if name == key then value else found;
            var u := SkipWs(afterValue);
            if u != [] && u[0] == ',' then LookupMembers(SkipWs(u[1..]), key, seen) else seen
  }

  /** A text that does not start with a value's first character takes the parse to its error. */
  lemma ParseValueRejects(s: string)
    requires s != [] && !(s[0] in "nft\"-{[" || IsDigit(s[0]))
    ensures ParseValue(s) == None
  {
    assert !("null" <= s) && !("true" <= s) && !("false" <= s) by {
      assert "null"[0] == 'n' && "true"[0] == 't' && "false"[0] == 'f';
    }
  }

  /** A text whose first character is neither white space nor a value's first character is not JSON. */
  lemma ParseRejects(text: string)
    requires text != [] && !IsWs(text[0]) && !(text[0] in "nft\"-{[" || IsDigit(text[0]))
    ensures Parse(text) == None
  {
    assert SkipWs(text) == text;
    ParseValueRejects(text);
  }

  /** The text "{}" is an object, and it has no members. */
  lemma ParseEmptyObject(t: string, key: string)
    requires |t| == 2 && t[0] == '{' && t[1] == '}'
    ensures Parse(t) == Some(Object(t))
    ensures Member(Object(t), key) == Undefined
  {
    var members := t[1..];
    SkipWsNone(members);
    CloseObject(members, key, Undefined);
    assert members[1..] == [];
    ObjectOfMembers(t, key);
  }

  /** A `}` where a member may start closes the object, and no member is found. */
  lemma CloseObject(members: string, key: string, found: Value)
    requires members != [] && members[0] == '}'
    ensures SkipMembers(members, true) == Some(members[1..])
    ensures LookupMembers(members, key, found) == found
  {
  }

  /**
   * An object whose `{` is followed by anything but white space, a member
   * name or the closing `}` is a syntax error, as with "{abc".
   */
  lemma ParseRejectsBadObject(text: string)
    requires |text| >= 2 && text[0] == '{' && !IsWs(text[1]) && text[1] != '"' && text[1] != '}'
    ensures Parse(text) == None
  {
    assert SkipWs(text) == text && SkipWs(text[1..]) == text[1..];
    assert !("null" <= text) && !("true" <= text) && !("false" <= text);
    assert SkipMembers(text[1..], true) == None;
    assert SkipValue(text) == None;
  }

  /** A string that needs no escaping is its own `QuoteBody`. */
  lemma {:induction false} QuoteBodyPlain(s: string)
    requires forall i :: 0 <= i < |s| ==> s[i] != '"' && s[i] != '\\' && (s[i] as int) >= 0x20
    ensures QuoteBody(s) == s
  {
    if s != [] {
      QuoteBodyPlain(s[1..]);
      assert [s[0]] + s[1..] == s;
    }
  }

  /** A well-formed object that fills the whole text is what `Parse` returns, as its text. */
  lemma ParseWholeObject(json: string)
    requires json != [] && json[0] == '{' && SkipValue(json) == Some("")
    ensures Parse(json) == Some(Object(json))
  {
    ObjectValue(json);
    var r := ParseValue(json).value;
    assert r.1 == [] && json[..|json| - |r.1|] == json;
    SkipWsNone(json);
    ParseOf(json, r.0, r.1);
  }

  /** A text without leading white space is its own `SkipWs`. */
  lemma SkipWsNone(s: string)
    requires s != [] && !IsWs(s[0])
    ensures SkipWs(s) == s
  {
  }

  /** `Parse` returns the value read from the text when only white space follows it. */
  lemma ParseOf(text: string, v: Value, rest: string)
    requires ParseValue(SkipWs(text)) == Some((v, rest)) && SkipWs(rest) == []
    ensures Parse(text) == Some(v)
  {
  }

  /** An object at the start of `s` is the text `SkipValue` passes over. */
  lemma ObjectValue(s: string)
    requires s != [] && s[0] == '{' && SkipValue(s).Some?
    ensures ParseValue(s).Some?
    ensures ParseValue(s).value.1 == SkipValue(s).value
    ensures ParseValue(s).value.0 == Object(s[..|s| - |SkipValue(s).value|])
  {
  }

  /** A quoted string followed by `rest` reads as that string, leaving `rest`. */
  lemma QuotedString(text: string, rest: string)
    ensures var q := "\"" + QuoteBody(text) + "\"" + rest;
      ParseValue(q) == Some((Str(text), rest)) && SkipValue(q) == Some(rest)
  {
    var q := "\"" + QuoteBody(text) + "\"" + rest;
    assert q[0] == '"' && q[1..] == QuoteBody(text) + "\"" + rest;
    ParseQuoteBody(text, rest);
    ParseValueString(q);
    SkipValueString(q);
  }

  lemma SkipValueString(s: string)
    requires s != [] && s[0] == '"'
    ensures SkipValue(s) == match ParseStringBody(s[1..])
      case None => None
      case Some((_, rest)) => Some(rest)
  {
  }

  /** An object's last member: its value is what `Member` finds for its name, and the `}` closes the object. */
  lemma LastMember(s: string, name: string, afterName: string, v: Value, afterValue: string, key: string, found: Value)
    requires s != [] && s[0] == '"' && ParseStringBody(s[1..]) == Some((name, afterName))
    requires |afterName| >= 2 && afterName[0] == ':' && !IsWs(afterName[1])
    requires ParseValue(afterName[1..]) == Some((v, afterValue)) && SkipValue(afterName[1..]) == Some(afterValue)
    requires afterValue != [] && afterValue[0] == '}'
    ensures SkipMembers(s, true) == Some(afterValue[1..])
    ensures LookupMembers(s, key, found) == if name == key then v else found
  {
    assert SkipWs(afterName) == afterName;
    assert SkipWs(afterName[1..]) == afterName[1..];
    assert SkipWs(afterValue) == afterValue;
  }

  /**
   * The record `{"key":"text"}` that `JSON.stringify` writes for an object
   * with one string member parses as an object, and `Member` reads the
   * string back.
   */
  lemma OneMemberRecord(key: string, text: string)
    ensures var json := "{" + ("\"" + QuoteBody(key) + "\"" + (":" + ("\"" + QuoteBody(text) + "\"" + "}")));
      Parse(json) == Some(Object(json)) && Member(Object(json), key) == Str(text)
  {
    var members := "\"" + QuoteBody(key) + "\"" + (":" + ("\"" + QuoteBody(text) + "\"" + "}"));
    var json := "{" + members;
    assert json[0] == '{' && json[1..] == members;
    OneMember(key, text, members);
    ObjectOfMembers(json, key);
  }

  /** An object is its members after the `{`: it parses when they close it, and `Member` looks among them. */
  lemma ObjectOfMembers(json: string, key: string)
    requires |json| >= 2 && json[0] == '{' && SkipWs(json[1..]) == json[1..] && SkipMembers(json[1..], true) == Some([])
    ensures Parse(json) == Some(Object(json))
    ensures Member(Object(json), key) == LookupMembers(json[1..], key, Undefined)
  {
    OpenObject(json, key);
    ParseWholeObject(json);
  }

  /** The members text `"key":"text"}` closes the object and holds `text` under `key`. */
  lemma OneMember(key: string, text: string, members: string)
    requires members == "\"" + QuoteBody(key) + "\"" + (":" + ("\"" + QuoteBody(text) + "\"" + "}"))
    ensures SkipWs(members) == members
    ensures SkipMembers(members, true) == Some("")
    ensures LookupMembers(members, key, Undefined) == Str(text)
  {
    var valueText := "\"" + QuoteBody(text) + "\"" + "}";
    var afterName := ":" + valueText;
    MemberName(key, afterName, members);
    assert afterName[1..] == valueText && afterName[1] == '"';
    QuotedString(text, "}");
    LastMember(members, key, afterName, Str(text), "}", key, Undefined);
  }

  /** An object's text is its members after the `{`. */
  lemma OpenObject(json: string, key: string)
    requires json != [] && json[0] == '{'
    ensures SkipValue(json) == SkipMembers(SkipWs(json[1..]), true)
    ensures Member(Object(json), key) == LookupMembers(SkipWs(json[1..]), key, Undefined)
  {
  }

  /** A member name written by `JSON.stringify` reads back, leaving what follows it. */
  lemma MemberName(key: string, afterName: string, members: string)
    requires members == "\"" + QuoteBody(key) + "\"" + afterName
    ensures members != [] && members[0] == '"' && ParseStringBody(members[1..]) == Some((key, afterName))
  {
    ParseQuoteBody(key, afterName);
    assert members[1..] == QuoteBody(key) + "\"" + afterName;
  }

  // ------------------------------------------------------------- round trips

  lemma {:induction false} DigitsOfNat(n: nat)
    ensures DigitsValue(NatToString(n)) == n
  {
    if n >= 10 {
      var s := NatToString(n);
      assert s[..|s| - 1] == NatToString(n / 10);
      DigitsOfNat(n / 10);
    }
  }

  lemma {:induction false} TakeAllDigits(s: string)
    requires forall i :: 0 <= i < |s| ==> IsDigit(s[i])
    ensures TakeDigits(s) == s
  {
    if s != [] {
      TakeAllDigits(s[1..]);
    }
  }

  lemma ParseValueInteger(s: string)
    requires s != [] && (s[0] == '-' || IsDigit(s[0]))
    ensures ParseValue(s) == ParseInteger(s)
  {
    assert !("null" <= s) && !("true" <= s) && !("false" <= s) by {
      assert "null"[0] == 'n' && "true"[0] == 't' && "false"[0] == 'f';
    }
  }

  /** A value that fills the whole text, with no blank in front, is what `Parse` returns. */
  lemma ParseWhole(s: string, v: Value)
    requires s != [] && !IsWs(s[0]) && ParseValue(s) == Some((v, ""))
    ensures Parse(s) == Some(v)
  {
  }

  lemma ParseIntegerOfString(n: int)
    ensures ParseInteger(IntToString(n)) == Some((Num(n), ""))
  {
    if n < 0 {
      ParseNegative(-n);
    } else {
      ParseNonNegative(n);
    }
  }

  lemma ParseNonNegative(m: nat)
    ensures ParseInteger(NatToString(m)) == Some((Num(m), ""))
  {
    var ds := NatToString(m);
    TakeAllDigits(ds);
    DigitsOfNat(m);
    assert ds[0] != '-';
    assert ds[|ds|..] == [];
  }

  lemma ParseNegative(m: nat)
    ensures ParseInteger("-" + NatToString(m)) == Some((Num(-(m as int)), ""))
  {
    var ds := NatToString(m);
    var s := "-" + ds;
    TakeAllDigits(ds);
    DigitsOfNat(m);
    assert s[0] == '-' && s[1..] == ds;
    assert ds[|ds|..] == [];
  }

  lemma StringifyParseInt(n: int)
    ensures Parse(IntToString(n)) == Some(Num(n))
  {
    var s := IntToString(n);
    ParseIntegerOfString(n);
    assert s[0] == '-' || IsDigit(s[0]);
    ParseValueInteger(s);
    ParseWhole(s, Num(n));
  }

  lemma HexValueOfHexChar(d: nat)
    requires d < 16
    ensures HexValue(HexChar(d)) == Some(d)
  {
  }

  lemma HexOfControl(c: char)
    requires (c as int) < 0x20
    ensures Hex4("00" + [HexChar(c as int / 16), HexChar(c as int % 16)]) == Some(c as int)
  {
    var h := "00" + [HexChar(c as int / 16), HexChar(c as int % 16)];
    HexValueOfHexChar(0);
    HexValueOfHexChar(c as int / 16);
    HexValueOfHexChar(c as int % 16);
    assert h[0] == HexChar(0) && h[1] == HexChar(0);
  }

  /** A one-letter escape reads back as the character it stands for. */
  lemma ParseEscape(e: char, c: char, rest: string)
    requires SimpleEscape(e) == Some(c) && e != 'u'
    ensures ParseStringBody(['\\', e] + rest) == Prepend(c, ParseStringBody(rest))
  {
    assert (['\\', e] + rest)[2..] == rest;
  }

  /** A `\u` escape outside the surrogate range reads back as the code unit it writes. */
  lemma ParseUnicodeEscape(h: string, code: nat, rest: string)
    requires |h| == 4 && Hex4(h) == Some(code) && (code < 0xD800 || 0xE000 <= code)
    ensures ParseStringBody("\\u" + h + rest) == Prepend(code as char, ParseStringBody(rest))
  {
    var q := "\\u" + h + rest;
    assert q[2..6] == h && q[6..] == rest;
  }

  /** A character that needs no escape reads back as itself. */
  lemma ParsePlain(c: char, rest: string)
    requires c != '"' && c != '\\' && (c as int) >= 0x20
    ensures ParseStringBody([c] + rest) == Prepend(c, ParseStringBody(rest))
  {
    assert ([c] + rest)[1..] == rest;
  }

  /** Reading back what `QuoteChar` wrote for `c` yields `c`. */
  lemma ParseQuoteChar(c: char, rest: string)
    ensures ParseStringBody(QuoteChar(c) + rest) == Prepend(c, ParseStringBody(rest))
  {
    var q := QuoteChar(c);
    if c == '"' || c == '\\' || c == '\U{8}' || c == '\t' || c == '\n' || c == '\U{C}' || c == '\r' {
      assert q == ['\\', q[1]] && SimpleEscape(q[1]) == Some(c) && q[1] != 'u';
      ParseEscape(q[1], c, rest);
    } else if (c as int) < 0x20 {
      var h := "00" + [HexChar(c as int / 16), HexChar(c as int % 16)];
      HexOfControl(c);
      assert q == "\\u" + h;
      ParseUnicodeEscape(h, c as int, rest);
    } else {
      ParsePlain(c, rest);
    }
  }

  lemma {:induction false} ParseQuoteBody(s: string, rest: string)
    ensures ParseStringBody(QuoteBody(s) + "\"" + rest) == Some((s, rest))
  {
    if s == [] {
      assert QuoteBody(s) + "\"" + rest == "\"" + rest;
    } else {
      var tail := QuoteBody(s[1..]) + "\"" + rest;
      assert QuoteBody(s) + "\"" + rest == QuoteChar(s[0]) + tail;
      ParseQuoteChar(s[0], tail);
      ParseQuoteBody(s[1..], rest);
      assert [s[0]] + s[1..] == s;
    }
  }

  lemma ParseValueString(s: string)
    requires s != [] && s[0] == '"'
    ensures ParseValue(s) == match ParseStringBody(s[1..])
      case None => None
      case Some((text, rest)) => Some((Str(text), rest))
  {
    assert !("null" <= s) && !("true" <= s) && !("false" <= s) by {
      assert "null"[0] == 'n' && "true"[0] == 't' && "false"[0] == 'f';
    }
  }

  lemma StringifyParseString(s: string)
    ensures Parse("\"" + QuoteBody(s) + "\"") == Some(Str(s))
  {
    var body := QuoteBody(s) + "\"";
    var text := "\"" + body;
    assert text == "\"" + QuoteBody(s) + "\"";
    assert text[1..] == body;
    ParseQuoteBody(s, "");
    assert body + "" == body;
    assert ParseStringBody(body) == Some((s, ""));
    ParseValueString(text);
    assert ParseValue(text) == Some((Str(s), ""));
    ParseWhole(text, Str(s));
  }

  /** `JSON.parse(JSON.stringify(v))` gives back `v` for every value but an object. */
  lemma StringifyParse(v: Value)
    requires !v.Undefined? && !v.Object?
    ensures Stringify(v).Some? && Parse(Stringify(v).value) == Some(v)
  {
    match v
    case Null =>
      assert "null" <= "null" && "null"[4..] == "";
      ParseWhole("null", Null);
    case Bool(true) =>
      assert "true"[0] != "null"[0];
      assert "true" <= "true" && "true"[4..] == "";
      ParseWhole("true", v);
    case Bool(false) =>
      assert "false"[0] != "null"[0] && "false"[0] != "true"[0];
      assert "false" <= "false" && "false"[5..] == "";
      ParseWhole("false", v);
    case Num(n) => StringifyParseInt(n);
    case Str(s) => StringifyParseString(s);
  }

  /** `JSON.stringify` never writes the empty string. */
  lemma StringifyNonEmpty(v: Value)
    requires Stringify(v).Some? && !v.Object?
    ensures Stringify(v).value != ""
  {
  }
}
