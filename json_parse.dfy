/**
 * A reader for the text `Json.Stringify` produces, and the round trip
 * `Parse(Stringify(v)) == Some(v)`: a client that reads one frame line back
 * gets exactly the value that was serialised.
 *
 * The reader follows the JSON grammar of RFC 8259 without insignificant
 * whitespace (the serialiser writes none), reads integers only, and is
 * lenient about leading zeros.  A `\u` escape naming a surrogate code unit
 * is refused: Dafny characters are Unicode scalar values.
 */
module JsonParse {
  import opened Wrappers
  import opened Json

  predicate IsDigit(c: char)
  {
    '0' <= c <= '9'
  }

  predicate IsHex(c: char)
  {
    IsDigit(c) || 'a' <= c <= 'f' || 'A' <= c <= 'F'
  }

  function HexValue(c: char): (d: int)
    requires IsHex(c)
    ensures 0 <= d < 16
  {
    if IsDigit(c) then c as int - '0' as int
    else if 'a' <= c <= 'f' then c as int - 'a' as int + 10
    else c as int - 'A' as int + 10
  }

  /** Reads one character of a string literal's body: a plain character or an escape sequence. */
  function ReadChar(s: string): (r: Option<(char, nat)>)
    requires s != []
    ensures r.Some? ==> 1 <= r.value.1 <= |s|
  {
    if s[0] != '\\' then Some((s[0], 1))
    else if |s| < 2 then None
    else if s[1] == '"' then Some(('"', 2))
    else if s[1] == '\\' then Some(('\\', 2))
    else if s[1] == '/' then Some(('/', 2))
    else if s[1] == 'b' then Some((8 as char, 2))
    else if s[1] == 'f' then Some((12 as char, 2))
    else if s[1] == 'n' then Some(('\n', 2))
    else if s[1] == 'r' then Some(('\r', 2))
    else if s[1] == 't' then Some(('\t', 2))
    else if s[1] == 'u' && |s| >= 6 && IsHex(s[2]) && IsHex(s[3]) && IsHex(s[4]) && IsHex(s[5]) then
      var code := ((HexValue(s[2]) * 16 + HexValue(s[3])) * 16 + HexValue(s[4])) * 16 + HexValue(s[5]);
      if 0xD800 <= code < 0xE000 then None else Some((code as char, 6))
    else None
  }

  /**
   * Reads the body of a string literal up to and including its closing quote;
   * yields the characters and what follows the quote.
   */
  function ParseChars(s: string): (r: Option<(string, string)>)
    ensures r.Some? ==> |r.value.1| < |s|
    decreases |s|
  {
    if s == [] then None
    else if s[0] == '"' then Some(([], s[1..]))
    else if s[0] as int < 0x20 then None
    else
      match ReadChar(s)
      case None => None
      case Some((c, n)) =>
        match ParseChars(s[n..])
        case None => None
        case Some((t, rest)) => Some(([c] + t, rest))
  }

  /** The length of the longest prefix of `s` made of decimal digits. */
  function DigitSpan(s: string): (k: nat)
    ensures k <= |s|
    ensures forall i | 0 <= i < k :: IsDigit(s[i])
    ensures k < |s| ==> !IsDigit(s[k])
  {
    if s == [] || !IsDigit(s[0]) then 0 else 1 + DigitSpan(s[1..])
  }

  function DigitValue(c: char): (d: nat)
    requires IsDigit(c)
    ensures d < 10
  {
    c as int - '0' as int
  }

  /** The number a string of decimal digits denotes. */
  function DigitsValue(d: string): nat
    requires forall i | 0 <= i < |d| :: IsDigit(d[i])
  {
    if d == [] then 0 else DigitsValue(d[..|d| - 1]) * 10 + DigitValue(d[|d| - 1])
  }

  /** Reads an integer: an optional minus sign and at least one digit. */
  function ParseNumber(s: string): (r: Option<(int, string)>)
    ensures r.Some? ==> |r.value.1| < |s|
  {
    if s != [] && s[0] == '-' then
      var k := DigitSpan(s[1..]);
      if k == 0 then None else Some((0 - DigitsValue(s[1..][..k]), s[1..][k..]))
    else
      var k := DigitSpan(s);
      if k == 0 then None else Some((DigitsValue(s[..k]), s[k..]))
  }

  /** Reads one value from the front of `s`; yields the value and the text after it. */
  function ParseValue(s: string): (r: Option<(JsonValue, string)>)
    ensures r.Some? ==> |r.value.1| < |s|
    decreases |s|, 0
  {
    if s == [] then None
    else if s[0] == 'n' then
      if |s| >= 4 && s[..4] == "null" then Some((JNull, s[4..])) else None
    else if s[0] == 't' then
      if |s| >= 4 && s[..4] == "true" then Some((JBool(true), s[4..])) else None
    else if s[0] == 'f' then
      if |s| >= 5 && s[..5] == "false" then Some((JBool(false), s[5..])) else None
    else if s[0] == '"' then
      match ParseChars(s[1..])
      case None => None
      case Some((t, rest)) => Some((JString(t), rest))
    else if s[0] == '-' || IsDigit(s[0]) then
      match ParseNumber(s)
      case None => None
      case Some((n, rest)) => Some((JNumber(n), rest))
    else if s[0] == '[' then
      if |s| >= 2 && s[1] == ']' then Some((JArray([]), s[2..]))
      else
        match ParseItems(s[1..])
        case None => None
        case Some((items, rest)) => Some((JArray(items), rest))
    else if s[0] == '{' then
      if |s| >= 2 && s[1] == '}' then Some((JObject([]), s[2..]))
      else
        match ParseMembers(s[1..])
        case None => None
        case Some((ms, rest)) => Some((JObject(ms), rest))
    else None
  }

  /** Reads `v1,v2,...,vn]`: one or more values and the closing bracket. */
  function ParseItems(s: string): (r: Option<(seq<JsonValue>, string)>)
    ensures r.Some? ==> |r.value.1| < |s|
    decreases |s|, 1
  {
    match ParseValue(s)
    case None => None
    case Some((v, rest)) => ItemsAfter(v, rest)
  }

  /** After an element: `]` ends the array, `,` brings more elements. */
  function ItemsAfter(v: JsonValue, rest: string): (r: Option<(seq<JsonValue>, string)>)
    ensures r.Some? ==> |r.value.1| < |rest|
    decreases |rest|, 2
  {
    if rest == [] then None
    else if rest[0] == ']' then Some(([v], rest[1..]))
    else if rest[0] == ',' then
      match ParseItems(rest[1..])
      case None => None
      case Some((vs, rest')) => Some(([v] + vs, rest'))
    else None
  }

  /** Reads `"k1":v1,...,"kn":vn}`: one or more members and the closing brace. */
  function ParseMembers(s: string): (r: Option<(seq<Member>, string)>)
    ensures r.Some? ==> |r.value.1| < |s|
    decreases |s|, 1
  {
    if s == [] || s[0] != '"' then None
    else
      match ParseChars(s[1..])
      case None => None
      case Some((key, afterKey)) =>
        if afterKey == [] || afterKey[0] != ':' then None
        else
          match ParseValue(afterKey[1..])
          case None => None
          case Some((v, rest)) => MembersAfter(Member(key, v), rest)
  }

  /** After a member: `}` ends the object, `,` brings more members. */
  function MembersAfter(m: Member, rest: string): (r: Option<(seq<Member>, string)>)
    ensures r.Some? ==> |r.value.1| < |rest|
    decreases |rest|, 2
  {
    if rest == [] then None
    else if rest[0] == '}' then Some(([m], rest[1..]))
    else if rest[0] == ',' then
      match ParseMembers(rest[1..])
      case None => None
      case Some((ms, rest')) => Some(([m] + ms, rest'))
    else None
  }

  /** Reads a whole text as exactly one value. */
  function Parse(s: string): Option<JsonValue>
  {
    match ParseValue(s)
    case Some((v, rest)) => if rest == [] then Some(v) else None
    case None => None
  }

  // ---------------------------------------------------------------------
  // Strings

  lemma HexDigitValue(d: int)
    requires 0 <= d < 16
    ensures IsHex(HexDigit(d)) && HexValue(HexDigit(d)) == d
  {
  }

  /** A character that needs no escape is read back as itself. */
  lemma ReadPlainChar(c: char, t: string)
    requires c != '"' && c != '\\' && c as int >= 0x20
    ensures EscapeChar(c) == [c]
    ensures ReadChar([c] + t) == Some((c, 1))
  {
  }

  /** A two-character escape `\x` is read back as the character it stands for. */
  lemma ReadShortEscape(c: char, x: char, t: string)
    requires (c, x) in {('"', '"'), ('\\', '\\'), (8 as char, 'b'), ('\t', 't'), ('\n', 'n'), (12 as char, 'f'), ('\r', 'r')}
    ensures ReadChar(['\\', x] + t) == Some((c, 2))
  {
    var s := ['\\', x] + t;
    assert s[0] == '\\' && s[1] == x;
  }

  /** A six-character escape `\u00hl` is read back as the control character it names. */
  lemma ReadUnicodeEscape(c: char, t: string)
    requires c as int < 0x20
    ensures ReadChar("\\u00" + [HexDigit(c as int / 16), HexDigit(c as int % 16)] + t) == Some((c, 6))
  {
    var hi, lo := c as int / 16, c as int % 16;
    var s := "\\u00" + [HexDigit(hi), HexDigit(lo)] + t;
    HexDigitValue(hi);
    HexDigitValue(lo);
    assert s[0] == '\\' && s[1] == 'u' && s[2] == '0' && s[3] == '0' && s[4] == HexDigit(hi) && s[5] == HexDigit(lo);
    assert ((0 * 16 + 0) * 16 + hi) * 16 + lo == c as int;
  }

  /** Reading back one escaped character consumes exactly its escape and yields the character. */
  lemma ReadEscapeChar(c: char, t: string)
    ensures EscapeChar(c) + t != []
    ensures ReadChar(EscapeChar(c) + t) == Some((c, |EscapeChar(c)|))
  {
    if c == '"' { ReadShortEscape(c, '"', t); }
    else if c == '\\' { ReadShortEscape(c, '\\', t); }
    else if c as int == 0x08 { ReadShortEscape(c, 'b', t); }
    else if c == '\t' { ReadShortEscape(c, 't', t); }
    else if c == '\n' { ReadShortEscape(c, 'n', t); }
    else if c as int == 0x0C { ReadShortEscape(c, 'f', t); }
    else if c == '\r' { ReadShortEscape(c, 'r', t); }
    else if c as int < 0x20 { ReadUnicodeEscape(c, t); }
    else { ReadPlainChar(c, t); }
  }

  /** One step of reading a string body: an escaped character followed by more text. */
  lemma ParseCharsStep(c: char, t: string)
    ensures ParseChars(EscapeChar(c) + t) ==
      match ParseChars(t)
      case None => None
      case Some((u, rest)) => Some(([c] + u, rest))
  {
    var e := EscapeChar(c);
    var s := e + t;
    EscapeCharNoControl(c);
    ReadEscapeChar(c, t);
    assert s[0] == e[0];
    assert s[|e|..] == t;
  }

  /** The body of a string literal reads back as the string it escapes. */
  lemma {:induction false} ParseEscape(x: string, rest: string)
    ensures ParseChars(Escape(x) + "\"" + rest) == Some((x, rest))
    decreases |x|
  {
    if x == [] {
      var s := Escape(x) + "\"" + rest;
      assert s == "\"" + rest;
      assert s[1..] == rest;
    } else {
      var t := Escape(x[1..]) + "\"" + rest;
      assert Escape(x) + "\"" + rest == EscapeChar(x[0]) + t;
      ParseCharsStep(x[0], t);
      ParseEscape(x[1..], rest);
      assert [x[0]] + x[1..] == x;
    }
  }

  // ---------------------------------------------------------------------
  // Numbers

  lemma {:induction false} NatTextValue(n: nat)
    ensures DigitsValue(NatText(n)) == n
  {
    if n >= 10 {
      var t := NatText(n);
      assert t[..|t| - 1] == NatText(n / 10);
      NatTextValue(n / 10);
    }
  }

  /** The digit span of a run of digits followed by a delimiter is the whole run. */
  lemma {:induction false} DigitSpanOfDigits(t: string, rest: string)
    requires forall i | 0 <= i < |t| :: IsDigit(t[i])
    requires rest == [] || !IsDigit(rest[0])
    ensures DigitSpan(t + rest) == |t|
    decreases |t|
  {
    if t == [] {
      assert t + rest == rest;
    } else {
      assert (t + rest)[0] == t[0];
      assert (t + rest)[1..] == t[1..] + rest;
      DigitSpanOfDigits(t[1..], rest);
    }
  }

  predicate AllDigits(t: string)
  {
    forall i | 0 <= i < |t| :: IsDigit(t[i])
  }

  /** A non-empty run of digits followed by a delimiter reads back as the number it denotes. */
  lemma ParseDigits(t: string, rest: string)
    requires t != [] && AllDigits(t)
    requires rest == [] || !IsDigit(rest[0])
    ensures ParseNumber(t + rest) == Some((DigitsValue(t), rest))
    ensures ParseNumber("-" + (t + rest)) == Some((0 - DigitsValue(t), rest))
  {
    var s := t + rest;
    DigitSpanOfDigits(t, rest);
    assert s[0] == t[0];
    assert s[..|t|] == t;
    assert s[|t|..] == rest;
    var u := "-" + s;
    assert u[0] == '-';
    assert u[1..] == s;
  }

  lemma ParseNatText(m: nat, rest: string)
    requires rest == [] || !IsDigit(rest[0])
    ensures ParseNumber(NatText(m) + rest) == Some((m, rest))
    ensures ParseNumber("-" + (NatText(m) + rest)) == Some((0 - m, rest))
  {
    NatTextValue(m);
    ParseDigits(NatText(m), rest);
  }

  lemma NegativeText(n: int, rest: string)
    requires n < 0
    ensures NumberText(n) + rest == "-" + (NatText(-n) + rest)
  {
    assert NumberText(n) == "-" + NatText(-n);
  }

  lemma ParseNumberText(n: int, rest: string)
    requires rest == [] || !IsDigit(rest[0])
    ensures ParseNumber(NumberText(n) + rest) == Some((n, rest))
  {
    if n < 0 {
      NegativeText(n, rest);
      ParseNatText(-n, rest);
    } else {
      ParseNatText(n, rest);
    }
  }

  // ---------------------------------------------------------------------
  // Values

  /** Text is delimited from a preceding value: nothing, or a character that cannot continue a number. */
  predicate Delimited(rest: string)
  {
    rest == [] || !IsDigit(rest[0])
  }

  lemma StringifyStart(v: JsonValue)
    ensures Stringify(v) != []
    ensures Stringify(v)[0] != ']' && Stringify(v)[0] != '}'
  {
    match v
    case JNumber(n) =>
      if n >= 0 { assert IsDigit(NatText(n)[0]); }
    case _ =>
  }

  lemma ParseLiteralText(v: JsonValue, rest: string)
    requires v.JNull? || v.JBool?
    ensures ParseValue(Stringify(v) + rest) == Some((v, rest))
  {
    var s := Stringify(v) + rest;
    if v.JNull? {
      assert s[0] == 'n' && s[..4] == "null" && s[4..] == rest;
    } else if v.b {
      assert s[0] == 't' && s[..4] == "true" && s[4..] == rest;
    } else {
      assert s[0] == 'f' && s[..5] == "false" && s[5..] == rest;
    }
  }

  lemma ParseNumberValue(n: int, rest: string)
    requires Delimited(rest)
    ensures ParseValue(Stringify(JNumber(n)) + rest) == Some((JNumber(n), rest))
  {
    var s := NumberText(n) + rest;
    ParseNumberText(n, rest);
    if n >= 0 { assert IsDigit(NatText(n)[0]); }
    assert s[0] == '-' || IsDigit(s[0]);
  }

  lemma ParseStringValue(x: string, rest: string)
    ensures ParseValue(Stringify(JString(x)) + rest) == Some((JString(x), rest))
  {
    var s := Stringify(JString(x)) + rest;
    assert s == "\"" + (Escape(x) + "\"" + rest);
    assert s[0] == '"';
    assert s[1..] == Escape(x) + "\"" + rest;
    ParseEscape(x, rest);
  }

  /** How the text of an array or object splits around its body. */
  lemma ContainerText(items: seq<JsonValue>, ms: seq<Member>, rest: string)
    ensures Stringify(JArray(items)) + rest == "[" + (StringifyItems(items) + "]" + rest)
    ensures Stringify(JObject(ms)) + rest == "{" + (StringifyMembers(ms) + "}" + rest)
  {
  }

  lemma ParseValueOpen(open: char, body: string)
    requires open == '[' || open == '{'
    requires body != [] && body[0] != ']' && body[0] != '}'
    ensures open == '[' ==> (ParseValue([open] + body) ==
      match ParseItems(body)
      case None => None
      case Some((items, rest)) => Some((JArray(items), rest)))
    ensures open == '{' ==> (ParseValue([open] + body) ==
      match ParseMembers(body)
      case None => None
      case Some((ms, rest)) => Some((JObject(ms), rest)))
  {
    var s := [open] + body;
    assert s[0] == open && s[1] == body[0] && s[1..] == body;
  }

  lemma ParseValueEmpty(open: char, close: char, rest: string)
    requires (open, close) == ('[', ']') || (open, close) == ('{', '}')
    ensures open == '[' ==> ParseValue([open, close] + rest) == Some((JArray([]), rest))
    ensures open == '{' ==> ParseValue([open, close] + rest) == Some((JObject([]), rest))
  {
    var s := [open, close] + rest;
    assert s[0] == open && s[1] == close && s[2..] == rest;
  }

  lemma ParseArrayValue(items: seq<JsonValue>, rest: string)
    requires items == [] || ParseItems(StringifyItems(items) + "]" + rest) == Some((items, rest))
    ensures ParseValue(Stringify(JArray(items)) + rest) == Some((JArray(items), rest))
  {
    ContainerText(items, [], rest);
    if items == [] {
      assert "[" + (StringifyItems(items) + "]" + rest) == ['[', ']'] + rest;
      ParseValueEmpty('[', ']', rest);
    } else {
      ItemsStart(items);
      var body := StringifyItems(items) + "]" + rest;
      assert body[0] == StringifyItems(items)[0];
      ParseValueOpen('[', body);
    }
  }

  lemma ParseObjectValue(ms: seq<Member>, rest: string)
    requires ms == [] || ParseMembers(StringifyMembers(ms) + "}" + rest) == Some((ms, rest))
    ensures ParseValue(Stringify(JObject(ms)) + rest) == Some((JObject(ms), rest))
  {
    ContainerText([], ms, rest);
    if ms == [] {
      assert "{" + (StringifyMembers(ms) + "}" + rest) == ['{', '}'] + rest;
      ParseValueEmpty('{', '}', rest);
    } else {
      MembersStart(ms);
      var body := StringifyMembers(ms) + "}" + rest;
      assert body[0] == StringifyMembers(ms)[0];
      ParseValueOpen('{', body);
    }
  }

  /** Reading back the text of a value yields the value and leaves what follows. */
  lemma {:induction false} ParseStringify(v: JsonValue, rest: string)
    requires Delimited(rest)
    ensures ParseValue(Stringify(v) + rest) == Some((v, rest))
    decreases v, 1
  {
    match v
    case JNull => ParseLiteralText(v, rest);
    case JBool(_) => ParseLiteralText(v, rest);
    case JNumber(n) => ParseNumberValue(n, rest);
    case JString(x) => ParseStringValue(x, rest);
    case JArray(items) =>
      if items != [] { ParseStringifyItems(items, rest); }
      ParseArrayValue(items, rest);
    case JObject(ms) =>
      if ms != [] { ParseStringifyMembers(ms, rest); }
      ParseObjectValue(ms, rest);
  }

  lemma ItemsStart(items: seq<JsonValue>)
    requires items != []
    ensures StringifyItems(items) != [] && StringifyItems(items)[0] != ']' && StringifyItems(items)[0] != '}'
  {
    StringifyStart(items[0]);
  }

  lemma MembersStart(ms: seq<Member>)
    requires ms != []
    ensures StringifyMembers(ms) != [] && StringifyMembers(ms)[0] == '"'
  {
  }

  lemma ConcatAssoc(a: string, b: string, c: string)
    ensures (a + b) + c == a + (b + c)
  {
  }

  /** How the text of one or more elements, the closing bracket and what follows split after the first element. */
  lemma ItemsText(items: seq<JsonValue>, close: string, rest: string)
    requires items != []
    ensures |items| == 1 ==> StringifyItems(items) + close + rest == Stringify(items[0]) + (close + rest)
    ensures |items| > 1 ==> (StringifyItems(items) + close + rest ==
      Stringify(items[0]) + ("," + (StringifyItems(items[1..]) + close + rest)))
  {
    var first := Stringify(items[0]);
    if |items| == 1 {
      assert StringifyItems(items) == first;
      ConcatAssoc(first, close, rest);
    } else {
      var others := StringifyItems(items[1..]);
      assert StringifyItems(items) == first + "," + others;
      ConcatAssoc(first + "," + others, close, rest);
      ConcatAssoc(first + ",", others, close + rest);
      ConcatAssoc(first, ",", others + (close + rest));
      ConcatAssoc(others, close, rest);
    }
  }

  lemma MembersText(ms: seq<Member>, close: string, rest: string)
    requires ms != []
    ensures |ms| == 1 ==> StringifyMembers(ms) + close + rest == StringifyMember(ms[0]) + (close + rest)
    ensures |ms| > 1 ==> (StringifyMembers(ms) + close + rest ==
      StringifyMember(ms[0]) + ("," + (StringifyMembers(ms[1..]) + close + rest)))
  {
    var first := StringifyMember(ms[0]);
    if |ms| == 1 {
      assert StringifyMembers(ms) == first;
      ConcatAssoc(first, close, rest);
    } else {
      var others := StringifyMembers(ms[1..]);
      assert StringifyMembers(ms) == first + "," + others;
      ConcatAssoc(first + "," + others, close, rest);
      ConcatAssoc(first + ",", others, close + rest);
      ConcatAssoc(first, ",", others + (close + rest));
      ConcatAssoc(others, close, rest);
    }
  }

  /** One step of reading array elements: a value, then `]` or `,` and more elements. */
  lemma ParseItemsStep(v: JsonValue, sep: char, more: string)
    requires ParseValue(Stringify(v) + ([sep] + more)) == Some((v, [sep] + more))
    ensures sep == ']' ==> ParseItems(Stringify(v) + ([sep] + more)) == Some(([v], more))
    ensures sep == ',' ==> (ParseItems(Stringify(v) + ([sep] + more)) ==
      match ParseItems(more)
      case None => None
      case Some((vs, rest')) => Some(([v] + vs, rest')))
  {
    assert ([sep] + more)[0] == sep && ([sep] + more)[1..] == more;
  }

  lemma {:induction false} ParseStringifyItems(items: seq<JsonValue>, rest: string)
    requires items != []
    ensures ParseItems(StringifyItems(items) + "]" + rest) == Some((items, rest))
    decreases items, 0
  {
    ItemsText(items, "]", rest);
    if |items| == 1 {
      ParseStringify(items[0], "]" + rest);
      ParseItemsStep(items[0], ']', rest);
      assert [items[0]] == items;
    } else {
      var more := StringifyItems(items[1..]) + "]" + rest;
      ParseStringify(items[0], "," + more);
      ParseItemsStep(items[0], ',', more);
      ParseStringifyItems(items[1..], rest);
      assert [items[0]] + items[1..] == items;
    }
  }

  lemma MemberText(m: Member, after: string)
    ensures StringifyMember(m) + after == "\"" + (Escape(m.key) + "\"" + (":" + (Stringify(m.value) + after)))
  {
  }

  /** Reading a member and the separator after it. */
  lemma ParseMembersUnfold(key: string, x: string, v: JsonValue, rest: string)
    requires ParseValue(x) == Some((v, rest))
    ensures ParseMembers("\"" + (Escape(key) + "\"" + (":" + x))) == MembersAfter(Member(key, v), rest)
  {
    var afterKey := ":" + x;
    var s := "\"" + (Escape(key) + "\"" + afterKey);
    assert s[0] == '"';
    assert s[1..] == Escape(key) + "\"" + afterKey;
    ParseEscape(key, afterKey);
    assert afterKey[0] == ':' && afterKey[1..] == x;
  }

  /** One step of reading object members: a key, a value, then `}` or `,` and more members. */
  lemma ParseMembersStep(m: Member, sep: char, more: string)
    requires ParseValue(Stringify(m.value) + ([sep] + more)) == Some((m.value, [sep] + more))
    ensures sep == '}' ==> ParseMembers(StringifyMember(m) + ([sep] + more)) == Some(([m], more))
    ensures sep == ',' ==> (ParseMembers(StringifyMember(m) + ([sep] + more)) ==
      match ParseMembers(more)
      case None => None
      case Some((ms, rest')) => Some(([m] + ms, rest')))
  {
    var after := [sep] + more;
    MemberText(m, after);
    ParseMembersUnfold(m.key, Stringify(m.value) + after, m.value, after);
    assert after[0] == sep && after[1..] == more;
  }

  lemma {:induction false} ParseStringifyMembers(ms: seq<Member>, rest: string)
    requires ms != []
    ensures ParseMembers(StringifyMembers(ms) + "}" + rest) == Some((ms, rest))
    decreases ms, 0
  {
    var m := ms[0];
    assert m.value < m;
    MembersText(ms, "}", rest);
    if |ms| == 1 {
      ParseStringify(m.value, "}" + rest);
      ParseMembersStep(m, '}', rest);
      assert [m] == ms;
    } else {
      var more := StringifyMembers(ms[1..]) + "}" + rest;
      ParseStringify(m.value, "," + more);
      ParseMembersStep(m, ',', more);
      ParseStringifyMembers(ms[1..], rest);
      assert [m] + ms[1..] == ms;
    }
  }

  /** A value's text reads back, whole, as exactly that value. */
  lemma ParseRoundTrip(v: JsonValue)
    ensures Parse(Stringify(v)) == Some(v)
  {
    ParseStringify(v, []);
    assert Stringify(v) + [] == Stringify(v);
  }

  /** Two values with the same text are the same value. */
  lemma StringifyInjective(v: JsonValue, w: JsonValue)
    requires Stringify(v) == Stringify(w)
    ensures v == w
  {
    ParseRoundTrip(v);
    ParseRoundTrip(w);
  }
}
