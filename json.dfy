/**
 * The JSON values the chat route serialises, and `JSON.stringify` on them.
 *
 * Every frame of the chat stream is `JSON.stringify` of a small object
 * followed by one newline.  The model covers what those objects can hold:
 * null, booleans, integers, strings, arrays and objects whose members keep
 * their insertion order.  Strings are escaped as section 7 of RFC 8259 allows
 * and as ECMAScript's QuoteJSONString does it for Unicode scalar values:
 * `"` and `\` get a backslash, backspace, tab, line feed, form feed and
 * carriage return get their two-character escapes, every other character
 * below U+0020 becomes `\u00xx` with lower-case hex digits, and everything
 * else is copied.  A Dafny `char` is a scalar value, so the lone surrogate
 * code units a JavaScript string may hold, and their `\udxxx` escape, are
 * outside the model.
 */
module Json {
  import opened Wrappers

  datatype JsonValue =
    | JNull
    | JBool(b: bool)
    | JNumber(n: int)
    | JString(s: string)
    | JArray(items: seq<JsonValue>)
    | JObject(members: seq<Member>)

  /** One `"key":value` pair of an object, in the order it was inserted. */
  datatype Member = Member(key: string, value: JsonValue)

  /** Property access on a parsed object: the value of the first member named `k`, `None` for `undefined`. */
  function MemberValue(ms: seq<Member>, k: string): Option<JsonValue>
  {
    if ms == [] then None else if ms[0].key == k then Some(ms[0].value) else MemberValue(ms[1..], k)
  }

  /** No character of `s` is a control character (below U+0020); in particular no raw newline. */
  predicate NoControl(s: string)
  {
    forall i | 0 <= i < |s| :: s[i] as int >= 0x20
  }

  lemma NoControlConcat(a: string, b: string)
    requires NoControl(a) && NoControl(b)
    ensures NoControl(a + b)
  {
    forall i | 0 <= i < |a + b|
      ensures (a + b)[i] as int >= 0x20
    {
      if i < |a| { assert (a + b)[i] == a[i]; } else { assert (a + b)[i] == b[i - |a|]; }
    }
  }

  /** The lower-case hexadecimal digit for `d`. */
  function HexDigit(d: int): (c: char)
    requires 0 <= d < 16
    ensures c in "0123456789abcdef"
  {
    "0123456789abcdef"[d]
  }

  /** The decimal digit for `d`. */
  function DecimalDigit(d: int): (c: char)
    requires 0 <= d < 10
    ensures '0' <= c <= '9' && c as int - '0' as int == d
  {
    (d + '0' as int) as char
  }

  /** How QuoteJSONString writes one character inside the quotes. */
  function EscapeChar(c: char): string
  {
    if c == '"' then "\\\""
    else if c == '\\' then "\\\\"
    else if c as int == 0x08 then "\\b"
    else if c == '\t' then "\\t"
    else if c == '\n' then "\\n"
    else if c as int == 0x0C then "\\f"
    else if c == '\r' then "\\r"
    else if c as int < 0x20 then "\\u00" + [HexDigit(c as int / 16), HexDigit(c as int % 16)]
    else [c]
  }

  /** The characters of `s` escaped, without the surrounding quotes. */
  function Escape(s: string): string
  {
    if s == [] then [] else EscapeChar(s[0]) + Escape(s[1..])
  }

  /** A string literal: `"`, the escaped characters, `"`. */
  function Quote(s: string): string
  {
    "\"" + Escape(s) + "\""
  }

  /** The decimal digits of `n`, without leading zeros. */
  function NatText(n: nat): (t: string)
    ensures |t| > 0
    ensures forall i | 0 <= i < |t| :: '0' <= t[i] <= '9'
  {
    if n < 10 then [DecimalDigit(n)] else NatText(n / 10) + [DecimalDigit(n % 10)]
  }

  /** How `JSON.stringify` writes an integer: an optional minus sign and the digits. */
  function NumberText(n: int): string
  {
    if n < 0 then "-" + NatText(-n) else NatText(n)
  }

  /** `JSON.stringify(v)` with no indentation. */
  function Stringify(v: JsonValue): string
    decreases v
  {
    match v
    case JNull => "null"
    case JBool(b) => if b then "true" else "false"
    case JNumber(n) => NumberText(n)
    case JString(s) => Quote(s)
    case JArray(items) => "[" + StringifyItems(items) + "]"
    case JObject(ms) => "{" + StringifyMembers(ms) + "}"
  }

  /** The elements of an array, separated by commas. */
  function StringifyItems(items: seq<JsonValue>): string
    decreases items
  {
    if items == [] then ""
    else if |items| == 1 then Stringify(items[0])
    else Stringify(items[0]) + "," + StringifyItems(items[1..])
  }

  /** The members of an object, separated by commas. */
  function StringifyMembers(ms: seq<Member>): string
    decreases ms
  {
    if ms == [] then ""
    else if |ms| == 1 then StringifyMember(ms[0])
    else StringifyMember(ms[0]) + "," + StringifyMembers(ms[1..])
  }

  function StringifyMember(m: Member): string
    decreases m
  {
    Quote(m.key) + ":" + Stringify(m.value)
  }

  // ---------------------------------------------------------------------
  // No control character survives escaping, so no raw newline appears in
  // the text of any value.

  lemma EscapeCharNoControl(c: char)
    ensures NoControl(EscapeChar(c))
    ensures |EscapeChar(c)| >= 1
    ensures EscapeChar(c)[0] == '\\' || EscapeChar(c) == [c]
  {
  }

  lemma {:induction false} EscapeNoControl(s: string)
    ensures NoControl(Escape(s))
  {
    if s != [] {
      EscapeCharNoControl(s[0]);
      EscapeNoControl(s[1..]);
      NoControlConcat(EscapeChar(s[0]), Escape(s[1..]));
    }
  }

  lemma QuoteNoControl(s: string)
    ensures NoControl(Quote(s))
  {
    EscapeNoControl(s);
    NoControlConcat("\"", Escape(s));
    NoControlConcat("\"" + Escape(s), "\"");
  }

  lemma NumberTextNoControl(n: int)
    ensures NoControl(NumberText(n))
  {
    if n < 0 { NoControlConcat("-", NatText(-n)); }
  }

  /** The text of every value is free of control characters: none of them is a raw newline. */
  lemma {:induction false} StringifyNoControl(v: JsonValue)
    ensures NoControl(Stringify(v))
    ensures '\n' !in Stringify(v)
    decreases v
  {
    match v
    case JNull =>
    case JBool(b) =>
    case JNumber(n) => NumberTextNoControl(n);
    case JString(s) => QuoteNoControl(s);
    case JArray(items) =>
      StringifyItemsNoControl(items);
      NoControlConcat("[", StringifyItems(items));
      NoControlConcat("[" + StringifyItems(items), "]");
    case JObject(ms) =>
      StringifyMembersNoControl(ms);
      NoControlConcat("{", StringifyMembers(ms));
      NoControlConcat("{" + StringifyMembers(ms), "}");
  }

  lemma {:induction false} StringifyItemsNoControl(items: seq<JsonValue>)
    ensures NoControl(StringifyItems(items))
    decreases items
  {
    if |items| == 1 {
      StringifyNoControl(items[0]);
    } else if |items| > 1 {
      StringifyNoControl(items[0]);
      StringifyItemsNoControl(items[1..]);
      NoControlConcat(Stringify(items[0]), ",");
      NoControlConcat(Stringify(items[0]) + ",", StringifyItems(items[1..]));
    }
  }

  lemma {:induction false} StringifyMembersNoControl(ms: seq<Member>)
    ensures NoControl(StringifyMembers(ms))
    decreases ms
  {
    if |ms| == 1 {
      StringifyMemberNoControl(ms[0]);
    } else if |ms| > 1 {
      StringifyMemberNoControl(ms[0]);
      StringifyMembersNoControl(ms[1..]);
      NoControlConcat(StringifyMember(ms[0]), ",");
      NoControlConcat(StringifyMember(ms[0]) + ",", StringifyMembers(ms[1..]));
    }
  }

  lemma {:induction false} StringifyMemberNoControl(m: Member)
    ensures NoControl(StringifyMember(m))
    decreases m
  {
    QuoteNoControl(m.key);
    StringifyNoControl(m.value);
    NoControlConcat(Quote(m.key), ":");
    NoControlConcat(Quote(m.key) + ":", Stringify(m.value));
  }
}
