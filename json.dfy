/**
 * The JavaScript values a `catch` clause can receive when they are not Error
 * objects, and JSON.stringify over them (ECMAScript section 25.5.2). Only
 * integral numbers are modelled.
 */
module Json {
  import opened Wrappers
  import Text

  datatype Json =
    | Undefined
    | Null
    | Bool(b: bool)
    | Number(n: int)
    | Str(s: string)
    | Arr(items: seq<Json>)
    | Obj(fields: seq<Field>)

  /** One own enumerable property of an object, in own-property order. */
  datatype Field = Field(key: string, value: Json)

  function HexDigit(d: nat): (c: char)
    requires d < 16
  {
    "0123456789abcdef"[d]
  }

  function HexValue(c: char): Option<nat> {
    if '0' <= c <= '9' then Some((c as int) - ('0' as int))
    else if 'a' <= c <= 'f' then Some((c as int) - ('a' as int) + 10)
    else if 'A' <= c <= 'F' then Some((c as int) - ('A' as int) + 10)
    else None
  }

  /** The escape JSON.stringify writes for one code point of a string. */
  function EscapeChar(c: char): (r: string)
    ensures |r| >= 1
    ensures r[0] == c || r[0] == '\\'
  {
    var n := c as int;
    if n == 0x08 then "\\b"
    else if n == 0x09 then "\\t"
    else if n == 0x0A then "\\n"
    else if n == 0x0C then "\\f"
    else if n == 0x0D then "\\r"
    else if c == '"' then "\\\""
    else if c == '\\' then "\\\\"
    else if n < 0x20 then "\\u00" + [HexDigit(n / 16), HexDigit(n % 16)]
    else [c]
  }

  function Escape(s: string): string {
    if s == [] then "" else EscapeChar(s[0]) + Escape(s[1..])
  }

  /** JSON.stringify of a string: the escaped text between double quotes. */
  function Quote(s: string): (r: string)
    ensures |r| >= 2 && r[0] == '"' && r[|r| - 1] == '"'
  {
    "\"" + Escape(s) + "\""
  }

  /** Members of an object literal; properties whose value is undefined are skipped. */
  function Members(fields: seq<(string, Option<string>)>): seq<string> {
    if fields == [] then []
    else
      var rest := Members(fields[1..]);
      match fields[0].1
      case None => rest
      case Some(t) => [Quote(fields[0].0) + ":" + t] + rest
  }

  /**
   * JSON.stringify(j). The result is undefined (None) exactly for undefined;
   * undefined array elements print as null.
   */
  function Stringify(j: Json): (r: Option<string>)
    ensures r.None? <==> j.Undefined?
  {
    match j
    case Undefined => None
    case Null => Some("null")
    case Bool(b) => Some(if b then "true" else "false")
    case Number(n) => Some(Text.IntToString(n))
    case Str(s) => Some(Quote(s))
    case Arr(items) =>
      var texts := seq(|items|, i requires 0 <= i < |items| => Stringify(items[i]).GetOr("null"));
      Some("[" + Text.Join(texts, ",") + "]")
    case Obj(fields) =>
      var pairs := seq(|fields|, i requires 0 <= i < |fields| => (fields[i].key, Stringify(fields[i].value)));
      Some("{" + Text.Join(Members(pairs), ",") + "}")
  }

  // ---- Reading a JSON string literal back ----

  /** The code point a four-digit \u escape names, if it is a scalar value. */
  function FromHex4(h: string): Option<char>
    requires |h| == 4
  {
    match (HexValue(h[0]), HexValue(h[1]), HexValue(h[2]), HexValue(h[3]))
    case (Some(a), Some(b), Some(c), Some(d)) =>
      var n := ((a * 16 + b) * 16 + c) * 16 + d;
      if n < 0xD800 || 0xE000 <= n < 0x110000 then Some(n as char) else None
    case _ => None
  }

  /** Decodes the body of a JSON string literal; None when it is malformed. */
  function Unescape(t: string): Option<string>
    decreases |t|
  {
    if t == [] then Some([])
    else if t[0] == '"' || (t[0] as int) < 0x20 then None
    else if t[0] != '\\' then
      match Unescape(t[1..])
      case Some(rest) => Some([t[0]] + rest)
      case None => None
    else if |t| < 2 then None
    else
      var e := t[1];
      var simple :=
        if e == 'b' then Some(8 as char)
        else if e == 't' then Some(9 as char)
        else if e == 'n' then Some(10 as char)
        else if e == 'f' then Some(12 as char)
        else if e == 'r' then Some(13 as char)
        else if e == '"' then Some('"')
        else if e == '\\' then Some('\\')
        else if e == '/' then Some('/')
        else None;
      if simple.Some? then
        match Unescape(t[2..])
        case Some(rest) => Some([simple.value] + rest)
        case None => None
      else if e == 'u' && |t| >= 6 then
        match (FromHex4(t[2..6]), Unescape(t[6..]))
        case (Some(c), Some(rest)) => Some([c] + rest)
        case _ => None
      else None
  }

  /** Reads a JSON string literal; None unless it is one. */
  function Unquote(q: string): Option<string> {
    if |q| >= 2 && q[0] == '"' && q[|q| - 1] == '"' then Unescape(q[1..|q| - 1]) else None
  }

  lemma EscapeCharThenRest(c: char, t: string)
    ensures Unescape(EscapeChar(c) + t) ==
            match Unescape(t) case Some(rest) => Some([c] + rest) case None => None
  {
    var n := c as int;
    var u := EscapeChar(c) + t;
    if n < 0x20 && n != 8 && n != 9 && n != 10 && n != 12 && n != 13 {
      var h := [HexDigit(n / 16), HexDigit(n % 16)];
      assert u == "\\u00" + h + t;
      assert u[2..6] == "00" + h;
      assert u[6..] == t;
      assert HexValue(h[0]) == Some(n / 16);
      assert HexValue(h[1]) == Some(n % 16);
      assert FromHex4(u[2..6]) == Some(c);
    } else if |EscapeChar(c)| == 2 {
      assert u[2..] == t;
    } else {
      assert u[1..] == t;
    }
  }

  lemma {:induction false} EscapeRoundTrip(s: string)
    ensures Unescape(Escape(s)) == Some(s)
  {
    if s != [] {
      EscapeRoundTrip(s[1..]);
      EscapeCharThenRest(s[0], Escape(s[1..]));
      assert [s[0]] + s[1..] == s;
    }
  }

  /** A stringified string reads back as the same string. */
  lemma QuoteRoundTrip(s: string)
    ensures Unquote(Quote(s)) == Some(s)
  {
    var q := Quote(s);
    assert q[1..|q| - 1] == Escape(s);
    EscapeRoundTrip(s);
  }
}
