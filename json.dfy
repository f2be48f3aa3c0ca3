/** The part of JSON.stringify the outgoing log uses: string literals and
    non-negative integers, as ECMA-262 specifies them (QuoteJSONString and
    Number::toString), and a strict reader for them that serves as their
    inverse. */
module Json {
  import opened JsText

  /** A lower-case hexadecimal digit, as QuoteJSONString writes them. */
  function HexDigit(d: nat): char
    requires d < 16
  {
    "0123456789abcdef"[d]
  }

  /** The escaped form of one character inside a JSON string literal. */
  function EscapeChar(c: char): string {
    if c == '"' then "\\\""
    else if c == '\\' then "\\\\"
    else if c == '\U{0008}' then "\\b"
    else if c == '\U{000C}' then "\\f"
    else if c == '\n' then "\\n"
    else if c == '\r' then "\\r"
    else if c == '\t' then "\\t"
    else if (c as int) < 0x20 then "\\u00" + [HexDigit(c as int / 16), HexDigit(c as int % 16)]
    else [c]
  }

  /** The body of a JSON string literal, without the quotes. */
  function Escape(s: string): string
    decreases |s|
  {
    if s == [] then "" else EscapeChar(s[0]) + Escape(s[1..])
  }

  /** `JSON.stringify(s)` for a string `s`. */
  function Quote(s: string): string {
    "\"" + Escape(s) + "\""
  }

  /** The decimal form of a non-negative integer, as JSON.stringify writes
      `Date.now()`. */
  function Decimal(n: nat): (r: string)
    ensures |r| > 0 && forall k :: 0 <= k < |r| ==> IsDigit(r[k])
    decreases n
  {
    if n < 10 then [HexDigit(n)] else Decimal(n / 10) + [HexDigit(n % 10)]
  }

  predicate IsDigit(ch: char) {
    '0' <= ch <= '9'
  }

  function HexValue(ch: char): Option<nat> {
    if '0' <= ch <= '9' then Some(ch as int - '0' as int)
    else if 'a' <= ch <= 'f' then Some(ch as int - 'a' as int + 10)
    else if 'A' <= ch <= 'F' then Some(ch as int - 'A' as int + 10)
    else None
  }

  /** The value of a string of decimal digits. */
  function DigitsValue(s: string): nat
    requires forall k :: 0 <= k < |s| ==> IsDigit(s[k])
    decreases |s|
  {
    if s == [] then 0
    else
      assert IsDigit(s[|s| - 1]);
      DigitsValue(s[..|s| - 1]) * 10 + (s[|s| - 1] as int - '0' as int)
  }

  /** Reading the decimal form back gives the number. */
  lemma {:induction false} DecimalValue(n: nat)
    ensures DigitsValue(Decimal(n)) == n
    decreases n
  {
    if n >= 10 {
      DecimalValue(n / 10);
      var s := Decimal(n);
      assert s[..|s| - 1] == Decimal(n / 10);
    }
  }

  /** The number of leading decimal digits of `s`. */
  function DigitRun(s: string): (n: nat)
    ensures n <= |s|
    ensures forall k :: 0 <= k < n ==> IsDigit(s[k])
    ensures n == |s| || !IsDigit(s[n])
    decreases |s|
  {
    if s != [] && IsDigit(s[0]) then 1 + DigitRun(s[1..]) else 0
  }

  /** The decimal form of a number is the whole digit run when a non-digit follows. */
  lemma DigitRunOfDecimal(n: nat, rest: string)
    requires rest != [] && !IsDigit(rest[0])
    ensures DigitRun(Decimal(n) + rest) == |Decimal(n)|
  {
    var d := Decimal(n);
    var s := d + rest;
    assert forall k :: 0 <= k < |d| ==> s[k] == d[k];
    assert s[|d|] == rest[0];
  }

  /** The character an escape sequence stands for, and how many characters
      after the backslash it occupies. */
  function Unescape(s: string): (r: Option<(char, nat)>)
    ensures r.Some? ==> 1 <= r.value.1 <= |s|
  {
    if s == [] then None
    else if s[0] == '"' then Some(('"', 1))
    else if s[0] == '\\' then Some(('\\', 1))
    else if s[0] == '/' then Some(('/', 1))
    else if s[0] == 'b' then Some(('\U{0008}', 1))
    else if s[0] == 'f' then Some(('\U{000C}', 1))
    else if s[0] == 'n' then Some(('\n', 1))
    else if s[0] == 'r' then Some(('\r', 1))
    else if s[0] == 't' then Some(('\t', 1))
    else if s[0] == 'u' && |s| >= 5 then
      var a :- HexValue(s[1]);
      var b :- HexValue(s[2]);
      var c :- HexValue(s[3]);
      var d :- HexValue(s[4]);
      var v := a * 4096 + b * 256 + c * 16 + d;
      if v < 0xD800 then Some((v as char, 5))
      else if 0xE000 <= v < 0x11_0000 then Some((v as char, 5))
      else None
    else None
  }

  /** Reads the rest of a JSON string literal whose opening quote has been
      consumed: its value and what follows the closing quote. Raw control
      characters are refused, as JSON requires. */
  function ReadString(s: string): Option<(string, string)>
    decreases |s|
  {
    if s == [] then None
    else if s[0] == '"' then Some(("", s[1..]))
    else if s[0] == '\\' then
      var e :- Unescape(s[1..]);
      var tail :- ReadString(s[1 + e.1..]);
      Some(([e.0] + tail.0, tail.1))
    else if (s[0] as int) < 0x20 then None
    else
      var tail :- ReadString(s[1..]);
      Some(([s[0]] + tail.0, tail.1))
  }

  /** A control character without a short escape is written as `\u00` and two hex digits. */
  predicate IsHexEscaped(c: char) {
    (c as int) < 0x20 && c != '\U{0008}' && c != '\U{000C}' && c != '\n' && c != '\r' && c != '\t'
  }

  lemma HexEscapeForm(c: char)
    requires IsHexEscaped(c)
    ensures EscapeChar(c) == ['\\', 'u', '0', '0', HexDigit(c as int / 16), HexDigit(c as int % 16)]
  {
  }

  lemma ReadHexEscaped(c: char, t: string)
    requires IsHexEscaped(c)
    ensures ReadString(EscapeChar(c) + t) ==
      (match ReadString(t)
       case None => None
       case Some(p) => Some(([c] + p.0, p.1)))
  {
    var hi, lo := c as int / 16, c as int % 16;
    var s := EscapeChar(c) + t;
    var u := ['u', '0', '0', HexDigit(hi), HexDigit(lo)] + t;
    assert s == ['\\'] + u by { HexEscapeForm(c); }
    assert s[1..] == u;
    assert u[0] == 'u' && u[1] == '0' && u[2] == '0' && u[3] == HexDigit(hi) && u[4] == HexDigit(lo);
    assert HexValue(HexDigit(hi)) == Some(hi);
    assert HexValue(HexDigit(lo)) == Some(lo);
    assert Unescape(u) == Some((c, 5));
    assert s[6..] == t;
  }

  /** Reading past one escaped character yields that character. */
  lemma ReadEscapedChar(c: char, t: string)
    ensures ReadString(EscapeChar(c) + t) ==
      (match ReadString(t)
       case None => None
       case Some(p) => Some(([c] + p.0, p.1)))
  {
    var s := EscapeChar(c) + t;
    if IsHexEscaped(c) {
      ReadHexEscaped(c, t);
    } else if |EscapeChar(c)| == 2 {
      assert s[2..] == t;
    } else {
      assert s[1..] == t;
    }
  }

  /** Reading a quoted string back gives the string and leaves what follows. */
  lemma {:induction false} ReadQuoted(x: string, rest: string)
    ensures ReadString(Escape(x) + "\"" + rest) == Some((x, rest))
    decreases |x|
  {
    if x == [] {
      assert Escape(x) + "\"" + rest == "\"" + rest;
      assert ("\"" + rest)[1..] == rest;
    } else {
      assert Escape(x) + "\"" + rest == EscapeChar(x[0]) + (Escape(x[1..]) + "\"" + rest);
      ReadQuoted(x[1..], rest);
      ReadEscapedChar(x[0], Escape(x[1..]) + "\"" + rest);
      assert [x[0]] + x[1..] == x;
    }
  }

  /** No single character is escaped to a raw line feed. */
  lemma EscapeCharHasNoNewline(c: char)
    ensures '\n' !in EscapeChar(c)
  {
    if IsHexEscaped(c) {
      HexEscapeForm(c);
    }
  }

  /** No escaped string contains a raw line feed, so a JSON value never spans lines. */
  lemma {:induction false} EscapeHasNoNewline(x: string)
    ensures '\n' !in Escape(x)
    decreases |x|
  {
    if x != [] {
      EscapeHasNoNewline(x[1..]);
      EscapeCharHasNoNewline(x[0]);
    }
  }
}
