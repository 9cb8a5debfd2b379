/** The part of `JSON.stringify` / `JSON.parse` that the record store needs:
    string literals and non-negative integers. */
module Json {

  datatype Option<T> = None | Some(value: T)

  /** The lower-case hexadecimal digit `JSON.stringify` writes in `\u00xx`. */
  function HexDigit(n: nat): char
    requires n < 16
  {
    "0123456789abcdef"[n]
  }

  /** The value of a hexadecimal digit of either case, as `JSON.parse` reads it. */
  function HexValue(c: char): (v: Option<nat>)
    ensures v.Some? ==> v.value < 16
  {
    if '0' <= c <= '9' then Some(c as int - '0' as int)
    else if 'a' <= c <= 'f' then Some(c as int - 'a' as int + 10)
    else if 'A' <= c <= 'F' then Some(c as int - 'A' as int + 10)
    else None
  }

  /** The escape `JSON.stringify` writes for one character of a string: the
      quote and the backslash are backslashed, the five control characters
      with a short form get it, the other control characters below U+0020
      become `\u00xx`, and everything else is written as it is. */
  function EscapeChar(c: char): (e: string)
    ensures Plain(c) <==> e == [c]
    ensures !Plain(c) ==> |e| >= 2
  {
    if c == '"' then "\\\""
    else if c == '\\' then "\\\\"
    else if c == '\U{8}' then "\\b"
    else if c == '\U{C}' then "\\f"
    else if c == '\n' then "\\n"
    else if c == '\r' then "\\r"
    else if c == '\t' then "\\t"
    else if c < ' ' then "\\u00" + [HexDigit(c as int / 16), HexDigit(c as int % 16)]
    else [c]
  }

  /** `JSON.stringify`'s escaping of a whole string: it leaves the string
      as it is exactly when no character of it needs an escape, and it never
      shortens it. */
  function Escape(s: string): (e: string)
    ensures |e| >= |s|
    ensures |e| == |s| ==> e == s
    ensures (forall i :: 0 <= i < |s| ==> Plain(s[i])) <==> e == s
  {
    if s == [] then ""
    else
      assert forall i :: 1 <= i < |s| ==> s[i] == s[1..][i - 1];
      var head, tail := EscapeChar(s[0]), Escape(s[1..]);
      assert |head + tail| == |s| ==> head == [s[0]] && tail == s[1..];
      assert head + tail == s ==> Plain(s[0]) && tail == s[1..];
      head + tail
  }

  /** `JSON.stringify(s)` for a string `s`. */
  function Quote(s: string): (r: string)
    ensures |r| >= 2 && r[0] == '"' && r[|r| - 1] == '"'
  {
    "\"" + Escape(s) + "\""
  }

  /** A character `JSON.stringify` writes unescaped. */
  predicate Plain(c: char) {
    c != '"' && c != '\\' && c >= ' '
  }

  function Prepend(c: char, rest: Option<string>): Option<string> {
    match rest
    case None => None
    case Some(u) => Some([c] + u)
  }

  /** Four hexadecimal digits as a character; a lone surrogate half is not a
      character of this model and is refused. */
  function Hex4(t: string): Option<char>
    requires |t| == 4
  {
    match (HexValue(t[0]), HexValue(t[1]), HexValue(t[2]), HexValue(t[3]))
    case (Some(a), Some(b), Some(c), Some(d)) =>
      var v := 4096 * a + 256 * b + 16 * c + d;
      if 0xD800 <= v <= 0xDFFF then None else Some(v as char)
    case _ => None
  }

  /** `JSON.parse` of the body of a string literal (the text between the
      quotes): None where the text is not a valid body. */
  function Unescape(t: string): (r: Option<string>)
    ensures r.Some? ==> |r.value| <= |t|
    decreases |t|
  {
    if t == [] then Some("")
    else if t[0] == '"' || t[0] < ' ' then None
    else if t[0] != '\\' then Prepend(t[0], Unescape(t[1..]))
    else if |t| < 2 then None
    else if t[1] == '"' then Prepend('"', Unescape(t[2..]))
    else if t[1] == '\\' then Prepend('\\', Unescape(t[2..]))
    else if t[1] == '/' then Prepend('/', Unescape(t[2..]))
    else if t[1] == 'b' then Prepend('\U{8}', Unescape(t[2..]))
    else if t[1] == 'f' then Prepend('\U{C}', Unescape(t[2..]))
    else if t[1] == 'n' then Prepend('\n', Unescape(t[2..]))
    else if t[1] == 'r' then Prepend('\r', Unescape(t[2..]))
    else if t[1] == 't' then Prepend('\t', Unescape(t[2..]))
    else if t[1] == 'u' && |t| >= 6 then
      match Hex4(t[2..6])
      case None => None
      case Some(c) => Prepend(c, Unescape(t[6..]))
    else None
  }

  /** `JSON.parse` of a string literal. */
  function Unquote(t: string): Option<string> {
    if |t| >= 2 && t[0] == '"' && t[|t| - 1] == '"' then Unescape(t[1..|t| - 1]) else None
  }

  /** Reading back a `\u00xx` escape of a control character without a
      short form, followed by any text. */
  lemma UnescapeControl(c: char, t: string)
    requires c < ' ' && c != '\U{8}' && c != '\U{C}' && c != '\n' && c != '\r' && c != '\t'
    ensures Unescape(EscapeChar(c) + t) == Prepend(c, Unescape(t))
  {
    var e := EscapeChar(c) + t;
    var hi, lo := c as int / 16, c as int % 16;
    assert e[0] == '\\' && e[1] == 'u';
    assert e[2..6] == ['0', '0', HexDigit(hi), HexDigit(lo)];
    assert HexValue(HexDigit(hi)) == Some(hi);
    assert HexValue(HexDigit(lo)) == Some(lo);
    assert Hex4(e[2..6]) == Some(c);
    assert e[6..] == t;
  }

  /** Reading back one escaped character, followed by any text. */
  lemma UnescapeEscapeChar(c: char, t: string)
    ensures Unescape(EscapeChar(c) + t) == Prepend(c, Unescape(t))
  {
    var e := EscapeChar(c) + t;
    if c < ' ' && c != '\U{8}' && c != '\U{C}' && c != '\n' && c != '\r' && c != '\t' {
      UnescapeControl(c, t);
    } else if Plain(c) {
      assert e[0] == c && e[1..] == t;
    } else {
      assert |EscapeChar(c)| == 2;
      assert e[0] == '\\' && e[2..] == t;
    }
  }

  lemma {:induction false} UnescapeEscape(s: string)
    ensures Unescape(Escape(s)) == Some(s)
  {
    if s != [] {
      UnescapeEscape(s[1..]);
      UnescapeEscapeChar(s[0], Escape(s[1..]));
      assert [s[0]] + s[1..] == s;
    }
  }

  /** `JSON.parse(JSON.stringify(s)) == s` for every string `s`. */
  lemma QuoteRoundTrip(s: string)
    ensures Unquote(Quote(s)) == Some(s)
  {
    var q := Quote(s);
    assert q[1..|q| - 1] == Escape(s);
    UnescapeEscape(s);
  }

  /** The decimal digit `d`. */
  function DigitChar(d: nat): char
    requires d < 10
  {
    "0123456789"[d]
  }

  predicate IsDigit(c: char) {
    '0' <= c <= '9'
  }

  /** `JSON.stringify(n)` (and `n.toString()`) for a timestamp-sized
      non-negative integer: its decimal digits, without leading zeros. From
      10^21 on JavaScript writes exponent form instead; no `Date.now()`
      reading comes near that. */
  function Decimal(n: nat): (d: string)
    ensures |d| > 0 && forall i :: 0 <= i < |d| ==> IsDigit(d[i])
    decreases n
  {
    if n < 10 then [DigitChar(n)] else Decimal(n / 10) + [DigitChar(n % 10)]
  }

  /** Reads a non-empty run of decimal digits. */
  function ParseDecimal(s: string): Option<nat>
    decreases |s|
  {
    if s == [] || !IsDigit(s[|s| - 1]) then None
    else
      var d := s[|s| - 1] as int - '0' as int;
      if |s| == 1 then Some(d)
      else
        match ParseDecimal(s[..|s| - 1])
        case None => None
        case Some(v) => Some(10 * v + d)
  }

  /** Decimal output reads back as the number, and starts with a zero only
      when it is the number zero. */
  lemma {:induction false} DecimalRoundTrip(n: nat)
    ensures ParseDecimal(Decimal(n)) == Some(n)
    ensures |Decimal(n)| > 0 && (Decimal(n)[0] == '0' <==> n == 0)
    decreases n
  {
    if n >= 10 {
      DecimalRoundTrip(n / 10);
      var s := Decimal(n);
      assert s[..|s| - 1] == Decimal(n / 10);
    }
  }
}
