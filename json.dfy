/** The string case of `JSON.stringify`: a string literal in double quotes
    with `"`, `\` and the control characters escaped, as ECMAScript's
    `QuoteJSONString` writes it, and the reading of such a literal back. */
module Json {
  import opened Common

  function HexDigit(n: nat): char
    requires n < 16
  {
    "0123456789abcdef"[n]
  }

  function HexValue(c: char): Option<nat>
  {
    if '0' <= c <= '9' then Some(c as int - '0' as int)
    else if 'a' <= c <= 'f' then Some(c as int - 'a' as int + 10)
    else if 'A' <= c <= 'F' then Some(c as int - 'A' as int + 10)
    else None
  }

  lemma HexRoundTrip(n: nat)
    requires n < 16
    ensures HexValue(HexDigit(n)) == Some(n)
  {
    var digits := "0123456789abcdef";
    assert digits[n] == HexDigit(n);
    if n < 10 {
      assert digits[n] as int == '0' as int + n by {
        assert forall k :: 0 <= k < 10 ==> digits[k] as int == '0' as int + k;
      }
    } else {
      assert digits[n] as int == 'a' as int + n - 10 by {
        assert forall k :: 10 <= k < 16 ==> digits[k] as int == 'a' as int + k - 10;
      }
    }
  }

  /** The escape of one character. */
  function EscapeChar(c: char): (e: string)
    ensures |e| >= 1
  {
    if c == '"' then "\\\""
    else if c == '\\' then "\\\\"
    else if c as int == 8 then "\\b"
    else if c as int == 12 then "\\f"
    else if c == '\n' then "\\n"
    else if c == '\r' then "\\r"
    else if c == '\t' then "\\t"
    else if c as int < 32 then "\\u00" + [HexDigit(c as int / 16), HexDigit(c as int % 16)]
    else [c]
  }

  function Escape(s: string): string
    decreases |s|
  {
    if |s| == 0 then "" else EscapeChar(s[0]) + Escape(s[1..])
  }

  /** `JSON.stringify(s)` for a string `s`. */
  function Quote(s: string): string
  {
    "\"" + Escape(s) + "\""
  }

  function Prepend(c: char, r: Option<string>): Option<string>
  {
    if r.Some? then Some([c] + r.value) else None
  }

  /** The characters a literal's body stands for; `None` for a body that is
      not valid JSON (an unescaped quote or control character, a bad
      escape). */
  function Unescape(t: string): Option<string>
    decreases |t|
  {
    if |t| == 0 then Some("")
    else if t[0] == '\\' then
      if |t| < 2 then None
      else if t[1] == 'u' then
        if |t| < 6 then None
        else
          var d := [HexValue(t[2]), HexValue(t[3]), HexValue(t[4]), HexValue(t[5])];
          if d[0].None? || d[1].None? || d[2].None? || d[3].None? then None
          else
            var code := ((d[0].value * 16 + d[1].value) * 16 + d[2].value) * 16 + d[3].value;
            if 0xD800 <= code < 0xE000 then None
            else Prepend(code as char, Unescape(t[6..]))
      else
        var c := match t[1]
                 case '"' => Some('"')
                 case '\\' => Some('\\')
                 case '/' => Some('/')
                 case 'b' => Some(8 as char)
                 case 'f' => Some(12 as char)
                 case 'n' => Some('\n')
                 case 'r' => Some('\r')
                 case 't' => Some('\t')
                 case _ => None;
        if c.None? then None else Prepend(c.value, Unescape(t[2..]))
    else if t[0] == '"' || t[0] as int < 32 then None
    else Prepend(t[0], Unescape(t[1..]))
  }

  /** `JSON.parse` of a string literal. */
  function Unquote(t: string): Option<string>
  {
    if |t| >= 2 && t[0] == '"' && t[|t| - 1] == '"' then Unescape(t[1..|t| - 1]) else None
  }

  lemma UnescapeChar(c: char, rest: string)
    ensures Unescape(EscapeChar(c) + rest) == Prepend(c, Unescape(rest))
  {
    var t := EscapeChar(c) + rest;
    if c == '"' || c == '\\' || c as int == 8 || c as int == 12 || c == '\n' || c == '\r' || c == '\t' {
      assert t[2..] == rest;
    } else if c as int < 32 {
      var hi, lo := c as int / 16, c as int % 16;
      assert t[..6] == "\\u00" + [HexDigit(hi), HexDigit(lo)];
      assert t[6..] == rest;
      HexRoundTrip(0);
      HexRoundTrip(hi);
      HexRoundTrip(lo);
      assert t[2] == '0' && t[3] == '0' && t[4] == HexDigit(hi) && t[5] == HexDigit(lo);
      assert ((0 * 16 + 0) * 16 + hi) * 16 + lo == c as int;
    } else {
      assert t[0] == c && t[1..] == rest;
    }
  }

  lemma {:induction false} UnescapeEscape(s: string)
    ensures Unescape(Escape(s)) == Some(s)
    decreases |s|
  {
    if |s| > 0 {
      UnescapeEscape(s[1..]);
      UnescapeChar(s[0], Escape(s[1..]));
      assert [s[0]] + s[1..] == s;
    }
  }

  /** Reading a stringified string gives the string back. */
  lemma UnquoteQuote(s: string)
    ensures Unquote(Quote(s)) == Some(s)
  {
    var q := Quote(s);
    assert q[1..|q| - 1] == Escape(s);
    UnescapeEscape(s);
  }

  lemma EscapeCharHasNoLineBreak(c: char)
    ensures '\n' !in EscapeChar(c)
  {
    if c as int < 32 && !(c as int == 8 || c as int == 12 || c == '\n' || c == '\r' || c == '\t') {
      HexRoundTrip(c as int / 16);
      HexRoundTrip(c as int % 16);
      assert HexValue('\n').None?;
      var e := EscapeChar(c);
      assert e == "\\u00" + [HexDigit(c as int / 16), HexDigit(c as int % 16)];
      assert forall k :: 0 <= k < |e| ==> e[k] != '\n';
    }
  }

  /** A stringified string never holds a raw line break. */
  lemma {:induction false} EscapeHasNoLineBreak(s: string)
    ensures '\n' !in Escape(s)
    decreases |s|
  {
    if |s| > 0 {
      EscapeHasNoLineBreak(s[1..]);
      EscapeCharHasNoLineBreak(s[0]);
    }
  }
}
