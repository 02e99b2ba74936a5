/** JSON string literals as `JSON.stringify` writes them for a string value (the
    QuoteJSONString operation of ECMAScript, which follows section 7 of RFC 8259),
    and the reading a client applies to get the string back. */
module JsonString {
  import opened Wrappers

  /** Lower-case hexadecimal digit for `n`, as `JSON.stringify` writes `\u` escapes. */
  function HexDigit(n: nat): (c: char)
    requires n < 16
    ensures HexValue(c) == Some(n)
  {
    if n < 10 then ('0' as int + n) as char else ('a' as int + n - 10) as char
  }

  /** Value of a hexadecimal digit of either case. */
  function HexValue(c: char): Option<nat>
  {
    if '0' <= c <= '9' then Some(c as int - '0' as int)
    else if 'a' <= c <= 'f' then Some(c as int - 'a' as int + 10)
    else if 'A' <= c <= 'F' then Some(c as int - 'A' as int + 10)
    else None
  }

  /** Value of four hexadecimal digits. */
  function HexQuad(h: string): (r: Option<nat>)
    requires |h| == 4
    ensures r.Some? ==> r.value < 0x1_0000
  {
    match (HexValue(h[0]), HexValue(h[1]), HexValue(h[2]), HexValue(h[3]))
    case (Some(a), Some(b), Some(c), Some(d)) =>
      if a < 16 && b < 16 && c < 16 && d < 16 then Some(((a * 16 + b) * 16 + c) * 16 + d) else None
    case _ => None
  }

  /** The escape written for one character: the two-character escapes for backspace,
      tab, line feed, form feed, carriage return, quotation mark and reverse solidus,
      `\u00XX` for every other character below U+0020, and the character itself otherwise.
      (Dafny characters are Unicode scalar values, so the lone-surrogate case does not arise.) */
  function Escape(c: char): string
  {
    if c == '"' then "\\\""
    else if c == '\\' then "\\\\"
    else if c as int == 0x08 then "\\b"
    else if c as int == 0x09 then "\\t"
    else if c as int == 0x0A then "\\n"
    else if c as int == 0x0C then "\\f"
    else if c as int == 0x0D then "\\r"
    else if (c as int) < 0x20 then "\\u00" + [HexDigit(c as int / 16), HexDigit(c as int % 16)]
    else [c]
  }

  function EscapeAll(s: string): string
  {
    if s == [] then [] else Escape(s[0]) + EscapeAll(s[1..])
  }

  /** `JSON.stringify(s)` for a string `s`. */
  function Quote(s: string): string
  {
    "\"" + EscapeAll(s) + "\""
  }

  /** The character a two-character escape `\x` stands for. */
  function SimpleEscape(x: char): Option<char>
  {
    if x == '"' then Some('"')
    else if x == '\\' then Some('\\')
    else if x == '/' then Some('/')
    else if x == 'b' then Some(0x08 as char)
    else if x == 't' then Some(0x09 as char)
    else if x == 'n' then Some(0x0A as char)
    else if x == 'f' then Some(0x0C as char)
    else if x == 'r' then Some(0x0D as char)
    else None
  }

  function Prepend(c: char, r: Option<string>): Option<string>
  {
    match r
    case None => None
    case Some(s) => Some([c] + s)
  }

  /** Reads the characters of a string literal after its opening quotation mark; the
      closing quotation mark must be the last character. Unescaped control characters,
      unknown escapes and `\u` escapes of surrogate code units are rejected. */
  function Unescape(t: string): Option<string>
    decreases |t|
  {
    if t == [] then None
    else if t[0] == '"' then (if |t| == 1 then Some([]) else None)
    else if t[0] == '\\' then
      if |t| < 2 then None
      else if t[1] == 'u' then
        if |t| < 6 then None
        else match HexQuad(t[2..6])
          case None => None
          case Some(code) =>
            if 0xD800 <= code < 0xE000 then None else Prepend(code as char, Unescape(t[6..]))
      else match SimpleEscape(t[1])
        case None => None
        case Some(c) => Prepend(c, Unescape(t[2..]))
    else if (t[0] as int) < 0x20 then None
    else Prepend(t[0], Unescape(t[1..]))
  }

  /** Parses one JSON string literal that spans all of `q`. */
  function Unquote(q: string): Option<string>
  {
    if q != [] && q[0] == '"' then Unescape(q[1..]) else None
  }

  /** Reading one escape back gives its character and leaves the rest untouched. */
  lemma UnescapeEscape(c: char, rest: string)
    ensures Unescape(Escape(c) + rest) == Prepend(c, Unescape(rest))
  {
    var t := Escape(c) + rest;
    if c != '"' && c != '\\' && c as int != 0x08 && c as int != 0x09 && c as int != 0x0A
      && c as int != 0x0C && c as int != 0x0D && (c as int) < 0x20 {
      UnescapeHexEscape(c, rest);
    } else if (c as int) >= 0x20 && c != '"' && c != '\\' {
      assert t[1..] == rest;
    } else {
      assert t[2..] == rest;
    }
  }

  /** The `\u00XX` escape of a control character reads back as that character. */
  lemma UnescapeHexEscape(c: char, rest: string)
    requires (c as int) < 0x20
    ensures Unescape("\\u00" + [HexDigit(c as int / 16), HexDigit(c as int % 16)] + rest)
      == Prepend(c, Unescape(rest))
  {
    var hi, lo := c as int / 16, c as int % 16;
    var t := "\\u00" + [HexDigit(hi), HexDigit(lo)] + rest;
    assert t[2..6] == ['0', '0', HexDigit(hi), HexDigit(lo)];
    assert HexQuad(t[2..6]) == Some(c as int);
    assert t[6..] == rest;
  }

  lemma {:induction false} UnescapeEscapeAll(s: string)
    ensures Unescape(EscapeAll(s) + "\"") == Some(s)
  {
    if s != [] {
      assert EscapeAll(s) + "\"" == Escape(s[0]) + (EscapeAll(s[1..]) + "\"");
      UnescapeEscape(s[0], EscapeAll(s[1..]) + "\"");
      UnescapeEscapeAll(s[1..]);
      assert [s[0]] + s[1..] == s;
    }
  }

  /** Round trip: a client that parses a quoted fragment gets exactly the fragment. */
  lemma UnquoteQuote(s: string)
    ensures Unquote(Quote(s)) == Some(s)
  {
    assert Quote(s)[1..] == EscapeAll(s) + "\"";
    UnescapeEscapeAll(s);
  }

  /** Every escape is free of control characters. */
  lemma EscapePrintable(c: char)
    ensures forall i :: 0 <= i < |Escape(c)| ==> Escape(c)[i] as int >= 0x20
  {
  }

  lemma {:induction false} EscapeAllPrintable(s: string)
    ensures forall i :: 0 <= i < |EscapeAll(s)| ==> EscapeAll(s)[i] as int >= 0x20
  {
    if s != [] {
      EscapePrintable(s[0]);
      EscapeAllPrintable(s[1..]);
      var e, r := Escape(s[0]), EscapeAll(s[1..]);
      forall i | 0 <= i < |e + r| ensures (e + r)[i] as int >= 0x20 {
        if i < |e| { assert (e + r)[i] == e[i]; } else { assert (e + r)[i] == r[i - |e|]; }
      }
    }
  }

  /** A quoted fragment contains no control character, in particular no line feed,
      so each framed record stays on one line. */
  lemma QuotePrintable(s: string)
    ensures forall i :: 0 <= i < |Quote(s)| ==> Quote(s)[i] as int >= 0x20
    ensures '\n' !in Quote(s)
  {
    EscapeAllPrintable(s);
    var q := Quote(s);
    forall i | 0 <= i < |q| ensures q[i] as int >= 0x20 {
      if 0 < i < |q| - 1 { assert q[i] == EscapeAll(s)[i - 1]; }
    }
  }
}
