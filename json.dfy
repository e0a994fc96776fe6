/**
 * String literals as Python's `json.dumps` writes them (its default
 * `ensure_ascii=True`), following section 7 of RFC 8259: a quotation mark,
 * a reverse solidus and every control character are escaped, and so is every
 * character outside printable ASCII (as `\uXXXX`, or as a UTF-16 surrogate
 * pair above U+FFFF).  The literal therefore never holds a raw line break.
 */
module Json {
  import opened Wrappers

  /** The characters `json.dumps` leaves unescaped: U+0020..U+007E. */
  predicate IsPrintableAscii(c: char) { ' ' <= c <= '~' }

  predicate AllPrintable(s: string) {
    forall i :: 0 <= i < |s| ==> IsPrintableAscii(s[i])
  }

  lemma PrintableConcat(a: string, b: string)
    requires AllPrintable(a) && AllPrintable(b)
    ensures AllPrintable(a + b)
  {
    assert forall i :: 0 <= i < |a + b| ==> (a + b)[i] == if i < |a| then a[i] else b[i - |a|];
  }

  /** A lower-case hexadecimal digit, as `'{0:04x}'.format` writes it. */
  function HexDigit(d: nat): (c: char)
    requires d < 16
    ensures IsPrintableAscii(c)
  {
    if d < 10 then ('0' as int + d) as char else ('a' as int + d - 10) as char
  }

  function HexValue(c: char): Option<nat> {
    if '0' <= c <= '9' then Some(c as int - '0' as int)
    else if 'a' <= c <= 'f' then Some(c as int - 'a' as int + 10)
    else None
  }

  lemma HexDigitValue(d: nat)
    requires d < 16
    ensures HexValue(HexDigit(d)) == Some(d)
  {
  }

  /** Four hexadecimal digits for a UTF-16 code unit. */
  function Hex4(n: nat): (r: string)
    requires n < 0x10000
    ensures |r| == 4 && AllPrintable(r)
  {
    [HexDigit(n / 16 / 16 / 16), HexDigit(n / 16 / 16 % 16), HexDigit(n / 16 % 16), HexDigit(n % 16)]
  }

  function ParseHex4(s: string): Option<nat>
    requires |s| == 4
  {
    match (HexValue(s[0]), HexValue(s[1]), HexValue(s[2]), HexValue(s[3]))
    case (Some(a), Some(b), Some(c), Some(d)) => Some(((a * 16 + b) * 16 + c) * 16 + d)
    case _ => None
  }

  lemma Hex4RoundTrip(n: nat)
    requires n < 0x10000
    ensures ParseHex4(Hex4(n)) == Some(n)
  {
    var q1, q2, q3 := n / 16, n / 16 / 16, n / 16 / 16 / 16;
    HexDigitValue(q3);
    HexDigitValue(q2 % 16);
    HexDigitValue(q1 % 16);
    HexDigitValue(n % 16);
    assert q2 == q3 * 16 + q2 % 16;
    assert q1 == q2 * 16 + q1 % 16;
    assert n == q1 * 16 + n % 16;
  }

  /** The escape `json.dumps` writes for one character. */
  function EscapeChar(c: char): (r: string)
    ensures |r| >= 1 && AllPrintable(r)
  {
    if c == '\\' then "\\\\"
    else if c == '"' then "\\\""
    else if c == '\U{8}' then "\\b"
    else if c == '\U{c}' then "\\f"
    else if c == '\n' then "\\n"
    else if c == '\r' then "\\r"
    else if c == '\t' then "\\t"
    else if IsPrintableAscii(c) then [c]
    else if (c as int) < 0x10000 then
      var r := "\\u" + Hex4(c as int);
      PrintableConcat("\\u", Hex4(c as int));
      r
    else
      var n := c as int - 0x10000;
      var r := "\\u" + Hex4(0xD800 + n / 0x400) + "\\u" + Hex4(0xDC00 + n % 0x400);
      PrintableConcat("\\u", Hex4(0xD800 + n / 0x400));
      PrintableConcat("\\u" + Hex4(0xD800 + n / 0x400), "\\u");
      PrintableConcat("\\u" + Hex4(0xD800 + n / 0x400) + "\\u", Hex4(0xDC00 + n % 0x400));
      r
  }

  /** The body of a JSON string literal for `s`. */
  function Escape(s: string): (r: string)
    ensures AllPrintable(r)
  {
    if s == [] then []
    else
      PrintableConcat(EscapeChar(s[0]), Escape(s[1..]));
      EscapeChar(s[0]) + Escape(s[1..])
  }

  /** The JSON string literal for `s`: the escaped body between quotation marks. */
  function Quote(s: string): (r: string)
    ensures |r| >= 2 && r[0] == '"' && r[|r| - 1] == '"'
    ensures AllPrintable(r) && '\n' !in r
  {
    PrintableConcat("\"", Escape(s));
    PrintableConcat("\"" + Escape(s), "\"");
    var r := "\"" + Escape(s) + "\"";
    assert forall i :: 0 <= i < |r| ==> r[i] != '\n';
    r
  }

  /** The character a single-letter escape stands for. */
  function ShortEscape(c: char): Option<char> {
    if c == '\\' then Some('\\')
    else if c == '"' then Some('"')
    else if c == 'b' then Some('\U{8}')
    else if c == 'f' then Some('\U{c}')
    else if c == 'n' then Some('\n')
    else if c == 'r' then Some('\r')
    else if c == 't' then Some('\t')
    else None
  }

  /** Prepends `c` to a successful decoding. */
  function Cons(c: char, rest: Option<string>): Option<string> {
    match rest
    case Some(t) => Some([c] + t)
    case None => None
  }

  /**
   * Decodes the body of a JSON string literal (RFC 8259, section 7):
   * unescaped characters must not be a quotation mark, a reverse solidus or
   * a control character, and `\uXXXX` escapes for surrogates must pair up.
   */
  function Unescape(t: string): (r: Option<string>)
    decreases |t|
  {
    if t == [] then Some([])
    else if t[0] != '\\' then
      if t[0] == '"' || t[0] < ' ' then None else Cons(t[0], Unescape(t[1..]))
    else if |t| < 2 then None
    else if t[1] != 'u' then
      match ShortEscape(t[1])
      case Some(c) => Cons(c, Unescape(t[2..]))
      case None => None
    else if |t| < 6 then None
    else
      match ParseHex4(t[2..6])
      case None => None
      case Some(hi) =>
        if hi < 0xD800 || 0xE000 <= hi then Cons(hi as char, Unescape(t[6..]))
        else if 0xDC00 <= hi || |t| < 12 || t[6..8] != "\\u" then None
        else
          match ParseHex4(t[8..12])
          case Some(lo) =>
            if 0xDC00 <= lo < 0xE000 then
              Cons((0x10000 + (hi - 0xD800) * 0x400 + (lo - 0xDC00)) as char, Unescape(t[12..]))
            else None
          case None => None
  }

  lemma UnescapeShort(c: char, rest: string)
    requires c == '\\' || c == '"' || c == '\U{8}' || c == '\U{c}' || c == '\n' || c == '\r' || c == '\t'
    ensures Unescape(EscapeChar(c) + rest) == Cons(c, Unescape(rest))
  {
    var t := EscapeChar(c) + rest;
    assert |EscapeChar(c)| == 2 && t[1] != 'u' && ShortEscape(t[1]) == Some(c);
    assert t[2..] == rest;
  }

  lemma UnescapePlain(c: char, rest: string)
    requires IsPrintableAscii(c) && c != '\\' && c != '"'
    ensures Unescape(EscapeChar(c) + rest) == Cons(c, Unescape(rest))
  {
    var t := EscapeChar(c) + rest;
    assert t[0] == c && t[1..] == rest;
  }

  lemma UnescapeBmp(c: char, rest: string)
    requires !IsPrintableAscii(c) && (c as int) < 0x10000
    requires c != '\U{8}' && c != '\U{c}' && c != '\n' && c != '\r' && c != '\t'
    ensures Unescape(EscapeChar(c) + rest) == Cons(c, Unescape(rest))
  {
    var t := EscapeChar(c) + rest;
    assert EscapeChar(c) == "\\u" + Hex4(c as int);
    Hex4RoundTrip(c as int);
    assert t[..2] == "\\u";
    assert t[2..6] == Hex4(c as int);
    assert t[6..] == rest;
  }

  /** A well-formed surrogate pair decodes to the character it encodes. */
  lemma UnescapePair(t: string, hi: nat, lo: nat)
    requires |t| >= 12 && t[..2] == "\\u" && t[6..8] == "\\u"
    requires ParseHex4(t[2..6]) == Some(hi) && 0xD800 <= hi < 0xDC00
    requires ParseHex4(t[8..12]) == Some(lo) && 0xDC00 <= lo < 0xE000
    ensures Unescape(t) == Cons((0x10000 + (hi - 0xD800) * 0x400 + (lo - 0xDC00)) as char, Unescape(t[12..]))
  {
    assert t[0] == '\\' && t[1] == 'u';
  }

  lemma SurrogateArithmetic(c: char)
    requires (c as int) >= 0x10000
    ensures var n := c as int - 0x10000;
            0xD800 <= 0xD800 + n / 0x400 < 0xDC00
            && 0x10000 + (n / 0x400) * 0x400 + n % 0x400 == c as int
  {
  }

  lemma EscapeCharAstral(c: char)
    requires (c as int) >= 0x10000
    ensures var n := c as int - 0x10000;
            EscapeChar(c) == "\\u" + Hex4(0xD800 + n / 0x400) + "\\u" + Hex4(0xDC00 + n % 0x400)
  {
  }

  lemma PairSlices(h: string, l: string, rest: string)
    requires |h| == 4 && |l| == 4
    ensures var t := "\\u" + h + "\\u" + l + rest;
            |t| >= 12 && t[..2] == "\\u" && t[2..6] == h && t[6..8] == "\\u" && t[8..12] == l && t[12..] == rest
  {
  }

  lemma UnescapeAstral(c: char, rest: string)
    requires (c as int) >= 0x10000
    ensures Unescape(EscapeChar(c) + rest) == Cons(c, Unescape(rest))
  {
    var n := c as int - 0x10000;
    var hi := 0xD800 + n / 0x400;
    var lo := 0xDC00 + n % 0x400;
    SurrogateArithmetic(c);
    EscapeCharAstral(c);
    Hex4RoundTrip(hi);
    Hex4RoundTrip(lo);
    PairSlices(Hex4(hi), Hex4(lo), rest);
    assert EscapeChar(c) + rest == "\\u" + Hex4(hi) + "\\u" + Hex4(lo) + rest;
    UnescapePair(EscapeChar(c) + rest, hi, lo);
  }

  lemma UnescapeEscapeChar(c: char, rest: string)
    ensures Unescape(EscapeChar(c) + rest) == Cons(c, Unescape(rest))
  {
    if c == '\\' || c == '"' || c == '\U{8}' || c == '\U{c}' || c == '\n' || c == '\r' || c == '\t' {
      UnescapeShort(c, rest);
    } else if IsPrintableAscii(c) {
      UnescapePlain(c, rest);
    } else if (c as int) < 0x10000 {
      UnescapeBmp(c, rest);
    } else {
      UnescapeAstral(c, rest);
    }
  }

  /** Decoding the escaped body gives back the original string. */
  lemma {:induction false} UnescapeEscape(s: string)
    ensures Unescape(Escape(s)) == Some(s)
  {
    if s != [] {
      UnescapeEscapeChar(s[0], Escape(s[1..]));
      UnescapeEscape(s[1..]);
      assert [s[0]] + s[1..] == s;
    }
  }
}
