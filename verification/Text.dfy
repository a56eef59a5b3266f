/** Unicode text as both sides of the protocol measure and escape it: UTF-8 byte counts, and
    JSON string escaping as in section 7 of RFC 8259. */
module Text {
  import opened Wrappers

  function Utf8Size(c: char): (n: nat)
    ensures 1 <= n <= 4
  {
    var u := c as int;
    if u < 0x80 then 1 else if u < 0x800 then 2 else if u < 0x1_0000 then 3 else 4
  }

  /** The length in bytes of the UTF-8 encoding of `s`. */
  function Bytes(s: string): (n: nat)
    ensures |s| <= n
  {
    if s == [] then 0 else Utf8Size(s[0]) + Bytes(s[1..])
  }

  lemma {:induction false} BytesConcat(a: string, b: string)
    ensures Bytes(a + b) == Bytes(a) + Bytes(b)
  {
    if a == [] {
      assert a + b == b;
    } else {
      assert (a + b)[1..] == a[1..] + b;
      BytesConcat(a[1..], b);
    }
  }

  lemma BytesConcat3(a: string, b: string, c: string)
    ensures Bytes(a + b + c) == Bytes(a) + Bytes(b) + Bytes(c)
  {
    BytesConcat(a + b, c);
    BytesConcat(a, b);
  }

  lemma BytesConcat5(a: string, b: string, c: string, d: string, e: string)
    ensures Bytes(a + b + c + d + e) == Bytes(a) + Bytes(b) + Bytes(c) + Bytes(d) + Bytes(e)
  {
    BytesConcat3(a + b + c, d, e);
    BytesConcat3(a, b, c);
  }

  lemma BytesConcat7(a: string, b: string, c: string, d: string, e: string, f: string, g: string)
    ensures Bytes(a + b + c + d + e + f + g)
         == Bytes(a) + Bytes(b) + Bytes(c) + Bytes(d) + Bytes(e) + Bytes(f) + Bytes(g)
  {
    BytesConcat3(a + b + c + d + e, f, g);
    BytesConcat5(a, b, c, d, e);
  }

  lemma {:induction false} BytesAtMost(s: string)
    ensures Bytes(s) <= 4 * |s|
  {
    if s != [] {
      BytesAtMost(s[1..]);
    }
  }

  /** Every character of `s` takes one byte. */
  ghost predicate Ascii(s: string) {
    forall i :: 0 <= i < |s| ==> s[i] as int < 0x80
  }

  lemma {:induction false} AsciiBytes(s: string)
    requires Ascii(s)
    ensures Bytes(s) == |s|
  {
    if s != [] {
      AsciiBytes(s[1..]);
    }
  }

  function HexDigit(n: nat): (c: char)
    requires n < 16
    ensures c as int < 0x80
  {
    if n < 10 then (n + '0' as int) as char else (n - 10 + 'a' as int) as char
  }

  function HexValue(c: char): Option<nat> {
    if '0' <= c <= '9' then Some(c as int - '0' as int)
    else if 'a' <= c <= 'f' then Some(c as int - 'a' as int + 10)
    else None
  }

  /** The short escapes `\b \f \n \r \t \" \\`: the letter after the backslash. */
  function ShortEscape(c: char): Option<char> {
    if c == 8 as char then Some('b')
    else if c == 9 as char then Some('t')
    else if c == 10 as char then Some('n')
    else if c == 12 as char then Some('f')
    else if c == 13 as char then Some('r')
    else if c == '"' then Some('"')
    else if c == '\\' then Some('\\')
    else None
  }

  function FromShortEscape(c: char): Option<char> {
    if c == 'b' then Some(8 as char)
    else if c == 't' then Some(9 as char)
    else if c == 'n' then Some(10 as char)
    else if c == 'f' then Some(12 as char)
    else if c == 'r' then Some(13 as char)
    else if c == '"' then Some('"')
    else if c == '\\' then Some('\\')
    else None
  }

  function EscapeChar(c: char): string {
    match ShortEscape(c)
    case Some(letter) => ['\\', letter]
    case None =>
      if c as int < 0x20 then ['\\', 'u', '0', '0', HexDigit(c as int / 16), HexDigit(c as int % 16)]
      else [c]
  }

  function Escape(s: string): string {
    if s == [] then [] else EscapeChar(s[0]) + Escape(s[1..])
  }

  /** A JSON string literal for `s`. */
  function Quote(s: string): string {
    "\"" + Escape(s) + "\""
  }

  /** Reads string characters up to the closing quote; returns the decoded string and what
      follows the quote. */
  function ScanString(text: string): Option<(string, string)>
    decreases |text|
  {
    if text == [] then None
    else if text[0] == '"' then Some(([], text[1..]))
    else if text[0] == '\\' then
      if |text| < 2 then None
      else if text[1] == 'u' then
        if |text| < 6 || text[2] != '0' || text[3] != '0' then None
        else if HexValue(text[4]).None? || HexValue(text[5]).None? then None
        else
          Prefixed((16 * HexValue(text[4]).value + HexValue(text[5]).value) as char, ScanString(text[6..]))
      else match FromShortEscape(text[1])
        case Some(c) => Prefixed(c, ScanString(text[2..]))
        case None => None
    else Prefixed(text[0], ScanString(text[1..]))
  }

  function Prefixed(c: char, scanned: Option<(string, string)>): Option<(string, string)> {
    match scanned
    case None => None
    case Some(pair) => Some(([c] + pair.0, pair.1))
  }

  /** A quoted string is self-delimiting and decodes to the string it was made from. */
  lemma {:induction false} QuoteRoundTrip(s: string, rest: string)
    ensures ScanString(Escape(s) + "\"" + rest) == Some((s, rest))
  {
    if s == [] {
      assert Escape(s) + "\"" + rest == ['"'] + rest;
    } else {
      var tail := Escape(s[1..]) + "\"" + rest;
      var all := Escape(s) + "\"" + rest;
      assert all == EscapeChar(s[0]) + tail;
      QuoteRoundTrip(s[1..], rest);
      ScanEscapedChar(s[0], tail);
      assert s == [s[0]] + s[1..];
    }
  }

  lemma ScanEscapedChar(c: char, tail: string)
    ensures ScanString(EscapeChar(c) + tail) == Prefixed(c, ScanString(tail))
  {
    if ShortEscape(c).Some? {
      ScanShortEscape(c, tail);
    } else if c as int < 0x20 {
      ScanHexEscape(c, tail);
    } else {
      assert (EscapeChar(c) + tail)[1..] == tail;
    }
  }

  lemma ScanShortEscape(c: char, tail: string)
    requires ShortEscape(c).Some?
    ensures ScanString(EscapeChar(c) + tail) == Prefixed(c, ScanString(tail))
  {
    assert (EscapeChar(c) + tail)[2..] == tail;
  }

  lemma ScanHexEscape(c: char, tail: string)
    requires c as int < 0x20 && ShortEscape(c).None?
    ensures ScanString(EscapeChar(c) + tail) == Prefixed(c, ScanString(tail))
  {
    var high, low := c as int / 16, c as int % 16;
    assert (EscapeChar(c) + tail)[6..] == tail;
    HexRoundTrip(high);
    HexRoundTrip(low);
  }

  lemma HexRoundTrip(n: nat)
    requires n < 16
    ensures HexValue(HexDigit(n)) == Some(n)
  {
  }

  lemma EscapeCharBytes(c: char)
    ensures 1 <= Bytes(EscapeChar(c)) <= 6 * Utf8Size(c)
  {
    var e := EscapeChar(c);
    if ShortEscape(c).Some? || c as int < 0x20 {
      assert Ascii(e);
      AsciiBytes(e);
    } else {
      assert e[1..] == [];
    }
  }

  /** Escaping expands UTF-8 by at most a factor of six. */
  lemma {:induction false} EscapeBytes(s: string)
    ensures Bytes(Escape(s)) <= 6 * Bytes(s)
  {
    if s != [] {
      EscapeCharBytes(s[0]);
      EscapeBytes(s[1..]);
      BytesConcat(EscapeChar(s[0]), Escape(s[1..]));
    }
  }

  lemma QuoteBytes(s: string)
    ensures Bytes(Quote(s)) == Bytes(Escape(s)) + 2 <= 6 * Bytes(s) + 2
  {
    EscapeBytes(s);
    AsciiBytes("\"");
    BytesConcat3("\"", Escape(s), "\"");
  }

  function Decimal(n: nat): string
    decreases n
  {
    if n < 10 then [HexDigit(n)] else Decimal(n / 10) + [HexDigit(n % 10)]
  }

  lemma DecimalBytes(n: nat)
    requires n <= 9999
    ensures 1 <= Bytes(Decimal(n)) <= 4
  {
    DecimalLength(n, 4);
    AsciiBytes(Decimal(n));
  }

  lemma {:induction false} DecimalLength(n: nat, digits: nat)
    requires digits >= 1
    requires n < Power10(digits)
    ensures Ascii(Decimal(n)) && 1 <= |Decimal(n)| <= digits
  {
    if n >= 10 {
      assert digits > 1;
      DecimalLength(n / 10, digits - 1);
    }
  }

  function Power10(n: nat): nat {
    if n == 0 then 1 else 10 * Power10(n - 1)
  }
}
