/**
 * `urllib.parse.quote_plus` as `build_database_url_from_secret` uses it
 * (no extra safe characters, UTF-8): percent-encoding per section 2.1 of
 * RFC 3986, leaving alone the unreserved characters of section 2.3, with
 * the application/x-www-form-urlencoded convention that a space becomes
 * `+`.  `UnquotePlus` is its inverse, the reference the round trip is
 * proved against.
 */
module UrlEncoding {
  import opened Common

  type Byte = b: int | 0 <= b < 256

  /** The unreserved characters of section 2.3 of RFC 3986: letters, digits and `_.-~`. */
  predicate Unreserved(c: char)
  {
    ('A' <= c <= 'Z') || ('a' <= c <= 'z') || ('0' <= c <= '9') || c == '_' || c == '.' || c == '-' || c == '~'
  }

  // ---------------------------------------------------------------------
  // UTF-8
  // ---------------------------------------------------------------------

  /** The UTF-8 encoding of one scalar value. */
  function Utf8Char(c: char): (r: seq<Byte>)
    ensures 1 <= |r| <= 4
    ensures (c as int < 0x80) <==> |r| == 1
    ensures |r| == 1 ==> r[0] == c as int
    ensures forall k :: 1 <= k < |r| ==> 0x80 <= r[k] < 0xC0
  {
    var cp := c as int;
    var q1 := cp / 64;
    var q2 := q1 / 64;
    if cp < 0x80 then [cp]
    else if cp < 0x800 then [0xC0 + q1, 0x80 + cp % 64]
    else if cp < 0x10000 then [0xE0 + q2, 0x80 + q1 % 64, 0x80 + cp % 64]
    else [0xF0 + q2 / 64, 0x80 + q2 % 64, 0x80 + q1 % 64, 0x80 + cp % 64]
  }

  function Utf8(s: string): seq<Byte>
    decreases |s|
  {
    if |s| == 0 then [] else Utf8Char(s[0]) + Utf8(s[1..])
  }

  /** The length of the sequence a leading byte announces; 0 for a byte that cannot lead. */
  function SequenceLength(b: Byte): nat
  {
    if b < 0x80 then 1
    else if 0xC0 <= b < 0xE0 then 2
    else if 0xE0 <= b < 0xF0 then 3
    else if 0xF0 <= b < 0xF8 then 4
    else 0
  }

  /** The code point a sequence of 1 to 4 bytes carries. */
  function CodePoint(p: seq<Byte>): int
    requires 1 <= |p| <= 4
  {
    var b0 := p[0] as int;
    if |p| == 1 then b0
    else if |p| == 2 then (b0 - 0xC0) * 64 + (p[1] as int - 0x80)
    else if |p| == 3 then ((b0 - 0xE0) * 64 + (p[1] as int - 0x80)) * 64 + (p[2] as int - 0x80)
    else (((b0 - 0xF0) * 64 + (p[1] as int - 0x80)) * 64 + (p[2] as int - 0x80)) * 64 + (p[3] as int - 0x80)
  }

  predicate IsScalar(cp: int)
  {
    (0 <= cp < 0xD800) || (0xE000 <= cp < 0x110000)
  }

  /** UTF-8 decoding; a sequence is accepted only in its shortest form. */
  function Utf8Decode(bs: seq<Byte>): Option<string>
    decreases |bs|
  {
    if |bs| == 0 then Some([])
    else
      var n := SequenceLength(bs[0]);
      if n == 0 || |bs| < n then None
      else
        var cp := CodePoint(bs[..n]);
        if !IsScalar(cp) || Utf8Char(cp as char) != bs[..n] then None
        else
          match Utf8Decode(bs[n..])
          case None => None
          case Some(t) => Some([cp as char] + t)
  }

  /** Decoding one encoded scalar value gives it back. */
  lemma Utf8CharDecodes(c: char)
    ensures var r := Utf8Char(c); SequenceLength(r[0]) == |r| && CodePoint(r) == c as int
  {
    var cp := c as int;
    var q1 := cp / 64;
    var q2 := q1 / 64;
    assert cp == q1 * 64 + cp % 64;
    assert q1 == q2 * 64 + q1 % 64;
    assert q2 == (q2 / 64) * 64 + q2 % 64;
  }

  lemma {:induction false} Utf8RoundTrip(s: string)
    ensures Utf8Decode(Utf8(s)) == Some(s)
    decreases |s|
  {
    if |s| > 0 {
      var r := Utf8Char(s[0]);
      var bs := Utf8(s);
      assert bs == r + Utf8(s[1..]);
      Utf8CharDecodes(s[0]);
      assert bs[..|r|] == r && bs[|r|..] == Utf8(s[1..]);
      assert bs[0] == r[0];
      Utf8RoundTrip(s[1..]);
      assert [s[0]] + s[1..] == s;
    }
  }

  // ---------------------------------------------------------------------
  // Percent-encoding
  // ---------------------------------------------------------------------

  /** An upper-case hexadecimal digit, as `quote` writes them. */
  function HexDigit(d: int): (c: char)
    requires 0 <= d < 16
    ensures ('0' <= c <= '9') || ('A' <= c <= 'F')
  {
    if d < 10 then (48 + d) as char else (55 + d) as char
  }

  predicate IsHex(c: char)
  {
    ('0' <= c <= '9') || ('A' <= c <= 'F') || ('a' <= c <= 'f')
  }

  function HexValue(c: char): (d: int)
    requires IsHex(c)
    ensures 0 <= d < 16
  {
    if '0' <= c <= '9' then c as int - 48
    else if 'A' <= c <= 'F' then c as int - 55
    else c as int - 87
  }

  /** `%XX` for one byte. */
  function Triplet(b: Byte): string
  {
    ['%', HexDigit(b / 16), HexDigit(b % 16)]
  }

  function Triplets(bs: seq<Byte>): (r: string)
    ensures forall k :: 0 <= k < |r| ==> r[k] == '%' || Unreserved(r[k])
    decreases |bs|
  {
    if |bs| == 0 then [] else Triplet(bs[0]) + Triplets(bs[1..])
  }

  /** One character of `quote_plus(s)`: unreserved kept, space to `+`, anything else as the `%XX` of its UTF-8 bytes. */
  function QuoteChar(c: char): (r: string)
    ensures Unreserved(c) ==> r == [c]
    ensures c == ' ' ==> r == "+"
    ensures !Unreserved(c) && c != ' ' ==> r == Triplets(Utf8Char(c))
  {
    if Unreserved(c) then [c] else if c == ' ' then "+" else Triplets(Utf8Char(c))
  }

  /** `quote_plus(s)`: only unreserved characters, `+` and `%` appear in the result. */
  function QuotePlus(s: string): (r: string)
    ensures forall k :: 0 <= k < |r| ==> Unreserved(r[k]) || r[k] == '+' || r[k] == '%'
    decreases |s|
  {
    if |s| == 0 then [] else QuoteChar(s[0]) + QuotePlus(s[1..])
  }

  /** The encoded text has no `:`, `@` or `/`, so it cannot end the userinfo or the authority of a URL. */
  lemma QuotePlusHasNoDelimiters(s: string)
    ensures forall k :: 0 <= k < |QuotePlus(s)| ==> QuotePlus(s)[k] !in {':', '@', '/', ' '}
  {
  }

  /** The space and the plus sign: `" "` becomes `"+"`, `"+"` becomes `"%2B"`. */
  lemma SpaceAndPlus()
    ensures QuotePlus(" ") == "+"
    ensures QuotePlus("+") == "%2B"
  {
    assert Utf8Char('+') == [43];
    assert Triplet(43) == "%2B";
  }

  /** A text made only of unreserved characters is left as it is. */
  lemma {:induction false} UnreservedUnchanged(s: string)
    requires forall k :: 0 <= k < |s| ==> Unreserved(s[k])
    ensures QuotePlus(s) == s
    decreases |s|
  {
    if |s| > 0 {
      UnreservedUnchanged(s[1..]);
      assert [s[0]] + s[1..] == s;
    }
  }

  /** Every `%` of the text starts a `%XX` triplet of hexadecimal digits; every other character is unreserved or `+`. */
  predicate WellEncoded(t: string)
    decreases |t|
  {
    if |t| == 0 then true
    else if t[0] == '%' then |t| >= 3 && IsHex(t[1]) && IsHex(t[2]) && WellEncoded(t[3..])
    else (Unreserved(t[0]) || t[0] == '+') && WellEncoded(t[1..])
  }

  lemma {:induction false} WellEncodedAppend(a: string, b: string)
    requires WellEncoded(a) && WellEncoded(b)
    ensures WellEncoded(a + b)
    decreases |a|
  {
    if |a| == 0 {
      assert a + b == b;
    } else if a[0] == '%' {
      WellEncodedAppend(a[3..], b);
      assert (a + b)[3..] == a[3..] + b;
    } else {
      WellEncodedAppend(a[1..], b);
      assert (a + b)[1..] == a[1..] + b;
    }
  }

  lemma {:induction false} TripletsWellEncoded(bs: seq<Byte>)
    ensures WellEncoded(Triplets(bs))
    decreases |bs|
  {
    if |bs| > 0 {
      TripletsWellEncoded(bs[1..]);
      var t := Triplet(bs[0]);
      assert t[3..] == [];
      WellEncodedAppend(t, Triplets(bs[1..]));
    }
  }

  /** The encoding is made of unreserved characters, `+` and well-formed `%XX` triplets. */
  lemma {:induction false} QuotePlusWellEncoded(s: string)
    ensures WellEncoded(QuotePlus(s))
    decreases |s|
  {
    if |s| > 0 {
      QuotePlusWellEncoded(s[1..]);
      var c := s[0];
      if !Unreserved(c) && c != ' ' {
        TripletsWellEncoded(Utf8Char(c));
      }
      WellEncodedAppend(QuoteChar(c), QuotePlus(s[1..]));
    }
  }

  /** The bytes `unquote_plus` reads: `+` is a space, `%XX` a byte, anything else its own UTF-8 bytes. */
  function PercentDecode(t: string): seq<Byte>
    decreases |t|
  {
    if |t| == 0 then []
    else if t[0] == '+' then [32] + PercentDecode(t[1..])
    else if t[0] == '%' && |t| >= 3 && IsHex(t[1]) && IsHex(t[2]) then
      [HexValue(t[1]) * 16 + HexValue(t[2])] + PercentDecode(t[3..])
    else Utf8Char(t[0]) + PercentDecode(t[1..])
  }

  /**
   * A strict reference decoder for `unquote_plus(t)`: `None` where the
   * decoded bytes are not UTF-8.  Python's `unquote_plus` puts U+FFFD in
   * place of such bytes instead; the two agree on every well-encoded text,
   * which is all the round trip below needs.
   */
  function UnquotePlus(t: string): Option<string>
  {
    Utf8Decode(PercentDecode(t))
  }

  /** One `%XX` decodes to its byte. */
  lemma TripletDecodes(b: Byte, rest: string)
    ensures PercentDecode(Triplet(b) + rest) == [b] + PercentDecode(rest)
  {
    var t := Triplet(b) + rest;
    assert t[0] == '%' && t[1] == HexDigit(b / 16) && t[2] == HexDigit(b % 16);
    assert HexValue(HexDigit(b / 16)) == b / 16;
    assert HexValue(HexDigit(b % 16)) == b % 16;
    assert t[3..] == rest;
  }

  lemma {:induction false} TripletsDecode(bs: seq<Byte>, rest: string)
    ensures PercentDecode(Triplets(bs) + rest) == bs + PercentDecode(rest)
    decreases |bs|
  {
    if |bs| == 0 {
      assert Triplets(bs) + rest == rest;
    } else {
      var b := bs[0];
      var t1 := Triplets(bs[1..]) + rest;
      calc {
        PercentDecode(Triplets(bs) + rest);
        { assert Triplets(bs) + rest == Triplet(b) + t1; }
        PercentDecode(Triplet(b) + t1);
        { TripletDecodes(b, t1); }
        [b] + PercentDecode(t1);
        { TripletsDecode(bs[1..], rest); }
        [b] + (bs[1..] + PercentDecode(rest));
        { assert [b] + bs[1..] == bs; }
        bs + PercentDecode(rest);
      }
    }
  }

  lemma QuoteCharDecodes(c: char, rest: string)
    ensures PercentDecode(QuoteChar(c) + rest) == Utf8Char(c) + PercentDecode(rest)
  {
    var t := QuoteChar(c) + rest;
    if Unreserved(c) {
      assert t[0] == c && t[1..] == rest;
    } else if c == ' ' {
      assert t[0] == '+' && t[1..] == rest;
    } else {
      TripletsDecode(Utf8Char(c), rest);
    }
  }

  lemma {:induction false} QuotePlusDecodesToUtf8(s: string)
    ensures PercentDecode(QuotePlus(s)) == Utf8(s)
    decreases |s|
  {
    if |s| > 0 {
      QuoteCharDecodes(s[0], QuotePlus(s[1..]));
      QuotePlusDecodesToUtf8(s[1..]);
    }
  }

  /** `unquote_plus(quote_plus(s)) == s` for every text. */
  lemma QuotePlusRoundTrip(s: string)
    ensures UnquotePlus(QuotePlus(s)) == Some(s)
  {
    QuotePlusDecodesToUtf8(s);
    Utf8RoundTrip(s);
  }
}
