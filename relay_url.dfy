/** The image-URL normaliser of the Python relay: a path that holds non-ASCII
    characters and no '%' is UTF-8 encoded and percent-encoded (section 2.1 of
    RFC 3986, as urllib.parse.quote does with '/' kept), and the URL is rebuilt
    from scheme, netloc, the encoded path and a non-empty query. */
module RelayUrl {
  import opened Common

  newtype byte = x: int | 0 <= x < 256

  // ---------------------------------------------------------------------
  // UTF-8 (section 3 of RFC 3629)
  // ---------------------------------------------------------------------

  /** The UTF-8 encoding of one Unicode scalar value. */
  function EncodeChar(c: char): (bs: seq<byte>)
    ensures 1 <= |bs| <= 4
    ensures (|bs| == 1) == (c as int < 0x80)
    ensures |bs| == 1 ==> bs[0] as int == c as int
    ensures |bs| > 1 ==> bs[0] >= 0xC0 && forall i :: 1 <= i < |bs| ==> IsCont(bs[i])
  {
    var v := c as int;
    if v < 0x80 then [v as byte]
    else if v < 0x800 then [(0xC0 + v / 64) as byte, (0x80 + v % 64) as byte]
    else if v < 0x10000 then
      [(0xE0 + v / 4096) as byte, (0x80 + (v / 64) % 64) as byte, (0x80 + v % 64) as byte]
    else
      [(0xF0 + v / 262144) as byte, (0x80 + (v / 4096) % 64) as byte,
       (0x80 + (v / 64) % 64) as byte, (0x80 + v % 64) as byte]
  }

  /** str.encode("utf-8"). */
  function Utf8Encode(s: string): seq<byte>
  {
    if |s| == 0 then [] else EncodeChar(s[0]) + Utf8Encode(s[1..])
  }

  predicate IsCont(b: byte)
  {
    0x80 <= b < 0xC0
  }

  /** Decodes the character at the front of `bs`, with the number of bytes it
      takes; None for a malformed, overlong or surrogate sequence. */
  function DecodeFirst(bs: seq<byte>): (r: Option<(char, nat)>)
    requires |bs| > 0
    ensures r.Some? ==> 1 <= r.value.1 <= |bs|
  {
    var b0 := bs[0] as int;
    if b0 < 0x80 then Some((b0 as char, 1))
    else if b0 < 0xC0 then None
    else if b0 < 0xE0 then
      if |bs| < 2 || !IsCont(bs[1]) then None
      else
        var v := (b0 - 0xC0) * 64 + (bs[1] as int - 0x80);
        if v < 0x80 then None else Some((v as char, 2))
    else if b0 < 0xF0 then
      if |bs| < 3 || !IsCont(bs[1]) || !IsCont(bs[2]) then None
      else
        var v := (b0 - 0xE0) * 4096 + (bs[1] as int - 0x80) * 64 + (bs[2] as int - 0x80);
        if v < 0x800 || 0xD800 <= v < 0xE000 then None else Some((v as char, 3))
    else if b0 < 0xF8 then
      if |bs| < 4 || !IsCont(bs[1]) || !IsCont(bs[2]) || !IsCont(bs[3]) then None
      else
        var v := (b0 - 0xF0) * 262144 + (bs[1] as int - 0x80) * 4096
                 + (bs[2] as int - 0x80) * 64 + (bs[3] as int - 0x80);
        if v < 0x10000 || v >= 0x110000 then None else Some((v as char, 4))
    else None
  }

  /** bytes.decode("utf-8") in strict mode. */
  function Utf8Decode(bs: seq<byte>): Option<string>
    decreases |bs|
  {
    if |bs| == 0 then Some([])
    else
      match DecodeFirst(bs)
      case None => None
      case Some((c, k)) =>
        match Utf8Decode(bs[k..])
        case None => None
        case Some(rest) => Some([c] + rest)
  }

  lemma DecodeTwo(v: int, bs: seq<byte>)
    requires 0x80 <= v < 0x800 && |bs| >= 2
    requires bs[0] as int == 0xC0 + v / 64 && bs[1] as int == 0x80 + v % 64
    ensures DecodeFirst(bs) == Some((v as char, 2))
  {
    assert (v / 64) * 64 + v % 64 == v;
  }

  lemma DecodeThree(v: int, bs: seq<byte>)
    requires 0x800 <= v < 0x10000 && !(0xD800 <= v < 0xE000) && |bs| >= 3
    requires bs[0] as int == 0xE0 + v / 4096
    requires bs[1] as int == 0x80 + (v / 64) % 64 && bs[2] as int == 0x80 + v % 64
    ensures DecodeFirst(bs) == Some((v as char, 3))
  {
    var a, b, c := v / 4096, (v / 64) % 64, v % 64;
    assert v / 64 == a * 64 + b;
    assert a * 4096 + b * 64 + c == v;
  }

  lemma DecodeFour(v: int, bs: seq<byte>)
    requires 0x10000 <= v < 0x110000 && |bs| >= 4
    requires bs[0] as int == 0xF0 + v / 262144
    requires bs[1] as int == 0x80 + (v / 4096) % 64
    requires bs[2] as int == 0x80 + (v / 64) % 64 && bs[3] as int == 0x80 + v % 64
    ensures DecodeFirst(bs) == Some((v as char, 4))
  {
    var a, b, c, d := v / 262144, (v / 4096) % 64, (v / 64) % 64, v % 64;
    assert v / 4096 == a * 64 + b;
    assert v / 64 == (v / 4096) * 64 + c;
    assert a * 262144 + b * 4096 + c * 64 + d == v;
  }

  lemma DecodeEncodedChar(c: char, rest: seq<byte>)
    ensures DecodeFirst(EncodeChar(c) + rest) == Some((c, |EncodeChar(c)|))
  {
    var v := c as int;
    var e := EncodeChar(c);
    var bs := e + rest;
    assert forall i :: 0 <= i < |e| ==> bs[i] == e[i];
    if v < 0x80 {
    } else if v < 0x800 {
      DecodeTwo(v, bs);
    } else if v < 0x10000 {
      DecodeThree(v, bs);
    } else {
      DecodeFour(v, bs);
    }
  }

  /** Decoding undoes encoding. */
  lemma {:induction false} Utf8RoundTrip(s: string)
    ensures Utf8Decode(Utf8Encode(s)) == Some(s)
  {
    if |s| > 0 {
      var e := EncodeChar(s[0]);
      var bs := Utf8Encode(s);
      assert bs == e + Utf8Encode(s[1..]);
      DecodeEncodedChar(s[0], Utf8Encode(s[1..]));
      assert bs[|e|..] == Utf8Encode(s[1..]);
      Utf8RoundTrip(s[1..]);
      assert [s[0]] + s[1..] == s;
    }
  }

  // ---------------------------------------------------------------------
  // Percent-encoding (urllib.parse.quote with safe='/')
  // ---------------------------------------------------------------------

  /** The bytes quote never encodes: ASCII letters, digits and "_.-~". */
  predicate IsAlwaysSafe(b: byte)
  {
    ('A' as byte <= b <= 'Z' as byte) || ('a' as byte <= b <= 'z' as byte)
    || ('0' as byte <= b <= '9' as byte)
    || b == '_' as byte || b == '.' as byte || b == '-' as byte || b == '~' as byte
  }

  predicate IsSafe(b: byte)
  {
    IsAlwaysSafe(b) || b == '/' as byte
  }

  function HexDigit(d: int): (c: char)
    requires 0 <= d < 16
    ensures IsUpperHex(c)
  {
    if d < 10 then DigitChar(d) else ('A' as int + d - 10) as char
  }

  predicate IsUpperHex(c: char)
  {
    '0' <= c <= '9' || 'A' <= c <= 'F'
  }

  /** The value of a hexadecimal digit in either case. */
  function HexValue(c: char): Option<int>
  {
    if '0' <= c <= '9' then Some(c as int - '0' as int)
    else if 'A' <= c <= 'F' then Some(c as int - 'A' as int + 10)
    else if 'a' <= c <= 'f' then Some(c as int - 'a' as int + 10)
    else None
  }

  function QuoteByte(b: byte): string
  {
    if IsSafe(b) then [b as int as char]
    else ['%', HexDigit(b as int / 16), HexDigit(b as int % 16)]
  }

  function QuoteBytes(bs: seq<byte>): string
  {
    if |bs| == 0 then "" else QuoteByte(bs[0]) + QuoteBytes(bs[1..])
  }

  /** urllib.parse.quote(path): UTF-8 bytes, safe bytes kept, others as %XX. */
  function Quote(path: string): string
  {
    QuoteBytes(Utf8Encode(path))
  }

  /** The bytes that percent-decoding yields: each %XX triple gives one byte,
      any other character (a '%' without two hex digits included) its UTF-8 bytes. */
  function UnquoteBytes(s: string): seq<byte>
    decreases |s|
  {
    if |s| == 0 then []
    else if s[0] == '%' && |s| >= 3 && HexValue(s[1]).Some? && HexValue(s[2]).Some? then
      [(HexValue(s[1]).value * 16 + HexValue(s[2]).value) as byte] + UnquoteBytes(s[3..])
    else EncodeChar(s[0]) + UnquoteBytes(s[1..])
  }

  /** urllib.parse.unquote, with undecodable byte runs reported as None
      where Python substitutes U+FFFD for them; the two agree on every
      string that quote produces, which is where this is used. */
  function Unquote(s: string): Option<string>
  {
    Utf8Decode(UnquoteBytes(s))
  }

  lemma {:induction false} UnquoteQuoteBytes(bs: seq<byte>)
    ensures UnquoteBytes(QuoteBytes(bs)) == bs
  {
    if |bs| > 0 {
      var q := QuoteByte(bs[0]);
      var s := QuoteBytes(bs);
      assert s == q + QuoteBytes(bs[1..]);
      if IsSafe(bs[0]) {
        assert s[0] == bs[0] as int as char && s[1..] == QuoteBytes(bs[1..]);
      } else {
        var b := bs[0] as int;
        assert s[..3] == q && s[3..] == QuoteBytes(bs[1..]);
        assert HexValue(s[1]) == Some(b / 16) && HexValue(s[2]) == Some(b % 16);
      }
      UnquoteQuoteBytes(bs[1..]);
      assert [bs[0]] + bs[1..] == bs;
    }
  }

  /** Percent-decoding the quoted path gives back the original path. */
  lemma QuoteRoundTrip(path: string)
    ensures Unquote(Quote(path)) == Some(path)
  {
    UnquoteQuoteBytes(Utf8Encode(path));
    Utf8RoundTrip(path);
  }

  /** A string made only of safe ASCII characters and %XX triples (upper-case hex). */
  predicate WellQuoted(s: string)
    decreases |s|
  {
    if |s| == 0 then true
    else if s[0] == '%' then |s| >= 3 && IsUpperHex(s[1]) && IsUpperHex(s[2]) && WellQuoted(s[3..])
    else s[0] as int < 256 && IsSafe(s[0] as int as byte) && WellQuoted(s[1..])
  }

  lemma {:induction false} QuoteBytesWellQuoted(bs: seq<byte>)
    ensures WellQuoted(QuoteBytes(bs))
    ensures forall i :: 0 <= i < |QuoteBytes(bs)| ==> QuoteBytes(bs)[i] as int < 0x80
  {
    if |bs| > 0 {
      var q := QuoteByte(bs[0]);
      var s := QuoteBytes(bs);
      QuoteBytesWellQuoted(bs[1..]);
      assert s == q + QuoteBytes(bs[1..]);
      if IsSafe(bs[0]) {
        assert s[1..] == QuoteBytes(bs[1..]);
      } else {
        assert s[3..] == QuoteBytes(bs[1..]);
      }
    }
  }

  // ---------------------------------------------------------------------
  // The normaliser (routes.py lines 23-33)
  // ---------------------------------------------------------------------

  /** The six components urllib.parse.urlparse returns. */
  datatype UrlParts = UrlParts(scheme: string, netloc: string, path: string,
                               params: string, query: string, fragment: string)

  predicate HasNonAscii(s: string)
  {
    exists i :: 0 <= i < |s| && s[i] as int > 127
  }

  /** `'%' not in path and any(ord(c) > 127 for c in path)`. */
  predicate NeedsEncoding(path: string)
  {
    !HasChar(path, '%') && HasNonAscii(path)
  }

  /** The URL the relay downloads, given the URL it received and its parse. */
  function Normalise(url: string, parts: UrlParts): string
  {
    if NeedsEncoding(parts.path) then
      parts.scheme + "://" + parts.netloc + Quote(parts.path)
      + (if parts.query != "" then "?" + parts.query else "")
    else url
  }

  /** A path with a '%' or with only ASCII characters leaves the URL untouched. */
  lemma NormaliseKeeps(url: string, parts: UrlParts)
    requires HasChar(parts.path, '%') || forall i :: 0 <= i < |parts.path| ==> parts.path[i] as int <= 127
    ensures Normalise(url, parts) == url
  {
  }

  /** A rewritten URL is scheme "://" netloc, then an encoded path that is all
      ASCII, made of safe characters and %XX triples and decoding to the original
      path, then "?query" exactly when the query is non-empty; params and
      fragment do not appear. */
  lemma NormaliseRewrites(url: string, parts: UrlParts)
    requires NeedsEncoding(parts.path)
    ensures var head := parts.scheme + "://" + parts.netloc;
            var enc := Quote(parts.path);
            var r := Normalise(url, parts);
            && StartsWith(r, head + enc)
            && WellQuoted(enc)
            && (forall i :: 0 <= i < |enc| ==> enc[i] as int < 0x80)
            && Unquote(enc) == Some(parts.path)
            && (parts.query == "" ==> r == head + enc)
            && (parts.query != "" ==> r == head + enc + "?" + parts.query)
  {
    QuoteBytesWellQuoted(Utf8Encode(parts.path));
    QuoteRoundTrip(parts.path);
    var head := parts.scheme + "://" + parts.netloc;
    var enc := Quote(parts.path);
    var r := Normalise(url, parts);
    assert r[..|head + enc|] == head + enc;
  }
}
