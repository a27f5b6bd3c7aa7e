/**
  `urllib.parse.quote(name, safe='')`: the name is encoded as UTF-8 and every byte
  outside the unreserved set of section 2.3 of RFC 3986 (ASCII letters, digits and
  `-._~`) is written as `%` followed by two upper-case hexadecimal digits
  (section 2.1 of RFC 3986). `PercentDecode` is the inverse.
*/
module PercentEncoding {
  import opened Wrappers

  newtype byte = x: int | 0 <= x < 256

  /** The unreserved characters of section 2.3 of RFC 3986. */
  predicate IsUnreservedChar(c: char) {
    ('A' <= c <= 'Z') || ('a' <= c <= 'z') || ('0' <= c <= '9') || c == '-' || c == '.' || c == '_' || c == '~'
  }

  predicate IsUnreservedByte(b: byte) {
    b < 128 && IsUnreservedChar(b as int as char)
  }

  predicate IsHexDigit(c: char) {
    ('0' <= c <= '9') || ('A' <= c <= 'F') || ('a' <= c <= 'f')
  }

  /** Upper-case hexadecimal digit for `0 <= n < 16`, as Python's `%02X` writes it. */
  function HexDigit(n: int): (c: char)
    requires 0 <= n < 16
    ensures IsHexDigit(c) && IsUnreservedChar(c)
  {
    "0123456789ABCDEF"[n]
  }

  function HexValue(c: char): (r: Option<int>)
    ensures r.Some? <==> IsHexDigit(c)
    ensures r.Some? ==> 0 <= r.value < 16
  {
    if '0' <= c <= '9' then Some(c as int - '0' as int)
    else if 'A' <= c <= 'F' then Some(c as int - 'A' as int + 10)
    else if 'a' <= c <= 'f' then Some(c as int - 'a' as int + 10)
    else None
  }

  lemma HexRoundTrip(n: int)
    requires 0 <= n < 16
    ensures HexValue(HexDigit(n)) == Some(n)
  {
  }

  /** The encoding of one byte: itself if unreserved, otherwise `%XX`. */
  function EncodeByte(b: byte): (r: string)
    ensures IsUnreservedByte(b) ==> r == [b as int as char]
    ensures !IsUnreservedByte(b) ==> |r| == 3 && r[0] == '%' && IsHexDigit(r[1]) && IsHexDigit(r[2])
    ensures forall c :: c in r ==> IsUnreservedChar(c) || c == '%'
  {
    if IsUnreservedByte(b) then [b as int as char]
    else ['%', HexDigit(b as int / 16), HexDigit(b as int % 16)]
  }

  /** Every `%` of `s` starts a `%XX` triple. */
  predicate WellFormedEscapes(s: string) {
    forall i :: 0 <= i < |s| && s[i] == '%' ==> i + 2 < |s| && IsHexDigit(s[i + 1]) && IsHexDigit(s[i + 2])
  }

  /** `quote_from_bytes(bs, safe='')`. */
  function QuoteBytes(bs: seq<byte>): (r: string)
    ensures forall c :: c in r ==> IsUnreservedChar(c) || c == '%'
    ensures WellFormedEscapes(r)
  {
    if bs == [] then ""
    else
      var head := EncodeByte(bs[0]);
      var rest := QuoteBytes(bs[1..]);
      assert forall i :: |head| <= i < |head + rest| ==> (head + rest)[i] == rest[i - |head|];
      head + rest
  }

  /** UTF-8 encoding of one Unicode scalar value. */
  function Utf8EncodeChar(c: char): (r: seq<byte>)
    ensures 1 <= |r| <= 4
    ensures c as int < 0x80 ==> r == [c as int as byte]
    ensures c as int >= 0x80 ==> forall b :: b in r ==> b >= 0x80
  {
    var n := c as int;
    if n < 0x80 then [n as byte]
    else if n < 0x800 then [(0xC0 + n / 0x40) as byte, (0x80 + n % 0x40) as byte]
    else if n < 0x1_0000 then
      [(0xE0 + n / 0x1000) as byte, (0x80 + (n / 0x40) % 0x40) as byte, (0x80 + n % 0x40) as byte]
    else
      [(0xF0 + n / 0x4_0000) as byte, (0x80 + (n / 0x1000) % 0x40) as byte,
       (0x80 + (n / 0x40) % 0x40) as byte, (0x80 + n % 0x40) as byte]
  }

  /** `s.encode("utf-8")`. */
  function Utf8Encode(s: string): (r: seq<byte>)
    ensures |r| >= |s|
  {
    if s == [] then [] else Utf8EncodeChar(s[0]) + Utf8Encode(s[1..])
  }

  /** `market_hash_quote(name)`, that is `urllib.parse.quote(name, safe='')`. */
  function Quote(name: string): string {
    QuoteBytes(Utf8Encode(name))
  }

  /**
    Percent-decoding (section 2.1 of RFC 3986): `%XX` gives the byte XX, any other
    ASCII character gives itself; a stray `%` or a non-ASCII character is rejected.
  */
  function PercentDecode(s: string): Option<seq<byte>> {
    if s == [] then Some([])
    else if s[0] == '%' then
      if |s| < 3 then None
      else
        var hi :- HexValue(s[1]);
        var lo :- HexValue(s[2]);
        var rest :- PercentDecode(s[3..]);
        Some([(hi * 16 + lo) as byte] + rest)
    else if s[0] as int < 128 then
      var rest :- PercentDecode(s[1..]);
      Some([s[0] as int as byte] + rest)
    else None
  }

  lemma DecodeEncodedByte(b: byte, rest: string)
    ensures PercentDecode(EncodeByte(b) + rest) ==
            (match PercentDecode(rest) case None => None case Some(r) => Some([b] + r))
  {
    var s := EncodeByte(b) + rest;
    if IsUnreservedByte(b) {
      assert s[0] == b as int as char && s[1..] == rest;
    } else {
      assert s[0] == '%' && s[3..] == rest;
      HexRoundTrip(b as int / 16);
      HexRoundTrip(b as int % 16);
    }
  }

  /** Percent-decoding undoes the encoding of any byte string. */
  lemma {:induction false} DecodeQuoteBytes(bs: seq<byte>)
    ensures PercentDecode(QuoteBytes(bs)) == Some(bs)
  {
    if bs != [] {
      DecodeQuoteBytes(bs[1..]);
      DecodeEncodedByte(bs[0], QuoteBytes(bs[1..]));
      assert [bs[0]] + bs[1..] == bs;
    }
  }

  /**
    What `market_hash_quote` promises its callers: decoding gives back the UTF-8 bytes
    of the name, and no reserved or unsafe character (space, `|`, `/`, `&`, `=`, `?`,
    `#`, `+`) appears unescaped.
  */
  lemma QuoteProperties(name: string)
    ensures PercentDecode(Quote(name)) == Some(Utf8Encode(name))
    ensures forall c :: c in Quote(name) ==> IsUnreservedChar(c) || c == '%'
    ensures WellFormedEscapes(Quote(name))
    ensures forall c :: c in " |/&=?#+" ==> c !in Quote(name)
  {
    DecodeQuoteBytes(Utf8Encode(name));
    forall c | c in " |/&=?#+" ensures c !in Quote(name) {
      assert !IsUnreservedChar(c) && c != '%';
    }
  }

  /** ASCII names encode to their own code points, one byte per character. */
  lemma {:induction false} Utf8EncodeAscii(s: string)
    requires forall i :: 0 <= i < |s| ==> s[i] as int < 0x80
    ensures |Utf8Encode(s)| == |s|
    ensures forall i :: 0 <= i < |s| ==> Utf8Encode(s)[i] == s[i] as int as byte
  {
    if s != [] {
      Utf8EncodeAscii(s[1..]);
    }
  }

  /** A name made of unreserved characters only is its own encoding. */
  lemma {:induction false} QuoteUnreserved(s: string)
    requires forall i :: 0 <= i < |s| ==> IsUnreservedChar(s[i])
    ensures Quote(s) == s
  {
    if s != [] {
      QuoteUnreserved(s[1..]);
      assert Utf8EncodeChar(s[0]) == [s[0] as int as byte];
      assert Utf8Encode(s) == [s[0] as int as byte] + Utf8Encode(s[1..]);
      assert QuoteBytes(Utf8Encode(s)) == EncodeByte(Utf8Encode(s)[0]) + QuoteBytes(Utf8Encode(s)[1..]);
      assert Utf8Encode(s)[1..] == Utf8Encode(s[1..]);
      assert s == [s[0]] + s[1..];
    }
  }
}
