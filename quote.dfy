/** `urllib.parse.quote(s)` with its default `safe="/"`: the string is encoded
    as UTF-8 and every byte outside the unreserved set of section 2.3 of
    RFC 3986 (and other than `/`) is written as `%` and two upper-case hex
    digits, as section 2.1 of RFC 3986 describes. */
module UrlQuote {
  import opened Python

  type Byte = b: int | 0 <= b < 256

  /** ALPHA / DIGIT / "-" / "." / "_" / "~" (section 2.3 of RFC 3986). */
  predicate Unreserved(c: char)
  {
    'A' <= c <= 'Z' || 'a' <= c <= 'z' || '0' <= c <= '9' || c == '-' || c == '.' || c == '_' || c == '~'
  }

  /** The characters `quote` leaves as they are: the unreserved ones and `/`. */
  predicate Kept(c: char)
  {
    Unreserved(c) || c == '/'
  }

  /** A byte that `quote` copies unchanged: the ASCII code of a kept character. */
  predicate KeptByte(b: Byte)
  {
    b < 128 && Kept(b as char)
  }

  const HexDigits: string := "0123456789ABCDEF"

  predicate IsHexDigit(c: char)
  {
    '0' <= c <= '9' || 'A' <= c <= 'F' || 'a' <= c <= 'f'
  }

  function HexValue(c: char): (v: nat)
    requires IsHexDigit(c)
    ensures v < 16
  {
    if '0' <= c <= '9' then c as int - '0' as int
    else if 'A' <= c <= 'F' then c as int - 'A' as int + 10
    else c as int - 'a' as int + 10
  }

  lemma HexDigitValue(n: nat)
    requires n < 16
    ensures IsHexDigit(HexDigits[n]) && HexValue(HexDigits[n]) == n
    ensures Kept(HexDigits[n]) && HexDigits[n] != '%'
  {
  }

  /** The UTF-8 encoding of one Unicode scalar value. */
  function Utf8(c: char): (r: seq<Byte>)
    ensures 1 <= |r| <= 4
    ensures |r| == 1 <==> c as int < 128
    ensures |r| == 1 ==> r[0] == c as int
    ensures |r| > 1 ==> forall i :: 0 <= i < |r| ==> r[i] >= 128
  {
    var cp := c as int;
    if cp < 0x80 then [cp]
    else if cp < 0x800 then [0xC0 + cp / 0x40, 0x80 + cp % 0x40]
    else if cp < 0x1_0000 then [0xE0 + cp / 0x1000, 0x80 + (cp / 0x40) % 0x40, 0x80 + cp % 0x40]
    else [0xF0 + cp / 0x4_0000, 0x80 + (cp / 0x1000) % 0x40, 0x80 + (cp / 0x40) % 0x40, 0x80 + cp % 0x40]
  }

  /** `s.encode("utf-8")` */
  function Utf8Encode(s: string): seq<Byte>
  {
    if s == [] then [] else Utf8(s[0]) + Utf8Encode(s[1..])
  }

  /** One byte as `quote` writes it. */
  function EncodeByte(b: Byte): (r: string)
  {
    if KeptByte(b) then [b as char] else ['%', HexDigits[b / 16], HexDigits[b % 16]]
  }

  /** `quote_from_bytes(bs, safe="/")` */
  function PercentEncode(bs: seq<Byte>): string
  {
    if bs == [] then "" else EncodeByte(bs[0]) + PercentEncode(bs[1..])
  }

  /** `quote(s, safe="/")` */
  function Quote(s: string): string
  {
    PercentEncode(Utf8Encode(s))
  }

  /** The inverse of `PercentEncode`: reads kept characters as their ASCII
      bytes and `%XX` escapes as the byte they name; anything else is not
      an output of `PercentEncode` and decodes to `None`. */
  function PercentDecode(s: string): Option<seq<Byte>>
  {
    if s == [] then Some([])
    else if s[0] == '%' then
      if |s| >= 3 && IsHexDigit(s[1]) && IsHexDigit(s[2]) then
        match PercentDecode(s[3..])
        case None => None
        case Some(rest) => Some([16 * HexValue(s[1]) + HexValue(s[2])] + rest)
      else None
    else if s[0] as int < 128 && Kept(s[0]) then
      match PercentDecode(s[1..])
      case None => None
      case Some(rest) => Some([s[0] as int] + rest)
    else None
  }

  /** Decoding what `PercentEncode` wrote gives back every byte, in order. */
  lemma {:induction false} DecodeEncode(bs: seq<Byte>)
    ensures PercentDecode(PercentEncode(bs)) == Some(bs)
  {
    if bs != [] {
      var b := bs[0];
      var s := PercentEncode(bs);
      DecodeEncode(bs[1..]);
      assert s == EncodeByte(b) + PercentEncode(bs[1..]);
      if KeptByte(b) {
        assert s[1..] == PercentEncode(bs[1..]);
      } else {
        HexDigitValue(b / 16);
        HexDigitValue(b % 16);
        assert s[3..] == PercentEncode(bs[1..]);
      }
      assert [b] + bs[1..] == bs;
    }
  }

  /** Every character `PercentEncode` writes is kept or `%`, and every `%`
      opens an escape: it is followed by two upper-case hex digits. */
  lemma {:induction false} EncodeAlphabet(bs: seq<Byte>)
    ensures forall i :: 0 <= i < |PercentEncode(bs)| ==> Kept(PercentEncode(bs)[i]) || PercentEncode(bs)[i] == '%'
    ensures forall i :: 0 <= i < |PercentEncode(bs)| && PercentEncode(bs)[i] == '%' ==>
      i + 2 < |PercentEncode(bs)| && PercentEncode(bs)[i + 1] in HexDigits && PercentEncode(bs)[i + 2] in HexDigits
  {
    if bs != [] {
      var b := bs[0];
      var e := EncodeByte(b);
      var rest := PercentEncode(bs[1..]);
      var q := PercentEncode(bs);
      EncodeAlphabet(bs[1..]);
      assert q == e + rest;
      if !KeptByte(b) {
        HexDigitValue(b / 16);
        HexDigitValue(b % 16);
      }
      forall i | |e| <= i < |q|
        ensures q[i] == rest[i - |e|]
      {
      }
    }
  }

  /** A string made of kept ASCII characters is its own quotation. */
  lemma {:induction false} QuoteKeepsSafeText(s: string)
    requires forall i :: 0 <= i < |s| ==> s[i] as int < 128 && Kept(s[i])
    ensures Quote(s) == s
  {
    if s != [] {
      QuoteKeepsSafeText(s[1..]);
      assert Utf8Encode(s) == [s[0] as int] + Utf8Encode(s[1..]);
      assert PercentEncode(Utf8Encode(s)) == [s[0]] + PercentEncode(Utf8Encode(s[1..]));
      assert [s[0]] + s[1..] == s;
    }
  }

  /** `quote` never lets a space, `?`, `&` or `#` of the query through
      unescaped, and each `%` it writes opens a `%XX` escape with upper-case
      hex digits, so the result is safe to place after `?q=`. */
  lemma QuoteAlphabet(s: string)
    ensures forall i :: 0 <= i < |Quote(s)| ==> Kept(Quote(s)[i]) || Quote(s)[i] == '%'
    ensures forall i :: 0 <= i < |Quote(s)| && Quote(s)[i] == '%' ==>
      i + 2 < |Quote(s)| && Quote(s)[i + 1] in HexDigits && Quote(s)[i + 2] in HexDigits
  {
    EncodeAlphabet(Utf8Encode(s));
  }
}
