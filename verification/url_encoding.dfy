/** Percent-encoding of query values as src/services/api.ts produces them:
    `URLSearchParams` (application/x-www-form-urlencoded) and `encodeURIComponent`,
    both over the UTF-8 bytes of the text, with the decoding that undoes them. */
module UrlEncoding {

  type Byte = x: int | 0 <= x < 256

  /** UTF-8 bytes of one Unicode scalar value. */
  function Utf8Char(c: char): (r: seq<Byte>)
    ensures 1 <= |r| <= 4
    ensures (c as int < 0x80) <==> |r| == 1
    ensures |r| == 1 ==> r[0] == c as int
  {
    var cp := c as int;
    if cp < 0x80 then [cp]
    else if cp < 0x800 then [0xC0 + cp / 64, 0x80 + cp % 64]
    else if cp < 0x10000 then [0xE0 + cp / 4096, 0x80 + (cp / 64) % 64, 0x80 + cp % 64]
    else [0xF0 + cp / 262144, 0x80 + (cp / 4096) % 64, 0x80 + (cp / 64) % 64, 0x80 + cp % 64]
  }

  /** UTF-8 bytes of a string. */
  function Utf8(s: string): seq<Byte>
    decreases |s|
  {
    if |s| == 0 then [] else Utf8Char(s[0]) + Utf8(s[1..])
  }

  /** Is `cp` a Unicode scalar value, i.e. a Dafny `char`? */
  predicate IsScalar(cp: int) {
    (0 <= cp < 0xD800) || (0xE000 <= cp < 0x11_0000)
  }

  /** Decodes UTF-8, stopping at the first malformed sequence. */
  function DecodeUtf8(bs: seq<Byte>): string
    decreases |bs|
  {
    if |bs| == 0 then []
    else
      var b: int := bs[0];
      var n := if b < 0x80 then 1 else if b < 0xE0 then 2 else if b < 0xF0 then 3 else 4;
      if |bs| < n then []
      else
        var cp :=
          if n == 1 then b
          else if n == 2 then (b - 0xC0) * 64 + Low6(bs[1])
          else if n == 3 then (b - 0xE0) * 4096 + Low6(bs[1]) * 64 + Low6(bs[2])
          else (b - 0xF0) * 262144 + Low6(bs[1]) * 4096 + Low6(bs[2]) * 64 + Low6(bs[3]);
        if IsScalar(cp) then [cp as char] + DecodeUtf8(bs[n..]) else []
  }

  /** Payload of a continuation byte. */
  function Low6(b: Byte): int {
    b as int - 0x80
  }

  lemma Split64(x: nat)
    ensures x == (x / 64) * 64 + x % 64
    ensures x / 4096 == (x / 64) / 64
    ensures x / 262144 == (x / 4096) / 64
  {
  }

  /** Decoding the bytes of one character yields that character and continues after it. */
  lemma DecodeUtf8Char(c: char, rest: seq<Byte>)
    ensures DecodeUtf8(Utf8Char(c) + rest) == [c] + DecodeUtf8(rest)
  {
    var cp := c as int;
    var bs := Utf8Char(c) + rest;
    Split64(cp);
    Split64(cp / 64);
    Split64(cp / 4096);
    if cp < 0x80 {
      assert bs[1..] == rest;
    } else if cp < 0x800 {
      assert bs[2..] == rest;
      assert (bs[0] as int - 0xC0) * 64 + Low6(bs[1]) == cp;
    } else if cp < 0x10000 {
      assert bs[3..] == rest;
      assert (bs[0] as int - 0xE0) * 4096 + Low6(bs[1]) * 64 + Low6(bs[2]) == cp;
    } else {
      assert bs[4..] == rest;
      assert (bs[0] as int - 0xF0) * 262144 + Low6(bs[1]) * 4096 + Low6(bs[2]) * 64 + Low6(bs[3]) == cp;
    }
  }

  /** UTF-8 decoding undoes UTF-8 encoding. */
  lemma {:induction false} DecodeUtf8RoundTrip(s: string)
    ensures DecodeUtf8(Utf8(s)) == s
    decreases |s|
  {
    if |s| > 0 {
      DecodeUtf8Char(s[0], Utf8(s[1..]));
      DecodeUtf8RoundTrip(s[1..]);
    }
  }

  /** The two encoders of the source. */
  datatype Mode = FormUrlEncoded | UriComponent

  /** Bytes written as themselves: `*-._` and alphanumerics for form encoding; in addition
      `!~'()` for `encodeURIComponent`. */
  predicate Unreserved(mode: Mode, b: Byte) {
    || (0x30 <= b <= 0x39) || (0x41 <= b <= 0x5A) || (0x61 <= b <= 0x7A)
    || b == 0x2A || b == 0x2D || b == 0x2E || b == 0x5F
    || (mode == UriComponent && (b == 0x21 || b == 0x7E || b == 0x27 || b == 0x28 || b == 0x29))
  }

  function HexDigit(d: nat): (c: char)
    requires d < 16
  {
    "0123456789ABCDEF"[d]
  }

  predicate IsHex(c: char) {
    ('0' <= c <= '9') || ('A' <= c <= 'F') || ('a' <= c <= 'f')
  }

  function HexValue(c: char): (r: nat)
    requires IsHex(c)
    ensures r < 16
  {
    if '0' <= c <= '9' then c as int - '0' as int
    else if 'A' <= c <= 'F' then c as int - 'A' as int + 10
    else c as int - 'a' as int + 10
  }

  lemma HexRoundTrip(d: nat)
    requires d < 16
    ensures IsHex(HexDigit(d)) && HexValue(HexDigit(d)) == d
  {
  }

  /** One byte as query text: itself, `+` for a space in form encoding, else `%XX`. */
  function EncodeByte(mode: Mode, b: Byte): (r: string)
    ensures |r| == 1 || |r| == 3
    ensures forall i :: 0 <= i < |r| ==> r[i] !in "&=?#"
  {
    if mode == FormUrlEncoded && b == 0x20 then "+"
    else if Unreserved(mode, b) then [b as char]
    else ['%', HexDigit(b / 16), HexDigit(b % 16)]
  }

  function EncodeBytes(mode: Mode, bs: seq<Byte>): (r: string)
    ensures forall i :: 0 <= i < |r| ==> r[i] !in "&=?#"
    decreases |bs|
  {
    if |bs| == 0 then "" else EncodeByte(mode, bs[0]) + EncodeBytes(mode, bs[1..])
  }

  /** `encodeURIComponent(s)` or the value part written by `URLSearchParams.toString()`.
      The result never contains the characters that delimit a query. */
  function Encode(mode: Mode, s: string): (r: string)
    ensures forall i :: 0 <= i < |r| ==> r[i] !in "&=?#"
  {
    EncodeBytes(mode, Utf8(s))
  }

  /** Query text back to bytes: `%XX` is a byte, `+` is a space, any other character
      stands for its own UTF-8 bytes. */
  function PercentDecode(t: string): seq<Byte>
    decreases |t|
  {
    if |t| == 0 then []
    else if t[0] == '%' && |t| >= 3 && IsHex(t[1]) && IsHex(t[2]) then
      [HexValue(t[1]) * 16 + HexValue(t[2])] + PercentDecode(t[3..])
    else if t[0] == '+' then [0x20] + PercentDecode(t[1..])
    else Utf8Char(t[0]) + PercentDecode(t[1..])
  }

  lemma DecodeByte(mode: Mode, b: Byte, rest: string)
    ensures PercentDecode(EncodeByte(mode, b) + rest) == [b] + PercentDecode(rest)
  {
    var t := EncodeByte(mode, b) + rest;
    if mode == FormUrlEncoded && b == 0x20 {
      assert t[1..] == rest;
    } else if Unreserved(mode, b) {
      assert t[1..] == rest;
    } else {
      HexRoundTrip(b / 16);
      HexRoundTrip(b % 16);
      assert t[3..] == rest;
    }
  }

  lemma {:induction false} PercentDecodeRoundTrip(mode: Mode, bs: seq<Byte>)
    ensures PercentDecode(EncodeBytes(mode, bs)) == bs
    decreases |bs|
  {
    if |bs| > 0 {
      DecodeByte(mode, bs[0], EncodeBytes(mode, bs[1..]));
      PercentDecodeRoundTrip(mode, bs[1..]);
    }
  }

  /** Decoding query text: percent-decoding followed by UTF-8 decoding. */
  function Decode(t: string): string {
    DecodeUtf8(PercentDecode(t))
  }

  /** Either encoding loses nothing: decoding gives the original text back. */
  lemma DecodeEncode(mode: Mode, s: string)
    ensures Decode(Encode(mode, s)) == s
  {
    PercentDecodeRoundTrip(mode, Utf8(s));
    DecodeUtf8RoundTrip(s);
  }

  /** ASCII letters and digits only. */
  predicate Alphanumeric(s: string) {
    forall i :: 0 <= i < |s| ==> ('a' <= s[i] <= 'z') || ('A' <= s[i] <= 'Z') || ('0' <= s[i] <= '9')
  }

  /** Plain ASCII letters and digits pass through both encoders unchanged. */
  lemma {:induction false} AlphanumericUnchanged(mode: Mode, s: string)
    requires Alphanumeric(s)
    ensures Encode(mode, s) == s
    decreases |s|
  {
    if |s| > 0 {
      AlphanumericUnchanged(mode, s[1..]);
      assert [s[0]] + s[1..] == s;
    }
  }
}
