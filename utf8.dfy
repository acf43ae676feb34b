/** The bytes of a Go string. Go's len(s) and s[i:j] count bytes of the
    UTF-8 encoding, while a Dafny string counts characters: this module
    relates the two for the hosts the router slices. */
module Utf8 {

  newtype byte = x: int | 0 <= x < 0x100

  /** Every character is in the one-byte (ASCII) range. */
  predicate IsAscii(s: string)
  {
    forall i :: 0 <= i < |s| ==> s[i] as int < 0x80
  }

  /** utf8.EncodeRune: one to four bytes; a single byte exactly for ASCII,
      equal to the character; otherwise a lead byte of at least 0xC0
      followed by continuation bytes in 0x80 .. 0xBF. */
  function EncodeRune(c: char): (b: seq<byte>)
    ensures 1 <= |b| <= 4
    ensures |b| == 1 <==> c as int < 0x80
    ensures |b| == 1 ==> b[0] as int == c as int
    ensures |b| > 1 ==> b[0] >= 0xC0 && forall i :: 1 <= i < |b| ==> 0x80 <= b[i] < 0xC0
  {
    var n := c as int;
    if n < 0x80 then [n as byte]
    else if n < 0x800 then [(0xC0 + n / 0x40) as byte, (0x80 + n % 0x40) as byte]
    else if n < 0x1_0000 then
      [(0xE0 + n / 0x1000) as byte, (0x80 + n / 0x40 % 0x40) as byte, (0x80 + n % 0x40) as byte]
    else
      [(0xF0 + n / 0x4_0000) as byte, (0x80 + n / 0x1000 % 0x40) as byte,
       (0x80 + n / 0x40 % 0x40) as byte, (0x80 + n % 0x40) as byte]
  }

  /** The UTF-8 bytes of `s`: at least one and at most four per character,
      exactly one per character for ASCII text. */
  function Encode(s: string): (b: seq<byte>)
    ensures |s| <= |b| <= 4 * |s|
    ensures IsAscii(s) ==> |b| == |s|
    decreases |s|
  {
    if |s| == 0 then [] else EncodeRune(s[0]) + Encode(s[1..])
  }

  /** utf8.RuneLen: how many bytes EncodeRune writes for `c`. */
  function RuneLen(c: char): (n: nat)
    ensures 1 <= n <= 4
    ensures n == 1 <==> c as int < 0x80
  {
    var k := c as int;
    if k < 0x80 then 1 else if k < 0x800 then 2 else if k < 0x1_0000 then 3 else 4
  }

  /** len(s) of a Go string: the number of UTF-8 bytes of `s`. */
  function ByteLen(s: string): (n: nat)
    ensures |s| <= n <= 4 * |s|
    decreases |s|
  {
    if |s| == 0 then 0 else RuneLen(s[0]) + ByteLen(s[1..])
  }

  /** ASCII text has one byte per character. */
  lemma {:induction false} AsciiByteLen(s: string)
    ensures IsAscii(s) ==> ByteLen(s) == |s|
    decreases |s|
  {
    if |s| > 0 && IsAscii(s) {
      assert IsAscii(s[1..]);
      AsciiByteLen(s[1..]);
    }
  }

  /** ByteLen counts exactly the bytes Encode writes. */
  lemma {:induction false} ByteLenIsEncodedLength(s: string)
    ensures ByteLen(s) == |Encode(s)|
    decreases |s|
  {
    if |s| > 0 {
      ByteLenIsEncodedLength(s[1..]);
    }
  }

  /** For an ASCII pattern `p`, comparing the first |p| bytes of `s` with
      `p`'s bytes is comparing the first |p| characters: no multi-byte
      character starts with, or continues in, an ASCII byte. */
  lemma AsciiPrefix(s: string, p: string)
    requires IsAscii(p) && |p| <= |Encode(s)|
    ensures Encode(s)[..|p|] == Encode(p) <==> |p| <= |s| && s[..|p|] == p
  {
    if Encode(s)[..|p|] == Encode(p) {
      BytePrefixIsCharPrefix(s, p);
    }
    if |p| <= |s| && s[..|p|] == p {
      CharPrefixIsBytePrefix(s, p);
    }
  }

  /** The first byte of a non-empty string is ASCII exactly when its first
      character is, and then it is that character alone. */
  lemma LeadByte(s: string)
    requires |s| > 0
    ensures Encode(s)[0] < 0x80 <==> s[0] as int < 0x80
    ensures s[0] as int < 0x80 ==> Encode(s)[0] as int == s[0] as int && Encode(s)[1..] == Encode(s[1..])
  {
    assert Encode(s) == EncodeRune(s[0]) + Encode(s[1..]);
  }

  /** Bytes matching an ASCII pattern are characters matching it. */
  lemma {:induction false} BytePrefixIsCharPrefix(s: string, p: string)
    requires IsAscii(p) && |p| <= |Encode(s)| && Encode(s)[..|p|] == Encode(p)
    ensures |p| <= |s| && s[..|p|] == p
    decreases |p|
  {
    if |p| > 0 {
      var k := |p| - 1;
      LeadByte(p);
      LeadByte(s);
      assert Encode(s[1..])[..k] == Encode(s)[..|p|][1..];
      assert IsAscii(p[1..]);
      BytePrefixIsCharPrefix(s[1..], p[1..]);
      assert s[..|p|] == [s[0]] + s[1..][..k];
    }
  }

  /** Characters matching an ASCII pattern are bytes matching it. */
  lemma {:induction false} CharPrefixIsBytePrefix(s: string, p: string)
    requires IsAscii(p) && |p| <= |s| && s[..|p|] == p
    ensures |p| <= |Encode(s)| && Encode(s)[..|p|] == Encode(p)
    decreases |p|
  {
    if |p| > 0 {
      var k := |p| - 1;
      LeadByte(p);
      LeadByte(s);
      assert s[1..][..k] == p[1..];
      assert IsAscii(p[1..]);
      CharPrefixIsBytePrefix(s[1..], p[1..]);
      assert Encode(s)[..|p|] == [Encode(s)[0]] + Encode(s[1..])[..k];
      assert Encode(p) == [Encode(p)[0]] + Encode(p[1..]);
    }
  }
}
