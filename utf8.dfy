/**
 * UTF-8 as RFC 3629 section 3 defines it, enough to give `len(s.encode('utf-8'))`:
 * the size gates of both clients compare this byte length with a threshold.
 * A Dafny `char` is a Unicode scalar value, so every string here is encodable.
 */
module Utf8 {

  newtype byte = x: int | 0 <= x < 256

  /** Number of bytes RFC 3629 assigns to the code point of `c`. */
  function Width(c: char): (w: nat)
    ensures 1 <= w <= 4
  {
    var n := c as int;
    if n < 0x80 then 1 else if n < 0x800 then 2 else if n < 0x1_0000 then 3 else 4
  }

  /** The encoding of one character (the table of RFC 3629 section 3). */
  function EncodeChar(c: char): (r: seq<byte>)
    ensures |r| == Width(c)
  {
    var n := c as int;
    if n < 0x80 then
      [n as byte]
    else if n < 0x800 then
      [(0xC0 + n / 0x40) as byte, (0x80 + n % 0x40) as byte]
    else if n < 0x1_0000 then
      [(0xE0 + n / 0x1000) as byte, (0x80 + (n / 0x40) % 0x40) as byte, (0x80 + n % 0x40) as byte]
    else
      [(0xF0 + n / 0x4_0000) as byte, (0x80 + (n / 0x1000) % 0x40) as byte,
       (0x80 + (n / 0x40) % 0x40) as byte, (0x80 + n % 0x40) as byte]
  }

  /** `s.encode('utf-8')` */
  function Encode(s: string): seq<byte>
  {
    if s == [] then [] else EncodeChar(s[0]) + Encode(s[1..])
  }

  /** `len(s.encode('utf-8'))` */
  function ByteLength(s: string): nat
  {
    |Encode(s)|
  }

  /** The width a lead byte announces, 0 for a byte that cannot start a character. */
  function LeadWidth(b: byte): nat
  {
    if b < 0x80 then 1
    else if b < 0xC0 then 0
    else if b < 0xE0 then 2
    else if b < 0xF0 then 3
    else if b < 0xF8 then 4
    else 0
  }

  predicate IsContinuation(b: byte)
  {
    0x80 <= b < 0xC0
  }

  /** The code point the payload bits of one encoded character spell. */
  function Assemble(bs: seq<byte>): int
    requires 1 <= |bs| <= 4
  {
    if |bs| == 1 then bs[0] as int
    else if |bs| == 2 then (bs[0] as int - 0xC0) * 0x40 + (bs[1] as int - 0x80)
    else if |bs| == 3 then
      ((bs[0] as int - 0xE0) * 0x40 + (bs[1] as int - 0x80)) * 0x40 + (bs[2] as int - 0x80)
    else
      (((bs[0] as int - 0xF0) * 0x40 + (bs[1] as int - 0x80)) * 0x40 + (bs[2] as int - 0x80)) * 0x40
        + (bs[3] as int - 0x80)
  }

  /**
   * Each encoded character is well formed: its lead byte announces its length,
   * the other bytes are continuation bytes, and its payload bits are the code point.
   */
  lemma EncodeCharDecodes(c: char)
    ensures LeadWidth(EncodeChar(c)[0]) == |EncodeChar(c)|
    ensures forall i :: 1 <= i < |EncodeChar(c)| ==> IsContinuation(EncodeChar(c)[i])
    ensures Assemble(EncodeChar(c)) == c as int
  {
    var n := c as int;
    if n < 0x80 {
    } else if n < 0x800 {
      assert n == (n / 0x40) * 0x40 + n % 0x40;
    } else if n < 0x1_0000 {
      var q := n / 0x40;
      assert n == q * 0x40 + n % 0x40;
      assert q == (q / 0x40) * 0x40 + q % 0x40;
      assert q / 0x40 == n / 0x1000;
    } else {
      var q := n / 0x40;
      var p := q / 0x40;
      assert n == q * 0x40 + n % 0x40;
      assert q == p * 0x40 + q % 0x40;
      assert p == (p / 0x40) * 0x40 + p % 0x40;
      assert p == n / 0x1000;
      assert p / 0x40 == n / 0x4_0000;
    }
  }

  /** Encoding distributes over concatenation. */
  lemma {:induction false} ByteLengthAppend(a: string, b: string)
    ensures ByteLength(a + b) == ByteLength(a) + ByteLength(b)
  {
    if a == [] {
      assert a + b == b;
    } else {
      assert (a + b)[0] == a[0];
      assert (a + b)[1..] == a[1..] + b;
      ByteLengthAppend(a[1..], b);
    }
  }

  /** A string takes at least one and at most four bytes per character. */
  lemma {:induction false} ByteLengthBounds(s: string)
    ensures |s| <= ByteLength(s) <= 4 * |s|
  {
    if s != [] {
      ByteLengthBounds(s[1..]);
    }
  }

  /** An ASCII string takes one byte per character. */
  lemma {:induction false} AsciiByteLength(s: string)
    requires forall i :: 0 <= i < |s| ==> s[i] as int < 0x80
    ensures ByteLength(s) == |s|
  {
    if s != [] {
      AsciiByteLength(s[1..]);
    }
  }
}
