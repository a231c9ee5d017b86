/** Bytes and the UTF-8 encoding that turns the writer's text into the bytes a statsd
    line is made of, and the UTF-16 code units (CciChar) in which the broker passes
    property names and values. Text is modelled as a sequence of Unicode scalar values
    (Dafny's `char`). */
module Encoding {

  newtype Byte = x: int | 0 <= x < 256

  const NEWLINE: Byte := 0x0A

  /** UTF-8 encoding of one scalar value, as in section 3 of RFC 3629. */
  function EncodeChar(c: char): (r: seq<Byte>)
    ensures 1 <= |r| <= 4
    ensures |r| == 1 <==> c as int < 0x80
    ensures |r| == 1 ==> r[0] as int == c as int
    // every byte of a multi-byte sequence has its top bit set, so it is never ASCII
    ensures |r| > 1 ==> forall i :: 0 <= i < |r| ==> r[i] >= 0x80
  {
    var n := c as int;
    if n < 0x80 then
      [n as Byte]
    else if n < 0x800 then
      [(0xC0 + n / 0x40) as Byte, (0x80 + n % 0x40) as Byte]
    else if n < 0x10000 then
      [(0xE0 + n / 0x1000) as Byte, (0x80 + n / 0x40 % 0x40) as Byte, (0x80 + n % 0x40) as Byte]
    else
      [(0xF0 + n / 0x40000) as Byte, (0x80 + n / 0x1000 % 0x40) as Byte,
       (0x80 + n / 0x40 % 0x40) as Byte, (0x80 + n % 0x40) as Byte]
  }

  /** UTF-8 encoding of a text: the encodings of its characters, in order. */
  function Encode(s: string): (r: seq<Byte>)
    ensures |r| >= |s|
    ensures s == [] <==> r == []
  {
    if s == [] then [] else EncodeChar(s[0]) + Encode(s[1..])
  }

  /** Encoding distributes over concatenation. */
  lemma {:induction false} EncodeAppend(a: string, b: string)
    ensures Encode(a + b) == Encode(a) + Encode(b)
  {
    if a == [] {
      assert a + b == b;
    } else {
      assert (a + b)[1..] == a[1..] + b;
      EncodeAppend(a[1..], b);
    }
  }

  /** An ASCII byte occurs in the encoding of a text exactly when its character occurs
      in the text: multi-byte sequences never contain ASCII bytes. */
  lemma {:induction false} EncodeAscii(s: string, c: char)
    requires c as int < 0x80
    ensures (c as int) as Byte in Encode(s) <==> c in s
  {
    if s != [] {
      EncodeAscii(s[1..], c);
      var e := EncodeChar(s[0]);
      assert Encode(s) == e + Encode(s[1..]);
      if |e| > 1 {
        assert (c as int) as Byte !in e;
      }
      assert s == [s[0]] + s[1..];
    }
  }

  /** An ASCII-only text encodes to one byte per character, each equal to its code. */
  lemma {:induction false} EncodeAsciiText(s: string)
    requires forall i :: 0 <= i < |s| ==> s[i] as int < 0x80
    ensures |Encode(s)| == |s|
    ensures forall i :: 0 <= i < |s| ==> Encode(s)[i] as int == s[i] as int
  {
    if s != [] {
      EncodeAsciiText(s[1..]);
    }
  }

  /** Encoding four texts one after the other. */
  lemma EncodeAppend4(a: string, b: string, c: string, d: string)
    ensures Encode(a + b + c + d) == Encode(a) + Encode(b) + Encode(c) + Encode(d)
  {
    EncodeAppend(a + b + c, d);
    EncodeAppend(a + b, c);
    EncodeAppend(a, b);
  }

  /** A UTF-16 code unit, the broker's CciChar. */
  newtype CodeUnit = x: int | 0 <= x < 0x1_0000

  /** UTF-16 encoding of one scalar value, as in section 2.1 of RFC 2781: one unit below
      0x10000, otherwise a high surrogate followed by a low surrogate. */
  function EncodeChar16(c: char): (r: seq<CodeUnit>)
    ensures |r| == 1 <==> c as int < 0x1_0000
    ensures |r| == 1 || |r| == 2
    ensures |r| == 1 ==> r[0] as int == c as int
    ensures |r| == 2 ==> 0xD800 <= r[0] < 0xDC00 && 0xDC00 <= r[1] < 0xE000
  {
    var n := c as int;
    if n < 0x1_0000 then
      [n as CodeUnit]
    else
      var v := n - 0x1_0000;
      [(0xD800 + v / 0x400) as CodeUnit, (0xDC00 + v % 0x400) as CodeUnit]
  }

  /** UTF-16 encoding of a text: the encodings of its characters, in order. */
  function Encode16(s: string): (r: seq<CodeUnit>)
    ensures |s| <= |r| <= 2 * |s|
  {
    if s == [] then [] else EncodeChar16(s[0]) + Encode16(s[1..])
  }

  /** A character outside the Basic Multilingual Plane takes two units, so a text's
      UTF-16 length can exceed its number of characters. */
  lemma SupplementaryTakesTwoUnits()
    ensures |Encode16("a\U{1F600}")| == 3 && |"a\U{1F600}"| == 2
  {
  }
}
