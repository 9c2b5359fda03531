/**
 * UTF-8 as section 3 of RFC 3629 defines it, and the lossy decoder JavaScript applies to a byte
 * buffer: every maximal subpart of an ill-formed sequence becomes one U+FFFD. Dafny's `char` is a
 * Unicode scalar value, so a `string` is exactly what `Buffer.from(text)` encodes.
 */
module Utf8 {
  import opened Common

  type Byte = b: int | 0 <= b < 256

  const REPLACEMENT: char := '\U{FFFD}'

  /** Bytes a scalar value occupies. */
  function Width(c: char): (w: nat)
    ensures 1 <= w <= 4
  {
    var v := c as int;
    if v < 0x80 then 1 else if v < 0x800 then 2 else if v < 0x1_0000 then 3 else 4
  }

  function EncodeChar(c: char): (b: seq<Byte>)
    ensures |b| == Width(c)
  {
    var v := c as int;
    if v < 0x80 then [v]
    else if v < 0x800 then [0xC0 + v / 64, 0x80 + v % 64]
    else if v < 0x1_0000 then [0xE0 + v / 64 / 64, 0x80 + v / 64 % 64, 0x80 + v % 64]
    else [0xF0 + v / 64 / 64 / 64, 0x80 + v / 64 / 64 % 64, 0x80 + v / 64 % 64, 0x80 + v % 64]
  }

  /** Buffer.from(text) */
  function Encode(s: string): (b: seq<Byte>)
    ensures |b| == ByteLength(s)
  {
    if s == [] then [] else EncodeChar(s[0]) + Encode(s[1..])
  }

  /** Buffer.byteLength(text) */
  function ByteLength(s: string): nat {
    if s == [] then 0 else Width(s[0]) + ByteLength(s[1..])
  }

  /** Continuation bytes a lead byte asks for; 0 marks a byte that starts nothing. */
  function Needed(lead: Byte): nat {
    if 0xC2 <= lead <= 0xDF then 1
    else if 0xE0 <= lead <= 0xEF then 2
    else if 0xF0 <= lead <= 0xF4 then 3
    else 0
  }

  /** The first continuation byte is narrowed so that overlong forms, surrogates and values past
      U+10FFFF are ill-formed. */
  predicate Continues(lead: Byte, position: nat, b: Byte) {
    if position == 1 && lead == 0xE0 then 0xA0 <= b <= 0xBF
    else if position == 1 && lead == 0xED then 0x80 <= b <= 0x9F
    else if position == 1 && lead == 0xF0 then 0x90 <= b <= 0xBF
    else if position == 1 && lead == 0xF4 then 0x80 <= b <= 0x8F
    else 0x80 <= b <= 0xBF
  }

  /** How many of the bytes after the lead continue it, up to the number it needs. */
  function Run(b: seq<Byte>, position: nat): (n: nat)
    requires 0 < |b| && 1 <= position
    ensures position - 1 <= n
    ensures n < |b| || n == position - 1
    ensures n <= Needed(b[0]) || n == position - 1
    decreases Needed(b[0]) + 1 - position
  {
    if position <= Needed(b[0]) && position < |b| && Continues(b[0], position, b[position])
    then Run(b, position + 1)
    else position - 1
  }

  /** The scalar value a complete well-formed sequence stands for. */
  function Scalar(b: seq<Byte>): (v: int)
    requires 2 <= |b| <= 4
  {
    var lead: int, first: int := b[0], b[1];
    if |b| == 2 then (lead - 0xC0) * 64 + (first - 0x80)
    else
      var second: int := b[2];
      if |b| == 3 then ((lead - 0xE0) * 64 + (first - 0x80)) * 64 + (second - 0x80)
      else
        var third: int := b[3];
        (((lead - 0xF0) * 64 + (first - 0x80)) * 64 + (second - 0x80)) * 64 + (third - 0x80)
  }

  predicate IsScalar(v: int) {
    0 <= v < 0xD800 || 0xE000 <= v < 0x11_0000
  }

  /** buffer.toString("utf8") */
  function Decode(b: seq<Byte>): string {
    if b == [] then ""
    else if b[0] < 0x80 then [b[0] as char] + Decode(b[1..])
    else
      var n := Run(b, 1);
      if n < Needed(b[0]) || Needed(b[0]) == 0 || !IsScalar(Scalar(b[..n + 1]))
      then [REPLACEMENT] + Decode(b[n + 1..])
      else [Scalar(b[..n + 1]) as char] + Decode(b[n + 1..])
  }

  /** What a byte cut leaves: the characters that fit whole, then one replacement for a split one. */
  function Cut(s: string, n: nat): (r: string)
    ensures ByteLength(r) <= n + 2
    ensures ByteLength(s) <= n ==> r == s
  {
    if s == [] || n == 0 then ""
    else if Width(s[0]) <= n then [s[0]] + Cut(s[1..], n - Width(s[0]))
    else [REPLACEMENT]
  }

  lemma ByteLengthConcat(a: string, b: string)
    ensures ByteLength(a + b) == ByteLength(a) + ByteLength(b)
  {
    if a == [] {
      assert a + b == b;
    } else {
      assert (a + b)[1..] == a[1..] + b;
      ByteLengthConcat(a[1..], b);
    }
  }

  /** A whole encoded character in front of any bytes decodes to itself. */
  lemma DecodeWhole(c: char, rest: seq<Byte>)
    ensures Decode(EncodeChar(c) + rest) == [c] + Decode(rest)
  {
    var e := EncodeChar(c);
    var b := e + rest;
    var v := c as int;
    if v < 0x80 {
      assert b[1..] == rest;
    } else {
      assert b[0] == e[0] && |e| == Needed(b[0]) + 1;
      RunWhole(c, rest);
      var n := |e| - 1;
      assert Run(b, 1) == n;
      assert b[..n + 1] == e;
      assert b[n + 1..] == rest;
      ScalarOfEncoded(c);
    }
  }

  lemma ScalarOfEncoded(c: char)
    requires c as int >= 0x80
    ensures Scalar(EncodeChar(c)) == c as int
  {
  }

  lemma RunWhole(c: char, rest: seq<Byte>)
    requires c as int >= 0x80
    ensures Run(EncodeChar(c) + rest, 1) == |EncodeChar(c)| - 1
  {
    var e := EncodeChar(c);
    var b := e + rest;
    LeadAndFirst(c);
    if |e| == 2 {
      assert Run(b, 2) == 1;
    } else if |e| == 3 {
      assert Run(b, 3) == 2;
      assert Run(b, 2) == 2;
    } else {
      assert Run(b, 4) == 3;
      assert Run(b, 3) == 3;
      assert Run(b, 2) == 3;
    }
  }

  lemma LeadAndFirst(c: char)
    requires c as int >= 0x80
    ensures var e := EncodeChar(c);
      && Needed(e[0]) == |e| - 1
      && forall i :: 1 <= i < |e| ==> Continues(e[0], i, e[i])
  {
  }

  /** A split character is one maximal subpart, so it decodes to one replacement. */
  lemma DecodeSplit(c: char, n: nat)
    requires 0 < n < Width(c)
    ensures Decode(EncodeChar(c)[..n]) == [REPLACEMENT]
  {
    var e := EncodeChar(c);
    var b := e[..n];
    LeadAndFirst(c);
    if n == 1 {
      assert Run(b, 1) == 0;
    } else if n == 2 {
      assert Run(b, 2) == 1;
      assert Run(b, 1) == 1;
    } else {
      assert Run(b, 3) == 2;
      assert Run(b, 2) == 2;
      assert Run(b, 1) == 2;
    }
    assert b[n..] == [];
  }

  /** Cutting the encoding at any byte and decoding again is exactly Cut. */
  lemma {:induction false} DecodeOfCutEncoding(s: string, n: nat)
    requires n <= ByteLength(s)
    ensures Decode(Encode(s)[..n]) == Cut(s, n)
  {
    if s == [] || n == 0 {
      assert Encode(s)[..n] == [];
    } else {
      var e := EncodeChar(s[0]);
      var w := Width(s[0]);
      if w <= n {
        assert Encode(s)[..n] == e + Encode(s[1..])[..n - w];
        DecodeWhole(s[0], Encode(s[1..])[..n - w]);
        DecodeOfCutEncoding(s[1..], n - w);
      } else {
        assert Encode(s)[..n] == e[..n];
        DecodeSplit(s[0], n);
      }
    }
  }

  /** Text survives encoding and decoding. */
  lemma RoundTrip(s: string)
    ensures Decode(Encode(s)) == s
  {
    DecodeOfCutEncoding(s, ByteLength(s));
    assert Encode(s)[..ByteLength(s)] == Encode(s);
  }
}
