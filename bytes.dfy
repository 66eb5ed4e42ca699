/** Bytes, little-endian unsigned integers and binary strings: the vocabulary
    in which a RIFF/WAVE file image is written and read back. */
module Bytes {

  /** One octet, as a `Uint8Array` element or a `DataView.getUint8` result. */
  type byte = b: int | 0 <= b < 256

  /** 256 to the power `k`: the number of values a `k`-byte field can hold. */
  function Pow256(k: nat): (p: nat)
    ensures p > 0
  {
    if k == 0 then 1 else 256 * Pow256(k - 1)
  }

  /** The `width` low-order bytes of `v`, least significant first. Bits above
      `8 * width` are dropped, as a typed-array store drops them. */
  function LittleEndian(v: nat, width: nat): (s: seq<byte>)
    ensures |s| == width
  {
    if width == 0 then [] else [v % 256] + LittleEndian(v / 256, width - 1)
  }

  /** The unsigned integer whose little-endian bytes are `s`. */
  function FromLittleEndian(s: seq<byte>): (v: nat)
    ensures v < Pow256(|s|)
  {
    if s == [] then 0 else s[0] + 256 * FromLittleEndian(s[1..])
  }

  /** `DataView.getUint16(pos, true)`: the little-endian u16 at `pos`. */
  function ReadUint16(s: seq<byte>, pos: nat): (v: nat)
    requires pos + 2 <= |s|
    ensures v < 0x1_0000
  {
    assert Pow256(2) == 0x1_0000;
    FromLittleEndian(s[pos..pos + 2])
  }

  /** `DataView.getUint32(pos, true)`: the little-endian u32 at `pos`. */
  function ReadUint32(s: seq<byte>, pos: nat): (v: nat)
    requires pos + 4 <= |s|
    ensures v < 0x1_0000_0000
  {
    assert Pow256(4) == 0x1_0000_0000;
    FromLittleEndian(s[pos..pos + 4])
  }

  /** The binary string whose character codes are the bytes `s`. */
  function Chars(s: seq<byte>): (r: string)
    ensures |r| == |s|
    ensures forall i :: 0 <= i < |s| ==> r[i] as int == s[i]
  {
    seq(|s|, i requires 0 <= i < |s| => s[i] as char)
  }

  /** The bytes that a `Uint8Array` holds after each character code of `s`
      is stored into it: a code above 255 keeps only its low byte. */
  function CharCodes(s: string): (r: seq<byte>)
    ensures |r| == |s|
    ensures forall i :: 0 <= i < |s| ==> r[i] == s[i] as int % 256
  {
    seq(|s|, i requires 0 <= i < |s| => s[i] as int % 256)
  }

  /** A string every character of which fits in one byte. */
  predicate IsBinary(s: string) {
    forall i :: 0 <= i < |s| ==> s[i] as int < 256
  }

  /** The bytes of a binary string such as the chunk tag "RIFF". */
  function Latin1(s: string): (r: seq<byte>)
    requires IsBinary(s)
    ensures |r| == |s|
    ensures Chars(r) == s
  {
    CharCodes(s)
  }

  // ---------------------------------------------------------------------------
  // Arithmetic helpers

  lemma MulGrows(m: int, d: int)
    requires m > 0 && d >= 1
    ensures m * d >= m
  {
  }

  lemma DivModUnique(v: int, m: int, q: int, r: int)
    requires m > 0 && 0 <= r < m && v == m * q + r
    ensures v / m == q && v % m == r
  {
    var q', r' := v / m, v % m;
    assert m * q' + r' == m * q + r;
    if q' < q {
      assert m * (q - q') == r' - r;
      MulGrows(m, q - q');
    } else if q' > q {
      assert m * (q' - q) == r - r';
      MulGrows(m, q' - q);
    }
  }

  lemma ModOfNestedDiv(v: nat, p: nat)
    requires p > 0
    ensures v % (256 * p) == v % 256 + 256 * ((v / 256) % p)
  {
    var q, r := v / 256, v % 256;
    var q2, r2 := q / p, q % p;
    assert v == 256 * q + r;
    assert q == p * q2 + r2;
    assert v == (256 * p) * q2 + (256 * r2 + r) by {
      assert 256 * q == 256 * (p * q2) + 256 * r2;
      assert 256 * (p * q2) == (256 * p) * q2;
    }
    assert 256 * r2 + r < 256 * p by {
      assert r2 <= p - 1;
      assert 256 * r2 <= 256 * (p - 1);
    }
    DivModUnique(v, 256 * p, q2, 256 * r2 + r);
  }

  // ---------------------------------------------------------------------------
  // Round trips between the writer's and the reader's view of a field

  /** Reading back a `width`-byte field yields the written value modulo the
      field's range: `DataView` stores wrap around. */
  lemma {:induction false} ReadWritten(v: nat, width: nat)
    ensures FromLittleEndian(LittleEndian(v, width)) == v % Pow256(width)
  {
    if width > 0 {
      var s := LittleEndian(v, width);
      assert s[1..] == LittleEndian(v / 256, width - 1);
      ReadWritten(v / 256, width - 1);
      ModOfNestedDiv(v, Pow256(width - 1));
    }
  }

  /** Values within range come back unchanged. */
  lemma ReadWrittenInRange(v: nat, width: nat)
    requires v < Pow256(width)
    ensures FromLittleEndian(LittleEndian(v, width)) == v
  {
  }

  /** Every byte sequence is the encoding of the value it decodes to. */
  lemma {:induction false} WriteRead(s: seq<byte>)
    ensures LittleEndian(FromLittleEndian(s), |s|) == s
  {
    if s != [] {
      var v := FromLittleEndian(s);
      var rest := FromLittleEndian(s[1..]);
      DivModUnique(v, 256, rest, s[0]);
      WriteRead(s[1..]);
    }
  }

  /** The store into a `Uint8Array` undoes `Chars`. */
  lemma CharCodesOfChars(s: seq<byte>)
    ensures CharCodes(Chars(s)) == s
  {
  }

  lemma Pow256Values()
    ensures Pow256(2) == 0x1_0000
    ensures Pow256(4) == 0x1_0000_0000
  {
  }

  // ---------------------------------------------------------------------------
  // Writers into a byte buffer

  /** `s` with the bytes from `pos` on overwritten by `bs`. */
  function Splice(s: seq<byte>, pos: nat, bs: seq<byte>): (r: seq<byte>)
    requires pos + |bs| <= |s|
    ensures |r| == |s|
    ensures forall i :: 0 <= i < |s| ==> r[i] == if pos <= i < pos + |bs| then bs[i - pos] else s[i]
  {
    s[..pos] + bs + s[pos + |bs|..]
  }

  /** Writing two adjacent runs of bytes one after the other is writing
      their concatenation. */
  lemma SpliceAdjacent(s: seq<byte>, pos: nat, x: seq<byte>, y: seq<byte>)
    requires pos + |x| + |y| <= |s|
    ensures Splice(Splice(s, pos, x), pos + |x|, y) == Splice(s, pos, x + y)
  {
  }

  /** Writes `v` as a `width`-byte little-endian field at `pos`, one byte per
      iteration, leaving every other byte of `a` as it was. */
  method WriteLittleEndian(a: array<byte>, pos: nat, v: nat, width: nat)
    requires pos + width <= a.Length
    modifies a
    ensures a[..] == Splice(old(a[..]), pos, LittleEndian(v, width))
  {
    var rest := v;
    var k := 0;
    while k < width
      invariant 0 <= k <= width
      invariant a[..pos] == old(a[..pos])
      invariant a[pos..pos + k] + LittleEndian(rest, width - k) == LittleEndian(v, width)
      invariant a[pos + width..] == old(a[pos + width..])
    {
      ghost var done := a[pos..pos + k];
      assert LittleEndian(rest, width - k) == [rest % 256] + LittleEndian(rest / 256, width - k - 1);
      a[pos + k] := rest % 256;
      assert a[pos..pos + k + 1] == done + [rest % 256];
      rest := rest / 256;
      k := k + 1;
    }
    assert a[..] == a[..pos] + a[pos..pos + width] + a[pos + width..];
  }

  /** Copies `bs` into `a` at `pos`, leaving every other byte as it was. */
  method WriteBytes(a: array<byte>, pos: nat, bs: seq<byte>)
    requires pos + |bs| <= a.Length
    modifies a
    ensures a[..] == Splice(old(a[..]), pos, bs)
  {
    var k := 0;
    while k < |bs|
      invariant 0 <= k <= |bs|
      invariant a[..pos] == old(a[..pos])
      invariant a[pos..pos + k] == bs[..k]
      invariant a[pos + |bs|..] == old(a[pos + |bs|..])
    {
      a[pos + k] := bs[k];
      k := k + 1;
    }
    assert a[..] == a[..pos] + a[pos..pos + |bs|] + a[pos + |bs|..];
  }
}
