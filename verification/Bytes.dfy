/** Byte strings and the self-delimiting segments the canonical encoders emit:
    fixed-width blocks and blocks behind a 4-byte big-endian length
    (axon/invocation/axiom.go, putU32, putStr, putBytes). */
module ByteStrings {

  newtype byte = x: int | 0 <= x < 256

  type Bytes = seq<byte>

  /** The ASCII bytes of a text. */
  predicate Spells(b: Bytes, s: string) {
    |b| == |s| && forall i :: 0 <= i < |s| ==> b[i] as int == s[i] as int
  }

  const TWO_32 := 0x1_0000_0000
  const TWO_64 := 0x1_0000_0000_0000_0000

  type U32 = x: int | 0 <= x < TWO_32
  type U64 = x: int | 0 <= x < TWO_64
  type I64 = x: int | -0x8000_0000_0000_0000 <= x < 0x8000_0000_0000_0000

  /** The `width` low-order bytes of `n`, most significant first. */
  function BigEndian(n: nat, width: nat): (b: Bytes)
    ensures |b| == width
  {
    if width == 0 then [] else BigEndian(n / 256, width - 1) + [(n % 256) as byte]
  }

  function Pow256(width: nat): nat {
    if width == 0 then 1 else 256 * Pow256(width - 1)
  }

  lemma {:induction false} BigEndianInjective(n: nat, m: nat, width: nat)
    requires n < Pow256(width) && m < Pow256(width)
    requires BigEndian(n, width) == BigEndian(m, width)
    ensures n == m
  {
    if width > 0 {
      var x, y := BigEndian(n, width), BigEndian(m, width);
      assert x[width - 1] == (n % 256) as byte && y[width - 1] == (m % 256) as byte;
      assert x[..width - 1] == BigEndian(n / 256, width - 1);
      assert y[..width - 1] == BigEndian(m / 256, width - 1);
      BigEndianInjective(n / 256, m / 256, width - 1);
    }
  }

  lemma Widths()
    ensures Pow256(4) == TWO_32 && Pow256(8) == TWO_64
  {
    assert Pow256(4) == 256 * (256 * (256 * (256 * Pow256(0))));
    assert Pow256(8) == 256 * (256 * (256 * (256 * Pow256(4))));
  }

  /** putU32 of a Go length: the conversion keeps the low 32 bits. */
  function PutU32(n: nat): (b: Bytes)
    ensures |b| == 4
  {
    BigEndian(n % TWO_32, 4)
  }

  function PutU64(n: U64): (b: Bytes)
    ensures |b| == 8
  {
    BigEndian(n, 8)
  }

  /** uint64(x) of a signed value is its two's complement. */
  function PutI64(x: I64): (b: Bytes)
    ensures |b| == 8
  {
    BigEndian(x % TWO_64, 8)
  }

  lemma PutU32Injective(n: nat, m: nat)
    requires n < TWO_32 && m < TWO_32 && PutU32(n) == PutU32(m)
    ensures n == m
  {
    Widths();
    hide BigEndian, Pow256;
    BigEndianInjective(n, m, 4);
  }

  lemma PutU64Injective(n: U64, m: U64)
    requires PutU64(n) == PutU64(m)
    ensures n == m
  {
    Widths();
    BigEndianInjective(n, m, 8);
  }

  lemma PutI64Injective(x: I64, y: I64)
    requires PutI64(x) == PutI64(y)
    ensures x == y
  {
    Widths();
    hide BigEndian, Pow256;
    BigEndianInjective(x % TWO_64, y % TWO_64, 8);
  }

  /** putStr and putBytes. */
  function PutBlock(b: Bytes): Bytes {
    PutU32(|b|) + b
  }

  datatype Segment = Fixed(bytes: Bytes) | Block(bytes: Bytes) {
    function Encoded(): Bytes {
      if Fixed? then bytes else PutBlock(bytes)
    }
  }

  function Flatten(segments: seq<Segment>): Bytes {
    if segments == [] then [] else segments[0].Encoded() + Flatten(segments[1..])
  }

  /** Same layout: block for block, and fixed segments of equal width. */
  ghost predicate SameShape(xs: seq<Segment>, ys: seq<Segment>) {
    && |xs| == |ys|
    && (forall i :: 0 <= i < |xs| ==> xs[i].Fixed? == ys[i].Fixed?)
    && (forall i :: 0 <= i < |xs| && xs[i].Fixed? ==> |xs[i].bytes| == |ys[i].bytes|)
  }

  /** Every length prefix is exact. */
  ghost predicate Sized(xs: seq<Segment>) {
    forall i :: 0 <= i < |xs| && xs[i].Block? ==> |xs[i].bytes| < TWO_32
  }

  /** Two concatenations with equally long heads agree piecewise. */
  lemma Cut(a: Bytes, r: Bytes, b: Bytes, s: Bytes)
    requires a + r == b + s && |a| == |b|
    ensures a == b && r == s
  {
    assert a == (a + r)[..|a|] && b == (b + s)[..|b|];
    assert r == (a + r)[|a|..] && s == (b + s)[|b|..];
  }

  lemma BlockCut(a: Bytes, r: Bytes, b: Bytes, s: Bytes)
    requires PutBlock(a) + r == PutBlock(b) + s && |a| < TWO_32 && |b| < TWO_32
    ensures a == b && r == s
  {
    assert PutBlock(a) + r == PutU32(|a|) + (a + r);
    assert PutBlock(b) + s == PutU32(|b|) + (b + s);
    Cut(PutU32(|a|), a + r, PutU32(|b|), b + s);
    PutU32Injective(|a|, |b|);
    Cut(a, r, b, s);
  }

  lemma SegmentCut(x: Segment, r: Bytes, y: Segment, s: Bytes)
    requires x.Fixed? == y.Fixed? && (x.Fixed? ==> |x.bytes| == |y.bytes|)
    requires x.Block? ==> |x.bytes| < TWO_32 && |y.bytes| < TWO_32
    requires x.Encoded() + r == y.Encoded() + s
    ensures x == y && r == s
  {
    if x.Fixed? {
      Cut(x.bytes, r, y.bytes, s);
    } else {
      BlockCut(x.bytes, r, y.bytes, s);
    }
  }

  lemma FlattenHead(xs: seq<Segment>, r: Bytes)
    requires xs != []
    ensures Flatten(xs) + r == xs[0].Encoded() + (Flatten(xs[1..]) + r)
  {
  }

  /** Unique decodability of a segment list, whatever follows it. */
  lemma {:induction false} FlattenCut(xs: seq<Segment>, r: Bytes, ys: seq<Segment>, s: Bytes)
    requires SameShape(xs, ys) && Sized(xs) && Sized(ys)
    requires Flatten(xs) + r == Flatten(ys) + s
    ensures xs == ys && r == s
  {
    if xs == [] {
      assert [] + r == r && [] + s == s;
    } else {
      FlattenHead(xs, r);
      FlattenHead(ys, s);
      hide Flatten;
      SegmentCut(xs[0], Flatten(xs[1..]) + r, ys[0], Flatten(ys[1..]) + s);
      FlattenCut(xs[1..], r, ys[1..], s);
      assert xs == [xs[0]] + xs[1..] && ys == [ys[0]] + ys[1..];
    }
  }
}
