/** Byte strings, fixed-width integers in bytes, and byte streams cut into chunks. */
module Bytes {
  import opened BitFields

  type byte = b: nat | b < 256

  function Zeros(n: nat): seq<byte> { seq(n, _ => 0) }

  /** `data` copied over `buffer` at `offset`; what does not fit is dropped. */
  function Overwrite(buffer: seq<byte>, offset: nat, data: seq<byte>): (r: seq<byte>)
    ensures |r| == |buffer|
  {
    seq(|buffer|, i requires 0 <= i < |buffer| =>
      if offset <= i < offset + |data| then data[i - offset] else buffer[i])
  }

  // ---- Integers -----------------------------------------------------------------------------

  function Pow256(n: nat): (r: nat)
    ensures r > 0
  {
    if n == 0 then 1 else 256 * Pow256(n - 1)
  }

  /** The `n` low bytes of `v`, least significant first. */
  function LittleEndian(v: nat, n: nat): (r: seq<byte>)
    ensures |r| == n
  {
    if n == 0 then [] else [v % 256] + LittleEndian(v / 256, n - 1)
  }

  function FromLittleEndian(s: seq<byte>): nat {
    if s == [] then 0 else s[0] + 256 * FromLittleEndian(s[1..])
  }

  /** The `n` low bytes of `v`, most significant first. */
  function BigEndian(v: nat, n: nat): (r: seq<byte>)
    ensures |r| == n
  {
    if n == 0 then [] else BigEndian(v / 256, n - 1) + [v % 256]
  }

  function FromBigEndian(s: seq<byte>): nat {
    if s == [] then 0 else 256 * FromBigEndian(s[..|s| - 1]) + s[|s| - 1]
  }

  lemma {:induction false} LittleEndianRoundTrip(v: nat, n: nat)
    requires v < Pow256(n)
    ensures FromLittleEndian(LittleEndian(v, n)) == v
  {
    if n > 0 {
      LittleEndianRoundTrip(v / 256, n - 1);
      assert LittleEndian(v, n)[1..] == LittleEndian(v / 256, n - 1);
    }
  }

  lemma {:induction false} FromLittleEndianRoundTrip(s: seq<byte>)
    ensures FromLittleEndian(s) < Pow256(|s|) && LittleEndian(FromLittleEndian(s), |s|) == s
  {
    if s != [] {
      FromLittleEndianRoundTrip(s[1..]);
      Divide(s[0], 256, FromLittleEndian(s[1..]));
      assert s == [s[0]] + s[1..];
    }
  }

  lemma {:induction false} BigEndianRoundTrip(v: nat, n: nat)
    requires v < Pow256(n)
    ensures FromBigEndian(BigEndian(v, n)) == v
  {
    if n > 0 {
      BigEndianRoundTrip(v / 256, n - 1);
      assert BigEndian(v, n)[..n - 1] == BigEndian(v / 256, n - 1);
    }
  }

  lemma {:induction false} FromBigEndianRoundTrip(s: seq<byte>)
    ensures FromBigEndian(s) < Pow256(|s|) && BigEndian(FromBigEndian(s), |s|) == s
  {
    if s != [] {
      FromBigEndianRoundTrip(s[..|s| - 1]);
      assert s == s[..|s| - 1] + [s[|s| - 1]];
    }
  }

  /** Which byte of the number stands where. */
  lemma {:induction false} LittleEndianAt(v: nat, n: nat, i: nat)
    requires i < n
    ensures LittleEndian(v, n)[i] == v / Pow256(i) % 256
  {
    if i > 0 {
      LittleEndianAt(v / 256, n - 1, i - 1);
      DivideTwice(v, Pow256(i - 1));
    }
  }

  lemma {:induction false} BigEndianAt(v: nat, n: nat, i: nat)
    requires i < n
    ensures BigEndian(v, n)[n - 1 - i] == v / Pow256(i) % 256
  {
    if i > 0 {
      BigEndianAt(v / 256, n - 1, i - 1);
      DivideTwice(v, Pow256(i - 1));
    }
  }

  lemma DivideTwice(v: nat, p: nat)
    requires p > 0
    ensures v / 256 / p == v / (256 * p)
  {
    var a := v / 256;
    var q, r := a / p, a % p;
    assert a == p * q + r && v == 256 * a + v % 256;
    assert v == 256 * p * q + (256 * r + v % 256);
    Divide(256 * r + v % 256, 256 * p, q);
  }

  lemma Pow256Values()
    ensures Pow256(4) == 0x1_0000_0000 && Pow256(8) == 0x1_0000_0000_0000_0000
  {
    assert Pow256(4) == 0x1_0000_0000;
    assert Pow256(6) == 256 * (256 * Pow256(4));
  }

  /** A 32-bit two's complement number as the unsigned word that holds it, and back. */
  function ToWord32(v: int): nat { v % 0x1_0000_0000 }
  function FromWord32(w: nat): int { if w < 0x8000_0000 then w else w - 0x1_0000_0000 }

  predicate IsInt32(v: int) { -0x8000_0000 <= v < 0x8000_0000 }

  function Int32Bytes(v: int): (r: seq<byte>)
    ensures |r| == 4
  {
    LittleEndian(ToWord32(v), 4)
  }

  function Int32At(s: seq<byte>, offset: nat): int
    requires offset + 4 <= |s|
  {
    FromWord32(FromLittleEndian(s[offset..offset + 4]))
  }

  lemma Int32RoundTrip(v: int)
    requires IsInt32(v)
    ensures FromWord32(FromLittleEndian(Int32Bytes(v))) == v
  {
    Pow256Values();
    LittleEndianRoundTrip(ToWord32(v), 4);
  }

  /** The other way round: four bytes are the bytes of the number read from them. */
  lemma Int32BytesOf(s: seq<byte>)
    requires |s| == 4
    ensures
      var v := FromWord32(FromLittleEndian(s));
      IsInt32(v) && Int32Bytes(v) == s
  {
    Pow256Values();
    FromLittleEndianRoundTrip(s);
    var w := FromLittleEndian(s);
    assert ToWord32(FromWord32(w)) == w;
  }

  // ---- Streams ------------------------------------------------------------------------------

  function Flatten(chunks: seq<seq<byte>>): seq<byte> {
    if chunks == [] then [] else chunks[0] + Flatten(chunks[1..])
  }

  lemma Associate(a: seq<byte>, b: seq<byte>, c: seq<byte>)
    ensures a + (b + c) == a + b + c
  {
  }

  lemma {:induction false} FlattenAppend(a: seq<seq<byte>>, b: seq<seq<byte>>)
    ensures Flatten(a + b) == Flatten(a) + Flatten(b)
  {
    if a == [] {
      assert a + b == b;
    } else {
      FlattenAppend(a[1..], b);
      var ab := a + b;
      assert ab[0] == a[0] && ab[1..] == a[1..] + b;
      Associate(a[0], Flatten(a[1..]), Flatten(b));
    }
  }

  lemma FlattenSnoc(a: seq<seq<byte>>, c: seq<byte>)
    ensures Flatten(a + [c]) == Flatten(a) + c
  {
    FlattenAppend(a, [c]);
    assert Flatten([c]) == c;
  }
}
