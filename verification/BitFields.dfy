/** Packed C++ bit-fields on a little-endian machine: the first field takes the lowest bits. */
module BitFields {
  datatype Field = Field(value: nat, width: nat)

  function Pow2(n: nat): (r: nat)
    ensures r > 0
  {
    if n == 0 then 1 else 2 * Pow2(n - 1)
  }

  function Pack(fields: seq<Field>): nat {
    if fields == [] then 0 else fields[0].value + Pow2(fields[0].width) * Pack(fields[1..])
  }

  function Unpack(word: nat, widths: seq<nat>): (r: seq<nat>)
    ensures |r| == |widths|
    decreases |widths|
  {
    if widths == [] then [] else [Low(word, Pow2(widths[0]))] + Unpack(High(word, Pow2(widths[0])), widths[1..])
  }

  function Low(word: nat, p: nat): nat
    requires p > 0
  {
    word % p
  }

  function High(word: nat, p: nat): nat
    requires p > 0
  {
    word / p
  }

  predicate Fits(fields: seq<Field>) { forall f :: f in fields ==> f.value < Pow2(f.width) }

  function Widths(fields: seq<Field>): seq<nat> { seq(|fields|, i requires 0 <= i < |fields| => fields[i].width) }
  function Values(fields: seq<Field>): seq<nat> { seq(|fields|, i requires 0 <= i < |fields| => fields[i].value) }

  lemma PackCons(f: Field, rest: seq<Field>)
    ensures Pack([f] + rest) == f.value + Pow2(f.width) * Pack(rest)
  {
    assert ([f] + rest)[1..] == rest;
  }

  /** Every field that fits its width is read back unchanged. */
  lemma {:induction false} UnpackPack(fields: seq<Field>)
    requires Fits(fields)
    ensures Unpack(Pack(fields), Widths(fields)) == Values(fields)
  {
    if fields != [] {
      var f, rest := fields[0], fields[1..];
      assert f in fields;
      UnpackPack(rest);
      Divide(f.value, Pow2(f.width), Pack(rest));
      assert Widths(fields)[1..] == Widths(rest);
      assert Values(fields) == [f.value] + Values(rest);
    }
  }

  /** Division undoes multiplication with a small remainder. */
  lemma Divide(v: nat, p: nat, q: nat)
    requires v < p
    ensures (v + p * q) % p == v && (v + p * q) / p == q
  {
    var d := (v + p * q) / p - q;
    assert p * d == v - (v + p * q) % p;
    MultipleIsFar(p, d);
  }

  /** A non-zero multiple of `p` is at least `p` away from zero. */
  lemma MultipleIsFar(p: nat, d: int)
    requires p > 0
    ensures d >= 1 ==> p * d >= p
    ensures d <= -1 ==> p * d + p <= 0
  {
    if d >= 1 { assert p * d == p + p * (d - 1); }
    if d <= -1 { assert p * d + p == p * (d + 1); }
  }

  lemma Pow2Values()
    ensures Pow2(4) == 16 && Pow2(6) == 64 && Pow2(8) == 256 && Pow2(14) == 0x4000 && Pow2(32) == 0x1_0000_0000
  {
    assert Pow2(8) == 16 * Pow2(4);
    assert Pow2(14) == 64 * Pow2(8);
    assert Pow2(20) == 64 * Pow2(14);
    assert Pow2(26) == 64 * Pow2(20);
    assert Pow2(32) == 64 * Pow2(26);
  }
}
