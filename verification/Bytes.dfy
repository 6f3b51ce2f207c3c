/** Octets, and the integer layouts the wire formats are made of. */
module Bytes {

  type Byte = b: int | 0 <= b < 256

  datatype Option<+T> = None | Some(value: T)

  const TWO_31 := 0x8000_0000
  const TWO_32 := 0x1_0000_0000
  const TWO_64 := 0x1_0000_0000_0000_0000

  /** The value of a 32-bit word read as a signed `int32_t`. */
  function ToInt32(word: nat): int {
    var low := word % TWO_32;
    if low < TWO_31 then low else low - TWO_32
  }

  lemma Digits(word: nat)
    ensures word / 256 / 256 == word / 0x1_0000 && word / 0x1_0000 / 256 == word / 0x100_0000
    ensures word == word / 0x100_0000 * 0x100_0000 + word / 0x1_0000 % 256 * 0x1_0000
                    + word / 256 % 256 * 256 + word % 256
  {
    assert word / 256 / 256 == word / 0x1_0000;
    assert word / 0x1_0000 / 256 == word / 0x100_0000;
  }

  /** The memory image of `hostToNetwork32(word)`: most significant octet first. */
  function Be32(word: nat): (bs: seq<Byte>)
    requires word < TWO_32
    ensures |bs| == 4
    ensures bs[0] as int * 0x100_0000 + bs[1] as int * 0x1_0000 + bs[2] as int * 256 + bs[3] as int == word
  {
    Digits(word);
    [word / 0x100_0000, word / 0x1_0000 % 256, word / 256 % 256, word % 256]
  }

  /** `networkToHost32` of the first four octets. */
  function FromBe32(bs: seq<Byte>): (word: nat)
    requires |bs| >= 4
    ensures word < TWO_32
  {
    bs[0] as int * 0x100_0000 + bs[1] as int * 0x1_0000 + bs[2] as int * 256 + bs[3] as int
  }

  lemma Be32RoundTrip(word: nat, rest: seq<Byte>)
    requires word < TWO_32
    ensures FromBe32(Be32(word) + rest) == word
  {
    var bs := Be32(word) + rest;
    assert bs[0] == word / 0x100_0000 && bs[1] == word / 0x1_0000 % 256;
    assert bs[2] == word / 256 % 256 && bs[3] == word % 256;
  }

  /** Different words have different images: comparing images compares words. */
  lemma FromBe32Injective(bs: seq<Byte>)
    requires |bs| == 4
    ensures Be32(FromBe32(bs)) == bs
  {
    var word := FromBe32(bs);
    assert word / 256 == bs[0] as int * 0x1_0000 + bs[1] as int * 256 + bs[2] as int;
    assert word / 0x1_0000 == bs[0] as int * 256 + bs[1] as int;
  }

  function Pow256(n: nat): (p: nat)
    ensures p > 0
  {
    if n == 0 then 1 else 256 * Pow256(n - 1)
  }

  /** The `n` low octets of `v`, least significant first (protobuf fixed32 and fixed64). */
  function Le(v: nat, n: nat): (bs: seq<Byte>)
    ensures |bs| == n
  {
    if n == 0 then [] else [v % 256] + Le(v / 256, n - 1)
  }

  function FromLe(bs: seq<Byte>): nat {
    if bs == [] then 0 else bs[0] as int + 256 * FromLe(bs[1..])
  }

  /** The digits of a number, least significant first. */
  function Digit(v: int, base: int, i: nat): int
    requires base > 0
    decreases i
  {
    if i == 0 then v % base else Digit(v / base, base, i - 1)
  }

  lemma {:induction false} LeOctets(v: nat, n: nat, i: nat)
    requires i < n
    ensures Le(v, n)[i] == Digit(v, 256, i)
  {
    if i > 0 {
      LeOctets(v / 256, n - 1, i - 1);
    }
  }

  lemma {:induction false} LeRoundTrip(v: nat, n: nat)
    requires v < Pow256(n)
    ensures FromLe(Le(v, n)) == v
  {
    if n > 0 {
      assert Le(v, n)[1..] == Le(v / 256, n - 1);
      LeRoundTrip(v / 256, n - 1);
    }
  }

  lemma {:induction false} FromLeBound(bs: seq<Byte>)
    ensures FromLe(bs) < Pow256(|bs|)
  {
    if bs != [] {
      FromLeBound(bs[1..]);
    }
  }

  lemma Pow256Values()
    ensures Pow256(4) == TWO_32
    ensures Pow256(8) == TWO_64
  {
    assert Pow256(2) == 65536;
    assert Pow256(4) == 256 * (256 * Pow256(2));
    assert Pow256(6) == 256 * (256 * Pow256(4));
    assert Pow256(8) == 256 * (256 * Pow256(6));
  }

  /** The bytes of several strings, one after another. */
  function Concat(parts: seq<seq<Byte>>): seq<Byte> {
    if parts == [] then [] else parts[0] + Concat(parts[1..])
  }

  lemma {:induction false} ConcatAppend(parts: seq<seq<Byte>>, last: seq<Byte>)
    ensures Concat(parts + [last]) == Concat(parts) + last
  {
    if parts == [] {
      assert [last][1..] == [];
    } else {
      ConcatAppend(parts[1..], last);
      assert (parts + [last])[1..] == parts[1..] + [last];
    }
  }
}
