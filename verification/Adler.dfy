/** Adler-32 (section 8.2 of RFC 1950), and which alterations it is certain to catch. */
module Adler {
  import opened Bytes

  const BASE := 65521

  /** The two running sums, from `a` and `b`. */
  function Sums(bs: seq<Byte>, a: int, b: int): (int, int) {
    if bs == [] then (a, b)
    else
      var a' := (a + bs[0]) % BASE;
      Sums(bs[1..], a', (b + a') % BASE)
  }

  function Checksum(bs: seq<Byte>): (word: nat)
    ensures word < TWO_32
  {
    SumsRange(bs, 1, 0);
    var (a, b) := Sums(bs, 1, 0);
    b * 0x1_0000 + a
  }

  lemma {:induction false} SumsRange(bs: seq<Byte>, a: int, b: int)
    requires 0 <= a < BASE && 0 <= b < BASE
    ensures 0 <= Sums(bs, a, b).0 < BASE && 0 <= Sums(bs, a, b).1 < BASE
    decreases bs
  {
    if bs != [] {
      var a' := (a + bs[0]) % BASE;
      SumsRange(bs[1..], a', (b + a') % BASE);
    }
  }

  /** Sum of the octets. */
  function Total(bs: seq<Byte>): nat {
    if bs == [] then 0 else bs[0] as int + Total(bs[1..])
  }

  /** Sum of the octets, each counted once per remaining position. */
  function Weighted(bs: seq<Byte>): nat {
    if bs == [] then 0 else bs[0] as int * |bs| + Weighted(bs[1..])
  }

  predicate Congruent(x: int, y: int) {
    (x - y) % BASE == 0
  }

  lemma Multiple(x: int, k: int)
    requires x == BASE * k
    ensures x % BASE == 0
  {
  }

  lemma CongruentTimes(c: int, x: int, y: int)
    requires Congruent(x, y)
    ensures Congruent(c * x, c * y)
  {
    var k := (x - y) / BASE;
    assert x - y == BASE * k;
    assert c * x - c * y == BASE * (c * k) by { assert c * x - c * y == c * (x - y); }
    Multiple(c * x - c * y, c * k);
  }

  lemma ModCongruent(x: int)
    ensures Congruent(x % BASE, x)
  {
    assert x % BASE - x == BASE * -(x / BASE);
  }

  lemma CongruentAdd(x: int, y: int, c: int)
    requires Congruent(x, y)
    ensures Congruent(x + c, y + c)
  {
  }

  lemma CongruentTrans(x: int, y: int, z: int)
    requires Congruent(x, y) && Congruent(y, z)
    ensures Congruent(x, z)
  {
  }

  /** Residues are equal exactly when what they stand for is congruent. */
  lemma ResiduesEqual(r: int, s: int, x: int, y: int)
    requires 0 <= r < BASE && 0 <= s < BASE && Congruent(r, x) && Congruent(s, y)
    ensures r == s <==> Congruent(x, y)
  {
  }

  /** One octet's step: what holds of the sums over the tail holds of the sums over the whole. */
  lemma SumsStep(s: int, u: int, a: int, b: int, x: int, n: int, t: int, w: int)
    requires var a' := (a + x) % BASE;
             Congruent(s, a' + t) && Congruent(u, (b + a') % BASE + n * a' + w)
    ensures Congruent(s, a + x + t)
    ensures Congruent(u, b + (n + 1) * (a + x) + w)
  {
    hide Congruent;
    var a' := (a + x) % BASE;
    var b' := (b + a') % BASE;
    ModCongruent(a + x);
    CongruentAdd(a', a + x, t);
    CongruentTrans(s, a' + t, a + x + t);
    ModCongruent(b + a');
    CongruentAdd(b', b + a', n * a' + w);
    CongruentTimes(n + 1, a', a + x);
    CongruentAdd((n + 1) * a', (n + 1) * (a + x), b + w);
    assert (n + 1) * a' == n * a' + a';
    CongruentTrans(u, b' + (n * a' + w), b + a' + (n * a' + w));
    CongruentTrans(u, (n + 1) * a' + (b + w), (n + 1) * (a + x) + (b + w));
  }

  /** The reductions modulo 65521 along the way do not matter. */
  lemma {:induction false} SumsClosed(bs: seq<Byte>, a: int, b: int)
    ensures Congruent(Sums(bs, a, b).0, a + Total(bs))
    ensures Congruent(Sums(bs, a, b).1, b + |bs| * a + Weighted(bs))
    decreases bs
  {
    if bs != [] {
      hide Congruent;
      var x, n := bs[0] as int, |bs| - 1;
      var a' := (a + x) % BASE;
      SumsClosed(bs[1..], a', (b + a') % BASE);
      SumsStep(Sums(bs, a, b).0, Sums(bs, a, b).1, a, b, x, n, Total(bs[1..]), Weighted(bs[1..]));
      Distribute(n + 1, a, x);
    }
  }

  lemma Distribute(n: int, a: int, x: int)
    ensures n * (a + x) == n * a + x * n
  {
  }

  /** For strings of one length, equal checksums mean congruent plain and weighted sums. */
  lemma ChecksumEqual(x: seq<Byte>, y: seq<Byte>)
    requires |x| == |y|
    ensures Checksum(x) == Checksum(y) <==>
            Congruent(Total(x), Total(y)) && Congruent(Weighted(x), Weighted(y))
  {
    hide Congruent, Sums, Total, Weighted;
    SumsRange(x, 1, 0);
    SumsRange(y, 1, 0);
    SumsClosed(x, 1, 0);
    SumsClosed(y, 1, 0);
    var (a1, b1) := Sums(x, 1, 0);
    var (a2, b2) := Sums(y, 1, 0);
    ResiduesEqual(a1, a2, 1 + Total(x), 1 + Total(y));
    ResiduesEqual(b1, b2, |x| + Weighted(x), |y| + Weighted(y));
    CongruentShift(1 + Total(x), 1 + Total(y), 1);
    CongruentShift(|x| + Weighted(x), |y| + Weighted(y), |x|);
  }

  /**
   What the value is: the low half is one more than the sum of the octets, the high half the length plus the sum of the
   octets each counted once per remaining position, both modulo 65521.
   */
  lemma IsAdler32(bs: seq<Byte>)
    ensures Checksum(bs) % 0x1_0000 == (1 + Total(bs)) % 65521
    ensures Checksum(bs) / 0x1_0000 == (|bs| + Weighted(bs)) % 65521
  {
    hide Sums, Total, Weighted;
    SumsRange(bs, 1, 0);
    SumsClosed(bs, 1, 0);
    var (a, b) := Sums(bs, 1, 0);
    IsResidue(a, 1 + Total(bs));
    IsResidue(b, |bs| + Weighted(bs));
    Halves(a, b);
  }

  lemma IsResidue(r: int, x: int)
    requires 0 <= r < BASE && Congruent(r, x)
    ensures r == x % BASE
  {
  }

  lemma Halves(a: int, b: int)
    requires 0 <= a < BASE && 0 <= b < BASE
    ensures (b * 0x1_0000 + a) % 0x1_0000 == a && (b * 0x1_0000 + a) / 0x1_0000 == b
  {
  }

  /** The value of no octets is 1; that of the three octets of "abc" is 0x024D0127. */
  lemma KnownValues()
    ensures Checksum([]) == 1
    ensures Checksum([97, 98, 99]) == 0x024D_0127
  {
    var bs: seq<Byte> := [97, 98, 99];
    assert bs[1..] == [98, 99] && bs[1..][1..] == [99] && bs[1..][1..][1..] == [];
    assert Sums([99], 196, 294) == (295, 589);
    assert Sums([98, 99], 98, 98) == (295, 589) by { assert [98, 99][1..] == [99]; }
  }

  lemma CongruentShift(x: int, y: int, c: int)
    ensures Congruent(x, y) <==> Congruent(x - c, y - c)
  {
  }

  lemma TimesDifference(u: int, b: int, n: int)
    ensures u * n == b * n + (u - b) * n
  {
  }

  lemma {:induction false} TotalUpdate(bs: seq<Byte>, i: nat, u: Byte)
    requires i < |bs|
    ensures Total(bs[i := u]) == Total(bs) + u as int - bs[i] as int
    ensures Weighted(bs[i := u]) == Weighted(bs) + (u as int - bs[i] as int) * (|bs| - i)
  {
    var cs := bs[i := u];
    assert Weighted(cs) == cs[0] as int * |bs| + Weighted(cs[1..]);
    if i == 0 {
      assert cs[1..] == bs[1..];
      TimesDifference(u as int, bs[0] as int, |bs|);
    } else {
      assert cs[1..] == bs[1..][i - 1 := u];
      TotalUpdate(bs[1..], i - 1, u);
      assert |bs[1..]| - (i - 1) == |bs| - i;
    }
  }

  lemma NoSmallDivisor(d: nat)
    requires 2 <= d < 256
    ensures BASE % d != 0
  {
  }

  /** Euclid's lemma for a factor below 256. */
  lemma {:induction false} Cancel(d: nat, k: int)
    requires 0 < d < 256 && (d * k) % BASE == 0
    ensures k % BASE == 0
  {
    if d > 1 {
      NoSmallDivisor(d);
      var q, r := BASE / d, BASE % d;
      var m := d * k / BASE;
      assert d * k == BASE * m;
      assert r * k == BASE * (k - q * m) by {
        assert BASE == q * d + r;
        assert BASE * k == q * (d * k) + r * k;
        assert q * (d * k) == BASE * (q * m);
      }
      Multiple(r * k, k - q * m);
      Cancel(r, k);
    }
  }

  lemma CancelIff(d: int, k: int)
    requires -256 < d < 256
    ensures (d * k) % BASE == 0 <==> d == 0 || k % BASE == 0
  {
    if d != 0 {
      if k % BASE == 0 {
        assert d * k == BASE * (d * (k / BASE));
        Multiple(d * k, d * (k / BASE));
      } else if (d * k) % BASE == 0 {
        if d > 0 {
          Cancel(d, k);
        } else {
          assert (-d) * k == -(d * k);
          Cancel(-d, k);
        }
      }
    }
  }

  /** Changing one octet always changes the checksum. */
  lemma OneOctet(bs: seq<Byte>, i: nat, u: Byte)
    requires i < |bs|
    ensures Checksum(bs[i := u]) == Checksum(bs) <==> u == bs[i]
  {
    TotalUpdate(bs, i, u);
    ChecksumEqual(bs[i := u], bs);
    if u == bs[i] {
      assert bs[i := u] == bs;
    }
  }

  /**
   Changing two octets goes unnoticed exactly when the changes cancel out and, unless they are no changes at all,
   their distance is a multiple of 65521.
   */
  lemma TwoOctets(bs: seq<Byte>, i: nat, u: Byte, j: nat, v: Byte)
    requires i < j < |bs|
    ensures Checksum(bs[i := u][j := v]) == Checksum(bs) <==>
            u as int - bs[i] as int == bs[j] as int - v as int && (u == bs[i] || (j - i) % BASE == 0)
  {
    hide Total, Weighted, Checksum;
    var y := bs[i := u][j := v];
    var n := |bs|;
    var d, e := u as int - bs[i] as int, v as int - bs[j] as int;
    TotalUpdate(bs, i, u);
    TotalUpdate(bs[i := u], j, v);
    ChecksumEqual(y, bs);
    if d + e == 0 {
      Telescope(d, n - i, n - j);
      CancelIff(d, j - i);
    }
  }

  lemma Telescope(d: int, x: int, y: int)
    ensures d * x + (-d) * y == d * (x - y)
  {
  }
}
