/** Octets, big-endian numbers over them, and the bit operations the codecs use, all by value. */
module Bytes {

  type Byte = n: nat | n < 256

  function Put16(v: nat): (b: seq<Byte>)
    requires v < 0x1_0000
    ensures |b| == 2
  {
    [v / 0x100, v % 0x100]
  }

  function Get16(b: seq<Byte>): (v: nat)
    requires |b| == 2
    ensures v < 0x1_0000
  {
    b[0] as nat * 0x100 + b[1]
  }

  function Put24(v: nat): (b: seq<Byte>)
    requires v < 0x100_0000
    ensures |b| == 3
  {
    [v / 0x1_0000, v / 0x100 % 0x100, v % 0x100]
  }

  function Get24(b: seq<Byte>): (v: nat)
    requires |b| == 3
    ensures v < 0x100_0000
  {
    b[0] as nat * 0x1_0000 + b[1] as nat * 0x100 + b[2]
  }

  function Put32(v: nat): (b: seq<Byte>)
    requires v < 0x1_0000_0000
    ensures |b| == 4
  {
    [v / 0x100_0000, v / 0x1_0000 % 0x100, v / 0x100 % 0x100, v % 0x100]
  }

  function Get32(b: seq<Byte>): (v: nat)
    requires |b| == 4
    ensures v < 0x1_0000_0000
  {
    b[0] as nat * 0x100_0000 + b[1] as nat * 0x1_0000 + b[2] as nat * 0x100 + b[3]
  }

  /** Each pair is inverse, both ways. */
  lemma RoundTrip16(v: nat, b: seq<Byte>)
    ensures v < 0x1_0000 ==> Get16(Put16(v)) == v
    ensures |b| == 2 ==> Put16(Get16(b)) == b
  {
  }

  lemma RoundTrip24(v: nat, b: seq<Byte>)
    ensures v < 0x100_0000 ==> Get24(Put24(v)) == v
    ensures |b| == 3 ==> Put24(Get24(b)) == b
  {
    Shift(v, 0x100);
    if |b| == 3 {
      Split(b[0] as nat * 0x100 + b[1], b[2]);
      Split(b[0], b[1]);
      Shift(Get24(b), 0x100);
    }
  }

  lemma RoundTrip32(v: nat, b: seq<Byte>)
    ensures v < 0x1_0000_0000 ==> Get32(Put32(v)) == v
    ensures |b| == 4 ==> Put32(Get32(b)) == b
  {
    Shift(v, 0x100);
    Shift(v, 0x1_0000);
    if |b| == 4 {
      var high := b[0] as nat * 0x100 + b[1];
      Split(high * 0x100 + b[2], b[3]);
      Split(high, b[2]);
      Split(b[0], b[1]);
      Shift(Get32(b), 0x100);
      Shift(Get32(b), 0x1_0000);
    }
  }

  /** Numbers in network order at an offset. */
  function Word16At(b: seq<Byte>, i: nat): nat
    requires i + 2 <= |b|
  {
    256 * b[i] as nat + b[i + 1] as nat
  }

  function Word24At(b: seq<Byte>, i: nat): nat
    requires i + 3 <= |b|
  {
    65536 * b[i] as nat + 256 * b[i + 1] as nat + b[i + 2] as nat
  }

  function Word32At(b: seq<Byte>, i: nat): nat
    requires i + 4 <= |b|
  {
    16777216 * b[i] as nat + 65536 * b[i + 1] as nat + 256 * b[i + 2] as nat + b[i + 3] as nat
  }

  /** Numbers are written and read with the most significant octet first. */
  lemma BigEndian(v: nat, b: seq<Byte>)
    ensures v < 0x1_0000 ==> Word16At(Put16(v), 0) == v
    ensures v < 0x100_0000 ==> Word24At(Put24(v), 0) == v
    ensures v < 0x1_0000_0000 ==> Word32At(Put32(v), 0) == v
    ensures |b| == 2 ==> Get16(b) == Word16At(b, 0)
    ensures |b| == 3 ==> Get24(b) == Word24At(b, 0)
    ensures |b| == 4 ==> Get32(b) == Word32At(b, 0)
  {
    RoundTrip16(v, []);
    RoundTrip24(v, []);
    RoundTrip32(v, []);
  }

  /** A number that was written somewhere is read there. */
  lemma Written16(b: seq<Byte>, i: nat, v: nat)
    requires v < 0x1_0000 && i + 2 <= |b| && b[i..i + 2] == Put16(v)
    ensures Word16At(b, i) == v
  {
    hide Put16;
    BigEndian(v, []);
    assert Put16(v)[0] == b[i] && Put16(v)[1] == b[i + 1];
  }

  lemma Written24(b: seq<Byte>, i: nat, v: nat)
    requires v < 0x100_0000 && i + 3 <= |b| && b[i..i + 3] == Put24(v)
    ensures Word24At(b, i) == v
  {
    hide Put24;
    BigEndian(v, []);
    assert Put24(v)[0] == b[i] && Put24(v)[1] == b[i + 1] && Put24(v)[2] == b[i + 2];
  }

  lemma Written32(b: seq<Byte>, i: nat, v: nat)
    requires v < 0x1_0000_0000 && i + 4 <= |b| && b[i..i + 4] == Put32(v)
    ensures Word32At(b, i) == v
  {
    hide Put32;
    BigEndian(v, []);
    assert Put32(v)[0] == b[i] && Put32(v)[1] == b[i + 1] && Put32(v)[2] == b[i + 2] && Put32(v)[3] == b[i + 3];
  }

  lemma Split(high: nat, low: Byte)
    ensures (high * 0x100 + low) / 0x100 == high && (high * 0x100 + low) % 0x100 == low
  {
  }

  lemma Shift(v: nat, d: nat)
    requires d == 0x100 || d == 0x1_0000
    ensures v / (d * 0x100) == v / d / 0x100
    ensures v == (v / d) * d + v % d
  {
  }

  function Pow2(n: nat): (p: nat)
    ensures p >= 1
  {
    if n == 0 then 1 else 2 * Pow2(n - 1)
  }

  /** The lowest n bits of x and y, combined bit by bit. */
  function And(x: nat, y: nat, n: nat): nat {
    if n == 0 then 0 else 2 * And(x / 2, y / 2, n - 1) + if x % 2 == 1 && y % 2 == 1 then 1 else 0
  }

  function Or(x: nat, y: nat, n: nat): nat {
    if n == 0 then 0 else 2 * Or(x / 2, y / 2, n - 1) + if x % 2 == 1 || y % 2 == 1 then 1 else 0
  }

  function Xor(x: nat, y: nat, n: nat): (r: nat)
    ensures r < Pow2(n)
  {
    if n == 0 then 0 else 2 * Xor(x / 2, y / 2, n - 1) + if x % 2 != y % 2 then 1 else 0
  }

  lemma {:induction false} XorTwice(x: nat, y: nat, n: nat)
    requires x < Pow2(n)
    ensures Xor(Xor(x, y, n), y, n) == x
  {
    if n > 0 {
      XorTwice(x / 2, y / 2, n - 1);
      assert Xor(x, y, n) / 2 == Xor(x / 2, y / 2, n - 1);
    }
  }

  lemma HalfMod(x: nat, p: nat)
    requires p >= 1
    ensures x % (2 * p) == 2 * (x / 2 % p) + x % 2
  {
    var q, r := x / 2 / p, x / 2 % p;
    assert x / 2 == q * p + r;
    assert x == 2 * (x / 2) + x % 2;
    assert x == q * (2 * p) + (2 * r + x % 2);
    ModOf(q, 2 * p, 2 * r + x % 2);
  }

  lemma ModOf(q: nat, p: nat, r: nat)
    requires r < p
    ensures (q * p + r) % p == r && (q * p + r) / p == q
  {
    var x := q * p + r;
    var q', r' := x / p, x % p;
    assert x == q' * p + r';
    if q' < q {
      assert q * p == q' * p + (q - q') * p;
      Grows(q - q', p);
    } else if q' > q {
      assert q' * p == q * p + (q' - q) * p;
      Grows(q' - q, p);
    }
  }

  lemma Grows(k: nat, p: nat)
    requires k >= 1
    ensures k * p >= p
  {
    assert k * p == (k - 1) * p + p;
  }

  /** A mask of n bits that ends in j zeros cuts a number down to a multiple of 2^j. */
  lemma {:induction false} AndMask(x: nat, j: nat, n: nat)
    requires j <= n && x < Pow2(n)
    ensures Pow2(j) <= Pow2(n)
    ensures And(x, Pow2(n) - Pow2(j), n) == x - x % Pow2(j)
  {
    if n > 0 {
      if j == 0 {
        AndMask(x / 2, 0, n - 1);
        assert (Pow2(n) - 1) / 2 == Pow2(n - 1) - 1;
      } else {
        AndMask(x / 2, j - 1, n - 1);
        assert (Pow2(n) - Pow2(j)) / 2 == Pow2(n - 1) - Pow2(j - 1);
        HalfMod(x, Pow2(j - 1));
      }
    }
  }

  /** Filling in the last j bits of a multiple of 2^j. */
  lemma {:induction false} OrLow(x: nat, j: nat, n: nat)
    requires j <= n && x < Pow2(n) && x % Pow2(j) == 0
    ensures Or(x, Pow2(j) - 1, n) == x + Pow2(j) - 1
  {
    if n > 0 {
      if j == 0 {
        OrLow(x / 2, 0, n - 1);
      } else {
        HalfMod(x, Pow2(j - 1));
        OrLow(x / 2, j - 1, n - 1);
        assert (Pow2(j) - 1) / 2 == Pow2(j - 1) - 1;
      }
    }
  }

  function Zeros(n: nat): (b: seq<Byte>)
    ensures |b| == n && forall i :: 0 <= i < n ==> b[i] == 0
  {
    seq(n, _ => 0)
  }

  /** Copies octets into a buffer at an offset. */
  method CopyInto(out: array<Byte>, at: nat, b: seq<Byte>)
    requires at + |b| <= out.Length
    modifies out
    ensures out[at..at + |b|] == b
    ensures forall j :: 0 <= j < at || at + |b| <= j < out.Length ==> out[j] == old(out[j])
  {
    for i := 0 to |b|
      invariant forall j :: 0 <= j < out.Length && !(at <= j < at + i) ==> out[j] == old(out[j])
      invariant forall j :: 0 <= j < i ==> out[at + j] == b[j]
    {
      out[at + i] := b[i];
    }
  }

  /** Bit i of a bitwise sum. */
  lemma {:induction false} XorBits(x: nat, y: nat, n: nat, i: nat)
    requires i < n
    ensures (Xor(x, y, n) / Pow2(i)) % 2 == 1 <==> ((x / Pow2(i)) % 2 == 1) != ((y / Pow2(i)) % 2 == 1)
    decreases n
  {
    if i > 0 {
      XorBits(x / 2, y / 2, n - 1, i - 1);
      Halved(x, Pow2(i - 1));
      Halved(y, Pow2(i - 1));
      Halved(Xor(x, y, n), Pow2(i - 1));
      assert Xor(x, y, n) / 2 == Xor(x / 2, y / 2, n - 1);
    }
  }

  lemma Halved(x: nat, p: nat)
    requires p >= 1
    ensures x / (2 * p) == x / 2 / p
  {
    var q, r := x / 2 / p, x / 2 % p;
    assert x / 2 == q * p + r;
    assert x == 2 * (x / 2) + x % 2;
    assert x == q * (2 * p) + (2 * r + x % 2);
    ModOf(q, 2 * p, 2 * r + x % 2);
  }
}
