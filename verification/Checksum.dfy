/** The Internet checksum over octets (section 3.1 of RFC 791): a sum of 16-bit words, folded
    to 16 bits and complemented. */
module Checksum {
  import opened Bytes

  const WORD: nat := 0x1_0000_0000

  /** The sum of the big-endian words; an odd last octet is the high half of a word. */
  function WordSum(b: seq<Byte>): nat {
    if |b| >= 2 then Get16(b[..2]) + WordSum(b[2..])
    else if |b| == 1 then b[0] as nat * 0x100
    else 0
  }

  function Fold(sum: nat): (r: nat)
    ensures r < 0x1_0000 && (r == 0 <==> sum == 0)
    ensures r % 0xffff == sum % 0xffff
    decreases sum
  {
    if sum < 0x1_0000 then sum
    else
      FoldStep(sum);
      Fold(sum % 0x1_0000 + sum / 0x1_0000)
  }

  lemma FoldStep(sum: nat)
    ensures (sum % 0x1_0000 + sum / 0x1_0000) % 0xffff == sum % 0xffff
  {
    var q, r := sum / 0x1_0000, sum % 0x1_0000;
    assert sum == q * 0xffff + (q + r);
    AddMultiple(q, q + r);
  }

  lemma {:induction false} AddMultiple(q: nat, x: nat)
    ensures (q * 0xffff + x) % 0xffff == x % 0xffff
  {
  }

  /** The checksum of some octets whose word sum fits 32 bits. */
  function Sum(b: seq<Byte>): (r: nat)
    ensures r < 0x1_0000
  {
    0xffff - Fold(WordSum(b) % WORD)
  }

  /** A sum that wraps at 32 bits, with more to come. */
  lemma WrapAdd(sum: nat, w: nat, more: nat)
    requires sum < WORD && w < 0x1_0000
    ensures ((sum + w) % WORD + more) % WORD == (sum + (w + more)) % WORD
  {
    if sum + w >= WORD {
      assert (sum + w) % WORD == sum + w - WORD;
      assert (sum + w + more) % WORD == (sum + w - WORD + more) % WORD;
    }
  }

  lemma FoldOnce(sum: nat)
    ensures Fold(sum) == if sum < 0x1_0000 then sum else Fold(sum % 0x1_0000 + sum / 0x1_0000)
  {
  }

  method ComputeChecksum(b: seq<Byte>) returns (r: nat)
    ensures r == Sum(b)
  {
    hide Fold, Get16;
    var sum: nat := 0;
    var rest := b;
    while |rest| >= 2
      invariant sum < WORD && (sum + WordSum(rest)) % WORD == WordSum(b) % WORD
      decreases |rest|
    {
      WrapAdd(sum, Get16(rest[..2]), WordSum(rest[2..]));
      sum := (sum + Get16(rest[..2])) % WORD;
      rest := rest[2..];
    }
    if |rest| == 1 {
      WrapAdd(sum, rest[0] as nat * 0x100, 0);
      sum := (sum + rest[0] as nat * 0x100) % WORD;
    }
    assert sum == WordSum(b) % WORD;
    while sum >= 0x1_0000
      invariant Fold(sum) == Fold(WordSum(b) % WORD)
      decreases sum
    {
      FoldOnce(sum);
      sum := sum % 0x1_0000 + sum / 0x1_0000;
    }
    FoldOnce(sum);
    r := 0xffff - sum;
  }

  /** b with the two octets at an offset replaced. */
  function With16(b: seq<Byte>, at: nat, v: nat): (r: seq<Byte>)
    requires at + 2 <= |b| && v < 0x1_0000
    ensures |r| == |b|
  {
    b[..at] + Put16(v) + b[at + 2..]
  }

  lemma {:induction false} FieldAdds(b: seq<Byte>, at: nat, v: nat)
    requires at % 2 == 0 && at + 2 <= |b| && v < 0x1_0000
    ensures WordSum(With16(b, at, v)) == WordSum(With16(b, at, 0)) + v
  {
    if at == 0 {
      RoundTrip16(v, []);
      assert With16(b, 0, v)[..2] == Put16(v) && With16(b, 0, v)[2..] == b[2..];
      assert With16(b, 0, 0)[..2] == Put16(0) && With16(b, 0, 0)[2..] == b[2..];
    } else {
      FieldAdds(b[2..], at - 2, v);
      assert With16(b, at, v)[..2] == b[..2] && With16(b, at, v)[2..] == With16(b[2..], at - 2, v);
      assert With16(b, at, 0)[..2] == b[..2] && With16(b, at, 0)[2..] == With16(b[2..], at - 2, 0);
    }
  }

  /** Writing the checksum of a buffer with a zeroed field into that field makes the checksum
      of the buffer zero. */
  lemma ChecksumVerifies(b: seq<Byte>, at: nat)
    requires at % 2 == 0 && at + 2 <= |b|
    requires WordSum(With16(b, at, 0)) + 0xffff < WORD
    ensures Sum(With16(b, at, Sum(With16(b, at, 0)))) == 0
  {
    hide WordSum, With16, Fold;
    var zeroed := WordSum(With16(b, at, 0));
    var c := Sum(With16(b, at, 0));
    FieldAdds(b, at, c);
    MultipleOfAllOnes(zeroed, Fold(zeroed));
    AllOnes(Fold(zeroed + c));
  }

  lemma AllOnes(f: nat)
    requires 0 < f < 0x1_0000 && f % 0xffff == 0
    ensures f == 0xffff
  {
  }

  lemma MultipleOfAllOnes(a: nat, f: nat)
    requires f < 0x1_0000 && f % 0xffff == a % 0xffff && (f == 0 <==> a == 0)
    ensures (a + 0xffff - f) % 0xffff == 0 && a + 0xffff - f > 0
  {
    var p, q, r := a / 0xffff, f / 0xffff, a % 0xffff;
    assert a == p * 0xffff + r && f == q * 0xffff + r;
    assert a + 0xffff - f == (p + 1 - q) * 0xffff;
    if p + 1 >= q {
      AddMultiple(p + 1 - q, 0);
    }
  }

  lemma {:induction false} WordSumBound(b: seq<Byte>)
    ensures WordSum(b) <= (|b| + 1) / 2 * 0xffff
  {
    if |b| >= 2 {
      WordSumBound(b[2..]);
    }
  }

  /** Up to 65537 words the sum cannot overflow 32 bits, whatever the octets. */
  lemma ShortBuffersVerify(b: seq<Byte>, at: nat)
    requires at % 2 == 0 && at + 2 <= |b| <= 131074
    ensures Sum(With16(b, at, Sum(With16(b, at, 0)))) == 0
  {
    WordSumBound(With16(b, at, 0xffff));
    FieldAdds(b, at, 0xffff);
    ChecksumVerifies(b, at);
  }
}
