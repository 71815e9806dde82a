/** Encryption of MPPE keys in RADIUS answers (section 2.4.2 of RFC 2548). MD5 stands for any
    function to 16 octets. */
module MPPE {
  import opened Wrappers
  import opened Bytes

  type Digest = b: seq<Byte> | |b| == 16 witness seq(16, _ => 0)

  datatype Error = KeyTooLong | EmptySecret | SaltHighBitClear

  function XorBlock(a: seq<Byte>, mask: Digest): (r: seq<Byte>)
    requires |a| == 16
    ensures |r| == 16
  {
    seq(16, i requires 0 <= i < 16 => XorOctet(a[i], mask[i]))
  }

  function XorOctet(a: Byte, b: Byte): Byte {
    assert Pow2(8) == 256 by { assert Pow2(4) == 16; }
    Xor(a, b, 8)
  }

  lemma XorOctetTwice(a: Byte, b: Byte)
    ensures XorOctet(XorOctet(a, b), b) == a
  {
    assert Pow2(8) == 256 by { assert Pow2(4) == 16; }
    XorTwice(a, b, 8);
  }

  lemma XorBlockTwice(a: seq<Byte>, mask: Digest)
    requires |a| == 16
    ensures XorBlock(XorBlock(a, mask), mask) == a
  {
    forall i | 0 <= i < 16 ensures XorBlock(XorBlock(a, mask), mask)[i] == a[i] {
      XorOctetTwice(a[i], mask[i]);
    }
  }

  /** Each block is masked with a digest of the secret and the previous block of ciphertext. */
  function EncryptBlocks(md5: seq<Byte> -> Digest, secret: seq<Byte>, prev: seq<Byte>, plain: seq<Byte>): (r: seq<Byte>)
    requires |plain| % 16 == 0
    ensures |r| == |plain|
    decreases |plain|
  {
    if plain == [] then []
    else
      var c := XorBlock(plain[..16], md5(secret + prev));
      c + EncryptBlocks(md5, secret, c, plain[16..])
  }

  function DecryptBlocks(md5: seq<Byte> -> Digest, secret: seq<Byte>, prev: seq<Byte>, cipher: seq<Byte>): (r: seq<Byte>)
    requires |cipher| % 16 == 0
    ensures |r| == |cipher|
    decreases |cipher|
  {
    if cipher == [] then []
    else XorBlock(cipher[..16], md5(secret + prev)) + DecryptBlocks(md5, secret, cipher[..16], cipher[16..])
  }

  function Padded(n: nat): (r: nat)
    ensures n <= r < n + 16 && r % 16 == 0
  {
    (n + 15) / 16 * 16
  }

  /** The length of the key, the key, and zeros up to a whole number of blocks. */
  function Plain(key: seq<Byte>): (p: seq<Byte>)
    requires |key| <= 255
    ensures |p| == Padded(1 + |key|)
  {
    [|key|] + key + seq(Padded(1 + |key|) - 1 - |key|, _ => 0)
  }

  function Encrypt(md5: seq<Byte> -> Digest, secret: seq<Byte>, authenticator: Digest, salt: seq<Byte>, key: seq<Byte>):
    Result<seq<Byte>, Error>
    requires |salt| == 2
  {
    if |key| > 255 then Err(KeyTooLong)
    else if secret == [] then Err(EmptySecret)
    else if salt[0] < 0x80 then Err(SaltHighBitClear)
    else Ok(salt + EncryptBlocks(md5, secret, authenticator + salt, Plain(key)))
  }

  /** What the receiver does: unmask block by block, then cut the key out by its length. */
  function Decrypt(md5: seq<Byte> -> Digest, secret: seq<Byte>, authenticator: Digest, attribute: seq<Byte>): Option<seq<Byte>> {
    if |attribute| < 18 || (|attribute| - 2) % 16 != 0 then None
    else
      var plain := DecryptBlocks(md5, secret, authenticator + attribute[..2], attribute[2..]);
      if plain[0] as nat >= |plain| then None else Some(plain[1..1 + plain[0] as nat])
  }

  lemma {:induction false} DecryptEncryptBlocks(md5: seq<Byte> -> Digest, secret: seq<Byte>, prev: seq<Byte>, plain: seq<Byte>)
    requires |plain| % 16 == 0
    ensures DecryptBlocks(md5, secret, prev, EncryptBlocks(md5, secret, prev, plain)) == plain
    decreases |plain|
  {
    if plain != [] {
      var c := XorBlock(plain[..16], md5(secret + prev));
      var rest := EncryptBlocks(md5, secret, c, plain[16..]);
      assert (c + rest)[..16] == c && (c + rest)[16..] == rest;
      XorBlockTwice(plain[..16], md5(secret + prev));
      DecryptEncryptBlocks(md5, secret, c, plain[16..]);
      assert plain == plain[..16] + plain[16..];
    }
  }

  lemma {:induction false} BlocksChain(md5: seq<Byte> -> Digest, secret: seq<Byte>, prev: seq<Byte>, plain: seq<Byte>, i: nat, k: nat)
    requires |plain| % 16 == 0 && 16 * i < |plain| && k < 16
    ensures var c := EncryptBlocks(md5, secret, prev, plain);
            c[16 * i + k] == XorOctet(plain[16 * i + k], md5(secret + if i == 0 then prev else c[16 * i - 16..16 * i])[k])
    decreases i
  {
    hide XorOctet;
    var first := XorBlock(plain[..16], md5(secret + prev));
    var rest := EncryptBlocks(md5, secret, first, plain[16..]);
    var c := EncryptBlocks(md5, secret, prev, plain);
    assert c == first + rest;
    if i > 0 {
      BlocksChain(md5, secret, first, plain[16..], i - 1, k);
      assert plain[16..][16 * (i - 1) + k] == plain[16 * i + k] && rest[16 * (i - 1) + k] == c[16 * i + k];
      if i == 1 {
        assert c[0..16] == first;
      } else {
        assert rest[16 * (i - 1) - 16..16 * (i - 1)] == c[16 * i - 16..16 * i];
      }
    }
  }

  /** The attribute octet by octet: the salt, and behind it each block of length, key and zeros
      added bit by bit to the digest of the secret and the block before, the first one to that
      of the secret, the authenticator and the salt. */
  lemma AttributeOctets(md5: seq<Byte> -> Digest, secret: seq<Byte>, authenticator: Digest, salt: seq<Byte>, key: seq<Byte>,
                        i: nat, k: nat)
    requires |salt| == 2 && Encrypt(md5, secret, authenticator, salt, key).Ok? && 16 * i <= |key| && k < 16
    ensures var b := Encrypt(md5, secret, authenticator, salt, key).value;
            var n := 16 * i + k;
            var plain: Byte := if n == 0 then |key| else if n <= |key| then key[n - 1] else 0;
            && b[..2] == salt && 2 + n < |b|
            && b[2 + n] == XorOctet(plain, md5(secret + if i == 0 then authenticator + salt else b[16 * i - 14..16 * i + 2])[k])
  {
    hide XorOctet, EncryptBlocks;
    var c := EncryptBlocks(md5, secret, authenticator + salt, Plain(key));
    BlocksChain(md5, secret, authenticator + salt, Plain(key), i, k);
    var b := salt + c;
    assert b == Encrypt(md5, secret, authenticator, salt, key).value;
    assert i > 0 ==> b[16 * i - 14..16 * i + 2] == c[16 * i - 16..16 * i];
  }

  /** A sum of two octets has a bit exactly where one of them has it and the other has not. */
  lemma XorOctetBits(a: Byte, b: Byte, i: nat)
    requires i < 8
    ensures (XorOctet(a, b) / Pow2(i)) % 2 == 1 <==> ((a / Pow2(i)) % 2 == 1) != ((b / Pow2(i)) % 2 == 1)
  {
    XorBits(a, b, 8, i);
  }

  /** Every key of up to 255 octets comes back, whatever the digest function; the attribute is
      two octets of salt and whole blocks. */
  lemma KeyRoundTrip(md5: seq<Byte> -> Digest, secret: seq<Byte>, authenticator: Digest, salt: seq<Byte>, key: seq<Byte>)
    requires |salt| == 2
    ensures var r := Encrypt(md5, secret, authenticator, salt, key);
            && (r.Ok? <==> |key| <= 255 && secret != [] && salt[0] >= 0x80)
            && (r.Ok? ==> |r.value| == 2 + Padded(1 + |key|) && r.value[..2] == salt
                          && Decrypt(md5, secret, authenticator, r.value) == Some(key))
  {
    var r := Encrypt(md5, secret, authenticator, salt, key);
    if r.Ok? {
      var plain := Plain(key);
      assert r.value[..2] == salt && r.value[2..] == EncryptBlocks(md5, secret, authenticator + salt, plain);
      DecryptEncryptBlocks(md5, secret, authenticator + salt, plain);
      assert plain[1..1 + |key|] == key;
    }
  }

  /** The output is filled block by block; each block reads the one written before it. */
  method EncryptMPPEKey(md5: seq<Byte> -> Digest, secret: seq<Byte>, authenticator: Digest, salt: seq<Byte>, key: seq<Byte>)
    returns (out: array<Byte>, err: Option<Error>)
    requires |salt| == 2
    ensures Encrypt(md5, secret, authenticator, salt, key) == if err.Some? then Err(err.value) else Ok(out[..])
  {
    hide XorBlock, EncryptBlocks;
    out := new Byte[0];
    if |key| > 255 {
      return out, Some(KeyTooLong);
    }
    if |secret| == 0 {
      return out, Some(EmptySecret);
    }
    if salt[0] < 0x80 {
      return out, Some(SaltHighBitClear);
    }
    var plain := Plain(key);
    out := new Byte[2 + |plain|];
    out[0], out[1] := salt[0], salt[1];
    FillBlocks(md5, secret, authenticator, salt, plain, out);
    assert out[..] == out[..2] + out[2..];
    err := None;
  }

  /** The blocks behind the salt, one after the other. */
  method FillBlocks(md5: seq<Byte> -> Digest, secret: seq<Byte>, authenticator: Digest, salt: seq<Byte>, plain: seq<Byte>,
                    out: array<Byte>)
    requires |salt| == 2 && out.Length == 2 + |plain| && |plain| % 16 == 0 && out[..2] == salt
    modifies out
    ensures out[..2] == salt && out[2..] == EncryptBlocks(md5, secret, authenticator + salt, plain)
  {
    hide XorBlock, EncryptBlocks;
    ghost var prev := authenticator + salt;
    var offset := 0;
    while offset < |plain|
      invariant 0 <= offset <= |plain| && offset % 16 == 0 && |plain| % 16 == 0 && out[..2] == salt
      invariant prev == if offset == 0 then authenticator + salt else out[2 + offset - 16..2 + offset]
      invariant out[2..2 + offset] + EncryptBlocks(md5, secret, prev, plain[offset..])
             == EncryptBlocks(md5, secret, authenticator + salt, plain)
    {
      var mask := if offset == 0 then md5(secret + (authenticator + salt)) else md5(secret + out[2 + offset - 16..2 + offset]);
      ghost var c := XorBlock(plain[offset..][..16], mask);
      ghost var done := out[2..2 + offset];
      FillBlock(out, 2 + offset, plain[offset..][..16], mask);
      BlockDone(md5, secret, prev, plain, offset, done, c);
      assert out[2..2 + offset + 16] == done + c;
      prev := c;
      offset := offset + 16;
    }
    NoBlocks(md5, secret, prev);
    assert plain[offset..] == [] && out[2..2 + offset] + [] == out[2..2 + offset];
    assert out[2..2 + offset] == out[2..];
  }

  lemma NoBlocks(md5: seq<Byte> -> Digest, secret: seq<Byte>, prev: seq<Byte>)
    ensures EncryptBlocks(md5, secret, prev, []) == []
  {
  }

  method FillBlock(out: array<Byte>, at: nat, block: seq<Byte>, mask: Digest)
    requires at + 16 <= out.Length && |block| == 16
    modifies out
    ensures out[at..at + 16] == XorBlock(block, mask) && out[..at] == old(out[..at])
    ensures at >= 2 ==> out[..2] == old(out[..2]) && out[2..at] == old(out[2..at])
  {
    hide XorOctet;
    for i := 0 to 16
      invariant forall j :: 0 <= j < at ==> out[j] == old(out[j])
      invariant forall j :: 0 <= j < i ==> out[at + j] == XorBlock(block, mask)[j]
    {
      out[at + i] := XorOctet(block[i], mask[i]);
    }
  }

  lemma BlockDone(md5: seq<Byte> -> Digest, secret: seq<Byte>, prev: seq<Byte>, plain: seq<Byte>, offset: nat,
                  done: seq<Byte>, c: seq<Byte>)
    requires offset % 16 == 0 && |plain| % 16 == 0 && offset < |plain|
    requires c == XorBlock(plain[offset..][..16], md5(secret + prev))
    ensures done + EncryptBlocks(md5, secret, prev, plain[offset..])
         == (done + c) + EncryptBlocks(md5, secret, c, plain[offset + 16..])
  {
    assert plain[offset..][16..] == plain[offset + 16..];
  }
}
