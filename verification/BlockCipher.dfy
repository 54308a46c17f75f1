/** A block cipher under one key: a permutation of the blocks of its size, and its inverse.  The modes call it
    through `crypto_cipher_alg(tfm)->cia_encrypt` and `cia_decrypt`; what they promise does not depend on
    which cipher it is, only on the two functions undoing each other.  A cipher is a value here, with
    the proof that it is one in its type. */
module BlockCipher {
  import opened Bytes

  datatype Functions = Functions(size: nat, enc: seq<byte> -> seq<byte>, dec: seq<byte> -> seq<byte>)

  /** Both functions keep the size of block `b`, and each undoes the other on it. */
  predicate Invertible(c: Functions, b: seq<byte>) {
    |c.enc(b)| == |c.dec(b)| == c.size && c.dec(c.enc(b)) == c.enc(c.dec(b)) == b
  }

  ghost predicate Keyed(c: Functions) {
    c.size > 0 && forall b: seq<byte> {:trigger Invertible(c, b)} :: |b| == c.size ==> Invertible(c, b)
  }

  type Cipher = c: Functions | Keyed(c) witness Functions(1, (b: seq<byte>) => b, (b: seq<byte>) => b)

  /** cia_encrypt */
  function Enc(c: Cipher, b: seq<byte>): (r: seq<byte>)
    requires |b| == c.size
    ensures |r| == c.size
  {
    assert Invertible(c, b);
    c.enc(b)
  }

  /** cia_decrypt */
  function Dec(c: Cipher, b: seq<byte>): (r: seq<byte>)
    requires |b| == c.size
    ensures |r| == c.size
  {
    assert Invertible(c, b);
    c.dec(b)
  }

  lemma Inverse(c: Cipher, b: seq<byte>)
    requires |b| == c.size
    ensures Dec(c, Enc(c, b)) == b
    ensures Enc(c, Dec(c, b)) == b
  {
    assert Invertible(c, b);
  }

  lemma Positive(c: Cipher)
    ensures c.size > 0
  {
  }
}
