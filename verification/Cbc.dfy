/** Cipher block chaining: crypto/cbc.c. */
module Cbc {
  import opened Bytes
  import opened BlockCipher

  // ----- what CBC computes -----

  /** The number of bytes of `n` that are in whole blocks. */
  function Whole(c: Cipher, n: nat): (w: nat)
    ensures w <= n < w + c.size
  {
    if n < c.size then 0 else c.size + Whole(c, n - c.size)
  }

  lemma {:induction false} Idempotent(c: Cipher, n: nat)
    ensures Whole(c, Whole(c, n)) == Whole(c, n)
  {
    if n >= c.size {
      Idempotent(c, n - c.size);
    }
  }

  /** The encryption of the whole blocks of `p`. */
  function Encrypted(c: Cipher, iv: seq<byte>, p: seq<byte>): (r: seq<byte>)
    requires |iv| == c.size
    ensures |r| == Whole(c, |p|)
    decreases |p|
  {
    if |p| < c.size then []
    else var b := Enc(c, Xor(p[..c.size], iv)); b + Encrypted(c, b, p[c.size..])
  }

  /** The decryption of the whole blocks of `x`. */
  function Decrypted(c: Cipher, iv: seq<byte>, x: seq<byte>): (r: seq<byte>)
    requires |iv| == c.size
    ensures |r| == Whole(c, |x|)
    decreases |x|
  {
    if |x| < c.size then []
    else Xor(Dec(c, x[..c.size]), iv) + Decrypted(c, x[..c.size], x[c.size..])
  }

  /** The chaining value after the whole blocks of the cipher text `x`. */
  function Chain(c: Cipher, iv: seq<byte>, x: seq<byte>): (r: seq<byte>)
    requires |iv| == c.size
    ensures |r| == c.size
    decreases |x|
  {
    if |x| < c.size then iv else Chain(c, x[..c.size], x[c.size..])
  }

  // ----- one block at a time -----

  lemma Cons(c: Cipher, iv: seq<byte>, b: seq<byte>, s: seq<byte>)
    requires |iv| == |b| == c.size
    ensures Encrypted(c, iv, b + s) == Enc(c, Xor(b, iv)) + Encrypted(c, Enc(c, Xor(b, iv)), s)
    ensures Decrypted(c, iv, b + s) == Xor(Dec(c, b), iv) + Decrypted(c, b, s)
    ensures Chain(c, iv, b + s) == Chain(c, b, s)
    ensures Whole(c, |b + s|) == c.size + Whole(c, |s|)
  {
    hide Keyed, Enc, Dec;
    assert (b + s)[..c.size] == b && (b + s)[c.size..] == s;
  }

  lemma Short(c: Cipher, iv: seq<byte>, s: seq<byte>)
    requires |s| < c.size == |iv|
    ensures Encrypted(c, iv, s) == Decrypted(c, iv, s) == []
    ensures Chain(c, iv, s) == iv && Whole(c, |s|) == 0
  {
    hide Keyed, Enc, Dec;
  }

  /** A prefix that ends beyond the first block. */
  lemma Prefix(c: Cipher, b: seq<byte>, s: seq<byte>, n: nat)
    requires |b| == c.size <= n <= |b + s|
    ensures (b + s)[..n] == b + s[..n - c.size] && (b + s)[n..] == s[n - c.size..]
    ensures (b + s)[..Whole(c, n)] == b + s[..Whole(c, n - c.size)]
    ensures (b + s)[Whole(c, n)..] == s[Whole(c, n - c.size)..]
  {
    hide Keyed, Enc, Dec;
    assert Whole(c, n) == c.size + Whole(c, n - c.size);
  }

  // ----- its properties -----

  /** Decryption undoes encryption. */
  lemma {:induction false} RoundTrip(c: Cipher, iv: seq<byte>, p: seq<byte>)
    requires |iv| == c.size
    ensures Decrypted(c, iv, Encrypted(c, iv, p)) == p[..Whole(c, |p|)]
    decreases |p|
  {
    hide *;
    if |p| < c.size {
      Short(c, iv, p);
      Short(c, iv, []);
    } else {
      var b, t := p[..c.size], p[c.size..];
      assert p == b + t;
      var e := Enc(c, Xor(b, iv));
      Cons(c, iv, b, t);
      RoundTrip(c, e, t);
      Cons(c, iv, e, Encrypted(c, e, t));
      Inverse(c, Xor(b, iv));
      XorCancel(b, iv);
      Prefix(c, b, t, |p|);
    }
  }

  /** Encryption undoes decryption. */
  lemma {:induction false} RoundTripBack(c: Cipher, iv: seq<byte>, x: seq<byte>)
    requires |iv| == c.size
    ensures Encrypted(c, iv, Decrypted(c, iv, x)) == x[..Whole(c, |x|)]
    decreases |x|
  {
    hide *;
    if |x| < c.size {
      Short(c, iv, x);
      Short(c, iv, []);
    } else {
      var b, t := x[..c.size], x[c.size..];
      assert x == b + t;
      Cons(c, iv, b, t);
      RoundTripBack(c, b, t);
      Cons(c, iv, Xor(Dec(c, b), iv), Decrypted(c, b, t));
      Inverse(c, b);
      XorCancel(Dec(c, b), iv);
      Prefix(c, b, t, |x|);
    }
  }

  /** Processing `p` in two pieces, the first of `n` bytes: the bytes that this leaves over are
      processed with the second. */
  lemma {:induction false} EncryptedSplit(c: Cipher, iv: seq<byte>, p: seq<byte>, n: nat)
    requires |iv| == c.size && n <= |p|
    ensures
      var a := Encrypted(c, iv, p[..n]);
      Encrypted(c, iv, p) == a + Encrypted(c, Chain(c, iv, a), p[Whole(c, n)..])
    decreases |p|
  {
    hide *;
    if n < c.size {
      Short(c, iv, p[..n]);
      Short(c, iv, []);
      assert p[0..] == p;
    } else {
      var b, t := p[..c.size], p[c.size..];
      assert p == b + t;
      var e := Enc(c, Xor(b, iv));
      Cons(c, iv, b, t);
      Prefix(c, b, t, n);
      Cons(c, iv, b, t[..n - c.size]);
      EncryptedSplit(c, e, t, n - c.size);
      var a1 := Encrypted(c, e, t[..n - c.size]);
      Cons(c, iv, e, a1);
      Assoc(e, a1, Encrypted(c, Chain(c, e, a1), t[Whole(c, n - c.size)..]));
    }
  }

  lemma {:induction false} DecryptedSplit(c: Cipher, iv: seq<byte>, x: seq<byte>, n: nat)
    requires |iv| == c.size && n <= |x|
    ensures Decrypted(c, iv, x) ==
            Decrypted(c, iv, x[..n]) + Decrypted(c, Chain(c, iv, x[..n]), x[Whole(c, n)..])
    decreases |x|
  {
    hide *;
    if n < c.size {
      Short(c, iv, x[..n]);
      assert x[0..] == x;
    } else {
      var b, t := x[..c.size], x[c.size..];
      assert x == b + t;
      Cons(c, iv, b, t);
      Prefix(c, b, t, n);
      Cons(c, iv, b, t[..n - c.size]);
      DecryptedSplit(c, b, t, n - c.size);
      var t1 := t[..n - c.size];
      Assoc(Xor(Dec(c, b), iv), Decrypted(c, b, t1), Decrypted(c, Chain(c, b, t1), t[Whole(c, n - c.size)..]));
    }
  }

  /** Both directions leave the same chaining value: the last whole block of the cipher text. */
  lemma {:induction false} ChainIsLast(c: Cipher, iv: seq<byte>, x: seq<byte>)
    requires |iv| == c.size
    ensures Chain(c, iv, x) == (iv + x)[Whole(c, |x|)..Whole(c, |x|) + c.size]
    decreases |x|
  {
    hide *;
    if |x| < c.size {
      Short(c, iv, x);
      assert (iv + x)[0..c.size] == iv;
    } else {
      var b, t := x[..c.size], x[c.size..];
      assert x == b + t;
      Cons(c, iv, b, t);
      ChainIsLast(c, b, t);
      var w := Whole(c, |t|);
      assert (iv + x)[c.size + w..c.size + w + c.size] == x[w..w + c.size];
    }
  }

  /** What lies behind the first block of a sequence. */
  lemma Later(b: seq<byte>, t: seq<byte>, i: nat, n: nat)
    requires i + n <= |t|
    ensures (b + t)[i + |b|..i + |b| + n] == t[i..i + n]
  {
  }

  /** The textbook equation: the block at `at` is the encryption of the plain block mixed with the
      cipher block before it, the initial value standing before the first. */
  lemma {:induction false} Textbook(c: Cipher, iv: seq<byte>, p: seq<byte>, at: nat)
    requires |iv| == c.size && Whole(c, at) == at && at + c.size <= |p|
    ensures
      var x := Encrypted(c, iv, p);
      at + c.size <= |x| &&
      x[at..at + c.size] == Enc(c, Xor(p[at..at + c.size], (iv + x)[at..at + c.size]))
    decreases |p|
  {
    hide *;
    var b, t := p[..c.size], p[c.size..];
    assert p == b + t;
    var e := Enc(c, Xor(b, iv));
    Cons(c, iv, b, t);
    var x, y := Encrypted(c, iv, p), Encrypted(c, e, t);
    WholeSteps(c, at, |p|);
    if at == 0 {
      assert p[0..c.size] == b && (iv + x)[0..c.size] == iv && x[0..c.size] == e;
    } else {
      Textbook(c, e, t, at - c.size);
      var i := at - c.size;
      Later(b, t, i, c.size);
      Later(e, y, i, c.size);
      Later(iv, e + y, i, c.size);
    }
  }

  lemma {:induction false} WholeSteps(c: Cipher, at: nat, n: nat)
    requires Whole(c, at) == at && at + c.size <= n
    ensures at + c.size <= Whole(c, n)
    ensures at > 0 ==> at >= c.size && Whole(c, at - c.size) == at - c.size
    decreases n
  {
    if at > 0 {
      WholeSteps(c, at - c.size, n - c.size);
    }
  }
}
