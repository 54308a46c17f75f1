/** Cipher text stealing over CBC, crypto/cts.c: section 8 of RFC 2040. */
module Cts {
  import opened Arithmetic
  import opened Bytes
  import opened BlockCipher
  import opened Cbc
  import CbcWalk

  // ----- what stealing means -----

  /** Where the last two blocks of a message of `n` bytes begin, the last of them perhaps short. */
  function Head(c: Cipher, n: nat): (w: nat)
    requires n > c.size
    ensures w + c.size < n <= w + 2 * c.size
  {
    Whole(c, n - 1 - c.size)
  }

  /** `p` padded with zeros to whole blocks, when it has more than one. */
  function Padded(c: Cipher, p: seq<byte>): (r: seq<byte>)
    requires |p| > c.size
    ensures |r| == Head(c, |p|) + 2 * c.size
  {
    p + Zeros(Head(c, |p|) + 2 * c.size - |p|)
  }

  lemma PaddedIsWhole(c: Cipher, p: seq<byte>)
    requires |p| > c.size
    ensures Whole(c, |Padded(c, p)|) == |Padded(c, p)|
    ensures Whole(c, Head(c, |p|)) == Head(c, |p|)
  {
    Idempotent(c, |p| - 1 - c.size);
    var w := Head(c, |p|);
    assert Whole(c, w + 2 * c.size) == c.size + Whole(c, w + c.size);
  }

  /** Encrypt the padded message, swap the last two blocks and drop what the padding added. */
  function Stolen(c: Cipher, iv: seq<byte>, p: seq<byte>): (r: seq<byte>)
    requires |iv| == c.size <= |p|
    ensures |r| == |p|
  {
    if |p| == c.size then Encrypted(c, iv, p)
    else
      var w, y := Head(c, |p|), Encrypted(c, iv, Padded(c, p));
      assert |y| == w + 2 * c.size by { PaddedIsWhole(c, p); }
      y[..w] + y[w + c.size..] + y[w..|p| - c.size]
  }

  /** The chaining value that CBC leaves after the padded message. */
  function Left(c: Cipher, iv: seq<byte>, p: seq<byte>): (r: seq<byte>)
    requires |iv| == c.size <= |p|
    ensures |r| == c.size
  {
    Chain(c, iv, Encrypted(c, iv, if |p| == c.size then p else Padded(c, p)))
  }

  // ----- what the code computes -----

  /** cts_cbc_encrypt on one block and a bit. */
  function TailEncrypted(c: Cipher, iv: seq<byte>, p: seq<byte>): (r: seq<byte>)
    requires |iv| == c.size <= |p| <= 2 * c.size
    ensures |r| == |p|
  {
    var s := p + Zeros(2 * c.size - |p|);
    var tmp := Enc(c, Xor(s[..c.size], iv));
    Enc(c, Xor(s[c.size..], tmp)) + tmp[..|p| - c.size]
  }

  /** cts_cbc_decrypt */
  function TailDecrypted(c: Cipher, iv: seq<byte>, x: seq<byte>): (r: seq<byte>)
    requires |iv| == c.size <= |x| <= 2 * c.size
    ensures |r| == |x|
  {
    var lastn := |x| - c.size;
    var tmp := Xor(Dec(c, x[..c.size]), x[c.size..] + Zeros(c.size - lastn));
    Xor(Dec(c, x[c.size..] + tmp[lastn..]), iv) + tmp[..lastn]
  }

  /** crypto_cts_decrypt */
  function Returned(c: Cipher, iv: seq<byte>, x: seq<byte>): (r: seq<byte>)
    requires |iv| == c.size <= |x|
    ensures |r| == |x|
  {
    if |x| == c.size then Decrypted(c, iv, x)
    else
      var w := Head(c, |x|);
      assert Whole(c, w) == w by { Idempotent(c, |x| - 1 - c.size); }
      Decrypted(c, iv, x[..w]) + TailDecrypted(c, Chain(c, iv, x[..w]), x[w..])
  }

  // ----- the tail -----

  /** The bytes that the short last block lacks come back out of the next to last cipher block. */
  lemma Steal(p: seq<byte>, b: seq<byte>)
    requires |p| <= |b|
    ensures
      var n := |p|;
      var pad := Zeros(|b| - n);
      var tmp := Xor(Xor(p + pad, b), b[..n] + pad);
      tmp[..n] == p && b[..n] + tmp[n..] == b
  {
    var n := |p|;
    var pad := Zeros(|b| - n);
    var tmp := Xor(Xor(p + pad, b), b[..n] + pad);
    forall i | 0 <= i < |b| ensures tmp[i] == if i < n then p[i] else b[i] {
      if i < n {
        assert (p[i] ^ b[i]) ^ b[i] == p[i];
      } else {
        assert (0 ^ b[i]) ^ 0 == b[i];
      }
    }
  }

  lemma TailRoundTrip(c: Cipher, iv: seq<byte>, p: seq<byte>)
    requires |iv| == c.size <= |p| <= 2 * c.size
    ensures TailDecrypted(c, iv, TailEncrypted(c, iv, p)) == p
  {
    hide Keyed, Enc, Dec, Xor, Zeros;
    var n := |p| - c.size;
    var pad := Zeros(c.size - n);
    var s := p + Zeros(2 * c.size - |p|);
    var p1, p2 := p[..c.size], p[c.size..];
    assert s[..c.size] == p1 && s[c.size..] == p2 + pad;
    var c1 := Enc(c, Xor(p1, iv));
    var c2 := Enc(c, Xor(p2 + pad, c1));
    var x := TailEncrypted(c, iv, p);
    assert x == c2 + c1[..n];
    assert x[..c.size] == c2 && x[c.size..] == c1[..n];
    Inverse(c, Xor(p2 + pad, c1));
    Inverse(c, Xor(p1, iv));
    Steal(p2, c1);
    XorCancel(p1, iv);
  }

  /** The same the other way round. */
  lemma StealBack(t: seq<byte>, d: seq<byte>)
    requires |t| <= |d|
    ensures
      var n := |t|;
      var pad := Zeros(|d| - n);
      var tmp := Xor(d, t + pad);
      var e := t + tmp[n..];
      Xor(tmp[..n] + pad, e) == d && e[..n] == t
  {
    var n := |t|;
    var pad := Zeros(|d| - n);
    var tmp := Xor(d, t + pad);
    var e := t + tmp[n..];
    var back := Xor(tmp[..n] + pad, e);
    forall i | 0 <= i < |d| ensures back[i] == d[i] {
      if i < n {
        assert (d[i] ^ t[i]) ^ t[i] == d[i];
      } else {
        assert 0 ^ (d[i] ^ 0) == d[i];
      }
    }
  }

  lemma TailRoundTripBack(c: Cipher, iv: seq<byte>, x: seq<byte>)
    requires |iv| == c.size <= |x| <= 2 * c.size
    ensures TailEncrypted(c, iv, TailDecrypted(c, iv, x)) == x
  {
    hide Keyed, Enc, Dec, Xor, Zeros;
    var n := |x| - c.size;
    var pad := Zeros(c.size - n);
    var c2, t := x[..c.size], x[c.size..];
    var tmp := Xor(Dec(c, c2), t + pad);
    var e := t + tmp[n..];
    var p1 := Xor(Dec(c, e), iv);
    var p := TailDecrypted(c, iv, x);
    assert p == p1 + tmp[..n];
    var s := p + Zeros(2 * c.size - |p|);
    assert s[..c.size] == p1 && s[c.size..] == tmp[..n] + pad;
    XorCancel(Dec(c, e), iv);
    Inverse(c, e);
    StealBack(t, Dec(c, c2));
    Inverse(c, c2);
    assert x == c2 + t;
  }

  // ----- the whole -----

  lemma PaddedParts(c: Cipher, p: seq<byte>)
    requires |p| > c.size
    ensures
      var w := Head(c, |p|);
      var t := p[w..];
      var s := t + Zeros(2 * c.size - |t|);
      && Padded(c, p)[..w] == p[..w]
      && Padded(c, p)[w..] == s[..c.size] + (s[c.size..] + [])
  {
    hide Whole, Keyed;
    var w := Head(c, |p|);
    var t := p[w..];
    var s := t + Zeros(2 * c.size - |t|);
    assert p == p[..w] + t;
    assert Padded(c, p) == p[..w] + s;
    assert s == s[..c.size] + (s[c.size..] + []);
  }

  /** Encrypting the padded message encrypts its head, then the two blocks of its tail. */
  lemma EncryptedParts(c: Cipher, iv: seq<byte>, p: seq<byte>)
    requires |iv| == c.size < |p|
    ensures
      var w := Head(c, |p|);
      var a := Encrypted(c, iv, p[..w]);
      var v := Chain(c, iv, a);
      var t := p[w..];
      var s := t + Zeros(2 * c.size - |t|);
      var c1 := Enc(c, Xor(s[..c.size], v));
      && |a| == w && Encrypted(c, iv, Padded(c, p)) == a + c1 + Enc(c, Xor(s[c.size..], c1))
  {
    hide *;
    var w, q := Head(c, |p|), Padded(c, p);
    PaddedIsWhole(c, p);
    PaddedParts(c, p);
    EncryptedSplit(c, iv, q, w);
    var a := Encrypted(c, iv, p[..w]);
    var v := Chain(c, iv, a);
    var t := p[w..];
    var s := t + Zeros(2 * c.size - |t|);
    Cons(c, v, s[..c.size], s[c.size..] + []);
    var c1 := Enc(c, Xor(s[..c.size], v));
    Cons(c, c1, s[c.size..], []);
    var c2 := Enc(c, Xor(s[c.size..], c1));
    Short(c, c2, []);
    Assoc(a, c1, c2);
    CbcWalk.Empties(c2, []);
  }

  lemma StolenParts(c: Cipher, iv: seq<byte>, p: seq<byte>)
    requires |iv| == c.size < |p|
    ensures
      var w := Head(c, |p|);
      var a := Encrypted(c, iv, p[..w]);
      && |a| == w
      && Stolen(c, iv, p) == a + TailEncrypted(c, Chain(c, iv, a), p[w..])
      && Left(c, iv, p) == Stolen(c, iv, p)[w..w + c.size]
  {
    hide *;
    var w := Head(c, |p|);
    var a := Encrypted(c, iv, p[..w]);
    EncryptedParts(c, iv, p);
    var t := p[w..];
    var s := t + Zeros(2 * c.size - |t|);
    var c1 := Enc(c, Xor(s[..c.size], Chain(c, iv, a)));
    var c2 := Enc(c, Xor(s[c.size..], c1));
    Swap(a, c1, c2, |t| - c.size);
    PaddedIsWhole(c, p);
    CbcWalk.LastBlock(c, iv, a + c1 + c2);
    StolenIs(c, iv, p);
    TailIs(c, Chain(c, iv, a), t);
  }

  lemma StolenIs(c: Cipher, iv: seq<byte>, p: seq<byte>)
    requires |iv| == c.size < |p|
    ensures
      var w, y := Head(c, |p|), Encrypted(c, iv, Padded(c, p));
      && |y| == w + 2 * c.size && w + c.size < |p|
      && Stolen(c, iv, p) == y[..w] + y[w + c.size..] + y[w..|p| - c.size]
      && Left(c, iv, p) == Chain(c, iv, y)
  {
    hide Keyed, Whole, Encrypted, Chain, Head, Padded;
    PaddedIsWhole(c, p);
  }

  lemma TailIs(c: Cipher, v: seq<byte>, t: seq<byte>)
    requires |v| == c.size < |t| <= 2 * c.size
    ensures
      var s := t + Zeros(2 * c.size - |t|);
      var c1 := Enc(c, Xor(s[..c.size], v));
      TailEncrypted(c, v, t) == Enc(c, Xor(s[c.size..], c1)) + c1[..|t| - c.size]
  {
    hide Keyed, Enc, Xor, Zeros;
  }

  lemma Swap(a: seq<byte>, c1: seq<byte>, c2: seq<byte>, n: nat)
    requires |c1| == |c2| >= n
    ensures
      var y := a + c1 + c2;
      var w := |a|;
      var r := a + (c2 + c1[..n]);
      && y[..w] + y[w + |c1|..] + y[w..w + n] == r && y[|y| - |c1|..] == c2
      && r[w..w + |c1|] == c2
  {
    var y := a + c1 + c2;
    var w := |a|;
    assert y[..w] == a && y[w + |c1|..] == c2 && y[w..w + n] == c1[..n];
    assert a + c2 + c1[..n] == a + (c2 + c1[..n]);
  }

  lemma ReturnedParts(c: Cipher, iv: seq<byte>, a: seq<byte>, t: seq<byte>)
    requires |iv| == c.size < |a + t| && |a| == Head(c, |a + t|)
    ensures Whole(c, |a|) == |a|
    ensures Returned(c, iv, a + t) == Decrypted(c, iv, a) + TailDecrypted(c, Chain(c, iv, a), t)
  {
    hide Keyed, Whole, Decrypted, Chain, TailDecrypted;
    Idempotent(c, |a + t| - 1 - c.size);
    assert (a + t)[..|a|] == a && (a + t)[|a|..] == t;
  }

  /** A message of one block is left to CBC. */
  lemma Single(c: Cipher, iv: seq<byte>, s: seq<byte>)
    requires |iv| == |s| == c.size
    ensures Returned(c, iv, Stolen(c, iv, s)) == Stolen(c, iv, Returned(c, iv, s)) == s
  {
    hide Keyed, Encrypted, Decrypted;
    Cbc.RoundTrip(c, iv, s);
    Cbc.RoundTripBack(c, iv, s);
    assert Whole(c, c.size) == c.size + Whole(c, 0);
    assert s[..c.size] == s;
  }

  /** Decryption undoes encryption for every message of at least one block. */
  lemma RoundTrip(c: Cipher, iv: seq<byte>, p: seq<byte>)
    requires |iv| == c.size <= |p|
    ensures Returned(c, iv, Stolen(c, iv, p)) == p
  {
    if |p| == c.size {
      Single(c, iv, p);
    } else {
      RoundTripMany(c, iv, p);
    }
  }

  lemma RoundTripMany(c: Cipher, iv: seq<byte>, p: seq<byte>)
    requires |iv| == c.size < |p|
    ensures Returned(c, iv, Stolen(c, iv, p)) == p
  {
    hide *;
    var w := Head(c, |p|);
    var h, t := p[..w], p[w..];
    var a := Encrypted(c, iv, h);
    var v := Chain(c, iv, a);
    StolenParts(c, iv, p);
    ReturnedParts(c, iv, a, TailEncrypted(c, v, t));
    TailRoundTrip(c, v, t);
    Cbc.RoundTrip(c, iv, h);
    assert h[..w] == h;
    assert h + t == p;
  }

  /** Encryption undoes decryption. */
  lemma RoundTripBack(c: Cipher, iv: seq<byte>, x: seq<byte>)
    requires |iv| == c.size <= |x|
    ensures Stolen(c, iv, Returned(c, iv, x)) == x
  {
    if |x| == c.size {
      Single(c, iv, x);
    } else {
      hide *;
      var w := Head(c, |x|);
      var a, t := x[..w], x[w..];
      assert x == a + t;
      ReturnedParts(c, iv, a, t);
      var d, e := Decrypted(c, iv, a), TailDecrypted(c, Chain(c, iv, a), t);
      StolenParts(c, iv, d + e);
      assert (d + e)[..w] == d && (d + e)[w..] == e;
      Cbc.RoundTripBack(c, iv, a);
      assert a[..w] == a;
      TailRoundTripBack(c, Chain(c, iv, a), t);
    }
  }

  // ----- the code -----

  /** How the source finds the head: in blocks, rounding up. */
  lemma HeadInBlocks(c: Cipher, n: nat)
    requires n > c.size
    ensures
      var total := (n + c.size - 1) / c.size;
      && total >= 2
      && Head(c, n) == (if total > 2 then total - 2 else 0) * c.size
      && (n <= 2 * c.size <==> Head(c, n) == 0)
  {
    CbcWalk.WholeIsRounding(c, n - 1 - c.size);
    BlocksUp(c.size, n);
    hide Keyed, Whole;
  }

  /** Two blocks less, rounded up, are the rest rounded down. */
  lemma BlocksUp(s: nat, n: nat)
    requires s > 0 && n > s
    ensures
      var m, total := n - 1 - s, (n + s - 1) / s;
      && total >= 2 && m - m % s == (total - 2) * s && (n <= 2 * s <==> (total - 2) * s == 0)
  {
    var m := n - 1 - s;
    var q, r := m / s, m % s;
    assert m == s * q + r;
    assert s * (q + 2) == s * q + 2 * s;
    DivModUnique(n + s - 1, s, q + 2, r);
    MulAtLeast(s, q);
    assert q * s == s * q;
  }

  datatype Status = Done | Invalid

  /** cts_cbc_encrypt; the local buffers are `s`, `d`, `tmp` and `tmp2`. */
  method EncryptTail(c: Cipher, info: array<byte>, p: seq<byte>) returns (status: Status, d: seq<byte>)
    requires info.Length == c.size && |p| <= 2 * c.size
    modifies info
    ensures status.Invalid? <==> |p| < c.size
    ensures status.Invalid? ==> info[..] == old(info[..])
    ensures status.Done? ==>
      d == TailEncrypted(c, old(info[..]), p) && info[..] == d[..c.size]
  {
    hide Keyed, Enc, Xor, Zeros, Encrypted, Chain;
    d := [];
    if |p| < c.size {
      return Invalid, d;
    }
    ghost var v := info[..];
    var lastn := |p| - c.size;
    var s := p + Zeros(2 * c.size - |p|);
    OneBlock(c, v, s[..c.size]);
    var iv := CbcWalk.Buffer(info[..]);
    var ok, tmp := CbcWalk.Encrypt(c, iv, s[..c.size], []);
    d := tmp[..lastn];
    var chain := CbcWalk.Buffer(tmp);
    OneBlock(c, tmp, s[c.size..]);
    var ok2, tmp2 := CbcWalk.Encrypt(c, chain, s[c.size..], []);
    d := tmp2 + d;
    WriteAll(info, tmp2);
    status := Done;
  }

  lemma OneBlock(c: Cipher, v: seq<byte>, b: seq<byte>)
    requires |v| == |b| == c.size
    ensures Encrypted(c, v, b) == Enc(c, Xor(b, v)) && Decrypted(c, v, b) == Xor(Dec(c, b), v)
    ensures Chain(c, v, b) == b
  {
    hide *;
    Cons(c, v, b, []);
    Short(c, Enc(c, Xor(b, v)), []);
    Short(c, b, []);
    assert b + [] == b;
  }

  lemma XorZero(s: seq<byte>, n: nat)
    requires |s| == n
    ensures Xor(s, Zeros(n)) == s
  {
    XorZeros(s);
  }

  /** cts_cbc_decrypt, by the steps numbered in the source. */
  method DecryptTail(c: Cipher, info: array<byte>, x: seq<byte>) returns (status: Status, d: seq<byte>)
    requires info.Length == c.size && |x| <= 2 * c.size
    modifies info
    ensures status.Invalid? <==> |x| < c.size
    ensures status.Invalid? ==> info[..] == old(info[..])
    ensures status.Done? ==>
      d == TailDecrypted(c, old(info[..]), x) && info[..] == x[..c.size]
  {
    hide *;
    d := [];
    if |x| < c.size {
      return Invalid, d;
    }
    var lastn := |x| - c.size;
    var s := x;
    var tmp := DecryptAlone(c, s[..c.size]);
    var buf := CbcWalk.Buffer(tmp);
    XorAll(buf, s[c.size..] + Zeros(c.size - lastn));
    tmp := buf[..];
    d := tmp[..lastn];
    s := s + tmp[lastn..];
    var e := s[c.size..];
    assert e == x[c.size..] + tmp[lastn..];
    var first := DecryptAlone(c, e);
    var out := CbcWalk.Buffer(first);
    XorAll(out, info[..]);
    TailReturned(c, info[..], x, tmp);
    d := out[..] + d;
    WriteAll(info, x[..c.size]);
    status := Done;
  }

  /** The child's CBC on one block, with zeros as initial value: the block cipher alone. */
  method DecryptAlone(c: Cipher, b: seq<byte>) returns (r: seq<byte>)
    requires |b| == c.size
    ensures r == Dec(c, b)
  {
    hide *;
    OneBlock(c, Zeros(c.size), b);
    XorZero(Dec(c, b), c.size);
    var iv := CbcWalk.Buffer(Zeros(c.size));
    var ok;
    ok, r := CbcWalk.Decrypt(c, iv, b, []);
  }

  lemma TailReturned(c: Cipher, v: seq<byte>, x: seq<byte>, tmp: seq<byte>)
    requires |v| == c.size <= |x| <= 2 * c.size
    requires tmp == Xor(Dec(c, x[..c.size]), x[c.size..] + Zeros(2 * c.size - |x|))
    ensures
      var n := |x| - c.size;
      TailDecrypted(c, v, x) == Xor(Dec(c, x[c.size..] + tmp[n..]), v) + tmp[..n]
  {
    hide Keyed, Dec, Xor, Zeros;
  }

  /** How many bytes of the source are read when `n` are to be processed: never less than a block.
      The result is as long as what was read, so it is as long as the message unless that is shorter
      than one block and not empty. */
  function Taken(c: Cipher, n: nat): (t: nat)
    ensures t == n <==> n == 0 || n >= c.size
    ensures n > 0 ==> t >= n && t >= c.size
  {
    if 0 < n < c.size then c.size else n
  }

  /** crypto_cts_encrypt of `n` bytes at the start of `src`; of none, it is refused. */
  method Encrypt(c: Cipher, info: array<byte>, src: seq<byte>, n: nat, walk: seq<CbcWalk.Piece>)
    returns (status: Status, d: seq<byte>)
    requires info.Length == c.size && Taken(c, n) <= |src|
    modifies info
    ensures status.Invalid? <==> n == 0
    ensures status.Invalid? ==> info[..] == old(info[..])
    ensures status.Done? ==>
      var p := src[..Taken(c, n)];
      d == Stolen(c, old(info[..]), p) && info[..] == Left(c, old(info[..]), p)
  {
    hide *;
    TakenIs(c, n);
    Positive(c);
    var total := (n + c.size - 1) / c.size;
    TotalBlocks(c, n);
    ghost var v := info[..];
    if total == 1 {
      SingleIs(c, v, src[..c.size]);
      var ok, r := CbcWalk.Encrypt(c, info, src[..c.size], walk);
      return Done, r;
    }
    var p := src[..n];
    if n > c.size {
      HeadInBlocks(c, n);
      StolenParts(c, v, p);
    }
    if n <= 2 * c.size {
      status, d := EncryptTail(c, info, p);
      NoHead(c, v, p);
    } else {
      var w := (total - 2) * c.size;
      var ok, head := CbcWalk.Encrypt(c, info, p[..w], walk);
      var tail;
      status, tail := EncryptTail(c, info, p[w..]);
      d := head + tail;
      assert d[w..w + c.size] == tail[..c.size];
    }
  }

  lemma TakenIs(c: Cipher, n: nat)
    ensures n > c.size ==> Taken(c, n) == n
    ensures 0 < n <= c.size ==> Taken(c, n) == c.size
    ensures n == 0 ==> Taken(c, n) == 0
  {
  }

  lemma SingleIs(c: Cipher, iv: seq<byte>, s: seq<byte>)
    requires |iv| == |s| == c.size
    ensures Stolen(c, iv, s) == Encrypted(c, iv, s) && Left(c, iv, s) == Chain(c, iv, Encrypted(c, iv, s))
    ensures Returned(c, iv, s) == Decrypted(c, iv, s)
  {
    hide Keyed, Encrypted, Decrypted, Chain;
  }

  lemma TotalBlocks(c: Cipher, n: nat)
    requires c.size > 0
    ensures (n + c.size - 1) / c.size == 1 <==> 0 < n <= c.size
  {
    if n > c.size {
      HeadInBlocks(c, n);
    } else if n > 0 {
      DivModUnique(n + c.size - 1, c.size, 1, n - 1);
    } else {
      DivModUnique(c.size - 1, c.size, 0, c.size - 1);
    }
  }

  lemma NoHead(c: Cipher, v: seq<byte>, s: seq<byte>)
    requires |v| == c.size
    ensures Encrypted(c, v, s[..0]) == Decrypted(c, v, s[..0]) == [] && Chain(c, v, []) == v && s[0..] == s
  {
    Positive(c);
    Short(c, v, []);
  }

  /** crypto_cts_decrypt */
  method Decrypt(c: Cipher, info: array<byte>, src: seq<byte>, n: nat, walk: seq<CbcWalk.Piece>)
    returns (status: Status, d: seq<byte>)
    requires info.Length == c.size && Taken(c, n) <= |src|
    modifies info
    ensures status.Invalid? <==> n == 0
    ensures status.Invalid? ==> info[..] == old(info[..])
    ensures status.Done? ==> d == Returned(c, old(info[..]), src[..Taken(c, n)])
    ensures status.Done? ==> info[..] == Left(c, old(info[..]), d)
  {
    hide *;
    TakenIs(c, n);
    Positive(c);
    var total := (n + c.size - 1) / c.size;
    TotalBlocks(c, n);
    ghost var v := info[..];
    var x := src[..Taken(c, n)];
    if n > 0 {
      LeftByDecryption(c, v, x);
    }
    if total == 1 {
      SingleIs(c, v, x);
      var ok, r := CbcWalk.Decrypt(c, info, src[..c.size], walk);
      return Done, r;
    }
    if n > c.size {
      HeadInBlocks(c, n);
      HeadFits(c, n);
      Rejoin(x, Head(c, n));
      ReturnedParts(c, v, x[..Head(c, n)], x[Head(c, n)..]);
    }
    if n <= 2 * c.size {
      status, d := DecryptTail(c, info, x);
      NoHead(c, v, x);
    } else {
      var w := (total - 2) * c.size;
      var ok, head := CbcWalk.Decrypt(c, info, x[..w], walk);
      var tail;
      status, tail := DecryptTail(c, info, x[w..]);
      d := head + tail;
    }
  }

  lemma HeadFits(c: Cipher, n: nat)
    requires n > c.size
    ensures Head(c, n) + c.size < n <= Head(c, n) + 2 * c.size
  {
  }

  /** The chaining value in terms of the cipher text: its next to last block, which came last. */
  lemma LeftByDecryption(c: Cipher, iv: seq<byte>, x: seq<byte>)
    requires |iv| == c.size <= |x|
    ensures |x| == c.size ==> Left(c, iv, Returned(c, iv, x)) == x
    ensures |x| == c.size ==> Chain(c, iv, x) == x
    ensures |x| > c.size ==> Left(c, iv, Returned(c, iv, x)) == x[Head(c, |x|)..][..c.size]
  {
    RoundTripBack(c, iv, x);
    if |x| > c.size {
      LeftByMany(c, iv, x);
    } else {
      OneBlock(c, iv, x);
      hide Keyed, Whole, Encrypted, Decrypted, Chain;
    }
  }

  lemma LeftByMany(c: Cipher, iv: seq<byte>, x: seq<byte>)
    requires |iv| == c.size < |x|
    ensures Left(c, iv, Returned(c, iv, x)) == x[Head(c, |x|)..][..c.size]
  {
    hide *;
    RoundTripBack(c, iv, x);
    StolenParts(c, iv, Returned(c, iv, x));
    var w := Head(c, |x|);
    assert x[w..w + c.size] == x[w..][..c.size];
  }
}
