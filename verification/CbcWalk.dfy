/** The loops of crypto/cbc.c, over real buffers.  A buffer here is one piece of the walk: the four
    loops over the blocks of a piece, from one buffer to another or in place, forwards or
    backwards, and around them the two loops over the pieces.  Each is tied to the function of
    Cbc that it computes, and lemmas beside the loops carry the part that is done. */
module CbcWalk {
  import opened Arithmetic
  import opened Bytes
  import opened BlockCipher
  import opened Cbc

  // ----- one step of a forward loop -----

  /** A loop has produced `r` of the encryption of `p`, with `rest` still to do, and chains on
      from `v`. */
  ghost predicate Encrypting(c: Cipher, iv: seq<byte>, p: seq<byte>, r: seq<byte>, v: seq<byte>, rest: seq<byte>)
    requires |iv| == |v| == c.size
  {
    && Encrypted(c, iv, p) == r + Encrypted(c, v, rest)
    && Chain(c, iv, Encrypted(c, iv, p)) == Chain(c, v, Encrypted(c, v, rest))
  }

  ghost predicate Decrypting(c: Cipher, iv: seq<byte>, x: seq<byte>, r: seq<byte>, v: seq<byte>, rest: seq<byte>)
    requires |iv| == |v| == c.size
  {
    && Decrypted(c, iv, x) == r + Decrypted(c, v, rest)
    && Chain(c, iv, x) == Chain(c, v, rest)
  }

  lemma EncryptingNext(c: Cipher, iv: seq<byte>, p: seq<byte>, r: seq<byte>, v: seq<byte>, b: seq<byte>,
                       rest: seq<byte>)
    requires |iv| == |v| == |b| == c.size && Encrypting(c, iv, p, r, v, b + rest)
    ensures
      var e := Enc(c, Xor(b, v));
      Encrypting(c, iv, p, r + e, e, rest)
  {
    hide Keyed, Encrypted, Chain, Enc, Xor, Whole;
    var e := Enc(c, Xor(b, v));
    Cons(c, v, b, rest);
    var more := Encrypted(c, e, rest);
    Cons(c, v, e, more);
    assert r + (e + more) == (r + e) + more;
  }

  lemma DecryptingNext(c: Cipher, iv: seq<byte>, x: seq<byte>, r: seq<byte>, v: seq<byte>, b: seq<byte>,
                       rest: seq<byte>)
    requires |iv| == |v| == |b| == c.size && Decrypting(c, iv, x, r, v, b + rest)
    ensures Decrypting(c, iv, x, r + Xor(Dec(c, b), v), b, rest)
  {
    hide Keyed, Decrypted, Chain, Dec, Xor, Whole;
    var d, more := Xor(Dec(c, b), v), Decrypted(c, b, rest);
    Cons(c, v, b, rest);
    assert r + (d + more) == (r + d) + more;
  }

  /** The buffer `now`, which was `was`, begins with what the loop has produced after `k` bytes. */
  ghost predicate Forward(c: Cipher, enc: bool, iv: seq<byte>, s: seq<byte>, was: seq<byte>,
                          now: seq<byte>, v: seq<byte>, k: nat)
    requires |iv| == |v| == c.size && k <= |s| <= |was|
  {
    && |now| == |was| && now[k..] == was[k..]
    && if enc then Encrypting(c, iv, s, now[..k], v, s[k..])
       else Decrypting(c, iv, s, now[..k], v, s[k..])
  }

  lemma ForwardBegin(c: Cipher, enc: bool, iv: seq<byte>, s: seq<byte>, was: seq<byte>)
    requires |iv| == c.size && |s| <= |was|
    ensures Forward(c, enc, iv, s, was, was, iv, 0)
  {
    hide Keyed, Encrypted, Decrypted, Chain;
    assert s[0..] == s && was[..0] == [];
  }

  lemma ForwardNext(c: Cipher, enc: bool, iv: seq<byte>, s: seq<byte>, was: seq<byte>,
                    now: seq<byte>, v: seq<byte>, k: nat)
    requires |iv| == |v| == c.size && k + c.size <= |s| <= |was|
    requires Forward(c, enc, iv, s, was, now, v, k)
    ensures k + c.size <= |now| && now[k..k + c.size] == was[k..k + c.size]
    ensures
      var b := s[k..k + c.size];
      var r := if enc then Enc(c, Xor(b, v)) else Xor(Dec(c, b), v);
      Forward(c, enc, iv, s, was, Splice(now, k, r), if enc then r else b, k + c.size)
  {
    hide Encrypting, Decrypting, Enc, Dec, Xor, Keyed;
    var b, t := s[k..k + c.size], s[k + c.size..];
    var r := if enc then Enc(c, Xor(b, v)) else Xor(Dec(c, b), v);
    assert s[k..] == b + t;
    SpliceParts(now, k, r);
    assert now[k..k + c.size] == now[k..][..c.size];
    assert was[k..k + c.size] == was[k..][..c.size];
    assert now[k + c.size..] == now[k..][c.size..];
    assert was[k + c.size..] == was[k..][c.size..];
    if enc {
      EncryptingNext(c, iv, s, now[..k], v, b, t);
    } else {
      DecryptingNext(c, iv, s, now[..k], v, b, t);
    }
  }

  lemma SpliceParts(s: seq<byte>, i: nat, t: seq<byte>)
    requires i + |t| <= |s|
    ensures Splice(s, i, t)[..i + |t|] == s[..i] + t
    ensures Splice(s, i, t)[i + |t|..] == s[i + |t|..]
  {
  }

  lemma ForwardEnd(c: Cipher, enc: bool, iv: seq<byte>, s: seq<byte>, was: seq<byte>,
                   now: seq<byte>, v: seq<byte>, k: nat)
    requires |iv| == |v| == c.size && k <= |s| <= |was| && |s| < k + c.size
    requires Forward(c, enc, iv, s, was, now, v, k)
    ensures enc ==>
      var r := Encrypted(c, iv, s);
      now == Splice(was, 0, r) && v == Chain(c, iv, r) && |r| == k
    ensures !enc ==>
      var r := Decrypted(c, iv, s);
      now == Splice(was, 0, r) && v == Chain(c, iv, s) && |r| == k
  {
    hide Keyed, Encrypted, Decrypted, Chain, Whole;
    Short(c, v, s[k..]);
    Short(c, v, []);
    assert now[..k] + [] == now[..k];
    assert now == Splice(was, 0, now[..k]);
  }

  // ----- the forward loops -----

  /** crypto_cbc_encrypt_segment */
  method EncryptSegment(c: Cipher, iv: array<byte>, src: array<byte>, dst: array<byte>) returns (left: nat)
    requires iv.Length == c.size <= src.Length <= dst.Length && iv != src && iv != dst && src != dst
    modifies iv, dst
    ensures
      var r := Encrypted(c, old(iv[..]), src[..]);
      && dst[..] == Splice(old(dst[..]), 0, r)
      && iv[..] == Chain(c, old(iv[..]), r)
      && left == src.Length - |r|
  {
    hide *;
    Positive(c);
    ghost var iv0, was := iv[..], dst[..];
    var k := 0;
    ForwardBegin(c, true, iv0, src[..], was);
    while src.Length - k >= c.size
      invariant 0 <= k <= src.Length && c.size > 0
      invariant Forward(c, true, iv0, src[..], was, dst[..], iv[..], k)
    {
      ForwardNext(c, true, iv0, src[..], was, dst[..], iv[..], k);
      EncryptBlock(c, iv, src[k..k + c.size], dst, k);
      k := k + c.size;
    }
    left := src.Length - k;
    ForwardEnd(c, true, iv0, src[..], was, dst[..], iv[..], k);
  }

  /** The body of that loop. */
  method EncryptBlock(c: Cipher, iv: array<byte>, b: seq<byte>, dst: array<byte>, pos: nat)
    requires iv.Length == |b| == c.size && pos + c.size <= dst.Length && iv != dst
    modifies iv, dst
    ensures iv[..] == Enc(c, Xor(b, old(iv[..])))
    ensures dst[..] == Splice(old(dst[..]), pos, iv[..])
  {
    hide *;
    XorCommutes(iv[..], b);
    XorAll(iv, b);
    Write(dst, pos, Enc(c, iv[..]));
    WriteAll(iv, Enc(c, iv[..]));
  }

  /** crypto_cbc_encrypt_inplace */
  method EncryptInPlace(c: Cipher, iv: array<byte>, src: array<byte>) returns (left: nat)
    requires iv.Length == c.size <= src.Length && iv != src
    modifies iv, src
    ensures
      var r := Encrypted(c, old(iv[..]), old(src[..]));
      && src[..] == Splice(old(src[..]), 0, r)
      && iv[..] == Chain(c, old(iv[..]), r)
      && left == src.Length - |r|
  {
    hide *;
    Positive(c);
    ghost var iv0, was := iv[..], src[..];
    var k, v := 0, iv[..];
    ForwardBegin(c, true, iv0, was, was);
    while src.Length - k >= c.size
      invariant 0 <= k <= src.Length && |v| == c.size > 0 && iv[..] == iv0
      invariant Forward(c, true, iv0, was, was, src[..], v, k)
    {
      ForwardNext(c, true, iv0, was, was, src[..], v, k);
      v := EncryptBlockInPlace(c, v, src, k);
      k := k + c.size;
    }
    WriteAll(iv, v);
    left := src.Length - k;
    ForwardEnd(c, true, iv0, was, was, src[..], v, k);
  }

  /** The body of that loop, which goes on with the block just written. */
  method EncryptBlockInPlace(c: Cipher, v: seq<byte>, src: array<byte>, pos: nat) returns (next: seq<byte>)
    requires |v| == c.size && pos + c.size <= src.Length
    modifies src
    ensures next == Enc(c, Xor(old(src[pos..pos + c.size]), v))
    ensures src[..] == Splice(old(src[..]), pos, next)
  {
    hide *;
    ghost var was, b := src[..], src[pos..pos + c.size];
    CryptoXor(src, pos, v);
    SpliceTwice(was, pos, Xor(b, v), Enc(c, Xor(b, v)));
    Write(src, pos, Enc(c, src[pos..pos + c.size]));
    SpliceTwice(was, pos, Enc(c, Xor(b, v)), Xor(b, v));
    next := src[pos..pos + c.size];
  }

  lemma SpliceTwice(s: seq<byte>, i: nat, t: seq<byte>, u: seq<byte>)
    requires i + |t| <= |s| && |u| == |t|
    ensures Splice(s, i, t)[i..i + |t|] == t
    ensures Splice(Splice(s, i, t), i, u) == Splice(s, i, u)
  {
  }

  /** crypto_cbc_decrypt_segment */
  method DecryptSegment(c: Cipher, iv: array<byte>, src: array<byte>, dst: array<byte>) returns (left: nat)
    requires iv.Length == c.size <= src.Length <= dst.Length && iv != src && iv != dst && src != dst
    modifies iv, dst
    ensures
      var r := Decrypted(c, old(iv[..]), src[..]);
      && dst[..] == Splice(old(dst[..]), 0, r)
      && iv[..] == Chain(c, old(iv[..]), src[..])
      && left == src.Length - |r|
  {
    hide *;
    Positive(c);
    ghost var iv0, was := iv[..], dst[..];
    var k, v := 0, iv[..];
    ForwardBegin(c, false, iv0, src[..], was);
    while src.Length - k >= c.size
      invariant 0 <= k <= src.Length && |v| == c.size > 0 && iv[..] == iv0
      invariant Forward(c, false, iv0, src[..], was, dst[..], v, k)
    {
      ForwardNext(c, false, iv0, src[..], was, dst[..], v, k);
      DecryptBlock(c, src[k..k + c.size], v, dst, k);
      v := src[k..k + c.size];
      k := k + c.size;
    }
    WriteAll(iv, v);
    left := src.Length - k;
    ForwardEnd(c, false, iv0, src[..], was, dst[..], v, k);
  }

  /** The body of that loop. */
  method DecryptBlock(c: Cipher, b: seq<byte>, v: seq<byte>, dst: array<byte>, pos: nat)
    requires |b| == |v| == c.size && pos + c.size <= dst.Length
    modifies dst
    ensures dst[..] == Splice(old(dst[..]), pos, Xor(Dec(c, b), v))
  {
    hide *;
    ghost var was := dst[..];
    Write(dst, pos, Dec(c, b));
    SpliceTwice(was, pos, Dec(c, b), Xor(Dec(c, b), v));
    CryptoXor(dst, pos, v);
  }

  // ----- the backward loop -----

  lemma {:induction false} WholeDown(c: Cipher, n: nat, k: nat)
    requires k <= n && Whole(c, n) == n && Whole(c, k) == k
    ensures Whole(c, n - k) == n - k && (k == 0 || k >= c.size) && (n == k || n >= k + c.size)
    ensures k >= c.size ==> Whole(c, k - c.size) == k - c.size
    ensures n >= k + c.size ==> Whole(c, n - k - c.size) == n - k - c.size
    decreases n
  {
    if k > 0 {
      WholeDown(c, n - c.size, k - c.size);
    }
  }

  lemma {:induction false} DecryptedWhole(c: Cipher, iv: seq<byte>, x: seq<byte>)
    requires |iv| == c.size
    ensures
      var w := Whole(c, |x|);
      && Decrypted(c, iv, x[..w]) == Decrypted(c, iv, x) && Chain(c, iv, x[..w]) == Chain(c, iv, x)
      && Whole(c, w) == w
    decreases |x|
  {
    hide *;
    if |x| < c.size {
      Short(c, iv, x);
      Short(c, iv, []);
    } else {
      var b, t := x[..c.size], x[c.size..];
      assert x == b + t;
      Cons(c, iv, b, t);
      Prefix(c, b, t, |x|);
      Cons(c, iv, b, t[..Whole(c, |t|)]);
      DecryptedWhole(c, b, t);
    }
  }

  /** The source rounds down with a mask, the block size being a power of two. */
  lemma {:induction false} WholeIsRounding(c: Cipher, n: nat)
    requires c.size > 0
    ensures Whole(c, n) == n - n % c.size
    decreases n
  {
    if n >= c.size {
      ModStep(n, c.size);
      WholeIsRounding(c, n - c.size);
    }
  }

  /** What the loop has made of the whole blocks `x` and the bytes `z` after them when it has come
      down to block `b`, with the untouched blocks `a` below: `b` is decrypted but still needs
      mixing with the block before it, and the blocks `t` above are done. */
  ghost predicate Backing(c: Cipher, x: seq<byte>, z: seq<byte>, now: seq<byte>, a: seq<byte>, b: seq<byte>,
                          t: seq<byte>) {
    && x == a + b + t && |b| == c.size && Whole(c, |a|) == |a|
    && now == a + Dec(c, b) + (Decrypted(c, b, t) + z)
  }

  lemma BackStart(c: Cipher, x: seq<byte>, z: seq<byte>, k: nat)
    requires Whole(c, |x|) == |x| == k + c.size
    ensures Backing(c, x, z, Splice(x + z, k, Dec(c, x[k..])), x[..k], x[k..], [])
  {
    hide Keyed, Whole, Dec, Decrypted, Splice;
    WholeLess(c, |x|);
    var a, b := x[..k], x[k..];
    Short(c, b, []);
    Rejoin(x, k);
    Empties(x, z);
    SpliceLast(a, b, z, Dec(c, b));
  }

  lemma WholeLess(c: Cipher, n: nat)
    requires Whole(c, n) == n >= c.size
    ensures Whole(c, n - c.size) == n - c.size && c.size > 0
  {
    Positive(c);
    WholeDown(c, n, n);
  }

  lemma Empties(x: seq<byte>, z: seq<byte>)
    ensures x + [] == x && [] + z == z
  {
  }

  lemma SpliceLast(a: seq<byte>, b: seq<byte>, z: seq<byte>, d: seq<byte>)
    requires |b| == |d|
    ensures Splice(a + b + z, |a|, d) == a + d + z
  {
  }

  /** The block at hand is mixed with the one before it, `p`, which is decrypted in its turn. */
  lemma BackNext(c: Cipher, x: seq<byte>, z: seq<byte>, now: seq<byte>, a: seq<byte>, p: seq<byte>, b: seq<byte>,
                 t: seq<byte>)
    requires |p| == c.size && Backing(c, x, z, now, a + p, b, t)
    ensures
      var k := |a| + |p|;
      && k + |b| <= |now| && now[|a|..k] == p
      && var mixed := Splice(now, k, Xor(now[k..k + |b|], p));
      mixed[|a|..k] == p && Backing(c, x, z, Splice(mixed, |a|, Dec(c, p)), a, p, b + t)
  {
    hide Keyed, Whole, Dec, Decrypted, Xor, Splice;
    WholeDown(c, |a + p|, |a + p|);
    var q, r, d, more := Dec(c, b), Xor(Dec(c, b), p), Dec(c, p), Decrypted(c, b, t) + z;
    Cons(c, p, b, t);
    assert r + Decrypted(c, b, t) + z == r + more;
    SpliceMiddle(a, p, q, more, r, d);
    assert a + p + b + t == a + p + (b + t);
  }

  lemma SpliceMiddle(a: seq<byte>, p: seq<byte>, q: seq<byte>, z: seq<byte>, r: seq<byte>, d: seq<byte>)
    requires |p| == |q| == |r| == |d|
    ensures
      var now := a + p + q + z;
      var k := |a| + |p|;
      && now[|a|..k] == p && now[k..k + |q|] == q
      && Splice(now, k, r)[|a|..k] == p
      && Splice(Splice(now, k, r), |a|, d) == a + d + (r + z)
  {
    var now := a + p + q + z;
    var k := |a| + |p|;
    assert now[|a|..k] == p;
    assert now[k..k + |q|] == q;
    assert Splice(now, k, r) == a + p + r + z;
    assert (a + p + r + z)[|a|..k] == p;
    assert Splice(a + p + r + z, |a|, d) == a + d + (r + z);
  }

  lemma BackEnd(c: Cipher, iv: seq<byte>, x: seq<byte>, z: seq<byte>, now: seq<byte>, b: seq<byte>, t: seq<byte>)
    requires |iv| == c.size && Backing(c, x, z, now, [], b, t)
    ensures c.size <= |now| && Splice(now, 0, Xor(now[0..c.size], iv)) == Decrypted(c, iv, x) + z
  {
    hide Keyed, Dec, Decrypted, Whole, Xor, Splice;
    var q, more := Dec(c, b), Decrypted(c, b, t) + z;
    Empties(q, q);
    Empties(b, b);
    Cons(c, iv, b, t);
    SpliceHead(q, more, Xor(q, iv));
    Assoc(Xor(q, iv), Decrypted(c, b, t), z);
  }

  lemma SpliceHead(q: seq<byte>, z: seq<byte>, r: seq<byte>)
    requires |q| == |r|
    ensures (q + z)[0..|q|] == q && Splice(q + z, 0, r) == r + z
  {
  }

  /** crypto_cbc_decrypt_inplace */
  method DecryptInPlace(c: Cipher, iv: array<byte>, src: array<byte>) returns (left: nat)
    requires iv.Length == c.size <= src.Length && iv != src
    modifies iv, src
    ensures
      var x := old(src[..]);
      var r := Decrypted(c, old(iv[..]), x);
      && src[..] == Splice(x, 0, r)
      && iv[..] == Chain(c, old(iv[..]), x)
      && left == src.Length - |r|
  {
    hide *;
    Positive(c);
    WholeIsRounding(c, src.Length);
    ghost var was := src[..];
    var w := src.Length - src.Length % c.size;
    assert src[..w] == was[..w] && src[w..] == was[w..];
    InPlaceIs(c, iv[..], was, w);
    left := DecryptBackward(c, iv, src, w);
  }

  lemma InPlaceIs(c: Cipher, iv: seq<byte>, x: seq<byte>, w: nat)
    requires |iv| == c.size && w == Whole(c, |x|) <= |x|
    ensures Splice(x, 0, Decrypted(c, iv, x)) == Decrypted(c, iv, x[..w]) + x[w..]
    ensures Chain(c, iv, x) == Chain(c, iv, x[..w]) && |Decrypted(c, iv, x)| == w
  {
    hide *;
    DecryptedWhole(c, iv, x);
    SpliceFront(x, Decrypted(c, iv, x));
  }

  lemma SpliceFront(s: seq<byte>, t: seq<byte>)
    requires |t| <= |s|
    ensures Splice(s, 0, t) == t + s[|t|..]
  {
  }

  /** Its loop, starting from the last of the `w` bytes in whole blocks. */
  method DecryptBackward(c: Cipher, iv: array<byte>, src: array<byte>, w: nat) returns (left: nat)
    requires iv.Length == c.size <= w <= src.Length < w + c.size && iv != src && Whole(c, w) == w
    modifies iv, src
    ensures src[..] == Decrypted(c, old(iv[..]), old(src[..w])) + old(src[w..])
    ensures iv[..] == Chain(c, old(iv[..]), old(src[..w]))
    ensures left == src.Length - w
  {
    hide *;
    ghost var x, z := src[..w], src[w..];
    Rejoin(src[..], w);
    var k: nat := w - c.size;
    BackStart(c, x, z, k);
    LastBlock(c, iv[..], x);
    var last := src[k..k + c.size];
    assert x[k..] == last;
    Write(src, k, Dec(c, last));
    ghost var a, b, t := x[..k], x[k..], [];
    left := src.Length - c.size;
    while left >= c.size
      invariant iv[..] == old(iv[..]) && left == src.Length - w + k && |a| == k
      invariant Backing(c, x, z, src[..], a, b, t)
    {
      AtLeastOne(c, x, z, src[..], a, b, t);
      ghost var p := a[k - c.size..];
      a := a[..k - c.size];
      BackBlock(c, src, k, x, z, a, p, b, t);
      b, t := p, b + t;
      k, left := k - c.size, left - c.size;
    }
    AtLeastOne(c, x, z, src[..], a, b, t);
    BackEnd(c, iv[..], x, z, src[..], b, t);
    CryptoXor(src, k, iv[..]);
    WriteAll(iv, last);
  }

  /** The body of the loop: the block at `k`, decrypted already, is mixed with the cipher block before it,
      and that one is decrypted in its turn. */
  method BackBlock(c: Cipher, src: array<byte>, k: nat, ghost x: seq<byte>, ghost z: seq<byte>,
                   ghost a: seq<byte>, ghost p: seq<byte>, ghost b: seq<byte>, ghost t: seq<byte>)
    requires c.size <= k && |a| + c.size == k && |p| == |b| == c.size && Backing(c, x, z, src[..], a + p, b, t)
    modifies src
    ensures Backing(c, x, z, src[..], a, p, b + t)
  {
    hide *;
    BackNext(c, x, z, src[..], a, p, b, t);
    CryptoXor(src, k, src[k - c.size..k]);
    Write(src, k - c.size, Dec(c, src[k - c.size..k]));
  }

  lemma AtLeastOne(c: Cipher, x: seq<byte>, z: seq<byte>, now: seq<byte>, a: seq<byte>, b: seq<byte>, t: seq<byte>)
    requires Backing(c, x, z, now, a, b, t)
    ensures |b| == c.size && (a == [] || (|a| >= c.size && a == a[..|a| - c.size] + a[|a| - c.size..]))
  {
    WholeDown(c, |a|, |a|);
  }

  lemma LastBlock(c: Cipher, iv: seq<byte>, x: seq<byte>)
    requires |iv| == c.size <= |x| == Whole(c, |x|)
    ensures Chain(c, iv, x) == x[|x| - c.size..]
  {
    hide *;
    ChainIsLast(c, iv, x);
    assert (iv + x)[|x|..|x| + |iv|] == x[|x| - |iv|..];
  }

  // ----- the walk -----

  /** What the walk offers next: how many bytes, and whether source and destination are mapped to
      the same place. */
  datatype Piece = Piece(size: nat, inPlace: bool)

  lemma {:induction false} ChainAppend(c: Cipher, iv: seq<byte>, a: seq<byte>, b: seq<byte>)
    requires |iv| == c.size && Whole(c, |a|) == |a|
    ensures Chain(c, iv, a + b) == Chain(c, Chain(c, iv, a), b)
    decreases |a|
  {
    if |a| < c.size {
      Short(c, iv, a);
      assert a + b == b;
    } else {
      var h, t := a[..c.size], a[c.size..];
      assert a == h + t && a + b == h + (t + b);
      Cons(c, iv, h, t);
      Cons(c, iv, h, t + b);
      ChainAppend(c, h, t, b);
    }
  }

  lemma WalkBegin(c: Cipher, iv: seq<byte>, s: seq<byte>)
    requires |iv| == c.size
    ensures Encrypting(c, iv, s, [], iv, s) && Decrypting(c, iv, s, [], iv, s)
  {
    hide Keyed, Encrypted, Decrypted, Chain;
  }

  /** One piece of `n` bytes, the bytes it leaves over going to the next. */
  lemma WalkEncrypts(c: Cipher, iv: seq<byte>, p: seq<byte>, r: seq<byte>, v: seq<byte>, rest: seq<byte>, n: nat)
    requires |iv| == |v| == c.size && n <= |rest| && Encrypting(c, iv, p, r, v, rest)
    ensures
      var a := Encrypted(c, v, rest[..n]);
      |a| <= n && Encrypting(c, iv, p, r + a, Chain(c, v, a), rest[|a|..])
  {
    hide Keyed, Encrypted, Chain, Whole;
    var a := Encrypted(c, v, rest[..n]);
    var w := Chain(c, v, a);
    var more := Encrypted(c, w, rest[|a|..]);
    EncryptedSplit(c, v, rest, n);
    DecryptedWhole(c, v, rest[..n]);
    ChainAppend(c, v, a, more);
    assert r + (a + more) == (r + a) + more;
  }

  lemma WalkDecrypts(c: Cipher, iv: seq<byte>, x: seq<byte>, r: seq<byte>, v: seq<byte>, rest: seq<byte>, n: nat)
    requires |iv| == |v| == c.size && n <= |rest| && Decrypting(c, iv, x, r, v, rest)
    ensures
      var a := Decrypted(c, v, rest[..n]);
      |a| <= n && Decrypting(c, iv, x, r + a, Chain(c, v, rest[..n]), rest[|a|..])
  {
    hide Keyed, Decrypted, Chain, Whole;
    var a, w := Decrypted(c, v, rest[..n]), Chain(c, v, rest[..n]);
    var more := Decrypted(c, w, rest[|a|..]);
    DecryptedSplit(c, v, rest, n);
    DecryptedWhole(c, v, rest[..n]);
    assert rest == rest[..n][..|a|] + rest[|a|..];
    ChainAppend(c, v, rest[..n][..|a|], rest[|a|..]);
    assert r + (a + more) == (r + a) + more;
  }

  lemma WalkEnd(c: Cipher, iv: seq<byte>, s: seq<byte>, r: seq<byte>, v: seq<byte>, rest: seq<byte>)
    requires |iv| == |v| == c.size > |rest|
    ensures Encrypting(c, iv, s, r, v, rest) ==> Encrypted(c, iv, s) == r && Chain(c, iv, r) == v
    ensures Decrypting(c, iv, s, r, v, rest) ==> Decrypted(c, iv, s) == r && Chain(c, iv, s) == v
  {
    hide Keyed, Encrypted, Decrypted, Chain, Whole;
    Short(c, v, rest);
    Short(c, v, []);
    assert r + [] == r;
  }

  method Buffer(s: seq<byte>) returns (a: array<byte>)
    ensures fresh(a) && a[..] == s
  {
    a := new byte[|s|](i requires 0 <= i < |s| => s[i]);
  }

  /** How much of the `total` bytes left the walk maps next. */
  function Offer(c: Cipher, walk: seq<Piece>, i: nat, total: nat): (p: Piece)
    requires total >= c.size
    ensures c.size <= p.size <= total
  {
    if i < |walk| && c.size <= walk[i].size <= total then walk[i] else Piece(total, i < |walk| && walk[i].inPlace)
  }

  /** crypto_cbc_encrypt, over any walk; it fails when less than a block is left over. */
  method Encrypt(c: Cipher, info: array<byte>, src: seq<byte>, walk: seq<Piece>) returns (ok: bool, dst: seq<byte>)
    requires info.Length == c.size
    modifies info
    ensures dst == Encrypted(c, old(info[..]), src)
    ensures info[..] == Chain(c, old(info[..]), dst)
    ensures ok <==> |dst| == |src|
  {
    hide *;
    Positive(c);
    dst := [];
    var rest, i := src, 0;
    ghost var iv0 := info[..];
    WalkBegin(c, iv0, src);
    while |rest| >= c.size
      invariant |dst| + |rest| == |src| && c.size > 0
      invariant Encrypting(c, iv0, src, dst, info[..], rest)
      decreases |rest|
    {
      var p := Offer(c, walk, i, |rest|);
      WalkEncrypts(c, iv0, src, dst, info[..], rest, p.size);
      var done := EncryptPiece(c, info, rest[..p.size], p.inPlace);
      dst, rest, i := dst + done, rest[|done|..], i + 1;
    }
    WalkEnd(c, iv0, src, dst, info[..], rest);
    ok := |rest| == 0;
  }

  /** One round of that loop. */
  method EncryptPiece(c: Cipher, info: array<byte>, s: seq<byte>, inPlace: bool) returns (done: seq<byte>)
    requires info.Length == c.size <= |s|
    modifies info
    ensures done == Encrypted(c, old(info[..]), s) && info[..] == Chain(c, old(info[..]), done)
    ensures |done| >= c.size
  {
    hide *;
    WholeUp(c, |s|);
    ghost var r := Encrypted(c, info[..], s);
    var src := Buffer(s);
    if inPlace {
      var left := EncryptInPlace(c, info, src);
      SpliceFront(s, r);
      done := src[..|s| - left];
    } else {
      var dst := Buffer(s);
      var left := EncryptSegment(c, info, src, dst);
      SpliceFront(s, r);
      done := dst[..|s| - left];
    }
  }

  lemma WholeUp(c: Cipher, n: nat)
    requires n >= c.size
    ensures Whole(c, n) >= c.size
  {
  }

  /** crypto_cbc_decrypt */
  method Decrypt(c: Cipher, info: array<byte>, src: seq<byte>, walk: seq<Piece>) returns (ok: bool, dst: seq<byte>)
    requires info.Length == c.size
    modifies info
    ensures dst == Decrypted(c, old(info[..]), src)
    ensures info[..] == Chain(c, old(info[..]), src)
    ensures ok <==> |dst| == |src|
  {
    hide *;
    Positive(c);
    dst := [];
    var rest, i := src, 0;
    ghost var iv0 := info[..];
    WalkBegin(c, iv0, src);
    while |rest| >= c.size
      invariant |dst| + |rest| == |src| && c.size > 0
      invariant Decrypting(c, iv0, src, dst, info[..], rest)
      decreases |rest|
    {
      var p := Offer(c, walk, i, |rest|);
      WalkDecrypts(c, iv0, src, dst, info[..], rest, p.size);
      var done := DecryptPiece(c, info, rest[..p.size], p.inPlace);
      dst, rest, i := dst + done, rest[|done|..], i + 1;
    }
    WalkEnd(c, iv0, src, dst, info[..], rest);
    ok := |rest| == 0;
  }

  /** One round of that loop. */
  method DecryptPiece(c: Cipher, info: array<byte>, s: seq<byte>, inPlace: bool) returns (done: seq<byte>)
    requires info.Length == c.size <= |s|
    modifies info
    ensures done == Decrypted(c, old(info[..]), s) && info[..] == Chain(c, old(info[..]), s)
    ensures |done| >= c.size
  {
    hide *;
    WholeUp(c, |s|);
    ghost var r := Decrypted(c, info[..], s);
    var src := Buffer(s);
    if inPlace {
      var left := DecryptInPlace(c, info, src);
      SpliceFront(s, r);
      done := src[..|s| - left];
    } else {
      var dst := Buffer(s);
      var left := DecryptSegment(c, info, src, dst);
      SpliceFront(s, r);
      done := dst[..|s| - left];
    }
  }
}
