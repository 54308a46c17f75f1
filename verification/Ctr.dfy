/** Counter mode over any block cipher, with whole blocks first: crypto/ctr.c. */
module Ctr {
  import opened Arithmetic
  import opened Bytes
  import opened BlockCipher
  import opened Cbc
  import opened CbcWalk

  // ----- what counter mode computes -----

  /** `s` mixed with the encryptions of `v` and of the counters that follow it. */
  function Crypted(c: Cipher, v: seq<byte>, s: seq<byte>): (r: seq<byte>)
    requires |v| == c.size
    ensures |r| == |s|
    decreases |s|
  {
    if |s| < c.size then Xor(s, Enc(c, v)[..|s|])
    else Xor(s[..c.size], Enc(c, v)) + Crypted(c, Inc(v), s[c.size..])
  }

  /** The counter after `n` bytes: one step for each block begun. */
  function Counter(c: Cipher, v: seq<byte>, n: nat): (r: seq<byte>)
    requires |v| == c.size
    ensures |r| == c.size
    decreases n
  {
    if n == 0 then v else if n < c.size then Inc(v) else Counter(c, Inc(v), n - c.size)
  }

  lemma Step(c: Cipher, v: seq<byte>, b: seq<byte>, s: seq<byte>)
    requires |v| == |b| == c.size
    ensures Crypted(c, v, b + s) == Xor(b, Enc(c, v)) + Crypted(c, Inc(v), s)
    ensures Counter(c, v, |b + s|) == Counter(c, Inc(v), |s|)
  {
    hide Keyed, Enc, Inc, Xor;
    Positive(c);
    assert (b + s)[..c.size] == b && (b + s)[c.size..] == s;
  }

  lemma Last(c: Cipher, v: seq<byte>, s: seq<byte>)
    requires |v| == c.size > |s|
    ensures Crypted(c, v, s) == Xor(s, Enc(c, v)[..|s|])
    ensures Counter(c, v, |s|) == if s == [] then v else Inc(v)
  {
  }

  // ----- its properties -----

  /** The same operation encrypts and decrypts. */
  lemma {:induction false} SelfInverse(c: Cipher, v: seq<byte>, s: seq<byte>)
    requires |v| == c.size
    ensures Crypted(c, v, Crypted(c, v, s)) == s
    decreases |s|
  {
    hide *;
    Positive(c);
    if |s| < c.size {
      Last(c, v, s);
      var k := Enc(c, v)[..|s|];
      Last(c, v, Xor(s, k));
      XorCancel(s, k);
    } else {
      var b, t := s[..c.size], s[c.size..];
      assert s == b + t;
      Step(c, v, b, t);
      SelfInverse(c, Inc(v), t);
      Step(c, v, Xor(b, Enc(c, v)), Crypted(c, Inc(v), t));
      XorCancel(b, Enc(c, v));
    }
  }

  /** A message may be cut after any whole number of blocks. */
  lemma {:induction false} Split(c: Cipher, v: seq<byte>, a: seq<byte>, s: seq<byte>)
    requires |v| == c.size && Whole(c, |a|) == |a|
    ensures Crypted(c, v, a + s) == Crypted(c, v, a) + Crypted(c, Counter(c, v, |a|), s)
    ensures Counter(c, v, |a + s|) == Counter(c, Counter(c, v, |a|), |s|)
    decreases |a|
  {
    hide *;
    Positive(c);
    WholeDown(c, |a|, |a|);
    if a == [] {
      Last(c, v, a);
      assert a + s == s;
      assert Crypted(c, v, a) == [];
    } else {
      var b, t := a[..c.size], a[c.size..];
      Rejoin(a, c.size);
      Assoc(b, t, s);
      Step(c, v, b, t);
      Step(c, v, b, t + s);
      Split(c, Inc(v), t, s);
      Assoc(Xor(b, Enc(c, v)), Crypted(c, Inc(v), t), Crypted(c, Counter(c, Inc(v), |t|), s));
    }
  }

  /** Every byte is mixed with the byte at its place in the encryption of its block's counter. */
  lemma {:induction false} Textbook(c: Cipher, v: seq<byte>, s: seq<byte>, i: nat)
    requires |v| == c.size && i < |s|
    ensures
      var w := Whole(c, i);
      Crypted(c, v, s)[i] == s[i] ^ Enc(c, Counter(c, v, w))[i - w]
    decreases |s|
  {
    Positive(c);
    if |s| < c.size {
      hide Keyed, Enc;
    } else {
      var b, t := s[..c.size], s[c.size..];
      Rejoin(s, c.size);
      Step(c, v, b, t);
      WholeNext(c, v, i);
      hide *;
      if i >= c.size {
        Textbook(c, Inc(v), t, i - c.size);
      } else {
        XorAt(b, Enc(c, v), i);
      }
    }
  }

  lemma XorAt(a: seq<byte>, b: seq<byte>, i: nat)
    requires i < |a| == |b|
    ensures Xor(a, b)[i] == a[i] ^ b[i]
  {
  }

  lemma WholeNext(c: Cipher, v: seq<byte>, i: nat)
    requires |v| == c.size > 0
    ensures i < c.size ==> Whole(c, i) == 0 && Counter(c, v, Whole(c, i)) == v
    ensures i >= c.size ==> Whole(c, i) == c.size + Whole(c, i - c.size)
    ensures i >= c.size ==> Counter(c, v, Whole(c, i)) == Counter(c, Inc(v), Whole(c, i - c.size))
  {
    hide Inc;
  }

  /** The number of blocks begun by `n` bytes. */
  function Blocks(c: Cipher, n: nat): (k: nat) {
    if n == 0 then 0 else if n < c.size then 1 else 1 + Blocks(c, n - c.size)
  }

  /** The counter counts the blocks, modulo what it can hold. */
  lemma {:induction false} CounterCounts(c: Cipher, v: seq<byte>, n: nat)
    requires |v| == c.size
    ensures Value(Counter(c, v, n)) == (Value(v) + Blocks(c, n)) % Pow256(c.size)
    decreases n
  {
    hide Keyed, Inc, Pow256, Value;
    Positive(c);
    var m := Pow256(c.size);
    if n == 0 {
      ValueBound(v);
      SmallMod(Value(v), m);
    } else {
      IncCounts(v);
      if n >= c.size {
        CounterCounts(c, Inc(v), n - c.size);
        AddMod(Value(v) + 1, Blocks(c, n - c.size), m);
      }
    }
  }

  lemma AddMod(x: nat, y: nat, m: nat)
    requires m > 0
    ensures (x % m + y) % m == (x + y) % m
  {
    var q, r := (x % m + y) / m, (x % m + y) % m;
    assert x == m * (x / m) + x % m;
    assert m * (x / m + q) == m * (x / m) + m * q;
    DivModUnique(x + y, m, x / m + q, r);
  }

  // ----- the loops -----

  /** A loop has produced `r` from `s`, with `rest` still to do, and counts on from `v`. */
  ghost predicate Crypting(c: Cipher, v0: seq<byte>, s: seq<byte>, r: seq<byte>, v: seq<byte>, rest: seq<byte>)
    requires |v0| == |v| == c.size
  {
    && Crypted(c, v0, s) == r + Crypted(c, v, rest)
    && Counter(c, v0, |s|) == Counter(c, v, |rest|)
  }

  /** The buffer `now`, which was `was`, begins with what the loop has made of the first `k` bytes
      of `s`. */
  ghost predicate Onward(c: Cipher, v0: seq<byte>, s: seq<byte>, was: seq<byte>, now: seq<byte>, v: seq<byte>, k: nat)
    requires |v0| == |v| == c.size && k <= |s| <= |was|
  {
    && |now| == |was| && now[k..] == was[k..] && Whole(c, k) == k
    && now[..k] == Crypted(c, v0, s[..k]) && v == Counter(c, v0, k)
  }

  lemma OnwardBegin(c: Cipher, v0: seq<byte>, s: seq<byte>, was: seq<byte>)
    requires |v0| == c.size && |s| <= |was|
    ensures Onward(c, v0, s, was, was, v0, 0)
  {
    Positive(c);
    assert s[..0] == [];
  }

  lemma OnwardNext(c: Cipher, v0: seq<byte>, s: seq<byte>, was: seq<byte>, now: seq<byte>, v: seq<byte>, k: nat)
    requires |v0| == |v| == c.size && k + c.size <= |s| <= |was| && Onward(c, v0, s, was, now, v, k)
    ensures k + c.size <= |now| && now[k..k + c.size] == was[k..k + c.size]
    ensures
      var b := s[k..k + c.size];
      Onward(c, v0, s, was, Splice(now, k, Xor(Enc(c, v), b)), Inc(v), k + c.size)
  {
    hide Keyed, Enc, Inc, Crypted, Counter, Whole, Xor, Splice;
    ExtendAt(c, v0, s, k);
    SpliceParts(now, k, Xor(Enc(c, v), s[k..k + c.size]));
    Tails(now, was, k, c.size);
  }

  lemma ExtendAt(c: Cipher, v0: seq<byte>, s: seq<byte>, k: nat)
    requires |v0| == c.size && k + c.size <= |s| && Whole(c, k) == k
    ensures
      var v := Counter(c, v0, k);
      var n := k + c.size;
      && Crypted(c, v0, s[..n]) == Crypted(c, v0, s[..k]) + Xor(Enc(c, v), s[k..n])
      && Counter(c, v0, n) == Inc(v) && Whole(c, n) == n
  {
    hide *;
    WholeSum(c, k);
    var a, b := s[..k], s[k..k + c.size];
    XorCommutes(Enc(c, Counter(c, v0, k)), b);
    Extend(c, v0, a, b);
    assert s[..k + c.size] == a + b;
  }

  /** One more block. */
  lemma Extend(c: Cipher, v0: seq<byte>, a: seq<byte>, b: seq<byte>)
    requires |v0| == |b| == c.size && Whole(c, |a|) == |a|
    ensures
      var v := Counter(c, v0, |a|);
      Crypted(c, v0, a + b) == Crypted(c, v0, a) + Xor(b, Enc(c, v)) && Counter(c, v0, |a + b|) == Inc(v)
  {
    hide *;
    Positive(c);
    var v := Counter(c, v0, |a|);
    Split(c, v0, a, b);
    assert b + [] == b;
    Step(c, v, b, []);
    Last(c, Inc(v), []);
    assert Crypted(c, Inc(v), []) == [];
  }

  lemma Tails(s: seq<byte>, t: seq<byte>, k: nat, n: nat)
    requires |s| == |t| >= k + n && s[k..] == t[k..]
    ensures s[k + n..] == t[k + n..] && s[k..k + n] == t[k..k + n]
  {
    assert s[k + n..] == s[k..][n..] && t[k + n..] == t[k..][n..];
    assert s[k..k + n] == s[k..][..n] && t[k..k + n] == t[k..][..n];
  }

  lemma {:induction false} WholeSum(c: Cipher, k: nat)
    requires Whole(c, k) == k
    ensures Whole(c, k + c.size) == k + c.size
  {
  }

  lemma OnwardEnd(c: Cipher, v0: seq<byte>, s: seq<byte>, was: seq<byte>, now: seq<byte>, v: seq<byte>, k: nat)
    requires |v0| == |v| == c.size && k <= |s| <= |was| && |s| < k + c.size && Onward(c, v0, s, was, now, v, k)
    ensures k == Whole(c, |s|)
    ensures now == Splice(was, 0, Crypted(c, v0, s[..k])) && v == Counter(c, v0, k)
  {
    hide Keyed, Enc, Inc, Crypted, Counter, Whole;
    WholeAt(c, |s|, k);
    assert now == Splice(was, 0, now[..k]);
  }

  lemma {:induction false} WholeAt(c: Cipher, n: nat, k: nat)
    requires Whole(c, k) == k <= n < k + c.size
    ensures Whole(c, n) == k
    decreases n
  {
    if k > 0 {
      WholeAt(c, n - c.size, k - c.size);
    }
  }

  /** crypto_ctr_crypt_segment */
  method CryptSegment(c: Cipher, ctrblk: array<byte>, src: array<byte>, dst: array<byte>) returns (left: nat)
    requires ctrblk.Length == c.size <= src.Length <= dst.Length
    requires ctrblk != src && ctrblk != dst && src != dst
    modifies ctrblk, dst
    ensures
      var w := Whole(c, src.Length);
      && left == src.Length - w
      && dst[..] == Splice(old(dst[..]), 0, Crypted(c, old(ctrblk[..]), src[..w]))
      && ctrblk[..] == Counter(c, old(ctrblk[..]), w)
  {
    hide *;
    Positive(c);
    ghost var v0, was := ctrblk[..], dst[..];
    var k := 0;
    OnwardBegin(c, v0, src[..], was);
    while src.Length - k >= c.size
      invariant 0 <= k <= src.Length && c.size > 0
      invariant Onward(c, v0, src[..], was, dst[..], ctrblk[..], k)
    {
      OnwardNext(c, v0, src[..], was, dst[..], ctrblk[..], k);
      CryptBlock(c, ctrblk, src[k..k + c.size], dst, k);
      k := k + c.size;
    }
    OnwardEnd(c, v0, src[..], was, dst[..], ctrblk[..], k);
    left := src.Length - k;
    assert src[..][..k] == src[..k];
  }

  /** The body of that loop. */
  method CryptBlock(c: Cipher, ctrblk: array<byte>, b: seq<byte>, dst: array<byte>, pos: nat)
    requires ctrblk.Length == |b| == c.size && pos + c.size <= dst.Length && ctrblk != dst
    modifies ctrblk, dst
    ensures dst[..] == Splice(old(dst[..]), pos, Xor(Enc(c, old(ctrblk[..])), b))
    ensures ctrblk[..] == Inc(old(ctrblk[..]))
  {
    hide *;
    ghost var was, v := dst[..], ctrblk[..];
    Write(dst, pos, Enc(c, ctrblk[..]));
    SpliceTwice(was, pos, Enc(c, v), Xor(Enc(c, v), b));
    CryptoXor(dst, pos, b);
    CryptoInc(ctrblk);
  }

  /** crypto_ctr_crypt_inplace */
  method CryptInPlace(c: Cipher, ctrblk: array<byte>, src: array<byte>) returns (left: nat)
    requires ctrblk.Length == c.size <= src.Length && ctrblk != src
    modifies ctrblk, src
    ensures
      var w := Whole(c, src.Length);
      && left == src.Length - w
      && src[..] == Splice(old(src[..]), 0, Crypted(c, old(ctrblk[..]), old(src[..w])))
      && ctrblk[..] == Counter(c, old(ctrblk[..]), w)
  {
    hide *;
    Positive(c);
    ghost var v0, was := ctrblk[..], src[..];
    var k := 0;
    OnwardBegin(c, v0, was, was);
    while src.Length - k >= c.size
      invariant 0 <= k <= src.Length && c.size > 0
      invariant Onward(c, v0, was, was, src[..], ctrblk[..], k)
    {
      OnwardNext(c, v0, was, was, src[..], ctrblk[..], k);
      XorCommutes(Enc(c, ctrblk[..]), src[k..k + c.size]);
      var keystream := Enc(c, ctrblk[..]);
      CryptoXor(src, k, keystream);
      CryptoInc(ctrblk);
      k := k + c.size;
    }
    OnwardEnd(c, v0, was, was, src[..], ctrblk[..], k);
    left := src.Length - k;
    assert was[..k] == old(src[..k]);
  }

  /** crypto_ctr_crypt_final, for the bytes that do not fill a block. */
  method CryptFinal(c: Cipher, ctrblk: array<byte>, s: seq<byte>) returns (r: seq<byte>)
    requires ctrblk.Length == c.size > |s| > 0
    modifies ctrblk
    ensures r == Crypted(c, old(ctrblk[..]), s) && ctrblk[..] == Counter(c, old(ctrblk[..]), |s|)
  {
    hide *;
    ghost var v := ctrblk[..];
    var e := Enc(c, v);
    Last(c, v, s);
    XorCommutes(s, e[..|s|]);
    var keystream := Buffer(Enc(c, ctrblk[..]));
    CryptoXor(keystream, 0, s);
    assert keystream[..] == Splice(e, 0, Xor(e[..|s|], s)) by {
      assert e[0..|s|] == e[..|s|];
    }
    SpliceFront(e, Xor(e[..|s|], s));
    r := keystream[..|s|];
    CryptoInc(ctrblk);
  }

  lemma WalkCrypts(c: Cipher, v0: seq<byte>, s: seq<byte>, r: seq<byte>, v: seq<byte>, rest: seq<byte>, w: nat)
    requires |v0| == |v| == c.size && w <= |rest| && Whole(c, w) == w && Crypting(c, v0, s, r, v, rest)
    ensures Crypting(c, v0, s, r + Crypted(c, v, rest[..w]), Counter(c, v, w), rest[w..])
  {
    hide Keyed, Crypted, Counter, Whole;
    Split(c, v, rest[..w], rest[w..]);
    assert rest == rest[..w] + rest[w..];
    var a, b := Crypted(c, v, rest[..w]), Crypted(c, Counter(c, v, w), rest[w..]);
    assert r + (a + b) == (r + a) + b;
  }

  lemma CryptBegin(c: Cipher, v0: seq<byte>, s: seq<byte>)
    requires |v0| == c.size
    ensures Crypting(c, v0, s, [], v0, s)
  {
    hide Keyed, Crypted, Counter;
  }

  lemma CryptEnd(c: Cipher, v0: seq<byte>, s: seq<byte>, r: seq<byte>, v: seq<byte>, rest: seq<byte>)
    requires |v0| == |v| == c.size && Crypting(c, v0, s, r, v, rest)
    ensures Crypted(c, v0, s) == r + Crypted(c, v, rest)
    ensures Counter(c, v0, |s|) == Counter(c, v, |rest|)
    ensures rest == [] ==> Crypted(c, v, rest) == [] && Counter(c, v, |rest|) == v
  {
  }

  /** crypto_ctr_crypt, over any walk. */
  method Crypt(c: Cipher, info: array<byte>, src: seq<byte>, walk: seq<Piece>) returns (dst: seq<byte>)
    requires info.Length == c.size
    modifies info
    ensures dst == Crypted(c, old(info[..]), src)
    ensures info[..] == Counter(c, old(info[..]), |src|)
  {
    hide *;
    Positive(c);
    dst := [];
    var rest, i := src, 0;
    ghost var v0 := info[..];
    CryptBegin(c, v0, src);
    while |rest| >= c.size
      invariant |dst| + |rest| == |src| && c.size > 0
      invariant Crypting(c, v0, src, dst, info[..], rest)
      decreases |rest|
    {
      var p := Offer(c, walk, i, |rest|);
      ghost var w := Whole(c, p.size);
      WholeUp(c, p.size);
      Idempotent(c, p.size);
      WalkCrypts(c, v0, src, dst, info[..], rest, w);
      assert rest[..p.size][..w] == rest[..w];
      var done := CryptPiece(c, info, rest[..p.size], p.inPlace);
      dst, rest, i := dst + done, rest[|done|..], i + 1;
    }
    CryptEnd(c, v0, src, dst, info[..], rest);
    if |rest| > 0 {
      var done := CryptFinal(c, info, rest);
      dst := dst + done;
    }
  }

  /** One round of that loop. */
  method CryptPiece(c: Cipher, info: array<byte>, s: seq<byte>, inPlace: bool) returns (done: seq<byte>)
    requires info.Length == c.size <= |s|
    modifies info
    ensures done == Crypted(c, old(info[..]), s[..Whole(c, |s|)])
    ensures info[..] == Counter(c, old(info[..]), Whole(c, |s|))
  {
    hide *;
    Idempotent(c, |s|);
    ghost var r := Crypted(c, info[..], s[..Whole(c, |s|)]);
    var src := Buffer(s);
    if inPlace {
      assert src[..][..Whole(c, |s|)] == src[..Whole(c, |s|)];
      var left := CryptInPlace(c, info, src);
      SpliceFront(s, r);
      done := src[..|s| - left];
    } else {
      var dst := Buffer(s);
      assert src[..][..Whole(c, |s|)] == src[..Whole(c, |s|)];
      var left := CryptSegment(c, info, src, dst);
      SpliceFront(s, r);
      done := dst[..|s| - left];
    }
  }
}
