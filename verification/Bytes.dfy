/** Byte buffers: crypto_xor and crypto_inc of crypto/algapi.c, with the big-endian reading that
    crypto_inc counts in. */
module Bytes {
  import opened Arithmetic

  type byte = bv8

  // ----- exclusive or -----

  function Xor(a: seq<byte>, b: seq<byte>): (r: seq<byte>)
    requires |a| == |b|
    ensures |r| == |a|
  {
    seq(|a|, i requires 0 <= i < |a| => a[i] ^ b[i])
  }

  function Zeros(n: nat): (r: seq<byte>)
    ensures |r| == n
  {
    seq(n, _ => 0)
  }

  lemma XorCancel(a: seq<byte>, b: seq<byte>)
    requires |a| == |b|
    ensures Xor(Xor(a, b), b) == a
  {
    forall i | 0 <= i < |a| ensures Xor(Xor(a, b), b)[i] == a[i] {
      assert (a[i] ^ b[i]) ^ b[i] == a[i];
    }
  }

  lemma XorCommutes(a: seq<byte>, b: seq<byte>)
    requires |a| == |b|
    ensures Xor(a, b) == Xor(b, a)
  {
    forall i | 0 <= i < |a| ensures Xor(a, b)[i] == Xor(b, a)[i] {
      assert a[i] ^ b[i] == b[i] ^ a[i];
    }
  }

  lemma XorZeros(a: seq<byte>)
    ensures Xor(a, Zeros(|a|)) == a
  {
    forall i | 0 <= i < |a| ensures Xor(a, Zeros(|a|))[i] == a[i] {
      assert a[i] ^ 0 == a[i];
    }
  }

  // ----- buffers -----

  /** `s` with `t` written over it from `i` on. */
  function Splice(s: seq<byte>, i: nat, t: seq<byte>): (r: seq<byte>)
    requires i + |t| <= |s|
    ensures |r| == |s|
  {
    s[..i] + t + s[i + |t|..]
  }

  /** memcpy, and a block cipher storing its result */
  method Write(a: array<byte>, i: nat, t: seq<byte>)
    requires i + |t| <= a.Length
    modifies a
    ensures a[..] == Splice(old(a[..]), i, t)
  {
    forall k | i <= k < i + |t| {
      a[k] := t[k - i];
    }
  }

  // ----- 32-bit words -----

  /** A big-endian word; crypto_xor uses the machine's own order, which makes no difference to it. */
  function Word(b: seq<byte>): bv32
    requires |b| == 4
  {
    (b[0] as bv32 << 24) | (b[1] as bv32 << 16) | (b[2] as bv32 << 8) | b[3] as bv32
  }

  function WordBytes(w: bv32): (r: seq<byte>)
    ensures |r| == 4
  {
    [(w >> 24) as byte, ((w >> 16) & 0xff) as byte, ((w >> 8) & 0xff) as byte, (w & 0xff) as byte]
  }

  /** One word at a time is one byte at a time. */
  lemma WordXor(a: seq<byte>, b: seq<byte>)
    requires |a| == |b| == 4
    ensures WordBytes(Word(a) ^ Word(b)) == [a[0] ^ b[0], a[1] ^ b[1], a[2] ^ b[2], a[3] ^ b[3]]
  {
  }

  lemma WordIsXor(a: seq<byte>, b: seq<byte>)
    requires |a| == |b| == 4
    ensures WordBytes(Word(a) ^ Word(b)) == Xor(a, b)
  {
    hide *;
    WordXor(a, b);
    XorFour(a, b);
  }

  lemma XorFour(a: seq<byte>, b: seq<byte>)
    requires |a| == |b| == 4
    ensures Xor(a, b) == [a[0] ^ b[0], a[1] ^ b[1], a[2] ^ b[2], a[3] ^ b[3]]
  {
    var r := Xor(a, b);
    assert r[0] == a[0] ^ b[0] && r[1] == a[1] ^ b[1] && r[2] == a[2] ^ b[2] && r[3] == a[3] ^ b[3];
    hide Xor;
    FourOf(r);
  }

  lemma FourOf(r: seq<byte>)
    requires |r| == 4
    ensures r == [r[0], r[1], r[2], r[3]]
  {
  }

  lemma ByteIsXor(a: seq<byte>, b: seq<byte>)
    requires |a| == |b| == 1
    ensures [a[0] ^ b[0]] == Xor(a, b)
  {
  }

  /** What crypto_xor has done after `k` bytes. */
  ghost predicate Xored(now: seq<byte>, was: seq<byte>, i: nat, t: seq<byte>, k: nat)
    requires k <= |t| && i + |t| <= |was|
  {
    now == Splice(was, i, Xor(was[i..i + k], t[..k]))
  }

  lemma XoredNext(now: seq<byte>, was: seq<byte>, i: nat, t: seq<byte>, k: nat, n: nat)
    requires k + n <= |t| && i + |t| <= |was| && Xored(now, was, i, t, k)
    ensures Xored(Splice(now, i + k, Xor(now[i + k..i + k + n], t[k..k + n])), was, i, t, k + n)
  {
    hide Xor, Splice;
    var w, v := was[i..i + k], was[i + k..i + k + n];
    XorConcat(w, v, t[..k], t[k..k + n]);
    Pieces(was, i, k, n);
    assert t[..k] + t[k..k + n] == t[..k + n];
    SpliceOn(was, i, Xor(w, t[..k]), Xor(v, t[k..k + n]));
  }

  lemma Pieces(s: seq<byte>, i: nat, k: nat, n: nat)
    requires i + k + n <= |s|
    ensures s[i..i + k] + s[i + k..i + k + n] == s[i..i + (k + n)]
  {
  }

  lemma XorConcat(a: seq<byte>, b: seq<byte>, c: seq<byte>, d: seq<byte>)
    requires |a| == |c| && |b| == |d|
    ensures Xor(a + b, c + d) == Xor(a, c) + Xor(b, d)
  {
  }

  /** Writing `y` behind `x` does not look at what was written, and leaves what comes next. */
  lemma SpliceOn(s: seq<byte>, i: nat, x: seq<byte>, y: seq<byte>)
    requires i + |x| + |y| <= |s|
    ensures
      var now := Splice(s, i, x);
      && now[i + |x|..i + |x| + |y|] == s[i + |x|..i + |x| + |y|]
      && Splice(now, i + |x|, y) == Splice(s, i, x + y)
  {
    var now := Splice(s, i, x);
    assert now[..i + |x|] == s[..i] + x;
    assert now[i + |x| + |y|..] == s[i + |x| + |y|..];
    assert s[..i] + x + y + s[i + |x| + |y|..] == s[..i] + (x + y) + s[i + (|x| + |y|)..];
  }

  lemma XoredNone(was: seq<byte>, i: nat, t: seq<byte>)
    requires i + |t| <= |was|
    ensures Xored(was, was, i, t, 0)
  {
  }

  lemma XoredAll(now: seq<byte>, was: seq<byte>, i: nat, t: seq<byte>)
    requires i + |t| <= |was| && Xored(now, was, i, t, |t|)
    ensures now == Splice(was, i, Xor(was[i..i + |t|], t))
  {
    assert t[..|t|] == t;
  }

  /** One round of either loop of crypto_xor: `n` bytes at `k`. */
  method XorRound(a: array<byte>, i: nat, t: seq<byte>, k: nat, n: nat, ghost was: seq<byte>)
    requires i + |t| <= a.Length == |was| && k + n <= |t| && Xored(a[..], was, i, t, k)
    requires n == 4 || n == 1
    modifies a
    ensures Xored(a[..], was, i, t, k + n)
  {
    hide WordBytes, Word, Xored, Xor, Splice;
    ghost var now := a[..];
    var x, y := a[i + k..i + k + n], t[k..k + n];
    XoredNext(now, was, i, t, k, n);
    if n == 4 {
      WordIsXor(x, y);
    } else {
      ByteIsXor(x, y);
    }
    if n == 4 {
      Write(a, i + k, WordBytes(Word(x) ^ Word(y)));
    } else {
      Write(a, i + k, [x[0] ^ y[0]]);
    }
  }

  /** crypto_xor: words, then the odd bytes.  `t` is the other buffer, which `a` must not overlap. */
  method CryptoXor(a: array<byte>, i: nat, t: seq<byte>)
    requires i + |t| <= a.Length
    modifies a
    ensures a[..] == Splice(old(a[..]), i, Xor(old(a[i..i + |t|]), t))
  {
    hide *;
    ghost var was := a[..];
    var k := 0;
    XoredNone(was, i, t);
    while |t| - k >= 4
      invariant 0 <= k <= |t|
      invariant Xored(a[..], was, i, t, k)
    {
      XorRound(a, i, t, k, 4, was);
      k := k + 4;
    }
    while k < |t|
      invariant 0 <= k <= |t|
      invariant Xored(a[..], was, i, t, k)
    {
      XorRound(a, i, t, k, 1, was);
      k := k + 1;
    }
    XoredAll(a[..], was, i, t);
  }

  /** The same on a whole buffer. */
  method XorAll(a: array<byte>, t: seq<byte>)
    requires |t| == a.Length
    modifies a
    ensures a[..] == Xor(old(a[..]), t)
  {
    hide Xor;
    ghost var was := a[..];
    CryptoXor(a, 0, t);
    assert was[0..|t|] == was;
  }

  method WriteAll(a: array<byte>, t: seq<byte>)
    requires |t| == a.Length
    modifies a
    ensures a[..] == t
  {
    Write(a, 0, t);
  }

  // ----- counting -----

  /** The number that a big-endian byte string stands for. */
  function Value(a: seq<byte>): nat {
    if a == [] then 0 else 256 * Value(a[..|a| - 1]) + a[|a| - 1] as nat
  }

  function Pow256(n: nat): (r: nat)
    ensures r > 0
  {
    if n == 0 then 1 else 256 * Pow256(n - 1)
  }

  /** The next byte string of the same length, wrapping round. */
  function Inc(a: seq<byte>): (r: seq<byte>)
    ensures |r| == |a|
  {
    if a == [] then []
    else if a[|a| - 1] == 0xff then Inc(a[..|a| - 1]) + [0]
    else a[..|a| - 1] + [a[|a| - 1] + 1]
  }

  lemma {:induction false} ValueBound(a: seq<byte>)
    ensures Value(a) < Pow256(|a|)
  {
    if a != [] {
      ValueBound(a[..|a| - 1]);
    }
  }

  /** `Inc` adds one to the number, modulo what the string can hold. */
  lemma {:induction false} IncCounts(a: seq<byte>)
    ensures Value(Inc(a)) == (Value(a) + 1) % Pow256(|a|)
  {
    hide *;
    ValueBound(a);
    IncAdds(a);
    NextMod(Value(a), Pow256(|a|));
  }

  lemma {:induction false} IncAdds(a: seq<byte>)
    ensures Value(Inc(a)) == if Value(a) + 1 == Pow256(|a|) then 0 else Value(a) + 1
  {
    if a != [] {
      var n := |a| - 1;
      var s, b := a[..n], a[n];
      assert a == s + [b];
      IncAdds(s);
      ValueBound(s);
      IncLast(s, b);
      ValueLast(s, b);
      if b == 0xff {
        ValueLast(Inc(s), 0);
      } else {
        ValueLast(s, b + 1);
        NextByte(b);
      }
    }
  }

  lemma NextByte(b: byte)
    requires b != 0xff
    ensures (b + 1) as nat == b as nat + 1 <= 255
  {
  }

  lemma ValueLast(s: seq<byte>, b: byte)
    ensures Value(s + [b]) == 256 * Value(s) + b as nat
  {
    assert (s + [b])[..|s|] == s;
  }

  lemma IncLast(s: seq<byte>, b: byte)
    ensures Inc(s + [b]) == if b == 0xff then Inc(s) + [0] else s + [b + 1]
  {
    assert (s + [b])[..|s|] == s;
  }

  /** What adding one to a word does to its bytes. */
  function NextWord(a: seq<byte>): (r: seq<byte>)
    requires |a| == 4
    ensures |r| == 4
  {
    if a[3] != 0xff then [a[0], a[1], a[2], a[3] + 1]
    else if a[2] != 0xff then [a[0], a[1], a[2] + 1, 0]
    else if a[1] != 0xff then [a[0], a[1] + 1, 0, 0]
    else [a[0] + 1, 0, 0, 0]
  }

  lemma WordNext(a: seq<byte>)
    requires |a| == 4
    ensures WordBytes(Word(a) + 1) == NextWord(a)
    ensures Word(a) + 1 == 0 <==> a == [0xff, 0xff, 0xff, 0xff]
  {
  }

  /** How a whole word at the end of the string counts. */
  lemma IncTail(s: seq<byte>, w: seq<byte>)
    requires |w| == 4
    ensures Inc(s + w) == (if w == [0xff, 0xff, 0xff, 0xff] then Inc(s) else s) + NextWord(w)
  {
    hide Inc;
    var s1 := s + [w[0]];
    var s2 := s1 + [w[1]];
    var s3 := s2 + [w[2]];
    Four(s, w[0], w[1], w[2], w[3]);
    assert w == [w[0], w[1], w[2], w[3]];
    IncLast(s3, w[3]);
    IncLast(s2, w[2]);
    IncLast(s1, w[1]);
    IncLast(s, w[0]);
    Four(s, w[0], w[1], w[2], w[3] + 1);
    Four(s, w[0], w[1], w[2] + 1, 0);
    Four(s, w[0], w[1] + 1, 0, 0);
    Four(s, w[0] + 1, 0, 0, 0);
    Four(Inc(s), 0, 0, 0, 0);
  }

  lemma Four(s: seq<byte>, a: byte, b: byte, c: byte, d: byte)
    ensures s + [a] + [b] + [c] + [d] == s + [a, b, c, d]
  {
  }

  /** The last bytes, from `n` on, have wrapped to what they should be and carry into the rest. */
  ghost predicate Carried(now: seq<byte>, was: seq<byte>, n: nat)
    requires n <= |now| == |was|
  {
    now[..n] == was[..n] && Inc(was) == Inc(was[..n]) + now[n..]
  }

  lemma Assoc(x: seq<byte>, y: seq<byte>, z: seq<byte>)
    ensures (x + y) + z == x + (y + z)
  {
  }

  lemma SplicedIs(now: seq<byte>, n: nat, v: seq<byte>)
    requires |v| <= n <= |now|
    ensures Splice(now, n - |v|, v) == now[..n - |v|] + (v + now[n..])
  {
  }

  lemma CommonPrefix(x: seq<byte>, y: seq<byte>, n: nat, k: nat)
    requires k <= n <= |x| == |y| && x[..n] == y[..n]
    ensures x[..k] == y[..k]
  {
    assert x[..n][..k] == x[..k] && y[..n][..k] == y[..k];
  }

  lemma Rejoin(s: seq<byte>, n: nat)
    requires n <= |s|
    ensures s == s[..n] + s[n..]
  {
  }

  lemma Halves(x: seq<byte>, y: seq<byte>)
    ensures (x + y)[..|x|] == x && (x + y)[|x|..] == y
  {
  }

  lemma CarryOn(now: seq<byte>, was: seq<byte>, n: nat, s: seq<byte>, v: seq<byte>)
    requires |v| <= n <= |now| == |was| && Carried(now, was, n)
    requires s == now[..n - |v|]
    ensures Splice(now, n - |v|, v) == s + (v + now[n..])
    ensures Inc(was[..n]) == s + v ==> Splice(now, n - |v|, v) == Inc(was)
    ensures Inc(was[..n]) == Inc(s) + v ==> Carried(Splice(now, n - |v|, v), was, n - |v|)
  {
    hide Inc, Splice;
    var tail := now[n..];
    SplicedIs(now, n, v);
    Assoc(s, v, tail);
    Assoc(Inc(s), v, tail);
    CommonPrefix(now, was, n, n - |v|);
    Halves(s, v + tail);
  }

  lemma CarriedHead(now: seq<byte>, was: seq<byte>, n: nat, k: nat)
    requires k <= n <= |now| == |was| && Carried(now, was, n)
    ensures was[..n] == now[..n - k] + now[n - k..n]
  {
    assert now[..n] == now[..n - k] + now[n - k..n];
  }

  lemma CarriedWord(now: seq<byte>, was: seq<byte>, n: nat)
    requires 4 <= n <= |now| == |was| && Carried(now, was, n)
    ensures
      var w := now[n - 4..n];
      var next := Splice(now, n - 4, WordBytes(Word(w) + 1));
      if Word(w) + 1 == 0 then Carried(next, was, n - 4) else next == Inc(was)
  {
    hide *;
    var w, s := now[n - 4..n], now[..n - 4];
    WordNext(w);
    IncTail(s, w);
    CarriedHead(now, was, n, 4);
    CarryOn(now, was, n, s, NextWord(w));
  }

  lemma CarriedByte(now: seq<byte>, was: seq<byte>, n: nat)
    requires 1 <= n <= |now| == |was| && Carried(now, was, n)
    ensures
      var b := now[n - 1] + 1;
      var next := Splice(now, n - 1, [b]);
      if b == 0 then Carried(next, was, n - 1) else next == Inc(was)
  {
    hide *;
    var s, b := now[..n - 1], now[n - 1];
    assert b + 1 == 0 <==> b == 0xff;
    IncLast(s, b);
    CarriedHead(now, was, n, 1);
    assert now[n - 1..n] == [b];
    CarryOn(now, was, n, s, [b + 1]);
  }

  /** crypto_inc: 32-bit words from the end, stopping at the first that does not wrap, then
      crypto_inc_byte on what is left in front. */
  method CryptoInc(a: array<byte>)
    modifies a
    ensures a[..] == Inc(old(a[..]))
  {
    ghost var was := a[..];
    var size := a.Length;
    var c: bv32 := 0;
    assert Carried(was, was, size) by {
      assert was[..size] == was && was[size..] == [];
    }
    hide *;
    while size >= 4 && c == 0
      invariant 0 <= size <= a.Length
      invariant if c == 0 then Carried(a[..], was, size) else a[..] == Inc(was)
      decreases size
    {
      CarriedWord(a[..], was, size);
      var w := a[size - 4..size];
      assert w == a[..][size - 4..size];
      c := Word(w) + 1;
      Write(a, size - 4, WordBytes(c));
      size := size - 4;
    }
    if c == 0 {
      IncByte(a, size, was);
    }
  }

  /** crypto_inc_byte on the first `n` bytes. */
  method IncByte(a: array<byte>, n: nat, ghost was: seq<byte>)
    requires n <= a.Length == |was| && Carried(a[..], was, n)
    modifies a
    ensures a[..] == Inc(was)
  {
    var size := n;
    var c: byte := 0;
    while size > 0 && c == 0
      invariant 0 <= size <= n
      invariant if c == 0 then Carried(a[..], was, size) else a[..] == Inc(was)
      decreases size
    {
      hide *;
      CarriedByte(a[..], was, size);
      c := a[size - 1] + 1;
      Write(a, size - 1, [c]);
      size := size - 1;
    }
  }
}
