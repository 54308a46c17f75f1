/** What crypto_ccm_encrypt and crypto_ccm_decrypt compute, and how far their counter goes. */
module CcmSeal {
  import opened Arithmetic
  import opened Bytes
  import opened BlockCipher
  import opened Ccm
  import Cbc
  import Ctr

  // ----- the MAC -----

  /** CBC-MAC of the whole blocks of `s`, from `o` on. */
  function Mac(c: Cipher, o: seq<byte>, s: seq<byte>): (r: seq<byte>)
    requires |o| == c.size
    ensures |r| == c.size
  {
    Cbc.Chain(c, o, Cbc.Encrypted(c, o, s))
  }

  /** The tag, all of it: section 2.2 of RFC 3610. */
  function Tag(c: Cipher, m: nat, iv: seq<byte>, assoc: seq<byte>, plain: seq<byte>): (r: Result<seq<byte>>)
    requires |iv| == 16 == c.size && TagSize(m) && iv[0] < 15 && InRange(assoc) && InRange(plain)
    ensures r.Ok? ==> |r.value| == 16
  {
    match Formatted(iv, m, assoc, plain)
    case Err(e) => Err(e)
    case Ok(f) => Ok(Mac(c, Zeros(16), f))
  }

  /** The counter block with the counter cleared. */
  function Start(iv: seq<byte>): (r: seq<byte>)
    requires |iv| == 16 && LegalIv(iv)
    ensures |r| == 16
  {
    var n := 15 - iv[0] as nat;
    iv[..n] + Zeros(16 - n)
  }

  // ----- how far the counter reaches -----

  /** A step that does not wrap the tail leaves the head alone. */
  lemma {:induction false} IncTail(h: seq<byte>, t: seq<byte>)
    requires Value(t) + 1 < Pow256(|t|)
    ensures Inc(h + t) == h + Inc(t)
    decreases |t|
  {
    var s, b := t[..|t| - 1], t[|t| - 1];
    assert t == s + [b] && h + t == (h + s) + [b];
    IncLast(h + s, b);
    IncLast(s, b);
    ValueLast(s, b);
    if b == 0xff {
      IncTail(h, s);
      assert h + Inc(s) + [0] == h + (Inc(s) + [0]);
    } else {
      assert h + s + [b + 1] == h + (s + [b + 1]);
    }
  }

  /** One that does wrap it carries into the head. */
  lemma {:induction false} IncCarries(h: seq<byte>, t: seq<byte>)
    requires Value(t) + 1 == Pow256(|t|)
    ensures Inc(h + t) == Inc(h) + Inc(t)
    decreases |t|
  {
    if t == [] {
      assert h + t == h;
    } else {
      var s, b := t[..|t| - 1], t[|t| - 1];
      assert t == s + [b];
      Assoc(h, s, [b]);
      AllOnes(s, b);
      hide *;
      IncLast(h + s, b);
      IncLast(s, b);
      IncCarries(h, s);
      Assoc(Inc(h), Inc(s), [0]);
    }
  }

  /** A number one short of a power of 256 ends in a full byte, and so does what is before it. */
  lemma AllOnes(s: seq<byte>, b: byte)
    requires Value(s + [b]) + 1 == Pow256(|s| + 1)
    ensures b == 0xff && Value(s) + 1 == Pow256(|s|)
  {
    ValueLast(s, b);
    ValueBound(s);
    assert Pow256(|s| + 1) == 256 * Pow256(|s|);
    hide Value, Pow256;
  }

  /** Counting that does not wrap the tail leaves the head alone. */
  lemma {:induction false} CounterTail(c: Cipher, h: seq<byte>, t: seq<byte>, n: nat)
    requires |h + t| == c.size && Value(t) + Ctr.Blocks(c, n) < Pow256(|t|)
    ensures Ctr.Counter(c, h + t, n)[..|h|] == h
    decreases n
  {
    hide Keyed, Inc, Pow256, Value;
    Positive(c);
    if n == 0 {
      assert (h + t)[..|h|] == h;
    } else {
      IncTail(h, t);
      IncCounts(t);
      SmallMod(Value(t) + 1, Pow256(|t|));
      assert (h + Inc(t))[..|h|] == h;
      if n >= c.size {
        CounterTail(c, h, Inc(t), n - c.size);
      }
    }
  }

  lemma {:induction false} BlocksBound(c: Cipher, n: nat)
    requires c.size == 16
    ensures Ctr.Blocks(c, n) <= n / 16 + 1
    decreases n
  {
    if n >= 16 {
      BlocksBound(c, n - 16);
    }
  }

  lemma {:induction false} FirstByte(c: Cipher, b: byte, t: seq<byte>, n: nat)
    requires 1 + |t| == c.size && Ctr.Blocks(c, n) < Pow256(|t|) && b < 254
    ensures Ctr.Counter(c, [b] + t, n)[0] == if Value(t) + Ctr.Blocks(c, n) < Pow256(|t|) then b else b + 1
    decreases n
  {
    hide *;
    var k := OneStep(c, [b] + t, n);
    Wraps(t);
    if n > 0 {
      if Value(t) + 1 < Pow256(|t|) {
        IncTail([b], t);
        FirstByte(c, b, Inc(t), k);
      } else {
        IncCarries([b], t);
        IncOne(b);
        CounterTail(c, [b + 1], Inc(t), k);
        assert Ctr.Counter(c, [b + 1] + Inc(t), k)[..1][0] == b + 1;
      }
    }
  }

  lemma OneStep(c: Cipher, v: seq<byte>, n: nat) returns (k: nat)
    requires |v| == c.size
    ensures n == 0 ==> Ctr.Counter(c, v, n) == v && Ctr.Blocks(c, n) == 0
    ensures n > 0 ==> k < n && Ctr.Blocks(c, n) == 1 + Ctr.Blocks(c, k)
    ensures n > 0 ==> Ctr.Counter(c, v, n) == Ctr.Counter(c, Inc(v), k)
  {
    Positive(c);
    k := if n < c.size then 0 else n - c.size;
  }

  lemma IncOne(b: byte)
    requires b != 0xff
    ensures Inc([b]) == [b + 1]
  {
    IncLast([], b);
  }

  lemma Wraps(t: seq<byte>)
    ensures Value(t) + 1 <= Pow256(|t|)
    ensures Value(Inc(t)) == if Value(t) + 1 == Pow256(|t|) then 0 else Value(t) + 1
  {
    ValueBound(t);
    IncAdds(t);
  }

  /** Even where the counter does run into the nonce, the first byte stays a small number. */
  lemma FirstByteStays(c: Cipher, iv: seq<byte>, n: nat)
    requires |iv| == 16 == c.size && LegalIv(iv) && n <= 0x1_0000_0010
    ensures Ctr.Counter(c, Start(iv), n)[0] < 15
  {
    hide *;
    BlocksFit(c, n);
    FirstOfStart(iv);
    FirstByte(c, iv[0], Start(iv)[1..], n);
  }

  lemma FirstOfStart(iv: seq<byte>)
    requires |iv| == 16 && LegalIv(iv)
    ensures Start(iv) == [iv[0]] + Start(iv)[1..] && 1 <= iv[0] <= 7
  {
  }

  lemma BlocksFit(c: Cipher, n: nat)
    requires c.size == 16 && n <= 0x1_0000_0010
    ensures Ctr.Blocks(c, n) < Pow256(15)
  {
    BlocksBound(c, n);
    Powers();
    assert Pow256(5) == 256 * Pow256(4);
    PowersGrow(5, 15);
    hide Keyed, Ctr.Blocks, Pow256;
  }

  // ----- sealing and opening -----

  /** crypto_ccm_encrypt: the cipher text with the tag behind it (section 2.3 of RFC 3610). */
  function Sealed(c: Cipher, m: nat, iv: seq<byte>, assoc: seq<byte>, plain: seq<byte>): (r: Result<seq<byte>>)
    requires |iv| == 16 == c.size && TagSize(m) && InRange(assoc) && InRange(plain)
  {
    if !LegalIv(iv) then Err(EINVAL)
    else
      match Tag(c, m, iv, assoc, plain)
      case Err(e) => Err(e)
      case Ok(t) =>
        var v := Start(iv);
        Ok(Ctr.Crypted(c, Inc(v), plain) + Xor(t[..m], Enc(c, v)[..m]))
  }

  /** crypto_ccm_decrypt: the MAC is formatted with the iv that counter mode has left behind. */
  function Opened(c: Cipher, m: nat, iv: seq<byte>, assoc: seq<byte>, x: seq<byte>): (r: Result<seq<byte>>)
    requires |iv| == 16 == c.size && TagSize(m) && InRange(assoc) && InRange(x)
  {
    if |x| < m || !LegalIv(iv) then Err(EINVAL)
    else
      var n := |x| - m;
      var v := Start(iv);
      var plain := Ctr.Crypted(c, Inc(v), x[..n]);
      FirstByteStays(c, iv, n + 16);
      match Tag(c, m, Ctr.Counter(c, v, n + 16), assoc, plain)
      case Err(e) => Err(e)
      case Ok(t) => if Xor(x[n..], Enc(c, v)[..m]) == t[..m] then Ok(plain) else Err(EBADMSG)
  }

  // ----- the nonce -----

  /** How many bytes of the iv are the counter. */
  function Field(iv: seq<byte>): (l: nat)
    requires |iv| == 16 && LegalIv(iv)
    ensures 2 <= l <= 8
  {
    iv[0] as nat + 1
  }

  /** The lengths that set_msg_len accepts. */
  predicate Fits(iv: seq<byte>, n: nat)
    requires |iv| == 16 && LegalIv(iv)
  {
    Field(iv) >= 4 || n <= Pow256(Field(iv))
  }

  /** The counter does not run into the nonce while a message that fits is encrypted. */
  lemma NonceStays(c: Cipher, iv: seq<byte>, n: Length)
    requires |iv| == 16 == c.size && LegalIv(iv) && Fits(iv, n)
    ensures Ctr.Counter(c, Start(iv), n + 16)[..16 - Field(iv)] == iv[..16 - Field(iv)]
  {
    hide Keyed, Pow256;
    var l := Field(iv);
    BlocksBound(c, n + 16);
    Powers();
    PowersGrow(2, l);
    if l >= 4 {
      PowersGrow(4, l);
    }
    ValueZeros(l, []);
    assert Zeros(l) + [] == Zeros(l);
    CounterTail(c, iv[..16 - l], Zeros(l), n + 16);
  }

  /** The tag depends on the nonce only, not on the counter behind it. */
  lemma TagOfNonce(c: Cipher, m: nat, iv: seq<byte>, iw: seq<byte>, assoc: seq<byte>, plain: seq<byte>)
    requires |iv| == |iw| == 16 == c.size && TagSize(m) && LegalIv(iv) && InRange(assoc) && InRange(plain)
    requires iv[..16 - Field(iv)] == iw[..16 - Field(iv)]
    ensures iw[0] == iv[0] && Tag(c, m, iv, assoc, plain) == Tag(c, m, iw, assoc, plain)
  {
    hide Keyed, Mac, SetMsgLen, Fill, Flags, FormatAdata;
    var l := Field(iv);
    assert iv[0] == iv[..16 - l][0] == iw[0];
    assert iv[1..16 - l] == iv[..16 - l][1..] == iw[1..16 - l];
  }
}
