/** When exactly decryption with CCM undoes encryption. */
module CcmTheorems {
  import opened Arithmetic
  import opened Bytes
  import opened BlockCipher
  import opened Ccm
  import opened CcmSeal
  import opened CcmTwoWays
  import Ctr

  /** For messages that fit, decryption accepts exactly what encryption produces, and returns what
      was encrypted. */
  lemma OpensWhatWasSealed(c: Cipher, m: nat, iv: seq<byte>, assoc: seq<byte>, x: seq<byte>, p: seq<byte>)
    requires |iv| == 16 == c.size && TagSize(m) && InRange(assoc) && InRange(x) && InRange(p)
    requires LegalIv(iv) && |x| >= m ==> Fits(iv, |x| - m)
    ensures Opened(c, m, iv, assoc, x) == Ok(p) <==> Sealed(c, m, iv, assoc, p) == Ok(x)
  {
    if LegalIv(iv) && |x| >= m {
      FittingHasSameTag(c, m, iv, assoc, x);
      TwoWays(c, m, iv, assoc, x, p);
    } else if Sealed(c, m, iv, assoc, p).Ok? {
      SealedLength(c, m, iv, assoc, p);
    }
  }

  // ----- messages that do not fit -----

  /** The counter runs right through the nonce and changes the first byte of the iv, and the field
      that this byte then stands for takes the length. */
  predicate Escapes(c: Cipher, iv: seq<byte>, n: Length)
    requires |iv| == 16 == c.size && LegalIv(iv)
  {
    && !Fits(iv, n)
    && Value(Start(iv)[1..]) + Ctr.Blocks(c, n + 16) >= Pow256(15)
    && (Field(iv) == 2 ==> n <= Pow256(3))
  }

  lemma FirstByteExact(c: Cipher, iv: seq<byte>, n: Length)
    requires |iv| == 16 == c.size && LegalIv(iv)
    ensures Ctr.Counter(c, Start(iv), n + 16)[0] ==
      if Value(Start(iv)[1..]) + Ctr.Blocks(c, n + 16) < Pow256(15) then iv[0] else iv[0] + 1
  {
    hide *;
    BlocksFit(c, n + 16);
    FirstOfStart(iv);
    FirstByte(c, iv[0], Start(iv)[1..], n + 16);
  }

  lemma TagRefuses(c: Cipher, m: nat, iv: seq<byte>, assoc: seq<byte>, p: seq<byte>)
    requires |iv| == 16 == c.size && TagSize(m) && InRange(assoc) && InRange(p) && 1 <= iv[0] < 15
    ensures
      var l := iv[0] as nat + 1;
      Tag(c, m, iv, assoc, p) == Err(EOVERFLOW) <==> l < 4 && |p| > Pow256(l)
    ensures Tag(c, m, iv, assoc, p).Err? ==> Tag(c, m, iv, assoc, p).error == EOVERFLOW
  {
    hide Keyed, Mac, Formatted, Pow256;
    FormattedRefuses(m, iv, assoc, p);
  }

  lemma FormattedRefuses(m: nat, iv: seq<byte>, assoc: seq<byte>, p: seq<byte>)
    requires |iv| == 16 && TagSize(m) && InRange(assoc) && InRange(p) && 1 <= iv[0] < 15
    ensures
      var l := iv[0] as nat + 1;
      Formatted(iv, m, assoc, p) == Err(EOVERFLOW) <==> l < 4 && |p| > Pow256(l)
    ensures Formatted(iv, m, assoc, p).Err? ==> Formatted(iv, m, assoc, p).error == EOVERFLOW
  {
    var l := iv[0] as nat + 1;
    assert 2 <= l;
    FormattedIs(iv, m, assoc, p);
    SetRefuses(l, |p|);
    hide *;
    MsgLenExact(l, |p|);
  }

  lemma SetRefuses(l: nat, n: Length)
    ensures SetMsgLen(l, n).Err? ==> SetMsgLen(l, n).error == EOVERFLOW
  {
    hide Big, Pow256;
  }

  lemma FormattedIs(iv: seq<byte>, m: nat, assoc: seq<byte>, p: seq<byte>)
    requires |iv| == 16 && TagSize(m) && InRange(assoc) && InRange(p) && iv[0] < 15
    ensures
      var s := SetMsgLen(iv[0] as nat + 1, |p|);
      && Formatted(iv, m, assoc, p).Err? == s.Err?
      && (s.Err? ==> Formatted(iv, m, assoc, p).error == s.error)
  {
    hide Fill, Flags, FormatAdata, SetMsgLen;
  }

  /** Encryption refuses a message that does not fit. */
  lemma SealRefuses(c: Cipher, m: nat, iv: seq<byte>, assoc: seq<byte>, p: seq<byte>)
    requires |iv| == 16 == c.size && TagSize(m) && InRange(assoc) && InRange(p) && LegalIv(iv) && !Fits(iv, |p|)
    ensures Sealed(c, m, iv, assoc, p) == Err(EOVERFLOW)
  {
    hide Keyed, Tag, Start, Enc, Inc, Xor;
    TagRefuses(c, m, iv, assoc, p);
  }

  /** Decryption refuses it too, unless the counter escapes. */
  lemma OpenRefuses(c: Cipher, m: nat, iv: seq<byte>, assoc: seq<byte>, x: seq<byte>)
    requires |iv| == 16 == c.size && TagSize(m) && InRange(assoc) && InRange(x) && LegalIv(iv) && |x| >= m
    requires !Fits(iv, |x| - m) && !Escapes(c, iv, |x| - m)
    ensures Opened(c, m, iv, assoc, x) == Err(EOVERFLOW)
  {
    hide Keyed, Tag, Start, Enc, Inc, Xor, Opened, Value, Pow256;
    var n := |x| - m;
    var iw := Ctr.Counter(c, Start(iv), n + 16);
    FirstByteExact(c, iv, n);
    OpenedIs(c, m, iv, assoc, x, iw);
    TagRefuses(c, m, iw, assoc, Ctr.Crypted(c, Inc(Start(iv)), x[..n]));
  }

  /** When it does, some tag makes decryption accept what no message is encrypted to. */
  lemma OpenEscapes(c: Cipher, m: nat, iv: seq<byte>, assoc: seq<byte>, body: seq<byte>) returns (tag: seq<byte>)
    requires |iv| == 16 == c.size && TagSize(m) && InRange(assoc) && |body| + 16 < 0x1_0000_0000 && LegalIv(iv)
    requires Escapes(c, iv, |body|)
    ensures |tag| == m && Opened(c, m, iv, assoc, body + tag) == Ok(Ctr.Crypted(c, Inc(Start(iv)), body))
  {
    hide Keyed, Tag, Start, Enc, Inc, Xor, Opened, Value, Pow256;
    var n, v := |body|, Start(iv);
    var iw := Ctr.Counter(c, v, n + 16);
    FirstByteExact(c, iv, n);
    var q := Ctr.Crypted(c, Inc(v), body);
    TagRefuses(c, m, iw, assoc, q);
    var t := Tag(c, m, iw, assoc, q).value[..m];
    var e := Enc(c, v)[..m];
    tag := Xor(t, e);
    assert (body + tag)[..n] == body && (body + tag)[n..] == tag;
    OpenedIs(c, m, iv, assoc, body + tag, iw);
    XorMoves(tag, t, e);
  }

  function Ones(n: nat): seq<byte> { if n == 0 then [] else Ones(n - 1) + [0xff] }

  lemma {:induction false} OnesValue(n: nat)
    ensures |Ones(n)| == n && Value(Ones(n)) + 1 == Pow256(n)
  {
    if n > 0 {
      OnesValue(n - 1);
      ValueLast(Ones(n - 1), 0xff);
    }
  }

  lemma {:induction false} BlocksAtLeast(c: Cipher, n: nat)
    requires c.size == 16
    ensures Ctr.Blocks(c, n) >= n / 16
    decreases n
  {
    if n >= 16 {
      BlocksAtLeast(c, n - 16);
    }
  }

  /** It happens: a nonce of ones, a two-byte counter and a megabyte. */
  lemma SomeEscape(c: Cipher) returns (iv: seq<byte>, n: nat)
    requires c.size == 16
    ensures |iv| == 16 && LegalIv(iv) && n == 0x10_0000 && Escapes(c, iv, n)
  {
    hide Keyed, Start, Field, LegalIv, Value, Pow256, Ones, Ctr.Blocks;
    var s := Ones(13);
    iv, n := [1] + s + [0] + [0], 0x10_0000;
    AlmostFull(13);
    StartOf(s);
    BlocksAtLeast(c, n + 16);
    Powers();
  }

  lemma AlmostFull(n: nat)
    ensures |Ones(n)| == n && Value(Ones(n) + [0] + [0]) + 0x1_0000 == Pow256(n + 2)
  {
    var s := Ones(n);
    OnesValue(n);
    ValueLast(s, 0);
    ValueLast(s + [0], 0);
    assert Pow256(n + 2) == 256 * Pow256(n + 1);
    assert Pow256(n + 1) == 256 * Pow256(n);
    hide *;
  }

  lemma StartOf(s: seq<byte>)
    requires |s| == 13
    ensures
      var iv := [1] + s + [0] + [0];
      LegalIv(iv) && Field(iv) == 2 && Start(iv)[1..] == s + [0] + [0]
  {
  }

  /** Decryption undoes encryption, and nothing else, on cipher texts with this body. */
  ghost predicate Inverts(c: Cipher, m: nat, iv: seq<byte>, assoc: seq<byte>, body: seq<byte>)
    requires |iv| == 16 == c.size && TagSize(m) && InRange(assoc) && |body| + 16 < 0x1_0000_0000
  {
    forall tag: seq<byte>, p: seq<byte> | |tag| == m && InRange(p) ::
      Opened(c, m, iv, assoc, body + tag) == Ok(p) <==> Sealed(c, m, iv, assoc, p) == Ok(body + tag)
  }

  /** Exactly when the counter stays out of the first byte of the iv or the message fits. */
  lemma InvertsExactly(c: Cipher, m: nat, iv: seq<byte>, assoc: seq<byte>, body: seq<byte>)
    requires |iv| == 16 == c.size && TagSize(m) && InRange(assoc) && |body| + 16 < 0x1_0000_0000 && LegalIv(iv)
    ensures Inverts(c, m, iv, assoc, body) <==> !Escapes(c, iv, |body|)
  {
    hide Opened, Sealed, Escapes, Fits;
    if Escapes(c, iv, |body|) {
      var tag := OpenEscapes(c, m, iv, assoc, body);
      var q := Ctr.Crypted(c, Inc(Start(iv)), body);
      Unfit(c, iv, |body|);
      SealRefuses(c, m, iv, assoc, q);
      assert !Inverts(c, m, iv, assoc, body);
    } else {
      forall tag: seq<byte>, p: seq<byte> | |tag| == m && InRange(p)
        ensures Opened(c, m, iv, assoc, body + tag) == Ok(p) <==> Sealed(c, m, iv, assoc, p) == Ok(body + tag)
      {
        StaysInverse(c, m, iv, assoc, body, tag, p);
      }
    }
  }

  lemma Unfit(c: Cipher, iv: seq<byte>, n: Length)
    requires |iv| == 16 == c.size && LegalIv(iv) && Escapes(c, iv, n)
    ensures !Fits(iv, n)
  {
  }

  lemma StaysInverse(c: Cipher, m: nat, iv: seq<byte>, assoc: seq<byte>, body: seq<byte>, tag: seq<byte>, p: seq<byte>)
    requires |iv| == 16 == c.size && TagSize(m) && InRange(assoc) && |body| + 16 < 0x1_0000_0000 && LegalIv(iv)
    requires |tag| == m && InRange(p) && !Escapes(c, iv, |body|)
    ensures Opened(c, m, iv, assoc, body + tag) == Ok(p) <==> Sealed(c, m, iv, assoc, p) == Ok(body + tag)
  {
    hide Opened, Sealed, Escapes, Fits;
    if Fits(iv, |body|) {
      OpensWhatWasSealed(c, m, iv, assoc, body + tag, p);
    } else {
      OpenRefuses(c, m, iv, assoc, body + tag);
      if Sealed(c, m, iv, assoc, p) == Ok(body + tag) {
        SealedLength(c, m, iv, assoc, p);
        SealRefuses(c, m, iv, assoc, p);
      }
    }
  }
}
