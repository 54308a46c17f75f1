/** Sealing and opening with CCM read off their definitions, and that each undoes the other as long as
    both sides compute the same tag.  Encryption formats the first block from the iv it is given,
    decryption from the counter block that counter mode has left behind; the two agree on the tag
    when the counter stays out of the nonce. */
module CcmTwoWays {
  import opened Bytes
  import opened BlockCipher
  import opened Ccm
  import opened CcmSeal
  import Ctr

  lemma XorMoves(a: seq<byte>, b: seq<byte>, e: seq<byte>)
    requires |a| == |b| == |e|
    ensures Xor(a, e) == b <==> a == Xor(b, e)
  {
    XorCancel(a, e);
    XorCancel(b, e);
  }

  lemma SealedIs(c: Cipher, m: nat, iv: seq<byte>, assoc: seq<byte>, p: seq<byte>)
    requires |iv| == 16 == c.size && TagSize(m) && InRange(assoc) && InRange(p) && LegalIv(iv)
    ensures
      var v := Start(iv);
      var t := Tag(c, m, iv, assoc, p);
      Sealed(c, m, iv, assoc, p) ==
        if t.Err? then Err(t.error)
        else Ok(Ctr.Crypted(c, Inc(v), p) + Xor(t.value[..m], Enc(c, v)[..m]))
  {
    hide Keyed, Tag, Start, Enc, Inc, Xor;
  }

  lemma OpenedIs(c: Cipher, m: nat, iv: seq<byte>, assoc: seq<byte>, x: seq<byte>, iw: seq<byte>)
    requires |iv| == 16 == c.size && TagSize(m) && InRange(assoc) && InRange(x) && LegalIv(iv) && |x| >= m
    requires iw == Ctr.Counter(c, Start(iv), |x| - m + 16)
    ensures iw[0] < 15
    ensures
      var v := Start(iv);
      var n := |x| - m;
      var q := Ctr.Crypted(c, Inc(v), x[..n]);
      var t := Tag(c, m, iw, assoc, q);
      Opened(c, m, iv, assoc, x) ==
        if t.Err? then Err(t.error)
        else if Xor(x[n..], Enc(c, v)[..m]) == t.value[..m] then Ok(q) else Err(EBADMSG)
  {
    hide Keyed, Tag, Start, Enc, Inc, Xor;
    FirstByteStays(c, iv, |x| - m + 16);
  }

  /** Both sides compute one tag for the message that decryption finds. */
  ghost predicate SameTag(c: Cipher, m: nat, iv: seq<byte>, assoc: seq<byte>, x: seq<byte>)
    requires |iv| == 16 == c.size && TagSize(m) && InRange(assoc) && InRange(x) && LegalIv(iv) && |x| >= m
  {
    FirstByteStays(c, iv, |x| - m + 16);
    var q := Ctr.Crypted(c, Inc(Start(iv)), x[..|x| - m]);
    Tag(c, m, iv, assoc, q) == Tag(c, m, Ctr.Counter(c, Start(iv), |x| - m + 16), assoc, q)
  }

  lemma OpenedWasSealed(c: Cipher, m: nat, iv: seq<byte>, assoc: seq<byte>, x: seq<byte>, p: seq<byte>)
    requires |iv| == 16 == c.size && TagSize(m) && InRange(assoc) && InRange(x) && InRange(p) && LegalIv(iv) && |x| >= m
    requires SameTag(c, m, iv, assoc, x) && Opened(c, m, iv, assoc, x) == Ok(p)
    ensures Sealed(c, m, iv, assoc, p) == Ok(x)
  {
    hide Keyed, Tag, Start, Enc, Inc, Xor, Sealed, Opened;
    var n, v := |x| - m, Start(iv);
    OpenedIs(c, m, iv, assoc, x, Ctr.Counter(c, v, n + 16));
    SealedIs(c, m, iv, assoc, p);
    Ctr.SelfInverse(c, Inc(v), x[..n]);
    XorMoves(x[n..], Tag(c, m, iv, assoc, p).value[..m], Enc(c, v)[..m]);
    assert x == x[..n] + x[n..];
  }

  lemma SealedIsOpened(c: Cipher, m: nat, iv: seq<byte>, assoc: seq<byte>, x: seq<byte>, p: seq<byte>)
    requires |iv| == 16 == c.size && TagSize(m) && InRange(assoc) && InRange(x) && InRange(p) && LegalIv(iv) && |x| >= m
    requires SameTag(c, m, iv, assoc, x) && Sealed(c, m, iv, assoc, p) == Ok(x)
    ensures Opened(c, m, iv, assoc, x) == Ok(p)
  {
    hide Keyed, Tag, Start, Enc, Inc, Xor, Sealed, Opened;
    var n, v := |x| - m, Start(iv);
    SealedIs(c, m, iv, assoc, p);
    var y, t := Ctr.Crypted(c, Inc(v), p), Tag(c, m, iv, assoc, p).value;
    assert x[..n] == y && x[n..] == Xor(t[..m], Enc(c, v)[..m]);
    Ctr.SelfInverse(c, Inc(v), p);
    OpenedIs(c, m, iv, assoc, x, Ctr.Counter(c, v, n + 16));
    XorMoves(x[n..], t[..m], Enc(c, v)[..m]);
  }

  /** What is sealed is longer than the message by the tag, and its iv is legal. */
  lemma SealedLength(c: Cipher, m: nat, iv: seq<byte>, assoc: seq<byte>, p: seq<byte>)
    requires |iv| == 16 == c.size && TagSize(m) && InRange(assoc) && InRange(p) && Sealed(c, m, iv, assoc, p).Ok?
    ensures LegalIv(iv) && |Sealed(c, m, iv, assoc, p).value| == |p| + m
  {
    hide Keyed, Tag, Start, Enc, Inc;
  }

  lemma TwoWays(c: Cipher, m: nat, iv: seq<byte>, assoc: seq<byte>, x: seq<byte>, p: seq<byte>)
    requires |iv| == 16 == c.size && TagSize(m) && InRange(assoc) && InRange(x) && InRange(p) && LegalIv(iv) && |x| >= m
    requires SameTag(c, m, iv, assoc, x)
    ensures Opened(c, m, iv, assoc, x) == Ok(p) <==> Sealed(c, m, iv, assoc, p) == Ok(x)
  {
    hide *;
    if Opened(c, m, iv, assoc, x) == Ok(p) {
      OpenedWasSealed(c, m, iv, assoc, x, p);
    }
    if Sealed(c, m, iv, assoc, p) == Ok(x) {
      SealedIsOpened(c, m, iv, assoc, x, p);
    }
  }

  lemma FittingHasSameTag(c: Cipher, m: nat, iv: seq<byte>, assoc: seq<byte>, x: seq<byte>)
    requires |iv| == 16 == c.size && TagSize(m) && InRange(assoc) && InRange(x) && LegalIv(iv) && |x| >= m
    requires Fits(iv, |x| - m)
    ensures SameTag(c, m, iv, assoc, x)
  {
    hide Keyed, Tag, Start, Inc;
    var n, v := |x| - m, Start(iv);
    NonceStays(c, iv, n);
    FirstByteStays(c, iv, n + 16);
    TagOfNonce(c, m, iv, Ctr.Counter(c, v, n + 16), assoc, Ctr.Crypted(c, Inc(v), x[..n]));
  }
}
