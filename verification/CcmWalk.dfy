/** The working state of CCM and the loops that fill it, crypto/ccm.c, in place. */
module CcmWalk {
  import opened Lists
  import opened Bytes
  import opened BlockCipher
  import opened Cbc
  import opened Ccm
  import opened CcmSeal
  import opened CcmTwoWays
  import CbcWalk
  import Ctr

  // ----- absorbing data -----

  lemma MacStep(c: Cipher, o: seq<byte>, b: seq<byte>, s: seq<byte>)
    requires |o| == |b| == c.size
    ensures Mac(c, o, b + s) == Mac(c, Enc(c, Xor(o, b)), s)
  {
    hide *;
    XorCommutes(o, b);
    var e := Enc(c, Xor(b, o));
    Cons(c, o, b, s);
    Cons(c, o, e, Encrypted(c, e, s));
    MacIs(c, o, b + s);
    MacIs(c, e, s);
  }

  lemma MacIs(c: Cipher, o: seq<byte>, s: seq<byte>)
    requires |o| == c.size
    ensures Mac(c, o, s) == Chain(c, o, Encrypted(c, o, s))
    ensures |s| < c.size ==> Mac(c, o, s) == o
  {
    hide Keyed, Chain, Encrypted;
    if |s| < c.size {
      Cbc.Short(c, o, s);
      Cbc.Short(c, o, []);
    }
  }

  /** The bytes of `s` that do not fill a block. */
  function Rest(c: Cipher, s: seq<byte>): (r: seq<byte>)
    ensures |r| < c.size
  {
    s[Whole(c, |s|)..]
  }

  lemma RestStep(c: Cipher, b: seq<byte>, s: seq<byte>)
    requires |b| == c.size
    ensures Rest(c, b + s) == Rest(c, s)
  {
    hide Keyed;
    Positive(c);
    assert Whole(c, |b + s|) == c.size + Whole(c, |s|);
  }

  /** From `o0`, the bytes `s` have been absorbed down to `rest`, leaving `o`. */
  ghost predicate Absorbed(c: Cipher, o0: seq<byte>, s: seq<byte>, o: seq<byte>, rest: seq<byte>)
    requires |o0| == |o| == c.size
  {
    Mac(c, o0, s) == Mac(c, o, rest) && Rest(c, s) == Rest(c, rest)
  }

  lemma AbsorbedNext(c: Cipher, o0: seq<byte>, s: seq<byte>, o: seq<byte>, b: seq<byte>, rest: seq<byte>)
    requires |o0| == |o| == |b| == c.size && Absorbed(c, o0, s, o, b + rest)
    ensures Absorbed(c, o0, s, Enc(c, Xor(o, b)), rest)
  {
    hide Keyed, Mac, Enc, Xor, Rest;
    MacStep(c, o, b, rest);
    RestStep(c, b, rest);
  }

  lemma AbsorbedEnd(c: Cipher, o0: seq<byte>, s: seq<byte>, o: seq<byte>, rest: seq<byte>)
    requires |o0| == |o| == c.size > |rest| && Absorbed(c, o0, s, o, rest)
    ensures Mac(c, o0, s) == o && Rest(c, s) == rest
  {
    hide Keyed, Mac;
    MacIs(c, o, rest);
    assert rest[0..] == rest;
  }

  /** Data may be cut anywhere: what the first piece leaves over goes before the second. */
  lemma {:induction false} MacSplit(c: Cipher, o: seq<byte>, a: seq<byte>, b: seq<byte>)
    requires |o| == c.size
    ensures Mac(c, o, a + b) == Mac(c, Mac(c, o, a), Rest(c, a) + b)
    ensures Rest(c, a + b) == Rest(c, Rest(c, a) + b)
    decreases |a|
  {
    hide *;
    Positive(c);
    if |a| < c.size {
      MacIs(c, o, a);
      RestShort(c, a);
    } else {
      var h, t := a[..c.size], a[c.size..];
      assert a == h + t && a + b == h + (t + b);
      MacStep(c, o, h, t);
      MacStep(c, o, h, t + b);
      RestStep(c, h, t);
      RestStep(c, h, t + b);
      MacSplit(c, Enc(c, Xor(o, h)), t, b);
    }
  }

  lemma RestShort(c: Cipher, s: seq<byte>)
    ensures |s| < c.size ==> Rest(c, s) == s
    ensures |Rest(c, s)| < c.size
  {
    assert s[0..] == s;
  }

  lemma AbsorbedBegin(c: Cipher, o0: seq<byte>, s: seq<byte>)
    requires |o0| == c.size
    ensures Absorbed(c, o0, s, o0, s)
  {
  }

  /** Padding finishes the block that the last piece left open. */
  lemma MacFill(c: Cipher, o: seq<byte>, s: seq<byte>)
    requires |o| == c.size == 16
    ensures
      var r := Rest(c, s);
      Mac(c, o, Fill(s)) ==
        if r == [] then Mac(c, o, s) else Enc(c, Xor(Mac(c, o, s), r + Zeros(16 - |r|)))
    ensures Rest(c, Fill(s)) == []
  {
    hide *;
    RestLength(c, s);
    RestLength(c, Fill(s));
    var r := Rest(c, s);
    var pad := Filling(s);
    assert Fill(s)[|s|..] == pad;
    FillIs(s);
    if r == [] {
      assert Fill(s) == s + [] == s;
    } else {
      MacSplit(c, o, s, pad);
      var o1 := Mac(c, o, s);
      assert r + pad == (r + pad) + [];
      MacStep(c, o1, r + pad, []);
      MacIs(c, Enc(c, Xor(o1, r + pad)), []);
    }
  }

  lemma FillIs(s: seq<byte>)
    ensures Fill(s) == s + Zeros((16 - |s| % 16) % 16)
  {
  }

  lemma RestLength(c: Cipher, s: seq<byte>)
    requires c.size == 16
    ensures |Rest(c, s)| == |s| % 16
  {
    CbcWalk.WholeIsRounding(c, |s|);
  }

  lemma NoPieces(pieces: seq<seq<byte>>, p: seq<byte>)
    ensures p == p + Flatten(pieces[..0])
  {
  }

  lemma OnePiece(pieces: seq<seq<byte>>, i: nat)
    requires i < |pieces|
    ensures Flatten(pieces[..i + 1]) == Flatten(pieces[..i]) + pieces[i]
  {
    assert pieces[..i + 1] == pieces[..i] + [pieces[i]];
    FlattenAppend(pieces[..i], [pieces[i]]);
    assert Flatten([pieces[i]]) == pieces[i] + Flatten([]);
  }

  /** The length of a scatterlist. */
  method Total(pieces: seq<seq<byte>>) returns (n: nat)
    ensures n == |Flatten(pieces)|
  {
    n := 0;
    for i := 0 to |pieces|
      invariant n == |Flatten(pieces[..i])|
    {
      OnePiece(pieces, i);
      n := n + |pieces[i]|;
    }
    assert pieces[..|pieces|] == pieces;
  }

  /** The tag is the MAC of the message, from the MAC of the associated data, from the encryption
      of the first block. */
  lemma TagParts(c: Cipher, m: nat, iv: seq<byte>, a: seq<byte>, p: seq<byte>, first: seq<byte>)
    requires c.size == |iv| == 16 && TagSize(m) && iv[0] < 15 && InRange(a) && InRange(p)
    requires FormatInput(iv, m, |a|, |p|) == Ok(first)
    ensures
      var o := Enc(c, first);
      var o1 := if a == [] then o else Mac(c, o, Fill(FormatAdata(|a|) + a));
      Tag(c, m, iv, a, p) == Ok(Mac(c, o1, Fill(p)))
  {
    hide Keyed, Mac, Rest, Enc, Xor, Fill, FormatAdata, FormatInput, Zeros;
    var x, y := if a == [] then [] else Fill(FormatAdata(|a|) + a), Fill(p);
    XorZeros(first);
    XorCommutes(first, Zeros(16));
    assert first + x + y == first + (x + y);
    MacStep(c, Zeros(16), first, x + y);
    var o := Enc(c, first);
    MacSplit(c, o, x, y);
    if a == [] {
      MacIs(c, o, []);
      RestShort(c, []);
    } else {
      MacFill(c, o, FormatAdata(|a|) + a);
    }
    assert [] + y == y;
  }

  /** The length handed to counter mode, with the block of the tag in front, does not wrap. */
  predicate HasRoom(n: nat) { n + 16 < 0x1_0000_0000 }

  // ----- the request's private state -----

  /** crypto_ccm_req_priv_ctx */
  class Context {
    const odata: array<byte>
    const idata: array<byte>
    var ilen: nat

    ghost predicate Valid()
      reads this
    {
      odata.Length == idata.Length == 16 && odata != idata && ilen < 16
    }

    constructor ()
      ensures Valid() && fresh(odata) && fresh(idata)
    {
      odata, idata := new byte[16](_ => 0), new byte[16](_ => 0);
      ilen := 0;
    }

    /** crypto_xor into odata, then encrypt it. */
    method Mix(c: Cipher, b: seq<byte>)
      requires Valid() && c.size == |b| == 16
      modifies odata
      ensures odata[..] == Enc(c, Xor(old(odata[..]), b))
    {
      hide Keyed, Enc, Xor;
      XorAll(odata, b);
      WriteAll(odata, Enc(c, odata[..]));
    }

    /** memcpy behind what idata already holds */
    method Append(t: seq<byte>)
      requires Valid() && ilen + |t| <= 16
      modifies idata
      ensures idata[..ilen + |t|] == old(idata[..ilen]) + t
    {
      Write(idata, ilen, t);
    }

    /** compute_mac */
    method ComputeMac(c: Cipher, data: seq<byte>)
      requires Valid() && c.size == 16
      modifies this`ilen, odata, idata
      ensures Valid()
      ensures
        var s := old(idata[..ilen]) + data;
        odata[..] == Mac(c, old(odata[..]), s) && idata[..ilen] == Rest(c, s)
    {
      hide Keyed, Mac, Rest, Absorbed, Enc, Xor, Splice;
      ghost var o0, s := odata[..], idata[..ilen] + data;
      AbsorbedBegin(c, o0, s);
      var getlen := 16 - ilen;
      if |data| >= getlen {
        Append(data[..getlen]);
        assert idata[..16] == idata[..];
        assert s == idata[..] + data[getlen..];
        AbsorbedNext(c, o0, s, odata[..], idata[..], data[getlen..]);
        Mix(c, idata[..]);
        ilen := 0;
        var rest := AbsorbBlocks(c, data[getlen..], o0, s);
        Append(rest);
        ilen := |rest|;
      } else {
        AbsorbedEnd(c, o0, s, odata[..], s);
        Append(data);
        ilen := ilen + |data|;
      }
    }

    /** Its loop over the whole blocks of `data`, of which the rest is returned. */
    method AbsorbBlocks(c: Cipher, data: seq<byte>, ghost o0: seq<byte>, ghost s: seq<byte>) returns (rest: seq<byte>)
      requires Valid() && c.size == |o0| == 16 && Absorbed(c, o0, s, odata[..], data)
      modifies odata
      ensures |rest| < 16 && odata[..] == Mac(c, o0, s) && rest == Rest(c, s)
    {
      hide Keyed, Mac, Rest, Absorbed, Enc, Xor;
      rest := data;
      while |rest| >= 16
        invariant Absorbed(c, o0, s, odata[..], rest)
      {
        assert rest == rest[..16] + rest[16..];
        AbsorbedNext(c, o0, s, odata[..], rest[..16], rest[16..]);
        Mix(c, rest[..16]);
        rest := rest[16..];
      }
      AbsorbedEnd(c, o0, s, odata[..], rest);
    }

    /** get_data_to_compute: the data come in pieces of any lengths. */
    method GetData(c: Cipher, pieces: seq<seq<byte>>)
      requires Valid() && c.size == 16
      modifies this`ilen, odata, idata
      ensures Valid() && ilen == 0
      ensures odata[..] == Mac(c, old(odata[..]), Fill(old(idata[..ilen]) + Flatten(pieces)))
    {
      hide Keyed, Mac, Rest, Enc, Xor, Splice, Flatten, Fill;
      ghost var o0, p := odata[..], idata[..ilen];
      ghost var s := p;
      RestShort(c, p);
      MacIs(c, o0, p);
      NoPieces(pieces, p);
      for i := 0 to |pieces|
        invariant Valid() && |o0| == 16
        invariant s == p + Flatten(pieces[..i])
        invariant odata[..] == Mac(c, o0, s) && idata[..ilen] == Rest(c, s)
      {
        MacSplit(c, o0, s, pieces[i]);
        OnePiece(pieces, i);
        assert p + (Flatten(pieces[..i]) + pieces[i]) == s + pieces[i];
        ComputeMac(c, pieces[i]);
        s := s + pieces[i];
      }
      assert pieces[..|pieces|] == pieces;
      MacFill(c, o0, s);
      if ilen > 0 {
        var padlen := 16 - ilen;
        Append(Zeros(padlen));
        assert idata[..16] == idata[..];
        Mix(c, idata[..]);
        ilen := 0;
      }
    }

    /** crypto_ccm_auth: `pieces` are those of the associated data, then those of the message. */
    method Auth(c: Cipher, m: nat, iv: seq<byte>, assoc: seq<seq<byte>>, plain: seq<seq<byte>>) returns (r: Result<()>)
      requires Valid() && c.size == |iv| == 16 && TagSize(m) && iv[0] < 15
      requires InRange(Flatten(assoc)) && InRange(Flatten(plain))
      modifies this`ilen, odata, idata
      ensures Valid()
      ensures
        var t := Tag(c, m, iv, Flatten(assoc), Flatten(plain));
        match r case Err(e) => t == Err(e) case Ok(_) => t == Ok(odata[..])
    {
      hide Keyed, Mac, Rest, Enc, Xor, Splice, Flatten, Fill, FormatAdata, FormatInput;
      ghost var a, p := Flatten(assoc), Flatten(plain);
      var assoclen := Total(assoc);
      var cryptlen := Total(plain);
      match FormatInput(iv, m, assoclen, cryptlen) {
        case Err(e) =>
          r := Err(e);
        case Ok(first) =>
          TagParts(c, m, iv, a, p, first);
          WriteAll(odata, Enc(c, first));
          if assoclen > 0 {
            ilen := 0;
            var header := FormatAdata(assoclen);
            Append(header);
            ilen := |header|;
            assert idata[..ilen] == header;
            GetData(c, assoc);
          } else {
            ilen := 0;
          }
          assert idata[..ilen] + p == p;
          GetData(c, plain);
          r := Ok(());
      }
    }
  
    /** crypto_ccm_encrypt; the tag is encrypted in one run with the message behind it. */
    method Encrypt(c: Cipher, m: nat, iv: array<byte>, assoc: seq<seq<byte>>, src: seq<seq<byte>>,
                   walk: seq<CbcWalk.Piece>)
      returns (r: Result<seq<byte>>)
      requires Valid() && c.size == iv.Length == 16 && TagSize(m) && iv != odata && iv != idata
      requires InRange(Flatten(assoc)) && InRange(Flatten(src)) && HasRoom(|Flatten(src)|)
      modifies this`ilen, odata, idata, iv
      ensures Valid() && r == Sealed(c, m, old(iv[..]), Flatten(assoc), Flatten(src))
    {
      hide *;
      ghost var iv0, a, p := iv[..], Flatten(assoc), Flatten(src);
      if !LegalIv(iv[..]) {
        Illegal(c, m, iv0, a, p);
        return Err(EINVAL);
      }
      LegalIsSmall(iv0, m);
      SealedIs(c, m, iv0, a, p);
      var done := Auth(c, m, iv[..], assoc, src);
      if done.Err? {
        return Err(done.error);
      }
      var message := Gather(src);
      var x := Seal(c, m, iv, message, walk);
      r := Ok(x);
    }

    /** The second half: the tag stands in odata. */
    method Seal(c: Cipher, m: nat, iv: array<byte>, message: seq<byte>, walk: seq<CbcWalk.Piece>) returns (x: seq<byte>)
      requires Valid() && c.size == iv.Length == 16 && m <= 16 && iv != odata && iv != idata && LegalIv(iv[..])
      modifies odata, iv
      ensures
        var v := Start(old(iv[..]));
        x == Ctr.Crypted(c, Inc(v), message) + Xor(old(odata[..])[..m], Enc(c, v)[..m])
    {
      hide Keyed, Enc, Inc, Xor, Splice, Start, LegalIv;
      ClearCounter(iv);
      XorPrefix(odata[..], Enc(c, iv[..]), m);
      var body := CryptTogether(c, iv, odata, message, walk);
      x := body + odata[..m];
    }

    /** crypto_ccm_decrypt; `pieces` are the lengths of the pieces in which the plain text lies. */
    method Decrypt(c: Cipher, m: nat, iv: array<byte>, assoc: seq<seq<byte>>, x: seq<byte>, authTag: array<byte>,
                   pieces: seq<nat>, walk: seq<CbcWalk.Piece>) returns (r: Result<seq<byte>>)
      requires Valid() && c.size == iv.Length == authTag.Length == 16 && TagSize(m)
      requires iv != odata && iv != idata && authTag != iv && authTag != odata && authTag != idata
      requires InRange(Flatten(assoc)) && InRange(x) && (|x| >= m ==> HasRoom(|x| - m))
      modifies this`ilen, odata, idata, iv, authTag
      ensures Valid() && r == Opened(c, m, old(iv[..]), Flatten(assoc), x)
    {
      hide *;
      ghost var iv0, a := iv[..], Flatten(assoc);
      if |x| < m || !LegalIv(iv[..]) {
        Unopened(c, m, iv0, a, x);
        return Err(EINVAL);
      }
      var n := |x| - m;
      LegalIsSmall(iv0, m);
      OpenedIs(c, m, iv0, a, x, Ctr.Counter(c, Start(iv0), n + 16));
      var plain := Unseal(c, m, iv, x, authTag, walk);
      CutFlat(plain, pieces);
      Shorter(x, plain);
      var done := Auth(c, m, iv[..], assoc, Cut(plain, pieces));
      if done.Err? {
        return Err(done.error);
      }
      r := if authTag[..m] == odata[..m] then Ok(plain) else Err(EBADMSG);
    }

    /** The first half: the tag that was sent goes into authTag. */
    method Unseal(c: Cipher, m: nat, iv: array<byte>, x: seq<byte>, authTag: array<byte>, walk: seq<CbcWalk.Piece>)
      returns (plain: seq<byte>)
      requires c.size == iv.Length == authTag.Length == 16 && m <= 16 && m <= |x| && authTag != iv && LegalIv(iv[..])
      modifies iv, authTag
      ensures
        var v := Start(old(iv[..]));
        var n := |x| - m;
        && plain == Ctr.Crypted(c, Inc(v), x[..n])
        && authTag[..m] == Xor(x[n..], Enc(c, v)[..m])
        && iv[..] == Ctr.Counter(c, v, n + 16)
    {
      hide Keyed, Enc, Inc, Xor, Splice, Start, LegalIv;
      var n := |x| - m;
      Write(authTag, 0, x[n..]);
      CbcWalk.SpliceFront(old(authTag[..]), x[n..]);
      assert authTag[..m] == x[n..];
      ClearCounter(iv);
      XorPrefix(authTag[..], Enc(c, iv[..]), m);
      plain := CryptTogether(c, iv, authTag, x[..n], walk);
    }
  }

  /** memset of the counter field */
  method ClearCounter(iv: array<byte>)
    requires iv.Length == 16 && LegalIv(iv[..])
    modifies iv
    ensures iv[..] == Start(old(iv[..]))
  {
    var n := 15 - iv[0] as nat;
    Write(iv, n, Zeros(16 - n));
  }

  method Gather(pieces: seq<seq<byte>>) returns (s: seq<byte>)
    ensures s == Flatten(pieces)
  {
    s := [];
    for i := 0 to |pieces|
      invariant s == Flatten(pieces[..i])
    {
      OnePiece(pieces, i);
      s := s + pieces[i];
    }
    assert pieces[..|pieces|] == pieces;
  }

  /** `s` in pieces of the given lengths, as far as it goes. */
  function Cut(s: seq<byte>, lengths: seq<nat>): seq<seq<byte>>
    decreases |lengths|
  {
    if lengths == [] || lengths[0] > |s| then [s]
    else [s[..lengths[0]]] + Cut(s[lengths[0]..], lengths[1..])
  }

  lemma {:induction false} CutFlat(s: seq<byte>, lengths: seq<nat>)
    ensures Flatten(Cut(s, lengths)) == s
    decreases |lengths|
  {
    if lengths == [] || lengths[0] > |s| {
      assert Flatten([s]) == s + Flatten([]);
    } else {
      var n := lengths[0];
      CutFlat(s[n..], lengths[1..]);
      FlattenAppend([s[..n]], Cut(s[n..], lengths[1..]));
      assert Flatten([s[..n]]) == s[..n] + Flatten([]);
    }
  }

  lemma Illegal(c: Cipher, m: nat, iv: seq<byte>, assoc: seq<byte>, p: seq<byte>)
    requires |iv| == 16 == c.size && TagSize(m) && InRange(assoc) && InRange(p) && !LegalIv(iv)
    ensures Sealed(c, m, iv, assoc, p) == Err(EINVAL)
  {
  }

  lemma LegalIsSmall(iv: seq<byte>, m: nat)
    requires |iv| == 16 && LegalIv(iv) && TagSize(m)
    ensures iv[0] < 15 && m <= 16
  {
  }

  lemma Shorter(x: seq<byte>, p: seq<byte>)
    requires InRange(x) && |p| <= |x|
    ensures InRange(p)
  {
  }

  lemma Unopened(c: Cipher, m: nat, iv: seq<byte>, assoc: seq<byte>, x: seq<byte>)
    requires |iv| == 16 == c.size && TagSize(m) && InRange(assoc) && InRange(x) && (|x| < m || !LegalIv(iv))
    ensures Opened(c, m, iv, assoc, x) == Err(EINVAL)
  {
  }

  /** The block in front takes the first key block. */
  lemma TogetherApart(c: Cipher, v: seq<byte>, t: seq<byte>, p: seq<byte>)
    requires |v| == |t| == c.size == 16
    ensures
      var y := Ctr.Crypted(c, v, t + p);
      y[..16] == Xor(t, Enc(c, v)) && y[16..] == Ctr.Crypted(c, Inc(v), p)
  {
    hide *;
    Ctr.Step(c, v, t, p);
  }

  lemma XorPrefix(t: seq<byte>, e: seq<byte>, m: nat)
    requires m <= |t| == |e|
    ensures Xor(t, e)[..m] == Xor(t[..m], e[..m])
  {
  }

  /** Counter mode over a block and the message behind it. */
  method CryptTogether(c: Cipher, iv: array<byte>, block: array<byte>, message: seq<byte>, walk: seq<CbcWalk.Piece>)
    returns (body: seq<byte>)
    requires c.size == iv.Length == block.Length == 16 && iv != block
    modifies iv, block
    ensures block[..] == Xor(old(block[..]), Enc(c, old(iv[..])))
    ensures body == Ctr.Crypted(c, Inc(old(iv[..])), message)
    ensures iv[..] == Ctr.Counter(c, old(iv[..]), |message| + 16)
  {
    hide *;
    TogetherApart(c, iv[..], block[..], message);
    assert |block[..] + message| == |message| + 16;
    var y := Ctr.Crypt(c, iv, block[..] + message, walk);
    WriteAll(block, y[..16]);
    body := y[16..];
  }
}
