/** CCM is what RFC 3610 says it is. */
module CcmStandard {
  import opened Arithmetic
  import opened Bytes
  import opened BlockCipher
  import opened Ccm
  import opened CcmSeal
  import Cbc
  import CbcWalk
  import CcmWalk
  import Ctr

  // ----- the blocks of section 2.2 -----

  /** The first block: flags, nonce, and the length of the message as a big-endian number. */
  lemma FirstBlock(iv: seq<byte>, m: nat, assoclen: Length, n: Length)
    requires |iv| == 16 && LegalIv(iv) && TagSize(m) && FormatInput(iv, m, assoclen, n).Ok?
    ensures
      var f, l := FormatInput(iv, m, assoclen, n).value, iv[0] as nat + 1;
      && f[0] as nat == (if assoclen > 0 then 64 else 0) + 8 * ((m - 2) / 2) + iv[0] as nat
      && f[1..16 - l] == iv[1..16 - l]
      && (n < Pow256(l) ==> Value(f[16 - l..]) == n)
  {
    hide Flags, SetMsgLen;
    var l := iv[0] as nat + 1;
    var f := FormatInput(iv, m, assoclen, n).value;
    FlagsValue(iv[0], m, assoclen > 0);
    MsgLenExact(l, n);
    assert f[1..16 - l] == iv[1..16 - l];
    assert f[16 - l..] == SetMsgLen(l, n).value;
  }

  /** What stands before the associated data: its length, in two bytes, or in four behind 0xfffe. */
  lemma AdataHeader(a: Length)
    ensures a < 0x10000 - 0x100 ==> |FormatAdata(a)| == 2 && Value(FormatAdata(a)) == a
    ensures a >= 0x10000 - 0x100 ==>
      && |FormatAdata(a)| == 6 && FormatAdata(a)[0] == 0xff && FormatAdata(a)[1] == 0xfe
      && Value(FormatAdata(a)[2..]) == a
  {
    hide Big, Unit, Truncated;
    Powers();
    BigValue(a, 2);
    BigValue(a, 4);
    EscapeBytes();
    if a >= 65280 {
      assert FormatAdata(a)[2..] == Big(a, 4);
    }
  }

  lemma EscapeBytes()
    ensures Big(0xfffe, 2) == [0xff, 0xfe]
  {
    hide Unit;
    assert Big(0xfffe, 2) == Big(0xff, 1) + [Truncated(0xfffe)];
    assert Big(0xff, 1) == Big(0, 0) + [Truncated(0xff)];
    ByteIs(Truncated(0xfffe), 0xfe);
    ByteIs(Truncated(0xff), 0xff);
  }

  /** Padding: zeros up to the next multiple of 16, and no more. */
  lemma FillIs(s: seq<byte>)
    ensures |Fill(s)| == (|s| + 15) / 16 * 16 && Fill(s)[..|s|] == s
    ensures forall i :: |s| <= i < |Fill(s)| ==> Fill(s)[i] == 0
  {
  }

  // ----- CBC-MAC -----

  /** Each block is mixed into the last value and encrypted. */
  lemma {:induction false} MacAppend(c: Cipher, o: seq<byte>, s: seq<byte>, b: seq<byte>)
    requires |o| == c.size == |b| && Cbc.Whole(c, |s|) == |s|
    ensures Mac(c, o, []) == o && Mac(c, o, s + b) == Enc(c, Xor(Mac(c, o, s), b))
    decreases |s|
  {
    hide *;
    Positive(c);
    CcmWalk.MacIs(c, o, []);
    WholeCases(c, |s|);
    if s == [] {
      CcmWalk.MacStep(c, o, b, []);
      CcmWalk.MacIs(c, Enc(c, Xor(o, b)), []);
      assert s + b == b + [];
    } else {
      var x, t := s[..c.size], s[c.size..];
      Rejoin(s, c.size);
      Assoc(x, t, b);
      CcmWalk.MacStep(c, o, x, t);
      CcmWalk.MacStep(c, o, x, t + b);
      MacAppend(c, Enc(c, Xor(o, x)), t, b);
    }
  }

  lemma WholeCases(c: Cipher, n: nat)
    requires Cbc.Whole(c, n) == n && c.size > 0
    ensures n == 0 || (n >= c.size && Cbc.Whole(c, n - c.size) == n - c.size)
  {
    hide Keyed;
  }

  /** The value X_k of section 2.2 after the first `k` blocks of `s`. */
  function MacValue(c: Cipher, s: seq<byte>, k: nat): (x: seq<byte>)
    requires c.size == 16 && 16 * k <= |s|
    ensures |x| == 16
    decreases k
  {
    if k == 0 then Zeros(16) else Enc(c, Xor(MacValue(c, s, k - 1), s[16 * (k - 1)..16 * k]))
  }

  lemma {:induction false} MacIsValue(c: Cipher, s: seq<byte>, k: nat)
    requires c.size == 16 && 16 * k <= |s|
    ensures Mac(c, Zeros(16), s[..16 * k]) == MacValue(c, s, k)
    decreases k
  {
    hide Keyed, Mac, Enc;
    if k == 0 {
      MacAppend(c, Zeros(16), [], Zeros(16));
      assert s[..0] == [];
    } else {
      MacIsValue(c, s, k - 1);
      WholeBlocks(c, k - 1);
      MacAppend(c, Zeros(16), s[..16 * (k - 1)], s[16 * (k - 1)..16 * k]);
      assert s[..16 * k] == s[..16 * (k - 1)] + s[16 * (k - 1)..16 * k];
    }
  }

  lemma {:induction false} WholeBlocks(c: Cipher, k: nat)
    requires c.size == 16
    ensures Cbc.Whole(c, 16 * k) == 16 * k
    decreases k
  {
    hide Keyed;
    if k > 0 {
      WholeBlocks(c, k - 1);
    }
  }

  /** The tag before it is cut and encrypted: the last value, from zeros on, over the first block, the padded
      header and associated data if there are any, and the padded message. */
  lemma TagTextbook(c: Cipher, m: nat, iv: seq<byte>, assoc: seq<byte>, plain: seq<byte>)
    requires |iv| == 16 == c.size && TagSize(m) && LegalIv(iv) && InRange(assoc) && InRange(plain)
    requires Tag(c, m, iv, assoc, plain).Ok?
    ensures FormatInput(iv, m, |assoc|, |plain|).Ok?
    ensures
      var first := FormatInput(iv, m, |assoc|, |plain|).value;
      var s := first + (if |assoc| > 0 then Fill(FormatAdata(|assoc|) + assoc) else []) + Fill(plain);
      |s| % 16 == 0 && Tag(c, m, iv, assoc, plain).value == MacValue(c, s, |s| / 16)
  {
    TagOf(c, m, iv, assoc, plain);
    FormattedParts(iv, m, assoc, plain);
    hide *;
    var s := Formatted(iv, m, assoc, plain).value;
    MacIsValue(c, s, |s| / 16);
    All(s, 16 * (|s| / 16));
  }

  lemma All(s: seq<byte>, n: nat)
    requires n == |s|
    ensures s[..n] == s
  {
  }

  lemma TagOf(c: Cipher, m: nat, iv: seq<byte>, assoc: seq<byte>, plain: seq<byte>)
    requires |iv| == 16 == c.size && TagSize(m) && LegalIv(iv) && InRange(assoc) && InRange(plain)
    requires Tag(c, m, iv, assoc, plain).Ok?
    ensures
      && Formatted(iv, m, assoc, plain).Ok?
      && Tag(c, m, iv, assoc, plain).value == Mac(c, Zeros(16), Formatted(iv, m, assoc, plain).value)
  {
    hide Keyed, Mac, Formatted;
  }

  lemma FormattedParts(iv: seq<byte>, m: nat, assoc: seq<byte>, plain: seq<byte>)
    requires |iv| == 16 && TagSize(m) && LegalIv(iv) && InRange(assoc) && InRange(plain)
    requires Formatted(iv, m, assoc, plain).Ok?
    ensures FormatInput(iv, m, |assoc|, |plain|).Ok?
    ensures
      var first := FormatInput(iv, m, |assoc|, |plain|).value;
      var s := first + (if |assoc| > 0 then Fill(FormatAdata(|assoc|) + assoc) else []) + Fill(plain);
      Formatted(iv, m, assoc, plain).value == s && |s| % 16 == 0
  {
    hide FormatInput, FormatAdata, Fill;
  }

  // ----- the key stream of section 2.3 -----

  /** The counter block A_k: flags L', nonce, and k as a big-endian number. */
  function CounterBlock(iv: seq<byte>, k: nat): (r: seq<byte>)
    requires |iv| == 16 && LegalIv(iv)
    ensures |r| == 16
  {
    var l := iv[0] as nat + 1;
    iv[..16 - l] + Big(k, l)
  }

  /** Two strings of bytes of one length with the same value are the same. */
  lemma {:induction false} ValueInjective(a: seq<byte>, b: seq<byte>)
    requires |a| == |b| && Value(a) == Value(b)
    ensures a == b
    decreases |a|
  {
    if a != [] {
      var n := |a| - 1;
      LastByte(a);
      LastByte(b);
      hide Value;
      ValueInjective(a[..n], b[..n]);
      ByteIs(a[n], b[n]);
      assert a == a[..n] + [a[n]] && b == b[..n] + [b[n]];
    }
  }

  /** The last byte and the rest, read off the value. */
  lemma LastByte(a: seq<byte>)
    requires a != []
    ensures Value(a[..|a| - 1]) == Value(a) / 256 && a[|a| - 1] as nat == Value(a) % 256
  {
    var n := |a| - 1;
    ByteBound(a[n]);
    assert Value(a) == 256 * Value(a[..n]) + a[n] as nat;
    hide Value;
    DivModUnique(Value(a), 256, Value(a[..n]), a[n] as nat);
  }

  lemma ByteBound(b: byte)
    ensures b as nat < 256
  {
  }

  lemma NextBlock(iv: seq<byte>, k: nat)
    requires |iv| == 16 && LegalIv(iv) && k + 1 < Pow256(iv[0] as nat + 1)
    ensures Inc(CounterBlock(iv, k)) == CounterBlock(iv, k + 1)
  {
    hide Big, Inc, Pow256, Value;
    var l := iv[0] as nat + 1;
    BigValue(k, l);
    BigValue(k + 1, l);
    CcmSeal.IncTail(iv[..16 - l], Big(k, l));
    IncAdds(Big(k, l));
    ValueInjective(Inc(Big(k, l)), Big(k + 1, l));
  }

  lemma StartIsZero(iv: seq<byte>)
    requires |iv| == 16 && LegalIv(iv)
    ensures Start(iv) == CounterBlock(iv, 0)
  {
    BigZeros(0, iv[0] as nat + 1);
  }

  /** Counter mode goes through A_k, A_(k+1) and so on. */
  lemma {:induction false} CounterIs(c: Cipher, iv: seq<byte>, k: nat, n: nat)
    requires |iv| == 16 == c.size && LegalIv(iv) && k + n < Pow256(iv[0] as nat + 1)
    ensures Ctr.Counter(c, CounterBlock(iv, k), 16 * n) == CounterBlock(iv, k + n)
    decreases n
  {
    hide CounterBlock, Pow256, Keyed;
    if n > 0 {
      NextBlock(iv, k);
      CounterIs(c, iv, k + 1, n - 1);
    }
  }

  lemma {:induction false} WholeOf(c: Cipher, i: nat)
    requires c.size == 16
    ensures Cbc.Whole(c, i) == 16 * (i / 16)
    decreases i
  {
    hide Keyed;
    if i >= 16 {
      WholeOf(c, i - 16);
    }
  }

  lemma BlocksFitField(iv: seq<byte>, n: Length, i: nat)
    requires |iv| == 16 && LegalIv(iv) && Fits(iv, n) && i < n
    ensures 1 + i / 16 < Pow256(iv[0] as nat + 1)
  {
    Powers();
    PowersGrow(2, iv[0] as nat + 1);
    if iv[0] as nat + 1 >= 4 {
      PowersGrow(4, iv[0] as nat + 1);
    }
    hide Pow256;
  }

  /** Encryption, byte by byte: byte `i` of the message is mixed with byte `i % 16` of the encryption of counter
      block 1 + i / 16, and the tag with the encryption of counter block 0. */
  lemma SealedTextbook(c: Cipher, m: nat, iv: seq<byte>, assoc: seq<byte>, plain: seq<byte>)
    requires |iv| == 16 == c.size && LegalIv(iv) && TagSize(m) && InRange(assoc) && InRange(plain)
    requires Sealed(c, m, iv, assoc, plain).Ok?
    ensures Tag(c, m, iv, assoc, plain).Ok?
    ensures
      var r, t := Sealed(c, m, iv, assoc, plain).value, Tag(c, m, iv, assoc, plain).value;
      && |r| == |plain| + m
      && (forall i :: 0 <= i < |plain| ==> r[i] == plain[i] ^ Enc(c, CounterBlock(iv, 1 + i / 16))[i % 16])
      && (forall j :: 0 <= j < m ==> r[|plain| + j] == t[j] ^ Enc(c, CounterBlock(iv, 0))[j])
  {
    hide Keyed, Tag, CounterBlock, Start;
    var r, t := Sealed(c, m, iv, assoc, plain).value, Tag(c, m, iv, assoc, plain).value;
    StartIsZero(iv);
    SealedFits(c, m, iv, assoc, plain);
    var k := Enc(c, CounterBlock(iv, 0))[..m];
    forall j | 0 <= j < m ensures r[|plain| + j] == t[j] ^ Enc(c, CounterBlock(iv, 0))[j] {
      Ctr.XorAt(t[..m], k, j);
    }
    forall i | 0 <= i < |plain| ensures r[i] == plain[i] ^ Enc(c, CounterBlock(iv, 1 + i / 16))[i % 16] {
      SealedByte(c, iv, plain, i);
    }
  }

  lemma SealedFits(c: Cipher, m: nat, iv: seq<byte>, assoc: seq<byte>, plain: seq<byte>)
    requires |iv| == 16 == c.size && LegalIv(iv) && TagSize(m) && InRange(assoc) && InRange(plain)
    requires Sealed(c, m, iv, assoc, plain).Ok?
    ensures Tag(c, m, iv, assoc, plain).Ok? && Fits(iv, |plain|)
  {
    hide Keyed, Mac, SetMsgLen, Flags, Fill, FormatAdata;
    MsgLenExact(iv[0] as nat + 1, |plain|);
  }

  lemma SealedByte(c: Cipher, iv: seq<byte>, plain: seq<byte>, i: nat)
    requires |iv| == 16 == c.size && LegalIv(iv) && InRange(plain) && Fits(iv, |plain|) && i < |plain|
    ensures Ctr.Crypted(c, Inc(CounterBlock(iv, 0)), plain)[i] ==
      plain[i] ^ Enc(c, CounterBlock(iv, 1 + i / 16))[i % 16]
  {
    hide Keyed, CounterBlock, Ctr.Crypted, Ctr.Counter, Enc, Pow256;
    BlocksFitField(iv, |plain|, i);
    NextBlock(iv, 0);
    Ctr.Textbook(c, CounterBlock(iv, 1), plain, i);
    WholeOf(c, i);
    CounterIs(c, iv, 1, i / 16);
  }
}
