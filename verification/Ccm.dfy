/** CCM, crypto/ccm.c: sections 2.2 and 2.3 of RFC 3610. */
module Ccm {
  import opened Arithmetic
  import opened Bytes
  import opened BlockCipher
  import opened Cbc
  import CbcWalk
  import Ctr

  datatype Error = EINVAL | EOVERFLOW | EBADMSG
  datatype Result<T> = Ok(value: T) | Err(error: Error)

  /** An unsigned int of the source. */
  type Length = n: nat | n < 0x1_0000_0000

  // ----- lengths -----

  /** `n` as an unsigned char */
  function Truncated(n: nat): (b: byte)
    ensures b as nat == n % 256
  {
    Unit(n % 256)
  }

  function Unit(n: nat): (b: byte)
    requires n < 256
    ensures b as nat == n
  {
    if n == 0 then 0
    else
      var b := Unit(n - 1);
      assert b != 0xff && (b + 1) as nat == b as nat + 1;
      b + 1
  }

  /** The last `k` bytes of the big-endian form of `n`. */
  function Big(n: nat, k: nat): (r: seq<byte>)
    ensures |r| == k
    decreases k
  {
    if k == 0 then [] else Big(n / 256, k - 1) + [Truncated(n)]
  }

  /** set_msg_len: the length field of `csize` bytes. */
  function SetMsgLen(csize: nat, msglen: Length): (r: Result<seq<byte>>)
    ensures r.Ok? ==> |r.value| == csize
  {
    var k := if csize >= 4 then 4 else csize;
    if csize < 4 && msglen > Pow256(csize) then Err(EOVERFLOW)
    else Ok(Zeros(csize - k) + Big(msglen, 4)[4 - k..])
  }

  lemma {:induction false} BigValue(n: nat, k: nat)
    ensures n < Pow256(k) ==> Value(Big(n, k)) == n
    decreases k
  {
    if k > 0 && n < Pow256(k) {
      BigValue(n / 256, k - 1);
      ValueLast(Big(n / 256, k - 1), Truncated(n));
    }
  }

  lemma {:induction false} BigSuffix(n: nat, k: nat, j: nat)
    requires j <= k
    ensures Big(n, k)[k - j..] == Big(n, j)
    decreases k
  {
    if j > 0 {
      BigSuffix(n / 256, k - 1, j - 1);
    }
  }

  lemma {:induction false} ValueZeros(j: nat, s: seq<byte>)
    ensures Value(Zeros(j) + s) == Value(s)
    decreases |s| + j
  {
    var t := Zeros(j) + s;
    if s != [] {
      assert t[..|t| - 1] == Zeros(j) + s[..|s| - 1];
      ValueZeros(j, s[..|s| - 1]);
    } else if j > 0 {
      assert t[..|t| - 1] == Zeros(j - 1) + [];
      ValueZeros(j - 1, []);
    }
  }

  lemma Powers()
    ensures Pow256(2) == 0x1_0000 && Pow256(3) == 0x100_0000 && Pow256(4) == 0x1_0000_0000
  {
    assert Pow256(1) == 256;
    assert Pow256(2) == 256 * 256;
    assert Pow256(3) == 256 * 0x1_0000;
  }

  lemma {:induction false} PowersGrow(i: nat, j: nat)
    requires i <= j
    ensures Pow256(i) <= Pow256(j)
    decreases j
  {
    if i < j {
      PowersGrow(i, j - 1);
    }
  }

  /** Which lengths are accepted, and which of them the field really holds: one too many is
      accepted when the field is shorter than a word. */
  lemma MsgLenExact(csize: nat, msglen: Length)
    requires 2 <= csize
    ensures SetMsgLen(csize, msglen).Ok? <==> csize >= 4 || msglen <= Pow256(csize)
    ensures msglen < Pow256(csize) <==>
      SetMsgLen(csize, msglen).Ok? && Value(SetMsgLen(csize, msglen).value) == msglen
  {
    hide Unit, Truncated, Big;
    var k := if csize >= 4 then 4 else csize;
    BigSuffix(msglen, 4, k);
    ValueZeros(csize - k, Big(msglen, k));
    Powers();
    if csize >= 4 {
      PowersGrow(4, csize);
      BigValue(msglen, 4);
    } else {
      BigValue(msglen, csize);
      var r := Zeros(csize - k) + Big(msglen, k);
      ValueBound(r);
    }
  }

  /** The length that does not fit: it is encoded like the length of the empty message. */
  lemma LengthWraps(csize: nat)
    requires csize == 2 || csize == 3
    ensures
      var n := if csize == 2 then 0x1_0000 else 0x100_0000;
      SetMsgLen(csize, n) == SetMsgLen(csize, 0) == Ok(Zeros(csize))
  {
    hide Unit, Truncated, Big;
    var n := if csize == 2 then 0x1_0000 else 0x100_0000;
    Powers();
    BigSuffix(n, 4, csize);
    BigSuffix(0, 4, csize);
    BigZeros(n, csize);
    BigZeros(0, csize);
    assert Zeros(0) + Zeros(csize) == Zeros(csize);
  }

  lemma {:induction false} BigZeros(n: nat, k: nat)
    requires n == 0 || n == Pow256(k)
    ensures Big(n, k) == Zeros(k)
    decreases k
  {
    if k > 0 {
      BigZeros(n / 256, k - 1);
      assert Zeros(k - 1) + [0] == Zeros(k);
    }
  }

  // ----- formatting -----

  /** The tag sizes that crypto_ccm_setauthsize lets through. */
  predicate TagSize(m: nat) { m in {4, 6, 8, 10, 12, 14, 16} }

  /** crypto_ccm_check_iv */
  predicate LegalIv(iv: seq<byte>)
    requires |iv| == 16
  {
    1 <= iv[0] <= 7
  }

  /** The first byte of the first block, before anything is known of the iv. */
  function Flags(first: byte, m: nat, adata: bool): byte
    requires TagSize(m)
  {
    first | (8 * ((m - 2) / 2)) as byte | (if adata then 64 else 0)
  }

  /** format_input: the first block. */
  function FormatInput(iv: seq<byte>, m: nat, assoclen: Length, cryptlen: Length): (r: Result<seq<byte>>)
    requires |iv| == 16 && TagSize(m) && iv[0] < 15
    ensures r.Ok? ==> |r.value| == 16
    ensures r.Err? ==> r.error == EOVERFLOW
  {
    var l := iv[0] as nat + 1;
    assert l <= 15;
    match SetMsgLen(l, cryptlen)
    case Err(e) => Err(e)
    case Ok(b) => Ok([Flags(iv[0], m, assoclen > 0)] + iv[1..16 - l] + b)
  }

  /** format_adata: what goes before the associated data. */
  function FormatAdata(a: Length): (r: seq<byte>)
    ensures 2 <= |r| <= 6
  {
    if a < 65280 then Big(a, 2) else Big(0xfffe, 2) + Big(a, 4)
  }

  /** `s` padded with zeros to whole blocks. */
  function Fill(s: seq<byte>): (r: seq<byte>)
    ensures |r| % 16 == 0
    ensures |s| <= |r| < |s| + 16
  {
    s + Zeros((16 - |s| % 16) % 16)
  }

  /** Everything that goes into the MAC. */
  function Formatted(iv: seq<byte>, m: nat, assoc: seq<byte>, plain: seq<byte>): (r: Result<seq<byte>>)
    requires |iv| == 16 && TagSize(m) && iv[0] < 15 && InRange(assoc) && InRange(plain)
  {
    match FormatInput(iv, m, |assoc|, |plain|)
    case Err(e) => Err(e)
    case Ok(first) => Ok(first + (if assoc == [] then [] else Fill(FormatAdata(|assoc|) + assoc)) + Fill(plain))
  }

  predicate InRange(s: seq<byte>) { |s| < 0x1_0000_0000 }

  /** A length that the field of this iv holds. */
  predicate InField(iv: seq<byte>, n: nat)
    requires |iv| == 16
  {
    n < Pow256(iv[0] as nat + 1)
  }

  /** A byte as a number. */
  function Num(b: byte): nat { b as nat }

  /** `j` times one. */
  function Ones(j: nat): byte {
    if j == 0 then 0 else Ones(j - 1) + 1
  }

  lemma {:induction false} NumOnes(j: nat)
    requires j < 256
    ensures Num(Ones(j)) == j
    decreases j
  {
    hide Num;
    if j == 0 {
      NumZero();
    } else {
      NumOnes(j - 1);
      NextNum(Ones(j - 1));
    }
  }

  lemma NumZero()
    ensures Num(0) == 0
  {
  }

  function Sum(x: byte, y: byte): byte { x + y }

  lemma {:induction false} PlusOnes(x: byte, j: nat)
    requires Num(x) + j < 256
    ensures Num(Sum(x, Ones(j))) == Num(x) + j
    decreases j
  {
    hide *;
    OnesStep(j);
    if j == 0 {
      PlusZero(x);
    } else {
      PlusOnes(x, j - 1);
      PlusNext(x, Ones(j - 1));
    }
  }

  lemma OnesStep(j: nat)
    ensures if j == 0 then Ones(j) == 0 else Ones(j) == Sum(Ones(j - 1), 1)
  {
  }

  lemma PlusNext(x: byte, z: byte)
    requires Num(Sum(x, z)) < 255
    ensures Num(Sum(x, Sum(z, 1))) == Num(Sum(x, z)) + 1
  {
    hide Num;
    NextNum(x + z);
    PlusOne(x, z);
  }

  lemma PlusZero(x: byte)
    ensures Sum(x, 0) == x
  {
  }

  lemma NextNum(b: byte)
    requires Num(b) < 255
    ensures Num(b + 1) == Num(b) + 1
  {
    if b != 0xff {
      NextByte(b);
    }
  }

  lemma PlusOne(x: byte, z: byte)
    ensures x + z + 1 == x + (z + 1)
  {
  }

  lemma ByteIs(a: byte, b: byte)
    requires a as nat == b as nat
    ensures a == b
  {
  }

  lemma SameNum(a: byte, b: byte)
    requires Num(a) == Num(b)
    ensures a == b
  {
    ByteIs(a, b);
  }

  lemma PlusNum(x: byte, y: byte)
    requires Num(x) + Num(y) < 256
    ensures Num(Sum(x, y)) == Num(x) + Num(y)
  {
    hide *;
    NumOnes(Num(y));
    SameNum(y, Ones(Num(y)));
    PlusOnes(x, Num(y));
  }

  lemma OrIsPlus(x: byte, k: byte)
    requires x < 8 && k in {8, 16, 24, 32, 40, 48, 56}
    ensures x | k | 0 == x + k && x | k | 64 == x + k + 64
  {
  }

  /** The flags, as section 2.2 of RFC 3610 gives them: 64 * Adata + 8 * M' + L'. */
  lemma FlagsValue(x: byte, m: nat, a: bool)
    requires 1 <= x <= 7 && TagSize(m)
    ensures Flags(x, m, a) as nat == (if a then 64 else 0) + 8 * ((m - 2) / 2) + x as nat
  {
    hide TagSize;
    SizeByte(m);
    SmallByte(x);
    FlagsOr(x, m, a);
    SumValue(x, (8 * ((m - 2) / 2)) as byte, a);
  }

  lemma FlagsOr(x: byte, m: nat, a: bool)
    requires 1 <= x <= 7 && TagSize(m)
    requires 0 <= 8 * ((m - 2) / 2) <= 56 && (8 * ((m - 2) / 2)) as byte in {8, 16, 24, 32, 40, 48, 56}
    ensures Flags(x, m, a) == x + (8 * ((m - 2) / 2)) as byte + (if a then 64 else 0)
  {
    hide TagSize;
    OrIsPlus(x, (8 * ((m - 2) / 2)) as byte);
  }

  lemma SumValue(x: byte, k: byte, a: bool)
    requires Num(x) <= 7 && Num(k) <= 56
    ensures Num(Sum(Sum(x, k), if a then 64 else 0)) == (if a then 64 else 0) + Num(k) + Num(x)
  {
    hide *;
    PlusNum(x, k);
    if a {
      SixtyFour();
      PlusNum(Sum(x, k), 64);
    } else {
      PlusZero(Sum(x, k));
    }
  }

  lemma SixtyFour()
    ensures Num(64) == 64
  {
  }

  lemma SizeByte(m: nat)
    requires TagSize(m)
    ensures
      && 8 <= 8 * ((m - 2) / 2) <= 56 && (8 * ((m - 2) / 2)) as byte in {8, 16, 24, 32, 40, 48, 56}
      && ((8 * ((m - 2) / 2)) as byte) as nat == 8 * ((m - 2) / 2)
  {
    assert m == 4 || m == 6 || m == 8 || m == 10 || m == 12 || m == 14 || m == 16;
  }

  lemma SmallByte(x: byte)
    requires x <= 7
    ensures x as nat <= 7
  {
  }

  /** The flags determine the length of the field, the tag size and whether there is associated data. */
  lemma FlagsDecode(x: byte, y: byte, m: nat, n: nat, a: bool, b: bool)
    requires 1 <= x <= 7 && 1 <= y <= 7 && TagSize(m) && TagSize(n) && Flags(x, m, a) == Flags(y, n, b)
    ensures x == y && m == n && a == b
  {
    hide Flags, TagSize;
    FlagsValue(x, m, a);
    FlagsValue(y, n, b);
    SmallByte(x);
    SmallByte(y);
    SizeHalf(m);
    SizeHalf(n);
    Digits(x as nat, y as nat, (m - 2) / 2, (n - 2) / 2, a, b);
    ByteIs(x, y);
  }

  lemma SizeHalf(m: nat)
    requires TagSize(m)
    ensures 1 <= (m - 2) / 2 <= 7 && m == 2 * ((m - 2) / 2) + 2
  {
    assert m == 4 || m == 6 || m == 8 || m == 10 || m == 12 || m == 14 || m == 16;
  }

  lemma Digits(x: nat, y: nat, i: nat, j: nat, a: bool, b: bool)
    requires x <= 7 && y <= 7 && i <= 7 && j <= 7
    requires (if a then 64 else 0) + 8 * i + x == (if b then 64 else 0) + 8 * j + y
    ensures x == y && i == j && a == b
  {
  }

  /** Two lengths that are written alike: they are equal, or one is zero and the other is the one too
      many that is accepted. */
  predicate WrittenAlike(csize: nat, n: nat, k: nat) {
    n == k || (csize < 4 && ((n == 0 && k == Pow256(csize)) || (k == 0 && n == Pow256(csize))))
  }

  lemma LengthDecodes(csize: nat, n: Length, k: Length)
    requires 2 <= csize && SetMsgLen(csize, n).Ok?
    requires SetMsgLen(csize, n) == SetMsgLen(csize, k)
    ensures WrittenAlike(csize, n, k)
  {
    hide SetMsgLen;
    MsgLenExact(csize, n);
    MsgLenExact(csize, k);
    LengthWritten(csize, n);
    LengthWritten(csize, k);
  }

  lemma LengthWritten(csize: nat, n: Length)
    requires 2 <= csize && SetMsgLen(csize, n).Ok?
    ensures csize < 4 ==> n <= Pow256(csize)
    ensures csize >= 4 ==> n < Pow256(csize)
    ensures Value(SetMsgLen(csize, n).value) == if n == Pow256(csize) then 0 else n
  {
    hide SetMsgLen, Big, Unit, Truncated;
    MsgLenExact(csize, n);
    Powers();
    if csize >= 4 {
      PowersGrow(4, csize);
    } else if n == Pow256(csize) {
      LengthWraps(csize);
      ValueZeros(csize, []);
      assert Zeros(csize) + [] == Zeros(csize);
    }
  }

  /** The first block determines the nonce, the tag size, whether there is associated data, and how the
      length is written. */
  lemma FirstDecodes(iv: seq<byte>, iw: seq<byte>, m: nat, m1: nat, a: Length, b: Length, n: Length, k: Length)
    requires |iv| == |iw| == 16 && TagSize(m) && TagSize(m1) && LegalIv(iv) && LegalIv(iw)
    requires FormatInput(iv, m, a, n).Ok? && FormatInput(iv, m, a, n) == FormatInput(iw, m1, b, k)
    ensures SameNonce(iv, iw) && m == m1
    ensures WrittenAlike(iv[0] as nat + 1, n, k) && (a > 0 <==> b > 0)
  {
    hide Flags, SetMsgLen, WrittenAlike;
    var f := FormatInput(iv, m, a, n).value;
    assert f[0] == Flags(iv[0], m, a > 0) == Flags(iw[0], m1, b > 0);
    FlagsDecode(iv[0], iw[0], m, m1, a > 0, b > 0);
    var l := iv[0] as nat + 1;
    assert f[1..16 - l] == iv[1..16 - l] == iw[1..16 - l];
    assert iv[..16 - l] == [iv[0]] + iv[1..16 - l];
    assert iw[..16 - l] == [iw[0]] + iw[1..16 - l];
    assert f[16 - l..] == SetMsgLen(l, n).value == SetMsgLen(l, k).value;
    LengthDecodes(l, n, k);
  }

  /** The bytes before the counter: the byte that says how long the field is, and the nonce. */
  predicate SameNonce(iv: seq<byte>, iw: seq<byte>)
    requires |iv| == |iw| == 16 && LegalIv(iv) && LegalIv(iw)
  {
    iv[..16 - (iv[0] as nat + 1)] == iw[..16 - (iw[0] as nat + 1)]
  }

  lemma NonceFormats(iv: seq<byte>, iw: seq<byte>, m: nat, a: seq<byte>, p: seq<byte>)
    requires |iv| == |iw| == 16 && TagSize(m) && LegalIv(iv) && LegalIv(iw) && SameNonce(iv, iw)
    requires InRange(a) && InRange(p)
    ensures iv[0] == iw[0] && Formatted(iv, m, a, p) == Formatted(iw, m, a, p)
  {
    hide Flags, SetMsgLen, Fill, FormatAdata;
    var l := iv[0] as nat + 1;
    assert iv[0] == iv[..16 - l][0] == iw[0];
    assert iv[1..16 - l] == iv[..16 - l][1..] == iw[1..16 - l];
  }

  /** The header determines the length of the associated data, whatever follows. */
  lemma AdataDecodes(a: Length, b: Length, s: seq<byte>, t: seq<byte>)
    requires FormatAdata(a) + s <= FormatAdata(b) + t
    ensures a == b && s <= t
  {
    hide Unit, Truncated, Big;
    var f, g := FormatAdata(a) + s, FormatAdata(b) + t;
    assert f[..2] == g[..2];
    Powers();
    assert f[..2] == Big(if a < 65280 then a else 0xfffe, 2);
    assert g[..2] == Big(if b < 65280 then b else 0xfffe, 2);
    BigValue(if a < 65280 then a else 0xfffe, 2);
    BigValue(if b < 65280 then b else 0xfffe, 2);
    if a >= 65280 {
      assert f[2..6] == Big(a, 4) && g[2..6] == Big(b, 4);
      assert g[2..6] == f[2..6];
      BigValue(a, 4);
      BigValue(b, 4);
    }
    var h := |FormatAdata(a)|;
    assert f[h..] == s && g[h..] == t;
  }

  lemma FillDecodes(s: seq<byte>, t: seq<byte>, x: seq<byte>, y: seq<byte>)
    requires |s| == |t| && Fill(s) + x <= Fill(t) + y
    ensures s == t && x <= y
  {
    var f, g := Fill(s) + x, Fill(t) + y;
    assert f[..|s|] == s && g[..|t|] == t;
    assert f[|Fill(s)|..] == x && g[|Fill(t)|..] == y;
  }

  /** CBC-MAC needs that no formatted input is the beginning of another.  With lengths that the
      fields hold, none is, unless nonce, associated data and message are the same. */
  lemma PrefixFree(iv: seq<byte>, a: seq<byte>, p: seq<byte>, iw: seq<byte>, b: seq<byte>, q: seq<byte>, m: nat)
    requires |iv| == |iw| == 16 && TagSize(m) && LegalIv(iv) && LegalIv(iw)
    requires InRange(a) && InRange(p) && InRange(b) && InRange(q) && InField(iv, |p|) && InField(iw, |q|)
    requires Formatted(iv, m, a, p).Ok? && Formatted(iw, m, b, q).Ok?
    requires Formatted(iv, m, a, p).value <= Formatted(iw, m, b, q).value
    ensures SameNonce(iv, iw) && a == b && p == q
  {
    hide Formatted;
    PrefixExact(iv, a, p, iw, b, q, m);
    SameField(iv, iw);
  }

  lemma SameField(iv: seq<byte>, iw: seq<byte>)
    requires |iv| == |iw| == 16 && LegalIv(iv) && LegalIv(iw) && SameNonce(iv, iw)
    ensures iv[0] == iw[0]
  {
    assert iv[0] == iv[..16 - (iv[0] as nat + 1)][0] && iw[0] == iw[..16 - (iw[0] as nat + 1)][0];
  }

  /** The message `q` is the one too long that is accepted, and `p` is the empty one. */
  predicate Confused(iv: seq<byte>, p: seq<byte>, q: seq<byte>)
    requires |iv| == 16
  {
    p == [] && iv[0] as nat + 1 < 4 && |q| == Pow256(iv[0] as nat + 1)
  }

  /** For all messages that are accepted: one formatted input is the beginning of another exactly when
      nonce, associated data and message are the same, or nonce and associated data are and the empty
      message meets one of 2^(8L) bytes. */
  lemma PrefixExact(iv: seq<byte>, a: seq<byte>, p: seq<byte>, iw: seq<byte>, b: seq<byte>, q: seq<byte>, m: nat)
    requires |iv| == |iw| == 16 && TagSize(m) && LegalIv(iv) && LegalIv(iw)
    requires InRange(a) && InRange(p) && InRange(b) && InRange(q)
    requires Formatted(iv, m, a, p).Ok? && Formatted(iw, m, b, q).Ok?
    ensures Formatted(iv, m, a, p).value <= Formatted(iw, m, b, q).value <==>
      SameNonce(iv, iw) && a == b && (p == q || Confused(iv, p, q))
  {
    hide Formatted, SameNonce;
    if Formatted(iv, m, a, p).value <= Formatted(iw, m, b, q).value {
      PrefixDecodes(iv, a, p, iw, b, q, m);
    }
    if SameNonce(iv, iw) && a == b && (p == q || Confused(iv, p, q)) {
      NonceFormats(iv, iw, m, a, p);
      if p != q {
        PrefixOfLongest(iw, a, q, m);
      }
    }
  }

  lemma PrefixDecodes(iv: seq<byte>, a: seq<byte>, p: seq<byte>, iw: seq<byte>, b: seq<byte>, q: seq<byte>, m: nat)
    requires |iv| == |iw| == 16 && TagSize(m) && LegalIv(iv) && LegalIv(iw)
    requires InRange(a) && InRange(p) && InRange(b) && InRange(q)
    requires Formatted(iv, m, a, p).Ok? && Formatted(iw, m, b, q).Ok?
    requires Formatted(iv, m, a, p).value <= Formatted(iw, m, b, q).value
    ensures SameNonce(iv, iw) && a == b && (p == q || Confused(iv, p, q))
  {
    hide FormatInput, FormatAdata, Fill, Big, Pow256, SameNonce;
    var f, g := FormatInput(iv, m, |a|, |p|).value, FormatInput(iw, m, |b|, |q|).value;
    var s := (if a == [] then [] else Fill(FormatAdata(|a|) + a)) + Fill(p);
    var t := (if b == [] then [] else Fill(FormatAdata(|b|) + b)) + Fill(q);
    Concat(f, s, if a == [] then [] else Fill(FormatAdata(|a|) + a), Fill(p));
    Concat(g, t, if b == [] then [] else Fill(FormatAdata(|b|) + b), Fill(q));
    Heads(f, s, g, t);
    FirstDecodes(iv, iw, m, m, |a|, |b|, |p|, |q|);
    BodyDecodes(a, p, b, q);
  }

  /** The length that set_msg_len wrongly accepts breaks this: the empty message is formatted like
      the beginning of a message of that length. */
  lemma PrefixOfLongest(iv: seq<byte>, a: seq<byte>, q: seq<byte>, m: nat)
    requires |iv| == 16 && TagSize(m) && 1 <= iv[0] <= 2 && InRange(a) && InRange(q)
    requires |q| == Pow256(iv[0] as nat + 1)
    ensures q != [] && Formatted(iv, m, a, []).Ok? && Formatted(iv, m, a, q).Ok?
    ensures Formatted(iv, m, a, []).value <= Formatted(iv, m, a, q).value
  {
    hide Pow256, SetMsgLen, Flags, Fill, FormatAdata, Big;
    Powers();
    LengthWraps(iv[0] as nat + 1);
    assert Fill([]) == [];
  }

  lemma Concat(f: seq<byte>, s: seq<byte>, x: seq<byte>, y: seq<byte>)
    requires s == x + y
    ensures f + x + y == f + s
  {
  }

  lemma Heads(f: seq<byte>, s: seq<byte>, g: seq<byte>, t: seq<byte>)
    requires |f| == |g| && f + s <= g + t
    ensures f == g && s <= t
  {
    assert (f + s)[..|f|] == f && (g + t)[..|f|] == g;
    assert (f + s)[|f|..] == s && (g + t)[|f|..] == t;
  }

  lemma BodyDecodes(a: seq<byte>, p: seq<byte>, b: seq<byte>, q: seq<byte>)
    requires InRange(a) && InRange(b) && (a == [] <==> b == [])
    requires
      (if a == [] then [] else Fill(FormatAdata(|a|) + a)) + Fill(p) <=
      (if b == [] then [] else Fill(FormatAdata(|b|) + b)) + Fill(q)
    ensures a == b && (|p| == |q| ==> p == q) && (q == [] ==> p == [])
  {
    hide FormatAdata, Fill;
    if a != [] {
      AssocDecodes(a, b, Fill(p), Fill(q));
    } else {
      assert [] + Fill(p) == Fill(p) && [] + Fill(q) == Fill(q);
    }
    assert Fill(p) + [] == Fill(p) && Fill(q) + [] == Fill(q);
    if |p| == |q| {
      FillDecodes(p, q, [], []);
    }
  }

  lemma AssocDecodes(a: seq<byte>, b: seq<byte>, u: seq<byte>, v: seq<byte>)
    requires InRange(a) && InRange(b) && Fill(FormatAdata(|a|) + a) + u <= Fill(FormatAdata(|b|) + b) + v
    ensures a == b && u <= v
  {
    hide FormatAdata, Fill;
    var f, g := FormatAdata(|a|), FormatAdata(|b|);
    var y := Filling(f + a);
    var z := Filling(g + b);
    assert f + a + y + u == f + (a + y + u) && g + b + z + v == g + (b + z + v);
    AdataDecodes(|a|, |b|, a + y + u, b + z + v);
    FillDecodes(f + a, g + b, u, v);
    assert (f + a)[|f|..] == a && (g + b)[|g|..] == b;
  }

  lemma Filling(s: seq<byte>) returns (z: seq<byte>)
    ensures Fill(s) == s + z
  {
    z := Zeros((16 - |s| % 16) % 16);
  }
}
