/**
 The library with its own tables computes DES and two-key triple DES: the blocks it writes
 are those of FIPS 46-3, stated bit by bit without the code's words, macros or tables.
 */
module DesStandard {
  import opened Words
  import opened DesKeys
  import opened DesBits
  import opened DesRound
  import F = Feistel
  import B = DesBuffers
  import D = Des
  import X = DesBoxes

  // ------------------------------------------------------------------ FIPS 46-3

  /** L and R. */
  datatype State = State(l: Half, r: Half)

  /** The permuted input. */
  function Start(block: seq<byte>): State
    requires |block| == 8
  {
    State((n: nat) => KeyBit(block, IpL(n)), (n: nat) => KeyBit(block, IpR(n)))
  }

  /** L' = R, R' = L + f(R, K), with the key of round i + 1. */
  function Next(key: seq<byte>, i: nat, s: State): State
    requires |key| == 8
  {
    State(s.r, (n: nat) => s.l(n) != FipsBit(key, i, s.r, n))
  }

  function After(key: seq<byte>, n: nat, s: State): State
    requires |key| == 8
  {
    if n == 0 then s else Next(key, n - 1, After(key, n - 1, s))
  }

  /** The preoutput: R16 before L16. */
  function Preoutput(s: State, q: nat): bool {
    if q <= 32 then s.r(q) else s.l(q - 32)
  }

  /** The inverse initial permutation, two rows at a time. */
  function IpInverse(q: nat): nat {
    if q <= 16 then Inverse1(q) else if q <= 32 then Inverse2(q) else if q <= 48 then Inverse3(q) else Inverse4(q)
  }

  function Inverse1(q: nat): nat {
    if q == 1 then 40 else if q == 2 then 8 else if q == 3 then 48 else if q == 4 then 16
    else if q == 5 then 56 else if q == 6 then 24 else if q == 7 then 64 else if q == 8 then 32
    else if q == 9 then 39 else if q == 10 then 7 else if q == 11 then 47 else if q == 12 then 15
    else if q == 13 then 55 else if q == 14 then 23 else if q == 15 then 63 else 31
  }

  function Inverse2(q: nat): nat {
    if q == 17 then 38 else if q == 18 then 6 else if q == 19 then 46 else if q == 20 then 14
    else if q == 21 then 54 else if q == 22 then 22 else if q == 23 then 62 else if q == 24 then 30
    else if q == 25 then 37 else if q == 26 then 5 else if q == 27 then 45 else if q == 28 then 13
    else if q == 29 then 53 else if q == 30 then 21 else if q == 31 then 61 else 29
  }

  function Inverse3(q: nat): nat {
    if q == 33 then 36 else if q == 34 then 4 else if q == 35 then 44 else if q == 36 then 12
    else if q == 37 then 52 else if q == 38 then 20 else if q == 39 then 60 else if q == 40 then 28
    else if q == 41 then 35 else if q == 42 then 3 else if q == 43 then 43 else if q == 44 then 11
    else if q == 45 then 51 else if q == 46 then 19 else if q == 47 then 59 else 27
  }

  function Inverse4(q: nat): nat {
    if q == 49 then 34 else if q == 50 then 2 else if q == 51 then 42 else if q == 52 then 10
    else if q == 53 then 50 else if q == 54 then 18 else if q == 55 then 58 else if q == 56 then 26
    else if q == 57 then 33 else if q == 58 then 1 else if q == 59 then 41 else if q == 60 then 9
    else if q == 61 then 49 else if q == 62 then 17 else if q == 63 then 57 else 25
  }

  ghost predicate DesBit(key: seq<byte>, block: seq<byte>, out: seq<byte>, q: nat)
    requires |key| == |block| == |out| == 8
  {
    1 <= q <= 64 ==> KeyBit(out, q) == Preoutput(After(key, 16, Start(block)), IpInverse(q))
  }

  /** Enciphering the block with DES under the key gives `out`. */
  ghost predicate IsDes(key: seq<byte>, block: seq<byte>, out: seq<byte>) {
    |key| == |block| == |out| == 8 && forall q: nat :: DesBit(key, block, out, q)
  }

  /** DES, or triple DES with the key halves for encrypt, decrypt, encrypt. */
  ghost predicate Enciphers(triple: bool, key: seq<byte>, block: seq<byte>, out: seq<byte>) {
    if triple then |key| == 16 && exists a, b :: Ede(key[..8], key[8..], block, a, b, out) else IsDes(key, block, out)
  }

  ghost predicate Ede(k1: seq<byte>, k2: seq<byte>, block: seq<byte>, a: seq<byte>, b: seq<byte>, out: seq<byte>) {
    IsDes(k1, block, a) && IsDes(k2, b, a) && IsDes(k1, b, out)
  }

  // ------------------------------------------------------------------- sixteen rounds

  function Mask8(i: nat): ulong {
    if i == 0 then 0x01 else if i == 1 then 0x02 else if i == 2 then 0x04 else if i == 3 then 0x08
    else if i == 4 then 0x10 else if i == 5 then 0x20 else if i == 6 then 0x40 else 0x80
  }

  lemma Bit8Is(x: ulong, i: nat, m: ulong)
    requires m == Mask8(i)
    ensures Bit8(x, i) == (x & m != 0) && m != 0
  {
  }

  lemma OneBit(x: ulong, m: ulong)
    requires m == 0x01 || m == 0x02 || m == 0x04 || m == 0x08 || m == 0x10 || m == 0x20 || m == 0x40 || m == 0x80
    ensures x & m == 0 || x & m == m
  {
  }

  lemma MaskedXor(a: ulong, b: ulong, m: ulong)
    ensures (a ^ b) & m == (a & m) ^ (b & m)
  {
  }

  lemma OneBitXor(p: ulong, q: ulong, m: ulong)
    requires (p == 0 || p == m) && (q == 0 || q == m) && m != 0
    ensures (p ^ q != 0) == ((p != 0) != (q != 0))
  {
  }

  ghost predicate Tests(a: ulong, b: ulong, c: ulong, m: ulong) {
    (c & m != 0) == ((a & m != 0) != (b & m != 0))
  }

  lemma TestXor(a: ulong, b: ulong, c: ulong, m: ulong, p: ulong, q: ulong)
    requires p == a & m && q == b & m && (p == 0 || p == m) && (q == 0 || q == m) && m != 0 && c == a ^ b
    ensures Tests(a, b, c, m)
  {
    MaskedXor(a, b, m);
    OneBitXor(p, q, m);
  }

  lemma Test8Xor(a: ulong, b: ulong, c: ulong, m: ulong)
    requires m == 0x01 || m == 0x02 || m == 0x04 || m == 0x08 || m == 0x10 || m == 0x20 || m == 0x40 || m == 0x80
    requires c == a ^ b
    ensures Tests(a, b, c, m)
  {
    OneBit(a, m);
    OneBit(b, m);
    TestXor(a, b, c, m, a & m, b & m);
  }

  ghost predicate Adds8At(a: ulong, b: ulong, c: ulong, i: nat) {
    Bit8(c, i) == (Bit8(a, i) != Bit8(b, i))
  }

  ghost predicate Adds8(a: ulong, b: ulong, c: ulong) {
    forall i: nat :: Adds8At(a, b, c, i)
  }

  lemma TestsAdd(a: ulong, b: ulong, c: ulong, i: nat, m: ulong)
    requires m == Mask8(i) && Tests(a, b, c, m)
    ensures Adds8At(a, b, c, i)
  {
    Bit8Is(a, i, m);
    Bit8Is(b, i, m);
    Bit8Is(c, i, m);
  }

  ghost predicate TestsAt(a: ulong, b: ulong, c: ulong, i: nat) {
    Tests(a, b, c, Mask8(i))
  }

  lemma Tests8(a: ulong, b: ulong, c: ulong)
    requires c == a ^ b
    ensures forall i: nat :: TestsAt(a, b, c, i)
  {
    forall i: nat ensures TestsAt(a, b, c, i) { Test8Xor(a, b, c, Mask8(i)); }
  }

  lemma TestsAdd8(a: ulong, b: ulong, c: ulong)
    requires forall i: nat :: TestsAt(a, b, c, i)
    ensures Adds8(a, b, c)
  {
    forall i: nat ensures Adds8At(a, b, c, i) {
      assert TestsAt(a, b, c, i);
      TestsAdd(a, b, c, i, Mask8(i));
    }
  }

  lemma Bit8Xor(a: ulong, b: ulong, c: ulong)
    requires c == a ^ b
    ensures Adds8(a, b, c)
  {
    Tests8(a, b, c);
    TestsAdd8(a, b, c);
  }

  lemma Shift8Xor(a: ulong, b: ulong, c: ulong, a': ulong, b': ulong, c': ulong)
    requires c == a ^ b && a' == a >> 8 && b' == b >> 8 && c' == c >> 8
    ensures c' == a' ^ b'
  {
  }

  lemma Byte8Xor(a: ulong, b: ulong, c: ulong, a': ulong, b': ulong, c': ulong)
    requires c == a ^ b && a' == a >> 8 && b' == b >> 8 && c' == c >> 8
    ensures Adds8(a', b', c')
  {
    Shift8Xor(a, b, c, a', b', c');
    Bit8Xor(a', b', c');
  }

  lemma Shift16Xor(a: ulong, b: ulong, c: ulong, a': ulong, b': ulong, c': ulong)
    requires c == a ^ b && a' == a >> 16 && b' == b >> 16 && c' == c >> 16
    ensures c' == a' ^ b'
  {
  }

  lemma Byte16Xor(a: ulong, b: ulong, c: ulong, a': ulong, b': ulong, c': ulong)
    requires c == a ^ b && a' == a >> 16 && b' == b >> 16 && c' == c >> 16
    ensures Adds8(a', b', c')
  {
    Shift16Xor(a, b, c, a', b', c');
    Bit8Xor(a', b', c');
  }

  lemma Shift24Xor(a: ulong, b: ulong, c: ulong, a': ulong, b': ulong, c': ulong)
    requires c == a ^ b && a' == a >> 24 && b' == b >> 24 && c' == c >> 24
    ensures c' == a' ^ b'
  {
  }

  lemma Byte24Xor(a: ulong, b: ulong, c: ulong, a': ulong, b': ulong, c': ulong)
    requires c == a ^ b && a' == a >> 24 && b' == b >> 24 && c' == c >> 24
    ensures Adds8(a', b', c')
  {
    Shift24Xor(a, b, c, a', b', c');
    Bit8Xor(a', b', c');
  }

  ghost predicate AddsBytes(a: ulong, b: ulong, c: ulong) {
    && Adds8(a, b, c) && Adds8(a >> 8, b >> 8, c >> 8) && Adds8(a >> 16, b >> 16, c >> 16)
    && Adds8(a >> 24, b >> 24, c >> 24)
  }

  lemma BytesXor(a: ulong, b: ulong, c: ulong)
    requires c == a ^ b
    ensures AddsBytes(a, b, c)
  {
    Bit8Xor(a, b, c);
    Byte8Xor(a, b, c, a >> 8, b >> 8, c >> 8);
    Byte16Xor(a, b, c, a >> 16, b >> 16, c >> 16);
    Byte24Xor(a, b, c, a >> 24, b >> 24, c >> 24);
  }

  lemma BytesAdd(a: ulong, b: ulong, c: ulong, i: nat)
    requires AddsBytes(a, b, c)
    ensures Bit(c, i) == (Bit(a, i) != Bit(b, i))
  {
    if i < 8 {
      assert Adds8At(a, b, c, i);
    } else if i < 16 {
      assert Adds8At(a >> 8, b >> 8, c >> 8, i - 8);
    } else if i < 24 {
      assert Adds8At(a >> 16, b >> 16, c >> 16, i - 16);
    } else {
      assert Adds8At(a >> 24, b >> 24, c >> 24, i - 24);
    }
  }

  lemma BitXor(a: ulong, b: ulong, c: ulong, i: nat)
    requires c == a ^ b
    ensures Bit(c, i) == (Bit(a, i) != Bit(b, i))
  {
    BytesXor(a, b, c);
    BytesAdd(a, b, c, i);
  }

  lemma HalfBitXor(a: ulong, b: ulong, c: ulong, n: nat)
    requires c == D.Xor(a, b)
    ensures HalfBit(c, n) == (HalfBit(a, n) != HalfBit(b, n))
  {
    BitXor(a, b, c, if n == 1 then 0 else if 2 <= n <= 32 then 33 - n else 0);
  }

  /** Adding one half of the macro and then the other is adding their sum. */
  lemma AddedTwice(x: ulong, f: ulong, s: ulong, w: ulong, y: ulong, n: nat)
    requires w == D.Xor(f, s) && y == D.Xor(D.Xor(x, f), s)
    ensures HalfBit(y, n) == (HalfBit(x, n) != HalfBit(w, n))
  {
    HalfBitXor(f, s, w, n);
    HalfBitXor(x, f, D.Xor(x, f), n);
    HalfBitXor(D.Xor(x, f), s, y, n);
  }

  /** What one round of the code does to a pair of words. */
  lemma StepIs(b: D.Boxes, k0: ulong, k1: ulong, p: Pair)
    ensures F.Step(D.CodeOf(b), k0, k1, p)
         == F.Pair(p.y, D.Xor(D.Xor(p.x, D.First(b, k0, p.y)), D.Second(b, k1, p.y)))
  {
  }

  ghost predicate ShowsBoth(p: Pair, s: State) {
    Ok32(p) && Shows(p.x, s.l) && Shows(p.y, s.r)
  }

  lemma NextShows(key: seq<byte>, i: nat, p: Pair, s: State, f: ulong, g: ulong, y: ulong)
    requires |key| == 8 && i < 16 && ShowsBoth(p, s)
    requires f == D.First(X.Tables(), MainKs(key)[2 * i], p.y)
    requires g == D.Second(X.Tables(), MainKs(key)[2 * i + 1], p.y) && y == D.Xor(D.Xor(p.x, f), g)
    ensures Shows(y, Next(key, i, s).r)
  {
    forall n: nat ensures ShowsAt(y, Next(key, i, s).r, n) {
      if 1 <= n <= 32 {
        MacroIsFips(key, i, p.y, s.r, D.Xor(f, g), n);
        AddedTwice(p.x, f, g, D.Xor(f, g), y, n);
        assert ShowsAt(p.x, s.l, n);
      }
    }
  }

  lemma StepShows(key: seq<byte>, i: nat, p: Pair, s: State, q: Pair)
    requires |key| == 8 && i < 16 && ShowsBoth(p, s) && Ok32(q)
    requires q == F.Step(D.CodeOf(X.Tables()), MainKs(key)[2 * i], MainKs(key)[2 * i + 1], p)
    ensures ShowsBoth(q, Next(key, i, s))
  {
    var b, k0, k1 := X.Tables(), MainKs(key)[2 * i], MainKs(key)[2 * i + 1];
    StepIs(b, k0, k1, p);
    NextShows(key, i, p, s, D.First(b, k0, p.y), D.Second(b, k1, p.y), q.y);
  }

  lemma {:induction false} RunShows(m: F.Code<ulong>, key: seq<byte>, n: nat, p: Pair, s: State)
    requires |key| == 8 && n <= 16 && ShowsBoth(p, s) && m == D.CodeOf(X.Tables()) && F.Lawful(m)
    ensures ShowsBoth(F.Run(m, MainKs(key), n, p), After(key, n, s))
  {
    if n > 0 {
      RunShows(m, key, n - 1, p, s);
      F.RunOk(m, MainKs(key), n, p);
      StepShows(key, n - 1, F.Run(m, MainKs(key), n - 1, p), After(key, n - 1, s), F.Run(m, MainKs(key), n, p));
    }
  }

  // ------------------------------------------------------------------ one whole block

  predicate Inverts(q: nat) {
    var n := IpInverse(q);
    1 <= n <= 64 && if n <= 32 then IpL(n) == q else IpR(n - 32) == q
  }

  lemma Inverts1(q: nat)
    requires 1 <= q <= 16
    ensures Inverts(q)
  {
    if q <= 14 { Cases(q, 0); } else { Cases(q, 14); }
  }

  lemma Inverts2(q: nat)
    requires 17 <= q <= 32
    ensures Inverts(q)
  {
    if q <= 30 { Cases(q, 16); } else { Cases(q, 30); }
  }

  lemma Inverts3(q: nat)
    requires 33 <= q <= 48
    ensures Inverts(q)
  {
    if q <= 46 { Cases(q, 32); } else { Cases(q, 46); }
  }

  lemma Inverts4(q: nat)
    requires 49 <= q <= 64
    ensures Inverts(q)
  {
    if q <= 62 { Cases(q, 48); } else { Cases(q, 62); }
  }

  lemma IpInverts(q: nat)
    requires 1 <= q <= 64
    ensures Inverts(q)
  {
    if q <= 16 { Inverts1(q); } else if q <= 32 { Inverts2(q); } else if q <= 48 { Inverts3(q); } else { Inverts4(q); }
  }

  lemma StartShows(block: seq<byte>)
    requires |block| == 8
    ensures ShowsBoth(D.IP(Load(block)), Start(block))
  {
    var p := Load(block);
    D.StoreLoad(block);
    D.PermutationsInverse(p);
    forall n: nat ensures ShowsAt(D.IP(p).x, Start(block).l, n) && ShowsAt(D.IP(p).y, Start(block).r, n) {
      if 1 <= n <= 32 {
        IpIsFips(p, n);
        LoadedAt(block, IpL(n));
        LoadedAt(block, IpR(n));
      }
    }
  }

  /** The words c come out of DES_FP when the halves that go in show L16 and R16. */
  lemma FinishShows(r: Pair, s: State, c: Pair, q: nat)
    requires ShowsBoth(r, s) && c == D.FP(F.Swap(r)) && 1 <= q <= 64
    ensures PairBit(c, q) == Preoutput(s, IpInverse(q))
  {
    D.PermutationsInverse(F.Swap(r));
    IpInverts(q);
    var n := IpInverse(q);
    if n <= 32 {
      IpIsFips(c, n);
      assert ShowsAt(r.y, s.r, n);
    } else {
      IpIsFips(c, n - 32);
      assert ShowsAt(r.x, s.l, n - 32);
    }
  }

  /** des_crypt with the schedule of des_main_ks is DES. */
  lemma CryptIsDes(key: seq<byte>, block: seq<byte>)
    requires |key| == |block| == 8
    ensures IsDes(key, block, D.Store(F.Crypt(D.CodeOf(X.Tables()), MainKs(key), Load(block))))
  {
    var m, sk, p := D.CodeOf(X.Tables()), MainKs(key), Load(block);
    var r, c := F.Run(m, sk, 16, D.IP(p)), F.Crypt(m, sk, p);
    StartShows(block);
    X.TablesOk();
    D.CodeLawful(X.Tables());
    RunShows(m, key, 16, D.IP(p), Start(block));
    F.CryptIsRun(m, sk, p);
    D.PermutationsInverse(F.Swap(r));
    D.LoadStore(c);
    forall q: nat ensures DesBit(key, block, D.Store(c), q) {
      if 1 <= q <= 64 {
        FinishShows(r, After(key, 16, Start(block)), c, q);
        LoadedAt(D.Store(c), q);
      }
    }
  }

  // --------------------------------------------------------------------- the library

  function Code(): F.Code<ulong> {
    D.CodeOf(X.Tables())
  }

  lemma CodeFaithful()
    ensures B.Faithful(Code(), D.IoOf())
  {
    X.TablesOk();
    D.IoFaithful(X.Tables());
  }

  /** Words that des_crypt leaves, as bytes. */
  lemma WordsAreDes(m: F.Code<ulong>, key: seq<byte>, p: Pair, c: Pair)
    requires |key| == 8 && Ok32(p) && m == Code() && c == F.Crypt(m, MainKs(key), p)
    ensures IsDes(key, D.Store(p), D.Store(c))
  {
    D.LoadStore(p);
    CryptIsDes(key, D.Store(p));
  }

  /** With the subkeys reversed, des_crypt deciphers. */
  lemma WordsAreDesBack(m: F.Code<ulong>, key: seq<byte>, p: Pair, c: Pair)
    requires |key| == 8 && Ok32(p) && m == Code() && F.Lawful(m) && c == F.Crypt(m, F.Reversed(MainKs(key)), p)
    ensures IsDes(key, D.Store(c), D.Store(p)) && Ok32(c)
  {
    var rev := F.Reversed(MainKs(key));
    F.CryptOk(m, rev, p);
    F.CryptUndone(m, rev, p);
    F.ReversedTwice(MainKs(key));
    WordsAreDes(m, key, c, p);
  }

  lemma TripleEncrypts(m: F.Code<ulong>, k1: seq<byte>, k2: seq<byte>, p: Pair, c: Pair)
    requires |k1| == |k2| == 8 && Ok32(p) && m == Code() && F.Lawful(m)
    requires c == F.Crypt3(m, F.TwoKeyEsk(MainKs(k1), MainKs(k2)), p)
    ensures exists a, b :: Ede(k1, k2, D.Store(p), a, b, D.Store(c))
  {
    var s1, s2 := MainKs(k1), MainKs(k2);
    F.TwoKeyIsEde(m, s1, s2, p);
    var a := F.Crypt(m, s1, p);
    F.CryptOk(m, s1, p);
    var b := F.Crypt(m, F.Reversed(s2), a);
    WordsAreDes(m, k1, p, a);
    WordsAreDesBack(m, k2, a, b);
    WordsAreDes(m, k1, b, c);
    assert Ede(k1, k2, D.Store(p), D.Store(a), D.Store(b), D.Store(c));
  }

  lemma TripleDecrypts(m: F.Code<ulong>, k1: seq<byte>, k2: seq<byte>, p: Pair, c: Pair)
    requires |k1| == |k2| == 8 && Ok32(p) && m == Code() && F.Lawful(m)
    requires c == F.Crypt3(m, F.TwoKeyDsk(MainKs(k1), MainKs(k2)), p)
    ensures exists a, b :: Ede(k1, k2, D.Store(c), a, b, D.Store(p))
  {
    var s1, s2 := MainKs(k1), MainKs(k2);
    F.TwoKeyIsDed(m, s1, s2, p);
    var b := F.Crypt(m, F.Reversed(s1), p);
    WordsAreDesBack(m, k1, p, b);
    var a := F.Crypt(m, s2, b);
    F.CryptOk(m, s2, b);
    WordsAreDes(m, k2, b, a);
    WordsAreDesBack(m, k1, a, c);
    assert Ede(k1, k2, D.Store(c), D.Store(a), D.Store(b), D.Store(p));
  }

  /** What one block becomes under any of the four operations. */
  ghost predicate IsCiphered(mode: B.Mode, key: seq<byte>, block: seq<byte>, out: seq<byte>) {
    if mode.decrypt then Enciphers(mode.triple, key, out, block) else Enciphers(mode.triple, key, block, out)
  }

  lemma BlockIsDes(mode: B.Mode, key: seq<byte>, block: seq<byte>)
    requires B.Faithful(Code(), D.IoOf()) && |key| == B.KeyLength(mode) && |block| == 8
    ensures IsCiphered(mode, key, block, B.BlockCipher(Code(), D.IoOf(), mode, key, block))
  {
    var m, p := Code(), Load(block);
    D.StoreLoad(block);
    if mode.triple {
      var k1, k2 := key[..8], key[8..];
      var s1, s2 := MainKs(k1), MainKs(k2);
      if mode.decrypt {
        TripleDecrypts(m, k1, k2, p, F.Crypt3(m, F.TwoKeyDsk(s1, s2), p));
      } else {
        TripleEncrypts(m, k1, k2, p, F.Crypt3(m, F.TwoKeyEsk(s1, s2), p));
      }
    } else {
      assert key[..8] == key;
      if mode.decrypt {
        WordsAreDesBack(m, key, p, F.Crypt(m, F.Reversed(MainKs(key)), p));
      } else {
        WordsAreDes(m, key, p, F.Crypt(m, MainKs(key), p));
      }
    }
  }

  lemma BufferIsDes(m: F.Code<ulong>, io: B.Io<ulong, byte>, mode: B.Mode, key: seq<byte>, text: seq<byte>,
                    whole: seq<byte>, b: nat)
    requires m == Code() && io == D.IoOf() && B.Faithful(m, io) && |key| == B.KeyLength(mode)
    requires |text| <= B.BUF_MAX_SIZE && 8 * b + 8 <= |text| && |whole| == B.BUF_MAX_SIZE
    requires B.BlocksDone(m, io, mode, key, whole, B.Padded(text, 0), (|text| + 7) / 8)
    ensures IsCiphered(mode, key, B.BlockAt(text, b), B.BlockAt(whole, b))
  {
    assert B.BlockDone(m, io, mode, key, whole, B.Padded(text, 0), b);
    B.PaddedPrefix(text, 0, b);
    BlockIsDes(mode, key, B.BlockAt(text, b));
  }

  ghost predicate AllCiphered(mode: B.Mode, key: seq<byte>, text: seq<byte>, out: seq<byte>) {
    |text| == |out| && forall b :: 0 <= b < |text| / 8 ==> IsCiphered(mode, key, B.BlockAt(text, b), B.BlockAt(out, b))
  }

  lemma AllAreDes(m: F.Code<ulong>, io: B.Io<ulong, byte>, mode: B.Mode, key: seq<byte>, text: seq<byte>,
                  whole: seq<byte>, out: seq<byte>)
    requires m == Code() && io == D.IoOf() && B.Faithful(m, io) && |key| == B.KeyLength(mode)
    requires |text| <= B.BUF_MAX_SIZE && |whole| == B.BUF_MAX_SIZE && out == whole[..|text|]
    requires B.BlocksDone(m, io, mode, key, whole, B.Padded(text, 0), (|text| + 7) / 8)
    ensures AllCiphered(mode, key, text, out)
  {
    forall b | 0 <= b < |text| / 8 ensures IsCiphered(mode, key, B.BlockAt(text, b), B.BlockAt(out, b)) {
      assert B.BlockAt(out, b) == B.BlockAt(whole, b);
      BufferIsDes(m, io, mode, key, text, whole, b);
    }
  }

  /** lib_des_encrypt, lib_des_decrypt, lib_des3_encrypt and lib_des3_decrypt: every whole
      block of the output is DES or triple DES of its input block; `out` may be `input`. */
  method LibDes(mode: B.Mode, out: array<byte>, input: array<byte>, inlen: nat, key: seq<byte>)
    requires |key| == B.KeyLength(mode) && inlen <= B.BUF_MAX_SIZE && inlen <= input.Length && inlen <= out.Length
    modifies out
    ensures AllCiphered(mode, key, old(input[..inlen]), out[..inlen]) && out[inlen..] == old(out[inlen..])
  {
    CodeFaithful();
    var m, io := Code(), D.IoOf();
    ghost var text := input[..inlen];
    ghost var whole := B.LibBuffer(m, io, mode, out, input, inlen, key);
    AllAreDes(m, io, mode, key, text, whole, out[..inlen]);
  }
}
