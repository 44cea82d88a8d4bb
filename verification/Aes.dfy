/**
 AES on 64-bit words, and lib_aes_encrypt / lib_aes_decrypt on byte buffers.
 */
module Aes {
  import opened Words
  import T = AesTables
  import M = AesCode
  import A = AesBuffers
  import C = AesCipher
  import F = AesField

  type Code = M.Code<ulong, byte>
  type Col = C.Col<byte>

  // -------------------------------------------------------------- 64-bit words

  function Xor(x: ulong, y: ulong): ulong { x ^ y }

  function Join(k: ulong, a: ulong, b: ulong, c: ulong, d: ulong): ulong {
    k ^ (a << 24) ^ (b << 16) ^ (c << 8) ^ d
  }

  /** All tables have 256 entries once generated. */
  function Entry(s: seq<ulong>, x: byte): ulong {
    if |s| == 256 then T.At(s, x) else 0
  }

  function LookupOf(q: T.Four): M.Lookup<ulong, byte> {
    M.Lookup(x => Entry(q.t0, x), x => Entry(q.t1, x), x => Entry(q.t2, x), x => Entry(q.t3, x))
  }

  function CodeOf(t: T.Tables, kt: T.Four): Code {
    M.Code(F.Aes(), Pack, Byte0, Byte1, Byte2, Byte3, Xor, Join, x => Entry(t.fsb, x), LookupOf(t.ft),
           x => Entry(t.rsb, x),
           LookupOf(t.rt), LookupOf(kt), (i: nat) => if i < |t.rcon| then t.rcon[i] else 0)
  }

  /** What aes_set_key puts into KT0 .. KT3. */
  ghost predicate KeyTables(kt: T.Four) {
    T.Sized(kt) && forall x: byte :: T.Contributes(kt, x, x)
  }

  lemma PackUnpacks(m: Code, a: byte, b: byte, c: byte, d: byte)
    requires m.pack == Pack && m.byte0 == Byte0 && m.byte1 == Byte1 && m.byte2 == Byte2 && m.byte3 == Byte3
    ensures M.Unpacks(m, C.Col(a, b, c, d))
  {
    PackBytes(a, b, c, d);
  }

  lemma CodeUnpacks(t: T.Tables, kt: T.Four, c: Col)
    ensures M.Unpacks(CodeOf(t, kt), c)
  {
    PackUnpacks(CodeOf(t, kt), c.a, c.b, c.c, c.d);
  }

  lemma XorOfPacks(x: Col, y: Col)
    ensures Xor(Pack(x.a, x.b, x.c, x.d), Pack(y.a, y.b, y.c, y.d)) == Pack(x.a ^ y.a, x.b ^ y.b, x.c ^ y.c, x.d ^ y.d)
  {
    PackXor(x.a, x.b, x.c, x.d, y.a, y.b, y.c, y.d);
  }

  lemma CodeXors(t: T.Tables, kt: T.Four, x: Col, y: Col)
    ensures M.Xors(CodeOf(t, kt), x, y)
  {
    XorOfPacks(x, y);
  }

  lemma JoinPack(k0: byte, k1: byte, k2: byte, k3: byte, a: byte, b: byte, c: byte, d: byte)
    ensures Join(Pack(k0, k1, k2, k3), a as ulong, b as ulong, c as ulong, d as ulong) == Pack(k0 ^ a, k1 ^ b, k2 ^ c,
        k3 ^ d)
  {
  }

  predicate SubstitutesCol(s: seq<ulong>, x: Col, y: Col) {
    && |s| == 256 && T.Substitutes(s, x.a, y.a) && T.Substitutes(s, x.b, y.b)
    && T.Substitutes(s, x.c, y.c) && T.Substitutes(s, x.d, y.d)
  }

  lemma JoinEntries(s: seq<ulong>, k: Col, x: Col, y: Col)
    requires SubstitutesCol(s, x, y)
    ensures Join(T.Word(k), Entry(s, x.a), Entry(s, x.b), Entry(s, x.c), Entry(s, x.d))
         == T.Word(C.AddCol(F.Aes(), k, y))
  {
    JoinPack(k.a, k.b, k.c, k.d, y.a, y.b, y.c, y.d);
  }

  lemma CodeSubstitutes(m: Code, s: seq<ulong>, k: Col, x: Col, y: Col)
    requires m.pack == Pack && m.join == Join && m.ar == F.Aes() && SubstitutesCol(s, x, y)
    ensures M.Substitutes(m, z => Entry(s, z), k, x, y)
  {
    JoinEntries(s, k, x, y);
  }

  lemma BoxesSubstitute(t: T.Tables, x: Col)
    requires T.Boxes(t.fsb, t.rsb)
    ensures SubstitutesCol(t.fsb, x, C.SubCol(F.Aes(), x, x, x, x))
    ensures SubstitutesCol(t.rsb, x, C.InvSubCol(F.Aes(), x, x, x, x))
  {
  }

  lemma BoxCodes(t: T.Tables, kt: T.Four, k: Col, x: Col)
    requires T.Boxes(t.fsb, t.rsb)
    ensures var m := CodeOf(t, kt);
            M.Substitutes(m, m.fsb, k, x, C.SubCol(m.ar, x, x, x, x)) && M.Substitutes(m, m.rsb, k, x,
                C.InvSubCol(m.ar, x, x, x, x))
  {
    BoxesSubstitute(t, x);
    CodeSubstitutes(CodeOf(t, kt), t.fsb, k, x, C.SubCol(F.Aes(), x, x, x, x));
    CodeSubstitutes(CodeOf(t, kt), t.rsb, k, x, C.InvSubCol(F.Aes(), x, x, x, x));
  }

  lemma CodeMixes(t: T.Tables, kt: T.Four, x: byte)
    requires T.Generated(t)
    ensures M.Mixes(CodeOf(t, kt), x)
  {
    assert T.Forward(t.ft, x);
  }

  lemma CodeContributes(m: Code, q: T.Four, x: byte, s: byte)
    requires m.pack == Pack && m.ar == F.Aes() && T.Sized(q) && T.Contributes(q, x, s)
    ensures M.Contributes(m, LookupOf(q), x, s)
  {
  }

  /** The generated tables give the code what it relies on. */
  lemma CodeLawful(t: T.Tables, kt: T.Four)
    requires T.Generated(t) && KeyTables(kt)
    ensures M.Lawful(CodeOf(t, kt))
  {
    var m := CodeOf(t, kt);
    F.AesLawful();
    forall c ensures M.Unpacks(m, c) { CodeUnpacks(t, kt, c); }
    forall x, y ensures M.Xors(m, x, y) { CodeXors(t, kt, x, y); }
    forall k, x ensures M.Substitutes(m, m.fsb, k, x, C.SubCol(m.ar, x, x, x, x)) { BoxCodes(t, kt, k, x); }
    forall k, x ensures M.Substitutes(m, m.rsb, k, x, C.InvSubCol(m.ar, x, x, x, x)) { BoxCodes(t, kt, k, x); }
    forall x ensures M.Mixes(m, x) { CodeMixes(t, kt, x); }
    forall x ensures M.Contributes(m, m.rt, x, m.ar.unsub(x)) {
      assert T.Reverse(t.rt, x);
      CodeContributes(m, t.rt, x, F.InvSBox(x));
    }
    forall x ensures M.Contributes(m, m.kt, x, x) {
      CodeContributes(m, kt, x, x);
    }
    forall i: nat | i < 10 ensures M.RconIs(m, i) {}
  }

  // ------------------------------------------------------------------ KT tables

  predicate KeyTablesUpTo(kt: T.Four, n: nat) {
    T.Sized(kt) && n <= 256 && forall j :: 0 <= j < n ==> T.Contributes(kt, T.Byte(j), T.Byte(j))
  }

  /** RTn[FSb[i]] for one i. */
  function PutKey(kt: T.Four, t: T.Tables, i: nat): (r: T.Four)
    requires T.Sized(kt) && T.Sized(t.rt) && |t.fsb| == 256 && i < 256
    ensures T.Sized(r)
  {
    var x := Low(t.fsb[i]);
    T.Four(kt.t0[i := T.At(t.rt.t0, x)], kt.t1[i := T.At(t.rt.t1, x)], kt.t2[i := T.At(t.rt.t2, x)],
           kt.t3[i := T.At(t.rt.t3, x)])
  }

  lemma KeyEntry(t: T.Tables, n: nat)
    requires T.Generated(t) && n < 256
    ensures T.Contributes(t.rt, Low(t.fsb[n]), T.Byte(n))
  {
    T.BoxBytes(t.fsb, t.rsb, n);
    assert T.Reverse(t.rt, F.SBox(T.Byte(n)));
    F.SBoxInverse(T.Byte(n));
  }

  /** Contents of four tables after one entry of each was replaced. */
  lemma Replaced(kt: T.Four, i: nat, v0: ulong, v1: ulong, v2: ulong, v3: ulong, j: nat)
    requires T.Sized(kt) && i < 256 && j < 256
    ensures var y := T.Byte(j);
            && T.At(kt.t0[i := v0], y) == (if i == j then v0 else T.At(kt.t0, y))
            && T.At(kt.t1[i := v1], y) == (if i == j then v1 else T.At(kt.t1, y))
            && T.At(kt.t2[i := v2], y) == (if i == j then v2 else T.At(kt.t2, y))
            && T.At(kt.t3[i := v3], y) == (if i == j then v3 else T.At(kt.t3, y))
  {
    T.IndexByte(j);
  }

  lemma PutKeyEntry(kt: T.Four, t: T.Tables, n: nat, j: nat)
    requires T.Generated(t) && T.Sized(kt) && n < 256 && j < 256
    requires j != n ==> T.Contributes(kt, T.Byte(j), T.Byte(j))
    ensures T.Contributes(PutKey(kt, t, n), T.Byte(j), T.Byte(j))
  {
    KeyEntry(t, n);
    var x := Low(t.fsb[n]);
    Replaced(kt, n, T.At(t.rt.t0, x), T.At(t.rt.t1, x), T.At(t.rt.t2, x), T.At(t.rt.t3, x), j);
  }

  lemma PutKeyStep(kt: T.Four, t: T.Tables, n: nat)
    requires T.Generated(t) && KeyTablesUpTo(kt, n) && n < 256
    ensures KeyTablesUpTo(PutKey(kt, t, n), n + 1)
  {
    forall j | 0 <= j < n + 1 ensures T.Contributes(PutKey(kt, t, n), T.Byte(j), T.Byte(j)) {
      PutKeyEntry(kt, t, n, j);
    }
  }

  method GenKeyTables(t: T.Tables) returns (kt: T.Four)
    requires T.Generated(t)
    ensures KeyTables(kt)
  {
    var blank := seq(256, _ => 0);
    kt := T.Four(blank, blank, blank, blank);
    for i := 0 to 256
      invariant KeyTablesUpTo(kt, i)
    {
      PutKeyStep(kt, t, i);
      kt := PutKey(kt, t, i);
    }
    forall x: byte ensures T.Contributes(kt, x, x) {
      T.ByteIndex(x);
      assert T.Contributes(kt, T.Byte(T.Index(x)), T.Byte(T.Index(x)));
    }
  }

  // --------------------------------------------------------------- the library

  /** The static tables, filled by the first call. */
  class Library {
    var do_init: bool
    var tables: T.Tables
    var KT_init: bool
    var kt: T.Four

    ghost predicate Valid()
      reads this
    {
      (!do_init ==> T.Generated(tables)) && (!KT_init ==> KeyTables(kt))
    }

    constructor ()
      ensures Valid()
    {
      do_init, KT_init := true, true;
    }

    method Prepare() returns (m: Code)
      requires Valid()
      modifies this
      ensures Valid() && M.Lawful(m) && m.ar == F.Aes()
    {
      if do_init {
        tables := T.GenTables();
        do_init := false;
      }
      if KT_init {
        kt := GenKeyTables(tables);
        KT_init := false;
      }
      m := CodeOf(tables, kt);
      CodeLawful(tables, kt);
    }

    /** lib_aes_encrypt: every block of the output is the FIPS 197 cipher of the
        input block; in place, block 0 goes through the cipher twice. */
    method Encrypt(output: array<byte>, input: array<byte>, inlen: nat, key: seq<byte>, keysize: nat)
      requires Valid() && A.IsKeySize(key, keysize)
      requires 16 * A.Blocks(inlen) <= input.Length && 16 * A.Blocks(inlen) <= output.Length
      modifies this, output
      ensures Valid()
      ensures A.HasBlocks(old(output[..]), output[..],
                          A.Written(A.CipherOf(F.Aes(), key), old(input[..]), inlen, input == output), A.Blocks(inlen))
    {
      var m := Prepare();
      A.EncryptLibrary(m, 0, output, input, inlen, key, keysize);
    }

    method Decrypt(output: array<byte>, input: array<byte>, inlen: nat, key: seq<byte>, keysize: nat)
      requires Valid() && A.IsKeySize(key, keysize)
      requires 16 * A.Blocks(inlen) <= input.Length && 16 * A.Blocks(inlen) <= output.Length
      modifies this, output
      ensures Valid()
      ensures A.HasBlocks(old(output[..]), output[..],
                          A.Written(A.InverseOf(F.Aes(), key), old(input[..]), inlen, input == output), A.Blocks(inlen))
    {
      var m := Prepare();
      A.DecryptLibrary(m, 0, output, input, inlen, key, keysize);
    }

    /** lib_aes_decrypt gives back what lib_aes_encrypt was given, for every key size, every
        length and all content, if and only if both calls are in place, or neither is, or
        block 0 is empty or not changed by one more pass. */
    method RoundTrip(plain: array<byte>, cipher: array<byte>, back: array<byte>, inlen: nat, key: seq<byte>,
                     keysize: nat)
      requires Valid() && A.IsKeySize(key, keysize)
      requires 16 * A.Blocks(inlen) <= plain.Length && 16 * A.Blocks(inlen) <= cipher.Length
      requires 16 * A.Blocks(inlen) <= back.Length
      modifies this, cipher, back
      ensures Valid() && inlen <= 16 * A.Blocks(inlen)
      ensures back[..16 * A.Blocks(inlen)] == old(plain[..16 * A.Blocks(inlen)]) <==>
              A.FirstComesBack(A.CipherOf(F.Aes(), key), A.InverseOf(F.Aes(), key), old(A.BlockAt(plain[..], 0)),
                               inlen, plain == cipher, back == cipher)
    {
      ghost var first := plain[..];
      Encrypt(cipher, plain, inlen, key, keysize);
      ghost var middle := cipher[..];
      Decrypt(back, cipher, inlen, key, keysize);
      F.AesLawful();
      A.CipherUndone(F.Aes(), key);
      A.BlocksRoundTrip(A.CipherOf(F.Aes(), key), A.InverseOf(F.Aes(), key), first, middle, back[..], inlen,
                        plain == cipher, back == cipher);
    }
  }
}
