/**
 Key schedules of des_set_key and des3_set_2keys, and the lib_des functions on
 byte buffers. The schedule of one key (des_main_ks) is a parameter: nothing here
 depends on which 32 subkeys it makes.
 */
module DesBuffers {
  import opened Feistel

  /** GET_UINT32_BE and PUT_UINT32_BE of a block, and des_main_ks. */
  datatype Io<!W, !B> = Io(load: seq<B> -> Pair<W>, store: Pair<W> -> seq<B>, subkeys: seq<B> -> seq<W>, zeroByte: B,
                           zeroWord: W)

  ghost predicate Loads<W, B>(m: Code<W>, io: Io<W, B>, s: seq<B>) {
    |s| == 8 ==> io.store(io.load(s)) == s && Ok(m, io.load(s)) && |io.subkeys(s)| == 32
  }

  ghost predicate Stores<W, B>(m: Code<W>, io: Io<W, B>, p: Pair<W>) {
    |io.store(p)| == 8 && (Ok(m, p) ==> io.load(io.store(p)) == p)
  }

  ghost predicate Faithful<W(!new), B(!new)>(m: Code<W>, io: Io<W, B>) {
    Lawful(m) && (forall s :: Loads(m, io, s)) && (forall p :: Stores(m, io, p))
  }

  // ---------------------------------------------------------------- key schedules

  /** The loop of des_set_key. */
  method FillReversed<W>(esk: array<W>, dsk: array<W>)
    requires esk.Length == dsk.Length == 32 && esk != dsk
    modifies dsk
    ensures dsk[..] == Reversed(esk[..])
  {
    var i := 0;
    while i < 32
      invariant 0 <= i <= 32 && i % 2 == 0
      invariant forall k :: 0 <= k < i ==> dsk[k] == Reversed(esk[..])[k]
    {
      dsk[i] := esk[30 - i];
      dsk[i + 1] := esk[31 - i];
      i := i + 2;
    }
  }

  /** How far des3_set_2keys has come: esk starts with the first schedule and dsk
      holds the second in its middle. */
  predicate Filled<W(==)>(e: seq<W>, d: seq<W>, k1: seq<W>, k2: seq<W>, n: nat) {
    && |e| == |d| == 96 && |k1| == |k2| == 32 && n <= 32 && n % 2 == 0 && e[..32] == k1 && d[32..64] == k2
    && (forall k :: 0 <= k < n ==> d[k] == Reversed(k1)[k])
    && (forall k :: 0 <= k < n ==> e[32 + k] == Reversed(k2)[k])
    && (forall k :: 0 <= k < n ==> e[64 + k] == k1[k])
    && (forall k :: 0 <= k < n ==> d[64 + k] == Reversed(k1)[k])
  }

  lemma FilledStep<W>(e: seq<W>, d: seq<W>, k1: seq<W>, k2: seq<W>, n: nat, e': seq<W>, d': seq<W>)
    requires Filled(e, d, k1, k2, n) && n < 32
    requires e' == e[n + 32 := d[62 - n]][n + 33 := d[63 - n]][n + 64 := e[n]][n + 65 := e[n + 1]]
    requires d' == d[n := e[30 - n]][n + 1 := e[31 - n]][n + 64 := e[30 - n]][n + 65 := e[31 - n]]
    ensures Filled(e', d', k1, k2, n + 2)
  {
    assert e[..32][n] == e[n] && e[..32][n + 1] == e[n + 1];
    assert e[..32][30 - n] == e[30 - n] && e[..32][31 - n] == e[31 - n];
    assert d[32..64][30 - n] == d[62 - n] && d[32..64][31 - n] == d[63 - n];
  }

  lemma FilledIsTwoKey<W>(e: seq<W>, d: seq<W>, k1: seq<W>, k2: seq<W>)
    requires Filled(e, d, k1, k2, 32)
    ensures e == TwoKeyEsk(k1, k2) && d == TwoKeyDsk(k1, k2)
  {
    assert forall k :: 0 <= k < 32 ==> e[k] == e[..32][k] && d[32 + k] == d[32..64][k];
  }

  /** The loop of des3_set_2keys, interleaved over both arrays: it reads entries it
      has written and entries it has yet to overwrite. */
  method FillTwoKeys<W>(esk: array<W>, dsk: array<W>)
    requires esk.Length == dsk.Length == 96 && esk != dsk
    modifies esk, dsk
    ensures esk[..] == TwoKeyEsk(old(esk[..32]), old(dsk[32..64]))
    ensures dsk[..] == TwoKeyDsk(old(esk[..32]), old(dsk[32..64]))
  {
    ghost var k1, k2 := esk[..32], dsk[32..64];
    var i := 0;
    while i < 32
      invariant 0 <= i <= 32 && Filled(esk[..], dsk[..], k1, k2, i)
    {
      ghost var e, d := esk[..], dsk[..];
      dsk[i] := esk[30 - i];
      dsk[i + 1] := esk[31 - i];
      esk[i + 32] := dsk[62 - i];
      esk[i + 33] := dsk[63 - i];
      esk[i + 64] := esk[i];
      esk[i + 65] := esk[1 + i];
      dsk[i + 64] := dsk[i];
      dsk[i + 65] := dsk[1 + i];
      FilledStep(e, d, k1, k2, i, esk[..], dsk[..]);
      i := i + 2;
    }
    FilledIsTwoKey(esk[..], dsk[..], k1, k2);
  }

  // ---------------------------------------------------------------------- blocks

  /** Which of the four operations: DES or two-key triple DES, either way. */
  datatype Mode = Mode(triple: bool, decrypt: bool)

  function KeyLength(mode: Mode): (n: nat)
    ensures n == 8 || n == 16
  {
    if mode.triple then 16 else 8
  }

  /** des_encrypt, des_decrypt, des3_encrypt and des3_decrypt on one block, with the
      schedule of the key made afresh as lib_des and lib_des3 do. */
  ghost function BlockCipher<W(!new), B(!new)>(m: Code<W>, io: Io<W, B>, mode: Mode, key: seq<B>, block: seq<B>): seq<B>
    requires Faithful(m, io) && |key| == KeyLength(mode)
  {
    assert Loads(m, io, key[..8]);
    if mode.triple then
      assert Loads(m, io, key[8..]);
      var k1, k2 := io.subkeys(key[..8]), io.subkeys(key[8..]);
      io.store(Crypt3(m, if mode.decrypt then TwoKeyDsk(k1, k2) else TwoKeyEsk(k1, k2), io.load(block)))
    else
      var k := io.subkeys(key[..8]);
      io.store(Crypt(m, if mode.decrypt then Reversed(k) else k, io.load(block)))
  }

  lemma BlockCipherLength<W(!new), B(!new)>(m: Code<W>, io: Io<W, B>, mode: Mode, key: seq<B>, block: seq<B>)
    requires Faithful(m, io) && |key| == KeyLength(mode)
    ensures |BlockCipher(m, io, mode, key, block)| == 8
  {
    assert forall p :: Stores(m, io, p) ==> |io.store(p)| == 8;
  }

  /** Decrypting an encrypted block gives the block, for every key. */
  lemma BlockUndone<W(!new), B(!new)>(m: Code<W>, io: Io<W, B>, triple: bool, key: seq<B>, block: seq<B>)
    requires Faithful(m, io) && |key| == KeyLength(Mode(triple, false)) && |block| == 8
    ensures BlockCipher(m, io, Mode(triple, true), key, BlockCipher(m, io, Mode(triple, false), key, block)) == block
  {
    assert Loads(m, io, block) && Loads(m, io, key[..8]);
    var p, k1 := io.load(block), io.subkeys(key[..8]);
    if triple {
      assert Loads(m, io, key[8..]);
      var k2 := io.subkeys(key[8..]);
      TwoKeyUndone(m, k1, k2, p);
      assert Stores(m, io, Crypt3(m, TwoKeyEsk(k1, k2), p));
    } else {
      CryptOk(m, k1, p);
      CryptUndone(m, k1, p);
      assert Stores(m, io, Crypt(m, k1, p));
    }
  }

  /** Two-key triple DES with equal halves is DES with that half, both ways. */
  lemma EqualHalves<W(!new), B(!new)>(m: Code<W>, io: Io<W, B>, decrypt: bool, half: seq<B>, block: seq<B>)
    requires Faithful(m, io) && |half| == 8 && |block| == 8
    ensures BlockCipher(m, io, Mode(true, decrypt), half + half, block) == BlockCipher(m, io, Mode(false, decrypt),
        half, block)
  {
    assert Loads(m, io, block) && Loads(m, io, half);
    assert (half + half)[..8] == half && (half + half)[8..] == half && half[..8] == half;
    EqualHalvesCollapse(m, io.subkeys(half), io.load(block));
  }

  // -------------------------------------------------------------- lib_des, lib_des3

  /** Stores a run of elements at `i`; everything else stays. */
  method CopyInto<T>(a: array<T>, i: nat, s: seq<T>)
    requires i + |s| <= a.Length
    modifies a
    ensures a[..] == old(a[..i]) + s + old(a[i + |s|..])
  {
    for k := 0 to |s|
      invariant forall q :: 0 <= q < k ==> a[i + q] == s[q]
      invariant forall q :: 0 <= q < a.Length && (q < i || i + k <= q) ==> a[q] == old(a[q])
    {
      a[i + k] := s[k];
    }
  }

  method SingleSchedule<W(!new), B(!new)>(ghost m: Code<W>, io: Io<W, B>, key: seq<B>,
                                          decrypt: bool) returns (sk: seq<W>)
    requires Faithful(m, io) && |key| == 8
    ensures |io.subkeys(key)| == 32 && sk == if decrypt then Reversed(io.subkeys(key)) else io.subkeys(key)
  {
    var esk, dsk := new W[32](_ => io.zeroWord), new W[32](_ => io.zeroWord);
    assert Loads(m, io, key);
    CopyInto(esk, 0, io.subkeys(key));
    assert esk[..] == io.subkeys(key);
    FillReversed(esk, dsk);
    sk := if decrypt then dsk[..] else esk[..];
  }

  method TripleSchedule<W(!new), B(!new)>(ghost m: Code<W>, io: Io<W, B>, key: seq<B>,
                                          decrypt: bool) returns (sk: seq<W>)
    requires Faithful(m, io) && |key| == 16
    ensures |io.subkeys(key[..8])| == |io.subkeys(key[8..])| == 32
    ensures decrypt ==> sk == TwoKeyDsk(io.subkeys(key[..8]), io.subkeys(key[8..]))
    ensures !decrypt ==> sk == TwoKeyEsk(io.subkeys(key[..8]), io.subkeys(key[8..]))
  {
    var esk, dsk := new W[96](_ => io.zeroWord), new W[96](_ => io.zeroWord);
    assert Loads(m, io, key[..8]) && Loads(m, io, key[8..]);
    CopyInto(esk, 0, io.subkeys(key[..8]));
    CopyInto(dsk, 32, io.subkeys(key[8..]));
    assert esk[..32] == io.subkeys(key[..8]) && dsk[32..64] == io.subkeys(key[8..]);
    FillTwoKeys(esk, dsk);
    sk := if decrypt then dsk[..] else esk[..];
  }

  /** lib_des and lib_des3 on the block at `i` of two buffers. */
  method LibBlock<W(!new), B(!new)>(m: Code<W>, io: Io<W, B>, mode: Mode, output: array<B>, input: array<B>, i: nat,
                                    key: seq<B>)
    requires Faithful(m, io) && |key| == KeyLength(mode) && i + 8 <= input.Length && i + 8 <= output.Length
    modifies output
    ensures output[..] == old(output[..i]) + BlockCipher(m, io, mode, key, old(input[i..i + 8])) + old(output[i + 8..])
  {
    var block := input[i..i + 8];
    BlockCipherLength(m, io, mode, key, block);
    if mode.triple {
      var sk := TripleSchedule(m, io, key, mode.decrypt);
      CopyInto(output, i, io.store(Crypt3(m, sk, io.load(block))));
    } else {
      assert key[..8] == key;
      var sk := SingleSchedule(m, io, key, mode.decrypt);
      CopyInto(output, i, io.store(Crypt(m, sk, io.load(block))));
    }
  }

  // ---------------------------------------------------------------------- buffers

  const BUF_MAX_SIZE: nat := 1024

  /** The local copy of the input: the rest of the buffer is zero. */
  function Padded<B>(s: seq<B>, zero: B): (r: seq<B>)
    requires |s| <= BUF_MAX_SIZE
    ensures |r| == BUF_MAX_SIZE
  {
    s + seq(BUF_MAX_SIZE - |s|, _ => zero)
  }

  function BlockAt<B>(s: seq<B>, b: nat): (r: seq<B>)
    requires 8 * b + 8 <= |s|
    ensures |r| == 8
  {
    s[8 * b..8 * b + 8]
  }

  ghost predicate BlockDone<W(!new), B(!new)>(m: Code<W>, io: Io<W, B>, mode: Mode, key: seq<B>, output: seq<B>,
                                              input: seq<B>, b: nat)
    requires Faithful(m, io) && |key| == KeyLength(mode)
  {
    8 * b + 8 <= |input| && 8 * b + 8 <= |output| && BlockAt(output, b) == BlockCipher(m, io, mode, key,
        BlockAt(input, b))
  }

  ghost predicate BlocksDone<W(!new), B(!new)>(m: Code<W>, io: Io<W, B>, mode: Mode, key: seq<B>, output: seq<B>,
                                               input: seq<B>, n: nat)
    requires Faithful(m, io) && |key| == KeyLength(mode)
  {
    forall b :: 0 <= b < n ==> BlockDone(m, io, mode, key, output, input, b)
  }

  lemma BlocksKept<W(!new), B(!new)>(m: Code<W>, io: Io<W, B>, mode: Mode, key: seq<B>, output: seq<B>,
                                     output': seq<B>, input: seq<B>, n: nat)
    requires Faithful(m, io) && |key| == KeyLength(mode) && |output| == |output'| && 8 * n + 8 <= |output|
    requires 8 * n + 8 <= |input|
    requires BlocksDone(m, io, mode, key, output, input, n)
    requires output' == output[..8 * n] + BlockCipher(m, io, mode, key, BlockAt(input, n)) + output[8 * n + 8..]
    ensures BlocksDone(m, io, mode, key, output', input, n + 1)
  {
    BlockCipherLength(m, io, mode, key, BlockAt(input, n));
    forall b | 0 <= b < n + 1 ensures BlockDone(m, io, mode, key, output', input, b) {
      if b < n {
        assert BlockDone(m, io, mode, key, output, input, b);
        assert BlockAt(output', b) == BlockAt(output, b);
      } else {
        assert BlockAt(output', n) == BlockCipher(m, io, mode, key, BlockAt(input, n));
      }
    }
  }

  method NextBlock<W(!new), B(!new)>(m: Code<W>, io: Io<W, B>, mode: Mode, m_out: array<B>, m_in: array<B>,
                                     key: seq<B>, i: nat, ghost b: nat)
    requires Faithful(m, io) && |key| == KeyLength(mode) && m_out != m_in && i == 8 * b && i + 8 <= m_in.Length
    requires i + 8 <= m_out.Length
    requires BlocksDone(m, io, mode, key, m_out[..], m_in[..], b)
    modifies m_out
    ensures BlocksDone(m, io, mode, key, m_out[..], m_in[..], b + 1)
  {
    ghost var before := m_out[..];
    assert m_in[i..i + 8] == BlockAt(m_in[..], b);
    LibBlock(m, io, mode, m_out, m_in, i, key);
    assert m_out[..] == before[..8 * b] + BlockCipher(m, io, mode, key, BlockAt(m_in[..], b)) + before[8 * b + 8..];
    BlocksKept(m, io, mode, key, before, m_out[..], m_in[..], b);
  }

  /** The loop over i; the last block may reach past inlen. */
  method AllBlocks<W(!new), B(!new)>(m: Code<W>, io: Io<W, B>, mode: Mode, m_out: array<B>, m_in: array<B>, inlen: nat,
                                     key: seq<B>)
    requires Faithful(m, io) && |key| == KeyLength(mode)
    requires m_out != m_in && m_in.Length == m_out.Length == BUF_MAX_SIZE && inlen <= BUF_MAX_SIZE
    modifies m_out
    ensures BlocksDone(m, io, mode, key, m_out[..], m_in[..], (inlen + 7) / 8)
  {
    var i := 0;
    ghost var b := 0;
    while i < inlen
      invariant i == 8 * b && i <= inlen + 7
      invariant BlocksDone(m, io, mode, key, m_out[..], m_in[..], b)
    {
      NextBlock(m, io, mode, m_out, m_in, key, i, b);
      i, b := i + 8, b + 1;
    }
  }

  /** lib_des_encrypt, lib_des_decrypt, lib_des3_encrypt and lib_des3_decrypt, which
      differ only in the operation; `out` may be `input`. */
  method LibBuffer<W(!new), B(!new)>(m: Code<W>, io: Io<W, B>, mode: Mode, out: array<B>, input: array<B>, inlen: nat,
                                     key: seq<B>)
      returns (ghost whole: seq<B>)
    requires Faithful(m, io) && |key| == KeyLength(mode)
    requires inlen <= BUF_MAX_SIZE && inlen <= input.Length && inlen <= out.Length
    modifies out
    ensures |whole| == BUF_MAX_SIZE && out[..] == whole[..inlen] + old(out[inlen..])
    ensures BlocksDone(m, io, mode, key, whole, Padded(old(input[..inlen]), io.zeroByte), (inlen + 7) / 8)
  {
    var m_out, m_in := new B[BUF_MAX_SIZE](_ => io.zeroByte), new B[BUF_MAX_SIZE](_ => io.zeroByte);
    CopyInto(m_in, 0, input[..inlen]);
    assert m_in[..] == Padded(input[..inlen], io.zeroByte);
    AllBlocks(m, io, mode, m_out, m_in, inlen, key);
    whole := m_out[..];
    CopyInto(out, 0, m_out[..inlen]);
  }

  lemma PaddedPrefix<B>(s: seq<B>, zero: B, b: nat)
    requires |s| <= BUF_MAX_SIZE && 8 * b + 8 <= |s|
    ensures BlockAt(Padded(s, zero), b) == BlockAt(s, b)
  {
  }

  /** Whole blocks come back: what the decrypting call makes of the encrypting call's
      output agrees with the plaintext up to the last multiple of 8. */
  lemma BufferRoundTrip<W(!new), B(!new)>(m: Code<W>, io: Io<W, B>, triple: bool, key: seq<B>, plain: seq<B>,
                                          whole: seq<B>, cipher: seq<B>, back: seq<B>, b: nat)
    requires Faithful(m, io) && |key| == KeyLength(Mode(triple, false)) && |plain| <= BUF_MAX_SIZE
    requires 8 * b + 8 <= |plain|
    requires |whole| == |back| == BUF_MAX_SIZE && cipher == whole[..|plain|]
    requires BlocksDone(m, io, Mode(triple, false), key, whole, Padded(plain, io.zeroByte), (|plain| + 7) / 8)
    requires BlocksDone(m, io, Mode(triple, true), key, back, Padded(cipher, io.zeroByte), (|plain| + 7) / 8)
    ensures BlockAt(back, b) == BlockAt(plain, b)
  {
    assert BlockDone(m, io, Mode(triple, false), key, whole, Padded(plain, io.zeroByte), b);
    assert BlockDone(m, io, Mode(triple, true), key, back, Padded(cipher, io.zeroByte), b);
    PaddedPrefix(plain, io.zeroByte, b);
    PaddedPrefix(cipher, io.zeroByte, b);
    assert BlockAt(cipher, b) == BlockAt(whole, b);
    BlockUndone(m, io, triple, key, BlockAt(plain, b));
  }

  /** Encrypting and decrypting a buffer of any length up to 1024, in place or not:
      every whole block returns, so for a multiple of 8 the whole buffer does. */
  method RoundTrip<W(!new), B(!new)>(m: Code<W>, io: Io<W, B>, triple: bool, plain: array<B>, cipher: array<B>,
                                     back: array<B>, inlen: nat, key: seq<B>)
    requires Faithful(m, io) && |key| == KeyLength(Mode(triple, false)) && inlen <= BUF_MAX_SIZE
    requires inlen <= plain.Length && inlen <= cipher.Length && inlen <= back.Length
    modifies cipher, back
    ensures forall b :: 0 <= b < inlen / 8 ==> BlockAt(back[..], b) == BlockAt(old(plain[..]), b)
    ensures inlen % 8 == 0 ==> back[..inlen] == old(plain[..inlen])
  {
    ghost var text := plain[..inlen];
    ghost var whole := LibBuffer(m, io, Mode(triple, false), cipher, plain, inlen, key);
    ghost var secret := cipher[..inlen];
    assert secret == whole[..inlen];
    ghost var again := LibBuffer(m, io, Mode(triple, true), back, cipher, inlen, key);
    assert back[..inlen] == again[..inlen];
    forall b | 0 <= b < inlen / 8 ensures BlockAt(back[..], b) == BlockAt(text, b) {
      BufferRoundTrip(m, io, triple, key, text, whole, secret, again, b);
      assert BlockAt(back[..], b) == BlockAt(again, b);
    }
    SameBlocks(back[..inlen], text, inlen / 8);
    assert forall b :: 0 <= b < inlen / 8 ==> BlockAt(text, b) == BlockAt(old(plain[..]), b);
  }

  lemma SameBlocks<B>(s: seq<B>, s': seq<B>, n: nat)
    requires |s| == |s'| && n == |s| / 8 && forall b :: 0 <= b < n ==> BlockAt(s, b) == BlockAt(s', b)
    ensures |s| % 8 == 0 ==> s == s'
  {
    if |s| % 8 == 0 {
      forall k | 0 <= k < |s| ensures s[k] == s'[k] {
        assert BlockAt(s, k / 8)[k % 8] == s[k] && BlockAt(s', k / 8)[k % 8] == s'[k];
      }
    }
  }
}
