/**
 lib_aes_encrypt and lib_aes_decrypt: blocks of byte buffers, one by one.
 */
module AesBuffers {
  import opened AesCode
  import K = AesKeys
  import Q = AesRounds
  import C = AesCipher

  function BlockAt<B>(s: seq<B>, b: nat): (r: seq<B>)
    requires 16 * b + 16 <= |s|
    ensures |r| == 16
  {
    s[16 * b..16 * b + 16]
  }

  /** The blocks that are handled: a partial last block with whatever follows it in
      the buffer, and block 0 even when inlen is 0. */
  function Blocks(inlen: nat): (n: nat)
    ensures 1 <= n <= inlen / 16 + 1
  {
    if inlen == 0 then 1 else (inlen + 15) / 16
  }

  /** The blocks of a buffer, each taken through f. */
  ghost function Mapped<B>(f: seq<B> -> seq<B>, s: seq<B>, n: nat): (blocks: seq<seq<B>>)
    requires 16 * n <= |s|
    ensures |blocks| == n
  {
    seq(n, b requires 0 <= b < n => f(BlockAt(s, b)))
  }

  /** What a call leaves in the output. Block 0 is done once more at the end; in place
      that is a second time. */
  ghost function Written<B>(f: seq<B> -> seq<B>, s: seq<B>, inlen: nat, inPlace: bool): (blocks: seq<seq<B>>)
    requires 16 * Blocks(inlen) <= |s|
    ensures |blocks| == Blocks(inlen)
  {
    var blocks := Mapped(f, s, Blocks(inlen));
    if inPlace && inlen > 0 then blocks[0 := f(blocks[0])] else blocks
  }

  /** The buffer holds the first n of the blocks and is otherwise as it was. */
  ghost predicate HasBlocks<B>(was: seq<B>, s: seq<B>, blocks: seq<seq<B>>, n: nat) {
    && n <= |blocks| && 16 * |blocks| <= |s| == |was|
    && (forall b :: 0 <= b < n ==> BlockAt(s, b) == blocks[b])
    && (forall k :: 16 * n <= k < |s| ==> s[k] == was[k])
  }

  /** The bytes outside block b are those of s. */
  ghost predicate OnlyBlock<B>(s: seq<B>, s': seq<B>, b: nat) {
    |s'| == |s| && forall k :: 0 <= k < |s| && (k < 16 * b || 16 * b + 16 <= k) ==> s'[k] == s[k]
  }

  /** PUT_UINT32_BE of the four words of a block. */
  method PutBlock<B>(output: array<B>, b: nat, bytes: seq<B>)
    requires 16 * b + 16 <= output.Length && |bytes| == 16
    modifies output
    ensures BlockAt(output[..], b) == bytes && OnlyBlock(old(output[..]), output[..], b)
  {
    for k := 0 to 16
      invariant forall q :: 0 <= q < k ==> output[16 * b + q] == bytes[q]
      invariant forall q :: 0 <= q < output.Length && (q < 16 * b || 16 * b + k <= q) ==> output[q] == old(output[q])
    {
      output[16 * b + k] := bytes[k];
    }
  }

  /** A write to block b leaves every other block alone. */
  lemma OtherBlock<B>(s: seq<B>, s': seq<B>, b: nat, c: nat)
    requires OnlyBlock(s, s', b) && 16 * c + 16 <= |s| && b != c
    ensures BlockAt(s', c) == BlockAt(s, c)
  {
    assert c < b || b < c;
  }

  /** Block b, the next one or one already there, is written. */
  lemma OneMore<B>(was: seq<B>, s: seq<B>, s': seq<B>, blocks: seq<seq<B>>, n: nat, b: nat)
    requires HasBlocks(was, s, blocks, n) && b <= n && b < |blocks|
    requires OnlyBlock(s, s', b) && BlockAt(s', b) == blocks[b]
    ensures HasBlocks(was, s', blocks, if b == n then n + 1 else n)
  {
    forall c | 0 <= c < n && c != b ensures BlockAt(s', c) == blocks[c] {
      OtherBlock(s, s', b, c);
    }
  }

  /** Sixteen bytes to sixteen bytes. */
  ghost predicate KeepsLength<B>(f: seq<B> -> seq<B>, block: seq<B>) {
    |block| == 16 ==> |f(block)| == 16
  }

  ghost predicate OnBlocks<B(!new)>(f: seq<B> -> seq<B>) {
    forall block :: KeepsLength(f, block)
  }

  /** One block of the input through f to the same place of the output. */
  method BlockTo<B(!new)>(f: seq<B> -> seq<B>, output: array<B>, input: array<B>, b: nat, ghost was: seq<B>,
                          ghost goal: seq<seq<B>>, ghost n: nat)
    requires OnBlocks(f) && 16 * b + 16 <= input.Length && b <= n && b < |goal| && HasBlocks(was, output[..], goal, n)
    requires goal[b] == f(BlockAt(input[..], b))
    modifies output
    ensures HasBlocks(was, output[..], goal, if b == n then n + 1 else n)
  {
    ghost var before := output[..];
    var block := input[16 * b..16 * b + 16];
    assert block == BlockAt(input[..], b) && KeepsLength(f, block);
    PutBlock(output, b, f(block));
    OneMore(was, before, output[..], goal, n, b);
  }

  /** Blocks still to be done are as they were, also when they are done in place. */
  lemma NotYet<B>(was: seq<B>, s: seq<B>, blocks: seq<seq<B>>, n: nat, b: nat)
    requires HasBlocks(was, s, blocks, n) && n <= b && 16 * b + 16 <= |s|
    ensures BlockAt(s, b) == BlockAt(was, b)
  {
  }

  /** The next block of the loop. */
  method NextBlock<B(!new)>(f: seq<B> -> seq<B>, output: array<B>, input: array<B>, b: nat, ghost was: seq<B>,
                            ghost start: seq<B>, ghost n: nat)
    requires OnBlocks(f) && b < n && 16 * n <= input.Length == |start|
    requires HasBlocks(was, output[..], Mapped(f, start, n), b)
    requires if input == output then was == start else input[..] == start
    modifies output
    ensures HasBlocks(was, output[..], Mapped(f, start, n), b + 1)
    ensures input != output ==> input[..] == start
  {
    if input == output {
      NotYet(was, output[..], Mapped(f, start, n), b, b);
    }
    BlockTo(f, output, input, b, was, Mapped(f, start, n), b);
  }

  /** Block 0 once more. */
  lemma FirstAgain<B>(was: seq<B>, s: seq<B>, s': seq<B>, blocks: seq<seq<B>>, again: seq<B>)
    requires HasBlocks(was, s, blocks, |blocks|) && |blocks| > 0 && OnlyBlock(s, s', 0) && BlockAt(s', 0) == again
    ensures HasBlocks(was, s', blocks[0 := again], |blocks|)
  {
    forall c | 0 < c < |blocks| ensures BlockAt(s', c) == blocks[c] {
      OtherBlock(s, s', 0, c);
    }
  }

  method LastBlock<B(!new)>(f: seq<B> -> seq<B>, output: array<B>, input: array<B>, inlen: nat, ghost was: seq<B>,
                            ghost start: seq<B>)
    requires OnBlocks(f) && inlen > 0 && 16 * Blocks(inlen) <= input.Length == |start|
    requires HasBlocks(was, output[..], Mapped(f, start, Blocks(inlen)), Blocks(inlen))
    requires input != output ==> input[..] == start
    modifies output
    ensures HasBlocks(was, output[..], Written(f, start, inlen, input == output), Blocks(inlen))
  {
    ghost var before, blocks := output[..], Mapped(f, start, Blocks(inlen));
    var block := input[..16];
    assert block == BlockAt(input[..], 0) && KeepsLength(f, block);
    PutBlock(output, 0, f(block));
    FirstAgain(was, before, output[..], blocks, f(block));
    assert blocks[0 := blocks[0]] == blocks;
  }

  /** lib_aes_encrypt and lib_aes_decrypt, f being what they do to a block: the loop, the
      partial block, and block 0 once more. */
  method ProcessBuffer<B(!new)>(f: seq<B> -> seq<B>, output: array<B>, input: array<B>, inlen: nat)
    requires OnBlocks(f) && 16 * Blocks(inlen) <= input.Length && 16 * Blocks(inlen) <= output.Length
    modifies output
    ensures HasBlocks(old(output[..]), output[..], Written(f, old(input[..]), inlen, input == output), Blocks(inlen))
  {
    ghost var was, start, n := output[..], input[..], Blocks(inlen);
    for i := 0 to inlen / 16
      invariant HasBlocks(was, output[..], Mapped(f, start, n), i) && (input != output ==> input[..] == start)
    {
      NextBlock(f, output, input, i, was, start, n);
    }
    if inlen % 16 > 0 {
      NextBlock(f, output, input, inlen / 16, was, start, n);
    }
    if inlen == 0 {
      NextBlock(f, output, input, 0, was, start, n);
    } else {
      LastBlock(f, output, input, inlen, was, start);
    }
  }

  /** Two ways to do a block that agree. */
  ghost predicate AgreeOn<B>(f: seq<B> -> seq<B>, g: seq<B> -> seq<B>, block: seq<B>) {
    |block| == 16 ==> f(block) == g(block)
  }

  lemma WrittenAgrees<B(!new)>(f: seq<B> -> seq<B>, g: seq<B> -> seq<B>, s: seq<B>, inlen: nat, inPlace: bool)
    requires 16 * Blocks(inlen) <= |s| && OnBlocks(f) && forall block :: AgreeOn(f, g, block)
    ensures Written(f, s, inlen, inPlace) == Written(g, s, inlen, inPlace)
  {
    var n := Blocks(inlen);
    forall b | 0 <= b < n ensures Mapped(f, s, n)[b] == Mapped(g, s, n)[b] {
      assert AgreeOn(f, g, BlockAt(s, b));
    }
    assert KeepsLength(f, BlockAt(s, 0)) && AgreeOn(f, g, f(BlockAt(s, 0)));
  }

  // ---------------------------------------------------------------- with a key

  function EncryptOf<W, B>(m: Code<W, B>, rk: seq<W>, nr: nat): seq<B> -> seq<B>
    requires |rk| == 64
  {
    block => if |block| == 16 then Q.EncryptBlock(m, rk, nr, block) else block
  }

  function DecryptOf<W, B>(m: Code<W, B>, rk: seq<W>, nr: nat): seq<B> -> seq<B>
    requires |rk| == 64
  {
    block => if |block| == 16 then Q.DecryptBlock(m, rk, nr, block) else block
  }

  /** The cipher and the inverse cipher of FIPS 197 under a key. */
  function CipherOf<B>(ar: C.Arithmetic<B>, key: seq<B>): seq<B> -> seq<B>
    requires Q.IsCipherKey(key)
  {
    block => if |block| == 16 then Q.Cipher(ar, key, block) else block
  }

  function InverseOf<B>(ar: C.Arithmetic<B>, key: seq<B>): seq<B> -> seq<B>
    requires Q.IsCipherKey(key)
  {
    block => if |block| == 16 then Q.EqInvCipher(ar, key, block) else block
  }

  lemma EncryptOfIs<W, B(!new)>(m: Code<W, B>, rk: seq<W>, nr: nat, key: seq<B>)
    requires |rk| == 64 && Q.IsCipherKey(key)
    requires forall block: seq<B> {:trigger Q.EncryptAgrees(m, rk, nr, key, block)} ::
               |block| == 16 ==> Q.EncryptAgrees(m, rk, nr, key, block)
    ensures OnBlocks(EncryptOf(m, rk, nr))
    ensures forall block :: AgreeOn(EncryptOf(m, rk, nr), CipherOf(m.ar, key), block)
  {
    forall block ensures AgreeOn(EncryptOf(m, rk, nr), CipherOf(m.ar, key), block) {
      assert |block| == 16 ==> Q.EncryptAgrees(m, rk, nr, key, block);
    }
  }

  lemma DecryptOfIs<W, B(!new)>(m: Code<W, B>, rk: seq<W>, nr: nat, key: seq<B>)
    requires |rk| == 64 && Q.IsCipherKey(key)
    requires forall block: seq<B> {:trigger Q.DecryptAgrees(m, rk, nr, key, block)} ::
               |block| == 16 ==> Q.DecryptAgrees(m, rk, nr, key, block)
    ensures OnBlocks(DecryptOf(m, rk, nr))
    ensures forall block :: AgreeOn(DecryptOf(m, rk, nr), InverseOf(m.ar, key), block)
  {
    forall block ensures AgreeOn(DecryptOf(m, rk, nr), InverseOf(m.ar, key), block) {
      assert |block| == 16 ==> Q.DecryptAgrees(m, rk, nr, key, block);
    }
  }

  predicate IsKeySize<B>(key: seq<B>, keysize: nat) {
    (keysize == 128 || keysize == 192 || keysize == 256) && 8 * |key| == keysize
  }

  /** lib_aes_encrypt, with the tables already generated. */
  method EncryptLibrary<W, B(!new)>(m: Code<W, B>, zero: W, output: array<B>, input: array<B>, inlen: nat, key: seq<B>,
                                    keysize: nat)
    requires Lawful(m) && IsKeySize(key, keysize)
    requires 16 * Blocks(inlen) <= input.Length && 16 * Blocks(inlen) <= output.Length
    modifies output
    ensures HasBlocks(old(output[..]), output[..],
                      Written(CipherOf(m.ar, key), old(input[..]), inlen, input == output), Blocks(inlen))
  {
    var ctx := new K.Context(zero);
    K.SetKey(m, ctx, key, keysize);
    var rk, nr := ctx.erk[..], ctx.nr;
    Q.EncryptAlwaysAgrees(m, rk, nr, key);
    EncryptOfIs(m, rk, nr, key);
    WrittenAgrees(EncryptOf(m, rk, nr), CipherOf(m.ar, key), input[..], inlen, input == output);
    ProcessBuffer(EncryptOf(m, rk, nr), output, input, inlen);
  }

  /** lib_aes_decrypt, with the tables already generated. */
  method DecryptLibrary<W, B(!new)>(m: Code<W, B>, zero: W, output: array<B>, input: array<B>, inlen: nat, key: seq<B>,
                                    keysize: nat)
    requires Lawful(m) && IsKeySize(key, keysize)
    requires 16 * Blocks(inlen) <= input.Length && 16 * Blocks(inlen) <= output.Length
    modifies output
    ensures HasBlocks(old(output[..]), output[..],
                      Written(InverseOf(m.ar, key), old(input[..]), inlen, input == output), Blocks(inlen))
  {
    var ctx := new K.Context(zero);
    K.SetKey(m, ctx, key, keysize);
    var rk, nr := ctx.drk[..], ctx.nr;
    Q.DecryptAlwaysAgrees(m, rk, nr, key);
    DecryptOfIs(m, rk, nr, key);
    WrittenAgrees(DecryptOf(m, rk, nr), InverseOf(m.ar, key), input[..], inlen, input == output);
    ProcessBuffer(DecryptOf(m, rk, nr), output, input, inlen);
  }

  lemma SameBlocks<B>(s: seq<B>, s': seq<B>, n: nat)
    requires 16 * n <= |s| && 16 * n <= |s'| && forall b :: 0 <= b < n ==> BlockAt(s, b) == BlockAt(s', b)
    ensures s[..16 * n] == s'[..16 * n]
  {
    forall k | 0 <= k < 16 * n ensures s[k] == s'[k] {
      var b := k / 16;
      assert BlockAt(s, b)[k - 16 * b] == s[k] && BlockAt(s', b)[k - 16 * b] == s'[k];
    }
  }

  // ------------------------------------------------------------- there and back

  ghost predicate UndoneAt<B>(f: seq<B> -> seq<B>, g: seq<B> -> seq<B>, block: seq<B>) {
    |block| == 16 ==> |f(block)| == 16 && g(f(block)) == block
  }

  lemma CipherUndone<B(!new)>(ar: C.Arithmetic<B>, key: seq<B>)
    requires C.Lawful(ar) && Q.IsCipherKey(key)
    ensures forall block :: UndoneAt(CipherOf(ar, key), InverseOf(ar, key), block)
  {
    forall block ensures UndoneAt(CipherOf(ar, key), InverseOf(ar, key), block) {
      if |block| == 16 { Q.CipherInverts(ar, key, block); }
    }
  }

  /** Block 0 comes back when it was done equally often in both directions, or when doing
      it once more does not change it. */
  ghost predicate FirstComesBack<B>(f: seq<B> -> seq<B>, g: seq<B> -> seq<B>, block: seq<B>, inlen: nat,
                                    there: bool, back: bool) {
    there == back || inlen == 0 || (if there then f(block) == block else g(block) == block)
  }

  /** Blocks after the first come back. */
  lemma LaterBack<B(!new)>(f: seq<B> -> seq<B>, g: seq<B> -> seq<B>, plain: seq<B>, cipher: seq<B>, last: seq<B>,
                           inlen: nat, there: bool, back: bool, b: nat)
    requires 0 < b < Blocks(inlen) && 16 * Blocks(inlen) <= |plain| && 16 * Blocks(inlen) <= |cipher|
    requires 16 * Blocks(inlen) <= |last| && UndoneAt(f, g, BlockAt(plain, b))
    requires BlockAt(cipher, b) == Written(f, plain, inlen, there)[b]
    requires BlockAt(last, b) == Written(g, cipher, inlen, back)[b]
    ensures BlockAt(last, b) == BlockAt(plain, b)
  {
  }

  lemma FirstBack<B(!new)>(f: seq<B> -> seq<B>, g: seq<B> -> seq<B>, plain: seq<B>, cipher: seq<B>, last: seq<B>,
                           inlen: nat, there: bool, back: bool)
    requires 16 * Blocks(inlen) <= |plain| && 16 * Blocks(inlen) <= |cipher| && 16 * Blocks(inlen) <= |last|
    requires forall block :: UndoneAt(f, g, block)
    requires BlockAt(cipher, 0) == Written(f, plain, inlen, there)[0]
    requires BlockAt(last, 0) == Written(g, cipher, inlen, back)[0]
    ensures BlockAt(last, 0) == BlockAt(plain, 0) <==> FirstComesBack(f, g, BlockAt(plain, 0), inlen, there, back)
  {
    var x := BlockAt(plain, 0);
    assert UndoneAt(f, g, x) && UndoneAt(f, g, f(x));
  }

  /** Decrypting the encrypted blocks gives the buffer back if and only if block 0 does. */
  lemma BlocksRoundTrip<B(!new)>(f: seq<B> -> seq<B>, g: seq<B> -> seq<B>, plain: seq<B>, cipher: seq<B>,
                                 last: seq<B>, inlen: nat, there: bool, back: bool)
    requires 16 * Blocks(inlen) <= |plain| && 16 * Blocks(inlen) <= |cipher| && 16 * Blocks(inlen) <= |last|
    requires forall block :: UndoneAt(f, g, block)
    requires forall b :: 0 <= b < Blocks(inlen) ==> BlockAt(cipher, b) == Written(f, plain, inlen, there)[b]
    requires forall b :: 0 <= b < Blocks(inlen) ==> BlockAt(last, b) == Written(g, cipher, inlen, back)[b]
    ensures last[..16 * Blocks(inlen)] == plain[..16 * Blocks(inlen)] <==>
            FirstComesBack(f, g, BlockAt(plain, 0), inlen, there, back)
  {
    var n := Blocks(inlen);
    FirstBack(f, g, plain, cipher, last, inlen, there, back);
    forall b | 0 < b < n ensures BlockAt(last, b) == BlockAt(plain, b) {
      assert UndoneAt(f, g, BlockAt(plain, b));
      LaterBack(f, g, plain, cipher, last, inlen, there, back, b);
    }
    if BlockAt(last, 0) == BlockAt(plain, 0) {
      SameBlocks(last, plain, n);
    }
  }
}
