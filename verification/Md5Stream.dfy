/**
 md5_update and md5_finish: a message absorbed in pieces. The block function
 (md5_process) is a parameter, as is the type of the chaining state.
 */
module Md5Stream {
  import opened Words

  const TWO32: nat := 0x1_0000_0000
  const TWO64: nat := 0x1_0000_0000_0000_0000

  /** The state after all of a whole number of blocks. */
  function Absorb<S>(compress: (S, seq<byte>) -> S, s: S, m: seq<byte>): S {
    if |m| < 64 then s else compress(Absorb(compress, s, m[..|m| - 64]), m[|m| - 64..])
  }

  /** The length of what follows the last whole block: n modulo 64. */
  function Tail(n: nat): (r: nat)
    ensures r < 64 && r <= n
  {
    if n < 64 then n else Tail(n - 64)
  }

  /** The blocks of a message that are complete, and what is left over. */
  function Whole(m: seq<byte>): (w: seq<byte>)
    ensures |w| == |m| - Tail(|m|)
  {
    m[..|m| - Tail(|m|)]
  }

  function Rest(m: seq<byte>): (r: seq<byte>)
    ensures |r| == Tail(|m|)
  {
    m[|m| - Tail(|m|)..]
  }

  lemma AbsorbBlock<S>(compress: (S, seq<byte>) -> S, s: S, m: seq<byte>, block: seq<byte>)
    requires |block| == 64
    ensures Absorb(compress, s, m + block) == compress(Absorb(compress, s, m), block)
  {
    assert (m + block)[..|m + block| - 64] == m && (m + block)[|m + block| - 64..] == block;
  }

  /** Adding a length to the two-word counter: the carry is seen as a sum smaller
      than the summand. */
  lemma CounterStep(n: nat, k: nat, low: nat)
    requires 0 < k < TWO32 && low == (n % TWO32 + k) % TWO32
    ensures low == (n + k) % TWO32
    ensures (n + k) / TWO32 == n / TWO32 + (if low < k then 1 else 0)
  {
  }

  /** The two words of the length, as far as they reach. */
  predicate Counts(total0: nat, total1: nat, n: nat) {
    total0 == n % TWO32 && total1 == (n / TWO32) % TWO64
  }

  lemma HighStep(q: nat)
    ensures (q % TWO64 + 1) % TWO64 == (q + 1) % TWO64
  {
  }

  lemma SameRemainder(total0: nat, total1: nat, n: nat)
    requires Counts(total0, total1, n)
    ensures total0 % 64 == Tail(n)
  {
    TailIsRemainder(n);
    LowRemainder(n, n / TWO32, n % TWO32);
  }

  lemma LowRemainder(n: nat, high: nat, low: nat)
    requires n == TWO32 * high + low
    ensures low % 64 == n % 64
  {
    assert n == 64 * (0x400_0000 * high) + low;
  }

  lemma {:induction false} TailIsRemainder(n: nat)
    ensures Tail(n) == n % 64
  {
    if n >= 64 {
      TailIsRemainder(n - 64);
    }
  }

  lemma {:induction false} TailSum(n: nat, k: nat)
    requires Tail(n) + k <= 64
    ensures Tail(n + k) == if Tail(n) + k == 64 then 0 else Tail(n) + k
  {
    if n >= 64 {
      TailSum(n - 64, k);
    }
  }

  lemma WholeOf(m: seq<byte>)
    requires Tail(|m|) == 0
    ensures Whole(m) == m && Rest(m) == []
  {
  }

  lemma SliceSum<T>(m: seq<T>, more: seq<T>, k: nat)
    requires k <= |m|
    ensures (m + more)[..k] == m[..k] && (m + more)[k..] == m[k..] + more && m[..k] + (m[k..] + more) == m + more
  {
  }

  lemma NextSlice<T>(m: seq<T>, input: seq<T>, pos: nat)
    requires pos + 64 <= |input|
    ensures (m + input[..pos]) + input[pos..pos + 64] == m + input[..pos + 64]
  {
  }

  /** A block of a message is complete when the buffer is filled up. */
  lemma FilledBlock<S>(compress: (S, seq<byte>) -> S, s: S, m: seq<byte>, more: seq<byte>)
    requires Tail(|m|) + |more| == 64
    ensures Tail(|m + more|) == 0 && Whole(m + more) == m + more && Rest(m + more) == []
    ensures Absorb(compress, s, m + more) == compress(Absorb(compress, s, Whole(m)), Rest(m) + more)
  {
    TailSum(|m|, |more|);
    WholeOf(m + more);
    SliceSum(m, more, |m| - Tail(|m|));
    AbsorbBlock(compress, s, Whole(m), Rest(m) + more);
  }

  lemma WholeBlock<S>(compress: (S, seq<byte>) -> S, s: S, m: seq<byte>, block: seq<byte>)
    requires Tail(|m|) == 0 && |block| == 64
    ensures Tail(|m + block|) == 0 && Whole(m) == m && Whole(m + block) == m + block && Rest(m + block) == []
    ensures Absorb(compress, s, m + block) == compress(Absorb(compress, s, m), block)
  {
    TailSum(|m|, 64);
    WholeOf(m);
    WholeOf(m + block);
    AbsorbBlock(compress, s, m, block);
  }

  lemma DividedAt(m: seq<byte>, k: nat)
    requires k + Tail(|m|) == |m|
    ensures Whole(m) == m[..k] && Rest(m) == m[k..]
  {
  }

  lemma TailKept(m: seq<byte>, more: seq<byte>, k: nat)
    requires k + Tail(|m|) == |m| && Tail(|m|) + |more| < 64
    ensures Whole(m + more) == Whole(m) && Rest(m + more) == Rest(m) + more
  {
    TailGrows(m + more, |m|, |more|);
    SameDivision(m + more, m, more, k);
  }

  lemma TailGrows(s: seq<byte>, n: nat, k: nat)
    requires |s| == n + k && Tail(n) + k < 64
    ensures Tail(|s|) == Tail(n) + k
  {
    TailSum(n, k);
  }

  lemma SameDivision(s: seq<byte>, m: seq<byte>, more: seq<byte>, k: nat)
    requires s == m + more && k + Tail(|m|) == |m| && k + Tail(|s|) == |s|
    ensures Whole(s) == Whole(m) && Rest(s) == Rest(m) + more
  {
    DividedAt(m, k);
    DividedAt(s, k);
    SliceSum(m, more, k);
  }

  // -------------------------------------------------------------------- padding

  /** The low k bytes of a number, low-order first. */
  function LeBytes(n: nat, k: nat): (r: seq<byte>)
    ensures |r| == k
  {
    if k == 0 then [] else [LowByte(n)] + LeBytes(n / 256, k - 1)
  }

  function LowByte(n: nat): byte {
    (n % 256) as bv8
  }

  /** The zeros that take n + 1 bytes to 56 modulo 64. */
  function ZeroCount(n: nat): (z: nat)
    ensures z < 64 && Tail(n + 1 + z) == 56
  {
    TailSum(n, 56 - (if Tail(n) < 56 then Tail(n) else 56));
    if Tail(n) < 56 then 55 - Tail(n) else
      TailSum(n, 64 - Tail(n));
      TailSum(n + (64 - Tail(n)), 56);
      119 - Tail(n)
  }

  function Zeros(n: nat): (r: seq<byte>)
    ensures |r| == n
  {
    seq(n, _ => 0)
  }

  /** Sections 3.1 and 3.2 of RFC 1321: a one bit, zeros up to 56 mod 64, and the
      length in bits, modulo 2^64, in 8 bytes. */
  function Padded(m: seq<byte>): (p: seq<byte>)
    ensures Tail(|p|) == 0
  {
    TailSum(|m| + 1 + ZeroCount(|m|), 8);
    m + [0x80] + Zeros(ZeroCount(|m|)) + LeBytes(8 * |m|, 8)
  }

  lemma {:induction false} LeBytesCongruent(n: nat, n': nat, k: nat, c: int)
    requires n - n' == c * Pow256(k)
    ensures LeBytes(n, k) == LeBytes(n', k)
  {
    if k > 0 {
      var d := c * Pow256(k - 1);
      assert n - n' == 256 * d by {
        Regroup(c, Pow256(k - 1));
      }
      QuotientStep(n, n', d);
      LeBytesCongruent(n / 256, n' / 256, k - 1, c);
    }
  }

  lemma Regroup(c: int, p: int)
    ensures c * (256 * p) == 256 * (c * p)
  {
  }

  lemma QuotientStep(n: nat, n': nat, d: int)
    requires n - n' == 256 * d
    ensures n / 256 - n' / 256 == d && n % 256 == n' % 256
  {
  }

  function Pow256(k: nat): nat {
    if k == 0 then 1 else 256 * Pow256(k - 1)
  }

  function Shifted(n: nat, j: nat): nat {
    if j == 0 then n else Shifted(n / 256, j - 1)
  }

  lemma {:induction false} LeBytesAppend(n: nat, j: nat, k: nat)
    ensures LeBytes(n, j + k) == LeBytes(n, j) + LeBytes(Shifted(n, j), k)
  {
    if j > 0 {
      LeBytesAppend(n / 256, j - 1, k);
    }
  }

  lemma ShiftedBy4(n: nat)
    ensures Shifted(n, 4) == n / TWO32
  {
    assert Shifted(n, 4) == Shifted(n / 256, 3) == Shifted(n / 256 / 256, 2) == Shifted(n / 256 / 256 / 256, 1);
    assert n / 256 / 256 / 256 / 256 == n / TWO32;
  }

  /** The two words md5_finish stores are the low 64 bits of the bit length, also
      when the counter has wrapped. */
  lemma LengthBytes(len: nat, total0: nat, total1: nat, low: nat, high: nat)
    requires Counts(total0, total1, len)
    requires low == 8 * total0 && high == total0 / 0x2000_0000 + (8 * total1) % TWO64
    ensures LeBytes(low, 4) + LeBytes(high, 4) == LeBytes(8 * len, 8)
  {
    LeBytesAppend(8 * len, 4, 4);
    ShiftedBy4(8 * len);
    assert Pow256(4) == TWO32;
    var q := len / TWO32;
    assert 8 * len - low == (8 * q) * TWO32;
    LeBytesCongruent(8 * len, low, 4, 8 * q);
    HighWord(len, total0, total1, high);
    var c := (8 * len / TWO32 - high) / TWO32;
    LeBytesCongruent(8 * len / TWO32, high, 4, c);
  }

  lemma HighWord(len: nat, total0: nat, total1: nat, high: nat)
    requires Counts(total0, total1, len)
    requires high == total0 / 0x2000_0000 + (8 * total1) % TWO64
    ensures (8 * len / TWO32 - high) % TWO32 == 0
  {
    var q := len / TWO32;
    assert 8 * len / TWO32 == 8 * q + total0 / 0x2000_0000;
    var r := q / TWO64;
    assert q == TWO64 * r + total1;
    var w := 8 * total1 / TWO64;
    assert 8 * total1 == TWO64 * w + (8 * total1) % TWO64;
    assert 8 * len / TWO32 - high == TWO64 * (8 * r + w);
    assert TWO64 * (8 * r + w) == TWO32 * (TWO32 * (8 * r + w));
  }

  /** md5_context. */
  class Context<S> {
    var total0: nat
    var total1: nat
    var state: S
    const buffer: array<byte>

    const compress: (S, seq<byte>) -> S
    ghost const start: S
    ghost var absorbed: seq<byte>

    /** The context is the message absorbed so far: its length in two words, the
        state after its complete blocks, and the rest in the buffer. */
    ghost predicate Valid()
      reads this, buffer
    {
      && buffer.Length == 64
      && Counts(total0, total1, |absorbed|)
      && state == Absorb(compress, start, Whole(absorbed))
      && buffer[..Tail(|absorbed|)] == Rest(absorbed)
    }

    /** md5_starts. */
    constructor (compress: (S, seq<byte>) -> S, start: S)
      ensures Valid() && absorbed == [] && this.start == start && this.compress == compress && fresh(buffer)
    {
      total0, total1, state, absorbed := 0, 0, start, [];
      this.compress, this.start := compress, start;
      buffer := new byte[64](_ => 0);
    }
  
    /** Processes one block. */
    method Process(block: seq<byte>)
      modifies this`state
      ensures state == compress(old(state), block)
    {
      state := compress(state, block);
    }

    /** memcpy into the buffer. */
    method Keep(left: nat, bytes: seq<byte>)
      requires buffer.Length == 64 && left + |bytes| <= 64
      modifies buffer
      ensures buffer[..left + |bytes|] == old(buffer[..left]) + bytes
    {
      for k := 0 to |bytes|
        invariant forall q :: 0 <= q < left ==> buffer[q] == old(buffer[q])
        invariant forall q :: 0 <= q < k ==> buffer[left + q] == bytes[q]
      {
        buffer[left + k] := bytes[k];
      }
    }

    /** ctx->total[0] += ilen, with the carry. */
    method Count(ilen: nat, ghost n: nat)
      requires 0 < ilen < 0x8000_0000 && Counts(total0, total1, n)
      modifies this`total0, this`total1
      ensures Counts(total0, total1, n + ilen)
    {
      total0 := (total0 + ilen) % TWO32;
      CounterStep(n, ilen, total0);
      if total0 < ilen {
        total1 := (total1 + 1) % TWO64;
        HighStep(n / TWO32);
      }
    }

    /** What state and buffer hold after message m, the counter aside. */
    ghost predicate Holds(m: seq<byte>)
      reads this, buffer
    {
      && buffer.Length == 64 && state == Absorb(compress, start, Whole(m)) && buffer[..Tail(|m|)] == Rest(m)
    }

    /** The first branch: the buffer fills up. */
    method FillUp(left: nat, more: seq<byte>, ghost m: seq<byte>)
      requires Holds(m) && left == Tail(|m|) && left + |more| == 64
      modifies this`state, buffer
      ensures Holds(m + more)
    {
      Keep(left, more);
      assert buffer[..] == Rest(m) + more;
      FilledBlock(compress, start, m, more);
      Process(buffer[..]);
    }

    method TakeBlock(block: seq<byte>, ghost m: seq<byte>)
      requires Holds(m) && Tail(|m|) == 0 && |block| == 64
      modifies this`state
      ensures Holds(m + block) && Tail(|m + block|) == 0
    {
      WholeBlock(compress, start, m, block);
      Process(block);
    }

    method KeepTail(left: nat, more: seq<byte>, ghost m: seq<byte>)
      requires Holds(m) && left == Tail(|m|) && left + |more| < 64
      modifies buffer
      ensures Holds(m + more)
    {
      TailKept(m, more, |m| - left);
      Keep(left, more);
    }

    /** The loop over whole blocks of the input; `left` stays what it was. */
    method TakeBlocks(left: nat, input: seq<byte>, from: nat, ghost m: seq<byte>) returns (pos: nat)
      requires from <= |input| && Holds(m + input[..from]) && left == Tail(|m + input[..from]|)
      requires (left == 0 || |input| - from < 64 - left)
      modifies this`state
      ensures from <= pos <= |input| && |input| - pos < 64 - left
      ensures Holds(m + input[..pos]) && left == Tail(|m + input[..pos]|)
    {
      pos := from;
      ghost var seen := m + input[..pos];
      while |input| - pos >= 64
        invariant from <= pos <= |input| && (left == 0 || |input| - pos < 64 - left)
        invariant seen == m + input[..pos] && Holds(seen) && left == Tail(|seen|)
      {
        TakeBlock(input[pos..pos + 64], seen);
        NextSlice(m, input, pos);
        seen := seen + input[pos..pos + 64];
        pos := pos + 64;
      }
    }

    /** Everything md5_update does but count: fill up the buffer, process whole
        blocks, keep the tail. */
    method Take(left: nat, input: seq<byte>, ghost m: seq<byte>)
      requires Holds(m) && left == Tail(|m|)
      modifies this`state, buffer
      ensures Holds(m + input)
    {
      var from, kept := 0, left;
      assert m + input[..0] == m;
      if left != 0 && |input| >= 64 - left {
        from, kept := 64 - left, 0;
        FillUp(left, input[..from], m);
        TailSum(|m|, from);
      }
      var pos := TakeBlocks(kept, input, from, m);
      KeepTail(kept, input[pos..], m + input[..pos]);
      assert m + input[..pos] + input[pos..] == m + input;
    }

    /** md5_update: the context absorbs the bytes, however the message was split. */
    method Update(input: seq<byte>, ilen: int)
      requires Valid() && ilen <= |input| && ilen < 0x8000_0000
      modifies this, buffer
      ensures Valid() && absorbed == old(absorbed) + (if ilen <= 0 then [] else input[..ilen])
    {
      if ilen <= 0 {
        return;
      }
      ghost var m := absorbed;
      SameRemainder(total0, total1, |m|);
      var left := total0 % 64;
      Count(ilen, |m|);
      Take(left, input[..ilen], m);
      absorbed := m + input[..ilen];
    }
  
    /** md5_finish, up to storing the state: what is absorbed in the end is precisely
        the padded message. */
    method Finish() returns (digest: S)
      requires Valid()
      modifies this, buffer
      ensures digest == Absorb(compress, start, Padded(old(absorbed)))
    {
      ghost var m := absorbed;
      var msglen := LengthField();
      Pad();
      Update(msglen, 8);
      assert msglen[..8] == msglen;
      assert absorbed == Padded(m);
      WholeOf(Padded(m));
      digest := state;
    }

    method LengthField() returns (msglen: seq<byte>)
      requires Valid()
      ensures msglen == LeBytes(8 * |absorbed|, 8)
    {
      // total[1] << 3 has no bits below 8, so the | of the code is a sum
      var high := total0 / 0x2000_0000 + (8 * total1) % TWO64;
      var low := 8 * total0;
      LengthBytes(|absorbed|, total0, total1, low, high);
      msglen := LeBytes(low, 4) + LeBytes(high, 4);
    }

    /** A one bit and zeros, up to 56 bytes in a block. */
    method Pad()
      requires Valid()
      modifies this, buffer
      ensures Valid() && absorbed == old(absorbed) + ([0x80] + Zeros(ZeroCount(|old(absorbed)|)))
    {
      ghost var m := absorbed;
      SameRemainder(total0, total1, |m|);
      var last := total0 % 64;
      var padn := if last < 56 then 56 - last else 120 - last;
      var md5_padding := [0x80] + Zeros(63);
      Update(md5_padding, padn);
      assert md5_padding[..padn] == [0x80] + Zeros(ZeroCount(|m|));
    }
  }

  function Concat(pieces: seq<seq<byte>>): seq<byte> {
    if |pieces| == 0 then [] else Concat(pieces[..|pieces| - 1]) + pieces[|pieces| - 1]
  }

  /** Any number of updates, of any sizes, digest the concatenation. */
  method DigestPieces<S>(compress: (S, seq<byte>) -> S, start: S, pieces: seq<seq<byte>>) returns (digest: S)
    requires forall i :: 0 <= i < |pieces| ==> |pieces[i]| < 0x8000_0000
    ensures digest == Absorb(compress, start, Padded(Concat(pieces)))
  {
    var ctx := new Context<S>(compress, start);
    for i := 0 to |pieces|
      invariant ctx.Valid() && ctx.absorbed == Concat(pieces[..i]) && fresh(ctx) && fresh(ctx.buffer)
      invariant ctx.start == start && ctx.compress == compress
    {
      assert pieces[..i + 1][..i] == pieces[..i];
      ctx.Update(pieces[i], |pieces[i]|);
    }
    assert pieces[..|pieces|] == pieces;
    digest := ctx.Finish();
  }
}
