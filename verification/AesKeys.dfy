/**
 aes_set_key: the key schedule of section 5.2 of FIPS 197, and the decryption
 schedule, which applies InvMixColumns to the inner round keys through tables.
 */
module AesKeys {
  import opened AesCode
  import C = AesCipher
  import R = RoundCipher

  type Col<B> = C.Col<B>
  type Block<B> = C.Block<B>

  // --------------------------------------------------- KeyExpansion of FIPS 197

  function SubWord<B>(ar: C.Arithmetic<B>, c: Col<B>): Col<B> {
    C.SubCol(ar, c, c, c, c)
  }

  function RotWord<B>(c: Col<B>): Col<B> {
    C.Col(c.b, c.c, c.d, c.a)
  }

  function Rcon<B>(ar: C.Arithmetic<B>, i: nat): Col<B> {
    C.Col(ar.rcon(i), ar.zero, ar.zero, ar.zero)
  }

  predicate IsKey<B>(key: seq<B>, nk: nat) {
    (nk == 4 || nk == 6 || nk == 8) && |key| == 4 * nk
  }

  function KeyWord<B>(ar: C.Arithmetic<B>, key: seq<B>, nk: nat, i: nat): Col<B>
    requires IsKey(key, nk)
  {
    if i < nk then
      C.Col(key[4 * i], key[4 * i + 1], key[4 * i + 2], key[4 * i + 3])
    else
      C.AddCol(ar, KeyWord(ar, key, nk, i - nk), Scrambled(ar, KeyWord(ar, key, nk, i - 1), nk, i))
  }

  function Scrambled<B>(ar: C.Arithmetic<B>, temp: Col<B>, nk: nat, i: nat): Col<B>
    requires 0 < nk <= i
  {
    if i % nk == 0 then C.AddCol(ar, SubWord(ar, RotWord(temp)), Rcon(ar, i / nk - 1))
    else if nk > 6 && i % nk == 4 then SubWord(ar, temp)
    else temp
  }

  // ----------------------------------------------------------------- code words

  /** RK[0] ^ RCON[i] ^ the substituted and rotated last word. */
  function HeadWord<W, B>(m: Code<W, B>, first: W, rcon: W, last: W): W {
    m.join(m.xor(first, rcon), m.fsb(m.byte1(last)), m.fsb(m.byte2(last)), m.fsb(m.byte3(last)), m.fsb(m.byte0(last)))
  }

  /** The extra substitution of 256-bit keys. */
  function MiddleWord<W, B>(m: Code<W, B>, first: W, last: W): W {
    m.join(first, m.fsb(m.byte0(last)), m.fsb(m.byte1(last)), m.fsb(m.byte2(last)), m.fsb(m.byte3(last)))
  }

  lemma HeadWordIs<W, B(!new)>(m: Code<W, B>, first: Col<B>, rcon: Col<B>, last: Col<B>)
    requires Lawful(m)
    ensures HeadWord(m, Word(m, first), Word(m, rcon), Word(m, last))
         == Word(m, C.AddCol(m.ar, first, C.AddCol(m.ar, SubWord(m.ar, RotWord(last)), rcon)))
  {
    assert Unpacks(m, last) && Xors(m, first, rcon);
    var rotated := RotWord(last);
    assert Substitutes(m, m.fsb, C.AddCol(m.ar, first, rcon), rotated,
                       C.SubCol(m.ar, rotated, rotated, rotated, rotated));
    AddColAssociates(m.ar, first, rcon, SubWord(m.ar, RotWord(last)));
    AddColCommutes(m.ar, rcon, SubWord(m.ar, RotWord(last)));
  }

  lemma MiddleWordIs<W, B(!new)>(m: Code<W, B>, first: Col<B>, last: Col<B>)
    requires Lawful(m)
    ensures MiddleWord(m, Word(m, first), Word(m, last)) == Word(m, C.AddCol(m.ar, first, SubWord(m.ar, last)))
  {
    assert Unpacks(m, last) && Substitutes(m, m.fsb, first, last, C.SubCol(m.ar, last, last, last, last));
  }

  // ------------------------------------------------------------------ expansion

  /** The first `n` words of the schedule are in place. */
  predicate Expanded<W(==), B>(m: Code<W, B>, s: seq<W>, key: seq<B>, nk: nat, n: nat) {
    && IsKey(key, nk) && |s| == 64 && n <= 64
    && forall i :: 0 <= i < n ==> s[i] == Word(m, KeyWord(m.ar, key, nk, i))
  }

  lemma ExpandedStep<W, B>(m: Code<W, B>, s: seq<W>, key: seq<B>, nk: nat, n: nat, s': seq<W>)
    requires Expanded(m, s, key, nk, n) && n < 64 && s' == s[n := Word(m, KeyWord(m.ar, key, nk, n))]
    ensures Expanded(m, s', key, nk, n + 1)
  {
  }

  lemma ChainIs<W, B(!new)>(m: Code<W, B>, s: seq<W>, key: seq<B>, nk: nat, n: nat)
    requires Lawful(m) && Expanded(m, s, key, nk, n) && nk < n && n % nk != 0 && (nk == 8 ==> n % nk != 4)
    ensures m.xor(s[n - nk], s[n - 1]) == Word(m, KeyWord(m.ar, key, nk, n))
  {
    XorsWord(m, KeyWord(m.ar, key, nk, n - nk), KeyWord(m.ar, key, nk, n - 1));
  }

  lemma Multiple(nk: nat, i: nat, n: nat)
    requires (nk == 4 || nk == 6 || nk == 8) && n == nk * (i + 1)
    ensures n % nk == 0 && n / nk == i + 1
  {
    if nk == 4 {
    } else if nk == 6 {
    } else {
    }
  }

  lemma HeadIs<W, B(!new)>(m: Code<W, B>, s: seq<W>, key: seq<B>, nk: nat, n: nat, i: nat)
    requires Lawful(m) && Expanded(m, s, key, nk, n) && nk <= n && n % nk == 0 && n / nk == i + 1 && i < 10
    ensures HeadWord(m, s[n - nk], m.rcon(i), s[n - 1]) == Word(m, KeyWord(m.ar, key, nk, n))
  {
    assert RconIs(m, i);
    HeadWordIs(m, KeyWord(m.ar, key, nk, n - nk), Rcon(m.ar, i), KeyWord(m.ar, key, nk, n - 1));
  }

  lemma MiddleIs<W, B(!new)>(m: Code<W, B>, s: seq<W>, key: seq<B>, n: nat)
    requires Lawful(m) && Expanded(m, s, key, 8, n) && 8 < n && n % 8 == 4
    ensures MiddleWord(m, s[n - 8], s[n - 1]) == Word(m, KeyWord(m.ar, key, 8, n))
  {
    MiddleWordIs(m, KeyWord(m.ar, key, 8, n - 8), KeyWord(m.ar, key, 8, n - 1));
  }

  method LoadKey<W, B>(m: Code<W, B>, key: seq<B>, nk: nat, erk: array<W>)
    requires IsKey(key, nk) && erk.Length == 64
    modifies erk
    ensures Expanded(m, erk[..], key, nk, nk)
  {
    for i := 0 to nk
      invariant Expanded(m, erk[..], key, nk, i)
    {
      ghost var s := erk[..];
      erk[i] := m.pack(key[4 * i], key[4 * i + 1], key[4 * i + 2], key[4 * i + 3]);
      ExpandedStep(m, s, key, nk, i, erk[..]);
    }
  }

  /** A word that is the sum of its predecessor and the word nk before it. */
  method Chain<W, B(!new)>(m: Code<W, B>, erk: array<W>, n: nat, ghost key: seq<B>, nk: nat)
    requires Lawful(m) && erk.Length == 64 && Expanded(m, erk[..], key, nk, n)
    requires nk < n < 64 && n % nk != 0 && (nk == 8 ==> n % nk != 4)
    modifies erk
    ensures Expanded(m, erk[..], key, nk, n + 1)
  {
    ghost var s := erk[..];
    ChainIs(m, s, key, nk, n);
    erk[n] := m.xor(erk[n - nk], erk[n - 1]);
    ExpandedStep(m, s, key, nk, n, erk[..]);
  }

  method Head<W, B(!new)>(m: Code<W, B>, erk: array<W>, i: nat, ghost key: seq<B>, nk: nat)
    requires Lawful(m) && erk.Length == 64 && Expanded(m, erk[..], key, nk, nk * (i + 1))
    requires i < 10 && nk <= nk * (i + 1) < 64
    modifies erk
    ensures Expanded(m, erk[..], key, nk, nk * (i + 1) + 1)
  {
    ghost var s := erk[..];
    var n := nk * (i + 1);
    Multiple(nk, i, n);
    HeadIs(m, s, key, nk, n, i);
    erk[n] := HeadWord(m, erk[n - nk], m.rcon(i), erk[n - 1]);
    ExpandedStep(m, s, key, nk, n, erk[..]);
  }

  method Middle<W, B(!new)>(m: Code<W, B>, erk: array<W>, n: nat, ghost key: seq<B>)
    requires Lawful(m) && erk.Length == 64 && Expanded(m, erk[..], key, 8, n)
    requires 8 < n < 64 && n % 8 == 4
    modifies erk
    ensures Expanded(m, erk[..], key, 8, n + 1)
  {
    ghost var s := erk[..];
    MiddleIs(m, s, key, n);
    erk[n] := MiddleWord(m, erk[n - 8], erk[n - 1]);
    ExpandedStep(m, s, key, 8, n, erk[..]);
  }

  method Expand128<W, B(!new)>(m: Code<W, B>, erk: array<W>, ghost key: seq<B>)
    requires Lawful(m) && erk.Length == 64 && Expanded(m, erk[..], key, 4, 4)
    modifies erk
    ensures Expanded(m, erk[..], key, 4, 44)
  {
    for i := 0 to 10
      invariant Expanded(m, erk[..], key, 4, 4 * (i + 1))
    {
      var b := 4 * i;
      Head(m, erk, i, key, 4);
      Chain(m, erk, b + 5, key, 4);
      Chain(m, erk, b + 6, key, 4);
      Chain(m, erk, b + 7, key, 4);
    }
  }

  method Expand192<W, B(!new)>(m: Code<W, B>, erk: array<W>, ghost key: seq<B>)
    requires Lawful(m) && erk.Length == 64 && Expanded(m, erk[..], key, 6, 6)
    modifies erk
    ensures Expanded(m, erk[..], key, 6, 54)
  {
    for i := 0 to 8
      invariant Expanded(m, erk[..], key, 6, 6 * (i + 1))
    {
      var b := 6 * i;
      Head(m, erk, i, key, 6);
      Chain(m, erk, b + 7, key, 6);
      Chain(m, erk, b + 8, key, 6);
      Chain(m, erk, b + 9, key, 6);
      Chain(m, erk, b + 10, key, 6);
      Chain(m, erk, b + 11, key, 6);
    }
  }

  method Expand256<W, B(!new)>(m: Code<W, B>, erk: array<W>, ghost key: seq<B>)
    requires Lawful(m) && erk.Length == 64 && Expanded(m, erk[..], key, 8, 8)
    modifies erk
    ensures Expanded(m, erk[..], key, 8, 64)
  {
    for i := 0 to 7
      invariant Expanded(m, erk[..], key, 8, 8 * (i + 1))
    {
      var b := 8 * i;
      Head(m, erk, i, key, 8);
      Chain(m, erk, b + 9, key, 8);
      Chain(m, erk, b + 10, key, 8);
      Chain(m, erk, b + 11, key, 8);
      Middle(m, erk, b + 12, key);
      Chain(m, erk, b + 13, key, 8);
      Chain(m, erk, b + 14, key, 8);
      Chain(m, erk, b + 15, key, 8);
    }
  }

  // --------------------------------------------------------------- round keys

  function RoundKey<B>(ar: C.Arithmetic<B>, key: seq<B>, nk: nat, r: nat): Block<B>
    requires IsKey(key, nk)
  {
    C.Block(KeyWord(ar, key, nk, 4 * r), KeyWord(ar, key, nk, 4 * r + 1), KeyWord(ar, key, nk, 4 * r + 2),
            KeyWord(ar, key, nk, 4 * r + 3))
  }

  /** The round keys of a cipher key. */
  function RoundKeys<B>(ar: C.Arithmetic<B>, key: seq<B>, nk: nat): (keys: seq<Block<B>>)
    requires IsKey(key, nk)
    ensures |keys| == nk + 7
  {
    seq(nk + 7, r requires r >= 0 => RoundKey(ar, key, nk, r))
  }

  /** The round keys of the equivalent inverse cipher. */
  function InverseKey<B>(ar: C.Arithmetic<B>, keys: seq<Block<B>>, r: nat): Block<B>
    requires r < |keys|
  {
    var k := keys[|keys| - 1 - r];
    if r == 0 || r == |keys| - 1 then k else C.InvMix(ar, k)
  }

  function InverseKeys<B>(ar: C.Arithmetic<B>, keys: seq<Block<B>>): (inverse: seq<Block<B>>)
    ensures |inverse| == |keys|
  {
    seq(|keys|, r requires 0 <= r < |keys| => InverseKey(ar, keys, r))
  }

  lemma InverseKeysSchedule<B>(ar: C.Arithmetic<B>, keys: seq<Block<B>>)
    requires |keys| >= 2
    ensures R.InverseSchedule(C.Parts(ar), keys, InverseKeys(ar, keys))
  {
  }

  /** A round key in four consecutive words. */
  predicate WordsAt<W(==), B>(m: Code<W, B>, s: seq<W>, i: nat, k: Block<B>) {
    && i + 4 <= |s| && s[i] == Word(m, k.w0) && s[i + 1] == Word(m, k.w1)
    && s[i + 2] == Word(m, k.w2) && s[i + 3] == Word(m, k.w3)
  }

  predicate Scheduled<W(==), B>(m: Code<W, B>, s: seq<W>, keys: seq<Block<B>>, n: nat) {
    n <= |keys| && |s| == 64 && forall r :: 0 <= r < n ==> WordsAt(m, s, 4 * r, keys[r])
  }

  lemma ExpandedIsScheduled<W, B>(m: Code<W, B>, s: seq<W>, key: seq<B>, nk: nat, n: nat)
    requires Expanded(m, s, key, nk, n) && n >= 4 * (nk + 7)
    ensures Scheduled(m, s, RoundKeys(m.ar, key, nk), nk + 7)
  {
    var keys := RoundKeys(m.ar, key, nk);
    forall r | 0 <= r < nk + 7 ensures WordsAt(m, s, 4 * r, keys[r]) {
      assert keys[r] == RoundKey(m.ar, key, nk, r);
    }
  }

  lemma ScheduledStep<W, B>(m: Code<W, B>, s: seq<W>, keys: seq<Block<B>>, n: nat, s': seq<W>)
    requires Scheduled(m, s, keys, n) && n < |keys| && |s'| == 64 && WordsAt(m, s', 4 * n, keys[n])
    requires forall i :: 0 <= i < 4 * n ==> s'[i] == s[i]
    ensures Scheduled(m, s', keys, n + 1)
  {
    forall r | 0 <= r < n + 1 ensures WordsAt(m, s', 4 * r, keys[r]) {
      assert r < n ==> WordsAt(m, s, 4 * r, keys[r]);
    }
  }

  lemma MixedKey<W, B(!new)>(m: Code<W, B>, s: seq<W>, i: nat, k: Block<B>)
    requires Lawful(m) && WordsAt(m, s, i, k)
    ensures KeyMix(m, s[i]) == Word(m, C.InvMix(m.ar, k).w0) && KeyMix(m, s[i + 1]) == Word(m, C.InvMix(m.ar, k).w1)
    ensures KeyMix(m, s[i + 2]) == Word(m, C.InvMix(m.ar, k).w2) && KeyMix(m, s[i + 3]) == Word(m, C.InvMix(m.ar, k).w3)
  {
    KeyMixIs(m, k.w0);
    KeyMixIs(m, k.w1);
    KeyMixIs(m, k.w2);
    KeyMixIs(m, k.w3);
  }

  /** Stores four words; the rest of the array stays. */
  method Store4<W>(a: array<W>, i: nat, x0: W, x1: W, x2: W, x3: W)
    requires i + 4 <= a.Length
    modifies a
    ensures a[i] == x0 && a[i + 1] == x1 && a[i + 2] == x2 && a[i + 3] == x3
    ensures forall j :: 0 <= j < a.Length && (j < i || i + 4 <= j) ==> a[j] == old(a[j])
  {
    a[i], a[i + 1], a[i + 2], a[i + 3] := x0, x1, x2, x3;
  }

  /** Copies an outer round key from the word at `rk`. */
  method CopyKey<W, B>(m: Code<W, B>, erk: array<W>, rk: nat, drk: array<W>, r: nat, ghost keys: seq<Block<B>>)
    requires erk != drk && erk.Length == drk.Length == 64 && r < |keys| <= 16 && (r == 0 || r == |keys| - 1)
    requires Scheduled(m, erk[..], keys, |keys|) && Scheduled(m, drk[..], InverseKeys(m.ar, keys), r)
    requires rk == 4 * (|keys| - 1 - r)
    modifies drk
    ensures Scheduled(m, drk[..], InverseKeys(m.ar, keys), r + 1)
  {
    ghost var s := drk[..];
    assert WordsAt(m, erk[..], rk, keys[|keys| - 1 - r]);
    Store4(drk, 4 * r, erk[rk], erk[rk + 1], erk[rk + 2], erk[rk + 3]);
    ScheduledStep(m, s, InverseKeys(m.ar, keys), r, drk[..]);
  }

  /** Stores an inner round key after InvMixColumns. */
  method MixKey<W, B(!new)>(m: Code<W, B>, erk: array<W>, rk: nat, drk: array<W>, r: nat, ghost keys: seq<Block<B>>)
    requires Lawful(m) && erk != drk && erk.Length == drk.Length == 64 && 0 < r < |keys| - 1 < 16
    requires Scheduled(m, erk[..], keys, |keys|) && Scheduled(m, drk[..], InverseKeys(m.ar, keys), r)
    requires rk == 4 * (|keys| - 1 - r)
    modifies drk
    ensures Scheduled(m, drk[..], InverseKeys(m.ar, keys), r + 1)
  {
    ghost var s := drk[..];
    assert WordsAt(m, erk[..], rk, keys[|keys| - 1 - r]);
    MixedKey(m, erk[..], rk, keys[|keys| - 1 - r]);
    Store4(drk, 4 * r, KeyMix(m, erk[rk]), KeyMix(m, erk[rk + 1]), KeyMix(m, erk[rk + 2]), KeyMix(m, erk[rk + 3]));
    ScheduledStep(m, s, InverseKeys(m.ar, keys), r, drk[..]);
  }

  /** The decryption schedule; RK walks back two round keys for each it passes. */
  method InvertSchedule<W, B(!new)>(m: Code<W, B>, erk: array<W>, drk: array<W>, nr: nat, ghost keys: seq<Block<B>>)
    requires Lawful(m) && erk != drk && erk.Length == drk.Length == 64 && |keys| == nr + 1 && 0 < nr < 16
    requires Scheduled(m, erk[..], keys, |keys|)
    modifies drk
    ensures Scheduled(m, drk[..], InverseKeys(m.ar, keys), nr + 1)
  {
    var rk := 4 * nr;
    CopyKey(m, erk, rk, drk, 0, keys);
    rk := rk + 4;
    for i := 1 to nr
      invariant rk == 4 * (nr - i) + 8
      invariant Scheduled(m, drk[..], InverseKeys(m.ar, keys), i)
      invariant Scheduled(m, erk[..], keys, |keys|)
    {
      rk := rk - 8;
      MixKey(m, erk, rk, drk, i, keys);
      rk := rk + 4;
    }
    rk := rk - 8;
    CopyKey(m, erk, rk, drk, nr, keys);
  }

  /** aes_context. */
  class Context<W> {
    const erk: array<W>
    const drk: array<W>
    var nr: nat

    constructor (zero: W)
      ensures erk.Length == 64 && drk.Length == 64 && erk != drk && fresh(erk) && fresh(drk)
    {
      erk, drk, nr := new W[64](_ => zero), new W[64](_ => zero), 0;
    }
  }

  /** The context holds the schedules of a key for both directions. */
  ghost predicate KeyedWith<W, B>(m: Code<W, B>, ctx: Context<W>, key: seq<B>)
    reads ctx, ctx.erk, ctx.drk
  {
    && |key| % 4 == 0 && IsKey(key, |key| / 4) && ctx.nr == |key| / 4 + 6
    && ctx.erk.Length == ctx.drk.Length == 64
    && Scheduled(m, ctx.erk[..], RoundKeys(m.ar, key, |key| / 4), ctx.nr + 1)
    && Scheduled(m, ctx.drk[..], InverseKeys(m.ar, RoundKeys(m.ar, key, |key| / 4)), ctx.nr + 1)
  }

  /** aes_set_key, for a key of keysize bits. */
  method SetKey<W, B(!new)>(m: Code<W, B>, ctx: Context<W>, key: seq<B>, keysize: nat)
    requires Lawful(m) && ctx.erk != ctx.drk && ctx.erk.Length == ctx.drk.Length == 64
    requires (keysize == 128 || keysize == 192 || keysize == 256) && 8 * |key| == keysize
    modifies ctx, ctx.erk, ctx.drk
    ensures KeyedWith(m, ctx, key)
  {
    ctx.nr := if keysize == 256 then 14 else if keysize == 192 then 12 else 10;
    LoadKey(m, key, keysize / 32, ctx.erk);
    if ctx.nr == 10 {
      Expand128(m, ctx.erk, key);
      ExpandedIsScheduled(m, ctx.erk[..], key, 4, 44);
    } else if ctx.nr == 12 {
      Expand192(m, ctx.erk, key);
      ExpandedIsScheduled(m, ctx.erk[..], key, 6, 54);
    } else {
      Expand256(m, ctx.erk, key);
      ExpandedIsScheduled(m, ctx.erk[..], key, 8, 64);
    }
    InvertSchedule(m, ctx.erk, ctx.drk, ctx.nr, RoundKeys(m.ar, key, |key| / 4));
  }
}
