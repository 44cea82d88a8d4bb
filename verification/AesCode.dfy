/**
 The word operations and tables that the AES code works with, and what it relies
 on: words hold columns of bytes, and each table entry is a packed column. Words
 and bytes are parameters here; `Aes` gives the 64-bit ones.
 */
module AesCode {
  import C = AesCipher

  datatype Code<!W, !B> = Code(
    ar: C.Arithmetic<B>,
    pack: (B, B, B, B) -> W,             // GET_UINT32_BE
    byte0: W -> B, byte1: W -> B, byte2: W -> B, byte3: W -> B,   // (uchar)(w >> 24) ... (uchar) w
    xor: (W, W) -> W,
    join: (W, W, W, W, W) -> W,          // k ^ (a << 24) ^ (b << 16) ^ (c << 8) ^ d
    fsb: B -> W, ft: Lookup<W, B>,
    rsb: B -> W, rt: Lookup<W, B>,
    kt: Lookup<W, B>,
    rcon: nat -> W)

  /** A round table and its rotations. */
  datatype Lookup<!W, !B> = Lookup(t0: B -> W, t1: B -> W, t2: B -> W, t3: B -> W)

  function Word<W, B>(m: Code<W, B>, c: C.Col<B>): W {
    m.pack(c.a, c.b, c.c, c.d)
  }

  ghost predicate Unpacks<W, B>(m: Code<W, B>, c: C.Col<B>) {
    var w := Word(m, c);
    m.byte0(w) == c.a && m.byte1(w) == c.b && m.byte2(w) == c.c && m.byte3(w) == c.d
  }

  ghost predicate Xors<W, B>(m: Code<W, B>, x: C.Col<B>, y: C.Col<B>) {
    m.xor(Word(m, x), Word(m, y)) == Word(m, C.AddCol(m.ar, x, y))
  }

  ghost predicate Substitutes<W, B>(m: Code<W, B>, sb: B -> W, k: C.Col<B>, x: C.Col<B>, y: C.Col<B>) {
    m.join(Word(m, k), sb(x.a), sb(x.b), sb(x.c), sb(x.d)) == Word(m, C.AddCol(m.ar, k, y))
  }

  ghost predicate Mixes<W, B>(m: Code<W, B>, x: B) {
    var s := m.ar.sub(x);
    && m.ft.t0(x) == Word(m, C.Mix0(m.ar, s)) && m.ft.t1(x) == Word(m, C.Mix1(m.ar, s))
    && m.ft.t2(x) == Word(m, C.Mix2(m.ar, s)) && m.ft.t3(x) == Word(m, C.Mix3(m.ar, s))
  }

  ghost predicate Contributes<W, B>(m: Code<W, B>, q: Lookup<W, B>, x: B, s: B) {
    && q.t0(x) == Word(m, C.Unmix0(m.ar, s)) && q.t1(x) == Word(m, C.Unmix1(m.ar, s))
    && q.t2(x) == Word(m, C.Unmix2(m.ar, s)) && q.t3(x) == Word(m, C.Unmix3(m.ar, s))
  }

  ghost predicate RconIs<W, B>(m: Code<W, B>, i: nat) {
    m.rcon(i) == Word(m, C.Col(m.ar.rcon(i), m.ar.zero, m.ar.zero, m.ar.zero))
  }

  /** What the word operations and the tables owe the code. */
  ghost predicate Lawful<W, B(!new)>(m: Code<W, B>) {
    && C.Lawful(m.ar)
    && (forall c :: Unpacks(m, c)) && (forall x, y :: Xors(m, x, y))
    && (forall k, x :: Substitutes(m, m.fsb, k, x, C.SubCol(m.ar, x, x, x, x)))
    && (forall k, x :: Substitutes(m, m.rsb, k, x, C.InvSubCol(m.ar, x, x, x, x)))
    && (forall x :: Mixes(m, x)) && (forall x :: Contributes(m, m.rt, x, m.ar.unsub(x))) && (forall x :: Contributes(m,
        m.kt, x, x))
    && (forall i :: i < 10 ==> RconIs(m, i))
  }

  // -------------------------------------------------------- four lookups at once

  /** k ^ T0[a] ^ T1[b] ^ T2[c] ^ T3[d]. */
  function Gather<W, B>(m: Code<W, B>, q: Lookup<W, B>, k: W, a: B, b: B, c: B, d: B): W {
    m.xor(m.xor(m.xor(m.xor(k, q.t0(a)), q.t1(b)), q.t2(c)), q.t3(d))
  }

  lemma XorsWord<W, B(!new)>(m: Code<W, B>, x: C.Col<B>, y: C.Col<B>)
    requires Lawful(m)
    ensures m.xor(Word(m, x), Word(m, y)) == Word(m, C.AddCol(m.ar, x, y))
  {
    assert Xors(m, x, y);
  }

  lemma AddColCommutes<B(!new)>(ar: C.Arithmetic<B>, x: C.Col<B>, y: C.Col<B>)
    requires C.Lawful(ar)
    ensures C.AddCol(ar, x, y) == C.AddCol(ar, y, x)
  {
    assert C.Commutes(ar, x.a, y.a) && C.Commutes(ar, x.b, y.b) && C.Commutes(ar, x.c, y.c) && C.Commutes(ar, x.d, y.d);
  }

  lemma AddColAssociates<B(!new)>(ar: C.Arithmetic<B>, x: C.Col<B>, y: C.Col<B>, z: C.Col<B>)
    requires C.Lawful(ar)
    ensures C.AddCol(ar, C.AddCol(ar, x, y), z) == C.AddCol(ar, x, C.AddCol(ar, y, z))
  {
    assert C.Associates(ar, x.a, y.a, z.a) && C.Associates(ar, x.b, y.b, z.b);
    assert C.Associates(ar, x.c, y.c, z.c) && C.Associates(ar, x.d, y.d, z.d);
  }

  lemma KeyLast<B(!new)>(ar: C.Arithmetic<B>, k: C.Col<B>, x: C.Col<B>, y: C.Col<B>, z: C.Col<B>, w: C.Col<B>)
    requires C.Lawful(ar)
    ensures C.AddCol(ar, C.AddCol(ar, C.AddCol(ar, C.AddCol(ar, k, x), y), z), w)
         == C.AddCol(ar, C.AddCol(ar, C.AddCol(ar, C.AddCol(ar, x, y), z), w), k)
  {
    AddColAssociates(ar, k, x, y);
    AddColAssociates(ar, k, C.AddCol(ar, x, y), z);
    AddColAssociates(ar, k, C.AddCol(ar, C.AddCol(ar, x, y), z), w);
    AddColCommutes(ar, k, C.AddCol(ar, C.AddCol(ar, C.AddCol(ar, x, y), z), w));
  }

  lemma GatherCols<W, B(!new)>(m: Code<W, B>, q: Lookup<W, B>, k: C.Col<B>, a: B, b: B, c: B, d: B,
                               ca: C.Col<B>, cb: C.Col<B>, cc: C.Col<B>, cd: C.Col<B>)
    requires Lawful(m)
    requires q.t0(a) == Word(m, ca) && q.t1(b) == Word(m, cb) && q.t2(c) == Word(m, cc) && q.t3(d) == Word(m, cd)
    ensures Gather(m, q, Word(m, k), a, b, c, d)
         == Word(m, C.AddCol(m.ar, C.AddCol(m.ar, C.AddCol(m.ar, C.AddCol(m.ar, ca, cb), cc), cd), k))
  {
    var k1 := C.AddCol(m.ar, k, ca);
    var k2 := C.AddCol(m.ar, k1, cb);
    var k3 := C.AddCol(m.ar, k2, cc);
    XorsWord(m, k, ca);
    XorsWord(m, k1, cb);
    XorsWord(m, k2, cc);
    XorsWord(m, k3, cd);
    KeyLast(m.ar, k, ca, cb, cc, cd);
  }

  /** A forward lookup round is SubBytes, MixColumns and AddRoundKey on one column. */
  lemma GatherForward<W, B(!new)>(m: Code<W, B>, k: C.Col<B>, a: B, b: B, c: B, d: B)
    requires Lawful(m)
    ensures Gather(m, m.ft, Word(m, k), a, b, c, d)
         == Word(m, C.AddCol(m.ar, C.MixCol(m.ar, C.Col(m.ar.sub(a), m.ar.sub(b), m.ar.sub(c), m.ar.sub(d))), k))
  {
    assert Mixes(m, a) && Mixes(m, b) && Mixes(m, c) && Mixes(m, d);
    GatherCols(m, m.ft, k, a, b, c, d, C.Mix0(m.ar, m.ar.sub(a)), C.Mix1(m.ar, m.ar.sub(b)), C.Mix2(m.ar, m.ar.sub(c)),
               C.Mix3(m.ar, m.ar.sub(d)));
  }

  lemma GatherReverse<W, B(!new)>(m: Code<W, B>, k: C.Col<B>, a: B, b: B, c: B, d: B)
    requires Lawful(m)
    ensures Gather(m, m.rt, Word(m, k), a, b, c, d)
         == Word(m,
                 C.AddCol(m.ar, C.InvMixCol(m.ar, C.Col(m.ar.unsub(a), m.ar.unsub(b), m.ar.unsub(c), m.ar.unsub(d))),
                          k))
  {
    var ua, ub, uc, ud := m.ar.unsub(a), m.ar.unsub(b), m.ar.unsub(c), m.ar.unsub(d);
    assert Contributes(m, m.rt, a, ua) && Contributes(m, m.rt, b, ub) && Contributes(m, m.rt, c, uc);
    assert Contributes(m, m.rt, d, ud);
    GatherCols(m, m.rt, k, a, b, c, d, C.Unmix0(m.ar, ua), C.Unmix1(m.ar, ub), C.Unmix2(m.ar, uc), C.Unmix3(m.ar, ud));
  }

  /** KT0[a] ^ KT1[b] ^ KT2[c] ^ KT3[d]. */
  function KeyMix<W, B>(m: Code<W, B>, w: W): W {
    m.xor(m.xor(m.xor(m.kt.t0(m.byte0(w)), m.kt.t1(m.byte1(w))), m.kt.t2(m.byte2(w))), m.kt.t3(m.byte3(w)))
  }

  /** The KT tables apply InvMixColumns to a word of the key schedule. */
  lemma KeyMixIs<W, B(!new)>(m: Code<W, B>, x: C.Col<B>)
    requires Lawful(m)
    ensures KeyMix(m, Word(m, x)) == Word(m, C.InvMixCol(m.ar, x))
  {
    assert Unpacks(m, x);
    assert Contributes(m, m.kt, x.a, x.a) && Contributes(m, m.kt, x.b, x.b) && Contributes(m, m.kt, x.c, x.c);
    assert Contributes(m, m.kt, x.d, x.d);
    var u0, u1, u2, u3 := C.Unmix0(m.ar, x.a), C.Unmix1(m.ar, x.b), C.Unmix2(m.ar, x.c), C.Unmix3(m.ar, x.d);
    XorsWord(m, u0, u1);
    XorsWord(m, C.AddCol(m.ar, u0, u1), u2);
    XorsWord(m, C.AddCol(m.ar, C.AddCol(m.ar, u0, u1), u2), u3);
  }
}
