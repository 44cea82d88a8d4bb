/**
 aes_encrypt and aes_decrypt: the table-driven rounds are those of FIPS 197.
 */
module AesRounds {
  import opened AesCode
  import K = AesKeys
  import C = AesCipher
  import R = RoundCipher

  /** X0, X1, X2, X3. */
  datatype Quad<W> = Quad(x0: W, x1: W, x2: W, x3: W)

  function QuadOf<W, B>(m: Code<W, B>, b: C.Block<B>): Quad<W> {
    Quad(Word(m, b.w0), Word(m, b.w1), Word(m, b.w2), Word(m, b.w3))
  }

  function AddKey<W, B>(m: Code<W, B>, rk: seq<W>, x: Quad<W>): Quad<W>
    requires |rk| == 64
  {
    Quad(m.xor(x.x0, rk[0]), m.xor(x.x1, rk[1]), m.xor(x.x2, rk[2]), m.xor(x.x3, rk[3]))
  }

  // One column of a round: the bytes are taken from four different words.

  function Column<W, B>(m: Code<W, B>, q: Lookup<W, B>, k: W, y0: W, y1: W, y2: W, y3: W): W {
    Gather(m, q, k, m.byte0(y0), m.byte1(y1), m.byte2(y2), m.byte3(y3))
  }

  function LastColumn<W, B>(m: Code<W, B>, sb: B -> W, k: W, y0: W, y1: W, y2: W, y3: W): W {
    m.join(k, sb(m.byte0(y0)), sb(m.byte1(y1)), sb(m.byte2(y2)), sb(m.byte3(y3)))
  }

  /** AES_FROUND with the round key at word `i`. */
  function FRound<W, B>(m: Code<W, B>, rk: seq<W>, i: nat, y: Quad<W>): Quad<W>
    requires |rk| == 64 && i + 4 <= 64
  {
    Quad(Column(m, m.ft, rk[i], y.x0, y.x1, y.x2, y.x3), Column(m, m.ft, rk[i + 1], y.x1, y.x2, y.x3, y.x0),
         Column(m, m.ft, rk[i + 2], y.x2, y.x3, y.x0, y.x1), Column(m, m.ft, rk[i + 3], y.x3, y.x0, y.x1, y.x2))
  }

  function FLast<W, B>(m: Code<W, B>, rk: seq<W>, i: nat, y: Quad<W>): Quad<W>
    requires |rk| == 64 && i + 4 <= 64
  {
    Quad(LastColumn(m, m.fsb, rk[i], y.x0, y.x1, y.x2, y.x3),
         LastColumn(m, m.fsb, rk[i + 1], y.x1, y.x2, y.x3, y.x0),
         LastColumn(m, m.fsb, rk[i + 2], y.x2, y.x3, y.x0, y.x1),
         LastColumn(m, m.fsb, rk[i + 3], y.x3, y.x0, y.x1, y.x2))
  }

  /** AES_RROUND. */
  function RRound<W, B>(m: Code<W, B>, rk: seq<W>, i: nat, y: Quad<W>): Quad<W>
    requires |rk| == 64 && i + 4 <= 64
  {
    Quad(Column(m, m.rt, rk[i], y.x0, y.x3, y.x2, y.x1), Column(m, m.rt, rk[i + 1], y.x1, y.x0, y.x3, y.x2),
         Column(m, m.rt, rk[i + 2], y.x2, y.x1, y.x0, y.x3), Column(m, m.rt, rk[i + 3], y.x3, y.x2, y.x1, y.x0))
  }

  function RLast<W, B>(m: Code<W, B>, rk: seq<W>, i: nat, y: Quad<W>): Quad<W>
    requires |rk| == 64 && i + 4 <= 64
  {
    Quad(LastColumn(m, m.rsb, rk[i], y.x0, y.x3, y.x2, y.x1),
         LastColumn(m, m.rsb, rk[i + 1], y.x1, y.x0, y.x3, y.x2),
         LastColumn(m, m.rsb, rk[i + 2], y.x2, y.x1, y.x0, y.x3),
         LastColumn(m, m.rsb, rk[i + 3], y.x3, y.x2, y.x1, y.x0))
  }

  /** The initial key addition and `r` rounds; X and Y alternate in the code. */
  function FRounds<W, B>(m: Code<W, B>, rk: seq<W>, x: Quad<W>, r: nat): Quad<W>
    requires |rk| == 64 && r < 15
  {
    if r == 0 then AddKey(m, rk, x) else FRound(m, rk, 4 * r, FRounds(m, rk, x, r - 1))
  }

  function RRounds<W, B>(m: Code<W, B>, rk: seq<W>, x: Quad<W>, r: nat): Quad<W>
    requires |rk| == 64 && r < 15
  {
    if r == 0 then AddKey(m, rk, x) else RRound(m, rk, 4 * r, RRounds(m, rk, x, r - 1))
  }

  /** Nine rounds, and two more past each of the thresholds. */
  function FullRounds(nr: nat): (r: nat)
    ensures r < 14
  {
    9 + (if nr > 10 then 2 else 0) + (if nr > 12 then 2 else 0)
  }

  function EncryptQuad<W, B>(m: Code<W, B>, rk: seq<W>, nr: nat, x: Quad<W>): Quad<W>
    requires |rk| == 64
  {
    FLast(m, rk, 4 * (FullRounds(nr) + 1), FRounds(m, rk, x, FullRounds(nr)))
  }

  function DecryptQuad<W, B>(m: Code<W, B>, rk: seq<W>, nr: nat, x: Quad<W>): Quad<W>
    requires |rk| == 64
  {
    RLast(m, rk, 4 * (FullRounds(nr) + 1), RRounds(m, rk, x, FullRounds(nr)))
  }

  // ------------------------------------------------------------- each is FIPS 197

  lemma ColumnIs<W, B(!new)>(m: Code<W, B>, k: C.Col<B>, y0: C.Col<B>, y1: C.Col<B>, y2: C.Col<B>, y3: C.Col<B>)
    requires Lawful(m)
    ensures Column(m, m.ft, Word(m, k), Word(m, y0), Word(m, y1), Word(m, y2), Word(m, y3))
         == Word(m, C.AddCol(m.ar, C.MixCol(m.ar, C.SubCol(m.ar, y0, y1, y2, y3)), k))
    ensures Column(m, m.rt, Word(m, k), Word(m, y0), Word(m, y1), Word(m, y2), Word(m, y3))
         == Word(m, C.AddCol(m.ar, C.InvMixCol(m.ar, C.InvSubCol(m.ar, y0, y1, y2, y3)), k))
  {
    assert Unpacks(m, y0) && Unpacks(m, y1) && Unpacks(m, y2) && Unpacks(m, y3);
    GatherForward(m, k, y0.a, y1.b, y2.c, y3.d);
    GatherReverse(m, k, y0.a, y1.b, y2.c, y3.d);
  }

  lemma LastColumnIs<W, B(!new)>(m: Code<W, B>, k: C.Col<B>, y0: C.Col<B>, y1: C.Col<B>, y2: C.Col<B>, y3: C.Col<B>)
    requires Lawful(m)
    ensures LastColumn(m, m.fsb, Word(m, k), Word(m, y0), Word(m, y1), Word(m, y2), Word(m, y3))
         == Word(m, C.AddCol(m.ar, C.SubCol(m.ar, y0, y1, y2, y3), k))
    ensures LastColumn(m, m.rsb, Word(m, k), Word(m, y0), Word(m, y1), Word(m, y2), Word(m, y3))
         == Word(m, C.AddCol(m.ar, C.InvSubCol(m.ar, y0, y1, y2, y3), k))
  {
    assert Unpacks(m, y0) && Unpacks(m, y1) && Unpacks(m, y2) && Unpacks(m, y3);
    var y := C.Col(y0.a, y1.b, y2.c, y3.d);
    assert Substitutes(m, m.fsb, k, y, C.SubCol(m.ar, y, y, y, y));
    assert Substitutes(m, m.rsb, k, y, C.InvSubCol(m.ar, y, y, y, y));
    AddColCommutes(m.ar, k, C.SubCol(m.ar, y0, y1, y2, y3));
    AddColCommutes(m.ar, k, C.InvSubCol(m.ar, y0, y1, y2, y3));
  }

  lemma FRoundIs<W, B(!new)>(m: Code<W, B>, rk: seq<W>, i: nat, k: C.Block<B>, y: C.Block<B>)
    requires Lawful(m) && |rk| == 64 && K.WordsAt(m, rk, i, k)
    ensures FRound(m, rk, i, QuadOf(m, y)) == QuadOf(m, C.Add(m.ar, C.Mix(m.ar, C.ShiftSub(m.ar, y)), k))
  {
    ColumnIs(m, k.w0, y.w0, y.w1, y.w2, y.w3);
    ColumnIs(m, k.w1, y.w1, y.w2, y.w3, y.w0);
    ColumnIs(m, k.w2, y.w2, y.w3, y.w0, y.w1);
    ColumnIs(m, k.w3, y.w3, y.w0, y.w1, y.w2);
  }

  lemma FLastIs<W, B(!new)>(m: Code<W, B>, rk: seq<W>, i: nat, k: C.Block<B>, y: C.Block<B>)
    requires Lawful(m) && |rk| == 64 && K.WordsAt(m, rk, i, k)
    ensures FLast(m, rk, i, QuadOf(m, y)) == QuadOf(m, C.Add(m.ar, C.ShiftSub(m.ar, y), k))
  {
    LastColumnIs(m, k.w0, y.w0, y.w1, y.w2, y.w3);
    LastColumnIs(m, k.w1, y.w1, y.w2, y.w3, y.w0);
    LastColumnIs(m, k.w2, y.w2, y.w3, y.w0, y.w1);
    LastColumnIs(m, k.w3, y.w3, y.w0, y.w1, y.w2);
  }

  lemma RRoundIs<W, B(!new)>(m: Code<W, B>, rk: seq<W>, i: nat, k: C.Block<B>, y: C.Block<B>)
    requires Lawful(m) && |rk| == 64 && K.WordsAt(m, rk, i, k)
    ensures RRound(m, rk, i, QuadOf(m, y)) == QuadOf(m, C.Add(m.ar, C.InvMix(m.ar, C.InvShiftSub(m.ar, y)), k))
  {
    ColumnIs(m, k.w0, y.w0, y.w3, y.w2, y.w1);
    ColumnIs(m, k.w1, y.w1, y.w0, y.w3, y.w2);
    ColumnIs(m, k.w2, y.w2, y.w1, y.w0, y.w3);
    ColumnIs(m, k.w3, y.w3, y.w2, y.w1, y.w0);
  }

  lemma RLastIs<W, B(!new)>(m: Code<W, B>, rk: seq<W>, i: nat, k: C.Block<B>, y: C.Block<B>)
    requires Lawful(m) && |rk| == 64 && K.WordsAt(m, rk, i, k)
    ensures RLast(m, rk, i, QuadOf(m, y)) == QuadOf(m, C.Add(m.ar, C.InvShiftSub(m.ar, y), k))
  {
    LastColumnIs(m, k.w0, y.w0, y.w3, y.w2, y.w1);
    LastColumnIs(m, k.w1, y.w1, y.w0, y.w3, y.w2);
    LastColumnIs(m, k.w2, y.w2, y.w1, y.w0, y.w3);
    LastColumnIs(m, k.w3, y.w3, y.w2, y.w1, y.w0);
  }

  lemma AddKeyIs<W, B(!new)>(m: Code<W, B>, rk: seq<W>, k: C.Block<B>, x: C.Block<B>)
    requires Lawful(m) && |rk| == 64 && K.WordsAt(m, rk, 0, k)
    ensures AddKey(m, rk, QuadOf(m, x)) == QuadOf(m, C.Add(m.ar, x, k))
  {
    XorsWord(m, x.w0, k.w0);
    XorsWord(m, x.w1, k.w1);
    XorsWord(m, x.w2, k.w2);
    XorsWord(m, x.w3, k.w3);
  }

  // The steps of FIPS 197, as the generic scheme applies them.

  ghost predicate Acts<B>(p: R.Parts<C.Block<B>>, ar: C.Arithmetic<B>, y: C.Block<B>) {
    && p.confuse(y) == C.ShiftSub(ar, y) && p.diffuse(p.confuse(y)) == C.Mix(ar, C.ShiftSub(ar, y))
    && p.unconfuse(y) == C.InvShiftSub(ar, y) && p.undiffuse(p.unconfuse(y)) == C.InvMix(ar, C.InvShiftSub(ar, y))
  }

  ghost predicate Adds<B>(p: R.Parts<C.Block<B>>, ar: C.Arithmetic<B>, y: C.Block<B>, k: C.Block<B>) {
    p.add(y, k) == C.Add(ar, y, k)
  }

  ghost predicate IsFips<B(!new)>(p: R.Parts<C.Block<B>>, ar: C.Arithmetic<B>) {
    (forall y :: Acts(p, ar, y)) && (forall y, k :: Adds(p, ar, y, k))
  }

  lemma FipsSteps<B(!new)>(p: R.Parts<C.Block<B>>, ar: C.Arithmetic<B>, y: C.Block<B>, k: C.Block<B>)
    requires IsFips(p, ar)
    ensures p.add(p.diffuse(p.confuse(y)), k) == C.Add(ar, C.Mix(ar, C.ShiftSub(ar, y)), k)
    ensures p.add(p.undiffuse(p.unconfuse(y)), k) == C.Add(ar, C.InvMix(ar, C.InvShiftSub(ar, y)), k)
    ensures p.add(p.confuse(y), k) == C.Add(ar, C.ShiftSub(ar, y), k)
    ensures p.add(p.unconfuse(y), k) == C.Add(ar, C.InvShiftSub(ar, y), k)
  {
    assert Acts(p, ar, y);
    assert Adds(p, ar, C.Mix(ar, C.ShiftSub(ar, y)), k) && Adds(p, ar, C.InvMix(ar, C.InvShiftSub(ar, y)), k);
    assert Adds(p, ar, C.ShiftSub(ar, y), k) && Adds(p, ar, C.InvShiftSub(ar, y), k);
  }

  lemma PartsAreFips<B(!new)>(ar: C.Arithmetic<B>)
    ensures IsFips(C.Parts(ar), ar)
  {
  }

  /** `r` rounds of the code and of the standard hold the same state. */
  ghost predicate FAgrees<W, B>(m: Code<W, B>, p: R.Parts<C.Block<B>>, rk: seq<W>, keys: seq<C.Block<B>>,
                                x: C.Block<B>, r: nat)
    requires |rk| == 64 && r < |keys| <= 15
  {
    FRounds(m, rk, QuadOf(m, x), r) == QuadOf(m, R.Rounds(p, keys, x, r))
  }

  /** A round of the code, from any state, is round `r` of the standard. */
  ghost predicate FRoundAgrees<W, B>(m: Code<W, B>, p: R.Parts<C.Block<B>>, rk: seq<W>, keys: seq<C.Block<B>>, r: nat,
                                     y: C.Block<B>)
    requires |rk| == 64 && r < |keys| <= 15
  {
    FRound(m, rk, 4 * r, QuadOf(m, y)) == QuadOf(m, p.add(p.diffuse(p.confuse(y)), keys[r]))
  }

  lemma FStep<W, B(!new)>(m: Code<W, B>, p: R.Parts<C.Block<B>>, rk: seq<W>, keys: seq<C.Block<B>>, r: nat,
                          y: C.Block<B>)
    requires Lawful(m) && IsFips(p, m.ar) && |rk| == 64 && r < |keys| <= 15 && K.WordsAt(m, rk, 4 * r, keys[r])
    ensures FRoundAgrees(m, p, rk, keys, r, y)
  {
    FRoundIs(m, rk, 4 * r, keys[r], y);
    FipsSteps(p, m.ar, y, keys[r]);
  }

  lemma {:induction false} FRoundsAre<W, B(!new)>(m: Code<W, B>, p: R.Parts<C.Block<B>>, rk: seq<W>,
                                                  keys: seq<C.Block<B>>, x: C.Block<B>, r: nat)
    requires |rk| == 64 && r < |keys| <= 15 && FAgrees(m, p, rk, keys, x, 0)
    requires forall r, y :: 0 <= r < |keys| ==> FRoundAgrees(m, p, rk, keys, r, y)
    ensures FAgrees(m, p, rk, keys, x, r)
  {
    if r > 0 {
      FRoundsAre(m, p, rk, keys, x, r - 1);
      assert FRoundAgrees(m, p, rk, keys, r, R.Rounds(p, keys, x, r - 1));
    }
  }

  /** `r` rounds of the code and of the standard hold the same state. */
  ghost predicate RAgrees<W, B>(m: Code<W, B>, p: R.Parts<C.Block<B>>, rk: seq<W>, keys: seq<C.Block<B>>,
                                x: C.Block<B>, r: nat)
    requires |rk| == 64 && r < |keys| <= 15
  {
    RRounds(m, rk, QuadOf(m, x), r) == QuadOf(m, R.InvRounds(p, keys, x, r))
  }

  /** A round of the code, from any state, is round `r` of the standard. */
  ghost predicate RRoundAgrees<W, B>(m: Code<W, B>, p: R.Parts<C.Block<B>>, rk: seq<W>, keys: seq<C.Block<B>>, r: nat,
                                     y: C.Block<B>)
    requires |rk| == 64 && r < |keys| <= 15
  {
    RRound(m, rk, 4 * r, QuadOf(m, y)) == QuadOf(m, p.add(p.undiffuse(p.unconfuse(y)), keys[r]))
  }

  lemma RStep<W, B(!new)>(m: Code<W, B>, p: R.Parts<C.Block<B>>, rk: seq<W>, keys: seq<C.Block<B>>, r: nat,
                          y: C.Block<B>)
    requires Lawful(m) && IsFips(p, m.ar) && |rk| == 64 && r < |keys| <= 15 && K.WordsAt(m, rk, 4 * r, keys[r])
    ensures RRoundAgrees(m, p, rk, keys, r, y)
  {
    RRoundIs(m, rk, 4 * r, keys[r], y);
    FipsSteps(p, m.ar, y, keys[r]);
  }

  lemma {:induction false} RRoundsAre<W, B(!new)>(m: Code<W, B>, p: R.Parts<C.Block<B>>, rk: seq<W>,
                                                  keys: seq<C.Block<B>>, x: C.Block<B>, r: nat)
    requires |rk| == 64 && r < |keys| <= 15 && RAgrees(m, p, rk, keys, x, 0)
    requires forall r, y :: 0 <= r < |keys| ==> RRoundAgrees(m, p, rk, keys, r, y)
    ensures RAgrees(m, p, rk, keys, x, r)
  {
    if r > 0 {
      RRoundsAre(m, p, rk, keys, x, r - 1);
      assert RRoundAgrees(m, p, rk, keys, r, R.InvRounds(p, keys, x, r - 1));
    }
  }

  lemma FirstKey<W, B(!new)>(m: Code<W, B>, p: R.Parts<C.Block<B>>, rk: seq<W>, keys: seq<C.Block<B>>, x: C.Block<B>)
    requires Lawful(m) && IsFips(p, m.ar) && |rk| == 64 && 0 < |keys| <= 15 && K.WordsAt(m, rk, 0, keys[0])
    ensures FAgrees(m, p, rk, keys, x, 0) && RAgrees(m, p, rk, keys, x, 0)
  {
    AddKeyIs(m, rk, keys[0], x);
    assert Adds(p, m.ar, x, keys[0]);
  }

  lemma FFinish<W, B(!new)>(m: Code<W, B>, p: R.Parts<C.Block<B>>, rk: seq<W>, keys: seq<C.Block<B>>, x: C.Block<B>,
                            r: nat, y: C.Block<B>)
    requires Lawful(m) && IsFips(p, m.ar) && |keys| == r + 2 <= 15 && |rk| == 64
    requires K.WordsAt(m, rk, 4 * (r + 1), keys[r + 1])
    requires y == R.Rounds(p, keys, x, r) && FRounds(m, rk, QuadOf(m, x), r) == QuadOf(m, y)
    ensures FLast(m, rk, 4 * (r + 1), FRounds(m, rk, QuadOf(m, x), r)) == QuadOf(m, R.Encrypt(p, keys, x))
  {
    FLastIs(m, rk, 4 * (r + 1), keys[r + 1], y);
    FipsSteps(p, m.ar, y, keys[r + 1]);
  }

  lemma RFinish<W, B(!new)>(m: Code<W, B>, p: R.Parts<C.Block<B>>, rk: seq<W>, keys: seq<C.Block<B>>, x: C.Block<B>,
                            r: nat, y: C.Block<B>)
    requires Lawful(m) && IsFips(p, m.ar) && |keys| == r + 2 <= 15 && |rk| == 64
    requires K.WordsAt(m, rk, 4 * (r + 1), keys[r + 1])
    requires y == R.InvRounds(p, keys, x, r) && RRounds(m, rk, QuadOf(m, x), r) == QuadOf(m, y)
    ensures RLast(m, rk, 4 * (r + 1), RRounds(m, rk, QuadOf(m, x), r)) == QuadOf(m, R.Decrypt(p, keys, x))
  {
    RLastIs(m, rk, 4 * (r + 1), keys[r + 1], y);
    FipsSteps(p, m.ar, y, keys[r + 1]);
  }

  lemma FWhole<W, B(!new)>(m: Code<W, B>, p: R.Parts<C.Block<B>>, rk: seq<W>, keys: seq<C.Block<B>>, x: C.Block<B>,
                           r: nat)
    requires Lawful(m) && IsFips(p, m.ar) && |keys| == r + 2 <= 15 && K.Scheduled(m, rk, keys, |keys|)
    ensures FLast(m, rk, 4 * (r + 1), FRounds(m, rk, QuadOf(m, x), r)) == QuadOf(m, R.Encrypt(p, keys, x))
  {
    forall q, y | 0 <= q < |keys| ensures FRoundAgrees(m, p, rk, keys, q, y) {
      assert K.WordsAt(m, rk, 4 * q, keys[q]);
      FStep(m, p, rk, keys, q, y);
    }
    assert K.WordsAt(m, rk, 0, keys[0]) && K.WordsAt(m, rk, 4 * (r + 1), keys[r + 1]);
    FirstKey(m, p, rk, keys, x);
    FRoundsAre(m, p, rk, keys, x, r);
    FFinish(m, p, rk, keys, x, r, R.Rounds(p, keys, x, r));
  }

  lemma RWhole<W, B(!new)>(m: Code<W, B>, p: R.Parts<C.Block<B>>, rk: seq<W>, keys: seq<C.Block<B>>, x: C.Block<B>,
                           r: nat)
    requires Lawful(m) && IsFips(p, m.ar) && |keys| == r + 2 <= 15 && K.Scheduled(m, rk, keys, |keys|)
    ensures RLast(m, rk, 4 * (r + 1), RRounds(m, rk, QuadOf(m, x), r)) == QuadOf(m, R.Decrypt(p, keys, x))
  {
    forall q, y | 0 <= q < |keys| ensures RRoundAgrees(m, p, rk, keys, q, y) {
      assert K.WordsAt(m, rk, 4 * q, keys[q]);
      RStep(m, p, rk, keys, q, y);
    }
    assert K.WordsAt(m, rk, 0, keys[0]) && K.WordsAt(m, rk, 4 * (r + 1), keys[r + 1]);
    FirstKey(m, p, rk, keys, x);
    RRoundsAre(m, p, rk, keys, x, r);
    RFinish(m, p, rk, keys, x, r, R.InvRounds(p, keys, x, r));
  }

  predicate IsSchedule<B>(keys: seq<C.Block<B>>, nr: nat) {
    |keys| == nr + 1 == FullRounds(nr) + 2
  }

  /** The table-driven encryption is the cipher of section 5.1 of FIPS 197. */
  lemma EncryptIsFips<W, B(!new)>(m: Code<W, B>, p: R.Parts<C.Block<B>>, rk: seq<W>, nr: nat, keys: seq<C.Block<B>>,
                                  x: C.Block<B>)
    requires Lawful(m) && IsFips(p, m.ar) && IsSchedule(keys, nr) && K.Scheduled(m, rk, keys, nr + 1)
    ensures EncryptQuad(m, rk, nr, QuadOf(m, x)) == QuadOf(m, R.Encrypt(p, keys, x))
  {
    FWhole(m, p, rk, keys, x, nr - 1);
  }

  /** The table-driven decryption is the equivalent inverse cipher of section 5.3.5. */
  lemma DecryptIsFips<W, B(!new)>(m: Code<W, B>, p: R.Parts<C.Block<B>>, rk: seq<W>, nr: nat, keys: seq<C.Block<B>>,
                                  x: C.Block<B>)
    requires Lawful(m) && IsFips(p, m.ar) && IsSchedule(keys, nr) && K.Scheduled(m, rk, keys, nr + 1)
    ensures DecryptQuad(m, rk, nr, QuadOf(m, x)) == QuadOf(m, R.Decrypt(p, keys, x))
  {
    RWhole(m, p, rk, keys, x, nr - 1);
  }

  // ------------------------------------------------------------ blocks of bytes

  function BlockOf<B>(s: seq<B>): C.Block<B>
    requires |s| == 16
  {
    C.Block(C.Col(s[0], s[1], s[2], s[3]), C.Col(s[4], s[5], s[6], s[7]), C.Col(s[8], s[9], s[10], s[11]),
            C.Col(s[12], s[13], s[14], s[15]))
  }

  function BytesOf<B>(b: C.Block<B>): (s: seq<B>)
    ensures |s| == 16 && BlockOf(s) == b
  {
    [b.w0.a, b.w0.b, b.w0.c, b.w0.d, b.w1.a, b.w1.b, b.w1.c, b.w1.d, b.w2.a, b.w2.b, b.w2.c, b.w2.d, b.w3.a, b.w3.b,
     b.w3.c, b.w3.d]
  }

  lemma BytesOfBlock<B>(s: seq<B>)
    requires |s| == 16
    ensures BytesOf(BlockOf(s)) == s
  {
  }

  /** GET_UINT32_BE of the four words of a block. */
  function Load<W, B>(m: Code<W, B>, s: seq<B>): Quad<W>
    requires |s| == 16
  {
    Quad(m.pack(s[0], s[1], s[2], s[3]), m.pack(s[4], s[5], s[6], s[7]), m.pack(s[8], s[9], s[10], s[11]),
         m.pack(s[12], s[13], s[14], s[15]))
  }

  /** The bytes PUT_UINT32_BE stores. */
  function WordBytes<W, B>(m: Code<W, B>, w: W): C.Col<B> {
    C.Col(m.byte0(w), m.byte1(w), m.byte2(w), m.byte3(w))
  }

  function Store<W, B>(m: Code<W, B>, q: Quad<W>): (s: seq<B>)
    ensures |s| == 16
  {
    BytesOf(C.Block(WordBytes(m, q.x0), WordBytes(m, q.x1), WordBytes(m, q.x2), WordBytes(m, q.x3)))
  }

  lemma StoreQuad<W, B(!new)>(m: Code<W, B>, b: C.Block<B>)
    requires Lawful(m)
    ensures Store(m, QuadOf(m, b)) == BytesOf(b)
  {
    assert Unpacks(m, b.w0) && Unpacks(m, b.w1) && Unpacks(m, b.w2) && Unpacks(m, b.w3);
  }

  /** aes_encrypt. */
  function EncryptBlock<W, B>(m: Code<W, B>, rk: seq<W>, nr: nat, input: seq<B>): (output: seq<B>)
    requires |rk| == 64 && |input| == 16
    ensures |output| == 16
  {
    Store(m, EncryptQuad(m, rk, nr, Load(m, input)))
  }

  /** aes_decrypt. */
  function DecryptBlock<W, B>(m: Code<W, B>, rk: seq<W>, nr: nat, input: seq<B>): (output: seq<B>)
    requires |rk| == 64 && |input| == 16
    ensures |output| == 16
  {
    Store(m, DecryptQuad(m, rk, nr, Load(m, input)))
  }

  // ----------------------------------------------------- AES as a function of keys

  predicate IsCipherKey<B>(key: seq<B>) {
    |key| == 16 || |key| == 24 || |key| == 32
  }

  function KeysOf<B>(ar: C.Arithmetic<B>, key: seq<B>): (keys: seq<C.Block<B>>)
    requires IsCipherKey(key)
    ensures |keys| == |key| / 4 + 7
  {
    K.RoundKeys(ar, key, |key| / 4)
  }

  /** The cipher of section 5.1 of FIPS 197. */
  function Cipher<B>(ar: C.Arithmetic<B>, key: seq<B>, input: seq<B>): (output: seq<B>)
    requires IsCipherKey(key) && |input| == 16
    ensures |output| == 16
  {
    BytesOf(R.Encrypt(C.Parts(ar), KeysOf(ar, key), BlockOf(input)))
  }

  /** The equivalent inverse cipher of section 5.3.5. */
  function EqInvCipher<B>(ar: C.Arithmetic<B>, key: seq<B>, input: seq<B>): (output: seq<B>)
    requires IsCipherKey(key) && |input| == 16
    ensures |output| == 16
  {
    BytesOf(R.Decrypt(C.Parts(ar), K.InverseKeys(ar, KeysOf(ar, key)), BlockOf(input)))
  }

  /** Decryption inverts encryption, for every key and every block. */
  lemma CipherInverts<B(!new)>(ar: C.Arithmetic<B>, key: seq<B>, input: seq<B>)
    requires C.Lawful(ar) && IsCipherKey(key) && |input| == 16
    ensures EqInvCipher(ar, key, Cipher(ar, key, input)) == input
  {
    var keys := KeysOf(ar, key);
    C.PartsLawful(ar);
    K.InverseKeysSchedule(ar, keys);
    R.DecryptEncrypt(C.Parts(ar), keys, K.InverseKeys(ar, keys), BlockOf(input));
    BytesOfBlock(input);
  }

  lemma EncryptBlockIsCipher<W, B(!new)>(m: Code<W, B>, rk: seq<W>, nr: nat, key: seq<B>, input: seq<B>)
    requires Lawful(m) && IsCipherKey(key) && nr == |key| / 4 + 6 && K.Scheduled(m, rk, KeysOf(m.ar, key), nr + 1)
    requires |input| == 16
    ensures EncryptBlock(m, rk, nr, input) == Cipher(m.ar, key, input)
  {
    PartsAreFips(m.ar);
    EncryptIsFips(m, C.Parts(m.ar), rk, nr, KeysOf(m.ar, key), BlockOf(input));
    StoreQuad(m, R.Encrypt(C.Parts(m.ar), KeysOf(m.ar, key), BlockOf(input)));
  }

  lemma DecryptBlockIsCipher<W, B(!new)>(m: Code<W, B>, rk: seq<W>, nr: nat, key: seq<B>, input: seq<B>)
    requires Lawful(m) && IsCipherKey(key) && nr == |key| / 4 + 6 && |input| == 16
    requires K.Scheduled(m, rk, K.InverseKeys(m.ar, KeysOf(m.ar, key)), nr + 1)
    ensures DecryptBlock(m, rk, nr, input) == EqInvCipher(m.ar, key, input)
  {
    var inverse := K.InverseKeys(m.ar, KeysOf(m.ar, key));
    PartsAreFips(m.ar);
    DecryptIsFips(m, C.Parts(m.ar), rk, nr, inverse, BlockOf(input));
    StoreQuad(m, R.Decrypt(C.Parts(m.ar), inverse, BlockOf(input)));
  }

  ghost predicate EncryptAgrees<W, B>(m: Code<W, B>, rk: seq<W>, nr: nat, key: seq<B>, input: seq<B>)
    requires |rk| == 64 && IsCipherKey(key) && |input| == 16
  {
    EncryptBlock(m, rk, nr, input) == Cipher(m.ar, key, input)
  }

  lemma EncryptAlwaysAgrees<W, B(!new)>(m: Code<W, B>, rk: seq<W>, nr: nat, key: seq<B>)
    requires Lawful(m) && IsCipherKey(key) && nr == |key| / 4 + 6 && K.Scheduled(m, rk, KeysOf(m.ar, key), nr + 1)
    ensures forall input: seq<B> {:trigger EncryptAgrees(m, rk, nr, key, input)} :: |input| == 16 ==> EncryptAgrees(m,
        rk, nr, key, input)
  {
    forall input: seq<B> | |input| == 16 ensures EncryptAgrees(m, rk, nr, key, input) {
      EncryptBlockIsCipher(m, rk, nr, key, input);
    }
  }

  ghost predicate DecryptAgrees<W, B>(m: Code<W, B>, rk: seq<W>, nr: nat, key: seq<B>, input: seq<B>)
    requires |rk| == 64 && IsCipherKey(key) && |input| == 16
  {
    DecryptBlock(m, rk, nr, input) == EqInvCipher(m.ar, key, input)
  }

  lemma DecryptAlwaysAgrees<W, B(!new)>(m: Code<W, B>, rk: seq<W>, nr: nat, key: seq<B>)
    requires Lawful(m) && IsCipherKey(key) && nr == |key| / 4 + 6
    requires K.Scheduled(m, rk, K.InverseKeys(m.ar, KeysOf(m.ar, key)), nr + 1)
    ensures forall input: seq<B> {:trigger DecryptAgrees(m, rk, nr, key, input)} :: |input| == 16 ==> DecryptAgrees(m,
        rk, nr, key, input)
  {
    forall input: seq<B> | |input| == 16 ensures DecryptAgrees(m, rk, nr, key, input) {
      DecryptBlockIsCipher(m, rk, nr, key, input);
    }
  }
}
