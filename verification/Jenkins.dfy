/**
 jenkins_hash for little-endian machines: three ways to read the key, chosen by its
 alignment, compute one function of its bytes. Words are numbers below 2^32.
 */
module Jenkins {

  const M: int := 0x1_0000_0000

  type byte = x: int | 0 <= x < 256

  // ------------------------------------------------------------ 32-bit arithmetic

  function Add(x: int, y: int): (r: int)
    ensures 0 <= r < M
  {
    (x + y) % M
  }

  function Sub(x: int, y: int): (r: int)
    ensures 0 <= r < M
  {
    (x - y) % M
  }

  /** Exclusive or of the low n bits. */
  function XorBits(n: nat, x: int, y: int): (r: int)
    requires x >= 0 && y >= 0
    ensures r >= 0
  {
    if n == 0 then 0 else (x % 2 + y % 2) % 2 + 2 * XorBits(n - 1, x / 2, y / 2)
  }

  function Pow2(n: nat): (r: int)
    ensures r > 0
  {
    if n == 0 then 1 else 2 * Pow2(n - 1)
  }

  lemma {:induction false} XorBound(n: nat, x: int, y: int)
    requires x >= 0 && y >= 0
    ensures XorBits(n, x, y) < Pow2(n)
  {
    if n > 0 {
      XorBound(n - 1, x / 2, y / 2);
    }
  }

  lemma {:induction false} XorTwice(n: nat, x: int, y: int)
    requires 0 <= x < Pow2(n) && y >= 0
    ensures XorBits(n, XorBits(n, x, y), y) == x
  {
    if n > 0 {
      XorTwice(n - 1, x / 2, y / 2);
      var z := XorBits(n, x, y);
      XorHalves(n, x, y);
    }
  }

  lemma XorHalves(n: nat, x: int, y: int)
    requires x >= 0 && y >= 0 && n > 0
    ensures var z := XorBits(n, x, y); z / 2 == XorBits(n - 1, x / 2, y / 2) && z % 2 == (x % 2 + y % 2) % 2
  {
  }

  lemma {:induction false} Pow2Adds(m: nat, n: nat)
    ensures Pow2(m + n) == Pow2(m) * Pow2(n)
  {
    if m > 0 {
      Pow2Adds(m - 1, n);
      assert 2 * (Pow2(m - 1) * Pow2(n)) == (2 * Pow2(m - 1)) * Pow2(n);
    }
  }

  lemma Pow2Is32()
    ensures Pow2(32) == M
  {
    assert Pow2(8) == 256;
    Pow2Adds(8, 8);
    Pow2Adds(16, 16);
  }

  function Quotient(x: int, d: int): (r: int)
    requires x >= 0 && d > 0
    ensures r >= 0
  {
    x / d
  }

  /** rot(x, k): the two parts do not overlap, so their | is a sum. */
  function Rot(x: int, k: nat): (r: int)
    requires x >= 0
    ensures r >= 0
  {
    Add(x * Pow2(k), 0) + Quotient(x, Pow2(if k <= 32 then 32 - k else 0))
  }

  // ------------------------------------------------------------------ mix and final

  datatype Reg = A | B | C

  datatype Triple = Triple(a: int, b: int, c: int)

  predicate Ok(t: Triple) {
    0 <= t.a < M && 0 <= t.b < M && 0 <= t.c < M
  }

  function Get(t: Triple, r: Reg): int {
    match r
    case A => t.a
    case B => t.b
    case C => t.c
  }

  function Set(t: Triple, r: Reg, v: int): Triple {
    match r
    case A => t.(a := v)
    case B => t.(b := v)
    case C => t.(c := v)
  }

  /** The operations on words. */
  datatype Ops = Ops(add: (int, int) -> int, sub: (int, int) -> int, xor: (int, int) -> int, rot: (int, nat) -> int)

  predicate IsWord(x: int) {
    0 <= x < M
  }

  ghost predicate Cancels(op: (int, int) -> int, back: (int, int) -> int, x: int, y: int) {
    IsWord(x) && y >= 0 ==> IsWord(op(x, y)) && back(op(x, y), y) == x
  }

  ghost predicate Rotates(rot: (int, nat) -> int, x: int, k: nat) {
    IsWord(x) ==> rot(x, k) >= 0
  }

  ghost predicate Lawful(ops: Ops) {
    && (forall x, y :: Cancels(ops.add, ops.sub, x, y)) && (forall x, y :: Cancels(ops.sub, ops.add, x, y))
    && (forall x, y :: Cancels(ops.xor, ops.xor, x, y)) && (forall x, k: nat :: Rotates(ops.rot, x, k))
  }

  function XorOp(x: int, y: int): int { if x >= 0 && y >= 0 then XorBits(32, x, y) else 0 }
  function RotOp(x: int, k: nat): int { if x >= 0 then Rot(x, k) else 0 }

  /** The operations of the code. */
  function Words32(): Ops {
    Ops(Add, Sub, XorOp, RotOp)
  }

  lemma XorCancels(x: int, y: int)
    ensures Cancels(XorOp, XorOp, x, y)
  {
    if IsWord(x) && y >= 0 {
      XorBound(32, x, y);
      Pow2Is32();
      XorTwice(32, x, y);
    }
  }

  lemma Words32Lawful()
    ensures Lawful(Words32())
  {
    var ops := Words32();
    forall x, y ensures Cancels(ops.add, ops.sub, x, y) { if IsWord(x) { AddSub(x, y); } }
    forall x, y ensures Cancels(ops.sub, ops.add, x, y) { if IsWord(x) { AddSub(x, y); } }
    forall x, y ensures Cancels(ops.xor, ops.xor, x, y) { XorCancels(x, y); }
  }

  lemma AddSub(x: int, y: int)
    requires 0 <= x < M
    ensures Sub(Add(x, y), y) == x && Add(Sub(x, y), y) == x
  {
    assert Add(x, y) - y == x - M * ((x + y) / M);
    OffBy(x, -((x + y) / M));
    assert Sub(x, y) + y == x - M * ((x - y) / M);
    OffBy(x, -((x - y) / M));
  }

  lemma OffBy(x: int, q: int)
    ensures (x + M * q) % M == x % M
  {
  }

  // The two macros as straight-line code. A line of mix is d -= s, d ^= rot(s, k), e += f;
  // a line of final is d ^= s, d -= rot(s, k).

  function MixLine(o: Ops, d: int, s: int, k: nat): int { o.xor(o.sub(d, s), o.rot(s, k)) }
  function FinalLine(o: Ops, d: int, s: int, k: nat): int { o.sub(o.xor(d, s), o.rot(s, k)) }

  /** Three lines of mix; the other three differ in the rotations only. */
  function HalfMix(o: Ops, t: Triple, i: nat, j: nat, k: nat): Triple {
    var a1, c1 := MixLine(o, t.a, t.c, i), o.add(t.c, t.b);
    var b1, a2 := MixLine(o, t.b, a1, j), o.add(a1, c1);
    var c2, b2 := MixLine(o, c1, b1, k), o.add(b1, a2);
    Triple(a2, b2, c2)
  }

  function Mix(o: Ops, t: Triple): Triple {
    HalfMix(o, HalfMix(o, t, 4, 6, 8), 16, 19, 4)
  }

  function Final(o: Ops, t: Triple): Triple {
    var c1 := FinalLine(o, t.c, t.b, 14);
    var a1 := FinalLine(o, t.a, c1, 11);
    var b1 := FinalLine(o, t.b, a1, 25);
    var c2 := FinalLine(o, c1, b1, 16);
    var a2 := FinalLine(o, a1, c2, 4);
    var b2 := FinalLine(o, b1, a2, 14);
    Triple(a2, b2, FinalLine(o, c2, b2, 24))
  }

  // --------------------------------------------------------- the macros undone

  /** The assignments the two macros are made of: d -= s, d += s, d ^= s, and the same
      with s rotated. */
  datatype Step = Minus(d: Reg, s: Reg, k: nat) | Plus(d: Reg, s: Reg, k: nat) | Xored(d: Reg, s: Reg, k: nat)

  /** Rotating by 0 leaves a word as it is. */
  function Source(o: Ops, t: Triple, step: Step): int {
    if step.k == 0 then Get(t, step.s) else o.rot(Get(t, step.s), step.k)
  }

  function Do(o: Ops, step: Step, t: Triple): Triple {
    var x, y := Get(t, step.d), Source(o, t, step);
    Set(t, step.d,
        match step
        case Minus(_, _, _) => o.sub(x, y)
        case Plus(_, _, _) => o.add(x, y)
        case Xored(_, _, _) => o.xor(x, y))
  }

  function Undo(step: Step): Step {
    match step
    case Minus(d, s, k) => Plus(d, s, k)
    case Plus(d, s, k) => Minus(d, s, k)
    case Xored(d, s, k) => Xored(d, s, k)
  }

  lemma DoOk(o: Ops, step: Step, t: Triple)
    requires Lawful(o) && Ok(t)
    ensures Source(o, t, step) >= 0 && Ok(Do(o, step, t))
  {
    assert Rotates(o.rot, Get(t, step.s), step.k);
    var x, y := Get(t, step.d), Source(o, t, step);
    assert Cancels(o.add, o.sub, x, y) && Cancels(o.sub, o.add, x, y) && Cancels(o.xor, o.xor, x, y);
  }

  /** An assignment from another variable can be taken back. */
  lemma UndoOne(o: Ops, step: Step, t: Triple)
    requires Lawful(o) && Ok(t) && step.d != step.s
    ensures Ok(Do(o, step, t)) && Do(o, Undo(step), Do(o, step, t)) == t
  {
    DoOk(o, step, t);
    var x, y := Get(t, step.d), Source(o, t, step);
    assert Source(o, Do(o, step, t), Undo(step)) == y;
    assert Cancels(o.add, o.sub, x, y) && Cancels(o.sub, o.add, x, y) && Cancels(o.xor, o.xor, x, y);
  }

  function Run(o: Ops, steps: seq<Step>, t: Triple): Triple {
    if |steps| == 0 then t else Do(o, steps[|steps| - 1], Run(o, steps[..|steps| - 1], t))
  }

  lemma {:induction false} RunOk(o: Ops, steps: seq<Step>, t: Triple)
    requires Lawful(o) && Ok(t)
    ensures Ok(Run(o, steps, t))
  {
    if |steps| > 0 {
      RunOk(o, steps[..|steps| - 1], t);
      DoOk(o, steps[|steps| - 1], Run(o, steps[..|steps| - 1], t));
    }
  }

  function Backwards(steps: seq<Step>): (r: seq<Step>)
    ensures |r| == |steps|
  {
    if |steps| == 0 then [] else [Undo(steps[|steps| - 1])] + Backwards(steps[..|steps| - 1])
  }

  predicate Sound(steps: seq<Step>) {
    forall i :: 0 <= i < |steps| ==> steps[i].d != steps[i].s
  }

  lemma {:induction false} RunFirst(o: Ops, step: Step, steps: seq<Step>, t: Triple)
    ensures Run(o, [step] + steps, t) == Run(o, steps, Do(o, step, t))
  {
    if |steps| == 0 {
      assert [step] + steps == [step];
      assert Run(o, [step][..0], t) == t;
    } else {
      RunFirst(o, step, steps[..|steps| - 1], t);
      assert ([step] + steps)[..|steps|] == [step] + steps[..|steps| - 1];
    }
  }

  lemma {:induction false} RunBack(o: Ops, steps: seq<Step>, t: Triple)
    requires Lawful(o) && Ok(t) && Sound(steps)
    ensures Run(o, Backwards(steps), Run(o, steps, t)) == t
  {
    if |steps| > 0 {
      var n := |steps| - 1;
      var u := Run(o, steps[..n], t);
      RunOk(o, steps[..n], t);
      RunBack(o, steps[..n], t);
      UndoOne(o, steps[n], u);
      RunFirst(o, Undo(steps[n]), Backwards(steps[..n]), Do(o, steps[n], u));
    }
  }

  lemma {:induction false} BackwardsTwice(steps: seq<Step>)
    ensures Backwards(Backwards(steps)) == steps
  {
    if |steps| > 0 {
      var n := |steps| - 1;
      BackwardsTwice(steps[..n]);
      BackwardsFirst(Undo(steps[n]), Backwards(steps[..n]));
      assert steps == steps[..n] + [steps[n]];
    }
  }

  lemma {:induction false} BackwardsFirst(step: Step, steps: seq<Step>)
    ensures Backwards([step] + steps) == Backwards(steps) + [Undo(step)]
  {
    if |steps| == 0 {
      assert [step] + steps == [step] && [step][..0] == [];
    } else {
      var n := |steps| - 1;
      BackwardsFirst(step, steps[..n]);
      assert ([step] + steps)[..|steps|] == [step] + steps[..n];
    }
  }

  lemma {:induction false} BackwardsSound(steps: seq<Step>)
    requires Sound(steps)
    ensures Sound(Backwards(steps))
  {
    if |steps| > 0 {
      BackwardsSound(steps[..|steps| - 1]);
    }
  }

  /** A sound run of assignments is a bijection of triples of words. */
  lemma RunIsBijective(o: Ops, steps: seq<Step>, t: Triple)
    requires Lawful(o) && Ok(t) && Sound(steps)
    ensures Run(o, Backwards(steps), Run(o, steps, t)) == t && Run(o, steps, Run(o, Backwards(steps), t)) == t
    ensures Ok(Run(o, steps, t)) && Ok(Run(o, Backwards(steps), t))
  {
    RunOk(o, steps, t);
    RunOk(o, Backwards(steps), t);
    RunBack(o, steps, t);
    BackwardsSound(steps);
    RunBack(o, Backwards(steps), t);
    BackwardsTwice(steps);
  }

  function MixSteps(): seq<Step> {
    [Minus(A, C, 0), Xored(A, C, 4), Plus(C, B, 0), Minus(B, A, 0), Xored(B, A, 6), Plus(A, C, 0),
     Minus(C, B, 0), Xored(C, B, 8), Plus(B, A, 0), Minus(A, C, 0), Xored(A, C, 16), Plus(C, B, 0),
     Minus(B, A, 0), Xored(B, A, 19), Plus(A, C, 0), Minus(C, B, 0), Xored(C, B, 4), Plus(B, A, 0)]
  }

  function FinalSteps(): seq<Step> {
    [Xored(C, B, 0), Minus(C, B, 14), Xored(A, C, 0), Minus(A, C, 11), Xored(B, A, 0), Minus(B, A, 25),
     Xored(C, B, 0), Minus(C, B, 16), Xored(A, C, 0), Minus(A, C, 4), Xored(B, A, 0), Minus(B, A, 14),
     Xored(C, B, 0), Minus(C, B, 24)]
  }

  lemma RunNext(o: Ops, steps: seq<Step>, step: Step, t: Triple)
    ensures Run(o, steps + [step], t) == Do(o, step, Run(o, steps, t))
  {
    assert (steps + [step])[..|steps|] == steps;
  }

  /** The first n assignments, one after the other. */
  lemma RunPrefix(o: Ops, steps: seq<Step>, n: nat, t: Triple)
    requires n < |steps|
    ensures Run(o, steps[..n + 1], t) == Do(o, steps[n], Run(o, steps[..n], t))
  {
    assert steps[..n + 1] == steps[..n] + [steps[n]];
    RunNext(o, steps[..n], steps[n], t);
  }

  /** Three assignments that make a line of mix. */
  lemma LineIs(o: Ops, steps: seq<Step>, n: nat, t: Triple)
    requires n + 3 <= |steps|
    ensures Run(o, steps[..n + 3], t)
         == Do(o, steps[n + 2], Do(o, steps[n + 1], Do(o, steps[n], Run(o, steps[..n], t))))
  {
    RunPrefix(o, steps, n, t);
    RunPrefix(o, steps, n + 1, t);
    RunPrefix(o, steps, n + 2, t);
  }

  lemma HalfMixIs(o: Ops, steps: seq<Step>, n: nat, i: nat, j: nat, k: nat, t: Triple)
    requires n + 9 <= |steps| && i > 0 && j > 0 && k > 0
    requires steps[n] == Minus(A, C, 0) && steps[n + 1] == Xored(A, C, i) && steps[n + 2] == Plus(C, B, 0)
    requires steps[n + 3] == Minus(B, A, 0) && steps[n + 4] == Xored(B, A, j) && steps[n + 5] == Plus(A, C, 0)
    requires steps[n + 6] == Minus(C, B, 0) && steps[n + 7] == Xored(C, B, k) && steps[n + 8] == Plus(B, A, 0)
    ensures Run(o, steps[..n + 9], t) == HalfMix(o, Run(o, steps[..n], t), i, j, k)
  {
    LineIs(o, steps, n, t);
    LineIs(o, steps, n + 3, t);
    LineIs(o, steps, n + 6, t);
  }

  lemma MixFrom(o: Ops, s: seq<Step>, t: Triple)
    requires |s| == 18
    requires s[0] == Minus(A, C, 0) && s[1] == Xored(A, C, 4) && s[2] == Plus(C, B, 0)
    requires s[3] == Minus(B, A, 0) && s[4] == Xored(B, A, 6) && s[5] == Plus(A, C, 0)
    requires s[6] == Minus(C, B, 0) && s[7] == Xored(C, B, 8) && s[8] == Plus(B, A, 0)
    requires s[9] == Minus(A, C, 0) && s[10] == Xored(A, C, 16) && s[11] == Plus(C, B, 0)
    requires s[12] == Minus(B, A, 0) && s[13] == Xored(B, A, 19) && s[14] == Plus(A, C, 0)
    requires s[15] == Minus(C, B, 0) && s[16] == Xored(C, B, 4) && s[17] == Plus(B, A, 0)
    ensures Mix(o, t) == Run(o, s[..18], t)
  {
    HalfMixIs(o, s, 0, 4, 6, 8, t);
    HalfMixIs(o, s, 9, 16, 19, 4, t);
  }

  /** mix is its list of assignments, ... */
  lemma MixIsRun(o: Ops, t: Triple)
    ensures Mix(o, t) == Run(o, MixSteps(), t)
  {
    MixFrom(o, MixSteps(), t);
    assert MixSteps()[..18] == MixSteps();
  }

  lemma PairIs(o: Ops, steps: seq<Step>, n: nat, t: Triple)
    requires n + 2 <= |steps|
    ensures Run(o, steps[..n + 2], t) == Do(o, steps[n + 1], Do(o, steps[n], Run(o, steps[..n], t)))
  {
    RunPrefix(o, steps, n, t);
    RunPrefix(o, steps, n + 1, t);
  }

  lemma FinalFrom(o: Ops, s: seq<Step>, t: Triple)
    requires |s| == 14 && s[0] == Xored(C, B, 0) && s[1] == Minus(C, B, 14)
    requires s[2] == Xored(A, C, 0) && s[3] == Minus(A, C, 11) && s[4] == Xored(B, A, 0) && s[5] == Minus(B, A, 25)
    requires s[6] == Xored(C, B, 0) && s[7] == Minus(C, B, 16) && s[8] == Xored(A, C, 0) && s[9] == Minus(A, C, 4)
    requires s[10] == Xored(B, A, 0) && s[11] == Minus(B, A, 14) && s[12] == Xored(C, B, 0)
    requires s[13] == Minus(C, B, 24)
    ensures Final(o, t) == Run(o, s[..14], t)
  {
    PairIs(o, s, 0, t);
    PairIs(o, s, 2, t);
    PairIs(o, s, 4, t);
    PairIs(o, s, 6, t);
    PairIs(o, s, 8, t);
    PairIs(o, s, 10, t);
    PairIs(o, s, 12, t);
  }

  /** ... and so is final. */
  lemma FinalIsRun(o: Ops, t: Triple)
    ensures Final(o, t) == Run(o, FinalSteps(), t)
  {
    FinalFrom(o, FinalSteps(), t);
    assert FinalSteps()[..14] == FinalSteps();
  }

  /** mix can be undone: it is a bijection of triples of words. */
  lemma MixIsBijective(t: Triple)
    requires Ok(t)
    ensures Ok(Mix(Words32(), t)) && Run(Words32(), Backwards(MixSteps()), Mix(Words32(), t)) == t
    ensures Mix(Words32(), Run(Words32(), Backwards(MixSteps()), t)) == t
  {
    Words32Lawful();
    RunIsBijective(Words32(), MixSteps(), t);
    MixIsRun(Words32(), t);
    MixIsRun(Words32(), Run(Words32(), Backwards(MixSteps()), t));
  }

  lemma FinalIsBijective(t: Triple)
    requires Ok(t)
    ensures Ok(Final(Words32(), t)) && Run(Words32(), Backwards(FinalSteps()), Final(Words32(), t)) == t
    ensures Final(Words32(), Run(Words32(), Backwards(FinalSteps()), t)) == t
  {
    Words32Lawful();
    RunIsBijective(Words32(), FinalSteps(), t);
    FinalIsRun(Words32(), t);
    FinalIsRun(Words32(), Run(Words32(), Backwards(FinalSteps()), t));
  }

  // ---------------------------------------------------------------- reading the key

  /** A little-endian word, and half a word. */
  function Word(b0: byte, b1: byte, b2: byte, b3: byte): int {
    b0 + 0x100 * b1 + 0x1_0000 * b2 + 0x100_0000 * b3
  }

  function Half(b0: byte, b1: byte): int {
    b0 + 0x100 * b1
  }

  // One of a, b and c takes in the m bytes of its lane that belong to the key; m is 4
  // in every block but the last. Only the reading differs.

  /** Aligned words: a last, partial word is read whole and masked. */
  function LaneWords(x: int, b0: byte, b1: byte, b2: byte, b3: byte, m: nat): int {
    if m >= 4 then Add(x, Word(b0, b1, b2, b3))
    else if m == 3 then Add(x, Word(b0, b1, b2, b3) % 0x100_0000)
    else if m == 2 then Add(x, Word(b0, b1, b2, b3) % 0x1_0000)
    else if m == 1 then Add(x, Word(b0, b1, b2, b3) % 0x100)
    else x
  }

  /** Aligned halves, and single bytes at an odd end. */
  function LaneHalves(x: int, b0: byte, b1: byte, b2: byte, b3: byte, m: nat): int {
    if m >= 4 then Add(x, Add(Half(b0, b1), 0x1_0000 * Half(b2, b3)))
    else if m == 3 then Add(Add(x, 0x1_0000 * b2), Half(b0, b1))
    else if m == 2 then Add(x, Half(b0, b1))
    else if m == 1 then Add(x, b0)
    else x
  }

  /** Bytes, in the order of the block loop. */
  function LaneBytes(x: int, b0: byte, b1: byte, b2: byte, b3: byte): int {
    Add(Add(Add(Add(x, b0), 0x100 * b1), 0x1_0000 * b2), 0x100_0000 * b3)
  }

  /** Bytes, in the order of the switch, which falls through from the last one. */
  function LaneBytesDown(x: int, b0: byte, b1: byte, b2: byte, b3: byte, m: nat): int {
    var x3 := if m >= 4 then Add(x, 0x100_0000 * b3) else x;
    var x2 := if m >= 3 then Add(x3, 0x1_0000 * b2) else x3;
    var x1 := if m >= 2 then Add(x2, 0x100 * b1) else x2;
    if m >= 1 then Add(x1, b0) else x1
  }

  /** The word of the lane with zeros after the end of the key is added. */
  function Lane(x: int, b0: byte, b1: byte, b2: byte, b3: byte, m: nat): int {
    Add(x, Word(if m >= 1 then b0 else 0, if m >= 2 then b1 else 0, if m >= 3 then b2 else 0, if m >= 4 then b3 else 0))
  }

  lemma AddAdd(x: int, y: int, z: int)
    ensures Add(Add(x, y), z) == Add(x, y + z) && Add(x, Add(y, z)) == Add(x, y + z)
  {
    OffBy(x + y + z, -((x + y) / M));
    OffBy(x + y + z, -((y + z) / M));
    assert Add(x, y) + z == x + y + z - M * ((x + y) / M) && x + Add(y, z) == x + y + z - M * ((y + z) / M);
  }

  // Masking drops the bytes after the end of the key.

  lemma Masked24(w: int, low: int, q: int)
    requires 0 <= low < 0x100_0000 && w == low + 0x100_0000 * q
    ensures w % 0x100_0000 == low
  {
  }

  lemma Masked16(w: int, low: int, q: int)
    requires 0 <= low < 0x1_0000 && w == low + 0x1_0000 * q
    ensures w % 0x1_0000 == low
  {
  }

  lemma Masked8(w: int, low: int, q: int)
    requires 0 <= low < 0x100 && w == low + 0x100 * q
    ensures w % 0x100 == low
  {
  }

  lemma LaneWordsIs(x: int, b0: byte, b1: byte, b2: byte, b3: byte, m: nat)
    requires 0 <= x < M
    ensures LaneWords(x, b0, b1, b2, b3, m) == Lane(x, b0, b1, b2, b3, m)
  {
    var w := Word(b0, b1, b2, b3);
    if m == 3 {
      Masked24(w, Word(b0, b1, b2, 0), b3);
    } else if m == 2 {
      Masked16(w, Word(b0, b1, 0, 0), b2 + 0x100 * b3);
    } else if m == 1 {
      Masked8(w, Word(b0, 0, 0, 0), b1 + 0x100 * b2 + 0x1_0000 * b3);
    } else if m == 0 {
      AddNothing(x);
    }
  }

  lemma AddNothing(x: int)
    requires 0 <= x < M
    ensures Add(x, 0) == x
  {
  }

  lemma TwoHalves(x: int, b0: byte, b1: byte, b2: byte, b3: byte)
    ensures Add(x, Add(Half(b0, b1), 0x1_0000 * Half(b2, b3))) == Add(x, Word(b0, b1, b2, b3))
    ensures Add(Add(x, 0x1_0000 * b2), Half(b0, b1)) == Add(x, Word(b0, b1, b2, 0))
  {
    AddAdd(x, Half(b0, b1), 0x1_0000 * Half(b2, b3));
    AddAdd(x, 0x1_0000 * b2, Half(b0, b1));
    assert Half(b0, b1) + 0x1_0000 * Half(b2, b3) == Word(b0, b1, b2, b3);
    assert 0x1_0000 * b2 + Half(b0, b1) == Word(b0, b1, b2, 0);
  }

  lemma LaneHalvesIs(x: int, b0: byte, b1: byte, b2: byte, b3: byte, m: nat)
    requires 0 <= x < M
    ensures LaneHalves(x, b0, b1, b2, b3, m) == Lane(x, b0, b1, b2, b3, m)
  {
    if m >= 3 {
      TwoHalves(x, b0, b1, b2, b3);
    } else if m == 2 {
      assert Half(b0, b1) == Word(b0, b1, 0, 0);
    } else if m == 1 {
      assert b0 == Word(b0, 0, 0, 0);
    } else {
      AddNothing(x);
    }
  }

  lemma LaneBytesIs(x: int, b0: byte, b1: byte, b2: byte, b3: byte)
    ensures LaneBytes(x, b0, b1, b2, b3) == Lane(x, b0, b1, b2, b3, 4)
  {
    AddAdd(x, b0, 0x100 * b1);
    AddAdd(x, b0 + 0x100 * b1, 0x1_0000 * b2);
    AddAdd(x, b0 + 0x100 * b1 + 0x1_0000 * b2, 0x100_0000 * b3);
  }

  lemma LaneBytesDownIs(x: int, b0: byte, b1: byte, b2: byte, b3: byte, m: nat)
    requires 0 <= x < M
    ensures LaneBytesDown(x, b0, b1, b2, b3, m) == Lane(x, b0, b1, b2, b3, m)
  {
    if m == 0 {
      AddNothing(x);
    } else if m == 1 {
      assert b0 == Word(b0, 0, 0, 0);
    } else if m == 2 {
      AddAdd(x, 0x100 * b1, b0);
    } else if m == 3 {
      AddAdd(x, 0x1_0000 * b2, 0x100 * b1);
      AddAdd(x, 0x1_0000 * b2 + 0x100 * b1, b0);
    } else {
      AddAdd(x, 0x100_0000 * b3, 0x1_0000 * b2);
      AddAdd(x, 0x100_0000 * b3 + 0x1_0000 * b2, 0x100 * b1);
      AddAdd(x, 0x100_0000 * b3 + 0x1_0000 * b2 + 0x100 * b1, b0);
    }
  }

  // ------------------------------------------------------------- blocks of 12 bytes

  datatype Bytes4 = Bytes4(b0: byte, b1: byte, b2: byte, b3: byte)

  datatype Window = Window(x: Bytes4, y: Bytes4, z: Bytes4)

  /** Memory; what lies past its end is never part of a lane. */
  function At(mem: seq<byte>, i: nat): byte {
    if i < |mem| then mem[i] else 0
  }

  function Bytes4At(mem: seq<byte>, i: nat): Bytes4 {
    Bytes4(At(mem, i), At(mem, i + 1), At(mem, i + 2), At(mem, i + 3))
  }

  function WindowAt(mem: seq<byte>, i: nat): Window {
    Window(Bytes4At(mem, i), Bytes4At(mem, i + 4), Bytes4At(mem, i + 8))
  }

  /** How many of n bytes fall to the lane that starts at o. */
  function Part(n: nat, o: nat): nat {
    if n <= o then 0 else if n - o >= 4 then 4 else n - o
  }

  function WordsTail(t: Triple, w: Window, n: nat): Triple {
    Triple(LaneWords(t.a, w.x.b0, w.x.b1, w.x.b2, w.x.b3, Part(n, 0)),
           LaneWords(t.b, w.y.b0, w.y.b1, w.y.b2, w.y.b3, Part(n, 4)),
           LaneWords(t.c, w.z.b0, w.z.b1, w.z.b2, w.z.b3, Part(n, 8)))
  }

  function HalvesTail(t: Triple, w: Window, n: nat): Triple {
    Triple(LaneHalves(t.a, w.x.b0, w.x.b1, w.x.b2, w.x.b3, Part(n, 0)),
           LaneHalves(t.b, w.y.b0, w.y.b1, w.y.b2, w.y.b3, Part(n, 4)),
           LaneHalves(t.c, w.z.b0, w.z.b1, w.z.b2, w.z.b3, Part(n, 8)))
  }

  function BytesBlock(t: Triple, w: Window): Triple {
    Triple(LaneBytes(t.a, w.x.b0, w.x.b1, w.x.b2, w.x.b3), LaneBytes(t.b, w.y.b0, w.y.b1, w.y.b2, w.y.b3),
           LaneBytes(t.c, w.z.b0, w.z.b1, w.z.b2, w.z.b3))
  }

  function BytesTail(t: Triple, w: Window, n: nat): Triple {
    Triple(LaneBytesDown(t.a, w.x.b0, w.x.b1, w.x.b2, w.x.b3, Part(n, 0)),
           LaneBytesDown(t.b, w.y.b0, w.y.b1, w.y.b2, w.y.b3, Part(n, 4)),
           LaneBytesDown(t.c, w.z.b0, w.z.b1, w.z.b2, w.z.b3, Part(n, 8)))
  }

  /** The specification: the three little-endian words of n bytes, padded with zeros, are
      added to a, b and c. */
  function Absorbed(t: Triple, w: Window, n: nat): Triple {
    Triple(Lane(t.a, w.x.b0, w.x.b1, w.x.b2, w.x.b3, Part(n, 0)), Lane(t.b, w.y.b0, w.y.b1, w.y.b2, w.y.b3, Part(n, 4)),
           Lane(t.c, w.z.b0, w.z.b1, w.z.b2, w.z.b3, Part(n, 8)))
  }

  lemma WordsTailIs(t: Triple, w: Window, n: nat)
    requires Ok(t)
    ensures WordsTail(t, w, n) == Absorbed(t, w, n)
  {
    LaneWordsIs(t.a, w.x.b0, w.x.b1, w.x.b2, w.x.b3, Part(n, 0));
    LaneWordsIs(t.b, w.y.b0, w.y.b1, w.y.b2, w.y.b3, Part(n, 4));
    LaneWordsIs(t.c, w.z.b0, w.z.b1, w.z.b2, w.z.b3, Part(n, 8));
  }

  lemma HalvesTailIs(t: Triple, w: Window, n: nat)
    requires Ok(t)
    ensures HalvesTail(t, w, n) == Absorbed(t, w, n)
  {
    LaneHalvesIs(t.a, w.x.b0, w.x.b1, w.x.b2, w.x.b3, Part(n, 0));
    LaneHalvesIs(t.b, w.y.b0, w.y.b1, w.y.b2, w.y.b3, Part(n, 4));
    LaneHalvesIs(t.c, w.z.b0, w.z.b1, w.z.b2, w.z.b3, Part(n, 8));
  }

  lemma BytesTailIs(t: Triple, w: Window, n: nat)
    requires Ok(t)
    ensures BytesTail(t, w, n) == Absorbed(t, w, n)
  {
    LaneBytesDownIs(t.a, w.x.b0, w.x.b1, w.x.b2, w.x.b3, Part(n, 0));
    LaneBytesDownIs(t.b, w.y.b0, w.y.b1, w.y.b2, w.y.b3, Part(n, 4));
    LaneBytesDownIs(t.c, w.z.b0, w.z.b1, w.z.b2, w.z.b3, Part(n, 8));
  }

  lemma BytesBlockIs(t: Triple, w: Window)
    ensures BytesBlock(t, w) == Absorbed(t, w, 12)
  {
    LaneBytesIs(t.a, w.x.b0, w.x.b1, w.x.b2, w.x.b3);
    LaneBytesIs(t.b, w.y.b0, w.y.b1, w.y.b2, w.y.b3);
    LaneBytesIs(t.c, w.z.b0, w.z.b1, w.z.b2, w.z.b3);
  }

  lemma AbsorbedOk(t: Triple, w: Window, n: nat)
    ensures Ok(Absorbed(t, w, n))
  {
  }

  // --------------------------------------------------------------------- the hash

  /** How a path reads a full block and the last one. */
  datatype Reader<!S> = Reader(block: (S, Window) -> S, tail: (S, Window, nat) -> S)

  datatype Mixer<!S> = Mixer(ok: S -> bool, mix: S -> S, finish: S -> S)

  /** n blocks of the key, each mixed. */
  function Fold<S>(r: Reader<S>, m: Mixer<S>, mem: seq<byte>, s: S, n: nat): S {
    if n == 0 then s else m.mix(r.block(Fold(r, m, mem, s, n - 1), WindowAt(mem, 12 * (n - 1))))
  }

  /** All blocks but the last, which has 1 to 12 bytes. */
  function FullBlocks(length: nat): (n: nat)
    ensures length > 0 ==> 12 * n < length <= 12 * n + 12
  {
    if length == 0 then 0 else (length - 1) / 12
  }

  function Digest<S>(r: Reader<S>, m: Mixer<S>, mem: seq<byte>, length: nat, s: S): S {
    if length == 0 then s else
      var n := FullBlocks(length);
      m.finish(r.tail(Fold(r, m, mem, s, n), WindowAt(mem, 12 * n), length - 12 * n))
  }

  /** The loop and the switch of each path. */
  method HashWith<S>(r: Reader<S>, m: Mixer<S>, mem: seq<byte>, length: nat, start: S) returns (s: S)
    ensures s == Digest(r, m, mem, length, start)
  {
    s := start;
    var k, left := 0, length;
    ghost var n := 0;
    while left > 12
      invariant k == 12 * n && k + left == length && s == Fold(r, m, mem, start, n) && (length > 0 ==> left > 0)
    {
      s := m.mix(r.block(s, WindowAt(mem, k)));
      left, k, n := left - 12, k + 12, n + 1;
    }
    if left == 0 {
      return;
    }
    assert n == FullBlocks(length);
    s := m.finish(r.tail(s, WindowAt(mem, k), left));
  }

  ghost predicate Agree<S>(r: Reader<S>, q: Reader<S>, m: Mixer<S>, s: S, w: Window, n: nat) {
    m.ok(s) ==> r.block(s, w) == q.block(s, w) && r.tail(s, w, n) == q.tail(s, w, n) && m.ok(m.mix(q.block(s, w)))
  }

  lemma {:induction false} FoldAgrees<S(!new)>(r: Reader<S>, q: Reader<S>, m: Mixer<S>, mem: seq<byte>, s: S, n: nat)
    requires m.ok(s) && forall s, w, n :: Agree(r, q, m, s, w, n)
    ensures Fold(r, m, mem, s, n) == Fold(q, m, mem, s, n) && m.ok(Fold(q, m, mem, s, n))
  {
    if n > 0 {
      FoldAgrees(r, q, m, mem, s, n - 1);
      assert Agree(r, q, m, Fold(q, m, mem, s, n - 1), WindowAt(mem, 12 * (n - 1)), 0);
    }
  }

  lemma DigestAgrees<S(!new)>(r: Reader<S>, q: Reader<S>, m: Mixer<S>, mem: seq<byte>, length: nat, s: S)
    requires m.ok(s) && forall s, w, n :: Agree(r, q, m, s, w, n)
    ensures Digest(r, m, mem, length, s) == Digest(q, m, mem, length, s)
  {
    if length > 0 {
      var n := FullBlocks(length);
      FoldAgrees(r, q, m, mem, s, n);
      assert Agree(r, q, m, Fold(q, m, mem, s, n), WindowAt(mem, 12 * n), length - 12 * n);
    }
  }

  function Mixing(): Mixer<Triple> {
    Mixer(Ok, t => Mix(Words32(), t), t => Final(Words32(), t))
  }

  /** Reading by words, by halves, by bytes, and the specification. */
  function ByWords(): Reader<Triple> { Reader((t, w) => WordsTail(t, w, 12), WordsTail) }
  function ByHalves(): Reader<Triple> { Reader((t, w) => HalvesTail(t, w, 12), HalvesTail) }
  function ByBytes(): Reader<Triple> { Reader(BytesBlock, BytesTail) }
  function Plainly(): Reader<Triple> { Reader((t, w) => Absorbed(t, w, 12), Absorbed) }

  lemma PathsAgree(t: Triple, w: Window, n: nat)
    ensures Agree(ByWords(), Plainly(), Mixing(), t, w, n)
    ensures Agree(ByHalves(), Plainly(), Mixing(), t, w, n)
    ensures Agree(ByBytes(), Plainly(), Mixing(), t, w, n)
  {
    if Ok(t) {
      WordsTailIs(t, w, n);
      WordsTailIs(t, w, 12);
      HalvesTailIs(t, w, n);
      HalvesTailIs(t, w, 12);
      BytesTailIs(t, w, n);
      BytesBlockIs(t, w);
      AbsorbedOk(t, w, 12);
      MixIsBijective(Absorbed(t, w, 12));
    }
  }

  /** The seed and the length, in all three. */
  function Start(length: nat): Triple {
    var x := (0xdeadbeef + length) % M;
    Triple(x, x, x)
  }

  /** The hash of a byte string: one fold over its blocks. */
  function Hash(key: seq<byte>): int {
    Digest(Plainly(), Mixing(), key, |key|, Start(|key|)).c
  }

  /** Nothing is mixed for the empty key. */
  lemma EmptyHash()
    ensures Hash([]) == 0xdeadbeef
  {
  }

  lemma WindowInside(mem: seq<byte>, length: nat, i: nat)
    requires i + 12 <= length <= |mem|
    ensures WindowAt(mem[..length], i) == WindowAt(mem, i)
  {
  }

  lemma LaneInside(x: int, mem: seq<byte>, length: nat, i: nat, m: nat)
    requires i + m <= length <= |mem| && m <= 4
    ensures var w, v := Bytes4At(mem, i), Bytes4At(mem[..length], i);
            Lane(x, w.b0, w.b1, w.b2, w.b3, m) == Lane(x, v.b0, v.b1, v.b2, v.b3, m)
  {
  }

  lemma NoLane(x: int, v: Bytes4, w: Bytes4)
    ensures Lane(x, w.b0, w.b1, w.b2, w.b3, 0) == Lane(x, v.b0, v.b1, v.b2, v.b3, 0)
  {
  }

  /** What follows the key in memory does not matter. */
  lemma TailInside(t: Triple, mem: seq<byte>, length: nat, i: nat, n: nat)
    requires i + n == length <= |mem| && n <= 12
    ensures Absorbed(t, WindowAt(mem[..length], i), n) == Absorbed(t, WindowAt(mem, i), n)
  {
    var w, v := WindowAt(mem, i), WindowAt(mem[..length], i);
    LaneInside(t.a, mem, length, i, Part(n, 0));
    if n > 4 { LaneInside(t.b, mem, length, i + 4, Part(n, 4)); } else { NoLane(t.b, v.y, w.y); }
    if n > 8 { LaneInside(t.c, mem, length, i + 8, Part(n, 8)); } else { NoLane(t.c, v.z, w.z); }
  }

  lemma {:induction false} FoldInside<S>(r: Reader<S>, m: Mixer<S>, mem: seq<byte>, length: nat, s: S, n: nat)
    requires 12 * n <= length <= |mem|
    ensures Fold(r, m, mem[..length], s, n) == Fold(r, m, mem, s, n)
  {
    if n > 0 {
      FoldInside(r, m, mem, length, s, n - 1);
      WindowInside(mem, length, 12 * (n - 1));
    }
  }

  lemma DigestInside(mem: seq<byte>, length: nat, t: Triple)
    requires length <= |mem|
    ensures Digest(Plainly(), Mixing(), mem[..length], length, t) == Digest(Plainly(), Mixing(), mem, length, t)
  {
    if length > 0 {
      var n := FullBlocks(length);
      FoldInside(Plainly(), Mixing(), mem, length, t, n);
      TailInside(Fold(Plainly(), Mixing(), mem, t, n), mem, length, 12 * n, length - 12 * n);
    }
  }

  lemma CutSum(x: nat, y: nat)
    ensures (x + y % M) % M == (x + y) % M
  {
    assert x + y == x + y % M + M * (y / M);
  }

  /** The length is cut to 32 bits before it is added. */
  method Seed(length: nat) returns (s: Triple)
    ensures s == Start(length)
  {
    var x := Add(Add(0xdeadbeef, length % M), 0);
    CutSum(0xdeadbeef, length);
    s := Triple(x, x, x);
  }

  /** jenkins_hash: whatever the alignment of the key and whatever follows it in memory,
      the result is the hash of its bytes. */
  method JenkinsHash(address: nat, mem: seq<byte>, length: nat) returns (h: int)
    requires length <= |mem|
    ensures h == Hash(mem[..length])
  {
    var start := Seed(length);
    var m := Mixing();
    var t;
    forall s, w, n
      ensures Agree(ByWords(), Plainly(), m, s, w, n) && Agree(ByHalves(), Plainly(), m, s, w, n)
      ensures Agree(ByBytes(), Plainly(), m, s, w, n)
    {
      PathsAgree(s, w, n);
    }
    if address % 4 == 0 {
      t := HashWith(ByWords(), m, mem, length, start);
      DigestAgrees(ByWords(), Plainly(), m, mem, length, start);
    } else if address % 2 == 0 {
      t := HashWith(ByHalves(), m, mem, length, start);
      DigestAgrees(ByHalves(), Plainly(), m, mem, length, start);
    } else {
      t := HashWith(ByBytes(), m, mem, length, start);
      DigestAgrees(ByBytes(), Plainly(), m, mem, length, start);
    }
    DigestInside(mem, length, start);
    h := t.c;
  }
}
