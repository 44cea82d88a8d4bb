/**
 md5_process: the 64 steps of MD5 on `unsigned long` words that are never cut to
 32 bits, against sections 3.3 to 3.5 of RFC 1321 on 32-bit words.
 */
module Md5Rounds {
  import opened Words

  /** The word operations of a step, for words of any width. */
  datatype Arith<!W> = Arith(add: (W, W) -> W, mix: (nat, W, W, W) -> W, rot: (W, nat) -> W, constant: bv32 -> W,
                             word: (byte, byte, byte, byte) -> W)

  /** P(a, b, c, d, k, s, t) in round `r`. */
  datatype Op = Op(r: nat, k: nat, s: nat, t: bv32)

  datatype Regs<W> = Regs(a: W, b: W, c: W, d: W)

  /** a += F(b, c, d) + X[k] + t; a = S(a, s) + b. The names then move on by one, as
      they do from line to line of the code. */
  function Step<W>(ar: Arith<W>, op: Op, v: Regs<W>, x: W): Regs<W> {
    var sum := ar.add(v.a, ar.add(ar.add(ar.mix(op.r, v.b, v.c, v.d), x), ar.constant(op.t)));
    Regs(v.d, ar.add(ar.rot(sum, op.s), v.b), v.b, v.c)
  }

  predicate OpsOk(ops: seq<Op>) {
    forall i :: 0 <= i < |ops| ==> OpOk(ops[i])
  }

  predicate OpOk(op: Op) {
    op.r < 4 && op.k < 16 && IsShift(op.s)
  }

  /** The shift amounts of MD5. */
  predicate IsShift(s: nat) {
    || s == 7 || s == 12 || s == 17 || s == 22 || s == 5 || s == 9 || s == 14 || s == 20
    || s == 4 || s == 11 || s == 16 || s == 23 || s == 6 || s == 10 || s == 15 || s == 21
  }

  function Steps<W>(ar: Arith<W>, ops: seq<Op>, n: nat, v: Regs<W>, x: seq<W>): Regs<W>
    requires n <= |ops| && OpsOk(ops) && |x| == 16
  {
    if n == 0 then v else
      assert OpOk(ops[n - 1]);
      Step(ar, ops[n - 1], Steps(ar, ops, n - 1, v, x), x[ops[n - 1].k])
  }

  /** The sixteen words of a block, low-order byte first. */
  function Words16<W>(ar: Arith<W>, data: seq<byte>): (x: seq<W>)
    requires |data| == 64
    ensures |x| == 16
  {
    seq(16, i requires 0 <= i < 16 => ar.word(data[4 * i], data[4 * i + 1], data[4 * i + 2], data[4 * i + 3]))
  }

  /** md5_process. */
  function Process<W>(ar: Arith<W>, ops: seq<Op>, v: Regs<W>, data: seq<byte>): Regs<W>
    requires OpsOk(ops)
  {
    if |data| != 64 then v else
      var w := Steps(ar, ops, |ops|, v, Words16(ar, data));
      Regs(ar.add(v.a, w.a), ar.add(v.b, w.b), ar.add(v.c, w.c), ar.add(v.d, w.d))
  }

  // ------------------------------------------------- one width stands for another

  ghost predicate Adds<W, V>(ar: Arith<W>, br: Arith<V>, h: W -> V, x: W, y: W) {
    h(ar.add(x, y)) == br.add(h(x), h(y))
  }

  ghost predicate Mixes<W, V>(ar: Arith<W>, br: Arith<V>, h: W -> V, r: nat, x: W, y: W, z: W) {
    r < 4 ==> h(ar.mix(r, x, y, z)) == br.mix(r, h(x), h(y), h(z))
  }

  ghost predicate Rotates<W, V>(ar: Arith<W>, br: Arith<V>, h: W -> V, x: W, s: nat) {
    IsShift(s) ==> h(ar.rot(x, s)) == br.rot(h(x), s)
  }

  ghost predicate Reads<W, V>(ar: Arith<W>, br: Arith<V>, h: W -> V, a: byte, b: byte, c: byte, d: byte) {
    h(ar.word(a, b, c, d)) == br.word(a, b, c, d)
  }

  /** `h` turns the operations of one width into those of another. */
  ghost predicate Maps<W(!new), V>(ar: Arith<W>, br: Arith<V>, h: W -> V) {
    && (forall x, y :: Adds(ar, br, h, x, y)) && (forall r, x, y, z :: Mixes(ar, br, h, r, x, y, z))
    && (forall x, s :: Rotates(ar, br, h, x, s)) && (forall t :: h(ar.constant(t)) == br.constant(t))
    && (forall a, b, c, d :: Reads(ar, br, h, a, b, c, d))
  }

  function Map<W, V>(h: W -> V, v: Regs<W>): Regs<V> {
    Regs(h(v.a), h(v.b), h(v.c), h(v.d))
  }

  lemma StepMaps<W(!new), V>(ar: Arith<W>, br: Arith<V>, h: W -> V, op: Op, v: Regs<W>, x: W)
    requires Maps(ar, br, h) && OpOk(op)
    ensures Map(h, Step(ar, op, v, x)) == Step(br, op, Map(h, v), h(x))
  {
    var f := ar.mix(op.r, v.b, v.c, v.d);
    var g := ar.add(f, x);
    var e := ar.add(g, ar.constant(op.t));
    var sum := ar.add(v.a, e);
    assert Mixes(ar, br, h, op.r, v.b, v.c, v.d) && Adds(ar, br, h, f, x) && Adds(ar, br, h, g, ar.constant(op.t));
    assert Adds(ar, br, h, v.a, e) && Rotates(ar, br, h, sum, op.s) && Adds(ar, br, h, ar.rot(sum, op.s), v.b);
  }

  lemma {:induction false} StepsMap<W(!new), V>(ar: Arith<W>, br: Arith<V>, h: W -> V, ops: seq<Op>, n: nat,
                                                v: Regs<W>, x: seq<W>, y: seq<V>)
    requires Maps(ar, br, h) && OpsOk(ops) && n <= |ops| && |x| == |y| == 16
    requires forall i :: 0 <= i < 16 ==> h(x[i]) == y[i]
    ensures Map(h, Steps(ar, ops, n, v, x)) == Steps(br, ops, n, Map(h, v), y)
  {
    if n > 0 {
      StepsMap(ar, br, h, ops, n - 1, v, x, y);
      assert OpOk(ops[n - 1]);
      StepMaps(ar, br, h, ops[n - 1], Steps(ar, ops, n - 1, v, x), x[ops[n - 1].k]);
    }
  }

  lemma ProcessMaps<W(!new), V>(ar: Arith<W>, br: Arith<V>, h: W -> V, ops: seq<Op>, v: Regs<W>, data: seq<byte>)
    requires Maps(ar, br, h) && OpsOk(ops)
    ensures Map(h, Process(ar, ops, v, data)) == Process(br, ops, Map(h, v), data)
  {
    if |data| == 64 {
      var x, y := Words16(ar, data), Words16(br, data);
      forall i | 0 <= i < 16 ensures h(x[i]) == y[i] {
        assert Reads(ar, br, h, data[4 * i], data[4 * i + 1], data[4 * i + 2], data[4 * i + 3]);
      }
      StepsMap(ar, br, h, ops, |ops|, v, x, y);
      var w := Steps(ar, ops, |ops|, v, x);
      assert Adds(ar, br, h, v.a, w.a) && Adds(ar, br, h, v.b, w.b) && Adds(ar, br, h, v.c, w.c);
      assert Adds(ar, br, h, v.d, w.d);
    }
  }
}

module Md5 {
  import opened Words
  import opened Md5Rounds
  import St = Md5Stream
  import Sines = Md5Sines

  // ------------------------------------------------------------- 64-bit words

  /** The four F macros. */
  function F0(x: ulong, y: ulong, z: ulong): ulong { z ^ (x & (y ^ z)) }
  function F1(x: ulong, y: ulong, z: ulong): ulong { y ^ (z & (x ^ y)) }
  function F2(x: ulong, y: ulong, z: ulong): ulong { x ^ y ^ z }
  function F3(x: ulong, y: ulong, z: ulong): ulong { y ^ (x | !z) }

  function MixLong(r: nat, x: ulong, y: ulong, z: ulong): ulong {
    if r == 0 then F0(x, y, z) else if r == 1 then F1(x, y, z) else if r == 2 then F2(x, y, z) else F3(x, y, z)
  }

  /** S(x, n) for the amounts MD5 uses: the left part keeps bits above 32, only the
      right part is cut. */
  function RotLong(x: ulong, n: nat): ulong {
    if n == 7 then (x << 7) | ((x & 0xFFFF_FFFF) >> 25)
    else if n == 12 then (x << 12) | ((x & 0xFFFF_FFFF) >> 20)
    else if n == 17 then (x << 17) | ((x & 0xFFFF_FFFF) >> 15)
    else if n == 22 then (x << 22) | ((x & 0xFFFF_FFFF) >> 10)
    else if n == 5 then (x << 5) | ((x & 0xFFFF_FFFF) >> 27)
    else if n == 9 then (x << 9) | ((x & 0xFFFF_FFFF) >> 23)
    else if n == 14 then (x << 14) | ((x & 0xFFFF_FFFF) >> 18)
    else if n == 20 then (x << 20) | ((x & 0xFFFF_FFFF) >> 12)
    else if n == 4 then (x << 4) | ((x & 0xFFFF_FFFF) >> 28)
    else if n == 11 then (x << 11) | ((x & 0xFFFF_FFFF) >> 21)
    else if n == 16 then (x << 16) | ((x & 0xFFFF_FFFF) >> 16)
    else if n == 23 then (x << 23) | ((x & 0xFFFF_FFFF) >> 9)
    else if n == 6 then (x << 6) | ((x & 0xFFFF_FFFF) >> 26)
    else if n == 10 then (x << 10) | ((x & 0xFFFF_FFFF) >> 22)
    else if n == 15 then (x << 15) | ((x & 0xFFFF_FFFF) >> 17)
    else if n == 21 then (x << 21) | ((x & 0xFFFF_FFFF) >> 11)
    else x
  }

  /** GET_UINT32_LE. */
  function WordLong(a: byte, b: byte, c: byte, d: byte): ulong {
    (a as ulong) | ((b as ulong) << 8) | ((c as ulong) << 16) | ((d as ulong) << 24)
  }

  function AddLong(x: ulong, y: ulong): ulong { x + y }

  function WideConstant(t: bv32): ulong { t as ulong }

  function Long(): Arith<ulong> {
    Arith(AddLong, MixLong, RotLong, WideConstant, WordLong)
  }

  // ------------------------------------------------------ 32-bit words of RFC 1321

  /** F, G, H and I of section 3.4. */
  function RfcF(x: bv32, y: bv32, z: bv32): bv32 { (x & y) | (!x & z) }
  function RfcG(x: bv32, y: bv32, z: bv32): bv32 { (x & z) | (y & !z) }
  function RfcH(x: bv32, y: bv32, z: bv32): bv32 { x ^ y ^ z }
  function RfcI(x: bv32, y: bv32, z: bv32): bv32 { y ^ (x | !z) }

  function Mix32(r: nat, x: bv32, y: bv32, z: bv32): bv32 {
    if r == 0 then RfcF(x, y, z) else if r == 1 then RfcG(x, y, z) else if r == 2 then RfcH(x, y, z) else RfcI(x, y, z)
  }

  function Rot32(x: bv32, n: nat): bv32 {
    if n == 7 then (x << 7) | (x >> 25)
    else if n == 12 then (x << 12) | (x >> 20)
    else if n == 17 then (x << 17) | (x >> 15)
    else if n == 22 then (x << 22) | (x >> 10)
    else if n == 5 then (x << 5) | (x >> 27)
    else if n == 9 then (x << 9) | (x >> 23)
    else if n == 14 then (x << 14) | (x >> 18)
    else if n == 20 then (x << 20) | (x >> 12)
    else if n == 4 then (x << 4) | (x >> 28)
    else if n == 11 then (x << 11) | (x >> 21)
    else if n == 16 then (x << 16) | (x >> 16)
    else if n == 23 then (x << 23) | (x >> 9)
    else if n == 6 then (x << 6) | (x >> 26)
    else if n == 10 then (x << 10) | (x >> 22)
    else if n == 15 then (x << 15) | (x >> 17)
    else if n == 21 then (x << 21) | (x >> 11)
    else x
  }

  function Word32(a: byte, b: byte, c: byte, d: byte): bv32 {
    (a as bv32) | ((b as bv32) << 8) | ((c as bv32) << 16) | ((d as bv32) << 24)
  }

  function Add32(x: bv32, y: bv32): bv32 { x + y }

  function Same32(t: bv32): bv32 { t }

  function Rfc(): Arith<bv32> {
    Arith(Add32, Mix32, Rot32, Same32, Word32)
  }

  /** The low 32 bits. */
  function Cut(x: ulong): bv32 {
    (x & 0xFFFF_FFFF) as bv32
  }

  // Addition, by way of masked 64-bit sums.

  lemma MaskedSum(x: ulong, y: ulong)
    ensures (x + y) & 0xFFFF_FFFF == ((x & 0xFFFF_FFFF) + (y & 0xFFFF_FFFF)) & 0xFFFF_FFFF
  {
  }

  lemma NarrowSum(a: bv32, b: bv32)
    ensures ((a as ulong) + (b as ulong)) & 0xFFFF_FFFF == (a + b) as ulong
  {
  }

  lemma CutConstant(t: bv32)
    ensures Cut(WideConstant(t)) == Same32(t)
  {
  }

  /** a is the low half of x. */
  predicate Half(x: ulong, a: bv32) {
    x & 0xFFFF_FFFF == a as ulong
  }

  lemma HalfIsCut(x: ulong, a: bv32)
    ensures Half(x, a) <==> Cut(x) == a
  {
  }

  lemma MaskedHalves(x: ulong, y: ulong, a: bv32, b: bv32)
    requires x & 0xFFFF_FFFF == a as ulong && y & 0xFFFF_FFFF == b as ulong
    ensures (x + y) & 0xFFFF_FFFF == (a + b) as ulong
  {
    MaskedSum(x, y);
    NarrowSum(a, b);
  }

  lemma HalfSum(x: ulong, y: ulong, a: bv32, b: bv32)
    requires Half(x, a) && Half(y, b)
    ensures Half(x + y, a + b)
  {
    MaskedHalves(x, y, a, b);
  }

  lemma LongSum(x: ulong, y: ulong, s: ulong)
    requires s == AddLong(x, y)
    ensures s == x + y
  {
  }

  lemma SumOf32(x: bv32, y: bv32, s: bv32)
    requires s == Add32(x, y)
    ensures s == x + y
  {
  }

  lemma HalfOfSum(x: ulong, y: ulong, a: bv32, b: bv32, s: ulong, t: bv32)
    requires Half(x, a) && Half(y, b) && s == AddLong(x, y) && t == Add32(a, b)
    ensures Half(s, t)
  {
    LongSum(x, y, s);
    SumOf32(a, b, t);
    HalfSum(x, y, a, b);
  }

  lemma CutAdds(x: ulong, y: ulong)
    ensures Cut(AddLong(x, y)) == Add32(Cut(x), Cut(y))
  {
    HalfIsCut(x, Cut(x));
    HalfIsCut(y, Cut(y));
    HalfOfSum(x, y, Cut(x), Cut(y), AddLong(x, y), Add32(Cut(x), Cut(y)));
    HalfIsCut(AddLong(x, y), Add32(Cut(x), Cut(y)));
  }

  // The two forms of each auxiliary function.

  lemma CutMix0(x: ulong, y: ulong, z: ulong)
    ensures Cut(F0(x, y, z)) == RfcF(Cut(x), Cut(y), Cut(z))
  {
  }

  lemma CutMix1(x: ulong, y: ulong, z: ulong)
    ensures Cut(F1(x, y, z)) == RfcG(Cut(x), Cut(y), Cut(z))
  {
  }

  lemma CutMix2(x: ulong, y: ulong, z: ulong)
    ensures Cut(F2(x, y, z)) == RfcH(Cut(x), Cut(y), Cut(z))
  {
  }

  lemma CutMix3(x: ulong, y: ulong, z: ulong)
    ensures Cut(F3(x, y, z)) == RfcI(Cut(x), Cut(y), Cut(z))
  {
  }

  lemma CutMixes(r: nat, x: ulong, y: ulong, z: ulong)
    requires r < 4
    ensures Cut(MixLong(r, x, y, z)) == Mix32(r, Cut(x), Cut(y), Cut(z))
  {
    if r == 0 {
      CutMix0(x, y, z);
    } else if r == 1 {
      CutMix1(x, y, z);
    } else if r == 2 {
      CutMix2(x, y, z);
    } else {
      CutMix3(x, y, z);
    }
  }

  lemma CutRot7(x: ulong)
    ensures Cut((x << 7) | ((x & 0xFFFF_FFFF) >> 25)) == (Cut(x) << 7) | (Cut(x) >> 25)
  {
  }

  lemma CutRot12(x: ulong)
    ensures Cut((x << 12) | ((x & 0xFFFF_FFFF) >> 20)) == (Cut(x) << 12) | (Cut(x) >> 20)
  {
  }

  lemma CutRot17(x: ulong)
    ensures Cut((x << 17) | ((x & 0xFFFF_FFFF) >> 15)) == (Cut(x) << 17) | (Cut(x) >> 15)
  {
  }

  lemma CutRot22(x: ulong)
    ensures Cut((x << 22) | ((x & 0xFFFF_FFFF) >> 10)) == (Cut(x) << 22) | (Cut(x) >> 10)
  {
  }

  lemma CutRot5(x: ulong)
    ensures Cut((x << 5) | ((x & 0xFFFF_FFFF) >> 27)) == (Cut(x) << 5) | (Cut(x) >> 27)
  {
  }

  lemma CutRot9(x: ulong)
    ensures Cut((x << 9) | ((x & 0xFFFF_FFFF) >> 23)) == (Cut(x) << 9) | (Cut(x) >> 23)
  {
  }

  lemma CutRot14(x: ulong)
    ensures Cut((x << 14) | ((x & 0xFFFF_FFFF) >> 18)) == (Cut(x) << 14) | (Cut(x) >> 18)
  {
  }

  lemma CutRot20(x: ulong)
    ensures Cut((x << 20) | ((x & 0xFFFF_FFFF) >> 12)) == (Cut(x) << 20) | (Cut(x) >> 12)
  {
  }

  lemma CutRot4(x: ulong)
    ensures Cut((x << 4) | ((x & 0xFFFF_FFFF) >> 28)) == (Cut(x) << 4) | (Cut(x) >> 28)
  {
  }

  lemma CutRot11(x: ulong)
    ensures Cut((x << 11) | ((x & 0xFFFF_FFFF) >> 21)) == (Cut(x) << 11) | (Cut(x) >> 21)
  {
  }

  lemma CutRot16(x: ulong)
    ensures Cut((x << 16) | ((x & 0xFFFF_FFFF) >> 16)) == (Cut(x) << 16) | (Cut(x) >> 16)
  {
  }

  lemma CutRot23(x: ulong)
    ensures Cut((x << 23) | ((x & 0xFFFF_FFFF) >> 9)) == (Cut(x) << 23) | (Cut(x) >> 9)
  {
  }

  lemma CutRot6(x: ulong)
    ensures Cut((x << 6) | ((x & 0xFFFF_FFFF) >> 26)) == (Cut(x) << 6) | (Cut(x) >> 26)
  {
  }

  lemma CutRot10(x: ulong)
    ensures Cut((x << 10) | ((x & 0xFFFF_FFFF) >> 22)) == (Cut(x) << 10) | (Cut(x) >> 22)
  {
  }

  lemma CutRot15(x: ulong)
    ensures Cut((x << 15) | ((x & 0xFFFF_FFFF) >> 17)) == (Cut(x) << 15) | (Cut(x) >> 17)
  {
  }

  lemma CutRot21(x: ulong)
    ensures Cut((x << 21) | ((x & 0xFFFF_FFFF) >> 11)) == (Cut(x) << 21) | (Cut(x) >> 11)
  {
  }

  lemma CutRotates(x: ulong, s: nat)
    requires IsShift(s)
    ensures Cut(RotLong(x, s)) == Rot32(Cut(x), s)
  {
    if s == 7 {
      CutRot7(x);
    } else if s == 12 {
      CutRot12(x);
    } else if s == 17 {
      CutRot17(x);
    } else if s == 22 {
      CutRot22(x);
    } else if s == 5 {
      CutRot5(x);
    } else if s == 9 {
      CutRot9(x);
    } else if s == 14 {
      CutRot14(x);
    } else if s == 20 {
      CutRot20(x);
    } else if s == 4 {
      CutRot4(x);
    } else if s == 11 {
      CutRot11(x);
    } else if s == 16 {
      CutRot16(x);
    } else if s == 23 {
      CutRot23(x);
    } else if s == 6 {
      CutRot6(x);
    } else if s == 10 {
      CutRot10(x);
    } else if s == 15 {
      CutRot15(x);
    } else if s == 21 {
      CutRot21(x);
    }
  }

  lemma CutWord(a: byte, b: byte, c: byte, d: byte)
    ensures Cut(WordLong(a, b, c, d)) == Word32(a, b, c, d)
  {
  }

  /** Unmasked 64-bit arithmetic agrees with 32-bit arithmetic on the low halves. */
  lemma CutMaps()
    ensures Maps(Long(), Rfc(), Cut)
  {
    var ar, br := Long(), Rfc();
    forall x, y ensures Adds(ar, br, Cut, x, y) { CutAdds(x, y); }
    forall r, x, y, z ensures Mixes(ar, br, Cut, r, x, y, z) {
      if r < 4 { CutMixes(r, x, y, z); }
    }
    forall x, s ensures Rotates(ar, br, Cut, x, s) {
      if IsShift(s) { CutRotates(x, s); }
    }
    forall t ensures Cut(ar.constant(t)) == br.constant(t) { CutConstant(t); }
    forall a, b, c, d ensures Reads(ar, br, Cut, a, b, c, d) { CutWord(a, b, c, d); }
  }

  // --------------------------------------------------------------- the 64 steps

  // The lines P(...) of the code, by round.

  function Line0(i: nat): Op {
    if i == 0 then Op(0, 0, 7, 0xD76A_A478)
    else if i == 1 then Op(0, 1, 12, 0xE8C7_B756)
    else if i == 2 then Op(0, 2, 17, 0x2420_70DB)
    else if i == 3 then Op(0, 3, 22, 0xC1BD_CEEE)
    else if i == 4 then Op(0, 4, 7, 0xF57C_0FAF)
    else if i == 5 then Op(0, 5, 12, 0x4787_C62A)
    else if i == 6 then Op(0, 6, 17, 0xA830_4613)
    else if i == 7 then Op(0, 7, 22, 0xFD46_9501)
    else if i == 8 then Op(0, 8, 7, 0x6980_98D8)
    else if i == 9 then Op(0, 9, 12, 0x8B44_F7AF)
    else if i == 10 then Op(0, 10, 17, 0xFFFF_5BB1)
    else if i == 11 then Op(0, 11, 22, 0x895C_D7BE)
    else if i == 12 then Op(0, 12, 7, 0x6B90_1122)
    else if i == 13 then Op(0, 13, 12, 0xFD98_7193)
    else if i == 14 then Op(0, 14, 17, 0xA679_438E)
    else Op(0, 15, 22, 0x49B4_0821)
  }

  function Line1(i: nat): Op {
    if i == 16 then Op(1, 1, 5, 0xF61E_2562)
    else if i == 17 then Op(1, 6, 9, 0xC040_B340)
    else if i == 18 then Op(1, 11, 14, 0x265E_5A51)
    else if i == 19 then Op(1, 0, 20, 0xE9B6_C7AA)
    else if i == 20 then Op(1, 5, 5, 0xD62F_105D)
    else if i == 21 then Op(1, 10, 9, 0x0244_1453)
    else if i == 22 then Op(1, 15, 14, 0xD8A1_E681)
    else if i == 23 then Op(1, 4, 20, 0xE7D3_FBC8)
    else if i == 24 then Op(1, 9, 5, 0x21E1_CDE6)
    else if i == 25 then Op(1, 14, 9, 0xC337_07D6)
    else if i == 26 then Op(1, 3, 14, 0xF4D5_0D87)
    else if i == 27 then Op(1, 8, 20, 0x455A_14ED)
    else if i == 28 then Op(1, 13, 5, 0xA9E3_E905)
    else if i == 29 then Op(1, 2, 9, 0xFCEF_A3F8)
    else if i == 30 then Op(1, 7, 14, 0x676F_02D9)
    else Op(1, 12, 20, 0x8D2A_4C8A)
  }

  function Line2(i: nat): Op {
    if i == 32 then Op(2, 5, 4, 0xFFFA_3942)
    else if i == 33 then Op(2, 8, 11, 0x8771_F681)
    else if i == 34 then Op(2, 11, 16, 0x6D9D_6122)
    else if i == 35 then Op(2, 14, 23, 0xFDE5_380C)
    else if i == 36 then Op(2, 1, 4, 0xA4BE_EA44)
    else if i == 37 then Op(2, 4, 11, 0x4BDE_CFA9)
    else if i == 38 then Op(2, 7, 16, 0xF6BB_4B60)
    else if i == 39 then Op(2, 10, 23, 0xBEBF_BC70)
    else if i == 40 then Op(2, 13, 4, 0x289B_7EC6)
    else if i == 41 then Op(2, 0, 11, 0xEAA1_27FA)
    else if i == 42 then Op(2, 3, 16, 0xD4EF_3085)
    else if i == 43 then Op(2, 6, 23, 0x0488_1D05)
    else if i == 44 then Op(2, 9, 4, 0xD9D4_D039)
    else if i == 45 then Op(2, 12, 11, 0xE6DB_99E5)
    else if i == 46 then Op(2, 15, 16, 0x1FA2_7CF8)
    else Op(2, 2, 23, 0xC4AC_5665)
  }

  function Line3(i: nat): Op {
    if i == 48 then Op(3, 0, 6, 0xF429_2244)
    else if i == 49 then Op(3, 7, 10, 0x432A_FF97)
    else if i == 50 then Op(3, 14, 15, 0xAB94_23A7)
    else if i == 51 then Op(3, 5, 21, 0xFC93_A039)
    else if i == 52 then Op(3, 12, 6, 0x655B_59C3)
    else if i == 53 then Op(3, 3, 10, 0x8F0C_CC92)
    else if i == 54 then Op(3, 10, 15, 0xFFEF_F47D)
    else if i == 55 then Op(3, 1, 21, 0x8584_5DD1)
    else if i == 56 then Op(3, 8, 6, 0x6FA8_7E4F)
    else if i == 57 then Op(3, 15, 10, 0xFE2C_E6E0)
    else if i == 58 then Op(3, 6, 15, 0xA301_4314)
    else if i == 59 then Op(3, 13, 21, 0x4E08_11A1)
    else if i == 60 then Op(3, 4, 6, 0xF753_7E82)
    else if i == 61 then Op(3, 11, 10, 0xBD3A_F235)
    else if i == 62 then Op(3, 2, 15, 0x2AD7_D2BB)
    else Op(3, 9, 21, 0xEB86_D391)
  }

  function Line(i: nat): Op {
    if i < 16 then Line0(i) else if i < 32 then Line1(i) else if i < 48 then Line2(i) else Line3(i)
  }

  function Table(): (ops: seq<Op>)
    ensures |ops| == 64
  {
    seq(64, i requires i >= 0 => Line(i))
  }

  /** The index and shift of step i (counted from 0) in section 3.4 of RFC 1321. */
  function RfcIndex(i: nat): nat {
    if i < 16 then i else if i < 32 then (5 * i + 1) % 16 else if i < 48 then (3 * i + 5) % 16 else 7 * i % 16
  }

  function RfcShift(i: nat): nat {
    if i < 16 then (if i % 4 == 0 then 7 else if i % 4 == 1 then 12 else if i % 4 == 2 then 17 else 22)
    else if i < 32 then (if i % 4 == 0 then 5 else if i % 4 == 1 then 9 else if i % 4 == 2 then 14 else 20)
    else if i < 48 then (if i % 4 == 0 then 4 else if i % 4 == 1 then 11 else if i % 4 == 2 then 16 else 23)
    else (if i % 4 == 0 then 6 else if i % 4 == 1 then 10 else if i % 4 == 2 then 15 else 21)
  }

  /** Round, word index and shift of step i. */
  predicate IsRfcForm(op: Op, i: nat) {
    op.r == i / 16 && op.k == RfcIndex(i) && op.s == RfcShift(i)
  }

  /** The same, and the constant T[i + 1], which the RFC derives from the sine. */
  ghost predicate IsRfcOp(op: Op, i: nat) {
    IsRfcForm(op, i) && Sines.IsSineConstant(op.t as int, i + 1)
  }

  lemma Line0IsRfc(i: nat)
    requires 0 <= i < 16
    ensures IsRfcForm(Line0(i), i)
  {
  }

  lemma Line1IsRfc(i: nat)
    requires 16 <= i < 32
    ensures IsRfcForm(Line1(i), i)
  {
  }

  lemma Line2IsRfc(i: nat)
    requires 32 <= i < 48
    ensures IsRfcForm(Line2(i), i)
  {
  }

  lemma Line3IsRfc(i: nat)
    requires 48 <= i < 64
    ensures IsRfcForm(Line3(i), i)
  {
  }

  /** The point at i + 1 gives the constant of line i, ... */
  predicate GivesConstant(i: nat) {
    Sines.Gives(Sines.Row(i + 1), Line(i).t as int)
  }

  /** ... which is therefore the one of the RFC. */
  ghost predicate SineAt(i: nat) {
    Sines.IsSineConstant(Line(i).t as int, i + 1)
  }

  lemma GivenAt(i: nat)
    requires i < 64 && GivesConstant(i)
    ensures SineAt(i)
  {
    Sines.GivesSine(Line(i).t as int, i + 1);
  }

  lemma OneOfFour(f: nat -> bool, n: nat, i: nat)
    requires n <= i < n + 4 && f(n) && f(n + 1) && f(n + 2) && f(n + 3)
    ensures f(i)
  {
    assert i == n || i == n + 1 || i == n + 2 || i == n + 3;
  }

  lemma Given0()
    ensures SineAt(0) && SineAt(1) && SineAt(2) && SineAt(3)
  {
    GivenAt(0);
    GivenAt(1);
    GivenAt(2);
    GivenAt(3);
  }

  lemma Sines0(i: nat)
    requires 0 <= i < 4
    ensures SineAt(i)
  {
    Given0();
    OneOfFour(SineAt, 0, i);
  }

  lemma Given1()
    ensures SineAt(4) && SineAt(5) && SineAt(6) && SineAt(7)
  {
    GivenAt(4);
    GivenAt(5);
    GivenAt(6);
    GivenAt(7);
  }

  lemma Sines1(i: nat)
    requires 4 <= i < 8
    ensures SineAt(i)
  {
    Given1();
    OneOfFour(SineAt, 4, i);
  }

  lemma Given2()
    ensures SineAt(8) && SineAt(9) && SineAt(10) && SineAt(11)
  {
    GivenAt(8);
    GivenAt(9);
    GivenAt(10);
    GivenAt(11);
  }

  lemma Sines2(i: nat)
    requires 8 <= i < 12
    ensures SineAt(i)
  {
    Given2();
    OneOfFour(SineAt, 8, i);
  }

  lemma Given3()
    ensures SineAt(12) && SineAt(13) && SineAt(14) && SineAt(15)
  {
    GivenAt(12);
    GivenAt(13);
    GivenAt(14);
    GivenAt(15);
  }

  lemma Sines3(i: nat)
    requires 12 <= i < 16
    ensures SineAt(i)
  {
    Given3();
    OneOfFour(SineAt, 12, i);
  }

  lemma Given4()
    ensures SineAt(16) && SineAt(17) && SineAt(18) && SineAt(19)
  {
    GivenAt(16);
    GivenAt(17);
    GivenAt(18);
    GivenAt(19);
  }

  lemma Sines4(i: nat)
    requires 16 <= i < 20
    ensures SineAt(i)
  {
    Given4();
    OneOfFour(SineAt, 16, i);
  }

  lemma Given5()
    ensures SineAt(20) && SineAt(21) && SineAt(22) && SineAt(23)
  {
    GivenAt(20);
    GivenAt(21);
    GivenAt(22);
    GivenAt(23);
  }

  lemma Sines5(i: nat)
    requires 20 <= i < 24
    ensures SineAt(i)
  {
    Given5();
    OneOfFour(SineAt, 20, i);
  }

  lemma Given6()
    ensures SineAt(24) && SineAt(25) && SineAt(26) && SineAt(27)
  {
    GivenAt(24);
    GivenAt(25);
    GivenAt(26);
    GivenAt(27);
  }

  lemma Sines6(i: nat)
    requires 24 <= i < 28
    ensures SineAt(i)
  {
    Given6();
    OneOfFour(SineAt, 24, i);
  }

  lemma Given7()
    ensures SineAt(28) && SineAt(29) && SineAt(30) && SineAt(31)
  {
    GivenAt(28);
    GivenAt(29);
    GivenAt(30);
    GivenAt(31);
  }

  lemma Sines7(i: nat)
    requires 28 <= i < 32
    ensures SineAt(i)
  {
    Given7();
    OneOfFour(SineAt, 28, i);
  }

  lemma Given8()
    ensures SineAt(32) && SineAt(33) && SineAt(34) && SineAt(35)
  {
    GivenAt(32);
    GivenAt(33);
    GivenAt(34);
    GivenAt(35);
  }

  lemma Sines8(i: nat)
    requires 32 <= i < 36
    ensures SineAt(i)
  {
    Given8();
    OneOfFour(SineAt, 32, i);
  }

  lemma Given9()
    ensures SineAt(36) && SineAt(37) && SineAt(38) && SineAt(39)
  {
    GivenAt(36);
    GivenAt(37);
    GivenAt(38);
    GivenAt(39);
  }

  lemma Sines9(i: nat)
    requires 36 <= i < 40
    ensures SineAt(i)
  {
    Given9();
    OneOfFour(SineAt, 36, i);
  }

  lemma Given10()
    ensures SineAt(40) && SineAt(41) && SineAt(42) && SineAt(43)
  {
    GivenAt(40);
    GivenAt(41);
    GivenAt(42);
    GivenAt(43);
  }

  lemma Sines10(i: nat)
    requires 40 <= i < 44
    ensures SineAt(i)
  {
    Given10();
    OneOfFour(SineAt, 40, i);
  }

  lemma Given11()
    ensures SineAt(44) && SineAt(45) && SineAt(46) && SineAt(47)
  {
    GivenAt(44);
    GivenAt(45);
    GivenAt(46);
    GivenAt(47);
  }

  lemma Sines11(i: nat)
    requires 44 <= i < 48
    ensures SineAt(i)
  {
    Given11();
    OneOfFour(SineAt, 44, i);
  }

  lemma Given12()
    ensures SineAt(48) && SineAt(49) && SineAt(50) && SineAt(51)
  {
    GivenAt(48);
    GivenAt(49);
    GivenAt(50);
    GivenAt(51);
  }

  lemma Sines12(i: nat)
    requires 48 <= i < 52
    ensures SineAt(i)
  {
    Given12();
    OneOfFour(SineAt, 48, i);
  }

  lemma Given13()
    ensures SineAt(52) && SineAt(53) && SineAt(54) && SineAt(55)
  {
    GivenAt(52);
    GivenAt(53);
    GivenAt(54);
    GivenAt(55);
  }

  lemma Sines13(i: nat)
    requires 52 <= i < 56
    ensures SineAt(i)
  {
    Given13();
    OneOfFour(SineAt, 52, i);
  }

  lemma Given14()
    ensures SineAt(56) && SineAt(57) && SineAt(58) && SineAt(59)
  {
    GivenAt(56);
    GivenAt(57);
    GivenAt(58);
    GivenAt(59);
  }

  lemma Sines14(i: nat)
    requires 56 <= i < 60
    ensures SineAt(i)
  {
    Given14();
    OneOfFour(SineAt, 56, i);
  }

  lemma Given15()
    ensures SineAt(60) && SineAt(61) && SineAt(62) && SineAt(63)
  {
    GivenAt(60);
    GivenAt(61);
    GivenAt(62);
    GivenAt(63);
  }

  lemma Sines15(i: nat)
    requires 60 <= i < 64
    ensures SineAt(i)
  {
    Given15();
    OneOfFour(SineAt, 60, i);
  }

  lemma AllSines(i: nat)
    requires i < 64
    ensures SineAt(i)
  {
    if i < 4 {
      Sines0(i);
    } else if i < 8 {
      Sines1(i);
    } else if i < 12 {
      Sines2(i);
    } else if i < 16 {
      Sines3(i);
    } else if i < 20 {
      Sines4(i);
    } else if i < 24 {
      Sines5(i);
    } else if i < 28 {
      Sines6(i);
    } else if i < 32 {
      Sines7(i);
    } else if i < 36 {
      Sines8(i);
    } else if i < 40 {
      Sines9(i);
    } else if i < 44 {
      Sines10(i);
    } else if i < 48 {
      Sines11(i);
    } else if i < 52 {
      Sines12(i);
    } else if i < 56 {
      Sines13(i);
    } else if i < 60 {
      Sines14(i);
    } else {
      Sines15(i);
    }
  }

  lemma LineIsRfc(i: nat)
    requires i < 64
    ensures IsRfcForm(Line(i), i)
  {
    if i < 16 {
      Line0IsRfc(i);
    } else if i < 32 {
      Line1IsRfc(i);
    } else if i < 48 {
      Line2IsRfc(i);
    } else {
      Line3IsRfc(i);
    }
  }

  lemma TableAt(i: nat)
    requires i < 64
    ensures Table()[i] == Line(i)
  {
  }

  /** The lines of the code are the operations the RFC lists, in its order. */
  lemma TableIsRfc(i: nat)
    requires i < 64
    ensures IsRfcOp(Table()[i], i) && OpOk(Table()[i])
  {
    TableAt(i);
    LineIsRfc(i);
    AllSines(i);
    RfcOpOk(i, Line(i));
  }

  lemma RfcOpOk(i: nat, op: Op)
    requires i < 64 && IsRfcForm(op, i)
    ensures OpOk(op)
  {
  }

  lemma TableOk()
    ensures OpsOk(Table())
  {
    forall i | 0 <= i < 64 ensures OpOk(Table()[i]) { TableIsRfc(i); }
  }

  function LongProcess(v: Regs<ulong>, data: seq<byte>): Regs<ulong> {
    TableOk();
    Process(Long(), Table(), v, data)
  }

  // ------------------------------------------------- section 3.4 of RFC 1321

  /** b + ((a + F(b, c, d) + X[k] + T[i]) <<< s). */
  function RfcValue(a: bv32, b: bv32, c: bv32, d: bv32, op: Op, x: bv32): bv32 {
    Add32(b, Rot32(Add32(a, Add32(Add32(Mix32(op.r, b, c, d), x), op.t)), op.s))
  }

  /** Step i, counted from 0: the register that is set is A, D, C, B in turn. */
  function RfcStep(i: nat, op: Op, v: Regs<bv32>, x: bv32): Regs<bv32> {
    if i % 4 == 0 then v.(a := RfcValue(v.a, v.b, v.c, v.d, op, x))
    else if i % 4 == 1 then v.(d := RfcValue(v.d, v.a, v.b, v.c, op, x))
    else if i % 4 == 2 then v.(c := RfcValue(v.c, v.d, v.a, v.b, op, x))
    else v.(b := RfcValue(v.b, v.c, v.d, v.a, op, x))
  }

  function RfcSteps<W>(step: (nat, Op, Regs<W>, W) -> Regs<W>, ops: seq<Op>, n: nat, v: Regs<W>, x: seq<W>): Regs<W>
    requires n <= |ops| && OpsOk(ops) && |x| == 16
  {
    if n == 0 then v else
      assert OpOk(ops[n - 1]);
      step(n - 1, ops[n - 1], RfcSteps(step, ops, n - 1, v, x), x[ops[n - 1].k])
  }

  function RfcWords(data: seq<byte>): (x: seq<bv32>)
    requires |data| == 64
    ensures |x| == 16
  {
    seq(16, j requires 0 <= j < 16 => Word32(data[4 * j], data[4 * j + 1], data[4 * j + 2], data[4 * j + 3]))
  }

  /** One block, on 32-bit words. What the 64 operations are is said by TableIsRfc. */
  function Block32(v: Regs<bv32>, data: seq<byte>): Regs<bv32> {
    if |data| != 64 then v else
      TableOk();
      var w := RfcSteps(RfcStep, Table(), 64, v, RfcWords(data));
      Regs(Add32(v.a, w.a), Add32(v.b, w.b), Add32(v.c, w.c), Add32(v.d, w.d))
  }

  /** The names as they have moved on after n lines of the code. */
  function Moved<W>(n: nat, v: Regs<W>): Regs<W> {
    if n % 4 == 0 then v else if n % 4 == 1 then Regs(v.d, v.a, v.b, v.c)
    else if n % 4 == 2 then Regs(v.c, v.d, v.a, v.b) else Regs(v.b, v.c, v.d, v.a)
  }

  function SetInTurn<W>(n: nat, v: Regs<W>, y: W): Regs<W> {
    if n % 4 == 0 then v.(a := y) else if n % 4 == 1 then v.(d := y)
    else if n % 4 == 2 then v.(c := y) else v.(b := y)
  }

  lemma MovesOn<W>(n: nat, v: Regs<W>, y: W)
    ensures var u := Moved(n, v); Regs(u.d, y, u.b, u.c) == Moved(n + 1, SetInTurn(n, v, y))
  {
    assert (n + 1) % 4 == if n % 4 == 3 then 0 else n % 4 + 1;
  }

  function ValueOf(op: Op, u: Regs<bv32>, x: bv32): bv32 {
    RfcValue(u.a, u.b, u.c, u.d, op, x)
  }

  lemma Commutes32(x: bv32, y: bv32)
    ensures Add32(x, y) == Add32(y, x)
  {
  }

  lemma StepValue(op: Op, u: Regs<bv32>, x: bv32)
    ensures Step(Rfc(), op, u, x) == Regs(u.d, ValueOf(op, u, x), u.b, u.c)
  {
    Commutes32(u.b, Rot32(Add32(u.a, Add32(Add32(Mix32(op.r, u.b, u.c, u.d), x), op.t)), op.s));
  }

  lemma RfcStepSets(n: nat, op: Op, v: Regs<bv32>, x: bv32, y: bv32)
    requires y == ValueOf(op, Moved(n, v), x)
    ensures RfcStep(n, op, v, x) == SetInTurn(n, v, y)
  {
    if n % 4 == 0 {
    } else if n % 4 == 1 {
    } else if n % 4 == 2 {
    }
  }

  lemma StepMoves(n: nat, op: Op, v: Regs<bv32>, x: bv32)
    ensures Step(Rfc(), op, Moved(n, v), x) == Moved(n + 1, RfcStep(n, op, v, x))
  {
    var y := ValueOf(op, Moved(n, v), x);
    StepValue(op, Moved(n, v), x);
    RfcStepSets(n, op, v, x, y);
    MovesOn(n, v, y);
  }

  ghost predicate MovesAt<W>(ar: Arith<W>, step: (nat, Op, Regs<W>, W) -> Regs<W>, n: nat, op: Op, v: Regs<W>, x: W) {
    Step(ar, op, Moved(n, v), x) == Moved(n + 1, step(n, op, v, x))
  }

  lemma {:induction false} StepsMove<W(!new)>(ar: Arith<W>, step: (nat, Op, Regs<W>, W) -> Regs<W>, ops: seq<Op>,
                                              n: nat, v: Regs<W>, x: seq<W>)
    requires n <= |ops| && OpsOk(ops) && |x| == 16
    requires forall n: nat, op, v, x :: MovesAt(ar, step, n, op, v, x)
    ensures Steps(ar, ops, n, v, x) == Moved(n, RfcSteps(step, ops, n, v, x))
  {
    if n > 0 {
      assert OpOk(ops[n - 1]);
      StepsMove(ar, step, ops, n - 1, v, x);
      assert MovesAt(ar, step, n - 1, ops[n - 1], RfcSteps(step, ops, n - 1, v, x), x[ops[n - 1].k]);
    }
  }

  /** The lines of the code, on 32-bit words, are the steps of the RFC. */
  lemma ProcessIsRfc(v: Regs<bv32>, data: seq<byte>)
    requires OpsOk(Table())
    ensures Process(Rfc(), Table(), v, data) == Block32(v, data)
  {
    if |data| == 64 {
      var x := Words16(Rfc(), data);
      assert x == RfcWords(data);
      forall n: nat, op, v, x ensures MovesAt(Rfc(), RfcStep, n, op, v, x) { StepMoves(n, op, v, x); }
      StepsMove(Rfc(), RfcStep, Table(), 64, v, x);
    }
  }

  /** md5_process computes sections 3.4 and 3.5 of RFC 1321 on the low halves, whatever
      its registers hold above them. */
  lemma LongProcessIsRfc(v: Regs<ulong>, data: seq<byte>)
    ensures Map(Cut, LongProcess(v, data)) == Block32(Map(Cut, v), data)
  {
    TableOk();
    CutMaps();
    ProcessMaps(Long(), Rfc(), Cut, Table(), v, data);
    ProcessIsRfc(Map(Cut, v), data);
  }

  lemma {:induction false} AbsorbIsRfc(v: Regs<ulong>, m: seq<byte>)
    ensures Map(Cut, St.Absorb(LongProcess, v, m)) == St.Absorb(Block32, Map(Cut, v), m)
  {
    if |m| >= 64 {
      AbsorbIsRfc(v, m[..|m| - 64]);
      LongProcessIsRfc(St.Absorb(LongProcess, v, m[..|m| - 64]), m[|m| - 64..]);
    }
  }

  // ---------------------------------------------------------------------- digests

  function LongStart(): Regs<ulong> {
    Regs(0x6745_2301, 0xEFCD_AB89, 0x98BA_DCFE, 0x1032_5476)
  }

  /** The words of section 3.3 of RFC 1321, low-order bytes first. */
  function RfcStart(): Regs<bv32> {
    Regs(Word32(0x01, 0x23, 0x45, 0x67), Word32(0x89, 0xAB, 0xCD, 0xEF), Word32(0xFE, 0xDC, 0xBA, 0x98),
         Word32(0x76, 0x54, 0x32, 0x10))
  }

  /** PUT_UINT32_LE. */
  function LongBytes(x: ulong): seq<byte> {
    [Low(x), Low(x >> 8), Low(x >> 16), Low(x >> 24)]
  }

  function RfcBytes(x: bv32): seq<byte> {
    [(x & 0xFF) as bv8, ((x >> 8) & 0xFF) as bv8, ((x >> 16) & 0xFF) as bv8, ((x >> 24) & 0xFF) as bv8]
  }

  lemma BytesAgree(x: ulong)
    ensures LongBytes(x) == RfcBytes(Cut(x))
  {
  }

  function RfcDigest(m: seq<byte>): seq<byte> {
    var v := St.Absorb(Block32, RfcStart(), St.Padded(m));
    RfcBytes(v.a) + RfcBytes(v.b) + RfcBytes(v.c) + RfcBytes(v.d)
  }

  lemma DigestAgrees(m: seq<byte>, v: Regs<ulong>)
    requires v == St.Absorb(LongProcess, LongStart(), St.Padded(m))
    ensures LongBytes(v.a) + LongBytes(v.b) + LongBytes(v.c) + LongBytes(v.d) == RfcDigest(m)
  {
    AbsorbIsRfc(LongStart(), St.Padded(m));
    assert Map(Cut, LongStart()) == RfcStart();
    BytesAgree(v.a);
    BytesAgree(v.b);
    BytesAgree(v.c);
    BytesAgree(v.d);
  }

  /** md5_starts, any number of md5_update calls and md5_finish: the MD5 digest of the
      concatenated pieces. */
  method Csum(pieces: seq<seq<byte>>) returns (output: seq<byte>)
    requires forall i :: 0 <= i < |pieces| ==> |pieces[i]| < 0x8000_0000
    ensures output == RfcDigest(St.Concat(pieces))
  {
    var v := St.DigestPieces(LongProcess, LongStart(), pieces);
    output := LongBytes(v.a) + LongBytes(v.b) + LongBytes(v.c) + LongBytes(v.d);
    DigestAgrees(St.Concat(pieces), v);
  }
}
