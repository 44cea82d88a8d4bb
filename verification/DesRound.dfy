/**
 The eight tables of des.c and what DES_ROUND adds up from them, against the S-boxes and the
 permutation P of FIPS 46-3: with the key schedule, the whole cipher function f(R, K).
 */
module DesRound {
  import opened Words
  import opened DesKeys
  import opened DesBits
  import D = Des
  import X = DesBoxes

  /** The permutation P. */
  function P(j: nat): nat {
    if j == 1 then 16 else if j == 2 then 7 else if j == 3 then 20 else if j == 4 then 21
    else if j == 5 then 29 else if j == 6 then 12 else if j == 7 then 28 else if j == 8 then 17
    else if j == 9 then 1 else if j == 10 then 15 else if j == 11 then 23 else if j == 12 then 26
    else if j == 13 then 5 else if j == 14 then 18 else if j == 15 then 31 else if j == 16 then 10
    else if j == 17 then 2 else if j == 18 then 8 else if j == 19 then 24 else if j == 20 then 14
    else if j == 21 then 32 else if j == 22 then 27 else if j == 23 then 3 else if j == 24 then 9
    else if j == 25 then 19 else if j == 26 then 13 else if j == 27 then 30 else if j == 28 then 6
    else if j == 29 then 22 else if j == 30 then 11 else if j == 31 then 4 else 25
  }

  datatype Outputs = Outputs(v1: bv4, v2: bv4, v3: bv4, v4: bv4, v5: bv4, v6: bv4, v7: bv4, v8: bv4)

  function SBoxes(v: Inputs): Outputs {
    Outputs(X.S1(v.i1), X.S2(v.i2), X.S3(v.i3), X.S4(v.i4), X.S5(v.i5), X.S6(v.i6), X.S7(v.i7), X.S8(v.i8))
  }

  /** Bit i of four, from the right. */
  function Bit4(v: bv4, i: nat): bool {
    if i == 0 then v & 1 != 0 else if i == 1 then v & 2 != 0 else if i == 2 then v & 4 != 0 else v & 8 != 0
  }

  /** Bit q of the 32 that the S-boxes put out, from the left. */
  function OutBit(o: Outputs, q: nat): bool {
    if 1 <= q <= 4 then Bit4(o.v1, 4 - q) else if 5 <= q <= 8 then Bit4(o.v2, 8 - q)
    else if 9 <= q <= 12 then Bit4(o.v3, 12 - q) else if 13 <= q <= 16 then Bit4(o.v4, 16 - q)
    else if 17 <= q <= 20 then Bit4(o.v5, 20 - q) else if 21 <= q <= 24 then Bit4(o.v6, 24 - q)
    else if 25 <= q <= 28 then Bit4(o.v7, 28 - q) else if 29 <= q <= 32 then Bit4(o.v8, 32 - q) else false
  }

  /** Bit n of the cipher function f(R, K) of round i + 1. */
  function FipsBit(key: seq<byte>, i: nat, r: Half, n: nat): bool
    requires |key| == 8
  {
    OutBit(SBoxes(FipsInputs(key, i, r)), P(n))
  }

  /** The entries of the eight boxes. */
  datatype Entries<W> = Entries(e1: W, e2: W, e3: W, e4: W, e5: W, e6: W, e7: W, e8: W)

  function PlacedOf(o: Outputs): Entries<ulong> {
    Entries(X.Placed1(o.v1), X.Placed2(o.v2), X.Placed3(o.v3), X.Placed4(o.v4),
            X.Placed5(o.v5), X.Placed6(o.v6), X.Placed7(o.v7), X.Placed8(o.v8))
  }

  /** As the macro adds them up. */
  function SumOf<W>(add: (W, W) -> W, e: Entries<W>): W {
    add(D.Four(add, e.e8, e.e6, e.e4, e.e2), D.Four(add, e.e7, e.e5, e.e3, e.e1))
  }

  function PartsOf<W>(part: W -> W, e: Entries<W>): Entries<W> {
    Entries(part(e.e1), part(e.e2), part(e.e3), part(e.e4), part(e.e5), part(e.e6), part(e.e7), part(e.e8))
  }

  ghost predicate Additive<W(!new)>(add: (W, W) -> W, part: W -> W) {
    forall x, y :: AdditiveAt(add, part, x, y)
  }

  ghost predicate AdditiveAt<W>(add: (W, W) -> W, part: W -> W, x: W, y: W) {
    part(add(x, y)) == add(part(x), part(y))
  }

  ghost predicate Neutral<W(!new)>(add: (W, W) -> W, zero: W) {
    forall x :: add(x, zero) == x && add(zero, x) == x
  }

  lemma PartOfSum<W(!new)>(add: (W, W) -> W, part: W -> W, e: Entries<W>)
    requires Additive(add, part)
    ensures part(SumOf(add, e)) == SumOf(add, PartsOf(part, e))
  {
    PartOfFour(add, part, e.e8, e.e6, e.e4, e.e2);
    PartOfFour(add, part, e.e7, e.e5, e.e3, e.e1);
    assert AdditiveAt(add, part, D.Four(add, e.e8, e.e6, e.e4, e.e2), D.Four(add, e.e7, e.e5, e.e3, e.e1));
  }

  lemma PartOfFour<W(!new)>(add: (W, W) -> W, part: W -> W, a: W, b: W, c: W, d: W)
    requires Additive(add, part)
    ensures part(D.Four(add, a, b, c, d)) == D.Four(add, part(a), part(b), part(c), part(d))
  {
    assert AdditiveAt(add, part, a, b) && AdditiveAt(add, part, add(a, b), c);
    assert AdditiveAt(add, part, add(add(a, b), c), d);
  }

  /** Of all entries only entry k, which is x, has bits in the part. */
  predicate OnlyIn<W(==)>(part: W -> W, e: Entries<W>, k: nat, x: W, zero: W) {
    && part(e.e1) == (if k == 1 then x else zero) && part(e.e2) == (if k == 2 then x else zero)
    && part(e.e3) == (if k == 3 then x else zero) && part(e.e4) == (if k == 4 then x else zero)
    && part(e.e5) == (if k == 5 then x else zero) && part(e.e6) == (if k == 6 then x else zero)
    && part(e.e7) == (if k == 7 then x else zero) && part(e.e8) == (if k == 8 then x else zero)
  }

  /** Then it can be read off the sum. */
  lemma ReadOff<W(!new)>(add: (W, W) -> W, part: W -> W, e: Entries<W>, k: nat, x: W, zero: W)
    requires OnlyIn(part, e, k, x, zero) && 1 <= k <= 8 && Neutral(add, zero) && Additive(add, part)
    ensures part(SumOf(add, e)) == x
  {
    PartOfSum(add, part, e);
  }

  lemma XorNeutral()
    ensures Neutral(D.Xor, 0)
  {
    forall x ensures D.Xor(x, 0) == x && D.Xor(0, x) == x { XorZero(x); }
  }

  lemma XorZero(x: ulong)
    ensures D.Xor(x, 0) == x && D.Xor(0, x) == x
  {
  }

  /** The bits that box 1 has to itself. */
  function Part1(w: ulong): ulong { w & 0x0101_0404 }

  lemma Part1Adds(x: ulong, y: ulong)
    ensures AdditiveAt(D.Xor, Part1, x, y)
  {
  }

  lemma Only1(o: Outputs)
    ensures OnlyIn(Part1, PlacedOf(o), 1, X.Placed1(o.v1), 0)
  {
  }

  lemma ReadOff1(o: Outputs)
    ensures Part1(SumOf(D.Xor, PlacedOf(o))) == X.Placed1(o.v1)
  {
    Only1(o);
    XorNeutral();
    forall x, y ensures AdditiveAt(D.Xor, Part1, x, y) { Part1Adds(x, y); }
    ReadOff(D.Xor, Part1, PlacedOf(o), 1, X.Placed1(o.v1), 0);
  }

  /** The bits that box 2 has to itself. */
  function Part2(w: ulong): ulong { w & 0x8010_8020 }

  lemma Part2Adds(x: ulong, y: ulong)
    ensures AdditiveAt(D.Xor, Part2, x, y)
  {
  }

  lemma Only2(o: Outputs)
    ensures OnlyIn(Part2, PlacedOf(o), 2, X.Placed2(o.v2), 0)
  {
  }

  lemma ReadOff2(o: Outputs)
    ensures Part2(SumOf(D.Xor, PlacedOf(o))) == X.Placed2(o.v2)
  {
    Only2(o);
    XorNeutral();
    forall x, y ensures AdditiveAt(D.Xor, Part2, x, y) { Part2Adds(x, y); }
    ReadOff(D.Xor, Part2, PlacedOf(o), 2, X.Placed2(o.v2), 0);
  }

  /** The bits that box 3 has to itself. */
  function Part3(w: ulong): ulong { w & 0x0802_0208 }

  lemma Part3Adds(x: ulong, y: ulong)
    ensures AdditiveAt(D.Xor, Part3, x, y)
  {
  }

  lemma Only3(o: Outputs)
    ensures OnlyIn(Part3, PlacedOf(o), 3, X.Placed3(o.v3), 0)
  {
  }

  lemma ReadOff3(o: Outputs)
    ensures Part3(SumOf(D.Xor, PlacedOf(o))) == X.Placed3(o.v3)
  {
    Only3(o);
    XorNeutral();
    forall x, y ensures AdditiveAt(D.Xor, Part3, x, y) { Part3Adds(x, y); }
    ReadOff(D.Xor, Part3, PlacedOf(o), 3, X.Placed3(o.v3), 0);
  }

  /** The bits that box 4 has to itself. */
  function Part4(w: ulong): ulong { w & 0x0080_2081 }

  lemma Part4Adds(x: ulong, y: ulong)
    ensures AdditiveAt(D.Xor, Part4, x, y)
  {
  }

  lemma Only4(o: Outputs)
    ensures OnlyIn(Part4, PlacedOf(o), 4, X.Placed4(o.v4), 0)
  {
  }

  lemma ReadOff4(o: Outputs)
    ensures Part4(SumOf(D.Xor, PlacedOf(o))) == X.Placed4(o.v4)
  {
    Only4(o);
    XorNeutral();
    forall x, y ensures AdditiveAt(D.Xor, Part4, x, y) { Part4Adds(x, y); }
    ReadOff(D.Xor, Part4, PlacedOf(o), 4, X.Placed4(o.v4), 0);
  }

  /** The bits that box 5 has to itself. */
  function Part5(w: ulong): ulong { w & 0x4208_0100 }

  lemma Part5Adds(x: ulong, y: ulong)
    ensures AdditiveAt(D.Xor, Part5, x, y)
  {
  }

  lemma Only5(o: Outputs)
    ensures OnlyIn(Part5, PlacedOf(o), 5, X.Placed5(o.v5), 0)
  {
  }

  lemma ReadOff5(o: Outputs)
    ensures Part5(SumOf(D.Xor, PlacedOf(o))) == X.Placed5(o.v5)
  {
    Only5(o);
    XorNeutral();
    forall x, y ensures AdditiveAt(D.Xor, Part5, x, y) { Part5Adds(x, y); }
    ReadOff(D.Xor, Part5, PlacedOf(o), 5, X.Placed5(o.v5), 0);
  }

  /** The bits that box 6 has to itself. */
  function Part6(w: ulong): ulong { w & 0x2040_4010 }

  lemma Part6Adds(x: ulong, y: ulong)
    ensures AdditiveAt(D.Xor, Part6, x, y)
  {
  }

  lemma Only6(o: Outputs)
    ensures OnlyIn(Part6, PlacedOf(o), 6, X.Placed6(o.v6), 0)
  {
  }

  lemma ReadOff6(o: Outputs)
    ensures Part6(SumOf(D.Xor, PlacedOf(o))) == X.Placed6(o.v6)
  {
    Only6(o);
    XorNeutral();
    forall x, y ensures AdditiveAt(D.Xor, Part6, x, y) { Part6Adds(x, y); }
    ReadOff(D.Xor, Part6, PlacedOf(o), 6, X.Placed6(o.v6), 0);
  }

  /** The bits that box 7 has to itself. */
  function Part7(w: ulong): ulong { w & 0x0420_0802 }

  lemma Part7Adds(x: ulong, y: ulong)
    ensures AdditiveAt(D.Xor, Part7, x, y)
  {
  }

  lemma Only7(o: Outputs)
    ensures OnlyIn(Part7, PlacedOf(o), 7, X.Placed7(o.v7), 0)
  {
  }

  lemma ReadOff7(o: Outputs)
    ensures Part7(SumOf(D.Xor, PlacedOf(o))) == X.Placed7(o.v7)
  {
    Only7(o);
    XorNeutral();
    forall x, y ensures AdditiveAt(D.Xor, Part7, x, y) { Part7Adds(x, y); }
    ReadOff(D.Xor, Part7, PlacedOf(o), 7, X.Placed7(o.v7), 0);
  }

  /** The bits that box 8 has to itself. */
  function Part8(w: ulong): ulong { w & 0x1004_1040 }

  lemma Part8Adds(x: ulong, y: ulong)
    ensures AdditiveAt(D.Xor, Part8, x, y)
  {
  }

  lemma Only8(o: Outputs)
    ensures OnlyIn(Part8, PlacedOf(o), 8, X.Placed8(o.v8), 0)
  {
  }

  lemma ReadOff8(o: Outputs)
    ensures Part8(SumOf(D.Xor, PlacedOf(o))) == X.Placed8(o.v8)
  {
    Only8(o);
    XorNeutral();
    forall x, y ensures AdditiveAt(D.Xor, Part8, x, y) { Part8Adds(x, y); }
    ReadOff(D.Xor, Part8, PlacedOf(o), 8, X.Placed8(o.v8), 0);
  }

  lemma Read1(v: bv4, w: ulong)
    requires Part1(w) == X.Placed1(v)
    ensures Bit(w, 24) == Bit4(v, 3) && Bit(w, 16) == Bit4(v, 2) && Bit(w, 10) == Bit4(v, 1) && Bit(w, 2) == Bit4(v, 0)
  {
  }

  lemma Read2(v: bv4, w: ulong)
    requires Part2(w) == X.Placed2(v)
    ensures Bit(w, 20) == Bit4(v, 3) && Bit(w, 5) == Bit4(v, 2) && Bit(w, 31) == Bit4(v, 1) && Bit(w, 15) == Bit4(v, 0)
  {
  }

  lemma Read3(v: bv4, w: ulong)
    requires Part3(w) == X.Placed3(v)
    ensures Bit(w, 9) == Bit4(v, 3) && Bit(w, 17) == Bit4(v, 2) && Bit(w, 3) == Bit4(v, 1) && Bit(w, 27) == Bit4(v, 0)
  {
  }

  lemma Read4(v: bv4, w: ulong)
    requires Part4(w) == X.Placed4(v)
    ensures Bit(w, 7) == Bit4(v, 3) && Bit(w, 13) == Bit4(v, 2) && Bit(w, 23) == Bit4(v, 1) && Bit(w, 0) == Bit4(v, 0)
  {
  }

  lemma Read5(v: bv4, w: ulong)
    requires Part5(w) == X.Placed5(v)
    ensures Bit(w, 25) == Bit4(v, 3) && Bit(w, 19) == Bit4(v, 2) && Bit(w, 8) == Bit4(v, 1) && Bit(w, 30) == Bit4(v, 0)
  {
  }

  lemma Read6(v: bv4, w: ulong)
    requires Part6(w) == X.Placed6(v)
    ensures Bit(w, 29) == Bit4(v, 3) && Bit(w, 4) == Bit4(v, 2) && Bit(w, 22) == Bit4(v, 1) && Bit(w, 14) == Bit4(v, 0)
  {
  }

  lemma Read7(v: bv4, w: ulong)
    requires Part7(w) == X.Placed7(v)
    ensures Bit(w, 1) == Bit4(v, 3) && Bit(w, 21) == Bit4(v, 2) && Bit(w, 11) == Bit4(v, 1) && Bit(w, 26) == Bit4(v, 0)
  {
  }

  lemma Read8(v: bv4, w: ulong)
    requires Part8(w) == X.Placed8(v)
    ensures Bit(w, 28) == Bit4(v, 3) && Bit(w, 6) == Bit4(v, 2) && Bit(w, 18) == Bit4(v, 1) && Bit(w, 12) == Bit4(v, 0)
  {
  }

  predicate Spread(o: Outputs, w: ulong) {
    && Bit(w, 0) == Bit4(o.v4, 0) && Bit(w, 31) == Bit4(o.v2, 1) && Bit(w, 30) == Bit4(o.v5, 0)
    && Bit(w, 29) == Bit4(o.v6, 3) && Bit(w, 28) == Bit4(o.v8, 3) && Bit(w, 27) == Bit4(o.v3, 0)
    && Bit(w, 26) == Bit4(o.v7, 0) && Bit(w, 25) == Bit4(o.v5, 3) && Bit(w, 24) == Bit4(o.v1, 3)
    && Bit(w, 23) == Bit4(o.v4, 1) && Bit(w, 22) == Bit4(o.v6, 1) && Bit(w, 21) == Bit4(o.v7, 2)
    && Bit(w, 20) == Bit4(o.v2, 3) && Bit(w, 19) == Bit4(o.v5, 2) && Bit(w, 18) == Bit4(o.v8, 1)
    && Bit(w, 17) == Bit4(o.v3, 2) && Bit(w, 16) == Bit4(o.v1, 2) && Bit(w, 15) == Bit4(o.v2, 0)
    && Bit(w, 14) == Bit4(o.v6, 0) && Bit(w, 13) == Bit4(o.v4, 2) && Bit(w, 12) == Bit4(o.v8, 0)
    && Bit(w, 11) == Bit4(o.v7, 1) && Bit(w, 10) == Bit4(o.v1, 1) && Bit(w, 9) == Bit4(o.v3, 3)
    && Bit(w, 8) == Bit4(o.v5, 1) && Bit(w, 7) == Bit4(o.v4, 3) && Bit(w, 6) == Bit4(o.v8, 2)
    && Bit(w, 5) == Bit4(o.v2, 2) && Bit(w, 4) == Bit4(o.v6, 2) && Bit(w, 3) == Bit4(o.v3, 1)
    && Bit(w, 2) == Bit4(o.v1, 0) && Bit(w, 1) == Bit4(o.v7, 3)
  }

  lemma SpreadIs(o: Outputs, w: ulong)
    requires w == SumOf(D.Xor, PlacedOf(o))
    ensures Spread(o, w)
  {
    ReadOff1(o);
    ReadOff2(o);
    ReadOff3(o);
    ReadOff4(o);
    ReadOff5(o);
    ReadOff6(o);
    ReadOff7(o);
    ReadOff8(o);
    SpreadFrom(o, w);
  }

  lemma SpreadFrom(o: Outputs, w: ulong)
    requires Part1(w) == X.Placed1(o.v1) && Part2(w) == X.Placed2(o.v2)
    requires Part3(w) == X.Placed3(o.v3) && Part4(w) == X.Placed4(o.v4)
    requires Part5(w) == X.Placed5(o.v5) && Part6(w) == X.Placed6(o.v6)
    requires Part7(w) == X.Placed7(o.v7) && Part8(w) == X.Placed8(o.v8)
    ensures Spread(o, w)
  {
    Read1(o.v1, w);
    Read2(o.v2, w);
    Read3(o.v3, w);
    Read4(o.v4, w);
    Read5(o.v5, w);
    Read6(o.v6, w);
    Read7(o.v7, w);
    Read8(o.v8, w);
  }

  lemma SpreadAt(o: Outputs, w: ulong, n: nat)
    requires Spread(o, w) && 1 <= n <= 32
    ensures HalfBit(w, n) == OutBit(o, P(n))
  {
    if n <= 14 { SpreadLeft(o, w, n); } else { SpreadRight(o, w, n); }
  }

  lemma SpreadLeft(o: Outputs, w: ulong, n: nat)
    requires Spread(o, w) && 1 <= n <= 14
    ensures HalfBit(w, n) == OutBit(o, P(n))
  {
    Cases(n, 0);
  }

  lemma SpreadRight(o: Outputs, w: ulong, n: nat)
    requires Spread(o, w) && 15 <= n <= 32
    ensures HalfBit(w, n) == OutBit(o, P(n))
  {
    if n <= 28 { Cases(n, 14); } else { Cases(n, 28); }
  }

  function EntriesOf(b: D.Boxes, v: Inputs): Entries<ulong> {
    Entries(b.sb1(v.i1), b.sb2(v.i2), b.sb3(v.i3), b.sb4(v.i4), b.sb5(v.i5), b.sb6(v.i6), b.sb7(v.i7), b.sb8(v.i8))
  }

  /** The tables hold what the S-boxes put out, where P sends it. */
  ghost predicate HoldsAt(b: D.Boxes, v: Inputs) {
    EntriesOf(b, v) == PlacedOf(SBoxes(v))
  }

  lemma TablesHold(v: Inputs)
    ensures HoldsAt(X.Tables(), v)
  {
    X.Box1Is(v.i1);
    X.Box2Is(v.i2);
    X.Box3Is(v.i3);
    X.Box4Is(v.i4);
    X.Box5Is(v.i5);
    X.Box6Is(v.i6);
    X.Box7Is(v.i7);
    X.Box8Is(v.i8);
  }

  /** The two sums of the macro are the sum of the eight entries. */
  lemma SumIs(b: D.Boxes, v: Inputs)
    ensures D.Xor(EvenSum(b, v), OddSum(b, v)) == SumOf(D.Xor, EntriesOf(b, v))
  {
  }

  lemma MacroAdds(b: D.Boxes, k0: ulong, k1: ulong, x: ulong, v: Inputs)
    requires Is32(x) && v == CodeInputs(x, k0, k1)
    ensures D.Xor(D.First(b, k0, x), D.Second(b, k1, x)) == SumOf(D.Xor, EntriesOf(b, v))
  {
    calc {
      D.Xor(D.First(b, k0, x), D.Second(b, k1, x));
    == { MacroLooksUp(b, k0, k1, x); }
      D.Xor(EvenSum(b, v), OddSum(b, v));
    == { SumIs(b, v); }
      SumOf(D.Xor, EntriesOf(b, v));
    }
  }

  lemma SumBit(v: Inputs, w: ulong, n: nat)
    requires w == SumOf(D.Xor, PlacedOf(SBoxes(v))) && 1 <= n <= 32
    ensures HalfBit(w, n) == OutBit(SBoxes(v), P(n))
  {
    var o := SBoxes(v);
    SpreadIs(o, w);
    SpreadAt(o, w, n);
  }

  /** The macro, given its S-boxes and the tables' contents. */
  ghost predicate Gives(v: Inputs, w: ulong) {
    forall n: nat :: GivesAt(v, w, n)
  }

  ghost predicate GivesAt(v: Inputs, w: ulong, n: nat) {
    1 <= n <= 32 ==> HalfBit(w, n) == OutBit(SBoxes(v), P(n))
  }

  lemma SumGives(v: Inputs, w: ulong)
    requires w == SumOf(D.Xor, PlacedOf(SBoxes(v)))
    ensures Gives(v, w)
  {
    forall n: nat ensures GivesAt(v, w, n) {
      if 1 <= n <= 32 { SumBit(v, w, n); }
    }
  }

  lemma EntriesGive(b: D.Boxes, v: Inputs, w: ulong)
    requires HoldsAt(b, v) && w == SumOf(D.Xor, EntriesOf(b, v))
    ensures Gives(v, w)
  {
    SumGives(v, w);
  }

  /** What DES_ROUND adds to the other half. */
  function Added(b: D.Boxes, k0: ulong, k1: ulong, x: ulong): ulong {
    D.Xor(D.First(b, k0, x), D.Second(b, k1, x))
  }

  lemma AddedGives(b: D.Boxes, k0: ulong, k1: ulong, x: ulong, v: Inputs, w: ulong)
    requires Is32(x) && Looks(v, x, k0, k1) && HoldsAt(b, v) && w == Added(b, k0, k1, x)
    ensures Gives(v, w)
  {
    assert w == SumOf(D.Xor, EntriesOf(b, v)) by {
      LooksIs(v, x, k0, k1);
      MacroAdds(b, k0, k1, x, v);
    }
    EntriesGive(b, v, w);
  }

  /** With its own tables and key schedule, DES_ROUND computes the cipher function of
      FIPS 46-3, bit by bit, for every key, round and half. */
  lemma MacroIsFips(key: seq<byte>, i: nat, x: ulong, r: Half, w: ulong, n: nat)
    requires |key| == 8 && Is32(x) && Shows(x, r) && i < 16 && 1 <= n <= 32
    requires w == Added(X.Tables(), MainKs(key)[2 * i], MainKs(key)[2 * i + 1], x)
    ensures HalfBit(w, n) == FipsBit(key, i, r, n)
  {
    var sk, v := MainKs(key), FipsInputs(key, i, r);
    MainKsIsFips(key);
    InputsAreFips(key, sk, i, x, r);
    TablesHold(v);
    AddedGives(X.Tables(), sk[2 * i], sk[2 * i + 1], x, v, w);
    assert GivesAt(v, w, n);
  }
}
