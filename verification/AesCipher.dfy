/**
 AES as FIPS 197 describes it, on columns of four bytes, and the equivalent
 inverse cipher of section 5.3.5. The byte arithmetic is a parameter: what the
 inversion proof needs of it is collected in `Lawful`.
 */
module AesCipher {
  import R = RoundCipher

  /** Addition of bytes, SubBytes, the multiplications of MixColumns and
      InvMixColumns, and the round constants. */
  datatype Arithmetic<!B> = Arithmetic(zero: B, add: (B, B) -> B, sub: B -> B, unsub: B -> B,
                                       by2: B -> B, by3: B -> B, by9: B -> B, by11: B -> B, by13: B -> B, by14: B -> B,
                                       rcon: nat -> B)

  /** A column of the state, or a word of the key schedule; `a` is the top byte. */
  datatype Col<B> = Col(a: B, b: B, c: B, d: B)

  datatype Block<B> = Block(w0: Col<B>, w1: Col<B>, w2: Col<B>, w3: Col<B>)

  function AddCol<B>(ar: Arithmetic<B>, x: Col<B>, y: Col<B>): Col<B> {
    Col(ar.add(x.a, y.a), ar.add(x.b, y.b), ar.add(x.c, y.c), ar.add(x.d, y.d))
  }

  function Add<B>(ar: Arithmetic<B>, x: Block<B>, y: Block<B>): Block<B> {
    Block(AddCol(ar, x.w0, y.w0), AddCol(ar, x.w1, y.w1), AddCol(ar, x.w2, y.w2), AddCol(ar, x.w3, y.w3))
  }

  // The contribution of each byte of a column to MixColumns (section 5.1.3) ...
  function Mix0<B>(ar: Arithmetic<B>, s: B): Col<B> { Col(ar.by2(s), s, s, ar.by3(s)) }
  function Mix1<B>(ar: Arithmetic<B>, s: B): Col<B> { Col(ar.by3(s), ar.by2(s), s, s) }
  function Mix2<B>(ar: Arithmetic<B>, s: B): Col<B> { Col(s, ar.by3(s), ar.by2(s), s) }
  function Mix3<B>(ar: Arithmetic<B>, s: B): Col<B> { Col(s, s, ar.by3(s), ar.by2(s)) }

  function MixCol<B>(ar: Arithmetic<B>, x: Col<B>): Col<B> {
    AddCol(ar, AddCol(ar, AddCol(ar, Mix0(ar, x.a), Mix1(ar, x.b)), Mix2(ar, x.c)), Mix3(ar, x.d))
  }

  // ... and to InvMixColumns (section 5.3.3).
  function Unmix0<B>(ar: Arithmetic<B>, s: B): Col<B> { Col(ar.by14(s), ar.by9(s), ar.by13(s), ar.by11(s)) }
  function Unmix1<B>(ar: Arithmetic<B>, s: B): Col<B> { Col(ar.by11(s), ar.by14(s), ar.by9(s), ar.by13(s)) }
  function Unmix2<B>(ar: Arithmetic<B>, s: B): Col<B> { Col(ar.by13(s), ar.by11(s), ar.by14(s), ar.by9(s)) }
  function Unmix3<B>(ar: Arithmetic<B>, s: B): Col<B> { Col(ar.by9(s), ar.by13(s), ar.by11(s), ar.by14(s)) }

  function InvMixCol<B>(ar: Arithmetic<B>, x: Col<B>): Col<B> {
    AddCol(ar, AddCol(ar, AddCol(ar, Unmix0(ar, x.a), Unmix1(ar, x.b)), Unmix2(ar, x.c)), Unmix3(ar, x.d))
  }

  function Mix<B>(ar: Arithmetic<B>, x: Block<B>): Block<B> {
    Block(MixCol(ar, x.w0), MixCol(ar, x.w1), MixCol(ar, x.w2), MixCol(ar, x.w3))
  }

  function InvMix<B>(ar: Arithmetic<B>, x: Block<B>): Block<B> {
    Block(InvMixCol(ar, x.w0), InvMixCol(ar, x.w1), InvMixCol(ar, x.w2), InvMixCol(ar, x.w3))
  }

  /** One column after SubBytes and ShiftRows. */
  function SubCol<B>(ar: Arithmetic<B>, x: Col<B>, y: Col<B>, z: Col<B>, w: Col<B>): Col<B> {
    Col(ar.sub(x.a), ar.sub(y.b), ar.sub(z.c), ar.sub(w.d))
  }

  function InvSubCol<B>(ar: Arithmetic<B>, x: Col<B>, y: Col<B>, z: Col<B>, w: Col<B>): Col<B> {
    Col(ar.unsub(x.a), ar.unsub(y.b), ar.unsub(z.c), ar.unsub(w.d))
  }

  function ShiftSub<B>(ar: Arithmetic<B>, x: Block<B>): Block<B> {
    Block(SubCol(ar, x.w0, x.w1, x.w2, x.w3), SubCol(ar, x.w1, x.w2, x.w3, x.w0),
          SubCol(ar, x.w2, x.w3, x.w0, x.w1), SubCol(ar, x.w3, x.w0, x.w1, x.w2))
  }

  function InvShiftSub<B>(ar: Arithmetic<B>, x: Block<B>): Block<B> {
    Block(InvSubCol(ar, x.w0, x.w3, x.w2, x.w1), InvSubCol(ar, x.w1, x.w0, x.w3, x.w2),
          InvSubCol(ar, x.w2, x.w1, x.w0, x.w3), InvSubCol(ar, x.w3, x.w2, x.w1, x.w0))
  }

  // -------------------------------------------------------- what inversion needs

  ghost predicate Undone<B>(ar: Arithmetic<B>, x: B) {
    ar.unsub(ar.sub(x)) == x
  }

  ghost predicate AddsUp<B>(ar: Arithmetic<B>, f: B -> B, x: B, y: B) {
    f(ar.add(x, y)) == ar.add(f(x), f(y))
  }

  ghost predicate Associates<B>(ar: Arithmetic<B>, x: B, y: B, z: B) {
    ar.add(ar.add(x, y), z) == ar.add(x, ar.add(y, z))
  }

  ghost predicate Commutes<B>(ar: Arithmetic<B>, x: B, y: B) {
    ar.add(x, y) == ar.add(y, x)
  }

  ghost predicate Cancels<B>(ar: Arithmetic<B>, x: B, k: B) {
    ar.add(ar.add(x, k), k) == x && ar.add(x, ar.zero) == x && ar.add(ar.zero, x) == x
  }

  ghost predicate SumIs<B>(ar: Arithmetic<B>, x: B, y: B, z: B, w: B, sum: B) {
    ar.add(ar.add(ar.add(x, y), z), w) == sum
  }

  /** The rows of InvMixColumns times the first column of MixColumns: the product of
      the two (circulant) matrices is the identity. */
  ghost predicate Unmixed<B>(ar: Arithmetic<B>, s: B) {
    && SumIs(ar, ar.by14(ar.by2(s)), ar.by11(s), ar.by13(s), ar.by9(ar.by3(s)), s)
    && SumIs(ar, ar.by9(ar.by2(s)), ar.by14(s), ar.by11(s), ar.by13(ar.by3(s)), ar.zero)
    && SumIs(ar, ar.by13(ar.by2(s)), ar.by9(s), ar.by14(s), ar.by11(ar.by3(s)), ar.zero)
    && SumIs(ar, ar.by11(ar.by2(s)), ar.by13(s), ar.by9(s), ar.by14(ar.by3(s)), ar.zero)
  }

  ghost predicate Lawful<B(!new)>(ar: Arithmetic<B>) {
    && (forall x, y, z :: Associates(ar, x, y, z)) && (forall x, y :: Commutes(ar, x, y)) && (forall x,
        k :: Cancels(ar, x, k))
    && (forall x :: Undone(ar, x)) && (forall s :: Unmixed(ar, s))
    && (forall x, y :: AddsUp(ar, ar.by9, x, y)) && (forall x, y :: AddsUp(ar, ar.by11, x, y))
    && (forall x, y :: AddsUp(ar, ar.by13, x, y)) && (forall x, y :: AddsUp(ar, ar.by14, x, y))
  }

  lemma Regroup<B(!new)>(ar: Arithmetic<B>, x: B, y: B, z: B, w: B)
    requires Lawful(ar)
    ensures ar.add(ar.add(x, y), ar.add(z, w)) == ar.add(ar.add(x, z), ar.add(y, w))
  {
    assert Associates(ar, x, y, ar.add(z, w)) && Associates(ar, y, z, w) && Commutes(ar, y, z);
    assert Associates(ar, z, y, w) && Associates(ar, x, z, ar.add(y, w));
  }

  lemma Rotate<B(!new)>(ar: Arithmetic<B>, x: B, y: B, z: B, w: B)
    requires Lawful(ar)
    ensures ar.add(ar.add(ar.add(x, y), z), w) == ar.add(ar.add(ar.add(w, x), y), z)
  {
    assert Commutes(ar, ar.add(ar.add(x, y), z), w) && Associates(ar, w, ar.add(x, y), z) && Associates(ar, w, x, y);
  }

  /** A sum of four may be started anywhere. */
  lemma RotateSum<B(!new)>(ar: Arithmetic<B>, x: B, y: B, z: B, w: B, sum: B)
    requires Lawful(ar) && SumIs(ar, x, y, z, w, sum)
    ensures SumIs(ar, w, x, y, z, sum) && SumIs(ar, z, w, x, y, sum) && SumIs(ar, y, z, w, x, sum)
  {
    Rotate(ar, x, y, z, w);
    Rotate(ar, w, x, y, z);
    Rotate(ar, z, w, x, y);
  }

  /** InvMixColumns takes the contribution of one byte back to that byte. */
  lemma UnmixedCols<B(!new)>(ar: Arithmetic<B>, s: B)
    requires Lawful(ar)
    ensures InvMixCol(ar, Mix0(ar, s)) == Col(s, ar.zero, ar.zero, ar.zero)
    ensures InvMixCol(ar, Mix1(ar, s)) == Col(ar.zero, s, ar.zero, ar.zero)
    ensures InvMixCol(ar, Mix2(ar, s)) == Col(ar.zero, ar.zero, s, ar.zero)
    ensures InvMixCol(ar, Mix3(ar, s)) == Col(ar.zero, ar.zero, ar.zero, s)
  {
    assert Unmixed(ar, s);
    RotateSum(ar, ar.by14(ar.by2(s)), ar.by11(s), ar.by13(s), ar.by9(ar.by3(s)), s);
    RotateSum(ar, ar.by9(ar.by2(s)), ar.by14(s), ar.by11(s), ar.by13(ar.by3(s)), ar.zero);
    RotateSum(ar, ar.by13(ar.by2(s)), ar.by9(s), ar.by14(s), ar.by11(ar.by3(s)), ar.zero);
    RotateSum(ar, ar.by11(ar.by2(s)), ar.by13(s), ar.by9(s), ar.by14(ar.by3(s)), ar.zero);
  }

  lemma UndoneCol<B(!new)>(ar: Arithmetic<B>, x: Col<B>)
    requires Lawful(ar)
    ensures ar.unsub(ar.sub(x.a)) == x.a && ar.unsub(ar.sub(x.b)) == x.b
    ensures ar.unsub(ar.sub(x.c)) == x.c && ar.unsub(ar.sub(x.d)) == x.d
  {
    assert Undone(ar, x.a) && Undone(ar, x.b) && Undone(ar, x.c) && Undone(ar, x.d);
  }

  lemma ShiftSubInverse<B(!new)>(ar: Arithmetic<B>, x: Block<B>)
    requires Lawful(ar)
    ensures InvShiftSub(ar, ShiftSub(ar, x)) == x
  {
    UndoneCol(ar, x.w0);
    UndoneCol(ar, x.w1);
    UndoneCol(ar, x.w2);
    UndoneCol(ar, x.w3);
  }

  /** Adding a round key twice removes it. */
  lemma AddTwice<B(!new)>(ar: Arithmetic<B>, x: Block<B>, k: Block<B>)
    requires Lawful(ar)
    ensures Add(ar, Add(ar, x, k), k) == x
  {
    AddColTwice(ar, x.w0, k.w0);
    AddColTwice(ar, x.w1, k.w1);
    AddColTwice(ar, x.w2, k.w2);
    AddColTwice(ar, x.w3, k.w3);
  }

  lemma AddColTwice<B(!new)>(ar: Arithmetic<B>, x: Col<B>, k: Col<B>)
    requires Lawful(ar)
    ensures AddCol(ar, AddCol(ar, x, k), k) == x
  {
    assert Cancels(ar, x.a, k.a) && Cancels(ar, x.b, k.b) && Cancels(ar, x.c, k.c) && Cancels(ar, x.d, k.d);
  }

  lemma RegroupCols<B(!new)>(ar: Arithmetic<B>, x: Col<B>, y: Col<B>, z: Col<B>, w: Col<B>)
    requires Lawful(ar)
    ensures AddCol(ar, AddCol(ar, x, y), AddCol(ar, z, w)) == AddCol(ar, AddCol(ar, x, z), AddCol(ar, y, w))
  {
    Regroup(ar, x.a, y.a, z.a, w.a);
    Regroup(ar, x.b, y.b, z.b, w.b);
    Regroup(ar, x.c, y.c, z.c, w.c);
    Regroup(ar, x.d, y.d, z.d, w.d);
  }

  /** The contribution of a sum is the sum of the contributions. */
  lemma UnmixSum<B(!new)>(ar: Arithmetic<B>, x: B, y: B)
    requires Lawful(ar)
    ensures Unmix0(ar, ar.add(x, y)) == AddCol(ar, Unmix0(ar, x), Unmix0(ar, y))
    ensures Unmix1(ar, ar.add(x, y)) == AddCol(ar, Unmix1(ar, x), Unmix1(ar, y))
    ensures Unmix2(ar, ar.add(x, y)) == AddCol(ar, Unmix2(ar, x), Unmix2(ar, y))
    ensures Unmix3(ar, ar.add(x, y)) == AddCol(ar, Unmix3(ar, x), Unmix3(ar, y))
  {
    assert AddsUp(ar, ar.by9, x, y) && AddsUp(ar, ar.by11, x, y) && AddsUp(ar, ar.by13, x, y);
    assert AddsUp(ar, ar.by14, x, y);
  }

  /** InvMixColumns is linear. */
  lemma InvMixColSum<B(!new)>(ar: Arithmetic<B>, x: Col<B>, y: Col<B>)
    requires Lawful(ar)
    ensures InvMixCol(ar, AddCol(ar, x, y)) == AddCol(ar, InvMixCol(ar, x), InvMixCol(ar, y))
  {
    UnmixSum(ar, x.a, y.a);
    UnmixSum(ar, x.b, y.b);
    UnmixSum(ar, x.c, y.c);
    UnmixSum(ar, x.d, y.d);
    var x0, x1, x2, x3 := Unmix0(ar, x.a), Unmix1(ar, x.b), Unmix2(ar, x.c), Unmix3(ar, x.d);
    var y0, y1, y2, y3 := Unmix0(ar, y.a), Unmix1(ar, y.b), Unmix2(ar, y.c), Unmix3(ar, y.d);
    RegroupCols(ar, x0, y0, x1, y1);
    RegroupCols(ar, AddCol(ar, x0, x1), AddCol(ar, y0, y1), x2, y2);
    RegroupCols(ar, AddCol(ar, AddCol(ar, x0, x1), x2), AddCol(ar, AddCol(ar, y0, y1), y2), x3, y3);
  }

  /** InvMixColumns undoes MixColumns. */
  lemma MixColInverse<B(!new)>(ar: Arithmetic<B>, x: Col<B>)
    requires Lawful(ar)
    ensures InvMixCol(ar, MixCol(ar, x)) == x
  {
    var m0, m1, m2, m3 := Mix0(ar, x.a), Mix1(ar, x.b), Mix2(ar, x.c), Mix3(ar, x.d);
    InvMixColSum(ar, AddCol(ar, AddCol(ar, m0, m1), m2), m3);
    InvMixColSum(ar, AddCol(ar, m0, m1), m2);
    InvMixColSum(ar, m0, m1);
    UnmixedCols(ar, x.a);
    UnmixedCols(ar, x.b);
    UnmixedCols(ar, x.c);
    UnmixedCols(ar, x.d);
    assert Cancels(ar, x.a, ar.zero) && Cancels(ar, x.b, ar.zero) && Cancels(ar, x.c, ar.zero);
    assert Cancels(ar, x.d, ar.zero);
    assert Cancels(ar, ar.zero, ar.zero);
  }

  lemma MixInverse<B(!new)>(ar: Arithmetic<B>, x: Block<B>)
    requires Lawful(ar)
    ensures InvMix(ar, Mix(ar, x)) == x
  {
    MixColInverse(ar, x.w0);
    MixColInverse(ar, x.w1);
    MixColInverse(ar, x.w2);
    MixColInverse(ar, x.w3);
  }

  lemma InvMixSum<B(!new)>(ar: Arithmetic<B>, x: Block<B>, y: Block<B>)
    requires Lawful(ar)
    ensures InvMix(ar, Add(ar, x, y)) == Add(ar, InvMix(ar, x), InvMix(ar, y))
  {
    InvMixColSum(ar, x.w0, y.w0);
    InvMixColSum(ar, x.w1, y.w1);
    InvMixColSum(ar, x.w2, y.w2);
    InvMixColSum(ar, x.w3, y.w3);
  }

  // -------------------------------------------------------------- AES as a whole

  function Parts<B>(ar: Arithmetic<B>): R.Parts<Block<B>> {
    R.Parts((x, y) => Add(ar, x, y), x => ShiftSub(ar, x), x => InvShiftSub(ar, x), x => Mix(ar, x), x => InvMix(ar, x))
  }

  /** AES is an instance of the key-alternating scheme. */
  lemma PartsLawful<B(!new)>(ar: Arithmetic<B>)
    requires Lawful(ar)
    ensures R.Lawful(Parts(ar))
  {
    var p := Parts(ar);
    forall s ensures R.Inverts(p, s) {
      ShiftSubInverse(ar, s);
      MixInverse(ar, s);
    }
    forall s, k ensures R.KeysCancel(p, s, k) {
      AddTwice(ar, s, k);
      InvMixSum(ar, s, k);
    }
  }
}
