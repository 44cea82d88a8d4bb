/**
 The field GF(2^8) of FIPS 197 as aes_gen_tables computes in it: bytes, with
 multiplication through logarithms to the base 3.
 */
module AesField {
  import C = AesCipher

  /** XTIME: multiplication by x, that is by 2 (section 4.2.1 of FIPS 197). */
  function XTime(x: bv8): bv8 {
    (x << 1) ^ (if x & 0x80 != 0 then 0x1B else 0x00)
  }

  /** Multiplication by 3, the step of the power loop. */
  function Triple(x: bv8): bv8 {
    x ^ XTime(x)
  }

  function Power(n: nat): bv8 {
    if n == 0 then 1 else Triple(Power(n - 1))
  }

  /** The entry of a row of sixteen that the low four bits select. */
  function Pick(x: bv8, v0: nat, v1: nat, v2: nat, v3: nat, v4: nat, v5: nat, v6: nat, v7: nat,
                v8: nat, v9: nat, vA: nat, vB: nat, vC: nat, vD: nat, vE: nat, vF: nat): nat {
    if x & 0x08 == 0 then
      if x & 0x04 == 0 then
        if x & 0x02 == 0 then (if x & 0x01 == 0 then v0 else v1) else (if x & 0x01 == 0 then v2 else v3)
      else
        if x & 0x02 == 0 then (if x & 0x01 == 0 then v4 else v5) else (if x & 0x01 == 0 then v6 else v7)
    else
      if x & 0x04 == 0 then
        if x & 0x02 == 0 then (if x & 0x01 == 0 then v8 else v9) else (if x & 0x01 == 0 then vA else vB)
      else
        if x & 0x02 == 0 then (if x & 0x01 == 0 then vC else vD) else (if x & 0x01 == 0 then vE else vF)
  }

  /** The logarithm to the base 3, by table; 255 for zero. */
  function Log(x: bv8): nat {
    if x & 0x80 == 0 then
      if x & 0x40 == 0 then
        if x & 0x20 == 0 then
          if x & 0x10 == 0 then
            Pick(x, 255,   0,  25,   1,  50,   2,  26, 198,  75, 199,  27, 104,  51, 238, 223,   3)
          else
            Pick(x, 100,   4, 224,  14,  52, 141, 129, 239,  76, 113,   8, 200, 248, 105,  28, 193)
        else
          if x & 0x10 == 0 then
            Pick(x, 125, 194,  29, 181, 249, 185,  39, 106,  77, 228, 166, 114, 154, 201,   9, 120)
          else
            Pick(x, 101,  47, 138,   5,  33,  15, 225,  36,  18, 240, 130,  69,  53, 147, 218, 142)
      else
        if x & 0x20 == 0 then
          if x & 0x10 == 0 then
            Pick(x, 150, 143, 219, 189,  54, 208, 206, 148,  19,  92, 210, 241,  64,  70, 131,  56)
          else
            Pick(x, 102, 221, 253,  48, 191,   6, 139,  98, 179,  37, 226, 152,  34, 136, 145,  16)
        else
          if x & 0x10 == 0 then
            Pick(x, 126, 110,  72, 195, 163, 182,  30,  66,  58, 107,  40,  84, 250, 133,  61, 186)
          else
            Pick(x,  43, 121,  10,  21, 155, 159,  94, 202,  78, 212, 172, 229, 243, 115, 167,  87)
    else
      if x & 0x40 == 0 then
        if x & 0x20 == 0 then
          if x & 0x10 == 0 then
            Pick(x, 175,  88, 168,  80, 244, 234, 214, 116,  79, 174, 233, 213, 231, 230, 173, 232)
          else
            Pick(x,  44, 215, 117, 122, 235,  22,  11, 245,  89, 203,  95, 176, 156, 169,  81, 160)
        else
          if x & 0x10 == 0 then
            Pick(x, 127,  12, 246, 111,  23, 196,  73, 236, 216,  67,  31,  45, 164, 118, 123, 183)
          else
            Pick(x, 204, 187,  62,  90, 251,  96, 177, 134,  59,  82, 161, 108, 170,  85,  41, 157)
      else
        if x & 0x20 == 0 then
          if x & 0x10 == 0 then
            Pick(x, 151, 178, 135, 144,  97, 190, 220, 252, 188, 149, 207, 205,  55,  63,  91, 209)
          else
            Pick(x,  83,  57, 132,  60,  65, 162, 109,  71,  20,  42, 158,  93,  86, 242, 211, 171)
        else
          if x & 0x10 == 0 then
            Pick(x,  68,  17, 146, 217,  35,  32,  46, 137, 180, 124, 184,  38, 119, 153, 227, 165)
          else
            Pick(x, 103,  74, 237, 222, 197,  49, 254,  24,  13,  99, 140, 128, 192, 247, 112,   7)
  }

  /** Tripling advances the logarithm by one, cyclically. */
  lemma LogStep(x: bv8)
    requires x != 0
    ensures Triple(x) != 0
    ensures Log(Triple(x)) == if Log(x) == 254 then 0 else Log(x) + 1
  {
    if x & 0x80 == 0 {
      assert Log(Triple(x)) == if Log(x) == 254 then 0 else Log(x) + 1;
    }
  }

  lemma LogRange(x: bv8)
    requires x != 0
    ensures Log(x) < 255
    ensures Log(x) == 0 ==> x == 1
  {
  }

  /** The powers of 3 below 255 are distinct: the logarithm recovers the exponent. */
  lemma {:induction false} LogOfPower(n: nat)
    requires n < 255
    ensures Power(n) != 0 && Log(Power(n)) == n
  {
    if n == 0 {
      assert Log(1) == 0;
    } else {
      LogOfPower(n - 1);
      LogStep(Power(n - 1));
    }
  }

  /** Division by 3, that is multiplication by 0xF6. */
  function Third(x: bv8): bv8 {
    var x1 := XTime(x);
    var x2 := XTime(x1);
    var x4 := XTime(XTime(x2));
    var x5 := XTime(x4);
    var x6 := XTime(x5);
    x1 ^ x2 ^ x4 ^ x5 ^ x6 ^ XTime(x6)
  }

  lemma TripleOfThird(x: bv8)
    ensures Triple(Third(x)) == x && (x != 0 ==> Third(x) != 0)
  {
  }

  /** Every nonzero byte is a power of 3: 3 generates the field. */
  lemma {:induction false} PowerOfLog(x: bv8)
    requires x != 0
    ensures Power(Log(x)) == x
    decreases Log(x)
  {
    if Log(x) == 0 {
      LogRange(x);
    } else {
      TripleOfThird(x);
      LogStep(Third(x));
      PowerOfLog(Third(x));
    }
  }

  lemma {:induction false} PowerPeriod(n: nat)
    ensures Power(n + 255) == Power(n)
  {
    if n == 0 {
      LogOfPower(254);
      LogStep(Power(254));
      PowerOfLog(Power(255));
    } else {
      PowerPeriod(n - 1);
    }
  }

  lemma {:induction false} PowerModulo(n: nat)
    ensures Power(n % 255) == Power(n)
  {
    if n >= 255 {
      PowerModulo(n - 255);
      PowerPeriod(n - 255);
    }
  }

  // ------------------------------------------------------------- multiplication

  /** MUL of aes_gen_tables, through the logarithm tables. */
  function Mul(x: bv8, y: bv8): bv8 {
    if x != 0 && y != 0 then Power((Log(x) + Log(y)) % 255) else 0
  }

  // The products with the coefficients of InvMixColumns by repeated XTIME, as in
  // section 4.2.1 of FIPS 197.
  function By1(x: bv8): bv8 { x }
  function By3(x: bv8): bv8 { Xor(XTime(x), By1(x)) }
  function By4(x: bv8): bv8 { XTime(XTime(x)) }
  function By6(x: bv8): bv8 { XTime(By3(x)) }
  function By8(x: bv8): bv8 { XTime(By4(x)) }
  function By9(x: bv8): bv8 { Xor(By8(x), By1(x)) }
  function By11(x: bv8): bv8 { Xor(By9(x), XTime(x)) }
  function By12(x: bv8): bv8 { Xor(By8(x), By4(x)) }
  function By13(x: bv8): bv8 { Xor(By12(x), By1(x)) }
  function By14(x: bv8): bv8 { Xor(By8(x), By6(x)) }
  function Xor(x: bv8, y: bv8): bv8 { x ^ y }

  predicate TripleCommutes(f: bv8 -> bv8, x: bv8) {
    f(Triple(x)) == Triple(f(x))
  }

  lemma {:induction false} PowerTimes(f: bv8 -> bv8, n: nat)
    requires f(1) != 0 && forall x :: TripleCommutes(f, x)
    ensures Power(Log(f(1)) + n) == f(Power(n))
  {
    if n == 0 {
      PowerOfLog(f(1));
    } else {
      PowerTimes(f, n - 1);
      assert TripleCommutes(f, Power(n - 1));
    }
  }

  lemma TripleCommutesOdd(x: bv8)
    ensures By9(Triple(x)) == Triple(By9(x)) && By11(Triple(x)) == Triple(By11(x))
  {
  }

  lemma TripleCommutesEven(x: bv8)
    ensures By13(Triple(x)) == Triple(By13(x)) && By14(Triple(x)) == Triple(By14(x))
  {
  }

  lemma PowerTimesModulo(f: bv8 -> bv8, m: nat, n: nat)
    requires f(1) != 0 && m == Log(f(1)) && forall x :: TripleCommutes(f, x)
    ensures Power((m + n) % 255) == f(Power(n))
  {
    PowerTimes(f, n);
    PowerModulo(m + n);
  }

  lemma MulOfLogs(x: bv8, y: bv8, m: nat, n: nat)
    requires x != 0 && y != 0 && m == Log(x) && n == Log(y)
    ensures Mul(x, y) == Power((m + n) % 255)
  {
  }

  lemma MulIsLinear(f: bv8 -> bv8, c: bv8, x: bv8)
    requires c == f(1) && c != 0 && f(0) == 0 && forall x :: TripleCommutes(f, x)
    ensures Mul(c, x) == f(x)
  {
    if x != 0 {
      var m, n := Log(c), Log(x);
      MulOfLogs(c, x, m, n);
      PowerTimesModulo(f, m, n);
      PowerOfLog(x);
    }
  }

  /** Multiplying through logarithms is polynomial multiplication, for the four
      coefficients the tables need. */
  lemma MulIsBy(x: bv8)
    ensures Mul(0x09, x) == By9(x) && Mul(0x0B, x) == By11(x) && Mul(0x0D, x) == By13(x) && Mul(0x0E, x) == By14(x)
  {
    forall z ensures TripleCommutes(By9, z) { TripleCommutesOdd(z); }
    forall z ensures TripleCommutes(By11, z) { TripleCommutesOdd(z); }
    forall z ensures TripleCommutes(By13, z) { TripleCommutesEven(z); }
    forall z ensures TripleCommutes(By14, z) { TripleCommutesEven(z); }
    MulIsLinear(By9, 0x09, x);
    MulIsLinear(By11, 0x0B, x);
    MulIsLinear(By13, 0x0D, x);
    MulIsLinear(By14, 0x0E, x);
  }

  /** Multiplication of polynomials, by shifting and adding (section 4.2 of FIPS 197):
      the low n bits of c select multiples of y. */
  function Peasant(n: nat, c: bv8, y: bv8): bv8 {
    if n == 0 then 0 else Xor(Chosen(c, y), Peasant(n - 1, c >> 1, XTime(y)))
  }

  function Chosen(c: bv8, y: bv8): bv8 {
    if c & 1 == 1 then y else 0
  }

  function Product(c: bv8, y: bv8): bv8 {
    Peasant(8, c, y)
  }

  lemma TripleIsBy3(x: bv8)
    ensures Triple(x) == By3(x)
  {
  }

  lemma XorIs(x: bv8, y: bv8, z: bv8)
    requires z == x ^ y
    ensures Xor(x, y) == z
  {
  }

  lemma TripleXor(x: bv8, y: bv8)
    ensures Triple(Xor(x, y)) == Xor(Triple(x), Triple(y))
  {
    XorIs(x, y, x ^ y);
    TripleIsBy3(x);
    TripleIsBy3(y);
    TripleIsBy3(x ^ y);
    By3Sum(x, y);
    XorIs(Triple(x), Triple(y), By3(x ^ y));
  }

  lemma TripleXTime(y: bv8)
    ensures XTime(Triple(y)) == Triple(XTime(y))
  {
  }

  lemma TripleChosen(c: bv8, y: bv8)
    ensures Chosen(c, Triple(y)) == Triple(Chosen(c, y))
  {
  }

  lemma {:induction false} PeasantTriple(n: nat, c: bv8, y: bv8)
    ensures Peasant(n, c, Triple(y)) == Triple(Peasant(n, c, y))
  {
    if n > 0 {
      TripleChosen(c, y);
      TripleXTime(y);
      PeasantTriple(n - 1, c >> 1, XTime(y));
      TripleXor(Chosen(c, y), Peasant(n - 1, c >> 1, XTime(y)));
    }
  }

  lemma {:induction false} PeasantZero(n: nat, c: bv8)
    ensures Peasant(n, c, 0) == 0
  {
    if n > 0 {
      assert XTime(0) == 0;
      PeasantZero(n - 1, c >> 1);
    }
  }

  lemma {:induction false} NoMultiple(n: nat, y: bv8)
    ensures Peasant(n, 0, y) == 0
  {
    if n > 0 {
      assert (0 as bv8) >> 1 == 0;
      NoMultiple(n - 1, XTime(y));
    }
  }

  /** One turn when y is a power of two below x^7: bit k of c comes back at bit k. */
  lemma PeasantBit(n: nat, d: bv8, y: bv8, rest: bv8, all: bv8)
    requires n > 0 && rest == Peasant(n - 1, d >> 1, XTime(y)) && all == (if d & 1 == 1 then y else 0) ^ rest
    ensures Peasant(n, d, y) == all
  {
  }

  lemma HighBits(c: bv8, d4: bv8)
    requires d4 == c >> 4
    ensures Peasant(4, d4, 0x10) == c & 0xF0
  {
    var d5 := d4 >> 1;
    var d6 := d5 >> 1;
    var d7 := d6 >> 1;
    PeasantBit(1, d7, 0x80, 0, c & 0x80);
    PeasantBit(2, d6, 0x40, c & 0x80, c & 0xC0);
    PeasantBit(3, d5, 0x20, c & 0xC0, c & 0xE0);
    PeasantBit(4, d4, 0x10, c & 0xE0, c & 0xF0);
  }

  lemma ProductOfOne(c: bv8)
    ensures Product(c, 1) == c
  {
    var d1 := c >> 1;
    var d2 := d1 >> 1;
    var d3 := d2 >> 1;
    HighBits(c, d3 >> 1);
    PeasantBit(5, d3, 0x08, c & 0xF0, c & 0xF8);
    PeasantBit(6, d2, 0x04, c & 0xF8, c & 0xFC);
    PeasantBit(7, d1, 0x02, c & 0xFC, c & 0xFE);
    PeasantBit(8, c, 0x01, c & 0xFE, c);
  }

  /** Multiplying through logarithms is multiplication in the field, for all bytes. */
  lemma MulIsProduct(c: bv8, x: bv8)
    ensures Mul(c, x) == Product(c, x)
  {
    if c == 0 {
      NoMultiple(8, x);
    } else {
      var f := (y: bv8) => Product(c, y);
      ProductOfOne(c);
      PeasantZero(8, c);
      forall z ensures TripleCommutes(f, z) { PeasantTriple(8, c, z); }
      MulIsLinear(f, c, x);
    }
  }

  // ---------------------------------------------------------------------- S-box

  function Rotl1(x: bv8): bv8 {
    (x << 1) | (x >> 7)
  }

  /** The affine transformation of section 5.1.1 of FIPS 197. */
  function Affine(x: bv8): bv8 {
    var y1 := Rotl1(x);
    var y2 := Rotl1(y1);
    var y3 := Rotl1(y2);
    x ^ y1 ^ y2 ^ y3 ^ Rotl1(y3) ^ 0x63
  }

  function InvAffine(x: bv8): bv8 {
    var y1 := Rotl1(x);
    var y3 := Rotl1(Rotl1(y1));
    y1 ^ y3 ^ Rotl1(Rotl1(Rotl1(y3))) ^ 0x05
  }

  lemma AffineInverse(x: bv8)
    ensures InvAffine(Affine(x)) == x && Affine(InvAffine(x)) == x
  {
  }

  /** The multiplicative inverse, with zero mapped to itself. */
  function Inverse(x: bv8): bv8 {
    if x == 0 then 0 else LogRange(x); Power(255 - Log(x))
  }

  lemma InverseOfPower(n: nat)
    requires n < 255
    ensures Inverse(Power(n)) == Power(255 - n)
  {
    LogOfPower(n);
  }

  lemma InverseInvolution(x: bv8)
    ensures Inverse(Inverse(x)) == x
  {
    if x != 0 {
      var n := Log(x);
      PowerOfLog(x);
      InverseOfPower(n);
      if n == 0 {
        PowerPeriod(0);
      } else {
        InverseOfPower(255 - n);
      }
    }
  }

  lemma ComplementLog(n: nat, y: bv8)
    requires n < 255 && y == Power(255 - n)
    ensures y != 0 && (n + Log(y)) % 255 == 0
  {
    if n == 0 {
      PowerPeriod(n);
      LogOfPower(n);
    } else {
      LogOfPower(255 - n);
    }
  }

  lemma MulToOne(x: bv8, y: bv8)
    requires x != 0 && y != 0 && (Log(x) + Log(y)) % 255 == 0
    ensures Mul(x, y) == 1
  {
  }

  /** The inverse of the S-box construction is the inverse in the field. */
  lemma InverseIsInverse(x: bv8)
    requires x != 0
    ensures Product(x, Inverse(x)) == 1
  {
    LogRange(x);
    ComplementLog(Log(x), Inverse(x));
    MulToOne(x, Inverse(x));
    MulIsProduct(x, Inverse(x));
  }

  function SBox(x: bv8): bv8 {
    Affine(Inverse(x))
  }

  function InvSBox(x: bv8): bv8 {
    Inverse(InvAffine(x))
  }

  lemma SBoxInverse(x: bv8)
    ensures InvSBox(SBox(x)) == x && SBox(InvSBox(x)) == x
  {
    AffineInverse(Inverse(x));
    InverseInvolution(x);
    InverseInvolution(InvAffine(x));
    AffineInverse(x);
  }

  // ------------------------------------------------------------ the S-box by bits

  /** Bit i of a byte, from the right. */
  function Bit(x: bv8, i: nat): bool {
    if i == 0 then x & 0x01 != 0 else if i == 1 then x & 0x02 != 0 else if i == 2 then x & 0x04 != 0
    else if i == 3 then x & 0x08 != 0 else if i == 4 then x & 0x10 != 0 else if i == 5 then x & 0x20 != 0
    else if i == 6 then x & 0x40 != 0 else x & 0x80 != 0
  }

  /** XTIME multiplies by x modulo x^8 + x^4 + x^3 + x + 1. */
  lemma XTimeBits(x: bv8, r: bv8)
    requires r == XTime(x)
    ensures Bit(r, 0) == Bit(x, 7) && Bit(r, 1) == (Bit(x, 0) != Bit(x, 7))
    ensures Bit(r, 2) == Bit(x, 1) && Bit(r, 3) == (Bit(x, 2) != Bit(x, 7))
    ensures Bit(r, 4) == (Bit(x, 3) != Bit(x, 7)) && Bit(r, 5) == Bit(x, 4)
    ensures Bit(r, 6) == Bit(x, 5) && Bit(r, 7) == Bit(x, 6)
  {
  }

  function Parity(a: bool, b: bool, c: bool, d: bool, e: bool, f: bool): bool {
    var ab, cd, ef := a != b, c != d, e != f;
    var abcd := ab != cd;
    abcd != ef
  }

  /** The multiplicative inverse in the field, 0 for 0. */
  predicate IsInverse(x: bv8, y: bv8) {
    if x == 0 then y == 0 else Product(x, y) == 1
  }

  /** The equation of section 5.1.1 of FIPS 197 for bit i. */
  predicate SBoxBit(s: bv8, y: bv8, i: nat) {
    Bit(s, i) == Parity(Bit(y, i), Bit(y, (i + 4) % 8), Bit(y, (i + 5) % 8), Bit(y, (i + 6) % 8), Bit(y, (i + 7) % 8),
                        Bit(0x63, i))
  }

  ghost predicate IsSBoxOf(x: bv8, s: bv8) {
    forall y: bv8, i: nat :: SBoxBitAt(x, s, y, i)
  }

  predicate SBoxBitAt(x: bv8, s: bv8, y: bv8, i: nat) {
    IsInverse(x, y) && i < 8 ==> SBoxBit(s, y, i)
  }

  lemma AffineLow(y: bv8, s: bv8)
    requires s == Affine(y)
    ensures SBoxBit(s, y, 0) && SBoxBit(s, y, 1) && SBoxBit(s, y, 2) && SBoxBit(s, y, 3)
  {
  }

  lemma AffineHigh(y: bv8, s: bv8)
    requires s == Affine(y)
    ensures SBoxBit(s, y, 4) && SBoxBit(s, y, 5) && SBoxBit(s, y, 6) && SBoxBit(s, y, 7)
  {
  }

  lemma AffineBits(y: bv8, s: bv8, i: nat)
    requires s == Affine(y) && i < 8
    ensures SBoxBit(s, y, i)
  {
    if i < 4 {
      AffineLow(y, s);
      assert i == 0 || i == 1 || i == 2 || i == 3;
    } else {
      AffineHigh(y, s);
      assert i == 4 || i == 5 || i == 6 || i == 7;
    }
  }

  lemma PowerIsOne(k: nat)
    requires k < 255 && Power(k) == 1
    ensures k == 0
  {
    LogOfPower(k);
    LogOfPower(0);
  }

  lemma ComplementOf(m: nat, n: nat)
    requires m < 255 && n < 255 && (m + n) % 255 == 0
    ensures n == if m == 0 then 0 else 255 - m
  {
  }

  lemma SumToOne(m: nat, n: nat)
    requires m < 255 && n < 255 && Power((m + n) % 255) == 1
    ensures Power(n) == Power(255 - m)
  {
    PowerIsOne((m + n) % 255);
    ComplementOf(m, n);
    if m == 0 {
      PowerPeriod(0);
    }
  }

  lemma UniqueByLogs(x: bv8, y: bv8, m: nat, n: nat)
    requires x != 0 && y != 0 && m == Log(x) && n == Log(y) && Mul(x, y) == 1
    ensures y == Inverse(x)
  {
    LogRange(x);
    LogRange(y);
    MulOfLogs(x, y, m, n);
    SumToOne(m, n);
    PowerOfLog(y);
  }

  lemma OneIsNoZeroProduct(x: bv8, y: bv8)
    requires Mul(x, y) == 1
    ensures y != 0
  {
  }

  lemma UniqueByMul(x: bv8, y: bv8)
    requires x != 0 && Mul(x, y) == 1
    ensures y == Inverse(x)
  {
    OneIsNoZeroProduct(x, y);
    UniqueByLogs(x, y, Log(x), Log(y));
  }

  /** There is one inverse. */
  lemma InverseIsUnique(x: bv8, y: bv8)
    requires IsInverse(x, y)
    ensures y == Inverse(x)
  {
    if x != 0 {
      MulIsProduct(x, y);
      UniqueByMul(x, y);
    }
  }

  /** The S-box is the one of FIPS 197: each bit is the standard's sum of bits of the
      inverse. */
  lemma SBoxIsFips(x: bv8)
    ensures IsSBoxOf(x, SBox(x))
  {
    forall y: bv8, i: nat ensures SBoxBitAt(x, SBox(x), y, i) {
      if IsInverse(x, y) && i < 8 {
        InverseIsUnique(x, y);
        AffineBits(y, SBox(x), i);
      }
    }
  }

  // ------------------------------------------------------------------- linearity

  lemma XTimeSum(x: bv8, y: bv8)
    ensures XTime(x ^ y) == XTime(x) ^ XTime(y)
  {
    if x & 0x80 != 0 {
      if y & 0x80 != 0 {
        assert (x ^ y) & 0x80 == 0;
      } else {
        assert (x ^ y) & 0x80 != 0;
      }
    } else if y & 0x80 != 0 {
      assert (x ^ y) & 0x80 != 0;
    } else {
      assert (x ^ y) & 0x80 == 0;
    }
  }

  lemma By1Sum(x: bv8, y: bv8)
    ensures By1(x ^ y) == By1(x) ^ By1(y)
  {
  }

  lemma By4Sum(x: bv8, y: bv8)
    ensures By4(x ^ y) == By4(x) ^ By4(y)
  {
    XTimeSum(x, y);
    XTimeSum(XTime(x), XTime(y));
  }

  lemma By8Sum(x: bv8, y: bv8)
    ensures By8(x ^ y) == By8(x) ^ By8(y)
  {
    By4Sum(x, y);
    XTimeSum(By4(x), By4(y));
  }

  lemma XorSum(x: bv8, y: bv8, x': bv8, y': bv8)
    ensures Xor(x ^ x', y ^ y') == Xor(x, y) ^ Xor(x', y')
  {
  }

  lemma By9Sum(x: bv8, y: bv8)
    ensures By9(x ^ y) == By9(x) ^ By9(y)
  {
    By8Sum(x, y);
    By1Sum(x, y);
    XorSum(By8(x), By1(x), By8(y), By1(y));
  }

  lemma By11Sum(x: bv8, y: bv8)
    ensures By11(x ^ y) == By11(x) ^ By11(y)
  {
    By9Sum(x, y);
    XTimeSum(x, y);
    XorSum(By9(x), XTime(x), By9(y), XTime(y));
  }

  lemma By12Sum(x: bv8, y: bv8)
    ensures By12(x ^ y) == By12(x) ^ By12(y)
  {
    By8Sum(x, y);
    By4Sum(x, y);
    XorSum(By8(x), By4(x), By8(y), By4(y));
  }

  lemma By13Sum(x: bv8, y: bv8)
    ensures By13(x ^ y) == By13(x) ^ By13(y)
  {
    By12Sum(x, y);
    By1Sum(x, y);
    XorSum(By12(x), By1(x), By12(y), By1(y));
  }

  lemma By3Sum(x: bv8, y: bv8)
    ensures By3(x ^ y) == By3(x) ^ By3(y)
  {
    XTimeSum(x, y);
    By1Sum(x, y);
    XorSum(XTime(x), By1(x), XTime(y), By1(y));
  }

  lemma By6Sum(x: bv8, y: bv8)
    ensures By6(x ^ y) == By6(x) ^ By6(y)
  {
    By3Sum(x, y);
    XTimeSum(By3(x), By3(y));
  }

  lemma By14Sum(x: bv8, y: bv8)
    ensures By14(x ^ y) == By14(x) ^ By14(y)
  {
    By8Sum(x, y);
    By6Sum(x, y);
    XorSum(By8(x), By6(x), By8(y), By6(y));
  }

  // ------------------------------------------------------- the arithmetic of AES

  /** The byte of Rcon in section 5.2 of FIPS 197, counted from 0. */
  function Doubled(i: nat): bv8 {
    if i == 0 then 1 else XTime(Doubled(i - 1))
  }

  function Aes(): C.Arithmetic<bv8> {
    C.Arithmetic(0, (x, y) => x ^ y, SBox, InvSBox, XTime, Triple, By9, By11, By13, By14, Doubled)
  }

  lemma SumIsXor(x: bv8, y: bv8, z: bv8, w: bv8, sum: bv8)
    requires x ^ y ^ z ^ w == sum
    ensures C.SumIs(Aes(), x, y, z, w, sum)
  {
  }

  // InvMixColumns times MixColumns, coefficient by coefficient.

  lemma Coefficient0(s: bv8)
    ensures By14(XTime(s)) ^ By11(s) ^ By13(s) ^ By9(Triple(s)) == s
  {
  }

  lemma Entry0(s: bv8)
    ensures C.SumIs(Aes(), By14(XTime(s)), By11(s), By13(s), By9(Triple(s)), s)
  {
    Coefficient0(s);
    SumIsXor(By14(XTime(s)), By11(s), By13(s), By9(Triple(s)), s);
  }

  lemma Coefficient1(s: bv8)
    ensures By9(XTime(s)) ^ By14(s) ^ By11(s) ^ By13(Triple(s)) == 0
  {
  }

  lemma Entry1(s: bv8)
    ensures C.SumIs(Aes(), By9(XTime(s)), By14(s), By11(s), By13(Triple(s)), 0)
  {
    Coefficient1(s);
    SumIsXor(By9(XTime(s)), By14(s), By11(s), By13(Triple(s)), 0);
  }

  lemma Coefficient2(s: bv8)
    ensures By13(XTime(s)) ^ By9(s) ^ By14(s) ^ By11(Triple(s)) == 0
  {
  }

  lemma Entry2(s: bv8)
    ensures C.SumIs(Aes(), By13(XTime(s)), By9(s), By14(s), By11(Triple(s)), 0)
  {
    Coefficient2(s);
    SumIsXor(By13(XTime(s)), By9(s), By14(s), By11(Triple(s)), 0);
  }

  lemma Coefficient3(s: bv8)
    ensures By11(XTime(s)) ^ By13(s) ^ By9(s) ^ By14(Triple(s)) == 0
  {
  }

  lemma Entry3(s: bv8)
    ensures C.SumIs(Aes(), By11(XTime(s)), By13(s), By9(s), By14(Triple(s)), 0)
  {
    Coefficient3(s);
    SumIsXor(By11(XTime(s)), By13(s), By9(s), By14(Triple(s)), 0);
  }

  lemma AesUnmixed(s: bv8)
    ensures C.Unmixed(Aes(), s)
  {
    Entry0(s);
    Entry1(s);
    Entry2(s);
    Entry3(s);
  }

  lemma AesAdd(x: bv8, y: bv8)
    ensures Aes().add(x, y) == x ^ y
  {
  }

  lemma AesAddsUp(f: bv8 -> bv8, x: bv8, y: bv8)
    requires f(x ^ y) == f(x) ^ f(y)
    ensures C.AddsUp(Aes(), f, x, y)
  {
    AesAdd(x, y);
    AesAdd(f(x), f(y));
  }

  lemma By9AddsUp(x: bv8, y: bv8)
    ensures C.AddsUp(Aes(), By9, x, y)
  {
    By9Sum(x, y);
    AesAddsUp(By9, x, y);
  }

  lemma By11AddsUp(x: bv8, y: bv8)
    ensures C.AddsUp(Aes(), By11, x, y)
  {
    By11Sum(x, y);
    AesAddsUp(By11, x, y);
  }

  lemma By13AddsUp(x: bv8, y: bv8)
    ensures C.AddsUp(Aes(), By13, x, y)
  {
    By13Sum(x, y);
    AesAddsUp(By13, x, y);
  }

  lemma By14AddsUp(x: bv8, y: bv8)
    ensures C.AddsUp(Aes(), By14, x, y)
  {
    By14Sum(x, y);
    AesAddsUp(By14, x, y);
  }

  lemma AesAssociates(x: bv8, y: bv8, z: bv8)
    ensures C.Associates(Aes(), x, y, z)
  {
    AesAdd(x, y);
    AesAdd(y, z);
    AesAdd(x ^ y, z);
    AesAdd(x, y ^ z);
  }

  lemma AesCommutes(x: bv8, y: bv8)
    ensures C.Commutes(Aes(), x, y)
  {
    AesAdd(x, y);
    AesAdd(y, x);
  }

  lemma AesCancels(x: bv8, k: bv8)
    ensures C.Cancels(Aes(), x, k)
  {
    AesAdd(x, k);
    AesAdd(x ^ k, k);
    AesAdd(x, 0);
    AesAdd(0, x);
  }

  /** The arithmetic of AES satisfies what inversion needs. */
  lemma AesLawful()
    ensures C.Lawful(Aes())
  {
    var ar := Aes();
    forall x, y, z ensures C.Associates(ar, x, y, z) { AesAssociates(x, y, z); }
    forall x, y ensures C.Commutes(ar, x, y) { AesCommutes(x, y); }
    forall x, k ensures C.Cancels(ar, x, k) { AesCancels(x, k); }
    forall x ensures C.Undone(ar, x) { SBoxInverse(x); }
    forall s ensures C.Unmixed(ar, s) { AesUnmixed(s); }
    forall x, y ensures C.AddsUp(ar, ar.by9, x, y) { By9AddsUp(x, y); }
    forall x, y ensures C.AddsUp(ar, ar.by11, x, y) { By11AddsUp(x, y); }
    forall x, y ensures C.AddsUp(ar, ar.by13, x, y) { By13AddsUp(x, y); }
    forall x, y ensures C.AddsUp(ar, ar.by14, x, y) { By14AddsUp(x, y); }
  }
}
