/**
 The key schedule of DES: des_main_ks, with its shifts, masks and look-up tables,
 against the bit selections of FIPS 46-3.
 */
module DesKeys {
  import opened Words
  import F = Feistel

  type Pair = F.Pair<ulong>

  predicate Ok32(p: Pair) {
    Is32(p.x) && Is32(p.y)
  }

  // --------------------------------------------------------------- the code

  function Four(i: ulong, v0: ulong, v1: ulong, v2: ulong, v3: ulong): ulong {
    if i & 2 == 0 then (if i & 1 == 0 then v0 else v1) else (if i & 1 == 0 then v2 else v3)
  }

  /** The tables of PC1, indexed by four bits. */
  function LHs(i: ulong): ulong {
    if i & 0xC == 0 then Four(i, 0x0000_0000, 0x0000_0001, 0x0000_0100, 0x0000_0101)
    else if i & 0xC == 4 then Four(i, 0x0001_0000, 0x0001_0001, 0x0001_0100, 0x0001_0101)
    else if i & 0xC == 8 then Four(i, 0x0100_0000, 0x0100_0001, 0x0100_0100, 0x0100_0101)
    else Four(i, 0x0101_0000, 0x0101_0001, 0x0101_0100, 0x0101_0101)
  }

  function RHs(i: ulong): ulong {
    if i & 0xC == 0 then Four(i, 0x0000_0000, 0x0100_0000, 0x0001_0000, 0x0101_0000)
    else if i & 0xC == 4 then Four(i, 0x0000_0100, 0x0100_0100, 0x0001_0100, 0x0101_0100)
    else if i & 0xC == 8 then Four(i, 0x0000_0001, 0x0100_0001, 0x0001_0001, 0x0101_0001)
    else Four(i, 0x0000_0101, 0x0100_0101, 0x0001_0101, 0x0101_0101)
  }

  /** Eight table entries put side by side, 28 bits of them. */
  function Merge(l0: ulong, l1: ulong, l2: ulong, l3: ulong, l4: ulong, l5: ulong, l6: ulong, l7: ulong): ulong {
    ((l0 << 3) | (l1 << 2) | (l2 << 1) | l3 | (l4 << 7) | (l5 << 6) | (l6 << 5) | (l7 << 4)) & 0x0FFF_FFFF
  }

  function Left(lhs: ulong -> ulong, x: ulong): ulong {
    Merge(lhs(x & 0xF), lhs((x >> 8) & 0xF), lhs((x >> 16) & 0xF), lhs((x >> 24) & 0xF),
          lhs((x >> 5) & 0xF), lhs((x >> 13) & 0xF), lhs((x >> 21) & 0xF), lhs((x >> 29) & 0xF))
  }

  function Right(rhs: ulong -> ulong, y: ulong): ulong {
    Merge(rhs((y >> 1) & 0xF), rhs((y >> 9) & 0xF), rhs((y >> 17) & 0xF), rhs((y >> 25) & 0xF),
          rhs((y >> 4) & 0xF), rhs((y >> 12) & 0xF), rhs((y >> 20) & 0xF), rhs((y >> 28) & 0xF))
  }

  /** The two exchanges before the tables. */
  function Exchange1(p: Pair): Pair {
    var t := ((p.y >> 4) ^ p.x) & 0x0F0F_0F0F;
    F.Pair(p.x ^ t, p.y ^ (t << 4))
  }

  function Exchange2(p: Pair): Pair {
    var t := (p.y ^ p.x) & 0x1010_1010;
    F.Pair(p.x ^ t, p.y ^ t)
  }

  function Selected(p: Pair): Pair {
    F.Pair(Left(LHs, p.x), Right(RHs, p.y))
  }

  function Pc1(p: Pair): Pair {
    Selected(Exchange2(Exchange1(p)))
  }

  function Rotl1(x: ulong): ulong { ((x << 1) | (x >> 27)) & 0x0FFF_FFFF }
  function Rotl2(x: ulong): ulong { ((x << 2) | (x >> 26)) & 0x0FFF_FFFF }

  predicate OneShift(i: nat) {
    i < 2 || i == 8 || i == 15
  }

  /** Both halves rotated left by one or two of 28 bits. */
  function Rotated(p: Pair, i: nat): Pair {
    if OneShift(i) then F.Pair(Rotl1(p.x), Rotl1(p.y)) else F.Pair(Rotl2(p.x), Rotl2(p.y))
  }

  function Subkey0(p: Pair): ulong {
    var x, y := p.x, p.y;
    ((x << 4) & 0x2400_0000) | ((x << 28) & 0x1000_0000) | ((x << 14) & 0x0800_0000) | ((x << 18) & 0x0208_0000)
      | ((x << 6) & 0x0100_0000) | ((x << 9) & 0x0020_0000) | ((x >> 1) & 0x0010_0000) | ((x << 10) & 0x0004_0000)
      | ((x << 2) & 0x0002_0000) | ((x >> 10) & 0x0001_0000) | ((y >> 13) & 0x0000_2000) | ((y >> 4) & 0x0000_1000)
      | ((y << 6) & 0x0000_0800) | ((y >> 1) & 0x0000_0400) | ((y >> 14) & 0x0000_0200) | (y & 0x0000_0100)
      | ((y >> 5) & 0x0000_0020) | ((y >> 10) & 0x0000_0010) | ((y >> 3) & 0x0000_0008) | ((y >> 18) & 0x0000_0004)
      | ((y >> 26) & 0x0000_0002) | ((y >> 24) & 0x0000_0001)
  }

  function Subkey1(p: Pair): ulong {
    var x, y := p.x, p.y;
    ((x << 15) & 0x2000_0000) | ((x << 17) & 0x1000_0000) | ((x << 10) & 0x0800_0000) | ((x << 22) & 0x0400_0000)
      | ((x >> 2) & 0x0200_0000) | ((x << 1) & 0x0100_0000) | ((x << 16) & 0x0020_0000) | ((x << 11) & 0x0010_0000)
      | ((x << 3) & 0x0008_0000) | ((x >> 6) & 0x0004_0000) | ((x << 15) & 0x0002_0000) | ((x >> 4) & 0x0001_0000)
      | ((y >> 2) & 0x0000_2000) | ((y << 8) & 0x0000_1000) | ((y >> 14) & 0x0000_0808) | ((y >> 9) & 0x0000_0400)
      | (y & 0x0000_0200) | ((y << 7) & 0x0000_0100) | ((y >> 7) & 0x0000_0020) | ((y >> 3) & 0x0000_0011)
      | ((y << 2) & 0x0000_0004) | ((y >> 21) & 0x0000_0002)
  }

  /** The halves after the first i rotations. */
  function Halves(p: Pair, i: nat): Pair {
    if i == 0 then p else Rotated(Halves(p, i - 1), i - 1)
  }

  function SubkeysOf(p: Pair): (sk: seq<ulong>)
    ensures |sk| == 32
  {
    seq(32, i requires i >= 0 => if i % 2 == 0 then Subkey0(Halves(p, i / 2 + 1)) else Subkey1(Halves(p, i / 2 + 1)))
  }

  function Load(s: seq<byte>): Pair {
    if |s| == 8 then F.Pair(Pack(s[0], s[1], s[2], s[3]), Pack(s[4], s[5], s[6], s[7])) else F.Pair(0, 0)
  }

  function MainKs(key: seq<byte>): (sk: seq<ulong>)
    ensures |sk| == 32
  {
    SubkeysOf(Pc1(Load(key)))
  }

  // ------------------------------------------------------------- FIPS 46-3

  /** Permuted choice 1 for the two halves, and permuted choice 2; bits are counted from
      1 at the left. */
  function Pc1C(j: nat): nat {
    if j == 1 then 57 else if j == 2 then 49 else if j == 3 then 41 else if j == 4 then 33
    else if j == 5 then 25 else if j == 6 then 17 else if j == 7 then 9 else if j == 8 then 1
    else if j == 9 then 58 else if j == 10 then 50 else if j == 11 then 42 else if j == 12 then 34
    else if j == 13 then 26 else if j == 14 then 18 else if j == 15 then 10 else if j == 16 then 2
    else if j == 17 then 59 else if j == 18 then 51 else if j == 19 then 43 else if j == 20 then 35
    else if j == 21 then 27 else if j == 22 then 19 else if j == 23 then 11 else if j == 24 then 3
    else if j == 25 then 60 else if j == 26 then 52 else if j == 27 then 44 else 36
  }

  function Pc1D(j: nat): nat {
    if j == 1 then 63 else if j == 2 then 55 else if j == 3 then 47 else if j == 4 then 39
    else if j == 5 then 31 else if j == 6 then 23 else if j == 7 then 15 else if j == 8 then 7
    else if j == 9 then 62 else if j == 10 then 54 else if j == 11 then 46 else if j == 12 then 38
    else if j == 13 then 30 else if j == 14 then 22 else if j == 15 then 14 else if j == 16 then 6
    else if j == 17 then 61 else if j == 18 then 53 else if j == 19 then 45 else if j == 20 then 37
    else if j == 21 then 29 else if j == 22 then 21 else if j == 23 then 13 else if j == 24 then 5
    else if j == 25 then 28 else if j == 26 then 20 else if j == 27 then 12 else 4
  }

  function Pc2(j: nat): nat {
    if j <= 12 then Pc2Boxes12(j) else if j <= 24 then Pc2Boxes34(j)
    else if j <= 36 then Pc2Boxes56(j) else Pc2Boxes78(j)
  }

  function Pc2Boxes12(j: nat): nat {
    if j == 1 then 14 else if j == 2 then 17 else if j == 3 then 11 else if j == 4 then 24
    else if j == 5 then 1 else if j == 6 then 5 else if j == 7 then 3 else if j == 8 then 28
    else if j == 9 then 15 else if j == 10 then 6 else if j == 11 then 21 else 10
  }

  function Pc2Boxes34(j: nat): nat {
    if j == 13 then 23 else if j == 14 then 19 else if j == 15 then 12 else if j == 16 then 4
    else if j == 17 then 26 else if j == 18 then 8 else if j == 19 then 16 else if j == 20 then 7
    else if j == 21 then 27 else if j == 22 then 20 else if j == 23 then 13 else 2
  }

  function Pc2Boxes56(j: nat): nat {
    if j == 25 then 41 else if j == 26 then 52 else if j == 27 then 31 else if j == 28 then 37
    else if j == 29 then 47 else if j == 30 then 55 else if j == 31 then 30 else if j == 32 then 40
    else if j == 33 then 51 else if j == 34 then 45 else if j == 35 then 33 else 48
  }

  function Pc2Boxes78(j: nat): nat {
    if j == 37 then 44 else if j == 38 then 49 else if j == 39 then 39 else if j == 40 then 56
    else if j == 41 then 34 else if j == 42 then 53 else if j == 43 then 46 else if j == 44 then 42
    else if j == 45 then 50 else if j == 46 then 36 else if j == 47 then 29 else 32
  }

  /** The left shifts of the first i rounds. */
  function Shifts(i: nat): nat {
    if i == 0 then 0 else Shifts(i - 1) + (if i == 1 || i == 2 || i == 9 || i == 16 then 1 else 2)
  }

  /** Bit i of a word, from the right. */
  function Bit(x: ulong, i: nat): bool {
    if i < 8 then Bit8(x, i) else if i < 16 then Bit8(x >> 8, i - 8) else if i < 24 then Bit8(x >> 16, i - 16)
    else Bit8(x >> 24, i - 24)
  }

  function Bit8(x: ulong, i: nat): bool {
    if i == 0 then x & 0x01 != 0 else if i == 1 then x & 0x02 != 0 else if i == 2 then x & 0x04 != 0
    else if i == 3 then x & 0x08 != 0 else if i == 4 then x & 0x10 != 0 else if i == 5 then x & 0x20 != 0
    else if i == 6 then x & 0x40 != 0 else x & 0x80 != 0
  }

  /** Bit n of the key, or of any eight bytes, from the left. */
  function KeyBit(key: seq<byte>, n: nat): bool
    requires |key| == 8
  {
    if 1 <= n <= 64 then Bit8(key[(n - 1) / 8] as ulong, 7 - (n - 1) % 8) else false
  }

  /** Bit j of the subkey of round i: bit Pc2(j) of the halves of the key after the
      shifts of i rounds. */
  function SubkeyBit(key: seq<byte>, i: nat, j: nat): bool
    requires |key| == 8
  {
    SelectedBit(key, Pc1C, Pc1D, Shifts(i), Pc2(j))
  }

  /** Bit n of the halves that the two tables choose, after s shifts to the left. */
  function SelectedBit(key: seq<byte>, left: nat -> nat, right: nat -> nat, s: nat, n: nat): bool
    requires |key| == 8
  {
    if n <= 28 then KeyBit(key, left((n + 27 + s) % 28 + 1)) else KeyBit(key, right((n + 27 + s) % 28 + 1))
  }

  /** Bit j of a subkey as the code holds it: six bits for each S-box, those of the even
      ones in the first word and those of the odd ones in the second. */
  function CodeBit(k0: ulong, k1: ulong, j: nat): bool
    requires 1 <= j <= 48
  {
    if j <= 6 then Bit(k1, 30 - j) else if j <= 12 then Bit(k0, 36 - j) else if j <= 18 then Bit(k1, 34 - j)
    else if j <= 24 then Bit(k0, 40 - j) else if j <= 30 then Bit(k1, 38 - j) else if j <= 36 then Bit(k0, 44 - j)
    else if j <= 42 then Bit(k1, 42 - j) else Bit(k0, 48 - j)
  }

  // -------------------------------------------------------- permuted choice 1

  predicate Is28(x: ulong) {
    x & 0xFFFF_FFFF_F000_0000 == 0
  }

  predicate Sparse(l: ulong) {
    l & 0xFFFF_FFFF_FEFE_FEFE == 0
  }

  /** The four low bits of x, one in each byte of l. */
  predicate SpreadUp(l: ulong, x: ulong) {
    Bit(l, 0) == Bit(x, 0) && Bit(l, 8) == Bit(x, 1) && Bit(l, 16) == Bit(x, 2) && Bit(l, 24) == Bit(x, 3)
  }

  predicate SpreadDown(l: ulong, x: ulong) {
    Bit(l, 24) == Bit(x, 0) && Bit(l, 16) == Bit(x, 1) && Bit(l, 8) == Bit(x, 2) && Bit(l, 0) == Bit(x, 3)
  }

  lemma LHsSpreads(x: ulong)
    ensures SpreadUp(LHs(x & 0xF), x) && Sparse(LHs(x & 0xF))
  {
  }

  lemma RHsSpreads(x: ulong)
    ensures SpreadDown(RHs(x & 0xF), x) && Sparse(RHs(x & 0xF))
  {
  }

  ghost predicate UpAt(lhs: ulong -> ulong, x: ulong) {
    SpreadUp(lhs(x & 0xF), x) && Sparse(lhs(x & 0xF))
  }

  ghost predicate DownAt(rhs: ulong -> ulong, x: ulong) {
    SpreadDown(rhs(x & 0xF), x) && Sparse(rhs(x & 0xF))
  }

  /** Where the bits of x end up. */
  predicate LeftBits(r: ulong, x: ulong) {
    && Bit(r, 27) == Bit(x, 3) && Bit(r, 26) == Bit(x, 11) && Bit(r, 25) == Bit(x, 19) && Bit(r, 24) == Bit(x, 27)
    && Bit(r, 23) == Bit(x, 7) && Bit(r, 22) == Bit(x, 15) && Bit(r, 21) == Bit(x, 23) && Bit(r, 20) == Bit(x, 31)
    && Bit(r, 19) == Bit(x, 2) && Bit(r, 18) == Bit(x, 10) && Bit(r, 17) == Bit(x, 18) && Bit(r, 16) == Bit(x, 26)
    && Bit(r, 15) == Bit(x, 6) && Bit(r, 14) == Bit(x, 14) && Bit(r, 13) == Bit(x, 22) && Bit(r, 12) == Bit(x, 30)
    && Bit(r, 11) == Bit(x, 1) && Bit(r, 10) == Bit(x, 9) && Bit(r, 9) == Bit(x, 17) && Bit(r, 8) == Bit(x, 25)
    && Bit(r, 7) == Bit(x, 5) && Bit(r, 6) == Bit(x, 13) && Bit(r, 5) == Bit(x, 21) && Bit(r, 4) == Bit(x, 29)
    && Bit(r, 3) == Bit(x, 0) && Bit(r, 2) == Bit(x, 8) && Bit(r, 1) == Bit(x, 16) && Bit(r, 0) == Bit(x, 24)
  }

  lemma LeftList(x: ulong, l0: ulong, l1: ulong, l2: ulong, l3: ulong, l4: ulong, l5: ulong, l6: ulong, l7: ulong,
                 r: ulong)
    requires Is32(x) && r == Merge(l0, l1, l2, l3, l4, l5, l6, l7)
    requires Sparse(l0) && Sparse(l1) && Sparse(l2) && Sparse(l3) && Sparse(l4) && Sparse(l5) && Sparse(l6)
    requires Sparse(l7)
    requires SpreadUp(l0, x) && SpreadUp(l1, x >> 8) && SpreadUp(l2, x >> 16) && SpreadUp(l3, x >> 24)
    requires SpreadUp(l4, x >> 5) && SpreadUp(l5, x >> 13) && SpreadUp(l6, x >> 21) && SpreadUp(l7, x >> 29)
    ensures Is28(r)
    ensures Bit(r, 27) == Bit(x, 3) && Bit(r, 26) == Bit(x, 11) && Bit(r, 25) == Bit(x, 19)
    ensures Bit(r, 24) == Bit(x, 27) && Bit(r, 23) == Bit(x, 7) && Bit(r, 22) == Bit(x, 15)
    ensures Bit(r, 21) == Bit(x, 23) && Bit(r, 20) == Bit(x, 31) && Bit(r, 19) == Bit(x, 2)
    ensures Bit(r, 18) == Bit(x, 10) && Bit(r, 17) == Bit(x, 18) && Bit(r, 16) == Bit(x, 26)
    ensures Bit(r, 15) == Bit(x, 6) && Bit(r, 14) == Bit(x, 14) && Bit(r, 13) == Bit(x, 22)
    ensures Bit(r, 12) == Bit(x, 30) && Bit(r, 11) == Bit(x, 1) && Bit(r, 10) == Bit(x, 9) && Bit(r, 9) == Bit(x, 17)
    ensures Bit(r, 8) == Bit(x, 25) && Bit(r, 7) == Bit(x, 5) && Bit(r, 6) == Bit(x, 13) && Bit(r, 5) == Bit(x, 21)
    ensures Bit(r, 4) == Bit(x, 29) && Bit(r, 3) == Bit(x, 0) && Bit(r, 2) == Bit(x, 8) && Bit(r, 1) == Bit(x, 16)
    ensures Bit(r, 0) == Bit(x, 24)
  {
  }

  lemma LeftMerged(x: ulong, l0: ulong, l1: ulong, l2: ulong, l3: ulong, l4: ulong, l5: ulong, l6: ulong, l7: ulong,
                   r: ulong)
    requires Is32(x) && r == Merge(l0, l1, l2, l3, l4, l5, l6, l7)
    requires Sparse(l0) && Sparse(l1) && Sparse(l2) && Sparse(l3) && Sparse(l4) && Sparse(l5) && Sparse(l6)
    requires Sparse(l7)
    requires SpreadUp(l0, x) && SpreadUp(l1, x >> 8) && SpreadUp(l2, x >> 16) && SpreadUp(l3, x >> 24)
    requires SpreadUp(l4, x >> 5) && SpreadUp(l5, x >> 13) && SpreadUp(l6, x >> 21) && SpreadUp(l7, x >> 29)
    ensures Is28(r) && LeftBits(r, x)
  {
    LeftList(x, l0, l1, l2, l3, l4, l5, l6, l7, r);
  }

  lemma LeftIs(lhs: ulong -> ulong, x: ulong)
    requires Is32(x) && forall y :: UpAt(lhs, y)
    ensures Is28(Left(lhs, x)) && LeftBits(Left(lhs, x), x)
  {
    assert UpAt(lhs, x) && UpAt(lhs, x >> 8) && UpAt(lhs, x >> 16) && UpAt(lhs, x >> 24) && UpAt(lhs, x >> 5);
    assert UpAt(lhs, x >> 13) && UpAt(lhs, x >> 21) && UpAt(lhs, x >> 29);
    LeftMerged(x, lhs(x & 0xF), lhs((x >> 8) & 0xF), lhs((x >> 16) & 0xF), lhs((x >> 24) & 0xF),
               lhs((x >> 5) & 0xF), lhs((x >> 13) & 0xF), lhs((x >> 21) & 0xF), lhs((x >> 29) & 0xF), Left(lhs, x));
  }

  /** Where the bits of x end up. */
  predicate RightBits(r: ulong, x: ulong) {
    && Bit(r, 27) == Bit(x, 1) && Bit(r, 26) == Bit(x, 9) && Bit(r, 25) == Bit(x, 17) && Bit(r, 24) == Bit(x, 25)
    && Bit(r, 23) == Bit(x, 5) && Bit(r, 22) == Bit(x, 13) && Bit(r, 21) == Bit(x, 21) && Bit(r, 20) == Bit(x, 29)
    && Bit(r, 19) == Bit(x, 2) && Bit(r, 18) == Bit(x, 10) && Bit(r, 17) == Bit(x, 18) && Bit(r, 16) == Bit(x, 26)
    && Bit(r, 15) == Bit(x, 6) && Bit(r, 14) == Bit(x, 14) && Bit(r, 13) == Bit(x, 22) && Bit(r, 12) == Bit(x, 30)
    && Bit(r, 11) == Bit(x, 3) && Bit(r, 10) == Bit(x, 11) && Bit(r, 9) == Bit(x, 19) && Bit(r, 8) == Bit(x, 27)
    && Bit(r, 7) == Bit(x, 7) && Bit(r, 6) == Bit(x, 15) && Bit(r, 5) == Bit(x, 23) && Bit(r, 4) == Bit(x, 31)
    && Bit(r, 3) == Bit(x, 4) && Bit(r, 2) == Bit(x, 12) && Bit(r, 1) == Bit(x, 20) && Bit(r, 0) == Bit(x, 28)
  }

  lemma RightList(x: ulong, l0: ulong, l1: ulong, l2: ulong, l3: ulong, l4: ulong, l5: ulong, l6: ulong, l7: ulong,
                 r: ulong)
    requires Is32(x) && r == Merge(l0, l1, l2, l3, l4, l5, l6, l7)
    requires Sparse(l0) && Sparse(l1) && Sparse(l2) && Sparse(l3) && Sparse(l4) && Sparse(l5) && Sparse(l6)
    requires Sparse(l7)
    requires SpreadDown(l0, x >> 1) && SpreadDown(l1, x >> 9) && SpreadDown(l2, x >> 17) && SpreadDown(l3, x >> 25)
    requires SpreadDown(l4, x >> 4) && SpreadDown(l5, x >> 12) && SpreadDown(l6, x >> 20) && SpreadDown(l7, x >> 28)
    ensures Is28(r)
    ensures Bit(r, 27) == Bit(x, 1) && Bit(r, 26) == Bit(x, 9) && Bit(r, 25) == Bit(x, 17) && Bit(r, 24) == Bit(x, 25)
    ensures Bit(r, 23) == Bit(x, 5) && Bit(r, 22) == Bit(x, 13) && Bit(r, 21) == Bit(x, 21)
    ensures Bit(r, 20) == Bit(x, 29) && Bit(r, 19) == Bit(x, 2) && Bit(r, 18) == Bit(x, 10)
    ensures Bit(r, 17) == Bit(x, 18) && Bit(r, 16) == Bit(x, 26) && Bit(r, 15) == Bit(x, 6)
    ensures Bit(r, 14) == Bit(x, 14) && Bit(r, 13) == Bit(x, 22) && Bit(r, 12) == Bit(x, 30)
    ensures Bit(r, 11) == Bit(x, 3) && Bit(r, 10) == Bit(x, 11) && Bit(r, 9) == Bit(x, 19) && Bit(r, 8) == Bit(x, 27)
    ensures Bit(r, 7) == Bit(x, 7) && Bit(r, 6) == Bit(x, 15) && Bit(r, 5) == Bit(x, 23) && Bit(r, 4) == Bit(x, 31)
    ensures Bit(r, 3) == Bit(x, 4) && Bit(r, 2) == Bit(x, 12) && Bit(r, 1) == Bit(x, 20) && Bit(r, 0) == Bit(x, 28)
  {
  }

  lemma RightMerged(x: ulong, l0: ulong, l1: ulong, l2: ulong, l3: ulong, l4: ulong, l5: ulong, l6: ulong, l7: ulong,
                   r: ulong)
    requires Is32(x) && r == Merge(l0, l1, l2, l3, l4, l5, l6, l7)
    requires Sparse(l0) && Sparse(l1) && Sparse(l2) && Sparse(l3) && Sparse(l4) && Sparse(l5) && Sparse(l6)
    requires Sparse(l7)
    requires SpreadDown(l0, x >> 1) && SpreadDown(l1, x >> 9) && SpreadDown(l2, x >> 17) && SpreadDown(l3, x >> 25)
    requires SpreadDown(l4, x >> 4) && SpreadDown(l5, x >> 12) && SpreadDown(l6, x >> 20) && SpreadDown(l7, x >> 28)
    ensures Is28(r) && RightBits(r, x)
  {
    RightList(x, l0, l1, l2, l3, l4, l5, l6, l7, r);
  }

  lemma RightIs(rhs: ulong -> ulong, x: ulong)
    requires Is32(x) && forall y :: DownAt(rhs, y)
    ensures Is28(Right(rhs, x)) && RightBits(Right(rhs, x), x)
  {
    assert DownAt(rhs, x >> 1) && DownAt(rhs, x >> 9) && DownAt(rhs, x >> 17) && DownAt(rhs, x >> 25);
    assert DownAt(rhs, x >> 4) && DownAt(rhs, x >> 12) && DownAt(rhs, x >> 20) && DownAt(rhs, x >> 28);
    RightMerged(x, rhs((x >> 1) & 0xF), rhs((x >> 9) & 0xF), rhs((x >> 17) & 0xF), rhs((x >> 25) & 0xF),
               rhs((x >> 4) & 0xF), rhs((x >> 12) & 0xF), rhs((x >> 20) & 0xF), rhs((x >> 28) & 0xF), Right(rhs, x));
  }

  /** The exchanges without exclusive or. */
  lemma Exchange1Is(x: ulong, y: ulong)
    requires Is32(x) && Is32(y)
    ensures Exchange1(F.Pair(x, y)) ==
      F.Pair((x & 0xF0F0_F0F0) | ((y >> 4) & 0x0F0F_0F0F), (y & 0x0F0F_0F0F) | ((x & 0x0F0F_0F0F) << 4))
  {
  }

  lemma Exchange2Is(x: ulong, y: ulong)
    requires Is32(x) && Is32(y)
    ensures Exchange2(F.Pair(x, y)) ==
      F.Pair((x & 0xEFEF_EFEF) | (y & 0x1010_1010), (y & 0xEFEF_EFEF) | (x & 0x1010_1010))
  {
  }

  /** Where the bits go in both exchanges. */
  predicate ExchangedX(x: ulong, y: ulong, x': ulong) {
    && Bit(x', 31) == Bit(x, 31) && Bit(x', 30) == Bit(x, 30) && Bit(x', 29) == Bit(x, 29)
    && Bit(x', 28) == Bit(x, 24) && Bit(x', 27) == Bit(y, 31) && Bit(x', 26) == Bit(y, 30)
    && Bit(x', 25) == Bit(y, 29) && Bit(x', 24) == Bit(y, 28) && Bit(x', 23) == Bit(x, 23)
    && Bit(x', 22) == Bit(x, 22) && Bit(x', 21) == Bit(x, 21) && Bit(x', 20) == Bit(x, 16)
    && Bit(x', 19) == Bit(y, 23) && Bit(x', 18) == Bit(y, 22) && Bit(x', 17) == Bit(y, 21)
    && Bit(x', 16) == Bit(y, 20) && Bit(x', 15) == Bit(x, 15) && Bit(x', 14) == Bit(x, 14)
    && Bit(x', 13) == Bit(x, 13) && Bit(x', 12) == Bit(x, 8) && Bit(x', 11) == Bit(y, 15) && Bit(x', 10) == Bit(y, 14)
    && Bit(x', 9) == Bit(y, 13) && Bit(x', 8) == Bit(y, 12) && Bit(x', 7) == Bit(x, 7) && Bit(x', 6) == Bit(x, 6)
    && Bit(x', 5) == Bit(x, 5) && Bit(x', 4) == Bit(x, 0) && Bit(x', 3) == Bit(y, 7) && Bit(x', 2) == Bit(y, 6)
    && Bit(x', 1) == Bit(y, 5) && Bit(x', 0) == Bit(y, 4)
  }

  predicate ExchangedY(x: ulong, y: ulong, y': ulong) {
    && Bit(y', 31) == Bit(x, 27) && Bit(y', 30) == Bit(x, 26) && Bit(y', 29) == Bit(x, 25)
    && Bit(y', 28) == Bit(x, 28) && Bit(y', 27) == Bit(y, 27) && Bit(y', 26) == Bit(y, 26)
    && Bit(y', 25) == Bit(y, 25) && Bit(y', 24) == Bit(y, 24) && Bit(y', 23) == Bit(x, 19)
    && Bit(y', 22) == Bit(x, 18) && Bit(y', 21) == Bit(x, 17) && Bit(y', 20) == Bit(x, 20)
    && Bit(y', 19) == Bit(y, 19) && Bit(y', 18) == Bit(y, 18) && Bit(y', 17) == Bit(y, 17)
    && Bit(y', 16) == Bit(y, 16) && Bit(y', 15) == Bit(x, 11) && Bit(y', 14) == Bit(x, 10) && Bit(y', 13) == Bit(x, 9)
    && Bit(y', 12) == Bit(x, 12) && Bit(y', 11) == Bit(y, 11) && Bit(y', 10) == Bit(y, 10) && Bit(y', 9) == Bit(y, 9)
    && Bit(y', 8) == Bit(y, 8) && Bit(y', 7) == Bit(x, 3) && Bit(y', 6) == Bit(x, 2) && Bit(y', 5) == Bit(x, 1)
    && Bit(y', 4) == Bit(x, 4) && Bit(y', 3) == Bit(y, 3) && Bit(y', 2) == Bit(y, 2) && Bit(y', 1) == Bit(y, 1)
    && Bit(y', 0) == Bit(y, 0)
  }

  lemma ExchangeListX(x: ulong, y: ulong, x': ulong)
    requires Is32(x) && Is32(y)
    requires var x1, y1 := (x & 0xF0F0_F0F0) | ((y >> 4) & 0x0F0F_0F0F), (y & 0x0F0F_0F0F) | ((x & 0x0F0F_0F0F) << 4);
             x' == (x1 & 0xEFEF_EFEF) | (y1 & 0x1010_1010)
    ensures Is32(x')
    ensures Bit(x', 31) == Bit(x, 31) && Bit(x', 30) == Bit(x, 30) && Bit(x', 29) == Bit(x, 29)
    ensures Bit(x', 28) == Bit(x, 24) && Bit(x', 27) == Bit(y, 31) && Bit(x', 26) == Bit(y, 30)
    ensures Bit(x', 25) == Bit(y, 29) && Bit(x', 24) == Bit(y, 28) && Bit(x', 23) == Bit(x, 23)
    ensures Bit(x', 22) == Bit(x, 22) && Bit(x', 21) == Bit(x, 21) && Bit(x', 20) == Bit(x, 16)
    ensures Bit(x', 19) == Bit(y, 23) && Bit(x', 18) == Bit(y, 22) && Bit(x', 17) == Bit(y, 21)
    ensures Bit(x', 16) == Bit(y, 20) && Bit(x', 15) == Bit(x, 15) && Bit(x', 14) == Bit(x, 14)
    ensures Bit(x', 13) == Bit(x, 13) && Bit(x', 12) == Bit(x, 8) && Bit(x', 11) == Bit(y, 15)
    ensures Bit(x', 10) == Bit(y, 14) && Bit(x', 9) == Bit(y, 13) && Bit(x', 8) == Bit(y, 12)
    ensures Bit(x', 7) == Bit(x, 7) && Bit(x', 6) == Bit(x, 6) && Bit(x', 5) == Bit(x, 5) && Bit(x', 4) == Bit(x, 0)
    ensures Bit(x', 3) == Bit(y, 7) && Bit(x', 2) == Bit(y, 6) && Bit(x', 1) == Bit(y, 5) && Bit(x', 0) == Bit(y, 4)
  {
  }

  lemma ExchangeListY(x: ulong, y: ulong, y': ulong)
    requires Is32(x) && Is32(y)
    requires var x1, y1 := (x & 0xF0F0_F0F0) | ((y >> 4) & 0x0F0F_0F0F), (y & 0x0F0F_0F0F) | ((x & 0x0F0F_0F0F) << 4);
             y' == (y1 & 0xEFEF_EFEF) | (x1 & 0x1010_1010)
    ensures Is32(y')
    ensures Bit(y', 31) == Bit(x, 27) && Bit(y', 30) == Bit(x, 26) && Bit(y', 29) == Bit(x, 25)
    ensures Bit(y', 28) == Bit(x, 28) && Bit(y', 27) == Bit(y, 27) && Bit(y', 26) == Bit(y, 26)
    ensures Bit(y', 25) == Bit(y, 25) && Bit(y', 24) == Bit(y, 24) && Bit(y', 23) == Bit(x, 19)
    ensures Bit(y', 22) == Bit(x, 18) && Bit(y', 21) == Bit(x, 17) && Bit(y', 20) == Bit(x, 20)
    ensures Bit(y', 19) == Bit(y, 19) && Bit(y', 18) == Bit(y, 18) && Bit(y', 17) == Bit(y, 17)
    ensures Bit(y', 16) == Bit(y, 16) && Bit(y', 15) == Bit(x, 11) && Bit(y', 14) == Bit(x, 10)
    ensures Bit(y', 13) == Bit(x, 9) && Bit(y', 12) == Bit(x, 12) && Bit(y', 11) == Bit(y, 11)
    ensures Bit(y', 10) == Bit(y, 10) && Bit(y', 9) == Bit(y, 9) && Bit(y', 8) == Bit(y, 8) && Bit(y', 7) == Bit(x, 3)
    ensures Bit(y', 6) == Bit(x, 2) && Bit(y', 5) == Bit(x, 1) && Bit(y', 4) == Bit(x, 4) && Bit(y', 3) == Bit(y, 3)
    ensures Bit(y', 2) == Bit(y, 2) && Bit(y', 1) == Bit(y, 1) && Bit(y', 0) == Bit(y, 0)
  {
  }

  predicate ChosenC(x: ulong, y: ulong, c: ulong) {
    && Bit(c, 27) == Bit(y, 7) && Bit(c, 26) == Bit(y, 15) && Bit(c, 25) == Bit(y, 23) && Bit(c, 24) == Bit(y, 31)
    && Bit(c, 23) == Bit(x, 7) && Bit(c, 22) == Bit(x, 15) && Bit(c, 21) == Bit(x, 23) && Bit(c, 20) == Bit(x, 31)
    && Bit(c, 19) == Bit(y, 6) && Bit(c, 18) == Bit(y, 14) && Bit(c, 17) == Bit(y, 22) && Bit(c, 16) == Bit(y, 30)
    && Bit(c, 15) == Bit(x, 6) && Bit(c, 14) == Bit(x, 14) && Bit(c, 13) == Bit(x, 22) && Bit(c, 12) == Bit(x, 30)
    && Bit(c, 11) == Bit(y, 5) && Bit(c, 10) == Bit(y, 13) && Bit(c, 9) == Bit(y, 21) && Bit(c, 8) == Bit(y, 29)
    && Bit(c, 7) == Bit(x, 5) && Bit(c, 6) == Bit(x, 13) && Bit(c, 5) == Bit(x, 21) && Bit(c, 4) == Bit(x, 29)
    && Bit(c, 3) == Bit(y, 4) && Bit(c, 2) == Bit(y, 12) && Bit(c, 1) == Bit(y, 20) && Bit(c, 0) == Bit(y, 28)
  }

  lemma ChosenCList(x: ulong, y: ulong, x': ulong, c: ulong)
    requires ExchangedX(x, y, x') && LeftBits(c, x')
    ensures Bit(c, 27) == Bit(y, 7) && Bit(c, 26) == Bit(y, 15) && Bit(c, 25) == Bit(y, 23)
    ensures Bit(c, 24) == Bit(y, 31) && Bit(c, 23) == Bit(x, 7) && Bit(c, 22) == Bit(x, 15)
    ensures Bit(c, 21) == Bit(x, 23) && Bit(c, 20) == Bit(x, 31) && Bit(c, 19) == Bit(y, 6)
    ensures Bit(c, 18) == Bit(y, 14) && Bit(c, 17) == Bit(y, 22) && Bit(c, 16) == Bit(y, 30)
    ensures Bit(c, 15) == Bit(x, 6) && Bit(c, 14) == Bit(x, 14) && Bit(c, 13) == Bit(x, 22)
    ensures Bit(c, 12) == Bit(x, 30) && Bit(c, 11) == Bit(y, 5) && Bit(c, 10) == Bit(y, 13) && Bit(c, 9) == Bit(y, 21)
    ensures Bit(c, 8) == Bit(y, 29) && Bit(c, 7) == Bit(x, 5) && Bit(c, 6) == Bit(x, 13) && Bit(c, 5) == Bit(x, 21)
    ensures Bit(c, 4) == Bit(x, 29) && Bit(c, 3) == Bit(y, 4) && Bit(c, 2) == Bit(y, 12) && Bit(c, 1) == Bit(y, 20)
    ensures Bit(c, 0) == Bit(y, 28)
  {
  }

  lemma ChosenCIs(x: ulong, y: ulong, x': ulong, c: ulong)
    requires ExchangedX(x, y, x') && LeftBits(c, x')
    ensures ChosenC(x, y, c)
  {
    ChosenCList(x, y, x', c);
  }

  predicate ChosenD(x: ulong, y: ulong, d: ulong) {
    && Bit(d, 27) == Bit(y, 1) && Bit(d, 26) == Bit(y, 9) && Bit(d, 25) == Bit(y, 17) && Bit(d, 24) == Bit(y, 25)
    && Bit(d, 23) == Bit(x, 1) && Bit(d, 22) == Bit(x, 9) && Bit(d, 21) == Bit(x, 17) && Bit(d, 20) == Bit(x, 25)
    && Bit(d, 19) == Bit(y, 2) && Bit(d, 18) == Bit(y, 10) && Bit(d, 17) == Bit(y, 18) && Bit(d, 16) == Bit(y, 26)
    && Bit(d, 15) == Bit(x, 2) && Bit(d, 14) == Bit(x, 10) && Bit(d, 13) == Bit(x, 18) && Bit(d, 12) == Bit(x, 26)
    && Bit(d, 11) == Bit(y, 3) && Bit(d, 10) == Bit(y, 11) && Bit(d, 9) == Bit(y, 19) && Bit(d, 8) == Bit(y, 27)
    && Bit(d, 7) == Bit(x, 3) && Bit(d, 6) == Bit(x, 11) && Bit(d, 5) == Bit(x, 19) && Bit(d, 4) == Bit(x, 27)
    && Bit(d, 3) == Bit(x, 4) && Bit(d, 2) == Bit(x, 12) && Bit(d, 1) == Bit(x, 20) && Bit(d, 0) == Bit(x, 28)
  }

  lemma ChosenDList(x: ulong, y: ulong, y': ulong, d: ulong)
    requires ExchangedY(x, y, y') && RightBits(d, y')
    ensures Bit(d, 27) == Bit(y, 1) && Bit(d, 26) == Bit(y, 9) && Bit(d, 25) == Bit(y, 17) && Bit(d, 24) == Bit(y, 25)
    ensures Bit(d, 23) == Bit(x, 1) && Bit(d, 22) == Bit(x, 9) && Bit(d, 21) == Bit(x, 17) && Bit(d, 20) == Bit(x, 25)
    ensures Bit(d, 19) == Bit(y, 2) && Bit(d, 18) == Bit(y, 10) && Bit(d, 17) == Bit(y, 18)
    ensures Bit(d, 16) == Bit(y, 26) && Bit(d, 15) == Bit(x, 2) && Bit(d, 14) == Bit(x, 10)
    ensures Bit(d, 13) == Bit(x, 18) && Bit(d, 12) == Bit(x, 26) && Bit(d, 11) == Bit(y, 3)
    ensures Bit(d, 10) == Bit(y, 11) && Bit(d, 9) == Bit(y, 19) && Bit(d, 8) == Bit(y, 27) && Bit(d, 7) == Bit(x, 3)
    ensures Bit(d, 6) == Bit(x, 11) && Bit(d, 5) == Bit(x, 19) && Bit(d, 4) == Bit(x, 27) && Bit(d, 3) == Bit(x, 4)
    ensures Bit(d, 2) == Bit(x, 12) && Bit(d, 1) == Bit(x, 20) && Bit(d, 0) == Bit(x, 28)
  {
  }

  lemma ChosenDIs(x: ulong, y: ulong, y': ulong, d: ulong)
    requires ExchangedY(x, y, y') && RightBits(d, y')
    ensures ChosenD(x, y, d)
  {
    ChosenDList(x, y, y', d);
  }

  lemma ExchangedIs(x: ulong, y: ulong, x': ulong, y': ulong)
    requires Is32(x) && Is32(y) && F.Pair(x', y') == Exchange2(Exchange1(F.Pair(x, y)))
    ensures Is32(x') && Is32(y') && ExchangedX(x, y, x') && ExchangedY(x, y, y')
  {
    var p := Exchange1(F.Pair(x, y));
    Exchange1Is(x, y);
    Narrow(x, y, p.x, p.y);
    Exchange2Is(p.x, p.y);
    ExchangeListX(x, y, x');
    ExchangeListY(x, y, y');
  }

  lemma Narrow(x: ulong, y: ulong, x1: ulong, y1: ulong)
    requires Is32(x) && Is32(y)
    requires x1 == (x & 0xF0F0_F0F0) | ((y >> 4) & 0x0F0F_0F0F)
    requires y1 == (y & 0x0F0F_0F0F) | ((x & 0x0F0F_0F0F) << 4)
    ensures Is32(x1) && Is32(y1)
  {
  }

  lemma Pc1Is(p: Pair)
    requires Ok32(p)
    ensures var h := Pc1(p); Is28(h.x) && Is28(h.y) && ChosenC(p.x, p.y, h.x) && ChosenD(p.x, p.y, h.y)
  {
    var q := Exchange2(Exchange1(p));
    ExchangedIs(p.x, p.y, q.x, q.y);
    forall y ensures UpAt(LHs, y) { LHsSpreads(y); }
    forall y ensures DownAt(RHs, y) { RHsSpreads(y); }
    LeftIs(LHs, q.x);
    RightIs(RHs, q.y);
    ChosenCIs(p.x, p.y, q.x, Left(LHs, q.x));
    ChosenDIs(p.x, p.y, q.y, Right(RHs, q.y));
  }

  // ------------------------------------------------------------ by bit number

  /** For proofs by cases on a bit number. */
  lemma Cases(j: nat, a: nat)
    requires a < j <= a + 14
    ensures j == a + 1 || j == a + 2 || j == a + 3 || j == a + 4 || j == a + 5 || j == a + 6 || j == a + 7 || j == a + 8
         || j == a + 9 || j == a + 10 || j == a + 11 || j == a + 12 || j == a + 13 || j == a + 14
  {
  }

  /** Bit n of both words, from the left. */
  function PairBit(p: Pair, n: nat): bool {
    if 1 <= n <= 32 then Bit(p.x, 32 - n) else if 33 <= n <= 64 then Bit(p.y, 64 - n) else false
  }

  lemma Pc1CAt(p: Pair, c: ulong, j: nat)
    requires ChosenC(p.x, p.y, c) && 1 <= j <= 28
    ensures Bit(c, 28 - j) == PairBit(p, Pc1C(j))
  {
    if j <= 14 { Cases(j, 0); } else { Cases(j, 14); }
  }

  lemma Pc1DAt(p: Pair, d: ulong, j: nat)
    requires ChosenD(p.x, p.y, d) && 1 <= j <= 28
    ensures Bit(d, 28 - j) == PairBit(p, Pc1D(j))
  {
    if j <= 14 { Cases(j, 0); } else { Cases(j, 14); }
  }

  predicate Turned1(x: ulong, r: ulong) {
    && Bit(r, 27) == Bit(x, 26) && Bit(r, 26) == Bit(x, 25) && Bit(r, 25) == Bit(x, 24) && Bit(r, 24) == Bit(x, 23)
    && Bit(r, 23) == Bit(x, 22) && Bit(r, 22) == Bit(x, 21) && Bit(r, 21) == Bit(x, 20) && Bit(r, 20) == Bit(x, 19)
    && Bit(r, 19) == Bit(x, 18) && Bit(r, 18) == Bit(x, 17) && Bit(r, 17) == Bit(x, 16) && Bit(r, 16) == Bit(x, 15)
    && Bit(r, 15) == Bit(x, 14) && Bit(r, 14) == Bit(x, 13) && Bit(r, 13) == Bit(x, 12) && Bit(r, 12) == Bit(x, 11)
    && Bit(r, 11) == Bit(x, 10) && Bit(r, 10) == Bit(x, 9) && Bit(r, 9) == Bit(x, 8) && Bit(r, 8) == Bit(x, 7)
    && Bit(r, 7) == Bit(x, 6) && Bit(r, 6) == Bit(x, 5) && Bit(r, 5) == Bit(x, 4) && Bit(r, 4) == Bit(x, 3)
    && Bit(r, 3) == Bit(x, 2) && Bit(r, 2) == Bit(x, 1) && Bit(r, 1) == Bit(x, 0) && Bit(r, 0) == Bit(x, 27)
  }

  lemma Rotl1List(x: ulong, r: ulong)
    requires Is28(x) && r == Rotl1(x)
    ensures Is28(r)
    ensures Bit(r, 27) == Bit(x, 26) && Bit(r, 26) == Bit(x, 25) && Bit(r, 25) == Bit(x, 24)
    ensures Bit(r, 24) == Bit(x, 23) && Bit(r, 23) == Bit(x, 22) && Bit(r, 22) == Bit(x, 21)
    ensures Bit(r, 21) == Bit(x, 20) && Bit(r, 20) == Bit(x, 19) && Bit(r, 19) == Bit(x, 18)
    ensures Bit(r, 18) == Bit(x, 17) && Bit(r, 17) == Bit(x, 16) && Bit(r, 16) == Bit(x, 15)
    ensures Bit(r, 15) == Bit(x, 14) && Bit(r, 14) == Bit(x, 13) && Bit(r, 13) == Bit(x, 12)
    ensures Bit(r, 12) == Bit(x, 11) && Bit(r, 11) == Bit(x, 10) && Bit(r, 10) == Bit(x, 9) && Bit(r, 9) == Bit(x, 8)
    ensures Bit(r, 8) == Bit(x, 7) && Bit(r, 7) == Bit(x, 6) && Bit(r, 6) == Bit(x, 5) && Bit(r, 5) == Bit(x, 4)
    ensures Bit(r, 4) == Bit(x, 3) && Bit(r, 3) == Bit(x, 2) && Bit(r, 2) == Bit(x, 1) && Bit(r, 1) == Bit(x, 0)
    ensures Bit(r, 0) == Bit(x, 27)
  {
  }

  lemma Rotl1At(x: ulong, r: ulong, k: nat)
    requires Turned1(x, r) && k < 28
    ensures Bit(r, k) == Bit(x, if k < 1 then k + 27 else k - 1)
  {
    if k < 14 { Cases(k + 1, 0); } else { Cases(k + 1, 14); }
  }

  lemma Rotl1Is(x: ulong)
    requires Is28(x)
    ensures Is28(Rotl1(x)) && Turned1(x, Rotl1(x))
  {
    Rotl1List(x, Rotl1(x));
  }

  predicate Turned2(x: ulong, r: ulong) {
    && Bit(r, 27) == Bit(x, 25) && Bit(r, 26) == Bit(x, 24) && Bit(r, 25) == Bit(x, 23) && Bit(r, 24) == Bit(x, 22)
    && Bit(r, 23) == Bit(x, 21) && Bit(r, 22) == Bit(x, 20) && Bit(r, 21) == Bit(x, 19) && Bit(r, 20) == Bit(x, 18)
    && Bit(r, 19) == Bit(x, 17) && Bit(r, 18) == Bit(x, 16) && Bit(r, 17) == Bit(x, 15) && Bit(r, 16) == Bit(x, 14)
    && Bit(r, 15) == Bit(x, 13) && Bit(r, 14) == Bit(x, 12) && Bit(r, 13) == Bit(x, 11) && Bit(r, 12) == Bit(x, 10)
    && Bit(r, 11) == Bit(x, 9) && Bit(r, 10) == Bit(x, 8) && Bit(r, 9) == Bit(x, 7) && Bit(r, 8) == Bit(x, 6)
    && Bit(r, 7) == Bit(x, 5) && Bit(r, 6) == Bit(x, 4) && Bit(r, 5) == Bit(x, 3) && Bit(r, 4) == Bit(x, 2)
    && Bit(r, 3) == Bit(x, 1) && Bit(r, 2) == Bit(x, 0) && Bit(r, 1) == Bit(x, 27) && Bit(r, 0) == Bit(x, 26)
  }

  lemma Rotl2List(x: ulong, r: ulong)
    requires Is28(x) && r == Rotl2(x)
    ensures Is28(r)
    ensures Bit(r, 27) == Bit(x, 25) && Bit(r, 26) == Bit(x, 24) && Bit(r, 25) == Bit(x, 23)
    ensures Bit(r, 24) == Bit(x, 22) && Bit(r, 23) == Bit(x, 21) && Bit(r, 22) == Bit(x, 20)
    ensures Bit(r, 21) == Bit(x, 19) && Bit(r, 20) == Bit(x, 18) && Bit(r, 19) == Bit(x, 17)
    ensures Bit(r, 18) == Bit(x, 16) && Bit(r, 17) == Bit(x, 15) && Bit(r, 16) == Bit(x, 14)
    ensures Bit(r, 15) == Bit(x, 13) && Bit(r, 14) == Bit(x, 12) && Bit(r, 13) == Bit(x, 11)
    ensures Bit(r, 12) == Bit(x, 10) && Bit(r, 11) == Bit(x, 9) && Bit(r, 10) == Bit(x, 8) && Bit(r, 9) == Bit(x, 7)
    ensures Bit(r, 8) == Bit(x, 6) && Bit(r, 7) == Bit(x, 5) && Bit(r, 6) == Bit(x, 4) && Bit(r, 5) == Bit(x, 3)
    ensures Bit(r, 4) == Bit(x, 2) && Bit(r, 3) == Bit(x, 1) && Bit(r, 2) == Bit(x, 0) && Bit(r, 1) == Bit(x, 27)
    ensures Bit(r, 0) == Bit(x, 26)
  {
  }

  lemma Rotl2At(x: ulong, r: ulong, k: nat)
    requires Turned2(x, r) && k < 28
    ensures Bit(r, k) == Bit(x, if k < 2 then k + 26 else k - 2)
  {
    if k < 14 { Cases(k + 1, 0); } else { Cases(k + 1, 14); }
  }

  lemma Rotl2Is(x: ulong)
    requires Is28(x)
    ensures Is28(Rotl2(x)) && Turned2(x, Rotl2(x))
  {
    Rotl2List(x, Rotl2(x));
  }

  predicate Selects0(x: ulong, y: ulong, k: ulong) {
    && Bit(k, 29) == Bit(x, 25) && Bit(k, 28) == Bit(x, 0) && Bit(k, 27) == Bit(x, 13) && Bit(k, 26) == Bit(x, 22)
    && Bit(k, 25) == Bit(x, 7) && Bit(k, 24) == Bit(x, 18) && Bit(k, 21) == Bit(x, 12) && Bit(k, 20) == Bit(x, 21)
    && Bit(k, 19) == Bit(x, 1) && Bit(k, 18) == Bit(x, 8) && Bit(k, 17) == Bit(x, 15) && Bit(k, 16) == Bit(x, 26)
    && Bit(k, 13) == Bit(y, 26) && Bit(k, 12) == Bit(y, 16) && Bit(k, 11) == Bit(y, 5) && Bit(k, 10) == Bit(y, 11)
    && Bit(k, 9) == Bit(y, 23) && Bit(k, 8) == Bit(y, 8) && Bit(k, 5) == Bit(y, 10) && Bit(k, 4) == Bit(y, 14)
    && Bit(k, 3) == Bit(y, 6) && Bit(k, 2) == Bit(y, 20) && Bit(k, 1) == Bit(y, 27) && Bit(k, 0) == Bit(y, 24)
  }

  lemma Subkey0List(x: ulong, y: ulong, k: ulong)
    requires k == Subkey0(F.Pair(x, y))
    ensures Bit(k, 29) == Bit(x, 25) && Bit(k, 28) == Bit(x, 0) && Bit(k, 27) == Bit(x, 13)
    ensures Bit(k, 26) == Bit(x, 22) && Bit(k, 25) == Bit(x, 7) && Bit(k, 24) == Bit(x, 18)
    ensures Bit(k, 21) == Bit(x, 12) && Bit(k, 20) == Bit(x, 21) && Bit(k, 19) == Bit(x, 1) && Bit(k, 18) == Bit(x, 8)
    ensures Bit(k, 17) == Bit(x, 15) && Bit(k, 16) == Bit(x, 26) && Bit(k, 13) == Bit(y, 26)
    ensures Bit(k, 12) == Bit(y, 16) && Bit(k, 11) == Bit(y, 5) && Bit(k, 10) == Bit(y, 11) && Bit(k, 9) == Bit(y, 23)
    ensures Bit(k, 8) == Bit(y, 8) && Bit(k, 5) == Bit(y, 10) && Bit(k, 4) == Bit(y, 14) && Bit(k, 3) == Bit(y, 6)
    ensures Bit(k, 2) == Bit(y, 20) && Bit(k, 1) == Bit(y, 27) && Bit(k, 0) == Bit(y, 24)
  {
  }

  lemma Subkey0Is(p: Pair)
    ensures Selects0(p.x, p.y, Subkey0(p))
  {
    Subkey0List(p.x, p.y, Subkey0(p));
  }

  predicate Selects1(x: ulong, y: ulong, k: ulong) {
    && Bit(k, 29) == Bit(x, 14) && Bit(k, 28) == Bit(x, 11) && Bit(k, 27) == Bit(x, 17) && Bit(k, 26) == Bit(x, 4)
    && Bit(k, 25) == Bit(x, 27) && Bit(k, 24) == Bit(x, 23) && Bit(k, 21) == Bit(x, 5) && Bit(k, 20) == Bit(x, 9)
    && Bit(k, 19) == Bit(x, 16) && Bit(k, 18) == Bit(x, 24) && Bit(k, 17) == Bit(x, 2) && Bit(k, 16) == Bit(x, 20)
    && Bit(k, 13) == Bit(y, 15) && Bit(k, 12) == Bit(y, 4) && Bit(k, 11) == Bit(y, 25) && Bit(k, 10) == Bit(y, 19)
    && Bit(k, 9) == Bit(y, 9) && Bit(k, 8) == Bit(y, 1) && Bit(k, 5) == Bit(y, 12) && Bit(k, 4) == Bit(y, 7)
    && Bit(k, 3) == Bit(y, 17) && Bit(k, 2) == Bit(y, 0) && Bit(k, 1) == Bit(y, 22) && Bit(k, 0) == Bit(y, 3)
  }

  lemma Subkey1List(x: ulong, y: ulong, k: ulong)
    requires k == Subkey1(F.Pair(x, y))
    ensures Bit(k, 29) == Bit(x, 14) && Bit(k, 28) == Bit(x, 11) && Bit(k, 27) == Bit(x, 17)
    ensures Bit(k, 26) == Bit(x, 4) && Bit(k, 25) == Bit(x, 27) && Bit(k, 24) == Bit(x, 23) && Bit(k, 21) == Bit(x, 5)
    ensures Bit(k, 20) == Bit(x, 9) && Bit(k, 19) == Bit(x, 16) && Bit(k, 18) == Bit(x, 24) && Bit(k, 17) == Bit(x, 2)
    ensures Bit(k, 16) == Bit(x, 20) && Bit(k, 13) == Bit(y, 15) && Bit(k, 12) == Bit(y, 4)
    ensures Bit(k, 11) == Bit(y, 25) && Bit(k, 10) == Bit(y, 19) && Bit(k, 9) == Bit(y, 9) && Bit(k, 8) == Bit(y, 1)
    ensures Bit(k, 5) == Bit(y, 12) && Bit(k, 4) == Bit(y, 7) && Bit(k, 3) == Bit(y, 17) && Bit(k, 2) == Bit(y, 0)
    ensures Bit(k, 1) == Bit(y, 22) && Bit(k, 0) == Bit(y, 3)
  {
  }

  lemma Subkey1Is(p: Pair)
    ensures Selects1(p.x, p.y, Subkey1(p))
  {
    Subkey1List(p.x, p.y, Subkey1(p));
  }

  /** Bit n of the two halves, from the left. */
  function HalvesBit(p: Pair, n: nat): bool {
    if n <= 28 then Bit(p.x, 28 - n) else if n <= 56 then Bit(p.y, 56 - n) else false
  }

  lemma Pc2At0(p: Pair, k0: ulong, k1: ulong, j: nat)
    requires Selects0(p.x, p.y, k0) && Selects1(p.x, p.y, k1) && 0 < j <= 12
    ensures CodeBit(k0, k1, j) == HalvesBit(p, Pc2(j))
  {
    if j <= 6 { Cases(j, 0); } else { Cases(j, 6); }
  }

  lemma Pc2At1(p: Pair, k0: ulong, k1: ulong, j: nat)
    requires Selects0(p.x, p.y, k0) && Selects1(p.x, p.y, k1) && 12 < j <= 24
    ensures CodeBit(k0, k1, j) == HalvesBit(p, Pc2(j))
  {
    if j <= 18 { Cases(j, 12); } else { Cases(j, 18); }
  }

  lemma Pc2At2(p: Pair, k0: ulong, k1: ulong, j: nat)
    requires Selects0(p.x, p.y, k0) && Selects1(p.x, p.y, k1) && 24 < j <= 36
    ensures CodeBit(k0, k1, j) == HalvesBit(p, Pc2(j))
  {
    if j <= 30 { Cases(j, 24); } else { Cases(j, 30); }
  }

  lemma Pc2At3(p: Pair, k0: ulong, k1: ulong, j: nat)
    requires Selects0(p.x, p.y, k0) && Selects1(p.x, p.y, k1) && 36 < j <= 42
    ensures CodeBit(k0, k1, j) == HalvesBit(p, Pc2(j))
  {
    Cases(j, 36);
  }

  lemma Pc2At4(p: Pair, k0: ulong, k1: ulong, j: nat)
    requires Selects0(p.x, p.y, k0) && Selects1(p.x, p.y, k1) && 42 < j <= 48
    ensures CodeBit(k0, k1, j) == HalvesBit(p, Pc2(j))
  {
    Cases(j, 42);
  }

  lemma Pc2At(p: Pair, k0: ulong, k1: ulong, j: nat)
    requires Selects0(p.x, p.y, k0) && Selects1(p.x, p.y, k1) && 1 <= j <= 48
    ensures CodeBit(k0, k1, j) == HalvesBit(p, Pc2(j))
  {
    if j <= 12 { Pc2At0(p, k0, k1, j); } else if j <= 24 { Pc2At1(p, k0, k1, j); }
    else if j <= 36 { Pc2At2(p, k0, k1, j); } else if j <= 42 { Pc2At3(p, k0, k1, j); } else { Pc2At4(p, k0, k1, j); }
  }

  // ------------------------------------------------------------- the schedule

  lemma ByteAt(v: ulong, a: byte, i: nat)
    requires v & 0xFF == a as ulong && i < 8
    ensures Bit8(v, i) == Bit8(a as ulong, i)
  {
  }

  lemma PackParts(a: byte, b: byte, c: byte, d: byte, w: ulong)
    requires w == Pack(a, b, c, d)
    ensures (w >> 24) & 0xFF == a as ulong && (w >> 16) & 0xFF == b as ulong
    ensures (w >> 8) & 0xFF == c as ulong && w & 0xFF == d as ulong
  {
  }

  /** Bit n of four bytes, from the left. */
  function FourBit(a: byte, b: byte, c: byte, d: byte, n: nat): bool
    requires 1 <= n <= 32
  {
    if n <= 8 then Bit8(a as ulong, 8 - n) else if n <= 16 then Bit8(b as ulong, 16 - n)
    else if n <= 24 then Bit8(c as ulong, 24 - n) else Bit8(d as ulong, 32 - n)
  }

  lemma PackedByte0(a: byte, w: ulong, n: nat)
    requires (w >> 24) & 0xFF == a as ulong && 0 < n <= 8
    ensures Bit(w, 32 - n) == Bit8(a as ulong, 8 - n)
  {
    ByteAt(w >> 24, a, 8 - n);
  }

  lemma PackedByte1(b: byte, w: ulong, n: nat)
    requires (w >> 16) & 0xFF == b as ulong && 8 < n <= 16
    ensures Bit(w, 32 - n) == Bit8(b as ulong, 16 - n)
  {
    ByteAt(w >> 16, b, 16 - n);
  }

  lemma PackedByte2(c: byte, w: ulong, n: nat)
    requires (w >> 8) & 0xFF == c as ulong && 16 < n <= 24
    ensures Bit(w, 32 - n) == Bit8(c as ulong, 24 - n)
  {
    ByteAt(w >> 8, c, 24 - n);
  }

  lemma PackedByte3(d: byte, w: ulong, n: nat)
    requires w & 0xFF == d as ulong && 24 < n <= 32
    ensures Bit(w, 32 - n) == Bit8(d as ulong, 32 - n)
  {
    ByteAt(w, d, 32 - n);
  }

  lemma PackedAt(a: byte, b: byte, c: byte, d: byte, w: ulong, n: nat)
    requires w == Pack(a, b, c, d) && 1 <= n <= 32
    ensures Bit(w, 32 - n) == FourBit(a, b, c, d, n)
  {
    PackParts(a, b, c, d, w);
    if n <= 8 {
      PackedByte0(a, w, n);
    } else if n <= 16 {
      PackedByte1(b, w, n);
    } else if n <= 24 {
      PackedByte2(c, w, n);
    } else {
      PackedByte3(d, w, n);
    }
  }

  lemma ByteNumber(n: nat, q: nat)
    requires 8 * q < n <= 8 * q + 8
    ensures (n - 1) / 8 == q && 7 - (n - 1) % 8 == 8 * q + 8 - n
  {
  }

  lemma KeyBitLeft(key: seq<byte>, n: nat)
    requires |key| == 8 && 1 <= n <= 32
    ensures KeyBit(key, n) == FourBit(key[0], key[1], key[2], key[3], n)
  {
    if n <= 16 { ByteNumber(n, if n <= 8 then 0 else 1); } else { ByteNumber(n, if n <= 24 then 2 else 3); }
  }

  lemma KeyBitRight(key: seq<byte>, n: nat)
    requires |key| == 8 && 33 <= n <= 64
    ensures KeyBit(key, n) == FourBit(key[4], key[5], key[6], key[7], n - 32)
  {
    if n <= 48 { ByteNumber(n, if n <= 40 then 4 else 5); } else { ByteNumber(n, if n <= 56 then 6 else 7); }
  }

  lemma LoadedAt(key: seq<byte>, n: nat)
    requires |key| == 8
    ensures PairBit(Load(key), n) == KeyBit(key, n)
  {
    if 1 <= n <= 64 {
      var p := Load(key);
      if n <= 32 {
        KeyBitLeft(key, n);
        PackedAt(key[0], key[1], key[2], key[3], p.x, n);
      } else {
        KeyBitRight(key, n);
        PackedAt(key[4], key[5], key[6], key[7], p.y, n - 32);
      }
    }
  }

  /** Bit j of the half is bit `table` of the words it was chosen from, after s shifts. */
  ghost predicate ShiftedAt(c: ulong, p: Pair, table: nat -> nat, s: nat, j: nat) {
    1 <= j <= 28 ==> Bit(c, 28 - j) == PairBit(p, table((j + 27 + s) % 28 + 1))
  }

  ghost predicate Shifted(c: ulong, p: Pair, table: nat -> nat, s: nat) {
    Is28(c) && forall j: nat :: ShiftedAt(c, p, table, s, j)
  }

  ghost predicate TurnedAt(c: ulong, r: ulong, n: nat, k: nat) {
    k < 28 && n <= 2 ==> Bit(r, k) == Bit(c, if k < n then k + 28 - n else k - n)
  }

  /** Rotating a half is n more shifts. */
  lemma ShiftMore(c: ulong, r: ulong, p: Pair, table: nat -> nat, s: nat, n: nat)
    requires Shifted(c, p, table, s) && Is28(r) && n <= 2 && forall k: nat :: TurnedAt(c, r, n, k)
    ensures Shifted(r, p, table, s + n)
  {
    var more := s + n;
    forall j: nat ensures ShiftedAt(r, p, table, more, j) {
      if 1 <= j <= 28 {
        var i := if j + n <= 28 then j + n else j + n - 28;
        assert TurnedAt(c, r, n, 28 - j) && ShiftedAt(c, p, table, s, i);
        SumModulo(i, j, n, s);
      }
    }
  }

  lemma SumModulo(i: nat, j: nat, n: nat, s: nat)
    requires i == j + n || i == j + n - 28
    ensures (i + 27 + s) % 28 == (j + 27 + (s + n)) % 28
  {
  }

  lemma RotlShifts(c: ulong, p: Pair, table: nat -> nat, s: nat)
    requires Shifted(c, p, table, s)
    ensures Shifted(Rotl1(c), p, table, s + 1) && Shifted(Rotl2(c), p, table, s + 2)
  {
    Rotl1Is(c);
    Rotl2Is(c);
    forall k: nat ensures TurnedAt(c, Rotl1(c), 1, k) { if k < 28 { Rotl1At(c, Rotl1(c), k); } }
    forall k: nat ensures TurnedAt(c, Rotl2(c), 2, k) { if k < 28 { Rotl2At(c, Rotl2(c), k); } }
    ShiftMore(c, Rotl1(c), p, table, s, 1);
    ShiftMore(c, Rotl2(c), p, table, s, 2);
  }

  ghost predicate BothShifted(h: Pair, p: Pair, left: nat -> nat, right: nat -> nat, s: nat) {
    Shifted(h.x, p, left, s) && Shifted(h.y, p, right, s)
  }

  ghost predicate TableAt(c: ulong, p: Pair, table: nat -> nat, j: nat) {
    1 <= j <= 28 ==> Bit(c, 28 - j) == PairBit(p, table(j))
  }

  lemma NotYetShifted(c: ulong, p: Pair, table: nat -> nat)
    requires Is28(c) && forall j: nat :: TableAt(c, p, table, j)
    ensures Shifted(c, p, table, 0)
  {
    forall j: nat ensures ShiftedAt(c, p, table, 0, j) {
      assert TableAt(c, p, table, j);
      assert 1 <= j <= 28 ==> (j + 27 + 0) % 28 + 1 == j;
    }
  }

  lemma StartShifted(p: Pair, h: Pair)
    requires Is28(h.x) && Is28(h.y) && ChosenC(p.x, p.y, h.x) && ChosenD(p.x, p.y, h.y)
    ensures BothShifted(h, p, Pc1C, Pc1D, 0)
  {
    forall j: nat ensures TableAt(h.x, p, Pc1C, j) { if 1 <= j <= 28 { Pc1CAt(p, h.x, j); } }
    forall j: nat ensures TableAt(h.y, p, Pc1D, j) { if 1 <= j <= 28 { Pc1DAt(p, h.y, j); } }
    NotYetShifted(h.x, p, Pc1C);
    NotYetShifted(h.y, p, Pc1D);
  }

  lemma {:induction false} HalvesShifted(p: Pair, start: Pair, left: nat -> nat, right: nat -> nat, i: nat)
    requires BothShifted(start, p, left, right, 0) && i <= 16
    ensures BothShifted(Halves(start, i), p, left, right, Shifts(i))
  {
    if i > 0 {
      HalvesShifted(p, start, left, right, i - 1);
      RotatedShifted(p, Halves(start, i - 1), Halves(start, i), left, right, Shifts(i - 1), Shifts(i), i - 1);
    }
  }

  lemma RotatedShifted(p: Pair, h: Pair, h': Pair, left: nat -> nat, right: nat -> nat, s: nat, s': nat, i: nat)
    requires BothShifted(h, p, left, right, s) && h' == Rotated(h, i) && s' == s + (if OneShift(i) then 1 else 2)
    ensures BothShifted(h', p, left, right, s')
  {
    RotlShifts(h.x, p, left, s);
    RotlShifts(h.y, p, right, s);
  }

  /** The bit of the halves that permuted choice 2 takes. */
  lemma HalvesBitIs(key: seq<byte>, h: Pair, left: nat -> nat, right: nat -> nat, s: nat, n: nat)
    requires |key| == 8 && BothShifted(h, Load(key), left, right, s) && 1 <= n <= 56
    ensures HalvesBit(h, n) == SelectedBit(key, left, right, s, n)
  {
    if n <= 28 {
      assert ShiftedAt(h.x, Load(key), left, s, n);
      LoadedAt(key, left((n + 27 + s) % 28 + 1));
    } else {
      assert ShiftedAt(h.y, Load(key), right, s, n - 28);
      SumModulo(n - 28, n, 0, s);
      LoadedAt(key, right((n + 27 + s) % 28 + 1));
    }
  }

  /** The subkeys of the code hold the bits the standard selects. */
  ghost predicate IsSchedule(sk: seq<ulong>, key: seq<byte>) {
    |sk| == 32 && |key| == 8 && forall i: nat, j: nat :: ScheduledAt(sk, key, i, j)
  }

  ghost predicate ScheduledAt(sk: seq<ulong>, key: seq<byte>, i: nat, j: nat)
    requires |sk| == 32 && |key| == 8
  {
    i < 16 && 1 <= j <= 48 ==> CodeBit(sk[2 * i], sk[2 * i + 1], j) == SubkeyBit(key, i + 1, j)
  }

  lemma SubkeyIs(h: Pair, k0: ulong, k1: ulong, j: nat)
    requires k0 == Subkey0(h) && k1 == Subkey1(h) && 1 <= j <= 48
    ensures CodeBit(k0, k1, j) == HalvesBit(h, Pc2(j))
  {
    Subkey0Is(h);
    Subkey1Is(h);
    Pc2At(h, k0, k1, j);
  }

  lemma Pc2Range(j: nat)
    ensures 1 <= Pc2(j) <= 56
  {
  }

  lemma RoundIsFips(key: seq<byte>, h: Pair, left: nat -> nat, right: nat -> nat, s: nat, k0: ulong, k1: ulong, j: nat)
    requires |key| == 8 && BothShifted(h, Load(key), left, right, s) && 1 <= j <= 48
    requires CodeBit(k0, k1, j) == HalvesBit(h, Pc2(j))
    ensures CodeBit(k0, k1, j) == SelectedBit(key, left, right, s, Pc2(j))
  {
    Pc2Range(j);
    HalvesBitIs(key, h, left, right, s, Pc2(j));
  }

  lemma SubkeysAt(start: Pair, i: nat)
    requires i < 16
    ensures SubkeysOf(start)[2 * i] == Subkey0(Halves(start, i + 1))
    ensures SubkeysOf(start)[2 * i + 1] == Subkey1(Halves(start, i + 1))
  {
    assert 2 * i % 2 == 0 && 2 * i / 2 == i && (2 * i + 1) % 2 == 1 && (2 * i + 1) / 2 == i;
  }

  lemma SubkeysScheduled(key: seq<byte>, start: Pair, i: nat, j: nat)
    requires |key| == 8 && BothShifted(start, Load(key), Pc1C, Pc1D, 0) && i < 16 && 1 <= j <= 48
    ensures ScheduledAt(SubkeysOf(start), key, i, j)
  {
    var h, sk := Halves(start, i + 1), SubkeysOf(start);
    SubkeysAt(start, i);
    HalvesShifted(Load(key), start, Pc1C, Pc1D, i + 1);
    SubkeyIs(h, sk[2 * i], sk[2 * i + 1], j);
    RoundIsFips(key, h, Pc1C, Pc1D, Shifts(i + 1), sk[2 * i], sk[2 * i + 1], j);
  }

  /** des_main_ks computes the key schedule of FIPS 46-3, for every key. */
  lemma MainKsIsFips(key: seq<byte>)
    requires |key| == 8
    ensures IsSchedule(MainKs(key), key)
  {
    var p := Load(key);
    PackBytes(key[0], key[1], key[2], key[3]);
    PackBytes(key[4], key[5], key[6], key[7]);
    Pc1Is(p);
    StartShifted(p, Pc1(p));
    forall i: nat, j: nat ensures ScheduledAt(MainKs(key), key, i, j) {
      if i < 16 && 1 <= j <= 48 { SubkeysScheduled(key, Pc1(p), i, j); }
    }
  }

  /** The first n pairs of words are in place. */
  predicate HasPairs(s: seq<ulong>, all: seq<ulong>, n: nat) {
    |s| >= 32 == |all| && n <= 16 && forall k :: 0 <= k < 2 * n ==> s[k] == all[k]
  }

  lemma PairsStep(s: seq<ulong>, all: seq<ulong>, n: nat, s': seq<ulong>)
    requires HasPairs(s, all, n) && n < 16 && s' == s[2 * n := all[2 * n]][2 * n + 1 := all[2 * n + 1]]
    ensures HasPairs(s', all, n + 1)
  {
  }

  /** The sixteen turns of the loop. */
  method FillRounds(sk: array<ulong>, start: Pair)
    requires sk.Length >= 32
    modifies sk
    ensures sk[..32] == SubkeysOf(start) && forall k :: 32 <= k < sk.Length ==> sk[k] == old(sk[k])
  {
    var p := start;
    ghost var all := SubkeysOf(start);
    for i := 0 to 16
      invariant p == Halves(start, i) && HasPairs(sk[..], all, i)
      invariant forall k :: 32 <= k < sk.Length ==> sk[k] == old(sk[k])
    {
      ghost var before := sk[..];
      SubkeysAt(start, i);
      p := Rotated(p, i);
      sk[2 * i], sk[2 * i + 1] := Subkey0(p), Subkey1(p);
      PairsStep(before, all, i, sk[..]);
    }
    assert sk[..32] == all;
  }

  /** des_main_ks: the 32 words of the schedule, and nothing beyond. */
  method FillSubkeys(sk: array<ulong>, key: seq<byte>)
    requires sk.Length >= 32 && |key| == 8
    modifies sk
    ensures sk[..32] == MainKs(key) && IsSchedule(sk[..32], key)
    ensures forall k :: 32 <= k < sk.Length ==> sk[k] == old(sk[k])
  {
    MainKsIsFips(key);
    FillRounds(sk, Pc1(Load(key)));
  }
}
