/**
 DES_IP and DES_ROUND by bits, against the tables IP and E of FIPS 46-3. The code keeps
 each half rotated left by one: bit n of a half, from the left, is bit 33 - n of its word.
 */
module DesBits {
  import opened Words
  import opened DesKeys
  import F = Feistel
  import D = Des

  // ------------------------------------------------------------------ FIPS 46-3

  /** The initial permutation, for the bits of the left and of the right half. */
  function IpL(j: nat): nat {
    if j == 1 then 58 else if j == 2 then 50 else if j == 3 then 42 else if j == 4 then 34
    else if j == 5 then 26 else if j == 6 then 18 else if j == 7 then 10 else if j == 8 then 2
    else if j == 9 then 60 else if j == 10 then 52 else if j == 11 then 44 else if j == 12 then 36
    else if j == 13 then 28 else if j == 14 then 20 else if j == 15 then 12 else if j == 16 then 4
    else if j == 17 then 62 else if j == 18 then 54 else if j == 19 then 46 else if j == 20 then 38
    else if j == 21 then 30 else if j == 22 then 22 else if j == 23 then 14 else if j == 24 then 6
    else if j == 25 then 64 else if j == 26 then 56 else if j == 27 then 48 else if j == 28 then 40
    else if j == 29 then 32 else if j == 30 then 24 else if j == 31 then 16 else 8
  }

  function IpR(j: nat): nat {
    if j == 1 then 57 else if j == 2 then 49 else if j == 3 then 41 else if j == 4 then 33
    else if j == 5 then 25 else if j == 6 then 17 else if j == 7 then 9 else if j == 8 then 1
    else if j == 9 then 59 else if j == 10 then 51 else if j == 11 then 43 else if j == 12 then 35
    else if j == 13 then 27 else if j == 14 then 19 else if j == 15 then 11 else if j == 16 then 3
    else if j == 17 then 61 else if j == 18 then 53 else if j == 19 then 45 else if j == 20 then 37
    else if j == 21 then 29 else if j == 22 then 21 else if j == 23 then 13 else if j == 24 then 5
    else if j == 25 then 63 else if j == 26 then 55 else if j == 27 then 47 else if j == 28 then 39
    else if j == 29 then 31 else if j == 30 then 23 else if j == 31 then 15 else 7
  }

  /** The selection E, two S-boxes at a time. */
  function E(j: nat): nat {
    if j <= 12 then EBoxes12(j) else if j <= 24 then EBoxes34(j) else if j <= 36 then EBoxes56(j) else EBoxes78(j)
  }

  function EBoxes12(j: nat): nat {
    if j == 1 then 32 else if j == 2 then 1 else if j == 3 then 2 else if j == 4 then 3 else if j == 5 then 4
    else if j == 6 then 5 else if j == 7 then 4 else if j == 8 then 5 else if j == 9 then 6
    else if j == 10 then 7 else if j == 11 then 8 else 9
  }

  function EBoxes34(j: nat): nat {
    if j == 13 then 8 else if j == 14 then 9 else if j == 15 then 10 else if j == 16 then 11
    else if j == 17 then 12 else if j == 18 then 13 else if j == 19 then 12 else if j == 20 then 13
    else if j == 21 then 14 else if j == 22 then 15 else if j == 23 then 16 else 17
  }

  function EBoxes56(j: nat): nat {
    if j == 25 then 16 else if j == 26 then 17 else if j == 27 then 18 else if j == 28 then 19
    else if j == 29 then 20 else if j == 30 then 21 else if j == 31 then 20 else if j == 32 then 21
    else if j == 33 then 22 else if j == 34 then 23 else if j == 35 then 24 else 25
  }

  function EBoxes78(j: nat): nat {
    if j == 37 then 24 else if j == 38 then 25 else if j == 39 then 26 else if j == 40 then 27
    else if j == 41 then 28 else if j == 42 then 29 else if j == 43 then 28 else if j == 44 then 29
    else if j == 45 then 30 else if j == 46 then 31 else if j == 47 then 32 else 1
  }

  /** Bit n of a half as the code holds it. */
  function HalfBit(x: ulong, n: nat): bool {
    Bit(x, if n == 1 then 0 else if 2 <= n <= 32 then 33 - n else 0)
  }

  // --------------------------------------------------------- the initial permutation

  // The seven steps, two or three at a time, without exclusive or.

  /** S1, S2: where the bits go. */
  predicate StageAX(x: ulong, y: ulong, x': ulong) {
    && Bit(x', 31) == Bit(y, 15) && Bit(x', 30) == Bit(y, 14) && Bit(x', 29) == Bit(y, 13)
    && Bit(x', 28) == Bit(y, 12) && Bit(x', 27) == Bit(x, 15) && Bit(x', 26) == Bit(x, 14)
    && Bit(x', 25) == Bit(x, 13) && Bit(x', 24) == Bit(x, 12) && Bit(x', 23) == Bit(y, 7) && Bit(x', 22) == Bit(y, 6)
    && Bit(x', 21) == Bit(y, 5) && Bit(x', 20) == Bit(y, 4) && Bit(x', 19) == Bit(x, 7) && Bit(x', 18) == Bit(x, 6)
    && Bit(x', 17) == Bit(x, 5) && Bit(x', 16) == Bit(x, 4) && Bit(x', 15) == Bit(y, 11) && Bit(x', 14) == Bit(y, 10)
    && Bit(x', 13) == Bit(y, 9) && Bit(x', 12) == Bit(y, 8) && Bit(x', 11) == Bit(x, 11) && Bit(x', 10) == Bit(x, 10)
    && Bit(x', 9) == Bit(x, 9) && Bit(x', 8) == Bit(x, 8) && Bit(x', 7) == Bit(y, 3) && Bit(x', 6) == Bit(y, 2)
    && Bit(x', 5) == Bit(y, 1) && Bit(x', 4) == Bit(y, 0) && Bit(x', 3) == Bit(x, 3) && Bit(x', 2) == Bit(x, 2)
    && Bit(x', 1) == Bit(x, 1) && Bit(x', 0) == Bit(x, 0)
  }

  predicate StageAY(x: ulong, y: ulong, y': ulong) {
    && Bit(y', 31) == Bit(y, 31) && Bit(y', 30) == Bit(y, 30) && Bit(y', 29) == Bit(y, 29)
    && Bit(y', 28) == Bit(y, 28) && Bit(y', 27) == Bit(x, 31) && Bit(y', 26) == Bit(x, 30)
    && Bit(y', 25) == Bit(x, 29) && Bit(y', 24) == Bit(x, 28) && Bit(y', 23) == Bit(y, 23)
    && Bit(y', 22) == Bit(y, 22) && Bit(y', 21) == Bit(y, 21) && Bit(y', 20) == Bit(y, 20)
    && Bit(y', 19) == Bit(x, 23) && Bit(y', 18) == Bit(x, 22) && Bit(y', 17) == Bit(x, 21)
    && Bit(y', 16) == Bit(x, 20) && Bit(y', 15) == Bit(y, 27) && Bit(y', 14) == Bit(y, 26)
    && Bit(y', 13) == Bit(y, 25) && Bit(y', 12) == Bit(y, 24) && Bit(y', 11) == Bit(x, 27)
    && Bit(y', 10) == Bit(x, 26) && Bit(y', 9) == Bit(x, 25) && Bit(y', 8) == Bit(x, 24) && Bit(y', 7) == Bit(y, 19)
    && Bit(y', 6) == Bit(y, 18) && Bit(y', 5) == Bit(y, 17) && Bit(y', 4) == Bit(y, 16) && Bit(y', 3) == Bit(x, 19)
    && Bit(y', 2) == Bit(x, 18) && Bit(y', 1) == Bit(x, 17) && Bit(y', 0) == Bit(x, 16)
  }

  /** S3, S4: where the bits go. */
  predicate StageBX(x: ulong, y: ulong, x': ulong) {
    && Bit(x', 31) == Bit(x, 31) && Bit(x', 30) == Bit(x, 30) && Bit(x', 29) == Bit(y, 31)
    && Bit(x', 28) == Bit(y, 30) && Bit(x', 27) == Bit(x, 27) && Bit(x', 26) == Bit(x, 26)
    && Bit(x', 25) == Bit(y, 27) && Bit(x', 24) == Bit(y, 26) && Bit(x', 23) == Bit(x, 29)
    && Bit(x', 22) == Bit(x, 28) && Bit(x', 21) == Bit(y, 29) && Bit(x', 20) == Bit(y, 28)
    && Bit(x', 19) == Bit(x, 25) && Bit(x', 18) == Bit(x, 24) && Bit(x', 17) == Bit(y, 25)
    && Bit(x', 16) == Bit(y, 24) && Bit(x', 15) == Bit(x, 15) && Bit(x', 14) == Bit(x, 14)
    && Bit(x', 13) == Bit(y, 15) && Bit(x', 12) == Bit(y, 14) && Bit(x', 11) == Bit(x, 11)
    && Bit(x', 10) == Bit(x, 10) && Bit(x', 9) == Bit(y, 11) && Bit(x', 8) == Bit(y, 10) && Bit(x', 7) == Bit(x, 13)
    && Bit(x', 6) == Bit(x, 12) && Bit(x', 5) == Bit(y, 13) && Bit(x', 4) == Bit(y, 12) && Bit(x', 3) == Bit(x, 9)
    && Bit(x', 2) == Bit(x, 8) && Bit(x', 1) == Bit(y, 9) && Bit(x', 0) == Bit(y, 8)
  }

  predicate StageBY(x: ulong, y: ulong, y': ulong) {
    && Bit(y', 31) == Bit(x, 23) && Bit(y', 30) == Bit(x, 22) && Bit(y', 29) == Bit(y, 23)
    && Bit(y', 28) == Bit(y, 22) && Bit(y', 27) == Bit(x, 19) && Bit(y', 26) == Bit(x, 18)
    && Bit(y', 25) == Bit(y, 19) && Bit(y', 24) == Bit(y, 18) && Bit(y', 23) == Bit(x, 21)
    && Bit(y', 22) == Bit(x, 20) && Bit(y', 21) == Bit(y, 21) && Bit(y', 20) == Bit(y, 20)
    && Bit(y', 19) == Bit(x, 17) && Bit(y', 18) == Bit(x, 16) && Bit(y', 17) == Bit(y, 17)
    && Bit(y', 16) == Bit(y, 16) && Bit(y', 15) == Bit(x, 7) && Bit(y', 14) == Bit(x, 6) && Bit(y', 13) == Bit(y, 7)
    && Bit(y', 12) == Bit(y, 6) && Bit(y', 11) == Bit(x, 3) && Bit(y', 10) == Bit(x, 2) && Bit(y', 9) == Bit(y, 3)
    && Bit(y', 8) == Bit(y, 2) && Bit(y', 7) == Bit(x, 5) && Bit(y', 6) == Bit(x, 4) && Bit(y', 5) == Bit(y, 5)
    && Bit(y', 4) == Bit(y, 4) && Bit(y', 3) == Bit(x, 1) && Bit(y', 2) == Bit(x, 0) && Bit(y', 1) == Bit(y, 1)
    && Bit(y', 0) == Bit(y, 0)
  }

  /** S5, S6, S7: where the bits go. */
  predicate StageCX(x: ulong, y: ulong, x': ulong) {
    && Bit(x', 31) == Bit(x, 30) && Bit(x', 30) == Bit(y, 28) && Bit(x', 29) == Bit(x, 28)
    && Bit(x', 28) == Bit(y, 26) && Bit(x', 27) == Bit(x, 26) && Bit(x', 26) == Bit(y, 24)
    && Bit(x', 25) == Bit(x, 24) && Bit(x', 24) == Bit(y, 22) && Bit(x', 23) == Bit(x, 22)
    && Bit(x', 22) == Bit(y, 20) && Bit(x', 21) == Bit(x, 20) && Bit(x', 20) == Bit(y, 18)
    && Bit(x', 19) == Bit(x, 18) && Bit(x', 18) == Bit(y, 16) && Bit(x', 17) == Bit(x, 16)
    && Bit(x', 16) == Bit(y, 14) && Bit(x', 15) == Bit(x, 14) && Bit(x', 14) == Bit(y, 12)
    && Bit(x', 13) == Bit(x, 12) && Bit(x', 12) == Bit(y, 10) && Bit(x', 11) == Bit(x, 10) && Bit(x', 10) == Bit(y, 8)
    && Bit(x', 9) == Bit(x, 8) && Bit(x', 8) == Bit(y, 6) && Bit(x', 7) == Bit(x, 6) && Bit(x', 6) == Bit(y, 4)
    && Bit(x', 5) == Bit(x, 4) && Bit(x', 4) == Bit(y, 2) && Bit(x', 3) == Bit(x, 2) && Bit(x', 2) == Bit(y, 0)
    && Bit(x', 1) == Bit(x, 0) && Bit(x', 0) == Bit(y, 30)
  }

  predicate StageCY(x: ulong, y: ulong, y': ulong) {
    && Bit(y', 31) == Bit(x, 31) && Bit(y', 30) == Bit(y, 29) && Bit(y', 29) == Bit(x, 29)
    && Bit(y', 28) == Bit(y, 27) && Bit(y', 27) == Bit(x, 27) && Bit(y', 26) == Bit(y, 25)
    && Bit(y', 25) == Bit(x, 25) && Bit(y', 24) == Bit(y, 23) && Bit(y', 23) == Bit(x, 23)
    && Bit(y', 22) == Bit(y, 21) && Bit(y', 21) == Bit(x, 21) && Bit(y', 20) == Bit(y, 19)
    && Bit(y', 19) == Bit(x, 19) && Bit(y', 18) == Bit(y, 17) && Bit(y', 17) == Bit(x, 17)
    && Bit(y', 16) == Bit(y, 15) && Bit(y', 15) == Bit(x, 15) && Bit(y', 14) == Bit(y, 13)
    && Bit(y', 13) == Bit(x, 13) && Bit(y', 12) == Bit(y, 11) && Bit(y', 11) == Bit(x, 11) && Bit(y', 10) == Bit(y, 9)
    && Bit(y', 9) == Bit(x, 9) && Bit(y', 8) == Bit(y, 7) && Bit(y', 7) == Bit(x, 7) && Bit(y', 6) == Bit(y, 5)
    && Bit(y', 5) == Bit(x, 5) && Bit(y', 4) == Bit(y, 3) && Bit(y', 3) == Bit(x, 3) && Bit(y', 2) == Bit(y, 1)
    && Bit(y', 1) == Bit(x, 1) && Bit(y', 0) == Bit(y, 31)
  }

  function FormA(x: ulong, y: ulong): Pair {
    var x1, y1 := (x & 0x0F0F_0F0F) | ((y & 0x0F0F_0F0F) << 4), (y & 0xF0F0_F0F0) | ((x >> 4) & 0x0F0F_0F0F);
    F.Pair((x1 & 0x0000_FFFF) | ((y1 & 0x0000_FFFF) << 16),
           (y1 & 0xFFFF_0000) | ((x1 >> 16) & 0x0000_FFFF))
  }

  lemma FormAIs(x: ulong, y: ulong)
    requires Is32(x) && Is32(y)
    ensures D.S2(D.S1(F.Pair(x, y))) == FormA(x, y)
  {
  }

  lemma FormAXList(x: ulong, y: ulong, x': ulong)
    requires Is32(x) && Is32(y) && x' == FormA(x, y).x
    ensures Is32(x')
    ensures Bit(x', 31) == Bit(y, 15) && Bit(x', 30) == Bit(y, 14) && Bit(x', 29) == Bit(y, 13)
    ensures Bit(x', 28) == Bit(y, 12) && Bit(x', 27) == Bit(x, 15) && Bit(x', 26) == Bit(x, 14)
    ensures Bit(x', 25) == Bit(x, 13) && Bit(x', 24) == Bit(x, 12) && Bit(x', 23) == Bit(y, 7)
    ensures Bit(x', 22) == Bit(y, 6) && Bit(x', 21) == Bit(y, 5) && Bit(x', 20) == Bit(y, 4)
    ensures Bit(x', 19) == Bit(x, 7) && Bit(x', 18) == Bit(x, 6) && Bit(x', 17) == Bit(x, 5)
    ensures Bit(x', 16) == Bit(x, 4) && Bit(x', 15) == Bit(y, 11) && Bit(x', 14) == Bit(y, 10)
    ensures Bit(x', 13) == Bit(y, 9) && Bit(x', 12) == Bit(y, 8) && Bit(x', 11) == Bit(x, 11)
    ensures Bit(x', 10) == Bit(x, 10) && Bit(x', 9) == Bit(x, 9) && Bit(x', 8) == Bit(x, 8) && Bit(x', 7) == Bit(y, 3)
    ensures Bit(x', 6) == Bit(y, 2) && Bit(x', 5) == Bit(y, 1) && Bit(x', 4) == Bit(y, 0) && Bit(x', 3) == Bit(x, 3)
    ensures Bit(x', 2) == Bit(x, 2) && Bit(x', 1) == Bit(x, 1) && Bit(x', 0) == Bit(x, 0)
  {
  }

  lemma FormAYHigh(x: ulong, y: ulong, y': ulong)
    requires Is32(x) && Is32(y) && y' == FormA(x, y).y
    ensures Is32(y')
    ensures Bit(y', 31) == Bit(y, 31) && Bit(y', 30) == Bit(y, 30) && Bit(y', 29) == Bit(y, 29)
    ensures Bit(y', 28) == Bit(y, 28) && Bit(y', 27) == Bit(x, 31) && Bit(y', 26) == Bit(x, 30)
    ensures Bit(y', 25) == Bit(x, 29) && Bit(y', 24) == Bit(x, 28) && Bit(y', 23) == Bit(y, 23)
    ensures Bit(y', 22) == Bit(y, 22) && Bit(y', 21) == Bit(y, 21) && Bit(y', 20) == Bit(y, 20)
    ensures Bit(y', 19) == Bit(x, 23) && Bit(y', 18) == Bit(x, 22) && Bit(y', 17) == Bit(x, 21)
    ensures Bit(y', 16) == Bit(x, 20)
  {
  }

  lemma FormAYLow(x: ulong, y: ulong, y': ulong)
    requires Is32(x) && Is32(y) && y' == FormA(x, y).y
    ensures Bit(y', 15) == Bit(y, 27) && Bit(y', 14) == Bit(y, 26) && Bit(y', 13) == Bit(y, 25)
    ensures Bit(y', 12) == Bit(y, 24) && Bit(y', 11) == Bit(x, 27) && Bit(y', 10) == Bit(x, 26)
    ensures Bit(y', 9) == Bit(x, 25) && Bit(y', 8) == Bit(x, 24) && Bit(y', 7) == Bit(y, 19)
    ensures Bit(y', 6) == Bit(y, 18) && Bit(y', 5) == Bit(y, 17) && Bit(y', 4) == Bit(y, 16)
    ensures Bit(y', 3) == Bit(x, 19) && Bit(y', 2) == Bit(x, 18) && Bit(y', 1) == Bit(x, 17)
    ensures Bit(y', 0) == Bit(x, 16)
  {
  }

  function FormB(x: ulong, y: ulong): Pair {
    var x1, y1 := (x & 0xCCCC_CCCC) | ((y >> 2) & 0x3333_3333), (y & 0x3333_3333) | ((x & 0x3333_3333) << 2);
    F.Pair((x1 & 0xFF00_FF00) | ((y1 >> 8) & 0x00FF_00FF),
           (y1 & 0x00FF_00FF) | ((x1 & 0x00FF_00FF) << 8))
  }

  lemma FormBIs(x: ulong, y: ulong)
    requires Is32(x) && Is32(y)
    ensures D.S4(D.S3(F.Pair(x, y))) == FormB(x, y)
  {
  }

  lemma FormBXList(x: ulong, y: ulong, x': ulong)
    requires Is32(x) && Is32(y) && x' == FormB(x, y).x
    ensures Is32(x')
    ensures Bit(x', 31) == Bit(x, 31) && Bit(x', 30) == Bit(x, 30) && Bit(x', 29) == Bit(y, 31)
    ensures Bit(x', 28) == Bit(y, 30) && Bit(x', 27) == Bit(x, 27) && Bit(x', 26) == Bit(x, 26)
    ensures Bit(x', 25) == Bit(y, 27) && Bit(x', 24) == Bit(y, 26) && Bit(x', 23) == Bit(x, 29)
    ensures Bit(x', 22) == Bit(x, 28) && Bit(x', 21) == Bit(y, 29) && Bit(x', 20) == Bit(y, 28)
    ensures Bit(x', 19) == Bit(x, 25) && Bit(x', 18) == Bit(x, 24) && Bit(x', 17) == Bit(y, 25)
    ensures Bit(x', 16) == Bit(y, 24) && Bit(x', 15) == Bit(x, 15) && Bit(x', 14) == Bit(x, 14)
    ensures Bit(x', 13) == Bit(y, 15) && Bit(x', 12) == Bit(y, 14) && Bit(x', 11) == Bit(x, 11)
    ensures Bit(x', 10) == Bit(x, 10) && Bit(x', 9) == Bit(y, 11) && Bit(x', 8) == Bit(y, 10)
    ensures Bit(x', 7) == Bit(x, 13) && Bit(x', 6) == Bit(x, 12) && Bit(x', 5) == Bit(y, 13)
    ensures Bit(x', 4) == Bit(y, 12) && Bit(x', 3) == Bit(x, 9) && Bit(x', 2) == Bit(x, 8) && Bit(x', 1) == Bit(y, 9)
    ensures Bit(x', 0) == Bit(y, 8)
  {
  }

  lemma FormBYList(x: ulong, y: ulong, y': ulong)
    requires Is32(x) && Is32(y) && y' == FormB(x, y).y
    ensures Is32(y')
    ensures Bit(y', 31) == Bit(x, 23) && Bit(y', 30) == Bit(x, 22) && Bit(y', 29) == Bit(y, 23)
    ensures Bit(y', 28) == Bit(y, 22) && Bit(y', 27) == Bit(x, 19) && Bit(y', 26) == Bit(x, 18)
    ensures Bit(y', 25) == Bit(y, 19) && Bit(y', 24) == Bit(y, 18) && Bit(y', 23) == Bit(x, 21)
    ensures Bit(y', 22) == Bit(x, 20) && Bit(y', 21) == Bit(y, 21) && Bit(y', 20) == Bit(y, 20)
    ensures Bit(y', 19) == Bit(x, 17) && Bit(y', 18) == Bit(x, 16) && Bit(y', 17) == Bit(y, 17)
    ensures Bit(y', 16) == Bit(y, 16) && Bit(y', 15) == Bit(x, 7) && Bit(y', 14) == Bit(x, 6)
    ensures Bit(y', 13) == Bit(y, 7) && Bit(y', 12) == Bit(y, 6) && Bit(y', 11) == Bit(x, 3)
    ensures Bit(y', 10) == Bit(x, 2) && Bit(y', 9) == Bit(y, 3) && Bit(y', 8) == Bit(y, 2) && Bit(y', 7) == Bit(x, 5)
    ensures Bit(y', 6) == Bit(x, 4) && Bit(y', 5) == Bit(y, 5) && Bit(y', 4) == Bit(y, 4) && Bit(y', 3) == Bit(x, 1)
    ensures Bit(y', 2) == Bit(x, 0) && Bit(y', 1) == Bit(y, 1) && Bit(y', 0) == Bit(y, 0)
  {
  }

  function FormC(x: ulong, y: ulong): Pair {
    var x1, y1 := x, ((y << 1) | (y >> 31)) & 0xFFFF_FFFF;
    var x2, y2 := (x1 & 0x5555_5555) | (y1 & 0xAAAA_AAAA), (y1 & 0x5555_5555) | (x1 & 0xAAAA_AAAA);
    F.Pair(((x2 << 1) | (x2 >> 31)) & 0xFFFF_FFFF,
           y2)
  }

  lemma FormCIs(x: ulong, y: ulong)
    requires Is32(x) && Is32(y)
    ensures D.S7(D.S6(D.S5(F.Pair(x, y)))) == FormC(x, y)
  {
  }

  lemma FormCXList(x: ulong, y: ulong, x': ulong)
    requires Is32(x) && Is32(y) && x' == FormC(x, y).x
    ensures Is32(x')
    ensures Bit(x', 31) == Bit(x, 30) && Bit(x', 30) == Bit(y, 28) && Bit(x', 29) == Bit(x, 28)
    ensures Bit(x', 28) == Bit(y, 26) && Bit(x', 27) == Bit(x, 26) && Bit(x', 26) == Bit(y, 24)
    ensures Bit(x', 25) == Bit(x, 24) && Bit(x', 24) == Bit(y, 22) && Bit(x', 23) == Bit(x, 22)
    ensures Bit(x', 22) == Bit(y, 20) && Bit(x', 21) == Bit(x, 20) && Bit(x', 20) == Bit(y, 18)
    ensures Bit(x', 19) == Bit(x, 18) && Bit(x', 18) == Bit(y, 16) && Bit(x', 17) == Bit(x, 16)
    ensures Bit(x', 16) == Bit(y, 14) && Bit(x', 15) == Bit(x, 14) && Bit(x', 14) == Bit(y, 12)
    ensures Bit(x', 13) == Bit(x, 12) && Bit(x', 12) == Bit(y, 10) && Bit(x', 11) == Bit(x, 10)
    ensures Bit(x', 10) == Bit(y, 8) && Bit(x', 9) == Bit(x, 8) && Bit(x', 8) == Bit(y, 6) && Bit(x', 7) == Bit(x, 6)
    ensures Bit(x', 6) == Bit(y, 4) && Bit(x', 5) == Bit(x, 4) && Bit(x', 4) == Bit(y, 2) && Bit(x', 3) == Bit(x, 2)
    ensures Bit(x', 2) == Bit(y, 0) && Bit(x', 1) == Bit(x, 0) && Bit(x', 0) == Bit(y, 30)
  {
  }

  lemma FormCYList(x: ulong, y: ulong, y': ulong)
    requires Is32(x) && Is32(y) && y' == FormC(x, y).y
    ensures Is32(y')
    ensures Bit(y', 31) == Bit(x, 31) && Bit(y', 30) == Bit(y, 29) && Bit(y', 29) == Bit(x, 29)
    ensures Bit(y', 28) == Bit(y, 27) && Bit(y', 27) == Bit(x, 27) && Bit(y', 26) == Bit(y, 25)
    ensures Bit(y', 25) == Bit(x, 25) && Bit(y', 24) == Bit(y, 23) && Bit(y', 23) == Bit(x, 23)
    ensures Bit(y', 22) == Bit(y, 21) && Bit(y', 21) == Bit(x, 21) && Bit(y', 20) == Bit(y, 19)
    ensures Bit(y', 19) == Bit(x, 19) && Bit(y', 18) == Bit(y, 17) && Bit(y', 17) == Bit(x, 17)
    ensures Bit(y', 16) == Bit(y, 15) && Bit(y', 15) == Bit(x, 15) && Bit(y', 14) == Bit(y, 13)
    ensures Bit(y', 13) == Bit(x, 13) && Bit(y', 12) == Bit(y, 11) && Bit(y', 11) == Bit(x, 11)
    ensures Bit(y', 10) == Bit(y, 9) && Bit(y', 9) == Bit(x, 9) && Bit(y', 8) == Bit(y, 7) && Bit(y', 7) == Bit(x, 7)
    ensures Bit(y', 6) == Bit(y, 5) && Bit(y', 5) == Bit(x, 5) && Bit(y', 4) == Bit(y, 3) && Bit(y', 3) == Bit(x, 3)
    ensures Bit(y', 2) == Bit(y, 1) && Bit(y', 1) == Bit(x, 1) && Bit(y', 0) == Bit(y, 31)
  {
  }

  lemma StageAIs(x: ulong, y: ulong, x': ulong, y': ulong)
    requires Is32(x) && Is32(y) && F.Pair(x', y') == D.S2(D.S1(F.Pair(x, y)))
    ensures Is32(x') && Is32(y') && StageAX(x, y, x') && StageAY(x, y, y')
  {
    FormAIs(x, y);
    StageAFolds(x, y, x', y');
  }

  lemma StageAFolds(x: ulong, y: ulong, x': ulong, y': ulong)
    requires Is32(x) && Is32(y) && x' == FormA(x, y).x && y' == FormA(x, y).y
    ensures Is32(x') && Is32(y') && StageAX(x, y, x') && StageAY(x, y, y')
  {
    FormAXList(x, y, x');
    FormAYHigh(x, y, y');
    FormAYLow(x, y, y');
  }

  lemma StageBIs(x: ulong, y: ulong, x': ulong, y': ulong)
    requires Is32(x) && Is32(y) && F.Pair(x', y') == D.S4(D.S3(F.Pair(x, y)))
    ensures Is32(x') && Is32(y') && StageBX(x, y, x') && StageBY(x, y, y')
  {
    FormBIs(x, y);
    StageBFolds(x, y, x', y');
  }

  lemma StageBFolds(x: ulong, y: ulong, x': ulong, y': ulong)
    requires Is32(x) && Is32(y) && x' == FormB(x, y).x && y' == FormB(x, y).y
    ensures Is32(x') && Is32(y') && StageBX(x, y, x') && StageBY(x, y, y')
  {
    FormBXList(x, y, x');
    FormBYList(x, y, y');
  }

  lemma StageCIs(x: ulong, y: ulong, x': ulong, y': ulong)
    requires Is32(x) && Is32(y) && F.Pair(x', y') == D.S7(D.S6(D.S5(F.Pair(x, y))))
    ensures Is32(x') && Is32(y') && StageCX(x, y, x') && StageCY(x, y, y')
  {
    FormCIs(x, y);
    StageCFolds(x, y, x', y');
  }

  lemma StageCFolds(x: ulong, y: ulong, x': ulong, y': ulong)
    requires Is32(x) && Is32(y) && x' == FormC(x, y).x && y' == FormC(x, y).y
    ensures Is32(x') && Is32(y') && StageCX(x, y, x') && StageCY(x, y, y')
  {
    FormCXList(x, y, x');
    FormCYList(x, y, y');
  }

  predicate PermutedX(x: ulong, y: ulong, x': ulong) {
    && Bit(x', 0) == Bit(y, 6) && Bit(x', 31) == Bit(y, 14) && Bit(x', 30) == Bit(y, 22) && Bit(x', 29) == Bit(y, 30)
    && Bit(x', 28) == Bit(x, 6) && Bit(x', 27) == Bit(x, 14) && Bit(x', 26) == Bit(x, 22) && Bit(x', 25) == Bit(x, 30)
    && Bit(x', 24) == Bit(y, 4) && Bit(x', 23) == Bit(y, 12) && Bit(x', 22) == Bit(y, 20) && Bit(x', 21) == Bit(y, 28)
    && Bit(x', 20) == Bit(x, 4) && Bit(x', 19) == Bit(x, 12) && Bit(x', 18) == Bit(x, 20) && Bit(x', 17) == Bit(x, 28)
    && Bit(x', 16) == Bit(y, 2) && Bit(x', 15) == Bit(y, 10) && Bit(x', 14) == Bit(y, 18) && Bit(x', 13) == Bit(y, 26)
    && Bit(x', 12) == Bit(x, 2) && Bit(x', 11) == Bit(x, 10) && Bit(x', 10) == Bit(x, 18) && Bit(x', 9) == Bit(x, 26)
    && Bit(x', 8) == Bit(y, 0) && Bit(x', 7) == Bit(y, 8) && Bit(x', 6) == Bit(y, 16) && Bit(x', 5) == Bit(y, 24)
    && Bit(x', 4) == Bit(x, 0) && Bit(x', 3) == Bit(x, 8) && Bit(x', 2) == Bit(x, 16) && Bit(x', 1) == Bit(x, 24)
  }

  lemma PermutedXList(x: ulong, y: ulong, x1: ulong, y1: ulong, x2: ulong, y2: ulong, x': ulong)
    requires StageAX(x, y, x1) && StageAY(x, y, y1) && StageBX(x1, y1, x2) && StageBY(x1, y1, y2) && StageCX(x2, y2, x')
    ensures Bit(x', 0) == Bit(y, 6) && Bit(x', 31) == Bit(y, 14) && Bit(x', 30) == Bit(y, 22)
    ensures Bit(x', 29) == Bit(y, 30) && Bit(x', 28) == Bit(x, 6) && Bit(x', 27) == Bit(x, 14)
    ensures Bit(x', 26) == Bit(x, 22) && Bit(x', 25) == Bit(x, 30) && Bit(x', 24) == Bit(y, 4)
    ensures Bit(x', 23) == Bit(y, 12) && Bit(x', 22) == Bit(y, 20) && Bit(x', 21) == Bit(y, 28)
    ensures Bit(x', 20) == Bit(x, 4) && Bit(x', 19) == Bit(x, 12) && Bit(x', 18) == Bit(x, 20)
    ensures Bit(x', 17) == Bit(x, 28) && Bit(x', 16) == Bit(y, 2) && Bit(x', 15) == Bit(y, 10)
    ensures Bit(x', 14) == Bit(y, 18) && Bit(x', 13) == Bit(y, 26) && Bit(x', 12) == Bit(x, 2)
    ensures Bit(x', 11) == Bit(x, 10) && Bit(x', 10) == Bit(x, 18) && Bit(x', 9) == Bit(x, 26)
    ensures Bit(x', 8) == Bit(y, 0) && Bit(x', 7) == Bit(y, 8) && Bit(x', 6) == Bit(y, 16) && Bit(x', 5) == Bit(y, 24)
    ensures Bit(x', 4) == Bit(x, 0) && Bit(x', 3) == Bit(x, 8) && Bit(x', 2) == Bit(x, 16) && Bit(x', 1) == Bit(x, 24)
  {
  }

  lemma PermutedXIs(x: ulong, y: ulong, x1: ulong, y1: ulong, x2: ulong, y2: ulong, x': ulong)
    requires StageAX(x, y, x1) && StageAY(x, y, y1) && StageBX(x1, y1, x2) && StageBY(x1, y1, y2) && StageCX(x2, y2, x')
    ensures PermutedX(x, y, x')
  {
    PermutedXList(x, y, x1, y1, x2, y2, x');
  }

  predicate PermutedY(x: ulong, y: ulong, y': ulong) {
    && Bit(y', 0) == Bit(y, 7) && Bit(y', 31) == Bit(y, 15) && Bit(y', 30) == Bit(y, 23) && Bit(y', 29) == Bit(y, 31)
    && Bit(y', 28) == Bit(x, 7) && Bit(y', 27) == Bit(x, 15) && Bit(y', 26) == Bit(x, 23) && Bit(y', 25) == Bit(x, 31)
    && Bit(y', 24) == Bit(y, 5) && Bit(y', 23) == Bit(y, 13) && Bit(y', 22) == Bit(y, 21) && Bit(y', 21) == Bit(y, 29)
    && Bit(y', 20) == Bit(x, 5) && Bit(y', 19) == Bit(x, 13) && Bit(y', 18) == Bit(x, 21) && Bit(y', 17) == Bit(x, 29)
    && Bit(y', 16) == Bit(y, 3) && Bit(y', 15) == Bit(y, 11) && Bit(y', 14) == Bit(y, 19) && Bit(y', 13) == Bit(y, 27)
    && Bit(y', 12) == Bit(x, 3) && Bit(y', 11) == Bit(x, 11) && Bit(y', 10) == Bit(x, 19) && Bit(y', 9) == Bit(x, 27)
    && Bit(y', 8) == Bit(y, 1) && Bit(y', 7) == Bit(y, 9) && Bit(y', 6) == Bit(y, 17) && Bit(y', 5) == Bit(y, 25)
    && Bit(y', 4) == Bit(x, 1) && Bit(y', 3) == Bit(x, 9) && Bit(y', 2) == Bit(x, 17) && Bit(y', 1) == Bit(x, 25)
  }

  lemma PermutedYList(x: ulong, y: ulong, x1: ulong, y1: ulong, x2: ulong, y2: ulong, y': ulong)
    requires StageAX(x, y, x1) && StageAY(x, y, y1) && StageBX(x1, y1, x2) && StageBY(x1, y1, y2) && StageCY(x2, y2, y')
    ensures Bit(y', 0) == Bit(y, 7) && Bit(y', 31) == Bit(y, 15) && Bit(y', 30) == Bit(y, 23)
    ensures Bit(y', 29) == Bit(y, 31) && Bit(y', 28) == Bit(x, 7) && Bit(y', 27) == Bit(x, 15)
    ensures Bit(y', 26) == Bit(x, 23) && Bit(y', 25) == Bit(x, 31) && Bit(y', 24) == Bit(y, 5)
    ensures Bit(y', 23) == Bit(y, 13) && Bit(y', 22) == Bit(y, 21) && Bit(y', 21) == Bit(y, 29)
    ensures Bit(y', 20) == Bit(x, 5) && Bit(y', 19) == Bit(x, 13) && Bit(y', 18) == Bit(x, 21)
    ensures Bit(y', 17) == Bit(x, 29) && Bit(y', 16) == Bit(y, 3) && Bit(y', 15) == Bit(y, 11)
    ensures Bit(y', 14) == Bit(y, 19) && Bit(y', 13) == Bit(y, 27) && Bit(y', 12) == Bit(x, 3)
    ensures Bit(y', 11) == Bit(x, 11) && Bit(y', 10) == Bit(x, 19) && Bit(y', 9) == Bit(x, 27)
    ensures Bit(y', 8) == Bit(y, 1) && Bit(y', 7) == Bit(y, 9) && Bit(y', 6) == Bit(y, 17) && Bit(y', 5) == Bit(y, 25)
    ensures Bit(y', 4) == Bit(x, 1) && Bit(y', 3) == Bit(x, 9) && Bit(y', 2) == Bit(x, 17) && Bit(y', 1) == Bit(x, 25)
  {
  }

  lemma PermutedYIs(x: ulong, y: ulong, x1: ulong, y1: ulong, x2: ulong, y2: ulong, y': ulong)
    requires StageAX(x, y, x1) && StageAY(x, y, y1) && StageBX(x1, y1, x2) && StageBY(x1, y1, y2) && StageCY(x2, y2, y')
    ensures PermutedY(x, y, y')
  {
    PermutedYList(x, y, x1, y1, x2, y2, y');
  }

  lemma PermutedXAt(p: Pair, x: ulong, n: nat)
    requires PermutedX(p.x, p.y, x) && 1 <= n <= 32
    ensures HalfBit(x, n) == PairBit(p, IpL(n))
  {
    if n <= 14 { Cases(n, 0); } else if n <= 28 { Cases(n, 14); } else { Cases(n, 28); }
  }

  lemma PermutedYAt(p: Pair, y: ulong, n: nat)
    requires PermutedY(p.x, p.y, y) && 1 <= n <= 32
    ensures HalfBit(y, n) == PairBit(p, IpR(n))
  {
    if n <= 14 { Cases(n, 0); } else if n <= 28 { Cases(n, 14); } else { Cases(n, 28); }
  }

  lemma Apply7<T>(f1: T -> T, f2: T -> T, f3: T -> T, f4: T -> T, f5: T -> T, f6: T -> T, f7: T -> T, p: T)
    ensures D.Apply([f1, f2, f3, f4, f5, f6, f7], p) == f7(f6(f5(f4(f3(f2(f1(p)))))))
  {
    D.ApplyFirst(f1, [f2, f3, f4, f5, f6, f7], p);
    D.ApplyFirst(f2, [f3, f4, f5, f6, f7], f1(p));
    D.ApplyFirst(f3, [f4, f5, f6, f7], f2(f1(p)));
    D.ApplyFirst(f4, [f5, f6, f7], f3(f2(f1(p))));
    D.ApplyFirst(f5, [f6, f7], f4(f3(f2(f1(p)))));
    D.ApplyFirst(f6, [f7], f5(f4(f3(f2(f1(p))))));
    D.ApplyFirst(f7, [], f6(f5(f4(f3(f2(f1(p)))))));
    assert [f1, f2, f3, f4, f5, f6, f7] == [f1] + [f2, f3, f4, f5, f6, f7];
    assert [f2, f3, f4, f5, f6, f7] == [f2] + [f3, f4, f5, f6, f7];
    assert [f3, f4, f5, f6, f7] == [f3] + [f4, f5, f6, f7];
    assert [f4, f5, f6, f7] == [f4] + [f5, f6, f7];
    assert [f5, f6, f7] == [f5] + [f6, f7];
    assert [f6, f7] == [f6] + [f7];
    assert [f7] == [f7] + [];
  }

  /** The halves after the first two, four and seven steps. */
  lemma IpStages(p: Pair, p1: Pair, p2: Pair, p3: Pair)
    requires Ok32(p) && p1 == D.S2(D.S1(p)) && p2 == D.S4(D.S3(p1)) && p3 == D.S7(D.S6(D.S5(p2)))
    ensures PermutedX(p.x, p.y, p3.x) && PermutedY(p.x, p.y, p3.y)
  {
    StageAIs(p.x, p.y, p1.x, p1.y);
    StageBIs(p1.x, p1.y, p2.x, p2.y);
    StageCIs(p2.x, p2.y, p3.x, p3.y);
    PermutedXIs(p.x, p.y, p1.x, p1.y, p2.x, p2.y, p3.x);
    PermutedYIs(p.x, p.y, p1.x, p1.y, p2.x, p2.y, p3.y);
  }

  lemma IpPermutes(p: Pair)
    requires Ok32(p)
    ensures PermutedX(p.x, p.y, D.IP(p).x) && PermutedY(p.x, p.y, D.IP(p).y)
  {
    var p1 := D.S2(D.S1(p));
    var p2 := D.S4(D.S3(p1));
    IpStages(p, p1, p2, D.S7(D.S6(D.S5(p2))));
    Apply7(D.S1, D.S2, D.S3, D.S4, D.S5, D.S6, D.S7, p);
  }

  /** Bit n of each half after DES_IP is the bit of the block that FIPS 46-3 selects. */
  lemma IpIsFips(p: Pair, n: nat)
    requires Ok32(p) && 1 <= n <= 32
    ensures HalfBit(D.IP(p).x, n) == PairBit(p, IpL(n)) && HalfBit(D.IP(p).y, n) == PairBit(p, IpR(n))
  {
    IpPermutes(p);
    PermutedXAt(p, D.IP(p).x, n);
    PermutedYAt(p, D.IP(p).y, n);
  }

  // ----------------------------------------------------------------- the round

  /** Six bits as a number. */
  function Index(b1: bool, b2: bool, b3: bool, b4: bool, b5: bool, b6: bool): bv6 {
    (if b1 then 0x20 else 0) | (if b2 then 0x10 else 0) | (if b3 then 0x08 else 0)
      | (if b4 then 0x04 else 0) | (if b5 then 0x02 else 0) | (if b6 then 0x01 else 0)
  }

  /** Bit j of E(R) and the subkey, added. */
  function CodeInputBit(x: ulong, k0: ulong, k1: ulong, j: nat): bool
    requires 1 <= j <= 48
  {
    HalfBit(x, E(j)) != CodeBit(k0, k1, j)
  }

  /** What S-box g + 1 is given. */
  function CodeInput(x: ulong, k0: ulong, k1: ulong, g: nat): bv6
    requires g < 8
  {
    Index(CodeInputBit(x, k0, k1, 6 * g + 1), CodeInputBit(x, k0, k1, 6 * g + 2), CodeInputBit(x, k0, k1, 6 * g + 3),
          CodeInputBit(x, k0, k1, 6 * g + 4), CodeInputBit(x, k0, k1, 6 * g + 5), CodeInputBit(x, k0, k1, 6 * g + 6))
  }

  lemma XorForm(x: ulong, k: ulong)
    ensures k ^ x == (x & !k) | (!x & k)
  {
  }

  lemma SixXor24(x: ulong, k: ulong, t: ulong)
    requires t == (x & !k) | (!x & k)
    ensures D.Six(t >> 24) == Index(Bit(x, 29) != Bit(k, 29), Bit(x, 28) != Bit(k, 28), Bit(x, 27) != Bit(k, 27),
                                 Bit(x, 26) != Bit(k, 26), Bit(x, 25) != Bit(k, 25), Bit(x, 24) != Bit(k, 24))
  {
  }

  lemma SixXor16(x: ulong, k: ulong, t: ulong)
    requires t == (x & !k) | (!x & k)
    ensures D.Six(t >> 16) == Index(Bit(x, 21) != Bit(k, 21), Bit(x, 20) != Bit(k, 20), Bit(x, 19) != Bit(k, 19),
                                 Bit(x, 18) != Bit(k, 18), Bit(x, 17) != Bit(k, 17), Bit(x, 16) != Bit(k, 16))
  {
  }

  lemma SixXor8(x: ulong, k: ulong, t: ulong)
    requires t == (x & !k) | (!x & k)
    ensures D.Six(t >> 8) == Index(Bit(x, 13) != Bit(k, 13), Bit(x, 12) != Bit(k, 12), Bit(x, 11) != Bit(k, 11),
                                 Bit(x, 10) != Bit(k, 10), Bit(x, 9) != Bit(k, 9), Bit(x, 8) != Bit(k, 8))
  {
  }

  lemma SixXor0(x: ulong, k: ulong, t: ulong)
    requires t == (x & !k) | (!x & k)
    ensures D.Six(t) == Index(Bit(x, 5) != Bit(k, 5), Bit(x, 4) != Bit(k, 4), Bit(x, 3) != Bit(k, 3),
                                 Bit(x, 2) != Bit(k, 2), Bit(x, 1) != Bit(k, 1), Bit(x, 0) != Bit(k, 0))
  {
  }

  /** Where the macro finds the bits of the half it rotates. */
  lemma Rotate24(x: ulong, u: ulong)
    requires Is32(x) && u == D.Rotr4(x)
    ensures Bit(u, 29) == Bit(x, 1) && Bit(u, 28) == Bit(x, 0) && Bit(u, 27) == Bit(x, 31)
    ensures Bit(u, 26) == Bit(x, 30) && Bit(u, 25) == Bit(x, 29) && Bit(u, 24) == Bit(x, 28)
  {
  }

  lemma Rotate16(x: ulong, u: ulong)
    requires Is32(x) && u == D.Rotr4(x)
    ensures Bit(u, 21) == Bit(x, 25) && Bit(u, 20) == Bit(x, 24) && Bit(u, 19) == Bit(x, 23)
    ensures Bit(u, 18) == Bit(x, 22) && Bit(u, 17) == Bit(x, 21) && Bit(u, 16) == Bit(x, 20)
  {
  }

  lemma Rotate8(x: ulong, u: ulong)
    requires Is32(x) && u == D.Rotr4(x)
    ensures Bit(u, 13) == Bit(x, 17) && Bit(u, 12) == Bit(x, 16) && Bit(u, 11) == Bit(x, 15)
    ensures Bit(u, 10) == Bit(x, 14) && Bit(u, 9) == Bit(x, 13) && Bit(u, 8) == Bit(x, 12)
  {
  }

  lemma Rotate0(x: ulong, u: ulong)
    requires Is32(x) && u == D.Rotr4(x)
    ensures Bit(u, 5) == Bit(x, 9) && Bit(u, 4) == Bit(x, 8) && Bit(u, 3) == Bit(x, 7)
    ensures Bit(u, 2) == Bit(x, 6) && Bit(u, 1) == Bit(x, 5) && Bit(u, 0) == Bit(x, 4)
  {
  }

  lemma Input1(x: ulong, k0: ulong, k1: ulong)
    ensures CodeInput(x, k0, k1, 0)
         == Index(Bit(x, 1) != Bit(k1, 29), Bit(x, 0) != Bit(k1, 28), Bit(x, 31) != Bit(k1, 27),
                  Bit(x, 30) != Bit(k1, 26), Bit(x, 29) != Bit(k1, 25), Bit(x, 28) != Bit(k1, 24))
  {
  }

  lemma Input2(x: ulong, k0: ulong, k1: ulong)
    ensures CodeInput(x, k0, k1, 1)
         == Index(Bit(x, 29) != Bit(k0, 29), Bit(x, 28) != Bit(k0, 28), Bit(x, 27) != Bit(k0, 27),
                  Bit(x, 26) != Bit(k0, 26), Bit(x, 25) != Bit(k0, 25), Bit(x, 24) != Bit(k0, 24))
  {
  }

  lemma Input3(x: ulong, k0: ulong, k1: ulong)
    ensures CodeInput(x, k0, k1, 2)
         == Index(Bit(x, 25) != Bit(k1, 21), Bit(x, 24) != Bit(k1, 20), Bit(x, 23) != Bit(k1, 19),
                  Bit(x, 22) != Bit(k1, 18), Bit(x, 21) != Bit(k1, 17), Bit(x, 20) != Bit(k1, 16))
  {
  }

  lemma Input4(x: ulong, k0: ulong, k1: ulong)
    ensures CodeInput(x, k0, k1, 3)
         == Index(Bit(x, 21) != Bit(k0, 21), Bit(x, 20) != Bit(k0, 20), Bit(x, 19) != Bit(k0, 19),
                  Bit(x, 18) != Bit(k0, 18), Bit(x, 17) != Bit(k0, 17), Bit(x, 16) != Bit(k0, 16))
  {
  }

  lemma Input5(x: ulong, k0: ulong, k1: ulong)
    ensures CodeInput(x, k0, k1, 4)
         == Index(Bit(x, 17) != Bit(k1, 13), Bit(x, 16) != Bit(k1, 12), Bit(x, 15) != Bit(k1, 11),
                  Bit(x, 14) != Bit(k1, 10), Bit(x, 13) != Bit(k1, 9), Bit(x, 12) != Bit(k1, 8))
  {
  }

  lemma Input6(x: ulong, k0: ulong, k1: ulong)
    ensures CodeInput(x, k0, k1, 5)
         == Index(Bit(x, 13) != Bit(k0, 13), Bit(x, 12) != Bit(k0, 12), Bit(x, 11) != Bit(k0, 11),
                  Bit(x, 10) != Bit(k0, 10), Bit(x, 9) != Bit(k0, 9), Bit(x, 8) != Bit(k0, 8))
  {
  }

  lemma Input7(x: ulong, k0: ulong, k1: ulong)
    ensures CodeInput(x, k0, k1, 6)
         == Index(Bit(x, 9) != Bit(k1, 5), Bit(x, 8) != Bit(k1, 4), Bit(x, 7) != Bit(k1, 3),
                  Bit(x, 6) != Bit(k1, 2), Bit(x, 5) != Bit(k1, 1), Bit(x, 4) != Bit(k1, 0))
  {
  }

  lemma Input8(x: ulong, k0: ulong, k1: ulong)
    ensures CodeInput(x, k0, k1, 7)
         == Index(Bit(x, 5) != Bit(k0, 5), Bit(x, 4) != Bit(k0, 4), Bit(x, 3) != Bit(k0, 3),
                  Bit(x, 2) != Bit(k0, 2), Bit(x, 1) != Bit(k0, 1), Bit(x, 0) != Bit(k0, 0))
  {
  }

  lemma XorForms(x: ulong, k: ulong, t: ulong)
    requires t == k ^ x
    ensures t == (x & !k) | (!x & k)
  {
    XorForm(x, k);
  }

  /** The even S-boxes, ... */
  lemma EvenInput2(x: ulong, k0: ulong, k1: ulong, t: ulong)
    requires t == (x & !k0) | (!x & k0)
    ensures D.Six(t >> 24) == CodeInput(x, k0, k1, 1)
  {
    SixXor24(x, k0, t);
    Input2(x, k0, k1);
  }

  lemma EvenInput4(x: ulong, k0: ulong, k1: ulong, t: ulong)
    requires t == (x & !k0) | (!x & k0)
    ensures D.Six(t >> 16) == CodeInput(x, k0, k1, 3)
  {
    SixXor16(x, k0, t);
    Input4(x, k0, k1);
  }

  lemma EvenInput6(x: ulong, k0: ulong, k1: ulong, t: ulong)
    requires t == (x & !k0) | (!x & k0)
    ensures D.Six(t >> 8) == CodeInput(x, k0, k1, 5)
  {
    SixXor8(x, k0, t);
    Input6(x, k0, k1);
  }

  lemma EvenInput8(x: ulong, k0: ulong, k1: ulong, t: ulong)
    requires t == (x & !k0) | (!x & k0)
    ensures D.Six(t) == CodeInput(x, k0, k1, 7)
  {
    SixXor0(x, k0, t);
    Input8(x, k0, k1);
  }

  /** ... and the odd ones. */
  lemma OddInput1(x: ulong, k0: ulong, k1: ulong, u: ulong, t: ulong)
    requires Is32(x) && u == D.Rotr4(x) && t == (u & !k1) | (!u & k1)
    ensures D.Six(t >> 24) == CodeInput(x, k0, k1, 0)
  {
    SixXor24(u, k1, t);
    Rotate24(x, u);
    Input1(x, k0, k1);
  }

  lemma OddInput3(x: ulong, k0: ulong, k1: ulong, u: ulong, t: ulong)
    requires Is32(x) && u == D.Rotr4(x) && t == (u & !k1) | (!u & k1)
    ensures D.Six(t >> 16) == CodeInput(x, k0, k1, 2)
  {
    SixXor16(u, k1, t);
    Rotate16(x, u);
    Input3(x, k0, k1);
  }

  lemma OddInput5(x: ulong, k0: ulong, k1: ulong, u: ulong, t: ulong)
    requires Is32(x) && u == D.Rotr4(x) && t == (u & !k1) | (!u & k1)
    ensures D.Six(t >> 8) == CodeInput(x, k0, k1, 4)
  {
    SixXor8(u, k1, t);
    Rotate8(x, u);
    Input5(x, k0, k1);
  }

  lemma OddInput7(x: ulong, k0: ulong, k1: ulong, u: ulong, t: ulong)
    requires Is32(x) && u == D.Rotr4(x) && t == (u & !k1) | (!u & k1)
    ensures D.Six(t) == CodeInput(x, k0, k1, 6)
  {
    SixXor0(u, k1, t);
    Rotate0(x, u);
    Input7(x, k0, k1);
  }

  /** The eight inputs. */
  datatype Inputs = Inputs(i1: bv6, i2: bv6, i3: bv6, i4: bv6, i5: bv6, i6: bv6, i7: bv6, i8: bv6)

  function CodeInputs(x: ulong, k0: ulong, k1: ulong): Inputs {
    Inputs(CodeInput(x, k0, k1, 0), CodeInput(x, k0, k1, 1), CodeInput(x, k0, k1, 2), CodeInput(x, k0, k1, 3),
           CodeInput(x, k0, k1, 4), CodeInput(x, k0, k1, 5), CodeInput(x, k0, k1, 6), CodeInput(x, k0, k1, 7))
  }

  predicate EvenAre(v: Inputs, t: ulong) {
    v.i8 == D.Six(t) && v.i6 == D.Six(t >> 8) && v.i4 == D.Six(t >> 16) && v.i2 == D.Six(t >> 24)
  }

  predicate OddAre(v: Inputs, t: ulong) {
    v.i7 == D.Six(t) && v.i5 == D.Six(t >> 8) && v.i3 == D.Six(t >> 16) && v.i1 == D.Six(t >> 24)
  }

  lemma EvenInputsAre(x: ulong, k0: ulong, k1: ulong, t: ulong)
    requires t == k0 ^ x
    ensures EvenAre(CodeInputs(x, k0, k1), t)
  {
    XorForms(x, k0, t);
    EvenInput2(x, k0, k1, t);
    EvenInput4(x, k0, k1, t);
    EvenInput6(x, k0, k1, t);
    EvenInput8(x, k0, k1, t);
  }

  lemma OddInputsAre(x: ulong, k0: ulong, k1: ulong, u: ulong, t: ulong)
    requires Is32(x) && u == D.Rotr4(x) && t == k1 ^ u
    ensures OddAre(CodeInputs(x, k0, k1), t)
  {
    XorForms(u, k1, t);
    OddInput1(x, k0, k1, u, t);
    OddInput3(x, k0, k1, u, t);
    OddInput5(x, k0, k1, u, t);
    OddInput7(x, k0, k1, u, t);
  }

  /** What the macro adds to the other half, given its inputs. */
  function EvenSum(b: D.Boxes, v: Inputs): ulong {
    D.Four(D.Xor, b.sb8(v.i8), b.sb6(v.i6), b.sb4(v.i4), b.sb2(v.i2))
  }

  function OddSum(b: D.Boxes, v: Inputs): ulong {
    D.Four(D.Xor, b.sb7(v.i7), b.sb5(v.i5), b.sb3(v.i3), b.sb1(v.i1))
  }

  lemma EvenLooksUp(b: D.Boxes, t: ulong, v: Inputs)
    requires EvenAre(v, t)
    ensures D.EvenBoxes(b, t) == EvenSum(b, v)
  {
  }

  lemma OddLooksUp(b: D.Boxes, t: ulong, v: Inputs)
    requires OddAre(v, t)
    ensures D.OddBoxes(b, t) == OddSum(b, v)
  {
  }

  lemma FirstIs(b: D.Boxes, k: ulong, x: ulong, t: ulong)
    requires t == k ^ x
    ensures D.First(b, k, x) == D.EvenBoxes(b, t)
  {
  }

  lemma SecondIs(b: D.Boxes, k: ulong, x: ulong, t: ulong)
    requires t == k ^ D.Rotr4(x)
    ensures D.Second(b, k, x) == D.OddBoxes(b, t)
  {
  }

  /** Whatever the S-boxes hold, the round macro looks them up at E(R) plus the subkey. */
  lemma FirstLooksUp(b: D.Boxes, k0: ulong, k1: ulong, x: ulong, t: ulong, v: Inputs)
    requires v == CodeInputs(x, k0, k1) && t == k0 ^ x
    ensures D.First(b, k0, x) == EvenSum(b, v)
  {
    calc {
      D.First(b, k0, x);
    == { FirstIs(b, k0, x, t); }
      D.EvenBoxes(b, t);
    == { EvenInputsAre(x, k0, k1, t); EvenLooksUp(b, t, v); }
      EvenSum(b, v);
    }
  }

  lemma SecondLooksUp(b: D.Boxes, k0: ulong, k1: ulong, x: ulong, t: ulong, v: Inputs)
    requires Is32(x) && v == CodeInputs(x, k0, k1) && t == k1 ^ D.Rotr4(x)
    ensures D.Second(b, k1, x) == OddSum(b, v)
  {
    calc {
      D.Second(b, k1, x);
    == { SecondIs(b, k1, x, t); }
      D.OddBoxes(b, t);
    == { OddInputsAre(x, k0, k1, D.Rotr4(x), t); OddLooksUp(b, t, v); }
      OddSum(b, v);
    }
  }

  lemma MacroLooksUp(b: D.Boxes, k0: ulong, k1: ulong, x: ulong)
    requires Is32(x)
    ensures D.First(b, k0, x) == EvenSum(b, CodeInputs(x, k0, k1))
    ensures D.Second(b, k1, x) == OddSum(b, CodeInputs(x, k0, k1))
  {
    FirstLooksUp(b, k0, k1, x, k0 ^ x, CodeInputs(x, k0, k1));
    SecondLooksUp(b, k0, k1, x, k1 ^ D.Rotr4(x), CodeInputs(x, k0, k1));
  }

  // ----------------------------------------------- the round function of FIPS 46-3

  /** The bits of a half block, counted from 1. */
  type Half = nat -> bool

  ghost predicate ShowsAt(x: ulong, r: Half, n: nat) {
    1 <= n <= 32 ==> HalfBit(x, n) == r(n)
  }

  /** The word is how the code keeps that half. */
  ghost predicate Shows(x: ulong, r: Half) {
    forall n: nat :: ShowsAt(x, r, n)
  }

  /** Bit j of what the S-boxes are given in round i + 1: E(R) plus the subkey. */
  function FipsInputBit(key: seq<byte>, i: nat, r: Half, j: nat): bool
    requires |key| == 8
  {
    r(E(j)) != SubkeyBit(key, i + 1, j)
  }

  function FipsInput(key: seq<byte>, i: nat, r: Half, g: nat): bv6
    requires |key| == 8
  {
    Index(FipsInputBit(key, i, r, 6 * g + 1), FipsInputBit(key, i, r, 6 * g + 2), FipsInputBit(key, i, r, 6 * g + 3),
          FipsInputBit(key, i, r, 6 * g + 4), FipsInputBit(key, i, r, 6 * g + 5), FipsInputBit(key, i, r, 6 * g + 6))
  }

  function FipsInputs(key: seq<byte>, i: nat, r: Half): Inputs
    requires |key| == 8
  {
    InputsOf((g: nat) => FipsInput(key, i, r, g))
  }

  function InputsOf(f: nat -> bv6): Inputs {
    Inputs(f(0), f(1), f(2), f(3), f(4), f(5), f(6), f(7))
  }

  lemma ESelects(j: nat)
    requires 1 <= j <= 48
    ensures 1 <= E(j) <= 32
  {
  }

  lemma InputBitIsFips(key: seq<byte>, sk: seq<ulong>, i: nat, x: ulong, r: Half, j: nat)
    requires IsSchedule(sk, key) && i < 16 && 1 <= j <= 48 && Shows(x, r)
    ensures CodeInputBit(x, sk[2 * i], sk[2 * i + 1], j) == FipsInputBit(key, i, r, j)
  {
    assert ScheduledAt(sk, key, i, j);
    ESelects(j);
    assert ShowsAt(x, r, E(j));
  }

  lemma InputIsFips(key: seq<byte>, sk: seq<ulong>, i: nat, x: ulong, r: Half, g: nat)
    requires IsSchedule(sk, key) && i < 16 && g < 8 && Shows(x, r)
    ensures CodeInput(x, sk[2 * i], sk[2 * i + 1], g) == FipsInput(key, i, r, g)
  {
    InputBitIsFips(key, sk, i, x, r, 6 * g + 1);
    InputBitIsFips(key, sk, i, x, r, 6 * g + 2);
    InputBitIsFips(key, sk, i, x, r, 6 * g + 3);
    InputBitIsFips(key, sk, i, x, r, 6 * g + 4);
    InputBitIsFips(key, sk, i, x, r, 6 * g + 5);
    InputBitIsFips(key, sk, i, x, r, 6 * g + 6);
  }

  function Nth(v: Inputs, g: nat): bv6 {
    if g == 0 then v.i1 else if g == 1 then v.i2 else if g == 2 then v.i3 else if g == 3 then v.i4
    else if g == 4 then v.i5 else if g == 5 then v.i6 else if g == 6 then v.i7 else v.i8
  }

  ghost predicate LooksAt(v: Inputs, x: ulong, k0: ulong, k1: ulong, g: nat) {
    g < 8 ==> Nth(v, g) == CodeInput(x, k0, k1, g)
  }

  /** These are what the macro looks up. */
  ghost predicate Looks(v: Inputs, x: ulong, k0: ulong, k1: ulong) {
    forall g: nat :: LooksAt(v, x, k0, k1, g)
  }

  lemma LooksIs(v: Inputs, x: ulong, k0: ulong, k1: ulong)
    requires Looks(v, x, k0, k1)
    ensures v == CodeInputs(x, k0, k1)
  {
    assert LooksAt(v, x, k0, k1, 0) && LooksAt(v, x, k0, k1, 1) && LooksAt(v, x, k0, k1, 2);
    assert LooksAt(v, x, k0, k1, 3) && LooksAt(v, x, k0, k1, 4) && LooksAt(v, x, k0, k1, 5);
    assert LooksAt(v, x, k0, k1, 6) && LooksAt(v, x, k0, k1, 7);
  }

  lemma NthOf(f: nat -> bv6, g: nat)
    requires g < 8
    ensures Nth(InputsOf(f), g) == f(g)
  {
  }

  ghost predicate LooksLike(f: nat -> bv6, x: ulong, k0: ulong, k1: ulong, g: nat) {
    g < 8 ==> f(g) == CodeInput(x, k0, k1, g)
  }

  lemma LooksFrom(f: nat -> bv6, x: ulong, k0: ulong, k1: ulong)
    requires forall g: nat :: LooksLike(f, x, k0, k1, g)
    ensures Looks(InputsOf(f), x, k0, k1)
  {
    forall g: nat ensures LooksAt(InputsOf(f), x, k0, k1, g) {
      assert LooksLike(f, x, k0, k1, g);
      if g < 8 { NthOf(f, g); }
    }
  }

  /** With the schedule of des_main_ks, what the round macro looks up is what the standard
      gives the S-boxes. */
  lemma InputsAreFips(key: seq<byte>, sk: seq<ulong>, i: nat, x: ulong, r: Half)
    requires IsSchedule(sk, key) && i < 16 && Shows(x, r)
    ensures Looks(FipsInputs(key, i, r), x, sk[2 * i], sk[2 * i + 1])
  {
    var f, k0, k1 := (g: nat) => FipsInput(key, i, r, g), sk[2 * i], sk[2 * i + 1];
    forall g: nat ensures LooksLike(f, x, k0, k1, g) {
      if g < 8 { InputIsFips(key, sk, i, x, r, g); }
    }
    LooksFrom(f, x, k0, k1);
  }
}
