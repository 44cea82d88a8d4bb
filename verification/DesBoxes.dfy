/**
 The combined tables SB1 .. SB8 of des.c, against the S-boxes and the permutation P of
 FIPS 46-3. An entry holds the four output bits of its S-box where P sends them, in a word
 rotated left by one.
 */
module DesBoxes {
  import opened Words
  import D = Des

  // --------------------------------------------------------------- the code's tables

  function Entry(i: bv6, v0: ulong, v1: ulong, v2: ulong, v3: ulong, v4: ulong, v5: ulong, v6: ulong, v7: ulong,
                 v8: ulong, v9: ulong, vA: ulong, vB: ulong, vC: ulong, vD: ulong, vE: ulong, vF: ulong): ulong {
    if i & 0x08 == 0 then
      if i & 0x04 == 0 then
        if i & 0x02 == 0 then if i & 0x01 == 0 then v0 else v1 else if i & 0x01 == 0 then v2 else v3
      else
        if i & 0x02 == 0 then if i & 0x01 == 0 then v4 else v5 else if i & 0x01 == 0 then v6 else v7
    else
      if i & 0x04 == 0 then
        if i & 0x02 == 0 then if i & 0x01 == 0 then v8 else v9 else if i & 0x01 == 0 then vA else vB
      else
        if i & 0x02 == 0 then if i & 0x01 == 0 then vC else vD else if i & 0x01 == 0 then vE else vF
  }

  function SB1(i: bv6): ulong {
    if i & 0x20 == 0 then
      if i & 0x10 == 0 then
        Entry(i, 0x0101_0400, 0x0000_0000, 0x0001_0000, 0x0101_0404, 0x0101_0004, 0x0001_0404, 0x0000_0004, 0x0001_0000,
                 0x0000_0400, 0x0101_0400, 0x0101_0404, 0x0000_0400, 0x0100_0404, 0x0101_0004, 0x0100_0000, 0x0000_0004)
      else
        Entry(i, 0x0000_0404, 0x0100_0400, 0x0100_0400, 0x0001_0400, 0x0001_0400, 0x0101_0000, 0x0101_0000, 0x0100_0404,
                 0x0001_0004, 0x0100_0004, 0x0100_0004, 0x0001_0004, 0x0000_0000, 0x0000_0404, 0x0001_0404, 0x0100_0000)
    else
      if i & 0x10 == 0 then
        Entry(i, 0x0001_0000, 0x0101_0404, 0x0000_0004, 0x0101_0000, 0x0101_0400, 0x0100_0000, 0x0100_0000, 0x0000_0400,
                 0x0101_0004, 0x0001_0000, 0x0001_0400, 0x0100_0004, 0x0000_0400, 0x0000_0004, 0x0100_0404, 0x0001_0404)
      else
        Entry(i, 0x0101_0404, 0x0001_0004, 0x0101_0000, 0x0100_0404, 0x0100_0004, 0x0000_0404, 0x0001_0404, 0x0101_0400,
                 0x0000_0404, 0x0100_0400, 0x0100_0400, 0x0000_0000, 0x0001_0004, 0x0001_0400, 0x0000_0000, 0x0101_0004)
  }

  function SB2(i: bv6): ulong {
    if i & 0x20 == 0 then
      if i & 0x10 == 0 then
        Entry(i, 0x8010_8020, 0x8000_8000, 0x0000_8000, 0x0010_8020, 0x0010_0000, 0x0000_0020, 0x8010_0020, 0x8000_8020,
                 0x8000_0020, 0x8010_8020, 0x8010_8000, 0x8000_0000, 0x8000_8000, 0x0010_0000, 0x0000_0020, 0x8010_0020)
      else
        Entry(i, 0x0010_8000, 0x0010_0020, 0x8000_8020, 0x0000_0000, 0x8000_0000, 0x0000_8000, 0x0010_8020, 0x8010_0000,
                 0x0010_0020, 0x8000_0020, 0x0000_0000, 0x0010_8000, 0x0000_8020, 0x8010_8000, 0x8010_0000, 0x0000_8020)
    else
      if i & 0x10 == 0 then
        Entry(i, 0x0000_0000, 0x0010_8020, 0x8010_0020, 0x0010_0000, 0x8000_8020, 0x8010_0000, 0x8010_8000, 0x0000_8000,
                 0x8010_0000, 0x8000_8000, 0x0000_0020, 0x8010_8020, 0x0010_8020, 0x0000_0020, 0x0000_8000, 0x8000_0000)
      else
        Entry(i, 0x0000_8020, 0x8010_8000, 0x0010_0000, 0x8000_0020, 0x0010_0020, 0x8000_8020, 0x8000_0020, 0x0010_0020,
                 0x0010_8000, 0x0000_0000, 0x8000_8000, 0x0000_8020, 0x8000_0000, 0x8010_0020, 0x8010_8020, 0x0010_8000)
  }

  function SB3(i: bv6): ulong {
    if i & 0x20 == 0 then
      if i & 0x10 == 0 then
        Entry(i, 0x0000_0208, 0x0802_0200, 0x0000_0000, 0x0802_0008, 0x0800_0200, 0x0000_0000, 0x0002_0208, 0x0800_0200,
                 0x0002_0008, 0x0800_0008, 0x0800_0008, 0x0002_0000, 0x0802_0208, 0x0002_0008, 0x0802_0000, 0x0000_0208)
      else
        Entry(i, 0x0800_0000, 0x0000_0008, 0x0802_0200, 0x0000_0200, 0x0002_0200, 0x0802_0000, 0x0802_0008, 0x0002_0208,
                 0x0800_0208, 0x0002_0200, 0x0002_0000, 0x0800_0208, 0x0000_0008, 0x0802_0208, 0x0000_0200, 0x0800_0000)
    else
      if i & 0x10 == 0 then
        Entry(i, 0x0802_0200, 0x0800_0000, 0x0002_0008, 0x0000_0208, 0x0002_0000, 0x0802_0200, 0x0800_0200, 0x0000_0000,
                 0x0000_0200, 0x0002_0008, 0x0802_0208, 0x0800_0200, 0x0800_0008, 0x0000_0200, 0x0000_0000, 0x0802_0008)
      else
        Entry(i, 0x0800_0208, 0x0002_0000, 0x0800_0000, 0x0802_0208, 0x0000_0008, 0x0002_0208, 0x0002_0200, 0x0800_0008,
                 0x0802_0000, 0x0800_0208, 0x0000_0208, 0x0802_0000, 0x0002_0208, 0x0000_0008, 0x0802_0008, 0x0002_0200)
  }

  function SB4(i: bv6): ulong {
    if i & 0x20 == 0 then
      if i & 0x10 == 0 then
        Entry(i, 0x0080_2001, 0x0000_2081, 0x0000_2081, 0x0000_0080, 0x0080_2080, 0x0080_0081, 0x0080_0001, 0x0000_2001,
                 0x0000_0000, 0x0080_2000, 0x0080_2000, 0x0080_2081, 0x0000_0081, 0x0000_0000, 0x0080_0080, 0x0080_0001)
      else
        Entry(i, 0x0000_0001, 0x0000_2000, 0x0080_0000, 0x0080_2001, 0x0000_0080, 0x0080_0000, 0x0000_2001, 0x0000_2080,
                 0x0080_0081, 0x0000_0001, 0x0000_2080, 0x0080_0080, 0x0000_2000, 0x0080_2080, 0x0080_2081, 0x0000_0081)
    else
      if i & 0x10 == 0 then
        Entry(i, 0x0080_0080, 0x0080_0001, 0x0080_2000, 0x0080_2081, 0x0000_0081, 0x0000_0000, 0x0000_0000, 0x0080_2000,
                 0x0000_2080, 0x0080_0080, 0x0080_0081, 0x0000_0001, 0x0080_2001, 0x0000_2081, 0x0000_2081, 0x0000_0080)
      else
        Entry(i, 0x0080_2081, 0x0000_0081, 0x0000_0001, 0x0000_2000, 0x0080_0001, 0x0000_2001, 0x0080_2080, 0x0080_0081,
                 0x0000_2001, 0x0000_2080, 0x0080_0000, 0x0080_2001, 0x0000_0080, 0x0080_0000, 0x0000_2000, 0x0080_2080)
  }

  function SB5(i: bv6): ulong {
    if i & 0x20 == 0 then
      if i & 0x10 == 0 then
        Entry(i, 0x0000_0100, 0x0208_0100, 0x0208_0000, 0x4200_0100, 0x0008_0000, 0x0000_0100, 0x4000_0000, 0x0208_0000,
                 0x4008_0100, 0x0008_0000, 0x0200_0100, 0x4008_0100, 0x4200_0100, 0x4208_0000, 0x0008_0100, 0x4000_0000)
      else
        Entry(i, 0x0200_0000, 0x4008_0000, 0x4008_0000, 0x0000_0000, 0x4000_0100, 0x4208_0100, 0x4208_0100, 0x0200_0100,
                 0x4208_0000, 0x4000_0100, 0x0000_0000, 0x4200_0000, 0x0208_0100, 0x0200_0000, 0x4200_0000, 0x0008_0100)
    else
      if i & 0x10 == 0 then
        Entry(i, 0x0008_0000, 0x4200_0100, 0x0000_0100, 0x0200_0000, 0x4000_0000, 0x0208_0000, 0x4200_0100, 0x4008_0100,
                 0x0200_0100, 0x4000_0000, 0x4208_0000, 0x0208_0100, 0x4008_0100, 0x0000_0100, 0x0200_0000, 0x4208_0000)
      else
        Entry(i, 0x4208_0100, 0x0008_0100, 0x4200_0000, 0x4208_0100, 0x0208_0000, 0x0000_0000, 0x4008_0000, 0x4200_0000,
                 0x0008_0100, 0x0200_0100, 0x4000_0100, 0x0008_0000, 0x0000_0000, 0x4008_0000, 0x0208_0100, 0x4000_0100)
  }

  function SB6(i: bv6): ulong {
    if i & 0x20 == 0 then
      if i & 0x10 == 0 then
        Entry(i, 0x2000_0010, 0x2040_0000, 0x0000_4000, 0x2040_4010, 0x2040_0000, 0x0000_0010, 0x2040_4010, 0x0040_0000,
                 0x2000_4000, 0x0040_4010, 0x0040_0000, 0x2000_0010, 0x0040_0010, 0x2000_4000, 0x2000_0000, 0x0000_4010)
      else
        Entry(i, 0x0000_0000, 0x0040_0010, 0x2000_4010, 0x0000_4000, 0x0040_4000, 0x2000_4010, 0x0000_0010, 0x2040_0010,
                 0x2040_0010, 0x0000_0000, 0x0040_4010, 0x2040_4000, 0x0000_4010, 0x0040_4000, 0x2040_4000, 0x2000_0000)
    else
      if i & 0x10 == 0 then
        Entry(i, 0x2000_4000, 0x0000_0010, 0x2040_0010, 0x0040_4000, 0x2040_4010, 0x0040_0000, 0x0000_4010, 0x2000_0010,
                 0x0040_0000, 0x2000_4000, 0x2000_0000, 0x0000_4010, 0x2000_0010, 0x2040_4010, 0x0040_4000, 0x2040_0000)
      else
        Entry(i, 0x0040_4010, 0x2040_4000, 0x0000_0000, 0x2040_0010, 0x0000_0010, 0x0000_4000, 0x2040_0000, 0x0040_4010,
                 0x0000_4000, 0x0040_0010, 0x2000_4010, 0x0000_0000, 0x2040_4000, 0x2000_0000, 0x0040_0010, 0x2000_4010)
  }

  function SB7(i: bv6): ulong {
    if i & 0x20 == 0 then
      if i & 0x10 == 0 then
        Entry(i, 0x0020_0000, 0x0420_0002, 0x0400_0802, 0x0000_0000, 0x0000_0800, 0x0400_0802, 0x0020_0802, 0x0420_0800,
                 0x0420_0802, 0x0020_0000, 0x0000_0000, 0x0400_0002, 0x0000_0002, 0x0400_0000, 0x0420_0002, 0x0000_0802)
      else
        Entry(i, 0x0400_0800, 0x0020_0802, 0x0020_0002, 0x0400_0800, 0x0400_0002, 0x0420_0000, 0x0420_0800, 0x0020_0002,
                 0x0420_0000, 0x0000_0800, 0x0000_0802, 0x0420_0802, 0x0020_0800, 0x0000_0002, 0x0400_0000, 0x0020_0800)
    else
      if i & 0x10 == 0 then
        Entry(i, 0x0400_0000, 0x0020_0800, 0x0020_0000, 0x0400_0802, 0x0400_0802, 0x0420_0002, 0x0420_0002, 0x0000_0002,
                 0x0020_0002, 0x0400_0000, 0x0400_0800, 0x0020_0000, 0x0420_0800, 0x0000_0802, 0x0020_0802, 0x0420_0800)
      else
        Entry(i, 0x0000_0802, 0x0400_0002, 0x0420_0802, 0x0420_0000, 0x0020_0800, 0x0000_0000, 0x0000_0002, 0x0420_0802,
                 0x0000_0000, 0x0020_0802, 0x0420_0000, 0x0000_0800, 0x0400_0002, 0x0400_0800, 0x0000_0800, 0x0020_0002)
  }

  function SB8(i: bv6): ulong {
    if i & 0x20 == 0 then
      if i & 0x10 == 0 then
        Entry(i, 0x1000_1040, 0x0000_1000, 0x0004_0000, 0x1004_1040, 0x1000_0000, 0x1000_1040, 0x0000_0040, 0x1000_0000,
                 0x0004_0040, 0x1004_0000, 0x1004_1040, 0x0004_1000, 0x1004_1000, 0x0004_1040, 0x0000_1000, 0x0000_0040)
      else
        Entry(i, 0x1004_0000, 0x1000_0040, 0x1000_1000, 0x0000_1040, 0x0004_1000, 0x0004_0040, 0x1004_0040, 0x1004_1000,
                 0x0000_1040, 0x0000_0000, 0x0000_0000, 0x1004_0040, 0x1000_0040, 0x1000_1000, 0x0004_1040, 0x0004_0000)
    else
      if i & 0x10 == 0 then
        Entry(i, 0x0004_1040, 0x0004_0000, 0x1004_1000, 0x0000_1000, 0x0000_0040, 0x1004_0040, 0x0000_1000, 0x0004_1040,
                 0x1000_1000, 0x0000_0040, 0x1000_0040, 0x1004_0000, 0x1004_0040, 0x1000_0000, 0x0004_0000, 0x1000_1040)
      else
        Entry(i, 0x0000_0000, 0x1004_1040, 0x0004_0040, 0x1000_0040, 0x1004_0000, 0x1000_1000, 0x1000_1040, 0x0000_0000,
                 0x1004_1040, 0x0004_1000, 0x0004_1000, 0x0000_1040, 0x0000_1040, 0x0004_0040, 0x1000_0000, 0x1004_1000)
  }

  /** The tables of the code. */
  function Tables(): D.Boxes {
    D.Boxes(SB1, SB2, SB3, SB4, SB5, SB6, SB7, SB8)
  }

  // ------------------------------------------------------------------ FIPS 46-3

  /** The four middle bits select the column. */

  function Column(i: bv6, v0: bv4, v1: bv4, v2: bv4, v3: bv4, v4: bv4, v5: bv4, v6: bv4, v7: bv4,
                  v8: bv4, v9: bv4, vA: bv4, vB: bv4, vC: bv4, vD: bv4, vE: bv4, vF: bv4): bv4 {
    if i & 0x10 == 0 then
      if i & 0x08 == 0 then
        if i & 0x04 == 0 then if i & 0x02 == 0 then v0 else v1 else if i & 0x02 == 0 then v2 else v3
      else
        if i & 0x04 == 0 then if i & 0x02 == 0 then v4 else v5 else if i & 0x02 == 0 then v6 else v7
    else
      if i & 0x08 == 0 then
        if i & 0x04 == 0 then if i & 0x02 == 0 then v8 else v9 else if i & 0x02 == 0 then vA else vB
      else
        if i & 0x04 == 0 then if i & 0x02 == 0 then vC else vD else if i & 0x02 == 0 then vE else vF
  }

  /** S1, row by row; the first and the last bit select the row. */
  function S1(i: bv6): bv4 {
    if i & 0x20 == 0 then
      if i & 0x01 == 0 then Column(i, 14, 4, 13, 1, 2, 15, 11, 8, 3, 10, 6, 12, 5, 9, 0, 7)
      else Column(i, 0, 15, 7, 4, 14, 2, 13, 1, 10, 6, 12, 11, 9, 5, 3, 8)
    else
      if i & 0x01 == 0 then Column(i, 4, 1, 14, 8, 13, 6, 2, 11, 15, 12, 9, 7, 3, 10, 5, 0)
      else Column(i, 15, 12, 8, 2, 4, 9, 1, 7, 5, 11, 3, 14, 10, 0, 6, 13)
  }

  function S2(i: bv6): bv4 {
    if i & 0x20 == 0 then
      if i & 0x01 == 0 then Column(i, 15, 1, 8, 14, 6, 11, 3, 4, 9, 7, 2, 13, 12, 0, 5, 10)
      else Column(i, 3, 13, 4, 7, 15, 2, 8, 14, 12, 0, 1, 10, 6, 9, 11, 5)
    else
      if i & 0x01 == 0 then Column(i, 0, 14, 7, 11, 10, 4, 13, 1, 5, 8, 12, 6, 9, 3, 2, 15)
      else Column(i, 13, 8, 10, 1, 3, 15, 4, 2, 11, 6, 7, 12, 0, 5, 14, 9)
  }

  function S3(i: bv6): bv4 {
    if i & 0x20 == 0 then
      if i & 0x01 == 0 then Column(i, 10, 0, 9, 14, 6, 3, 15, 5, 1, 13, 12, 7, 11, 4, 2, 8)
      else Column(i, 13, 7, 0, 9, 3, 4, 6, 10, 2, 8, 5, 14, 12, 11, 15, 1)
    else
      if i & 0x01 == 0 then Column(i, 13, 6, 4, 9, 8, 15, 3, 0, 11, 1, 2, 12, 5, 10, 14, 7)
      else Column(i, 1, 10, 13, 0, 6, 9, 8, 7, 4, 15, 14, 3, 11, 5, 2, 12)
  }

  function S4(i: bv6): bv4 {
    if i & 0x20 == 0 then
      if i & 0x01 == 0 then Column(i, 7, 13, 14, 3, 0, 6, 9, 10, 1, 2, 8, 5, 11, 12, 4, 15)
      else Column(i, 13, 8, 11, 5, 6, 15, 0, 3, 4, 7, 2, 12, 1, 10, 14, 9)
    else
      if i & 0x01 == 0 then Column(i, 10, 6, 9, 0, 12, 11, 7, 13, 15, 1, 3, 14, 5, 2, 8, 4)
      else Column(i, 3, 15, 0, 6, 10, 1, 13, 8, 9, 4, 5, 11, 12, 7, 2, 14)
  }

  function S5(i: bv6): bv4 {
    if i & 0x20 == 0 then
      if i & 0x01 == 0 then Column(i, 2, 12, 4, 1, 7, 10, 11, 6, 8, 5, 3, 15, 13, 0, 14, 9)
      else Column(i, 14, 11, 2, 12, 4, 7, 13, 1, 5, 0, 15, 10, 3, 9, 8, 6)
    else
      if i & 0x01 == 0 then Column(i, 4, 2, 1, 11, 10, 13, 7, 8, 15, 9, 12, 5, 6, 3, 0, 14)
      else Column(i, 11, 8, 12, 7, 1, 14, 2, 13, 6, 15, 0, 9, 10, 4, 5, 3)
  }

  function S6(i: bv6): bv4 {
    if i & 0x20 == 0 then
      if i & 0x01 == 0 then Column(i, 12, 1, 10, 15, 9, 2, 6, 8, 0, 13, 3, 4, 14, 7, 5, 11)
      else Column(i, 10, 15, 4, 2, 7, 12, 9, 5, 6, 1, 13, 14, 0, 11, 3, 8)
    else
      if i & 0x01 == 0 then Column(i, 9, 14, 15, 5, 2, 8, 12, 3, 7, 0, 4, 10, 1, 13, 11, 6)
      else Column(i, 4, 3, 2, 12, 9, 5, 15, 10, 11, 14, 1, 7, 6, 0, 8, 13)
  }

  function S7(i: bv6): bv4 {
    if i & 0x20 == 0 then
      if i & 0x01 == 0 then Column(i, 4, 11, 2, 14, 15, 0, 8, 13, 3, 12, 9, 7, 5, 10, 6, 1)
      else Column(i, 13, 0, 11, 7, 4, 9, 1, 10, 14, 3, 5, 12, 2, 15, 8, 6)
    else
      if i & 0x01 == 0 then Column(i, 1, 4, 11, 13, 12, 3, 7, 14, 10, 15, 6, 8, 0, 5, 9, 2)
      else Column(i, 6, 11, 13, 8, 1, 4, 10, 7, 9, 5, 0, 15, 14, 2, 3, 12)
  }

  function S8(i: bv6): bv4 {
    if i & 0x20 == 0 then
      if i & 0x01 == 0 then Column(i, 13, 2, 8, 4, 6, 15, 11, 1, 10, 9, 3, 14, 5, 0, 12, 7)
      else Column(i, 1, 15, 13, 8, 10, 3, 7, 4, 12, 5, 6, 11, 0, 14, 9, 2)
    else
      if i & 0x01 == 0 then Column(i, 7, 11, 4, 1, 9, 12, 14, 2, 0, 6, 10, 13, 15, 3, 5, 8)
      else Column(i, 2, 1, 14, 7, 4, 10, 8, 13, 15, 12, 9, 0, 3, 5, 6, 11)
  }

  function Placed1(v: bv4): ulong {
    (if v & 8 != 0 then 0x0100_0000 else 0) | (if v & 4 != 0 then 0x0001_0000 else 0)
      | (if v & 2 != 0 then 0x0000_0400 else 0) | (if v & 1 != 0 then 0x0000_0004 else 0)
  }

  lemma Box1Is(i: bv6)
    ensures SB1(i) == Placed1(S1(i)) && Is32(SB1(i))
  {
  }

  function Placed2(v: bv4): ulong {
    (if v & 8 != 0 then 0x0010_0000 else 0) | (if v & 4 != 0 then 0x0000_0020 else 0)
      | (if v & 2 != 0 then 0x8000_0000 else 0) | (if v & 1 != 0 then 0x0000_8000 else 0)
  }

  lemma Box2Is(i: bv6)
    ensures SB2(i) == Placed2(S2(i)) && Is32(SB2(i))
  {
  }

  function Placed3(v: bv4): ulong {
    (if v & 8 != 0 then 0x0000_0200 else 0) | (if v & 4 != 0 then 0x0002_0000 else 0)
      | (if v & 2 != 0 then 0x0000_0008 else 0) | (if v & 1 != 0 then 0x0800_0000 else 0)
  }

  lemma Box3Is(i: bv6)
    ensures SB3(i) == Placed3(S3(i)) && Is32(SB3(i))
  {
  }

  function Placed4(v: bv4): ulong {
    (if v & 8 != 0 then 0x0000_0080 else 0) | (if v & 4 != 0 then 0x0000_2000 else 0)
      | (if v & 2 != 0 then 0x0080_0000 else 0) | (if v & 1 != 0 then 0x0000_0001 else 0)
  }

  lemma Box4Is(i: bv6)
    ensures SB4(i) == Placed4(S4(i)) && Is32(SB4(i))
  {
  }

  function Placed5(v: bv4): ulong {
    (if v & 8 != 0 then 0x0200_0000 else 0) | (if v & 4 != 0 then 0x0008_0000 else 0)
      | (if v & 2 != 0 then 0x0000_0100 else 0) | (if v & 1 != 0 then 0x4000_0000 else 0)
  }

  lemma Box5Is(i: bv6)
    ensures SB5(i) == Placed5(S5(i)) && Is32(SB5(i))
  {
  }

  function Placed6(v: bv4): ulong {
    (if v & 8 != 0 then 0x2000_0000 else 0) | (if v & 4 != 0 then 0x0000_0010 else 0)
      | (if v & 2 != 0 then 0x0040_0000 else 0) | (if v & 1 != 0 then 0x0000_4000 else 0)
  }

  lemma Box6Is(i: bv6)
    ensures SB6(i) == Placed6(S6(i)) && Is32(SB6(i))
  {
  }

  function Placed7(v: bv4): ulong {
    (if v & 8 != 0 then 0x0000_0002 else 0) | (if v & 4 != 0 then 0x0020_0000 else 0)
      | (if v & 2 != 0 then 0x0000_0800 else 0) | (if v & 1 != 0 then 0x0400_0000 else 0)
  }

  lemma Box7Is(i: bv6)
    ensures SB7(i) == Placed7(S7(i)) && Is32(SB7(i))
  {
  }

  function Placed8(v: bv4): ulong {
    (if v & 8 != 0 then 0x1000_0000 else 0) | (if v & 4 != 0 then 0x0000_0040 else 0)
      | (if v & 2 != 0 then 0x0004_0000 else 0) | (if v & 1 != 0 then 0x0000_1000 else 0)
  }

  lemma Box8Is(i: bv6)
    ensures SB8(i) == Placed8(S8(i)) && Is32(SB8(i))
  {
  }

  lemma TablesOk()
    ensures D.BoxesOk(Tables())
  {
    var b := Tables();
    forall i ensures Is32(b.sb1(i)) { Box1Is(i); }
    forall i ensures Is32(b.sb2(i)) { Box2Is(i); }
    forall i ensures Is32(b.sb3(i)) { Box3Is(i); }
    forall i ensures Is32(b.sb4(i)) { Box4Is(i); }
    forall i ensures Is32(b.sb5(i)) { Box5Is(i); }
    forall i ensures Is32(b.sb6(i)) { Box6Is(i); }
    forall i ensures Is32(b.sb7(i)) { Box7Is(i); }
    forall i ensures Is32(b.sb8(i)) { Box8Is(i); }
  }
}
