/**
 aes_gen_tables: the S-boxes and the round tables of AES, computed from tables
 of powers and logarithms over GF(2^8).
 */
module AesTables {
  import opened Words
  import C = AesCipher
  import F = AesField

  type Col = C.Col<byte>

  function Word(c: Col): ulong {
    Pack(c.a, c.b, c.c, c.d)
  }

  function Index(x: byte): (r: nat)
    ensures r < 256
  {
    x as int
  }

  function Byte(i: nat): byte
    requires i < 256
  {
    i as bv8
  }

  lemma CastBack(i: int)
    requires 0 <= i < 256
    ensures (i as bv8) as int == i
  {
    if i < 16 {
    } else if i < 32 {
    } else if i < 64 {
    } else if i < 128 {
    }
  }

  lemma IndexByte(i: nat)
    requires i < 256
    ensures Index(Byte(i)) == i
  {
    CastBack(i);
  }

  lemma ByteIndex(x: byte)
    ensures Byte(Index(x)) == x
  {
  }

  function At<T>(s: seq<T>, x: byte): T
    requires |s| == 256
  {
    s[Index(x)]
  }

  datatype Tables = Tables(fsb: seq<ulong>, rsb: seq<ulong>, ft: Four, rt: Four, rcon: seq<ulong>)

  /** A round table and its three rotations. */
  datatype Four = Four(t0: seq<ulong>, t1: seq<ulong>, t2: seq<ulong>, t3: seq<ulong>)

  predicate Sized(q: Four) {
    |q.t0| == 256 && |q.t1| == 256 && |q.t2| == 256 && |q.t3| == 256
  }

  predicate Holds(q: Four, x: byte, c0: Col, c1: Col, c2: Col, c3: Col)
    requires Sized(q)
  {
    At(q.t0, x) == Word(c0) && At(q.t1, x) == Word(c1) && At(q.t2, x) == Word(c2) && At(q.t3, x) == Word(c3)
  }

  /** The forward tables hold SubBytes followed by the contribution of one byte to
      MixColumns. */
  predicate Forward(q: Four, x: byte)
    requires Sized(q)
  {
    var s := F.SBox(x);
    Holds(q, x, C.Mix0(F.Aes(), s), C.Mix1(F.Aes(), s), C.Mix2(F.Aes(), s), C.Mix3(F.Aes(), s))
  }

  predicate Contributes(q: Four, x: byte, s: byte)
    requires Sized(q)
  {
    Holds(q, x, C.Unmix0(F.Aes(), s), C.Unmix1(F.Aes(), s), C.Unmix2(F.Aes(), s), C.Unmix3(F.Aes(), s))
  }

  /** The reverse tables hold InvSubBytes followed by the contribution of one byte to
      InvMixColumns. */
  predicate Reverse(q: Four, x: byte)
    requires Sized(q)
  {
    Contributes(q, x, F.InvSBox(x))
  }

  predicate Substitutes(s: seq<ulong>, x: byte, y: byte)
    requires |s| == 256
  {
    At(s, x) == y as ulong
  }

  /** Rcon of section 5.2 of FIPS 197, counted from 0. */
  function Rcon(i: nat): Col {
    C.Col(F.Doubled(i), 0, 0, 0)
  }

  ghost predicate Boxes(fsb: seq<ulong>, rsb: seq<ulong>) {
    && |fsb| == 256 && |rsb| == 256
    && (forall x: byte :: Substitutes(fsb, x, F.SBox(x)))
    && (forall x: byte :: Substitutes(rsb, x, F.InvSBox(x)))
  }

  /** The tables aes_gen_tables is to produce. */
  ghost predicate Generated(t: Tables) {
    && Boxes(t.fsb, t.rsb) && Sized(t.ft) && Sized(t.rt) && ConstantsUpTo(t.rcon, 10)
    && (forall x: byte :: Forward(t.ft, x))
    && (forall x: byte :: Reverse(t.rt, x))
  }

  // ------------------------------------------------------- powers and logarithms

  /** What the loop leaves in log: since Power(255) == 1, the entry of 1 is
      overwritten by 255. */
  function LogEntry(j: nat, n: nat): byte
    requires j < 256
  {
    Byte(if j == 0 && n == 256 then 255 else j)
  }

  predicate Powers(pow: seq<byte>, n: nat) {
    |pow| == 256 && n <= 256 && forall j :: 0 <= j < n ==> pow[j] == F.Power(j)
  }

  predicate Logs(log: seq<byte>, n: nat) {
    |log| == 256 && n <= 256 && forall j :: 0 <= j < n ==> At(log, F.Power(j)) == LogEntry(j, n)
  }

  lemma AtUpdate<T>(s: seq<T>, x: byte, v: T, y: byte)
    requires |s| == 256
    ensures At(s[Index(x) := v], y) == if x == y then v else At(s, y)
  {
    ByteIndex(x);
    ByteIndex(y);
  }

  lemma PowersDiffer(j: nat, n: nat)
    requires j < n < 256 && (j != 0 || n != 255)
    ensures F.Power(j) != F.Power(n)
  {
    F.LogOfPower(j);
    if n == 255 {
      F.PowerPeriod(0);
      F.LogOfPower(0);
    } else {
      F.LogOfPower(n);
    }
  }

  lemma LogsEntry(log: seq<byte>, n: nat, log': seq<byte>, j: nat)
    requires Logs(log, n) && j <= n < 256 && log' == log[Index(F.Power(n)) := Byte(n)]
    ensures At(log', F.Power(j)) == LogEntry(j, n + 1)
  {
    AtUpdate(log, F.Power(n), Byte(n), F.Power(j));
    if j == 0 && n == 255 {
      F.PowerPeriod(0);
    } else if j < n {
      PowersDiffer(j, n);
    }
  }

  lemma LogsStep(log: seq<byte>, n: nat, log': seq<byte>)
    requires Logs(log, n) && n < 256 && log' == log[Index(F.Power(n)) := Byte(n)]
    ensures Logs(log', n + 1)
  {
    forall j | 0 <= j < n + 1 ensures At(log', F.Power(j)) == LogEntry(j, n + 1) {
      LogsEntry(log, n, log', j);
    }
  }

  method PutPower(p: array<byte>, l: array<byte>, i: nat, x: byte)
    requires p != l && p.Length == l.Length == 256 && i < 256 && x == F.Power(i) && Powers(p[..], i) && Logs(l[..], i)
    modifies p, l
    ensures Powers(p[..], i + 1) && Logs(l[..], i + 1)
  {
    ghost var before := l[..];
    p[i] := x;
    l[Index(x)] := Byte(i);
    assert l[..] == before[Index(x) := Byte(i)];
    LogsStep(before, i, l[..]);
  }

  method PowersAndLogs() returns (pow: seq<byte>, log: seq<byte>)
    ensures Powers(pow, 256) && Logs(log, 256)
  {
    var p, l := new byte[256], new byte[256];
    var x: byte := 1;
    for i := 0 to 256
      invariant x == F.Power(i)
      invariant Powers(p[..], i) && Logs(l[..], i)
    {
      PutPower(p, l, i, x);
      x := x ^ F.XTime(x);
    }
    pow, log := p[..], l[..];
  }

  /** The entry of a nonzero byte is its logarithm, except for that of 1. */
  lemma LogAt(log: seq<byte>, x: byte)
    requires Logs(log, 256) && x != 0
    ensures Index(At(log, x)) == if x == 1 then 255 else F.Log(x)
  {
    F.LogRange(x);
    F.PowerOfLog(x);
    F.LogOfPower(0);
    IndexByte(F.Log(x));
    IndexByte(255);
  }

  /** pow[255 - log[x]] is the inverse. */
  lemma InverseAt(pow: seq<byte>, log: seq<byte>, x: byte)
    requires Powers(pow, 256) && Logs(log, 256) && x != 0
    ensures pow[255 - Index(At(log, x))] == F.Inverse(x)
  {
    LogAt(log, x);
    F.LogRange(x);
    F.LogOfPower(0);
    F.PowerPeriod(0);
  }

  /** MUL on the tables. */
  function MulAt(pow: seq<byte>, log: seq<byte>, x: byte, y: byte): byte
    requires |pow| == 256 && |log| == 256
  {
    if x != 0 && y != 0 then pow[Wrapped(Index(At(log, x)) + Index(At(log, y)))] else 0
  }

  function Wrapped(n: nat): (r: nat)
    ensures r < 255
  {
    n % 255
  }

  lemma WrappedLogs(m: nat, n: nat, m': nat, n': nat)
    requires m < 255 && n < 255 && (m' == m || (m == 0 && m' == 255)) && (n' == n || (n == 0 && n' == 255))
    ensures Wrapped(m' + n') == Wrapped(m + n)
  {
  }

  lemma MulAtIsMul(pow: seq<byte>, log: seq<byte>, x: byte, y: byte)
    requires Powers(pow, 256) && Logs(log, 256)
    ensures MulAt(pow, log, x, y) == F.Mul(x, y)
  {
    if x != 0 && y != 0 {
      LogAt(log, x);
      LogAt(log, y);
      F.LogRange(x);
      F.LogRange(y);
      F.LogOfPower(0);
      WrappedLogs(F.Log(x), F.Log(y), Index(At(log, x)), Index(At(log, y)));
    }
  }

  // ------------------------------------------------------------------- S-boxes

  predicate Filled(fsb: seq<ulong>, rsb: seq<ulong>, n: nat) {
    && |fsb| == 256 && |rsb| == 256 && n <= 256
    && (forall j :: 0 <= j < n ==> Substitutes(fsb, Byte(j), F.SBox(Byte(j))))
    && (forall j :: 0 <= j < n ==> Substitutes(rsb, F.SBox(Byte(j)), Byte(j)))
  }

  lemma BoxesDiffer(i: nat, j: nat)
    requires i < 256 && j < 256 && i != j
    ensures Byte(i) != Byte(j) && F.SBox(Byte(i)) != F.SBox(Byte(j))
  {
    IndexByte(i);
    IndexByte(j);
    F.SBoxInverse(Byte(i));
    F.SBoxInverse(Byte(j));
  }

  lemma FilledStep(fsb: seq<ulong>, rsb: seq<ulong>, n: nat, x: byte, fsb': seq<ulong>, rsb': seq<ulong>)
    requires Filled(fsb, rsb, n) && n < 256 && x == F.SBox(Byte(n))
    requires fsb' == fsb[Index(Byte(n)) := x as ulong] && rsb' == rsb[Index(x) := Byte(n) as ulong]
    ensures Filled(fsb', rsb', n + 1)
  {
    forall j | 0 <= j < n + 1
      ensures Substitutes(fsb', Byte(j), F.SBox(Byte(j))) && Substitutes(rsb', F.SBox(Byte(j)), Byte(j))
    {
      if j < n { BoxesDiffer(j, n); }
      AtUpdate(fsb, Byte(n), x as ulong, Byte(j));
      AtUpdate(rsb, x, Byte(n) as ulong, F.SBox(Byte(j)));
    }
  }

  lemma FilledIsBoxes(fsb: seq<ulong>, rsb: seq<ulong>)
    requires Filled(fsb, rsb, 256)
    ensures Boxes(fsb, rsb)
  {
    forall x: byte ensures Substitutes(fsb, x, F.SBox(x)) && Substitutes(rsb, x, F.InvSBox(x)) {
      ByteIndex(x);
      F.SBoxInverse(x);
      ByteIndex(F.InvSBox(x));
      assert Substitutes(fsb, Byte(Index(x)), F.SBox(Byte(Index(x))));
      assert Substitutes(rsb, F.SBox(Byte(Index(F.InvSBox(x)))), Byte(Index(F.InvSBox(x))));
    }
  }

  /** The four rotate-and-add steps are the affine transformation. */
  method AffineSteps(b: byte) returns (x: byte)
    ensures x == F.Affine(b)
  {
    x := b;
    var y := F.Rotl1(x);
    x, y := x ^ y, F.Rotl1(y);
    x, y := x ^ y, F.Rotl1(y);
    x, y := x ^ y, F.Rotl1(y);
    x := x ^ (y ^ 0x63);
  }

  lemma FilledStart(fsb: seq<ulong>, rsb: seq<ulong>)
    requires |fsb| == |rsb| == 256 && fsb[0] == 0x63 && rsb[0x63] == 0
    ensures Filled(fsb, rsb, 1)
  {
    assert F.SBox(0) == 0x63 && Byte(0) == 0 && Index(0x63) == 0x63;
  }

  lemma BoxEntry(pow: seq<byte>, log: seq<byte>, i: nat, x: byte)
    requires Powers(pow, 256) && Logs(log, 256) && 0 < i < 256 && x == F.Affine(pow[255 - Index(log[i])])
    ensures x == F.SBox(Byte(i))
  {
    IndexByte(i);
    InverseAt(pow, log, Byte(i));
  }

  method StoreBox(f: array<ulong>, r: array<ulong>, i: nat, x: byte)
    requires f != r && f.Length == r.Length == 256 && i < 256
    requires Filled(f[..], r[..], i) && x == F.SBox(Byte(i))
    modifies f, r
    ensures Filled(f[..], r[..], i + 1)
  {
    ghost var f0, r0 := f[..], r[..];
    IndexByte(i);
    var y: ulong, z: ulong := x as ulong, Byte(i) as ulong;
    f[i] := y;
    r[Index(x)] := z;
    assert f[..] == f0[Index(Byte(i)) := y];
    assert r[..] == r0[Index(x) := z];
    FilledStep(f0, r0, i, x, f[..], r[..]);
  }

  method GenBoxes(pow: seq<byte>, log: seq<byte>) returns (fsb: seq<ulong>, rsb: seq<ulong>)
    requires Powers(pow, 256) && Logs(log, 256)
    ensures Boxes(fsb, rsb)
  {
    var f, r := new ulong[256], new ulong[256];
    f[0x00] := 0x63;
    r[0x63] := 0x00;
    FilledStart(f[..], r[..]);
    for i := 1 to 256
      invariant Filled(f[..], r[..], i)
    {
      var x := AffineSteps(pow[255 - Index(log[i])]);
      BoxEntry(pow, log, i, x);
      StoreBox(f, r, i, x);
    }
    fsb, rsb := f[..], r[..];
    FilledIsBoxes(fsb, rsb);
  }

  predicate ConstantsUpTo(rcon: seq<ulong>, n: nat) {
    |rcon| == 10 && n <= 10 && forall i :: 0 <= i < n ==> rcon[i] == Word(Rcon(i))
  }

  lemma ConstantsStep(rcon: seq<ulong>, n: nat, x: byte, rcon': seq<ulong>)
    requires ConstantsUpTo(rcon, n) && n < 10 && x == F.Doubled(n) && rcon' == rcon[n := (x as ulong) << 24]
    ensures ConstantsUpTo(rcon', n + 1)
  {
    TopByte(x);
  }

  lemma TopByte(x: byte)
    ensures (x as ulong) << 24 == Pack(x, 0, 0, 0)
  {
  }

  method GenConstants() returns (rcon: seq<ulong>)
    ensures ConstantsUpTo(rcon, 10)
  {
    var c := new ulong[10];
    var x: byte := 1;
    for i := 0 to 10
      invariant x == F.Doubled(i) && ConstantsUpTo(c[..], i)
    {
      ghost var before := c[..];
      c[i] := (x as ulong) << 24;
      ConstantsStep(before, i, x, c[..]);
      x := F.XTime(x);
    }
    rcon := c[..];
  }

  // --------------------------------------------------------------- round tables

  function Rotr8(x: ulong): ulong {
    ((x << 24) & 0xFFFF_FFFF) | ((x & 0xFFFF_FFFF) >> 8)
  }

  /** Four bytes, least significant first, as the table code combines them. */
  function Combine(d: byte, c: byte, b: byte, a: byte): ulong {
    ((d as ulong) ^ ((c as ulong) << 8) ^ ((b as ulong) << 16) ^ ((a as ulong) << 24)) & 0xFFFF_FFFF
  }

  lemma CombineIsPack(a: byte, b: byte, c: byte, d: byte)
    ensures Combine(d, c, b, a) == Pack(a, b, c, d)
  {
  }

  lemma Rotr8Pack(a: byte, b: byte, c: byte, d: byte)
    ensures Rotr8(Pack(a, b, c, d)) == Pack(d, a, b, c)
  {
  }

  function Turn(c: Col): Col {
    C.Col(c.d, c.a, c.b, c.c)
  }

  lemma Rotr8Word(c: Col)
    ensures Rotr8(Word(c)) == Word(Turn(c))
  {
    Rotr8Pack(c.a, c.b, c.c, c.d);
  }

  /** A column and its rotations, as the loop stores them at x. */
  predicate Stored(q: Four, x: byte, c: Col)
    requires Sized(q)
  {
    Holds(q, x, c, Turn(c), Turn(Turn(c)), Turn(Turn(Turn(c))))
  }

  lemma RotationsMix(s: byte)
    ensures Turn(C.Mix0(F.Aes(), s)) == C.Mix1(F.Aes(), s) && Turn(C.Mix1(F.Aes(), s)) == C.Mix2(F.Aes(), s)
    ensures Turn(C.Mix2(F.Aes(), s)) == C.Mix3(F.Aes(), s)
    ensures Turn(C.Unmix0(F.Aes(), s)) == C.Unmix1(F.Aes(), s) && Turn(C.Unmix1(F.Aes(), s)) == C.Unmix2(F.Aes(), s)
    ensures Turn(C.Unmix2(F.Aes(), s)) == C.Unmix3(F.Aes(), s)
  {
  }

  predicate TableOf(q: Four, col: byte -> Col, n: nat) {
    Sized(q) && n <= 256 && forall j :: 0 <= j < n ==> Stored(q, Byte(j), col(Byte(j)))
  }

  function Put(q: Four, i: nat, w: ulong): Four
    requires Sized(q) && i < 256
  {
    var w1 := Rotr8(w);
    var w2 := Rotr8(w1);
    Four(q.t0[i := w], q.t1[i := w1], q.t2[i := w2], q.t3[i := Rotr8(w2)])
  }

  lemma TableStep(q: Four, col: byte -> Col, n: nat, w: ulong)
    requires TableOf(q, col, n) && n < 256 && w == Word(col(Byte(n)))
    ensures TableOf(Put(q, n, w), col, n + 1)
  {
    var c := col(Byte(n));
    Rotr8Word(c);
    Rotr8Word(Turn(c));
    Rotr8Word(Turn(Turn(c)));
    var q' := Put(q, n, w);
    IndexByte(n);
    forall j | 0 <= j < n + 1 ensures Stored(q', Byte(j), col(Byte(j))) {
      IndexByte(j);
      if j < n { assert Stored(q, Byte(j), col(Byte(j))); }
    }
  }

  function ForwardCol(x: byte): Col {
    C.Mix0(F.Aes(), F.SBox(x))
  }

  function ReverseCol(x: byte): Col {
    C.Unmix0(F.Aes(), F.InvSBox(x))
  }

  lemma TablesDone(ft: Four, rt: Four)
    requires TableOf(ft, ForwardCol, 256) && TableOf(rt, ReverseCol, 256)
    ensures forall x: byte :: Forward(ft, x)
    ensures forall x: byte :: Reverse(rt, x)
  {
    forall x: byte ensures Forward(ft, x) && Reverse(rt, x) {
      ByteIndex(x);
      assert Stored(ft, Byte(Index(x)), ForwardCol(Byte(Index(x))));
      assert Stored(rt, Byte(Index(x)), ReverseCol(Byte(Index(x))));
      RotationsMix(F.SBox(x));
      RotationsMix(F.InvSBox(x));
    }
  }

  lemma LowByte(x: byte)
    ensures Low(x as ulong) == x
  {
  }

  lemma BoxBytes(fsb: seq<ulong>, rsb: seq<ulong>, i: nat)
    requires Boxes(fsb, rsb) && i < 256
    ensures Low(fsb[i]) == F.SBox(Byte(i)) && Low(rsb[i]) == F.InvSBox(Byte(i))
  {
    IndexByte(i);
    assert Substitutes(fsb, Byte(i), F.SBox(Byte(i))) && Substitutes(rsb, Byte(i), F.InvSBox(Byte(i)));
    LowByte(F.SBox(Byte(i)));
    LowByte(F.InvSBox(Byte(i)));
  }

  function ForwardWord(x: byte): ulong {
    var y := F.XTime(x);
    Combine(x ^ y, x, x, y)
  }

  lemma ForwardWordIs(x: byte)
    ensures ForwardWord(x) == Word(C.Mix0(F.Aes(), x))
  {
    CombineIsPack(F.XTime(x), x, x, F.Triple(x));
  }

  function ReverseWord(pow: seq<byte>, log: seq<byte>, y: byte): ulong
    requires |pow| == 256 && |log| == 256
  {
    Combine(MulAt(pow, log, 0x0B, y), MulAt(pow, log, 0x0D, y), MulAt(pow, log, 0x09, y), MulAt(pow, log, 0x0E, y))
  }

  lemma ReverseWordIs(pow: seq<byte>, log: seq<byte>, y: byte)
    requires Powers(pow, 256) && Logs(log, 256)
    ensures ReverseWord(pow, log, y) == Word(C.Unmix0(F.Aes(), y))
  {
    MulAtIsMul(pow, log, 0x0B, y);
    MulAtIsMul(pow, log, 0x0D, y);
    MulAtIsMul(pow, log, 0x09, y);
    MulAtIsMul(pow, log, 0x0E, y);
    F.MulIsBy(y);
    CombineIsPack(F.By14(y), F.By9(y), F.By13(y), F.By11(y));
  }

  method GenRoundTables(pow: seq<byte>, log: seq<byte>, fsb: seq<ulong>, rsb: seq<ulong>) returns (ft: Four, rt: Four)
    requires Powers(pow, 256) && Logs(log, 256) && Boxes(fsb, rsb)
    ensures Sized(ft) && Sized(rt)
    ensures forall x: byte :: Forward(ft, x)
    ensures forall x: byte :: Reverse(rt, x)
  {
    var blank := seq(256, _ => 0);
    ft, rt := Four(blank, blank, blank, blank), Four(blank, blank, blank, blank);
    for i := 0 to 256
      invariant TableOf(ft, ForwardCol, i) && TableOf(rt, ReverseCol, i)
    {
      BoxBytes(fsb, rsb, i);
      var x, y := Low(fsb[i]), Low(rsb[i]);
      ForwardWordIs(x);
      TableStep(ft, ForwardCol, i, ForwardWord(x));
      ReverseWordIs(pow, log, y);
      TableStep(rt, ReverseCol, i, ReverseWord(pow, log, y));
      ft, rt := Put(ft, i, ForwardWord(x)), Put(rt, i, ReverseWord(pow, log, y));
    }
    TablesDone(ft, rt);
  }

  /** aes_gen_tables. */
  method GenTables() returns (t: Tables)
    ensures Generated(t)
    ensures forall x: byte :: F.IsSBoxOf(x, Low(At(t.fsb, x)))
  {
    var pow, log := PowersAndLogs();
    var rcon := GenConstants();
    var fsb, rsb := GenBoxes(pow, log);
    var ft, rt := GenRoundTables(pow, log, fsb, rsb);
    t := Tables(fsb, rsb, ft, rt, rcon);
    forall x: byte ensures F.IsSBoxOf(x, Low(At(t.fsb, x))) { EntryIsFips(fsb, rsb, x); }
  }

  lemma EntryIsFips(fsb: seq<ulong>, rsb: seq<ulong>, x: byte)
    requires Boxes(fsb, rsb)
    ensures F.IsSBoxOf(x, Low(At(fsb, x)))
  {
    assert Substitutes(fsb, x, F.SBox(x));
    LowByte(F.SBox(x));
    F.SBoxIsFips(x);
  }
}
