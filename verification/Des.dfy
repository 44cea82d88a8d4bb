/**
 DES on 64-bit words: the permutation macros and the round macro with arbitrary
 S-box contents, and the library with the key schedule of DesKeys.
 */
module Des {
  import opened Words
  import opened DesKeys
  import F = Feistel
  import D = DesBuffers

  // -------------------------------------------------------- permutations by steps

  /** T = ((X >> n) ^ Y) & mask; Y ^= T; X ^= T << n. */
  function S1(p: Pair): Pair {
    var t := ((p.x >> 4) ^ p.y) & 0x0F0F_0F0F;
    F.Pair(p.x ^ (t << 4), p.y ^ t)
  }

  function S2(p: Pair): Pair {
    var t := ((p.x >> 16) ^ p.y) & 0x0000_FFFF;
    F.Pair(p.x ^ (t << 16), p.y ^ t)
  }

  function S3(p: Pair): Pair {
    var t := ((p.y >> 2) ^ p.x) & 0x3333_3333;
    F.Pair(p.x ^ t, p.y ^ (t << 2))
  }

  function S4(p: Pair): Pair {
    var t := ((p.y >> 8) ^ p.x) & 0x00FF_00FF;
    F.Pair(p.x ^ t, p.y ^ (t << 8))
  }

  function S5(p: Pair): Pair {
    F.Pair(p.x, ((p.y << 1) | (p.y >> 31)) & 0xFFFF_FFFF)
  }

  function S6(p: Pair): Pair {
    var t := (p.x ^ p.y) & 0xAAAA_AAAA;
    F.Pair(p.x ^ t, p.y ^ t)
  }

  function S7(p: Pair): Pair {
    F.Pair(((p.x << 1) | (p.x >> 31)) & 0xFFFF_FFFF, p.y)
  }

  /** The rotations the other way. */
  function R5(p: Pair): Pair {
    F.Pair(p.x, ((p.y << 31) | (p.y >> 1)) & 0xFFFF_FFFF)
  }

  function R7(p: Pair): Pair {
    F.Pair(((p.x << 31) | (p.x >> 1)) & 0xFFFF_FFFF, p.y)
  }

  predicate Inverts(f: Pair -> Pair, g: Pair -> Pair, p: Pair) {
    Ok32(p) ==> Ok32(f(p)) && g(f(p)) == p
  }

  lemma S1Undone(x: ulong, y: ulong)
    requires Is32(x) && Is32(y)
    ensures Ok32(S1(F.Pair(x, y))) && S1(S1(F.Pair(x, y))) == F.Pair(x, y)
  {
  }

  lemma S2Undone(x: ulong, y: ulong)
    requires Is32(x) && Is32(y)
    ensures Ok32(S2(F.Pair(x, y))) && S2(S2(F.Pair(x, y))) == F.Pair(x, y)
  {
  }

  lemma S3Undone(x: ulong, y: ulong)
    requires Is32(x) && Is32(y)
    ensures Ok32(S3(F.Pair(x, y))) && S3(S3(F.Pair(x, y))) == F.Pair(x, y)
  {
  }

  lemma S4Undone(x: ulong, y: ulong)
    requires Is32(x) && Is32(y)
    ensures Ok32(S4(F.Pair(x, y))) && S4(S4(F.Pair(x, y))) == F.Pair(x, y)
  {
  }

  lemma S5Undone(x: ulong, y: ulong)
    requires Is32(x) && Is32(y)
    ensures Ok32(S5(F.Pair(x, y))) && R5(S5(F.Pair(x, y))) == F.Pair(x, y)
  {
  }

  lemma S6Undone(x: ulong, y: ulong)
    requires Is32(x) && Is32(y)
    ensures Ok32(S6(F.Pair(x, y))) && S6(S6(F.Pair(x, y))) == F.Pair(x, y)
  {
  }

  lemma S7Undone(x: ulong, y: ulong)
    requires Is32(x) && Is32(y)
    ensures Ok32(S7(F.Pair(x, y))) && R7(S7(F.Pair(x, y))) == F.Pair(x, y)
  {
  }

  lemma R5Undone(x: ulong, y: ulong)
    requires Is32(x) && Is32(y)
    ensures Ok32(R5(F.Pair(x, y))) && S5(R5(F.Pair(x, y))) == F.Pair(x, y)
  {
  }

  lemma R7Undone(x: ulong, y: ulong)
    requires Is32(x) && Is32(y)
    ensures Ok32(R7(F.Pair(x, y))) && S7(R7(F.Pair(x, y))) == F.Pair(x, y)
  {
  }

  lemma StepsInvert(p: Pair)
    ensures Inverts(S1, S1, p) && Inverts(S2, S2, p) && Inverts(S3, S3, p) && Inverts(S4, S4, p) && Inverts(S6, S6, p)
    ensures Inverts(S5, R5, p) && Inverts(R5, S5, p) && Inverts(S7, R7, p) && Inverts(R7, S7, p)
  {
    if Ok32(p) {
      S1Undone(p.x, p.y);
      S2Undone(p.x, p.y);
      S3Undone(p.x, p.y);
      S4Undone(p.x, p.y);
      S5Undone(p.x, p.y);
      S6Undone(p.x, p.y);
      S7Undone(p.x, p.y);
      R5Undone(p.x, p.y);
      R7Undone(p.x, p.y);
    }
  }

  /** Straight-line code: one step after the other. */
  function Apply<P>(steps: seq<P -> P>, p: P): P {
    if |steps| == 0 then p else steps[|steps| - 1](Apply(steps[..|steps| - 1], p))
  }

  lemma {:induction false} ApplyFirst<P>(f: P -> P, steps: seq<P -> P>, p: P)
    ensures Apply([f] + steps, p) == Apply(steps, f(p))
  {
    if |steps| == 0 {
      assert [f] + steps == [f];
      assert Apply([f][..0], p) == p;
    } else {
      ApplyFirst(f, steps[..|steps| - 1], p);
      assert ([f] + steps)[..|steps|] == [f] + steps[..|steps| - 1];
    }
  }

  ghost predicate StepBack<P(!new)>(ok: P -> bool, f: P -> P, g: P -> P, p: P) {
    ok(p) ==> ok(f(p)) && g(f(p)) == p
  }

  ghost predicate Undoes<P(!new)>(ok: P -> bool, f: P -> P, g: P -> P) {
    forall p :: StepBack(ok, f, g, p)
  }

  /** Undoing the steps last to first undoes the whole. */
  lemma {:induction false} ApplyUndone<P(!new)>(ok: P -> bool, steps: seq<P -> P>, back: seq<P -> P>, p: P)
    requires |steps| == |back| && ok(p)
    requires forall i :: 0 <= i < |steps| ==> Undoes(ok, steps[i], back[|steps| - 1 - i])
    ensures ok(Apply(steps, p)) && Apply(back, Apply(steps, p)) == p
  {
    if |steps| > 0 {
      var n := |steps| - 1;
      var front, rest := steps[..n], back[1..];
      forall i | 0 <= i < n ensures Undoes(ok, front[i], rest[n - 1 - i]) {
        assert Undoes(ok, steps[i], back[n - i]);
      }
      ApplyUndone(ok, front, rest, p);
      var q := Apply(front, p);
      assert Undoes(ok, steps[n], back[0]) && StepBack(ok, steps[n], back[0], q);
      assert back == [back[0]] + rest;
      ApplyFirst(back[0], rest, steps[n](q));
    }
  }

  /** DES_IP and DES_FP. */
  function IP(p: Pair): Pair {
    Apply([S1, S2, S3, S4, S5, S6, S7], p)
  }

  function FP(p: Pair): Pair {
    Apply([R7, S6, R5, S4, S3, S2, S1], p)
  }

  lemma StepsUndo()
    ensures Undoes(Ok32, S1, S1) && Undoes(Ok32, S2, S2) && Undoes(Ok32, S3, S3) && Undoes(Ok32, S4, S4)
    ensures Undoes(Ok32, S6, S6)
    ensures Undoes(Ok32, S5, R5) && Undoes(Ok32, R5, S5) && Undoes(Ok32, S7, R7) && Undoes(Ok32, R7, S7)
  {
    forall p: Pair
      ensures StepBack(Ok32, S1, S1, p) && StepBack(Ok32, S2, S2, p) && StepBack(Ok32, S3, S3, p)
      ensures StepBack(Ok32, S4, S4, p)
      ensures StepBack(Ok32, S6, S6, p) && StepBack(Ok32, S5, R5, p) && StepBack(Ok32, R5, S5, p)
      ensures StepBack(Ok32, S7, R7, p) && StepBack(Ok32, R7, S7, p)
    {
      StepsInvert(p);
    }
  }

  /** On 32-bit halves the two macros are inverse to each other, both ways. */
  lemma PermutationsInverse(p: Pair)
    requires Ok32(p)
    ensures Ok32(IP(p)) && Ok32(FP(p)) && FP(IP(p)) == p && IP(FP(p)) == p
  {
    StepsUndo();
    ApplyUndone(Ok32, [S1, S2, S3, S4, S5, S6, S7], [R7, S6, R5, S4, S3, S2, S1], p);
    ApplyUndone(Ok32, [R7, S6, R5, S4, S3, S2, S1], [S1, S2, S3, S4, S5, S6, S7], p);
  }

  // ----------------------------------------------------------------------- rounds

  /** SB1 .. SB8, with any contents. */
  datatype Boxes = Boxes(sb1: bv6 -> ulong, sb2: bv6 -> ulong, sb3: bv6 -> ulong, sb4: bv6 -> ulong,
                         sb5: bv6 -> ulong, sb6: bv6 -> ulong, sb7: bv6 -> ulong, sb8: bv6 -> ulong)

  ghost predicate BoxOk(sb: bv6 -> ulong) {
    forall i :: Is32(sb(i))
  }

  ghost predicate BoxesOk(b: Boxes) {
    && BoxOk(b.sb1) && BoxOk(b.sb2) && BoxOk(b.sb3) && BoxOk(b.sb4)
    && BoxOk(b.sb5) && BoxOk(b.sb6) && BoxOk(b.sb7) && BoxOk(b.sb8)
  }

  function Six(t: ulong): bv6 {
    (t & 0x3F) as bv6
  }

  /** X rotated right by four. It is not cut to 32 bits: the bits above are never looked at. */
  function Rotr4(x: ulong): ulong {
    (x << 28) | (x >> 4)
  }

  function Xor(x: ulong, y: ulong): ulong { x ^ y }

  /** Four words added up from the left. */
  function Four<W>(add: (W, W) -> W, x: W, y: W, z: W, w: W): W {
    add(add(add(x, y), z), w)
  }

  function EvenBoxes(b: Boxes, t: ulong): ulong {
    Four(Xor, b.sb8(Six(t)), b.sb6(Six(t >> 8)), b.sb4(Six(t >> 16)), b.sb2(Six(t >> 24)))
  }

  function OddBoxes(b: Boxes, t: ulong): ulong {
    Four(Xor, b.sb7(Six(t)), b.sb5(Six(t >> 8)), b.sb3(Six(t >> 16)), b.sb1(Six(t >> 24)))
  }

  /** The two halves of DES_ROUND. */
  function First(b: Boxes, k: ulong, x: ulong): ulong {
    EvenBoxes(b, k ^ x)
  }

  function Second(b: Boxes, k: ulong, x: ulong): ulong {
    OddBoxes(b, k ^ Rotr4(x))
  }

  lemma Xor32(x: ulong, y: ulong)
    requires Is32(x) && Is32(y)
    ensures Is32(x ^ y)
  {
  }

  ghost predicate Keeps<W>(ok: W -> bool, add: (W, W) -> W, x: W, y: W) {
    ok(x) && ok(y) ==> ok(add(x, y))
  }

  lemma FourOk<W(!new)>(ok: W -> bool, add: (W, W) -> W, x: W, y: W, z: W, w: W)
    requires ok(x) && ok(y) && ok(z) && ok(w) && forall x, y :: Keeps(ok, add, x, y)
    ensures ok(Four(add, x, y, z, w))
  {
    assert Keeps(ok, add, x, y) && Keeps(ok, add, add(x, y), z) && Keeps(ok, add, add(add(x, y), z), w);
  }

  lemma Four32(x: ulong, y: ulong, z: ulong, w: ulong)
    requires Is32(x) && Is32(y) && Is32(z) && Is32(w)
    ensures Is32(Four(Xor, x, y, z, w))
  {
    forall x, y ensures Keeps(Is32, Xor, x, y) {
      if Is32(x) && Is32(y) { Xor32(x, y); }
    }
    FourOk(Is32, Xor, x, y, z, w);
  }

  lemma BoxesStayOk(b: Boxes, t: ulong)
    requires BoxesOk(b)
    ensures Is32(EvenBoxes(b, t)) && Is32(OddBoxes(b, t))
  {
    Four32(b.sb8(Six(t)), b.sb6(Six(t >> 8)), b.sb4(Six(t >> 16)), b.sb2(Six(t >> 24)));
    Four32(b.sb7(Six(t)), b.sb5(Six(t >> 8)), b.sb3(Six(t >> 16)), b.sb1(Six(t >> 24)));
  }

  lemma HalvesOk(b: Boxes, k0: ulong, k1: ulong, x: ulong)
    requires BoxesOk(b)
    ensures Is32(First(b, k0, x)) && Is32(Second(b, k1, x))
  {
    BoxesStayOk(b, k0 ^ x);
    BoxesStayOk(b, k1 ^ Rotr4(x));
  }

  function CodeOf(b: Boxes): F.Code<ulong> {
    F.Code(Is32, Xor, (k, x) => First(b, k, x), (k, x) => Second(b, k, x), IP, FP)
  }

  lemma CodeStaysOk(b: Boxes, k0: ulong, k1: ulong, x: ulong, y: ulong)
    requires BoxesOk(b)
    ensures F.StaysOk(CodeOf(b), k0, k1, x, y)
  {
    if Is32(x) && Is32(y) {
      HalvesOk(b, k0, k1, x);
      Xor32(y, First(b, k0, x));
      Xor32(y ^ First(b, k0, x), Second(b, k1, x));
    }
  }

  lemma XorTwice(y: ulong, a: ulong, b: ulong)
    ensures Xor(Xor(Xor(Xor(y, a), b), a), b) == y
  {
  }

  /** The macros satisfy what the scheme needs, for all 32-bit S-box contents. */
  lemma CodeLawful(b: Boxes)
    requires BoxesOk(b)
    ensures F.Lawful(CodeOf(b))
  {
    var m := CodeOf(b);
    forall k0, k1, x, y ensures F.StaysOk(m, k0, k1, x, y) { CodeStaysOk(b, k0, k1, x, y); }
    forall y, p, q ensures F.Cancels(m, y, p, q) { XorTwice(y, p, q); }
    forall p ensures F.Permutes(m, p) {
      if Ok32(p) { PermutationsInverse(p); }
    }
  }

  // -------------------------------------------------------------------- the library

  function Store(p: Pair): (s: seq<byte>)
    ensures |s| == 8
  {
    [Byte0(p.x), Byte1(p.x), Byte2(p.x), Byte3(p.x), Byte0(p.y), Byte1(p.y), Byte2(p.y), Byte3(p.y)]
  }

  function IoOf(): D.Io<ulong, byte> {
    D.Io(Load, Store, MainKs, 0, 0)
  }

  lemma StoreLoad(s: seq<byte>)
    requires |s| == 8
    ensures Store(Load(s)) == s && Ok32(Load(s))
  {
    PackBytes(s[0], s[1], s[2], s[3]);
    PackBytes(s[4], s[5], s[6], s[7]);
  }

  lemma LoadStore(p: Pair)
    requires Ok32(p)
    ensures Load(Store(p)) == p
  {
    PackUnpack(p.x);
    PackUnpack(p.y);
  }

  lemma IoFaithful(b: Boxes)
    requires BoxesOk(b)
    ensures D.Faithful(CodeOf(b), IoOf())
  {
    var m, io := CodeOf(b), IoOf();
    CodeLawful(b);
    forall s ensures D.Loads(m, io, s) {
      if |s| == 8 { StoreLoad(s); }
    }
    forall p ensures D.Stores(m, io, p) {
      if Ok32(p) { LoadStore(p); }
    }
  }

  /** lib_des_decrypt after lib_des_encrypt, and lib_des3_decrypt after
      lib_des3_encrypt, for every key and any S-box contents. */
  method LibRoundTrip(b: Boxes, triple: bool, plain: array<byte>, cipher: array<byte>, back: array<byte>, inlen: nat,
                      key: seq<byte>)
    requires BoxesOk(b) && |key| == (if triple then 16 else 8) && inlen <= 1024
    requires inlen <= plain.Length && inlen <= cipher.Length && inlen <= back.Length
    modifies cipher, back
    ensures forall i :: 0 <= i < inlen / 8 ==> D.BlockAt(back[..], i) == D.BlockAt(old(plain[..]), i)
    ensures inlen % 8 == 0 ==> back[..inlen] == old(plain[..inlen])
  {
    IoFaithful(b);
    D.RoundTrip(CodeOf(b), IoOf(), triple, plain, cipher, back, inlen, key);
  }
}
