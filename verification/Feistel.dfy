/**
 The scheme shared by des_crypt and des3_crypt: a Feistel network between an
 initial permutation and its inverse. Words, round halves and permutations are
 parameters; `Des` gives the 64-bit ones.
 */
module Feistel {

  /** The halves X and Y. */
  datatype Pair<W> = Pair(x: W, y: W)

  /** DES_ROUND(X, Y) is Y ^= first(SK[0], X); Y ^= second(SK[1], X). */
  datatype Code<!W> = Code(ok: W -> bool, xor: (W, W) -> W, first: (W, W) -> W, second: (W, W) -> W,
                           ip: Pair<W> -> Pair<W>, fp: Pair<W> -> Pair<W>)

  function Round<W>(m: Code<W>, k0: W, k1: W, x: W, y: W): W {
    m.xor(m.xor(y, m.first(k0, x)), m.second(k1, x))
  }

  predicate Ok<W>(m: Code<W>, p: Pair<W>) {
    m.ok(p.x) && m.ok(p.y)
  }

  function Swap<W>(p: Pair<W>): Pair<W> {
    Pair(p.y, p.x)
  }

  ghost predicate StaysOk<W>(m: Code<W>, k0: W, k1: W, x: W, y: W) {
    m.ok(x) && m.ok(y) ==> m.ok(Round(m, k0, k1, x, y))
  }

  ghost predicate Cancels<W>(m: Code<W>, y: W, a: W, b: W) {
    m.xor(m.xor(m.xor(m.xor(y, a), b), a), b) == y
  }

  ghost predicate Permutes<W>(m: Code<W>, p: Pair<W>) {
    Ok(m, p) ==> Ok(m, m.ip(p)) && Ok(m, m.fp(p)) && m.fp(m.ip(p)) == p && m.ip(m.fp(p)) == p
  }

  /** Nothing is asked of the contents of the S-boxes but that results stay words. */
  ghost predicate Lawful<W(!new)>(m: Code<W>) {
    && (forall k0, k1, x, y :: StaysOk(m, k0, k1, x, y))
    && (forall y, a, b :: Cancels(m, y, a, b))
    && (forall p :: Permutes(m, p))
  }

  // ------------------------------------------------------------- plain Feistel

  /** One round of FIPS 46-3: L' = R, R' = L xor f(R, K). */
  function Step<W>(m: Code<W>, k0: W, k1: W, p: Pair<W>): Pair<W> {
    Pair(p.y, Round(m, k0, k1, p.y, p.x))
  }

  function Run<W>(m: Code<W>, sk: seq<W>, n: nat, p: Pair<W>): Pair<W>
    requires 2 * n <= |sk|
  {
    if n == 0 then p else Step(m, sk[2 * n - 2], sk[2 * n - 1], Run(m, sk, n - 1, p))
  }

  /** The subkeys in reverse, two by two. */
  function Reversed<W>(sk: seq<W>): (r: seq<W>)
    requires |sk| % 2 == 0
    ensures |r| == |sk|
  {
    seq(|sk|, i requires 0 <= i < |sk| => if i % 2 == 0 then sk[|sk| - 2 - i] else sk[|sk| - i])
  }

  lemma ReversedTwice<W>(sk: seq<W>)
    requires |sk| % 2 == 0
    ensures Reversed(Reversed(sk)) == sk
  {
  }

  lemma ReversedAt<W>(sk: seq<W>, i: nat)
    requires |sk| % 2 == 0 && 2 * i + 1 < |sk|
    ensures Reversed(sk)[2 * i] == sk[|sk| - 2 - 2 * i] && Reversed(sk)[2 * i + 1] == sk[|sk| - 1 - 2 * i]
  {
  }

  lemma {:induction false} RunOk<W(!new)>(m: Code<W>, sk: seq<W>, n: nat, p: Pair<W>)
    requires Lawful(m) && 2 * n <= |sk| && Ok(m, p)
    ensures Ok(m, Run(m, sk, n, p))
  {
    if n > 0 {
      RunOk(m, sk, n - 1, p);
      var q := Run(m, sk, n - 1, p);
      assert StaysOk(m, sk[2 * n - 2], sk[2 * n - 1], q.y, q.x);
    }
  }

  lemma RunNext<W>(m: Code<W>, sk: seq<W>, n: nat, p: Pair<W>, k0: W, k1: W)
    requires 0 < n && 2 * n <= |sk| && k0 == sk[2 * n - 2] && k1 == sk[2 * n - 1]
    ensures Run(m, sk, n, p) == Step(m, k0, k1, Run(m, sk, n - 1, p))
  {
  }

  /** A round undoes itself on the swapped halves. */
  lemma StepUndone<W(!new)>(m: Code<W>, k0: W, k1: W, p: Pair<W>)
    requires Lawful(m)
    ensures Step(m, k0, k1, Swap(Step(m, k0, k1, p))) == Swap(p)
  {
    assert Cancels(m, p.x, m.first(k0, p.y), m.second(k1, p.y));
  }

  lemma BackStep<W(!new)>(m: Code<W>, sk: seq<W>, rev: seq<W>, i: nat, j: nat, p: Pair<W>, s: Pair<W>)
    requires Lawful(m) && 2 * i + 2 <= |sk| && 0 < j && 2 * j <= |rev|
    requires rev[2 * j - 2] == sk[2 * i] && rev[2 * j - 1] == sk[2 * i + 1]
    requires Run(m, rev, j - 1, s) == Swap(Run(m, sk, i + 1, p))
    ensures Run(m, rev, j, s) == Swap(Run(m, sk, i, p))
  {
    StepUndone(m, sk[2 * i], sk[2 * i + 1], Run(m, sk, i, p));
  }

  predicate Mirrored<W(==)>(sk: seq<W>, rev: seq<W>, n: nat, i: nat) {
    |sk| == |rev| == 2 * n && i < n && rev[2 * i] == sk[2 * (n - 1 - i)] && rev[2 * i + 1] == sk[2 * (n - 1 - i) + 1]
  }

  lemma {:induction false} MirrorBack<W(!new)>(m: Code<W>, sk: seq<W>, rev: seq<W>, n: nat, p: Pair<W>, s: Pair<W>,
                                               j: nat)
    requires Lawful(m) && |sk| == |rev| == 2 * n && j <= n && s == Swap(Run(m, sk, n, p))
    requires forall i: nat :: i < n ==> Mirrored(sk, rev, n, i)
    ensures Run(m, rev, j, s) == Swap(Run(m, sk, n - j, p))
  {
    if j > 0 {
      MirrorBack(m, sk, rev, n, p, s, j - 1);
      assert Mirrored(sk, rev, n, j - 1);
      BackStep(m, sk, rev, n - j, j, p, s);
    }
  }

  /** Running the reversed subkeys on the swapped result goes back to the start. */
  lemma RunBack<W(!new)>(m: Code<W>, sk: seq<W>, n: nat, p: Pair<W>)
    requires Lawful(m) && |sk| == 2 * n
    ensures Run(m, Reversed(sk), n, Swap(Run(m, sk, n, p))) == Swap(p)
  {
    forall i: nat | i < n ensures Mirrored(sk, Reversed(sk), n, i) {
      ReversedAt(sk, i);
    }
    MirrorBack(m, sk, Reversed(sk), n, p, Swap(Run(m, sk, n, p)), n);
  }

  // --------------------------------------------------------- rounds as written

  /** DES_ROUND(Y, X); DES_ROUND(X, Y) with the four subkeys from `i`. */
  function Double<W>(m: Code<W>, sk: seq<W>, i: nat, p: Pair<W>): Pair<W>
    requires i + 4 <= |sk|
  {
    var x := Round(m, sk[i], sk[i + 1], p.y, p.x);
    Pair(x, Round(m, sk[i + 2], sk[i + 3], x, p.y))
  }

  lemma TwoSteps<W>(m: Code<W>, sk: seq<W>, i: nat, p: Pair<W>)
    requires i + 4 <= |sk|
    ensures Double(m, sk, i, p) == Step(m, sk[i + 2], sk[i + 3], Step(m, sk[i], sk[i + 1], p))
  {
  }

  /** `n` such lines, reading subkeys from `base`. */
  function Doubles<W>(m: Code<W>, sk: seq<W>, base: nat, n: nat, p: Pair<W>): Pair<W>
    requires base + 4 * n <= |sk|
  {
    if n == 0 then p else Double(m, sk, base + 4 * n - 4, Doubles(m, sk, base, n - 1, p))
  }

  /** Updating X and Y in turn is the Feistel network. */
  lemma {:induction false} DoublesAreRun<W>(m: Code<W>, sk: seq<W>, base: nat, n: nat, p: Pair<W>)
    requires base + 4 * n <= |sk|
    ensures Doubles(m, sk, base, n, p) == Run(m, sk[base..base + 4 * n], 2 * n, p)
  {
    if n > 0 {
      var part, shorter := sk[base..base + 4 * n], sk[base..base + 4 * n - 4];
      DoublesAreRun(m, sk, base, n - 1, p);
      RunPrefix(m, part, shorter, 2 * n - 2, p);
      RunNext(m, part, 2 * n, p, sk[base + 4 * n - 2], sk[base + 4 * n - 1]);
      RunNext(m, part, 2 * n - 1, p, sk[base + 4 * n - 4], sk[base + 4 * n - 3]);
      TwoSteps(m, sk, base + 4 * n - 4, Run(m, part, 2 * n - 2, p));
    }
  }

  lemma {:induction false} RunPrefix<W>(m: Code<W>, sk: seq<W>, sk': seq<W>, n: nat, p: Pair<W>)
    requires 2 * n <= |sk| && 2 * n <= |sk'| && sk[..2 * n] == sk'[..2 * n]
    ensures Run(m, sk, n, p) == Run(m, sk', n, p)
  {
    if n > 0 {
      assert sk[..2 * n - 2] == sk[..2 * n][..2 * n - 2] && sk'[..2 * n - 2] == sk'[..2 * n][..2 * n - 2];
      assert sk[2 * n - 2] == sk[..2 * n][2 * n - 2] && sk[2 * n - 1] == sk[..2 * n][2 * n - 1];
      assert sk'[2 * n - 2] == sk'[..2 * n][2 * n - 2] && sk'[2 * n - 1] == sk'[..2 * n][2 * n - 1];
      RunPrefix(m, sk, sk', n - 1, p);
    }
  }

  /** des_crypt on the two words of a block. */
  function Crypt<W>(m: Code<W>, sk: seq<W>, p: Pair<W>): Pair<W>
    requires |sk| == 32
  {
    m.fp(Swap(Doubles(m, sk, 0, 8, m.ip(p))))
  }

  /** des3_crypt: the middle sixteen rounds have X and Y exchanged, and there is no
      permutation in between. */
  function Crypt3<W>(m: Code<W>, sk: seq<W>, p: Pair<W>): Pair<W>
    requires |sk| == 96
  {
    var p1 := Doubles(m, sk, 0, 8, m.ip(p));
    var p2 := Swap(Doubles(m, sk, 32, 8, Swap(p1)));
    m.fp(Swap(Doubles(m, sk, 64, 8, p2)))
  }

  lemma CryptIsRun<W>(m: Code<W>, sk: seq<W>, p: Pair<W>)
    requires |sk| == 32
    ensures Crypt(m, sk, p) == m.fp(Swap(Run(m, sk, 16, m.ip(p))))
  {
    DoublesAreRun(m, sk, 0, 8, m.ip(p));
    assert sk[0..32] == sk;
  }

  lemma CryptOk<W(!new)>(m: Code<W>, sk: seq<W>, p: Pair<W>)
    requires Lawful(m) && |sk| == 32 && Ok(m, p)
    ensures Ok(m, Crypt(m, sk, p))
  {
    CryptIsRun(m, sk, p);
    assert Permutes(m, p);
    RunOk(m, sk, 16, m.ip(p));
    assert Permutes(m, Swap(Run(m, sk, 16, m.ip(p))));
  }

  /** The reversed subkeys decrypt, whatever the S-boxes hold. */
  lemma CryptUndone<W(!new)>(m: Code<W>, sk: seq<W>, p: Pair<W>)
    requires Lawful(m) && |sk| == 32 && Ok(m, p)
    ensures Crypt(m, Reversed(sk), Crypt(m, sk, p)) == p
  {
    var q := m.ip(p);
    var r := Run(m, sk, 16, q);
    assert Permutes(m, p);
    RunOk(m, sk, 16, q);
    assert Permutes(m, Swap(r));
    CryptIsRun(m, sk, p);
    CryptIsRun(m, Reversed(sk), m.fp(Swap(r)));
    RunBack(m, sk, 16, q);
  }

  /** Fused triple DES is three passes: the inner permutations cancel and the swap
      of the halves is the exchange of X and Y. */
  lemma FusedIsThreePasses<W(!new)>(m: Code<W>, sk: seq<W>, p: Pair<W>)
    requires Lawful(m) && |sk| == 96 && Ok(m, p)
    ensures Crypt3(m, sk, p) == Crypt(m, sk[64..], Crypt(m, sk[32..64], Crypt(m, sk[..32], p)))
  {
    var s1, s2, s3 := sk[..32], sk[32..64], sk[64..];
    var q := m.ip(p);
    var r1 := Run(m, s1, 16, q);
    var r2 := Run(m, s2, 16, Swap(r1));
    assert Permutes(m, p);
    RunOk(m, s1, 16, q);
    assert Permutes(m, Swap(r1));
    RunOk(m, s2, 16, Swap(r1));
    assert Permutes(m, Swap(r2));
    CryptIsRun(m, s1, p);
    CryptIsRun(m, s2, m.fp(Swap(r1)));
    CryptIsRun(m, s3, m.fp(Swap(r2)));
    Crypt3IsRuns(m, sk, p, q, r1, r2);
  }

  lemma Crypt3IsRuns<W>(m: Code<W>, sk: seq<W>, p: Pair<W>, q: Pair<W>, r1: Pair<W>, r2: Pair<W>)
    requires |sk| == 96 && q == m.ip(p) && r1 == Run(m, sk[..32], 16, q) && r2 == Run(m, sk[32..64], 16, Swap(r1))
    ensures Crypt3(m, sk, p) == m.fp(Swap(Run(m, sk[64..], 16, Swap(r2))))
  {
    DoublesAreRun(m, sk, 0, 8, q);
    DoublesAreRun(m, sk, 32, 8, Swap(r1));
    DoublesAreRun(m, sk, 64, 8, Swap(r2));
    assert sk[0..32] == sk[..32] && sk[64..96] == sk[64..];
  }

  // --------------------------------------------------------------- two-key 3DES

  /** The subkeys des3_set_2keys leaves in esk and dsk. */
  function TwoKeyEsk<W>(k1: seq<W>, k2: seq<W>): (r: seq<W>)
    requires |k1| == |k2| == 32
    ensures |r| == 96
  {
    k1 + Reversed(k2) + k1
  }

  function TwoKeyDsk<W>(k1: seq<W>, k2: seq<W>): (r: seq<W>)
    requires |k1| == |k2| == 32
    ensures |r| == 96
  {
    Reversed(k1) + k2 + Reversed(k1)
  }

  lemma Thirds<W>(a: seq<W>, b: seq<W>, c: seq<W>)
    requires |a| == |b| == |c| == 32
    ensures var s := a + b + c; s[..32] == a && s[32..64] == b && s[64..] == c
  {
  }

  /** Encrypt, decrypt with the other key, encrypt (keying option 2 of FIPS 46-3). */
  lemma TwoKeyIsEde<W(!new)>(m: Code<W>, k1: seq<W>, k2: seq<W>, p: Pair<W>)
    requires Lawful(m) && |k1| == |k2| == 32 && Ok(m, p)
    ensures Crypt3(m, TwoKeyEsk(k1, k2), p) == Crypt(m, k1, Crypt(m, Reversed(k2), Crypt(m, k1, p)))
  {
    FusedIsThreePasses(m, TwoKeyEsk(k1, k2), p);
    Thirds(k1, Reversed(k2), k1);
  }

  lemma TwoKeyIsDed<W(!new)>(m: Code<W>, k1: seq<W>, k2: seq<W>, p: Pair<W>)
    requires Lawful(m) && |k1| == |k2| == 32 && Ok(m, p)
    ensures Crypt3(m, TwoKeyDsk(k1, k2), p) == Crypt(m, Reversed(k1), Crypt(m, k2, Crypt(m, Reversed(k1), p)))
  {
    FusedIsThreePasses(m, TwoKeyDsk(k1, k2), p);
    Thirds(Reversed(k1), k2, Reversed(k1));
  }

  lemma TwoKeyUndone<W(!new)>(m: Code<W>, k1: seq<W>, k2: seq<W>, p: Pair<W>)
    requires Lawful(m) && |k1| == |k2| == 32 && Ok(m, p)
    ensures Ok(m, Crypt3(m, TwoKeyEsk(k1, k2), p))
    ensures Crypt3(m, TwoKeyDsk(k1, k2), Crypt3(m, TwoKeyEsk(k1, k2), p)) == p
  {
    var a := Crypt(m, k1, p);
    var b := Crypt(m, Reversed(k2), a);
    var c := Crypt(m, k1, b);
    CryptOk(m, k1, p);
    CryptOk(m, Reversed(k2), a);
    CryptOk(m, k1, b);
    TwoKeyIsEde(m, k1, k2, p);
    TwoKeyIsDed(m, k1, k2, c);
    CryptUndone(m, k1, b);
    ReversedTwice(k2);
    CryptUndone(m, Reversed(k2), a);
    CryptUndone(m, k1, p);
  }

  /** With equal halves two-key triple DES is single DES. */
  lemma EqualHalvesCollapse<W(!new)>(m: Code<W>, k: seq<W>, p: Pair<W>)
    requires Lawful(m) && |k| == 32 && Ok(m, p)
    ensures Crypt3(m, TwoKeyEsk(k, k), p) == Crypt(m, k, p)
    ensures Crypt3(m, TwoKeyDsk(k, k), p) == Crypt(m, Reversed(k), p)
  {
    TwoKeyIsEde(m, k, k, p);
    CryptUndone(m, k, p);
    TwoKeyIsDed(m, k, k, p);
    ReversedTwice(k);
    CryptUndone(m, Reversed(k), p);
  }
}
