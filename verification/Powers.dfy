/** Powers of two and the remainders they leave: `hv & hashmask(n)` is `hv % Pow2(n)`. */
module Powers {

  function Pow2(n: nat): (r: nat)
    ensures r > 0
  {
    if n == 0 then 1 else 2 * Pow2(n - 1)
  }

  lemma {:induction false} Pow2Splits(m: nat, n: nat)
    requires m <= n
    ensures Pow2(n) == Pow2(m) * Pow2(n - m)
  {
    if m < n {
      Pow2Splits(m, n - 1);
      calc {
        Pow2(n);
        2 * (Pow2(m) * Pow2(n - 1 - m));
        Pow2(m) * (2 * Pow2(n - 1 - m));
        Pow2(m) * Pow2(n - m);
      }
    }
  }

  lemma ModOfMultiple(x: nat, a: nat, k: nat)
    requires a > 0 && k > 0
    ensures a * k > 0 && (x % (a * k)) % a == x % a
  {
    var b := a * k;
    var q := x / b;
    var r := x % b;
    assert x == q * b + r;
    var s := r / a;
    assert r == s * a + r % a;
    assert x == (q * k + s) * a + r % a by {
      assert q * b == (q * k) * a;
      assert (q * k + s) * a == (q * k) * a + s * a;
    }
    UniqueRemainder(x, a, q * k + s, r % a);
  }

  lemma UniqueRemainder(x: int, a: nat, q: int, r: int)
    requires a > 0 && 0 <= r < a && x == q * a + r
    ensures x % a == r && x / a == q
  {
    var d := x / a - q;
    assert d * a == r - x % a by {
      assert x == (x / a) * a + x % a;
      assert (x / a) * a - q * a == d * a;
    }
    MultipleIsFar(d, a);
  }

  lemma {:induction false} MultipleIsFar(d: int, a: int)
    requires a > 0
    ensures d > 0 ==> d * a >= a
    ensures d < 0 ==> d * a <= -a
    decreases if d < 0 then -d else d
  {
    if d > 1 {
      MultipleIsFar(d - 1, a);
      assert d * a == (d - 1) * a + a;
    } else if d < -1 {
      MultipleIsFar(d + 1, a);
      assert d * a == (d + 1) * a - a;
    }
  }

  /** Masking twice is masking with the smaller mask. */
  lemma MaskTwice(x: nat, m: nat, n: nat)
    requires m <= n
    ensures (x % Pow2(n)) % Pow2(m) == x % Pow2(m)
  {
    Pow2Splits(m, n);
    ModOfMultiple(x, Pow2(m), Pow2(n - m));
  }
}
