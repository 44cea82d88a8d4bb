/**
 The shape of AES: a key-alternating cipher, and its inverse in the rearranged
 order of section 5.3.5 of FIPS 197, over any state type.
 */
module RoundCipher {

  /** `confuse` is SubBytes and ShiftRows, `diffuse` is MixColumns. */
  datatype Parts<!S> = Parts(add: (S, S) -> S, confuse: S -> S, unconfuse: S -> S, diffuse: S -> S, undiffuse: S -> S)

  ghost predicate Inverts<S>(p: Parts<S>, s: S) {
    p.unconfuse(p.confuse(s)) == s && p.undiffuse(p.diffuse(s)) == s
  }

  ghost predicate KeysCancel<S>(p: Parts<S>, s: S, k: S) {
    p.add(p.add(s, k), k) == s && p.undiffuse(p.add(s, k)) == p.add(p.undiffuse(s), p.undiffuse(k))
  }

  ghost predicate Lawful<S(!new)>(p: Parts<S>) {
    (forall s :: Inverts(p, s)) && (forall s, k :: KeysCancel(p, s, k))
  }

  /** The state after the initial key addition and `r` full rounds. */
  function Rounds<S>(p: Parts<S>, keys: seq<S>, x: S, r: nat): S
    requires r < |keys|
  {
    if r == 0 then p.add(x, keys[0]) else p.add(p.diffuse(p.confuse(Rounds(p, keys, x, r - 1))), keys[r])
  }

  /** The last round does not diffuse. */
  function Encrypt<S>(p: Parts<S>, keys: seq<S>, x: S): S
    requires |keys| >= 2
  {
    p.add(p.confuse(Rounds(p, keys, x, |keys| - 2)), keys[|keys| - 1])
  }

  function InvRounds<S>(p: Parts<S>, keys: seq<S>, y: S, r: nat): S
    requires r < |keys|
  {
    if r == 0 then p.add(y, keys[0]) else p.add(p.undiffuse(p.unconfuse(InvRounds(p, keys, y, r - 1))), keys[r])
  }

  function Decrypt<S>(p: Parts<S>, keys: seq<S>, y: S): S
    requires |keys| >= 2
  {
    p.add(p.unconfuse(InvRounds(p, keys, y, |keys| - 2)), keys[|keys| - 1])
  }

  /** The decryption schedule: reversed, with the inverse diffusion applied to all
      but the first and the last round key. */
  ghost predicate InverseSchedule<S>(p: Parts<S>, keys: seq<S>, inverse: seq<S>) {
    && |inverse| == |keys| >= 2
    && inverse[0] == keys[|keys| - 1] && inverse[|keys| - 1] == keys[0]
    && forall r :: 0 < r < |keys| - 1 ==> inverse[r] == p.undiffuse(keys[|keys| - 1 - r])
  }

  lemma RoundUndone<S(!new)>(p: Parts<S>, s: S, k: S, next: S)
    requires Lawful(p) && next == p.add(p.diffuse(s), k)
    ensures p.add(p.undiffuse(p.unconfuse(p.confuse(next))), p.undiffuse(k)) == s
  {
    assert Inverts(p, next) && Inverts(p, s);
    assert KeysCancel(p, p.diffuse(s), k) && KeysCancel(p, next, k);
  }

  lemma InvRoundsStep<S(!new)>(p: Parts<S>, inverse: seq<S>, y: S, r: nat, s: S, k: S, next: S)
    requires Lawful(p) && 0 < r < |inverse| && inverse[r] == p.undiffuse(k) && next == p.add(p.diffuse(s), k)
    requires InvRounds(p, inverse, y, r - 1) == p.confuse(next)
    ensures InvRounds(p, inverse, y, r) == s
  {
    RoundUndone(p, s, k, next);
  }

  lemma FirstKeyRemoved<S(!new)>(p: Parts<S>, keys: seq<S>, inverse: seq<S>, s: S)
    requires Lawful(p) && InverseSchedule(p, keys, inverse)
    ensures InvRounds(p, inverse, p.add(s, keys[|keys| - 1]), 0) == s
  {
    assert KeysCancel(p, s, keys[|keys| - 1]);
  }

  /** After `r` inverse rounds the state is what it was before the corresponding
      round of encryption had diffused and added its key. */
  lemma {:induction false} InvRoundsUndo<S(!new)>(p: Parts<S>, keys: seq<S>, inverse: seq<S>, x: S, r: nat)
    requires Lawful(p) && InverseSchedule(p, keys, inverse) && r <= |keys| - 2
    ensures InvRounds(p, inverse, Encrypt(p, keys, x), r) == p.confuse(Rounds(p, keys, x, |keys| - 2 - r))
  {
    var n := |keys| - 1;
    if r == 0 {
      FirstKeyRemoved(p, keys, inverse, p.confuse(Rounds(p, keys, x, n - 1)));
    } else {
      InvRoundsUndo(p, keys, inverse, x, r - 1);
      InvRoundsStep(p, inverse, Encrypt(p, keys, x), r, p.confuse(Rounds(p, keys, x, n - 1 - r)), keys[n - r],
                    Rounds(p, keys, x, n - r));
    }
  }

  /** Decryption undoes encryption, for every key schedule and every block. */
  lemma DecryptEncrypt<S(!new)>(p: Parts<S>, keys: seq<S>, inverse: seq<S>, x: S)
    requires Lawful(p) && InverseSchedule(p, keys, inverse)
    ensures Decrypt(p, inverse, Encrypt(p, keys, x)) == x
  {
    InvRoundsUndo(p, keys, inverse, x, |keys| - 2);
    assert Inverts(p, Rounds(p, keys, x, 0));
    assert KeysCancel(p, x, keys[0]);
  }
}
