/**
 Hash table expansion under striped item locks.

 Worker threads run assoc_find / assoc_insert / assoc_delete while holding only
 the item lock of their hash value; the maintenance thread migrates bucket by
 bucket, holding only the item lock of the bucket it moves. Every read of
 `expanding`, of `expand_bucket` and every access to a chain is a step of its
 own, and any interleaving is a run. A chain is represented by the map of the
 items on it; module Assoc shows how a linked chain implements that map.
 */
module AssocStripes {
  import opened Powers

  type Key = seq<int>
  type Value = int
  type Chain = map<Key, Value>

  datatype Option<T> = None | Some(value: T)

  /** The hash function and the power of the item-lock table. */
  datatype Config = Config(hash: Key -> nat, lockPower: nat)

  datatype Table = Table(
    power: nat,                    // hashpower
    primary: seq<Chain>,
    previous: Option<seq<Chain>>,       // None once freed
    expanding: bool,
    bucket: nat)                   // expand_bucket

  datatype Op = Find(key: Key) | Insert(key: Key, value: Value) | Delete(key: Key)

  datatype Pc =
    | Idle
    | Locked(op: Op)               // holds the item lock
    | SawExpanding(op: Op)         // read expanding == true
    | ToOld(op: Op)                // read expand_bucket <= oldbucket
    | ToPrimary(op: Op)
    | Done(op: Op, found: Option<Value>)

  datatype Holder = Worker(id: nat) | Maintainer

  datatype MaintPc =
    | Sleep
    | Moving(stripe: nat)          // item_trylock succeeded
    | Bumped(stripe: nat)          // expand_bucket++ done
    | Cleared(stripe: nat)         // expanding = false done, old table not freed yet
    | Releasing(stripe: nat)

  datatype State = State(table: Table, threads: map<nat, Pc>, locks: map<nat, Holder>, maint: MaintPc)

  function Stripe(cfg: Config, k: Key): (r: nat)
    ensures r < Pow2(cfg.lockPower)
  {
    cfg.hash(k) % Pow2(cfg.lockPower)
  }

  function PrimaryBucket(cfg: Config, t: Table, k: Key): (r: nat)
    ensures r < Pow2(t.power)
  {
    cfg.hash(k) % Pow2(t.power)
  }

  function OldBucket(cfg: Config, t: Table, k: Key): (r: nat)
    ensures r < OldSize(t)
  {
    cfg.hash(k) % OldSize(t)
  }

  function OldSize(t: Table): (r: nat)
    ensures r > 0
  {
    Pow2(if t.power == 0 then 0 else t.power - 1)
  }

  // ------------------------------------------------------------- the map

  predicate Sized(t: Table) {
    && t.power > 0
    && |t.primary| == Pow2(t.power)
    && (t.previous.Some? ==> |t.previous.value| == OldSize(t))
  }

  /** The item stored under `k`, wherever it is. */
  function Lookup(cfg: Config, t: Table, k: Key): Option<Value>
    requires Sized(t)
  {
    if k in t.primary[PrimaryBucket(cfg, t, k)] then Some(t.primary[PrimaryBucket(cfg, t, k)][k])
    else if t.previous.Some? && k in t.previous.value[OldBucket(cfg, t, k)] then
      Some(t.previous.value[OldBucket(cfg, t, k)][k])
    else None
  }

  // --------------------------------------------------------------- steps

  predicate Active(pc: Pc) {
    !pc.Idle?
  }

  /** A caller may look up any key; it inserts one that is missing and deletes one that
      is there, such as the tail of an LRU list. */
  predicate MayStart(cfg: Config, table: Table, op: Op) {
    && Sized(table)
    && (op.Insert? ==> Lookup(cfg, table, op.key).None?)
    && (op.Delete? ==> Lookup(cfg, table, op.key).Some?)
  }

  /** A worker takes the item lock of a key for an operation on it. */
  predicate StartOp(cfg: Config, s: State, s': State, t: nat, op: Op) {
    && (t in s.threads ==> s.threads[t].Idle?)
    && Stripe(cfg, op.key) !in s.locks && MayStart(cfg, s.table, op)
    && s' == s.(threads := s.threads[t := Locked(op)], locks := s.locks[Stripe(cfg, op.key) := Worker(t)])
  }

  /** Routing, one read at a time: outside an expansion to the primary table; during one,
      to the old table for the buckets that have not been moved yet. */
  function RoutePc(cfg: Config, table: Table, pc: Pc): Pc {
    match pc
    case Locked(op) => if table.expanding then SawExpanding(op) else ToPrimary(op)
    case SawExpanding(op) => if OldBucket(cfg, table, op.key) >= table.bucket then ToOld(op) else ToPrimary(op)
    case _ => pc
  }

  predicate Route(cfg: Config, s: State, s': State, t: nat) {
    && t in s.threads && (s.threads[t].Locked? || s.threads[t].SawExpanding?)
    && s' == s.(threads := s.threads[t := RoutePc(cfg, s.table, s.threads[t])])
  }

  function ApplyOp(op: Op, chain: Chain): Chain {
    match op
    case Find(_) => chain
    case Insert(k, v) => chain[k := v]
    case Delete(k) => chain - {k}
  }

  function FoundIn(op: Op, chain: Chain): Option<Value> {
    if op.key in chain then Some(chain[op.key]) else None
  }

  /** The chain work of an operation, on the chain chosen earlier. */
  predicate ActOld(cfg: Config, s: State, s': State, t: nat) {
    && t in s.threads && s.threads[t].ToOld? && s.table.previous.Some?
    && var op := s.threads[t].op;
       var b := OldBucket(cfg, s.table, op.key);
       b < |s.table.previous.value| &&
       var chain := s.table.previous.value[b];
       && s' == s.(table := s.table.(previous := Some(s.table.previous.value[b := ApplyOp(op, chain)])),
                   threads := s.threads[t := Done(op, FoundIn(op, chain))])
  }

  predicate ActPrimary(cfg: Config, s: State, s': State, t: nat) {
    && t in s.threads && s.threads[t].ToPrimary?
    && var op := s.threads[t].op;
       var b := PrimaryBucket(cfg, s.table, op.key);
       b < |s.table.primary| &&
       var chain := s.table.primary[b];
       && s' == s.(table := s.table.(primary := s.table.primary[b := ApplyOp(op, chain)]),
                   threads := s.threads[t := Done(op, FoundIn(op, chain))])
  }

  /** What a caller may do next under the same lock, from what it just learned or did:
      insert a key it found missing or deleted, delete one it found or inserted. */
  predicate Permits(pc: Pc, op: Op) {
    && pc.Done? && op.key == pc.op.key
    && (op.Insert? ==> (pc.op.Find? && pc.found.None?) || pc.op.Delete?)
    && (op.Delete? ==> (pc.op.Find? && pc.found.Some?) || pc.op.Insert?)
  }

  predicate ContinueOp(s: State, s': State, t: nat, op: Op) {
    t in s.threads && Permits(s.threads[t], op) && s' == s.(threads := s.threads[t := Locked(op)])
  }

  predicate FinishOp(cfg: Config, s: State, s': State, t: nat) {
    && t in s.threads && s.threads[t].Done?
    && s' == s.(threads := s.threads[t := Idle], locks := s.locks - {Stripe(cfg, s.threads[t].op.key)})
  }

  /** assoc_expand, with every worker paused. */
  predicate StartExpand(s: State, s': State) {
    && s.maint.Sleep? && !s.table.expanding
    && (forall t | t in s.threads :: s.threads[t].Idle?)
    && s' == s.(table := Table(s.table.power + 1, seq(Pow2(s.table.power + 1), _ => map[]),
                               Some(s.table.primary), true, 0))
  }

  predicate TryLock(cfg: Config, s: State, s': State) {
    && s.maint.Sleep? && s.table.expanding
    && var stripe := s.table.bucket % Pow2(cfg.lockPower);
       stripe !in s.locks && s' == s.(locks := s.locks[stripe := Maintainer], maint := Moving(stripe))
  }

  /** One iteration of the chain walk: relink one item into the primary table. */
  predicate MoveItem(cfg: Config, s: State, s': State, k: Key) {
    && s.maint.Moving? && s.table.previous.Some? && s.table.bucket < |s.table.previous.value|
    && var chain := s.table.previous.value[s.table.bucket];
       var b := PrimaryBucket(cfg, s.table, k);
       && k in chain && b < |s.table.primary|
       && s' == s.(table := s.table.(primary := s.table.primary[b := s.table.primary[b][k := chain[k]]],
                                     previous := Some(s.table.previous.value[s.table.bucket := chain - {k}])))
  }

  predicate Bump(s: State, s': State) {
    && s.maint.Moving? && s.table.previous.Some? && s.table.bucket < |s.table.previous.value|
    && s.table.previous.value[s.table.bucket] == map[]
    && s' == s.(table := s.table.(bucket := s.table.bucket + 1), maint := Bumped(s.maint.stripe))
  }

  predicate CheckEnd(s: State, s': State) {
    && s.maint.Bumped?
    && s' == (if s.table.bucket == OldSize(s.table)
              then s.(table := s.table.(expanding := false), maint := Cleared(s.maint.stripe))
              else s.(maint := Releasing(s.maint.stripe)))
  }

  predicate FreeOld(s: State, s': State) {
    s.maint.Cleared? && s' == s.(table := s.table.(previous := None), maint := Releasing(s.maint.stripe))
  }

  predicate Release(s: State, s': State) {
    s.maint.Releasing? && s' == s.(locks := s.locks - {s.maint.stripe}, maint := Sleep)
  }

  ghost predicate WorkerNext(cfg: Config, s: State, s': State) {
    || (exists t, op :: StartOp(cfg, s, s', t, op))
    || (exists t :: Route(cfg, s, s', t))
    || (exists t :: ActOld(cfg, s, s', t))
    || (exists t :: ActPrimary(cfg, s, s', t))
    || (exists t, op :: ContinueOp(s, s', t, op))
    || (exists t :: FinishOp(cfg, s, s', t))
  }

  ghost predicate MaintNext(cfg: Config, s: State, s': State) {
    || StartExpand(s, s') || TryLock(cfg, s, s') || (exists k :: MoveItem(cfg, s, s', k))
    || Bump(s, s') || CheckEnd(s, s') || FreeOld(s, s') || Release(s, s')
  }

  ghost predicate Next(cfg: Config, s: State, s': State) {
    WorkerNext(cfg, s, s') || MaintNext(cfg, s, s')
  }

  predicate Init(cfg: Config, s: State) {
    && cfg.lockPower < s.table.power
    && s.table == Table(s.table.power, seq(Pow2(s.table.power), _ => map[]), None, false, 0)
    && s.threads == map[] && s.locks == map[] && s.maint.Sleep?
  }

  ghost predicate Run(cfg: Config, run: seq<State>) {
    && |run| > 0 && Init(cfg, run[0])
    && forall i :: 0 <= i < |run| - 1 ==> Next(cfg, run[i], run[i + 1])
  }

  // ----------------------------------------------------------- invariant

  /** An item on primary chain `b` belongs there, and its old bucket has been
      migrated, or is being migrated and no longer holds it. */
  predicate InPrimary(cfg: Config, t: Table, moving: bool, b: nat, k: Key)
    requires Sized(t)
  {
    && PrimaryBucket(cfg, t, k) == b
    && (t.expanding ==>
          || OldBucket(cfg, t, k) < t.bucket
          || (OldBucket(cfg, t, k) == t.bucket && moving && t.previous.Some? && k !in t.previous.value[t.bucket]))
  }

  predicate InPrevious(cfg: Config, t: Table, b: nat, k: Key) {
    OldBucket(cfg, t, k) == b && t.bucket <= b
  }

  /** Which buckets may hold what, given how far the migration is. */
  predicate Placed(cfg: Config, t: Table, moving: bool)
    requires Sized(t)
  {
    && (forall b, k :: 0 <= b < |t.primary| && k in t.primary[b] ==> InPrimary(cfg, t, moving, b, k))
    && (t.previous.Some? ==>
          forall b, k :: 0 <= b < |t.previous.value| && k in t.previous.value[b] ==> InPrevious(cfg, t, b, k))
    && (t.expanding ==> t.previous.Some? && t.bucket <= OldSize(t))
    && (!t.expanding && t.previous.Some? ==> t.bucket == OldSize(t))
  }

  /** What a worker's earlier reads still guarantee. */
  predicate PcValid(cfg: Config, t: Table, pc: Pc) {
    match pc
    case SawExpanding(op) => t.expanding || t.bucket == OldSize(t)
    case ToOld(op) => t.expanding && t.bucket <= OldBucket(cfg, t, op.key)
    case ToPrimary(op) => !t.expanding || OldBucket(cfg, t, op.key) < t.bucket
    case _ => true
  }

  predicate WorkersValid(cfg: Config, s: State) {
    forall t | t in s.threads && !s.threads[t].Idle? ::
      && PcValid(cfg, s.table, s.threads[t])
      && Stripe(cfg, s.threads[t].op.key) in s.locks
      && s.locks[Stripe(cfg, s.threads[t].op.key)] == Worker(t)
  }

  predicate MaintValid(cfg: Config, s: State) {
    && (!s.maint.Sleep? ==> s.maint.stripe in s.locks && s.locks[s.maint.stripe].Maintainer?)
    && (s.maint.Moving? ==> s.table.expanding && s.table.bucket < OldSize(s.table) &&
                            s.maint.stripe == s.table.bucket % Pow2(cfg.lockPower))
    && (s.maint.Bumped? ==> s.table.expanding)
    && (s.maint.Cleared? ==> !s.table.expanding && s.table.bucket == OldSize(s.table))
    && (s.maint.Sleep? || s.maint.Releasing? ==>
          (s.table.expanding ==> s.table.bucket < OldSize(s.table)) && (!s.table.expanding ==> s.table.previous.None?))
  }

  predicate Inv(cfg: Config, s: State) {
    && Sized(s.table) && cfg.lockPower < s.table.power
    && Placed(cfg, s.table, s.maint.Moving?)
    && WorkersValid(cfg, s) && MaintValid(cfg, s)
  }

  /** One item lock covers a key's old bucket and both of its possible primary buckets. */
  lemma SameStripe(cfg: Config, t: Table, k: Key)
    requires t.power > 0 && cfg.lockPower < t.power
    ensures OldBucket(cfg, t, k) % Pow2(cfg.lockPower) == Stripe(cfg, k)
    ensures PrimaryBucket(cfg, t, k) % Pow2(cfg.lockPower) == Stripe(cfg, k)
    ensures PrimaryBucket(cfg, t, k) % OldSize(t) == OldBucket(cfg, t, k)
  {
    MaskTwice(cfg.hash(k), cfg.lockPower, t.power - 1);
    MaskTwice(cfg.hash(k), cfg.lockPower, t.power);
    MaskTwice(cfg.hash(k), t.power - 1, t.power);
  }

  /** The chain a worker chose is the one that owns its key, and it still exists. */
  lemma ChosenChainOwnsKey(cfg: Config, s: State, t: nat)
    requires Inv(cfg, s) && t in s.threads
    ensures s.threads[t].ToOld? ==>
              && s.table.previous.Some? && OldBucket(cfg, s.table, s.threads[t].op.key) < |s.table.previous.value|
              && Lookup(cfg, s.table, s.threads[t].op.key) ==
                   FoundIn(s.threads[t].op, s.table.previous.value[OldBucket(cfg, s.table, s.threads[t].op.key)])
              && s.threads[t].op.key !in s.table.primary[PrimaryBucket(cfg, s.table, s.threads[t].op.key)]
    ensures s.threads[t].ToPrimary? ==>
              && Lookup(cfg, s.table, s.threads[t].op.key) ==
                   FoundIn(s.threads[t].op, s.table.primary[PrimaryBucket(cfg, s.table, s.threads[t].op.key)])
              && (s.table.previous.Some? ==>
                    s.threads[t].op.key !in s.table.previous.value[OldBucket(cfg, s.table, s.threads[t].op.key)])
  {
    if s.threads[t].ToOld? || s.threads[t].ToPrimary? {
      SameStripe(cfg, s.table, s.threads[t].op.key);
    }
  }

  // -------------------------------------------------- steps of the workers

  lemma StartOpKeeps(cfg: Config, s: State, s': State, t: nat, op: Op)
    requires Inv(cfg, s) && StartOp(cfg, s, s', t, op)
    ensures Inv(cfg, s')
  {
  }

  lemma RouteKeeps(cfg: Config, s: State, s': State, t: nat)
    requires Inv(cfg, s) && Route(cfg, s, s', t)
    ensures Inv(cfg, s')
  {
    assert WorkersValid(cfg, s');
  }

  lemma ContinueOpKeeps(cfg: Config, s: State, s': State, t: nat, op: Op)
    requires Inv(cfg, s) && ContinueOp(s, s', t, op)
    ensures Inv(cfg, s')
  {
  }

  lemma FinishOpKeeps(cfg: Config, s: State, s': State, t: nat)
    requires Inv(cfg, s) && FinishOp(cfg, s, s', t)
    ensures Inv(cfg, s')
  {
  }

  lemma ActOldKeepsPlaced(cfg: Config, t: Table, t': Table, moving: bool, op: Op)
    requires Sized(t) && Placed(cfg, t, moving) && t.expanding && t.previous.Some?
    requires var b := OldBucket(cfg, t, op.key);
             && t.bucket <= b && (moving ==> b != t.bucket)
             && t' == t.(previous := Some(t.previous.value[b := ApplyOp(op, t.previous.value[b])]))
    ensures Sized(t') && Placed(cfg, t', moving)
  {
    forall b, k | 0 <= b < |t'.primary| && k in t'.primary[b] ensures InPrimary(cfg, t', moving, b, k) {
      assert InPrimary(cfg, t, moving, b, k);
    }
    forall b, k | 0 <= b < |t'.previous.value| && k in t'.previous.value[b] ensures InPrevious(cfg, t', b, k) {
      if k != op.key { assert k in t.previous.value[b] && InPrevious(cfg, t, b, k); }
    }
  }

  lemma ActOldKeeps(cfg: Config, s: State, s': State, t: nat)
    requires Inv(cfg, s) && ActOld(cfg, s, s', t)
    ensures Inv(cfg, s')
  {
    SameStripe(cfg, s.table, s.threads[t].op.key);
    ActOldKeepsPlaced(cfg, s.table, s'.table, s.maint.Moving?, s.threads[t].op);
  }

  lemma ActPrimaryKeepsPlaced(cfg: Config, t: Table, t': Table, moving: bool, op: Op)
    requires Sized(t) && Placed(cfg, t, moving)
    requires !t.expanding || OldBucket(cfg, t, op.key) < t.bucket
    requires var b := PrimaryBucket(cfg, t, op.key);
             t' == t.(primary := t.primary[b := ApplyOp(op, t.primary[b])])
    ensures Sized(t') && Placed(cfg, t', moving)
  {
    forall b, k | 0 <= b < |t'.primary| && k in t'.primary[b] ensures InPrimary(cfg, t', moving, b, k) {
      if k != op.key { assert k in t.primary[b] && InPrimary(cfg, t, moving, b, k); }
    }
    if t'.previous.Some? {
      forall b, k | 0 <= b < |t'.previous.value| && k in t'.previous.value[b] ensures InPrevious(cfg, t', b, k) {
        assert InPrevious(cfg, t, b, k);
      }
    }
  }

  lemma ActPrimaryKeeps(cfg: Config, s: State, s': State, t: nat)
    requires Inv(cfg, s) && ActPrimary(cfg, s, s', t)
    ensures Inv(cfg, s')
  {
    ActPrimaryKeepsPlaced(cfg, s.table, s'.table, s.maint.Moving?, s.threads[t].op);
  }

  // ------------------------------------------- steps of the maintenance thread

  lemma StartExpandKeeps(cfg: Config, s: State, s': State)
    requires Inv(cfg, s) && StartExpand(s, s')
    ensures Inv(cfg, s')
  {
    assert forall b :: 0 <= b < |s'.table.primary| ==> s'.table.primary[b] == map[];
  }

  lemma TryLockKeeps(cfg: Config, s: State, s': State)
    requires Inv(cfg, s) && TryLock(cfg, s, s')
    ensures Inv(cfg, s')
  {
  }

  lemma MoveItemKeepsPlaced(cfg: Config, t: Table, t': Table, key: Key)
    requires Sized(t) && Placed(cfg, t, true) && t.expanding && t.previous.Some? && t.bucket < OldSize(t)
    requires var chain := t.previous.value[t.bucket]; var p := PrimaryBucket(cfg, t, key);
             && key in chain
             && t' == t.(primary := t.primary[p := t.primary[p][key := chain[key]]],
                         previous := Some(t.previous.value[t.bucket := chain - {key}]))
    ensures Sized(t') && Placed(cfg, t', true)
  {
    assert InPrevious(cfg, t, t.bucket, key);
    forall b, k | 0 <= b < |t'.primary| && k in t'.primary[b] ensures InPrimary(cfg, t', true, b, k) {
      if k != key { assert k in t.primary[b] && InPrimary(cfg, t, true, b, k); }
    }
    forall b, k | 0 <= b < |t'.previous.value| && k in t'.previous.value[b] ensures InPrevious(cfg, t', b, k) {
      assert k in t.previous.value[b] && InPrevious(cfg, t, b, k);
    }
  }

  lemma MoveItemKeeps(cfg: Config, s: State, s': State, k: Key)
    requires Inv(cfg, s) && MoveItem(cfg, s, s', k)
    ensures Inv(cfg, s')
  {
    MoveItemKeepsPlaced(cfg, s.table, s'.table, k);
  }

  lemma BumpKeepsPlaced(cfg: Config, t: Table, t': Table)
    requires Sized(t) && Placed(cfg, t, true) && t.expanding && t.previous.Some? && t.bucket < OldSize(t)
    requires t.previous.value[t.bucket] == map[] && t' == t.(bucket := t.bucket + 1)
    ensures Sized(t') && Placed(cfg, t', false)
  {
    forall b, k | 0 <= b < |t'.primary| && k in t'.primary[b] ensures InPrimary(cfg, t', false, b, k) {
      assert InPrimary(cfg, t, true, b, k);
    }
    forall b, k | 0 <= b < |t'.previous.value| && k in t'.previous.value[b] ensures InPrevious(cfg, t', b, k) {
      assert InPrevious(cfg, t, b, k);
      assert b != t.bucket;
    }
  }

  lemma BumpKeeps(cfg: Config, s: State, s': State)
    requires Inv(cfg, s) && Bump(s, s')
    ensures Inv(cfg, s')
  {
    forall t | t in s.threads && s.threads[t].ToOld?
      ensures OldBucket(cfg, s.table, s.threads[t].op.key) != s.table.bucket
    {
      SameStripe(cfg, s.table, s.threads[t].op.key);
    }
    BumpKeepsPlaced(cfg, s.table, s'.table);
  }

  lemma CheckEndKeeps(cfg: Config, s: State, s': State)
    requires Inv(cfg, s) && CheckEnd(s, s')
    ensures Inv(cfg, s')
  {
  }

  lemma FreeOldKeeps(cfg: Config, s: State, s': State)
    requires Inv(cfg, s) && FreeOld(s, s')
    ensures Inv(cfg, s')
  {
  }

  lemma ReleaseKeeps(cfg: Config, s: State, s': State)
    requires Inv(cfg, s) && Release(s, s')
    ensures Inv(cfg, s')
  {
  }

  lemma NextKeeps(cfg: Config, s: State, s': State)
    requires Inv(cfg, s) && Next(cfg, s, s')
    ensures Inv(cfg, s')
  {
    if t, op :| StartOp(cfg, s, s', t, op) { StartOpKeeps(cfg, s, s', t, op); }
    else if t :| Route(cfg, s, s', t) { RouteKeeps(cfg, s, s', t); }
    else if t :| ActOld(cfg, s, s', t) { ActOldKeeps(cfg, s, s', t); }
    else if t :| ActPrimary(cfg, s, s', t) { ActPrimaryKeeps(cfg, s, s', t); }
    else if t, op :| ContinueOp(s, s', t, op) { ContinueOpKeeps(cfg, s, s', t, op); }
    else if t :| FinishOp(cfg, s, s', t) { FinishOpKeeps(cfg, s, s', t); }
    else if StartExpand(s, s') { StartExpandKeeps(cfg, s, s'); }
    else if TryLock(cfg, s, s') { TryLockKeeps(cfg, s, s'); }
    else if k :| MoveItem(cfg, s, s', k) { MoveItemKeeps(cfg, s, s', k); }
    else if Bump(s, s') { BumpKeeps(cfg, s, s'); }
    else if CheckEnd(s, s') { CheckEndKeeps(cfg, s, s'); }
    else if FreeOld(s, s') { FreeOldKeeps(cfg, s, s'); }
    else { ReleaseKeeps(cfg, s, s'); }
  }

  lemma {:induction false} RunKeeps(cfg: Config, run: seq<State>, n: nat)
    requires Run(cfg, run) && n < |run|
    ensures Inv(cfg, run[n])
  {
    if n > 0 {
      RunKeeps(cfg, run, n - 1);
      assert Next(cfg, run[n - 1], run[n - 1 + 1]);
      NextKeeps(cfg, run[n - 1], run[n]);
    }
  }

  // -------------------------------------------------------------- theorems

  /** Everything but `k` is stored as before. */
  ghost predicate SameExcept(cfg: Config, t: Table, t': Table, k: Key)
    requires Sized(t) && Sized(t')
  {
    forall k' | k' != k :: Lookup(cfg, t', k') == Lookup(cfg, t, k')
  }

  /** Chain work done at any later time on the chain chosen earlier acts on the
      whole table as a map operation on the key, and reports what the map held. */
  ghost predicate ActsAsMapOperation(cfg: Config, t: Table, t': Table, op: Op, found: Option<Value>)
    requires Sized(t) && Sized(t')
  {
    && found == Lookup(cfg, t, op.key)
    && SameExcept(cfg, t, t', op.key)
    && Lookup(cfg, t', op.key) ==
         match op { case Find(_) => Lookup(cfg, t, op.key) case Insert(_, v) => Some(v) case Delete(_) => None }
  }

  lemma ActOldIsMapOperation(cfg: Config, s: State, s': State, t: nat)
    requires Inv(cfg, s) && Inv(cfg, s') && ActOld(cfg, s, s', t)
    ensures s'.threads[t].Done?
    ensures ActsAsMapOperation(cfg, s.table, s'.table, s.threads[t].op, s'.threads[t].found)
  {
    ChosenChainOwnsKey(cfg, s, t);
  }

  lemma ActPrimaryIsMapOperation(cfg: Config, s: State, s': State, t: nat)
    requires Inv(cfg, s) && Inv(cfg, s') && ActPrimary(cfg, s, s', t)
    ensures s'.threads[t].Done?
    ensures ActsAsMapOperation(cfg, s.table, s'.table, s.threads[t].op, s'.threads[t].found)
  {
    ChosenChainOwnsKey(cfg, s, t);
  }

  lemma MoveItemKeepsMap(cfg: Config, s: State, s': State, k: Key, k': Key)
    requires Inv(cfg, s) && Inv(cfg, s') && MoveItem(cfg, s, s', k)
    ensures Lookup(cfg, s'.table, k') == Lookup(cfg, s.table, k')
  {
  }

  lemma StartExpandKeepsMap(cfg: Config, s: State, s': State, k: Key)
    requires Inv(cfg, s) && Inv(cfg, s') && StartExpand(s, s')
    ensures Lookup(cfg, s'.table, k) == Lookup(cfg, s.table, k)
  {
    assert s'.table.primary[PrimaryBucket(cfg, s'.table, k)] == map[];
    assert OldBucket(cfg, s'.table, k) == PrimaryBucket(cfg, s.table, k);
  }

  lemma FreeOldKeepsMap(cfg: Config, s: State, s': State, k: Key)
    requires Inv(cfg, s) && Inv(cfg, s') && FreeOld(s, s')
    ensures Lookup(cfg, s'.table, k) == Lookup(cfg, s.table, k)
  {
  }

  /** Refinement over all runs: every step of the interleaved system is either a
      map operation by the worker that takes it, or leaves every lookup unchanged. */
  lemma EveryStepRefinesMap(cfg: Config, run: seq<State>, n: nat)
    requires Run(cfg, run) && n + 1 < |run|
    ensures Sized(run[n].table) && Sized(run[n + 1].table)
    ensures (forall k :: Lookup(cfg, run[n + 1].table, k) == Lookup(cfg, run[n].table, k)) ||
            (exists t :: t in run[n].threads && t in run[n + 1].threads &&
                         run[n + 1].threads[t].Done? && !run[n].threads[t].Idle? &&
                         run[n + 1].threads[t].op == run[n].threads[t].op &&
                         ActsAsMapOperation(cfg, run[n].table, run[n + 1].table, run[n].threads[t].op,
                                            run[n + 1].threads[t].found))
  {
    RunKeeps(cfg, run, n);
    RunKeeps(cfg, run, n + 1);
    var s, s' := run[n], run[n + 1];
    assert Next(cfg, s, s');
    if t :| ActOld(cfg, s, s', t) {
      ActOldIsMapOperation(cfg, s, s', t);
    } else if t :| ActPrimary(cfg, s, s', t) {
      ActPrimaryIsMapOperation(cfg, s, s', t);
    } else {
      forall k ensures Lookup(cfg, s'.table, k) == Lookup(cfg, s.table, k) {
        QuietStepKeepsMap(cfg, s, s', k);
      }
    }
  }

  lemma QuietStepKeepsMap(cfg: Config, s: State, s': State, k: Key)
    requires Inv(cfg, s) && Inv(cfg, s') && Next(cfg, s, s')
    requires !(exists t :: ActOld(cfg, s, s', t)) && !(exists t :: ActPrimary(cfg, s, s', t))
    ensures Lookup(cfg, s'.table, k) == Lookup(cfg, s.table, k)
  {
    if StartExpand(s, s') { StartExpandKeepsMap(cfg, s, s', k); }
    else if FreeOld(s, s') { FreeOldKeepsMap(cfg, s, s', k); }
    else if k' :| MoveItem(cfg, s, s', k') { MoveItemKeepsMap(cfg, s, s', k', k); }
  }

  // ------------------------------------------------ what a worker learned stays true

  /** What a worker learned of its key under the lock it holds still holds: an insert on
      its way is of a missing key, a delete of one that is there. */
  predicate StillTrue(cfg: Config, t: Table, pc: Pc)
    requires Sized(t)
  {
    match pc
    case Idle => true
    case Done(op, found) =>
      Lookup(cfg, t, op.key) ==
        match op { case Find(_) => found case Insert(_, v) => Some(v) case Delete(_) => None }
    case _ =>
      && (pc.op.Insert? ==> Lookup(cfg, t, pc.op.key).None?)
      && (pc.op.Delete? ==> Lookup(cfg, t, pc.op.key).Some?)
  }

  predicate AllStillTrue(cfg: Config, s: State)
    requires Sized(s.table)
  {
    forall t | t in s.threads :: StillTrue(cfg, s.table, s.threads[t])
  }

  /** Chain work of one worker: no other worker has its key. */
  lemma ActKeepsTrue(cfg: Config, s: State, s': State, t: nat, u: nat)
    requires Inv(cfg, s) && Inv(cfg, s') && AllStillTrue(cfg, s) && t in s.threads && Active(s.threads[t])
    requires u in s'.threads
    requires s'.threads.Keys == s.threads.Keys && (u != t ==> s'.threads[u] == s.threads[u])
    requires s'.threads[t].Done? && s'.threads[t].op == s.threads[t].op
    requires ActsAsMapOperation(cfg, s.table, s'.table, s.threads[t].op, s'.threads[t].found)
    ensures StillTrue(cfg, s'.table, s'.threads[u])
  {
    assert StillTrue(cfg, s.table, s.threads[u]);
    if u != t && Active(s.threads[u]) {
      assert s.threads[u].op.key != s.threads[t].op.key;
    }
  }

  /** Where a thread can be after a step that is no chain work. */
  lemma QuietThread(cfg: Config, s: State, s': State, u: nat)
    requires Next(cfg, s, s') && u in s'.threads
    requires !(exists t :: ActOld(cfg, s, s', t)) && !(exists t :: ActPrimary(cfg, s, s', t))
    ensures var pc' := s'.threads[u];
            || pc'.Idle? || (pc'.Locked? && MayStart(cfg, s.table, pc'.op))
            || (u in s.threads && (pc' == s.threads[u] || pc' == RoutePc(cfg, s.table, s.threads[u])))
            || (u in s.threads && pc'.Locked? && Permits(s.threads[u], pc'.op))
  {
  }

  lemma QuietPc(cfg: Config, t: Table, t': Table, pc: Pc, pc': Pc)
    requires Sized(t) && Sized(t') && StillTrue(cfg, t, pc) && (forall k :: Lookup(cfg, t', k) == Lookup(cfg, t, k))
    requires pc' == pc || pc' == RoutePc(cfg, t, pc) || (pc'.Locked? && Permits(pc, pc'.op))
    ensures StillTrue(cfg, t', pc')
  {
  }

  /** Steps that change no lookup. */
  lemma QuietKeepsTrue(cfg: Config, s: State, s': State)
    requires Inv(cfg, s) && Inv(cfg, s') && AllStillTrue(cfg, s) && Next(cfg, s, s')
    requires forall k :: Lookup(cfg, s'.table, k) == Lookup(cfg, s.table, k)
    requires !(exists t :: ActOld(cfg, s, s', t)) && !(exists t :: ActPrimary(cfg, s, s', t))
    ensures AllStillTrue(cfg, s')
  {
    forall u | u in s'.threads ensures StillTrue(cfg, s'.table, s'.threads[u]) {
      QuietThread(cfg, s, s', u);
      if !s'.threads[u].Idle? && !(s'.threads[u].Locked? && MayStart(cfg, s.table, s'.threads[u].op)) {
        QuietPc(cfg, s.table, s'.table, s.threads[u], s'.threads[u]);
      }
    }
  }

  lemma NextKeepsTrue(cfg: Config, s: State, s': State)
    requires Inv(cfg, s) && Inv(cfg, s') && AllStillTrue(cfg, s) && Next(cfg, s, s')
    ensures AllStillTrue(cfg, s')
  {
    if t :| ActOld(cfg, s, s', t) {
      ActOldIsMapOperation(cfg, s, s', t);
      forall u | u in s'.threads ensures StillTrue(cfg, s'.table, s'.threads[u]) { ActKeepsTrue(cfg, s, s', t, u); }
    } else if t :| ActPrimary(cfg, s, s', t) {
      ActPrimaryIsMapOperation(cfg, s, s', t);
      forall u | u in s'.threads ensures StillTrue(cfg, s'.table, s'.threads[u]) { ActKeepsTrue(cfg, s, s', t, u); }
    } else {
      forall k ensures Lookup(cfg, s'.table, k) == Lookup(cfg, s.table, k) {
        QuietStepKeepsMap(cfg, s, s', k);
      }
      QuietKeepsTrue(cfg, s, s');
    }
  }

  lemma {:induction false} RunKeepsTrue(cfg: Config, run: seq<State>, n: nat)
    requires Run(cfg, run) && n < |run|
    ensures Inv(cfg, run[n]) && AllStillTrue(cfg, run[n])
  {
    RunKeeps(cfg, run, n);
    if n > 0 {
      RunKeepsTrue(cfg, run, n - 1);
      assert Next(cfg, run[n - 1], run[n - 1 + 1]);
      NextKeepsTrue(cfg, run[n - 1], run[n]);
    }
  }

  /** assoc_insert never meets its key, and assoc_delete never misses it, whatever the
      maintenance thread did since the caller took the lock. */
  lemma InsertIsFresh(cfg: Config, run: seq<State>, n: nat, t: nat)
    requires Run(cfg, run) && n < |run| && t in run[n].threads
    ensures Sized(run[n].table)
    ensures var pc := run[n].threads[t];
            && ((pc.ToOld? || pc.ToPrimary?) && pc.op.Insert? ==> Lookup(cfg, run[n].table, pc.op.key).None?)
            && ((pc.ToOld? || pc.ToPrimary?) && pc.op.Delete? ==> Lookup(cfg, run[n].table, pc.op.key).Some?)
  {
    RunKeepsTrue(cfg, run, n);
    assert StillTrue(cfg, run[n].table, run[n].threads[t]);
  }

  // ------------------------------------------------------------------- exclusion

  /** Whoever is about to touch a chain has it to itself: two workers never share
      a chain, ... */
  lemma ChainsAreExclusive(cfg: Config, run: seq<State>, n: nat, t: nat, u: nat)
    requires Run(cfg, run) && n < |run|
    requires t in run[n].threads && u in run[n].threads && t != u
    requires Active(run[n].threads[t]) && Active(run[n].threads[u])
    ensures var table := run[n].table; var k, l := run[n].threads[t].op.key, run[n].threads[u].op.key;
            && OldBucket(cfg, table, k) != OldBucket(cfg, table, l)
            && PrimaryBucket(cfg, table, k) != PrimaryBucket(cfg, table, l)
  {
    RunKeeps(cfg, run, n);
    SameStripe(cfg, run[n].table, run[n].threads[t].op.key);
    SameStripe(cfg, run[n].table, run[n].threads[u].op.key);
  }

  /** ... and no worker is on the bucket under migration or on a primary bucket
      that the migration writes to. */
  lemma WorkersAvoidMigration(cfg: Config, run: seq<State>, n: nat, t: nat)
    requires Run(cfg, run) && n < |run| && run[n].maint.Moving?
    requires t in run[n].threads && Active(run[n].threads[t])
    ensures var table := run[n].table; var k := run[n].threads[t].op.key;
            && OldBucket(cfg, table, k) != table.bucket
            && PrimaryBucket(cfg, table, k) % OldSize(table) != table.bucket
  {
    RunKeeps(cfg, run, n);
    SameStripe(cfg, run[n].table, run[n].threads[t].op.key);
  }

  /** The old table is freed only when it is empty, after exactly one move per old
      bucket, and when no worker can be on its way to it. */
  lemma FreeIsSafe(cfg: Config, run: seq<State>, n: nat)
    requires Run(cfg, run) && n + 1 < |run| && FreeOld(run[n], run[n + 1])
    ensures run[n].table.bucket == OldSize(run[n].table)
    ensures run[n].table.previous.Some? ==>
              forall b :: 0 <= b < |run[n].table.previous.value| ==> run[n].table.previous.value[b] == map[]
    ensures forall t | t in run[n].threads :: !run[n].threads[t].ToOld?
    ensures forall t | t in run[n].threads && run[n].threads[t].SawExpanding? ::
              RoutePc(cfg, run[n].table, run[n].threads[t]).ToPrimary?
  {
    RunKeeps(cfg, run, n);
    var t := run[n].table;
    if t.previous.Some? {
      forall b | 0 <= b < |t.previous.value| ensures t.previous.value[b] == map[] {
        assert forall k :: k in t.previous.value[b] ==> t.bucket <= b;
        assert t.previous.value[b].Keys == {};
      }
    }
  }

  /** A worker that chose the old table finds it there whenever it gets to act. */
  lemma OldTableIsThere(cfg: Config, run: seq<State>, n: nat, t: nat)
    requires Run(cfg, run) && n < |run| && t in run[n].threads && run[n].threads[t].ToOld?
    ensures Sized(run[n].table) && run[n].table.previous.Some?
    ensures OldBucket(cfg, run[n].table, run[n].threads[t].op.key) < |run[n].table.previous.value|
    ensures Lookup(cfg, run[n].table, run[n].threads[t].op.key) ==
              FoundIn(run[n].threads[t].op,
                      run[n].table.previous.value[OldBucket(cfg, run[n].table, run[n].threads[t].op.key)])
  {
    RunKeeps(cfg, run, n);
    ChosenChainOwnsKey(cfg, run[n], t);
  }
}
