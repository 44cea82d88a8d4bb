/**
 The hash table of assoc.c: chains linked through h_next, and expansion that moves
 one bucket of the old table at a time. In every state, also in the middle of an
 expansion, the table stands for a map from keys to items.
 */
module Assoc {
  import opened Powers

  type Key = seq<int>
  type Id = nat

  datatype Option<T> = None | Some(value: T)

  /** An item pointer. */
  datatype Link = Nil | To(id: Id)

  // ------------------------------------------------------------------- one chain

  /** Following h_next from `head` passes exactly the items of s. */
  predicate Linked(next: map<Id, Link>, head: Link, s: seq<Id>)
    decreases |s|
  {
    if |s| == 0 then head == Nil else head == To(s[0]) && s[0] in next && Linked(next, next[s[0]], s[1..])
  }

  lemma {:induction false} LinkedFrame(next: map<Id, Link>, head: Link, s: seq<Id>, id: Id, link: Link)
    requires Linked(next, head, s) && id !in s
    ensures Linked(next[id := link], head, s)
    decreases |s|
  {
    if |s| > 0 {
      LinkedFrame(next, next[s[0]], s[1..], id, link);
    }
  }

  predicate Distinct(s: seq<Id>) {
    forall i, j :: 0 <= i < j < |s| ==> s[i] != s[j]
  }

  lemma LinkedPush(next: map<Id, Link>, head: Link, s: seq<Id>, id: Id)
    requires Linked(next, head, s) && id !in s
    ensures Linked(next[id := head], To(id), [id] + s)
  {
    LinkedFrame(next, head, s, id, head);
    assert ([id] + s)[1..] == s;
  }

  /** The link to position i of the chain. */
  lemma {:induction false} LinkedAt(next: map<Id, Link>, head: Link, s: seq<Id>, i: nat)
    requires Linked(next, head, s) && i < |s|
    ensures s[i] in next && Linked(next, next[s[i]], s[i + 1..])
    decreases |s|
  {
    if i > 0 {
      LinkedAt(next, next[s[0]], s[1..], i - 1);
      assert s[1..][i..] == s[i + 1..];
    }
  }

  function Without(s: seq<Id>, i: nat): seq<Id>
    requires i < |s|
  {
    s[..i] + s[i + 1..]
  }

  /** Unlinking a later item by changing the link before it. */
  lemma {:induction false} LinkedUnlink(next: map<Id, Link>, head: Link, s: seq<Id>, i: nat)
    requires Linked(next, head, s) && Distinct(s) && 0 < i < |s|
    ensures s[i] in next && Linked(next[s[i - 1] := next[s[i]]], head, Without(s, i))
    decreases |s|
  {
    LinkedAt(next, head, s, i);
    var next' := next[s[i - 1] := next[s[i]]];
    if i == 1 {
      LinkedFrame(next, next[s[1]], s[2..], s[0], next[s[1]]);
      assert Without(s, 1)[1..] == s[2..];
    } else {
      assert s[1..][i - 2] == s[i - 1] && s[1..][i - 1] == s[i];
      LinkedUnlink(next, next[s[0]], s[1..], i - 1);
      assert s[..i][1..] == s[1..][..i - 1] && s[i + 1..] == s[1..][i..];
      assert Without(s, i)[1..] == Without(s[1..], i - 1);
    }
  }

  // --------------------------------------------------------------- the whole table

  /** Keys of items, and the hash of keys. */
  datatype Config = Config(key: Id -> Key, hash: Key -> nat)

  /** What the chains hold, bucket by bucket. */
  datatype Shape = Shape(power: nat, expanding: bool, bucket: nat, primary: seq<seq<Id>>, previous: seq<seq<Id>>)

  /** hv & hashmask(n). */
  function Masked(hv: nat, n: nat): (r: nat)
    ensures r < Pow2(n)
  {
    hv % Pow2(n)
  }

  function HashOf(cfg: Config, id: Id): nat {
    cfg.hash(cfg.key(id))
  }

  predicate Sized(sh: Shape) {
    && |sh.primary| == Pow2(sh.power)
    && (sh.expanding ==> sh.power > 0 && |sh.previous| == Pow2(sh.power - 1) && sh.bucket < Pow2(sh.power - 1))
    && (!sh.expanding ==> sh.previous == [])
  }

  /** A bucket of the primary or of the old table. */
  datatype Place = Primary(b: nat) | Previous(b: nat)

  predicate InTable(sh: Shape, p: Place) {
    if p.Primary? then p.b < |sh.primary| else p.b < |sh.previous|
  }

  function ChainAt(sh: Shape, p: Place): seq<Id>
    requires InTable(sh, p)
  {
    if p.Primary? then sh.primary[p.b] else sh.previous[p.b]
  }

  /** The routing of every operation: buckets not yet moved are in the old table. */
  function Route(sh: Shape, hv: nat): (p: Place)
    requires Sized(sh)
    ensures InTable(sh, p)
  {
    if sh.expanding && Masked(hv, sh.power - 1) >= sh.bucket then Previous(Masked(hv, sh.power - 1))
    else Primary(Masked(hv, sh.power))
  }

  /** Item `id` is where its hash value sends it, and is the one the map has. */
  predicate Home(cfg: Config, sh: Shape, m: map<Key, Id>, id: Id, p: Place)
    requires Sized(sh)
  {
    cfg.key(id) in m && m[cfg.key(id)] == id && Route(sh, HashOf(cfg, id)) == p
  }

  predicate ChainOk(cfg: Config, sh: Shape, m: map<Key, Id>, p: Place)
    requires Sized(sh) && InTable(sh, p)
  {
    Distinct(ChainAt(sh, p)) && forall id :: id in ChainAt(sh, p) ==> Home(cfg, sh, m, id, p)
  }

  predicate Found(cfg: Config, sh: Shape, m: map<Key, Id>, k: Key)
    requires Sized(sh) && k in m
  {
    cfg.key(m[k]) == k && m[k] in ChainAt(sh, Route(sh, cfg.hash(k)))
  }

  /** The chains hold exactly the items of the map, each in the chain that the routing
      finds for its key. */
  ghost predicate Holds(cfg: Config, sh: Shape, m: map<Key, Id>) {
    && Sized(sh)
    && (forall p {:trigger ChainOk(cfg, sh, m, p)} :: InTable(sh, p) ==> ChainOk(cfg, sh, m, p))
    && (forall k {:trigger Found(cfg, sh, m, k)} :: k in m ==> Found(cfg, sh, m, k))
  }

  function WithChain(sh: Shape, p: Place, s: seq<Id>): Shape
    requires InTable(sh, p)
  {
    if p.Primary? then sh.(primary := sh.primary[p.b := s]) else sh.(previous := sh.previous[p.b := s])
  }

  /** A lookup in the routed chain finds what the map has. */
  lemma RoutedLookup(cfg: Config, sh: Shape, m: map<Key, Id>, k: Key, id: Id)
    requires Holds(cfg, sh, m) && id in ChainAt(sh, Route(sh, cfg.hash(k))) && cfg.key(id) == k
    ensures k in m && m[k] == id
  {
    assert ChainOk(cfg, sh, m, Route(sh, cfg.hash(k)));
  }

  /** An item is on no chain but its own. */
  lemma NotElsewhere(cfg: Config, sh: Shape, m: map<Key, Id>, id: Id, p: Place)
    requires Holds(cfg, sh, m) && InTable(sh, p) && (cfg.key(id) !in m || p != Route(sh, HashOf(cfg, id)))
    ensures id !in ChainAt(sh, p)
  {
    assert ChainOk(cfg, sh, m, p);
  }

  lemma WithChainAt(sh: Shape, p: Place, s: seq<Id>, q: Place)
    requires Sized(sh) && InTable(sh, p)
    ensures var sh' := WithChain(sh, p, s);
            && Sized(sh') && (InTable(sh', q) <==> InTable(sh, q))
            && (InTable(sh, q) ==> ChainAt(sh', q) == if q == p then s else ChainAt(sh, q))
  {
  }

  lemma SameRoute(sh: Shape, p: Place, s: seq<Id>, hv: nat)
    requires Sized(sh) && InTable(sh, p)
    ensures Route(WithChain(sh, p, s), hv) == Route(sh, hv)
  {
  }

  /** The part of the map that is not in chain p is unchanged. */
  ghost predicate OthersKept(cfg: Config, sh: Shape, m: map<Key, Id>, m': map<Key, Id>, p: Place)
    requires Sized(sh)
  {
    forall k :: Route(sh, cfg.hash(k)) != p ==> (k in m' <==> k in m) && (k in m ==> m'[k] == m[k])
  }

  /** Chain s is what the map m' has in place p. */
  ghost predicate Exactly(cfg: Config, sh: Shape, m': map<Key, Id>, p: Place, s: seq<Id>)
    requires Sized(sh)
  {
    && Distinct(s) && (forall id :: id in s ==> Home(cfg, sh, m', id, p))
    && (forall k :: k in m' && Route(sh, cfg.hash(k)) == p ==> cfg.key(m'[k]) == k && m'[k] in s)
  }

  lemma ReplacedChainOk(cfg: Config, sh: Shape, m: map<Key, Id>, m': map<Key, Id>, p: Place, s: seq<Id>, q: Place)
    requires Holds(cfg, sh, m) && InTable(sh, p) && OthersKept(cfg, sh, m, m', p) && Exactly(cfg, sh, m', p, s)
    requires InTable(WithChain(sh, p, s), q)
    ensures Sized(WithChain(sh, p, s)) && ChainOk(cfg, WithChain(sh, p, s), m', q)
  {
    WithChainAt(sh, p, s, q);
    var sh' := WithChain(sh, p, s);
    if q != p { assert ChainOk(cfg, sh, m, q); }
    forall id | id in ChainAt(sh', q) ensures Home(cfg, sh', m', id, q) {
      SameRoute(sh, p, s, HashOf(cfg, id));
      if q != p { assert Home(cfg, sh, m, id, q); }
    }
  }

  lemma ReplacedFound(cfg: Config, sh: Shape, m: map<Key, Id>, m': map<Key, Id>, p: Place, s: seq<Id>, k: Key)
    requires Holds(cfg, sh, m) && InTable(sh, p) && OthersKept(cfg, sh, m, m', p) && Exactly(cfg, sh, m', p, s)
    requires k in m'
    ensures Sized(WithChain(sh, p, s)) && Found(cfg, WithChain(sh, p, s), m', k)
  {
    var q := Route(sh, cfg.hash(k));
    WithChainAt(sh, p, s, q);
    SameRoute(sh, p, s, cfg.hash(k));
    if q != p { assert Found(cfg, sh, m, k); }
  }

  lemma ReplacedHolds(cfg: Config, sh: Shape, m: map<Key, Id>, m': map<Key, Id>, p: Place, s: seq<Id>)
    requires Holds(cfg, sh, m) && InTable(sh, p) && OthersKept(cfg, sh, m, m', p) && Exactly(cfg, sh, m', p, s)
    ensures Holds(cfg, WithChain(sh, p, s), m')
  {
    var sh' := WithChain(sh, p, s);
    WithChainAt(sh, p, s, p);
    forall q | InTable(sh', q) ensures ChainOk(cfg, sh', m', q) { ReplacedChainOk(cfg, sh, m, m', p, s, q); }
    forall k | k in m' ensures Found(cfg, sh', m', k) { ReplacedFound(cfg, sh, m, m', p, s, k); }
  }

  /** Pushing a new item on the routed chain inserts it into the map. */
  lemma InsertHolds(cfg: Config, sh: Shape, m: map<Key, Id>, id: Id, p: Place)
    requires Holds(cfg, sh, m) && cfg.key(id) !in m && p == Route(sh, HashOf(cfg, id))
    ensures Holds(cfg, WithChain(sh, p, [id] + ChainAt(sh, p)), m[cfg.key(id) := id])
  {
    var s, m' := ChainAt(sh, p), m[cfg.key(id) := id];
    assert ChainOk(cfg, sh, m, p);
    NotElsewhere(cfg, sh, m, id, p);
    assert forall k :: k in m ==> Found(cfg, sh, m, k);
    assert forall x :: x in s ==> Home(cfg, sh, m, x, p);
    assert Exactly(cfg, sh, m', p, [id] + s);
    ReplacedHolds(cfg, sh, m, m', p, [id] + s);
  }

  /** Taking an item off the routed chain removes its key from the map. */
  lemma DeleteHolds(cfg: Config, sh: Shape, m: map<Key, Id>, k: Key, p: Place, i: nat)
    requires Holds(cfg, sh, m) && k in m && p == Route(sh, cfg.hash(k)) && i < |ChainAt(sh, p)|
    requires ChainAt(sh, p)[i] == m[k]
    ensures Holds(cfg, WithChain(sh, p, Without(ChainAt(sh, p), i)), m - {k})
  {
    assert ChainOk(cfg, sh, m, p);
    WithoutMembers(ChainAt(sh, p), i);
    DeleteExactly(cfg, sh, m, k, p, Without(ChainAt(sh, p), i));
    ReplacedHolds(cfg, sh, m, m - {k}, p, Without(ChainAt(sh, p), i));
  }

  lemma DeleteExactly(cfg: Config, sh: Shape, m: map<Key, Id>, k: Key, p: Place, s: seq<Id>)
    requires Holds(cfg, sh, m) && k in m && p == Route(sh, cfg.hash(k)) && Distinct(s)
    requires forall x :: x in s <==> x in ChainAt(sh, p) && x != m[k]
    ensures Exactly(cfg, sh, m - {k}, p, s)
  {
    assert ChainOk(cfg, sh, m, p) && Found(cfg, sh, m, k);
    forall x | x in s ensures Home(cfg, sh, m - {k}, x, p) {
      assert Home(cfg, sh, m, x, p);
    }
    forall j | j in m - {k} && Route(sh, cfg.hash(j)) == p ensures cfg.key(m[j]) == j && m[j] in s {
      assert Found(cfg, sh, m, j);
    }
  }

  lemma WithoutMembers(s: seq<Id>, i: nat)
    requires i < |s| && Distinct(s)
    ensures Distinct(Without(s, i)) && forall x :: x in Without(s, i) <==> x in s && x != s[i]
  {
    var r := Without(s, i);
    assert forall j :: 0 <= j < |r| ==> r[j] == if j < i then s[j] else s[j + 1];
    forall x | x in s && x != s[i] ensures x in r {
      var j :| 0 <= j < |s| && s[j] == x;
      assert j < i ==> r[j] == x;
      assert j > i ==> r[j - 1] == x;
    }
  }

  // ------------------------------------------------------------------ moving a bucket

  predicate LastBucket(sh: Shape) {
    sh.expanding && sh.power > 0 && sh.bucket + 1 == Pow2(sh.power - 1)
  }

  /** The shape once bucket `sh.bucket` of the old table is empty and passed; after the
      last one the old table is gone. */
  function Passed(sh: Shape): (r: Shape)
    requires Sized(sh) && sh.expanding
    ensures Sized(r)
  {
    if LastBucket(sh) then sh.(expanding := false, bucket := sh.bucket + 1, previous := [])
    else sh.(bucket := sh.bucket + 1, previous := sh.previous[sh.bucket := []])
  }

  /** The map but for the items of s. */
  function Less(m: map<Key, Id>, s: seq<Id>): map<Key, Id> {
    map k | k in m && m[k] !in s :: m[k]
  }

  /** Passing a bucket reroutes exactly its own items, to the primary table. */
  lemma PassedRoute(sh: Shape, hv: nat)
    requires Sized(sh) && sh.expanding
    ensures Route(sh, hv) == Previous(sh.bucket) ==> Route(Passed(sh), hv) == Primary(Masked(hv, sh.power))
    ensures Route(sh, hv) != Previous(sh.bucket) ==> Route(Passed(sh), hv) == Route(sh, hv)
  {
  }

  lemma PassedChain(sh: Shape, p: Place)
    requires Sized(sh) && sh.expanding && InTable(Passed(sh), p)
    ensures InTable(sh, p) && ChainAt(Passed(sh), p) == if p == Previous(sh.bucket) then [] else ChainAt(sh, p)
  {
  }

  /** Before the items of a bucket are moved: without them, all is as if the bucket were
      passed. */
  lemma PassedHolds(cfg: Config, sh: Shape, m: map<Key, Id>)
    requires Holds(cfg, sh, m) && sh.expanding
    ensures Holds(cfg, Passed(sh), Less(m, sh.previous[sh.bucket]))
  {
    var home := Previous(sh.bucket);
    var s := ChainAt(sh, home);
    var m', sh' := Less(m, s), Passed(sh);
    assert ChainOk(cfg, sh, m, home);
    forall p | InTable(sh', p) ensures ChainOk(cfg, sh', m', p) {
      PassedChain(sh, p);
      assert ChainOk(cfg, sh, m, p);
      forall id | id in ChainAt(sh', p) ensures Home(cfg, sh', m', id, p) {
        assert Home(cfg, sh, m, id, p);
        PassedRoute(sh, HashOf(cfg, id));
        NotElsewhere(cfg, sh, m, id, home);
      }
    }
    forall k | k in m' ensures Found(cfg, sh', m', k) {
      PassedFound(cfg, sh, m, k);
    }
  }

  lemma PassedFound(cfg: Config, sh: Shape, m: map<Key, Id>, k: Key)
    requires Holds(cfg, sh, m) && sh.expanding && k in Less(m, sh.previous[sh.bucket])
    ensures Found(cfg, Passed(sh), Less(m, sh.previous[sh.bucket]), k)
  {
    assert Found(cfg, sh, m, k);
    var p := Route(sh, cfg.hash(k));
    assert p != Previous(sh.bucket);
    PassedRoute(sh, cfg.hash(k));
    PassedChain(sh, p);
  }

  lemma LessStep(cfg: Config, m: map<Key, Id>, s: seq<Id>)
    requires |s| > 0 && Distinct(s) && cfg.key(s[0]) in m && m[cfg.key(s[0])] == s[0]
    requires forall k :: k in m ==> cfg.key(m[k]) == k
    ensures cfg.key(s[0]) !in Less(m, s) && Less(m, s)[cfg.key(s[0]) := s[0]] == Less(m, s[1..])
  {
    assert forall x :: x in s <==> x == s[0] || x in s[1..];
    assert s[0] !in s[1..];
  }

  lemma LessNone(m: map<Key, Id>)
    ensures Less(m, []) == m
  {
  }

  // ------------------------------------------------------------------- all the links

  datatype Heads = Heads(primary: seq<Link>, previous: seq<Link>)

  predicate HasHead(h: Heads, p: Place) {
    if p.Primary? then p.b < |h.primary| else p.b < |h.previous|
  }

  function HeadAt(h: Heads, p: Place): Link
    requires HasHead(h, p)
  {
    if p.Primary? then h.primary[p.b] else h.previous[p.b]
  }

  ghost predicate AllLinked(next: map<Id, Link>, h: Heads, sh: Shape) {
    && |h.primary| == |sh.primary| && |h.previous| == |sh.previous|
    && forall p {:trigger LinkedPlace(next, h, sh, p)} :: InTable(sh, p) ==> LinkedPlace(next, h, sh, p)
  }

  predicate LinkedPlace(next: map<Id, Link>, h: Heads, sh: Shape, p: Place)
    requires InTable(sh, p)
  {
    HasHead(h, p) && Linked(next, HeadAt(h, p), ChainAt(sh, p))
  }

  function WithHead(h: Heads, p: Place, link: Link): Heads
    requires HasHead(h, p)
  {
    if p.Primary? then h.(primary := h.primary[p.b := link]) else h.(previous := h.previous[p.b := link])
  }

  /** One chain changes, by a change to one item's link; no other chain has that item. */
  lemma LinksReplaced(next: map<Id, Link>, h: Heads, sh: Shape, p: Place, link: Link, s: seq<Id>, id: Id, to: Link)
    requires Sized(sh) && AllLinked(next, h, sh) && InTable(sh, p) && Linked(next[id := to], link, s)
    requires forall q :: InTable(sh, q) && q != p ==> id !in ChainAt(sh, q)
    ensures AllLinked(next[id := to], WithHead(h, p, link), WithChain(sh, p, s))
  {
    var h', sh' := WithHead(h, p, link), WithChain(sh, p, s);
    forall q | InTable(sh', q) ensures LinkedPlace(next[id := to], h', sh', q) {
      WithChainAt(sh, p, s, q);
      if q != p {
        assert LinkedPlace(next, h, sh, q);
        LinkedFrame(next, HeadAt(h, q), ChainAt(sh, q), id, to);
      }
    }
  }

  /** The links and heads lay out the chains, and the chains hold the map. */
  ghost predicate Represents(cfg: Config, sh: Shape, next: map<Id, Link>, h: Heads, m: map<Key, Id>) {
    Holds(cfg, sh, m) && AllLinked(next, h, sh)
  }

  lemma InsertStep(cfg: Config, sh: Shape, next: map<Id, Link>, h: Heads, m: map<Key, Id>, id: Id, p: Place)
    requires Represents(cfg, sh, next, h, m) && cfg.key(id) !in m && p == Route(sh, HashOf(cfg, id))
    ensures Represents(cfg, WithChain(sh, p, [id] + ChainAt(sh, p)), next[id := HeadAt(h, p)], WithHead(h, p, To(id)),
                       m[cfg.key(id) := id])
  {
    forall q | InTable(sh, q) ensures id !in ChainAt(sh, q) {
      NotElsewhere(cfg, sh, m, id, q);
    }
    InsertHolds(cfg, sh, m, id, p);
    assert LinkedPlace(next, h, sh, p);
    LinkedPush(next, HeadAt(h, p), ChainAt(sh, p), id);
    LinksReplaced(next, h, sh, p, To(id), [id] + ChainAt(sh, p), id, HeadAt(h, p));
  }

  /** Unlinking the first item of a chain: the head changes. */
  lemma DeleteFirst(cfg: Config, sh: Shape, next: map<Id, Link>, h: Heads, m: map<Key, Id>, k: Key, p: Place)
    requires Represents(cfg, sh, next, h, m) && k in m && p == Route(sh, cfg.hash(k)) && |ChainAt(sh, p)| > 0
    requires ChainAt(sh, p)[0] == m[k]
    ensures m[k] in next
    ensures Represents(cfg, WithChain(sh, p, Without(ChainAt(sh, p), 0)), next[m[k] := Nil],
                       WithHead(h, p, next[m[k]]), m - {k})
  {
    var s, id := ChainAt(sh, p), m[k];
    DeleteHolds(cfg, sh, m, k, p, 0);
    assert ChainOk(cfg, sh, m, p) && Without(s, 0) == s[1..];
    OnlyHere(cfg, sh, m, k, p);
    assert LinkedPlace(next, h, sh, p);
    LinkedFrame(next, next[id], s[1..], id, Nil);
    LinksReplaced(next, h, sh, p, next[id], s[1..], id, Nil);
  }

  /** Unlinking a later item: the link before it changes. */
  lemma DeleteLater(cfg: Config, sh: Shape, next: map<Id, Link>, h: Heads, m: map<Key, Id>, k: Key, p: Place, i: nat)
    requires Represents(cfg, sh, next, h, m) && k in m && p == Route(sh, cfg.hash(k)) && 0 < i < |ChainAt(sh, p)|
    requires ChainAt(sh, p)[i] == m[k]
    ensures m[k] in next
    ensures var s := ChainAt(sh, p);
            Represents(cfg, WithChain(sh, p, Without(s, i)), next[s[i - 1] := next[m[k]]][m[k] := Nil], h, m - {k})
  {
    var s, id := ChainAt(sh, p), m[k];
    var r, b := Without(s, i), s[i - 1];
    DeleteHolds(cfg, sh, m, k, p, i);
    assert ChainOk(cfg, sh, m, p);
    assert LinkedPlace(next, h, sh, p);
    LinkedUnlink(next, HeadAt(h, p), s, i);
    forall q | InTable(sh, q) && q != p ensures b !in ChainAt(sh, q) && id !in ChainAt(sh, q) {
      assert Home(cfg, sh, m, b, p) && Home(cfg, sh, m, id, p);
      NotElsewhere(cfg, sh, m, b, q);
      NotElsewhere(cfg, sh, m, id, q);
    }
    LinksReplaced(next, h, sh, p, HeadAt(h, p), r, b, next[id]);
    assert WithHead(h, p, HeadAt(h, p)) == h;
    WithoutMembers(s, i);
    WithChainAt(sh, p, r, p);
    var next1, sh1 := next[b := next[id]], WithChain(sh, p, r);
    LinkedFrame(next1, HeadAt(h, p), r, id, Nil);
    forall q | InTable(sh1, q) && q != p ensures id !in ChainAt(sh1, q) { WithChainAt(sh, p, r, q); }
    LinksReplaced(next1, h, sh1, p, HeadAt(h, p), r, id, Nil);
    assert WithChain(sh1, p, r) == sh1;
  }

  /** Where the walk stops is the item of the key, and either way of unlinking it removes
      the key. */
  lemma DeleteStep(cfg: Config, sh: Shape, next: map<Id, Link>, h: Heads, m: map<Key, Id>, k: Key, p: Place, i: nat,
                   before: Link)
    requires Represents(cfg, sh, next, h, m) && k in m && p == Route(sh, cfg.hash(k)) && i <= |ChainAt(sh, p)|
    requires forall j :: 0 <= j < i ==> cfg.key(ChainAt(sh, p)[j]) != k
    requires i < |ChainAt(sh, p)| ==> cfg.key(ChainAt(sh, p)[i]) == k
    requires if i == 0 then before == Nil else before == To(ChainAt(sh, p)[i - 1])
    ensures i < |ChainAt(sh, p)| && ChainAt(sh, p)[i] == m[k] && m[k] in next
    ensures var next' := if before == Nil then next[m[k] := Nil] else next[before.id := next[m[k]]][m[k] := Nil];
            var h' := if before == Nil then WithHead(h, p, next[m[k]]) else h;
            Represents(cfg, WithChain(sh, p, Without(ChainAt(sh, p), i)), next', h', m - {k})
  {
    assert Found(cfg, sh, m, k);
    assert i < |ChainAt(sh, p)|;
    RoutedLookup(cfg, sh, m, k, ChainAt(sh, p)[i]);
    if i == 0 {
      DeleteFirst(cfg, sh, next, h, m, k, p);
    } else {
      DeleteLater(cfg, sh, next, h, m, k, p, i);
    }
  }

  lemma OnlyHere(cfg: Config, sh: Shape, m: map<Key, Id>, k: Key, p: Place)
    requires Holds(cfg, sh, m) && k in m && p == Route(sh, cfg.hash(k))
    ensures forall q :: InTable(sh, q) && q != p ==> m[k] !in ChainAt(sh, q)
  {
    assert Found(cfg, sh, m, k);
    forall q | InTable(sh, q) && q != p ensures m[k] !in ChainAt(sh, q) {
      NotElsewhere(cfg, sh, m, m[k], q);
    }
  }

  // ------------------------------------------------------------------------- expansion

  /** All items in the old table, an empty table twice the size. */
  function Expanded(sh: Shape): (r: Shape)
    requires Sized(sh) && !sh.expanding
    ensures Sized(r)
  {
    Shape(sh.power + 1, true, 0, seq(Pow2(sh.power + 1), _ => []), sh.primary)
  }

  lemma ExpandedStep(cfg: Config, sh: Shape, next: map<Id, Link>, h: Heads, m: map<Key, Id>)
    requires Represents(cfg, sh, next, h, m) && !sh.expanding
    ensures Represents(cfg, Expanded(sh), next, Heads(seq(Pow2(sh.power + 1), _ => Nil), h.primary), m)
  {
    var sh', h' := Expanded(sh), Heads(seq(Pow2(sh.power + 1), _ => Nil), h.primary);
    forall p | InTable(sh', p) ensures ChainOk(cfg, sh', m, p) && LinkedPlace(next, h', sh', p) {
      if p.Previous? {
        assert ChainOk(cfg, sh, m, Primary(p.b)) && LinkedPlace(next, h, sh, Primary(p.b));
        forall id | id in ChainAt(sh', p) ensures Home(cfg, sh', m, id, p) {
          assert Home(cfg, sh, m, id, Primary(p.b));
        }
      }
    }
    forall k | k in m ensures Found(cfg, sh', m, k) {
      assert Found(cfg, sh, m, k);
    }
  }

  /** The heads once the bucket is passed: its head is cleared, or the old table freed. */
  function PassedHeads(sh: Shape, h: Heads): Heads
    requires sh.bucket < |h.previous|
  {
    if LastBucket(sh) then h.(previous := []) else h.(previous := h.previous[sh.bucket := Nil])
  }

  /** In the middle of moving a bucket: `rest` is still to be moved, from `it` on; all
      else is as if the bucket were passed. */
  ghost predicate MidMove(cfg: Config, sh: Shape, next: map<Id, Link>, h: Heads, m: map<Key, Id>, it: Link,
                          rest: seq<Id>) {
    Distinct(rest) && Represents(cfg, sh, next, h, Less(m, rest)) && Linked(next, it, rest)
  }

  lemma MoveStarts(cfg: Config, sh: Shape, next: map<Id, Link>, h: Heads, m: map<Key, Id>)
    requires Represents(cfg, sh, next, h, m) && sh.expanding
    ensures MidMove(cfg, Passed(sh), next, PassedHeads(sh, h), m, h.previous[sh.bucket], sh.previous[sh.bucket])
  {
    var home := Previous(sh.bucket);
    PassedHolds(cfg, sh, m);
    assert ChainOk(cfg, sh, m, home) && LinkedPlace(next, h, sh, home);
    forall p | InTable(Passed(sh), p) ensures LinkedPlace(next, PassedHeads(sh, h), Passed(sh), p) {
      PassedChain(sh, p);
      assert LinkedPlace(next, h, sh, p);
    }
  }

  predicate GoesToPrimary(cfg: Config, sh: Shape, id: Id)
    requires Sized(sh)
  {
    Route(sh, HashOf(cfg, id)) == Primary(Masked(HashOf(cfg, id), sh.power))
  }

  /** Every item of the bucket goes to the primary table. */
  ghost predicate Movable(cfg: Config, sh: Shape, m: map<Key, Id>, rest: seq<Id>)
    requires Sized(sh)
  {
    && (forall k :: k in m ==> cfg.key(m[k]) == k)
    && (forall id :: id in rest ==> cfg.key(id) in m && m[cfg.key(id)] == id && GoesToPrimary(cfg, sh, id))
  }

  lemma BucketMovable(cfg: Config, sh: Shape, m: map<Key, Id>)
    requires Holds(cfg, sh, m) && sh.expanding
    ensures Movable(cfg, Passed(sh), m, sh.previous[sh.bucket])
  {
    var home := Previous(sh.bucket);
    assert ChainOk(cfg, sh, m, home);
    forall id | id in sh.previous[sh.bucket] ensures GoesToPrimary(cfg, Passed(sh), id) {
      assert Home(cfg, sh, m, id, home);
      PassedRoute(sh, HashOf(cfg, id));
    }
    forall k | k in m ensures cfg.key(m[k]) == k { assert Found(cfg, sh, m, k); }
  }

  lemma MoveStep(cfg: Config, sh: Shape, next: map<Id, Link>, h: Heads, m: map<Key, Id>, it: Link, rest: seq<Id>)
    requires MidMove(cfg, sh, next, h, m, it, rest) && Movable(cfg, sh, m, rest) && |rest| > 0
    ensures var id := rest[0];
            var p := Primary(Masked(HashOf(cfg, id), sh.power));
            && it == To(id) && id in next && InTable(sh, p) && HasHead(h, p)
            && MidMove(cfg, WithChain(sh, p, [id] + ChainAt(sh, p)), next[id := HeadAt(h, p)], WithHead(h, p, To(id)),
                       m, next[id], rest[1..])
  {
    var id := rest[0];
    var p := Primary(Masked(HashOf(cfg, id), sh.power));
    assert id in rest;
    LessStep(cfg, m, rest);
    InsertStep(cfg, sh, next, h, Less(m, rest), id, p);
    assert id !in rest[1..];
    LinkedFrame(next, next[id], rest[1..], id, HeadAt(h, p));
  }

  lemma MovableKept(cfg: Config, sh: Shape, m: map<Key, Id>, rest: seq<Id>, p: Place, s: seq<Id>)
    requires Sized(sh) && InTable(sh, p) && Movable(cfg, sh, m, rest) && |rest| > 0
    ensures Sized(WithChain(sh, p, s)) && Movable(cfg, WithChain(sh, p, s), m, rest[1..])
  {
    WithChainAt(sh, p, s, p);
    forall id | id in rest[1..] ensures GoesToPrimary(cfg, WithChain(sh, p, s), id) {
      assert id in rest && GoesToPrimary(cfg, sh, id);
      SameRoute(sh, p, s, HashOf(cfg, id));
    }
  }

  // ------------------------------------------------------------- operations on the map

  datatype Op = FindItem(k: Key) | InsertItem(id: Id) | DeleteItem(k: Key)

  function After(cfg: Config, m: map<Key, Id>, op: Op): map<Key, Id> {
    match op
    case FindItem(_) => m
    case InsertItem(id) => if cfg.key(id) in m then m else m[cfg.key(id) := id]
    case DeleteItem(k) => m - {k}
  }

  function AfterAll(cfg: Config, m: map<Key, Id>, ops: seq<Op>): map<Key, Id> {
    if |ops| == 0 then m else After(cfg, AfterAll(cfg, m, ops[..|ops| - 1]), ops[|ops| - 1])
  }

  function AfterRounds(cfg: Config, m: map<Key, Id>, script: nat -> seq<Op>, n: nat): map<Key, Id> {
    if n == 0 then m else AfterAll(cfg, AfterRounds(cfg, m, script, n - 1), script(n - 1))
  }

  // -------------------------------------------------------------------------- the code

  class Table {
    const cfg: Config
    var hashpower: nat
    var primary: seq<Link>
    var old_table: seq<Link>
    var expanding: bool
    var started_expanding: bool
    var expand_bucket: nat
    var hash_items: nat
    var next: map<Id, Link>

    ghost var shape: Shape
    ghost var items: map<Key, Id>

    /** The table stands for `items`. */
    ghost predicate Valid()
      reads this
    {
      && shape.power == hashpower && shape.expanding == expanding && shape.bucket == expand_bucket
      && Represents(cfg, shape, next, Heads(primary, old_table), items) && hash_items == |items|
    }

    /** assoc_init. */
    constructor (cfg: Config, power: nat)
      ensures Valid() && items == map[] && hashpower == power && !expanding
    {
      this.cfg, hashpower, primary, old_table := cfg, power, seq(Pow2(power), _ => Nil), [];
      expanding, started_expanding, expand_bucket, hash_items, next := false, false, 0, 0, map[];
      shape, items := Shape(power, false, 0, seq(Pow2(power), _ => []), []), map[];
    }

    /** The test that begins every operation. */
    method Choose(hv: nat) returns (p: Place)
      requires Valid()
      ensures p == Route(shape, hv)
    {
      if expanding && Masked(hv, hashpower - 1) >= expand_bucket {
        p := Previous(Masked(hv, hashpower - 1));
      } else {
        p := Primary(Masked(hv, hashpower));
      }
    }

    /** Walks a chain to the first item with the key; `before` is the item whose link
        leads there, if it is not the head. */
    method Walk(p: Place, k: Key) returns (it: Link, before: Link, ghost i: nat)
      requires Valid() && InTable(shape, p)
      ensures i <= |ChainAt(shape, p)| && (forall j :: 0 <= j < i ==> cfg.key(ChainAt(shape, p)[j]) != k)
      ensures i == |ChainAt(shape, p)| ==> it == Nil
      ensures i < |ChainAt(shape, p)| ==> it == To(ChainAt(shape, p)[i]) && cfg.key(ChainAt(shape, p)[i]) == k
      ensures if i == 0 then before == Nil else before == To(ChainAt(shape, p)[i - 1])
    {
      ghost var s := ChainAt(shape, p);
      assert LinkedPlace(next, Heads(primary, old_table), shape, p) && s[0..] == s;
      it, before, i := HeadAt(Heads(primary, old_table), p), Nil, 0;
      while it != Nil && cfg.key(it.id) != k
        invariant i <= |s| && Linked(next, it, s[i..]) && (forall j :: 0 <= j < i ==> cfg.key(s[j]) != k)
        invariant if i == 0 then before == Nil else before == To(s[i - 1])
        decreases |s| - i
      {
        assert s[i..][1..] == s[i + 1..];
        before, it, i := it, next[it.id], i + 1;
      }
    }

    /** assoc_find. */
    method Find(k: Key) returns (r: Option<Id>)
      requires Valid()
      ensures r == if k in items then Some(items[k]) else None
    {
      var p := Choose(cfg.hash(k));
      var it, before;
      ghost var i;
      it, before, i := Walk(p, k);
      assert k in items ==> Found(cfg, shape, items, k);
      if it != Nil {
        RoutedLookup(cfg, shape, items, k, it.id);
      }
      r := if it == Nil then None else Some(it.id);
    }

    method SetHead(p: Place, link: Link)
      requires HasHead(Heads(primary, old_table), p)
      modifies this`primary, this`old_table
      ensures Heads(primary, old_table) == WithHead(old(Heads(primary, old_table)), p, link)
    {
      if p.Primary? {
        primary := primary[p.b := link];
      } else {
        old_table := old_table[p.b := link];
      }
    }

    /** it->h_next = bucket; bucket = it. */
    method PushItem(p: Place, id: Id)
      requires HasHead(Heads(primary, old_table), p)
      modifies this`primary, this`old_table, this`next
      ensures Heads(primary, old_table) == WithHead(old(Heads(primary, old_table)), p, To(id))
      ensures next == old(next)[id := HeadAt(old(Heads(primary, old_table)), p)]
    {
      next := next[id := HeadAt(Heads(primary, old_table), p)];
      SetHead(p, To(id));
    }

    /** assoc_insert, of a key that is not there. Expansion is requested above 3/2 items
        per bucket. */
    method Insert(id: Id)
      requires Valid() && cfg.key(id) !in items
      modifies this
      ensures Valid() && items == old(items)[cfg.key(id) := id] && expanding == old(expanding)
      ensures expand_bucket == old(expand_bucket)
      ensures hashpower == old(hashpower)
      ensures started_expanding == (old(started_expanding) || (!expanding && |items| > Pow2(hashpower) * 3 / 2))
    {
      var p := Choose(HashOf(cfg, id));
      InsertStep(cfg, shape, next, Heads(primary, old_table), items, id, p);
      PushItem(p, id);
      shape, items := WithChain(shape, p, [id] + ChainAt(shape, p)), items[cfg.key(id) := id];
      hash_items := hash_items + 1;
      if !expanding && hash_items > Pow2(hashpower) * 3 / 2 {
        started_expanding := true;
      }
    }

    /** *before = nxt; the item's own link is cleared. */
    method Unlink(p: Place, before: Link, id: Id)
      requires HasHead(Heads(primary, old_table), p) && id in next
      modifies this`primary, this`old_table, this`next
      ensures before == Nil ==> Heads(primary, old_table) == WithHead(old(Heads(primary, old_table)), p, old(next)[id])
      ensures before != Nil ==> Heads(primary, old_table) == old(Heads(primary, old_table))
      ensures next == if before == Nil then old(next)[id := Nil] else old(next)[before.id := old(next)[id]][id := Nil]
    {
      var nxt := next[id];
      if before == Nil {
        SetHead(p, nxt);
        next := next[id := Nil];
      } else {
        next := next[before.id := nxt][id := Nil];
      }
    }

    /** The item the walk found is unlinked. */
    method RemoveAt(p: Place, k: Key, it: Link, before: Link, ghost i: nat)
      requires Valid() && k in items && p == Route(shape, cfg.hash(k)) && i <= |ChainAt(shape, p)|
      requires forall j :: 0 <= j < i ==> cfg.key(ChainAt(shape, p)[j]) != k
      requires i < |ChainAt(shape, p)| ==> it == To(ChainAt(shape, p)[i]) && cfg.key(ChainAt(shape, p)[i]) == k
      requires if i == 0 then before == Nil else before == To(ChainAt(shape, p)[i - 1])
      modifies this`primary, this`old_table, this`next, this`shape, this`items
      ensures Represents(cfg, shape, next, Heads(primary, old_table), items) && items == old(items) - {k}
      ensures shape.power == old(shape.power) && shape.expanding == old(shape.expanding)
      ensures shape.bucket == old(shape.bucket)
    {
      DeleteStep(cfg, shape, next, Heads(primary, old_table), items, k, p, i, before);
      Unlink(p, before, it.id);
      shape, items := WithChain(shape, p, Without(ChainAt(shape, p), i)), items - {k};
    }

    /** assoc_delete, of a key that is there. */
    method Delete(k: Key)
      requires Valid() && k in items
      modifies this
      ensures Valid() && items == old(items) - {k} && expanding == old(expanding) && expand_bucket == old(expand_bucket)
      ensures hashpower == old(hashpower) && started_expanding == old(started_expanding)
    {
      var p := Choose(cfg.hash(k));
      var it, before;
      ghost var i;
      it, before, i := Walk(p, k);
      RemoveAt(p, k, it, before, i);
      hash_items := hash_items - 1;
    }

    /** assoc_expand; `room` is whether the new table could be allocated. */
    method Expand(room: bool)
      requires Valid() && !expanding
      modifies this
      ensures Valid() && items == old(items) && expanding == room
      ensures room ==> hashpower == old(hashpower) + 1 && expand_bucket == 0
      ensures !room ==> hashpower == old(hashpower)
    {
      if room {
        ExpandedStep(cfg, shape, next, Heads(primary, old_table), items);
        old_table := primary;
        primary := seq(Pow2(hashpower + 1), _ => Nil);
        hashpower, expanding, expand_bucket := hashpower + 1, true, 0;
        shape := Expanded(shape);
      }
    }

    /** The loop over the items of one bucket. */
    method MoveChain(head: Link, ghost sh: Shape, ghost oh: seq<Link>, ghost s: seq<Id>) returns (ghost sh': Shape)
      requires MidMove(cfg, sh, next, Heads(primary, oh), items, head, s) && Movable(cfg, sh, items, s)
      requires sh.power == hashpower
      modifies this`primary, this`next
      ensures Represents(cfg, sh', next, Heads(primary, oh), items)
      ensures sh'.power == sh.power && sh'.expanding == sh.expanding && sh'.bucket == sh.bucket
    {
      var it := head;
      ghost var rest := s;
      sh' := sh;
      while it != Nil
        invariant MidMove(cfg, sh', next, Heads(primary, oh), items, it, rest) && Movable(cfg, sh', items, rest)
        invariant sh'.power == sh.power && sh'.expanding == sh.expanding && sh'.bucket == sh.bucket
        decreases |rest|
      {
        MoveStep(cfg, sh', next, Heads(primary, oh), items, it, rest);
        var id, nxt := it.id, next[it.id];
        var b := Masked(HashOf(cfg, id), hashpower);
        MovableKept(cfg, sh', items, rest, Primary(b), [id] + ChainAt(sh', Primary(b)));
        next, primary := next[id := primary[b]], primary[b := To(id)];
        sh' := WithChain(sh', Primary(b), [id] + ChainAt(sh', Primary(b)));
        it, rest := nxt, rest[1..];
      }
      LessNone(items);
    }

    /** One turn of assoc_maintenance_thread: a bucket is moved, and nothing changes in the
        map. After as many turns as the old table had buckets the expansion is over. */
    method MoveBucket()
      requires Valid() && expanding
      modifies this
      ensures Valid() && items == old(items) && hashpower == old(hashpower) && expand_bucket == old(expand_bucket) + 1
      ensures expanding <==> expand_bucket < Pow2(hashpower - 1)
      ensures !expanding ==> old_table == []
    {
      ghost var sh := shape;
      MoveStarts(cfg, shape, next, Heads(primary, old_table), items);
      BucketMovable(cfg, shape, items);
      ghost var oh := PassedHeads(shape, Heads(primary, old_table)).previous;
      ghost var sh' := MoveChain(old_table[expand_bucket], Passed(shape), oh, shape.previous[shape.bucket]);
      old_table := old_table[expand_bucket := Nil];
      expand_bucket := expand_bucket + 1;
      if expand_bucket == Pow2(hashpower - 1) {
        expanding := false;
        old_table := [];
      }
      shape := sh';
    }

    /** Callers look a key up before they insert or delete it. */
    method RunOp(op: Op)
      requires Valid()
      modifies this
      ensures Valid() && items == After(cfg, old(items), op)
      ensures expanding == old(expanding) && expand_bucket == old(expand_bucket) && hashpower == old(hashpower)
    {
      match op {
        case FindItem(k) =>
          var r := Find(k);
        case InsertItem(id) =>
          var r := Find(cfg.key(id));
          if r == None { Insert(id); }
        case DeleteItem(k) =>
          var r := Find(k);
          if r != None { Delete(k); }
      }
    }

    method RunOps(ops: seq<Op>)
      requires Valid()
      modifies this
      ensures Valid() && items == AfterAll(cfg, old(items), ops)
      ensures expanding == old(expanding) && expand_bucket == old(expand_bucket) && hashpower == old(hashpower)
    {
      for i := 0 to |ops|
        invariant Valid() && items == AfterAll(cfg, old(items), ops[..i])
        invariant expanding == old(expanding) && expand_bucket == old(expand_bucket) && hashpower == old(hashpower)
      {
        assert ops[..i + 1][..i] == ops[..i];
        RunOp(ops[i]);
      }
      assert ops[..|ops|] == ops;
    }

    /** A whole expansion takes exactly 2^(hashpower - 1) bucket moves, whatever operations
        run between them, and those act on the map as if nothing else went on. */
    method ExpandWhile(script: nat -> seq<Op>) returns (moves: nat)
      requires Valid() && !expanding
      modifies this
      ensures Valid() && !expanding && old_table == []
      ensures hashpower == old(hashpower) + 1 && moves == Pow2(hashpower - 1)
      ensures items == AfterRounds(cfg, old(items), script, moves)
    {
      Expand(true);
      moves := 0;
      while expanding
        invariant Valid() && hashpower == old(hashpower) + 1 && moves == expand_bucket <= Pow2(hashpower - 1)
        invariant items == AfterRounds(cfg, old(items), script, moves)
        invariant expanding <==> expand_bucket < Pow2(hashpower - 1)
        invariant !expanding ==> old_table == []
        decreases Pow2(hashpower - 1) - expand_bucket
      {
        RunOps(script(moves));
        MoveBucket();
        moves := moves + 1;
      }
    }
  }
}
