/**
 The intrusive 4-ary heap of ev.c: nodes with cached keys, and back-pointers from
 watchers to their positions.
 */
module TimerHeap {

  type Id = nat
  type Time = real

  /** ANHE: the cached key and the watcher. */
  datatype Node = Node(at: Time, w: Id)

  /** Index of the first element; entries below it are not used. */
  const HEAP0: nat := 3

  /** HPARENT. In C the division truncates, which makes the root its own parent. */
  function Parent(k: nat): (p: nat)
    requires k >= HEAP0
    ensures HEAP0 <= p <= k && (k > HEAP0 ==> p < k)
  {
    if k == HEAP0 then HEAP0 else (k - HEAP0 - 1) / 4 + HEAP0
  }

  /** pos in downheap. */
  function FirstChild(k: nat): (c: nat)
    requires k >= HEAP0
    ensures c > k
  {
    4 * (k - HEAP0) + HEAP0 + 1
  }

  lemma ParentOfChild(c: nat, k: nat)
    requires k >= HEAP0 && c > HEAP0
    ensures Parent(c) == k <==> FirstChild(k) <= c < FirstChild(k) + 4
  {
  }

  // ---------------------------------------------------------------- heap order

  predicate Above(h: seq<Node>, i: nat)
    requires HEAP0 <= i < |h|
  {
    h[Parent(i)].at <= h[i].at
  }

  /** The first n entries are in heap order. */
  predicate Ordered(h: seq<Node>, n: nat) {
    HEAP0 <= n <= |h| && forall i :: HEAP0 <= i < n ==> Above(h, i)
  }

  predicate GrandOrder(h: seq<Node>, k: nat, c: nat)
    requires HEAP0 <= k < |h| && HEAP0 <= c < |h|
  {
    h[Parent(k)].at <= h[c].at
  }

  /** In heap order but for entry k and its children, which still are not before the
      parent of k. */
  predicate NearHeap(h: seq<Node>, n: nat, k: nat) {
    && HEAP0 <= k < n <= |h|
    && (forall i :: HEAP0 <= i < n && i != k && Parent(i) != k ==> Above(h, i))
    && (k > HEAP0 ==> forall c :: HEAP0 < c < n && Parent(c) == k ==> GrandOrder(h, k, c))
  }

  /** Only the entry itself may be too early. */
  predicate UpOk(h: seq<Node>, n: nat, k: nat) {
    NearHeap(h, n, k) && forall c :: HEAP0 < c < n && Parent(c) == k ==> Above(h, c)
  }

  /** Only the entry itself may be too late. */
  predicate DownOk(h: seq<Node>, n: nat, k: nat) {
    NearHeap(h, n, k) && Above(h, k)
  }

  function Swapped(h: seq<Node>, i: nat, j: nat): (r: seq<Node>)
    requires i < |h| && j < |h|
    ensures |r| == |h|
  {
    h[i := h[j]][j := h[i]]
  }

  lemma UpDone(h: seq<Node>, n: nat, k: nat)
    requires UpOk(h, n, k) && Above(h, k)
    ensures Ordered(h, n)
  {
    forall i | HEAP0 <= i < n ensures Above(h, i) {
      if i != k && Parent(i) == k && i != HEAP0 { assert Above(h, i); }
    }
  }

  lemma UpStep(h: seq<Node>, n: nat, k: nat)
    requires UpOk(h, n, k) && !Above(h, k)
    ensures k > HEAP0 && UpOk(Swapped(h, k, Parent(k)), n, Parent(k))
  {
    assert k > HEAP0;
    var p := Parent(k);
    var g := Swapped(h, k, p);
    assert Above(h, p) by {
      assert p != k && (p == HEAP0 || Parent(p) != k);
    }
    forall i | HEAP0 <= i < n && i != p ensures Above(g, i) {
      if i == k {
      } else if Parent(i) == k {
        assert GrandOrder(h, k, i);
      } else {
        assert Above(h, i);
      }
    }
    if p > HEAP0 {
      forall c | HEAP0 < c < n && Parent(c) == p ensures GrandOrder(g, p, c) {
        if c != k { assert Above(h, c); }
      }
    }
  }

  /** m is an earliest child of k. */
  predicate MinChild(h: seq<Node>, n: nat, k: nat, m: nat) {
    && HEAP0 <= k < m < n <= |h| && Parent(m) == k
    && forall c :: HEAP0 < c < n && Parent(c) == k ==> h[m].at <= h[c].at
  }

  /** The node is not after any child of k. */
  predicate Settled(h: seq<Node>, n: nat, k: nat, he: Node) {
    forall c :: HEAP0 < c < n <= |h| && Parent(c) == k ==> he.at <= h[c].at
  }

  lemma DownDone(h: seq<Node>, n: nat, k: nat)
    requires DownOk(h, n, k) && Settled(h, n, k, h[k])
    ensures Ordered(h, n)
  {
    forall i | HEAP0 <= i < n ensures Above(h, i) {
      if i > HEAP0 && Parent(i) == k {
        assert h[k].at <= h[i].at;
      }
    }
  }

  lemma LeafSettled(h: seq<Node>, n: nat, k: nat, he: Node)
    requires HEAP0 <= k && n <= FirstChild(k)
    ensures Settled(h, n, k, he)
  {
    forall c | HEAP0 < c < n ensures Parent(c) != k {
      ParentOfChild(c, k);
    }
  }

  lemma DownStep(h: seq<Node>, n: nat, k: nat, m: nat)
    requires DownOk(h, n, k) && MinChild(h, n, k, m) && h[m].at < h[k].at
    ensures DownOk(Swapped(h, k, m), n, m)
  {
    var g := Swapped(h, k, m);
    forall i | HEAP0 <= i < n && i != m && Parent(i) != m ensures Above(g, i) {
      if i == k {
        assert k > HEAP0 ==> GrandOrder(h, k, m);
      } else if i > HEAP0 && Parent(i) == k {
        assert h[m].at <= h[i].at;
      } else {
        assert Above(h, i);
      }
    }
    forall c | HEAP0 < c < n && Parent(c) == m ensures GrandOrder(g, m, c) {
      assert Above(h, c);
    }
  }

  /** The top of a heap is a minimum. */
  lemma {:induction false} TopIsMin(h: seq<Node>, n: nat, i: nat)
    requires Ordered(h, n) && HEAP0 <= i < n
    ensures h[HEAP0].at <= h[i].at
    decreases i
  {
    if i > HEAP0 {
      assert Above(h, i);
      TopIsMin(h, n, Parent(i));
    }
  }

  // ------------------------------------------------------------- back-pointers

  /** ev_active of each watcher in the heap is its index; no others are active. */
  predicate Linked(h: seq<Node>, active: map<Id, nat>) {
    && |h| >= HEAP0
    && (forall i :: HEAP0 <= i < |h| ==> h[i].w in active && active[h[i].w] == i)
    && (forall w :: w in active ==> HEAP0 <= active[w] < |h| && h[active[w]].w == w)
  }

  /** The same watchers with the same keys, wherever they now are. */
  predicate SameTimers(h: seq<Node>, active: map<Id, nat>, h': seq<Node>, active': map<Id, nat>)
    requires Linked(h, active) && Linked(h', active')
  {
    active'.Keys == active.Keys && forall w :: w in active ==> h'[active'[w]] == h[active[w]]
  }

  /** Moving one node and its back-pointer to where another was. */
  lemma SwapLinked(h: seq<Node>, active: map<Id, nat>, i: nat, j: nat)
    requires Linked(h, active) && HEAP0 <= i < |h| && HEAP0 <= j < |h| && i != j
    ensures var h', active' := Swapped(h, i, j), active[h[j].w := i][h[i].w := j];
            Linked(h', active') && SameTimers(h, active, h', active')
  {
    var h', active' := Swapped(h, i, j), active[h[j].w := i][h[i].w := j];
    assert h[i].w != h[j].w;
    forall k | HEAP0 <= k < |h| ensures h'[k].w in active' && active'[h'[k].w] == k {
      assert k != i && k != j ==> h[k].w != h[i].w && h[k].w != h[j].w;
    }
    assert active'.Keys == active.Keys;
  }

  /** Nodes and back-pointers as they were, up to a rearrangement. */
  predicate Rearranged(h: seq<Node>, a: map<Id, nat>, h': seq<Node>, a': map<Id, nat>) {
    |h'| == |h| && Linked(h, a) && Linked(h', a') && SameTimers(h, a, h', a')
  }

  /** The sift loops leave a hole at k for the node `he` on its way; filled in, the
      arrays are these. */
  function Filled(h: seq<Node>, k: nat, he: Node): seq<Node>
    requires k < |h|
  {
    h[k := he]
  }

  /** The hole moves from k to m: the node at m moves to k. */
  lemma HoleMoves(h: seq<Node>, a: map<Id, nat>, h0: seq<Node>, a0: map<Id, nat>, he: Node, k: nat, m: nat)
    requires HEAP0 <= k < |h| && HEAP0 <= m < |h| && k != m && Rearranged(h0, a0, Filled(h, k, he), a[he.w := k])
    ensures Rearranged(h0, a0, Filled(h[k := h[m]], m, he), a[h[m].w := k][he.w := m])
    ensures Filled(h[k := h[m]], m, he) == Swapped(Filled(h, k, he), k, m)
  {
    var vh, va := Filled(h, k, he), a[he.w := k];
    SwapLinked(vh, va, k, m);
    assert Filled(h[k := h[m]], m, he) == Swapped(vh, k, m);
    assert a[h[m].w := k][he.w := m] == va[vh[m].w := k][vh[k].w := m] by {
      assert vh[m].w != vh[k].w;
    }
  }

  lemma HoleChild(h: seq<Node>, n: nat, k: nat, m: nat, he: Node)
    requires MinChild(h, n, k, m)
    ensures MinChild(Filled(h, k, he), n, k, m)
  {
  }

  /** The state of the sift loops: `he` is on its way up or down from k. */
  predicate GoingUp(h0: seq<Node>, a0: map<Id, nat>, h: seq<Node>, a: map<Id, nat>, he: Node, n: nat, k: nat) {
    HEAP0 <= k < n <= |h| && Rearranged(h0, a0, Filled(h, k, he), a[he.w := k]) && UpOk(Filled(h, k, he), n, k)
  }

  predicate GoingDown(h0: seq<Node>, a0: map<Id, nat>, h: seq<Node>, a: map<Id, nat>, he: Node, k: nat) {
    HEAP0 <= k < |h| && Rearranged(h0, a0, Filled(h, k, he), a[he.w := k]) && DownOk(Filled(h, k, he), |h|, k)
  }

  /** The back-pointers once that of the node at k is set: the sifts do this last, so
      it need not be right before. */
  function Repaired(h: seq<Node>, a: map<Id, nat>, k: nat): map<Id, nat>
    requires k < |h|
  {
    a[h[k].w := k]
  }

  lemma SiftStart(h: seq<Node>, a: map<Id, nat>, n: nat, k: nat)
    requires HEAP0 <= k < n <= |h| && Linked(h, Repaired(h, a, k))
    ensures UpOk(h, n, k) ==> GoingUp(h, Repaired(h, a, k), h, a, h[k], n, k)
    ensures n == |h| && DownOk(h, n, k) ==> GoingDown(h, Repaired(h, a, k), h, a, h[k], k)
  {
    assert Filled(h, k, h[k]) == h;
  }

  lemma UpMove(h0: seq<Node>, a0: map<Id, nat>, h: seq<Node>, a: map<Id, nat>, he: Node, n: nat, k: nat, p: nat)
    requires GoingUp(h0, a0, h, a, he, n, k) && p == Parent(k) != k && he.at < h[p].at
    ensures GoingUp(h0, a0, h[k := h[p]], a[h[p].w := k], he, n, p)
  {
    UpStep(Filled(h, k, he), n, k);
    HoleMoves(h, a, h0, a0, he, k, p);
  }

  lemma UpEnd(h0: seq<Node>, a0: map<Id, nat>, h: seq<Node>, a: map<Id, nat>, he: Node, n: nat, k: nat)
    requires GoingUp(h0, a0, h, a, he, n, k) && (Parent(k) == k || h[Parent(k)].at <= he.at)
    ensures Rearranged(h0, a0, h[k := he], a[he.w := k]) && Ordered(h[k := he], n)
  {
    UpDone(Filled(h, k, he), n, k);
  }

  lemma DownMove(h0: seq<Node>, a0: map<Id, nat>, h: seq<Node>, a: map<Id, nat>, he: Node, k: nat, m: nat)
    requires GoingDown(h0, a0, h, a, he, k) && MinChild(h, |h|, k, m) && h[m].at < he.at
    ensures GoingDown(h0, a0, h[k := h[m]], a[h[m].w := k], he, m)
  {
    HoleChild(h, |h|, k, m, he);
    DownStep(Filled(h, k, he), |h|, k, m);
    HoleMoves(h, a, h0, a0, he, k, m);
  }

  lemma DownEnd(h0: seq<Node>, a0: map<Id, nat>, h: seq<Node>, a: map<Id, nat>, he: Node, k: nat)
    requires GoingDown(h0, a0, h, a, he, k) && Settled(h, |h|, k, he)
    ensures Rearranged(h0, a0, h[k := he], a[he.w := k]) && Ordered(h[k := he], |h|)
  {
    DownDone(Filled(h, k, he), |h|, k);
  }

  /** The test of adjustheap tells which way the node has to go. */
  lemma AdjustUp(h: seq<Node>, n: nat, k: nat)
    requires NearHeap(h, n, k)
    ensures k > HEAP0 && h[k].at <= h[Parent(k)].at ==> UpOk(h, n, k)
    ensures !(k > HEAP0 && h[k].at <= h[Parent(k)].at) ==> DownOk(h, n, k)
  {
    if k > HEAP0 && h[k].at <= h[Parent(k)].at {
      forall c | HEAP0 < c < n && Parent(c) == k ensures Above(h, c) {
        assert GrandOrder(h, k, c);
      }
    }
  }

  /** A node after a heap has no children yet. */
  lemma NextUpOk(h: seq<Node>, k: nat)
    requires Ordered(h, k) && k < |h|
    ensures UpOk(h, k + 1, k)
  {
    forall c | HEAP0 < c < k + 1 ensures Parent(c) != k { }
  }

  /** Rearranging composes. */
  lemma RearrangedStep(h0: seq<Node>, a0: map<Id, nat>, h: seq<Node>, a: map<Id, nat>)
    requires Rearranged(h0, a0, h, a)
    ensures forall h', a' :: Rearranged(h, a, h', a') ==> Rearranged(h0, a0, h', a')
  {
  }

  // ------------------------------------------------ the plain map of timers

  function TimersOf(h: seq<Node>, a: map<Id, nat>): (t: map<Id, Time>)
    requires Linked(h, a)
    ensures t.Keys == a.Keys
  {
    map w | w in a :: h[a[w]].at
  }

  lemma RearrangedTimers(h: seq<Node>, a: map<Id, nat>, h': seq<Node>, a': map<Id, nat>)
    requires Rearranged(h, a, h', a')
    ensures TimersOf(h', a') == TimersOf(h, a)
  {
  }

  lemma Appended(h: seq<Node>, a: map<Id, nat>, w: Id, at: Time)
    requires Linked(h, a) && Ordered(h, |h|) && w !in a
    ensures var h', a' := h + [Node(at, w)], a[w := |h|];
            Linked(h', a') && Ordered(h', |h|) && TimersOf(h', a') == TimersOf(h, a)[w := at]
  {
    var h' := h + [Node(at, w)];
    forall i | HEAP0 <= i < |h| ensures Above(h', i) {
      assert Above(h, i);
    }
  }

  /** What is left after a removal: the last node has moved, and is yet to be sifted. */
  lemma RemovedMoved(h: seq<Node>, a: map<Id, nat>, w: Id, k: nat, last: nat)
    requires Linked(h, a) && w in a && k == a[w] && last == |h| - 1 && k < last
    ensures var h', a' := h[k := h[last]][..last], (a - {w})[h[last].w := k];
            Linked(h', a') && TimersOf(h', a') == TimersOf(h, a) - {w} && h'[k] == h[last]
  {
    assert h[last].w in a && a[h[last].w] == last;
  }

  lemma RemovedLast(h: seq<Node>, a: map<Id, nat>, w: Id, last: nat)
    requires Linked(h, a) && Ordered(h, |h|) && w in a && last == |h| - 1 == a[w]
    ensures Linked(h[..last], a - {w}) && Ordered(h[..last], last)
    ensures TimersOf(h[..last], a - {w}) == TimersOf(h, a) - {w}
  {
    forall i | HEAP0 <= i < last ensures Above(h[..last], i) { assert Above(h, i); }
  }

  /** Replacing one node of a heap leaves it near a heap. */
  lemma ReplacedNear(h: seq<Node>, k: nat, x: Node)
    requires Ordered(h, |h|) && HEAP0 <= k < |h|
    ensures NearHeap(h[k := x], |h|, k)
  {
    var g := h[k := x];
    forall i | HEAP0 <= i < |h| && i != k && Parent(i) != k ensures Above(g, i) {
      assert Above(h, i);
    }
    forall c | HEAP0 < c < |h| && Parent(c) == k && k > HEAP0 ensures GrandOrder(g, k, c) {
      assert Above(h, c) && Above(h, k);
    }
  }

  lemma RemovedNear(h: seq<Node>, k: nat)
    requires Ordered(h, |h|) && HEAP0 <= k < |h| - 1
    ensures var last := |h| - 1; NearHeap(h[k := h[last]][..last], last, k)
  {
    var last := |h| - 1;
    forall i | HEAP0 <= i < last ensures Above(h[..last], i) { assert Above(h, i); }
    ReplacedNear(h[..last], k, h[last]);
    assert h[k := h[last]][..last] == h[..last][k := h[last]];
  }

  lemma RekeyedNear(h: seq<Node>, a: map<Id, nat>, w: Id, at: Time)
    requires Linked(h, a) && Ordered(h, |h|) && w in a
    ensures var h' := h[a[w] := Node(at, w)];
            Linked(h', a) && NearHeap(h', |h|, a[w]) && TimersOf(h', a) == TimersOf(h, a)[w := at]
  {
    ReplacedNear(h, a[w], Node(at, w));
  }

  // ------------------------------------------------------------------ the code

  class Heap {
    var nodes: seq<Node>
    var active: map<Id, nat>

    constructor ()
      ensures |nodes| == HEAP0 && active == map[]
    {
      nodes, active := [Node(0.0, 0), Node(0.0, 0), Node(0.0, 0)], map[];
    }

    /** upheap, on the first n entries. */
    method Upheap(start: nat, ghost n: nat)
      requires UpOk(nodes, n, start) && Linked(nodes, Repaired(nodes, active, start))
      modifies this
      ensures Rearranged(old(nodes), Repaired(old(nodes), old(active), start), nodes, active) && Ordered(nodes, n)
    {
      ghost var h0, a0 := nodes, Repaired(nodes, active, start);
      var k := start;
      var he := nodes[k];
      SiftStart(nodes, active, n, k);
      while true
        invariant GoingUp(h0, a0, nodes, active, he, n, k)
        decreases k
      {
        var p := Parent(k);
        if p == k || nodes[p].at <= he.at {
          break;
        }
        UpMove(h0, a0, nodes, active, he, n, k, p);
        nodes, active := nodes[k := nodes[p]], active[nodes[p].w := k];
        k := p;
      }
      UpEnd(h0, a0, nodes, active, he, n, k);
      nodes, active := nodes[k := he], active[he.w := k];
    }

    /** The earliest child of k, from pos on: the first of the earliest. */
    method FindMinChild(n: nat, k: nat) returns (m: nat)
      requires HEAP0 <= k < n <= |nodes| && FirstChild(k) < n
      ensures MinChild(nodes, n, k, m)
    {
      var pos := FirstChild(k);
      m := pos;
      if pos + 1 < n && nodes[pos + 1].at < nodes[m].at { m := pos + 1; }
      if pos + 2 < n && nodes[pos + 2].at < nodes[m].at { m := pos + 2; }
      if pos + 3 < n && nodes[pos + 3].at < nodes[m].at { m := pos + 3; }
      ParentOfChild(m, k);
      forall c | HEAP0 < c < n && Parent(c) == k ensures nodes[m].at <= nodes[c].at {
        ParentOfChild(c, k);
      }
    }

    /** downheap, on all entries. */
    method Downheap(start: nat)
      requires DownOk(nodes, |nodes|, start) && Linked(nodes, Repaired(nodes, active, start))
      modifies this
      ensures Rearranged(old(nodes), Repaired(old(nodes), old(active), start), nodes, active) && Ordered(nodes, |nodes|)
    {
      ghost var h0, a0 := nodes, Repaired(nodes, active, start);
      var k, n := start, |nodes|;
      var he := nodes[k];
      SiftStart(nodes, active, n, k);
      var settled := false;
      while FirstChild(k) < n && !settled
        invariant |nodes| == n && GoingDown(h0, a0, nodes, active, he, k)
        invariant settled ==> Settled(nodes, n, k, he)
        decreases !settled, n - k
      {
        var m := FindMinChild(n, k);
        if he.at <= nodes[m].at {
          settled := true;
        } else {
          DownMove(h0, a0, nodes, active, he, k, m);
          nodes, active := nodes[k := nodes[m]], active[nodes[m].w := k];
          k := m;
        }
      }
      if !settled {
        LeafSettled(nodes, n, k, he);
      }
      DownEnd(h0, a0, nodes, active, he, k);
      nodes, active := nodes[k := he], active[he.w := k];
    }

    /** adjustheap. */
    method Adjust(k: nat)
      requires NearHeap(nodes, |nodes|, k) && Linked(nodes, Repaired(nodes, active, k))
      modifies this
      ensures Rearranged(old(nodes), Repaired(old(nodes), old(active), k), nodes, active) && Ordered(nodes, |nodes|)
    {
      AdjustUp(nodes, |nodes|, k);
      if k > HEAP0 && nodes[k].at <= nodes[Parent(k)].at {
        Upheap(k, |nodes|);
      } else {
        Downheap(k);
      }
    }

    /** reheap: from any order of the keys to a heap of the same watchers. */
    method Reheap()
      requires Linked(nodes, active)
      modifies this
      ensures Rearranged(old(nodes), old(active), nodes, active) && Ordered(nodes, |nodes|)
    {
      for i := HEAP0 to |nodes|
        invariant Rearranged(old(nodes), old(active), nodes, active) && Ordered(nodes, i)
      {
        NextUpOk(nodes, i);
        assert Repaired(nodes, active, i) == active;
        RearrangedStep(old(nodes), old(active), nodes, active);
        Upheap(i, i + 1);
      }
    }

    ghost predicate Valid()
      reads this
    {
      Linked(nodes, active) && Ordered(nodes, |nodes|)
    }

    /** The plain set of timers this heap stands for. */
    ghost function Timers(): map<Id, Time>
      requires Valid()
      reads this
    {
      TimersOf(nodes, active)
    }

    /** A new node at the end, then upheap. */
    method Insert(w: Id, at: Time)
      requires Valid() && w !in active
      modifies this
      ensures Valid() && Timers() == old(Timers())[w := at]
    {
      Appended(nodes, active, w, at);
      ghost var h0 := nodes;
      nodes, active := nodes + [Node(at, w)], active[w := |nodes|];
      NextUpOk(nodes, |h0|);
      assert Repaired(nodes, active, |h0|) == active;
      Upheap(|nodes| - 1, |nodes|);
      RearrangedTimers(h0 + [Node(at, w)], old(active)[w := |h0|], nodes, active);
    }

    /** The last node takes the place of the one removed. */
    method Remove(w: Id)
      requires Valid() && w in active
      modifies this
      ensures Valid() && Timers() == old(Timers()) - {w}
    {
      var k, last := active[w], |nodes| - 1;
      ghost var h0, a0 := nodes, active;
      active := active - {w};
      if k < last {
        RemovedMoved(h0, a0, w, k, last);
        RemovedNear(h0, k);
        nodes := nodes[k := nodes[last]][..last];
        Adjust(k);
        RearrangedTimers(h0[k := h0[last]][..last], (a0 - {w})[h0[last].w := k], nodes, active);
      } else {
        RemovedLast(h0, a0, w, last);
        nodes := nodes[..last];
      }
    }

    /** A watcher in the heap gets a new key. */
    method Rekey(w: Id, at: Time)
      requires Valid() && w in active
      modifies this
      ensures Valid() && Timers() == old(Timers())[w := at]
    {
      var k := active[w];
      ghost var h0 := nodes;
      nodes := nodes[k := Node(at, w)];
      RekeyedNear(h0, active, w, at);
      assert Repaired(nodes, active, k) == active;
      Adjust(k);
      RearrangedTimers(h0[k := Node(at, w)], old(active), nodes, active);
    }

    /** The top gets a new key and goes down; from the root there is no other way. */
    method RekeyTop(at: Time)
      requires Valid() && |nodes| > HEAP0
      modifies this
      ensures Valid() && Timers() == old(Timers())[old(nodes)[HEAP0].w := at]
    {
      var w := nodes[HEAP0].w;
      ghost var h0 := nodes;
      assert active[w] == HEAP0;
      nodes := nodes[HEAP0 := Node(at, w)];
      RekeyedNear(h0, active, w, at);
      assert Repaired(nodes, active, HEAP0) == active;
      Downheap(HEAP0);
      RearrangedTimers(h0[HEAP0 := Node(at, w)], old(active), nodes, active);
    }

    /** timers[HEAP0]: its key is a minimum over all timers. */
    method Top() returns (n: Node, some: bool)
      requires Valid()
      ensures some <==> Timers() != map[]
      ensures some ==> n.w in Timers() && Timers()[n.w] == n.at && |nodes| > HEAP0 && n == nodes[HEAP0]
      ensures some ==> forall w :: w in Timers() ==> n.at <= Timers()[w]
    {
      some := |nodes| > HEAP0;
      n := if some then nodes[HEAP0] else Node(0.0, 0);
      if some {
        assert n.w in active && active[n.w] == HEAP0;
        forall w | w in Timers() ensures n.at <= Timers()[w] {
          TopIsMin(nodes, |nodes|, active[w]);
        }
      }
    }
  }
}
