/**
 periodic_recalc and periodics_reschedule, over the reals.
 */
module Periodics {
  import opened TimerHeap

  /** MIN_INTERVAL: 1/2**13. */
  const MIN_INTERVAL: Time := 0.0001220703125

  /** n steps of size d. */
  function Times(n: int, d: Time): Time {
    (n as Time) * d
  }

  lemma Scaled(a: Time, b: Time, d: Time)
    requires d > 0.0
    ensures a <= b ==> a * d <= b * d
    ensures a < b ==> a * d < b * d
  {
  }

  lemma TimesAdd(k: int, n: int, d: Time)
    ensures Times(k + n, d) == Times(k, d) + Times(n, d)
    ensures Times(k - n, d) == Times(k, d) - Times(n, d)
    ensures Times(1, d) == d && Times(0, d) == 0.0
  {
    var x, y := k as Time, n as Time;
    assert (k + n) as Time == x + y && (k - n) as Time == x - y;
    assert (x + y) * d == x * d + y * d && (x - y) * d == x * d - y * d;
  }

  lemma TimesOrder(j: int, k: int, d: Time)
    requires d > 0.0
    ensures j <= k <==> Times(j, d) <= Times(k, d)
  {
    Scaled(j as Time, k as Time, d);
    Scaled(k as Time, j as Time, d);
  }

  lemma TimesAbove(q: Time, k: int, d: Time)
    requires d > 0.0 && q < k as Time
    ensures q * d < Times(k, d)
  {
    Scaled(q, k as Time, d);
  }

  /** The largest whole number of steps of size d within x. */
  function Steps(x: Time, d: Time): int
    requires d > 0.0
  {
    (x / d).Floor
  }

  lemma StepsBounds(x: Time, d: Time)
    requires d > 0.0
    ensures Times(Steps(x, d), d) <= x < Times(Steps(x, d) + 1, d)
  {
    var q, f := x / d, Steps(x, d);
    assert q * d == x;
    Scaled(f as Time, q, d);
    TimesAbove(q, f + 1, d);
  }

  /** Whole steps are in x exactly up to Steps. */
  lemma StepsExact(x: Time, d: Time, n: int)
    requires d > 0.0
    ensures Times(n, d) <= x <==> n <= Steps(x, d)
  {
    StepsBounds(x, d);
    TimesOrder(n, Steps(x, d), d);
    TimesOrder(Steps(x, d) + 1, n, d);
  }

  /** Where periodic_recalc starts looking. */
  function Base(offset: Time, interval: Time, now: Time): Time {
    var i := if interval > MIN_INTERVAL then interval else MIN_INTERVAL;
    offset + Times(Steps(now - offset, i), i)
  }

  /** The time it arrives at. */
  function Recalculated(offset: Time, interval: Time, now: Time): Time
    requires interval > 0.0
  {
    var base := Base(offset, interval, now);
    base + Times(Steps(now - base, interval) + 1, interval)
  }

  lemma BaseNotAfter(offset: Time, interval: Time, now: Time)
    requires interval > 0.0
    ensures Base(offset, interval, now) <= now
  {
    var i := if interval > MIN_INTERVAL then interval else MIN_INTERVAL;
    StepsBounds(now - offset, i);
  }

  /** periodic_recalc. */
  method Recalc(offset: Time, interval: Time, now: Time) returns (at: Time)
    requires interval > 0.0
    ensures at == Recalculated(offset, interval, now) && at > now
  {
    at := Base(offset, interval, now);
    ghost var base, n := at, 0;
    ghost var most := Steps(now - base, interval);
    BaseNotAfter(offset, interval, now);
    StepsExact(now - base, interval, 0);
    TimesAdd(0, 0, interval);
    while at <= now
      invariant at == base + Times(n, interval) && 0 <= n <= most + 1
      decreases most + 1 - n
    {
      StepsExact(now - base, interval, n);
      TimesAdd(n, 1, interval);
      // adding the interval always moves on: the escape for exhausted resolution is not
      // reached with exact numbers
      at, n := at + interval, n + 1;
    }
    StepsExact(now - base, interval, n);
  }

  /** r is the least offset + k * interval after now. */
  ghost predicate LeastAfter(offset: Time, interval: Time, now: Time, r: Time) {
    && r > now && (exists k: int :: OnGrid(offset, interval, r, k))
    && (forall j: int, s :: OnGrid(offset, interval, s, j) && s > now ==> r <= s)
  }

  predicate OnGrid(offset: Time, interval: Time, r: Time, k: int) {
    r == offset + Times(k, interval)
  }

  /** Any grid point one interval after which now lies before is the least. */
  lemma LeastFromGrid(offset: Time, interval: Time, now: Time, r: Time, k: int)
    requires interval > 0.0 && OnGrid(offset, interval, r, k) && r - interval <= now < r
    ensures LeastAfter(offset, interval, now, r)
  {
    forall j: int, s | OnGrid(offset, interval, s, j) && s > now ensures r <= s {
      TimesAdd(k, 1, interval);
      TimesOrder(j, k - 1, interval);
      TimesOrder(k, j, interval);
    }
  }

  lemma RecalculatedNear(offset: Time, interval: Time, now: Time)
    requires interval > 0.0
    ensures var r := Recalculated(offset, interval, now); r - interval <= now < r
  {
    var base := Base(offset, interval, now);
    StepsBounds(now - base, interval);
    TimesAdd(Steps(now - base, interval), 1, interval);
  }

  /** An interval of at least MIN_INTERVAL: the next time is the least on the grid. */
  lemma RecalcIsLeast(offset: Time, interval: Time, now: Time)
    requires interval >= MIN_INTERVAL
    ensures LeastAfter(offset, interval, now, Recalculated(offset, interval, now))
  {
    var k, base := Steps(now - offset, interval), Base(offset, interval, now);
    var n := Steps(now - base, interval) + 1;
    RecalculatedNear(offset, interval, now);
    TimesAdd(k, n, interval);
    assert OnGrid(offset, interval, Recalculated(offset, interval, now), k + n);
    LeastFromGrid(offset, interval, now, Recalculated(offset, interval, now), k + n);
  }

  /** A shorter interval: the search starts on the grid of MIN_INTERVAL, and the next
      time is on the watcher's own grid exactly when that start is. */
  lemma ShortIntervalExact(offset: Time, interval: Time, now: Time)
    requires 0.0 < interval < MIN_INTERVAL
    ensures LeastAfter(offset, interval, now, Recalculated(offset, interval, now))
      <==> exists k: int :: OnGrid(offset, interval, Base(offset, interval, now), k)
  {
    var base, r := Base(offset, interval, now), Recalculated(offset, interval, now);
    var n := Steps(now - base, interval) + 1;
    if k: int :| OnGrid(offset, interval, base, k) {
      RecalculatedNear(offset, interval, now);
      TimesAdd(k, n, interval);
      assert OnGrid(offset, interval, r, k + n);
      LeastFromGrid(offset, interval, now, r, k + n);
    }
    if LeastAfter(offset, interval, now, r) {
      var k: int :| OnGrid(offset, interval, r, k);
      TimesAdd(k, n, interval);
      assert OnGrid(offset, interval, base, k - n);
    }
  }

  /** ... which it need not be. */
  lemma ShortIntervalMisses()
    ensures var i := MIN_INTERVAL * 2.0 / 3.0; !LeastAfter(0.0, i, MIN_INTERVAL, Recalculated(0.0, i, MIN_INTERVAL))
  {
    var i := MIN_INTERVAL * 2.0 / 3.0;
    assert Base(0.0, i, MIN_INTERVAL) == MIN_INTERVAL;
    forall k: int ensures !OnGrid(0.0, i, MIN_INTERVAL, k) {
      assert Times(k, i) == MIN_INTERVAL ==> 2 * k == 3;
    }
    ShortIntervalExact(0.0, i, MIN_INTERVAL);
  }

  // ------------------------------------------------------------------ rescheduling

  /** The three kinds of ev_periodic. */
  datatype Kind = Callback(next: Time -> Time) | Interval(offset: Time, interval: Time) | Once

  predicate KindOk(k: Kind) {
    k.Interval? ==> k.interval > 0.0
  }

  function NewTime(k: Kind, at: Time, now: Time): Time
    requires KindOk(k)
  {
    match k
    case Callback(next) => next(now)
    case Interval(offset, interval) => Recalculated(offset, interval, now)
    case Once => at
  }

  /** The first n nodes have their new keys. */
  predicate Rekeyed(kind: Id -> Kind, now: Time, h0: seq<Node>, h: seq<Node>, n: nat)
    requires forall i :: 0 <= i < |h0| ==> KindOk(kind(h0[i].w))
  {
    && HEAP0 <= n <= |h| == |h0|
    && (forall i :: 0 <= i < |h| ==> h[i].w == h0[i].w)
    && (forall i :: HEAP0 <= i < n ==> h[i].at == NewTime(kind(h0[i].w), h0[i].at, now))
    && (forall i :: n <= i < |h| ==> h[i] == h0[i])
  }

  class Periodic {
    const heap: Heap
    const kind: Id -> Kind

    constructor (kind: Id -> Kind)
      ensures heap.Valid() && heap.Timers() == map[] && this.kind == kind && fresh(heap)
    {
      heap := new Heap();
      this.kind := kind;
    }

    method TimeOf(w: Id, at: Time, now: Time) returns (t: Time)
      requires KindOk(kind(w))
      ensures t == NewTime(kind(w), at, now)
    {
      match kind(w) {
        case Callback(next) => t := next(now);
        case Interval(offset, interval) => t := Recalc(offset, interval, now);
        case Once => t := at;
      }
    }

    /** periodics_reschedule: after any jump of the clock every periodic is at its new
        time, which for an interval of at least MIN_INTERVAL is the least offset plus
        whole intervals after now, and the heap is a heap again of the same watchers. */
    method Reschedule(now: Time)
      requires heap.Valid() && forall w :: KindOk(kind(w))
      modifies heap
      ensures heap.Valid()
      ensures heap.Timers() == map w | w in old(heap.Timers()) :: NewTime(kind(w), old(heap.Timers())[w], now)
      ensures forall w :: w in heap.Timers() && kind(w).Interval? && kind(w).interval >= MIN_INTERVAL ==>
        LeastAfter(kind(w).offset, kind(w).interval, now, heap.Timers()[w])
    {
      ghost var h0, a := heap.nodes, heap.active;
      for i := HEAP0 to |heap.nodes|
        invariant heap.active == a && Rekeyed(kind, now, h0, heap.nodes, i)
      {
        var n := heap.nodes[i];
        var t := TimeOf(n.w, n.at, now);
        heap.nodes := heap.nodes[i := Node(t, n.w)];
      }
      ghost var h := heap.nodes;
      assert Linked(h, a);
      heap.Reheap();
      RearrangedTimers(h, a, heap.nodes, heap.active);
      forall w | w in heap.Timers() && kind(w).Interval? && kind(w).interval >= MIN_INTERVAL
        ensures LeastAfter(kind(w).offset, kind(w).interval, now, heap.Timers()[w])
      {
        RecalcIsLeast(kind(w).offset, kind(w).interval, now);
      }
    }
  }
}
