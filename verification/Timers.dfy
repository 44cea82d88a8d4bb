/**
 ev_timer_start, ev_timer_stop, ev_timer_again and timers_reify, on the timer heap
 and the pending queues.
 */
module Timers {
  import H = TimerHeap
  import P = Pending

  type Id = nat
  type Time = real

  /** EV_TIMER, by its bit. */
  const TIMER: P.Mask := {8}

  /** The keys cached in the heap are those of the watchers. */
  predicate Cached(at: map<Id, Time>, timers: map<Id, Time>) {
    forall w :: w in timers ==> w in at && at[w] == timers[w]
  }

  /** The next time of a repeating timer: never before now. */
  function Next(t: Time, repeat: Time, now: Time): Time {
    if t + repeat < now then now else t + repeat
  }

  /** s is not before now, and at least a period after t. */
  predicate MayBeNext(t: Time, repeat: Time, now: Time, s: Time) {
    now <= s && t + repeat <= s
  }

  ghost predicate IsLeastNext(t: Time, repeat: Time, now: Time, r: Time) {
    MayBeNext(t, repeat, now, r) && forall s: Time :: MayBeNext(t, repeat, now, s) ==> r <= s
  }

  // ------------------------------------------------------- what reify is to do

  predicate Expired(t0: map<Id, Time>, now: Time, w: Id) {
    w in t0 && t0[w] < now
  }

  /** One timer has been dealt with: rescheduled, or stopped if it does not repeat. */
  function Handled(t: map<Id, Time>, repeat: Id -> Time, now: Time, w: Id): map<Id, Time>
    requires w in t
  {
    if repeat(w) != 0.0 then t[w := Next(t[w], repeat(w), now)] else t - {w}
  }

  predicate Distinct(ids: seq<Id>) {
    forall i, j :: 0 <= i < j < |ids| ==> ids[i] != ids[j]
  }

  /** Timers in the order they were due. */
  predicate DueInOrder(t0: map<Id, Time>, ids: seq<Id>) {
    && (forall i :: 0 <= i < |ids| ==> ids[i] in t0)
    && (forall i, j :: 0 <= i < j < |ids| ==> t0[ids[i]] <= t0[ids[j]])
  }

  /** What remains of the timers when those in `fired` have been dealt with. */
  predicate Remaining(t0: map<Id, Time>, repeat: Id -> Time, now: Time, fired: seq<Id>, t: map<Id, Time>) {
    && (forall w :: w in t0 && w !in fired ==> w in t && t[w] == t0[w])
    && (forall w :: w in t0 && w in fired && repeat(w) != 0.0 ==> w in t && t[w] == Next(t0[w], repeat(w), now))
    && (forall w :: w in t ==> w in t0 && (w in fired ==> repeat(w) != 0.0))
  }

  lemma RemainingAreLeast(t0: map<Id, Time>, repeat: Id -> Time, now: Time, fired: seq<Id>, t: map<Id, Time>)
    requires Remaining(t0, repeat, now, fired, t) && forall w :: w in fired ==> w in t0
    ensures forall w :: w in fired && repeat(w) != 0.0 ==> w in t && IsLeastNext(t0[w], repeat(w), now, t[w])
  {
  }

  /** The state of the loop of timers_reify: those dealt with were expired, each once,
      in order, and no expired timer that is left was due before any of them. */
  predicate Reifying(t0: map<Id, Time>, repeat: Id -> Time, now: Time, fired: seq<Id>, t: map<Id, Time>) {
    Remaining(t0, repeat, now, fired, t) && InOrder(t0, now, fired)
  }

  lemma NotYetFired(t0: map<Id, Time>, repeat: Id -> Time, now: Time, fired: seq<Id>, t: map<Id, Time>, w: Id)
    requires Remaining(t0, repeat, now, fired, t) && Expired(t, now, w)
    ensures w !in fired && w in t0 && t0[w] == t[w]
  {
  }

  lemma RemainingStep(t0: map<Id, Time>, repeat: Id -> Time, now: Time, fired: seq<Id>, t: map<Id, Time>, w: Id)
    requires Remaining(t0, repeat, now, fired, t) && Expired(t, now, w)
    ensures Remaining(t0, repeat, now, fired + [w], Handled(t, repeat, now, w))
  {
    NotYetFired(t0, repeat, now, fired, t, w);
    assert forall v :: v in fired + [w] <==> v in fired || v == w;
  }

  /** What Reifying says about the order, apart from what remains. */
  predicate InOrder(t0: map<Id, Time>, now: Time, fired: seq<Id>) {
    && Distinct(fired) && DueInOrder(t0, fired)
    && (forall i :: 0 <= i < |fired| ==> Expired(t0, now, fired[i]))
    && (forall i, w :: 0 <= i < |fired| && w in t0 && w !in fired ==> t0[fired[i]] <= t0[w])
  }

  lemma OrderStep(t0: map<Id, Time>, now: Time, fired: seq<Id>, w: Id)
    requires InOrder(t0, now, fired) && Expired(t0, now, w) && w !in fired
    requires forall v :: v in t0 && v !in fired ==> t0[w] <= t0[v]
    ensures InOrder(t0, now, fired + [w])
  {
    assert forall v :: v in fired + [w] <==> v in fired || v == w;
  }

  lemma ReifyStep(t0: map<Id, Time>, repeat: Id -> Time, now: Time, fired: seq<Id>, t: map<Id, Time>, w: Id)
    requires Reifying(t0, repeat, now, fired, t) && Expired(t, now, w)
    requires forall v :: v in t ==> t[w] <= t[v]
    ensures w !in fired && w in t0 && t0[w] == t[w]
    ensures Reifying(t0, repeat, now, fired + [w], Handled(t, repeat, now, w))
  {
    NotYetFired(t0, repeat, now, fired, t, w);
    RemainingStep(t0, repeat, now, fired, t, w);
    OrderStep(t0, now, fired, w);
  }

  /** At the end exactly the timers expired at entry have been dealt with, and none is
      left before now. */
  lemma ReifyEnd(t0: map<Id, Time>, repeat: Id -> Time, now: Time, fired: seq<Id>, t: map<Id, Time>)
    requires Reifying(t0, repeat, now, fired, t) && forall w :: w in t ==> t[w] >= now
    ensures forall w :: w in fired <==> Expired(t0, now, w)
  {
  }

  // ------------------------------------------------------ what is owed afterwards

  /** Stopping a timer that does not repeat also cancels what was owed to it. */
  function Dropped(f: map<Id, P.Mask>, repeat: Id -> Time, fired: seq<Id>): map<Id, P.Mask> {
    map w | w in f && !(w in fired && repeat(w) == 0.0) :: f[w]
  }

  lemma DroppedStep(f: map<Id, P.Mask>, repeat: Id -> Time, fired: seq<Id>, w: Id)
    ensures Dropped(f, repeat, fired + [w]) == if repeat(w) == 0.0 then Dropped(f, repeat, fired) - {w} else Dropped(f,
        repeat, fired)
  {
    assert forall v :: v in fired + [w] <==> v in fired || v == w;
  }

  /** EV_TIMER is fed to each of `ids`. */
  function FedAll(f: map<Id, P.Mask>, ids: seq<Id>): map<Id, P.Mask> {
    map w | w in f.Keys + Ids(ids) :: P.EventsOf(f, w) + (if w in ids then TIMER else {})
  }

  function Ids(ids: seq<Id>): set<Id> {
    set w | w in ids
  }

  lemma FedNone(f: map<Id, P.Mask>)
    ensures FedAll(f, []) == f
  {
    assert f.Keys + Ids([]) == f.Keys;
    assert forall w :: w in f ==> f[w] + {} == f[w];
  }

  lemma FedAllStep(f: map<Id, P.Mask>, w: Id, ids: seq<Id>)
    requires w !in ids
    ensures FedAll(f, [w] + ids) == FedAll(f, ids)[w := P.EventsOf(FedAll(f, ids), w) + TIMER]
  {
    assert forall v :: v in [w] + ids <==> v == w || v in ids;
    var g := FedAll(f, ids);
    assert P.EventsOf(g, w) == P.EventsOf(f, w);
  }

  // ------------------------------------------------------------ order of delivery

  function SlotFor(w: Id): P.Slot {
    P.Slot(P.Watcher(w), TIMER)
  }

  /** Queue p after EV_TIMER was fed to the last of `ids`, then the one before, and so
      on to the first. */
  function Stacked(pri: Id -> nat, ids: seq<Id>, p: nat): seq<P.Slot> {
    if |ids| == 0 then [] else Stacked(pri, ids[1..], p) + (if pri(ids[0]) == p then [SlotFor(ids[0])] else [])
  }

  /** Those of `ids` with priority p, in their order. */
  function WithPriority(pri: Id -> nat, ids: seq<Id>, p: nat): seq<P.Slot> {
    if |ids| == 0 then [] else (if pri(ids[0]) == p then [SlotFor(ids[0])] else []) + WithPriority(pri, ids[1..], p)
  }

  /** Taking the stack from its end turns the order back. */
  lemma {:induction false} TwiceReversed(pri: Id -> nat, ids: seq<Id>, p: nat)
    ensures P.Reversed(Stacked(pri, ids, p)) == WithPriority(pri, ids, p)
  {
    if |ids| > 0 {
      TwiceReversed(pri, ids[1..], p);
      var rest := Stacked(pri, ids[1..], p);
      if pri(ids[0]) == p {
        assert (rest + [SlotFor(ids[0])])[..|rest|] == rest;
        assert Stacked(pri, ids, p) == rest + [SlotFor(ids[0])];
      } else {
        assert Stacked(pri, ids, p) == rest && WithPriority(pri, ids, p) == WithPriority(pri, ids[1..], p);
      }
    }
  }

  /** Priorities n - 1 down to 0, each in the order of `ids`. */
  function ByPriority(pri: Id -> nat, ids: seq<Id>, n: nat): seq<P.Slot> {
    if n == 0 then [] else WithPriority(pri, ids, n - 1) + ByPriority(pri, ids, n - 1)
  }

  lemma {:induction false} DrainsByPriority(pri: Id -> nat, ids: seq<Id>, slots: seq<seq<P.Slot>>, n: nat)
    requires n <= |slots| && forall p :: 0 <= p < |slots| ==> slots[p] == Stacked(pri, ids, p)
    ensures P.DrainOrder(slots, n) == ByPriority(pri, ids, n)
  {
    if n > 0 {
      DrainsByPriority(pri, ids, slots, n - 1);
      TwiceReversed(pri, ids, n - 1);
    }
  }

  /** The queues hold EV_TIMER for the timers in `ids`, and nothing else. */
  ghost predicate OnlyTimers(pri: Id -> nat, q: P.Queues, ids: seq<Id>) {
    && |q.slots| == P.NUMPRI && (forall p :: 0 <= p < P.NUMPRI ==> q.slots[p] == Stacked(pri, ids, p))
    && (forall w :: w in q.pending <==> w in ids)
  }

  lemma OnlyTimersNone(pri: Id -> nat, q: P.Queues)
    requires P.PriOk(pri) && P.Ok(pri, q) && P.HighEmpty(q.slots, 0)
    ensures OnlyTimers(pri, q, [])
  {
    P.NothingOwed(pri, q);
  }

  lemma OnlyTimersStep(pri: Id -> nat, q: P.Queues, w: Id, ids: seq<Id>)
    requires P.Ok(pri, q) && pri(w) < P.NUMPRI && OnlyTimers(pri, q, ids) && w !in ids
    ensures OnlyTimers(pri, P.Fed(pri, q, w, TIMER), [w] + ids)
  {
    assert ([w] + ids)[1..] == ids;
  }

  // What invoking by priority means, without the recursion.

  predicate IsTimerSlot(s: P.Slot) {
    s.who.Watcher? && s.events == TIMER
  }

  /** The slots of a trace are EV_TIMER slots, one for each of the given watchers. */
  ghost predicate OneSlotEach(trace: seq<P.Slot>, ids: iset<Id>) {
    && (forall i :: 0 <= i < |trace| ==> IsTimerSlot(trace[i]) && trace[i].who.w in ids)
    && (forall w :: w in ids ==> SlotFor(w) in trace)
    && (forall i, j :: 0 <= i < j < |trace| ==> trace[i].who != trace[j].who)
  }

  /** Higher priorities first; within one priority in the order of the times t0. */
  predicate InDeliveryOrder(pri: Id -> nat, t0: map<Id, Time>, trace: seq<P.Slot>)
    requires forall i :: 0 <= i < |trace| ==> trace[i].who.Watcher? && trace[i].who.w in t0
  {
    forall i, j :: 0 <= i < j < |trace| ==>
      pri(trace[i].who.w) >= pri(trace[j].who.w)
      && (pri(trace[i].who.w) == pri(trace[j].who.w) ==> t0[trace[i].who.w] <= t0[trace[j].who.w])
  }

  ghost function AtPriority(pri: Id -> nat, ids: seq<Id>, p: nat): iset<Id> {
    iset w | w in ids && pri(w) == p
  }

  ghost function BelowPriority(pri: Id -> nat, ids: seq<Id>, n: nat): iset<Id> {
    iset w | w in ids && pri(w) < n
  }

  lemma {:induction false} WithPriorityOnce(pri: Id -> nat, ids: seq<Id>, p: nat)
    requires Distinct(ids)
    ensures OneSlotEach(WithPriority(pri, ids, p), AtPriority(pri, ids, p))
  {
    if |ids| > 0 {
      var rest := ids[1..];
      assert forall i :: 0 <= i < |rest| ==> rest[i] == ids[i + 1];
      WithPriorityOnce(pri, rest, p);
      assert forall w :: w in ids <==> w == ids[0] || w in rest;
      assert ids[0] !in rest;
    }
  }

  /** Two invocations of one priority are in the order of `ids`. */
  lemma {:induction false} PriorityIsInOrder(pri: Id -> nat, t0: map<Id, Time>, ids: seq<Id>, p: nat)
    requires DueInOrder(t0, ids) && Distinct(ids)
    ensures OneSlotEach(WithPriority(pri, ids, p), AtPriority(pri, ids, p))
    ensures InDeliveryOrder(pri, t0, WithPriority(pri, ids, p))
  {
    WithPriorityOnce(pri, ids, p);
    if |ids| > 0 {
      var rest := ids[1..];
      assert forall i :: 0 <= i < |rest| ==> rest[i] == ids[i + 1];
      PriorityIsInOrder(pri, t0, rest, p);
      assert forall v :: v in rest ==> v in ids && t0[ids[0]] <= t0[v];
    }
  }

  lemma JoinOnce(first: seq<P.Slot>, second: seq<P.Slot>, a: iset<Id>, b: iset<Id>)
    requires OneSlotEach(first, a) && OneSlotEach(second, b) && a !! b
    ensures OneSlotEach(first + second, a + b)
  {
    var all := first + second;
    forall w | w in a + b ensures SlotFor(w) in all {
      if w in a { assert SlotFor(w) in first; } else { assert SlotFor(w) in second; }
    }
    assert forall i :: 0 <= i < |first| ==> first[i].who.w in a;
    assert forall i :: 0 <= i < |second| ==> second[i].who.w in b;
  }

  /** The drain goes by priority, then by time, and takes each timer once. */
  lemma {:induction false} ByPriorityIsInOrder(pri: Id -> nat, t0: map<Id, Time>, ids: seq<Id>, n: nat)
    requires DueInOrder(t0, ids) && Distinct(ids)
    ensures OneSlotEach(ByPriority(pri, ids, n), BelowPriority(pri, ids, n))
    ensures InDeliveryOrder(pri, t0, ByPriority(pri, ids, n))
  {
    if n > 0 {
      var first, second := WithPriority(pri, ids, n - 1), ByPriority(pri, ids, n - 1);
      PriorityIsInOrder(pri, t0, ids, n - 1);
      ByPriorityIsInOrder(pri, t0, ids, n - 1);
      JoinOnce(first, second, AtPriority(pri, ids, n - 1), BelowPriority(pri, ids, n - 1));
      assert AtPriority(pri, ids, n - 1) + BelowPriority(pri, ids, n - 1) == BelowPriority(pri, ids, n);
      assert forall i :: 0 <= i < |first| ==> pri(first[i].who.w) == n - 1;
      assert forall i :: 0 <= i < |second| ==> pri(second[i].who.w) < n - 1;
    } else {
      assert BelowPriority(pri, ids, 0) == iset{};
    }
  }

  /** Draining queues that hold just the expired timers. */
  lemma DrainIsInOrder(pri: Id -> nat, t0: map<Id, Time>, now: Time, ids: seq<Id>, slots: seq<seq<P.Slot>>)
    requires P.PriOk(pri) && DueInOrder(t0, ids) && Distinct(ids) && forall w :: w in ids <==> Expired(t0, now, w)
    requires |slots| == P.NUMPRI && forall p :: 0 <= p < P.NUMPRI ==> slots[p] == Stacked(pri, ids, p)
    ensures var trace := P.DrainOrder(slots, P.NUMPRI);
            OneSlotEach(trace, iset w | Expired(t0, now, w)) && InDeliveryOrder(pri, t0, trace)
  {
    DrainsByPriority(pri, ids, slots, P.NUMPRI);
    ByPriorityIsInOrder(pri, t0, ids, P.NUMPRI);
    assert BelowPriority(pri, ids, P.NUMPRI) == iset w | Expired(t0, now, w);
  }

  lemma NotPending(pri: Id -> nat, q: P.Queues, w: Id)
    requires P.PriOk(pri) && P.Ok(pri, q) && P.HighEmpty(q.slots, 0)
    ensures P.Cleared(pri, q, w) == q
  {
    P.NothingOwed(pri, q);
  }

  // -------------------------------------------------------------------- the code

  class Loop {
    const heap: H.Heap
    const queue: P.Loop
    const repeat: Id -> Time
    var mn_now: Time
    var at: map<Id, Time>

    /** verify_heap: order, back-pointers and cached keys; and the pending queues. */
    ghost predicate Valid()
      reads this, heap, queue
    {
      heap.Valid() && queue.Valid() && Cached(at, heap.Timers()) && forall w :: repeat(w) >= 0.0
    }

    constructor (pri: Id -> nat, repeat: Id -> Time)
      requires P.PriOk(pri) && forall w :: repeat(w) >= 0.0
      ensures Valid() && heap.Timers() == map[] && queue.log == [] && fresh(heap) && fresh(queue)
    {
      heap := new H.Heap();
      queue := new P.Loop(pri);
      this.repeat, mn_now, at := repeat, 0.0, map[];
    }

    /** time_update: mn_now is read from the clock. */
    method TimeUpdate(now: Time)
      requires Valid()
      modifies this`mn_now
      ensures Valid() && mn_now == now && heap.Timers() == old(heap.Timers()) && queue.log == old(queue.log)
    {
      mn_now := now;
    }

    /** ev_timer_start: w's time is relative until it is active. */
    method TimerStart(w: Id)
      requires Valid() && w in at
      modifies this`at, heap
      ensures Valid() && queue.log == old(queue.log)
      ensures w in old(heap.Timers()) ==> heap.Timers() == old(heap.Timers())
      ensures w !in old(heap.Timers()) ==> heap.Timers() == old(heap.Timers())[w := old(at)[w] + mn_now]
      ensures at == if w in old(heap.Timers()) then old(at) else old(at)[w := old(at)[w] + mn_now]
    {
      if w in heap.active { return; }
      at := at[w := at[w] + mn_now];
      heap.Insert(w, at[w]);
    }

    /** ev_timer_stop. */
    method TimerStop(w: Id)
      requires Valid() && w in at
      modifies this`at, heap, queue
      ensures Valid() && queue.log == old(queue.log) + [P.Stopped(w)]
      ensures queue.q == P.Cleared(queue.pri, old(queue.q), w)
      ensures heap.Timers() == old(heap.Timers()) - {w}
      ensures at == if w in old(heap.Timers()) then old(at)[w := old(at)[w] - mn_now] else old(at)
    {
      queue.ClearPending(w);
      if w !in heap.active { return; }
      heap.Remove(w);
      at := at[w := at[w] - mn_now];
    }

    /** ev_timer_again. */
    method TimerAgain(w: Id)
      requires Valid() && w in at
      modifies this`at, heap, queue
      ensures Valid()
      ensures repeat(w) != 0.0 ==> heap.Timers() == old(heap.Timers())[w := mn_now + repeat(w)]
      ensures repeat(w) == 0.0 ==> heap.Timers() == old(heap.Timers()) - {w}
      ensures P.Owed(queue.log) == P.Owed(old(queue.log)) - {w}
      ensures at == old(at)[w := if repeat(w) != 0.0 then mn_now + repeat(w)
                                 else if w in old(heap.Timers()) then old(at)[w] - mn_now else old(at)[w]]
    {
      queue.ClearPending(w);
      P.OwedNext(old(queue.log), P.Stopped(w));
      Again(w);
    }

    /** The rest of ev_timer_again, nothing being owed to w. */
    method Again(w: Id)
      requires Valid() && w in at && w !in P.Owed(queue.log)
      modifies this`at, heap, queue
      ensures Valid() && P.Owed(queue.log) == P.Owed(old(queue.log))
      ensures repeat(w) != 0.0 ==> heap.Timers() == old(heap.Timers())[w := mn_now + repeat(w)]
      ensures repeat(w) == 0.0 ==> heap.Timers() == old(heap.Timers()) - {w}
      ensures at == old(at)[w := if repeat(w) != 0.0 then mn_now + repeat(w)
                                 else if w in old(heap.Timers()) then old(at)[w] - mn_now else old(at)[w]]
    {
      if w in heap.active {
        if repeat(w) != 0.0 {
          at := at[w := mn_now + repeat(w)];
          heap.Rekey(w, at[w]);
        } else {
          P.OwedNext(queue.log, P.Stopped(w));
          TimerStop(w);
        }
      } else if repeat(w) != 0.0 {
        at := at[w := repeat(w)];
        TimerStart(w);
      }
    }

    /** One turn of the loop of timers_reify, for the timer on top. */
    method HandleTop(w: Id)
      requires Valid() && |heap.nodes| > H.HEAP0 && w == heap.nodes[H.HEAP0].w && w in heap.Timers()
      modifies this`at, heap, queue
      ensures Valid() && heap.Timers() == Handled(old(heap.Timers()), repeat, mn_now, w)
      ensures P.Owed(queue.log) == if repeat(w) != 0.0 then P.Owed(old(queue.log)) else P.Owed(old(queue.log)) - {w}
      ensures queue.q == if repeat(w) != 0.0 then old(queue.q) else P.Cleared(queue.pri, old(queue.q), w)
    {
      if repeat(w) != 0.0 {
        at := at[w := at[w] + repeat(w)];
        if at[w] < mn_now {
          at := at[w := mn_now];
        }
        heap.RekeyTop(at[w]);
      } else {
        P.OwedNext(queue.log, P.Stopped(w));
        TimerStop(w);
      }
    }

    /** What the loop of timers_reify has come to. */
    ghost predicate Handling(t0: map<Id, Time>, f0: map<Id, P.Mask>, fired: seq<Id>)
      reads this, heap, queue
    {
      && Valid() && Reifying(t0, repeat, mn_now, fired, heap.Timers())
      && P.Owed(queue.log) == Dropped(f0, repeat, fired)
    }

    /** One turn, with what it does to the timers, to what is owed and to the queues. */
    method HandleNext(top: H.Node, ghost t0: map<Id, Time>, ghost f0: map<Id, P.Mask>, ghost fired: seq<Id>)
      requires Handling(t0, f0, fired) && |heap.nodes| > H.HEAP0 && top == heap.nodes[H.HEAP0] && top.at < mn_now
      requires top.w in heap.Timers() && heap.Timers()[top.w] == top.at
      requires forall w :: w in heap.Timers() ==> top.at <= heap.Timers()[w]
      modifies this`at, heap, queue
      ensures Handling(t0, f0, fired + [top.w]) && top.w in t0 && top.w !in fired
      ensures P.HighEmpty(old(queue.q).slots, 0) ==> queue.q == old(queue.q)
    {
      ReifyStep(t0, repeat, mn_now, fired, heap.Timers(), top.w);
      DroppedStep(f0, repeat, fired, top.w);
      if P.HighEmpty(queue.q.slots, 0) { NotPending(queue.pri, queue.q, top.w); }
      HandleTop(top.w);
    }

    /** The loop of timers_reify: every timer that is due goes to rfeeds. */
    method HandleExpired() returns (rfeeds: seq<Id>)
      requires Valid()
      modifies this`at, heap, queue
      ensures Valid() && Reifying(old(heap.Timers()), repeat, mn_now, rfeeds, heap.Timers())
      ensures forall w :: w in heap.Timers() ==> heap.Timers()[w] >= mn_now
      ensures P.Owed(queue.log) == Dropped(P.Owed(old(queue.log)), repeat, rfeeds)
      ensures P.HighEmpty(old(queue.q).slots, 0) ==> queue.q == old(queue.q)
    {
      ghost var t0, f0, q0 := heap.Timers(), P.Owed(queue.log), queue.q;
      rfeeds := [];
      var top, some := heap.Top();
      while some && top.at < mn_now
        invariant Handling(t0, f0, rfeeds) && (P.HighEmpty(q0.slots, 0) ==> queue.q == q0)
        invariant some <==> heap.Timers() != map[]
        invariant some ==> top.w in heap.Timers() && heap.Timers()[top.w] == top.at
        invariant some ==> |heap.nodes| > H.HEAP0 && top == heap.nodes[H.HEAP0]
        invariant some ==> forall w :: w in heap.Timers() ==> top.at <= heap.Timers()[w]
        decreases t0.Keys - Ids(rfeeds)
      {
        HandleNext(top, t0, f0, rfeeds);
        assert top.w in t0.Keys - Ids(rfeeds) && top.w !in t0.Keys - Ids(rfeeds + [top.w]);
        rfeeds := rfeeds + [top.w];
        top, some := heap.Top();
      }
    }

    /** feed_reverse_done: from the end of rfeeds to its start. */
    method FeedReverseDone(rfeeds: seq<Id>)
      requires Valid() && Distinct(rfeeds)
      modifies queue
      ensures Valid() && P.Owed(queue.log) == FedAll(P.Owed(old(queue.log)), rfeeds)
      ensures P.Extends(old(queue.log), queue.log)
      ensures P.HighEmpty(old(queue.q).slots, 0) ==> OnlyTimers(queue.pri, queue.q, rfeeds)
    {
      ghost var f, clean := P.Owed(queue.log), P.HighEmpty(queue.q.slots, 0);
      var i := |rfeeds|;
      FedNone(f);
      if clean { OnlyTimersNone(queue.pri, queue.q); }
      assert rfeeds[i..] == [];
      while i > 0
        invariant 0 <= i <= |rfeeds| && Valid() && P.Extends(old(queue.log), queue.log)
        invariant P.Owed(queue.log) == FedAll(f, rfeeds[i..])
        invariant clean ==> OnlyTimers(queue.pri, queue.q, rfeeds[i..])
      {
        i := i - 1;
        var w := rfeeds[i];
        ghost var after := rfeeds[i + 1..];
        assert rfeeds[i..] == [w] + after && w !in after;
        FedAllStep(f, w, after);
        P.OwedNext(queue.log, P.FedTo(w, TIMER));
        if clean { OnlyTimersStep(queue.pri, queue.q, w, after); }
        queue.FeedEvent(w, TIMER);
      }
      assert rfeeds[0..] == rfeeds;
    }

    /** timers_reify: exactly the timers expired at entry are fed, each once; each is
        rescheduled or stopped, and none stays before now. */
    method TimersReify() returns (fired: seq<Id>)
      requires Valid()
      modifies this`at, heap, queue
      ensures Valid() && Remaining(old(heap.Timers()), repeat, mn_now, fired, heap.Timers())
      ensures Distinct(fired) && DueInOrder(old(heap.Timers()), fired)
      ensures forall w :: w in fired <==> Expired(old(heap.Timers()), mn_now, w)
      ensures forall w :: w in heap.Timers() ==> heap.Timers()[w] >= mn_now
      ensures forall w :: w in fired && repeat(w) != 0.0 ==>
        w in heap.Timers() && IsLeastNext(old(heap.Timers())[w], repeat(w), mn_now, heap.Timers()[w])
      ensures P.Owed(queue.log) == FedAll(Dropped(P.Owed(old(queue.log)), repeat, fired), fired)
      ensures P.HighEmpty(old(queue.q).slots, 0) ==> OnlyTimers(queue.pri, queue.q, fired)
    {
      fired := HandleExpired();
      ReifyEnd(old(heap.Timers()), repeat, mn_now, fired, heap.Timers());
      RemainingAreLeast(old(heap.Timers()), repeat, mn_now, fired, heap.Timers());
      ghost var f := P.Owed(queue.log);
      if fired != [] {
        FeedReverseDone(fired);
      } else {
        FedNone(f);
        if P.HighEmpty(queue.q.slots, 0) { OnlyTimersNone(queue.pri, queue.q); }
      }
    }

    /** With nothing queued before and callbacks that do nothing, the timers that were
        due are invoked priority by priority, and within a priority in the order they
        were due, in spite of the two reversals on the way. */
    method ReifyAndInvoke() returns (trace: seq<P.Slot>)
      requires Valid() && P.HighEmpty(queue.q.slots, 0)
      modifies this`at, heap, queue
      ensures Valid() && P.HighEmpty(queue.q.slots, 0)
      ensures exists log :: P.Replayed(log, trace, [], queue.log)
      ensures OneSlotEach(trace, iset w | Expired(old(heap.Timers()), mn_now, w))
      ensures InDeliveryOrder(queue.pri, old(heap.Timers()), trace)
    {
      var fired := TimersReify();
      ghost var slots := queue.q.slots;
      ghost var log := queue.log;
      trace := queue.InvokePending([]);
      assert P.Replayed(log, trace, [], queue.log);
      DrainIsInOrder(queue.pri, old(heap.Timers()), mn_now, fired, slots);
    }
  }
}
