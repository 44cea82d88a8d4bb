/**
 The pending queues of ev.c: per priority an array of slots used as a stack, with a
 back-pointer in each watcher, and a dummy watcher in slots that were cancelled.
 */
module Pending {

  type Id = nat

  /** Event bits. */
  type Mask = set<nat>

  const NUMPRI: nat := 5

  datatype Who = Watcher(w: Id) | Dummy

  /** ANPENDING. */
  datatype Slot = Slot(who: Who, events: Mask)

  /** pendings[pri][..pendingcnt[pri]], and w->pending where it is not zero. */
  datatype Queues = Queues(slots: seq<seq<Slot>>, pending: map<Id, nat>)

  /** ABSPRI of each watcher. */
  ghost predicate PriOk(pri: Id -> nat) {
    forall w :: pri(w) < NUMPRI
  }

  predicate InRange(pri: Id -> nat, q: Queues, w: Id) {
    pri(w) < |q.slots| && w in q.pending && 0 < q.pending[w] <= |q.slots[pri(w)]|
  }

  function SlotOf(pri: Id -> nat, q: Queues, w: Id): Slot
    requires InRange(pri, q, w)
  {
    q.slots[pri(w)][q.pending[w] - 1]
  }

  predicate PointsTo(pri: Id -> nat, q: Queues, w: Id) {
    InRange(pri, q, w) && SlotOf(pri, q, w).who == Watcher(w)
  }

  predicate PointedFrom(pri: Id -> nat, q: Queues, p: nat, i: nat)
    requires p < |q.slots| && i < |q.slots[p]|
  {
    var s := q.slots[p][i];
    s.who.Watcher? ==> pri(s.who.w) == p && s.who.w in q.pending && q.pending[s.who.w] == i + 1
  }

  /** A watcher is pending exactly when one slot, in the queue of its priority, names
      it, and w->pending says which. */
  predicate Ok(pri: Id -> nat, q: Queues) {
    && |q.slots| == NUMPRI
    && (forall w :: w in q.pending ==> PointsTo(pri, q, w))
    && (forall p, i :: 0 <= p < NUMPRI && 0 <= i < |q.slots[p]| ==> PointedFrom(pri, q, p, i))
  }

  /** The events waiting for each pending watcher. */
  function Waiting(pri: Id -> nat, q: Queues): (f: map<Id, Mask>)
    requires Ok(pri, q)
    ensures f.Keys == q.pending.Keys
  {
    map w | w in q.pending :: (assert PointsTo(pri, q, w); SlotOf(pri, q, w).events)
  }

  function EventsOf(f: map<Id, Mask>, w: Id): Mask {
    if w in f then f[w] else {}
  }

  // ------------------------------------------------------------------ operations

  /** ev_feed_event. */
  function Fed(pri: Id -> nat, q: Queues, w: Id, ev: Mask): Queues
    requires Ok(pri, q) && pri(w) < NUMPRI
  {
    var p := pri(w);
    if w in q.pending then
      assert PointsTo(pri, q, w);
      var i := q.pending[w] - 1;
      q.(slots := q.slots[p := q.slots[p][i := q.slots[p][i].(events := q.slots[p][i].events + ev)]])
    else
      Queues(q.slots[p := q.slots[p] + [Slot(Watcher(w), ev)]], q.pending[w := |q.slots[p]| + 1])
  }

  /** clear_pending. */
  function Cleared(pri: Id -> nat, q: Queues, w: Id): Queues
    requires Ok(pri, q)
  {
    if w in q.pending then
      assert PointsTo(pri, q, w);
      var p, i := pri(w), q.pending[w] - 1;
      Queues(q.slots[p := q.slots[p][i := q.slots[p][i].(who := Dummy)]], q.pending - {w})
    else q
  }

  /** --pendingcnt[p], and p->w->pending = 0. */
  function Popped(q: Queues, p: nat): Queues
    requires p < |q.slots| && |q.slots[p]| > 0
  {
    var n := |q.slots[p]| - 1;
    var s := q.slots[p][n];
    Queues(q.slots[p := q.slots[p][..n]], if s.who.Watcher? then q.pending - {s.who.w} else q.pending)
  }

  lemma FedShape(pri: Id -> nat, q: Queues, w: Id, ev: Mask)
    requires Ok(pri, q) && pri(w) < NUMPRI
    ensures Ok(pri, Fed(pri, q, w, ev))
  {
    var q', p := Fed(pri, q, w, ev), pri(w);
    assert w in q.pending ==> PointsTo(pri, q, w);
    forall v | v in q'.pending ensures PointsTo(pri, q', v) {
      assert v != w ==> PointsTo(pri, q, v);
    }
    forall r, i | 0 <= r < NUMPRI && 0 <= i < |q'.slots[r]| ensures PointedFrom(pri, q', r, i) {
      assert r != p || i < |q.slots[p]| ==> PointedFrom(pri, q, r, i);
    }
  }

  lemma FedEvents(pri: Id -> nat, q: Queues, w: Id, ev: Mask, v: Id)
    requires Ok(pri, q) && pri(w) < NUMPRI && Ok(pri, Fed(pri, q, w, ev))
    ensures EventsOf(Waiting(pri, Fed(pri, q, w, ev)), v) == EventsOf(Waiting(pri, q), v) + (if v == w then ev else {})
  {
    assert w in q.pending ==> PointsTo(pri, q, w);
    assert v in q.pending ==> PointsTo(pri, q, v);
  }

  lemma FedOk(pri: Id -> nat, q: Queues, w: Id, ev: Mask)
    requires Ok(pri, q) && pri(w) < NUMPRI
    ensures var q' := Fed(pri, q, w, ev);
            Ok(pri, q') && Waiting(pri, q') == Waiting(pri, q)[w := EventsOf(Waiting(pri, q), w) + ev]
  {
    var q' := Fed(pri, q, w, ev);
    FedShape(pri, q, w, ev);
    var f, f' := Waiting(pri, q), Waiting(pri, q');
    forall v | v in f' ensures f'[v] == f[w := EventsOf(f, w) + ev][v] {
      FedEvents(pri, q, w, ev, v);
    }
  }

  lemma ClearedOk(pri: Id -> nat, q: Queues, w: Id)
    requires Ok(pri, q)
    ensures var q' := Cleared(pri, q, w); Ok(pri, q') && Waiting(pri, q') == Waiting(pri, q) - {w}
  {
    var q' := Cleared(pri, q, w);
    if w in q.pending {
      assert PointsTo(pri, q, w);
      forall v | v in q'.pending ensures PointsTo(pri, q', v) {
        assert PointsTo(pri, q, v);
      }
      forall r, i | 0 <= r < NUMPRI && 0 <= i < |q'.slots[r]| ensures PointedFrom(pri, q', r, i) {
        assert PointedFrom(pri, q, r, i);
      }
    }
  }

  lemma PoppedShape(pri: Id -> nat, q: Queues, p: nat)
    requires Ok(pri, q) && p < NUMPRI && |q.slots[p]| > 0
    ensures Ok(pri, Popped(q, p))
  {
    var q', n := Popped(q, p), |q.slots[p]| - 1;
    assert PointedFrom(pri, q, p, n);
    forall v | v in q'.pending ensures PointsTo(pri, q', v) {
      assert PointsTo(pri, q, v);
    }
    forall r, i | 0 <= r < NUMPRI && 0 <= i < |q'.slots[r]| ensures PointedFrom(pri, q', r, i) {
      assert PointedFrom(pri, q, r, i);
    }
  }

  /** What is popped is a pending watcher with all that waits for it, or a dummy. */
  lemma PoppedOk(pri: Id -> nat, q: Queues, p: nat)
    requires Ok(pri, q) && p < NUMPRI && |q.slots[p]| > 0
    ensures var q', s := Popped(q, p), q.slots[p][|q.slots[p]| - 1];
            && Ok(pri, q')
            && (s.who == Dummy ==> Waiting(pri, q') == Waiting(pri, q))
            && (s.who.Watcher? ==> pri(s.who.w) == p && s.who.w in q.pending && Waiting(pri, q)[s.who.w] == s.events
                                   && Waiting(pri, q') == Waiting(pri, q) - {s.who.w})
  {
    PoppedShape(pri, q, p);
    var q', n := Popped(q, p), |q.slots[p]| - 1;
    assert PointedFrom(pri, q, p, n);
    forall v | v in q'.pending ensures Waiting(pri, q')[v] == Waiting(pri, q)[v] {
      assert PointsTo(pri, q, v) && PointsTo(pri, q', v);
    }
  }

  // --------------------------------------------------------------- what happened

  datatype Happening = FedTo(w: Id, ev: Mask) | Stopped(w: Id) | Invoked(w: Id, ev: Mask)

  /** What is owed to each watcher: the events fed since it was last invoked or
      stopped. */
  function Owed(log: seq<Happening>): map<Id, Mask> {
    if |log| == 0 then map[] else
      var f := Owed(log[..|log| - 1]);
      match log[|log| - 1]
      case FedTo(w, ev) => f[w := EventsOf(f, w) + ev]
      case Stopped(w) => f - {w}
      case Invoked(w, _) => f - {w}
  }

  /** An invocation hands a watcher exactly what it is owed, and nothing is owed to a
      watcher of higher priority. */
  predicate Delivers(pri: Id -> nat, log: seq<Happening>, i: nat)
    requires i < |log|
  {
    log[i].Invoked? ==>
      var f, w := Owed(log[..i]), log[i].w;
      w in f && f[w] == log[i].ev && forall v :: v in f ==> pri(v) <= pri(w)
  }

  predicate Faithful(pri: Id -> nat, log: seq<Happening>) {
    forall i :: 0 <= i < |log| ==> Delivers(pri, log, i)
  }

  lemma LogNext(pri: Id -> nat, log: seq<Happening>, h: Happening)
    requires Faithful(pri, log) && Delivers(pri, log + [h], |log|)
    ensures Faithful(pri, log + [h])
  {
    forall i | 0 <= i < |log| ensures Delivers(pri, log + [h], i) {
      assert Delivers(pri, log, i) && (log + [h])[..i] == log[..i];
    }
  }

  lemma OwedNext(log: seq<Happening>, h: Happening)
    ensures (log + [h])[..|log|] == log
  {
  }

  /** What a callback may do. */
  datatype Action = Feed(w: Id, ev: Mask) | Stop(w: Id)

  function Happened(a: Action): Happening {
    match a
    case Feed(w, ev) => FedTo(w, ev)
    case Stop(w) => Stopped(w)
  }

  function Happenings(actions: seq<Action>): (r: seq<Happening>)
    ensures |r| == |actions|
    ensures forall i :: 0 <= i < |r| ==> r[i] == Happened(actions[i])
  {
    if |actions| == 0 then [] else Happenings(actions[..|actions| - 1]) + [Happened(actions[|actions| - 1])]
  }

  /** What invocation i does; beyond the script, nothing. */
  function ActionsAt(script: seq<seq<Action>>, i: nat): seq<Action> {
    if i < |script| then script[i] else []
  }

  /** One slot: the watcher is invoked and its callback acts; the dummy's does nothing. */
  function Turn(s: Slot, actions: seq<Action>): seq<Happening> {
    if s.who.Watcher? then [Invoked(s.who.w, s.events)] + Happenings(actions) else []
  }

  /** All that happens while the slots of `trace` are taken one after the other. */
  function Replay(trace: seq<Slot>, script: seq<seq<Action>>): seq<Happening> {
    if |trace| == 0 then [] else
      var n := |trace| - 1;
      Replay(trace[..n], script) + Turn(trace[n], ActionsAt(script, n))
  }

  /** `log` is what it was before plus what happened while `trace` was taken. */
  predicate Replayed(log0: seq<Happening>, trace: seq<Slot>, script: seq<seq<Action>>, log: seq<Happening>) {
    log == log0 + Replay(trace, script)
  }

  lemma ReplayNext(log0: seq<Happening>, trace: seq<Slot>, script: seq<seq<Action>>, log: seq<Happening>, s: Slot)
    requires Replayed(log0, trace, script, log)
    ensures Replayed(log0, trace + [s], script, log + Turn(s, ActionsAt(script, |trace|)))
  {
    assert (trace + [s])[..|trace|] == trace;
  }

  lemma HappeningsNext(log: seq<Happening>, actions: seq<Action>, i: nat)
    requires i < |actions|
    ensures log + Happenings(actions[..i]) + [Happened(actions[i])] == log + Happenings(actions[..i + 1])
  {
    assert actions[..i + 1][..i] == actions[..i];
  }

  /** Slot j of the trace accounts for the happening. */
  predicate ComesFrom(trace: seq<Slot>, script: seq<seq<Action>>, h: Happening, j: nat) {
    && j < |trace| && trace[j].who.Watcher?
    && (h == Invoked(trace[j].who.w, trace[j].events) || exists a :: a in ActionsAt(script, j) && h == Happened(a))
  }

  /** Invocations are of slots, feeds and stops are of callbacks. */
  lemma {:induction false} ReplayComesFrom(trace: seq<Slot>, script: seq<seq<Action>>, i: nat) returns (j: nat)
    requires i < |Replay(trace, script)|
    ensures ComesFrom(trace, script, Replay(trace, script)[i], j)
  {
    var n := |trace| - 1;
    var first := Replay(trace[..n], script);
    if i < |first| {
      j := ReplayComesFrom(trace[..n], script, i);
    } else {
      j := n;
      var turn := Turn(trace[n], ActionsAt(script, n));
      assert Replay(trace, script)[i] == turn[i - |first|];
      if i > |first| {
        assert turn[i - |first|] == Happened(ActionsAt(script, n)[i - |first| - 1]);
      }
    }
  }

  /** Happening i ends what was owed to w: it is stopped, or invoked with at least `ev`. */
  predicate Settles(log: seq<Happening>, i: nat, w: Id, ev: Mask) {
    i < |log| && (log[i] == Stopped(w) || (log[i].Invoked? && log[i].w == w && ev <= log[i].ev))
  }

  /** Whatever is owed at some point and no longer at the end has been settled. */
  lemma {:induction false} OwedIsSettled(pri: Id -> nat, log: seq<Happening>, k: nat, w: Id) returns (i: nat)
    requires Faithful(pri, log) && k <= |log| && w in Owed(log[..k]) && w !in Owed(log)
    ensures k <= i && Settles(log, i, w, Owed(log[..k])[w])
    decreases |log| - k
  {
    assert k < |log| by {
      assert log[..|log|] == log;
    }
    assert log[..k + 1][..k] == log[..k] && Delivers(pri, log, k);
    if log[k] == Stopped(w) || (log[k].Invoked? && log[k].w == w) {
      i := k;
    } else {
      i := OwedIsSettled(pri, log, k + 1, w);
    }
  }

  /** A callback that ran stops w. */
  predicate StoppedByCallback(trace: seq<Slot>, script: seq<seq<Action>>, w: Id) {
    exists j :: 0 <= j < |trace| && trace[j].who.Watcher? && Stop(w) in ActionsAt(script, j)
  }

  /** Some slot of the trace hands w at least `ev`. */
  predicate InvokedWith(trace: seq<Slot>, w: Id, ev: Mask) {
    exists j :: 0 <= j < |trace| && trace[j].who == Watcher(w) && ev <= trace[j].events
  }

  /** What is owed when or while the queues are drained reaches its watcher, unless a
      callback stops that. */
  lemma ReplayDelivers(pri: Id -> nat, log0: seq<Happening>, trace: seq<Slot>, script: seq<seq<Action>>,
                       log: seq<Happening>, k: nat, w: Id)
    requires Replayed(log0, trace, script, log) && Faithful(pri, log) && Owed(log) == map[]
    requires |log0| <= k <= |log| && w in Owed(log[..k])
    ensures StoppedByCallback(trace, script, w) || InvokedWith(trace, w, Owed(log[..k])[w])
  {
    var i := OwedIsSettled(pri, log, k, w);
    var h, ev := log[i], Owed(log[..k])[w];
    var j := ReplayComesFrom(trace, script, i - |log0|);
    assert h == Replay(trace, script)[i - |log0|];
    HappeningSettles(trace, script, h, j, w, ev);
  }

  lemma HappeningSettles(trace: seq<Slot>, script: seq<seq<Action>>, h: Happening, j: nat, w: Id, ev: Mask)
    requires ComesFrom(trace, script, h, j) && (h == Stopped(w) || (h.Invoked? && h.w == w && ev <= h.ev))
    ensures StoppedByCallback(trace, script, w) || InvokedWith(trace, w, ev)
  {
    if h == Stopped(w) {
      var a :| a in ActionsAt(script, j) && h == Happened(a);
      assert a == Stop(w);
    } else {
      assert trace[j].who == Watcher(w);
    }
  }

  lemma TurnSum(log: seq<Happening>, s: Slot, actions: seq<Action>)
    requires s.who.Watcher?
    ensures (log + [Invoked(s.who.w, s.events)]) + Happenings(actions) == log + Turn(s, actions)
  {
  }

  // ---------------------------------------------------------------- drain order

  function Reversed(s: seq<Slot>): (r: seq<Slot>)
    ensures |r| == |s|
  {
    if |s| == 0 then [] else [s[|s| - 1]] + Reversed(s[..|s| - 1])
  }

  /** Queues n - 1 down to 0, each from its end. */
  function DrainOrder(slots: seq<seq<Slot>>, n: nat): seq<Slot>
    requires n <= |slots|
  {
    if n == 0 then [] else Reversed(slots[n - 1]) + DrainOrder(slots, n - 1)
  }

  /** Nothing from priority n on. */
  predicate HighEmpty(slots: seq<seq<Slot>>, n: nat) {
    forall p :: n <= p < |slots| ==> slots[p] == []
  }

  lemma {:induction false} DrainSkips(slots: seq<seq<Slot>>, n: nat, m: nat)
    requires n <= m <= |slots| && HighEmpty(slots, n)
    ensures DrainOrder(slots, m) == DrainOrder(slots, n)
  {
    if n < m {
      DrainSkips(slots, n, m - 1);
    }
  }

  lemma {:induction false} DrainFrame(slots: seq<seq<Slot>>, p: nat, t: seq<Slot>, n: nat)
    requires n <= p < |slots|
    ensures DrainOrder(slots[p := t], n) == DrainOrder(slots, n)
  {
    if n > 0 {
      DrainFrame(slots, p, t, n - 1);
    }
  }

  lemma DrainAt(slots: seq<seq<Slot>>, p: nat)
    requires p < |slots| && HighEmpty(slots, p + 1)
    ensures DrainOrder(slots, |slots|) == Reversed(slots[p]) + DrainOrder(slots, p)
  {
    DrainSkips(slots, p + 1, |slots|);
  }

  lemma Regroup<T>(x: T, r: seq<T>, d: seq<T>)
    ensures ([x] + r) + d == [x] + (r + d)
  {
  }

  /** The next slot popped is the first of the rest of the drain. */
  lemma DrainPops(slots: seq<seq<Slot>>, p: nat, x: Slot, t: seq<Slot>)
    requires p < |slots| && HighEmpty(slots, p + 1) && slots[p] == t + [x]
    ensures DrainOrder(slots, |slots|) == [x] + DrainOrder(slots[p := t], |slots|)
  {
    DrainAt(slots, p);
    DrainAt(slots[p := t], p);
    DrainFrame(slots, p, t, p);
    assert (t + [x])[..|t|] == t;
    Regroup(x, Reversed(t), DrainOrder(slots, p));
  }

  function Count(slots: seq<seq<Slot>>): nat {
    if |slots| == 0 then 0 else Count(slots[..|slots| - 1]) + |slots[|slots| - 1]|
  }

  lemma {:induction false} CountPops(slots: seq<seq<Slot>>, p: nat, t: seq<Slot>)
    requires p < |slots|
    ensures Count(slots[p := t]) == Count(slots) - |slots[p]| + |t|
  {
    var n := |slots| - 1;
    if p < n {
      CountPops(slots[..n], p, t);
      assert slots[p := t][..n] == slots[..n][p := t];
    } else {
      assert slots[p := t][..n] == slots[..n];
    }
  }

  /** Nothing is owed above the highest queue in use. */
  lemma HighestOwed(pri: Id -> nat, q: Queues, p: nat)
    requires PriOk(pri) && Ok(pri, q) && HighEmpty(q.slots, p + 1)
    ensures forall v :: v in Waiting(pri, q) ==> pri(v) <= p
  {
    forall v | v in Waiting(pri, q) ensures pri(v) <= p {
      assert PointsTo(pri, q, v);
    }
  }

  lemma NothingOwed(pri: Id -> nat, q: Queues)
    requires PriOk(pri) && Ok(pri, q) && HighEmpty(q.slots, 0)
    ensures Waiting(pri, q) == map[]
  {
    HighestOwed(pri, q, 0);
    assert forall v :: v in q.pending ==> PointsTo(pri, q, v);
  }

  predicate Extends(log: seq<Happening>, log': seq<Happening>) {
    |log| <= |log'| && log'[..|log|] == log
  }

  /** Callbacks still to come that do something. */
  function Left(script: seq<seq<Action>>, trace: seq<Slot>): nat {
    if |trace| < |script| then |script| - |trace| else 0
  }

  predicate Smaller(script: seq<seq<Action>>, trace: seq<Slot>, count: nat, trace0: seq<Slot>, count0: nat) {
    Left(script, trace) < Left(script, trace0) || (Left(script, trace) == Left(script, trace0) && count < count0)
  }

  /** With callbacks that do nothing, what is taken and what is left are the whole drain. */
  predicate Drains(script: seq<seq<Action>>, trace: seq<Slot>, slots: seq<seq<Slot>>, whole: seq<Slot>) {
    script == [] ==> trace + DrainOrder(slots, |slots|) == whole
  }

  lemma DrainNext(script: seq<seq<Action>>, trace: seq<Slot>, slots: seq<seq<Slot>>, whole: seq<Slot>, s: Slot,
                  slots': seq<seq<Slot>>)
    requires Drains(script, trace, slots, whole)
    requires script == [] ==> DrainOrder(slots, |slots|) == [s] + DrainOrder(slots', |slots'|)
    ensures Drains(script, trace + [s], slots', whole)
  {
    Regroup(s, [], DrainOrder(slots', |slots'|));
  }

  predicate SameCounts(q: Queues, q': Queues) {
    && |q.slots| == |q'.slots| == NUMPRI
    && forall p :: 0 <= p < NUMPRI ==> |q'.slots[p]| == |q.slots[p]|
  }

  // -------------------------------------------------------------------- the code

  class Loop {
    var q: Queues
    var pendingpri: nat
    const pri: Id -> nat
    ghost var log: seq<Happening>

    ghost predicate Valid()
      reads this
    {
      PriOk(pri) && Ok(pri, q) && Waiting(pri, q) == Owed(log) && Faithful(pri, log)
    }

    constructor (pri: Id -> nat)
      requires PriOk(pri)
      ensures Valid() && log == [] && this.pri == pri
    {
      this.pri, q, pendingpri, log := pri, Queues([[], [], [], [], []], map[]), 0, [];
    }

    method FeedEvent(w: Id, ev: Mask)
      requires Valid()
      modifies this
      ensures Valid() && log == old(log) + [FedTo(w, ev)]
      ensures q == Fed(pri, old(q), w, ev) && pendingpri == NUMPRI - 1
    {
      FedOk(pri, q, w, ev);
      OwedNext(log, FedTo(w, ev));
      LogNext(pri, log, FedTo(w, ev));
      q := Fed(pri, q, w, ev);
      pendingpri := NUMPRI - 1;
      log := log + [FedTo(w, ev)];
    }

    method ClearPending(w: Id)
      requires Valid()
      modifies this
      ensures Valid() && log == old(log) + [Stopped(w)]
      ensures q == Cleared(pri, old(q), w) && pendingpri == old(pendingpri)
    {
      ClearedOk(pri, q, w);
      OwedNext(log, Stopped(w));
      LogNext(pri, log, Stopped(w));
      q := Cleared(pri, q, w);
      log := log + [Stopped(w)];
    }

    /** The actions of one callback. */
    method RunCallback(actions: seq<Action>)
      requires Valid()
      modifies this
      ensures Valid() && log == old(log) + Happenings(actions)
      ensures actions == [] ==> q == old(q) && pendingpri == old(pendingpri)
      ensures pendingpri == NUMPRI - 1 || (pendingpri == old(pendingpri) && SameCounts(old(q), q))
    {
      for i := 0 to |actions|
        invariant Valid() && log == old(log) + Happenings(actions[..i])
        invariant i == 0 ==> q == old(q) && pendingpri == old(pendingpri)
        invariant pendingpri == NUMPRI - 1 || (pendingpri == old(pendingpri) && SameCounts(old(q), q))
      {
        HappeningsNext(old(log), actions, i);
        match actions[i] {
          case Feed(w, ev) => FeedEvent(w, ev);
          case Stop(w) => ClearPending(w);
        }
      }
      assert actions[..|actions|] == actions;
    }

    /** Takes the last slot of queue p, all higher ones being empty. */
    method Pop(p: nat) returns (s: Slot)
      requires Valid() && p < NUMPRI && |q.slots[p]| > 0 && HighEmpty(q.slots, p + 1)
      modifies this`q, this`log
      ensures Valid() && q == Popped(old(q), p) && s == old(q).slots[p][|old(q).slots[p]| - 1]
      ensures log == old(log) + (if s.who.Watcher? then [Invoked(s.who.w, s.events)] else [])
    {
      s := q.slots[p][|q.slots[p]| - 1];
      PoppedOk(pri, q, p);
      if s.who.Watcher? {
        var h := Invoked(s.who.w, s.events);
        HighestOwed(pri, q, p);
        OwedNext(log, h);
        LogNext(pri, log, h);
        log := log + [h];
      }
      q := Popped(q, p);
    }

    /** One turn of the inner loop. A callback that feeds sends pendingpri to the top. */
    method InvokeNext(actions: seq<Action>) returns (s: Slot)
      requires Valid() && pendingpri < NUMPRI && |q.slots[pendingpri]| > 0 && HighEmpty(q.slots, pendingpri + 1)
      modifies this
      ensures Valid() && pendingpri < NUMPRI && HighEmpty(q.slots, pendingpri + 1)
      ensures log == old(log) + Turn(s, actions)
      ensures actions == [] ==> Count(q.slots) == Count(old(q).slots) - 1
      ensures actions == [] ==> DrainOrder(old(q).slots, NUMPRI) == [s] + DrainOrder(q.slots, NUMPRI)
    {
      ghost var slots, p := q.slots, pendingpri;
      ghost var rest := slots[p][..|slots[p]| - 1];
      s := Pop(pendingpri);
      CountPops(slots, p, rest);
      DrainPops(slots, p, s, rest);
      if s.who.Watcher? {
        TurnSum(old(log), s, actions);
        RunCallback(actions);
      }
    }

    /** The inner loop: it goes on with whatever pendingpri has become. */
    method DrainOne(script: seq<seq<Action>>, before: seq<Slot>, ghost log0: seq<Happening>, ghost whole: seq<Slot>)
        returns (trace: seq<Slot>)
      requires Valid() && pendingpri < NUMPRI && HighEmpty(q.slots, pendingpri + 1)
      requires Replayed(log0, before, script, log) && Drains(script, before, q.slots, whole)
      modifies this
      ensures Valid() && pendingpri < NUMPRI && HighEmpty(q.slots, pendingpri)
      ensures Replayed(log0, trace, script, log) && Drains(script, trace, q.slots, whole)
      ensures (trace == before && q == old(q) && pendingpri == old(pendingpri))
           || Smaller(script, trace, Count(q.slots), before, Count(old(q).slots))
    {
      trace := before;
      while |q.slots[pendingpri]| > 0
        invariant Valid() && pendingpri < NUMPRI && HighEmpty(q.slots, pendingpri + 1)
        invariant Replayed(log0, trace, script, log) && Drains(script, trace, q.slots, whole)
        invariant (trace == before && q == old(q) && pendingpri == old(pendingpri))
               || Smaller(script, trace, Count(q.slots), before, Count(old(q).slots))
        decreases Left(script, trace), Count(q.slots)
      {
        ghost var log1, slots := log, q.slots;
        var s := InvokeNext(ActionsAt(script, |trace|));
        ReplayNext(log0, trace, script, log1, s);
        DrainNext(script, trace, slots, whole, s, q.slots);
        trace := trace + [s];
      }
    }

    /** ev_invoke_pending, with the callbacks given by what each invocation does. */
    method InvokePending(script: seq<seq<Action>>) returns (trace: seq<Slot>)
      requires Valid()
      modifies this
      ensures Valid() && HighEmpty(q.slots, 0) && Owed(log) == map[]
      ensures Replayed(old(log), trace, script, log)
      // what is owed at the start or by a callback is delivered, unless a callback stops that
      ensures forall k, w :: |old(log)| <= k <= |log| && w in Owed(log[..k]) ==>
        StoppedByCallback(trace, script, w) || InvokedWith(trace, w, Owed(log[..k])[w])
      ensures script == [] ==> trace == DrainOrder(old(q).slots, NUMPRI)
    {
      ghost var whole := DrainOrder(q.slots, NUMPRI);
      trace := [];
      pendingpri := NUMPRI;
      while pendingpri > 0
        invariant Valid() && pendingpri <= NUMPRI && HighEmpty(q.slots, pendingpri)
        invariant Replayed(old(log), trace, script, log) && Drains(script, trace, q.slots, whole)
        decreases Left(script, trace), Count(q.slots), pendingpri
      {
        pendingpri := pendingpri - 1;
        trace := DrainOne(script, trace, old(log), whole);
      }
      NothingOwed(pri, q);
      DrainSkips(q.slots, 0, NUMPRI);
      forall k, w | |old(log)| <= k <= |log| && w in Owed(log[..k])
        ensures StoppedByCallback(trace, script, w) || InvokedWith(trace, w, Owed(log[..k])[w])
      {
        ReplayDelivers(pri, old(log), trace, script, log, k, w);
      }
    }
  }
}
