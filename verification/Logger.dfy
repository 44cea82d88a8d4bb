/**
 The log pipeline of logger.c: workers append whole entries to their buffers, the
 logger thread reads them without holding the lock, and watchers are sent lines.
 */
module Logger {
  import opened BipBuffer

  /** sizeof(logentry). */
  const HEADER: nat := 40

  /** An entry is a header and as many bytes as the size field in it says; `sz` reads
      that field. */
  predicate IsEntry(sz: seq<byte> -> nat, e: seq<byte>) {
    |e| >= HEADER && |e| == HEADER + sz(e[..HEADER])
  }

  predicate AreEntries(sz: seq<byte> -> nat, es: seq<seq<byte>>) {
    forall i :: 0 <= i < |es| ==> IsEntry(sz, es[i])
  }

  function Concat(es: seq<seq<byte>>): seq<byte> {
    if |es| == 0 then [] else Concat(es[..|es| - 1]) + es[|es| - 1]
  }

  lemma ConcatAppend(es: seq<seq<byte>>, e: seq<byte>)
    ensures Concat(es + [e]) == Concat(es) + e
  {
    assert (es + [e])[..|es|] == es;
  }

  lemma {:induction false} ConcatSplit(es: seq<seq<byte>>, k: nat)
    requires k <= |es|
    ensures Concat(es) == Concat(es[..k]) + Concat(es[k..])
  {
    if k == |es| {
      assert es[..k] == es;
    } else {
      var n := |es| - 1;
      ConcatSplit(es[..n], k);
      assert es[..n][..k] == es[..k] && es[k..][..n - k] == es[..n][k..];
      assert Concat(es[k..]) == Concat(es[k..][..n - k]) + es[n];
    }
  }

  /** Entry j sits where the entries before it end. */
  lemma ConcatAt(es: seq<seq<byte>>, j: nat)
    requires j < |es|
    ensures |Concat(es[..j])| + |es[j]| <= |Concat(es)|
    ensures Concat(es)[|Concat(es[..j])|..|Concat(es[..j])| + |es[j]|] == es[j]
    ensures |Concat(es[..j + 1])| == |Concat(es[..j])| + |es[j]|
  {
    ConcatSplit(es, j + 1);
    assert es[..j + 1][..j] == es[..j];
  }

  /** Entries take room, so none are left exactly when no bytes are. */
  lemma {:induction false} EmptyIffNone(sz: seq<byte> -> nat, es: seq<seq<byte>>)
    requires AreEntries(sz, es)
    ensures Concat(es) == [] <==> es == []
  {
    if |es| > 0 {
      assert IsEntry(sz, es[|es| - 1]);
    }
  }

  // ---------------------------------------------------------- regions of entries

  /** The entries of region A and of region B. */
  datatype Regions = Regions(a: seq<seq<byte>>, b: seq<seq<byte>>)

  function All(r: Regions): seq<seq<byte>> {
    r.a + r.b
  }

  /** Each region is a concatenation of whole entries. */
  predicate Framed(sz: seq<byte> -> nat, c: Cursors, data: seq<byte>, r: Regions) {
    && Ok(c) && |data| == c.size && AreEntries(sz, r.a) && AreEntries(sz, r.b)
    && Concat(r.a) == data[c.aStart..c.aEnd] && Concat(r.b) == data[..c.bEnd]
  }

  function Added(c: Cursors, r: Regions, e: seq<byte>): Regions {
    if c.bInuse then r.(b := r.b + [e]) else r.(a := r.a + [e])
  }

  /** Pushing an entry keeps the framing and appends to the entries. The writer may
      have scribbled over all of the room it requested. */
  lemma AddedFramed(sz: seq<byte> -> nat, c: Cursors, data: seq<byte>, r: Regions, data': seq<byte>, room: nat, n: nat)
    requires Framed(sz, c, data, r) && n <= room <= Unused(c) && SameOutside(data, data', WritePos(c), room)
    requires IsEntry(sz, data'[WritePos(c)..WritePos(c) + n])
    ensures var e := data'[WritePos(c)..WritePos(c) + n];
            Framed(sz, Advanced(c, n), data', Added(c, r, e)) && All(Added(c, r, e)) == All(r) + [e]
  {
    AdvancedOk(c, n);
    var e := data'[WritePos(c)..WritePos(c) + n];
    if c.bInuse {
      AddedToB(sz, c, data, r, data', room, n);
      EntriesNext(sz, r.b, e);
      SumAssociates(r.a, r.b, [e]);
    } else {
      AddedToA(sz, c, data, r, data', room, n);
      EntriesNext(sz, r.a, e);
      assert r.b == [] && data'[..0] == [];
    }
  }

  lemma EntriesNext(sz: seq<byte> -> nat, es: seq<seq<byte>>, e: seq<byte>)
    requires AreEntries(sz, es) && IsEntry(sz, e)
    ensures AreEntries(sz, es + [e])
  {
  }

  lemma AddedToB(sz: seq<byte> -> nat, c: Cursors, data: seq<byte>, r: Regions, data': seq<byte>, room: nat, n: nat)
    requires Framed(sz, c, data, r) && n <= room <= Unused(c) && SameOutside(data, data', WritePos(c), room) && c.bInuse
    ensures data'[c.aStart..c.aEnd] == Concat(r.a)
    ensures data'[..c.bEnd + n] == Concat(r.b + [data'[c.bEnd..c.bEnd + n]])
  {
    var w := c.bEnd;
    assert data'[c.aStart..c.aEnd] == data[c.aStart..c.aEnd];
    assert data'[..w + n] == data[..w] + data'[w..w + n];
    ConcatAppend(r.b, data'[w..w + n]);
  }

  lemma AddedToA(sz: seq<byte> -> nat, c: Cursors, data: seq<byte>, r: Regions, data': seq<byte>, room: nat, n: nat)
    requires Framed(sz, c, data, r) && n <= room <= Unused(c) && SameOutside(data, data', WritePos(c), room)
    requires !c.bInuse
    ensures data'[c.aStart..c.aEnd + n] == Concat(r.a + [data'[c.aEnd..c.aEnd + n]])
    ensures r.b == []
  {
    var w := c.aEnd;
    assert data'[c.aStart..w + n] == data[c.aStart..w] + data'[w..w + n];
    EmptyIffNone(sz, r.b);
    ConcatAppend(r.a, data'[w..w + n]);
  }

  function Removed(r: Regions, k: nat): Regions
    requires k <= |r.a|
  {
    if k < |r.a| then r.(a := r.a[k..]) else Regions(r.b, [])
  }

  lemma AllRemoved(r: Regions, k: nat)
    requires k <= |r.a|
    ensures All(Removed(r, k)) == All(r)[k..]
  {
  }

  /** Polling the bytes of the first k entries of A removes those entries. */
  lemma RemovedFramed(sz: seq<byte> -> nat, c: Cursors, data: seq<byte>, r: Regions, k: nat)
    requires Framed(sz, c, data, r) && k <= |r.a|
    ensures var n := |Concat(r.a[..k])|; n <= c.aEnd - c.aStart && Framed(sz, Consumed(c, n), data, Removed(r, k))
  {
    var n := |Concat(r.a[..k])|;
    ConcatSplit(r.a, k);
    ConsumedOk(c, n);
    if k < |r.a| {
      RestOfA(sz, c, data, r, k, n);
    } else {
      assert r.a[..k] == r.a;
      EmptyIffNone(sz, r.b);
    }
  }

  lemma RestOfA(sz: seq<byte> -> nat, c: Cursors, data: seq<byte>, r: Regions, k: nat, n: nat)
    requires Framed(sz, c, data, r) && k < |r.a| && n == |Concat(r.a[..k])|
    ensures n < c.aEnd - c.aStart && Concat(r.a[k..]) == data[c.aStart + n..c.aEnd]
  {
    ConcatSplit(r.a, k);
    assert IsEntry(sz, r.a[k]);
    EmptyIffNone(sz, r.a[k..]);
    assert data[c.aStart..c.aEnd][n..] == data[c.aStart + n..c.aEnd];
  }

  // ---------------------------------------------------------------- worker side

  /** A call of logger_log: what it writes over the room it requests, and how much of
      that is the entry. */
  datatype Call = Call(area: seq<byte>, n: nat)

  predicate CallOk(sz: seq<byte> -> nat, call: Call) {
    call.n <= |call.area| && IsEntry(sz, call.area[..call.n])
  }

  function EntryOf(call: Call): seq<byte>
    requires call.n <= |call.area|
  {
    call.area[..call.n]
  }

  /** The entries of the calls that found room. */
  function Kept(calls: seq<Call>, oks: seq<bool>): seq<seq<byte>>
    requires |oks| <= |calls| && forall i :: 0 <= i < |calls| ==> calls[i].n <= |calls[i].area|
  {
    if |oks| == 0 then [] else
      var i := |oks| - 1;
      Kept(calls, oks[..i]) + (if oks[i] then [EntryOf(calls[i])] else [])
  }

  /** What a reader saw of region A before it let go of the lock. */
  datatype Peeked = Peeked(start: nat, seen: seq<byte>, entries: seq<seq<byte>>)

  /** Region A still starts with it. */
  predicate Shows(c: Cursors, data: seq<byte>, r: Regions, p: Peeked) {
    && c.aStart == p.start && p.start + |p.seen| <= c.aEnd <= |data| && data[p.start..p.start + |p.seen|] == p.seen
    && |p.entries| <= |r.a| && r.a[..|p.entries|] == p.entries
  }

  lemma SliceOfSlice(data: seq<byte>, at: nat, area: seq<byte>, n: nat)
    requires at + |area| <= |data| && data[at..at + |area|] == area && n <= |area|
    ensures data[at..at + n] == area[..n]
  {
    assert data[at..at + |area|][..n] == data[at..at + n];
  }

  lemma SubSlice<T>(data: seq<T>, at: nat, seen: seq<T>, pos: nat, n: nat)
    requires at + |seen| <= |data| && data[at..at + |seen|] == seen && pos + n <= |seen|
    ensures data[at + pos..at + pos + n] == seen[pos..pos + n]
  {
    var part, whole := data[at + pos..at + pos + n], data[at..at + |seen|];
    forall k | 0 <= k < n ensures part[k] == seen[pos..][k] {
      assert whole[pos + k] == data[at + pos + k];
    }
  }

  /** Writing and pushing an entry does not disturb what a reader saw. */
  lemma LogStep(sz: seq<byte> -> nat, c: Cursors, data: seq<byte>, r: Regions, data': seq<byte>, call: Call, p: Peeked)
    requires Framed(sz, c, data, r) && |call.area| <= Unused(c) && SameOutside(data, data', WritePos(c), |call.area|)
    requires CallOk(sz, call) && data'[WritePos(c)..WritePos(c) + |call.area|] == call.area && Shows(c, data, r, p)
    ensures var c', r' := Advanced(c, call.n), Added(c, r, EntryOf(call));
            Framed(sz, c', data', r') && All(r') == All(r) + [EntryOf(call)] && Shows(c', data', r', p)
  {
    SliceOfSlice(data', WritePos(c), call.area, call.n);
    AddedFramed(sz, c, data, r, data', |call.area|, call.n);
    ShowsKept(c, data, r, data', |call.area|, call.n, EntryOf(call), p);
  }

  lemma SameSlice(data: seq<byte>, data': seq<byte>, i: nat, j: nat)
    requires i <= j <= |data| == |data'| && forall k :: i <= k < j ==> data'[k] == data[k]
    ensures data'[i..j] == data[i..j]
  {
  }

  lemma ShowsKept(c: Cursors, data: seq<byte>, r: Regions, data': seq<byte>, room: nat, n: nat, e: seq<byte>, p: Peeked)
    requires Ok(c) && n <= room <= Unused(c) && |data| == c.size && SameOutside(data, data', WritePos(c), room)
    requires Shows(c, data, r, p)
    ensures Shows(Advanced(c, n), data', Added(c, r, e), p)
  {
    AdvancedOk(c, n);
    SameSlice(data, data', p.start, p.start + |p.seen|);
  }

  lemma KeptNext(calls: seq<Call>, oks: seq<bool>, ok: bool)
    requires |oks| < |calls| && forall i :: 0 <= i < |calls| ==> calls[i].n <= |calls[i].area|
    ensures Kept(calls, oks + [ok]) == Kept(calls, oks) + (if ok then [EntryOf(calls[|oks|])] else [])
  {
    assert (oks + [ok])[..|oks|] == oks;
  }

  predicate CallsOk(sz: seq<byte> -> nat, calls: seq<Call>) {
    forall i :: 0 <= i < |calls| ==> CallOk(sz, calls[i])
  }

  /** What the reader takes for the entry at `pos` is `e`. */
  predicate ParsedAt(sz: seq<byte> -> nat, seen: seq<byte>, pos: nat, e: seq<byte>) {
    && pos + HEADER <= |seen| && |e| == HEADER + sz(seen[pos..pos + HEADER])
    && pos + |e| <= |seen| && seen[pos..pos + |e|] == e
  }

  /** The reader's position is the end of the first j entries it saw; the size field
      there leads to the next one, and never past the end. */
  lemma ParseStep(sz: seq<byte> -> nat, seen: seq<byte>, es: seq<seq<byte>>, j: nat, pos: nat)
    requires AreEntries(sz, es) && seen == Concat(es) && j <= |es| && pos == |Concat(es[..j])|
    ensures pos <= |seen| && (pos < |seen| <==> j < |es|)
    ensures j < |es| ==> ParsedAt(sz, seen, pos, es[j]) && pos + |es[j]| == |Concat(es[..j + 1])|
  {
    if j < |es| {
      ConcatAt(es, j);
      assert IsEntry(sz, es[j]);
      assert seen[pos..pos + |es[j]|][..HEADER] == seen[pos..pos + HEADER];
    } else {
      assert es[..j] == es;
    }
  }

  lemma ParsedBytes(sz: seq<byte> -> nat, data: seq<byte>, p: Peeked, pos: nat, e: seq<byte>)
    requires p.start + |p.seen| <= |data| && data[p.start..p.start + |p.seen|] == p.seen && ParsedAt(sz, p.seen, pos, e)
    ensures var at := p.start + pos; |e| == HEADER + sz(data[at..at + HEADER]) && data[at..at + |e|] == e
  {
    SubSlice(data, p.start, p.seen, pos, HEADER);
    SubSlice(data, p.start, p.seen, pos, |e|);
  }

  /** The reader's position when it is at entry j. */
  ghost predicate Located(sz: seq<byte> -> nat, p: Peeked, j: nat, pos: nat) {
    AreEntries(sz, p.entries) && p.seen == Concat(p.entries) && j <= |p.entries| && pos == |Concat(p.entries[..j])|
  }

  lemma LocatedEnd(sz: seq<byte> -> nat, p: Peeked, j: nat, pos: nat)
    requires Located(sz, p, j, pos)
    ensures pos <= |p.seen| && (pos < |p.seen| <==> j < |p.entries|)
  {
    ParseStep(sz, p.seen, p.entries, j, pos);
  }

  /** The reader has parsed the entries before `pos`. */
  ghost predicate Parsed(sz: seq<byte> -> nat, p: Peeked, got: seq<seq<byte>>, pos: nat) {
    |got| <= |p.entries| && got == p.entries[..|got|] && Located(sz, p, |got|, pos)
  }

  lemma ParsedNext(sz: seq<byte> -> nat, p: Peeked, got: seq<seq<byte>>, pos: nat, e: seq<byte>)
    requires Parsed(sz, p, got, pos) && |got| < |p.entries| && e == p.entries[|got|]
    requires Located(sz, p, |got| + 1, pos + |e|)
    ensures Parsed(sz, p, got + [e], pos + |e|)
  {
  }

  /** What bipbuf_peek_all shows. */
  ghost function PeekOf(c: Cursors, data: seq<byte>, r: Regions): Peeked
    requires Ok(c) && |data| == c.size
  {
    Peeked(c.aStart, data[c.aStart..c.aEnd], r.a)
  }

  lemma PeekShows(sz: seq<byte> -> nat, c: Cursors, data: seq<byte>, r: Regions)
    requires Framed(sz, c, data, r)
    ensures Queue(c, data) == [] <==> All(r) == []
    ensures Queue(c, data) == [] ==> r.a == []
    ensures Queue(c, data) != [] ==> r.a != [] && |PeekOf(c, data, r).seen| == c.aEnd - c.aStart > 0
    ensures Shows(c, data, r, PeekOf(c, data, r)) && Located(sz, PeekOf(c, data, r), 0, 0)
  {
    EmptyIffNone(sz, r.a);
    EmptyIffNone(sz, r.b);
  }

  lemma ParsedEnd(sz: seq<byte> -> nat, p: Peeked, got: seq<seq<byte>>, pos: nat)
    requires Parsed(sz, p, got, pos)
    ensures pos <= |p.seen| && (pos < |p.seen| <==> |got| < |p.entries|)
  {
    LocatedEnd(sz, p, |got|, pos);
  }

  /** The buffer and the counters of one worker thread. */
  class Worker {
    const buf: Buffer
    const sz: seq<byte> -> nat
    var written: nat
    var dropped: nat
    ghost var regions: Regions

    ghost predicate Valid()
      reads this, buf, buf.data
    {
      buf.Valid() && Framed(sz, buf.Cur(), buf.data[..], regions)
    }

    constructor (size: nat, sz: seq<byte> -> nat)
      requires size < 0x8000_0000
      ensures Valid() && All(regions) == [] && written == 0 && dropped == 0 && fresh(buf) && fresh(buf.data)
    {
      buf := new Buffer(size);
      this.sz, written, dropped, regions := sz, 0, 0, Regions([], []);
    }

    ghost predicate StillShows(p: Peeked)
      reads this, buf, buf.data
    {
      Shows(buf.Cur(), buf.data[..], regions, p)
    }

    /** Fills the requested room and pushes the entry. */
    method Append(at: nat, call: Call)
      requires buf.Valid() && at == WritePos(buf.Cur()) && 0 < call.n <= |call.area| <= Unused(buf.Cur())
      modifies buf, buf.data
      ensures buf.Cur() == Advanced(old(buf.Cur()), call.n)
      ensures SameOutside(old(buf.data[..]), buf.data[..], at, |call.area|)
      ensures at + |call.area| <= buf.data.Length && buf.data[..][at..at + |call.area|] == call.area
    {
      buf.Write(at, call.area);
      var pushed := buf.Push(call.n);
      assert pushed == call.n;
    }

    method Store(at: nat, call: Call, ghost p: Peeked)
      requires Valid() && CallOk(sz, call) && StillShows(p) && at == WritePos(buf.Cur())
      requires |call.area| <= Unused(buf.Cur())
      modifies this`regions, buf, buf.data
      ensures Valid() && StillShows(p) && All(regions) == old(All(regions)) + [EntryOf(call)]
    {
      ghost var c, before := buf.Cur(), buf.data[..];
      Append(at, call);
      LogStep(sz, c, before, regions, buf.data[..], call, p);
      regions := Added(c, regions, EntryOf(call));
    }

    /** logger_log. */
    method Log(call: Call, ghost p: Peeked) returns (ok: bool)
      requires Valid() && CallOk(sz, call) && StillShows(p)
      modifies this, buf, buf.data
      ensures Valid() && StillShows(p)
      ensures ok <==> |call.area| <= Unused(old(buf.Cur()))
      ensures All(regions) == old(All(regions)) + (if ok then [EntryOf(call)] else [])
      ensures written == old(written) + (if ok then 1 else 0) && dropped == old(dropped) + (if ok then 0 else 1)
    {
      var at, room := buf.Request(|call.area|);
      ok := room;
      if ok {
        Store(at, call, p);
        written := written + 1;
      } else {
        dropped := dropped + 1;
      }
    }

    /** While the reader is busy: what it peeked is still shown, and the entries are
        `base` and those of the calls so far that found room. */
    ghost predicate Logging(p: Peeked, calls: seq<Call>, oks: seq<bool>, base: seq<seq<byte>>, w0: nat)
      reads this, buf, buf.data
    {
      && Valid() && StillShows(p) && CallsOk(sz, calls) && |oks| <= |calls|
      && All(regions) == base + Kept(calls, oks) && written == w0 + |Kept(calls, oks)|
    }

    /** Workers log: calls up to `to` are made. */
    method Burst(calls: seq<Call>, to: nat, oks: seq<bool>, ghost p: Peeked, ghost base: seq<seq<byte>>,
                 ghost w0: nat) returns (oks': seq<bool>)
      requires Logging(p, calls, oks, base, w0) && |oks| <= to <= |calls|
      modifies this, buf, buf.data
      ensures Logging(p, calls, oks', base, w0) && |oks'| == to
    {
      oks' := oks;
      while |oks'| < to
        invariant Logging(p, calls, oks', base, w0) && |oks'| <= to
      {
        assert CallOk(sz, calls[|oks'|]);
        var ok := Log(calls[|oks'|], p);
        KeptNext(calls, oks', ok);
        oks' := oks' + [ok];
      }
    }

    /** Reads the entry at `pos` of what was peeked, without the lock. */
    method ParseAt(start: nat, pos: nat, ghost p: Peeked, ghost e: seq<byte>) returns (entry: seq<byte>)
      requires Valid() && StillShows(p) && start == p.start && ParsedAt(sz, p.seen, pos, e)
      ensures entry == e
    {
      var at := start + pos;
      ParsedBytes(sz, buf.data[..], p, pos, e);
      var n := HEADER + sz(buf.data[..][at..at + HEADER]);
      entry := buf.data[..][at..at + n];
    }

    /** Entry j is at `pos`; burst(j) calls of logger_log run before it is read. */
    method ParseNext(start: nat, pos: nat, calls: seq<Call>, more: nat, oks: seq<bool>, ghost p: Peeked, ghost j: nat,
                     ghost base: seq<seq<byte>>, ghost w0: nat)
        returns (e: seq<byte>, oks': seq<bool>)
      requires Logging(p, calls, oks, base, w0) && start == p.start && Located(sz, p, j, pos) && j < |p.entries|
      modifies this, buf, buf.data
      ensures Logging(p, calls, oks', base, w0) && e == p.entries[j] && Located(sz, p, j + 1, pos + |e|) && |e| > 0
    {
      var to := if |oks| + more <= |calls| then |oks| + more else |calls|;
      oks' := Burst(calls, to, oks, p, base, w0);
      ParseStep(sz, p.seen, p.entries, j, pos);
      e := ParseAt(start, pos, p, p.entries[j]);
    }

    /** The parse loop of logger_thread_read: watcher_count falls to zero after
        `watched` entries. */
    method ParseAll(start: nat, size: nat, calls: seq<Call>, burst: nat -> nat, watched: nat, ghost p: Peeked,
                    ghost base: seq<seq<byte>>, ghost w0: nat)
        returns (got: seq<seq<byte>>, oks: seq<bool>)
      requires Logging(p, calls, [], base, w0) && start == p.start && size == |p.seen| && Located(sz, p, 0, 0)
      modifies this, buf, buf.data
      ensures Logging(p, calls, oks, base, w0)
      ensures |got| == (if |p.entries| <= watched then |p.entries| else watched) && got == p.entries[..|got|]
    {
      got, oks := [], [];
      var pos := 0;
      ParsedEnd(sz, p, got, pos);
      while pos < size && |got| < watched
        invariant Logging(p, calls, oks, base, w0) && |got| <= watched
        invariant Parsed(sz, p, got, pos) && pos <= size && (pos < size <==> |got| < |p.entries|)
        decreases size - pos
      {
        var e;
        e, oks := ParseNext(start, pos, calls, burst(|got|), oks, p, |got|, base, w0);
        ParsedNext(sz, p, got, pos, e);
        got, pos := got + [e], pos + |e|;
        ParsedEnd(sz, p, got, pos);
      }
    }

    /** bipbuf_poll of the peeked size. */
    method Remove(size: nat, ghost p: Peeked)
      requires Valid() && StillShows(p) && p.seen == Concat(p.entries) && size == |p.seen| > 0
      modifies this`regions, buf
      ensures Valid() && All(regions) == old(All(regions))[|p.entries|..]
    {
      ghost var c, k := buf.Cur(), |p.entries|;
      RemovedFramed(sz, c, buf.data[..], regions, k);
      AllRemoved(regions, k);
      var at, ok := buf.Poll(size);
      assert ok;
      regions := Removed(regions, k);
    }

    /** The first locked section. */
    method Peek() returns (at: nat, n: nat, some: bool, ghost p: Peeked)
      requires Valid()
      ensures some <==> All(regions) != []
      ensures !some ==> regions.a == []
      ensures some ==> StillShows(p) && p == Peeked(at, p.seen, regions.a) && Located(sz, p, 0, 0)
      ensures some ==> n == |p.seen| > 0 && regions.a != []
    {
      ghost var c, data := buf.Cur(), buf.data[..];
      at, n, some := buf.PeekAll();
      p := PeekOf(c, data, regions);
      PeekShows(sz, c, data, regions);
    }

    /** Everything after it. */
    method ReadPeeked(at: nat, n: nat, calls: seq<Call>, burst: nat -> nat, watched: nat, ghost p: Peeked)
        returns (got: seq<seq<byte>>, oks: seq<bool>, tally: nat)
      requires Valid() && CallsOk(sz, calls) && StillShows(p) && p == Peeked(at, p.seen, regions.a) && n == |p.seen| > 0
      requires Located(sz, p, 0, 0)
      modifies this, buf, buf.data
      ensures Valid() && |oks| == |calls| && tally == old(written) + |Kept(calls, oks)| && written == 0
      ensures All(regions) == (old(All(regions)) + Kept(calls, oks))[|p.entries|..]
      ensures got == p.entries[..if |p.entries| <= watched then |p.entries| else watched]
    {
      ghost var base, w0 := All(regions), written;
      got, oks := ParseAll(at, n, calls, burst, watched, p, base, w0);
      oks := Burst(calls, |calls|, oks, p, base, w0);
      tally := written;
      Remove(n, p);
      written, dropped := 0, 0;
    }

    /** logger_thread_read, with the calls of logger_log that happen between its two
        locked sections. The entries peeked are removed, no others; those are what it
        parsed, unless the watchers went away; every entry accepted meanwhile stays,
        in order. */
    method Read(calls: seq<Call>, burst: nat -> nat, watched: nat) returns (size: nat, got: seq<seq<byte>>,
        oks: seq<bool>, tally: nat)
      requires Valid() && CallsOk(sz, calls)
      modifies this, buf, buf.data
      ensures Valid() && |oks| <= |calls|
      ensures size == 0 <==> old(All(regions)) == []
      ensures size == 0 ==> got == [] && oks == [] && All(regions) == [] && tally == 0 && written == old(written)
      ensures size > 0 ==> |oks| == |calls| && tally == old(written) + |Kept(calls, oks)| && written == 0
      ensures size > 0 ==> 0 < |old(regions).a| && All(regions) == old(All(regions))[|old(regions).a|..] + Kept(calls,
          oks)
      ensures got == old(regions).a[..if |old(regions).a| <= watched then |old(regions).a| else watched]
    {
      ghost var base := All(regions);
      ghost var p;
      var at, n, some;
      at, n, some, p := Peek();
      if !some {
        return 0, [], [], 0;
      }
      size := n;
      got, oks, tally := ReadPeeked(at, n, calls, burst, watched, p);
      FrontSplit(base, Kept(calls, oks), |p.entries|);
    }
  }

  // --------------------------------------------------------------- watcher side

  /** After a request for a line and 128 more, a note of at most 128 bytes and the line
      both fit, even if the note makes the buffer turn to region B. */
  lemma BothFit(c: Cursors, note: nat, line: nat)
    requires Ok(c) && note <= 128 && line + 128 <= Unused(c)
    ensures Ok(Advanced(c, note)) && line <= Unused(Advanced(c, note))
  {
    AdvancedOk(c, note);
  }

  lemma SumAssociates<T>(x: seq<T>, y: seq<T>, z: seq<T>)
    ensures (x + y) + z == x + (y + z)
  {
  }

  class Watcher {
    const buf: Buffer
    var skipped: nat
    var failed_flush: bool

    constructor (size: nat)
      requires size < 0x8000_0000
      ensures buf.Valid() && buf.Contents() == [] && skipped == 0 && !failed_flush && fresh(buf) && fresh(buf.data)
    {
      buf := new Buffer(size);
      skipped, failed_flush := 0, false;
    }

    /** The bytes queued for the watcher. */
    ghost predicate Has(q: seq<byte>)
      reads this, buf, buf.data
    {
      buf.Valid() && buf.Contents() == q
    }

    /** The socket refuses to take anything at some try, or not even an empty buffer has
        the room. */
    ghost predicate Hopeless(want: nat, takes: nat -> nat) {
      buf.data.Length < want || exists i :: takes(i) == 0
    }

    /** One flush: the socket takes at most `takes` bytes of what region A holds. */
    method Flush(takes: nat, ghost q: seq<byte>) returns (flushed: nat, ghost sent: seq<byte>, ghost rest: seq<byte>)
      requires Has(q)
      modifies buf
      ensures Has(rest) && |sent| == flushed && sent + rest == q
      ensures flushed == if takes <= old(buf.a_end - buf.a_start) then takes else old(buf.a_end - buf.a_start)
    {
      flushed, sent, rest := 0, [], q;
      var at, n, some := buf.PeekAll();
      if some && takes > 0 {
        flushed := if takes <= n then takes else n;
        sent, rest := q[..flushed], q[flushed..];
        var from, ok := buf.Poll(flushed);
      }
    }

    /** The note of how many lines were skipped, if any were, is written in the room
        that was requested, and pushed. */
    method PutNote(at: nat, note: seq<byte>)
      requires buf.Valid() && at == WritePos(buf.Cur()) && 0 < |note| <= Unused(buf.Cur())
      modifies buf, buf.data
      ensures buf.Valid() && buf.Contents() == old(buf.Contents()) + note
      ensures buf.Cur() == Advanced(old(buf.Cur()), |note|)
    {
      ghost var c, before := buf.Cur(), buf.data[..];
      buf.Write(at, note);
      AdvancedQueue(c, before, buf.data[..], |note|, |note|);
      var pushed := buf.Push(|note|);
    }

    method RequestRoom(want: nat, ghost q: seq<byte>) returns (at: nat, room: bool)
      requires Has(q)
      ensures (room <==> want <= Unused(buf.Cur())) && (room ==> at == WritePos(buf.Cur()))
    {
      at, room := buf.Request(want);
    }

    /** The loop that flushes until the line and a note fit, or a flush fails. */
    method MakeRoom(want: nat, takes: nat -> nat, ghost q: seq<byte>) returns (at: nat, ghost sent: seq<byte>,
        ghost rest: seq<byte>)
      requires Has(q)
      modifies this`failed_flush, buf
      ensures Has(rest) && sent + rest == q
      ensures !failed_flush ==> want <= Unused(buf.Cur()) && at == WritePos(buf.Cur())
      ensures old(failed_flush) || want <= Unused(old(buf.Cur())) ==> sent == [] && failed_flush == old(failed_flush)
      ensures failed_flush && !old(failed_flush) ==> Hopeless(want, takes)
    {
      sent, rest := [], q;
      var tries := 0;
      var room;
      at, room := RequestRoom(want, q);
      while !failed_flush && !room
        invariant Has(rest) && sent + rest == q
        invariant (room <==> want <= Unused(buf.Cur())) && (room ==> at == WritePos(buf.Cur()))
        invariant old(failed_flush) || want <= Unused(old(buf.Cur())) ==>
          sent == [] && failed_flush == old(failed_flush) && buf.Cur() == old(buf.Cur())
        invariant failed_flush && !old(failed_flush) ==> Hopeless(want, takes)
        decreases !failed_flush, |rest|
      {
        ghost var part, less;
        var flushed;
        flushed, part, less := Flush(takes(tries), rest);
        SumAssociates(sent, part, less);
        sent, rest, tries := sent + part, less, tries + 1;
        if flushed <= 0 {
          assert takes(tries - 1) == 0 || Unused(buf.Cur()) == buf.data.Length;
          failed_flush := true;
        }
        at, room := RequestRoom(want, rest);
      }
    }

    method PutLine(at: nat, line: seq<byte>, note: seq<byte>, ghost q: seq<byte>)
      requires Has(q) && 0 < |note| <= 128 && |line| + 128 <= Unused(buf.Cur()) && at == WritePos(buf.Cur())
      modifies this`skipped, buf, buf.data
      ensures skipped == 0 && Has(q + (if old(skipped) > 0 then note else []) + line)
    {
      BothFit(buf.Cur(), |note|, |line|);
      if skipped > 0 {
        PutNote(at, note);
        skipped := 0;
      }
      var n := buf.Offer(line);
      assert n == |line|;
    }

    /** logger_thread_write_entry for one watcher: the line follows everything already
        queued, after a note if lines had been skipped, or it is counted as skipped.
        No byte is lost: `sent` went to the socket and the rest is still queued. */
    method WriteLine(line: seq<byte>, note: seq<byte>, takes: nat -> nat, ghost q: seq<byte>) returns (ok: bool,
        ghost sent: seq<byte>, ghost rest: seq<byte>)
      requires Has(q) && 0 < |note| <= 128
      modifies this, buf, buf.data
      ensures Has(rest) && (ok <==> !failed_flush)
      ensures ok ==> skipped == 0 && sent + rest == q + ((if old(skipped) > 0 then note else []) + line)
      ensures !ok ==> skipped == old(skipped) + 1 && sent + rest == q
      // a line is skipped after an earlier failure, or because the socket does not take enough
      ensures !ok ==> old(failed_flush) || Hopeless(|line| + 128, takes)
      ensures old(failed_flush) ==> !ok && sent == []
      ensures !old(failed_flush) && |line| + 128 <= Unused(old(buf.Cur())) ==> ok && sent == []
    {
      var at;
      at, sent, rest := MakeRoom(|line| + 128, takes, q);
      ok := !failed_flush;
      if ok {
        ghost var head := if skipped > 0 then note else [];
        PutLine(at, line, note, rest);
        SumAssociates(rest, head, line);
        SumAssociates(sent, rest, head + line);
        rest := rest + head + line;
      } else {
        skipped := skipped + 1;
      }
    }
  }
}
