/**
 bipbuffer.c: a circular buffer of two regions, A behind and B in front, used as a
 queue of bytes.
 */
module BipBuffer {

  type byte = bv8

  // ------------------------------------------------------------------ the cursors

  /** The fields of bipbuf_t but the bytes. */
  datatype Cursors = Cursors(size: nat, aStart: nat, aEnd: nat, bEnd: nat, bInuse: bool)

  /** B is in front of A and is on exactly when there is more room there than behind A; an
      empty A is at the start. The size is an int. */
  predicate Ok(c: Cursors) {
    && c.aStart <= c.aEnd <= c.size < 0x8000_0000
    && (if c.bInuse then c.bEnd <= c.aStart else c.bEnd == 0)
    && (c.bInuse <==> c.size - c.aEnd < c.aStart)
    && (c.aStart == c.aEnd ==> c.aStart == 0)
  }

  /** The bytes queued: region A, then region B. */
  function Queue(c: Cursors, data: seq<byte>): (q: seq<byte>)
    requires Ok(c) && |data| == c.size
    ensures |q| == c.aEnd - c.aStart + c.bEnd
  {
    data[c.aStart..c.aEnd] + data[..c.bEnd]
  }

  function Unused(c: Cursors): (n: nat)
    requires Ok(c)
    ensures n <= c.size
  {
    if c.bInuse then c.aStart - c.bEnd else c.size - c.aEnd
  }

  /** Where the next byte goes. */
  function WritePos(c: Cursors): nat {
    if c.bInuse then c.bEnd else c.aEnd
  }

  function SwitchToB(c: Cursors): Cursors {
    if c.size - c.aEnd < c.aStart - c.bEnd then c.(bInuse := true) else c
  }

  function Advanced(c: Cursors, n: nat): Cursors {
    SwitchToB(if c.bInuse then c.(bEnd := c.bEnd + n) else c.(aEnd := c.aEnd + n))
  }

  /** The cursors are 32-bit. */
  function Sum32(x: nat, y: nat): (r: nat)
    ensures x + y < 0x1_0000_0000 ==> r == x + y
    ensures 0x1_0000_0000 <= x + y < 0x2_0000_0000 ==> r == x + y - 0x1_0000_0000
  {
    (x + y) % 0x1_0000_0000
  }

  function Consumed(c: Cursors, n: nat): Cursors {
    var d := c.(aStart := Sum32(c.aStart, n));
    SwitchToB(
      if d.aStart == d.aEnd then
        if d.bInuse then d.(aStart := 0, aEnd := d.bEnd, bEnd := 0, bInuse := false) else d.(aStart := 0, aEnd := 0)
      else d)
  }

  /** Writing keeps the shape, and never costs more room than it takes. */
  lemma AdvancedOk(c: Cursors, n: nat)
    requires Ok(c) && n <= Unused(c)
    ensures Ok(Advanced(c, n)) && Unused(Advanced(c, n)) >= Unused(c) - n
    ensures Advanced(c, n).aStart == c.aStart && Advanced(c, n).aEnd >= c.aEnd && Advanced(c, n).size == c.size
  {
  }

  lemma ConsumedOk(c: Cursors, n: nat)
    requires Ok(c) && n <= c.aEnd - c.aStart
    ensures Ok(Consumed(c, n)) && Consumed(c, n).size == c.size
  {
  }

  /** Bytes outside the write window are not disturbed by a write. */
  predicate SameOutside(data: seq<byte>, data': seq<byte>, w: nat, n: nat) {
    |data'| == |data| && forall i :: 0 <= i < |data| && (i < w || w + n <= i) ==> data'[i] == data[i]
  }

  /** Writing appends to the queue, whichever region it goes to. */
  lemma AdvancedQueue(c: Cursors, data: seq<byte>, data': seq<byte>, room: nat, n: nat)
    requires Ok(c) && n <= room <= Unused(c) && |data| == c.size && SameOutside(data, data', WritePos(c), room)
    ensures Ok(Advanced(c, n))
    ensures Queue(Advanced(c, n), data') == Queue(c, data) + data'[WritePos(c)..WritePos(c) + n]
  {
    AdvancedOk(c, n);
    if c.bInuse {
      AppendedToB(c, Advanced(c, n), data, data', n);
    } else {
      AppendedToA(c, Advanced(c, n), data, data', n);
    }
  }

  lemma AppendedToB(c: Cursors, c': Cursors, data: seq<byte>, data': seq<byte>, n: nat)
    requires Ok(c) && Ok(c') && |data| == |data'| == c.size == c'.size && c.bEnd + n <= c.aStart
    requires c'.aStart == c.aStart && c'.aEnd == c.aEnd && c'.bEnd == c.bEnd + n
    requires forall k :: 0 <= k < c.bEnd || c.aStart <= k < c.aEnd ==> data'[k] == data[k]
    ensures Queue(c', data') == Queue(c, data) + data'[c.bEnd..c.bEnd + n]
  {
    GrownB(data, data', c.aStart, c.aEnd, c.bEnd, n);
  }

  lemma AppendedToA(c: Cursors, c': Cursors, data: seq<byte>, data': seq<byte>, n: nat)
    requires Ok(c) && Ok(c') && |data| == |data'| == c.size == c'.size && c.aEnd + n <= c.size
    requires c'.aStart == c.aStart && c'.aEnd == c.aEnd + n && c'.bEnd == c.bEnd == 0
    requires forall k :: c.aStart <= k < c.aEnd ==> data'[k] == data[k]
    ensures Queue(c', data') == Queue(c, data) + data'[c.aEnd..c.aEnd + n]
  {
    GrownA(data, data', c.aStart, c.aEnd, n);
  }

  lemma GrownB(data: seq<byte>, data': seq<byte>, i: nat, j: nat, w: nat, n: nat)
    requires w + n <= i <= j <= |data| == |data'|
    requires (forall k :: 0 <= k < w ==> data'[k] == data[k]) && forall k :: i <= k < j ==> data'[k] == data[k]
    ensures data'[i..j] + data'[..w + n] == (data[i..j] + data[..w]) + data'[w..w + n]
  {
    assert data'[i..j] == data[i..j];
    SliceGrows(data, data', 0, w, n);
    Regroup(data[i..j], data[..w], data'[w..w + n]);
  }

  lemma GrownA(data: seq<byte>, data': seq<byte>, i: nat, w: nat, n: nat)
    requires i <= w && w + n <= |data| == |data'| && forall k :: i <= k < w ==> data'[k] == data[k]
    ensures data'[i..w + n] + data'[..0] == (data[i..w] + data[..0]) + data'[w..w + n]
  {
    SliceGrows(data, data', i, w, n);
    NothingAfter(data[i..w], data[..0]);
    NothingAfter(data'[i..w + n], data'[..0]);
  }

  lemma Regroup<T>(a: seq<T>, b: seq<T>, c: seq<T>)
    ensures a + (b + c) == (a + b) + c
  {
  }

  lemma NothingAfter<T>(a: seq<T>, b: seq<T>)
    requires |b| == 0
    ensures a + b == a
  {
  }

  lemma SliceGrows(data: seq<byte>, data': seq<byte>, i: nat, w: nat, n: nat)
    requires i <= w && w + n <= |data| == |data'| && forall k :: i <= k < w ==> data'[k] == data[k]
    ensures data'[i..w + n] == data[i..w] + data'[w..w + n]
  {
  }

  lemma FrontSplit<T>(a: seq<T>, b: seq<T>, n: nat)
    requires n <= |a|
    ensures (a + b)[..n] == a[..n] && (a + b)[n..] == a[n..] + b
  {
  }

  lemma SliceCut<T>(data: seq<T>, i: nat, j: nat, n: nat)
    requires i + n <= j <= |data|
    ensures data[i..j][..n] == data[i..i + n] && data[i..j][n..] == data[i + n..j]
  {
  }

  /** Consuming removes from the front of the queue, also when B becomes A. */
  lemma ConsumedQueue(c: Cursors, data: seq<byte>, n: nat)
    requires Ok(c) && |data| == c.size && n <= c.aEnd - c.aStart
    ensures Ok(Consumed(c, n))
    ensures Queue(Consumed(c, n), data) == Queue(c, data)[n..]
    ensures data[c.aStart..c.aStart + n] == Queue(c, data)[..n]
  {
    ConsumedOk(c, n);
    FrontSplit(data[c.aStart..c.aEnd], data[..c.bEnd], n);
    SliceCut(data, c.aStart, c.aEnd, n);
  }

  /** The poll did what it is for: the first n bytes are off the queue. */
  ghost predicate Removes(c: Cursors, data: seq<byte>, n: nat)
    requires Ok(c) && |data| == c.size
  {
    && Ok(Consumed(c, n)) && Consumed(c, n).size == c.size && n <= |Queue(c, data)|
    && Queue(Consumed(c, n), data) == Queue(c, data)[n..]
  }

  /** The bound check of bipbuf_poll lets lengths past region A through, also by wrapping
      around. A poll it lets through removes the first n bytes exactly when n is within A. */
  lemma PollExact(c: Cursors, data: seq<byte>, n: nat)
    requires Ok(c) && |data| == c.size && c.aStart != c.aEnd
    requires n < 0x1_0000_0000 && Sum32(c.aStart, n) <= c.size
    ensures Removes(c, data, n) <==> n <= c.aEnd - c.aStart
  {
    if n <= c.aEnd - c.aStart {
      ConsumedOk(c, n);
      ConsumedQueue(c, data, n);
    }
  }

  // ---------------------------------------------------------------- the data type

  class Buffer {
    var a_start: nat
    var a_end: nat
    var b_end: nat
    var b_inuse: bool
    const data: array<byte>

    ghost function Cur(): Cursors
      reads this
    {
      Cursors(data.Length, a_start, a_end, b_end, b_inuse)
    }

    ghost predicate Valid()
      reads this
    {
      Ok(Cur())
    }

    /** The queue this buffer implements. */
    ghost function Contents(): seq<byte>
      requires Valid()
      reads this, data
    {
      Queue(Cur(), data[..])
    }

    /** bipbuf_new. */
    constructor (size: nat)
      requires size < 0x8000_0000
      ensures Valid() && Contents() == [] && data.Length == size && fresh(data)
      ensures Cur() == Cursors(size, 0, 0, 0, false)
    {
      a_start, a_end, b_end, b_inuse := 0, 0, 0, false;
      data := new byte[size](_ => 0);
    }

    method UnusedSpace() returns (n: nat)
      requires Valid()
      ensures n == Unused(Cur())
    {
      n := if b_inuse then a_start - b_end else data.Length - a_end;
    }

    method Used() returns (n: nat)
      requires Valid()
      ensures n == |Contents()|
    {
      n := (a_end - a_start) + b_end;
    }

    method IsEmpty() returns (empty: bool)
      requires Valid()
      ensures empty <==> Contents() == []
    {
      empty := a_start == a_end;
    }

    /** bipbuf_request: where to write, if there is room. */
    method Request(size: nat) returns (at: nat, ok: bool)
      requires Valid()
      ensures ok <==> size <= Unused(Cur())
      ensures ok ==> at == WritePos(Cur()) && at + size <= data.Length
    {
      at, ok := 0, false;
      var room := UnusedSpace();
      if room < size { return; }
      at, ok := if b_inuse then b_end else a_end, true;
    }

    /** Where the second difference would wrap around, region B is already in use. */
    method CheckSwitch()
      requires a_end <= data.Length && (b_end <= a_start || b_inuse)
      modifies this`b_inuse
      ensures Cur() == SwitchToB(old(Cur()))
    {
      if data.Length - a_end < a_start - b_end {
        b_inuse := true;
      }
    }

    /** The cursor moves of bipbuf_push and bipbuf_offer. */
    method Advance(size: nat)
      requires Valid() && size <= Unused(Cur())
      modifies this
      ensures Cur() == Advanced(old(Cur()), size)
    {
      if b_inuse {
        b_end := b_end + size;
      } else {
        a_end := a_end + size;
      }
      CheckSwitch();
    }

    /** The cursor moves of bipbuf_poll. */
    method Consume(size: nat)
      requires Valid()
      modifies this
      ensures Cur() == Consumed(old(Cur()), size)
    {
      a_start := Sum32(a_start, size);
      if a_start == a_end {
        if b_inuse {
          a_start, a_end := 0, b_end;
          b_end, b_inuse := 0, false;
        } else {
          a_start, a_end := 0, 0;
        }
      }
      CheckSwitch();
    }

    /** bipbuf_push: the bytes already written at the requested place join the queue. */
    method Push(size: nat) returns (n: nat)
      requires Valid()
      modifies this
      ensures Valid() && n == if size <= Unused(old(Cur())) then size else 0
      ensures Cur() == if size <= Unused(old(Cur())) then Advanced(old(Cur()), size) else old(Cur())
      ensures size <= Unused(old(Cur())) ==>
        var w := WritePos(old(Cur()));
        w + size <= data.Length && Contents() == old(Contents()) + data[..][w..w + size]
    {
      var room := UnusedSpace();
      if room < size { return 0; }
      ghost var c, bytes := Cur(), data[..];
      AdvancedQueue(c, bytes, bytes, size, size);
      Advance(size);
      assert data[..] == bytes;
      n := size;
    }

    /** memcpy to the given place. */
    method Write(at: nat, bytes: seq<byte>)
      requires at + |bytes| <= data.Length
      modifies data
      ensures SameOutside(old(data[..]), data[..], at, |bytes|) && data[..][at..at + |bytes|] == bytes
    {
      for k := 0 to |bytes|
        invariant forall q :: 0 <= q < k ==> data[at + q] == bytes[q]
        invariant forall q :: 0 <= q < data.Length && (q < at || at + k <= q) ==> data[q] == old(data[q])
      {
        data[at + k] := bytes[k];
      }
    }

    /** bipbuf_offer: all of the bytes or none are appended. */
    method Offer(bytes: seq<byte>) returns (n: nat)
      requires Valid()
      modifies this, data
      ensures Valid() && n == if |bytes| <= Unused(old(Cur())) then |bytes| else 0
      ensures Contents() == if |bytes| <= Unused(old(Cur())) then old(Contents()) + bytes else old(Contents())
      ensures Cur() == if |bytes| <= Unused(old(Cur())) then Advanced(old(Cur()), |bytes|) else old(Cur())
    {
      var room := UnusedSpace();
      if room < |bytes| { return 0; }
      ghost var c, before := Cur(), data[..];
      Write(if b_inuse then b_end else a_end, bytes);
      AdvancedOk(c, |bytes|);
      AdvancedQueue(c, before, data[..], |bytes|, |bytes|);
      Advance(|bytes|);
      n := |bytes|;
    }

    /** bipbuf_peek: only the end of the array bounds the length. */
    method Peek(size: nat) returns (at: nat, ok: bool)
      requires Valid() && size < 0x1_0000_0000
      ensures ok <==> Sum32(a_start, size) <= data.Length && Contents() != []
      ensures ok ==> at == a_start && (size <= a_end - a_start ==> data[..][at..at + size] == Contents()[..size])
    {
      at, ok := a_start, !(data.Length < Sum32(a_start, size)) && a_start != a_end;
      if size <= a_end - a_start {
        ConsumedQueue(Cur(), data[..], size);
      }
    }

    /** bipbuf_peek_all: the front of the queue, up to where region A ends. */
    method PeekAll() returns (at: nat, size: nat, ok: bool)
      requires Valid()
      ensures ok <==> Contents() != []
      ensures ok ==> at == a_start && size == a_end - a_start && 0 < size <= |Contents()|
      ensures ok ==> data[..][at..at + size] == Contents()[..size]
    {
      at, size, ok := a_start, a_end - a_start, a_start != a_end;
    }

    /** bipbuf_poll: removes from the front what a peek may have shown. */
    method Poll(size: nat) returns (at: nat, ok: bool)
      requires Valid() && size < 0x1_0000_0000
      modifies this
      ensures ok <==> Sum32(old(a_start), size) <= data.Length && old(Contents()) != []
      ensures if ok then Cur() == Consumed(old(Cur()), size) && at == old(a_start) else Cur() == old(Cur())
      ensures size <= old(a_end - a_start) ==>
        && Valid() && (ok <==> old(Contents()) != [])
        && (ok ==> at + size <= data.Length && data[..][at..at + size] == old(Contents())[..size])
      ensures ok ==>
        (Valid() && size <= |old(Contents())| && Contents() == old(Contents())[size..]
         <==> size <= old(a_end - a_start))
    {
      at, ok := 0, false;
      if a_start == a_end { return; }
      if data.Length < Sum32(a_start, size) { return; }
      ghost var c := Cur();
      PollExact(c, data[..], size);
      if size <= a_end - a_start {
        ConsumedQueue(c, data[..], size);
      }
      at, ok := a_start, true;
      Consume(size);
    }
  }

  /** A poll that is let through and goes wrong: two bytes from a buffer that holds one.
      `held` are the cursors before it. */
  method LongPollSucceeds() returns (buf: Buffer, ok: bool, ghost held: Cursors)
    ensures held == Cursors(2, 0, 1, 0, false) && ok
    ensures buf.Cur() == Consumed(held, 2) && !buf.Valid()
  {
    buf := new Buffer(2);
    var n := buf.Offer([1]);
    held := buf.Cur();
    var at;
    at, ok := buf.Poll(2);
  }
}
