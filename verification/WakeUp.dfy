/**
 The cross-thread wake-up handshake of the event loop: `evpipe_write` on the
 sender side, and the wake-up section of `ev_run` together with `pipecb` on the
 loop side.

 Every shared memory access is one atomic step (the fences in the code give
 sequential consistency). Senders are threads or signal handlers; there may be
 any number of them, at any point of their call. A run is any interleaving.
 */
module WakeUp {

  /** The two users of the handshake: signals and async watchers. */
  datatype Kind = Signal | Async

  /** `flag` is sig_pending / async_pending, `marked` the numbers whose
      `pending` / `sent` field is 1, `fed` those handed to ev_feed_event. */
  datatype Lane = Lane(flag: bool, marked: set<nat>, fed: set<nat>)

  /** Where a sender is in ev_feed_signal / ev_async_send and evpipe_write. */
  datatype SenderPc =
    | Idle
    | CheckFlag(kind: Kind)
    | SetFlag(kind: Kind)
    | SetSkipped
    | TestWanted
    | ClearSkipped
    | WriteByte

  /** Where the loop is. `Head` to `Drain` belong to ev_run, the rest to pipecb. */
  datatype LoopPc =
    | Head                             // about to call loop_fork if needed
    | Arm                              // pipe_write_wanted = 1
    | TestSkipped                      // decide whether to block
    | Poll(block: bool)                // inside backend_poll
    | Disarm                           // pipe_write_wanted = 0
    | Recheck                          // feed pipe_w if a write was skipped
    | Drain                            // ev_invoke_pending
    | ReadPipe
    | ResetSkipped
    | TestFlag(kind: Kind)
    | LowerFlag(kind: Kind)
    | Scan(kind: Kind, index: nat)     // `index` entries are still to be looked at
    | Take(kind: Kind, entry: nat)     // saw the mark of `entry`, about to clear it
    | Feed(kind: Kind, entry: nat)     // cleared the mark, about to feed the watcher

  datatype Config = Config(signals: nat, asyncs: nat, eventfd: bool, capacity: nat)

  /** What sender and loop share besides the flags, and what the loop knows of
      its own pipe watcher. */
  datatype Pipe = Pipe(
    skipped: bool,                     // pipe_write_skipped
    wanted: bool,                      // pipe_write_wanted
    bytes: nat,                        // unread bytes in the pipe (or the eventfd counter)
    readable: bool,                    // pipe_w is pending with EV_READ
    custom: bool,                      // pipe_w is pending with EV_CUSTOM
    rearmed: bool)                     // loop_fork replaced the pipe in this iteration
  {
    predicate WatcherPending() {
      readable || custom
    }
  }

  type Senders = map<nat, SenderPc>

  /** History: the flags that were up and the calls in progress when loop_fork last
      replaced the pipe; which of those calls have since looked at `wanted`, and whether
      one of them found it set. */
  datatype Fork = Fork(up: set<Kind>, calls: Senders, tested: set<nat>, saw: bool)

  datatype State = State(signal: Lane, async: Lane, pipe: Pipe, senders: Senders, loop: LoopPc, fork: Fork)
  {
    function LaneOf(k: Kind): Lane {
      if k.Signal? then signal else async
    }

    /** No sender is in the middle of a call. */
    predicate Quiet() {
      forall t | t in senders :: senders[t].Idle?
    }
  }

  function Limit(cfg: Config, k: Kind): nat {
    if k.Signal? then cfg.signals else cfg.asyncs
  }

  predicate Init(s: State) {
    && s.signal == Lane(false, {}, {}) && s.async == Lane(false, {}, {})
    && s.pipe == Pipe(false, false, 0, false, false, false)
    && s.Quiet() && s.loop.Head?
  }

  // ---------------------------------------------------------------- steps

  /** A new call: mark the watcher, then enter evpipe_write. */
  predicate Send(cfg: Config, s: State, s': State, t: nat, k: Kind, w: nat) {
    && (t in s.senders ==> s.senders[t].Idle?)
    && w < Limit(cfg, k)
    && s'.LaneOf(k) == s.LaneOf(k).(marked := s.LaneOf(k).marked + {w})
    && s'.LaneOf(Other(k)) == s.LaneOf(Other(k))
    && s'.pipe == s.pipe && s'.loop == s.loop && s'.fork == s.fork
    && s'.senders == s.senders[t := CheckFlag(k)]
  }

  function Other(k: Kind): Kind {
    if k.Signal? then Async else Signal
  }

  /** The effect of the next memory access of a call in progress: on the pipe, ... */
  function AdvancePipe(cfg: Config, pc: SenderPc, p: Pipe): Pipe {
    match pc
    case SetSkipped => p.(skipped := true)
    case ClearSkipped => p.(skipped := false)
    case WriteByte => p.(bytes := if p.bytes < cfg.capacity then p.bytes + 1 else p.bytes)
    case _ => p
  }

  /** ... on a flag, ... */
  function AdvanceLane(pc: SenderPc, k: Kind, lane: Lane): Lane {
    if pc == SetFlag(k) then lane.(flag := true) else lane
  }

  /** ... and where it leaves the sender. */
  function AdvancePc(pc: SenderPc, flag: bool, wanted: bool): SenderPc {
    match pc
    case Idle => Idle
    case CheckFlag(k) => if flag then Idle else SetFlag(k)
    case SetFlag(_) => SetSkipped
    case SetSkipped => TestWanted
    case TestWanted => if wanted then ClearSkipped else Idle
    case ClearSkipped => WriteByte
    case WriteByte => Idle
  }

  function FlagSeen(s: State, pc: SenderPc): bool {
    pc.CheckFlag? && s.LaneOf(pc.kind).flag
  }

  /** The call in progress at the fork was about to look at `wanted`, and still is. */
  predicate Testing(f: Fork, t: nat) {
    t in f.calls && f.calls[t].TestWanted? && t !in f.tested
  }

  function AdvanceFork(pc: SenderPc, t: nat, wanted: bool, f: Fork): Fork {
    if pc.TestWanted? && Testing(f, t) then f.(tested := f.tested + {t}, saw := f.saw || wanted) else f
  }

  function Advance(cfg: Config, s: State, t: nat): State
    requires t in s.senders
  {
    var pc := s.senders[t];
    State(AdvanceLane(pc, Signal, s.signal), AdvanceLane(pc, Async, s.async), AdvancePipe(cfg, pc, s.pipe),
          s.senders[t := AdvancePc(pc, FlagSeen(s, pc), s.pipe.wanted)], s.loop,
          AdvanceFork(pc, t, s.pipe.wanted, s.fork))
  }

  /** What the environment decides in a loop step: whether a fork was noticed,
      whether something other than the handshake forbids blocking, and whether
      backend_poll reports the pipe. */
  datatype Choice = Choice(fork: bool, nowait: bool, report: bool)

  predicate Enabled(s: State, c: Choice) {
    s.loop.Poll? && c.report ==> s.pipe.bytes > 0
  }

  function LoopPipe(cfg: Config, pc: LoopPc, p: Pipe, c: Choice): Pipe {
    match pc
    case Head => if c.fork then p.(bytes := 0, custom := true, rearmed := true) else p
    case Arm => p.(wanted := true)
    case Poll(_) => p.(readable := p.readable || c.report)
    case Disarm => p.(wanted := false)
    case Recheck => p.(custom := p.custom || p.skipped)
    case Drain => if p.WatcherPending() then p.(readable := false, custom := false) else p.(rearmed := false)
    case ReadPipe => p.(bytes := if cfg.eventfd || p.bytes <= 4 then 0 else p.bytes - 4)
    case ResetSkipped => p.(skipped := false)
    case _ => p
  }

  /** The effect of a pipecb step on lane `k`. */
  function LoopLane(pc: LoopPc, k: Kind, lane: Lane): Lane {
    match pc
    case LowerFlag(k') => if k' == k then lane.(flag := false) else lane
    case Take(k', i) => if k' == k then lane.(marked := lane.marked - {i}) else lane
    case Feed(k', i) => if k' == k then lane.(fed := lane.fed + {i}) else lane
    case _ => lane
  }

  function AfterScan(k: Kind): LoopPc {
    if k.Signal? then TestFlag(Async) else Drain
  }

  function LoopPcAfter(cfg: Config, s: State, c: Choice): LoopPc {
    match s.loop
    case Head => Arm
    case Arm => TestSkipped
    case TestSkipped => Poll(!(s.pipe.skipped || c.nowait))
    case Poll(_) => Disarm
    case Disarm => Recheck
    case Recheck => Drain
    case Drain => if !s.pipe.WatcherPending() then Head else if s.pipe.readable then ReadPipe else ResetSkipped
    case ReadPipe => ResetSkipped
    case ResetSkipped => TestFlag(Signal)
    case TestFlag(k) => if s.LaneOf(k).flag then LowerFlag(k) else AfterScan(k)
    case LowerFlag(k) => Scan(k, Limit(cfg, k))
    case Scan(k, i) =>
      if i == 0 then AfterScan(k) else if i - 1 in s.LaneOf(k).marked then Take(k, i - 1) else Scan(k, i - 1)
    case Take(k, i) => Feed(k, i)
    case Feed(k, i) => Scan(k, i)
  }

  function FlagsUp(s: State): set<Kind> {
    (if s.signal.flag then {Signal} else {}) + (if s.async.flag then {Async} else {})
  }

  function LoopFork(s: State, c: Choice): Fork {
    if s.loop.Head? && c.fork then Fork(FlagsUp(s), s.senders, {}, false) else s.fork
  }

  function LoopStep(cfg: Config, s: State, c: Choice): State {
    State(LoopLane(s.loop, Signal, s.signal), LoopLane(s.loop, Async, s.async),
          LoopPipe(cfg, s.loop, s.pipe, c), s.senders, LoopPcAfter(cfg, s, c), LoopFork(s, c))
  }

  ghost predicate SenderNext(cfg: Config, s: State, s': State) {
    || (exists t, k, w :: Send(cfg, s, s', t, k, w))
    || (exists t :: t in s.senders && s' == Advance(cfg, s, t))
  }

  ghost predicate LoopNext(cfg: Config, s: State, s': State) {
    exists c :: Enabled(s, c) && s' == LoopStep(cfg, s, c)
  }

  ghost predicate Next(cfg: Config, s: State, s': State) {
    SenderNext(cfg, s, s') || LoopNext(cfg, s, s')
  }

  ghost predicate Steps(cfg: Config, part: seq<State>) {
    forall i :: 0 <= i < |part| - 1 ==> Next(cfg, part[i], part[i + 1])
  }

  ghost predicate Run(cfg: Config, run: seq<State>) {
    |run| > 0 && Init(run[0]) && Steps(cfg, run)
  }

  // ------------------------------------------------------------ invariant

  ghost predicate Raising(senders: Senders, k: Kind) {
    exists t :: t in senders && (senders[t] == CheckFlag(k) || senders[t] == SetFlag(k))
  }

  ghost predicate Waking(senders: Senders) {
    exists t :: t in senders && (senders[t].SetSkipped? || senders[t].WriteByte?)
  }

  ghost predicate Deciding(senders: Senders) {
    exists t :: t in senders && (senders[t].TestWanted? || senders[t].ClearSkipped?)
  }

  /** pipecb has still to look at entry `w` in the scan it is in. */
  predicate StillToScan(pc: LoopPc, k: Kind, w: nat) {
    match pc
    case Scan(k', i) => k' == k && w < i
    case Take(k', i) => k' == k && w <= i
    case Feed(k', i) => k' == k && w < i
    case _ => false
  }

  /** pipecb is running and has not yet lowered flag `k`. */
  predicate StillToTest(pc: LoopPc, k: Kind) {
    match pc
    case ReadPipe => true
    case ResetSkipped => true
    case TestFlag(k') => k' == k || k'.Signal?
    case LowerFlag(k') => k' == k || k'.Signal?
    case Scan(k', _) => k'.Signal? && k.Async?
    case Take(k', _) => k'.Signal? && k.Async?
    case Feed(k', _) => k'.Signal? && k.Async?
    case _ => false
  }

  /** Every mark is covered by its flag, by a sender about to raise the flag, or
      by the scan in progress. */
  ghost predicate MarksCovered(s: State, k: Kind) {
    forall w | w in s.LaneOf(k).marked :: s.LaneOf(k).flag || Raising(s.senders, k) || StillToScan(s.loop, k, w)
  }

  /** Every raised flag is covered by something that makes pipecb run. */
  ghost predicate FlagCovered(s: State, k: Kind) {
    s.LaneOf(k).flag ==>
      s.pipe.skipped || s.pipe.bytes > 0 || s.pipe.WatcherPending() || StillToTest(s.loop, k) || Waking(s.senders)
  }

  predicate ArmedConsistent(s: State) {
    && (s.loop.TestSkipped? || s.loop.Poll? || s.loop.Disarm? ==> s.pipe.wanted)
    && (s.loop.Head? || s.loop.Arm? || s.loop.TestSkipped? || s.loop.Poll? ==>
          (s.pipe.WatcherPending() ==> s.pipe.rearmed))
    && (s.loop.Arm? || s.loop.TestSkipped? || s.loop.Poll? ==> (s.pipe.rearmed ==> s.pipe.custom))
    && (s.loop.Head? ==> !s.pipe.rearmed)
  }

  /** A blocked loop that overlooked `skipped` is owed a byte by some sender. */
  ghost predicate BlockOwed(s: State) {
    s.loop == Poll(true) && s.pipe.skipped ==> Deciding(s.senders)
  }

  predicate InRange(cfg: Config, s: State, k: Kind) {
    && (forall w | w in s.LaneOf(k).marked :: w < Limit(cfg, k))
    && (s.loop.LowerFlag? && s.loop.kind == k ==> s.LaneOf(k).flag)
    && (s.loop.Take? && s.loop.kind == k ==> s.loop.entry in s.LaneOf(k).marked && s.loop.entry < Limit(cfg, k))
    && (s.loop.Feed? && s.loop.kind == k ==> s.loop.entry < Limit(cfg, k))
    && (s.loop.Scan? && s.loop.kind == k ==> s.loop.index <= Limit(cfg, k))
  }

  ghost predicate LaneInv(cfg: Config, s: State, k: Kind) {
    MarksCovered(s, k) && FlagCovered(s, k) && InRange(cfg, s, k)
  }

  /** In the part of an iteration that follows a replacement of the pipe, up to the
      return of backend_poll. */
  predicate AfterFork(s: State) {
    s.pipe.rearmed && (s.loop.Arm? || s.loop.TestSkipped? || s.loop.Poll?)
  }

  /** Flag `k` was raised since the pipe was replaced. */
  predicate RaisedSince(s: State, k: Kind) {
    s.LaneOf(k).flag && k !in s.fork.up
  }

  /** A call that is bound to end with `skipped` set or a byte written. */
  predicate Bound(pc: SenderPc) {
    pc.SetFlag? || pc.SetSkipped? || pc.ClearSkipped? || pc.WriteByte?
  }

  ghost predicate Committed(senders: Senders) {
    exists t :: t in senders && Bound(senders[t])
  }

  /** What puts a byte into the new pipe: a call that was committed at the fork, one that
      saw the pipe wanted since, or a flag raised since. */
  ghost predicate Cause(s: State) {
    Committed(s.fork.calls) || s.fork.saw || RaisedSince(s, Signal) || RaisedSince(s, Async)
  }

  /** With a cause there is a byte, or one is on its way. */
  ghost predicate ByteComing(s: State) {
    Cause(s) ==> s.pipe.skipped || s.pipe.bytes > 0 || Committed(s.senders)
  }

  /** The calls in progress have a cause. */
  ghost predicate Explained(s: State, pc: SenderPc, t: nat) {
    match pc
    case Idle => true
    case CheckFlag(_) => true
    case SetFlag(k) => Committed(s.fork.calls) || k !in s.fork.up
    case TestWanted => Cause(s) || Testing(s.fork, t)
    case _ => Cause(s)
  }

  ghost predicate CallsExplained(s: State) {
    forall t :: t in s.senders ==> Explained(s, s.senders[t], t)
  }

  /** Flags are not lowered meanwhile, and whoever saw the pipe wanted was about to look
      at the fork. */
  ghost predicate ForkKept(s: State) {
    && (forall k :: k in s.fork.up ==> s.LaneOf(k).flag)
    && (s.fork.saw ==> exists t :: t in s.fork.calls && s.fork.calls[t].TestWanted?)
  }

  ghost predicate ForkInv(s: State) {
    AfterFork(s) ==> ForkKept(s) && ByteComing(s) && (s.pipe.bytes > 0 ==> Cause(s)) && CallsExplained(s)
  }

  ghost predicate Inv(cfg: Config, s: State) {
    && ArmedConsistent(s) && BlockOwed(s) && ForkInv(s)
    && forall k :: LaneInv(cfg, s, k)
  }

  lemma InitEstablishes(cfg: Config, s: State)
    requires Init(s)
    ensures Inv(cfg, s)
  {
  }

  /** Moving one sender: what stays true of the others, and of the one moved. */
  lemma MoveSender(senders: Senders, t: nat, pc: SenderPc, k: Kind)
    ensures var senders' := senders[t := pc];
            && (pc == CheckFlag(k) || pc == SetFlag(k) ==> Raising(senders', k))
            && (pc.SetSkipped? || pc.WriteByte? ==> Waking(senders'))
            && (pc.TestWanted? || pc.ClearSkipped? ==> Deciding(senders'))
            && (Raising(senders, k) && !(t in senders && senders[t] in {CheckFlag(k), SetFlag(k)}) ==>
                  Raising(senders', k))
            && (Waking(senders) && !(t in senders && senders[t] in {SetSkipped, WriteByte}) ==> Waking(senders'))
            && (Deciding(senders) && !(t in senders && senders[t] in {TestWanted, ClearSkipped}) ==> Deciding(senders'))
  {
    var senders' := senders[t := pc];
    assert t in senders' && senders'[t] == pc;
    assert forall u | u in senders && u != t :: u in senders' && senders'[u] == senders[u];
  }

  lemma SendKeeps(cfg: Config, s: State, s': State, t: nat, k: Kind, w: nat, k': Kind)
    requires LaneInv(cfg, s, k') && BlockOwed(s) && Send(cfg, s, s', t, k, w)
    ensures LaneInv(cfg, s', k') && BlockOwed(s')
  {
    MoveSender(s.senders, t, CheckFlag(k), k');
  }

  lemma AdvanceKeeps(cfg: Config, s: State, t: nat, k: Kind)
    requires cfg.capacity > 0
    requires LaneInv(cfg, s, k) && ArmedConsistent(s) && BlockOwed(s) && t in s.senders
    ensures var s' := Advance(cfg, s, t); LaneInv(cfg, s', k) && ArmedConsistent(s') && BlockOwed(s')
  {
    var s' := Advance(cfg, s, t);
    MoveSender(s.senders, t, s'.senders[t], k);
    assert s'.LaneOf(k) == AdvanceLane(s.senders[t], k, s.LaneOf(k));
  }

  lemma LoopKeeps(cfg: Config, s: State, c: Choice, k: Kind)
    requires LaneInv(cfg, s, k)
    ensures LaneInv(cfg, LoopStep(cfg, s, c), k)
  {
    var s' := LoopStep(cfg, s, c);
    assert s'.LaneOf(k) == LoopLane(s.loop, k, s.LaneOf(k));
  }

  lemma LoopKeepsArmed(cfg: Config, s: State, c: Choice)
    requires ArmedConsistent(s) && BlockOwed(s)
    ensures var s' := LoopStep(cfg, s, c); ArmedConsistent(s') && BlockOwed(s')
  {
  }

  lemma MoveCommitted(senders: Senders, t: nat, pc: SenderPc)
    ensures Bound(pc) ==> Committed(senders[t := pc])
    ensures Committed(senders) && !(t in senders && Bound(senders[t])) ==> Committed(senders[t := pc])
  {
    var senders' := senders[t := pc];
    assert t in senders' && senders'[t] == pc;
    assert forall u | u in senders && u != t :: u in senders' && senders'[u] == senders[u];
  }

  lemma SendKeepsFork(cfg: Config, s: State, s': State, t: nat, k: Kind, w: nat)
    requires ForkInv(s) && Send(cfg, s, s', t, k, w)
    ensures ForkInv(s')
  {
    if AfterFork(s') {
      assert forall k' :: s'.LaneOf(k').flag == s.LaneOf(k').flag;
      assert Cause(s') <==> Cause(s);
      MoveCommitted(s.senders, t, CheckFlag(k));
      forall u | u in s'.senders ensures Explained(s', s'.senders[u], u) {
        if u != t { assert Explained(s, s.senders[u], u); }
      }
    }
  }

  lemma AdvanceCause(cfg: Config, s: State, t: nat)
    requires t in s.senders && AfterFork(s) && ForkInv(s)
    ensures var s' := Advance(cfg, s, t);
            && ForkKept(s') && (Cause(s) ==> Cause(s'))
            && (Cause(s') ==> Cause(s) || s.senders[t].SetFlag? || (s.senders[t].TestWanted? && s.pipe.wanted))
  {
    var s' := Advance(cfg, s, t);
    assert forall k :: s'.LaneOf(k) == AdvanceLane(s.senders[t], k, s.LaneOf(k));
  }

  /** The call that moves keeps a cause. */
  lemma AdvanceExplains(cfg: Config, s: State, t: nat)
    requires t in s.senders && AfterFork(s) && ForkInv(s)
    ensures var s' := Advance(cfg, s, t); Explained(s', s'.senders[t], t) && (s'.pipe.bytes > 0 ==> Cause(s'))
  {
    var s' := Advance(cfg, s, t);
    AdvanceCause(cfg, s, t);
    assert forall k :: s'.LaneOf(k) == AdvanceLane(s.senders[t], k, s.LaneOf(k));
    assert Explained(s, s.senders[t], t);
  }

  lemma AdvanceKeepsFork(cfg: Config, s: State, t: nat)
    requires cfg.capacity > 0 && t in s.senders && ForkInv(s)
    ensures ForkInv(Advance(cfg, s, t))
  {
    var s' := Advance(cfg, s, t);
    if AfterFork(s') {
      AdvanceCause(cfg, s, t);
      AdvanceExplains(cfg, s, t);
      MoveCommitted(s.senders, t, s'.senders[t]);
      forall u | u in s'.senders ensures Explained(s', s'.senders[u], u) {
        if u != t { assert Explained(s, s.senders[u], u); }
      }
    }
  }

  lemma LoopKeepsFork(cfg: Config, s: State, c: Choice)
    requires ForkInv(s) && ArmedConsistent(s)
    ensures ForkInv(LoopStep(cfg, s, c))
  {
    var s' := LoopStep(cfg, s, c);
    if AfterFork(s') {
      assert forall k :: s'.LaneOf(k) == LoopLane(s.loop, k, s.LaneOf(k));
      if s.loop.Head? {
        assert forall k :: k in FlagsUp(s) <==> s.LaneOf(k).flag;
        assert forall t :: t in s.senders ==> Explained(s', s.senders[t], t);
      } else {
        assert Cause(s') <==> Cause(s);
        forall u | u in s'.senders ensures Explained(s', s'.senders[u], u) {
          assert Explained(s, s.senders[u], u);
        }
      }
    }
  }

  lemma NextKeeps(cfg: Config, s: State, s': State)
    requires cfg.capacity > 0
    requires Inv(cfg, s) && Next(cfg, s, s')
    ensures Inv(cfg, s')
  {
    if LoopNext(cfg, s, s') {
      var c :| Enabled(s, c) && s' == LoopStep(cfg, s, c);
      LoopKeepsArmed(cfg, s, c);
      LoopKeepsFork(cfg, s, c);
      forall k ensures LaneInv(cfg, s', k) {
        assert LaneInv(cfg, s, k);
        LoopKeeps(cfg, s, c, k);
      }
    } else if t, k, w :| Send(cfg, s, s', t, k, w) {
      forall k' ensures LaneInv(cfg, s', k') {
        assert LaneInv(cfg, s, k');
        SendKeeps(cfg, s, s', t, k, w, k');
      }
      assert LaneInv(cfg, s, k);
      SendKeeps(cfg, s, s', t, k, w, k);
      SendKeepsFork(cfg, s, s', t, k, w);
    } else {
      var t :| t in s.senders && s' == Advance(cfg, s, t);
      forall k ensures LaneInv(cfg, s', k) {
        assert LaneInv(cfg, s, k);
        AdvanceKeeps(cfg, s, t, k);
      }
      assert LaneInv(cfg, s, Signal);
      AdvanceKeeps(cfg, s, t, Signal);
      AdvanceKeepsFork(cfg, s, t);
    }
  }

  lemma {:induction false} RunKeeps(cfg: Config, run: seq<State>, n: nat)
    requires cfg.capacity > 0 && Run(cfg, run) && n < |run|
    ensures Inv(cfg, run[n])
  {
    if n == 0 {
      InitEstablishes(cfg, run[0]);
    } else {
      RunKeeps(cfg, run, n - 1);
      assert Next(cfg, run[n - 1], run[n - 1 + 1]);
      NextKeeps(cfg, run[n - 1], run[n]);
    }
  }

  // -------------------------------------------------------------- theorems

  /** Coverage: at every point of every run, a mark that pipecb has not cleared
      is reachable through a flag, a sender or the scan; and a raised flag is
      reachable through `skipped`, a byte, a pending pipe_w, a running pipecb or
      a sender that is about to provide one. */
  lemma {:induction false} UndeliveredIsCovered(cfg: Config, run: seq<State>, n: nat, k: Kind, w: nat)
    requires cfg.capacity > 0 && Run(cfg, run) && n < |run|
    requires w in run[n].LaneOf(k).marked
    ensures StillToScan(run[n].loop, k, w) || Raising(run[n].senders, k) ||
            (run[n].LaneOf(k).flag &&
             (run[n].pipe.skipped || run[n].pipe.bytes > 0 || run[n].pipe.WatcherPending() ||
              StillToTest(run[n].loop, k) || Waking(run[n].senders)))
  {
    RunKeeps(cfg, run, n);
    assert LaneInv(cfg, run[n], k);
  }

  /** No lost wake-up. If the loop has decided to block, no sender is mid-call
      and something is undelivered, the pipe holds a byte, so that backend_poll
      returns; the one exception is an iteration in which loop_fork replaced the
      pipe, and then pipe_w is already pending. */
  lemma {:induction false} NoLostWakeUp(cfg: Config, run: seq<State>, n: nat, k: Kind)
    requires cfg.capacity > 0 && Run(cfg, run) && n < |run|
    requires run[n].loop == Poll(true) && run[n].Quiet() && run[n].LaneOf(k).marked != {}
    ensures run[n].pipe.bytes > 0 || (run[n].pipe.rearmed && run[n].pipe.custom)
  {
    RunKeeps(cfg, run, n);
    var w :| w in run[n].LaneOf(k).marked;
    assert LaneInv(cfg, run[n], k);
  }

  /** Exactly when the exception leaves the pipe empty. In an iteration in which
      loop_fork replaced the pipe, a loop that blocks with all senders idle has an empty
      pipe if and only if no call was committed at the fork, none that was about to look
      at `wanted` found it set, and no flag was raised since. */
  lemma {:induction false} ForkEmptiesExactly(cfg: Config, run: seq<State>, n: nat)
    requires cfg.capacity > 0 && Run(cfg, run) && n < |run|
    requires run[n].loop == Poll(true) && run[n].Quiet() && run[n].pipe.rearmed
    ensures run[n].pipe.bytes == 0 <==>
      && !Committed(run[n].fork.calls) && !run[n].fork.saw
      && forall k :: run[n].LaneOf(k).flag ==> k in run[n].fork.up
  {
    RunKeeps(cfg, run, n);
    assert RaisedSince(run[n], Signal) ==> run[n].LaneOf(Signal).flag;
    assert RaisedSince(run[n], Async) ==> run[n].LaneOf(Async).flag;
  }

  /** With no sender past its flag test at the fork: what was sent before the fork is
      not in the new pipe, what is sent after it is. */
  lemma {:induction false} IdleForkEmptiesExactly(cfg: Config, run: seq<State>, n: nat)
    requires cfg.capacity > 0 && Run(cfg, run) && n < |run|
    requires run[n].loop == Poll(true) && run[n].Quiet() && run[n].pipe.rearmed
    requires forall t :: t in run[n].fork.calls ==> run[n].fork.calls[t].Idle? || run[n].fork.calls[t].CheckFlag?
    ensures run[n].pipe.bytes == 0 <==> forall k :: run[n].LaneOf(k).flag ==> k in run[n].fork.up
  {
    RunKeeps(cfg, run, n);
    ForkEmptiesExactly(cfg, run, n);
  }

  /** Whoever was mid-call at the fork: a flag raised since has its byte. */
  lemma {:induction false} RaisedSinceHasByte(cfg: Config, run: seq<State>, n: nat, k: Kind)
    requires cfg.capacity > 0 && Run(cfg, run) && n < |run|
    requires run[n].loop == Poll(true) && run[n].Quiet() && run[n].pipe.rearmed && RaisedSince(run[n], k)
    ensures run[n].pipe.bytes > 0
  {
    ForkEmptiesExactly(cfg, run, n);
    assert run[n].LaneOf(k).flag && k !in run[n].fork.up;
  }

  lemma SendersKeepMarks(cfg: Config, s: State, s': State, k: Kind)
    requires SenderNext(cfg, s, s')
    ensures s.LaneOf(k).marked <= s'.LaneOf(k).marked
  {
    if t :| t in s.senders && s' == Advance(cfg, s, t) {
      assert s'.LaneOf(k) == AdvanceLane(s.senders[t], k, s.LaneOf(k));
    } else {
      var t, k', w' :| Send(cfg, s, s', t, k', w');
      assert s.LaneOf(k).marked <= s'.LaneOf(k).marked;
    }
  }

  /** A mark disappears only into a Feed step of pipecb for that very entry, and
      that step hands the watcher to ev_feed_event. */
  lemma MarksAreOnlyFed(cfg: Config, s: State, s': State, k: Kind, w: nat)
    requires Next(cfg, s, s') && w in s.LaneOf(k).marked && w !in s'.LaneOf(k).marked
    ensures s.loop == Take(k, w) && s'.loop == Feed(k, w)
    ensures forall c :: w in LoopStep(cfg, s', c).LaneOf(k).fed
  {
    assert LoopNext(cfg, s, s') by {
      if SenderNext(cfg, s, s') { SendersKeepMarks(cfg, s, s', k); }
    }
    var c :| Enabled(s, c) && s' == LoopStep(cfg, s, c);
    assert s'.LaneOf(k) == LoopLane(s.loop, k, s.LaneOf(k));
    forall c ensures w in LoopStep(cfg, s', c).LaneOf(k).fed {
      assert LoopStep(cfg, s', c).LaneOf(k) == LoopLane(s'.loop, k, s'.LaneOf(k));
    }
  }

  // --------------------------------------------------- nothing is made up

  /** What a step adds to the watchers fed: the entry of a Feed step of the loop, and
      nothing in any other step. */
  lemma FedGrowsExactly(cfg: Config, s: State, s': State, k: Kind)
    requires Next(cfg, s, s')
    ensures SenderNext(cfg, s, s') ==> s'.LaneOf(k).fed == s.LaneOf(k).fed
    ensures LoopNext(cfg, s, s') ==>
      s'.LaneOf(k).fed == s.LaneOf(k).fed + (if s.loop.Feed? && s.loop.kind == k then {s.loop.entry} else {})
  {
    if SenderNext(cfg, s, s') {
      if t :| t in s.senders && s' == Advance(cfg, s, t) {
        assert s'.LaneOf(k) == AdvanceLane(s.senders[t], k, s.LaneOf(k));
      } else {
        var t, k', w :| Send(cfg, s, s', t, k', w);
        assert k' == k || Other(k') == k;
      }
    }
    if LoopNext(cfg, s, s') {
      var c :| Enabled(s, c) && s' == LoopStep(cfg, s, c);
      assert s'.LaneOf(k) == LoopLane(s.loop, k, s.LaneOf(k));
    }
  }

  lemma LoopNeverMarks(cfg: Config, s: State, s': State, k: Kind)
    requires LoopNext(cfg, s, s')
    ensures s'.LaneOf(k).marked <= s.LaneOf(k).marked
  {
    var c :| Enabled(s, c) && s' == LoopStep(cfg, s, c);
    assert s'.LaneOf(k) == LoopLane(s.loop, k, s.LaneOf(k));
  }

  lemma AdvanceNeverMarks(cfg: Config, s: State, t: nat, k: Kind)
    requires t in s.senders
    ensures Advance(cfg, s, t).LaneOf(k).marked == s.LaneOf(k).marked
  {
    assert Advance(cfg, s, t).LaneOf(k) == AdvanceLane(s.senders[t], k, s.LaneOf(k));
  }

  /** Some thread starts a call for watcher `w`. */
  ghost predicate Sends(cfg: Config, s: State, s': State, k: Kind, w: nat) {
    exists t :: Send(cfg, s, s', t, k, w)
  }

  /** A mark appears only by a call for that very watcher. */
  lemma MarksAreOnlySent(cfg: Config, s: State, s': State, k: Kind, w: nat)
    requires Next(cfg, s, s') && w in s'.LaneOf(k).marked && w !in s.LaneOf(k).marked
    ensures Sends(cfg, s, s', k, w)
  {
    assert SenderNext(cfg, s, s') by {
      if LoopNext(cfg, s, s') { LoopNeverMarks(cfg, s, s', k); }
    }
    forall t | t in s.senders ensures s' != Advance(cfg, s, t) {
      AdvanceNeverMarks(cfg, s, t, k);
    }
    var t, k', w' :| Send(cfg, s, s', t, k', w');
    assert k' == k || Other(k') == k;
  }

  lemma {:induction false} MarkWasSent(cfg: Config, run: seq<State>, n: nat, k: Kind, w: nat) returns (m: nat)
    requires Run(cfg, run) && n < |run| && w in run[n].LaneOf(k).marked
    ensures m < n && Sends(cfg, run[m], run[m + 1], k, w)
  {
    assert n > 0;
    assert Next(cfg, run[n - 1], run[n - 1 + 1]);
    if w in run[n - 1].LaneOf(k).marked {
      m := MarkWasSent(cfg, run, n - 1, k, w);
    } else {
      MarksAreOnlySent(cfg, run[n - 1], run[n], k, w);
      m := n - 1;
    }
  }

  /** A loop about to feed an entry took its mark before. */
  lemma {:induction false} FeedWasMarked(cfg: Config, run: seq<State>, n: nat, k: Kind, w: nat) returns (m: nat)
    requires cfg.capacity > 0 && Run(cfg, run) && n < |run| && run[n].loop == Feed(k, w)
    ensures m < n && run[m].loop == Take(k, w) && w in run[m].LaneOf(k).marked
  {
    assert n > 0;
    assert Next(cfg, run[n - 1], run[n - 1 + 1]);
    if run[n - 1].loop == Feed(k, w) {
      m := FeedWasMarked(cfg, run, n - 1, k, w);
    } else {
      m := n - 1;
      RunKeeps(cfg, run, m);
      assert LaneInv(cfg, run[m], k);
    }
  }

  /** A watcher that was fed had been marked, and had been sent before that. */
  lemma {:induction false} FedWasSent(cfg: Config, run: seq<State>, n: nat, k: Kind, w: nat) returns (m: nat, i: nat)
    requires cfg.capacity > 0 && Run(cfg, run) && n < |run| && w in run[n].LaneOf(k).fed
    ensures i < m < n && w in run[m].LaneOf(k).marked && Sends(cfg, run[i], run[i + 1], k, w)
  {
    assert n > 0;
    assert Next(cfg, run[n - 1], run[n - 1 + 1]);
    if w in run[n - 1].LaneOf(k).fed {
      m, i := FedWasSent(cfg, run, n - 1, k, w);
    } else {
      FedGrowsExactly(cfg, run[n - 1], run[n], k);
      m := FeedWasMarked(cfg, run, n - 1, k, w);
      i := MarkWasSent(cfg, run, m, k, w);
    }
  }

  // -------------------------------------------------------------- delivery

  /** The loop on its own: no fork is noticed, blocking is allowed, and
      backend_poll reports the pipe exactly when it holds a byte. */
  function Alone(s: State): Choice {
    Choice(false, false, s.pipe.bytes > 0)
  }

  function LoopSteps(cfg: Config, s: State, n: nat): State
    decreases n
  {
    if n == 0 then s else LoopSteps(cfg, LoopStep(cfg, s, Alone(s)), n - 1)
  }

  /** Asleep for good unless a sender wakes it. */
  predicate Stuck(s: State) {
    s.loop == Poll(true) && s.pipe.bytes == 0
  }

  /** pipecb is past the scan that would have found `w`. */
  predicate Missed(pc: LoopPc, k: Kind, w: nat) {
    !InRunSection(pc) && !StillToTest(pc, k) && !StillToScan(pc, k, w)
  }

  predicate InRunSection(pc: LoopPc) {
    pc.Head? || pc.Arm? || pc.TestSkipped? || pc.Poll? || pc.Disarm? || pc.Recheck? || pc.Drain?
  }

  /** Steps left in pipecb. */
  function PipecbLeft(cfg: Config, pc: LoopPc): nat {
    match pc
    case Scan(k, i) => 3 * i + 1 + Later(cfg, k)
    case Take(k, i) => 3 * i + 3 + Later(cfg, k)
    case Feed(k, i) => 3 * i + 2 + Later(cfg, k)
    case LowerFlag(k) => 3 * Limit(cfg, k) + 2 + Later(cfg, k)
    case TestFlag(k) => 3 * Limit(cfg, k) + 3 + Later(cfg, k)
    case _ => 3 * cfg.signals + 3 * cfg.asyncs + 8 + (if pc.ReadPipe? then 1 else 0)
  }

  function Later(cfg: Config, k: Kind): nat {
    if k.Signal? then 3 * cfg.asyncs + 4 else 0
  }

  /** Steps left until pipecb starts, and through it. */
  function RunLeft(cfg: Config, s: State): nat {
    var willFeed := s.pipe.skipped || s.pipe.WatcherPending();
    3 * cfg.signals + 3 * cfg.asyncs + 10 +
    match s.loop
    case Drain => if s.pipe.WatcherPending() then 0 else 7
    case Recheck => if willFeed then 1 else 8
    case Disarm => if willFeed then 2 else 9
    case Poll(_) => 3
    case TestSkipped => 4
    case Arm => 5
    case _ => 6
  }

  function StepsLeft(cfg: Config, s: State): nat {
    if InRunSection(s.loop) then RunLeft(cfg, s) else PipecbLeft(cfg, s.loop)
  }

  lemma QuietCover(cfg: Config, s: State, k: Kind, w: nat)
    requires Inv(cfg, s) && s.Quiet() && w in s.LaneOf(k).marked
    ensures StillToScan(s.loop, k, w) ||
            (s.LaneOf(k).flag && (s.pipe.skipped || s.pipe.bytes > 0 || s.pipe.WatcherPending() || StillToTest(s.loop,
                k)))
    ensures s.loop == Poll(true) && !s.pipe.rearmed ==> s.pipe.bytes > 0 && !s.pipe.skipped
    ensures w < Limit(cfg, k)
  {
    assert LaneInv(cfg, s, k);
  }

  lemma AloneStep(cfg: Config, s: State)
    requires cfg.capacity > 0
    requires Inv(cfg, s) && s.Quiet()
    ensures var s' := LoopStep(cfg, s, Alone(s)); Inv(cfg, s') && s'.Quiet() && (s'.pipe.rearmed ==> s.pipe.rearmed)
  {
    var s' := LoopStep(cfg, s, Alone(s));
    assert Enabled(s, Alone(s));
    assert LoopNext(cfg, s, s');
    NextKeeps(cfg, s, s');
  }

  /** Each step of the undisturbed loop brings `w` nearer to its Feed step. */
  lemma AloneProgress(cfg: Config, s: State, k: Kind, w: nat)
    requires Inv(cfg, s) && s.Quiet() && w in s.LaneOf(k).marked && s.loop != Take(k, w)
    ensures var s' := LoopStep(cfg, s, Alone(s));
            && w in s'.LaneOf(k).marked
            && (Missed(s'.loop, k, w) ==> Missed(s.loop, k, w))
            && ((Missed(s.loop, k, w) && !Missed(s'.loop, k, w)) || StepsLeft(cfg, s') < StepsLeft(cfg, s))
  {
    var s' := LoopStep(cfg, s, Alone(s));
    QuietCover(cfg, s, k, w);
    assert s'.LaneOf(k) == LoopLane(s.loop, k, s.LaneOf(k));
    if InRunSection(s.loop) {
    } else {
      assert LaneInv(cfg, s, if s.loop.ReadPipe? || s.loop.ResetSkipped? then k else s.loop.kind);
    }
  }

  lemma {:induction false} QuietLoopDelivers(cfg: Config, s: State, k: Kind, w: nat) returns (n: nat)
    requires cfg.capacity > 0
    requires Inv(cfg, s) && s.Quiet() && w in s.LaneOf(k).marked
    ensures LoopSteps(cfg, s, n).loop == Feed(k, w)
    ensures forall i :: 0 <= i < n && Stuck(LoopSteps(cfg, s, i)) ==> s.pipe.rearmed
    decreases Missed(s.loop, k, w), StepsLeft(cfg, s)
  {
    var s' := LoopStep(cfg, s, Alone(s));
    QuietCover(cfg, s, k, w);
    if s.loop == Take(k, w) {
      n := 1;
      assert LoopSteps(cfg, s, 1) == LoopSteps(cfg, s', 0);
    } else {
      AloneStep(cfg, s);
      AloneProgress(cfg, s, k, w);
      var m := QuietLoopDelivers(cfg, s', k, w);
      n := m + 1;
      forall i | 0 <= i < n && Stuck(LoopSteps(cfg, s, i)) ensures s.pipe.rearmed {
        if i > 0 { assert LoopSteps(cfg, s, i) == LoopSteps(cfg, s', i - 1); }
      }
    }
  }

  /** Delivery. From any quiet point of any run the loop by itself, with nobody
      sending any more, reaches the step that feeds an undelivered send. It never
      sleeps over it, unless loop_fork replaced the pipe in this very iteration; then
      the send is fed once backend_poll returns for some other reason. */
  lemma EverySendIsDelivered(cfg: Config, run: seq<State>, i: nat, k: Kind, w: nat) returns (n: nat)
    requires cfg.capacity > 0 && Run(cfg, run) && i < |run|
    requires run[i].Quiet() && w in run[i].LaneOf(k).marked
    ensures LoopSteps(cfg, run[i], n).loop == Feed(k, w)
    ensures forall j :: 0 <= j < n && Stuck(LoopSteps(cfg, run[i], j)) ==> run[i].pipe.rearmed
  {
    RunKeeps(cfg, run, i);
    n := QuietLoopDelivers(cfg, run[i], k, w);
  }

  // -------------------------------------------------------------- after a fork

  lemma JoinSteps(cfg: Config, first: seq<State>, second: seq<State>)
    requires |first| > 0 && |second| > 0 && first[|first| - 1] == second[0]
    requires Steps(cfg, first) && Steps(cfg, second)
    ensures Steps(cfg, first + second[1..])
  {
    var all := first + second[1..];
    forall i | 0 <= i < |all| - 1 ensures Next(cfg, all[i], all[i + 1]) {
      if i < |first| - 1 {
        assert Next(cfg, first[i], first[i + 1]);
      } else {
        var j := i - (|first| - 1);
        assert all[i] == second[j] && all[i + 1] == second[j + 1];
        assert Next(cfg, second[j], second[j + 1]);
      }
    }
  }

  lemma TakeLoopStep(cfg: Config, s: State, c: Choice, s': State)
    requires Enabled(s, c) && s' == LoopStep(cfg, s, c)
    ensures Next(cfg, s, s') && Steps(cfg, [s, s'])
  {
    assert LoopNext(cfg, s, s');
  }

  lemma TakeSenderStep(cfg: Config, s: State, t: nat, s': State)
    requires t in s.senders && s' == Advance(cfg, s, t)
    ensures Next(cfg, s, s') && Steps(cfg, [s, s'])
  {
    assert SenderNext(cfg, s, s');
  }

  /** The state of the example below: one async watcher, one sender. */
  function Sample(flag: bool, marked: set<nat>, pipe: Pipe, sender: SenderPc, pc: LoopPc): State {
    State(Lane(false, {}, {}), Lane(flag, marked, {}), pipe, map[0 := sender], pc,
          Fork(if pipe.rearmed then {Async} else {}, if pipe.rearmed then map[0 := Idle] else map[], {}, false))
  }

  const ONE_ASYNC := Config(0, 1, false, 1)
  const WAITING := Choice(false, false, false)
  const QUIET_PIPE := Pipe(false, false, 0, false, false, false)
  const ARMED_PIPE := Pipe(false, true, 0, false, false, false)

  /** The loop arms the pipe and a sender raises the flag. */
  lemma SampleArm() returns (part: seq<State>)
    ensures |part| > 1 && Steps(ONE_ASYNC, part)
    ensures part[0] == Sample(false, {}, QUIET_PIPE, Idle, Head)
    ensures part[|part| - 1] == Sample(true, {0}, ARMED_PIPE, SetSkipped, TestSkipped)
  {
    part := [
      Sample(false, {}, QUIET_PIPE, Idle, Head),
      Sample(false, {}, QUIET_PIPE, Idle, Arm),
      Sample(false, {}, ARMED_PIPE, Idle, TestSkipped),
      Sample(false, {0}, ARMED_PIPE, CheckFlag(Async), TestSkipped),
      Sample(false, {0}, ARMED_PIPE, SetFlag(Async), TestSkipped),
      Sample(true, {0}, ARMED_PIPE, SetSkipped, TestSkipped)];
    TakeLoopStep(ONE_ASYNC, part[0], WAITING, part[1]);
    TakeLoopStep(ONE_ASYNC, part[1], WAITING, part[2]);
    assert Send(ONE_ASYNC, part[2], part[3], 0, Async, 0);
    TakeSenderStep(ONE_ASYNC, part[3], 0, part[4]);
    TakeSenderStep(ONE_ASYNC, part[4], 0, part[5]);
  }

  /** The sender sees the pipe wanted and gets as far as the write. */
  lemma SampleSend() returns (part: seq<State>)
    ensures |part| > 1 && Steps(ONE_ASYNC, part)
    ensures part[0] == Sample(true, {0}, ARMED_PIPE, SetSkipped, TestSkipped)
    ensures part[|part| - 1] == Sample(true, {0}, ARMED_PIPE, WriteByte, TestSkipped)
  {
    var skippedPipe := Pipe(true, true, 0, false, false, false);
    part := [
      Sample(true, {0}, ARMED_PIPE, SetSkipped, TestSkipped),
      Sample(true, {0}, skippedPipe, TestWanted, TestSkipped),
      Sample(true, {0}, skippedPipe, ClearSkipped, TestSkipped),
      Sample(true, {0}, ARMED_PIPE, WriteByte, TestSkipped)];
    TakeSenderStep(ONE_ASYNC, part[0], 0, part[1]);
    TakeSenderStep(ONE_ASYNC, part[1], 0, part[2]);
    TakeSenderStep(ONE_ASYNC, part[2], 0, part[3]);
  }

  /** The loop finishes the iteration before the byte arrives. */
  lemma SampleIterate() returns (part: seq<State>)
    ensures |part| > 1 && Steps(ONE_ASYNC, part)
    ensures part[0] == Sample(true, {0}, ARMED_PIPE, WriteByte, TestSkipped)
    ensures part[|part| - 1] == Sample(true, {0}, QUIET_PIPE, WriteByte, Head)
  {
    part := [
      Sample(true, {0}, ARMED_PIPE, WriteByte, TestSkipped),
      Sample(true, {0}, ARMED_PIPE, WriteByte, Poll(true)),
      Sample(true, {0}, ARMED_PIPE, WriteByte, Disarm),
      Sample(true, {0}, QUIET_PIPE, WriteByte, Recheck),
      Sample(true, {0}, QUIET_PIPE, WriteByte, Drain),
      Sample(true, {0}, QUIET_PIPE, WriteByte, Head)];
    TakeLoopStep(ONE_ASYNC, part[0], WAITING, part[1]);
    TakeLoopStep(ONE_ASYNC, part[1], WAITING, part[2]);
    TakeLoopStep(ONE_ASYNC, part[2], WAITING, part[3]);
    TakeLoopStep(ONE_ASYNC, part[3], WAITING, part[4]);
    TakeLoopStep(ONE_ASYNC, part[4], WAITING, part[5]);
  }

  /** The byte arrives, loop_fork throws the pipe away, and the loop blocks. */
  lemma SampleFork() returns (part: seq<State>)
    ensures |part| > 1 && Steps(ONE_ASYNC, part)
    ensures part[0] == Sample(true, {0}, QUIET_PIPE, WriteByte, Head)
    ensures part[|part| - 1] == Sample(true, {0}, Pipe(false, true, 0, false, true, true), Idle, Poll(true))
  {
    part := [
      Sample(true, {0}, QUIET_PIPE, WriteByte, Head),
      Sample(true, {0}, Pipe(false, false, 1, false, false, false), Idle, Head),
      Sample(true, {0}, Pipe(false, false, 0, false, true, true), Idle, Arm),
      Sample(true, {0}, Pipe(false, true, 0, false, true, true), Idle, TestSkipped),
      Sample(true, {0}, Pipe(false, true, 0, false, true, true), Idle, Poll(true))];
    TakeSenderStep(ONE_ASYNC, part[0], 0, part[1]);
    TakeLoopStep(ONE_ASYNC, part[1], Choice(true, false, false), part[2]);
    TakeLoopStep(ONE_ASYNC, part[2], WAITING, part[3]);
    TakeLoopStep(ONE_ASYNC, part[3], WAITING, part[4]);
  }

  /** The exception in NoLostWakeUp is real: a byte written just before loop_fork
      is discarded with the old pipe, `skipped` is clear, and the loop goes to
      sleep with the send undelivered. */
  lemma ForkMaySleepOverSend() returns (cfg: Config, run: seq<State>)
    ensures cfg.capacity > 0 && Run(cfg, run)
    ensures var s := run[|run| - 1];
            && s.loop == Poll(true) && s.Quiet() && s.pipe.rearmed
            && (forall t | t in s.fork.calls :: s.fork.calls[t].Idle?)
            && s.async.marked != {} && s.pipe.bytes == 0
  {
    cfg := ONE_ASYNC;
    var a := SampleArm();
    var b := SampleSend();
    var c := SampleIterate();
    var d := SampleFork();
    JoinSteps(cfg, a, b);
    run := a + b[1..];
    JoinSteps(cfg, run, c);
    run := run + c[1..];
    JoinSteps(cfg, run, d);
    run := run + d[1..];
    assert 0 in run[|run| - 1].async.marked;
  }
}
