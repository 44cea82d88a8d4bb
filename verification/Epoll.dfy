/**
 The epoll back end as a lazily maintained copy of kernel state.

 `EpollLoop` holds the fd table of the loop (anfds), the list of changed fds
 (fdchanges), the list of fds epoll refuses (epoll_eperms), the io watchers of
 the program, and the kernel's own registrations, which only epoll_ctl, closing
 a descriptor and replacing the epoll fd can change. Descriptors may be closed
 and reopened by the program between any two calls.
 */
module Epoll {

  // Event bits of ev.h; the fd table stores them in an unsigned char.
  const EV_READ: bv8 := 0x01
  const EV_WRITE: bv8 := 0x02
  const EV_IOFDSET: bv8 := 0x80
  const ANFD_REIFY: bv8 := 0x01
  const EMASK_EPERM: bv8 := 0x80

  /** Generations are 32-bit counters. */
  type Gen = g: int | 0 <= g < 0x1_0000_0000

  function Bump(g: Gen): Gen {
    (g + 1) % 0x1_0000_0000
  }

  datatype Io = Io(fd: int, events: bv8, active: bool)

  datatype Anfd = Anfd(head: seq<int>, events: bv8, reify: bv8, emask: bv8, egen: Gen)

  const NO_FD := Anfd([], 0, 0, 0, 0)

  /** A registration: the event mask and the generation stored in the data field. */
  datatype Registration = Registration(mask: bv8, gen: Gen)

  /** `open` maps each open descriptor to whether epoll accepts it. */
  datatype Kernel = Kernel(open: map<int, bool>, reg: map<int, Registration>)

  datatype Errno = OK | ENOENT | EEXIST | EPERM | EBADF

  datatype CtlOp = Add | Mod | Del

  // ---------------------------------------------------------------- epoll_ctl

  function CtlErrno(k: Kernel, op: CtlOp, fd: int): Errno {
    if fd !in k.open then EBADF
    else if !k.open[fd] then EPERM
    else if op.Add? then (if fd in k.reg then EEXIST else OK)
    else if fd in k.reg then OK else ENOENT
  }

  function Ctl(k: Kernel, op: CtlOp, fd: int, r: Registration): Kernel {
    if CtlErrno(k, op, fd) != OK then k
    else if op.Del? then k.(reg := k.reg - {fd})
    else k.(reg := k.reg[fd := r])
  }

  // ------------------------------------------------------------- epoll_modify

  /** How a call of epoll_modify ends: nothing asked for, epoll_ctl succeeded,
      EEXIST with the mask already right, EPERM, or fd_kill. */
  datatype Ending = Ignored | Registered | Kept | Refused | Killed

  function EndingOf(k: Kernel, fd: int, oldmask: bv8, oev: bv8, nev: bv8): Ending {
    if nev == 0 then Ignored
    else
      match CtlErrno(k, if oev != 0 && oldmask != nev then Mod else Add, fd)
      case OK => Registered
      case ENOENT => if CtlErrno(k, Add, fd) == OK then Registered else Killed
      case EEXIST => if oldmask == nev then Kept else if CtlErrno(k, Mod, fd) == OK then Registered else Killed
      case EPERM => Refused
      case EBADF => Killed
  }

  /** What epoll_modify stores, and whether it ends in fd_kill. */
  datatype Modified = Modified(emask: bv8, egen: Gen, kernel: Kernel, eperms: seq<int>, kill: bool)

  function Modify(k: Kernel, eperms: seq<int>, fd: int, oldmask: bv8, egen: Gen, oev: bv8, nev: bv8): Modified {
    Outcome(EndingOf(k, fd, oldmask, oev, nev), k, eperms, fd, oldmask, egen, nev)
  }

  function Outcome(e: Ending, k: Kernel, eperms: seq<int>, fd: int, oldmask: bv8, egen: Gen, nev: bv8): Modified {
    match e
    case Ignored => Modified(oldmask, egen, k, eperms, false)
    case Registered => Modified(nev, Bump(egen), Kernel(k.open, k.reg[fd := Registration(nev, Bump(egen))]), eperms,
                                false)
    case Kept => Modified(nev, egen, k, eperms, false)
    case Refused => Modified(EMASK_EPERM, Bump(egen), k, if oldmask & EMASK_EPERM != 0 then eperms else eperms + [fd],
                             false)
    case Killed => Modified(nev, egen, k, eperms, true)
  }

  // --------------------------------------------------------------- invariants

  /** What the cached mask and generation of one fd say about the kernel: a
      registration carries the cached generation, and the cached mask unless that
      has been zeroed. */
  predicate Mirrors(k: Kernel, eperms: seq<int>, fd: int, emask: bv8, egen: Gen) {
    && (fd in k.reg ==> fd in k.open && k.open[fd])
    && (fd in k.reg ==> k.reg[fd].gen == egen && k.reg[fd].mask != 0 && PlainMask(k.reg[fd].mask))
    && (fd in k.reg ==> emask == 0 || emask == k.reg[fd].mask)
    && (emask & EMASK_EPERM != 0 ==> fd in eperms)
  }

  /** The kernel will report exactly `events` for fd, or the loop will synthesise
      them because epoll refuses the fd. */
  predicate InSync(k: Kernel, eperms: seq<int>, fd: int, events: bv8, emask: bv8) {
    || (fd in k.reg && k.reg[fd].mask == events)
    || (emask & EMASK_EPERM != 0 && fd in eperms)
  }

  predicate PlainMask(m: bv8) {
    m & 0xFC == 0
  }

  lemma KilledExactly(k: Kernel, fd: int, oldmask: bv8, oev: bv8, nev: bv8)
    ensures EndingOf(k, fd, oldmask, oev, nev).Killed? <==> nev != 0 && fd !in k.open
  {
  }

  /** Only the entry of fd differs. */
  ghost predicate SameElsewhere<V>(reg: map<int, V>, reg': map<int, V>, fd: int) {
    (forall f | f != fd :: f in reg' <==> f in reg) && (forall f | f != fd && f in reg :: reg'[f] == reg[f])
  }

  lemma UpdatedElsewhere<V>(reg: map<int, V>, fd: int, v: V)
    ensures SameElsewhere(reg, reg[fd := v], fd) && SameElsewhere(reg, reg, fd)
  {
  }

  /** However it ends, it leaves the other fds alone. */
  lemma OutcomeRegistrations(e: Ending, k: Kernel, eperms: seq<int>, fd: int, oldmask: bv8, egen: Gen, nev: bv8)
    ensures var m := Outcome(e, k, eperms, fd, oldmask, egen, nev);
            m.kernel.open == k.open && (m.kill <==> e.Killed?) && SameElsewhere(k.reg, m.kernel.reg, fd)
  {
    UpdatedElsewhere(k.reg, fd, Registration(nev, Bump(egen)));
  }

  lemma OutcomeEperms(e: Ending, k: Kernel, eperms: seq<int>, fd: int, oldmask: bv8, egen: Gen, nev: bv8)
    ensures var m := Outcome(e, k, eperms, fd, oldmask, egen, nev);
            && (forall f | f in eperms :: f in m.eperms)
            && (forall f | f in m.eperms :: f in eperms || f == fd)
  {
  }

  /** epoll_modify touches the registration of its own fd only, and kills exactly
      the fds that are not open. */
  lemma ModifyFrame(k: Kernel, eperms: seq<int>, fd: int, oldmask: bv8, egen: Gen, oev: bv8, nev: bv8)
    ensures var m := Modify(k, eperms, fd, oldmask, egen, oev, nev);
            && m.kernel.open == k.open
            && (forall f | f != fd :: f in m.kernel.reg <==> f in k.reg)
            && (forall f | f != fd && f in k.reg :: m.kernel.reg[f] == k.reg[f])
            && (forall f | f in eperms :: f in m.eperms)
            && (forall f | f in m.eperms :: f in eperms || f == fd)
            && (m.kill <==> nev != 0 && fd !in k.open)
  {
    KilledExactly(k, fd, oldmask, oev, nev);
    OutcomeRegistrations(EndingOf(k, fd, oldmask, oev, nev), k, eperms, fd, oldmask, egen, nev);
    OutcomeEperms(EndingOf(k, fd, oldmask, oev, nev), k, eperms, fd, oldmask, egen, nev);
  }

  /** epoll_modify keeps the mirror exact, and for an open fd it ends in sync with
      the kernel. */
  lemma ModifyKeepsMirror(k: Kernel, eperms: seq<int>, fd: int, oldmask: bv8, egen: Gen, oev: bv8, nev: bv8)
    requires Mirrors(k, eperms, fd, oldmask, egen) && PlainMask(nev)
    ensures var m := Modify(k, eperms, fd, oldmask, egen, oev, nev);
            && Mirrors(m.kernel, m.eperms, fd, m.emask, m.egen)
            && (nev != 0 && fd in k.open ==> InSync(m.kernel, m.eperms, fd, nev, m.emask))
            && (nev != 0 && fd in k.open && k.open[fd] ==>
                  fd in m.kernel.reg && m.kernel.reg[fd].mask == nev && m.emask == nev)
  {
    assert nev & EMASK_EPERM == 0;
    match EndingOf(k, fd, oldmask, oev, nev) {
      case Ignored =>
      case Registered =>
      case Kept =>
      case Refused =>
      case Killed =>
    }
  }

  /** What becomes of the generation of fd: it stays and nothing is registered anew, or it
      is the next one. */
  predicate Renumbered(reg: map<int, Registration>, gen: Gen, reg': map<int, Registration>, gen': Gen, fd: int) {
    || (gen' == gen && (fd in reg' ==> SameAt(reg, reg', fd)))
    || gen' == Bump(gen)
  }

  predicate SameAt(reg: map<int, Registration>, reg': map<int, Registration>, fd: int) {
    (fd in reg' <==> fd in reg) && (fd in reg ==> reg'[fd] == reg[fd])
  }

  /** A registration that epoll_modify makes carries a new generation; without one, the
      generation stays, unless epoll refuses the fd. */
  lemma ModifyGeneration(k: Kernel, eperms: seq<int>, fd: int, oldmask: bv8, egen: Gen, oev: bv8, nev: bv8)
    ensures var m := Modify(k, eperms, fd, oldmask, egen, oev, nev);
            && (m.kernel.reg != k.reg ==> m.kernel.reg == k.reg[fd := Registration(nev, Bump(egen))] && m.egen != egen)
            && (m.kernel.reg == k.reg[fd := Registration(nev, m.egen)] || (fd in k.open && !k.open[fd] && nev != 0)
                || m.egen == egen)
            && Renumbered(k.reg, egen, m.kernel.reg, m.egen, fd)
            && (nev == 0 || m.kill ==> m.egen == egen && SameAt(k.reg, m.kernel.reg, fd))
  {
    match EndingOf(k, fd, oldmask, oev, nev) {
      case Ignored =>
      case Registered =>
      case Kept =>
      case Refused =>
      case Killed =>
    }
  }

  /** Or of the masks of a list of watchers. */
  function OrMask(ws: map<int, Io>, head: seq<int>): bv8 {
    if head == [] then 0
    else (if head[0] in ws then ws[head[0]].events else 0) | OrMask(ws, head[1..])
  }

  lemma OrPlain(a: bv8, b: bv8)
    requires PlainMask(a) && PlainMask(b)
    ensures PlainMask(a | b)
  {
  }

  lemma {:induction false} OrMaskPlain(ws: map<int, Io>, head: seq<int>)
    requires forall w | w in head :: w in ws && PlainMask(ws[w].events)
    ensures PlainMask(OrMask(ws, head))
  {
    if head != [] {
      var w := head[0];
      assert w in head && w in ws;
      OrMaskPlain(ws, head[1..]);
      OrPlain(ws[w].events, OrMask(ws, head[1..]));
    }
  }

  /** wlist_del: unlink the first occurrence. */
  function Unlink(head: seq<int>, w: int): (r: seq<int>)
    ensures |r| <= |head|
    ensures forall v | v in r :: v in head
    ensures forall v | v in head && v != w :: v in r
  {
    if head == [] then []
    else if head[0] == w then head[1..]
    else [head[0]] + Unlink(head[1..], w)
  }

  predicate Distinct(s: seq<int>) {
    forall i, j :: 0 <= i < j < |s| ==> s[i] != s[j]
  }

  lemma {:induction false} UnlinkDistinct(head: seq<int>, w: int)
    requires Distinct(head)
    ensures Distinct(Unlink(head, w)) && w !in Unlink(head, w)
    ensures w in head ==> |Unlink(head, w)| == |head| - 1
  {
    if head != [] && head[0] != w {
      UnlinkDistinct(head[1..], w);
      var rest := Unlink(head[1..], w);
      assert head[0] !in rest;
      forall i, j | 0 <= i < j < |[head[0]] + rest| ensures ([head[0]] + rest)[i] != ([head[0]] + rest)[j] {
        if i > 0 { assert rest[i - 1] != rest[j - 1]; } else { assert rest[j - 1] in rest; }
      }
    }
  }

  /** Watcher lists and watchers agree. */
  predicate ListsOk(anfds: seq<Anfd>, ws: map<int, Io>) {
    && (forall fd :: 0 <= fd < |anfds| ==> ListOk(anfds[fd].head, ws, fd))
    && (forall w | w in ws && ws[w].active ::
          PlainMask(ws[w].events) && 0 <= ws[w].fd < |anfds| && w in anfds[ws[w].fd].head)
  }

  predicate ListOk(head: seq<int>, ws: map<int, Io>, fd: int) {
    Distinct(head) && forall w | w in head :: w in ws && ws[w].active && ws[w].fd == fd
  }

  /** An fd is queued exactly when its reify byte is set, and then once. */
  predicate QueueOk(anfds: seq<Anfd>, queue: seq<int>) {
    && Distinct(queue)
    && (forall fd | fd in queue :: 0 <= fd < |anfds|)
    && (forall fd :: 0 <= fd < |anfds| ==> (anfds[fd].reify != 0 <==> fd in queue))
  }

  predicate MirrorOk(anfds: seq<Anfd>, k: Kernel, eperms: seq<int>) {
    && (forall fd :: 0 <= fd < |anfds| ==> Mirrors(k, eperms, fd, anfds[fd].emask, anfds[fd].egen))
    && (forall fd | fd in k.reg :: 0 <= fd < |anfds|)
    && (forall fd | fd in eperms :: 0 <= fd < |anfds|)
  }

  lemma RegisteredIsOpen(anfds: seq<Anfd>, k: Kernel, eperms: seq<int>, fd: int)
    requires MirrorOk(anfds, k, eperms)
    ensures fd in k.reg ==> fd in k.open && k.open[fd]
  {
    if fd in k.reg { assert Mirrors(k, eperms, fd, anfds[fd].emask, anfds[fd].egen); }
  }

  /** An fd whose events field is up to date and whose descriptor has not been
      replaced behind the loop's back is in sync with the kernel. */
  predicate SyncOne(a: Anfd, fd: int, k: Kernel, eperms: seq<int>, moved: set<int>, synced: bool) {
    && PlainMask(a.events)
    && (synced && a.reify & EV_IOFDSET == 0 && a.events != 0 && fd in k.open && fd !in moved ==>
          InSync(k, eperms, fd, a.events, a.emask))
  }

  predicate SyncOk(anfds: seq<Anfd>, k: Kernel, eperms: seq<int>, moved: set<int>, synced: bool) {
    && (forall fd :: 0 <= fd < |anfds| ==> SyncOne(anfds[fd], fd, k, eperms, moved, synced))
    && (forall fd | fd in moved :: fd !in k.reg)
  }

  /** Outside the queue, the events field is the or of the watchers' masks. */
  predicate EventsOk(anfds: seq<Anfd>, ws: map<int, Io>, queue: seq<int>) {
    forall fd :: 0 <= fd < |anfds| && fd !in queue ==> anfds[fd].events == OrMask(ws, anfds[fd].head)
  }

  /** The whole relation between the loop's tables and the kernel, with `queue`
      the fds still to be reified. */
  predicate Consistent(anfds: seq<Anfd>, ws: map<int, Io>, queue: seq<int>, k: Kernel, eperms: seq<int>,
                       moved: set<int>,
                       synced: bool) {
    && ListsOk(anfds, ws)
    && QueueOk(anfds, queue)
    && MirrorOk(anfds, k, eperms)
    && SyncOk(anfds, k, eperms, moved, synced)
    && EventsOk(anfds, ws, queue)
  }

  /** fd_change: or the flags into the reify byte; queue the fd when none was set. */
  function Changed(a: Anfd, flags: bv8): Anfd {
    a.(reify := a.reify | flags)
  }

  function Queued(queue: seq<int>, fd: int, reify: bv8): seq<int> {
    if reify == 0 then queue + [fd] else queue
  }

  /** Starting or stopping watcher `w` of `fd`: relinking it and marking the fd
      changed keeps everything else consistent. */
  lemma TouchKeeps(anfds: seq<Anfd>, ws: map<int, Io>, queue: seq<int>, k: Kernel, eperms: seq<int>, moved: set<int>,
                   synced: bool, fd: int, a: Anfd, w: int, io: Io)
    requires Consistent(anfds, ws, queue, k, eperms, moved, synced)
    requires 0 <= fd < |anfds| && w in ws && (ws[w].active ==> ws[w].fd == fd)
    requires a == anfds[fd].(head := a.head, reify := a.reify) && a.reify != 0
    requires a.reify & EV_IOFDSET == 0 ==> anfds[fd].reify & EV_IOFDSET == 0
    requires ListsOk(anfds[fd := a], ws[w := io])
    ensures Consistent(anfds[fd := a], ws[w := io], Queued(queue, fd, anfds[fd].reify), k, eperms, moved, synced)
  {
    var anfds', ws', queue' := anfds[fd := a], ws[w := io], Queued(queue, fd, anfds[fd].reify);
    assert QueueOk(anfds', queue');
    forall f | 0 <= f < |anfds'| && f !in queue' ensures anfds'[f].events == OrMask(ws', anfds'[f].head) {
      assert f in queue ==> f in queue';
      assert ListOk(anfds[f].head, ws, f);
      OrMaskOthers(ws, ws', anfds[f].head);
    }
    forall f | 0 <= f < |anfds'|
      ensures SyncOne(anfds'[f], f, k, eperms, moved, synced) && Mirrors(k, eperms, f, anfds'[f].emask, anfds'[f].egen)
    {
      assert SyncOne(anfds[f], f, k, eperms, moved, synced) && Mirrors(k, eperms, f, anfds[f].emask, anfds[f].egen);
    }
  }

  /** An fd entry, with zeroes where the table does not reach. */
  function EntryAt(anfds: seq<Anfd>, fd: nat): Anfd {
    if fd < |anfds| then anfds[fd] else NO_FD
  }

  /** The fd entry after ev_io_start / ev_io_stop of watcher `w`. */
  function Started(a: Anfd, w: int, events: bv8): Anfd {
    Changed(a.(head := [w] + a.head), (events & EV_IOFDSET) | ANFD_REIFY)
  }

  function Stopped(a: Anfd, w: int): Anfd {
    Changed(a.(head := Unlink(a.head, w)), ANFD_REIFY)
  }

  lemma StartKeeps(anfds: seq<Anfd>, ws: map<int, Io>, queue: seq<int>, k: Kernel, eperms: seq<int>, moved: set<int>,
                  synced: bool, w: int)
    requires Consistent(anfds, ws, queue, k, eperms, moved, synced)
    requires w in ws && !ws[w].active && 0 <= ws[w].fd < |anfds| && ws[w].events & 0x7C == 0
    ensures var fd := ws[w].fd;
            Consistent(anfds[fd := Started(anfds[fd], w, ws[w].events)], ws[w := Io(fd, ws[w].events & 0x7F, true)],
                       Queued(queue, fd, anfds[fd].reify), k, eperms, moved, synced)
  {
    var fd := ws[w].fd;
    var a := Started(anfds[fd], w, ws[w].events);
    StartBits(ws[w].events, anfds[fd].reify);
    StartKeepsLists(anfds, ws, w, fd, ws[w].events & 0x7F, a.reify);
    TouchKeeps(anfds, ws, queue, k, eperms, moved, synced, fd, a, w, Io(fd, ws[w].events & 0x7F, true));
  }

  lemma StopKeeps(anfds: seq<Anfd>, ws: map<int, Io>, queue: seq<int>, k: Kernel, eperms: seq<int>, moved: set<int>,
                  synced: bool, w: int)
    requires Consistent(anfds, ws, queue, k, eperms, moved, synced)
    requires w in ws && ws[w].active
    ensures var fd := ws[w].fd;
            0 <= fd < |anfds| &&
            Consistent(anfds[fd := Stopped(anfds[fd], w)], ws[w := ws[w].(active := false)],
                       Queued(queue, fd, anfds[fd].reify), k, eperms, moved, synced)
  {
    var fd := ws[w].fd;
    var a := Stopped(anfds[fd], w);
    StopBits(anfds[fd].reify);
    StopKeepsLists(anfds, ws, w, a.reify);
    TouchKeeps(anfds, ws, queue, k, eperms, moved, synced, fd, a, w, ws[w].(active := false));
  }

  // ------------------------------------------------------------------- fd_reify

  /** Whether fd_reify calls the back end for this entry. */
  predicate NeedsModify(a: Anfd, mask: bv8) {
    a.events != mask || a.reify & EV_IOFDSET != 0
  }

  /** The entry after fd_reify is done with it, `m` being what epoll_modify did. */
  function Reified(a: Anfd, mask: bv8, m: Modified): Anfd {
    if NeedsModify(a, mask) then a.(events := mask, reify := 0, emask := m.emask, egen := m.egen)
    else a.(events := mask, reify := 0)
  }

  function StillMoved(moved: set<int>, a: Anfd, fd: int, mask: bv8): set<int> {
    if NeedsModify(a, mask) && mask != 0 then moved - {fd} else moved
  }

  /** Dealing with the first queued fd keeps the tables consistent, and brings
      that fd in sync unless it is closed. */
  lemma ReifyStepKeeps(anfds: seq<Anfd>, ws: map<int, Io>, queue: seq<int>, k: Kernel, eperms: seq<int>,
                       moved: set<int>,
                       fd: int, mask: bv8, m: Modified)
    requires Consistent(anfds, ws, queue, k, eperms, moved, true)
    requires |queue| > 0 && fd == queue[0] && 0 <= fd < |anfds| && mask == OrMask(ws, anfds[fd].head)
    requires m == if NeedsModify(anfds[fd], mask) then Modify(k, eperms, fd, anfds[fd].emask, anfds[fd].egen,
                                                              anfds[fd].events, mask)
                  else Modified(anfds[fd].emask, anfds[fd].egen, k, eperms, false)
    ensures Consistent(anfds[fd := Reified(anfds[fd], mask, m)], ws, queue[1..], m.kernel, m.eperms,
                       StillMoved(moved, anfds[fd], fd, mask), true)
    ensures m.kernel.open == k.open
    ensures m.kill <==> NeedsModify(anfds[fd], mask) && mask != 0 && fd !in k.open
    ensures forall f | f in eperms :: f in m.eperms
    ensures forall f | f != fd :: (f in m.kernel.reg <==> f in k.reg) && (f in k.reg ==> m.kernel.reg[f] == k.reg[f])
    ensures NeedsModify(anfds[fd], mask) && mask != 0 && fd in k.open && k.open[fd] ==>
              fd in m.kernel.reg && m.kernel.reg[fd].mask == mask && m.emask == mask
  {
    assert fd in queue;
    var a := anfds[fd];
    assert ListOk(a.head, ws, fd) && SyncOne(a, fd, k, eperms, moved, true) && Mirrors(k, eperms, fd, a.emask, a.egen);
    OrMaskPlain(ws, a.head);
    if NeedsModify(a, mask) {
      ModifyFrame(k, eperms, fd, a.emask, a.egen, a.events, mask);
      ModifyKeepsMirror(k, eperms, fd, a.emask, a.egen, a.events, mask);
    }
    ReifyStepLocal(anfds, ws, queue, k, eperms, moved, fd, Reified(a, mask, m), m.kernel, m.eperms,
                   StillMoved(moved, a, fd, mask));
  }

  /** The generation after fd_reify is done with the fd. */
  lemma ReifyGeneration(k: Kernel, eperms: seq<int>, fd: int, a: Anfd, mask: bv8, m: Modified)
    requires m == if NeedsModify(a, mask) then Modify(k, eperms, fd, a.emask, a.egen, a.events, mask)
                  else Modified(a.emask, a.egen, k, eperms, false)
    ensures Renumbered(k.reg, a.egen, m.kernel.reg, m.egen, fd)
    ensures mask == 0 || m.kill || !NeedsModify(a, mask) ==> m.egen == a.egen && SameAt(k.reg, m.kernel.reg, fd)
  {
    ModifyGeneration(k, eperms, fd, a.emask, a.egen, a.events, mask);
  }

  /** Replacing the entry of the first queued fd by one that is right for it. */
  lemma ReifyStepLocal(anfds: seq<Anfd>, ws: map<int, Io>, queue: seq<int>, k: Kernel, eperms: seq<int>,
                       moved: set<int>,
                       fd: int, a: Anfd, k': Kernel, eperms': seq<int>, moved': set<int>)
    requires Consistent(anfds, ws, queue, k, eperms, moved, true)
    requires |queue| > 0 && fd == queue[0] && 0 <= fd < |anfds|
    requires a.head == anfds[fd].head && a.events == OrMask(ws, a.head) && a.reify == 0
    requires k'.open == k.open && (forall f | f in eperms :: f in eperms')
    requires (forall f | f in eperms' :: f in eperms || f == fd)
    requires forall f | f != fd :: (f in k'.reg <==> f in k.reg) && (f in k.reg ==> k'.reg[f] == k.reg[f])
    requires moved - {fd} <= moved' <= moved && (fd in moved' ==> fd !in k'.reg)
    requires Mirrors(k', eperms', fd, a.emask, a.egen) && SyncOne(a, fd, k', eperms', moved', true)
    ensures Consistent(anfds[fd := a], ws, queue[1..], k', eperms', moved', true)
  {
    var anfds', queue' := anfds[fd := a], queue[1..];
    assert forall f :: f in queue <==> f == fd || f in queue';
    forall f | 0 <= f < |anfds'| && f != fd
      ensures SyncOne(anfds'[f], f, k', eperms', moved', true)
      ensures Mirrors(k', eperms', f, anfds'[f].emask, anfds'[f].egen)
    {
      assert SyncOne(anfds[f], f, k, eperms, moved, true) && Mirrors(k, eperms, f, anfds[f].emask, anfds[f].egen);
    }
    assert fd !in queue';
  }

  function ActiveSet(ws: map<int, Io>): set<int> {
    set w | w in ws && ws[w].active
  }

  class EpollLoop {
    var anfds: seq<Anfd>
    var fdchanges: seq<int>
    var eperms: seq<int>              // epoll_eperms
    var watchers: map<int, Io>
    var fed: map<int, bv32>           // pending events of watchers, as given to ev_feed_event
    var kernel: Kernel
    var postfork: bool                // postfork & 2: kernel state must be recreated

    /** Descriptors opened since the loop last told the kernel about the number. */
    ghost var moved: set<int>

    ghost predicate Valid()
      reads this
    {
      ValidFrom(0)
    }

    /** As Valid, while fd_reify has dealt with the first `n` changes. */
    ghost predicate ValidFrom(n: nat)
      reads this
    {
      n <= |fdchanges| && Consistent(anfds, watchers, fdchanges[n..], kernel, eperms, moved, !postfork)
    }

    ghost function Now(): Snapshot
      reads this
    {
      Snapshot(anfds, fdchanges, eperms, watchers, fed, kernel, moved)
    }

    constructor ()
      ensures Valid()
      ensures anfds == [] && fdchanges == [] && eperms == [] && watchers == map[] && fed == map[]
      ensures kernel == Kernel(map[], map[]) && !postfork && moved == {}
    {
      anfds, fdchanges, eperms, watchers, fed := [], [], [], map[], map[];
      kernel, postfork, moved := Kernel(map[], map[]), false, {};
    }

    // ------------------------------------------------- the program's descriptors

    /** close(2): the kernel drops the registration. */
    method CloseFd(fd: int)
      requires Valid()
      modifies this`kernel
      ensures Valid()
      ensures kernel == Kernel(old(kernel).open - {fd}, old(kernel).reg - {fd})
    {
      kernel := Kernel(kernel.open - {fd}, kernel.reg - {fd});
    }

    /** A new descriptor with a number that is free. */
    method OpenFd(fd: int, pollable: bool)
      requires Valid() && fd !in kernel.open
      modifies this`kernel, this`moved
      ensures Valid()
      ensures kernel == old(kernel).(open := old(kernel).open[fd := pollable])
      ensures moved == old(moved) + {fd}
    {
      RegisteredIsOpen(anfds, kernel, eperms, fd);
      kernel := kernel.(open := kernel.open[fd := pollable]);
      moved := moved + {fd};
    }

    // --------------------------------------------------------------- fd changes

    /** ev_feed_event, seen from the io watchers: or the events in. */
    method FeedEvent(w: int, events: bv32)
      modifies this`fed
      ensures fed == old(fed)[w := (if w in old(fed) then old(fed[w]) else 0) | events]
    {
      fed := fed[w := (if w in fed then fed[w] else 0) | events];
    }

    // ----------------------------------------------------------- start and stop

    /** ev_io_set on a watcher that is not active. */
    method IoSet(w: int, fd: int, events: bv8)
      requires Valid() && (w in watchers ==> !watchers[w].active)
      modifies this`watchers
      ensures Valid()
      ensures watchers == old(watchers)[w := Io(fd, events | EV_IOFDSET, false)]
    {
      var ws := watchers[w := Io(fd, events | EV_IOFDSET, false)];
      forall f | 0 <= f < |anfds| ensures OrMask(ws, anfds[f].head) == OrMask(watchers, anfds[f].head) {
        assert ListOk(anfds[f].head, watchers, f);
        OrMaskOthers(watchers, ws, anfds[f].head);
      }
      watchers := ws;
    }

    /** ev_io_start. The asserts of the code are the preconditions; starting an
        active watcher does nothing. */
    method IoStart(w: int)
      requires Valid() && w in watchers
      requires !watchers[w].active ==> watchers[w].fd >= 0 && watchers[w].events & 0x7C == 0
      modifies this`anfds, this`fdchanges, this`watchers
      ensures Valid()
      ensures old(watchers[w].active) ==>
                anfds == old(anfds) && fdchanges == old(fdchanges) && watchers == old(watchers)
      ensures !old(watchers[w].active) ==>
                var io := old(watchers[w]);
                && watchers == old(watchers)[w := Io(io.fd, io.events & 0x7F, true)]
                && |anfds| == (if io.fd < |old(anfds)| then |old(anfds)| else io.fd + 1)
                && anfds[io.fd].head == [w] + (if io.fd < |old(anfds)| then old(anfds)[io.fd].head else [])
                && anfds[io.fd].reify & ANFD_REIFY != 0
                && (io.events & EV_IOFDSET != 0 ==> anfds[io.fd].reify & EV_IOFDSET != 0)
                && anfds[io.fd] == Started(EntryAt(old(anfds), io.fd), w, io.events)
                && fdchanges == Queued(old(fdchanges), io.fd, EntryAt(old(anfds), io.fd).reify)
                && forall f :: 0 <= f < |anfds| && f != io.fd ==> anfds[f] == EntryAt(old(anfds), f)
    {
      var io := watchers[w];
      if io.active {
        return;
      }
      NeedSize(io.fd + 1);
      var fd := io.fd;
      assert fdchanges[0..] == fdchanges;
      StartKeeps(anfds, watchers, fdchanges, kernel, eperms, moved, !postfork, w);
      StartBits(io.events, anfds[fd].reify);
      fdchanges := Queued(fdchanges, fd, anfds[fd].reify);
      anfds := anfds[fd := Started(anfds[fd], w, io.events)];
      watchers := watchers[w := Io(fd, io.events & 0x7F, true)];
      assert fdchanges[0..] == fdchanges;
    }

    /** array_needsize on anfds: new entries are zeroed. */
    method NeedSize(n: nat)
      requires Valid()
      modifies this`anfds
      ensures Valid()
      ensures |anfds| == (if n <= |old(anfds)| then |old(anfds)| else n)
      ensures anfds[..|old(anfds)|] == old(anfds)
      ensures forall i :: |old(anfds)| <= i < |anfds| ==> anfds[i] == NO_FD
    {
      if n > |anfds| {
        anfds := anfds + seq(n - |anfds|, _ => NO_FD);
        assert forall fd | fd in fdchanges :: 0 <= fd < |old(anfds)|;
        assert forall fd | fd in eperms :: 0 <= fd < |old(anfds)|;
        assert forall fd | fd in kernel.reg :: 0 <= fd < |old(anfds)|;
      }
    }

    /** ev_io_stop, possibly called while fd_reify is at change `n`. */
    method IoStop(w: int, ghost n: nat)
      requires ValidFrom(n) && w in watchers
      modifies this`anfds, this`fdchanges, this`watchers, this`fed
      ensures ValidFrom(n)
      ensures fed == old(fed) - {w}
      ensures !old(watchers[w].active) ==>
                anfds == old(anfds) && fdchanges == old(fdchanges) && watchers == old(watchers)
      ensures old(watchers[w].active) ==>
                var fd := old(watchers[w].fd);
                && watchers == old(watchers)[w := old(watchers[w]).(active := false)]
                && 0 <= fd < |old(anfds)| && anfds == old(anfds)[fd := Stopped(old(anfds)[fd], w)]
                && fdchanges == Queued(old(fdchanges), fd, old(anfds)[fd].reify)
    {
      fed := fed - {w};
      var io := watchers[w];
      if !io.active {
        return;
      }
      var fd := io.fd;
      StopKeeps(anfds, watchers, fdchanges[n..], kernel, eperms, moved, !postfork, w);
      assert Queued(fdchanges, fd, anfds[fd].reify)[n..] == Queued(fdchanges[n..], fd, anfds[fd].reify);
      fdchanges := Queued(fdchanges, fd, anfds[fd].reify);
      anfds := anfds[fd := Stopped(anfds[fd], w)];
      watchers := watchers[w := io.(active := false)];
    }

    // ------------------------------------------------------------ fd_kill, fd_reify

    /** fd_kill: stop every watcher of the fd and feed it an error. */
    method FdKill(fd: int, ghost n: nat)
      requires ValidFrom(n) && 0 <= fd < |anfds|
      modifies this`anfds, this`fdchanges, this`watchers, this`fed
      ensures ValidFrom(n)
      ensures KillRel(old(Now()), Now(), fd)
    {
      ghost var s0 := Now();
      while anfds[fd].head != []
        invariant ValidFrom(n)
        invariant KillProgress(s0, Now(), fd)
        decreases |anfds[fd].head|
      {
        ghost var s := Now();
        var w := anfds[fd].head[0];
        assert ListOk(anfds[fd].head, watchers, fd) && w in anfds[fd].head;
        UnlinkDistinct(anfds[fd].head, w);
        IoStop(w, n);
        FeedEvent(w, KILL_EVENTS);
        KillProgressStep(s0, s, Now(), fd, w);
      }
    }

    /** The or of the masks of the watchers of an fd, as the inner loop of fd_reify
        collects it. */
    method CollectMask(fd: int) returns (mask: bv8)
      requires 0 <= fd < |anfds| && ListOk(anfds[fd].head, watchers, fd)
      ensures mask == OrMask(watchers, anfds[fd].head)
    {
      var head := anfds[fd].head;
      mask := 0;
      for j := 0 to |head|
        invariant mask | OrMask(watchers, head[j..]) == OrMask(watchers, head)
      {
        var w := head[j];
        assert w in head && head[j..][1..] == head[j + 1..] && head[j..][0] == w;
        OrAssoc(mask, watchers[w].events, OrMask(watchers, head[j + 1..]));
        mask := mask | watchers[w].events;
      }
      assert head[|head|..] == [];
    }

    /** The body of the fd_reify loop, for the fd at position `n` of the queue. */
    method ReifyOne(fd: int, ghost n: nat)
      requires ValidFrom(n) && n < |fdchanges| && fd == fdchanges[n] && !postfork
      modifies this`anfds, this`fdchanges, this`eperms, this`watchers, this`fed, this`kernel, this`moved
      ensures ValidFrom(n + 1)
      ensures ReifyRel(old(Now()), Now(), fd)
    {
      ghost var queue, s := fdchanges[n..], Now();
      assert queue[0] == fd && fd in queue;
      assert ListOk(anfds[fd].head, watchers, fd);
      var a := anfds[fd];
      var mask := CollectMask(fd);
      var m := if NeedsModify(a, mask) then Modify(kernel, eperms, fd, a.emask, a.egen, a.events, mask)
               else Modified(a.emask, a.egen, kernel, eperms, false);
      ReifyStepKeeps(anfds, watchers, queue, kernel, eperms, moved, fd, mask, m);
      ReifyGeneration(kernel, eperms, fd, a, mask, m);
      anfds := anfds[fd := Reified(a, mask, m)];
      kernel, eperms := m.kernel, m.eperms;
      moved := StillMoved(moved, a, fd, mask);
      assert fdchanges[n + 1..] == queue[1..];
      ghost var s1 := Now();
      if m.kill {
        FdKill(fd, n + 1);
        KillIsReify(s, s1, Now(), fd, mask);
      } else {
        PlainIsReify(s, s1, fd, mask, m);
      }
    }

    /** fd_reify brings the kernel up to date with the watchers. The call site has
        already recreated the kernel state if that was asked for. */
    method FdReify()
      requires Valid() && !postfork
      modifies this`anfds, this`fdchanges, this`eperms, this`watchers, this`fed, this`kernel, this`moved
      ensures Valid()
      ensures fdchanges == [] && ReifyOutcome(old(Now()), Now())
      // whatever is registered anew has the next generation
      ensures forall fd :: 0 <= fd < |anfds| ==> RenumberedAt(old(anfds), old(kernel), anfds, kernel, fd)
    {
      ghost var start := Now();
      ghost var n := ReifyQueue();
      assert fdchanges[n..] == [];
      ReifyingDone(start, Now(), n);
      fdchanges := [];
    }

    /** The loop of fd_reify; the queue may grow under it. */
    method ReifyQueue() returns (ghost n: nat)
      requires Valid() && !postfork
      modifies this`anfds, this`fdchanges, this`eperms, this`watchers, this`fed, this`kernel, this`moved
      ensures n == |fdchanges| && ValidFrom(n) && Reifying(old(Now()), Now(), n)
    {
      assert fdchanges[0..] == fdchanges;
      ghost var start := Now();
      ProgressStart(start);
      var i := 0;
      while i < |fdchanges|
        invariant ValidFrom(i) && !postfork && Reifying(start, Now(), i)
        decreases |ActiveSet(watchers)|, |fdchanges| - i
      {
        ghost var s := Now();
        ReifyOne(fdchanges[i], i);
        ReifyingStep(start, s, Now(), i);
        i := i + 1;
      }
      n := i;
    }

    // ------------------------------------------------------------------ epoll_poll

    /** One event of the epoll_poll loop. A wrong generation, or a failing
        epoll_ctl, asks for the kernel state to be recreated. */
    method PollEvent(fd: int, gen: Gen, got: bv8)
      requires Valid() && 0 <= fd < |anfds| && PlainMask(got)
      modifies this`anfds, this`kernel, this`postfork, this`fed
      ensures Valid()
      ensures |anfds| == |old(anfds)| && (old(postfork) ==> postfork)
      ensures forall f :: 0 <= f < |anfds| ==> anfds[f] == old(anfds)[f].(emask := anfds[f].emask)
      ensures gen != old(anfds)[fd].egen ==> postfork && anfds == old(anfds) && kernel == old(kernel) && fed == old(fed)
      ensures gen == old(anfds)[fd].egen && got & !old(anfds)[fd].events == 0 ==>
                anfds == old(anfds) && kernel == old(kernel) && postfork == old(postfork)
      // a registration that reports too much is cut back or removed
      ensures gen == old(anfds)[fd].egen && got & !old(anfds)[fd].events != 0 && fd in old(kernel).reg ==>
                && postfork == old(postfork) && anfds[fd].emask == anfds[fd].events
                && (if anfds[fd].events == 0 then fd !in kernel.reg
                    else fd in kernel.reg && kernel.reg[fd] == Registration(anfds[fd].events, gen))
      // if that fails, the kernel state is to be recreated, and nothing is delivered
      ensures gen == old(anfds)[fd].egen && got & !old(anfds)[fd].events != 0 && fd !in old(kernel).reg ==>
                postfork && anfds[fd].emask == anfds[fd].events && kernel == old(kernel) && fed == old(fed)
      ensures forall f :: 0 <= f < |anfds| && f != fd ==> anfds[f] == old(anfds)[f]
      // every interested watcher, and no other, gets the events it asked for
      ensures gen == old(anfds)[fd].egen && anfds[fd].reify == 0
              && (fd in old(kernel).reg || got & !old(anfds)[fd].events == 0) ==>
                DeliveredAll(watchers, anfds[fd].head, got, old(fed), fed)
    {
      var a := anfds[fd];
      var want := a.events;
      assert fdchanges[0..] == fdchanges;
      if a.egen != gen {
        postfork := true;
        ForgetSync(anfds, watchers, fdchanges, kernel, eperms, moved);
        return;
      }
      if got & !want != 0 {
        var op := if want != 0 then Mod else Del;
        SpuriousKeeps(anfds, watchers, fdchanges, kernel, eperms, moved, !postfork, fd);
        anfds := anfds[fd := a.(emask := want)];
        if CtlErrno(kernel, op, fd) != OK {
          postfork := true;
          return;
        }
        kernel := Ctl(kernel, op, fd, Registration(want, gen));
      }
      assert fed == old(fed);
      FdEvent(fd, got);
    }

    /** fd_event: feed the watchers of an fd, unless it changed in the meantime. */
    method FdEvent(fd: int, got: bv8)
      requires Valid() && 0 <= fd < |anfds|
      modifies this`fed
      ensures anfds[fd].reify != 0 ==> fed == old(fed)
      ensures anfds[fd].reify == 0 ==> DeliveredAll(watchers, anfds[fd].head, got, old(fed), fed)
    {
      if anfds[fd].reify == 0 {
        var head := anfds[fd].head;
        assert ListOk(head, watchers, fd);
        for j := 0 to |head|
          invariant DeliveredAll(watchers, head[..j], got, old(fed), fed)
        {
          var w := head[j];
          ghost var before := fed;
          assert w in head;
          var ev := Offer(watchers, w, got);
          if ev != 0 {
            FeedEvent(w, ev);
          }
          DeliveredStep(watchers, head, j, got, old(fed), before, fed);
        }
        assert head[..|head|] == head;
      }
    }

    /** The end of epoll_poll: synthesise events for the fds epoll refuses, and drop
        the entries that no longer need it. */
    method PollEperms()
      requires Valid()
      modifies this`anfds, this`eperms, this`fed
      ensures Valid()
      ensures |anfds| == |old(anfds)|
      ensures forall fd :: 0 <= fd < |anfds| ==> anfds[fd] == AfterEperms(old(anfds)[fd], fd in old(eperms))
      ensures forall fd :: fd in eperms <==> fd in old(eperms) && SynthesisedAt(old(anfds), fd)
      ensures EpermsDelivered(old(anfds), watchers, old(eperms), old(fed), fed)
    {
      assert fdchanges[0..] == fdchanges;
      ghost var table, list := anfds, eperms;
      forall j | 0 <= j < |list| ensures 0 <= list[j] < |table| {
        assert list[j] in list;
      }
      var i := |eperms|;
      while i > 0
        invariant 0 <= i <= |eperms| && Valid() && EpermProgress(table, list, anfds, eperms, i)
        invariant EpermsDelivered(table, watchers, list[i..], old(fed), fed)
      {
        i := i - 1;
        PollEpermAt(i, table, list, old(fed));
      }
      assert list[0..] == list && eperms[0..] == eperms;
    }

    /** The fd at position `i` of epoll_eperms, those after it being done. */
    method PollEpermAt(i: nat, ghost table: seq<Anfd>, ghost list: seq<int>, ghost fed0: map<int, bv32>)
      requires Valid() && i < |eperms| && EpermProgress(table, list, anfds, eperms, i + 1) && ListsOk(table, watchers)
      requires EpermsDelivered(table, watchers, list[i + 1..], fed0, fed)
      modifies this`anfds, this`eperms, this`fed
      ensures Valid() && i <= |eperms| && EpermProgress(table, list, anfds, eperms, i)
      ensures EpermsDelivered(table, watchers, list[i..], fed0, fed)
    {
      var fd := eperms[i];
      assert fdchanges[0..] == fdchanges;
      EpermProgressStep(table, list, anfds, eperms, i);
      if Synthesised(anfds[fd]) {
        FdEvent(fd, anfds[fd].events & 0x03);
      } else {
        DropLast(eperms, i, Shrunk(eperms, i));
        DropEpermKeeps(anfds, watchers, fdchanges, kernel, eperms, Shrunk(eperms, i), moved, !postfork, fd);
        eperms := Shrunk(eperms, i);
        anfds := anfds[fd := anfds[fd].(emask := 0)];
      }
      EpermsDeliveredStep(table, watchers, list[i + 1..], fd, fed0, old(fed), fed);
    }

    // ------------------------------------------------------------------ epoll_fork

    /** epoll_fork: a new epoll fd knows nothing, so fd_rearm_all queues every fd
        that had events, and makes the next fd_reify register it anew. */
    method EpollFork()
      requires Valid()
      modifies this`anfds, this`fdchanges, this`kernel, this`postfork
      ensures Valid() && !postfork
      ensures kernel == Kernel(old(kernel).open, map[]) && |anfds| == |old(anfds)|
      ensures forall fd :: 0 <= fd < |anfds| ==> anfds[fd] == Rearmed(old(anfds)[fd])
    {
      assert fdchanges[0..] == fdchanges;
      ghost var table := anfds;
      kernel := Kernel(kernel.open, map[]);
      ForgetKernel(anfds, watchers, fdchanges, old(kernel), eperms, moved, !postfork);
      for fd := 0 to |anfds|
        invariant |anfds| == |table| && kernel == Kernel(old(kernel).open, map[])
        invariant Consistent(anfds, watchers, fdchanges, kernel, eperms, moved, false)
        invariant forall f :: 0 <= f < fd ==> anfds[f] == Rearmed(table[f])
        invariant forall f :: fd <= f < |anfds| ==> anfds[f] == table[f]
      {
        if anfds[fd].events != 0 {
          RearmKeeps(anfds, watchers, fdchanges, kernel, eperms, moved, fd);
          fdchanges := Queued(fdchanges, fd, anfds[fd].reify);
          anfds := anfds[fd := Rearmed(anfds[fd])];
        }
      }
      postfork := false;
      NothingToSync(anfds, watchers, fdchanges, kernel, eperms, moved);
      assert fdchanges[0..] == fdchanges;
    }
  }

  predicate Synthesised(a: Anfd) {
    a.emask & EMASK_EPERM != 0 && a.events & 0x03 != 0
  }

  predicate SynthesisedAt(table: seq<Anfd>, fd: int) {
    0 <= fd < |table| && Synthesised(table[fd])
  }

  function AfterEperms(a: Anfd, listed: bool): Anfd {
    if listed && !Synthesised(a) then a.(emask := 0) else a
  }

  /** Where the pass over epoll_eperms is: positions `i` and up are done. */
  ghost predicate EpermProgress(table: seq<Anfd>, list: seq<int>, anfds: seq<Anfd>, eperms: seq<int>, i: nat) {
    && |anfds| == |table| && i <= |list| && i <= |eperms| && eperms[..i] == list[..i]
    && (forall j :: 0 <= j < |list| ==> 0 <= list[j] < |table|)
    && (forall fd :: 0 <= fd < |anfds| ==> anfds[fd] == AfterEperms(table[fd], fd in list[i..]))
    && (forall fd :: fd in eperms[i..] <==> fd in list[i..] && SynthesisedAt(table, fd))
  }

  /** What the pass synthesises for watcher `w`, `list` being the refused fds it looks at. */
  function EpermOffer(table: seq<Anfd>, ws: map<int, Io>, list: seq<int>, w: int): bv32 {
    if w in ws && ws[w].fd in list && SynthesisedAt(table, ws[w].fd) && table[ws[w].fd].reify == 0
       && w in table[ws[w].fd].head
    then Offer(ws, w, table[ws[w].fd].events & 0x03) else 0
  }

  ghost predicate EpermsDelivered(table: seq<Anfd>, ws: map<int, Io>, list: seq<int>, fed: map<int, bv32>,
                                  fed': map<int, bv32>) {
    forall w :: Offered(EpermOffer(table, ws, list, w), w, fed, fed')
  }

  /** One more fd: its watchers are offered its events, if a change is not waiting. */
  lemma EpermsDeliveredStep(table: seq<Anfd>, ws: map<int, Io>, list: seq<int>, fd: int, fed0: map<int, bv32>,
                            fed: map<int, bv32>, fed': map<int, bv32>)
    requires ListsOk(table, ws) && 0 <= fd < |table| && EpermsDelivered(table, ws, list, fed0, fed)
    requires if Synthesised(table[fd]) && table[fd].reify == 0
             then DeliveredAll(ws, table[fd].head, table[fd].events & 0x03, fed, fed') else fed' == fed
    ensures EpermsDelivered(table, ws, [fd] + list, fed0, fed')
  {
    assert ListOk(table[fd].head, ws, fd);
    forall w ensures Offered(EpermOffer(table, ws, [fd] + list, w), w, fed0, fed') {
      assert Offered(EpermOffer(table, ws, list, w), w, fed0, fed);
      if Synthesised(table[fd]) && table[fd].reify == 0 {
        assert Delivered(ws, table[fd].head, table[fd].events & 0x03, w, fed, fed');
        if w in table[fd].head {
          var o := Offer(ws, w, table[fd].events & 0x03);
          OfferTwice(if w in fed0 then fed0[w] else 0, o);
        }
      }
    }
  }

  lemma OfferTwice(x: bv32, o: bv32)
    ensures (x | o) | o == x | o
  {
  }

  lemma EpermProgressStep(table: seq<Anfd>, list: seq<int>, anfds: seq<Anfd>, eperms: seq<int>, i: nat)
    requires EpermProgress(table, list, anfds, eperms, i + 1)
    ensures 0 <= eperms[i] < |anfds| && list[i..] == [eperms[i]] + list[i + 1..]
    ensures var fd := eperms[i];
            && (Synthesised(table[fd]) <==> Synthesised(anfds[fd])) && anfds[fd].head == table[fd].head
            && anfds[fd].reify == table[fd].reify && anfds[fd].events == table[fd].events
    ensures var fd := eperms[i];
            if Synthesised(anfds[fd]) then EpermProgress(table, list, anfds, eperms, i)
            else EpermProgress(table, list, anfds[fd := anfds[fd].(emask := 0)], Shrunk(eperms, i), i)
  {
    var fd := eperms[i];
    assert fd == eperms[..i + 1][i] == list[i];
    assert list[i..] == [fd] + list[i + 1..] && eperms[i..] == [fd] + eperms[i + 1..];
    assert eperms[..i] == eperms[..i + 1][..i] && list[..i] == list[..i + 1][..i];
    assert Synthesised(anfds[fd]) <==> Synthesised(table[fd]) by { ZeroIsNotEperm(); }
    if !Synthesised(anfds[fd]) {
      DropLast(eperms, i, Shrunk(eperms, i));
    }
  }

  lemma ZeroIsNotEperm()
    ensures (0 as bv8) & EMASK_EPERM == 0
  {
  }

  function Shrunk(s: seq<int>, i: nat): seq<int>
    requires i < |s|
  {
    s[i := s[|s| - 1]][..|s| - 1]
  }

  /** Overwriting position `i` by the last element and shrinking. */
  lemma DropLast(s: seq<int>, i: nat, s': seq<int>)
    requires i < |s| && s' == Shrunk(s, i)
    ensures s'[..i] == s[..i]
    ensures forall x :: x in s'[i..] <==> x in s[i + 1..]
    ensures forall x | x in s' :: x in s
    ensures forall x | x in s && x != s[i] :: x in s'
  {
    var last := s[|s| - 1];
    forall x ensures x in s'[i..] <==> x in s[i + 1..] {
      if x in s'[i..] {
        var j :| 0 <= j < |s'[i..]| && s'[i..][j] == x;
        assert x == if j == 0 then last else s[i + j];
        assert if j == 0 then s[i + 1..][|s| - i - 2] == x else s[i + 1..][j - 1] == x;
      }
      if x in s[i + 1..] {
        var j :| 0 <= j < |s[i + 1..]| && s[i + 1..][j] == x;
        if j == |s[i + 1..]| - 1 { assert s'[i..][0] == x; } else { assert s'[i..][j + 1] == x; }
      }
    }
    forall x | x in s && x != s[i] ensures x in s' {
      var j :| 0 <= j < |s| && s[j] == x;
      if j == |s| - 1 { assert s'[i] == x; } else { assert s'[j] == x; }
    }
  }

  lemma DropEpermKeeps(anfds: seq<Anfd>, ws: map<int, Io>, queue: seq<int>, k: Kernel, eperms: seq<int>,
                       eperms': seq<int>,
                       moved: set<int>, synced: bool, fd: int)
    requires Consistent(anfds, ws, queue, k, eperms, moved, synced) && 0 <= fd < |anfds| && !Synthesised(anfds[fd])
    requires (forall f | f in eperms && f != fd :: f in eperms') && (forall f | f in eperms' :: f in eperms)
    ensures Consistent(anfds[fd := anfds[fd].(emask := 0)], ws, queue, k, eperms', moved, synced)
  {
    var anfds' := anfds[fd := anfds[fd].(emask := 0)];
    assert SyncOne(anfds[fd], fd, k, eperms, moved, synced);
    PlainIsReadWrite(anfds[fd].events);
    forall f | 0 <= f < |anfds'|
      ensures SyncOne(anfds'[f], f, k, eperms', moved, synced)
      ensures Mirrors(k, eperms', f, anfds'[f].emask, anfds'[f].egen)
    {
      assert SyncOne(anfds[f], f, k, eperms, moved, synced) && Mirrors(k, eperms, f, anfds[f].emask, anfds[f].egen);
    }
    assert forall f :: 0 <= f < |anfds| ==> anfds'[f].head == anfds[f].head && anfds'[f].reify == anfds[f].reify;
    assert forall f :: 0 <= f < |anfds| ==> anfds'[f].events == anfds[f].events;
    assert ListsOk(anfds', ws) && QueueOk(anfds', queue) && EventsOk(anfds', ws, queue);
  }

  lemma PlainIsReadWrite(m: bv8)
    requires PlainMask(m)
    ensures m & 0x03 == m
  {
  }

  /** The entry after fd_rearm_all. */
  function Rearmed(a: Anfd): Anfd {
    if a.events == 0 then a else a.(events := 0, emask := 0, reify := a.reify | (EV_IOFDSET | ANFD_REIFY))
  }

  lemma ForgetKernel(anfds: seq<Anfd>, ws: map<int, Io>, queue: seq<int>, k: Kernel, eperms: seq<int>, moved: set<int>,
                     synced: bool)
    requires Consistent(anfds, ws, queue, k, eperms, moved, synced)
    ensures Consistent(anfds, ws, queue, Kernel(k.open, map[]), eperms, moved, false)
  {
    var k' := Kernel(k.open, map[]);
    forall f | 0 <= f < |anfds|
      ensures SyncOne(anfds[f], f, k', eperms, moved, false) && Mirrors(k', eperms, f, anfds[f].emask, anfds[f].egen)
    {
      assert SyncOne(anfds[f], f, k, eperms, moved, synced) && Mirrors(k, eperms, f, anfds[f].emask, anfds[f].egen);
    }
  }

  lemma RearmKeeps(anfds: seq<Anfd>, ws: map<int, Io>, queue: seq<int>, k: Kernel, eperms: seq<int>, moved: set<int>,
                   fd: int)
    requires Consistent(anfds, ws, queue, k, eperms, moved, false) && k.reg == map[]
    requires 0 <= fd < |anfds| && anfds[fd].events != 0
    ensures Consistent(anfds[fd := Rearmed(anfds[fd])], ws, Queued(queue, fd, anfds[fd].reify), k, eperms, moved, false)
  {
    var anfds', queue' := anfds[fd := Rearmed(anfds[fd])], Queued(queue, fd, anfds[fd].reify);
    RearmBits(anfds[fd].reify);
    assert forall f :: f in queue' <==> f in queue || f == fd by {
      assert anfds[fd].reify != 0 <==> fd in queue;
    }
    forall f | 0 <= f < |anfds'|
      ensures SyncOne(anfds'[f], f, k, eperms, moved, false) && Mirrors(k, eperms, f, anfds'[f].emask, anfds'[f].egen)
    {
      assert SyncOne(anfds[f], f, k, eperms, moved, false) && Mirrors(k, eperms, f, anfds[f].emask, anfds[f].egen);
    }
    assert forall f :: 0 <= f < |anfds| ==> anfds'[f].head == anfds[f].head;
    assert ListsOk(anfds', ws) && QueueOk(anfds', queue') && EventsOk(anfds', ws, queue');
  }

  lemma RearmBits(reify: bv8)
    ensures reify | (EV_IOFDSET | ANFD_REIFY) != 0
    ensures (0 as bv8) & EMASK_EPERM == 0 && PlainMask(0)
  {
  }

  lemma NothingToSync(anfds: seq<Anfd>, ws: map<int, Io>, queue: seq<int>, k: Kernel, eperms: seq<int>, moved: set<int>)
    requires Consistent(anfds, ws, queue, k, eperms, moved, false)
    requires forall fd :: 0 <= fd < |anfds| ==> anfds[fd].events == 0
    ensures Consistent(anfds, ws, queue, k, eperms, moved, true)
  {
    forall f | 0 <= f < |anfds| ensures SyncOne(anfds[f], f, k, eperms, moved, true) {
      assert SyncOne(anfds[f], f, k, eperms, moved, false);
    }
  }

  /** The part of `got` that watcher `w` asked for. */
  function Offer(ws: map<int, Io>, w: int, got: bv8): bv32 {
    if w in ws then (ws[w].events & got) as bv32 else 0
  }

  /** What watcher `w` finds pending after the watchers in `head` were offered `got`. */
  predicate Delivered(ws: map<int, Io>, head: seq<int>, got: bv8, w: int, fed: map<int, bv32>, fed': map<int, bv32>) {
    Offered(if w in head then Offer(ws, w, got) else 0, w, fed, fed')
  }

  /** The events are or-ed in; with none, the watcher is not touched. */
  predicate Offered(events: bv32, w: int, fed: map<int, bv32>, fed': map<int, bv32>) {
    if events != 0
    then w in fed' && fed'[w] == (if w in fed then fed[w] else 0) | events
    else (w in fed' <==> w in fed) && (w in fed' ==> fed'[w] == fed[w])
  }

  ghost predicate DeliveredAll(ws: map<int, Io>, head: seq<int>, got: bv8, fed: map<int, bv32>, fed': map<int, bv32>) {
    forall w :: Delivered(ws, head, got, w, fed, fed')
  }

  lemma DeliveredStep(ws: map<int, Io>, head: seq<int>, j: nat, got: bv8, fed0: map<int, bv32>, fed: map<int, bv32>,
                      fed': map<int, bv32>)
    requires Distinct(head) && j < |head| && head[j] in ws
    requires DeliveredAll(ws, head[..j], got, fed0, fed)
    requires var w, ev := head[j], Offer(ws, head[j], got);
             fed' == if ev != 0 then fed[w := (if w in fed then fed[w] else 0) | ev] else fed
    ensures DeliveredAll(ws, head[..j + 1], got, fed0, fed')
  {
    var w, before, after := head[j], head[..j], head[..j + 1];
    DistinctAway(head, j);
    assert w !in before && after == before + [w];
    forall v ensures Delivered(ws, after, got, v, fed0, fed') {
      assert Delivered(ws, before, got, v, fed0, fed);
      if v == w {
        assert v in after && v !in before;
      } else {
        assert v in after <==> v in before;
        assert (v in fed' <==> v in fed) && (v in fed' ==> fed'[v] == fed[v]);
      }
    }
  }

  lemma ForgetSync(anfds: seq<Anfd>, ws: map<int, Io>, queue: seq<int>, k: Kernel, eperms: seq<int>, moved: set<int>)
    requires exists synced :: Consistent(anfds, ws, queue, k, eperms, moved, synced)
    ensures Consistent(anfds, ws, queue, k, eperms, moved, false)
  {
    var synced :| Consistent(anfds, ws, queue, k, eperms, moved, synced);
    forall fd | 0 <= fd < |anfds| ensures SyncOne(anfds[fd], fd, k, eperms, moved, false) {
      assert SyncOne(anfds[fd], fd, k, eperms, moved, synced);
    }
  }

  /** Cutting a registration back to what the fd table asks for. */
  lemma SpuriousKeeps(anfds: seq<Anfd>, ws: map<int, Io>, queue: seq<int>, k: Kernel, eperms: seq<int>, moved: set<int>,
                      synced: bool, fd: int)
    requires Consistent(anfds, ws, queue, k, eperms, moved, synced) && 0 <= fd < |anfds|
    ensures var a := anfds[fd]; var op := if a.events != 0 then Mod else Del;
            var anfds' := anfds[fd := a.(emask := a.events)];
            if CtlErrno(k, op, fd) == OK
            then Consistent(anfds', ws, queue, Ctl(k, op, fd, Registration(a.events, a.egen)), eperms, moved, synced)
            else fd !in k.reg && Consistent(anfds', ws, queue, k, eperms, moved, false)
  {
    var a := anfds[fd];
    var op := if a.events != 0 then Mod else Del;
    var anfds' := anfds[fd := a.(emask := a.events)];
    var k' := Ctl(k, op, fd, Registration(a.events, a.egen));
    assert SyncOne(a, fd, k, eperms, moved, synced) && Mirrors(k, eperms, fd, a.emask, a.egen);
    PlainIsNotEperm(a.events);
    var ok := CtlErrno(k, op, fd) == OK;
    forall f | 0 <= f < |anfds'|
      ensures SyncOne(anfds'[f], f, k', eperms, moved, synced && ok)
      ensures Mirrors(k', eperms, f, anfds'[f].emask, anfds'[f].egen)
    {
      assert SyncOne(anfds[f], f, k, eperms, moved, synced) && Mirrors(k, eperms, f, anfds[f].emask, anfds[f].egen);
    }
    SameListsAndQueue(anfds, anfds', ws, queue);
  }

  /** Only masks of the mirror changed. */
  lemma SameListsAndQueue(anfds: seq<Anfd>, anfds': seq<Anfd>, ws: map<int, Io>, queue: seq<int>)
    requires ListsOk(anfds, ws) && QueueOk(anfds, queue) && EventsOk(anfds, ws, queue) && |anfds'| == |anfds|
    requires forall f :: 0 <= f < |anfds| ==>
      anfds'[f].head == anfds[f].head && anfds'[f].reify == anfds[f].reify && anfds'[f].events == anfds[f].events
    ensures ListsOk(anfds', ws) && QueueOk(anfds', queue) && EventsOk(anfds', ws, queue)
  {
  }

  lemma PlainIsNotEperm(m: bv8)
    requires PlainMask(m)
    ensures m & EMASK_EPERM == 0
  {
  }

  /** The tables of the loop at one moment. */
  datatype Snapshot = Snapshot(anfds: seq<Anfd>, queue: seq<int>, eperms: seq<int>, ws: map<int, Io>, fed: map<int,
                               bv32>,
                               k: Kernel, moved: set<int>)

  /** What the body of the fd_reify loop does to the tables. */
  ghost predicate ReifyRel(s: Snapshot, s': Snapshot, fd: int) {
    && 0 <= fd < |s'.anfds| == |s.anfds|
    && s.queue <= s'.queue
    && s'.k.open == s.k.open && s'.moved <= s.moved
    && (forall f | f != fd :: (f in s'.k.reg <==> f in s.k.reg) && (f in s'.k.reg ==> s'.k.reg[f] == s.k.reg[f]))
    && (forall f | f in s.eperms :: f in s'.eperms)
    && (forall f :: 0 <= f < |s.anfds| && f != fd ==> s'.anfds[f] == s.anfds[f])
    && (s'.anfds[fd].head == s.anfds[fd].head || s'.anfds[fd].head == [])
    && (forall j :: |s.queue| <= j < |s'.queue| ==> s'.queue[j] == fd && fd !in s'.k.open && s'.anfds[fd].head == [])
    && Handled(s.anfds[fd], OrMask(s.ws, s.anfds[fd].head), s'.anfds[fd], fd, s'.k, s'.moved)
    && Renumbered(s.k.reg, s.anfds[fd].egen, s'.k.reg, s'.anfds[fd].egen, fd)
    && (s.anfds[fd].head == [] ==> s'.anfds[fd].egen == s.anfds[fd].egen && SameAt(s.k.reg, s'.k.reg, fd))
    && s'.ws.Keys == s.ws.Keys
    && (forall w | w in s.ws :: SameOrKilled(s.ws[w], s'.ws[w], w, s.fed, s'.fed, s'.k.open))
    && ((s'.ws == s.ws && s'.queue == s.queue) || ActiveSet(s'.ws) < ActiveSet(s.ws))
  }

  /** What fd_kill does to the tables. */
  ghost predicate KillRel(s: Snapshot, s': Snapshot, fd: int) {
    && 0 <= fd < |s'.anfds| == |s.anfds| && s'.anfds[fd].head == [] && s'.anfds[fd].egen == s.anfds[fd].egen
    && s'.k == s.k && s'.eperms == s.eperms && s'.moved == s.moved
    && (forall f :: 0 <= f < |s.anfds| && f != fd ==> s'.anfds[f] == s.anfds[f])
    && s.queue <= s'.queue && (forall j :: |s.queue| <= j < |s'.queue| ==> s'.queue[j] == fd)
    && s'.ws.Keys == s.ws.Keys
    && (forall w | w in s.ws :: KilledIff(s.ws[w], s'.ws[w], w, s.fed, s'.fed, w in s.anfds[fd].head))
  }

  predicate KilledIff(io: Io, io': Io, w: int, fed: map<int, bv32>, fed': map<int, bv32>, killed: bool) {
    if killed then io' == io.(active := false) && w in fed' && fed'[w] == KILL_EVENTS
    else io' == io && (w in fed' <==> w in fed) && (w in fed' ==> fed'[w] == fed[w])
  }

  /** Where fd_kill is, having started in `s0`. */
  ghost predicate KillProgress(s0: Snapshot, s: Snapshot, fd: int) {
    && 0 <= fd < |s.anfds| == |s0.anfds| && s.anfds[fd].egen == s0.anfds[fd].egen
    && s.k == s0.k && s.eperms == s0.eperms && s.moved == s0.moved
    && (forall f :: 0 <= f < |s.anfds| && f != fd ==> s.anfds[f] == s0.anfds[f])
    && s0.queue <= s.queue && (forall j :: |s0.queue| <= j < |s.queue| ==> s.queue[j] == fd)
    && s.ws.Keys == s0.ws.Keys
    && (forall w | w in s.anfds[fd].head :: w in s0.anfds[fd].head)
    && (forall w | w in s0.ws :: if w in s.anfds[fd].head then s.ws[w] == s0.ws[w]
                                 else KilledIff(s0.ws[w], s.ws[w], w, s0.fed, s.fed, w in s0.anfds[fd].head))
  }

  lemma KillProgressStep(s0: Snapshot, s: Snapshot, s': Snapshot, fd: int, w: int)
    requires KillProgress(s0, s, fd) && w in s.anfds[fd].head && w in s.ws
    requires Distinct(s.anfds[fd].head)
    requires s'.anfds == s.anfds[fd := Stopped(s.anfds[fd], w)] && s'.queue == Queued(s.queue, fd, s.anfds[fd].reify)
    requires s'.ws == s.ws[w := s.ws[w].(active := false)] && s'.fed == (s.fed - {w})[w := 0 | KILL_EVENTS]
    requires s'.k == s.k && s'.eperms == s.eperms && s'.moved == s.moved
    ensures KillProgress(s0, s', fd)
  {
    UnlinkDistinct(s.anfds[fd].head, w);
    assert s'.anfds[fd].head == Unlink(s.anfds[fd].head, w);
    assert w in s0.ws;
  }

  /** An fd of which the back end made no fuss is one step of fd_reify. */
  lemma PlainIsReify(s: Snapshot, s': Snapshot, fd: int, mask: bv8, m: Modified)
    requires 0 <= fd < |s.anfds| && mask == OrMask(s.ws, s.anfds[fd].head)
    requires s' == s.(anfds := s.anfds[fd := Reified(s.anfds[fd], mask, m)], k := m.kernel, eperms := m.eperms,
                      moved := StillMoved(s.moved, s.anfds[fd], fd, mask))
    requires m.kernel.open == s.k.open
    requires NeedsModify(s.anfds[fd], mask) && mask != 0 ==> fd in s.k.open
    requires forall f | f in s.eperms :: f in m.eperms
    requires forall f | f != fd :: f in m.kernel.reg <==> f in s.k.reg
    requires forall f | f != fd && f in s.k.reg :: m.kernel.reg[f] == s.k.reg[f]
    requires NeedsModify(s.anfds[fd], mask) && mask != 0 && fd in s.k.open && s.k.open[fd] ==>
               fd in m.kernel.reg && m.kernel.reg[fd].mask == mask && m.emask == mask
    requires Renumbered(s.k.reg, s.anfds[fd].egen, m.kernel.reg, m.egen, fd)
    requires mask == 0 || !NeedsModify(s.anfds[fd], mask) ==>
               m.egen == s.anfds[fd].egen && SameAt(s.k.reg, m.kernel.reg, fd)
    ensures ReifyRel(s, s', fd)
  {
  }

  /** Handing an fd to the back end and killing it is one step of fd_reify. */
  lemma KillIsReify(s: Snapshot, s1: Snapshot, s': Snapshot, fd: int, mask: bv8)
    requires 0 <= fd < |s.anfds| && ListOk(s.anfds[fd].head, s.ws, fd) && fd !in s.k.open
    requires mask == OrMask(s.ws, s.anfds[fd].head) && mask != 0
    requires s1.ws == s.ws && s1.fed == s.fed && s1.queue == s.queue && s1.k.open == s.k.open
    requires |s1.anfds| == |s.anfds| && s1.anfds[fd].head == s.anfds[fd].head && s1.moved == s.moved - {fd}
    requires forall f :: 0 <= f < |s.anfds| && f != fd ==> s1.anfds[f] == s.anfds[f]
    requires forall f | f != fd :: (f in s1.k.reg <==> f in s.k.reg) && (f in s1.k.reg ==> s1.k.reg[f] == s.k.reg[f])
    requires forall f | f in s.eperms :: f in s1.eperms
    requires s1.anfds[fd].egen == s.anfds[fd].egen && SameAt(s.k.reg, s1.k.reg, fd)
    requires KillRel(s1, s', fd)
    ensures ReifyRel(s, s', fd)
  {
    var head := s.anfds[fd].head;
    forall w | w in s.ws ensures SameOrKilled(s.ws[w], s'.ws[w], w, s.fed, s'.fed, s'.k.open) {
      assert KilledIff(s1.ws[w], s'.ws[w], w, s1.fed, s'.fed, w in head);
      assert w in head ==> s.ws[w].active && s.ws[w].fd == fd;
    }
    var w := head[0];
    assert w in head && KilledIff(s1.ws[w], s'.ws[w], w, s1.fed, s'.fed, true);
    assert w in ActiveSet(s.ws) && w !in ActiveSet(s'.ws);
    forall v | v in ActiveSet(s'.ws) ensures v in ActiveSet(s.ws) {
      assert KilledIff(s1.ws[v], s'.ws[v], v, s1.fed, s'.fed, v in head);
    }
  }

  /** Where fd_reify is after `i` changes, having started in `s0`. */
  ghost predicate Progress(s0: Snapshot, s: Snapshot, i: nat) {
    && |s.anfds| == |s0.anfds| && s.k.open == s0.k.open && s.moved <= s0.moved && s0.queue <= s.queue
    && (forall fd | fd in s0.eperms :: fd in s.eperms)
    && WatchersProgress(s0, s) && QueueProgress(s0, s, i)
  }

  ghost predicate WatchersProgress(s0: Snapshot, s: Snapshot) {
    && s.ws.Keys == s0.ws.Keys
    && (forall w | w in s0.ws :: SameOrKilled(s0.ws[w], s.ws[w], w, s0.fed, s.fed, s.k.open))
  }

  ghost predicate QueueProgress(s0: Snapshot, s: Snapshot, i: nat)
    requires |s.anfds| == |s0.anfds| && s0.queue <= s.queue
  {
    && Distinct(s0.queue)
    && (forall j :: 0 <= j < |s.queue| ==> 0 <= s.queue[j] < |s.anfds|)
    && (forall j :: |s0.queue| <= j < |s.queue| ==> s.queue[j] !in s.k.open && s.anfds[s.queue[j]].head == [])
    && (forall j :: i <= j < |s0.queue| ==> s.anfds[s.queue[j]] == s0.anfds[s.queue[j]])
    && (forall j :: 0 <= j < i && j < |s0.queue| ==> HandledFrom(s0, s, s0.queue[j]))
  }

  ghost predicate HandledFrom(s0: Snapshot, s: Snapshot, fd: int) {
    0 <= fd < |s0.anfds| && 0 <= fd < |s.anfds| &&
    Handled(s0.anfds[fd], OrMask(s0.ws, s0.anfds[fd].head), s.anfds[fd], fd, s.k, s.moved)
  }

  lemma ProgressStart(s: Snapshot)
    requires QueueOk(s.anfds, s.queue)
    ensures Progress(s, s, 0)
  {
    assert forall j :: 0 <= j < |s.queue| ==> s.queue[j] in s.queue;
  }

  lemma WatchersProgressStep(s0: Snapshot, s: Snapshot, s': Snapshot, fd: int)
    requires WatchersProgress(s0, s) && ReifyRel(s, s', fd)
    ensures WatchersProgress(s0, s')
    ensures forall head :: OrMask(s.ws, head) == OrMask(s0.ws, head)
  {
    forall w | w in s0.ws ensures SameOrKilled(s0.ws[w], s'.ws[w], w, s0.fed, s'.fed, s'.k.open) {
      assert SameOrKilled(s.ws[w], s'.ws[w], w, s.fed, s'.fed, s'.k.open);
    }
    forall head ensures OrMask(s.ws, head) == OrMask(s0.ws, head) {
      assert forall w | w in s0.ws :: SameOrKilled(s0.ws[w], s.ws[w], w, s0.fed, s.fed, s.k.open);
      OrMaskOthers(s.ws, s0.ws, head);
    }
  }

  lemma QueueProgressStep(s0: Snapshot, s: Snapshot, s': Snapshot, i: nat)
    requires |s.anfds| == |s0.anfds| && s0.queue <= s.queue && s.k.open == s0.k.open && i < |s.queue|
    requires QueueProgress(s0, s, i) && ReifyRel(s, s', s.queue[i])
    requires forall head :: OrMask(s.ws, head) == OrMask(s0.ws, head)
    ensures QueueProgress(s0, s', i + 1)
  {
    var fd := s.queue[i];
    if i < |s0.queue| { DistinctAway(s0.queue, i); }
    forall j | 0 <= j < i + 1 && j < |s0.queue| ensures HandledFrom(s0, s', s0.queue[j]) {
      if j < i {
        assert HandledFrom(s0, s, s0.queue[j]);
      } else {
        assert s.anfds[fd] == s0.anfds[fd];
      }
    }
  }

  lemma ProgressStep(s0: Snapshot, s: Snapshot, s': Snapshot, i: nat)
    requires i < |s.queue| && Progress(s0, s, i) && ReifyRel(s, s', s.queue[i])
    ensures Progress(s0, s', i + 1)
    ensures |ActiveSet(s'.ws)| < |ActiveSet(s.ws)| || (s'.ws == s.ws && s'.queue == s.queue)
  {
    WatchersProgressStep(s0, s, s', s.queue[i]);
    QueueProgressStep(s0, s, s', i);
    if ActiveSet(s'.ws) < ActiveSet(s.ws) { StrictlyFewer(ActiveSet(s'.ws), ActiveSet(s.ws)); }
  }

  /** The generations after `i` changes; fds still to come have their registration. */
  ghost predicate GenProgress(s0: Snapshot, s: Snapshot, i: nat) {
    && |s.anfds| == |s0.anfds|
    && (forall fd :: 0 <= fd < |s.anfds| ==> RenumberedAt(s0.anfds, s0.k, s.anfds, s.k, fd))
    && (forall j :: i <= j < |s0.queue| ==> SameAt(s0.k.reg, s.k.reg, s0.queue[j]))
  }

  predicate RenumberedAt(table: seq<Anfd>, k: Kernel, table': seq<Anfd>, k': Kernel, fd: int)
    requires 0 <= fd < |table| <= |table'|
  {
    Renumbered(k.reg, table[fd].egen, k'.reg, table'[fd].egen, fd)
  }

  lemma RenumberedBefore(reg0: map<int, Registration>, gen0: Gen, reg: map<int, Registration>, gen: Gen,
                         reg': map<int, Registration>, fd: int)
    requires Renumbered(reg0, gen0, reg, gen, fd) && SameAt(reg, reg', fd)
    ensures Renumbered(reg0, gen0, reg', gen, fd)
  {
  }

  lemma RenumberedNow(reg0: map<int, Registration>, gen0: Gen, reg: map<int, Registration>,
                      reg': map<int, Registration>, gen: Gen, fd: int)
    requires SameAt(reg0, reg, fd) && Renumbered(reg, gen0, reg', gen, fd)
    ensures Renumbered(reg0, gen0, reg', gen, fd)
  {
  }

  lemma GenProgressStep(s0: Snapshot, s: Snapshot, s': Snapshot, i: nat)
    requires i < |s.queue| && Progress(s0, s, i) && GenProgress(s0, s, i) && ReifyRel(s, s', s.queue[i])
    ensures GenProgress(s0, s', i + 1)
  {
    var fd := s.queue[i];
    forall f | 0 <= f < |s'.anfds| ensures RenumberedAt(s0.anfds, s0.k, s'.anfds, s'.k, f) {
      assert RenumberedAt(s0.anfds, s0.k, s.anfds, s.k, f);
      if f != fd {
        assert s'.anfds[f] == s.anfds[f];
        RenumberedBefore(s0.k.reg, s0.anfds[f].egen, s.k.reg, s.anfds[f].egen, s'.k.reg, f);
      } else if i < |s0.queue| {
        assert s.anfds[fd] == s0.anfds[fd] && SameAt(s0.k.reg, s.k.reg, s0.queue[i]);
        RenumberedNow(s0.k.reg, s.anfds[fd].egen, s.k.reg, s'.k.reg, s'.anfds[fd].egen, fd);
      } else {
        assert s.anfds[s.queue[i]].head == [];
        RenumberedBefore(s0.k.reg, s0.anfds[f].egen, s.k.reg, s.anfds[f].egen, s'.k.reg, f);
      }
    }
    if i < |s0.queue| { DistinctAway(s0.queue, i); }
    forall j | i + 1 <= j < |s0.queue| ensures SameAt(s0.k.reg, s'.k.reg, s0.queue[j]) {
      assert SameAt(s0.k.reg, s.k.reg, s0.queue[j]);
      assert s0.queue[j] == s.queue[j];
    }
  }

  /** What fd_reify achieves, from `s0` to `s`. */
  ghost predicate ReifyOutcome(s0: Snapshot, s: Snapshot) {
    && |s.anfds| == |s0.anfds| && s.k.open == s0.k.open && s.moved <= s0.moved
    && (forall fd | fd in s0.eperms :: fd in s.eperms)
    // watchers either stay as they were, or sat on a closed fd and were killed
    && s.ws.Keys == s0.ws.Keys
    && (forall w | w in s0.ws :: SameOrKilled(s0.ws[w], s.ws[w], w, s0.fed, s.fed, s.k.open))
    // nothing is left marked, and the events field is the or of the watchers' masks
    && (forall fd :: 0 <= fd < |s.anfds| ==> UpToDate(s, fd))
    // an fd handed to the back end: closed, it lost its watchers; open, it is in step
    && (forall fd | fd in s0.queue :: HandledFrom(s0, s, fd))
  }

  /** An fd that is open and has watchers is registered for exactly their events,
      or synthesised, unless it was reopened without ev_io_set; and then it is not
      registered at all. */
  ghost predicate UpToDate(s: Snapshot, fd: int)
    requires 0 <= fd < |s.anfds|
  {
    var a := s.anfds[fd];
    && a.reify == 0 && a.events == OrMask(s.ws, a.head)
    && (a.events != 0 && fd in s.k.open && fd !in s.moved ==> InSync(s.k, s.eperms, fd, a.events, a.emask))
    && (fd in s.moved ==> fd !in s.k.reg)
  }

  lemma ProgressDone(s0: Snapshot, s: Snapshot, i: nat)
    requires Progress(s0, s, i) && i == |s.queue| && Consistent(s.anfds, s.ws, [], s.k, s.eperms, s.moved, true)
    ensures ReifyOutcome(s0, s.(queue := []))
  {
    var s' := s.(queue := []);
    forall fd | 0 <= fd < |s'.anfds| ensures UpToDate(s', fd) {
      assert SyncOne(s.anfds[fd], fd, s.k, s.eperms, s.moved, true);
      ReifyZero(s.anfds[fd].reify);
    }
    forall fd | fd in s0.queue ensures HandledFrom(s0, s', fd) {
      var j :| 0 <= j < |s0.queue| && s0.queue[j] == fd;
      assert HandledFrom(s0, s, s0.queue[j]);
    }
  }

  /** fd_reify is under way: the tables and the generations. */
  ghost predicate Reifying(s0: Snapshot, s: Snapshot, i: nat) {
    Progress(s0, s, i) && GenProgress(s0, s, i)
  }

  lemma ReifyingStep(s0: Snapshot, s: Snapshot, s': Snapshot, i: nat)
    requires i < |s.queue| && Reifying(s0, s, i) && ReifyRel(s, s', s.queue[i])
    ensures Reifying(s0, s', i + 1)
    ensures |ActiveSet(s'.ws)| < |ActiveSet(s.ws)| || (s'.ws == s.ws && s'.queue == s.queue)
  {
    ProgressStep(s0, s, s', i);
    GenProgressStep(s0, s, s', i);
  }

  lemma ReifyingDone(s0: Snapshot, s: Snapshot, i: nat)
    requires Reifying(s0, s, i) && i == |s.queue| && Consistent(s.anfds, s.ws, [], s.k, s.eperms, s.moved, true)
    ensures ReifyOutcome(s0, s.(queue := []))
    ensures |s.anfds| == |s0.anfds|
    ensures forall fd :: 0 <= fd < |s.anfds| ==> RenumberedAt(s0.anfds, s0.k, s.anfds, s.k, fd)
  {
    ProgressDone(s0, s, i);
  }

  lemma ReifyZero(reify: bv8)
    ensures reify == 0 ==> reify & EV_IOFDSET == 0
  {
  }

  lemma DistinctAway(s: seq<int>, i: nat)
    requires Distinct(s) && i < |s|
    ensures forall j :: 0 <= j < |s| && j != i ==> s[j] != s[i]
  {
  }

  lemma StrictlyFewer<T>(a: set<T>, b: set<T>)
    requires a < b
    ensures |a| < |b|
  {
    var x :| x in b && x !in a;
    assert a <= b - {x};
    SubsetSize(a, b - {x});
  }

  lemma {:induction false} SubsetSize<T>(a: set<T>, b: set<T>)
    requires a <= b
    ensures |a| <= |b|
  {
    if a != {} {
      var x :| x in a;
      SubsetSize(a - {x}, b - {x});
    }
  }

  /** What fd_reify may do to a watcher: nothing, or kill it because its fd is closed. */
  predicate SameOrKilled(io: Io, io': Io, w: int, fed: map<int, bv32>, fed': map<int, bv32>, open: map<int, bool>) {
    if io' == io then (w in fed' <==> w in fed) && (w in fed' ==> fed'[w] == fed[w])
    else io.active && io.fd !in open && io' == io.(active := false) && w in fed' && fed'[w] == KILL_EVENTS
  }

  /** The outcome for an fd that was queued with entry `a` and watchers asking for
      `mask`: if the back end was called, a closed fd has lost its watchers and an
      open one that epoll accepts is registered and cached with `mask`. */
  predicate Handled(a: Anfd, mask: bv8, a': Anfd, fd: int, k: Kernel, moved: set<int>) {
    NeedsModify(a, mask) && mask != 0 ==>
      && fd !in moved
      && (fd !in k.open ==> a'.head == [])
      && (fd in k.open && k.open[fd] ==> fd in k.reg && k.reg[fd].mask == mask && a'.emask == mask)
  }

  const KILL_EVENTS: bv32 := 0x8000_0003    // EV_ERROR | EV_READ | EV_WRITE

  lemma OrAssoc(a: bv8, b: bv8, c: bv8)
    ensures a | (b | c) == (a | b) | c
  {
  }

  lemma StartBits(events: bv8, reify: bv8)
    requires events & 0x7C == 0
    ensures PlainMask(events & 0x7F)
    ensures (events & EV_IOFDSET) | ANFD_REIFY != 0
    ensures (reify | ((events & EV_IOFDSET) | ANFD_REIFY)) & ANFD_REIFY != 0
    ensures reify | ((events & EV_IOFDSET) | ANFD_REIFY) != 0
    ensures events & EV_IOFDSET != 0 ==> (reify | ((events & EV_IOFDSET) | ANFD_REIFY)) & EV_IOFDSET != 0
    ensures (reify | ((events & EV_IOFDSET) | ANFD_REIFY)) & EV_IOFDSET == 0 ==> reify & EV_IOFDSET == 0
  {
  }

  lemma StopBits(reify: bv8)
    ensures (reify | ANFD_REIFY) & EV_IOFDSET == reify & EV_IOFDSET
    ensures reify | ANFD_REIFY != 0
  {
  }

  lemma StartKeepsLists(anfds: seq<Anfd>, ws: map<int, Io>, w: int, fd: int, events: bv8, reify: bv8)
    requires ListsOk(anfds, ws) && w in ws && !ws[w].active && 0 <= fd < |anfds| && PlainMask(events)
    ensures ListsOk(anfds[fd := anfds[fd].(head := [w] + anfds[fd].head, reify := reify)],
                    ws[w := Io(fd, events, true)])
  {
    var a, v := anfds[fd := anfds[fd].(head := [w] + anfds[fd].head, reify := reify)], ws[w := Io(fd, events, true)];
    forall f | 0 <= f < |a| ensures ListOk(a[f].head, v, f) {
      assert ListOk(anfds[f].head, ws, f);
      assert w !in anfds[f].head;
    }
    forall x | x in v && v[x].active ensures PlainMask(v[x].events) && 0 <= v[x].fd < |a| && x in a[v[x].fd].head {
      if x == w { assert a[fd].head[0] == w; }
    }
  }

  lemma StopKeepsLists(anfds: seq<Anfd>, ws: map<int, Io>, w: int, reify: bv8)
    requires ListsOk(anfds, ws) && w in ws && ws[w].active
    ensures ListsOk(anfds[ws[w].fd := anfds[ws[w].fd].(head := Unlink(anfds[ws[w].fd].head, w), reify := reify)],
                    ws[w := ws[w].(active := false)])
  {
    var fd := ws[w].fd;
    var a := anfds[fd := anfds[fd].(head := Unlink(anfds[fd].head, w), reify := reify)];
    var v := ws[w := ws[w].(active := false)];
    forall f | 0 <= f < |a| ensures ListOk(a[f].head, v, f) {
      assert ListOk(anfds[f].head, ws, f);
      if f == fd { UnlinkDistinct(anfds[f].head, w); }
    }
  }

  /** Masks of watchers outside the list do not matter. */
  lemma {:induction false} OrMaskOthers(ws: map<int, Io>, ws': map<int, Io>, head: seq<int>)
    requires forall w | w in head :: (w in ws <==> w in ws') && (w in ws && w in ws' ==> ws[w].events == ws'[w].events)
    ensures OrMask(ws, head) == OrMask(ws', head)
  {
    if head != [] {
      var w := head[0];
      assert w in head && (w in ws <==> w in ws');
      OrMaskOthers(ws, ws', head[1..]);
    }
  }

  // --------------------------------------------------------- how exact the mirror is

  /** In every state a registration carries the cached generation; it carries the
      cached mask exactly when that is not zero. */
  lemma MirrorExact(anfds: seq<Anfd>, ws: map<int, Io>, queue: seq<int>, k: Kernel, eperms: seq<int>, moved: set<int>,
                    synced: bool, fd: int)
    requires Consistent(anfds, ws, queue, k, eperms, moved, synced) && fd in k.reg
    ensures 0 <= fd < |anfds| && k.reg[fd].gen == anfds[fd].egen
    ensures k.reg[fd].mask == anfds[fd].emask <==> anfds[fd].emask != 0
  {
    assert Mirrors(k, eperms, fd, anfds[fd].emask, anfds[fd].egen);
  }

  /** Where the mirror is exact, the pass over epoll_eperms keeps it so for exactly the
      registered fds that are not on that list. */
  lemma EpermPassExact(anfds: seq<Anfd>, ws: map<int, Io>, queue: seq<int>, k: Kernel, eperms: seq<int>,
                       moved: set<int>, synced: bool, fd: int)
    requires Consistent(anfds, ws, queue, k, eperms, moved, synced) && fd in k.reg && 0 <= fd < |anfds|
    requires k.reg[fd].mask == anfds[fd].emask
    ensures k.reg[fd].mask == AfterEperms(anfds[fd], fd in eperms).emask <==> fd !in eperms
  {
    assert Mirrors(k, eperms, fd, anfds[fd].emask, anfds[fd].egen);
    PlainIsNotEperm(anfds[fd].emask);
  }

  /** A loop with one watcher for reading on fd 0, just reified. */
  ghost predicate OneReader(loop: EpollLoop)
    reads loop
  {
    && loop.Valid() && !loop.postfork && loop.fdchanges == []
    && |loop.anfds| == 1 && loop.anfds[0].head == [1] && loop.anfds[0].events == EV_READ
    && loop.watchers == map[1 := Io(0, EV_READ, true)] && 0 in loop.kernel.open
  }

  lemma ReifiedReader(s0: Snapshot, s: Snapshot)
    requires ReifyOutcome(s0, s) && |s0.anfds| == 1 && s0.anfds[0].head == [1] && 0 in s0.k.open
    requires s0.ws == map[1 := Io(0, EV_READ, true)] && ListOk(s.anfds[0].head, s.ws, 0)
    requires ListsOk(s.anfds, s.ws)
    ensures s.ws == s0.ws && s.anfds[0].events == EV_READ && s.anfds[0].head == [1]
  {
    assert 1 in s0.ws && SameOrKilled(s0.ws[1], s.ws[1], 1, s0.fed, s.fed, s.k.open);
    var head := s.anfds[0].head;
    assert 1 < |head| ==> head[0] != head[1];
    assert 1 in head;
    assert s.ws.Keys == {1};
    forall j | 0 <= j < |head| ensures head[j] == 1 {
      var w := head[j];
      assert w in head && w in s.ws;
    }
    assert head == [1];
    assert UpToDate(s, 0);
    OrMaskOne(s.ws, 1);
  }

  /** fd 0 is something epoll refuses: the fd ends up on epoll_eperms. */
  method ReadRefusedFd() returns (loop: EpollLoop)
    ensures fresh(loop) && OneReader(loop) && 0 in loop.eperms
    ensures loop.anfds[0].emask & EMASK_EPERM != 0
  {
    loop := new EpollLoop();
    loop.OpenFd(0, false);
    StartReader(loop);
    ReifyReader(loop);
    RegisteredIsOpen(loop.anfds, loop.kernel, loop.eperms, 0);
  }

  /** A watcher for reading fd 0 is set and started, ... */
  method StartReader(loop: EpollLoop)
    requires loop.Valid() && !loop.postfork && |loop.anfds| <= 1 && (|loop.anfds| == 1 ==> loop.anfds[0].head == [])
    requires loop.watchers.Keys <= {1} && (1 in loop.watchers ==> !loop.watchers[1].active) && 0 in loop.kernel.open
    modifies loop
    ensures loop.Valid() && !loop.postfork && |loop.anfds| == 1 && loop.anfds[0].head == [1]
    ensures loop.watchers == map[1 := Io(0, EV_READ, true)] && loop.anfds[0].reify & EV_IOFDSET != 0
    ensures loop.kernel == old(loop.kernel) && loop.eperms == old(loop.eperms) && loop.moved == old(loop.moved)
  {
    loop.IoSet(1, 0, EV_READ);
    SetBits();
    loop.IoStart(1);
  }

  /** ... and fd_reify makes it known. */
  method ReifyReader(loop: EpollLoop)
    requires loop.Valid() && !loop.postfork && |loop.anfds| == 1 && loop.anfds[0].head == [1]
    requires loop.watchers == map[1 := Io(0, EV_READ, true)] && loop.anfds[0].reify & EV_IOFDSET != 0
    requires 0 in loop.kernel.open
    modifies loop
    ensures OneReader(loop) && loop.kernel.open == old(loop.kernel.open)
    ensures forall f | f in old(loop.eperms) :: f in loop.eperms
    ensures HandledFrom(old(loop.Now()), loop.Now(), 0) && UpToDate(loop.Now(), 0)
  {
    ghost var s0 := loop.Now();
    assert 0 in s0.queue by { ReifyZero(s0.anfds[0].reify); }
    OrMaskOne(loop.watchers, 1);
    loop.FdReify();
    ReifiedReader(s0, loop.Now());
  }

  /** The program closes fd 0 and opens something pollable under the same number,
      stopping its watcher first, ... */
  method ReplaceFd(loop: EpollLoop)
    requires OneReader(loop)
    modifies loop
    ensures loop.Valid() && !loop.postfork && |loop.anfds| == 1 && loop.anfds[0].head == []
    ensures loop.eperms == old(loop.eperms)
    ensures loop.watchers == map[1 := Io(0, EV_READ, false)] && 0 in loop.kernel.open && loop.kernel.open[0]
  {
    assert loop.fdchanges[0..] == loop.fdchanges;
    loop.IoStop(1, 0);
    loop.CloseFd(0);
    loop.OpenFd(0, true);
  }

  /** ... and setting and starting it again afterwards. */
  method RestartReader(loop: EpollLoop)
    requires loop.Valid() && !loop.postfork && |loop.anfds| == 1 && loop.anfds[0].head == [] && 0 in loop.eperms
    requires loop.watchers == map[1 := Io(0, EV_READ, false)] && 0 in loop.kernel.open && loop.kernel.open[0]
    modifies loop
    ensures OneReader(loop) && 0 in loop.eperms
    ensures 0 in loop.kernel.reg && loop.kernel.reg[0].mask == EV_READ && loop.anfds[0].emask == EV_READ
  {
    StartReader(loop);
    ReifyReader(loop);
  }

  /** The cached mask can indeed be zero under a live registration: an fd that epoll
      refused, reopened as one it accepts, is registered by fd_reify and then
      forgotten by the pass over epoll_eperms. */
  method EpermPassForgetsMask() returns (loop: EpollLoop)
    ensures loop.Valid() && 0 in loop.kernel.reg && |loop.anfds| > 0
    ensures loop.kernel.reg[0].mask == EV_READ && loop.anfds[0].emask == 0
  {
    loop := ReadRefusedFd();
    ReplaceFd(loop);
    RestartReader(loop);
    SetBits();
    loop.PollEperms();
  }

  lemma SetBits()
    ensures (EV_READ | EV_IOFDSET) & 0x7C == 0 && (EV_READ | EV_IOFDSET) & 0x7F == EV_READ
    ensures (EV_READ | EV_IOFDSET) & EV_IOFDSET != 0
    ensures EV_READ & EMASK_EPERM == 0
  {
  }

  lemma OrMaskOne(ws: map<int, Io>, w: int)
    requires w in ws
    ensures OrMask(ws, [w]) == ws[w].events
  {
  }

  // ------------------------------------------------- stale events, over call sequences

  function Bumped(g: Gen, n: nat): Gen {
    (g + n) % 0x1_0000_0000
  }

  lemma BumpedNext(g: Gen, n: nat)
    ensures Bump(Bumped(g, n)) == Bumped(g, n + 1) && Bumped(g, 0) == g
  {
  }

  /** It takes 2^32 registrations until a generation comes back. */
  lemma BumpedAway(g: Gen, n: nat)
    requires 0 < n < 0x1_0000_0000
    ensures Bumped(g, n) != g
  {
  }

  /** What a program and its event loop may do, in any order. */
  datatype Call =
    | Set(w: int, fd: int, events: bv8)
    | Start(w: int)
    | Stop(w: int)
    | Reify
    | Event(fd: int, gen: Gen, got: bv8)
    | Eperms
    | Forked
    | Close(fd: int)
    | Open(fd: int, pollable: bool)

  /** Whether the call meets what the code demands of its caller. */
  predicate Allowed(loop: EpollLoop, c: Call)
    reads loop
  {
    match c
    case Set(w, _, _) => w in loop.watchers ==> !loop.watchers[w].active
    case Start(w) => w in loop.watchers
                     && (!loop.watchers[w].active ==> loop.watchers[w].fd >= 0 && loop.watchers[w].events & 0x7C == 0)
    case Stop(w) => w in loop.watchers
    case Reify => !loop.postfork
    case Event(fd, _, got) => 0 <= fd < |loop.anfds| && PlainMask(got)
    case Open(fd, _) => fd !in loop.kernel.open
    case _ => true
  }

  /** What matters of a loop for stale events on one fd. */
  datatype Moment = Moment(gen: Gen, reg: map<int, Registration>, fed: map<int, bv32>)

  ghost function MomentOf(loop: EpollLoop, fd: int): Moment
    requires 0 <= fd < |loop.anfds|
    reads loop
  {
    Moment(loop.anfds[fd].egen, loop.kernel.reg, loop.fed)
  }

  /** fd_reify has registered the fd, or registered it differently. */
  predicate RegisteredAnew(m: Moment, c: Call, m': Moment, fd: int) {
    c.Reify? && fd in m'.reg && !SameAt(m.reg, m'.reg, fd)
  }

  /** Only fd_reify changes a generation, to the next one, and it always does when it
      registers the fd anew. */
  predicate Moves(m: Moment, c: Call, m': Moment, fd: int) {
    && (m'.gen == m.gen || (c.Reify? && m'.gen == Bump(m.gen)))
    && (RegisteredAnew(m, c, m', fd) ==> m'.gen == Bump(m.gen))
  }

  /** One call. */
  method Perform(loop: EpollLoop, c: Call, fd: int)
    requires loop.Valid() && 0 <= fd < |loop.anfds| && Allowed(loop, c)
    modifies loop
    ensures loop.Valid() && |old(loop.anfds)| <= |loop.anfds|
    ensures Moves(old(MomentOf(loop, fd)), c, MomentOf(loop, fd), fd)
  {
    match c {
      case Reify => ReifyAll(loop, fd);
      case Set(_, _, _) => ChangeWatcher(loop, c, fd);
      case Start(_) => ChangeWatcher(loop, c, fd);
      case Stop(_) => ChangeWatcher(loop, c, fd);
      case _ => ChangeKernel(loop, c, fd);
    }
  }

  method ChangeWatcher(loop: EpollLoop, c: Call, fd: int)
    requires loop.Valid() && 0 <= fd < |loop.anfds| && Allowed(loop, c) && (c.Set? || c.Start? || c.Stop?)
    modifies loop
    ensures loop.Valid() && |old(loop.anfds)| <= |loop.anfds| && loop.anfds[fd].egen == old(loop.anfds)[fd].egen
  {
    match c {
      case Set(w, f, events) => loop.IoSet(w, f, events);
      case Start(w) => loop.IoStart(w);
      case Stop(w) => StopOne(loop, w);
    }
  }

  method ChangeKernel(loop: EpollLoop, c: Call, fd: int)
    requires loop.Valid() && 0 <= fd < |loop.anfds| && Allowed(loop, c)
    requires c.Event? || c.Eperms? || c.Forked? || c.Close? || c.Open?
    modifies loop
    ensures loop.Valid() && |old(loop.anfds)| <= |loop.anfds| && loop.anfds[fd].egen == old(loop.anfds)[fd].egen
  {
    match c {
      case Event(f, gen, got) => loop.PollEvent(f, gen, got);
      case Eperms => loop.PollEperms();
      case Forked => loop.EpollFork();
      case Close(f) => loop.CloseFd(f);
      case Open(f, pollable) => loop.OpenFd(f, pollable);
    }
  }

  method StopOne(loop: EpollLoop, w: int)
    requires loop.Valid() && w in loop.watchers
    modifies loop
    ensures loop.Valid() && |loop.anfds| == |old(loop.anfds)|
    ensures forall f :: 0 <= f < |loop.anfds| ==> loop.anfds[f].egen == old(loop.anfds)[f].egen
  {
    assert loop.fdchanges[0..] == loop.fdchanges;
    loop.IoStop(w, 0);
  }

  method ReifyAll(loop: EpollLoop, fd: int)
    requires loop.Valid() && !loop.postfork && 0 <= fd < |loop.anfds|
    modifies loop
    ensures loop.Valid() && |loop.anfds| == |old(loop.anfds)|
    ensures RenumberedAt(old(loop.anfds), old(loop.kernel), loop.anfds, loop.kernel, fd)
  {
    loop.FdReify();
  }

  /** The moments between the calls. */
  ghost predicate IsHistory(run: seq<Moment>, calls: seq<Call>, fd: int) {
    |run| == |calls| + 1 && forall i :: 0 <= i < |calls| ==> Moves(run[i], calls[i], run[i + 1], fd)
  }

  /** How often the generation has changed. */
  function Bumps(run: seq<Moment>, n: nat): (b: nat)
    requires n < |run|
    ensures b <= n
  {
    if n == 0 then 0 else Bumps(run, n - 1) + if run[n].gen == run[n - 1].gen then 0 else 1
  }

  lemma {:induction false} HistoryGen(run: seq<Moment>, calls: seq<Call>, fd: int, n: nat)
    requires IsHistory(run, calls, fd) && n <= |calls|
    ensures run[n].gen == Bumped(run[0].gen, Bumps(run, n))
  {
    BumpedNext(run[0].gen, 0);
    if n > 0 {
      HistoryGen(run, calls, fd, n - 1);
      BumpedNext(run[0].gen, Bumps(run, n - 1));
      assert Moves(run[n - 1], calls[n - 1], run[n], fd);
    }
  }

  lemma {:induction false} RegisteredBumps(run: seq<Moment>, calls: seq<Call>, fd: int, i: nat, n: nat)
    requires IsHistory(run, calls, fd) && i < n <= |calls| && RegisteredAnew(run[i], calls[i], run[i + 1], fd)
    ensures Bumps(run, n) > 0
  {
    assert Moves(run[i], calls[i], run[i + 1], fd);
    if i + 1 < n { RegisteredBumps(run, calls, fd, i, n - 1); }
  }

  /** Once the fd has been registered anew, the generation it had before does not come back
      within 2^32 - 1 changes. */
  lemma StaleHistory(run: seq<Moment>, calls: seq<Call>, fd: int, i: nat, n: nat)
    requires IsHistory(run, calls, fd) && i < n <= |calls| && RegisteredAnew(run[i], calls[i], run[i + 1], fd)
    requires Bumps(run, n) < 0x1_0000_0000
    ensures run[n].gen != run[0].gen
  {
    HistoryGen(run, calls, fd, n);
    RegisteredBumps(run, calls, fd, i, n);
    BumpedAway(run[0].gen, Bumps(run, n));
  }

  /** Any calls one after the other; those the code does not allow at their turn are left out. */
  method PerformAll(loop: EpollLoop, fd: int, calls: seq<Call>) returns (ghost run: seq<Moment>)
    requires loop.Valid() && 0 <= fd < |loop.anfds|
    modifies loop
    ensures loop.Valid() && |old(loop.anfds)| <= |loop.anfds|
    ensures IsHistory(run, calls, fd) && run[0] == old(MomentOf(loop, fd)) && run[|calls|] == MomentOf(loop, fd)
  {
    run := [MomentOf(loop, fd)];
    for i := 0 to |calls|
      invariant loop.Valid() && |old(loop.anfds)| <= |loop.anfds|
      invariant IsHistory(run, calls[..i], fd) && run[0] == old(MomentOf(loop, fd)) && run[i] == MomentOf(loop, fd)
    {
      if Allowed(loop, calls[i]) { Perform(loop, calls[i], fd); }
      HistoryGrows(run, calls[..i], fd, calls[i], MomentOf(loop, fd));
      run := run + [MomentOf(loop, fd)];
      assert calls[..i + 1] == calls[..i] + [calls[i]];
    }
    assert calls[..|calls|] == calls;
  }

  lemma HistoryGrows(run: seq<Moment>, calls: seq<Call>, fd: int, c: Call, m: Moment)
    requires IsHistory(run, calls, fd) && Moves(run[|calls|], c, m, fd)
    ensures IsHistory(run + [m], calls + [c], fd)
  {
    forall i | 0 <= i < |calls| + 1 ensures Moves((run + [m])[i], (calls + [c])[i], (run + [m])[i + 1], fd) {
      if i < |calls| { assert Moves(run[i], calls[i], run[i + 1], fd); }
    }
  }

  /** The generation of the fd's registration, then any calls, then an event with that
      generation: when call i registered the fd anew, the event is delivered to nobody and
      the kernel state is to be recreated. */
  method StaleEvent(loop: EpollLoop, fd: int, calls: seq<Call>, got: bv8) returns (ghost run: seq<Moment>)
    requires loop.Valid() && fd in loop.kernel.reg && PlainMask(got)
    modifies loop
    ensures IsHistory(run, calls, fd) && run[0].reg == old(loop.kernel).reg
    ensures run[0].gen == old(loop.kernel).reg[fd].gen
    ensures (exists i :: 0 <= i < |calls| && RegisteredAnew(run[i], calls[i], run[i + 1], fd))
            && Bumps(run, |calls|) < 0x1_0000_0000 ==>
      loop.postfork && 0 <= fd < |loop.anfds| && MomentOf(loop, fd) == run[|calls|]
  {
    var gen := loop.kernel.reg[fd].gen;
    MirrorExact(loop.anfds, loop.watchers, loop.fdchanges[0..], loop.kernel, loop.eperms, loop.moved, !loop.postfork,
                fd);
    run := PerformAll(loop, fd, calls);
    if Bumps(run, |calls|) < 0x1_0000_0000 {
      forall i | 0 <= i < |calls| && RegisteredAnew(run[i], calls[i], run[i + 1], fd)
        ensures run[|calls|].gen != gen
      {
        StaleHistory(run, calls, fd, i, |calls|);
      }
    }
    loop.PollEvent(fd, gen, got);
  }
}
