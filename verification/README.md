# Verified models of libev, memcached and the encryption library

The repository collects C programs. This project models the parts of it with the
most intricate state and arithmetic, each after its own source file, and proves
what those parts are for.

* libev (`c_advanced/06_libev`): the cross-thread wake-up handshake (`WakeUp`), the
  epoll back end as a lazily maintained copy of kernel state (`Epoll`), the 4-ary
  timer heap (`TimerHeap`), the queues of pending watchers (`Pending`), timers
  (`Timers`) and periodics (`Periodics`).
* memcached (`memcached-1.4.32`): the hash table with incremental expansion
  (`Assoc`), its expansion under striped locks (`AssocStripes`), the two-region
  ring buffer (`BipBuffer`), the log pipeline on top of it (`Logger`), and the
  hash function (`Jenkins`).
* The encryption library (`encryption`): AES from the generated tables up
  (`AesField`, `AesTables`, `AesCode`, `AesKeys`, `AesRounds`, `AesBuffers`, `Aes`,
  against `AesCipher` and `RoundCipher`), DES and two-key triple DES (`Feistel`,
  `DesBuffers`, `DesKeys`, `Des`, `DesBoxes`) down to the bits and tables of FIPS 46-3
  (`DesBits`, `DesRound`, `DesStandard`), and MD5 (`Md5Stream`, `Md5`) with the sines its
  constants come from (`Md5Sines`). `Words` and `Powers` hold shared definitions.

Concurrent code is modelled as a state machine in which every shared access is a
step of its own, and results hold for every interleaving. Objects that are
updated in place are classes whose methods are proved against functions on values;
the proofs are lemmas about those functions. Cipher and hash code is written once
over abstract words with the laws it needs, and the 64-bit instance proves the
laws.

`dafny verify dfyconfig.toml` checks everything.

## Where the code falls short of its promise

Four behaviours differ from what the documentation or the surrounding code
leads one to expect. Each has an example and an exact condition.

* **A fork can sleep over a send** (`c_advanced/06_libev/ev.c`, lines 3054 to 3067).
  loop_fork replaces the pipe while an unread byte announces a send, feeds pipe_w
  itself, and the loop then blocks in the same iteration with the watcher pending
  but the pipe empty: `WakeUp.ForkMaySleepOverSend`. With all senders idle at the fork,
  the pipe is empty at the poll exactly when no flag was raised since the fork:
  `WakeUp.IdleForkEmptiesExactly`; `WakeUp.ForkEmptiesExactly` gives the condition for
  forks at which senders are mid-call. The send is not lost, only late:
  `WakeUp.EverySendIsDelivered` covers these states too.
* **A cached mask is zeroed under a live registration**
  (`c_advanced/06_libev/ev_epoll.c`, lines 223 to 235). A descriptor epoll refused,
  replaced by one it accepts, is registered by fd_reify and stays on the refused list;
  the next pass over that list sets its cached mask to 0: `Epoll.EpermPassForgetsMask`.
  Registration and cached mask agree exactly when the cached mask is not 0
  (`Epoll.MirrorExact`), and the pass keeps them equal for exactly the registered fds
  that are not on the list (`Epoll.EpermPassExact`).
* **A poll longer than region A succeeds** (`memcached-1.4.32/bipbuffer.c`, lines 151 to
  161). The header promises NULL when that much data cannot be polled, but only the end of
  the array bounds the length, through a sum that can wrap around:
  `BipBuffer.LongPollSucceeds`. Among the polls that are let through, those within region A,
  and only those, leave the queue without its first bytes: `BipBuffer.PollExact` and
  `BipBuffer.Buffer.Poll`.
* **Short periodic intervals leave the grid** (`c_advanced/06_libev/ev.c`, lines 3362 and
  3363). The base is computed with MIN_INTERVAL and then advanced by the watcher's own
  interval. Below MIN_INTERVAL the result is the next grid point exactly when that base
  is on the grid: `Periodics.ShortIntervalExact`; it need not be:
  `Periodics.ShortIntervalMisses`.

## Model

| member | source | states |
|---|---|---|
| `WakeUp.RunKeeps` | c_advanced/06_libev/ev.c:2426-2539 | In every interleaving of any number of senders with the loop, every reachable state keeps the handshake invariant: a mark that is set has a scan, a sender, a skipped flag, a byte or a pending pipe watcher still to come for it. |
| `WakeUp.UndeliveredIsCovered` | c_advanced/06_libev/ev.c:2426-2539 | In every reachable state, an async or signal mark that has not been fed is about to be scanned, about to have its flag raised, or has its flag up together with a reason for the loop to run pipecb. |
| `WakeUp.NoLostWakeUp` | c_advanced/06_libev/ev.c:3602-3664 | The loop never blocks over a send: with no sender mid-call and a mark outstanding, a blocking backend_poll finds a byte in the pipe, unless loop_fork replaced the pipe in this iteration, and then pipe_w is already pending. |
| `WakeUp.ForkEmptiesExactly` | c_advanced/06_libev/ev.c:3038-3070 | In every iteration in which loop_fork ran, a blocking poll with idle senders has an empty pipe if and only if no call was committed to a wake-up at the fork, none that was about to look at pipe_write_wanted found it set, and no flag is up that was down at the fork. |
| `WakeUp.IdleForkEmptiesExactly` | c_advanced/06_libev/ev.c:3054-3067 | When no sender was past its flag test at the fork: empty if and only if no flag was raised since. What was sent before the fork is not in the new pipe, what is sent after it is. |
| `WakeUp.RaisedSinceHasByte` | c_advanced/06_libev/ev.c:3038-3070 | A flag raised since the fork always has its byte in the new pipe, also when senders were mid-call at the fork. |
| `WakeUp.ForkMaySleepOverSend` | c_advanced/06_libev/ev.c:3054-3067 | A concrete run in which the loop blocks with an async mark set and an empty pipe after loop_fork. |
| `WakeUp.MarksAreOnlyFed` | c_advanced/06_libev/ev.c:2509-2539 | No step of any thread loses a mark: a mark only disappears in the step before its watcher is fed, and the next loop step feeds it. |
| `WakeUp.FedGrowsExactly` | c_advanced/06_libev/ev.c:2509-2539 | A step of a sender feeds nothing; a step of the loop feeds exactly the entry whose mark the step before took, and no step but that one feeds anything. |
| `WakeUp.MarksAreOnlySent` | c_advanced/06_libev/ev.c:4902-4907 | A mark that appears in a step was set by an ev_async_send or ev_feed_signal call on that very watcher, which began in that step. |
| `WakeUp.FedWasSent` | c_advanced/06_libev/ev.c:2509-2539 | In every run, a watcher that has been fed was marked before, and before that somebody sent it: nobody gets EV_ASYNC or a signal that was not sent. |
| `WakeUp.QuietLoopDelivers` | c_advanced/06_libev/ev.c:2476-2539 | From every state that satisfies the invariant with no sender mid-call, the loop alone reaches the feed of each marked watcher in finitely many steps; it is never stuck in a poll on the way unless the pipe was rearmed. |
| `WakeUp.EverySendIsDelivered` | c_advanced/06_libev/ev.c:4902-4907 | The same for every reachable state of every run, including those after a fork: every send is delivered once senders pause and backend_poll returns. |
| `AssocStripes.SameStripe` | memcached-1.4.32/assoc.c:221-225 | One item lock covers a key's old bucket and both primary buckets its items can move to, because the lock table is smaller than the hash table. |
| `AssocStripes.ChosenChainOwnsKey` | memcached-1.4.32/assoc.c:78-90 | Between choosing a table and touching it, a worker's choice stays right: the chosen chain is the one that owns the key, the other one does not hold it. |
| `AssocStripes.RunKeeps` | memcached-1.4.32/assoc.c:210-246 | Every interleaving of workers and the maintenance thread keeps the table invariant: every item is where the routing looks for it, locks are held by one owner, and earlier reads of expanding and expand_bucket stay valid enough. |
| `AssocStripes.EveryStepRefinesMap` | memcached-1.4.32/assoc.c:78-246 | Every step of every run either leaves all lookups unchanged or is one worker's find, insert or delete acting on the map atomically: migration is invisible. |
| `AssocStripes.InsertIsFresh` | memcached-1.4.32/assoc.c:156-202 | A worker that takes its lock to insert a missing key or delete one that is there, or finds out under the lock, acts on a key that is still absent or still present, whatever the maintenance thread did in between. |
| `AssocStripes.ChainsAreExclusive` | memcached-1.4.32/assoc.c:156-202 | Two workers inside an operation never touch the same chain, in either table. |
| `AssocStripes.WorkersAvoidMigration` | memcached-1.4.32/assoc.c:226-234 | While a bucket is being moved, no worker is on that bucket nor on a primary bucket its items go to. |
| `AssocStripes.FreeIsSafe` | memcached-1.4.32/assoc.c:236-239 | When the old table is freed it is empty in every bucket, no worker has chosen it, and one that read expanding earlier will route to the primary table. |
| `AssocStripes.OldTableIsThere` | memcached-1.4.32/assoc.c:81-86 | A worker that chose the old table finds it allocated, and its key there, whenever it gets to act. |
| `Assoc.LinkedUnlink` | memcached-1.4.32/assoc.c:189-196 | Redirecting the link before an item leaves a well-linked chain of all the other items in their order. |
| `Assoc.RoutedLookup` | memcached-1.4.32/assoc.c:78-102 | An item with the key on the routed chain is the item the map has for that key. |
| `Assoc.InsertHolds` | memcached-1.4.32/assoc.c:164-171 | Pushing an item on the routed chain represents the map with that key added, in any state of an expansion. |
| `Assoc.DeleteHolds` | memcached-1.4.32/assoc.c:182-202 | Taking the found item off its chain represents the map without that key. |
| `Assoc.PassedHolds` | memcached-1.4.32/assoc.c:226-235 | Passing a bucket reroutes exactly its own items and no others. |
| `Assoc.Table.Find` | memcached-1.4.32/assoc.c:78-102 | Returns what the map has for the key, or nothing, also in the middle of an expansion. |
| `Assoc.Table.Insert` | memcached-1.4.32/assoc.c:156-180 | The map gains the item; expansion is requested exactly when the count passes one and a half times the table size outside an expansion. |
| `Assoc.Table.Delete` | memcached-1.4.32/assoc.c:182-202 | The map loses the key and nothing else changes. |
| `Assoc.Table.Expand` | memcached-1.4.32/assoc.c:126-145 | The map is unchanged; a failed allocation leaves the table as it was. |
| `Assoc.Table.MoveBucket` | memcached-1.4.32/assoc.c:226-246 | Moving one bucket leaves the map unchanged, advances expand_bucket by one, and ends the expansion exactly after the last bucket. |
| `Assoc.Table.ExpandWhile` | memcached-1.4.32/assoc.c:210-246 | A whole expansion with arbitrary operations between any two bucket moves ends after exactly 2^(hashpower - 1) moves with the map those operations give, and the old table gone. |
| `Epoll.ModifyFrame` | c_advanced/06_libev/ev_epoll.c:70-139 | However epoll_modify ends, it touches no other fd, never shortens the refused list, and kills the fd exactly when it is asked for events on a closed one. |
| `Epoll.ModifyKeepsMirror` | c_advanced/06_libev/ev_epoll.c:70-139 | Afterwards cached mask and generation still mirror the kernel, and an open fd reports exactly the events asked for, or is on the refused list. |
| `Epoll.ModifyGeneration` | c_advanced/06_libev/ev_epoll.c:70-139 | A call that changes a registration gives it the next generation, and one that registers nothing and is not refused keeps the generation. |
| `Epoll.ReifyStepKeeps` | c_advanced/06_libev/ev.c:2095-2119 | One round of fd_reify keeps lists, queue, fd table and kernel consistent, and brings its fd in sync unless it is closed. |
| `Epoll.MirrorExact` | c_advanced/06_libev/ev_epoll.c:70-139 | In every consistent state a registration carries the cached generation, and it carries the cached mask if and only if that mask is not zero. |
| `Epoll.EpermPassExact` | c_advanced/06_libev/ev_epoll.c:223-235 | At the call: where the mirror is exact before the pass over the refused list, it is exact afterwards for exactly the registered fds that are not on that list. |
| `Epoll.EpermPassForgetsMask` | c_advanced/06_libev/ev_epoll.c:223-235 | A concrete call sequence after which a live registration has a cached mask of zero. |
| `Epoll.EpollLoop.IoStart` | c_advanced/06_libev/ev.c:3828-3852 | Starting a watcher links it, grows the fd table by zeroed entries, queues the fd for reification and leaves every other entry alone; all consistency is kept. Starting an active one does nothing. |
| `Epoll.EpollLoop.IoStop` | c_advanced/06_libev/ev.c:3854-3871 | Stopping unlinks the watcher, cancels what was pending for it and queues the fd, also from within fd_reify. |
| `Epoll.EpollLoop.FdKill` | c_advanced/06_libev/ev.c:2139-2150 | Every watcher of the fd is stopped and fed EV_ERROR with both directions; no other watcher is touched. |
| `Epoll.EpollLoop.FdReify` | c_advanced/06_libev/ev.c:2065-2122 | The whole loop, whose queue can grow under it, terminates with an empty queue: every queued fd whose mask changed is registered with exactly its watchers' events, or has lost its watchers because it is closed; everything else is as it was. Whatever is registered anew has the next generation, and no generation moves further. |
| `Epoll.EpollLoop.PollEvent` | c_advanced/06_libev/ev_epoll.c:161-212 | A stale generation asks for a fork and delivers nothing; a registration that reports too much is cut back or removed, and if that fails the kernel state is to be recreated; otherwise every interested watcher, and no other, gets the events it asked for. |
| `Epoll.Perform` | c_advanced/06_libev/ev_epoll.c:70-92 | Of all calls (set, start, stop, reify, event, refused pass, fork, close, reopen) only fd_reify changes the generation of an fd, to the next one, and it always does so when it registers the fd anew. |
| `Epoll.StaleHistory` | c_advanced/06_libev/ev_epoll.c:91-92 | In every history of calls, once an fd has been registered anew, the generation it had at the start is not its generation again within 2^32 - 1 changes. |
| `Epoll.PerformAll` | c_advanced/06_libev/ev_epoll.c:70-92 | Any sequence of calls leaves such a history, from the state before to the state after. |
| `Epoll.StaleEvent` | c_advanced/06_libev/ev_epoll.c:173-183 | After any sequence of calls of which one registered the fd anew, an event with the generation of its first registration sets postfork, reaches no watcher and changes no registration. |
| `Epoll.EpollLoop.FdEvent` | c_advanced/06_libev/ev.c:2029-2054 | Events are delivered to exactly the watchers that asked for them, unless the fd has a change waiting. |
| `Epoll.EpollLoop.PollEperms` | c_advanced/06_libev/ev_epoll.c:223-235 | The backward pass with removal keeps exactly the listed fds that still want events, changes only the masks of the others, and feeds exactly the watchers of the kept ones the events they asked for. |
| `Epoll.EpollLoop.EpollFork` | c_advanced/06_libev/ev_epoll.c:269-282 | A fresh epoll set: no registration survives, every fd with events is queued for registration, consistency is kept. |
| `Epoll.EpollLoop.CloseFd` | c_advanced/06_libev/ev_epoll.c:43-46 | Closing a descriptor behind the loop's back keeps all invariants. |
| `Epoll.EpollLoop.OpenFd` | c_advanced/06_libev/ev_epoll.c:43-46 | So does reopening its number, which is recorded until the loop next registers it. |
| `TimerHeap.TopIsMin` | c_advanced/06_libev/ev.c:3102-3115 | In a 4-ary heap the root is a minimum over all entries. |
| `TimerHeap.UpStep` | c_advanced/06_libev/ev.c:2319-2339 | A step towards the root leaves only the moved entry possibly too early. |
| `TimerHeap.DownStep` | c_advanced/06_libev/ev.c:2240-2281 | A step towards an earliest child leaves only the moved entry possibly too late. |
| `TimerHeap.Heap.Upheap` | c_advanced/06_libev/ev.c:2319-2339 | From an entry that may be too early to a heap of the same timers with back-pointers right. |
| `TimerHeap.Heap.FindMinChild` | c_advanced/06_libev/ev.c:2248-2268 | The unrolled comparison finds an earliest of one to four children. |
| `TimerHeap.Heap.Downheap` | c_advanced/06_libev/ev.c:2240-2281 | From an entry that may be too late to a heap of the same timers with back-pointers right. |
| `TimerHeap.Heap.Adjust` | c_advanced/06_libev/ev.c:2341-2349 | The single comparison picks the right direction for every new key. |
| `TimerHeap.Heap.Reheap` | c_advanced/06_libev/ev.c:2351-2361 | From any order of keys to a heap of the same timers with back-pointers right. |
| `TimerHeap.Heap.Insert` | c_advanced/06_libev/ev.c:3885-3889 | The set of timers gains one entry; heap order and back-pointers hold. |
| `TimerHeap.Heap.Remove` | c_advanced/06_libev/ev.c:3904-3917 | The set of timers loses one entry; heap order and back-pointers hold. |
| `TimerHeap.Heap.Rekey` | c_advanced/06_libev/ev.c:3934-3941 | One timer gets a new time; heap order and back-pointers hold. |
| `TimerHeap.Heap.Top` | c_advanced/06_libev/ev.c:3325 | The first node is a timer with the least time of all, when there is one. |
| `Pending.FedOk` | c_advanced/06_libev/ev.c:1985-2002 | Feeding keeps slots and back-pointers consistent and adds the events to what waits for that watcher. |
| `Pending.ClearedOk` | c_advanced/06_libev/ev.c:3785-3800 | Clearing leaves a dummy in the slot and takes away exactly what waited for that watcher. |
| `Pending.PoppedOk` | c_advanced/06_libev/ev.c:3281-3289 | The last slot of a queue is a dummy or a pending watcher with all that waits for it. |
| `Pending.OwedIsSettled` | c_advanced/06_libev/ev.c:3274-3292 | In any log of feeds, stops and faithful invocations, what is owed to a watcher at some point and not at the end was ended by a stop or by an invocation with at least those events. |
| `Pending.ReplayDelivers` | c_advanced/06_libev/ev.c:3281-3289 | In a drain that leaves nothing owed, such a stop is a callback's and such an invocation is a slot that was taken. |
| `Pending.Loop.FeedEvent` | c_advanced/06_libev/ev.c:1985-2002 | What is owed to the watcher grows by the events fed, and draining restarts at the top priority. |
| `Pending.Loop.ClearPending` | c_advanced/06_libev/ev.c:3774-3800 | Nothing is owed to the watcher any more; it will not be invoked for what was fed before. |
| `Pending.Loop.InvokePending` | c_advanced/06_libev/ev.c:3274-3292 | With callbacks that feed and stop watchers as they like, the drain ends with nothing owed, and all that happened is the slots taken, in order, each followed by what its callback did. Whatever was owed at the start or in between was handed to its watcher, unless a callback stopped it; every invocation was of a watcher of the highest waiting priority, with exactly the events fed since its last invocation or stop. |
| `Timers.ReifyStep` | c_advanced/06_libev/ev.c:3328-3350 | Handling the earliest expired timer keeps the record of what fired: each once, in order of expiry. |
| `Timers.TwiceReversed` | c_advanced/06_libev/ev.c:2004-2017 | Feeding backwards and popping from the end restores expiry order in each priority. |
| `Timers.ByPriorityIsInOrder` | c_advanced/06_libev/ev.c:3274-3292 | Draining priority by priority takes each timer once, by priority and then by expiry. |
| `Timers.Loop.TimeUpdate` | c_advanced/06_libev/ev.c:3466-3474 | The clock may move to any reading; timers and queues stay valid. |
| `Timers.Loop.TimerStart` | c_advanced/06_libev/ev.c:3873-3895 | A stopped timer is scheduled its relative time from now; an active one is left alone. |
| `Timers.Loop.TimerStop` | c_advanced/06_libev/ev.c:3897-3925 | The timer is off the heap, owed nothing, and its time is relative again. |
| `Timers.Loop.TimerAgain` | c_advanced/06_libev/ev.c:3927-3952 | A repeating timer is rescheduled from now, a one-shot one stopped, nothing stays owed to it, and no other watcher loses what it is owed. |
| `Timers.Loop.FeedReverseDone` | c_advanced/06_libev/ev.c:2011-2017 | Each watcher on the list gets EV_TIMER, and the queues become the reversed list split by priority. |
| `Timers.Loop.TimersReify` | c_advanced/06_libev/ev.c:3319-3355 | Exactly the expired timers fire, each once, in order of expiry; a repeating one is rescheduled at the least time that is not before now and at least a period after its old one, others are gone; afterwards no timer is expired. |
| `Timers.Loop.ReifyAndInvoke` | c_advanced/06_libev/ev.c:3319-3355 | Reifying and then draining invokes every expired timer exactly once, higher priorities first and equal priorities in nondecreasing expiry. |
| `Periodics.Recalc` | c_advanced/06_libev/ev.c:3359-3381 | The loop ends with a time strictly after now. |
| `Periodics.RecalcIsLeast` | c_advanced/06_libev/ev.c:3359-3381 | For intervals of at least MIN_INTERVAL the result is the least offset + k * interval after now. |
| `Periodics.ShortIntervalExact` | c_advanced/06_libev/ev.c:3362-3363 | For shorter intervals it is that least time if and only if the base computed with MIN_INTERVAL happens to lie on the grid. |
| `Periodics.ShortIntervalMisses` | c_advanced/06_libev/ev.c:3362-3363 | An interval and a time for which it is not. |
| `Periodics.Periodic.Reschedule` | c_advanced/06_libev/ev.c:3427-3446 | After a time jump every periodic has its new time, the least grid point after now for intervals of at least MIN_INTERVAL, and the heap is valid again. |
| `BipBuffer.AdvancedOk` | memcached-1.4.32/bipbuffer.c:91-107 | Writing keeps the shape of the two regions, where B is in use exactly when there is more room in front of A than behind it, and costs no more room than it takes. |
| `BipBuffer.AdvancedQueue` | memcached-1.4.32/bipbuffer.c:109-128 | Writing appends to the byte queue, whichever region it goes to. |
| `BipBuffer.ConsumedQueue` | memcached-1.4.32/bipbuffer.c:151-180 | Consuming removes from the front of the byte queue, also when region B becomes A. |
| `BipBuffer.PollExact` | memcached-1.4.32/bipbuffer.c:151-161 | Of the polls the bound check lets through, wrap-around included, exactly those no longer than region A remove the front of the queue. |
| `BipBuffer.LongPollSucceeds` | memcached-1.4.32/bipbuffer.c:151-161 | A buffer of two bytes that holds one lets a poll of two through, and is left in no valid shape. |
| `BipBuffer.Buffer.Used` | memcached-1.4.32/bipbuffer.c:37-40 | The number of bytes in the queue. |
| `BipBuffer.Buffer.IsEmpty` | memcached-1.4.32/bipbuffer.c:63-66 | True exactly when the queue has no bytes. |
| `BipBuffer.Buffer.Request` | memcached-1.4.32/bipbuffer.c:77-89 | Grants a place exactly when the room is there; the place is where the queue will grow. |
| `BipBuffer.Buffer.Push` | memcached-1.4.32/bipbuffer.c:91-107 | The bytes written at the granted place join the queue, all or none. |
| `BipBuffer.Buffer.Offer` | memcached-1.4.32/bipbuffer.c:109-128 | All of the bytes are appended to the queue, or none. |
| `BipBuffer.Buffer.Peek` | memcached-1.4.32/bipbuffer.c:130-140 | What a peek within region A shows is the front of the queue. |
| `BipBuffer.Buffer.PeekAll` | memcached-1.4.32/bipbuffer.c:142-149 | Shows the longest contiguous front of the queue, and nothing exactly when it is empty. |
| `BipBuffer.Buffer.Poll` | memcached-1.4.32/bipbuffer.c:151-180 | For every length: when it succeeds and when it fails, and that it removes the front of the queue if and only if the length is within region A. |
| `Logger.AddedFramed` | memcached-1.4.32/logger.c:604-682 | A pushed entry keeps both regions cut into whole entries and is appended to them, even when the writer filled more of the room than it pushed. |
| `Logger.RemovedFramed` | memcached-1.4.32/logger.c:320-324 | Polling the bytes of the first entries removes just those entries. |
| `Logger.LogStep` | memcached-1.4.32/logger.c:604-682 | Logging does not disturb what a reader peeked without the lock. |
| `Logger.ParseStep` | memcached-1.4.32/logger.c:305-318 | Following the size fields visits every entry and never runs past the end. |
| `Logger.BothFit` | memcached-1.4.32/logger.c:226-267 | When a line and 128 more bytes fit, the line still fits after the note about skipped lines, also if writing the note switched regions. |
| `Logger.Worker.Log` | memcached-1.4.32/logger.c:604-682 | The entry is appended exactly when its room is granted; otherwise nothing changes but the dropped counter. |
| `Logger.Worker.Read` | memcached-1.4.32/logger.c:289-332 | With workers logging between any two steps of the reader, it returns exactly the entries that were in region A, in order, whole; the entries left are the rest and the ones logged meanwhile, and the written counter is handed over without loss. |
| `Logger.Watcher.Flush` | memcached-1.4.32/logger.c:396-432 | The socket is given as much of the contiguous front as it takes; sent and kept bytes together are the queue. |
| `Logger.Watcher.WriteLine` | memcached-1.4.32/logger.c:226-267 | Either note and line are queued whole, in that order, or nothing is and the line is counted as skipped; in both cases sent and kept bytes together are all that was queued. A line that fits at once is queued; one is skipped only after an earlier failed flush, or when the socket refuses at some try, or when not even an empty buffer has the room. |
| `AesField.LogOfPower` | encryption/aes.c:93-97 | The first 255 powers of 3 are distinct: the log table recovers the exponent. |
| `AesField.PowerOfLog` | encryption/aes.c:93-97 | Every nonzero byte is a power of 3. |
| `AesField.MulIsProduct` | encryption/aes.c:81 | The logarithm product is shift-and-xor multiplication modulo the AES polynomial, for all pairs of bytes. |
| `AesField.InverseIsInverse` | encryption/aes.c:115 | pow[255 - log[x]] is the multiplicative inverse in the field. |
| `AesField.XTimeBits` | encryption/aes.c:80 | XTIME is multiplication by x modulo x^8 + x^4 + x^3 + x + 1, stated for each bit. |
| `AesField.SBoxIsFips` | encryption/aes.c:110-127 | The S-box is that of section 5.1.1 of FIPS 197: each bit is the sum of five bits of the multiplicative inverse (0 for 0) and a bit of 0x63. |
| `AesField.SBoxInverse` | encryption/aes.c:110-127 | Forward and reverse S-box are inverse to each other, both ways. |
| `AesField.AesLawful` | encryption/aes.c:78-81 | Byte arithmetic of AES satisfies the laws inversion rests on; in particular InvMixColumns undoes MixColumns entry by entry. |
| `AesCipher.MixColInverse` | encryption/aes.c:147-156 | InvMixColumns undoes MixColumns on every column. |
| `AesCipher.PartsLawful` | encryption/aes.c:602-775 | AES is an instance of the key-alternating scheme. |
| `RoundCipher.DecryptEncrypt` | encryption/aes.c:559-596 | For any key-alternating cipher, the equivalent inverse cipher with the inverted schedule undoes encryption, for every schedule and block. |
| `AesTables.PowersAndLogs` | encryption/aes.c:93-97 | The in-place loop leaves the power table and, with the last write to log[1], the logarithm table. |
| `AesTables.MulAtIsMul` | encryption/aes.c:81 | The macro on the tables, where log[1] is 255, is the logarithm product. |
| `AesTables.GenTables` | encryption/aes.c:83-158 | All eleven generated tables hold what FIPS 197 prescribes: S-boxes, the forward one by the bits of section 5.1.1, round constants, and the columns of MixColumns and InvMixColumns of each substituted byte. |
| `AesCode.GatherForward` | encryption/aes.c:617-636 | Four table look-ups and four exclusive ors are SubBytes, MixColumns and AddRoundKey of one column. |
| `AesCode.GatherReverse` | encryption/aes.c:706-725 | The same for the inverse round. |
| `AesCode.KeyMixIs` | encryption/aes.c:566-588 | The KT tables apply InvMixColumns to a word of the key schedule. |
| `AesKeys.InvertSchedule` | encryption/aes.c:559-596 | The walk back through the round keys builds the schedule of the equivalent inverse cipher. |
| `AesKeys.SetKey` | encryption/aes.c:447-597 | For 128, 192 and 256 bits both schedules are those of FIPS 197, section 5.2 and 5.3.5. |
| `AesRounds.EncryptIsFips` | encryption/aes.c:602-686 | Table-driven encryption is the cipher of FIPS 197, section 5.1, for all three key lengths. |
| `AesRounds.DecryptIsFips` | encryption/aes.c:691-775 | Table-driven decryption is the equivalent inverse cipher of section 5.3.5. |
| `AesRounds.CipherInverts` | encryption/aes.c:691-775 | Decryption inverts encryption, for every key and every block. |
| `AesBuffers.ProcessBuffer` | encryption/aes.c:831-869 | The loop, the partial block and the extra pass over block 0, into another buffer or in place: every block of the output is the block function of the input block, and block 0 goes through it twice exactly when the call is in place and the length is not 0. |
| `AesBuffers.BlocksRoundTrip` | encryption/aes.c:831-869 | Decrypting the encrypted blocks gives the buffer back if and only if block 0 comes back. |
| `Aes.GenKeyTables` | encryption/aes.c:545-556 | KT0 to KT3 hold the InvMixColumns column of each byte. |
| `Aes.CodeLawful` | encryption/aes.c:436-597 | The tables as generated give the round code everything it relies on. |
| `Aes.Library.Encrypt` | encryption/aes.c:831-849 | The output holds the FIPS 197 cipher of every block the call touches, twice for block 0 when the call is in place, and nothing beyond is written. |
| `Aes.Library.Decrypt` | encryption/aes.c:851-869 | The same for the inverse cipher. |
| `Aes.Library.RoundTrip` | encryption/aes.c:831-869 | For every key, length and content, from the generated tables up: decrypting what was encrypted restores every byte if and only if both calls are in place, or neither is, or the length is 0, or one more pass does not change block 0. |
| `Des.PermutationsInverse` | encryption/des.c:257-280 | The two permutation macros are inverse to each other on 32-bit halves, both ways. |
| `Des.CodeLawful` | encryption/des.c:285-298 | The round macro and the permutations meet what the Feistel scheme needs, for all 32-bit S-box contents. |
| `DesBits.IpIsFips` | encryption/des.c:257-267 | Bit n of each half after DES_IP is the bit of the block that the table IP of FIPS 46-3 selects. |
| `DesBits.MacroLooksUp` | encryption/des.c:285-298 | Whatever the S-boxes hold, the round macro looks each of them up at the six bits that the table E selects from the half block, added to the bits of the subkey. |
| `DesKeys.Pc1Is` | encryption/des.c:309-326 | The exchanges and the two look-up tables put each bit of the key where permuted choice 1 of FIPS 46-3 puts it. |
| `DesKeys.RotlShifts` | encryption/des.c:331-340 | The 28-bit rotations are the left shifts of the standard. |
| `DesKeys.Pc2At` | encryption/des.c:342-365 | The masks and shifts put each of the 48 bits of permuted choice 2 where the round macro looks for the input of its S-box. |
| `DesKeys.MainKsIsFips` | encryption/des.c:300-367 | For every key, every bit of all sixteen subkeys is the key bit that FIPS 46-3 selects. |
| `DesKeys.FillSubkeys` | encryption/des.c:300-367 | The sixteen turns write that schedule and nothing beyond. |
| `DesBits.InputsAreFips` | encryption/des.c:285-367 | With the schedule of des_main_ks, what the macro gives each S-box in each round is E(R) plus the subkey of FIPS 46-3. |
| `DesRound.TablesHold` | encryption/des.c:75-253 | Every entry of SB1 to SB8 is the output of that S-box of FIPS 46-3, at the places where the permutation P sends its bits. |
| `DesRound.MacroIsFips` | encryption/des.c:285-298 | For every key, round and half block, what DES_ROUND adds is the cipher function f(R, K) of FIPS 46-3, bit by bit. |
| `DesStandard.CryptIsDes` | encryption/des.c:385-407 | For every key and block, every bit of the output of des_crypt is the bit that FIPS 46-3 defines by the initial permutation, sixteen rounds and the inverse permutation. |
| `Feistel.CryptUndone` | encryption/des.c:385-407 | Reversed subkeys decrypt, for every schedule and block. |
| `Feistel.FusedIsThreePasses` | encryption/des.c:526-566 | des3_crypt, which permutes once and swaps halves between its three loops, is three whole passes of des_crypt. |
| `Feistel.TwoKeyIsEde` | encryption/des.c:477-498 | With the subkeys of des3_set_2keys that is encrypt, decrypt, encrypt. |
| `Feistel.TwoKeyUndone` | encryption/des.c:526-566 | Two-key decryption undoes two-key encryption. |
| `Feistel.EqualHalvesCollapse` | encryption/des.c:477-498 | With equal key halves triple DES is single DES, both ways. |
| `DesBuffers.FillReversed` | encryption/des.c:372-383 | des_set_key reverses the subkeys pair by pair. |
| `DesBuffers.FillTwoKeys` | encryption/des.c:477-498 | The interleaved writes, which read what earlier turns wrote, leave both triple schedules. |
| `DesBuffers.BlockUndone` | encryption/des.c:755-775 | Decrypting an encrypted block gives the block, single and triple, for every key. |
| `DesBuffers.EqualHalves` | encryption/des.c:755-775 | Equal key halves make the triple call the single call. |
| `DesBuffers.LibBuffer` | encryption/des.c:780-890 | Every whole block of the output is the cipher of the block of the zero-padded input, only inlen bytes are written, and input and output may be the same buffer. |
| `DesBuffers.RoundTrip` | encryption/des.c:780-890 | Decrypting what was encrypted restores all whole blocks, and everything when the length is a multiple of eight. |
| `Des.LibRoundTrip` | encryption/des.c:780-890 | The same for the 64-bit code with its own key schedule, permutations and byte packing. |
| `DesStandard.BlockIsDes` | encryption/des.c:755-775 | For each of the four operations the block written is related to the block read by DES, or by encrypt, decrypt, encrypt with the two key halves, as FIPS 46-3 defines them; decryption is that relation read backwards. |
| `DesStandard.LibDes` | encryption/des.c:780-890 | From the tables in the file up: every whole block the library writes is DES or triple DES of its input block, for every key, either way, also in place; nothing beyond inlen is written. |
| `Md5.CutMaps` | encryption/md5.c:49-103 | Arithmetic on 64-bit words that are never masked agrees on the low halves with 32-bit arithmetic, for every operation the rounds use. |
| `Md5Sines.GivesSine` | encryption/md5.c:82-164 | A number that passes a check in whole numbers against the tabulated point of the circle is the integer part of 4294967296 times the absolute value of the sine, whose value at 1 is given by its series and at n by adding angles. |
| `Md5.TableIsRfc` | encryption/md5.c:82-164 | The 64 lines have the round, word index and shift of section 3.4 of RFC 1321, and additive constant i is the integer part of 4294967296 times the absolute value of the sine of i. |
| `Md5.ProcessIsRfc` | encryption/md5.c:49-170 | On 32-bit words the 64 calls of the macro, which take turns with the registers, are the 64 operations of the RFC on four named registers that move by one place each. |
| `Md5.LongProcessIsRfc` | encryption/md5.c:49-170 | Processing a block is the RFC's on the low halves, whatever is above them. |
| `Md5Stream.LengthBytes` | encryption/md5.c:233-238 | The length words stored by md5_finish are the bit count modulo 2^64, for messages of any length. |
| `Md5Stream.Context.Update` | encryption/md5.c:175-214 | The context absorbs the bytes however the message is cut; the counters follow through their carries. |
| `Md5Stream.Context.Finish` | encryption/md5.c:227-250 | The digest is the fold over the padded message. |
| `Md5Stream.DigestPieces` | encryption/md5.c:281-289 | Any number of updates of any sizes digests the concatenation. |
| `Md5.Csum` | encryption/md5.c:281-289 | The sixteen output bytes are the MD5 digest of RFC 1321 of the concatenated pieces. |
| `Jenkins.MixIsRun` | memcached-1.4.32/jenkins_hash.c:78-87 | The straight-line assignments of mix are its list of reversible steps, for any word arithmetic. |
| `Jenkins.FinalIsRun` | memcached-1.4.32/jenkins_hash.c:114-123 | The same for final. |
| `Jenkins.MixIsBijective` | memcached-1.4.32/jenkins_hash.c:78-87 | mix can be undone: it is a bijection of triples of 32-bit words, both ways. |
| `Jenkins.FinalIsBijective` | memcached-1.4.32/jenkins_hash.c:114-123 | So is final. |
| `Jenkins.PathsAgree` | memcached-1.4.32/jenkins_hash.c:126-297 | Reading by words, by halves and by bytes absorb the same values, in full blocks and in every tail. |
| `Jenkins.DigestInside` | memcached-1.4.32/jenkins_hash.c:155-181 | Bytes beyond the key in memory, which the word path reads and masks off, do not matter. |
| `Jenkins.HashWith` | memcached-1.4.32/jenkins_hash.c:140-156 | The loop and the final switch compute the fold over twelve-byte blocks. |
| `Jenkins.Seed` | memcached-1.4.32/jenkins_hash.c:134 | The three words start as 0xdeadbeef plus the length, modulo 2^32, though the length is cut first. |
| `Jenkins.JenkinsHash` | memcached-1.4.32/jenkins_hash.c:126-297 | The hash depends only on the bytes of the key: not on its address, nor on what follows it in memory. |

## Left out

libev

- Weak memory: the fences are taken to give sequentially consistent accesses; reorderings they might allow are not modelled.
- System calls, clocks and the scheduler appear as choices of the environment; other back ends (select, poll, kqueue, port), inotify, child, embed, stat and idle watchers are not modelled.
- Timestamps are real numbers: rounding, and with it the branch of periodic_recalc for additions that change nothing, is not modelled.
- Timers.Loop.TimeUpdate: models the reading of the monotonic clock, not the detection of time jumps in the rest of time_update.
- Epoll: a positive result of epoll_wait is one call of PollEvent for each event; growing the event array, timeouts, and memory failure inside array_needsize are not modelled.
- Epoll.EpollLoop.IoStart: requires the fd and event mask that the code asserts.
- Pending.Loop.InvokePending: callbacks are given by a finite script of what each invocation does, because a callback that always feeds itself never ends the drain.
- Modifying an active watcher and changing a priority while active are misuse the documentation forbids, and not modelled.
- periodics_reify repeats the shape of timers_reify with another clock and would add no harder result.

memcached

- AssocStripes: the maintenance thread's sleep and its condition variable are not modelled; the pausing of all workers around assoc_expand is a guard of that step, and the mutex operations are single steps.
- Assoc.Table.Insert and Assoc.Table.Delete: require a key that is absent or present, as the assertions in the code do; AssocStripes.InsertIsFresh shows that callers that look first meet this.
- Items themselves (slabs, reference counts, LRU lists, expiry), the protocol, the crawler and the cache allocator.
- BipBuffer: negative lengths of bipbuf_request, bipbuf_push and bipbuf_offer, whose parameters are signed, and buffers of 2 GB and more.
- Logger: formatting of entries and lines, the branch for a failed vsnprintf, the closing of watchers on socket errors, and the unlocked read of the dropped counter.
- Jenkins: the big-endian variant.

Encryption

- Aes.Library.Encrypt, Aes.Library.Decrypt: input and output are the same buffer or different ones, not partly overlapping ones; key sizes other than 128, 192 and 256 bits, which leave the schedules incomplete, are not modelled.
- The build of aes.c with precomputed tables, CBC modes, HMAC and the disabled self-check code.
- DesBuffers.RoundTrip: a last partial block is cut to the input length when encrypted and cannot be restored; the promise is for whole blocks.
- DES calls with more than 1024 bytes, the size of the local buffers the code copies into.
- Md5Sines.GivesSine: holds for all reals with the series of the sine and cosine of 1; that such reals exist takes limits, which the logic does not have.
- Keys left in memory after a call, and timing.

The rest of the repository (board and driver programs, the other bundled programs and
libraries such as ppp, mini_httpd, i2c-tools, json-c, cJSON and libuv, and small
applications) is not modelled: its logic is mostly input and output, or would only add
easier members.
