# Runloom, modelled and proved

Runloom is a work-stealing fiber runtime: a C core (deques, channels, stacks) under a Python
library (locks, futures, contexts, timers). This project models the parts of it whose
correctness depends on how concurrent steps interleave or on how memory is moved, and proves
properties of every run of those models.

Every component has the same shape. Pure functions give the effect of one atomic action or one
guarded section. A `State` with an `Action` type and `Step` interleaves those of any number of
fibers, threads or thieves; an action that is not possible at that point changes nothing, so
`Exec(Init, run)` over all action sequences `run` is exactly the set of reachable states. An
inductive invariant (`Reachable`) carries the theorems: what no run ever breaks, and (the
`Outcomes` lemmas and their like) what each operation answers and when it may refuse. Beside that stands a class with the
source's own fields whose methods update them in place, with the source's loops, each proved equal
to the pure function. `park()` may return at any time, for no reason; wakes are issued after the
guard is released, one at a time, in any order.

| file | models |
|---|---|
| `ClDeque.dfy` | the Chase-Lev deque, one step per atomic load, store or compare-and-swap |
| `Chan.dfy`, `ChanRing.dfy` | channels: send, receive, close, the queues shared with selects, the ring buffer |
| `Select.dfy` | one blocking select over any number of channels against its peers |
| `RWMutex.dfy`, `Semaphore.dfy`, `WaitGroup.dfy`, `Future.dfy`, `Once.dfy`, `Watch.dfy`, `Singleflight.dfy` | the park/wake primitives |
| `Context.dfy`, `DeadlineWaker.dfy` | the cancellation tree, and the handshake with a deadline's fiber |
| `Timer.dfy` | timer generations |
| `StackGrow.dfy` | copy-on-grow of a suspended stack |
| `Magazine.dfy`, `StackPools.dfy` | per-thread stack caches with a shared depot; the linked lists that hold them |
| `Arena.dfy` | the bump-cursor stack arena |
| `Seqs.dfy`, `Options.dfy` | sequences without repetition, filtered sequences, `Option` |

## What the code does not promise

Some properties that the source's comments suggest hold only under a condition. For each there is
a lemma saying exactly when, and one showing that the other case is reachable.

- `Watch.wait_changed(seen)` can be left parked for good although the version has passed `seen`:
  a `set()` dequeues the waiter, which re-parks without queueing again if that version is not yet
  above `seen`. This can happen if and only if `seen` is above the version at the call
  (`StrandsExactlyWhenAhead`).
- A select resumed by something other than its winner's wake, between that winner's claim and
  its write of the value, can return as if nothing had been delivered, because the eviction skips the
  fired case and so need not wait for the winner's channel lock. At the read of the claim word
  this is possible if and only if the winner is in that window and no other case of the select is
  on its channel (`DropsExactlyMidDelivery`). Likewise the select can free a waiter that the winner
  still writes to, or reads for its wake, if and only if the winner has not finished and is alone
  on its channel (`OutlivedExactlyMidPeer`). Before the call: some run of a select goes wrong in
  either way if and only if one of its cases has a channel to itself (`UnsafeExactlyWithALoneCase`).
  When every resume is the winner's wake neither happens (`RealWakesAreSafe`).
- Copy-grow shifts words that point into `[lo, hi)`. A pointer equal to `hi`, from which live
  words are addressed with negative displacements, is left behind (`HopSurvivesExactly`,
  `PastTheEndIsLost`).
- A cancel whose kick falls between the deadline fiber's last look at the error and its park is
  lost, and that fiber lingers until the original deadline (`LingersExactlyInTheGap`).

## Model

| member | source | states |
|---|---|---|
| `ClDeque.StepRefines` | src/runloom_c/cldeque.c:35-109 | forward simulation: every atomic step of every run leaves the abstract deque alone or does to it what the bounded sequential deque does for the recorded outcome (push at the newest end, pop the newest, steal the oldest, full, empty) |
| `ClDeque.Linearizable` | src/runloom_c/cldeque.c:35-109 | the recorded history of every run is legal for the sequential deque (pop NULL only when empty, push -1 only when full), ends in the present entries, and matches what the owner's last call returned |
| `ClDeque.SpeculativeReadIsSafe` | src/runloom_c/cldeque.c:90-109 | whenever a thief's compare-and-swap is about to succeed, the entry it loaded earlier is the oldest present one, despite wraparound and index reuse |
| `ClDeque.Conservation` | src/runloom_c/cldeque.c:35-109 | per pushed ticket: returned by exactly one pop or steal, or present exactly once; nothing unpushed is ever returned; `bottom - top` stays within the capacity |
| `ClDeque.RingNeverOverfull` | src/runloom_c/cldeque.c:37-49 | `bottom - top` never exceeds the capacity, also while a pop has lowered `bottom` |
| `ClDeque.LegalConserves` | src/runloom_c/cldeque.h:42-51 | any legal history of the sequential deque conserves entries: pushed = taken + present |
| `ClDeque.StoreKeepsContent` | src/runloom_c/cldeque.c:37-49 | the slot store of a push never overwrites a live slot |
| `ClDeque.OwnerContent` | src/runloom_c/cldeque.c:35-88 | the owner's steps append or remove exactly at the newest end, at the step that decides the call |
| `ClDeque.ThiefContent` | src/runloom_c/cldeque.c:90-109 | a thief's step removes exactly the oldest entry, and only by a successful compare-and-swap |
| `ClDeque.TicketsStayFresh` | src/runloom_c/cldeque.c:35-52 | each ticket is pushed at most once, so conservation is per push and not per index |
| `ClDeque.NullStealHasCause` | src/runloom_c/cldeque.c:90-109 | in every reachable state a steal answers NULL only on an empty deque, after `top` moved past the index it read, or when the one entry present is reserved by a pop |
| `ClDeque.StealAlone` | src/runloom_c/cldeque.c:90-109 | a steal run alone beside an idle owner takes the oldest entry, and answers NULL exactly when there is none |
| `ClDeque.OwnerAlone` | src/runloom_c/cldeque.c:35-88 | a push or pop run to its end from any reachable moment, thieves standing anywhere, answers and leaves what the sequential deque does: -1 exactly when full, NULL exactly when empty, else the newest entry |
| `ClDeque.WaitFree` | src/runloom_c/cldeque.c:35-109 | every own step of a call uses up one of at most six (four for a steal), whatever the others do |
| `ClDeque.Deque.OwnerStep` | src/runloom_c/cldeque.c:35-88 | one atomic action of push or pop, in place, equals the owner's step function |
| `ClDeque.Deque.ThiefStep` | src/runloom_c/cldeque.c:90-109 | one atomic action of steal, in place, equals the thief's step function |
| `Chan.FifoBothWays` | src/runloom_c/chan.c:3-23 | in every run of sends, receives, closes and selects: delivered values, then the ring, then live parked senders spell the sends not lost in arrival order; likewise for receives |
| `Chan.NthToNth` | src/runloom_c/chan.c:3-23 | the n-th send that is not lost is delivered to the n-th receive that is not lost |
| `Chan.ParkedImplies` | src/runloom_c/chan.c:3-23 | a live parked receiver means an empty ring and no live parked sender (unless both are of one select), a live parked sender a full ring, closed means nobody parked |
| `Chan.OpenLosesOnlySelects` | src/runloom_c/chan_ops.c.inc:30-196 | while the channel is open only waiters of selects are ever lost; a plain send or receive stays queued until served |
| `Chan.CloseWakesLive` | src/runloom_c/chan_ops.c.inc:214-242 | draining a queue at close wakes live waiters only: every plain one, and every select with a waiter there, each select once |
| `Chan.RecvOutcomes` | src/runloom_c/chan_ops.c.inc:120-196 | a receive gets the oldest value exactly when the ring or the live senders have one, answers closed exactly when neither has and the channel is closed, and otherwise parks, would block or is refused by its mode |
| `Chan.SendOutcomes` | src/runloom_c/chan_ops.c.inc:30-94 | a send is refused exactly when closed, handed over exactly when a live receiver is parked, buffered exactly when there is none and there is room, and otherwise decided by its mode |
| `Chan.CloseOutcomes` | src/runloom_c/chan_ops.c.inc:214-242 | a close is refused exactly when closed; otherwise it empties both queues and returns to be woken every plain waiter and every select with a live waiter, each once over both queues, and nobody else |
| `Chan.InstallOutcomes` | src/runloom_c/chan_select_main.c.inc:100-209 | a select queues a waiter only if a non-blocking attempt would block or meet only itself, and refuses only on a closed or ready channel |
| `Chan.PopTakesFirst` | src/runloom_c/chan_waiters.c.inc:87-98 | popping takes the first live waiter and leaves the suffix behind it; none left means all were tombstones |
| `Chan.Burial` | src/runloom_c/chan_waiters.c.inc:49-62 | claiming selects loses exactly their other waiters and leaves the order of everyone else |
| `Chan.ServeFirst` | src/runloom_c/chan_waiters.c.inc:87-98 | serving the first live waiter puts it through next in arrival order |
| `Chan.SendMeetsReceiver` | src/runloom_c/chan_ops.c.inc:30-94 | a send hands over only when no value and no other live sender is ahead of it |
| `Chan.RecvMeetsSender` | src/runloom_c/chan_ops.c.inc:120-196 | a receive that takes a parked sender's value leaves no live receiver waiting behind |
| `Chan.LiveEvicted` | src/runloom_c/chan_select_helpers.c.inc:154-195 | eviction removes exactly the select's own waiter and keeps the others' order |
| `Chan.Channel.PopFrom` | src/runloom_c/chan_waiters.c.inc:87-98 | the popping loop equals `PopClaimable` |
| `Chan.Channel.SendLocked` | src/runloom_c/chan_ops.c.inc:30-94 | send under the lock: closed, hand over, buffer, would block, no fiber, or park |
| `Chan.Channel.TakeLocked` | src/runloom_c/chan_ops.c.inc:120-196 | taking from a non-empty ring and refilling it from the first parked sender |
| `Chan.Channel.RecvLocked` | src/runloom_c/chan_ops.c.inc:120-196 | receive under the lock, all outcomes |
| `Chan.Channel.Drain` | src/runloom_c/chan_ops.c.inc:214-242 | the waking loop of close equals `WakeAll` |
| `Chan.Channel.CloseLocked` | src/runloom_c/chan_ops.c.inc:214-242 | close: senders then receivers woken, queues emptied, second close refused |
| `Chan.Channel.InstallSendLocked` | src/runloom_c/chan_select_main.c.inc:100-168 | a select's sender is queued unless the send could go through now |
| `Chan.Channel.InstallRecvLocked` | src/runloom_c/chan_select_main.c.inc:169-209 | a select's receiver is queued unless the receive could go through now |
| `Chan.Channel.Unlink` | src/runloom_c/chan_select_helpers.c.inc:172-193 | the walk that unlinks one waiter equals `Evicted` |
| `Chan.Channel.EvictLocked` | src/runloom_c/chan_select_helpers.c.inc:154-195 | eviction of a select's waiter from the channel |
| `ChanRing.Ring.Push` | src/runloom_c/chan_waiters.c.inc:163-168 | appends at the tail index, modulo the capacity |
| `ChanRing.Ring.Pop` | src/runloom_c/chan_waiters.c.inc:170-177 | removes the oldest value and clears its slot |
| `ChanRing.Ring.Traverse` | src/runloom_c/chan.c:191-200 | visits exactly the buffered values, oldest first |
| `ChanRing.Ring.Clear` | src/runloom_c/chan.c:202-214 | drops each buffered value once, oldest first, leaving a well-formed empty ring of NULL slots |
| `Select.ClaimedOnce` | src/runloom_c/chan_waiters.c.inc:49-62 | at most one peer's claim of a select ever succeeds, none after the select claimed itself, and what it returns is what that peer delivered |
| `Select.SelectDecides` | src/runloom_c/chan_select_main.c.inc:100-351 | with no peer inside a lock the select alone reaches its verdict: it returns the case delivered to, starts over if there was no delivery or its re-check found a channel ready and nobody claimed it, and parks otherwise |
| `Select.PeerDecides` | src/runloom_c/chan_waiters.c.inc:49-62 | a peer that popped a waiter claims the select exactly when nobody has, then writes and wakes; otherwise it changes nothing |
| `Select.RealWakesAreSafe` | src/runloom_c/chan_select_main.c.inc:211-351 | if every resume is the winner's wake, no delivery is dropped and no peer still uses a waiter when the select frees them |
| `Select.DropsExactlyMidDelivery` | src/runloom_c/chan_select_main.c.inc:266-351 | at the read of the claim word a delivery can still be dropped if and only if a peer is between its claim and its write and no other case is on its channel |
| `Select.OutlivedExactlyMidPeer` | src/runloom_c/chan_select_main.c.inc:266-351 | at that read a peer can outlive the freed waiters if and only if it has won and not finished its wake and no other case is on its channel |
| `Select.UnsafeExactlyWithALoneCase` | src/runloom_c/chan_select_main.c.inc:100-351 | for every list of channels: some run drops a delivery, and some run frees a waiter in use, if and only if some case has a channel to itself |
| `Select.NobodyAloneIsSafe` | src/runloom_c/chan_select_helpers.c.inc:154-195 | if no case has a channel to itself, no run does either, whatever resumes it: the eviction waits for the fired case's channel through another case |
| `Select.ReachesWindow` | src/runloom_c/chan_select_main.c.inc:218-266 | for every case of every select, a run with one spurious resume that reaches the window |
| `Select.DoneBeforeThePeer` | src/runloom_c/chan_select_main.c.inc:266-351 | from there, a continuation in which the select is done before the peer moves |
| `Select.SecureForever` | src/runloom_c/chan_select_main.c.inc:266-293 | once the eviction has passed the channels' locks, or will before it ends, no later step drops a delivery |
| `Select.CleanForever` | src/runloom_c/chan_select_main.c.inc:266-351 | likewise no later step frees a waiter in use |
| `RWMutex.Exclusion` | src/runloom/sync.py:647-725 | in every run: at most one writer owns the lock, returned or not; it excludes readers; counters equal the holder sets, a free lock has empty queues |
| `RWMutex.FastPathOvertakesNobody` | src/runloom/sync.py:683-691 | the fast path of `lock()`, which never looks at the queues, succeeds only when they are empty |
| `RWMutex.NoLostWake` | src/runloom/sync.py:647-725 | a call still waiting is queued ungranted, or owns the lock with its wake issued or owed |
| `RWMutex.GrantsInArrivalOrder` | src/runloom/sync.py:674-722 | queued writers, and queued readers, are granted in arrival order, each at most once |
| `RWMutex.WriterPreference` | src/runloom/sync.py:651-665 | for as long as a writer stays queued no reader acquires the lock, by fast path or handoff |
| `RWMutex.AcquireOutcomes` | src/runloom/sync.py:647-701 | in every reachable state `rlock()` owns at once exactly when no writer owns or waits, `lock()` exactly when nobody owns, else the call is at the back of its queue; a resumed call returns exactly when granted |
| `RWMutex.ReleaseOutcomes` | src/runloom/sync.py:667-725 | a holder's release is never refused, takes out exactly that holder and passes the lock to the first writer, to all queued readers, or to nobody; refused exactly when nobody holds |
| `RWMutex.Mutex.TryRLock` | src/runloom/sync.py:647-658 | the guarded section of `rlock()` |
| `RWMutex.Mutex.TryLock` | src/runloom/sync.py:683-692 | the guarded section of `lock()` |
| `RWMutex.Mutex.ReleaseRead` | src/runloom/sync.py:667-681 | `runlock()`: refused if not held, the last reader hands over to the first writer |
| `RWMutex.Mutex.ReleaseWrite` | src/runloom/sync.py:703-725 | `unlock()`: refused if not held, a writer first, else all readers |
| `Semaphore.SafeAndNeverStranded` | src/runloom/sync.py:760-866 | in every run: permits within the limit, equal to those given minus those released; the front waiter does not fit; nobody waits while none is held |
| `Semaphore.PermitsInArrivalOrder` | src/runloom/sync.py:766-846 | permits go out in arrival order among requests that do not time out, each once, fast paths included |
| `Semaphore.Answers` | src/runloom/sync.py:777-834 | True exactly when the request got its permits, False exactly when its deadline removed it; a waiter is queued or served with its wake on the way |
| `Semaphore.AcquireOutcomes` | src/runloom/sync.py:788-846 | in every reachable state refused exactly for n < 0 or n > limit, True at once exactly when nobody waits and it fits, else at the back of the queue; `try_acquire` True exactly when nobody waits and it fits |
| `Semaphore.ReleaseOutcomes` | src/runloom/sync.py:848-866 | refused exactly for n < 0 or n > held; otherwise n permits come back and the longest fitting prefix of the queue is served |
| `Semaphore.DeadlineOutcomes` | src/runloom/sync.py:805-834 | a deadline answers True exactly when the request was served, else takes exactly it off and serves the longest fitting prefix; a resume returns exactly when served |
| `Semaphore.FittingIsLongest` | src/runloom/sync.py:766-775 | the grant scan takes the longest prefix of the queue all of whose prefixes fit |
| `Semaphore.ScanRestores` | src/runloom/sync.py:760-775 | a scan restores the invariant that a release or a timeout loosened |
| `Semaphore.LapseLoosens` | src/runloom/sync.py:810-827 | removing a timed-out waiter keeps everything but "the front does not fit" |
| `Semaphore.WeightedSemaphore.GrantLocked` | src/runloom/sync.py:760-775 | the granting loop equals the longest-prefix grant |
| `Semaphore.WeightedSemaphore.BeginAcquire` | src/runloom/sync.py:788-803 | argument errors, fast path, or queue |
| `Semaphore.WeightedSemaphore.TryTake` | src/runloom/sync.py:836-846 | `try_acquire` |
| `Semaphore.WeightedSemaphore.GiveBack` | src/runloom/sync.py:848-866 | `release`: over-release refused, else permits returned and the queue scanned |
| `Semaphore.WeightedSemaphore.TimeOut` | src/runloom/sync.py:810-827 | a deadline: granted at the last moment, or removed and the queue scanned |
| `Future.AwaitersAreServed` | src/runloom/sync.py:463-546 | every awaiter still waiting is queued on an unresolved future or has its wake issued or owed; every answer is the outcome |
| `Future.OutcomeIsFinal` | src/runloom/sync.py:463-473 | a resolved future never changes its outcome |
| `Future.Outcomes` | src/runloom/sync.py:463-546 | a resolution is refused exactly when there is an outcome; a call is answered at once, on resuming or at its deadline exactly when there is one |
| `Future.FutureCell.Settle` | src/runloom/sync.py:463-473 | resolves once and takes the waiters; refused the second time |
| `Future.FutureCell.Enlist` | src/runloom/sync.py:490-516 | returns the outcome or queues the caller |
| `Future.FutureCell.Withdraw` | src/runloom/sync.py:524-536 | a timeout dequeues, and still takes an outcome that came at the last moment |
| `WaitGroup.NoLostWake` | src/runloom/sync.py:389-430 | in every run, also after the counter went negative, a fiber in `wait()` is queued or has a wake issued or owed |
| `WaitGroup.ZeroWakesAll` | src/runloom/sync.py:389-400 | reaching zero empties the queue and owes every queued fiber a wake |
| `WaitGroup.Outcomes` | src/runloom/sync.py:389-430 | the counter is the sum of all deltas, an add raises exactly below zero, and `wait()` returns exactly at zero |
| `WaitGroup.Counter.Bump` | src/runloom/sync.py:389-400 | `add`, with the negative counter kept on error |
| `WaitGroup.Counter.Poll` | src/runloom/sync.py:416-424 | one turn of the wait loop |
| `Once.RunsOnceAndAllWait` | src/runloom/sync.py:954-984 | the function runs at most once; other fibers return only after it finished; a waiter is queued or has its wake issued or owed |
| `Once.Outcomes` | src/runloom/sync.py:954-984 | a call runs the function exactly when none has started it, returns exactly when it has ended, and waits in between |
| `Once.OnceCell.Begin` | src/runloom/sync.py:954-978 | first caller runs, later ones queue or return |
| `Once.OnceCell.Complete` | src/runloom/sync.py:967-973 | done, the waiters taken |
| `Once.OnceCell.Again` | src/runloom/sync.py:976-984 | a resumed waiter returns or queues again |
| `Watch.AnswersAreNewer` | src/runloom/sync.py:1114-1170 | an answer has a version above the one seen and the value set at that version |
| `Watch.Outcomes` | src/runloom/sync.py:1104-1170 | a set raises the version by one and owes all queued calls a wake; a wait is answered at once, on resuming or at its deadline exactly when the version is above the one seen |
| `Watch.StrandsExactlyWhenAhead` | src/runloom/sync.py:1135-1170 | a wait can end up stranded if and only if `seen_version` is above the version at the call |
| `Watch.StrandsWhenAhead` | src/runloom/sync.py:1140-1169 | for every such call, a continuation that strands it |
| `Watch.WatchCell.Publish` | src/runloom/sync.py:1104-1112 | `set`: value, version and the taken waiters |
| `Watch.WatchCell.Begin` | src/runloom/sync.py:1135-1141 | returns at once or queues |
| `Watch.WatchCell.Again` | src/runloom/sync.py:1160-1169 | a resumed waiter's re-check |
| `Watch.WatchCell.TimeOut` | src/runloom/sync.py:1147-1158 | a deadline dequeues, and still takes a last-moment change |
| `Singleflight.NoOverlap` | src/runloom/sync.py:1031-1063 | without `forget` two executions for one key never overlap |
| `Singleflight.OverlapAfterForget` | src/runloom/sync.py:1065-1069 | with `forget` they can: a concrete run |
| `Singleflight.JoinersShareTheirFlight` | src/runloom/sync.py:1031-1069 | an entry of the map is always an unresolved call; a joiner found an unresolved call and gets that call's outcome; a finishing call removes no entry but its own |
| `Singleflight.AnswersAreFinal` | src/runloom/sync.py:1031-1069 | outcomes, answers and which call a joiner found never change |
| `Singleflight.Outcomes` | src/runloom/sync.py:1031-1063 | a new call joins the entry of its key and otherwise runs; a leader leaves the map and resolves with its outcome; a joiner returns exactly when its call is resolved |
| `Singleflight.Group.Enter` | src/runloom/sync.py:1033-1046 | joins the call found, or enters its own |
| `Singleflight.Group.Leave` | src/runloom/sync.py:1052-1062 | removes its own entry and never a newer call's |
| `Singleflight.Group.Drop` | src/runloom/sync.py:1065-1069 | `forget` |
| `Context.TransitiveCancellation` | src/runloom/context.py:170-241 | once nothing is in progress every descendant of a cancelled context is cancelled, raced registrations included |
| `Context.NoLeak` | src/runloom/context.py:194-252 | `done` is closed exactly when `err` is set; at quiescence no child list holds a cancelled context |
| `Context.ErrIsFinal` | src/runloom/context.py:201-204 | `err` is set at most once and never changes |
| `Context.DescendantsFollow` | src/runloom/context.py:229-230 | in a quiet state the error reaches every descendant, link by link |
| `Context.AdvanceFollows` | src/runloom/context.py:170-252 | each step keeps every context listed with its parent, due to be cancelled or registered, or cancelled and on its way off the list |
| `Context.CancelTakesEffect` | src/runloom/context.py:201-206 | in every reachable state a cancel sets the error, to its reason unless one was set, and closes `done`, at its first step |
| `Context.CancelReachesAll` | src/runloom/context.py:194-241 | a cancel from any quiet reachable state, run to its end, cancels the context and everything below it |
| `Context.ReasonsComeFromAbove` | src/runloom/context.py:170-230 | in every run a context's error is the reason of a direct cancel of it or its parent's error |
| `Context.RegisterTakesEffect` | src/runloom/context.py:170-178 | a child of an uncancelled parent is put on its list, one of a cancelled parent goes on to be cancelled with that reason |
| `Context.NewChildIsCreated` | src/runloom/context.py:148-155 | a new context is uncancelled, under the parent given |
| `Context.ThreadFinishes` | src/runloom/context.py:194-241 | from every state a constructor or cancel that runs alone comes to its end |
| `Context.CancelCtx.RegisterChild` | src/runloom/context.py:170-174 | registration under the parent's lock, or its error |
| `Context.CancelCtx.CancelLocked` | src/runloom/context.py:201-214 | first cancel sets, closes and snapshots; later ones do nothing |
| `Context.CancelCtx.RemoveChild` | src/runloom/context.py:243-252 | detaches a child if it is listed |
| `DeadlineWaker.SeenOrHeld` | src/runloom/context.py:194-225 | a canceller about to kick a waker that is past its check has got its handle |
| `DeadlineWaker.FiresExactlyWhenExpired` | src/runloom/context.py:302-308 | an uncancelled waker sets the error at its check exactly when the deadline has passed, and else parks |
| `DeadlineWaker.LingersExactlyInTheGap` | src/runloom/context.py:287-308 | a cancelled waker lingers if and only if the kick falls between its check and its park |
| `DeadlineWaker.GapIsReachable` | src/runloom/context.py:296-306 | a run that gets there |
| `Timer.CancelledOrSent` | src/runloom/time.py:161-229 | every generation sends at most once; one that is over was cancelled by a True or is sent, exactly one of the two |
| `Timer.NoTickAfterTrue` | src/runloom/time.py:188-229 | once a Stop or Reset has returned True for a generation, no continuation lets it send |
| `Timer.HandleIsLive` | src/runloom/time.py:162-184 | a published handle belongs to the current generation, armed and not fired |
| `Timer.Answers` | src/runloom/time.py:188-229 | `Stop` and `Reset` answer True exactly when the current generation can still fire, which ends it; after `Reset` the new one can |
| `Timer.LiveOneFires` | src/runloom/time.py:161-186 | a generation that can still fire sends once its fiber runs |
| `Timer.TimerFields.BeginFire` | src/runloom/time.py:162-171 | a stale generation leaves, the current one publishes its handle |
| `Timer.TimerFields.EndFire` | src/runloom/time.py:177-184 | the current unfired generation claims the send |
| `Timer.TimerFields.Halt` | src/runloom/time.py:188-207 | `Stop` |
| `Timer.TimerFields.Rearm` | src/runloom/time.py:209-229 | `Reset` |
| `StackGrow.LiveWordsMove` | src/runloom_c/coro.c:2038-2083 | every live word keeps its distance from the top; pointers into the old range are shifted, all else unchanged |
| `StackGrow.ChaseMoves` | src/runloom_c/coro.c:2038-2083 | a pointer chase inside the live region visits the same distances from the top after a grow |
| `StackGrow.ChaseSurvivesGrows` | src/runloom_c/coro.c:2038-2083 | and after any sequence of grows |
| `StackGrow.HopSurvivesExactly` | src/runloom_c/coro.c:2064-2074 | a hop survives if and only if the pointer followed is inside the old stack |
| `StackGrow.PastTheEndIsLost` | src/runloom_c/coro.c:2064-2074 | a stack on which a pointer to the high end is left behind |
| `StackGrow.GrowLeavesHeadroom` | src/runloom_c/coro.c:2144-2154 | a doubling leaves at least half, hence more than a quarter, free |
| `StackGrow.GrowsExactlyWhenTight` | src/runloom_c/coro.c:2129-2154 | a resume asks for more exactly below the ceiling with the pointer inside and less than a quarter free, for the double or the ceiling in whole pages; afterwards less than a quarter is free only at the ceiling |
| `StackGrow.GrowsDouble` | src/runloom_c/coro.c:2118-2155 | k grows multiply the size by at least 2^k up to the ceiling, in every run of resumes |
| `StackGrow.AtMostElevenGrows` | src/runloom_c/coro.c:2118-2155 | a stack of at least 4 KB grows at most eleven times |
| `StackGrow.Coro.GrowTo` | src/runloom_c/coro.c:2038-2105 | page rounding, the copy loop and the in-place rewrite loop equal the move; the old mapping goes to its arena or is unmapped; 0 for no growth and -1 change nothing |
| `Magazine.OnePlace` | src/runloom_c/coro.c:367-452 | with any number of threads every mapped stack is in use or on exactly one list once; no two share an address; caches hold at most 64 |
| `Magazine.AcquireIsExclusive` | src/runloom_c/coro.c:708-728 | a stack newly in use has the size asked for, comes off the caller's own cache or is freshly mapped, and is on no list |
| `Magazine.DepotBounded` | src/runloom_c/coro.c:416-452 | a depot whose caps never exceed a bound never exceeds it either |
| `Magazine.PopTakesFirstMatch` | src/runloom_c/coro.c:367-383 | a pop takes the first stack of the size, unmaps exactly those before it, and finds none exactly when there is none |
| `Magazine.RefillTakesMatches` | src/runloom_c/coro.c:388-410 | a refill moves every match it passes and unmaps every other, until it has 32 or the depot is at its end |
| `Magazine.FlushFillsToCap` | src/runloom_c/coro.c:435-452 | a flush fills the depot to its cap and unmaps exactly what is over |
| `Magazine.CacheIsUsed` | src/runloom_c/coro.c:722-724 | an acquire with a match on its cache is done at once |
| `Magazine.DepotIsUsed` | src/runloom_c/coro.c:725-727 | one without takes a match from the depot if there is one, and maps a new stack only if not |
| `Magazine.ReleaseKeepsNewest` | src/runloom_c/coro.c:935-952 | a release keeps the stack, unmaps nothing, and over 64 entries cuts off exactly all but the newest 32 |
| `Magazine.PrewarmOutcomes` | src/runloom_c/coro.c:1206-1234 | a prewarm goes on exactly below the cap and pushes exactly if there is still room |
| `Magazine.ExitDrains` | src/runloom_c/coro.c:416-452 | an exiting thread leaves its whole cache to the depot as far as there is room |
| `Magazine.RefillConserves` | src/runloom_c/coro.c:388-410 | cache plus depot before equals cache plus depot plus unmapped after, as multisets |
| `Magazine.FlushConserves` | src/runloom_c/coro.c:435-452 | depot plus moved equals depot plus unmapped after |
| `Magazine.PopLocalConserves` | src/runloom_c/coro.c:367-383 | the cache is the popped stack, the rest and the unmapped; the popped one has the size asked for |
| `Magazine.ReleaseKeeps` | src/runloom_c/coro.c:935-952 | a release, overflow included, keeps every stack in one place |
| `Magazine.PushKeeps` | src/runloom_c/coro.c:1206-1234 | a prewarmed stack enters the depot or is unmapped |
| `StackPools.Pools.DropMismatched` | src/runloom_c/coro.c:369-377 | the unmapping loop at the head of the cache; no unmapped stack is read |
| `StackPools.Pools.PopLocal` | src/runloom_c/coro.c:367-383 | equals `Magazine.PopLocal`; the counter is the list's length |
| `StackPools.Pools.TakeFromDepot` | src/runloom_c/coro.c:392-408 | one turn of the refill loop |
| `StackPools.Pools.RefillFromGlobal` | src/runloom_c/coro.c:388-410 | the refill loop equals `Refill` with a batch of 32 |
| `StackPools.Pools.CutAfter` | src/runloom_c/coro.c:421-433 | the cut leaves two well-formed lists that share no stack |
| `StackPools.Pools.GiveToDepot` | src/runloom_c/coro.c:438-449 | one turn of the flush loop |
| `StackPools.Pools.FlushToGlobal` | src/runloom_c/coro.c:416-452 | cut plus flush loop equals `Flush` of everything past `keep` |
| `StackPools.Pools.Release` | src/runloom_c/coro.c:935-952 | push, then flush over 64 entries; at most 64 remain |
| `StackPools.Pools.Acquire` | src/runloom_c/coro.c:708-728 | cache, then refill, then mmap; the result is mapped and on no list |
| `Arena.RangesAreSound` | src/runloom_c/coro.c:632-675 | outstanding ranges of a class are disjoint, below its cursor and within its mapping; `live` is their total size |
| `Arena.ReleaseFindsItsSlot` | src/runloom_c/coro.c:677-706 | class and slot recomputed from a carved address are the ones it was carved from |
| `Arena.BytesAreDisjoint` | src/runloom_c/coro.c:598-675 | two outstanding ranges never share a byte, whatever their classes |
| `Arena.FreeKeeps` | src/runloom_c/coro.c:658-675 | neither the LIFO rewind nor the reset on drain exposes a live slot |
| `Arena.AllocOutcomes` | src/runloom_c/coro.c:632-652 | in every reachable state an allocation on a mapped class takes the slots at the cursor and is refused exactly past the capacity |
| `Arena.AllocOnNewKey` | src/runloom_c/coro.c:598-652 | on a new key it takes the first slots of a new mapping and is refused exactly without a free entry or a large enough mapping |
| `Arena.DrainedRestarts` | src/runloom_c/coro.c:658-675 | a class with nothing outstanding starts again at slot 0 |
| `Arena.AllocThenFree` | src/runloom_c/coro.c:632-675 | freeing what was just allocated restores the table |
| `Arena.ArenaTable.ClassForLocked` | src/runloom_c/coro.c:598-625 | the search loop: the class for the key, else the first free entry, mapped |
| `Arena.ArenaTable.AllocSlots` | src/runloom_c/coro.c:632-652 | the bump allocation, refused past the capacity |
| `Arena.ArenaTable.FreeSlots` | src/runloom_c/coro.c:658-675 | the freeing loop: counter, reset on drain, rewind at the top |

## Left out

- Weak memory: the deque, the claim word and the arena table are interleaved under sequential consistency; the relaxed, acquire and release orders of the C code are not modelled.
- Integer widths: counters, indices and addresses are unbounded integers; wrap-around of the deque's indices, of `int` counters and of sizes is not modelled.
- The scheduler: run queues, hubs, `park`, `wake`, `wait_fd` and the fiber-aware guard mutex are taken as atomic sections, wakes issued one at a time, and a park that may return at any moment.
- Foreign OS threads in the Python primitives (polling loops, the one-second budget of `Once.do`): wall-clock behaviour.
- Select: the randomised scan order, the default case and the retry limits; `select_try_each` is the sequence of non-blocking sends and receives of `Chan.dfy`. `Select.dfy` follows one parked attempt of one select, up to its return or the start of the next attempt.
- Channels: reference counts, the state-table assertions and the non-blocking wrappers. The singly linked waiter queues are sequences, and a waiter is identified by a number instead of its address.
- Python lists: `list.remove(x)` is modelled as removing the element, which is there at most once.
- `gather`, `JoinSet`, `once_value` and `once_func`, sockets, `Ticker`, `After` and `Sleep`: they would add only easy members or clocks.
- Timers and deadlines have no durations; the passing of a deadline is an action that can happen at any time. Deadlines tighter than those of all ancestors are not claimed, since `WithDeadline` consults only its direct parent.
- DeadlineWaker.SeenOrHeld: only the handle is covered; that a kick ends the wait is false in the gap stated by `LingersExactlyInTheGap`.
- Copy-grow: machine frames and callee-saved registers are left out, words are aligned, and the forced-grow build option is not modelled.
- Stack magazine: the live counter and its high-water mark are not modelled and nothing is claimed of them; the automatic cap is an input that may change at every lock. Guard-page sampling is a release that unmaps. `StackPools.dfy` shows one thread's cache beside the depot; other threads' caches share no memory with it.
- Arena: a range is freed whole and once, as allocated; freeing single slots of a bulk block is not modelled. `mmap`, NUMA node lookup, huge pages and `madvise` are inputs or left out.
- The global pool of coroutine structs, netpoll, io_uring, the monkey-patching layer, inspection and statistics.
