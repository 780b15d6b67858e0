# stackweave runtime: verified models

Dafny models of the concurrent core of stackweave's C runtime
(`src/runloom_c/`), with proofs of what the runtime relies on. Lock-free and
locked code is modelled as a sequentially consistent step machine: one atomic
load, store, compare-and-swap, or one access guarded by a lock per step, with any
number of threads. A machine's state also carries history (who won a claim, where
an object is, what has been freed), kept apart from the fields the C code has and
never read by a step. Theorems are about every interleaving (`Reachable` is "some
run leads here"), through an invariant that every step keeps, or about every input
of a loop written as a method.

| file | what it models |
|---|---|
| `Deque.dfy` | the work-stealing deque of `cldeque.c`, refining an atomic deque |
| `HandleTable.dfy` | the generation-stamped handle table of `rl_handle.c` |
| `Channel.dfy` | channels: ring, waiter queues, send, recv, close, GC hooks |
| `Select.dfy` | one blocking select against everything other fibers may do |
| `SelectOrder.dfy` | the order in which a select scans its cases |
| `BlockPool.dfy` | the blocking-offload pool and the park/wake credit handshake |
| `WakeState.dfy` | the six-state wake machine of the M:N scheduler |
| `Parker.dfy` | the netpoll parker's claim, and io_uring's wait handshake |
| `LockRank.dfy` | the lock-rank checker and the deadlock freedom its silence implies |
| `StackPool.dfy`, `StackLists.dfy` | stack caches over a depot: the machine, and its list loops |
| `Arena.dfy` | the bump-allocated stack arena |
| `CoroPool.dfy` | the coroutine pools and the single-size balance pool |
| `AutoCap.dfy` | the depot's decaying watermark and cap |
| `CopyGrow.dfy` | relocation of a copied stack |
| `HandleCalls.dfy`, `SelectCalls.dfy`, `BlockCalls.dfy`, `StackCalls.dfy`, `CoroCalls.dfy` | what a caller of each of those gets: the arguments of a call against what it did and returned |
| `Placement.dfy`, `Runs.dfy`, `Option.dfy` | lists tied to a map of places; facts that hold along a run; an option type |

Where the code does less than its documentation or its design says, the model
follows the code, a lemma exhibits the failure, and the theorem states the exact
condition:

- The comment at chan_select_main.c.inc:250-265 assumes that a parked select is
  resumed by its winner's wake. That is more than enough: what is promised holds in
  every run, stray wakes and retries included, in which the load of `fired_case`
  after the park does not fall in a winner's delivery (`Select.ReturnedOnce`,
  `Select.ParkedIsReachable`, `Select.LostClaimKeepsValue`;
  `Select.WinnersWakesSuffice`). With any wakes at all, a select's waiters outlive
  every use of them, and what it reports is what was exchanged, if and only if each
  of its channels appears in more than one case (`Select.StrayWakesSafeIff`,
  `Select.StrayWakesHonestIff`). Otherwise a stray wake can free the waiters under
  the winner and lose the value (`Select.EarlyReadFreesEarly`,
  `Select.EarlyReadLosesValue`).
- An io_uring operation record outlives the drainer if every resume is the drainer's
  wake (`UringWait.RecordOutlivesDrainer`), and any earlier resume of a sleeping
  fiber can free it under the drainer (`UringWait.ResumeOvertakesIff`,
  `UringWait.StrayWakeOvertakes`).
- A parker's claim decides what the fiber returns unless the fiber leaves early
  (`Parker.ReturnsWinner`, `Parker.EarlyExitDropsClaim`); a fiber nobody claimed
  returns 0 (`Parker.StrayResumeReportsNothing`).
- An offload leaves its fiber's wake credit as it found it, for every schedule of
  its own worker, exactly when it found none (`BlockPool.CreditBalanced`,
  `BlockPool.CreditLost`).
- "Pending if and only if QUEUED or a WOKEN state" is broken by exactly three kinds
  of step (`WakeState.ExactUnless`), each of which happens
  (`WakeState.YieldDropsMarkHappens`, `WakeState.ResumesMarkedHappens`,
  `WakeState.TimerRunsHappens`) and none of which loses a wake
  (`WakeState.WokenWillResume`). The first of them, the yield release, also takes an
  edge that is not in the table (`WakeState.EdgesAreInTable`); the comment at
  mn_sched_hub_main.c.inc:1638-1641 says that no wake can race a yield, where the
  model lets any thread wake the fiber at any time.
- Whatever the threads do, the global coro pool holds one size if and only if no two
  sizes are asked for before its size is claimed (`CoroPool.OneSizeIff`): the claim
  is a load and a store, and another claim between them mixes the sizes
  (`CoroPool.SizesMix`), after which a refill can miss its own request
  (`CoroPool.RefillMisses`). Where each coro is, the caps and the frees do not
  depend on it.
- `release_wait` on the null handle never returns once the table has a segment
  (`HandleTable.NullWaitNeverReturns`), and any live slot can be pinned until its
  32-bit count wraps to zero (`HandleTable.CountWraps`).
- When a stack is copied, all chains of loads whose pointers into the stack are
  those that reach its words survive, if and only if nothing outside points into the
  stack (`CopyGrow.SameGraphIff`); then no other chain does
  (`CopyGrow.SurvivesIffSound`), such as one through a pointer just past the
  stack's end (`CopyGrow.EndPointerLost`).

Verify with `dafny verify dfyconfig.toml` (Dafny 4.11).

## Model

| member | source | states |
|---|---|---|
| `Deque.Refines` | src/runloom_c/cldeque.c:26-106 | every step of owner or thief is a step of a deque that pushes right, pops the newest and steals the oldest in one instant, with the same calls and results; a NULL pop only at an instant when it is empty; a NULL steal only when it is empty, a pop is under way, or somebody else took an oldest item during the steal |
| `Deque.PushRefines` | src/runloom_c/cldeque.c:32-49 | push appends at its store of bottom, or fails when the deque is full at its load of a possibly stale top |
| `Deque.PopRefines` | src/runloom_c/cldeque.c:51-85 | pop takes the newest item, including the last-item race with thieves |
| `Deque.ThiefRefines` | src/runloom_c/cldeque.c:87-106 | a thief whose CAS succeeds returns the item pushed at that index although it read the slot before |
| `Deque.RunsAreAtomic` | src/runloom_c/cldeque.c:32-106 | linearizability of every run; at every point the items pushed are those taken plus those between top and bottom |
| `Deque.CallsReturn` | src/runloom_c/cldeque.c:32-106 | wait-freedom: whatever the other threads do, a push, pop or steal returns within seven steps of its own |
| `Deque.AtomicConserves` | src/runloom_c/cldeque.c:34-104 | no item is returned twice or lost |
| `Deque.WriteOutside` | src/runloom_c/cldeque.c:36-46 | a push that wraps the ring overwrites no item still in the deque |
| `Deque.ClDeque.constructor` | src/runloom_c/cldeque.c:26-30 | a fresh deque is empty |
| `Deque.ClDeque.Push` | src/runloom_c/cldeque.c:32-49 | run alone: appends, or -1 exactly when full |
| `Deque.ClDeque.Pop` | src/runloom_c/cldeque.c:51-85 | run alone: the newest item, NULL exactly when empty |
| `Deque.ClDeque.Steal` | src/runloom_c/cldeque.c:87-106 | run alone: the oldest item, NULL exactly when empty |
| `Deque.ClDeque.Size` | src/runloom_c/cldeque.c:108-113 | the number of items |
| `HandleTable.StepKeepsInv` | src/runloom_c/rl_handle.c:74-216 | a step keeps the table's invariant if and only if it leaves fewer than 2^32 references to each slot |
| `HandleTable.RunKeepsInv` | src/runloom_c/rl_handle.c:74-216 | in every run of protocol-following clients with fewer than 2^32 references to a slot: counts match holders, phases match threads, the free list is acyclic, duplicate-free, disjoint from live slots and never holds slot 0 |
| `HandleTable.GrowKeepsInv` | src/runloom_c/rl_handle.c:74-90 | segment growth keeps all of that |
| `HandleTable.HeldIsAlive` | src/runloom_c/rl_handle.c:149-198 | while a reference is held its object is in its slot, unreclaimed and unfreed |
| `HandleTable.PinReturnsRegistered` | src/runloom_c/rl_handle.c:149-174 | a successful pin returns the pointer registered under that very handle, for fewer than 2^32 reclaims of the slot |
| `HandleTable.StalePinFails` | src/runloom_c/rl_handle.c:160-174 | a pin succeeds if and only if the slot is in use and was reclaimed a multiple of 2^32 times since; so every handle of a reclaimed registration fails |
| `HandleTable.ReleaseWaitReturnsUnheld` | src/runloom_c/rl_handle.c:203-216 | release_wait returns only when no reference to the registration is left |
| `HandleTable.NullWaitNeverReturns` | src/runloom_c/rl_handle.c:203-216 | on the null handle it returns if and only if the table has no segment |
| `HandleTable.NullWaitSpins` | src/runloom_c/rl_handle.c:214-215 | and otherwise every step of its loop changes nothing |
| `HandleTable.FreedExactlyOnce` | src/runloom_c/rl_handle.c:95-116 | free_fn runs at most once per registration, after the last reference has gone, and once for each reclaimed registration that has one |
| `HandleTable.CountWraps` | src/runloom_c/rl_handle.c:163-171 | from any reachable state, an idle thread can pin any live slot, one reference at a time, until 2^32 are held and its count reads zero |
| `HandleTable.RegisteredOnce` | src/runloom_c/rl_handle.c:118-147 | there is such a state: a run that registers an object in slot 1 |
| `HandleCalls.RegisterRecords` | src/runloom_c/rl_handle.c:118-147 | in every run, a register that returns a handle has registered under it the very pointer and free_fn of the call, and its caller holds a reference |
| `HandleCalls.RegisterFailsOnly` | src/runloom_c/rl_handle.c:123-131 | it fails only for NULL, or if at its turn no slot is free and the table does not grow |
| `HandleCalls.RegisterReturns` | src/runloom_c/rl_handle.c:118-147 | it returns within five steps of its own |
| `HandleCalls.PinReturnsCallersPtr` | src/runloom_c/rl_handle.c:149-174 | a pin, by anybody, of the handle a register returned gives the pointer that register was called with, or fails, for fewer than 2^32 reclaims of the slot |
| `HandleCalls.PinSucceeds` | src/runloom_c/rl_handle.c:149-174 | a pin of a registration that stays in use throughout does not fail |
| `HandleCalls.CallersFreeFnRuns` | src/runloom_c/rl_handle.c:95-116 | once reclaimed, free_fn has run once if the register was called with one and not at all otherwise, and never before |
| `HandleCalls.ReleaseReleases` | src/runloom_c/rl_handle.c:176-216 | in every run, a release or unpin gives up the reference it was called with and reclaims if it was the last; release_wait returns only when nobody has or can get one |
| `HandleCalls.CallAdvances` | src/runloom_c/rl_handle.c:149-216 | every step of a pin or release takes it nearer its return, but for a CAS another thread overtook and the wait for a reclaim |
| `HandleTable.QuiescentCount` | src/runloom_c/rl_handle.c:218-268 | at rest live count = slots with references, and every other slot is on the free list |
| `HandleTable.SelfCheck` | src/runloom_c/rl_handle.c:234-268 | the sweep counts exactly the live slots and returns 0 exactly when neither invariant is violated |
| `HandleTable.SelfCheckAtRest` | src/runloom_c/rl_handle.c:223-268 | in any reachable state at rest the sweep walks as many slots as the live counter says and returns 0 |
| `HandleTable.LinkSegment` | src/runloom_c/rl_handle.c:83-88 | the linking loop chains the new slots onto the list, slot 0 left out |
| `Channel.SlotIsMod` | src/runloom_c/chan_waiters.c.inc:163-177 | the ring index computed with % is the slot at that offset |
| `Channel.PushRing` | src/runloom_c/chan_waiters.c.inc:161-168 | a push appends to the ring's values |
| `Channel.PopRing` | src/runloom_c/chan_waiters.c.inc:170-177 | a pop removes the oldest and keeps the order of the rest |
| `Channel.RingChan.constructor` | src/runloom_c/chan_waiters.c.inc:107-132 | a new channel is open and empty, of any capacity |
| `Channel.RingChan.Send` | src/runloom_c/chan_ops.c.inc:30-94 | the send on the ring in memory, and the receiver it hands to |
| `Channel.RingChan.Recv` | src/runloom_c/chan_ops.c.inc:120-196 | the receive on the ring in memory, and the sender it pulls in |
| `Channel.SendOutcomes` | src/runloom_c/chan_ops.c.inc:30-94 | a send on an open channel succeeds if and only if a receiver is parked or there is room, whether or not it may block; full, no fiber and parking each exactly otherwise; where the value goes |
| `Channel.RecvOutcomes` | src/runloom_c/chan_ops.c.inc:120-196 | a receive gets the first value in line if and only if there is one, whether or not it may block; closed, empty, no fiber and parking each exactly otherwise |
| `Channel.RingChan.Close` | src/runloom_c/chan_ops.c.inc:214-242 | everybody parked is woken, in order; a second close is an error |
| `Channel.RingChan.GcTraverse` | src/runloom_c/chan.c:189-198 | the collector visits exactly the buffered values, in order |
| `Channel.RingChan.GcClear` | src/runloom_c/chan.c:200-212 | each buffered reference is dropped once and the ring is left empty and consistent |
| `Channel.DeliveredInOrder` | src/runloom_c/chan.c:5-28 | in every run: values arrived = values taken ++ ring ++ parked senders' values ++ values rejected by close; parked receivers mean an empty buffer and no parked senders, parked senders a full one; a parked call ends only with its waiter popped; a receiver returns its own delivery, a sender success exactly if its own value was taken or buffered and failure exactly if close rejected it |
| `Channel.ResumeReturnsIff` | src/runloom_c/chan_ops.c.inc:80-94 | in every run a resumed call returns exactly if its waiter has been filled in, with what is in it |
| `Channel.RunKeepsInv` | src/runloom_c/chan_ops.c.inc:30-242 | the invariant behind it, for any number of fibers and any stray wakes |
| `Channel.DrainsThenEnds` | src/runloom_c/chan_ops.c.inc:125-161 | after close the buffer drains in order, then every recv gives (None, 0) |
| `Channel.ClosedForGood` | src/runloom_c/chan_ops.c.inc:34-38 | a closed channel stays closed and refuses sends and a second close |
| `Select.StepKeepsInv` | src/runloom_c/chan_select_main.c.inc:16-350 | every step of the select and of other operations keeps the invariant, provided the fired_case load is settled |
| `Select.RunKeepsInv` | src/runloom_c/chan_select_main.c.inc:100-293 | and so does every run without an unsettled load, across retries and stray wakes |
| `Select.WinnersWakesSuffice` | src/runloom_c/chan_select_main.c.inc:250-265 | if the fiber is resumed only by a winner's wake, no load in the run is unsettled |
| `Select.SharedSuffices` | src/runloom_c/chan_select_main.c.inc:266-293 | nor is one in any run, whatever its wakes, of a select with no case alone on its channel |
| `Select.WinnersWakesCorollary` | src/runloom_c/chan_select_main.c.inc:250-265 | so a run resumed by winners' wakes reports and frees correctly, and no operation in it drops a value |
| `Select.ReturnedOnce` | src/runloom_c/chan_select_main.c.inc:266-349 | in every run without an unsettled load, stray wakes included: whenever the waiters are gone none is linked or in another operation's hands; a returned select reports what exactly one other operation did; a retry has dropped no value |
| `Select.ParkedIsReachable` | src/runloom_c/chan_waiters.c.inc:49-98 | in every such run a parked select can still be claimed through every case, and a claimed one has its wake coming or posted |
| `SelectCalls.ParksOnBlocked` | src/runloom_c/chan_select_main.c.inc:100-228 | in every run, a select that sleeps has, since its last scan, found each case that it sleeps on blocked under the channel's lock |
| `SelectCalls.SelectAdvances` | src/runloom_c/chan_select_main.c.inc:100-349 | every step takes a select nearer its return or its next scan |
| `SelectCalls.ScanReports` | src/runloom_c/chan_select_main.c.inc:16-40 | a case reported as fired by the scan is the one the scan fired |
| `Select.RunKeepsHands` | src/runloom_c/chan_waiters.c.inc:84-98 | in every run, whatever the wakes, a sender has the value it came with in hand until it has filled in a waiter it won, and a receiver nothing |
| `Select.LostClaimKeepsValue` | src/runloom_c/chan_waiters.c.inc:84-98 | in every such run an operation holding a lock still has what it came with, unless it won the claim and what it gave or took is the one exchange the select reports |
| `Select.EarlyReadFreesEarly` | src/runloom_c/chan_select_main.c.inc:230-293 | any unsettled load has a continuation that frees a waiter still in use |
| `Select.StrayWakesSafeIff` | src/runloom_c/chan_select_main.c.inc:230-293 | whatever the wakes, a select's waiters outlive every use of them, if and only if no case is alone on its channel |
| `Select.EarlyReadLosesValue` | src/runloom_c/chan_select_main.c.inc:322-348 | for any select with a case alone on its channel, a run in which a stray wake loses the exchange: a receive retries, a send reports a closed channel, and the winner exchanges all the same |
| `Select.StrayWakesHonestIff` | src/runloom_c/chan_select_main.c.inc:266-349 | whatever the wakes, what a select reports is what was exchanged and a retry has dropped nothing, if and only if no case is alone on its channel |
| `SelectOrder.ComputeGcd` | src/runloom_c/chan_select_helpers.c.inc:52-56 | Euclid's loop computes the recursive gcd |
| `SelectOrder.GcdOne` | src/runloom_c/chan_select_helpers.c.inc:52-56 | it is 1 exactly for coprime arguments |
| `SelectOrder.FindStride` | src/runloom_c/chan_select_helpers.c.inc:80-87 | the search for a stride ends with one coprime with n |
| `SelectOrder.VisitsDistinct` | src/runloom_c/chan_select_helpers.c.inc:64-74 | n strides visit n different cases |
| `SelectOrder.Scan` | src/runloom_c/chan_select_helpers.c.inc:89-153 | the walk stops at the first case in its order that is not blocked, firing it or reporting a closed send, and -1 means that all were |
| `SelectOrder.TryEach` | src/runloom_c/chan_select_helpers.c.inc:75-154 | whatever the random draws: -1 exactly when every case was blocked, an index only of a case that fires, -2 only for a send on a closed channel; the first draw says which case comes first |
| `BlockPool.RunKeepsInv` | src/runloom_c/runloom_blockpool.c:144-224 | the invariant of every run of offloads, workers and stray wakers |
| `BlockPool.ParkKeeps` | src/runloom_c/runloom_sched_parkwake.c.inc:758-843 | one fiber's park loop keeps its credit and parked flags consistent with its worker's progress |
| `BlockPool.JobOutlivesWorker` | src/runloom_c/runloom_blockpool.c:169-197 | the worker touches a stack job only while that call is under way; a job runs exactly once |
| `BlockPool.ReturnsAfterOneRun` | src/runloom_c/runloom_blockpool.c:479-502 | a call returns only after its job ran once and was published |
| `BlockPool.SleeperHasWakeComing` | src/runloom_c/runloom_blockpool.c:199-217 | a sleeping fiber is queued to run or its worker has yet to claim it, with inflight above 0 |
| `BlockPool.WorkerWakesSleeper` | src/runloom_c/runloom_sched_parkwake.c.inc:586-703 | and that claim queues it |
| `BlockCalls.JobIsAsked` | src/runloom_c/runloom_blockpool.c:136-142 | in every run, a job is on the shard that its call asked for |
| `BlockCalls.SubmitAdvances` | src/runloom_c/runloom_blockpool.c:430-452 | a call's first two steps count its job and put it at the end of that shard's queue |
| `BlockCalls.JobRetires` | src/runloom_c/runloom_blockpool.c:144-224 | a queued job is served in turn: once as many steps have served it as it had left, it has been run, its fiber woken, and retired |
| `BlockCalls.WokenReturns` | src/runloom_c/runloom_blockpool.c:454-502 | once its worker has woken it, a call returns within seven steps of its own, whatever stray wakes it gets |
| `BlockPool.CreditBalanced` | src/runloom_c/runloom_blockpool.c:463-499 | credit on return = credit on entry + credits given - credits eaten; entering with none and woken by its worker alone, it leaves with none |
| `BlockPool.CreditLost` | src/runloom_c/runloom_blockpool.c:468-499 | with any credit on entry there is a schedule that returns with one less |
| `BlockPool.ResolveShards` | src/runloom_c/runloom_blockpool.c:226-242 | the override, or else the hub count, clamped to between 1 and 32 |
| `BlockPool.ResolveWorkers` | src/runloom_c/runloom_blockpool.c:244-262 | an override in range is taken as it is; else three per shard, at least 8; always one per shard and at most 256 |
| `BlockPool.ShardFor` | src/runloom_c/runloom_blockpool.c:136-142 | a live shard for every key |
| `BlockPool.ShardsReached` | src/runloom_c/runloom_blockpool.c:136-142 | every shard is some key's, and keys 64 bytes apart take turns |
| `BlockPool.StartWorkers` | src/runloom_c/runloom_blockpool.c:264-333 | the pool is up exactly when every shard has a worker |
| `WakeState.RunKeepsInv` | src/runloom_c/mn_sched.c:84-108 | in every run: one place for g, its entries and wake_state agree, no wake is lost |
| `WakeState.QueuedExactlyOnce` | src/runloom_c/runloom_sched.h:326-337 | at most one entry; QUEUED exactly when the entry is on a queue or in the hands of its pusher or puller |
| `WakeState.OwnedByOne` | src/runloom_c/runloom_sched.h:328-348 | at most one runner, sweeper or carrier owns g |
| `WakeState.ClaimsWin` | src/runloom_c/mn_sched_hub_main.c.inc:1448-1471 | the QUEUED to RUNNING claim of a pulled entry never fails |
| `WakeState.WokenWillResume` | src/runloom_c/mn_sched_mn_api.c.inc:354-409 | a g woken since its last resume began is running with the wake recorded, or a bounded number of owner steps from a resume |
| `WakeState.WakeServes` | src/runloom_c/mn_sched_mn_api.c.inc:354-409 | along any path, by the time a wake is done g is marked as woken or has been resumed since the wake began |
| `WakeState.WakeIsNotLost` | src/runloom_c/mn_sched_mn_api.c.inc:354-409 | so a completed wake is followed by a resume: it has happened, or is due, or g is running with the wake recorded, or g is done |
| `WakeState.TimerServes` | src/runloom_c/mn_sched_hub_main.c.inc:745-790 | the same for a timer's claim, unless it finds g running |
| `WakeState.WakeAdvances` | src/runloom_c/mn_sched_mn_api.c.inc:354-409 | a wake or timer claim goes round again only if wake_state has changed since it was read |
| `WakeState.SweepClaimsIff` | src/runloom_c/mn_sched.c:84-108 | a sweep gets the stack exactly if g is PARKED, and gives it back at its next step |
| `WakeState.OwnerStepsLeadToResume` | src/runloom_c/mn_sched_hub_main.c.inc:1609-1651 | each owner step counts that number down to a resume and no other step changes it |
| `WakeState.RunnableIsResumed` | src/runloom_c/mn_sched_hub_main.c.inc:1609-1651 | so along any path a g that is due is resumed by the time that many owner steps have been taken |
| `WakeState.EdgesAreInTable` | src/runloom_c/mn_sched.c:98-108 | every change of wake_state is an edge of the table, except exactly a yield release that finds RUNNING_WOKEN |
| `WakeState.ExactUnless` | src/runloom_c/mn_sched_hub_main.c.inc:1637-1651 | "woken iff QUEUED or WOKEN" is kept by every step but three kinds, each of which breaks it |
| `WakeState.YieldDropsMarkHappens` | src/runloom_c/mn_sched_hub_main.c.inc:1637-1648 | a reachable state whose next step is a yield release that finds RUNNING_WOKEN |
| `WakeState.ResumesMarkedHappens` | src/runloom_c/mn_sched_hub_main.c.inc:1448-1471 | one whose next step resumes a g woken while it was on a local queue |
| `WakeState.TimerRunsHappens` | src/runloom_c/mn_sched_hub_main.c.inc:745-790 | one whose next step is a timer claim from PARKED to RUNNING |
| `Parker.RunKeepsInv` | src/runloom_c/netpoll.c:98-183 | the invariant of one park against any claimers and stray wakes |
| `Parker.EdgesAreInTable` | src/runloom_c/netpoll.c:167-176 | every move of commit is an edge of the table, and ARMED is left once |
| `Parker.RequeuedOnce` | src/runloom_c/netpoll_pump_helpers.c.inc:6-31 | re-queued at most once, exactly when claimed from PARKED |
| `Parker.SleeperIsReachable` | src/runloom_c/netpoll_wait_fd.c.inc:718-778 | a sleeping fiber is linked for the next claimer, or its winner has re-queued it or is about to |
| `Parker.SectionClaims` | src/runloom_c/netpoll_pump_helpers.c.inc:6-34 | in every run, a claimer that has been through its section leaves the parker claimed |
| `Parker.SectionRequeues` | src/runloom_c/netpoll_pump_helpers.c.inc:58-110 | so a fiber that was PARKED when a claimer took the lock has been re-queued, once, when the claimers are through |
| `Parker.SectionKept` | src/runloom_c/netpoll_pump_helpers.c.inc:58-110 | the claimer carries the value it was called with, and wakes under the lock unless it was told to defer |
| `Parker.ClaimAdvances` | src/runloom_c/netpoll_pump_helpers.c.inc:19-33 | every step takes claimer and fiber nearer their end, but for a CAS that failed because commit had changed |
| `Parker.ReturnsWinner` | src/runloom_c/netpoll_wait_fd.c.inc:779-836 | the fiber returns the winner's value (0 if a stray wake came first), resumed once if parked and not at all otherwise, with no claimer left on its parker |
| `Parker.ReturnsClaimed` | src/runloom_c/netpoll_wait_fd.c.inc:671-836 | what the fiber returns is what the winner was called with, 0 if nobody claimed, or what sent it off early |
| `Parker.EarlyExitDropsClaim` | src/runloom_c/netpoll_wait_fd.c.inc:671-709 | the early exits drop the value of whoever had claimed |
| `Parker.StrayResumeReportsNothing` | src/runloom_c/netpoll_wait_fd.c.inc:779-836 | a run in which a stray resume ends the park with 0 |
| `UringWait.ReturnsCompletion` | src/runloom_c/io_uring_l_do.c.inc:286-345 | the fiber returns the kernel's result, never the sentinel; woken by the drainer at most once; no lost wake |
| `UringWait.CompletionReported` | src/runloom_c/io_uring_l_buf.c.inc:233-249 | and that result is what the operation completed with |
| `UringWait.WaitAdvances` | src/runloom_c/io_uring_l_do.c.inc:286-345 | the drainer is through in three steps; a fiber that finds the result returns at once |
| `UringWait.ResumeOvertakesIff` | src/runloom_c/io_uring_l_ring.c.inc:364-372 | after any run to a sleeping fiber, resuming it can free the record under the drainer exactly while the drainer has not woken it |
| `UringWait.RecordOutlivesDrainer` | src/runloom_c/io_uring_l_buf.c.inc:233-249 | in every run in which each resume is the drainer's wake, the record outlives the drainer's use of it |
| `UringWait.StrayWakeOvertakes` | src/runloom_c/io_uring_l_do.c.inc:333-341 | every run to a fiber that sleeps unwoken continues to one in which it returns while the drainer still uses the record |
| `UringWait.SleepRun` | src/runloom_c/io_uring_l_do.c.inc:333-341 | and there is such a run |
| `LockRank.Conflict` | src/runloom_c/runloom_diag.c:770-775 | no report exactly when every held rank is lower |
| `LockRank.HeldRanks.Push` | src/runloom_c/runloom_diag.c:767-778 | appends the rank and reports the first conflict |
| `LockRank.HeldRanks.Pop` | src/runloom_c/runloom_diag.c:780-794 | removes the topmost entry of that rank and closes the gap |
| `LockRank.HeldRanks.AssertParkable` | src/runloom_c/runloom_diag.c:825-833 | silent exactly when the array is empty and no no-yield region is open |
| `LockRank.PushFits` | src/runloom_c/runloom_lockrank.h:27-77 | silent pushes never fill the 32 entries, since there are fewer ranks |
| `LockRank.PopExact` | src/runloom_c/runloom_diag.c:783-793 | a release in any order removes exactly its own entry |
| `LockRank.RunKeepsInv` | src/runloom_c/runloom_lockrank.h:94-97 | in every silent run each array spells out its thread's locks in rank order |
| `LockRank.NoCycle` | src/runloom_c/runloom_lockrank.h:7-13 | in every silent run the wait-for graph has no cycle |
| `LockRank.SomebodyRuns` | src/runloom_c/runloom_lockrank.h:7-13 | following from any thread who waits for whom, one comes to a thread that can go on |
| `LockRank.ArrayIsExact` | src/runloom_c/runloom_diag.c:825-833 | the array holds exactly the ranks held; empty exactly when the thread holds no ranked lock |
| `StackPool.RunKeepsInv` | src/runloom_c/coro.c:327-412 | the invariant of every run of acquires, releases, warm-ups, prewarms and drains |
| `StackPool.OnePlace` | src/runloom_c/coro.c:668-688 | every mapping is held, in one cache, in the depot or in one thread's hand, on one list once; unmapped at most once |
| `StackPool.CacheBounded` | src/runloom_c/coro.c:832-838 | a cache holds at most 64 stacks after any operation |
| `StackPool.DepotRises` | src/runloom_c/coro.c:395-411 | a step leaves the depot no larger than the larger of what it was and the cap its own operation read |
| `StackPool.DepotBounded` | src/runloom_c/coro.c:395-411 | in every run the depot never holds more than the largest cap read so far |
| `StackPool.LiveCounter` | src/runloom_c/coro.c:674-681 | at rest live = held + failed acquires - warm-up releases |
| `StackCalls.AcquireServes` | src/runloom_c/coro.c:668-694 | in every run, an acquire of a size ends with one more mapping held, which is of that size, unless the system refuses a new one |
| `StackCalls.AcquireIsLawful` | src/runloom_c/coro.c:327-370 | on the way it unmaps only stacks of another size, and takes from the depot only stacks of that one |
| `StackCalls.AcquireAdvances` | src/runloom_c/coro.c:327-370 | each step brings it nearer its end; it refills only from an empty cache, until it has 32 or the depot is empty, and maps only with an empty cache |
| `StackCalls.ReleaseCaches` | src/runloom_c/coro.c:761-840 | in every run, a release puts the stack first in its thread's cache, or unmaps it if sampled, and it is no longer held |
| `StackCalls.CutSplits` | src/runloom_c/coro.c:376-394 | a flush keeps the front of the cache and takes the rest |
| `StackCalls.FlushFills` | src/runloom_c/coro.c:395-412 | in every run, whatever the other threads do meanwhile, it leaves the depot as the loop alone would |
| `StackCalls.WarmCaches` | src/runloom_c/coro.c:841-858 | a warm-up puts a new stack of the size asked for first in the cache |
| `StackCalls.PrewarmFills` | src/runloom_c/coro.c:1026-1053 | a prewarm puts one first in the depot, unless that is at its cap or the system refuses |
| `StackLists.Pools.PopLocal` | src/runloom_c/coro.c:324-343 | the first stack of the size, earlier ones unmapped, NULL only from a cache left empty |
| `StackLists.Pools.Refill` | src/runloom_c/coro.c:345-370 | the refill loop with its counters |
| `StackLists.RefillConserves` | src/runloom_c/coro.c:345-370 | what leaves the depot is cached or unmapped by size; it stops at 32 or at an empty depot |
| `StackLists.Pools.Flush` | src/runloom_c/coro.c:372-412 | the flush loop with its counters |
| `StackLists.FlushBounded` | src/runloom_c/coro.c:395-411 | as many as the cap has room for go in, the rest are unmapped, the depot is not raised above the cap |
| `Arena.AllocKeepsInv` | src/runloom_c/coro.c:592-612 | alloc hands out slots nobody has |
| `Arena.FreeKeepsInv` | src/runloom_c/coro.c:618-635 | a free in any order takes out exactly its slots; rewinding or resetting the cursor never passes a slot in use |
| `Arena.AllocSucceedsIff` | src/runloom_c/coro.c:592-612 | alloc succeeds if and only if the class has room, or, where there is none, there is an entry and a mapping with room |
| `Arena.FreeUndoesAlloc` | src/runloom_c/coro.c:614-635 | freeing what was last allocated undoes the allocation |
| `Arena.RunKeepsInv` | src/runloom_c/coro.c:558-635 | in every run live slots lie below the cursor and live is their number |
| `Arena.NoOverlap` | src/runloom_c/coro.c:637-645 | usable ranges of stacks in use never overlap, within or across classes |
| `Arena.ReleaseFindsSlot` | src/runloom_c/coro.c:647-666 | release recovers from the pointer the class and slot that carve issued |
| `Arena.Table.FindClass` | src/runloom_c/coro.c:558-585 | finds the class of a size and node, or maps a new one |
| `Arena.Table.Reserve` | src/runloom_c/coro.c:592-612 | the allocation on the table in memory |
| `Arena.Table.GiveBack` | src/runloom_c/coro.c:618-635 | the free on the table in memory |
| `Arena.Table.LookUp` | src/runloom_c/coro.c:650-666 | the class whose mapping holds a pointer |
| `CoroPool.StepKeepsInv` | src/runloom_c/coro.c:1361-1565 | a step keeps the size-class invariant if and only if it is not a claim that replaces a class still depended on |
| `CoroPool.StepKeepsBase` | src/runloom_c/coro.c:1361-1565 | every step keeps each coro in one place, the caps, the frees and the lock, whatever the claims do |
| `CoroPool.RunKeepsBase` | src/runloom_c/coro.c:1361-1565 | and so does every run |
| `CoroPool.RunKeepsInv` | src/runloom_c/coro.c:1382-1458 | every run whose claims are safe keeps the size-class invariant |
| `CoroPool.PoolsBounded` | src/runloom_c/coro.c:1417-1426 | at most 512 in a thread's pool and 1024 in the global one, in every reachable state |
| `CoroPool.OneSizeIsSafe` | src/runloom_c/coro.c:1388-1395 | if one size only is asked for while no class is claimed, every claim in the run is safe |
| `CoroPool.GlobalHasOneSize` | src/runloom_c/coro.c:1382-1406 | and the global pool holds that size only |
| `CoroPool.RefillServes` | src/runloom_c/coro.c:1471-1501 | and a refill that brings anything serves the request that triggered it |
| `CoroPool.DiscardedOnce` | src/runloom_c/coro.c:1407-1438 | every coro is in one place; a discarded one is freed once and its stack released once |
| `CoroPool.DrainTerminates` | src/runloom_c/coro.c:1449-1458 | whatever the other threads do, a thread's exit drain ends with an empty pool within a bounded number of its own steps |
| `CoroPool.DrainUndisturbed` | src/runloom_c/coro.c:1449-1458 | and no other thread's step affects it |
| `CoroCalls.NewServes` | src/runloom_c/coro.c:1460-1520 | in every run, a new hands out a coro of the size asked for, pooled or fresh, unless none can be made |
| `CoroCalls.DestroyPools` | src/runloom_c/coro.c:1521-1565 | in every run, a destroy ends with the coro first in its thread's pool, or freed if its stack had grown |
| `CoroCalls.FlushesOnlyFull` | src/runloom_c/coro.c:1540-1545 | a destroy flushes first exactly if the pool is full |
| `CoroPool.SizesMix` | src/runloom_c/coro.c:1388-1395 | for any two sizes, a run that asks for them and leaves a coro of each in the global pool |
| `CoroPool.OneSizeIff` | src/runloom_c/coro.c:1379-1395 | over all runs that ask for sizes from a set before the class is claimed: the pool holds one size in all of them if and only if the set has one |
| `CoroPool.RefillMisses` | src/runloom_c/coro.c:1471-1501 | and one in which a refill then brings a coro of another size than was asked for |
| `AutoCap.TickBounds` | src/runloom_c/coro.c:1248-1255 | a tick leaves the watermark between the live count and the larger of old and live |
| `AutoCap.TickKeeps` | src/runloom_c/coro.c:1248-1255 | a tick takes no more off the watermark than its decay by the time passed, rounded down |
| `AutoCap.RetentionBound` | src/runloom_c/coro.c:1220-1256 | whatever the tick schedule over T seconds, the watermark ends at most max(L, h0 / (1 + T / 1.5)) |
| `AutoCap.SafeMax` | src/runloom_c/coro.c:1190-1216 | the ceiling is between 1024 and 2^24 |
| `AutoCap.SafeMaxIsLargest` | src/runloom_c/coro.c:1190-1216 | and is the largest number of stacks that 40 % of the mappings and 12 % of the memory allow |
| `AutoCap.CapBounds` | src/runloom_c/coro.c:1257-1272 | the cap is in [1, 2^24]; with room, twice the cap plus four times live fits the mapping limit; without, it is 1; with no limit known, at least 1024 |
| `AutoCap.CapIsLeast` | src/runloom_c/coro.c:1257-1272 | the cap is the least that covers one and a half watermarks, the prewarm target and 1024, where that is allowed; elsewhere the largest allowed, or 1 |
| `AutoCap.Tuner.Tick` | src/runloom_c/coro.c:1242-1273 | the tick in place |
| `AutoCap.Tuner.Acquire` | src/runloom_c/coro.c:674-681 | acquire raises the watermark to the live count |
| `CopyGrow.Coro.Grow` | src/runloom_c/coro.c:1578-1645 | success exactly when the stack pointer is in range and a mapping was had; then memory is moved as Grown says; failure leaves the coro untouched |
| `CopyGrow.CopyLive` | src/runloom_c/coro.c:1600-1602 | every live word is copied to the same distance from the top |
| `CopyGrow.Rebase` | src/runloom_c/coro.c:1604-1614 | every copied word that points into the old stack is shifted and no other is |
| `CopyGrow.ChainsPreserved` | src/runloom_c/coro.c:1567-1577 | any chain of loads that stays in the live stack gives the same result up to relocation, whatever is outside |
| `CopyGrow.LoadMoves` | src/runloom_c/coro.c:1604-1614 | one load goes to the moved word if and only if the word is kept and the base points into the stack exactly if the word is there |
| `CopyGrow.SurvivesIffSound` | src/runloom_c/coro.c:1567-1577 | when nothing outside points in, a chain of any length through any of memory survives if and only if each of its loads does |
| `CopyGrow.EndPointerLost` | src/runloom_c/coro.c:1610-1612 | a chain through a live pointer just past the end is lost |
| `CopyGrow.SameGraphIff` | src/runloom_c/coro.c:1654-1677 | all such chains survive if and only if no outside word points into the old stack |

## Left out

- Weak memory orderings: every machine is sequentially consistent, so acquire, release and fence arguments are not covered.
- 64-bit wrap-around of the deque's top and bottom, and of the scheduler's other counters.
- The deque's capacity is any positive number; the source's mask is the remainder by a power of two.
- Linked lists are sequences: the pointer surgery of waiter queues, of select's tail fix-up and of the stack and coro lists is not modelled.
- Select.RunKeepsInv: one select at a time; the contents of its channels and the other waiters on their queues are left to the environment, and the bound of ten million retries is dropped.
- SelectOrder.TryEach: what the walk finds at each case is a parameter; the exchange it makes there is that of a plain send or receive.
- Channel.RunKeepsInv: plain operations only; reference counts of the channel object and of values are not modelled.
- HandleTable.RunKeepsInv: assumes fewer than 2^32 references to one slot, the bound that CountWraps shows to be needed.
- BlockPool.RunKeepsInv: workers are not numbered (any number may serve a shard), parks always succeed, the value that the job's function returns is not carried, and the inline fallback, pool shutdown and fault-injection hooks are not modelled.
- WakeState.RunKeepsInv: a preempted fiber's early push onto its own hub's ring, which that hub cannot pop meanwhile, is taken at its release; pinning only decides where an expired sleeper goes.
- Parker.RunKeepsInv: one park of one fiber; fd tables, deadline heaps, stale-arm probes and signal delivery are not modelled.
- UringWait.RecordOutlivesDrainer: the hub path; the single-thread path differs in how it wakes.
- StackPool.RunKeepsInv: arena off; guard pages, poisoning and page reclaim are not modelled.
- CopyGrow.Coro.Grow: stack bounds and stack pointer are word-aligned, the size already page-rounded; returning the old stack to the arena rather than unmapping it is not distinguished.
- AutoCap.RetentionBound: real arithmetic in place of double precision.
- Assembly context switch, mmap and io_uring system calls, epoll and kqueue: a mapping is a fresh disjoint region or a failure, an event happens at any time.
- CPython thread state, garbage-collector hooks beyond the channel ring, after-fork resets, environment parsing, diagnostics and coverage counters.
- io_uring multishot receive and buffer rings.
