# A verified model of dsync

dsync is a reader/writer lock kept by a group of n lock servers: a client asks all of them, holds the lock once enough of
them have granted it (n/2+1 for writing, n/2 rounded up for reading), and releases the grants otherwise. This project
models the protocol as it is coded and proves what its users rely on: mutual exclusion over every interleaving, no leaked
and no overwritten grant, and the exact number of crashed nodes a held lock survives.

## How the model is built

| file | what it holds |
|---|---|
| `Counting.dfy`, `Int64.dfy` | sums over sequences, pigeonhole on node sets; wrap-around of int64 |
| `Quorum.dfy` | quorum sizes and `New` (dsync.go) |
| `UidServer.dfy`, `CounterServer.dfy` | the two lock servers, as functions on the lock map and as classes; the simulation between them |
| `Collector.dfy`, `Verdict.dfy`, `Attempt.dfy` | one attempt: the state machine of the collecting goroutine, its verdict from the replies and the timer alone, and the goroutine itself as loops over the `locks` array and the reply channel |
| `ClientMutex.dfy` | the `DRWMutex` object |
| `Protocol.dfy` | the whole system as a transition system of 15 actions |
| `Backing.dfy` | the invariant every action keeps |
| `RWLock.dfy`, `Exclusion.dfy` | the promised lock, mutual exclusion, refinement, the mutex object's history |
| `Quiescence.dfy`, `Completion.dfy` | runs in which no RPC fails: nothing leaks, a free lock can be had; what each failure leaks; the empty id; every run can be brought to rest |
| `Scenario.dfy`, `Crash.dfy`, `CrashTolerance.dfy` | runs built on purpose; node crashes and the exact tolerance |
| `Availability.dfy` | channel discipline and the availability threshold, over runs |
| `WriterPriority.dfy`, `CallerModes.dfy`, `WrappedProtocol.dfy` | the two-mutex wrapper against writer starvation, on abstract locks and on top of the whole protocol |
| `Maintenance.dfy` | the sweep for long-lived locks and the removal of stale entries |
| `SweepHistory.dfy`, `UidSpacing.dfy` | maintenance over the whole history of one server: what holds of each entry, and what of a UID |
| `Housekeeping.dfy`, `NodeHistory.dfy` | maintenance beside the running system, and the lock map of each node as such a history |
| `Backoff.dfy` | the waiting time between attempts |

A state of the system holds every server's lock map, every mutex object, every attempt (requests not yet executed, replies
under way, reply channel in order of arrival, collector state), and the releases and stray requests under way. An action is
one atomic step: a client arrives, an attempt begins, a server executes a request, any one of the replies under way arrives
or the RPC ends with an error in its place, an RPC fails before it was executed (its request may still be executed later),
the collector takes the next reply from the channel (before or after its verdict), the timer fires, `lock` returns, a vector
is committed, a mutex is unlocked, a release or a stray request is executed or lost, a node crashes and restarts empty. A run
is any sequence of enabled actions, so replies arrive in any order, whatever the order in which the servers executed the
requests. Attempts, the collector and the mutex object take exactly the steps of the functions that the imperative code in
`Attempt.dfy`, `ClientMutex.dfy` and `UidServer.dfy` is proved against.

The central invariant (`Backing.Backed`) counts, for each node, resource, mode and UID, the entries at the server against
the grants that somebody still counts on (in a reply under way, in a channel, in an attempt's vector, in a mutex object) plus the releases under
way. It needs no assumption that UIDs are distinct: `lockBlocking` reuses one id for all its retries. For crashes, the UIDs
of the dropped entries are remembered per node and leave the count, so the same invariant serves runs with crashes.

Assumptions: each RPC is executed at most once, and may be delayed or lost. The handlers, the commit and the unlock bodies
are atomic because the code runs them under a mutex. `unlock` puts all its releases under way in one action; since they may
be delivered in any order and at any time, this only adds interleavings. A grant stores one clock reading as `timestamp` and
`timeLastCheck`, where the handlers read the clock twice in a row (chaos/lock-rpc-server.go:56-57 and 91-92). Clock readings, random numbers and the moment of
the timeout are parameters or nondeterministic choices.

Where code and documentation differ, the model follows the code: the read quorum is n/2 rounded up (dsync.go:53; the comment
at dsync.go:36 says n/2); a release is sent once (drwmutex.go:391-405), although the repository's README.md:203 speaks of retries; `lock`
returns only after every RPC has returned (drwmutex.go:283), also after a timeout. The repository's README.md:229 says
one crashed node is still fine: `SmallestQuorumTolerance` shows that this holds for a minimal quorum exactly when n is even.

## Model

| member | source | states |
|---|---|---|
| Quorum.QuorumSizes | dsync.go:51-53 | for every n >= 2 two quorums exceed n together exactly if their modes conflict or n is odd; write and read quorum add up to n+1 |
| Quorum.ConflictingQuorumsMeet | dsync.go:51-53 | any two sets of nodes of quorum size for conflicting modes share a node |
| Quorum.QuorumsAreTight | dsync.go:52-53 | with a read quorum one smaller there are disjoint read and write quorums |
| Quorum.New | dsync.go:41-60 | fails exactly below 2 and above 32 nodes, otherwise a fresh object with the given clients and both quorum sizes |
| Quorum.CeilingOfHalf | dsync.go:53 | the ceiling of the real quotient n/2.0 is the integer quotient (n+1)/2 |
| UidServer.AcquireEffect | chaos/lock-rpc-server.go:48-102 | a request is granted exactly if no conflicting entry is kept; its entry, with its mode, UID and time, is then appended behind the others; the map stays one writer or only readers per resource, other resources untouched, a refusal changes nothing |
| UidServer.AcquireCounts | chaos/lock-rpc-server.go:52-60 | a grant adds exactly one entry under its resource, mode and UID and no other |
| UidServer.ReleaseEffect | chaos/lock-rpc-server.go:67-119 | a release succeeds exactly if an entry of its mode and UID is kept; otherwise an error is reported and nothing changes |
| UidServer.ReleaseAnswers | chaos/lock-rpc-server.go:67-119 | the whole answer of a release from the entry counts: the reply is true exactly if a lock of its mode is held, and the error says exactly that nothing is held, that the other mode is (with the number of readers), or that the mode is held but not under this UID |
| UidServer.ReleaseCounts | chaos/lock-rpc-server.go:105-138 | a successful release takes away exactly one entry of its resource, mode and UID |
| UidServer.RemoveFirstSplices | chaos/lock-rpc-server.go:123-138 | the removal cuts out the first entry with the UID and keeps the order of the others |
| UidServer.RemoveEntryCounts | chaos/lock-rpc-server.go:141-153 | removal by maintenance takes away at most one entry, of the given UID only |
| UidServer.NoConflictingEntries | chaos/lock-rpc-server.go:37-39 | two conflicting entries at one server are one and the same write entry |
| UidServer.LockServer.Lock | chaos/lock-rpc-server.go:48-64 | the handler is the write case of Acquire on the map it updates |
| UidServer.LockServer.RLock | chaos/lock-rpc-server.go:84-102 | the handler is the read case of Acquire on the map it updates |
| UidServer.LockServer.Unlock | chaos/lock-rpc-server.go:67-81 | the handler is the write case of Release, errors included |
| UidServer.LockServer.RUnlock | chaos/lock-rpc-server.go:105-119 | the handler is the read case of Release, errors included |
| UidServer.LockServer.RemoveEntryLoop | chaos/lock-rpc-server.go:123-138 | the scan removes the first entry with the UID, or the key with its last entry, and reports whether it found one |
| UidServer.LockServer.RemoveIfExists | chaos/lock-rpc-server.go:141-153 | the same, and nothing if the resource has no entries |
| CounterServer.StepSimulates | performance/performance-server.go:35-92 | one operation is answered alike by both servers, and the counters stay the UID lists with UIDs forgotten, exactly if a release that meets its mode names a UID held there; otherwise the answers differ |
| CounterServer.CounterServerSimulates | performance/performance-server.go:35-92 | over every history from empty maps all answers agree if and only if every release is faithful, and then the states correspond |
| CounterServer.CounterOverflows | performance/performance-server.go:69-71 | at 2^63-1 readers the counter wraps and the correspondence is lost |
| CounterServer.ForeignReleaseDiverges | performance/performance-server.go:45-57 | a concrete history with a foreign release on which the servers disagree |
| CounterServer.HistoryWellFormed | chaos/lock-rpc-server.go:41-138 | every operation sequence keeps every map value non-empty and one writer or all readers |
| CounterServer.LockServer.Lock | performance/performance-server.go:35-43 | the handler is the write case of CounterAcquire |
| CounterServer.LockServer.RLock | performance/performance-server.go:61-74 | the handler is the read case of CounterAcquire, with int64 wrap-around |
| CounterServer.LockServer.Unlock | performance/performance-server.go:45-57 | the handler is the write case of CounterRelease, errors included |
| CounterServer.LockServer.RUnlock | performance/performance-server.go:76-92 | the handler is the read case of CounterRelease, errors included |
| Collector.StepAccounts | drwmutex.go:234-280 | on every event each grant held or received is afterwards held or released, exactly once |
| Collector.EveryGrantAccountedFor | drwmutex.go:217-286 | for every reply order and every timeout, kept and released grants together are the grants received; a lost attempt keeps none, a won one at least the quorum |
| Collector.AbortIsExact | drwmutex.go:232-266 | without timeout the loop is left exactly at the n-th reply or when the outstanding replies cannot make the quorum; it then has the quorum exactly if they could |
| Collector.PlayOk | drwmutex.go:228-266 | collector invariant over all event sequences: replies counted, slots only from nodes that answered |
| Collector.TokensAreSlots | drwmutex.go:309-316 | the releases for a vector are its set slots, each once |
| Collector.TokensAscend | drwmutex.go:309-316 | and they go out in node order |
| Attempt.CheckQuorum | drwmutex.go:289-306 | true exactly if the set of granting nodes has the size of the quorum of the mode |
| Attempt.ReleaseAll | drwmutex.go:309-316 | sends a release for every set slot in node order and leaves the vector blank |
| Attempt.TakeReply | drwmutex.go:235-250 | one reply inside the loop is the collector's step on it |
| Attempt.TakeTimeout | drwmutex.go:251-258 | the timer inside the loop is the collector's timeout step |
| Attempt.AwaitVerdict | drwmutex.go:228-266 | the loop up to the verdict plays the events in arrival order, with the timeout only if it came before the verdict |
| Attempt.Drain | drwmutex.go:274-280 | after the verdict every remaining grant is released, in order of arrival |
| Attempt.Collect | drwmutex.go:217-281 | the whole goroutine, for any arrival order and timer: true exactly if the replies taken before the timer contain a quorum of grants; then the vector shows exactly those and the later grants are released in order; otherwise the vector is blank and all grants are released |
| Verdict.VerdictAccounts | drwmutex.go:217-286 | kept and released grants partition the grants, for every arrival order and timeout point |
| Verdict.VerdictIsExact | drwmutex.go:228-281 | the exact verdict, vector and releases of the state machine from the replies and the moment of the timer alone, for every arrival order and every moment |
| ClientMutex.DRWMutex.LockBlocking | drwmutex.go:132-172 | stores the vector of the first winning attempt, if no deadline passed before, and otherwise changes nothing |
| ClientMutex.DRWMutex.Unlock | drwmutex.go:321-350 | panics exactly if no slot is set; otherwise blanks the vector and releases each of its grants |
| ClientMutex.DRWMutex.RUnlock | drwmutex.go:355-374 | panics exactly on an empty queue; otherwise takes out the oldest vector and releases its grants |
| ClientMutex.SendReleases | drwmutex.go:376-405 | one release per set slot, in node order |
| Backing.ShapeKept | drwmutex.go:175-286 | every action keeps the shape of the system: servers well formed, channels accounted, vectors blank or quorums |
| Backing.SlackNeverShrinks | drwmutex.go:207-212 | no action reduces entries minus grants of a tracked token; an action on which no RPC fails leaves the difference unchanged unless it overwrites a held vector |
| Backing.RunKeepsInv | drwmutex.go:175-405 | the backing invariant holds in every state of every run, with any failures and crashes |
| Backing.EveryGrantIsBacked | drwmutex.go:207-212 | without crash, at every node the entries for a resource, mode and UID are at least the grants and undelivered releases that count on them, UIDs shared or not |
| Exclusion.NoNodeServesBoth | chaos/lock-rpc-server.go:48-102 | no node backs two conflicting holders with entries it still has |
| Exclusion.MutualExclusion | drwmutex.go:175-286 | two holders of a resource are both readers, whether still uncommitted or in a mutex object |
| Exclusion.MutualExclusionOverRuns | drwmutex.go:175-286 | the same in every reachable state of every run without node crash, with replies overtaking one another, late, lost or replaced by errors |
| Exclusion.NoLiveGrantIsOverwritten | drwmutex.go:149-163 | a committed write vector always lands on a blank one |
| Exclusion.UnlockPanicsExactly | drwmutex.go:321-346 | in every crash-free run Unlock panics exactly if commits do not exceed unlocks by one, RUnlock exactly if no read commit is open; a write vector is blank or a quorum |
| Exclusion.ReadersKeepWritersOut | drwmutex.go:154-158 | in every crash-free run the queue is as long as read commits exceed unlocks, each vector left is a read quorum, every set slot of it has its entry at the node, and while the queue is not empty every holder of the resource is a reader |
| Exclusion.WinnerFindsLockFree | drwmutex.go:149-163 | when an attempt has won, the lock is free for its mode |
| Exclusion.ProtocolRefinesRWLock | drwmutex.go:50-172 | every action of the protocol is, per resource, a permitted step of a reader/writer lock or invisible |
| Exclusion.RunStaysExclusive | drwmutex.go:50-172 | over every crash-free run a resource has at most one writer, and then no reader |
| Quiescence.EntriesMatchGrants | drwmutex.go:376-405 | if no RPC fails, entries equal grants plus releases under way, at every moment |
| Quiescence.QuiescenceEmptiesServers | drwmutex.go:271-280 | if no RPC fails and every id is non-empty, then once all is unlocked, drained and delivered every server map is empty |
| Quiescence.FreeLockIsObtainable | drwmutex.go:132-172 | after every such run, if no conflicting grant of a resource is counted on any more, a call whose requests are served wins on every node and commits, again without failure |
| Quiescence.EachFailureLeaks | drwmutex.go:391-405 | for every n, a lost reply, a request executed after it was given up, or a lost release, each alone, leaves an entry nobody counts on |
| Completion.EveryRunCanComplete | drwmutex.go:132-405 | every run, with any failures and crashes, can be continued without a further failure until every call has returned, every lock is unlocked and every release delivered; if nothing had failed before, all servers are empty then |
| Quiescence.EmptyIdEntryIsForever | drwmutex.go:70-72 | an entry granted under the empty id is never removed in any crash-free run |
| Quiescence.EmptyIdLeaks | drwmutex.go:207-212 | for every n a run without failure under the empty id ends quiescent with an entry left at every server |
| Scenario.AttemptOutcome | drwmutex.go:217-286 | an attempt served node by node wins exactly if a quorum of nodes grants, and its vector shows exactly those nodes |
| Crash.SurvivorsExclude | chaos/lock-rpc-server.go:48-102 | in every run with any crashes, from the moment a lock is won, stored yet or not, and while it is held, no attempt begun since wins in a conflicting mode if the surviving grants exceed n minus its quorum |
| Crash.LostExactlyByCrash | chaos/lock-rpc-server.go:41-45 | a grant of a lock that is won or held throughout a run is lost exactly by a crash of its node |
| CrashTolerance.CrashToleranceIsExact | README.md:218-238 | for every n, modes, grants w and losses k: some story with distinct UIDs grants the conflicting lock too early if and only if w-k <= n minus its quorum |
| CrashTolerance.SmallestQuorumTolerance | README.md:222-238 | a minimal write quorum survives one crash exactly for even n, and never two |
| Availability.ChannelDiscipline | drwmutex.go:178-215 | in every reachable state no RPC that is still out, executed or not, will meet a closed or full channel; no receive reads the closed channel's zero value; all n replies are accounted for; every request, reply, receive and return that is due can go ahead |
| Availability.RepliesOvertake | drwmutex.go:198-212 | of two replies under way either may enter the channel first |
| Availability.AvailabilityThreshold | README.md:242-251 | over every run from the begin of a call on, among any other traffic: if the nodes in one set fail and the others answer, refusing exactly in a second set of nodes with a conflicting entry, and the timer does not fire, the call has won when it returns if and only if the union has at most n minus its quorum nodes, and its vector then shows exactly the other nodes |
| Availability.TimerThreshold | drwmutex.go:251-266 | if the timer fires before the verdict in such a run, the call has won, whatever follows, if and only if the nodes whose replies were taken by then and that neither failed nor refused are a quorum; its vector then shows exactly these |
| Availability.InTheWayIsRefused | chaos/lock-rpc-server.go:48-102 | a server is in the way exactly if its handler refuses, that is, if it keeps a conflicting entry |
| WriterPriority.WriterHasPriority | chaos/chaos.go:546-562 | from taking `excl` until it takes `rw`, a writer is overtaken by nobody, readers inside never increase, and it can enter exactly after as many exits as there were users |
| WriterPriority.ExitsUnblockTheWriter | chaos/chaos.go:546-566 | a run of exits alone, one per user, lets the waiting writer in |
| WriterPriority.LeaveIsAlwaysPossible | chaos/chaos.go:553-566 | whoever is inside can leave, without `excl` |
| WriterPriority.NobodyIsStuck | chaos/chaos.go:546-566 | in every reachable state with a caller under way some caller can go on |
| WriterPriority.AdvanceIsARun | chaos/chaos.go:546-562 | what a call does from wherever it waits until it waits again or is inside is a run of the caller's own actions, and no further action of it is enabled there |
| WriterPriority.DRWMutexNoWriterStarvation.Lock | chaos/chaos.go:546-551 | a writer's call gets exactly as far as both locks allow: waiting without anything, waiting with `excl`, or inside with `excl` given back |
| WriterPriority.DRWMutexNoWriterStarvation.Resume | chaos/chaos.go:546-562 | a call that had to wait goes on from where it stood, again exactly as far as both locks allow |
| WriterPriority.DRWMutexNoWriterStarvation.Unlock | chaos/chaos.go:553-555 | panics exactly if there is no writer on `rw`, otherwise releases it; `excl` is not touched |
| WriterPriority.DRWMutexNoWriterStarvation.RLock | chaos/chaos.go:557-562 | the same for a reader's call, which also takes `excl` first |
| WriterPriority.DRWMutexNoWriterStarvation.RUnlock | chaos/chaos.go:564-566 | panics exactly if there is no reader on `rw`, otherwise releases one; `excl` is not touched |
| CallerModes.LocksCountCallers | chaos/chaos.go:546-566 | over every run both locks are read off the actions alone: `excl` counts the callers between taking and giving it back, `rw` the callers past taking it and not yet past leaving, as writers or readers by the mode of their latest call |
| CallerModes.ReadersShare | chaos/chaos.go:557-562 | with read calls only, `rw` never has a writer, and whoever has `excl` can take `rw` whatever readers are inside |
| CallerModes.CallRoundTrip | chaos/chaos.go:546-566 | a call that finds the locks free goes in, counted in its mode, and out again, and everything is as before |
| WrappedProtocol.RunRefines | chaos/chaos.go:534-566 | every crash-free run of wrapper callers on the protocol, with all its messages and other resources, is a run of the abstract wrapper |
| WrappedProtocol.RwCountsCallers | chaos/chaos.go:546-566 | the lock `rw` of the protocol counts its callers by the modes of their latest calls, over every such run |
| WrappedProtocol.EveryActionIsAStep | chaos/chaos.go:534-566 | no action of the system is left out: it is a step as it is, or that of the caller waiting for it |
| WrappedProtocol.WriterHasPriorityOnProtocol | chaos/chaos.go:546-562 | on the protocol: between a writer's commit on `excl` and its commit on `rw` no other commit on `rw` takes place, readers inside never increase, and `rw` is free for it exactly after as many exits as there were users |
| Maintenance.GetLongLivedLocks | chaos/lock-rpc-server.go:162-178 | the sweep visits every resource once, updates exactly the overdue entries, and hands back each entry as often as it stands overdue in the map |
| Maintenance.SweepResource | chaos/lock-rpc-server.go:168-174 | the inner loop, in place on the slice of one resource |
| Maintenance.SweepReportsOverdue | chaos/lock-rpc-server.go:166-175 | a pair is reported exactly if it is an entry of a visited resource and overdue at its check |
| Maintenance.SweepReportsOnce | chaos/lock-rpc-server.go:166-175 | for any walk that visits each resource once, a pair is reported once for each position at which its entry is overdue |
| Maintenance.ReportInOrder | chaos/lock-rpc-server.go:168-174 | the reports of a resource are its list, as it was before the sweep, at the overdue positions, in order |
| Maintenance.SweepKeepsEntries | chaos/lock-rpc-server.go:172 | a sweep changes no count of entries and keeps the map well formed |
| Maintenance.SweepKeepsInv | chaos/lock-rpc-server.go:162-178 | a sweep at any node of the system keeps every grant backed |
| Maintenance.RemovalKeepsInv | chaos/lock-rpc-server.go:141-153 | removing an entry whose owner holds nothing at that node keeps every grant backed, and takes away one entry of the resource and UID and no other |
| Maintenance.LateRemovalKeepsInv | chaos/lock-rpc-server.go:141-153 | so does removing it after any further run, releases included, in which the UID is not used anew |
| SweepHistory.ReportIsHandedBack | chaos/lock-rpc-server.go:162-178 | for any walk of the map, a sweep hands back a pair with this resource and UID exactly if it has an overdue entry of them |
| SweepHistory.EntryStep | chaos/lock-rpc-server.go:48-175 | each operation leaves every entry either new, with the time of its grant, or one that was there before, changed only by a sweep that reports it; its position before is followed through appends and splices |
| SweepHistory.LastCheckIsTheLatestMark | chaos/lock-rpc-server.go:52-58 | over every history of requests, releases, sweeps and removals with a clock that never runs backwards, the stored time of an entry is the latest of its grant and its own reports |
| SweepHistory.ReportedExactlyWhenDue | chaos/lock-rpc-server.go:166-175 | in every such history, UIDs shared or not, a sweep reports an entry it meets if and only if its grant and each of its own earlier reports are at least the interval old |
| SweepHistory.EntryReportsAreSpaced | chaos/lock-rpc-server.go:168-173 | in every such history any two reports of one entry are at least the interval apart |
| UidSpacing.SweepsAreSpaced | chaos/lock-rpc-server.go:168-173 | in every such history two sweeps that report the same resource and UID are at least the interval apart if the first of them meets a single entry of them, whatever is released and taken in between |
| UidSpacing.SpacedExactlyIfSingle | chaos/lock-rpc-server.go:84-102 | after any such history, a next sweep and any later one with the same interval that report a resource and UID are always that far apart if and only if the server keeps at most one entry of them; two read entries under one UID, which the read handler grants, break it |
| UidSpacing.UidReportedExactlyWhenDue | chaos/lock-rpc-server.go:166-175 | sweeps go by all grants and reports of the resource and UID, not only by those of the entry, exactly if none of them is later than the entry's last check; so it is for an entry alone under its UID since its grant |
| UidSpacing.OneEachIsSingle | chaos/lock-rpc-server.go:84-102 | if every granted UID has no entry of the resource yet, a single entry is all the server ever keeps of them |
| UidSpacing.OneEachIsAlone | chaos/lock-rpc-server.go:84-102 | and every entry has been alone under its UID since its grant |
| UidSpacing.SharedUidIsReportedTwice | chaos/lock-rpc-server.go:84-95 | an instance: two read entries under one UID, reported five apart with an interval of ten |
| Housekeeping.KeepingIsSound | chaos/lock-rpc-server.go:140-178 | every run of the system with sweeps anywhere and removals, at any later time, of entries once found without owner keeps the backing invariant |
| Housekeeping.ConfirmedMayGo | chaos/lock-rpc-server.go:141-153 | what was once found without an owner may be removed at any time later |
| Housekeeping.MaintainedExclusion | chaos/lock-rpc-server.go:140-178 | mutual exclusion in every such run without crash |
| NodeHistory.NodeFollowsHistory | chaos/lock-rpc-server.go:48-153 | in every such run in which it does not crash, a node's lock map is the map after the history of what it was asked |
| NodeHistory.HistoryTicks | chaos/lock-rpc-server.go:166-175 | if the servers' clock readings never run backwards over the run, neither do those of a node's history |
| NodeHistory.NodeSweepsAreSpaced | chaos/lock-rpc-server.go:166-175 | in every such run two sweeps of a node that report the same resource and UID are at least the interval apart if the first one meets a single entry of them |
| NodeHistory.OnceKept | drwmutex.go:185-212 | every action keeps that, for each node, resource and UID, requests still to be executed (also as strays) and entries together are at most one, provided each attempt on a resource has its own UID |
| NodeHistory.NewIdsAreOneEach | drwmutex.go:185-212 | then a node's history grants no UID a resource of which it has an entry |
| NodeHistory.NewIdsAreSpaced | chaos/lock-rpc-server.go:166-175 | and any two sweeps of a node that report the same resource and UID are at least the interval apart |
| Backoff.NoOverflowExactly | retry.go:77-84 | no attempt number overflows int64 if and only if the unit is below 2^33 ns |
| Backoff.ExponentialBackoffWait | retry.go:77-92 | for every unit and cap the wait is the doubled, wrapped and capped unit less the random share of it, rounded by less than one; for units below 2^33 ns and cap >= 0 that is min(cap, unit*2^min(attempt,30)) less its share, between 0 and that bound |
| Backoff.BoundIsLeast | retry.go:77-87 | the bound is the smaller of the cap and the unit doubled once per attempt, at most thirty times |
| Backoff.OverflowingUnit | retry.go:84-87 | at a unit of 2^33 ns the thirtieth wait is negative |
| Backoff.BoundGrows | retry.go:84-87 | the bound never decreases with the attempt number |
| Backoff.RetryTimer | retry.go:94-118 | attempt numbers are emitted in order; the wait after attempt k is the bound for k+1 less the random share given by the normalised jitter, the bound itself without jitter, and then waits never decrease |

## Left out

- NodeHistory.NewIdsAreSpaced: `lockBlocking` reuses one id for all its retries, so distinct ids are not what every caller gives; NodeHistory.NodeSweepsAreSpaced and UidSpacing.SpacedExactlyIfSingle say what holds without them.
- CounterServer.CounterServerSimulates: histories of fewer than 2^63 operations, because the counter is an int64; CounterServer.CounterOverflows shows what happens at 2^63-1 readers.
- WriterPriority.ExitsUnblockTheWriter: "can enter" is that of the abstract lock; on the protocol WrappedProtocol.WriterHasPriorityOnProtocol says when `rw` is free and Quiescence.FreeLockIsObtainable that a lock no grant counts on can be had, but not that the releases of the last user are delivered in time.
- Backoff.ExponentialBackoffWait: products of floating-point numbers are taken over the reals, without rounding.
- ClientMutex.DRWMutex.LockBlocking: the outcome of each attempt and the deadline are inputs, and the context is not modelled, because the `break` at drwmutex.go:140 leaves only the `select`.
- Progress of the protocol itself (that a lock is eventually granted): depends on timing and on back-off randomness; what is proved is the availability threshold of one call, that a free lock can be had, that every run can be brought to rest, and the freedom of the wrapper from circular waits.
- Delivery of releases: `sendRelease` sends once, so nothing is claimed about a release that is lost; its entry stays until maintenance removes it.
- RPC clients, reconnecting and the network: replaced by the assumption that a request is executed at most once.
- The auth-locker example: its handlers grant to every logged-in caller and do not keep the exclusion the protocol rests on.
- Process handling, test scenarios and benchmarks in the chaos and performance directories, `ForceUnlock`, logging, `getSource`, `randString`, the `DRLocker` cast: they carry no property the lock depends on.
