# Verification of the directory size exporter

This project models the exporter's scan engine, its retention store, its target resolver and the loops that
join them, and proves what they promise about every number they publish. The main results are for-all statements
over trees, histories, configurations or interleavings; `ScanWitness.VanishedRootCompletes` and
`HardLinks.OverflowDependsOnOrder` are witnesses that something does happen.

**Scan protocol** (`ScanProtocol`, `ScanLedger`, `ScanInvariant`, `ScanSteps`, `ScanSafety`, `ScanProgress`,
`ScanVerdict`, `ScanWitness`, `ScanOrders`). One `ScanAll` cycle is a transition system of 27 kinds of action: any
number of workers with private stacks and one shared queue, the main goroutine, one supervisor per target, and an
environment that cancels, lets timers fire, leaks workers and makes system calls hang. An action is a step no
other goroutine can split. The invariant is a ledger: for each counter, what is flushed, what workers hold and the
recursive measure (`FileTree`) of every outstanding directory add up to the measure of the tree.

**Independent readings** (`Reference`, `LinkReference`, `ScrapeLaws`). What a scan, a dedup and a scrape must come to,
said in the plainest terms: by listing the directories and entries of a tree and looking at each, by the fields of
errors and files, by the history of a target. The definitions the rest is proved against are shown to be these.

**Walk and pool as they run** (`WorkPool`, `ScanWalk`, `WorkerLoop`, `FakeFs`, `FsErrors`). The same steps as
imperative classes: a stack over a backing array shifted in place, reused per-directory totals, a batched read
loop over paging handles, the capped inode table, and the worker's turn that joins them. Their contracts are the
functions the protocol's actions are made of; `HardLinks` proves what those functions add up to in any order.

**Timeouts** (`Supervision`, `ScanSupervision`, `Timeouts`, `EngineConfig`). The two selects of `supervise` in
time and how they are the protocol's supervisor actions, the hard-timeout rules of `Validate`, the engine's
defaults.

**Retention** (`Retention`, `RetentionLaws`, `Store`, `RetentionStore`). A target's state is a function of its
history; the mutable store refines it. From the history form follow the staleness, erasure and growth laws.

**Targets** (`Ordering`, `Targets`, `Resolver`). Passes over patterns, with grace periods across runs.

**The whole** (`Exporter`, `CycleLaws`, `Collector`, `CollectorLaws`). Reloading threads, scan cycles running the protocol
itself, and scrapes, interleaved; and which series a scrape shows over time.

What the proofs brought out about the code:

- A root that passes `Lstat` and is gone when it is opened is reported complete with size zero
  (walk.go:34-45). `ScanWitness.VanishedRootCompletes` is such a run; `ScanSafety.VanishedRootShows` says that it is
  the open error alone that decides, and how such a result can be told from every other one.
- `processDir` leaves a directory silently when a token request fails (walk.go:66-68). The soundness theorem
  needs that `WaitN` fails only once the process context is done, which is the guard of the `Pay` action. The
  engine does not enforce it; it holds for a context without a deadline (main.go:210), because a request never
  exceeds the burst (`EngineConfig.BatchIsPaid`).
- The hard timeout alone does not bound supervision: after a timeout or cancellation a further
  max(hard timeout, drain timeout) may pass. `Supervision.HardTimeoutOverrun` says exactly when.
- Doubling a scan timeout of 2^62 nanoseconds or more overflows, and then no hard timeout is in force
  (`Timeouts.HardTimeoutWorks`).
- Past the inode cap the size can depend on the order links are met in. Over all orders of the inode set's input
  it does exactly when two inodes have links of different total weight beyond the first
  (`HardLinks.OrderIsFreeIff`). A walk cannot produce every order of a deeper tree, so there the condition is
  only sufficient for agreement (`ScanOrders.ReportsAgree`); in one directory it is exact
  (`ScanOrders.DirectoryAgreesIff`). The result is then never complete.
- A cycle can stall only without a hard timeout, on a walk that neither ends nor is cancelled
  (`ScanProgress.StallsIff`), and which verdict a target gets is a table over what happened before its
  supervisor looked (`ScanVerdict.VerdictTable`).
- A worker that pushes after the pool closed leaves work in a queue nobody reads. The model has that step; it
  is harmless because the pool closes only after every target has reported.
- The comment at main.go:320-323 that a coalesced reload observes the same state is not claimed: the running
  reload may already have expanded its patterns.

## Model

| member | source | states |
|---|---|---|
| ScanSafety.CompleteMeansExact | internal/scan/engine.go:320-335 | on every interleaving, with any number of workers, batch size, donation thresholds and read order, a result reported complete or partial has every counter equal to the recursive measure of the target's tree, cut off at the root's device exactly when one-filesystem is on; and it is complete exactly when that tree has no failing read, stat or open other than of a vanished entry and no more linked inodes than may be tracked, so the interleaving has no say in the verdict |
| ScanVerdict.ReportIsTrue | internal/scan/engine.go:320-335 | said without the measure: in a complete or partial report each counter is what one counts by listing every directory below the fence and every entry in them; it is complete exactly when no read fails, no open or stat fails but with not-exist or a stale handle, and no more pairs of device and inode number have linked files than may be tracked; sizes, links and savings are those of the listed files |
| Reference.MeasureIsCount | internal/scan/walk.go:30-137 | the recursive measure is that count, for every counter, error class and file |
| Reference.ReadableIffNoFault | internal/scan/walk.go:34-108 | the measure has no fault exactly when every failing open or stat says not-exist or stale and no read fails |
| Reference.FilesAreThose | internal/scan/walk.go:125-135 | and its files are the regular ones among the listed entries |
| Reference.ErrorsAreSorted | internal/scan/errclass.go:39-79 | class and vanished are told by the error's own fields: permission before not-exist before the number; gone is not-exist or a stale handle, and nothing else |
| ScanSafety.CompleteSizeIsExact | internal/scan/walk.go:130-136 | if links to one inode agree, the size, allocation and file count of a complete result are one amount per singly-linked file and one per distinct inode, whatever order the workers met the links in |
| ScanSafety.PartialSizeIsBracketed | internal/scan/target.go:180-187 | a partial result of a whole walk, inode overflow included, lies between that exact amount and the raw sum over all links |
| ScanSafety.LatchedIsMeasured | internal/scan/target.go:99-113 | once the latch fired by itself and nothing was skipped, the shared counters already are the measure, before any supervisor looks |
| ScanSafety.LatchCountsOutstanding | internal/scan/target.go:106-119 | in every reachable state pending is the number of directories queued, on a stack, in flight, reserved, in the main goroutine's hand or dropped; it reaches zero at most once; done is closed only by that or by giving the target up |
| ScanSafety.AccountsBalance | internal/scan/target.go:122-194 | at every moment bytes counted plus bytes saved by dedup, flushed or still with a worker, are the sizes of all files met; each file met is in the counters once; tracked inodes never exceed the cap |
| ScanSafety.DirsReadIsDirectoriesPlusOne | internal/scan/walk.go:82-84 | a finished walk read exactly one directory more than it counted below the root |
| ScanSafety.VanishedRootShows | internal/scan/walk.go:34-45 | a finished walk of a root that could not be opened is reported complete if and only if the open error says it vanished, otherwise partial, and has no bytes; among complete results such a root shows as no entry and exactly one vanished one, and no other does |
| ScanWitness.VanishedRootCompletes | internal/scan/walk.go:34-45 | such a run exists for every configuration: a root gone between Lstat and OpenDir is reported complete with size zero |
| ScanSafety.OneResultEach | internal/scan/engine.go:193-232 | when ScanAll has returned, every target got exactly one start mark and exactly one result |
| ScanSafety.ResourcesAreBounded | internal/scan/engine.go:177-190 | the live gauge is earlier leaks plus this cycle's unfinished workers, which bound the open directory handles and are no more than were configured; the shared queue never exceeds its limit plus the roots pushed |
| ScanSafety.CleanDrainShowsOldLeaks | internal/scan/engine.go:240-259 | after a drain in which every worker exited, the abandoned gauge counts earlier cycles' leaks only |
| ScanSafety.AnswersFixed | internal/scan/engine.go:388-410 | no action of a cycle changes what the file system answers for a target, so the tree measured is the tree the cycle was given |
| ScanSafety.NoCancelledWhileLive | internal/scan/engine.go:320-324 | in every reachable state with a live process context no result is cancelled |
| ScanSafety.StepKeepsCancelKnown | internal/scan/engine.go:320-334 | no action reports a target cancelled, or is about to, before the process context is done |
| ScanSafety.ContextFollows | internal/scan/engine.go:407-409 | the process context is done exactly from its cancellation on, whatever the targets |
| ScanSteps.StepKeeps | internal/scan/engine.go:388-410 | each of the 27 kinds of action of workers, main goroutine, supervisors and environment keeps the whole invariant: ledgers, latch, stages, gauges |
| ScanSteps.ReachableInv | internal/scan/engine.go:173-233 | the invariant holds in every state of every run |
| ScanSteps.LedgerKept | internal/scan/engine.go:388-406 | for every counter, what was flushed plus what workers hold plus the measure of all outstanding directories stays the measure of the tree |
| ScanSteps.FlagsKept | internal/scan/engine.go:298-335 | each supervisor read leaves established what the outcome decided from it needs |
| ScanInvariant.LedgerPush | internal/scan/engine.go:400-405 | publishing a directory's children, donation to the shared queue included, moves outstanding work without gaining or losing any of any counter |
| ScanInvariant.LedgerSift | internal/scan/walk.go:89-137 | sifting one entry moves exactly its measure from what is owed to what is held or queued |
| ScanInvariant.LedgerFinish | internal/scan/target.go:109-113 | completing a directory takes one off the latch and nothing off the counters |
| ScanProgress.NoRunIsEndless | internal/scan/engine.go:388-410 | no interleaving of a cycle goes on for ever, whoever moves, hangs, times out or is cancelled |
| ScanProgress.StepDrops | internal/scan/engine.go:388-410 | every action lowers the remaining work, or keeps it and uses up a wake-up |
| ScanProgress.CycleNeverStalls | internal/scan/engine.go:291-318 | however many calls hang, a cycle that has not returned has a step of its own main goroutine or supervisors to take, cancelling the process not counted, unless it is stalled: no hard timeout is set, every target is started, not all have reported, and every one that has not waits on an open latch under a live context |
| ScanProgress.StallsIff | internal/scan/engine.go:291-318 | and a stalled cycle has no such step: the condition is exact |
| ScanProgress.ParkedMeansIdle | internal/scan/engine.go:495-508 | a parked worker has an empty stack, the shared queue is empty and the pool open: no wake-up is lost |
| ScanProgress.RestMeansLatched | internal/scan/engine.go:388-410 | with calls returning, the pool open and the process live, the workers come to rest only once every queued target's latch has fired by itself |
| ScanProgress.RestMeansReturned | internal/scan/engine.go:193-233 | with calls returning and the process live no timer is needed: a cycle in which only timers, cancellations, hangs and earlier leaks could still act has returned |
| ScanVerdict.VerdictTable | internal/scan/engine.go:261-335 | over any run a target's result is settled by what came before its supervisor looked: cancelled if and only if the process was told to stop before it read the process context; timeout if and only if not that, and before it read the scan context its timer fired or that context ended; otherwise complete or partial by its tree alone, and true of it; a root that could not be used is missing or in error by its own stat, with that one error and nothing else |
| ScanVerdict.StepStaysOnTable | internal/scan/engine.go:298-335 | every action of every goroutine keeps each supervisor where the run so far has it stand |
| ScanVerdict.VerdictHasCause | internal/scan/engine.go:298-335 | so a result is the one due to what the file system answers unless shutdown, that target's scan timeout or its timer struck |
| ScanVerdict.GivenUpIsLeft | internal/scan/engine.go:393-398 | from when a target is given up or its scan context has ended, and not before, its queued directories are dropped unopened and its reads stop |
| ScanVerdict.WorkerHeedsShutdown | internal/scan/engine.go:407-409 | after a directory a worker ends if and only if the process was told to stop |
| ScanVerdict.QuietCycle | internal/scan/engine.go:173-233 | a cycle in which none of these strikes and no call hangs, run until only the outside could act, has returned with the result due to every target |
| FileTree.DirReadsAreDirsPlusOne | internal/scan/walk.go:82-84 | in the measure itself every directory below the root is discovered once and read once |
| FileTree.OrderFree | internal/fsstat/fake.go:279-289 | a directory measures the same in whatever order its entries are returned |
| FileTree.FilesMeasured | internal/scan/walk.go:125-135 | the list of a tree's regular files holds each file exactly as often as the measure says it is met |
| HardLinks.DedupIsOrderFree | internal/scan/target.go:167-194 | in any order of the same files the inode set overflows if and only if there are more linked inodes than the cap; if it does not, every figure is the exact one, and if it does, it lies between the exact figure and the raw sum |
| HardLinks.OrderIsFreeIff | internal/scan/target.go:180-187 | links agreeing, the inode set run over the same files in any order, whether or not a walk could meet them so, gives the same figure if and only if all linked inodes can be tracked or all have the same excess: what their links beyond the first weigh |
| ScanOrders.ReportsAgree | internal/scan/target.go:180-187 | under that condition any two finished runs over one tree, whatever its shape, report the same figure, complete or not |
| ScanOrders.DirectoryAgreesIff | internal/scan/target.go:180-187 | for a directory of files whose links agree the condition is exact over runs of the protocol: if it fails two runs over it report different figures |
| ScanOrders.EveryOrderHappens | internal/scan/walk.go:89-137 | every order of a directory's files is that of a run that finishes and reports the bytes of that order |
| HardLinks.OrderMatters | internal/scan/target.go:180-187 | past the cap, any two inodes of different excess yield two orders of the same files with different figures |
| HardLinks.OverflowIff | internal/scan/target.go:180-191 | overflow happens if and only if a positive cap is below the number of distinct linked inodes, and then the set is full |
| HardLinks.FoldIsRawLessExcess | internal/scan/target.go:167-194 | in every order the figure is the raw sum less the excess of the inodes tracked |
| HardLinks.OverflowDependsOnOrder | internal/scan/target.go:180-187 | one concrete instance of the last: two orders of three links to two inodes under a cap of one |
| HardLinks.FoldIsReference | internal/scan/target.go:167-194 | without overflow the running books are, after every file, the singles plus one amount per inode |
| LinkReference.ExactIsOnce | internal/scan/target.go:12-17 | the exact figure is that of counting each file once but for a further link to the same device and inode number |
| LinkReference.CountedOnceEach | internal/scan/target.go:12-17 | as many files count as are not links plus distinct pairs of device and inode number that are |
| LinkReference.PairsAreKeys | internal/scan/target.go:167-194 | the inode set has to hold as many as there are such pairs |
| LinkReference.TwoLinks | internal/scan/target.go:173-178 | two links are charged as one exactly if device and inode number both agree, the second then as saved |
| LinkReference.LinksAreNoted | internal/scan/target.go:170-178 | in any order every link met is noted, and counted and saved sizes add up to all sizes |
| LinkReference.ExactAddsUp | internal/scan/target.go:12-17 | exact figures of two lists of files sharing no inode add up |
| HardLinks.FoldBrackets | internal/scan/target.go:167-194 | with or without overflow they lie between that and the raw sum |
| HardLinks.CountedPlusSaved | internal/scan/target.go:175-178 | every byte met is either counted or booked as saved |
| HardLinks.TrackingIsCapped | internal/scan/target.go:180-191 | no order of files makes the inode set exceed its cap |
| FsErrors.ErrorTally.Add | internal/scan/errclass.go:86-96 | adding an error records one more of its class, a nil error none; map and total both follow |
| FsErrors.ErrorTally.Merge | internal/scan/errclass.go:98-109 | merging adds the other tally's errors class by class, and the total remains the number of errors |
| FsErrors.ErrorTally.Snapshot | internal/scan/errclass.go:112-118 | the copy holds each class met with its count, and no class that was not |
| FsErrors.TotalIsSumOfClasses | internal/scan/errclass.go:81-109 | the total the outcome is decided on is the sum of the published per-class counts |
| WorkPool.LocalStack.Append | internal/scan/engine.go:457 | append keeps what is there, grows the backing array when full and leaves no stale slot |
| WorkPool.LocalStack.PopNewest | internal/scan/engine.go:488-492 | pops the newest entry and clears its slot |
| WorkPool.LocalStack.ShiftDown | internal/scan/engine.go:473 | the in-place copy moves the kept block down and leaves everything from its new end on unchanged |
| WorkPool.LocalStack.ClearTail | internal/scan/engine.go:474-476 | exactly the vacated slots become nil |
| WorkPool.LocalStack.DropOldest | internal/scan/engine.go:470-477 | the stack is its old contents without the oldest entries, in the same order, every vacated slot cleared |
| WorkPool.Pool.PushShared | internal/scan/engine.go:449-455 | roots go straight to the shared queue, with a broadcast |
| WorkPool.Pool.PushLocal | internal/scan/engine.go:457-480 | children go on the stack, then exactly the oldest prefix the rules allow moves to the shared queue; a broadcast follows exactly when something was donated |
| WorkPool.Pool.Next | internal/scan/engine.go:484-509 | closed first, then the newest local entry, then the newest shared one, else wait |
| WorkPool.Pool.Close | internal/scan/engine.go:513-519 | closing drops the shared queue and wakes everybody |
| Donation.DonationConserves | internal/scan/engine.go:457-479 | a donation keeps the combined multiset, takes at most half the stack, keeps the queue within its limit, and happens if and only if the stack is over the threshold and the queue has room |
| Donation.DonationIsMost | internal/scan/engine.go:460-469 | past the threshold no larger donation would leave the worker half and the queue within its limit |
| Donation.TakeIsNext | internal/scan/engine.go:484-509 | the protocol's worker, undisturbed, takes what the pool's next returns |
| FakeFs.FakeFS.OpenDir | internal/fsstat/fake.go:263-295 | a directory opens with its entries in some order and one more handle counted, or fails and counts none; the high-water mark follows |
| FakeFs.FakeDir.ReadSome | internal/fsstat/fake.go:358-390 | pages are consecutive slices of the listing, never empty before its end, and end is reported on the read after the last page |
| FakeFs.FakeDir.Close | internal/fsstat/fake.go:347-356 | closing twice gives the handle back once |
| ScanWalk.TargetScan.CompleteDir | internal/scan/target.go:109-113 | the latch closes exactly when the last pending directory completes |
| ScanWalk.TargetScan.Flush | internal/scan/target.go:122-159 | all counters, per-class errors and bytes grow by the directory's totals and one directory read, though zero additions are skipped |
| ScanWalk.TargetScan.ShouldCount | internal/scan/target.go:167-194 | only a further link to a tracked device and inode number does not count; inode set, overflow mark and both link counters are those of the dedup policy, which the order laws are about |
| ScanWalk.CountFile | internal/scan/walk.go:130-136 | a regular file adds its bytes exactly as the policy charges it |
| ScanWalk.ProcessEntry | internal/scan/walk.go:89-137 | one entry moves totals, inode table and children exactly as one sift step of the protocol |
| ScanWalk.ReadAll | internal/scan/walk.go:48-80 | the read loop sifts exactly the batches up to the poll that stops it or the request that is refused, all of the listing if neither comes in time, and then records the read error that ended it |
| ScanWalk.ProcessDir | internal/scan/walk.go:30-85 | opening, reading in batches, flushing once and closing puts into the target exactly what sifting those entries gives, is whole exactly when nothing stopped it in time, and returns every handle |
| WorkerLoop.HandleRef | internal/scan/engine.go:393-406 | one turn of a worker moves the latch by exactly what is queued more, less the directory taken; queue and stack hold what they held and the children, donated by the rules; every handle comes back; what is booked is what sifting the entries read gives, and in an undisturbed read that with the measure of the children queued is the measure of the directory; a stopping target is neither read nor charged |
| ScanWalk.SiftIsSiftOne | internal/scan/walk.go:71-76 | the protocol's sift action and the walk's sift step are the same function |
| ScanWalk.SiftAllMeasures | internal/scan/walk.go:71-76 | sifting any number of entries takes off what is owed exactly what it adds |
| ScanWalk.WholeReadMeasures | internal/scan/walk.go:48-84 | an undisturbed read of a directory, with the measure of the children it returns, is the measure of the directory |
| EngineConfig.WithDefaults | internal/scan/engine.go:74-101 | whatever was given, every setting the engine relies on ends up positive and the burst above a batch, nothing is changed that was fit to use, nothing but a default is put in its place, and the scan protocol sees each setting in its place, a timer only where one was asked for, with its assumptions met |
| EngineConfig.DefaultsAreDetermined | internal/scan/engine.go:74-101 | those promises determine the result: no other settings meet them, and sound ones pass through unchanged |
| EngineConfig.BlankGetsDefaults | internal/scan/engine.go:74-93 | a blank configuration gets two workers, batches of 1024, donation past 32, a queue of 65536, two million inodes, five seconds of drain and a heartbeat of thirty |
| EngineConfig.BatchIsPaid | internal/scan/engine.go:413-423 | a read's token request never exceeds the burst; it is made in full if and only if it has fewer entries than the burst, which every batch has in sound settings, and there it is never empty |
| Timeouts.Settings.Validate | internal/config/resolve.go:54-149 | the timeout rules accept exactly the settings stated, report the first failing row first, and leave the derived hard timeout in place |
| Timeouts.HardTimeoutWorks | internal/config/resolve.go:128-141 | an accepted configuration has a positive hard timeout above its scan timeout if and only if one was set or doubling the scan timeout fits in int64; it is then the one set, twice the scan timeout, or a day |
| Supervision.EndsUnless | internal/scan/engine.go:299-318 | supervision ends if and only if a hard timeout, a scan timeout, a cancellation or the walk's own end will end it |
| Supervision.SupervisionIsBounded | internal/scan/engine.go:299-318 | it ends within the hard timeout while the scan context is live, otherwise within max(hard timeout, drain timeout) after the context ended |
| Supervision.EndsAtOneOf | internal/scan/engine.go:299-318 | in instants: it ends at the walk's own end, or, abandoning, at the hard timeout or after a drain that outlasts both the hard and the drain timeout, by no more than one of them, from the first of scan timeout and cancellation |
| Supervision.ValidatedBound | internal/config/resolve.go:114-141 | the same bounds for any validated configuration, overflow of the derived hard timeout included, in terms of what was configured |
| Supervision.HardTimeoutOverrun | internal/scan/engine.go:305-315 | the hard timeout alone is not the bound: whatever the timeouts, supervision can end after it if and only if the scan context ends no later than it, the drain given then lasts beyond it, and the walk has not ended by it; and then it must, except when both fire at the same instant |
| ScanSupervision.FirstSelect | internal/scan/engine.go:299-318 | each way the first select can receive in time is an action the protocol's waiting supervisor can take at that instant, to the same verdict |
| ScanSupervision.SecondSelect | internal/scan/engine.go:309-315 | likewise for the drain that follows a context's end |
| ScanSupervision.OnlySelects | internal/scan/engine.go:299-318 | a waiting supervisor of the protocol moves only by a select: on the latch or the context when it is done at that instant, on the hard timer when one exists, which the protocol lets fire at any time |
| ScanSupervision.WaysAreAll | internal/scan/engine.go:299-318 | supervision ends, at an instant and with a verdict, exactly by one of the three ways its first select can go |
| Retention.StateIsSummary | internal/state/store.go:274-333 | after any history a target's state is a function of its last and second-last completed scans, its last attempt, its last publishable result and sums over all attempts, modulo 2^64 for the counters |
| RetentionLaws.MeasurementShown | internal/state/store.go:395-416 | a measurement is shown if and only if something publishable happened and the last completed scan, if any, is not stale; it is that of the last publishable result, so staleness also withdraws a newer partial one, and a partial one before any completed scan never goes stale |
| ScrapeLaws.AttemptTells | internal/state/store.go:297-299 | after any history success, partial and present are those of the last result that was not cancelled: complete; partial, timed out or in error; not missing |
| RetentionLaws.DeltaShown | internal/state/store.go:418-425 | a delta is shown if and only if two scans completed and the last is not stale; it spans those two, with the time between them |
| RetentionLaws.OnlyCompletesFeedGrowth | internal/state/store.go:312-332 | deleting every non-complete result changes neither delta, interval, byte counters, last-good time nor scan age, nor, with partial results withheld, the measurement |
| RetentionLaws.CancelledLeavesNoTrace | internal/state/store.go:283-291 | deleting every cancelled result changes nothing but its own counter and the in-progress mark |
| RetentionLaws.WithheldShowsComplete | internal/state/store.go:312-320 | with partial results withheld the publishable results are exactly the completed ones |
| RetentionLaws.CountersTelescope | internal/state/store.go:322-330 | for any sizes at all, after any history, the published counters' added minus removed is last completed size minus first, modulo 2^64 |
| RetentionLaws.GrowthTelescopes | internal/state/store.go:322-330 | the same of the sums the counters are reduced from |
| RetentionLaws.CountersAreExact | internal/state/store.go:322-330 | for file sizes whose total variation is below 2^64 the counters' difference is last minus first and their sum the total variation |
| RetentionLaws.CountersNeverFall | internal/state/store.go:322-330 | under the same bound no further event lowers either counter |
| RetentionLaws.GrowthIsExact | internal/state/store.go:322-330 | the unreduced sums behind the counters are non-negative, monotone, differ by last minus first and add up to the total variation |
| StoreTrace.StoreRefinesHistory | internal/state/store.go:235-333 | after any run of SetTargets, MarkScanStarted and Apply the store tracks the distinct targets last installed, each in the state its own history since it was added leads to |
| StoreTrace.SizesAreOfCompleteScans | internal/state/store.go:336-347 | with partial results withheld a measurement a scrape shows is that of one particular delivery: the latest completed scan of that very target, made since it was last added, with no removal or later completion after it |
| StoreTrace.LatestComplete | internal/state/store.go:274-333 | the last completed scan of a target's history is such a delivery, with its measurement and its time |
| StoreTrace.Distinct | internal/state/store.go:241-252 | the same targets, none twice |
| StoreTrace.DistinctInOrder | internal/state/store.go:241-252 | in the order in which they first occur in the list |
| RetentionStore.TargetState.Apply | internal/state/store.go:283-332 | the record's fields end up as the value the step function gives, for every outcome; but for a cancelled one the attempt is a success if complete, partial if partial, timed out or in error, present unless missing, with the result's time and duration |
| RetentionStore.TargetState.RecordErrors | internal/state/store.go:301-305 | the error loop copies each class and adds it to its running total, leaving other totals alone |
| RetentionStore.TargetState.RecordGood | internal/state/store.go:322-332 | baseline, previous baseline, growth counters and publication move together |
| RetentionStore.TargetState.Snapshot | internal/state/store.go:369-427 | filling the struct step by step gives the snapshot the retention laws are about |
| RetentionStore.Store.constructor | internal/state/store.go:222-229 | a new store is the empty one after its first SetTargets |
| RetentionStore.Store.SetTargets | internal/state/store.go:235-253 | tracked set and order follow the list, survivors keep their very record, newcomers get a fresh one, and no two targets ever share one |
| RetentionStore.Store.MarkScanStarted | internal/state/store.go:265-271 | marks one target and changes no other; an unknown target changes nothing |
| RetentionStore.Store.Apply | internal/state/store.go:274-333 | applies the result to its target and changes no other; a dropped target is not resurrected |
| RetentionStore.Store.Snapshot | internal/state/store.go:336-345 | every tracked target once, in configuration order, as its state then is |
| RetentionStore.Store.SnapshotFor | internal/state/store.go:359-367 | one target's snapshot, or none if it is not tracked |
| Ordering.UnderIsComponentwise | internal/targets/resolver.go:253-264 | for cleaned absolute paths, one is under another if and only if the other's components are a proper prefix of its own |
| Ordering.OneListing | internal/targets/resolver.go:159 | there is only one ascending listing of a set of paths |
| Ordering.LessIsFirstDifference | internal/targets/resolver.go:159 | the order is decided at the first character that differs, or by which path ends first |
| Ordering.ContainerIsFirst | internal/targets/resolver.go:159 | so a path comes before everything it contains |
| Ordering.Sort | internal/targets/resolver.go:155-159 | sorting a set's paths gives that listing |
| Targets.FirstPatternOwns | internal/targets/resolver.go:106-126 | a path is found if and only if some pattern produced it, and belongs to the first pattern that did |
| Targets.ResolvedIsExact | internal/targets/resolver.go:128-183 | a successful pass keeps exactly what it found and what is within its grace period, within the limit, and reports it sorted, once each, with exactly the other targets that contain it |
| Targets.TooManyIff | internal/targets/resolver.go:149-153 | a pass fails for too many targets if and only if what it would keep exceeds a limit that is set |
| Targets.PassSucceedsIff | internal/targets/resolver.go:94-153 | each reply has its exact condition: a pass succeeds if and only if there are patterns, none is invalid, and what they produced with what is within its grace period fits the limit; a pattern that matches nothing is no failure |
| Targets.PassKeepsTidy | internal/targets/resolver.go:130-181 | whatever a pass does or fails with, vanishing times are only kept for known targets |
| Targets.FailureKeepsKnown | internal/targets/resolver.go:98-153 | a failing pass leaves the known targets alone |
| Targets.GraceOverRuns | internal/targets/resolver.go:128-147 | over any run of passes a known target missing from a successful pass is kept if and only if a grace period is set and has not run out since the first completed expansion of the current streak that missed it, passes that then failed included |
| Targets.VanishedAtFirstMiss | internal/targets/resolver.go:130-139 | the vanishing time of a known target is that first miss, and is forgotten by any completed expansion that finds it again |
| Targets.DeltasReplay | internal/targets/resolver.go:173-183 | replaying every pass's added and removed from nothing gives the known targets; removed was known, added was not, both sorted |
| Targets.ContainingIsExact | internal/targets/resolver.go:240-251 | the overlaps computed are exactly the containing targets, in order |
| Resolver.Resolver.Expand | internal/targets/resolver.go:106-126 | the pattern loop finds what the patterns yield in order, or fails at the first invalid one |
| Resolver.Resolver.CarryForward | internal/targets/resolver.go:130-147 | the grace loop over the known map, in any iteration order, leaves found and vanishedAt as the pass function says |
| Resolver.Resolver.MarkOverlaps | internal/targets/resolver.go:240-251 | the nested loop marks each target with the others that contain it |
| Resolver.Resolver.Resolve | internal/targets/resolver.go:94-184 | one call is one pass: reply, known and vanishedAt, on every success and failure path |
| Exporter.PublishedIsExact | cmd/directory-size-exporter/main.go:274-288 | end to end, over any interleaving of reloads, scan cycles and scrapes with partial results withheld: every measurement any scrape can show for a target was delivered by its latest completed scan since it was last added, and is, with nothing overflowed, the exact measure of the tree the very cycle that delivered it found at that target, cut off at the device its root was on just when one-filesystem is on; where links agree its size, allocation and file count are the exact deduplicated ones; and the result it came with tells the truth about every other counter |
| Exporter.ReloadIsSerialised | cmd/directory-size-exporter/main.go:315-336 | over any interleaving of reloading threads with the scan loop, whenever the reload lock is free the store's order is the sorted known set of the last successful resolution, and every tracked target is in the state its own history since it was added leads to |
| Exporter.ReadyAfterFullCycle | cmd/directory-size-exporter/main.go:274-288 | readiness turns on exactly at the end of a cycle with the process still live, which then is one in which every target was started once and delivered one result, none cancelled; and never turns off |
| Exporter.LockKept | cmd/directory-size-exporter/main.go:315-336 | every event keeps: only the owner is inside reload, and what it is about to apply is what the resolver now knows |
| Exporter.ReachableInv | cmd/directory-size-exporter/main.go:114-145 | the system invariant holds from newApp on |
| Exporter.ToldFromWalk | internal/scan/engine.go:193-232 | every result the sink is told of is the report of a reachable state of the scan protocol on what its own cycle found at that target, the root's stat included |
| Exporter.ToldIsTrue | internal/scan/engine.go:350-370 | field by field and by what the file system answered: a complete or partial result has the entries, stats, vanished, skipped, directories and errors per class there are to count in the tree, and the links and sizes of its files; a root that could not be used has its own error alone |
| Exporter.EverythingToldIsTrue | cmd/directory-size-exporter/main.go:274-288 | so does every result the store was ever told of, by what the cycle that told it found |
| CycleLaws.CycleTellsEachOnce | cmd/directory-size-exporter/main.go:274-288 | over any interleaving with reloads, by the end of a cycle the store was told in it, of each of its targets, exactly one start and exactly one result |
| CycleLaws.MemoryIsRun | cmd/directory-size-exporter/main.go:315-336 | whichever threads reload, the resolver remembers what its passes alone, in the order they were made, lead to, those that failed or are not applied yet included; so the laws over passes hold of the exporter |
| CycleLaws.StartsWithSome | cmd/directory-size-exporter/main.go:114-129 | the first thing the store is told is a list of targets that is not empty |
| CycleLaws.LeaksCarryOver | internal/scan/engine.go:235-259 | the workers a cycle leaves unfinished, with those left before, are what is alive after it |
| Exporter.PathsAreSorted | internal/targets/resolver.go:55-61 | the paths of a successful resolution are the known targets, sorted |
| Collector.Channel.CollectTarget | internal/collector/collector.go:118-191 | for any snapshot and gates, every series due is sent once with its value, and no other |
| Collector.Channel.CollectTargets | internal/collector/collector.go:108-111 | one scrape of any number of targets sends everything due for each, nothing else, and no series twice |
| Collector.Channel.SendOutcomes | internal/collector/collector.go:130-132 | the outcome loop sends one counter per outcome |
| Collector.Channel.SendErrors | internal/collector/collector.go:133-136 | the class loop sends two series per error class |
| CollectorLaws.SeriesDue | internal/collector/collector.go:149-191 | size, delta and growth series are present exactly under a condition on the target's history: what was publishable, whether two scans completed, and whether the last completed one is stale |
| ScrapeLaws.ScrapeTells | internal/collector/collector.go:114-191 | after any run of the store a rendered scrape has a series of a target exactly when the target's history since it was added calls for it, and each of the 28 kinds says what that history says: outcome bits, totals modulo 2^64, times, sizes, delta and growth |
| CollectorLaws.GrowthSeriesStay | internal/collector/collector.go:161-164 | once shown, the growth counters are shown at every later scrape until the target is removed, whatever happens to its scans |
| CollectorLaws.SizeStaysAway | internal/collector/collector.go:166-190 | once the last completed scan is stale, size and delta stay away until another scan completes |
| CollectorLaws.CompleteBringsSizeBack | internal/collector/collector.go:166-172 | a completed scan brings the size back, until it is stale itself |
| CollectorLaws.HistoryGrows | internal/state/store.go:235-253 | while a target stays tracked its history only grows, by what the store is told about it |
| CollectorLaws.ScrapedDiffer | internal/state/store.go:336-345 | after any run of the store no two snapshots of a scrape are of one target, which is what rendering a scrape without repeated series needs |

## Left out

- HTTP server, TLS, lifecycle endpoints, landing page, flags, logging, heartbeats and summaries: output and plumbing.
- The duration histogram, engine-wide and file-system series, metric names and help text: output only.
- Linux and Windows system calls and scheduling priority: the file system is an oracle giving each directory's entries, stats and errors; `prepareRoot`'s `Lstat`, which has no timeout, is assumed to return.
- A tree that changes while it is walked: the oracle fixes, per cycle, what each directory will be found to hold when it is opened; vanished entries and failed opens are among its answers, and what it fixes may differ from cycle to cycle.
- Token-bucket timing of the rate limiter: a request for a batch is granted, or refused once the process context is done.
- The wall clock: times are integers in nanoseconds given to each call, seconds are exact quotients; rounding of floating-point seconds and monotonic-clock readings are not modelled.
- Scheduling fairness: the progress results say that every run ends and that something can always move, not how soon.
- int64 overflow of a scan's own totals: they are unbounded integers; the store's delta and uint64 counters do wrap as in the code.
- Results of abandoned or cancelled targets as torn reads: a worker's flush and the supervisor's building of a result are each one step, so the mix of counters in a timed-out or cancelled result is not described beyond what the invariant says.
- The decrement of pending and the closing of the latch are one step, as are the capped inode check and insertion, which the code does under a lock.
- Single-flight rejection of an overlapping `ScanAll` and its counter: the exporter's scan loop starts cycles one after the other.
- A worker leaked by an earlier cycle: only its effect on the gauges is modelled, because it can reach only the finished cycle's targets.
- Directory paths and depths inside a walk: a queued reference carries its target and the subtree it will find.
- Glob expansion, symlink resolution, `Abs` and `Stat` of a pattern's matches: each pass is given what its patterns expand and resolve to; resolver warnings are dropped.
- Windows path separators: containment is stated for cleaned absolute paths with `/`.
- Configuration registry, YAML and environment parsing, capability gates and the other range checks of `Validate`.
- The file-system cache and its statfs calls.
- The in-memory file system's construction, hooks, shuffling and synthetic entries.
- Map aliasing between store and scrape: snapshots are values here, so the copying of the three maps is not visible.
- ScanWalk.ProcessDir: one directory at a time and without other goroutines between its steps; the interleaved form is the protocol's.
- WorkerLoop.HandleRef: likewise, one turn of one worker alone; which children it finds is `ProcessDir`'s part.
- Timeouts.Settings.Validate: has only the duration rows the supervision and retention rules depend on, and takes the derived-setting mark as a flag.
- WorkPool.Pool.Next: ends where the caller would wait; the waiting itself and the wake-ups are the protocol's Parked and Looking states.
- CollectorLaws.GrowthSeriesStay: needs results to arrive a second or more after the Unix epoch, because presence is decided on a positive whole-second timestamp.
