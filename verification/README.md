# hystrix-go in Dafny

A Dafny model of the circuit-breaker runtime of hystrix-go, and proofs of what it promises.
Time is an explicit input: every place where the code asks for the time takes a clock
reading as an argument.

| file | what it models |
|---|---|
| `Common.dfy` | optional values and Go's `int64` |
| `RollingNumber.dfy` | the ring of one-second buckets, in place, and the log of the last ten seconds it stands for |
| `LockFreeNumber.dfy` | the same ring under any number of writers, at load / compare-and-swap / add granularity over a heap of buckets |
| `OrderStatistics.dfy` | nearest-rank percentile and mean, in `int64` and `uint32` arithmetic |
| `Timing.dfy` | the durations of the last minute, their sorted cache, and its runs |
| `Metrics.dfy` | the collector of eleven rings and two timings, fed from command events |
| `Health.dfy` | the rounded error percentage and the trip test |
| `Settings.dfy` | configuration with defaults, sequentially and under any interleaving |
| `Breaker.dfy` | the open/closed switch over the metrics, call by call, and its whole runs |
| `Probes.dfy` | testing, opening and closing one circuit at any interleaving of their atomic actions |
| `Pool.dfy` | the ticket pool with its rolling statistics |
| `Returns.dfy` | tickets going back to one pool, and resets of its statistics, at any interleaving |
| `Commands.dfy` | any number of `DoC` calls with their goroutines, tickets, recycled channels and timers |
| `Histories.dfy` | what the steps of such a run say happened to one call, and that the call does accordingly |
| `Registry.dfy` | `GetCircuit` and `Flush` on the copy-on-write table of circuits |

Objects that the code updates in place are classes whose methods are proved against
functions on their contents; the theorems are about runs of those functions. Protocols with
several goroutines are step machines, and their theorems hold for every interleaving.

What the proofs found where the code falls short of what it says:

- A write more than ten seconds behind the newest one can evict a younger bucket
  (`LateWriterLosesAnIncrement`).  `SumRefinesLogIff` and `MaxRefinesLogIff` say exactly when
  sum and maximum stay right, `ShownAndLostIsLogged` what each reader misses, and `RingHeals`
  that it passes.
- `Mean` converts to `uint32` before it divides, so it is wrong exactly when the average is
  2^32 ns (about 4.3 s) or more (`MeanIsExactIff`, `MeanOfFiveSeconds`).
- `setOpen` sets the flag before the time, so a test can be allowed at the very moment the
  circuit opens (`InterruptedOpeningLetsTestThrough`), and an opener that is slow to store its
  time can turn back the time of a later opening (`SlowOpenerTurnsStampBack`).
  `SpacedIffNoneEarly` says exactly which runs keep openings and tests apart.
- An error that a run function returns is reported as a short circuit, rejection or timeout
  if and only if it is or wraps one of the library's own errors (`EventFits`, used by
  `FinishedCallIsAccounted`; `NestedErrorIsMistaken` is such a run).
- A report with an unknown event name counts as a request and nothing else
  (`UnknownEventUnbalances`; `WindowedConservation` is an equivalence for this reason).
- The comment on `Percentile` speaks of linear interpolation; the code takes the nearest rank
  (`SelectedIsNearestRank`).

## Model

| member | source | states |
|---|---|---|
| `RollingNumber.Number.GetBucketAt` | hystrix/rolling/rolling.go:32-45 | the slot of a second ends up with that second's bucket, a fresh one if it held another's; no other slot changes |
| `RollingNumber.Number.IncrementAt` | hystrix/rolling/rolling.go:54-60 | the ring afterwards, which is untouched by a zero increment |
| `RollingNumber.Number.UpdateMaxAt` | hystrix/rolling/rolling.go:69-71 | the ring afterwards; `updateMax` keeps the larger value |
| `RollingNumber.Number.Sum` | hystrix/rolling/rolling.go:74-85 | the sum of the buckets not older than ten seconds |
| `RollingNumber.Number.MaxValue` | hystrix/rolling/rolling.go:88-101 | the largest such bucket, at least 0 |
| `RollingNumber.Number.Reset` | hystrix/rolling/rolling.go:107-111 | every slot is as new |
| `RollingNumber.IncrementExact` | hystrix/rolling/rolling.go:32-60 | one increment keeps the ring equal to the log for all later readers if and only if it does not evict a younger visible bucket |
| `RollingNumber.RaiseExact` | hystrix/rolling/rolling.go:32-45 | one maximum update keeps the ring equal to the log for all later readers if and only if it does not evict a younger bucket that stays higher than all others as long as it can be seen |
| `RollingNumber.SumRefinesLogIff` | hystrix/rolling/rolling.go:22-111 | for every run: the sum equals the windowed log after each operation if and only if no operation evicts a younger visible bucket |
| `RollingNumber.MaxRefinesLogIff` | hystrix/rolling/rolling.go:22-123 | for every run: the maximum equals that of the windowed log after each operation if and only if no update evicts such a bucket |
| `RollingNumber.ShownAndLostIsLogged` | hystrix/rolling/rolling.go:22-111 | for every run and reader, however late the writers: what the ring shows and what late writers evicted make up the log, for sum and maximum |
| `RollingNumber.RingHeals` | hystrix/rolling/rolling.go:22-111 | once the writers are timely and what was newest before has left the window, sum and maximum are exact again |
| `RollingNumber.SumRefinesLog` | hystrix/rolling/rolling.go:22-111 | with writers at most ten seconds late, `Sum(now)` is exactly the amounts of [now-10, now] since the last reset |
| `RollingNumber.MaxRefinesLog` | hystrix/rolling/rolling.go:22-123 | on the same terms `Max(now)` is the larger of 0 and the largest value of the window |
| `RollingNumber.LateWriterLosesAnIncrement` | hystrix/rolling/rolling.go:40-43 | eleven seconds late is enough to lose another writer's increment |
| `LockFreeNumber.NextKeepsInv` | hystrix/rolling/rolling.go:32-60 | each atomic action keeps: every unfinished writer works on the visible bucket of its second or on one that has left every window, and readers see exactly the finished calls |
| `LockFreeNumber.RunIsWellFormed` | hystrix/rolling/rolling.go:32-45 | no writer ever holds an address outside the heap, late or not |
| `LockFreeNumber.ReaderSeesFinished` | hystrix/rolling/rolling.go:32-101 | at any moment of such a run, with writers half-way, the ring shows exactly the updates of the finished calls |
| `LockFreeNumber.SlowReaderIsBetween` | hystrix/rolling/rolling.go:74-101 | a reader that loads the slots one by one among running writers finds a sum, or maximum, between that of the calls finished when it began and that of the calls finished when it ended |
| `LockFreeNumber.NoUpdateLost` | hystrix/rolling/rolling.go:32-101 | at any interleaving of increments (or of maximum updates), once all calls are back the reader sees exactly the log of all calls made |
| `LockFreeNumber.AtMostOneRetry` | hystrix/rolling/rolling.go:34-44 | no call loads its slot more than twice |
| `LockFreeNumber.CallsAreAsked` | hystrix/rolling/rolling.go:54-71 | the calls at work are those made, each with its second and amount |
| `LockFreeNumber.IncrementIsWaitFree` | hystrix/rolling/rolling.go:32-60 | an increment is done after four steps of its own, whatever the others do in between |
| `OrderStatistics.OrdinalIsLeastRank` | hystrix/rolling/rolling_timing.go:126-132 | the rank is the least positive one that covers the percentage |
| `OrderStatistics.OrdinalInRange` | hystrix/rolling/rolling_timing.go:126-132 | the rank indexes the durations |
| `OrderStatistics.OrdinalMonotone` | hystrix/rolling/rolling_timing.go:126-132 | a higher percentage never has a lower rank |
| `OrderStatistics.SelectedIsNearestRank` | hystrix/rolling/rolling_timing.go:115-132 | the selected duration is at most x if and only if enough durations are |
| `OrderStatistics.PercentileIsNearestRank` | hystrix/rolling/rolling_timing.go:115-132 | for every percentage and every m: the reported milliseconds are at most m if and only if enough durations, and at least one, are shorter than m + 1 ms |
| `OrderStatistics.NoDurationsNoStatistics` | hystrix/rolling/rolling_timing.go:118-144 | without durations every percentile and the mean are 0 |
| `OrderStatistics.MeanIsExactIff` | hystrix/rolling/rolling_timing.go:135-148 | the mean is the true one in milliseconds if and only if the average is below 2^32 ns |
| `OrderStatistics.MeanOfFiveSeconds` | hystrix/rolling/rolling_timing.go:147 | two calls of five seconds have a mean of 705 ms |
| `OrderStatistics.MeanBetweenExtremes` | hystrix/rolling/rolling_timing.go:115-148 | on one snapshot, percentile 0 <= mean <= percentile 100 where results fit 32 bits |
| `Timing.SortedUnique` | hystrix/rolling/rolling_timing.go:34-38 | sorting has one result, so a snapshot is determined by the window |
| `Timing.Timing.GetCurrentBucket` | hystrix/rolling/rolling_timing.go:75-90 | a bucket for the current second exists, the others are as before |
| `Timing.Timing.RemoveOldBuckets` | hystrix/rolling/rolling_timing.go:92-101 | exactly the buckets younger than sixty seconds remain |
| `Timing.Timing.Add` | hystrix/rolling/rolling_timing.go:104-112 | the buckets after one duration more and the expired ones less |
| `Timing.Timing.SortedDurations` | hystrix/rolling/rolling_timing.go:42-73 | a cache under a second old is returned unchanged; otherwise the cache becomes the sorted contents of the buckets of the window |
| `Timing.Timing.Percentile` | hystrix/rolling/rolling_timing.go:115-124 | the percentile of what `SortedDurations` returns |
| `Timing.Timing.Mean` | hystrix/rolling/rolling_timing.go:135-148 | the mean, with its overflow and conversion, of what `SortedDurations` returns |
| `Timing.Timing.Reset` | hystrix/rolling/rolling_timing.go:150-157 | buckets and cache are empty and the cache is stale |
| `Timing.SnapshotIsTheWindow` | hystrix/rolling/rolling_timing.go:42-112 | a recomputed snapshot is the sorted durations since the last reset that are at most a minute old and later than what an `Add` removed |
| `Timing.CutoffBehindWindow` | hystrix/rolling/rolling_timing.go:92-112 | `Add` never removes anything younger than a minute |
| `Timing.QueryIsRecentWindow` | hystrix/rolling/rolling_timing.go:42-73 | over every run with a clock that never goes back, a query returns the window as seen less than a second ago with no reset since |
| `Timing.WindowInNanoseconds` | hystrix/rolling/rolling_timing.go:42-112 | a recomputed query shows every duration at most 59 s old, none 61 s old or older, and nothing else |
| `Timing.CacheIsKept` | hystrix/rolling/rolling_timing.go:42-49 | until a second has passed since a snapshot was dated, queries return it, whatever is added |
| `Timing.StaleCacheIsReplaced` | hystrix/rolling/rolling_timing.go:42-73 | a query after that recomputes and dates it anew |
| `Timing.AtMostSixtyBuckets` | hystrix/rolling/rolling_timing.go:92-112 | at most sixty buckets remain after each `Add` |
| `Metrics.DefaultMetricCollector.constructor` | hystrix/metric_collector/default_metric_collector.go:40-56 | eleven empty rings and two timings, all separate objects |
| `Metrics.DefaultMetricCollector.Update` | hystrix/metric_collector/default_metric_collector.go:121-139 | all eleven rings after one report at one second; each timing takes its duration if timing is enabled and is untouched otherwise |
| `Metrics.DefaultMetricCollector.Reset` | hystrix/metric_collector/default_metric_collector.go:142-156 | all rings and timings are empty |
| `Metrics.CounterReadsTally` | hystrix/metric_collector/default_metric_collector.go:121-139 | every counter reads as the tally of the last ten seconds of reports, though a ring is touched only by reports that add to it |
| `Metrics.CounterCountsReports` | hystrix/metrics.go:80-117 | every counter reads as the number of reports of the window whose event concerns it |
| `Metrics.WindowedConservation` | hystrix/metrics.go:80-117 | requests = successes + errors + context endings if and only if the window has no unknown event; errors always split into their four kinds |
| `Metrics.UnknownEventUnbalances` | hystrix/metrics.go:80-117 | one report with an unknown event reads as one request and as nothing else |
| `Metrics.TimingShowsReports` | hystrix/metric_collector/default_metric_collector.go:121-156 | over every run of reports, resets and queries: a recomputed query of either timing is the sorted durations of exactly the reports of the last minute made while timing was enabled, since the last reset |
| `Health.UnhealthyIff` | hystrix/metrics.go:64-78 | unhealthy if and only if 200*errors + requests >= 2*requests*threshold |
| `Health.PercentIsNearest` | hystrix/metrics.go:64-74 | the percentage is rounded half up |
| `Health.PercentInRange` | hystrix/metrics.go:64-74 | between 0 and 100 |
| `Health.ErrorNeverLowers` | hystrix/metrics.go:64-74 | one more error never lowers the percentage |
| `Health.SuccessNeverRaises` | hystrix/metrics.go:64-74 | one more report that is no error never raises it |
| `Settings.ResolvedIsUsable` | hystrix/settings.go:64-71 | with usable defaults any configuration comes out with no field zero, and a duration is what was asked for if and only if it fits |
| `Settings.CompleteOrEmpty` | hystrix/settings.go:64-71 | a complete configuration is stored as given, an empty one as the defaults |
| `Settings.SettingsTable.Configure` | hystrix/settings.go:58-73 | the table with exactly the given names replaced |
| `Settings.SettingsTable.GetSettings` | hystrix/settings.go:80-89 | a known name is only read; an unknown one is given the defaults first |
| `Settings.TableIsLinearizable` | hystrix/settings.go:58-89 | at every moment of every interleaving the table is the effect of the calls that stored, one after the other in lock order, and every caller past its turn is in that order exactly once |
| `Settings.CallersAreTheCalls` | hystrix/settings.go:58-89 | the callers at work are those that called, each with what it looks up or configures |
| `Settings.EntriesAreUsable` | hystrix/settings.go:58-89 | at every moment the table holds exactly the names that some caller stored, each as its last caller asked, with no zero field |
| `Settings.NamesNeverDisappear` | hystrix/settings.go:58-89 | the table's names only grow |
| `Settings.AtMostTwoLooks` | hystrix/settings.go:80-89 | `getSettings` calls itself at most once |
| `Breaker.CircuitBreaker.SetOpen` | hystrix/circuit.go:116-121 | opens and stamps a closed circuit, leaves an open one alone |
| `Breaker.CircuitBreaker.SetClose` | hystrix/circuit.go:123-128 | closes an open circuit and empties its rings and timings, leaves a closed one alone |
| `Breaker.CircuitBreaker.IsHealthyAt` | hystrix/metrics.go:76-78 | compares the window's error percentage with the threshold |
| `Breaker.CircuitBreaker.IsOpen` | hystrix/circuit.go:76-93 | the circuit afterwards, and whether it is open |
| `Breaker.CircuitBreaker.AllowSingleTest` | hystrix/circuit.go:102-114 | swaps the stamp and allows exactly when the sleep window has passed |
| `Breaker.CircuitBreaker.AllowRequest` | hystrix/circuit.go:98-100 | the circuit afterwards, and whether the request may go |
| `Breaker.CircuitBreaker.ReportEvent` | hystrix/circuit.go:141-164 | refuses an empty event and otherwise closes on success and records |
| `Breaker.ReadsTheReports` | hystrix/circuit.go:76-93 | the sums the breaker reads are the counts of the reports since the last closing or flush |
| `Breaker.PercentStaysInRange` | hystrix/metrics.go:64-74 | on every run the error percentage is the nearest integer to the share of error reports in the window, within 0 and 100 |
| `Breaker.AutomatonStep` | hystrix/circuit.go:76-148 | opens if and only if `AllowRequest` or `IsOpen` finds the window of reports overloaded, closes if and only if a success is reported, and while open allows exactly what comes later than a sleep window |
| `Breaker.StampIsLastOpeningOrTest` | hystrix/circuit.go:102-121 | the stamp is the time of the last opening or allowed test |
| `Breaker.ClosingLeavesOneSuccess` | hystrix/circuit.go:123-164 | after the closing success every ring reads as just that success |
| `Breaker.OpeningNeeds` | hystrix/circuit.go:76-93 | whenever the circuit opens, the ten seconds before hold at least V reports made since it last closed, and errors E among them with 200*E >= V*(2P-1) |
| `Breaker.ReopeningBound` | hystrix/circuit.go:76-164 | after a closing success the circuit cannot open again before the ten seconds up to some call hold that much of the reports made since, the success included |
| `Breaker.OpeningsArePaidFor` | hystrix/circuit.go:76-164 | over every run, k openings found k*V reports and their share of errors in their windows, all of them different reports made while closed |
| `Probes.WinsAreSpaced` | hystrix/circuit.go:102-114 | at any interleaving, tests won with no opening stored in between are each more than a window apart, and no stamp is replaced by two |
| `Probes.UndisturbedTestIsWonIff` | hystrix/circuit.go:102-114 | at any interleaving, a test during whose load and swap the stamp stays is won if and only if its clock reading is past the window |
| `Probes.OpeningStoresItsReading` | hystrix/circuit.go:116-121 | an opening that finds the circuit closed opens it and stores what it read from the clock in between |
| `Probes.SpacedIffNoneEarly` | hystrix/circuit.go:98-128 | for every run, from any moment when nobody is opening: openings and tests stay more than a window apart if and only if no test is won by a reading within a window of the flag of an unstamped opener or of a stamp turned back |
| `Probes.TestsAreRationed` | hystrix/circuit.go:98-128 | as long as none is, k tests after an opening or test take more than k windows |
| `Probes.UninterruptedIsNeverEarly` | hystrix/circuit.go:116-121 | from any such moment, openings that act as one step make no test early |
| `Probes.InterruptionBreaksSpacingIff` | hystrix/circuit.go:102-121 | after such a stretch, a test breaks the spacing if and only if an opener is unstamped and the reading is within a window of its flag |
| `Probes.InterruptedOpeningLetsTestThrough` | hystrix/circuit.go:116-121 | a test between flag and stamp is won at the moment of opening |
| `Probes.SlowOpenerTurnsStampBack` | hystrix/circuit.go:116-121 | two overlapping openings leave the earlier time, and a test is won a moment after the later one |
| `Pool.ExecutorPool.constructor` | hystrix/pool.go:17-31 | all tickets in, no statistics |
| `Pool.ExecutorPool.TakeTicket` | hystrix/hystrix.go:124-130 | one ticket less if there is one, nothing otherwise |
| `Pool.ExecutorPool.Return` | hystrix/pool.go:33-42 | one ticket more, counted once, the active count sampled before it goes back |
| `Pool.ExecutorPool.ResetMetrics` | hystrix/pool.go:48-51 | statistics empty, tickets untouched |
| `Pool.ActiveIsOut` | hystrix/pool.go:33-46 | the active count is the number of tickets out, counted from the calls alone: one is granted exactly when fewer than `Max` are out |
| `Pool.StatisticsAgree` | hystrix/pool.go:33-51 | `Executed` is the number of returns in the window, `MaxActiveRequests` the largest sample, between 1 and `Max` if there was a return |
| `Pool.PeakIsSampled` | hystrix/pool.go:33-51 | the peak of the active count since the last reset is the largest sample or what is out now |
| `Pool.IdlePoolHasRecordedItsPeak` | hystrix/pool.go:33-51 | an idle pool has its true peak since the last reset on record |
| `Returns.StatisticsAgreeConcurrently` | hystrix/pool.go:33-51 | at any interleaving of returns and resets, whenever nobody is halfway: `Executed` counts the returns of the window, each once, `MaxActiveRequests` is between 1 and `Max` if there was one, and the active count is the tickets held |
| `Returns.NoReturnUncounted` | hystrix/pool.go:33-42 | without a reset, every goroutine past its count is counted at the second it read |
| `Returns.SamplesAreHolders` | hystrix/pool.go:39-46 | every sample is the number of goroutines that held a ticket at the moment it was taken |
| `Returns.ResetEmptiesBoth` | hystrix/pool.go:48-51 | a reset empties the maximum first and then the counter |
| `Commands.ClassifyFits` | hystrix/hystrix.go:171-185 | the event reported fits how the call ended; for an error of the run itself it is a context event, or a failure, exactly as the context stood when the error passes for none of the library's own |
| `Commands.CallStepKeepsInv` | hystrix/hystrix.go:100-204 | each action of a call or goroutine keeps ownership, exclusiveness, clean pools and the books |
| `Commands.WorldStepKeepsInv` | hystrix/circuit.go:53-63 | so do new calls, the clock, timers, dropped pool objects and `Flush` |
| `Commands.ReceivesOwnResult` | hystrix/hystrix.go:132-145 | what a call receives is what its own run returned |
| `Commands.SendNeverBlocks` | hystrix/hystrix.go:134-136 | a goroutine whose run is over can always send |
| `Commands.PooledChannelIsClean` | hystrix/internal/pool/errorchan_nosync.go:9-24 | a pooled channel is there once, empty, and nobody holds it |
| `Commands.NoEarlyTimeout` | hystrix/internal/pool/timer_nosync.go:12-26 | a call that times out had its full time, though timers are recycled |
| `Commands.TicketsConserved` | hystrix/pool.go:17-46 | in every circuit object the active count is the number of calls holding a ticket, between 0 and `Max` |
| `Commands.CircuitIsForLife` | hystrix/hystrix.go:100-110 | a call keeps the circuit object it got, through any flush |
| `Commands.ReturnNeverBlocks` | hystrix/pool.go:33-42 | a ticket can always be returned, and goes to its own circuit |
| `Commands.FinishedCallIsAccounted` | hystrix/hystrix.go:100-204 | one event that fits the ending, the fallback called exactly once when there is one and no success, nil returned exactly for a nil result or fallback |
| `Commands.NestedErrorIsMistaken` | hystrix/hystrix.go:171-185 | a call that was allowed and ran to its end reports a short circuit when its run returns that error of another circuit |
| `Commands.BooksBalance` | hystrix/hystrix.go:164-190 | once all calls are back, each circuit object has all tickets, one event per call, one success per call that received nil |
| `Histories.CallsFollowHistory` | hystrix/hystrix.go:100-204 | at every moment of every run a call is where the steps have brought it: how it ended, what its run and fallback returned, how context and deadline stood |
| `Histories.FinishedCallDoesAsTold` | hystrix/hystrix.go:100-204 | the events a finished call reports, its fallback calls and its result are those for its history, and a timeout had its full time since the timer was armed |
| `Histories.RefusedIff` | hystrix/hystrix.go:112-117 | a call ends as refused if and only if `AllowRequest` said no to it |
| `Histories.NoTicketIff` | hystrix/hystrix.go:124-130 | a call ends without a ticket if and only if it asked for one when none was left |
| `Histories.RefusedNeverRuns` | hystrix/hystrix.go:112-130 | such calls never run and never hold a ticket, and report a short circuit or a rejection |
| `Histories.EventsAreTheCalls` | hystrix/hystrix.go:164-190 | at every moment the events of each kind on a circuit object are those its calls have reported |
| `Histories.SameNameSameCircuit` | hystrix/circuit.go:34-51 | calls for one name with no flush in between get the same circuit object |
| `Histories.FlushSeparates` | hystrix/circuit.go:53-63 | calls before and after a flush never share one |
| `Histories.CircuitIsMadeAsAsked` | hystrix/pool.go:17-31 | a circuit made anew has a full pool of the size asked for, which it keeps |
| `Histories.NoCallIsStuck` | hystrix/hystrix.go:100-161 | a call can always make its next move, and in its `select` a timer has fired or will |
| `Registry.NextKeepsInv` | hystrix/circuit.go:34-63 | each action keeps: drafts are private, and maps of one epoch only grow |
| `Registry.PublishedMapsNeverChange` | hystrix/circuit.go:42-49 | over every run a map that was ever published stays as it was, and in its epoch |
| `Registry.NoEntryIsLost` | hystrix/circuit.go:34-63 | between two flushes the current map keeps every entry it ever had |
| `Registry.ThreadsAreTheCalls` | hystrix/circuit.go:34-63 | the calls at work are those made, under the names asked for |
| `Registry.FoundWasCreated` | hystrix/circuit.go:34-63 | every circuit a call gets was created, and reported as created, by a call for that name in the same epoch, so a flush leaves nothing behind |
| `Registry.SameCircuitIff` | hystrix/circuit.go:34-63 | two calls get the same circuit if and only if they asked for the same name in the same epoch |
| `Registry.SingleCreation` | hystrix/circuit.go:34-63 | between two flushes all callers of a name get the same circuit and at most one created it |

## Left out

- 64-bit overflow of the rolling counters: amounts and sums are unbounded integers; a bucket would have to gather 2^63 in one second.
- Pointer identity in the sequential ring: `Number` stores its buckets by value, since nothing else refers to them there; `LockFreeNumber` has the heap.
- `Reset` of a ring while writers are at work: what such writers add may or may not survive, and the code promises nothing.
- Concurrent use of `Timing`: the code does not check again under the write lock, so two goroutines may replace each other's bucket; the model is sequential.
- Concurrent readers of two rings: `ErrorPercent` reads them one after the other, and its range is proved between updates.
- `SlowReaderIsBetween`: takes increments to be nonnegative, as those of all callers are; with a negative one a sum may be seen in between.
- `TableIsLinearizable`: the defaults are the same for all callers of a run; the package lets them be assigned at any time.
- `StatisticsAgree`: takes each return as one step; `StatisticsAgreeConcurrently` has the interleavings.
- `PeakIsSampled`: takes each return as one step; a ticket taken between another call's sample and its return can make a peak that nobody samples.
- `AutomatonStep`: takes each call as one atomic step; `Probes` has the interleavings of testing, opening and closing, with a fixed sleep window.
- Run and fallback functions that panic: they end the process.
- Negative concurrency limits and times before 1970: the code panics on them, and the model's inputs are natural numbers there.
- `Go`, `GoC` and `Do`: wrappers around `DoC`.
- Other metric collectors than the default one, `ConcurrencyInUse` and `Avg`: they feed dashboards and decide nothing.
- IEEE-754 rounding: percentages and ranks are computed in `real`.
- The Go runtime is taken at its word: `sync.Pool` hands out a stored object or a new one, may drop any, and a stopped timer keeps no tick.
- The event stream, the plugins, the load test, the test-only pools and logging.
