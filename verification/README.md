# Verified model of the DNS load balancer

The program is a caching DNS forwarder written in Go. It answers queries from an expiring cache or from upstream
servers that a periodic health check keeps sorted into private and public lists. It refreshes popular entries before
they expire, saves the cache to a file and loads it back at startup, routes configured domains and clients
differently, logs through a buffered channel, and batches its metrics.

The model has two kinds of modules.

**State machines** for what runs concurrently. A machine has a `State`, an `Event` for every atomic action of every
goroutine, and a function `Step(s, e)` that is `None` when the action is not enabled. A run is a sequence of events,
so a statement about every reachable state (`Machine.Reachable`) holds for every number of goroutines and every
interleaving. Parts of a state marked as history record what has happened and are never read by a step.

- `CacheState`, `CacheSystem`: queries, the access tracker, the stale updater with its semaphore, the snapshot writer
  and loader, cache eviction, time and restarts, in one machine. `CacheProvenance`, `CacheProgress`,
  `StaleUpdates`, `AccessTracking`, `OverlappingRefreshes` and `RefreshLife` prove its properties.
- `Logger`, `LoggerProgress`: writers, the worker goroutine and `Flush` with its timeout.
- `Counters`, `UsageStats`, `CountersProgress`, `UsageProgress`: the two ways in which counters are created on demand.
- `FastMetrics` with `Prometheus`: the batching processor, the atomic cache counters it adds to the registry, and its
  bounded drain. `RecordedMetrics` and `MetricsProgress` prove what reaches the registry.
- `HealthCheck` with `ServerSelection`: the fan-out of checks, the swap, and the choice of servers.
- `RoutingLoader` with `DomainRouting` and `RoutingReload`: the concurrent merge of the routing files, the lines in
  them, and the reloads.

**Sequential code** in the form the program has it: classes whose methods change their fields, loops over arrays and
sequences, and pure functions, each proved against a specification that has no loop. `Persistence`, `Pools` and
`CacheResolver` keep the arrays and the slices over them, so that sharing between the cache, the snapshot and the
pools is part of what is proved; `SnapshotRoundTrip` proves what a saved snapshot brings back, and
`SnapshotRoundTrip.LoadingAgrees`, `SnapshotRoundTrip.SavingAgrees` and `CacheResolver.QueryAgrees` show that this
code does what the cache machine says.

Go integers are modelled at their width where they can wrap (`Words`, `Counters`, `UsageStats`, `CacheTtl`); times
are nanoseconds; strings are sequences of Unicode characters, with `Text.ByteLen` for Go's `len`.

## Model

| member | source | states |
|---|---|---|
| CacheProvenance.Provenance | cache/cache.go:131-188 | In every reachable state, over any interleaving of hits, fills, refreshes, cleanups, saves and restarts, and for every library, the answers under a key are what the saves and reloads since have left of a resolution of a question that the key encodes; the same in print if each of its records prints again after being parsed back |
| CacheProvenance.TrackerProvenance | cache/access_tracker.go:41-63 | The question tracked under a key is encoded by the key, also after the tracker was restored from a file |
| CacheProvenance.HitsAreHonest | cache/cache.go:121-128 | Every answer served from the cache was resolved for the asker's own completed name and type, and is the same in print if its records print again |
| CacheProvenance.HitIff | cache/cache.go:121-139 | In every reachable state a query is served from the cache if and only if there is an entry under its key whose expiration has not passed; any other goes on to ask a resolver |
| CacheProvenance.NothingServedLate | cache/cache.go:121-128 | Every answer served from the cache was served between its fill and that fill plus its TTL plus the lag of its reloads, and without lag within 24 hours of the fill |
| CacheProvenance.RefreshAsksItsKey | cache/stale_updater.go:97-128 | A stale refresh re-asks a question its key encodes, even after the tracker was restored from a file |
| CacheProvenance.BoundedLife | cache/cache.go:168-179 | Every entry expires, at most 24 hours (positive answers: at least 30 seconds, negative: exactly a quarter of the default) after its resolution was stored, plus the lag of the reloads it went through; also when a reload dropped records that did not parse |
| CacheProvenance.SnapshotsExpire | cache/persistence.go:127-131 | No snapshot this program wrote has an entry without expiration, so the zero-expiration branches are unreachable |
| CacheProvenance.ReloadMovesExpiration | cache/persistence.go:261-278 | A reload moves an expiration by exactly the time between its two clock readings, hence not at all if and only if they are equal |
| CacheProvenance.NoDrift | cache/persistence.go:261-278 | Over a whole run whose reloads each use one clock reading, the total postponement is zero, however many saves and restarts it has |
| CacheProvenance.LifeWithoutDrift | config/config.go:203-205 | On such runs every entry expires exactly its TTL after it was resolved, never more than 24 hours |
| CacheProgress.UnexpiredAnswerStays | cache/cache.go:52-54 | Over every run, whatever queries, refreshes, scans, saves, loads of other keys and the janitor do, a cached answer stays, unchanged, until its expiration has passed, unless something is stored under its key or the program restarts |
| CacheProgress.EvictedIff | cache/cache.go:52-54 | The janitor may remove an entry if and only if it has expired, and removes nothing else |
| CacheProgress.GoroutineNeverStuck | cache/cache.go:131-188 | In every reachable state each running query, refresh, save and load has an enabled action of its own, which moves it alone and brings it closer to its end |
| CacheKeys.KeyForm | cache/cache.go:77-118 | On every branch the key is the completed name, a colon and the decimal type; the precomputed suffixes agree with decimal printing |
| CacheKeys.KeysEqualIff | cache/cache.go:77-118 | Two questions share a key if and only if they agree on the completed name and the type, even if names contain colons |
| CacheKeys.CompletedNameSameKey | cache/cache.go:77-118 | A name and its completed form share a key when completing is idempotent |
| CacheKeys.KeyLength | cache/cache.go:77-118 | A key is at most six bytes longer than the completed name, for every 16-bit type |
| CacheTtl.CalculateTTL | cache/cache.go:227-275 | The result is the default if the answer is empty or holds a record with TTL 0 or an address record of 0.0.0.0 or ::, and else the shortest TTL in seconds, clamped to 30 and 86400; it is the order-free `AnswerTtl` |
| CacheTtl.AnswerTtlMeans | cache/cache.go:227-275 | The same of the specification `AnswerTtl` |
| CacheTtl.FillTtlMeans | cache/cache.go:168-179 | A negative answer is cached for a quarter of the default, an answer that is not to be trusted for the default, and any other for the clamped TTL of its shortest-lived record |
| CacheTtl.BytesEqual | cache/cache.go:213-224 | The byte loop decides equality |
| CacheTtl.MinTtlIsMinimum | cache/cache.go:234-249 | The minimum is a lower bound of all TTLs and is attained |
| CacheTtl.TtlIsOrderFree | cache/cache.go:227-275 | The TTL depends only on which records the answer holds, not on their order or multiplicity |
| CacheTtl.TtlIsBounded | cache/cache.go:264-275 | With a validated default the TTL lies in [30 s, 24 h], and is the shortest-lived record's when that lies in the range |
| CacheTtl.TtlFitsDuration | cache/cache.go:264-265 | Converting any 32-bit TTL to nanoseconds does not overflow an int64 |
| CacheResolver.ResolverWithCache | cache/cache.go:131-188 | If the cache has an entry under the key that has not expired, the query gets its records and counts the access; else it gets the resolver's records, which are cached under the key for their TTL, with every other entry unchanged; no cached array is in a pool |
| CacheResolver.QueryAgrees | cache/cache.go:131-188 | A query that runs undisturbed in the cache machine, hit or miss, ends in the outcome of `ResolverWithCache`: the same cache, the same tracker, and the same records served or resolved |
| CacheResolver.TrackAccess | cache/access_tracker.go:41-63 | One undisturbed access adds one to the key's count and stamps it, or creates its information with count one; nothing else changes |
| CacheResolver.CleanupExpiredEntries | cache/access_tracker.go:90-103 | Exactly the tracked keys that are live in the cache stay, unchanged |
| CacheResolver.GetFrequentlyAccessed | cache/access_tracker.go:76-87 | Returns exactly the keys whose count reaches the minimum, each once |
| CacheResolver.UpdateStaleEntries | cache/stale_updater.go:43-94 | A scan during which no refresh ends starts refreshes of keys with enough accesses and an entry unexpired by at most the threshold, each once and within the semaphore; and of all such keys unless it runs out of tokens |
| AccessTracking.EveryCallCountedOnce | cache/access_tracker.go:41-63 | With TrackAccess split into load, add, stamp and store, interleaved with cleanup and reloads, the objects ever created for a key have together counted exactly the completed calls on it |
| AccessTracking.LiveCountIsBounded | cache/access_tracker.go:41-63 | The live count is at least what was restored and at most that plus the completed calls |
| AccessTracking.SelectedKeysWereTracked | cache/access_tracker.go:76-87 | Without restored counts, every key the scan selects or refreshes has had at least the minimum number of completed calls |
| AccessTracking.LiveCountExactIff | cache/access_tracker.go:45-62 | The live count equals what it was restored with plus the completed calls if and only if no other object of the key counted one of them; without restored counts, if and only if the key has only ever had one object |
| AccessTracking.RacingFirstCallsLoseOne | cache/access_tracker.go:45-62 | Two calls that both missed the key leave a live count of one for two calls |
| AccessTracking.ExactCountFails | cache/access_tracker.go:45-62 | A concrete reachable run, from an empty cache, in which that happens |
| StaleUpdates.RefreshesBounded | cache/stale_updater.go:73-86 | Tokens in the semaphore equal the live refresh goroutines, never exceed its capacity, and can always be given back |
| StaleUpdates.StartsAreJustified | cache/stale_updater.go:60-89 | Every refresh was started for a key seen with at least the minimum count and 0 < time to expiry <= threshold, and no scan starts two refreshes of one key |
| StaleUpdates.ScanNeverBlocks | cache/stale_updater.go:43-94 | In every state the scanning goroutine has an enabled action until its scan ends |
| StaleUpdates.RefreshStartedIff | cache/stale_updater.go:68-87 | A refresh is started if and only if the entry is unexpired, by at most the threshold, and the semaphore has a token |
| StaleUpdates.KeyConsideredIff | cache/stale_updater.go:60-67 | A found key is looked at if and only if it has an unexpired entry with an expiration |
| StaleUpdates.KeyFoundIff | cache/access_tracker.go:76-87 | A tracked key is found if and only if its count reaches the minimum |
| StaleUpdates.KeyForgottenIff | cache/access_tracker.go:90-103 | A tracked key is forgotten if and only if the cache had no unexpired entry for it when the scan started |
| OverlappingRefreshes.OverlapIff | cache/stale_updater.go:60-89 | Two refreshes of one key can be under way at once if and only if the semaphore admits two refreshes |
| OverlappingRefreshes.OverlapPossible | cache/stale_updater.go:73-86 | A reachable run in which two scans in a row refresh one key, for any minimum count and threshold |
| RefreshLife.RefreshProlongsIff | cache/stale_updater.go:117-128 | A refresh keeps or prolongs the life of the entry it replaces if and only if the new answer's own life, from now, reaches at least to the old expiration |
| RefreshLife.RefreshCanShorten | cache/stale_updater.go:117-128 | For every configuration with the stale updater, a reachable run in which a refresh shortens it |
| Pools.Append | cache/persistence.go:121-125 | Go's append: in place while there is capacity, else in a fresh array, in both cases extending the contents by one |
| Pools.SlicePool.Get | cache/pools.go:51-55 | An empty slice over an array that the pool no longer holds, or over a fresh one |
| Pools.SlicePool.Put | cache/pools.go:58-63 | Only arrays of capacity up to 256 go back to the pool; every caller shows that the pool does not hold the array already |
| Persistence.Store.constructor | cache/cache.go:52-74 | The cache and the tracker start empty |
| Persistence.Store.LoadEntry | cache/persistence.go:234-297 | Loading an entry has the effect of `LoadOne`; the pooled slice it used is back in the pool or dropped; no array the cache held before is changed |
| Persistence.Store.LoadEntries | cache/persistence.go:232-297 | The nested 100-entry batch loop is the fold over all entries: each once, in order |
| Persistence.Store.LoadCacheFromFile | cache/persistence.go:194-300 | The error cases, the age check, and otherwise the fold; no array handed out earlier is changed, and none the cache holds is in a pool |
| Persistence.Store.SaveCacheToFile | cache/persistence.go:82-191 | The snapshot holds the entries of the live items, each key visited once, in some order; printing through the pool disturbs no line already built |
| SnapshotRoundTrip.SavedExactlyTheLive | cache/persistence.go:109-161 | A snapshot has one entry for each item live when it is taken, and no other |
| SnapshotRoundTrip.LoadedExactlyTheKept | cache/persistence.go:221-297 | Loading distinct keys into an empty cache stores exactly the entries that are not skipped, and counts them |
| SnapshotRoundTrip.RoundTrip | cache/persistence.go:234-297 | For every library and every clock, saving and loading gives back an item if and only if some record of it parses back and it is unexpired at the readings taken for it: its records as printed and parsed back, its expiration later by the time between the two readings, its access information, and nothing else |
| SnapshotRoundTrip.SurvivorsAreUnchanged | cache/persistence.go:248-280 | At one reading the expiration is the same; an item whose records print again comes back if and only if it has records and is unexpired, with the same records in print, and later reloads change nothing more; records in the form the parser gives come back as they are |
| SnapshotRoundTrip.SnapshotRestores | cache/persistence.go:221-297 | At one reading, a young enough snapshot restores exactly the items that survive; a too old one nothing |
| SnapshotRoundTrip.SaveAndRestart | cache/persistence.go:328-340 | The same for the code on the heap: save through the pools, restart with an empty cache, load |
| SnapshotRoundTrip.LoadingAgrees | cache/persistence.go:234-297 | The cache machine's loading actions, with time passing between them, have the effect of `LoadOne` |
| SnapshotRoundTrip.SavingAgrees | cache/persistence.go:109-161 | The cache machine's saving actions extend the entries as `SavedEntries` does |
| SnapshotRoundTrip.SnapshotTaken | cache/persistence.go:102-166 | In the cache machine a snapshot is taken of the items unexpired when the saving starts, and stamped with the time read next |
| SnapshotRoundTrip.LoadedIffYoung | cache/persistence.go:221-230 | In the cache machine a snapshot is loaded if and only if it is no older than the maximum age |
| CacheState.RoundsPrintAlike | cache/persistence.go:251-259 | Any number of saves and reloads leaves records that print again the same in print, and after the first one the same in value |
| CacheState.CanonicalComeBack | cache/persistence.go:251-259 | Records in the form the parser gives survive any number of saves and reloads as they are |
| Logger.MessagesExactlyOnce | logutil/logutil.go:75-143 | At every moment, timeouts included, output, worker, Flush, channel and in-flight writes together are exactly the accepted messages |
| Logger.ChannelIsFifo | logutil/logutil.go:108-156 | Without a timeout the channel's messages are written in the order they were enqueued |
| Logger.InOrderIffNothingOvertaken | logutil/logutil.go:194-209 | In every reachable state the channel's messages have been written in order if, and when they can be told apart only if, Flush has never written one that it took while the worker still held unwritten ones |
| Logger.OvertakingNeedsTimeout | logutil/logutil.go:161-191 | Only a Flush that has timed out can overtake; until then the worker holds nothing when Flush takes a message |
| Logger.FifoFailsAfterTimeout | logutil/logutil.go:184-209 | A concrete run with a timeout that reorders two messages |
| Logger.GracefulFlushIsComplete | logutil/logutil.go:161-191 | When Flush returns because the worker exited, everything enqueued before done was closed is in the output, in order |
| Logger.FlushNeverStuck | logutil/logutil.go:161-209 | While Flush is inside, some action other than the timer and the writers' is enabled |
| Logger.FlushReturns | logutil/logutil.go:161-209 | No run keeps Flush inside for more events than a bound computed from the state |
| Logger.EmptyAfterFlushIff | logutil/logutil.go:75-95 | The channel is empty whenever no Flush is inside, from the first Flush on and in every run, if and only if no Write is past its closed check and about to send when that Flush is called |
| Logger.SendAfterFlush | logutil/logutil.go:75-95 | A run from the start in which Flush has returned and the channel holds a message |
| LoggerProgress.WritesGoToTheChannelIff | logutil/logutil.go:75-104 | A write goes through the channel if and only if it finds the logger open and the channel not full, and else straight to the output |
| LoggerProgress.BatchWrittenIff | logutil/logutil.go:115-131 | The worker takes the channel's oldest message and starts to write its batch if and only if that makes fifty; a smaller one that is not empty it can write at any tick |
| LoggerProgress.BuffersAreBounded | logutil/logutil.go:212-230 | The channel never holds more than ten thousand messages, nor the batch more than fifty |
| LoggerProgress.FlushReturnsIff | logutil/logutil.go:161-191 | The first Flush closes the logger and waits for the worker, any later one drains the channel; it returns if and only if the worker it waits for has exited or the channel it drains is empty |
| LoggerProgress.OpenLoggerDelivers | logutil/logutil.go:108-156 | From every open state the worker and the writers alone can bring every accepted message to the output; a partly filled batch does not wait for more |
| Counters.CompletedCallsCountUp | metric/optimized_common.go:60-86 | The n completed increments of a key returned 1, 2, ..., n in the order they took effect (modulo 2^64), however creations race, and a read returns n |
| Counters.EachValueOnce | metric/optimized_common.go:60-77 | Below 2^64 calls the returned values are exactly 1..n, each once |
| Counters.CellsAreStable | metric/optimized_common.go:60-77 | A counter in the table is never replaced and never shared between keys |
| CountersProgress.StartedCallsAreCounted | metric/optimized_common.go:60-86 | Over every run each call that was started is running or counted, so with no call on a key running its counter reads the number of calls made on it |
| CountersProgress.CallNeverStuck | metric/optimized_common.go:60-77 | Every running call has an enabled action, which brings it closer to its return |
| UsageStats.CountersAreExact | dnsresolver/dnsresolver.go:148-162 | Each server's int64 counter equals its completed increments; the lock admits one creator; a counter is never replaced or shared |
| UsageStats.SnapshotIsBracketed | dnsresolver/dnsresolver.go:165-173 | A statistics snapshot lists exactly the known servers, each with its count at some moment during the call |
| UsageProgress.StartedIncrementsAreCounted | dnsresolver/dnsresolver.go:148-162 | Over every run, with no increment of a server running its counter reads the number of increments made |
| UsageProgress.SomeoneMoves | dnsresolver/dnsresolver.go:148-173 | No deadlock: while an increment or a snapshot is running, one of those already running can take its next action |
| FastMetrics.NothingLostOrReordered | metric/fast_metrics.go:368-427 | Flushed, pending and channel, in this order, are the accepted sends; and the registry is what applying the flushed ones in order gives, plus the hits and misses added by the ticks |
| FastMetrics.CacheCountersCountTicks | metric/fast_metrics.go:431-443 | The registry's hit and miss counters count the flushed hit and miss updates and one more for every tick that found the atomic counter positive; the atomic counters count every hit and miss |
| FastMetrics.CacheTotalsIff | metric/fast_metrics.go:249-279 | Between recording calls the registry's hit total is the number of hits if and only if the ticks that found hits are as many as the hits counted inline, dropped, pending or in the channel; the miss total likewise |
| FastMetrics.CacheTotalsFail | metric/fast_metrics.go:431-443 | For every configuration a run of one hit, one miss and two ticks after which the registry says two of each |
| FastMetrics.QueriesConserved | metric/fast_metrics.go:221-246 | Between recording calls the query counter equals flushed plus pending plus channel-resident plus dropped query updates |
| RecordedMetrics.SentIffRoom | metric/fast_metrics.go:230-246 | A sending step puts exactly its update at the end of the channel if there is room, and drops it only if the channel is full; no other step accepts or drops anything |
| RecordedMetrics.RecordingNeverWaits | metric/fast_metrics.go:221-279 | No recording call ever waits, whatever the processor does and however full the channel is |
| RecordedMetrics.NothingUnaccounted | metric/fast_metrics.go:221-279 | Over every run, what calls have recorded in a counter series was accepted, dropped, or is still to be sent |
| RecordedMetrics.EveryQueryReachesTheRegistry | metric/fast_metrics.go:221-246 | In a run whose channel is never full the registry reads, once drained, for each query type and status and for each domain and status the number of recorded queries with them |
| RecordedMetrics.AtomicsCountCalls | metric/fast_metrics.go:221-272 | Over every run the atomic counters are the numbers of recorded queries, hits and misses modulo 2^64, however many updates were dropped |
| RecordedMetrics.GaugesEveryTenthTick | metric/fast_metrics.go:376-411 | The processor sends the gauges at every tenth tick of a run and at no other |
| MetricsProgress.EverythingCanBeFlushed | metric/fast_metrics.go:368-427 | The processor alone can bring everything in its batch and in the channel to the registry, in order |
| MetricsProgress.BatchStaysSmall | metric/fast_metrics.go:415-419 | Between two rounds the batch is smaller than the batch size |
| FastMetrics.ProcessorNeverBlocks | metric/fast_metrics.go:332-341 | The processor's own sends never wait and it always has a next action |
| RecordedMetrics.LoopSelects | metric/fast_metrics.go:382-394 | Between two rounds the processor can take an update if and only if there is one, tick at any time, and stop if and only if it is cancelled, flushing its batch first |
| FastMetrics.ClosedHasFlushed | metric/fast_metrics.go:509-545 | When done is closed everything pulled has been flushed, and what was left is still in the channel |
| FastMetrics.DrainGoesOnIff | metric/fast_metrics.go:509-538 | Before its deadline the drain pulls the channel's oldest update if and only if there is one and the maximum is not reached, and stops if and only if not; it flushes whenever its batch is full |
| FastMetrics.ShutdownProgresses | metric/fast_metrics.go:509-565 | One step: every processor action brings done closer, no other action delays it, every pull uses up one of maxDrainUpdates |
| FastMetrics.ShutdownIsBounded | metric/fast_metrics.go:509-565 | Over every run after the processor saw the cancellation, whatever the recorders do: at most maxDrainUpdates are pulled, and done is closed within 4 * maxDrainUpdates + 2 * (pending updates) + 4 processor actions |
| Prometheus.Metrics.ProcessMetricUpdate | metric/optimized_common.go:241-288 | The switch over the update kinds has the effect of `Process`, whose meaning the next four rows give |
| Prometheus.ProcessMovesItsSeries | metric/optimized_common.go:36-58 | An update moves exactly the series it addresses under the table of required labels, a counter by one, a gauge to its value, and no other |
| Prometheus.CountersCount | metric/optimized_common.go:241-288 | After any updates a counter reads how many of them addressed it |
| Prometheus.GaugesKeepTheLast | metric/optimized_common.go:241-288 | After any updates a gauge reads the value of the last one that addressed it |
| Prometheus.DurationsObserved | metric/optimized_common.go:245-265 | The two histograms hold exactly the durations of the query updates, each under its labels |
| Prometheus.Metrics.FlushUpdates | metric/fast_metrics.go:423-428 | Flushing a batch is applying its updates in order |
| Prometheus.ProcessAllAppend | metric/optimized_common.go:291-295 | Batching is irrelevant: two batches are their concatenation |
| Prometheus.QueriesCounted | metric/optimized_common.go:245-251 | The registry counts one query and one duration for each query update processed |
| HealthCheck.ChecksInFlightBounded | dnssource/dnssource.go:146-194 | No reachable state has more than WorkerCount exchanges in flight |
| HealthCheck.PublishedLists | dnssource/dnssource.go:133-206 | For every schedule, at the swap every server has been checked once, and the lists are duplicate-free and hold exactly the reachable servers, each in the list of its type |
| HealthCheck.ListsHoldTheReachable | dnssource/dnssource.go:155-206 | Over every run of a check each server is asked once, and at the swap the public list holds exactly those configured as public whose exchange in that run succeeded, the private list exactly the others configured as private whose exchange succeeded |
| HealthCheck.NeverStuck | dnssource/dnssource.go:133-206 | Until the swap some action is enabled |
| HealthCheck.StepGetsCloser | dnssource/dnssource.go:155-206 | Every action of every schedule brings the swap closer |
| HealthCheck.CheckIsBounded | dnssource/dnssource.go:155-206 | No schedule of a check has more than seven actions for each server and the swap |
| ServerSelection.DeduplicatedServers | dnssource/dnssource.go:133-144 | Deduplication keeps every non-empty configured server once |
| ServerSelection.DnsSource.UniqueServers | dnssource/dnssource.go:133-144 | The loop computes that deduplication |
| ServerSelection.RefreshPublishesReachable | dnssource/dnssource.go:181-206 | The two lists together are a permutation of the configured, non-empty, reachable servers |
| ServerSelection.RefreshKeepsCacheOk | dnssource/dnssource.go:181-206 | A swap keeps the invariant of the published lists, whatever the checks found |
| ServerSelection.DnsSource.constructor | dnssource/dnssource.go:48-82 | The configured server sets; no list is published yet |
| ServerSelection.DnsSource.CategorizeServer | dnssource/dnssource.go:240-243 | The type of a server; one configured as both is public |
| ServerSelection.DnsSource.SwapCache | dnssource/dnssource.go:202-206 | The atomic swap installs the lists of a finished check and keeps the object valid |
| ServerSelection.DnsSource.GetServersForClient | dnssource/dnssource.go:212-236 | By the routing decision for the client's address and ARP reading: a public-only client gets the published public servers, or the configured ones when none is published; any other the published private before the published public servers, or when nothing is published all configured private before all configured public servers. A named server is among them if and only if one is configured for such a client, and no public-only server stands before a private-only one |
| ServerSelection.SelectionOverAllRuns | dnssource/dnssource.go:212-236 | The same, order included, after any sequence of health checks, for the decision that the configured lists give on the client's address and MAC address |
| Resolver.UpstreamDNSQuery | dnsresolver/dnsresolver.go:94-145 | The servers contacted are exactly the prefix of private then public servers that ends at the first success |
| Resolver.ResolverForClient | dnsresolver/dnsresolver.go:76-80 | The same for the servers chosen for the client: with nothing published the configured private servers are asked before the public ones, and never a public-only server before a private-only one; a client listed by its address, its MAC address or its vendor prefix contacts configured public servers only |
| Resolver.ResolverForDomain | dnsresolver/dnsresolver.go:83-91 | A routed domain reaches its server and no other; any other domain is resolved as for the client |
| Resolver.FirstSuccessUnique | dnsresolver/dnsresolver.go:94-116 | The specification determines the result |
| Resolver.AnsweredIffSomeoneResponds | dnsresolver/dnsresolver.go:94-116 | A query is answered if and only if some exchange succeeds, and otherwise all servers have been contacted |
| RoutingLoader.SendNeverBlocks | domainrouting/domainrouting.go:205-219 | No goroutine that has not sent finds its channel full |
| RoutingLoader.NeverStuck | domainrouting/domainrouting.go:205-250 | Until the call returns some action is enabled |
| RoutingLoader.StepGetsCloser | domainrouting/domainrouting.go:205-250 | Every action in every schedule brings the return closer |
| RoutingLoader.ErrorsYieldNoTable | domainrouting/domainrouting.go:243-250 | In every schedule the call fails if and only if some file failed, with the error of the file that failed first |
| RoutingLoader.LoadedEntries | domainrouting/domainrouting.go:232-237 | On success the keys are the union of the files' keys and every value is some file's |
| RoutingLoader.EveryOrderIsAResult | domainrouting/domainrouting.go:205-237 | Every order of the files is some schedule's merge order |
| RoutingLoader.ConfluentIffFilesAgree | domainrouting/domainrouting.go:205-250 | Without file errors the table is the same in every schedule if and only if the files agree on the domains they share |
| DomainRouting.AcceptedLines | domainrouting/domainrouting.go:94-150 | The exact condition under which a line is accepted; the dot test of validateDomain never rejects one |
| DomainRouting.RouteOfLine | domainrouting/domainrouting.go:115-150 | The route of a line from its two trimmed fields: the domain with a final dot, the address with port 53, in brackets if it is bare IPv6; accepted if and only if the domain has at most 253 bytes and the address splits into an IP address and port 53 |
| DomainRouting.OtherLinesIgnored | domainrouting/domainrouting.go:116-124 | Blank lines, comments and lines with fewer than two slashes give no route |
| DomainRouting.RouteReachesNormalForm | domainrouting/domainrouting.go:115-150 | Writing an accepted route as a line and reading it back gives the same route |
| DomainRouting.LastLineWins | domainrouting/domainrouting.go:153-184 | A file's table has exactly the domains some line sets, each with the server of the last such line |
| DomainRouting.LoadSingleFile | domainrouting/domainrouting.go:153-184 | The scanning loop computes that table, or the file's error |
| DomainRouting.FileTableIsNormal | domainrouting/domainrouting.go:153-184 | All routes of a file are in normal form |
| RoutingReload.LoadedTableIsNormal | domainrouting/domainrouting.go:187-250 | All routes of a loaded table are in normal form, in every schedule |
| RoutingReload.LoadedTableIsLastValid | domainrouting/domainrouting.go:153-250 | In every schedule a loaded table has exactly the domains that some line of some routing file sets, and gives each the server of the last line that sets it in one of the files |
| RoutingReload.TableOfFolder | domainrouting/domainrouting.go:187-250 | A load succeeds if and only if the folder can be read, has a .txt file, and all of them can be read; the table then has exactly the domains that some line of one of them sets, each with the server of the last line that sets it in one of them |
| RoutingReload.DomainRouter.Initialize | domainrouting/domainrouting.go:58-68 | The first load publishes its table, or routing stays off |
| RoutingReload.DomainRouter.Reload | domainrouting/domainrouting.go:75-87 | A failed or empty reload leaves the old table |
| RoutingReload.DomainRouter.LookupDomain | domainrouting/domainrouting.go:38-45 | A lookup answers from the published table |
| RoutingReload.ServedTableIsNormal | domainrouting/domainrouting.go:58-88 | Over any run of reloads a served table is non-empty and in normal form |
| MacAddress.ScanMAC | util/util.go:168-206 | The one-pass scanner computes the specification: delete other characters, split at separators, lower-case, join the non-empty groups |
| MacAddress.MacNormalizer.NormalizeMAC | util/util.go:159-206 | The memo table always agrees with the specification and gains the address asked |
| MacAddress.MacNormalizer.ExtractMACOUI | util/util.go:236-261 | The loop computes the join of the first three groups, or nothing |
| MacAddress.NormalFormIdempotent | util/util.go:159-206 | Normalising twice changes nothing |
| MacAddress.NormalFormsAgree | util/util.go:159-206 | Two addresses normalise alike if and only if they have the same groups |
| MacAddress.NormalFormShape | util/util.go:159-206 | A normal form has no leading, trailing or doubled colon and only lower-case digits beside colons |
| MacAddress.GroupsOfJoin | util/util.go:159-206 | Hexadecimal groups are recovered from their colon-separated spelling |
| MacSpelling.GroupsOfSpelling | util/util.go:159-206 | Pieces of any characters, with any of the four separators between, normalise to those with a digit, in order, each in lower case with the values of its digits unchanged |
| MacSpelling.CharacterKept | util/util.go:179-194 | A digit is kept in lower case with its value, each of four separators becomes a colon, any other character is dropped |
| MacAddress.VendorPrefixGroups | util/util.go:236-261 | The vendor prefix has exactly the first three groups of the address |
| VendorRouting.DocumentedPrefixIff | util/util.go:236-261 | With at least six digits, the code finds the documented vendor prefix (the first six digits, in pairs) if and only if the first three groups of the address are pairs of digits |
| VendorRouting.UnseparatedHasNoPrefix | util/util.go:236-261 | An address written without separators has no vendor prefix, whatever its digits |
| VendorRouting.VendorDecisionIff | clientrouting/clientrouting.go:117-126 | For every configuration and address, the address is matched if and only if some configured prefix has three groups, its digits are the address's first ones, and both are cut in the same places; with prefixes configured as documented, if and only if the documentation says so and the address writes its first six digits in pairs |
| VendorRouting.UnseparatedAddressMissed | clientrouting/clientrouting.go:117-126 | A configured vendor's device that is not matched, because its address is spelled without separators |
| VendorRouting.UnseparatedPrefixMatchesNothing | clientrouting/clientrouting.go:63-72 | A prefix configured without separators matches no address, though the documentation promises every address that begins with its digits |
| ClientRouting.ClientRouter.constructor | clientrouting/clientrouting.go:25-39 | The three tables hold the configured lists, normalised |
| ClientRouting.ClientRouter.StoreMACs | clientrouting/clientrouting.go:52-72 | The stored keys are the non-empty normal forms of the configured addresses |
| ClientRouting.ClientRouter.GetMACWithCache | clientrouting/clientrouting.go:75-96 | The normal form of an ARP reading no older than the cache life |
| ClientRouting.ClientRouter.ShouldUsePublicServers | clientrouting/clientrouting.go:99-129 | The table lookups decide what the listed clients, addresses and vendor groups say, on an ARP reading no older than three minutes |
| ClientRouting.LookupsDecide | clientrouting/clientrouting.go:110-126 | Looking up a normalised address decides membership by groups |
| ClientRouting.SpellingIrrelevant | clientrouting/clientrouting.go:110-126 | Respelling the ARP address or any configured one does not change a decision |
| EnvList.GetEnvStringSlice | util/util.go:81-111 | The one-pass scanner equals split at commas, trim, drop empties, for every value with a comma |
| EnvList.RoundTrip | util/util.go:81-111 | Joining tidy items with commas and reading them back gives them |
| EnvList.PaddedRoundTrip | util/util.go:92-111 | Items with spaces around them and commas between are read back as the items |
| EnvList.ShortCutAgrees | util/util.go:82-85 | The short cut for values without a comma agrees with the specification if and only if the value is not blank |
| EnvList.ItemsAreItems | util/util.go:93-111 | Every item read is trimmed, non-empty and comma-free |
| Text.TrimCutsSpaces | util/util.go:98-99 | Trimming removes the spaces at both ends, all of them and nothing else |

## Left out

Simplifications of what is modelled:

- The DNS library appears as three functions, of which nothing is assumed: completing a name, printing a record and
  parsing it. Where a theorem says more of records that print again (`CacheState.PrintsAgain`), that is a condition on
  the records at hand. Equality of values is not promised for them: an IPv4 address received in four bytes is parsed
  back in sixteen.
- `net.SplitHostPort` and `net.ParseIP` are parameters of the routing lines; ARP output, resolver replies,
  reachability, file contents and clock readings are events or parameters.
- Strings hold characters; bytes that are not valid UTF-8 are not modelled.
- go-cache is a map with expirations. Reading the clock and storing are one action of its `Set`, and its eviction
  may remove an expired entry at any moment.
- Reading and writing the snapshot file are single actions, a failed write leaves a file that does not decode, and
  JSON encoding and the fallback directories of ensureCacheDir are not modelled.
- Configuration does not change across restarts.
- CacheSystem keeps records as values. Sharing of arrays is modelled in `Persistence` and `CacheResolver`, without
  interleaving; the pools of string builders and of DNS messages are not modelled.
- A hit returns the cache's own slice; what a caller does with it afterwards is not modelled.
- CacheResolver.TrackAccess: covers one undisturbed call; the racing form is in CacheSystem.TrackStep.
- Access counts are unbounded integers, not int64.
- The metrics channel has room for at least one update; the rendezvous of an unbuffered channel is not modelled.
  Gauge values and durations are integers.
- An IPv6 server address in a routing line is treated as the code does, by counting colons.

Properties the code does not have, with what is proved instead:

- Exact access counts: a first access can be lost (`AccessTracking.ExactCountFails`); the exact condition is
  `AccessTracking.LiveCountExactIff`.
- Log order after a Flush timeout: `Logger.InOrderIffNothingOvertaken` says which runs keep it, and
  `Logger.FifoFailsAfterTimeout` is one that does not.
- An empty channel after Flush: a write that passed its check can still enqueue. `Logger.EmptyAfterFlushIff` is the
  exact condition and `Logger.SendAfterFlush` a run that fails it.
- Negative entries do not survive a reload: an entry comes back only if a record parses (`SnapshotRoundTrip.RoundTrip`).
- Prometheus totals of cache hits and misses equal to the internal counters: `FastMetrics.CacheTotalsIff` is the exact
  condition and `FastMetrics.CacheTotalsFail` a run that fails it.
- At most one refresh of a key at a time: `OverlappingRefreshes.OverlapIff`.
- A stale refresh that always prolongs an entry: `RefreshLife.RefreshProlongsIff` is the exact condition and
  `RefreshLife.RefreshCanShorten` a run that fails it.
- The documentation calls a vendor prefix the first six hexadecimal digits of an address; the code takes the first
  three groups. `VendorRouting.DocumentedPrefixIff` and `VendorRouting.VendorDecisionIff` are the exact conditions under
  which the two agree, and `VendorRouting.UnseparatedAddressMissed` and
  `VendorRouting.UnseparatedPrefixMatchesNothing` are decisions in which they do not.
- validateDomain asks for a dot, but the trailing dot has been added by then (`DomainRouting.AcceptedLines`).
- A blank value without a comma is kept as an item (`EnvList.ShortCutAgrees`).
- TTL 0 selects the default TTL here, which is not what section 3.2.1 of RFC 1035 says of it.

Not stated: anything about separate cache entries for each client, whose address is no part of a cache key.

Parts of the program not modelled: the UDP and HTTP servers, signals, the exchange with upstream servers itself,
SystemMetricsCache, ConditionalTimer, getAllCounts and getTopItems, cache statistics, environment memo tables, log
levels and formats, and the pid file, whose check and creation can interleave so that two processes can both start.
