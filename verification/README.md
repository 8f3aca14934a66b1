# AppBand accounting, verified

AppBand meters a Mac's network use. A collector reads cumulative byte counters, turns them
into samples, attaches each sample to a session (one stay on one network), and a server
reports from the stored samples. This project models that pipeline and proves what it is
for: bytes are neither invented nor attributed twice, no stored row ever loses its session,
and nothing the collector does later changes what a report says about the past.

`dafny verify dfyconfig.toml` checks everything. No file depends on anything outside this directory.

## How it is modelled

- `World` (in `Collector.dfy`) is the database file plus the memory of the running process,
  if one runs. `Step` maps a world and an event to the next world. Events are: start, session
  poll, interface poll, process poll, connection poll, retention poll, one address taken off
  the DNS queue, clean shutdown, crash. A run is any sequence of enabled events.
- The classes `DeltaTracker`, `Store`, `SessionWatcher`, `DnsResolver`, `Collector` and
  `NetworkMonitor` keep the fields the source keeps and update them in place. Each method is
  proved against the function `Step` and the lemmas use. `Collector.Valid` holds after
  start and after every loop body, and includes that the watcher holds the only open session.
- `Integrity.dfy`, `RunLength.dfy`, `Downtime.dfy`, `Ledgers.dfy`, `ProcessLedger.dfy`,
  `Metering.dfy`, `Stability.dfy`, `Throttling.dfy` and `Reachable.dfy` prove properties of all runs.
- `Grouping.dfy`, `Reports.dfy`, `Attribution.dfy` and `RealSums.dfy` define each report twice,
  as a one-pass grouped accumulation and as a plain sum over rows, and prove them equal.
- `ExactAnswers.dfy` and `ShareAnswers.dfy` say what each report answers on the columns of the
  stored rows alone: which rows it counts, in which interval, and what each network, host,
  process and scope gets of each. `Polls.dfy` and `ProcessPolls.dfy` do the same for what
  each poll stores, and say which polls run a tick. They speak of columns, not of the functions
  that compute the answer.
- `Dns.dfy`, `Csv.dfy`, `Nettop.dfy`, `Lsof.dfy`, `Text.dfy` and `BudgetAlerts.dfy` are the side cores.

Assumptions, all built into `Step` and `ValidRun`:

- A step is atomic: its readings, its clock value and its writes belong together. In the
  source `now` is captured before the tools run and the rows are written later; without
  atomicity a row's time can lie outside its session.
- A step completes: no statement or subprocess fails half way.
- The clock never goes back, across restarts too.
- Snapshots, tool output, DNS answers and the clock are inputs of the events, and may be any
  values. Where a lemma needs what the parsers return it says so: `Parsed` (a connection row's
  scope classifies its address) and `Named` (a snapshot has a link type, and an SSID or none;
  appband/parsers/network_info.py:79-82 and 105-141).
- Shares of bytes are exact rationals. The source computes them in floating point.

What the proofs found:

- Session ids are reused: without AUTOINCREMENT a purge that empties the table starts ids
  again from 1. `IdsFollowTime`, `ReusedIdIsUnreferenced` and `SettledWindows` show that this does no harm.
- Thirty days of sample retention, the default, is exactly what the month budget needs, and
  ninety days of DNS retention is exactly what keeps purges from causing lookups. One second
  less fails: a run of four steps from an empty database loses a byte from its month budget,
  and another looks up again a name it resolved ninety days before (`BudgetsSurviveIff`,
  `PurgesInvisibleIff`, `RunPurgesInvisibleIff`).
- `toCsv` documents RFC 4180 output, but column names are never quoted. `ReadBackIff` gives the
  exact condition under which its output can be read back.
- Single-network budgets add up to the budget of all networks less exactly the bytes on
  networks that no request asks for (`BudgetsPartition`). Two kinds of network cannot be asked
  for, because an empty parameter reads as an absent one: an empty SSID, and no SSID with an
  empty link type (`UnaskableNetwork`). A caller can check for them in the sessions table
  (`BudgetsCanMeetIff`). The collector stores neither, so on every database it reaches the
  budgets of the networks present add up exactly (`NamedBudgetsAddUp`).
- The setting `process_eviction_misses` (appband/config.py:44) is not used: the collector evicts
  after three misses whatever it says. The model follows the collector.
- A shutdown between adoption of a session and the first session tick leaves that session open;
  the next start adopts it again.

## Model

| member | source | states |
|---|---|---|
| Delta.DeltaTracker.Update | appband/delta.py:27-39 | the anchor moves to the reading in every case; a delta is reported exactly when the key is known, its counter did not fall and it grew by less than (threshold + 1) bytes for each elapsed second, at least one, and it is then the growth |
| Delta.DeltaTracker.EvictMissing | appband/delta.py:41-49 | the loop of in-place increments and deletes leaves exactly: present keys with no misses, absent ones with one more miss while below the limit |
| Delta.FloorBound | appband/delta.py:32-34 | floor division against the threshold means strictly less than (threshold + 1) times the elapsed time, not the threshold itself |
| Delta.ReportedIff | appband/delta.py:28-39 | exact condition for a delta to be reported, with the strict rate bound it satisfies |
| Delta.LedgerBalances | appband/delta.py:27-39 | over any interleaving of keys: counted deltas + skipped jumps - reset losses = last value - first value |
| Delta.LedgerNonNegative | appband/delta.py:29-39 | no counted delta, skipped jump or loss is ever negative in total |
| Delta.TrackerIsHistory | appband/delta.py:41-49 | after any sequence of polls a key is tracked iff one of the last `maxMisses` polls listed it, and its anchor is its latest observation aged by the polls since |
| Delta.Reappearance | appband/delta.py:27-49 | a key that returns is judged against its latest observation exactly when absent from fewer than `maxMisses` polls, and starts over otherwise |
| Delta.TrackedKeys | appband/delta.py:41-49 | the tracked keys are the distinct keys of the last `maxMisses` polls, so memory stays bounded |
| Polls.PlainIsReported | appband/delta.py:27-39 | a delta is reported iff the counter is known, has not gone back and grew by less than (threshold + 1) for each second, at least one; on the anchor fields alone |
| Database.NextId | appband/db.py:19 | a new session id is unused, above every id in the table, and 1 for an empty table |
| Database.ActiveSession | appband/db.py:208-217 | none iff no session is open; otherwise an open session that no open session follows in start time, then id |
| Database.Store.OpenSession | appband/db.py:170-184 | adds one open session under the next id and returns that id |
| Database.Store.CloseSession | appband/db.py:187-190 | sets the end of that session only; an unknown id changes nothing |
| Database.Store.CloseOrphanSessions | appband/db.py:193-205 | ends every open session except the one recovery would adopt |
| Database.Store.InsertInterfaceSample | appband/db.py:220-230 | appends one row; its session must exist, as the foreign key demands |
| Database.Store.InsertProcessSample | appband/db.py:233-246 | appends one row; its session must exist |
| Database.Store.InsertConnection | appband/db.py:249-263 | appends one row; its session must exist |
| Database.Store.UpsertDns | appband/db.py:266-276 | replaces or adds the entry of one address |
| Database.Store.RecordGap | appband/db.py:310-313 | appends one gap |
| Database.Store.PurgeOld | appband/retention.py:10-33 | all five deletes in order; if a surviving row still refers to an expired session the delete is refused and later tables keep their rows; returns whether it completed |
| Database.PurgeOnColumns | appband/retention.py:16-33 | which samples, connections, gaps, sessions and names stay, each by its own column, and that they stay as they are |
| Database.PurgeRefusedIff | appband/retention.py:19-29 | a purge is refused iff a row that stays is of a session that ended before the cutoff; sessions, names and gaps then stay |
| Watcher.SessionWatcher.constructor | appband/session_watcher.py:98-111 | recovers the id and the network of the active session, if there is one |
| Watcher.SessionWatcher.Tick | appband/session_watcher.py:113-148 | sessions table, watcher state and returned id after offline, same network and changed network |
| Watcher.StartupAdopts | appband/db.py:193-217 | from any table with any number of open sessions, startup leaves open exactly the one that recovery adopts, and loses no row |
| Watcher.SameNetIff | appband/session_watcher.py:28-29 | two snapshots are of one network iff interface, link type, ssid and bssid all agree; the address is no part of it |
| Watcher.TickOnColumns | appband/session_watcher.py:113-148 | offline every session has ended; if the open row has the snapshot's four columns nothing changes, whatever the address; otherwise it ends now and one open row is added with interface, link type, ssid, bssid and address in their own columns |
| Watcher.ReconcileKeeps | appband/session_watcher.py:113-148 | a tick keeps the watcher's session the only open one, on the observed network, and never rewrites an ended session |
| Watcher.PurgeKeepsHeld | appband/retention.py:25-28 | a purge never deletes the session the watcher holds |
| Collector.Collector.constructor | appband/collector.py:200-218 | startup performs the Start step: orphans closed, session adopted, empty trackers, no active session; the class invariant holds |
| Collector.Collector.RunInterfaceTick | appband/collector.py:97-125 | sums all routes, moves both anchors, stores one sample iff both directions report and a session is active |
| Collector.Collector.RunProcessTick | appband/collector.py:128-154 | both trackers after all rows and the eviction round, and the samples stored in row order |
| Collector.Collector.RunConnectionTick | appband/collector.py:157-174 | stores every row iff a session is active and queues every address for DNS either way |
| Collector.Collector.SessionLoop | appband/collector.py:273-296 | one pass: gap recorded on a long silence, watcher ticked, active session set, invariant kept |
| Collector.Collector.InterfaceLoop | appband/collector.py:260-271 | one pass of the throttled loop is the InterfacePoll step |
| Collector.Collector.ProcessLoop | appband/collector.py:260-271 | one pass of the throttled loop is the ProcessPoll step |
| Collector.Collector.ConnectionLoop | appband/collector.py:260-271 | one pass of the throttled loop is the ConnectionPoll step, with the addresses queued |
| Collector.Collector.RetentionLoop | appband/collector.py:298-328 | purges at most daily, and keeps the watcher's session the only open one |
| Collector.Collector.ResolverLoop | appband/dns_cache.py:60-66 | one queued address is the DnsDequeue step |
| Collector.Collector.ShutdownStep | appband/collector.py:345-351 | closes the active session, if the collector has one |
| Polls.StartIsFresh | appband/collector.py:200-218 | a start touches nothing but session ends; the process begins with no active session, no counter known and no loop run |
| Polls.ShutdownEnds | appband/collector.py:345-351 | a clean exit ends exactly the active session, and changes nothing else |
| Polls.PollPaces | appband/collector.py:260-328 | a poll whose loop ran less than its interval ago changes nothing; one that is due moves its own loop's time only |
| Polls.LifePaces | appband/collector.py:260-328 | over a process's life each loop ticks at exactly the polls an interval or more after its tick before |
| Polls.ThinnedApart | appband/collector.py:264-270 | successive ticks of a loop are an interval or more apart |
| Polls.TotalsAreSums | appband/collector.py:111-112 | the totals are the sums of the two columns over all routes |
| Polls.InterfacePollAdds | appband/collector.py:97-125 | a due interface poll adds one sample, of the time, the active session and the two growths, iff there are rows, a session, and both sums are plain deltas; both sums become anchors either way |
| ProcessPolls.ProcessRowAdds | appband/collector.py:132-152 | a process row adds one sample with its name, pid and two growths iff both counters grew plainly since last known, in this poll or before, not both by nothing, and a session is active |
| ProcessPolls.ProcessPollAdds | appband/collector.py:128-154 | a due process poll adds exactly those samples, in row order, at its time and of the active session; none without one |
| ProcessPolls.ListedOnce | appband/collector.py:131-137 | the row of a process listed once is judged against what was known before the poll |
| ProcessPolls.ProcessPollAnchors | appband/collector.py:136-154 | after the poll a process is known by its last row's two counters, each in its own tracker; without a row by what was known, until the third miss |
| Polls.ConnectionPollAdds | appband/collector.py:157-174 | a due connection poll adds exactly its rows, the i-th with the time, the active session and process, address, port, protocol and scope of row i; none without a session; nothing else changes |
| Polls.RecordedIff | appband/collector.py:160-173 | a connection is recorded iff some poll that ran while a session was active has a row with its columns |
| Polls.RunRecords | appband/collector.py:157-174 | over any run with restarts and purges the connections table is what was there and what the polls that ran recorded, in order, less what is older than the last cutoff |
| Polls.RunRecordsFromEmpty | appband/collector.py:157-174 | from an empty database: exactly what the polls recorded, from the last cutoff on |
| Integrity.PurgeNeverRefused | appband/retention.py:19-29 | when rows lie within their sessions no surviving row refers to an expired one |
| Integrity.PurgedIsSound | appband/retention.py:16-33 | a purge keeps every remaining row within an existing session |
| Integrity.RunKeeps | appband/collector.py:97-351 | referential integrity over all runs: every stored row refers to a session with started_at <= ts, ts <= ended_at if it ended, and a running watcher holds the unique open session |
| Integrity.RunWatches | appband/collector.py:200-296 | from a database of any contents: after startup, in every state of every run, the watcher's session is the only open one, or none is |
| Integrity.ActiveAfterTick | appband/collector.py:287-291 | after a session tick `active_session_id` is the unique open session, and there is one iff the machine is online |
| Integrity.RunPurgesSafely | appband/collector.py:316-327 | in every reachable state a purge completes and keeps the watcher's session |
| Integrity.ReusedIdIsUnreferenced | appband/db.py:19 | an id about to be given out is referred to by no stored row, reused or not |
| RunLength.Starts | appband/session_watcher.py:123-131 | the positions where a snapshot's interface, link type, ssid or bssid differs from the observation before, or that was offline, in order and all of them |
| RunLength.EndTimeIsFirst | appband/session_watcher.py:115-128 | a run ends at the first later observation offline or with another interface, link type, ssid or bssid; it is open iff there is none |
| RunLength.RunsGrow | appband/session_watcher.py:113-148 | one more observation leaves the runs alone or ends the last and starts the next |
| RunLength.RunsInOrder | appband/session_watcher.py:113-148 | runs do not overlap, follow in time, and only the last may be open |
| RunLength.TickRepresents | appband/session_watcher.py:113-148 | a session tick changes the table exactly as one observation changes the runs |
| RunLength.PurgeTables | appband/retention.py:25-28 | a purge drops exactly the runs expired at its cutoff, which are the oldest, and ids restart from 1 after one that drops them all |
| RunLength.RunGroups | appband/session_watcher.py:98-148 | over any run with crashes, restarts, clean exits and purges, the table is the maximal runs of the observed networks under consecutive ids, less those the fired purges drop: a function of the observations and of when purges fired |
| RunLength.PastIsObserved | appband/collector.py:273-327 | that function reads only what session ticks and clean exits observed, and the cutoffs of the purges that fired |
| RunLength.RunGroupsFromEmpty | appband/session_watcher.py:98-148 | from an empty database: before any purge the sessions are exactly the maximal runs with ids from 1; after one, for a retention of zero or more, exactly the maximal runs that had not expired at the last purge's cutoff |
| RunLength.IdsFollowTime | appband/db.py:18-27 | on runs from an empty database id order is start order and sessions never overlap, although ids are reused |
| RunLength.RestartRecovers | appband/session_watcher.py:102-111 | a crash and restart leave the tables unchanged and rebuild the watcher's id and network |
| Downtime.SessionTickAccounts | appband/collector.py:278-294 | a session tick keeps the record of downtime in order: a gap it adds overlaps no other and no session's start or end falls inside one |
| Downtime.RunAccounts | appband/collector.py:280-286 | over all runs recorded gaps last a minute or more, are disjoint and in order, and no session begins or ends inside one |
| Downtime.SilencesIff | appband/collector.py:282 | a silence is a pair of successive ticks a minute or more apart, the first not at time 0, and every such pair is one |
| Downtime.LifeGaps | appband/collector.py:275-295 | the gaps a process life adds are exactly the silences between its session ticks that fire, in order; nothing before its first tick counts |
| Ledgers.CountedIsStoredOrDropped | appband/collector.py:111-125 | for each direction, counted bytes = stored + dropped for want of the other direction + dropped for want of a session |
| Ledgers.InterfaceLedger | appband/collector.py:97-125 | stored + dropped + jumps - losses = movement of the summed counter; stored never exceeds counted |
| Ledgers.ProcessTickLedger | appband/collector.py:136-152 | a process tick stores exactly the counted bytes not dropped, per direction |
| ProcessLedger.HistoryBalances | appband/delta.py:27-49 | over any polls with eviction rounds, per key: counted + jumps - losses + movement while forgotten = last observation - first observation |
| ProcessLedger.WhoCounts | appband/collector.py:131-136 | what a tick counts for one process is what the tracker's ledger counts for its key, repeated rows included |
| ProcessLedger.WhoStoresOrDrops | appband/collector.py:131-152 | what a tick stores for one process is what it counts less what it drops for want of the other direction or of a session |
| ProcessLedger.LifeInsertsProcesses | appband/collector.py:128-154 | the process samples a life inserts are those its fired process ticks store |
| ProcessLedger.ProcessLifeLedger | appband/collector.py:128-154 | the ledger of one (pid, name) over a life of the collector, evictions included: stored + dropped = counted, and counted + jumps - losses + movement while forgotten = how far its counter moved |
| ProcessPolls.ProcessLifeOnRows | appband/collector.py:128-154 | the same ledger on the rows of the polls that ran: it comes to the counter of the process's last row less that of its first |
| Ledgers.RowKeysDiffer | appband/collector.py:132-134 | two processes share a tracker key iff pid and name agree, colons in names notwithstanding |
| Ledgers.LifeIsHistory | appband/collector.py:128-154 | during a process's life its trackers are the history of the process polls that fired, whatever else interleaves |
| Ledgers.LifeTracksRecent | appband/collector.py:153-154 | the collector tracks exactly the keys of its last three fired process polls |
| Ledgers.LifeInserts | appband/collector.py:97-125 | the samples a life inserts are those its fired interface ticks store |
| Ledgers.LifeLedger | appband/collector.py:97-125 | the interface ledger for a whole process life among all other steps |
| Metering.LastReading | appband/collector.py:97-114 | the latest reading of the counters before a time, if there is one; a tick reads them when its throttle fires and its tool prints rows |
| Metering.AnchorIsSince | appband/delta.py:28-32 | the time the tracker measures a new sample from is the last reading before that sample |
| Metering.RunMeasures | appband/collector.py:97-125 | over all runs, restarts and purges included, every stored sample was taken at a reading, covers the time since the last reading before it and is within the rate bound for that time; the tracker's anchors are from the latest reading |
| Metering.SpansAreDisjoint | appband/collector.py:113-125 | the seconds that stored samples cover are disjoint |
| Metering.SamplesFit | appband/delta.py:32-39 | the bytes of any metered samples in a window are at most twice (threshold + 1) for each second of the window and of the first sample's interval |
| Metering.BudgetIsCounted | appband/db.py:387-417 | a budget's bytes are those of the samples in its window on networks in its scope |
| Metering.BudgetRate | appband/db.py:408-417 | end-to-end, for every period and scope: a budget is at most 2 (threshold + 1) (window + time since the last counter reading before the first sample it counts), and nothing if it counts none |
| Grouping.GroupIsSum | appband/db.py:351-363 | one-pass grouping preserves the total of every set of keys, and yields each key once, in order |
| Grouping.GroupRow | appband/db.py:353-360 | a row is in the grouped result iff its key occurs and its amounts are the plain sums for that key |
| Grouping.RollUp | appband/db.py:353-360 | grouping by a coarser key, directly or after grouping by a finer one, gives the same rows |
| Reports.SeriesRow | appband/db.py:351-367 | a time-series row is present iff its bucket has an admitted sample, and shows the plain sums of both directions |
| Reports.SeriesRollUp | appband/db.py:342-368 | minutes grouped by hour are the hour series, and hours grouped by day the day series, for any window and filter, negative times included |
| Reports.BudgetIsSum | appband/db.py:387-417 | a budget's used bytes are the plain sum over window and scope |
| Reports.SeriesTotal | appband/db.py:351-367 | over any window, filter and granularity a series adds up, in each direction, to the plain sums of its samples |
| Reports.SeriesSumsToBudget | appband/db.py:342-417 | every series adds up to the budget of the same window and network |
| Reports.BudgetsPartition | appband/db.py:397-417 | budgets of requests for different networks add up to the budget of all networks less exactly the bytes on networks none of them asks for |
| Reports.BudgetsMeetIff | appband/db.py:397-417 | they never exceed it, and meet it iff every sample with bytes in the window is on a network some request asks for |
| Reports.RequestsForAll | appband/server.py:28-37 | one request for each network present: all different, accepted, and asking for every network that can be asked for |
| Reports.BudgetsCanMeetIff | appband/server.py:166-217 | some requests meet it iff every network with bytes in the window can be asked for: no empty SSID, and no empty link type without SSID |
| Reports.UnaskableNetwork | appband/server.py:166-167 | on a network that cannot be asked for, a byte counts for all networks and for no accepted request |
| Reports.ByNetworkSums | appband/server.py:310-326 | by-network rows add up to scope=all, and those that show one SSID to that SSID's budget |
| Reports.ByNetworkRow | appband/server.py:310-326 | a by-network row is present iff its network has a sample, and shows its plain sums |
| ExactAnswers.AskedIsAdmitted | appband/server.py:28-37 | a session is admitted iff its ssid is the one asked for, else its link type is and it has no ssid, else always |
| ExactAnswers.BucketIff | appband/db.py:342-353 | a time is charged to key k iff k is divisible by 60, 3600 or 86400 and the time lies in [k, k + width); for negative times, where division truncates, in (k - width, k], and bucket 0 reaches both ways |
| ExactAnswers.SeriesAnswer | appband/db.py:331-367 | a row is in the series iff its key starts an interval of the granularity that holds a sample of the window on the network asked for, and it shows the plain sums of those samples; keys ascend |
| ExactAnswers.BudgetAnswer | appband/db.py:387-428 | the window is the last 3600, 86400, 604800 or 2592000 seconds; the bytes are the plain sums of its samples on metered links, the network asked for, or all; over iff a positive cap is reached |
| ExactAnswers.ByNetworkAnswer | appband/server.py:310-326 | one row for each pair of link type and ssid with a sample in the window, with the plain sums of those samples |
| ExactAnswers.ListsAnswer | appband/db.py:316-324 | the gaps that overlap the window, and likewise the sessions (appband/server.py:300-308) |
| Attribution.ChargesAreSamples | appband/server.py:417-425 | the grouped process bytes are plain sums over samples in window and network |
| Attribution.HostsAddUp | appband/server.py:426-446 | before truncation the hosts share exactly the bytes of slots with a host |
| Attribution.ByDomainConserves | appband/server.py:402-455 | un-truncated hosts sum to the process bytes of slots with an in-scope connection; the reported sum is at most that and short by less than a byte a host; never above the exact total |
| Attribution.ScopesAddUp | appband/server.py:355-371 | internet and lan shares complement each other on slots with a classified connection |
| Attribution.ByProcessSplits | appband/server.py:345-380 | a process's internet and lan amounts sum to its bytes in classified slots, hence at most its scope=all row, which is exact |
| Attribution.ByProcessTruncates | appband/server.py:368-374 | a scoped row loses less than a byte per direction; HAVING drops a process iff it has nothing in scope |
| ShareAnswers.SameBucket | appband/server.py:418-428 | two rows share a bucket iff some interval of 300 seconds at a multiple of 300 holds both |
| ShareAnswers.HostAmountOnRows | appband/server.py:435-446 | a host's un-truncated amount is, over the process samples in the window, the sample's bytes divided by the number of distinct hosts in scope beside it, if the host is one of them |
| ShareAnswers.ByDomainHosts | appband/server.py:426-446 | a host has a row iff it is beside some sample of the window: cached name or else address, of the sample's process, in its 300 seconds, in scope |
| ShareAnswers.ByDomainAnswer | appband/server.py:402-455 | the whole report on the tables: its hosts, and each host's amount cut to an integer once in each direction |
| ShareAnswers.HostsShareEqually | appband/server.py:435-442 | of any sample, a host beside it gets what any other beside it gets, and one that is not beside it nothing |
| ShareAnswers.ShareIsFraction | appband/server.py:355-366 | of a sample a scope gets the number of connections beside it with that scope over the number with any |
| ShareAnswers.ScopeAmountOnRows | appband/server.py:363-373 | a process's un-truncated amount in a scope is the sum of those parts of its samples |
| ShareAnswers.ByProcessAnswer | appband/server.py:345-380 | the whole scoped report on the tables: a process has a row iff its two amounts add up to more than zero, and shows them cut to integers |
| ShareAnswers.OneScope | appband/server.py:355-374 | a process whose classified connections are all in one scope shows all its classified bytes there, and has no row in any other |
| ShareAnswers.ByProcessAllAnswer | appband/server.py:331-343 | scope=all has a row for each process with a sample in the window, with the plain sums of those samples |
| Reachable.RunIsClean | appband/collector.py:113-152 | on every run stored interface and process bytes stay non-negative |
| Reachable.RunIsScoped | appband/parsers/lsof.py:17-35 | on every run of parsed connection polls every stored scope is the one its address is classified as |
| Reachable.ReachableBudgets | appband/db.py:397-417 | in every reachable database single-network budgets never exceed scope=all, with the exact condition for meeting it |
| Reachable.NamedBudgetsAddUp | appband/db.py:397-417 | when every polled network has a link type and no empty SSID, budgets that ask for every network present add up exactly to scope=all in every reachable database |
| Reachable.ReachableByDomain | appband/server.py:402-455 | by-domain conservation in every reachable database: un-truncated equality, truncation bound, empty report and exact total, with no assumption on rows |
| Reachable.ReachableByProcess | appband/server.py:345-380 | in every reachable database the shown internet and lan bytes never exceed the exact row |
| Stability.PurgeKeepsWindows | appband/retention.py:16-33 | a purge changes no query whose window starts at or after the cutoff |
| Stability.PurgeKeepsBudgets | appband/db.py:370-417 | with 30 days of retention, in every reachable state a purge changes no budget asked then or later |
| Stability.BudgetsSurviveIff | appband/db.py:13 | budgets survive every purge iff sample retention is at least 30 days, over sound databases and over databases runs reach alike |
| Stability.ShortRunStores | appband/collector.py:97-125 | the run that shows it: start, join a network, read a counter of 0, a second later a counter of 1 |
| Stability.PurgeKeepsReports | appband/retention.py:16-33 | the same for time series, by-network, by-process, gaps and sessions lists |
| Attribution.SameBytesShared | appband/server.py:426-446 | the un-truncated total the hosts share does not depend on cached names |
| Stability.PurgeKeepsAttribution | appband/server.py:402-455 | in every reachable state, after a purge of samples and names the hosts of by-domain share exactly the un-truncated bytes they did before, and the whole report is unchanged if no sighted address loses its name |
| Stability.SettledWindows | appband/collector.py:97-351 | a past window reads the same after any further run within retention; id reuse never moves a stored byte |
| Stability.SettledAttribution | appband/server.py:402-455 | what the hosts of a past by-domain window share before truncation is final, whatever DNS answers and purges follow |
| Stability.SettledBudgets | appband/db.py:370-417 | a closed budget window's answer is final |
| Dns.DnsResolver.Serve | appband/dns_cache.py:60-66 | one queued address: looked up iff due, cached with its time even when it fails |
| Dns.DnsResolver.Drain | appband/dns_cache.py:60-66 | cache and lookups after any queue with purges in between |
| Dns.DueIff | appband/dns_cache.py:27-37 | an address is due iff it is not cached, or failed more than 86400 seconds ago, or was named more than 7776000 seconds ago |
| Dns.LookedUpAgain | appband/dns_cache.py:27-66 | after any queue and purges, an address whose last lookup failed more than a day ago, or named it more than 90 days ago, is looked up again |
| Dns.DrainSpaces | appband/dns_cache.py:27-66 | successive lookups of an address are further apart than the wait its last answer imposes, capped by the retention, from any cache |
| Dns.DueIsSpaced | appband/dns_cache.py:27-37 | a remembered address is due only once its answer's wait is over |
| Dns.PurgesChangeNothing | appband/dns_cache.py:27-37 | with 90 days of retention a run's lookups are those without its purges, and the caches have the same addresses due |
| Dns.PurgesInvisibleIff | appband/dns_cache.py:11-12 | purges never cause a lookup iff the cache is kept at least 90 days |
| Throttling.RunSpacesLookups | appband/dns_cache.py:27-66 | over whole collector runs, lookups of one address are more than 24 hours apart, and more than 90 days after a name |
| Throttling.RunLooksUpOnlyWhatIsDue | appband/retention.py:30 | over whole runs with 90 days of DNS retention no purge causes a lookup |
| Throttling.RunOfLookups | appband/dns_cache.py:60-66 | what a run looks up depends on its queue and fired purges alone |
| Throttling.RunPurgesInvisibleIff | appband/dns_cache.py:11-12 | over all runs from an empty database purges cause no lookup iff the cache is kept at least 90 days; the failing run has four steps |
| Csv.ReadBack | appband/web/util.js:44-54 | a reader of section 2 of RFC 4180 with LF record ends recovers the header and every cell, null as empty |
| Csv.CellReadBack | appband/web/util.js:44-54 | the cell read back at row i and column j is the text of that cell, and empty where it is null or missing |
| Csv.NothingReadBack | appband/web/util.js:46 | no rows give the empty text, whatever the columns |
| Csv.WritesApart | appband/web/util.js:44-54 | equal columns and equal output mean equal cells |
| Csv.ReadBackIff | appband/web/util.js:44-54 | reading back works iff there is a column and no name holds a comma, quote or line feed |
| Nettop.ParseNettop | appband/parsers/nettop.py:32-59 | the loop yields the parsed rows of the lines, in order |
| Nettop.HeadersSkipped | appband/parsers/nettop.py:35-42 | header lines stand for no row, whatever follows |
| Nettop.ShortLinesSkipped | appband/parsers/nettop.py:40-49 | a line stands for a row only if it has three fields, with integers in the second and third, which are its bytes |
| Nettop.NamePidRecovered | appband/parsers/nettop.py:22-29 | the name and pid come back whatever dots the name contains |
| Nettop.RowsRecovered | appband/parsers/nettop.py:32-59 | any list of printed rows with clean names is recovered exactly |
| Nettop.RecoveredIffClean | appband/parsers/nettop.py:32-59 | a printed list of rows comes back iff no name in it has a comma, a line break or leading white space |
| Lsof.ClassifyScope | appband/parsers/lsof.py:17-35 | every address is classified as one of the two scopes |
| Lsof.ScopeOfText | appband/parsers/lsof.py:17-35 | on any text: lan iff it starts with 10., 192.168., 172. and a second field from 16 to 31, or fc or fd in any case |
| Lsof.ExcludedText | appband/parsers/lsof.py:38-45 | on any text: excluded iff it starts with 127., 169.254. or fe80 in any case, or is ::1 |
| Lsof.ScopeIsPrivate | appband/parsers/lsof.py:17-35 | for every 32-bit address, lan iff in a block of section 3 of RFC 1918 |
| Lsof.ExcludedIsLocalOnly | appband/parsers/lsof.py:38-45 | for every 32-bit address, excluded iff in 127/8 (section 3.2.1.3 of RFC 1122) or 169.254/16 (section 2.1 of RFC 3927) |
| Lsof.Ipv4Recovered | appband/parsers/lsof.py:72-79 | every printed "a.b.c.d:port" comes back |
| Lsof.HostPortRecovered | appband/parsers/lsof.py:72-79 | every printed "host:port" comes back |
| Lsof.BracketedRecovered | appband/parsers/lsof.py:62-71 | bracketed addresses come back with their port, without their zone |
| Lsof.BareRecovered | appband/parsers/lsof.py:48-79 | bare addresses with two colons or more come back whole, without a port |
| Lsof.UnreadablePort | appband/parsers/lsof.py:72-79 | with a port that is no integer the host is kept and the port dropped |
| Lsof.BracketsAlone | appband/parsers/lsof.py:62-71 | an address in brackets alone has no port; brackets never closed give nothing |
| Text.ParsePrinted | appband/parsers/nettop.py:46-47 | int() of a printed number is the number |
| BudgetAlerts.NetworkMonitor.CheckBudgetThresholds | mac-app/Sources/AppBand/NetworkMonitor.swift:172-197 | the alert and the stored string after one check |
| BudgetAlerts.DecodeEncoded | mac-app/Sources/AppBand/NetworkMonitor.swift:180-189 | the stored "bucket:threshold" survives its own parse |
| BudgetAlerts.UnreadableIsForgotten | mac-app/Sources/AppBand/NetworkMonitor.swift:181-185 | a stored text without a colon, and no stored text, count as no alert so far |
| BudgetAlerts.AlertsAreNews | mac-app/Sources/AppBand/NetworkMonitor.swift:172-197 | a check alerts iff it crosses a threshold above all its period's bucket has reached, periods interleaved |
| BudgetAlerts.AlertRule | mac-app/Sources/AppBand/NetworkMonitor.swift:172-197 | a check alerts at 100 iff it is at 100 percent or more and no earlier check of its period in its interval of 3600, 86400, 604800 or 2592000 seconds was, and at 80 iff it is at 80 or more, below 100, and no earlier one was at 80 or more |
| BudgetAlerts.AlertsRise | mac-app/Sources/AppBand/NetworkMonitor.swift:186-187 | two alerts in a bucket are 80 then 100 |
| BudgetAlerts.LastAlertIsHighest | mac-app/Sources/AppBand/NetworkMonitor.swift:172-197 | the last alert of a bucket is the highest threshold seen in it |

## Left out

- Ticks that capture `now` and write later, thread interleaving inside a tick, and failures in mid-tick: see the assumptions.
- Relating the summed route counter to real traffic: a returning route counts its old bytes again.
- WAL, VACUUM, checkpoints, pragmas, corruption quarantine, heartbeats and health: library behaviour and single-branch logic.
- Row ids of the sample tables and row id exhaustion: never read by any query modelled here.
- `ORDER BY` by amount and `LIMIT`: ties are unspecified and a cut only drops rows.
- IEEE rounding of shares, and the rounded percentage of a budget: amounts are exact here, and `pct` is an input of the alert check.
- `_by_port`, `_current`, `_health`, HTTP routing, static files, dashboards, installer and configuration loading.
- `parse_lsof_connections`: a connection poll takes its parsed rows as input, with the scope the classifier gives where `Parsed` says so.
- IPv6 scopes: the text tests for fe80, fc and fd are not checks of address ranges, so they are stated on texts only (`ScopeOfText`, `ExcludedText`).
- Text.ParsePrinted: `int()` is modelled on ASCII text; Unicode digits and the limit on very long numerals are not.
- Nettop.NamePidRecovered: `isdigit` is modelled on ASCII digits.
- BudgetAlerts.NetworkMonitor.CheckBudgetThresholds: does not model the overflow of Swift's 64-bit Int or notification delivery; times are whole seconds since the epoch.
- Csv.ReadBack: cells are null or already text; how JavaScript turns a number into text is not modelled.
- Dns.DnsResolver.Drain: runs on a finite prefix of the queue, one lookup at a time as the loop does.
- RunLength.RunGroupsFromEmpty: with a negative retention a purge's cutoff lies in the future, so runs that end after the purge may be older than its cutoff and stay; the dropped runs are then those `PastOf` computes purge by purge.
- Metering.BudgetRate: needs an interface polling interval of at least one second; with an interval of zero two readings may share a second, and then elapsed time does not bound them.
