# Gamewire worker: provider-call admission, resumable jobs, and messaging

This project models the parts of the worker that decide whether a provider call may be made, that
poll fixtures, that resume long jobs after a stop, and that must not lose or repeat a message, and
proves what they keep over every run.

How the model is built:

- **Objects.** Stores, trackers, caches and maps whose fields the worker updates in place are
  classes; each method is proved equal to a specification function of the old state, or states the
  new state outright. Loops over arrays and records are methods with invariants.
- **Protocols.** Where many callers, processes or runs interleave, an `await` ends a step. A step
  machine over the same specification functions takes arbitrary sequences of steps, with
  stores, handlers and publishes failing, replies getting lost and processes dying, and the theorems
  are about every reachable state.
- **Time** is an integer number of milliseconds; the sliding estimate of the minute limiter is kept
  scaled by 60000, so no rounding enters.
- **The outside** (provider, ingest client, Redis, clock) is a parameter: a reply, a fault, a time, or
  a function from the number of a call to its answer.

Files, by component:

| files | component |
|---|---|
| `MinuteLimiter`, `MinuteRuns`, `MinuteGuarantees`, `MinuteProtocol`, `MinuteSpans` | per-minute limiter with priority classes, run by run and under interleaving |
| `Quota`, `QuotaProtocol` | daily quota, alone and under interleaving |
| `ProviderCache`, `CallBudget`, `Singleflight` | TTL cache, its refresh interval, call coalescing |
| `FetchPipeline`, `FetchFlight`, `FetchCounters`, `FetchConservation`, `FetchAlone`, `FetchWorkload`, `FetchSolo` | `fetchWorkload`, among many callers, alone, and the one as the other |
| `TickGuard`, `FixtureRouting`, `FixtureReports`, `FanOut` | the polling loop's guard, routing from what was reported, and fan-out |
| `PageCursor`, `PageCursorRuns`, `PageCursorProgress` | resumable page loop of the enrichment job: one run, many processes, repeated runs |
| `TrophyPacker`, `InjuryDigest` | request packing and the injuries digest |
| `SeasonBackfill`, `SeasonBackfillRuns`, `SeasonBackfillCuts` | season backfill: one run, many, and many cut at any await |
| `AttemptCounter`, `StreamConsumer`, `StreamWithoutClaims` | Redis stream consumer |
| `EmittedStore`, `MatchConcluded` | match-concluded publisher |
| `Common`, `Sums`, `Slips` | shared shapes, sums over ledgers, and counters that callers raise one by one |

Where the code and its comments differ, the code is modelled and the exact statement is proved:

- `src/worker/minute-limiter.ts:18-19` promises about one ceiling C in any 60-second span. Where acquires
  follow each other, a span of d ms holds at most C·(1 + d/60000), and the most 60 seconds can hold, which
  some run reaches, is 2C − ceil(C/60000), so 2C − 1 for any ceiling up to 60000. Where they interleave the
  bound is 2C, reached within one millisecond.
- `src/workflows/season-backfill.ts:449-453` says a fixture over-runs the budget by at most two calls and is
  never left half-imported. A fixture makes five calls, so the over-run is at most four, and four is
  reached; after a hard cap inside a fixture the cursor passes it all the same.
- `src/workflows/season-backfill.ts:441-443` says a crash loses at most one fixture's progress. The pull and the
  cursor write are two awaits: a run cut between them pulls that fixture again, and only that one. There is
  never a gap, and there is a repeat exactly if a run was cut there.
- `src/workflows/season-backfill.ts:422-432` marks a season discovered when the discovery held no finalised
  fixture, or no data at all; exactly then it is complete with nothing pulled.
- `src/workflows/season-backfill.ts:154-157` accepts a budget of one call, with which no run ever stores anything.
- `src/worker/quota.ts:346-352` refunds into the current day, so a reservation refunded after UTC midnight leaves
  the old day one too high; it is undone exactly within one UTC day.
- `src/worker/quota.ts:209-217` compares the caps only when both are given, so one cap alone may leave the soft cap
  above the hard cap.
- `src/worker/ingestion.ts:923-947`: a settled fixture that was swept and is seen again starts a new
  post-final window. It stays out for good exactly if no final sighting follows a sweep made after the window.
- `src/workflows/provider-enrichment.ts:255-256` lets a request name its own start time. Cursors mean what they say
  at every moment of a run exactly if no page is accepted before the start its cursor records.
- `src/worker/match-concluded-publisher.ts:537-588`: a marker can stay behind with nobody publishing, when the
  marker store throws after applying, when building the fact throws, or when the process dies in between; and a
  publish whose reply is lost can put a second copy on the stream. Both are proved exactly.
- `src/worker/minute-limiter.ts:257-270` releases best effort, and `src/worker/quota.ts:305-323` gives a refused
  reservation back in a second store call. If that fails, or the EXPIRE after an increment does
  (`src/worker/quota.ts:145-155`), or an exception leaves the call between its reservation and its request, a count
  stays for nobody. The counters are exactly the calls that reached the provider if and only if no step of the run
  did that.
- `src/worker/redis-stream-consumer.ts:569-571` leaves a failed entry to a future claim sweep. There is none, so such
  an entry stays pending and is not retried; StreamConsumer takes the sweep in as a step, StreamWithoutClaims leaves
  it out.

## Model

| member | source | states |
|---|---|---|
| MinuteLimiter.ValidateMinuteCaps | src/worker/minute-limiter.ts:324-336 | caps are accepted exactly when positive and ordered background <= near-live <= live |
| MinuteLimiter.InMemoryMinuteCounterStore.Sweep | src/worker/minute-limiter.ts:100-107 | drops exactly the expired buckets |
| MinuteLimiter.InMemoryMinuteCounterStore.Increment | src/worker/minute-limiter.ts:79-86 | sweeps, adds to a live bucket or starts one, never below zero, with a new deadline |
| MinuteLimiter.InMemoryMinuteCounterStore.Read | src/worker/minute-limiter.ts:88-94 | an expired or missing bucket reads as zero |
| MinuteLimiter.ProviderMinuteLimiter.TryAcquire | src/worker/minute-limiter.ts:212-255 | header refusal exactly of background calls whose minute has a reading at or below the reserve; increment, test, give back; on a store fault live and near-live pass and background does not; the rest as the specification function says |
| MinuteLimiter.ProviderMinuteLimiter.Release | src/worker/minute-limiter.ts:261-270 | gives back to the bucket the token came from; denied and fail-open results hold none |
| MinuteLimiter.ProviderMinuteLimiter.ObserveProviderMinute | src/worker/minute-limiter.ts:276-282 | keeps the latest header reading with its minute; a response without one changes nothing |
| MinuteLimiter.ReadStable | src/worker/minute-limiter.ts:55-94 | the 120 s TTL keeps a bucket readable through the whole next minute |
| MinuteLimiter.EstimateDecays | src/worker/minute-limiter.ts:230-244 | between acquires the estimate never rises, over none, one or two minute boundaries |
| MinuteLimiter.AcquireDecides | src/worker/minute-limiter.ts:220-244 | a call is admitted exactly if it fits under its class ceiling; a denial leaves every later reading unchanged |
| MinuteLimiter.WhoFailsOpen | src/worker/minute-limiter.ts:229-254 | an answer fails open exactly if a store call threw, the give-back counting only past the ceiling; then live and near-live are let through and background is refused as `store_unavailable` |
| MinuteRuns.MinuteBound | src/worker/minute-limiter.ts:212-270 | in any run an epoch minute holds at most the live ceiling of admitted, kept calls over all classes |
| MinuteRuns.SlidingWindowBound | src/worker/minute-limiter.ts:15-19 | in any run of acquires a span of d <= 60000 ms holds at most C·(1 + d/60000), and 60 s no more than 59999 ms may |
| MinuteGuarantees.SixtySecondsHoldAtMost | src/worker/minute-limiter.ts:15-19 | no run puts more than 2C − ceil(C/60000) calls into 60 seconds |
| MinuteGuarantees.SpanCanHoldAlmostTwoCeilings | src/worker/minute-limiter.ts:15-19 | for every ceiling some run puts exactly that many there, so "about one ceiling" is not a bound |
| MinuteGuarantees.RetryArithmetic | src/worker/minute-limiter.ts:299-318 | the retry formula is the first whole millisecond that fits, in this minute, the next, or after both |
| MinuteGuarantees.RetryIsExact | src/worker/minute-limiter.ts:233-244 | after any run, a class denied by its ceiling is refused until its retry time and admitted at it, with no other traffic |
| MinuteGuarantees.HeaderRefusesIff | src/worker/minute-limiter.ts:220-291 | over any run whose last header reading was r, the header refuses a call exactly if it is a background one, in the minute of that reading, and r is at most the reserve |
| MinuteGuarantees.NoReadingNoRefusal | src/worker/minute-limiter.ts:276-291 | over a run without a reading the header refuses nobody |
| MinuteGuarantees.HeaderRetry | src/worker/minute-limiter.ts:220-228 | after any run, a class denied by the header is refused for the rest of the minute, and then admitted exactly when it fits by the buckets; at its retry time exactly if the minute's bucket is below its ceiling |
| MinuteGuarantees.LiveHeadroom | src/worker/minute-limiter.ts:320-336 | after any run of lower classes, C_live − C_nearlive live calls are admitted whenever they come |
| MinuteProtocol.CeilingsHoldUnderInterleaving | src/worker/minute-limiter.ts:230-244 | however the store operations of concurrent acquires interleave, the tokens of a minute kept by a class and those below it stay within its ceiling |
| MinuteProtocol.QuietBucketIsExact | src/worker/minute-limiter.ts:230-270 | with no acquire mid-step a bucket is exactly the tokens granted and not given back |
| MinuteProtocol.LoneCallerIsAcquire | src/worker/minute-limiter.ts:212-255 | the run of one caller's steps alone is the limiter's acquire |
| MinuteSpans.SpanHoldsTwoCeilings | src/worker/minute-limiter.ts:212-270 | however store operations of concurrent acquires interleave, a span of at most 60 s holds at most two live ceilings, one if it crosses no minute |
| MinuteSpans.TwoCeilingsInAMillisecond | src/worker/minute-limiter.ts:226-244 | for every ceiling some interleaving puts two ceilings into one millisecond, so the bound of uninterrupted acquires fails there |
| Quota.InMemoryQuotaStore.Increment | src/worker/quota.ts:99-103 | adds to the window's count, never below zero, and returns it |
| Quota.ProviderQuotaTracker.Reserve | src/worker/quota.ts:294-339 | increments, tests background cap then hard cap, gives back on refusal; a cost of zero or less is an error |
| Quota.ProviderQuotaTracker.Refund | src/worker/quota.ts:346-353 | takes the cost from the window of the refund |
| Quota.ProviderQuotaTracker.ObserveProviderDaily | src/worker/quota.ts:250-287 | an unusable reading changes nothing; another never lowers the usage of its day, unless to less than half |
| Quota.ReserveDecides | src/worker/quota.ts:294-339 | granted exactly within the caps of the class, else with the cap it passed as the reason, the background cap first; only a grant raises, and only its own window |
| Quota.AcceptedConfigs | src/worker/quota.ts:208-225 | which configurations the constructor's checks and defaults let through, and exactly when an accepted soft cap lies above the hard cap |
| Quota.CachedOnlyFromTheSmallerCap | src/worker/quota.ts:327-339 | cached-only mode is on exactly from the smaller of the soft and the hard cap, the background flag from the background cap; a grant warns exactly between soft and hard cap |
| Quota.RefundAfterMidnight | src/worker/quota.ts:346-353 | a refund undoes its reservation exactly when both fall on one UTC day |
| Quota.HighestReadingWins | src/worker/quota.ts:242-287 | over the readings of a day, in any order, its usage is the highest of them, while none falls below half of one before it |
| Quota.ResetIsAdopted | src/worker/quota.ts:268-285 | a reading below half of the usage becomes the usage |
| QuotaProtocol.CapSafety | src/worker/quota.ts:294-353 | under any interleaving of increment, decide and give back, granted cost stays within the hard cap and its background part within the background cap |
| QuotaProtocol.QuietCounterIsExact | src/worker/quota.ts:294-353 | with nobody mid-step the counter is what was granted and not refunded |
| QuotaProtocol.LoneCallerIsReserve | src/worker/quota.ts:294-339 | the run of one caller's steps alone is the tracker's reserve |
| ProviderCache.InMemoryProviderCache.Get | src/worker/cache.ts:54-66 | an entry is gone at its deadline; a read changes what no reader sees, now or later |
| ProviderCache.InMemoryProviderCache.Set | src/worker/cache.ts:68-79 | a write is seen by readers of its key until its TTL and by no other reader |
| ProviderCache.InMemoryProviderCache.SweepExpired | src/worker/cache.ts:94-106 | drops exactly the expired entries, at most once per interval |
| CallBudget.ClosedFormRefinesPolling | src/worker/call-budget.ts:242-250 | polling the cache every tick calls the provider exactly at multiples of the refresh interval |
| SingleflightMap.Singleflight.Do | src/worker/singleflight.ts:19-34 | joins the promise in flight for the key, or starts one |
| SingleflightMap.Singleflight.Settle | src/worker/singleflight.ts:25-30 | a settling promise clears its own claim and no newer one |
| FetchFlight.OneRequestPerMergeKey | src/worker/ingestion.ts:468-480 | in every interleaving at most one merged call runs per priority class and cache key |
| FetchFlight.FollowersShareTheirOwn | src/worker/singleflight.ts:19-34 | in every interleaving a caller that joined a merged call is answered only with that of a caller of its own class and resource, and only once it is over |
| FetchFlight.OneRequestPerTtl | src/worker/ingestion.ts:438-496 | if all callers of a resource share a class, one request is in flight for it, and two writes of it are at least the first one's TTL apart |
| FetchFlight.RecheckFindsWrite | src/worker/ingestion.ts:462-480 | in every interleaving and whatever the classes, a leader's re-check finds the payload exactly until the latest write's deadline |
| FetchConservation.CallConservation | src/worker/ingestion.ts:498-625 | once all callers are done, the daily counter and each readable minute bucket equal the calls that reached the provider plus the steps that stranded an increment there; a call holds a reservation and a token exactly if it was sent |
| FetchConservation.DailyCountIsExactIff | src/worker/quota.ts:294-353 | the day's counter is exactly the attempts if and only if no increment landed and threw, no give-back or refund threw without landing, and no call that had reserved was cut off before its request |
| FetchConservation.MinuteCountIsExactIff | src/worker/minute-limiter.ts:230-270 | a readable bucket is exactly the attempts of its minute if and only if no such step stranded a token there |
| FetchConservation.AttemptsWithinCaps | src/worker/ingestion.ts:498-625 | at every moment, store operations interleaving and throwing anyhow, attempts stay within the hard cap, the background cap, and per minute each class ceiling |
| FetchAlone.AloneIsAcquire | src/worker/minute-limiter.ts:212-255 | uninterrupted, the store steps of one caller's `tryAcquire` are the limiter's acquire, under any fault |
| FetchAlone.AloneIsReserve | src/worker/quota.ts:294-339 | uninterrupted, those of its `reserve` are the tracker's reserve |
| FetchAlone.SleepsForTheNamedTime | src/worker/ingestion.ts:691-721 | however callers and store faults interleave, only a first refusal of a near-live or background caller puts it to sleep: for the rest of the minute it asked in if the header or the fail policy refused it, for the retry time of the counts it read, at most a minute, if its ceiling did |
| FetchAlone.WakesInTime | src/worker/ingestion.ts:719-720 | a sleeper leaves its sleep once that time has come, to ask a second time, or by an exception |
| FetchAlone.ThrowingStoreFailsOpen | src/worker/minute-limiter.ts:245-254 | wherever the limiter store throws among interleaved callers, live and near-live go on without a token and background does not |
| FetchWorkload.TwoAsks | src/worker/ingestion.ts:699-721 | a live caller takes the first answer; any other refused one asks again exactly the named time later, or else the rest of the minute, clamped to between nothing and a minute |
| FetchWorkload.SecondAskIsAdmittedIff | src/worker/ingestion.ts:705-721 | after any run, alone and with a working store, a caller refused by its ceiling is admitted on its second ask exactly if it was named at most a minute |
| FetchSolo.SoloCallIsFetchWorkload | src/worker/ingestion.ts:430-670 | from any state of the protocol in which nobody holds its key, one caller's own steps and the clock end its call as `fetchWorkload` alone does: same outcome and time, same limiter, day counter, cache and claims, under any limiter fault and any reply |
| FetchSolo.ThrownCallEnds | src/worker/singleflight.ts:23-34 | an exception ends a call as rejected and frees its key; what it had counted stays for nobody exactly if its request had not been sent |
| FetchWorkload.ApiFootballIngestionLoop.AcquireMinute | src/worker/ingestion.ts:691-721 | live takes the first answer; other refused classes ask again at exactly now plus the named time, or else the rest of the minute, at most a minute; refused by the ceiling with a working store, they are then admitted exactly if a minute was enough |
| FetchWorkload.ApiFootballIngestionLoop.Throttle | src/worker/ingestion.ts:723-780 | a throttled caller is given the last good payload exactly if it is live and there is one |
| FetchWorkload.ApiFootballIngestionLoop.Attempt | src/worker/ingestion.ts:506-625 | denied exactly when the quota refuses; denied and skipped calls give token and reservation back |
| FetchWorkload.ApiFootballIngestionLoop.FetchWorkload | src/worker/ingestion.ts:430-670 | on every path of one call: how it ends, with what data, at exactly what time after which wait, what it costs the day and the minute, and what every later cache reader finds |
| TickGuard.RefreshGuard.RunRefresh | src/worker/ingestion.ts:854-882 | a tick is skipped while a younger claim is held, else it starts a run, dropping an overdue claim |
| TickGuard.RefreshGuard.Settle | src/worker/ingestion.ts:883-887 | a settle clears the claim only if it is its own |
| TickGuard.OneRunPerWorkload | src/worker/ingestion.ts:849-916 | in any order of ticks, hangs and settles a workload has at most one run holding its claim |
| TickGuard.TickDisplacesExactlyOverdue | src/worker/ingestion.ts:854-882 | a tick displaces exactly the runs whose deadline has passed |
| TickGuard.SettleClearsOnlyItsOwn | src/worker/ingestion.ts:883-887 | a displaced run's settle leaves the newer claim |
| TickGuard.NeverBlockedLong | src/worker/ingestion.ts:838-882 | in any run from boot, from any tick on, each further tick finds the workload's last start less than deadline plus interval behind it, whatever hangs |
| TickGuard.DeadlineIs | src/worker/ingestion.ts:348-358 | a given deadline holds; without one it is four intervals, at least two and at most fifteen minutes |
| TickGuard.HungRunIsReplaced | src/worker/ingestion.ts:854-882 | a run that hangs keeps its workload until its deadline, and the tick at the deadline replaces it |
| FixtureRouting.FixtureTracker.UpsertFixtures | src/worker/ingestion.ts:923-956 | tracks the reported ids, trimmed and blanks left out, keeps the old status and kickoff where a record has none, stamps the first final sighting |
| FixtureRouting.FixtureTracker.IdsInPhase | src/worker/ingestion.ts:961-971 | the tracked ids that belong to a wanted phase by status, kickoff and time, in tracking order |
| FixtureRouting.FixtureTracker.PruneSettledFixtures | src/worker/ingestion.ts:981-1002 | drops exactly the tracked fixtures that are settled by status, kickoff and time, with their lifecycle |
| FixtureRouting.BootTrackerOk | src/worker/ingestion.ts:1656-1665 | the boot ids are tracked once each, trimmed, in order and without blanks |
| FixtureRouting.SweepLeavesLiveSet | src/worker/ingestion.ts:981-1002 | after a sweep the lifecycle keys are tracked ids and no tracked fixture is settled |
| FixtureRouting.RoutingIsAPartition | src/worker/ingestion.ts:958-971 | each tracked fixture is routed to exactly one phase |
| FixtureRouting.PhaseIs | src/worker/ingestion.ts:1358-1437 | in play is live; final is post-final for 25 minutes from its first sighting; no-play is settled; anything else is upcoming, pre-kickoff from 90 and live from 5 minutes before its kickoff, and settled from 210 minutes after |
| FixtureRouting.FirstFinalSighting | src/worker/ingestion.ts:931-944 | the first final status starts the post-final window |
| FixtureRouting.PostFinalWindowIsFixed | src/worker/ingestion.ts:931-944 | a fixture that stays final leaves the window 25 minutes after its first final sighting, however often it is seen again, unless seen after a sweep made later than that |
| FixtureRouting.RetrackingRestartsIff | src/worker/ingestion.ts:923-1002 | a final fixture seen again after its window is post-final again exactly if the sweep before came after the window too |
| FixtureRouting.PostFinalForGoodIff | src/worker/ingestion.ts:923-1002 | over any run of upserts and sweeps, a fixture is post-final again after its window if and only if a final sighting follows a sweep made after it |
| FixtureRouting.PhaseOnlyAdvances | src/worker/ingestion.ts:1408-1437 | a known fixture belongs to exactly one phase at a time, and while its record stays the phase only moves forward |
| FixtureReports.InPlayIsPolledLive | src/worker/ingestion.ts:923-1002 | over any upserts and sweeps, a fixture last reported in play is in the live list, in no other, and survives every sweep |
| FixtureReports.NoPlayLeavesAtTheNextSweep | src/worker/ingestion.ts:1364-1419 | one last reported as not to be played is polled by nobody and leaves at the next sweep |
| FixtureReports.ScheduledFollowsTheClock | src/worker/ingestion.ts:923-1002 | over any upserts and sweeps, one last reported with another status and a kickoff is upcoming, pre-kickoff and live at exactly the times of its kickoff, and swept after 210 minutes and no earlier |
| FixtureReports.UndatedStaysUpcoming | src/worker/ingestion.ts:1422-1437 | without a kickoff it stays upcoming and is never swept |
| FanOut.FanOutIsExact | src/worker/ingestion.ts:1609-1635 | in every interleaving each index is claimed once, at most `limit` run together, and on return each defined item has run once, thrown or not |
| FanOut.FanOutProgresses | src/worker/ingestion.ts:1609-1635 | until it returns some worker can move, and every move brings the end nearer |
| FanOut.FanOutCompletes | src/worker/ingestion.ts:1609-1635 | from any moment of any run the call can return with each item run once; it starts as many workers as limit or items allow, one at least, and none without items |
| PageCursor.AttemptPage | src/workflows/provider-enrichment.ts:467-510 | the retry loop computes the specification function |
| PageCursor.AttemptsAre | src/workflows/provider-enrichment.ts:467-510 | up to three attempts, all but the last refused, never past the call limit, each counted if it reached the provider |
| PageCursor.TakePage | src/workflows/provider-enrichment.ts:462-620 | one page: accepted exactly if its last attempt fetched one that was ingested, without errors on no rows and not empty before the last total named; failed exactly if that attempt was let through and fetched nothing or such a page |
| PageCursor.TakenIs | src/workflows/provider-enrichment.ts:462-620 | the same of the specification function, with the attempts and calls counted, and the third failure in a row as an abort |
| PageCursor.FetchTarget | src/workflows/provider-enrichment.ts:438-656 | the page loop ends and computes the specification function; every page it accepts was ingested and fit to be taken |
| PageCursor.LoopKeeps | src/workflows/provider-enrichment.ts:438-656 | accepted pages follow the cursor without a gap; exactly the cursors after them are stored; the calls counted are those made, within the limit; complete exactly with a completed cursor |
| PageCursor.AcceptedPagesAreSound | src/workflows/provider-enrichment.ts:560-609 | however a visit goes, no page it accepts names errors with no rows or is empty before the last total named by then, and each was ingested by one of its own attempts |
| PageCursor.LoopStops | src/workflows/provider-enrichment.ts:454-656 | a visit aborts the run exactly at the third failed page in a row, or when it ends unfinished on a reply with an abort posture; any other unfinished end stops it as incomplete; a completed league-season stops nothing |
| PageCursor.VisitReports | src/workflows/provider-enrichment.ts:385-666 | how a league-season is reported: not started, in progress, fresh, complete, partial or failed, and when a stored cursor is resumed |
| PageCursor.CompleteIffTotalReached | src/workflows/provider-enrichment.ts:568-629 | a league-season is completed exactly when the last total named is 0 or has been reached |
| PageCursor.RunTargets | src/workflows/provider-enrichment.ts:385-690 | the run over all league-seasons computes the specification function |
| PageCursor.RunKeeps | src/workflows/provider-enrichment.ts:385-690 | calls within the limit, held and unnamed cursors untouched, no resumable one set back, none reported done without a completed cursor, and none unfinished but by a stop or a failure |
| PageCursor.StoredPagesAreSound | src/workflows/provider-enrichment.ts:385-690 | over a whole run each stored cursor is the one before it, or the one after a series of such pages from where it stood |
| PageCursorRuns.StoredCursorIsEarned | src/workflows/provider-enrichment.ts:401-673 | over any runs stopping or crashing anywhere, pages 1 to k−1 of a stored cursor were ingested since its start, none with errors on no rows, none empty before the last total named by then; they name its total, and a completed one is 0 or below k, if no page was accepted before its cursor's start |
| PageCursorRuns.OnlySoundPagesAreIngested | src/workflows/provider-enrichment.ts:560-597 | over any runs no faulty page is ever ingested, and a page fetched goes on to ingest exactly if it is not faulty |
| PageCursorRuns.FitPageGoesThrough | src/workflows/provider-enrichment.ts:560-640 | a page that is not faulty and is taken by the ingest client counts as ingested, and the cursor after it is stored |
| PageCursorRuns.OneVisitPerProcess | src/workflows/provider-enrichment.ts:401-423 | a process never has two visits of a league-season open, and its hold ends with the visit, whatever threw |
| PageCursorRuns.IngestCountsIffStarted | src/workflows/provider-enrichment.ts:595-632 | an accepted page counts as ingested since its cursor's start exactly if that start has come |
| PageCursorRuns.EarnedIffTimely | src/workflows/provider-enrichment.ts:401-673 | over any run, every cursor means what it says at every moment if and only if no page is accepted before the start its cursor records |
| PageCursorRuns.HonestRunsAreTimely | src/workflows/provider-enrichment.ts:255-256 | which holds of every run whose visits do not start in the future |
| PageCursorRuns.HonestRunsEarn | src/workflows/provider-enrichment.ts:401-673 | so from an empty store the cursors of such runs mean what they say at every moment |
| PageCursorRuns.AFutureStartOverstates | src/workflows/provider-enrichment.ts:255-256 | a run in which it fails: a request with a start in the future |
| PageCursorProgress.RepeatedRunsFinish | src/workflows/provider-enrichment.ts:385-690 | after as many runs as pages were missing, each with one good first reply and a call to make, within one window, every league-season's cursor is completed, whatever else each run met |
| PageCursorProgress.FinishesIffACall | src/workflows/provider-enrichment.ts:385-690 | from nothing stored, 250 runs for each league-season are enough exactly if a run may make a call |
| TrophyPacker.UniqueTrophies | src/workflows/provider-enrichment-units.ts:863-872 | keeps the first trophy of each identity, in order |
| TrophyPacker.KeepBest | src/workflows/provider-enrichment-units.ts:873-886 | all distinct trophies if they fit, else the winner quota and the rest |
| TrophyPacker.TrimTrophies | src/workflows/provider-enrichment-units.ts:862-889 | a subject within the limit is untouched |
| TrophyPacker.UniqueIsDistinct | src/workflows/provider-enrichment-units.ts:863-872 | of trophies with the same four fields, white space around them aside, one is kept; where no field holds the separator, each trophy has one with its fields among the kept |
| TrophyPacker.TrimKeepsTheBest | src/workflows/provider-enrichment-units.ts:839-889 | a trimmed subject is an in-order subsequence of its distinct trophies, as many as fit, and a place other than "winner", in any case, survives only beside every winner |
| TrophyPacker.PlaceRow | src/workflows/provider-enrichment-units.ts:890-903 | closes the open request if the row does not fit, then adds the row |
| TrophyPacker.PackTrophyRows | src/workflows/provider-enrichment-units.ts:849-909 | requests concatenate to the trimmed rows with correct starts, each within both limits, and kept plus trimmed trophies are the input's |
| TrophyPacker.NeighboursCannotMerge | src/workflows/provider-enrichment-units.ts:890-898 | no two neighbouring requests could have been one |
| TrophyPacker.RowAtItsPlace | src/workflows/provider-enrichment-units.ts:890-908 | each subject is in one request, whole, at the place its start index says |
| InjuryDigest.MergeInjuryDigest | src/workflows/provider-enrichment-units.ts:429-450 | the two merge loops compute the specification function |
| InjuryDigest.MergeKeepsLatest | src/workflows/provider-enrichment-units.ts:429-450 | a merge keeps each player's latest time within the lookback and nothing else |
| InjuryDigest.RecordPull | src/workflows/provider-enrichment-units.ts:634-640 | a pull stores the merge of what the cache still held |
| InjuryDigest.SidelinedScopeFromDigests | src/workflows/provider-enrichment-units.ts:408-426 | the scope is the players listed within the lookback in any target's digest |
| InjuryDigest.ScopeIsHistory | src/workflows/provider-enrichment-units.ts:408-450 | for every history of pulls, a player is listed exactly if a pull the digest has not outlived saw the player within the lookback |
| InjuryDigest.AllAliveIffPulledOften | src/workflows/provider-enrichment-units.ts:408-450 | every pull of a league is still in its digest exactly when no gap between its pulls, or before the query, reaches the TTL |
| InjuryDigest.OftenPulledScopeIsFullHistory | src/workflows/provider-enrichment-units.ts:408-450 | with gaps below the digest TTL the scope is the full history's |
| InjuryDigest.ADayAheadIsNeverLost | src/workflows/provider-enrichment-units.ts:130-133 | with kickoffs less than a day ahead of their pull the scope is the full history's, whatever the gaps |
| InjuryDigest.ALongerLeadCanBeLost | src/workflows/provider-enrichment-units.ts:130-133 | a kickoff exactly a day ahead can be forgotten while still within the lookback |
| SeasonBackfill.FinalisedFixtureIds | src/workflows/season-backfill.ts:765-795 | the extraction loop computes the specification function; no data gives no ids |
| SeasonBackfill.FinalisedIdsAre | src/workflows/season-backfill.ts:759-795 | the trimmed ids of the items whose status is FT, AET, PEN, WO or AWD in any case, blanks left out, once each |
| SeasonBackfill.ProcessFixture | src/workflows/season-backfill.ts:513-570 | five calls, none after a hard cap |
| SeasonBackfill.BackfillTarget | src/workflows/season-backfill.ts:272-489 | standings once, discovery once, then the fixture walk under the budget, with the cursor stored after each |
| SeasonBackfill.TargetMoves | src/workflows/season-backfill.ts:441-476 | in one run a league-season's cursor moves on by exactly the fixtures pulled, in order, within the budget plus four calls |
| SeasonBackfill.WalkCount | src/workflows/season-backfill.ts:445-476 | without a hard cap the number of fixtures pulled is exactly the budget left in fives, rounded up, or all left, each in full |
| SeasonBackfill.FourOverIsReached | src/workflows/season-backfill.ts:449-453 | the over-run of four calls is reached |
| SeasonBackfill.AbortCutsTheLastFixture | src/workflows/season-backfill.ts:464-475 | only an abort leaves a fixture short of calls, only the last one, and the cursor passes it |
| SeasonBackfill.AllCallsIff | src/workflows/season-backfill.ts:513-570 | a fixture gets all its calls exactly if none but the last meets a hard cap |
| SeasonBackfill.NoneAfterAHardCap | src/workflows/season-backfill.ts:272-489 | whatever is stored, no call is made after one that met a hard cap, and a league-season aborts exactly if one did |
| SeasonBackfill.ModeIsTheWorst | src/workflows/season-backfill.ts:286-313 | the mode after any calls is the most restrictive one asked for by a posture or an outage fallback |
| SeasonBackfill.DiscoveredIsEmptyIff | src/workflows/season-backfill.ts:765-795 | a reply gives no ids exactly if it holds no finalised fixture |
| SeasonBackfill.NothingPulledIffNothingDiscovered | src/workflows/season-backfill.ts:422-432 | a first run that gets through its discovery leaves a complete season with nothing pulled exactly if the reply gave no ids |
| SeasonBackfillRuns.MaxCalls | src/workflows/season-backfill.ts:154-157 | a missing or non-positive budget becomes the default |
| SeasonBackfillRuns.SeasonBackfillWorkflow | src/workflows/season-backfill.ts:147-252 | one budget over all league-seasons; the rest are left after an abort or when it is spent |
| SeasonBackfillRuns.RunBudget | src/workflows/season-backfill.ts:174-221 | a whole run makes at most four calls more than its budget |
| SeasonBackfillRuns.StatusIs | src/workflows/season-backfill.ts:177-228 | a run is reported aborted exactly if one of its calls met a hard cap, else complete exactly if every league-season asked for is complete in the store |
| SeasonBackfillRuns.HistoryIsThePrefix | src/workflows/season-backfill.ts:434-476 | over any runs that return, without a reset and with cursors that stay in the cache, what was pulled is exactly the discovered list before the cursor, in order, no gap and no repeat |
| SeasonBackfillRuns.CompleteWithNothingPulledIff | src/workflows/season-backfill.ts:375-476 | over those runs a season is complete with nothing pulled exactly if the reply to its one discovery call held no finalised fixture |
| SeasonBackfillRuns.ListIsOneReply | src/workflows/season-backfill.ts:375-440 | over those runs exactly one makes a discovery call for a stored season; the stored list is what the reply to it held, and stays that |
| SeasonBackfillRuns.RepeatedRunsComplete | src/workflows/season-backfill.ts:177-228 | with two calls or more, live cursors and no hard cap, some run reports complete, with every discovered fixture pulled once |
| SeasonBackfillRuns.CompletesIffTwoCalls | src/workflows/season-backfill.ts:154-228 | from nothing stored, the runs complete exactly if the budget is at least two calls |
| SeasonBackfillCuts.RunEffectsAre | src/workflows/season-backfill.ts:441-476 | the pulls and cursor writes of a run, in their order, are those of the run that returns |
| SeasonBackfillCuts.CutRunMoves | src/workflows/season-backfill.ts:465-475 | a run cut at any await moves the cursor without a gap and begins at most one pull more, of the fixture at the cursor |
| SeasonBackfillCuts.CutRunsLeaveNoGap | src/workflows/season-backfill.ts:441-476 | over any runs, cut anywhere or not, there is no gap, and each fixture was pulled once and once more for every cut between its pull and its stored cursor |
| SeasonBackfillCuts.NoRepeatIffNeverCutBetween | src/workflows/season-backfill.ts:465-475 | there is no repeat if and only if no run was cut between a pull and its stored cursor |
| SeasonBackfillCuts.CompletesAfterCuts | src/workflows/season-backfill.ts:441-476 | whatever was cut before, later runs complete every league-season |
| AttemptCounter.InMemoryAttemptCounter.Increment | src/worker/redis-stream-consumer.ts:186-197 | one more for the key, which is never the one dropped; no other count grows, and none changes without an eviction |
| AttemptCounter.InMemoryAttemptCounter.Reset | src/worker/redis-stream-consumer.ts:199-201 | the key's count is zero, every other stays |
| StreamConsumer.RedisStreamConsumer.HandleEntry | src/worker/redis-stream-consumer.ts:490-572 | the counts and commands of one entry, by its own outcome, its attempt and the id it counts under: the fact id, else the event id, else one made of the stream id |
| StreamConsumer.NothingIsLost | src/worker/redis-stream-consumer.ts:445-647 | in every run each delivered entry is pending, or handled, or on the dead-letter stream |
| StreamConsumer.AckedOnlyWhenSettled | src/worker/redis-stream-consumer.ts:546-647 | an entry leaves the pending list only after its handler succeeded or its copy was written |
| StreamConsumer.AttemptsAreFailuresInARow | src/worker/redis-stream-consumer.ts:178-206 | the count of an id is the failures in a row, in that process, of the entries it identifies, plus the run in progress, which carries that count; eviction only loses; at rest it is below the retry limit while dead-lettering works |
| StreamConsumer.FactsAreCountedApart | src/worker/redis-stream-consumer.ts:520-524 | all entries of a fact share its count, whatever their stream and event ids, and no entry of another fact moves it, unless one without a fact id goes by it |
| StreamConsumer.FewKeysAreCountedExactly | src/worker/redis-stream-consumer.ts:173-206 | with no more keys than the bound nothing is evicted, and no key fails that often without being dead-lettered |
| StreamConsumer.DeadLettersAreDue | src/worker/redis-stream-consumer.ts:490-631 | a dead letter carries the id its entry counts under and is malformed as it says, or entries of that id failed at least the retry limit in a row in that process |
| StreamConsumer.FactLettersAreDue | src/worker/redis-stream-consumer.ts:520-571 | an entry with a fact id is dead-lettered only once its own fact failed at least the retry limit in a row, however many others failed, and under that id |
| StreamConsumer.FailingEntryIsDeadLettered | src/worker/redis-stream-consumer.ts:490-631 | an entry whose handler keeps failing, and that is handed back each time, is dead-lettered and acknowledged after exactly the failed runs its id has left, one at least |
| StreamConsumer.HandledEntryIsAcknowledged | src/worker/redis-stream-consumer.ts:546-552 | an entry whose handler succeeds is acknowledged, and its id counts from nothing again |
| StreamConsumer.LettersAreWrites | src/worker/redis-stream-consumer.ts:574-631 | in every run the letters of an entry are the writes that succeeded and those that landed although they threw |
| StreamWithoutClaims.FailedEntryIsStuck | src/worker/redis-stream-consumer.ts:564-571 | without a claim sweep, an entry whose handler failed below the retry limit stays pending, unhandled and without a dead letter, however the run goes on |
| StreamWithoutClaims.NobodyComesBack | src/worker/redis-stream-consumer.ts:445-487 | without a claim sweep, the fate of an entry nobody has in hand never changes |
| EmittedStore.InMemoryEmittedFixtureStore.HasEmitted | src/worker/match-concluded-publisher.ts:249-251 | true exactly while the marker is there |
| EmittedStore.InMemoryEmittedFixtureStore.MarkEmitted | src/worker/match-concluded-publisher.ts:253-266 | true for exactly the caller that puts the marker there; nothing else is lost unless the store is full |
| EmittedStore.InMemoryEmittedFixtureStore.ClearEmitted | src/worker/match-concluded-publisher.ts:268-270 | removes that marker only |
| EmittedStore.EvictionReopens | src/worker/match-concluded-publisher.ts:258-265 | a full store forgets its oldest fixture |
| EmittedStore.KeysCollideOnlyAcrossColons | src/worker/match-concluded-publisher.ts:280-282 | two different fixtures have one key exactly if a part ending in a colon moves from one provider's name to the other's id |
| MatchConcluded.CaseNeverMatters | src/worker/match-concluded-publisher.ts:134-148 | strings that differ in ASCII case only are classified alike |
| MatchConcluded.ClassifiedBy | src/worker/match-concluded-publisher.ts:114-148 | trimmed and in any case, FT, AET and PEN conclude with a result, PST, ABD, AWD and WO void, and nothing else concludes |
| MatchConcluded.OnlyConcludedIsPublished | src/worker/match-concluded-publisher.ts:530-536 | in any run a fixture never observed with a concluding status has no marker and no copy on the stream |
| MatchConcluded.CallsEnd | src/worker/match-concluded-publisher.ts:530-602 | a call only moves forward, so it publishes at most once and is over after at most three steps |
| MatchConcluded.MatchConcludedPublisher.Observe | src/worker/match-concluded-publisher.ts:530-602 | one call alone: outcome with the published classification, stream, marker and counter on each path |
| MatchConcluded.EmitOnce | src/worker/match-concluded-publisher.ts:530-602 | over any interleaving and failures, at most one publish of a fixture succeeds, and one acknowledged copy is on the stream |
| MatchConcluded.MarkerHasItsOwner | src/worker/redis-emitted-fixture-store.ts:103-117 | the marker is there exactly while one call publishes, rolls back, has published or got stuck |
| MatchConcluded.CopiesAreSuccessAndLostReplies | src/worker/match-concluded-publisher.ts:569-600 | in every run the copies of a fixture on the stream are its one success, if any, and one per lost reply; at most one if none is lost |
| MatchConcluded.AnotherCopyIff | src/worker/match-concluded-publisher.ts:537-600 | after any run a further copy can still appear exactly while no call has published the fixture or got stuck with its marker |
| MatchConcluded.MarkerLeftBehindIff | src/worker/match-concluded-publisher.ts:537-600 | a marker stands with nobody publishing, rolling back or having published exactly if some step stranded it, and with no copy on the stream exactly if also no reply was lost |
| MatchConcluded.MarkerMeansInFlightOrDone | src/worker/match-concluded-publisher.ts:530-602 | if no step stranded it, the marker is there exactly while a publish is in flight or has succeeded |
| MatchConcluded.CanPublishIffUnowned | src/worker/match-concluded-publisher.ts:537-600 | a terminal observation can publish exactly while no call owns the marker, so also after a rolled-back failure |
| MatchConcluded.LostReplyDuplicates | src/worker/match-concluded-publisher.ts:569-600 | a run in which a lost reply leaves two copies |

## Left out

- Floating-point rounding in the minute estimate and the retry time: both are computed over integers scaled by 60000.
- MinuteRuns.SlidingWindowBound: is about acquires that follow each other; what holds however they interleave, and that this bound then fails, is MinuteSpans.SpanHoldsTwoCeilings and MinuteSpans.TwoCeilingsInAMillisecond.
- MinuteProtocol.CeilingsHoldUnderInterleaving: the bucket does not expire in between and its store does not throw; the same of MinuteSpans.
- MinuteSpans.SpanHoldsTwoCeilings: a call's time is the one its acquire read from the clock; when the request leaves is later and not bounded.
- FetchFlight.OneRequestPerTtl: requires one class per resource, because the merge key holds the class; callers of different classes fetch separately by design.
- FetchConservation.CallConservation: holds within one UTC day, with the day of a reservation read when its increment lands; a call cut off with its request under way counts as not sent.
- FetchConservation.AttemptsWithinCaps: per minute, leaves out tokens whose increment came after their bucket could be read.
- FetchWorkload.ApiFootballIngestionLoop.FetchWorkload: the quota snapshot in results, response headers and hooks are left out; the short TTL of empty lineups is part of the reply's TTL; a give-back that throws inside the limiter is excluded.
- InjuryDigest.RecordPull: the merge time and the cache's clock are one time; in the worker the cache's is a little later.
- InjuryDigest.SidelinedScopeFromDigests: returns the set; the worker sorts it.
- TrophyPacker.UniqueIsDistinct: two trophies whose fields hold the separator character may share an identity without sharing their fields.
- PageCursor.FetchTarget: waits between attempts, logs, row counts and degrade flags are left out.
- PageCursorRuns.StoredCursorIsEarned: rows of a page are ingested in several requests, which are one step here; PageCursorRuns.EarnedIffTimely gives its condition in both directions.
- PageCursorProgress.RepeatedRunsFinish: one run works at a time, cursors stay in the store, and no page names more than 250 pages.
- FixtureReports.ScheduledFollowsTheClock: nothing is reported of the fixture after a sweep has dropped it; a later report tracks it anew.
- SeasonBackfill.TargetMoves: budgets are whole numbers of calls; used-call counts, error texts and flags are left out.
- SeasonBackfillRuns.RepeatedRunsComplete: assumes cursors outlive the gaps between runs (7 days) and that one run works at a time; the same of SeasonBackfillCuts.
- StreamConsumer.FactsAreCountedApart: an entry without a fact id counts with the fact whose id is its event id, as in the worker; the statement leaves such entries out.
- MatchConcluded.EmitOnce: markers neither expire nor are evicted; EmittedStore.EvictionReopens shows what eviction does.
- MatchConcluded.CaseNeverMatters: upper-casing is modelled for ASCII letters; a few other letters and ligatures upper-case to ASCII.
- SeasonBackfill.FinalisedIdsAre: folds the case of ASCII letters only; the same of trophy places.
- AttemptCounter.InMemoryAttemptCounter.Increment: counts live in one process and end with it, as in the worker.
- The unit datasets' run loop, sidelined planning and team partitions: the same guards as the page loop over other units.
- HTTP routing, request parsing, configuration, provider requests and decoding, protobuf construction, asset and media jobs, the match-concluded bridge.
- Redis command encoding and clients: atomic counters, sets and streams here.
- Logging and metrics, except the counters named above.
- Catalogue data and the other call-budget lines: fixed tables.
