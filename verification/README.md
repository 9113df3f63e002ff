# LeadGuard in Dafny

This project models the stateful cores of LeadGuard, a website auditing and monitoring service,
and proves what they keep over whole runs. `dafny verify dfyconfig.toml` checks it.

A core that changes rows or keys step by step is modelled twice. A state machine describes every
interleaving of its steps: each conditional update, each transaction and each command to Redis or
to a queue is one atomic step; where commands may fail, one that reports an error may have had its
effect all the same; and a process that crashes is one that takes no further step. A class holds the same state
in fields and has the program's own methods, each proved to be a run of the machine. The pure
pipeline of scores and rankings consists of functions, with the program's loops proved against
them.

| file | models |
|---|---|
| `CrawlerModel`, `CrawlerSafety`, `CrawlerBfs`, `CrawlerBudget`, `CrawlerRace`, `CrawlerCounts`, `Crawler` | the bounded concurrent crawler |
| `Findings`, `ScoreRules`, `Scoring`, `Aggregation`, `Ranking` | scores, deduplication and ranking of findings |
| `Regression`, `BaselineProtocol` | comparison with a baseline, and the versioned baseline under concurrent jobs |
| `Slots`, `SlotScheduler` | claiming a monitoring slot, and its runs |
| `Alerts` | monitoring alerts and the failure streak |
| `Vault`, `VaultOverlap`, `VaultScan`, `VaultScore` | the lifecycle of security findings |
| `AuditClaim`, `AuditWorker` | claiming, cancelling and finalising an audit |
| `Outbox`, `OutboxDispatch`, `Webhook` | the transactional outbox and webhook delivery |
| `SlidingWindow`, `FixedWindow`, `ApiKeyLimits` | the two rate limiters |
| `Options`, `Commands`, `FiniteSets`, `Times` | optional values, answers of commands, counting, and ordered histories |

## Where code and documentation part

The model follows the code. In these places the code does not do what its comments or documents
say, and the project states exactly when it does:

- `apps/worker/src/webhook/outboxReplay.ts:18-22` and `docs/CLAUDE_ENGINEERING.md:98` promise
  eventual delivery. The replay marks an event failed on its first error and takes up pending
  events only, so such an event is abandoned (`Outbox.FailedEventsAreAbandoned`,
  `Outbox.OneReplayErrorLosesTheEvent`).
- `apps/worker/src/monitoring/alertEngine.ts:124` says that recovery resolves outage alerts. The
  unique key of fingerprint and status makes the second resolution of the same alert throw; the
  alert stays open and every later run fails, until someone acknowledges it
  (`Alerts.UpClosesOutageUnlessJammed`, `Alerts.JamHappens`, `Alerts.JamLastsUntilAcknowledged`,
  `Alerts.JammedRunsFail`).
- The failure streak is incremented once more by a run that is down and throws after it has written
  its own count, and so an outage alert may open early (`Alerts.CountIsExact`,
  `Alerts.OutageOpensEarlyIff`, `Alerts.DoubleCountingAlertsEarly`).
- `apps/worker/src/monitoring/scheduler.ts:62-65` promises that no lock is orphaned. The SET stands
  outside the try: if it takes effect and still reports an error, the key blocks its slot for ten
  minutes, and the cycle ends. A release that throws leaves the key as well
  (`Slots.OrphanedKeysIff`, `Slots.OrphansHappen`, `Slots.OrphanedKeysBlock`).
- The guard of `apps/worker/src/webhook/webhookWorker.ts:55-58` is to rule out a second real
  delivery. The catch of an attempt whose success was accepted, but whose write reports an error,
  stores a retry, and the next attempt sends again (`Webhook.AcceptedAtMostOnceIff`).
- Monitoring jobs have three attempts (`apps/worker/src/monitoring/scheduler.ts:11`), but a retried
  slot finds the failed run and is skipped (`Slots.FailedSlotsAreNotRetried`).
- `apps/worker/src/audit/vaultRunner.ts:293-295` and `apps/worker/src/audit/vaultScan.ts:294-306`
  describe the lifecycle of a finding as if scans and triage never overlapped. A retest that has
  read a row overwrites an ignore made since (`VaultOverlap.IgnoredRowLeaves`). Two clean retests
  are two executions: a stalled run that is picked up again counts twice.
- `apps/worker/src/audit/orchestrator.ts:35-39` relies on executions that end within timeout and
  grace. The timer is cleared after the crawl, before the sitemap pages, the rendering and the
  finalisation, so an execution may be overtaken: `AuditClaim.OneExecutionIff` says exactly when,
  and `AuditClaim.LateExecutionIsJoined` that it happens.

## Model

| member | source | states |
|---|---|---|
| `CrawlerSafety.CrawlIsSafe` | apps/worker/src/audit/crawler.ts:84-112 | In every interleaving: stored pages and fetches in flight never exceed the page budget, active workers never the worker limit, queued URLs never three times the budget; waiting and active URLs are disjoint parts of the queued ones; every stored page but the start hangs one level below a stored parent and within the depth limit; a spent budget leaves no fetch in flight. |
| `CrawlerSafety.NoUrlIsFetchedTwice` | apps/worker/src/audit/crawler.ts:164-171 | In every interleaving each URL is dispatched to a fetch at most once. |
| `CrawlerSafety.CrawlIsBounded` | apps/worker/src/audit/crawler.ts:84-182 | Every crawl, aborted or not, ends within 12 events per page of the budget, plus one. |
| `CrawlerSafety.StuckMeansDone` | apps/worker/src/audit/crawler.ts:66-110 | A crawl in which no worker can move any more has resolved: it never hangs with work left. |
| `CrawlerCounts.FailuresAreCounted` | apps/worker/src/audit/crawler.ts:173-181 | In every interleaving, aborted or not, the failure count is the number of fetches and callbacks that failed. |
| `CrawlerCounts.FailuresAreBrokenPages` | apps/worker/src/audit/crawler.ts:117-181 | While a crawl follows a site, it is the number of allowed addresses taken off the queue whose fetch has come back unanswered. |
| `CrawlerCounts.LinksAreQueued` | apps/worker/src/audit/crawler.ts:163-172 | A page adds nothing at the depth limit or with a spent budget; else all its links are queued unless the cap is met, and nothing but its links. |
| `CrawlerCounts.AbortedCrawlWindsDown` | apps/worker/src/audit/crawler.ts:66-88 | From an abort on no fetch starts, nothing is taken off the queue, and the next worker that settles resolves the crawl. |
| `CrawlerBfs.CrawlIsSound` | apps/worker/src/audit/crawler.ts:117-182 | With any number of workers, every stored page is allowed, was fetched, and lies on a walk of exactly its recorded depth from the start. |
| `CrawlerBfs.CrawlIsBreadthFirst` | apps/worker/src/audit/crawler.ts:84-182 | With one worker, or any number and a depth limit of at most two, a crawl that reached neither cap stores exactly the pages within the depth limit, each at its shortest distance. |
| `CrawlerBudget.SmallCrawlIsBreadthFirst` | apps/worker/src/audit/crawler.ts:84-182 | The same with any number of workers and any depth limit, if the budget is at most five pages or the robots rule allows fewer than five addresses: a page recorded too deep needs five stored pages. |
| `CrawlerRace.SlowFetchMisplacesAPage` | apps/worker/src/audit/crawler.ts:84-182 | With two workers or more, a depth limit of three or more and a budget of six or more, a crawl of a site of five pages ends with a page recorded at depth three that is two links from the start. |
| `CrawlerRace.SlowFetchMissesAPage` | apps/worker/src/audit/crawler.ts:84-182 | With two workers or more, a depth limit of three or more and a budget with room for it, a crawl of some longer site even ends, with nothing failing and neither cap reached, without a page as near as the depth limit allows. |
| `CrawlerRace.BreadthFirstIff` | apps/worker/src/audit/crawler.ts:84-182 | So, for every configuration: all crawls of all sites that reach neither cap are breadth-first exactly with one worker, a depth limit of at most two, a budget of at most five pages, or fewer than five allowed addresses. |
| `Crawler.Clamp` | apps/worker/src/audit/crawler.ts:39-41 | An option given within its range is kept, one below it is raised to the lower end, one above it lowered to the upper. |
| `Crawler.BoundedCrawler.constructor` | apps/worker/src/audit/crawler.ts:37-48 | Worker limit, page budget and depth limit are the allowed values nearest to the given or default ones, and the crawler is empty. |
| `Crawler.BoundedCrawler.Crawl` | apps/worker/src/audit/crawler.ts:50-61 | Queues the start URL, dispatches, and establishes the invariant. |
| `Crawler.BoundedCrawler.RunDispatch` | apps/worker/src/audit/crawler.ts:84-110 | The dispatch loop and the finish test are the machine's dispatch step and keep the invariant. |
| `Crawler.BoundedCrawler.RunDispatchOne` | apps/worker/src/audit/crawler.ts:95-107 | Takes the oldest item and starts its worker, which skips aborted, stored, too deep and disallowed items. |
| `Crawler.BoundedCrawler.RunCheckFinished` | apps/worker/src/audit/crawler.ts:66-82 | Resolves exactly on a spent budget, an empty queue without workers, or an abort. |
| `Crawler.BoundedCrawler.OnFetched` | apps/worker/src/audit/crawler.ts:145-154 | A fetched page is stored under its URL while its worker stays counted. |
| `Crawler.BoundedCrawler.OnPageProcessed` | apps/worker/src/audit/crawler.ts:156-172 | Links of a page above the depth limit join the queue; at the limit, or with a spent budget, the queue stays as it is. |
| `Crawler.BoundedCrawler.RunDiscover` | apps/worker/src/audit/crawler.ts:165-171 | Only URLs never queued before are queued, in order, up to three times the page budget. |
| `Crawler.BoundedCrawler.OnError` | apps/worker/src/audit/crawler.ts:173-181 | A failed fetch or callback is counted once and leaves what was stored. |
| `Crawler.BoundedCrawler.OnSettled` | apps/worker/src/audit/crawler.ts:100-103 | A settled worker leaves the count and the next dispatch runs. |
| `ScoreRules.TableFacts` | packages/shared/src/scoring.ts:11-482 | Every table rule has a non-negative impact within its cap, and advertising rules cost four, once. |
| `ScoreRules.RuleIsFound` | packages/shared/src/scoring.ts:486-490 | A finding's rule is the one its key names, else one of its rule identifier and category, else there is none. |
| `ScoreRules.GroupsAreTold` | packages/shared/src/scoring.ts:500-501 | Findings without a rule are one group if they share the internal key or, without keys, the rule identifier. |
| `Scoring.GroupFindings` | packages/shared/src/scoring.ts:495-505 | Groups hold exactly the findings of their key in order, with rule and category of the first. |
| `Scoring.Deduct` | packages/shared/src/scoring.ts:507-546 | Each pillar loses the sum of its groups' penalties. |
| `Scoring.CalculateScores` | packages/shared/src/scoring.ts:548-600 | Pillars and overall score of both scoring versions, within 0 and 100 and weighed alike; no finding, a hundred everywhere. |
| `Scoring.LegacyAppend` | packages/shared/src/scoring.ts:573-587 | In the first version a finding takes its impact from its own pillar and nothing from the others. |
| `Scoring.OverallIsBetween` | packages/shared/src/scoring.ts:562 | The weighted overall score lies between the weakest and the strongest pillar. |
| `Scoring.OverallIsNearest` | packages/shared/src/scoring.ts:562 | The overall score is 35, 25, 20 and 20 per cent of the pillars to the nearest point, half a point up. |
| `Scoring.UnruledPenalty` | packages/shared/src/scoring.ts:514-531 | A group without a rule costs its impact once if it concerns the website, else once for one address and twice for more. |
| `Scoring.UnplacedPenalty` | packages/shared/src/scoring.ts:516-531 | Findings without an address, or with an empty one, are counted themselves. |
| `Scoring.RuledPenalty` | packages/shared/src/scoring.ts:514-531 | A group with a rule costs the rule's impact once, or for every address up to the rule's limit, whichever is less. |
| `Scoring.PenaltyAppend` | packages/shared/src/scoring.ts:514-531 | A further finding makes its group cheaper exactly if it brings the first URL to a group that was counted by its size and is charged by count. |
| `Scoring.AppendRaisesPillar` | packages/shared/src/scoring.ts:492-555 | A further finding raises a pillar exactly in that case, and only while the pillar is not held at zero. |
| `Scoring.MoreFindingsScoreNoBetter` | packages/shared/src/scoring.ts:492-562 | If no group mixes findings with and without URL, a further finding raises neither a pillar nor the overall score. |
| `Scoring.ScoresHaveFloors` | packages/shared/src/scoring.ts:11-562 | However many table findings there are, advertising stays at 88 or more and overall at 22 or more. |
| `Aggregation.DeduplicateFindings` | apps/worker/src/audit/aggregation.ts:449-468 | The loop keeps the first finding of every composed key, in order. |
| `Aggregation.DeduplicatedKeys` | apps/worker/src/audit/aggregation.ts:449-468 | No key is lost and none stays twice. |
| `Aggregation.DeduplicationIsIdempotent` | apps/worker/src/audit/aggregation.ts:449-468 | Deduplicating twice changes nothing. |
| `Aggregation.SameDedupeKey` | apps/worker/src/audit/aggregation.ts:454-459 | Composed strings without further separators are equal exactly if rule, scope and issue are and, on pages, the URL. |
| `Findings.IssuesAreTold` | apps/worker/src/audit/aggregation.ts:454 | One issue are findings with the same issue key, or else internal key, or else title. |
| `Aggregation.DeduplicationIsNeutral` | apps/worker/src/audit/aggregation.ts:449-468 | Under the scanners' conventions deduplication changes no score, so audit and monitoring agree. |
| `Ranking.CountFrequency` | packages/shared/src/priority.ts:26-31 | The map counts every issue key's findings. |
| `Ranking.ScoreFindings` | packages/shared/src/priority.ts:33-44 | Every finding gets the priority of its severity, category, impact, scope and frequency. |
| `Ranking.KeepDistinct` | packages/shared/src/priority.ts:59-68 | Keeps the first finding of every key of the sorted list. |
| `Ranking.RankFindings` | packages/shared/src/priority.ts:23-71 | The result runs from the most urgent down, names no issue twice, and holds for every finding one of its issue that is at least as urgent. |
| `Ranking.EarlierIsMoreUrgent` | packages/shared/src/priority.ts:46-57 | In numbers: what stands earlier has the higher priority, or at equal priority the higher impact, or at equal impact the lower rule, or under one rule the lower title. |
| `Ranking.NoneMoreUrgentIsDropped` | packages/shared/src/priority.ts:59-70 | Every finding is represented by one of its issue with a priority no lower than its own. |
| `Ranking.UrgencyGrows` | packages/shared/src/priority.ts:33-44 | Priority grows with severity, impact, scope, category, and up to the seventh occurrence with frequency, by the points stated. |
| `Ranking.IssuesAreTold` | packages/shared/src/priority.ts:26-31 | What counts as one issue, and as its repetition. |
| `Ranking.SortSorts` | packages/shared/src/priority.ts:46-57 | The four-level comparison sorts to an ordered permutation. |
| `Ranking.RankingIsSortedAndCovers` | packages/shared/src/priority.ts:23-71 | The ranking is ordered, has distinct keys, and covers every input finding by one of its key that ranks no lower. |
| `Ranking.RankingIsUnordered` | packages/shared/src/priority.ts:23-71 | Every permutation of the findings gives the same sequence of ranks, and of titles up to spellings that compare as equal. |
| `Ranking.RankingIsFixedIff` | packages/shared/src/priority.ts:23-71 | Every permutation gives the same titles exactly if no two findings that are best of their issues tie in all four levels with different titles, and the same findings exactly if no two different ones tie so. |
| `Ranking.SpellingKeepsInputOrder` | packages/shared/src/priority.ts:46-57 | They may tie so: two findings that differ only in the spelling of their titles keep the order of the input. |
| `Regression.ClassifyFindings` | apps/worker/src/monitoring/regressionEngine.ts:80-107 | Row by row the page's findings: persisting if the issue was there before, else regressed if critical or high, else new; with the counters. |
| `Regression.DetectResolved` | apps/worker/src/monitoring/regressionEngine.ts:109-127 | One informational row of the page for every previous key that is gone, and no other. |
| `Regression.Evaluate` | apps/worker/src/monitoring/regressionEngine.ts:37-181 | Every finding of every page has its row with the change it deserves, each change is reported as often as deserved, the deltas lead from the previous to the current scores, and the new baseline holds each page's issues and scores. |
| `Regression.PreviousKeysAre` | apps/worker/src/monitoring/regressionEngine.ts:46-77 | A page is compared with the baseline's last page under its URL or, if there is none, under the URL it ended up at. |
| `Regression.IssuesAreTold` | apps/worker/src/monitoring/regressionEngine.ts:71-81 | One issue are findings with the same non-empty key or, without keys, of one rule. |
| `Regression.KeysAreConserved` | apps/worker/src/monitoring/regressionEngine.ts:73-127 | Per page: current keys are the previous ones without the resolved, plus the new, and resolved rows match resolved keys one to one. |
| `Regression.RowsAccountForFindings` | apps/worker/src/monitoring/regressionEngine.ts:80-127 | New, regressed and persisting rows add up to the findings; nothing is new or resolved exactly if every page is as before. |
| `Regression.SecondLookIsQuiet` | apps/worker/src/monitoring/regressionEngine.ts:46-168 | Against the baseline just produced the deltas are zero, and nothing is new or resolved exactly if pages that share a URL show the same keys. |
| `Regression.DistinctUrlsAreConsistent` | apps/worker/src/monitoring/regressionEngine.ts:46-52 | Pages with distinct URLs meet that condition. |
| `BaselineProtocol.AcceptedWritesFormAChain` | apps/worker/src/monitoring/processor.ts:118-211 | Under every interleaving and however stale the expected versions: the version counts the accepted writes, and each was evaluated against exactly the baseline it replaced. |
| `BaselineProtocol.JobIsAcceptedIff` | apps/worker/src/monitoring/processor.ts:180-211 | Over any run between a job's beginning and end: its write is accepted exactly if the site was up, the job expected the version in force when it began, and no other write was accepted meanwhile; it writes its own pages. |
| `BaselineProtocol.ReportedDeltasAddUp` | apps/worker/src/monitoring/regressionEngine.ts:139-155 | The score deltas that runs with an accepted write report add up to the latest minus the first scores, less the deltas of runs that threw after their write; so to all of it exactly if those add up to zero. |
| `BaselineProtocol.ConfigRow.UpdateWhere` | apps/worker/src/monitoring/processor.ts:183-197 | The compare-and-set writes all columns or none. |
| `BaselineProtocol.ConfigRow.Update` | apps/worker/src/monitoring/processor.ts:201-210 | The fallback leaves version and baseline alone and still clears the lock. |
| `BaselineProtocol.ConfigRow.FinishJob` | apps/worker/src/monitoring/processor.ts:180-224 | A job's end moves version and baseline as the protocol's step does: exactly if the site was up and the version is the expected one. |
| `Alerts.AlertTable.EnsureAlert` | apps/worker/src/monitoring/alertEngine.ts:97-121 | An alert is opened unless it is open or acknowledged. |
| `Alerts.AlertTable.ResolveAlerts` | apps/worker/src/monitoring/alertEngine.ts:125-135 | All open rows are resolved, or, if that repeats a unique key, none and the statement throws. |
| `Alerts.AlertTable.ProcessAlerts` | apps/worker/src/monitoring/alertEngine.ts:87-314 | One run's statements in order, up to the first that throws, or up to an error of the database before or after any of them; a run that does not throw opens and closes what its report gives reasons for. |
| `Alerts.RunOpensAlerts` | apps/worker/src/monitoring/alertEngine.ts:87-314 | After a run that does not throw exactly those alerts are open that were and that nothing in the report closes, and those not acknowledged that the report gives a reason for: an outage at the threshold, an invalid or expiring certificate, a slow answer, a critical or high issue that no later row resolves. |
| `Alerts.ReasonsAreLive` | apps/worker/src/monitoring/alertEngine.ts:138-314 | An alert with a reason is open or acknowledged. |
| `Alerts.ExecuteEvolves` | apps/worker/src/monitoring/alertEngine.ts:87-314 | However far a run comes with its statements, acknowledged and resolved rows stay, a row whose alert was resolved before stays open, and no acknowledged alert is opened. |
| `Alerts.CountIsExact` | apps/worker/src/monitoring/processor.ts:125-131 | Over every history of runs and acknowledgements the failure count is the number of failed runs since it was last zero, and one more for each of them that was down and threw after its update. |
| `Alerts.CountedRunsAreAStreak` | apps/worker/src/monitoring/processor.ts:125-131 | The runs counted are a streak: every run since the first of them failed. |
| `Alerts.OutageOpensIff` | apps/worker/src/monitoring/alertEngine.ts:87-122 | A run opens an outage alert exactly if it reaches the alerts, found the site down, no outage is acknowledged, and the counted failures with this one make up the threshold. |
| `Alerts.OutageOpensEarlyIff` | apps/worker/src/monitoring/alertEngine.ts:87-122 | It opens before as many runs in a row have failed as the threshold says exactly if the streak falls short of the threshold and the counted failures do not; never, if no run counted twice. |
| `Alerts.DoubleCountingAlertsEarly` | apps/worker/src/monitoring/processor.ts:254-275 | A run that is down and throws after its update counts twice: two failures reach a threshold of three. |
| `Alerts.RunMovesOutage` | apps/worker/src/monitoring/alertEngine.ts:87-136 | After any run the outage alert is open exactly if the run raised it, or it was open and the run did not find the site up, did not reach the alerts, or met a jam. |
| `Alerts.UpClosesOutageUnlessJammed` | apps/worker/src/monitoring/alertEngine.ts:123-136 | After a run that found the site up the outage alert is open exactly if it was open and the run broke off before its first alert statement, or the alert had been resolved before: then the unique key makes that statement, and the run, throw. |
| `Alerts.OutageIsHistory` | apps/worker/src/monitoring/alertEngine.ts:87-136 | Over every history the outage alert is open exactly if some run raised it and no event since closed or acknowledged it. |
| `Alerts.SecondOutageJams` | packages/database/prisma/schema.prisma:697-720 | An outage raised while an earlier one is on record as resolved jams the table. |
| `Alerts.JamHappens` | apps/worker/src/monitoring/alertEngine.ts:87-136 | Outage, recovery, outage: three runs from an empty table are enough. |
| `Alerts.JamLastsUntilAcknowledged` | apps/worker/src/monitoring/alertEngine.ts:123-136 | A jam lasts through every history exactly until one of its two rows is acknowledged. |
| `Alerts.JammedRunsFail` | apps/worker/src/monitoring/processor.ts:254-279 | Meanwhile every run fails, whether the site is up or down, and the failure count grows. |
| `Alerts.StepKeepsOneLive` | apps/api/src/services/monitoringService.ts:337-355 | A run never leaves an alert open and acknowledged; an acknowledgement does exactly if it is of a closed row of an open alert. |
| `Alerts.OneLiveIff` | apps/worker/src/monitoring/alertEngine.ts:97-105 | Over every history no alert is ever open and acknowledged at once, exactly if every acknowledgement is of an open row or of an alert without one. |
| `Alerts.OpenAcknowledgementsSuffice` | apps/api/src/services/monitoringService.ts:337-355 | In particular if only open alerts are acknowledged. |
| `Alerts.AcknowledgedIsSilent` | apps/worker/src/monitoring/alertEngine.ts:97-121 | An acknowledged alert stays so and is never opened again by any runs and acknowledgements. |
| `Slots.ClaimsAreExclusive` | apps/worker/src/monitoring/scheduler.ts:66-118 | However many schedulers interleave: two calls that hold one configuration and slot acquired its key 600 seconds apart, so a claim is the only one while its key lives. |
| `Slots.RefusedCallsLeaveNoKey` | apps/worker/src/monitoring/scheduler.ts:97-117 | A call that ended without a claim has left no key with its token, unless setting or releasing it met an error. |
| `Slots.OrphanedKeysIff` | apps/worker/src/monitoring/scheduler.ts:62-117 | Over every run, while a key set by an ended call could live: it is still there exactly if the call's SET took effect and threw, or its release threw without effect. |
| `Slots.OrphansHappen` | apps/worker/src/monitoring/scheduler.ts:44-79 | Both happen: one event, or three, from an empty store leave a living key that no call will release. |
| `Slots.OrphanedKeysBlock` | apps/worker/src/monitoring/scheduler.ts:76-79 | A key left behind so blocks its slot, through every run, for the rest of its 600 seconds. |
| `Slots.LivingKeysAreSafe` | apps/worker/src/monitoring/scheduler.ts:18-24 | Nothing removes or replaces a living key but the release of the call that set it. |
| `Slots.RowClaimsAreApart` | apps/worker/src/monitoring/scheduler.ts:83-95 | Over every run a call claims a row locked before only after that lock's 600 seconds, or after some step has cleared it. |
| `Slots.RowLockHoldsUntilCleared` | apps/worker/src/monitoring/processor.ts:188-223 | An unexpired row lock is dropped exactly by a step that clears it without comparing its token. |
| `Slots.SlotsOverlap` | apps/worker/src/monitoring/processor.ts:180-224 | So two slots of one configuration can be claimed at the same moment: the end of an old run clears the lock of a new claim. |
| `Slots.OneRunPerSlot` | apps/worker/src/monitoring/processor.ts:50-80 | With retries, duplicate deliveries and lost answers interleaved, a configuration and slot get at most one run, at most one health check, and no check without a run. |
| `Slots.UncheckedRunHappens` | apps/worker/src/monitoring/processor.ts:70-85 | The check may be missing: creating the run can take effect and report an error. |
| `Slots.FailedSlotsAreNotRetried` | apps/worker/src/monitoring/processor.ts:51-68 | A slot that has a run is never checked again, also if that run failed or was never checked. |
| `SlotScheduler.Scheduler.SetIfAbsent` | apps/worker/src/monitoring/scheduler.ts:76-79 | Sets the key for 600 seconds exactly if none lives, or throws, with or without effect. |
| `SlotScheduler.Scheduler.ReleaseRedisLock` | apps/worker/src/monitoring/scheduler.ts:44-60 | Deletes the key exactly if it carries the caller's token; an error is reported as not released. |
| `SlotScheduler.Scheduler.ClaimConfig` | apps/worker/src/monitoring/scheduler.ts:83-95 | The conditional update of the row, and its error. |
| `SlotScheduler.Scheduler.ClaimMonitorSlot` | apps/worker/src/monitoring/scheduler.ts:66-118 | Claims exactly if key and row are free and the row is enabled; otherwise the key is released again. A SET that throws makes the claim throw, and nobody releases the key. |
| `SlotScheduler.Scheduler.ClaimOrRelease` | apps/worker/src/monitoring/scheduler.ts:81-117 | Inside the try, the row is claimed or the key is given back. |
| `SlotScheduler.Scheduler.AddJob` | apps/worker/src/monitoring/scheduler.ts:146-157 | Adds the slot's job under its own identifier. |
| `SlotScheduler.Scheduler.ResetClaim` | apps/worker/src/monitoring/scheduler.ts:181-193 | Clears the row's lock, whoever holds it. |
| `SlotScheduler.Scheduler.EnqueueMonitor` | apps/worker/src/monitoring/scheduler.ts:140-197 | A call either has its job in the queue or has come to its end without a claim, by return or by throwing. |
| `SlotScheduler.Scheduler.EnqueueDueMonitors` | apps/worker/src/monitoring/scheduler.ts:120-215 | A cycle counts exactly the calls that enqueued and settles every configuration up to its end, which is the first SET that throws; all of it is a run of the protocol. |
| `Vault.StatusIsHistory` | apps/worker/src/audit/vaultScan.ts:131-161 | Over every history of scans, retests and triage a row that is not ignored is open after a detection, triaged after a triage, with no clean retest since; fixed after exactly one clean retest; verified after two or more. |
| `Vault.IgnoredIsHistory` | apps/api/src/routes.ts:1956-1979 | A row is ignored exactly if someone ignored it and nobody triaged it since. |
| `Vault.RowsAreReported` | apps/worker/src/audit/vaultRunner.ts:296-299 | The rows are exactly those that some scan reported. |
| `Vault.RowsAreTold` | apps/worker/src/audit/vaultRunner.ts:264-275 | Findings are one row if they are of one issue and have the same internal key, or none. |
| `Vault.ApplyAt` | apps/worker/src/audit/vaultRunner.ts:301-310 | One scan or change, seen from one row: creation, reopening, closing, or nothing. |
| `VaultOverlap.IgnoredRowLeaves` | apps/worker/src/audit/vaultScan.ts:138-160 | When scans overlap, an ignored row is taken out of that state exactly by a triage or by a retest that read it before it was ignored. |
| `VaultOverlap.IgnoredStays` | apps/worker/src/audit/vaultScan.ts:138-160 | A row ignored while no retest stands between its read and its writes stays ignored until it is triaged, in every interleaving. |
| `VaultOverlap.IgnoredIsSafeIff` | apps/worker/src/audit/vaultScan.ts:138-160 | That is the exact condition: if some retest has read the row, some run without a triage takes it out of the ignored state. |
| `VaultOverlap.OverlapUnignores` | apps/worker/src/audit/vaultScan.ts:147-151 | In that gap the retest overwrites the decision: the ignored row becomes fixed. |
| `VaultScan.ClassifyRetestTransitions` | apps/worker/src/audit/vaultScan.ts:307-316 | Splits the rows not detected into those to fix and those to verify, each once. |
| `VaultScan.MovedRows` | apps/worker/src/audit/vaultScan.ts:147-160 | The rows a retest writes are exactly those whose status changes. |
| `VaultScan.FindingTable.UpsertVaultFindings` | apps/worker/src/audit/vaultRunner.ts:261-313 | Inserts missing rows, reopens detected ones, and leaves ignored ones. |
| `VaultScan.FindingTable.FindLive` | apps/worker/src/audit/vaultScan.ts:138-144 | Finds every open, triaged and fixed row, once. |
| `VaultScan.FindingTable.Retest` | apps/worker/src/audit/vaultScan.ts:134-161 | The retest block, with its two counters. |
| `VaultScan.FindingTable.ProcessScan` | apps/worker/src/audit/vaultScan.ts:118-161 | A scan by itself is the whole step of the lifecycle. |
| `VaultScore.ComputeVaultScore` | apps/worker/src/audit/vaultScan.ts:318-326 | A hundred less the worst impact of every issue, held between 0 and 100. |
| `VaultScore.OnlyTheWorstCounts` | apps/worker/src/audit/vaultScan.ts:319-324 | A further finding costs exactly what it adds to the worst finding of its issue. |
| `VaultScore.ScoreInPoints` | apps/worker/src/audit/vaultScan.ts:318-326 | In points: a hundred without findings; a finding takes off as many points as its impact exceeds the worst of its issue, or all that are left. |
| `VaultScore.WorstIsWorst` | apps/worker/src/audit/vaultScan.ts:319-323 | The worst impact of an issue is reached by one of its findings and exceeded by none. |
| `VaultScore.MoreFindingsScoreNoBetter` | apps/worker/src/audit/vaultScan.ts:318-326 | More findings never score better, and the score stays between 0 and 100. |
| `AuditClaim.CancelledIsFinal` | apps/worker/src/audit/finalizer.ts:18-30 | After a cancellation no run of events changes the status, the findings or the scores. |
| `AuditClaim.WhoMayClaim` | apps/worker/src/audit/orchestrator.ts:53-93 | Over every run: a queued, completed, partial or failed audit may be claimed at any time and a cancelled one never; a running one exactly if the last accepted claim is more than timeout and grace old. |
| `AuditClaim.ClaimsAreOnTheBooks` | apps/worker/src/audit/orchestrator.ts:95-123 | An attempt recorded AUDIT_STARTED once if its claim was accepted and never otherwise; a rejected attempt that lived to close its run has it cancelled. |
| `AuditClaim.OneExecutionIff` | apps/worker/src/audit/orchestrator.ts:80-93 | Over every run, an audit never has two executions at once exactly if no claim is made, uncancelled, beside an execution past timeout and grace. |
| `AuditClaim.OneExecutionAtATime` | apps/worker/src/audit/orchestrator.ts:80-93 | In particular if every execution ends within timeout and grace of its claim. |
| `AuditClaim.ClaimBesideAnExecution` | apps/worker/src/audit/orchestrator.ts:80-93 | In every state reached without such a claim, a claim beside a live execution is accepted exactly if that execution is past timeout and grace and the audit is not cancelled; then both execute. |
| `AuditClaim.LateExecutionIsJoined` | apps/worker/src/audit/orchestrator.ts:80-93 | That happens: for every timeout a run of five events has two executions of one audit. |
| `AuditClaim.CrashedAuditsAreReclaimed` | apps/worker/src/audit/orchestrator.ts:64-93 | From every reachable state that is not cancelled, an attempt that waits out timeout and grace is accepted. |
| `AuditWorker.AuditRow.Start` | apps/worker/src/audit/orchestrator.ts:53-109 | Creating the run row, claiming, and closing the row of a rejected claim are the protocol's steps; who is accepted is said status by status. |
| `AuditWorker.AuditRow.FinalizeAudit` | apps/worker/src/audit/finalizer.ts:7-102 | Respects a cancellation, or replaces findings, scores and status together. |
| `AuditWorker.AuditRow.Finish` | apps/worker/src/audit/orchestrator.ts:384-414 | Failed exactly without a page, partial exactly with a failed page or past the deadline, else completed; written unless cancelled. |
| `AuditWorker.AuditRow.CancelAudit` | apps/api/src/routes.ts:1656-1663 | Cancels a queued or running audit and no other, and keeps its results. |
| `Outbox.DispatchIsConfluent` | apps/worker/src/webhook/vaultWebhookEmitter.ts:118-172 | After any mix of partial dispatches, crashes and replays by the three dispatchers: only matching endpoints have jobs, a published event has all of its jobs, and no job is new to the queue twice unless the queue dropped it in between. |
| `Outbox.ReplayCompletes` | apps/worker/src/webhook/outboxReplay.ts:37-73 | Whatever earlier dispatches left over, one replay without errors completes a pending event. |
| `Outbox.FailedEventsAreAbandoned` | apps/worker/src/webhook/outboxReplay.ts:28-35 | An event marked failed that no dispatcher works on stays failed, and no job of it is ever enqueued again. |
| `Outbox.OneReplayErrorLosesTheEvent` | apps/worker/src/webhook/outboxReplay.ts:74-79 | A crash of the first dispatcher and one queue error in the replay lose an event without any job. |
| `OutboxDispatch.Store.AddJob` | apps/worker/src/webhook/outboxReplay.ts:52-66 | A job the queue knows by its identifier is not added again. |
| `OutboxDispatch.Store.SetPublished` | apps/worker/src/webhook/outboxReplay.ts:69-72 | The status is written whatever it was. |
| `OutboxDispatch.Store.DispatchEvent` | apps/api/src/services/outboxService.ts:64-118 | Leaves a published event alone; otherwise publishes after all jobs, or throws on the first error. |
| `OutboxDispatch.Store.DispatchOutboxEvent` | apps/worker/src/webhook/vaultWebhookEmitter.ts:118-172 | Goes on after an error, enqueues what it can, and publishes exactly if nothing failed. |
| `OutboxDispatch.Store.EnqueueAll` | apps/worker/src/webhook/outboxReplay.ts:48-67 | The replay's loop enqueues every endpoint's job, up to the first error. |
| `OutboxDispatch.Store.ReplayEvent` | apps/worker/src/webhook/outboxReplay.ts:38-79 | Publishes after all jobs, or marks the event failed after any error. |
| `OutboxDispatch.Store.ReplayPendingOutboxEvents` | apps/worker/src/webhook/outboxReplay.ts:23-83 | Every event found pending ends published or failed, and the counter counts the published ones. |
| `Webhook.ProcessWebhookDelivery` | apps/worker/src/webhook/webhookWorker.ts:43-240 | The deduplication guard, the redirect loop, the settling writes and the catch give the outcome of the definition. |
| `Webhook.AttemptFacts` | apps/worker/src/webhook/webhookWorker.ts:55-146 | An attempt sends at most four requests, none after a success, and returns only with success or failure. |
| `Webhook.CodesSettle` | apps/worker/src/webhook/webhookWorker.ts:120-240 | An answer from 200 to 299 is a success, one from 400 to 499 except 429 a failure at once, and any other is retried until the attempts are used up. |
| `Webhook.RedirectsAreFollowed` | apps/worker/src/webhook/webhookWorker.ts:79-140 | The five redirect codes with a location are followed by one more request, up to three times. |
| `Webhook.BlockedIsNotCalled` | apps/worker/src/webhook/webhookWorker.ts:86-110 | An address that must not be called fails the delivery without a request. |
| `Webhook.JobSendsFew` | apps/worker/src/webhook/webhookWorker.ts:76-146 | A job of five attempts sends at most twenty requests. |
| `Webhook.LastAttemptDecides` | apps/worker/src/webhook/webhookWorker.ts:178-236 | The last attempt leaves success or failure exactly if one of its writes took effect, or the delivery was decided before. |
| `Webhook.FinishedJobsAreDecided` | apps/worker/src/webhook/webhookWorker.ts:178-236 | A finished job's delivery is a success or a failure exactly if one of its attempts decided it and no later one wrote over that, or it was decided before and no attempt wrote; a write may take effect and report an error. |
| `Webhook.LostWriteLeavesRetrying` | apps/worker/src/webhook/webhookWorker.ts:210-236 | One lost write at the very end leaves the delivery to be retried forever. |
| `Webhook.SuccessIsFinal` | apps/worker/src/webhook/webhookWorker.ts:55-62 | After a recorded success no attempt of any job for the delivery sends anything. |
| `Webhook.AcceptedAtMostOnce` | apps/worker/src/webhook/webhookWorker.ts:151-176 | If every success that is answered stays stored, the receiver accepts a delivery at most once over any tries. |
| `Webhook.AcceptedAtMostOnceIff` | apps/worker/src/webhook/webhookWorker.ts:151-236 | That is exact: among all tries that may happen none accepts twice exactly if every success reports its write, or stores it while the catch's write has no effect. |
| `SlidingWindow.Limiter.Request` | apps/api/src/middleware/rateLimiters.ts:39-58 | After each transaction the stored set is exactly the requests of the last window, also across the key's expiry, and the verdict is that of the simple definition. |
| `SlidingWindow.AnyWindowAdmitsFew` | apps/api/src/middleware/rateLimiters.ts:46-58 | No interval of one window length sees more than the limit admitted. |
| `SlidingWindow.AdmittedIffQuiet` | apps/api/src/middleware/rateLimiters.ts:46-58 | A request is admitted exactly if fewer than the limit of others, admitted or not, lie in its window. |
| `SlidingWindow.SilentClientsAreAdmitted` | apps/api/src/middleware/rateLimiters.ts:46-58 | A client silent for a full window is admitted next. |
| `SlidingWindow.KnockingKeepsOut` | apps/api/src/middleware/rateLimiters.ts:46-58 | A client that keeps above the limit is never admitted again, because rejected requests are logged too. |
| `FixedWindow.EachWindowAllowsItsLimit` | apps/api/src/services/apiKeyService.ts:171-188 | Every window lets exactly its first requests up to the limit pass. |
| `FixedWindow.AnyIntervalAllowsFew` | apps/api/src/services/apiKeyService.ts:171-188 | Any interval of one window length lets less than twice the limit pass. |
| `FixedWindow.BoundIsMet` | apps/api/src/services/apiKeyService.ts:171-188 | For every limit some requests have one less than twice the limit pass within one window length: the bound is sharp. |
| `FixedWindow.CounterIsPlace` | apps/api/src/services/apiKeyService.ts:171-181 | With no expiry lost the counter is the request's place in its window. |
| `FixedWindow.LostExpiryLocksOut` | apps/api/src/services/apiKeyService.ts:176-181 | A counter whose expiry was lost turns everyone away for good once it has reached the limit. |
| `ApiKeyLimits.ApiKeyService.Increment` | apps/api/src/services/apiKeyService.ts:171-181 | The stored counter is what the whole history of its increments makes it. |
| `ApiKeyLimits.ApiKeyService.CheckRateLimit` | apps/api/src/services/apiKeyService.ts:162-196 | A request passes exactly if it is among the first 10, 15 or 120 of its minute for its key and the first 30, 45 or 300 for its organisation; what remains is what the tighter of the two has left. |

## Left out

- Input and output: database, Redis and BullMQ clients, HTTP, the browser, mail and storage are maps, sets and atomic steps, with failure as a choice of the environment.
- URL and HTML parsing, scanners, robots and sitemap rules: fetches, links and the allowed test are given functions of the URL; a fetched page keeps the URL of its item.
- A crawler object used for a second crawl: the fields are never reset, so a fresh object is required.
- The sitemap supplement of an audit, its progress columns (which are still written after a cancellation), rendering, business impact and summary text.
- Floating point: the overall score is computed exactly on integers and rounded half up.
- The explanation texts of scores: order of deductions and top rules.
- A rule looked up under a name inherited by every JavaScript object: the rule table is a plain map.
- String collation: ranking takes any weight of strings and any total order of weights in place of `localeCompare`.
- Aggregation.DeduplicationIsNeutral: assumes rule and issue keys without the separator, table issue keys, and URLs on findings that are counted by page.
- Alert fingerprints are tuples, not joined strings; alert policies, cooldowns and mails are not modelled, and nor is what other users do to alerts besides acknowledging.
- Alerts.CountIsExact: runs do not overlap, because the count is read at the start of a run and written at its end without a guard; it starts from zero.
- A failure of the catch block's own writes in a monitoring run.
- Manual monitoring runs, which have no slot and no uniqueness, and disabled configurations met by the processor.
- Slots.ClaimsAreExclusive: speaks of one configuration and slot; across slots there is no exclusion, as Slots.SlotsOverlap shows.
- Clock skew: every model has one clock that does not run backwards, and all audit workers have the same timeout.
- Vault run rows, their claim, and their summary; the evidence and dates of findings.
- AuditClaim.ClaimsAreOnTheBooks: recording AUDIT_STARTED is part of the accepted claim's step and taken to succeed; an attempt that crashes before it closes its rejected run leaves that run open.
- Endpoints that change between two dispatches of one event; payloads, signatures and encryption, except that a secret may fail to decrypt.
- A replay that ends because marking an event failed is itself an error: it is a dispatcher that takes no further step.
- Webhook.FinishedJobsAreDecided: attempts of one delivery do not overlap, and a job that BullMQ gives up because its worker stalled is not a finished job here.
- The abuse counter behind the sliding window, its 503 answer without Redis, and a reply without a count, which the code admits.
- FixedWindow.AnyIntervalAllowsFew: increment and expiry are one step; FixedWindow.LostExpiryLocksOut treats an expiry that never lands.
- Billing, prospects, competitors, reports, the web app and all plain reading and writing of records.
