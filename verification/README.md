# hyperz: models and proofs

A Dafny model of the concurrent and algorithmic parts of the hyperz scanner,
with proofs about them. `dafny verify dfyconfig.toml` checks all of it.

- **Scan queue and workers** (`Worklist`, `ScanProtocol`, `ScanInvariant`,
  `ScanTheorems`, `ScanAdmission`, `ScanFailures`, `ScanBounds`, `ScanRuns`,
  `TwoPhase`, `TwoPhaseRuns`). The tiered queue is a class whose methods are the
  mutex-protected sections, with Pop's loop body as one pass. The producer and
  the workers are a step relation over the same queue value, with sleeping and
  notified workers, checks that push at any tier, and the re-push before Done.
- **Crawler** (`CrawlProtocol`, `CrawlMoves`, `CrawlInvariant`,
  `CrawlTheorems`, `CrawlCoverage`, `CrawlBounds`). Seeding, submissions, the worker pool and the spec
  goroutines as tasks that take one atomic operation at a time: the in-flight
  counter, the one close, the page cap, and the wait that lets spec operations
  reach their pages.
- **Reflection scanner** (`Reflection`, `ReflectionTheorems`,
  `ReflectionDocuments`, `ReflectionJumps`). The context machine with its bulk skip over a hit, against
  the plain run of the machine, over whole documents, and what it passes over.
- **Similarity and its verdicts** (`Similarity`, `Idor`).
- **PDF writer** (`Pdf`, `PdfReader`, `PdfTheorems`, `Text`, `PdfWrap`). The
  serializer against a reader that goes by the file's own references, and word
  wrapping against greedy filling.
- **Baseline diff** (`Diff`, `DiffTheorems`). Dedupe, Diff and the index.
- **Identifier corpus** (`Shapes`, `Patterns`, `Corpus`, `CorpusTheorems`).
  Signatures, rendering, classification, and the corpus as a class over ring
  objects, against the history of ingested values.
- **Request budget and retries** (`Budget`, `BudgetTheorems`, `BudgetRetries`). Any
  number of concurrent calls, each load, compare-and-swap, wait and send being
  one step.
- `Options`, `Chars`, `Sums`, `Pigeonhole`, `MapTotals`, `Decimal`: optional
  values, character classes, counting, map totals and decimal text, used by the
  above.

Chars stand for bytes. Where the source's map iteration order, random numbers,
clocks, network, limiters or fetched content matter, they are parameters or
free choices of a step, so the theorems hold for all of them.

## Where the code differs from its comments

The model follows the code.

- `internal/scanner/scanner.go:220-222` says every Plant completes before the
  first Detect. Pop does not wait for the producer: a page can reach Detect before
  the next page is pushed (`TwoPhaseRuns.PlantAfterDetect`). The barrier is about
  what has been accepted so far (`ScanTheorems.BarrierHolds`,
  `TwoPhase.PlantsPrecedeDetect`); after a popped Detect no Plant follows exactly
  when nothing more is accepted at its tier (`TwoPhaseRuns.PlantsEndCondition`), as
  when the producer is done and checks emit at the deferred tier only
  (`TwoPhaseRuns.NoPlantFollows`).
- `internal/scanner/worklist.go:175` counts four bands; there are five. Push takes
  any tier, Pop looks at the five bands only: a push outside them keeps the scan
  from ending (`ScanTheorems.OutOfBandNeverDrains`, `ScanRuns.OutOfBandPushHappens`).
  The Lua loader admits only the five labels (`internal/lua_engine/check.go:330`).
- Targets walk to the deferred tier only if some check is two-phase. In a scan
  without one, a check declared at that tier runs exactly when a check pushes a
  target there, as Lua checks may (`internal/lua_engine/api_discover.go:71-77`;
  `TwoPhaseRuns.DeferredCheckRuns`, `TwoPhaseRuns.DeferredCheckCanRun`).
- `internal/lua_engine/oracle.go:86-88` says two probes that behave like each
  other give no signal. In the code that is so exactly when both also match the
  baseline (`Similarities.Verdicts`, `Similarities.LookAlikeProbes`); look-alike probes can be called
  vulnerable or indeterminate (`Similarities.LookAlikesCanBeVulnerable`,
  `Similarities.LookAlikesCanBeIndeterminate`).
- `internal/lua_engine/oracle.go:28-29` promises 0 for strings with nothing in common;
  only an empty string against another scores 0 (`Similarities.ZeroMeansOneEmpty`).
- `internal/lua_engine/checks/access/idor_patterns.go:115-117` ranks learned
  shapes above the catch-all. The two never meet: a learned shape is never one
  the catch-all could match (`CorpusTheorems.LearnedIsClear`).
- `internal/lua_engine/checks/access/idor_patterns.go:139-147` may loop for ever:
  exactly when the shape has too few values (`Shapes.GenerateReturnsWhenEnough`). Such
  shapes can be learned (`CorpusTheorems.RigidShapeCanBeLearned`).
- `internal/report/diff.go:77-85` labels the second finding of a known key new.
  Deduplicated streams have none (`DiffTheorems.KnownFindingsPersist`).
- `internal/httpclient/client.go:348-358` returns a response whose body has been
  drained and closed when the request has a body that cannot be sent again. That
  can happen to exactly the retryable calls with such a body
  (`BudgetTheorems.ClosedResponseCondition`).
- `internal/lua_engine/reflection.go:133-137` calls HasReflection a convenience
  wrapper; it also sees what FindReflections jumps over, which is what script tags
  and backslashes in script strings hide (`ReflectionJumps.PresentButUnreported`).
  Without a script start tag the two agree
  (`ReflectionJumps.WithoutScriptsPresenceIsReported`).

## Model

| member | source | states |
|---|---|---|
| Worklists.SeenKeyInjective | internal/scanner/worklist.go:141 | the dedupe string `key:tier` determines key and tier, whatever the key contains and for labels of tiers outside the bands too |
| Worklists.TierLabelInjective | internal/scanner/worklist.go:141 | different tiers have different labels |
| Worklists.EligibleTierIsUnique | internal/scanner/worklist.go:234-245 | at most one tier passes the barrier test at a time, so what Pop may hand out is determined |
| Worklists.DrainedIsTotalZero | internal/scanner/worklist.go:246-278 | with pending counts never below what is queued, the sum over the map is zero exactly when every tier's count is |
| Worklists.Worklist.constructor | internal/scanner/worklist.go:97-107 | a new queue is empty, with the given scope and no host budget |
| Worklists.Worklist.WithHostBudget | internal/scanner/worklist.go:111-115 | a positive value sets the budget, any other leaves it |
| Worklists.Worklist.AnyTierSeen | internal/scanner/worklist.go:176-183 | true exactly when some band holds the key |
| Worklists.Worklist.Push | internal/scanner/worklist.go:129-167 | accepts exactly when not cancelled, in scope, keyed, open, unseen at this tier and within the host budget for a first sight; the whole new state and the wakeup either way |
| Worklists.Worklist.Enqueue | internal/scanner/worklist.go:159-164 | the accepting tail of Push: seen set, host count, FIFO append and pending count, keeping queued <= pending |
| Worklists.Worklist.TotalPending | internal/scanner/worklist.go:272-278 | the sum over the pending map |
| Worklists.Worklist.PopAttempt | internal/scanner/worklist.go:227-250 | one pass of Pop's loop hands out the head of the tier with no lower pending work, leaves when stopped or drained, and blocks exactly otherwise |
| Worklists.Worklist.Done | internal/scanner/worklist.go:263-268 | the tier's pending count drops by one and every waiter is woken |
| Worklists.Worklist.SourceDone | internal/scanner/worklist.go:283-294 | sets the flag once and broadcasts exactly when that drains the queue |
| Worklists.Worklist.Close | internal/scanner/worklist.go:300-309 | closes once and wakes every waiter the first time |
| ScanInvariant.PushInv | internal/scanner/worklist.go:129-167 | a push by anyone keeps the protocol's invariant: per-tier push order = dispatch order + queue, pending = queued + in flight, host counts, no lost wakeup |
| ScanInvariant.TakeInv | internal/scanner/worklist.go:234-240 | handing an item to a worker keeps the invariant |
| ScanInvariant.IdleInv | internal/scanner/worklist.go:246-250 | a worker that goes to sleep or leaves keeps the invariant |
| ScanInvariant.AdvanceNeverRefused | internal/scanner/scanner.go:290-293 | a worker's re-push at the next tier is refused only if that slot was accepted before, never for scope or budget |
| ScanInvariant.AdvanceInv | internal/scanner/scanner.go:284-296 | the tier advance before Done keeps the invariant, accepted or refused |
| ScanInvariant.FinishInv | internal/scanner/worklist.go:263-268 | Done's decrement and broadcast keep the invariant |
| ScanInvariant.ProducerDoneInv | internal/scanner/worklist.go:283-294 | the producer's end keeps the invariant |
| ScanInvariant.StepInv | internal/scanner/scanner.go:243-301 | every step of producer and workers keeps the invariant |
| ScanInvariant.RunInv | internal/scanner/scanner.go:243-301 | every state of every run satisfies the invariant |
| ScanTheorems.PopHasOutcome | internal/scanner/worklist.go:227-250 | every pass of Pop on an open queue has an outcome |
| ScanTheorems.PopperCanMove | internal/scanner/scanner.go:268-272 | an awake popper can always move |
| ScanTheorems.BusyCanMove | internal/scanner/scanner.go:273-297 | a worker holding a dispatch can always move |
| ScanTheorems.NoDeadlock | internal/scanner/scanner.go:263-301 | in every reachable state some worker can move, or all have exited, or every band is empty and, pushes being in bands, they wait for a running producer only |
| ScanTheorems.NoLostWakeup | internal/scanner/worklist.go:225-294 | an eligible item never waits on sleepers alone; nobody sleeps once drained; with nothing in flight and something queued, some item is eligible |
| ScanTheorems.BarrierHolds | internal/scanner/worklist.go:234-245 | when Pop hands out a tier, every lower-tier pair accepted so far was dispatched and is Done, and nothing in flight is at a lower tier |
| ScanTheorems.FifoWithinTier | internal/scanner/worklist.go:236-240 | within a tier dispatch order is push order, and no (key, tier) is dispatched twice |
| ScanTheorems.NothingLost | internal/scanner/scanner.go:264-301 | once a worker has exited, everything accepted was dispatched once, finished, and advanced unless it failed to materialize or was at the last tier |
| ScanTheorems.DrainedIsStable | internal/scanner/worklist.go:246-248 | after the first exit nothing more is ever accepted or dispatched |
| ScanTheorems.WalksEveryTier | internal/scanner/scanner.go:284-293 | at quiescence every key has been accepted at each tier from where it entered up to the last, unless it failed on the way |
| ScanTheorems.OutOfBandNeverDrains | internal/scanner/worklist.go:163-164 | a push accepted at a tier outside the five bands keeps every worker from ever exiting |
| ScanRuns.OutOfBandPushHappens | internal/scanner/worklist.go:163-164 | a run in which a check's push at a given tier outside the bands is accepted |
| ScanTheorems.DiscoveryIsBounded | internal/scanner/worklist.go:151-164 | with a positive host budget a run accepts at most 5 * budget * hosts pushes, whatever the checks emit |
| ScanTheorems.FiveSlotsPerKey | internal/scanner/worklist.go:84-90 | a log without repeated (key, tier) holds at most five entries per key |
| ScanTheorems.HostBudgetHolds | internal/scanner/worklist.go:155-162 | the host's count is the number of distinct keys first accepted on it and never exceeds the budget |
| ScanAdmission.OnlyInScope | internal/scanner/worklist.go:327-339 | everything a scan accepts or dispatches has a key and, unless there is no scope, a URL that the scope allows |
| ScanAdmission.WelcomeIsAccepted | internal/scanner/worklist.go:129-167 | a push by producer or check adds its job exactly when it is in scope, has a key, is new at its tier, and its key was accepted before or its host has fewer first-accepted keys than the budget, all read off the log of accepted pushes |
| ScanFailures.FailedMeansNotMaterialized | internal/scanner/scanner.go:273-276 | the failed jobs are exactly those whose page some worker could not materialize |
| ScanFailures.FailedIsLeftAlone | internal/scanner/scanner.go:273-297 | no check runs on a failed job and its worker does not push it on to the next tier |
| ScanBounds.OnlyRefusedPushesStutter | internal/scanner/worklist.go:129-167 | the steps of producer and workers that change nothing are exactly the refused pushes of producer and checks |
| ScanBounds.StepDropsRank | internal/scanner/scanner.go:243-301 | every step but a refused push lowers a measure of what the run can still do, although one wakeup may start every worker |
| ScanBounds.ScanIsBounded | internal/scanner/worklist.go:151-164 | over finitely many budgeted hosts, all steps of a run but 5 * budget * hosts * (workers + 6) + 2 * workers + 1 are refused pushes, whatever the checks emit |
| TwoPhase.ScanTier | internal/scanner/scanner.go:444-472 | one dispatch selects exactly the registered checks that match tier, kind, self-loop rule and gate, in order, once each |
| TwoPhase.UntargetedSelection | internal/scanner/scanner.go:491-513 | a check that declares nothing is selected for pages only, at the active tier unless it emitted the target, and if it is two-phase at the deferred tier as well |
| TwoPhase.DeclaredSelection | internal/scanner/scanner.go:476-513 | a declared tier outside 1 to 5 counts as active and no declared kind as pages; at the deferred tier two-phase checks are selected too and self-loops are not filtered |
| TwoPhase.EntryPoints | internal/scanner/scanner.go:603-610 | single-phase checks are run, two-phase ones plant before the deferred tier and detect at it |
| TwoPhase.LastTierIs | internal/scanner/scanner.go:197-202 | targets walk to the deferred tier exactly if some registered check is two-phase, otherwise to the active one |
| TwoPhase.EntryOncePerKey | internal/scanner/scanner.go:603-610 | over a run, Plant, Detect and Run are each selected at most once per key |
| TwoPhase.PlantsOnlyBelowDeferred | internal/scanner/scanner.go:482-489 | a two-phase check plants at some tier exactly when declared below the deferred one, and detects at the deferred tier only |
| TwoPhase.PlantsPrecedeDetect | internal/scanner/scanner.go:216-226 | when a Detect is popped, every key accepted at or below the plant tier has a finished plant dispatch or failed on the way, and nothing lower is running |
| TwoPhaseRuns.ReachedMeansAccepted | internal/scanner/scanner.go:476-489 | at quiescence a check has had a dispatch at a tier of its own exactly when a push at such a tier was accepted |
| TwoPhaseRuns.KeysReachTheCheck | internal/scanner/scanner.go:284-293 | at quiescence every key that entered at or below a check's tier, within the tiers targets walk, has had a dispatch at that tier unless it failed on the way |
| TwoPhaseRuns.DeferredIsPushed | internal/scanner/scanner.go:284-293 | without two-phase checks, something is accepted at the deferred tier exactly when some step accepted a check's push there |
| TwoPhaseRuns.DeferredCheckRuns | internal/scanner/scanner.go:482-489 | a check of the deferred tier in a scan without two-phase checks gets a dispatch at its tier exactly when a check's push at the deferred tier was accepted |
| TwoPhaseRuns.DeferredCheckCanRun | internal/scanner/scanner.go:482-489 | a quiescent run of such a scan that dispatches a pushed target at the deferred tier, where every such check is selected |
| TwoPhaseRuns.PlantAfterDetect | internal/scanner/scanner.go:220-226 | for every two-phase check that plants, a run that pops its Detect on one page before the producer pushes another, whose Plant is popped later |
| TwoPhaseRuns.PlantsEndCondition | internal/scanner/scanner.go:220-226 | from a popped Detect to quiescence nothing more is dispatched at a lower tier exactly when nothing more is accepted at it |
| TwoPhaseRuns.NoPlantFollows | internal/scanner/scanner.go:220-226 | from a popped Detect on, with the producer done and checks emitting at the deferred tier only, no lower tier gets another dispatch |
| CrawlInvariant.StepInv | internal/crawler/crawler.go:99-265 | every atomic operation of seeding, workers, spec goroutines and cancellation keeps the invariant |
| CrawlInvariant.RunInv | internal/crawler/crawler.go:99-265 | every state of every crawl satisfies the invariant |
| CrawlTheorems.PendingCountsOutstanding | internal/crawler/crawler.go:129-137 | the counter is never negative and is zero exactly when no accepted item and no bootstrap slot is outstanding; closed implies zero |
| CrawlTheorems.NothingAfterClose | internal/crawler/crawler.go:129-137 | the channel is closed once, and no task sends, launches or emits after the counter reached zero |
| CrawlTheorems.ZeroIsFinal | internal/crawler/crawler.go:259-261 | from zero on the counter stays zero and no task or page is added |
| CrawlTheorems.AcceptedOnce | internal/crawler/crawler.go:180-184 | no two accepted items have the same canonical URL, and each is in the visited set |
| CrawlTheorems.PageCapHolds | internal/crawler/crawler.go:185-187 | with a positive cap at most MaxPages items are accepted in any interleaving |
| CrawlTheorems.PagesAreDistinct | internal/crawler/crawler.go:291-304 | no URL gets two pages |
| CrawlTheorems.EveryUrlGetsAPage | internal/crawler/crawler.go:306-398 | an uncancelled crawl with nothing outstanding has a page for every accepted URL |
| CrawlTheorems.OperationsConserved | internal/crawler/crawler.go:144-166 | what was recorded for a page's URL is what the page carries followed by what is still stashed: nothing duplicated, reordered or given to another URL |
| CrawlTheorems.OperationsWait | internal/crawler/crawler.go:157-166 | until its page takes them, all operations recorded for a URL are stashed |
| CrawlTheorems.PageCarriesEarlierSpecs | internal/crawler/crawler.go:291-297 | a non-spec page carries every operation recorded for its URL by a spec item launched before the page's wait step |
| CrawlTheorems.SubmittedWithItsOperations | internal/crawler/crawler.go:394-397 | a URL accepted by a spec's submission carries the operations that spec recorded for it before |
| CrawlTheorems.SpecNeverBlocks | internal/crawler/crawler.go:196-214 | a spec item can always take its next step, whatever the workers wait for |
| CrawlTheorems.GuardHolderCanMove | internal/crawler/crawler.go:196-213 | while specs are counted in flight, some task can take its next step, so waiting pages are not stuck |
| CrawlTheorems.CrawlNeverStalls | internal/crawler/crawler.go:225-263 | with at least one worker some task can move until all are over |
| CrawlTheorems.OverMeansClosed | internal/crawler/crawler.go:131-137 | when every task is over the channel is closed |
| CrawlCoverage.VisitedMeansSubmitted | internal/crawler/crawler.go:169-217 | the URLs accepted so far are exactly the canonical forms of the submissions carried out so far; every task crawls one of them, as a spec exactly if its path looks like one |
| CrawlCoverage.PagesWereSubmitted | internal/crawler/crawler.go:169-217 | every page's URL is the canonical form of a submission in some task's program |
| CrawlCoverage.SubmissionsGetPages | internal/crawler/crawler.go:169-217 | in an uncancelled crawl with nothing outstanding, every submission in any task's program with a canonical form has a page, or there is a cap and exactly that many tasks |
| CrawlCoverage.FetchedSubmissionsGetPages | internal/crawler/crawler.go:306-398 | the same for every submission that a fetched page yielded during the run |
| CrawlCoverage.SeedsGetPages | internal/crawler/crawler.go:219-263 | the same for every seed |
| CrawlBounds.StepDropsRank | internal/crawler/crawler.go:99-265 | every move of a goroutine lowers a measure of what the crawl can still do, launched tasks included |
| CrawlBounds.CrawlIsBounded | internal/crawler/crawler.go:185-187 | with a page cap and plans of at most L actions, no interleaving makes more than 5 * seeds + 4 + cap * (10 + 5 * L) moves |
| CrawlBounds.PoolHolds | internal/crawler/crawler.go:102 | until it is cancelled, a crawl never has more than `workers` tasks in the hands of the pool or more than twice as many in the channel |
| Reflections.HexRoundTrip | internal/lua_engine/canary.go:35 | hex text decodes and encodes back to itself |
| Reflections.CanaryShapeIsExact | internal/lua_engine/canary.go:30-56 | IsCanary accepts exactly the strings NewCanary can mint |
| Reflections.CanarySpelled | internal/lua_engine/canary.go:9-19 | a canary is hpzc and twelve lower-case hex digits |
| Reflections.IndexByteFrom | internal/lua_engine/reflection.go:334-343 | the first position of the byte at or after the start, or -1 when there is none |
| Reflections.StepState | internal/lua_engine/reflection.go:193-282 | every step consumes at least one byte and stays in the body |
| Reflections.ScanHeaders | internal/lua_engine/reflection.go:101-107 | one hit per header value holding the token, in iteration order |
| Reflections.ScanBody | internal/lua_engine/reflection.go:112-129 | the loop computes the bulk-skipping run |
| Reflections.FindReflections | internal/lua_engine/reflection.go:96-131 | nothing for the empty token; otherwise the header hits followed by the body hits |
| ReflectionTheorems.AlnumIsInert | internal/lua_engine/reflection.go:117-119 | an alphanumeric byte changes no state and is one step |
| ReflectionTheorems.CanaryIsAlnumAndUnbordered | internal/lua_engine/canary.go:38-56 | a canary is alphanumeric and no proper suffix of it is a prefix |
| ReflectionTheorems.NoOverlap | internal/lua_engine/reflection.go:115-121 | an unbordered token does not occur again inside an occurrence |
| ReflectionTheorems.BulkSkipIsInvisible | internal/lua_engine/reflection.go:114-129 | for every body and canary the reported body hits are those of the plain state machine run |
| ReflectionTheorems.BulkSkipCondition | internal/lua_engine/reflection.go:117-121 | for an alphanumeric token the skip is invisible on every body exactly when the token is unbordered |
| ReflectionTheorems.HitsAreExact | internal/lua_engine/reflection.go:115-123 | a canary is reported at an offset with a context exactly when the plain run stops there in that context and the canary is there |
| ReflectionTheorems.VisitsAscend | internal/lua_engine/reflection.go:114-128 | the run's positions increase strictly and stay inside the body |
| ReflectionTheorems.HeaderHitsMeanContains | internal/lua_engine/reflection.go:101-107 | there is a header hit exactly when some header value contains the token |
| ReflectionTheorems.HeaderHitsAre | internal/lua_engine/reflection.go:101-107 | headers and values are looked at in order, each for itself; a value with the token gives one hit without a position under its header's name |
| ReflectionTheorems.FoundMeansPresent | internal/lua_engine/reflection.go:133-152 | any reported reflection implies HasReflection, for any token |
| ReflectionTheorems.ClassifiedAsWritten | internal/lua_engine/reflection.go:197-282 | a canary after markup that opens a context, and filler confined to it, is reported there with that context |
| ReflectionTheorems.BreakoutReachesText | internal/lua_engine/reflection.go:28-47 | after the closing markup of any context a canary is reported as HTML text |
| ReflectionDocuments.ClassifiedInDocument | internal/lua_engine/reflection.go:193-282 | after any sequence of words, tags with any quoted attributes, comments and scripts (start tags with attributes, end tags with trailing text, any letter case, strings with escapes), a canary is reported with the context of the place it stands in |
| ReflectionDocuments.BreakoutInDocument | internal/lua_engine/reflection.go:28-47 | from any such place the markup that leaves it leads back to text: a canary right after it is reported as HTML text |
| ReflectionJumps.StepPassesOver | internal/lua_engine/reflection.go:193-282 | a step of the machine passes over an alphanumeric byte exactly when the byte is in the script start or end tag it opens, or follows the backslash it meets in a script string |
| ReflectionJumps.MissedMeansHidden | internal/lua_engine/reflection.go:193-282 | the machine does not stop at an alphanumeric byte exactly when such a tag or backslash it stopped at hides the byte |
| ReflectionJumps.ReportedOrHidden | internal/lua_engine/reflection.go:112-129 | an occurrence of a canary is reported or hidden, and never both |
| ReflectionJumps.PresentButUnreported | internal/lua_engine/reflection.go:133-152 | a present canary goes unreported exactly when no header value holds it and every occurrence is hidden by script markup or a backslash in a script string |
| ReflectionJumps.BeforeScriptsAllIsReported | internal/lua_engine/reflection.go:203-218 | a canary with no script start tag before it is reported, outside the script contexts |
| ReflectionJumps.WithoutScriptsPresenceIsReported | internal/lua_engine/reflection.go:133-152 | in a body without script start tags HasReflection holds exactly when FindReflections reports something |
| ReflectionJumps.ScriptTagIsJumped | internal/lua_engine/reflection.go:207-218 | a canary inside a script start tag is present but not reported |
| Similarities.CommonPrefix | internal/lua_engine/oracle.go:59-62 | the longest common prefix |
| Similarities.CommonSuffix | internal/lua_engine/oracle.go:69-72 | the longest common suffix |
| Similarities.Similarity | internal/lua_engine/oracle.go:43-77 | the two counting loops and the weights compute (min + 3 * shared edges) / (4 * max), with 1 and 0 for empty inputs |
| Similarities.EdgesAreBest | internal/lua_engine/oracle.go:63-76 | counting prefix and suffix apart and capping the sum gives the largest shared start plus non-overlapping shared end |
| Similarities.ScoreSymmetric | internal/lua_engine/oracle.go:43-77 | the score is symmetric |
| Similarities.ScoreRange | internal/lua_engine/oracle.go:28-29 | the score lies in [0, 1] |
| Similarities.OneMeansEqual | internal/lua_engine/oracle.go:28-29 | the score is 1 exactly for equal strings |
| Similarities.ZeroMeansOneEmpty | internal/lua_engine/oracle.go:42-49 | the score is 0 exactly when one string is empty and the other is not |
| Similarities.SharedEndsBound | internal/lua_engine/oracle.go:35-40 | any shared start and end bounds the score from below |
| Similarities.SamePageCounts | internal/lua_engine/oracle.go:22-26 | the 0.97 threshold as an inequality between byte counts |
| Similarities.SamePageMeans | internal/lua_engine/oracle.go:22-26 | two pages above the threshold share at least 96% of the longer one at their ends and differ in length by at most 3% |
| Similarities.TemplatedPages | internal/lua_engine/oracle.go:35-40 | for pages of one template the shared bytes are exactly header and footer, and the verdict depends on lengths alone |
| Similarities.VulnerableMeansDiverged | internal/lua_engine/oracle.go:117-145 | a vulnerable boolean verdict means the falsy response differs from baseline and truthy one; swapping the probes gives no verdict |
| Similarities.Verdicts | internal/lua_engine/oracle.go:117-145 | for all responses each of the three verdicts exactly by statuses and byte counts, and each score is 1 exactly for a body equal to the baseline's |
| Similarities.LostRows | internal/lua_engine/oracle.go:78-86 | a page that keeps its rows for the truthy probe and loses them for the falsy one is vulnerable exactly when the status changed or the rows outweigh 3/97 of the markup |
| Similarities.ReplacedRows | internal/lua_engine/oracle.go:78-86 | the same when other rows or a message stand in their place, by an inequality of lengths |
| Similarities.LookAlikeProbes | internal/lua_engine/oracle.go:86-88 | for all probes that look like each other, which of the three verdicts comes out, by status and byte counts against the baseline |
| Similarities.SharedFrameIsNoSignal | internal/lua_engine/oracle.go:86-88 | three pages of one status that share enough of the longest at the same ends give no signal |
| Similarities.LookAlikesCanBeVulnerable | internal/lua_engine/oracle.go:117-145 | three 100-byte pages whose look-alike probes are called vulnerable |
| Similarities.LookAlikesCanBeIndeterminate | internal/lua_engine/oracle.go:117-145 | three 100-byte pages whose look-alike probes get no verdict |
| Similarities.EqualProbes | internal/lua_engine/oracle.go:117-145 | equal probes give no-signal exactly when they match the baseline, otherwise indeterminate |
| Idor.IdorJudge | internal/lua_engine/checks/access/idor_oracle.go:62-124 | the verdict, its confidence, explanation, scores and markers, each with the exact condition on the three responses |
| Idor.ExposedMeans | internal/lua_engine/checks/access/idor_oracle.go:49-55 | the signal exactly by statuses from 200 to 299 and byte counts |
| Idor.RefusedControl | internal/lua_engine/checks/access/idor_oracle.go:78-79 | a control answering 302 or 404 counts as refused, whatever its body |
| Idor.ExposedMeansDistinct | internal/lua_engine/checks/access/idor_oracle.go:49-55 | a vulnerable verdict means baseline and tampered bodies differ, and all three differ pairwise when the control is 2xx |
| Idor.ExposedIgnoresRoles | internal/lua_engine/checks/access/idor_oracle.go:78-103 | with three accepted responses the verdict is the same under any exchange of roles |
| Idor.GenericEndpointIsQuiet | internal/lua_engine/checks/access/idor_oracle.go:80-102 | an endpoint that gives the control the same body as baseline or tampered response is not flagged |
| Idor.TemplatedRecords | internal/lua_engine/checks/access/idor_oracle.go:35-41 | records in one template with the control refused: flagged exactly by an inequality between record and markup lengths |
| Pdf.Emitter.constructor | internal/report/pdf.go:510-513 | the buffer starts with the header and no offsets |
| Pdf.Emitter.AddObj | internal/report/pdf.go:514-517 | appends a numbered object and its offset, keeping offsets and buffer in step |
| Pdf.Emitter.AddStream | internal/report/pdf.go:518-523 | appends a numbered stream object with its length, and its offset |
| Pdf.KidsTrimmed | internal/report/pdf.go:527-532 | the built list of page references, trimmed, is the references joined by blanks |
| Pdf.KidList | internal/report/pdf.go:527-530 | the loop appends one reference per page |
| Pdf.EmitPages | internal/report/pdf.go:537-543 | each page adds its page object, referring to the next id, and its content stream |
| Pdf.CrossReference | internal/report/pdf.go:545-549 | the table header, the free entry and one entry per offset |
| Pdf.Serialize | internal/report/pdf.go:509-555 | the whole file is the objects in order, the table of their offsets and the trailer |
| PdfTheorems.OffsetsPointAtObjects | internal/report/pdf.go:514-523 | entry k of the offsets is the position where `k 0 obj` and its object stand |
| PdfTheorems.OffsetsAscend | internal/report/pdf.go:514-523 | objects do not overlap: offsets grow by at least the object's length |
| PdfTheorems.EntryWidth | internal/report/pdf.go:547-549 | an entry is 20 bytes exactly when the offset is below 10^10 |
| PdfTheorems.EntriesAt | internal/report/pdf.go:547-549 | entry k stands 20 * k bytes into the table |
| PdfTheorems.StartXrefReads | internal/report/pdf.go:545-551 | the number before the end marker is the position of the table |
| PdfTheorems.TableReads | internal/report/pdf.go:545-549 | the table read there has one entry more than there are objects |
| PdfTheorems.OffsetReads | internal/report/pdf.go:545-549 | looking an id up in the table gives the position its object was written at |
| PdfTheorems.ObjectReads | internal/report/pdf.go:545-549 | following the table from an id leads to that object's text |
| PdfTheorems.BodiesAt | internal/report/pdf.go:505-508 | page i is object 5+2i and refers to its stream 6+2i |
| PdfTheorems.StreamReads | internal/report/pdf.go:518-523 | reading as many bytes as Length says gives the page's content and stops at endstream |
| PdfTheorems.RootReads | internal/report/pdf.go:550-551 | the trailer names object 1 as the root |
| PdfTheorems.KidsRead | internal/report/pdf.go:527-532 | the page tree read through the root lists the ids 5, 7, ... in page order |
| PdfTheorems.PageReads | internal/report/pdf.go:537-543 | following a page object to its contents gives the page |
| PdfTheorems.WrittenPagesReadBack | internal/report/pdf.go:505-555 | for any pages, a file below 10^10 bytes reads back through trailer, table, tree and lengths to the same pages |
| Text.FieldsKeepAll | internal/report/pdf.go:585 | the words of a text hold its non-blank characters in order |
| Text.FieldsOfBlank | internal/report/pdf.go:585-588 | a text has no words exactly when it is blank |
| PdfWrap.SplitLong | internal/report/pdf.go:598-602 | the hard-split loop leaves a piece of 1 to max characters and the lines greedy filling would have made |
| PdfWrap.FullPiece | internal/report/pdf.go:598-602 | flushing before a full piece and emitting it at once is what greedy filling does |
| PdfWrap.PdfWrap | internal/report/pdf.go:581-616 | the nested loops compute the greedy filling of the chopped words, or leave short, blank and unbounded text alone |
| PdfWrap.WrappingLosesNothing | internal/report/pdf.go:578-580 | for every text and width the lines hold the text's characters in order, whitespace aside |
| PdfWrap.EveryLineFits | internal/report/pdf.go:581-588 | every line fits exactly when the text fits, or the width is positive and there is a word |
| PdfWrap.GreedyIsShortest | internal/report/pdf.go:597-613 | no other way of breaking the same pieces into lines that fit has fewer lines |
| Diffs.Dedupe | internal/report/report.go:158-174 | drops exactly the findings whose key came before |
| Diffs.DedupedIsFirst | internal/report/report.go:158-175 | the first finding of each key and every finding without a key come out, in order, and nothing later changes that |
| Diffs.DedupedIsClean | internal/report/report.go:154-157 | no key repeats after Dedupe and no key is lost |
| Diffs.DedupedKeepsClean | internal/report/report.go:154-157 | a stream passes unchanged exactly when no key repeats in it |
| Diffs.IndexFindings | internal/report/baseline.go:361-383 | the loop builds the key index and the list of unkeyed findings |
| Diffs.IndexedIsIndex | internal/report/baseline.go:366-381 | the index has the stream's keys, each with a finding of that key and no status |
| Diffs.IndexedIsFirst | internal/report/baseline.go:374-380 | the first finding of a key is the one kept |
| Diffs.LessAtFirstDifference | internal/report/diff.go:99 | the order of the keys is that of the first different character, a proper prefix coming first |
| Diffs.SortedIsUnique | internal/report/diff.go:92-99 | the sorted key list is unique, so map order does not show |
| Diffs.SortKeys | internal/report/diff.go:95-99 | collecting in any order and sorting gives that list |
| Diffs.EmitResolved | internal/report/diff.go:92-105 | one resolved finding per unmatched baseline entry, in key order, counted |
| Diffs.Diff | internal/report/diff.go:60-108 | labels the stream, appends the resolved entries, and the counters equal what was emitted |
| DiffTheorems.Conservation | internal/report/diff.go:60-108 | new + persisting is the stream's length and persisting + resolved the number of baseline keys, for every stream |
| DiffTheorems.LabelsAre | internal/report/diff.go:76-91 | findings come out in order, persisting exactly for the first of a key the baseline has |
| DiffTheorems.KnownFindingsPersist | internal/report/diff.go:77-85 | no finding with a baseline key is labelled new exactly when no baseline key repeats in the stream |
| DiffTheorems.RepeatIsCalledNew | internal/report/diff.go:77-85 | a repeated known finding is labelled new |
| DiffTheorems.EveryKeyEmitted | internal/report/diff.go:60-108 | every key comes out as often as it came in, and each unmatched baseline key once |
| DiffTheorems.EachKeyOnce | internal/report/diff.go:60-108 | after Dedupe every key of scan or baseline is emitted exactly once |
| DiffTheorems.RescanIsFixpoint | internal/report/diff.go:60-108 | a rescan against its own index resolves nothing, and labels every keyed finding persisting exactly when no key repeats |
| DiffTheorems.ReindexIsUnion | internal/report/baseline.go:361-383 | indexing a diffed output gives the old index overridden by the scan's, and only the scan's unkeyed findings |
| DiffTheorems.RollingBaseline | internal/report/baseline.go:361-383 | against the next baseline the same scan has nothing new, the same entries are resolved again, and the baseline no longer changes |
| Shapes.SameSignature | internal/lua_engine/checks/access/idor_patterns.go:83-110 | two values have one signature exactly when they agree class by class |
| Shapes.ShapeSignature | internal/lua_engine/checks/access/idor_patterns.go:91-110 | the byte loop computes the signature |
| Shapes.RenderShape | internal/lua_engine/checks/access/idor_patterns.go:156-171 | the byte loop computes the rendering of the shape under the numbers drawn |
| Shapes.SignatureIdempotent | internal/lua_engine/checks/access/idor_patterns.go:83-87 | a signature is its own signature |
| Shapes.RenderKeepsShape | internal/lua_engine/checks/access/idor_patterns.go:152-155 | rendering a signature gives a value of it, whatever is drawn |
| Shapes.RenderReachesAll | internal/lua_engine/checks/access/idor_patterns.go:152-155 | every value can come up as a rendering of its signature |
| Shapes.RigidIsAlone | internal/lua_engine/checks/access/idor_patterns.go:152-155 | a signature stands for one value only exactly when it has no class character |
| Shapes.KeepDrawing | internal/lua_engine/checks/access/idor_patterns.go:139-147 | the random loop adds each new rendering once, for the draws made so far |
| Shapes.Generate | internal/lua_engine/checks/access/idor_patterns.go:126-148 | known values first, then renderings, stopping at the wanted number |
| Shapes.GenerateIsExact | internal/lua_engine/checks/access/idor_patterns.go:126-148 | when Generate returns for want > 0, it returns exactly want distinct values of the shape, none the seed |
| Shapes.GenerationIsDistinct | internal/lua_engine/checks/access/idor_patterns.go:126-148 | what Generate gives is the distinct values other than the seed among the stored values in their order and then one rendering per draw, cut at the number wanted; it returns as soon as there are enough |
| Shapes.GenerateCanReturn | internal/lua_engine/checks/access/idor_patterns.go:139-147 | some run of the random source lets Generate return exactly when the shape has want distinct values besides the seed |
| Shapes.GenerateReturnsWhenEnough | internal/lua_engine/checks/access/idor_patterns.go:139-147 | the same condition counted: 10^digits * 26^letters, less one if the seed has the shape, is at least the number wanted |
| Shapes.RigidShapeSpins | internal/lua_engine/checks/access/idor_patterns.go:139-147 | for a rigid shape seeded with its value no run of the random source ends the loop |
| Patterns.ClassifyValue | internal/lua_engine/checks/access/idor_patterns.go:61-81 | the two loops pick by precedence over the built-in patterns and then the learned ones |
| Patterns.BestIsHighest | internal/lua_engine/checks/access/idor_patterns.go:56-60 | the result accepts the value and no accepting pattern has higher precedence; none means none accepts |
| Patterns.BestBuiltinIsByRule | internal/lua_engine/checks/access/idor_patterns.go:201-232 | which built-in family a value gets when several would take it: up to 12 digits are numeric, then UUIDs, 24 hex digits are a Mongo id, 8 or more hex, then mail, user name, slug and the catch-all |
| Patterns.PrecedenceDecides | internal/lua_engine/checks/access/idor_patterns.go:25-27 | two patterns of equal precedence that accept a value are the same pattern |
| Patterns.OrderDoesNotMatter | internal/lua_engine/checks/access/idor_patterns.go:61-81 | any reordering or repetition of the patterns classifies alike |
| Patterns.CatchAllHasFamily | internal/lua_engine/checks/access/idor_patterns.go:527-536 | text in the catch-all's alphabet always has some built-in family |
| Patterns.CatchAllIsShaped | internal/lua_engine/checks/access/idor_patterns.go:208 | membership in the catch-all's alphabet depends on the shape only |
| Patterns.BuiltinsComeFirst | internal/lua_engine/checks/access/idor_patterns.go:112-121 | with learned shapes outside that alphabet, a value any built-in accepts keeps its built-in family, and any other gets the learned pattern of its shape or none |
| Corpora.RingBuf.constructor | internal/lua_engine/checks/access/idor_corpus.go:55-57 | a new ring is empty |
| Corpora.RingBuf.Push | internal/lua_engine/checks/access/idor_corpus.go:59-73 | ignores empty and present values, drops the oldest when full, appends; no duplicates and the seen set equals the contents |
| Corpora.RingBuf.Snapshot | internal/lua_engine/checks/access/idor_corpus.go:75-79 | the contents, oldest first |
| Corpora.File | internal/lua_engine/checks/access/idor_corpus.go:161-164 | pushes into the key's own ring, made on first use, and touches no other ring |
| Corpora.Corpus.constructor | internal/lua_engine/checks/access/idor_corpus.go:111-118 | an empty corpus |
| Corpora.Corpus.Count | internal/lua_engine/checks/access/idor_corpus.go:183-198 | counts the value and the parameter under the shape and promotes it once when ripe |
| Corpora.Corpus.Cluster | internal/lua_engine/checks/access/idor_corpus.go:179-198 | files and counts the value under its shape |
| Corpora.Corpus.Classify | internal/lua_engine/checks/access/idor_corpus.go:204-210 | classification under the lowercased name and the learned patterns |
| Corpora.Corpus.Ingest | internal/lua_engine/checks/access/idor_corpus.go:156-199 | one call changes the three ring maps, the records and the learned list as specified and keeps every ring in one place only |
| Corpora.Corpus.ValuesForParam | internal/lua_engine/checks/access/idor_corpus.go:250-257 | the ring of the lowercased name, or nothing |
| Corpora.Corpus.ValuesForPattern | internal/lua_engine/checks/access/idor_corpus.go:226-233 | the ring of the pattern, or nothing |
| Corpora.Corpus.ValuesForShape | internal/lua_engine/checks/access/idor_corpus.go:238-245 | the ring of the shape, or nothing |
| CorpusTheorems.RingIsRecent | internal/lua_engine/checks/access/idor_corpus.go:44-48 | a ring holds the last cap values it let in, oldest first |
| CorpusTheorems.RingHoldsPushed | internal/lua_engine/checks/access/idor_corpus.go:59-73 | a ring has no duplicates or empty values, at most cap entries, and only pushed values |
| CorpusTheorems.ParamRingIsRecent | internal/lua_engine/checks/access/idor_corpus.go:160-164 | a parameter's ring holds the last 32 values let in of those ingested under its lowercased name |
| CorpusTheorems.FamilyRingIs | internal/lua_engine/checks/access/idor_corpus.go:166-171 | a built-in family's ring is the history of the values of that family; learning plays no part |
| CorpusTheorems.ShapeRingIs | internal/lua_engine/checks/access/idor_corpus.go:190-193 | a shape's ring is the history of the values no built-in family takes that have the shape |
| CorpusTheorems.LearnedRingIs | internal/lua_engine/checks/access/idor_corpus.go:166-176 | a learned pattern's ring is the history of the values of its shape that came after it was learned |
| CorpusTheorems.ShapeRingMatches | internal/lua_engine/checks/access/idor_corpus.go:235-237 | every value stored under a shape has it |
| CorpusTheorems.LearnedIsClear | internal/lua_engine/checks/access/idor_patterns.go:112-117 | no learned shape is one the catch-all could match |
| CorpusTheorems.RunIsCharacterized | internal/lua_engine/checks/access/idor_corpus.go:183-198 | after any run a shape is promoted exactly when at least three values no built-in takes have it under at least two names, and the learned list has one entry per promoted shape |
| CorpusTheorems.LearnedExactly | internal/lua_engine/checks/access/idor_corpus.go:183-198 | a shape is learned exactly when at least three values that no built-in rule takes had it, under at least two names |
| CorpusTheorems.ClassificationIsStable | internal/lua_engine/checks/access/idor_patterns.go:61-81 | in every reachable corpus and any order of the patterns, a value's family is its built-in one, else its promoted shape, else none |
| CorpusTheorems.LearnedGenerates | internal/lua_engine/checks/access/idor_patterns.go:126-148 | a learned pattern of a reachable corpus generates exactly want distinct values it accepts, none the seed, whenever it returns |
| CorpusTheorems.IngestionOrderDoesNotMatter | internal/lua_engine/checks/access/idor_corpus.go:120-126 | two runs over the same inputs in different orders learn the same shapes and classify every value alike |
| CorpusTheorems.RigidShapeCanBeLearned | internal/lua_engine/checks/access/idor_corpus.go:195-198 | three separator-only values under two names teach a shape whose pattern, given the values stored under it, never finishes generating |
| Budgets.StepKeeps | internal/httpclient/budget.go:68-95 | every step keeps the invariant of all calls and the counter never drops |
| BudgetTheorems.BudgetHolds | internal/httpclient/budget.go:60-95 | in every interleaving the counter equals the slots handed out and stays within max, sends never outnumber slots, and exhaustion is reported only when all are taken |
| BudgetTheorems.ExhaustionIsFinal | internal/httpclient/budget.go:97-103 | after a reported exhaustion no slot is handed out again |
| BudgetTheorems.SendsPerCall | internal/httpclient/client.go:282-302 | one call sends at most 1 + maxRetries requests, and at most one for a method that may not be retried |
| BudgetTheorems.ResponsesAreFinal | internal/httpclient/client.go:302-360 | a returned retryable status is the last attempt's, or its body was closed because the request body cannot be sent again; failures follow a send |
| BudgetRetries.AnswersDecide | internal/httpclient/client.go:289-359 | whatever other calls do, a call sends one request per answer, goes on only after a 429, a 503 or a transport error, stays within 1 + maxRetries sends for the empty method, GET, HEAD and OPTIONS and one for others, and returns the last response |
| BudgetRetries.RetriesAreUsed | internal/httpclient/client.go:303-359 | while the caller waits and the body, if any, can be sent again, a call fails or ends with a 429 or 503 only when it has used every attempt its method is allowed |
| BudgetRetries.EndingsHaveReasons | internal/httpclient/client.go:289-301 | a call ends without an answer only if a limiter turned it away, every slot is taken, or its method is allowed no attempt |
| BudgetRetries.EverySendWaited | internal/httpclient/client.go:290-301 | every request, retries included, has waited for the host limiter, and for the global one if there is one |
| BudgetTheorems.ClosedResponseCondition | internal/httpclient/client.go:345-358 | some run hands a call a closed response exactly when it may be retried, retries are configured, and it has a body that cannot be rewound |
| BudgetTheorems.StepDropsRank | internal/httpclient/budget.go:82-91 | every step lowers a measure although a granted slot makes other calls' swaps fail |
| BudgetTheorems.RunsAreBounded | internal/httpclient/budget.go:82-91 | no interleaving runs the swap and retry loops longer than the starting measure |
| BudgetTheorems.UnfinishedCanMove | internal/httpclient/client.go:289-359 | a call that is not over can always take a step |
| BudgetTheorems.FailedSwapMeansProgress | internal/httpclient/budget.go:83-90 | a failed compare-and-swap means that a slot was given since the load to another call, and none to this one |
| BudgetTheorems.FinishedAccounts | internal/httpclient/client.go:289-303 | when all calls are over, slots and sends differ by the calls the host limiter turned away |

## Left out

- Cancellation and Close in the scan protocol: the queue class has both, the runs of the workers are uncancelled. The crawl protocol has cancellation.
- Pop's blocking loop: PopAttempt is one pass; waiting and waking are steps of the scan protocol.
- The page cache of ScanAll (internal/scanner/scanner.go:241, 255-258, 277-295): whether a page is fetched is a free choice of the step.
- internal/target and internal/scope: a target is its key, host and URL, and scope a fixed predicate on URLs.
- Parallel checks inside one dispatch (internal/scanner/scanner.go:519-547): their pushes are free steps of the dispatching worker.
- Operations that a spec records under a URL whose canonical form is spelled differently (internal/crawler/crawler.go:394-397): they stay stashed, and the theorems speak of the URL they were recorded under.
- CrawlTheorems.CrawlNeverStalls: the WaitGroup of the spec goroutines is an atomic counter. Go panics ("WaitGroup is reused before previous Wait has returned") when an Add from zero (internal/crawler/crawler.go:197) overtakes a waiter that was released and has not returned yet (internal/crawler/crawler.go:293); that panic is not a step of the model.
- CrawlBounds.CrawlIsBounded: only with a page cap; without one the depth limit and the site decide, which are not modelled.
- ScanAdmission.WelcomeIsAccepted: with a host budget it speaks of runs whose pushes all name a band; an entry outside the bands is not found by seenAnyTier and may count its key twice.
- CrawlBounds.PoolHolds: under cancellation a dropped task counts as held until it has finished.
- A crawl whose reader stops taking pages: sending a page is a step that can always be taken.
- Fetching, HTML and OpenAPI extraction: a page yields an arbitrary list of record and submit actions.
- hasPrefix and hasPrefixFold (internal/lua_engine/reflection.go:284-317) are predicates, not loops; the byte searches of the standard library are their specifications.
- Similarities.Similarity: scores are exact reals; the rounding of float64 is not modelled, so a score within rounding error of 0.97 may fall on the other side.
- The patterns for personal data (internal/lua_engine/checks/access/idor_oracle.go:140-174) are a parameter of IdorJudge, and the wording of explanations is not modelled.
- TimingCompare, the other Generate functions and controlPayloadFor: easy or covered by the learned pattern's.
- Layout of PDF pages (cursor, fonts, escaping, footers): content streams are opaque bytes.
- Text.FieldsKeepAll: whitespace is ASCII; strings.Fields splits at Unicode spaces too.
- Text.FieldsOfBlank: whitespace is ASCII; strings.Fields splits at Unicode spaces too.
- PdfWrap.PdfWrap: whitespace is ASCII; Unicode spaces of strings.Fields are not modelled.
- Text outside ASCII in strings.ToLower and in the regular expressions' \s and \d.
- Diffs.Diff: channels are sequences and a finding is its key, its status and one field for the rest; parsing and writing baselines is not modelled.
- Corpora.Corpus: a shape record is a value written back to its map, not a shared reference; splitting pages into sinks is not modelled.
- Shapes.Generate: the random loop is followed for the draws made so far, as it need not end.
- BudgetTheorems.BudgetHolds: a nil budget and the int64 width of the counter are not modelled; limiter pacing, Retry-After and back-off times are not either.
- fingerprint version ordering: only easy members.
- Lua bindings, headless browser, callback listener, command line, configuration, reporters other than the ones above.
