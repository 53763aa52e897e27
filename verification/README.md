# Verified models of the ingestion and classification protocols

This project models the parts of the repository whose correctness rests on an argument over
many steps: a leased job ledger, a change detector over content-addressed states, a batch state
machine that survives crashes, and two protocols that publish or apply a plan last. It proves
what each part promises, for all inputs, all reachable states or all runs.

One SQL statement or batch is one atomic step. Between steps anything the source allows may
happen: other workers, crashes, retries, resumptions. Clocks, random tokens, model answers and
fetched documents are parameters or arbitrary values. Code that changes rows step by step is a
class whose methods are proved equal to a specification function; the theorems are about those
functions.

| part | files | what is modelled |
|---|---|---|
| Sitemap job ledger | Ledger, LedgerRun, LedgerSafety, LedgerSteps, LedgerTheorems, LedgerHistory, LedgerFencing, LedgerLeases, LedgerLimits, LedgerStore | registration, dispatch, claims, leases, completions and maintenance over sites, jobs, scans and runs |
| Semantic baseline | Comparability | scan snapshots, the verdict, and promotion over committed scans |
| Sitemap walk | Traversal, TraversalSafety, TraversalTheorems | the bounded breadth-first scan of a possibly cyclic index graph |
| Change detection | Entries, Diff, DiffExactness, Fingerprint, Codec, Resources, ResourceSafety, ResourceChecks, ResourceReplay, ResourceOutcomes, ResourceRace, ResourceOverlap, ResourceStale, ConditionalFetch, Engine | sorted states, merge diff, fingerprint payloads, stored states and diffs, overlapping checks, 304 answers |
| Taxonomy assignments | Assignments, AssignmentOutcomes, LateVerification, LeafPool | assignment rows over finalisations, verifications between their statements, and the pool of leaf candidates |
| Acceptance | Acceptance, BatchQuality, BatchReview | the gate for a primary, what of it holds over a whole item's life, and items held for review |
| Batch items | BatchItems, BatchWrites, BatchShape, BatchEvents, BatchOutcomes, BatchProgress, BatchLimits, BatchRows, BatchRecovery, BatchPending, BatchRedo, BatchStore | stages, requests, retries, the JEV fallback, recorded results and their reconciliation |
| Submission | Submission | concurrent submitters that reserve requests before the remote call |
| Search demand | DemandPlan, DemandSource, DemandTotals, DemandTables, DemandPublication, DemandRace, DemandStore, DemandProgress | the keyword projection of a month, its validation and its publication |
| Incident rollback | IncidentPlan, IncidentReport, IncidentEffects, IncidentApply, IncidentSafety, IncidentRuns, IncidentProgress, IncidentLedger | the planner, guarded batches, freezing, resuming and closing |
| Shared | Prelude | options, distinct sequences, counting |

## Where the code does not keep the promise

Each failure comes with the condition under which it happens, both ways, or with a run that ends in it.

* Two completions at one millisecond. The later statements of a completion batch test the finish
  instant, not the token, so a stale completion with the winner's instant and outcome gets
  through; the lease fences exactly when the instants differ (`LedgerFencing.FencingNeedsDistinctInstants`).
  From the empty ledger a run with one such completion ends with two leased jobs of one site
  (`LedgerLimits.RepeatedInstantBreaksSchedule`). The SQLite adapter does not share this
  (`LedgerFencing.AdaptersAgreeOffTheInstant`).
* An expired lease is claimed again whatever the attempt count: attempts pass `max_attempts` exactly
  when a running job that has reached them is claimed (`LedgerLimits.BoundBreaksOnReclaims`,
  `LedgerLimits.AttemptsBoundedWithoutReclaims`), and for every bound and every number beyond it a run
  from the empty ledger gets there (`LedgerLimits.AttemptsPassTheirBound`).
* A baseline's families move on two agreeing scans of which the first was the latest stored, not the
  latest committed one. They are the same unless maintenance prunes the newest scan or a superseded
  job commits under a running one (`Comparability.FamiliesMoveOnConsecutiveAgreement`); a move rests on
  consecutive commits exactly when the scan read gives the same evidence as the one committed last
  (`Comparability.MovesRestOnTheLastCommitted`), which a run of a new site breaks
  (`Comparability.PruningMakesScansNeighbours`).
* The resource limit is tested before a root is found superfluous, so a walk that missed nothing can
  report itself incomplete: exactly when everything left in its queue would have been passed over
  (`TraversalTheorems.FullMissesSomething`, `TraversalTheorems.ReportIsExact`), which takes a limit used up
  by roots and an alternative behind them (`TraversalTheorems.FalseReportsAreOfRoots`,
  `TraversalTheorems.LimitCountsSkippedRoots`).
* A diff determines the new state exactly when the old one gives all entries of a key one lastmod
  (`DiffExactness.DiffDeterminesExactlyForUniformKeys`).
* The recorded diffs of a resource lead to its current URLs at every moment of a run of overlapping
  checks exactly when each check, as it saves its row, replaces one that agrees with the row it had read
  on the URLs its diff depends on (`ResourceOverlap.HistoryHoldsExactly`). A check with an older answer
  that settles after one with a newer answer breaks it (`ResourceStale.StaleCheckBreaksHistory`).
* The chosen term of a tool without a human lock ends primary exactly when a manual row that holds it
  is primary, or, if none holds it, when the run is recorded (`Assignments.ChosenTermEndsPrimary`). A
  verification that a person writes between the statements of a finalisation that read no lock is
  demoted exactly when it precedes the first of them and is on another term
  (`LateVerification.VerificationStaysExactly`); just after the first it leaves two primaries
  (`LateVerification.LateVerificationLeavesTwo`).
* An item that has not ended can be left behind: pending, without a retry, and with no open request of
  its stage, which is exactly when no event can advance it (`BatchProgress.UnendedItemsCanAdvance`). The
  pass that creates an item leaves it so exactly when it is cut before it has queued the request of the
  item's stage, and then nothing ever moves the item (`BatchProgress.CutBirthsAreLeftBehind`), as a capture does that has only stored its text
  (`BatchProgress.CutCaptureIsLeftBehind`).
* An item recovered from upstream metadata is held for review for good exactly when it is not left
  pending on a source retry (`BatchReview.UpstreamEndsInReview`), which a crash of the recovery
  brings about (`BatchReview.RecoveryIsForGood`); a run of such an item ends in an accepted primary
  (`BatchReview.RecoveredItemIsAccepted`).
* A result that was recorded and then cut short is repaired by reconciliation exactly when its item was
  running (`BatchPending.RepairedExactlyIfRunning`). A waiting item needs its resumption, which applies a
  success (`BatchPending.ResumedSuccessIsApplied`) and forgets a failure
  (`BatchPending.ResumedFailureIsForgotten`); a new item has none (`BatchPending.NewItemsAreLeftBehind`).
* After a profile result, a crash in the window in which the source text is gone is repaired
  exactly when the parser would have built the same profile without it
  (`BatchRecovery.ProfileWindowRebuildsUngrounded`).
* Each failure so forgotten costs a request: a stage gets at most `max_attempts` requests and one for
  every result lost on a waiting item (`BatchProgress.RequestsStayBounded`), and the bound is reached for
  any number of them (`BatchLimits.LostFailuresPassTheBound`). As long as none is lost, the capability
  stage gets one request more than `max_attempts` exactly when JEV fails at the last attempt allowed
  (`BatchLimits.OnlyJevFailurePassesTheBound`), and for every bound a run of a new item gets there
  (`BatchLimits.ExtraRequestIsReached`).
* Publishing without the file lock can put one publisher's plan over another's rows: a run of two
  (`DemandRace.UnlockedPublishersMix`); under the lock it cannot (`DemandPublication.PublishedRowsAreThePlan`).
  Row validation relies on the tables' unique keys: with them it accepts exactly the plan's rows
  (`DemandTables.ValidateAcceptsThePlan`), without them it may not (`DemandTables.RepeatedRowsDeceive`).
* The planner lets a member with a manual entity decision be "protected untouched", and the report and
  the validation admit it exactly when its provenance is beyond doubt
  (`IncidentReport.DecidedMembersAreAdmitted`). The guard of its own batch then fails, so the incident is
  never closed while the decision stands (`IncidentProgress.DecidedMembersKeepItOpen`); undisturbed batches close
  an incident exactly when every guard of every pending member holds
  (`IncidentLedger.RollbackLedger.ApplyBatches`).

## Model

| member | source | states |
|---|---|---|
| LedgerTheorems.OneLiveJobPerSite | sitemap_monitor/cloudflare.py:378-955 | from the empty ledger, over every interleaving, a live job of the current schedule is the job of the next check of an active site, and it and its unexpired lease are the only ones of that site |
| LedgerTheorems.MaintenanceSparesCurrentJob | sitemap_monitor/cloudflare.py:279-298 | no maintenance pass changes or deletes a live job of the current schedule |
| LedgerTheorems.ScheduleNeverReturns | sitemap_monitor/cloudflare.py:379-459 | every step moves a site's schedule on: its version never falls, and within a version the next check never goes back |
| LedgerTheorems.SlotEndsAtMostOnce | sitemap_monitor/cloudflare.py:635-691 | over a whole run a (site, scheduled time, version) slot succeeds or dies at most once, pruned rows included |
| LedgerTheorems.MaintenanceKeepsReferences | sitemap_monitor/cloudflare.py:259-377 | for any rows within the limits: no baseline scan of a site or of a surviving scan, no scan behind a surviving baseline or changed run, and no job with a surviving scan is deleted |
| LedgerTheorems.BaselinePointerIsCommitted | sitemap_monitor/cloudflare.py:807-848 | over any run a site's baseline pointer is null or a committed scan of that site |
| LedgerHistory.CompletionTells | sitemap_monitor/cloudflare.py:783-955 | a completion that holds the lease of a current job, row by row: status, lease, retry and errors of the job, the scan inserted, and next check, streak, dispatch, baseline and times of the site; no other row changes |
| LedgerHistory.BaselineIsLastPromoted | sitemap_monitor/cloudflare.py:807-848 | over every legal run the baseline pointer is the scan that a success of the then current schedule promoted last |
| LedgerHistory.StreakCountsDeaths | sitemap_monitor/cloudflare.py:853-915 | over every legal run the error streak is the number of current jobs that died since one succeeded |
| LedgerHistory.SiteTellsItsRun | sitemap_monitor/cloudflare.py:783-955 | corollary: both over every run from the empty ledger |
| LedgerSafety.RunKeepsInv | sitemap_monitor/cloudflare.py:378-955 | the inductive invariant behind the ledger theorems holds after every legal run |
| LedgerSafety.CompleteKeepsInv | sitemap_monitor/cloudflare.py:783-955 | a completion, fresh or stale, keeps the invariant unless it repeats the recorded instant and outcome |
| LedgerFencing.FencingNeedsDistinctInstants | sitemap_monitor/cloudflare.py:783-955 | a completion with an out-of-date token is without effect if and only if the row does not already carry its outcome at its instant |
| LedgerFencing.AdaptersAgreeOffTheInstant | sitemap_monitor/storage.py:882-1027 | the D1 and SQLite completions agree if and only if that coincidence is absent |
| LedgerFencing.StaleRenewalIsIdle | sitemap_monitor/cloudflare.py:757-781 | corollary: only the holder of the lease, under its own name, can renew it; a renewal changes the expiry only |
| LedgerFencing.SupersededCompletionKeepsSites | sitemap_monitor/cloudflare.py:817-848 | corollary: a valid token of a superseded schedule ends its job and leaves every site as it was |
| LedgerFencing.ResentCompletionIsIdle | sitemap_monitor/cloudflare.py:783-955 | the winner's own completion, sent once more, changes nothing |
| LedgerLimits.RepeatedInstantBreaksSchedule | sitemap_monitor/cloudflare.py:817-848 | a run from the empty ledger, legal but for one stale completion of equal instant, ends with two jobs of one site's current schedule, both leased |
| LedgerLimits.BoundBreaksOnReclaims | sitemap_monitor/cloudflare.py:693-755 | a step takes attempts past max_attempts if and only if it claims a running job that has reached them |
| LedgerLimits.AttemptsBoundedWithoutReclaims | sitemap_monitor/cloudflare.py:693-755 | throughout a legal run attempts stay bounded if and only if no step does |
| LedgerLimits.AttemptsPassTheirBound | sitemap_monitor/cloudflare.py:693-755 | for every bound and every number of attempts beyond it, a legal run from the empty ledger that gets there |
| LedgerLeases.LeasesNeverOverlap | sitemap_monitor/cloudflare.py:693-781 | under a monotone clock two tokens never entitle to one job at one time |
| LedgerLeases.RunKeepsLeases | sitemap_monitor/cloudflare.py:693-781 | the history of leases stays consistent with the rows over every timely run |
| LedgerLeases.NextCheckLiesAhead | sitemap_monitor/scheduler.py:149-190 | the next check a scheduler computes lies after the slot it finishes, for every jitter sample |
| LedgerLeases.DelaysFillTheirWindow | sitemap_monitor/scheduler.py:149-156 | a delay is one within the jitter ratio of its seconds, at least a second if it is moved at all, and every such delay is some sample's |
| LedgerSteps.RegistrationTells | sitemap_monitor/cloudflare.py:379-459 | a registration adds an active site that is due at once, or reconfigures a changed one under a new version, keeping its history, or does nothing |
| LedgerSteps.StatusChangeTells | sitemap_monitor/cloudflare.py:532-562 | a change of status needs the expected one; version, next check and dispatch after it |
| LedgerSteps.DispatchTells | sitemap_monitor/cloudflare.py:580-633 | only active, due, undispatched sites are dispatched, within the limit, each under its own token |
| LedgerSteps.DispatchRecordsTell | sitemap_monitor/cloudflare.py:580-633 | each dispatch token is new and stands for the slot and version its site had |
| LedgerSteps.EnqueueTells | sitemap_monitor/cloudflare.py:635-691 | a slot gets a fresh pending job with the site's streak exactly if the site carries that dispatch token and version and the slot has none |
| LedgerSteps.GrantsTell | sitemap_monitor/cloudflare.py:580-755 | who may be dispatched and who may be claimed, each exactly |
| LedgerSteps.ClaimedJobTells | sitemap_monitor/cloudflare.py:693-755 | the row of a claimed job, field by field |
| LedgerSteps.ClaimTells | sitemap_monitor/cloudflare.py:693-755 | a claim touches no other job and no other table |
| LedgerSteps.RenewalTells | sitemap_monitor/cloudflare.py:757-781 | the one lease a renewal moves, and when it moves it |
| LedgerSteps.MaintenanceTells | sitemap_monitor/cloudflare.py:259-377 | a pass expires outdated jobs as superseded and otherwise only deletes what it picked |
| LedgerSteps.PrunablesTell | sitemap_monitor/cloudflare.py:299-377 | which jobs may be expired and which runs, scans and jobs may be deleted, each exactly |
| LedgerSteps.PrunedRunTells | sitemap_monitor/cloudflare.py:301-317 | a deleted run is old and is neither a baseline nor a change |
| LedgerSteps.PrunedScanTells | sitemap_monitor/cloudflare.py:318-349 | a deleted scan is old, signals nothing, and no site, scan or kept baseline or changed run refers to it |
| LedgerSteps.PrunedJobTells | sitemap_monitor/cloudflare.py:350-369 | a deleted job has ended, is old, and no kept scan is of it |
| LedgerSteps.RecordingTells | sitemap_monitor/cloudflare.py:1178-1222 | a run is recorded once under its id |
| LedgerStore.MetadataStore.EnsureSite | sitemap_monitor/cloudflare.py:379-459 | registration and reconfiguration as one upsert: the new rows are the specification's |
| LedgerStore.MetadataStore.SetSiteStatus | sitemap_monitor/cloudflare.py:532-562 | a status change takes effect only from the expected status and bumps the schedule as specified |
| LedgerStore.MetadataStore.ClaimDueSites | sitemap_monitor/cloudflare.py:580-633 | due sites, and no others, get a dispatch lease |
| LedgerStore.MetadataStore.EnsureJob | sitemap_monitor/cloudflare.py:635-691 | a dispatched slot yields its one job, new or existing |
| LedgerStore.MetadataStore.ClaimJobs | sitemap_monitor/cloudflare.py:693-755 | claimable jobs of the current schedule get fresh leases |
| LedgerStore.MetadataStore.RenewJobLease | sitemap_monitor/cloudflare.py:757-781 | the renewal and its verdict |
| LedgerStore.MetadataStore.FinishJobSuccess | sitemap_monitor/cloudflare.py:783-851 | the three statements of a success come to the specified completion |
| LedgerStore.MetadataStore.FinishJobFailure | sitemap_monitor/cloudflare.py:853-955 | the same for retries and dead ends |
| LedgerStore.MetadataStore.PerformMaintenance | sitemap_monitor/cloudflare.py:259-377 | expiry and the three deletions, one after the other |
| Comparability.SnapshotCounts | sitemap_monitor/comparability.py:60-112 | a snapshot counts a success exactly for a successful scan, and is complete exactly when the walk was and everything attempted was fetched |
| Comparability.SnapshotTells | sitemap_monitor/comparability.py:60-112 | every field of a snapshot over the scan's outcomes: attempts, successes, families, fetches of each URL and listed URLs; failed roots of a fallback scan are no attempts |
| Comparability.StepTells | sitemap_monitor/cloudflare.py:223-257 | one step of a site's history: what is stored, judged, pruned, and when the baseline moves |
| Comparability.AssessComparability | sitemap_monitor/comparability.py:136-219 | status, promotion, coverage, the baseline compared with, and exactly the reasons that apply, none twice |
| Comparability.StatusTells | sitemap_monitor/comparability.py:153-190 | each status if and only if its condition on successes, families and URL counts, in whole numbers |
| Comparability.CoverageTells | sitemap_monitor/comparability.py:115-151 | the coverage is the lesser of the share of attempts that succeeded and the share of the baseline's families seen |
| Comparability.Judge | sitemap_monitor/comparability.py:153-195 | the branches that fix status and promotion |
| Comparability.BaselineNeverIncomplete | sitemap_monitor/cloudflare.py:223-257 | over every interleaving of scans, retries and maintenance the baseline is a stored, complete scan |
| Comparability.BaselineOfARunIsComplete | sitemap_monitor/comparability.py:136-219 | so it is after any run of a new site |
| Comparability.FamiliesMoveOnlyOnAgreement | sitemap_monitor/comparability.py:172-195 | with a baseline in place, its family set moves if and only if the committed scan agrees in families and verdict with the latest stored scan, and that is not the baseline |
| Comparability.AlternatingSetsNeverPromote | sitemap_monitor/comparability.py:172-195 | family sets that alternate never become the baseline, whatever is pruned |
| Comparability.TwoAgreeingScansSettle | sitemap_monitor/comparability.py:136-219 | corollary: two complete scans in a row with equal families and URL count leave the baseline at that family set |
| Comparability.SameVerdict | sitemap_monitor/comparability.py:115-205 | corollary: scans that agree in families and URL count get one verdict |
| Comparability.MovesRestOnTheLastCommitted | sitemap_monitor/comparability.py:172-195 | a move of the family set rests on two consecutive committed scans if and only if the scan the job read gives the same evidence as the one committed last |
| Comparability.UndisturbedRunsReadLast | sitemap_monitor/cloudflare.py:223-257 | over runs that spare the newest scan and commit no superseded job under a running one, the scan read is the one committed last |
| Comparability.FamiliesMoveOnConsecutiveAgreement | sitemap_monitor/comparability.py:172-195 | over every such run of a new site the family set moves if and only if the last two committed scans agree and the earlier is not the baseline |
| Comparability.PruningMakesScansNeighbours | sitemap_monitor/cloudflare.py:299-370 | a run of a new site after which pruning a partial scan lets a commit promote that the scan committed before it contradicts |
| TraversalTheorems.NoUrlTwice | sitemap_monitor/engine.py:536-587 | a walk of any index graph checks no URL twice and no more than the limit |
| TraversalTheorems.WalkStaysWithinReach | sitemap_monitor/engine.py:536-587 | only what lies within max depth same-site links of a checked root is checked |
| TraversalTheorems.WalkCoversItsReach | sitemap_monitor/engine.py:536-587 | unless the resource limit is hit, exactly that is checked, each URL at its shortest distance |
| TraversalTheorems.CompleteMeansClosed | sitemap_monitor/engine.py:562-587 | a complete traversal is closed under same-site children of indexes; below the limit the report is exact both ways |
| TraversalTheorems.RootsOfAWalk | sitemap_monitor/engine.py:470-560 | the checked roots are the authoritative ones and the alternatives no earlier root made unnecessary |
| TraversalTheorems.AuthoritativeRootsAreChecked | sitemap_monitor/engine.py:536-560 | no authoritative root is ever skipped |
| TraversalTheorems.FullMissesSomething | sitemap_monitor/engine.py:536-560 | a walk that reports the resource limit has missed something if and only if an item left in its queue would not have been passed over |
| TraversalTheorems.ReportIsExact | sitemap_monitor/engine.py:536-587 | a walk reports no reason if and only if it missed nothing and was not broken off over items to be passed over; without alternatives the report is exact |
| TraversalTheorems.ReasonsTell | sitemap_monitor/engine.py:540-551 | the resource limit is reported only once used up; short of it the depth limit is reported exactly if a child of something visited is not |
| TraversalTheorems.FalseReportsAreOfRoots | sitemap_monitor/engine.py:536-560 | a false report checked exactly the roots that count, as many as the limit, and left an unvisited alternative |
| TraversalTheorems.LimitCountsSkippedRoots | sitemap_monitor/engine.py:536-560 | such a walk |
| TraversalTheorems.FallbackIsTold | sitemap_monitor/engine.py:540-581 | a walk reports the fallback if and only if nothing was authoritative or a fallback root was checked and did not fail |
| TraversalTheorems.PlannedScans | sitemap_monitor/engine.py:505-587 | for a scan as it is planned: short of the limit every authoritative root is checked, with explicit sitemaps the report is exact, else only an unvisited common path makes it false |
| TraversalTheorems.PlansTell | sitemap_monitor/engine.py:505-528 | the roots of a scan, their order, and which are only alternatives |
| TraversalTheorems.ChildrenTell | sitemap_monitor/engine.py:566-577 | the children of an index are its links that stay on the site, in order |
| TraversalTheorems.WalkFollowsAnswers | sitemap_monitor/engine.py:536-587 | helper of ConditionalFetch: services that answer alike are walked alike |
| Entries.SortIsStable | sitemap_monitor/fingerprint.py:12-29 | sorting orders, keeps every entry, and keeps the order of entries of one key |
| Entries.SortTells | sitemap_monitor/codec.py:19-32 | entries are stored by hash first, then by URL |
| Diff.DiffStates | sitemap_monitor/diff.py:12-50 | the merge loop over two indices computes the specified diff |
| Diff.DiffAtKey | sitemap_monitor/diff.py:12-50 | key by key, entries pair in input order and the rest is added or removed |
| Diff.DiffIsMultisetDifference | sitemap_monitor/diff.py:12-50 | added is new minus old and removed is old minus new as multisets of keys, modified keys are in both |
| Diff.SwapSwapsAddedAndRemoved | sitemap_monitor/diff.py:12-50 | swapping the states swaps added and removed |
| Diff.ReplayRestores | sitemap_monitor/diff.py:12-50 | replaying the diff on the old state gives the new one up to raw URLs |
| DiffExactness.DiffDeterminesExactlyForUniformKeys | sitemap_monitor/diff.py:8-50 | a diff determines the new state up to raw URLs if and only if the old one has one lastmod per key |
| Fingerprint.UrlsetPayloadTells | sitemap_monitor/fingerprint.py:12-21 | equal URL-set payloads if and only if equal sequences of hashes |
| Fingerprint.MetadataPayloadTells | sitemap_monitor/fingerprint.py:12-21 | equal metadata payloads if and only if equal hashes and lastmods, None and "" alike, line breaks in a lastmod included; no lastmod holds U+0000, which XML cannot carry |
| Fingerprint.MetadataDecidesUrlset | sitemap_monitor/fingerprint.py:12-21 | then equal metadata payloads give equal URL-set payloads |
| Codec.DecodeState | sitemap_monitor/codec.py:34-78 | the decoding loop, with its limits and its hash check |
| Codec.StateRoundTrip | sitemap_monitor/codec.py:19-78 | decoding an encoded state gives its sorted entries if and only if it fits the limits and every entry carries its URL's hash |
| Codec.RefusalsTell | sitemap_monitor/codec.py:34-78 | what a stored state is refused for, in which order, and the entries it reads back as |
| ResourceSafety.PrefixKeepsInv | sitemap_monitor/engine.py:300-467 | wherever a crash cuts a check's writes, every current state exists, decodes, and matches its row's fingerprints |
| ResourceChecks.CheckIsSafe | sitemap_monitor/engine.py:186-467 | every write of a check is one that keeps this |
| ResourceChecks.PreviousStateNeverFails | sitemap_monitor/engine.py:317-400 | the failures of a lost or unreadable previous state never occur |
| ResourceChecks.CurrentStatesExist | sitemap_monitor/engine.py:186-467 | the invariant over any sequence of checks, one after the other, each cut anywhere |
| ResourceReplay.ReplayGivesCurrent | sitemap_monitor/engine.py:317-467 | over checks that do not overlap, without a crash between a saved row and its recorded run, the recorded diffs replayed on the baseline give the current URLs |
| ResourceRace.CurrentStatesExist | sitemap_monitor/engine.py:186-467 | however checks overlap and wherever they stop, every current state exists, decodes and matches its row, and no run reports a lost or unreadable previous state |
| ResourceRace.AloneIsCheck | sitemap_monitor/engine.py:300-467 | a check in flight that nothing disturbs performs the writes of a check |
| ResourceOverlap.SettleKeepsHistoryExactly | sitemap_monitor/engine.py:399-467 | a check's row and run carry the history on if and only if the row replaced has, of the URLs now listed, those the check had read, and no others beyond them |
| ResourceOverlap.HistoryHoldsExactly | sitemap_monitor/engine.py:186-467 | over any overlapping checks with new run ids, none stopped between row and run, the recorded diffs lead to the current URLs at every moment if and only if every check settles so |
| ResourceOverlap.HistoryFromTheStart | sitemap_monitor/engine.py:186-467 | corollary: so it is over every such run of a new site |
| ResourceStale.StaleCheckBreaksHistory | sitemap_monitor/engine.py:186-467 | for every document with a URL, a run of a new resource in which an older answer settles last and the history goes wrong |
| ConditionalFetch.ScanIsForeseen | sitemap_monitor/engine.py:536-587 | a scan walks and reports as its starting store and the answers foretell |
| ConditionalFetch.SameReport | sitemap_monitor/engine.py:215-250 | a 304 and the body it stands for report the same |
| ConditionalFetch.HonestCacheIsInvisible | sitemap_monitor/engine.py:175-250 | a scan served by honest 304 answers visits and reports the same as one that refetches (section 15.4.5 of RFC 9110) |
| Engine.SitemapMonitor.CheckResource | sitemap_monitor/engine.py:186-298 | one check performs the specified writes and returns the specified outcome |
| ResourceOutcomes.FailureTells | sitemap_monitor/engine.py:136-173 | a failed check records its run under the failure of its answer, and writes nothing else |
| ResourceOutcomes.UnchangedTells | sitemap_monitor/engine.py:215-250 | a 304 refreshes the validators it brings, and reports what is stored |
| ResourceOutcomes.DocumentTells | sitemap_monitor/engine.py:300-467 | a document: the row, the objects added, the kind of run, and for a change the URLs that came and went, with the report |
| ResourceOutcomes.LostStateTells | sitemap_monitor/engine.py:396-432 | a change against a lost or unreadable state: what is stored, and the failure that is recorded |
| Engine.SitemapMonitor.ApplyFingerprint | sitemap_monitor/engine.py:300-467 | baseline, unchanged and changed paths: objects first, then the row, then the run |
| Engine.SitemapMonitor.ScanSite | sitemap_monitor/engine.py:470-587 | the loop over the queue computes the specified scan; the fallback flag is set if and only if nothing was authoritative or a fallback root was checked and did not fail |
| Assignments.FinalisationsKeepPrimaryAndVerified | taxonomy_shadow.py:1765-1900 | over any finalisations a tool keeps at most one primary, and every manual verified row up to its timestamp |
| Assignments.FinalisationKeeps | taxonomy_batch.py:2448-2513 | the same for one finalisation, which establishes one primary when no human holds it |
| Assignments.ChosenLeafIsPrimary | taxonomy_shadow.py:1800-1900 | without a human lock the chosen leaf is the only primary if and only if no manual non-primary row holds its term |
| Assignments.ChosenTermEndsPrimary | taxonomy_shadow.py:1695-1730 | without a human lock the chosen term ends primary if and only if the manual row that holds it is primary, or none holds it and the run is recorded |
| Assignments.OtherAutoRowsAreSuperseded | taxonomy_shadow.py:1695-1730 | every other automatic row of the dimensions that is not of this run ends superseded or was not pending |
| Assignments.LateVerificationIsDemoted | taxonomy_shadow.py:1818-1861 | a finalisation that read no lock keeps every verification there is before its first write if and only if all locking rows are on the chosen term |
| LateVerification.VerificationStaysExactly | taxonomy_batch.py:2448-2513 | a verification written at any moment of a finalisation, among any other rows people write, stays if and only if the finalisation saw a lock, its first statement had run, or it is on the chosen term |
| LateVerification.LateVerificationLeavesTwo | taxonomy_shadow.py:1818-1900 | one that arrives just after the demotion, on another term, leaves the tool with two primaries |
| Assignments.LoadVerifiedManualPrimary | taxonomy_shadow.py:1765-1786 | true if and only if a manual verified primary exists |
| Assignments.ToolAssignments.UpsertAssignment | taxonomy_shadow.py:1800-1900 | demotion of other primaries, then the upsert that spares manual rows |
| Assignments.ToolAssignments.SupersedeAutoAssignments | taxonomy_shadow.py:1695-1762 | row by row: a pending automatic row of the dimensions and of another run is superseded and not primary, every other row is unchanged |
| Assignments.ToolAssignments.FinalizeClassification | taxonomy_batch.py:2448-2513 | the assignment writes of a finalisation, in order |
| AssignmentOutcomes.FinalisedTells | taxonomy_batch.py:2448-2513 | a finalisation row by row: other primaries give way unless a person holds the tool, the decision's rows are written over what is not manual, and what else waits is superseded |
| LeafPool.BuildLeafCandidatePool | taxonomy_shadow.py:1110-1130 | the pool holds each child of a recalled market, or the market when it is a leaf, once and in order of first offer |
| LeafPool.PoolTells | taxonomy_shadow.py:1110-1130 | who is in the pool, once, and in which order, over the markets and their children |
| Acceptance.PrimaryAcceptance | taxonomy_precision.py:66-121 | exactly the reasons that apply, each once and in order, eligible and auto_accepted if and only if there is none, else provisional or unresolved by the confidence |
| Acceptance.LeafReasons | taxonomy_precision.py:93-119 | exactly the reasons that depend on the leaf and apply, in order |
| Acceptance.EligibleMeansNoReason | taxonomy_precision.py:66-121 | the gate as one condition is met if and only if no reason applies |
| Acceptance.EligibleIsAutoAccepted | taxonomy_shadow.py:1304-1314 | an eligible decision gets auto_accepted, above the least confidence |
| Acceptance.GapIsOfTheTopTwo | taxonomy_precision.py:99-101 | the gap compared is that of the two largest confidences |
| Acceptance.GateTells | taxonomy_precision.py:66-121 | the whole gate in plain terms: confidence and threshold, grounding, entity, workflow, a parent market recalled with half a weight, one hit ahead of all others by the gap, detection |
| Acceptance.AmbiguityTells | taxonomy_precision.py:99-101 | hits are ambiguous exactly if none is ahead of all others by the gap |
| BatchQuality.AutoAcceptedPassedTheGate | taxonomy_batch.py:2323-2347 | every auto_accepted primary a result writes passed the gate on the data then stored, with no human lock |
| BatchReview.UpstreamEndsInReview | taxonomy_batch.py:993-1092 | an item recovered from upstream metadata stays in review over all events, and writes no assignment, if and only if it was not left pending on a source retry |
| BatchReview.RecoveryIsForGood | taxonomy_batch.py:993-1092 | for every exhausted capture with upstream evidence, cut anywhere from then on: review for good if and only if no source retry stood or the first question was asked to its end |
| BatchReview.RecoveredItemIsAccepted | taxonomy_batch.py:1231-1292 | a run of a new item whose cut recovery is captured again and ends with an auto_accepted primary |
| BatchReview.RecoveryStartsReview | taxonomy_batch.py:993-1163 | every exhausted capture, retryable or not, with upstream evidence puts the item into review, and leaves a standing source retry exactly when cut short |
| BatchReview.UpstreamIsNeverEligible | taxonomy_precision.py:66-86 | the gate refuses such an item |
| BatchProgress.RequestsStayBounded | taxonomy_batch.py:846-936 | from the pass that creates an item, over any events, all cut anywhere: per stage only the newest request may be open, and there are at most max_attempts and one for every result lost on a waiting item (one more only behind JEV's) |
| BatchEvents.EventKeepsInv | taxonomy_batch.py:846-1228 | results, reconciliations, resumptions, submissions and renewed captures, each cut after any write, keep the invariant |
| BatchLimits.OnlyJevFailurePassesTheBound | taxonomy_batch.py:2583-2640 | as long as no result was lost, an event takes a stage past max_attempts requests if and only if it is JEV's failure at the last attempt of the capability stage, carried as far as the next request |
| BatchLimits.ExtraRequestIsReached | taxonomy_batch.py:2583-2640 | for every allowed bound a run of a new item that gets there |
| BatchLimits.LostFailuresPassTheBound | taxonomy_batch.py:1200-1228 | for every bound and every number of lost failures a run of a new item that reaches the sum |
| BatchProgress.StaleResultIsIdle | taxonomy_batch.py:2641-2700 | corollary: a result writes nothing if and only if it is of no request, an older attempt, another stage or an ended item |
| BatchProgress.RunKeepsInv | taxonomy_batch.py:846-1228 | the invariant of items and requests over any events, cut anywhere, up to the results they lose |
| BatchProgress.EventShrinks | taxonomy_batch.py:2583-2837 | no event raises the measure, cut or not, and each that advances the item lowers it |
| BatchProgress.UnendedItemsCanAdvance | taxonomy_batch.py:1231-1460 | an item that has not ended has an event that advances it if and only if it runs, waits for a model or source retry, or has an open request of its stage |
| BatchProgress.CutBirthsAreLeftBehind | taxonomy_batch.py:1478-1732 | the pass that creates an item leaves it without such an event if and only if it is cut before the request of the item's stage is queued; then the item never moves |
| BatchProgress.LeftBehindStays | taxonomy_batch.py:1231-1460 | only a second answer to a closed request moves an item left behind |
| BatchProgress.ItemsEnd | taxonomy_batch.py:2641-2837 | however events come and wherever they are cut, an item takes only finitely many that advance it |
| BatchRows.RowsRedo | taxonomy_batch.py:2448-2513 | after any prefix of a finalisation's row statements, all of them give what one run gives |
| BatchRows.LockKept | taxonomy_shadow.py:1765-1786 | the human lock reads the same after any such prefix |
| BatchRecovery.RowWritesFinalise | taxonomy_batch.py:2448-2513 | performed in full they are the finalisation of the assignment table |
| BatchOutcomes.ProfileLeads | taxonomy_batch.py:2710-2753 | a profile asks for the markets if and only if the entity is accepted, eligible and has a signal; else the item ends skipped or partial |
| BatchOutcomes.MarketLeads | taxonomy_batch.py:2754-2779 | a market answer is escalated if and only if it has no hit, a first hit below 0.55, or two hits closer than the gap; after escalation it ends in review if and only if it has no hit, else the leaf is asked |
| BatchOutcomes.LeafLeads | taxonomy_batch.py:2780-2826 | a leaf is escalated if and only if it does not stand; after escalation it ends in review if and only if it is not eligible; else capabilities are asked or the item is finalised |
| BatchOutcomes.CapabilityLeads | taxonomy_batch.py:2827-2836 | capabilities are stored and the item is finalised with its leaf, the decision spelled out, or ends in review without an eligible one |
| BatchOutcomes.FailureLeads | taxonomy_batch.py:2583-2640 | where each failure leads: JEV's fallback, a retry, an escalation model, a finalisation without capabilities, or review |
| BatchOutcomes.CaptureLeads | taxonomy_batch.py:1664-1705 | a captured text is stored and the profile asked for |
| BatchOutcomes.ReuseLeads | taxonomy_batch.py:1624-1663 | a reused profile is set and the markets asked for |
| BatchOutcomes.SeedingLeads | taxonomy_batch.py:1230-1290 | only an item that waits for its source is fetched again, and only a profile of its own with a signal is reused |
| BatchOutcomes.RecoveryLeads | taxonomy_batch.py:993-1092 | a recovery stores the upstream profile and asks for the markets |
| BatchOutcomes.FailedCaptureLeads | taxonomy_batch.py:1095-1163 | a failed capture waits while attempts are left, else is recovered from evidence, else ends in review |
| BatchOutcomes.ResumptionLeads | taxonomy_batch.py:1200-1228 | a waiting item is asked at its stage, any other is left alone |
| BatchOutcomes.ReconciliationLeads | taxonomy_batch.py:3144-3182 | a reconciliation is the recorded result of the newest request of the item's stage, applied again |
| BatchOutcomes.SubmissionLeads | taxonomy_batch.py:1889-2037 | a submission marks its one queued request and nothing else |
| BatchOutcomes.JevLeads | jev_taxonomy.py:70-110 | JEV takes the newest queued request of a running capability stage exactly if it never had one of that stage |
| BatchRecovery.CrashedResultIsRepaired | taxonomy_batch.py:3144-3182 | a result of a running item, cut after any write but the last and then reconciled, ends as if uncut, up to one unused classification run; for a profile outside its window |
| BatchRecovery.RestIsRepaired | taxonomy_batch.py:2641-2837 | the same for every cut after the result was recorded |
| BatchPending.RepairedExactlyIfRunning | taxonomy_batch.py:3144-3182 | a recorded and cut result is repaired by the next reconciliation if and only if the item was running |
| BatchPending.ResumedSuccessIsApplied | taxonomy_batch.py:1200-1228 | on a waiting item the resumption and the next reconciliation apply a recorded success as to a running one |
| BatchPending.ResumedFailureIsForgotten | taxonomy_batch.py:1200-1228 | a recorded failure is never applied: the resumption goes on with one more request |
| BatchPending.NewItemsAreLeftBehind | taxonomy_batch.py:3144-3182 | a new item whose result is cut is left behind |
| BatchRedo.CutsConverge | taxonomy_batch.py:3144-3182 | a recorded result of a running item cut anywhere, then any number of reconciliations each cut anywhere, then a whole one: as if uncut, up to classification runs nothing refers to; with no later stage answered already, and after a cut that loses the source of a profile with a parser that builds the same without it |
| BatchRedo.NothingLostNothingAnswered | taxonomy_batch.py:846-936 | as long as no result was lost, no later stage of an unended item is answered already |
| BatchRedo.RedoneStays | taxonomy_batch.py:3144-3182 | what keeps this true through any sequence of cut reconciliations |
| BatchRecovery.ProfileWindowRebuildsUngrounded | taxonomy_batch.py:2732-2746 | inside the window the cut is repaired if and only if the parser builds the same profile without the source text |
| BatchStore.TaxonomyItem.ApplyRequestResult | taxonomy_batch.py:2641-2837 | the branches perform the specified list of writes |
| BatchStore.TaxonomyItem.ReconcileRecordedResult | taxonomy_batch.py:3144-3182 | re-applying the recorded result performs the specified writes |
| BatchStore.TaxonomyItem.Enqueue | taxonomy_batch.py:846-936 | request and stage move as specified |
| BatchStore.TaxonomyItem.StoreCapture | taxonomy_batch.py:1664-1705 | text, request and stage, in that order |
| BatchStore.TaxonomyItem.ReuseProfile | taxonomy_batch.py:1624-1663 | a profile stored elsewhere takes the item to its first question |
| BatchStore.TaxonomyItem.ScheduleSourceRetry | taxonomy_batch.py:1095-1163 | a failed capture waits for its next attempt exactly while one is left, else is counted and ends or recovers the item |
| BatchStore.TaxonomyItem.RecoverWithUpstream | taxonomy_batch.py:993-1092 | the recovery performs the specified writes |
| BatchStore.TaxonomyItem.ResumeModelRetry | taxonomy_batch.py:1200-1228 | the resumption performs the specified writes |
| BatchStore.TaxonomyItem.FinalizeClassification | taxonomy_batch.py:2289-2535 | the specified writes of a finalisation |
| BatchStore.TaxonomyItem.ScheduleModelRetry | taxonomy_batch.py:1166-1197 | true if and only if the fault is retryable, an attempt is left and the item stands at the stage; then the item waits for that retry, else nothing changes |
| BatchStore.TaxonomyItem.HandleStageFailure | taxonomy_batch.py:2583-2640 | the branches of a stage failure perform the specified move |
| Submission.NoRequestIsHandedOutTwice | taxonomy_batch.py:1889-2037 | with any number of submitters, crashes and failures, no request is in two remote batches, two JEV jobs, or one of each |
| Submission.HandedOutStays | taxonomy_batch.py:1803-1846 | what left the system stays recorded as that job's |
| Submission.ReservationIsAllOrNothing | taxonomy_batch.py:1745-1788 | a counted reservation holds everything wanted, or is released; one that a database error breaks off anywhere is released |
| Submission.FullCountIsAll | taxonomy_batch.py:1760-1788 | the count equals the number wanted if and only if every wanted request is held |
| Submission.RequestTable.ReserveRequests | taxonomy_batch.py:1745-1788 | chunked reservation, undisturbed: all rows or none, true exactly when all were free |
| Submission.StartingTells | taxonomy_batch.py:1889-2037 | a submitter starts under a job of its own, and reserves nothing yet |
| Submission.ReservingTells | taxonomy_batch.py:1745-1788 | a chunk takes the free requests of its ids, or the reservation is released |
| Submission.HandingTells | taxonomy_batch.py:1889-2037 | what leaves the system with each acceptance |
| Submission.RejectionTells | taxonomy_batch.py:1889-2037 | what a rejected call leaves of its requests |
| DemandPlan.MakePlan | search_demand_refresh.py:69-127 | a plan exists if and only if every row is sound and something was observed; it then fits the source reading |
| DemandPlan.ReadObservations | search_demand_refresh.py:72-94 | the nested loops: the first usable entry of each keyword per row, grouped by keyword, or the refusal |
| DemandPlan.ChoosePrimary | search_demand_refresh.py:107-111 | the term with most traffic, lowest id among equals, none exactly when no row has a term |
| DemandPlan.OnePrimary | search_demand_refresh.py:111 | that choice is unique |
| DemandPlan.GroupsConserve | search_demand_refresh.py:94-119 | groups that cover every element weigh what all elements weigh |
| DemandSource.PlanTellsSource | search_demand_refresh.py:69-93 | the observations of a plan are the usable entries of the source, each once and in order, and say field by field what entry and row say: traffic and volume rounded half up, position, price, snapshot |
| DemandSource.MetricTells | search_demand_refresh.py:104-116 | a metric over all entries of its keyword in the source: traffic summed, volume and capture time the largest, products and markets counted, the term with most traffic |
| DemandSource.MetricsNameTheSource | search_demand_refresh.py:102-116 | exactly the keywords of the source have a metric, in order and once each |
| DemandSource.TermRowsTell | search_demand_refresh.py:117-119 | a term row exists exactly where an entry's row has the term, and totals those entries |
| DemandSource.SummaryTells | search_demand_refresh.py:120-124 | every number of the summary over the entries of the source, the longest list included |
| DemandSource.PlansAreMade | search_demand_refresh.py:69-100 | a plan is made exactly of a readable source with a usable entry |
| DemandTotals.MetricsConserve | search_demand_refresh.py:112-124 | metric traffic and product totals equal the observations', and there is one metric per keyword |
| DemandTotals.TermsConserve | search_demand_refresh.py:107-119 | a group's term rows and what has no category make up the group |
| DemandTotals.KeywordsConserve | search_demand_refresh.py:112-119 | for every keyword: its stored term rows plus uncategorised observations equal its metric |
| DemandTotals.ObservedProductsAreDistinct | search_demand_refresh.py:79-86 | observed_products counts distinct products |
| DemandTables.ValidateAcceptsThePlan | search_demand_refresh.py:161-193 | under the unique keys validate accepts if and only if the tables hold exactly the plan's rows and every keyword has a label |
| DemandTables.Validate | search_demand_refresh.py:161-193 | totals, counts and the paged row comparison, in order |
| DemandTables.RowsFoundMeansSame | search_demand_refresh.py:176-193 | equal counts with every expected row found means the same rows |
| DemandTables.RepeatedRowsDeceive | search_demand_refresh.py:186-193 | without unique keys the comparison passes over a missing row |
| DemandPublication.PublishedRowsAreThePlan | search_demand_refresh.py:196-257 | under the lock, with crashes and retries anywhere, a published month holds exactly the rows of a plan of the source |
| DemandPublication.PublishedMonthsAreFrozen | search_demand_refresh.py:136-158 | after publication no step of any publisher changes that month or an earlier one |
| DemandPublication.MonthsOnlyAdvance | search_demand_refresh.py:246-256 | a newly published month is later than every published one |
| DemandPublication.OnlyReleasedMonthsComeOut | search_demand_refresh.py:196-257 | a month that comes out is the released one, after every published one |
| DemandPublication.OnlyRecheckedPublishersCommit | search_demand_refresh.py:246-256 | only a publisher whose second reading of the source gave its plan commits |
| DemandPublication.OnlyValidatedPublishersRecheck | search_demand_refresh.py:236-246 | a publisher comes to its second reading only by a validation that accepted its rows |
| DemandPublication.OnlyOpenMonthsBegin | search_demand_refresh.py:196-209 | a publisher starts only where nothing as late is out, and takes the lock only if nobody holds it |
| DemandProgress.UndisturbedPublisherPublishes | search_demand_refresh.py:196-257 | over any leftovers, a publisher with a plan of the source gets the month out by its own steps alone if the source stays and the month is released; it then holds the plan, and no other month changes |
| DemandRace.UnlockedPublishersMix | search_demand_refresh.py:260-275 | a run of two publishers without the lock that publishes one plan over the other's rows |
| DemandStore.SearchDemandStore.ClearUnpublished | search_demand_refresh.py:136-147 | paged clearing empties an uncovered month and leaves a covered one |
| DemandStore.SearchDemandStore.InsertRows | search_demand_refresh.py:150-158 | paged inserts append the plan's rows if and only if no unique key is broken |
| DemandStore.SearchDemandStore.PublishMonth | search_demand_refresh.py:196-257 | over any leftovers the month becomes active if and only if it is uncovered, released, readable, and the source did not change; then it holds the plan; other months never change |
| IncidentPlan.PlanMember | ops/taxonomy_incident_rollback.py:423-637 | action, survivor and effects of a member as the evidence demands, and exactly the blockers it gives rise to |
| IncidentPlan.FindIncidentRun | ops/taxonomy_incident_rollback.py:368-405 | captured if and only if the run id recorded for the member is a run of the tool, else the latest candidate, and in each case exactly its blockers |
| IncidentPlan.Latest | ops/taxonomy_incident_rollback.py:354-355 | the run no other is later than |
| IncidentReport.BuildPlan | ops/taxonomy_incident_rollback.py:408-721 | every member is planned, and the report is ready if and only if no counter counted anything |
| IncidentReport.UndecidedMembersCarryNothing | ops/taxonomy_incident_rollback.py:585-596 | corollary: ambiguous members and missing tools carry no effects |
| IncidentReport.RestoreUsesTheLatestCleanRun | ops/taxonomy_incident_rollback.py:489-550 | a restore takes the latest earlier run that is clean, accepted and resolved, with a captured incident run and no later clean one |
| IncidentEffects.EntityIsMended | ops/taxonomy_incident_rollback.py:489-558 | a plan changes the entity if and only if a captured run still pollutes it undecided, and in one way: to the kind of the last earlier run worth it, or to unresolved if there is none |
| IncidentEffects.ResetMeansUnresolved | ops/taxonomy_incident_rollback.py:547-558 | a reset leads from non-product to unresolved, automatic, and nothing but a restoration or a reset touches the entity |
| IncidentEffects.RowsThatFall | ops/taxonomy_incident_rollback.py:455-596 | which assignments and profile a decided member's plan takes down: the standing automatic rows of its run, and the profile of its hour if no clean run came later |
| IncidentEffects.DerivedRunIsARefusal | ops/taxonomy_incident_rollback.py:368-405 | without a pointer the run taken is the last refusal before the capture, none if there is none |
| IncidentEffects.MendedToolEnds | ops/taxonomy_incident_apply.py:475-535 | a committed batch leaves the polluted tool of a member it settles mended so |
| IncidentEffects.ResetToolEnds | ops/taxonomy_incident_apply.py:475-535 | corollary: with nothing to go back to, unresolved and automatic |
| IncidentEffects.BlockersTell | ops/taxonomy_incident_rollback.py:368-640 | which blockers stand against a member, each over its evidence |
| IncidentEffects.ReadyTells | ops/taxonomy_incident_rollback.py:640-721 | what a ready report says of its members, and that no more is asked |
| IncidentEffects.ValidTells | ops/taxonomy_incident_apply.py:68-115 | what a valid plan says of its members |
| IncidentEffects.GuardsTell | ops/taxonomy_incident_apply.py:405-660 | what each guard of a member demands of the rows |
| IncidentEffects.SettledStatusTells | ops/taxonomy_incident_apply.py:647-660 | a settled member is left as audited only if its action is one of the three that change nothing and it has no effect, else as applied |
| IncidentEffects.FreezingTells | ops/taxonomy_incident_apply.py:149-270 | an incident is frozen once, of plans that are ready, and its members page by page |
| IncidentEffects.FrozenMembersTell | ops/taxonomy_incident_apply.py:220-270 | freezing adds the plans' members as pending and leaves those that are there |
| IncidentEffects.BeginningTells | ops/taxonomy_incident_apply.py:845-854 | an incident is applied exactly once all members are frozen under its plan and it is not closed |
| IncidentEffects.ClosingTells | ops/taxonomy_incident_apply.py:954-973 | it is closed exactly while it is applied and no member is pending |
| IncidentEffects.OthersMayDoAnything | ops/taxonomy_incident_apply.py:814-979 | between the steps of a rollback the rest of the system may bring the rows it owns into any state |
| IncidentReport.ClearMembersAreSound | ops/taxonomy_incident_rollback.py:639-712 | a member of a ready report has a captured run, one effect per row, none from a manual state |
| IncidentReport.DecidedMembersAreAdmitted | ops/taxonomy_incident_rollback.py:521-596 | a member under a manual entity decision is planned as protected, and admitted if and only if its run is captured, was the refusal, and nothing that leans on it is in doubt |
| IncidentReport.OneDecidedMember | ops/taxonomy_incident_rollback.py:521-596 | such an admitted member |
| IncidentReport.ValidatePlan | ops/taxonomy_incident_apply.py:68-115 | accepts exactly plans of distinct tools and runs with allowed, unblocked members that change no manual entity |
| IncidentApply.BuildMemberStatements | ops/taxonomy_incident_apply.py:405-660 | the statement list of a member, guards before changes |
| IncidentApply.MemberStatementsApply | ops/taxonomy_incident_apply.py:405-660 | that list comes to one guarded change per effect with its audit row, and settles the member |
| IncidentApply.BatchApplies | ops/taxonomy_incident_apply.py:869-935 | a batch does all its members' work in order, or nothing |
| IncidentSafety.MemberKeepsLedger | ops/taxonomy_incident_apply.py:405-660 | settling a member keeps audit, plan and changes in step |
| IncidentSafety.EffectsDoAsPlanned | ops/taxonomy_incident_apply.py:475-645 | effects change exactly their rows, each from its planned state |
| IncidentSafety.ValidatedReportsAreReady | ops/taxonomy_incident_apply.py:68-115 | a ready and validated report has all that applying it needs |
| IncidentRuns.EveryEffectOnceWithItsAuditRow | ops/taxonomy_incident_apply.py:814-979 | over any run every effect of a settled member has exactly one audit row and one change, and there are no others |
| IncidentRuns.BatchesChangeOnlyWhatIsPlanned | ops/taxonomy_incident_apply.py:869-935 | a batch commits whole or not at all, and changes only planned rows, from their planned states, for members it settles |
| IncidentRuns.ManualEntitiesAreLeftAlone | ops/taxonomy_incident_apply.py:475-535 | an entity that is manual when a batch runs is not changed |
| IncidentRuns.OnlyTheRunsOwnAssignmentsFall | ops/taxonomy_incident_apply.py:605-645 | only automatic assignments of the incident's own run are superseded |
| IncidentRuns.SettledStays | ops/taxonomy_incident_apply.py:647-660 | a settled member stays settled, with the plan it was frozen with |
| IncidentRuns.ClosedMeansSettled | ops/taxonomy_incident_apply.py:954-973 | a closed incident has settled every member of its plan |
| IncidentRuns.ManualDecisionNeverCloses | ops/taxonomy_incident_apply.py:437-452 | a pending member with a manual entity decision keeps its incident open for as long as the decision stands |
| IncidentProgress.DecidedMembersKeepItOpen | ops/taxonomy_incident_apply.py:437-452 | so a plan frozen with such a member is never closed, over every run |
| IncidentProgress.MemberAppliesExactly | ops/taxonomy_incident_apply.py:405-660 | guards tested between the changes come to all guards tested before them |
| IncidentProgress.BatchCommitsExactly | ops/taxonomy_incident_apply.py:869-935 | a batch commits if and only if the incident is being applied and every guard of every member holds before it |
| IncidentProgress.BatchSparesOthers | ops/taxonomy_incident_apply.py:869-935 | a committed batch leaves the guards of every other member as they were |
| IncidentLedger.RollbackLedger.ApplyBatches | ops/taxonomy_incident_apply.py:814-979 | the batch loop is a run of the machine; without a limit it settles everyone and closes if and only if every guard of every pending member holds at its start |

## Left out

- Network and storage clients: HTTP, DNS and SSRF checks, R2 signing, D1 and Postgres clients, OpenAI, JEV and OpenRouter transport. Their answers are arbitrary values.
- SQL text: each statement is its meaning on maps; a LIMIT picks any eligible subset of bounded size, and an ORDER BY that only decides which rows a LIMIT takes is not kept.
- SHA-256, gzip, JSON and regular expressions: injective where the source relies on it, inverse where it decodes, otherwise arbitrary functions of their input.
- Normalisation of URLs, resource families, slugs and keywords, and the deduplication of parsed entries: their results are inputs. Sitemap parsing itself would only add string work.
- Random tokens: parameters that are required to be fresh; job ids are the triples they are derived from.
- LedgerStore.MetadataStore.EnsureSite: the listing of registered sites and the batching of several registrations are left out.
- LedgerLeases.NextCheckLiesAhead: SHA-256 of the job key is an arbitrary sample.
- TraversalTheorems.WalkStaysWithinReach: discovery of robots.txt and the well-known alternatives enters as the planned roots.
- ResourceReplay.ReplayGivesCurrent: one check of a resource at a time; ResourceOverlap has the exact condition for overlapping ones. The compact mode, in which unchanged runs are not recorded, changes no replay and is left out.
- ConditionalFetch.HonestCacheIsInvisible: the final URL of a 304 is taken to be that of the body it stands for.
- BatchStore.TaxonomyItem.ApplyRequestResult: error texts and their truncation, timestamps, token usage and the reviews' reports are not kept; an item's statements run in one sequence, so two runners on one item are not interleaved.
- BatchStore.TaxonomyItem.FinalizeClassification: the capability-only mode, the entity kind written to tools and the routing of terminal tools are left out.
- BatchEvents.EventKeepsInv: the failure of a remote submission counts as an answer to its request; the source handles it without the tests that fence off stale answers, which differs only for a request ahead of its item.
- Acceptance.PrimaryAcceptance: the regular expressions over profile quotes are booleans of the profile; confidences are reals.
- Submission.NoRequestIsHandedOutTwice: provided a failed remote call leaves no batch behind, as the source assumes; polling of remote batches is left out.
- DemandPlan.MakePlan: keywords stand for their normalised text in sorting order; parsing of numbers from text, the display keyword, brand labels beyond their presence, and the recursive query for sectors are inputs or left out.
- DemandStore.SearchDemandStore.PublishMonth: keyword ids are the keywords, so the keyword upsert is left out; so are product_change_1m, the dry run, progress reports and the calendar check.
- DemandPublication.PublishedRowsAreThePlan: reading a page of row ids and deleting it is one step, and the queries of validate are one step, which the lock makes exact.
- IncidentPlan.PlanMember: timestamps are integers whose order is that of their text; the loading of the cohort manifest is left out.
- IncidentApply.BuildMemberStatements: the numbering of batches, the decision rows that note a restored entity, and JSON copies in audit rows are left out.
- IncidentLedger.RollbackLedger.ApplyBatches: the read-only verification after each batch is left out; it changes nothing.
- Progress of an incident in general: a guard that fails for good stops its batch, as the code means it to.
- Prompts, JSON schemas, evidence grounding, anti-bot signatures, markdown reports, the directory crawler, the report review API, telemetry and the runner's command line: no state to reason about.
- Simpler relatives (classification anomaly leases, market snapshot refresh, report exports, request pacing, brand classification): easier versions of the properties above.
