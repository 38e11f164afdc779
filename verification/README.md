# GovUX verification model

A Dafny model of the parts of GovUX in which a protocol or an algorithm has to hold up, and
proofs of what those parts guarantee over every input and every run. Redis streams and keys and
the SQL tables are maps and sequences; time, tokens, identifiers, engine results and whether a
`process` call raises are inputs. `dafny verify dfyconfig.toml` checks the project.

| file | component |
|---|---|
| `JobStream.dfy` | the audit stream, its consumer group, pending list and dead-letter stream, and the queue module's operations on them |
| `WorkerPool.dfy` | any number of workers over that stream, one Redis command, process boundary or crash at a time |
| `WorkerLoop.dfy`, `WorkerRounds.dfy` | one worker's loop, and that the loop is a run of the pool |
| `AuditRecord.dfy` | one audit's stored rows under processing, redelivery, failure, crash and expert review |
| `Scoring.dfy` | score, band, guard-rail, explanation and legal verdict, over exact reals with half-even rounding |
| `Sessions.dfy` | rotating refresh tokens, device revocation, erasure |
| `SignInThrottle.dfy` | the escalating lock-out and its three expiring keys |
| `Cache.dfy` | cache-aside reads with a single-flight lock, one Redis command at a time |
| `CrawlSample.dfy` | the crawl pool, the round-robin sample, finding de-duplication |
| `Scheduler.dfy` | scheduled and submitted audits over the shared tables |
| `FreeScans.dfy` | the per-address scan quota and the built-in CAPTCHA |
| `Expiry.dfy`, `Arithmetic.dfy`, `Common.dfy` | keys with a time to live, division facts, shared notions |

The imperative code is modelled by classes (`Broker`, `AuditWorker`, `AuditStore`, `AuthSessions`,
`AuthGuard`, `CacheKeys`, `AuditDesk`, `PublicDesk`) and loops (`ReclaimStale`, `RoundRobin`, `Dedupe`,
`EnqueueDue`, `Explain`). Each method is proved equal to a transition function, and the theorems are
about runs of those functions: for the queue and the cache every interleaving of single commands, for
the rest every order of whole transactions.

## Where the code and its documentation differ

The model follows the code. Each item names the lemma that shows it; paths are under
`platform/backend/app/` unless they begin with `platform/`.

- `services/authguard.py:31` truncates the remaining time to whole seconds, so a lock opens within its
  last second. The bound of threshold checks per length of the first lock is then too strong under
  every policy (`LockEndsEarly`). `ThrottleHolds` gives the bound that holds for every timing, and `ThrottleBound`
  the stronger one for runs with no attempt in a lock's last second.
- `services/queue.py:68` reads a missing pending record as a first delivery. If the lookup of a claimed
  entry comes after another worker acked it, the entry is processed again, and no number bounds how
  often (`LateLookupsUnbounded`). `CallsBounded` counts these lookups, of deliveries past the third; with
  claim and lookups uninterrupted, three calls per entry is the bound (`RedeliveryBounded`).
- `services/scoring.py:90` and `platform/docs/SCORING_VALIDATION.md:18` say the contributions sum to the
  overall score. They are rounded separately: `ContributionsCanMissOverall` is an instance,
  `ContributionsExact` says for every vector when they do, `Explain` bounds the difference by 0.09.
- `services/scoring.py:74` counts a missing guarded category as 100 while the stored row counts it as 0,
  so re-scoring stored rows can switch the guard-rail on (`RescoringReproduces`), and evidence that
  raises a score can worsen the band (`AddingEvidenceCanWorsenBand`; `BandWorsens` says exactly when).
- `services/scoring.py:131` says an integrity-flagged site can never be certified; the review at
  `routers/audits.py:276` does not pass the flag on (`FlaggedSiteCertified`, `ApprovalVerdict`).
- Findings are added by every run of a task and never removed (`worker.py:217`), so one critical
  accessibility finding, even from a run that failed, bars the audit from certification for good
  (`CriticalOnceNeverCompliant`). A certified audit whose redelivered run fails before its
  verdict keeps the old one (`VerdictSurvives`, `FailedYetCompliant`).
- `services/cache.py:51` calls its lock single-flight. A caller that missed before a fill and wins the
  lock after it produces again (`EveryMisserFills`), and only such a caller
  (`RedundantFillStartedEarlier`). Invalidation by prefix deletes the lock too
  (`PrefixDropAdmitsTwo`), and a late release deletes its successor's (`SlowReleaseAdmitsTwo`);
  `SingleFlightFrom` is the exact condition.
- A failed job taken up again goes back to `crawling` unchecked (`worker.py:134`), which can put two
  audits of one domain in progress (`RedeliveryMakesTwo`); `OneActivePerDomain` is the exact condition.

## Model

| member | source | states |
|---|---|---|
| JobStream.StaleIdsSelected | platform/backend/app/services/queue.py:58-60 | XAUTOCLAIM's choice: pending entries idle two minutes, in id order, and a stale entry is passed over only when ten lower ids are chosen or a hundred pending entries come before it |
| JobStream.Broker.EnqueueAudit | platform/backend/app/services/queue.py:10-17 | appends the job and returns its id |
| JobStream.Broker.ReadJobs | platform/backend/app/services/queue.py:36-41 | delivers the entry at the group's cursor, once, and records it pending with one delivery, its idle clock starting now |
| JobStream.Broker.ReclaimStale | platform/backend/app/services/queue.py:53-74 | the loop returns the claimed tickets numbered at most three, in order, and leaves the others acked and copied to the dead-letter stream in claim order |
| JobStream.ClaimIsFresh | platform/backend/app/services/queue.py:58-60 | every claimed entry is pending with a count one higher than before, and its lookup finds that number |
| JobStream.SettlingKeepsWellFormed | platform/backend/app/services/queue.py:65-73 | after a pass, pending entries are delivered ones and every dead letter is a true copy of its entry |
| WorkerPool.NoSilentLoss | platform/backend/app/services/queue.py:36-74 | in every interleaving of any number of workers with crashes anywhere, a job is undelivered, pending, or settled, and a settled one had a process call that returned or has its copy in the dead-letter stream |
| WorkerPool.AccountedStep | platform/backend/app/worker.py:303-308 | the invariant behind it: whoever is about to ack already has the reason to |
| WorkerPool.DeliveryLeftAlone | platform/backend/app/services/queue.py:36-60 | in every interleaving a pass claims an entry only once each delivery of it, by a read or a claim, is 120 000 ms old |
| WorkerPool.DeliveryRunsOut | platform/backend/app/services/queue.py:53-60 | and one still pending 120 000 ms after its latest delivery is claimed by the next pass, unless ten lower ids are or a hundred pending entries come before it |
| WorkerPool.CallsBounded | platform/backend/app/services/queue.py:65-73 | process is called on an entry at most three times plus once per delivery past the third whose lookup found the pending record gone |
| WorkerPool.PassIsReclaimStale | platform/backend/app/services/queue.py:53-74 | the single commands of an uninterrupted pass add up to what ReclaimStale computes |
| WorkerPool.PassSettlesPoison | platform/backend/app/services/queue.py:69-71 | a pass leaves no pending entry delivered more than three times |
| WorkerPool.RedeliveryBounded | platform/backend/app/services/queue.py:49-74 | when no reclaim pass is interrupted, by another worker or by a crash within it, at most three process calls per entry and 4n deliveries for n jobs, in runs of any length |
| WorkerPool.DeliveriesBounded | platform/backend/app/services/queue.py:49-74 | in every interleaving, with crashes anywhere, at most 4n deliveries plus one per interrupted settlement |
| WorkerPool.OnlyCrashOrStallInterrupts | platform/backend/app/services/queue.py:58-71 | a delivery past the fourth is made only when the worker that had the entry to settle crashed, or has held it for two minutes |
| WorkerPool.ReadSpendsTheBound | platform/backend/app/services/queue.py:36-41 | every read uses up one of those 4n deliveries |
| WorkerPool.PassSpendsTheBound | platform/backend/app/services/queue.py:58-60 | every claimed entry uses up one of those 4n deliveries |
| WorkerPool.LateLookupsUnbounded | platform/backend/app/services/queue.py:66-68 | for every k some interleaving calls process k + 1 times on one entry |
| WorkerLoop.AuditWorker.Round | platform/backend/app/worker.py:318-327 | every sixth round reclaims first; what is handed over, in which order, and what is acked |
| WorkerLoop.ReclaimSettles | platform/backend/app/worker.py:322-323 | if process returns, a reclaim settles exactly what it claimed and touches no other pending entry |
| WorkerLoop.ReclaimTakesTen | platform/backend/app/services/queue.py:58-60 | when everything pending is stale a reclaim takes ten entries, or all that are left |
| WorkerLoop.SurvivorSettlesAll | platform/backend/app/worker.py:311-327 | one healthy worker settles everything dead workers left pending, and the rest of the stream, in as many rounds as there are unread jobs and one reclaim per ten pending entries |
| WorkerRounds.RoundIsARun | platform/backend/app/worker.py:311-327 | a round of that loop, with any time between its reclaim and its read, is a run of the pool's events with the same effect on Redis |
| AuditRecord.RecordInvariant | platform/backend/app/worker.py:126-300 | over every run of processing, redelivery, exception at any write, crash and review: completed means scored with eight rows that re-score to the stored score, band and guard-rail; insufficient evidence means no score, no band, not assessed; compliant means expert-reviewed; completed and compliant means accessibility at least 90 and no critical finding |
| AuditRecord.PrefixKeepsExpert | platform/backend/app/worker.py:293-298 | whatever prefix of a run's writes the exception path commits, a compliant verdict still came from an expert, and one stands if and only if the prefix stops before the new verdict |
| AuditRecord.CompletionWritten | platform/backend/app/worker.py:195-255 | what a completing run leaves depends on its evidence alone, except that findings are added |
| AuditRecord.RefusalWritten | platform/backend/app/worker.py:157-178 | what a refused run leaves: no score, no band, not assessed, the guard-rail flag and confidence of any earlier run |
| AuditRecord.CompletionIsIdempotent | platform/backend/app/worker.py:199-255 | redelivery with the same evidence leaves the same row and score rows whatever came before |
| AuditRecord.RunCompletes | platform/backend/app/worker.py:126-300 | an undisturbed run completes from any stored record |
| AuditRecord.RunStoresVerdict | platform/backend/app/worker.py:212-242 | an undisturbed run stores that verdict whatever the record held |
| AuditRecord.ReviewVerdict | platform/backend/app/routers/audits.py:268-287 | what a review stores, approving or not: each verdict if and only if, from the stored scores and findings, and nothing unless the audit is completed |
| AuditRecord.ApprovalVerdict | platform/backend/app/routers/audits.py:268-287 | an approval certifies exactly when the stored accessibility score is at least 90 and no critical finding is stored |
| AuditRecord.CriticalOnceNeverCompliant | platform/backend/app/worker.py:213-221 | once any run stored a critical finding the audit is never again completed and compliant |
| AuditRecord.FlaggedSiteCertified | platform/backend/app/routers/audits.py:276 | an integrity-flagged audit that a review certifies |
| AuditRecord.VerdictSurvives | platform/backend/app/worker.py:134-298 | whatever fault a call meets, the record is compliant after it if and only if it was before and the call raised before writing its own verdict, and it is then stored as failed |
| AuditRecord.FailedYetCompliant | platform/backend/app/worker.py:293-296 | such a record is reached: a run that ends failed and compliant |
| AuditRecord.FaultLeaves | platform/backend/app/worker.py:293-298 | a fault before the evidence is used leaves the record as it was but failed, one after the last commit leaves what was stored but failed |
| AuditRecord.AuditStore.Process | platform/backend/app/worker.py:126-300 | the commits of one call, faulted at any write or after its last commit, have the effect of its events; it returns exactly when no fault was reached, and then leaves the audit refused, or completed with the automated verdict: non-compliant if and only if this run found a critical finding or accessibility under 50, else partially compliant |
| Scoring.ComputeScore | platform/backend/app/services/scoring.py:53-85 | which band results, from the rounded overall score and the guard-rail, each band if and only if |
| Scoring.MeanOfChange | platform/backend/app/services/scoring.py:15-24 | changing one category moves the mean by that category's weight in a hundred |
| Scoring.OverallIsMean | platform/backend/app/services/scoring.py:65-71 | the overall score is the mean with the eight weights written out, a missing category as 0, to the nearest tenth |
| Scoring.OverallBetween | platform/backend/app/services/scoring.py:65-71 | the overall score lies between the rounded lowest and highest category |
| Scoring.BandWorsens | platform/backend/app/services/scoring.py:53-85 | scores nowhere lower never lower the overall score, and worsen the band if and only if they switch the guard-rail on over a score of 75 or more |
| Scoring.ScoreMonotone | platform/backend/app/services/scoring.py:53-85 | so raising categories of a full vector never lowers the score nor worsens the band, through rounding and guard-rail |
| Scoring.AddingEvidenceCanWorsenBand | platform/backend/app/services/scoring.py:73-78 | on partial vectors that happens: supplying a category raises the score and worsens the band |
| Scoring.StoredRows | platform/backend/app/services/scoring.py:84 | eight rows, each rounded, a missing one as 0 |
| Scoring.RescoringReproduces | platform/backend/app/services/scoring.py:65-85 | re-scoring the stored rows of one-decimal scores gives the same result if and only if no guarded category was missing or the guard-rail was active anyway |
| Scoring.StoredGuardrail | platform/backend/app/services/scoring.py:73-84 | whatever the decimals, the stored rows are under the guard-rail if and only if a guarded category scored under 49.95 |
| Scoring.Explain | platform/backend/app/services/scoring.py:88-107 | one row per category, ranked by points lost with ties in weight order; in each row points lost are within 0.005 of what the category misses of its weight, and with the contribution within 0.01 of the weight; contributions within 0.09 of the overall score |
| Scoring.LostMonotone | platform/backend/app/services/scoring.py:104 | lowering the score of a category never lowers its points lost |
| Scoring.ContributionsExact | platform/backend/app/services/scoring.py:88-102 | for every score vector the contributions sum to the overall score if and only if the weighted scores, each rounded to a hundredth of the total, add up to whole tenths |
| Scoring.ContributionsExactInTenths | platform/backend/app/services/scoring.py:88-102 | for one-decimal scores, as stored, the same condition in integers: the sum of w * k / 10, each rounded half to even, is a multiple of ten |
| Scoring.ContributionsExactWhole | platform/backend/app/services/scoring.py:88-102 | for whole-number scores the weighted sum must be a multiple of ten |
| Scoring.ContributionsCanMissOverall | platform/backend/app/services/scoring.py:90 | an instance where they do not |
| Scoring.ComplianceVerdict | platform/backend/app/services/scoring.py:110-154 | compliant and non-compliant, each if and only if with the bounds 90 and 50, and method and confidence exactly from the review |
| Sessions.AuthSessions.RefreshToken | platform/backend/app/routers/auth.py:194-233 | rotation, reuse detection and expiry, and what each does to the table |
| Sessions.AuthSessions.RevokeDeviceOf | platform/backend/app/routers/auth.py:243-253 | the user's sessions on the device are revoked, no others |
| Sessions.RunAgrees | platform/backend/app/routers/auth.py:168-253 | over every run the table agrees with what happened: a row is unrevoked exactly when its token was not rotated, its family not burnt, its device not revoked, and only a family's newest token can be |
| Sessions.RefreshOutcome | platform/backend/app/routers/auth.py:200-233 | over every run, each answer to a presented token if and only if what befell that token, expired being sixty days after its issue |
| Sessions.RowsTouched | platform/backend/app/routers/auth.py:194-253 | a transaction stamps the rows it revokes with its own time, adds at most one unrevoked row, and only an erasure deletes any |
| Sessions.OneLiveSessionPerFamily | platform/backend/app/routers/auth.py:174-183 | over every run, a family has one user and one device and at most one unrevoked session |
| Sessions.RedeemedOnce | platform/backend/app/routers/auth.py:217-228 | a token is rotated at most once in any run |
| Sessions.ReuseKillsTheFamily | platform/backend/app/routers/auth.py:206-214 | after a dead token is presented no token its family ever issues is rotated again |
| Sessions.RevokedDeviceStaysOut | platform/backend/app/routers/auth.py:243-253 | after a device is revoked no token issued to it, before or after, is rotated |
| Sessions.ErasedTokensAreUnknown | platform/backend/app/routers/auth.py:85-87 | after erasure every token the user held is answered as unknown |
| SignInThrottle.AuthGuard.GateFor | platform/backend/app/services/authguard.py:25-36 | the gate, from the live keys of one account |
| SignInThrottle.AuthGuard.Fail | platform/backend/app/services/authguard.py:39-55 | the counter, tier and lock a failure leaves, other accounts untouched |
| SignInThrottle.AuthGuard.Reset | platform/backend/app/services/authguard.py:58-62 | a clean account, others untouched |
| SignInThrottle.AuthGuard.VerifyOtp | platform/backend/app/routers/auth.py:124-155 | lock, CAPTCHA, code and reset in that order |
| SignInThrottle.Answers | platform/backend/app/routers/auth.py:128-157 | each answer to an attempt if and only if: the lock stops every one, then the CAPTCHA, then the want of a live code; only a wrong code is counted, only a right one signs in, and that clears the account |
| SignInThrottle.LockStopsEverything | platform/backend/app/routers/auth.py:128-133 | after a failure that locks, every attempt, right or wrong, is refused and changes nothing until the lock's last second |
| SignInThrottle.LockHolds | platform/backend/app/services/authguard.py:29-34 | a lock holds exactly while a full second is left of it, and what is then given as the time left |
| SignInThrottle.CounterLastsAnHour | platform/backend/app/services/authguard.py:42-44 | the failure counter lasts an hour from its first failure, whatever follows in it |
| SignInThrottle.ThrottleBound | platform/backend/app/services/authguard.py:25-55 | in runs without a successful sign-in, right codes refused included, wrong checks within a time of the first are at most threshold times (time / gap + 1), a gap being the whole lock if no attempt falls in a lock's last second |
| SignInThrottle.ThrottleHolds | platform/backend/app/services/authguard.py:25-55 | for every timing of attempts and key expiries the bound holds with gaps 999 ms short of the shorter lock, or of the counter's hour |
| SignInThrottle.DefaultThrottle | platform/backend/app/services/authguard.py:25-55 | under the default settings: three checks for every 599.001 seconds begun |
| SignInThrottle.LockEndsEarly | platform/backend/app/services/authguard.py:31 | under every policy that gap is taken: twice the threshold of wrong codes is checked within 999 ms less than the first lock |
| SignInThrottle.Escalation | platform/backend/app/services/authguard.py:39-53 | while no key expires, m failures leave tier m div threshold and counter m mod threshold |
| SignInThrottle.EscalationOutcome | platform/backend/app/services/authguard.py:45-53 | the failure that completes the k-th group locks, for the first length when k is 1 and the second after, with CAPTCHA from the second lock on |
| SignInThrottle.EscalationGate | platform/backend/app/services/authguard.py:28-34 | and from the second lock on the gate asks for a CAPTCHA, for a day after the latest lock and no longer |
| Cache.InvalidationIsFreshUnlessFilling | platform/backend/app/services/cache.py:30-90 | in every interleaving, an invalidation guarantees that calls started after it return something produced after it if and only if no lock-holding fill is underway at that moment |
| Cache.SingleFlight | platform/backend/app/services/cache.py:51-82 | if fillers finish within the lock's time to live and nobody deletes the lock, at most one caller is between winning and releasing it, and only that caller stores, and what it produced itself |
| Cache.SingleFlightFrom | platform/backend/app/services/cache.py:51-82 | from any state with one caller in flight, single flight is kept by every continuation of prompt callers if and only if the lock lasts as long as that caller may |
| Cache.PrefixDropAdmitsTwo | platform/backend/app/services/cache.py:93-97 | deleting the lock by prefix admits a second filler |
| Cache.SlowReleaseAdmitsTwo | platform/backend/app/services/cache.py:78-80 | a filler that overruns deletes its successor's lock, and two prompt fillers run at once |
| Cache.HitsAreRecent | platform/backend/app/services/cache.py:41-45 | with prompt fillers a hit is younger than the two times to live together, invalidated or not |
| Cache.RedundantFillStartedEarlier | platform/backend/app/services/cache.py:41-74 | in every interleaving, a call that fills while the value is live started before the store that put it there, so a call started after a store never fills while it lives |
| Cache.EveryMisserFills | platform/backend/app/services/cache.py:49-74 | n callers that missed before the first store can all fill, one after another |
| Cache.StoredValueLives | platform/backend/app/services/cache.py:41-76 | a stored value is what callers that start or wait get for exactly the time to live |
| Cache.LockLapses | platform/backend/app/services/cache.py:51-53 | a winner that never releases keeps others waiting for exactly the lock's time to live |
| Cache.WaiterFallsBack | platform/backend/app/services/cache.py:57-69 | a waiter that gives up asks its own producer then, and leaves the key alone |
| Cache.ReleaseFrees | platform/backend/app/services/cache.py:71-82 | a release, after a stored value or a raise, lets the next caller in at once |
| Cache.AloneIsTheSteps | platform/backend/app/services/cache.py:41-82 | the steps of an uninterrupted call have the effect proved of GetOrSet |
| Cache.CacheKeys.GetOrSet | platform/backend/app/services/cache.py:30-82 | hit, fill, first hit of the wait, or fallback only when no look sees a value: exactly what is returned and what the key and its lock hold then |
| Cache.CacheKeys.WaitForFill | platform/backend/app/services/cache.py:57-69 | looks every 50 ms while that fits into the wait: the first hit if and only if some look sees one and the earlier ones none, and none if and only if no look does |
| Cache.CacheKeys.Invalidate | platform/backend/app/services/cache.py:85-90 | the value goes, its lock and other keys stay |
| Cache.CacheKeys.InvalidatePrefix | platform/backend/app/services/cache.py:93-99 | every value under the prefix goes, and every lock whose own key is under it |
| CrawlSample.FillBuckets | platform/backend/audit_engine/runner.js:320-323 | the URLs by section, sections in order of first occurrence |
| CrawlSample.SectionsInOrder | platform/backend/audit_engine/runner.js:320-323 | the sections stand in the order of their first URLs |
| CrawlSample.RoundRobin | platform/backend/audit_engine/runner.js:324-331 | the shifting loop terminates and picks a prefix of the round-robin order, as long as the cap and the URLs allow |
| CrawlSample.Diversify | platform/backend/audit_engine/runner.js:319-332 | the sample is the round-robin order cut at the cap |
| CrawlSample.OrderPermutes | platform/backend/audit_engine/runner.js:319-332 | that order has every URL exactly as often as the input |
| CrawlSample.SampleIsFair | platform/backend/audit_engine/runner.js:326-330 | for some r every section gives its first min(size, r) URLs, or min(size, r + 1) for an initial run of sections, in their own order |
| CrawlSample.Dedupe | platform/backend/audit_engine/runner.js:405-413 | the loop keeps the first finding of each key |
| CrawlSample.FirstByDistinct | platform/backend/audit_engine/runner.js:405-413 | no two kept findings share a key |
| CrawlSample.FirstByCovers | platform/backend/audit_engine/runner.js:405-413 | no key is lost |
| CrawlSample.DedupeIdempotent | platform/backend/audit_engine/runner.js:405-413 | de-duplicating twice changes nothing |
| CrawlSample.FirstByPlaces | platform/backend/audit_engine/runner.js:405-413 | the kept findings stand at exactly the places where their key is first, in order |
| CrawlSample.PoolIsCandidates | platform/backend/audit_engine/runner.js:444-446 | the pool holds each sitemap or home-page link once, except the home page and documents |
| CrawlSample.PoolInOrder | platform/backend/audit_engine/runner.js:445-446 | and keeps the order in which they first occur, the sitemap before the home page |
| CrawlSample.CrawlSet | platform/backend/audit_engine/runner.js:419-454 | the home page, then the sample of the pool; no page twice; as many more as the pool has, up to one less than the depth asked for, 24 when it is 0 or over 25 |
| Scheduler.AuditDesk.SubmitAudit | platform/backend/app/routers/audits.py:55-98 | refuse, answer with the running task, or queue a new one |
| Scheduler.SubmitAnswers | platform/backend/app/routers/audits.py:60-98 | each answer if and only if: refused without permission or verified domain, the running task while one is, else accepted; only an accepted one changes the tables, by one queued audit and its task |
| Scheduler.AuditDesk.EnqueueDue | platform/backend/app/services/scheduler.py:33-56 | the loop over the due schedules, and that the tasks it returns are those it put on the stream |
| Scheduler.PollOutcome | platform/backend/app/services/scheduler.py:33-56 | in whatever order the schedules come: each one enabled and due leaves a day, thirty days for monthly or seven for anything else after now, no other changes, and a domain gets exactly one new audit if it is verified, has none queued or running, and is wanted, else none |
| Scheduler.FirstGetsTheAudit | platform/backend/app/services/scheduler.py:41-54 | of several due schedules of one domain the first in the query's order gets the audit, if the domain was verified and idle |
| Scheduler.LastRunMoves | platform/backend/app/services/scheduler.py:52 | last_run_at becomes now for the schedules that got an audit and stays for all others |
| Scheduler.NewScheduleIsDue | platform/backend/app/routers/monitoring.py:16-29 | a new schedule is enabled and due at once, and a poll queues its audit if the domain is verified and idle |
| Scheduler.SecondPollIdle | platform/backend/app/services/scheduler.py:35-53 | a second poll at the same instant does nothing, and one within a day takes up none of the same schedules |
| Scheduler.AuditsAreSpaced | platform/backend/app/services/scheduler.py:22-53 | over every run, whatever the clock does and whatever schedules come and go, one schedule's audits are a cadence apart, so at most time / cadence + 1 within a time |
| Scheduler.ForwardRunsKeepOneActive | platform/backend/app/routers/audits.py:74-94 | over every run of submissions, polls, schedule changes and forward worker steps a domain has at most one active audit |
| Scheduler.OneActivePerDomain | platform/backend/app/routers/audits.py:74-94 | when failed tasks may be taken up again, that holds along a run if and only if no task is taken up while another audit of its domain is active |
| Scheduler.BeginKeepsOneActive | platform/backend/app/worker.py:134-136 | the exact condition for one task taken up |
| Scheduler.RedeliveryMakesTwo | platform/backend/app/worker.py:134-136 | a run in which a redelivered failed job makes two |
| Scheduler.SubmitIsIdempotent | platform/backend/app/routers/audits.py:74-84 | submitting again answers with the same task and changes nothing while it is active |
| FreeScans.CutJoins | platform/backend/app/services/captcha.py:39 | an id without a colon and any answer survive joining and cutting a token |
| FreeScans.ChallengeIsSingleUse | platform/backend/app/services/captcha.py:31-46 | a token verifies if and only if its challenge is under five minutes old and the answer is right, and right or wrong the challenge never verifies again |
| FreeScans.RightAnswer | platform/backend/app/services/captcha.py:31-46 | an answer of digits with blanks around it is right within five minutes if and only if the digits are those asked for |
| FreeScans.VerifyExactly | platform/backend/app/services/captcha.py:31-46 | over any keys, which tokens verify, which use up a challenge, and that others change nothing |
| FreeScans.ChallengesConserved | platform/backend/app/services/captcha.py:19-46 | over every run, issued challenges are those waiting, replaced, answered wrongly, or spent on one scan over the quota or one gated sign-in each |
| FreeScans.FreeScansInAnyWindow | platform/backend/app/routers/public.py:52-65 | at any point of any run, the scans an address got without spending a challenge since its counter was created are at most the limit |
| FreeScans.FreeScansBounded | platform/backend/app/services/ratelimit.py:10-27 | over several windows they are at most limit times (time / window + 1) within a time of the address's first |
| FreeScans.PublicDesk.CreateScan | platform/backend/app/routers/public.py:52-65 | quota first, then the block or the CAPTCHA, and the counter moves only when the scan is accepted |
| FreeScans.ScanReplies | platform/backend/app/routers/public.py:52-65 | each reply to a scan if and only if, and the counter and the challenges after it |
| FreeScans.PublicDesk.VerifyToken | platform/backend/app/services/captcha.py:31-46 | the stored answer is compared and the challenge deleted |
| FreeScans.PublicDesk.GateSignIn | platform/backend/app/routers/auth.py:134-137 | the CAPTCHA is asked for only when required and enabled |
| FreeScans.GateReplies | platform/backend/app/routers/auth.py:134-137 | each reply if and only if, and that nothing is read or used up when no CAPTCHA is asked |

## Left out

- Redis being unreachable: every fail-open branch and best-effort write; Redis is taken to answer, while keys expire and workers crash.
- Races inside one endpoint: a refresh, a sign-in attempt, a free scan, a CAPTCHA check and a scheduler poll are each one step. Two overlapping requests with the same refresh token or the same challenge are not modelled.
- Two simultaneous process calls on one audit; the pool's theorems speak of stream entries, the record's of one call at a time.
- The scheduler enqueues before it commits and process returns on an unknown row, so no claim is made that every queued audit row is eventually run.
- Floating point: scores are exact reals and `round` is rounding half to even on them. The cache's wait counts its naps in whole milliseconds.
- The browser engine, axe, Lighthouse, documents, field data, machine learning: their results are an arbitrary record with category scores at one decimal.
- Pages, non-accessibility findings, progress, timestamps and the advisory score of an audit: they take part in commits as writes that touch nothing modelled.
- URL parsing: the section of a URL and whether it is a document are parameters of the crawl set.
- Token hashing and randomness: tokens, devices, families and challenge ids are drawn fresh, and the hash is injective.
- HTTP routing, roles, organisation checks and the page quota: the permission to submit is one parameter.
- Captcha provider mode, bulk scans, reports, e-mail, object storage and the user interface.
- Trimming of the stream: entries keep their place and are never removed, as the code never removes them.
- The key and its lock are modelled as two keys of one name; a cache key that itself ends in ":lock" is not.
- Python's `str.strip` removes every Unicode space; the model removes blanks, tabs and line ends.
- One-time codes: whether an unexpired code with attempts left exists, and whether the given one matches, are inputs of a sign-in attempt.
- Device rows (their trust flag and deletion) and the IPs erased from the activity log.
- A schedule's `created_by` and an audit's scope, engine version and requester.
