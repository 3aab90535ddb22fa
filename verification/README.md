# Document-summary service: a verified model

The service accepts documents, queues them on a Redis stream, lets workers
claim them with a compare-and-set in MongoDB, summarizes them, and repairs
whatever crashes leave behind. This project models it at two levels and proves
properties of both.

**One state machine for the whole service** (`Protocol`). The state is the
document collection, everything Redis holds (counters, in-flight guards,
summary cache, stream with its pending list, delayed-retry set), the clock, and
the actors: submissions, consume loops, jobs, sweeps and reconcile runs, each
with a program counter and its local copies. Every Mongo operation, Redis
command and Lua script is one step, so any other actor may run at any `await`.
A Redis command can be answered, fail, or take effect and lose its answer. A
process can die at any point; guards, counters and cache entries can expire;
the queue can be lost. `Audit` is bookkeeping no step reads: it names what
happened so that the invariants can be equations instead of inequalities.

**The services as classes** (`Repository`, `RateLimiter`, `Cache`, `Queue`,
`Pipeline`, `Ingestion`, `Consumer`, `Sweeper`), with their in-place updates,
loops and give-back paths, each method proved against its whole new state.
`Refinement` shows that a job's or a submission's own machine steps, run without
interruption, have the effect its method promises.

| file | content |
|---|---|
| `Text`, `Lines`, `Stretches` | normal form and tokenizing; which contents share a hash; words and sentences by positions |
| `Summarizer`, `Measured` | measures, keywords, provenance of duplicates; what the measures count on the content |
| `Keys`, `Decorators` | Redis key encodings; backoff and in-place retry |
| `Repository`, `RateLimiter`, `Cache`, `Queue` | the stores: spec functions, classes, the reconciler |
| `Pipeline`, `Ingestion`, `Consumer`, `Sweeper` | the services as classes |
| `Protocol`, `Frames` | the state machine; what each group of steps leaves alone |
| `References`, `ReferencesKept` | record and reference well-formedness, kept by every step |
| `Slots`, `Reconciled` | conservation of rate-limit slots, the limit, when the counter covers what is in flight; a whole reconcile run |
| `Attempts`, `Settlement`, `Backoff` | how claims end; terminal states; total backoff |
| `Early`, `EarlyRuns` | exactly when a retry can start before it is due |
| `Guards` | exclusivity of the in-flight guard |
| `Tokens` | no delivery is lost outside the gaps |
| `Provenance` | cache against record; where summaries come from |
| `Fresh`, `Records` | what was just written or delivered is left alone, until exactly when; the fields of every record, no counter at zero |
| `Leases`, `Stale` | lease safety; exactly when the result of a slow worker is dropped |
| `Backpressure`, `Pending` | the semaphore of the consume loop; the pending list |
| `Recovery` | no document is stuck |
| `Reachable` | all invariants hold in every reachable state |
| `Traps`, `BackoffTraps`, `Collisions`, `Overruns` | runs from the empty service in which an expected property fails or a bound is reached |
| `AttemptRuns` | how often a document can be tried, and how long it can wait on time |
| `Refinement` | the machine's steps against the methods |

## Where the code and its documentation disagree

- `docs/concurrency.md:13` says a slow worker's stale result is always dropped,
  because the settling filter names the worker. It names the worker but not the
  claim: if the same worker has claimed the document again, the old job's write
  matches. `Traps.StaleJobSettles` gives the run, without any fault.
  `Reachable.StaleResultsAreDropped` gives the exact condition: the promise holds
  throughout a run if and only if no worker wins a claim of the document while it has
  an unsettled claim of its own on it, which it could see before claiming.
  `Leases.InTimeWins`, `Attempts.AttemptsBounded` and `Settlement.SettledAtMostOnce`
  hold regardless.
- A reconcile run overwrites a counter with a count it has read earlier
  (`app/services/ratelimit.py:120-151`, every twentieth sweep by
  `app/workers/sweeper.py:36,89`). If a submission acquires a slot in between, the run
  erases it, and one document too many gets in: `Overruns.RacingReconcileOverfills`
  gives the run, without any fault. `Reachable.CounterIsSafe` says when the counter
  stays good: exactly if each value written covers what is in flight and is within the
  limit. `Reachable.LimitIsKept` bounds what any run can do, and
  `Reconciled.ReconcileHeals` says that one whole run that meets no slot held or owed
  repairs everything for good.
- `app/services/ratelimit.py:141` takes the user id to be what follows the last
  colon of the key, while ids may contain colons. `RateLimiter.ReconcileExactness`
  gives the exact condition under which a counter ends up right.
- A key that vanishes between `SET NX` and `GET` counts as "no duplicate"
  (`app/services/cache.py:82-85`), and so does every failed guard command.
  `Guards.Breaks` lists every step that can break exclusivity; `Guards.OneInFlight`
  proves it without them, `Collisions.EachBreachCollides` gives for each kind a run in
  which that one step leads to two identical documents (with a limit of one,
  `EachBreachCollidesAtOne` adds one degraded admission, which `Reachable.LimitOfOne`
  shows to be needed), and `Guards.UnusedIsGuarded` says that exclusivity returns.
- Lease recovery ignores the attempt limit (`app/repositories/document.py:257-271`):
  attempts exceed it by the number of recoveries and by nothing else
  (`Attempts.AttemptsBounded`), and every such number is reached
  (`AttemptRuns.AttemptsAreReached`).
- The claim filter ignores `next_attempt_at` (`app/repositories/document.py:136`), so a
  retry can start before its backoff has passed: `BackoffTraps.BackoffIsBypassed` gives
  the run. `Reachable.RetryWriteDecides` says when: exactly if something carries the
  document already at the write of the retry; otherwise `Early.LeftAloneUntilDue` holds.
- `app/repositories/document.py:279` says the stale scan reports documents nothing has
  touched. It does (`Reachable.FreshIsLeftAlone`), but the sweep publishes its list
  later, and by then a document on it may have been claimed or sent back for a retry:
  `BackoffTraps.ClaimedWhileListed` gives the run, and `Reachable.FreshIsRestaledExactly`
  says that this is the only way a document is published as stale too soon.
- A job may read its record only after its lease was recovered and the record claimed
  again (`app/repositories/document.py:150`); it then backs off by the newer attempt's
  ceiling. The doubling bound of `Reachable.WaitIsBounded` holds unless that happens;
  `BackoffTraps.LongestWaitIsReached` gives a run in which it happens every time, and
  `Reachable.CeilingsBoundExactly` the settings for which it makes no difference.
- A publish that fails after the insert, and an insert that is stored but reported as
  failed, give slot and guard back but leave the document queued
  (`app/services/ingestion.py:246-255`). With degraded admissions these are the three
  kinds of overshoot in `Slots.OvershootIsBounded`, a bound
  `Overruns.OvershootIsReached` shows to be reached, and two of the breaking steps in
  `Guards.Breaks`.

## Model

| member | source | states |
|---|---|---|
| Reachable.ReachableIsSound | docs/concurrency.md:7-28 | In every state reachable from the empty service, under any interleaving, crash and Redis fault, all invariants below hold together. |
| Reachable.LimitIsKept | app/services/ratelimit.py:28-103 | From the empty service, in every run, no user ever has more documents active than the limit, plus one per degraded admission and per insert or publish reported failed after the record was stored, plus what reconcile and expiry took off the counter. |
| Reachable.LimitOfOne | app/services/ratelimit.py:28-103 | With a limit of one, two documents of a user are active together only if an overshoot or an erasing write came before. |
| Reachable.CounterIsSafe | app/services/ratelimit.py:28-151 | From the empty service, without overshoot and whatever crashes, whichever releases fail and whatever reconciles: active + held + owed <= counter <= limit at every point if and only if each write of the counter by reconcile or expiry leaves it so. |
| Reachable.CounterIsExact | app/workers/pipeline.py:62-71 | From the empty service, in runs without crash and counter fault: active + held + owed = counter at every point if and only if each write of the counter by reconcile or expiry is exact. |
| Reachable.NoIdenticalPair | app/services/cache.py:67-94 | From the empty service, without a breaking step for a key, two active documents of that user and hash are one. |
| Reachable.TokenIsKept | app/queue/stream.py:56-120 | From the empty service, or from any later point at which the document has a delivery token or is not queued: unless its delivery is dropped in a gap from there on, it has one whenever it is queued. |
| Reachable.RepublishedIsKept | app/workers/sweeper.py:104-113 | Once a sweep publishes a document, however its delivery was dropped before: unless it is dropped again, the document has a token whenever it is queued. |
| Reachable.WorkCanFinish | app/workers/sweeper.py:1-18 | After any run from the empty service each active document can still be completed without anything further failing. |
| Reachable.WaitIsBounded | app/workers/pipeline.py:81-100 | After any run from the empty service the backoff scheduled for a document sums to at most (max attempts - 1) times the longest delay, which is the ceiling of the last attempt that may be retried; and to at most retry_base * (2^(max attempts - 1) - 1) unless a job read its record only after it had been claimed again, which takes a lease recovery. |
| Reachable.WaitIsExactly | app/core/decorators.py:133-140 | The first of these bounds is exact for all settings: a bound on the total wait holds in every run if and only if it is no smaller. |
| Reachable.CeilingsBoundExactly | app/core/decorators.py:133-140 | So the sum of the doubling ceilings bounds the wait in every run if and only if max attempts <= 2, retry_base = 0 or retry_max <= retry_base. |
| AttemptRuns.OnTimeIsExactly | app/core/decorators.py:133-140 | A bound holds for the total wait in every run without late reads if and only if it is no smaller than the sum of the doubling ceilings: a run without any fault reaches that sum, for all settings. |
| AttemptRuns.DoublingIsReached | app/core/decorators.py:133-140 | The bound retry_base * (2^(max attempts - 1) - 1) is reached by such a run if and only if the last retry's doubled ceiling is within retry_max. |
| Reachable.RetryKeepsItsTime | app/repositories/document.py:121-150 | In every reachable state in which a document waits for a retry, some run claims it before it is due if and only if something carries it already: an undelivered entry, one in a live batch, one pending and idle in time, a delay-set member due in time, or an actor about to add one of these. |
| Reachable.RetryWriteDecides | app/workers/pipeline.py:89-104 | So right after a retry write, in any run from the empty service, the next claim can come early if and only if something carries the document already at that write. |
| Reachable.StaleResultsAreDropped | app/repositories/document.py:221-235 | From the empty service: at no point of a run does the settling write of a claim that is not the record's latest match, if and only if on that run no worker wins a claim of the document over an unsettled claim of its own. |
| Reachable.PendingIsSmall | app/workers/consumer.py:109-126 | After any run a live worker has at most 2 * concurrency entries pending, plus one batch for each read whose answer it lost. |
| Reachable.SummariesSayRight | app/models/document.py:147-155 | In every reachable state a completed document's summary counts its own content and cites its own id, user, title, hash and submission time; one from the cache cites as origin, in the same fields, an upload of that user and hash that was processed, and one that was processed cites none. |
| Reachable.UploadsAreCitedApart | app/services/summarizer.py:144-169 | No two uploads are cited alike: the citations of two completed documents differ, and an origin differs from the document it stands in for. |
| Reachable.RecordsAreTidy | app/models/document.py:95-160 | In every reachable state: completed records have no error, failed ones the error of their last write, neither a next attempt; who waits has failed before; an error is of an attempt that was made; no counter stands at zero; no delivery lies ahead of the clock. |
| Reachable.FreshIsLeftAlone | app/repositories/document.py:276-296 | From any write of a record, in every run, no stale scan reports the document until stale_queued_seconds have passed; a lease recovery counts from the time of its scan. |
| Reachable.FreshIsRestaledExactly | app/workers/sweeper.py:104-113 | In that time a stale stage publishes it in some run if and only if a live sweep had reported it before the write and not yet published it. |
| Reachable.RetryIsSpared | app/repositories/document.py:276-296 | After a retry write no stale scan reports the document before the retry is due, whatever claims and recoveries come in between, unless it is settled again. |
| Reachable.EntriesStay | app/queue/stream.py:93-117 | In every run a delivered entry is taken over at the earliest one lease after its last delivery. |
| ReferencesKept.NextKeepsCoherence | app/models/document.py:95-160 | Processing, worker id and lease go together; completed and summary go together; every id is minted once for one user and hash; every reference held by an actor, the queue or a guard resolves to such a document. |
| Slots.NextKeepsBalance | app/services/ratelimit.py:28-50 | Every step of every actor keeps: counter + surplus = active documents + slots held by submissions + slots owed by jobs + losses, and counter at most limit + what reconcile raised it by. |
| Slots.SlotsAreConserved | app/services/ingestion.py:182-258 | That equation over whole runs, for all users. |
| Slots.LimitHolds | app/services/ratelimit.py:28-50 | Everything in flight is at most limit + surplus; without surplus the counter covers it; without surplus and losses they are equal. |
| Slots.OvershootIsBounded | app/services/ratelimit.py:85-103 | In every run, reconcile and expiry included, what a user has in flight is at most limit + surplus at the start + overshoots + what was erased from the counter; crashes, lost replies and clamped releases add nothing. |
| Overruns.OvershootIsReached | app/services/ratelimit.py:85-103 | For every number d of degraded admissions, k of failed publishes and e of slots erased by racing reconcile runs there is a run from the empty service with just so many after which limit + d + k + e documents of one user are active: the bound is reached. |
| Overruns.RacingReconcileOverfills | app/services/ratelimit.py:120-151 | A run from the empty service, without any fault, in which a reconcile run reads nothing active, a submission acquires a slot, the run drops the counter, and limit + 1 documents end up active. |
| Slots.SurplusCauses | app/services/ingestion.py:246-255 | Over every step of every actor surplus grows by one if it is a degraded admission, an insert or a publish reported failed although the record is stored, by what is erased if it writes the counter, and by nothing else. |
| Slots.CounterCovers | app/services/ratelimit.py:28-151 | From any state in which the counter covers what is in flight and is within a bound, whatever happened before, and over any run without overshoot: it does so at every point if and only if each write of it does. |
| Slots.StepKeepsCover | app/services/ratelimit.py:28-151 | One step of this: without overshoot it keeps active + held + owed <= counter <= bound if and only if it does not write the counter or writes a value between the two. |
| Slots.CleanRunsAreExact | app/workers/pipeline.py:62-71 | From any state in which the counter is exact, in runs without crash and counter fault: it equals active + held + owed at every point if and only if each write of it by reconcile or expiry does. |
| Slots.NeverClamped | app/services/ratelimit.py:41-50 | As long as the counter covers what is in flight a release that is due finds it positive, so the clamp at zero is not reached. |
| Slots.ReconcileVisit | app/services/ratelimit.py:120-151 | One visit of any user by a run whose reading is current: the counter becomes the active count if and only if it is set or the user is idle, and the write is exact if and only if besides no slot is held or owed. |
| Reconciled.RunMakesCounterRight | app/services/ratelimit.py:120-151 | After every whole reconcile run that nothing interrupts, a user's counter is the active count if and only if the id after the last colon is active as the user is, or no counter was kept; always for ids without colon. |
| Reconciled.ReconcileRestores | app/services/ratelimit.py:120-151 | After such a run the counter of an id without colon equals active + held + owed if and only if nothing is held or owed. |
| Reconciled.ReconcileHeals | app/services/ratelimit.py:120-151 | Whatever was lost or erased before: after such a run that meets nothing held or owed, the counter covers what is in flight at every later point of a run without overshoot if and only if each later write does. |
| Reconciled.RunCanFinish | app/services/ratelimit.py:120-151 | From any state a live worker can start such a run and finish it. |
| Attempts.NextKeepsAccounts | app/repositories/document.py:121-235 | Every step keeps: attempts = retries + lease recoveries + (1 unless queued); retry epochs are distinct and below max attempts; no two jobs stand for one claim; a job that owes a release is the one that settled its document. |
| Attempts.AttemptsBounded | app/workers/pipeline.py:74-123 | Retries never exceed max attempts - 1, and attempts never exceed max attempts + lease recoveries, even when stale jobs of the same worker settle newer claims. |
| AttemptRuns.AttemptsAreReached | app/repositories/document.py:257-271 | For every k < max attempts and every r there is a run from the empty service, without any fault, with exactly k retries and r lease recoveries, after which a document is being processed for the (k + r + 1)-th time: every account the equation allows is reached. |
| Settlement.TerminalForever | app/repositories/document.py:152-235 | A completed or failed record is never changed again in any continuation. |
| Settlement.SettledAtMostOnce | app/repositories/document.py:221-235 | Over any run at most one complete or mark_failed write matches per document, none if it was terminal. |
| Settlement.FreedAtMostOnce | app/workers/pipeline.py:125-129 | Over any run the slot release and the guard release run at most once per document. |
| Backoff.BackoffIsBounded | app/workers/pipeline.py:81-100 | In every run the delays scheduled for one document sum to at most what its retries so far leave of (max attempts - 1) times the longest delay. |
| Backoff.BackoffIsBelowCeilings | app/core/decorators.py:133-140 | Whatever leases are taken back, unless a job reads its record late the delays sum to at most what is left of the first max attempts - 1 doubling ceilings, one for each epoch. |
| Backoff.OnTimeWithoutRecovery | app/repositories/document.py:134-150 | As long as no lease of a document is taken back, no job reads it late. |
| BackoffTraps.LongestWaitIsReached | app/repositories/document.py:145-150 | For all settings there is a run from the empty service, without any fault, in which slow workers read their claims late and each of the max attempts - 1 retries waits for the longest delay. |
| BackoffTraps.LongestAgainstCeilings | app/core/decorators.py:133-140 | That total is within the sum of the ceilings if and only if these are all the same: one retry, no base, or a cap no larger than the base. |
| Backoff.NextFirstHand | app/workers/pipeline.py:89-100 | As long as no lease of a document was taken back, each open job on it works on the latest claim and has read it. |
| Early.NextOrigin | app/repositories/document.py:134-147 | Whatever can bring a waiting document early after a step, something could before it. |
| Early.EarlyClaimHasCarrier | app/repositories/document.py:134-147 | If the next claim of a waiting document comes before it is due, something carried it at the start. |
| Early.LeftAloneUntilDue | app/workers/pipeline.py:81-100 | A waiting document that nothing carries is left exactly as it is by every run until it is due. |
| EarlyRuns.CarrierTakes | app/workers/consumer.py:82-126 | From each kind of carrier a run without any fault takes the document out of the queue before it is due. |
| EarlyRuns.EarlyExactlyByCarrier | app/repositories/document.py:134-147 | So a waiting document can be claimed before it is due if and only if something carries it. |
| BackoffTraps.BackoffIsBypassed | app/repositories/document.py:134-147 | A run from the empty service, without any fault, in which a retry is scheduled and a second stream entry claims the document before it is due. |
| BackoffTraps.ClaimedWhileListed | app/workers/sweeper.py:104-113 | A run from the empty service, without any fault, to a claim of a document that a sweep has reported as stale and not yet published. |
| Guards.AtMostOneClaimant | app/services/cache.py:67-94 | For a key whose guard was neither bypassed nor lost in use, at most one submission holding it, active document, or job owing its release exists, and the guard names that one's document. |
| Guards.NextKeepsKey | app/services/ingestion.py:84-98 | Every step that is not a breaking one for a key keeps each claimant of it guarded: the guard names its document, and a submission's document does not exist yet. |
| Guards.OneInFlight | app/services/ingestion.py:201-228 | In any run without a breaking step for a key, two claimants of that key are the same at every point; so no two identical documents are active together. |
| Collisions.EachBreachCollides | app/services/cache.py:67-94 | For each of the seven kinds of breaking step (SET NX failed; refused with the answer lost; GET failed; GET found nothing; guard expired in use; insert stored but reported failed; publish failed after the insert) there is a run from the empty service, without any fault but that one step, after which two documents of one user and hash are queued; for the first five with a limit of at least two. |
| Collisions.EachBreachCollidesAtOne | app/services/cache.py:67-94 | For any limit the first five kinds lead to such a pair with one acquire failed besides. |
| Guards.UnusedIsGuarded | app/services/cache.py:67-94 | Once nobody relies on a key any more, exclusivity holds again, whatever broke it. |
| Guards.DeletesOwnGuard | app/services/cache.py:90-94 | While exclusivity holds for a key, the unconditional delete only ever removes the guard of the document it is made for. |
| Guards.JoinedIsOwn | app/services/ingestion.py:201-228 | A submission told to join another document is handed one of its own user and hash, in every reachable state. |
| Tokens.NextKeepsDeliverable | app/workers/sweeper.py:96-113 | Every step keeps: each queued document whose delivery was not dropped has an untried stream entry, a delay-set member, or an actor that owes a publish or ZADD for it. |
| Tokens.NoDeliveryIsLost | app/queue/delay.py:59-74 | From any state in which the document has a token or is not queued, in any run that does not drop it in a gap, it has such a token whenever it is queued, whatever else crashes. |
| Tokens.OnlyGapsDrop | app/workers/pipeline.py:95-104 | Over every step of every actor a delivery goes on record as dropped if and only if it was between insert and XADD (or the insert was stored but reported failed), retry write and ZADD, ZREM and XADD, or reset and XADD when its actor failed or died there, or the queue was lost. |
| Tokens.NextKeepsAttempts | app/workers/consumer.py:82-107 | An entry that is about to be acknowledged has been tried; so acknowledging never loses an untried one. |
| Provenance.NextKeepsProvenance | app/services/ingestion.py:126-180 | Every step keeps: cache entries, summaries held by submissions and jobs, and completed records were computed from a genuinely processed document of the same user and hash. |
| Provenance.CacheAgreesWithRecord | app/services/ingestion.py:112-138 | Under any eviction or Redis failure a lookup finds a summary if and only if the collection has a genuinely processed document for the user and hash, and its measures are those of the submitted content. |
| Provenance.SummariesAreRight | app/services/summarizer.py:144-169 | From the invariant: every completed document carries the measures of its own content and cites itself field by field; one from the cache cites, field by field, a processed document of its user and hash, whose length it carries. |
| Leases.ResetTakesOnlyTheExpired | app/repositories/document.py:239-274 | When the sweeper's reset matches, the lease has expired and the claim is the one its scan saw. |
| Leases.NextKeepsLeases | app/repositories/document.py:134-147 | Every step keeps: a job inside its lease that was claimed without a rival job of its worker still holds its claim and has no rival. |
| Leases.InTimeWins | app/repositories/document.py:221-235 | Such a job's settling write matches, on a record that carries its own claim. |
| Stale.StaleExactlyByClaimOver | app/repositories/document.py:221-235 | The same from any sound state in which no old claim matches: one does at some point of a run if and only if the worker claimed over an unsettled claim of its own. |
| Stale.NextStaysFresh | app/repositories/document.py:134-147 | Every step of every actor but such a claim keeps each open job that would match on the record's latest claim. |
| Stale.ClaimOverIsStale | app/repositories/document.py:134-147 | Right after such a claim the settling write of the older job matches. |
| Backpressure.NextKeepsThrottle | app/workers/consumer.py:70-80 | Every step keeps: permits + running jobs of a worker = concurrency, and exactly the yielded job waits. |
| Backpressure.BackpressureHolds | app/workers/consumer.py:82-156 | At most concurrency jobs of a worker run, at most one more waits, and batch, entry in hand and running jobs are together at most twice the concurrency. |
| Pending.NextStray | app/queue/stream.py:70-117 | The number of pending entries that their live worker has neither in its batch, nor in hand, nor with a job grows only when a read loses its answer, and then by at most one batch. |
| Pending.PendingIsBounded | app/workers/consumer.py:109-126 | So over any run the pending entries of a live worker are at most twice its concurrency, plus those astray before and one batch for each lost answer. |
| Recovery.NoDocumentIsStuck | app/workers/sweeper.py:81-113 | From every reachable state each active document has a finite continuation, in which nothing crashes or fails, to completed. |
| Recovery.RecoveryDeadline | app/repositories/document.py:276-296 | A queued document left alone is reported by the stale scan once both the staleness limit and the longest backoff have passed since its last update. |
| Fresh.ScanReportsExactly | app/repositories/document.py:285-294 | A stale scan can report a document if and only if its record is queued, was last written more than stale_queued_seconds ago, and has no next attempt still ahead. |
| Fresh.NextStamps | app/repositories/document.py:121-235 | Every step leaves a record as it was or stamps it with the time of the write, for a recovery with that of its scan; neither stamp nor clock goes back. |
| Fresh.NextKeepsSchedule | app/repositories/document.py:121-150 | Every step but a settling write on the document keeps its next attempt time and its last error. |
| Fresh.TakenOverOnlyLate | app/queue/stream.py:93-117 | From any state, over any run, an entry is taken over only a whole lease after its last delivery. |
| Records.NextKeepsTidy | app/repositories/document.py:152-219 | Every step of every actor keeps the fields of all records consistent. |
| Records.LandedWrites | app/repositories/document.py:152-219 | A settling write that lands leaves the outcome, the error with its code, attempt and time, and for a retry the time it waits for; other work writes nothing. |
| Records.NextCreates | app/services/ingestion.py:140-180 | A record that appears has user, title, content and hash of some submission, the present time, no attempts and no error, and is queued, or completed and marked as from the cache. |
| Records.NextKeepsPositive | app/services/ratelimit.py:41-50 | Every step keeps: a counter that exists is positive. |
| Recovery.StaleIsPublished | app/workers/sweeper.py:104-113 | A queued document can be brought back onto the stream by waiting and one sweep. |
| Recovery.ExpiredIsPublished | app/workers/sweeper.py:96-102 | A processing document can be reset and brought back onto the stream by waiting and one sweep. |
| Recovery.ReachEntry | app/workers/consumer.py:82-126 | Fresh workers reading batch by batch reach any undelivered entry, and its queued document is completed. |
| Traps.StaleJobSettles | app/repositories/document.py:221-235 | A run from the empty service, without any fault, at whose end a running job's settling write matches although the record carries a newer claim. |
| Traps.StaleJobMatchesNewerClaim | app/repositories/document.py:221-235 | The same from any state in which a running job overstays its lease while its worker is idle and nothing is undelivered. |
| Traps.IdenticalPairArises | app/services/cache.py:77-85 | A run from the empty service, without any fault, after which two documents of one user and hash are queued. |
| Traps.UnguardedSubmissionsCollide | app/services/cache.py:77-85 | If a guard vanishes between SET NX and GET while an identical submission arrives, both are queued, without any fault. |
| Refinement.PipelineAlone | app/workers/pipeline.py:48-129 | A job's own steps, uninterrupted, change the stores by the very function the pipeline method is proved to compute, for every outcome, every delay the backoff can draw and every combination of failed commands and lost answers. |
| Refinement.SubmitAlone | app/services/ingestion.py:74-258 | A submission's own steps, uninterrupted, change the stores as the very predicate says that the submit method is proved to meet, on every path and for every combination of failed commands and lost answers. |
| Text.SameHashSameText | app/services/cache.py:25-35 | Contents with one hash have the same words and the same sentences up to inner whitespace. |
| Text.NormalizeFixesNormalForms | app/services/cache.py:34 | Normalizing is idempotent and leaves a text alone if and only if it has no carriage return and no outer whitespace. |
| Lines.SameHashSameLines | app/services/cache.py:25-35 | Two contents share a hash if and only if their lines, cut at CRLF, CR or LF, agree after outer whitespace is removed. |
| Lines.LineBreaksAreEqual | app/services/cache.py:34 | Exchanging CRLF, a lone CR and LF anywhere in a content keeps its hash. |
| Stretches.WordsAreStretches | app/services/summarizer.py:117 | The words are the maximal stretches of word characters, by positions, from left to right, and cover every such character. |
| Stretches.SentencesAreStretches | app/services/summarizer.py:118 | The sentences are the maximal stretches outside terminators (stops up to whitespace or the end, and that whitespace) that are not blank, from left to right, and cover everything printed there. |
| Summarizer.SameHashSameMeasures | app/services/summarizer.py:112-142 | Contents with one hash have the same word count, sentence count, lead, keywords and reading time. |
| Summarizer.CharCountIsNotCovered | app/services/summarizer.py:134 | The character count is not determined by the hash. |
| Measured.KeywordsByCounting | app/services/summarizer.py:120-125 | Counting positions in the words: at most five keywords, each more frequent than the next or as frequent and earlier, all longer than three letters and no stopwords; and each such word is among them, unless there are five and it comes behind the last. |
| Measured.LowerFoldsCase | app/services/summarizer.py:122 | Lower-casing leaves no capital and makes two words equal if and only if they differ at most in case. |
| Measured.SummaryMeasures | app/services/summarizer.py:112-142 | The word count is the number of positions where a word begins; sentences and characters are counted; the lead is the start, 280 characters at most, of the squeezed first sentence or else of the first thirty words. |
| Measured.SqueezeIsTight | app/services/summarizer.py:127 | Squeezing keeps the printed runs and leaves one blank between two and none outside. |
| Measured.ReadingTimeIsNearest | app/services/summarizer.py:137 | The reading time is the nearest number of seconds at two hundred words a minute, the even one of two, and at least one. |
| Summarizer.KeywordsAreTopFive | app/services/summarizer.py:117-125 | Keywords are distinct candidates in rank order (frequency, then first occurrence), no omitted candidate outranks one, and there are min(5, candidates) of them; each is a lower-cased word longer than three letters and no stopword. |
| Summarizer.TopIsUnique | app/services/summarizer.py:117-125 | That description determines the list. |
| Summarizer.ChainCitesTheOriginal | app/services/summarizer.py:144-169 | Any chain of duplicates cites the upload that was processed, names the last submission as subject, and keeps every measure. |
| Keys.PairKeysInjective | app/config.py:79-84 | Cache and guard keys determine user and digest, even for user ids containing colons. |
| Keys.NamespacesDisjoint | app/config.py:76-84 | Counter, cache and guard keys never coincide. |
| Keys.RateLimitKeyInjective | app/config.py:76-77 | A counter key determines its user. |
| Keys.RateLimitKeyParse | app/services/ratelimit.py:141 | What the reconciler reads from a key is what follows the last colon of the id, which is the id if it has none. |
| Keys.ColonsInTheDigestWouldCollide | app/config.py:79-84 | Injectivity needs the digest to be free of colons. |
| Decorators.CeilingsDouble | app/core/decorators.py:139 | The first ceiling is the smaller of base and maximum, each next one the smaller of the maximum and twice the one before. |
| Decorators.EveryDelayIsDrawn | app/core/decorators.py:133-140 | A delay can be drawn if and only if it lies between zero and the ceiling. |
| Decorators.SumIsGeometric | app/core/decorators.py:139 | The ceilings of n attempts sum to at most base * (2^n - 1), and to just that if and only if the last of them, uncapped, is within the maximum. |
| Decorators.Retryable | app/core/decorators.py:68-107 | At most n calls; earlier outcomes were all transient; the verdict is the last outcome; the pauses are exactly the drawn delays. |
| Decorators.SleepIsBounded | app/core/decorators.py:68-107 | The pauses sum to at most (n - 1) times the maximum and to at most base times 2^(n-1) - 1. |
| Decorators.SleepIsReached | app/core/decorators.py:68-107 | The longest draws sleep for the whole sum of the ceilings; the geometric bound is reached if and only if the last pause is within the maximum. |
| Repository.DocumentRepository.Claim | app/repositories/document.py:121-150 | A queued document is claimed, with lease and attempt count, and returned as it then is; anything else is left alone. |
| Repository.DocumentRepository.Transition | app/repositories/document.py:221-235 | The update lands exactly if the record is processing and held by this worker. |
| Repository.DocumentRepository.Complete | app/repositories/document.py:152-171 | The same for completion. |
| Repository.DocumentRepository.ScheduleRetry | app/repositories/document.py:173-199 | The same for a retry, which keeps the attempt count and records the next attempt time. |
| Repository.DocumentRepository.MarkFailed | app/repositories/document.py:201-219 | The same for terminal failure. |
| Repository.DocumentRepository.ReclaimExpiredLeases | app/repositories/document.py:239-274 | Alone, the rows reset are exactly the rows found, which are distinct expired ones up to the limit; their attempts and backoff stay. |
| Repository.DocumentRepository.FindStaleQueued | app/repositories/document.py:276-296 | Distinct documents that are queued, were last written before the cutoff and have no next attempt ahead; below the limit all of them. |
| Repository.DocumentRepository.FindCompletedByHash | app/repositories/document.py:91-114 | The oldest genuinely processed document of user and hash, or nothing exactly if there is none. |
| Repository.CountsAgree | app/repositories/document.py:73-89 | The two ways of counting agree, and a user has a row exactly if something is active. |
| RateLimiter.RateLimiter.Acquire | app/services/ratelimit.py:74-103 | Answered: allowed exactly if the counter is below the limit, and then it is incremented. Not answered: allowed exactly if the active count is, whether or not the script has taken a slot. |
| RateLimiter.RateLimiter.Release | app/services/ratelimit.py:105-118 | The counter is decremented and dropped at zero; a Redis failure changes nothing. |
| RateLimiter.RateLimiter.Reconcile | app/services/ratelimit.py:120-151 | The new counters are the specified ones, from the collection's counts, and their number is returned; if Redis fails after some rounds, the rows and keys visited so far are done, the rest is untouched, and 0 is returned. |
| RateLimiter.RateLimiter.SetCounters | app/services/ratelimit.py:128-137 | After the first loop each row visited (all of them unless Redis fails) has exactly its count; the number of differing counters among them is returned. |
| RateLimiter.RateLimiter.DropIdleCounters | app/services/ratelimit.py:139-144 | The second loop deletes exactly those scanned keys whose last segment has nothing active. |
| RateLimiter.ReconcileExactness | app/services/ratelimit.py:128-144 | A user's counter ends up right if and only if the id after the last colon is active as the user is, or there was nothing to drop; always for ids without colon. |
| RateLimiter.BrokenRunDoesNoHarm | app/services/ratelimit.py:120-151 | Wherever a run is broken off, the counter of an id without colon is right afterwards or what it was. |
| RateLimiter.RepairCountIsWrongUsers | app/services/ratelimit.py:136-148 | For ids without colon the returned number is the number of users whose counter was wrong. |
| RateLimiter.WrongUsersAreWrong | app/services/ratelimit.py:128-144 | A user counts as wrong exactly if the counter differs from the active count, or exists without one. |
| RateLimiter.SecondRunIsIdle | app/services/ratelimit.py:120-151 | A second run repairs nothing if and only if every active id ends in an active id after its last colon. |
| RateLimiter.SoleColonIdLosesItsCounter | app/services/ratelimit.py:141-143 | A user with a colon in the id who alone is active loses the counter in every run. |
| Cache.SummaryCache.ClaimInflight | app/services/cache.py:67-88 | The guard is set only if free; the holder's document is returned exactly if it was taken and both commands are answered; a guard set without an answer stays. |
| Queue.DocumentStream.Publish | app/queue/stream.py:56-68 | The log grows by this entry if the command takes effect; success is reported exactly if it is answered. |
| Queue.DocumentStream.Read | app/queue/stream.py:70-91 | The next undelivered entries in log order become pending; malformed ones are acknowledged instead of returned. |
| Queue.WellFormedExactly | app/queue/stream.py:70-91 | What a read returns is every entry of its range that names a document, once and in log order. |
| Queue.DocumentStream.Autoclaim | app/queue/stream.py:93-117 | Distinct entries pending for at least the idle time, up to the count, change consumer and delivery time; the rest of the pending list stays. |
| Queue.DelayQueue.Schedule | app/queue/delay.py:42-57 | The member's score is set; a Redis failure changes nothing. |
| Queue.DelayQueue.PopDue | app/queue/delay.py:25-31 | The due members with the lowest scores, in score order and up to the limit, are removed and returned; what is due and left has no lower score. |
| Queue.DelayQueue.PromoteDue | app/queue/delay.py:59-74 | Popped members are published in order; after a failed publish the rest is in neither place. |
| Pipeline.ProcessingPipeline.Run | app/workers/pipeline.py:45-72 | The settling write lands exactly if the record is still held; cache, slot, guard and delay set change exactly if it landed, and only as its path requires. |
| Pipeline.ProcessingPipeline.SettleFailure | app/workers/pipeline.py:74-123 | Retry with backoff exactly if the error is transient and attempts remain, else terminal failure; side effects as above. |
| Pipeline.ProcessingPipeline.ReleaseSlot | app/workers/pipeline.py:125-129 | Slot and guard of the document are released. |
| Ingestion.IngestionService.Submit | app/services/ingestion.py:74-98 | The result and the new state of every store on every path: too long, cached, duplicate, rate limited, not stored, not queued, created. |
| Ingestion.IngestionService.SubmitUncached | app/services/ingestion.py:85-98 | The paths without a cached summary: what is taken and what each early exit gives back. |
| Ingestion.IngestionService.LookupCachedSummary | app/services/ingestion.py:112-138 | The cached entry, else the attributed summary of the oldest processed document, which refills the cache. |
| Ingestion.IngestionService.JoinInflightDuplicate | app/services/ingestion.py:201-228 | At most ten reads with a pause between two; joined if and only if some read finds the record. |
| Ingestion.IngestionService.AcquireSlot | app/services/ingestion.py:182-199 | A refusal gives back the guard. |
| Ingestion.IngestionService.EnqueueNew | app/services/ingestion.py:230-258 | An insert or publish that is not answered gives back slot and guard, once; what was stored or published by then stays. |
| Consumer.DocumentConsumer.NextEntries | app/workers/consumer.py:109-126 | Every tenth cycle abandoned entries if there are any, otherwise the next undelivered ones. |
| Consumer.DocumentConsumer.NextClaimed | app/workers/consumer.py:82-107 | From one yield to the next: entries are tried in order until a claim wins; those before it were not queued and are acknowledged; the winner is claimed as it then was. |
| Consumer.ClaimedOnce | app/workers/consumer.py:95-107 | However often a batch names a document, it is yielded once, if and only if it was queued, and its record is claimed once; all other records stay. |
| Consumer.DocumentConsumer.Process | app/workers/consumer.py:128-156 | Acknowledge and free the permit in every case, after what the pipeline did. |
| Consumer.DocumentConsumer.Run | app/workers/consumer.py:70-107 | Over one batch, the next claim being tried only once the last job has its permit: claims and acknowledgements are those of the batch, never more than concurrency run, nothing is waited for while there is room, and every job yielded is running or finished, once. |
| Sweeper.SweeperProcess.SweepOnce | app/workers/sweeper.py:81-94 | The stages in order, with what each changes, what a failed publish leaves undone, and reconcile every twentieth pass. |
| Sweeper.SweeperProcess.PublishEach | app/workers/sweeper.py:96-113 | Ids are published in order up to the first failure. |

## Left out

- RateLimiter.RateLimiter.Reconcile: `SCAN` is taken to yield each key once; other writers in between are in the machine, not in the method.
- Slots.ReconcileVisit: is about one visit under a reading that is still current; `Reconciled.RunMakesCounterRight` states the whole run, and `Slots.StepKeepsCover` any write.
- Reconciled.RunMakesCounterRight: is about runs that nothing interrupts; with other writers in between `Reachable.CounterIsSafe` and `Reachable.LimitIsKept` hold.
- Guards.OneInFlight: excludes the breaking steps; with any one of them the property is false, as `Collisions.EachBreachCollides` and, for a limit of one, `Collisions.EachBreachCollidesAtOne` show.
- Backoff.BackoffIsBelowCeilings: excludes runs in which a job on the document reads late; there the bound is false, except for the settings `Reachable.CeilingsBoundExactly` names.
- Recovery.NoDocumentIsStuck: is existence of a continuation, not fairness of a scheduler.
- Consumer.DocumentConsumer.Process: the moment at which other tasks run is not modelled in the class; the machine interleaves them.
- Consumer.DocumentConsumer.Run: a task that ends while the loop waits gives back its permit and its entry; what its pipeline changed by then is in `Consumer.DocumentConsumer.Process` and in the machine.
- Refinement.PipelineAlone: is about uninterrupted runs; sweep and consume loop have no such lemma, their steps using the same spec functions as their methods.
- Refinement.SubmitAlone: is about uninterrupted runs, and about contents the length check lets through: the machine starts after it.
- Overruns.OvershootIsReached: the contents it submits grow with the limit, and the length check, which comes before the machine's first step, is not applied to them.
- An acknowledgement that fails skips the semaphore release and tears the worker down; the machine has this as a worker death.
- A reconcile run is an actor of its own in the machine, started at any time, instead of the last stage of every twentieth sweep; its reading and its writes interleave with everything else.
- A settling MongoDB write that took effect but is reported as failed, an insert of a document from the cache that fails, and ids that are not valid ObjectIds.
- The rendered summary text, which is a function of the title and of modelled fields; the model name; log output.
- Float rounding of the reading time, taken exactly (half to even).
- SHA-256, taken as injective on normalized text; Unicode lower-casing beyond ASCII letters, which the word pattern excludes anyway.
- Clock skew between hosts and millisecond truncation of stored times: one monotone clock.
- Simulated processing time, random failure and jitter: choices of the step, within their ranges.
- Graceful shutdown, signal handling, health checks, HTTP routing, error envelopes, listing and pagination, the user interface.
