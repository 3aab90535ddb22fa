/** What happens to one claimed document: process it, then settle it. */
module Pipeline {
  import opened Text
  import opened Types
  import opened Decorators
  import opened Keys
  import opened Repository
  import opened RateLimiter
  import opened Cache
  import opened Queue
  import opened Summarizer

  /** How the summarizer ended. */
  datatype Outcome = Done | Raised(code: string, transient: bool)

  /** Which Redis commands get through, should they be made. */
  datatype Health = Health(cache: bool, counter: bool, guard: bool, delay: bool)

  /** `exc.transient and document.attempts < max_attempts`. */
  predicate Retriable(d: Doc, outcome: Outcome, settings: Settings) {
    outcome.Raised? && outcome.transient && d.attempts < settings.maxAttempts
  }

  /** The record after the settling write of an attempt that owns it. */
  function SettledDoc(was: Doc, id: DocId, d: Doc, outcome: Outcome, settings: Settings, delay: real, now: Time): Doc {
    match outcome
    case Done => CompleteDoc(was, BuildSummary(d.content, Some(RefOf(id, d))), now)
    case Raised(code, _) =>
      var error := ProcessingError(code, d.attempts, now);
      if Retriable(d, outcome, settings) then RetryDoc(was, error, now + delay, now) else FailDoc(was, error, now)
  }

  /** What a pipeline touches; `K` is how the limiter names a user. */
  datatype Stores<K> = Stores(
    docs: Docs,
    entries: map<Key, Summary>,
    counters: map<K, nat>,
    guards: map<Key, DocId>,
    delayed: map<DocId, Time>)

  /** The settling write lands exactly when the record is still held by this
      worker; the side effects follow exactly when it landed, and only those
      of the path taken: a terminal outcome frees slot and guard, a retry
      keeps both and enters the delay set. */
  function AfterSettling<K(==)>(was: Stores<K>, worker: WorkerId, slot: K, id: DocId, d: Doc, outcome: Outcome,
                                settings: Settings, wait: real, now: Time, up: Health): Stores<K> {
    var owned := Owns(was.docs, id, worker);
    var final := owned && !Retriable(d, outcome, settings);
    var key := (d.user, d.hash);
    Stores(
      if owned then was.docs[id := SettledDoc(was.docs[id], id, d, outcome, settings, wait, now)] else was.docs,
      if owned && outcome.Done? && up.cache then was.entries[key := BuildSummary(d.content, Some(RefOf(id, d)))] else was.entries,
      if final && up.counter then Released(was.counters, slot) else was.counters,
      if final && up.guard then was.guards - {key} else was.guards,
      if owned && !final && up.delay then was.delayed[id := now + wait] else was.delayed)
  }

  class ProcessingPipeline {
    const workerId: WorkerId
    const repo: DocumentRepository
    const cache: SummaryCache
    const limiter: RateLimiter
    const delay: DelayQueue
    const settings: Settings

    constructor (workerId: WorkerId, repo: DocumentRepository, cache: SummaryCache, limiter: RateLimiter,
                 delay: DelayQueue, settings: Settings)
      ensures this.workerId == workerId && this.repo == repo && this.cache == cache && this.limiter == limiter
      ensures this.delay == delay && this.settings == settings
    {
      this.workerId, this.repo, this.cache, this.limiter := workerId, repo, cache, limiter;
      this.delay, this.settings := delay, settings;
    }

    predicate Fits(d: Doc, jitter: real) {
      settings.Valid() && d.attempts >= 1 && 0.0 <= jitter <= 1.0
    }

    function Touched(): Stores<string>
      reads repo, cache, limiter, delay
    {
      Stores(repo.docs, cache.entries, limiter.redis, cache.guards, delay.zset)
    }

    twostate predicate Settled(id: DocId, d: Doc, outcome: Outcome, jitter: real, now: Time, up: Health)
      requires Fits(d, jitter)
      reads repo, cache, limiter, delay
    {
      var wait := BackoffDelay(d.attempts, settings.retryBase, settings.retryMax, jitter);
      Touched() == AfterSettling(old(Touched()), workerId, RateLimitKey(d.user), id, d, outcome, settings, wait, now, up)
    }

    method Run(id: DocId, d: Doc, outcome: Outcome, jitter: real, now: Time, up: Health)
      requires Fits(d, jitter)
      modifies repo, cache, limiter, delay
      ensures Settled(id, d, outcome, jitter, now, up)
    {
      if outcome.Raised? {
        SettleFailure(id, d, outcome, jitter, now, up);
        return;
      }
      var summary := BuildSummary(d.content, Some(RefOf(id, d)));
      var completed := repo.Complete(id, workerId, summary, now);
      if !completed {
        return;
      }
      cache.Store(d.user, d.hash, summary, up.cache);
      ReleaseSlot(d, up);
    }

    method SettleFailure(id: DocId, d: Doc, outcome: Outcome, jitter: real, now: Time, up: Health)
      requires Fits(d, jitter) && outcome.Raised?
      modifies repo, cache`guards, limiter, delay
      ensures Settled(id, d, outcome, jitter, now, up)
    {
      var error := ProcessingError(outcome.code, d.attempts, now);
      if Retriable(d, outcome, settings) {
        var wait := BackoffDelay(d.attempts, settings.retryBase, settings.retryMax, jitter);
        var requeued := repo.ScheduleRetry(id, workerId, error, now + wait, now);
        if requeued {
          delay.Schedule(id, wait, now, up.delay);
        }
        return;
      }
      var failed := repo.MarkFailed(id, workerId, error, now);
      if failed {
        ReleaseSlot(d, up);
      }
    }

    method ReleaseSlot(d: Doc, up: Health)
      modifies cache`guards, limiter
      ensures limiter.redis == if up.counter then Released(old(limiter.redis), RateLimitKey(d.user)) else old(limiter.redis)
      ensures cache.guards == if up.guard then old(cache.guards) - {(d.user, d.hash)} else old(cache.guards)
    {
      limiter.Release(d.user, up.counter);
      cache.ReleaseInflight(d.user, d.hash, up.guard);
    }
  }
}
