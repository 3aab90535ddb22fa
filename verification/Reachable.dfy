/** All of it together: every state the service can reach, under any
    interleaving, crash and Redis fault, satisfies every invariant. */
module Reachable {
  import opened Types
  import opened Decorators
  import opened Cache
  import opened Repository
  import opened Protocol
  import opened References
  import opened ReferencesKept
  import opened Slots
  import opened Attempts
  import opened Settlement
  import opened Guards
  import opened Tokens
  import opened Provenance
  import opened Leases
  import opened Backpressure
  import opened Pending
  import opened Backoff
  import opened Recovery
  import opened Early
  import opened EarlyRuns
  import BackoffTraps
  import Fresh
  import Measured
  import Records
  import Stale
  import opened Text
  import opened Summarizer

  ghost predicate Sound(s: State) {
    && Coherent(s)
    && SlotsConserved(s)
    && Accounted(s)
    && Guarded(s)
    && AcksAttempted(s) && Deliverable(s)
    && Provenanced(s)
    && Leased(s)
    && Throttled(s)
  }

  lemma InitIsSound(s: State)
    requires Init(s)
    ensures Sound(s)
  {}

  lemma NextIsSound(s: State, a: Action)
    requires Sound(s) && Enabled(s, a)
    ensures Sound(Next(s, a))
  {
    NextKeepsCoherence(s, a);
    forall user ensures Balanced(Next(s, a), user) { NextKeepsBalance(s, a, user); }
    NextKeepsAccounts(s, a);
    NextKeepsGuarded(s, a);
    NextKeepsAttempts(s, a);
    NextKeepsDeliverable(s, a);
    NextKeepsProvenance(s, a);
    NextKeepsLeases(s, a);
    NextKeepsThrottle(s, a);
  }

  lemma {:induction false} RunIsSound(s: State, acts: seq<Action>)
    requires Sound(s) && Legal(s, acts)
    ensures Sound(Exec(s, acts))
    decreases |acts|
  {
    if acts != [] {
      NextIsSound(s, acts[0]);
      RunIsSound(Next(s, acts[0]), acts[1..]);
    }
  }

  lemma ReachableIsSound(s: State, acts: seq<Action>)
    requires Init(s) && Legal(s, acts)
    ensures Sound(Exec(s, acts))
  {
    InitIsSound(s);
    RunIsSound(s, acts);
  }

  // ---------------------------------------------------------------------
  // From the empty service
  // ---------------------------------------------------------------------

  /** In every run no user ever has more documents active than the limit, but
      for one each per degraded admission and per insert or publish reported
      failed after it was stored, and for what writes to the counter erased. */
  lemma LimitIsKept(s: State, acts: seq<Action>, user: UserId)
    requires Init(s) && Legal(s, acts)
    ensures |ActiveIds(Exec(s, acts).docs, user)| <= s.cfg.maxActive + OvershootCount(s, acts, user) + ErasedSum(s, acts, user)
  {
    InitIsSound(s);
    OvershootIsBounded(s, acts, user);
  }

  /** With a limit of one: two documents of a user are active together only
      if one of them overshot, or a write to the counter erased something. */
  lemma LimitOfOne(s: State, acts: seq<Action>, user: UserId, a: DocId, b: DocId)
    requires Init(s) && Legal(s, acts) && s.cfg.maxActive == 1
    requires a != b && {a, b} <= ActiveIds(Exec(s, acts).docs, user)
    ensures OvershootCount(s, acts, user) + ErasedSum(s, acts, user) >= 1
  {
    LimitIsKept(s, acts, user);
    SubsetSize({a, b}, ActiveIds(Exec(s, acts).docs, user));
  }

  /** Whatever crashes: without an overshoot, active documents, slots held by
      submissions and slots owed by jobs together never exceed the counter, nor
      the counter the limit, exactly as long as whoever writes the counter, by
      reconcile or expiry, leaves it so. */
  lemma CounterIsSafe(s: State, acts: seq<Action>, user: UserId)
    requires Init(s) && Legal(s, acts) && OvershootCount(s, acts, user) == 0
    ensures CoversThroughout(s, acts, user, s.cfg.maxActive) <==> AllWellWritten(s, acts, user, s.cfg.maxActive)
    ensures AllWellWritten(s, acts, user, s.cfg.maxActive) ==> Covers(Exec(s, acts), user, s.cfg.maxActive)
  {
    InitIsSound(s);
    assert Balanced(s, user);
    CounterCovers(s, acts, user, s.cfg.maxActive);
  }

  /** ... and in runs without crash and counter fault they are equal, exactly
      as long as every write is exact. */
  lemma CounterIsExact(s: State, acts: seq<Action>, user: UserId)
    requires Init(s) && Legal(s, acts) && forall a :: a in acts ==> Clean(a)
    ensures ExactThroughout(s, acts, user) <==> AllExactlyWritten(s, acts, user)
    ensures AllExactlyWritten(s, acts, user) ==> IsExact(Exec(s, acts), user)
  {
    InitIsSound(s);
    assert Balanced(s, user);
    CleanRunsAreExact(s, acts, user);
  }

  /** Without a breaking step for the key, two active documents of one user
      with one content hash are the same document. */
  lemma NoIdenticalPair(s: State, acts: seq<Action>, key: Key, a: DocId, b: DocId)
    requires Init(s) && Legal(s, acts) && NeverBroken(s, acts, key)
    requires DocClaims(Exec(s, acts).docs, a, key) && DocClaims(Exec(s, acts).docs, b, key)
    ensures a == b
  {
    InitIsSound(s);
    OneInFlight(s, acts, key, ByDoc(a), ByDoc(b));
  }

  /** From the empty service, or from any later point at which the document
      has a token or needs none: without a drop in one of the gaps it has a
      token whenever it is queued. */
  lemma TokenIsKept(s: State, acts: seq<Action>, more: seq<Action>, id: DocId)
    requires Init(s) && Legal(s, acts) && Legal(Exec(s, acts), more)
    requires (acts == [] || Kept(Exec(s, acts), id)) && NeverDropped(Exec(s, acts), more, id)
    ensures Kept(Exec(Exec(s, acts), more), id)
  {
    ReachableIsSound(s, acts);
    NoDeliveryIsLost(Exec(s, acts), more, id);
  }

  /** So once a sweep has published a document, however its delivery was
      dropped before, it is under that guarantee again. */
  lemma RepublishedIsKept(s: State, acts: seq<Action>, w: SweepId, reply: Reply, id: DocId, more: seq<Action>)
    requires Init(s) && Legal(s, acts) && SweepEnabled(Exec(s, acts), w, DoPublishId(reply)) && reply.Took()
    requires var ids := Exec(s, acts).actors.sweeps[w].pc.ids; ids != [] && ids[0] == id
    requires var t := PublishIdStep(Exec(s, acts), w, reply); Legal(t, more) && NeverDropped(t, more, id)
    ensures Kept(Exec(PublishIdStep(Exec(s, acts), w, reply), more), id)
  {
    ReachableIsSound(s, acts);
    PublishedIsKept(Exec(s, acts), w, reply);
    NextIsSound(Exec(s, acts), OfSweep(w, DoPublishId(reply)));
    NoDeliveryIsLost(PublishIdStep(Exec(s, acts), w, reply), more, id);
  }

  /** Whatever has happened, what is active can still be completed. */
  lemma WorkCanFinish(s: State, acts: seq<Action>, id: DocId) returns (more: seq<Action>)
    requires Init(s) && Legal(s, acts) && id in Exec(s, acts).docs && Exec(s, acts).docs[id].status.Active()
    ensures Legal(Exec(s, acts), more) && AllBenign(more) && Recovery.Completed(Exec(Exec(s, acts), more).docs, id)
  {
    InitIsCoherent(s);
    RunKeepsCoherence(s, acts);
    more := NoDocumentIsStuck(Exec(s, acts), id);
  }

  /** A live worker never has more entries pending than twice its concurrency,
      plus a batch for each read whose answer it lost. */
  lemma PendingIsSmall(s: State, acts: seq<Action>, w: WorkerId)
    requires Init(s) && Legal(s, acts) && w in Exec(s, acts).actors.workers
    ensures var c := s.cfg.concurrency; |PendingOf(Exec(s, acts).redis, w)| <= c + c + LostBatches(acts, w, c)
  {
    InitIsSound(s);
    PendingIsBounded(s, acts, w);
  }

  lemma WaitSums(s: State, acts: seq<Action>, id: DocId)
    requires Init(s) && Legal(s, acts)
    ensures s.cfg.Valid() && DelaySum(s, acts, id) <= Longest(s.cfg.maxAttempts - 1, LongestDelay(s.cfg))
    ensures NeverLate(s, acts, id) ==>
              DelaySum(s, acts, id) <= CeilingSum(s.cfg.maxAttempts - 1, s.cfg.retryBase, s.cfg.retryMax)
    ensures Reclaims(Exec(s, acts).audit.history, id) == 0 ==> NeverLate(s, acts, id)
  {
    InitIsSound(s);
    BackoffIsBounded(s, acts, id);
    if Reclaims(Exec(s, acts).audit.history, id) == 0 { OnTimeWithoutRecovery(s, acts, id); }
    if NeverLate(s, acts, id) { BackoffIsBelowCeilings(s, acts, id); }
  }

  lemma LinearForm(cfg: Settings)
    requires cfg.Valid()
    ensures Longest(cfg.maxAttempts - 1, LongestDelay(cfg)) == LinearBound(cfg)
  {
    LongestIsProduct(cfg.maxAttempts - 1, LongestDelay(cfg));
  }

  lemma DoublingForm(cfg: Settings)
    requires cfg.Valid()
    ensures CeilingSum(cfg.maxAttempts - 1, cfg.retryBase, cfg.retryMax) <= DoublingBound(cfg)
  {
    SumIsGeometric(cfg.maxAttempts - 1, cfg.retryBase, cfg.retryMax);
  }

  ghost function LinearBound(cfg: Settings): real
    requires cfg.Valid()
  {
    (cfg.maxAttempts - 1) as real * LongestDelay(cfg)
  }

  ghost function DoublingBound(cfg: Settings): real
    requires cfg.Valid()
  {
    cfg.retryBase * (Pow2(cfg.maxAttempts - 1) as real - 1.0)
  }

  /** All the backoff a document is ever made to wait: in every run at most
      `max - 1` times the longest delay there is; and, unless a job on it read its record late, at
      most `retry_base * (2^(max - 1) - 1)`. A read can only be late after a
      lease of the document was taken back. */
  lemma WaitIsBounded(s: State, acts: seq<Action>, id: DocId)
    requires Init(s) && Legal(s, acts)
    ensures s.cfg.Valid() && DelaySum(s, acts, id) <= LinearBound(s.cfg)
    ensures NeverLate(s, acts, id) ==> DelaySum(s, acts, id) <= DoublingBound(s.cfg)
    ensures Reclaims(Exec(s, acts).audit.history, id) == 0 ==> NeverLate(s, acts, id)
  {
    WaitSums(s, acts, id);
    LinearForm(s.cfg);
    DoublingForm(s.cfg);
  }

  /** What bounds the total wait in every run. */
  ghost predicate WaitsAtMost(s: State, bound: real) {
    forall acts, id :: Legal(s, acts) ==> DelaySum(s, acts, id) <= bound
  }

  /** The linear bound is exact: a bound holds in every run if and only if it
      is no smaller. */
  lemma WaitIsExactly(s: State, bound: real)
    requires Init(s)
    ensures WaitsAtMost(s, bound) <==> LinearBound(s.cfg) <= bound
  {
    var acts, id := BackoffTraps.LongestWaitIsReached(s);
    LongestIsProduct(s.cfg.maxAttempts - 1, LongestDelay(s.cfg));
    if LinearBound(s.cfg) <= bound {
      forall more, d | Legal(s, more) ensures DelaySum(s, more, d) <= bound { WaitIsBounded(s, more, d); }
    }
  }

  lemma LinearAgainstCeilings(cfg: Settings)
    requires cfg.Valid()
    ensures LinearBound(cfg) <= CeilingSum(cfg.maxAttempts - 1, cfg.retryBase, cfg.retryMax) <==> BackoffTraps.FlatCeilings(cfg)
  {
    BackoffTraps.LongestAgainstCeilings(cfg);
    LongestIsProduct(cfg.maxAttempts - 1, LongestDelay(cfg));
  }

  /** So the sum of the ceilings bounds the wait in every run if and only if
      there is only one retry, no backoff, or no growth; otherwise it takes
      that no read is late. */
  lemma CeilingsBoundExactly(s: State)
    requires Init(s)
    ensures WaitsAtMost(s, CeilingSum(s.cfg.maxAttempts - 1, s.cfg.retryBase, s.cfg.retryMax)) <==> BackoffTraps.FlatCeilings(s.cfg)
  {
    WaitIsExactly(s, CeilingSum(s.cfg.maxAttempts - 1, s.cfg.retryBase, s.cfg.retryMax));
    LinearAgainstCeilings(s.cfg);
  }

  /** The document waits until `due`, and is claimed before that in some run if
      and only if something carries it. */
  ghost predicate WaitsUnlessCarried(s: State, id: DocId, due: Time) {
    Waiting(s, id, due) &&
    ((exists acts, a :: EarlyClaim(s, acts, a, id, due)) <==> (exists c :: Brings(s, c, id, due)))
  }

  lemma SoundDecides(s: State, id: DocId, due: Time)
    requires Sound(s) && Waiting(s, id, due)
    ensures WaitsUnlessCarried(s, id, due)
  {
    EarlyExactlyByCarrier(s, id, due);
  }

  /** In every reachable state in which a document waits for a retry, so right
      after it was scheduled, its next claim can come early if and only if
      something carries it even then: for instance a second stream entry, or
      the retrying job's own until it is acknowledged. */
  lemma RetryKeepsItsTime(s: State, acts: seq<Action>, id: DocId, due: Time)
    requires Init(s) && Legal(s, acts) && Waiting(Exec(s, acts), id, due)
    ensures WaitsUnlessCarried(Exec(s, acts), id, due)
  {
    ReachableIsSound(s, acts);
    SoundDecides(Exec(s, acts), id, due);
  }

  lemma RequeuedWaits(s: State, a: Action, id: DocId)
    requires Enabled(s, a) && Requeues(s, a, id) && a.work.delay > 0.0
    ensures Waiting(Next(s, a), id, Next(s, a).now + a.work.delay)
  {
    assert Next(s, a) == RetryStep(s, a.jid, a.work.code, a.work.delay);
  }

  lemma OneStepLonger(s: State, acts: seq<Action>, a: Action)
    requires Legal(s, acts) && Enabled(Exec(s, acts), a)
    ensures Legal(s, acts + [a]) && Exec(s, acts + [a]) == Next(Exec(s, acts), a)
  {
    var last := [a];
    assert last[1..] == [];
    assert Legal(Next(Exec(s, acts), a), last[1..]) && Exec(Next(Exec(s, acts), a), last[1..]) == Next(Exec(s, acts), a);
    RunsCompose(s, acts, last);
  }

  /** The step is the write of a retry that has to wait until `due`, and leads
      to `t`. */
  ghost predicate SentBack(s: State, a: Action, id: DocId, t: State, due: Time) {
    Enabled(s, a) && Requeues(s, a, id) && a.work.delay > 0.0 && Next(s, a) == t && due == t.now + a.work.delay
  }

  lemma SentBackWaits(s: State, acts: seq<Action>, a: Action, id: DocId, t: State, due: Time) returns (more: seq<Action>)
    requires Legal(s, acts) && SentBack(Exec(s, acts), a, id, t, due)
    ensures Legal(s, more) && Exec(s, more) == t && Waiting(t, id, due)
  {
    more := acts + [a];
    RequeuedWaits(Exec(s, acts), a, id);
    OneStepLonger(s, acts, a);
  }

  /** So whether a retry waits for its time is decided by its own write: right
      after it, the next claim can come early if and only if something carries
      the document already. */
  lemma RetryWriteDecides(s: State, acts: seq<Action>, a: Action, id: DocId, t: State, due: Time)
    requires Init(s) && Legal(s, acts) && SentBack(Exec(s, acts), a, id, t, due)
    ensures WaitsUnlessCarried(t, id, due)
  {
    var more := SentBackWaits(s, acts, a, id, t, due);
    RetryKeepsItsTime(s, more, id, due);
  }

  // ---------------------------------------------------------------------
  // Results of slow workers
  // ---------------------------------------------------------------------

  /** The result of a slow worker is dropped at every point of a run, that is,
      no settling write matches but that of the record's latest claim, if and
      only if on that run no worker claims the document while it has another
      unsettled claim of it. */
  lemma StaleResultsAreDropped(s: State, acts: seq<Action>, id: DocId)
    requires Init(s) && Legal(s, acts)
    ensures !Stale.SomeStaleWrite(s, acts, id) <==> !Stale.SomeClaimOver(s, acts, id)
  {
    InitIsSound(s);
    Stale.StaleExactlyByClaimOver(s, acts, id);
  }

  // ---------------------------------------------------------------------
  // Summaries and records
  // ---------------------------------------------------------------------

  /** Every completed document carries a summary of its own content, counted
      on that content, and cites itself and, if it was answered from the cache,
      the upload that was processed, field by field. */
  lemma SummariesSayRight(s: State, acts: seq<Action>, id: DocId)
    requires Init(s) && Legal(s, acts) && id in Exec(s, acts).docs && Exec(s, acts).docs[id].status.Completed?
    ensures var docs := Exec(s, acts).docs;
            && docs[id].summary.Some? && SaysRight(docs, id, docs[id].summary.value)
            && CountsContent(docs[id].summary.value, docs[id].content)
  {
    ReachableIsSound(s, acts);
    SummariesAreRight(Exec(s, acts), id);
    Measured.SummaryMeasures(Exec(s, acts).docs[id].content, None);
  }

  ghost predicate CountsContent(summary: Summary, content: string) {
    && summary.wordCount == |Measured.Beginnings(content)| && summary.sentenceCount == |Sentences(content)|
    && summary.keywords == Keywords(Words(content)) && summary.readingTimeSeconds == ReadingTime(summary.wordCount)
    && Measured.IsStart(summary.lead, Measured.LeadSource(content), 280)
  }

  /** No two uploads are cited alike. */
  lemma UploadsAreCitedApart(s: State, acts: seq<Action>, a: DocId, b: DocId)
    requires Init(s) && Legal(s, acts) && a != b
    requires var docs := Exec(s, acts).docs; a in docs && b in docs && docs[a].status.Completed? && docs[b].status.Completed?
    ensures var docs := Exec(s, acts).docs;
            && docs[a].summary.Some? && docs[b].summary.Some?
            && docs[a].summary.value.document != docs[b].summary.value.document
            && (docs[a].summary.value.origin.Some? ==> docs[a].summary.value.origin != docs[a].summary.value.document)
  {
    ReachableIsSound(s, acts);
    CitedApart(Exec(s, acts), a, b);
  }

  /** The fields of every record tell one story, no counter stands at zero, and
      no delivery lies ahead of the clock. */
  lemma RecordsAreTidy(s: State, acts: seq<Action>)
    requires Init(s) && Legal(s, acts)
    ensures var t := Exec(s, acts); Records.AllTidy(t.docs) && Records.NoZeros(t) && Fresh.DeliveriesPast(t)
  {
    InitIsCoherent(s);
    Records.RunKeepsRecords(s, acts);
    Fresh.RunKeepsPast(s, acts);
  }

  // ---------------------------------------------------------------------
  // What was just touched is left alone
  // ---------------------------------------------------------------------

  /** The step creates or changes the record, and leads to `t`. */
  ghost predicate Writes(s: State, a: Action, id: DocId, t: State) {
    Enabled(s, a) && Fresh.WritesTo(s, a, id) && Next(s, a) == t
  }

  lemma WrittenNow(s: State, acts: seq<Action>, a: Action, id: DocId, t: State)
    requires Init(s) && Legal(s, acts) && Writes(Exec(s, acts), a, id, t)
    ensures Coherent(t) && id in t.docs && Fresh.LeftUntil(t, id) == Fresh.WriteTime(Exec(s, acts), a) + t.cfg.staleQueued
  {
    InitIsCoherent(s);
    RunKeepsCoherence(s, acts);
    NextKeepsCoherence(Exec(s, acts), a);
    Fresh.NextStamps(Exec(s, acts), a, id);
  }

  /** From any write of a record on, no stale scan of any run reports the
      document until `staleQueued` has passed. A reset by lease recovery counts
      from the time of its scan. */
  lemma FreshIsLeftAlone(s: State, acts: seq<Action>, a: Action, id: DocId, t: State, more: seq<Action>, x: SweepId, ids: seq<DocId>)
    requires Init(s) && Legal(s, acts) && Writes(Exec(s, acts), a, id, t)
    requires Legal(t, more) && Fresh.Reports(Exec(t, more), x, ids, id)
    ensures Exec(t, more).now > Fresh.WriteTime(Exec(s, acts), a) + t.cfg.staleQueued
  {
    WrittenNow(s, acts, a, id, t);
    Fresh.ReportedOnlyLate(t, more, x, ids, id);
  }

  /** A stale stage can still publish it in that time if and only if a live
      sweep had reported it before the write. */
  lemma FreshIsRestaledExactly(s: State, acts: seq<Action>, a: Action, id: DocId, t: State, until: Time)
    requires Init(s) && Legal(s, acts) && Writes(Exec(s, acts), a, id, t)
    requires until == Fresh.WriteTime(Exec(s, acts), a) + t.cfg.staleQueued
    ensures (exists more, b :: Fresh.RestalesBy(t, more, b, id, until)) <==> t.now <= until && exists x :: Fresh.Listed(t, x, id)
  {
    WrittenNow(s, acts, a, id, t);
    Fresh.RestaledExactly(t, id, until);
  }

  /** Nor does one before a retry is due that was scheduled by that write,
      whatever claims and recoveries come in between, unless the document is
      settled again. */
  lemma RetryIsSpared(s: State, acts: seq<Action>, a: Action, id: DocId, t: State, due: Time, more: seq<Action>, x: SweepId, ids: seq<DocId>)
    requires Init(s) && Legal(s, acts) && SentBack(Exec(s, acts), a, id, t, due)
    requires Legal(t, more) && Fresh.NeverSettled(t, more, id) && Fresh.Reports(Exec(t, more), x, ids, id)
    ensures Exec(t, more).now >= due
  {
    var whole := SentBackWaits(s, acts, a, id, t, due);
    InitIsCoherent(s);
    RunKeepsCoherence(s, whole);
    Fresh.SparedUntilDue(t, more, id, due, x, ids);
  }

  /** A delivered entry stays with its worker for a whole lease. */
  lemma EntriesStay(s: State, acts: seq<Action>, e: EntryId, more: seq<Action>, w: WorkerId, taken: seq<EntryId>, reply: Reply)
    requires Init(s) && Legal(s, acts) && e in Exec(s, acts).redis.pel && Legal(Exec(s, acts), more)
    requires Fresh.TakesOver(Exec(Exec(s, acts), more), w, taken, reply, e)
    ensures Exec(Exec(s, acts), more).now >= Exec(s, acts).redis.pel[e].since + s.cfg.lease
  {
    Fresh.RunKeepsPast(s, acts);
    SurplusOfRun(s, acts, "");
    Fresh.TakenOverOnlyLate(Exec(s, acts), more, w, taken, reply, e);
  }
}
