/** What every stored record and every counter looks like, whatever happened:
    the fields tell one consistent story, and no counter stands at zero. */
module Records {
  import opened Types
  import opened Repository
  import opened RateLimiter
  import opened Protocol
  import opened Frames
  import opened References
  import opened ReferencesKept
  import opened Fresh

  // ---------------------------------------------------------------------
  // Records
  // ---------------------------------------------------------------------

  /** A completed record has no error; a failed one has, from its last write;
      neither waits. Who waits has failed before, not after the time it waits
      for. An error is of an attempt that was made, and not younger than the
      record. */
  ghost predicate Tidy(d: Doc) {
    && (d.status.Completed? ==> d.error == None && d.nextAttemptAt == None)
    && (d.status.Failed? ==> d.error.Some? && d.nextAttemptAt == None && d.error.value.failedAt == d.updatedAt)
    && (d.nextAttemptAt.Some? ==> d.error.Some? && d.error.value.failedAt <= d.nextAttemptAt.value)
    && (d.error.Some? ==> 1 <= d.error.value.attempts <= d.attempts && d.error.value.failedAt <= d.updatedAt)
    && d.createdAt <= d.updatedAt
  }

  ghost predicate AllTidy(docs: Docs) {
    forall id :: id in docs ==> Tidy(docs[id])
  }

  lemma LookupKeepsTidy(s: State, sid: SubmitId, a: LookupStep)
    requires AllTidy(s.docs) && LookupEnabled(s, sid, a)
    ensures AllTidy(LookupNext(s, sid, a).docs)
  {
    LookupAddsOneThing(s, sid, a);
  }

  lemma EnqueueKeepsTidy(s: State, sid: SubmitId, a: EnqueueStep)
    requires AllTidy(s.docs) && EnqueueEnabled(s, sid, a)
    ensures AllTidy(EnqueueNext(s, sid, a).docs)
  {
    EnqueueAddsOneThing(s, sid, a);
  }

  lemma WorkerKeepsTidy(s: State, w: WorkerId, a: WorkerStep)
    requires Coherent(s) && AllTidy(s.docs) && WorkerEnabled(s, w, a)
    ensures AllTidy(WorkerNext(s, w, a).docs)
  {
    if ClaimWins(s, w, a) {
      var id := s.redis.log[s.actors.workers[w].batch[0]];
      assert Tidy(s.docs[id]) && DocOk(s.cfg, s.now, s.docs[id]);
    } else {
      QuietStep(s, w, a);
    }
  }

  lemma SettledIsTidy(d: Doc, summary: Summary, error: ProcessingError, delay: real, now: Time)
    requires Tidy(d) && d.updatedAt <= now && delay >= 0.0 && 1 <= error.attempts <= d.attempts && error.failedAt == now
    ensures Tidy(CompleteDoc(d, summary, now)) && Tidy(RetryDoc(d, error, now + delay, now)) && Tidy(FailDoc(d, error, now))
  {}

  lemma WorkKeepsTidy(s: State, j: JobId, a: WorkStep)
    requires Coherent(s) && AllTidy(s.docs) && WorkEnabled(s, j, a)
    ensures AllTidy(WorkNext(s, j, a).docs)
  {
    var x := s.actors.jobs[j];
    WorkFrame(s, j, a);
    assert JobOk(j, x, s.nextId, s.docs, s.redis.delivered);
    assert Tidy(s.docs[x.doc]) && DocOk(s.cfg, s.now, s.docs[x.doc]);
    WorkLeavesTidy(s, j, a);
  }

  /** The one record it writes. */
  lemma WorkLeavesTidy(s: State, j: JobId, a: WorkStep)
    requires WorkEnabled(s, j, a) && s.actors.jobs[j].doc in s.docs
    requires var x := s.actors.jobs[j];
             Tidy(s.docs[x.doc]) && s.docs[x.doc].updatedAt <= s.now && 1 <= x.snap.attempts <= s.docs[x.doc].attempts
    ensures var id := s.actors.jobs[j].doc; id in WorkNext(s, j, a).docs && Tidy(WorkNext(s, j, a).docs[id])
  {
    var x := s.actors.jobs[j];
    match a
    case DoReread =>
    case DoStart =>
    case DoComplete => SettledIsTidy(s.docs[x.doc], Summarized(x.doc, x.snap), JobError(x, "", s.now), 0.0, s.now);
    case DoRetry(code, delay) => SettledIsTidy(s.docs[x.doc], Summarized(x.doc, x.snap), JobError(x, code, s.now), delay, s.now);
    case DoFail(code, _) => SettledIsTidy(s.docs[x.doc], Summarized(x.doc, x.snap), JobError(x, code, s.now), 0.0, s.now);
    case DoAbort =>
  }

  lemma SweepKeepsTidy(s: State, x: SweepId, a: SweepStep)
    requires Coherent(s) && AllTidy(s.docs) && SweepEnabled(s, x, a)
    ensures AllTidy(SweepNext(s, x, a).docs)
  {
    if ResetHits(s, x, a) {
      var id := s.actors.sweeps[x].pc.rows[0].id;
      assert Tidy(s.docs[id]);
      SweepStamps(s, x, a, id);
    } else {
      QuietSweep(s, x, a);
    }
  }

  lemma NextKeepsTidy(s: State, a: Action)
    requires Coherent(s) && AllTidy(s.docs) && Enabled(s, a)
    ensures AllTidy(Next(s, a).docs)
  {
    match a
    case OfLookup(sid, step) => LookupKeepsTidy(s, sid, step);
    case OfEnqueue(sid, step) => EnqueueKeepsTidy(s, sid, step);
    case OfWorker(w, step) => WorkerKeepsTidy(s, w, step);
    case OfWork(j, step) => WorkKeepsTidy(s, j, step);
    case OfSettle(j, step) => SettleFrame(s, j, step);
    case OfSweep(x, step) => SweepKeepsTidy(s, x, step);
    case OfRecon(r, step) => ReconFrame(s, r, step);
    case OfEnv(step) => EnvFrame(s, step);
  }

  /** The error of a failed attempt, on the record that was settled. */
  ghost predicate Blames(d: Doc, code: string, attempts: nat, now: Time) {
    d.error.Some? && d.error.value.code == code && d.error.value.attempts == attempts && d.error.value.failedAt == now
  }

  /** What a settling write that lands leaves on its record: the outcome, the
      error with its code and attempt, and for a retry the time it waits for. */
  lemma LandedWrites(s: State, j: JobId, a: WorkStep)
    requires WorkEnabled(s, j, a) && JobOwns(s, j)
    ensures var (x, docs) := (s.actors.jobs[j], WorkNext(s, j, a).docs);
            && x.doc in docs
            && (a.DoComplete? ==> docs[x.doc].status.Completed?)
            && (a.DoRetry? ==> docs[x.doc].status.Queued? && Blames(docs[x.doc], a.code, x.snap.attempts, s.now)
                               && docs[x.doc].nextAttemptAt == Some(s.now + a.delay) && docs[x.doc].attempts == s.docs[x.doc].attempts)
            && (a.DoFail? ==> docs[x.doc].status.Failed? && Blames(docs[x.doc], a.code, x.snap.attempts, s.now))
            && (!a.DoComplete? && !a.DoRetry? && !a.DoFail? ==> docs == s.docs)
  {
    match a
    case DoReread =>
    case DoStart =>
    case DoComplete =>
    case DoRetry(_, _) =>
    case DoFail(_, _) =>
    case DoAbort =>
  }

  // ---------------------------------------------------------------------
  // New records
  // ---------------------------------------------------------------------

  /** The record was made just now from what this submission submits. */
  ghost predicate MadeFrom(x: Submit, d: Doc, now: Time) {
    && d.user == x.user && d.title == x.title && d.content == x.content && d.hash == x.hash
    && d.createdAt == now == d.updatedAt && d.attempts == 0 && d.error == None && d.nextAttemptAt == None
    && (d.status.Queued? || (d.status.Completed? && d.fromCache))
  }

  /** A record that appears is made from what some submission submits, and is
      queued, or completed and marked as answered from the cache. */
  lemma NextCreates(s: State, a: Action, id: DocId)
    requires Enabled(s, a) && id !in s.docs && id in Next(s, a).docs
    ensures exists sid :: sid in s.actors.submits && MadeFrom(s.actors.submits[sid], Next(s, a).docs[id], s.now)
  {
    match a
    case OfLookup(sid, step) => LookupAddsOneThing(s, sid, step);
    case OfEnqueue(sid, step) => EnqueueAddsOneThing(s, sid, step);
    case OfWorker(w, step) => if !ClaimWins(s, w, step) { QuietStep(s, w, step); }
    case OfWork(j, step) => WorkFrame(s, j, step);
    case OfSettle(j, step) => SettleFrame(s, j, step);
    case OfSweep(x, step) => if !ResetHits(s, x, step) { QuietSweep(s, x, step); }
    case OfRecon(r, step) => ReconFrame(s, r, step);
    case OfEnv(step) => EnvFrame(s, step);
  }

  // ---------------------------------------------------------------------
  // Counters
  // ---------------------------------------------------------------------

  ghost predicate Positive(counts: map<UserId, nat>) {
    forall user :: user in counts ==> counts[user] > 0
  }

  /** A counter that exists is positive, and so is every row a reconcile run
      has read. */
  ghost predicate NoZeros(s: State) {
    Positive(s.redis.counters) && forall r :: r in s.actors.recons ==> Positive(s.actors.recons[r].truth)
  }

  lemma CountsArePositive(docs: Docs)
    ensures Positive(ActiveCounts(docs))
  {
    forall user | user in ActiveCounts(docs) ensures ActiveCounts(docs)[user] > 0 { CountsAgree(docs, user); }
  }

  lemma LookupKeepsPositive(s: State, sid: SubmitId, a: LookupStep)
    requires NoZeros(s) && LookupEnabled(s, sid, a)
    ensures NoZeros(LookupNext(s, sid, a))
  {
    LookupAddsOneThing(s, sid, a);
    LookupFrame(s, sid, a);
  }

  lemma EnqueueKeepsPositive(s: State, sid: SubmitId, a: EnqueueStep)
    requires NoZeros(s) && EnqueueEnabled(s, sid, a)
    ensures NoZeros(EnqueueNext(s, sid, a))
  {}

  lemma SettleKeepsPositive(s: State, j: JobId, a: SettleStep)
    requires NoZeros(s) && SettleEnabled(s, j, a)
    ensures NoZeros(SettleNext(s, j, a))
  {
    SettleFrame(s, j, a);
  }

  lemma ReconKeepsPositive(s: State, r: ReconId, a: ReconStep)
    requires NoZeros(s) && ReconEnabled(s, r, a)
    ensures NoZeros(ReconNext(s, r, a))
  {
    match a
    case DoSetCounter(_, _) =>
    case DoDropCounter(_) =>
    case DoEndRecon =>
  }

  lemma EnvKeepsPositive(s: State, a: EnvStep)
    requires NoZeros(s) && EnvEnabled(s, a)
    ensures NoZeros(EnvNext(s, a))
  {
    CountsArePositive(s.docs);
  }

  lemma NextKeepsPositive(s: State, a: Action)
    requires NoZeros(s) && Enabled(s, a)
    ensures NoZeros(Next(s, a))
  {
    match a
    case OfLookup(sid, step) => LookupKeepsPositive(s, sid, step);
    case OfEnqueue(sid, step) => EnqueueKeepsPositive(s, sid, step);
    case OfWorker(w, step) => WorkerFrame(s, w, step);
    case OfWork(j, step) => WorkFrame(s, j, step);
    case OfSettle(j, step) => SettleKeepsPositive(s, j, step);
    case OfSweep(x, step) => SweepFrame(s, x, step);
    case OfRecon(r, step) => ReconKeepsPositive(s, r, step);
    case OfEnv(step) => EnvKeepsPositive(s, step);
  }

  // ---------------------------------------------------------------------
  // In every reachable state
  // ---------------------------------------------------------------------

  lemma {:induction false} RunKeepsRecords(s: State, acts: seq<Action>)
    requires Coherent(s) && AllTidy(s.docs) && NoZeros(s) && Legal(s, acts)
    ensures AllTidy(Exec(s, acts).docs) && NoZeros(Exec(s, acts))
    decreases |acts|
  {
    if acts != [] {
      NextKeepsCoherence(s, acts[0]);
      NextKeepsTidy(s, acts[0]);
      NextKeepsPositive(s, acts[0]);
      RunKeepsRecords(Next(s, acts[0]), acts[1..]);
    }
  }
}
