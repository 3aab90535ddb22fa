/** How long one document can be kept waiting by backoff in all. */
module Backoff {
  import opened Types
  import opened Decorators
  import opened Repository
  import opened Protocol
  import opened Frames
  import opened References
  import opened ReferencesKept
  import opened Attempts
  import opened Slots
  import opened Settlement
  import opened Guards

  // ---------------------------------------------------------------------
  // Delays scheduled over a run
  // ---------------------------------------------------------------------

  /** The step sends this document back for a retry. */
  ghost predicate Requeues(s: State, a: Action, id: DocId) {
    a.OfWork? && a.work.DoRetry? && JobOwns(s, a.jid) && s.actors.jobs[a.jid].doc == id
  }

  ghost function DelaySum(s: State, acts: seq<Action>, id: DocId): real
    requires Legal(s, acts)
    decreases |acts|
  {
    if acts == [] then 0.0
    else (if Requeues(s, acts[0], id) then acts[0].work.delay else 0.0) + DelaySum(Next(s, acts[0]), acts[1..], id)
  }

  ghost function Retries(s: State, id: DocId): nat { |RetriedBy(s.audit.history, id)| }

  lemma WorkRetries(s: State, j: JobId, a: WorkStep, id: DocId)
    requires WorkEnabled(s, j, a)
    ensures var (h, h') := (s.audit.history, WorkNext(s, j, a).audit.history);
            && Reclaims(h', id) == Reclaims(h, id) && WorkNext(s, j, a).cfg == s.cfg
            && RetriedBy(h', id) == (if Requeues(s, OfWork(j, a), id) then RetriedBy(h, id) + {s.actors.jobs[j].epoch} else RetriedBy(h, id))
  {}

  lemma SweepRetries(s: State, w: SweepId, a: SweepStep, id: DocId)
    requires SweepEnabled(s, w, a)
    ensures var (h, h') := (s.audit.history, SweepNext(s, w, a).audit.history);
            h'.retried == h.retried && Reclaims(h, id) <= Reclaims(h', id) && SweepNext(s, w, a).cfg == s.cfg
  {}

  /** Only a retry adds to the retries, namely its claim's epoch; recoveries
      are never forgotten. */
  lemma RetryMarks(s: State, a: Action, id: DocId)
    requires Enabled(s, a)
    ensures Next(s, a).cfg == s.cfg && Reclaims(s.audit.history, id) <= Reclaims(Next(s, a).audit.history, id)
    ensures RetriedBy(Next(s, a).audit.history, id)
         == if Requeues(s, a, id) then RetriedBy(s.audit.history, id) + {s.actors.jobs[a.jid].epoch} else RetriedBy(s.audit.history, id)
  {
    match a
    case OfLookup(sid, step) => LookupFrame(s, sid, step);
    case OfEnqueue(sid, step) => EnqueueFrame(s, sid, step);
    case OfWorker(w, step) => WorkerFrame(s, w, step);
    case OfWork(j, step) => WorkRetries(s, j, step, id);
    case OfSettle(j, step) => SettleFrame(s, j, step);
    case OfSweep(w, step) => SweepRetries(s, w, step, id);
    case OfRecon(r, step) => ReconFrame(s, r, step);
    case OfEnv(step) => EnvFrame(s, step);
  }

  /** The longest delay a retry can draw: nobody retries on the last attempt. */
  ghost function LongestDelay(cfg: Settings): (d: real)
    requires cfg.Valid()
    ensures 0.0 <= d <= cfg.retryMax
  {
    if cfg.maxAttempts == 1 then 0.0 else BackoffCeiling(cfg.maxAttempts - 1, cfg.retryBase, cfg.retryMax)
  }

  lemma {:induction false} CeilingGrows(a: nat, b: nat, base: real, maximum: real)
    requires 1 <= a <= b && base >= 0.0 && maximum >= 0.0
    ensures BackoffCeiling(a, base, maximum) <= BackoffCeiling(b, base, maximum)
    decreases b - a
  {
    if a < b {
      CeilingGrows(a, b - 1, base, maximum);
      var p := Pow2(b - 2) as real;
      assert Pow2(b - 1) as real == 2.0 * p && base * (2.0 * p) == base * p + base * p;
    }
  }

  lemma DrawnDelay(cfg: Settings, attempts: nat, delay: real)
    requires MayRetry(cfg, attempts, delay)
    ensures 0.0 <= delay <= LongestDelay(cfg)
  {
    CeilingGrows(attempts, cfg.maxAttempts - 1, cfg.retryBase, cfg.retryMax);
  }

  lemma RetryCounts(s: State, a: Action, id: DocId)
    requires Coherent(s) && Accounted(s) && Enabled(s, a)
    ensures Next(s, a).cfg == s.cfg && Retries(Next(s, a), id) == Retries(s, id) + (if Requeues(s, a, id) then 1 else 0)
    ensures s.cfg.Valid() && (Requeues(s, a, id) ==> 0.0 <= a.work.delay <= LongestDelay(s.cfg))
  {
    RetryMarks(s, a, id);
    if Requeues(s, a, id) {
      DrawnDelay(s.cfg, s.actors.jobs[a.jid].snap.attempts, a.work.delay);
      assert JobAccount(a.jid, s.actors.jobs[a.jid], s.audit.history);
    }
  }

  /** `n` waits of the longest kind. */
  ghost function Longest(n: nat, maximum: real): real {
    if n == 0 then 0.0 else Longest(n - 1, maximum) + maximum
  }

  lemma {:induction false} LongestIsProduct(n: nat, maximum: real)
    ensures Longest(n, maximum) == n as real * maximum
  {
    if n > 0 {
      LongestIsProduct(n - 1, maximum);
      var m := (n - 1) as real;
      assert (m + 1.0) * maximum == m * maximum + maximum;
      assert n as real == m + 1.0;
    }
  }

  lemma {:induction false} LongestGrows(k: nat, n: nat, maximum: real)
    requires k <= n && maximum >= 0.0
    ensures Longest(k, maximum) <= Longest(n, maximum)
    decreases n - k
  {
    if k < n {
      LongestGrows(k, n - 1, maximum);
    }
  }

  lemma LongestStep(s: State, a: Action, id: DocId)
    requires Coherent(s) && Accounted(s) && Enabled(s, a)
    ensures s.cfg.Valid() && Next(s, a).cfg == s.cfg
    ensures (if Requeues(s, a, id) then a.work.delay else 0.0) + Longest(Retries(s, id), LongestDelay(s.cfg))
         <= Longest(Retries(Next(s, a), id), LongestDelay(s.cfg))
  {
    RetryCounts(s, a, id);
  }

  lemma RetriesBounded(s: State, id: DocId)
    requires Coherent(s) && Accounted(s)
    ensures s.cfg.Valid() && Longest(Retries(s, id), LongestDelay(s.cfg)) <= Longest(s.cfg.maxAttempts - 1, LongestDelay(s.cfg))
  {
    assert AccountAt(s.docs, s.audit.history, id, s.cfg.maxAttempts);
    if IsWork(s.docs, id) { AttemptsBounded(s, id); }
    LongestGrows(Retries(s, id), s.cfg.maxAttempts - 1, LongestDelay(s.cfg));
  }

  /** The delays scheduled for one document sum to at most what is left of
      `max - 1` times the longest, in every run, whatever stale jobs do. */
  lemma {:induction false} BackoffIsBounded(s: State, acts: seq<Action>, id: DocId)
    requires Coherent(s) && Accounted(s) && Legal(s, acts)
    ensures s.cfg.Valid()
    ensures DelaySum(s, acts, id) + Longest(Retries(s, id), LongestDelay(s.cfg)) <= Longest(s.cfg.maxAttempts - 1, LongestDelay(s.cfg))
    decreases |acts|
  {
    RetriesBounded(s, id);
    if acts != [] {
      LongestStep(s, acts[0], id);
      NextKeepsCoherence(s, acts[0]);
      NextKeepsAccounts(s, acts[0]);
      BackoffIsBounded(Next(s, acts[0]), acts[1..], id);
    }
  }

  // ---------------------------------------------------------------------
  // Without lease recovery
  // ---------------------------------------------------------------------

  /** The job works on the record's latest claim and has seen it. */
  ghost predicate UpToDate(docs: Docs, x: Job) {
    Owns(docs, x.doc, x.worker) && docs[x.doc].attempts == x.epoch == x.snap.attempts
  }

  /** As long as no lease of the document was taken back, an open job on it is
      up to date; in particular there is only one. */
  ghost predicate FirstHand(s: State, id: DocId) {
    Reclaims(s.audit.history, id) == 0 ==>
      forall j :: j in s.actors.jobs && s.actors.jobs[j].doc == id && s.actors.jobs[j].pc.Open() ==> UpToDate(s.docs, s.actors.jobs[j])
  }

  /** The step leaves this document's record alone, and opens no job on it. */
  lemma AsideFirstHand(s: State, t: State, j: JobId, id: DocId)
    requires FirstHand(s, id) && Reclaims(s.audit.history, id) <= Reclaims(t.audit.history, id)
    requires SameElsewhere(s.actors.jobs, t.actors.jobs, j) && (id in s.docs ==> id in t.docs && t.docs[id] == s.docs[id])
    requires j in t.actors.jobs && t.actors.jobs[j].doc == id ==> !t.actors.jobs[j].pc.Open()
    ensures FirstHand(t, id)
  {}

  lemma ClaimFirstHand(s: State, w: WorkerId, id: DocId)
    requires FirstHand(s, id) && WorkerEnabled(s, w, DoClaim) && IsQueued(s.docs, s.redis.log[s.actors.workers[w].batch[0]])
    ensures FirstHand(ClaimWonStep(s, w), id)
  {}

  ghost predicate OpenOn(jobs: map<JobId, Job>, i: JobId, id: DocId) {
    i in jobs && jobs[i].doc == id && jobs[i].pc.Open()
  }

  /** Two open jobs that are up to date are one. */
  lemma OnlyOpenJob(s: State, j: JobId, id: DocId)
    requires DistinctClaims(s.actors.jobs) && FirstHand(s, id) && Reclaims(s.audit.history, id) == 0
    requires OpenOn(s.actors.jobs, j, id)
    ensures forall i :: OpenOn(s.actors.jobs, i, id) ==> i == j
  {}

  /** An open job keeps its claim and its copy, or has just read the record. */
  lemma WorkReads(s: State, j: JobId, a: WorkStep)
    requires WorkEnabled(s, j, a)
    ensures var (t, x) := (WorkNext(s, j, a), s.actors.jobs[j]);
            && x.pc.Open() && j in t.actors.jobs && t.actors.jobs[j].doc == x.doc && t.actors.jobs[j].epoch == x.epoch
            && t.actors.jobs[j].snap == (if a.DoReread? then s.docs[x.doc] else x.snap)
  {
    match a
    case DoReread =>
    case DoStart =>
    case DoComplete =>
    case DoRetry(_, _) =>
    case DoFail(_, _) =>
    case DoAbort =>
  }

  /** What a running job's step does to it and to its record. */
  lemma WorkLocally(s: State, j: JobId, a: WorkStep)
    requires WorkEnabled(s, j, a)
    ensures var (t, x) := (WorkNext(s, j, a), s.actors.jobs[j]);
            && SameElsewhere(s.docs, t.docs, x.doc)
            && (t.actors.jobs[j].pc.Open() ==> t.docs == s.docs && (UpToDate(s.docs, x) ==> UpToDate(t.docs, t.actors.jobs[j])))
  {
    match a
    case DoReread =>
    case DoStart =>
    case DoComplete =>
    case DoRetry(_, _) =>
    case DoFail(_, _) =>
    case DoAbort =>
  }

  lemma WorkFirstHand(s: State, j: JobId, a: WorkStep, id: DocId)
    requires DistinctClaims(s.actors.jobs) && FirstHand(s, id) && WorkEnabled(s, j, a)
    ensures FirstHand(WorkNext(s, j, a), id)
  {
    var (t, x) := (WorkNext(s, j, a), s.actors.jobs[j]);
    WorkFrame(s, j, a);
    WorkReads(s, j, a);
    WorkLocally(s, j, a);
    WorkRetries(s, j, a, id);
    if Reclaims(s.audit.history, id) == 0 && x.doc == id {
      OnlyOpenJob(s, j, id);
      forall i | OpenOn(t.actors.jobs, i, id) ensures UpToDate(t.docs, t.actors.jobs[i]) {
        if i != j { assert OpenOn(s.actors.jobs, i, id); }
      }
    }
  }

  lemma SettleFirstHand(s: State, j: JobId, a: SettleStep, id: DocId)
    requires FirstHand(s, id) && SettleEnabled(s, j, a)
    ensures FirstHand(SettleNext(s, j, a), id)
  {}

  lemma SweepFirstHand(s: State, w: SweepId, a: SweepStep, id: DocId)
    requires Coherent(s) && FirstHand(s, id) && SweepEnabled(s, w, a)
    ensures FirstHand(SweepNext(s, w, a), id)
  {
    SweepRetries(s, w, a, id);
    SweepFrame(s, w, a);
    if ResetHits(s, w, a) {
      if s.actors.sweeps[w].pc.rows[0].id != id { AsideFirstHand(s, ResetRowStep(s, w), s.nextId, id); }
    } else {
      QuietSweep(s, w, a);
    }
  }

  lemma NextFirstHand(s: State, a: Action, id: DocId)
    requires Coherent(s) && Accounted(s) && FirstHand(s, id) && Enabled(s, a)
    ensures FirstHand(Next(s, a), id)
  {
    RetryMarks(s, a, id);
    match a
    case OfLookup(sid, step) => LookupSeen(s, sid, step); SubmitFirstHand(s, LookupNext(s, sid, step), sid, id);
    case OfEnqueue(sid, step) => EnqueueSeen(s, sid, step); SubmitFirstHand(s, EnqueueNext(s, sid, step), sid, id);
    case OfWorker(w, step) =>
      if ClaimWins(s, w, step) { ClaimFirstHand(s, w, id); }
      else { QuietStep(s, w, step); }
    case OfWork(j, step) => WorkFirstHand(s, j, step, id);
    case OfSettle(j, step) => SettleFirstHand(s, j, step, id);
    case OfSweep(w, step) => SweepFirstHand(s, w, step, id);
    case OfRecon(r, step) => ReconFrame(s, r, step);
    case OfEnv(step) => EnvFrame(s, step);
  }

  lemma SubmitFirstHand(s: State, t: State, sid: SubmitId, id: DocId)
    requires FirstHand(s, id) && SubmitSeen(s, t, sid) && Reclaims(s.audit.history, id) <= Reclaims(t.audit.history, id)
    ensures FirstHand(t, id)
  {}

  // ---------------------------------------------------------------------
  // Late reads
  // ---------------------------------------------------------------------

  /** The read that follows a claim comes so late that the record has been
      claimed again: the job works from now on with a newer attempt count. */
  ghost predicate ReadsLate(s: State, a: Action, id: DocId) {
    a.OfWork? && a.work.DoReread? && a.jid in s.actors.jobs && s.actors.jobs[a.jid].doc == id
    && id in s.docs && s.docs[id].attempts != s.actors.jobs[a.jid].epoch
  }

  ghost predicate NeverLate(s: State, acts: seq<Action>, id: DocId)
    requires Legal(s, acts)
    decreases |acts|
  {
    acts == [] || (!ReadsLate(s, acts[0], id) && NeverLate(Next(s, acts[0]), acts[1..], id))
  }

  /** Every open job on the document has read its own claim. */
  ghost predicate ReadsOwn(jobs: map<JobId, Job>, id: DocId) {
    forall j :: OpenOn(jobs, j, id) ==> jobs[j].snap.attempts == jobs[j].epoch
  }

  lemma WorkReadsOwn(s: State, j: JobId, a: WorkStep, id: DocId)
    requires WorkEnabled(s, j, a) && ReadsOwn(s.actors.jobs, id) && !ReadsLate(s, OfWork(j, a), id)
    ensures ReadsOwn(WorkNext(s, j, a).actors.jobs, id)
  {
    WorkFrame(s, j, a);
    WorkReads(s, j, a);
    assert OpenOn(s.actors.jobs, j, s.actors.jobs[j].doc);
  }

  lemma SettleReadsOwn(s: State, j: JobId, a: SettleStep, id: DocId)
    requires SettleEnabled(s, j, a) && ReadsOwn(s.actors.jobs, id)
    ensures ReadsOwn(SettleNext(s, j, a).actors.jobs, id)
  {
    match a
    case DoStoreSummary(_) =>
    case DoFreeSlot(_) =>
    case DoFreeGuard(_) =>
    case DoEnterDelay(_) =>
    case DoAckEntry =>
    case DoReap =>
  }

  lemma NextReadsOwn(s: State, a: Action, id: DocId)
    requires Enabled(s, a) && ReadsOwn(s.actors.jobs, id) && !ReadsLate(s, a, id)
    ensures ReadsOwn(Next(s, a).actors.jobs, id)
  {
    match a
    case OfLookup(sid, step) => LookupFrame(s, sid, step);
    case OfEnqueue(sid, step) => EnqueueFrame(s, sid, step);
    case OfWorker(w, step) => if !ClaimWins(s, w, step) { QuietStep(s, w, step); }
    case OfWork(j, step) => WorkReadsOwn(s, j, step, id);
    case OfSettle(j, step) => SettleReadsOwn(s, j, step, id);
    case OfSweep(w, step) => SweepFrame(s, w, step);
    case OfRecon(r, step) => ReconFrame(s, r, step);
    case OfEnv(step) => EnvFrame(s, step);
  }

  /** As long as no lease of the document was taken back, no read is late. */
  lemma {:induction false} OnTimeWithoutRecovery(s: State, acts: seq<Action>, id: DocId)
    requires Coherent(s) && Accounted(s) && FirstHand(s, id) && Legal(s, acts)
    requires Reclaims(Exec(s, acts).audit.history, id) == 0
    ensures Reclaims(s.audit.history, id) == 0 && NeverLate(s, acts, id)
    decreases |acts|
  {
    if acts != [] {
      RetryMarks(s, acts[0], id);
      NextKeepsCoherence(s, acts[0]);
      NextKeepsAccounts(s, acts[0]);
      NextFirstHand(s, acts[0], id);
      OnTimeWithoutRecovery(Next(s, acts[0]), acts[1..], id);
    }
  }

  // ---------------------------------------------------------------------
  // The sum of the ceilings
  // ---------------------------------------------------------------------

  /** The ceilings of those of the attempts `1 .. n` that are in `epochs`. */
  ghost function EpochSum(epochs: set<nat>, n: nat, base: real, maximum: real): (r: real)
    requires base >= 0.0 && maximum >= 0.0
    ensures 0.0 <= r <= CeilingSum(n, base, maximum)
  {
    if n == 0 then 0.0
    else EpochSum(epochs, n - 1, base, maximum) + (if n in epochs then BackoffCeiling(n, base, maximum) else 0.0)
  }

  lemma {:induction false} OneEpochMore(epochs: set<nat>, e: nat, n: nat, base: real, maximum: real)
    requires base >= 0.0 && maximum >= 0.0 && e !in epochs && e >= 1
    ensures EpochSum(epochs + {e}, n, base, maximum)
         == EpochSum(epochs, n, base, maximum) + (if e <= n then BackoffCeiling(e, base, maximum) else 0.0)
  {
    if n > 0 {
      OneEpochMore(epochs, e, n - 1, base, maximum);
    }
  }

  /** What this document's retries can have waited, epoch by epoch. */
  ghost function Waited(s: State, id: DocId): real
    requires s.cfg.Valid()
  {
    EpochSum(RetriedBy(s.audit.history, id), s.cfg.maxAttempts - 1, s.cfg.retryBase, s.cfg.retryMax)
  }

  /** A job that has read its own claim waits at most its own epoch's ceiling. */
  lemma RetryBelowCeiling(s: State, a: Action, id: DocId)
    requires Coherent(s) && Accounted(s) && ReadsOwn(s.actors.jobs, id) && Enabled(s, a) && Requeues(s, a, id)
    ensures var e := s.actors.jobs[a.jid].epoch;
            && 1 <= e <= s.cfg.maxAttempts - 1 && e !in RetriedBy(s.audit.history, id)
            && a.work.delay <= BackoffCeiling(e, s.cfg.retryBase, s.cfg.retryMax)
  {
    var x := s.actors.jobs[a.jid];
    assert JobOk(a.jid, x, s.nextId, s.docs, s.redis.delivered);
    assert JobAccount(a.jid, x, s.audit.history);
    assert OpenOn(s.actors.jobs, a.jid, id);
  }

  lemma RequeueStep(s: State, a: Action, id: DocId)
    requires Coherent(s) && Accounted(s) && ReadsOwn(s.actors.jobs, id) && Enabled(s, a) && Requeues(s, a, id)
    ensures a.work.delay + Waited(s, id) <= EpochSum(RetriedBy(s.audit.history, id) + {s.actors.jobs[a.jid].epoch},
                                                     s.cfg.maxAttempts - 1, s.cfg.retryBase, s.cfg.retryMax)
  {
    RetryBelowCeiling(s, a, id);
    OneEpochMore(RetriedBy(s.audit.history, id), s.actors.jobs[a.jid].epoch, s.cfg.maxAttempts - 1, s.cfg.retryBase, s.cfg.retryMax);
  }

  /** What a step does to the retries of this document. */
  ghost predicate Marks(s: State, a: Action, t: State, id: DocId)
    requires Enabled(s, a)
  {
    && t.cfg == s.cfg
    && RetriedBy(t.audit.history, id)
       == (if Requeues(s, a, id) then RetriedBy(s.audit.history, id) + {s.actors.jobs[a.jid].epoch} else RetriedBy(s.audit.history, id))
  }

  lemma EpochStep(s: State, a: Action, t: State, id: DocId)
    requires Coherent(s) && Accounted(s) && ReadsOwn(s.actors.jobs, id) && Enabled(s, a) && Marks(s, a, t, id)
    ensures (if Requeues(s, a, id) then a.work.delay else 0.0) + Waited(s, id) <= Waited(t, id)
  {
    if Requeues(s, a, id) { RequeueStep(s, a, id); }
  }

  lemma EpochNext(s: State, a: Action, id: DocId)
    requires Coherent(s) && Accounted(s) && ReadsOwn(s.actors.jobs, id) && Enabled(s, a)
    ensures Next(s, a).cfg == s.cfg
    ensures (if Requeues(s, a, id) then a.work.delay else 0.0) + Waited(s, id) <= Waited(Next(s, a), id)
  {
    RetryMarks(s, a, id);
    EpochStep(s, a, Next(s, a), id);
  }

  lemma OnTimeNext(s: State, a: Action, id: DocId)
    requires Coherent(s) && Accounted(s) && ReadsOwn(s.actors.jobs, id) && Enabled(s, a) && !ReadsLate(s, a, id)
    ensures var t := Next(s, a); Coherent(t) && Accounted(t) && ReadsOwn(t.actors.jobs, id)
  {
    NextReadsOwn(s, a, id);
    NextKeepsCoherence(s, a);
    NextKeepsAccounts(s, a);
  }

  /** Whatever leases are taken back, unless a job read its document late the
      delays sum to at most the first `max - 1` ceilings: each retry has an
      epoch of its own below `max`, and waits at most that epoch's ceiling. */
  lemma {:induction false} BackoffIsBelowCeilings(s: State, acts: seq<Action>, id: DocId)
    requires Coherent(s) && Accounted(s) && ReadsOwn(s.actors.jobs, id) && Legal(s, acts) && NeverLate(s, acts, id)
    ensures s.cfg.Valid()
    ensures DelaySum(s, acts, id) + Waited(s, id) <= CeilingSum(s.cfg.maxAttempts - 1, s.cfg.retryBase, s.cfg.retryMax)
    decreases |acts|
  {
    if acts != [] {
      EpochNext(s, acts[0], id);
      OnTimeNext(s, acts[0], id);
      BackoffIsBelowCeilings(Next(s, acts[0]), acts[1..], id);
    }
  }
}
