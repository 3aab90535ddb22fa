/** Lease safety. A sweeper only ever takes back the expired claim it found;
    and a job that is the only open one of its worker on the document, and
    settles before its lease ends, always wins its write. */
module Leases {
  import opened Types
  import opened Repository
  import opened Protocol
  import opened Frames
  import opened References
  import opened ReferencesKept
  import opened Slots
  import opened Attempts
  import opened Settlement
  import opened Guards

  // ---------------------------------------------------------------------
  // The sweeper's side
  // ---------------------------------------------------------------------

  /** When the reset of a found row matches, the lease has expired, and the
      claim is the very one the scan saw: any later claim has a later lease. */
  lemma ResetTakesOnlyTheExpired(s: State, w: SweepId)
    requires Coherent(s) && RowMatches(s, w)
    ensures var row := s.actors.sweeps[w].pc.rows[0];
            LeaseExpired(s.docs[row.id], s.now) && s.docs[row.id].attempts == row.epoch
  {
    var x := s.actors.sweeps[w];
    assert SweepOk(w, x, s.nextId, s.docs, s.now) && RowOk(x.pc.rows[0], x.pc.foundAt, s.docs);
    assert DocOk(s.cfg, s.now, s.docs[x.pc.rows[0].id]);
  }

  // ---------------------------------------------------------------------
  // The job's side
  // ---------------------------------------------------------------------

  /** Open, still inside its lease, and claimed while its worker had no other
      open job on the document. */
  ghost predicate InTime(x: Job, now: Time) {
    x.pc.Open() && x.alone && now <= x.leaseEnd
  }

  /** The record still carries this job's claim. */
  ghost predicate HoldsClaim(docs: Docs, x: Job) {
    && Owns(docs, x.doc, x.worker)
    && docs[x.doc].attempts == x.epoch && docs[x.doc].leaseExpiresAt == Some(x.leaseEnd)
  }

  ghost predicate Rivals(x: Job, y: Job) {
    y.pc.Open() && y.worker == x.worker && y.doc == x.doc
  }

  ghost predicate ClaimSafe(now: Time, docs: Docs, jobs: map<JobId, Job>, j: JobId)
    requires j in jobs
  {
    InTime(jobs[j], now) ==> HoldsClaim(docs, jobs[j]) && forall i :: i in jobs && Rivals(jobs[j], jobs[i]) ==> i == j
  }

  ghost predicate ClaimsSafe(now: Time, docs: Docs, jobs: map<JobId, Job>) {
    forall j :: j in jobs ==> ClaimSafe(now, docs, jobs, j)
  }

  ghost predicate Leased(s: State) {
    ClaimsSafe(s.now, s.docs, s.actors.jobs)
  }

  /** Same document, worker, epoch, lease and company. */
  ghost predicate SameTerms(x: Job, y: Job) {
    x.(snap := y.snap, pc := y.pc) == y
  }

  lemma TimeKeepsClaims(now: Time, now': Time, docs: Docs, jobs: map<JobId, Job>)
    requires ClaimsSafe(now, docs, jobs) && now <= now'
    ensures ClaimsSafe(now', docs, jobs)
  {}

  lemma InsertKeepsClaims(now: Time, docs: Docs, docs': Docs, jobs: map<JobId, Job>)
    requires ClaimsSafe(now, docs, jobs) && NewRecordsOnly(docs, docs')
    ensures ClaimsSafe(now, docs', jobs)
  {}

  /** A job moves on; if it stays open its claim stays what it was. */
  lemma MoveKeepsClaims(now: Time, docs: Docs, jobs: map<JobId, Job>, j: JobId, x: Job)
    requires ClaimsSafe(now, docs, jobs) && j in jobs
    requires x.pc.Open() ==> jobs[j].pc.Open() && SameTerms(jobs[j], x)
    ensures ClaimsSafe(now, docs, jobs[j := x])
  {}

  /** A settling write that matches is not made over the head of another job
      in time: it would be a rival. */
  lemma SettleKeepsClaims(now: Time, docs: Docs, jobs: map<JobId, Job>, j: JobId, d: Doc, x: Job)
    requires ClaimsSafe(now, docs, jobs) && j in jobs && jobs[j].pc.Open()
    requires Owns(docs, jobs[j].doc, jobs[j].worker) && !x.pc.Open()
    ensures ClaimsSafe(now, docs[jobs[j].doc := d], jobs[j := x])
  {}

  /** Nor is an expired lease that of a job in time. */
  lemma ResetKeepsClaims(now: Time, docs: Docs, jobs: map<JobId, Job>, id: DocId, d: Doc)
    requires ClaimsSafe(now, docs, jobs) && id in docs && LeaseExpired(docs[id], now)
    ensures ClaimsSafe(now, docs[id := d], jobs)
  {}

  lemma ClaimKeepsClaims(now: Time, docs: Docs, jobs: map<JobId, Job>, n: JobId, x: Job)
    requires ClaimsSafe(now, docs, jobs) && n !in jobs && IsQueued(docs, x.doc)
    requires var d := ClaimDoc(docs[x.doc], x.worker, x.leaseEnd - now, now);
             x.epoch == d.attempts && x.pc.Open() && x.alone == !HasOpenJob(jobs, x.worker, x.doc)
    ensures ClaimsSafe(now, docs[x.doc := ClaimDoc(docs[x.doc], x.worker, x.leaseEnd - now, now)], jobs[n := x])
  {}

  // ---------------------------------------------------------------------
  // Runs
  // ---------------------------------------------------------------------

  lemma WorkKeepsLeases(s: State, j: JobId, a: WorkStep)
    requires Leased(s) && WorkEnabled(s, j, a)
    ensures Leased(WorkNext(s, j, a))
  {
    var (t, x) := (WorkNext(s, j, a), s.actors.jobs[j]);
    match a
    case DoReread => MoveKeepsClaims(s.now, s.docs, s.actors.jobs, j, t.actors.jobs[j]);
    case DoStart => MoveKeepsClaims(s.now, s.docs, s.actors.jobs, j, t.actors.jobs[j]);
    case DoComplete =>
      if JobOwns(s, j) { SettleKeepsClaims(s.now, s.docs, s.actors.jobs, j, t.docs[x.doc], t.actors.jobs[j]); }
      else { MoveKeepsClaims(s.now, s.docs, s.actors.jobs, j, t.actors.jobs[j]); }
    case DoRetry(_, _) =>
      if JobOwns(s, j) { SettleKeepsClaims(s.now, s.docs, s.actors.jobs, j, t.docs[x.doc], t.actors.jobs[j]); }
      else { MoveKeepsClaims(s.now, s.docs, s.actors.jobs, j, t.actors.jobs[j]); }
    case DoFail(_, _) =>
      if JobOwns(s, j) { SettleKeepsClaims(s.now, s.docs, s.actors.jobs, j, t.docs[x.doc], t.actors.jobs[j]); }
      else { MoveKeepsClaims(s.now, s.docs, s.actors.jobs, j, t.actors.jobs[j]); }
    case DoAbort => MoveKeepsClaims(s.now, s.docs, s.actors.jobs, j, t.actors.jobs[j]);
  }

  lemma SettleKeepsLeases(s: State, j: JobId, a: SettleStep)
    requires Leased(s) && SettleEnabled(s, j, a)
    ensures Leased(SettleNext(s, j, a))
  {}

  lemma WorkerKeepsLeases(s: State, w: WorkerId, a: WorkerStep)
    requires Coherent(s) && Leased(s) && WorkerEnabled(s, w, a)
    ensures Leased(WorkerNext(s, w, a))
  {
    if ClaimWins(s, w, a) {
      ClaimKeepsClaims(s.now, s.docs, s.actors.jobs, s.nextId, NewJob(s, w, s.actors.workers[w].batch[0]));
    } else {
      QuietStep(s, w, a);
    }
  }

  lemma SweepKeepsLeases(s: State, w: SweepId, a: SweepStep)
    requires Coherent(s) && Leased(s) && SweepEnabled(s, w, a)
    ensures Leased(SweepNext(s, w, a))
  {
    if ResetHits(s, w, a) {
      var pc := s.actors.sweeps[w].pc;
      ResetTakesOnlyTheExpired(s, w);
      ResetKeepsClaims(s.now, s.docs, s.actors.jobs, pc.rows[0].id, ReclaimDoc(s.docs[pc.rows[0].id], pc.foundAt));
    } else {
      SweepFrame(s, w, a);
      QuietSweep(s, w, a);
    }
  }

  lemma NextKeepsLeases(s: State, a: Action)
    requires Coherent(s) && Leased(s) && Enabled(s, a)
    ensures Leased(Next(s, a))
  {
    var t := Next(s, a);
    match a
    case OfLookup(sid, step) =>
      LookupFrame(s, sid, step); LookupSeen(s, sid, step); InsertKeepsClaims(s.now, s.docs, t.docs, s.actors.jobs);
    case OfEnqueue(sid, step) =>
      EnqueueFrame(s, sid, step); EnqueueSeen(s, sid, step); InsertKeepsClaims(s.now, s.docs, t.docs, s.actors.jobs);
    case OfWorker(w, step) => WorkerKeepsLeases(s, w, step);
    case OfWork(j, step) => WorkKeepsLeases(s, j, step);
    case OfSettle(j, step) => SettleKeepsLeases(s, j, step);
    case OfSweep(w, step) => SweepKeepsLeases(s, w, step);
    case OfRecon(r, step) => ReconFrame(s, r, step);
    case OfEnv(step) => EnvFrame(s, step); TimeKeepsClaims(s.now, t.now, s.docs, s.actors.jobs);
  }

  /** A job in time wins: whichever settling write it makes, the filter
      matches, and the record it rewrites still carries its own claim. */
  lemma InTimeWins(s: State, j: JobId)
    requires Leased(s) && j in s.actors.jobs && InTime(s.actors.jobs[j], s.now)
    ensures JobOwns(s, j) && s.docs[s.actors.jobs[j].doc].attempts == s.actors.jobs[j].epoch
  {}
}
