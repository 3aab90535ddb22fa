/** The semaphore of the consume loop. A worker's permits and running jobs add
    up to its concurrency, at most one claimed job waits for a permit, and what
    the process has read and not acknowledged is bounded. */
module Backpressure {
  import opened Types
  import opened Repository
  import opened Protocol
  import opened Frames
  import opened References
  import opened ReferencesKept
  import opened Slots
  import opened Guards

  ghost function RunningJobs(jobs: map<JobId, Job>, w: WorkerId): set<JobId> {
    set j | j in jobs && jobs[j].worker == w && jobs[j].pc.Running()
  }

  ghost predicate Waits(jobs: map<JobId, Job>, w: WorkerId, j: JobId) {
    j in jobs && jobs[j].worker == w && !jobs[j].pc.Running()
  }

  ghost function InHand(k: Worker): nat {
    if k.pc.AckLost? || k.pc.Yield? then 1 else 0
  }

  ghost predicate WorkerBalanced(k: Worker, jobs: map<JobId, Job>, w: WorkerId, concurrency: nat) {
    && k.permits + |RunningJobs(jobs, w)| == concurrency
    && |k.batch| + InHand(k) <= concurrency
    && forall j :: Waits(jobs, w, j) <==> k.pc == Yield(j)
  }

  ghost predicate WorkersBalanced(workers: map<WorkerId, Worker>, jobs: map<JobId, Job>, concurrency: nat) {
    forall w :: w in workers ==> WorkerBalanced(workers[w], jobs, w, concurrency)
  }

  ghost predicate Throttled(s: State) {
    WorkersBalanced(s.actors.workers, s.actors.jobs, s.cfg.concurrency)
  }

  // ---------------------------------------------------------------------
  // Moves
  // ---------------------------------------------------------------------

  ghost function Runs(jobs: map<JobId, Job>, j: JobId, w: WorkerId): nat {
    if j in RunningJobs(jobs, w) then 1 else 0
  }

  lemma OneJobRuns(jobs: map<JobId, Job>, jobs': map<JobId, Job>, j: JobId, w: WorkerId)
    requires SameElsewhere(jobs, jobs', j)
    ensures |RunningJobs(jobs', w)| - Runs(jobs', j, w) == |RunningJobs(jobs, w)| - Runs(jobs, j, w)
  {
    var before, after := RunningJobs(jobs, w), RunningJobs(jobs', w);
    SameWithout(before, after, j);
  }

  /** A job of `w` moves; the other workers see nothing of it. */
  lemma OtherWorkersBalanced(workers: map<WorkerId, Worker>, jobs: map<JobId, Job>, jobs': map<JobId, Job>, j: JobId, w: WorkerId, c: nat)
    requires WorkersBalanced(workers, jobs, c) && SameElsewhere(jobs, jobs', j)
    requires (j in jobs ==> jobs[j].worker == w) && (j in jobs' ==> jobs'[j].worker == w)
    ensures forall v :: v in workers && v != w ==> WorkerBalanced(workers[v], jobs', v, c)
  {
    forall v | v in workers && v != w ensures WorkerBalanced(workers[v], jobs', v, c) {
      OneJobRuns(jobs, jobs', j, v);
      forall i ensures Waits(jobs', v, i) <==> Waits(jobs, v, i) {}
    }
  }

  /** A job moves without changing whether it runs. */
  lemma JobKeepsBalance(workers: map<WorkerId, Worker>, jobs: map<JobId, Job>, jobs': map<JobId, Job>, j: JobId, c: nat)
    requires WorkersBalanced(workers, jobs, c) && SameElsewhere(jobs, jobs', j) && j in jobs && j in jobs'
    requires jobs'[j].worker == jobs[j].worker && jobs'[j].pc.Running() == jobs[j].pc.Running()
    ensures WorkersBalanced(workers, jobs', c)
  {
    var w := jobs[j].worker;
    OtherWorkersBalanced(workers, jobs, jobs', j, w, c);
    if w in workers {
      OneJobRuns(jobs, jobs', j, w);
      forall i ensures Waits(jobs', w, i) <==> Waits(jobs, w, i) {}
    }
  }

  lemma StartKeepsBalance(s: State, j: JobId)
    requires Throttled(s) && WorkEnabled(s, j, DoStart)
    ensures Throttled(StartStep(s, j))
  {
    var (t, w) := (StartStep(s, j), s.actors.jobs[j].worker);
    OtherWorkersBalanced(s.actors.workers, s.actors.jobs, t.actors.jobs, j, w, s.cfg.concurrency);
    OneJobRuns(s.actors.jobs, t.actors.jobs, j, w);
    assert Waits(s.actors.jobs, w, j);
    forall i ensures Waits(t.actors.jobs, w, i) <==> t.actors.workers[w].pc == Yield(i) {
      assert Waits(s.actors.jobs, w, i) <==> s.actors.workers[w].pc == Yield(i);
    }
  }

  lemma AckKeepsBalance(s: State, j: JobId)
    requires Throttled(s) && SettleEnabled(s, j, DoAckEntry)
    ensures Throttled(AckEntryStep(s, j))
  {
    var (t, w) := (AckEntryStep(s, j), s.actors.jobs[j].worker);
    OtherWorkersBalanced(s.actors.workers, s.actors.jobs, t.actors.jobs, j, w, s.cfg.concurrency);
    OneJobRuns(s.actors.jobs, t.actors.jobs, j, w);
    forall i ensures Waits(t.actors.jobs, w, i) <==> t.actors.workers[w].pc == Yield(i) {
      assert Waits(s.actors.jobs, w, i) <==> s.actors.workers[w].pc == Yield(i);
    }
  }

  lemma ClaimKeepsBalance(s: State, w: WorkerId)
    requires s.nextId !in s.actors.jobs && Throttled(s) && WorkerEnabled(s, w, DoClaim)
    requires IsQueued(s.docs, s.redis.log[s.actors.workers[w].batch[0]])
    ensures Throttled(ClaimWonStep(s, w))
  {
    var t := ClaimWonStep(s, w);
    OtherWorkersBalanced(s.actors.workers, s.actors.jobs, t.actors.jobs, s.nextId, w, s.cfg.concurrency);
    OneJobRuns(s.actors.jobs, t.actors.jobs, s.nextId, w);
    forall i ensures Waits(t.actors.jobs, w, i) <==> t.actors.workers[w].pc == Yield(i) {
      assert Waits(s.actors.jobs, w, i) <==> s.actors.workers[w].pc == Yield(i);
    }
  }

  /** The loop itself neither starts nor ends a job. */
  lemma LoopStep(s: State, w: WorkerId, a: WorkerStep)
    requires WorkerEnabled(s, w, a)
    requires !ClaimWins(s, w, a)
    requires |s.actors.workers[w].batch| + InHand(s.actors.workers[w]) <= s.cfg.concurrency
    ensures var (k, k') := (s.actors.workers[w], WorkerNext(s, w, a).actors.workers[w]);
            k'.permits == k.permits && !k.pc.Yield? && !k'.pc.Yield? && |k'.batch| + InHand(k') <= s.cfg.concurrency
  {}

  lemma WorkerKeepsThrottle(s: State, w: WorkerId, a: WorkerStep)
    requires Coherent(s) && Throttled(s) && WorkerEnabled(s, w, a)
    ensures Throttled(WorkerNext(s, w, a))
  {
    if ClaimWins(s, w, a) {
      ClaimKeepsBalance(s, w);
    } else {
      LoopStep(s, w, a);
      QuietStep(s, w, a);
    }
  }

  lemma WorkKeepsThrottle(s: State, j: JobId, a: WorkStep)
    requires Throttled(s) && WorkEnabled(s, j, a)
    ensures Throttled(WorkNext(s, j, a))
  {
    if a == DoStart {
      StartKeepsBalance(s, j);
    } else {
      WorkFrame(s, j, a);
      OtherWork(s, j, a);
      JobKeepsBalance(s.actors.workers, s.actors.jobs, WorkNext(s, j, a).actors.jobs, j, s.cfg.concurrency);
    }
  }

  lemma OtherWork(s: State, j: JobId, a: WorkStep)
    requires WorkEnabled(s, j, a) && a != DoStart
    ensures var (t, x) := (WorkNext(s, j, a), s.actors.jobs[j]);
            && t.actors.workers == s.actors.workers && j in t.actors.jobs
            && t.actors.jobs[j].worker == x.worker && t.actors.jobs[j].pc.Running() == x.pc.Running()
  {}

  lemma OtherSettle(s: State, j: JobId, a: SettleStep)
    requires SettleEnabled(s, j, a) && !a.DoAckEntry?
    ensures var (t, x) := (SettleNext(s, j, a), s.actors.jobs[j]);
            && t.actors.workers == s.actors.workers
            && (if a.DoReap? then x.worker !in s.actors.workers && j !in t.actors.jobs
                else j in t.actors.jobs && t.actors.jobs[j].worker == x.worker && t.actors.jobs[j].pc.Running() == x.pc.Running())
  {}

  lemma SettleKeepsThrottle(s: State, j: JobId, a: SettleStep)
    requires Throttled(s) && SettleEnabled(s, j, a)
    ensures Throttled(SettleNext(s, j, a))
  {
    var (t, x) := (SettleNext(s, j, a), s.actors.jobs[j]);
    if a.DoAckEntry? {
      AckKeepsBalance(s, j);
    } else {
      SettleFrame(s, j, a);
      OtherSettle(s, j, a);
      if a.DoReap? {
        OtherWorkersBalanced(s.actors.workers, s.actors.jobs, t.actors.jobs, j, x.worker, s.cfg.concurrency);
      } else {
        JobKeepsBalance(s.actors.workers, s.actors.jobs, t.actors.jobs, j, s.cfg.concurrency);
      }
    }
  }

  lemma EnvKeepsThrottle(s: State, a: EnvStep)
    requires Coherent(s) && Throttled(s) && EnvEnabled(s, a)
    ensures Throttled(EnvNext(s, a))
  {}

  lemma NextKeepsThrottle(s: State, a: Action)
    requires Coherent(s) && Throttled(s) && Enabled(s, a)
    ensures Throttled(Next(s, a))
  {
    match a
    case OfLookup(sid, step) => LookupFrame(s, sid, step);
    case OfEnqueue(sid, step) => EnqueueFrame(s, sid, step);
    case OfWorker(w, step) => WorkerKeepsThrottle(s, w, step);
    case OfWork(j, step) => WorkKeepsThrottle(s, j, step);
    case OfSettle(j, step) => SettleKeepsThrottle(s, j, step);
    case OfSweep(w, step) => SweepFrame(s, w, step);
    case OfRecon(r, step) => ReconFrame(s, r, step);
    case OfEnv(step) => EnvFrame(s, step); EnvKeepsThrottle(s, step);
  }

  /** At most `concurrency` jobs of a worker run, at most one more is claimed
      and waits, and the entries read and not acknowledged (the batch, the one
      in hand and those of the running jobs) are at most twice that. */
  lemma BackpressureHolds(s: State, w: WorkerId, i: JobId, j: JobId)
    requires Throttled(s) && w in s.actors.workers
    ensures var (k, running) := (s.actors.workers[w], |RunningJobs(s.actors.jobs, w)|);
            && running <= s.cfg.concurrency
            && |k.batch| + InHand(k) + running <= 2 * s.cfg.concurrency
    ensures Waits(s.actors.jobs, w, i) && Waits(s.actors.jobs, w, j) ==> i == j
    ensures Waits(s.actors.jobs, w, i) ==> InHand(s.actors.workers[w]) == 1
  {}
}
