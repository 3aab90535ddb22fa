/** Backpressure seen from the stream: how many pending entries a worker has. */
module Pending {
  import opened Types
  import opened Repository
  import opened Protocol
  import opened Frames
  import opened References
  import opened ReferencesKept
  import opened Backpressure

  // ---------------------------------------------------------------------
  // Entries in somebody's hands
  // ---------------------------------------------------------------------

  /** The pending entries of a consumer. */
  ghost function PendingOf(redis: Redis, w: WorkerId): set<EntryId> {
    set e | e in redis.pel && redis.pel[e].consumer == w
  }

  ghost function JobsOf(jobs: map<JobId, Job>, w: WorkerId): set<JobId> {
    set j | j in jobs && jobs[j].worker == w
  }

  ghost function EntriesOf(jobs: map<JobId, Job>, js: set<JobId>): set<EntryId> {
    set j | j in js && j in jobs :: jobs[j].entry
  }

  ghost function JobEntries(jobs: map<JobId, Job>, w: WorkerId): set<EntryId> {
    EntriesOf(jobs, JobsOf(jobs, w))
  }

  function Elements(q: seq<EntryId>): set<EntryId> { set e | e in q }

  ghost function InHands(k: Worker, jobs: map<JobId, Job>, w: WorkerId): set<EntryId> {
    Elements(k.batch) + (if k.pc.AckLost? then {k.pc.entry} else {}) + JobEntries(jobs, w)
  }

  /** Pending entries that their live worker does not know of. */
  ghost function Stray(s: State, w: WorkerId): set<EntryId> {
    if w in s.actors.workers then PendingOf(s.redis, w) - InHands(s.actors.workers[w], s.actors.jobs, w) else {}
  }

  /** A read or a takeover of `w` took effect, but its answer was lost. */
  predicate LosesRead(a: Action, w: WorkerId) {
    a.OfWorker? && a.wid == w &&
    match a.consume
    case DoReadStream(reply) => reply.AnswerLost?
    case DoRecover(_, reply) => reply.AnswerLost?
    case _ => false
  }

  /** Every pending entry was given to a worker that has been started. */
  ghost predicate ConsumersKnown(s: State) {
    forall e: EntryId :: e in s.redis.pel ==> s.redis.pel[e].consumer < s.nextId
  }

  lemma WorkerKeepsConsumers(s: State, w: WorkerId, a: WorkerStep)
    requires Coherent(s) && ConsumersKnown(s) && WorkerEnabled(s, w, a)
    ensures ConsumersKnown(WorkerNext(s, w, a))
  {
    match a
    case DoPoll =>
    case DoRecover(_, _) =>
    case DoReadStream(_) =>
    case DoClaim =>
    case DoAckLost =>
  }

  lemma NextKeepsConsumers(s: State, a: Action)
    requires Coherent(s) && ConsumersKnown(s) && Enabled(s, a)
    ensures ConsumersKnown(Next(s, a))
  {
    match a
    case OfLookup(sid, step) => LookupFrame(s, sid, step);
    case OfEnqueue(sid, step) => EnqueueFrame(s, sid, step);
    case OfWorker(w, step) => WorkerKeepsConsumers(s, w, step);
    case OfWork(j, step) => WorkFrame(s, j, step);
    case OfSettle(j, step) => SettlePending(s, j, step);
    case OfSweep(w, step) => SweepFrame(s, w, step);
    case OfRecon(r, step) => ReconFrame(s, r, step);
    case OfEnv(step) => EnvPending(s, step);
  }

  lemma SettlePending(s: State, j: JobId, a: SettleStep)
    requires SettleEnabled(s, j, a)
    ensures var t := SettleNext(s, j, a);
            && t.redis.pel == (if a.DoAckEntry? then s.redis.pel - {s.actors.jobs[j].entry} else s.redis.pel)
            && t.nextId == s.nextId
            && (if a.DoAckEntry? || a.DoReap? then t.actors.jobs == s.actors.jobs - {j}
                else j in t.actors.jobs && t.actors.jobs == s.actors.jobs[j := t.actors.jobs[j]]
                     && t.actors.jobs[j].worker == s.actors.jobs[j].worker && t.actors.jobs[j].entry == s.actors.jobs[j].entry)
            && (a.DoReap? ==> s.actors.jobs[j].worker !in s.actors.workers)
            && t.actors.workers.Keys == s.actors.workers.Keys
            && forall w :: w in s.actors.workers ==> t.actors.workers[w] == s.actors.workers[w].(permits := t.actors.workers[w].permits)
  {
    match a
    case DoStoreSummary(_) =>
    case DoFreeSlot(_) =>
    case DoFreeGuard(_) =>
    case DoEnterDelay(_) =>
    case DoAckEntry =>
    case DoReap =>
  }

  lemma EnvPending(s: State, a: EnvStep)
    requires EnvEnabled(s, a)
    ensures var t := EnvNext(s, a);
            && (t.redis.pel == s.redis.pel || t.redis.pel == map[]) && s.nextId <= t.nextId && t.actors.jobs == s.actors.jobs
            && forall w :: w in t.actors.workers ==>
                 if w in s.actors.workers then a != BootWorker || w != s.nextId ==> t.actors.workers[w] == s.actors.workers[w]
                 else a == BootWorker && w == s.nextId
  {
    match a
    case Tick(_) =>
    case NewSubmit(_, _, _) =>
    case BootWorker =>
    case StartSweep(_) =>
    case StartRecon(_) =>
    case KillWorker(_) =>
    case ExpireGuard(_) =>
    case ExpireCounter(_) =>
    case EvictSummary(_) =>
    case LoseQueue =>
  }

  // ---------------------------------------------------------------------
  // Entries go astray only with a lost answer
  // ---------------------------------------------------------------------

  /** Another worker's step takes nothing out of the hands of `w`. */
  lemma OtherWorkerStray(s: State, v: WorkerId, a: WorkerStep, w: WorkerId)
    requires Coherent(s) && WorkerEnabled(s, v, a) && v != w
    ensures Stray(WorkerNext(s, v, a), w) <= Stray(s, w)
  {
    var t := WorkerNext(s, v, a);
    forall e | e in Stray(t, w) ensures e !in JobEntries(s.actors.jobs, w) { StrayJobs(s.actors.jobs, t.actors.jobs, w, e); }
    match a
    case DoPoll =>
    case DoRecover(_, _) =>
    case DoReadStream(_) =>
    case DoClaim =>
    case DoAckLost =>
  }

  lemma ClaimStray(s: State, w: WorkerId)
    requires Coherent(s) && WorkerEnabled(s, w, DoClaim)
    ensures Stray(WorkerNext(s, w, DoClaim), w) <= Stray(s, w)
  {
    var (t, k) := (WorkerNext(s, w, DoClaim), s.actors.workers[w]);
    assert k.batch == [k.batch[0]] + k.batch[1..];
    forall e | e in Stray(t, w) ensures e in Stray(s, w) {
      if ClaimWins(s, w, DoClaim) {
        assert t.actors.jobs[s.nextId].entry == k.batch[0];
        StrayJobs(s.actors.jobs, t.actors.jobs, w, e);
      }
    }
  }

  lemma StrayJobs(jobs: map<JobId, Job>, jobs': map<JobId, Job>, w: WorkerId, e: EntryId)
    requires e !in JobEntries(jobs', w) && forall j :: j in jobs ==> j in jobs' && jobs'[j] == jobs[j]
    ensures e !in JobEntries(jobs, w)
  {
    forall j | j in jobs && jobs[j].worker == w ensures jobs[j].entry != e { assert jobs'[j].entry in JobEntries(jobs', w); }
  }

  lemma OwnStray(s: State, w: WorkerId, a: WorkerStep)
    requires Coherent(s) && WorkerEnabled(s, w, a) && !a.DoClaim? && !LosesRead(OfWorker(w, a), w)
    ensures Stray(WorkerNext(s, w, a), w) <= Stray(s, w)
  {
    assert WorkerOk(s.actors.workers[w], s.redis.delivered);
    match a
    case DoPoll =>
    case DoRecover(_, _) =>
    case DoReadStream(_) =>
    case DoAckLost =>
  }

  /** Jobs other than `j` stay as they are; `j` keeps its entry, or is gone
      along with its entry or its worker. */
  lemma SettleStray(s: State, j: JobId, a: SettleStep, w: WorkerId)
    requires SettleEnabled(s, j, a)
    ensures Stray(SettleNext(s, j, a), w) <= Stray(s, w)
  {
    SettlePending(s, j, a);
    var t := SettleNext(s, j, a);
    forall e | e in Stray(t, w) ensures e in Stray(s, w) {
      forall i | i in s.actors.jobs && s.actors.jobs[i].worker == w ensures s.actors.jobs[i].entry != e {
        if i in t.actors.jobs { assert t.actors.jobs[i].entry in JobEntries(t.actors.jobs, w); }
      }
    }
  }

  lemma WorkStray(s: State, j: JobId, a: WorkStep, w: WorkerId)
    requires Throttled(s) && WorkEnabled(s, j, a)
    ensures Stray(WorkNext(s, j, a), w) <= Stray(s, w)
  {
    WorkEntry(s, j, a);
    WorkFrame(s, j, a);
    if a != DoStart { OtherWork(s, j, a); }
    var v := s.actors.jobs[j].worker;
    assert WorkerBalanced(s.actors.workers[v], s.actors.jobs, v, s.cfg.concurrency);
    assert a.DoStart? ==> Waits(s.actors.jobs, v, j);
    var t := WorkNext(s, j, a);
    forall e | e in Stray(t, w) ensures e in Stray(s, w) {
      forall i | i in s.actors.jobs && s.actors.jobs[i].worker == w ensures s.actors.jobs[i].entry != e {
        assert i in t.actors.jobs && t.actors.jobs[i].entry in JobEntries(t.actors.jobs, w);
      }
    }
  }

  lemma WorkEntry(s: State, j: JobId, a: WorkStep)
    requires WorkEnabled(s, j, a)
    ensures var t := WorkNext(s, j, a);
            j in t.actors.jobs && t.actors.jobs[j].entry == s.actors.jobs[j].entry && t.actors.jobs[j].worker == s.actors.jobs[j].worker
  {
    match a
    case DoReread =>
    case DoStart =>
    case DoComplete =>
    case DoRetry(_, _) =>
    case DoFail(_, _) =>
    case DoAbort =>
  }

  lemma EnvStray(s: State, a: EnvStep, w: WorkerId)
    requires Coherent(s) && ConsumersKnown(s) && EnvEnabled(s, a)
    ensures Stray(EnvNext(s, a), w) <= Stray(s, w)
  {
    EnvPending(s, a);
  }

  lemma SubsetSize<T>(a: set<T>, b: set<T>)
    requires a <= b
    ensures |a| <= |b|
  {
    assert b == a + (b - a) && a * (b - a) == {};
  }

  lemma UnionSize<T>(a: set<T>, b: set<T>, c: set<T>)
    requires c <= a + b
    ensures |c| <= |a| + |b|
  {
    SubsetSize(c, a + b);
    assert |a + b| + |a * b| == |a| + |b|;
  }

  lemma {:induction false} FewElements(q: seq<EntryId>)
    ensures |Elements(q)| <= |q|
  {
    if q != [] {
      FewElements(q[1..]);
      assert q == [q[0]] + q[1..];
      UnionSize({q[0]}, Elements(q[1..]), Elements(q));
    }
  }

  /** What a read or a takeover gives to the worker. */
  ghost function Given(s: State, a: WorkerStep): seq<EntryId> {
    match a
    case DoReadStream(_) => Span(s.redis.delivered, ReadTo(s.redis, s.cfg.concurrency))
    case DoRecover(taken, _) => taken
    case _ => []
  }

  lemma LostStray(s: State, w: WorkerId, a: WorkerStep)
    requires WorkerEnabled(s, w, a) && LosesRead(OfWorker(w, a), w)
    ensures Stray(WorkerNext(s, w, a), w) <= Stray(s, w) + Elements(Given(s, a))
    ensures |Given(s, a)| <= s.cfg.concurrency
  {
    match a
    case DoRecover(_, _) =>
    case DoReadStream(_) =>
  }

  lemma WorkerStray(s: State, v: WorkerId, a: WorkerStep, w: WorkerId)
    requires Coherent(s) && WorkerEnabled(s, v, a)
    ensures |Stray(WorkerNext(s, v, a), w)| <= |Stray(s, w)| + (if LosesRead(OfWorker(v, a), w) then s.cfg.concurrency else 0)
  {
    var t := WorkerNext(s, v, a);
    if LosesRead(OfWorker(v, a), w) {
      LostStray(s, w, a);
      FewElements(Given(s, a));
      UnionSize(Stray(s, w), Elements(Given(s, a)), Stray(t, w));
    } else {
      if v != w { OtherWorkerStray(s, v, a, w); }
      else if a.DoClaim? { ClaimStray(s, w); }
      else { OwnStray(s, w, a); }
      FewerStray(s, t, w);
    }
  }

  lemma AsideStray(s: State, t: State, w: WorkerId)
    requires t.actors.workers == s.actors.workers && t.actors.jobs == s.actors.jobs && t.redis.pel == s.redis.pel
    ensures Stray(t, w) == Stray(s, w)
  {}

  /** Only a lost answer adds strays, at most one batch. */
  lemma NextStray(s: State, a: Action, w: WorkerId)
    requires Coherent(s) && Throttled(s) && ConsumersKnown(s) && Enabled(s, a)
    ensures |Stray(Next(s, a), w)| <= |Stray(s, w)| + (if LosesRead(a, w) then s.cfg.concurrency else 0)
  {
    if a.OfWorker? {
      WorkerStray(s, a.wid, a.consume, w);
    } else {
      OtherStray(s, a, w);
      FewerStray(s, Next(s, a), w);
    }
  }

  lemma OtherStray(s: State, a: Action, w: WorkerId)
    requires Coherent(s) && Throttled(s) && ConsumersKnown(s) && Enabled(s, a) && !a.OfWorker?
    ensures Stray(Next(s, a), w) <= Stray(s, w)
  {
    match a
    case OfLookup(sid, step) => LookupFrame(s, sid, step); AsideStray(s, LookupNext(s, sid, step), w);
    case OfEnqueue(sid, step) => EnqueueFrame(s, sid, step); AsideStray(s, EnqueueNext(s, sid, step), w);
    case OfWork(j, step) => WorkStray(s, j, step, w);
    case OfSettle(j, step) => SettleStray(s, j, step, w);
    case OfSweep(x, step) => SweepFrame(s, x, step); AsideStray(s, SweepNext(s, x, step), w);
    case OfRecon(r, step) => ReconFrame(s, r, step); AsideStray(s, ReconNext(s, r, step), w);
    case OfEnv(step) => EnvStray(s, step, w);
  }

  lemma FewerStray(s: State, t: State, w: WorkerId)
    requires Stray(t, w) <= Stray(s, w)
    ensures |Stray(t, w)| <= |Stray(s, w)|
  {
    SubsetSize(Stray(t, w), Stray(s, w));
  }

  // ---------------------------------------------------------------------
  // The bound
  // ---------------------------------------------------------------------

  /** A batch for each lost answer. */
  function LostBatches(acts: seq<Action>, w: WorkerId, concurrency: nat): nat {
    if acts == [] then 0
    else (if LosesRead(acts[0], w) then concurrency else 0) + LostBatches(acts[1..], w, concurrency)
  }

  lemma {:induction false} StraysAreLost(s: State, acts: seq<Action>, w: WorkerId)
    requires Coherent(s) && Throttled(s) && ConsumersKnown(s) && Legal(s, acts)
    ensures var t := Exec(s, acts);
            && Throttled(t) && t.cfg == s.cfg
            && |Stray(t, w)| <= |Stray(s, w)| + LostBatches(acts, w, s.cfg.concurrency)
    decreases |acts|
  {
    if acts != [] {
      NextStray(s, acts[0], w);
      NextKeepsCoherence(s, acts[0]);
      NextKeepsThrottle(s, acts[0]);
      NextKeepsConsumers(s, acts[0]);
      SettingsStay(s, acts[0]);
      StraysAreLost(Next(s, acts[0]), acts[1..], w);
    }
  }

  lemma SettingsStay(s: State, a: Action)
    requires Enabled(s, a)
    ensures Next(s, a).cfg == s.cfg
  {
    match a
    case OfLookup(sid, step) => LookupFrame(s, sid, step);
    case OfEnqueue(sid, step) => EnqueueFrame(s, sid, step);
    case OfWorker(w, step) => WorkerFrame(s, w, step);
    case OfWork(j, step) => WorkFrame(s, j, step);
    case OfSettle(j, step) => SettleFrame(s, j, step);
    case OfSweep(x, step) => SweepFrame(s, x, step);
    case OfRecon(r, step) => ReconFrame(s, r, step);
    case OfEnv(step) => EnvFrame(s, step);
  }

  lemma {:induction false} FewEntries(jobs: map<JobId, Job>, js: set<JobId>)
    requires js <= jobs.Keys
    ensures |EntriesOf(jobs, js)| <= |js|
    decreases |js|
  {
    if js != {} {
      var i :| i in js;
      FewEntries(jobs, js - {i});
      UnionSize({jobs[i].entry}, EntriesOf(jobs, js - {i}), EntriesOf(jobs, js));
    }
  }

  /** The claimed jobs of a worker: those that run, and the one that waits. */
  lemma JobsOfWorker(s: State, w: WorkerId)
    requires Throttled(s) && w in s.actors.workers
    ensures |JobEntries(s.actors.jobs, w)| <= |RunningJobs(s.actors.jobs, w)| + (if s.actors.workers[w].pc.Yield? then 1 else 0)
  {
    var (k, jobs) := (s.actors.workers[w], s.actors.jobs);
    assert WorkerBalanced(k, jobs, w, s.cfg.concurrency);
    var all := JobsOf(jobs, w);
    FewEntries(jobs, all);
    var waiting := if k.pc.Yield? then {k.pc.job} else {};
    forall j | j in all ensures j in RunningJobs(jobs, w) + waiting { assert j !in RunningJobs(jobs, w) ==> Waits(jobs, w, j); }
    UnionSize(RunningJobs(jobs, w), waiting, all);
  }

  /** A live worker's pending entries are at most twice its concurrency, plus
      those that went astray. */
  lemma PendingIsHeld(s: State, w: WorkerId)
    requires Throttled(s) && w in s.actors.workers
    ensures |PendingOf(s.redis, w)| <= s.cfg.concurrency + s.cfg.concurrency + |Stray(s, w)|
  {
    var k := s.actors.workers[w];
    var batch := Elements(k.batch);
    var acked := if k.pc.AckLost? then {k.pc.entry} else {};
    assert WorkerBalanced(k, s.actors.jobs, w, s.cfg.concurrency);
    FewElements(k.batch);
    JobsOfWorker(s, w);
    var held := batch + acked + JobEntries(s.actors.jobs, w);
    UnionSize(batch, acked, batch + acked);
    UnionSize(batch + acked, JobEntries(s.actors.jobs, w), held);
    UnionSize(held, Stray(s, w), PendingOf(s.redis, w));
  }

  /** Over whole runs: the pending list holds at most twice the concurrency for
      a live worker, plus a batch for each read whose answer it lost. */
  lemma PendingIsBounded(s: State, acts: seq<Action>, w: WorkerId)
    requires Coherent(s) && Throttled(s) && ConsumersKnown(s) && Legal(s, acts) && w in Exec(s, acts).actors.workers
    ensures var c := s.cfg.concurrency;
            |PendingOf(Exec(s, acts).redis, w)| <= c + c + |Stray(s, w)| + LostBatches(acts, w, c)
  {
    StraysAreLost(s, acts, w);
    PendingIsHeld(Exec(s, acts), w);
  }
}
