/** Every step keeps the references well-formed. */
module ReferencesKept {
  import opened Text
  import opened Types
  import opened Decorators
  import opened Repository
  import opened Cache
  import opened Queue
  import opened Protocol
  import opened Frames
  import opened References

  // ---------------------------------------------------------------------
  // Submissions
  // ---------------------------------------------------------------------

  /** The submissions other than `sid` are unaffected by what `sid` does. */
  lemma SubmitsOkStep(submits: map<SubmitId, Submit>, submits': map<SubmitId, Submit>, sid: SubmitId,
                      n: nat, docs: Docs, minted: Mints, n': nat, docs': Docs, minted': Mints, now: Time)
    requires SubmitsOk(submits, n, docs, minted) && MintsOk(n, docs, minted)
    requires n <= n' && Grows(docs, docs', now)
    requires forall id :: id in minted ==> id in minted' && minted'[id] == minted[id]
    requires forall id :: id in docs' && id !in docs ==> id >= n || (id in minted && minted[id].minter == sid)
    requires forall y :: y in submits' && y != sid ==> y in submits && submits'[y] == submits[y]
    requires sid in submits' ==> SubmitOk(sid, submits'[sid], n', docs', minted')
    ensures SubmitsOk(submits', n', docs', minted')
  {}

  lemma LookupSelf(s: State, sid: SubmitId, a: LookupStep)
    requires LookupEnabled(s, sid, a)
    requires SubmitOk(sid, s.actors.submits[sid], s.nextId, s.docs, s.audit.minted)
    requires s.nextId !in s.docs && GuardOk(s.redis.guards, s.audit.minted, SubmitKey(s.actors.submits[sid]))
    ensures var t := LookupNext(s, sid, a);
            sid in t.actors.submits ==> SubmitOk(sid, t.actors.submits[sid], t.nextId, t.docs, t.audit.minted)
  {
    match a
    case DoReadCache(_) =>
    case DoFindDone(_) =>
    case DoFillCache(_) =>
    case DoInsertHit =>
    case DoSetGuard(_) =>
    case DoReadGuard(_) =>
    case DoJoin =>
  }

  lemma EnqueueSelf(s: State, sid: SubmitId, a: EnqueueStep)
    requires EnqueueEnabled(s, sid, a)
    requires SubmitOk(sid, s.actors.submits[sid], s.nextId, s.docs, s.audit.minted)
    ensures var t := EnqueueNext(s, sid, a);
            sid in t.actors.submits ==> SubmitOk(sid, t.actors.submits[sid], t.nextId, t.docs, t.audit.minted)
  {
    match a
    case DoTakeSlot(_) =>
    case DoCountActive =>
    case DoInsertNew(_) =>
    case DoPublishNew(_) =>
    case DoGiveSlotBack(_) =>
    case DoGiveGuardBack(_) =>
    case SubmitDies =>
  }

  lemma LookupGuards(s: State, sid: SubmitId, a: LookupStep)
    requires LookupEnabled(s, sid, a)
    requires SubmitOk(sid, s.actors.submits[sid], s.nextId, s.docs, s.audit.minted)
    requires s.nextId !in s.audit.minted && GuardsOk(s.redis.guards, s.audit.minted)
    ensures var t := LookupNext(s, sid, a); GuardsOk(t.redis.guards, t.audit.minted)
  {}

  lemma EnqueueGuards(s: State, sid: SubmitId, a: EnqueueStep)
    requires EnqueueEnabled(s, sid, a)
    requires GuardsOk(s.redis.guards, s.audit.minted)
    ensures var t := EnqueueNext(s, sid, a); GuardsOk(t.redis.guards, t.audit.minted)
  {
    match a
    case DoTakeSlot(_) =>
    case DoCountActive =>
    case DoInsertNew(_) =>
    case DoPublishNew(_) =>
    case DoGiveSlotBack(_) =>
    case DoGiveGuardBack(_) =>
    case SubmitDies =>
  }

  /** A new record at a free id. */
  lemma InsertKeeps(cfg: Settings, now: Time, n: nat, n': nat, docs: Docs, minted: Mints, id: DocId, d: Doc)
    requires DocsOk(cfg, now, n, docs) && MintsOk(n, docs, minted)
    requires id !in docs && id < n' && n <= n' && DocOk(cfg, now, d)
    requires id in minted <==> !d.fromCache
    requires id in minted ==> KeyOf(d) == minted[id].key
    ensures DocsOk(cfg, now, n', docs[id := d]) && MintsOk(n', docs[id := d], minted)
    ensures Grows(docs, docs[id := d], now)
  {}

  lemma MintKeeps(cfg: Settings, now: Time, n: nat, docs: Docs, minted: Mints, m: Mint)
    requires DocsOk(cfg, now, n, docs) && MintsOk(n, docs, minted)
    ensures DocsOk(cfg, now, n + 1, docs) && MintsOk(n + 1, docs, minted[n := m])
  {}

  /** A record the step of `sid` created. */
  ghost predicate CreatedBy(s: State, docs: Docs, sid: SubmitId) {
    forall id :: id in docs && id !in s.docs ==>
      id >= s.nextId || (id in s.audit.minted && s.audit.minted[id].minter == sid)
  }

  lemma LookupRecords(s: State, t: State, sid: SubmitId, a: LookupStep)
    requires Coherent(s) && LookupEnabled(s, sid, a)
    requires SubmitFrame(s, t, sid) && LookupAdds(s, t, sid, a)
    ensures DocsOk(t.cfg, t.now, t.nextId, t.docs) && MintsOk(t.nextId, t.docs, t.audit.minted)
    ensures Grows(s.docs, t.docs, s.now) && CreatedBy(s, t.docs, sid)
  {
    var x := s.actors.submits[sid];
    if a == DoInsertHit {
      InsertKeeps(s.cfg, s.now, s.nextId, t.nextId, s.docs, s.audit.minted, s.nextId, HitDoc(x, s.nextId, x.pc.found, s.now));
    } else if a == DoFindDone(None) {
      MintKeeps(s.cfg, s.now, s.nextId, s.docs, s.audit.minted, Mint(sid, SubmitKey(x)));
    }
  }

  lemma EnqueueRecords(s: State, t: State, sid: SubmitId, a: EnqueueStep)
    requires Coherent(s) && EnqueueEnabled(s, sid, a)
    requires SubmitFrame(s, t, sid) && EnqueueAdds(s, t, sid, a)
    ensures DocsOk(t.cfg, t.now, t.nextId, t.docs) && MintsOk(t.nextId, t.docs, t.audit.minted)
    ensures Grows(s.docs, t.docs, s.now) && CreatedBy(s, t.docs, sid)
  {
    var x := s.actors.submits[sid];
    assert SubmitOk(sid, x, s.nextId, s.docs, s.audit.minted);
    if Inserts(a) {
      InsertKeeps(s.cfg, s.now, s.nextId, t.nextId, s.docs, s.audit.minted, x.pc.id,
                  NewDoc(x.user, x.title, x.content, x.hash, s.now));
    }
  }

  lemma LookupKeepsCoherence(s: State, sid: SubmitId, a: LookupStep)
    requires Coherent(s) && LookupEnabled(s, sid, a)
    ensures Coherent(LookupNext(s, sid, a))
  {
    var t := LookupNext(s, sid, a);
    assert SubmitOk(sid, s.actors.submits[sid], s.nextId, s.docs, s.audit.minted);
    LookupFrame(s, sid, a);
    LookupAddsOneThing(s, sid, a);
    LookupSelf(s, sid, a);
    LookupGuards(s, sid, a);
    LookupRecords(s, t, sid, a);
    OthersGrow(s, t);
    SubmitsOkStep(s.actors.submits, t.actors.submits, sid, s.nextId, s.docs, s.audit.minted,
                  t.nextId, t.docs, t.audit.minted, s.now);
  }

  lemma EnqueueKeepsCoherence(s: State, sid: SubmitId, a: EnqueueStep)
    requires Coherent(s) && EnqueueEnabled(s, sid, a)
    ensures Coherent(EnqueueNext(s, sid, a))
  {
    var t := EnqueueNext(s, sid, a);
    var x := s.actors.submits[sid];
    assert SubmitOk(sid, x, s.nextId, s.docs, s.audit.minted);
    EnqueueFrame(s, sid, a);
    EnqueueAddsOneThing(s, sid, a);
    EnqueueSelf(s, sid, a);
    EnqueueGuards(s, sid, a);
    EnqueueRecords(s, t, sid, a);
    OthersGrow(s, t);
    if a.DoPublishNew? {
      PublishKeeps(s.redis, t.redis, t.docs, x.pc.id);
    }
    SubmitsOkStep(s.actors.submits, t.actors.submits, sid, s.nextId, s.docs, s.audit.minted,
                  t.nextId, t.docs, t.audit.minted, s.now);
  }

  // ---------------------------------------------------------------------
  // Workers
  // ---------------------------------------------------------------------

  lemma ClaimWonKeepsCoherence(s: State, w: WorkerId)
    requires Coherent(s) && WorkerEnabled(s, w, DoClaim)
    requires IsQueued(s.docs, s.redis.log[s.actors.workers[w].batch[0]])
    ensures Coherent(ClaimWonStep(s, w))
  {
    var t := ClaimWonStep(s, w);
    var k := s.actors.workers[w];
    var id := s.redis.log[k.batch[0]];
    UpdateKeeps(s.cfg, s.now, s.nextId, s.docs, s.audit.minted, id, ClaimDoc(s.docs[id], w, s.cfg.lease, s.now));
    TimePasses(s.cfg, s.now, s.nextId, t.docs, s.audit.minted, s.now, t.nextId);
    OthersGrow(s, t);
    SubmitsOkGrow(s.actors.submits, s.nextId, s.docs, s.audit.minted, t.nextId, t.docs, s.now);
    JobsOkPut(s.actors.jobs, t.nextId, t.docs, t.redis.delivered, s.nextId, NewJob(s, w, k.batch[0]));
    WorkersOkPut(s.actors.workers, t.nextId, t.redis.delivered, w, t.actors.workers[w]);
  }

  /** Whatever a worker holds, it was read from the log. */
  lemma QuietStepReads(s: State, w: WorkerId, a: WorkerStep)
    requires WorkerEnabled(s, w, a)
    requires !ClaimWins(s, w, a)
    requires s.redis.delivered <= |s.redis.log| && PelOk(s.redis) && WorkerOk(s.actors.workers[w], s.redis.delivered)
    ensures var t := WorkerNext(s, w, a);
            && s.redis.delivered <= t.redis.delivered <= |t.redis.log| && PelOk(t.redis)
            && WorkerOk(t.actors.workers[w], t.redis.delivered)
  {
    match a
    case DoPoll =>
    case DoRecover(taken, reply) => RecoverReads(s, w, taken, reply);
    case DoReadStream(_) =>
    case DoClaim =>
    case DoAckLost =>
  }

  lemma RecoverReads(s: State, w: WorkerId, taken: seq<EntryId>, reply: Reply)
    requires WorkerEnabled(s, w, DoRecover(taken, reply)) && PelOk(s.redis) && WorkerOk(s.actors.workers[w], s.redis.delivered)
    ensures var t := RecoverStep(s, w, taken, reply);
            && t.redis.delivered == s.redis.delivered && t.redis.log == s.redis.log && PelOk(t.redis)
            && WorkerOk(t.actors.workers[w], t.redis.delivered)
  {
    forall i | 0 <= i < |taken| ensures IsIdle(s, taken[i]) { assert taken[i] in taken; }
  }

  lemma WorkerKeepsCoherence(s: State, w: WorkerId, a: WorkerStep)
    requires Coherent(s) && WorkerEnabled(s, w, a)
    ensures Coherent(WorkerNext(s, w, a))
  {
    if ClaimWins(s, w, a) {
      ClaimWonKeepsCoherence(s, w);
    } else {
      var t := WorkerNext(s, w, a);
      QuietStep(s, w, a);
      QuietStepReads(s, w, a);
      OthersGrow(s, t);
      WorkersOkPut(s.actors.workers, s.nextId, t.redis.delivered, w, t.actors.workers[w]);
    }
  }

  // ---------------------------------------------------------------------
  // Jobs
  // ---------------------------------------------------------------------

  /** The record after a settling CAS that matched is in order. */
  lemma SettledRecord(cfg: Settings, now: Time, was: Doc, summary: Summary, error: ProcessingError, delay: real)
    requires cfg.Valid() && DocOk(cfg, now, was) && was.status.Processing? && delay <= cfg.retryMax
    ensures DocOk(cfg, now, CompleteDoc(was, summary, now)) && DocStep(was, CompleteDoc(was, summary, now), now)
    ensures DocOk(cfg, now, FailDoc(was, error, now)) && DocStep(was, FailDoc(was, error, now), now)
    ensures DocOk(cfg, now, RetryDoc(was, error, now + delay, now)) && DocStep(was, RetryDoc(was, error, now + delay, now), now)
  {}

  /** A job moved on, its document rewritten or left alone. */
  lemma JobMoves(s: State, t: State, j: JobId, x: Job)
    requires Coherent(s) && j in s.actors.jobs && x.doc == s.actors.jobs[j].doc
    requires t.cfg == s.cfg && t.now == s.now && t.nextId == s.nextId && t.redis == s.redis
    requires t.audit.minted == s.audit.minted
    requires t.actors == s.actors.(jobs := s.actors.jobs[j := x], workers := t.actors.workers)
    requires WorkersOk(t.actors.workers, t.nextId, t.redis.delivered)
    requires JobOk(j, x, t.nextId, t.docs, t.redis.delivered)
    requires t.docs == s.docs || (x.doc in s.docs && x.doc in t.docs && t.docs == s.docs[x.doc := t.docs[x.doc]]
                                  && DocOk(s.cfg, s.now, t.docs[x.doc]) && DocStep(s.docs[x.doc], t.docs[x.doc], s.now))
    ensures Coherent(t)
  {
    if t.docs != s.docs {
      UpdateKeeps(s.cfg, s.now, s.nextId, s.docs, s.audit.minted, x.doc, t.docs[x.doc]);
    }
    OthersGrow(s, t);
    SubmitsOkGrow(s.actors.submits, s.nextId, s.docs, s.audit.minted, t.nextId, t.docs, s.now);
    JobsOkPut(s.actors.jobs, t.nextId, t.docs, t.redis.delivered, j, x);
  }

  lemma CompleteKeepsCoherence(s: State, j: JobId)
    requires Coherent(s) && WorkEnabled(s, j, DoComplete) && JobOwns(s, j)
    ensures Coherent(CompleteStep(s, j))
  {
    var (t, x) := (CompleteStep(s, j), s.actors.jobs[j]);
    SettledRecord(s.cfg, s.now, s.docs[x.doc], Summarized(x.doc, x.snap), JobError(x, "", s.now), 0.0);
    JobMoves(s, t, j, t.actors.jobs[j]);
  }

  lemma FailKeepsCoherence(s: State, j: JobId, code: string)
    requires Coherent(s) && JobOwns(s, j)
    ensures Coherent(FailStep(s, j, code))
  {
    var (t, x) := (FailStep(s, j, code), s.actors.jobs[j]);
    SettledRecord(s.cfg, s.now, s.docs[x.doc], Summarized(x.doc, x.snap), JobError(x, code, s.now), 0.0);
    JobMoves(s, t, j, t.actors.jobs[j]);
  }

  lemma RetryKeepsCoherence(s: State, j: JobId, code: string, delay: real)
    requires Coherent(s) && JobOwns(s, j) && MayRetry(s.cfg, s.actors.jobs[j].snap.attempts, delay)
    ensures Coherent(RetryStep(s, j, code, delay))
  {
    var (t, x) := (RetryStep(s, j, code, delay), s.actors.jobs[j]);
    SettledRecord(s.cfg, s.now, s.docs[x.doc], Summarized(x.doc, x.snap), JobError(x, code, s.now), delay);
    JobMoves(s, t, j, t.actors.jobs[j]);
  }

  lemma WorkKeepsCoherence(s: State, j: JobId, a: WorkStep)
    requires Coherent(s) && WorkEnabled(s, j, a)
    ensures Coherent(WorkNext(s, j, a))
  {
    var t := WorkNext(s, j, a);
    var x := s.actors.jobs[j];
    match a
    case DoReread => JobMoves(s, t, j, t.actors.jobs[j]);
    case DoStart =>
      WorkersOkPut(s.actors.workers, s.nextId, s.redis.delivered, x.worker, t.actors.workers[x.worker]);
      JobMoves(s, t, j, t.actors.jobs[j]);
    case DoComplete =>
      if JobOwns(s, j) { CompleteKeepsCoherence(s, j); } else { JobMoves(s, t, j, t.actors.jobs[j]); }
    case DoRetry(code, delay) =>
      if JobOwns(s, j) { RetryKeepsCoherence(s, j, code, delay); } else { JobMoves(s, t, j, t.actors.jobs[j]); }
    case DoFail(code, _) =>
      if JobOwns(s, j) { FailKeepsCoherence(s, j, code); } else { JobMoves(s, t, j, t.actors.jobs[j]); }
    case DoAbort => JobMoves(s, t, j, t.actors.jobs[j]);
  }

  lemma SettleSelf(s: State, j: JobId, a: SettleStep)
    requires SettleEnabled(s, j, a) && JobOk(j, s.actors.jobs[j], s.nextId, s.docs, s.redis.delivered)
    ensures var t := SettleNext(s, j, a);
            && t.cfg == s.cfg && t.now == s.now && t.nextId == s.nextId && t.docs == s.docs
            && t.audit.minted == s.audit.minted && t.redis.log == s.redis.log && t.redis.delivered == s.redis.delivered
            && t.actors.submits == s.actors.submits && t.actors.sweeps == s.actors.sweeps
            && (if a.DoAckEntry? || a.DoReap? then t.actors.jobs == s.actors.jobs - {j}
                else && j in t.actors.jobs && t.actors.jobs == s.actors.jobs[j := t.actors.jobs[j]]
                     && JobOk(j, t.actors.jobs[j], s.nextId, s.docs, s.redis.delivered))
  {}

  lemma SettleRest(s: State, j: JobId, a: SettleStep)
    requires SettleEnabled(s, j, a) && IsWork(s.docs, s.actors.jobs[j].doc)
    requires QueueOk(s.redis, s.docs) && WorkersOk(s.actors.workers, s.nextId, s.redis.delivered)
    requires GuardsOk(s.redis.guards, s.audit.minted)
    ensures var t := SettleNext(s, j, a);
            && QueueOk(t.redis, s.docs) && WorkersOk(t.actors.workers, s.nextId, s.redis.delivered)
            && GuardsOk(t.redis.guards, s.audit.minted)
  {}

  lemma SettleKeepsCoherence(s: State, j: JobId, a: SettleStep)
    requires Coherent(s) && SettleEnabled(s, j, a)
    ensures Coherent(SettleNext(s, j, a))
  {
    var t := SettleNext(s, j, a);
    SettleSelf(s, j, a);
    SettleRest(s, j, a);
    if !a.DoAckEntry? && !a.DoReap? {
      JobsOkPut(s.actors.jobs, s.nextId, s.docs, s.redis.delivered, j, t.actors.jobs[j]);
    }
  }

  // ---------------------------------------------------------------------
  // Sweepers
  // ---------------------------------------------------------------------

  lemma ResetRowKeepsCoherence(s: State, w: SweepId)
    requires Coherent(s) && RowMatches(s, w)
    ensures Coherent(ResetRowStep(s, w))
  {
    var t := ResetRowStep(s, w);
    var pc := s.actors.sweeps[w].pc;
    var (row, d) := (pc.rows[0], s.docs[pc.rows[0].id]);
    assert SweepOk(w, s.actors.sweeps[w], s.nextId, s.docs, s.now) && RowOk(row, pc.foundAt, s.docs);
    assert DocOk(s.cfg, s.now, d);
    UpdateKeeps(s.cfg, s.now, s.nextId, s.docs, s.audit.minted, row.id, ReclaimDoc(d, pc.foundAt));
    OthersGrow(s, t);
    SubmitsOkGrow(s.actors.submits, s.nextId, s.docs, s.audit.minted, t.nextId, t.docs, s.now);
    assert SweepOk(w, s.actors.sweeps[w], t.nextId, t.docs, t.now);
    SweepsOkPut(s.actors.sweeps, t.nextId, t.docs, t.now, w, t.actors.sweeps[w]);
  }

  /** What the scans of a sweep return is in order. */
  ghost predicate ScanOk(s: State, a: SweepStep) {
    && (a.DoFindExpired? ==> AllLeased(s.docs, a.ids) && forall row :: row in RowsFor(s.docs, a.ids) ==> RowOk(row, s.now, s.docs))
    && (a.DoPopDelayed? ==> AllWork(s.docs, a.due))
    && (a.DoFindStale? ==> AllWork(s.docs, a.ids))
  }

  lemma ScansAreOk(s: State, w: SweepId, a: SweepStep)
    requires SweepEnabled(s, w, a)
    requires DocsOk(s.cfg, s.now, s.nextId, s.docs) && QueueOk(s.redis, s.docs)
    ensures ScanOk(s, a)
  {}

  lemma SweepSelf(s: State, w: SweepId, a: SweepStep)
    requires SweepEnabled(s, w, a) && !ResetHits(s, w, a) && ScanOk(s, a)
    requires SweepOk(w, s.actors.sweeps[w], s.nextId, s.docs, s.now)
    ensures var t := SweepNext(s, w, a);
            w in t.actors.sweeps ==> SweepOk(w, t.actors.sweeps[w], s.nextId, s.docs, s.now)
  {
    match a
    case DoFindExpired(_) =>
    case DoResetRow =>
    case DoPopDelayed(_, _) =>
    case DoFindStale(_) =>
    case DoPublishId(_) =>
    case DoSweepReap =>
  }

  lemma SweepQueue(s: State, w: SweepId, a: SweepStep)
    requires SweepEnabled(s, w, a) && !ResetHits(s, w, a)
    requires SweepOk(w, s.actors.sweeps[w], s.nextId, s.docs, s.now) && QueueOk(s.redis, s.docs)
    ensures var t := SweepNext(s, w, a); QueueOk(t.redis, s.docs) && s.redis.delivered <= t.redis.delivered
  {}

  lemma SweepKeepsCoherence(s: State, w: SweepId, a: SweepStep)
    requires Coherent(s) && SweepEnabled(s, w, a)
    ensures Coherent(SweepNext(s, w, a))
  {
    if ResetHits(s, w, a) {
      ResetRowKeepsCoherence(s, w);
    } else {
      var t := SweepNext(s, w, a);
      assert SweepOk(w, s.actors.sweeps[w], s.nextId, s.docs, s.now);
      ScansAreOk(s, w, a);
      SweepFrame(s, w, a);
      QuietSweep(s, w, a);
      SweepSelf(s, w, a);
      SweepQueue(s, w, a);
      OthersGrow(s, t);
      if w in t.actors.sweeps {
        SweepsOkPut(s.actors.sweeps, s.nextId, s.docs, s.now, w, t.actors.sweeps[w]);
      }
    }
  }

  // ---------------------------------------------------------------------
  // Reconcile runs and the environment
  // ---------------------------------------------------------------------

  lemma ReconKeepsCoherence(s: State, r: ReconId, a: ReconStep)
    requires Coherent(s) && ReconEnabled(s, r, a)
    ensures Coherent(ReconNext(s, r, a))
  {
    ReconFrame(s, r, a);
  }

  lemma EnvActors(s: State, a: EnvStep)
    requires EnvEnabled(s, a) && Coherent(s)
    ensures var t := EnvNext(s, a);
            && SubmitsOk(t.actors.submits, t.nextId, t.docs, t.audit.minted)
            && WorkersOk(t.actors.workers, t.nextId, t.redis.delivered)
            && SweepsOk(t.actors.sweeps, t.nextId, t.docs, t.now)
            && QueueOk(t.redis, t.docs)
  {
    var t := EnvNext(s, a);
    EnvFrame(s, a);
    OthersGrow(s, t);
    SubmitsOkGrow(s.actors.submits, s.nextId, s.docs, s.audit.minted, t.nextId, t.docs, s.now);
    match a
    case Tick(_) =>
    case NewSubmit(_, _, _) =>
    case BootWorker =>
      WorkersOkPut(s.actors.workers, t.nextId, t.redis.delivered, s.nextId, Worker(s.cfg.concurrency, 0, [], Pull));
    case StartSweep(w) =>
      SweepsOkPut(s.actors.sweeps, t.nextId, t.docs, t.now, s.nextId, Sweep(w, FindExpired));
    case StartRecon(_) =>
    case KillWorker(_) =>
    case ExpireGuard(_) =>
    case ExpireCounter(_) =>
    case EvictSummary(_) =>
    case LoseQueue =>
  }

  lemma EnvKeepsCoherence(s: State, a: EnvStep)
    requires Coherent(s) && EnvEnabled(s, a)
    ensures Coherent(EnvNext(s, a))
  {
    var t := EnvNext(s, a);
    EnvFrame(s, a);
    EnvActors(s, a);
    OthersGrow(s, t);
    TimePasses(s.cfg, s.now, s.nextId, s.docs, s.audit.minted, t.now, t.nextId);
  }

  // ---------------------------------------------------------------------
  // Runs
  // ---------------------------------------------------------------------

  lemma InitIsCoherent(s: State)
    requires Init(s)
    ensures Coherent(s)
  {}

  lemma NextKeepsCoherence(s: State, a: Action)
    requires Coherent(s) && Enabled(s, a)
    ensures Coherent(Next(s, a))
  {
    match a
    case OfLookup(sid, step) => LookupKeepsCoherence(s, sid, step);
    case OfEnqueue(sid, step) => EnqueueKeepsCoherence(s, sid, step);
    case OfWorker(w, step) => WorkerKeepsCoherence(s, w, step);
    case OfWork(j, step) => WorkKeepsCoherence(s, j, step);
    case OfSettle(j, step) => SettleKeepsCoherence(s, j, step);
    case OfSweep(w, step) => SweepKeepsCoherence(s, w, step);
    case OfRecon(r, step) => ReconKeepsCoherence(s, r, step);
    case OfEnv(step) => EnvKeepsCoherence(s, step);
  }
}
