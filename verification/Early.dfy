/** When the backoff is kept. The claim filter does not look at
    `nextAttemptAt`, so a retry starts early exactly if something that was
    around when it was scheduled brings the document to a worker in time. */
module Early {
  import opened Types
  import opened Repository
  import opened Queue
  import opened Protocol
  import opened Frames
  import opened References
  import opened ReferencesKept
  import opened Slots
  import opened Settlement
  import opened Guards

  // ---------------------------------------------------------------------
  // Carriers
  // ---------------------------------------------------------------------

  /** The document waits for its next attempt, not due before `due`. */
  ghost predicate Waiting(s: State, id: DocId, due: Time) {
    IsQueued(s.docs, id) && s.docs[id].nextAttemptAt == Some(due) && s.now < due
  }

  datatype Carrier =
    | Undelivered(e: EntryId)
    | InBatch(w: WorkerId, e: EntryId)
    | Unacked(e: EntryId)
    | InDelaySet
    | OwedBySubmit(sid: SubmitId)
    | OwedBySweep(x: SweepId)
    | OwedByJob(j: JobId)

  ghost predicate IsFor(redis: Redis, e: EntryId, id: DocId) {
    e < |redis.log| && redis.log[e] == id
  }

  /** What a sweep is going to publish. */
  predicate ToPublish(pc: SweepPc, id: DocId) {
    (pc.ResetRows? && id in pc.done) || (pc.PublishIds? && id in pc.ids)
  }

  /** Something that can bring the document to a claim before `due`: an entry
      not yet delivered, in the batch of a live worker, or pending and idle in
      time; a delay-set member due in time; a submission, a live sweep or a
      live job about to put one of these in place. */
  ghost predicate Brings(s: State, c: Carrier, id: DocId, due: Time) {
    match c
    case Undelivered(e) => IsFor(s.redis, e, id) && s.redis.delivered <= e
    case InBatch(w, e) => IsFor(s.redis, e, id) && w in s.actors.workers && e in s.actors.workers[w].batch
    case Unacked(e) => IsFor(s.redis, e, id) && e in s.redis.pel && s.redis.pel[e].since + s.cfg.lease < due
    case InDelaySet => id in s.redis.zset && s.redis.zset[id] < due
    case OwedBySubmit(sid) => sid in s.actors.submits && s.actors.submits[sid].pc == PublishNew(id)
    case OwedBySweep(x) =>
      x in s.actors.sweeps && s.actors.sweeps[x].worker in s.actors.workers && ToPublish(s.actors.sweeps[x].pc, id)
    case OwedByJob(j) =>
      j in s.actors.jobs && s.actors.jobs[j].worker in s.actors.workers && s.actors.jobs[j].doc == id
      && s.actors.jobs[j].pc.EnterDelay? && s.now + s.actors.jobs[j].pc.delay < due
  }

  // ---------------------------------------------------------------------
  // Every carrier comes from one
  // ---------------------------------------------------------------------

  lemma LookupOrigin(s: State, sid: SubmitId, a: LookupStep, c: Carrier, id: DocId, due: Time)
    requires LookupEnabled(s, sid, a) && Brings(LookupNext(s, sid, a), c, id, due)
    ensures Brings(s, c, id, due)
  {
    LookupFrame(s, sid, a);
    MovedSubmit(s, LookupNext(s, sid, a).actors, sid);
    LookupAddsOneThing(s, sid, a);
    LookupOwesNothing(s, sid, a);
  }

  lemma LookupOwesNothing(s: State, sid: SubmitId, a: LookupStep)
    requires LookupEnabled(s, sid, a)
    ensures var t := LookupNext(s, sid, a); sid in t.actors.submits ==> !t.actors.submits[sid].pc.PublishNew?
  {
    match a
    case DoReadCache(_) =>
    case DoFindDone(_) =>
    case DoFillCache(_) =>
    case DoInsertHit =>
    case DoSetGuard(_) =>
    case DoReadGuard(_) =>
    case DoJoin =>
  }

  lemma EnqueueOwes(s: State, sid: SubmitId, a: EnqueueStep, id: DocId)
    requires EnqueueEnabled(s, sid, a) && (s.actors.submits[sid].pc.InsertNew? ==> s.actors.submits[sid].pc.id != id)
    ensures var t := EnqueueNext(s, sid, a);
            sid in t.actors.submits && t.actors.submits[sid].pc == PublishNew(id) ==> s.actors.submits[sid].pc == PublishNew(id)
  {
    match a
    case DoTakeSlot(_) =>
    case DoCountActive =>
    case DoInsertNew(_) =>
    case DoPublishNew(_) =>
    case DoGiveSlotBack(_) =>
    case DoGiveGuardBack(_) =>
    case SubmitDies =>
  }

  /** A submission publishes what it owed, and inserts only fresh ids. */
  lemma EnqueueOrigin(s: State, sid: SubmitId, a: EnqueueStep, c: Carrier, id: DocId, due: Time)
    requires EnqueueEnabled(s, sid, a) && Brings(EnqueueNext(s, sid, a), c, id, due)
    requires s.actors.submits[sid].pc.InsertNew? ==> s.actors.submits[sid].pc.id != id
    requires QueueOk(s.redis, s.docs) && WorkersOk(s.actors.workers, s.nextId, s.redis.delivered)
    ensures Brings(s, c, id, due) || (c == Undelivered(|s.redis.log|) && Brings(s, OwedBySubmit(sid), id, due))
  {
    EnqueueOwes(s, sid, a, id);
    EnqueueFrame(s, sid, a);
    MovedSubmit(s, EnqueueNext(s, sid, a).actors, sid);
    EnqueueAddsOneThing(s, sid, a);
    BatchesAreRead(s, c);
  }

  lemma BatchesAreRead(s: State, c: Carrier)
    requires WorkersOk(s.actors.workers, s.nextId, s.redis.delivered)
    ensures c.InBatch? && c.w in s.actors.workers && c.e in s.actors.workers[c.w].batch ==> c.e < s.redis.delivered
  {
    if c.InBatch? && c.w in s.actors.workers { assert WorkerOk(s.actors.workers[c.w], s.redis.delivered); }
  }

  /** A worker gets entries from the stream or, once idle, from the pending
      list. */
  ghost function ReadFrom(s: State, w: WorkerId, a: WorkerStep, c: Carrier): Carrier {
    if a.DoReadStream? && (c.InBatch? || c.Unacked?) && s.redis.delivered <= c.e then Undelivered(c.e)
    else if a.DoRecover? && a.reply.Answered? && a.taken != [] && c.InBatch? && c.w == w then Unacked(c.e)
    else c
  }

  lemma BatchOrigin(s: State, w: WorkerId, a: WorkerStep, e: EntryId, id: DocId, due: Time)
    requires WorkerEnabled(s, w, a) && Brings(WorkerNext(s, w, a), InBatch(w, e), id, due) && s.now < due
    requires s.redis.delivered <= |s.redis.log|
    ensures Brings(s, ReadFrom(s, w, a, InBatch(w, e)), id, due)
  {
    match a
    case DoPoll =>
    case DoRecover(taken, _) => if e in taken { assert IsIdle(s, e); }
    case DoReadStream(_) =>
    case DoClaim =>
    case DoAckLost =>
  }

  lemma UnackedOrigin(s: State, w: WorkerId, a: WorkerStep, e: EntryId, id: DocId, due: Time)
    requires WorkerEnabled(s, w, a) && Brings(WorkerNext(s, w, a), Unacked(e), id, due) && s.now < due
    ensures Brings(s, ReadFrom(s, w, a, Unacked(e)), id, due)
  {
    match a
    case DoPoll =>
    case DoRecover(taken, _) => if e in taken { assert IsIdle(s, e); }
    case DoReadStream(_) =>
    case DoClaim =>
    case DoAckLost =>
  }

  lemma WorkerKeepsOthers(s: State, w: WorkerId, a: WorkerStep)
    requires WorkerEnabled(s, w, a)
    ensures var t := WorkerNext(s, w, a);
            && s.redis.delivered <= t.redis.delivered && SameElsewhere(s.actors.workers, t.actors.workers, w) && w in t.actors.workers
            && (t.actors.jobs == s.actors.jobs
                || exists x: Job :: x.pc == Reread && t.actors.jobs == s.actors.jobs[s.nextId := x])
  {
    match a
    case DoPoll =>
    case DoRecover(_, _) =>
    case DoReadStream(_) =>
    case DoClaim =>
      if ClaimWins(s, w, a) { assert NewJob(s, w, s.actors.workers[w].batch[0]).pc == Reread; }
    case DoAckLost =>
  }

  lemma WorkerOrigin(s: State, w: WorkerId, a: WorkerStep, c: Carrier, id: DocId, due: Time)
    requires WorkerEnabled(s, w, a) && Brings(WorkerNext(s, w, a), c, id, due) && s.now < due
    requires s.redis.delivered <= |s.redis.log|
    ensures Brings(s, ReadFrom(s, w, a, c), id, due) || Brings(s, c, id, due)
  {
    if c.Unacked? {
      UnackedOrigin(s, w, a, c.e, id, due);
    } else if c.InBatch? && c.w == w {
      BatchOrigin(s, w, a, c.e, id, due);
    } else {
      WorkerFrame(s, w, a);
      WorkerKeepsOthers(s, w, a);
    }
  }

  /** Only a job that owns the record sends it back, so not while it waits. */
  lemma WorkOrigin(s: State, j: JobId, a: WorkStep, c: Carrier, id: DocId, due: Time)
    requires WorkEnabled(s, j, a) && Brings(WorkNext(s, j, a), c, id, due) && IsQueued(s.docs, id)
    ensures Brings(s, c, id, due)
  {
    if a.DoRetry? { RetryOrigin(s, j, a, c, id, due); }
    match a
    case DoReread =>
    case DoStart =>
    case DoComplete =>
    case DoRetry(_, _) =>
    case DoFail(_, _) =>
    case DoAbort =>
  }

  lemma RetryOrigin(s: State, j: JobId, a: WorkStep, c: Carrier, id: DocId, due: Time)
    requires a.DoRetry? && WorkEnabled(s, j, a) && Brings(WorkNext(s, j, a), c, id, due) && IsQueued(s.docs, id)
    ensures Brings(s, c, id, due)
  {}

  lemma SettleOrigin(s: State, j: JobId, a: SettleStep, c: Carrier, id: DocId, due: Time)
    requires SettleEnabled(s, j, a) && Brings(SettleNext(s, j, a), c, id, due)
    ensures Brings(s, c, id, due) || Brings(s, OwedByJob(j), id, due)
  {
    match a
    case DoStoreSummary(_) =>
    case DoFreeSlot(_) =>
    case DoFreeGuard(_) =>
    case DoEnterDelay(_) =>
    case DoAckEntry =>
    case DoReap =>
  }

  lemma SweepOwes(s: State, x: SweepId, a: SweepStep, id: DocId, due: Time)
    requires SweepEnabled(s, x, a) && Waiting(s, id, due)
    ensures var t := SweepNext(s, x, a);
            (x in t.actors.sweeps && ToPublish(t.actors.sweeps[x].pc, id)) ==>
              ToPublish(s.actors.sweeps[x].pc, id) || (id in s.redis.zset && s.redis.zset[id] <= s.now)
  {
    match a
    case DoFindExpired(_) =>
    case DoResetRow =>
    case DoPopDelayed(ids, _) => if id in ids { assert id in DueIds(s.redis.zset, s.now); }
    case DoFindStale(_) => assert id !in StaleIds(s.docs, s.now - s.cfg.staleQueued, s.now);
    case DoPublishId(_) =>
    case DoSweepReap =>
  }

  lemma SweepLogs(s: State, x: SweepId, a: SweepStep)
    requires SweepEnabled(s, x, a)
    ensures var (t, pc) := (SweepNext(s, x, a), s.actors.sweeps[x].pc);
            && (t.redis.log == s.redis.log
                || (a.DoPublishId? && pc.PublishIds? && pc.ids != [] && t.redis.log == s.redis.log + [pc.ids[0]]
                    && s.actors.sweeps[x].worker in s.actors.workers))
            && forall id :: id in t.redis.zset ==> id in s.redis.zset && t.redis.zset[id] == s.redis.zset[id]
  {
    match a
    case DoFindExpired(_) =>
    case DoResetRow =>
    case DoPopDelayed(_, _) =>
    case DoFindStale(_) =>
    case DoPublishId(_) =>
    case DoSweepReap =>
  }

  /** A sweep pops what is due now, and does not find what is not. */
  lemma SweepOrigin(s: State, x: SweepId, a: SweepStep, c: Carrier, id: DocId, due: Time)
    requires SweepEnabled(s, x, a) && Brings(SweepNext(s, x, a), c, id, due) && Waiting(s, id, due)
    requires QueueOk(s.redis, s.docs) && WorkersOk(s.actors.workers, s.nextId, s.redis.delivered)
    ensures Brings(s, c, id, due) || Brings(s, InDelaySet, id, due)
            || (c == Undelivered(|s.redis.log|) && Brings(s, OwedBySweep(x), id, due))
  {
    SweepOwes(s, x, a, id, due);
    SweepLogs(s, x, a);
    SweepFrame(s, x, a);
    BatchesAreRead(s, c);
  }

  lemma EnvOrigin(s: State, a: EnvStep, c: Carrier, id: DocId, due: Time)
    requires Coherent(s) && EnvEnabled(s, a) && Brings(EnvNext(s, a), c, id, due)
    ensures Brings(s, c, id, due)
  {
    if c.OwedByJob? { assert JobOk(c.j, s.actors.jobs[c.j], s.nextId, s.docs, s.redis.delivered); }
    match a
    case Tick(_) =>
    case NewSubmit(_, _, _) =>
    case BootWorker =>
    case StartSweep(_) =>
    case StartRecon(_) =>
    case KillWorker(_) =>
    case ExpireGuard(_) =>
    case ExpireCounter(_) =>
    case EvictSummary(_) =>
    case LoseQueue =>
  }

  /** Whatever brings the document early after a step, something did before. */
  lemma NextOrigin(s: State, a: Action, c: Carrier, id: DocId, due: Time)
    requires Coherent(s) && Enabled(s, a) && Waiting(s, id, due) && Brings(Next(s, a), c, id, due)
    ensures exists o :: Brings(s, o, id, due)
  {
    match a
    case OfLookup(sid, step) => LookupOrigin(s, sid, step, c, id, due);
    case OfEnqueue(sid, step) =>
      assert SubmitOk(sid, s.actors.submits[sid], s.nextId, s.docs, s.audit.minted);
      EnqueueOrigin(s, sid, step, c, id, due);
    case OfWorker(w, step) => WorkerOrigin(s, w, step, c, id, due);
    case OfWork(j, step) => WorkOrigin(s, j, step, c, id, due);
    case OfSettle(j, step) => SettleOrigin(s, j, step, c, id, due);
    case OfSweep(x, step) => SweepOrigin(s, x, step, c, id, due);
    case OfRecon(r, step) => ReconFrame(s, r, step); assert Brings(s, c, id, due);
    case OfEnv(step) => EnvOrigin(s, step, c, id, due);
  }

  // ---------------------------------------------------------------------
  // Early claims
  // ---------------------------------------------------------------------

  /** The step is a claim of this document that wins. */
  ghost predicate Claimed(s: State, a: Action, id: DocId) {
    a.OfWorker? && a.consume.DoClaim? && WorkerEnabled(s, a.wid, DoClaim) && ClaimWins(s, a.wid, DoClaim)
    && s.redis.log[s.actors.workers[a.wid].batch[0]] == id
  }

  ghost predicate NeverClaimed(s: State, acts: seq<Action>, id: DocId)
    requires Legal(s, acts)
    decreases |acts|
  {
    acts == [] || (!Claimed(s, acts[0], id) && NeverClaimed(Next(s, acts[0]), acts[1..], id))
  }

  /** Only a claim ends the waiting of a queued document. */
  lemma StaysWaiting(s: State, a: Action, id: DocId)
    requires Coherent(s) && Enabled(s, a) && IsQueued(s.docs, id) && !Claimed(s, a, id)
    ensures id in Next(s, a).docs && Next(s, a).docs[id] == s.docs[id] && s.now <= Next(s, a).now
  {
    match a
    case OfLookup(sid, step) => LookupFrame(s, sid, step); LookupAddsOneThing(s, sid, step);
    case OfEnqueue(sid, step) =>
      assert SubmitOk(sid, s.actors.submits[sid], s.nextId, s.docs, s.audit.minted);
      EnqueueFrame(s, sid, step);
      EnqueueAddsOneThing(s, sid, step);
    case OfWorker(w, step) => if !ClaimWins(s, w, step) { QuietStep(s, w, step); }
    case OfWork(j, step) => WorkFrame(s, j, step);
    case OfSettle(j, step) => SettleFrame(s, j, step);
    case OfSweep(x, step) => SweepFrame(s, x, step); if !ResetHits(s, x, step) { QuietSweep(s, x, step); }
    case OfRecon(r, step) => ReconFrame(s, r, step);
    case OfEnv(step) => EnvFrame(s, step);
  }

  lemma ClockStep(s: State, a: Action)
    requires Enabled(s, a)
    ensures s.now <= Next(s, a).now
  {
    match a
    case OfLookup(sid, step) => LookupFrame(s, sid, step);
    case OfEnqueue(sid, step) => EnqueueFrame(s, sid, step);
    case OfWorker(w, step) => WorkerFrame(s, w, step);
    case OfWork(j, step) => WorkFrame(s, j, step);
    case OfSettle(j, step) => SettleFrame(s, j, step);
    case OfSweep(x, step) => SweepFrame(s, x, step);
    case OfRecon(r, step) => ReconFrame(s, r, step);
    case OfEnv(step) => EnvFrame(s, step);
  }

  lemma {:induction false} ClockRuns(s: State, acts: seq<Action>)
    requires Legal(s, acts)
    ensures s.now <= Exec(s, acts).now
    decreases |acts|
  {
    if acts != [] {
      ClockStep(s, acts[0]);
      ClockRuns(Next(s, acts[0]), acts[1..]);
    }
  }

  /** The entry that is claimed with brings its document. */
  lemma ClaimBrings(s: State, a: Action, id: DocId, due: Time)
    requires Claimed(s, a, id)
    ensures Brings(s, InBatch(a.wid, s.actors.workers[a.wid].batch[0]), id, due)
  {}

  /** If the next claim of a waiting document comes before it is due, something
      could bring the document early already at the start. */
  lemma {:induction false} EarlyClaimHasCarrier(s: State, acts: seq<Action>, a: Action, id: DocId, due: Time)
    requires Coherent(s) && Waiting(s, id, due) && Legal(s, acts) && NeverClaimed(s, acts, id)
    requires Exec(s, acts).now < due && Claimed(Exec(s, acts), a, id)
    ensures exists c :: Brings(s, c, id, due)
    decreases |acts|
  {
    if acts == [] {
      ClaimBrings(s, a, id, due);
    } else {
      var t := Next(s, acts[0]);
      StaysWaiting(s, acts[0], id);
      NextKeepsCoherence(s, acts[0]);
      ClockRuns(t, acts[1..]);
      EarlyClaimHasCarrier(t, acts[1..], a, id, due);
      var c :| Brings(t, c, id, due);
      NextOrigin(s, acts[0], c, id, due);
    }
  }

  /** Without a carrier the document is left alone until it is due, whatever
      happens. */
  lemma {:induction false} LeftAloneUntilDue(s: State, acts: seq<Action>, id: DocId, due: Time)
    requires Coherent(s) && Waiting(s, id, due) && Legal(s, acts) && Exec(s, acts).now < due
    requires !exists c :: Brings(s, c, id, due)
    ensures IsQueued(Exec(s, acts).docs, id) && Exec(s, acts).docs[id] == s.docs[id]
    decreases |acts|
  {
    if acts != [] {
      var t := Next(s, acts[0]);
      if Claimed(s, acts[0], id) { ClaimBrings(s, acts[0], id, due); }
      StaysWaiting(s, acts[0], id);
      NextKeepsCoherence(s, acts[0]);
      forall c | Brings(t, c, id, due) ensures false { NextOrigin(s, acts[0], c, id, due); }
      ClockRuns(t, acts[1..]);
      LeftAloneUntilDue(t, acts[1..], id, due);
    }
  }
}
