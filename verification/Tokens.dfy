/** Delivery tokens: something will still bring every queued document to a
    worker. That is an entry whose claim has not been tried, a member of the
    delay set, or an actor that owes a publish or a ZADD. Only a crash or a
    fault in one of the gaps, or the loss of the queue, can lose it. */
module Tokens {
  import opened Types
  import opened Repository
  import opened Queue
  import opened Protocol
  import opened Frames
  import opened References
  import opened ReferencesKept
  import opened Slots
  import opened Settlement
  import opened Guards

  // ---------------------------------------------------------------------
  // Tokens
  // ---------------------------------------------------------------------

  datatype Token = InLog(e: EntryId) | InDelay | AtSubmit(sid: SubmitId) | AtJob(j: JobId) | AtSweep(w: SweepId)

  /** An entry no worker has tried to claim with. */
  ghost predicate Untried(redis: Redis, e: EntryId, id: DocId) {
    && e < |redis.log| && redis.log[e] == id
    && (redis.delivered <= e || (e in redis.pel && !redis.pel[e].tried))
  }

  ghost predicate Carries(s: State, tok: Token, id: DocId) {
    match tok
    case InLog(e) => Untried(s.redis, e, id)
    case InDelay => id in s.redis.zset
    case AtSubmit(sid) => sid in s.actors.submits && s.actors.submits[sid].pc == PublishNew(id)
    case AtJob(j) => j in s.actors.jobs && s.actors.jobs[j].pc.EnterDelay? && s.actors.jobs[j].doc == id
    case AtSweep(w) => w in s.actors.sweeps && id in Owed(s.actors.sweeps[w].pc)
  }

  ghost predicate Covered(s: State, id: DocId) {
    exists tok :: Carries(s, tok, id)
  }

  /** An entry that is acknowledged soon has been tried. */
  ghost predicate Attempted(redis: Redis, e: EntryId) {
    e in redis.pel ==> redis.pel[e].tried
  }

  ghost predicate JobsAttempted(jobs: map<JobId, Job>, redis: Redis) {
    forall j :: j in jobs ==> Attempted(redis, jobs[j].entry)
  }

  ghost predicate WorkersAttempted(workers: map<WorkerId, Worker>, redis: Redis) {
    forall w :: w in workers && workers[w].pc.AckLost? ==> Attempted(redis, workers[w].pc.entry)
  }

  ghost predicate AcksAttempted(s: State) {
    JobsAttempted(s.actors.jobs, s.redis) && WorkersAttempted(s.actors.workers, s.redis)
  }

  /** Every queued document has a token, unless its delivery was dropped. */
  ghost predicate Deliverable(s: State) {
    forall id :: IsQueued(s.docs, id) && id !in s.audit.orphaned ==> Covered(s, id)
  }

  // ---------------------------------------------------------------------
  // Entries stay tried
  // ---------------------------------------------------------------------

  /** Entries delivered before the step are tried afterwards if they were. */
  ghost predicate StayTried(redis: Redis, redis': Redis) {
    forall e: EntryId :: e < redis.delivered && Attempted(redis, e) ==> Attempted(redis', e)
  }

  lemma WorkerStaysTried(s: State, w: WorkerId, a: WorkerStep)
    requires WorkerEnabled(s, w, a) && PelOk(s.redis)
    ensures StayTried(s.redis, WorkerNext(s, w, a).redis)
  {}

  lemma SettleStaysTried(s: State, j: JobId, a: SettleStep)
    requires SettleEnabled(s, j, a)
    ensures StayTried(s.redis, SettleNext(s, j, a).redis)
  {}

  /** Claiming marks the entry before the job or the ack holds it. */
  lemma WorkerAttempts(s: State, w: WorkerId, a: WorkerStep)
    requires WorkerEnabled(s, w, a) && (s.actors.workers[w].pc.AckLost? ==> Attempted(s.redis, s.actors.workers[w].pc.entry))
    ensures var t := WorkerNext(s, w, a);
            && (t.actors.workers[w].pc.AckLost? ==> Attempted(t.redis, t.actors.workers[w].pc.entry))
            && (t.actors.jobs == s.actors.jobs
                || exists x :: t.actors.jobs == s.actors.jobs[s.nextId := x] && Attempted(t.redis, x.entry))
            && SameElsewhere(s.actors.workers, t.actors.workers, w)
  {}

  /** Who is about to acknowledge an entry was so before, or has tried it. */
  ghost predicate SameAcks(s: State, t: State) {
    && (forall j :: j in t.actors.jobs ==>
          (j in s.actors.jobs && t.actors.jobs[j].entry == s.actors.jobs[j].entry)
          || Attempted(t.redis, t.actors.jobs[j].entry))
    && (forall w :: w in t.actors.workers && t.actors.workers[w].pc.AckLost? ==>
          (w in s.actors.workers && s.actors.workers[w].pc == t.actors.workers[w].pc)
          || Attempted(t.redis, t.actors.workers[w].pc.entry))
  }

  lemma AttemptsStay(s: State, t: State)
    requires JobsOk(s.actors.jobs, s.nextId, s.docs, s.redis.delivered) && WorkersOk(s.actors.workers, s.nextId, s.redis.delivered)
    requires AcksAttempted(s) && StayTried(s.redis, t.redis) && SameAcks(s, t)
    ensures AcksAttempted(t)
  {}

  lemma WorkAcks(s: State, j: JobId, a: WorkStep)
    requires WorkEnabled(s, j, a)
    ensures SameAcks(s, WorkNext(s, j, a)) && WorkNext(s, j, a).redis == s.redis
  {
    match a
    case DoReread =>
    case DoStart =>
    case DoComplete =>
    case DoRetry(_, _) =>
    case DoFail(_, _) =>
    case DoAbort =>
  }

  lemma SettleAcks(s: State, j: JobId, a: SettleStep)
    requires SettleEnabled(s, j, a)
    ensures SameAcks(s, SettleNext(s, j, a))
  {}

  lemma SweepAcks(s: State, w: SweepId, a: SweepStep)
    requires SweepEnabled(s, w, a)
    ensures SameAcks(s, SweepNext(s, w, a)) && SweepNext(s, w, a).redis.pel == s.redis.pel
  {
    match a
    case DoFindExpired(_) =>
    case DoResetRow =>
    case DoPopDelayed(_, _) =>
    case DoFindStale(_) =>
    case DoPublishId(_) =>
    case DoSweepReap =>
  }

  lemma EnvAcks(s: State, a: EnvStep)
    requires EnvEnabled(s, a)
    ensures SameAcks(s, EnvNext(s, a)) && StayTried(s.redis, EnvNext(s, a).redis)
  {}

  lemma SubmitAcks(s: State, t: State, sid: SubmitId)
    requires SubmitFrame(s, t, sid)
    ensures SameAcks(s, t) && StayTried(s.redis, t.redis)
  {}

  /** Every step keeps entries tried, and its acknowledgers honest. */
  lemma NextAcks(s: State, a: Action)
    requires Coherent(s) && AcksAttempted(s) && Enabled(s, a)
    ensures SameAcks(s, Next(s, a)) && StayTried(s.redis, Next(s, a).redis)
  {
    match a
    case OfLookup(sid, step) => LookupFrame(s, sid, step); SubmitAcks(s, LookupNext(s, sid, step), sid);
    case OfEnqueue(sid, step) => EnqueueFrame(s, sid, step); SubmitAcks(s, EnqueueNext(s, sid, step), sid);
    case OfWorker(w, step) => WorkerStaysTried(s, w, step); WorkerAttempts(s, w, step);
    case OfWork(j, step) => WorkAcks(s, j, step);
    case OfSettle(j, step) => SettleStaysTried(s, j, step); SettleAcks(s, j, step);
    case OfSweep(w, step) => SweepAcks(s, w, step);
    case OfRecon(r, step) => ReconFrame(s, r, step);
    case OfEnv(step) => EnvAcks(s, step);
  }

  lemma NextKeepsAttempts(s: State, a: Action)
    requires Coherent(s) && AcksAttempted(s) && Enabled(s, a)
    ensures AcksAttempted(Next(s, a))
  {
    NextAcks(s, a);
    AttemptsStay(s, Next(s, a));
  }

  // ---------------------------------------------------------------------
  // What can drop a delivery
  // ---------------------------------------------------------------------

  /** The gaps, each between taking a document out of circulation and putting
      it back: insert to XADD, retry CAS to ZADD, and ZREM or the reclaim CAS to
      XADD; besides a restart that empties the queue. An insert that is stored
      but fails never gets as far as the XADD. */
  ghost predicate Drops(s: State, a: Action, id: DocId) {
    match a
    case OfEnqueue(sid, DoInsertNew(reply)) =>
      reply.AnswerLost? && sid in s.actors.submits && s.actors.submits[sid].pc == InsertNew(id)
    case OfEnqueue(sid, DoPublishNew(reply)) => !reply.Took() && Carries(s, AtSubmit(sid), id)
    case OfEnqueue(sid, SubmitDies) => Carries(s, AtSubmit(sid), id)
    case OfSettle(j, DoEnterDelay(reply)) => !reply.Took() && Carries(s, AtJob(j), id)
    case OfSettle(j, DoReap) => Carries(s, AtJob(j), id)
    case OfSweep(w, DoPublishId(reply)) =>
      SweepEnabled(s, w, a.sweep) && s.actors.sweeps[w].pc.ids != [] && !reply.Answered?
      && id in Unpublished(s.actors.sweeps[w].pc, reply)
    case OfSweep(w, DoSweepReap) => Carries(s, AtSweep(w), id)
    case OfSweep(_, DoPopDelayed(due, reply)) => reply.AnswerLost? && id in due
    case OfEnv(LoseQueue) => id in s.docs
    case _ => false
  }

  // ---------------------------------------------------------------------
  // Tokens are handed on
  // ---------------------------------------------------------------------

  /** After the step, unless that drops it, the document needs no token or has
      this one. */
  ghost predicate Served(s: State, a: Action, t: State, tok: Token, id: DocId) {
    IsQueued(t.docs, id) ==> Carries(t, tok, id) || Drops(s, a, id)
  }

  /** Where the token of a published id goes. */
  ghost function AfterPublish(redis: Redis): Token {
    InLog(|redis.log|)
  }

  lemma LookupMovesToken(s: State, sid: SubmitId, a: LookupStep, tok: Token, id: DocId)
    requires LookupEnabled(s, sid, a) && Carries(s, tok, id)
    ensures Carries(LookupNext(s, sid, a), tok, id)
  {
    match a
    case DoReadCache(_) =>
    case DoFindDone(_) =>
    case DoFillCache(_) =>
    case DoInsertHit =>
    case DoSetGuard(_) =>
    case DoReadGuard(_) =>
    case DoJoin =>
  }

  lemma LogGrows(redis: Redis, redis': Redis, e: EntryId, id: DocId)
    requires Untried(redis, e, id) && redis.log <= redis'.log
    requires redis'.delivered == redis.delivered && redis'.pel == redis.pel
    ensures Untried(redis', e, id)
  {}

  /** A submission that owes the publish makes it, gives up or dies. */
  lemma OwedPublish(s: State, sid: SubmitId, a: EnqueueStep, id: DocId)
    requires EnqueueEnabled(s, sid, a) && Carries(s, AtSubmit(sid), id) && s.redis.delivered <= |s.redis.log|
    ensures var t := EnqueueNext(s, sid, a);
            Served(s, OfEnqueue(sid, a), t, if a.DoPublishNew? && a.reply.Took() then AfterPublish(s.redis) else AtSubmit(sid), id)
  {
    match a
    case DoPublishNew(_) =>
    case SubmitDies =>
    case _ =>
  }

  lemma EnqueueMovesToken(s: State, sid: SubmitId, a: EnqueueStep, tok: Token, id: DocId)
    requires EnqueueEnabled(s, sid, a) && Carries(s, tok, id) && s.redis.delivered <= |s.redis.log|
    ensures var t := EnqueueNext(s, sid, a);
            Served(s, OfEnqueue(sid, a), t,
                   if a.DoPublishNew? && a.reply.Took() && tok == AtSubmit(sid) then AfterPublish(s.redis) else tok, id)
  {
    var t := EnqueueNext(s, sid, a);
    if tok == AtSubmit(sid) {
      OwedPublish(s, sid, a, id);
    } else {
      EnqueueFrame(s, sid, a);
      MovedSubmit(s, t.actors, sid);
      EnqueueAddsOneThing(s, sid, a);
      if tok.InLog? { LogGrows(s.redis, t.redis, tok.e, id); }
    }
  }

  lemma ReadMovesEntry(s: State, w: WorkerId, reply: Reply, e: EntryId, id: DocId)
    requires WorkerEnabled(s, w, DoReadStream(reply)) && Untried(s.redis, e, id) && PelOk(s.redis)
    ensures Untried(ReadStreamStep(s, w, reply).redis, e, id)
  {
    var first, last := s.redis.delivered, ReadTo(s.redis, s.cfg.concurrency);
    if first <= e < last {
      assert Span(first, last)[e - first] == e;
    }
  }

  /** Reading and recovering deliver an entry without trying it; trying it
      either claims the document or finds it no longer queued. */
  lemma WorkerMovesEntry(s: State, w: WorkerId, a: WorkerStep, e: EntryId, id: DocId)
    requires WorkerEnabled(s, w, a) && Untried(s.redis, e, id) && PelOk(s.redis)
    requires s.actors.workers[w].pc.AckLost? ==> Attempted(s.redis, s.actors.workers[w].pc.entry)
    requires WorkerOk(s.actors.workers[w], s.redis.delivered)
    ensures var t := WorkerNext(s, w, a); IsQueued(t.docs, id) ==> Untried(t.redis, e, id)
  {
    match a
    case DoPoll =>
    case DoRecover(_, _) =>
    case DoReadStream(reply) => ReadMovesEntry(s, w, reply, e, id);
    case DoClaim =>
    case DoAckLost =>
  }

  lemma WorkerMovesToken(s: State, w: WorkerId, a: WorkerStep, tok: Token, id: DocId)
    requires WorkerEnabled(s, w, a) && Carries(s, tok, id) && PelOk(s.redis) && s.nextId !in s.actors.jobs
    requires s.actors.workers[w].pc.AckLost? ==> Attempted(s.redis, s.actors.workers[w].pc.entry)
    requires WorkerOk(s.actors.workers[w], s.redis.delivered)
    ensures Served(s, OfWorker(w, a), WorkerNext(s, w, a), tok, id)
  {
    if tok.InLog? {
      WorkerMovesEntry(s, w, a, tok.e, id);
    } else if !ClaimWins(s, w, a) {
      QuietStep(s, w, a);
    }
  }

  lemma WorkMovesToken(s: State, j: JobId, a: WorkStep, tok: Token, id: DocId)
    requires WorkEnabled(s, j, a) && Carries(s, tok, id)
    ensures Carries(WorkNext(s, j, a), tok, id)
  {
    match a
    case DoReread =>
    case DoStart =>
    case DoComplete =>
    case DoRetry(_, _) =>
    case DoFail(_, _) =>
    case DoAbort =>
  }

  lemma SettleMovesToken(s: State, j: JobId, a: SettleStep, tok: Token, id: DocId)
    requires SettleEnabled(s, j, a) && Carries(s, tok, id)
    requires Attempted(s.redis, s.actors.jobs[j].entry) && s.actors.jobs[j].entry < s.redis.delivered
    ensures var t := SettleNext(s, j, a);
            Served(s, OfSettle(j, a), t, if a.DoEnterDelay? && a.reply.Took() && tok == AtJob(j) then InDelay else tok, id)
  {
    match a
    case DoStoreSummary(_) =>
    case DoFreeSlot(_) =>
    case DoFreeGuard(_) =>
    case DoEnterDelay(_) =>
    case DoAckEntry =>
    case DoReap =>
  }

  /** A sweep passes on what it popped and what it publishes. */
  ghost function SweptToken(s: State, w: SweepId, a: SweepStep, tok: Token, id: DocId): Token
    requires SweepEnabled(s, w, a)
  {
    var pc := s.actors.sweeps[w].pc;
    if a.DoPublishId? && pc.ids != [] && a.reply.Took() && tok == AtSweep(w) && pc.ids[0] == id then AfterPublish(s.redis)
    else if a.DoPopDelayed? && a.reply.Answered? && tok == InDelay && id in a.due then AtSweep(w)
    else tok
  }

  lemma SweepQueueEffect(s: State, w: SweepId, a: SweepStep)
    requires SweepEnabled(s, w, a)
    ensures var t := SweepNext(s, w, a);
            && MovesSweep(s, t.actors, w)
            && s.redis.log <= t.redis.log && t.redis.delivered == s.redis.delivered && t.redis.pel == s.redis.pel
            && (if a.DoPopDelayed? && a.reply.Took() then t.redis.zset == s.redis.zset - RowSet(a.due)
                else t.redis.zset == s.redis.zset)
  {
    match a
    case DoFindExpired(_) =>
    case DoResetRow =>
    case DoPopDelayed(_, _) =>
    case DoFindStale(_) =>
    case DoPublishId(_) =>
    case DoSweepReap =>
  }

  /** What a sweep owes it keeps, publishes, or drops when it fails or dies. */
  lemma OwedSweep(s: State, w: SweepId, a: SweepStep, id: DocId)
    requires SweepEnabled(s, w, a) && Carries(s, AtSweep(w), id) && s.redis.delivered <= |s.redis.log|
    ensures Served(s, OfSweep(w, a), SweepNext(s, w, a), SweptToken(s, w, a, AtSweep(w), id), id)
  {
    match a
    case DoFindExpired(_) =>
    case DoResetRow =>
    case DoPopDelayed(_, _) =>
    case DoFindStale(_) =>
    case DoPublishId(_) =>
    case DoSweepReap =>
  }

  lemma SweepMovesToken(s: State, w: SweepId, a: SweepStep, tok: Token, id: DocId)
    requires SweepEnabled(s, w, a) && Carries(s, tok, id) && s.redis.delivered <= |s.redis.log|
    ensures Served(s, OfSweep(w, a), SweepNext(s, w, a), SweptToken(s, w, a, tok, id), id)
  {
    if tok == AtSweep(w) {
      OwedSweep(s, w, a, id);
    } else {
      SweepQueueEffect(s, w, a);
      if tok.InLog? { LogGrows(s.redis, SweepNext(s, w, a).redis, tok.e, id); }
    }
  }

  lemma EnvMovesToken(s: State, a: EnvStep, tok: Token, id: DocId)
    requires EnvEnabled(s, a) && Carries(s, tok, id) && s.nextId !in s.actors.submits && s.nextId !in s.actors.sweeps
    ensures Served(s, OfEnv(a), EnvNext(s, a), tok, id)
  {
    match a
    case Tick(_) =>
    case NewSubmit(_, _, _) =>
    case BootWorker =>
    case StartSweep(_) =>
    case StartRecon(_) =>
    case KillWorker(_) =>
    case ExpireGuard(_) =>
    case ExpireCounter(_) =>
    case EvictSummary(_) =>
    case LoseQueue =>
  }

  // ---------------------------------------------------------------------
  // New tokens
  // ---------------------------------------------------------------------

  /** A document that just became queued is owed by whoever queued it. */
  ghost function NewToken(s: State, a: Action): Token {
    match a
    case OfEnqueue(sid, _) => AtSubmit(sid)
    case OfWork(j, _) => AtJob(j)
    case OfSweep(w, _) => AtSweep(w)
    case _ => InDelay
  }

  lemma EnqueueNewToken(s: State, sid: SubmitId, a: EnqueueStep, id: DocId)
    requires EnqueueEnabled(s, sid, a)
    ensures IsQueued(EnqueueNext(s, sid, a).docs, id) ==>
              IsQueued(s.docs, id) || Carries(EnqueueNext(s, sid, a), AtSubmit(sid), id) || Drops(s, OfEnqueue(sid, a), id)
  {
    match a
    case DoTakeSlot(_) =>
    case DoCountActive =>
    case DoInsertNew(_) =>
    case DoPublishNew(_) =>
    case DoGiveSlotBack(_) =>
    case DoGiveGuardBack(_) =>
    case SubmitDies =>
  }

  lemma WorkNewToken(s: State, j: JobId, a: WorkStep, id: DocId)
    requires WorkEnabled(s, j, a)
    ensures IsQueued(WorkNext(s, j, a).docs, id) ==> IsQueued(s.docs, id) || Carries(WorkNext(s, j, a), AtJob(j), id)
  {
    match a
    case DoReread =>
    case DoStart =>
    case DoComplete =>
    case DoRetry(_, _) =>
    case DoFail(_, _) =>
    case DoAbort =>
  }

  lemma SweepNewToken(s: State, w: SweepId, a: SweepStep, id: DocId)
    requires SweepEnabled(s, w, a)
    ensures IsQueued(SweepNext(s, w, a).docs, id) ==> IsQueued(s.docs, id) || Carries(SweepNext(s, w, a), AtSweep(w), id)
  {
    match a
    case DoFindExpired(_) =>
    case DoResetRow =>
    case DoPopDelayed(_, _) =>
    case DoFindStale(_) =>
    case DoPublishId(_) =>
    case DoSweepReap =>
  }

  lemma NewlyQueued(s: State, a: Action, id: DocId)
    requires Coherent(s) && Enabled(s, a)
    ensures IsQueued(Next(s, a).docs, id) ==> IsQueued(s.docs, id) || Carries(Next(s, a), NewToken(s, a), id) || Drops(s, a, id)
  {
    match a
    case OfLookup(sid, step) => LookupAddsOneThing(s, sid, step);
    case OfEnqueue(sid, step) => EnqueueNewToken(s, sid, step, id);
    case OfWorker(w, step) =>
      if !ClaimWins(s, w, step) { QuietStep(s, w, step); }
    case OfWork(j, step) => WorkNewToken(s, j, step, id);
    case OfSettle(j, step) => SettleFrame(s, j, step);
    case OfSweep(w, step) => SweepNewToken(s, w, step, id);
    case OfRecon(r, step) => ReconFrame(s, r, step);
    case OfEnv(step) => EnvFrame(s, step);
  }

  // ---------------------------------------------------------------------
  // Drops are what the audit calls orphaned
  // ---------------------------------------------------------------------

  lemma EnqueueOrphans(s: State, sid: SubmitId, a: EnqueueStep, id: DocId)
    requires EnqueueEnabled(s, sid, a)
    ensures id in EnqueueNext(s, sid, a).audit.orphaned <==> id in s.audit.orphaned || Drops(s, OfEnqueue(sid, a), id)
  {
    match a
    case DoTakeSlot(_) =>
    case DoCountActive =>
    case DoInsertNew(_) =>
    case DoPublishNew(_) =>
    case DoGiveSlotBack(_) =>
    case DoGiveGuardBack(_) =>
    case SubmitDies =>
  }

  lemma SettleOrphans(s: State, j: JobId, a: SettleStep, id: DocId)
    requires SettleEnabled(s, j, a)
    ensures id in SettleNext(s, j, a).audit.orphaned <==> id in s.audit.orphaned || Drops(s, OfSettle(j, a), id)
  {
    match a
    case DoStoreSummary(_) =>
    case DoFreeSlot(_) =>
    case DoFreeGuard(_) =>
    case DoEnterDelay(_) =>
    case DoAckEntry =>
    case DoReap =>
  }

  lemma SweepOrphans(s: State, w: SweepId, a: SweepStep, id: DocId)
    requires SweepEnabled(s, w, a)
    ensures id in SweepNext(s, w, a).audit.orphaned <==> id in s.audit.orphaned || Drops(s, OfSweep(w, a), id)
  {
    match a
    case DoFindExpired(_) =>
    case DoResetRow =>
    case DoPopDelayed(_, _) =>
    case DoFindStale(_) =>
    case DoPublishId(_) =>
    case DoSweepReap =>
  }

  lemma EnvOrphans(s: State, a: EnvStep, id: DocId)
    requires EnvEnabled(s, a)
    ensures id in EnvNext(s, a).audit.orphaned <==> id in s.audit.orphaned || Drops(s, OfEnv(a), id)
  {
    match a
    case Tick(_) =>
    case NewSubmit(_, _, _) =>
    case BootWorker =>
    case StartSweep(_) =>
    case StartRecon(_) =>
    case KillWorker(_) =>
    case ExpireGuard(_) =>
    case ExpireCounter(_) =>
    case EvictSummary(_) =>
    case LoseQueue =>
  }

  lemma OnlyGapsDrop(s: State, a: Action, id: DocId)
    requires Enabled(s, a)
    ensures id in Next(s, a).audit.orphaned <==> id in s.audit.orphaned || Drops(s, a, id)
  {
    match a
    case OfLookup(sid, step) => LookupAddsOneThing(s, sid, step);
    case OfEnqueue(sid, step) => EnqueueOrphans(s, sid, step, id);
    case OfWorker(w, step) => WorkerFrame(s, w, step);
    case OfWork(j, step) => WorkFrame(s, j, step);
    case OfSettle(j, step) => SettleOrphans(s, j, step, id);
    case OfSweep(w, step) => SweepOrphans(s, w, step, id);
    case OfRecon(r, step) => ReconFrame(s, r, step);
    case OfEnv(step) => EnvOrphans(s, step, id);
  }

  // ---------------------------------------------------------------------
  // Runs
  // ---------------------------------------------------------------------

  /** A token is handed on by every step. */
  lemma NextMovesToken(s: State, a: Action, tok: Token, id: DocId) returns (tok': Token)
    requires Coherent(s) && AcksAttempted(s) && Enabled(s, a) && Carries(s, tok, id)
    ensures Served(s, a, Next(s, a), tok', id)
  {
    tok' := tok;
    match a
    case OfLookup(sid, step) => LookupMovesToken(s, sid, step, tok, id);
    case OfEnqueue(sid, step) =>
      EnqueueMovesToken(s, sid, step, tok, id);
      if step.DoPublishNew? && step.reply.Took() && tok == AtSubmit(sid) { tok' := AfterPublish(s.redis); }
    case OfWorker(w, step) => WorkerMovesToken(s, w, step, tok, id);
    case OfWork(j, step) => WorkMovesToken(s, j, step, tok, id);
    case OfSettle(j, step) =>
      assert JobOk(j, s.actors.jobs[j], s.nextId, s.docs, s.redis.delivered);
      SettleMovesToken(s, j, step, tok, id);
      if step.DoEnterDelay? && step.reply.Took() && tok == AtJob(j) { tok' := InDelay; }
    case OfSweep(w, step) => SweepMovesToken(s, w, step, tok, id); tok' := SweptToken(s, w, step, tok, id);
    case OfRecon(r, step) => ReconFrame(s, r, step);
    case OfEnv(step) => EnvMovesToken(s, step, tok, id);
  }

  /** The document has a token if it is queued. */
  ghost predicate Kept(s: State, id: DocId) {
    IsQueued(s.docs, id) ==> Covered(s, id)
  }

  lemma NextKeepsCover(s: State, a: Action, id: DocId)
    requires Coherent(s) && AcksAttempted(s) && Enabled(s, a) && Kept(s, id) && !Drops(s, a, id)
    ensures Kept(Next(s, a), id)
  {
    NewlyQueued(s, a, id);
    if IsQueued(s.docs, id) {
      var tok :| Carries(s, tok, id);
      var tok' := NextMovesToken(s, a, tok, id);
    }
  }

  lemma NextKeepsDeliverable(s: State, a: Action)
    requires Coherent(s) && AcksAttempted(s) && Deliverable(s) && Enabled(s, a)
    ensures Deliverable(Next(s, a))
  {
    forall id | IsQueued(Next(s, a).docs, id) && id !in Next(s, a).audit.orphaned ensures Covered(Next(s, a), id) {
      OnlyGapsDrop(s, a, id);
      NextKeepsCover(s, a, id);
    }
  }

  ghost predicate NeverDropped(s: State, acts: seq<Action>, id: DocId)
    requires Legal(s, acts)
    decreases |acts|
  {
    acts == [] || (!Drops(s, acts[0], id) && NeverDropped(Next(s, acts[0]), acts[1..], id))
  }

  /** From any state in which the document has a token or needs none, whatever
      was dropped before, and in any run that does not drop it, it has a token
      whenever it is queued, whatever else crashes or fails. */
  lemma {:induction false} NoDeliveryIsLost(s: State, acts: seq<Action>, id: DocId)
    requires Coherent(s) && AcksAttempted(s) && Kept(s, id)
    requires Legal(s, acts) && NeverDropped(s, acts, id)
    ensures Kept(Exec(s, acts), id)
    decreases |acts|
  {
    if acts != [] {
      NextKeepsCoherence(s, acts[0]);
      NextKeepsAttempts(s, acts[0]);
      NextKeepsCover(s, acts[0], id);
      NoDeliveryIsLost(Next(s, acts[0]), acts[1..], id);
    }
  }

  /** Publishing gives a document a token, also one whose delivery was dropped
      before: so the stale sweep puts it back under the guarantee. */
  lemma PublishedIsKept(s: State, w: SweepId, reply: Reply)
    requires Coherent(s) && SweepEnabled(s, w, DoPublishId(reply)) && s.actors.sweeps[w].pc.ids != [] && reply.Took()
    ensures Carries(PublishIdStep(s, w, reply), InLog(|s.redis.log|), s.actors.sweeps[w].pc.ids[0])
  {}
}
