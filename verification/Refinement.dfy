/** The steps of one actor, run without interruption, do what its method is
    proved to do. This ties the state machine to the imperative services. */
module Refinement {
  import opened Text
  import opened Types
  import opened Decorators
  import opened Summarizer
  import opened Repository
  import opened RateLimiter
  import opened Cache
  import opened Queue
  import opened Protocol
  import opened Recovery
  import opened Traps
  import Ingestion
  import Pipeline

  // ---------------------------------------------------------------------
  // ProcessingPipeline.Run
  // ---------------------------------------------------------------------

  ghost function TouchedBy(s: State): Pipeline.Stores<UserId> {
    Pipeline.Stores(s.docs, s.redis.cache, s.redis.counters, s.redis.guards, s.redis.zset)
  }

  /** How the Redis commands of a job go, should they be made. */
  datatype Replies = Replies(cache: Reply, counter: Reply, guard: Reply, delay: Reply) {
    function Health(): Pipeline.Health {
      Pipeline.Health(cache.Took(), counter.Took(), guard.Took(), delay.Took())
    }
  }

  predicate StepsOfJob(acts: seq<Action>, j: JobId) {
    forall a :: a in acts ==> (a.OfWork? || a.OfSettle?) && a.jid == j
  }

  /** The job `j` alone gets from one state to the other. */
  ghost predicate JobMakes(s: State, t: State, j: JobId) {
    exists acts :: Legal(s, acts) && StepsOfJob(acts, j) && Exec(s, acts) == t
  }

  lemma JobStays(s: State, j: JobId)
    ensures JobMakes(s, s, j)
  {
    var acts: seq<Action> := [];
    assert Legal(s, acts) && StepsOfJob(acts, j) && Exec(s, acts) == s;
  }

  lemma JobStep(s: State, t: State, j: JobId, a: Action)
    requires JobMakes(s, t, j) && Enabled(t, a) && StepsOfJob([a], j)
    ensures JobMakes(s, Next(t, a), j)
  {
    var acts :| Legal(s, acts) && StepsOfJob(acts, j) && Exec(s, acts) == t;
    var last := [a];
    assert last[1..] == [];
    assert Legal(Next(t, a), last[1..]) && Exec(Next(t, a), last[1..]) == Next(t, a);
    RunsCompose(s, acts, last);
    assert StepsOfJob(acts + last, j);
  }

  lemma JobWorks(s: State, t: State, j: JobId, a: WorkStep)
    requires JobMakes(s, t, j) && WorkEnabled(t, j, a)
    ensures JobMakes(s, WorkNext(t, j, a), j)
  {
    JobStep(s, t, j, OfWork(j, a));
  }

  lemma JobFollows(s: State, t: State, j: JobId, a: SettleStep)
    requires JobMakes(s, t, j) && SettleEnabled(t, j, a)
    ensures JobMakes(s, SettleNext(t, j, a), j)
  {
    JobStep(s, t, j, OfSettle(j, a));
  }

  ghost predicate CanRun(s: State, j: JobId) {
    j in s.actors.jobs && s.actors.jobs[j].pc.Run? && s.actors.jobs[j].doc in s.docs
    && s.actors.jobs[j].worker in s.actors.workers
  }

  /** The stores are as `ProcessingPipeline.Run` leaves them, and what remains
      is the acknowledgement. */
  ghost predicate RanPipeline(s: State, t: State, j: JobId, outcome: Pipeline.Outcome, wait: real, replies: Replies)
    requires j in s.actors.jobs
  {
    var x := s.actors.jobs[j];
    && TouchedBy(t) == Pipeline.AfterSettling(TouchedBy(s), x.worker, x.snap.user, x.doc, x.snap, outcome, s.cfg, wait, s.now,
                                              replies.Health())
    && t.redis.log == s.redis.log && t.redis.pel == s.redis.pel && t.redis.delivered == s.redis.delivered
    && j in t.actors.jobs && t.actors.jobs[j].pc.AckEntry?
  }

  lemma FreesSlotAndGuard(s: State, t: State, j: JobId, replies: Replies) returns (u: State)
    requires JobMakes(s, t, j) && j in t.actors.jobs && t.actors.jobs[j].worker in t.actors.workers && t.actors.jobs[j].pc.FreeSlot?
    ensures JobMakes(s, u, j) && u.docs == t.docs && j in u.actors.jobs && u.actors.jobs[j].pc.AckEntry?
    ensures u.redis == t.redis.(
              counters := if replies.counter.Took() then Released(t.redis.counters, t.actors.jobs[j].snap.user) else t.redis.counters,
              guards := if replies.guard.Took() then t.redis.guards - {KeyOf(t.actors.jobs[j].snap)} else t.redis.guards)
  {
    JobFollows(s, t, j, DoFreeSlot(replies.counter));
    u := FreeSlotStep(t, j, replies.counter);
    JobFollows(s, u, j, DoFreeGuard(replies.guard));
    u := FreeGuardStep(u, j, replies.guard);
  }

  lemma DoneAlone(s: State, j: JobId, replies: Replies) returns (t: State)
    requires CanRun(s, j)
    ensures JobMakes(s, t, j) && RanPipeline(s, t, j, Pipeline.Done, 0.0, replies)
  {
    JobStays(s, j);
    JobWorks(s, s, j, DoComplete);
    if JobOwns(s, j) {
      t := CompleteStep(s, j);
      JobFollows(s, t, j, DoStoreSummary(replies.cache));
      t := StoreSummaryStep(t, j, replies.cache);
      t := FreesSlotAndGuard(s, t, j, replies);
    } else {
      t := DropResultStep(s, j);
    }
  }

  lemma RetryDelays(s: State, t: State, j: JobId, reply: Reply)
    requires JobMakes(s, t, j) && j in t.actors.jobs && t.actors.jobs[j].pc.EnterDelay? && t.actors.jobs[j].worker in t.actors.workers
    ensures JobMakes(s, EnterDelayStep(t, j, reply), j)
  {
    JobFollows(s, t, j, DoEnterDelay(reply));
  }

  lemma RetryEffect(s: State, j: JobId, code: string, wait: real, replies: Replies)
    requires CanRun(s, j) && JobOwns(s, j) && Pipeline.Retriable(s.actors.jobs[j].snap, Pipeline.Raised(code, true), s.cfg)
    ensures RanPipeline(s, EnterDelayStep(RetryStep(s, j, code, wait), j, replies.delay), j, Pipeline.Raised(code, true), wait, replies)
  {}

  lemma RetryAlone(s: State, j: JobId, code: string, wait: real, replies: Replies) returns (t: State)
    requires CanRun(s, j) && Pipeline.Retriable(s.actors.jobs[j].snap, Pipeline.Raised(code, true), s.cfg)
    requires MayRetry(s.cfg, s.actors.jobs[j].snap.attempts, wait)
    ensures JobMakes(s, t, j) && RanPipeline(s, t, j, Pipeline.Raised(code, true), wait, replies)
  {
    JobStays(s, j);
    JobWorks(s, s, j, DoRetry(code, wait));
    if JobOwns(s, j) {
      t := RetryStep(s, j, code, wait);
      RetryDelays(s, t, j, replies.delay);
      t := EnterDelayStep(t, j, replies.delay);
      RetryEffect(s, j, code, wait, replies);
    } else {
      t := DropResultStep(s, j);
    }
  }

  lemma FailAlone(s: State, j: JobId, code: string, transient: bool, replies: Replies) returns (t: State)
    requires CanRun(s, j) && !Pipeline.Retriable(s.actors.jobs[j].snap, Pipeline.Raised(code, transient), s.cfg)
    ensures JobMakes(s, t, j) && RanPipeline(s, t, j, Pipeline.Raised(code, transient), 0.0, replies)
  {
    JobStays(s, j);
    JobWorks(s, s, j, DoFail(code, transient));
    if JobOwns(s, j) {
      t := FailStep(s, j, code);
      t := FreesSlotAndGuard(s, t, j, replies);
    } else {
      t := DropResultStep(s, j);
    }
  }

  /** Whatever the summarizer does and whichever Redis commands fail, the job's
      own steps have the effect `ProcessingPipeline.Run` is proved to have, and
      it can draw any delay the backoff allows. */
  lemma PipelineAlone(s: State, j: JobId, outcome: Pipeline.Outcome, wait: real, replies: Replies) returns (t: State)
    requires CanRun(s, j) && s.cfg.Valid() && s.actors.jobs[j].snap.attempts >= 1
    requires if Pipeline.Retriable(s.actors.jobs[j].snap, outcome, s.cfg)
             then 0.0 <= wait <= BackoffCeiling(s.actors.jobs[j].snap.attempts, s.cfg.retryBase, s.cfg.retryMax)
             else wait == 0.0
    ensures JobMakes(s, t, j) && RanPipeline(s, t, j, outcome, wait, replies)
  {
    match outcome
    case Done => t := DoneAlone(s, j, replies);
    case Raised(code, transient) =>
      if Pipeline.Retriable(s.actors.jobs[j].snap, outcome, s.cfg) {
        t := RetryAlone(s, j, code, wait, replies);
      } else {
        t := FailAlone(s, j, code, transient, replies);
      }
  }

  // ---------------------------------------------------------------------
  // IngestionService.Submit
  // ---------------------------------------------------------------------

  ghost function StoresOf(s: State): Ingestion.Stores<UserId, DocId> {
    Ingestion.Stores(s.docs, s.redis.cache, s.redis.counters, s.redis.guards, s.redis.log)
  }

  predicate StepsOfSubmit(acts: seq<Action>, sid: SubmitId) {
    forall a :: a in acts ==> (a.OfLookup? || a.OfEnqueue?) && a.sid == sid
  }

  /** The submission `sid` alone gets from one state to the other. */
  ghost predicate SubmitMakes(s: State, t: State, sid: SubmitId) {
    exists acts :: Legal(s, acts) && StepsOfSubmit(acts, sid) && Exec(s, acts) == t
  }

  lemma SubmitStep(s: State, t: State, sid: SubmitId, a: Action)
    requires SubmitMakes(s, t, sid) && Enabled(t, a) && StepsOfSubmit([a], sid)
    ensures SubmitMakes(s, Next(t, a), sid)
  {
    var acts :| Legal(s, acts) && StepsOfSubmit(acts, sid) && Exec(s, acts) == t;
    var last := [a];
    assert last[1..] == [];
    assert Legal(Next(t, a), last[1..]) && Exec(Next(t, a), last[1..]) == Next(t, a);
    RunsCompose(s, acts, last);
    assert StepsOfSubmit(acts + last, sid);
  }

  lemma Asks(s: State, t: State, sid: SubmitId, a: LookupStep)
    requires SubmitMakes(s, t, sid) && LookupEnabled(t, sid, a)
    ensures SubmitMakes(s, LookupNext(t, sid, a), sid)
  {
    SubmitStep(s, t, sid, OfLookup(sid, a));
  }

  lemma Goes(s: State, t: State, sid: SubmitId, a: EnqueueStep)
    requires SubmitMakes(s, t, sid) && EnqueueEnabled(t, sid, a)
    ensures SubmitMakes(s, EnqueueNext(t, sid, a), sid)
  {
    SubmitStep(s, t, sid, OfEnqueue(sid, a));
  }

  /** It is told of another submission and joins that one. */
  ghost predicate Joins(s: State, key: Key, net: Ingestion.Net) {
    net.guard.Answered? && net.peek && key in s.redis.guards
  }

  /** A command of which it matters only whether it takes effect. */
  function ReplyOf(up: bool): Reply { if up then Answered else NotDone }

  /** What the submission has still to submit, and where it stands. */
  ghost predicate Submits(s: State, sid: SubmitId, user: UserId, title: string, content: string, pc: SubmitPc) {
    sid in s.actors.submits && s.actors.submits[sid] == Submit(user, title, content, HashContent(content), pc)
  }

  /** The submission is over, and the stores are as its method leaves them. */
  ghost predicate RanSubmit(s: State, t: State, sid: SubmitId, user: UserId, title: string, content: string, id: DocId, net: Ingestion.Net) {
    && sid !in t.actors.submits
    && Ingestion.AfterSubmit(StoresOf(s), StoresOf(t), user, id, id, user, title, content, s.now, s.cfg.maxActive, net)
  }

  lemma LooksUp(s: State, sid: SubmitId, user: UserId, title: string, content: string, read: bool) returns (t: State)
    requires Submits(s, sid, user, title, content, ReadCache)
    ensures var key := (user, HashContent(content));
            && SubmitMakes(s, t, sid) && StoresOf(t) == StoresOf(s) && t.now == s.now && t.cfg == s.cfg
            && Submits(t, sid, user, title, content, if read && key in s.redis.cache then InsertHit(s.redis.cache[key]) else FindDone)
  {
    var none: seq<Action> := [];
    assert Legal(s, none) && StepsOfSubmit(none, sid) && Exec(s, none) == s;
    Asks(s, s, sid, DoReadCache(read));
    t := ReadCacheStep(s, sid, read);
  }

  lemma {:induction false} SomeOldest(docs: Docs, ids: set<DocId>) returns (g: DocId)
    requires ids != {} && ids <= docs.Keys
    ensures IsOldest(docs, ids, g)
    decreases |ids|
  {
    g :| g in ids;
    if ids != {g} {
      var rest := SomeOldest(docs, ids - {g});
      if docs[rest].createdAt <= docs[g].createdAt { g := rest; }
    }
  }

  lemma CachedAlone(s: State, sid: SubmitId, user: UserId, title: string, content: string, net: Ingestion.Net)
    returns (t: State, id: DocId)
    requires Submits(s, sid, user, title, content, ReadCache) && net.read && (user, HashContent(content)) in s.redis.cache
    ensures SubmitMakes(s, t, sid) && RanSubmit(s, t, sid, user, title, content, id, net)
  {
    var key := (user, HashContent(content));
    t := LooksUp(s, sid, user, title, content, true);
    Asks(s, t, sid, DoInsertHit);
    id := t.nextId;
    t := InsertHitStep(t, sid);
    assert Ingestion.Answers(StoresOf(s), key, net.read, s.redis.cache[key]);
  }

  /** The record is found and refills the cache, or fails to. */
  lemma FindsAndFills(s: State, sid: SubmitId, user: UserId, title: string, content: string, net: Ingestion.Net)
    returns (t: State, found: Summary)
    requires Submits(s, sid, user, title, content, ReadCache) && !(net.read && (user, HashContent(content)) in s.redis.cache)
    requires GenuineIds(s.docs, user, HashContent(content)) != {}
    ensures SubmitMakes(s, t, sid) && Submits(t, sid, user, title, content, InsertHit(found)) && t.now == s.now && t.cfg == s.cfg
    ensures var key := (user, HashContent(content));
            && Ingestion.Answers(StoresOf(s), key, net.read, found)
            && StoresOf(t) == StoresOf(s).(entries := if net.fill then s.redis.cache[key := found] else s.redis.cache)
  {
    var key := (user, HashContent(content));
    var g := SomeOldest(s.docs, GenuineIds(s.docs, key.0, key.1));
    t := LooksUp(s, sid, user, title, content, net.read);
    assert FindsDone(t.docs, key.0, key.1, Some(g));
    Asks(s, t, sid, DoFindDone(Some(g)));
    t := FoundDoneStep(t, sid, g);
    found := t.actors.submits[sid].pc.found;
    Asks(s, t, sid, DoFillCache(ReplyOf(net.fill)));
    t := FillCacheStep(t, sid, ReplyOf(net.fill));
  }

  lemma FoundAlone(s: State, sid: SubmitId, user: UserId, title: string, content: string, net: Ingestion.Net)
    returns (t: State, id: DocId)
    requires Submits(s, sid, user, title, content, ReadCache) && !(net.read && (user, HashContent(content)) in s.redis.cache)
    requires GenuineIds(s.docs, user, HashContent(content)) != {}
    ensures SubmitMakes(s, t, sid) && RanSubmit(s, t, sid, user, title, content, id, net)
  {
    var found;
    t, found := FindsAndFills(s, sid, user, title, content, net);
    Asks(s, t, sid, DoInsertHit);
    id := t.nextId;
    t := InsertHitStep(t, sid);
  }

  /** Nothing known about the content: an id is minted. */
  lemma Mints(s: State, sid: SubmitId, user: UserId, title: string, content: string, net: Ingestion.Net)
    returns (t: State, id: DocId)
    requires Submits(s, sid, user, title, content, ReadCache) && !Ingestion.Known(StoresOf(s), (user, HashContent(content)), net.read)
    ensures SubmitMakes(s, t, sid) && Submits(t, sid, user, title, content, SetGuard(id)) && StoresOf(t) == StoresOf(s)
    ensures t.now == s.now && t.cfg == s.cfg
  {
    t := LooksUp(s, sid, user, title, content, net.read);
    Asks(s, t, sid, DoFindDone(None));
    id := t.nextId;
    t := MintStep(t, sid);
  }

  lemma {:induction false} JoinsAlone(s: State, t: State, sid: SubmitId) returns (u: State)
    requires SubmitMakes(s, t, sid) && sid in t.actors.submits && t.actors.submits[sid].pc.Join?
    ensures SubmitMakes(s, u, sid) && StoresOf(u) == StoresOf(t) && sid !in u.actors.submits
    decreases Ingestion.SETTLE_ATTEMPTS - t.actors.submits[sid].pc.tries
  {
    var pc := t.actors.submits[sid].pc;
    Asks(s, t, sid, DoJoin);
    u := JoinStep(t, sid);
    if pc.other !in t.docs && pc.tries + 1 < Ingestion.SETTLE_ATTEMPTS {
      var v := JoinsAlone(s, u, sid);
      u := v;
    }
  }

  lemma DuplicateAlone(s: State, t: State, sid: SubmitId, key: Key, id: DocId) returns (u: State)
    requires SubmitMakes(s, t, sid) && Stands(t, sid, key, SetGuard(id)) && key in t.redis.guards
    ensures SubmitMakes(s, u, sid) && StoresOf(u) == StoresOf(t) && sid !in u.actors.submits
  {
    Asks(s, t, sid, DoSetGuard(Answered));
    u := SetGuardStep(t, sid, Answered);
    Asks(s, u, sid, DoReadGuard(true));
    u := ReadGuardStep(u, sid, true);
    u := JoinsAlone(s, u, sid);
  }

  /** Past the guard, set or not, as far as the verdict on the slot. */
  lemma AsksForSlot(s: State, t: State, sid: SubmitId, user: UserId, title: string, content: string, id: DocId, net: Ingestion.Net)
    returns (u: State)
    requires SubmitMakes(s, t, sid) && Submits(t, sid, user, title, content, SetGuard(id))
    requires !Joins(t, (user, HashContent(content)), net)
    ensures SubmitMakes(s, u, sid) && u.now == t.now && u.cfg == t.cfg
    ensures var (was, key, limit) := (StoresOf(t), (user, HashContent(content)), t.cfg.maxActive);
            && Submits(u, sid, user, title, content, if Ingestion.Room(was, user, user, limit, net) then InsertNew(id) else GiveGuardBack(id))
            && StoresOf(u) == was.(guards := if net.guard.Took() then GuardSet(was.guards, key, id) else was.guards,
                                   counters := if net.acquire.Took() then Acquired(was.counters, user, limit) else was.counters)
  {
    Asks(s, t, sid, DoSetGuard(net.guard));
    u := SetGuardStep(t, sid, net.guard);
    if u.actors.submits[sid].pc.ReadGuard? {
      Asks(s, u, sid, DoReadGuard(false));
      u := ReadGuardStep(u, sid, false);
    }
    Goes(s, u, sid, DoTakeSlot(net.acquire));
    u := TakeSlotStep(u, sid, net.acquire);
    if !net.acquire.Answered? {
      Goes(s, u, sid, DoCountActive);
      u := CountActiveStep(u, sid);
    }
  }

  lemma LeavesGuard(s: State, t: State, sid: SubmitId, key: Key, id: DocId, net: Ingestion.Net) returns (u: State)
    requires SubmitMakes(s, t, sid) && Stands(t, sid, key, GiveGuardBack(id))
    ensures SubmitMakes(s, u, sid) && sid !in u.actors.submits
    ensures StoresOf(u) == StoresOf(t).(guards := if net.unguard then t.redis.guards - {key} else t.redis.guards)
  {
    Goes(s, t, sid, DoGiveGuardBack(ReplyOf(net.unguard)));
    u := GiveGuardBackStep(t, sid, ReplyOf(net.unguard));
  }

  /** A slot in hand: insert and publish, or leave slot and guard. */
  lemma InsertsAndPublishes(s: State, t: State, sid: SubmitId, user: UserId, title: string, content: string, id: DocId, net: Ingestion.Net)
    returns (u: State)
    requires SubmitMakes(s, t, sid) && Submits(t, sid, user, title, content, InsertNew(id))
    ensures SubmitMakes(s, u, sid) && sid !in u.actors.submits
    ensures var (was, key) := (StoresOf(t), (user, HashContent(content)));
            StoresOf(u) == was.(
              docs := if net.insert.Took() then was.docs[id := NewDoc(user, title, content, key.1, t.now)] else was.docs,
              log := if net.insert.Answered? && net.publish.Took() then was.log + [id] else was.log,
              counters := if !net.Enqueues() && net.release then Released(was.counters, user) else was.counters,
              guards := if !net.Enqueues() && net.unguard then was.guards - {key} else was.guards)
  {
    Goes(s, t, sid, DoInsertNew(net.insert));
    u := InsertNewStep(t, sid, net.insert);
    if net.insert.Answered? {
      Goes(s, u, sid, DoPublishNew(net.publish));
      u := PublishNewStep(u, sid, net.publish);
    }
    if !net.Enqueues() {
      Goes(s, u, sid, DoGiveSlotBack(ReplyOf(net.release)));
      u := GiveSlotBackStep(u, sid, ReplyOf(net.release));
      u := LeavesGuard(s, u, sid, (user, HashContent(content)), id, net);
    }
  }

  lemma NewAlone(s: State, t: State, sid: SubmitId, user: UserId, title: string, content: string, id: DocId, net: Ingestion.Net)
    returns (u: State)
    requires SubmitMakes(s, t, sid) && Submits(t, sid, user, title, content, SetGuard(id))
    requires !Joins(t, (user, HashContent(content)), net)
    ensures SubmitMakes(s, u, sid) && sid !in u.actors.submits
    ensures StoresOf(u) == Ingestion.AfterUncached(StoresOf(t), user, id, id, NewDoc(user, title, content, HashContent(content), t.now),
                                                   t.cfg.maxActive, net)
  {
    u := AsksForSlot(s, t, sid, user, title, content, id, net);
    if Ingestion.Room(StoresOf(t), user, user, t.cfg.maxActive, net) {
      u := InsertsAndPublishes(s, u, sid, user, title, content, id, net);
    } else {
      u := LeavesGuard(s, u, sid, (user, HashContent(content)), id, net);
    }
  }

  lemma UncachedAlone(s: State, t: State, sid: SubmitId, user: UserId, title: string, content: string, id: DocId, net: Ingestion.Net)
    returns (u: State)
    requires SubmitMakes(s, t, sid) && Submits(t, sid, user, title, content, SetGuard(id))
    ensures SubmitMakes(s, u, sid) && sid !in u.actors.submits
    ensures StoresOf(u) == Ingestion.AfterUncached(StoresOf(t), user, id, id, NewDoc(user, title, content, HashContent(content), t.now),
                                                   t.cfg.maxActive, net)
  {
    if Joins(t, (user, HashContent(content)), net) {
      u := DuplicateAlone(s, t, sid, (user, HashContent(content)), id);
    } else {
      u := NewAlone(s, t, sid, user, title, content, id, net);
    }
  }

  /** Whichever commands fail or lose their answer, a submission's own steps
      have the effect `IngestionService.Submit` is proved to have. */
  lemma SubmitAlone(s: State, sid: SubmitId, user: UserId, title: string, content: string, net: Ingestion.Net)
    returns (t: State, id: DocId)
    requires Submits(s, sid, user, title, content, ReadCache)
    ensures SubmitMakes(s, t, sid) && RanSubmit(s, t, sid, user, title, content, id, net)
  {
    if net.read && (user, HashContent(content)) in s.redis.cache {
      t, id := CachedAlone(s, sid, user, title, content, net);
    } else if GenuineIds(s.docs, user, HashContent(content)) != {} {
      t, id := FoundAlone(s, sid, user, title, content, net);
    } else {
      var minted;
      minted, id := Mints(s, sid, user, title, content, net);
      t := UncachedAlone(s, minted, sid, user, title, content, id, net);
    }
  }
}
