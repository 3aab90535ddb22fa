/** Where the guarantees end. Each lemma gives a continuation in which nothing
    fails and yet a property one might expect does not hold. */
module Traps {
  import opened Text
  import opened Types
  import opened Repository
  import opened RateLimiter
  import opened Cache
  import opened Queue
  import opened Protocol
  import opened References
  import opened ReferencesKept
  import opened Slots
  import opened Recovery

  // ---------------------------------------------------------------------
  // Submitting
  // ---------------------------------------------------------------------

  lemma LookupOn(s: State, t: State, sid: SubmitId, a: LookupStep)
    requires Leads(s, t) && LookupEnabled(t, sid, a) && Benign(OfLookup(sid, a))
    ensures Leads(s, LookupNext(t, sid, a))
  {
    Step(s, t, OfLookup(sid, a));
  }

  lemma EnqueueOn(s: State, t: State, sid: SubmitId, a: EnqueueStep)
    requires Leads(s, t) && EnqueueEnabled(t, sid, a) && Benign(OfEnqueue(sid, a))
    ensures Leads(s, EnqueueNext(t, sid, a))
  {
    Step(s, t, OfEnqueue(sid, a));
  }

  ghost predicate Stands(t: State, sid: SubmitId, key: Key, pc: SubmitPc) {
    sid in t.actors.submits && SubmitKey(t.actors.submits[sid]) == key && t.actors.submits[sid].pc == pc
  }

  /** A submission with a slot to spare enqueues its document. */
  lemma Enqueues(s: State, t: State, sid: SubmitId, key: Key, id: DocId, room: nat) returns (u: State)
    requires Leads(s, t) && Stands(t, sid, key, TakeSlot(id)) && Counter(t, key.0) + room < t.cfg.maxActive
    ensures Leads(s, u) && IsQueued(u.docs, id) && KeyOf(u.docs[id]) == key && u.docs[id].attempts == 0
    ensures u.docs == t.docs[id := u.docs[id]] && u.cfg == t.cfg && Counter(u, key.0) == Counter(t, key.0) + 1
    ensures SameElsewhere(t.actors.submits, u.actors.submits, sid) && Stands(u, sid, key, PublishNew(id))
    ensures u.redis == t.redis.(counters := u.redis.counters)
    ensures u.audit.ledger == t.audit.ledger && u.audit.history == t.audit.history
  {
    EnqueueOn(s, t, sid, DoTakeSlot(Answered));
    u := TakeSlotStep(t, sid, Answered);
    EnqueueOn(s, u, sid, DoInsertNew(Answered));
    u := InsertNewStep(u, sid, Answered);
  }

  /** After a failed publish a submission leaves slot and guard, and its
      document. */
  lemma GivesBack(s: State, t: State, sid: SubmitId, key: Key, id: DocId) returns (u: State)
    requires Leads(s, t) && Stands(t, sid, key, GiveSlotBack(id))
    ensures Leads(s, u) && u.docs == t.docs && u.cfg == t.cfg && SameElsewhere(t.actors.submits, u.actors.submits, sid)
    ensures u.redis == t.redis.(guards := t.redis.guards - {key}, counters := Released(t.redis.counters, key.0))
    ensures u.audit.ledger.surplus == t.audit.ledger.surplus
  {
    EnqueueOn(s, t, sid, DoGiveSlotBack(Answered));
    var v := GiveSlotBackStep(t, sid, Answered);
    EnqueueOn(s, v, sid, DoGiveGuardBack(Answered));
    u := GiveGuardBackStep(v, sid, Answered);
  }

  /** A submission of new content gets as far as `SET NX`. */
  lemma Looks(s: State, t: State, user: UserId, content: string) returns (u: State, sid: SubmitId, id: DocId)
    requires Leads(s, t) && GenuineIds(t.docs, user, HashContent(content)) == {}
    requires (user, HashContent(content)) !in t.redis.cache
    ensures Leads(s, u) && Stands(u, sid, (user, HashContent(content)), SetGuard(id))
    ensures u.docs == t.docs && u.redis == t.redis && u.cfg == t.cfg
    ensures u.audit.ledger == t.audit.ledger && u.audit.history == t.audit.history
    ensures sid == t.nextId < id < u.nextId && SameElsewhere(t.actors.submits, u.actors.submits, sid)
  {
    sid := t.nextId;
    EnvOn(s, t, NewSubmit(user, "", content));
    u := NewSubmitStep(t, user, "", content);
    LookupOn(s, u, sid, DoReadCache(true));
    u := ReadCacheStep(u, sid, true);
    LookupOn(s, u, sid, DoFindDone(None));
    id := u.nextId;
    u := MintStep(u, sid);
  }

  /** From there, with nothing in its way, it enqueues and publishes. */
  lemma Publishes(s: State, t: State, sid: SubmitId, key: Key, id: DocId) returns (u: State)
    requires Leads(s, t) && Stands(t, sid, key, SetGuard(id)) && Counter(t, key.0) < t.cfg.maxActive && key !in t.redis.guards
    ensures Leads(s, u) && IsQueued(u.docs, id) && KeyOf(u.docs[id]) == key && u.cfg == t.cfg
    ensures u.redis.log == t.redis.log + [id] && u.redis.delivered == t.redis.delivered
    ensures u.redis.guards == t.redis.guards[key := id] && Counter(u, key.0) == Counter(t, key.0) + 1
    ensures u.docs == t.docs[id := u.docs[id]] && u.docs[id].attempts == 0
    ensures u.redis.cache == t.redis.cache && u.redis.zset == t.redis.zset
    ensures u.audit.ledger == t.audit.ledger && u.audit.history == t.audit.history
    ensures SameElsewhere(t.actors.submits, u.actors.submits, sid)
  {
    LookupOn(s, t, sid, DoSetGuard(Answered));
    u := SetGuardStep(t, sid, Answered);
    assert Stands(u, sid, key, TakeSlot(id));
    var v := Enqueues(s, u, sid, key, id, 0);
    u := PublishLast(s, v, sid, id);
  }

  lemma PublishLast(s: State, t: State, sid: SubmitId, id: DocId) returns (u: State)
    requires Leads(s, t) && sid in t.actors.submits && t.actors.submits[sid].pc == PublishNew(id)
    ensures Leads(s, u) && u.docs == t.docs && u.cfg == t.cfg && u.audit == t.audit
    ensures u.redis == t.redis.(log := t.redis.log + [id]) && SameElsewhere(t.actors.submits, u.actors.submits, sid)
  {
    EnqueueOn(s, t, sid, DoPublishNew(Answered));
    u := PublishNewStep(t, sid, Answered);
  }

  /** One submission to the empty service. */
  lemma SubmitsOne(s: State) returns (t: State, id: DocId)
    requires Init(s)
    ensures Leads(s, t) && IsQueued(t.docs, id) && t.docs == map[id := t.docs[id]] && t.docs[id].attempts == 0
    ensures t.cfg == s.cfg && t.redis.log == [id] && t.redis.delivered == 0 && t.redis.zset == map[]
    ensures t.audit.history == s.audit.history
  {
    Stay(s);
    assert GenuineIds(s.docs, "u", HashContent("c")) == {};
    var looked, sid;
    looked, sid, id := Looks(s, s, "u", "c");
    t := Publishes(s, looked, sid, ("u", HashContent("c")), id);
  }

  // ---------------------------------------------------------------------
  // A stale job of the same worker
  // ---------------------------------------------------------------------

  lemma ReadsIt(s: State, t: State, w: WorkerId) returns (u: State)
    requires Leads(s, t) && w in t.actors.workers && t.actors.workers[w].pc.ReadStream? && t.actors.workers[w].batch == []
    requires t.redis.delivered + 1 == |t.redis.log| && t.cfg.concurrency >= 1
    ensures Leads(s, u) && u.docs == t.docs && u.cfg == t.cfg && u.nextId == t.nextId
    ensures u.redis == t.redis.(delivered := |t.redis.log|, pel := u.redis.pel)
    ensures u.actors == PutWorker(t, w, t.actors.workers[w].(batch := [t.redis.delivered], pc := Pull))
  {
    ConsumeOn(s, t, w, DoReadStream(Answered));
    u := ReadStreamStep(t, w, Answered);
    assert u.actors.workers[w].batch == [t.redis.delivered];
  }

  /** An idle worker takes up a document that was just published. */
  lemma WorkerTakesIt(s: State, t: State, w: WorkerId, id: DocId) returns (u: State)
    requires Leads(s, t) && w in t.actors.workers && t.actors.workers[w].pc.ReadStream? && t.actors.workers[w].batch == []
    requires t.redis.delivered + 1 == |t.redis.log| && t.redis.log[t.redis.delivered] == id
    requires IsQueued(t.docs, id) && t.cfg.concurrency >= 1
    ensures Leads(s, u) && Owns(u.docs, id, w) && u.docs[id].attempts == t.docs[id].attempts + 1
    ensures SameElsewhere(t.actors.jobs, u.actors.jobs, t.nextId) && w in u.actors.workers && u.cfg == t.cfg
    ensures u.docs == t.docs[id := u.docs[id]] && SameElsewhere(t.actors.workers, u.actors.workers, w)
    ensures u.redis == t.redis.(delivered := |t.redis.log|, pel := u.redis.pel)
  {
    var read := ReadsIt(s, t, w);
    ConsumeOn(s, read, w, DoClaim);
    u := ClaimWonStep(read, w);
  }

  /** The settling filter names the worker, not the claim. From any state in
      which a running job overstays its lease while its own worker is idle and
      nothing else is queued, that worker can come to hold a newer claim on the
      document, and the write of the old job then matches. So "alone" is needed
      for a job to be sure of settling its own claim, and the result of a stale
      job is not always dropped. */
  lemma StaleJobMatchesNewerClaim(s: State, w: WorkerId, j: JobId) returns (u: State)
    requires Coherent(s) && At(s, w, j, Run) && JobOwns(s, j)
    requires s.actors.workers[w].pc.ReadStream? && s.actors.workers[w].batch == []
    requires s.redis.delivered == |s.redis.log|
    ensures Leads(s, u) && At(u, w, j, Run) && JobOwns(u, j)
    ensures u.docs[u.actors.jobs[j].doc].attempts > s.docs[s.actors.jobs[j].doc].attempts >= u.actors.jobs[j].epoch
  {
    var id := s.actors.jobs[j].doc;
    EpochOfJob(s, j);
    var t := ExpiredIsPublished(s, id);
    StillCoherent(s, t);
    EpochOfJob(t, j);
    u := WorkerTakesIt(s, t, w, id);
  }

  /** A state of that kind is reached from the start: one submission, one
      worker that claims it, starts it and goes back to reading. */
  lemma StaleJobCanArise(s: State) returns (t: State, w: WorkerId, j: JobId)
    requires Init(s)
    ensures Leads(s, t) && At(t, w, j, Run) && JobOwns(t, j)
    ensures t.actors.workers[w].pc.ReadStream? && t.actors.workers[w].batch == [] && t.redis.delivered == |t.redis.log|
  {
    var submitted, id := SubmitsOne(s);
    var read;
    read, w := FreshWorkerReads(s, submitted);
    j := read.nextId;
    t := ClaimsAndStarts(s, read, w);
  }

  lemma ClaimsAndStarts(s: State, t: State, w: WorkerId) returns (u: State)
    requires Leads(s, t) && |t.redis.log| == 1 == t.redis.delivered && Pulling(t, w, Span(0, 1)) && t.actors.workers[w].cycles == 1
    requires IsQueued(t.docs, t.redis.log[0])
    ensures Leads(s, u) && At(u, w, t.nextId, Run) && JobOwns(u, t.nextId) && u.redis.delivered == |u.redis.log|
    ensures u.actors.workers[w].pc.ReadStream? && u.actors.workers[w].batch == []
  {
    assert Span(0, 1) == [0];
    var claimed := ClaimsNext(s, t, w, [0]);
    var running := JobStarts(s, claimed, w, t.nextId);
    ConsumeOn(s, running, w, DoPoll);
    u := PollStep(running, w);
  }

  /** The whole run, from the empty service: at its end a job is running whose
      claim is not the record's latest, and its settling write matches. */
  lemma StaleJobSettles(s: State) returns (u: State, j: JobId)
    requires Init(s)
    ensures Leads(s, u) && JobOwns(u, j) && u.actors.jobs[j].pc.Run?
    ensures u.docs[u.actors.jobs[j].doc].attempts > u.actors.jobs[j].epoch
  {
    var t, w;
    t, w, j := StaleJobCanArise(s);
    InitIsCoherent(s);
    StillCoherent(s, t);
    u := StaleJobMatchesNewerClaim(t, w, j);
    LeadsOn(s, t, u);
  }

  lemma EpochOfJob(s: State, j: JobId)
    requires Coherent(s) && j in s.actors.jobs
    ensures var x := s.actors.jobs[j]; j < s.nextId && x.doc in s.docs && x.epoch <= s.docs[x.doc].attempts
    ensures s.cfg.concurrency >= 1
  {}

  // ---------------------------------------------------------------------
  // The guard vanishes between SET NX and GET
  // ---------------------------------------------------------------------

  lemma BothPassTheGuard(s: State, a: SubmitId, b: SubmitId, key: Key, idA: DocId, idB: DocId) returns (u: State)
    requires a != b && Stands(s, a, key, ReadGuard(idA)) && Stands(s, b, key, SetGuard(idB)) && key !in s.redis.guards
    ensures Leads(s, u) && Stands(u, a, key, TakeSlot(idA)) && Stands(u, b, key, TakeSlot(idB))
    ensures u.docs == s.docs && u.cfg == s.cfg && u.redis.counters == s.redis.counters
  {
    Stay(s);
    LookupOn(s, s, a, DoReadGuard(true));
    u := ReadGuardStep(s, a, true);
    LookupOn(s, u, b, DoSetGuard(Answered));
    u := SetGuardStep(u, b, Answered);
  }

  /** One submission is refused by `SET NX`; the holder finishes and its guard
      goes; the `GET` finds nothing, which counts as "no duplicate". If another
      identical submission arrives now, both are enqueued. */
  lemma UnguardedSubmissionsCollide(s: State, a: SubmitId, b: SubmitId, key: Key, idA: DocId, idB: DocId) returns (u: State)
    requires Coherent(s) && a != b && Stands(s, a, key, ReadGuard(idA)) && Stands(s, b, key, SetGuard(idB))
    requires key !in s.redis.guards && Counter(s, key.0) + 1 < s.cfg.maxActive
    ensures Leads(s, u) && idA != idB
    ensures IsQueued(u.docs, idA) && IsQueued(u.docs, idB) && KeyOf(u.docs[idA]) == key == KeyOf(u.docs[idB])
  {
    OwnIds(s, a, b, key, idA, idB);
    u := BothEnqueue(s, a, b, key, idA, idB);
  }

  lemma OwnIds(s: State, a: SubmitId, b: SubmitId, key: Key, idA: DocId, idB: DocId)
    requires Coherent(s) && a != b && Stands(s, a, key, ReadGuard(idA)) && Stands(s, b, key, SetGuard(idB))
    ensures idA != idB
  {}

  lemma BothEnqueue(s: State, a: SubmitId, b: SubmitId, key: Key, idA: DocId, idB: DocId) returns (u: State)
    requires a != b && idA != idB && Stands(s, a, key, ReadGuard(idA)) && Stands(s, b, key, SetGuard(idB))
    requires key !in s.redis.guards && Counter(s, key.0) + 1 < s.cfg.maxActive
    ensures Leads(s, u)
    ensures IsQueued(u.docs, idA) && IsQueued(u.docs, idB) && KeyOf(u.docs[idA]) == key == KeyOf(u.docs[idB])
  {
    var passed := BothPassTheGuard(s, a, b, key, idA, idB);
    u := OneAfterTheOther(s, passed, a, b, key, idA, idB);
  }

  lemma OneAfterTheOther(s: State, t: State, a: SubmitId, b: SubmitId, key: Key, idA: DocId, idB: DocId) returns (u: State)
    requires Leads(s, t) && a != b && idA != idB && Stands(t, a, key, TakeSlot(idA)) && Stands(t, b, key, TakeSlot(idB))
    requires Counter(t, key.0) + 1 < t.cfg.maxActive
    ensures Leads(s, u)
    ensures IsQueued(u.docs, idA) && IsQueued(u.docs, idB) && KeyOf(u.docs[idA]) == key == KeyOf(u.docs[idB])
  {
    var first := Enqueues(s, t, a, key, idA, 1);
    u := Enqueues(s, first, b, key, idB, 0);
  }

  // ---------------------------------------------------------------------
  // ... from the empty service
  // ---------------------------------------------------------------------

  /** The worker that read the holder's entry completes it: slot and guard go. */
  lemma HolderFinishes(s: State, t: State, w: WorkerId, id: DocId, key: Key) returns (u: State)
    requires Leads(s, t) && Pulling(t, w, Span(0, 1)) && t.redis.log == [id] && IsQueued(t.docs, id) && KeyOf(t.docs[id]) == key
    ensures Leads(s, u) && u.actors.submits == t.actors.submits && u.cfg == t.cfg
    ensures Recovery.Completed(u.docs, id) && u.docs == t.docs[id := u.docs[id]]
    ensures u.redis.guards == t.redis.guards - {key} && u.redis.counters == Released(t.redis.counters, key.0)
  {
    var j := t.nextId;
    ConsumeOn(s, t, w, DoClaim);
    var claimed := ClaimWonStep(t, w);
    var running := JobStarts(s, claimed, w, j);
    var completed := JobCompletes(s, running, w, j);
    u := FreesBoth(s, completed, w, j, key);
  }

  lemma FreesBoth(s: State, t: State, w: WorkerId, j: JobId, key: Key) returns (u: State)
    requires Leads(s, t) && w in t.actors.workers && j in t.actors.jobs && t.actors.jobs[j].worker == w
    requires t.actors.jobs[j].pc.StoreSummary? && KeyOf(t.actors.jobs[j].snap) == key
    ensures Leads(s, u) && u.docs == t.docs && u.actors.submits == t.actors.submits && u.cfg == t.cfg
    ensures u.redis.guards == t.redis.guards - {key} && u.redis.counters == Released(t.redis.counters, key.0)
  {
    SettleOn(s, t, j, DoStoreSummary(Answered));
    u := StoreSummaryStep(t, j, Answered);
    SettleOn(s, u, j, DoFreeSlot(Answered));
    u := FreeSlotStep(u, j, Answered);
    SettleOn(s, u, j, DoFreeGuard(Answered));
    u := FreeGuardStep(u, j, Answered);
  }

  /** Three identical submissions have looked and found nothing. */
  lemma ThreeLook(s: State, key: Key)
    returns (t: State, a: SubmitId, b: SubmitId, c: SubmitId, idA: DocId, idB: DocId, idC: DocId)
    requires Init(s) && key == ("u", HashContent("c"))
    ensures Leads(s, t) && a < b < c && t.docs == s.docs && t.redis == s.redis && t.cfg == s.cfg
    ensures Stands(t, a, key, SetGuard(idA)) && Stands(t, b, key, SetGuard(idB)) && Stands(t, c, key, SetGuard(idC))
  {
    Stay(s);
    assert GenuineIds(s.docs, "u", HashContent("c")) == {};
    var first, second;
    first, a, idA := Looks(s, s, "u", "c");
    second, b, idB := Looks(s, first, "u", "c");
    t, c, idC := Looks(s, second, "u", "c");
  }

  /** Two submissions wait, one of them refused, while a third holds the guard
      and has published. */
  lemma HolderPublishes(s: State, key: Key) returns (t: State, a: SubmitId, b: SubmitId, idA: DocId, idB: DocId, id: DocId)
    requires Init(s) && key == ("u", HashContent("c"))
    ensures Leads(s, t) && a != b && Stands(t, a, key, ReadGuard(idA)) && Stands(t, b, key, SetGuard(idB)) && t.cfg == s.cfg
    ensures t.redis.log == [id] && t.redis.delivered == 0 && IsQueued(t.docs, id) && KeyOf(t.docs[id]) == key
    ensures t.redis.guards == map[key := id] && Counter(t, "u") == 1 && t.docs == map[id := t.docs[id]]
  {
    var looked, c;
    looked, a, b, c, idA, idB, id := ThreeLook(s, key);
    var published := Publishes(s, looked, c, key, id);
    LookupOn(s, published, a, DoSetGuard(Answered));
    t := SetGuardStep(published, a, Answered);
  }

  lemma HolderIsRead(s: State, key: Key)
    returns (t: State, w: WorkerId, a: SubmitId, b: SubmitId, idA: DocId, idB: DocId, id: DocId)
    requires Init(s) && key == ("u", HashContent("c"))
    ensures Leads(s, t) && a != b && Stands(t, a, key, ReadGuard(idA)) && Stands(t, b, key, SetGuard(idB)) && t.cfg == s.cfg
    ensures Pulling(t, w, Span(0, 1)) && t.redis.log == [id] && IsQueued(t.docs, id) && KeyOf(t.docs[id]) == key
    ensures t.redis.guards == map[key := id] && Counter(t, "u") == 1 && t.docs == map[id := t.docs[id]]
  {
    var published;
    published, a, b, idA, idB, id := HolderPublishes(s, key);
    t, w := FreshWorkerReads(s, published);
  }

  /** ... until the holder is done and its guard gone. */
  lemma HolderIsGone(s: State, key: Key) returns (t: State, a: SubmitId, b: SubmitId, idA: DocId, idB: DocId)
    requires Init(s) && key == ("u", HashContent("c"))
    ensures Leads(s, t) && Coherent(t) && a != b && idA != idB && t.cfg == s.cfg
    ensures Stands(t, a, key, ReadGuard(idA)) && Stands(t, b, key, SetGuard(idB))
    ensures key !in t.redis.guards && Counter(t, key.0) == 0 && ActiveIds(t.docs, key.0) == {}
  {
    t, a, b, idA, idB := HolderDone(s, key);
    InitIsCoherent(s);
    StillCoherent(s, t);
    OwnIds(t, a, b, key, idA, idB);
  }

  lemma HolderDone(s: State, key: Key) returns (t: State, a: SubmitId, b: SubmitId, idA: DocId, idB: DocId)
    requires Init(s) && key == ("u", HashContent("c"))
    ensures Leads(s, t) && a != b && t.cfg == s.cfg
    ensures Stands(t, a, key, ReadGuard(idA)) && Stands(t, b, key, SetGuard(idB))
    ensures key !in t.redis.guards && Counter(t, key.0) == 0 && ActiveIds(t.docs, key.0) == {}
  {
    var read, w, id;
    read, w, a, b, idA, idB, id := HolderIsRead(s, key);
    t := HolderFinishes(s, read, w, id, key);
    assert t.docs == map[id := t.docs[id]];
  }

  /** The whole run: three identical submissions; the first is processed while
      the second has been refused and the third has yet to ask; then both of
      these are enqueued. Nothing fails on the way. */
  lemma IdenticalPairArises(s: State) returns (u: State, idA: DocId, idB: DocId)
    requires Init(s) && s.cfg.maxActive >= 2
    ensures Leads(s, u) && idA != idB && IsQueued(u.docs, idA) && IsQueued(u.docs, idB)
    ensures KeyOf(u.docs[idA]) == KeyOf(u.docs[idB])
  {
    var key := ("u", HashContent("c"));
    var done, a, b;
    done, a, b, idA, idB := HolderIsGone(s, key);
    u := UnguardedSubmissionsCollide(done, a, b, key, idA, idB);
    LeadsOn(s, done, u);
  }
}
