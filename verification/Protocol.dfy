/** The whole service as one state machine. Each Mongo operation, Redis command
    and Lua script is one step, so every `await` between two of them is a point
    where the other actors may run. An action carries the choices the step
    leaves open: which command Redis failed, what the cursor returned, the
    jittered delay. */
module Protocol {
  import opened Text
  import opened Types
  import opened Decorators
  import opened Repository
  import opened RateLimiter
  import opened Cache
  import opened Queue
  import opened Summarizer
  import opened Keys
  import Ingestion

  type SubmitId = nat
  type JobId = nat
  type SweepId = nat
  type ReconId = nat
  type EntryId = nat

  // ---------------------------------------------------------------------
  // Actors
  // ---------------------------------------------------------------------

  /** Where a submission is, named after the step it takes next. */
  datatype SubmitPc =
    | ReadCache
    | FindDone
    | FillCache(found: Summary)
    | InsertHit(found: Summary)
    | SetGuard(id: DocId)
    | ReadGuard(id: DocId)
    | Join(other: DocId, tries: nat)
    | TakeSlot(id: DocId)
    | CountActive(id: DocId)
    | InsertNew(id: DocId)
    | PublishNew(id: DocId)
    | GiveSlotBack(id: DocId)
    | GiveGuardBack(id: DocId)
  {
    predicate HasId() {
      !ReadCache? && !FindDone? && !FillCache? && !InsertHit? && !Join?
    }

    /** Took a slot that no document accounts for yet. */
    predicate HoldsSlot() {
      InsertNew? || GiveSlotBack?
    }

    /** Counts on the in-flight guard while no document does. */
    predicate HoldsGuard() {
      TakeSlot? || CountActive? || InsertNew? || GiveSlotBack? || GiveGuardBack?
    }
  }

  datatype Submit = Submit(user: UserId, title: string, content: string, hash: ContentHash, pc: SubmitPc)

  datatype JobPc =
    | Reread
    | AwaitPermit
    | Run
    | StoreSummary(summary: Summary)
    | FreeSlot
    | FreeGuard
    | EnterDelay(delay: real)
    | AckEntry
  {
    /** The claim has not been settled yet. */
    predicate Open() { Reread? || AwaitPermit? || Run? }

    predicate OwesSlot() { StoreSummary? || FreeSlot? }

    predicate OwesGuard() { StoreSummary? || FreeSlot? || FreeGuard? }

    /** Occupies a permit of its worker. */
    predicate Running() { !Reread? && !AwaitPermit? }
  }

  /** One claim and what became of it. `epoch`, `leaseEnd` and `alone` record
      the claim; `snap` is the copy of the document the job works from. */
  datatype Job = Job(
    worker: WorkerId, entry: EntryId, doc: DocId,
    epoch: nat, leaseEnd: Time, alone: bool,
    snap: Doc, pc: JobPc)

  datatype WorkerPc = Pull | Recover | ReadStream | AckLost(entry: EntryId) | Yield(job: JobId)

  datatype Worker = Worker(permits: nat, cycles: nat, batch: seq<EntryId>, pc: WorkerPc)

  /** A row of the lease scan. `epoch` records how often the document had been
      claimed when it was found. */
  datatype Row = Row(id: DocId, lease: Time, epoch: nat)

  datatype Stage = Reclaimed | Promoted | Restaled

  datatype SweepPc =
    | FindExpired
    | ResetRows(rows: seq<Row>, foundAt: Time, done: seq<DocId>)
    | PopDelayed
    | FindStale
    | PublishIds(ids: seq<DocId>, stage: Stage)

  datatype Sweep = Sweep(worker: WorkerId, pc: SweepPc)

  /** A reconcile run: what the collection said when it began, and the users
      the first loop still has to visit. */
  datatype Recon = Recon(worker: WorkerId, truth: map<UserId, nat>, todo: set<UserId>)

  datatype Delivery = Delivery(consumer: WorkerId, since: Time, tried: bool)

  /** Who minted a document id, and for which key. */
  datatype Mint = Mint(minter: SubmitId, key: Key)

  /** The slot ledger, per user: admissions the counter does not know of,
      decrements that never reached it, and, as part of these, what reconcile
      runs have added. All three only grow. */
  datatype Ledger = Ledger(surplus: map<UserId, nat>, lost: map<UserId, nat>, raised: map<UserId, nat>)

  /** How the claims of each document ended: by which epochs it was sent back
      for a retry, how often a lease was taken back, which job settled it, and
      whose slot and guard that job has freed. */
  datatype History = History(
    retried: map<DocId, set<nat>>,
    reclaims: map<DocId, nat>,
    settledBy: map<DocId, JobId>,
    slotFreed: set<DocId>,
    guardFreed: set<DocId>)

  /** Bookkeeping that no step reads: it names what happened so that the
      invariants can be exact. `tainted` holds the keys whose guard was
      bypassed, or lost while in use; `orphaned` the documents whose delivery
      was dropped by a crash or a Redis fault. */
  datatype Audit = Audit(
    minted: map<DocId, Mint>,
    ledger: Ledger,
    history: History,
    tainted: set<Key>,
    orphaned: set<DocId>)

  /** Everything Redis holds. */
  datatype Redis = Redis(
    counters: map<UserId, nat>,
    guards: map<Key, DocId>,
    cache: map<Key, Summary>,
    log: seq<DocId>,
    delivered: nat,
    pel: map<EntryId, Delivery>,
    zset: map<DocId, Time>)

  datatype Actors = Actors(
    submits: map<SubmitId, Submit>,
    workers: map<WorkerId, Worker>,
    jobs: map<JobId, Job>,
    sweeps: map<SweepId, Sweep>,
    recons: map<ReconId, Recon>)

  datatype State = State(
    cfg: Settings,
    now: Time,
    nextId: nat,
    docs: Docs,
    redis: Redis,
    actors: Actors,
    audit: Audit)

  function KeyOf(d: Doc): Key { (d.user, d.hash) }

  function SubmitKey(x: Submit): Key { (x.user, x.hash) }

  function Bump<K(==)>(m: map<K, nat>, k: K, n: nat): map<K, nat> {
    m[k := Get(m, k, 0) + n]
  }

  // ---------------------------------------------------------------------
  // Submissions
  // ---------------------------------------------------------------------

  /** Up to the moment a submission knows whether it is new work ... */
  datatype LookupStep =
    | DoReadCache(up: bool)
    | DoFindDone(found: Option<DocId>)
    | DoFillCache(reply: Reply)
    | DoInsertHit
    | DoSetGuard(reply: Reply)
    | DoReadGuard(up: bool)
    | DoJoin

  /** ... and from there on. */
  datatype EnqueueStep =
    | DoTakeSlot(reply: Reply)
    | DoCountActive
    | DoInsertNew(reply: Reply)
    | DoPublishNew(reply: Reply)
    | DoGiveSlotBack(reply: Reply)
    | DoGiveGuardBack(reply: Reply)
    | SubmitDies

  ghost predicate LookupEnabled(s: State, sid: SubmitId, a: LookupStep) {
    sid in s.actors.submits &&
    var x := s.actors.submits[sid];
    match a
    case DoReadCache(_) => x.pc.ReadCache?
    case DoFindDone(found) => x.pc.FindDone? && FindsDone(s.docs, x.user, x.hash, found)
    case DoFillCache(_) => x.pc.FillCache?
    case DoInsertHit => x.pc.InsertHit?
    case DoSetGuard(_) => x.pc.SetGuard?
    case DoReadGuard(_) => x.pc.ReadGuard?
    case DoJoin => x.pc.Join?
  }

  ghost predicate EnqueueEnabled(s: State, sid: SubmitId, a: EnqueueStep) {
    sid in s.actors.submits &&
    var x := s.actors.submits[sid];
    match a
    case DoTakeSlot(_) => x.pc.TakeSlot?
    case DoCountActive => x.pc.CountActive?
    case DoInsertNew(_) => x.pc.InsertNew?
    case DoPublishNew(_) => x.pc.PublishNew?
    case DoGiveSlotBack(_) => x.pc.GiveSlotBack?
    case DoGiveGuardBack(_) => x.pc.GiveGuardBack?
    case SubmitDies => true
  }

  /** The answers `find_completed_by_hash` can give. */
  ghost predicate FindsDone(docs: Docs, user: UserId, hash: ContentHash, found: Option<DocId>) {
    if found.Some? then IsOldest(docs, GenuineIds(docs, user, hash), found.value)
    else GenuineIds(docs, user, hash) == {}
  }

  ghost function PutSubmit(s: State, sid: SubmitId, pc: SubmitPc): Actors
    requires sid in s.actors.submits
  {
    s.actors.(submits := s.actors.submits[sid := s.actors.submits[sid].(pc := pc)])
  }

  ghost function DropSubmit(s: State, sid: SubmitId): Actors {
    s.actors.(submits := s.actors.submits - {sid})
  }

  /** Only the submission `sid` moved, or left. */
  ghost predicate MovesSubmit(s: State, t: Actors, sid: SubmitId) {
    sid in s.actors.submits && (t == DropSubmit(s, sid) || exists pc :: t == PutSubmit(s, sid, pc))
  }

  ghost function Taint(audit: Audit, key: Key): Audit {
    audit.(tainted := audit.tainted + {key})
  }

  ghost function Orphan(audit: Audit, ids: set<DocId>): Audit {
    audit.(orphaned := audit.orphaned + ids)
  }

  ghost function AddSurplus(audit: Audit, user: UserId, n: nat): Audit {
    audit.(ledger := audit.ledger.(surplus := Bump(audit.ledger.surplus, user, n)))
  }

  ghost function AddLost(audit: Audit, user: UserId, n: nat): Audit {
    audit.(ledger := audit.ledger.(lost := Bump(audit.ledger.lost, user, n)))
  }

  ghost function ReadCacheStep(s: State, sid: SubmitId, up: bool): State
    requires sid in s.actors.submits
  {
    var key := SubmitKey(s.actors.submits[sid]);
    s.(actors := PutSubmit(s, sid, if up && key in s.redis.cache then InsertHit(s.redis.cache[key]) else FindDone))
  }

  ghost function FoundDoneStep(s: State, sid: SubmitId, id: DocId): State
    requires sid in s.actors.submits && id in s.docs && s.docs[id].summary.Some?
  {
    s.(actors := PutSubmit(s, sid, FillCache(Ingestion.Attributed(id, s.docs[id]))))
  }

  /** Nothing cached: mint the id the guard will publish. */
  ghost function MintStep(s: State, sid: SubmitId): State
    requires sid in s.actors.submits
  {
    s.(actors := PutSubmit(s, sid, SetGuard(s.nextId)), nextId := s.nextId + 1,
       audit := s.audit.(minted := s.audit.minted[s.nextId := Mint(sid, SubmitKey(s.actors.submits[sid]))]))
  }

  ghost function FillCacheStep(s: State, sid: SubmitId, reply: Reply): State
    requires sid in s.actors.submits && s.actors.submits[sid].pc.FillCache?
  {
    var x := s.actors.submits[sid];
    s.(actors := PutSubmit(s, sid, InsertHit(x.pc.found)),
       redis := if reply.Took() then s.redis.(cache := s.redis.cache[SubmitKey(x) := x.pc.found]) else s.redis)
  }

  function HitDoc(x: Submit, id: DocId, found: Summary, now: Time): Doc {
    Ingestion.CachedDoc(x.user, x.title, x.content, x.hash, id, found, now)
  }

  ghost function InsertHitStep(s: State, sid: SubmitId): State
    requires sid in s.actors.submits && s.actors.submits[sid].pc.InsertHit?
  {
    var x := s.actors.submits[sid];
    s.(actors := DropSubmit(s, sid), nextId := s.nextId + 1,
       docs := s.docs[s.nextId := HitDoc(x, s.nextId, x.pc.found, s.now)])
  }

  /** `SET NX`. A failure counts as "no duplicate" and lets the submission on;
      it is unguarded unless the command had taken effect after all. */
  ghost function SetGuardStep(s: State, sid: SubmitId, reply: Reply): State
    requires sid in s.actors.submits && s.actors.submits[sid].pc.SetGuard?
  {
    var x := s.actors.submits[sid];
    var (key, id) := (SubmitKey(x), x.pc.id);
    var taken := key in s.redis.guards;
    s.(actors := PutSubmit(s, sid, if reply.Answered? && taken then ReadGuard(id) else TakeSlot(id)),
       redis := if reply.Took() then s.redis.(guards := GuardSet(s.redis.guards, key, id)) else s.redis,
       audit := if reply.NotDone? || (reply.AnswerLost? && taken) then Taint(s.audit, key) else s.audit)
  }

  /** The `GET` after a refused `SET NX`. A key gone in between also counts as
      "no duplicate". */
  ghost function ReadGuardStep(s: State, sid: SubmitId, up: bool): State
    requires sid in s.actors.submits && s.actors.submits[sid].pc.ReadGuard?
  {
    var x := s.actors.submits[sid];
    var key := SubmitKey(x);
    if up && key in s.redis.guards then s.(actors := PutSubmit(s, sid, Join(s.redis.guards[key], 0)))
    else s.(actors := PutSubmit(s, sid, TakeSlot(x.pc.id)), audit := Taint(s.audit, key))
  }

  ghost function JoinStep(s: State, sid: SubmitId): State
    requires sid in s.actors.submits && s.actors.submits[sid].pc.Join?
  {
    var pc := s.actors.submits[sid].pc;
    var settled := pc.other in s.docs || pc.tries + 1 >= Ingestion.SETTLE_ATTEMPTS;
    s.(actors := if settled then DropSubmit(s, sid) else PutSubmit(s, sid, Join(pc.other, pc.tries + 1)))
  }

  ghost function TakeSlotStep(s: State, sid: SubmitId, reply: Reply): State
    requires sid in s.actors.submits && s.actors.submits[sid].pc.TakeSlot?
  {
    var x := s.actors.submits[sid];
    var room := HasRoom(s.redis.counters, x.user, s.cfg.maxActive);
    var pc := if !reply.Answered? then CountActive(x.pc.id)
              else if room then InsertNew(x.pc.id) else GiveGuardBack(x.pc.id);
    s.(actors := PutSubmit(s, sid, pc),
       redis := if reply.Took() then s.redis.(counters := Acquired(s.redis.counters, x.user, s.cfg.maxActive)) else s.redis,
       audit := if reply.AnswerLost? && room then AddLost(s.audit, x.user, 1) else s.audit)
  }

  /** The degraded path: admitted on a count of the collection. */
  ghost function CountActiveStep(s: State, sid: SubmitId): State
    requires sid in s.actors.submits && s.actors.submits[sid].pc.CountActive?
  {
    var x := s.actors.submits[sid];
    if |ActiveIds(s.docs, x.user)| < s.cfg.maxActive then
      s.(actors := PutSubmit(s, sid, InsertNew(x.pc.id)), audit := AddSurplus(s.audit, x.user, 1))
    else s.(actors := PutSubmit(s, sid, GiveGuardBack(x.pc.id)))
  }

  /** An insert that fails gives slot and guard back, even if the record was
      stored after all. */
  ghost function InsertNewStep(s: State, sid: SubmitId, reply: Reply): State
    requires sid in s.actors.submits && s.actors.submits[sid].pc.InsertNew?
  {
    var x := s.actors.submits[sid];
    var id := x.pc.id;
    s.(actors := PutSubmit(s, sid, if reply.Answered? then PublishNew(id) else GiveSlotBack(id)),
       docs := if reply.Took() then s.docs[id := NewDoc(x.user, x.title, x.content, x.hash, s.now)] else s.docs,
       audit := if reply.AnswerLost? then Strand(s.audit, x, {id}) else s.audit)
  }

  /** A queued document is left behind without slot and guard, and `dropped`
      without delivery. */
  ghost function Strand(audit: Audit, x: Submit, dropped: set<DocId>): Audit {
    Orphan(Taint(AddSurplus(audit, x.user, 1), SubmitKey(x)), dropped)
  }

  ghost function Publish(redis: Redis, id: DocId, reply: Reply): Redis {
    if reply.Took() then redis.(log := redis.log + [id]) else redis
  }

  ghost function PublishNewStep(s: State, sid: SubmitId, reply: Reply): State
    requires sid in s.actors.submits && s.actors.submits[sid].pc.PublishNew?
  {
    var x := s.actors.submits[sid];
    var id := x.pc.id;
    if reply.Answered? then s.(actors := DropSubmit(s, sid), redis := Publish(s.redis, id, reply))
    else s.(actors := PutSubmit(s, sid, GiveSlotBack(id)), redis := Publish(s.redis, id, reply),
            audit := Strand(s.audit, x, if reply.Took() then {} else {id}))
  }

  /** The release script, and the decrements it fails to make. */
  ghost function ReleaseSlot(redis: Redis, user: UserId, reply: Reply): Redis {
    if reply.Took() then redis.(counters := Released(redis.counters, user)) else redis
  }

  ghost function Unreleased(redis: Redis, user: UserId, reply: Reply): nat {
    if !reply.Took() || Get(redis.counters, user, 0) == 0 then 1 else 0
  }

  ghost function GiveSlotBackStep(s: State, sid: SubmitId, reply: Reply): State
    requires sid in s.actors.submits && s.actors.submits[sid].pc.GiveSlotBack?
  {
    var x := s.actors.submits[sid];
    s.(actors := PutSubmit(s, sid, GiveGuardBack(x.pc.id)),
       redis := ReleaseSlot(s.redis, x.user, reply),
       audit := AddLost(s.audit, x.user, Unreleased(s.redis, x.user, reply)))
  }

  ghost function DeleteGuard(redis: Redis, key: Key, reply: Reply): Redis {
    if reply.Took() then redis.(guards := redis.guards - {key}) else redis
  }

  ghost function GiveGuardBackStep(s: State, sid: SubmitId, reply: Reply): State
    requires sid in s.actors.submits
  {
    s.(actors := DropSubmit(s, sid), redis := DeleteGuard(s.redis, SubmitKey(s.actors.submits[sid]), reply))
  }

  ghost function SubmitDiesStep(s: State, sid: SubmitId): State
    requires sid in s.actors.submits
  {
    var x := s.actors.submits[sid];
    s.(actors := DropSubmit(s, sid),
       audit := if x.pc.HoldsSlot() then AddLost(s.audit, x.user, 1)
                else if x.pc.PublishNew? then Orphan(s.audit, {x.pc.id})
                else s.audit)
  }

  ghost function LookupNext(s: State, sid: SubmitId, a: LookupStep): State
    requires LookupEnabled(s, sid, a)
  {
    match a
    case DoReadCache(up) => ReadCacheStep(s, sid, up)
    case DoFindDone(found) => if found.Some? then FoundDoneStep(s, sid, found.value) else MintStep(s, sid)
    case DoFillCache(reply) => FillCacheStep(s, sid, reply)
    case DoInsertHit => InsertHitStep(s, sid)
    case DoSetGuard(reply) => SetGuardStep(s, sid, reply)
    case DoReadGuard(up) => ReadGuardStep(s, sid, up)
    case DoJoin => JoinStep(s, sid)
  }

  ghost function EnqueueNext(s: State, sid: SubmitId, a: EnqueueStep): State
    requires EnqueueEnabled(s, sid, a)
  {
    match a
    case DoTakeSlot(reply) => TakeSlotStep(s, sid, reply)
    case DoCountActive => CountActiveStep(s, sid)
    case DoInsertNew(reply) => InsertNewStep(s, sid, reply)
    case DoPublishNew(reply) => PublishNewStep(s, sid, reply)
    case DoGiveSlotBack(reply) => GiveSlotBackStep(s, sid, reply)
    case DoGiveGuardBack(reply) => GiveGuardBackStep(s, sid, reply)
    case SubmitDies => SubmitDiesStep(s, sid)
  }

  // ---------------------------------------------------------------------
  // The consume loop
  // ---------------------------------------------------------------------

  const AUTOCLAIM_EVERY: nat := 10

  datatype WorkerStep =
    | DoPoll
    | DoRecover(taken: seq<EntryId>, reply: Reply)
    | DoReadStream(reply: Reply)
    | DoClaim
    | DoAckLost

  ghost predicate IsIdle(s: State, e: EntryId) {
    e in s.redis.pel && s.now - s.redis.pel[e].since >= s.cfg.lease
  }

  ghost predicate WorkerEnabled(s: State, w: WorkerId, a: WorkerStep) {
    w in s.actors.workers &&
    var k := s.actors.workers[w];
    match a
    case DoPoll => k.pc.Pull? && k.batch == []
    case DoRecover(taken, _) =>
      k.pc.Recover? && NoRepeats(taken) && |taken| <= s.cfg.concurrency && forall e :: e in taken ==> IsIdle(s, e)
    case DoReadStream(_) => k.pc.ReadStream?
    case DoClaim => k.pc.Pull? && k.batch != [] && k.batch[0] < |s.redis.log|
    case DoAckLost => k.pc.AckLost?
  }

  ghost function PutWorker(s: State, w: WorkerId, k: Worker): Actors {
    s.actors.(workers := s.actors.workers[w := k])
  }

  ghost function PollStep(s: State, w: WorkerId): State
    requires w in s.actors.workers
  {
    var k := s.actors.workers[w];
    var pc := if (k.cycles + 1) % AUTOCLAIM_EVERY == 0 then Recover else ReadStream;
    s.(actors := PutWorker(s, w, k.(cycles := k.cycles + 1, pc := pc)))
  }

  /** `XAUTOCLAIM`. With an empty answer the loop goes on to a normal read. */
  ghost function RecoverStep(s: State, w: WorkerId, taken: seq<EntryId>, reply: Reply): State
    requires w in s.actors.workers
  {
    var k := s.actors.workers[w];
    var k' := if !reply.Answered? then k.(pc := Pull)
              else if taken == [] then k.(pc := ReadStream)
              else k.(batch := taken, pc := Pull);
    s.(actors := PutWorker(s, w, k'),
       redis := if reply.Took() then s.redis.(pel := TakenOver(s.redis.pel, taken, w, s.now)) else s.redis)
  }

  ghost function TakenOver(pel: map<EntryId, Delivery>, taken: seq<EntryId>, w: WorkerId, now: Time): map<EntryId, Delivery> {
    map e | e in pel :: if e in taken then pel[e].(consumer := w, since := now) else pel[e]
  }

  /** How far one read of the group moves the delivery point. */
  function ReadTo(redis: Redis, count: nat): (end: nat)
    ensures redis.delivered <= end
    ensures redis.delivered <= |redis.log| ==> end <= |redis.log|
  {
    if redis.delivered + count <= |redis.log| then redis.delivered + count
    else if redis.delivered <= |redis.log| then |redis.log|
    else redis.delivered
  }

  /** The batch a read returns: the undelivered entries in log order. */
  function Span(from: nat, end: nat): (r: seq<EntryId>)
    requires from <= end
    ensures |r| == end - from
    ensures forall i :: 0 <= i < |r| ==> r[i] == from + i
  {
    seq(end - from, i => from + i)
  }

  ghost function Delivered(redis: Redis, end: nat, w: WorkerId, now: Time): Redis
    requires redis.delivered <= end
  {
    redis.(delivered := end,
           pel := redis.pel + map e | e in Span(redis.delivered, end) :: Delivery(w, now, false))
  }

  ghost function ReadStreamStep(s: State, w: WorkerId, reply: Reply): State
    requires w in s.actors.workers
  {
    var k := s.actors.workers[w];
    var end := ReadTo(s.redis, s.cfg.concurrency);
    var batch := if reply.Answered? then Span(s.redis.delivered, end) else k.batch;
    s.(actors := PutWorker(s, w, k.(batch := batch, pc := Pull)),
       redis := if reply.Took() then Delivered(s.redis, end, w, s.now) else s.redis)
  }

  ghost function Tried(redis: Redis, e: EntryId): Redis {
    if e in redis.pel then redis.(pel := redis.pel[e := redis.pel[e].(tried := true)]) else redis
  }

  /** Whether `w` has another unsettled claim on this document. */
  ghost predicate HasOpenJob(jobs: map<JobId, Job>, w: WorkerId, id: DocId) {
    exists j :: j in jobs && jobs[j].worker == w && jobs[j].doc == id && jobs[j].pc.Open()
  }

  ghost function NewJob(s: State, w: WorkerId, e: EntryId): Job
    requires e < |s.redis.log| && s.redis.log[e] in s.docs
  {
    var id := s.redis.log[e];
    var d := ClaimDoc(s.docs[id], w, s.cfg.lease, s.now);
    Job(w, e, id, d.attempts, s.now + s.cfg.lease, !HasOpenJob(s.actors.jobs, w, id), d, Reread)
  }

  /** The claim CAS matched. */
  ghost function ClaimWonStep(s: State, w: WorkerId): State
    requires w in s.actors.workers && s.actors.workers[w].batch != []
    requires s.actors.workers[w].batch[0] < |s.redis.log|
    requires s.redis.log[s.actors.workers[w].batch[0]] in s.docs
  {
    var k := s.actors.workers[w];
    var e := k.batch[0];
    var id := s.redis.log[e];
    s.(docs := s.docs[id := ClaimDoc(s.docs[id], w, s.cfg.lease, s.now)],
       redis := Tried(s.redis, e), nextId := s.nextId + 1,
       actors := s.actors.(jobs := s.actors.jobs[s.nextId := NewJob(s, w, e)],
                           workers := s.actors.workers[w := k.(batch := k.batch[1..], pc := Yield(s.nextId))]))
  }

  /** Somebody else won, or there is nothing left to do. */
  ghost function ClaimLostStep(s: State, w: WorkerId): State
    requires w in s.actors.workers && s.actors.workers[w].batch != []
  {
    var k := s.actors.workers[w];
    s.(redis := Tried(s.redis, k.batch[0]),
       actors := PutWorker(s, w, k.(batch := k.batch[1..], pc := AckLost(k.batch[0]))))
  }

  ghost function AckLostStep(s: State, w: WorkerId): State
    requires w in s.actors.workers && s.actors.workers[w].pc.AckLost?
  {
    var k := s.actors.workers[w];
    s.(actors := PutWorker(s, w, k.(pc := Pull)), redis := s.redis.(pel := s.redis.pel - {k.pc.entry}))
  }

  ghost function WorkerNext(s: State, w: WorkerId, a: WorkerStep): State
    requires WorkerEnabled(s, w, a)
  {
    match a
    case DoPoll => PollStep(s, w)
    case DoRecover(taken, reply) => RecoverStep(s, w, taken, reply)
    case DoReadStream(reply) => ReadStreamStep(s, w, reply)
    case DoClaim =>
      if IsQueued(s.docs, s.redis.log[s.actors.workers[w].batch[0]]) then ClaimWonStep(s, w) else ClaimLostStep(s, w)
    case DoAckLost => AckLostStep(s, w)
  }

  // ---------------------------------------------------------------------
  // Jobs
  // ---------------------------------------------------------------------

  /** From the claim to the settling CAS ... */
  datatype WorkStep =
    | DoReread
    | DoStart
    | DoComplete
    | DoRetry(code: string, delay: real)
    | DoFail(code: string, transient: bool)
    | DoAbort

  /** ... and what follows it. */
  datatype SettleStep =
    | DoStoreSummary(reply: Reply)
    | DoFreeSlot(reply: Reply)
    | DoFreeGuard(reply: Reply)
    | DoEnterDelay(reply: Reply)
    | DoAckEntry
    | DoReap

  ghost predicate WorkEnabled(s: State, j: JobId, a: WorkStep) {
    j in s.actors.jobs && s.actors.jobs[j].worker in s.actors.workers &&
    var x := s.actors.jobs[j];
    match a
    case DoReread => x.pc.Reread? && x.doc in s.docs
    case DoStart => x.pc.AwaitPermit? && s.actors.workers[x.worker].permits > 0
    case DoComplete => x.pc.Run? && x.doc in s.docs
    case DoRetry(_, delay) => x.pc.Run? && x.doc in s.docs && MayRetry(s.cfg, x.snap.attempts, delay)
    case DoFail(_, transient) => x.pc.Run? && x.doc in s.docs && !(transient && x.snap.attempts < s.cfg.maxAttempts)
    case DoAbort => x.pc.Run?
  }

  ghost predicate SettleEnabled(s: State, j: JobId, a: SettleStep) {
    j in s.actors.jobs &&
    var x := s.actors.jobs[j];
    (a.DoReap? <==> x.worker !in s.actors.workers) &&
    match a
    case DoStoreSummary(_) => x.pc.StoreSummary?
    case DoFreeSlot(_) => x.pc.FreeSlot?
    case DoFreeGuard(_) => x.pc.FreeGuard?
    case DoEnterDelay(_) => x.pc.EnterDelay?
    case DoAckEntry => x.pc.AckEntry?
    case DoReap => true
  }

  /** A transient failure with attempts left, and a delay the backoff can draw. */
  ghost predicate MayRetry(cfg: Settings, attempts: nat, delay: real) {
    && cfg.Valid() && 1 <= attempts < cfg.maxAttempts
    && 0.0 <= delay <= BackoffCeiling(attempts, cfg.retryBase, cfg.retryMax)
  }

  ghost function PutJob(s: State, j: JobId, pc: JobPc): Actors
    requires j in s.actors.jobs
  {
    s.actors.(jobs := s.actors.jobs[j := s.actors.jobs[j].(pc := pc)])
  }

  /** The separate read after the claim. */
  ghost function RereadStep(s: State, j: JobId): State
    requires j in s.actors.jobs && s.actors.jobs[j].doc in s.docs
  {
    var x := s.actors.jobs[j];
    s.(actors := s.actors.(jobs := s.actors.jobs[j := x.(snap := s.docs[x.doc], pc := AwaitPermit)]))
  }

  ghost function StartStep(s: State, j: JobId): State
    requires j in s.actors.jobs && s.actors.jobs[j].worker in s.actors.workers
    requires s.actors.workers[s.actors.jobs[j].worker].permits > 0
  {
    var w := s.actors.jobs[j].worker;
    var k := s.actors.workers[w];
    s.(actors := PutJob(s, j, Run).(workers := s.actors.workers[w := k.(permits := k.permits - 1, pc := Pull)]))
  }

  /** The summary computed from one copy of a document. */
  function Summarized(id: DocId, d: Doc): Summary {
    BuildSummary(d.content, Some(RefOf(id, d)))
  }

  function JobError(x: Job, code: string, now: Time): ProcessingError {
    ProcessingError(code, x.snap.attempts, now)
  }

  /** A settling CAS that matched nothing: drop the result. */
  ghost function DropResultStep(s: State, j: JobId): State
    requires j in s.actors.jobs
  {
    s.(actors := PutJob(s, j, AckEntry))
  }

  ghost function Settled(audit: Audit, id: DocId, j: JobId): Audit {
    audit.(history := audit.history.(settledBy := audit.history.settledBy[id := j]))
  }

  ghost function CompleteStep(s: State, j: JobId): State
    requires j in s.actors.jobs && s.actors.jobs[j].doc in s.docs
  {
    var x := s.actors.jobs[j];
    s.(docs := s.docs[x.doc := CompleteDoc(s.docs[x.doc], Summarized(x.doc, x.snap), s.now)],
       actors := PutJob(s, j, StoreSummary(Summarized(x.doc, x.snap))),
       audit := Settled(s.audit, x.doc, j))
  }

  ghost function FailStep(s: State, j: JobId, code: string): State
    requires j in s.actors.jobs && s.actors.jobs[j].doc in s.docs
  {
    var x := s.actors.jobs[j];
    s.(docs := s.docs[x.doc := FailDoc(s.docs[x.doc], JobError(x, code, s.now), s.now)],
       actors := PutJob(s, j, FreeSlot),
       audit := Settled(s.audit, x.doc, j))
  }

  ghost function Retried(audit: Audit, id: DocId, epoch: nat): Audit {
    audit.(history := audit.history.(retried := audit.history.retried[id := Get(audit.history.retried, id, {}) + {epoch}]))
  }

  ghost function RetryStep(s: State, j: JobId, code: string, delay: real): State
    requires j in s.actors.jobs && s.actors.jobs[j].doc in s.docs
  {
    var x := s.actors.jobs[j];
    s.(docs := s.docs[x.doc := RetryDoc(s.docs[x.doc], JobError(x, code, s.now), s.now + delay, s.now)],
       actors := PutJob(s, j, EnterDelay(delay)),
       audit := Retried(s.audit, x.doc, x.epoch))
  }

  ghost function StoreSummaryStep(s: State, j: JobId, reply: Reply): State
    requires j in s.actors.jobs && s.actors.jobs[j].pc.StoreSummary?
  {
    var x := s.actors.jobs[j];
    s.(actors := PutJob(s, j, FreeSlot),
       redis := if reply.Took() then s.redis.(cache := s.redis.cache[KeyOf(x.snap) := x.pc.summary]) else s.redis)
  }

  ghost function FreeSlotStep(s: State, j: JobId, reply: Reply): State
    requires j in s.actors.jobs
  {
    var x := s.actors.jobs[j];
    var h := s.audit.history;
    s.(actors := PutJob(s, j, FreeGuard),
       redis := ReleaseSlot(s.redis, x.snap.user, reply),
       audit := AddLost(s.audit.(history := h.(slotFreed := h.slotFreed + {x.doc})),
                        x.snap.user, Unreleased(s.redis, x.snap.user, reply)))
  }

  ghost function FreeGuardStep(s: State, j: JobId, reply: Reply): State
    requires j in s.actors.jobs
  {
    var x := s.actors.jobs[j];
    var h := s.audit.history;
    s.(actors := PutJob(s, j, AckEntry),
       redis := DeleteGuard(s.redis, KeyOf(x.snap), reply),
       audit := s.audit.(history := h.(guardFreed := h.guardFreed + {x.doc})))
  }

  ghost function EnterDelayStep(s: State, j: JobId, reply: Reply): State
    requires j in s.actors.jobs && s.actors.jobs[j].pc.EnterDelay?
  {
    var x := s.actors.jobs[j];
    s.(actors := PutJob(s, j, AckEntry),
       redis := if reply.Took() then s.redis.(zset := s.redis.zset[x.doc := s.now + x.pc.delay]) else s.redis,
       audit := if reply.Took() then s.audit else Orphan(s.audit, {x.doc}))
  }

  ghost function AckEntryStep(s: State, j: JobId): State
    requires j in s.actors.jobs && s.actors.jobs[j].worker in s.actors.workers
  {
    var x := s.actors.jobs[j];
    var k := s.actors.workers[x.worker];
    s.(actors := s.actors.(jobs := s.actors.jobs - {j},
                           workers := s.actors.workers[x.worker := k.(permits := k.permits + 1)]),
       redis := s.redis.(pel := s.redis.pel - {x.entry}))
  }

  /** The job of a dead process is gone; `audit` notes what it left undone. */
  ghost function ReapStep(s: State, j: JobId): State
    requires j in s.actors.jobs
  {
    var x := s.actors.jobs[j];
    s.(actors := s.actors.(jobs := s.actors.jobs - {j}),
       audit := if x.pc.OwesSlot() then AddLost(s.audit, x.snap.user, 1)
                else if x.pc.EnterDelay? then Orphan(s.audit, {x.doc})
                else s.audit)
  }

  ghost function WorkNext(s: State, j: JobId, a: WorkStep): State
    requires WorkEnabled(s, j, a)
  {
    match a
    case DoReread => RereadStep(s, j)
    case DoStart => StartStep(s, j)
    case DoComplete => if JobOwns(s, j) then CompleteStep(s, j) else DropResultStep(s, j)
    case DoRetry(code, delay) => if JobOwns(s, j) then RetryStep(s, j, code, delay) else DropResultStep(s, j)
    case DoFail(code, _) => if JobOwns(s, j) then FailStep(s, j, code) else DropResultStep(s, j)
    case DoAbort => DropResultStep(s, j)
  }

  ghost function SettleNext(s: State, j: JobId, a: SettleStep): State
    requires SettleEnabled(s, j, a)
  {
    match a
    case DoStoreSummary(reply) => StoreSummaryStep(s, j, reply)
    case DoFreeSlot(reply) => FreeSlotStep(s, j, reply)
    case DoFreeGuard(reply) => FreeGuardStep(s, j, reply)
    case DoEnterDelay(reply) => EnterDelayStep(s, j, reply)
    case DoAckEntry => AckEntryStep(s, j)
    case DoReap => ReapStep(s, j)
  }

  /** The filter of the job's settling CAS. */
  ghost predicate JobOwns(s: State, j: JobId) {
    j in s.actors.jobs && Owns(s.docs, s.actors.jobs[j].doc, s.actors.jobs[j].worker)
  }

  // ---------------------------------------------------------------------
  // Sweepers
  // ---------------------------------------------------------------------

  datatype SweepStep =
    | DoFindExpired(ids: seq<DocId>)
    | DoResetRow
    | DoPopDelayed(due: seq<DocId>, reply: Reply)
    | DoFindStale(ids: seq<DocId>)
    | DoPublishId(reply: Reply)
    | DoSweepReap

  ghost predicate SweepEnabled(s: State, w: SweepId, a: SweepStep) {
    w in s.actors.sweeps &&
    var x := s.actors.sweeps[w];
    (a.DoSweepReap? <==> x.worker !in s.actors.workers) &&
    match a
    case DoFindExpired(ids) => x.pc.FindExpired? && IsCursor(ids, ExpiredIds(s.docs, s.now), SCAN_LIMIT)
    case DoResetRow => x.pc.ResetRows?
    case DoPopDelayed(due, _) => x.pc.PopDelayed? && IsLowestDue(due, s.redis.zset, s.now, SCAN_LIMIT)
    case DoFindStale(ids) =>
      x.pc.FindStale? && IsCursor(ids, StaleIds(s.docs, s.now - s.cfg.staleQueued, s.now), SCAN_LIMIT)
    case DoPublishId(_) => x.pc.PublishIds?
    case DoSweepReap => true
  }

  ghost function PutSweep(s: State, w: SweepId, pc: SweepPc): Actors
    requires w in s.actors.sweeps
  {
    s.actors.(sweeps := s.actors.sweeps[w := s.actors.sweeps[w].(pc := pc)])
  }

  ghost function DropSweep(s: State, w: SweepId): Actors {
    s.actors.(sweeps := s.actors.sweeps - {w})
  }

  /** Only the sweep `w` moved, or ended. */
  ghost predicate MovesSweep(s: State, t: Actors, w: SweepId) {
    w in s.actors.sweeps && (t == DropSweep(s, w) || exists pc :: t == PutSweep(s, w, pc))
  }

  /** Documents this sweeper took out of circulation and still has to publish. */
  function Owed(pc: SweepPc): set<DocId> {
    if pc.ResetRows? then RowSet(pc.done)
    else if pc.PublishIds? && !pc.stage.Restaled? then RowSet(pc.ids)
    else {}
  }

  ghost predicate AllLeased(docs: Docs, ids: seq<DocId>) {
    forall id :: id in ids ==> id in docs && docs[id].leaseExpiresAt.Some?
  }

  ghost function RowsFor(docs: Docs, ids: seq<DocId>): seq<Row>
    requires AllLeased(docs, ids)
  {
    seq(|ids|, i requires 0 <= i < |ids| =>
      Row(ids[i], docs[ids[i]].leaseExpiresAt.value, docs[ids[i]].attempts))
  }

  ghost function FindExpiredStep(s: State, w: SweepId, ids: seq<DocId>): State
    requires w in s.actors.sweeps && AllLeased(s.docs, ids)
  {
    s.(actors := PutSweep(s, w, ResetRows(RowsFor(s.docs, ids), s.now, [])))
  }

  ghost function RowsDoneStep(s: State, w: SweepId): State
    requires w in s.actors.sweeps && s.actors.sweeps[w].pc.ResetRows?
  {
    s.(actors := PutSweep(s, w, PublishIds(s.actors.sweeps[w].pc.done, Reclaimed)))
  }

  /** The CAS on the lease value seen by the scan. */
  ghost function ResetRowStep(s: State, w: SweepId): State
    requires w in s.actors.sweeps && s.actors.sweeps[w].pc.ResetRows? && s.actors.sweeps[w].pc.rows != []
    requires s.actors.sweeps[w].pc.rows[0].id in s.docs
  {
    var pc := s.actors.sweeps[w].pc;
    var id := pc.rows[0].id;
    var h := s.audit.history;
    s.(actors := PutSweep(s, w, ResetRows(pc.rows[1..], pc.foundAt, pc.done + [id])),
       docs := s.docs[id := ReclaimDoc(s.docs[id], pc.foundAt)],
       audit := s.audit.(history := h.(reclaims := Bump(h.reclaims, id, 1))))
  }

  ghost function SkipRowStep(s: State, w: SweepId): State
    requires w in s.actors.sweeps && s.actors.sweeps[w].pc.ResetRows? && s.actors.sweeps[w].pc.rows != []
  {
    var pc := s.actors.sweeps[w].pc;
    s.(actors := PutSweep(s, w, ResetRows(pc.rows[1..], pc.foundAt, pc.done)))
  }

  ghost function PopDelayedStep(s: State, w: SweepId, due: seq<DocId>, reply: Reply): State
    requires w in s.actors.sweeps
  {
    s.(actors := PutSweep(s, w, if reply.Answered? then PublishIds(due, Promoted) else FindStale),
       redis := if reply.Took() then s.redis.(zset := s.redis.zset - RowSet(due)) else s.redis,
       audit := if reply.AnswerLost? then Orphan(s.audit, RowSet(due)) else s.audit)
  }

  ghost function FindStaleStep(s: State, w: SweepId, ids: seq<DocId>): State
    requires w in s.actors.sweeps
  {
    s.(actors := PutSweep(s, w, PublishIds(ids, Restaled)))
  }

  ghost function NextStageStep(s: State, w: SweepId): State
    requires w in s.actors.sweeps && s.actors.sweeps[w].pc.PublishIds?
  {
    var stage := s.actors.sweeps[w].pc.stage;
    s.(actors := if stage.Restaled? then DropSweep(s, w)
                 else PutSweep(s, w, if stage.Reclaimed? then PopDelayed else FindStale))
  }

  /** What a failed publish leaves undone: the rest of the list, and the id
      itself unless only the answer was lost. */
  function Unpublished(pc: SweepPc, reply: Reply): set<DocId>
    requires pc.PublishIds? && pc.ids != []
  {
    Owed(if reply.Took() then pc.(ids := pc.ids[1..]) else pc)
  }

  /** A failed publish aborts the pass. */
  ghost function PublishIdStep(s: State, w: SweepId, reply: Reply): State
    requires w in s.actors.sweeps && s.actors.sweeps[w].pc.PublishIds? && s.actors.sweeps[w].pc.ids != []
  {
    var pc := s.actors.sweeps[w].pc;
    s.(actors := if reply.Answered? then PutSweep(s, w, PublishIds(pc.ids[1..], pc.stage)) else DropSweep(s, w),
       redis := Publish(s.redis, pc.ids[0], reply),
       audit := if reply.Answered? then s.audit else Orphan(s.audit, Unpublished(pc, reply)))
  }

  ghost function SweepReapStep(s: State, w: SweepId): State
    requires w in s.actors.sweeps
  {
    s.(actors := DropSweep(s, w), audit := Orphan(s.audit, Owed(s.actors.sweeps[w].pc)))
  }

  /** The next row's CAS matches. */
  ghost predicate RowMatches(s: State, w: SweepId) {
    && w in s.actors.sweeps && s.actors.sweeps[w].pc.ResetRows? && s.actors.sweeps[w].pc.rows != []
    && HoldsLease(s.docs, s.actors.sweeps[w].pc.rows[0].id, s.actors.sweeps[w].pc.rows[0].lease)
  }

  lemma ExpiredAreLeased(docs: Docs, now: Time, ids: seq<DocId>, limit: nat)
    requires IsCursor(ids, ExpiredIds(docs, now), limit)
    ensures AllLeased(docs, ids)
  {
    forall id | id in ids ensures id in docs && docs[id].leaseExpiresAt.Some? {
      assert id in ExpiredIds(docs, now);
    }
  }

  ghost function SweepNext(s: State, w: SweepId, a: SweepStep): State
    requires SweepEnabled(s, w, a)
  {
    match a
    case DoFindExpired(ids) =>
      ExpiredAreLeased(s.docs, s.now, ids, SCAN_LIMIT);
      FindExpiredStep(s, w, ids)
    case DoResetRow =>
      if s.actors.sweeps[w].pc.rows == [] then RowsDoneStep(s, w)
      else if RowMatches(s, w) then ResetRowStep(s, w)
      else SkipRowStep(s, w)
    case DoPopDelayed(due, reply) => PopDelayedStep(s, w, due, reply)
    case DoFindStale(ids) => FindStaleStep(s, w, ids)
    case DoPublishId(reply) =>
      if s.actors.sweeps[w].pc.ids == [] then NextStageStep(s, w) else PublishIdStep(s, w, reply)
    case DoSweepReap => SweepReapStep(s, w)
  }

  // ---------------------------------------------------------------------
  // Reconcile runs
  // ---------------------------------------------------------------------

  /** `wrote` is whether the `GET` that came first saw another value; other
      actors may have moved the counter since. */
  datatype ReconStep =
    | DoSetCounter(user: UserId, wrote: bool)
    | DoDropCounter(user: UserId)
    | DoEndRecon

  ghost predicate ReconEnabled(s: State, r: ReconId, a: ReconStep) {
    r in s.actors.recons &&
    var x := s.actors.recons[r];
    match a
    case DoSetCounter(user, _) => x.worker in s.actors.workers && user in x.todo && user in x.truth
    case DoDropCounter(user) => x.worker in s.actors.workers && x.todo == {} && LastSegment(user) !in x.truth
    case DoEndRecon => true
  }

  /** A write that is no acquire or release: what it erases is surplus, what
      it adds is lost. */
  ghost function Overwrite(audit: Audit, user: UserId, before: nat, after: nat): Audit {
    if after <= before then AddSurplus(audit, user, before - after)
    else
      var audit' := AddLost(audit, user, after - before);
      audit'.(ledger := audit'.ledger.(raised := Bump(audit.ledger.raised, user, after - before)))
  }

  ghost function SetCounterStep(s: State, r: ReconId, user: UserId, wrote: bool): State
    requires r in s.actors.recons && user in s.actors.recons[r].truth
  {
    var x := s.actors.recons[r];
    var s' := s.(actors := s.actors.(recons := s.actors.recons[r := x.(todo := x.todo - {user})]));
    if wrote then s'.(redis := s.redis.(counters := s.redis.counters[user := x.truth[user]]),
                      audit := Overwrite(s.audit, user, Get(s.redis.counters, user, 0), x.truth[user]))
    else s'
  }

  ghost function DropCounterStep(s: State, user: UserId): State {
    s.(redis := s.redis.(counters := s.redis.counters - {user}),
       audit := Overwrite(s.audit, user, Get(s.redis.counters, user, 0), 0))
  }

  ghost function ReconNext(s: State, r: ReconId, a: ReconStep): State
    requires ReconEnabled(s, r, a)
  {
    match a
    case DoSetCounter(user, wrote) => SetCounterStep(s, r, user, wrote)
    case DoDropCounter(user) => DropCounterStep(s, user)
    case DoEndRecon => s.(actors := s.actors.(recons := s.actors.recons - {r}))
  }

  // ---------------------------------------------------------------------
  // The environment
  // ---------------------------------------------------------------------

  datatype EnvStep =
    | Tick(dt: real)
    | NewSubmit(user: UserId, title: string, content: string)
    | BootWorker
    | StartSweep(worker: WorkerId)
    | StartRecon(worker: WorkerId)
    | KillWorker(worker: WorkerId)
    | ExpireGuard(key: Key)
    | ExpireCounter(user: UserId)
    | EvictSummary(key: Key)
    | LoseQueue

  ghost predicate EnvEnabled(s: State, a: EnvStep) {
    match a
    case Tick(dt) => dt > 0.0
    case NewSubmit(_, _, _) => true
    case BootWorker => true
    case StartSweep(w) => w in s.actors.workers
    case StartRecon(w) => w in s.actors.workers
    case KillWorker(w) => w in s.actors.workers
    case ExpireGuard(key) => true
    case ExpireCounter(user) => true
    case EvictSummary(key) => true
    case LoseQueue => true
  }

  ghost predicate SubmitClaims(submits: map<SubmitId, Submit>, sid: SubmitId, key: Key) {
    sid in submits && SubmitKey(submits[sid]) == key && submits[sid].pc.HoldsGuard()
  }

  ghost predicate DocClaims(docs: Docs, id: DocId, key: Key) {
    id in docs && KeyOf(docs[id]) == key && docs[id].status.Active()
  }

  ghost predicate JobClaims(jobs: map<JobId, Job>, j: JobId, key: Key) {
    j in jobs && KeyOf(jobs[j].snap) == key && jobs[j].pc.OwesGuard()
  }

  /** Somebody still relies on the guard of this key. */
  ghost predicate InUse(s: State, key: Key) {
    || (exists sid :: SubmitClaims(s.actors.submits, sid, key))
    || (exists id :: DocClaims(s.docs, id, key))
    || (exists j :: JobClaims(s.actors.jobs, j, key))
  }

  ghost function NewSubmitStep(s: State, user: UserId, title: string, content: string): State {
    s.(actors := s.actors.(submits := s.actors.submits[s.nextId := Submit(user, title, content, HashContent(content), ReadCache)]),
       nextId := s.nextId + 1)
  }

  ghost function BootWorkerStep(s: State): State {
    s.(actors := PutWorker(s, s.nextId, Worker(s.cfg.concurrency, 0, [], Pull)), nextId := s.nextId + 1)
  }

  ghost function StartSweepStep(s: State, w: WorkerId): State {
    s.(actors := s.actors.(sweeps := s.actors.sweeps[s.nextId := Sweep(w, FindExpired)]), nextId := s.nextId + 1)
  }

  ghost function StartReconStep(s: State, w: WorkerId): State {
    var truth := ActiveCounts(s.docs);
    s.(actors := s.actors.(recons := s.actors.recons[s.nextId := Recon(w, truth, truth.Keys)]), nextId := s.nextId + 1)
  }

  ghost function ExpireGuardStep(s: State, key: Key): State {
    s.(redis := s.redis.(guards := s.redis.guards - {key}),
       audit := if InUse(s, key) then Taint(s.audit, key) else s.audit)
  }

  ghost function LoseQueueStep(s: State): State {
    s.(redis := s.redis.(delivered := |s.redis.log|, pel := map[], zset := map[]),
       audit := Orphan(s.audit, s.docs.Keys))
  }

  ghost function EnvNext(s: State, a: EnvStep): State
    requires EnvEnabled(s, a)
  {
    match a
    case Tick(dt) => s.(now := s.now + dt)
    case NewSubmit(user, title, content) => NewSubmitStep(s, user, title, content)
    case BootWorker => BootWorkerStep(s)
    case StartSweep(w) => StartSweepStep(s, w)
    case StartRecon(w) => StartReconStep(s, w)
    case KillWorker(w) => s.(actors := s.actors.(workers := s.actors.workers - {w}))
    case ExpireGuard(key) => ExpireGuardStep(s, key)
    case ExpireCounter(user) => DropCounterStep(s, user)
    case EvictSummary(key) => s.(redis := s.redis.(cache := s.redis.cache - {key}))
    case LoseQueue => LoseQueueStep(s)
  }

  // ---------------------------------------------------------------------
  // Runs
  // ---------------------------------------------------------------------

  datatype Action =
    | OfLookup(sid: SubmitId, lookup: LookupStep)
    | OfEnqueue(sid: SubmitId, enqueue: EnqueueStep)
    | OfWorker(wid: WorkerId, consume: WorkerStep)
    | OfWork(jid: JobId, work: WorkStep)
    | OfSettle(jid: JobId, settle: SettleStep)
    | OfSweep(swid: SweepId, sweep: SweepStep)
    | OfRecon(rid: ReconId, recon: ReconStep)
    | OfEnv(env: EnvStep)

  ghost predicate Enabled(s: State, a: Action) {
    match a
    case OfLookup(sid, step) => LookupEnabled(s, sid, step)
    case OfEnqueue(sid, step) => EnqueueEnabled(s, sid, step)
    case OfWorker(w, step) => WorkerEnabled(s, w, step)
    case OfWork(j, step) => WorkEnabled(s, j, step)
    case OfSettle(j, step) => SettleEnabled(s, j, step)
    case OfSweep(w, step) => SweepEnabled(s, w, step)
    case OfRecon(r, step) => ReconEnabled(s, r, step)
    case OfEnv(step) => EnvEnabled(s, step)
  }

  ghost function Next(s: State, a: Action): State
    requires Enabled(s, a)
  {
    match a
    case OfLookup(sid, step) => LookupNext(s, sid, step)
    case OfEnqueue(sid, step) => EnqueueNext(s, sid, step)
    case OfWorker(w, step) => WorkerNext(s, w, step)
    case OfWork(j, step) => WorkNext(s, j, step)
    case OfSettle(j, step) => SettleNext(s, j, step)
    case OfSweep(w, step) => SweepNext(s, w, step)
    case OfRecon(r, step) => ReconNext(s, r, step)
    case OfEnv(step) => EnvNext(s, step)
  }

  ghost predicate Init(s: State) {
    && s.cfg.Valid() && s.nextId == 0 && s.docs == map[]
    && s.redis == Redis(map[], map[], map[], [], 0, map[], map[])
    && s.actors == Actors(map[], map[], map[], map[], map[])
    && s.audit == Audit(map[], Ledger(map[], map[], map[]), History(map[], map[], map[], {}, {}), {}, {})
  }

  /** Every action of the sequence is enabled when its turn comes. */
  ghost predicate Legal(s: State, acts: seq<Action>)
    decreases |acts|
  {
    acts == [] || (Enabled(s, acts[0]) && Legal(Next(s, acts[0]), acts[1..]))
  }

  ghost function Exec(s: State, acts: seq<Action>): State
    requires Legal(s, acts)
    decreases |acts|
  {
    if acts == [] then s else Exec(Next(s, acts[0]), acts[1..])
  }
}
