/** Well-formedness of reachable states: ids are minted once, references
    resolve, and every record is internally consistent. */
module References {
  import opened Text
  import opened Types
  import opened Decorators
  import opened Repository
  import opened Cache
  import opened Queue
  import opened Protocol

  // ---------------------------------------------------------------------
  // Records
  // ---------------------------------------------------------------------

  /** What every stored record satisfies: ownership fields go together, the
      summary marks completion, and a retry is never due later than
      `retryMax` after the last touch. */
  ghost predicate DocOk(cfg: Settings, now: Time, d: Doc) {
    && (d.status.Processing? <==> d.workerId.Some?)
    && (d.status.Processing? <==> d.leaseExpiresAt.Some?)
    && (d.status.Completed? <==> d.summary.Some?)
    && (d.status.Processing? ==> d.leaseExpiresAt == Some(d.updatedAt + cfg.lease) && d.attempts >= 1)
    && (d.fromCache ==> d.status.Completed? && d.attempts == 0)
    && d.updatedAt <= now
    && (d.nextAttemptAt.Some? ==> d.nextAttemptAt.value <= d.updatedAt + cfg.retryMax)
  }

  ghost predicate DocsOk(cfg: Settings, now: Time, nextId: nat, docs: Docs) {
    forall id :: id in docs ==> id < nextId && DocOk(cfg, now, docs[id])
  }

  /** The fields no update touches. */
  predicate SameIdentity(a: Doc, b: Doc) {
    && a.user == b.user && a.title == b.title && a.content == b.content && a.hash == b.hash
    && a.createdAt == b.createdAt && a.fromCache == b.fromCache
  }

  /** One step seen on one record: identity stays, attempts never drop, and a
      record that is processing afterwards was left alone or claimed just now. */
  ghost predicate DocStep(a: Doc, b: Doc, now: Time) {
    && SameIdentity(a, b) && a.attempts <= b.attempts
    && (b == a || !b.status.Processing? || b.updatedAt == now)
  }

  /** Records are never removed. */
  ghost predicate Grows(a: Docs, b: Docs, now: Time) {
    forall id :: id in a ==> id in b && DocStep(a[id], b[id], now)
  }

  // ---------------------------------------------------------------------
  // Actors
  // ---------------------------------------------------------------------

  /** A record that was enqueued for processing. */
  ghost predicate IsWork(docs: Docs, id: DocId) {
    id in docs && !docs[id].fromCache
  }

  ghost predicate AllWork(docs: Docs, ids: seq<DocId>) {
    forall id :: id in ids ==> IsWork(docs, id)
  }

  type Mints = map<DocId, Mint>

  /** Every id was minted by one submission, whose key its record carries. */
  ghost predicate MintsOk(nextId: nat, docs: Docs, minted: Mints) {
    && (forall id :: id in minted ==> id < nextId)
    && (forall id :: id in docs ==> (id in minted <==> !docs[id].fromCache))
    && (forall id :: id in docs && id in minted ==> KeyOf(docs[id]) == minted[id].key)
  }

  ghost predicate GuardOk(guards: map<Key, DocId>, minted: Mints, key: Key) {
    key in guards ==> guards[key] in minted && minted[guards[key]].key == key
  }

  ghost predicate GuardsOk(guards: map<Key, DocId>, minted: Mints) {
    forall key :: key in guards ==> GuardOk(guards, minted, key)
  }

  ghost predicate SubmitOk(sid: SubmitId, x: Submit, nextId: nat, docs: Docs, minted: Mints) {
    && sid < nextId
    && (x.pc.HasId() ==> x.pc.id in minted && minted[x.pc.id] == Mint(sid, SubmitKey(x)))
    && (x.pc.PublishNew? ==> IsWork(docs, x.pc.id))
    && (x.pc.SetGuard? || x.pc.ReadGuard? || x.pc.TakeSlot? || x.pc.CountActive? || x.pc.InsertNew?
        ==> x.pc.id !in docs)
    && (x.pc.Join? ==> x.pc.other in minted && minted[x.pc.other].key == SubmitKey(x))
  }

  ghost predicate SubmitsOk(submits: map<SubmitId, Submit>, nextId: nat, docs: Docs, minted: Mints) {
    forall sid :: sid in submits ==> SubmitOk(sid, submits[sid], nextId, docs, minted)
  }

  ghost predicate JobOk(j: JobId, x: Job, nextId: nat, docs: Docs, read: nat) {
    && j < nextId && x.worker < nextId && x.entry < read
    && IsWork(docs, x.doc) && SameIdentity(x.snap, docs[x.doc])
    && 1 <= x.epoch <= x.snap.attempts <= docs[x.doc].attempts
    && (x.pc.StoreSummary? ==> x.pc.summary == Summarized(x.doc, x.snap))
  }

  ghost predicate JobsOk(jobs: map<JobId, Job>, nextId: nat, docs: Docs, read: nat) {
    forall j :: j in jobs ==> JobOk(j, jobs[j], nextId, docs, read)
  }

  ghost predicate RowOk(row: Row, foundAt: Time, docs: Docs) {
    && IsWork(docs, row.id) && row.lease < foundAt
    && row.epoch <= docs[row.id].attempts
    && (docs[row.id].status.Processing? && row.epoch < docs[row.id].attempts
        ==> foundAt <= docs[row.id].updatedAt)
  }

  ghost predicate SweepOk(w: SweepId, x: Sweep, nextId: nat, docs: Docs, now: Time) {
    && w < nextId && x.worker < nextId
    && (x.pc.ResetRows? ==>
          && x.pc.foundAt <= now && AllWork(docs, x.pc.done)
          && forall row :: row in x.pc.rows ==> RowOk(row, x.pc.foundAt, docs))
    && (x.pc.PublishIds? ==> AllWork(docs, x.pc.ids))
  }

  ghost predicate SweepsOk(sweeps: map<SweepId, Sweep>, nextId: nat, docs: Docs, now: Time) {
    forall w :: w in sweeps ==> SweepOk(w, sweeps[w], nextId, docs, now)
  }

  ghost predicate BatchOk(batch: seq<EntryId>, read: nat) {
    forall i :: 0 <= i < |batch| ==> batch[i] < read
  }

  /** All a worker holds was delivered, and it asks for more only when its
      batch is used up. */
  ghost predicate WorkerOk(k: Worker, read: nat) {
    && BatchOk(k.batch, read) && (k.pc.AckLost? ==> k.pc.entry < read)
    && (k.pc.Recover? || k.pc.ReadStream? ==> k.batch == [])
  }

  ghost predicate WorkersOk(workers: map<WorkerId, Worker>, nextId: nat, read: nat) {
    forall w :: w in workers ==> w < nextId && WorkerOk(workers[w], read)
  }

  ghost predicate PelOk(redis: Redis) {
    forall e :: e in redis.pel ==> e < redis.delivered
  }

  ghost predicate QueueOk(redis: Redis, docs: Docs) {
    && redis.delivered <= |redis.log|
    && AllWork(docs, redis.log)
    && PelOk(redis)
    && (forall id :: id in redis.zset ==> IsWork(docs, id))
  }

  ghost predicate Coherent(s: State) {
    && s.cfg.Valid()
    && DocsOk(s.cfg, s.now, s.nextId, s.docs)
    && MintsOk(s.nextId, s.docs, s.audit.minted)
    && GuardsOk(s.redis.guards, s.audit.minted)
    && QueueOk(s.redis, s.docs)
    && SubmitsOk(s.actors.submits, s.nextId, s.docs, s.audit.minted)
    && JobsOk(s.actors.jobs, s.nextId, s.docs, s.redis.delivered)
    && SweepsOk(s.actors.sweeps, s.nextId, s.docs, s.now)
    && WorkersOk(s.actors.workers, s.nextId, s.redis.delivered)
  }

  // ---------------------------------------------------------------------
  // Unchanged actors stay well-formed while the rest moves on
  // ---------------------------------------------------------------------

  lemma JobsOkGrow(jobs: map<JobId, Job>, n: nat, docs: Docs, l: nat, n': nat, docs': Docs, l': nat, now: Time)
    requires JobsOk(jobs, n, docs, l) && Grows(docs, docs', now) && n <= n' && l <= l'
    ensures JobsOk(jobs, n', docs', l')
  {}

  lemma SweepsOkGrow(sweeps: map<SweepId, Sweep>, n: nat, docs: Docs, now: Time, n': nat, docs': Docs, now': Time)
    requires SweepsOk(sweeps, n, docs, now) && Grows(docs, docs', now) && n <= n' && now <= now'
    ensures SweepsOk(sweeps, n', docs', now')
  {}

  lemma WorkersOkGrow(workers: map<WorkerId, Worker>, n: nat, l: nat, n': nat, l': nat)
    requires WorkersOk(workers, n, l) && n <= n' && l <= l'
    ensures WorkersOk(workers, n', l')
  {}

  /** Only a known document is ever published. */
  lemma PublishKeeps(redis: Redis, redis': Redis, docs: Docs, id: DocId)
    requires QueueOk(redis, docs) && IsWork(docs, id)
    requires redis'.log == redis.log || redis'.log == redis.log + [id]
    requires redis'.delivered == redis.delivered && redis'.pel == redis.pel && redis'.zset == redis.zset
    ensures QueueOk(redis', docs)
  {}

  lemma QueueOkGrows(redis: Redis, docs: Docs, docs': Docs, now: Time)
    requires QueueOk(redis, docs) && Grows(docs, docs', now)
    ensures QueueOk(redis, docs')
  {}

  /** Submissions see existing records change, but none appear. */
  lemma SubmitsOkGrow(submits: map<SubmitId, Submit>, n: nat, docs: Docs, minted: Mints, n': nat, docs': Docs, now: Time)
    requires SubmitsOk(submits, n, docs, minted) && Grows(docs, docs', now) && docs'.Keys == docs.Keys && n <= n'
    ensures SubmitsOk(submits, n', docs', minted)
  {}

  /** One record rewritten in place. */
  lemma UpdateKeeps(cfg: Settings, now: Time, n: nat, docs: Docs, minted: Mints, id: DocId, d: Doc)
    requires DocsOk(cfg, now, n, docs) && MintsOk(n, docs, minted)
    requires id in docs && DocOk(cfg, now, d) && DocStep(docs[id], d, now)
    ensures DocsOk(cfg, now, n, docs[id := d]) && MintsOk(n, docs[id := d], minted)
    ensures Grows(docs, docs[id := d], now) && docs[id := d].Keys == docs.Keys
  {}

  /** Ids, keys and records only ever get more. */
  lemma TimePasses(cfg: Settings, now: Time, n: nat, docs: Docs, minted: Mints, now': Time, n': nat)
    requires DocsOk(cfg, now, n, docs) && MintsOk(n, docs, minted) && now <= now' && n <= n'
    ensures DocsOk(cfg, now', n', docs) && MintsOk(n', docs, minted)
  {}

  lemma JobsOkPut(jobs: map<JobId, Job>, n: nat, docs: Docs, l: nat, j: JobId, x: Job)
    requires JobsOk(jobs, n, docs, l) && JobOk(j, x, n, docs, l)
    ensures JobsOk(jobs[j := x], n, docs, l)
  {}

  lemma WorkersOkPut(workers: map<WorkerId, Worker>, n: nat, l: nat, w: WorkerId, k: Worker)
    requires WorkersOk(workers, n, l) && w < n && WorkerOk(k, l)
    ensures WorkersOk(workers[w := k], n, l)
  {}

  lemma SweepsOkPut(sweeps: map<SweepId, Sweep>, n: nat, docs: Docs, now: Time, w: SweepId, x: Sweep)
    requires SweepsOk(sweeps, n, docs, now) && SweepOk(w, x, n, docs, now)
    ensures SweepsOk(sweeps[w := x], n, docs, now)
  {}

  /** What a step leaves alone stays well-formed. */
  lemma OthersGrow(s: State, t: State)
    requires Coherent(s) && Grows(s.docs, t.docs, s.now)
    requires s.now <= t.now && s.nextId <= t.nextId && s.redis.delivered <= t.redis.delivered
    ensures JobsOk(s.actors.jobs, t.nextId, t.docs, t.redis.delivered)
    ensures SweepsOk(s.actors.sweeps, t.nextId, t.docs, t.now)
    ensures WorkersOk(s.actors.workers, t.nextId, t.redis.delivered)
    ensures QueueOk(s.redis, t.docs)
  {
    JobsOkGrow(s.actors.jobs, s.nextId, s.docs, s.redis.delivered, t.nextId, t.docs, t.redis.delivered, s.now);
    SweepsOkGrow(s.actors.sweeps, s.nextId, s.docs, s.now, t.nextId, t.docs, t.now);
    WorkersOkGrow(s.actors.workers, s.nextId, s.redis.delivered, t.nextId, t.redis.delivered);
    QueueOkGrows(s.redis, s.docs, t.docs, s.now);
  }
}
