/** No document is stuck. From every reachable state each active document has
    a finite continuation, in which nothing further crashes or fails, at whose
    end it is completed. */
module Recovery {
  import opened Types
  import opened Repository
  import opened Queue
  import opened Protocol
  import opened References
  import opened ReferencesKept
  import opened Settlement
  import opened Tokens

  // ---------------------------------------------------------------------
  // Continuations
  // ---------------------------------------------------------------------

  /** No process dies, no command fails, nothing expires, is evicted or
      reconciled. */
  predicate Benign(a: Action) {
    match a
    case OfLookup(_, DoReadCache(up)) => up
    case OfLookup(_, DoFillCache(reply)) => reply.Answered?
    case OfLookup(_, DoSetGuard(reply)) => reply.Answered?
    case OfLookup(_, DoReadGuard(up)) => up
    case OfEnqueue(_, DoTakeSlot(reply)) => reply.Answered?
    case OfEnqueue(_, DoInsertNew(reply)) => reply.Answered?
    case OfEnqueue(_, DoPublishNew(reply)) => reply.Answered?
    case OfEnqueue(_, DoGiveSlotBack(reply)) => reply.Answered?
    case OfEnqueue(_, DoGiveGuardBack(reply)) => reply.Answered?
    case OfEnqueue(_, SubmitDies) => false
    case OfWorker(_, DoRecover(_, reply)) => reply.Answered?
    case OfWorker(_, DoReadStream(reply)) => reply.Answered?
    case OfWork(_, DoAbort) => false
    case OfSettle(_, DoStoreSummary(reply)) => reply.Answered?
    case OfSettle(_, DoFreeSlot(reply)) => reply.Answered?
    case OfSettle(_, DoFreeGuard(reply)) => reply.Answered?
    case OfSettle(_, DoEnterDelay(reply)) => reply.Answered?
    case OfSettle(_, DoReap) => false
    case OfSweep(_, DoPopDelayed(_, reply)) => reply.Answered?
    case OfSweep(_, DoPublishId(reply)) => reply.Answered?
    case OfSweep(_, DoSweepReap) => false
    case OfRecon(_, _) => false
    case OfEnv(env) => env.Tick? || env.NewSubmit? || env.BootWorker? || env.StartSweep?
    case _ => true
  }

  predicate AllBenign(acts: seq<Action>) {
    forall a :: a in acts ==> Benign(a)
  }

  ghost predicate Leads(s: State, t: State) {
    exists acts :: Legal(s, acts) && AllBenign(acts) && Exec(s, acts) == t
  }

  lemma StepLeads(s: State, a: Action)
    requires Enabled(s, a) && Benign(a)
    ensures Leads(s, Next(s, a))
  {
    var acts := [a];
    assert acts[1..] == [];
    assert Legal(Next(s, a), acts[1..]) && Exec(Next(s, a), acts[1..]) == Next(s, a);
    assert Legal(s, acts) && AllBenign(acts) && Exec(s, acts) == Next(s, a);
  }

  lemma {:induction false} RunsCompose(s: State, before: seq<Action>, after: seq<Action>)
    requires Legal(s, before) && Legal(Exec(s, before), after)
    ensures Legal(s, before + after) && Exec(s, before + after) == Exec(Exec(s, before), after)
    decreases |before|
  {
    if before == [] {
      assert before + after == after;
    } else {
      var both := before + after;
      RunsCompose(Next(s, before[0]), before[1..], after);
      assert both[0] == before[0] && both[1..] == before[1..] + after;
    }
  }

  lemma LeadsOn(s: State, t: State, u: State)
    requires Leads(s, t) && Leads(t, u)
    ensures Leads(s, u)
  {
    var before :| Legal(s, before) && AllBenign(before) && Exec(s, before) == t;
    var after :| Legal(t, after) && AllBenign(after) && Exec(t, after) == u;
    RunsCompose(s, before, after);
    assert AllBenign(before + after);
  }

  lemma {:induction false} RunKeepsCoherence(s: State, acts: seq<Action>)
    requires Coherent(s) && Legal(s, acts)
    ensures Coherent(Exec(s, acts))
    decreases |acts|
  {
    if acts != [] {
      NextKeepsCoherence(s, acts[0]);
      RunKeepsCoherence(Next(s, acts[0]), acts[1..]);
    }
  }

  lemma StillCoherent(s: State, t: State)
    requires Coherent(s) && Leads(s, t)
    ensures Coherent(t)
  {
    var acts :| Legal(s, acts) && AllBenign(acts) && Exec(s, acts) == t;
    RunKeepsCoherence(s, acts);
  }

  lemma Stay(s: State)
    ensures Leads(s, s)
  {
    var acts: seq<Action> := [];
    assert Legal(s, acts) && AllBenign(acts) && Exec(s, acts) == s;
  }

  lemma Step(s: State, t: State, a: Action)
    requires Leads(s, t) && Enabled(t, a) && Benign(a)
    ensures Leads(s, Next(t, a))
  {
    StepLeads(t, a);
    LeadsOn(s, t, Next(t, a));
  }

  lemma WorkOn(s: State, t: State, j: JobId, a: WorkStep)
    requires Leads(s, t) && WorkEnabled(t, j, a) && Benign(OfWork(j, a))
    ensures Leads(s, WorkNext(t, j, a))
  {
    Step(s, t, OfWork(j, a));
  }

  lemma SettleOn(s: State, t: State, j: JobId, a: SettleStep)
    requires Leads(s, t) && SettleEnabled(t, j, a) && Benign(OfSettle(j, a))
    ensures Leads(s, SettleNext(t, j, a))
  {
    Step(s, t, OfSettle(j, a));
  }

  lemma ConsumeOn(s: State, t: State, w: WorkerId, a: WorkerStep)
    requires Leads(s, t) && WorkerEnabled(t, w, a) && Benign(OfWorker(w, a))
    ensures Leads(s, WorkerNext(t, w, a))
  {
    Step(s, t, OfWorker(w, a));
  }

  lemma SweepOn(s: State, t: State, w: SweepId, a: SweepStep)
    requires Leads(s, t) && SweepEnabled(t, w, a) && Benign(OfSweep(w, a))
    ensures Leads(s, SweepNext(t, w, a))
  {
    Step(s, t, OfSweep(w, a));
  }

  lemma EnvOn(s: State, t: State, a: EnvStep)
    requires Leads(s, t) && EnvEnabled(t, a) && Benign(OfEnv(a))
    ensures Leads(s, EnvNext(t, a))
  {
    Step(s, t, OfEnv(a));
  }

  // ---------------------------------------------------------------------
  // A job runs to its end
  // ---------------------------------------------------------------------

  /** Worker `w` is about to take the next entry of its batch. */
  ghost predicate Pulling(s: State, w: WorkerId, batch: seq<EntryId>) {
    w in s.actors.workers && s.actors.workers[w].pc.Pull? && s.actors.workers[w].batch == batch
    && s.actors.workers[w].permits > 0
  }

  /** The claim `j` of `w` is at `pc`, and the record is still its own. */
  ghost predicate At(s: State, w: WorkerId, j: JobId, pc: JobPc) {
    w in s.actors.workers && j in s.actors.jobs && s.actors.jobs[j].worker == w && s.actors.jobs[j].pc == pc
  }

  lemma JobStarts(s: State, t: State, w: WorkerId, j: JobId) returns (u: State)
    requires Leads(s, t) && At(t, w, j, Reread) && JobOwns(t, j) && t.actors.workers[w].permits > 0
    ensures Leads(s, u) && At(u, w, j, Run) && JobOwns(u, j)
    ensures u.docs == t.docs && u.redis == t.redis && u.actors.jobs[j].doc == t.actors.jobs[j].doc
    ensures u.cfg == t.cfg && u.now == t.now && u.actors.submits == t.actors.submits
    ensures u.actors.jobs[j].snap == t.docs[t.actors.jobs[j].doc] && u.actors.jobs[j].entry == t.actors.jobs[j].entry
    ensures u.actors.jobs[j].epoch == t.actors.jobs[j].epoch && u.audit == t.audit
    ensures u.actors.workers[w] == t.actors.workers[w].(permits := t.actors.workers[w].permits - 1, pc := Pull)
  {
    WorkOn(s, t, j, DoReread);
    u := RereadStep(t, j);
    WorkOn(s, u, j, DoStart);
    u := StartStep(u, j);
  }

  lemma JobCompletes(s: State, t: State, w: WorkerId, j: JobId) returns (u: State)
    requires Leads(s, t) && At(t, w, j, Run) && JobOwns(t, j)
    ensures Leads(s, u) && w in u.actors.workers && j in u.actors.jobs
    ensures u.actors.jobs[j].worker == w && u.actors.jobs[j].pc.StoreSummary? && u.actors.jobs[j].snap == t.actors.jobs[j].snap
    ensures u.actors.jobs[j].entry == t.actors.jobs[j].entry
    ensures u.cfg == t.cfg && u.now == t.now && u.actors.submits == t.actors.submits
    ensures var id := t.actors.jobs[j].doc;
            && id in u.docs && u.docs[id].status.Completed?
            && u.docs == t.docs[id := u.docs[id]] && u.redis == t.redis && u.actors.workers == t.actors.workers
  {
    WorkOn(s, t, j, DoComplete);
    u := CompleteStep(t, j);
  }

  /** Time and the queue stand still. */
  ghost predicate SameQueue(s: State, t: State) {
    t.redis.log == s.redis.log && t.redis.delivered == s.redis.delivered && t.now == s.now && t.cfg == s.cfg
  }

  /** Of the pending list, at most the entries `gone` were acknowledged. */
  ghost predicate StillPending(s: State, t: State, gone: seq<EntryId>) {
    forall e: EntryId :: e in s.redis.pel && e !in gone ==> e in t.redis.pel && t.redis.pel[e].since == s.redis.pel[e].since
  }

  lemma JobFrees(s: State, t: State, w: WorkerId, j: JobId) returns (u: State)
    requires Leads(s, t) && w in t.actors.workers && j in t.actors.jobs
    requires t.actors.jobs[j].worker == w && t.actors.jobs[j].pc.StoreSummary?
    ensures Leads(s, u) && u.docs == t.docs && SameQueue(t, u) && u.actors.workers == t.actors.workers
    ensures j in u.actors.jobs && u.actors.jobs[j].worker == w && u.actors.jobs[j].pc.FreeGuard?
    ensures u.redis.pel == t.redis.pel && u.actors.jobs[j].entry == t.actors.jobs[j].entry
  {
    SettleOn(s, t, j, DoStoreSummary(Answered));
    u := StoreSummaryStep(t, j, Answered);
    SettleOn(s, u, j, DoFreeSlot(Answered));
    u := FreeSlotStep(u, j, Answered);
  }

  lemma JobSettles(s: State, t: State, w: WorkerId, j: JobId) returns (u: State)
    requires Leads(s, t) && w in t.actors.workers && j in t.actors.jobs
    requires t.actors.jobs[j].worker == w && t.actors.jobs[j].pc.StoreSummary?
    ensures Leads(s, u) && u.docs == t.docs && SameQueue(t, u) && w in u.actors.workers
    ensures u.actors.workers[w] == t.actors.workers[w].(permits := t.actors.workers[w].permits + 1)
    ensures StillPending(t, u, [t.actors.jobs[j].entry])
  {
    u := JobFrees(s, t, w, j);
    SettleOn(s, u, j, DoFreeGuard(Answered));
    u := FreeGuardStep(u, j, Answered);
    SettleOn(s, u, j, DoAckEntry);
    u := AckEntryStep(u, j);
  }

  // ---------------------------------------------------------------------
  // A worker drains what it read
  // ---------------------------------------------------------------------

  ghost predicate Completed(docs: Docs, id: DocId) {
    id in docs && docs[id].status.Completed?
  }

  lemma ClaimsNext(s: State, t: State, w: WorkerId, batch: seq<EntryId>) returns (u: State)
    requires Leads(s, t) && Pulling(t, w, batch) && batch != [] && batch[0] < |t.redis.log|
    requires IsQueued(t.docs, t.redis.log[batch[0]])
    ensures Leads(s, u) && SameQueue(t, u) && StillPending(t, u, []) && u.actors.submits == t.actors.submits
    ensures w in u.actors.workers && u.actors.workers[w] == t.actors.workers[w].(batch := batch[1..], pc := Yield(t.nextId))
    ensures At(u, w, t.nextId, Reread) && JobOwns(u, t.nextId) && u.actors.jobs[t.nextId].entry == batch[0]
    ensures var id := t.redis.log[batch[0]];
            && u.actors.jobs[t.nextId].doc == id && id in u.docs && u.docs == t.docs[id := u.docs[id]]
            && u.docs[id].attempts == t.docs[id].attempts + 1
  {
    ConsumeOn(s, t, w, DoClaim);
    u := ClaimWonStep(t, w);
  }

  lemma ClaimAndComplete(s: State, t: State, w: WorkerId, batch: seq<EntryId>) returns (u: State, j: JobId)
    requires Leads(s, t) && Pulling(t, w, batch) && batch != [] && batch[0] < |t.redis.log|
    requires IsQueued(t.docs, t.redis.log[batch[0]])
    ensures Leads(s, u) && SameQueue(t, u) && StillPending(t, u, [])
    ensures w in u.actors.workers && u.actors.workers[w] == Worker(t.actors.workers[w].permits - 1, t.actors.workers[w].cycles, batch[1..], Pull)
    ensures j in u.actors.jobs && u.actors.jobs[j].worker == w && u.actors.jobs[j].entry == batch[0] && u.actors.jobs[j].pc.StoreSummary?
    ensures var id := t.redis.log[batch[0]]; Completed(u.docs, id) && u.docs == t.docs[id := u.docs[id]]
  {
    j := t.nextId;
    var claimed := ClaimsNext(s, t, w, batch);
    var running := JobStarts(s, claimed, w, j);
    u := JobCompletes(s, running, w, j);
  }

  lemma ClaimAndProcess(s: State, t: State, w: WorkerId, batch: seq<EntryId>) returns (u: State)
    requires Leads(s, t) && Pulling(t, w, batch) && batch != [] && batch[0] < |t.redis.log|
    requires IsQueued(t.docs, t.redis.log[batch[0]])
    ensures Leads(s, u) && Pulling(u, w, batch[1..]) && SameQueue(t, u) && StillPending(t, u, [batch[0]])
    ensures u.actors.workers[w].cycles == t.actors.workers[w].cycles
    ensures var id := t.redis.log[batch[0]]; Completed(u.docs, id) && u.docs == t.docs[id := u.docs[id]]
  {
    var completed, j := ClaimAndComplete(s, t, w, batch);
    u := JobSettles(s, completed, w, j);
  }

  /** The next entry is tried: its document is processed to the end, or was
      not queued and the entry is acknowledged. */
  lemma TryNext(s: State, t: State, w: WorkerId, batch: seq<EntryId>) returns (u: State)
    requires Leads(s, t) && Pulling(t, w, batch) && batch != [] && batch[0] < |t.redis.log|
    ensures Leads(s, u) && Pulling(u, w, batch[1..]) && SameQueue(t, u) && StillPending(t, u, [batch[0]])
    ensures u.actors.workers[w].cycles == t.actors.workers[w].cycles
    ensures var id := t.redis.log[batch[0]];
            if IsQueued(t.docs, id) then Completed(u.docs, id) && u.docs == t.docs[id := u.docs[id]] else u.docs == t.docs
  {
    if IsQueued(t.docs, t.redis.log[batch[0]]) {
      u := ClaimAndProcess(s, t, w, batch);
    } else {
      ConsumeOn(s, t, w, DoClaim);
      u := ClaimLostStep(t, w);
      ConsumeOn(s, u, w, DoAckLost);
      u := AckLostStep(u, w);
    }
  }

  ghost predicate QueuedOrCompleted(docs: Docs, id: DocId) {
    IsQueued(docs, id) || Completed(docs, id)
  }

  lemma {:induction false} DrainBatch(s: State, t: State, w: WorkerId, batch: seq<EntryId>, id: DocId) returns (u: State)
    requires Leads(s, t) && Pulling(t, w, batch) && QueuedOrCompleted(t.docs, id)
    requires forall e :: e in batch ==> e < |t.redis.log|
    ensures Leads(s, u) && SameQueue(t, u) && QueuedOrCompleted(u.docs, id)
    ensures IsQueued(u.docs, id) ==> u.docs[id] == t.docs[id]
    ensures Pulling(u, w, []) && u.actors.workers[w].cycles == t.actors.workers[w].cycles && StillPending(t, u, batch)
    ensures Completed(t.docs, id) || (exists e :: e in batch && t.redis.log[e] == id) ==> Completed(u.docs, id)
    decreases |batch|
  {
    if batch == [] {
      u := t;
    } else {
      assert batch[0] in batch;
      u := TryNext(s, t, w, batch);
      forall e | e in batch[1..] ensures e in batch {}
      var v := DrainBatch(s, u, w, batch[1..], id);
      if e :| e in batch && t.redis.log[e] == id {
        if e != batch[0] { assert e in batch[1..]; }
      }
      u := v;
    }
  }

  // ---------------------------------------------------------------------
  // Fresh workers read up to an entry
  // ---------------------------------------------------------------------

  lemma FreshWorkerReads(s: State, t: State) returns (u: State, w: WorkerId)
    requires Leads(s, t) && t.cfg.Valid() && t.redis.delivered < |t.redis.log|
    ensures Leads(s, u) && u.docs == t.docs && u.cfg == t.cfg && u.now == t.now && u.actors.submits == t.actors.submits
    ensures u.redis.delivered == ReadTo(t.redis, t.cfg.concurrency) && u.actors.sweeps == t.actors.sweeps
    ensures u.redis == t.redis.(delivered := u.redis.delivered, pel := u.redis.pel)
    ensures t.redis.delivered < u.redis.delivered <= |t.redis.log|
    ensures Pulling(u, w, Span(t.redis.delivered, u.redis.delivered)) && u.actors.workers[w].cycles == 1
    ensures u.audit == t.audit && w == t.nextId < u.nextId && (t.nextId !in t.actors.workers ==> Bystanders(t, u))
  {
    EnvOn(s, t, BootWorker);
    w := t.nextId;
    u := BootWorkerStep(t);
    ConsumeOn(s, u, w, DoPoll);
    u := PollStep(u, w);
    ConsumeOn(s, u, w, DoReadStream(Answered));
    u := ReadStreamStep(u, w, Answered);
  }

  /** An undelivered entry of a queued document ends in its completion. */
  lemma {:induction false} ReachEntry(s: State, t: State, e: EntryId, id: DocId) returns (u: State)
    requires Coherent(s) && Leads(s, t) && QueuedOrCompleted(t.docs, id)
    requires t.redis.delivered <= e < |t.redis.log| && t.redis.log[e] == id
    ensures Leads(s, u) && Completed(u.docs, id) && u.now == t.now
    decreases e - t.redis.delivered
  {
    StillCoherent(s, t);
    var w;
    u, w := FreshWorkerReads(s, t);
    var (first, last) := (t.redis.delivered, u.redis.delivered);
    var batch := Span(first, last);
    var v := DrainBatch(s, u, w, batch, id);
    if e < last {
      assert batch[e - first] == e;
      u := v;
    } else {
      u := ReachEntry(s, v, e, id);
    }
  }

  // ---------------------------------------------------------------------
  // Answers the scans may give
  // ---------------------------------------------------------------------

  /** Some cursor reads `ids`, and one of them starts with `first` if that is
      among them. */
  lemma {:induction false} SomeCursor(ids: set<DocId>, limit: nat) returns (rows: seq<DocId>)
    ensures IsCursor(rows, ids, limit)
    decreases limit, 1
  {
    if limit == 0 || ids == {} {
      rows := [];
    } else {
      var id :| id in ids;
      rows := CursorFrom(ids, limit, id);
    }
  }

  lemma {:induction false} CursorFrom(ids: set<DocId>, limit: nat, first: DocId) returns (rows: seq<DocId>)
    requires limit > 0 && first in ids
    ensures IsCursor(rows, ids, limit) && rows != [] && rows[0] == first
    decreases limit, 0
  {
    var rest := SomeCursor(ids - {first}, limit - 1);
    rows := [first] + rest;
    forall i, j | 0 <= i < j < |rows| ensures rows[i] != rows[j] {
      assert rows[j] in rest;
    }
  }

  lemma {:induction false} LowestOf(zset: map<DocId, Time>, ids: set<DocId>) returns (low: DocId)
    requires ids != {} && ids <= zset.Keys
    ensures low in ids && forall id: DocId :: id in ids ==> zset[low] <= zset[id]
    decreases |ids|
  {
    var one: DocId :| one in ids;
    low := one;
    if ids != {one} {
      var rest := LowestOf(zset, ids - {one});
      if zset[rest] <= zset[one] { low := rest; }
    }
  }

  ghost predicate LowestFirst(rows: seq<DocId>, ids: set<DocId>, zset: map<DocId, Time>) {
    forall a: DocId, b: DocId :: a in rows && a in zset && b in ids && b in zset && b !in rows ==> zset[a] <= zset[b]
  }

  lemma {:induction false} SomeLowest(zset: map<DocId, Time>, ids: set<DocId>, limit: nat) returns (rows: seq<DocId>)
    requires ids <= zset.Keys
    ensures IsCursor(rows, ids, limit) && LowestFirst(rows, ids, zset) && InScoreOrder(rows, zset)
    decreases limit
  {
    if limit == 0 || ids == {} {
      rows := [];
    } else {
      var low := LowestOf(zset, ids);
      var rest := SomeLowest(zset, ids - {low}, limit - 1);
      rows := [low] + rest;
      forall i, j | 0 <= i < j < |rows| ensures rows[i] != rows[j] {
        assert rows[j] in rest;
      }
      forall a: DocId, b: DocId | a in rows && a in zset && b in ids && b in zset && b !in rows ensures zset[a] <= zset[b] {
        if a != low { assert a in rest && b in ids - {low} && b !in rest; }
      }
    }
  }

  // ---------------------------------------------------------------------
  // A sweep runs through its stages
  // ---------------------------------------------------------------------

  /** The sweep `x` of a live worker is at `pc`. */
  ghost predicate Sweeping(s: State, x: SweepId, pc: SweepPc) {
    x in s.actors.sweeps && s.actors.sweeps[x].pc == pc && s.actors.sweeps[x].worker in s.actors.workers
  }

  /** Time stands still, and no queued record changes. */
  ghost predicate QueuedStay(s: State, t: State) {
    && t.cfg == s.cfg && t.now == s.now
    && forall id :: IsQueued(s.docs, id) ==> id in t.docs && t.docs[id] == s.docs[id]
  }

  /** Jobs and workers do not notice. */
  ghost predicate Bystanders(s: State, t: State) {
    && t.actors.jobs == s.actors.jobs
    && forall w :: w in s.actors.workers ==> w in t.actors.workers && t.actors.workers[w] == s.actors.workers[w]
  }

  lemma {:induction false} FinishRows(s: State, t: State, x: SweepId, rows: seq<Row>, foundAt: Time, done: seq<DocId>)
    returns (u: State, ids: seq<DocId>)
    requires Leads(s, t) && Sweeping(t, x, ResetRows(rows, foundAt, done))
    ensures Leads(s, u) && Sweeping(u, x, PublishIds(ids, Reclaimed)) && done <= ids
    ensures QueuedStay(t, u) && u.redis == t.redis && Bystanders(t, u) && u.docs.Keys == t.docs.Keys
    ensures u.audit.history.retried == t.audit.history.retried
    decreases |rows|
  {
    SweepOn(s, t, x, DoResetRow);
    if rows == [] {
      u, ids := RowsDoneStep(t, x), done;
    } else if RowMatches(t, x) {
      u := ResetRowStep(t, x);
      var v;
      v, ids := FinishRows(s, u, x, rows[1..], foundAt, done + [rows[0].id]);
      u := v;
    } else {
      u := SkipRowStep(t, x);
      var v;
      v, ids := FinishRows(s, u, x, rows[1..], foundAt, done);
      u := v;
    }
  }

  lemma {:induction false} PublishAll(s: State, t: State, x: SweepId, ids: seq<DocId>, stage: Stage) returns (u: State)
    requires Leads(s, t) && Sweeping(t, x, PublishIds(ids, stage))
    ensures Leads(s, u) && Sweeping(u, x, PublishIds([], stage)) && QueuedStay(t, u)
    ensures u.docs == t.docs && u.redis == t.redis.(log := t.redis.log + ids)
    decreases |ids|
  {
    if ids == [] {
      u := t;
    } else {
      SweepOn(s, t, x, DoPublishId(Answered));
      var v := PublishIdStep(t, x, Answered);
      u := PublishAll(s, v, x, ids[1..], stage);
      assert t.redis.log + [ids[0]] + ids[1..] == t.redis.log + ids;
    }
  }

  lemma NextStage(s: State, t: State, x: SweepId, stage: Stage) returns (u: State)
    requires Leads(s, t) && Sweeping(t, x, PublishIds([], stage)) && !stage.Restaled?
    ensures Leads(s, u) && Sweeping(u, x, if stage.Reclaimed? then PopDelayed else FindStale)
    ensures u.docs == t.docs && u.redis == t.redis && u.now == t.now && u.cfg == t.cfg && u.audit == t.audit && Bystanders(t, u)
  {
    SweepOn(s, t, x, DoPublishId(Answered));
    u := NextStageStep(t, x);
  }

  /** A fresh worker begins a sweep after `dt`. */
  lemma SweepBegins(s: State, dt: real) returns (t: State, x: SweepId)
    requires dt > 0.0 && s.nextId !in s.actors.workers
    ensures Leads(s, t) && Sweeping(t, x, FindExpired) && Bystanders(s, t)
    ensures t.docs == s.docs && t.redis == s.redis && t.cfg == s.cfg && t.audit == s.audit && t.now == s.now + dt
  {
    Stay(s);
    EnvOn(s, s, Tick(dt));
    t := s.(now := s.now + dt);
    EnvOn(s, t, BootWorker);
    var w := t.nextId;
    t := BootWorkerStep(t);
    EnvOn(s, t, StartSweep(w));
    x := t.nextId;
    t := StartSweepStep(t, w);
  }

  lemma PublishFirst(s: State, t: State, x: SweepId, ids: seq<DocId>, stage: Stage) returns (u: State)
    requires Leads(s, t) && Sweeping(t, x, PublishIds(ids, stage)) && ids != []
    ensures Leads(s, u) && u.docs == t.docs && u.cfg == t.cfg && u.now == t.now && Bystanders(t, u)
    ensures u.redis == t.redis.(log := t.redis.log + [ids[0]]) && u.audit == t.audit
  {
    SweepOn(s, t, x, DoPublishId(Answered));
    u := PublishIdStep(t, x, Answered);
  }

  // ---------------------------------------------------------------------
  // Back onto the stream
  // ---------------------------------------------------------------------

  /** Once its lease is over, the next recovery scan resets the document. */
  lemma ExpiredIsReset(s: State, id: DocId) returns (t: State, x: SweepId, rows: seq<Row>, foundAt: Time)
    requires Coherent(s) && id in s.docs && s.docs[id].status.Processing?
    ensures Leads(s, t) && Sweeping(t, x, ResetRows(rows, foundAt, [id])) && Bystanders(s, t)
    ensures IsQueued(t.docs, id) && t.docs[id].attempts == s.docs[id].attempts && t.docs.Keys == s.docs.Keys
    ensures t.redis == s.redis && t.cfg == s.cfg && t.audit.history.retried == s.audit.history.retried
  {
    var found, all;
    found, x, all, foundAt := ExpiredIsFound(s, id);
    rows := all[1..];
    SweepOn(s, found, x, DoResetRow);
    t := ResetRowStep(found, x);
  }

  lemma ExpiredIsFound(s: State, id: DocId) returns (t: State, x: SweepId, rows: seq<Row>, foundAt: Time)
    requires Coherent(s) && id in s.docs && s.docs[id].status.Processing?
    ensures Leads(s, t) && Sweeping(t, x, ResetRows(rows, foundAt, [])) && RowMatches(t, x) && rows[0].id == id && Bystanders(s, t)
    ensures t.docs == s.docs && t.redis == s.redis && t.cfg == s.cfg && t.audit == s.audit
  {
    assert DocOk(s.cfg, s.now, s.docs[id]);
    t, x := SweepBegins(s, s.cfg.lease + 1.0);
    assert id in ExpiredIds(t.docs, t.now);
    var ids := CursorFrom(ExpiredIds(t.docs, t.now), SCAN_LIMIT, id);
    ExpiredAreLeased(t.docs, t.now, ids, SCAN_LIMIT);
    foundAt, rows := t.now, RowsFor(t.docs, ids);
    SweepOn(s, t, x, DoFindExpired(ids));
    t := FindExpiredStep(t, x, ids);
  }

  /** ... and the sweeper publishes it. */
  lemma ExpiredIsPublished(s: State, id: DocId) returns (t: State)
    requires Coherent(s) && id in s.docs && s.docs[id].status.Processing?
    ensures Leads(s, t) && IsQueued(t.docs, id) && t.docs[id].attempts == s.docs[id].attempts
    ensures t.docs.Keys == s.docs.Keys && t.redis == s.redis.(log := s.redis.log + [id])
    ensures t.cfg == s.cfg && Bystanders(s, t) && t.audit.history.retried == s.audit.history.retried
  {
    var reset, x, rows, foundAt := ExpiredIsReset(s, id);
    var finished, out := FinishRows(s, reset, x, rows, foundAt, [id]);
    t := PublishFirst(s, finished, x, out, Reclaimed);
  }

  /** The stale scan reports a queued document left alone for long enough:
      at the latest after both the staleness limit and the longest backoff. */
  lemma RecoveryDeadline(s: State, id: DocId, now: Time)
    requires Coherent(s) && IsQueued(s.docs, id)
    requires now > s.docs[id].updatedAt + s.cfg.staleQueued && now > s.docs[id].updatedAt + s.cfg.retryMax
    ensures id in StaleIds(s.docs, now - s.cfg.staleQueued, now)
  {}

  /** Nothing that is queued changes, nor does the delivery point go back. */
  ghost predicate QueuedKept(s: State, t: State) {
    && t.redis.delivered == s.redis.delivered && s.redis.log <= t.redis.log
    && forall id :: IsQueued(s.docs, id) ==> id in t.docs && t.docs[id] == s.docs[id]
  }

  lemma SweepToDelayed(s: State, dt: real) returns (t: State, x: SweepId)
    requires dt > 0.0 && s.nextId !in s.actors.workers
    ensures Leads(s, t) && Sweeping(t, x, PopDelayed) && QueuedKept(s, t)
    ensures t.cfg == s.cfg && t.now == s.now + dt && t.redis.zset == s.redis.zset
  {
    t, x := SweepBegins(s, dt);
    var ids := SomeCursor(ExpiredIds(t.docs, t.now), SCAN_LIMIT);
    ExpiredAreLeased(t.docs, t.now, ids, SCAN_LIMIT);
    SweepOn(s, t, x, DoFindExpired(ids));
    var found := FindExpiredStep(t, x, ids);
    var reset, out := FinishRows(s, found, x, RowsFor(t.docs, ids), t.now, []);
    var published := PublishAll(s, reset, x, out, Reclaimed);
    t := NextStage(s, published, x, Reclaimed);
  }

  /** A sweep passes its first two stages without touching queued records. */
  lemma SweepToStale(s: State, dt: real) returns (t: State, x: SweepId)
    requires dt > 0.0 && s.nextId !in s.actors.workers
    ensures Leads(s, t) && Sweeping(t, x, FindStale) && QueuedKept(s, t)
    ensures t.cfg == s.cfg && t.now == s.now + dt
  {
    t, x := SweepToDelayed(s, dt);
    var due := SomeLowest(t.redis.zset, DueIds(t.redis.zset, t.now), SCAN_LIMIT);
    assert IsLowestDue(due, t.redis.zset, t.now, SCAN_LIMIT);
    SweepOn(s, t, x, DoPopDelayed(due, Answered));
    var popped := PopDelayedStep(t, x, due, Answered);
    var promoted := PublishAll(s, popped, x, due, Promoted);
    t := NextStage(s, promoted, x, Promoted);
  }

  lemma StaleIsPublished(s: State, id: DocId) returns (t: State)
    requires Coherent(s) && IsQueued(s.docs, id)
    ensures Leads(s, t) && IsQueued(t.docs, id)
    ensures t.redis.delivered < |t.redis.log| && t.redis.log[|t.redis.log| - 1] == id
  {
    var dt := s.cfg.staleQueued + s.cfg.retryMax + 1.0;
    assert DocOk(s.cfg, s.now, s.docs[id]);
    var x;
    t, x := SweepToStale(s, dt);
    StillCoherent(s, t);
    RecoveryDeadline(t, id, t.now);
    var ids := CursorFrom(StaleIds(t.docs, t.now - t.cfg.staleQueued, t.now), SCAN_LIMIT, id);
    SweepOn(s, t, x, DoFindStale(ids));
    var found := FindStaleStep(t, x, ids);
    t := PublishFirst(s, found, x, ids, Restaled);
  }

  /** No document is stuck: whatever crashed or was lost before, every active
      document of every reachable state can still be completed. */
  lemma NoDocumentIsStuck(s: State, id: DocId) returns (acts: seq<Action>)
    requires Coherent(s) && id in s.docs && s.docs[id].status.Active()
    ensures Legal(s, acts) && AllBenign(acts) && Completed(Exec(s, acts).docs, id)
  {
    var t;
    if s.docs[id].status.Queued? {
      t := StaleIsPublished(s, id);
    } else {
      t := ExpiredIsPublished(s, id);
    }
    StillCoherent(s, t);
    var u := ReachEntry(s, t, |t.redis.log| - 1, id);
    acts :| Legal(s, acts) && AllBenign(acts) && Exec(s, acts) == u;
  }
}
