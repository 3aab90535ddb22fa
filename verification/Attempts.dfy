/** How claims end. Every attempt of a document is accounted for by one retry,
    one lease recovery, its terminal settling, or the claim that is running;
    and a document is settled, and its slot and guard freed, at most once. */
module Attempts {
  import opened Types
  import opened Repository
  import opened Protocol
  import opened Frames
  import opened References
  import opened ReferencesKept

  // ---------------------------------------------------------------------
  // The account
  // ---------------------------------------------------------------------

  ghost function RetriedBy(h: History, id: DocId): set<nat> { Get(h.retried, id, {}) }

  ghost function Reclaims(h: History, id: DocId): nat { Get(h.reclaims, id, 0) }

  ghost predicate Unclaimed(h: History, id: DocId) {
    RetriedBy(h, id) == {} && Reclaims(h, id) == 0 && id !in h.settledBy && id !in h.slotFreed && id !in h.guardFreed
  }

  ghost predicate DocAccount(d: Doc, h: History, id: DocId, max: nat) {
    && d.attempts == |RetriedBy(h, id)| + Reclaims(h, id) + (if d.status.Queued? then 0 else 1)
    && (forall e :: e in RetriedBy(h, id) ==> 1 <= e < max && e <= d.attempts)
    && (id in h.settledBy <==> !d.status.Active())
    && (id in h.slotFreed || id in h.guardFreed ==> id in h.settledBy)
  }

  ghost predicate AccountAt(docs: Docs, h: History, id: DocId, max: nat) {
    if IsWork(docs, id) then DocAccount(docs[id], h, id, max) else Unclaimed(h, id)
  }

  ghost predicate Accounts(docs: Docs, h: History, max: nat) {
    forall id :: AccountAt(docs, h, id, max)
  }

  /** What a job may still do to the account of its document. */
  ghost predicate JobAccount(j: JobId, x: Job, h: History) {
    && (x.pc.Open() ==> x.epoch !in RetriedBy(h, x.doc))
    && (x.pc.OwesGuard() ==> x.doc in h.settledBy && h.settledBy[x.doc] == j && x.doc !in h.guardFreed)
    && (x.pc.OwesSlot() ==> x.doc !in h.slotFreed)
  }

  ghost predicate JobAccounts(jobs: map<JobId, Job>, h: History) {
    forall j :: j in jobs ==> JobAccount(j, jobs[j], h)
  }

  ghost predicate SameClaim(a: Job, b: Job) {
    a.doc == b.doc && a.epoch == b.epoch
  }

  /** No two jobs stand for the same claim, not even of one worker. */
  ghost predicate DistinctClaims(jobs: map<JobId, Job>) {
    forall i, j :: i in jobs && j in jobs && SameClaim(jobs[i], jobs[j]) ==> i == j
  }

  ghost predicate Accounted(s: State) {
    && Accounts(s.docs, s.audit.history, s.cfg.maxAttempts)
    && JobAccounts(s.actors.jobs, s.audit.history)
    && DistinctClaims(s.actors.jobs)
  }

  // ---------------------------------------------------------------------
  // Steps that leave claims alone
  // ---------------------------------------------------------------------

  /** At most records that nobody claimed are new. */
  ghost predicate NewRecordsOnly(docs: Docs, docs': Docs) {
    forall id :: (id in docs ==> id in docs' && docs'[id] == docs[id])
                 && (id in docs' && id !in docs ==> docs'[id].attempts == 0 && (!docs'[id].fromCache ==> docs'[id].status.Queued?))
  }

  lemma SubmitsKeepAccounts(s: State, t: State)
    requires Accounted(s) && NewRecordsOnly(s.docs, t.docs)
    requires t.cfg == s.cfg && t.audit.history == s.audit.history && t.actors.jobs == s.actors.jobs
    ensures Accounted(t)
  {
    forall id ensures AccountAt(t.docs, t.audit.history, id, t.cfg.maxAttempts) {
      assert AccountAt(s.docs, s.audit.history, id, s.cfg.maxAttempts);
    }
  }

  lemma LookupKeepsAccounts(s: State, sid: SubmitId, a: LookupStep)
    requires Coherent(s) && Accounted(s) && LookupEnabled(s, sid, a)
    ensures Accounted(LookupNext(s, sid, a))
  {
    LookupFrame(s, sid, a);
    LookupAddsOneThing(s, sid, a);
    SubmitsKeepAccounts(s, LookupNext(s, sid, a));
  }

  lemma EnqueueKeepsAccounts(s: State, sid: SubmitId, a: EnqueueStep)
    requires Coherent(s) && Accounted(s) && EnqueueEnabled(s, sid, a)
    ensures Accounted(EnqueueNext(s, sid, a))
  {
    assert SubmitOk(sid, s.actors.submits[sid], s.nextId, s.docs, s.audit.minted);
    EnqueueFrame(s, sid, a);
    EnqueueAddsOneThing(s, sid, a);
    SubmitsKeepAccounts(s, EnqueueNext(s, sid, a));
  }

  // ---------------------------------------------------------------------
  // Claims and their ends
  // ---------------------------------------------------------------------

  /** The account of one document is settled anew; the others keep theirs. */
  lemma OneAccountMoves(docs: Docs, h: History, docs': Docs, h': History, max: nat, id: DocId)
    requires Accounts(docs, h, max) && id in docs && id in docs' && docs' == docs[id := docs'[id]]
    requires AccountAt(docs', h', id, max)
    requires SameElsewhere(h.retried, h'.retried, id) && SameElsewhere(h.reclaims, h'.reclaims, id)
    requires SameElsewhere(h.settledBy, h'.settledBy, id) && h'.slotFreed == h.slotFreed && h'.guardFreed == h.guardFreed
    ensures Accounts(docs', h', max)
  {
    forall i ensures AccountAt(docs', h', i, max) {
      assert AccountAt(docs, h, i, max);
    }
  }

  lemma ClaimWonKeepsAccounts(s: State, w: WorkerId)
    requires Coherent(s) && Accounted(s) && WorkerEnabled(s, w, DoClaim)
    requires IsQueued(s.docs, s.redis.log[s.actors.workers[w].batch[0]])
    ensures Accounted(ClaimWonStep(s, w))
  {
    var t := ClaimWonStep(s, w);
    var id := s.redis.log[s.actors.workers[w].batch[0]];
    assert AccountAt(s.docs, s.audit.history, id, s.cfg.maxAttempts);
    OneAccountMoves(s.docs, s.audit.history, t.docs, s.audit.history, s.cfg.maxAttempts, id);
    ClaimIsNew(s.actors.jobs, s.nextId, s.docs, s.redis.delivered, NewJob(s, w, s.actors.workers[w].batch[0]), s.audit.history);
  }

  /** A new claim's epoch is above every earlier one. */
  lemma ClaimIsNew(jobs: map<JobId, Job>, n: nat, docs: Docs, l: nat, x: Job, h: History)
    requires JobsOk(jobs, n, docs, l) && JobAccounts(jobs, h) && DistinctClaims(jobs)
    requires x.doc in docs && x.epoch > docs[x.doc].attempts && x.pc.Reread?
    requires forall e :: e in RetriedBy(h, x.doc) ==> e <= docs[x.doc].attempts
    ensures JobAccounts(jobs[n := x], h) && DistinctClaims(jobs[n := x])
  {}

  /** A job moves on within its claim. */
  lemma JobMovesOn(jobs: map<JobId, Job>, h: History, h': History, j: JobId, x: Job)
    requires j in jobs && SameClaim(jobs[j], x)
    requires JobAccounts(jobs, h) && DistinctClaims(jobs) && JobAccount(j, x, h')
    requires forall i :: i in jobs && i != j ==> JobAccount(i, jobs[i], h')
    ensures JobAccounts(jobs[j := x], h') && DistinctClaims(jobs[j := x])
  {}

  lemma TerminalKeepsAccounts(s: State, t: State, j: JobId)
    requires Coherent(s) && Accounted(s) && JobOwns(s, j) && s.actors.jobs[j].pc.Run?
    requires t.cfg == s.cfg && j in t.actors.jobs && t.actors.jobs == s.actors.jobs[j := t.actors.jobs[j]]
    requires t.actors.jobs[j] == s.actors.jobs[j].(pc := t.actors.jobs[j].pc) && !t.actors.jobs[j].pc.Open()
    requires t.audit.history == Settled(s.audit, s.actors.jobs[j].doc, j).history
    requires var id := s.actors.jobs[j].doc;
             id in t.docs && t.docs == s.docs[id := t.docs[id]] && t.docs[id].fromCache == s.docs[id].fromCache
             && t.docs[id].attempts == s.docs[id].attempts && !t.docs[id].status.Active()
    ensures Accounted(t)
  {
    var (x, h, h') := (s.actors.jobs[j], s.audit.history, t.audit.history);
    assert JobOk(j, x, s.nextId, s.docs, s.redis.delivered);
    assert AccountAt(s.docs, h, x.doc, s.cfg.maxAttempts);
    OneAccountMoves(s.docs, h, t.docs, h', s.cfg.maxAttempts, x.doc);
    forall i | i in s.actors.jobs && i != j ensures JobAccount(i, s.actors.jobs[i], h') {
      assert JobAccount(i, s.actors.jobs[i], h);
    }
    JobMovesOn(s.actors.jobs, h, h', j, t.actors.jobs[j]);
  }

  /** The account of a document sent back for a retry. */
  lemma RetryAccount(d: Doc, d': Doc, h: History, h': History, id: DocId, epoch: nat, max: nat)
    requires DocAccount(d, h, id, max) && d.status.Processing?
    requires 1 <= epoch < max && epoch <= d.attempts && epoch !in RetriedBy(h, id)
    requires d'.attempts == d.attempts && d'.status.Queued?
    requires RetriedBy(h', id) == RetriedBy(h, id) + {epoch} && h'.(retried := h.retried) == h
    ensures DocAccount(d', h', id, max)
  {}

  lemma OthersKeepTheirClaims(jobs: map<JobId, Job>, h: History, h': History, j: JobId)
    requires j in jobs && JobAccounts(jobs, h) && DistinctClaims(jobs)
    requires h'.(retried := h.retried) == h && SameElsewhere(h.retried, h'.retried, jobs[j].doc)
    requires RetriedBy(h', jobs[j].doc) == RetriedBy(h, jobs[j].doc) + {jobs[j].epoch}
    ensures forall i :: i in jobs && i != j ==> JobAccount(i, jobs[i], h')
  {}

  lemma RetryKeepsAccounts(s: State, j: JobId, code: string, delay: real)
    requires Coherent(s) && Accounted(s) && WorkEnabled(s, j, DoRetry(code, delay)) && JobOwns(s, j)
    ensures Accounted(RetryStep(s, j, code, delay))
  {
    var t := RetryStep(s, j, code, delay);
    var (x, h, h', max) := (s.actors.jobs[j], s.audit.history, t.audit.history, s.cfg.maxAttempts);
    assert JobOk(j, x, s.nextId, s.docs, s.redis.delivered) && JobAccount(j, x, h);
    assert AccountAt(s.docs, h, x.doc, max);
    RetryAccount(s.docs[x.doc], t.docs[x.doc], h, h', x.doc, x.epoch, max);
    OneAccountMoves(s.docs, h, t.docs, h', max, x.doc);
    OthersKeepTheirClaims(s.actors.jobs, h, h', j);
    JobMovesOn(s.actors.jobs, h, h', j, t.actors.jobs[j]);
  }

  /** A job moves on and leaves documents and history alone. */
  lemma JobKeepsAccounts(s: State, t: State, j: JobId)
    requires Accounted(s) && j in s.actors.jobs && j in t.actors.jobs
    requires t.cfg == s.cfg && t.docs == s.docs && t.audit.history == s.audit.history
    requires t.actors.jobs == s.actors.jobs[j := t.actors.jobs[j]] && SameClaim(s.actors.jobs[j], t.actors.jobs[j])
    requires JobAccount(j, t.actors.jobs[j], s.audit.history)
    ensures Accounted(t)
  {}

  /** A step that is no settling write, or one that matches nothing. */
  lemma IdleWorkKeepsAccounts(s: State, j: JobId, a: WorkStep)
    requires Coherent(s) && Accounted(s) && WorkEnabled(s, j, a)
    requires a.DoReread? || a.DoStart? || a.DoAbort? || !JobOwns(s, j)
    ensures Accounted(WorkNext(s, j, a))
  {
    var t := WorkNext(s, j, a);
    assert JobAccount(j, s.actors.jobs[j], s.audit.history);
    match a
    case DoReread => JobKeepsAccounts(s, t, j);
    case DoStart => JobKeepsAccounts(s, t, j);
    case DoComplete => JobKeepsAccounts(s, t, j);
    case DoRetry(_, _) => JobKeepsAccounts(s, t, j);
    case DoFail(_, _) => JobKeepsAccounts(s, t, j);
    case DoAbort => JobKeepsAccounts(s, t, j);
  }

  lemma WorkKeepsAccounts(s: State, j: JobId, a: WorkStep)
    requires Coherent(s) && Accounted(s) && WorkEnabled(s, j, a)
    ensures Accounted(WorkNext(s, j, a))
  {
    if a.DoReread? || a.DoStart? || a.DoAbort? || !JobOwns(s, j) {
      IdleWorkKeepsAccounts(s, j, a);
    } else if a.DoRetry? {
      RetryKeepsAccounts(s, j, a.code, a.delay);
    } else {
      assert JobAccount(j, s.actors.jobs[j], s.audit.history);
      TerminalKeepsAccounts(s, WorkNext(s, j, a), j);
    }
  }

  // ---------------------------------------------------------------------
  // After the settling CAS
  // ---------------------------------------------------------------------

  /** Two jobs never free the slot, or the guard, of the same document. */
  lemma FreedOnce(jobs: map<JobId, Job>, h: History, h': History, j: JobId)
    requires j in jobs && JobAccounts(jobs, h) && jobs[j].pc.OwesGuard()
    requires h'.retried == h.retried && h'.settledBy == h.settledBy
    requires h'.slotFreed <= h.slotFreed + {jobs[j].doc} && h'.guardFreed <= h.guardFreed + {jobs[j].doc}
    ensures forall i :: i in jobs && i != j ==> JobAccount(i, jobs[i], h')
  {}

  lemma FreedAccounts(docs: Docs, h: History, h': History, max: nat, id: DocId)
    requires Accounts(docs, h, max) && id in h.settledBy
    requires h'.retried == h.retried && h'.reclaims == h.reclaims && h'.settledBy == h.settledBy
    requires h'.slotFreed <= h.slotFreed + {id} && h'.guardFreed <= h.guardFreed + {id}
    ensures Accounts(docs, h', max)
  {
    assert AccountAt(docs, h, id, max);
    forall i ensures AccountAt(docs, h', i, max) {
      assert AccountAt(docs, h, i, max);
    }
  }

  lemma FreeKeepsAccounts(s: State, t: State, j: JobId)
    requires Accounted(s) && j in s.actors.jobs && j in t.actors.jobs && s.actors.jobs[j].pc.OwesGuard()
    requires t.cfg == s.cfg && t.docs == s.docs && t.actors.jobs == s.actors.jobs[j := t.actors.jobs[j]]
    requires var (x, h, h') := (s.actors.jobs[j], s.audit.history, t.audit.history);
             && SameClaim(x, t.actors.jobs[j]) && JobAccount(j, t.actors.jobs[j], h')
             && h'.retried == h.retried && h'.reclaims == h.reclaims && h'.settledBy == h.settledBy
             && h'.slotFreed <= h.slotFreed + {x.doc} && h'.guardFreed <= h.guardFreed + {x.doc}
    ensures Accounted(t)
  {
    assert JobAccount(j, s.actors.jobs[j], s.audit.history);
    FreedOnce(s.actors.jobs, s.audit.history, t.audit.history, j);
    FreedAccounts(s.docs, s.audit.history, t.audit.history, s.cfg.maxAttempts, s.actors.jobs[j].doc);
    JobMovesOn(s.actors.jobs, s.audit.history, t.audit.history, j, t.actors.jobs[j]);
  }

  lemma SettleKeepsAccounts(s: State, j: JobId, a: SettleStep)
    requires Accounted(s) && SettleEnabled(s, j, a)
    ensures Accounted(SettleNext(s, j, a))
  {
    var t := SettleNext(s, j, a);
    assert JobAccount(j, s.actors.jobs[j], s.audit.history);
    match a
    case DoStoreSummary(_) => JobKeepsAccounts(s, t, j);
    case DoFreeSlot(_) => FreeKeepsAccounts(s, t, j);
    case DoFreeGuard(_) => FreeKeepsAccounts(s, t, j);
    case DoEnterDelay(_) => JobKeepsAccounts(s, t, j);
    case DoAckEntry => JobLeaves(s, t, j);
    case DoReap => JobLeaves(s, t, j);
  }

  lemma JobLeaves(s: State, t: State, j: JobId)
    requires Accounted(s) && t.cfg == s.cfg && t.docs == s.docs && t.audit.history == s.audit.history
    requires t.actors.jobs == s.actors.jobs - {j}
    ensures Accounted(t)
  {}

  // ---------------------------------------------------------------------
  // Everybody else
  // ---------------------------------------------------------------------

  lemma WorkerKeepsAccounts(s: State, w: WorkerId, a: WorkerStep)
    requires Coherent(s) && Accounted(s) && WorkerEnabled(s, w, a)
    ensures Accounted(WorkerNext(s, w, a))
  {
    if ClaimWins(s, w, a) {
      ClaimWonKeepsAccounts(s, w);
    } else {
      QuietStep(s, w, a);
    }
  }

  lemma ResetRowKeepsAccounts(s: State, w: SweepId)
    requires Coherent(s) && Accounted(s) && RowMatches(s, w)
    ensures Accounted(ResetRowStep(s, w))
  {
    var t := ResetRowStep(s, w);
    var pc := s.actors.sweeps[w].pc;
    var (id, h, h', max) := (pc.rows[0].id, s.audit.history, t.audit.history, s.cfg.maxAttempts);
    assert SweepOk(w, s.actors.sweeps[w], s.nextId, s.docs, s.now) && RowOk(pc.rows[0], pc.foundAt, s.docs);
    assert AccountAt(s.docs, h, id, max);
    OneAccountMoves(s.docs, h, t.docs, h', max, id);
    forall j | j in s.actors.jobs ensures JobAccount(j, s.actors.jobs[j], h') {
      assert JobAccount(j, s.actors.jobs[j], h);
    }
  }

  lemma SweepKeepsAccounts(s: State, w: SweepId, a: SweepStep)
    requires Coherent(s) && Accounted(s) && SweepEnabled(s, w, a)
    ensures Accounted(SweepNext(s, w, a))
  {
    if ResetHits(s, w, a) {
      ResetRowKeepsAccounts(s, w);
    } else {
      QuietSweep(s, w, a);
      SweepFrame(s, w, a);
    }
  }

  lemma NextKeepsAccounts(s: State, a: Action)
    requires Coherent(s) && Accounted(s) && Enabled(s, a)
    ensures Accounted(Next(s, a))
  {
    match a
    case OfLookup(sid, step) => LookupKeepsAccounts(s, sid, step);
    case OfEnqueue(sid, step) => EnqueueKeepsAccounts(s, sid, step);
    case OfWorker(w, step) => WorkerKeepsAccounts(s, w, step);
    case OfWork(j, step) => WorkKeepsAccounts(s, j, step);
    case OfSettle(j, step) => SettleKeepsAccounts(s, j, step);
    case OfSweep(w, step) => SweepKeepsAccounts(s, w, step);
    case OfRecon(r, step) => ReconFrame(s, r, step);
    case OfEnv(step) => EnvFrame(s, step);
  }

  // ---------------------------------------------------------------------
  // What the account means
  // ---------------------------------------------------------------------

  lemma {:induction false} EpochsBelow(epochs: set<nat>, max: nat)
    requires max >= 1 && forall e :: e in epochs ==> 1 <= e < max
    ensures |epochs| <= max - 1
    decreases max
  {
    if max == 1 {
      assert epochs == {};
    } else {
      var fewer := epochs - {max - 1};
      EpochsBelow(fewer, max - 1);
      assert epochs <= fewer + {max - 1};
    }
  }

  /** A document is sent back for a retry at most `max - 1` times, even when
      stale jobs of the worker that re-claimed it settle its newer claims. So
      its claims exceed `max` only by lease recoveries, which ignore the limit. */
  lemma AttemptsBounded(s: State, id: DocId)
    requires Coherent(s) && Accounted(s) && IsWork(s.docs, id)
    ensures |RetriedBy(s.audit.history, id)| <= s.cfg.maxAttempts - 1
    ensures s.docs[id].attempts <= s.cfg.maxAttempts + Reclaims(s.audit.history, id)
    ensures s.docs[id].status.Queued? ==> s.docs[id].attempts < s.cfg.maxAttempts + Reclaims(s.audit.history, id)
  {
    assert AccountAt(s.docs, s.audit.history, id, s.cfg.maxAttempts);
    EpochsBelow(RetriedBy(s.audit.history, id), s.cfg.maxAttempts);
  }
}
