/** Exclusivity of the in-flight guard. As long as a key's guard was neither
    bypassed nor lost while in use, at most one submission, document or job
    relies on it, and the guard names that one's document. */
module Guards {
  import opened Text
  import opened Types
  import opened Repository
  import opened Cache
  import opened Protocol
  import opened Frames
  import opened References
  import opened ReferencesKept
  import opened Attempts
  import opened Slots
  import opened Settlement

  type GuardMap = map<Key, DocId>

  // ---------------------------------------------------------------------
  // The invariant
  // ---------------------------------------------------------------------

  ghost predicate Names(guards: GuardMap, key: Key, id: DocId) {
    key in guards && guards[key] == id
  }

  ghost predicate SubmitGuarded(submits: map<SubmitId, Submit>, docs: Docs, guards: GuardMap, sid: SubmitId, key: Key) {
    SubmitClaims(submits, sid, key) ==> Names(guards, key, submits[sid].pc.id) && submits[sid].pc.id !in docs
  }

  ghost predicate DocGuarded(docs: Docs, guards: GuardMap, id: DocId, key: Key) {
    DocClaims(docs, id, key) ==> Names(guards, key, id)
  }

  ghost predicate JobGuarded(jobs: map<JobId, Job>, guards: GuardMap, j: JobId, key: Key) {
    JobClaims(jobs, j, key) ==> Names(guards, key, jobs[j].doc)
  }

  ghost predicate KeyGuarded(s: State, key: Key) {
    && (forall sid :: SubmitGuarded(s.actors.submits, s.docs, s.redis.guards, sid, key))
    && (forall id :: DocGuarded(s.docs, s.redis.guards, id, key))
    && (forall j :: JobGuarded(s.actors.jobs, s.redis.guards, j, key))
  }

  ghost predicate Guarded(s: State) {
    forall key :: key !in s.audit.tainted ==> KeyGuarded(s, key)
  }

  // ---------------------------------------------------------------------
  // At most one
  // ---------------------------------------------------------------------

  datatype Claimant = BySubmit(sid: SubmitId) | ByDoc(id: DocId) | ByJob(jid: JobId)

  ghost predicate Claims(s: State, c: Claimant, key: Key) {
    match c
    case BySubmit(sid) => SubmitClaims(s.actors.submits, sid, key)
    case ByDoc(id) => DocClaims(s.docs, id, key)
    case ByJob(j) => JobClaims(s.actors.jobs, j, key)
  }

  /** The document a claimant works for. */
  ghost function ClaimedDoc(s: State, c: Claimant, key: Key): DocId
    requires Claims(s, c, key)
  {
    match c
    case BySubmit(sid) => s.actors.submits[sid].pc.id
    case ByDoc(id) => id
    case ByJob(j) => s.actors.jobs[j].doc
  }

  lemma ClaimantIsNamed(s: State, c: Claimant, key: Key)
    requires KeyGuarded(s, key) && Claims(s, c, key)
    ensures Names(s.redis.guards, key, ClaimedDoc(s, c, key))
  {
    match c
    case BySubmit(sid) => assert SubmitGuarded(s.actors.submits, s.docs, s.redis.guards, sid, key);
    case ByDoc(id) => assert DocGuarded(s.docs, s.redis.guards, id, key);
    case ByJob(j) => assert JobGuarded(s.actors.jobs, s.redis.guards, j, key);
  }

  /** Whoever works for an id settles what it is: a fresh id belongs to the
      submission that minted it, an active record to itself, a settled one to
      the job that settled it. */
  lemma ClaimantById(s: State, c: Claimant, key: Key)
    requires Coherent(s) && Accounted(s) && KeyGuarded(s, key) && Claims(s, c, key)
    ensures var id := ClaimedDoc(s, c, key);
            && (c.BySubmit? ==> id !in s.docs && id in s.audit.minted && s.audit.minted[id].minter == c.sid)
            && (c.ByDoc? ==> id in s.docs && s.docs[id].status.Active())
            && (c.ByJob? ==> id in s.docs && !s.docs[id].status.Active()
                             && id in s.audit.history.settledBy && s.audit.history.settledBy[id] == c.jid)
  {
    match c
    case BySubmit(sid) =>
      assert SubmitGuarded(s.actors.submits, s.docs, s.redis.guards, sid, key);
      assert SubmitOk(sid, s.actors.submits[sid], s.nextId, s.docs, s.audit.minted);
    case ByDoc(id) =>
    case ByJob(j) =>
      var x := s.actors.jobs[j];
      assert JobOk(j, x, s.nextId, s.docs, s.redis.delivered);
      assert JobAccount(j, x, s.audit.history);
      assert AccountAt(s.docs, s.audit.history, x.doc, s.cfg.maxAttempts);
  }

  /** At most one of {submission holding the guard, active document, job still
      owing the release} exists for a guarded key, and the guard names it. */
  lemma AtMostOneClaimant(s: State, key: Key, a: Claimant, b: Claimant)
    requires Coherent(s) && Accounted(s) && KeyGuarded(s, key)
    requires Claims(s, a, key) && Claims(s, b, key)
    ensures a == b && Names(s.redis.guards, key, ClaimedDoc(s, a, key))
  {
    ClaimantIsNamed(s, a, key);
    ClaimantIsNamed(s, b, key);
    ClaimantById(s, a, key);
    ClaimantById(s, b, key);
  }

  // ---------------------------------------------------------------------
  // What can break exclusivity
  // ---------------------------------------------------------------------

  /** The steps after which two identical documents may be in flight: the
      guard command failed or its answer was lost; the key was gone between
      `SET NX` and `GET`; the publish failed after the insert; or the guard
      expired while somebody relied on it. */
  ghost predicate Breaks(s: State, a: Action, key: Key) {
    match a
    case OfLookup(sid, DoSetGuard(reply)) =>
      sid in s.actors.submits && SubmitKey(s.actors.submits[sid]) == key
      && (reply.NotDone? || (reply.AnswerLost? && key in s.redis.guards))
    case OfLookup(sid, DoReadGuard(up)) =>
      sid in s.actors.submits && SubmitKey(s.actors.submits[sid]) == key && !(up && key in s.redis.guards)
    case OfEnqueue(sid, DoInsertNew(reply)) =>
      sid in s.actors.submits && SubmitKey(s.actors.submits[sid]) == key && reply.AnswerLost?
    case OfEnqueue(sid, DoPublishNew(reply)) =>
      sid in s.actors.submits && SubmitKey(s.actors.submits[sid]) == key && !reply.Answered?
    case OfEnv(ExpireGuard(gone)) => gone == key && InUse(s, key)
    case _ => false
  }

  // ---------------------------------------------------------------------
  // Submissions
  // ---------------------------------------------------------------------

  ghost predicate StillNamed(guards: GuardMap, guards': GuardMap, key: Key) {
    forall id :: Names(guards, key, id) ==> Names(guards', key, id)
  }

  /** The guard of this key still names whom it named, or only `c` cares. */
  ghost predicate GuardKept(s: State, guards': GuardMap, key: Key, c: Claimant) {
    StillNamed(s.redis.guards, guards', key) || forall d :: Claims(s, d, key) ==> d == c
  }

  lemma OtherSubmitsKeepKey(s: State, t: State, sid: SubmitId, key: Key)
    requires SubmitsOk(s.actors.submits, s.nextId, s.docs, s.audit.minted) && MintsOk(s.nextId, s.docs, s.audit.minted)
    requires KeyGuarded(s, key) && GuardKept(s, t.redis.guards, key, BySubmit(sid))
    requires SameElsewhere(s.actors.submits, t.actors.submits, sid) && CreatedBy(s, t.docs, sid)
    ensures forall y :: y != sid ==> SubmitGuarded(t.actors.submits, t.docs, t.redis.guards, y, key)
  {
    forall y | y != sid ensures SubmitGuarded(t.actors.submits, t.docs, t.redis.guards, y, key) {
      if SubmitClaims(t.actors.submits, y, key) {
        assert SubmitOk(y, s.actors.submits[y], s.nextId, s.docs, s.audit.minted);
        assert SubmitGuarded(s.actors.submits, s.docs, s.redis.guards, y, key);
        assert Claims(s, BySubmit(y), key);
      }
    }
  }

  /** The claims of everybody but the moving submission stay guarded. */
  lemma SubmitMoveKeepsKey(s: State, t: State, sid: SubmitId, key: Key)
    requires Coherent(s) && KeyGuarded(s, key)
    requires SameElsewhere(s.actors.submits, t.actors.submits, sid) && t.actors.jobs == s.actors.jobs
    requires GuardKept(s, t.redis.guards, key, BySubmit(sid))
    requires NewRecordsOnly(s.docs, t.docs) && CreatedBy(s, t.docs, sid)
    requires SubmitGuarded(t.actors.submits, t.docs, t.redis.guards, sid, key)
    requires forall id :: id in t.docs && id !in s.docs ==> DocGuarded(t.docs, t.redis.guards, id, key)
    ensures KeyGuarded(t, key)
  {
    OtherSubmitsKeepKey(s, t, sid, key);
    forall id ensures DocGuarded(t.docs, t.redis.guards, id, key) {
      if id in s.docs && DocClaims(s.docs, id, key) {
        assert DocGuarded(s.docs, s.redis.guards, id, key) && Claims(s, ByDoc(id), key);
      }
    }
    forall j ensures JobGuarded(t.actors.jobs, t.redis.guards, j, key) {
      if JobClaims(s.actors.jobs, j, key) {
        assert JobGuarded(s.actors.jobs, s.redis.guards, j, key) && Claims(s, ByJob(j), key);
      }
    }
  }

  lemma SetGuardSelf(s: State, sid: SubmitId, reply: Reply, key: Key)
    requires LookupEnabled(s, sid, DoSetGuard(reply)) && s.actors.submits[sid].pc.id !in s.docs
    requires !Breaks(s, OfLookup(sid, DoSetGuard(reply)), key)
    ensures var t := SetGuardStep(s, sid, reply); SubmitGuarded(t.actors.submits, s.docs, t.redis.guards, sid, key)
  {}

  lemma ReadGuardSelf(s: State, sid: SubmitId, up: bool, key: Key)
    requires LookupEnabled(s, sid, DoReadGuard(up))
    requires !Breaks(s, OfLookup(sid, DoReadGuard(up)), key)
    ensures var t := ReadGuardStep(s, sid, up); SubmitGuarded(t.actors.submits, s.docs, t.redis.guards, sid, key)
  {}

  lemma LookupHoldsNothing(s: State, sid: SubmitId, a: LookupStep)
    requires LookupEnabled(s, sid, a) && !a.DoSetGuard? && !a.DoReadGuard?
    ensures var t := LookupNext(s, sid, a); sid in t.actors.submits ==> !t.actors.submits[sid].pc.HoldsGuard()
  {
    match a
    case DoReadCache(_) =>
    case DoFindDone(_) =>
    case DoFillCache(_) =>
    case DoInsertHit =>
    case DoJoin =>
  }

  /** A submission starts to claim a key only with the guard set, or broken. */
  lemma LookupGuardSelf(s: State, sid: SubmitId, a: LookupStep, key: Key)
    requires LookupEnabled(s, sid, a) && SubmitOk(sid, s.actors.submits[sid], s.nextId, s.docs, s.audit.minted)
    requires !Breaks(s, OfLookup(sid, a), key)
    ensures var t := LookupNext(s, sid, a); SubmitGuarded(t.actors.submits, t.docs, t.redis.guards, sid, key)
  {
    if a.DoSetGuard? {
      SetGuardSelf(s, sid, a.reply, key);
    } else if a.DoReadGuard? {
      ReadGuardSelf(s, sid, a.up, key);
    } else {
      LookupHoldsNothing(s, sid, a);
    }
  }

  lemma LookupGuardMap(s: State, sid: SubmitId, a: LookupStep, key: Key)
    requires LookupEnabled(s, sid, a)
    ensures StillNamed(s.redis.guards, LookupNext(s, sid, a).redis.guards, key)
  {}

  /** From the guard on, a submission keeps the id it claims. */
  lemma EnqueueHolds(s: State, sid: SubmitId, a: EnqueueStep)
    requires EnqueueEnabled(s, sid, a)
    ensures var (t, x) := (EnqueueNext(s, sid, a), s.actors.submits[sid]);
            sid in t.actors.submits && t.actors.submits[sid].pc.HoldsGuard() ==>
              && t.actors.submits[sid] == x.(pc := t.actors.submits[sid].pc)
              && (Breaks(s, OfEnqueue(sid, a), SubmitKey(x))
                  || (t.docs == s.docs && t.redis.guards == s.redis.guards && x.pc.HoldsGuard() && t.actors.submits[sid].pc.id == x.pc.id))
  {
    match a
    case DoTakeSlot(_) =>
    case DoCountActive =>
    case DoInsertNew(_) =>
    case DoPublishNew(_) =>
    case DoGiveSlotBack(_) =>
    case DoGiveGuardBack(_) =>
    case SubmitDies =>
  }

  lemma EnqueueGuardSelf(s: State, sid: SubmitId, a: EnqueueStep, key: Key)
    requires EnqueueEnabled(s, sid, a)
    requires SubmitGuarded(s.actors.submits, s.docs, s.redis.guards, sid, key)
    requires !Breaks(s, OfEnqueue(sid, a), key)
    ensures var t := EnqueueNext(s, sid, a); SubmitGuarded(t.actors.submits, t.docs, t.redis.guards, sid, key)
  {
    EnqueueHolds(s, sid, a);
  }

  /** Only giving the guard back moves it. */
  lemma EnqueueGuardMap(s: State, sid: SubmitId, a: EnqueueStep, key: Key)
    requires EnqueueEnabled(s, sid, a)
    ensures var g := EnqueueNext(s, sid, a).redis.guards;
            if a.DoGiveGuardBack? && key == SubmitKey(s.actors.submits[sid]) then SubmitClaims(s.actors.submits, sid, key)
            else StillNamed(s.redis.guards, g, key)
  {}

  lemma EnqueueGuardKept(s: State, sid: SubmitId, a: EnqueueStep, key: Key)
    requires Coherent(s) && Accounted(s) && KeyGuarded(s, key) && EnqueueEnabled(s, sid, a)
    ensures GuardKept(s, EnqueueNext(s, sid, a).redis.guards, key, BySubmit(sid))
  {
    EnqueueGuardMap(s, sid, a, key);
    forall d | Claims(s, d, key) && SubmitClaims(s.actors.submits, sid, key) ensures d == BySubmit(sid) {
      AtMostOneClaimant(s, key, d, BySubmit(sid));
    }
  }

  /** What the rest of the system sees of a submission's step. */
  ghost predicate SubmitSeen(s: State, t: State, sid: SubmitId) {
    && SameElsewhere(s.actors.submits, t.actors.submits, sid) && t.actors.jobs == s.actors.jobs
    && NewRecordsOnly(s.docs, t.docs) && CreatedBy(s, t.docs, sid)
  }

  lemma OneInsert(s: State, docs: Docs, sid: SubmitId, id: DocId, d: Doc)
    requires docs == s.docs || docs == s.docs[id := d]
    requires id !in s.docs && (id >= s.nextId || (id in s.audit.minted && s.audit.minted[id].minter == sid))
    requires d.attempts == 0 && (d.fromCache || d.status.Queued?)
    ensures NewRecordsOnly(s.docs, docs) && CreatedBy(s, docs, sid)
  {}

  lemma EnqueueSeen(s: State, sid: SubmitId, a: EnqueueStep)
    requires Coherent(s) && EnqueueEnabled(s, sid, a)
    ensures SubmitSeen(s, EnqueueNext(s, sid, a), sid)
  {
    var (t, x) := (EnqueueNext(s, sid, a), s.actors.submits[sid]);
    assert SubmitOk(sid, x, s.nextId, s.docs, s.audit.minted);
    EnqueueFrame(s, sid, a);
    MovedSubmit(s, t.actors, sid);
    EnqueueAddsOneThing(s, sid, a);
    if Inserts(a) {
      OneInsert(s, t.docs, sid, x.pc.id, NewDoc(x.user, x.title, x.content, x.hash, s.now));
    }
  }

  lemma LookupSeen(s: State, sid: SubmitId, a: LookupStep)
    requires Coherent(s) && LookupEnabled(s, sid, a)
    ensures SubmitSeen(s, LookupNext(s, sid, a), sid)
  {
    var (t, x) := (LookupNext(s, sid, a), s.actors.submits[sid]);
    LookupFrame(s, sid, a);
    MovedSubmit(s, t.actors, sid);
    LookupAddsOneThing(s, sid, a);
    if a == DoInsertHit {
      OneInsert(s, t.docs, sid, s.nextId, HitDoc(x, s.nextId, x.pc.found, s.now));
    }
  }

  lemma InsertedAreGuarded(s: State, sid: SubmitId, a: EnqueueStep, key: Key)
    requires EnqueueEnabled(s, sid, a)
    requires SubmitGuarded(s.actors.submits, s.docs, s.redis.guards, sid, key)
    ensures var t := EnqueueNext(s, sid, a);
            forall id :: id in t.docs && id !in s.docs ==> DocGuarded(t.docs, t.redis.guards, id, key)
  {}

  lemma HitsAreGuarded(s: State, sid: SubmitId, a: LookupStep, key: Key)
    requires LookupEnabled(s, sid, a)
    ensures var t := LookupNext(s, sid, a);
            forall id :: id in t.docs && id !in s.docs ==> DocGuarded(t.docs, t.redis.guards, id, key)
  {}

  lemma LookupKeepsKey(s: State, sid: SubmitId, a: LookupStep, key: Key)
    requires Coherent(s) && KeyGuarded(s, key) && LookupEnabled(s, sid, a)
    requires !Breaks(s, OfLookup(sid, a), key)
    ensures KeyGuarded(LookupNext(s, sid, a), key)
  {
    assert SubmitOk(sid, s.actors.submits[sid], s.nextId, s.docs, s.audit.minted);
    LookupGuardSelf(s, sid, a, key);
    LookupGuardMap(s, sid, a, key);
    HitsAreGuarded(s, sid, a, key);
    LookupSeen(s, sid, a);
    SubmitMoveKeepsKey(s, LookupNext(s, sid, a), sid, key);
  }

  lemma EnqueueKeepsKey(s: State, sid: SubmitId, a: EnqueueStep, key: Key)
    requires Coherent(s) && Accounted(s) && KeyGuarded(s, key) && EnqueueEnabled(s, sid, a)
    requires !Breaks(s, OfEnqueue(sid, a), key)
    ensures KeyGuarded(EnqueueNext(s, sid, a), key)
  {
    EnqueueGuardKept(s, sid, a, key);
    EnqueueGuardSelf(s, sid, a, key);
    InsertedAreGuarded(s, sid, a, key);
    EnqueueSeen(s, sid, a);
    SubmitMoveKeepsKey(s, EnqueueNext(s, sid, a), sid, key);
  }

  // ---------------------------------------------------------------------
  // Workers, jobs and sweeps
  // ---------------------------------------------------------------------

  /** One record is rewritten and stays active, or hands its claim to the job
      that settled it; no guard moves. */
  lemma RewriteKeepsKey(s: State, t: State, id: DocId, j: JobId, key: Key)
    requires KeyGuarded(s, key) && t.redis.guards == s.redis.guards && t.actors.submits == s.actors.submits
    requires SameElsewhere(s.actors.jobs, t.actors.jobs, j) && SameElsewhere(s.docs, t.docs, id)
    requires id in s.docs && id in t.docs && KeyOf(t.docs[id]) == KeyOf(s.docs[id])
    requires t.docs[id].status.Active() ==> s.docs[id].status.Active()
    requires j in t.actors.jobs && t.actors.jobs[j].pc.OwesGuard() ==>
               s.docs[id].status.Active() && t.actors.jobs[j].doc == id && KeyOf(t.actors.jobs[j].snap) == KeyOf(s.docs[id])
    ensures KeyGuarded(t, key)
  {
    forall y ensures SubmitGuarded(t.actors.submits, t.docs, t.redis.guards, y, key) {
      assert SubmitGuarded(s.actors.submits, s.docs, s.redis.guards, y, key);
    }
    forall i ensures DocGuarded(t.docs, t.redis.guards, i, key) {
      assert DocGuarded(s.docs, s.redis.guards, i, key);
    }
    assert DocGuarded(s.docs, s.redis.guards, id, key);
    forall i ensures JobGuarded(t.actors.jobs, t.redis.guards, i, key) {
      assert JobGuarded(s.actors.jobs, s.redis.guards, i, key);
    }
  }

  lemma WorkerKeepsKey(s: State, w: WorkerId, a: WorkerStep, key: Key)
    requires Coherent(s) && KeyGuarded(s, key) && WorkerEnabled(s, w, a)
    ensures KeyGuarded(WorkerNext(s, w, a), key)
  {
    var t := WorkerNext(s, w, a);
    if ClaimWins(s, w, a) {
      RewriteKeepsKey(s, t, s.redis.log[s.actors.workers[w].batch[0]], s.nextId, key);
    } else {
      QuietStep(s, w, a);
    }
  }

  /** A running job keeps the key of its document, wakes none, and owes the
      guard only of one it has just settled. */
  lemma WorkOwesGuard(s: State, j: JobId, a: WorkStep)
    requires WorkEnabled(s, j, a) && s.actors.jobs[j].doc in s.docs && SameIdentity(s.actors.jobs[j].snap, s.docs[s.actors.jobs[j].doc])
    ensures var (t, x) := (WorkNext(s, j, a), s.actors.jobs[j]);
            && x.doc in t.docs && KeyOf(t.docs[x.doc]) == KeyOf(s.docs[x.doc])
            && (t.docs[x.doc].status.Active() ==> s.docs[x.doc].status.Active()) && SameElsewhere(s.docs, t.docs, x.doc)
            && (j in t.actors.jobs && t.actors.jobs[j].pc.OwesGuard() ==>
                  s.docs[x.doc].status.Active() && t.actors.jobs[j].doc == x.doc && KeyOf(t.actors.jobs[j].snap) == KeyOf(s.docs[x.doc]))
  {
    match a
    case DoReread =>
    case DoStart =>
    case DoComplete =>
    case DoRetry(_, _) =>
    case DoFail(_, _) =>
    case DoAbort =>
  }

  lemma WorkKeepsKey(s: State, j: JobId, a: WorkStep, key: Key)
    requires Coherent(s) && KeyGuarded(s, key) && WorkEnabled(s, j, a)
    ensures KeyGuarded(WorkNext(s, j, a), key)
  {
    assert JobOk(j, s.actors.jobs[j], s.nextId, s.docs, s.redis.delivered);
    WorkFrame(s, j, a);
    WorkOwesGuard(s, j, a);
    RewriteKeepsKey(s, WorkNext(s, j, a), s.actors.jobs[j].doc, j, key);
  }

  /** A job moves on or goes; it claims nothing new, and it may delete its own
      guard when it stops claiming it. */
  lemma JobMoveKeepsKey(s: State, t: State, j: JobId, key: Key)
    requires KeyGuarded(s, key) && t.docs == s.docs && t.actors.submits == s.actors.submits
    requires SameElsewhere(s.actors.jobs, t.actors.jobs, j)
    requires JobClaims(t.actors.jobs, j, key) ==>
               JobClaims(s.actors.jobs, j, key) && t.actors.jobs[j].doc == s.actors.jobs[j].doc
    requires GuardKept(s, t.redis.guards, key, ByJob(j))
    requires StillNamed(s.redis.guards, t.redis.guards, key) || !JobClaims(t.actors.jobs, j, key)
    ensures KeyGuarded(t, key)
  {
    forall y ensures SubmitGuarded(t.actors.submits, t.docs, t.redis.guards, y, key) {
      assert SubmitGuarded(s.actors.submits, s.docs, s.redis.guards, y, key);
      if SubmitClaims(s.actors.submits, y, key) { assert Claims(s, BySubmit(y), key); }
    }
    forall i ensures DocGuarded(t.docs, t.redis.guards, i, key) {
      assert DocGuarded(s.docs, s.redis.guards, i, key);
      if DocClaims(s.docs, i, key) { assert Claims(s, ByDoc(i), key); }
    }
    forall i ensures JobGuarded(t.actors.jobs, t.redis.guards, i, key) {
      assert JobGuarded(s.actors.jobs, s.redis.guards, i, key);
      if JobClaims(t.actors.jobs, i, key) { assert Claims(s, ByJob(i), key); }
    }
  }

  lemma SettleGuardSelf(s: State, j: JobId, a: SettleStep, key: Key)
    requires SettleEnabled(s, j, a)
    ensures var t := SettleNext(s, j, a);
            && SameElsewhere(s.actors.jobs, t.actors.jobs, j)
            && (JobClaims(t.actors.jobs, j, key) ==>
                  JobClaims(s.actors.jobs, j, key) && t.actors.jobs[j].doc == s.actors.jobs[j].doc)
            && (StillNamed(s.redis.guards, t.redis.guards, key)
                || (JobClaims(s.actors.jobs, j, key) && !JobClaims(t.actors.jobs, j, key)))
            && t.audit.tainted == s.audit.tainted && t.actors.submits == s.actors.submits
  {}

  lemma SettleKeepsKey(s: State, j: JobId, a: SettleStep, key: Key)
    requires Coherent(s) && Accounted(s) && KeyGuarded(s, key) && SettleEnabled(s, j, a)
    ensures KeyGuarded(SettleNext(s, j, a), key)
  {
    SettleGuardSelf(s, j, a, key);
    SettleFrame(s, j, a);
    forall d | Claims(s, d, key) && JobClaims(s.actors.jobs, j, key) ensures d == ByJob(j) {
      AtMostOneClaimant(s, key, d, ByJob(j));
    }
    JobMoveKeepsKey(s, SettleNext(s, j, a), j, key);
  }

  lemma SweepKeepsKey(s: State, w: SweepId, a: SweepStep, key: Key)
    requires Coherent(s) && KeyGuarded(s, key) && SweepEnabled(s, w, a)
    ensures KeyGuarded(SweepNext(s, w, a), key)
  {
    if ResetHits(s, w, a) {
      ResetKeepsKey(s, w, key);
    } else {
      SweepFrame(s, w, a);
      QuietSweep(s, w, a);
    }
  }

  lemma ResetKeepsKey(s: State, w: SweepId, key: Key)
    requires Coherent(s) && KeyGuarded(s, key) && SweepEnabled(s, w, DoResetRow) && RowMatches(s, w)
    ensures KeyGuarded(ResetRowStep(s, w), key)
  {
    RewriteKeepsKey(s, ResetRowStep(s, w), s.actors.sweeps[w].pc.rows[0].id, s.nextId, key);
  }

  // ---------------------------------------------------------------------
  // The environment, and runs
  // ---------------------------------------------------------------------

  lemma ExpireGuardKeepsKey(s: State, gone: Key, key: Key)
    requires KeyGuarded(s, key) && !Breaks(s, OfEnv(ExpireGuard(gone)), key)
    ensures KeyGuarded(ExpireGuardStep(s, gone), key)
  {
    var t := ExpireGuardStep(s, gone);
    forall y ensures SubmitGuarded(t.actors.submits, t.docs, t.redis.guards, y, key) {
      assert SubmitGuarded(s.actors.submits, s.docs, s.redis.guards, y, key);
    }
    forall i ensures DocGuarded(t.docs, t.redis.guards, i, key) {
      assert DocGuarded(s.docs, s.redis.guards, i, key);
    }
    forall i ensures JobGuarded(t.actors.jobs, t.redis.guards, i, key) {
      assert JobGuarded(s.actors.jobs, s.redis.guards, i, key);
    }
  }

  lemma EnvKeepsKey(s: State, a: EnvStep, key: Key)
    requires Coherent(s) && KeyGuarded(s, key) && EnvEnabled(s, a) && !Breaks(s, OfEnv(a), key)
    ensures KeyGuarded(EnvNext(s, a), key)
  {
    match a
    case Tick(_) =>
    case NewSubmit(_, _, _) =>
      forall y ensures SubmitGuarded(EnvNext(s, a).actors.submits, s.docs, s.redis.guards, y, key) {
        assert SubmitGuarded(s.actors.submits, s.docs, s.redis.guards, y, key);
      }
    case BootWorker =>
    case StartSweep(_) =>
    case StartRecon(_) =>
    case KillWorker(_) =>
    case ExpireGuard(gone) => ExpireGuardKeepsKey(s, gone, key);
    case ExpireCounter(_) =>
    case EvictSummary(_) =>
    case LoseQueue =>
  }

  // ---------------------------------------------------------------------
  // Taint
  // ---------------------------------------------------------------------

  lemma LookupTaint(s: State, sid: SubmitId, a: LookupStep, key: Key)
    requires LookupEnabled(s, sid, a)
    ensures key in LookupNext(s, sid, a).audit.tainted <==> key in s.audit.tainted || Breaks(s, OfLookup(sid, a), key)
  {}

  lemma EnqueueTaint(s: State, sid: SubmitId, a: EnqueueStep, key: Key)
    requires EnqueueEnabled(s, sid, a)
    ensures key in EnqueueNext(s, sid, a).audit.tainted <==> key in s.audit.tainted || Breaks(s, OfEnqueue(sid, a), key)
  {}

  lemma EnvTaint(s: State, a: EnvStep, key: Key)
    requires EnvEnabled(s, a)
    ensures key in EnvNext(s, a).audit.tainted <==> key in s.audit.tainted || Breaks(s, OfEnv(a), key)
  {}

  /** A key is tainted exactly by the breaking steps, and stays tainted. */
  lemma TaintCauses(s: State, a: Action, key: Key)
    requires Enabled(s, a)
    ensures key in Next(s, a).audit.tainted <==> key in s.audit.tainted || Breaks(s, a, key)
  {
    match a
    case OfLookup(sid, step) =>
      LookupTaint(s, sid, step, key);
    case OfEnqueue(sid, step) =>
      EnqueueTaint(s, sid, step, key);
    case OfWorker(w, step) => WorkerFrame(s, w, step);
    case OfWork(j, step) => WorkFrame(s, j, step);
    case OfSettle(j, step) => SettleGuardSelf(s, j, step, key);
    case OfSweep(w, step) => SweepFrame(s, w, step);
    case OfRecon(r, step) => ReconFrame(s, r, step);
    case OfEnv(step) => EnvTaint(s, step, key);
  }

  lemma NextKeepsKey(s: State, a: Action, key: Key)
    requires Coherent(s) && Accounted(s) && KeyGuarded(s, key) && Enabled(s, a)
    requires !Breaks(s, a, key)
    ensures KeyGuarded(Next(s, a), key)
  {
    match a
    case OfLookup(sid, step) => LookupKeepsKey(s, sid, step, key);
    case OfEnqueue(sid, step) => EnqueueKeepsKey(s, sid, step, key);
    case OfWorker(w, step) => WorkerKeepsKey(s, w, step, key);
    case OfWork(j, step) => WorkKeepsKey(s, j, step, key);
    case OfSettle(j, step) => SettleKeepsKey(s, j, step, key);
    case OfSweep(w, step) => SweepKeepsKey(s, w, step, key);
    case OfRecon(r, step) => ReconFrame(s, r, step);
    case OfEnv(step) => EnvKeepsKey(s, step, key);
  }

  lemma NextKeepsGuarded(s: State, a: Action)
    requires Coherent(s) && Accounted(s) && Guarded(s) && Enabled(s, a)
    ensures Guarded(Next(s, a))
  {
    forall key | key !in Next(s, a).audit.tainted ensures KeyGuarded(Next(s, a), key) {
      TaintCauses(s, a, key);
      NextKeepsKey(s, a, key);
    }
  }

  ghost predicate NeverBroken(s: State, acts: seq<Action>, key: Key)
    requires Legal(s, acts)
    decreases |acts|
  {
    acts == [] || (!Breaks(s, acts[0], key) && NeverBroken(Next(s, acts[0]), acts[1..], key))
  }

  /** In any run without a breaking step for this key, at most one submission,
      document or job is in flight for it at every point, and the guard names
      its document; so two identical documents are never active together. */
  lemma {:induction false} OneInFlight(s: State, acts: seq<Action>, key: Key, a: Claimant, b: Claimant)
    requires Coherent(s) && Accounted(s) && KeyGuarded(s, key)
    requires Legal(s, acts) && NeverBroken(s, acts, key)
    requires Claims(Exec(s, acts), a, key) && Claims(Exec(s, acts), b, key)
    ensures a == b && Names(Exec(s, acts).redis.guards, key, ClaimedDoc(Exec(s, acts), a, key))
    decreases |acts|
  {
    if acts == [] {
      AtMostOneClaimant(s, key, a, b);
    } else {
      NextKeepsCoherence(s, acts[0]);
      NextKeepsAccounts(s, acts[0]);
      NextKeepsKey(s, acts[0], key);
      OneInFlight(Next(s, acts[0]), acts[1..], key, a, b);
    }
  }

  /** Exclusivity comes back by itself: once nobody relies on a key, whatever
      broke it before, it is guarded again. */
  lemma UnusedIsGuarded(s: State, key: Key)
    requires !InUse(s, key)
    ensures KeyGuarded(s, key)
  {}

  /** The deletes are unconditional, yet while exclusivity holds they only ever
      remove the guard of the document they are made for. */
  lemma DeletesOwnGuard(s: State, a: Action, key: Key)
    requires Coherent(s) && Accounted(s) && KeyGuarded(s, key) && Enabled(s, a)
    requires !Breaks(s, a, key) && key in s.redis.guards && key !in Next(s, a).redis.guards
    ensures (a.OfEnqueue? && Names(s.redis.guards, key, s.actors.submits[a.sid].pc.id))
         || (a.OfSettle? && Names(s.redis.guards, key, s.actors.jobs[a.jid].doc))
         || (a == OfEnv(ExpireGuard(key)) && !InUse(s, key))
  {
    match a
    case OfLookup(sid, step) => LookupGuardMap(s, sid, step, key); assert Names(s.redis.guards, key, s.redis.guards[key]);
    case OfEnqueue(sid, step) =>
      EnqueueGuardMap(s, sid, step, key);
      assert Names(s.redis.guards, key, s.redis.guards[key]);
      ClaimantIsNamed(s, BySubmit(sid), key);
    case OfWorker(w, step) => assert false by { WorkerFrame(s, w, step); }
    case OfWork(j, step) => assert false by { WorkFrame(s, j, step); }
    case OfSettle(j, step) =>
      SettleGuardSelf(s, j, step, key);
      assert Names(s.redis.guards, key, s.redis.guards[key]);
      ClaimantIsNamed(s, ByJob(j), key);
    case OfSweep(w, step) => assert false by { SweepFrame(s, w, step); }
    case OfRecon(r, step) => ReconFrame(s, r, step);
    case OfEnv(step) => EnvFrame(s, step);
  }

  /** Whatever happens, tainted or not, a submission that is told to join a
      document is handed one of its own user with its own content hash. */
  lemma JoinedIsOwn(s: State, sid: SubmitId)
    requires Coherent(s) && sid in s.actors.submits && s.actors.submits[sid].pc.Join?
    requires s.actors.submits[sid].pc.other in s.docs
    ensures KeyOf(s.docs[s.actors.submits[sid].pc.other]) == SubmitKey(s.actors.submits[sid])
  {}
}
