/** When the result of a slow worker is dropped. The settling filter names the
    worker and not the claim, so a result is sure to belong to the record's
    latest claim exactly as long as no worker claims a document of which it
    still has an unsettled claim of its own. */
module Stale {
  import opened Types
  import opened Repository
  import opened Protocol
  import opened Frames
  import opened References
  import opened ReferencesKept
  import opened Slots
  import opened Backoff
  import opened Backpressure
  import opened Early

  // ---------------------------------------------------------------------
  // Stale owners
  // ---------------------------------------------------------------------

  /** An unsettled claim whose settling write would match, although the record
      has been claimed again since. */
  ghost predicate StaleOwner(s: State, j: JobId, id: DocId) {
    OpenOn(s.actors.jobs, j, id) && JobOwns(s, j) && s.actors.jobs[j].epoch != s.docs[id].attempts
  }

  ghost predicate NoneStale(s: State, id: DocId) {
    forall j :: !StaleOwner(s, j, id)
  }

  /** The worker wins a claim of a document of which it has another unsettled
      claim. It could know: the other claim is its own. */
  ghost predicate ClaimsOver(s: State, a: Action, id: DocId) {
    Claimed(s, a, id) && HasOpenJob(s.actors.jobs, a.wid, id)
  }

  /** A settling write of this document that matches, by a job whose claim is
      not the record's latest. */
  ghost predicate StaleWrite(s: State, a: Action, id: DocId) {
    a.OfWork? && (a.work.DoComplete? || a.work.DoRetry? || a.work.DoFail?) && Enabled(s, a) && StaleOwner(s, a.jid, id)
  }

  // ---------------------------------------------------------------------
  // No step but a claim over makes one
  // ---------------------------------------------------------------------

  /** Nothing of the document and of the jobs on it changes, or jobs close. */
  lemma AsideStaysFresh(s: State, t: State, id: DocId)
    requires NoneStale(s, id) && (id in t.docs ==> id in s.docs && t.docs[id] == s.docs[id])
    requires forall j :: OpenOn(t.actors.jobs, j, id) ==>
               OpenOn(s.actors.jobs, j, id) && t.actors.jobs[j].worker == s.actors.jobs[j].worker
               && t.actors.jobs[j].epoch == s.actors.jobs[j].epoch
    ensures NoneStale(t, id)
  {
    forall j ensures !StaleOwner(t, j, id) {
      assert !StaleOwner(s, j, id);
    }
  }

  lemma ClaimStaysFresh(s: State, w: WorkerId, id: DocId)
    requires Coherent(s) && NoneStale(s, id) && WorkerEnabled(s, w, DoClaim) && ClaimWins(s, w, DoClaim)
    requires !ClaimsOver(s, OfWorker(w, DoClaim), id)
    ensures NoneStale(ClaimWonStep(s, w), id)
  {
    var t := ClaimWonStep(s, w);
    forall j ensures !StaleOwner(t, j, id) {
      assert !StaleOwner(s, j, id);
    }
  }

  lemma WorkStaysFresh(s: State, j: JobId, a: WorkStep, id: DocId)
    requires NoneStale(s, id) && WorkEnabled(s, j, a)
    ensures NoneStale(WorkNext(s, j, a), id)
  {
    WorkFrame(s, j, a);
    WorkReleases(s, j, a);
    forall i ensures !StaleOwner(WorkNext(s, j, a), i, id) { assert !StaleOwner(s, i, id); }
  }

  /** A job keeps its claim, and a record it writes is nobody's any more. */
  lemma WorkReleases(s: State, j: JobId, a: WorkStep)
    requires WorkEnabled(s, j, a)
    ensures var (t, x) := (WorkNext(s, j, a), s.actors.jobs[j]);
            && j in t.actors.jobs && t.actors.jobs[j].worker == x.worker && t.actors.jobs[j].epoch == x.epoch && t.actors.jobs[j].doc == x.doc
            && x.pc.Open()
            && (t.docs == s.docs || !Owns(t.docs, x.doc, x.worker))
            && forall w :: Owns(t.docs, x.doc, w) ==> Owns(s.docs, x.doc, w)
  {
    match a
    case DoReread =>
    case DoStart =>
    case DoComplete =>
    case DoRetry(_, _) =>
    case DoFail(_, _) =>
    case DoAbort =>
  }

  lemma SettleStaysFresh(s: State, j: JobId, a: SettleStep, id: DocId)
    requires NoneStale(s, id) && SettleEnabled(s, j, a)
    ensures NoneStale(SettleNext(s, j, a), id)
  {
    SettleFrame(s, j, a);
    SettleCloses(s, j, a, id);
    AsideStaysFresh(s, SettleNext(s, j, a), id);
  }

  lemma SettleCloses(s: State, j: JobId, a: SettleStep, id: DocId)
    requires SettleEnabled(s, j, a)
    ensures OpenOn(SettleNext(s, j, a).actors.jobs, j, id) ==> SettleNext(s, j, a).actors.jobs[j] == s.actors.jobs[j]
  {
    match a
    case DoStoreSummary(_) =>
    case DoFreeSlot(_) =>
    case DoFreeGuard(_) =>
    case DoEnterDelay(_) =>
    case DoAckEntry =>
    case DoReap =>
  }

  /** A record that was reset is nobody's. */
  lemma SweepStaysFresh(s: State, x: SweepId, a: SweepStep, id: DocId)
    requires NoneStale(s, id) && SweepEnabled(s, x, a)
    ensures NoneStale(SweepNext(s, x, a), id)
  {
    SweepFrame(s, x, a);
    if !ResetHits(s, x, a) { QuietSweep(s, x, a); }
    forall j ensures !StaleOwner(SweepNext(s, x, a), j, id) { assert !StaleOwner(s, j, id); }
  }

  lemma SubmitStaysFresh(s: State, t: State, sid: SubmitId, id: DocId)
    requires Coherent(s) && NoneStale(s, id) && SubmitFrame(s, t, sid)
    requires id in s.docs ==> id in t.docs && t.docs[id] == s.docs[id]
    ensures NoneStale(t, id)
  {
    forall j ensures !StaleOwner(t, j, id) {
      assert !StaleOwner(s, j, id);
      if OpenOn(s.actors.jobs, j, id) { assert JobOk(j, s.actors.jobs[j], s.nextId, s.docs, s.redis.delivered); }
    }
  }

  lemma NextStaysFresh(s: State, a: Action, id: DocId)
    requires Coherent(s) && NoneStale(s, id) && Enabled(s, a) && !ClaimsOver(s, a, id)
    ensures NoneStale(Next(s, a), id)
  {
    match a
    case OfLookup(sid, step) =>
      LookupFrame(s, sid, step);
      LookupAddsOneThing(s, sid, step);
      SubmitStaysFresh(s, LookupNext(s, sid, step), sid, id);
    case OfEnqueue(sid, step) =>
      assert SubmitOk(sid, s.actors.submits[sid], s.nextId, s.docs, s.audit.minted);
      EnqueueFrame(s, sid, step);
      EnqueueAddsOneThing(s, sid, step);
      SubmitStaysFresh(s, EnqueueNext(s, sid, step), sid, id);
    case OfWorker(w, step) =>
      if ClaimWins(s, w, step) { ClaimStaysFresh(s, w, id); }
      else { QuietStep(s, w, step); AsideStaysFresh(s, WorkerNext(s, w, step), id); }
    case OfWork(j, step) => WorkStaysFresh(s, j, step, id);
    case OfSettle(j, step) => SettleStaysFresh(s, j, step, id);
    case OfSweep(x, step) => SweepStaysFresh(s, x, step, id);
    case OfRecon(r, step) => ReconFrame(s, r, step); AsideStaysFresh(s, ReconNext(s, r, step), id);
    case OfEnv(step) => EnvFrame(s, step); AsideStaysFresh(s, EnvNext(s, step), id);
  }

  // ---------------------------------------------------------------------
  // A claim over makes one
  // ---------------------------------------------------------------------

  /** While the worker claims, no claim of its own waits: the other one runs. */
  lemma OtherClaimRuns(s: State, w: WorkerId, id: DocId) returns (j: JobId)
    requires Coherent(s) && Throttled(s) && w in s.actors.workers && s.actors.workers[w].pc.Pull? && HasOpenJob(s.actors.jobs, w, id)
    ensures j in s.actors.jobs && j < s.nextId && s.actors.jobs[j].worker == w && s.actors.jobs[j].doc == id && s.actors.jobs[j].pc.Run?
    ensures id in s.docs && s.actors.jobs[j].epoch <= s.docs[id].attempts
  {
    j :| j in s.actors.jobs && s.actors.jobs[j].worker == w && s.actors.jobs[j].doc == id && s.actors.jobs[j].pc.Open();
    assert WorkerBalanced(s.actors.workers[w], s.actors.jobs, w, s.cfg.concurrency);
    assert !Waits(s.actors.jobs, w, j);
    assert JobOk(j, s.actors.jobs[j], s.nextId, s.docs, s.redis.delivered);
  }

  lemma OldClaimMatches(s: State, w: WorkerId, id: DocId, j: JobId)
    requires Claimed(s, OfWorker(w, DoClaim), id) && id in s.docs
    requires j in s.actors.jobs && j < s.nextId && s.actors.jobs[j].worker == w && s.actors.jobs[j].doc == id && s.actors.jobs[j].pc.Run?
    requires s.actors.jobs[j].epoch <= s.docs[id].attempts
    ensures StaleWrite(WorkerNext(s, w, DoClaim), OfWork(j, DoComplete), id)
  {}

  /** ... and its write now matches. */
  lemma ClaimOverIsStale(s: State, a: Action, id: DocId) returns (b: Action)
    requires Coherent(s) && Throttled(s) && Enabled(s, a) && ClaimsOver(s, a, id)
    ensures StaleWrite(Next(s, a), b, id)
  {
    var j := OtherClaimRuns(s, a.wid, id);
    OldClaimMatches(s, a.wid, id, j);
    b := OfWork(j, DoComplete);
  }

  // ---------------------------------------------------------------------
  // Over runs
  // ---------------------------------------------------------------------

  ghost predicate SomeClaimOver(s: State, acts: seq<Action>, id: DocId)
    requires Legal(s, acts)
    decreases |acts|
  {
    acts != [] && (ClaimsOver(s, acts[0], id) || SomeClaimOver(Next(s, acts[0]), acts[1..], id))
  }

  /** At some point of the run a write of a claim that is not the latest would
      match. */
  ghost predicate SomeStaleWrite(s: State, acts: seq<Action>, id: DocId)
    requires Legal(s, acts)
    decreases |acts|
  {
    (exists b :: StaleWrite(s, b, id)) || (acts != [] && SomeStaleWrite(Next(s, acts[0]), acts[1..], id))
  }

  /** A matching write can be one of an old claim at some point of a run if and
      only if on that run a worker has claimed the document over an unsettled
      claim of its own. */
  lemma {:induction false} StaleExactlyByClaimOver(s: State, acts: seq<Action>, id: DocId)
    requires Coherent(s) && Throttled(s) && NoneStale(s, id) && Legal(s, acts)
    ensures SomeStaleWrite(s, acts, id) <==> SomeClaimOver(s, acts, id)
    decreases |acts|
  {
    if acts != [] {
      var t := Next(s, acts[0]);
      NextKeepsCoherence(s, acts[0]);
      NextKeepsThrottle(s, acts[0]);
      if ClaimsOver(s, acts[0], id) {
        var b := ClaimOverIsStale(s, acts[0], id);
        assert SomeStaleWrite(t, acts[1..], id);
      } else {
        NextStaysFresh(s, acts[0], id);
        StaleExactlyByClaimOver(t, acts[1..], id);
      }
    }
  }
}
