/** What each group of steps leaves alone. */
module Frames {
  import opened Types
  import opened Repository
  import opened Protocol

  // ---------------------------------------------------------------------
  // Submissions
  // ---------------------------------------------------------------------

  ghost predicate SubmitFrame(s: State, t: State, sid: SubmitId) {
    && t.cfg == s.cfg && t.now == s.now && s.nextId <= t.nextId
    && MovesSubmit(s, t.actors, sid)
    && t.redis.delivered == s.redis.delivered && t.redis.pel == s.redis.pel && t.redis.zset == s.redis.zset
    && t.audit.history == s.audit.history
  }

  lemma LookupFrame(s: State, sid: SubmitId, a: LookupStep)
    requires LookupEnabled(s, sid, a)
    ensures SubmitFrame(s, LookupNext(s, sid, a), sid)
  {}

  lemma EnqueueFrame(s: State, sid: SubmitId, a: EnqueueStep)
    requires EnqueueEnabled(s, sid, a)
    ensures SubmitFrame(s, EnqueueNext(s, sid, a), sid)
  {
    match a
    case DoTakeSlot(_) =>
    case DoCountActive =>
    case DoInsertNew(_) =>
    case DoPublishNew(_) =>
    case DoGiveSlotBack(_) =>
    case DoGiveGuardBack(_) =>
    case SubmitDies =>
  }

  /** Looking up adds at most one minted id or one record. */
  ghost predicate LookupAdds(s: State, t: State, sid: SubmitId, a: LookupStep)
    requires sid in s.actors.submits
  {
    var x := s.actors.submits[sid];
    && t.redis.log == s.redis.log && t.redis.counters == s.redis.counters
    && t.audit.ledger == s.audit.ledger && t.audit.orphaned == s.audit.orphaned
    && t.audit.minted == (if a == DoFindDone(None) then s.audit.minted[s.nextId := Mint(sid, SubmitKey(x))] else s.audit.minted)
    && t.nextId == (if a == DoFindDone(None) || a == DoInsertHit then s.nextId + 1 else s.nextId)
    && t.docs == (if a == DoInsertHit && x.pc.InsertHit? then s.docs[s.nextId := HitDoc(x, s.nextId, x.pc.found, s.now)]
                  else s.docs)
  }

  lemma LookupAddsOneThing(s: State, sid: SubmitId, a: LookupStep)
    requires LookupEnabled(s, sid, a)
    ensures LookupAdds(s, LookupNext(s, sid, a), sid, a)
  {}

  predicate Inserts(a: EnqueueStep) { a.DoInsertNew? && a.reply.Took() }

  /** Enqueueing adds at most one record or one stream entry. */
  ghost predicate EnqueueAdds(s: State, t: State, sid: SubmitId, a: EnqueueStep)
    requires sid in s.actors.submits
  {
    var x := s.actors.submits[sid];
    && t.audit.minted == s.audit.minted && t.nextId == s.nextId && t.redis.cache == s.redis.cache
    && t.docs == (if Inserts(a) && x.pc.InsertNew? then s.docs[x.pc.id := NewDoc(x.user, x.title, x.content, x.hash, s.now)]
                  else s.docs)
    && t.redis.log == (if a.DoPublishNew? && a.reply.Took() && x.pc.PublishNew? then s.redis.log + [x.pc.id]
                       else s.redis.log)
  }

  lemma EnqueueAddsOneThing(s: State, sid: SubmitId, a: EnqueueStep)
    requires EnqueueEnabled(s, sid, a)
    ensures EnqueueAdds(s, EnqueueNext(s, sid, a), sid, a)
  {}

  lemma MovedSubmit(s: State, t: Actors, sid: SubmitId)
    requires MovesSubmit(s, t, sid)
    ensures SameElsewhere(s.actors.submits, t.submits, sid) && t.jobs == s.actors.jobs
  {}

  // ---------------------------------------------------------------------
  // Workers and jobs
  // ---------------------------------------------------------------------

  lemma WorkerFrame(s: State, w: WorkerId, a: WorkerStep)
    requires WorkerEnabled(s, w, a)
    ensures var t := WorkerNext(s, w, a);
            && t.cfg == s.cfg && t.now == s.now && t.audit == s.audit
            && t.redis == s.redis.(delivered := t.redis.delivered, pel := t.redis.pel)
            && t.actors == s.actors.(workers := t.actors.workers, jobs := t.actors.jobs)
  {}

  /** Apart from a claim that wins, the loop touches only the worker, the
      delivery point and the pending list. */
  ghost predicate LoopFrame(s: State, t: State, w: WorkerId) {
    && t.cfg == s.cfg && t.now == s.now && t.nextId == s.nextId && t.docs == s.docs && t.audit == s.audit
    && (exists k :: t.actors == PutWorker(s, w, k))
    && t.redis == s.redis.(delivered := t.redis.delivered, pel := t.redis.pel)
  }

  ghost predicate ClaimWins(s: State, w: WorkerId, a: WorkerStep)
    requires WorkerEnabled(s, w, a)
  {
    a == DoClaim && IsQueued(s.docs, s.redis.log[s.actors.workers[w].batch[0]])
  }

  lemma QuietStep(s: State, w: WorkerId, a: WorkerStep)
    requires WorkerEnabled(s, w, a) && !ClaimWins(s, w, a)
    ensures LoopFrame(s, WorkerNext(s, w, a), w)
  {}

  /** A running job writes at most its own record, and only if it owns it. */
  lemma WorkFrame(s: State, j: JobId, a: WorkStep)
    requires WorkEnabled(s, j, a)
    ensures var (t, id) := (WorkNext(s, j, a), s.actors.jobs[j].doc);
            && t.cfg == s.cfg && t.now == s.now && t.nextId == s.nextId && t.redis == s.redis
            && t.audit == s.audit.(history := t.audit.history)
            && t.audit.history.slotFreed == s.audit.history.slotFreed && t.audit.history.guardFreed == s.audit.history.guardFreed
            && t.actors == s.actors.(workers := t.actors.workers, jobs := t.actors.jobs)
            && SameElsewhere(s.actors.jobs, t.actors.jobs, j)
            && (t.docs == s.docs || (JobOwns(s, j) && id in t.docs && SameElsewhere(s.docs, t.docs, id)))
  {}

  lemma SettleFrame(s: State, j: JobId, a: SettleStep)
    requires SettleEnabled(s, j, a)
    ensures var (t, h) := (SettleNext(s, j, a), s.audit.history);
            && t.cfg == s.cfg && t.now == s.now && t.nextId == s.nextId && t.docs == s.docs
            && t.redis.log == s.redis.log && t.redis.delivered == s.redis.delivered
            && t.audit.minted == s.audit.minted && t.audit.tainted == s.audit.tainted
            && t.audit.ledger.surplus == s.audit.ledger.surplus
            && t.audit.history == h.(slotFreed := t.audit.history.slotFreed, guardFreed := t.audit.history.guardFreed)
            && t.actors == s.actors.(workers := t.actors.workers, jobs := t.actors.jobs)
            && SameElsewhere(s.actors.jobs, t.actors.jobs, j)
  {}

  // ---------------------------------------------------------------------
  // Sweepers, reconcile runs and the environment
  // ---------------------------------------------------------------------

  lemma SweepFrame(s: State, w: SweepId, a: SweepStep)
    requires SweepEnabled(s, w, a)
    ensures var t := SweepNext(s, w, a);
            && t.cfg == s.cfg && t.now == s.now && t.nextId == s.nextId && MovesSweep(s, t.actors, w)
            && t.redis == s.redis.(log := t.redis.log, zset := t.redis.zset) && s.redis.log <= t.redis.log
            && t.audit.minted == s.audit.minted && t.audit.ledger == s.audit.ledger && t.audit.tainted == s.audit.tainted
  {
    match a
    case DoFindExpired(_) =>
    case DoResetRow =>
    case DoPopDelayed(_, _) =>
    case DoFindStale(_) =>
    case DoPublishId(_) =>
    case DoSweepReap =>
  }

  ghost predicate ResetHits(s: State, w: SweepId, a: SweepStep) {
    a == DoResetRow && RowMatches(s, w)
  }

  /** Apart from a reset that matches, a sweep rewrites no record. */
  lemma QuietSweep(s: State, w: SweepId, a: SweepStep)
    requires SweepEnabled(s, w, a) && !ResetHits(s, w, a)
    ensures SweepNext(s, w, a).docs == s.docs && SweepNext(s, w, a).audit.history == s.audit.history
  {}

  lemma ReconFrame(s: State, r: ReconId, a: ReconStep)
    requires ReconEnabled(s, r, a)
    ensures var t := ReconNext(s, r, a);
            && t.cfg == s.cfg && t.now == s.now && t.nextId == s.nextId && t.docs == s.docs
            && t.redis == s.redis.(counters := t.redis.counters)
            && t.actors == s.actors.(recons := t.actors.recons)
            && t.audit == s.audit.(ledger := t.audit.ledger)
  {}

  lemma EnvFrame(s: State, a: EnvStep)
    requires EnvEnabled(s, a)
    ensures var t := EnvNext(s, a);
            && t.cfg == s.cfg && s.now <= t.now && s.nextId <= t.nextId && t.docs == s.docs
            && t.actors.jobs == s.actors.jobs
            && t.audit.minted == s.audit.minted && t.audit.history == s.audit.history && s.audit.tainted <= t.audit.tainted
            && (!a.ExpireCounter? ==> t.audit.ledger == s.audit.ledger && t.redis.counters == s.redis.counters)
            && t.redis.log == s.redis.log && (s.redis.delivered <= |s.redis.log| ==> s.redis.delivered <= t.redis.delivered)
            && t.redis.guards == (if a.ExpireGuard? then s.redis.guards - {a.key} else s.redis.guards)
  {}
}
