/** What was just touched is left alone: the stale scan does not report a
    record, and no worker takes over an entry, until the time set for it has
    passed since the last write or delivery. */
module Fresh {
  import opened Types
  import opened Repository
  import opened Queue
  import opened Protocol
  import opened Frames
  import opened References
  import opened ReferencesKept
  import opened Slots
  import opened Recovery

  // ---------------------------------------------------------------------
  // What the scan can report
  // ---------------------------------------------------------------------

  /** Queued, untouched for longer than the limit, and no next attempt ahead. */
  ghost predicate LooksLost(s: State, id: DocId) {
    && id in s.docs && s.docs[id].status.Queued?
    && s.now - s.docs[id].updatedAt > s.cfg.staleQueued
    && (s.docs[id].nextAttemptAt.Some? ==> s.docs[id].nextAttemptAt.value <= s.now)
  }

  /** A scan that could be made now reports the document. */
  ghost predicate Reports(s: State, x: SweepId, ids: seq<DocId>, id: DocId) {
    SweepEnabled(s, x, DoFindStale(ids)) && id in ids
  }

  lemma ScanReportsExactly(s: State, x: SweepId, id: DocId)
    requires Sweeping(s, x, FindStale)
    ensures (exists ids :: Reports(s, x, ids, id)) <==> LooksLost(s, id)
  {
    var stale := StaleIds(s.docs, s.now - s.cfg.staleQueued, s.now);
    assert id in stale <==> LooksLost(s, id);
    if LooksLost(s, id) {
      var ids := CursorFrom(stale, SCAN_LIMIT, id);
      assert Reports(s, x, ids, id);
    }
  }

  // ---------------------------------------------------------------------
  // When a record was written
  // ---------------------------------------------------------------------

  /** The step creates or changes the record. */
  ghost predicate WritesTo(s: State, a: Action, id: DocId)
    requires Enabled(s, a)
  {
    id in Next(s, a).docs && (id !in s.docs || Next(s, a).docs[id] != s.docs[id])
  }

  /** A reset writes the time of its scan, everybody else that of the write. */
  ghost function WriteTime(s: State, a: Action): Time {
    if a.OfSweep? && a.swid in s.actors.sweeps && s.actors.sweeps[a.swid].pc.ResetRows?
    then s.actors.sweeps[a.swid].pc.foundAt else s.now
  }

  /** The record is as it was, or was written at that time, not before the last
      write. */
  ghost predicate Stamped(docs: Docs, docs': Docs, id: DocId, at: Time) {
    && (id in docs ==> id in docs' && docs[id].updatedAt <= docs'[id].updatedAt)
    && (id in docs' ==> (id in docs && docs'[id] == docs[id]) || docs'[id].updatedAt == at)
  }

  lemma LookupStamps(s: State, sid: SubmitId, a: LookupStep, id: DocId)
    requires Coherent(s) && LookupEnabled(s, sid, a)
    ensures Stamped(s.docs, LookupNext(s, sid, a).docs, id, s.now)
  {
    LookupAddsOneThing(s, sid, a);
  }

  lemma EnqueueStamps(s: State, sid: SubmitId, a: EnqueueStep, id: DocId)
    requires Coherent(s) && EnqueueEnabled(s, sid, a)
    ensures Stamped(s.docs, EnqueueNext(s, sid, a).docs, id, s.now)
  {
    EnqueueAddsOneThing(s, sid, a);
    assert SubmitOk(sid, s.actors.submits[sid], s.nextId, s.docs, s.audit.minted);
  }

  lemma WorkerStamps(s: State, w: WorkerId, a: WorkerStep, id: DocId)
    requires Coherent(s) && WorkerEnabled(s, w, a)
    ensures Stamped(s.docs, WorkerNext(s, w, a).docs, id, s.now)
  {
    if ClaimWins(s, w, a) {
      assert WorkerNext(s, w, a) == ClaimWonStep(s, w);
    } else {
      QuietStep(s, w, a);
    }
  }

  lemma WorkStamps(s: State, j: JobId, a: WorkStep, id: DocId)
    requires Coherent(s) && WorkEnabled(s, j, a)
    ensures Stamped(s.docs, WorkNext(s, j, a).docs, id, s.now)
  {
    match a
    case DoReread =>
    case DoStart =>
    case DoComplete =>
    case DoRetry(_, _) =>
    case DoFail(_, _) =>
    case DoAbort =>
  }

  /** A reset finds the record as it was when its lease ran out. */
  lemma SweepStamps(s: State, x: SweepId, a: SweepStep, id: DocId)
    requires Coherent(s) && SweepEnabled(s, x, a)
    ensures Stamped(s.docs, SweepNext(s, x, a).docs, id, WriteTime(s, OfSweep(x, a)))
  {
    if ResetHits(s, x, a) {
      var pc := s.actors.sweeps[x].pc;
      assert SweepOk(x, s.actors.sweeps[x], s.nextId, s.docs, s.now) && RowOk(pc.rows[0], pc.foundAt, s.docs);
      assert DocOk(s.cfg, s.now, s.docs[pc.rows[0].id]);
    } else {
      QuietSweep(s, x, a);
    }
  }

  lemma NextStamps(s: State, a: Action, id: DocId)
    requires Coherent(s) && Enabled(s, a)
    ensures Stamped(s.docs, Next(s, a).docs, id, WriteTime(s, a))
    ensures s.now <= Next(s, a).now && Next(s, a).cfg == s.cfg
  {
    match a
    case OfLookup(sid, step) => LookupFrame(s, sid, step); LookupStamps(s, sid, step, id);
    case OfEnqueue(sid, step) => EnqueueFrame(s, sid, step); EnqueueStamps(s, sid, step, id);
    case OfWorker(w, step) => WorkerFrame(s, w, step); WorkerStamps(s, w, step, id);
    case OfWork(j, step) => WorkFrame(s, j, step); WorkStamps(s, j, step, id);
    case OfSettle(j, step) => SettleFrame(s, j, step);
    case OfSweep(x, step) => SweepFrame(s, x, step); SweepStamps(s, x, step, id);
    case OfRecon(r, step) => ReconFrame(s, r, step);
    case OfEnv(step) => EnvFrame(s, step);
  }

  /** So neither clock nor stamp ever goes back. */
  lemma {:induction false} RunStamps(s: State, acts: seq<Action>, id: DocId)
    requires Coherent(s) && Legal(s, acts)
    ensures s.now <= Exec(s, acts).now && Exec(s, acts).cfg == s.cfg && Coherent(Exec(s, acts))
    ensures id in s.docs ==> id in Exec(s, acts).docs && s.docs[id].updatedAt <= Exec(s, acts).docs[id].updatedAt
    decreases |acts|
  {
    if acts != [] {
      NextStamps(s, acts[0], id);
      NextKeepsCoherence(s, acts[0]);
      RunStamps(Next(s, acts[0]), acts[1..], id);
    }
  }

  // ---------------------------------------------------------------------
  // Until when it is left alone
  // ---------------------------------------------------------------------

  /** From its last write until then. */
  ghost function LeftUntil(s: State, id: DocId): Time
    requires id in s.docs
  {
    s.docs[id].updatedAt + s.cfg.staleQueued
  }

  /** No stale scan of any run reports a record before that. */
  lemma ReportedOnlyLate(s: State, acts: seq<Action>, x: SweepId, ids: seq<DocId>, id: DocId)
    requires Coherent(s) && Legal(s, acts) && id in s.docs && Reports(Exec(s, acts), x, ids, id)
    ensures Exec(s, acts).now > LeftUntil(s, id)
  {
    var t := Exec(s, acts);
    RunStamps(s, acts, id);
    assert id in StaleIds(t.docs, t.now - t.cfg.staleQueued, t.now);
  }

  /** A live sweep has reported the document as stale and not yet published it. */
  ghost predicate Listed(s: State, x: SweepId, id: DocId) {
    && x in s.actors.sweeps && s.actors.sweeps[x].worker in s.actors.workers
    && s.actors.sweeps[x].pc.PublishIds? && s.actors.sweeps[x].pc.stage.Restaled? && id in s.actors.sweeps[x].pc.ids
  }

  lemma SweepLists(s: State, x: SweepId, a: SweepStep, y: SweepId, id: DocId)
    requires SweepEnabled(s, x, a) && Listed(SweepNext(s, x, a), y, id)
    ensures Listed(s, y, id) || (x == y && a.DoFindStale? && Reports(s, x, a.ids, id))
  {
    if !a.DoFindStale? { OtherSweepLists(s, x, a, y, id); }
  }

  lemma OtherSweepLists(s: State, x: SweepId, a: SweepStep, y: SweepId, id: DocId)
    requires SweepEnabled(s, x, a) && !a.DoFindStale? && Listed(SweepNext(s, x, a), y, id)
    ensures Listed(s, y, id)
  {
    SweepFrame(s, x, a);
    if x == y { OwnList(s, x, a, id); }
  }

  lemma OwnList(s: State, x: SweepId, a: SweepStep, id: DocId)
    requires SweepEnabled(s, x, a) && !a.DoFindStale? && x in SweepNext(s, x, a).actors.sweeps
    requires var pc := SweepNext(s, x, a).actors.sweeps[x].pc; pc.PublishIds? && pc.stage.Restaled? && id in pc.ids
    ensures var pc := s.actors.sweeps[x].pc; pc.PublishIds? && pc.stage.Restaled? && id in pc.ids
  {
    match a
    case DoFindExpired(_) =>
    case DoResetRow =>
    case DoPopDelayed(_, _) =>
    case DoPublishId(_) =>
    case DoSweepReap =>
  }

  lemma SubmitLists(s: State, t: State, sid: SubmitId, y: SweepId, id: DocId)
    requires SubmitFrame(s, t, sid) && Listed(t, y, id)
    ensures Listed(s, y, id)
  {}

  lemma WorkerLists(s: State, w: WorkerId, a: WorkerStep, y: SweepId, id: DocId)
    requires WorkerEnabled(s, w, a) && Listed(WorkerNext(s, w, a), y, id)
    ensures Listed(s, y, id)
  {}

  lemma WorkLists(s: State, j: JobId, a: WorkStep, y: SweepId, id: DocId)
    requires WorkEnabled(s, j, a) && Listed(WorkNext(s, j, a), y, id)
    ensures Listed(s, y, id)
  {
    match a
    case DoReread =>
    case DoStart =>
    case DoComplete =>
    case DoRetry(_, _) =>
    case DoFail(_, _) =>
    case DoAbort =>
  }

  lemma SettleLists(s: State, j: JobId, a: SettleStep, y: SweepId, id: DocId)
    requires SettleEnabled(s, j, a) && Listed(SettleNext(s, j, a), y, id)
    ensures Listed(s, y, id)
  {}

  /** Only a scan puts a document on such a list. */
  lemma NextLists(s: State, a: Action, y: SweepId, id: DocId)
    requires Coherent(s) && Enabled(s, a) && Listed(Next(s, a), y, id)
    ensures Listed(s, y, id) || (exists x, ids :: Reports(s, x, ids, id))
  {
    match a
    case OfLookup(sid, step) => LookupFrame(s, sid, step); SubmitLists(s, LookupNext(s, sid, step), sid, y, id);
    case OfEnqueue(sid, step) => EnqueueFrame(s, sid, step); SubmitLists(s, EnqueueNext(s, sid, step), sid, y, id);
    case OfWorker(w, step) => WorkerLists(s, w, step, y, id);
    case OfWork(j, step) => WorkLists(s, j, step, y, id);
    case OfSettle(j, step) => SettleLists(s, j, step, y, id);
    case OfSweep(x, step) => SweepLists(s, x, step, y, id);
    case OfRecon(r, step) => ReconFrame(s, r, step);
    case OfEnv(step) => EnvLists(s, step, y, id);
  }

  lemma EnvLists(s: State, a: EnvStep, y: SweepId, id: DocId)
    requires Coherent(s) && EnvEnabled(s, a) && Listed(EnvNext(s, a), y, id)
    ensures Listed(s, y, id)
  {
    if y in s.actors.sweeps { assert SweepOk(y, s.actors.sweeps[y], s.nextId, s.docs, s.now); }
  }

  ghost predicate NotListed(s: State, id: DocId) {
    forall x :: !Listed(s, x, id)
  }

  lemma {:induction false} StaysUnlisted(s: State, acts: seq<Action>, id: DocId, until: Time)
    requires Coherent(s) && Legal(s, acts) && id in s.docs && NotListed(s, id)
    requires until <= LeftUntil(s, id) && Exec(s, acts).now <= until
    ensures NotListed(Exec(s, acts), id)
    decreases |acts|
  {
    if acts != [] {
      var t := Next(s, acts[0]);
      NextStamps(s, acts[0], id);
      NextKeepsCoherence(s, acts[0]);
      RunStamps(t, acts[1..], id);
      forall y ensures !Listed(t, y, id) {
        if Listed(t, y, id) {
          NextLists(s, acts[0], y, id);
          NothingReported(s, id, until);
        }
      }
      StaysUnlisted(t, acts[1..], id, until);
    }
  }

  lemma NothingReported(s: State, id: DocId, until: Time)
    requires Coherent(s) && id in s.docs && s.now <= until <= LeftUntil(s, id)
    ensures forall x, ids :: !Reports(s, x, ids, id)
  {
    assert id !in StaleIds(s.docs, s.now - s.cfg.staleQueued, s.now);
  }

  /** The step publishes the document as a stale one. */
  ghost predicate Restales(s: State, a: Action, id: DocId) {
    && a.OfSweep? && a.sweep.DoPublishId? && Enabled(s, a) && Listed(s, a.swid, id)
    && s.actors.sweeps[a.swid].pc.ids[0] == id
  }

  ghost predicate RestalesBy(s: State, acts: seq<Action>, a: Action, id: DocId, until: Time) {
    Legal(s, acts) && Restales(Exec(s, acts), a, id) && Exec(s, acts).now <= until
  }

  lemma {:induction false} ListedIsPublished(s: State, t: State, x: SweepId, id: DocId) returns (u: State)
    requires Leads(s, t) && Listed(t, x, id)
    ensures Leads(s, u) && u.now == t.now && Restales(u, OfSweep(x, DoPublishId(Answered)), id)
    decreases |t.actors.sweeps[x].pc.ids|
  {
    if t.actors.sweeps[x].pc.ids[0] == id {
      u := t;
    } else {
      SweepOn(s, t, x, DoPublishId(Answered));
      u := ListedIsPublished(s, PublishIdStep(t, x, Answered), x, id);
    }
  }

  /** Whether a stale stage publishes the document before `staleQueued` has
      passed since its last write: in some run, if and only if there is time
      left and a live sweep has reported it already. */
  lemma RestaledExactly(s: State, id: DocId, until: Time)
    requires Coherent(s) && id in s.docs && until == LeftUntil(s, id)
    ensures (exists acts, a :: RestalesBy(s, acts, a, id, until)) <==> s.now <= until && exists x :: Listed(s, x, id)
  {
    forall acts, a | RestalesBy(s, acts, a, id, until) ensures s.now <= until && !NotListed(s, id) {
      RunStamps(s, acts, id);
      if NotListed(s, id) { StaysUnlisted(s, acts, id, until); }
    }
    if s.now <= until {
      if x :| Listed(s, x, id) {
        Stay(s);
        var u := ListedIsPublished(s, s, x, id);
        var acts :| Legal(s, acts) && AllBenign(acts) && Exec(s, acts) == u;
        assert RestalesBy(s, acts, OfSweep(x, DoPublishId(Answered)), id, until);
      }
    }
  }

  // ---------------------------------------------------------------------
  // A retry is spared until it is due
  // ---------------------------------------------------------------------

  /** A settling write on this document that lands. */
  ghost predicate SettlesOn(s: State, a: Action, id: DocId) {
    && a.OfWork? && (a.work.DoComplete? || a.work.DoRetry? || a.work.DoFail?)
    && JobOwns(s, a.jid) && s.actors.jobs[a.jid].doc == id
  }

  /** The schedule of the record and its last error are as they were. */
  ghost predicate SameSchedule(docs: Docs, docs': Docs, id: DocId) {
    && id in docs && id in docs'
    && docs'[id].nextAttemptAt == docs[id].nextAttemptAt && docs'[id].error == docs[id].error
  }

  lemma WorkKeepsSchedule(s: State, j: JobId, a: WorkStep, id: DocId)
    requires WorkEnabled(s, j, a) && id in s.docs && !SettlesOn(s, OfWork(j, a), id)
    ensures SameSchedule(s.docs, WorkNext(s, j, a).docs, id)
  {
    match a
    case DoReread =>
    case DoStart =>
    case DoComplete =>
    case DoRetry(_, _) =>
    case DoFail(_, _) =>
    case DoAbort =>
  }

  /** Claims and recoveries leave both alone; only settling writes change them. */
  lemma NextKeepsSchedule(s: State, a: Action, id: DocId)
    requires Coherent(s) && Enabled(s, a) && id in s.docs && !SettlesOn(s, a, id)
    ensures SameSchedule(s.docs, Next(s, a).docs, id)
  {
    match a
    case OfLookup(sid, step) => LookupAddsOneThing(s, sid, step);
    case OfEnqueue(sid, step) =>
      assert SubmitOk(sid, s.actors.submits[sid], s.nextId, s.docs, s.audit.minted);
      EnqueueAddsOneThing(s, sid, step);
    case OfWorker(w, step) => if !ClaimWins(s, w, step) { QuietStep(s, w, step); }
    case OfWork(j, step) => WorkKeepsSchedule(s, j, step, id);
    case OfSettle(j, step) => SettleFrame(s, j, step);
    case OfSweep(x, step) => if !ResetHits(s, x, step) { QuietSweep(s, x, step); }
    case OfRecon(r, step) => ReconFrame(s, r, step);
    case OfEnv(step) => EnvFrame(s, step);
  }

  ghost predicate NeverSettled(s: State, acts: seq<Action>, id: DocId)
    requires Legal(s, acts)
    decreases |acts|
  {
    acts == [] || (!SettlesOn(s, acts[0], id) && NeverSettled(Next(s, acts[0]), acts[1..], id))
  }

  lemma {:induction false} RunKeepsSchedule(s: State, acts: seq<Action>, id: DocId)
    requires Coherent(s) && Legal(s, acts) && id in s.docs && NeverSettled(s, acts, id)
    ensures SameSchedule(s.docs, Exec(s, acts).docs, id)
    decreases |acts|
  {
    if acts != [] {
      NextKeepsSchedule(s, acts[0], id);
      NextKeepsCoherence(s, acts[0]);
      RunKeepsSchedule(Next(s, acts[0]), acts[1..], id);
    }
  }

  /** Until a scheduled retry is due no stale scan reports the document,
      whoever claims it and whatever recovery does, unless it is settled again. */
  lemma SparedUntilDue(s: State, acts: seq<Action>, id: DocId, due: Time, x: SweepId, ids: seq<DocId>)
    requires Coherent(s) && Legal(s, acts) && id in s.docs && s.docs[id].nextAttemptAt == Some(due) && NeverSettled(s, acts, id)
    requires Reports(Exec(s, acts), x, ids, id)
    ensures Exec(s, acts).now >= due
  {
    var t := Exec(s, acts);
    RunKeepsSchedule(s, acts, id);
    assert id in StaleIds(t.docs, t.now - t.cfg.staleQueued, t.now);
  }

  // ---------------------------------------------------------------------
  // Entries stay with their worker
  // ---------------------------------------------------------------------

  /** The clock is past `since`, and so is every delivery of the entry. */
  ghost predicate DeliveredSince(s: State, e: EntryId, since: Time) {
    since <= s.now && (e in s.redis.pel ==> since <= s.redis.pel[e].since)
  }

  lemma WorkerDelivers(s: State, w: WorkerId, a: WorkerStep, e: EntryId, since: Time)
    requires WorkerEnabled(s, w, a) && DeliveredSince(s, e, since)
    ensures DeliveredSince(WorkerNext(s, w, a), e, since)
  {
    match a
    case DoPoll =>
    case DoRecover(_, _) =>
    case DoReadStream(_) =>
    case DoClaim =>
    case DoAckLost =>
  }

  lemma SettleDelivers(s: State, j: JobId, a: SettleStep, e: EntryId, since: Time)
    requires SettleEnabled(s, j, a) && DeliveredSince(s, e, since)
    ensures DeliveredSince(SettleNext(s, j, a), e, since)
  {}

  lemma EnvDelivers(s: State, a: EnvStep, e: EntryId, since: Time)
    requires EnvEnabled(s, a) && DeliveredSince(s, e, since)
    ensures DeliveredSince(EnvNext(s, a), e, since)
  {}

  lemma NextDelivers(s: State, a: Action, e: EntryId, since: Time)
    requires Enabled(s, a) && DeliveredSince(s, e, since)
    ensures DeliveredSince(Next(s, a), e, since)
  {
    match a
    case OfLookup(sid, step) => LookupFrame(s, sid, step);
    case OfEnqueue(sid, step) => EnqueueFrame(s, sid, step);
    case OfWorker(w, step) => WorkerDelivers(s, w, step, e, since);
    case OfWork(j, step) => WorkFrame(s, j, step);
    case OfSettle(j, step) => SettleDelivers(s, j, step, e, since);
    case OfSweep(x, step) => SweepFrame(s, x, step);
    case OfRecon(r, step) => ReconFrame(s, r, step);
    case OfEnv(step) => EnvDelivers(s, step, e, since);
  }

  lemma {:induction false} RunDelivers(s: State, acts: seq<Action>, e: EntryId, since: Time)
    requires Legal(s, acts) && DeliveredSince(s, e, since)
    ensures DeliveredSince(Exec(s, acts), e, since)
    decreases |acts|
  {
    if acts != [] {
      NextDelivers(s, acts[0], e, since);
      RunDelivers(Next(s, acts[0]), acts[1..], e, since);
    }
  }

  /** A takeover of the entry that could happen now. */
  ghost predicate TakesOver(s: State, w: WorkerId, taken: seq<EntryId>, reply: Reply, e: EntryId) {
    WorkerEnabled(s, w, DoRecover(taken, reply)) && e in taken
  }

  /** Nobody takes over an entry until a whole lease after its last delivery,
      whatever happens to the worker that has it. */
  lemma TakenOverOnlyLate(s: State, acts: seq<Action>, w: WorkerId, taken: seq<EntryId>, reply: Reply, e: EntryId)
    requires Legal(s, acts) && e in s.redis.pel && s.redis.pel[e].since <= s.now
    requires TakesOver(Exec(s, acts), w, taken, reply, e)
    ensures Exec(s, acts).now >= s.redis.pel[e].since + s.cfg.lease
  {
    RunDelivers(s, acts, e, s.redis.pel[e].since);
    SurplusOfRun(s, acts, "");
    assert IsIdle(Exec(s, acts), e);
  }

  /** No delivery lies ahead of the clock. */
  ghost predicate DeliveriesPast(s: State) {
    forall e :: e in s.redis.pel ==> s.redis.pel[e].since <= s.now
  }

  lemma WorkerKeepsPast(s: State, w: WorkerId, a: WorkerStep)
    requires WorkerEnabled(s, w, a) && DeliveriesPast(s)
    ensures DeliveriesPast(WorkerNext(s, w, a))
  {
    match a
    case DoPoll =>
    case DoRecover(_, _) =>
    case DoReadStream(_) =>
    case DoClaim =>
    case DoAckLost =>
  }

  lemma SettleKeepsPast(s: State, j: JobId, a: SettleStep)
    requires SettleEnabled(s, j, a) && DeliveriesPast(s)
    ensures DeliveriesPast(SettleNext(s, j, a))
  {}

  lemma EnvKeepsPast(s: State, a: EnvStep)
    requires EnvEnabled(s, a) && DeliveriesPast(s)
    ensures DeliveriesPast(EnvNext(s, a))
  {}

  lemma NextKeepsPast(s: State, a: Action)
    requires Enabled(s, a) && DeliveriesPast(s)
    ensures DeliveriesPast(Next(s, a))
  {
    match a
    case OfLookup(sid, step) => LookupFrame(s, sid, step);
    case OfEnqueue(sid, step) => EnqueueFrame(s, sid, step);
    case OfWorker(w, step) => WorkerKeepsPast(s, w, step);
    case OfWork(j, step) => WorkFrame(s, j, step);
    case OfSettle(j, step) => SettleKeepsPast(s, j, step);
    case OfSweep(x, step) => SweepFrame(s, x, step);
    case OfRecon(r, step) => ReconFrame(s, r, step);
    case OfEnv(step) => EnvKeepsPast(s, step);
  }

  lemma {:induction false} RunKeepsPast(s: State, acts: seq<Action>)
    requires Legal(s, acts) && DeliveriesPast(s)
    ensures DeliveriesPast(Exec(s, acts))
    decreases |acts|
  {
    if acts != [] {
      NextKeepsPast(s, acts[0]);
      RunKeepsPast(Next(s, acts[0]), acts[1..]);
    }
  }
}
