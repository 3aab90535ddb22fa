/** The cache as a refinement of the collection, and where summaries come
    from. Everything Redis or a submission holds was computed from a document
    that the collection still has as genuinely processed. */
module Provenance {
  import opened Text
  import opened Types
  import opened Summarizer
  import opened Repository
  import opened Cache
  import opened Protocol
  import opened Frames
  import Ingestion
  import opened References
  import opened ReferencesKept
  import opened Settlement
  import opened Guards

  // ---------------------------------------------------------------------
  // The invariant
  // ---------------------------------------------------------------------

  /** `g` was processed for this key, and this is the summary computed then. */
  ghost predicate ComputedFor(docs: Docs, g: DocId, key: Key, summary: Summary) {
    g in docs && IsGenuine(docs[g], key.0, key.1) && summary == Summarized(g, docs[g])
  }

  ghost predicate Sourced(docs: Docs, key: Key, summary: Summary) {
    exists g :: ComputedFor(docs, g, key, summary)
  }

  /** `d` was answered from the work done for `g`. */
  ghost predicate DuplicateOf(docs: Docs, id: DocId, d: Doc, g: DocId) {
    g in docs && IsGenuine(docs[g], d.user, d.hash)
    && d.summary == Some(AsDuplicate(Summarized(g, docs[g]), RefOf(id, d)))
  }

  ghost predicate DocSourced(docs: Docs, id: DocId, d: Doc) {
    && d.hash == HashContent(d.content)
    && (d.status.Completed? && !d.fromCache ==> d.summary == Some(Summarized(id, d)))
    && (d.fromCache ==> exists g :: DuplicateOf(docs, id, d, g))
  }

  ghost predicate DocsSourced(docs: Docs) {
    forall id :: id in docs ==> DocSourced(docs, id, docs[id])
  }

  ghost predicate CacheSourced(cache: map<Key, Summary>, docs: Docs) {
    forall key :: key in cache ==> Sourced(docs, key, cache[key])
  }

  ghost predicate SubmitSourced(x: Submit, docs: Docs) {
    && x.hash == HashContent(x.content)
    && (x.pc.FillCache? || x.pc.InsertHit? ==> Sourced(docs, SubmitKey(x), x.pc.found))
  }

  ghost predicate SubmitsSourced(submits: map<SubmitId, Submit>, docs: Docs) {
    forall sid :: sid in submits ==> SubmitSourced(submits[sid], docs)
  }

  ghost predicate JobsSourced(jobs: map<JobId, Job>, docs: Docs) {
    forall j :: j in jobs && jobs[j].pc.StoreSummary? ==> Sourced(docs, KeyOf(jobs[j].snap), jobs[j].pc.summary)
  }

  ghost predicate Provenanced(s: State) {
    && DocsSourced(s.docs) && CacheSourced(s.redis.cache, s.docs)
    && SubmitsSourced(s.actors.submits, s.docs) && JobsSourced(s.actors.jobs, s.docs)
  }

  // ---------------------------------------------------------------------
  // Sources stay
  // ---------------------------------------------------------------------

  ghost predicate TerminalStay(docs: Docs, docs': Docs) {
    forall id :: Terminal(docs, id) ==> id in docs' && docs'[id] == docs[id]
  }

  lemma SourceStays(docs: Docs, docs': Docs, key: Key, summary: Summary)
    requires Sourced(docs, key, summary) && TerminalStay(docs, docs')
    ensures Sourced(docs', key, summary)
  {
    var g :| ComputedFor(docs, g, key, summary);
    assert Terminal(docs, g);
    assert ComputedFor(docs', g, key, summary);
  }

  lemma DuplicateStays(docs: Docs, docs': Docs, id: DocId, d: Doc, g: DocId)
    requires DuplicateOf(docs, id, d, g) && TerminalStay(docs, docs')
    ensures DuplicateOf(docs', id, d, g)
  {}

  lemma DocStaysSourced(docs: Docs, docs': Docs, id: DocId, d: Doc)
    requires DocSourced(docs, id, d) && TerminalStay(docs, docs')
    ensures DocSourced(docs', id, d)
  {
    if d.fromCache {
      var g :| DuplicateOf(docs, id, d, g);
      DuplicateStays(docs, docs', id, d, g);
    }
  }

  lemma CacheStaysSourced(cache: map<Key, Summary>, docs: Docs, docs': Docs)
    requires CacheSourced(cache, docs) && TerminalStay(docs, docs')
    ensures CacheSourced(cache, docs')
  {
    forall key | key in cache ensures Sourced(docs', key, cache[key]) {
      SourceStays(docs, docs', key, cache[key]);
    }
  }

  lemma SubmitsStaySourced(submits: map<SubmitId, Submit>, docs: Docs, docs': Docs)
    requires SubmitsSourced(submits, docs) && TerminalStay(docs, docs')
    ensures SubmitsSourced(submits, docs')
  {
    forall sid | sid in submits ensures SubmitSourced(submits[sid], docs') {
      var x := submits[sid];
      if x.pc.FillCache? || x.pc.InsertHit? { SourceStays(docs, docs', SubmitKey(x), x.pc.found); }
    }
  }

  lemma JobsStaySourced(jobs: map<JobId, Job>, docs: Docs, docs': Docs)
    requires JobsSourced(jobs, docs) && TerminalStay(docs, docs')
    ensures JobsSourced(jobs, docs')
  {
    forall j | j in jobs && jobs[j].pc.StoreSummary? ensures Sourced(docs', KeyOf(jobs[j].snap), jobs[j].pc.summary) {
      SourceStays(docs, docs', KeyOf(jobs[j].snap), jobs[j].pc.summary);
    }
  }

  /** What held before the step still holds, of the old actors and entries. */
  lemma EverythingStays(s: State, docs': Docs)
    requires Provenanced(s) && TerminalStay(s.docs, docs')
    ensures CacheSourced(s.redis.cache, docs') && SubmitsSourced(s.actors.submits, docs') && JobsSourced(s.actors.jobs, docs')
    ensures forall id :: id in s.docs ==> DocSourced(docs', id, s.docs[id])
  {
    CacheStaysSourced(s.redis.cache, s.docs, docs');
    SubmitsStaySourced(s.actors.submits, s.docs, docs');
    JobsStaySourced(s.actors.jobs, s.docs, docs');
    forall id | id in s.docs ensures DocSourced(docs', id, s.docs[id]) { DocStaysSourced(s.docs, docs', id, s.docs[id]); }
  }

  lemma NextTerminalStay(s: State, a: Action)
    requires Coherent(s) && Enabled(s, a)
    ensures TerminalStay(s.docs, Next(s, a).docs)
  {
    forall id | Terminal(s.docs, id) ensures id in Next(s, a).docs && Next(s, a).docs[id] == s.docs[id] {
      TerminalIsFinal(s, a, id);
    }
  }

  // ---------------------------------------------------------------------
  // Submissions
  // ---------------------------------------------------------------------

  /** What the record answers a lookup with is the summary of a source. */
  lemma FoundIsSourced(docs: Docs, user: UserId, hash: ContentHash, id: DocId)
    requires DocsSourced(docs) && id in GenuineIds(docs, user, hash)
    ensures docs[id].summary.Some? && Ingestion.Attributed(id, docs[id]) == Summarized(id, docs[id])
    ensures ComputedFor(docs, id, (user, hash), Ingestion.Attributed(id, docs[id]))
  {}

  lemma LookupSourceSelf(s: State, sid: SubmitId, a: LookupStep)
    requires LookupEnabled(s, sid, a) && DocsSourced(s.docs) && CacheSourced(s.redis.cache, s.docs)
    requires SubmitSourced(s.actors.submits[sid], s.docs)
    ensures var t := LookupNext(s, sid, a);
            && (sid in t.actors.submits ==> SubmitSourced(t.actors.submits[sid], s.docs))
            && CacheSourced(t.redis.cache, s.docs)
  {
    match a
    case DoReadCache(_) =>
    case DoFindDone(found) => FindingIsSourced(s, sid, found);
    case DoFillCache(_) =>
    case DoInsertHit =>
    case DoSetGuard(_) =>
    case DoReadGuard(_) =>
    case DoJoin =>
  }

  lemma FindingIsSourced(s: State, sid: SubmitId, found: Option<DocId>)
    requires LookupEnabled(s, sid, DoFindDone(found)) && DocsSourced(s.docs) && SubmitSourced(s.actors.submits[sid], s.docs)
    ensures var t := LookupNext(s, sid, DoFindDone(found));
            t.redis == s.redis && sid in t.actors.submits && SubmitSourced(t.actors.submits[sid], s.docs)
  {
    var x := s.actors.submits[sid];
    if found.Some? { FoundIsSourced(s.docs, x.user, x.hash, found.value); }
  }

  lemma HitIsSourced(docs: Docs, x: Submit, id: DocId, now: Time)
    requires SubmitSourced(x, docs) && x.pc.InsertHit?
    ensures DocSourced(docs, id, HitDoc(x, id, x.pc.found, now))
  {
    var d := HitDoc(x, id, x.pc.found, now);
    var g :| ComputedFor(docs, g, SubmitKey(x), x.pc.found);
    assert DuplicateOf(docs, id, d, g);
  }

  /** A record that is added carries a sourced summary, and the rest stays. */
  lemma LookupKeepsDocs(s: State, sid: SubmitId, a: LookupStep, docs': Docs)
    requires Provenanced(s) && LookupEnabled(s, sid, a) && TerminalStay(s.docs, docs') && s.nextId !in s.docs
    requires docs' == (if a == DoInsertHit && s.actors.submits[sid].pc.InsertHit?
                       then s.docs[s.nextId := HitDoc(s.actors.submits[sid], s.nextId, s.actors.submits[sid].pc.found, s.now)] else s.docs)
    ensures DocsSourced(docs')
  {
    EverythingStays(s, docs');
    if a == DoInsertHit {
      HitIsSourced(s.docs, s.actors.submits[sid], s.nextId, s.now);
      DocStaysSourced(s.docs, docs', s.nextId, docs'[s.nextId]);
    }
  }

  lemma LookupKeepsProvenance(s: State, sid: SubmitId, a: LookupStep)
    requires Coherent(s) && Provenanced(s) && LookupEnabled(s, sid, a)
    ensures Provenanced(LookupNext(s, sid, a))
  {
    var t := LookupNext(s, sid, a);
    NextTerminalStay(s, OfLookup(sid, a));
    EverythingStays(s, t.docs);
    LookupSourceSelf(s, sid, a);
    CacheStaysSourced(t.redis.cache, s.docs, t.docs);
    LookupFrame(s, sid, a);
    MovedSubmit(s, t.actors, sid);
    LookupAddsOneThing(s, sid, a);
    LookupKeepsDocs(s, sid, a, t.docs);
    OneSubmitSourced(s, t, sid);
  }

  lemma OneSubmitSourced(s: State, t: State, sid: SubmitId)
    requires SubmitsSourced(s.actors.submits, t.docs) && SameElsewhere(s.actors.submits, t.actors.submits, sid)
    requires sid in t.actors.submits ==> SubmitSourced(t.actors.submits[sid], s.docs)
    requires TerminalStay(s.docs, t.docs)
    ensures SubmitsSourced(t.actors.submits, t.docs)
  {
    if sid in t.actors.submits {
      var x := t.actors.submits[sid];
      if x.pc.FillCache? || x.pc.InsertHit? { SourceStays(s.docs, t.docs, SubmitKey(x), x.pc.found); }
    }
  }

  lemma EnqueueCarriesNothing(s: State, sid: SubmitId, a: EnqueueStep)
    requires EnqueueEnabled(s, sid, a)
    ensures var t := EnqueueNext(s, sid, a);
            sid in t.actors.submits ==> !t.actors.submits[sid].pc.FillCache? && !t.actors.submits[sid].pc.InsertHit?
  {
    match a
    case DoTakeSlot(_) =>
    case DoCountActive =>
    case DoInsertNew(_) =>
    case DoPublishNew(_) =>
    case DoGiveSlotBack(_) =>
    case DoGiveGuardBack(_) =>
    case SubmitDies =>
  }

  lemma EnqueueKeepsProvenance(s: State, sid: SubmitId, a: EnqueueStep)
    requires Coherent(s) && Provenanced(s) && EnqueueEnabled(s, sid, a)
    ensures Provenanced(EnqueueNext(s, sid, a))
  {
    var t := EnqueueNext(s, sid, a);
    NextTerminalStay(s, OfEnqueue(sid, a));
    EverythingStays(s, t.docs);
    assert SubmitSourced(s.actors.submits[sid], s.docs);
    EnqueueCarriesNothing(s, sid, a);
    EnqueueFrame(s, sid, a);
    MovedSubmit(s, t.actors, sid);
    EnqueueAddsOneThing(s, sid, a);
    OneSubmitSourced(s, t, sid);
  }

  // ---------------------------------------------------------------------
  // Everybody else
  // ---------------------------------------------------------------------

  /** One record is rewritten without being completed. */
  lemma RewriteKeepsProvenance(s: State, t: State, id: DocId, j: JobId)
    requires Provenanced(s) && TerminalStay(s.docs, t.docs)
    requires Rewrites(s, t, id, j)
    ensures Provenanced(t)
  {
    EverythingStays(s, t.docs);
  }

  /** The parts of a rewrite that provenance looks at. */
  ghost predicate Rewrites(s: State, t: State, id: DocId, j: JobId) {
    && t.redis.cache == s.redis.cache && t.actors.submits == s.actors.submits
    && SameElsewhere(s.actors.jobs, t.actors.jobs, j) && (j in t.actors.jobs ==> !t.actors.jobs[j].pc.StoreSummary?)
    && (t.docs == s.docs
        || (id in s.docs && id in t.docs && t.docs == s.docs[id := t.docs[id]] && !t.docs[id].status.Completed?
            && SameIdentity(s.docs[id], t.docs[id]) && !t.docs[id].fromCache))
  }

  lemma ClaimRewrites(s: State, w: WorkerId)
    requires WorkerEnabled(s, w, DoClaim) && IsQueued(s.docs, s.redis.log[s.actors.workers[w].batch[0]])
    requires !s.docs[s.redis.log[s.actors.workers[w].batch[0]]].fromCache
    ensures Rewrites(s, ClaimWonStep(s, w), s.redis.log[s.actors.workers[w].batch[0]], s.nextId)
  {}

  lemma ResetRewrites(s: State, w: SweepId)
    requires RowMatches(s, w) && !s.docs[s.actors.sweeps[w].pc.rows[0].id].fromCache && s.nextId !in s.actors.jobs
    ensures Rewrites(s, ResetRowStep(s, w), s.actors.sweeps[w].pc.rows[0].id, s.nextId)
  {}

  lemma LoggedIsWork(redis: Redis, docs: Docs, e: EntryId)
    requires AllWork(docs, redis.log) && e < |redis.log|
    ensures IsWork(docs, redis.log[e])
  {}

  lemma WorkerKeepsProvenance(s: State, w: WorkerId, a: WorkerStep)
    requires Coherent(s) && Provenanced(s) && WorkerEnabled(s, w, a)
    ensures Provenanced(WorkerNext(s, w, a))
  {
    if ClaimWins(s, w, a) {
      var e := s.actors.workers[w].batch[0];
      LoggedIsWork(s.redis, s.docs, e);
      ClaimRewrites(s, w);
      NextTerminalStay(s, OfWorker(w, a));
      RewriteKeepsProvenance(s, ClaimWonStep(s, w), s.redis.log[e], s.nextId);
    } else {
      QuietStep(s, w, a);
    }
  }

  lemma CompletedIsComputed(docs: Docs, id: DocId, snap: Doc, now: Time)
    requires id in docs && SameIdentity(snap, docs[id]) && !snap.fromCache
    ensures var docs' := docs[id := CompleteDoc(docs[id], Summarized(id, snap), now)];
            && docs'[id].summary == Some(Summarized(id, docs'[id]))
            && ComputedFor(docs', id, KeyOf(snap), Summarized(id, snap))
  {}

  lemma CompletedJobSourced(jobs: map<JobId, Job>, docs: Docs, j: JobId, x: Job)
    requires JobsSourced(jobs, docs)
    requires x.pc.StoreSummary? ==> ComputedFor(docs, x.doc, KeyOf(x.snap), x.pc.summary)
    ensures JobsSourced(jobs[j := x], docs)
  {}

  lemma CompletedDocsSourced(docs: Docs, docs': Docs, id: DocId, d: Doc)
    requires docs' == docs[id := d] && forall i :: i in docs ==> DocSourced(docs', i, docs[i])
    requires id in docs && d.content == docs[id].content && d.hash == docs[id].hash
    requires !d.fromCache && d.summary == Some(Summarized(id, d))
    ensures DocsSourced(docs')
  {}

  lemma CompleteKeepsProvenance(s: State, j: JobId)
    requires Coherent(s) && Provenanced(s) && WorkEnabled(s, j, DoComplete) && JobOwns(s, j)
    ensures Provenanced(CompleteStep(s, j))
  {
    var (t, x) := (CompleteStep(s, j), s.actors.jobs[j]);
    assert JobOk(j, x, s.nextId, s.docs, s.redis.delivered);
    NextTerminalStay(s, OfWork(j, DoComplete));
    EverythingStays(s, t.docs);
    CompletedIsComputed(s.docs, x.doc, x.snap, s.now);
    CompletedDocsSourced(s.docs, t.docs, x.doc, t.docs[x.doc]);
    CompletedJobSourced(s.actors.jobs, t.docs, j, t.actors.jobs[j]);
  }

  lemma WorkKeepsProvenance(s: State, j: JobId, a: WorkStep)
    requires Coherent(s) && Provenanced(s) && WorkEnabled(s, j, a)
    ensures Provenanced(WorkNext(s, j, a))
  {
    if a == DoComplete && JobOwns(s, j) {
      CompleteKeepsProvenance(s, j);
    } else {
      NextTerminalStay(s, OfWork(j, a));
      assert JobOk(j, s.actors.jobs[j], s.nextId, s.docs, s.redis.delivered);
      WorkUncompleted(s, j, a);
      RewriteKeepsProvenance(s, WorkNext(s, j, a), s.actors.jobs[j].doc, j);
    }
  }

  lemma WorkUncompleted(s: State, j: JobId, a: WorkStep)
    requires WorkEnabled(s, j, a) && (a == DoComplete ==> !JobOwns(s, j))
    requires s.actors.jobs[j].doc in s.docs && !s.docs[s.actors.jobs[j].doc].fromCache
    ensures Rewrites(s, WorkNext(s, j, a), s.actors.jobs[j].doc, j)
  {
    match a
    case DoReread =>
    case DoStart =>
    case DoComplete =>
    case DoRetry(_, _) =>
    case DoFail(_, _) =>
    case DoAbort =>
  }

  lemma SettleKeepsProvenance(s: State, j: JobId, a: SettleStep)
    requires Provenanced(s) && SettleEnabled(s, j, a)
    ensures Provenanced(SettleNext(s, j, a))
  {}

  lemma SweepKeepsProvenance(s: State, w: SweepId, a: SweepStep)
    requires Coherent(s) && Provenanced(s) && SweepEnabled(s, w, a)
    ensures Provenanced(SweepNext(s, w, a))
  {
    SweepFrame(s, w, a);
    if ResetHits(s, w, a) {
      var pc := s.actors.sweeps[w].pc;
      assert SweepOk(w, s.actors.sweeps[w], s.nextId, s.docs, s.now) && RowOk(pc.rows[0], pc.foundAt, s.docs);
      ResetRewrites(s, w);
      NextTerminalStay(s, OfSweep(w, a));
      RewriteKeepsProvenance(s, ResetRowStep(s, w), pc.rows[0].id, s.nextId);
    } else {
      QuietSweep(s, w, a);
    }
  }

  lemma EnvKeepsProvenance(s: State, a: EnvStep)
    requires Provenanced(s) && EnvEnabled(s, a)
    ensures Provenanced(EnvNext(s, a))
  {}

  lemma NextKeepsProvenance(s: State, a: Action)
    requires Coherent(s) && Provenanced(s) && Enabled(s, a)
    ensures Provenanced(Next(s, a))
  {
    match a
    case OfLookup(sid, step) => LookupKeepsProvenance(s, sid, step);
    case OfEnqueue(sid, step) => EnqueueKeepsProvenance(s, sid, step);
    case OfWorker(w, step) => WorkerKeepsProvenance(s, w, step);
    case OfWork(j, step) => WorkKeepsProvenance(s, j, step);
    case OfSettle(j, step) => SettleKeepsProvenance(s, j, step);
    case OfSweep(w, step) => SweepKeepsProvenance(s, w, step);
    case OfRecon(r, step) => ReconFrame(s, r, step);
    case OfEnv(step) => EnvKeepsProvenance(s, step);
  }

  // ---------------------------------------------------------------------
  // What it means
  // ---------------------------------------------------------------------

  /** What `_lookup_cached_summary` returns: the cached entry if Redis answers
      and has one, else what the record gives. */
  ghost function Lookup(s: State, key: Key, up: bool, found: Option<DocId>): Option<Summary>
    requires FindsDone(s.docs, key.0, key.1, found)
  {
    if up && key in s.redis.cache then Some(s.redis.cache[key])
    else if found.Some? then Some(Ingestion.Attributed(found.value, s.docs[found.value]))
    else None
  }

  lemma SourcedIffGenuine(docs: Docs, key: Key)
    requires DocsSourced(docs)
    ensures GenuineIds(docs, key.0, key.1) != {} <==> exists summary :: Sourced(docs, key, summary)
  {
    if g :| g in GenuineIds(docs, key.0, key.1) {
      FoundIsSourced(docs, key.0, key.1, g);
      assert Sourced(docs, key, Ingestion.Attributed(g, docs[g]));
    }
    if summary, g :| ComputedFor(docs, g, key, summary) {
      assert g in GenuineIds(docs, key.0, key.1);
    }
  }

  /** Two summaries from sources of one key measure the same, and so does the
      summary of any content with that hash. */
  lemma SourcedMeasures(docs: Docs, key: Key, summary: Summary, content: string)
    requires DocsSourced(docs) && Sourced(docs, key, summary) && HashContent(content) == key.1
    ensures MeasuresOf(summary) == MeasuresOf(BuildSummary(content, None))
    ensures summary.document.Some? && summary.origin == None
  {
    var g :| ComputedFor(docs, g, key, summary);
    assert DocSourced(docs, g, docs[g]);
    SameHashSameMeasures(docs[g].content, content, Some(RefOf(g, docs[g])), None);
  }

  /** Whatever Redis evicted, kept or fails to answer, a lookup finds a summary
      exactly when the collection has a genuinely processed document of this
      user and hash; and all it measures is what processing the submitted
      content would measure. */
  lemma CacheAgreesWithRecord(s: State, key: Key, up: bool, found: Option<DocId>, content: string)
    requires Provenanced(s) && FindsDone(s.docs, key.0, key.1, found) && HashContent(content) == key.1
    ensures Lookup(s, key, up, found).Some? <==> GenuineIds(s.docs, key.0, key.1) != {}
    ensures Lookup(s, key, up, found).Some? ==>
              MeasuresOf(Lookup(s, key, up, found).value) == MeasuresOf(BuildSummary(content, None))
  {
    SourcedIffGenuine(s.docs, key);
    if found.Some? {
      FoundIsSourced(s.docs, key.0, key.1, found.value);
      assert Sourced(s.docs, key, Ingestion.Attributed(found.value, s.docs[found.value]));
    }
    if Lookup(s, key, up, found).Some? {
      SourcedMeasures(s.docs, key, Lookup(s, key, up, found).value, content);
    }
  }

  /** The reference is to this record, field by field. */
  ghost predicate Cites(ref: Option<DocumentRef>, docs: Docs, id: DocId) {
    && id in docs && ref.Some?
    && ref.value.documentId == id && ref.value.userId == docs[id].user && ref.value.title == docs[id].title
    && ref.value.contentHash == docs[id].hash && ref.value.submittedAt == docs[id].createdAt
  }

  /** The upload was processed, not answered from the cache, and has this
      content hash. */
  ghost predicate WasProcessed(docs: Docs, id: DocId, user: UserId, hash: ContentHash) {
    && id in docs && docs[id].status.Completed? && !docs[id].fromCache
    && docs[id].user == user && docs[id].hash == hash && hash == HashContent(docs[id].content)
  }

  /** The summary is of this content: its measures, and the length of the one
      that was processed. */
  ghost predicate IsMeasured(summary: Summary, content: string, processed: string) {
    MeasuresOf(summary) == MeasuresOf(BuildSummary(content, None)) && summary.charCount == |processed|
  }

  /** What a completed record says: it carries the measures of its own content
      and cites itself; if it was answered from the cache, it cites as origin
      an upload of its user and hash that was processed, and otherwise none. */
  ghost predicate SaysRight(docs: Docs, id: DocId, summary: Summary)
    requires id in docs
  {
    var d := docs[id];
    && Cites(summary.document, docs, id)
    && (if d.fromCache then
          && summary.source.FromCacheEntry? && summary.origin.Some?
          && var g := summary.origin.value.documentId;
             WasProcessed(docs, g, d.user, d.hash) && Cites(summary.origin, docs, g) && IsMeasured(summary, d.content, docs[g].content)
        else summary.source.Generated? && summary.origin == None && IsMeasured(summary, d.content, d.content))
  }

  lemma SummariesAreRight(s: State, id: DocId)
    requires Coherent(s) && Provenanced(s) && id in s.docs && s.docs[id].status.Completed?
    ensures s.docs[id].summary.Some? && SaysRight(s.docs, id, s.docs[id].summary.value)
  {
    var d := s.docs[id];
    assert DocSourced(s.docs, id, d);
    if d.fromCache {
      var g :| DuplicateOf(s.docs, id, d, g);
      assert DocSourced(s.docs, g, s.docs[g]);
      assert ComputedFor(s.docs, g, KeyOf(d), Summarized(g, s.docs[g]));
      SourcedMeasures(s.docs, KeyOf(d), Summarized(g, s.docs[g]), d.content);
    } else {
      assert ComputedFor(s.docs, id, KeyOf(d), d.summary.value);
      SourcedMeasures(s.docs, KeyOf(d), d.summary.value, d.content);
    }
  }

  /** So no two uploads are cited alike, whoever cites them. */
  lemma CitedApart(s: State, a: DocId, b: DocId)
    requires Coherent(s) && Provenanced(s) && a in s.docs && b in s.docs && a != b
    requires s.docs[a].status.Completed? && s.docs[b].status.Completed?
    ensures s.docs[a].summary.Some? && s.docs[b].summary.Some?
    ensures s.docs[a].summary.value.document != s.docs[b].summary.value.document
    ensures s.docs[a].summary.value.origin.Some? ==>
              s.docs[a].summary.value.origin != s.docs[a].summary.value.document
  {
    SummariesAreRight(s, a);
    SummariesAreRight(s, b);
  }
}
