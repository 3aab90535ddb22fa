/** Terminal states over whole runs: they are never left, they are reached by
    one settling write per document, and the slot and the guard of a document
    are each freed by its pipeline at most once. */
module Settlement {
  import opened Types
  import opened Repository
  import opened Protocol
  import opened Frames
  import opened References
  import opened ReferencesKept
  import opened Slots
  import opened Attempts

  ghost predicate Terminal(docs: Docs, id: DocId) {
    id in docs && !docs[id].status.Active()
  }

  /** A terminal record is never written again: not by a settling job, a
      recovery pass, a late claim or a new submission. */
  lemma TerminalIsFinal(s: State, a: Action, id: DocId)
    requires Coherent(s) && Enabled(s, a) && Terminal(s.docs, id)
    ensures id in Next(s, a).docs && Next(s, a).docs[id] == s.docs[id]
  {
    match a
    case OfLookup(sid, step) => LookupAddsOneThing(s, sid, step);
    case OfEnqueue(sid, step) =>
      assert SubmitOk(sid, s.actors.submits[sid], s.nextId, s.docs, s.audit.minted);
      EnqueueAddsOneThing(s, sid, step);
    case OfWorker(w, step) =>
      if !ClaimWins(s, w, step) { QuietStep(s, w, step); }
    case OfWork(j, step) => WorkFrame(s, j, step);
    case OfSettle(j, step) => SettleFrame(s, j, step);
    case OfSweep(w, step) => if !ResetHits(s, w, step) { QuietSweep(s, w, step); }
    case OfRecon(r, step) => ReconFrame(s, r, step);
    case OfEnv(step) => EnvFrame(s, step);
  }

  /** In every continuation the outcome, the summary and all else stay. */
  lemma {:induction false} TerminalForever(s: State, acts: seq<Action>, id: DocId)
    requires Coherent(s) && Legal(s, acts) && Terminal(s.docs, id)
    ensures id in Exec(s, acts).docs && Exec(s, acts).docs[id] == s.docs[id]
    decreases |acts|
  {
    if acts != [] {
      TerminalIsFinal(s, acts[0], id);
      NextKeepsCoherence(s, acts[0]);
      TerminalForever(Next(s, acts[0]), acts[1..], id);
    }
  }

  // ---------------------------------------------------------------------
  // At most once
  // ---------------------------------------------------------------------

  /** The step is a `complete` or `mark_failed` whose filter matches. */
  ghost predicate Settles(s: State, a: Action, id: DocId) {
    a.OfWork? && (a.work.DoComplete? || a.work.DoFail?) && JobOwns(s, a.jid) && s.actors.jobs[a.jid].doc == id
  }

  ghost function SettleCount(s: State, acts: seq<Action>, id: DocId): nat
    requires Legal(s, acts)
    decreases |acts|
  {
    if acts == [] then 0 else (if Settles(s, acts[0], id) then 1 else 0) + SettleCount(Next(s, acts[0]), acts[1..], id)
  }

  lemma SettlingIsTerminal(s: State, a: Action, id: DocId)
    requires Coherent(s) && Enabled(s, a) && Settles(s, a, id)
    ensures !Terminal(s.docs, id) && Terminal(Next(s, a).docs, id)
  {}

  /** Over any run at most one settling write succeeds per document, none if
      it was terminal to begin with. */
  lemma {:induction false} SettledAtMostOnce(s: State, acts: seq<Action>, id: DocId)
    requires Coherent(s) && Legal(s, acts)
    ensures SettleCount(s, acts, id) <= if Terminal(s.docs, id) then 0 else 1
    decreases |acts|
  {
    if acts != [] {
      if Settles(s, acts[0], id) { SettlingIsTerminal(s, acts[0], id); }
      if Terminal(s.docs, id) { TerminalIsFinal(s, acts[0], id); }
      NextKeepsCoherence(s, acts[0]);
      SettledAtMostOnce(Next(s, acts[0]), acts[1..], id);
    }
  }

  ghost predicate FreesSlot(s: State, a: Action, id: DocId) {
    a.OfSettle? && a.settle.DoFreeSlot? && a.jid in s.actors.jobs && s.actors.jobs[a.jid].doc == id
  }

  ghost predicate FreesGuard(s: State, a: Action, id: DocId) {
    a.OfSettle? && a.settle.DoFreeGuard? && a.jid in s.actors.jobs && s.actors.jobs[a.jid].doc == id
  }

  ghost function FreeSlotCount(s: State, acts: seq<Action>, id: DocId): nat
    requires Legal(s, acts)
    decreases |acts|
  {
    if acts == [] then 0 else (if FreesSlot(s, acts[0], id) then 1 else 0) + FreeSlotCount(Next(s, acts[0]), acts[1..], id)
  }

  ghost function FreeGuardCount(s: State, acts: seq<Action>, id: DocId): nat
    requires Legal(s, acts)
    decreases |acts|
  {
    if acts == [] then 0 else (if FreesGuard(s, acts[0], id) then 1 else 0) + FreeGuardCount(Next(s, acts[0]), acts[1..], id)
  }

  lemma SettleFreed(s: State, j: JobId, a: SettleStep)
    requires SettleEnabled(s, j, a)
    ensures var (h, h', id) := (s.audit.history, SettleNext(s, j, a).audit.history, s.actors.jobs[j].doc);
            && h'.slotFreed == (if a.DoFreeSlot? then h.slotFreed + {id} else h.slotFreed)
            && h'.guardFreed == (if a.DoFreeGuard? then h.guardFreed + {id} else h.guardFreed)
  {}

  /** What a step marks as freed is what it frees. */
  lemma FreedMarks(s: State, a: Action, id: DocId)
    requires Enabled(s, a)
    ensures id in Next(s, a).audit.history.slotFreed <==> id in s.audit.history.slotFreed || FreesSlot(s, a, id)
    ensures id in Next(s, a).audit.history.guardFreed <==> id in s.audit.history.guardFreed || FreesGuard(s, a, id)
  {
    match a
    case OfLookup(sid, step) => LookupFrame(s, sid, step);
    case OfEnqueue(sid, step) => EnqueueFrame(s, sid, step);
    case OfWorker(w, step) => WorkerFrame(s, w, step);
    case OfWork(j, step) => WorkFrame(s, j, step);
    case OfSettle(j, step) => SettleFreed(s, j, step);
    case OfSweep(w, step) => if !ResetHits(s, w, step) { QuietSweep(s, w, step); }
    case OfRecon(r, step) => ReconFrame(s, r, step);
    case OfEnv(step) => EnvFrame(s, step);
  }

  /** Over any run the pipeline releases the slot, and deletes the guard, at
      most once for each document. */
  lemma {:induction false} FreedAtMostOnce(s: State, acts: seq<Action>, id: DocId)
    requires Coherent(s) && Accounted(s) && Legal(s, acts)
    ensures FreeSlotCount(s, acts, id) <= if id in s.audit.history.slotFreed then 0 else 1
    ensures FreeGuardCount(s, acts, id) <= if id in s.audit.history.guardFreed then 0 else 1
    decreases |acts|
  {
    if acts != [] {
      if acts[0].OfSettle? { assert JobAccount(acts[0].jid, s.actors.jobs[acts[0].jid], s.audit.history); }
      FreedMarks(s, acts[0], id);
      NextKeepsCoherence(s, acts[0]);
      NextKeepsAccounts(s, acts[0]);
      FreedAtMostOnce(Next(s, acts[0]), acts[1..], id);
    }
  }
}
