/** Each kind of step that can break a guard does: in a run in which nothing
    else goes wrong, it is enough for two identical documents to be queued, if
    the limit has room for two. */
module Collisions {
  import opened Text
  import opened Types
  import opened Repository
  import opened Cache
  import opened Protocol
  import opened References
  import opened ReferencesKept
  import opened Slots
  import opened Guards
  import opened Recovery
  import opened Traps

  datatype Breach = GuardNotSet | RefusalLost | HolderUnread | GuardVanished | GuardExpired | InsertLost | PublishFailed {
    /** The document stays behind while its slot and guard are given back. */
    predicate Strands() { InsertLost? || PublishFailed? }
  }

  /** The kind of a breaking step. */
  ghost predicate IsBreach(kind: Breach, s: State, a: Action, key: Key) {
    Enabled(s, a) && Breaks(s, a, key) &&
    match kind
    case GuardNotSet => a.OfLookup? && a.lookup.DoSetGuard? && a.lookup.reply.NotDone?
    case RefusalLost => a.OfLookup? && a.lookup.DoSetGuard? && a.lookup.reply.AnswerLost?
    case HolderUnread => a.OfLookup? && a.lookup == DoReadGuard(false)
    case GuardVanished => a.OfLookup? && a.lookup == DoReadGuard(true)
    case GuardExpired => a.OfEnv?
    case InsertLost => a.OfEnqueue? && a.enqueue.DoInsertNew?
    case PublishFailed => a.OfEnqueue? && a.enqueue.DoPublishNew?
  }

  lemma EveryBreachHasAKind(s: State, a: Action, key: Key) returns (kind: Breach)
    requires Enabled(s, a) && Breaks(s, a, key)
    ensures IsBreach(kind, s, a, key)
  {
    match a
    case OfLookup(_, DoSetGuard(reply)) => kind := if reply.NotDone? then GuardNotSet else RefusalLost;
    case OfLookup(_, DoReadGuard(up)) => kind := if up then GuardVanished else HolderUnread;
    case OfEnqueue(_, step) => kind := if step.DoInsertNew? then InsertLost else PublishFailed;
    case OfEnv(_) => kind := GuardExpired;
  }

  /** Two different documents of this key are queued. */
  ghost predicate Collide(s: State, key: Key, a: DocId, b: DocId) {
    a != b && IsQueued(s.docs, a) && IsQueued(s.docs, b) && KeyOf(s.docs[a]) == key == KeyOf(s.docs[b])
  }

  // ---------------------------------------------------------------------
  // Two submissions before the breach
  // ---------------------------------------------------------------------

  lemma TwoLook(s: State, key: Key) returns (t: State, a: SubmitId, b: SubmitId, idA: DocId, idB: DocId)
    requires Init(s) && key == ("u", HashContent("c"))
    ensures Leads(s, t) && a != b && idA != idB && t.docs == s.docs && t.redis == s.redis && t.cfg == s.cfg
    ensures Stands(t, a, key, SetGuard(idA)) && Stands(t, b, key, SetGuard(idB))
  {
    Stay(s);
    assert GenuineIds(s.docs, "u", HashContent("c")) == {};
    var first;
    first, a, idA := Looks(s, s, "u", "c");
    t, b, idB := Looks(s, first, "u", "c");
  }

  /** One of them holds the guard. */
  lemma OneGuards(s: State, key: Key) returns (t: State, a: SubmitId, b: SubmitId, idA: DocId, idB: DocId)
    requires Init(s) && key == ("u", HashContent("c"))
    ensures Leads(s, t) && a != b && idA != idB && t.docs == s.docs && t.cfg == s.cfg && t.redis.counters == s.redis.counters
    ensures Stands(t, a, key, TakeSlot(idA)) && Stands(t, b, key, SetGuard(idB)) && key in t.redis.guards
  {
    var looked;
    looked, a, b, idA, idB := TwoLook(s, key);
    LookupOn(s, looked, a, DoSetGuard(Answered));
    t := SetGuardStep(looked, a, Answered);
  }

  // ---------------------------------------------------------------------
  // Both get past the guard
  // ---------------------------------------------------------------------

  /** Two submissions of the key are past the guard; no document of the user is
      active, and no slot taken. */
  ghost predicate BothPast(s: State, key: Key, a: SubmitId, b: SubmitId, idA: DocId, idB: DocId) {
    && a != b && idA != idB && Stands(s, a, key, TakeSlot(idA)) && Stands(s, b, key, TakeSlot(idB))
    && ActiveIds(s.docs, key.0) == {} && Counter(s, key.0) == 0
  }

  lemma GuardsFreely(s: State, sid: SubmitId, key: Key, id: DocId) returns (t: State)
    requires Stands(s, sid, key, SetGuard(id)) && key !in s.redis.guards
    ensures Leads(s, t) && Stands(t, sid, key, TakeSlot(id)) && SameElsewhere(s.actors.submits, t.actors.submits, sid)
    ensures t.docs == s.docs && t.redis.counters == s.redis.counters && t.cfg == s.cfg
  {
    Stay(s);
    LookupOn(s, s, sid, DoSetGuard(Answered));
    t := SetGuardStep(s, sid, Answered);
  }

  /** `SET NX` fails and counts as "no duplicate". */
  lemma NotSetPasses(s: State, key: Key)
    returns (t: State, x: Action, u: State, a: SubmitId, b: SubmitId, idA: DocId, idB: DocId)
    requires Init(s) && key == ("u", HashContent("c"))
    ensures Leads(s, t) && IsBreach(GuardNotSet, t, x, key) && Leads(Next(t, x), u) && BothPast(u, key, a, b, idA, idB) && u.cfg == s.cfg
  {
    t, a, b, idA, idB := TwoLook(s, key);
    x := OfLookup(a, DoSetGuard(NotDone));
    u := GuardsFreely(Next(t, x), b, key, idB);
  }

  /** `SET NX` is refused, but the answer is lost. */
  lemma RefusalLostPasses(s: State, key: Key)
    returns (t: State, x: Action, u: State, a: SubmitId, b: SubmitId, idA: DocId, idB: DocId)
    requires Init(s) && key == ("u", HashContent("c"))
    ensures Leads(s, t) && IsBreach(RefusalLost, t, x, key) && Leads(Next(t, x), u) && BothPast(u, key, a, b, idA, idB) && u.cfg == s.cfg
  {
    t, a, b, idA, idB := OneGuards(s, key);
    x := OfLookup(b, DoSetGuard(AnswerLost));
    u := Next(t, x);
    Stay(u);
  }

  /** The `GET` after a refused `SET NX` fails. */
  lemma UnreadPasses(s: State, key: Key)
    returns (t: State, x: Action, u: State, a: SubmitId, b: SubmitId, idA: DocId, idB: DocId)
    requires Init(s) && key == ("u", HashContent("c"))
    ensures Leads(s, t) && IsBreach(HolderUnread, t, x, key) && Leads(Next(t, x), u) && BothPast(u, key, a, b, idA, idB) && u.cfg == s.cfg
  {
    var guarded;
    guarded, a, b, idA, idB := OneGuards(s, key);
    LookupOn(s, guarded, b, DoSetGuard(Answered));
    t := SetGuardStep(guarded, b, Answered);
    x := OfLookup(b, DoReadGuard(false));
    u := Next(t, x);
    Stay(u);
  }

  lemma FindsNothing(s: State, a: SubmitId, key: Key, id: DocId)
    requires Stands(s, a, key, ReadGuard(id)) && key !in s.redis.guards
    ensures var x := OfLookup(a, DoReadGuard(true));
            && IsBreach(GuardVanished, s, x, key) && Next(s, x).docs == s.docs && Next(s, x).redis == s.redis && Next(s, x).cfg == s.cfg
            && Stands(Next(s, x), a, key, TakeSlot(id)) && SameElsewhere(s.actors.submits, Next(s, x).actors.submits, a)
  {}

  /** The guard is gone when the refused submission reads it. */
  lemma VanishedPasses(s: State, key: Key)
    returns (t: State, x: Action, u: State, a: SubmitId, b: SubmitId, idA: DocId, idB: DocId)
    requires Init(s) && key == ("u", HashContent("c"))
    ensures Leads(s, t) && IsBreach(GuardVanished, t, x, key) && Leads(Next(t, x), u) && BothPast(u, key, a, b, idA, idB) && u.cfg == s.cfg
  {
    t, a, b, idA, idB := HolderIsGone(s, key);
    x := OfLookup(a, DoReadGuard(true));
    FindsNothing(t, a, key, idA);
    u := GuardsFreely(Next(t, x), b, key, idB);
  }

  /** The guard expires while its holder relies on it. */
  lemma ExpiryPasses(s: State, key: Key)
    returns (t: State, x: Action, u: State, a: SubmitId, b: SubmitId, idA: DocId, idB: DocId)
    requires Init(s) && key == ("u", HashContent("c"))
    ensures Leads(s, t) && IsBreach(GuardExpired, t, x, key) && Leads(Next(t, x), u) && BothPast(u, key, a, b, idA, idB) && u.cfg == s.cfg
  {
    t, a, b, idA, idB := OneGuards(s, key);
    x := OfEnv(ExpireGuard(key));
    assert SubmitClaims(t.actors.submits, a, key);
    u := GuardsFreely(Next(t, x), b, key, idB);
  }

  lemma BothPass(s: State, kind: Breach, key: Key)
    returns (t: State, x: Action, u: State, a: SubmitId, b: SubmitId, idA: DocId, idB: DocId)
    requires Init(s) && key == ("u", HashContent("c")) && !kind.Strands()
    ensures Leads(s, t) && IsBreach(kind, t, x, key) && Leads(Next(t, x), u) && BothPast(u, key, a, b, idA, idB) && u.cfg == s.cfg
  {
    match kind
    case GuardNotSet => t, x, u, a, b, idA, idB := NotSetPasses(s, key);
    case RefusalLost => t, x, u, a, b, idA, idB := RefusalLostPasses(s, key);
    case HolderUnread => t, x, u, a, b, idA, idB := UnreadPasses(s, key);
    case GuardVanished => t, x, u, a, b, idA, idB := VanishedPasses(s, key);
    case GuardExpired => t, x, u, a, b, idA, idB := ExpiryPasses(s, key);
  }

  // ---------------------------------------------------------------------
  // A document is left behind
  // ---------------------------------------------------------------------

  /** One submission stands before its insert, another before the guard. */
  lemma OneHolds(s: State, key: Key) returns (t: State, a: SubmitId, b: SubmitId, idA: DocId, idB: DocId)
    requires Init(s) && key == ("u", HashContent("c"))
    ensures Leads(s, t) && a != b && idA != idB && t.cfg == s.cfg && Counter(t, key.0) == 1
    ensures Stands(t, a, key, InsertNew(idA)) && Stands(t, b, key, SetGuard(idB))
  {
    var guarded;
    guarded, a, b, idA, idB := OneGuards(s, key);
    EnqueueOn(s, guarded, a, DoTakeSlot(Answered));
    t := TakeSlotStep(guarded, a, Answered);
  }

  /** It gives slot and guard back, and the other one finds both free. */
  lemma OtherFollows(s: State, a: SubmitId, b: SubmitId, key: Key, idA: DocId, idB: DocId) returns (t: State)
    requires a != b && idA != idB && Stands(s, a, key, GiveSlotBack(idA)) && Stands(s, b, key, SetGuard(idB))
    requires Counter(s, key.0) == 1 && s.cfg.maxActive >= 1 && IsQueued(s.docs, idA) && KeyOf(s.docs[idA]) == key
    ensures Leads(s, t) && Collide(t, key, idA, idB)
  {
    Stay(s);
    var left := GivesBack(s, s, a, key, idA);
    var guarded := GuardsFreely(left, b, key, idB);
    LeadsOn(s, left, guarded);
    t := Enqueues(s, guarded, b, key, idB, 0);
  }

  /** The insert is stored, but reported as failed. */
  lemma LostInsertCollides(s: State, key: Key) returns (t: State, x: Action, u: State, idA: DocId, idB: DocId)
    requires Init(s) && key == ("u", HashContent("c"))
    ensures Leads(s, t) && IsBreach(InsertLost, t, x, key) && Leads(Next(t, x), u) && Collide(u, key, idA, idB)
  {
    var a, b;
    t, a, b, idA, idB := OneHolds(s, key);
    x := OfEnqueue(a, DoInsertNew(AnswerLost));
    u := OtherFollows(Next(t, x), a, b, key, idA, idB);
  }

  /** The publish after the insert fails. */
  lemma FailedPublishCollides(s: State, key: Key) returns (t: State, x: Action, u: State, idA: DocId, idB: DocId)
    requires Init(s) && key == ("u", HashContent("c"))
    ensures Leads(s, t) && IsBreach(PublishFailed, t, x, key) && Leads(Next(t, x), u) && Collide(u, key, idA, idB)
  {
    var held, a, b;
    held, a, b, idA, idB := OneHolds(s, key);
    EnqueueOn(s, held, a, DoInsertNew(Answered));
    t := InsertNewStep(held, a, Answered);
    x := OfEnqueue(a, DoPublishNew(NotDone));
    u := OtherFollows(Next(t, x), a, b, key, idA, idB);
  }

  // ---------------------------------------------------------------------
  // Collisions
  // ---------------------------------------------------------------------

  /** Each entry of the list of breaking steps is needed: a run from the empty
      service, without any fault but this one step, ends in a collision. Where
      both submissions keep their slots that takes a limit of two. */
  lemma EachBreachCollides(s: State, kind: Breach) returns (t: State, x: Action, key: Key, u: State, idA: DocId, idB: DocId)
    requires Init(s) && (s.cfg.maxActive >= 2 || kind.Strands())
    ensures Leads(s, t) && IsBreach(kind, t, x, key) && Leads(Next(t, x), u) && Collide(u, key, idA, idB)
  {
    key := ("u", HashContent("c"));
    match kind
    case InsertLost => t, x, u, idA, idB := LostInsertCollides(s, key);
    case PublishFailed => t, x, u, idA, idB := FailedPublishCollides(s, key);
    case _ =>
      var past, a, b;
      t, x, past, a, b, idA, idB := BothPass(s, kind, key);
      u := OneAfterTheOther(Next(t, x), past, a, b, key, idA, idB);
  }

  /** Whatever the limit, one failed acquire more is enough: the submission is
      let in on a count of the collection, in which the other is not yet. */
  lemma OneDegradedMore(s: State, key: Key, a: SubmitId, b: SubmitId, idA: DocId, idB: DocId) returns (t: State, f: Action, u: State)
    requires BothPast(s, key, a, b, idA, idB) && s.cfg.maxActive >= 1
    ensures f == OfEnqueue(b, DoTakeSlot(NotDone)) && Leads(s, t) && Enabled(t, f) && Leads(Next(t, f), u) && Collide(u, key, idA, idB)
  {
    Stay(s);
    EnqueueOn(s, s, a, DoTakeSlot(Answered));
    t := TakeSlotStep(s, a, Answered);
    f := OfEnqueue(b, DoTakeSlot(NotDone));
    u := BothInsert(Next(t, f), a, b, key, idA, idB);
  }

  lemma BothInsert(s: State, a: SubmitId, b: SubmitId, key: Key, idA: DocId, idB: DocId) returns (t: State)
    requires a != b && idA != idB && Stands(s, a, key, InsertNew(idA)) && Stands(s, b, key, CountActive(idB))
    requires ActiveIds(s.docs, key.0) == {} && s.cfg.maxActive >= 1
    ensures Leads(s, t) && Collide(t, key, idA, idB)
  {
    Stay(s);
    EnqueueOn(s, s, b, DoCountActive);
    var counted := CountActiveStep(s, b);
    EnqueueOn(s, counted, b, DoInsertNew(Answered));
    var inserted := InsertNewStep(counted, b, Answered);
    EnqueueOn(s, inserted, a, DoInsertNew(Answered));
    t := InsertNewStep(inserted, a, Answered);
  }

  /** So with a limit of one each of the other kinds collides as well, with
      one degraded admission besides. */
  lemma EachBreachCollidesAtOne(s: State, kind: Breach)
    returns (t: State, x: Action, key: Key, u: State, f: Action, v: State, idA: DocId, idB: DocId)
    requires Init(s) && !kind.Strands()
    ensures Leads(s, t) && IsBreach(kind, t, x, key) && Leads(Next(t, x), u)
    ensures f.OfEnqueue? && f.enqueue == DoTakeSlot(NotDone) && Enabled(u, f) && Leads(Next(u, f), v) && Collide(v, key, idA, idB)
  {
    key := ("u", HashContent("c"));
    var past, a, b;
    t, x, past, a, b, idA, idB := BothPass(s, kind, key);
    u, f, v := OneDegradedMore(past, key, a, b, idA, idB);
    LeadsOn(Next(t, x), past, u);
  }
}
