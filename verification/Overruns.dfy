/** The bound on active documents is reached: with each failed command, and
    each slot that a racing reconcile run erases, one more of them is active
    than the limit allows. */
module Overruns {
  import opened Text
  import opened Types
  import opened Repository
  import opened RateLimiter
  import opened Cache
  import opened Queue
  import opened Protocol
  import opened References
  import opened ReferencesKept
  import opened Slots
  import opened Recovery
  import opened Traps

  // ---------------------------------------------------------------------
  // Counting along a run
  // ---------------------------------------------------------------------

  /** A run with so many overshoots, and so much erased from the counter. */
  ghost predicate Gets(s: State, t: State, over: int, erased: int) {
    exists acts :: Legal(s, acts) && Exec(s, acts) == t && OvershootCount(s, acts, "u") == over && ErasedSum(s, acts, "u") == erased
  }

  lemma {:induction false} OvershootsSplit(s: State, before: seq<Action>, after: seq<Action>)
    requires Legal(s, before) && Legal(Exec(s, before), after) && Legal(s, before + after)
    ensures OvershootCount(s, before + after, "u") == OvershootCount(s, before, "u") + OvershootCount(Exec(s, before), after, "u")
    decreases |before|
  {
    if before == [] {
      assert before + after == after;
    } else {
      assert (before + after)[0] == before[0] && (before + after)[1..] == before[1..] + after;
      OvershootsSplit(Next(s, before[0]), before[1..], after);
    }
  }

  lemma {:induction false} ErasedSplits(s: State, before: seq<Action>, after: seq<Action>)
    requires Legal(s, before) && Legal(Exec(s, before), after) && Legal(s, before + after)
    ensures ErasedSum(s, before + after, "u") == ErasedSum(s, before, "u") + ErasedSum(Exec(s, before), after, "u")
    decreases |before|
  {
    if before == [] {
      assert before + after == after;
    } else {
      assert (before + after)[0] == before[0] && (before + after)[1..] == before[1..] + after;
      ErasedSplits(Next(s, before[0]), before[1..], after);
    }
  }

  lemma GetsOn(s: State, t: State, u: State, over: int, erased: int, over': int, erased': int)
    requires Gets(s, t, over, erased) && Gets(t, u, over', erased')
    ensures Gets(s, u, over + over', erased + erased')
  {
    var before :| Legal(s, before) && Exec(s, before) == t && OvershootCount(s, before, "u") == over && ErasedSum(s, before, "u") == erased;
    var after :| Legal(t, after) && Exec(t, after) == u && OvershootCount(t, after, "u") == over' && ErasedSum(t, after, "u") == erased';
    RunsCompose(s, before, after);
    OvershootsSplit(s, before, after);
    ErasedSplits(s, before, after);
  }

  lemma StepGets(s: State, a: Action)
    requires Enabled(s, a)
    ensures Gets(s, Next(s, a), if Overshoots(s, a, "u") then 1 else 0, Erased(s, a, "u"))
  {
    var acts := [a];
    assert acts[1..] == [];
    assert Legal(Next(s, a), acts[1..]) && Exec(Next(s, a), acts[1..]) == Next(s, a);
    assert OvershootCount(Next(s, a), acts[1..], "u") == 0 == ErasedSum(Next(s, a), acts[1..], "u");
    assert Legal(s, acts) && Exec(s, acts) == Next(s, a);
  }

  lemma {:induction false} BenignErasesNothing(s: State, acts: seq<Action>)
    requires Legal(s, acts) && AllBenign(acts)
    ensures ErasedSum(s, acts, "u") == 0
    decreases |acts|
  {
    if acts != [] {
      assert acts[0] in acts;
      BenignErasesNothing(Next(s, acts[0]), acts[1..]);
    }
  }

  /** The surplus tells how many overshoots there were. */
  lemma LeadsGets(s: State, t: State)
    requires Leads(s, t)
    ensures Gets(s, t, Surplus(t, "u") - Surplus(s, "u"), 0)
  {
    var acts :| Legal(s, acts) && AllBenign(acts) && Exec(s, acts) == t;
    BenignErasesNothing(s, acts);
    SurplusOfRun(s, acts, "u");
  }

  /** Benign steps, one that writes no counter, benign steps. */
  lemma Through(s: State, t: State, a: Action, u: State)
    requires Leads(s, t) && Enabled(t, a) && !Writes(a, "u") && Leads(Next(t, a), u)
    ensures Gets(s, u, Surplus(u, "u") - Surplus(s, "u"), 0)
  {
    LeadsGets(s, t);
    StepGets(t, a);
    SurplusCauses(t, a, "u");
    GetsOn(s, t, Next(t, a), Surplus(t, "u") - Surplus(s, "u"), 0, if Overshoots(t, a, "u") then 1 else 0, 0);
    LeadsGets(Next(t, a), u);
    GetsOn(s, Next(t, a), u, Surplus(Next(t, a), "u") - Surplus(s, "u"), 0, Surplus(u, "u") - Surplus(Next(t, a), "u"), 0);
  }

  lemma GetsCoherent(s: State, t: State, over: int, erased: int)
    requires Coherent(s) && Gets(s, t, over, erased)
    ensures Coherent(t)
  {
    var acts :| Legal(s, acts) && Exec(s, acts) == t && OvershootCount(s, acts, "u") == over && ErasedSum(s, acts, "u") == erased;
    RunKeepsCoherence(s, acts);
  }

  // ---------------------------------------------------------------------
  // Filling up
  // ---------------------------------------------------------------------

  /** One content for each number. */
  function Content(n: nat): string { seq(n, _ => 'x') }

  function ContentKey(n: nat): Key { ("u", HashContent(Content(n))) }

  lemma ContentsDiffer(i: nat, n: nat)
    requires i != n
    ensures ContentKey(i) != ContentKey(n)
  {
    NormalizeFixesNormalForms(Content(i));
    NormalizeFixesNormalForms(Content(n));
    assert |Content(i)| == i && |Content(n)| == n;
  }

  ghost predicate AllQueued(docs: Docs) {
    forall id :: id in docs ==> docs[id].status.Queued?
  }

  /** Of one user's documents `active` are queued and the counter knows of
      `counted`; the contents from `n` on are unused. */
  ghost predicate Filled(s: State, n: nat, active: nat, counted: nat, surplus: nat) {
    && AllQueued(s.docs) && s.redis.cache == map[]
    && (forall i: nat :: i >= n ==> ContentKey(i) !in s.redis.guards)
    && |ActiveIds(s.docs, "u")| == active && Counter(s, "u") == counted && Surplus(s, "u") == surplus
  }

  lemma LooksNext(s: State, n: nat, active: nat, counted: nat, surplus: nat) returns (t: State, sid: SubmitId, id: DocId)
    requires Coherent(s) && Filled(s, n, active, counted, surplus)
    ensures Leads(s, t) && Filled(t, n, active, counted, surplus) && Stands(t, sid, ContentKey(n), SetGuard(id))
    ensures t.docs == s.docs && t.redis == s.redis && t.cfg == s.cfg && id !in t.docs
    ensures sid == s.nextId && SameElsewhere(s.actors.submits, t.actors.submits, sid)
  {
    Stay(s);
    assert GenuineIds(s.docs, "u", HashContent(Content(n))) == {};
    t, sid, id := Looks(s, s, "u", Content(n));
    StillCoherent(s, t);
    assert SubmitOk(sid, t.actors.submits[sid], t.nextId, t.docs, t.audit.minted);
  }

  /** One more document is queued, and a content used. */
  lemma OneMoreFilled(s: State, t: State, n: nat, active: nat, counted: nat, surplus: nat, id: DocId)
    requires Filled(s, n, active, counted, surplus)
    requires id !in s.docs && IsQueued(t.docs, id) && KeyOf(t.docs[id]) == ContentKey(n) && t.docs == s.docs[id := t.docs[id]]
    requires t.redis.cache == s.redis.cache
    requires forall key :: key in t.redis.guards && key != ContentKey(n) ==> key in s.redis.guards
    ensures Filled(t, n + 1, active + 1, Counter(t, "u"), Surplus(t, "u"))
  {
    ActiveCountAfterWrite(s.docs, id, t.docs[id], "u");
    forall i: nat | i >= n + 1 ensures ContentKey(i) !in t.redis.guards { ContentsDiffer(i, n); }
  }

  /** With room in the counter, a submission is let in. */
  lemma Enters(s: State, n: nat, active: nat, counted: nat, surplus: nat) returns (t: State)
    requires Coherent(s) && Filled(s, n, active, counted, surplus) && counted < s.cfg.maxActive
    ensures Leads(s, t) && Filled(t, n + 1, active + 1, counted + 1, surplus) && t.cfg == s.cfg
  {
    var looked, sid, id := LooksNext(s, n, active, counted, surplus);
    t := Publishes(s, looked, sid, ContentKey(n), id);
    OneMoreFilled(looked, t, n, active, counted, surplus, id);
  }

  lemma {:induction false} FillsUp(s: State, n: nat, active: nat, counted: nat, surplus: nat) returns (t: State)
    requires Coherent(s) && Filled(s, n, active, counted, surplus) && counted <= s.cfg.maxActive
    ensures Leads(s, t) && |ActiveIds(t.docs, "u")| == active + (s.cfg.maxActive - counted) && Surplus(t, "u") == surplus
    decreases s.cfg.maxActive - counted
  {
    if counted == s.cfg.maxActive {
      Stay(s);
      t := s;
    } else {
      var more := Enters(s, n, active, counted, surplus);
      StillCoherent(s, more);
      t := FillsUp(more, n + 1, active + 1, counted + 1, surplus);
      LeadsOn(s, more, t);
    }
  }

  // ---------------------------------------------------------------------
  // Submissions that hold back
  // ---------------------------------------------------------------------

  /** Submissions, each with the id it is about to insert. */
  type Holders = seq<(SubmitId, DocId)>

  /** From number `from` on they stand before their insert. */
  ghost predicate Holding(s: State, ws: Holders, from: nat) {
    && (forall i, k :: 0 <= i < k < |ws| ==> ws[i].0 != ws[k].0)
    && (forall k :: from <= k < |ws| ==> Stands(s, ws[k].0, ContentKey(k), InsertNew(ws[k].1)))
  }

  /** Nothing is inserted yet; the counter knows of `counted` of the holders. */
  ghost predicate Poised(s: State, ws: Holders, counted: nat, surplus: nat) {
    Coherent(s) && s.docs == map[] && Filled(s, |ws|, 0, counted, surplus) && Holding(s, ws, 0)
  }

  lemma OneMoreHolds(s: State, t: State, ws: Holders, sid: SubmitId, id: DocId)
    requires Coherent(s) && Holding(s, ws, 0) && sid == s.nextId && SameElsewhere(s.actors.submits, t.actors.submits, sid)
    requires Stands(t, sid, ContentKey(|ws|), InsertNew(id))
    ensures Holding(t, ws + [(sid, id)], 0)
  {
    var more := ws + [(sid, id)];
    forall k | 0 <= k < |ws| ensures ws[k].0 < sid && Stands(t, more[k].0, ContentKey(k), InsertNew(more[k].1)) {
      assert Stands(s, ws[k].0, ContentKey(k), InsertNew(ws[k].1));
      assert SubmitOk(ws[k].0, s.actors.submits[ws[k].0], s.nextId, s.docs, s.audit.minted);
    }
  }

  /** One guard more is set. */
  lemma GuardUsed(s: State, t: State, n: nat, id: DocId, counted: nat, surplus: nat)
    requires Filled(s, n, 0, counted, surplus) && t.docs == s.docs && t.redis.cache == s.redis.cache
    requires t.redis.guards == s.redis.guards[ContentKey(n) := id]
    ensures Filled(t, n + 1, 0, Counter(t, "u"), Surplus(t, "u"))
  {
    forall i: nat | i >= n + 1 ensures ContentKey(i) !in t.redis.guards { ContentsDiffer(i, n); }
  }

  /** A submission takes a slot and holds it. */
  lemma HoldsCounted(s: State, ws: Holders, counted: nat, surplus: nat) returns (t: State, more: Holders)
    requires Poised(s, ws, counted, surplus) && counted < s.cfg.maxActive
    ensures Leads(s, t) && Poised(t, more, counted + 1, surplus) && |more| == |ws| + 1 && t.cfg == s.cfg
  {
    var looked, sid, id := LooksNext(s, |ws|, 0, counted, surplus);
    t := TakesSlot(s, looked, sid, ContentKey(|ws|), id);
    StillCoherent(s, t);
    more := ws + [(sid, id)];
    OneMoreHolds(s, t, ws, sid, id);
    GuardUsed(looked, t, |ws|, id, counted, surplus);
  }

  lemma TakesSlot(s: State, t: State, sid: SubmitId, key: Key, id: DocId) returns (u: State)
    requires Leads(s, t) && Stands(t, sid, key, SetGuard(id)) && key !in t.redis.guards && Counter(t, key.0) < t.cfg.maxActive
    ensures Leads(s, u) && Stands(u, sid, key, InsertNew(id)) && u.docs == t.docs && u.cfg == t.cfg
    ensures SameElsewhere(t.actors.submits, u.actors.submits, sid)
    ensures u.redis.cache == t.redis.cache && u.redis.guards == t.redis.guards[key := id]
    ensures Counter(u, key.0) == Counter(t, key.0) + 1 && Surplus(u, key.0) == Surplus(t, key.0)
  {
    LookupOn(s, t, sid, DoSetGuard(Answered));
    var guarded := SetGuardStep(t, sid, Answered);
    EnqueueOn(s, guarded, sid, DoTakeSlot(Answered));
    u := TakeSlotStep(guarded, sid, Answered);
  }

  lemma TakesNoSlot(s: State, t: State, sid: SubmitId, id: DocId, n: nat) returns (u: State)
    requires Leads(s, t) && Stands(t, sid, ContentKey(n), SetGuard(id)) && ContentKey(n) !in t.redis.guards
    requires |ActiveIds(t.docs, "u")| < t.cfg.maxActive
    ensures Gets(s, u, Surplus(t, "u") + 1 - Surplus(s, "u"), 0) && Stands(u, sid, ContentKey(n), InsertNew(id))
    ensures SameElsewhere(t.actors.submits, u.actors.submits, sid) && u.docs == t.docs && u.cfg == t.cfg
    ensures u.redis == t.redis.(guards := t.redis.guards[ContentKey(n) := id]) && Surplus(u, "u") == Surplus(t, "u") + 1
  {
    LookupOn(s, t, sid, DoSetGuard(Answered));
    var guarded := SetGuardStep(t, sid, Answered);
    var a := OfEnqueue(sid, DoTakeSlot(NotDone));
    u := CountsIn(Next(guarded, a), sid, ContentKey(n), id);
    Through(s, guarded, a, u);
  }

  /** The acquire script fails; a count of the collection lets it in. */
  lemma HoldsDegraded(s: State, ws: Holders, counted: nat, surplus: nat) returns (t: State, more: Holders)
    requires Poised(s, ws, counted, surplus)
    ensures Gets(s, t, 1, 0) && Poised(t, more, counted, surplus + 1) && |more| == |ws| + 1 && t.cfg == s.cfg
  {
    var looked, sid, id := LooksNext(s, |ws|, 0, counted, surplus);
    t := TakesNoSlot(s, looked, sid, id, |ws|);
    GetsCoherent(s, t, 1, 0);
    more := ws + [(sid, id)];
    OneMoreHolds(s, t, ws, sid, id);
    GuardUsed(looked, t, |ws|, id, counted, surplus);
  }

  lemma CountsIn(s: State, sid: SubmitId, key: Key, id: DocId) returns (t: State)
    requires Stands(s, sid, key, CountActive(id)) && |ActiveIds(s.docs, key.0)| < s.cfg.maxActive
    ensures Leads(s, t) && Stands(t, sid, key, InsertNew(id)) && SameElsewhere(s.actors.submits, t.actors.submits, sid)
    ensures t.docs == s.docs && t.redis == s.redis && t.cfg == s.cfg && Surplus(t, key.0) == Surplus(s, key.0) + 1
  {
    Stay(s);
    EnqueueOn(s, s, sid, DoCountActive);
    t := CountActiveStep(s, sid);
  }

  lemma {:induction false} ManyDegraded(s: State, ws: Holders, counted: nat, surplus: nat, k: nat) returns (t: State, more: Holders)
    requires Poised(s, ws, counted, surplus)
    ensures Gets(s, t, k, 0) && Poised(t, more, counted, surplus + k) && |more| == |ws| + k && t.cfg == s.cfg
    decreases k, 0
  {
    if k == 0 {
      NoneGet(s);
      t, more := s, ws;
    } else {
      var u;
      u, more := HoldsDegraded(s, ws, counted, surplus);
      t, more := RestDegraded(s, u, more, counted, surplus + 1, k - 1);
    }
  }

  lemma {:induction false} RestDegraded(s: State, u: State, ws: Holders, counted: nat, surplus: nat, k: nat) returns (t: State, more: Holders)
    requires Gets(s, u, 1, 0) && Poised(u, ws, counted, surplus)
    ensures Gets(s, t, 1 + k, 0) && Poised(t, more, counted, surplus + k) && |more| == |ws| + k && t.cfg == u.cfg
    decreases k, 1
  {
    t, more := ManyDegraded(u, ws, counted, surplus, k);
    GetsOn(s, u, t, 1, 0, k, 0);
  }

  lemma NoneGet(s: State)
    ensures Gets(s, s, 0, 0)
  {
    Stay(s);
    LeadsGets(s, s);
  }

  // ---------------------------------------------------------------------
  // A reconcile run in between
  // ---------------------------------------------------------------------

  /** A reconcile run reads the collection, in which nothing is active. */
  lemma RunReads(s: State) returns (booted: State, w: WorkerId, r: ReconId)
    requires s.docs == map[]
    ensures Leads(s, booted) && w in booted.actors.workers && r == booted.nextId && booted.cfg == s.cfg
    ensures booted.docs == s.docs && booted.redis == s.redis && booted.audit == s.audit && booted.actors.submits == s.actors.submits
    ensures ReconEnabled(EnvNext(booted, StartRecon(w)), r, DoDropCounter("u"))
  {
    Stay(s);
    EnvOn(s, s, BootWorker);
    booted, w, r := BootWorkerStep(s), s.nextId, s.nextId + 1;
    assert ActiveUsers(booted.docs) == {};
  }

  /** ... and drops the counter. */
  lemma RunDrops(s: State, booted: State, w: WorkerId, r: ReconId) returns (t: State)
    requires w in booted.actors.workers && booted.redis == s.redis && booted.audit == s.audit
    requires ReconEnabled(EnvNext(booted, StartRecon(w)), r, DoDropCounter("u"))
    ensures t == ReconNext(EnvNext(booted, StartRecon(w)), r, DoDropCounter("u"))
    ensures t.docs == booted.docs && t.actors.submits == booted.actors.submits && t.cfg == booted.cfg
    ensures t.redis == s.redis.(counters := s.redis.counters - {"u"}) && Surplus(t, "u") == Surplus(s, "u") + Counter(s, "u")
  {
    t := ReconNext(EnvNext(booted, StartRecon(w)), r, DoDropCounter("u"));
  }

  lemma DropGets(s: State, booted: State, w: WorkerId, r: ReconId)
    requires Leads(s, booted) && w in booted.actors.workers && booted.redis == s.redis && booted.audit == s.audit
    requires ReconEnabled(EnvNext(booted, StartRecon(w)), r, DoDropCounter("u"))
    ensures Gets(s, ReconNext(EnvNext(booted, StartRecon(w)), r, DoDropCounter("u")), 0, Counter(s, "u"))
  {
    var begun := EnvNext(booted, StartRecon(w));
    LeadsGets(s, booted);
    StepGets(booted, OfEnv(StartRecon(w)));
    GetsOn(s, booted, begun, 0, 0, 0, 0);
    StepGets(begun, OfRecon(r, DoDropCounter("u")));
    GetsOn(s, begun, ReconNext(begun, r, DoDropCounter("u")), 0, 0, 0, Counter(s, "u"));
  }

  lemma RunErases(s: State, ws: Holders, counted: nat, surplus: nat) returns (booted: State, w: WorkerId, r: ReconId, t: State)
    requires Poised(s, ws, counted, surplus)
    ensures Leads(s, booted) && w in booted.actors.workers && r == booted.nextId
    ensures var begun := EnvNext(booted, StartRecon(w));
            && ReconEnabled(begun, r, DoDropCounter("u")) && t == ReconNext(begun, r, DoDropCounter("u"))
    ensures Gets(s, t, 0, counted) && Poised(t, ws, 0, surplus + counted) && t.cfg == s.cfg
  {
    booted, w, r := RunReads(s);
    t := RunDrops(s, booted, w, r);
    DropGets(s, booted, w, r);
    GetsCoherent(s, t, 0, counted);
    forall k | 0 <= k < |ws| ensures Stands(t, ws[k].0, ContentKey(k), InsertNew(ws[k].1)) {
      assert Stands(s, ws[k].0, ContentKey(k), InsertNew(ws[k].1));
    }
  }

  /** A submission takes a slot, and a reconcile run erases it. */
  lemma HoldsErased(s: State, ws: Holders, surplus: nat) returns (t: State, more: Holders)
    requires Poised(s, ws, 0, surplus)
    ensures Gets(s, t, 0, 1) && Poised(t, more, 0, surplus + 1) && |more| == |ws| + 1 && t.cfg == s.cfg
  {
    var held;
    held, more := HoldsCounted(s, ws, 0, surplus);
    LeadsGets(s, held);
    t := IsErased(held, more, surplus);
    GetsOn(s, held, t, 0, 0, 0, 1);
  }

  lemma IsErased(s: State, ws: Holders, surplus: nat) returns (t: State)
    requires Poised(s, ws, 1, surplus)
    ensures Gets(s, t, 0, 1) && Poised(t, ws, 0, surplus + 1) && t.cfg == s.cfg
  {
    var booted, w, r;
    booted, w, r, t := RunErases(s, ws, 1, surplus);
  }

  lemma {:induction false} ManyErased(s: State, ws: Holders, surplus: nat, k: nat) returns (t: State, more: Holders)
    requires Poised(s, ws, 0, surplus)
    ensures Gets(s, t, 0, k) && Poised(t, more, 0, surplus + k) && |more| == |ws| + k && t.cfg == s.cfg
    decreases k
  {
    if k == 0 {
      NoneGet(s);
      t, more := s, ws;
    } else {
      var u;
      u, more := HoldsErased(s, ws, surplus);
      t, more := ManyErased(u, more, surplus + 1, k - 1);
      GetsOn(s, u, t, 0, 1, 0, k - 1);
    }
  }

  // ---------------------------------------------------------------------
  // They insert
  // ---------------------------------------------------------------------

  lemma OneInserts(s: State, ws: Holders, from: nat, counted: nat, surplus: nat) returns (t: State)
    requires Coherent(s) && from < |ws| && Filled(s, |ws|, from, counted, surplus) && Holding(s, ws, from)
    ensures Leads(s, t) && Filled(t, |ws|, from + 1, counted, surplus) && Holding(t, ws, from + 1) && t.cfg == s.cfg
  {
    var (sid, id) := ws[from];
    assert Stands(s, sid, ContentKey(from), InsertNew(id));
    assert SubmitOk(sid, s.actors.submits[sid], s.nextId, s.docs, s.audit.minted);
    Stay(s);
    EnqueueOn(s, s, sid, DoInsertNew(Answered));
    t := InsertNewStep(s, sid, Answered);
    ActiveCountAfterWrite(s.docs, id, t.docs[id], "u");
    forall k | from + 1 <= k < |ws| ensures Stands(t, ws[k].0, ContentKey(k), InsertNew(ws[k].1)) {
      assert Stands(s, ws[k].0, ContentKey(k), InsertNew(ws[k].1));
    }
  }

  lemma {:induction false} AllInsert(s: State, ws: Holders, from: nat, counted: nat, surplus: nat) returns (t: State)
    requires Coherent(s) && from <= |ws| && Filled(s, |ws|, from, counted, surplus) && Holding(s, ws, from)
    ensures Leads(s, t) && Coherent(t) && Filled(t, |ws|, |ws|, counted, surplus) && t.cfg == s.cfg
    decreases |ws| - from
  {
    if from == |ws| {
      Stay(s);
      t := s;
    } else {
      var u := OneInserts(s, ws, from, counted, surplus);
      StillCoherent(s, u);
      t := AllInsert(u, ws, from + 1, counted, surplus);
      LeadsOn(s, u, t);
    }
  }

  // ---------------------------------------------------------------------
  // Over the limit
  // ---------------------------------------------------------------------

  lemma InsertsNext(s: State, t: State, sid: SubmitId, key: Key, id: DocId) returns (u: State)
    requires Leads(s, t) && Stands(t, sid, key, SetGuard(id)) && key !in t.redis.guards && Counter(t, key.0) < t.cfg.maxActive
    ensures Leads(s, u) && Stands(u, sid, key, PublishNew(id)) && IsQueued(u.docs, id)
    ensures u.docs == t.docs[id := u.docs[id]] && KeyOf(u.docs[id]) == key && u.cfg == t.cfg && Surplus(u, key.0) == Surplus(t, key.0)
    ensures u.redis.cache == t.redis.cache && u.redis.guards == t.redis.guards[key := id]
    ensures Counter(u, key.0) == Counter(t, key.0) + 1
  {
    LookupOn(s, t, sid, DoSetGuard(Answered));
    var guarded := SetGuardStep(t, sid, Answered);
    u := Enqueues(s, guarded, sid, key, id, 0);
  }

  lemma GivesUp(s: State, sid: SubmitId, key: Key, id: DocId) returns (t: State)
    requires Stands(s, sid, key, PublishNew(id))
    ensures Enabled(s, OfEnqueue(sid, DoPublishNew(NotDone))) && Leads(Next(s, OfEnqueue(sid, DoPublishNew(NotDone))), t)
    ensures t.docs == s.docs && t.cfg == s.cfg && Surplus(t, key.0) == Surplus(s, key.0) + 1
    ensures t.redis == s.redis.(guards := s.redis.guards - {key}, counters := Released(s.redis.counters, key.0))
  {
    var failed := Next(s, OfEnqueue(sid, DoPublishNew(NotDone)));
    Stay(failed);
    t := GivesBack(failed, failed, sid, key, id);
  }

  /** The publish fails; slot and guard are given back, the document stays. */
  lemma EntersUnpublished(s: State, n: nat, active: nat, surplus: nat) returns (t: State)
    requires Coherent(s) && Filled(s, n, active, 0, surplus)
    ensures Gets(s, t, 1, 0) && Coherent(t) && Filled(t, n + 1, active + 1, 0, surplus + 1) && t.cfg == s.cfg
  {
    var looked, sid, id := LooksNext(s, n, active, 0, surplus);
    var inserted := InsertsNext(s, looked, sid, ContentKey(n), id);
    t := GivesUp(inserted, sid, ContentKey(n), id);
    Through(s, inserted, OfEnqueue(sid, DoPublishNew(NotDone)), t);
    GetsCoherent(s, t, 1, 0);
    OneMoreFilled(looked, t, n, active, 0, surplus, id);
  }

  lemma {:induction false} ManyUnpublished(s: State, n: nat, active: nat, surplus: nat, k: nat) returns (t: State)
    requires Coherent(s) && Filled(s, n, active, 0, surplus)
    ensures Gets(s, t, k, 0) && Coherent(t) && Filled(t, n + k, active + k, 0, surplus + k) && t.cfg == s.cfg
    decreases k, 0
  {
    if k == 0 {
      NoneGet(s);
      t := s;
    } else {
      var u := EntersUnpublished(s, n, active, surplus);
      t := RestUnpublished(s, u, n + 1, active + 1, surplus + 1, k - 1);
    }
  }

  lemma {:induction false} RestUnpublished(s: State, u: State, n: nat, active: nat, surplus: nat, k: nat) returns (t: State)
    requires Gets(s, u, 1, 0) && Coherent(u) && Filled(u, n, active, 0, surplus)
    ensures Gets(s, t, 1 + k, 0) && Coherent(t) && Filled(t, n + k, active + k, 0, surplus + k) && t.cfg == u.cfg
    decreases k, 1
  {
    t := ManyUnpublished(u, n, active, surplus, k);
    GetsOn(s, u, t, 1, 0, k, 0);
  }

  /** From a state in which so many are let in beside the counter: failed
      publishes, then the limit itself. */
  lemma FillsOver(s: State, n: nat, surplus: nat, unpublished: nat) returns (t: State)
    requires Coherent(s) && Filled(s, n, n, 0, surplus)
    ensures Gets(s, t, unpublished, 0) && |ActiveIds(t.docs, "u")| == n + unpublished + s.cfg.maxActive
  {
    var u := ManyUnpublished(s, n, n, surplus, unpublished);
    t := FillsUp(u, n + unpublished, n + unpublished, 0, surplus + unpublished);
    LeadsGets(u, t);
    GetsOn(s, u, t, unpublished, 0, 0, 0);
  }

  /** Both kinds of holders, one after the other. */
  lemma HoldsAndErases(s: State, degraded: nat, erased: nat) returns (t: State, ws: Holders)
    requires Init(s)
    ensures Gets(s, t, degraded, erased) && Poised(t, ws, 0, degraded + erased) && |ws| == degraded + erased && t.cfg == s.cfg
  {
    InitIsCoherent(s);
    var held;
    held, ws := ManyDegraded(s, [], 0, 0, degraded);
    t, ws := ManyErased(held, ws, degraded, erased);
    GetsOn(s, held, t, degraded, 0, 0, erased);
  }

  lemma AllEnter(s: State, ws: Holders, surplus: nat, unpublished: nat) returns (t: State)
    requires Poised(s, ws, 0, surplus)
    ensures Gets(s, t, unpublished, 0) && |ActiveIds(t.docs, "u")| == |ws| + unpublished + s.cfg.maxActive
  {
    var inserted := AllInsert(s, ws, 0, 0, surplus);
    LeadsGets(s, inserted);
    t := FillsOver(inserted, |ws|, surplus, unpublished);
    GetsOn(s, inserted, t, 0, 0, unpublished, 0);
  }

  /** The bound on active documents is reached: for all numbers of degraded
      admissions, of failed publishes and of slots that racing reconcile runs
      erase there is a run with just so many after which that many more than
      the limit are active. */
  lemma OvershootIsReached(s: State, degraded: nat, unpublished: nat, erased: nat) returns (acts: seq<Action>)
    requires Init(s)
    ensures Legal(s, acts) && OvershootCount(s, acts, "u") == degraded + unpublished && ErasedSum(s, acts, "u") == erased
    ensures |ActiveIds(Exec(s, acts).docs, "u")| == s.cfg.maxActive + degraded + unpublished + erased
  {
    var t, ws := HoldsAndErases(s, degraded, erased);
    var u := AllEnter(t, ws, degraded + erased, unpublished);
    GetsOn(s, t, u, degraded, erased, unpublished, 0);
    acts :| Legal(s, acts) && Exec(s, acts) == u && OvershootCount(s, acts, "u") == degraded + unpublished && ErasedSum(s, acts, "u") == erased;
  }

  /** Without any fault: a submission has taken its slot; a reconcile run reads
      the collection, finds nothing active and drops the counter; then the
      submission inserts, and as many more as the limit allows get in. */
  lemma RacingReconcileOverfills(s: State) returns (t: State, w: WorkerId, r: ReconId, u: State)
    requires Init(s)
    ensures Leads(s, t) && w in t.actors.workers && r == t.nextId
    ensures var begun := EnvNext(t, StartRecon(w));
            && ReconEnabled(begun, r, DoDropCounter("u")) && Leads(ReconNext(begun, r, DoDropCounter("u")), u)
    ensures |ActiveIds(u.docs, "u")| == s.cfg.maxActive + 1
  {
    InitIsCoherent(s);
    var held, ws := HoldsCounted(s, [], 0, 0);
    var raced;
    t, w, r, raced := RunErases(held, ws, 1, 0);
    LeadsOn(s, held, t);
    var inserted := AllInsert(raced, ws, 0, 0, 1);
    u := FillsUp(inserted, 1, 1, 0, 1);
    LeadsOn(raced, inserted, u);
  }
}
