/** How often a document can be tried: as often as the account of its attempts
    allows. */
module AttemptRuns {
  import opened Types
  import opened Decorators
  import opened Repository
  import opened Queue
  import opened Protocol
  import opened References
  import opened ReferencesKept
  import opened Attempts
  import opened Settlement
  import opened Backoff
  import opened Reachable
  import opened Recovery
  import opened Traps
  import opened BackoffTraps

  /** The numbers `1 .. n`. */
  function UpTo(n: nat): (r: set<nat>)
    ensures |r| == n && forall e <- r :: 1 <= e <= n
  {
    if n == 0 then {} else UpTo(n - 1) + {n}
  }

  /** The attempts `1 .. n` were sent back for a retry, and no others. */
  ghost predicate RetriedUpTo(h: History, id: DocId, n: nat) {
    RetriedBy(h, id) == UpTo(n)
  }

  // ---------------------------------------------------------------------
  // One attempt more
  // ---------------------------------------------------------------------

  /** A fresh worker claims the one document that is undelivered. */
  lemma FreshWorkerClaims(s: State, t: State, id: DocId, n: nat) returns (u: State, w: WorkerId, j: JobId)
    requires Leads(s, t) && t.cfg.Valid() && Offered(t, id, n)
    ensures Leads(s, u) && Held(u, id, n + 1) && u.cfg == t.cfg && At(u, w, j, Reread) && JobOwns(u, j)
    ensures u.actors.jobs[j].doc == id && u.actors.jobs[j].epoch == n + 1 && u.actors.workers[w].permits > 0
    ensures u.audit == t.audit
  {
    var read;
    read, w := FreshWorkerReads(s, t);
    var batch := Span(t.redis.delivered, read.redis.delivered);
    assert batch[0] == t.redis.delivered;
    j := read.nextId;
    ConsumeOn(s, read, w, DoClaim);
    u := ClaimWonStep(read, w);
  }

  lemma SendsBack(s: State, t: State, id: DocId, n: nat, w: WorkerId, j: JobId) returns (u: State)
    requires Leads(s, t) && Held(t, id, n) && At(t, w, j, Reread) && JobOwns(t, j) && t.actors.workers[w].permits > 0
    requires t.actors.jobs[j].doc == id && t.actors.jobs[j].epoch == n && MayRetry(t.cfg, n, 0.0)
    ensures Leads(s, u) && Alone(u, id) && u.docs[id].attempts == n && u.redis.delivered == |u.redis.log| && u.cfg == t.cfg
    ensures RetriedBy(u.audit.history, id) == RetriedBy(t.audit.history, id) + {n}
  {
    var running := JobStarts(s, t, w, j);
    WorkOn(s, running, j, DoRetry("", 0.0));
    u := RetryStep(running, j, "", 0.0);
  }

  /** It is claimed, sent back, and offered again. */
  lemma OneRetried(s: State, id: DocId, n: nat) returns (t: State)
    requires Coherent(s) && Offered(s, id, n) && n + 1 < s.cfg.maxAttempts && RetriedUpTo(s.audit.history, id, n)
    ensures Leads(s, t) && Coherent(t) && Offered(t, id, n + 1) && t.cfg == s.cfg && RetriedUpTo(t.audit.history, id, n + 1)
  {
    Stay(s);
    var claimed, w, j := FreshWorkerClaims(s, s, id, n);
    var back := SendsBack(s, claimed, id, n + 1, w, j);
    t := OfferedAgain(s, back, id, n + 1);
  }

  lemma OfferedAgain(s: State, t: State, id: DocId, n: nat) returns (u: State)
    requires Coherent(s) && Leads(s, t) && Alone(t, id) && t.docs[id].attempts == n && t.redis.delivered == |t.redis.log|
    requires RetriedUpTo(t.audit.history, id, n)
    ensures Leads(s, u) && Coherent(u) && Offered(u, id, n) && u.cfg == t.cfg && RetriedUpTo(u.audit.history, id, n)
  {
    StillCoherent(s, t);
    u := LoneStaleIsPublished(t, id);
    LeadsOn(s, t, u);
    StillCoherent(s, u);
  }

  lemma {:induction false} ManyRetries(s: State, k: nat) returns (t: State, id: DocId)
    requires Init(s) && k < s.cfg.maxAttempts
    ensures Leads(s, t) && Coherent(t) && Offered(t, id, k) && t.cfg == s.cfg && RetriedUpTo(t.audit.history, id, k)
    decreases k
  {
    if k == 0 {
      t, id := SubmitsOne(s);
      InitIsCoherent(s);
      StillCoherent(s, t);
    } else {
      var u;
      u, id := ManyRetries(s, k - 1);
      t := OneRetried(u, id, k - 1);
      LeadsOn(s, u, t);
    }
  }

  /** The last claim, and then as many lost to the lease. */
  lemma {:induction false} ManyRecoveries(s: State, id: DocId, k: nat, r: nat) returns (t: State)
    requires Coherent(s) && Offered(s, id, k)
    ensures Leads(s, t) && Held(t, id, k + r + 1) && t.cfg == s.cfg && t.audit.history.retried == s.audit.history.retried
    decreases r
  {
    var w, j;
    if r == 0 {
      Stay(s);
      t, w, j := FreshWorkerClaims(s, s, id, k);
    } else {
      var u := ManyRecoveries(s, id, k, r - 1);
      StillCoherent(s, u);
      t := RecoveredOnce(u, id, k + r);
      LeadsOn(s, u, t);
    }
  }

  lemma RecoveredOnce(s: State, id: DocId, n: nat) returns (t: State)
    requires Coherent(s) && Held(s, id, n)
    ensures Leads(s, t) && Held(t, id, n + 1) && t.cfg == s.cfg && t.audit.history.retried == s.audit.history.retried
  {
    var reset := IsReset(s, id, n);
    var w, j;
    t, w, j := FreshWorkerClaims(s, reset, id, n);
  }

  // ---------------------------------------------------------------------
  // Every account is reached
  // ---------------------------------------------------------------------

  lemma AccountOf(s: State, id: DocId, n: nat)
    requires Sound(s) && Held(s, id, n) && IsWork(s.docs, id)
    ensures n == |RetriedBy(s.audit.history, id)| + Reclaims(s.audit.history, id) + 1
  {
    assert AccountAt(s.docs, s.audit.history, id, s.cfg.maxAttempts);
  }

  lemma LeadsSound(s: State, t: State)
    requires Init(s) && Leads(s, t)
    ensures Sound(t)
  {
    var acts :| Legal(s, acts) && AllBenign(acts) && Exec(s, acts) == t;
    ReachableIsSound(s, acts);
  }

  /** Lease recovery does not look at the attempt limit. For every number of
      retries below it and every number of recoveries there is a run, without
      any fault, with just so many of each, after which the document is being
      processed for one attempt more than these: so every account that the
      equation allows is reached. */
  lemma AttemptsAreReached(s: State, k: nat, r: nat) returns (t: State, id: DocId)
    requires Init(s) && k < s.cfg.maxAttempts
    ensures Leads(s, t) && id in t.docs && t.docs[id].status.Processing? && t.docs[id].attempts == k + r + 1
    ensures |RetriedBy(t.audit.history, id)| == k && Reclaims(t.audit.history, id) == r
  {
    var u;
    u, id := ManyRetries(s, k);
    t := ManyRecoveries(u, id, k, r);
    LeadsOn(s, u, t);
    Settles(s, t, id, k + r + 1);
  }

  lemma Settles(s: State, t: State, id: DocId, n: nat)
    requires Init(s) && Leads(s, t) && Held(t, id, n)
    ensures n == |RetriedBy(t.audit.history, id)| + Reclaims(t.audit.history, id) + 1
  {
    LeadsSound(s, t);
    assert IsWork(t.docs, id);
    AccountOf(t, id, n);
  }

  // ---------------------------------------------------------------------
  // How long it can wait on time
  // ---------------------------------------------------------------------

  /** It is claimed, read at once, and sent back for the longest delay its
      attempt can draw. */
  lemma WaitsItsCeiling(s: State, t: State, id: DocId, n: nat, w: WorkerId, j: JobId) returns (u: State)
    requires Leads(s, t) && Coherent(s) && Held(t, id, n) && At(t, w, j, Reread) && JobOwns(t, j) && t.actors.workers[w].permits > 0
    requires t.actors.jobs[j].doc == id && t.actors.jobs[j].epoch == n && 1 <= n < t.cfg.maxAttempts && t.cfg.Valid()
    ensures var delay := BackoffCeiling(n, t.cfg.retryBase, t.cfg.retryMax); WaitsLong(s, u, id, delay)
    ensures Coherent(u) && Alone(u, id) && u.docs[id].attempts == n && u.redis.delivered == |u.redis.log| && u.cfg == t.cfg
    ensures u.audit.history.reclaims == t.audit.history.reclaims
  {
    var delay := BackoffCeiling(n, t.cfg.retryBase, t.cfg.retryMax);
    var running := JobStarts(s, t, w, j);
    LeadsWaits(s, running, id);
    StillCoherent(s, running);
    u := OldJobRetries(running, id, n, n, [], 0, j, delay);
    WaitsOn(s, running, u, id, 0.0, delay);
  }

  lemma OneWaited(s: State, id: DocId, n: nat) returns (t: State)
    requires Coherent(s) && Offered(s, id, n) && n + 1 < s.cfg.maxAttempts
    ensures WaitsLong(s, t, id, BackoffCeiling(n + 1, s.cfg.retryBase, s.cfg.retryMax))
    ensures Coherent(t) && Offered(t, id, n + 1) && t.cfg == s.cfg && t.audit.history.reclaims == s.audit.history.reclaims
  {
    Stay(s);
    var claimed, w, j := FreshWorkerClaims(s, s, id, n);
    var back := WaitsItsCeiling(s, claimed, id, n + 1, w, j);
    t := LoneStaleIsPublished(back, id);
    StillCoherent(back, t);
    LeadsWaits(back, t, id);
    WaitsOn(s, back, t, id, BackoffCeiling(n + 1, s.cfg.retryBase, s.cfg.retryMax), 0.0);
  }

  lemma {:induction false} ManyWaited(s: State, k: nat) returns (t: State, id: DocId)
    requires Init(s) && k < s.cfg.maxAttempts
    ensures WaitsLong(s, t, id, CeilingSum(k, s.cfg.retryBase, s.cfg.retryMax))
    ensures Coherent(t) && Offered(t, id, k) && t.cfg == s.cfg && t.audit.history.reclaims == map[]
    decreases k
  {
    if k == 0 {
      t, id := SubmitsOne(s);
      InitIsCoherent(s);
      StillCoherent(s, t);
      LeadsWaits(s, t, id);
    } else {
      var u;
      u, id := ManyWaited(s, k - 1);
      t := OneWaited(u, id, k - 1);
      WaitsOn(s, u, t, id, CeilingSum(k - 1, s.cfg.retryBase, s.cfg.retryMax), BackoffCeiling(k, s.cfg.retryBase, s.cfg.retryMax));
    }
  }

  /** The sum of the ceilings is reached, whatever the settings, by a run
      without any fault in which no read is late. */
  lemma CeilingsAreReached(s: State) returns (acts: seq<Action>, id: DocId)
    requires Init(s)
    ensures Legal(s, acts) && AllBenign(acts) && NeverLate(s, acts, id)
    ensures DelaySum(s, acts, id) == CeilingSum(s.cfg.maxAttempts - 1, s.cfg.retryBase, s.cfg.retryMax)
  {
    var t;
    t, id := ManyWaited(s, s.cfg.maxAttempts - 1);
    acts :| Legal(s, acts) && AllBenign(acts) && Exec(s, acts) == t
            && DelaySum(s, acts, id) >= CeilingSum(s.cfg.maxAttempts - 1, s.cfg.retryBase, s.cfg.retryMax);
    WaitSums(s, acts, id);
  }

  /** What bounds the wait in every run in which no read is late. */
  ghost predicate OnTimeWaitsAtMost(s: State, bound: real) {
    forall acts, id :: Legal(s, acts) && NeverLate(s, acts, id) ==> DelaySum(s, acts, id) <= bound
  }

  /** A bound holds in every run without late reads exactly if it is no
      smaller than the sum of the ceilings. */
  lemma OnTimeIsExactly(s: State, bound: real)
    requires Init(s)
    ensures OnTimeWaitsAtMost(s, bound) <==> CeilingSum(s.cfg.maxAttempts - 1, s.cfg.retryBase, s.cfg.retryMax) <= bound
  {
    var acts, id := CeilingsAreReached(s);
    if CeilingSum(s.cfg.maxAttempts - 1, s.cfg.retryBase, s.cfg.retryMax) <= bound {
      forall more, d | Legal(s, more) && NeverLate(s, more, d) ensures DelaySum(s, more, d) <= bound { WaitSums(s, more, d); }
    }
  }

  ghost predicate WaitsOnTime(s: State, acts: seq<Action>, id: DocId, total: real) {
    Legal(s, acts) && NeverLate(s, acts, id) && DelaySum(s, acts, id) == total
  }

  lemma ReachedExactly(s: State, total: real)
    requires Init(s) && CeilingSum(s.cfg.maxAttempts - 1, s.cfg.retryBase, s.cfg.retryMax) <= total
    ensures (exists acts, id :: WaitsOnTime(s, acts, id, total))
       <==> CeilingSum(s.cfg.maxAttempts - 1, s.cfg.retryBase, s.cfg.retryMax) == total
  {
    var acts, id := CeilingsAreReached(s);
    assert WaitsOnTime(s, acts, id, CeilingSum(s.cfg.maxAttempts - 1, s.cfg.retryBase, s.cfg.retryMax));
    forall more, d | WaitsOnTime(s, more, d, total)
      ensures total <= CeilingSum(s.cfg.maxAttempts - 1, s.cfg.retryBase, s.cfg.retryMax)
    {
      WaitSums(s, more, d);
    }
  }

  /** The doubling bound is reached, by a run without late reads, if and only
      if the last retry's doubled ceiling is within the cap. */
  lemma DoublingIsReached(s: State)
    requires Init(s)
    ensures (exists acts, id :: WaitsOnTime(s, acts, id, DoublingBound(s.cfg)))
       <==> LastGrown(s.cfg.maxAttempts - 1, s.cfg.retryBase) <= s.cfg.retryMax
  {
    SumIsGeometric(s.cfg.maxAttempts - 1, s.cfg.retryBase, s.cfg.retryMax);
    ReachedExactly(s, DoublingBound(s.cfg));
  }
}
