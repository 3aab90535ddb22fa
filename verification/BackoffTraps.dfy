/** Runs, without any fault, in which the backoff is not what it seems: a retry
    that starts before it is due, and a document that waits for the longest
    delay every time. */
module BackoffTraps {
  import opened Types
  import opened Decorators
  import opened Repository
  import opened Queue
  import opened Protocol
  import opened References
  import opened ReferencesKept
  import opened Settlement
  import opened Backoff
  import opened Early
  import opened Recovery
  import opened Traps
  import Fresh

  // ---------------------------------------------------------------------
  // A sweep with only a stale document to find
  // ---------------------------------------------------------------------

  /** The one document there is, queued, with an empty delay set. */
  ghost predicate Alone(s: State, id: DocId) {
    IsQueued(s.docs, id) && s.docs == map[id := s.docs[id]] && s.redis.zset == map[]
  }

  lemma NothingExpired(s: State, t: State, x: SweepId, id: DocId) returns (u: State)
    requires Leads(s, t) && Alone(t, id) && Sweeping(t, x, FindExpired)
    ensures Leads(s, u) && Sweeping(u, x, PopDelayed) && u.docs == t.docs && u.redis == t.redis && Bystanders(t, u)
    ensures u.cfg == t.cfg && u.now == t.now && u.audit == t.audit
  {
    assert ExpiredIds(t.docs, t.now) == {};
    SweepOn(s, t, x, DoFindExpired([]));
    var found := FindExpiredStep(t, x, []);
    SweepOn(s, found, x, DoResetRow);
    var none := RowsDoneStep(found, x);
    u := NextStage(s, none, x, Reclaimed);
  }

  lemma NothingDelayed(s: State, t: State, x: SweepId, id: DocId) returns (u: State)
    requires Leads(s, t) && Alone(t, id) && Sweeping(t, x, PopDelayed)
    ensures Leads(s, u) && Sweeping(u, x, FindStale) && u.docs == t.docs && u.redis == t.redis && Bystanders(t, u)
    ensures u.cfg == t.cfg && u.now == t.now && u.audit == t.audit
  {
    assert DueIds(t.redis.zset, t.now) == {};
    SweepOn(s, t, x, DoPopDelayed([], Answered));
    var popped := PopDelayedStep(t, x, [], Answered);
    assert popped.redis.zset == t.redis.zset;
    u := NextStage(s, popped, x, Promoted);
  }

  /** After a while the stale scan lists it, whatever entries it has. */
  lemma LoneIsListed(s: State, id: DocId) returns (t: State, x: SweepId)
    requires Coherent(s) && Alone(s, id)
    ensures Leads(s, t) && Sweeping(t, x, PublishIds([id], Restaled)) && t.docs == s.docs && t.redis == s.redis
    ensures Bystanders(s, t) && t.cfg == s.cfg && t.audit == s.audit
  {
    assert DocOk(s.cfg, s.now, s.docs[id]);
    var begun;
    begun, x := SweepBegins(s, s.cfg.staleQueued + s.cfg.retryMax + 1.0);
    var scanned := NothingExpired(s, begun, x, id);
    var ready := NothingDelayed(s, scanned, x, id);
    RecoveryDeadline(s, id, ready.now);
    t := FindsLone(s, ready, x, id);
  }

  lemma FindsLone(s: State, t: State, x: SweepId, id: DocId) returns (u: State)
    requires Leads(s, t) && Alone(t, id) && Sweeping(t, x, FindStale) && id in StaleIds(t.docs, t.now - t.cfg.staleQueued, t.now)
    ensures Leads(s, u) && Sweeping(u, x, PublishIds([id], Restaled)) && u.docs == t.docs && u.redis == t.redis
    ensures Bystanders(t, u) && u.cfg == t.cfg && u.audit == t.audit
  {
    assert StaleIds(t.docs, t.now - t.cfg.staleQueued, t.now) == {id};
    SweepOn(s, t, x, DoFindStale([id]));
    u := FindStaleStep(t, x, [id]);
  }

  /** ... and publishes it. */
  lemma LoneStaleIsPublished(s: State, id: DocId) returns (t: State)
    requires Coherent(s) && Alone(s, id)
    ensures Leads(s, t) && t.docs == s.docs && t.redis == s.redis.(log := s.redis.log + [id])
    ensures Bystanders(s, t) && t.cfg == s.cfg && t.audit == s.audit
  {
    var listed, x := LoneIsListed(s, id);
    t := PublishFirst(s, listed, x, [id], Restaled);
  }

  /** The step writes the record of a document that a sweep has listed and not
      yet published. */
  ghost predicate WritesListed(s: State, a: Action, x: SweepId, id: DocId) {
    Enabled(s, a) && Benign(a) && Fresh.WritesTo(s, a, id) && Fresh.Listed(Next(s, a), x, id)
  }

  /** A run from the empty service, without any fault, to such a claim: the
      sweep will publish the document right after that write. */
  lemma ClaimedWhileListed(s: State) returns (t: State, a: Action, x: SweepId, id: DocId)
    requires Init(s)
    ensures Leads(s, t) && WritesListed(t, a, x, id)
  {
    var submitted, listed;
    submitted, id := SubmitsOne(s);
    InitIsCoherent(s);
    StillCoherent(s, submitted);
    listed, x := LoneIsListed(submitted, id);
    StillCoherent(submitted, listed);
    t, a := ClaimsListed(listed, x, id);
    LeadsOn(s, submitted, listed);
    LeadsOn(s, listed, t);
  }

  lemma ClaimsListed(s: State, x: SweepId, id: DocId) returns (t: State, a: Action)
    requires Coherent(s) && Fresh.Listed(s, x, id) && IsQueued(s.docs, id) && s.redis.log == [id] && s.redis.delivered == 0
    ensures Leads(s, t) && WritesListed(t, a, x, id)
  {
    Stay(s);
    var w;
    t, w := FreshWorkerReads(s, s);
    a := OfWorker(w, DoClaim);
    ClaimWritesListed(t, w, x, id);
  }

  lemma ClaimWritesListed(s: State, w: WorkerId, x: SweepId, id: DocId)
    requires Pulling(s, w, Span(0, 1)) && Fresh.Listed(s, x, id) && IsQueued(s.docs, id) && s.redis.log == [id]
    ensures WritesListed(s, OfWorker(w, DoClaim), x, id)
  {
    assert Next(s, OfWorker(w, DoClaim)) == ClaimWonStep(s, w);
  }

  // ---------------------------------------------------------------------
  // A retry before its time
  // ---------------------------------------------------------------------

  /** A worker has read the document's only entry and not yet claimed it when
      the stale scan publishes a second one. */
  lemma ReadAndRestaled(s: State) returns (t: State, w: WorkerId, id: DocId)
    requires Init(s)
    ensures Leads(s, t) && IsQueued(t.docs, id) && t.docs[id].attempts == 0 && t.cfg == s.cfg
    ensures Pulling(t, w, [0]) && t.redis.log == [id, id] && t.redis.delivered == 1
  {
    var submitted, read;
    submitted, id := SubmitsOne(s);
    read, w := FreshWorkerReads(s, submitted);
    InitIsCoherent(s);
    StillCoherent(s, read);
    t := LoneStaleIsPublished(read, id);
    LeadsOn(s, read, t);
    assert Span(0, 1) == [0];
  }

  /** It claims, fails, and sends the document back for a retry. */
  lemma ClaimsAndRetries(s: State, t: State, w: WorkerId, id: DocId, delay: real) returns (u: State)
    requires Leads(s, t) && Pulling(t, w, [0]) && t.redis.log == [id, id] && IsQueued(t.docs, id) && t.docs[id].attempts == 0
    requires MayRetry(t.cfg, 1, delay)
    ensures Leads(s, u) && IsQueued(u.docs, id) && u.docs[id].nextAttemptAt == Some(u.now + delay) && SameQueue(t, u)
  {
    var claimed := ClaimsNext(s, t, w, [0]);
    var j := t.nextId;
    var running := JobStarts(s, claimed, w, j);
    WorkOn(s, running, j, DoRetry("", delay));
    u := RetryStep(running, j, "", delay);
  }

  /** The claim filter does not look at `nextAttemptAt`. From the empty service
      and without any fault, a retry is scheduled, and before it is due a second
      entry of the document is read and claimed with. */
  lemma BackoffIsBypassed(s: State) returns (t: State, a: Action, id: DocId, due: Time)
    requires Init(s) && s.cfg.maxAttempts >= 2 && s.cfg.retryBase > 0.0 && s.cfg.retryMax > 0.0
    ensures Leads(s, t) && Waiting(t, id, due) && Early.Claimed(t, a, id)
  {
    var restaled, w;
    restaled, w, id := ReadAndRestaled(s);
    var delay := BackoffCeiling(1, s.cfg.retryBase, s.cfg.retryMax);
    var retried := ClaimsAndRetries(s, restaled, w, id, delay);
    due := retried.now + delay;
    var v;
    t, v := FreshWorkerReads(s, retried);
    assert Span(1, 2) == [1];
    a := OfWorker(v, DoClaim);
  }

  // ---------------------------------------------------------------------
  // Runs that wait
  // ---------------------------------------------------------------------

  /** A benign run over which the document's delays sum to `d` or more. */
  ghost predicate WaitsLong(s: State, t: State, id: DocId, d: real) {
    exists acts :: Legal(s, acts) && AllBenign(acts) && Exec(s, acts) == t && DelaySum(s, acts, id) >= d
  }

  lemma {:induction false} SumSplits(s: State, before: seq<Action>, after: seq<Action>, id: DocId)
    requires Legal(s, before) && Legal(Exec(s, before), after)
    ensures Legal(s, before + after) && Exec(s, before + after) == Exec(Exec(s, before), after)
    ensures DelaySum(s, before + after, id) == DelaySum(s, before, id) + DelaySum(Exec(s, before), after, id)
    decreases |before|
  {
    if before == [] {
      assert before + after == after;
    } else {
      var both := before + after;
      SumSplits(Next(s, before[0]), before[1..], after, id);
      assert both[0] == before[0] && both[1..] == before[1..] + after;
    }
  }

  lemma {:induction false} SumIsPositive(s: State, acts: seq<Action>, id: DocId)
    requires Legal(s, acts)
    ensures DelaySum(s, acts, id) >= 0.0
    decreases |acts|
  {
    if acts != [] {
      SumIsPositive(Next(s, acts[0]), acts[1..], id);
    }
  }

  lemma LeadsWaits(s: State, t: State, id: DocId)
    requires Leads(s, t)
    ensures WaitsLong(s, t, id, 0.0)
  {
    var acts :| Legal(s, acts) && AllBenign(acts) && Exec(s, acts) == t;
    SumIsPositive(s, acts, id);
  }

  lemma WaitsOn(s: State, t: State, u: State, id: DocId, d: real, e: real)
    requires WaitsLong(s, t, id, d) && WaitsLong(t, u, id, e)
    ensures WaitsLong(s, u, id, d + e)
  {
    var before :| Legal(s, before) && AllBenign(before) && Exec(s, before) == t && DelaySum(s, before, id) >= d;
    var after :| Legal(t, after) && AllBenign(after) && Exec(t, after) == u && DelaySum(t, after, id) >= e;
    SumSplits(s, before, after, id);
    assert AllBenign(before + after);
  }

  lemma RetryWaits(s: State, j: JobId, id: DocId, delay: real)
    requires WorkEnabled(s, j, DoRetry("", delay)) && JobOwns(s, j) && s.actors.jobs[j].doc == id
    ensures WaitsLong(s, RetryStep(s, j, "", delay), id, delay)
  {
    var a := OfWork(j, DoRetry("", delay));
    var acts := [a];
    assert acts[1..] == [];
    assert Legal(Next(s, a), acts[1..]) && Exec(Next(s, a), acts[1..]) == Next(s, a);
    assert Legal(s, acts) && AllBenign(acts) && Exec(s, acts) == Next(s, a);
    assert DelaySum(Next(s, a), acts[1..], id) == 0.0;
  }

  // ---------------------------------------------------------------------
  // Claims that are read late
  // ---------------------------------------------------------------------

  /** Workers, each with a claim of its own. */
  type Crew = seq<(WorkerId, JobId)>

  ghost predicate Distinct(crew: Crew) {
    forall i, k :: 0 <= i < k < |crew| ==> crew[i].0 != crew[k].0 && crew[i].1 != crew[k].1
  }

  /** The one document there is, claimed `n` times; nothing is undelivered. */
  ghost predicate Held(s: State, id: DocId, n: nat) {
    && id in s.docs && s.docs == map[id := s.docs[id]] && s.docs[id].status.Processing? && s.docs[id].attempts == n
    && s.redis.zset == map[] && s.redis.delivered == |s.redis.log|
  }

  /** A claim that has not been read, of a worker that has nothing else. */
  ghost predicate Stalls(s: State, id: DocId, w: WorkerId, j: JobId) {
    && At(s, w, j, Reread) && s.actors.jobs[j].doc == id
    && s.actors.workers[w].permits > 0 && s.actors.workers[w].batch == [] && s.actors.workers[w].cycles == 1
  }

  ghost predicate AllStall(s: State, id: DocId, crew: Crew) {
    Distinct(crew) && forall k :: 0 <= k < |crew| ==> Stalls(s, id, crew[k].0, crew[k].1)
  }

  lemma FirstClaims(s: State) returns (t: State, id: DocId, crew: Crew)
    requires Init(s)
    ensures Leads(s, t) && Held(t, id, 1) && |crew| == 1 && AllStall(t, id, crew) && t.cfg == s.cfg
  {
    var submitted;
    submitted, id := SubmitsOne(s);
    var read, w := FreshWorkerReads(s, submitted);
    assert Span(0, 1) == [0];
    t := FirstClaim(s, read, id, w);
    crew := [(w, read.nextId)];
  }

  lemma FirstClaim(s: State, t: State, id: DocId, w: WorkerId) returns (u: State)
    requires Leads(s, t) && IsQueued(t.docs, id) && t.docs == map[id := t.docs[id]] && t.docs[id].attempts == 0
    requires t.redis.log == [id] && t.redis.delivered == 1 && t.redis.zset == map[]
    requires Pulling(t, w, [0]) && t.actors.workers[w].cycles == 1
    ensures Leads(s, u) && Held(u, id, 1) && Stalls(u, id, w, t.nextId) && u.cfg == t.cfg
  {
    ConsumeOn(s, t, w, DoClaim);
    u := ClaimWonStep(t, w);
  }

  /** The document, queued, has one undelivered entry. */
  ghost predicate Offered(s: State, id: DocId, n: nat) {
    && IsQueued(s.docs, id) && s.docs == map[id := s.docs[id]] && s.docs[id].attempts == n
    && s.redis.zset == map[] && s.redis.delivered + 1 == |s.redis.log| && s.redis.log[s.redis.delivered] == id
  }

  /** The lease runs out, and the document goes back onto the stream. */
  lemma IsReset(s: State, id: DocId, n: nat) returns (t: State)
    requires Coherent(s) && Held(s, id, n)
    ensures Leads(s, t) && Coherent(t) && Offered(t, id, n) && Bystanders(s, t) && t.cfg == s.cfg
    ensures t.audit.history.retried == s.audit.history.retried
  {
    t := ExpiredIsPublished(s, id);
    StillCoherent(s, t);
    assert t.docs.Keys == {id};
  }

  /** Workers and jobs of the state are known, so a new one is another. */
  lemma NewIsOther(s: State, id: DocId, crew: Crew)
    requires Coherent(s) && AllStall(s, id, crew)
    ensures forall k :: 0 <= k < |crew| ==> crew[k].0 < s.nextId && crew[k].1 < s.nextId
  {
    forall k | 0 <= k < |crew| ensures crew[k].0 < s.nextId && crew[k].1 < s.nextId {
      assert Stalls(s, id, crew[k].0, crew[k].1);
      EpochOfJob(s, crew[k].1);
    }
  }

  lemma OneMoreStalls(s: State, id: DocId, n: nat, crew: Crew) returns (t: State, more: Crew)
    requires Coherent(s) && Held(s, id, n) && AllStall(s, id, crew)
    ensures Leads(s, t) && Held(t, id, n + 1) && |more| == |crew| + 1 && AllStall(t, id, more) && t.cfg == s.cfg
  {
    var reset := IsReset(s, id, n);
    assert AllStall(reset, id, crew);
    NewIsOther(reset, id, crew);
    var read, v := FreshWorkerReads(s, reset);
    assert AllStall(read, id, crew);
    t, more := ClaimsAndStalls(s, read, id, n, crew, v);
  }

  lemma ClaimsAndStalls(s: State, t: State, id: DocId, n: nat, crew: Crew, v: WorkerId) returns (u: State, more: Crew)
    requires Leads(s, t) && AllStall(t, id, crew) && v < t.nextId
    requires forall k :: 0 <= k < |crew| ==> crew[k].0 != v && crew[k].1 < t.nextId
    requires IsQueued(t.docs, id) && t.docs == map[id := t.docs[id]] && t.docs[id].attempts == n && t.redis.zset == map[]
    requires t.redis.delivered == |t.redis.log| >= 1 && t.redis.log[|t.redis.log| - 1] == id
    requires Pulling(t, v, [|t.redis.log| - 1]) && t.actors.workers[v].cycles == 1
    ensures Leads(s, u) && Held(u, id, n + 1) && |more| == |crew| + 1 && AllStall(u, id, more) && u.cfg == t.cfg
  {
    ConsumeOn(s, t, v, DoClaim);
    u := ClaimWonStep(t, v);
    more := crew + [(v, t.nextId)];
    forall k | 0 <= k < |more| ensures Stalls(u, id, more[k].0, more[k].1) {
      if k < |crew| { assert Stalls(t, id, crew[k].0, crew[k].1); }
    }
  }

  lemma {:induction false} ManyStall(s: State, n: nat) returns (t: State, id: DocId, crew: Crew)
    requires Init(s) && n >= 1
    ensures Leads(s, t) && Held(t, id, n) && |crew| == n && AllStall(t, id, crew) && t.cfg == s.cfg
    decreases n
  {
    if n == 1 {
      t, id, crew := FirstClaims(s);
    } else {
      var before, fewer;
      before, id, fewer := ManyStall(s, n - 1);
      InitIsCoherent(s);
      StillCoherent(s, before);
      t, crew := OneMoreStalls(before, id, n - 1, fewer);
      LeadsOn(s, before, t);
    }
  }

  // ---------------------------------------------------------------------
  // All of them read the last claim
  // ---------------------------------------------------------------------

  /** A running job that works on attempt `n`; its worker is back at reading. */
  ghost predicate Overstays(s: State, id: DocId, n: nat, w: WorkerId, j: JobId) {
    && At(s, w, j, Run) && s.actors.jobs[j].doc == id && s.actors.jobs[j].snap.attempts == n
    && s.actors.workers[w].pc.ReadStream? && s.actors.workers[w].batch == []
  }

  lemma ReadsAndStarts(s: State, t: State, id: DocId, n: nat, w: WorkerId, j: JobId) returns (u: State)
    requires Leads(s, t) && Stalls(t, id, w, j) && Held(t, id, n)
    ensures Leads(s, u) && Held(u, id, n) && Overstays(u, id, n, w, j) && u.cfg == t.cfg
    ensures SameElsewhere(t.actors.jobs, u.actors.jobs, j) && SameElsewhere(t.actors.workers, u.actors.workers, w)
  {
    WorkOn(s, t, j, DoReread);
    var read := RereadStep(t, j);
    WorkOn(s, read, j, DoStart);
    var started := StartStep(read, j);
    ConsumeOn(s, started, w, DoPoll);
    u := PollStep(started, w);
  }

  ghost predicate StallFrom(s: State, id: DocId, n: nat, crew: Crew, from: nat) {
    && Distinct(crew)
    && (forall k :: 0 <= k < from && k < |crew| ==> Overstays(s, id, n, crew[k].0, crew[k].1))
    && (forall k :: from <= k < |crew| ==> Stalls(s, id, crew[k].0, crew[k].1))
  }

  lemma NextReads(s: State, t: State, id: DocId, n: nat, crew: Crew, from: nat) returns (u: State)
    requires Leads(s, t) && Held(t, id, n) && from < |crew| && StallFrom(t, id, n, crew, from)
    ensures Leads(s, u) && Held(u, id, n) && StallFrom(u, id, n, crew, from + 1) && u.cfg == t.cfg
  {
    u := ReadsAndStarts(s, t, id, n, crew[from].0, crew[from].1);
    forall k | 0 <= k < from ensures Overstays(u, id, n, crew[k].0, crew[k].1) {
      assert Overstays(t, id, n, crew[k].0, crew[k].1);
    }
    forall k | from + 1 <= k < |crew| ensures Stalls(u, id, crew[k].0, crew[k].1) {
      assert Stalls(t, id, crew[k].0, crew[k].1);
    }
  }

  lemma {:induction false} AllRead(s: State, t: State, id: DocId, n: nat, crew: Crew, from: nat) returns (u: State)
    requires Leads(s, t) && Held(t, id, n) && from <= |crew| && StallFrom(t, id, n, crew, from)
    ensures Leads(s, u) && Held(u, id, n) && StallFrom(u, id, n, crew, |crew|) && u.cfg == t.cfg
    decreases |crew| - from
  {
    if from == |crew| {
      u := t;
    } else {
      var v := NextReads(s, t, id, n, crew, from);
      u := AllRead(s, v, id, n, crew, from + 1);
    }
  }

  // ---------------------------------------------------------------------
  // ... and retry, one after the other
  // ---------------------------------------------------------------------

  ghost predicate OverstayFrom(s: State, id: DocId, n: nat, crew: Crew, from: nat) {
    Distinct(crew) && forall k :: from <= k < |crew| ==> Overstays(s, id, n, crew[k].0, crew[k].1)
  }

  /** The worker of an old claim takes the document again, and the old job's
      write matches. */
  lemma TakesAgain(s: State, id: DocId, m: nat, n: nat, crew: Crew, from: nat) returns (t: State)
    requires Coherent(s) && Offered(s, id, m) && from < |crew| && OverstayFrom(s, id, n, crew, from)
    ensures Leads(s, t) && Held(t, id, m + 1) && OverstayFrom(t, id, n, crew, from + 1) && t.cfg == s.cfg
    ensures Overdue(t, id, n, crew[from].1)
  {
    var (w, j) := crew[from];
    assert Overstays(s, id, n, w, j);
    EpochOfJob(s, j);
    Stay(s);
    t := WorkerTakesIt(s, s, w, id);
    forall k | from + 1 <= k < |crew| ensures Overstays(t, id, n, crew[k].0, crew[k].1) {
      assert Overstays(s, id, n, crew[k].0, crew[k].1);
      EpochOfJob(s, crew[k].1);
    }
  }

  /** A job on attempt `n` whose settling write matches. */
  ghost predicate Overdue(s: State, id: DocId, n: nat, j: JobId) {
    JobOwns(s, j) && s.actors.jobs[j].pc.Run? && s.actors.jobs[j].doc == id && s.actors.jobs[j].snap.attempts == n
    && s.actors.jobs[j].worker in s.actors.workers
  }

  lemma OldJobRetries(s: State, id: DocId, m: nat, n: nat, crew: Crew, from: nat, j: JobId, delay: real) returns (t: State)
    requires Coherent(s) && Held(s, id, m) && OverstayFrom(s, id, n, crew, from) && Overdue(s, id, n, j) && MayRetry(s.cfg, n, delay)
    requires forall k :: from <= k < |crew| ==> crew[k].1 != j
    ensures WaitsLong(s, t, id, delay) && Coherent(t) && Alone(t, id) && t.redis.delivered == |t.redis.log|
    ensures t.docs[id].attempts == m && OverstayFrom(t, id, n, crew, from) && t.cfg == s.cfg
    ensures t.audit.history.reclaims == s.audit.history.reclaims
  {
    RetryWaits(s, j, id, delay);
    NextKeepsCoherence(s, OfWork(j, DoRetry("", delay)));
    OthersOverstay(s, id, n, crew, from, j, delay);
    t := RetryStep(s, j, "", delay);
  }

  lemma OthersOverstay(s: State, id: DocId, n: nat, crew: Crew, from: nat, j: JobId, delay: real)
    requires OverstayFrom(s, id, n, crew, from) && j in s.actors.jobs && s.actors.jobs[j].doc in s.docs
    requires forall k :: from <= k < |crew| ==> crew[k].1 != j
    ensures OverstayFrom(RetryStep(s, j, "", delay), id, n, crew, from)
  {
    forall k | from <= k < |crew| ensures Overstays(RetryStep(s, j, "", delay), id, n, crew[k].0, crew[k].1) {
      assert Overstays(s, id, n, crew[k].0, crew[k].1);
    }
  }

  lemma IsOffered(s: State, id: DocId, m: nat, n: nat, crew: Crew, from: nat) returns (t: State)
    requires Coherent(s) && Alone(s, id) && s.redis.delivered == |s.redis.log| && s.docs[id].attempts == m
    requires OverstayFrom(s, id, n, crew, from)
    ensures Leads(s, t) && Coherent(t) && Offered(t, id, m) && OverstayFrom(t, id, n, crew, from) && t.cfg == s.cfg
  {
    t := LoneStaleIsPublished(s, id);
    StillCoherent(s, t);
    forall k | from <= k < |crew| ensures Overstays(t, id, n, crew[k].0, crew[k].1) {
      assert Overstays(s, id, n, crew[k].0, crew[k].1);
    }
  }

  /** One retry: taken again, sent back, and offered once more. */
  lemma OneRetries(s: State, id: DocId, m: nat, n: nat, crew: Crew, from: nat, delay: real) returns (t: State)
    requires Coherent(s) && Offered(s, id, m) && from < |crew| && OverstayFrom(s, id, n, crew, from) && MayRetry(s.cfg, n, delay)
    ensures WaitsLong(s, t, id, delay) && Coherent(t) && Offered(t, id, m + 1) && OverstayFrom(t, id, n, crew, from + 1) && t.cfg == s.cfg
  {
    var taken := TakesAgain(s, id, m, n, crew, from);
    StillCoherent(s, taken);
    var retried := OldJobRetries(taken, id, m + 1, n, crew, from + 1, crew[from].1, delay);
    t := IsOffered(retried, id, m + 1, n, crew, from + 1);
    LeadsWaits(s, taken, id);
    WaitsOn(s, taken, retried, id, 0.0, delay);
    LeadsWaits(retried, t, id);
    WaitsOn(s, retried, t, id, 0.0 + delay, 0.0);
  }

  lemma NoMoreWait(s: State, id: DocId, delay: real)
    ensures WaitsLong(s, s, id, Longest(0, delay))
  {
    Stay(s);
    LeadsWaits(s, s, id);
  }

  lemma OneMoreWait(s: State, u: State, t: State, id: DocId, n: nat, delay: real)
    requires WaitsLong(s, u, id, delay) && WaitsLong(u, t, id, Longest(n, delay))
    ensures WaitsLong(s, t, id, Longest(n + 1, delay))
  {
    WaitsOn(s, u, t, id, delay, Longest(n, delay));
  }

  lemma {:induction false} AllRetry(s: State, id: DocId, m: nat, n: nat, crew: Crew, from: nat, delay: real) returns (t: State)
    requires Coherent(s) && Offered(s, id, m) && from <= |crew| && OverstayFrom(s, id, n, crew, from) && MayRetry(s.cfg, n, delay)
    ensures WaitsLong(s, t, id, Longest(|crew| - from, delay))
    decreases |crew| - from, 0
  {
    if from == |crew| {
      NoMoreWait(s, id, delay);
      t := s;
    } else {
      var u := OneRetries(s, id, m, n, crew, from, delay);
      t := RestRetry(s, u, id, m + 1, n, crew, from + 1, delay);
    }
  }

  lemma {:induction false} RestRetry(s: State, u: State, id: DocId, m: nat, n: nat, crew: Crew, from: nat, delay: real) returns (t: State)
    requires WaitsLong(s, u, id, delay) && Coherent(u) && Offered(u, id, m) && from <= |crew|
    requires OverstayFrom(u, id, n, crew, from) && MayRetry(u.cfg, n, delay)
    ensures WaitsLong(s, t, id, Longest(|crew| - from + 1, delay))
    decreases |crew| - from, 1
  {
    t := AllRetry(u, id, m, n, crew, from, delay);
    OneMoreWait(s, u, t, id, |crew| - from, delay);
  }

  // ---------------------------------------------------------------------
  // The bound is reached
  // ---------------------------------------------------------------------

  /** Each of `n` slow workers has claimed the document, overstayed its lease,
      and read the record only after the last of these claims. */
  lemma AllReadTheLast(s: State, n: nat) returns (t: State, id: DocId, crew: Crew)
    requires Init(s) && n >= 1
    ensures Leads(s, t) && Coherent(t) && Offered(t, id, n) && |crew| == n && OverstayFrom(t, id, n, crew, 0) && t.cfg == s.cfg
  {
    var stalled;
    stalled, id, crew := ManyStall(s, n);
    var held := AllRead(s, stalled, id, n, crew, 0);
    InitIsCoherent(s);
    StillCoherent(s, held);
    t := IsReset(held, id, n);
    LeadsOn(s, held, t);
    forall k | 0 <= k < |crew| ensures Overstays(t, id, n, crew[k].0, crew[k].1) {
      assert Overstays(held, id, n, crew[k].0, crew[k].1);
    }
  }

  /** The bound on the total wait is reached, whatever the settings: in some
      run without any fault each of the `max - 1` retries waits for the longest
      delay there is. */
  lemma LongestWaitIsReached(s: State) returns (acts: seq<Action>, id: DocId)
    requires Init(s)
    ensures Legal(s, acts) && AllBenign(acts)
    ensures DelaySum(s, acts, id) >= Longest(s.cfg.maxAttempts - 1, LongestDelay(s.cfg))
  {
    if s.cfg.maxAttempts == 1 {
      acts, id := [], 0;
    } else {
      var (n, delay) := (s.cfg.maxAttempts - 1, LongestDelay(s.cfg));
      var t;
      t, id := AllWaitLongest(s, n, delay);
      acts :| Legal(s, acts) && AllBenign(acts) && Exec(s, acts) == t && DelaySum(s, acts, id) >= 0.0 + Longest(n, delay);
    }
  }

  lemma AllWaitLongest(s: State, n: nat, delay: real) returns (t: State, id: DocId)
    requires Init(s) && n >= 1 && MayRetry(s.cfg, n, delay)
    ensures WaitsLong(s, t, id, 0.0 + Longest(n, delay))
  {
    var ready, crew;
    ready, id, crew := AllReadTheLast(s, n);
    t := AllWait(s, ready, id, n, crew, delay);
  }

  lemma AllWait(s: State, ready: State, id: DocId, n: nat, crew: Crew, delay: real) returns (t: State)
    requires Leads(s, ready) && Coherent(ready) && Offered(ready, id, n) && |crew| == n && OverstayFrom(ready, id, n, crew, 0)
    requires MayRetry(ready.cfg, n, delay)
    ensures WaitsLong(s, t, id, 0.0 + Longest(n, delay))
  {
    t := AllRetry(ready, id, n, n, crew, 0, delay);
    WaitsAfter(s, ready, t, id, Longest(n, delay));
  }

  lemma WaitsAfter(s: State, t: State, u: State, id: DocId, d: real)
    requires Leads(s, t) && WaitsLong(t, u, id, d)
    ensures WaitsLong(s, u, id, 0.0 + d)
  {
    LeadsWaits(s, t, id);
    WaitsOn(s, t, u, id, 0.0, d);
  }

  // ---------------------------------------------------------------------
  // When the ceilings bound it nevertheless
  // ---------------------------------------------------------------------

  /** Only one retry, no backoff at all, or the cap reached at once. */
  predicate FlatCeilings(cfg: Settings) {
    cfg.maxAttempts <= 2 || cfg.retryBase == 0.0 || cfg.retryMax <= cfg.retryBase
  }

  lemma {:induction false} SumOfFlat(n: nat, base: real, maximum: real)
    requires n >= 1 && 0.0 <= base && 0.0 <= maximum && (n == 1 || base == 0.0 || maximum <= base)
    ensures CeilingSum(n, base, maximum) == Longest(n, BackoffCeiling(n, base, maximum))
  {
    if n == 1 {
      assert CeilingSum(1, base, maximum) == CeilingSum(0, base, maximum) + BackoffCeiling(1, base, maximum);
      assert Longest(1, BackoffCeiling(1, base, maximum)) == Longest(0, BackoffCeiling(1, base, maximum)) + BackoffCeiling(1, base, maximum);
    } else {
      SumOfFlat(n - 1, base, maximum);
      FlatCeiling(n, base, maximum);
      FlatCeiling(n - 1, base, maximum);
    }
  }

  lemma FlatCeiling(n: nat, base: real, maximum: real)
    requires n >= 1 && 0.0 <= base && 0.0 <= maximum && (base == 0.0 || maximum <= base)
    ensures BackoffCeiling(n, base, maximum) == if base == 0.0 then 0.0 else maximum
  {
    var p := Pow2(n - 1) as real;
    if base > 0.0 { assert p >= 1.0 && base * (p - 1.0) >= 0.0 && base * p == base + base * (p - 1.0); }
  }

  /** The sum of the ceilings is less than as many of the last, by what the
      first is short of it. */
  lemma {:induction false} SumFallsShort(n: nat, base: real, maximum: real, last: real)
    requires n >= 1 && 0.0 <= base && 0.0 <= maximum && BackoffCeiling(n, base, maximum) <= last
    ensures CeilingSum(n, base, maximum) + (last - BackoffCeiling(1, base, maximum)) <= Longest(n, last)
  {
    if n == 1 {
      assert CeilingSum(1, base, maximum) == CeilingSum(0, base, maximum) + BackoffCeiling(1, base, maximum);
      assert Longest(1, last) == Longest(0, last) + last;
    } else {
      CeilingGrows(n - 1, n, base, maximum);
      SumFallsShort(n - 1, base, maximum, last);
    }
  }

  /** The longest total wait is the sum of the ceilings exactly if these are
      all the same, and longer otherwise. */
  lemma LongestAgainstCeilings(cfg: Settings)
    requires cfg.Valid()
    ensures var (n, base, maximum) := (cfg.maxAttempts - 1, cfg.retryBase, cfg.retryMax);
            Longest(n, LongestDelay(cfg)) <= CeilingSum(n, base, maximum) <==> FlatCeilings(cfg)
  {
    var (n, base, maximum) := (cfg.maxAttempts - 1, cfg.retryBase, cfg.retryMax);
    if n >= 1 {
      if FlatCeilings(cfg) {
        SumOfFlat(n, base, maximum);
      } else {
        SumFallsShort(n, base, maximum, LongestDelay(cfg));
        CeilingGrows(2, n, base, maximum);
        assert Pow2(0) == 1 && Pow2(1) == 2;
      }
    }
  }
}
