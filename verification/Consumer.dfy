/** The worker consume loop: what it reads, what it claims, and the semaphore
    that keeps it from claiming more than it can run. */
module Consumer {
  import opened Types
  import opened Repository
  import opened Queue
  import opened Pipeline

  const AUTOCLAIM_EVERY: nat := 10

  datatype ClaimedJob = ClaimedJob(entry: StreamEntry, document: Doc)

  // ---------------------------------------------------------------------
  // Claiming a batch
  // ---------------------------------------------------------------------

  datatype Claims = Claims(docs: Docs, jobs: seq<ClaimedJob>, lost: set<nat>)

  /** The entries of a batch tried one after the other. */
  function ClaimAll(docs: Docs, entries: seq<StreamEntry>, worker: WorkerId, lease: real, now: Time): Claims
    decreases |entries|
  {
    if entries == [] then Claims(docs, [], {})
    else
      var before := ClaimAll(docs, entries[..|entries| - 1], worker, lease, now);
      var e := entries[|entries| - 1];
      if IsQueued(before.docs, e.documentId) then
        var d := ClaimDoc(before.docs[e.documentId], worker, lease, now);
        Claims(before.docs[e.documentId := d], before.jobs + [ClaimedJob(e, d)], before.lost)
      else before.(lost := before.lost + {e.entryId})
  }

  ghost predicate Names(entries: seq<StreamEntry>, id: DocId) {
    exists i :: 0 <= i < |entries| && entries[i].documentId == id
  }

  ghost predicate Yields(jobs: seq<ClaimedJob>, id: DocId) {
    exists i :: 0 <= i < |jobs| && jobs[i].entry.documentId == id
  }

  /** However often a batch names a document, it is yielded once, and exactly
      if it was queued; its record is then claimed by one attempt. All other
      records stay as they were. */
  lemma {:induction false} ClaimedOnce(docs: Docs, entries: seq<StreamEntry>, worker: WorkerId, lease: real, now: Time)
    ensures var c := ClaimAll(docs, entries, worker, lease, now);
            && c.docs.Keys == docs.Keys
            && (forall id :: Yields(c.jobs, id) <==> IsQueued(docs, id) && Names(entries, id))
            && (forall i, j :: 0 <= i < j < |c.jobs| ==> c.jobs[i].entry.documentId != c.jobs[j].entry.documentId)
            && (forall id :: id in docs ==>
                  c.docs[id] == if Yields(c.jobs, id) then ClaimDoc(docs[id], worker, lease, now) else docs[id])
            && |c.jobs| <= |entries|
    decreases |entries|
  {
    if entries != [] {
      var init := entries[..|entries| - 1];
      var e := entries[|entries| - 1];
      ClaimedOnce(docs, init, worker, lease, now);
      var before, after := ClaimAll(docs, init, worker, lease, now), ClaimAll(docs, entries, worker, lease, now);
      forall id ensures Names(entries, id) <==> Names(init, id) || id == e.documentId {
        assert entries == init + [e];
        if Names(init, id) {
          var i :| 0 <= i < |init| && init[i].documentId == id;
          assert entries[i].documentId == id;
        }
        if id == e.documentId { assert entries[|entries| - 1].documentId == id; }
      }
      if IsQueued(before.docs, e.documentId) {
        var jobs := after.jobs;
        assert jobs[|jobs| - 1].entry == e;
        forall id ensures Yields(jobs, id) <==> Yields(before.jobs, id) || id == e.documentId {
          if Yields(before.jobs, id) {
            var i :| 0 <= i < |before.jobs| && before.jobs[i].entry.documentId == id;
            assert jobs[i].entry.documentId == id;
          }
        }
        assert !Yields(before.jobs, e.documentId);
        forall i | 0 <= i < |before.jobs| ensures before.jobs[i].entry.documentId != e.documentId {
          assert Yields(before.jobs, before.jobs[i].entry.documentId);
        }
      }
    }
  }

  // ---------------------------------------------------------------------
  // The loop
  // ---------------------------------------------------------------------

  class DocumentConsumer {
    const workerId: WorkerId
    const stream: DocumentStream
    const repo: DocumentRepository
    const pipeline: ProcessingPipeline
    const concurrency: nat
    const lease: real
    var cycles: nat
    var permits: nat
    /** The tasks of the group. */
    var running: seq<ClaimedJob>

    ghost predicate Valid()
      reads this, stream
    {
      stream.Valid() && pipeline.repo == repo && concurrency >= 1 && permits + |running| == concurrency
    }

    constructor (workerId: WorkerId, stream: DocumentStream, repo: DocumentRepository, pipeline: ProcessingPipeline,
                 concurrency: nat, lease: real)
      requires stream.Valid() && pipeline.repo == repo && concurrency >= 1
      ensures Valid() && cycles == 0 && running == []
      ensures this.workerId == workerId && this.stream == stream && this.repo == repo && this.pipeline == pipeline
      ensures this.concurrency == concurrency && this.lease == lease
    {
      this.workerId, this.stream, this.repo, this.pipeline := workerId, stream, repo, pipeline;
      this.concurrency, this.lease := concurrency, lease;
      cycles, permits, running := 0, concurrency, [];
    }

    /** Every tenth cycle abandoned entries come first; if there are none, or
        in any other cycle, the next undelivered ones. */
    method NextEntries(now: Time) returns (entries: seq<StreamEntry>)
      requires Valid()
      modifies this`cycles, stream`delivered, stream`pel
      ensures Valid() && cycles == old(cycles) + 1 && |entries| <= concurrency
      ensures var idle := old(IdleEntries(stream.pel, stream.log, lease, now));
              if cycles % AUTOCLAIM_EVERY == 0 && idle != {} then
                IsCursor(EntryIds(entries), idle, concurrency) && stream.delivered == old(stream.delivered)
              else
                old(stream.delivered) <= stream.delivered <= |stream.log|
                && entries == WellFormed(stream.log, old(stream.delivered), stream.delivered)
                && stream.delivered == if |stream.log| - old(stream.delivered) < concurrency then |stream.log|
                                       else old(stream.delivered) + concurrency
    {
      cycles := cycles + 1;
      if cycles % AUTOCLAIM_EVERY == 0 {
        entries := stream.Autoclaim(workerId, lease, concurrency, now);
        if entries != [] {
          return;
        }
        assert EntryIds(entries) == [];
        assert forall e :: e in stream.pel <==> e in old(stream.pel);
      }
      entries := stream.Read(workerId, concurrency, now);
      WellFormedLength(stream.log, old(stream.delivered), stream.delivered);
    }

    /** The generator from one `yield` to the next: the entries from number
        `i` on are tried until a claim is won, and the ones lost are
        acknowledged. What other tasks did since the last `yield` is in the
        state it starts from. */
    method NextClaimed(entries: seq<StreamEntry>, i: nat, now: Time) returns (job: Option<ClaimedJob>, next: nat)
      requires Valid() && i <= |entries|
      modifies repo, stream`pel
      ensures Valid() && i <= next <= |entries|
      ensures var tried := if job.Some? then next - 1 else next;
              && i <= tried && (forall k :: i <= k < tried ==> !IsQueued(old(repo.docs), entries[k].documentId))
              && stream.pel == old(stream.pel) - EntrySet(entries[i..tried])
      ensures match job
              case None => next == |entries| && repo.docs == old(repo.docs)
              case Some(won) =>
                var id := won.entry.documentId;
                && won.entry == entries[next - 1] && IsQueued(old(repo.docs), id)
                && won.document == ClaimDoc(old(repo.docs)[id], workerId, lease, now)
                && repo.docs == old(repo.docs)[id := won.document]
    {
      next, job := i, None;
      while next < |entries| && job == None
        invariant i <= next <= |entries| && Valid()
        invariant job == None ==> repo.docs == old(repo.docs) && stream.pel == old(stream.pel) - EntrySet(entries[i..next])
        invariant forall k :: i <= k < (if job == None then next else next - 1) ==> !IsQueued(old(repo.docs), entries[k].documentId)
        invariant job.Some? ==>
                    && i < next && job.value.entry == entries[next - 1]
                    && stream.pel == old(stream.pel) - EntrySet(entries[i..next - 1])
                    && IsQueued(old(repo.docs), entries[next - 1].documentId)
                    && job.value.document == ClaimDoc(old(repo.docs)[entries[next - 1].documentId], workerId, lease, now)
                    && repo.docs == old(repo.docs)[entries[next - 1].documentId := job.value.document]
        decreases |entries| - next
      {
        var e := entries[next];
        assert entries[i..next + 1] == entries[i..next] + [e];
        var document := repo.Claim(e.documentId, workerId, lease, now);
        if document == None {
          stream.Ack(e.entryId);
        } else {
          job := Some(ClaimedJob(e, document.value));
        }
        next := next + 1;
      }
    }

    /** `_process`: run the pipeline, then acknowledge and free the permit,
        also when the pipeline raised a typed error, which leaves the document
        processing (`raised`). */
    method Process(i: nat, raised: bool, outcome: Outcome, jitter: real, now: Time, up: Health) returns (job: ClaimedJob)
      requires Valid() && i < |running| && pipeline.Fits(running[i].document, jitter)
      modifies this`permits, this`running, stream`pel, repo, pipeline.cache, pipeline.limiter, pipeline.delay
      ensures Valid() && permits == old(permits) + 1 && job == old(running)[i]
      ensures multiset(running) + multiset{job} == multiset(old(running))
      ensures stream.pel == old(stream.pel) - {job.entry.entryId}
      ensures if raised then
                repo.docs == old(repo.docs)
                && pipeline.cache.entries == old(pipeline.cache.entries) && pipeline.cache.guards == old(pipeline.cache.guards)
                && pipeline.limiter.redis == old(pipeline.limiter.redis) && pipeline.delay.zset == old(pipeline.delay.zset)
              else pipeline.Settled(job.entry.documentId, job.document, outcome, jitter, now, up)
    {
      if !raised {
        pipeline.Run(running[i].entry.documentId, running[i].document, outcome, jitter, now, up);
      }
      job := Finish(i);
    }

    /** The `finally` block: the ack and the permit. */
    method Finish(i: nat) returns (job: ClaimedJob)
      requires Valid() && i < |running|
      modifies this`permits, this`running, stream`pel
      ensures Valid() && permits == old(permits) + 1 && job == old(running)[i]
      ensures multiset(running) + multiset{job} == multiset(old(running))
      ensures stream.pel == old(stream.pel) - {job.entry.entryId}
    {
      job := running[i];
      stream.Ack(job.entry.entryId);
      assert running == running[..i] + [job] + running[i + 1..];
      running := running[..i] + running[i + 1..];
      permits := permits + 1;
    }

    /** `semaphore.acquire`: while no permit is free, wait for task `i`. */
    method Acquire(i: nat) returns (finished: seq<ClaimedJob>)
      requires Valid()
      modifies this`permits, this`running, stream`pel
      ensures Valid() && permits > 0
      ensures |finished| == (if old(permits) > 0 then 0 else 1) && |running| + |finished| == |old(running)|
      ensures multiset(running) + multiset(finished) == multiset(old(running))
      ensures stream.pel == old(stream.pel) - Entries(finished)
    {
      finished := [];
      if permits == 0 {
        var job := Finish(i % |running|);
        finished := [job];
      }
    }

    /** A permit first, then a task for the job. */
    method Start(job: ClaimedJob, i: nat) returns (finished: seq<ClaimedJob>)
      requires Valid()
      modifies this`permits, this`running, stream`pel
      ensures Valid() && |running| + |finished| == |old(running)| + 1
      ensures |finished| == if |old(running)| < concurrency then 0 else 1
      ensures multiset(finished) + multiset(running) == multiset(old(running)) + multiset{job}
      ensures stream.pel == old(stream.pel) - Entries(finished)
    {
      finished := Acquire(i);
      permits, running := permits - 1, running + [job];
    }

    /** `run` over one batch: a permit is taken before its task is created, so
        while none is free the loop waits for some task to finish before it
        asks for the next job. `pick` says which one does. Never more than
        `concurrency` run, nothing is waited for while there is room, and every
        job yielded is running or finished, once. */
    method Run(entries: seq<StreamEntry>, pick: nat -> nat, now: Time) returns (finished: seq<ClaimedJob>)
      requires Valid()
      modifies this`permits, this`running, repo, stream`pel
      ensures Valid() && |running| <= concurrency
      ensures Consumed(old(repo.docs), old(stream.pel), old(running), ClaimAll(old(repo.docs), entries, workerId, lease, now),
                       repo.docs, stream.pel, running, finished, concurrency)
    {
      finished := [];
      var i := 0;
      while i < |entries|
        invariant 0 <= i <= |entries| && Valid()
        invariant Consumed(old(repo.docs), old(stream.pel), old(running), ClaimAll(old(repo.docs), entries[..i], workerId, lease, now),
                           repo.docs, stream.pel, running, finished, concurrency)
        decreases |entries| - i
      {
        ghost var c := ClaimAll(old(repo.docs), entries[..i], workerId, lease, now);
        ghost var (were, pel) := (running, stream.pel);
        var job, next := NextClaimed(entries, i, now);
        ghost var tried := if job.Some? then next - 1 else next;
        ClaimsUpTo(old(repo.docs), entries, i, tried, workerId, lease, now);
        LostOnTheWay(old(repo.docs), old(stream.pel), old(running), c, c.docs, pel, were, finished, EntrySet(entries[i..tried]), concurrency);
        if job.Some? {
          c := ClaimAll(old(repo.docs), entries[..tried], workerId, lease, now);
          pel := stream.pel;
          WonNext(old(repo.docs), entries, next, workerId, lease, now);
          var done := Start(job.value, pick(i));
          OneMore(old(repo.docs), old(stream.pel), old(running), c, pel, were, finished, concurrency,
                  repo.docs, job.value, running, done);
          finished := finished + done;
        }
        i := next;
      }
      assert entries[..i] == entries;
    }
  }

  /** From `docs`, `pel` and `running` the claims `c` have been made; every
      task that was running or yielded is running or finished, and as few have
      been waited for as there was room. */
  ghost predicate Consumed(docs: Docs, pel: map<nat, Pending>, running: seq<ClaimedJob>, c: Claims,
                           docs': Docs, pel': map<nat, Pending>, running': seq<ClaimedJob>, finished: seq<ClaimedJob>,
                           concurrency: nat) {
    && docs' == c.docs && pel' == pel - c.lost - Entries(finished)
    && multiset(finished) + multiset(running') == multiset(running) + multiset(c.jobs)
    && |finished| + |running'| == |running| + |c.jobs|
    && |finished| == Excess(|running| + |c.jobs|, concurrency)
  }

  lemma LostOnTheWay(docs: Docs, pel: map<nat, Pending>, running: seq<ClaimedJob>, c: Claims,
                     docs': Docs, pel': map<nat, Pending>, running': seq<ClaimedJob>, finished: seq<ClaimedJob>,
                     lost: set<nat>, concurrency: nat)
    requires Consumed(docs, pel, running, c, docs', pel', running', finished, concurrency)
    ensures Consumed(docs, pel, running, c.(lost := c.lost + lost), docs', pel' - lost, running', finished, concurrency)
  {}

  lemma WonNext(docs: Docs, entries: seq<StreamEntry>, next: nat, worker: WorkerId, lease: real, now: Time)
    requires 0 < next <= |entries|
    requires IsQueued(ClaimAll(docs, entries[..next - 1], worker, lease, now).docs, entries[next - 1].documentId)
    ensures var (c, e) := (ClaimAll(docs, entries[..next - 1], worker, lease, now), entries[next - 1]);
            var d := ClaimDoc(c.docs[e.documentId], worker, lease, now);
            ClaimAll(docs, entries[..next], worker, lease, now)
            == Claims(c.docs[e.documentId := d], c.jobs + [ClaimedJob(e, d)], c.lost)
  {
    assert entries[..next][..next - 1] == entries[..next - 1];
  }

  /** How many tasks have to end before so many fit. */
  function Excess(tasks: nat, room: nat): nat {
    if tasks <= room then 0 else tasks - room
  }

  /** Entries whose documents are not queued are lost one after the other. */
  lemma {:induction false} ClaimsUpTo(docs: Docs, entries: seq<StreamEntry>, i: nat, tried: nat, worker: WorkerId, lease: real, now: Time)
    requires i <= tried <= |entries|
    requires var before := ClaimAll(docs, entries[..i], worker, lease, now).docs;
             forall k :: i <= k < tried ==> !IsQueued(before, entries[k].documentId)
    ensures var before := ClaimAll(docs, entries[..i], worker, lease, now);
            ClaimAll(docs, entries[..tried], worker, lease, now) == before.(lost := before.lost + EntrySet(entries[i..tried]))
    decreases tried - i
  {
    var before := ClaimAll(docs, entries[..i], worker, lease, now);
    if i == tried {
      assert before.lost + EntrySet(entries[i..tried]) == before.lost;
    } else {
      ClaimsUpTo(docs, entries, i, tried - 1, worker, lease, now);
      LostNext(docs, entries, tried, worker, lease, now);
      assert entries[i..tried] == entries[i..tried - 1] + [entries[tried - 1]];
      assert EntrySet(entries[i..tried]) == EntrySet(entries[i..tried - 1]) + {entries[tried - 1].entryId};
    }
  }

  lemma LostNext(docs: Docs, entries: seq<StreamEntry>, next: nat, worker: WorkerId, lease: real, now: Time)
    requires 0 < next <= |entries|
    requires !IsQueued(ClaimAll(docs, entries[..next - 1], worker, lease, now).docs, entries[next - 1].documentId)
    ensures var c := ClaimAll(docs, entries[..next - 1], worker, lease, now);
            ClaimAll(docs, entries[..next], worker, lease, now) == c.(lost := c.lost + {entries[next - 1].entryId})
  {
    assert entries[..next][..next - 1] == entries[..next - 1];
  }

  ghost function EntrySet(entries: seq<StreamEntry>): set<nat> {
    set e | e in entries :: e.entryId
  }

  /** The stream entries of some jobs. */
  ghost function Entries(jobs: seq<ClaimedJob>): set<nat> {
    set job | job in jobs :: job.entry.entryId
  }

  lemma EntriesAppend(a: seq<ClaimedJob>, b: seq<ClaimedJob>)
    ensures Entries(a + b) == Entries(a) + Entries(b)
  {}

  /** One job more is accounted for, as running or finished. */
  lemma OneMore(docs: Docs, pel: map<nat, Pending>, running: seq<ClaimedJob>, c: Claims,
                pel': map<nat, Pending>, were: seq<ClaimedJob>, finished: seq<ClaimedJob>, concurrency: nat,
                docs': Docs, job: ClaimedJob, are: seq<ClaimedJob>, done: seq<ClaimedJob>)
    requires Consumed(docs, pel, running, c, c.docs, pel', were, finished, concurrency)
    requires |are| + |done| == |were| + 1 && |done| == (if |were| < concurrency then 0 else 1) && |were| <= concurrency
    requires multiset(done) + multiset(are) == multiset(were) + multiset{job}
    ensures Consumed(docs, pel, running, Claims(docs', c.jobs + [job], c.lost), docs', pel' - Entries(done), are, finished + done, concurrency)
  {
    EntriesAppend(finished, done);
    assert multiset(finished + done) == multiset(finished) + multiset(done);
    assert multiset(c.jobs + [job]) == multiset(c.jobs) + multiset{job};
    Shift(multiset(finished), multiset(done), multiset(are), multiset(were), multiset{job}, multiset(running), multiset(c.jobs));
  }

  lemma Shift<T>(f: multiset<T>, d: multiset<T>, a: multiset<T>, w: multiset<T>, x: multiset<T>, b: multiset<T>, p: multiset<T>)
    requires f + w == b + p && d + a == w + x
    ensures (f + d) + a == b + (p + x)
  {
    assert (f + d) + a == f + (d + a);
    assert f + (w + x) == (f + w) + x;
    assert (b + p) + x == b + (p + x);
  }

  lemma {:induction false} WellFormedLength(log: seq<Option<DocId>>, from: nat, end: nat)
    requires from <= end <= |log|
    ensures |WellFormed(log, from, end)| <= end - from
    decreases end - from
  {
    if from < end {
      WellFormedLength(log, from + 1, end);
    }
  }
}
