/** ... and whatever can bring a waiting document to a claim before it is due
    does so in some run in which nothing fails. */
module EarlyRuns {
  import opened Types
  import opened Repository
  import opened Queue
  import opened Protocol
  import opened References
  import opened ReferencesKept
  import opened Settlement
  import opened Backpressure
  import opened Early
  import opened Recovery

  /** Before `due` the document is no longer queued. */
  ghost predicate Taken(s: State, t: State, id: DocId, due: Time) {
    Leads(s, t) && t.now < due && !IsQueued(t.docs, id)
  }

  // ---------------------------------------------------------------------
  // From the stream, a submission or a sweep
  // ---------------------------------------------------------------------

  lemma TakenFromLog(s: State, t: State, e: EntryId, id: DocId, due: Time) returns (u: State)
    requires Coherent(s) && Leads(s, t) && t.now < due && IsQueued(t.docs, id)
    requires IsFor(t.redis, e, id) && t.redis.delivered <= e
    ensures Taken(s, u, id, due)
  {
    u := ReachEntry(s, t, e, id);
  }

  lemma TakenFromSubmit(s: State, sid: SubmitId, id: DocId, due: Time) returns (u: State)
    requires Coherent(s) && Waiting(s, id, due) && Brings(s, OwedBySubmit(sid), id, due)
    ensures Taken(s, u, id, due)
  {
    Stay(s);
    Step(s, s, OfEnqueue(sid, DoPublishNew(Answered)));
    u := TakenFromLog(s, PublishNewStep(s, sid, Answered), |s.redis.log|, id, due);
  }

  /** A sweep that is going to publish the document does. */
  lemma TakenFromList(s: State, t: State, x: SweepId, ids: seq<DocId>, stage: Stage, id: DocId, due: Time) returns (u: State)
    requires Coherent(s) && Leads(s, t) && t.now < due && IsQueued(t.docs, id)
    requires Sweeping(t, x, PublishIds(ids, stage)) && id in ids
    ensures Taken(s, u, id, due)
  {
    StillCoherent(s, t);
    var i :| 0 <= i < |ids| && ids[i] == id;
    var published := PublishAll(s, t, x, ids, stage);
    u := TakenFromLog(s, published, |t.redis.log| + i, id, due);
  }

  lemma TakenFromSweep(s: State, x: SweepId, id: DocId, due: Time) returns (u: State)
    requires Coherent(s) && Waiting(s, id, due) && Brings(s, OwedBySweep(x), id, due)
    ensures Taken(s, u, id, due)
  {
    Stay(s);
    match s.actors.sweeps[x].pc
    case ResetRows(rows, foundAt, done) =>
      var t, ids := FinishRows(s, s, x, rows, foundAt, done);
      u := TakenFromList(s, t, x, ids, Reclaimed, id, due);
    case PublishIds(ids, stage) => u := TakenFromList(s, s, x, ids, stage, id, due);
  }

  // ---------------------------------------------------------------------
  // From the delay set
  // ---------------------------------------------------------------------

  ghost function NotAbove(zset: map<DocId, Time>, score: Time): set<DocId> {
    set d | d in zset && zset[d] <= score
  }

  /** A time after the member's score and before `due`. */
  lemma TimeInBetween(now: Time, score: Time, due: Time) returns (dt: real)
    requires now < due && score < due
    ensures dt > 0.0 && score < now + dt < due
  {
    dt := ((if now < score then score else now) + due) / 2.0 - now;
  }

  /** A sweep pops the lowest due members. */
  lemma PopsSome(s: State, t: State, x: SweepId, id: DocId) returns (u: State, rows: seq<DocId>)
    requires Leads(s, t) && Sweeping(t, x, PopDelayed) && id in t.redis.zset && t.redis.zset[id] <= t.now
    ensures Leads(s, u) && Sweeping(u, x, PublishIds(rows, Promoted)) && u.docs == t.docs && u.now == t.now && u.cfg == t.cfg
    ensures u.redis == t.redis.(zset := t.redis.zset - RowSet(rows))
    ensures id !in rows ==> NotAbove(u.redis.zset, t.redis.zset[id]) < NotAbove(t.redis.zset, t.redis.zset[id])
  {
    rows := SomeLowest(t.redis.zset, DueIds(t.redis.zset, t.now), SCAN_LIMIT);
    SweepOn(s, t, x, DoPopDelayed(rows, Answered));
    u := PopDelayedStep(t, x, rows, Answered);
    assert id in DueIds(t.redis.zset, t.now);
    if id !in rows {
      assert rows[0] in rows && rows[0] in DueIds(t.redis.zset, t.now);
      assert rows[0] in NotAbove(t.redis.zset, t.redis.zset[id]);
    }
  }

  lemma StillTaken(s: State, t: State, u: State, id: DocId, due: Time)
    requires Leads(s, t) && Taken(t, u, id, due)
    ensures Taken(s, u, id, due)
  {
    LeadsOn(s, t, u);
  }

  lemma ReachesPop(s: State, id: DocId, due: Time) returns (t: State, x: SweepId)
    requires Coherent(s) && Waiting(s, id, due) && Brings(s, InDelaySet, id, due)
    ensures Leads(s, t) && Sweeping(t, x, PopDelayed) && Waiting(t, id, due)
    ensures t.redis.zset == s.redis.zset && t.redis.zset[id] <= t.now
  {
    var dt := TimeInBetween(s.now, s.redis.zset[id], due);
    t, x := SweepToDelayed(s, dt);
  }

  /** A sweep pops it, or others before it. */
  lemma PopsOnce(s: State, id: DocId, due: Time) returns (t: State, x: SweepId, rows: seq<DocId>)
    requires Coherent(s) && Waiting(s, id, due) && Brings(s, InDelaySet, id, due)
    ensures Leads(s, t) && Coherent(t) && Waiting(t, id, due) && Sweeping(t, x, PublishIds(rows, Promoted))
    ensures id !in rows ==> Brings(t, InDelaySet, id, due)
                            && NotAbove(t.redis.zset, t.redis.zset[id]) < NotAbove(s.redis.zset, s.redis.zset[id])
  {
    var ready;
    ready, x := ReachesPop(s, id, due);
    t, rows := PopsSome(s, ready, x, id);
    StillCoherent(s, t);
  }

  /** Each sweep pops up to a hundred of the lowest members; after enough
      sweeps it is this one's turn. */
  lemma {:induction false} TakenFromDelay(s: State, id: DocId, due: Time) returns (u: State)
    requires Coherent(s) && Waiting(s, id, due) && Brings(s, InDelaySet, id, due)
    ensures Taken(s, u, id, due)
    decreases NotAbove(s.redis.zset, s.redis.zset[id])
  {
    var popped, x, rows := PopsOnce(s, id, due);
    if id in rows {
      u := TakenFromList(s, popped, x, rows, Promoted, id, due);
    } else {
      u := TakenFromDelay(popped, id, due);
      StillTaken(s, popped, u, id, due);
    }
  }

  lemma TakenFromJob(s: State, j: JobId, id: DocId, due: Time) returns (u: State)
    requires Coherent(s) && Waiting(s, id, due) && Brings(s, OwedByJob(j), id, due)
    ensures Taken(s, u, id, due)
  {
    Stay(s);
    SettleOn(s, s, j, DoEnterDelay(Answered));
    var t := EnterDelayStep(s, j, Answered);
    StillCoherent(s, t);
    u := TakenFromDelay(t, id, due);
    StillTaken(s, t, u, id, due);
  }

  // ---------------------------------------------------------------------
  // From the pending list
  // ---------------------------------------------------------------------

  /** A fresh worker that has gone round `cycles` times, while the document is
      still queued and its entry pending. */
  ghost predicate Rounds(s: State, w: WorkerId, cycles: nat, e: EntryId, id: DocId, due: Time) {
    && Pulling(s, w, []) && s.actors.workers[w].cycles == cycles
    && IsQueued(s.docs, id) && IsFor(s.redis, e, id) && e in s.redis.pel && s.now < due
    && s.redis.pel[e].since + s.cfg.lease <= s.now
  }

  lemma ReadsRound(s: State, t: State, w: WorkerId, cycles: nat, e: EntryId, id: DocId, due: Time) returns (u: State)
    requires Leads(s, t) && Coherent(t) && Rounds(t, w, cycles, e, id, due) && cycles + 1 < AUTOCLAIM_EVERY
    ensures Leads(s, u) && u.docs == t.docs && u.now == t.now && u.cfg == t.cfg && u.redis.log == t.redis.log
    ensures u.redis.delivered <= |u.redis.log| && t.redis.delivered <= u.redis.delivered
    ensures Pulling(u, w, Span(t.redis.delivered, u.redis.delivered)) && u.actors.workers[w].cycles == cycles + 1
    ensures e in u.redis.pel && u.redis.pel[e].since == t.redis.pel[e].since && e < t.redis.delivered
  {
    ConsumeOn(s, t, w, DoPoll);
    u := PollStep(t, w);
    ConsumeOn(s, u, w, DoReadStream(Answered));
    u := ReadStreamStep(u, w, Answered);
  }

  /** One cycle: what is undelivered is read and worked off. */
  lemma GoesRound(s: State, t: State, w: WorkerId, cycles: nat, e: EntryId, id: DocId, due: Time) returns (u: State)
    requires Leads(s, t) && Coherent(t) && Rounds(t, w, cycles, e, id, due) && cycles + 1 < AUTOCLAIM_EVERY
    ensures Taken(s, u, id, due) || (Leads(s, u) && Rounds(u, w, cycles + 1, e, id, due))
  {
    var read := ReadsRound(s, t, w, cycles, e, id, due);
    var batch := Span(t.redis.delivered, read.redis.delivered);
    u := DrainBatch(s, read, w, batch, id);
    assert e !in batch;
  }

  lemma Recovers(s: State, t: State, w: WorkerId, e: EntryId, id: DocId, due: Time) returns (u: State)
    requires Leads(s, t) && Coherent(t) && Rounds(t, w, AUTOCLAIM_EVERY - 1, e, id, due)
    ensures Taken(s, u, id, due)
  {
    ConsumeOn(s, t, w, DoPoll);
    var polled := PollStep(t, w);
    assert IsIdle(polled, e);
    ConsumeOn(s, polled, w, DoRecover([e], Answered));
    var recovered := RecoverStep(polled, w, [e], Answered);
    u := TryNext(s, recovered, w, [e]);
  }

  lemma {:induction false} RoundByRound(s: State, t: State, w: WorkerId, cycles: nat, e: EntryId, id: DocId, due: Time) returns (u: State)
    requires Coherent(s) && Leads(s, t) && Rounds(t, w, cycles, e, id, due) && cycles < AUTOCLAIM_EVERY
    ensures Taken(s, u, id, due)
    decreases AUTOCLAIM_EVERY - cycles
  {
    StillCoherent(s, t);
    if cycles + 1 == AUTOCLAIM_EVERY {
      u := Recovers(s, t, w, e, id, due);
    } else {
      u := GoesRound(s, t, w, cycles, e, id, due);
      if !Taken(s, u, id, due) { u := RoundByRound(s, u, w, cycles + 1, e, id, due); }
    }
  }

  lemma TakenFromPending(s: State, e: EntryId, id: DocId, due: Time) returns (u: State)
    requires Coherent(s) && Waiting(s, id, due) && Brings(s, Unacked(e), id, due)
    ensures Taken(s, u, id, due)
  {
    var dt := TimeInBetween(s.now, s.redis.pel[e].since + s.cfg.lease, due);
    Stay(s);
    EnvOn(s, s, Tick(dt));
    var later := s.(now := s.now + dt);
    EnvOn(s, later, BootWorker);
    var t := BootWorkerStep(later);
    u := RoundByRound(s, t, later.nextId, 0, e, id, due);
  }

  // ---------------------------------------------------------------------
  // From the batch of a worker
  // ---------------------------------------------------------------------

  lemma {:induction false} RunKeepsThrottle(s: State, acts: seq<Action>)
    requires Coherent(s) && Throttled(s) && Legal(s, acts)
    ensures Throttled(Exec(s, acts))
    decreases |acts|
  {
    if acts != [] {
      NextKeepsCoherence(s, acts[0]);
      NextKeepsThrottle(s, acts[0]);
      RunKeepsThrottle(Next(s, acts[0]), acts[1..]);
    }
  }

  lemma StillThrottled(s: State, t: State)
    requires Coherent(s) && Throttled(s) && Leads(s, t)
    ensures Coherent(t) && Throttled(t)
  {
    StillCoherent(s, t);
    var acts :| Legal(s, acts) && AllBenign(acts) && Exec(s, acts) == t;
    RunKeepsThrottle(s, acts);
  }

  /** Time and stream stand still, and the document stays queued. */
  ghost predicate Quiet(s: State, t: State, id: DocId) {
    t.now == s.now && t.cfg == s.cfg && t.redis.log == s.redis.log && IsQueued(t.docs, id)
  }

  /** How many more steps a running job has before the acknowledgement. */
  ghost function StepsLeft(pc: JobPc): nat {
    match pc
    case Run => 4
    case StoreSummary(_) => 3
    case FreeSlot => 2
    case FreeGuard => 1
    case EnterDelay(_) => 1
    case _ => 0
  }

  ghost predicate Works(s: State, w: WorkerId, j: JobId) {
    w in s.actors.workers && j in s.actors.jobs && s.actors.jobs[j].worker == w && s.actors.jobs[j].pc.Running()
    && s.actors.jobs[j].doc in s.docs
  }

  ghost predicate GoneOn(s: State, t: State, w: WorkerId, j: JobId, id: DocId) {
    && j in s.actors.jobs && Works(t, w, j) && StepsLeft(t.actors.jobs[j].pc) < StepsLeft(s.actors.jobs[j].pc)
    && Quiet(s, t, id) && t.actors.workers == s.actors.workers && SameElsewhere(s.actors.jobs, t.actors.jobs, j)
  }

  lemma RunGoesOn(s: State, w: WorkerId, j: JobId, id: DocId)
    requires Works(s, w, j) && s.actors.jobs[j].pc.Run? && IsQueued(s.docs, id)
    ensures GoneOn(s, WorkNext(s, j, DoComplete), w, j, id)
  {
    if JobOwns(s, j) { CompleteGoesOn(s, w, j, id); }
  }

  lemma CompleteGoesOn(s: State, w: WorkerId, j: JobId, id: DocId)
    requires Works(s, w, j) && s.actors.jobs[j].pc.Run? && IsQueued(s.docs, id) && JobOwns(s, j)
    ensures GoneOn(s, CompleteStep(s, j), w, j, id)
  {}

  function SettlesBy(pc: JobPc): SettleStep {
    match pc
    case StoreSummary(_) => DoStoreSummary(Answered)
    case FreeSlot => DoFreeSlot(Answered)
    case FreeGuard => DoFreeGuard(Answered)
    case EnterDelay(_) => DoEnterDelay(Answered)
    case _ => DoAckEntry
  }

  lemma SettleGoesOn(s: State, w: WorkerId, j: JobId, id: DocId)
    requires Works(s, w, j) && !s.actors.jobs[j].pc.Run? && !s.actors.jobs[j].pc.AckEntry? && IsQueued(s.docs, id)
    ensures SettleEnabled(s, j, SettlesBy(s.actors.jobs[j].pc))
    ensures GoneOn(s, SettleNext(s, j, SettlesBy(s.actors.jobs[j].pc)), w, j, id)
  {
    match s.actors.jobs[j].pc
    case StoreSummary(_) =>
    case FreeSlot =>
    case FreeGuard =>
    case EnterDelay(_) =>
    case _ =>
  }

  /** A running job does its next step; other jobs and the workers see nothing
      of it. */
  lemma JobGoesOn(s: State, t: State, w: WorkerId, j: JobId, id: DocId) returns (u: State)
    requires Leads(s, t) && Works(t, w, j) && !t.actors.jobs[j].pc.AckEntry? && IsQueued(t.docs, id)
    ensures Leads(s, u) && GoneOn(t, u, w, j, id)
  {
    if t.actors.jobs[j].pc.Run? {
      RunGoesOn(t, w, j, id);
      WorkOn(s, t, j, DoComplete);
      u := WorkNext(t, j, DoComplete);
    } else {
      var a := SettlesBy(t.actors.jobs[j].pc);
      SettleGoesOn(t, w, j, id);
      SettleOn(s, t, j, a);
      u := SettleNext(t, j, a);
    }
  }

  /** A running job ends, and its permit is free. */
  lemma {:induction false} JobEnds(s: State, t: State, w: WorkerId, j: JobId, id: DocId) returns (u: State)
    requires Leads(s, t) && Works(t, w, j) && IsQueued(t.docs, id)
    ensures Leads(s, u) && Quiet(t, u, id) && w in u.actors.workers && SameElsewhere(t.actors.jobs, u.actors.jobs, j)
    ensures u.actors.workers[w] == t.actors.workers[w].(permits := t.actors.workers[w].permits + 1)
    decreases StepsLeft(t.actors.jobs[j].pc)
  {
    if t.actors.jobs[j].pc.AckEntry? {
      SettleOn(s, t, j, DoAckEntry);
      u := AckEntryStep(t, j);
    } else {
      var v := JobGoesOn(s, t, w, j, id);
      u := JobEnds(s, v, w, j, id);
    }
  }

  /** If no permit is free, some job is running, and ends. */
  lemma PermitFree(s: State, t: State, w: WorkerId, id: DocId) returns (u: State)
    requires Leads(s, t) && Coherent(t) && Throttled(t) && w in t.actors.workers && IsQueued(t.docs, id)
    ensures Leads(s, u) && Quiet(t, u, id) && w in u.actors.workers && u.actors.workers[w].permits > 0
    ensures u.actors.workers[w] == t.actors.workers[w].(permits := u.actors.workers[w].permits)
    ensures forall j :: Waits(t.actors.jobs, w, j) ==> j in u.actors.jobs && u.actors.jobs[j] == t.actors.jobs[j]
  {
    if t.actors.workers[w].permits > 0 {
      u := t;
    } else {
      assert WorkerBalanced(t.actors.workers[w], t.actors.jobs, w, t.cfg.concurrency);
      var j :| j in RunningJobs(t.actors.jobs, w);
      assert JobOk(j, t.actors.jobs[j], t.nextId, t.docs, t.redis.delivered);
      u := JobEnds(s, t, w, j, id);
    }
  }

  /** The worker `w` has this batch to work off, and the document is queued. */
  ghost predicate Holds(s: State, w: WorkerId, batch: seq<EntryId>, id: DocId) {
    && Coherent(s) && Throttled(s) && IsQueued(s.docs, id)
    && w in s.actors.workers && s.actors.workers[w].batch == batch && batch != []
  }

  /** A claimed job that waits is read and started. */
  lemma WaitingJobStarts(s: State, t: State, w: WorkerId, batch: seq<EntryId>, j: JobId, id: DocId) returns (u: State)
    requires Leads(s, t) && Holds(t, w, batch, id) && t.actors.workers[w].pc == Yield(j) && t.actors.workers[w].permits > 0
    ensures Leads(s, u) && Holds(u, w, batch, id) && u.actors.workers[w].pc.Pull? && Quiet(t, u, id)
  {
    u := t;
    assert Waits(t.actors.jobs, w, j) by { assert WorkerBalanced(t.actors.workers[w], t.actors.jobs, w, t.cfg.concurrency); }
    assert JobOk(j, t.actors.jobs[j], t.nextId, t.docs, t.redis.delivered);
    if t.actors.jobs[j].pc.Reread? {
      WorkOn(s, t, j, DoReread);
      u := RereadStep(t, j);
      NextKeepsCoherence(t, OfWork(j, DoReread));
      NextKeepsThrottle(t, OfWork(j, DoReread));
    }
    u := Starts(s, u, w, batch, j, id);
  }

  lemma Starts(s: State, t: State, w: WorkerId, batch: seq<EntryId>, j: JobId, id: DocId) returns (u: State)
    requires Leads(s, t) && Holds(t, w, batch, id) && At(t, w, j, AwaitPermit) && t.actors.workers[w].permits > 0
    ensures Leads(s, u) && Holds(u, w, batch, id) && u.actors.workers[w].pc.Pull? && Quiet(t, u, id)
  {
    WorkOn(s, t, j, DoStart);
    u := StartStep(t, j);
    NextKeepsCoherence(t, OfWork(j, DoStart));
    NextKeepsThrottle(t, OfWork(j, DoStart));
  }

  /** Whatever its worker is at, it comes back to its batch ... */
  lemma ComesBack(s: State, w: WorkerId, batch: seq<EntryId>, id: DocId) returns (t: State)
    requires Holds(s, w, batch, id)
    ensures Leads(s, t) && Holds(t, w, batch, id) && t.actors.workers[w].pc.Pull? && Quiet(s, t, id)
  {
    Stay(s);
    var k := s.actors.workers[w];
    if k.pc.Yield? {
      assert Waits(s.actors.jobs, w, k.pc.job) by { assert WorkerBalanced(k, s.actors.jobs, w, s.cfg.concurrency); }
      var free := PermitFree(s, s, w, id);
      StillThrottled(s, free);
      t := WaitingJobStarts(s, free, w, batch, k.pc.job, id);
    } else if k.pc.AckLost? {
      ConsumeOn(s, s, w, DoAckLost);
      t := AckLostStep(s, w);
      StillThrottled(s, t);
    } else {
      assert WorkerOk(k, s.redis.delivered);
      t := s;
    }
  }

  /** ... with a permit, and works it off. */
  lemma TakenFromBatch(s: State, w: WorkerId, e: EntryId, id: DocId, due: Time) returns (u: State)
    requires Coherent(s) && Throttled(s) && Waiting(s, id, due) && Brings(s, InBatch(w, e), id, due)
    ensures Taken(s, u, id, due)
  {
    var batch := s.actors.workers[w].batch;
    var back := ComesBack(s, w, batch, id);
    var ready := PermitFree(s, back, w, id);
    StillThrottled(s, ready);
    assert WorkerOk(ready.actors.workers[w], ready.redis.delivered);
    forall i: EntryId | i in batch ensures i < |ready.redis.log| {}
    u := DrainBatch(s, ready, w, batch, id);
  }

  // ---------------------------------------------------------------------
  // Exactly when
  // ---------------------------------------------------------------------

  lemma CarrierTakes(s: State, c: Carrier, id: DocId, due: Time) returns (u: State)
    requires Coherent(s) && Throttled(s) && Waiting(s, id, due) && Brings(s, c, id, due)
    ensures Taken(s, u, id, due)
  {
    match c
    case Undelivered(e) => Stay(s); u := TakenFromLog(s, s, e, id, due);
    case InBatch(w, e) => u := TakenFromBatch(s, w, e, id, due);
    case Unacked(e) => u := TakenFromPending(s, e, id, due);
    case InDelaySet => u := TakenFromDelay(s, id, due);
    case OwedBySubmit(sid) => u := TakenFromSubmit(s, sid, id, due);
    case OwedBySweep(x) => u := TakenFromSweep(s, x, id, due);
    case OwedByJob(j) => u := TakenFromJob(s, j, id, due);
  }

  /** If the document is no longer queued in time, it was claimed in time. */
  lemma {:induction false} FirstClaim(s: State, acts: seq<Action>, id: DocId, due: Time) returns (before: seq<Action>, a: Action)
    requires Coherent(s) && IsQueued(s.docs, id) && Legal(s, acts) && AllBenign(acts)
    requires !IsQueued(Exec(s, acts).docs, id) && Exec(s, acts).now < due
    ensures Legal(s, before) && AllBenign(before) && NeverClaimed(s, before, id)
    ensures Exec(s, before).now < due && Early.Claimed(Exec(s, before), a, id)
    decreases |acts|
  {
    if Early.Claimed(s, acts[0], id) {
      before, a := [], acts[0];
      ClockRuns(s, acts);
    } else {
      StaysWaiting(s, acts[0], id);
      NextKeepsCoherence(s, acts[0]);
      var rest;
      rest, a := FirstClaim(Next(s, acts[0]), acts[1..], id, due);
      before := [acts[0]] + rest;
      assert before[1..] == rest;
    }
  }

  /** A run up to a claim of the document, the first, before `due`. */
  ghost predicate EarlyClaim(s: State, acts: seq<Action>, a: Action, id: DocId, due: Time) {
    Legal(s, acts) && NeverClaimed(s, acts, id) && Exec(s, acts).now < due && Early.Claimed(Exec(s, acts), a, id)
  }

  /** A waiting document can be claimed before it is due exactly if it has a
      carrier: any run with an early claim began with one, and each carrier has
      a run without any fault in which it leads to an early claim. */
  lemma EarlyExactlyByCarrier(s: State, id: DocId, due: Time)
    requires Coherent(s) && Throttled(s) && Waiting(s, id, due)
    ensures (exists acts, a :: EarlyClaim(s, acts, a, id, due)) <==> (exists c :: Brings(s, c, id, due))
    ensures (exists c :: Brings(s, c, id, due)) <==> (exists acts, a :: EarlyClaim(s, acts, a, id, due) && AllBenign(acts))
  {
    if acts, a :| EarlyClaim(s, acts, a, id, due) {
      EarlyClaimHasCarrier(s, acts, a, id, due);
    }
    if c :| Brings(s, c, id, due) {
      var u := CarrierTakes(s, c, id, due);
      var acts :| Legal(s, acts) && AllBenign(acts) && Exec(s, acts) == u;
      var before, a := FirstClaim(s, acts, id, due);
      assert EarlyClaim(s, before, a, id, due) && AllBenign(before);
    }
  }
}
