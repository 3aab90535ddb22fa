/** Conservation of rate-limit slots. For every user and in every reachable
    state, the counter plus the ledger's surplus accounts exactly for the
    active documents, the slots held by submissions, the slots owed by jobs,
    and the ledger's losses. */
module Slots {
  import opened Keys
  import opened Types
  import opened Repository
  import opened RateLimiter
  import opened Protocol
  import opened Frames
  import opened References
  import opened ReferencesKept

  // ---------------------------------------------------------------------
  // The equation
  // ---------------------------------------------------------------------

  /** Slots taken by submissions whose document is not inserted (yet). */
  ghost function HeldSlots(submits: map<SubmitId, Submit>, user: UserId): set<SubmitId> {
    set sid | sid in submits && submits[sid].user == user && submits[sid].pc.HoldsSlot()
  }

  /** Slots of settled documents, about to be released. */
  ghost function OwedSlots(jobs: map<JobId, Job>, user: UserId): set<JobId> {
    set j | j in jobs && jobs[j].snap.user == user && jobs[j].pc.OwesSlot()
  }

  ghost function InFlight(s: State, user: UserId): nat {
    |ActiveIds(s.docs, user)| + |HeldSlots(s.actors.submits, user)| + |OwedSlots(s.actors.jobs, user)|
  }

  ghost function Counter(s: State, user: UserId): nat { Get(s.redis.counters, user, 0) }

  ghost function Surplus(s: State, user: UserId): nat { Get(s.audit.ledger.surplus, user, 0) }

  ghost function Lost(s: State, user: UserId): nat { Get(s.audit.ledger.lost, user, 0) }

  ghost function Raised(s: State, user: UserId): nat { Get(s.audit.ledger.raised, user, 0) }

  /** The slots the books say are in use. */
  ghost function Booked(s: State, user: UserId): int {
    Counter(s, user) + Surplus(s, user) - Lost(s, user)
  }

  ghost predicate Balanced(s: State, user: UserId) {
    && Booked(s, user) == InFlight(s, user)
    && Counter(s, user) <= s.cfg.maxActive + Raised(s, user)
    && Raised(s, user) <= Lost(s, user)
  }

  ghost predicate SlotsConserved(s: State) {
    forall user :: Balanced(s, user)
  }

  // ---------------------------------------------------------------------
  // How one move changes each term
  // ---------------------------------------------------------------------

  ghost function Holds(submits: map<SubmitId, Submit>, sid: SubmitId, user: UserId): nat {
    if sid in HeldSlots(submits, user) then 1 else 0
  }

  ghost function Owes(jobs: map<JobId, Job>, j: JobId, user: UserId): nat {
    if j in OwedSlots(jobs, user) then 1 else 0
  }

  lemma OneSubmitMoves(submits: map<SubmitId, Submit>, submits': map<SubmitId, Submit>, sid: SubmitId, user: UserId)
    requires SameElsewhere(submits, submits', sid)
    ensures |HeldSlots(submits', user)| - Holds(submits', sid, user) == |HeldSlots(submits, user)| - Holds(submits, sid, user)
  {
    var before, after := HeldSlots(submits, user), HeldSlots(submits', user);
    SameWithout(before, after, sid);
  }

  lemma OneJobMoves(jobs: map<JobId, Job>, jobs': map<JobId, Job>, j: JobId, user: UserId)
    requires SameElsewhere(jobs, jobs', j)
    ensures |OwedSlots(jobs', user)| - Owes(jobs', j, user) == |OwedSlots(jobs, user)| - Owes(jobs, j, user)
  {
    var before, after := OwedSlots(jobs, user), OwedSlots(jobs', user);
    SameWithout(before, after, j);
  }

  // ---------------------------------------------------------------------
  // Submissions
  // ---------------------------------------------------------------------

  lemma LookupBooks(s: State, sid: SubmitId, a: LookupStep, user: UserId)
    requires LookupEnabled(s, sid, a)
    ensures var t := LookupNext(s, sid, a);
            && t.redis.counters == s.redis.counters && t.audit.ledger == s.audit.ledger
            && Holds(t.actors.submits, sid, user) == 0 == Holds(s.actors.submits, sid, user)
  {
    match a
    case DoReadCache(_) =>
    case DoFindDone(_) =>
    case DoFillCache(_) =>
    case DoInsertHit =>
    case DoSetGuard(_) =>
    case DoReadGuard(_) =>
    case DoJoin =>
  }

  lemma LookupKeepsBalance(s: State, sid: SubmitId, a: LookupStep, user: UserId)
    requires Coherent(s) && LookupEnabled(s, sid, a) && Balanced(s, user)
    ensures Balanced(LookupNext(s, sid, a), user)
  {
    var t := LookupNext(s, sid, a);
    LookupBooks(s, sid, a, user);
    LookupFrame(s, sid, a);
    MovedSubmit(s, t.actors, sid);
    LookupAddsOneThing(s, sid, a);
    OneSubmitMoves(s.actors.submits, t.actors.submits, sid, user);
    if t.docs != s.docs {
      ActiveCountAfterWrite(s.docs, s.nextId, t.docs[s.nextId], user);
    }
  }

  /** `n` more slots are booked for this user, and the limit is respected. */
  ghost predicate Books(s: State, t: State, user: UserId, n: int) {
    && Booked(t, user) == Booked(s, user) + n
    && (Counter(s, user) <= s.cfg.maxActive + Raised(s, user) ==> Counter(t, user) <= s.cfg.maxActive + Raised(t, user))
    && (Raised(s, user) <= Lost(s, user) ==> Raised(t, user) <= Lost(t, user))
  }

  lemma TakeSlotBooks(s: State, sid: SubmitId, reply: Reply, user: UserId)
    requires EnqueueEnabled(s, sid, DoTakeSlot(reply))
    ensures var (t, x) := (TakeSlotStep(s, sid, reply), s.actors.submits[sid]);
            Books(s, t, user, if user == x.user && t.actors.submits[sid].pc.InsertNew? then 1 else 0)
  {}

  lemma CountActiveBooks(s: State, sid: SubmitId, user: UserId)
    requires EnqueueEnabled(s, sid, DoCountActive)
    ensures var (t, x) := (CountActiveStep(s, sid), s.actors.submits[sid]);
            Books(s, t, user, if user == x.user && t.actors.submits[sid].pc.InsertNew? then 1 else 0)
  {}

  lemma InsertNewBooks(s: State, sid: SubmitId, reply: Reply, user: UserId)
    requires EnqueueEnabled(s, sid, DoInsertNew(reply))
    ensures Books(s, InsertNewStep(s, sid, reply), user,
                  if user == s.actors.submits[sid].user && reply.AnswerLost? then 1 else 0)
  {}

  lemma PublishNewBooks(s: State, sid: SubmitId, reply: Reply, user: UserId)
    requires EnqueueEnabled(s, sid, DoPublishNew(reply))
    ensures Books(s, PublishNewStep(s, sid, reply), user,
                  if user == s.actors.submits[sid].user && !reply.Answered? then 1 else 0)
  {}

  /** A release takes one slot off the books, whatever becomes of it. */
  lemma ReleaseBooks(s: State, t: State, owner: UserId, reply: Reply, user: UserId)
    requires t.redis == ReleaseSlot(s.redis, owner, reply)
    requires t.audit.ledger == AddLost(s.audit, owner, Unreleased(s.redis, owner, reply)).ledger
    ensures Books(s, t, user, if user == owner then -1 else 0)
  {}

  lemma LoseOneBooks(s: State, t: State, owner: UserId, user: UserId)
    requires t.redis.counters == s.redis.counters && t.audit.ledger == AddLost(s.audit, owner, 1).ledger
    ensures Books(s, t, user, if user == owner then -1 else 0)
  {}

  /** How many slots the step books for the submission's user. */
  ghost function EnqueueBooking(s: State, sid: SubmitId, a: EnqueueStep): int
    requires EnqueueEnabled(s, sid, a)
  {
    var t := EnqueueNext(s, sid, a);
    match a
    case DoTakeSlot(_) => if t.actors.submits[sid].pc.InsertNew? then 1 else 0
    case DoCountActive => if t.actors.submits[sid].pc.InsertNew? then 1 else 0
    case DoInsertNew(reply) => if reply.AnswerLost? then 1 else 0
    case DoPublishNew(reply) => if reply.Answered? then 0 else 1
    case DoGiveSlotBack(_) => -1
    case DoGiveGuardBack(_) => 0
    case SubmitDies => if s.actors.submits[sid].pc.HoldsSlot() then -1 else 0
  }

  lemma EnqueueBooks(s: State, sid: SubmitId, a: EnqueueStep, user: UserId)
    requires EnqueueEnabled(s, sid, a)
    ensures Books(s, EnqueueNext(s, sid, a), user, if s.actors.submits[sid].user == user then EnqueueBooking(s, sid, a) else 0)
  {
    var (t, x) := (EnqueueNext(s, sid, a), s.actors.submits[sid]);
    match a
    case DoTakeSlot(reply) => TakeSlotBooks(s, sid, reply, user);
    case DoCountActive => CountActiveBooks(s, sid, user);
    case DoInsertNew(reply) => InsertNewBooks(s, sid, reply, user);
    case DoPublishNew(reply) => PublishNewBooks(s, sid, reply, user);
    case DoGiveSlotBack(reply) => ReleaseBooks(s, t, x.user, reply, user);
    case DoGiveGuardBack(_) =>
    case SubmitDies => if x.pc.HoldsSlot() { LoseOneBooks(s, t, x.user, user); }
  }

  /** They are the slots it comes to hold, and the record it inserts. */
  lemma EnqueueHolding(s: State, sid: SubmitId, a: EnqueueStep, user: UserId)
    requires EnqueueEnabled(s, sid, a)
    ensures (if s.actors.submits[sid].user == user then EnqueueBooking(s, sid, a) else 0)
         == Holds(EnqueueNext(s, sid, a).actors.submits, sid, user) - Holds(s.actors.submits, sid, user)
            + (if Inserts(a) && s.actors.submits[sid].user == user then 1 else 0)
  {
    match a
    case DoTakeSlot(_) =>
    case DoCountActive =>
    case DoInsertNew(_) =>
    case DoPublishNew(_) =>
    case DoGiveSlotBack(_) =>
    case DoGiveGuardBack(_) =>
    case SubmitDies =>
  }

  lemma EnqueueKeepsBalance(s: State, sid: SubmitId, a: EnqueueStep, user: UserId)
    requires Coherent(s) && EnqueueEnabled(s, sid, a) && Balanced(s, user)
    ensures Balanced(EnqueueNext(s, sid, a), user)
  {
    var t := EnqueueNext(s, sid, a);
    var x := s.actors.submits[sid];
    assert SubmitOk(sid, x, s.nextId, s.docs, s.audit.minted);
    EnqueueBooks(s, sid, a, user);
    EnqueueHolding(s, sid, a, user);
    EnqueueFrame(s, sid, a);
    MovedSubmit(s, t.actors, sid);
    EnqueueAddsOneThing(s, sid, a);
    OneSubmitMoves(s.actors.submits, t.actors.submits, sid, user);
    if Inserts(a) {
      ActiveCountAfterWrite(s.docs, x.pc.id, t.docs[x.pc.id], user);
    }
  }

  // ---------------------------------------------------------------------
  // Workers and jobs
  // ---------------------------------------------------------------------

  /** Nothing on the books moves. */
  ghost predicate SameBooks(s: State, t: State) {
    && t.cfg == s.cfg && t.redis.counters == s.redis.counters && t.audit.ledger == s.audit.ledger
    && t.actors.submits == s.actors.submits
  }

  lemma ClaimKeepsBalance(s: State, w: WorkerId, user: UserId)
    requires s.nextId !in s.actors.jobs && WorkerEnabled(s, w, DoClaim) && ClaimWins(s, w, DoClaim) && Balanced(s, user)
    ensures Balanced(ClaimWonStep(s, w), user)
  {
    var t := ClaimWonStep(s, w);
    var id := s.redis.log[s.actors.workers[w].batch[0]];
    ActiveCountAfterWrite(s.docs, id, t.docs[id], user);
    OneJobMoves(s.actors.jobs, t.actors.jobs, s.nextId, user);
  }

  lemma WorkerKeepsBalance(s: State, w: WorkerId, a: WorkerStep, user: UserId)
    requires Coherent(s) && WorkerEnabled(s, w, a) && Balanced(s, user)
    ensures Balanced(WorkerNext(s, w, a), user)
  {
    if ClaimWins(s, w, a) {
      ClaimKeepsBalance(s, w, user);
    } else {
      QuietStep(s, w, a);
    }
  }

  /** A terminal CAS turns an active document into an owed slot. */
  lemma TerminalKeepsBalance(s: State, t: State, j: JobId, user: UserId)
    requires Coherent(s) && JobOwns(s, j) && s.actors.jobs[j].pc.Run? && Balanced(s, user)
    requires SameBooks(s, t) && j in t.actors.jobs && SameElsewhere(s.actors.jobs, t.actors.jobs, j)
    requires t.actors.jobs[j].snap == s.actors.jobs[j].snap && t.actors.jobs[j].pc.OwesSlot()
    requires var id := s.actors.jobs[j].doc;
             id in t.docs && t.docs == s.docs[id := t.docs[id]]
             && t.docs[id].user == s.docs[id].user && !t.docs[id].status.Active()
    ensures Balanced(t, user)
  {
    var x := s.actors.jobs[j];
    assert JobOk(j, x, s.nextId, s.docs, s.redis.delivered);
    ActiveCountAfterWrite(s.docs, x.doc, t.docs[x.doc], user);
    OneJobMoves(s.actors.jobs, t.actors.jobs, j, user);
  }

  /** The other steps of a running job leave it owing nothing, and its
      document active if it was. */
  lemma OtherWorkKeepsBalance(s: State, t: State, j: JobId, user: UserId)
    requires j in s.actors.jobs && s.actors.jobs[j].pc.Open() && Balanced(s, user)
    requires SameBooks(s, t) && j in t.actors.jobs && SameElsewhere(s.actors.jobs, t.actors.jobs, j)
    requires !t.actors.jobs[j].pc.OwesSlot()
    requires var id := s.actors.jobs[j].doc;
             t.docs == s.docs || (id in t.docs && t.docs == s.docs[id := t.docs[id]] && Owns(s.docs, id, s.actors.jobs[j].worker)
                                  && t.docs[id].user == s.docs[id].user && t.docs[id].status.Active())
    ensures Balanced(t, user)
  {
    var id := s.actors.jobs[j].doc;
    if t.docs != s.docs { ActiveCountAfterWrite(s.docs, id, t.docs[id], user); }
    OneJobMoves(s.actors.jobs, t.actors.jobs, j, user);
  }

  ghost predicate Terminates(s: State, j: JobId, a: WorkStep) {
    (a.DoComplete? || a.DoFail?) && JobOwns(s, j)
  }

  /** Terminal writes leave the job owing a slot; other steps do not, and
      keep its document active if they write it. */
  lemma WorkOwes(s: State, j: JobId, a: WorkStep)
    requires WorkEnabled(s, j, a)
    ensures var (t, x) := (WorkNext(s, j, a), s.actors.jobs[j]);
            && j in t.actors.jobs && x.pc.Open()
            && (t.docs == s.docs || (x.doc in t.docs && t.docs == s.docs[x.doc := t.docs[x.doc]]))
            && (if Terminates(s, j, a) then
                  t.actors.jobs[j].snap == x.snap && t.actors.jobs[j].pc.OwesSlot() && x.pc.Run?
                  && x.doc in t.docs && t.docs[x.doc].user == s.docs[x.doc].user && !t.docs[x.doc].status.Active()
                else
                  !t.actors.jobs[j].pc.OwesSlot()
                  && (t.docs == s.docs || (t.docs[x.doc].user == s.docs[x.doc].user && t.docs[x.doc].status.Active())))
  {
    match a
    case DoReread =>
    case DoStart =>
    case DoComplete =>
    case DoRetry(_, _) =>
    case DoFail(_, _) =>
    case DoAbort =>
  }

  lemma WorkKeepsBalance(s: State, j: JobId, a: WorkStep, user: UserId)
    requires Coherent(s) && WorkEnabled(s, j, a) && Balanced(s, user)
    ensures Balanced(WorkNext(s, j, a), user)
  {
    WorkFrame(s, j, a);
    WorkOwes(s, j, a);
    if Terminates(s, j, a) {
      TerminalKeepsBalance(s, WorkNext(s, j, a), j, user);
    } else {
      OtherWorkKeepsBalance(s, WorkNext(s, j, a), j, user);
    }
  }

  lemma SettleBooks(s: State, j: JobId, a: SettleStep, user: UserId)
    requires SettleEnabled(s, j, a)
    ensures var t := SettleNext(s, j, a);
            Books(s, t, user, Owes(t.actors.jobs, j, user) - Owes(s.actors.jobs, j, user))
  {
    var (t, x) := (SettleNext(s, j, a), s.actors.jobs[j]);
    match a
    case DoStoreSummary(_) =>
    case DoFreeSlot(reply) => ReleaseBooks(s, t, x.snap.user, reply, user);
    case DoFreeGuard(_) =>
    case DoEnterDelay(_) =>
    case DoAckEntry =>
    case DoReap => if x.pc.OwesSlot() { LoseOneBooks(s, t, x.snap.user, user); }
  }

  lemma SettleKeepsBalance(s: State, j: JobId, a: SettleStep, user: UserId)
    requires Coherent(s) && SettleEnabled(s, j, a) && Balanced(s, user)
    ensures Balanced(SettleNext(s, j, a), user)
  {
    var t := SettleNext(s, j, a);
    assert JobOk(j, s.actors.jobs[j], s.nextId, s.docs, s.redis.delivered);
    SettleBooks(s, j, a, user);
    SettleSelf(s, j, a);
    OneJobMoves(s.actors.jobs, t.actors.jobs, j, user);
  }

  // ---------------------------------------------------------------------
  // Sweepers, reconcile runs and the environment
  // ---------------------------------------------------------------------

  lemma SweepKeepsBalance(s: State, w: SweepId, a: SweepStep, user: UserId)
    requires Coherent(s) && SweepEnabled(s, w, a) && Balanced(s, user)
    ensures Balanced(SweepNext(s, w, a), user)
  {
    var t := SweepNext(s, w, a);
    SweepFrame(s, w, a);
    if ResetHits(s, w, a) {
      var id := s.actors.sweeps[w].pc.rows[0].id;
      ActiveCountAfterWrite(s.docs, id, t.docs[id], user);
    } else {
      QuietSweep(s, w, a);
    }
  }

  /** Overwriting a counter moves the difference to the ledger. */
  lemma OverwriteBooks(s: State, t: State, owner: UserId, after: nat, user: UserId)
    requires Get(t.redis.counters, owner, 0) == after && SameElsewhere(s.redis.counters, t.redis.counters, owner)
    requires t.audit.ledger == Overwrite(s.audit, owner, Counter(s, owner), after).ledger
    ensures Books(s, t, user, 0)
  {}

  lemma ReconKeepsBalance(s: State, r: ReconId, a: ReconStep, user: UserId)
    requires ReconEnabled(s, r, a) && Balanced(s, user)
    ensures Balanced(ReconNext(s, r, a), user)
  {
    var t := ReconNext(s, r, a);
    match a
    case DoSetCounter(owner, wrote) =>
      if wrote { OverwriteBooks(s, t, owner, s.actors.recons[r].truth[owner], user); }
    case DoDropCounter(owner) => OverwriteBooks(s, t, owner, 0, user);
    case DoEndRecon =>
  }

  lemma EnvKeepsBalance(s: State, a: EnvStep, user: UserId)
    requires Coherent(s) && EnvEnabled(s, a) && Balanced(s, user)
    ensures Balanced(EnvNext(s, a), user)
  {
    var t := EnvNext(s, a);
    EnvFrame(s, a);
    if a.ExpireCounter? {
      OverwriteBooks(s, t, a.user, 0, user);
    } else {
      EnvAdds(s, a, user);
    }
  }

  /** A submission that arrives holds nothing yet. */
  lemma EnvAdds(s: State, a: EnvStep, user: UserId)
    requires EnvEnabled(s, a) && s.nextId !in s.actors.submits
    ensures HeldSlots(EnvNext(s, a).actors.submits, user) == HeldSlots(s.actors.submits, user)
  {
    match a
    case Tick(_) =>
    case NewSubmit(_, _, _) =>
    case BootWorker =>
    case StartSweep(_) =>
    case StartRecon(_) =>
    case KillWorker(_) =>
    case ExpireGuard(_) =>
    case ExpireCounter(_) =>
    case EvictSummary(_) =>
    case LoseQueue =>
  }

  // ---------------------------------------------------------------------
  // Runs
  // ---------------------------------------------------------------------

  lemma NextKeepsBalance(s: State, a: Action, user: UserId)
    requires Coherent(s) && Enabled(s, a) && Balanced(s, user)
    ensures Balanced(Next(s, a), user)
  {
    match a
    case OfLookup(sid, step) => LookupKeepsBalance(s, sid, step, user);
    case OfEnqueue(sid, step) => EnqueueKeepsBalance(s, sid, step, user);
    case OfWorker(w, step) => WorkerKeepsBalance(s, w, step, user);
    case OfWork(j, step) => WorkKeepsBalance(s, j, step, user);
    case OfSettle(j, step) => SettleKeepsBalance(s, j, step, user);
    case OfSweep(w, step) => SweepKeepsBalance(s, w, step, user);
    case OfRecon(r, step) => ReconKeepsBalance(s, r, step, user);
    case OfEnv(step) => EnvKeepsBalance(s, step, user);
  }

  lemma {:induction false} SlotsAreConserved(s: State, acts: seq<Action>)
    requires Coherent(s) && SlotsConserved(s) && Legal(s, acts)
    ensures SlotsConserved(Exec(s, acts))
    decreases |acts|
  {
    if acts != [] {
      forall user ensures Balanced(Next(s, acts[0]), user) {
        NextKeepsBalance(s, acts[0], user);
      }
      NextKeepsCoherence(s, acts[0]);
      SlotsAreConserved(Next(s, acts[0]), acts[1..]);
    }
  }

  // ---------------------------------------------------------------------
  // What the equation means
  // ---------------------------------------------------------------------

  /** The limit, read off the equation: never exceeded by more than the
      surplus; and without surplus the counter covers everything in flight. */
  lemma LimitHolds(s: State, user: UserId)
    requires Balanced(s, user)
    ensures InFlight(s, user) <= s.cfg.maxActive + Surplus(s, user)
    ensures Surplus(s, user) == 0 ==> InFlight(s, user) <= Counter(s, user)
    ensures Raised(s, user) == 0 ==> Counter(s, user) <= s.cfg.maxActive
    ensures Surplus(s, user) == Lost(s, user) ==> InFlight(s, user) == Counter(s, user)
  {}

  /** The ways to be active without the counter's consent: the degraded path
      let the submission in, or its document was inserted although the insert
      or the publish was reported as failed. */
  ghost predicate Overshoots(s: State, a: Action, user: UserId) {
    a.OfEnqueue? && a.sid in s.actors.submits && s.actors.submits[a.sid].user == user &&
    (if a.enqueue.DoCountActive? then |ActiveIds(s.docs, user)| < s.cfg.maxActive
     else if a.enqueue.DoInsertNew? then a.enqueue.reply.AnswerLost?
     else a.enqueue.DoPublishNew? && !a.enqueue.reply.Answered?)
  }

  /** The step writes this counter without acquiring or releasing. */
  predicate Writes(a: Action, user: UserId) {
    || (a.OfRecon? && (a.recon == DoSetCounter(user, true) || a.recon == DoDropCounter(user)))
    || (a.OfEnv? && a.env == ExpireCounter(user))
  }

  /** What the step takes off the counter by writing over it. */
  ghost function Erased(s: State, a: Action, user: UserId): nat
    requires Enabled(s, a)
  {
    if Writes(a, user) && Counter(Next(s, a), user) < Counter(s, user) then Counter(s, user) - Counter(Next(s, a), user) else 0
  }

  lemma EnqueueSurplus(s: State, sid: SubmitId, a: EnqueueStep, user: UserId)
    requires EnqueueEnabled(s, sid, a)
    ensures Surplus(EnqueueNext(s, sid, a), user)
         == Surplus(s, user) + (if Overshoots(s, OfEnqueue(sid, a), user) then 1 else 0)
  {}

  lemma ReconSurplus(s: State, r: ReconId, a: ReconStep, user: UserId)
    requires ReconEnabled(s, r, a)
    ensures Surplus(ReconNext(s, r, a), user) == Surplus(s, user) + Erased(s, OfRecon(r, a), user)
  {
    match a
    case DoSetCounter(_, _) =>
    case DoDropCounter(_) =>
    case DoEndRecon =>
  }

  lemma EnvSurplus(s: State, a: EnvStep, user: UserId)
    requires EnvEnabled(s, a)
    ensures Surplus(EnvNext(s, a), user) == Surplus(s, user) + Erased(s, OfEnv(a), user)
  {
    if !a.ExpireCounter? { EnvFrame(s, a); }
  }

  /** Surplus grows by one with each overshoot, by what is erased with a
      write, and with nothing else. */
  lemma SurplusCauses(s: State, a: Action, user: UserId)
    requires Enabled(s, a)
    ensures Surplus(Next(s, a), user) == Surplus(s, user) + (if Overshoots(s, a, user) then 1 else 0) + Erased(s, a, user)
    ensures Next(s, a).cfg == s.cfg
  {
    match a
    case OfLookup(sid, step) => LookupBooks(s, sid, step, user);
    case OfEnqueue(sid, step) => EnqueueSurplus(s, sid, step, user);
    case OfWorker(w, step) => WorkerFrame(s, w, step);
    case OfWork(j, step) => WorkFrame(s, j, step);
    case OfSettle(j, step) => SettleFrame(s, j, step);
    case OfSweep(w, step) => SweepFrame(s, w, step);
    case OfRecon(r, step) => ReconSurplus(s, r, step, user);
    case OfEnv(step) => EnvSurplus(s, step, user); EnvFrame(s, step);
  }

  ghost function OvershootCount(s: State, acts: seq<Action>, user: UserId): nat
    requires Legal(s, acts)
    decreases |acts|
  {
    if acts == [] then 0
    else (if Overshoots(s, acts[0], user) then 1 else 0) + OvershootCount(Next(s, acts[0]), acts[1..], user)
  }

  ghost function ErasedSum(s: State, acts: seq<Action>, user: UserId): nat
    requires Legal(s, acts)
    decreases |acts|
  {
    if acts == [] then 0 else Erased(s, acts[0], user) + ErasedSum(Next(s, acts[0]), acts[1..], user)
  }

  lemma {:induction false} SurplusOfRun(s: State, acts: seq<Action>, user: UserId)
    requires Legal(s, acts)
    ensures Surplus(Exec(s, acts), user) == Surplus(s, user) + OvershootCount(s, acts, user) + ErasedSum(s, acts, user)
    ensures Exec(s, acts).cfg == s.cfg
    decreases |acts|
  {
    if acts != [] {
      SurplusCauses(s, acts[0], user);
      SurplusOfRun(Next(s, acts[0]), acts[1..], user);
    }
  }

  /** In every run, whatever expires and however reconcile runs race, a user
      has at most `limit` in flight, plus one for each overshoot, plus what
      writes to the counter have erased: crashes, lost replies and clamped
      releases never add to it. */
  lemma OvershootIsBounded(s: State, acts: seq<Action>, user: UserId)
    requires Coherent(s) && SlotsConserved(s) && Legal(s, acts)
    ensures InFlight(Exec(s, acts), user)
         <= s.cfg.maxActive + Surplus(s, user) + OvershootCount(s, acts, user) + ErasedSum(s, acts, user)
  {
    SlotsAreConserved(s, acts);
    SurplusOfRun(s, acts, user);
    assert Balanced(Exec(s, acts), user);
    LimitHolds(Exec(s, acts), user);
  }

  // ---------------------------------------------------------------------
  // The counter covers what is in flight
  // ---------------------------------------------------------------------

  ghost predicate Covers(s: State, user: UserId, bound: nat) {
    InFlight(s, user) <= Counter(s, user) <= bound
  }

  lemma EnqueueCounter(s: State, sid: SubmitId, a: EnqueueStep, user: UserId, bound: nat)
    requires EnqueueEnabled(s, sid, a) && Counter(s, user) <= bound && s.cfg.maxActive <= bound
    ensures Counter(EnqueueNext(s, sid, a), user) <= bound && Lost(s, user) <= Lost(EnqueueNext(s, sid, a), user)
  {}

  lemma SettleCounter(s: State, j: JobId, a: SettleStep, user: UserId)
    requires SettleEnabled(s, j, a)
    ensures Counter(SettleNext(s, j, a), user) <= Counter(s, user) && Lost(s, user) <= Lost(SettleNext(s, j, a), user)
  {}

  /** What is no write takes a counter at most to the limit. */
  lemma CounterMoves(s: State, a: Action, user: UserId, bound: nat)
    requires Enabled(s, a) && !Writes(a, user) && Counter(s, user) <= bound && s.cfg.maxActive <= bound
    ensures Counter(Next(s, a), user) <= bound && Lost(s, user) <= Lost(Next(s, a), user)
  {
    match a
    case OfLookup(sid, step) => LookupBooks(s, sid, step, user);
    case OfEnqueue(sid, step) => EnqueueCounter(s, sid, step, user, bound);
    case OfWorker(w, step) => WorkerFrame(s, w, step);
    case OfWork(j, step) => WorkFrame(s, j, step);
    case OfSettle(j, step) => SettleCounter(s, j, step, user);
    case OfSweep(w, step) => SweepFrame(s, w, step);
    case OfRecon(r, step) => ReconElsewhere(s, r, step, user);
    case OfEnv(step) => if !step.ExpireCounter? { EnvFrame(s, step); }
  }

  lemma ReconElsewhere(s: State, r: ReconId, a: ReconStep, user: UserId)
    requires ReconEnabled(s, r, a) && !Writes(OfRecon(r, a), user)
    ensures Counter(ReconNext(s, r, a), user) == Counter(s, user) && Lost(ReconNext(s, r, a), user) == Lost(s, user)
  {
    match a
    case DoSetCounter(_, _) =>
    case DoDropCounter(_) =>
    case DoEndRecon =>
  }

  lemma WritesMoveNothing(s: State, a: Action, user: UserId)
    requires Enabled(s, a) && Writes(a, user)
    ensures InFlight(Next(s, a), user) == InFlight(s, user)
  {}

  /** A write to this counter leaves it at a value that covers what is in
      flight, within the bound. */
  ghost predicate WellWritten(s: State, a: Action, user: UserId, bound: nat)
    requires Enabled(s, a)
  {
    Writes(a, user) ==> InFlight(s, user) <= Counter(Next(s, a), user) <= bound
  }

  /** A step without overshoot keeps the counter covering what is in flight
      exactly if it does not write it, or writes it well. */
  lemma StepKeepsCover(s: State, a: Action, user: UserId, bound: nat)
    requires Coherent(s) && Enabled(s, a) && Balanced(s, user) && Covers(s, user, bound) && s.cfg.maxActive <= bound
    requires !Overshoots(s, a, user)
    ensures Covers(Next(s, a), user, bound) <==> WellWritten(s, a, user, bound)
  {
    if Writes(a, user) {
      WritesMoveNothing(s, a, user);
    } else {
      NextKeepsBalance(s, a, user);
      SurplusCauses(s, a, user);
      CounterMoves(s, a, user, bound);
    }
  }

  ghost predicate AllWellWritten(s: State, acts: seq<Action>, user: UserId, bound: nat)
    requires Legal(s, acts)
    decreases |acts|
  {
    acts == [] || (WellWritten(s, acts[0], user, bound) && AllWellWritten(Next(s, acts[0]), acts[1..], user, bound))
  }

  ghost predicate CoversThroughout(s: State, acts: seq<Action>, user: UserId, bound: nat)
    requires Legal(s, acts)
    decreases |acts|
  {
    Covers(s, user, bound) && (acts == [] || CoversThroughout(Next(s, acts[0]), acts[1..], user, bound))
  }

  /** Whatever crashes, whichever releases fail and whatever was repaired
      before: from a state in which the counter covers what is in flight it
      does so at every point of a run without overshoot if and only if every
      write to it is a good one. */
  lemma {:induction false} CounterCovers(s: State, acts: seq<Action>, user: UserId, bound: nat)
    requires Coherent(s) && Balanced(s, user) && Covers(s, user, bound) && s.cfg.maxActive <= bound
    requires Legal(s, acts) && OvershootCount(s, acts, user) == 0
    ensures CoversThroughout(s, acts, user, bound) <==> AllWellWritten(s, acts, user, bound)
    ensures AllWellWritten(s, acts, user, bound) ==> Covers(Exec(s, acts), user, bound)
    decreases |acts|
  {
    if acts != [] {
      StepKeepsCover(s, acts[0], user, bound);
      if Covers(Next(s, acts[0]), user, bound) {
        NextKeepsCoherence(s, acts[0]);
        NextKeepsBalance(s, acts[0], user);
        SurplusCauses(s, acts[0], user);
        CounterCovers(Next(s, acts[0]), acts[1..], user, bound);
      }
    }
  }

  // ---------------------------------------------------------------------
  // Runs without crashes and faults
  // ---------------------------------------------------------------------

  /** No crash, no lost or failed insert, publish or counter command. Cache and
      guard may fail freely, and reconcile runs and expiry may write. */
  predicate Clean(a: Action) {
    match a
    case OfEnqueue(_, DoTakeSlot(reply)) => reply.Answered?
    case OfEnqueue(_, DoInsertNew(reply)) => !reply.AnswerLost?
    case OfEnqueue(_, DoPublishNew(reply)) => reply.Answered?
    case OfEnqueue(_, DoGiveSlotBack(reply)) => reply.Took()
    case OfEnqueue(_, SubmitDies) => false
    case OfSettle(_, DoFreeSlot(reply)) => reply.Took()
    case OfSettle(_, DoReap) => false
    case _ => true
  }

  ghost predicate NoneDegraded(submits: map<SubmitId, Submit>) {
    forall sid :: sid in submits ==> !submits[sid].pc.CountActive?
  }

  ghost predicate IsExact(s: State, user: UserId) {
    Counter(s, user) == InFlight(s, user)
  }

  /** A release that is due finds a positive counter, as long as that covers
      what is in flight. */
  lemma NeverClamped(s: State, user: UserId)
    requires InFlight(s, user) <= Counter(s, user)
    requires HeldSlots(s.actors.submits, user) != {} || OwedSlots(s.actors.jobs, user) != {}
    ensures Counter(s, user) > 0
  {}

  lemma CleanEnqueue(s: State, sid: SubmitId, a: EnqueueStep, user: UserId)
    requires EnqueueEnabled(s, sid, a) && Clean(OfEnqueue(sid, a))
    requires !s.actors.submits[sid].pc.CountActive?
    requires a.DoGiveSlotBack? && s.actors.submits[sid].user == user ==> Counter(s, user) > 0
    ensures var t := EnqueueNext(s, sid, a);
            && Surplus(t, user) == Surplus(s, user) && Lost(t, user) == Lost(s, user)
            && (sid in t.actors.submits ==> !t.actors.submits[sid].pc.CountActive?)
  {}

  lemma CleanSettle(s: State, j: JobId, a: SettleStep, user: UserId)
    requires SettleEnabled(s, j, a) && Clean(OfSettle(j, a))
    requires a.DoFreeSlot? && s.actors.jobs[j].snap.user == user ==> Counter(s, user) > 0
    ensures var t := SettleNext(s, j, a);
            && Surplus(t, user) == Surplus(s, user) && Lost(t, user) == Lost(s, user)
            && t.actors.submits == s.actors.submits
  {}

  lemma NobodyTurnsDegraded(s: State, a: Action)
    requires Enabled(s, a) && NoneDegraded(s.actors.submits) && !a.OfEnqueue?
    ensures NoneDegraded(Next(s, a).actors.submits)
  {
    match a
    case OfLookup(sid, step) => LookupNotDegraded(s, sid, step); LookupFrame(s, sid, step);
    case OfWorker(w, step) => WorkerFrame(s, w, step);
    case OfWork(j, step) => WorkFrame(s, j, step);
    case OfSettle(j, step) => SettleFrame(s, j, step);
    case OfSweep(w, step) => SweepFrame(s, w, step);
    case OfRecon(r, step) => ReconFrame(s, r, step);
    case OfEnv(step) => EnvSubmits(s, step);
  }

  lemma LookupNotDegraded(s: State, sid: SubmitId, a: LookupStep)
    requires LookupEnabled(s, sid, a)
    ensures var t := LookupNext(s, sid, a); sid in t.actors.submits ==> !t.actors.submits[sid].pc.CountActive?
  {
    match a
    case DoReadCache(_) =>
    case DoFindDone(_) =>
    case DoFillCache(_) =>
    case DoInsertHit =>
    case DoSetGuard(_) =>
    case DoReadGuard(_) =>
    case DoJoin =>
  }

  lemma EnvSubmits(s: State, a: EnvStep)
    requires EnvEnabled(s, a) && NoneDegraded(s.actors.submits)
    ensures NoneDegraded(EnvNext(s, a).actors.submits)
  {}

  /** What is no write leaves the ledger as it is. */
  ghost predicate SameLedger(s: State, t: State, user: UserId) {
    Surplus(t, user) == Surplus(s, user) && Lost(t, user) == Lost(s, user) && NoneDegraded(t.actors.submits)
  }

  lemma CleanEnqueueKeepsLedger(s: State, sid: SubmitId, a: EnqueueStep, user: UserId)
    requires EnqueueEnabled(s, sid, a) && Clean(OfEnqueue(sid, a)) && IsExact(s, user) && NoneDegraded(s.actors.submits)
    ensures SameLedger(s, EnqueueNext(s, sid, a), user)
  {
    if a.DoGiveSlotBack? && s.actors.submits[sid].user == user {
      assert sid in HeldSlots(s.actors.submits, user);
      NeverClamped(s, user);
    }
    CleanEnqueue(s, sid, a, user);
    EnqueueFrame(s, sid, a);
  }

  lemma CleanSettleKeepsLedger(s: State, j: JobId, a: SettleStep, user: UserId)
    requires SettleEnabled(s, j, a) && Clean(OfSettle(j, a)) && IsExact(s, user) && NoneDegraded(s.actors.submits)
    ensures SameLedger(s, SettleNext(s, j, a), user)
  {
    if a.DoFreeSlot? && s.actors.jobs[j].snap.user == user {
      assert j in OwedSlots(s.actors.jobs, user);
      NeverClamped(s, user);
    }
    CleanSettle(s, j, a, user);
  }

  lemma CleanStepKeepsLedger(s: State, a: Action, user: UserId)
    requires Enabled(s, a) && Clean(a) && !Writes(a, user) && IsExact(s, user) && NoneDegraded(s.actors.submits)
    ensures SameLedger(s, Next(s, a), user)
  {
    match a
    case OfLookup(sid, step) => LookupBooks(s, sid, step, user); NobodyTurnsDegraded(s, a);
    case OfEnqueue(sid, step) => CleanEnqueueKeepsLedger(s, sid, step, user);
    case OfWorker(w, step) => WorkerFrame(s, w, step); NobodyTurnsDegraded(s, a);
    case OfWork(j, step) => WorkFrame(s, j, step); NobodyTurnsDegraded(s, a);
    case OfSettle(j, step) => CleanSettleKeepsLedger(s, j, step, user);
    case OfSweep(w, step) => SweepFrame(s, w, step);
    case OfRecon(r, step) => ReconElsewhere(s, r, step, user); ReconSurplus(s, r, step, user); NobodyTurnsDegraded(s, a);
    case OfEnv(step) =>
      EnvSurplus(s, step, user);
      CounterMoves(s, a, user, Counter(s, user) + s.cfg.maxActive);
      EnvLost(s, step, user);
      NobodyTurnsDegraded(s, a);
  }

  lemma EnvLost(s: State, a: EnvStep, user: UserId)
    requires EnvEnabled(s, a) && !Writes(OfEnv(a), user)
    ensures Lost(EnvNext(s, a), user) == Lost(s, user)
  {
    if !a.ExpireCounter? { EnvFrame(s, a); }
  }

  /** A clean step keeps the counter exact if and only if, when it writes it,
      it writes what is in flight. */
  lemma CleanStepKeepsExact(s: State, a: Action, user: UserId)
    requires Coherent(s) && Enabled(s, a) && Clean(a) && Balanced(s, user) && IsExact(s, user) && NoneDegraded(s.actors.submits)
    ensures NoneDegraded(Next(s, a).actors.submits)
    ensures IsExact(Next(s, a), user) <==> ExactlyWritten(s, a, user)
  {
    if Writes(a, user) {
      WritesMoveNothing(s, a, user);
      NobodyTurnsDegraded(s, a);
    } else {
      NextKeepsBalance(s, a, user);
      CleanStepKeepsLedger(s, a, user);
    }
  }

  ghost predicate ExactlyWritten(s: State, a: Action, user: UserId)
    requires Enabled(s, a)
  {
    Writes(a, user) ==> Counter(Next(s, a), user) == InFlight(s, user)
  }

  ghost predicate AllExactlyWritten(s: State, acts: seq<Action>, user: UserId)
    requires Legal(s, acts)
    decreases |acts|
  {
    acts == [] || (ExactlyWritten(s, acts[0], user) && AllExactlyWritten(Next(s, acts[0]), acts[1..], user))
  }

  ghost predicate ExactThroughout(s: State, acts: seq<Action>, user: UserId)
    requires Legal(s, acts)
    decreases |acts|
  {
    IsExact(s, user) && (acts == [] || ExactThroughout(Next(s, acts[0]), acts[1..], user))
  }

  /** From a state in which the counter is exact it is so at every point of a
      clean run if and only if every write to it is exact: it equals the active
      documents, plus the slots held by submissions between acquire and insert,
      plus those owed by jobs between settle and release. */
  lemma {:induction false} CleanRunsAreExact(s: State, acts: seq<Action>, user: UserId)
    requires Coherent(s) && Balanced(s, user) && IsExact(s, user) && NoneDegraded(s.actors.submits) && Legal(s, acts)
    requires forall a :: a in acts ==> Clean(a)
    ensures ExactThroughout(s, acts, user) <==> AllExactlyWritten(s, acts, user)
    ensures AllExactlyWritten(s, acts, user) ==> IsExact(Exec(s, acts), user)
    decreases |acts|
  {
    if acts != [] {
      assert acts[0] in acts;
      CleanStepKeepsExact(s, acts[0], user);
      if IsExact(Next(s, acts[0]), user) {
        NextKeepsCoherence(s, acts[0]);
        NextKeepsBalance(s, acts[0], user);
        CleanRunsAreExact(Next(s, acts[0]), acts[1..], user);
      }
    }
  }

  // ---------------------------------------------------------------------
  // Reconcile
  // ---------------------------------------------------------------------

  /** A reconcile run whose reading of the collection is still current. */
  ghost predicate Current(s: State, r: ReconId) {
    r in s.actors.recons && s.actors.recons[r].truth == ActiveCounts(s.docs)
  }

  /** A current run sets the counter it visits to the number of active
      documents, unless it drops that of an active user, whose id ends in that
      of an idle one. It is a good write exactly if no submission holds a slot
      and no job owes one. */
  lemma ReconcileVisit(s: State, r: ReconId, a: ReconStep, user: UserId)
    requires Current(s, r) && ReconEnabled(s, r, a) && Writes(OfRecon(r, a), user)
    ensures var (t, quiet) := (ReconNext(s, r, a), HeldSlots(s.actors.submits, user) == {} && OwedSlots(s.actors.jobs, user) == {});
            && (Counter(t, user) == |ActiveIds(s.docs, user)| <==> a.DoSetCounter? || ActiveIds(s.docs, user) == {})
            && (ExactlyWritten(s, OfRecon(r, a), user) <==> quiet && (a.DoSetCounter? || ActiveIds(s.docs, user) == {}))
  {
    CountsAgree(s.docs, user);
    ReconFrame(s, r, a);
  }
}
