/** A whole reconcile run that nothing interrupts restores the counters. */
module Reconciled {
  import opened Keys
  import opened Types
  import opened Repository
  import opened Protocol
  import opened Frames
  import opened References
  import opened ReferencesKept
  import opened Slots
  import opened Recovery

  // ---------------------------------------------------------------------
  // Uninterrupted runs
  // ---------------------------------------------------------------------

  /** A step of the run `r`; it writes a counter unless that is right. */
  ghost predicate StepOf(s: State, a: Action, r: ReconId) {
    a.OfRecon? && a.rid == r && Enabled(s, a) &&
    match a.recon
    case DoSetCounter(user, wrote) => wrote || Counter(s, user) == Get(s.actors.recons[r].truth, user, 0)
    case DoDropCounter(_) => true
    case DoEndRecon => false
  }

  ghost predicate Uninterrupted(s: State, acts: seq<Action>, r: ReconId)
    requires Legal(s, acts)
    decreases |acts|
  {
    acts == [] || (StepOf(s, acts[0], r) && Uninterrupted(Next(s, acts[0]), acts[1..], r))
  }

  /** Every row is visited, and no counter is left to drop. */
  ghost predicate Finished(s: State, r: ReconId) {
    && r in s.actors.recons && s.actors.recons[r].todo == {}
    && forall user :: user in s.redis.counters ==> LastSegment(user) in s.actors.recons[r].truth
  }

  /** The run `r` has a current reading, and nobody's slots or documents have
      moved since `s`. */
  ghost predicate Undisturbed(s: State, t: State, r: ReconId) {
    && Current(s, r) && r in t.actors.recons && t.actors.recons[r].truth == s.actors.recons[r].truth
    && t.actors.recons[r].todo <= t.actors.recons[r].truth.Keys
    && t.docs == s.docs && t.actors == s.actors.(recons := t.actors.recons)
  }

  /** What has become of one user's counter so far. */
  ghost predicate CounterSoFar(s: State, t: State, r: ReconId, user: UserId)
    requires r in t.actors.recons
  {
    var x := t.actors.recons[r];
    && (user in x.truth && user !in x.todo && LastSegment(user) in x.truth ==> Counter(t, user) == x.truth[user])
    && (user !in x.truth && LastSegment(user) in x.truth ==> Counter(t, user) == Counter(s, user))
  }

  lemma StepKeepsCounter(s: State, t: State, a: Action, r: ReconId, user: UserId)
    requires Undisturbed(s, t, r) && CounterSoFar(s, t, r, user) && StepOf(t, a, r)
    ensures Undisturbed(s, Next(t, a), r) && CounterSoFar(s, Next(t, a), r, user)
  {
    match a.recon
    case DoSetCounter(_, _) =>
    case DoDropCounter(_) =>
  }

  lemma {:induction false} RunKeepsCounter(s: State, t: State, acts: seq<Action>, r: ReconId, user: UserId)
    requires Undisturbed(s, t, r) && CounterSoFar(s, t, r, user) && Legal(t, acts) && Uninterrupted(t, acts, r)
    ensures Undisturbed(s, Exec(t, acts), r) && CounterSoFar(s, Exec(t, acts), r, user)
    decreases |acts|
  {
    if acts != [] {
      StepKeepsCounter(s, t, acts[0], r, user);
      RunKeepsCounter(s, Next(t, acts[0]), acts[1..], r, user);
    }
  }

  /** A reconcile run begins with a current reading and every row to visit. */
  ghost predicate Begins(s: State, r: ReconId) {
    Current(s, r) && s.actors.recons[r].todo == s.actors.recons[r].truth.Keys
  }

  /** After a whole run a user's counter is the number of active documents
      exactly if the id after its last colon is active as the user is, or no
      counter was kept; so always for ids without colon. */
  lemma RunMakesCounterRight(s: State, acts: seq<Action>, r: ReconId, user: UserId)
    requires Begins(s, r) && Legal(s, acts) && Uninterrupted(s, acts, r) && Finished(Exec(s, acts), r)
    ensures var (t, truth) := (Exec(s, acts), s.actors.recons[r].truth);
            && t.docs == s.docs && InFlight(t, user) == InFlight(s, user)
            && (Counter(t, user) == |ActiveIds(s.docs, user)| <==>
                  if user in truth then LastSegment(user) in truth else LastSegment(user) !in truth || Counter(s, user) == 0)
    ensures ColonFree(user) ==> Counter(Exec(s, acts), user) == |ActiveIds(s.docs, user)|
  {
    RunKeepsCounter(s, s, acts, r, user);
    CountsAgree(s.docs, user);
    RateLimitKeyParse(user);
  }

  /** ... and the conservation equality holds again for each such user of whom
      no slot is held or owed. */
  lemma ReconcileRestores(s: State, acts: seq<Action>, r: ReconId, user: UserId)
    requires Begins(s, r) && Legal(s, acts) && Uninterrupted(s, acts, r) && Finished(Exec(s, acts), r) && ColonFree(user)
    ensures Counter(Exec(s, acts), user) == InFlight(Exec(s, acts), user)
       <==> HeldSlots(s.actors.submits, user) == {} && OwedSlots(s.actors.jobs, user) == {}
  {
    RunMakesCounterRight(s, acts, r, user);
  }

  /** A whole run that meets nobody with a slot held or owed heals for good:
      whatever was lost or erased before, the counter covers what is in flight
      at every later point of a run without overshoot, exactly as long as every
      write to it is a good one. */
  lemma ReconcileHeals(s: State, acts: seq<Action>, r: ReconId, user: UserId, more: seq<Action>, bound: nat)
    requires Coherent(s) && SlotsConserved(s) && Begins(s, r) && Legal(s, acts) && Uninterrupted(s, acts, r)
    requires Finished(Exec(s, acts), r) && ColonFree(user)
    requires HeldSlots(s.actors.submits, user) == {} && OwedSlots(s.actors.jobs, user) == {}
    requires s.cfg.maxActive <= bound && |ActiveIds(s.docs, user)| <= bound
    requires Legal(Exec(s, acts), more) && OvershootCount(Exec(s, acts), more, user) == 0
    ensures CoversThroughout(Exec(s, acts), more, user, bound) <==> AllWellWritten(Exec(s, acts), more, user, bound)
    ensures AllWellWritten(Exec(s, acts), more, user, bound) ==> Covers(Exec(Exec(s, acts), more), user, bound)
  {
    ReconcileRestores(s, acts, r, user);
    RunMakesCounterRight(s, acts, r, user);
    SlotsAreConserved(s, acts);
    SurplusOfRun(s, acts, user);
    RunKeepsCoherence(s, acts);
    assert Balanced(Exec(s, acts), user);
    CounterCovers(Exec(s, acts), more, user, bound);
  }

  // ---------------------------------------------------------------------
  // There is such a run
  // ---------------------------------------------------------------------

  ghost predicate Alive(s: State, r: ReconId) {
    r in s.actors.recons && s.actors.recons[r].worker in s.actors.workers
    && s.actors.recons[r].todo <= s.actors.recons[r].truth.Keys
  }

  /** One more step before the rest of the run. */
  lemma OneStepFirst(s: State, a: Action, r: ReconId, rest: seq<Action>) returns (acts: seq<Action>)
    requires StepOf(s, a, r) && Legal(Next(s, a), rest) && Uninterrupted(Next(s, a), rest, r)
    ensures Legal(s, acts) && Uninterrupted(s, acts, r) && Exec(s, acts) == Exec(Next(s, a), rest)
  {
    acts := [a] + rest;
    assert acts[1..] == rest;
  }

  ghost function Droppable(s: State, r: ReconId): set<UserId>
    requires r in s.actors.recons
  {
    set user | user in s.redis.counters && LastSegment(user) !in s.actors.recons[r].truth
  }

  lemma {:induction false} DropsAll(s: State, r: ReconId) returns (acts: seq<Action>)
    requires Alive(s, r) && s.actors.recons[r].todo == {}
    ensures Legal(s, acts) && Uninterrupted(s, acts, r) && Finished(Exec(s, acts), r)
    decreases Droppable(s, r)
  {
    if Droppable(s, r) == {} {
      assert forall user :: user in s.redis.counters && LastSegment(user) !in s.actors.recons[r].truth ==> user in Droppable(s, r);
      acts := [];
    } else {
      var user :| user in Droppable(s, r);
      var a := OfRecon(r, DoDropCounter(user));
      assert Droppable(Next(s, a), r) == Droppable(s, r) - {user};
      var rest := DropsAll(Next(s, a), r);
      acts := OneStepFirst(s, a, r, rest);
    }
  }

  lemma {:induction false} VisitsAll(s: State, r: ReconId) returns (acts: seq<Action>)
    requires Alive(s, r)
    ensures Legal(s, acts) && Uninterrupted(s, acts, r) && Finished(Exec(s, acts), r)
    decreases s.actors.recons[r].todo
  {
    if s.actors.recons[r].todo == {} {
      acts := DropsAll(s, r);
    } else {
      var user :| user in s.actors.recons[r].todo;
      var a := OfRecon(r, DoSetCounter(user, true));
      var rest := VisitsAll(Next(s, a), r);
      acts := OneStepFirst(s, a, r, rest);
    }
  }

  /** Whatever crashes have done to the counters, a live worker can start a run
      and finish it uninterrupted. */
  lemma RunCanFinish(s: State, w: WorkerId) returns (acts: seq<Action>)
    requires w in s.actors.workers
    ensures var t := EnvNext(s, StartRecon(w));
            Begins(t, s.nextId) && Legal(t, acts) && Uninterrupted(t, acts, s.nextId) && Finished(Exec(t, acts), s.nextId)
  {
    acts := VisitsAll(StartReconStep(s, w), s.nextId);
  }
}
