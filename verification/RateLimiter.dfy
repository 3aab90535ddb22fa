/** The per-user concurrency limit: the two Lua scripts, the degraded path, and
    the reconciler that recomputes every counter from the collection. */
module RateLimiter {
  import opened Types
  import opened Keys
  import opened Repository

  // ---------------------------------------------------------------------
  // The Lua scripts, each one atomic step
  // ---------------------------------------------------------------------

  /** Whether the acquire script grants a slot. */
  predicate HasRoom<K(==)>(counters: map<K, nat>, key: K, limit: nat) {
    Get(counters, key, 0) < limit
  }

  /** The counters after the acquire script. */
  function Acquired<K(==)>(counters: map<K, nat>, key: K, limit: nat): map<K, nat> {
    if HasRoom(counters, key, limit) then counters[key := Get(counters, key, 0) + 1] else counters
  }

  /** The counters after the release script, which never goes below zero. */
  function Released<K(==)>(counters: map<K, nat>, key: K): map<K, nat> {
    if Get(counters, key, 0) <= 1 then counters - {key}
    else counters[key := Get(counters, key, 0) - 1]
  }

  // ---------------------------------------------------------------------
  // Reconciliation
  // ---------------------------------------------------------------------

  /** Keys the scan `ratelimit:active:*` yields. */
  predicate IsCounterKey(key: string) {
    RATE_PREFIX <= key
  }

  /** The user a counter key was made for. */
  function CounterUser(key: string): Option<UserId> {
    if IsCounterKey(key) then Some(key[|RATE_PREFIX|..]) else None
  }

  /** `dec` recovers exactly the users `enc` encodes. */
  ghost predicate Codec<K(!new)>(enc: UserId -> K, dec: K -> Option<UserId>) {
    forall k, u {:trigger dec(k), enc(u)} :: dec(k) == Some(u) <==> k == enc(u)
  }

  lemma CounterUserInverse(key: string, user: UserId)
    ensures CounterUser(key) == Some(user) <==> key == RateLimitKey(user)
  {}

  lemma CounterCodec()
    ensures Codec(RateLimitKey, CounterUser)
  {
    forall k, u ensures CounterUser(k) == Some(u) <==> k == RateLimitKey(u) {
      CounterUserInverse(k, u);
    }
  }

  /** Whether the first loop rewrites this user's counter. */
  predicate Differs<K(==)>(redis: map<K, nat>, truth: map<UserId, nat>, enc: UserId -> K, user: UserId)
    requires user in truth
  {
    enc(user) !in redis || redis[enc(user)] != truth[user]
  }

  ghost function DifferingUsers<K>(redis: map<K, nat>, truth: map<UserId, nat>, enc: UserId -> K): set<UserId> {
    set u | u in truth && Differs(redis, truth, enc, u)
  }

  /** Redis with every counter in `truth` written. */
  ghost function Written<K(!new)>(redis: map<K, nat>, truth: map<UserId, nat>, enc: UserId -> K, dec: K -> Option<UserId>): map<K, nat>
    requires Codec(enc, dec)
  {
    map k | k in redis.Keys + (set u | u in truth :: enc(u)) ::
      if dec(k).Some? && dec(k).value in truth then truth[dec(k).value] else redis[k]
  }

  /** One round of the first loop, seen on the whole map. */
  lemma WriteOne<K(!new)>(redis: map<K, nat>, truth: map<UserId, nat>, enc: UserId -> K, dec: K -> Option<UserId>, user: UserId, count: nat)
    requires Codec(enc, dec) && user !in truth
    ensures var w := Written(redis, truth, enc, dec);
            && (enc(user) in w <==> enc(user) in redis)
            && (enc(user) in redis ==> w[enc(user)] == redis[enc(user)])
            && Written(redis, truth[user := count], enc, dec) == w[enc(user) := count]
  {}

  lemma CountOne<K(!new)>(redis: map<K, nat>, truth: map<UserId, nat>, enc: UserId -> K, user: UserId, count: nat)
    requires user !in truth
    ensures |DifferingUsers(redis, truth[user := count], enc)|
         == |DifferingUsers(redis, truth, enc)|
            + (if enc(user) in redis && redis[enc(user)] == count then 0 else 1)
  {
    var more := truth[user := count];
    var before, after := DifferingUsers(redis, truth, enc), DifferingUsers(redis, more, enc);
    forall u | u != user ensures u in after <==> u in before {}
    SameWithout(before, after, user);
  }

  lemma NothingWritten<K(!new)>(redis: map<K, nat>, enc: UserId -> K, dec: K -> Option<UserId>)
    requires Codec(enc, dec)
    ensures Written(redis, map[], enc, dec) == redis
    ensures DifferingUsers(redis, map[], enc) == {}
  {}

  /** Redis after the first loop. */
  ghost function AfterSets(redis: map<string, nat>, truth: map<UserId, nat>): map<string, nat> {
    CounterCodec();
    Written(redis, truth, RateLimitKey, CounterUser)
  }

  /** Whether the second loop deletes this key: the user id is taken to be
      what follows the last colon. */
  predicate Swept(key: string, truth: map<UserId, nat>) {
    IsCounterKey(key) && LastSegment(key) !in truth
  }

  function SweptKeys(redis: map<string, nat>, truth: map<UserId, nat>): set<string> {
    set key | key in redis && Swept(key, truth)
  }

  /** Redis after a whole reconcile run with no other writer in between. */
  ghost function Reconciled(redis: map<string, nat>, truth: map<UserId, nat>): map<string, nat> {
    AfterSets(redis, truth) - SweptKeys(AfterSets(redis, truth), truth)
  }

  ghost function RepairCount(redis: map<string, nat>, truth: map<UserId, nat>): nat {
    |DifferingUsers(redis, truth, RateLimitKey)| + |SweptKeys(AfterSets(redis, truth), truth)|
  }

  /** How many rounds of each loop get through before Redis fails. */
  datatype Rounds = Rounds(sets: nat, drops: nat)

  /** A run that may be broken off: `done` are the rows visited, `left` the
      counter keys not scanned. */
  ghost predicate RanReconcile(was: map<string, nat>, after: map<string, nat>, truth: map<UserId, nat>, rounds: Rounds,
                               done: map<UserId, nat>, left: set<string>) {
    var half := AfterSets(was, done);
    && Visited(truth, rounds.sets, done)
    && (if CutShort(truth, rounds.sets) then after == half
        else NotScanned(half, rounds.drops, left) && after == half - Dropped(half, truth, left))
  }

  ghost predicate CutShort(truth: map<UserId, nat>, sets: nat) { sets < |truth.Keys| }

  /** The rows visited: all of them, or as many as get through. */
  ghost predicate Visited(truth: map<UserId, nat>, sets: nat, done: map<UserId, nat>) {
    && (forall u <- done :: u in truth && done[u] == truth[u])
    && (if CutShort(truth, sets) then |done.Keys| == sets else done == truth)
  }

  /** The keys not scanned: none, or all but as many as get through. */
  ghost predicate NotScanned(redis: map<string, nat>, drops: nat, left: set<string>) {
    && left <= CounterKeys(redis)
    && (if drops < |CounterKeys(redis)| then |left| == |CounterKeys(redis)| - drops else left == {})
  }

  ghost predicate BrokenOff(was: map<string, nat>, truth: map<UserId, nat>, rounds: Rounds) {
    CutShort(truth, rounds.sets) || rounds.drops < |CounterKeys(AfterSets(was, truth))|
  }

  /** A run that is not broken off leaves what `Reconciled` says. */
  lemma WholeRun(was: map<string, nat>, after: map<string, nat>, truth: map<UserId, nat>, rounds: Rounds,
                 done: map<UserId, nat>, left: set<string>)
    requires RanReconcile(was, after, truth, rounds, done, left) && !BrokenOff(was, truth, rounds)
    ensures after == Reconciled(was, truth)
  {
    AllDropped(AfterSets(was, truth), truth);
  }

  lemma AllButTodo(truth: map<UserId, nat>, sets: nat, done: map<UserId, nat>, todo: set<UserId>)
    requires todo <= truth.Keys && done.Keys == truth.Keys - todo && forall u <- done :: done[u] == truth[u]
    requires |truth.Keys| - |todo| <= sets && (todo == {} || |truth.Keys| - |todo| == sets)
    ensures Visited(truth, sets, done) && (CutShort(truth, sets) <==> todo != {})
  {
    assert truth.Keys == (truth.Keys - todo) + todo;
    if todo == {} { assert done == truth; }
  }

  datatype Decision = Decision(allowed: bool, active: nat, limit: nat, degraded: bool)

  class RateLimiter {
    var redis: map<string, nat>
    const repo: DocumentRepository
    const limit: nat

    constructor (repo: DocumentRepository, limit: nat)
      ensures redis == map[] && this.repo == repo && this.limit == limit
    {
      redis := map[];
      this.repo := repo;
      this.limit := limit;
    }

    /** Without an answer the collection decides, even if the script has taken
        a slot. */
    method Acquire(user: UserId, reply: Reply) returns (d: Decision)
      modifies this
      ensures redis == if reply.Took() then Acquired(old(redis), RateLimitKey(user), limit) else old(redis)
      ensures d.allowed <==> if reply.Answered? then HasRoom(old(redis), RateLimitKey(user), limit)
                             else |ActiveIds(repo.docs, user)| < limit
      ensures d.limit == limit && d.degraded == !reply.Answered?
      ensures d.active == if reply.Answered? then Get(redis, RateLimitKey(user), 0) else |ActiveIds(repo.docs, user)|
    {
      var key := RateLimitKey(user);
      var allowed := HasRoom(redis, key, limit);
      if reply.Took() {
        redis := Acquired(redis, key, limit);
      }
      if reply.Answered? {
        d := Decision(allowed, Get(redis, key, 0), limit, false);
      } else {
        var active := repo.CountActive(user);
        d := Decision(active < limit, active, limit, true);
      }
    }

    /** `up` tells whether the script runs. */
    method Release(user: UserId, up: bool)
      modifies this
      ensures redis == if up then Released(old(redis), RateLimitKey(user)) else old(redis)
    {
      if up {
        redis := Released(redis, RateLimitKey(user));
      }
    }

    /** An error ends the run where it is, and nothing is reported. */
    method Reconcile(rounds: Rounds) returns (repaired: nat, ghost done: map<UserId, nat>, ghost left: set<string>)
      modifies this
      ensures var (was, truth) := (old(redis), ActiveCounts(repo.docs));
              && RanReconcile(was, redis, truth, rounds, done, left)
              && repaired == (if BrokenOff(was, truth, rounds) then 0 else RepairCount(was, truth))
              && (!BrokenOff(was, truth, rounds) ==> redis == Reconciled(was, truth))
    {
      var truth := repo.ActiveCountsByUser();
      CounterCodec();
      var failed;
      left := {};
      repaired, failed, done := SetCounters(truth, RateLimitKey, CounterUser, rounds.sets);
      if !failed {
        var swept;
        swept, failed, left := DropIdleCounters(truth, rounds.drops);
        repaired := repaired + swept;
      }
      if failed {
        repaired := 0;
      } else {
        AllDropped(AfterSets(old(redis), truth), truth);
        WholeRun(old(redis), redis, truth, rounds, done, left);
      }
    }

    /** `for user_id, count in truth.items()`, for `sets` rounds or to the end. */
    method SetCounters(truth: map<UserId, nat>, enc: UserId -> string, ghost dec: string -> Option<UserId>, sets: nat)
      returns (repaired: nat, failed: bool, ghost done: map<UserId, nat>)
      requires Codec(enc, dec)
      modifies this
      ensures failed == CutShort(truth, sets) && Visited(truth, sets, done)
      ensures redis == Written(old(redis), done, enc, dec)
      ensures repaired == |DifferingUsers(old(redis), done, enc)|
    {
      repaired := 0;
      var todo := truth.Keys;
      var round := 0;
      done := map[];
      NothingWritten(redis, enc, dec);
      while todo != {} && round < sets
        invariant todo <= truth.Keys && round + |todo| == |truth.Keys| && round <= sets
        invariant done.Keys == truth.Keys - todo
        invariant forall u <- done :: done[u] == truth[u]
        invariant redis == Written(old(redis), done, enc, dec)
        invariant repaired == |DifferingUsers(old(redis), done, enc)|
      {
        var user :| user in todo;
        WriteOne(old(redis), done, enc, dec, user, truth[user]);
        CountOne(old(redis), done, enc, user, truth[user]);
        if Differs(redis, truth, enc, user) {
          redis := redis[enc(user) := truth[user]];
          repaired := repaired + 1;
        }
        todo, round := todo - {user}, round + 1;
        done := done[user := truth[user]];
      }
      failed := todo != {};
      AllButTodo(truth, sets, done, todo);
    }

    /** `async for key in scan_iter(...)`, for `drops` rounds or to the end. */
    method DropIdleCounters(truth: map<UserId, nat>, drops: nat) returns (dropped: nat, failed: bool, ghost left: set<string>)
      modifies this
      ensures failed == (drops < |CounterKeys(old(redis))|) && NotScanned(old(redis), drops, left)
      ensures redis == old(redis) - Dropped(old(redis), truth, left)
      ensures dropped == |Dropped(old(redis), truth, left)|
    {
      dropped := 0;
      var todo := CounterKeys(redis);
      var round := 0;
      ghost var gone: set<string> := {};
      NothingDropped(redis, truth);
      while todo != {} && round < drops
        invariant todo <= CounterKeys(old(redis)) && round + |todo| == |CounterKeys(old(redis))| && round <= drops
        invariant gone == Dropped(old(redis), truth, todo) && dropped == |gone|
        invariant redis == old(redis) - gone
      {
        var key :| key in todo;
        DropOne(old(redis), truth, todo, key);
        MinusMore(old(redis), gone, key);
        if LastSegment(key) !in truth {
          redis := redis - {key};
          dropped := dropped + 1;
          gone := gone + {key};
        }
        todo, round := todo - {key}, round + 1;
      }
      left, failed := todo, todo != {};
    }
  }

  function CounterKeys(redis: map<string, nat>): set<string> {
    set key | key in redis && IsCounterKey(key)
  }

  /** What the second loop has deleted when `todo` is still to be visited. */
  ghost function Dropped(redis: map<string, nat>, truth: map<UserId, nat>, todo: set<string>): set<string> {
    SweptKeys(redis, truth) - todo
  }

  lemma AllDropped(redis: map<string, nat>, truth: map<UserId, nat>)
    ensures Dropped(redis, truth, {}) == SweptKeys(redis, truth)
  {}

  lemma NothingDropped(redis: map<string, nat>, truth: map<UserId, nat>)
    ensures Dropped(redis, truth, CounterKeys(redis)) == {}
  {}

  lemma DropOne(redis: map<string, nat>, truth: map<UserId, nat>, todo: set<string>, key: string)
    requires key in todo && key in CounterKeys(redis)
    ensures key !in Dropped(redis, truth, todo)
    ensures Dropped(redis, truth, todo - {key})
         == if LastSegment(key) !in truth then Dropped(redis, truth, todo) + {key} else Dropped(redis, truth, todo)
  {}

  // ---------------------------------------------------------------------
  // What reconciliation achieves
  // ---------------------------------------------------------------------

  /** This user's counter says what the collection says. */
  predicate Exact(redis: map<string, nat>, truth: map<UserId, nat>, user: UserId) {
    var key := RateLimitKey(user);
    if user in truth then key in redis && redis[key] == truth[user] else key !in redis
  }

  /** The counter ends up right exactly when the id after the last colon is
      active too (active user), or is idle too or there was nothing to drop
      (idle user). Ids without a colon always meet the condition. */
  lemma ReconcileExactness(redis: map<string, nat>, truth: map<UserId, nat>, user: UserId)
    ensures Exact(Reconciled(redis, truth), truth, user) <==>
              if user in truth then LastSegment(user) in truth
              else RateLimitKey(user) !in redis || LastSegment(user) !in truth
    ensures ColonFree(user) ==> Exact(Reconciled(redis, truth), truth, user)
  {
    RateLimitKeyParse(user);
    AfterSetsAt(redis, truth, user);
  }

  lemma AfterSetsAt(redis: map<string, nat>, truth: map<UserId, nat>, user: UserId)
    ensures var key, after := RateLimitKey(user), AfterSets(redis, truth);
            && (user in truth ==> key in after && after[key] == truth[user])
            && (user !in truth ==> (key in after <==> key in redis) && (key in redis ==> after[key] == redis[key]))
  {}

  /** A counter key in Redis after the first loop, and the id in it. */
  lemma CounterKeyId(key: string) returns (user: UserId)
    requires IsCounterKey(key)
    ensures key == RateLimitKey(user) && user == key[|RATE_PREFIX|..]
  {
    user := key[|RATE_PREFIX|..];
    assert key == key[..|RATE_PREFIX|] + user;
  }

  /** Every id in play is colon-free: those with active documents and those
      some counter is kept for. */
  ghost predicate PlainIds(redis: map<string, nat>, truth: map<UserId, nat>) {
    && (forall u <- truth :: ColonFree(u))
    && (forall key <- redis :: IsCounterKey(key) ==> ColonFree(key[|RATE_PREFIX|..]))
  }

  /** Users without active documents that a counter is kept for. */
  ghost function IdleUsers(redis: map<string, nat>, truth: map<UserId, nat>): set<UserId> {
    set key | key in redis && IsCounterKey(key) && key[|RATE_PREFIX|..] !in truth :: key[|RATE_PREFIX|..]
  }

  /** Users whose counter was wrong before the run. */
  ghost function WrongUsers(redis: map<string, nat>, truth: map<UserId, nat>): set<UserId> {
    DifferingUsers(redis, truth, RateLimitKey) + IdleUsers(redis, truth)
  }

  lemma WrongUsersAreWrong(redis: map<string, nat>, truth: map<UserId, nat>, user: UserId)
    ensures user in WrongUsers(redis, truth) <==> !Exact(redis, truth, user)
  {
    var key := RateLimitKey(user);
    assert IsCounterKey(key) && key[|RATE_PREFIX|..] == user;
    forall k | k in redis && IsCounterKey(k) && k[|RATE_PREFIX|..] == user ensures k == key {
      var u := CounterKeyId(k);
    }
  }

  /** The value returned is the number of users whose counter was wrong. */
  lemma RepairCountIsWrongUsers(redis: map<string, nat>, truth: map<UserId, nat>)
    requires PlainIds(redis, truth)
    ensures RepairCount(redis, truth) == |WrongUsers(redis, truth)|
  {
    SweptAreIdle(redis, truth);
    assert DifferingUsers(redis, truth, RateLimitKey) !! IdleUsers(redis, truth);
  }

  lemma SweptAreIdle(redis: map<string, nat>, truth: map<UserId, nat>)
    requires PlainIds(redis, truth)
    ensures |SweptKeys(AfterSets(redis, truth), truth)| == |IdleUsers(redis, truth)|
  {
    var swept := SweptKeys(AfterSets(redis, truth), truth);
    forall key ensures key in swept <==> key in redis && IsCounterKey(key) && key[|RATE_PREFIX|..] !in truth {
      SweptIffIdle(redis, truth, key);
    }
    SameSize(swept, IdleUsers(redis, truth));
  }

  lemma SweptIffIdle(redis: map<string, nat>, truth: map<UserId, nat>, key: string)
    requires PlainIds(redis, truth)
    ensures key in SweptKeys(AfterSets(redis, truth), truth) <==>
              key in redis && IsCounterKey(key) && key[|RATE_PREFIX|..] !in truth
  {
    if IsCounterKey(key) {
      var user := CounterKeyId(key);
      RateLimitKeyParse(user);
      AfterSetsAt(redis, truth, user);
    }
  }

  /** Counter keys and the user ids in them are in one-to-one correspondence. */
  lemma {:induction false} SameSize(keys: set<string>, users: set<UserId>)
    requires forall key <- keys :: IsCounterKey(key)
    requires users == set key | key in keys && IsCounterKey(key) :: key[|RATE_PREFIX|..]
    ensures |keys| == |users|
    decreases |keys|
  {
    if keys == {} {
      assert users == {};
    } else {
      var key :| key in keys;
      var user := CounterKeyId(key);
      var keys', users' := keys - {key}, users - {user};
      forall k | k in keys && k[|RATE_PREFIX|..] == user ensures k == key {
        var u := CounterKeyId(k);
      }
      assert users' == set k | k in keys' && IsCounterKey(k) :: k[|RATE_PREFIX|..];
      SameSize(keys', users');
    }
  }

  /** Every active id is followed, after its last colon, by an active id. */
  ghost predicate SegmentsActive(truth: map<UserId, nat>) {
    forall u :: u in truth ==> LastSegment(u) in truth
  }

  /** A second run right after the first finds nothing to repair exactly when
      every active id ends in an active id after its last colon; otherwise each
      run keeps rewriting and deleting the same counters. */
  lemma SecondRunIsIdle(redis: map<string, nat>, truth: map<UserId, nat>)
    ensures RepairCount(Reconciled(redis, truth), truth) == 0 <==> SegmentsActive(truth)
  {
    var once := Reconciled(redis, truth);
    var differing := DifferingUsers(once, truth, RateLimitKey);
    forall u | u in truth ensures u in differing <==> LastSegment(u) !in truth {
      ReconcileExactness(redis, truth, u);
    }
    if SegmentsActive(truth) {
      assert differing == {};
      NothingLeftToSweep(redis, truth);
    } else {
      var u :| u in truth && LastSegment(u) !in truth;
      assert u in differing;
      assert |differing| > 0;
    }
  }

  lemma NothingLeftToSweep(redis: map<string, nat>, truth: map<UserId, nat>)
    requires SegmentsActive(truth)
    ensures SweptKeys(AfterSets(Reconciled(redis, truth), truth), truth) == {}
  {
    var once := Reconciled(redis, truth);
    forall key | key in AfterSets(once, truth) && IsCounterKey(key) ensures LastSegment(key) in truth {
      var user := CounterKeyId(key);
      RateLimitKeyParse(user);
      AfterSetsAt(once, truth, user);
    }
  }

  lemma {:induction false} LastSegmentHasNoColon(key: string)
    ensures ColonFree(LastSegment(key))
  {
    if key != "" && key[|key| - 1] != ':' {
      LastSegmentHasNoColon(key[..|key| - 1]);
    }
  }

  /** Any id with a colon, active alone, loses its counter. */
  lemma SoleColonIdLosesItsCounter(redis: map<string, nat>, user: UserId, count: nat)
    requires !ColonFree(user)
    ensures !Exact(Reconciled(redis, map[user := count]), map[user := count], user)
  {
    LastSegmentHasNoColon(user);
    ReconcileExactness(redis, map[user := count], user);
  }

  /** A run that is broken off does no harm: a counter of an id without colon
      is right afterwards, or what it was. */
  lemma BrokenRunDoesNoHarm(was: map<string, nat>, after: map<string, nat>, truth: map<UserId, nat>, rounds: Rounds,
                            done: map<UserId, nat>, left: set<string>, user: UserId)
    requires RanReconcile(was, after, truth, rounds, done, left) && ColonFree(user)
    ensures var key := RateLimitKey(user);
            Exact(after, truth, user) || ((key in after <==> key in was) && (key in was ==> after[key] == was[key]))
  {
    RateLimitKeyParse(user);
    AfterSetsAt(was, done, user);
  }
}
