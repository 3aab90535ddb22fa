/** The document collection: every write is one filtered update. The functions
    say what each update does to a record; the class performs them in place. */
module Repository {
  import opened Text
  import opened Types

  type Docs = map<DocId, Doc>

  // ---------------------------------------------------------------------
  // Filters
  // ---------------------------------------------------------------------

  predicate IsQueued(docs: Docs, id: DocId) {
    id in docs && docs[id].status.Queued?
  }

  /** The filter of every settling write: processing, and held by `worker`. */
  predicate Owns(docs: Docs, id: DocId, worker: WorkerId) {
    id in docs && docs[id].status.Processing? && docs[id].workerId == Some(worker)
  }

  predicate LeaseExpired(d: Doc, now: Time) {
    d.status.Processing? && d.leaseExpiresAt.Some? && d.leaseExpiresAt.value < now
  }

  predicate HoldsLease(docs: Docs, id: DocId, lease: Time) {
    id in docs && docs[id].status.Processing? && docs[id].leaseExpiresAt == Some(lease)
  }

  predicate IsStale(d: Doc, olderThan: Time, now: Time) {
    && d.status.Queued?
    && d.updatedAt < olderThan
    && (d.nextAttemptAt.Some? ==> d.nextAttemptAt.value <= now)
  }

  /** A document that was processed itself, not served from the cache. */
  predicate IsGenuine(d: Doc, user: UserId, hash: ContentHash) {
    d.user == user && d.hash == hash && d.status.Completed? && d.summary.Some? && !d.fromCache
  }

  // ---------------------------------------------------------------------
  // Updates
  // ---------------------------------------------------------------------

  function ClaimDoc(d: Doc, worker: WorkerId, lease: real, now: Time): Doc {
    d.(status := Processing, workerId := Some(worker), leaseExpiresAt := Some(now + lease),
       updatedAt := now, attempts := d.attempts + 1)
  }

  function CompleteDoc(d: Doc, summary: Summary, now: Time): Doc {
    d.(status := Completed, summary := Some(summary), error := None, workerId := None,
       leaseExpiresAt := None, nextAttemptAt := None, updatedAt := now)
  }

  function RetryDoc(d: Doc, error: ProcessingError, nextAttemptAt: Time, now: Time): Doc {
    d.(status := Queued, error := Some(error), workerId := None, leaseExpiresAt := None,
       nextAttemptAt := Some(nextAttemptAt), updatedAt := now)
  }

  function FailDoc(d: Doc, error: ProcessingError, now: Time): Doc {
    d.(status := Failed, error := Some(error), workerId := None, leaseExpiresAt := None,
       nextAttemptAt := None, updatedAt := now)
  }

  /** Lease recovery leaves `nextAttemptAt` and `attempts` alone. */
  function ReclaimDoc(d: Doc, foundAt: Time): Doc {
    d.(status := Queued, workerId := None, leaseExpiresAt := None, updatedAt := foundAt)
  }

  // ---------------------------------------------------------------------
  // Queries
  // ---------------------------------------------------------------------

  function ActiveIds(docs: Docs, user: UserId): set<DocId> {
    set id | id in docs && docs[id].user == user && docs[id].status.Active()
  }

  function ActiveUsers(docs: Docs): set<UserId> {
    set id | id in docs && docs[id].status.Active() :: docs[id].user
  }

  /** `active_counts_by_user`: users with nothing active have no row. */
  function ActiveCounts(docs: Docs): map<UserId, nat> {
    map u | u in ActiveUsers(docs) :: |ActiveIds(docs, u)|
  }

  function ExpiredIds(docs: Docs, now: Time): set<DocId> {
    set id | id in docs && LeaseExpired(docs[id], now)
  }

  function StaleIds(docs: Docs, olderThan: Time, now: Time): set<DocId> {
    set id | id in docs && IsStale(docs[id], olderThan, now)
  }

  function GenuineIds(docs: Docs, user: UserId, hash: ContentHash): set<DocId> {
    set id | id in docs && IsGenuine(docs[id], user, hash)
  }

  ghost predicate IsOldest(docs: Docs, ids: set<DocId>, id: DocId) {
    id in ids && id in docs && forall other <- ids :: other in docs ==> docs[id].createdAt <= docs[other].createdAt
  }

  ghost predicate NoRepeats(rows: seq<DocId>) {
    forall i, j :: 0 <= i < j < |rows| ==> rows[i] != rows[j]
  }

  /** What a cursor with a limit yields: distinct matches, as many as there
      are up to the limit, in no promised order. */
  ghost predicate IsCursor(rows: seq<DocId>, ids: set<DocId>, limit: nat) {
    && NoRepeats(rows)
    && (forall id <- rows :: id in ids)
    && |rows| == if |ids| < limit then |ids| else limit
  }

  /** The batch size of every recovery query. */
  const SCAN_LIMIT: nat := 100

  function RowSet(rows: seq<DocId>): set<DocId> {
    set id | id in rows
  }

  /** The collection after the rows of one recovery pass were taken back. */
  function ReclaimAll(docs: Docs, ids: set<DocId>, foundAt: Time): Docs {
    map id | id in docs :: if id in ids then ReclaimDoc(docs[id], foundAt) else docs[id]
  }

  // ---------------------------------------------------------------------
  // The repository
  // ---------------------------------------------------------------------

  class DocumentRepository {
    var docs: Docs

    constructor ()
      ensures docs == map[]
    {
      docs := map[];
    }

    method Insert(id: DocId, d: Doc)
      requires id !in docs
      modifies this
      ensures docs == old(docs)[id := d]
    {
      docs := docs[id := d];
    }

    /** queued -> processing, then the separate read that builds the result. */
    method Claim(id: DocId, worker: WorkerId, lease: real, now: Time) returns (claimed: Option<Doc>)
      modifies this
      ensures old(IsQueued(docs, id)) ==>
                && docs == old(docs)[id := ClaimDoc(old(docs[id]), worker, lease, now)]
                && claimed == Some(docs[id])
      ensures !old(IsQueued(docs, id)) ==> docs == old(docs) && claimed == None
    {
      if !IsQueued(docs, id) {
        return None;
      }
      docs := docs[id := ClaimDoc(docs[id], worker, lease, now)];
      claimed := Some(docs[id]);
    }

    /** `_transition`: the update lands exactly when the filter matches. */
    method Transition(id: DocId, worker: WorkerId, updated: Doc -> Doc) returns (matched: bool)
      modifies this
      ensures matched == old(Owns(docs, id, worker))
      ensures docs == if matched then old(docs)[id := updated(old(docs)[id])] else old(docs)
    {
      matched := Owns(docs, id, worker);
      if matched {
        docs := docs[id := updated(docs[id])];
      }
    }

    method Complete(id: DocId, worker: WorkerId, summary: Summary, now: Time) returns (matched: bool)
      modifies this
      ensures matched == old(Owns(docs, id, worker))
      ensures docs == if matched then old(docs)[id := CompleteDoc(old(docs)[id], summary, now)] else old(docs)
    {
      matched := Transition(id, worker, d => CompleteDoc(d, summary, now));
    }

    method ScheduleRetry(id: DocId, worker: WorkerId, error: ProcessingError, nextAttemptAt: Time, now: Time)
      returns (matched: bool)
      modifies this
      ensures matched == old(Owns(docs, id, worker))
      ensures docs == if matched then old(docs)[id := RetryDoc(old(docs)[id], error, nextAttemptAt, now)]
                      else old(docs)
    {
      matched := Transition(id, worker, d => RetryDoc(d, error, nextAttemptAt, now));
    }

    method MarkFailed(id: DocId, worker: WorkerId, error: ProcessingError, now: Time) returns (matched: bool)
      modifies this
      ensures matched == old(Owns(docs, id, worker))
      ensures docs == if matched then old(docs)[id := FailDoc(old(docs)[id], error, now)] else old(docs)
    {
      matched := Transition(id, worker, d => FailDoc(d, error, now));
    }

    /** One pass of lease recovery, with no other writer in between: the rows
        found are exactly the rows reset. */
    method ReclaimExpiredLeases(now: Time, limit: nat) returns (reclaimed: seq<DocId>)
      modifies this
      ensures IsCursor(reclaimed, old(ExpiredIds(docs, now)), limit)
      ensures docs == ReclaimAll(old(docs), RowSet(reclaimed), now)
    {
      var expired := Fetch(ExpiredIds(docs, now), limit);
      var found := docs;
      reclaimed := [];
      var i := 0;
      while i < |expired|
        invariant 0 <= i <= |expired|
        invariant reclaimed == expired[..i]
        invariant docs == ReclaimAll(found, RowSet(expired[..i]), now)
      {
        var id := expired[i];
        assert id in ExpiredIds(found, now);
        var lease := found[id].leaseExpiresAt.value;
        assert id !in RowSet(expired[..i]);
        if HoldsLease(docs, id, lease) {
          docs := docs[id := ReclaimDoc(docs[id], now)];
          reclaimed := reclaimed + [id];
        }
        assert RowSet(expired[..i + 1]) == RowSet(expired[..i]) + {id};
        i := i + 1;
      }
      assert expired[..i] == expired;
    }

    /** Queued, last written before `olderThan`, and with no next attempt still
        ahead: all of them, up to the limit. */
    method FindStaleQueued(olderThan: Time, now: Time, limit: nat) returns (rows: seq<DocId>)
      ensures IsCursor(rows, StaleIds(docs, olderThan, now), limit)
      ensures forall id <- rows :: id in docs && docs[id].status.Queued? && docs[id].updatedAt < olderThan
                                   && (docs[id].nextAttemptAt.Some? ==> docs[id].nextAttemptAt.value <= now)
      ensures |rows| < limit ==>
                forall id <- docs :: (docs[id].status.Queued? && docs[id].updatedAt < olderThan
                                      && (docs[id].nextAttemptAt.Some? ==> docs[id].nextAttemptAt.value <= now)) ==> id in rows
    {
      rows := Fetch(StaleIds(docs, olderThan, now), limit);
      if |rows| < limit { CursorTakesAll(rows, StaleIds(docs, olderThan, now), limit); }
    }

    method CountActive(user: UserId) returns (n: nat)
      ensures n == |ActiveIds(docs, user)|
    {
      n := |ActiveIds(docs, user)|;
    }

    method ActiveCountsByUser() returns (counts: map<UserId, nat>)
      ensures counts == ActiveCounts(docs)
    {
      counts := ActiveCounts(docs);
    }

    /** The oldest genuinely processed document for this user and content. */
    method FindCompletedByHash(user: UserId, hash: ContentHash) returns (found: Option<DocId>)
      ensures found == None <==> GenuineIds(docs, user, hash) == {}
      ensures found.Some? ==> IsOldest(docs, GenuineIds(docs, user, hash), found.value)
      ensures found.Some? ==>
                var d := docs[found.value];
                && d.user == user && d.hash == hash && d.status.Completed? && !d.fromCache
                && forall id <- docs :: (docs[id].user == user && docs[id].hash == hash && docs[id].status.Completed?
                                         && docs[id].summary.Some? && !docs[id].fromCache) ==> d.createdAt <= docs[id].createdAt
    {
      var todo := GenuineIds(docs, user, hash);
      ghost var all := todo;
      found := None;
      while todo != {}
        invariant todo <= all
        invariant found == None ==> todo == all
        invariant found.Some? ==> IsOldest(docs, all - todo, found.value)
        decreases |todo|
      {
        var id :| id in todo;
        if found == None || docs[id].createdAt < docs[found.value].createdAt {
          found := Some(id);
        }
        todo := todo - {id};
      }
      assert all - {} == all;
    }
  }

  /** Below its limit a cursor leaves nothing out. */
  lemma CursorTakesAll(rows: seq<DocId>, ids: set<DocId>, limit: nat)
    requires IsCursor(rows, ids, limit) && |rows| < limit
    ensures forall id <- ids :: id in rows
  {
    RowsAreDistinct(rows);
    assert RowSet(rows) <= ids && ids == RowSet(rows) + (ids - RowSet(rows));
  }

  lemma {:induction false} RowsAreDistinct(rows: seq<DocId>)
    requires NoRepeats(rows)
    ensures |RowSet(rows)| == |rows|
  {
    if rows != [] {
      var init := rows[..|rows| - 1];
      RowsAreDistinct(init);
      assert RowSet(rows) == RowSet(init) + {rows[|rows| - 1]};
    }
  }

  /** A cursor read to its limit. */
  method Fetch(ids: set<DocId>, limit: nat) returns (rows: seq<DocId>)
    ensures IsCursor(rows, ids, limit)
  {
    rows := [];
    var todo := ids;
    while todo != {} && |rows| < limit
      invariant NoRepeats(rows)
      invariant forall id <- rows :: id in ids && id !in todo
      invariant todo <= ids && |rows| + |todo| == |ids| && |rows| <= limit
      decreases |todo|
    {
      var id :| id in todo;
      todo := todo - {id};
      rows := rows + [id];
    }
  }

  /** `active_counts_by_user` and `count_active` agree, and a user without a
      row has nothing active. */
  lemma CountsAgree(docs: Docs, user: UserId)
    ensures Get(ActiveCounts(docs), user, 0) == |ActiveIds(docs, user)|
    ensures user in ActiveCounts(docs) <==> |ActiveIds(docs, user)| > 0
  {
    if user in ActiveUsers(docs) {
      var id :| id in docs && docs[id].status.Active() && docs[id].user == user;
      assert id in ActiveIds(docs, user);
    } else {
      assert ActiveIds(docs, user) == {};
    }
  }

  /** How one write changes a user's active count. */
  lemma ActiveCountAfterWrite(docs: Docs, id: DocId, d: Doc, user: UserId)
    ensures |ActiveIds(docs[id := d], user)|
         == |ActiveIds(docs, user)|
            - (if id in ActiveIds(docs, user) then 1 else 0)
            + (if d.user == user && d.status.Active() then 1 else 0)
  {
    var docs' := docs[id := d];
    var before, after := ActiveIds(docs, user), ActiveIds(docs', user);
    assert id in after <==> d.user == user && d.status.Active();
    forall i | i != id ensures i in after <==> i in before {}
    SameWithout(before, after, id);
  }
}
