/** One pass of the periodic repair, stage by stage. */
module Sweeper {
  import opened Types
  import opened Repository
  import opened RateLimiter
  import opened Queue

  const RECONCILE_EVERY: nat := 20

  datatype SweepResult = SweepResult(reclaimed: nat, promoted: nat, requeued: nat, reconciled: nat)

  /** What the pass may count on: how many publishes each stage gets accepted
      before Redis fails, whether the pop script gets through, and how far the
      reconciler gets. */
  datatype Luck = Luck(reclaimPublishes: nat, popUp: bool, promotePublishes: nat, stalePublishes: nat, rounds: Rounds)

  /** The ids a stage got onto the stream. */
  function Accepted(ids: seq<DocId>, accepted: nat): (r: seq<DocId>)
    ensures r <= ids && |r| == if accepted < |ids| then accepted else |ids|
  {
    if accepted < |ids| then ids[..accepted] else ids
  }

  class SweeperProcess {
    const repo: DocumentRepository
    const stream: DocumentStream
    const delay: DelayQueue
    const limiter: RateLimiter
    const staleQueued: real
    var passes: nat

    ghost predicate Valid()
      reads this, stream
    {
      stream.Valid() && delay.stream == stream && limiter.repo == repo
    }

    constructor (repo: DocumentRepository, stream: DocumentStream, delay: DelayQueue, limiter: RateLimiter, staleQueued: real)
      requires stream.Valid() && delay.stream == stream && limiter.repo == repo
      ensures Valid() && passes == 0
      ensures this.repo == repo && this.stream == stream && this.delay == delay && this.limiter == limiter
      ensures this.staleQueued == staleQueued
    {
      this.repo, this.stream, this.delay, this.limiter := repo, stream, delay, limiter;
      this.staleQueued, passes := staleQueued, 0;
    }

    /** Publish in order until done or until Redis fails. */
    method PublishEach(ids: seq<DocId>, accepted: nat) returns (failed: bool)
      requires Valid()
      modifies stream`log
      ensures Valid() && failed == (accepted < |ids|)
      ensures stream.log == old(stream.log) + AllSome(Accepted(ids, accepted))
    {
      var i := 0;
      while i < |ids|
        invariant 0 <= i <= |ids| && i <= accepted && Valid()
        invariant stream.log == old(stream.log) + AllSome(ids[..i])
      {
        var ok := stream.Publish(ids[i], if i < accepted then Answered else NotDone);
        if !ok {
          return true;
        }
        i := i + 1;
      }
      assert ids[..i] == ids;
      failed := false;
    }

    /** A pass with no other writer in between. A failed publish ends it: what
        was reset or popped and not yet published stays off the stream, the
        later stages do not run, and the next pass repairs what is left. */
    method SweepOnce(now: Time, luck: Luck)
      returns (result: SweepResult, failed: bool, ghost reclaimed: seq<DocId>, ghost due: seq<DocId>, ghost stale: seq<DocId>,
               ghost done: map<UserId, nat>, ghost left: set<string>)
      requires Valid()
      modifies this`passes, repo, stream`log, delay, limiter
      ensures Valid() && passes == old(passes) + 1
      ensures IsCursor(reclaimed, old(ExpiredIds(repo.docs, now)), SCAN_LIMIT)
      ensures repo.docs == ReclaimAll(old(repo.docs), RowSet(reclaimed), now)
      ensures var first := luck.reclaimPublishes < |reclaimed|;
              var second := !first && luck.popUp && luck.promotePublishes < |due|;
              var third := !first && !second && luck.stalePublishes < |stale|;
              && failed == (first || second || third)
              && (first || !luck.popUp ==> due == [] && delay.zset == old(delay.zset))
              && (!first && luck.popUp ==>
                    IsLowestDue(due, old(delay.zset), now, SCAN_LIMIT) && delay.zset == old(delay.zset) - RowSet(due))
              && (first || second ==> stale == [])
              && (!first && !second ==> IsCursor(stale, StaleIds(repo.docs, now - staleQueued, now), SCAN_LIMIT))
              && stream.log == old(stream.log) + AllSome(Accepted(reclaimed, luck.reclaimPublishes))
                               + AllSome(Accepted(due, luck.promotePublishes)) + AllSome(Accepted(stale, luck.stalePublishes))
              && (if !failed && passes % RECONCILE_EVERY == 0
                  then RanReconcile(old(limiter.redis), limiter.redis, ActiveCounts(repo.docs), luck.rounds, done, left)
                  else limiter.redis == old(limiter.redis))
              && (!failed ==> result.reclaimed == |reclaimed| && result.promoted == |due| && result.requeued == |stale|)
    {
      result, failed, due, stale := SweepResult(0, 0, 0, 0), false, [], [];
      done, left := map[], {};
      passes := passes + 1;

      var expired := repo.ReclaimExpiredLeases(now, SCAN_LIMIT);
      reclaimed := expired;
      failed := PublishEach(expired, luck.reclaimPublishes);
      if failed {
        return;
      }
      var promoted, promoteFailed, popped := delay.PromoteDue(now, SCAN_LIMIT, luck.popUp, luck.promotePublishes);
      due := popped;
      failed := promoteFailed;
      if failed {
        return;
      }
      var rows := repo.FindStaleQueued(now - staleQueued, now, SCAN_LIMIT);
      stale := rows;
      failed := PublishEach(rows, luck.stalePublishes);
      if failed {
        return;
      }
      var reconciled := 0;
      if passes % RECONCILE_EVERY == 0 {
        reconciled, done, left := limiter.Reconcile(luck.rounds);
      }
      result := SweepResult(|expired|, promoted, |rows|, reconciled);
    }
  }
}
