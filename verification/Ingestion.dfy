/** The submit flow: the guards in their order, and what each early exit gives
    back. */
module Ingestion {
  import opened Text
  import opened Types
  import opened Keys
  import opened Repository
  import opened RateLimiter
  import opened Cache
  import opened Queue
  import opened Summarizer

  const SETTLE_ATTEMPTS: nat := 10

  datatype Refusal = TooLong | RateLimited | Settling | NotStored | NotQueued

  datatype SubmitResult = FromCache(id: DocId) | Joined(id: DocId) | Created(id: DocId) | Refused(why: Refusal)

  /** How the commands go, should they be made. Of those whose failure is only
      logged it matters no more than whether they take effect. */
  datatype Net = Net(
    read: bool, fill: bool, guard: Reply, peek: bool, acquire: Reply,
    insert: Reply, publish: Reply, release: bool, unguard: bool) {
    /** The document is stored and on the stream, and this is known. */
    predicate Enqueues() { insert.Answered? && publish.Answered? }
  }

  /** A summary restored from the record, attributed if it was not. */
  function Attributed(id: DocId, d: Doc): (found: Summary)
    requires d.summary.Some?
    ensures found.document.Some? && found == d.summary.value.(document := found.document)
    ensures d.summary.value.document.Some? ==> found == d.summary.value
    ensures d.summary.value.document == None ==>
              var ref := found.document.value;
              && ref.documentId == id && ref.userId == d.user && ref.title == d.title
              && ref.contentHash == d.hash && ref.submittedAt == d.createdAt
  {
    if d.summary.value.document == None then d.summary.value.(document := Some(RefOf(id, d))) else d.summary.value
  }

  /** The record of a submission answered from the cache. */
  function CachedDoc(user: UserId, title: string, content: string, hash: ContentHash, id: DocId, found: Summary, now: Time): Doc {
    var blank := NewDoc(user, title, content, hash, now).(status := Completed, fromCache := true);
    blank.(summary := Some(AsDuplicate(found, RefOf(id, blank))))
  }

  // ---------------------------------------------------------------------
  // What a submission does to the stores
  // ---------------------------------------------------------------------

  /** What a submission touches; `K` is how the limiter names a user, `L` what
      the stream holds. */
  datatype Stores<K, L> = Stores(
    docs: Docs,
    entries: map<Key, Summary>,
    counters: map<K, nat>,
    guards: map<Key, DocId>,
    log: seq<L>)

  /** A cached summary is the entry or, failing that, the attributed summary
      of the oldest genuinely processed record. */
  ghost predicate Answers<K, L>(was: Stores<K, L>, key: Key, read: bool, found: Summary) {
    if read && key in was.entries then found == was.entries[key]
    else exists g: DocId :: IsOldest(was.docs, GenuineIds(was.docs, key.0, key.1), g)
                            && was.docs[g].summary.Some? && found == Attributed(g, was.docs[g])
  }

  /** It is stored as completed; a summary from the record refills the cache. */
  ghost function AfterHit<K, L>(was: Stores<K, L>, id: DocId, d: Doc, found: Summary, net: Net): Stores<K, L> {
    var key := (d.user, d.hash);
    var refilled := !(net.read && key in was.entries) && net.fill;
    was.(docs := was.docs[id := d], entries := if refilled then was.entries[key := found] else was.entries)
  }

  /** There is a slot: by the counter, or, degraded, by the collection. */
  ghost predicate Room<K, L>(was: Stores<K, L>, slot: K, user: UserId, limit: nat, net: Net) {
    if net.acquire.Answered? then HasRoom(was.counters, slot, limit) else |ActiveIds(was.docs, user)| < limit
  }

  /** What becomes of a submission with no cached summary: a duplicate joins
      and changes nothing; one over the limit gives the guard back; the rest
      is enqueued, or gives back slot and guard. A record or an entry stays if
      only the answer was lost; so does a slot taken without an answer. */
  ghost function AfterUncached<K, L>(was: Stores<K, L>, slot: K, entry: L, id: DocId, d: Doc, limit: nat, net: Net): Stores<K, L> {
    var key := (d.user, d.hash);
    var held := if net.guard.Took() then GuardSet(was.guards, key, id) else was.guards;
    var acquired := if net.acquire.Took() then Acquired(was.counters, slot, limit) else was.counters;
    if net.guard.Answered? && net.peek && key in was.guards then was
    else if !Room(was, slot, d.user, limit, net) then
      was.(counters := acquired, guards := if net.unguard then held - {key} else held)
    else was.(docs := if net.insert.Took() then was.docs[id := d] else was.docs,
              log := if net.insert.Answered? && net.publish.Took() then was.log + [entry] else was.log,
              counters := if !net.Enqueues() && net.release then Released(acquired, slot) else acquired,
              guards := if !net.Enqueues() && net.unguard then held - {key} else held)
  }

  ghost predicate Known<K, L>(was: Stores<K, L>, key: Key, read: bool) {
    (read && key in was.entries) || GenuineIds(was.docs, key.0, key.1) != {}
  }

  /** The whole flow. */
  ghost predicate AfterSubmit<K, L>(was: Stores<K, L>, after: Stores<K, L>, slot: K, entry: L, id: DocId,
                                   user: UserId, title: string, content: string, now: Time, limit: nat, net: Net) {
    var key := (user, HashContent(content));
    if Known(was, key, net.read) then
      exists found :: Answers(was, key, net.read, found)
                      && after == AfterHit(was, id, CachedDoc(user, title, content, key.1, id, found, now), found, net)
    else
      after == AfterUncached(was, slot, entry, id, NewDoc(user, title, content, key.1, now), limit, net)
  }

  class IngestionService {
    const repo: DocumentRepository
    const cache: SummaryCache
    const limiter: RateLimiter
    const stream: DocumentStream
    const maxContent: nat

    ghost predicate Valid()
      reads this, repo, stream
    {
      stream.Valid() && limiter.repo == repo
    }

    constructor (repo: DocumentRepository, cache: SummaryCache, limiter: RateLimiter, stream: DocumentStream, maxContent: nat)
      requires stream.Valid() && limiter.repo == repo
      ensures Valid()
      ensures this.repo == repo && this.cache == cache && this.limiter == limiter && this.stream == stream
      ensures this.maxContent == maxContent
    {
      this.repo, this.cache, this.limiter, this.stream, this.maxContent := repo, cache, limiter, stream, maxContent;
    }

    /** Redis first, then the oldest genuinely processed record, which refills
        the cache. */
    method LookupCachedSummary(user: UserId, hash: ContentHash, net: Net) returns (found: Option<Summary>)
      modifies cache`entries
      ensures var hit := net.read && (user, hash) in old(cache.entries);
              && (hit ==> found == Some(old(cache.entries)[(user, hash)]) && cache.entries == old(cache.entries))
              && (!hit ==> (found.Some? <==> GenuineIds(repo.docs, user, hash) != {}))
              && (!hit && found.Some? ==>
                    && (exists g: DocId :: IsOldest(repo.docs, GenuineIds(repo.docs, user, hash), g)
                                    && repo.docs[g].summary.Some? && found.value == Attributed(g, repo.docs[g]))
                    && cache.entries == if net.fill then old(cache.entries)[(user, hash) := found.value] else old(cache.entries))
              && (found == None ==> cache.entries == old(cache.entries))
    {
      found := cache.Read(user, hash, net.read);
      if found.Some? {
        return;
      }
      var previous := repo.FindCompletedByHash(user, hash);
      if previous.Some? {
        found := Some(Attributed(previous.value, repo.docs[previous.value]));
        cache.Store(user, hash, found.value, net.fill);
      }
    }

    /** Wait for the winner's insert: at most ten reads, and one pause less
        than reads. `seen(k)` is what read number `k` finds. */
    method JoinInflightDuplicate(other: DocId, seen: nat -> bool) returns (r: SubmitResult, polls: nat, pauses: nat)
      ensures 1 <= polls <= SETTLE_ATTEMPTS && pauses == polls - 1
      ensures r == (if seen(polls - 1) then Joined(other) else Refused(Settling))
      ensures forall k: nat :: k < polls - 1 ==> !seen(k)
      ensures r == Joined(other) <==> exists k: nat :: k < SETTLE_ATTEMPTS && seen(k)
    {
      polls, pauses := 0, 0;
      while polls < SETTLE_ATTEMPTS
        invariant polls <= SETTLE_ATTEMPTS
        invariant pauses == if polls == SETTLE_ATTEMPTS then polls - 1 else polls
        invariant forall k: nat :: k < polls ==> !seen(k)
      {
        polls := polls + 1;
        if seen(polls - 1) {
          return Joined(other), polls, pauses;
        }
        if polls < SETTLE_ATTEMPTS {
          pauses := pauses + 1;
        }
      }
      r := Refused(Settling);
    }

    /** A slot, or the guard is given back. */
    method AcquireSlot(user: UserId, hash: ContentHash, net: Net) returns (allowed: bool)
      requires Valid()
      modifies limiter, cache`guards
      ensures allowed <==> if net.acquire.Answered? then HasRoom(old(limiter.redis), RateLimitKey(user), limiter.limit)
                           else |ActiveIds(repo.docs, user)| < limiter.limit
      ensures limiter.redis == if net.acquire.Took() then Acquired(old(limiter.redis), RateLimitKey(user), limiter.limit) else old(limiter.redis)
      ensures cache.guards == if !allowed && net.unguard then old(cache.guards) - {(user, hash)} else old(cache.guards)
    {
      var decision := limiter.Acquire(user, net.acquire);
      allowed := decision.allowed;
      if !allowed {
        cache.ReleaseInflight(user, hash, net.unguard);
      }
    }

    /** Insert and publish; if either fails slot and guard are given back. What
        was stored or published by then stays. */
    method EnqueueNew(id: DocId, d: Doc, net: Net) returns (r: SubmitResult)
      requires Valid() && id !in repo.docs
      modifies repo, stream`log, limiter, cache`guards
      ensures Valid()
      ensures r == if !net.insert.Answered? then Refused(NotStored) else if !net.publish.Answered? then Refused(NotQueued) else Created(id)
      ensures repo.docs == if net.insert.Took() then old(repo.docs)[id := d] else old(repo.docs)
      ensures stream.log == if net.insert.Answered? && net.publish.Took() then old(stream.log) + [Some(id)] else old(stream.log)
      ensures limiter.redis == if r.Refused? && net.release then Released(old(limiter.redis), RateLimitKey(d.user)) else old(limiter.redis)
      ensures cache.guards == if r.Refused? && net.unguard then old(cache.guards) - {(d.user, d.hash)} else old(cache.guards)
    {
      r := Created(id);
      if net.insert.Took() {
        repo.Insert(id, d);
      }
      if net.insert.Answered? {
        var ok := stream.Publish(id, net.publish);
        if !ok {
          r := Refused(NotQueued);
        }
      } else {
        r := Refused(NotStored);
      }
      if r.Refused? {
        limiter.Release(d.user, net.release);
        cache.ReleaseInflight(d.user, d.hash, net.unguard);
      }
    }

    ghost function Touched(): Stores<string, Option<DocId>>
      reads repo, cache, limiter, stream
    {
      Stores(repo.docs, cache.entries, limiter.redis, cache.guards, stream.log)
    }

    /** What an uncached submission is told. */
    ghost predicate Told(was: Stores<string, Option<DocId>>, key: Key, id: DocId, net: Net, seen: nat -> bool, r: SubmitResult)
      reads limiter
    {
      if net.guard.Answered? && net.peek && key in was.guards then
        && (r == Joined(was.guards[key]) || r == Refused(Settling))
        && (r == Joined(was.guards[key]) <==> exists k: nat :: k < SETTLE_ATTEMPTS && seen(k))
      else if !Room(was, RateLimitKey(key.0), key.0, limiter.limit, net) then r == Refused(RateLimited)
      else r == if !net.insert.Answered? then Refused(NotStored) else if !net.publish.Answered? then Refused(NotQueued) else Created(id)
    }

    /** The whole flow. `id` is the freshly minted document id. */
    method Submit(user: UserId, title: string, content: string, id: DocId, now: Time, net: Net, seen: nat -> bool)
      returns (r: SubmitResult)
      requires Valid() && id !in repo.docs
      modifies repo, cache, limiter, stream`log
      ensures Valid()
      ensures var (key, was) := ((user, HashContent(content)), old(Touched()));
              if |content| > maxContent then r == Refused(TooLong) && Touched() == was
              else
                && AfterSubmit(was, Touched(), RateLimitKey(user), Some(id), id, user, title, content, now, limiter.limit, net)
                && (if Known(was, key, net.read) then r == FromCache(id) else Told(was, key, id, net, seen, r))
    {
      r := Refused(TooLong);
      if |content| <= maxContent {
        var hash := HashContent(content);
        var cached := LookupCachedSummary(user, hash, net);
        if cached.Some? {
          repo.Insert(id, CachedDoc(user, title, content, hash, id, cached.value, now));
          assert Answers(old(Touched()), (user, hash), net.read, cached.value);
          r := FromCache(id);
        } else {
          r := SubmitUncached(user, title, content, id, now, net, seen);
        }
      }
    }

    method SubmitUncached(user: UserId, title: string, content: string, id: DocId, now: Time, net: Net, seen: nat -> bool)
      returns (r: SubmitResult)
      requires Valid() && id !in repo.docs
      modifies repo, cache`guards, limiter, stream`log
      ensures Valid() && Told(old(Touched()), (user, HashContent(content)), id, net, seen, r)
      ensures Touched() == AfterUncached(old(Touched()), RateLimitKey(user), Some(id), id,
                                         NewDoc(user, title, content, HashContent(content), now), limiter.limit, net)
    {
      var hash := HashContent(content);
      var other := cache.ClaimInflight(user, hash, id, net.guard, net.peek);
      if other.Some? {
        var polls, pauses;
        r, polls, pauses := JoinInflightDuplicate(other.value, seen);
        return;
      }
      var allowed := AcquireSlot(user, hash, net);
      if !allowed {
        return Refused(RateLimited);
      }
      r := EnqueueNew(id, NewDoc(user, title, content, hash, now), net);
    }
  }
}
