/** The stream with its pending list, and the delayed retry set. */
module Queue {
  import opened Types
  import opened Repository

  datatype StreamEntry = StreamEntry(entryId: nat, documentId: DocId)

  datatype Pending = Pending(consumer: WorkerId, since: Time)

  /** Entries `from .. end` of the log that carry a document id, in order. */
  function WellFormed(log: seq<Option<DocId>>, from: nat, end: nat): (entries: seq<StreamEntry>)
    requires from <= end && end <= |log|
    ensures forall e <- entries :: from <= e.entryId < end && log[e.entryId] == Some(e.documentId)
    decreases end - from
  {
    if from == end then []
    else
      var rest := WellFormed(log, from + 1, end);
      if log[from].Some? then [StreamEntry(from, log[from].value)] + rest else rest
  }

  /** Each of them once, in log order, and none left out. */
  lemma {:induction false} WellFormedExactly(log: seq<Option<DocId>>, from: nat, end: nat)
    requires from <= end <= |log|
    ensures forall i, j :: 0 <= i < j < |WellFormed(log, from, end)| ==>
              WellFormed(log, from, end)[i].entryId < WellFormed(log, from, end)[j].entryId
    ensures forall e :: from <= e < end && log[e].Some? ==> StreamEntry(e, log[e].value) in WellFormed(log, from, end)
    decreases end - from
  {
    if from < end { WellFormedExactly(log, from + 1, end); }
  }

  function EntryIds(entries: seq<StreamEntry>): seq<nat> {
    seq(|entries|, i requires 0 <= i < |entries| => entries[i].entryId)
  }

  /** Read by `consumer` at `now`: pending from here on. */
  function Deliver(pel: map<nat, Pending>, log: seq<Option<DocId>>, from: nat, end: nat, consumer: WorkerId, now: Time): map<nat, Pending>
    requires from <= end <= |log|
  {
    pel + map e | from <= e < end && log[e].Some? :: Pending(consumer, now)
  }

  /** Entries `i .. end` that name no document. */
  ghost function Malformed(log: seq<Option<DocId>>, i: nat, end: nat): set<nat>
    requires i <= end <= |log|
  {
    set e | i <= e < end && log[e].None?
  }

  lemma MalformedStep(log: seq<Option<DocId>>, i: nat, end: nat)
    requires i < end <= |log|
    ensures Malformed(log, i, end) == if log[i].None? then Malformed(log, i + 1, end) + {i} else Malformed(log, i + 1, end)
  {}

  predicate InRange(from: nat, e: nat, end: nat) {
    from <= e < end
  }

  /** Pending once read, before the malformed ones are acknowledged. */
  function Handed(pel: map<nat, Pending>, from: nat, end: nat, consumer: WorkerId, now: Time): map<nat, Pending> {
    pel + map e: nat | e < end && InRange(from, e, end) :: Pending(consumer, now)
  }

  lemma HandedIsDelivered(pel: map<nat, Pending>, log: seq<Option<DocId>>, from: nat, end: nat, consumer: WorkerId, now: Time)
    requires from <= end <= |log| && forall e <- pel :: e < from
    ensures Handed(pel, from, end, consumer, now) - Malformed(log, from, end) == Deliver(pel, log, from, end, consumer, now)
  {}

  function IdleEntries(pel: map<nat, Pending>, log: seq<Option<DocId>>, minIdle: real, now: Time): set<nat> {
    set e | e in pel && e < |log| && log[e].Some? && now - pel[e].since >= minIdle
  }

  class DocumentStream {
    var log: seq<Option<DocId>>
    var delivered: nat
    var pel: map<nat, Pending>

    ghost predicate Valid()
      reads this
    {
      delivered <= |log| && forall e <- pel :: e < delivered
    }

    constructor ()
      ensures Valid() && log == [] && delivered == 0 && pel == map[]
    {
      log, delivered, pel := [], 0, map[];
    }

    /** False is the 503: nobody knows that the queue took the entry. */
    method Publish(id: DocId, reply: Reply) returns (ok: bool)
      requires Valid()
      modifies this`log
      ensures Valid() && ok == reply.Answered?
      ensures log == if reply.Took() then old(log) + [Some(id)] else old(log)
    {
      ok := reply.Answered?;
      if reply.Took() {
        log := log + [Some(id)];
      }
    }

    method Ack(entry: nat)
      requires Valid()
      modifies this`pel
      ensures Valid() && pel == old(pel) - {entry}
    {
      pel := pel - {entry};
    }

    /** The next entries in log order; one that names no document is
        acknowledged on the spot instead of being handed out. */
    method Read(consumer: WorkerId, count: nat, now: Time) returns (entries: seq<StreamEntry>)
      requires Valid()
      modifies this`delivered, this`pel
      ensures Valid()
      ensures delivered == if |log| - old(delivered) < count then |log| else old(delivered) + count
      ensures entries == WellFormed(log, old(delivered), delivered)
      ensures pel == Deliver(old(pel), log, old(delivered), delivered, consumer, now)
    {
      var first := delivered;
      var last := if |log| - delivered < count then |log| else delivered + count;
      delivered := last;
      ghost var before := pel;
      pel := Handed(pel, first, last, consumer, now);
      entries := Parse(first, last);
      HandedIsDelivered(before, log, first, last, consumer, now);
    }

    /** The decoding half of a read, over the raw entries `first .. last`. */
    method Parse(first: nat, last: nat) returns (entries: seq<StreamEntry>)
      requires first <= last <= |log|
      modifies this`pel
      ensures entries == WellFormed(log, first, last)
      ensures pel == old(pel) - Malformed(log, first, last)
    {
      entries := [];
      var i := last;
      assert pel - Malformed(log, last, last) == pel;
      while i > first
        invariant first <= i <= last
        invariant entries == WellFormed(log, i, last)
        invariant pel == old(pel) - Malformed(log, i, last)
        decreases i
      {
        i := i - 1;
        MalformedStep(log, i, last);
        MinusMore(old(pel), Malformed(log, i + 1, last), i);
        if log[i].Some? {
          entries := [StreamEntry(i, log[i].value)] + entries;
        } else {
          pel := pel - {i};
        }
      }
    }

    /** Entries another consumer left unacknowledged for `minIdle`. */
    method Autoclaim(consumer: WorkerId, minIdle: real, count: nat, now: Time) returns (entries: seq<StreamEntry>)
      requires Valid()
      modifies this`pel
      ensures Valid()
      ensures IsCursor(EntryIds(entries), old(IdleEntries(pel, log, minIdle, now)), count)
      ensures forall k :: 0 <= k < |entries| ==>
                entries[k].entryId < |log| && log[entries[k].entryId] == Some(entries[k].documentId)
      ensures forall e <- EntryIds(entries) :: e in old(pel) && now - old(pel)[e].since >= minIdle
      ensures pel == map e | e in old(pel) ::
                       if e in EntryIds(entries) then Pending(consumer, now) else old(pel)[e]
    {
      var rows := Fetch(IdleEntries(pel, log, minIdle, now), count);
      entries := [];
      var i := 0;
      while i < |rows|
        invariant 0 <= i <= |rows| && |entries| == i
        invariant forall k :: 0 <= k < i ==>
                    entries[k].entryId == rows[k] && rows[k] < |log| && log[rows[k]] == Some(entries[k].documentId)
        invariant pel == old(pel)
      {
        assert rows[i] in IdleEntries(pel, log, minIdle, now);
        entries := entries + [StreamEntry(rows[i], log[rows[i]].value)];
        i := i + 1;
      }
      assert EntryIds(entries) == rows;
      pel := map e | e in pel :: if e in rows then Pending(consumer, now) else pel[e];
    }
  }

  // ---------------------------------------------------------------------
  // Delayed retries
  // ---------------------------------------------------------------------

  function DueIds(zset: map<DocId, Time>, now: Time): set<DocId> {
    set id | id in zset && zset[id] <= now
  }

  /** One after the other by score. */
  ghost predicate InScoreOrder(due: seq<DocId>, zset: map<DocId, Time>) {
    forall i, j :: 0 <= i < j < |due| && due[i] in zset && due[j] in zset ==> zset[due[i]] <= zset[due[j]]
  }

  /** What `ZRANGEBYSCORE -inf now LIMIT 0 limit` returns. */
  ghost predicate IsLowestDue(due: seq<DocId>, zset: map<DocId, Time>, now: Time, limit: nat) {
    && IsCursor(due, DueIds(zset, now), limit) && InScoreOrder(due, zset)
    && forall a, b :: a in due && b in DueIds(zset, now) && b !in due ==> zset[a] <= zset[b]
  }

  function AllSome(ids: seq<DocId>): seq<Option<DocId>> {
    seq(|ids|, i requires 0 <= i < |ids| => Some(ids[i]))
  }

  class DelayQueue {
    var zset: map<DocId, Time>
    const stream: DocumentStream

    constructor (stream: DocumentStream)
      ensures zset == map[] && this.stream == stream
    {
      zset := map[];
      this.stream := stream;
    }

    /** A failed ZADD is logged and swallowed. */
    method Schedule(id: DocId, delay: real, now: Time, up: bool)
      modifies this
      ensures zset == if up then old(zset)[id := now + delay] else old(zset)
    {
      if up {
        zset := zset[id := now + delay];
      }
    }

    /** The pop script: the due members, lowest score first, removed at once. */
    method PopDue(now: Time, limit: nat) returns (due: seq<DocId>)
      modifies this
      ensures IsLowestDue(due, old(zset), now, limit)
      ensures forall id <- due :: id in old(zset) && old(zset)[id] <= now
      ensures forall id <- old(zset) :: old(zset)[id] <= now && id !in due ==>
                |due| == limit && forall a <- due :: old(zset)[a] <= old(zset)[id]
      ensures zset == old(zset) - RowSet(due)
    {
      due := [];
      var todo := DueIds(zset, now);
      ghost var all := todo;
      while todo != {} && |due| < limit
        invariant todo <= all && NoRepeats(due) && zset == old(zset) && InScoreOrder(due, zset)
        invariant forall id <- due :: id in all && id !in todo
        invariant |due| + |todo| == |all| && |due| <= limit
        invariant forall id <- all :: id in todo || id in due
        invariant forall a, b :: a in due && b in todo ==> zset[a] <= zset[b]
        decreases |todo|
      {
        var id := LowestScore(todo);
        todo := todo - {id};
        due := due + [id];
      }
      zset := zset - RowSet(due);
    }

    method LowestScore(ids: set<DocId>) returns (low: DocId)
      requires ids != {} && ids <= zset.Keys
      ensures low in ids && forall id <- ids :: zset[low] <= zset[id]
    {
      low :| low in ids;
      var todo := ids - {low};
      while todo != {}
        invariant todo <= ids && low in ids
        invariant forall id <- ids :: id in todo || zset[low] <= zset[id]
        decreases |todo|
      {
        var id :| id in todo;
        if zset[id] < zset[low] {
          low := id;
        }
        todo := todo - {id};
      }
    }

    /** Move due members onto the stream. `popUp` is whether the script ran,
        `accepted` how many publishes go through before Redis fails, if it
        does. A failure part-way leaves the remaining members in neither
        place. */
    method PromoteDue(now: Time, limit: nat, popUp: bool, accepted: nat) returns (count: nat, failed: bool, ghost due: seq<DocId>)
      requires stream.Valid()
      modifies this, stream`log
      ensures stream.Valid()
      ensures !popUp ==> count == 0 && !failed && due == [] && zset == old(zset)
      ensures popUp ==> IsLowestDue(due, old(zset), now, limit) && zset == old(zset) - RowSet(due)
      ensures failed <==> accepted < |due|
      ensures stream.log == old(stream.log) + AllSome(if failed then due[..accepted] else due)
      ensures !failed ==> count == |due|
    {
      count, failed, due := 0, false, [];
      if !popUp {
        return;
      }
      var popped := PopDue(now, limit);
      due := popped;
      var i := 0;
      while i < |popped|
        invariant 0 <= i <= |popped| && i <= accepted
        invariant stream.Valid() && due == popped
        invariant stream.log == old(stream.log) + AllSome(popped[..i])
        invariant zset == old(zset) - RowSet(popped) && !failed
      {
        var ok := stream.Publish(popped[i], if i < accepted then Answered else NotDone);
        if !ok {
          failed := true;
          return;
        }
        i := i + 1;
      }
      assert popped[..i] == popped;
      count := |popped|;
    }
  }
}
