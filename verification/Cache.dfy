/** The summary cache and the in-flight guard, keyed by (user, hash). */
module Cache {
  import opened Text
  import opened Types

  type Key = (UserId, ContentHash)

  /** The guards after `SET NX`. */
  function GuardSet(guards: map<Key, DocId>, key: Key, id: DocId): map<Key, DocId> {
    if key in guards then guards else guards[key := id]
  }

  class SummaryCache {
    var entries: map<Key, Summary>
    var guards: map<Key, DocId>

    constructor ()
      ensures entries == map[] && guards == map[]
    {
      entries, guards := map[], map[];
    }

    /** `up` tells whether Redis answers; a failure is a miss. */
    method Read(user: UserId, hash: ContentHash, up: bool) returns (summary: Option<Summary>)
      ensures summary == if up && (user, hash) in entries then Some(entries[(user, hash)]) else None
    {
      summary := if up && (user, hash) in entries then Some(entries[(user, hash)]) else None;
    }

    method Store(user: UserId, hash: ContentHash, summary: Summary, up: bool)
      modifies this`entries
      ensures entries == if up then old(entries)[(user, hash) := summary] else old(entries)
    {
      if up {
        entries := entries[(user, hash) := summary];
      }
    }

    /** `SET NX`, then `GET` when the key was taken. Either may fail, which
        counts as "no duplicate", even if the guard was set after all. */
    method ClaimInflight(user: UserId, hash: ContentHash, id: DocId, reply: Reply, peek: bool) returns (other: Option<DocId>)
      modifies this`guards
      ensures guards == if reply.Took() then GuardSet(old(guards), (user, hash), id) else old(guards)
      ensures other == if reply.Answered? && peek && (user, hash) in old(guards) then Some(old(guards)[(user, hash)]) else None
    {
      other := None;
      var taken := (user, hash) in guards;
      if reply.Took() {
        guards := GuardSet(guards, (user, hash), id);
      }
      if reply.Answered? && taken && peek {
        other := Some(guards[(user, hash)]);
      }
    }

    /** An unconditional delete: it does not look at whose guard it is. */
    method ReleaseInflight(user: UserId, hash: ContentHash, up: bool)
      modifies this`guards
      ensures guards == if up then old(guards) - {(user, hash)} else old(guards)
    {
      if up {
        guards := guards - {(user, hash)};
      }
    }
  }
}
