/** The records the service stores and passes around. */
module Types {
  import opened Text

  datatype Option<+T> = None | Some(value: T)

  /** Seconds on the one shared clock. */
  type Time = real

  type DocId = nat
  type WorkerId = nat
  type UserId = string

  /** How a command went: done and answered; failed before taking effect;
      or took effect but the answer was lost. */
  datatype Reply = Answered | NotDone | AnswerLost {
    predicate Took() { !NotDone? }
  }

  datatype Status = Queued | Processing | Completed | Failed {
    /** Statuses that occupy a per-user rate-limit slot. */
    predicate Active() {
      Queued? || Processing?
    }
  }

  datatype DocumentRef = DocumentRef(
    documentId: DocId,
    userId: UserId,
    title: string,
    contentHash: ContentHash,
    submittedAt: Time)

  datatype SummarySource = Generated | FromCacheEntry

  /** A summary without its rendered `text`, which is a function of the title
      and of the fields below. */
  datatype Summary = Summary(
    lead: string,
    wordCount: nat,
    charCount: nat,
    sentenceCount: nat,
    keywords: seq<string>,
    readingTimeSeconds: nat,
    source: SummarySource,
    document: Option<DocumentRef>,
    origin: Option<DocumentRef>)

  datatype ProcessingError = ProcessingError(code: string, attempts: nat, failedAt: Time)

  datatype Doc = Doc(
    user: UserId,
    title: string,
    content: string,
    hash: ContentHash,
    status: Status,
    summary: Option<Summary>,
    error: Option<ProcessingError>,
    attempts: nat,
    nextAttemptAt: Option<Time>,
    workerId: Option<WorkerId>,
    leaseExpiresAt: Option<Time>,
    fromCache: bool,
    createdAt: Time,
    updatedAt: Time)

  /** `DocumentModel.ref`. */
  function RefOf(id: DocId, d: Doc): DocumentRef {
    DocumentRef(id, d.user, d.title, d.hash, d.createdAt)
  }

  /** A document as `_enqueue_new` builds it. */
  function NewDoc(user: UserId, title: string, content: string, hash: ContentHash, now: Time): Doc {
    Doc(user, title, content, hash, Queued, None, None, 0, None, None, None, false, now, now)
  }

  /** The environment-driven settings the protocol depends on. */
  datatype Settings = Settings(
    maxActive: nat,
    maxAttempts: nat,
    retryBase: real,
    retryMax: real,
    concurrency: nat,
    lease: real,
    staleQueued: real)
  {
    /** The bounds the settings model enforces on its fields. */
    predicate Valid() {
      && maxActive >= 1 && maxAttempts >= 1 && concurrency >= 1
      && retryBase >= 0.0 && retryMax >= 0.0
      && lease >= 1.0 && staleQueued >= 1.0
    }
  }

  function Get<K, V>(m: map<K, V>, k: K, default: V): V {
    if k in m then m[k] else default
  }

  /** The maps agree on every key but `k`. */
  ghost predicate SameElsewhere<K(!new), V>(m: map<K, V>, m': map<K, V>, k: K) {
    forall i :: i != k ==> (i in m <==> i in m') && (i in m ==> m[i] == m'[i])
  }

  lemma MinusMore<K, V>(m: map<K, V>, gone: set<K>, k: K)
    ensures (m - gone) - {k} == m - (gone + {k})
  {}

  lemma SameWithout<T(!new)>(s: set<T>, s': set<T>, x: T)
    requires forall i :: i != x ==> (i in s' <==> i in s)
    ensures |s'| - (if x in s' then 1 else 0) == |s| - (if x in s then 1 else 0)
  {
    assert s' - {x} == s - {x};
    Without(s, x);
    Without(s', x);
  }

  lemma Without<T>(s: set<T>, x: T)
    ensures |s - {x}| == |s| - (if x in s then 1 else 0)
  {}
}
