/** `build_summary` and `as_duplicate`: what a summary measures, and how a
    duplicate cites the upload that did the work. */
module Summarizer {
  import opened Text
  import opened Types

  const STOPWORDS: set<string> := {
    "a", "an", "and", "are", "as", "at", "be", "but", "by", "for", "from", "has", "have", "i", "if",
    "in", "into", "is", "it", "its", "of", "on", "or", "that", "the", "their", "then", "there",
    "these", "they", "this", "to", "was", "were", "will", "with", "you", "your", "we", "our", "not",
    "no", "can", "could", "would", "should", "do", "does", "did", "been", "being", "over", "under",
    "more", "most", "such"
  }

  // ---------------------------------------------------------------------
  // Keywords
  // ---------------------------------------------------------------------

  /** `str.lower` on the characters a word can contain. */
  function LowerChar(c: char): char {
    if 'A' <= c <= 'Z' then (c as int + 32) as char else c
  }

  function Lower(w: string): string {
    if w == "" then "" else [LowerChar(w[0])] + Lower(w[1..])
  }

  predicate IsCandidate(w: string) {
    |w| > 3 && Lower(w) !in STOPWORDS
  }

  /** The lower-cased words that compete for a keyword place, in text order. */
  function Candidates(words: seq<string>): seq<string> {
    if words == [] then []
    else if IsCandidate(words[0]) then [Lower(words[0])] + Candidates(words[1..])
    else Candidates(words[1..])
  }

  function Frequency(w: string, cs: seq<string>): nat {
    multiset(cs)[w]
  }

  /** Position of the first occurrence; `|cs|` when there is none. */
  function FirstIndex(w: string, cs: seq<string>): (i: nat)
    ensures i <= |cs|
    ensures i < |cs| ==> cs[i] == w
    ensures forall j :: 0 <= j < i ==> cs[j] != w
  {
    if cs == [] || cs[0] == w then 0 else 1 + FirstIndex(w, cs[1..])
  }

  /** `most_common` order: more frequent first, earlier first among equals. */
  predicate Outranks(a: string, b: string, cs: seq<string>) {
    || Frequency(a, cs) > Frequency(b, cs)
    || (Frequency(a, cs) == Frequency(b, cs) && FirstIndex(a, cs) < FirstIndex(b, cs))
  }

  /** The order in which `most_common` ranks the keys of a counter. */
  function Ranking(cs: seq<string>): (string, string) -> bool {
    (a, b) => Outranks(a, b, cs)
  }

  /** The keys of the counter: distinct candidates, in insertion order. */
  function Distinct(cs: seq<string>): seq<string> {
    if cs == [] then []
    else
      var init := Distinct(cs[..|cs| - 1]);
      if cs[|cs| - 1] in init then init else init + [cs[|cs| - 1]]
  }

  /** Index in `pool` of the first entry that no later one beats. */
  function BestIndex(pool: seq<string>, beats: (string, string) -> bool): (i: nat)
    requires pool != []
    ensures i < |pool|
  {
    if |pool| == 1 then 0
    else
      var i := BestIndex(pool[..|pool| - 1], beats);
      if beats(pool[|pool| - 1], pool[i]) then |pool| - 1 else i
  }

  function RemoveAt(pool: seq<string>, i: nat): seq<string>
    requires i < |pool|
  {
    pool[..i] + pool[i + 1..]
  }

  /** The `n` best entries of a pool, best first. */
  function Best(pool: seq<string>, beats: (string, string) -> bool, n: nat): seq<string>
    decreases n
  {
    if n == 0 || pool == [] then []
    else
      var i := BestIndex(pool, beats);
      [pool[i]] + Best(RemoveAt(pool, i), beats, n - 1)
  }

  function Keywords(words: seq<string>): seq<string> {
    var cs := Candidates(words);
    Best(Distinct(cs), Ranking(cs), 5)
  }

  /** `r` is the ranking of the `n` best words of `pool`: strictly descending,
      and nothing left out beats anything kept. */
  ghost predicate IsTop(r: seq<string>, pool: set<string>, beats: (string, string) -> bool, n: nat) {
    && |r| == (if |pool| < n then |pool| else n)
    && (forall w <- r :: w in pool)
    && (forall i, j :: 0 <= i < j < |r| ==> beats(r[i], r[j]))
    && (forall i, w :: 0 <= i < |r| && w in pool && w !in r ==> beats(r[i], w))
  }

  ghost predicate Among(pool: set<string>, a: string, b: string, c: string) {
    a in pool && b in pool && c in pool
  }

  /** `beats` is a strict total order on `pool`. */
  ghost predicate Orders(beats: (string, string) -> bool, pool: set<string>) {
    forall a, b, c {:trigger Among(pool, a, b, c)} :: Among(pool, a, b, c) ==>
      && !(beats(a, b) && beats(b, a))
      && (a != b ==> beats(a, b) || beats(b, a))
      && (beats(a, b) && beats(b, c) ==> beats(a, c))
  }

  ghost predicate NoRepeat(s: seq<string>) {
    forall i, j :: 0 <= i < j < |s| ==> s[i] != s[j]
  }

  lemma {:induction false} DistinctKeys(cs: seq<string>)
    ensures NoRepeat(Distinct(cs))
    ensures forall w :: w in Distinct(cs) <==> w in cs
  {
    if cs != [] {
      var init := cs[..|cs| - 1];
      DistinctKeys(init);
      assert cs == init + [cs[|cs| - 1]];
    }
  }

  lemma RankingOrders(cs: seq<string>)
    ensures Orders(Ranking(cs), Elements(cs))
  {}

  lemma SubsetOrders(part: seq<string>, pool: seq<string>, beats: (string, string) -> bool)
    requires Orders(beats, Elements(pool)) && Elements(part) <= Elements(pool)
    ensures Orders(beats, Elements(part))
  {
    forall a, b, c | Among(Elements(part), a, b, c) ensures Among(Elements(pool), a, b, c) {}
  }

  lemma {:induction false} BestBeatsRest(pool: seq<string>, beats: (string, string) -> bool)
    requires pool != [] && NoRepeat(pool) && Orders(beats, Elements(pool))
    ensures forall j :: 0 <= j < |pool| && j != BestIndex(pool, beats) ==>
              beats(pool[BestIndex(pool, beats)], pool[j])
  {
    if |pool| > 1 {
      var init, last := pool[..|pool| - 1], pool[|pool| - 1];
      SubsetOrders(init, pool, beats);
      BestBeatsRest(init, beats);
      var i := BestIndex(init, beats);
      forall j | 0 <= j < |pool| && j != BestIndex(pool, beats)
        ensures beats(pool[BestIndex(pool, beats)], pool[j])
      {
        assert Among(Elements(pool), last, init[i], pool[j]);
        if j < |init| { assert pool[j] == init[j]; }
      }
    }
  }

  ghost function Elements(s: seq<string>): set<string> {
    set w | w in s
  }

  lemma {:induction false} BestIsTop(pool: seq<string>, beats: (string, string) -> bool, n: nat)
    requires NoRepeat(pool) && Orders(beats, Elements(pool))
    ensures IsTop(Best(pool, beats, n), Elements(pool), beats, n)
    decreases n
  {
    if n == 0 || pool == [] {
      assert pool == [] ==> Elements(pool) == {};
    } else {
      var i := BestIndex(pool, beats);
      var rest := RemoveAt(pool, i);
      RemovedBest(pool, beats);
      BestIsTop(rest, beats, n - 1);
      BestThenRest(pool, i, Best(rest, beats, n - 1), beats, n);
    }
  }

  lemma RemovedBest(pool: seq<string>, beats: (string, string) -> bool)
    requires pool != [] && NoRepeat(pool) && Orders(beats, Elements(pool))
    ensures var i := BestIndex(pool, beats);
            var rest := RemoveAt(pool, i);
            && NoRepeat(rest) && Orders(beats, Elements(rest))
            && forall w <- Elements(rest) :: beats(pool[i], w)
  {
    var i := BestIndex(pool, beats);
    BestBeatsRest(pool, beats);
    RemovedOne(pool, i);
    SubsetOrders(RemoveAt(pool, i), pool, beats);
    forall w | w in Elements(RemoveAt(pool, i)) ensures beats(pool[i], w) {
      var j :| 0 <= j < |pool| && j != i && pool[j] == w;
    }
  }

  lemma BestThenRest(pool: seq<string>, i: nat, r: seq<string>, beats: (string, string) -> bool, n: nat)
    requires n > 0 && i < |pool| && NoRepeat(pool)
    requires IsTop(r, Elements(RemoveAt(pool, i)), beats, n - 1)
    requires forall w <- Elements(RemoveAt(pool, i)) :: beats(pool[i], w)
    ensures IsTop([pool[i]] + r, Elements(pool), beats, n)
  {
    RemovedOne(pool, i);
    TopStep(pool[i], r, Elements(RemoveAt(pool, i)), Elements(pool), beats, n);
  }

  lemma TopStep(best: string, r: seq<string>, rest: set<string>, pool: set<string>,
                beats: (string, string) -> bool, n: nat)
    requires n > 0 && IsTop(r, rest, beats, n - 1)
    requires best !in rest && pool == {best} + rest
    requires forall w <- rest :: beats(best, w)
    ensures IsTop([best] + r, pool, beats, n)
  {}

  lemma RemovedOne(pool: seq<string>, i: nat)
    requires i < |pool| && NoRepeat(pool)
    ensures var rest := RemoveAt(pool, i);
            && Elements(pool) == {pool[i]} + Elements(rest)
            && pool[i] !in Elements(rest)
            && NoRepeat(rest)
            && forall w <- Elements(rest) :: exists j :: 0 <= j < |pool| && j != i && pool[j] == w
  {}

  /** The keywords are the five best distinct candidates, ranked. */
  lemma KeywordsAreTopFive(words: seq<string>)
    ensures IsTop(Keywords(words), Elements(Candidates(words)), Ranking(Candidates(words)), 5)
    ensures forall k <- Keywords(words) ::
              |k| > 3 && k !in STOPWORDS && exists w <- words :: k == Lower(w)
  {
    var cs := Candidates(words);
    DistinctKeys(cs);
    assert Elements(Distinct(cs)) == Elements(cs);
    RankingOrders(cs);
    BestIsTop(Distinct(cs), Ranking(cs), 5);
    forall k | k in Keywords(words)
      ensures |k| > 3 && k !in STOPWORDS && exists w <- words :: k == Lower(w)
    {
      assert k in Elements(cs);
      CandidateSource(words, k);
    }
  }

  lemma {:induction false} LowerLength(w: string)
    ensures |Lower(w)| == |w|
  {
    if w != "" { LowerLength(w[1..]); }
  }

  lemma {:induction false} CandidateSource(words: seq<string>, k: string)
    requires k in Candidates(words)
    ensures exists w <- words :: k == Lower(w)
    ensures |k| > 3 && k !in STOPWORDS
  {
    LowerLength(words[0]);
    if !(IsCandidate(words[0]) && k == Lower(words[0])) {
      CandidateSource(words[1..], k);
      var w :| w in words[1..] && k == Lower(w);
      assert w in words;
    } else {
      assert words[0] in words;
    }
  }

  /** Ranked tops are unique, so the ranking above determines the keywords. */
  lemma TopIsUnique(r: seq<string>, q: seq<string>, pool: set<string>, beats: (string, string) -> bool, n: nat)
    requires Orders(beats, pool)
    requires IsTop(r, pool, beats, n) && IsTop(q, pool, beats, n)
    ensures r == q
  {
    var i := 0;
    while i < |r|
      invariant i <= |r| == |q|
      invariant forall k :: 0 <= k < i ==> r[k] == q[k]
    {
      if r[i] != q[i] {
        FirstDifference(r, q, pool, beats, n, i);
        FirstDifference(q, r, pool, beats, n, i);
        assert Among(pool, r[i], q[i], q[i]);
      }
      i := i + 1;
    }
  }

  lemma FirstDifference(r: seq<string>, q: seq<string>, pool: set<string>, beats: (string, string) -> bool, n: nat, i: nat)
    requires Orders(beats, pool)
    requires IsTop(r, pool, beats, n) && IsTop(q, pool, beats, n)
    requires i < |r| == |q| && r[i] != q[i] && forall k :: 0 <= k < i ==> r[k] == q[k]
    ensures beats(r[i], q[i])
  {
    assert Among(pool, q[i], q[i], q[i]);
    if q[i] in r {
      var k :| 0 <= k < |r| && r[k] == q[i];
    }
  }

  // ---------------------------------------------------------------------
  // Summaries
  // ---------------------------------------------------------------------

  /** `max(1, round(words / 200 * 60))`, rounding half to even, taken exactly. */
  function ReadingTime(words: nat): nat {
    var q, r := (3 * words) / 10, (3 * words) % 10;
    var rounded := if r > 5 || (r == 5 && q % 2 == 1) then q + 1 else q;
    if rounded < 1 then 1 else rounded
  }

  function Prefix(s: string, n: nat): string {
    if |s| <= n then s else s[..n]
  }

  function RawLead(words: seq<string>, sentences: seq<string>): string {
    if sentences != [] then Squeeze(sentences[0]) else Join(if |words| <= 30 then words else words[..30])
  }

  /** `build_summary`. */
  function BuildSummary(content: string, document: Option<DocumentRef>): Summary {
    var words := Words(content);
    var sentences := Sentences(content);
    Summary(Prefix(RawLead(words, sentences), 280), |words|, |content|, |sentences|, Keywords(words),
            ReadingTime(|words|), Generated, document, None)
  }

  /** Everything a summary measures apart from the raw character count. */
  datatype Measures = Measures(
    lead: string, wordCount: nat, sentenceCount: nat, keywords: seq<string>, readingTimeSeconds: nat)

  function MeasuresOf(s: Summary): Measures {
    Measures(s.lead, s.wordCount, s.sentenceCount, s.keywords, s.readingTimeSeconds)
  }

  lemma {:induction false} SqueezeAllShape(ps: seq<string>)
    ensures |SqueezeAll(ps)| == |ps|
    ensures ps != [] ==> SqueezeAll(ps)[0] == Squeeze(ps[0])
  {
    if ps != [] { SqueezeAllShape(ps[1..]); }
  }

  /** What makes caching by hash sound: contents with one hash have one set of
      measures, whoever is credited. */
  lemma SameHashSameMeasures(a: string, b: string, da: Option<DocumentRef>, db: Option<DocumentRef>)
    requires HashContent(a) == HashContent(b)
    ensures MeasuresOf(BuildSummary(a, da)) == MeasuresOf(BuildSummary(b, db))
  {
    SameHashSameText(a, b);
    SqueezeAllShape(Sentences(a));
    SqueezeAllShape(Sentences(b));
  }

  /** The character count is the exception: it is taken before normalization. */
  lemma CharCountIsNotCovered()
    ensures exists a, b :: HashContent(a) == HashContent(b)
              && BuildSummary(a, None).charCount != BuildSummary(b, None).charCount
  {
    var a, b := "x", "x\n";
    assert ReplaceCrLf(a) == a && ReplaceCr(a) == a && StripLeft(a) == a && StripRight(a) == a;
    assert b[1..] == "\n" && b[1..][1..] == "";
    assert ReplaceCrLf("\n") == "\n" && ReplaceCr("\n") == "\n";
    assert ReplaceCrLf(b) == b && ReplaceCr(b) == b;
    assert b[..1] == a;
    assert StripRight(b) == a;
    assert HashContent(a) == HashContent(b);
  }

  /** `as_duplicate`. */
  function AsDuplicate(cached: Summary, document: DocumentRef): Summary {
    var origin := if cached.origin.Some? then cached.origin else cached.document;
    cached.(source := FromCacheEntry, document := Some(document), origin := origin)
  }

  /** A chain of duplicates, each made from the one before. */
  function DuplicateChain(cached: Summary, refs: seq<DocumentRef>): Summary {
    if refs == [] then cached
    else AsDuplicate(DuplicateChain(cached, refs[..|refs| - 1]), refs[|refs| - 1])
  }

  /** However long the chain, it cites the upload that was processed, names the
      last submission as its subject, and keeps every measure. */
  lemma {:induction false} ChainCitesTheOriginal(cached: Summary, refs: seq<DocumentRef>)
    requires cached.document.Some? && refs != []
    ensures var r := DuplicateChain(cached, refs);
            && r.origin == (if cached.origin.Some? then cached.origin else cached.document)
            && r.document == Some(refs[|refs| - 1])
            && r.source == FromCacheEntry
            && MeasuresOf(r) == MeasuresOf(cached) && r.charCount == cached.charCount
  {
    var init := refs[..|refs| - 1];
    if init != [] {
      ChainCitesTheOriginal(cached, init);
    }
  }
}
