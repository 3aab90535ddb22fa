/** What a summary says about its content, counted on the content itself. */
module Measured {
  import opened Text
  import opened Types
  import opened Summarizer
  import opened Stretches

  // ---------------------------------------------------------------------
  // Case
  // ---------------------------------------------------------------------

  predicate IsCapital(c: char) {
    'A' <= c <= 'Z'
  }

  predicate IsSmall(c: char) {
    'a' <= c <= 'z'
  }

  /** The same character, or the two forms of one letter. */
  predicate SameLetter(c: char, d: char) {
    || c == d
    || (IsCapital(c) && IsSmall(d) && c as int - 'A' as int == d as int - 'a' as int)
    || (IsSmall(c) && IsCapital(d) && c as int - 'a' as int == d as int - 'A' as int)
  }

  lemma {:induction false} LowerAt(w: string, i: nat)
    requires i < |w|
    ensures |Lower(w)| == |w| && Lower(w)[i] == LowerChar(w[i])
  {
    if i > 0 {
      LowerAt(w[1..], i - 1);
    } else {
      LowerLength(w);
    }
  }

  lemma SameLowerChar(c: char, d: char)
    ensures LowerChar(c) == LowerChar(d) <==> SameLetter(c, d)
    ensures !IsCapital(LowerChar(c))
  {}

  /** Lower-casing leaves no capital, and makes two words equal exactly if they
      differ at most in case. */
  lemma LowerFoldsCase(a: string, b: string)
    ensures forall c <- Lower(a) :: !IsCapital(c)
    ensures Lower(a) == Lower(b) <==> |a| == |b| && forall i :: 0 <= i < |a| ==> SameLetter(a[i], b[i])
  {
    LowerLength(a);
    LowerLength(b);
    forall i | 0 <= i < |a| ensures !IsCapital(Lower(a)[i]) {
      LowerAt(a, i);
      SameLowerChar(a[i], a[i]);
    }
    if |a| == |b| {
      forall i | 0 <= i < |a| ensures Lower(a)[i] == Lower(b)[i] <==> SameLetter(a[i], b[i]) {
        LowerAt(a, i);
        LowerAt(b, i);
        SameLowerChar(a[i], b[i]);
      }
    }
  }

  // ---------------------------------------------------------------------
  // Keywords
  // ---------------------------------------------------------------------

  /** Where the word stands, in any case. */
  ghost function WordPlaces(words: seq<string>, k: string): Places {
    set i: nat | i < |words| && Lower(words[i]) == k
  }

  /** It stands first before the other does. */
  ghost predicate Before(words: seq<string>, a: string, b: string) {
    exists i :: i in WordPlaces(words, a) && forall j <- WordPlaces(words, b) :: i < j
  }

  /** More often, or as often and earlier. */
  ghost predicate Ahead(words: seq<string>, a: string, b: string) {
    || |WordPlaces(words, a)| > |WordPlaces(words, b)|
    || (|WordPlaces(words, a)| == |WordPlaces(words, b)| && Before(words, a, b))
  }

  /** Longer than three letters, and no stopword. */
  predicate Counts(w: string) {
    |w| > 3 && Lower(w) !in STOPWORDS
  }

  lemma {:induction false} CandidatesLast(words: seq<string>)
    requires words != []
    ensures var (init, w) := (words[..|words| - 1], words[|words| - 1]);
            Candidates(words) == Candidates(init) + (if Counts(w) then [Lower(w)] else [])
  {
    if |words| > 1 {
      var rest := words[1..];
      CandidatesLast(rest);
      assert rest[..|rest| - 1] == words[..|words| - 1][1..];
    } else {
      assert words[1..] == [] && words[..0] == [];
    }
  }

  lemma {:induction false} FrequencyIsCounted(words: seq<string>, k: string)
    requires |k| > 3 && k !in STOPWORDS
    ensures Frequency(k, Candidates(words)) == |WordPlaces(words, k)|
  {
    if words != [] {
      var (init, w) := (words[..|words| - 1], words[|words| - 1]);
      FrequencyIsCounted(init, k);
      CandidatesLast(words);
      LowerLength(w);
      assert WordPlaces(words, k) == WordPlaces(init, k) + (if Lower(w) == k then {|words| - 1} else {});
    } else {
      assert WordPlaces(words, k) == {};
    }
  }

  lemma {:induction false} CandidateIsPlaced(words: seq<string>, k: string)
    requires |k| > 3 && k !in STOPWORDS
    ensures k in Candidates(words) <==> WordPlaces(words, k) != {}
  {
    FrequencyIsCounted(words, k);
    if WordPlaces(words, k) != {} { assert multiset(Candidates(words))[k] > 0; }
  }

  lemma BeforeShifts(words: seq<string>, a: string, b: string)
    requires words != [] && Lower(words[0]) != b && Before(words[1..], a, b)
    ensures Before(words, a, b)
  {
    var i :| i in WordPlaces(words[1..], a) && forall j <- WordPlaces(words[1..], b) :: i < j;
    assert i + 1 in WordPlaces(words, a);
    forall j | j in WordPlaces(words, b) ensures i + 1 < j {
      assert j > 0 && j - 1 in WordPlaces(words[1..], b);
    }
  }

  lemma {:induction false} FirstIsBefore(words: seq<string>, a: string, b: string)
    requires |a| > 3 && a !in STOPWORDS && |b| > 3 && b !in STOPWORDS
    requires FirstIndex(a, Candidates(words)) < FirstIndex(b, Candidates(words))
    ensures Before(words, a, b)
  {
    LowerLength(words[0]);
    if Counts(words[0]) {
      assert Candidates(words)[1..] == Candidates(words[1..]);
    }
    if Lower(words[0]) == a {
      assert 0 in WordPlaces(words, a);
    } else {
      FirstIsBefore(words[1..], a, b);
      BeforeShifts(words, a, b);
    }
  }

  lemma OutranksIsAhead(words: seq<string>, a: string, b: string)
    requires |a| > 3 && a !in STOPWORDS && |b| > 3 && b !in STOPWORDS
    requires Ranking(Candidates(words))(a, b)
    ensures Ahead(words, a, b)
  {
    FrequencyIsCounted(words, a);
    FrequencyIsCounted(words, b);
    if FirstIndex(a, Candidates(words)) < FirstIndex(b, Candidates(words)) { FirstIsBefore(words, a, b); }
  }

  /** The keywords, by counting: at most five, each one more frequent than the
      next, or as frequent and earlier; only words that count; and each such
      word is among them, unless there are five and it comes behind the last. */
  lemma KeywordsByCounting(words: seq<string>)
    ensures |Keywords(words)| <= 5
    ensures forall i, j :: 0 <= i < j < |Keywords(words)| ==> Ahead(words, Keywords(words)[i], Keywords(words)[j])
    ensures forall k <- Keywords(words) :: |k| > 3 && k !in STOPWORDS && WordPlaces(words, k) != {}
    ensures forall p :: 0 <= p < |words| && Counts(words[p]) ==>
              || Lower(words[p]) in Keywords(words)
              || (|Keywords(words)| == 5 && Ahead(words, Keywords(words)[4], Lower(words[p])))
  {
    KeywordsAreTopFive(words);
    var (r, cs) := (Keywords(words), Candidates(words));
    forall k | k in r ensures WordPlaces(words, k) != {} { CandidateIsPlaced(words, k); }
    forall i, j | 0 <= i < j < |r| ensures Ahead(words, r[i], r[j]) { OutranksIsAhead(words, r[i], r[j]); }
    forall p | 0 <= p < |words| && Counts(words[p])
      ensures Lower(words[p]) in r || (|r| == 5 && Ahead(words, r[4], Lower(words[p])))
    {
      OneWord(words, p);
    }
  }

  lemma OneWord(words: seq<string>, p: nat)
    requires p < |words| && Counts(words[p])
    ensures var (r, k) := (Keywords(words), Lower(words[p])); k in r || (|r| == 5 && Ahead(words, r[4], k))
  {
    var (r, k, cs) := (Keywords(words), Lower(words[p]), Candidates(words));
    KeywordsAreTopFive(words);
    LowerLength(words[p]);
    assert p in WordPlaces(words, k);
    CandidateIsPlaced(words, k);
    if k !in r {
      AllKept(r, Elements(cs), k);
      OutranksIsAhead(words, r[4], k);
    }
  }

  /** A pool of which something is left out has more than was asked for. */
  lemma AllKept(r: seq<string>, pool: set<string>, k: string)
    requires |r| == (if |pool| < 5 then |pool| else 5) && (forall w <- r :: w in pool) && NoRepeat(r)
    requires k in pool && k !in r
    ensures |r| == 5
  {
    SizeOf(r);
    assert Elements(r) + {k} <= pool;
    Larger(Elements(r) + {k}, pool);
  }

  lemma {:induction false} SizeOf(r: seq<string>)
    requires NoRepeat(r)
    ensures |Elements(r)| == |r|
  {
    if r != [] {
      var init := r[..|r| - 1];
      SizeOf(init);
      assert Elements(r) == Elements(init) + {r[|r| - 1]};
    }
  }

  lemma Larger<T>(part: set<T>, whole: set<T>)
    requires part <= whole
    ensures |part| <= |whole|
  {
    assert whole == part + (whole - part);
  }

  // ---------------------------------------------------------------------
  // Word count, reading time and lead
  // ---------------------------------------------------------------------

  ghost predicate Begins(s: string, k: nat) {
    k < |s| && IsWordChar(s[k]) && (k == 0 || !IsWordChar(s[k - 1]))
  }

  /** Where a word begins. */
  ghost function Beginnings(s: string): Places {
    set k: nat | k < |s| && Begins(s, k)
  }

  lemma WordsAreCounted(s: string)
    ensures |Words(s)| == |Beginnings(s)|
  {
    var at := WordsAreStretches(s);
    forall i | 0 <= i < |at| ensures at[i] in Beginnings(s) { BeginsAWord(s, Words(s)[i], at[i]); }
    forall k | k in Beginnings(s) ensures k in SetOf(at) {
      assert k in Members(s, IsWordChar);
      var i :| 0 <= i < |Words(s)| && Inside(Words(s)[i], at[i], k);
      BeginsThere(s, Words(s)[i], at[i], k);
    }
    Increasing(at);
    assert Beginnings(s) == SetOf(at);
  }

  lemma BeginsAWord(s: string, part: string, at: nat)
    requires part != "" && Stretch(s, Members(s, IsWordChar), part, at)
    ensures at in Beginnings(s)
  {
    assert at in Members(s, IsWordChar);
  }

  lemma BeginsThere(s: string, part: string, at: nat, k: nat)
    requires Stretch(s, Members(s, IsWordChar), part, at) && Inside(part, at, k) && k in Beginnings(s)
    ensures k == at
  {
    forall i | at < i < at + |part| ensures !Begins(s, i) { assert i - 1 in Members(s, IsWordChar); }
  }

  ghost function SetOf(at: seq<nat>): Places {
    set k | k in at
  }

  lemma {:induction false} Increasing(at: seq<nat>)
    requires forall i, j :: 0 <= i < j < |at| ==> at[i] < at[j]
    ensures |SetOf(at)| == |at|
  {
    if at != [] {
      var (init, last) := (at[..|at| - 1], at[|at| - 1]);
      Increasing(init);
      forall k | k in SetOf(init) ensures k < last {
        var i :| 0 <= i < |init| && init[i] == k;
        assert at[i] < at[|at| - 1];
      }
      assert at == init + [last];
      assert SetOf(at) == SetOf(init) + {last};
      assert last !in SetOf(init);
      assert |SetOf(init) + {last}| == |init| + 1;
    } else {
      assert SetOf(at) == {};
    }
  }

  /** At two hundred words a minute, the nearest number of seconds, the even
      one if two are; at least one. */
  lemma ReadingTimeIsNearest(words: nat)
    ensures var r := ReadingTime(words); var tenths := 10 * r - 3 * words;
            if words <= 1 then r == 1
            else r >= 1 && -5 <= tenths <= 5 && (tenths == 5 || tenths == -5 ==> r % 2 == 0)
  {}

  /** Words with one blank between two, and nothing else. */
  ghost predicate Tight(s: string) {
    && Stripped(s)
    && forall k :: 0 <= k < |s| && IsSpace(s[k]) ==> s[k] == ' ' && k + 1 < |s| && !IsSpace(s[k + 1])
  }

  ghost predicate Solid(parts: seq<string>) {
    forall i :: 0 <= i < |parts| ==> parts[i] != "" && forall k :: 0 <= k < |parts[i]| ==> IsInk(parts[i][k])
  }

  lemma {:induction false} RunsOfSolid(w: string, tail: string)
    requires w != "" && (forall k :: 0 <= k < |w| ==> IsInk(w[k])) && (tail == "" || !IsInk(tail[0]))
    ensures Runs(w + tail, IsInk) == [w] + Runs(tail, IsInk)
  {
    var s := w + tail;
    assert s[1..] == w[1..] + tail;
    if |w| > 1 {
      RunsOfSolid(w[1..], tail);
      assert [w[0]] + w[1..] == w;
    } else {
      assert w == [w[0]] && s[1..] == tail;
    }
  }

  lemma {:induction false} JoinIsTight(parts: seq<string>)
    requires Solid(parts)
    ensures Tight(Join(parts)) && (parts != [] ==> Join(parts) != "" && IsInk(Join(parts)[0]))
  {
    if |parts| > 1 {
      JoinIsTight(parts[1..]);
      TightOn(parts[0], Join(parts[1..]));
    }
  }

  lemma {:induction false} RunsOfJoin(parts: seq<string>)
    requires Solid(parts)
    ensures Runs(Join(parts), IsInk) == parts
  {
    if |parts| == 1 {
      RunsOfSolid(parts[0], "");
      assert parts[0] + "" == parts[0];
    } else if |parts| > 1 {
      RunsOfJoin(parts[1..]);
      OneWordMore(parts[0], Join(parts[1..]), parts[1..]);
      assert parts == [parts[0]] + parts[1..];
    }
  }

  lemma OneWordMore(w: string, rest: string, parts: seq<string>)
    requires w != "" && (forall k :: 0 <= k < |w| ==> IsInk(w[k])) && Runs(rest, IsInk) == parts
    ensures Runs(w + " " + rest, IsInk) == [w] + parts
  {
    assert w + " " + rest == w + (" " + rest) && (" " + rest)[1..] == rest;
    RunsOfSolid(w, " " + rest);
  }

  lemma TightOn(w: string, rest: string)
    requires w != "" && (forall k :: 0 <= k < |w| ==> IsInk(w[k])) && Tight(rest) && rest != ""
    ensures Tight(w + " " + rest)
  {
    var s := w + " " + rest;
    forall k | 0 <= k < |s| && IsSpace(s[k]) ensures s[k] == ' ' && k + 1 < |s| && !IsSpace(s[k + 1]) {
      if k > |w| { assert s[k] == rest[k - |w| - 1]; }
    }
  }

  /** Squeezing keeps the ink in its runs, and leaves one blank between two. */
  lemma SqueezeIsTight(s: string)
    ensures Tight(Squeeze(s)) && Runs(Squeeze(s), IsInk) == Runs(s, IsInk)
  {
    var at := RunsAreStretches(s, IsInk);
    RunsAreNotEmpty(s, IsInk);
    var parts := Runs(s, IsInk);
    forall i | 0 <= i < |parts| ensures parts[i] != "" && forall k :: 0 <= k < |parts[i]| ==> IsInk(parts[i][k]) {
      assert Stretch(s, Members(s, IsInk), parts[i], at[i]);
      forall k | 0 <= k < |parts[i]| ensures IsInk(parts[i][k]) {
        assert at[i] + k in Members(s, IsInk) && s[at[i]..at[i] + |parts[i]|][k] == s[at[i] + k];
      }
    }
    JoinIsTight(parts);
    RunsOfJoin(parts);
  }

  /** The text a lead is cut from: the squeezed first sentence, or the first
      thirty words. */
  ghost function LeadSource(content: string): string {
    if Sentences(content) != [] then Squeeze(Sentences(content)[0])
    else Join(Words(content)[..if |Words(content)| < 30 then |Words(content)| else 30])
  }

  /** Its start, as far as so many characters. */
  ghost predicate IsStart(lead: string, whole: string, n: nat) {
    lead <= whole && |lead| == if |whole| < n then |whole| else n
  }

  lemma PrefixIsStart(s: string, n: nat)
    ensures IsStart(Prefix(s, n), s, n)
  {}

  lemma LeadIsCut(content: string, document: Option<DocumentRef>)
    ensures BuildSummary(content, document).lead == Prefix(LeadSource(content), 280)
  {
    FirstThirty(Words(content), Sentences(content));
  }

  lemma FirstThirty(words: seq<string>, sentences: seq<string>)
    ensures sentences == [] ==> RawLead(words, sentences) == Join(words[..if |words| < 30 then |words| else 30])
  {
    assert words[..|words|] == words;
  }

  /** What every summary of a content says about it, whoever is credited: its
      words, sentences and characters counted, its keywords, the time it takes
      to read, and as lead the start of its first sentence. */
  lemma SummaryMeasures(content: string, document: Option<DocumentRef>)
    ensures var r := BuildSummary(content, document);
            && r.wordCount == |Beginnings(content)| && r.charCount == |content| && r.sentenceCount == |Sentences(content)|
            && r.keywords == Keywords(Words(content)) && r.readingTimeSeconds == ReadingTime(|Beginnings(content)|)
            && IsStart(r.lead, LeadSource(content), 280)
            && r.source.Generated? && r.document == document && r.origin == None
  {
    WordsAreCounted(content);
    LeadIsCut(content, document);
    PrefixIsStart(LeadSource(content), 280);
  }
}
