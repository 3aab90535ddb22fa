/** What tokenizing yields, by positions: the words are the maximal stretches
    of word characters, the sentences those of the characters outside the
    terminators, as far as they are not blank. */
module Stretches {
  import opened Text

  // ---------------------------------------------------------------------
  // Stretches
  // ---------------------------------------------------------------------

  /** Positions of a text. */
  type Places = set<nat>

  /** The part stands at `at`, is made of marked positions only, and could not
      be longer. */
  ghost predicate Stretch(s: string, marked: Places, part: string, at: nat) {
    && at + |part| <= |s| && s[at..at + |part|] == part
    && (forall k :: at <= k < at + |part| ==> k in marked)
    && (at == 0 || at - 1 !in marked) && at + |part| !in marked
  }

  ghost predicate Inside(part: string, at: nat, k: nat) {
    at <= k < at + |part|
  }

  /** Some part has the character at `k`. */
  ghost predicate Hit(parts: seq<string>, at: seq<nat>, k: nat)
    requires |at| == |parts|
  {
    exists i :: 0 <= i < |parts| && Inside(parts[i], at[i], k)
  }

  ghost predicate AllStretch(s: string, marked: Places, parts: seq<string>, at: seq<nat>)
    requires |at| == |parts|
  {
    forall i :: 0 <= i < |parts| ==> Stretch(s, marked, parts[i], at[i])
  }

  ghost predicate InOrder(parts: seq<string>, at: seq<nat>)
    requires |at| == |parts|
  {
    forall i, j :: 0 <= i < j < |parts| ==> at[i] + |parts[i]| < at[j]
  }

  /** In this order the parts are stretches of marked positions, one after the
      other, and leave out none of the `wanted` ones. */
  ghost predicate AreStretches(s: string, marked: Places, wanted: Places, parts: seq<string>, at: seq<nat>) {
    |at| == |parts| && AllStretch(s, marked, parts, at) && InOrder(parts, at) && forall k <- wanted :: Hit(parts, at, k)
  }

  /** The same positions, seen from `m` characters earlier. */
  ghost function Shift(at: seq<nat>, m: nat): (r: seq<nat>)
    ensures |r| == |at| && forall i :: 0 <= i < |at| ==> r[i] == at[i] + m
  {
    seq(|at|, i requires 0 <= i < |at| => at[i] + m)
  }

  /** From `m` on the marks are those of the rest. */
  ghost predicate Continues(marked: Places, rest: Places, m: nat) {
    forall k: nat :: k + m in marked <==> k in rest
  }

  // ---------------------------------------------------------------------
  // Building them up
  // ---------------------------------------------------------------------

  lemma ContinuesAt(marked: Places, rest: Places, m: nat, k: nat)
    requires Continues(marked, rest, m) && k >= m
    ensures k in marked <==> k - m in rest
  {
    var i: nat := k - m;
    assert i + m in marked <==> i in rest;
  }

  lemma StretchShifts(s: string, marked: Places, rest: Places, m: nat, part: string, at: nat)
    requires 0 < m <= |s| && Continues(marked, rest, m) && Stretch(s[m..], rest, part, at)
    requires at == 0 ==> m - 1 !in marked
    ensures Stretch(s, marked, part, at + m)
  {
    assert s[at + m..at + m + |part|] == s[m..][at..at + |part|];
    forall k | at + m <= k < at + m + |part| ensures k in marked { ContinuesAt(marked, rest, m, k); }
    if at > 0 { ContinuesAt(marked, rest, m, at - 1 + m); }
    ContinuesAt(marked, rest, m, at + |part| + m);
  }

  /** Everything moves on behind characters that do not join it. */
  lemma AllShift(s: string, marked: Places, rest: Places, m: nat, parts: seq<string>, at: seq<nat>)
    requires 0 < m <= |s| && Continues(marked, rest, m) && AreStretches(s[m..], rest, rest, parts, at)
    requires m - 1 !in marked || forall i :: 0 <= i < |at| ==> at[i] > 0
    ensures AllStretch(s, marked, parts, Shift(at, m)) && InOrder(parts, Shift(at, m))
    ensures forall k :: k in marked && k >= m ==> Hit(parts, Shift(at, m), k)
  {
    forall i | 0 <= i < |parts| ensures Stretch(s, marked, parts[i], Shift(at, m)[i]) {
      StretchShifts(s, marked, rest, m, parts[i], at[i]);
    }
    forall k | k in marked && k >= m ensures Hit(parts, Shift(at, m), k) {
      ContinuesAt(marked, rest, m, k);
      HitShifts(parts, at, m, k - m);
    }
  }

  lemma HitShifts(parts: seq<string>, at: seq<nat>, m: nat, k: nat)
    requires |at| == |parts| && Hit(parts, at, k)
    ensures Hit(parts, Shift(at, m), k + m)
  {
    var i :| 0 <= i < |parts| && Inside(parts[i], at[i], k);
    assert Inside(parts[i], Shift(at, m)[i], k + m);
  }

  lemma HitCons(part: string, place: nat, parts: seq<string>, at: seq<nat>, k: nat)
    requires |at| == |parts|
    ensures Hit([part] + parts, [place] + at, k) <==> Inside(part, place, k) || Hit(parts, at, k)
  {
    var (all, places) := ([part] + parts, [place] + at);
    if Inside(part, place, k) { assert Inside(all[0], places[0], k); }
    if i :| 0 <= i < |parts| && Inside(parts[i], at[i], k) { assert Inside(all[i + 1], places[i + 1], k); }
  }

  /** A part in front of stretches that begin after it. */
  lemma PartInFront(s: string, marked: Places, first: string, place: nat, parts: seq<string>, at: seq<nat>)
    requires |at| == |parts| && Stretch(s, marked, first, place) && AllStretch(s, marked, parts, at) && InOrder(parts, at)
    requires forall i :: 0 <= i < |parts| ==> place + |first| < at[i]
    ensures AllStretch(s, marked, [first] + parts, [place] + at) && InOrder([first] + parts, [place] + at)
  {}

  /** The first of all. */
  lemma FirstOfAll(s: string, marked: Places, first: string, parts: seq<string>, at: seq<nat>)
    requires |at| == |parts| && Stretch(s, marked, first, 0) && AllStretch(s, marked, parts, at) && InOrder(parts, at)
    requires forall i :: 0 <= i < |parts| ==> |first| < at[i]
    requires forall k :: k in marked && k >= |first| ==> Hit(parts, at, k)
    ensures AreStretches(s, marked, marked, [first] + parts, [0] + at)
  {
    PartInFront(s, marked, first, 0, parts, at);
    forall k | k in marked ensures Hit([first] + parts, [0] + at, k) { HitCons(first, 0, parts, at, k); }
  }

  lemma StartsAtOnce(s: string, marked: Places, parts: seq<string>, at: seq<nat>)
    requires AreStretches(s, marked, marked, parts, at) && 0 in marked
    ensures parts != [] && at[0] == 0
  {
    var i :| 0 <= i < |parts| && Inside(parts[i], at[i], 0);
    forall j | 0 < j < |parts| ensures at[j] > 0 { assert at[0] + |parts[0]| < at[j]; }
  }

  lemma LaterHit(parts: seq<string>, at: seq<nat>, k: nat)
    requires parts != [] && |at| == |parts| && at[0] == 0 && k > |parts[0]| && Hit(parts, at, k - 1)
    ensures Hit(parts[1..], Shift(at[1..], 1), k)
  {
    assert parts == [parts[0]] + parts[1..] && at == [at[0]] + at[1..];
    HitCons(parts[0], at[0], parts[1..], at[1..], k - 1);
    HitShifts(parts[1..], at[1..], 1, k - 1);
  }

  /** The first stretch begins one character earlier. */
  lemma FirstGrows(s: string, marked: Places, rest: Places, parts: seq<string>, at: seq<nat>)
    requires s != "" && 0 in marked && Continues(marked, rest, 1) && AreStretches(s[1..], rest, rest, parts, at)
    requires parts != [] && at[0] == 0
    ensures AreStretches(s, marked, marked, [[s[0]] + parts[0]] + parts[1..], [0] + Shift(at[1..], 1))
  {
    var first := [s[0]] + parts[0];
    FirstIsStretch(s, marked, rest, parts[0]);
    forall i | 0 <= i < |parts[1..]| ensures Stretch(s, marked, parts[1..][i], Shift(at[1..], 1)[i]) {
      StretchShifts(s, marked, rest, 1, parts[i + 1], at[i + 1]);
    }
    forall k | k in marked && k >= |first| ensures Hit(parts[1..], Shift(at[1..], 1), k) {
      ContinuesAt(marked, rest, 1, k);
      LaterHit(parts, at, k);
    }
    FirstOfAll(s, marked, first, parts[1..], Shift(at[1..], 1));
  }

  lemma FirstIsStretch(s: string, marked: Places, rest: Places, part: string)
    requires s != "" && 0 in marked && Continues(marked, rest, 1) && Stretch(s[1..], rest, part, 0)
    ensures Stretch(s, marked, [s[0]] + part, 0)
  {
    assert s[0..1 + |part|] == [s[0]] + s[1..][0..|part|];
    forall k | 0 <= k < 1 + |part| ensures k in marked { if k > 0 { ContinuesAt(marked, rest, 1, k); } }
    ContinuesAt(marked, rest, 1, 1 + |part|);
  }

  // ---------------------------------------------------------------------
  // Words
  // ---------------------------------------------------------------------

  ghost function Members(s: string, p: char -> bool): Places {
    set k: nat | k < |s| && p(s[k])
  }

  lemma MembersContinue(s: string, p: char -> bool)
    requires s != ""
    ensures Continues(Members(s, p), Members(s[1..], p), 1)
    ensures 0 in Members(s, p) <==> p(s[0])
  {}

  ghost predicate NoneEmpty(parts: seq<string>) {
    forall i :: 0 <= i < |parts| ==> parts[i] != ""
  }

  lemma {:induction false} RunsAreNotEmpty(s: string, p: char -> bool)
    ensures NoneEmpty(Runs(s, p))
  {
    if s != "" { RunsAreNotEmpty(s[1..], p); }
  }

  lemma {:induction false} RunsAreStretches(s: string, p: char -> bool) returns (at: seq<nat>)
    ensures AreStretches(s, Members(s, p), Members(s, p), Runs(s, p), at)
  {
    if s == "" {
      at := [];
    } else {
      var later := RunsAreStretches(s[1..], p);
      at := OneCharacterMore(s, p, Runs(s[1..], p), later);
    }
  }

  lemma OneCharacterMore(s: string, p: char -> bool, rest: seq<string>, later: seq<nat>) returns (at: seq<nat>)
    requires s != "" && rest == Runs(s[1..], p) && AreStretches(s[1..], Members(s[1..], p), Members(s[1..], p), rest, later)
    ensures AreStretches(s, Members(s, p), Members(s, p), Runs(s, p), at)
  {
    MembersContinue(s, p);
    if !p(s[0]) {
      at := Shift(later, 1);
      AllShift(s, Members(s, p), Members(s[1..], p), 1, rest, later);
    } else if |s| == 1 || !p(s[1]) {
      at := [0] + Shift(later, 1);
      RunsAreNotEmpty(s[1..], p);
      OneAlone(s, p, rest, later);
    } else {
      StartsAtOnce(s[1..], Members(s[1..], p), rest, later);
      at := [0] + Shift(later[1..], 1);
      FirstGrows(s, Members(s, p), Members(s[1..], p), rest, later);
    }
  }

  /** A run of one character, and those of the rest. */
  lemma OneAlone(s: string, p: char -> bool, rest: seq<string>, later: seq<nat>)
    requires s != "" && p(s[0]) && (|s| == 1 || !p(s[1]))
    requires AreStretches(s[1..], Members(s[1..], p), Members(s[1..], p), rest, later) && NoneEmpty(rest)
    ensures AreStretches(s, Members(s, p), Members(s, p), [[s[0]]] + rest, [0] + Shift(later, 1))
  {
    MembersContinue(s, p);
    assert s[0..1] == [s[0]];
    forall i | 0 <= i < |later| ensures later[i] > 0 {
      assert Stretch(s[1..], Members(s[1..], p), rest[i], later[i]) && rest[i] != "";
      assert later[i] in Members(s[1..], p);
    }
    AllShift(s, Members(s, p), Members(s[1..], p), 1, rest, later);
    FirstOfAll(s, Members(s, p), [s[0]], rest, Shift(later, 1));
  }

  /** The words of a text are the maximal stretches of word characters, from
      left to right, all of them. */
  lemma WordsAreStretches(s: string) returns (at: seq<nat>)
    ensures AreStretches(s, Members(s, IsWordChar), Members(s, IsWordChar), Words(s), at) && NoneEmpty(Words(s))
  {
    at := RunsAreStretches(s, IsWordChar);
    RunsAreNotEmpty(s, IsWordChar);
  }

  // ---------------------------------------------------------------------
  // Sentences
  // ---------------------------------------------------------------------

  /** From here on there are only stops, up to whitespace or the end. */
  ghost predicate EndsSentence(s: string, k: nat) {
    exists e :: k < e <= |s| && OnlyStops(s, k, e) && (e == |s| || IsSpace(s[e]))
  }

  ghost predicate OnlyStops(s: string, k: nat, e: nat)
    requires e <= |s|
  {
    forall m :: k <= m < e ==> IsStop(s[m])
  }

  /** Part of a terminator: one of its stops, or the whitespace after them. */
  ghost predicate InTerminator(s: string, k: nat) {
    EndsSentence(s, k) || (0 < k < |s| && IsSpace(s[k]) && EndsSentence(s, k - 1))
  }

  ghost function Prose(s: string): Places {
    set k: nat | k < |s| && !InTerminator(s, k)
  }

  lemma EndsLater(s: string, m: nat, k: nat)
    requires m <= |s|
    ensures EndsSentence(s, k + m) <==> EndsSentence(s[m..], k)
  {
    if EndsSentence(s, k + m) {
      var e :| k + m < e <= |s| && OnlyStops(s, k + m, e) && (e == |s| || IsSpace(s[e]));
      assert OnlyStops(s[m..], k, e - m);
    }
    if EndsSentence(s[m..], k) {
      var e :| k < e <= |s[m..]| && OnlyStops(s[m..], k, e) && (e == |s[m..]| || IsSpace(s[m..][e]));
      forall i | k + m <= i < e + m ensures IsStop(s[i]) { assert IsStop(s[m..][i - m]); }
      assert OnlyStops(s, k + m, e + m);
    }
  }

  /** The terminator at the start, if there is one. */
  lemma TerminatorAtStart(s: string)
    ensures EndsSentence(s, 0) <==> TerminatorLength(s) > 0
  {
    var n := LeadingStops(s);
    if EndsSentence(s, 0) {
      var e :| 0 < e <= |s| && OnlyStops(s, 0, e) && (e == |s| || IsSpace(s[e]));
      assert IsStop(s[0]);
    }
    if TerminatorLength(s) > 0 { assert OnlyStops(s, 0, n); }
  }

  lemma TerminatorIsCut(s: string)
    requires TerminatorLength(s) > 0
    ensures forall k :: 0 <= k < TerminatorLength(s) ==> InTerminator(s, k)
  {
    var n := LeadingStops(s);
    forall k | 0 <= k < TerminatorLength(s) ensures InTerminator(s, k) {
      if k < n {
        assert OnlyStops(s, k, n);
      } else {
        assert OnlyStops(s, k - 1, n);
        assert EndsSentence(s, k - 1);
      }
    }
  }

  /** Behind a terminator, and behind a character that is in none, the prose is
      that of the rest. */
  lemma ProseContinues(s: string, m: nat)
    requires 0 < m <= |s| && (m < |s| && IsSpace(s[m]) ==> !EndsSentence(s, m - 1))
    ensures Continues(Prose(s), Prose(s[m..]), m)
  {
    forall k: nat ensures k + m in Prose(s) <==> k in Prose(s[m..]) {
      EndsLater(s, m, k);
      if k > 0 { EndsLater(s, m, k - 1); }
    }
  }

  lemma EndsAtStop(s: string, k: nat)
    ensures EndsSentence(s, k) ==> k < |s| && IsStop(s[k])
  {
    if e :| k < e <= |s| && OnlyStops(s, k, e) && (e == |s| || IsSpace(s[e])) { assert IsStop(s[k]); }
  }

  lemma AfterTerminator(s: string)
    requires TerminatorLength(s) > 0
    ensures var m := TerminatorLength(s); m < |s| && IsSpace(s[m]) ==> !EndsSentence(s, m - 1)
  {
    EndsAtStop(s, TerminatorLength(s) - 1);
  }

  /** The pieces between the terminators are the stretches of prose; the first
      begins with the text. */
  lemma {:induction false} PiecesAreStretches(s: string) returns (at: seq<nat>)
    ensures AreStretches(s, Prose(s), Prose(s), Pieces(s), at) && at[0] == 0
    decreases |s|
  {
    if s == "" {
      at := [0];
    } else if TerminatorLength(s) > 0 {
      var m := TerminatorLength(s);
      var later := PiecesAreStretches(s[m..]);
      at := [0] + Shift(later, m);
      PieceEnds(s, Pieces(s[m..]), later);
    } else {
      var later := PiecesAreStretches(s[1..]);
      at := [0] + Shift(later[1..], 1);
      TerminatorAtStart(s);
      ProseContinues(s, 1);
      FirstGrows(s, Prose(s), Prose(s[1..]), Pieces(s[1..]), later);
    }
  }

  lemma PieceEnds(s: string, rest: seq<string>, later: seq<nat>)
    requires TerminatorLength(s) > 0
    requires var m := TerminatorLength(s); AreStretches(s[m..], Prose(s[m..]), Prose(s[m..]), rest, later)
    ensures AreStretches(s, Prose(s), Prose(s), [""] + rest, [0] + Shift(later, TerminatorLength(s)))
  {
    var m := TerminatorLength(s);
    TerminatorIsCut(s);
    AfterTerminator(s);
    ProseContinues(s, m);
    assert InTerminator(s, 0) && InTerminator(s, m - 1) && s[0..0] == "";
    AllShift(s, Prose(s), Prose(s[m..]), m, rest, later);
    FirstOfAll(s, Prose(s), "", rest, Shift(later, m));
  }

  // Blank pieces are left out.

  lemma {:induction false} AllSpaceIsBlank(s: string)
    ensures IsBlank(s) <==> forall k :: 0 <= k < |s| ==> IsSpace(s[k])
  {
    BlankIffNoInk(s);
    CanonOfSpace(s);
  }

  lemma {:induction false} CanonOfSpace(s: string)
    ensures Canon(s) == "" <==> forall k :: 0 <= k < |s| ==> IsSpace(s[k])
  {
    if s != "" {
      CanonOfSpace(s[1..]);
      forall k | 0 < k < |s| ensures s[k] == s[1..][k - 1] {}
    }
  }

  /** What is no whitespace. */
  ghost function Ink(s: string, marked: Places): Places {
    set k | k in marked && k < |s| && !IsSpace(s[k])
  }

  ghost predicate HasInk(part: string) {
    exists k :: 0 <= k < |part| && !IsSpace(part[k])
  }

  ghost predicate NoneBlank(parts: seq<string>) {
    forall i :: 0 <= i < |parts| ==> HasInk(parts[i])
  }

  lemma {:induction false} NonBlankHaveInk(parts: seq<string>)
    ensures NoneBlank(NonBlank(parts))
  {
    if parts != [] {
      NonBlankHaveInk(parts[1..]);
      AllSpaceIsBlank(parts[0]);
    }
  }

  /** Leaving out blank parts loses no ink. */
  lemma {:induction false} NonBlankKeeps(s: string, marked: Places, parts: seq<string>, at: seq<nat>) returns (places: seq<nat>)
    requires |at| == |parts| && AllStretch(s, marked, parts, at) && InOrder(parts, at)
    ensures |places| == |NonBlank(parts)| && AllStretch(s, marked, NonBlank(parts), places) && InOrder(NonBlank(parts), places)
    ensures forall j :: 0 <= j < |places| ==> parts != [] && at[0] <= places[j]
    ensures forall k :: k in Ink(s, marked) && Hit(parts, at, k) ==> Hit(NonBlank(parts), places, k)
  {
    if parts == [] {
      places := [];
    } else {
      var later := NonBlankKeeps(s, marked, parts[1..], at[1..]);
      assert parts == [parts[0]] + parts[1..] && at == [at[0]] + at[1..];
      AllSpaceIsBlank(parts[0]);
      if IsBlank(parts[0]) {
        places := later;
        OneDropped(s, marked, parts, at);
      } else {
        places := [at[0]] + later;
        OneKept(s, marked, parts, at, NonBlank(parts[1..]), later);
      }
    }
  }

  lemma BlankHasNoInk(s: string, marked: Places, part: string, at: nat)
    requires Stretch(s, marked, part, at) && forall k :: 0 <= k < |part| ==> IsSpace(part[k])
    ensures forall k :: Inside(part, at, k) ==> k !in Ink(s, marked)
  {
    forall k: nat | Inside(part, at, k) ensures k !in Ink(s, marked) { assert s[at..at + |part|][k - at] == s[k]; }
  }

  lemma OneDropped(s: string, marked: Places, parts: seq<string>, at: seq<nat>)
    requires parts != [] && |at| == |parts| && Stretch(s, marked, parts[0], at[0]) && forall k :: 0 <= k < |parts[0]| ==> IsSpace(parts[0][k])
    ensures forall k :: k in Ink(s, marked) && Hit(parts, at, k) ==> Hit(parts[1..], at[1..], k)
  {
    BlankHasNoInk(s, marked, parts[0], at[0]);
    assert parts == [parts[0]] + parts[1..] && at == [at[0]] + at[1..];
    forall k | k in Ink(s, marked) && Hit(parts, at, k) ensures Hit(parts[1..], at[1..], k) {
      HitCons(parts[0], at[0], parts[1..], at[1..], k);
    }
  }

  lemma OneKept(s: string, marked: Places, parts: seq<string>, at: seq<nat>, kept: seq<string>, later: seq<nat>)
    requires parts != [] && |at| == |parts| && AllStretch(s, marked, parts, at) && InOrder(parts, at)
    requires |later| == |kept| && AllStretch(s, marked, kept, later) && InOrder(kept, later)
    requires forall j :: 0 <= j < |later| ==> |at| > 1 && at[1] <= later[j]
    requires forall k :: k in Ink(s, marked) && Hit(parts[1..], at[1..], k) ==> Hit(kept, later, k)
    ensures AllStretch(s, marked, [parts[0]] + kept, [at[0]] + later) && InOrder([parts[0]] + kept, [at[0]] + later)
    ensures forall k :: k in Ink(s, marked) && Hit(parts, at, k) ==> Hit([parts[0]] + kept, [at[0]] + later, k)
  {
    PartInFront(s, marked, parts[0], at[0], kept, later);
    forall k | k in Ink(s, marked) && Hit(parts, at, k) ensures Hit([parts[0]] + kept, [at[0]] + later, k) {
      assert parts == [parts[0]] + parts[1..] && at == [at[0]] + at[1..];
      HitCons(parts[0], at[0], parts[1..], at[1..], k);
      HitCons(parts[0], at[0], kept, later, k);
    }
  }

  /** The sentences of a text are the maximal stretches outside terminators
      that are not blank, from left to right, all of them. */
  lemma SentencesAreStretches(s: string) returns (at: seq<nat>)
    ensures AreStretches(s, Prose(s), Ink(s, Prose(s)), Sentences(s), at) && NoneBlank(Sentences(s))
  {
    var places := PiecesAreStretches(s);
    at := NonBlankKeeps(s, Prose(s), Pieces(s), places);
    NonBlankHaveInk(Pieces(s));
  }
}
