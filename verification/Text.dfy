/** The text functions under the content cache: what `hash_content` treats as
    identical, and how the summarizer cuts a text into words and sentences. */
module Text {

  // ---------------------------------------------------------------------
  // Characters and normal form
  // ---------------------------------------------------------------------

  /** Python's `str.isspace`, which `str.strip`, `str.split` and `\s` share. */
  predicate IsSpace(c: char) {
    var n := c as int;
    || 0x09 <= n <= 0x0D
    || 0x1C <= n <= 0x20
    || n == 0x85 || n == 0xA0 || n == 0x1680
    || 0x2000 <= n <= 0x200A
    || n == 0x2028 || n == 0x2029 || n == 0x202F || n == 0x205F || n == 0x3000
  }

  /** The class `[A-Za-z0-9']`. */
  predicate IsWordChar(c: char) {
    'a' <= c <= 'z' || 'A' <= c <= 'Z' || '0' <= c <= '9' || c == '\''
  }

  /** The class `[.!?]`. */
  predicate IsStop(c: char) {
    c == '.' || c == '!' || c == '?'
  }

  function ReplaceCrLf(s: string): string {
    if |s| >= 2 && s[0] == '\r' && s[1] == '\n' then "\n" + ReplaceCrLf(s[2..])
    else if s == "" then ""
    else [s[0]] + ReplaceCrLf(s[1..])
  }

  function ReplaceCr(s: string): string {
    if s == "" then ""
    else [if s[0] == '\r' then '\n' else s[0]] + ReplaceCr(s[1..])
  }

  function StripLeft(s: string): string {
    if s != "" && IsSpace(s[0]) then StripLeft(s[1..]) else s
  }

  function StripRight(s: string): string {
    if s != "" && IsSpace(s[|s| - 1]) then StripRight(s[..|s| - 1]) else s
  }

  function Strip(s: string): string {
    StripRight(StripLeft(s))
  }

  function Normalize(content: string): string {
    Strip(ReplaceCr(ReplaceCrLf(content)))
  }

  /** SHA-256 of the normal form, taken as injective on it. */
  datatype ContentHash = Sha256(normalized: string)

  function HashContent(content: string): ContentHash {
    Sha256(Normalize(content))
  }

  // ---------------------------------------------------------------------
  // Words and sentences
  // ---------------------------------------------------------------------

  /** The maximal runs of characters in the class `p`, in order. */
  function Runs(s: string, p: char -> bool): (runs: seq<string>)
    ensures s != "" && p(s[0]) ==> runs != []
  {
    if s == "" then []
    else if !p(s[0]) then Runs(s[1..], p)
    else if |s| == 1 || !p(s[1]) then [[s[0]]] + Runs(s[1..], p)
    else
      var rest := Runs(s[1..], p);
      [[s[0]] + rest[0]] + rest[1..]
  }

  /** `_WORD_RE.findall(content)`. */
  function Words(s: string): seq<string> {
    Runs(s, IsWordChar)
  }

  predicate IsInk(c: char) {
    !IsSpace(c)
  }

  function Join(parts: seq<string>): string {
    if |parts| == 0 then ""
    else if |parts| == 1 then parts[0]
    else parts[0] + " " + Join(parts[1..])
  }

  /** `" ".join(s.split())`. */
  function Squeeze(s: string): string {
    Join(Runs(s, IsInk))
  }

  function LeadingStops(s: string): (n: nat)
    ensures n <= |s|
    ensures forall i :: 0 <= i < n ==> IsStop(s[i])
    ensures n < |s| ==> !IsStop(s[n])
  {
    if s == "" || !IsStop(s[0]) then 0 else 1 + LeadingStops(s[1..])
  }

  /** Length of the match of `[.!?]+(?:\s|$)` at the start of `s`; 0 when it
      does not match there. */
  function TerminatorLength(s: string): (n: nat)
    ensures n <= |s|
  {
    var n := LeadingStops(s);
    if n == 0 then 0
    else if n == |s| then n
    else if IsSpace(s[n]) then n + 1
    else 0
  }

  /** `_SENTENCE_RE.split(content)`. */
  function Pieces(s: string): (ps: seq<string>)
    ensures |ps| >= 1
    decreases |s|
  {
    if s == "" then [""]
    else
      var m := TerminatorLength(s);
      if m > 0 then [""] + Pieces(s[m..])
      else
        var rest := Pieces(s[1..]);
        [[s[0]] + rest[0]] + rest[1..]
  }

  predicate IsBlank(s: string) {
    Strip(s) == ""
  }

  function NonBlank(ps: seq<string>): seq<string> {
    if ps == [] then []
    else if IsBlank(ps[0]) then NonBlank(ps[1..])
    else [ps[0]] + NonBlank(ps[1..])
  }

  function Sentences(s: string): seq<string> {
    NonBlank(Pieces(s))
  }

  function SqueezeAll(ps: seq<string>): seq<string> {
    if ps == [] then [] else [Squeeze(ps[0])] + SqueezeAll(ps[1..])
  }

  // ---------------------------------------------------------------------
  // Whitespace-collapsed form
  // ---------------------------------------------------------------------

  /** Every whitespace run becomes one blank and the trailing run disappears. */
  function Canon(s: string): (r: string)
    ensures s != "" && !IsSpace(s[0]) ==> r != "" && r[0] == s[0]
    ensures s == "" ==> r == ""
    ensures s != "" && IsSpace(s[0]) && r != "" ==> r[0] == ' '
  {
    if s == "" then ""
    else
      var rest := Canon(s[1..]);
      if !IsSpace(s[0]) then [s[0]] + rest
      else if rest == "" || rest[0] == ' ' then rest
      else " " + rest
  }

  /** The canonical form without its leading blank. */
  function Core(s: string): string {
    var c := Canon(s);
    if c != "" && c[0] == ' ' then c[1..] else c
  }

  lemma {:induction false} CanonRuns(s: string)
    ensures Runs(Canon(s), IsWordChar) == Runs(s, IsWordChar)
    ensures Runs(Canon(s), IsInk) == Runs(s, IsInk)
  {
    if s != "" {
      CanonRuns(s[1..]);
      var rest := Canon(s[1..]);
      if IsSpace(s[0]) {
        assert (" " + rest)[1..] == rest;
      } else {
        assert ([s[0]] + rest)[1..] == rest;
      }
    }
  }

  lemma DropBlankRuns(s: string)
    ensures Runs(" " + s, IsWordChar) == Runs(s, IsWordChar)
    ensures Runs(" " + s, IsInk) == Runs(s, IsInk)
  {}

  lemma CoreRuns(s: string)
    ensures Runs(Core(s), IsWordChar) == Runs(s, IsWordChar)
    ensures Runs(Core(s), IsInk) == Runs(s, IsInk)
  {
    CanonRuns(s);
    var c := Canon(s);
    if c != "" && c[0] == ' ' {
      assert c == " " + c[1..];
      DropBlankRuns(c[1..]);
    }
  }

  // The sentence split commutes with collapsing whitespace.

  lemma {:induction false} BlankIffNoInk(s: string)
    ensures IsBlank(s) <==> Canon(s) == ""
  {
    StripLeftCanon(s);
    var t := StripLeft(s);
    StripRightCanon(t);
    if Strip(s) != "" {
      assert !IsSpace(t[0]);
      StripRightHead(t);
    }
  }

  lemma {:induction false} StripLeftCanon(s: string)
    ensures StripLeft(s) == "" || !IsSpace(StripLeft(s)[0])
    ensures Canon(StripLeft(s)) == Core(s)
    ensures StripLeft(s) == "" <==> Canon(s) == ""
  {
    if s != "" && IsSpace(s[0]) {
      StripLeftCanon(s[1..]);
    } else if s != "" {
      CanonHead(s);
    }
  }

  lemma CanonHead(s: string)
    requires s != "" && !IsSpace(s[0])
    ensures Canon(s) != "" && Canon(s)[0] == s[0] && s[0] != ' '
  {}

  lemma {:induction false} StripRightHead(s: string)
    requires s != "" && !IsSpace(s[0])
    ensures StripRight(s) != "" && StripRight(s)[0] == s[0]
  {
    if IsSpace(s[|s| - 1]) {
      StripRightHead(s[..|s| - 1]);
    }
  }

  lemma {:induction false} CanonDropLast(s: string)
    requires s != "" && IsSpace(s[|s| - 1])
    ensures Canon(s[..|s| - 1]) == Canon(s)
  {
    if |s| > 1 {
      CanonDropLast(s[1..]);
      assert s[1..][..|s[1..]| - 1] == s[..|s| - 1][1..];
    } else {
      assert s[1..] == "";
    }
  }

  lemma {:induction false} StripRightCanon(s: string)
    ensures Canon(StripRight(s)) == Canon(s)
  {
    if s != "" && IsSpace(s[|s| - 1]) {
      CanonDropLast(s);
      StripRightCanon(s[..|s| - 1]);
    }
  }

  lemma {:induction false} CanonStops(s: string)
    ensures LeadingStops(Canon(s)) == LeadingStops(s)
    ensures LeadingStops(s) <= |Canon(s)|
  {
    if s != "" && IsStop(s[0]) {
      CanonStops(s[1..]);
      assert Canon(s)[1..] == Canon(s[1..]);
    }
  }

  lemma {:induction false} CanonAfterStops(s: string, n: nat)
    requires n <= LeadingStops(s)
    ensures n <= |Canon(s)|
    ensures Canon(s)[..n] == s[..n]
    ensures Canon(s)[n..] == Canon(s[n..])
  {
    if n == 0 {
      assert s[0..] == s;
    } else {
      CanonAfterStops(s[1..], n - 1);
      var c, d := Canon(s), Canon(s[1..]);
      assert c == [s[0]] + d;
      assert s[1..][n - 1..] == s[n..];
      assert c[n..] == d[n - 1..];
      assert s[..n] == [s[0]] + s[1..][..n - 1];
      assert c[..n] == [s[0]] + d[..n - 1];
    }
  }

  lemma CanonOfStops(s: string, n: nat)
    requires n == LeadingStops(s)
    ensures Canon(s) == s[..n] + Canon(s[n..])
    ensures LeadingStops(Canon(s)) == n
  {
    CanonStops(s);
    CanonAfterStops(s, n);
    assert Canon(s) == Canon(s)[..n] + Canon(s)[n..];
  }

  lemma TerminatorCanon(s: string)
    ensures TerminatorLength(s) > 0 <==> TerminatorLength(Canon(s)) > 0
  {}

  /** First pieces with the same canonical form, and the same sentences after. */
  ghost predicate SamePieces(ps: seq<string>, qs: seq<string>)
    requires |ps| >= 1 && |qs| >= 1
  {
    && Canon(ps[0]) == Canon(qs[0])
    && SqueezeAll(NonBlank(ps[1..])) == SqueezeAll(NonBlank(qs[1..]))
  }

  lemma SameCanonSameSqueeze(a: string, b: string)
    requires Core(a) == Core(b)
    ensures Squeeze(a) == Squeeze(b)
    ensures IsBlank(a) <==> IsBlank(b)
  {
    CoreRuns(a);
    CoreRuns(b);
    BlankIffNoInk(a);
    BlankIffNoInk(b);
    CoreBlank(a);
    CoreBlank(b);
  }

  lemma {:induction false} CoreBlank(s: string)
    ensures Core(s) == "" <==> Canon(s) == ""
    ensures Core(s) != "" ==> !IsSpace(Core(s)[0])
  {
    StripLeftCanon(s);
    if StripLeft(s) != "" {
      CanonHead(StripLeft(s));
    }
  }

  lemma SamePiecesSameSentences(ps: seq<string>, qs: seq<string>)
    requires |ps| >= 1 && |qs| >= 1
    requires Core(ps[0]) == Core(qs[0])
    requires SqueezeAll(NonBlank(ps[1..])) == SqueezeAll(NonBlank(qs[1..]))
    ensures SqueezeAll(NonBlank(ps)) == SqueezeAll(NonBlank(qs))
  {
    SameCanonSameSqueeze(ps[0], qs[0]);
    assert ([ps[0]] + NonBlank(ps[1..]))[1..] == NonBlank(ps[1..]);
    assert ([qs[0]] + NonBlank(qs[1..]))[1..] == NonBlank(qs[1..]);
  }

  lemma {:induction false} BlankPieces(s: string)
    requires Canon(s) == ""
    ensures Pieces(s) == [s]
  {
    if s != "" {
      assert IsSpace(s[0]);
      BlankPieces(s[1..]);
      assert [s[0]] + s[1..] == s;
    }
  }

  lemma {:induction false} PiecesOfBlankHead(x: string)
    ensures Pieces(" " + x) == [" " + Pieces(x)[0]] + Pieces(x)[1..]
  {}

  lemma {:induction false} PiecesCanon(s: string)
    ensures SamePieces(Pieces(s), Pieces(Canon(s)))
    decreases |s|
  {
    if s == "" {
    } else if TerminatorLength(s) > 0 {
      PiecesCanonTerminator(s);
    } else {
      PiecesCanonPlain(s);
    }
  }

  lemma {:induction false} PiecesCanonPlain(s: string)
    requires s != "" && TerminatorLength(s) == 0
    ensures SamePieces(Pieces(s), Pieces(Canon(s)))
    decreases |s|, 0
  {
    var t := s[1..];
    PiecesCanon(t);
    TerminatorCanon(s);
    var (ps, qs) := (Pieces(t), Pieces(Canon(t)));
    var p0 := [s[0]] + ps[0];
    assert Pieces(s) == [p0] + ps[1..];
    assert p0[1..] == ps[0];
    if !IsSpace(s[0]) {
      var c := Canon(s);
      assert c[1..] == Canon(t);
      var q0 := [s[0]] + qs[0];
      assert Pieces(c) == [q0] + qs[1..];
      assert q0[1..] == qs[0];
    } else if Canon(t) == "" {
      BlankPieces(t);
    } else if Canon(t)[0] == ' ' {
      var y := Canon(t)[1..];
      assert Canon(t) == " " + y;
      PiecesOfBlankHead(y);
    } else {
      PiecesOfBlankHead(Canon(t));
      assert (" " + qs[0])[1..] == qs[0];
    }
  }

  lemma {:induction false} PiecesCanonTerminator(s: string)
    requires s != "" && TerminatorLength(s) > 0
    ensures SamePieces(Pieces(s), Pieces(Canon(s)))
    decreases |s|, 0
  {
    var n := LeadingStops(s);
    if n == |s| {
      CanonOfStops(s, n);
      assert Canon(s) == s[..n] == s;
    } else {
      var u := s[n + 1..];
      PiecesCanon(u);
      SamePiecesSameSentences(Pieces(u), Pieces(Canon(u)));
      if Canon(u) == "" { BlankTail(u); } else { TailWithInk(u); }
      PiecesAtTerminator(s, n);
    }
  }

  lemma BlankTail(u: string)
    requires Canon(u) == ""
    ensures NonBlank(Pieces(u)) == [] == NonBlank(Pieces(Core(u)))
  {
    BlankPieces(u);
    BlankIffNoInk(u);
  }

  lemma TailWithInk(u: string)
    requires Canon(u) != "" && SqueezeAll(NonBlank(Pieces(u))) == SqueezeAll(NonBlank(Pieces(Canon(u))))
    ensures SqueezeAll(NonBlank(Pieces(u))) == SqueezeAll(NonBlank(Pieces(Core(u))))
  {
    if Canon(u) != Core(u) {
      assert Canon(u) == " " + Core(u);
      LeadingBlankSentences(Core(u));
    }
  }

  lemma PiecesAtTerminator(s: string, n: nat)
    requires 0 < n == LeadingStops(s) < |s| && IsSpace(s[n])
    ensures Pieces(s) == [""] + Pieces(s[n + 1..])
    ensures Pieces(Canon(s)) == [""] + Pieces(CanonTail(s, n))
  {
    CanonAtTerminator(s, n);
  }

  /** What follows the terminator in the canonical form. */
  function CanonTail(s: string, n: nat): string
    requires n < |s|
  {
    Core(s[n + 1..])
  }

  lemma CanonAtTerminator(s: string, n: nat)
    requires 0 < n == LeadingStops(s) < |s| && IsSpace(s[n])
    ensures TerminatorLength(Canon(s)) == if CanonTail(s, n) == "" then n else n + 1
    ensures TerminatorLength(Canon(s)) <= |Canon(s)|
    ensures Canon(s)[TerminatorLength(Canon(s))..] == CanonTail(s, n)
  {
    CanonOfStops(s, n);
    CanonOfBlankHead(s[n..]);
    assert s[n..][1..] == s[n + 1..];
    TerminatorAfterStops(s[..n], Canon(s[n..]), n);
  }

  lemma CanonOfBlankHead(s: string)
    requires s != "" && IsSpace(s[0])
    ensures Canon(s) == if Core(s[1..]) == "" then "" else " " + Core(s[1..])
  {}

  lemma TerminatorAfterStops(stops: string, tail: string, n: nat)
    requires 0 < |stops| == n == LeadingStops(stops + tail)
    requires tail == "" || tail[0] == ' '
    ensures TerminatorLength(stops + tail) == if tail == "" then n else n + 1
    ensures (stops + tail)[TerminatorLength(stops + tail)..] == if tail == "" then "" else tail[1..]
  {}

  lemma LeadingBlankSentences(y: string)
    ensures SqueezeAll(Sentences(" " + y)) == SqueezeAll(Sentences(y))
  {}

  lemma CoreSentences(s: string)
    ensures SqueezeAll(Sentences(Core(s))) == SqueezeAll(Sentences(s))
  {
    PiecesCanon(s);
    SamePiecesSameSentences(Pieces(s), Pieces(Canon(s)));
    var c := Canon(s);
    if c != "" && c[0] == ' ' {
      assert c == " " + c[1..];
      LeadingBlankSentences(c[1..]);
    }
  }

  // ---------------------------------------------------------------------
  // Normalization only changes whitespace
  // ---------------------------------------------------------------------

  lemma {:induction false} ReplaceCrLfCanon(s: string)
    ensures Canon(ReplaceCrLf(s)) == Canon(s)
    decreases |s|
  {
    if |s| >= 2 && s[0] == '\r' && s[1] == '\n' {
      ReplaceCrLfCanon(s[2..]);
      assert s[1..][1..] == s[2..];
      assert ("\n" + ReplaceCrLf(s[2..]))[1..] == ReplaceCrLf(s[2..]);
    } else if s != "" {
      ReplaceCrLfCanon(s[1..]);
      assert ([s[0]] + ReplaceCrLf(s[1..]))[1..] == ReplaceCrLf(s[1..]);
    }
  }

  lemma {:induction false} ReplaceCrCanon(s: string)
    ensures Canon(ReplaceCr(s)) == Canon(s)
  {
    if s != "" {
      ReplaceCrCanon(s[1..]);
      assert ReplaceCr(s)[1..] == ReplaceCr(s[1..]);
    }
  }

  /** Normalizing keeps everything except the shape of the whitespace. */
  lemma NormalizeKeepsCore(s: string)
    ensures Core(Normalize(s)) == Core(s)
  {
    var a := ReplaceCrLf(s);
    var b := ReplaceCr(a);
    ReplaceCrLfCanon(s);
    ReplaceCrCanon(a);
    StripLeftCanon(b);
    StripRightCanon(StripLeft(b));
    CoreBlank(b);
  }

  /** Contents with one hash have the same words and, up to whitespace, the
      same sentences. */
  lemma SameHashSameText(a: string, b: string)
    requires HashContent(a) == HashContent(b)
    ensures Words(a) == Words(b)
    ensures SqueezeAll(Sentences(a)) == SqueezeAll(Sentences(b))
  {
    NormalizeKeepsCore(a);
    NormalizeKeepsCore(b);
    CoreRuns(a);
    CoreRuns(b);
    CoreSentences(a);
    CoreSentences(b);
  }

  // ---------------------------------------------------------------------
  // Normalization is idempotent
  // ---------------------------------------------------------------------

  ghost predicate NoCr(s: string) {
    forall i :: 0 <= i < |s| ==> s[i] != '\r'
  }

  ghost predicate Stripped(s: string) {
    s != "" ==> !IsSpace(s[0]) && !IsSpace(s[|s| - 1])
  }

  lemma {:induction false} ReplaceCrClears(s: string)
    ensures NoCr(ReplaceCr(s))
    ensures NoCr(s) ==> ReplaceCr(s) == s && ReplaceCrLf(s) == s
  {
    if s != "" {
      ReplaceCrClears(s[1..]);
      var r := ReplaceCr(s);
      forall i | 0 <= i < |r| ensures r[i] != '\r' {
        if i > 0 { assert r[i] == ReplaceCr(s[1..])[i - 1]; }
      }
    }
  }

  lemma {:induction false} StripLeftSuffix(s: string)
    ensures exists k :: 0 <= k <= |s| && StripLeft(s) == s[k..]
    ensures StripLeft(s) != "" ==> !IsSpace(StripLeft(s)[0])
  {
    if s != "" && IsSpace(s[0]) {
      StripLeftSuffix(s[1..]);
      var k :| 0 <= k <= |s[1..]| && StripLeft(s[1..]) == s[1..][k..];
      assert s[1..][k..] == s[k + 1..];
    } else {
      assert s[0..] == s;
    }
  }

  lemma {:induction false} StripRightPrefix(s: string)
    ensures StripRight(s) <= s
    ensures StripRight(s) != "" ==> !IsSpace(StripRight(s)[|StripRight(s)| - 1])
  {
    if s != "" && IsSpace(s[|s| - 1]) {
      StripRightPrefix(s[..|s| - 1]);
    }
  }

  lemma NormalForm(s: string)
    ensures NoCr(Normalize(s)) && Stripped(Normalize(s))
  {
    var b := ReplaceCr(ReplaceCrLf(s));
    ReplaceCrClears(ReplaceCrLf(s));
    StripLeftSuffix(b);
    StripRightPrefix(StripLeft(b));
  }

  /** `hash_content` of a text equals `hash_content` of its normal form, and
      the normal form is the only stripped, CR-free text with that hash. */
  lemma NormalizeFixesNormalForms(s: string)
    ensures NoCr(s) && Stripped(s) <==> Normalize(s) == s
    ensures Normalize(Normalize(s)) == Normalize(s)
  {
    NormalForm(s);
    var t := Normalize(s);
    ReplaceCrClears(t);
    ReplaceCrClears(s);
  }
}
