/** Which contents share a hash: exactly those whose lines agree once outer
    whitespace is removed. */
module Lines {
  import opened Text

  // ---------------------------------------------------------------------
  // Lines and margins
  // ---------------------------------------------------------------------

  /** The text cut at CRLF, CR or LF. */
  function LinesOf(s: string): (lines: seq<string>)
    ensures |lines| >= 1
    decreases |s|
  {
    if s == "" then [""]
    else if |s| >= 2 && s[0] == '\r' && s[1] == '\n' then [""] + LinesOf(s[2..])
    else if s[0] == '\r' || s[0] == '\n' then [""] + LinesOf(s[1..])
    else
      var rest := LinesOf(s[1..]);
      [[s[0]] + rest[0]] + rest[1..]
  }

  ghost predicate AllSpace(s: string) {
    forall k :: 0 <= k < |s| ==> IsSpace(s[k])
  }

  /** `r` is what stands between the outer whitespace of `s`. */
  ghost predicate Trims(s: string, r: string) {
    Stripped(r) && exists left, right :: AllSpace(left) && AllSpace(right) && s == left + r + right
  }

  /** The text with one kind of line break. */
  function Unified(s: string): string {
    ReplaceCr(ReplaceCrLf(s))
  }

  /** Lines with a line feed between two. */
  function Glue(lines: seq<string>): string
    requires |lines| >= 1
  {
    if |lines| == 1 then lines[0] else lines[0] + "\n" + Glue(lines[1..])
  }

  // ---------------------------------------------------------------------
  // Unifying line breaks
  // ---------------------------------------------------------------------

  lemma Associates(x: string, y: string, z: string)
    ensures (x + y) + z == x + (y + z)
  {}

  /** What it does to the first characters. */
  lemma UnifiedHead(s: string)
    ensures s == "" ==> Unified(s) == ""
    ensures |s| >= 2 && s[0] == '\r' && s[1] == '\n' ==> Unified(s) == "\n" + Unified(s[2..])
    ensures s != "" && !(|s| >= 2 && s[0] == '\r' && s[1] == '\n') ==>
              Unified(s) == [if s[0] == '\r' then '\n' else s[0]] + Unified(s[1..])
  {
    if |s| >= 2 && s[0] == '\r' && s[1] == '\n' {
      assert ReplaceCrLf(s)[1..] == ReplaceCrLf(s[2..]);
    } else if s != "" {
      assert ReplaceCrLf(s)[1..] == ReplaceCrLf(s[1..]);
    }
  }

  lemma {:induction false} UnifiedIsGlued(s: string)
    ensures Unified(s) == Glue(LinesOf(s))
    decreases |s|
  {
    UnifiedHead(s);
    if s == "" {
    } else if |s| >= 2 && s[0] == '\r' && s[1] == '\n' {
      UnifiedIsGlued(s[2..]);
      GlueBreak(LinesOf(s[2..]));
    } else {
      UnifiedIsGlued(s[1..]);
      GlueBreak(LinesOf(s[1..]));
      GlueHead(s[0], LinesOf(s[1..]));
    }
  }

  lemma GlueHead(c: char, lines: seq<string>)
    requires |lines| >= 1
    ensures Glue([[c] + lines[0]] + lines[1..]) == [c] + Glue(lines)
  {
    var more := [[c] + lines[0]] + lines[1..];
    assert more[0] == [c] + lines[0] && more[1..] == lines[1..];
    if |lines| > 1 {
      var rest := "\n" + Glue(lines[1..]);
      assert Glue(more) == ([c] + lines[0]) + rest && Glue(lines) == lines[0] + rest;
      Associates([c], lines[0], rest);
    }
  }

  lemma GlueBreak(lines: seq<string>)
    requires |lines| >= 1
    ensures Glue([""] + lines) == "\n" + Glue(lines)
  {
    assert ([""] + lines)[1..] == lines;
  }

  ghost predicate NoBreak(s: string) {
    forall k :: 0 <= k < |s| ==> s[k] != '\r' && s[k] != '\n'
  }

  ghost predicate NoBreaks(lines: seq<string>) {
    forall i :: 0 <= i < |lines| ==> NoBreak(lines[i])
  }

  lemma {:induction false} LinesHaveNoBreaks(s: string)
    ensures NoBreaks(LinesOf(s))
    decreases |s|
  {
    if s == "" {
    } else if |s| >= 2 && s[0] == '\r' && s[1] == '\n' {
      LinesHaveNoBreaks(s[2..]);
    } else {
      LinesHaveNoBreaks(s[1..]);
    }
  }

  /** Gluing loses nothing. */
  lemma {:induction false} GlueIsCutAgain(lines: seq<string>)
    requires |lines| >= 1 && NoBreaks(lines)
    ensures LinesOf(Glue(lines)) == lines
    decreases |lines|, |lines[0]|
  {
    if lines[0] != "" {
      var (c, shorter) := (lines[0][0], [lines[0][1..]] + lines[1..]);
      assert lines[0] == [c] + lines[0][1..] && NoBreak(lines[0]);
      assert NoBreaks(shorter) && shorter[1..] == lines[1..];
      GlueIsCutAgain(shorter);
      GlueHead(c, shorter);
      assert lines == [[c] + shorter[0]] + shorter[1..];
      assert Glue(lines)[1..] == Glue(shorter);
    } else if |lines| > 1 {
      GlueIsCutAgain(lines[1..]);
      assert Glue(lines) == "\n" + Glue(lines[1..]);
      assert Glue(lines)[1..] == Glue(lines[1..]);
    }
  }

  lemma UnifiedSameLines(a: string, b: string)
    ensures Unified(a) == Unified(b) <==> LinesOf(a) == LinesOf(b)
  {
    UnifiedIsGlued(a);
    UnifiedIsGlued(b);
    LinesHaveNoBreaks(a);
    LinesHaveNoBreaks(b);
    GlueIsCutAgain(LinesOf(a));
    GlueIsCutAgain(LinesOf(b));
  }

  lemma BreakBefore(x: string, y: string)
    requires |x| >= 2 && x[0] == '\r' && x[1] == '\n' && Unified(x[2..] + y) == Unified(x[2..]) + Unified(y)
    ensures Unified(x + y) == Unified(x) + Unified(y)
  {
    assert (x + y)[2..] == x[2..] + y;
    UnifiedHead(x);
    UnifiedHead(x + y);
    Associates("\n", Unified(x[2..]), Unified(y));
  }

  lemma CharBefore(x: string, y: string)
    requires x != "" && !(|x + y| >= 2 && x[0] == '\r' && (x + y)[1] == '\n') && Unified(x[1..] + y) == Unified(x[1..]) + Unified(y)
    ensures Unified(x + y) == Unified(x) + Unified(y)
  {
    assert (x + y)[1..] == x[1..] + y;
    UnifiedHead(x);
    UnifiedHead(x + y);
    Associates([if x[0] == '\r' then '\n' else x[0]], Unified(x[1..]), Unified(y));
  }

  /** It can be done part by part, unless that cuts a CRLF in two. */
  lemma {:induction false} UnifiedParts(x: string, y: string)
    requires x == "" || y == "" || x[|x| - 1] != '\r' || y[0] != '\n'
    ensures Unified(x + y) == Unified(x) + Unified(y)
    decreases |x|
  {
    if x == "" {
      assert x + y == y;
    } else if |x| >= 2 && x[0] == '\r' && x[1] == '\n' {
      UnifiedParts(x[2..], y);
      BreakBefore(x, y);
    } else {
      UnifiedParts(x[1..], y);
      CharBefore(x, y);
    }
  }

  // ---------------------------------------------------------------------
  // Margins
  // ---------------------------------------------------------------------

  lemma {:induction false} StripLeftUnified(s: string)
    ensures StripLeft(Unified(s)) == Unified(StripLeft(s))
    decreases |s|
  {
    UnifiedHead(s);
    if s != "" && IsSpace(s[0]) {
      if |s| >= 2 && s[0] == '\r' && s[1] == '\n' {
        assert s[1..][0] == '\n' && s[1..][1..] == s[2..];
        StripLeftUnified(s[2..]);
        assert Unified(s)[1..] == Unified(s[2..]);
      } else {
        StripLeftUnified(s[1..]);
        assert Unified(s)[1..] == Unified(s[1..]);
      }
    }
  }

  /** What it does to the last character. */
  lemma UnifiedLast(s: string)
    requires s != ""
    ensures var (init, c) := (s[..|s| - 1], s[|s| - 1]);
            Unified(s) == if c == '\n' && init != "" && init[|init| - 1] == '\r' then Unified(init)
                          else Unified(init) + [if c == '\r' then '\n' else c]
  {
    var (init, c) := (s[..|s| - 1], s[|s| - 1]);
    assert s == init + [c];
    if c == '\n' && init != "" && init[|init| - 1] == '\r' {
      var before := init[..|init| - 1];
      assert init == before + "\r" && s == before + "\r\n";
      UnifiedParts(before, "\r");
      UnifiedParts(before, "\r\n");
      assert "\r"[1..] == "" && "\r\n"[2..] == "";
      UnifiedHead("\r");
      UnifiedHead("\r\n");
    } else {
      UnifiedParts(init, [c]);
      UnifiedHead([c]);
      assert [c][1..] == "";
    }
  }

  lemma {:induction false} StripRightUnified(s: string)
    ensures StripRight(Unified(s)) == Unified(StripRight(s))
    decreases |s|
  {
    if s == "" {
    } else {
      var (init, c) := (s[..|s| - 1], s[|s| - 1]);
      UnifiedLast(s);
      if IsSpace(c) {
        StripRightUnified(init);
        if !(c == '\n' && init != "" && init[|init| - 1] == '\r') {
          assert Unified(s)[..|Unified(s)| - 1] == Unified(init);
        }
      }
    }
  }

  /** Line breaks can be unified after the margins are gone. */
  lemma NormalizeOfStripped(s: string)
    ensures Normalize(s) == Unified(Strip(s))
  {
    StripLeftUnified(s);
    StripRightUnified(StripLeft(s));
  }

  lemma {:induction false} StripLeftSplits(s: string) returns (left: string)
    ensures AllSpace(left) && s == left + StripLeft(s)
  {
    if s != "" && IsSpace(s[0]) {
      var rest := StripLeftSplits(s[1..]);
      left := [s[0]] + rest;
    } else {
      left := "";
    }
  }

  lemma {:induction false} StripRightSplits(s: string) returns (right: string)
    ensures AllSpace(right) && s == StripRight(s) + right
  {
    if s != "" && IsSpace(s[|s| - 1]) {
      var rest := StripRightSplits(s[..|s| - 1]);
      right := rest + [s[|s| - 1]];
    } else {
      right := "";
    }
  }

  lemma StripTrims(s: string)
    ensures Trims(s, Strip(s))
  {
    var left := StripLeftSplits(s);
    var right := StripRightSplits(StripLeft(s));
    assert s == left + Strip(s) + right;
    StripLeftSuffix(s);
    StripRightPrefix(StripLeft(s));
  }

  /** There is only one way to trim a text. */
  lemma {:induction false} TrimIsUnique(s: string, r: string)
    requires Trims(s, r)
    ensures r == Strip(s)
  {
    var left, right :| AllSpace(left) && AllSpace(right) && s == left + r + right;
    assert s == left + (r + right);
    StripLeftDrops(left, r + right);
    if r == "" {
      assert r + right == right;
      StripLeftDrops(right, "");
      assert right + "" == right;
    } else {
      assert StripLeft(r + right) == r + right;
      StripRightDrops(r, right);
    }
  }

  lemma {:induction false} StripLeftDrops(left: string, s: string)
    requires AllSpace(left)
    ensures StripLeft(left + s) == StripLeft(s)
  {
    if left == "" {
      assert left + s == s;
    } else {
      assert (left + s)[1..] == left[1..] + s;
      StripLeftDrops(left[1..], s);
    }
  }

  lemma {:induction false} StripRightDrops(s: string, right: string)
    requires AllSpace(right) && Stripped(s)
    ensures StripRight(s + right) == s
    decreases |right|
  {
    if right == "" {
      assert s + right == s;
    } else {
      assert (s + right)[..|s + right| - 1] == s + right[..|right| - 1];
      StripRightDrops(s, right[..|right| - 1]);
    }
  }

  // ---------------------------------------------------------------------
  // Which contents share a hash
  // ---------------------------------------------------------------------

  /** Two contents have one hash if and only if their lines, cut at CRLF, CR or
      LF, are the same after outer whitespace is removed. */
  lemma SameHashSameLines(a: string, b: string, x: string, y: string)
    requires Trims(a, x) && Trims(b, y)
    ensures HashContent(a) == HashContent(b) <==> LinesOf(x) == LinesOf(y)
  {
    TrimIsUnique(a, x);
    TrimIsUnique(b, y);
    NormalizeOfStripped(a);
    NormalizeOfStripped(b);
    UnifiedSameLines(x, y);
  }

  /** So it does not matter which kind a line break is. */
  lemma LineBreaksAreEqual(x: string, y: string)
    requires x == "" || x[|x| - 1] != '\r'
    ensures HashContent(x + "\r\n" + y) == HashContent(x + "\n" + y)
    ensures (y == "" || y[0] != '\n') ==> HashContent(x + "\r" + y) == HashContent(x + "\n" + y)
  {
    assert x + "\r\n" + y == x + ("\r\n" + y) && x + "\n" + y == x + ("\n" + y) && x + "\r" + y == x + ("\r" + y);
    UnifiedParts(x, "\r\n" + y);
    UnifiedParts(x, "\n" + y);
    UnifiedParts(x, "\r" + y);
    assert ("\r\n" + y)[2..] == y && ("\n" + y)[1..] == y && ("\r" + y)[1..] == y;
    UnifiedHead("\r\n" + y);
    UnifiedHead("\n" + y);
    UnifiedHead("\r" + y);
  }
}
