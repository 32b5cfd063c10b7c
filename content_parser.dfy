/**
 * `ContentParser` (aggregator.py): `clean_content` and the text post-processing of
 * `extract_text`.  The two steps that rest on foreign libraries are opaque: the
 * boilerplate pass (twenty Python regular expressions applied in order) and the
 * BeautifulSoup pass that turns HTML into text.  Everything after them is modelled
 * exactly, including Python's notion of whitespace.
 */
module ContentParser {
  import opened Text

  /** A parser is given by its two foreign steps. */
  datatype ContentParser = ContentParser(
    removeBoilerplate: string -> string,  // `pattern.sub('', cleaned)` for every boilerplate pattern
    htmlToText: string -> string          // parse, drop tags, add block newlines, `get_text(separator=' ')`
  )

  // ---------------------------------------------------------------------------
  // Character-level shape predicates

  predicate IsBlankChar(c: char) { c == ' ' || c == '\t' }

  predicate NoTabs(s: string) {
    forall i :: 0 <= i < |s| ==> s[i] != '\t'
  }

  /** Two spaces start at `i`. */
  predicate DoubleSpaceAt(s: string, i: int)
    requires 0 <= i < |s| - 1
  {
    s[i] == ' ' && s[i + 1] == ' '
  }

  predicate NoDoubleSpace(s: string) {
    forall i :: 0 <= i < |s| - 1 ==> !DoubleSpaceAt(s, i)
  }

  /** What `re.sub(r'[ \t]+', ' ', s)` guarantees. */
  predicate SpacesCollapsed(s: string) {
    NoTabs(s) && NoDoubleSpace(s)
  }

  predicate NoCR(s: string) {
    forall i :: 0 <= i < |s| ==> s[i] != '\r'
  }

  /** Three newlines start at `i`. */
  predicate TripleNewlineAt(s: string, i: int)
    requires 0 <= i < |s| - 2
  {
    s[i] == '\n' && s[i + 1] == '\n' && s[i + 2] == '\n'
  }

  predicate NoTripleNewline(s: string) {
    forall i :: 0 <= i < |s| - 2 ==> !TripleNewlineAt(s, i)
  }

  predicate CharClean(s: string) {
    SpacesCollapsed(s) && NoCR(s)
  }

  /** No two consecutive empty lines. */
  /** Lines `j` and `j + 1` are both empty. */
  predicate EmptyPairAt(ls: seq<string>, j: int)
    requires 0 <= j < |ls| - 1
  {
    |ls[j]| == 0 && |ls[j + 1]| == 0
  }

  predicate NoAdjacentEmpty(ls: seq<string>) {
    forall j :: 0 <= j < |ls| - 1 ==> !EmptyPairAt(ls, j)
  }

  predicate AllStripped(ls: seq<string>) {
    forall j :: 0 <= j < |ls| ==> Stripped(ls[j])
  }

  predicate AllSpacesCollapsed(ls: seq<string>) {
    forall j :: 0 <= j < |ls| ==> SpacesCollapsed(ls[j])
  }

  predicate AllClean(ls: seq<string>) {
    forall j :: 0 <= j < |ls| ==> CharClean(ls[j])
  }

  /**
   * The shape of every result of `clean_content`: no carriage return, no tab, no two
   * consecutive spaces, never three newlines in a row, no two consecutive empty lines,
   * no line with leading or trailing whitespace, and none at either end of the text.
   */
  predicate Shaped(s: string) {
    && CharClean(s)
    && NoTripleNewline(s)
    && Stripped(s)
    && AllStripped(Split(s))
    && NoAdjacentEmpty(Split(s))
  }

  lemma CleanSlice(s: string, a: nat, b: nat)
    requires a <= b <= |s|
    ensures SpacesCollapsed(s) ==> SpacesCollapsed(s[a..b])
    ensures NoCR(s) ==> NoCR(s[a..b])
    ensures b == |s| ==> s[a..b] == s[a..]
    ensures a == 0 ==> s[a..b] == s[..b]
  {
    var t := s[a..b];
    assert forall i :: 0 <= i < |t| ==> t[i] == s[a + i];
    assert forall i :: 0 <= i < |t| - 1 ==> DoubleSpaceAt(t, i) == DoubleSpaceAt(s, a + i);
  }

  /** Joining two pieces with a newline keeps every character-level property. */
  lemma CleanConcat(x: string, y: string)
    ensures SpacesCollapsed(x) && SpacesCollapsed(y) ==> SpacesCollapsed(x + "\n" + y)
    ensures NoCR(x) && NoCR(y) ==> NoCR(x + "\n" + y)
  {
    var s := x + "\n" + y;
    assert forall i :: 0 <= i < |x| ==> s[i] == x[i];
    assert s[|x|] == '\n';
    assert forall i :: |x| < i < |s| ==> s[i] == y[i - |x| - 1];
    if SpacesCollapsed(x) && SpacesCollapsed(y) {
      forall i | 0 <= i < |s| - 1
        ensures !DoubleSpaceAt(s, i)
      {
        if i < |x| - 1 {
          assert DoubleSpaceAt(s, i) == DoubleSpaceAt(x, i);
        } else if i > |x| {
          assert DoubleSpaceAt(s, i) == DoubleSpaceAt(y, i - |x| - 1);
        }
      }
    }
  }

  /** Putting one character in front keeps the character-level properties it does not
      break. */
  lemma CleanCons(c: char, s: string)
    ensures c != '\t' && SpacesCollapsed(s) && (c == ' ' && |s| > 0 ==> s[0] != ' ') ==> SpacesCollapsed([c] + s)
    ensures c != '\r' && NoCR(s) ==> NoCR([c] + s)
  {
    var t := [c] + s;
    assert forall i :: 0 < i < |t| ==> t[i] == s[i - 1];
    assert forall i :: 0 < i < |t| - 1 ==> DoubleSpaceAt(t, i) == DoubleSpaceAt(s, i - 1);
  }

  // ---------------------------------------------------------------------------
  // re.sub(r'[ \t]+', ' ', s)

  function SkipBlanks(s: string): (r: string)
    ensures |r| <= |s| && r == s[|s| - |r|..]
    ensures |r| == 0 || !IsBlankChar(r[0])
  {
    if |s| > 0 && IsBlankChar(s[0]) then SkipBlanks(s[1..]) else s
  }

  /** Every run of spaces and tabs becomes one space. */
  function CollapseSpaces(s: string): (r: string)
    ensures |r| == 0 <==> |s| == 0
    ensures |r| > 0 ==> (r[0] == ' ' <==> IsBlankChar(s[0])) && (IsBlankChar(s[0]) || r[0] == s[0])
    decreases |s|
  {
    if |s| == 0 then ""
    else if IsBlankChar(s[0]) then " " + CollapseSpaces(SkipBlanks(s[1..]))
    else [s[0]] + CollapseSpaces(s[1..])
  }

  lemma {:induction false} CollapseSpacesShape(s: string)
    ensures SpacesCollapsed(CollapseSpaces(s))
    decreases |s|
  {
    if |s| > 0 {
      if IsBlankChar(s[0]) {
        var u := SkipBlanks(s[1..]);
        CollapseSpacesShape(u);
        var r := CollapseSpaces(u);
        CleanCons(' ', r);
        assert " " + r == [' '] + r;
      } else {
        var r := CollapseSpaces(s[1..]);
        CollapseSpacesShape(s[1..]);
        CleanCons(s[0], r);
      }
    }
  }

  lemma {:induction false} CollapseSpacesFixpoint(s: string)
    requires SpacesCollapsed(s)
    ensures CollapseSpaces(s) == s
    decreases |s|
  {
    if |s| > 0 {
      CleanSlice(s, 1, |s|);
      if s[0] == ' ' {
        if |s| > 1 {
          assert !DoubleSpaceAt(s, 0);
        }
        assert SkipBlanks(s[1..]) == s[1..];
      }
      CollapseSpacesFixpoint(s[1..]);
    }
  }

  // ---------------------------------------------------------------------------
  // cleaned.replace('\r\n', '\n').replace('\r', '\n')

  /** `s.replace('\r\n', '\n')`. */
  function ReplaceCrLf(s: string): (r: string)
    ensures |r| > 0 ==> |s| > 0 && (r[0] == s[0] || (s[0] == '\r' && r[0] == '\n'))
    decreases |s|
  {
    if |s| == 0 then ""
    else if |s| >= 2 && s[0] == '\r' && s[1] == '\n' then "\n" + ReplaceCrLf(s[2..])
    else [s[0]] + ReplaceCrLf(s[1..])
  }

  /** `s.replace('\r', '\n')`. */
  function ReplaceCr(s: string): (r: string)
    ensures |r| == |s|
    ensures forall i :: 0 <= i < |s| ==> r[i] == (if s[i] == '\r' then '\n' else s[i])
  {
    if |s| == 0 then "" else [if s[0] == '\r' then '\n' else s[0]] + ReplaceCr(s[1..])
  }

  function NormalizeLineEndings(s: string): string {
    ReplaceCr(ReplaceCrLf(s))
  }

  lemma {:induction false} ReplaceCrLfKeepsSpaces(s: string)
    requires SpacesCollapsed(s)
    ensures SpacesCollapsed(ReplaceCrLf(s))
    decreases |s|
  {
    if |s| > 0 {
      if |s| >= 2 && s[0] == '\r' && s[1] == '\n' {
        CleanSlice(s, 2, |s|);
        ReplaceCrLfKeepsSpaces(s[2..]);
        var r := ReplaceCrLf(s[2..]);
        CleanCons('\n', r);
        assert "\n" + r == ['\n'] + r;
      } else {
        CleanSlice(s, 1, |s|);
        ReplaceCrLfKeepsSpaces(s[1..]);
        if |s| > 1 {
          assert !DoubleSpaceAt(s, 0);
        }
        CleanCons(s[0], ReplaceCrLf(s[1..]));
      }
    }
  }

  /** After line-ending normalisation no carriage return is left, and the earlier
      space collapsing still holds. */
  lemma NormalizeLineEndingsShape(s: string)
    requires SpacesCollapsed(s)
    ensures CharClean(NormalizeLineEndings(s))
  {
    ReplaceCrLfKeepsSpaces(s);
    var t := ReplaceCrLf(s);
    var r := ReplaceCr(t);
    assert forall i :: 0 <= i < |r| ==> r[i] == (if t[i] == '\r' then '\n' else t[i]);
    assert forall i :: 0 <= i < |r| - 1 ==> DoubleSpaceAt(r, i) ==> DoubleSpaceAt(t, i);
  }

  lemma {:induction false} NormalizeLineEndingsFixpoint(s: string)
    requires NoCR(s)
    ensures NormalizeLineEndings(s) == s
  {
    ReplaceCrLfFixpoint(s);
  }

  lemma {:induction false} ReplaceCrLfFixpoint(s: string)
    requires NoCR(s)
    ensures ReplaceCrLf(s) == s
    decreases |s|
  {
    if |s| > 0 {
      CleanSlice(s, 1, |s|);
      ReplaceCrLfFixpoint(s[1..]);
    }
  }

  // ---------------------------------------------------------------------------
  // re.sub(r'\n{3,}', '\n\n', s)

  function SkipNewlines(s: string): (r: string)
    ensures |r| <= |s| && r == s[|s| - |r|..]
    ensures |r| == 0 || r[0] != '\n'
  {
    if |s| > 0 && s[0] == '\n' then SkipNewlines(s[1..]) else s
  }

  /** Every run of three or more newlines becomes two. */
  function CapNewlines(s: string): (r: string)
    ensures |r| > 0 ==> |s| > 0 && r[0] == s[0]
    decreases |s|
  {
    if |s| == 0 then ""
    else if |s| >= 3 && s[0] == '\n' && s[1] == '\n' && s[2] == '\n' then
      "\n\n" + CapNewlines(SkipNewlines(s[3..]))
    else [s[0]] + CapNewlines(s[1..])
  }

  lemma {:induction false} CapNewlinesKeepsClean(s: string)
    requires CharClean(s)
    ensures CharClean(CapNewlines(s))
    decreases |s|
  {
    if |s| > 0 {
      if |s| >= 3 && s[0] == '\n' && s[1] == '\n' && s[2] == '\n' {
        var u := SkipNewlines(s[3..]);
        CleanSlice(s, |s| - |u|, |s|);
        CapNewlinesKeepsClean(u);
        var r := CapNewlines(u);
        CleanCons('\n', r);
        CleanCons('\n', "\n" + r);
        assert "\n\n" + r == "\n" + ("\n" + r);
      } else {
        CleanSlice(s, 1, |s|);
        CapNewlinesKeepsClean(s[1..]);
        if |s| > 1 {
          assert !DoubleSpaceAt(s, 0);
        }
        CleanCons(s[0], CapNewlines(s[1..]));
      }
    }
  }

  lemma {:induction false} CapNewlinesFixpoint(s: string)
    requires NoTripleNewline(s)
    ensures CapNewlines(s) == s
    decreases |s|
  {
    if |s| > 0 {
      var t := s[1..];
      assert forall i :: 0 <= i < |t| ==> t[i] == s[i + 1];
      assert forall i :: 0 <= i < |t| - 2 ==> TripleNewlineAt(t, i) == TripleNewlineAt(s, i + 1);
      if |s| >= 3 {
        assert !TripleNewlineAt(s, 0);
      }
      CapNewlinesFixpoint(t);
    }
  }

  // ---------------------------------------------------------------------------
  // Lines: split, strip each, join

  lemma SliceHasNoNewline(s: string, a: nat, b: nat)
    requires a <= b <= |s| && !HasChar(s, '\n')
    ensures !HasChar(s[a..b], '\n')
  {
    var t := s[a..b];
    assert forall i :: 0 <= i < |t| ==> t[i] == s[a + i];
  }

  /** Every part of a split inherits the character-level properties of the whole. */
  lemma {:induction false} SplitKeepsClean(s: string)
    ensures SpacesCollapsed(s) ==> AllSpacesCollapsed(Split(s))
    ensures CharClean(s) ==> AllClean(Split(s))
    decreases |s|
  {
    var k := FirstNewline(s);
    if k < |s| {
      CleanSlice(s, 0, k);
      CleanSlice(s, k + 1, |s|);
      SplitKeepsClean(s[k + 1..]);
    }
  }

  /** `[line.strip() for line in lines]`. */
  function StripLines(ls: seq<string>): (r: seq<string>)
    ensures |r| == |ls|
  {
    seq(|ls|, j requires 0 <= j < |ls| => Strip(ls[j]))
  }

  lemma StripLinesShape(ls: seq<string>)
    ensures AllStripped(StripLines(ls))
    ensures NoNewlines(ls) ==> NoNewlines(StripLines(ls))
    ensures AllClean(ls) ==> AllClean(StripLines(ls))
    ensures AllSpacesCollapsed(ls) ==> AllSpacesCollapsed(StripLines(ls))
  {
    forall j | 0 <= j < |ls|
      ensures Stripped(StripLines(ls)[j])
      ensures NoNewlines(ls) ==> !HasChar(StripLines(ls)[j], '\n')
      ensures AllClean(ls) ==> CharClean(StripLines(ls)[j])
      ensures AllSpacesCollapsed(ls) ==> SpacesCollapsed(StripLines(ls)[j])
    {
      var a, b := StripIsSlice(ls[j]);
      if NoNewlines(ls) {
        SliceHasNoNewline(ls[j], a, b);
      }
      CleanSlice(ls[j], a, b);
    }
  }

  lemma StripLinesFixpoint(ls: seq<string>)
    requires AllStripped(ls)
    ensures StripLines(ls) == ls
  {
    forall j | 0 <= j < |ls| ensures StripLines(ls)[j] == ls[j] {
      StripFixpoint(ls[j]);
    }
  }

  // ---------------------------------------------------------------------------
  // The `prev_empty` loop: consecutive empty lines collapse to one

  /** The non-empty lines, in order. */
  function NonEmptyLines(ls: seq<string>): seq<string>
  {
    if |ls| == 0 then []
    else NonEmptyLines(ls[..|ls| - 1]) + (if |ls[|ls| - 1]| > 0 then [ls[|ls| - 1]] else [])
  }

  /**
   * What the `prev_empty` loop leaves in `result_lines` after reading `ls`.  `prev_empty`
   * is true exactly when the result so far ends with an empty line.
   */
  function Collapsed(ls: seq<string>): (r: seq<string>)
    ensures NoAdjacentEmpty(r)
    ensures NonEmptyLines(r) == NonEmptyLines(ls)
    ensures |r| <= |ls|
  {
    if |ls| == 0 then []
    else
      var r := Collapsed(ls[..|ls| - 1]);
      var x := ls[|ls| - 1];
      assert ls == ls[..|ls| - 1] + [x];
      var r' := r + [x];
      assert r'[..|r|] == r;
      assert forall j :: 0 <= j < |r| - 1 ==> EmptyPairAt(r', j) == EmptyPairAt(r, j);
      if |x| > 0 then r'
      else if |r| > 0 && |r[|r| - 1]| == 0 then r
      else r'
  }

  /** One step of the loop. */
  lemma CollapsedStep(ls: seq<string>, x: string)
    ensures Collapsed(ls + [x]) ==
      if |x| > 0 then Collapsed(ls) + [x]
      else if |Collapsed(ls)| > 0 && |Collapsed(ls)[|Collapsed(ls)| - 1]| == 0 then Collapsed(ls)
      else Collapsed(ls) + [x]
  {
    assert (ls + [x])[..|ls|] == ls;
  }

  /** The same step, for the state of the loop after reading a prefix of `ls`. */
  lemma CollapsedPrefixStep(ls: seq<string>, i: nat, r: seq<string>, prevEmpty: bool)
    requires i < |ls| && r == Collapsed(ls[..i])
    requires prevEmpty <==> |r| > 0 && |r[|r| - 1]| == 0
    ensures |ls[i]| > 0 ==> Collapsed(ls[..i + 1]) == r + [ls[i]]
    ensures |ls[i]| == 0 && prevEmpty ==> Collapsed(ls[..i + 1]) == r
    ensures |ls[i]| == 0 && !prevEmpty ==> Collapsed(ls[..i + 1]) == r + [ls[i]]
  {
    assert ls[..i + 1] == ls[..i] + [ls[i]];
    CollapsedStep(ls[..i], ls[i]);
  }

  /** The loop changes nothing when no two consecutive lines are empty. */
  lemma {:induction false} CollapsedFixpoint(ls: seq<string>)
    requires NoAdjacentEmpty(ls)
    ensures Collapsed(ls) == ls
  {
    if |ls| > 0 {
      var p, x := ls[..|ls| - 1], ls[|ls| - 1];
      assert ls == p + [x];
      assert forall j :: 0 <= j < |p| - 1 ==> EmptyPairAt(p, j) == EmptyPairAt(ls, j);
      if |ls| > 1 {
        assert !EmptyPairAt(ls, |ls| - 2);
        assert p[|p| - 1] == ls[|ls| - 2];
      }
      CollapsedFixpoint(p);
      CollapsedStep(p, x);
    }
  }

  /** Every line the loop keeps is a line of its input. */
  lemma {:induction false} CollapsedFrom(ls: seq<string>)
    ensures forall j :: 0 <= j < |Collapsed(ls)| ==> Collapsed(ls)[j] in ls
  {
    if |ls| > 0 {
      var p, x := ls[..|ls| - 1], ls[|ls| - 1];
      assert ls == p + [x];
      CollapsedFrom(p);
      CollapsedStep(p, x);
    }
  }

  lemma CollapsedKeeps(ls: seq<string>)
    ensures NoNewlines(ls) ==> NoNewlines(Collapsed(ls))
    ensures AllStripped(ls) ==> AllStripped(Collapsed(ls))
    ensures AllClean(ls) ==> AllClean(Collapsed(ls))
  {
    var r := Collapsed(ls);
    CollapsedFrom(ls);
    forall j | 0 <= j < |r|
      ensures exists k :: 0 <= k < |ls| && r[j] == ls[k]
    {
      assert r[j] in ls;
    }
  }

  // ---------------------------------------------------------------------------
  // Stripping a joined text drops its leading and trailing empty lines

  function LTrimLines(ls: seq<string>): (r: seq<string>)
    ensures |r| <= |ls| && r == ls[|ls| - |r|..]
    ensures |r| > 0 ==> |r[0]| > 0
  {
    if |ls| > 0 && |ls[0]| == 0 then LTrimLines(ls[1..]) else ls
  }

  function RTrimLines(ls: seq<string>): (r: seq<string>)
    ensures |r| <= |ls| && r == ls[..|r|]
    ensures |r| > 0 ==> |r[|r| - 1]| > 0
  {
    if |ls| > 0 && |ls[|ls| - 1]| == 0 then RTrimLines(ls[..|ls| - 1]) else ls
  }

  predicate WellFormedLines(ls: seq<string>) {
    NoNewlines(ls) && AllStripped(ls) && AllClean(ls) && NoAdjacentEmpty(ls)
  }

  lemma LinesSlice(ls: seq<string>, a: nat, b: nat)
    requires a <= b <= |ls| && WellFormedLines(ls)
    ensures WellFormedLines(ls[a..b])
    ensures b == |ls| ==> ls[a..b] == ls[a..]
    ensures a == 0 ==> ls[a..b] == ls[..b]
  {
    var t := ls[a..b];
    assert forall j :: 0 <= j < |t| ==> t[j] == ls[a + j];
    assert forall j :: 0 <= j < |t| - 1 ==> EmptyPairAt(t, j) == EmptyPairAt(ls, a + j);
  }

  lemma JoinHead(ls: seq<string>)
    requires |ls| >= 1 && |ls[0]| > 0
    ensures |Join(ls)| > 0 && Join(ls)[0] == ls[0][0]
  {
  }

  lemma JoinLast(ls: seq<string>)
    requires |ls| >= 1 && |ls[|ls| - 1]| > 0
    ensures |Join(ls)| > 0 && Join(ls)[|Join(ls)| - 1] == ls[|ls| - 1][|ls[|ls| - 1]| - 1]
  {
    if |ls| > 1 {
      var p := ls[..|ls| - 1];
      assert ls == p + [ls[|ls| - 1]];
      JoinSnoc(p, ls[|ls| - 1]);
    }
  }

  lemma {:induction false} LStripJoin(ls: seq<string>)
    requires AllStripped(ls)
    ensures LStrip(Join(ls)) == Join(LTrimLines(ls))
  {
    if |ls| > 0 {
      if |ls[0]| == 0 {
        if |ls| > 1 {
          var j := Join(ls[1..]);
          assert Join(ls) == "\n" + j;
          assert ("\n" + j)[1..] == j;
          assert AllStripped(ls[1..]);
          LStripJoin(ls[1..]);
        }
      } else {
        JoinHead(ls);
      }
    }
  }

  lemma {:induction false} RStripJoin(ls: seq<string>)
    requires AllStripped(ls)
    ensures RStrip(Join(ls)) == Join(RTrimLines(ls))
  {
    if |ls| > 0 {
      var x := ls[|ls| - 1];
      if |x| == 0 {
        if |ls| > 1 {
          var p := ls[..|ls| - 1];
          assert ls == p + [x];
          JoinSnoc(p, x);
          var j := Join(p);
          assert Join(ls) == j + "\n";
          assert (j + "\n")[..|j|] == j;
          assert AllStripped(p);
          RStripJoin(p);
        }
      } else {
        JoinLast(ls);
      }
    }
  }

  lemma {:induction false} JoinKeepsClean(ls: seq<string>)
    ensures AllSpacesCollapsed(ls) ==> SpacesCollapsed(Join(ls))
    ensures AllClean(ls) ==> CharClean(Join(ls))
  {
    if |ls| > 1 {
      assert AllSpacesCollapsed(ls) ==> AllSpacesCollapsed(ls[1..]);
      assert AllClean(ls) ==> AllClean(ls[1..]);
      JoinKeepsClean(ls[1..]);
      CleanConcat(ls[0], Join(ls[1..]));
    }
  }

  lemma NoNewlineChars(s: string)
    requires !HasChar(s, '\n')
    ensures forall i :: 0 <= i < |s| ==> s[i] != '\n'
  {
  }

  lemma JoinStartsWithNewline(ls: seq<string>)
    requires NoNewlines(ls) && |Join(ls)| > 0 && Join(ls)[0] == '\n'
    ensures |ls| >= 2 && |ls[0]| == 0
  {
    NoNewlineChars(ls[0]);
  }

  /** A join of lines without two consecutive empty ones never starts with two newlines. */
  lemma NoDoubleNewlineStart(ls: seq<string>)
    requires NoNewlines(ls) && NoAdjacentEmpty(ls)
    ensures !(|Join(ls)| >= 2 && Join(ls)[0] == '\n' && Join(ls)[1] == '\n')
  {
    var j := Join(ls);
    if |j| >= 2 && j[0] == '\n' {
      JoinStartsWithNewline(ls);
      assert !EmptyPairAt(ls, 0);
      var j2 := Join(ls[1..]);
      assert j == "\n" + j2;
      assert NoNewlines(ls[1..]);
      if |j2| > 0 && j2[0] == '\n' {
        JoinStartsWithNewline(ls[1..]);
        assert false;
      }
    }
  }

  lemma {:induction false} JoinNoTriple(ls: seq<string>)
    requires NoNewlines(ls) && NoAdjacentEmpty(ls)
    ensures NoTripleNewline(Join(ls))
  {
    if |ls| == 1 {
      NoNewlineChars(ls[0]);
    } else if |ls| > 1 {
      var rest := ls[1..];
      assert forall k :: 0 <= k < |rest| - 1 ==> EmptyPairAt(rest, k) == EmptyPairAt(ls, k + 1);
      assert NoNewlines(rest) && NoAdjacentEmpty(rest);
      JoinNoTriple(rest);
      var l, j := ls[0], Join(rest);
      var s := l + "\n" + j;
      NoNewlineChars(l);
      forall i | 0 <= i < |s| - 2
        ensures !TripleNewlineAt(s, i)
      {
        if i < |l| {
          assert s[i] == l[i];
        } else if i == |l| {
          NoDoubleNewlineStart(rest);
          assert s[i + 1] == j[0] && s[i + 2] == j[1];
        } else {
          assert TripleNewlineAt(s, i) == TripleNewlineAt(j, i - |l| - 1);
        }
      }
    }
  }

  // ---------------------------------------------------------------------------
  // The whitespace stage of clean_content

  /** `lines` in `clean_content`: the text after the three substitutions, split and stripped. */
  function Lines(s: string): (ls: seq<string>)
    ensures |ls| >= 1
  {
    StripLines(Split(CapNewlines(NormalizeLineEndings(CollapseSpaces(s)))))
  }

  /** Everything `clean_content` does after the boilerplate patterns. */
  function Normalize(s: string): string {
    Strip(Join(Collapsed(Lines(s))))
  }

  lemma LinesWellFormed(s: string)
    ensures NoNewlines(Lines(s)) && AllStripped(Lines(s)) && AllClean(Lines(s))
  {
    var c := CollapseSpaces(s);
    CollapseSpacesShape(s);
    NormalizeLineEndingsShape(c);
    CapNewlinesKeepsClean(NormalizeLineEndings(c));
    var ls := Split(CapNewlines(NormalizeLineEndings(c)));
    SplitKeepsClean(CapNewlines(NormalizeLineEndings(c)));
    StripLinesShape(ls);
  }

  /** Stripping a join of well-formed lines is joining the lines without the empty ones at
      either end; the outcome is again well formed. */
  lemma StripJoin(ls: seq<string>) returns (t: seq<string>)
    requires WellFormedLines(ls)
    ensures Strip(Join(ls)) == Join(t) && WellFormedLines(t)
  {
    var l := LTrimLines(ls);
    LinesSlice(ls, |ls| - |l|, |ls|);
    t := RTrimLines(l);
    LinesSlice(l, 0, |t|);
    LStripJoin(ls);
    RStripJoin(l);
  }

  /** The lines of a join of well-formed lines are again well formed. */
  lemma SplitOfJoin(t: seq<string>)
    requires WellFormedLines(t)
    ensures AllStripped(Split(Join(t))) && NoAdjacentEmpty(Split(Join(t)))
  {
    if |t| > 0 {
      SplitJoin(t);
    }
  }

  /** Every result of the whitespace stage has the shape `Shaped` describes. */
  lemma NormalizeShape(s: string)
    ensures Shaped(Normalize(s))
  {
    LinesWellFormed(s);
    var l := Collapsed(Lines(s));
    CollapsedKeeps(Lines(s));
    var t := StripJoin(l);
    var r := Normalize(s);
    var _, _ := StripIsSlice(Join(l));
    JoinKeepsClean(t);
    JoinNoTriple(t);
    SplitOfJoin(t);
  }

  /** Text that already has the shape is left exactly as it is. */
  lemma NormalizeFixpoint(s: string)
    requires Shaped(s)
    ensures Normalize(s) == s
  {
    CollapseSpacesFixpoint(s);
    NormalizeLineEndingsFixpoint(s);
    CapNewlinesFixpoint(s);
    StripLinesFixpoint(Split(s));
    CollapsedFixpoint(Split(s));
    JoinSplit(s);
    StripFixpoint(s);
  }

  lemma NormalizeIdempotent(s: string)
    ensures Normalize(Normalize(s)) == Normalize(s)
  {
    NormalizeShape(s);
    NormalizeFixpoint(Normalize(s));
  }

  // ---------------------------------------------------------------------------
  // The whitespace stages keep every visible character, in order

  /** The characters of `s` that are not whitespace. */
  function Visible(s: string): string {
    if |s| == 0 then [] else Shown(s[0]) + Visible(s[1..])
  }

  /** What one character contributes to `Visible`. */
  function Shown(c: char): string {
    if IsSpace(c) then [] else [c]
  }

  lemma VisibleCons(c: char, x: string)
    ensures Visible([c] + x) == Shown(c) + Visible(x)
  {
    assert ([c] + x)[0] == c && ([c] + x)[1..] == x;
  }

  lemma {:induction false} VisibleConcat(a: string, b: string)
    ensures Visible(a + b) == Visible(a) + Visible(b)
  {
    if |a| > 0 {
      var h := Shown(a[0]);
      assert (a + b)[0] == a[0];
      assert (a + b)[1..] == a[1..] + b;
      assert Visible(a + b) == h + Visible(a[1..] + b);
      VisibleConcat(a[1..], b);
      assert h + (Visible(a[1..]) + Visible(b)) == (h + Visible(a[1..])) + Visible(b);
    } else {
      assert a + b == b;
    }
  }

  lemma {:induction false} VisibleBlank(s: string)
    requires Blank(s)
    ensures Visible(s) == []
  {
    if |s| > 0 {
      VisibleDropSpace(s);
      VisibleBlank(s[1..]);
    }
  }

  lemma VisibleDropSpace(s: string)
    requires |s| > 0 && IsSpace(s[0])
    ensures Visible(s) == Visible(s[1..])
  {
  }

  lemma {:induction false} VisibleLStrip(s: string)
    ensures Visible(LStrip(s)) == Visible(s)
  {
    if |s| > 0 && IsSpace(s[0]) {
      VisibleDropSpace(s);
      VisibleLStrip(s[1..]);
    }
  }

  lemma {:induction false} VisibleRStrip(s: string)
    ensures Visible(RStrip(s)) == Visible(s)
  {
    if |s| > 0 && IsSpace(s[|s| - 1]) {
      var p := s[..|s| - 1];
      assert s == p + [s[|s| - 1]];
      VisibleConcat(p, [s[|s| - 1]]);
      VisibleRStrip(p);
    }
  }

  lemma VisibleStrip(s: string)
    ensures Visible(Strip(s)) == Visible(s)
  {
    VisibleLStrip(s);
    VisibleRStrip(LStrip(s));
  }

  lemma {:induction false} VisibleSkipBlanks(s: string)
    ensures Visible(SkipBlanks(s)) == Visible(s)
  {
    if |s| > 0 && IsBlankChar(s[0]) {
      VisibleDropSpace(s);
      VisibleSkipBlanks(s[1..]);
    }
  }

  lemma {:induction false} VisibleSkipNewlines(s: string)
    ensures Visible(SkipNewlines(s)) == Visible(s)
  {
    if |s| > 0 && s[0] == '\n' {
      VisibleDropSpace(s);
      VisibleSkipNewlines(s[1..]);
    }
  }

  lemma {:induction false} VisibleCollapseSpaces(s: string)
    ensures Visible(CollapseSpaces(s)) == Visible(s)
    decreases |s|
  {
    if |s| > 0 {
      if IsBlankChar(s[0]) {
        var u := SkipBlanks(s[1..]);
        VisibleCollapseSpaces(u);
        VisibleSkipBlanks(s[1..]);
        VisibleCons(' ', CollapseSpaces(u));
        VisibleDropSpace(s);
      } else {
        VisibleCollapseSpaces(s[1..]);
        VisibleCons(s[0], CollapseSpaces(s[1..]));
      }
    }
  }

  lemma {:induction false} VisibleReplaceCrLf(s: string)
    ensures Visible(ReplaceCrLf(s)) == Visible(s)
    decreases |s|
  {
    if |s| > 0 {
      if |s| >= 2 && s[0] == '\r' && s[1] == '\n' {
        VisibleReplaceCrLf(s[2..]);
        VisibleCons('\n', ReplaceCrLf(s[2..]));
        VisibleDropSpace(s);
        VisibleDropSpace(s[1..]);
        assert s[1..][1..] == s[2..];
      } else {
        VisibleReplaceCrLf(s[1..]);
        VisibleCons(s[0], ReplaceCrLf(s[1..]));
      }
    }
  }

  lemma {:induction false} VisibleReplaceCr(s: string)
    ensures Visible(ReplaceCr(s)) == Visible(s)
  {
    if |s| > 0 {
      VisibleReplaceCr(s[1..]);
      var c := if s[0] == '\r' then '\n' else s[0];
      VisibleCons(c, ReplaceCr(s[1..]));
      assert Shown(c) == Shown(s[0]);
    }
  }

  /** Two leading newlines contribute nothing. */
  lemma VisibleTwoNewlines(x: string)
    ensures Visible("\n\n" + x) == Visible(x)
  {
    VisibleCons('\n', x);
    VisibleCons('\n', "\n" + x);
    assert "\n\n" + x == "\n" + ("\n" + x);
  }

  lemma {:induction false} VisibleCapNewlines(s: string)
    ensures Visible(CapNewlines(s)) == Visible(s)
    decreases |s|
  {
    if |s| > 0 {
      if |s| >= 3 && s[0] == '\n' && s[1] == '\n' && s[2] == '\n' {
        VisibleCapNewlines(SkipNewlines(s[3..]));
        VisibleSkipNewlines(s[3..]);
        VisibleTwoNewlines(CapNewlines(SkipNewlines(s[3..])));
        VisibleDropSpace(s);
        VisibleDropSpace(s[1..]);
        VisibleDropSpace(s[2..]);
        assert s[1..][1..] == s[2..] && s[2..][1..] == s[3..];
      } else {
        VisibleCapNewlines(s[1..]);
        VisibleCons(s[0], CapNewlines(s[1..]));
      }
    }
  }

  lemma {:induction false} VisibleJoinCons(ls: seq<string>)
    requires |ls| >= 1
    ensures Visible(Join(ls)) == Visible(ls[0]) + Visible(Join(ls[1..]))
  {
    if |ls| > 1 {
      VisibleConcat(ls[0] + "\n", Join(ls[1..]));
      VisibleConcat(ls[0], "\n");
    }
  }

  lemma {:induction false} VisibleStripLines(ls: seq<string>)
    ensures Visible(Join(StripLines(ls))) == Visible(Join(ls))
  {
    if |ls| >= 1 {
      var m := StripLines(ls);
      assert m[1..] == StripLines(ls[1..]);
      VisibleStripLines(ls[1..]);
      VisibleJoinCons(ls);
      VisibleJoinCons(m);
      VisibleStrip(ls[0]);
    }
  }

  lemma {:induction false} VisibleJoinSnoc(ls: seq<string>, x: string)
    ensures Visible(Join(ls + [x])) == Visible(Join(ls)) + Visible(x)
  {
    if |ls| == 0 {
      assert ls + [x] == [x];
    } else {
      JoinSnoc(ls, x);
      VisibleConcat(Join(ls) + "\n", x);
      VisibleConcat(Join(ls), "\n");
    }
  }

  lemma {:induction false} VisibleCollapsed(ls: seq<string>)
    ensures Visible(Join(Collapsed(ls))) == Visible(Join(ls))
  {
    if |ls| > 0 {
      var p := ls[..|ls| - 1];
      var x := ls[|ls| - 1];
      assert ls == p + [x];
      VisibleCollapsed(p);
      VisibleJoinSnoc(p, x);
      VisibleJoinSnoc(Collapsed(p), x);
    }
  }

  /** The whitespace stage changes whitespace only: the visible characters stay, in order. */
  lemma NormalizeVisible(s: string)
    ensures Visible(Normalize(s)) == Visible(s)
  {
    var c := CollapseSpaces(s);
    VisibleCollapseSpaces(s);
    VisibleReplaceCrLf(c);
    VisibleReplaceCr(ReplaceCrLf(c));
    var d := CapNewlines(NormalizeLineEndings(c));
    VisibleCapNewlines(NormalizeLineEndings(c));
    JoinSplit(d);
    VisibleStripLines(Split(d));
    VisibleCollapsed(Lines(s));
    VisibleStrip(Join(Collapsed(Lines(s))));
  }

  // ---------------------------------------------------------------------------
  // clean_content

  /** What `clean_content(text)` returns. */
  function Cleaned(p: ContentParser, text: string): string {
    if |Strip(text)| == 0 then "" else Normalize(p.removeBoilerplate(text))
  }

  /** The `prev_empty` loop of `clean_content`: keep a line unless it is empty and the
      last line kept is empty too. */
  method CollapseEmptyRuns(lines: seq<string>) returns (resultLines: seq<string>)
    ensures resultLines == Collapsed(lines)
  {
    resultLines := [];
    var prevEmpty := false;
    for i := 0 to |lines|
      invariant resultLines == Collapsed(lines[..i])
      invariant prevEmpty <==> |resultLines| > 0 && |resultLines[|resultLines| - 1]| == 0
    {
      var line := lines[i];
      CollapsedPrefixStep(lines, i, resultLines, prevEmpty);
      if |line| > 0 {
        resultLines := resultLines + [line];
        prevEmpty := false;
      } else if !prevEmpty {
        resultLines := resultLines + [line];
        prevEmpty := true;
      }
    }
    assert lines[..|lines|] == lines;
  }

  /** `ContentParser.clean_content`. */
  method CleanContent(p: ContentParser, text: string) returns (r: string)
    ensures r == Cleaned(p, text)
  {
    if |Strip(text)| == 0 {
      return "";
    }
    var cleaned := p.removeBoilerplate(text);
    var lines := Lines(cleaned);
    var resultLines := CollapseEmptyRuns(lines);
    r := Strip(Join(resultLines));
  }

  /** Every result of `clean_content` has the shape `Shaped` describes. */
  lemma CleanedShape(p: ContentParser, text: string)
    ensures Shaped(Cleaned(p, text))
  {
    if |Strip(text)| > 0 {
      NormalizeShape(p.removeBoilerplate(text));
    } else {
      assert Split("") == [""];
    }
  }

  /** Text that is empty or all whitespace cleans to the empty string. */
  lemma CleanedBlank(p: ContentParser, text: string)
    requires Blank(text)
    ensures Cleaned(p, text) == ""
  {
    StripEmpty(text);
  }

  /** Apart from what the boilerplate patterns remove, cleaning keeps every visible
      character in order. */
  lemma CleanedVisible(p: ContentParser, text: string)
    requires !Blank(text)
    ensures Visible(Cleaned(p, text)) == Visible(p.removeBoilerplate(text))
  {
    StripEmpty(text);
    NormalizeVisible(p.removeBoilerplate(text));
  }

  /** Cleaning twice is cleaning once, as long as the boilerplate patterns find nothing
      more in a cleaned text. */
  lemma CleanedIdempotent(p: ContentParser, text: string)
    requires p.removeBoilerplate(Cleaned(p, text)) == Cleaned(p, text)
    ensures Cleaned(p, Cleaned(p, text)) == Cleaned(p, text)
  {
    var c := Cleaned(p, text);
    if |Strip(text)| > 0 {
      NormalizeShape(p.removeBoilerplate(text));
      NormalizeFixpoint(c);
      StripFixpoint(c);
    }
  }

  // ---------------------------------------------------------------------------
  // The text post-processing of extract_text

  /** Length of the whitespace run at the start of `t`. */
  function RunLen(t: string): (k: nat)
    ensures k <= |t|
    ensures forall i :: 0 <= i < k ==> IsSpace(t[i])
    ensures k < |t| ==> !IsSpace(t[k])
  {
    if |t| > 0 && IsSpace(t[0]) then 1 + RunLen(t[1..]) else 0
  }

  /** Index of the last newline before `k`, or -1. */
  function LastNewline(t: string, k: nat): (m: int)
    requires k <= |t|
    ensures -1 <= m < k
    ensures m >= 0 ==> t[m] == '\n'
    ensures forall j :: m < j < k ==> t[j] != '\n'
  {
    if k == 0 then -1 else if t[k - 1] == '\n' then k - 1 else LastNewline(t, k - 1)
  }

  /**
   * `re.sub(r'\n\s*\n+', '\n\n', s)`.  At a newline the greedy `\s*` takes the whole
   * whitespace run after it and gives back characters until `\n+` can match; the match
   * therefore ends just after the last newline of the run.  Without a newline in the run
   * there is no match at this position.
   */
  function BlankRuns(s: string): (r: string)
    ensures |r| == 0 <==> |s| == 0
    ensures |r| > 0 ==> r[0] == s[0]
    decreases |s|
  {
    if |s| == 0 then ""
    else if s[0] == '\n' then
      var t := s[1..];
      var m := LastNewline(t, RunLen(t));
      if m >= 0 then "\n\n" + BlankRuns(t[m + 1..]) else "\n" + BlankRuns(t)
    else [s[0]] + BlankRuns(s[1..])
  }

  lemma {:induction false} BlankRunsKeepsSpaces(s: string)
    requires SpacesCollapsed(s)
    ensures SpacesCollapsed(BlankRuns(s))
    decreases |s|
  {
    if |s| > 0 {
      var t := s[1..];
      CleanSlice(s, 1, |s|);
      if s[0] == '\n' {
        var m := LastNewline(t, RunLen(t));
        if m >= 0 {
          CleanSlice(t, m + 1, |t|);
          BlankRunsKeepsSpaces(t[m + 1..]);
          var r := BlankRuns(t[m + 1..]);
          CleanCons('\n', r);
          CleanCons('\n', "\n" + r);
          assert "\n\n" + r == "\n" + ("\n" + r);
          assert BlankRuns(s) == "\n\n" + r;
        } else {
          BlankRunsKeepsSpaces(t);
          CleanCons('\n', BlankRuns(t));
          assert BlankRuns(s) == "\n" + BlankRuns(t);
        }
      } else {
        BlankRunsKeepsSpaces(t);
        if |s| > 1 {
          assert !DoubleSpaceAt(s, 0);
        }
        CleanCons(s[0], BlankRuns(t));
        assert BlankRuns(s) == [s[0]] + BlankRuns(t);
      }
    }
  }

  lemma {:induction false} VisibleBlankRuns(s: string)
    ensures Visible(BlankRuns(s)) == Visible(s)
    decreases |s|
  {
    if |s| > 0 {
      var t := s[1..];
      if s[0] == '\n' {
        VisibleDropSpace(s);
        var m := LastNewline(t, RunLen(t));
        if m >= 0 {
          VisibleBlankRuns(t[m + 1..]);
          VisibleTwoNewlines(BlankRuns(t[m + 1..]));
          assert t == t[..m + 1] + t[m + 1..];
          VisibleBlank(t[..m + 1]);
          VisibleConcat(t[..m + 1], t[m + 1..]);
        } else {
          VisibleBlankRuns(t);
          VisibleCons('\n', BlankRuns(t));
        }
      } else {
        VisibleBlankRuns(t);
        VisibleCons(s[0], BlankRuns(t));
      }
    }
  }

  /** The text post-processing at the end of `extract_text`. */
  function TextTail(s: string): string {
    Strip(Join(StripLines(Split(BlankRuns(CollapseSpaces(s))))))
  }

  /** Stripping a join of stripped lines is joining a slice of them. */
  lemma StrippedSlice(ls: seq<string>, a: nat, b: nat)
    requires a <= b <= |ls| && AllStripped(ls)
    ensures AllStripped(ls[a..b])
  {
    var t := ls[a..b];
    assert forall k :: 0 <= k < |t| ==> t[k] == ls[a + k];
  }

  lemma LooseSlice(ls: seq<string>, a: nat, b: nat)
    requires a <= b <= |ls| && NoNewlines(ls) && AllStripped(ls) && AllSpacesCollapsed(ls)
    ensures NoNewlines(ls[a..b]) && AllStripped(ls[a..b]) && AllSpacesCollapsed(ls[a..b])
  {
    var t := ls[a..b];
    assert forall k :: 0 <= k < |t| ==> t[k] == ls[a + k];
  }

  lemma LinesOfJoin(t: seq<string>)
    requires NoNewlines(t) && AllStripped(t)
    ensures AllStripped(Split(Join(t)))
  {
    if |t| > 0 {
      SplitJoin(t);
    } else {
      assert Split("") == [""];
    }
  }

  lemma StripByHalves(x: string, y: string, z: string)
    requires LStrip(x) == y && RStrip(y) == z
    ensures Strip(x) == z
  {
  }

  /** A prefix of a suffix is a slice. */
  lemma PrefixOfSuffix(ls: seq<string>, l: seq<string>, r: seq<string>)
    requires |l| <= |ls| && l == ls[|ls| - |l|..]
    requires |r| <= |l| && r == l[..|r|]
    ensures r == ls[|ls| - |l|..|ls| - |l| + |r|]
  {
  }

  /** Stripping a join of stripped lines drops the empty lines at either end. */
  lemma StripJoinTrims(ls: seq<string>)
    requires AllStripped(ls)
    ensures Strip(Join(ls)) == Join(RTrimLines(LTrimLines(ls)))
  {
    var l := LTrimLines(ls);
    LStripJoin(ls);
    StrippedSlice(ls, |ls| - |l|, |ls|);
    RStripJoin(l);
    StripByHalves(Join(ls), Join(l), Join(RTrimLines(l)));
  }

  lemma StripJoinSlice(ls: seq<string>) returns (a: nat, b: nat, t: seq<string>)
    requires AllStripped(ls)
    ensures a <= b <= |ls| && t == ls[a..b] && Strip(Join(ls)) == Join(t)
  {
    a, b := TrimsSlice(ls);
    t := RTrimLines(LTrimLines(ls));
    StripJoinTrims(ls);
  }

  lemma TrimsSlice(ls: seq<string>) returns (a: nat, b: nat)
    ensures a <= b <= |ls| && RTrimLines(LTrimLines(ls)) == ls[a..b]
  {
    var l := LTrimLines(ls);
    var t := RTrimLines(l);
    a, b := |ls| - |l|, |ls| - |l| + |t|;
    PrefixOfSuffix(ls, l, t);
  }

  /**
   * What `extract_text` leaves after the HTML pass: no tab, no two consecutive spaces,
   * no whitespace at either end of the text or of any of its lines.
   */
  lemma TextTailShape(s: string)
    ensures SpacesCollapsed(TextTail(s)) && Stripped(TextTail(s))
    ensures AllStripped(Split(TextTail(s)))
  {
    var b := BlankRuns(CollapseSpaces(s));
    var m := StripLines(Split(b));
    assert NoNewlines(m) && AllStripped(m) && AllSpacesCollapsed(m) by {
      CollapseSpacesShape(s);
      BlankRunsKeepsSpaces(CollapseSpaces(s));
      SplitKeepsClean(b);
      StripLinesShape(Split(b));
    }
    var i, j, t := StripJoinSlice(m);
    LooseSlice(m, i, j);
    assert SpacesCollapsed(Join(t)) by {
      JoinKeepsClean(t);
    }
    assert Stripped(Join(t)) by {
      var _, _ := StripIsSlice(Join(m));
    }
    assert AllStripped(Split(Join(t))) by {
      LinesOfJoin(t);
    }
    assert TextTail(s) == Join(t);
  }

  /** The post-processing changes whitespace only. */
  lemma TextTailVisible(s: string)
    ensures Visible(TextTail(s)) == Visible(s)
  {
    VisibleCollapseSpaces(s);
    var b := BlankRuns(CollapseSpaces(s));
    VisibleBlankRuns(CollapseSpaces(s));
    JoinSplit(b);
    VisibleStripLines(Split(b));
    VisibleStrip(Join(StripLines(Split(b))));
  }

  /** `ContentParser.extract_text`: empty or blank HTML gives the empty string. */
  function ExtractText(p: ContentParser, html: string): (r: string)
    ensures Blank(html) ==> r == ""
    ensures !Blank(html) ==> r == TextTail(p.htmlToText(html))
  {
    StripEmpty(html);
    if |Strip(html)| == 0 then "" else TextTail(p.htmlToText(html))
  }
}
