/**
 * Files that start with a byte order mark. A diff sees the mark as part of the first line; the patcher takes it off before
 * it searches. So a diff of such a file applies to it exactly when no hunk shows the first line.
 */
module Marks {
  import opened EditScript
  import opened FileLines
  import opened Hunks
  import opened Patch
  import opened Apply
  import opened RoundTrip
  import opened ReadBack

  const MARK: string := [BYTE_ORDER_MARK]

  ghost predicate Marked(s: string) { BYTE_ORDER_MARK in s }

  // ---------------------------------------------------------------------------
  // No comparison overlooks a mark
  // ---------------------------------------------------------------------------

  lemma {:induction false} TrimRightKeeps(s: string, space: char -> bool)
    requires !space(BYTE_ORDER_MARK)
    ensures Marked(TrimRight(s, space)) <==> Marked(s)
    decreases |s|
  {
    if s != "" && space(s[|s| - 1]) {
      TrimRightKeeps(s[..|s| - 1], space);
      assert s == s[..|s| - 1] + [s[|s| - 1]];
    }
  }

  lemma {:induction false} TrimLeftKeeps(s: string, space: char -> bool)
    requires !space(BYTE_ORDER_MARK)
    ensures Marked(TrimLeft(s, space)) <==> Marked(s)
    decreases |s|
  {
    if s != "" && space(s[0]) {
      TrimLeftKeeps(s[1..], space);
      assert s == [s[0]] + s[1..];
    }
  }

  lemma {:induction false} NormalizeKeeps(s: string)
    ensures Marked(NormalizeUnicode(s)) <==> Marked(s)
  {
    if s != "" {
      NormalizeKeeps(s[1..]);
      assert s == [s[0]] + s[1..];
      assert Marked(Plain(s[0])) <==> s[0] == BYTE_ORDER_MARK;
    }
  }

  lemma SameKeeps(c: Comparator, a: string, b: string)
    requires Same(c, a, b)
    ensures Marked(a) <==> Marked(b)
  {
    forall s: string
      ensures Marked(TrimRight(s, IsPatchSpace)) <==> Marked(s)
      ensures Marked(TrimSpace(s)) <==> Marked(s)
      ensures Marked(NormalizeUnicode(s)) <==> Marked(s)
    {
      TrimRightKeeps(s, IsPatchSpace);
      TrimLeftKeeps(s, IsSpace);
      TrimRightKeeps(TrimLeft(s, IsSpace), IsSpace);
      NormalizeKeeps(s);
    }
    hide Marked, TrimRight, TrimSpace, NormalizeUnicode;
  }

  lemma {:induction false} MarkedIsNotFound(lines: seq<string>, pattern: seq<string>, cs: seq<Comparator>)
    requires pattern != [] && Marked(pattern[0]) && forall i | 0 <= i < |lines| :: !Marked(lines[i])
    ensures Seek(lines, pattern, 0, cs) == NotFound
  {
    hide Marked, Same;
    if cs != [] {
      forall i: int
        ensures !MatchesAt(lines, pattern, i, cs[0])
      {
        if MatchesAt(lines, pattern, i, cs[0]) {
          assert Same(cs[0], lines[i + 0], pattern[0]);
          SameKeeps(cs[0], lines[i], pattern[0]);
        }
      }
      hide MatchesAt;
      assert AllSites(lines, pattern, 0, cs[0]) == {};
      MarkedIsNotFound(lines, pattern, cs[1..]);
    }
  }

  lemma {:induction false} LinesUnmarked(ls: seq<FileLine>, i: nat)
    requires !Marked(Join(ls)) && i < |ls|
    ensures !Marked(ls[i].text)
  {
    var rest := Join(ls[1..]);
    assert Join(ls) == ls[0].text + ls[0].terminator + rest;
    assert forall c | c in ls[0].text || c in rest :: c in Join(ls);
    if i > 0 {
      LinesUnmarked(ls[1..], i - 1);
    }
  }

  // ---------------------------------------------------------------------------
  // The first line
  // ---------------------------------------------------------------------------

  lemma FirstTextIsMarked(data: string)
    requires data != "" && data[0] == BYTE_ORDER_MARK
    ensures var ts := SplitDiffLines(data); ts != [] && ts[0] != "" && ts[0][0] == BYTE_ORDER_MARK
  {
    DiffSeesFileTexts(data);
    assert FirstBreak(data) > 0;
    assert Split(data)[0] == FirstLine(data);
    hide SplitDiffLines;
  }

  lemma FirstBreakMarked(d: string)
    ensures FirstBreak(MARK + d) == FirstBreak(d) + 1
  {
    assert (MARK + d)[1..] == d;
  }

  lemma FirstLineMarked(d: string)
    requires d != ""
    ensures FirstLine(MARK + d) == FileLine(MARK + FirstLine(d).text, FirstLine(d).terminator)
    ensures (MARK + d)[FirstEnd(MARK + d)..] == d[FirstEnd(d)..]
  {
    hide FirstBreak, TerminatorLength;
    FirstBreakMarked(d);
    var i, data := FirstBreak(d), MARK + d;
    assert data[i + 1..] == d[i..];
    assert FirstEnd(data) == FirstEnd(d) + 1;
    assert data[..i + 1] == MARK + d[..i] && data[i + 1..FirstEnd(data)] == d[i..FirstEnd(d)];
  }

  lemma OnlyMark()
    ensures Split(MARK) == [FileLine(MARK, "")]
  {
    FirstBreakMarked("");
    assert MARK + "" == MARK && MARK[..1] == MARK && MARK[1..1] == "" && MARK[1..] == "";
  }

  function WithMark(l: FileLine): FileLine { l.(text := MARK + l.text) }

  /** Taking the mark off the data takes it off the first line. */
  lemma UnmarkedLines(d: string)
    requires |Split(MARK + d)| > 1
    ensures var us := Split(d); us != [] && Split(MARK + d) == [WithMark(us[0])] + us[1..]
  {
    if d == "" {
      assert MARK + d == MARK;
      OnlyMark();
    } else {
      FirstLineMarked(d);
      hide FirstLine, FirstEnd;
      assert Split(MARK + d) == [WithMark(FirstLine(d))] + Split(d[FirstEnd(d)..]);
      assert Split(d) == [FirstLine(d)] + Split(d[FirstEnd(d)..]);
    }
  }

  // ---------------------------------------------------------------------------
  // A diff whose first hunk starts after the first line
  // ---------------------------------------------------------------------------

  /** The first line, which the script keeps, without its mark. */
  ghost function Unmarked(es: seq<Edit>): seq<Edit>
    requires es != [] && es[0].text != ""
  {
    [es[0].(text := es[0].text[1..])] + es[1..]
  }

  lemma UnmarkedSides(es: seq<Edit>, k: nat)
    requires es != [] && es[0].text != "" && es[0].kind.Keep? && 0 < k <= |es|
    ensures var first := [es[0].text[1..]];
            && OldSide(Unmarked(es)[..k]) == first + OldSide(es[..k])[1..]
            && NewSide(Unmarked(es)[..k]) == first + NewSide(es[..k])[1..]
            && OldSide(es[..k]) != [] && NewSide(es[..k]) != [] && OldSide(es[..k])[0] == NewSide(es[..k])[0] == es[0].text
  {
    var us := Unmarked(es);
    assert us[..k][0] == us[0] && us[..k][1..] == es[1..k] && es[..k][1..] == es[1..k];
  }

  lemma UnmarkedScript(es: seq<Edit>, a: seq<string>, b: seq<string>)
    requires Script(es, a, b) && es != [] && es[0].text != "" && es[0].kind.Keep?
    ensures a != [] && b != [] && a[0] == b[0] == es[0].text
    ensures var first := [es[0].text[1..]]; Script(Unmarked(es), first + a[1..], first + b[1..])
  {
    var us := Unmarked(es);
    UnmarkedSides(es, |es|);
    assert es[..|es|] == es && us[..|es|] == us;
    hide OldSide, NewSide;
    forall k | 0 <= k < |us|
      ensures us[k].oldLine == 1 + |OldSide(us[..k])| && us[k].newLine == 1 + |NewSide(us[..k])|
    {
      if k > 0 {
        UnmarkedSides(es, k);
        assert us[k] == es[k];
      } else {
        assert us[..0] == es[..0];
      }
    }
  }

  lemma SameKinds(es: seq<Edit>, us: seq<Edit>, r: Range)
    requires |us| == |es| && (forall k | 0 <= k < |es| :: us[k].kind == es[k].kind) && RangeOk(es, r)
    ensures RangeOk(us, r)
  {
    forall p | r.first <= p && p + 2 * CONTEXT_LINES < r.last
      ensures !LongGap(us, p)
    {
      assert !LongGap(es, p);
    }
  }

  lemma SameHunk(es: seq<Edit>, us: seq<Edit>, r: Range)
    requires RangeOk(es, r) && RangeOk(us, r) && es[r.start..r.end] == us[r.start..r.end]
    ensures HunkOf(us, r) == HunkOf(es, r)
  {
    hide OldSide, NewSide, GapsBridged;
    assert es[r.start] == es[r.start..r.end][0] && us[r.start] == us[r.start..r.end][0];
  }

  lemma UnmarkedGrouped(es: seq<Edit>, ranges: seq<Range>, hunks: seq<Hunk>)
    requires Grouped(es, ranges, hunks) && es != [] && es[0].text != "" && forall h | 0 <= h < |ranges| :: ranges[h].start > 0
    ensures Grouped(Unmarked(es), ranges, hunks)
  {
    hide HunkOf, RangeOk, Covered, Separated;
    var us := Unmarked(es);
    assert |us| == |es| && forall k | 0 <= k < |es| :: us[k].kind == es[k].kind;
    forall h | 0 <= h < |ranges|
      ensures RangeOk(us, ranges[h]) && hunks[h] == HunkOf(us, ranges[h])
    {
      var r := ranges[h];
      SameKinds(es, us, r);
      RangeInside(es, r);
      assert us[r.start..r.end] == es[r.start..r.end];
      SameHunk(es, us, r);
    }
    forall k | 0 <= k < |us| && !us[k].kind.Keep?
      ensures Covered(ranges, k)
    {
      assert !es[k].kind.Keep?;
    }
  }

  lemma RangeInside(es: seq<Edit>, r: Range)
    requires RangeOk(es, r)
    ensures r.start < r.end <= |es|
  {
  }

  lemma StartsPositive(es: seq<Edit>, ranges: seq<Range>, hunks: seq<Hunk>)
    requires Grouped(es, ranges, hunks) && ranges != [] && ranges[0].start > 0
    ensures forall h | 0 <= h < |ranges| :: ranges[h].start > 0
    ensures |es| > 1 && es[0].kind.Keep? && es[1].kind.Keep?
  {
    hide HunkOf, RangeOk, Covered;
    FirstStart(es, ranges[0]);
    forall h | 0 <= h < |ranges|
      ensures ranges[h].start > 0 && (h > 0 ==> ranges[0].first < ranges[h].first)
    {
      if h > 0 {
        RangesOrdered(es, ranges, 0, h);
      }
      FirstStart(es, ranges[h]);
    }
    forall k | 0 <= k < 2
      ensures es[k].kind.Keep?
    {
      if !es[k].kind.Keep? {
        CoveredSomewhere(es, ranges, k);
      }
    }
  }

  lemma FirstStart(es: seq<Edit>, r: Range)
    requires RangeOk(es, r)
    ensures r.first <= r.last < |es| && (r.start > 0 ==> r.first > CONTEXT_LINES)
  {
  }

  lemma CoveredSomewhere(es: seq<Edit>, ranges: seq<Range>, k: nat)
    requires CoveredBefore(es, ranges, |es|) && k < |es| && !es[k].kind.Keep?
    ensures exists h :: 0 <= h < |ranges| && ranges[h].first <= k
  {
    var h :| 0 <= h < |ranges| && ranges[h].first <= k <= ranges[h].last;
  }

  // ---------------------------------------------------------------------------
  // Applying a diff of a marked file
  // ---------------------------------------------------------------------------

  lemma {:induction false} KeptCount(es: seq<Edit>)
    requires |es| > 1 && es[0].kind.Keep? && es[1].kind.Keep?
    ensures |OldSide(es)| > 1 && OldSide(es)[0] == es[0].text
  {
    assert es[1..][0] == es[1];
  }

  /** The script of the same change to the file without its mark. */
  lemma UnmarkedDiff(d: string, newData: string, es: seq<Edit>, ranges: seq<Range>, hunks: seq<Hunk>)
    requires FileDiff(MARK + d, newData, es, ranges, hunks) && ranges != [] && ranges[0].start > 0
    ensures es != [] && es[0].text != "" && SplitDiffLines(newData) != [] && SplitDiffLines(newData)[0] == es[0].text
    ensures es[0].text[0] == BYTE_ORDER_MARK
    ensures Diff(Split(d), [es[0].text[1..]] + SplitDiffLines(newData)[1..], Unmarked(es), ranges, hunks)
  {
    hide Split, SplitDiffLines, Numbered, OldSide, NewSide, HunksMatch, RangeOk, Covered, Separated, Script, Grouped;
    var data := MARK + d;
    StartsPositive(es, ranges, hunks);
    OldSideOf(es, data, newData);
    KeptCount(es);
    FirstTextIsMarked(data);
    DiffSeesFileTexts(data);
    UnmarkedScript(es, SplitDiffLines(data), SplitDiffLines(newData));
    UnmarkedGrouped(es, ranges, hunks);
    UnmarkedLines(d);
    var us := Split(d);
    assert Texts(us) == [es[0].text[1..]] + SplitDiffLines(data)[1..] by {
      var ls := Split(data);
      assert ls == [WithMark(us[0])] + us[1..];
      assert ls[0].text == MARK + us[0].text && Texts(ls)[0] == es[0].text;
      assert (MARK + us[0].text)[1..] == us[0].text;
      assert forall i | 0 < i < |us| :: ls[i] == us[i] && Texts(us)[i] == Texts(ls)[i];
    }
  }

  lemma OldSideOf(es: seq<Edit>, data: string, newData: string)
    requires Script(es, SplitDiffLines(data), SplitDiffLines(newData))
    ensures OldSide(es) == SplitDiffLines(data)
  {
  }

  /** The first hunk's block begins with the first line, mark included. */
  lemma FirstBlockIsMarked(data: string, newData: string, es: seq<Edit>, ranges: seq<Range>, hunks: seq<Hunk>)
    requires FileDiff(data, newData, es, ranges, hunks) && data != "" && data[0] == BYTE_ORDER_MARK && ranges != [] && ranges[0].start == 0
    ensures |hunks| == |ranges| && OldTexts(hunks[0].lines) != [] && Marked(OldTexts(hunks[0].lines)[0])
  {
    hide Split, SplitDiffLines, OldPos, NewPos, OldTexts, Script, Grouped;
    FileDiffIsDiff(data, newData, es, ranges, hunks);
    FirstTextIsMarked(data);
    DiffSeesFileTexts(data);
    BlockFacts(Split(data), SplitDiffLines(newData), es, ranges, hunks, 0);
    OldPosZero(es);
    assert BYTE_ORDER_MARK == SplitDiffLines(data)[0][0];
  }

  lemma OldPosZero(es: seq<Edit>)
    ensures OldPos(es, 0) == 0
  {
    assert es[..0] == [];
  }

  lemma FirstHunkFails(lines: seq<FileLine>, phs: seq<PatchHunk>)
    requires phs != [] && OldTexts(phs[0]) != [] && Marked(OldTexts(phs[0])[0]) && forall i | 0 <= i < |lines| :: !Marked(lines[i].text)
    ensures var errors := ErrorsOf(Plan(lines, phs, 0), 0); errors != [] && errors[0] == (0, NotFound)
  {
    hide Marked, OldTexts, Seek;
    MarkedIsNotFound(Texts(lines), OldTexts(phs[0]), COMPARATORS);
    var step, rest := StepFor(lines, phs[0], 0), Plan(lines, phs[1..], NextIndex(lines, phs[0], 0));
    assert Plan(lines, phs, 0) == [step] + rest;
    FailFirst(NotFound, rest);
  }

  /**
   * A file with a mark, and none elsewhere, and a diff of it. If the first hunk shows the first line, the diff is rejected
   * because that block is missing. Otherwise it is rejected for ambiguity only, or the patched file is the mark and
   * lines that, with the mark, are the new ones.
   */
  lemma MarkedRoundTrip(d: string, newData: string, es: seq<Edit>, ranges: seq<Range>, hunks: seq<Hunk>)
    requires FileDiff(MARK + d, newData, es, ranges, hunks) && ranges != [] && !Marked(d)
    ensures match Applied(MARK + d, PatchHunks(hunks))
            case Rejected(errors) =>
              errors != [] && if ranges[0].start == 0 then errors[0] == (0, NotFound) else OnlyAmbiguous(errors)
            case Patched(out) =>
              ranges[0].start > 0 && exists ls: seq<FileLine> :: ls != [] && out == MARK + Join(ls) && SplitDiffLines(newData) == [MARK + ls[0].text] + Texts(ls)[1..]
  {
    hide FileDiff, Split, SplitDiffLines, Plan, ErrorsOf, Spliced, OnlyAmbiguous, Join, Texts, Marked, OldTexts;
    var data, phs := MARK + d, PatchHunks(hunks);
    assert WithoutMark(data) == d && MarkOf(data) == MARK;
    if ranges[0].start == 0 {
      FirstBlockIsMarked(data, newData, es, ranges, hunks);
      SplitJoins(d);
      forall i | 0 <= i < |Split(d)|
        ensures !Marked(Split(d)[i].text)
      {
        LinesUnmarked(Split(d), i);
      }
      FirstHunkFails(Split(d), phs);
    } else {
      UnmarkedDiff(d, newData, es, ranges, hunks);
      RoundTripLines(Split(d), [es[0].text[1..]] + SplitDiffLines(newData)[1..], Unmarked(es), ranges, hunks);
      if ErrorsOf(Plan(Split(d), phs, 0), 0) == [] {
        MarkPutBack(Spliced(Split(d), phs), SplitDiffLines(newData), es[0].text);
      }
    }
  }

  lemma MarkPutBack(ls: seq<FileLine>, b: seq<string>, first: string)
    requires b != [] && b[0] == first && first != "" && first[0] == BYTE_ORDER_MARK && Texts(ls) == [first[1..]] + b[1..]
    ensures ls != [] && b == [MARK + ls[0].text] + Texts(ls)[1..]
  {
    assert Texts(ls)[0] == first[1..] && first == MARK + first[1..];
  }
}
