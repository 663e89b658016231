/** Grouping an edit script into unified-diff hunks, and what the hunk headers mean to a reader of the diff. */
module Hunks {
  import opened EditScript

  const CONTEXT_LINES: nat := 3

  datatype Line = Line(kind: Kind, text: string)

  datatype Hunk = Hunk(oldStart: int, oldCount: nat, newStart: int, newCount: nat, lines: seq<Line>)

  /** The part of a script one hunk shows: edits from `start` to `end`, the outermost changes being `first` and `last`. */
  datatype Range = Range(start: nat, first: nat, last: nat, end: nat)

  // ---------------------------------------------------------------------------
  // Which ranges a script is grouped into
  // ---------------------------------------------------------------------------

  ghost predicate AllKept(es: seq<Edit>, from: int, to: int) {
    forall k | from <= k < to && 0 <= k < |es| :: es[k].kind.Keep?
  }

  /** From `p` on there are more unchanged lines than two hunks' context would show. */
  ghost predicate LongGap(es: seq<Edit>, p: int) { AllKept(es, p, p + 2 * CONTEXT_LINES + 1) }

  /** No run of more than twice the context separates two changes between `from` and `to`. */
  ghost predicate GapsBridged(es: seq<Edit>, from: nat, to: nat) {
    forall p | from <= p && p + 2 * CONTEXT_LINES < to && to < |es| :: !LongGap(es, p)
  }

  /** A range starts and ends with exactly the context that is there, up to three lines. */
  ghost predicate RangeOk(es: seq<Edit>, r: Range) {
    && r.start <= r.first <= r.last < r.end <= |es|
    && !es[r.first].kind.Keep? && !es[r.last].kind.Keep?
    && AllKept(es, r.start, r.first) && AllKept(es, r.last + 1, r.end)
    && r.start == (if r.first >= CONTEXT_LINES then r.first - CONTEXT_LINES else 0)
    && r.end == (if r.last + CONTEXT_LINES + 1 <= |es| then r.last + CONTEXT_LINES + 1 else |es|)
    && GapsBridged(es, r.first, r.last)
  }

  /** Ranges are in order and so far apart that their context cannot meet. */
  ghost predicate Separated(ranges: seq<Range>) {
    forall h | 0 < h < |ranges| :: ranges[h - 1].last + 2 * CONTEXT_LINES + 1 < ranges[h].first
  }

  ghost predicate Covered(ranges: seq<Range>, k: int) {
    exists h :: 0 <= h < |ranges| && ranges[h].first <= k <= ranges[h].last
  }

  ghost predicate CoveredBefore(es: seq<Edit>, ranges: seq<Range>, index: int) {
    forall k | 0 <= k < index && k < |es| && !es[k].kind.Keep? :: Covered(ranges, k)
  }

  ghost predicate HunksMatch(es: seq<Edit>, ranges: seq<Range>, hunks: seq<Hunk>) {
    |hunks| == |ranges| && forall h | 0 <= h < |ranges| :: RangeOk(es, ranges[h]) && hunks[h] == HunkOf(es, ranges[h])
  }

  ghost predicate Grouped(es: seq<Edit>, ranges: seq<Range>, hunks: seq<Hunk>) {
    && HunksMatch(es, ranges, hunks)
    && Separated(ranges)
    && CoveredBefore(es, ranges, |es|)
  }

  // ---------------------------------------------------------------------------
  // What one hunk says
  // ---------------------------------------------------------------------------

  function ToLine(e: Edit): Line { Line(e.kind, e.text) }

  ghost function OldTexts(ls: seq<Line>): seq<string> {
    if ls == [] then [] else (if ls[0].kind.Insert? then [] else [ls[0].text]) + OldTexts(ls[1..])
  }

  ghost function NewTexts(ls: seq<Line>): seq<string> {
    if ls == [] then [] else (if ls[0].kind.Delete? then [] else [ls[0].text]) + NewTexts(ls[1..])
  }

  /** The hunk for a range of a script: counts of its two sides, and line numbers as the unified format wants them. */
  ghost function HunkOf(es: seq<Edit>, r: Range): Hunk
    requires RangeOk(es, r)
  {
    var part := es[r.start..r.end];
    var oldCount, newCount := |OldSide(part)|, |NewSide(part)|;
    Hunk(es[r.start].oldLine - if oldCount == 0 then 1 else 0, oldCount,
         es[r.start].newLine - if newCount == 0 then 1 else 0, newCount,
         seq(|part|, i requires 0 <= i < |part| => ToLine(part[i])))
  }

  // ---------------------------------------------------------------------------
  // The grouping loop
  // ---------------------------------------------------------------------------

  lemma FindsNext(es: seq<Edit>, from: nat, to: nat, next: nat)
    requires from <= to < next < |es| && GapsBridged(es, from, to) && AllKept(es, to + 1, next)
    requires !es[to].kind.Keep? && next - to - 1 <= 2 * CONTEXT_LINES
    ensures GapsBridged(es, from, next)
  {
    forall p | from <= p && p + 2 * CONTEXT_LINES < next
      ensures !LongGap(es, p)
    {
      if p + 2 * CONTEXT_LINES >= to {
        assert p <= to < p + 2 * CONTEXT_LINES + 1;
      }
    }
  }

  /** Extend the hunk while the next change is within twice the context of the last one. */
  method LastChange(es: seq<Edit>, index: nat) returns (lastChange: nat)
    requires index < |es| && !es[index].kind.Keep?
    ensures index <= lastChange < |es| && !es[lastChange].kind.Keep?
    ensures GapsBridged(es, index, lastChange)
    ensures AllKept(es, lastChange + 1, lastChange + 2 * CONTEXT_LINES + 2)
  {
    lastChange := index;
    var next := index + 1;
    while next < |es|
      invariant index <= lastChange < next <= |es| && !es[lastChange].kind.Keep?
      invariant GapsBridged(es, index, lastChange) && AllKept(es, lastChange + 1, next)
    {
      if !es[next].kind.Keep? {
        if next - lastChange - 1 > CONTEXT_LINES * 2 {
          break;
        }
        FindsNext(es, index, lastChange, next);
        lastChange := next;
      }
      next := next + 1;
    }
  }

  /** Count both sides and copy the lines of `es[start..end]`. */
  method FormatHunk(es: seq<Edit>, r: Range) returns (hunk: Hunk)
    requires RangeOk(es, r)
    ensures hunk == HunkOf(es, r)
  {
    var part := es[r.start..r.end];
    var oldCount, newCount := 0, 0;
    var lines: seq<Line> := [];
    var i := 0;
    while i < |part|
      invariant 0 <= i <= |part|
      invariant oldCount == |OldSide(part[..i])| && newCount == |NewSide(part[..i])|
      invariant |lines| == i && forall k | 0 <= k < i :: lines[k] == ToLine(part[k])
    {
      SidesOfPrefix(part, i);
      if !part[i].kind.Insert? {
        oldCount := oldCount + 1;
      }
      if !part[i].kind.Delete? {
        newCount := newCount + 1;
      }
      lines := lines + [ToLine(part[i])];
      i := i + 1;
    }
    assert part[..i] == part;
    var oldStart, newStart := es[r.start].oldLine, es[r.start].newLine;
    if oldCount == 0 {
      oldStart := oldStart - 1;
    }
    if newCount == 0 {
      newStart := newStart - 1;
    }
    hunk := Hunk(oldStart, oldCount, newStart, newCount, lines);
  }

  /** The hunks so far are those of the script up to `index`, where the next search starts. */
  ghost predicate GroupedBefore(es: seq<Edit>, ranges: seq<Range>, hunks: seq<Hunk>, index: nat) {
    && HunksMatch(es, ranges, hunks)
    && Separated(ranges) && CoveredBefore(es, ranges, index)
    && (ranges != [] ==> var r := ranges[|ranges| - 1];
                         r.end == index && AllKept(es, index, r.last + 2 * CONTEXT_LINES + 2))
  }

  lemma AddRange(es: seq<Edit>, ranges: seq<Range>, r: Range, before: nat)
    requires CoveredBefore(es, ranges, before) && AllKept(es, before, r.first) && AllKept(es, r.last + 1, r.end)
    ensures CoveredBefore(es, ranges + [r], r.end)
  {
    forall k | 0 <= k < r.end && k < |es| && !es[k].kind.Keep?
      ensures Covered(ranges + [r], k)
    {
      if k < before {
        var h :| 0 <= h < |ranges| && ranges[h].first <= k <= ranges[h].last;
        assert (ranges + [r])[h] == ranges[h];
      } else {
        assert (ranges + [r])[|ranges|] == r;
      }
    }
  }

  lemma MatchMore(es: seq<Edit>, ranges: seq<Range>, hunks: seq<Hunk>, r: Range)
    requires HunksMatch(es, ranges, hunks) && RangeOk(es, r)
    ensures HunksMatch(es, ranges + [r], hunks + [HunkOf(es, r)])
  {
    hide RangeOk, HunkOf;
  }

  lemma AddHunk(es: seq<Edit>, ranges: seq<Range>, hunks: seq<Hunk>, r: Range, before: nat)
    requires GroupedBefore(es, ranges, hunks, before) && before <= r.first && AllKept(es, before, r.first)
    requires RangeOk(es, r) && r.last < r.end <= r.last + 2 * CONTEXT_LINES + 2
    requires AllKept(es, r.last + 1, r.last + 2 * CONTEXT_LINES + 2)
    requires r.first < |es| && !es[r.first].kind.Keep?
    ensures GroupedBefore(es, ranges + [r], hunks + [HunkOf(es, r)], r.end)
  {
    hide CoveredBefore, HunkOf, RangeOk, HunksMatch;
    assert AllKept(es, r.last + 1, r.end);
    AddRange(es, ranges, r, before);
    MatchMore(es, ranges, hunks, r);
  }

  lemma RangeFits(es: seq<Edit>, r: Range)
    requires r.first <= r.last < |es| && !es[r.first].kind.Keep? && !es[r.last].kind.Keep?
    requires GapsBridged(es, r.first, r.last) && AllKept(es, r.last + 1, r.last + 2 * CONTEXT_LINES + 2)
    requires r.start == (if r.first >= CONTEXT_LINES then r.first - CONTEXT_LINES else 0)
    requires r.end == (if r.last + CONTEXT_LINES + 1 <= |es| then r.last + CONTEXT_LINES + 1 else |es|)
    requires AllKept(es, r.start, r.first)
    ensures RangeOk(es, r)
  {
    hide GapsBridged;
  }

  /** The context before a change is unchanged: it cannot reach back into the hunk before. */
  lemma ContextIsKept(es: seq<Edit>, ranges: seq<Range>, hunks: seq<Hunk>, before: nat, first: nat)
    requires GroupedBefore(es, ranges, hunks, before) && before <= first < |es|
    requires AllKept(es, before, first) && !es[first].kind.Keep?
    ensures AllKept(es, if first >= CONTEXT_LINES then first - CONTEXT_LINES else 0, first)
  {
    if ranges == [] {
      forall k | 0 <= k < before
        ensures es[k].kind.Keep?
      {
        assert !Covered(ranges, k);
      }
    } else {
      assert RangeOk(es, ranges[|ranges| - 1]);
    }
  }

  /** Three lines of context where there are as many, and more than six kept lines between the changes of two hunks. */
  ghost predicate InThrees(es: seq<Edit>, ranges: seq<Range>) {
    && (forall h | 0 <= h < |ranges| ::
          && ranges[h].start == (if ranges[h].first < 3 then 0 else ranges[h].first - 3)
          && ranges[h].end == (if ranges[h].last + 4 > |es| then |es| else ranges[h].last + 4))
    && forall h | 0 < h < |ranges| :: ranges[h].first - ranges[h - 1].last > 7
  }

  lemma GroupedInThrees(es: seq<Edit>, ranges: seq<Range>, hunks: seq<Hunk>)
    requires Grouped(es, ranges, hunks)
    ensures InThrees(es, ranges)
  {
    hide HunkOf, GapsBridged, AllKept, Covered;
    assert forall h | 0 <= h < |ranges| :: RangeOk(es, ranges[h]);
  }

  method WriteDiffHunks(es: seq<Edit>) returns (hunks: seq<Hunk>)
    ensures exists ranges :: Grouped(es, ranges, hunks) && InThrees(es, ranges)
  {
    hunks := [];
    ghost var ranges: seq<Range> := [];
    var index := 0;
    while index < |es|
      invariant 0 <= index <= |es| && GroupedBefore(es, ranges, hunks, index)
    {
      hide GroupedBefore, RangeOk, GapsBridged, CoveredBefore, HunkOf, HunksMatch;
      ghost var before := index;
      while index < |es| && es[index].kind.Keep?
        invariant before <= index <= |es| && AllKept(es, before, index)
      {
        index := index + 1;
      }
      if index == |es| {
        AllGrouped(es, ranges, hunks, before);
        GroupedInThrees(es, ranges, hunks);
        return;
      }
      var start := if index >= CONTEXT_LINES then index - CONTEXT_LINES else 0;
      ContextIsKept(es, ranges, hunks, before, index);
      var lastChange := LastChange(es, index);
      var end := if lastChange + CONTEXT_LINES + 1 < |es| then lastChange + CONTEXT_LINES + 1 else |es|;
      var r := Range(start, index, lastChange, end);
      RangeFits(es, r);
      AddHunk(es, ranges, hunks, r, before);
      var hunk := FormatHunk(es, r);
      hunks := hunks + [hunk];
      ranges := ranges + [r];
      index := end;
    }
    AllGrouped(es, ranges, hunks, index);
    GroupedInThrees(es, ranges, hunks);
  }

  lemma AllGrouped(es: seq<Edit>, ranges: seq<Range>, hunks: seq<Hunk>, index: nat)
    requires GroupedBefore(es, ranges, hunks, index) && index <= |es| && AllKept(es, index, |es|)
    ensures Grouped(es, ranges, hunks)
  {
    hide RangeOk, HunkOf;
  }

  // ---------------------------------------------------------------------------
  // Reading the hunks: patching by position alone
  // ---------------------------------------------------------------------------

  datatype Option<T> = None | Some(value: T)

  /** The zero-based line a header points at; an empty side is written as the line before it. */
  function Position(start: int, count: nat): int { if count == 0 then start else start - 1 }

  /**
   * What a reader of the diff does: copy old lines up to the header's position, check and drop the old side,
   * check the new position, and write the new side. Any disagreement rejects the diff.
   */
  ghost function PatchByHeaders(source: seq<string>, hunks: seq<Hunk>, consumed: nat, written: seq<string>): Option<seq<string>>
    requires consumed <= |source|
  {
    if hunks == [] then Some(written + source[consumed..])
    else
      var h := hunks[0];
      var at := Position(h.oldStart, h.oldCount);
      if consumed <= at && at + h.oldCount <= |source| && source[at..at + h.oldCount] == OldTexts(h.lines) &&
         |written| + at - consumed == Position(h.newStart, h.newCount) && |NewTexts(h.lines)| == h.newCount
      then PatchByHeaders(source, hunks[1..], at + h.oldCount, written + source[consumed..at] + NewTexts(h.lines))
      else None
  }

  lemma {:induction false} OldSideOfConcat(s: seq<Edit>, t: seq<Edit>)
    ensures OldSide(s + t) == OldSide(s) + OldSide(t)
  {
    if s == [] {
      assert s + t == t;
    } else {
      assert (s + t)[1..] == s[1..] + t;
      OldSideOfConcat(s[1..], t);
    }
  }

  lemma {:induction false} NewSideOfConcat(s: seq<Edit>, t: seq<Edit>)
    ensures NewSide(s + t) == NewSide(s) + NewSide(t)
  {
    if s == [] {
      assert s + t == t;
    } else {
      assert (s + t)[1..] == s[1..] + t;
      NewSideOfConcat(s[1..], t);
    }
  }

  lemma SidesOfConcat(s: seq<Edit>, t: seq<Edit>)
    ensures OldSide(s + t) == OldSide(s) + OldSide(t) && NewSide(s + t) == NewSide(s) + NewSide(t)
  {
    OldSideOfConcat(s, t);
    NewSideOfConcat(s, t);
  }

  /** The lines of each file consumed before an edit. */
  ghost function OldPos(es: seq<Edit>, k: nat): nat requires k <= |es| { |OldSide(es[..k])| }

  ghost function NewPos(es: seq<Edit>, k: nat): nat requires k <= |es| { |NewSide(es[..k])| }

  /** A part of a script spells the part of each file it stands for. */
  lemma PartSpells(es: seq<Edit>, a: seq<string>, b: seq<string>, p: nat, q: nat)
    requires Spells(es, a, b) && p <= q <= |es|
    ensures OldPos(es, p) <= OldPos(es, q) <= |a| && NewPos(es, p) <= NewPos(es, q) <= |b|
    ensures OldSide(es[p..q]) == a[OldPos(es, p)..OldPos(es, q)]
    ensures NewSide(es[p..q]) == b[NewPos(es, p)..NewPos(es, q)]
  {
    SidesOfConcat(es[..p], es[p..q]);
    assert es[..p] + es[p..q] == es[..q];
    SidesOfConcat(es[..q], es[q..]);
    assert es[..q] + es[q..] == es;
  }

  lemma {:induction false} KeptSidesAgree(es: seq<Edit>)
    requires forall e | e in es :: e.kind.Keep?
    ensures OldSide(es) == NewSide(es)
  {
    if es != [] {
      KeptSidesAgree(es[1..]);
    }
  }

  lemma {:induction false} LinesSpell(part: seq<Edit>, ls: seq<Line>)
    requires |ls| == |part| && forall i | 0 <= i < |part| :: ls[i] == ToLine(part[i])
    ensures OldTexts(ls) == OldSide(part) && NewTexts(ls) == NewSide(part)
  {
    if part != [] {
      LinesSpell(part[1..], ls[1..]);
    }
  }

  ghost function EndOf(ranges: seq<Range>, h: nat): nat requires h <= |ranges| { if h == 0 then 0 else ranges[h - 1].end }

  lemma {:induction false} RangesOrdered(es: seq<Edit>, ranges: seq<Range>, g: nat, h: nat)
    requires (forall i | 0 <= i < |ranges| :: RangeOk(es, ranges[i])) && Separated(ranges) && g < h < |ranges|
    ensures ranges[g].last < ranges[g].end <= ranges[h].start <= ranges[h].first
    decreases h - g
  {
    assert RangeOk(es, ranges[g]) && RangeOk(es, ranges[h]) && RangeOk(es, ranges[h - 1]);
    if g < h - 1 {
      RangesOrdered(es, ranges, g, h - 1);
    }
  }

  /** Ranges lie inside the script, one after another. */
  ghost predicate InOrder(es: seq<Edit>, ranges: seq<Range>) {
    && (forall h | 0 <= h < |ranges| ::
          ranges[h].start <= ranges[h].first <= ranges[h].last < ranges[h].end <= |es|)
    && (forall g, h | 0 <= g < h < |ranges| :: ranges[g].end <= ranges[h].start)
  }

  lemma GroupedInOrder(es: seq<Edit>, ranges: seq<Range>, hunks: seq<Hunk>)
    requires Grouped(es, ranges, hunks)
    ensures InOrder(es, ranges)
  {
    forall g, h | 0 <= g < h < |ranges|
      ensures ranges[g].end <= ranges[h].start
    {
      RangesOrdered(es, ranges, g, h);
    }
    assert forall h | 0 <= h < |ranges| :: RangeOk(es, ranges[h]);
  }

  lemma OutsideIsUncovered(es: seq<Edit>, ranges: seq<Range>, h: nat, k: nat)
    requires InOrder(es, ranges) && h <= |ranges|
    requires EndOf(ranges, h) <= k && (h < |ranges| ==> k < ranges[h].start)
    ensures !Covered(ranges, k)
  {
    forall g | 0 <= g < |ranges|
      ensures !(ranges[g].first <= k <= ranges[g].last)
    {
      if g + 1 < h {
        assert ranges[g].end <= ranges[h - 1].start;
      }
    }
  }

  lemma KeptOutside(es: seq<Edit>, ranges: seq<Range>, hunks: seq<Hunk>, h: nat)
    requires Grouped(es, ranges, hunks) && h <= |ranges|
    ensures var to := if h == |ranges| then |es| else ranges[h].start;
            EndOf(ranges, h) <= to <= |es| && AllKept(es, EndOf(ranges, h), to)
  {
    GroupedInOrder(es, ranges, hunks);
    var from, to := EndOf(ranges, h), if h == |ranges| then |es| else ranges[h].start;
    forall k | from <= k < to && k < |es|
      ensures es[k].kind.Keep?
    {
      OutsideIsUncovered(es, ranges, h, k);
    }
  }

  /** Between hunks both files agree, so copying old lines writes new ones. */
  lemma CopyBetween(es: seq<Edit>, a: seq<string>, b: seq<string>, p: nat, q: nat)
    requires Spells(es, a, b) && p <= q <= |es| && AllKept(es, p, q)
    ensures OldPos(es, p) <= OldPos(es, q) <= |a| && NewPos(es, p) <= NewPos(es, q) <= |b|
    ensures a[OldPos(es, p)..OldPos(es, q)] == b[NewPos(es, p)..NewPos(es, q)]
  {
    PartSpells(es, a, b, p, q);
    KeptSidesAgree(es[p..q]);
  }

  /** The header of a hunk points at the lines consumed before it, and its lines spell both sides. */
  lemma HeaderMeans(es: seq<Edit>, a: seq<string>, b: seq<string>, r: Range)
    requires Script(es, a, b) && RangeOk(es, r)
    ensures var h := HunkOf(es, r);
            && Position(h.oldStart, h.oldCount) == OldPos(es, r.start)
            && Position(h.newStart, h.newCount) == NewPos(es, r.start)
            && OldPos(es, r.start) + h.oldCount == OldPos(es, r.end) <= |a|
            && NewPos(es, r.start) + h.newCount == NewPos(es, r.end) <= |b|
            && OldTexts(h.lines) == a[OldPos(es, r.start)..OldPos(es, r.end)]
            && NewTexts(h.lines) == b[NewPos(es, r.start)..NewPos(es, r.end)]
  {
    var h := HunkOf(es, r);
    PartSpells(es, a, b, r.start, r.end);
    LinesSpell(es[r.start..r.end], h.lines);
  }

  lemma PatchRest(a: seq<string>, b: seq<string>, i: nat, j: nat)
    requires i <= |a| && j <= |b| && a[i..|a|] == b[j..|b|]
    ensures PatchByHeaders(a, [], i, b[..j]) == Some(b)
  {
    assert b[..j] + b[j..|b|] == b;
    assert a[i..|a|] == a[i..];
  }

  lemma PatchOne(a: seq<string>, b: seq<string>, hunks: seq<Hunk>, i: nat, j: nat, i1: nat, j1: nat, i2: nat, j2: nat)
    requires hunks != [] && i <= i1 <= i2 <= |a| && j <= j1 <= j2 <= |b| && a[i..i1] == b[j..j1]
    requires var h := hunks[0];
             && Position(h.oldStart, h.oldCount) == i1 && Position(h.newStart, h.newCount) == j1
             && i1 + h.oldCount == i2 && j1 + h.newCount == j2
             && OldTexts(h.lines) == a[i1..i2] && NewTexts(h.lines) == b[j1..j2]
    ensures PatchByHeaders(a, hunks, i, b[..j]) == PatchByHeaders(a, hunks[1..], i2, b[..j2])
  {
    assert |a[i..i1]| == |b[j..j1]|;
    assert b[..j] + b[j..j1] + b[j1..j2] == b[..j2];
  }

  lemma {:induction false} PatchFrom(es: seq<Edit>, a: seq<string>, b: seq<string>, ranges: seq<Range>, hunks: seq<Hunk>, h: nat)
    requires Script(es, a, b) && Grouped(es, ranges, hunks) && h <= |ranges|
    ensures EndOf(ranges, h) <= |es| && OldPos(es, EndOf(ranges, h)) <= |a| && NewPos(es, EndOf(ranges, h)) <= |b|
    ensures PatchByHeaders(a, hunks[h..], OldPos(es, EndOf(ranges, h)), b[..NewPos(es, EndOf(ranges, h))]) == Some(b)
    decreases |ranges| - h
  {
    var from := EndOf(ranges, h);
    KeptOutside(es, ranges, hunks, h);
    if h == |ranges| {
      CopyBetween(es, a, b, from, |es|);
      assert es[..|es|] == es && hunks[h..] == [];
      hide *;
      PatchRest(a, b, OldPos(es, from), NewPos(es, from));
    } else {
      var r := ranges[h];
      assert RangeOk(es, r) && hunks[h] == HunkOf(es, r);
      CopyBetween(es, a, b, from, r.start);
      HeaderMeans(es, a, b, r);
      PatchFrom(es, a, b, ranges, hunks, h + 1);
      assert hunks[h..][1..] == hunks[h + 1..] && EndOf(ranges, h + 1) == r.end;
      hide *;
      PatchOne(a, b, hunks[h..], OldPos(es, from), NewPos(es, from), OldPos(es, r.start), NewPos(es, r.start),
               OldPos(es, r.end), NewPos(es, r.end));
    }
  }

  /** The diff is sound: following its headers and counts turns the old lines into the new ones. */
  lemma HunksPatchOldToNew(es: seq<Edit>, a: seq<string>, b: seq<string>, ranges: seq<Range>, hunks: seq<Hunk>)
    requires Script(es, a, b) && Grouped(es, ranges, hunks)
    ensures PatchByHeaders(a, hunks, 0, []) == Some(b)
  {
    PatchFrom(es, a, b, ranges, hunks, 0);
    assert hunks[0..] == hunks;
  }
}
