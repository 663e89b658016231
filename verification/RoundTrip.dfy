/** Applying the hunks of a diff to the file the diff was taken from gives the other file's lines, or reports ambiguity. */
module RoundTrip {
  import opened EditScript
  import opened FileLines
  import opened Hunks
  import opened Patch
  import opened Apply

  ghost function PatchHunks(hunks: seq<Hunk>): (phs: seq<PatchHunk>)
    ensures |phs| == |hunks| && forall h | 0 <= h < |hunks| :: phs[h] == hunks[h].lines
  {
    seq(|hunks|, h requires 0 <= h < |hunks| => hunks[h].lines)
  }

  /** The facts about one diff that every step of the round trip uses. */
  ghost predicate Diff(lines: seq<FileLine>, b: seq<string>, es: seq<Edit>, ranges: seq<Range>, hunks: seq<Hunk>) {
    Script(es, Texts(lines), b) && Grouped(es, ranges, hunks)
  }

  /** Where a hunk came from, and what it is replaced by there. */
  ghost function Expected(lines: seq<FileLine>, b: seq<string>, es: seq<Edit>, ranges: seq<Range>, hunks: seq<Hunk>, h: nat): Replacement
    requires Diff(lines, b, es, ranges, hunks) && h < |ranges|
  {
    BlockFacts(lines, b, es, ranges, hunks, h);
    ReplacementFor(lines, hunks[h].lines, OldPos(es, ranges[h].start))
  }

  ghost function ExpectedFrom(lines: seq<FileLine>, b: seq<string>, es: seq<Edit>, ranges: seq<Range>, hunks: seq<Hunk>, h: nat): seq<Replacement>
    requires Diff(lines, b, es, ranges, hunks) && h <= |ranges|
    decreases |ranges| - h
  {
    if h == |ranges| then []
    else [Expected(lines, b, es, ranges, hunks, h)] + ExpectedFrom(lines, b, es, ranges, hunks, h + 1)
  }

  // ---------------------------------------------------------------------------
  // Every hunk is found where it came from, or more than once
  // ---------------------------------------------------------------------------

  lemma {:induction false} NoOldSide(es: seq<Edit>)
    requires OldSide(es) == []
    ensures forall e | e in es :: e.kind.Insert?
  {
    if es != [] {
      NoOldSide(es[1..]);
    }
  }

  /** A hunk shows no old line only when the old file has none. */
  lemma EmptyBlock(es: seq<Edit>, r: Range)
    requires RangeOk(es, r) && OldSide(es[r.start..r.end]) == []
    ensures OldSide(es) == [] && r.start == 0
  {
    var part := es[r.start..r.end];
    assert r.last + 1 < r.end ==> es[r.last + 1].kind.Keep?;
    assert forall k | r.start <= k < r.end :: es[k] == part[k - r.start] && es[k] in part;
    NoOldSide(part);
    assert r.start == r.first && r.last + 1 == r.end;
    assert part == es;
  }

  /** What the script says about one hunk: its place, the lines copied before it, and both its sides. */
  lemma BlockFacts(lines: seq<FileLine>, b: seq<string>, es: seq<Edit>, ranges: seq<Range>, hunks: seq<Hunk>, h: nat)
    requires Diff(lines, b, es, ranges, hunks) && h < |ranges|
    ensures |hunks| == |ranges|
    ensures var r := ranges[h]; EndOf(ranges, h) <= r.start <= r.end <= |es| && EndOf(ranges, h + 1) == r.end
    ensures var r, from, a, ls := ranges[h], EndOf(ranges, h), Texts(lines), hunks[h].lines;
            && OldPos(es, from) <= OldPos(es, r.start) <= OldPos(es, r.end) <= |lines|
            && NewPos(es, from) <= NewPos(es, r.start) <= NewPos(es, r.end) <= |b|
            && a[OldPos(es, from)..OldPos(es, r.start)] == b[NewPos(es, from)..NewPos(es, r.start)]
            && OldTexts(ls) == a[OldPos(es, r.start)..OldPos(es, r.end)]
            && |OldTexts(ls)| == OldPos(es, r.end) - OldPos(es, r.start)
            && NewTexts(ls) == b[NewPos(es, r.start)..NewPos(es, r.end)]
            && (OldTexts(ls) == [] ==> |lines| == 0)
  {
    var r, a := ranges[h], Texts(lines);
    RangeOfHunk(es, ranges, hunks, h);
    KeptOutside(es, ranges, hunks, h);
    hide RangeOk, Grouped, HunkOf, Numbered, OldPos, NewPos, AllKept, OldTexts, NewTexts, OldSide, NewSide;
    CopyBetween(es, a, b, EndOf(ranges, h), r.start);
    HeaderMeans(es, a, b, r);
    BlockLines(es, a, b, r, hunks[h].lines);
  }

  /** Only the positions. */
  lemma BlockBounds(lines: seq<FileLine>, b: seq<string>, es: seq<Edit>, ranges: seq<Range>, hunks: seq<Hunk>, h: nat)
    requires Diff(lines, b, es, ranges, hunks) && h < |ranges|
    ensures |hunks| == |ranges|
    ensures EndOf(ranges, h) <= ranges[h].start <= ranges[h].end <= |es|
    ensures OldPos(es, EndOf(ranges, h)) <= OldPos(es, ranges[h].start) <= OldPos(es, ranges[h].end) <= |lines|
    ensures |OldTexts(hunks[h].lines)| == OldPos(es, ranges[h].end) - OldPos(es, ranges[h].start)
    ensures OldTexts(hunks[h].lines) == [] ==> |lines| == 0
  {
    hide *;
    BlockFacts(lines, b, es, ranges, hunks, h);
  }

  /** Only the new side. */
  lemma BlockNew(lines: seq<FileLine>, b: seq<string>, es: seq<Edit>, ranges: seq<Range>, hunks: seq<Hunk>, h: nat)
    requires Diff(lines, b, es, ranges, hunks) && h < |ranges|
    ensures |hunks| == |ranges| && ranges[h].start <= ranges[h].end <= |es|
    ensures NewPos(es, ranges[h].start) <= NewPos(es, ranges[h].end) <= |b|
    ensures NewTexts(hunks[h].lines) == b[NewPos(es, ranges[h].start)..NewPos(es, ranges[h].end)]
  {
    hide *;
    BlockFacts(lines, b, es, ranges, hunks, h);
  }

  lemma RangeOfHunk(es: seq<Edit>, ranges: seq<Range>, hunks: seq<Hunk>, h: nat)
    requires Grouped(es, ranges, hunks) && h < |ranges|
    ensures |hunks| == |ranges| && RangeOk(es, ranges[h]) && hunks[h] == HunkOf(es, ranges[h])
    ensures ranges[h].start <= ranges[h].end <= |es|
  {
    assert RangeOk(es, ranges[h]);
  }

  lemma BlockLines(es: seq<Edit>, a: seq<string>, b: seq<string>, r: Range, ls: seq<Line>)
    requires Script(es, a, b) && RangeOk(es, r) && ls == HunkOf(es, r).lines
    ensures OldTexts(ls) == [] ==> |a| == 0
  {
    LinesSpell(es[r.start..r.end], ls);
    if OldTexts(ls) == [] {
      EmptyBlock(es, r);
    }
  }

  lemma StepIsExpected(lines: seq<FileLine>, b: seq<string>, es: seq<Edit>, ranges: seq<Range>, hunks: seq<Hunk>, h: nat, lineIndex: nat)
    requires Diff(lines, b, es, ranges, hunks) && h < |ranges|
    requires EndOf(ranges, h) <= |es| && lineIndex <= OldPos(es, EndOf(ranges, h))
    ensures var step := StepFor(lines, hunks[h].lines, lineIndex);
            step == Change(Expected(lines, b, es, ranges, hunks, h)) || (step.Fail? && step.found.Ambiguous?)
    ensures EndOf(ranges, h + 1) <= |es| && NextIndex(lines, hunks[h].lines, lineIndex) <= OldPos(es, EndOf(ranges, h + 1))
  {
    hide Diff, OldPos, NewPos, EndOf, SeekSequence, OldTexts, Texts, Replacing, LineEnding;
    BlockFacts(lines, b, es, ranges, hunks, h);
    var block, i := OldTexts(hunks[h].lines), OldPos(es, ranges[h].start);
    if block != [] {
      ExactSiteDecides(Texts(lines), block, lineIndex, i);
    }
  }

  ghost predicate OnlyAmbiguous(errors: seq<(nat, Found)>) { forall e | e in errors :: e.1.Ambiguous? }

  /** In every plan for the diff's own file, hunks go where they came from or are ambiguous: never missing, never elsewhere. */
  lemma {:induction false} PlanIsExpected(lines: seq<FileLine>, b: seq<string>, es: seq<Edit>, ranges: seq<Range>, hunks: seq<Hunk>, h: nat, lineIndex: nat, first: nat)
    requires Diff(lines, b, es, ranges, hunks) && h <= |ranges| == |hunks|
    requires EndOf(ranges, h) <= |es| && lineIndex <= OldPos(es, EndOf(ranges, h))
    ensures var steps := Plan(lines, PatchHunks(hunks)[h..], lineIndex);
            && OnlyAmbiguous(ErrorsOf(steps, first))
            && (ErrorsOf(steps, first) == [] ==> ChangesOf(steps) == ExpectedFrom(lines, b, es, ranges, hunks, h))
    decreases |ranges| - h
  {
    hide Diff, StepFor, NextIndex, Expected, EndOf, OldPos;
    var phs := PatchHunks(hunks);
    if h < |ranges| {
      StepIsExpected(lines, b, es, ranges, hunks, h, lineIndex);
      var step, next := StepFor(lines, phs[h], lineIndex), NextIndex(lines, phs[h], lineIndex);
      PlanIsExpected(lines, b, es, ranges, hunks, h + 1, next, first + 1);
      var rest := Plan(lines, phs[h + 1..], next);
      assert phs[h..][0] == phs[h] && phs[h..][1..] == phs[h + 1..];
      assert Plan(lines, phs[h..], lineIndex) == [step] + rest;
      assert ExpectedFrom(lines, b, es, ranges, hunks, h) ==
             [Expected(lines, b, es, ranges, hunks, h)] + ExpectedFrom(lines, b, es, ranges, hunks, h + 1);
      hide Plan, ChangesOf, ErrorsOf, PatchHunks, ExpectedFrom;
      if step.Change? {
        ChangeFirst(step.r, rest);
      } else {
        FailFirst(step.found, rest);
      }
    }
  }

  lemma {:induction false} DisjointIsSorted(rs: seq<Replacement>, from: nat, length: nat)
    requires Disjoint(rs, from, length)
    ensures SortByStart(rs) == rs
  {
    if rs != [] {
      DisjointIsSorted(rs[1..], rs[0].start + rs[0].size, length);
    }
  }

  // ---------------------------------------------------------------------------
  // The substituted lines spell the new file
  // ---------------------------------------------------------------------------

  lemma TextsOfThree(x: seq<FileLine>, y: seq<FileLine>, z: seq<FileLine>)
    ensures Texts(x + (y + z)) == Texts(x) + Texts(y) + Texts(z)
  {
  }

  lemma JoinSlices(b: seq<string>, j: nat, j1: nat, j2: nat)
    requires j <= j1 <= j2 <= |b|
    ensures b[j..j1] + b[j1..j2] + b[j2..] == b[j..]
  {
  }

  lemma TextsOfSlice(lines: seq<FileLine>, i: nat, j: nat)
    requires i <= j <= |lines|
    ensures Texts(lines[i..j]) == Texts(lines)[i..j]
  {
  }

  lemma ExpectedSpells(lines: seq<FileLine>, b: seq<string>, es: seq<Edit>, ranges: seq<Range>, hunks: seq<Hunk>, h: nat)
    requires Diff(lines, b, es, ranges, hunks) && h < |ranges|
    ensures ranges[h].start <= ranges[h].end <= |es|
    ensures var r, e := ranges[h], Expected(lines, b, es, ranges, hunks, h);
            && e.start == OldPos(es, r.start) && e.start + e.size == OldPos(es, r.end) <= |lines|
            && NewPos(es, r.start) <= NewPos(es, r.end) <= |b|
            && Texts(e.lines) == b[NewPos(es, r.start)..NewPos(es, r.end)]
  {
    hide Diff, OldPos, NewPos, EndOf, OldTexts, NewTexts, Texts, Replacing, LineEnding;
    BlockFacts(lines, b, es, ranges, hunks, h);
    var i, j := OldPos(es, ranges[h].start), OldPos(es, ranges[h].end);
    TextsOfSlice(lines, i, j);
    ReplacingSpells(hunks[h].lines, lines[i..j], LineEnding(lines, i));
  }

  lemma PrependDisjoint(e: Replacement, rest: seq<Replacement>, from: nat, length: nat)
    requires from <= e.start && e.start + e.size <= length && Disjoint(rest, e.start + e.size, length)
    ensures var rs := [e] + rest; rs[0] == e && rs[1..] == rest && Disjoint(rs, from, length)
  {
    assert ([e] + rest)[1..] == rest;
  }

  lemma SubstituteSpells(lines: seq<FileLine>, e: Replacement, rest: seq<Replacement>, b: seq<string>, i: nat, j: nat, j1: nat, j2: nat)
    requires i <= e.start && j <= j1 <= j2 <= |b| && e.start + e.size <= |lines|
    requires Disjoint(rest, e.start + e.size, |lines|)
    requires Texts(lines)[i..e.start] == b[j..j1] && Texts(e.lines) == b[j1..j2]
    requires Texts(Substitute(lines, rest, e.start + e.size)) == b[j2..]
    ensures Disjoint([e] + rest, i, |lines|) && Texts(Substitute(lines, [e] + rest, i)) == b[j..]
  {
    hide *;
    var rs := [e] + rest;
    PrependDisjoint(e, rest, i, |lines|);
    SubstituteFirst(lines, rs, i);
    TextsOfSlice(lines, i, e.start);
    TextsOfThree(lines[i..e.start], e.lines, Substitute(lines, rest, e.start + e.size));
    JoinSlices(b, j, j1, j2);
  }

  /** From hunk `h` on, replacing the hunks where they came from spells the rest of the new file. */
  ghost predicate SpellsFrom(lines: seq<FileLine>, b: seq<string>, es: seq<Edit>, ranges: seq<Range>, hunks: seq<Hunk>, h: nat)
    requires Diff(lines, b, es, ranges, hunks) && h <= |ranges|
  {
    EndOf(ranges, h) <= |es| &&
    var i, j, rs := OldPos(es, EndOf(ranges, h)), NewPos(es, EndOf(ranges, h)), ExpectedFrom(lines, b, es, ranges, hunks, h);
    i <= |lines| && j <= |b| && Disjoint(rs, i, |lines|) && Texts(Substitute(lines, rs, i)) == b[j..]
  }

  lemma LastSpells(lines: seq<FileLine>, b: seq<string>, es: seq<Edit>, ranges: seq<Range>, hunks: seq<Hunk>)
    requires Diff(lines, b, es, ranges, hunks)
    ensures SpellsFrom(lines, b, es, ranges, hunks, |ranges|)
  {
    hide Diff, OldPos, NewPos, Texts, EndOf, Disjoint, Substitute;
    var from := EndOf(ranges, |ranges|);
    RestFacts(lines, b, es, ranges, hunks);
    LastCopy(lines, b, OldPos(es, from), NewPos(es, from));
  }

  lemma HunkSpells(lines: seq<FileLine>, b: seq<string>, es: seq<Edit>, ranges: seq<Range>, hunks: seq<Hunk>, h: nat)
    requires Diff(lines, b, es, ranges, hunks) && h < |ranges| && SpellsFrom(lines, b, es, ranges, hunks, h + 1)
    ensures SpellsFrom(lines, b, es, ranges, hunks, h)
  {
    hide Diff, OldPos, NewPos, Texts, EndOf, Disjoint, Substitute, Expected;
    var r, from := ranges[h], EndOf(ranges, h);
    BlockFacts(lines, b, es, ranges, hunks, h);
    ExpectedSpells(lines, b, es, ranges, hunks, h);
    var e, rest := Expected(lines, b, es, ranges, hunks, h), ExpectedFrom(lines, b, es, ranges, hunks, h + 1);
    assert ExpectedFrom(lines, b, es, ranges, hunks, h) == [e] + rest;
    hide ExpectedFrom;
    SubstituteSpells(lines, e, rest, b, OldPos(es, from), NewPos(es, from), NewPos(es, r.start), NewPos(es, r.end));
  }

  lemma {:induction false} SplicedSpells(lines: seq<FileLine>, b: seq<string>, es: seq<Edit>, ranges: seq<Range>, hunks: seq<Hunk>, h: nat)
    requires Diff(lines, b, es, ranges, hunks) && h <= |ranges|
    ensures SpellsFrom(lines, b, es, ranges, hunks, h)
    decreases |ranges| - h
  {
    hide *;
    if h == |ranges| {
      LastSpells(lines, b, es, ranges, hunks);
    } else {
      SplicedSpells(lines, b, es, ranges, hunks, h + 1);
      HunkSpells(lines, b, es, ranges, hunks, h);
    }
  }

  /** After the last hunk both files agree to the end. */
  lemma RestFacts(lines: seq<FileLine>, b: seq<string>, es: seq<Edit>, ranges: seq<Range>, hunks: seq<Hunk>)
    requires Diff(lines, b, es, ranges, hunks)
    ensures var from := EndOf(ranges, |ranges|);
            && from <= |es| && OldPos(es, from) <= |lines| && NewPos(es, from) <= |b|
            && Texts(lines)[OldPos(es, from)..|lines|] == b[NewPos(es, from)..|b|]
  {
    var from := EndOf(ranges, |ranges|);
    KeptOutside(es, ranges, hunks, |ranges|);
    CopyBetween(es, Texts(lines), b, from, |es|);
    assert es[..|es|] == es;
  }

  lemma LastCopy(lines: seq<FileLine>, b: seq<string>, i: nat, j: nat)
    requires i <= |lines| && j <= |b| && Texts(lines)[i..|lines|] == b[j..|b|]
    ensures Disjoint([], i, |lines|) && Texts(Substitute(lines, [], i)) == b[j..]
  {
    TextsOfSlice(lines, i, |lines|);
    assert lines[i..|lines|] == lines[i..] && b[j..|b|] == b[j..];
  }

  // ---------------------------------------------------------------------------
  // The round trip
  // ---------------------------------------------------------------------------

  /** Any diff applied to its own file is rejected for ambiguity only, or gives exactly the new lines. */
  lemma RoundTripLines(lines: seq<FileLine>, b: seq<string>, es: seq<Edit>, ranges: seq<Range>, hunks: seq<Hunk>)
    requires Diff(lines, b, es, ranges, hunks)
    ensures var errors := ErrorsOf(Plan(lines, PatchHunks(hunks), 0), 0);
            && OnlyAmbiguous(errors)
            && (errors == [] ==> Spliced(lines, PatchHunks(hunks)) == Result(lines, b, es, ranges, hunks))
            && (errors == [] ==> Texts(Spliced(lines, PatchHunks(hunks))) == b)
  {
    assert es[..0] == [] && PatchHunks(hunks)[0..] == PatchHunks(hunks) && b[0..] == b;
    assert EndOf(ranges, 0) == 0 && OldPos(es, 0) == 0 && NewPos(es, 0) == 0;
    PlanIsExpected(lines, b, es, ranges, hunks, 0, 0, 0);
    SplicedSpells(lines, b, es, ranges, hunks, 0);
    var rs := ExpectedFrom(lines, b, es, ranges, hunks, 0);
    hide Diff, ExpectedFrom, Plan, ErrorsOf, ChangesOf;
    DisjointIsSorted(rs, 0, |lines|);
  }

  /** The result of the round trip: every hunk replaced where it came from. */
  ghost function Result(lines: seq<FileLine>, b: seq<string>, es: seq<Edit>, ranges: seq<Range>, hunks: seq<Hunk>): seq<FileLine>
    requires Diff(lines, b, es, ranges, hunks)
  {
    SplicedSpells(lines, b, es, ranges, hunks, 0);
    assert es[..0] == [];
    Substitute(lines, ExpectedFrom(lines, b, es, ranges, hunks, 0), 0)
  }
}
