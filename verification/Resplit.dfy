/**
 * Reading back any patched file: where every line of the file is terminated, without lone carriage returns, and inserted
 * texts contain no line breaks, the spliced list of lines is the list that is read back.
 */
module Resplit {
  import opened EditScript
  import opened FileLines
  import opened Hunks
  import opened Patch
  import opened Apply
  import opened ReadBack

  const NEWLINES: set<string> := {"\n", "\r\n"}

  ghost predicate CleanLine(l: FileLine) { BreakFree(l.text) && l.terminator in NEWLINES }

  ghost predicate Clean(ls: seq<FileLine>) { forall i | 0 <= i < |ls| :: CleanLine(ls[i]) }

  /** What the hunk inserts has no line breaks. */
  ghost predicate CleanHunk(ls: seq<Line>) { forall i | 0 <= i < |ls| && ls[i].kind.Insert? :: BreakFree(ls[i].text) }

  lemma {:induction false} ReplaceClean(ls: seq<Line>, matched: seq<FileLine>, ending: string, deleted: bool)
    requires |OldTexts(ls)| == |matched| && Clean(matched) && CleanHunk(ls) && ending in NEWLINES
    ensures Clean(Replace(ls, matched, ending, deleted))
    decreases |ls|
  {
    if ls != [] {
      assert forall i | 0 <= i < |ls| - 1 :: ls[1..][i] == ls[i + 1];
      match ls[0].kind {
        case Keep => ReplaceClean(ls[1..], matched[1..], ending, deleted);
        case Delete =>
          assert CleanLine(matched[0]);
          ReplaceClean(ls[1..], matched[1..], if !deleted && matched[0].terminator != "" then matched[0].terminator else ending, true);
        case Insert => ReplaceClean(ls[1..], matched, ending, deleted);
      }
    }
  }

  lemma CleanIn(ls: seq<FileLine>)
    requires Clean(ls)
    ensures TerminatorsIn(ls, NEWLINES) && WellFormed(ls) && Canonical(ls)
  {
    hide BreakFree, Canonical;
    assert forall i | 0 <= i < |ls| :: CleanLine(ls[i]);
    CanonicalEndsWell(ls);
  }

  lemma ReplacementClean(lines: seq<FileLine>, hunk: PatchHunk, start: nat)
    requires Clean(lines) && CleanHunk(hunk) && start + |OldTexts(hunk)| <= |lines|
    ensures Clean(ReplacementFor(lines, hunk, start).lines)
  {
    hide BreakFree, Canonical, WellFormed, OldTexts, Replace, LineEnding;
    var matched := lines[start..start + |OldTexts(hunk)|];
    CleanIn(lines);
    LineEndingIn(lines, start, NEWLINES);
    assert Clean(matched);
    assert matched != [] ==> CleanLine(matched[|matched| - 1]);
    ReplaceClean(hunk, matched, LineEnding(lines, start), false);
  }

  ghost predicate CleanStep(step: Step) { step.Change? ==> Clean(step.r.lines) }

  ghost predicate CleanAll(rs: seq<Replacement>) { forall r | r in rs :: Clean(r.lines) }

  lemma StepClean(lines: seq<FileLine>, hunk: PatchHunk, lineIndex: nat)
    requires Clean(lines) && CleanHunk(hunk)
    ensures CleanStep(StepFor(lines, hunk, lineIndex))
  {
    hide Clean, CleanHunk, Texts, OldTexts, ReplacementFor, SeekSequence;
    var block := OldTexts(hunk);
    if block == [] {
      ReplacementClean(lines, hunk, |lines|);
    } else {
      SequenceInBounds(Texts(lines), block, lineIndex);
      var found := SeekSequence(Texts(lines), block, lineIndex);
      if found.At? {
        ReplacementClean(lines, hunk, found.start);
      }
    }
  }

  ghost predicate CleanHunks(hunks: seq<PatchHunk>) { forall h | 0 <= h < |hunks| :: CleanHunk(hunks[h]) }

  lemma {:induction false} ChangesClean(lines: seq<FileLine>, hunks: seq<PatchHunk>, lineIndex: nat)
    requires Clean(lines) && CleanHunks(hunks)
    ensures CleanAll(ChangesOf(Plan(lines, hunks, lineIndex)))
    decreases |hunks|
  {
    hide Clean, CleanHunk, StepFor, NextIndex;
    if hunks != [] {
      var step, next := StepFor(lines, hunks[0], lineIndex), NextIndex(lines, hunks[0], lineIndex);
      var rest := Plan(lines, hunks[1..], next);
      StepClean(lines, hunks[0], lineIndex);
      ChangesClean(lines, hunks[1..], next);
      assert Plan(lines, hunks, lineIndex) == [step] + rest && ([step] + rest)[1..] == rest;
    }
  }

  lemma {:induction false} InsertedClean(r: Replacement, rs: seq<Replacement>)
    requires Clean(r.lines) && CleanAll(rs)
    ensures CleanAll(InsertByStart(r, rs))
  {
    hide Clean;
    if rs != [] && !(r.start <= rs[0].start) {
      InsertedClean(r, rs[1..]);
    }
  }

  lemma {:induction false} SortedClean(rs: seq<Replacement>)
    requires CleanAll(rs)
    ensures CleanAll(SortByStart(rs))
  {
    hide Clean;
    if rs != [] {
      SortedClean(rs[1..]);
      InsertedClean(rs[0], SortByStart(rs[1..]));
    }
  }

  lemma {:induction false} SubstituteClean(lines: seq<FileLine>, rs: seq<Replacement>, from: nat)
    requires Disjoint(rs, from, |lines|) && Clean(lines) && CleanAll(rs)
    ensures Clean(Substitute(lines, rs, from))
    decreases |rs|
  {
    hide BreakFree, CleanLine;
    if rs != [] {
      var e := rs[0];
      SubstituteFirst(lines, rs, from);
      assert Clean(e.lines);
      SubstituteClean(lines, rs[1..], e.start + e.size);
    }
  }

  lemma SplicedClean(lines: seq<FileLine>, hunks: seq<PatchHunk>)
    requires Clean(lines) && CleanHunks(hunks)
    ensures Clean(Spliced(lines, hunks))
  {
    hide Clean, CleanHunks, Plan, ChangesOf, SortByStart, Substitute, Disjoint, CleanAll;
    PlanIsDisjoint(lines, hunks, 0);
    ChangesClean(lines, hunks, 0);
    SortedClean(ChangesOf(Plan(lines, hunks, 0)));
    SubstituteClean(lines, SortByStart(ChangesOf(Plan(lines, hunks, 0))), 0);
  }

  /** A file whose last line is terminated and that has no lone carriage return. */
  lemma SplitIsClean(data: string)
    requires TerminatorsIn(Split(data), NEWLINES)
    ensures Clean(Split(data))
  {
    SplitJoins(data);
    hide Split, Join;
    assert forall i | 0 <= i < |Split(data)| :: WellFormedLine(Split(data)[i]);
  }

  /** Whatever the hunks, re-splitting the patched file gives the spliced lines, with their texts and terminators. */
  lemma PatchedResplits(data: string, hunks: seq<PatchHunk>)
    requires TerminatorsIn(Split(WithoutMark(data)), NEWLINES) && CleanHunks(hunks)
    ensures var outcome := Applied(data, hunks);
            outcome.Patched? ==>
              |MarkOf(data)| <= |outcome.data| && Split(outcome.data[|MarkOf(data)|..]) == Spliced(Split(WithoutMark(data)), hunks)
  {
    hide Split, Spliced, Plan, ErrorsOf, Join, TerminatorsIn, CleanHunks, WithoutMark, MarkOf, Canonical, WellFormed, Clean;
    var lines := Split(WithoutMark(data));
    SplitIsClean(WithoutMark(data));
    SplicedClean(lines, hunks);
    CleanIn(Spliced(lines, hunks));
    CountOfJoin(Spliced(lines, hunks));
    assert (MarkOf(data) + Join(Spliced(lines, hunks)))[|MarkOf(data)|..] == Join(Spliced(lines, hunks));
  }

  lemma CountOfJoin(ls: seq<FileLine>)
    requires WellFormed(ls) && Canonical(ls)
    ensures Split(Join(ls)) == ls
  {
    JoinKeepsCount(ls);
  }
}
