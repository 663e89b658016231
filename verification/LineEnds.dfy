/** A file with one kind of line end keeps it, whatever hunks are applied to it. */
module LineEnds {
  import opened EditScript
  import opened FileLines
  import opened Hunks
  import opened Patch
  import opened Apply
  import opened ReadBack

  lemma {:induction false} LastTerminatorNone(ls: seq<FileLine>)
    ensures LastTerminator(ls) == "" <==> forall i | 0 <= i < |ls| :: ls[i].terminator == ""
  {
    if ls != [] {
      var front := ls[..|ls| - 1];
      LastTerminatorNone(front);
      assert forall i | 0 <= i < |front| :: front[i] == ls[i];
    }
  }

  lemma {:induction false} FirstTerminatorNone(ls: seq<FileLine>)
    ensures FirstTerminator(ls) == "" <==> forall i | 0 <= i < |ls| :: ls[i].terminator == ""
  {
    if ls != [] {
      FirstTerminatorNone(ls[1..]);
      assert forall i | 0 < i < |ls| :: ls[i] == ls[1..][i - 1];
    }
  }

  /** Some line is terminated. */
  ghost predicate SomeEnd(lines: seq<FileLine>) { exists i :: 0 <= i < |lines| && lines[i].terminator != "" }

  /** The chosen terminator is one of the file, if it has any. */
  lemma EndingOfFile(lines: seq<FileLine>, index: nat, ts: set<string>)
    requires index <= |lines| && TerminatorsIn(lines, ts) && SomeEnd(lines)
    ensures LineEnding(lines, index) in ts
  {
    var before := lines[..index];
    LastTerminatorIn(before, ts);
    LastTerminatorNone(before);
    assert forall k | 0 <= k < index :: before[k] == lines[k];
    if index < |lines| {
      var after := lines[index + 1..];
      FirstTerminatorIn(after, ts);
      FirstTerminatorNone(after);
      assert forall k | index < k < |lines| :: lines[k] == after[k - index - 1];
    }
  }

  ghost predicate StepIn(step: Step, ts: set<string>) { step.Change? ==> TerminatorsIn(step.r.lines, ts) }

  ghost predicate AllIn(rs: seq<Replacement>, ts: set<string>) { forall r | r in rs :: TerminatorsIn(r.lines, ts) }

  lemma ReplacementIn(lines: seq<FileLine>, hunk: PatchHunk, start: nat, ts: set<string>)
    requires TerminatorsIn(lines, ts) && SomeEnd(lines) && start + |OldTexts(hunk)| <= |lines|
    ensures TerminatorsIn(ReplacementFor(lines, hunk, start).lines, ts)
  {
    hide LineEnding, OldTexts, Replace, SomeEnd;
    var matched := lines[start..start + |OldTexts(hunk)|];
    EndingOfFile(lines, start, ts);
    assert TerminatorsIn(matched, ts);
    ReplaceIn(hunk, matched, LineEnding(lines, start), false, ts);
  }

  lemma StepKeepsEnds(lines: seq<FileLine>, hunk: PatchHunk, lineIndex: nat, ts: set<string>)
    requires TerminatorsIn(lines, ts) && SomeEnd(lines)
    ensures StepIn(StepFor(lines, hunk, lineIndex), ts)
  {
    hide TerminatorsIn, SomeEnd, Texts, OldTexts, ReplacementFor, SeekSequence;
    var block := OldTexts(hunk);
    if block == [] {
      ReplacementIn(lines, hunk, |lines|, ts);
    } else {
      SequenceInBounds(Texts(lines), block, lineIndex);
      var found := SeekSequence(Texts(lines), block, lineIndex);
      if found.At? {
        ReplacementIn(lines, hunk, found.start, ts);
      }
    }
  }

  lemma {:induction false} ChangesKeepEnds(lines: seq<FileLine>, hunks: seq<PatchHunk>, lineIndex: nat, ts: set<string>)
    requires TerminatorsIn(lines, ts) && SomeEnd(lines)
    ensures AllIn(ChangesOf(Plan(lines, hunks, lineIndex)), ts)
    decreases |hunks|
  {
    hide TerminatorsIn, SomeEnd, StepFor, NextIndex;
    if hunks != [] {
      var step, next := StepFor(lines, hunks[0], lineIndex), NextIndex(lines, hunks[0], lineIndex);
      var rest := Plan(lines, hunks[1..], next);
      StepKeepsEnds(lines, hunks[0], lineIndex, ts);
      ChangesKeepEnds(lines, hunks[1..], next, ts);
      assert Plan(lines, hunks, lineIndex) == [step] + rest && ([step] + rest)[1..] == rest;
    }
  }

  lemma {:induction false} InsertedKeepsEnds(r: Replacement, rs: seq<Replacement>, ts: set<string>)
    requires TerminatorsIn(r.lines, ts) && AllIn(rs, ts)
    ensures AllIn(InsertByStart(r, rs), ts)
  {
    hide TerminatorsIn;
    if rs != [] && !(r.start <= rs[0].start) {
      InsertedKeepsEnds(r, rs[1..], ts);
    }
  }

  lemma {:induction false} SortedKeepsEnds(rs: seq<Replacement>, ts: set<string>)
    requires AllIn(rs, ts)
    ensures AllIn(SortByStart(rs), ts)
  {
    hide TerminatorsIn;
    if rs != [] {
      SortedKeepsEnds(rs[1..], ts);
      InsertedKeepsEnds(rs[0], SortByStart(rs[1..]), ts);
    }
  }

  lemma {:induction false} SubstituteKeepsEnds(lines: seq<FileLine>, rs: seq<Replacement>, from: nat, ts: set<string>)
    requires Disjoint(rs, from, |lines|) && TerminatorsIn(lines, ts) && AllIn(rs, ts)
    ensures TerminatorsIn(Substitute(lines, rs, from), ts)
    decreases |rs|
  {
    if rs != [] {
      var e := rs[0];
      SubstituteFirst(lines, rs, from);
      assert TerminatorsIn(e.lines, ts);
      SubstituteKeepsEnds(lines, rs[1..], e.start + e.size, ts);
    }
  }

  /** Patching brings in no terminator that the file did not have, if it had any. */
  lemma SplicedKeepsEnds(lines: seq<FileLine>, hunks: seq<PatchHunk>, ts: set<string>)
    requires TerminatorsIn(lines, ts) && SomeEnd(lines)
    ensures TerminatorsIn(Spliced(lines, hunks), ts)
  {
    hide TerminatorsIn, SomeEnd, Plan, ChangesOf, SortByStart, Substitute, Disjoint, AllIn;
    PlanIsDisjoint(lines, hunks, 0);
    ChangesKeepEnds(lines, hunks, 0, ts);
    SortedKeepsEnds(ChangesOf(Plan(lines, hunks, 0)), ts);
    SubstituteKeepsEnds(lines, SortByStart(ChangesOf(Plan(lines, hunks, 0))), 0, ts);
  }

  /** A file whose terminated lines all end in `t` is patched to one of the same kind, whatever the hunks. */
  lemma OneKindStays(data: string, hunks: seq<PatchHunk>, t: string)
    requires t != "" && TerminatorsIn(Split(WithoutMark(data)), {t, ""}) && SomeEnd(Split(WithoutMark(data)))
    ensures var outcome := Applied(data, hunks);
            outcome.Patched? ==>
              exists ls: seq<FileLine> :: outcome.data == MarkOf(data) + Join(ls) && TerminatorsIn(ls, {t, ""})
  {
    hide Split, Join, TerminatorsIn, SomeEnd, Plan, ErrorsOf, WithoutMark, MarkOf, Spliced;
    SplicedKeepsEnds(Split(WithoutMark(data)), hunks, {t, ""});
  }
}
