/** Applying all hunks of one file, and the round trip from a diff back to the file it was taken from. */
module Apply {
  import opened EditScript
  import opened FileLines
  import opened Hunks
  import opened Patch

  const BYTE_ORDER_MARK: char := '\U{FEFF}'

  /** The block to search for and what replaces it. Context headers and end-of-file anchors stay unset. */
  type PatchHunk = seq<Line>

  datatype Outcome = Patched(data: string) | Rejected(errors: seq<(nat, Found)>)

  ghost function WithoutMark(data: string): string {
    if data != "" && data[0] == BYTE_ORDER_MARK then data[1..] else data
  }

  ghost function MarkOf(data: string): string {
    if data != "" && data[0] == BYTE_ORDER_MARK then [BYTE_ORDER_MARK] else ""
  }

  // ---------------------------------------------------------------------------
  // Where each hunk goes
  // ---------------------------------------------------------------------------

  datatype Step = Change(r: Replacement) | Fail(found: Found)

  ghost function ReplacementFor(lines: seq<FileLine>, hunk: PatchHunk, start: nat): Replacement
    requires start + |OldTexts(hunk)| <= |lines|
  {
    var n := |OldTexts(hunk)|;
    Replacement(start, n, Replacing(hunk, lines[start..start + n], LineEnding(lines, start)))
  }

  lemma SequenceInBounds(texts: seq<string>, block: seq<string>, lineIndex: nat)
    ensures var found := SeekSequence(texts, block, lineIndex);
            found.At? ==> lineIndex <= found.start && found.start + |block| <= |texts|
  {
    SeekInBounds(texts, block, lineIndex, COMPARATORS);
  }

  /** A hunk without old lines goes to the end; any other is searched for from `lineIndex`. */
  ghost function StepFor(lines: seq<FileLine>, hunk: PatchHunk, lineIndex: nat): Step {
    var block := OldTexts(hunk);
    if block == [] then Change(ReplacementFor(lines, hunk, |lines|))
    else
      SequenceInBounds(Texts(lines), block, lineIndex);
      var found := SeekSequence(Texts(lines), block, lineIndex);
      if found.At? then Change(ReplacementFor(lines, hunk, found.start)) else Fail(found)
  }

  /** The next search starts after the last block that was found. */
  ghost function NextIndex(lines: seq<FileLine>, hunk: PatchHunk, lineIndex: nat): nat {
    var step := StepFor(lines, hunk, lineIndex);
    if step.Change? && step.r.size > 0 then step.r.start + step.r.size else lineIndex
  }

  ghost function Plan(lines: seq<FileLine>, hunks: seq<PatchHunk>, lineIndex: nat): (steps: seq<Step>)
    ensures |steps| == |hunks|
    decreases |hunks|
  {
    if hunks == [] then []
    else [StepFor(lines, hunks[0], lineIndex)] + Plan(lines, hunks[1..], NextIndex(lines, hunks[0], lineIndex))
  }

  lemma StepInBounds(lines: seq<FileLine>, hunk: PatchHunk, lineIndex: nat)
    requires lineIndex <= |lines|
    ensures var step := StepFor(lines, hunk, lineIndex);
            step.Change? ==>
              if step.r.size == 0 then step.r.start == |lines|
              else lineIndex <= step.r.start && step.r.start + step.r.size <= |lines|
    ensures NextIndex(lines, hunk, lineIndex) <= |lines|
  {
    SequenceInBounds(Texts(lines), OldTexts(hunk), lineIndex);
  }

  /** The replacements of the located hunks, in patch order. */
  ghost function ChangesOf(steps: seq<Step>): seq<Replacement> {
    if steps == [] then [] else (if steps[0].Change? then [steps[0].r] else []) + ChangesOf(steps[1..])
  }

  /** The hunks that were not located, numbered from `first`. */
  ghost function ErrorsOf(steps: seq<Step>, first: nat): seq<(nat, Found)> {
    if steps == [] then []
    else (if steps[0].Fail? then [(first, steps[0].found)] else []) + ErrorsOf(steps[1..], first + 1)
  }

  // ---------------------------------------------------------------------------
  // Stable ordering by start
  // ---------------------------------------------------------------------------

  function InsertByStart(r: Replacement, rs: seq<Replacement>): seq<Replacement> {
    if rs == [] || r.start <= rs[0].start then [r] + rs else [rs[0]] + InsertByStart(r, rs[1..])
  }

  function SortByStart(rs: seq<Replacement>): seq<Replacement> {
    if rs == [] then [] else InsertByStart(rs[0], SortByStart(rs[1..]))
  }

  /** An insertion at the very end fits in front of the other insertions there. */
  lemma {:induction false} InsertAtEnd(r: Replacement, rs: seq<Replacement>, from: nat, length: nat)
    requires Disjoint(rs, from, length) && r.start == length && r.size == 0
    ensures Disjoint(InsertByStart(r, rs), from, length)
  {
    if rs != [] && !(r.start <= rs[0].start) {
      InsertAtEnd(r, rs[1..], rs[0].start + rs[0].size, length);
      assert ([rs[0]] + InsertByStart(r, rs[1..]))[1..] == InsertByStart(r, rs[1..]);
    } else {
      if rs == [] {
        assert [r] + rs == [r];
      } else {
        assert ([r] + rs)[1..] == rs;
      }
    }
  }

  lemma InsertInFront(r: Replacement, rs: seq<Replacement>, from: nat, length: nat)
    requires from <= r.start && Disjoint(rs, r.start + r.size, length)
    ensures InsertByStart(r, rs) == [r] + rs && Disjoint([r] + rs, from, length)
  {
    assert ([r] + rs)[1..] == rs;
    DisjointEnds(rs, r.start + r.size, length);
  }

  /** Whatever the hunks are, sorting their replacements leaves them in order and disjoint. */
  lemma {:induction false} PlanIsDisjoint(lines: seq<FileLine>, hunks: seq<PatchHunk>, lineIndex: nat)
    requires lineIndex <= |lines|
    ensures Disjoint(SortByStart(ChangesOf(Plan(lines, hunks, lineIndex))), lineIndex, |lines|)
    decreases |hunks|
  {
    if hunks != [] {
      var step, next := StepFor(lines, hunks[0], lineIndex), NextIndex(lines, hunks[0], lineIndex);
      var rest := Plan(lines, hunks[1..], next);
      StepInBounds(lines, hunks[0], lineIndex);
      PlanIsDisjoint(lines, hunks[1..], next);
      assert Plan(lines, hunks, lineIndex) == [step] + rest;
      assert step.Change? ==> next == if step.r.size > 0 then step.r.start + step.r.size else lineIndex;
      assert step.Fail? ==> next == lineIndex;
      hide *;
      if step.Fail? {
        FailFirst(step.found, rest);
      } else {
        ChangeFirst(step.r, rest);
        if step.r.size == 0 {
          InsertAtEnd(step.r, SortByStart(ChangesOf(rest)), lineIndex, |lines|);
        } else {
          InsertInFront(step.r, SortByStart(ChangesOf(rest)), lineIndex, |lines|);
        }
      }
    }
  }

  lemma ChangeFirst(r: Replacement, steps: seq<Step>)
    ensures ChangesOf([Change(r)] + steps) == [r] + ChangesOf(steps)
    ensures SortByStart(ChangesOf([Change(r)] + steps)) == InsertByStart(r, SortByStart(ChangesOf(steps)))
    ensures forall first: nat :: ErrorsOf([Change(r)] + steps, first) == ErrorsOf(steps, first + 1)
  {
    assert ([Change(r)] + steps)[1..] == steps;
    assert ([r] + ChangesOf(steps))[1..] == ChangesOf(steps);
  }

  lemma FailFirst(found: Found, steps: seq<Step>)
    ensures ChangesOf([Fail(found)] + steps) == ChangesOf(steps)
    ensures forall first: nat :: ErrorsOf([Fail(found)] + steps, first) == [(first, found)] + ErrorsOf(steps, first + 1)
  {
    assert ([Fail(found)] + steps)[1..] == steps;
  }

  /** The replacements that have old lines, or those that have none. */
  function WithOldLines(rs: seq<Replacement>, some: bool): seq<Replacement> {
    if rs == [] then [] else (if (rs[0].size > 0) == some then [rs[0]] else []) + WithOldLines(rs[1..], some)
  }

  lemma {:induction false} InsertBehind(r: Replacement, rs: seq<Replacement>, ends: seq<Replacement>)
    requires (forall i | 0 <= i < |rs| :: rs[i].start < r.start) && forall i | 0 <= i < |ends| :: ends[i].start == r.start
    ensures InsertByStart(r, rs + ends) == rs + ([r] + ends)
    decreases |rs|
  {
    if rs == [] {
      assert rs + ends == ends && rs + ([r] + ends) == [r] + ends;
    } else {
      assert (rs + ends)[0] == rs[0] && (rs + ends)[1..] == rs[1..] + ends;
      InsertBehind(r, rs[1..], ends);
    }
  }

  ghost predicate OldLinesBefore(rs: seq<Replacement>, length: nat) {
    forall i | 0 <= i < |rs| :: if rs[i].size == 0 then rs[i].start == length else rs[i].start < length
  }

  lemma {:induction false} PlanPlaces(lines: seq<FileLine>, hunks: seq<PatchHunk>, lineIndex: nat)
    requires lineIndex <= |lines|
    ensures OldLinesBefore(ChangesOf(Plan(lines, hunks, lineIndex)), |lines|)
    decreases |hunks|
  {
    hide StepFor, NextIndex;
    if hunks != [] {
      var step, next := StepFor(lines, hunks[0], lineIndex), NextIndex(lines, hunks[0], lineIndex);
      StepInBounds(lines, hunks[0], lineIndex);
      PlanPlaces(lines, hunks[1..], next);
      assert Plan(lines, hunks, lineIndex) == [step] + Plan(lines, hunks[1..], next);
      if step.Change? {
        ChangeFirst(step.r, Plan(lines, hunks[1..], next));
      } else {
        FailFirst(step.found, Plan(lines, hunks[1..], next));
      }
    }
  }

  lemma {:induction false} WithOldLinesPlaces(rs: seq<Replacement>, length: nat)
    requires OldLinesBefore(rs, length)
    ensures forall i | 0 <= i < |WithOldLines(rs, true)| :: WithOldLines(rs, true)[i].start < length
    ensures forall i | 0 <= i < |WithOldLines(rs, false)| :: WithOldLines(rs, false)[i].start == length
  {
    if rs != [] {
      assert forall i | 0 <= i < |rs[1..]| :: rs[1..][i] == rs[i + 1];
      WithOldLinesPlaces(rs[1..], length);
    }
  }

  /** Hunks are applied in patch order: those with old lines where they were found, then those without, all at the end. */
  lemma {:induction false} PatchOrder(lines: seq<FileLine>, hunks: seq<PatchHunk>, lineIndex: nat)
    requires lineIndex <= |lines|
    ensures var changes := ChangesOf(Plan(lines, hunks, lineIndex));
            SortByStart(changes) == WithOldLines(changes, true) + WithOldLines(changes, false)
    decreases |hunks|
  {
    hide StepFor, NextIndex, InsertByStart, Disjoint;
    if hunks != [] {
      var step, next := StepFor(lines, hunks[0], lineIndex), NextIndex(lines, hunks[0], lineIndex);
      var rest := Plan(lines, hunks[1..], next);
      StepInBounds(lines, hunks[0], lineIndex);
      PatchOrder(lines, hunks[1..], next);
      PlanPlaces(lines, hunks[1..], next);
      PlanIsDisjoint(lines, hunks[1..], next);
      StepMoves(lines, hunks[0], lineIndex);
      assert Plan(lines, hunks, lineIndex) == [step] + rest;
      if step.Fail? {
        FailFirst(step.found, rest);
      } else {
        var later := ChangesOf(rest);
        ChangeFirst(step.r, rest);
        assert ([step.r] + later)[0] == step.r && ([step.r] + later)[1..] == later;
        if step.r.size > 0 {
          InsertInFront(step.r, SortByStart(later), lineIndex, |lines|);
          assert [step.r] + (WithOldLines(later, true) + WithOldLines(later, false)) == [step.r] + WithOldLines(later, true) + WithOldLines(later, false);
        } else {
          WithOldLinesPlaces(later, |lines|);
          InsertBehind(step.r, WithOldLines(later, true), WithOldLines(later, false));
        }
      }
    }
  }

  lemma StepMoves(lines: seq<FileLine>, hunk: PatchHunk, lineIndex: nat)
    ensures var step := StepFor(lines, hunk, lineIndex);
            step.Change? && step.r.size > 0 ==> NextIndex(lines, hunk, lineIndex) == step.r.start + step.r.size
  {
  }

  /** The file after all hunks: every located block replaced at once. */
  ghost function Spliced(lines: seq<FileLine>, hunks: seq<PatchHunk>): seq<FileLine> {
    PlanIsDisjoint(lines, hunks, 0);
    Substitute(lines, SortByStart(ChangesOf(Plan(lines, hunks, 0))), 0)
  }

  ghost function Applied(data: string, hunks: seq<PatchHunk>): Outcome {
    var lines := Split(WithoutMark(data));
    var errors := ErrorsOf(Plan(lines, hunks, 0), 0);
    if errors != [] then Rejected(errors) else Patched(MarkOf(data) + Join(Spliced(lines, hunks)))
  }

  // ---------------------------------------------------------------------------
  // The imperative application
  // ---------------------------------------------------------------------------

  method OldLines(hunk: PatchHunk) returns (oldLines: seq<string>)
    ensures oldLines == OldTexts(hunk)
  {
    hide OldTexts;
    oldLines := [];
    var i := 0;
    assert hunk[0..] == hunk;
    while i < |hunk|
      invariant 0 <= i <= |hunk| && OldTexts(hunk) == oldLines + OldTexts(hunk[i..])
    {
      OldTextsFrom(hunk, i);
      if !hunk[i].kind.Insert? {
        oldLines := oldLines + [hunk[i].text];
      }
      i := i + 1;
    }
    assert hunk[i..] == [];
    NoOldTexts();
  }

  lemma OldTextsFrom(hunk: PatchHunk, i: nat)
    requires i < |hunk|
    ensures OldTexts(hunk[i..]) == (if hunk[i].kind.Insert? then [] else [hunk[i].text]) + OldTexts(hunk[i + 1..])
  {
    assert hunk[i..][1..] == hunk[i + 1..];
  }

  lemma NoOldTexts()
    ensures OldTexts([]) == []
  {
  }

  method WriteLines(mark: string, lines: seq<FileLine>) returns (output: string)
    ensures output == mark + Join(lines)
  {
    output := mark;
    var i := 0;
    while i < |lines|
      invariant 0 <= i <= |lines| && output + Join(lines[i..]) == mark + Join(lines)
    {
      assert lines[i..][1..] == lines[i + 1..];
      output := output + lines[i].text + lines[i].terminator;
      i := i + 1;
    }
    assert output + "" == output;
  }

  /** One turn of the matching loop. */
  method MatchHunk(lines: seq<FileLine>, texts: seq<string>, hunk: PatchHunk, lineIndex: nat) returns (step: Step, next: nat)
    requires texts == Texts(lines)
    ensures step == StepFor(lines, hunk, lineIndex) && next == NextIndex(lines, hunk, lineIndex)
  {
    var oldLines := OldLines(hunk);
    var start := |lines|;
    next := lineIndex;
    if |oldLines| > 0 {
      var found := SeekPatchSequence(texts, oldLines, lineIndex);
      SequenceInBounds(texts, oldLines, lineIndex);
      if !found.At? {
        return Fail(found), lineIndex;
      }
      start := found.start;
      next := start + |oldLines|;
    }
    var ending := LineEndingAt(lines, start);
    var replacing := ReplacementLines(hunk, lines[start..start + |oldLines|], ending);
    step := Change(Replacement(start, |oldLines|, replacing));
  }

  /** The matching loop: replacements and errors in patch order. */
  method MatchHunks(lines: seq<FileLine>, hunks: seq<PatchHunk>)
    returns (replacements: seq<Replacement>, matchErrors: seq<(nat, Found)>)
    ensures replacements == ChangesOf(Plan(lines, hunks, 0))
    ensures matchErrors == ErrorsOf(Plan(lines, hunks, 0), 0)
  {
    hide StepFor, NextIndex, ErrorsOf, ChangesOf, Texts;
    var texts := Texts(lines);
    replacements, matchErrors := [], [];
    var lineIndex: nat, hunkIndex: nat := 0, 0;
    assert hunks[0..] == hunks;
    while hunkIndex < |hunks|
      invariant 0 <= hunkIndex <= |hunks|
      invariant ChangesOf(Plan(lines, hunks, 0)) == replacements + ChangesOf(Plan(lines, hunks[hunkIndex..], lineIndex))
      invariant ErrorsOf(Plan(lines, hunks, 0), 0) ==
                matchErrors + ErrorsOf(Plan(lines, hunks[hunkIndex..], lineIndex), hunkIndex)
    {
      var hunk := hunks[hunkIndex];
      assert hunks[hunkIndex..][0] == hunk && hunks[hunkIndex..][1..] == hunks[hunkIndex + 1..];
      var step, next := MatchHunk(lines, texts, hunk, lineIndex);
      ghost var rest := Plan(lines, hunks[hunkIndex + 1..], next);
      if step.Fail? {
        FailFirst(step.found, rest);
        matchErrors := matchErrors + [(hunkIndex, step.found)];
      } else {
        ChangeFirst(step.r, rest);
        replacements := replacements + [step.r];
      }
      lineIndex := next;
      hunkIndex := hunkIndex + 1;
    }
    assert hunks[hunkIndex..] == [];
    NoSteps();
  }

  lemma NoSteps()
    ensures ChangesOf([]) == [] && forall first: nat :: ErrorsOf([], first) == []
  {
  }

  method ApplyHunks(data: string, hunks: seq<PatchHunk>) returns (outcome: Outcome)
    ensures outcome == Applied(data, hunks)
  {
    var mark, body := "", data;
    if |data| > 0 && data[0] == BYTE_ORDER_MARK {
      mark, body := [BYTE_ORDER_MARK], data[1..];
    }
    var lines := SplitFileLines(body);
    var replacements, matchErrors := MatchHunks(lines, hunks);
    if |matchErrors| > 0 {
      return Rejected(matchErrors);
    }
    PlanIsDisjoint(lines, hunks, 0);
    var result := SpliceReversed(lines, SortByStart(replacements));
    var output := WriteLines(mark, result);
    outcome := Patched(output);
  }
}
