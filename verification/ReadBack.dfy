/**
 * Reading the patched file back. The spliced list of lines is always right, but it is written as text:
 * a line without a terminator runs into the line after it. This module says exactly when that happens.
 */
module ReadBack {
  import opened EditScript
  import opened FileLines
  import opened Hunks
  import opened Patch
  import opened Apply
  import opened RoundTrip

  // ---------------------------------------------------------------------------
  // Which terminators the patched file can have
  // ---------------------------------------------------------------------------

  ghost predicate TerminatorsIn(ls: seq<FileLine>, ts: set<string>) {
    forall i | 0 <= i < |ls| :: ls[i].terminator in ts
  }

  const ALL_TERMINATORS: set<string> := {"", "\n", "\r", "\r\n"}
  const TERMINATED: set<string> := {"\n", "\r", "\r\n"}
  const NO_LONE_RETURN: set<string> := {"", "\n", "\r\n"}

  lemma {:induction false} LastTerminatorIn(ls: seq<FileLine>, ts: set<string>)
    requires TerminatorsIn(ls, ts)
    ensures LastTerminator(ls) == "" || LastTerminator(ls) in ts
  {
    if ls != [] {
      LastTerminatorIn(ls[..|ls| - 1], ts);
    }
  }

  lemma {:induction false} FirstTerminatorIn(ls: seq<FileLine>, ts: set<string>)
    requires TerminatorsIn(ls, ts)
    ensures FirstTerminator(ls) == "" || FirstTerminator(ls) in ts
  {
    if ls != [] {
      FirstTerminatorIn(ls[1..], ts);
    }
  }

  /** Inserted lines get a terminator of the file, or a newline. */
  lemma LineEndingIn(ls: seq<FileLine>, index: nat, ts: set<string>)
    requires index <= |ls| && TerminatorsIn(ls, ts) && "\n" in ts
    ensures LineEnding(ls, index) in ts
  {
    LastTerminatorIn(ls[..index], ts);
    if index < |ls| {
      FirstTerminatorIn(ls[index + 1..], ts);
    }
  }

  lemma {:induction false} ReplaceIn(ls: seq<Line>, matched: seq<FileLine>, ending: string, deleted: bool, ts: set<string>)
    requires |OldTexts(ls)| == |matched| && TerminatorsIn(matched, ts) && ending in ts
    ensures TerminatorsIn(Replace(ls, matched, ending, deleted), ts)
    decreases |ls|
  {
    if ls != [] {
      match ls[0].kind {
        case Keep => ReplaceIn(ls[1..], matched[1..], ending, deleted, ts);
        case Delete =>
          ReplaceIn(ls[1..], matched[1..], if !deleted && matched[0].terminator != "" then matched[0].terminator else ending, true, ts);
        case Insert => ReplaceIn(ls[1..], matched, ending, deleted, ts);
      }
    }
  }

  lemma ReplacingIn(ls: seq<Line>, matched: seq<FileLine>, ending: string, ts: set<string>)
    requires |OldTexts(ls)| == |matched| && TerminatorsIn(matched, ts) && ending in ts
    ensures TerminatorsIn(Replacing(ls, matched, ending), ts)
  {
    ReplaceIn(ls, matched, ending, false, ts);
  }

  lemma ExpectedIn(lines: seq<FileLine>, b: seq<string>, es: seq<Edit>, ranges: seq<Range>, hunks: seq<Hunk>, h: nat, ts: set<string>)
    requires Diff(lines, b, es, ranges, hunks) && h < |ranges| && "\n" in ts
    requires var e := Expected(lines, b, es, ranges, hunks, h);
             e.start + e.size <= |lines| && TerminatorsIn(lines[e.start..e.start + e.size], ts) && LineEnding(lines, e.start) in ts
    ensures TerminatorsIn(Expected(lines, b, es, ranges, hunks, h).lines, ts)
  {
    hide Diff, OldPos, EndOf, OldTexts, Replacing, LineEnding, Texts;
    BlockFacts(lines, b, es, ranges, hunks, h);
    var e := Expected(lines, b, es, ranges, hunks, h);
    ReplacingIn(hunks[h].lines, lines[e.start..e.start + e.size], LineEnding(lines, e.start), ts);
  }

  lemma {:induction false} SubstituteIn(lines: seq<FileLine>, b: seq<string>, es: seq<Edit>, ranges: seq<Range>, hunks: seq<Hunk>, h: nat, ts: set<string>)
    requires Diff(lines, b, es, ranges, hunks) && h <= |ranges| && TerminatorsIn(lines, ts) && "\n" in ts
    ensures SpellsFrom(lines, b, es, ranges, hunks, h)
    ensures TerminatorsIn(Substitute(lines, ExpectedFrom(lines, b, es, ranges, hunks, h), OldPos(es, EndOf(ranges, h))), ts)
    decreases |ranges| - h
  {
    hide Diff, OldPos, NewPos, EndOf, Expected, SpellsFrom, LineEnding, Texts;
    SplicedSpells(lines, b, es, ranges, hunks, h);
    SpellsBounds(lines, b, es, ranges, hunks, h);
    if h < |ranges| {
      var e, rest := Expected(lines, b, es, ranges, hunks, h), ExpectedFrom(lines, b, es, ranges, hunks, h + 1);
      BlockFacts(lines, b, es, ranges, hunks, h);
      ExpectedSpells(lines, b, es, ranges, hunks, h);
      LineEndingIn(lines, e.start, ts);
      ExpectedIn(lines, b, es, ranges, hunks, h, ts);
      SubstituteIn(lines, b, es, ranges, hunks, h + 1, ts);
      var from := OldPos(es, EndOf(ranges, h));
      assert ExpectedFrom(lines, b, es, ranges, hunks, h) == [e] + rest;
      hide ExpectedFrom, Disjoint;
      SubstituteFirst(lines, [e] + rest, from);
      assert ([e] + rest)[1..] == rest;
    }
  }

  lemma SpellsBounds(lines: seq<FileLine>, b: seq<string>, es: seq<Edit>, ranges: seq<Range>, hunks: seq<Hunk>, h: nat)
    requires Diff(lines, b, es, ranges, hunks) && h <= |ranges| && SpellsFrom(lines, b, es, ranges, hunks, h)
    ensures EndOf(ranges, h) <= |es| && OldPos(es, EndOf(ranges, h)) <= |lines|
    ensures Disjoint(ExpectedFrom(lines, b, es, ranges, hunks, h), OldPos(es, EndOf(ranges, h)), |lines|)
  {
  }

  lemma ResultIn(lines: seq<FileLine>, b: seq<string>, es: seq<Edit>, ranges: seq<Range>, hunks: seq<Hunk>, ts: set<string>)
    requires Diff(lines, b, es, ranges, hunks) && TerminatorsIn(lines, ts) && "\n" in ts
    ensures TerminatorsIn(Result(lines, b, es, ranges, hunks), ts)
  {
    SubstituteIn(lines, b, es, ranges, hunks, 0, ts);
    assert es[..0] == [];
  }

  // ---------------------------------------------------------------------------
  // When the patched file is canonical
  // ---------------------------------------------------------------------------

  /** Only the last line can lack a terminator, and then it has text. */
  ghost predicate EndsWell(ls: seq<FileLine>) {
    && (forall i | 0 <= i < |ls| - 1 :: ls[i].terminator != "")
    && (ls != [] ==> ls[|ls| - 1].terminator != "" || ls[|ls| - 1].text != "")
  }

  lemma {:induction false} CanonicalEndsWell(ls: seq<FileLine>)
    ensures Canonical(ls) ==> EndsWell(ls)
    ensures TerminatorsIn(ls, NO_LONE_RETURN) && EndsWell(ls) ==> Canonical(ls)
  {
    if |ls| > 1 {
      var rest := ls[1..];
      CanonicalEndsWell(rest);
      assert forall i | 0 <= i < |rest| :: rest[i] == ls[i + 1];
      assert Canonical(ls) && EndsWell(rest) ==> forall i | 0 < i < |ls| - 1 :: ls[i] == rest[i - 1];
      assert EndsWell(ls) ==> forall i | 0 <= i < |rest| - 1 :: rest[i] == ls[i + 1];
    }
  }

  /** The last old line is kept, and new lines follow it. */
  ghost predicate InsertsAfterKeptEnd(es: seq<Edit>) {
    exists p :: 0 <= p < |es| - 1 && es[p].kind.Keep? && forall k | p < k < |es| :: es[k].kind.Insert?
  }

  /** The same for the lines of a hunk. */
  ghost predicate LinesAfterKeptEnd(ls: seq<Line>) {
    if ls == [] then false
    else if OldTexts(ls[1..]) == [] then ls[0].kind.Keep? && ls[1..] != []
    else LinesAfterKeptEnd(ls[1..])
  }

  lemma {:induction false} OnlyInserts(ls: seq<Line>)
    ensures OldTexts(ls) == [] <==> forall i | 0 <= i < |ls| :: ls[i].kind.Insert?
  {
    if ls != [] {
      OnlyInserts(ls[1..]);
      assert forall i | 0 < i < |ls| :: ls[i] == ls[1..][i - 1];
    }
  }

  lemma {:induction false} KeptEndOfPart(es: seq<Edit>, ls: seq<Line>, start: nat)
    requires start + |ls| == |es| && OldTexts(ls) != []
    requires forall i | 0 <= i < |ls| :: ls[i] == ToLine(es[start + i])
    ensures LinesAfterKeptEnd(ls) <==> InsertsAfterKeptEnd(es)
    decreases |ls|
  {
    var rest := ls[1..];
    assert forall i | 0 <= i < |rest| :: rest[i] == ls[i + 1] == ToLine(es[start + 1 + i]);
    OnlyInserts(rest);
    if OldTexts(rest) == [] {
      assert forall k | start < k < |es| :: es[k].kind == rest[k - start - 1].kind;
      assert es[start].kind == ls[0].kind && !ls[0].kind.Insert?;
      if InsertsAfterKeptEnd(es) {
        var p :| 0 <= p < |es| - 1 && es[p].kind.Keep? && forall k | p < k < |es| :: es[k].kind.Insert?;
        assert p == start;
      }
    } else {
      KeptEndOfPart(es, rest, start + 1);
    }
  }

  /** A line before the last lacks its terminator. */
  ghost predicate EarlyGap(r: seq<FileLine>) { exists q :: 0 <= q < |r| - 1 && r[q].terminator == "" }

  lemma GapShifts(x: seq<FileLine>, r: seq<FileLine>)
    requires |x| <= 1 && TerminatorsIn(x, TERMINATED)
    ensures EarlyGap(x + r) <==> EarlyGap(r)
  {
    var all := x + r;
    assert forall q | 0 <= q < |r| :: all[q + |x|] == r[q];
    if EarlyGap(r) {
      var q :| 0 <= q < |r| - 1 && r[q].terminator == "";
      assert all[q + |x|].terminator == "";
    }
    if EarlyGap(all) {
      var q :| 0 <= q < |all| - 1 && all[q].terminator == "";
      assert r[q - |x|].terminator == "";
    }
  }

  lemma GapFirst(x: seq<FileLine>, r: seq<FileLine>)
    requires TerminatorsIn(r, TERMINATED) && |x| <= 1
    ensures EarlyGap(x + r) <==> x != [] && x[0].terminator == "" && r != []
  {
    var all := x + r;
    assert forall q | 0 <= q < |r| :: all[q + |x|] == r[q];
    if x != [] {
      assert all[0] == x[0];
    }
  }

  /** The line a step of the replacement writes itself. */
  ghost function OwnLine(l: Line, matched: seq<FileLine>, ending: string): seq<FileLine>
    requires !l.kind.Insert? ==> matched != []
  {
    match l.kind case Keep => [matched[0]] case Delete => [] case Insert => [FileLine(l.text, ending)]
  }

  ghost function NextEnding(l: Line, matched: seq<FileLine>, ending: string, deleted: bool): string
    requires !l.kind.Insert? ==> matched != []
  {
    if l.kind.Delete? && !deleted && matched[0].terminator != "" then matched[0].terminator else ending
  }

  lemma ReplaceUnfold(ls: seq<Line>, matched: seq<FileLine>, ending: string, deleted: bool)
    requires |OldTexts(ls)| == |matched| && ls != []
    ensures !ls[0].kind.Insert? ==> matched != []
    ensures var rest := if ls[0].kind.Insert? then matched else matched[1..];
            && |OldTexts(ls[1..])| == |rest|
            && Replace(ls, matched, ending, deleted) ==
               OwnLine(ls[0], matched, ending)
               + Replace(ls[1..], rest, NextEnding(ls[0], matched, ending, deleted), deleted || ls[0].kind.Delete?)
  {
  }

  /** In the last hunk, the unterminated line sits before the end exactly when lines follow its kept copy. */
  lemma {:induction false} ReplaceEnd(ls: seq<Line>, matched: seq<FileLine>, ending: string, deleted: bool)
    requires |OldTexts(ls)| == |matched| && matched != [] && ending in TERMINATED
    requires TerminatorsIn(matched[..|matched| - 1], TERMINATED) && matched[|matched| - 1].terminator == ""
    ensures LinesAfterKeptEnd(ls) <==> EarlyGap(Replace(ls, matched, ending, deleted))
    decreases |ls|
  {
    hide Replace, EarlyGap;
    ReplaceUnfold(ls, matched, ending, deleted);
    var tail, rest := ls[1..], if ls[0].kind.Insert? then matched else matched[1..];
    var own, ending', deleted' := OwnLine(ls[0], matched, ending), NextEnding(ls[0], matched, ending, deleted), deleted || ls[0].kind.Delete?;
    var r' := Replace(tail, rest, ending', deleted');
    assert |matched| > 1 ==> matched[..|matched| - 1][0] == matched[0] && matched[0].terminator in TERMINATED;
    assert ending' in TERMINATED;
    if OldTexts(tail) == [] {
      ReplaceIn(tail, rest, ending', deleted', TERMINATED);
      ReplaceLength(tail, rest, ending', deleted');
      GapFirst(own, r');
    } else {
      assert rest[..|rest| - 1] == if ls[0].kind.Insert? then matched[..|matched| - 1] else matched[..|matched| - 1][1..];
      ReplaceEnd(tail, rest, ending', deleted');
      GapShifts(own, r');
    }
  }

  lemma {:induction false} ReplaceLength(ls: seq<Line>, matched: seq<FileLine>, ending: string, deleted: bool)
    requires |OldTexts(ls)| == |matched|
    ensures |Replace(ls, matched, ending, deleted)| == |NewTexts(ls)|
    ensures OldTexts(ls) == [] ==> |Replace(ls, matched, ending, deleted)| == |ls|
    decreases |ls|
  {
    if ls != [] {
      var rest := if ls[0].kind.Insert? then matched else matched[1..];
      var ending' := if ls[0].kind.Delete? && !deleted && matched[0].terminator != "" then matched[0].terminator else ending;
      ReplaceLength(ls[1..], rest, ending', deleted || ls[0].kind.Delete?);
    }
  }

  /** What the last hunk writes when it covers an unterminated last line, after terminated lines. */
  lemma LastHunkEnds(ls: seq<Line>, matched: seq<FileLine>, ending: string, before: seq<FileLine>)
    requires |OldTexts(ls)| == |matched| && matched != [] && ending in TERMINATED
    requires TerminatorsIn(matched[..|matched| - 1], TERMINATED) && matched[|matched| - 1].terminator == ""
    requires TerminatorsIn(before, TERMINATED)
    ensures var r := Replacing(ls, matched, ending);
            EndsWell(before + r) <==> r == [] || (!LinesAfterKeptEnd(ls) && r[|r| - 1].text != "")
  {
    var raw, r := Replace(ls, matched, ending, false), Replacing(ls, matched, ending);
    ReplaceEnd(ls, matched, ending, false);
    hide Replace, LinesAfterKeptEnd, OldTexts;
    assert LinesAfterKeptEnd(ls) <==> exists q :: 0 <= q < |raw| - 1 && raw[q].terminator == "";
    var all := before + r;
    assert |r| == |raw| && forall q | 0 <= q < |raw| - 1 :: r[q] == raw[q];
    assert forall i | 0 <= i < |all| :: all[i] == if i < |before| then before[i] else r[i - |before|];
    if r != [] {
      assert r[|r| - 1].terminator == "";
      if LinesAfterKeptEnd(ls) {
        var q :| 0 <= q < |raw| - 1 && raw[q].terminator == "";
        assert all[|before| + q].terminator == "";
      } else {
        forall i | 0 <= i < |all| - 1
          ensures all[i].terminator != ""
        {
          if i >= |before| {
            assert raw[i - |before|] == r[i - |before|];
          }
        }
      }
    }
  }

  // ---------------------------------------------------------------------------
  // An unterminated file: everything but the end of the result is terminated
  // ---------------------------------------------------------------------------

  /** From hunk `h` on, the result is terminated lines followed by `tail`. */
  ghost predicate TerminatedUpTo(lines: seq<FileLine>, b: seq<string>, es: seq<Edit>, ranges: seq<Range>, hunks: seq<Hunk>, h: nat, tail: seq<FileLine>, cut: nat)
    requires Diff(lines, b, es, ranges, hunks) && h <= |ranges|
  {
    && SpellsFrom(lines, b, es, ranges, hunks, h) && OldPos(es, EndOf(ranges, h)) <= cut
    && exists x :: TerminatorsIn(x, TERMINATED) &&
                   Substitute(lines, ExpectedFrom(lines, b, es, ranges, hunks, h), OldPos(es, EndOf(ranges, h))) == x + tail
  }

  lemma PrependPiece(lines: seq<FileLine>, e: Replacement, rest: seq<Replacement>, from: nat, cut: nat, x: seq<FileLine>, tail: seq<FileLine>)
    requires e.start + e.size <= cut <= |lines| && Disjoint([e] + rest, from, |lines|)
    requires Disjoint(rest, e.start + e.size, |lines|)
    requires TerminatorsIn(lines[..cut], TERMINATED) && TerminatorsIn(e.lines, TERMINATED) && TerminatorsIn(x, TERMINATED)
    requires Substitute(lines, rest, e.start + e.size) == x + tail
    ensures exists x' :: TerminatorsIn(x', TERMINATED) && Substitute(lines, [e] + rest, from) == x' + tail
  {
    hide Substitute, Disjoint;
    SubstituteFirst(lines, [e] + rest, from);
    assert ([e] + rest)[1..] == rest;
    var copied := lines[from..e.start];
    assert forall i | 0 <= i < |copied| :: copied[i] == lines[..cut][from + i];
    TerminatedConcat(copied, e.lines, x);
    assert copied + (e.lines + (x + tail)) == (copied + e.lines + x) + tail;
  }

  lemma TerminatedConcat(x: seq<FileLine>, y: seq<FileLine>, z: seq<FileLine>)
    requires TerminatorsIn(x, TERMINATED) && TerminatorsIn(y, TERMINATED) && TerminatorsIn(z, TERMINATED)
    ensures TerminatorsIn(x + y + z, TERMINATED)
  {
  }

  lemma SliceIn(lines: seq<FileLine>, i: nat, j: nat, cut: nat, ts: set<string>)
    requires i <= j <= cut <= |lines| && TerminatorsIn(lines[..cut], ts)
    ensures TerminatorsIn(lines[i..j], ts)
  {
    assert forall k | 0 <= k < j - i :: lines[i..j][k] == lines[..cut][i + k];
  }

  lemma TerminatedExpected(lines: seq<FileLine>, b: seq<string>, es: seq<Edit>, ranges: seq<Range>, hunks: seq<Hunk>, h: nat, cut: nat)
    requires Diff(lines, b, es, ranges, hunks) && h < |ranges| && cut <= |lines|
    requires TerminatorsIn(lines[..cut], TERMINATED) && TerminatorsIn(lines, ALL_TERMINATORS)
    requires var e := Expected(lines, b, es, ranges, hunks, h); e.start + e.size <= cut
    ensures TerminatorsIn(Expected(lines, b, es, ranges, hunks, h).lines, TERMINATED)
  {
    hide Diff, Expected, LineEnding;
    var e := Expected(lines, b, es, ranges, hunks, h);
    SliceIn(lines, e.start, e.start + e.size, cut, TERMINATED);
    LineEndingIn(lines, e.start, ALL_TERMINATORS);
    ExpectedIn(lines, b, es, ranges, hunks, h, TERMINATED);
  }

  lemma OneHunkBack(lines: seq<FileLine>, b: seq<string>, es: seq<Edit>, ranges: seq<Range>, hunks: seq<Hunk>, h: nat, tail: seq<FileLine>, cut: nat)
    requires Diff(lines, b, es, ranges, hunks) && h < |ranges| && cut <= |lines|
    requires TerminatorsIn(lines[..cut], TERMINATED) && TerminatorsIn(lines, ALL_TERMINATORS)
    requires TerminatedUpTo(lines, b, es, ranges, hunks, h + 1, tail, cut)
    ensures TerminatedUpTo(lines, b, es, ranges, hunks, h, tail, cut)
  {
    hide Diff, OldPos, NewPos, EndOf, Expected, ExpectedFrom, SpellsFrom, TerminatorsIn, Texts, OldTexts, NewTexts, Substitute, Disjoint, Replacing;
    SplicedSpells(lines, b, es, ranges, hunks, h);
    ExpectedSplit(lines, b, es, ranges, hunks, h);
    SpellsBounds(lines, b, es, ranges, hunks, h + 1);
    var e, rest := Expected(lines, b, es, ranges, hunks, h), ExpectedFrom(lines, b, es, ranges, hunks, h + 1);
    var x :| TerminatorsIn(x, TERMINATED) && Substitute(lines, rest, e.start + e.size) == x + tail;
    TerminatedExpected(lines, b, es, ranges, hunks, h, cut);
    PrependPiece(lines, e, rest, OldPos(es, EndOf(ranges, h)), cut, x, tail);
  }

  /** The replacements from one hunk on. */
  lemma ExpectedSplit(lines: seq<FileLine>, b: seq<string>, es: seq<Edit>, ranges: seq<Range>, hunks: seq<Hunk>, h: nat)
    requires Diff(lines, b, es, ranges, hunks) && h < |ranges| && SpellsFrom(lines, b, es, ranges, hunks, h)
    ensures ExpectedFrom(lines, b, es, ranges, hunks, h) ==
            [Expected(lines, b, es, ranges, hunks, h)] + ExpectedFrom(lines, b, es, ranges, hunks, h + 1)
    ensures EndOf(ranges, h) <= |es| && OldPos(es, EndOf(ranges, h)) <= |lines| && EndOf(ranges, h + 1) <= |es|
    ensures Disjoint(ExpectedFrom(lines, b, es, ranges, hunks, h), OldPos(es, EndOf(ranges, h)), |lines|)
    ensures var e := Expected(lines, b, es, ranges, hunks, h);
            OldPos(es, EndOf(ranges, h)) <= e.start && e.start + e.size == OldPos(es, EndOf(ranges, h + 1))
  {
    hide Diff, OldPos, NewPos, EndOf, Expected, SpellsFrom, Texts, OldTexts, NewTexts, Substitute, Disjoint, Replacing;
    SpellsBounds(lines, b, es, ranges, hunks, h);
    BlockFacts(lines, b, es, ranges, hunks, h);
    ExpectedSpells(lines, b, es, ranges, hunks, h);
  }

  lemma {:induction false} AllHunksBack(lines: seq<FileLine>, b: seq<string>, es: seq<Edit>, ranges: seq<Range>, hunks: seq<Hunk>, h: nat, tail: seq<FileLine>, cut: nat)
    requires Diff(lines, b, es, ranges, hunks) && h <= |ranges| && cut <= |lines|
    requires TerminatorsIn(lines[..cut], TERMINATED) && TerminatorsIn(lines, ALL_TERMINATORS)
    requires TerminatedUpTo(lines, b, es, ranges, hunks, h, tail, cut)
    ensures exists x :: TerminatorsIn(x, TERMINATED) && Result(lines, b, es, ranges, hunks) == x + tail
    decreases h
  {
    hide Diff, ExpectedFrom, TerminatorsIn, SpellsFrom, Substitute;
    if h > 0 {
      hide *;
      OneHunkBack(lines, b, es, ranges, hunks, h - 1, tail, cut);
      AllHunksBack(lines, b, es, ranges, hunks, h - 1, tail, cut);
    } else {
      assert es[..0] == [];
    }
  }

  // ---------------------------------------------------------------------------
  // The two ways an unterminated file can end
  // ---------------------------------------------------------------------------

  ghost predicate UnterminatedFile(lines: seq<FileLine>) {
    && lines != [] && lines[|lines| - 1].terminator == "" && lines[|lines| - 1].text != ""
    && TerminatorsIn(lines[..|lines| - 1], TERMINATED) && TerminatorsIn(lines, ALL_TERMINATORS)
  }

  /** After the last hunk there are kept lines, up to the last one. */
  lemma LastIsKept(lines: seq<FileLine>, b: seq<string>, es: seq<Edit>, ranges: seq<Range>, hunks: seq<Hunk>)
    requires Diff(lines, b, es, ranges, hunks) && EndOf(ranges, |ranges|) < |es|
    ensures es[|es| - 1].kind.Keep?
    ensures OldPos(es, EndOf(ranges, |ranges|)) < |lines| && b != [] && b[|b| - 1] == lines[|lines| - 1].text
  {
    var from := EndOf(ranges, |ranges|);
    KeptOutside(es, ranges, hunks, |ranges|);
    assert es[|es| - 1].kind.Keep?;
    LastKeptConsumed(es, from);
    WholeSides(es, Texts(lines), b);
    RestFacts(lines, b, es, ranges, hunks);
    hide Diff, OldPos, NewPos, EndOf;
    LastOfSlices(Texts(lines), b, OldPos(es, from), NewPos(es, from));
  }

  lemma WholeSides(es: seq<Edit>, a: seq<string>, b: seq<string>)
    requires Script(es, a, b)
    ensures OldPos(es, |es|) == |a| && NewPos(es, |es|) == |b|
  {
    assert es[..|es|] == es;
  }

  lemma WholeFiles(lines: seq<FileLine>, b: seq<string>, es: seq<Edit>, ranges: seq<Range>, hunks: seq<Hunk>)
    requires Diff(lines, b, es, ranges, hunks)
    ensures OldPos(es, |es|) == |lines| && NewPos(es, |es|) == |b|
  {
    WholeSides(es, Texts(lines), b);
  }

  lemma LastOfSlices(a: seq<string>, b: seq<string>, i: nat, j: nat)
    requires i < |a| && j <= |b| && a[i..|a|] == b[j..|b|]
    ensures b != [] && b[|b| - 1] == a[|a| - 1]
  {
    assert |a[i..|a|]| == |b[j..|b|]|;
    assert a[i..|a|][|a| - 1 - i] == b[j..|b|][|b| - 1 - j];
  }

  lemma EndsWellWith(x: seq<FileLine>, l: FileLine)
    requires TerminatorsIn(x, TERMINATED) && l.text != ""
    ensures EndsWell(x + [l])
  {
  }

  lemma TerminatedSlice(lines: seq<FileLine>, i: nat)
    requires UnterminatedFile(lines) && i < |lines|
    ensures exists x :: TerminatorsIn(x, TERMINATED) && lines[i..] == x + [lines[|lines| - 1]]
  {
    var n := |lines|;
    SliceIn(lines, i, n - 1, n - 1, TERMINATED);
    assert lines[i..] == lines[i..n - 1] + [lines[n - 1]];
  }

  lemma OutsideIsTerminated(lines: seq<FileLine>, b: seq<string>, es: seq<Edit>, ranges: seq<Range>, hunks: seq<Hunk>)
    requires Diff(lines, b, es, ranges, hunks) && UnterminatedFile(lines)
    requires EndOf(ranges, |ranges|) <= |es| && OldPos(es, EndOf(ranges, |ranges|)) < |lines|
    ensures TerminatedUpTo(lines, b, es, ranges, hunks, |ranges|, [lines[|lines| - 1]], |lines| - 1)
  {
    hide Diff, SpellsFrom, OldPos, EndOf, UnterminatedFile, TerminatorsIn;
    SplicedSpells(lines, b, es, ranges, hunks, |ranges|);
    assert ExpectedFrom(lines, b, es, ranges, hunks, |ranges|) == [];
    TerminatedSlice(lines, OldPos(es, EndOf(ranges, |ranges|)));
  }

  /** The last line is outside every hunk: it stays the last line. */
  lemma LastLineOutside(lines: seq<FileLine>, b: seq<string>, es: seq<Edit>, ranges: seq<Range>, hunks: seq<Hunk>)
    requires Diff(lines, b, es, ranges, hunks) && UnterminatedFile(lines)
    requires EndOf(ranges, |ranges|) < |es|
    ensures EndsWell(Result(lines, b, es, ranges, hunks)) && !InsertsAfterKeptEnd(es)
    ensures b != [] && b[|b| - 1] != ""
  {
    hide Diff, Result, EndsWell, OldPos, TerminatedUpTo, EndOf;
    var n := |lines|;
    LastIsKept(lines, b, es, ranges, hunks);
    OutsideIsTerminated(lines, b, es, ranges, hunks);
    AllHunksBack(lines, b, es, ranges, hunks, |ranges|, [lines[n - 1]], n - 1);
    var x :| TerminatorsIn(x, TERMINATED) && Result(lines, b, es, ranges, hunks) == x + [lines[n - 1]];
    EndsWellWith(x, lines[n - 1]);
  }

  lemma LastKeptConsumed(es: seq<Edit>, from: nat)
    requires from < |es| && es[|es| - 1].kind.Keep?
    ensures OldPos(es, from) < OldPos(es, |es|)
  {
    SidesOfPrefix(es, |es| - 1);
    SidesOfConcat(es[..from], es[from..|es| - 1]);
    assert es[..from] + es[from..|es| - 1] == es[..|es| - 1];
  }

  // The last line is inside the last hunk.

  lemma {:induction false} NoNewSide(es: seq<Edit>)
    requires NewSide(es) == []
    ensures forall e | e in es :: e.kind.Delete?
  {
    if es != [] {
      NoNewSide(es[1..]);
    }
  }

  /** A hunk shows no new line only when the new file has none. */
  lemma EmptyReplacement(es: seq<Edit>, r: Range)
    requires RangeOk(es, r) && NewSide(es[r.start..r.end]) == []
    ensures NewSide(es) == []
  {
    var part := es[r.start..r.end];
    assert r.last + 1 < r.end ==> es[r.last + 1].kind.Keep?;
    assert forall k | r.start <= k < r.end :: es[k] == part[k - r.start] && es[k] in part;
    NoNewSide(part);
    assert r.start == r.first && r.last + 1 == r.end;
    assert part == es;
  }

  /** A script with no edits leaves no lines, so the last hunk exists. */
  lemma SomeHunk(lines: seq<FileLine>, b: seq<string>, es: seq<Edit>, ranges: seq<Range>)
    requires Script(es, Texts(lines), b) && lines != [] && EndOf(ranges, |ranges|) == |es|
    ensures CoversEnd(es, ranges)
  {
    assert OldSide([]) == [] && |Texts(lines)| > 0;
  }

  ghost predicate IsSuffix(t: seq<string>, b: seq<string>) { |t| <= |b| && t == b[|b| - |t|..] }

  ghost function LastLines(hunks: seq<Hunk>): seq<Line> { if hunks == [] then [] else hunks[|hunks| - 1].lines }

  ghost function LastRange(ranges: seq<Range>): Range { if ranges == [] then Range(0, 0, 0, 0) else ranges[|ranges| - 1] }

  /** The last hunk reaches the end of the file. */
  ghost predicate CoversEnd(es: seq<Edit>, ranges: seq<Range>) { ranges != [] && LastRange(ranges).end == |es| }

  ghost function LastExpected(lines: seq<FileLine>, b: seq<string>, es: seq<Edit>, ranges: seq<Range>, hunks: seq<Hunk>): Replacement
    requires Diff(lines, b, es, ranges, hunks) && ranges != []
  {
    Expected(lines, b, es, ranges, hunks, |ranges| - 1)
  }

  /** The last hunk reaches the end of the old file ... */
  lemma LastHunkPlace(lines: seq<FileLine>, b: seq<string>, es: seq<Edit>, ranges: seq<Range>, hunks: seq<Hunk>)
    requires Diff(lines, b, es, ranges, hunks) && lines != [] && CoversEnd(es, ranges)
    ensures var e := LastExpected(lines, b, es, ranges, hunks);
            e.start < |lines| && e.start + e.size == |lines| && e.size == |OldTexts(LastLines(hunks))|
            && e.lines == Replacing(LastLines(hunks), lines[e.start..], LineEnding(lines, e.start))
  {
    hide Diff, OldPos, NewPos, EndOf, OldTexts, NewTexts, Replacing, LineEnding, Texts;
    WholeFiles(lines, b, es, ranges, hunks);
    BlockBounds(lines, b, es, ranges, hunks, |ranges| - 1);
    var start := OldPos(es, LastRange(ranges).start);
    assert lines[start..|lines|] == lines[start..];
  }

  /** ... and of the new file. */
  lemma LastHunkTexts(lines: seq<FileLine>, b: seq<string>, es: seq<Edit>, ranges: seq<Range>, hunks: seq<Hunk>)
    requires Diff(lines, b, es, ranges, hunks) && CoversEnd(es, ranges)
    ensures IsSuffix(NewTexts(LastLines(hunks)), b)
  {
    hide Diff, OldPos, NewPos, OldTexts, NewTexts, IsSuffix, EndOf, Texts;
    WholeFiles(lines, b, es, ranges, hunks);
    BlockNew(lines, b, es, ranges, hunks, |ranges| - 1);
    SliceIsSuffix(b, NewPos(es, LastRange(ranges).start));
  }

  lemma SliceIsSuffix(b: seq<string>, j: nat)
    requires j <= |b|
    ensures IsSuffix(b[j..|b|], b)
  {
  }

  lemma HunkTexts(lines: seq<FileLine>, b: seq<string>, es: seq<Edit>, ranges: seq<Range>, hunks: seq<Hunk>)
    requires Diff(lines, b, es, ranges, hunks) && ranges != []
    ensures Texts(LastExpected(lines, b, es, ranges, hunks).lines) == NewTexts(LastLines(hunks))
  {
    hide Diff, OldPos, NewPos, OldTexts, NewTexts, EndOf, Texts, Expected;
    BlockNew(lines, b, es, ranges, hunks, |ranges| - 1);
    ExpectedSpells(lines, b, es, ranges, hunks, |ranges| - 1);
  }

  lemma LastHunkLines(lines: seq<FileLine>, b: seq<string>, es: seq<Edit>, ranges: seq<Range>, hunks: seq<Hunk>)
    requires Diff(lines, b, es, ranges, hunks) && lines != [] && CoversEnd(es, ranges)
    ensures LinesAfterKeptEnd(LastLines(hunks)) <==> InsertsAfterKeptEnd(es)
    ensures NewTexts(LastLines(hunks)) == [] ==> b == []
  {
    hide Diff, Script, Grouped, LastExpected, LinesAfterKeptEnd, InsertsAfterKeptEnd, RangeOk, HunkOf, OldSide, NewSide, OldTexts, NewTexts, Texts,
      Replacing, LineEnding;
    LastHunkPlace(lines, b, es, ranges, hunks);
    DiffParts(lines, b, es, ranges, hunks);
    RangeOfHunk(es, ranges, hunks, |ranges| - 1);
    LastPart(es, LastRange(ranges), LastLines(hunks));
  }

  lemma DiffParts(lines: seq<FileLine>, b: seq<string>, es: seq<Edit>, ranges: seq<Range>, hunks: seq<Hunk>)
    requires Diff(lines, b, es, ranges, hunks)
    ensures OldSide(es) == Texts(lines) && NewSide(es) == b && Grouped(es, ranges, hunks)
  {
  }

  lemma LastPart(es: seq<Edit>, r: Range, ls: seq<Line>)
    requires RangeOk(es, r) && r.end == |es| && ls == HunkOf(es, r).lines && OldTexts(ls) != []
    ensures LinesAfterKeptEnd(ls) <==> InsertsAfterKeptEnd(es)
    ensures NewTexts(ls) == [] ==> NewSide(es) == []
  {
    LinesSpell(es[r.start..r.end], ls);
    KeptEndOfPart(es, ls, r.start);
    if NewTexts(ls) == [] {
      EmptyReplacement(es, r);
    }
  }

  lemma LastPieces(lines: seq<FileLine>, e: Replacement, from: nat)
    requires UnterminatedFile(lines) && e.start + e.size == |lines| && e.size > 0
    requires Disjoint([e], from, |lines|)
    ensures exists x :: TerminatorsIn(x, TERMINATED) && Substitute(lines, [e], from) == x + e.lines
  {
    assert [e][1..] == [];
    SubstituteFirst(lines, [e], from);
    assert Substitute(lines, [], |lines|) == lines[|lines|..] == [];
    hide *;
    TerminatedStart(lines, from, e.start);
    assert lines[from..e.start] + (e.lines + []) == lines[from..e.start] + e.lines;
  }

  lemma TerminatedStart(lines: seq<FileLine>, i: nat, j: nat)
    requires UnterminatedFile(lines) && i <= j < |lines|
    ensures TerminatorsIn(lines[i..j], TERMINATED)
  {
    SliceIn(lines, i, j, |lines| - 1, TERMINATED);
  }

  lemma LastHunkIsTerminated(lines: seq<FileLine>, b: seq<string>, es: seq<Edit>, ranges: seq<Range>, hunks: seq<Hunk>)
    requires Diff(lines, b, es, ranges, hunks) && UnterminatedFile(lines) && CoversEnd(es, ranges)
    ensures var e := LastExpected(lines, b, es, ranges, hunks);
            TerminatedUpTo(lines, b, es, ranges, hunks, |ranges| - 1, e.lines, e.start)
  {
    var m := |ranges| - 1;
    NotEmpty(lines);
    LastHunkPlace(lines, b, es, ranges, hunks);
    SplicedSpells(lines, b, es, ranges, hunks, m);
    SpellsBounds(lines, b, es, ranges, hunks, m);
    var e := LastExpected(lines, b, es, ranges, hunks);
    assert ExpectedFrom(lines, b, es, ranges, hunks, m) == [e];
    hide Diff, ExpectedFrom, Expected, OldPos, NewPos, EndOf, SpellsFrom, UnterminatedFile, TerminatorsIn, Substitute, Texts, OldTexts, Replacing;
    assert Disjoint([e], OldPos(es, EndOf(ranges, m)), |lines|);
    assert OldPos(es, EndOf(ranges, m)) <= e.start;
    LastPieces(lines, e, OldPos(es, EndOf(ranges, m)));
  }

  lemma SomeRange(es: seq<Edit>, ranges: seq<Range>)
    requires CoversEnd(es, ranges)
    ensures ranges != []
  {
  }

  lemma NotEmpty(lines: seq<FileLine>)
    requires UnterminatedFile(lines)
    ensures lines != []
  {
  }

  lemma LastHunkEndsWell(lines: seq<FileLine>, b: seq<string>, es: seq<Edit>, ranges: seq<Range>, hunks: seq<Hunk>)
    requires Diff(lines, b, es, ranges, hunks) && UnterminatedFile(lines) && CoversEnd(es, ranges)
    ensures var r := LastExpected(lines, b, es, ranges, hunks).lines;
            EndsWell(Result(lines, b, es, ranges, hunks)) <==>
            r == [] || (!LinesAfterKeptEnd(LastLines(hunks)) && r[|r| - 1].text != "")
  {
    hide *;
    SomeRange(es, ranges);
    NotEmpty(lines);
    LastHunkPlace(lines, b, es, ranges, hunks);
    LastHunkIsTerminated(lines, b, es, ranges, hunks);
    var e := LastExpected(lines, b, es, ranges, hunks);
    StartOfUnterminated(lines, e.start);
    AllHunksBack(lines, b, es, ranges, hunks, |ranges| - 1, e.lines, e.start);
    var x :| TerminatorsIn(x, TERMINATED) && Result(lines, b, es, ranges, hunks) == x + e.lines;
    LastHunkEnds(LastLines(hunks), lines[e.start..], LineEnding(lines, e.start), x);
  }

  /** The last line is inside the last hunk: the result ends well unless lines follow its kept copy or it loses its text. */
  lemma LastLineInside(lines: seq<FileLine>, b: seq<string>, es: seq<Edit>, ranges: seq<Range>, hunks: seq<Hunk>)
    requires Diff(lines, b, es, ranges, hunks) && UnterminatedFile(lines) && CoversEnd(es, ranges)
    ensures EndsWell(Result(lines, b, es, ranges, hunks)) <==> b == [] || (!InsertsAfterKeptEnd(es) && b[|b| - 1] != "")
  {
    hide *;
    SomeRange(es, ranges);
    NotEmpty(lines);
    LastHunkLines(lines, b, es, ranges, hunks);
    LastHunkTexts(lines, b, es, ranges, hunks);
    HunkTexts(lines, b, es, ranges, hunks);
    LastHunkEndsWell(lines, b, es, ranges, hunks);
    LastTextOf(LastExpected(lines, b, es, ranges, hunks).lines, b);
  }

  lemma LastTextOf(ls: seq<FileLine>, b: seq<string>)
    requires IsSuffix(Texts(ls), b)
    ensures ls != [] ==> b != [] && ls[|ls| - 1].text == b[|b| - 1]
    ensures ls == [] <==> Texts(ls) == []
  {
    if ls != [] {
      assert Texts(ls)[|ls| - 1] == b[|b| - |ls|..][|ls| - 1];
    }
  }

  lemma StartOfUnterminated(lines: seq<FileLine>, start: nat)
    requires UnterminatedFile(lines) && start < |lines|
    ensures TerminatorsIn(lines[..start], TERMINATED) && TerminatorsIn(lines, ALL_TERMINATORS)
    ensures LineEnding(lines, start) in TERMINATED
    ensures var matched := lines[start..];
            TerminatorsIn(matched[..|matched| - 1], TERMINATED) && matched[|matched| - 1].terminator == ""
  {
    SliceIn(lines, 0, start, |lines| - 1, TERMINATED);
    assert lines[0..start] == lines[..start];
    SliceIn(lines, start, |lines| - 1, |lines| - 1, TERMINATED);
    assert lines[start..][..|lines[start..]| - 1] == lines[start..|lines| - 1];
    LineEndingIn(lines, start, ALL_TERMINATORS);
  }

  // ---------------------------------------------------------------------------
  // The round trip on file data
  // ---------------------------------------------------------------------------

  /**
   * When a diff can be applied without running lines together, in terms of the file and the script:
   * the file ends with a terminator, or the new file is empty, or its last line has text
   * and nothing is inserted after a kept last line.
   */
  ghost predicate KeepsLines(lines: seq<FileLine>, es: seq<Edit>, b: seq<string>) {
    || lines == [] || lines[|lines| - 1].terminator != ""
    || b == [] || (!InsertsAfterKeptEnd(es) && b[|b| - 1] != "")
  }

  lemma TerminatedEndsWell(ls: seq<FileLine>)
    requires TerminatorsIn(ls, TERMINATED)
    ensures EndsWell(ls)
  {
  }

  /** The lines of a file: either all terminated, or all but a last line with text. */
  lemma FileShape(data: string)
    ensures var lines := Split(data);
            && TerminatorsIn(lines, ALL_TERMINATORS)
            && (TerminatorsIn(lines, TERMINATED) || UnterminatedFile(lines))
            && (UnterminatedFile(lines) <==> !(lines == [] || lines[|lines| - 1].terminator != ""))
  {
    SplitJoins(data);
    hide Split, Join;
    var lines := Split(data);
    CanonicalEndsWell(lines);
    assert forall i | 0 <= i < |lines| :: WellFormedLine(lines[i]) && lines[i].terminator in ALL_TERMINATORS;
    if lines != [] {
      var start := lines[..|lines| - 1];
      assert forall i | 0 <= i < |start| :: start[i] == lines[i];
    }
  }

  lemma ResultEndsWell(data: string, b: seq<string>, es: seq<Edit>, ranges: seq<Range>, hunks: seq<Hunk>)
    requires Diff(Split(data), b, es, ranges, hunks)
    ensures EndsWell(Result(Split(data), b, es, ranges, hunks)) <==> KeepsLines(Split(data), es, b)
  {
    hide Diff, Result, EndsWell, InsertsAfterKeptEnd, UnterminatedFile, TerminatorsIn, Split, CoversEnd, EndOf;
    var lines := Split(data);
    FileShape(data);
    if UnterminatedFile(lines) {
      LastRangeEnds(lines, b, es, ranges, hunks);
      if CoversEnd(es, ranges) {
        LastLineInside(lines, b, es, ranges, hunks);
      } else {
        LastLineOutside(lines, b, es, ranges, hunks);
      }
    } else {
      ResultIn(lines, b, es, ranges, hunks, TERMINATED);
      TerminatedEndsWell(Result(lines, b, es, ranges, hunks));
    }
  }

  lemma LastRangeEnds(lines: seq<FileLine>, b: seq<string>, es: seq<Edit>, ranges: seq<Range>, hunks: seq<Hunk>)
    requires Diff(lines, b, es, ranges, hunks) && UnterminatedFile(lines)
    ensures CoversEnd(es, ranges) || EndOf(ranges, |ranges|) < |es|
  {
    KeptOutside(es, ranges, hunks, |ranges|);
    if EndOf(ranges, |ranges|) == |es| {
      SomeHunk(lines, b, es, ranges);
    }
  }

  lemma ResultIsWellFormed(data: string, newData: string, es: seq<Edit>, ranges: seq<Range>, hunks: seq<Hunk>)
    requires Diff(Split(data), SplitDiffLines(newData), es, ranges, hunks)
    requires Texts(Result(Split(data), SplitDiffLines(newData), es, ranges, hunks)) == SplitDiffLines(newData)
    ensures WellFormed(Result(Split(data), SplitDiffLines(newData), es, ranges, hunks))
  {
    hide Diff, Result, Split, SplitDiffLines, Join, UnterminatedFile;
    var result := Result(Split(data), SplitDiffLines(newData), es, ranges, hunks);
    FileShape(data);
    ResultIn(Split(data), SplitDiffLines(newData), es, ranges, hunks, ALL_TERMINATORS);
    SplitJoins(newData);
    DiffSeesFileTexts(newData);
    forall i | 0 <= i < |result|
      ensures WellFormedLine(result[i])
    {
      assert result[i].text == Texts(result)[i] == Split(newData)[i].text;
      assert WellFormedLine(Split(newData)[i]);
    }
  }

  /** The diff of two files, as the change service computes it. */
  ghost predicate FileDiff(data: string, newData: string, es: seq<Edit>, ranges: seq<Range>, hunks: seq<Hunk>) {
    Script(es, SplitDiffLines(data), SplitDiffLines(newData)) && Grouped(es, ranges, hunks)
  }

  lemma FileDiffIsDiff(data: string, newData: string, es: seq<Edit>, ranges: seq<Range>, hunks: seq<Hunk>)
    requires FileDiff(data, newData, es, ranges, hunks)
    ensures Diff(Split(data), SplitDiffLines(newData), es, ranges, hunks)
  {
    hide Script, Grouped, Split, SplitDiffLines;
    DiffSeesFileTexts(data);
  }

  /** The patched list of lines of a diff applied to its own file. */
  ghost function PatchedLines(data: string, newData: string, es: seq<Edit>, ranges: seq<Range>, hunks: seq<Hunk>): seq<FileLine>
    requires FileDiff(data, newData, es, ranges, hunks)
  {
    FileDiffIsDiff(data, newData, es, ranges, hunks);
    Result(Split(data), SplitDiffLines(newData), es, ranges, hunks)
  }

  lemma JoinAfterMark(data: string, s: string)
    requires MarkOf(data) == ""
    ensures WithoutMark(data) == data && MarkOf(data) + s == s
  {
  }

  /**
   * Any diff applied to its own file (without a byte order mark) is rejected for ambiguity only, never because
   * a block is missing; otherwise the patched lines are exactly the new file's.
   */
  lemma DataRoundTrip(data: string, newData: string, es: seq<Edit>, ranges: seq<Range>, hunks: seq<Hunk>)
    requires MarkOf(data) == "" && FileDiff(data, newData, es, ranges, hunks)
    ensures var outcome := Applied(data, PatchHunks(hunks));
            match outcome
            case Rejected(errors) => errors != [] && OnlyAmbiguous(errors)
            case Patched(out) => var result := PatchedLines(data, newData, es, ranges, hunks);
                                 out == Join(result) && Texts(result) == SplitDiffLines(newData) && WellFormed(result)
  {
    hide FileDiff, Diff, Result, Split, SplitDiffLines, OnlyAmbiguous, Plan, ErrorsOf, Spliced, WellFormed, Join, Texts, MarkOf;
    FileDiffIsDiff(data, newData, es, ranges, hunks);
    var lines, b := Split(data), SplitDiffLines(newData);
    RoundTripLines(lines, b, es, ranges, hunks);
    JoinAfterMark(data, Join(Spliced(lines, PatchHunks(hunks))));
    if ErrorsOf(Plan(lines, PatchHunks(hunks), 0), 0) == [] {
      ResultIsWellFormed(data, newData, es, ranges, hunks);
    }
  }

  /** The patched file reads back as the new lines exactly when the patched list is canonical. */
  lemma ReadsBackIfCanonical(data: string, newData: string, es: seq<Edit>, ranges: seq<Range>, hunks: seq<Hunk>)
    requires MarkOf(data) == "" && FileDiff(data, newData, es, ranges, hunks)
    ensures var outcome := Applied(data, PatchHunks(hunks));
            outcome.Patched? ==>
              (SplitDiffLines(outcome.data) == SplitDiffLines(newData) <==>
               Canonical(PatchedLines(data, newData, es, ranges, hunks)))
  {
    hide *;
    DataRoundTrip(data, newData, es, ranges, hunks);
    var outcome := Applied(data, PatchHunks(hunks));
    if outcome.Patched? {
      DiffSeesFileTexts(outcome.data);
      TextsSurviveJoin(PatchedLines(data, newData, es, ranges, hunks));
    }
  }

  /** A lone carriage return runs into the newline of an empty line after it. */
  ghost predicate FusesSomewhere(ls: seq<FileLine>) { exists i :: 0 <= i < |ls| - 1 && Fuses(ls[i], ls[i + 1]) }

  lemma {:induction false} CanonicalMeans(ls: seq<FileLine>)
    ensures Canonical(ls) <==> EndsWell(ls) && !FusesSomewhere(ls)
  {
    if |ls| > 1 {
      var rest := ls[1..];
      CanonicalMeans(rest);
      assert forall i | 0 <= i < |rest| :: rest[i] == ls[i + 1];
      EndsWellTail(ls);
      if FusesSomewhere(rest) {
        var i :| 0 <= i < |rest| - 1 && Fuses(rest[i], rest[i + 1]);
        assert Fuses(ls[i + 1], ls[i + 1 + 1]);
      }
      if FusesSomewhere(ls) && !Fuses(ls[0], ls[1]) {
        var i :| 0 <= i < |ls| - 1 && Fuses(ls[i], ls[i + 1]);
        assert Fuses(rest[i - 1], rest[i - 1 + 1]);
      }
    }
  }

  lemma EndsWellTail(ls: seq<FileLine>)
    requires |ls| > 1
    ensures EndsWell(ls) <==> ls[0].terminator != "" && EndsWell(ls[1..])
  {
    var rest := ls[1..];
    assert forall i | 0 <= i < |rest| :: rest[i] == ls[i + 1];
    assert EndsWell(rest) ==> forall i | 0 < i < |ls| - 1 :: ls[i] == rest[i - 1];
    assert EndsWell(ls) ==> forall i | 0 <= i < |rest| - 1 :: rest[i] == ls[i + 1];
  }

  /** For any file: lines are kept apart at its end, and no carriage return of the patched list meets an empty line's newline. */
  lemma ReadsBackExactly(data: string, newData: string, es: seq<Edit>, ranges: seq<Range>, hunks: seq<Hunk>)
    requires MarkOf(data) == "" && FileDiff(data, newData, es, ranges, hunks)
    ensures var outcome := Applied(data, PatchHunks(hunks));
            outcome.Patched? ==>
              (SplitDiffLines(outcome.data) == SplitDiffLines(newData) <==>
               KeepsLines(Split(data), es, SplitDiffLines(newData)) && !FusesSomewhere(PatchedLines(data, newData, es, ranges, hunks)))
  {
    ReadsBackIfCanonical(data, newData, es, ranges, hunks);
    FileDiffIsDiff(data, newData, es, ranges, hunks);
    hide FileDiff, Diff, Result, Split, SplitDiffLines, Applied, Canonical, EndsWell, KeepsLines, MarkOf, FusesSomewhere;
    ResultEndsWell(data, SplitDiffLines(newData), es, ranges, hunks);
    CanonicalMeans(PatchedLines(data, newData, es, ranges, hunks));
  }

  /** Nothing fuses if the file has no lone carriage return, or the new one no empty line after its first. */
  ghost predicate NothingToFuse(lines: seq<FileLine>, b: seq<string>) {
    TerminatorsIn(lines, NO_LONE_RETURN) || forall k | 0 < k < |b| :: b[k] != ""
  }

  lemma NothingFuses(ls: seq<FileLine>)
    requires TerminatorsIn(ls, NO_LONE_RETURN) || forall k | 0 < k < |ls| :: Texts(ls)[k] != ""
    ensures !FusesSomewhere(ls)
  {
    assert forall i | 0 <= i < |ls| :: Texts(ls)[i] == ls[i].text;
  }

  /** In those cases the condition can be read off the file and the script. */
  lemma ReadsBackIfLinesKept(data: string, newData: string, es: seq<Edit>, ranges: seq<Range>, hunks: seq<Hunk>)
    requires MarkOf(data) == "" && FileDiff(data, newData, es, ranges, hunks)
    requires NothingToFuse(Split(data), SplitDiffLines(newData))
    ensures var outcome := Applied(data, PatchHunks(hunks));
            outcome.Patched? ==>
              (SplitDiffLines(outcome.data) == SplitDiffLines(newData) <==>
               KeepsLines(Split(data), es, SplitDiffLines(newData)))
  {
    ReadsBackExactly(data, newData, es, ranges, hunks);
    DataRoundTrip(data, newData, es, ranges, hunks);
    FileDiffIsDiff(data, newData, es, ranges, hunks);
    hide FileDiff, Diff, Result, Split, SplitDiffLines, Applied, KeepsLines, TerminatorsIn, MarkOf, FusesSomewhere, Texts, WellFormed, Join, OnlyAmbiguous;
    if TerminatorsIn(Split(data), NO_LONE_RETURN) {
      ResultIn(Split(data), SplitDiffLines(newData), es, ranges, hunks, NO_LONE_RETURN);
    }
    if Applied(data, PatchHunks(hunks)).Patched? {
      NothingFuses(PatchedLines(data, newData, es, ranges, hunks));
    }
  }

  // ---------------------------------------------------------------------------
  // A diff that does not read back
  // ---------------------------------------------------------------------------

  const ADDED_LINE: seq<Edit> := [Edit(Keep, "a", 1, 1), Edit(Insert, "b", 2, 2)]
  const ADDED_LINE_RANGE: Range := Range(0, 1, 1, 2)

  lemma SplitOneLine()
    ensures Split("a") == [FileLine("a", "")] && SplitDiffLines("a") == ["a"]
    ensures SplitDiffLines("a\nb") == ["a", "b"]
  {
    assert ReplaceCrLf("a") == "a" && ReplaceCr("a") == "a" && SplitAtNewlines("a") == ["a"];
    var s := "a\nb";
    assert s[1..] == "\nb" && s[1..][1..] == "b" && s[1..][1..][1..] == "";
    assert ReplaceCrLf("b") == "b" && ReplaceCrLf("\nb") == "\nb" && ReplaceCrLf(s) == s;
    assert ReplaceCr("b") == "b" && ReplaceCr("\nb") == "\nb" && ReplaceCr(s) == s;
    assert SplitAtNewlines("b") == ["b"] && SplitAtNewlines("\nb") == ["", "b"] && SplitAtNewlines(s) == ["a", "b"];
    SplitJoins("a");
    DiffSeesFileTexts("a");
    SplitIsOneLine(Split("a"), "a");
  }

  lemma SplitIsOneLine(ls: seq<FileLine>, text: string)
    requires Texts(ls) == [text] && Join(ls) == text
    ensures ls == [FileLine(text, "")]
  {
    assert |ls| == 1 && ls[0].text == Texts(ls)[0] && ls[1..] == [];
    assert Join(ls) == ls[0].text + ls[0].terminator + Join([]);
    assert |text| == |text| + |ls[0].terminator|;
  }

  lemma AddedLineIsDiff()
    ensures Script(ADDED_LINE, ["a"], ["a", "b"])
    ensures RangeOk(ADDED_LINE, ADDED_LINE_RANGE)
    ensures Grouped(ADDED_LINE, [ADDED_LINE_RANGE], [HunkOf(ADDED_LINE, ADDED_LINE_RANGE)])
    ensures InsertsAfterKeptEnd(ADDED_LINE)
  {
    hide OldSide, NewSide, HunkOf, RangeOk, Numbered;
    AddedLineScript();
    AddedLineRange();
    assert ADDED_LINE_RANGE in [ADDED_LINE_RANGE] && Covered([ADDED_LINE_RANGE], 1) by {
      assert [ADDED_LINE_RANGE][0].first <= 1;
    }
    assert ADDED_LINE[0].kind.Keep?;
  }

  lemma AddedLineScript()
    ensures Spells(ADDED_LINE, ["a"], ["a", "b"]) && Numbered(ADDED_LINE)
  {
    var es := ADDED_LINE;
    assert es[1..][1..] == [] && es[..0] == [] && es[..1] == [es[0]] && [es[0]][1..] == [];
    assert OldSide(es[1..]) == [] && NewSide(es[1..]) == ["b"];
  }

  lemma AddedLineRange()
    ensures RangeOk(ADDED_LINE, ADDED_LINE_RANGE)
  {
  }

  /** A block as long as the whole file can be found in one place only. */
  lemma {:induction false} WholeBlockIsUnique(lines: seq<string>, pattern: seq<string>, cs: seq<Comparator>)
    requires |lines| <= |pattern|
    ensures !Seek(lines, pattern, 0, cs).Ambiguous?
  {
    if cs != [] {
      assert AllSites(lines, pattern, 0, cs[0]) <= {0};
      assert |AllSites(lines, pattern, 0, cs[0])| <= |{0}| by { SubsetSize(AllSites(lines, pattern, 0, cs[0]), {0}); }
      WholeBlockIsUnique(lines, pattern, cs[1..]);
    }
  }

  lemma {:induction false} SubsetSize(s: set<int>, t: set<int>)
    requires s <= t
    ensures |s| <= |t|
  {
    assert t == s + (t - s);
  }

  lemma OneHunkOnOneLine(line: FileLine, ph: PatchHunk)
    requires OnlyAmbiguous(ErrorsOf(Plan([line], [ph], 0), 0))
    ensures ErrorsOf(Plan([line], [ph], 0), 0) == []
  {
    hide Seek, OldTexts;
    var step := StepFor([line], ph, 0);
    assert [ph][1..] == [] && Plan([line], [ph], 0) == [step] && [step][1..] == [];
    if OldTexts(ph) != [] {
      WholeBlockIsUnique(Texts([line]), OldTexts(ph), COMPARATORS);
    }
    var errors := ErrorsOf([step], 0);
    assert errors != [] ==> errors[0].1.Ambiguous?;
  }

  lemma AddedLineIsPatched(hunks: seq<Hunk>)
    requires |hunks| == 1 && FileDiff("a", "a\nb", ADDED_LINE, [ADDED_LINE_RANGE], hunks)
    requires MarkOf("a") == "" && WithoutMark("a") == "a"
    ensures Applied("a", PatchHunks(hunks)).Patched?
  {
    hide FileDiff, Plan, ErrorsOf, Spliced, Split, OnlyAmbiguous, PatchedLines, MarkOf, WithoutMark, Texts, Join, SplitDiffLines, WellFormed;
    SplitOneLine();
    DataRoundTrip("a", "a\nb", ADDED_LINE, [ADDED_LINE_RANGE], hunks);
    var phs := PatchHunks(hunks);
    assert phs == [phs[0]];
    if Applied("a", phs).Rejected? {
      OneHunkOnOneLine(FileLine("a", ""), phs[0]);
    }
  }

  /**
   * The diff that appends the line `b` to a file holding the unterminated line `a` applies without an error,
   * and the patched file does not read back as the two lines.
   */
  lemma AppendingToUnterminatedLine()
    ensures var hunks := (AddedLineIsDiff(); [HunkOf(ADDED_LINE, ADDED_LINE_RANGE)]);
            && FileDiff("a", "a\nb", ADDED_LINE, [ADDED_LINE_RANGE], hunks)
            && var outcome := Applied("a", PatchHunks(hunks));
               outcome.Patched? && SplitDiffLines(outcome.data) != SplitDiffLines("a\nb")
  {
    hide Applied, Grouped, HunkOf, RangeOk, Split, SplitDiffLines, Script, InsertsAfterKeptEnd;
    AddedLineIsDiff();
    SplitOneLine();
    var hunks := [HunkOf(ADDED_LINE, ADDED_LINE_RANGE)];
    AddedLineIsPatched(hunks);
    assert Split("a")[0].terminator == "";
    ReadsBackIfLinesKept("a", "a\nb", ADDED_LINE, [ADDED_LINE_RANGE], hunks);
  }
}
