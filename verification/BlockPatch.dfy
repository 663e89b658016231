/**
 * SEARCH/REPLACE blocks applied to a file: where each search occurs once, the file changes in exactly those places.
 */
module BlockPatch {
  import opened EditScript
  import opened FileLines
  import opened Hunks
  import opened Patch
  import opened Apply
  import PB = PatchBlocks

  type Block = PB.Block

  /** The stretch `block` of the texts begins at `i`. */
  predicate OccursAt(texts: seq<string>, block: seq<string>, i: nat) { i + |block| <= |texts| && texts[i..i + |block|] == block }

  /** Each search occurs once from where the last one ended, at the given places. */
  ghost predicate Located(texts: seq<string>, bs: seq<Block>, at: seq<nat>, from: nat) {
    |at| == |bs| && from <= |texts| &&
    (bs == [] ||
     (var search := bs[0].search;
      && search != [] && from <= at[0] && OccursAt(texts, search, at[0])
      && (forall i: nat | from <= i && OccursAt(texts, search, i) :: i == at[0])
      && Located(texts, bs[1..], at[1..], at[0] + |search|)))
  }

  /** The texts with each search, where it is located, exchanged for its replacement. */
  ghost function Exchanged(texts: seq<string>, bs: seq<Block>, at: seq<nat>, from: nat): seq<string>
    requires Located(texts, bs, at, from)
    decreases |bs|
  {
    if bs == [] then texts[from..]
    else texts[from..at[0]] + bs[0].replace + Exchanged(texts, bs[1..], at[1..], at[0] + |bs[0].search|)
  }

  ghost predicate SayAll(hunks: seq<PatchHunk>, bs: seq<Block>) { |hunks| == |bs| && forall k | 0 <= k < |bs| :: PB.Says(hunks[k], bs[k]) }

  lemma MatchIsVerbatim(texts: seq<string>, block: seq<string>, i: int)
    ensures MatchesAt(texts, block, i, Exact) <==> i >= 0 && OccursAt(texts, block, i)
  {
    if i >= 0 && i + |block| <= |texts| {
      var part := texts[i..i + |block|];
      assert forall k | 0 <= k < |block| :: part[k] == texts[i + k];
    }
  }

  lemma OnlySite(texts: seq<string>, block: seq<string>, from: nat, at: nat)
    requires block != [] && from <= at && from <= |texts| && OccursAt(texts, block, at)
    requires forall i: nat | from <= i && OccursAt(texts, block, i) :: i == at
    ensures SeekSequence(texts, block, from) == At(at)
  {
    hide MatchesAt, OccursAt;
    forall i: int
      ensures MatchesAt(texts, block, i, Exact) <==> i >= 0 && OccursAt(texts, block, i)
    {
      MatchIsVerbatim(texts, block, i);
    }
    assert at <= |texts| - |block| by { InBounds(texts, block, at); }
    assert AllSites(texts, block, from, Exact) == {at};
    SeekFirst(texts, block, from, at);
  }

  lemma InBounds(texts: seq<string>, block: seq<string>, at: nat)
    requires OccursAt(texts, block, at)
    ensures at <= |texts| - |block|
  {
  }

  lemma SeekFirst(texts: seq<string>, block: seq<string>, from: nat, at: nat)
    requires block != [] && from <= |texts| && AllSites(texts, block, from, Exact) == {at}
    ensures SeekSequence(texts, block, from) == At(at)
  {
    hide AllSites;
    assert |{at}| == 1;
  }

  /** One hunk of a located block. */
  lemma BlockStep(lines: seq<FileLine>, hunk: PatchHunk, b: Block, at: nat, from: nat)
    requires PB.Says(hunk, b) && Located(Texts(lines), [b], [at], from)
    ensures at + |b.search| <= |lines| && from <= at
    ensures var step := StepFor(lines, hunk, from);
            step.Change? && step.r.start == at && step.r.size == |b.search| && Texts(step.r.lines) == b.replace
    ensures NextIndex(lines, hunk, from) == at + |b.search|
  {
    hide Texts, Replacing, LineEnding, SeekSequence, PB.Says;
    PB.SaysSides(hunk, b);
    var texts, n := Texts(lines), |b.search|;
    assert [b][0] == b && [at][0] == at;
    OnlySite(texts, b.search, from, at);
    TextsOfSlice(lines, at, n);
    ReplacingSpells(hunk, lines[at..at + n], LineEnding(lines, at));
  }

  lemma TextsOfSlice(lines: seq<FileLine>, i: nat, n: nat)
    requires i + n <= |lines|
    ensures Texts(lines[i..i + n]) == Texts(lines)[i..i + n]
  {
  }

  lemma LocatedFirst(texts: seq<string>, bs: seq<Block>, at: seq<nat>, from: nat)
    requires bs != [] && Located(texts, bs, at, from)
    ensures |at| == |bs| && Located(texts, [bs[0]], [at[0]], from) && Located(texts, bs[1..], at[1..], at[0] + |bs[0].search|)
  {
    assert [bs[0]][1..] == [] && [at[0]][1..] == [];
  }

  ghost function Changes(lines: seq<FileLine>, hunks: seq<PatchHunk>, from: nat): seq<Replacement> {
    SortByStart(ChangesOf(Plan(lines, hunks, from)))
  }

  /** The rest of a file after one located block. */
  lemma TextsOfFirst(lines: seq<FileLine>, r: Replacement, rs: seq<Replacement>, from: nat)
    requires from <= r.start && r.start + r.size <= |lines| && Disjoint(rs, r.start + r.size, |lines|)
    ensures Disjoint([r] + rs, from, |lines|)
    ensures Texts(Substitute(lines, [r] + rs, from)) ==
            Texts(lines)[from..r.start] + Texts(r.lines) + Texts(Substitute(lines, rs, r.start + r.size))
  {
    hide *;
    var all := [r] + rs;
    assert all[0] == r && all[1..] == rs;
    InsertInFront(r, rs, from, |lines|);
    SubstituteFirst(lines, all, from);
    TextsOfSlice(lines, from, r.start - from);
    TextsOfThree(lines[from..r.start], r.lines, Substitute(lines, rs, r.start + r.size));
  }

  lemma TextsOfThree(a: seq<FileLine>, b: seq<FileLine>, c: seq<FileLine>)
    ensures Texts(a + (b + c)) == Texts(a) + Texts(b) + Texts(c)
  {
  }

  lemma TextsOfEnd(lines: seq<FileLine>, from: nat)
    requires from <= |lines|
    ensures Disjoint([], from, |lines|) && Texts(Substitute(lines, [], from)) == Texts(lines)[from..]
  {
  }

  lemma NothingExchanged(lines: seq<FileLine>, at: seq<nat>, from: nat, first: nat)
    requires Located(Texts(lines), [], at, from)
    ensures ErrorsOf(Plan(lines, [], from), first) == [] && Changes(lines, [], from) == []
    ensures Disjoint([], from, |lines|) && Texts(Substitute(lines, [], from)) == Exchanged(Texts(lines), [], at, from)
  {
    TextsOfEnd(lines, from);
  }

  lemma SayAllRest(hunks: seq<PatchHunk>, bs: seq<Block>)
    requires SayAll(hunks, bs)
    ensures |hunks| == |bs| && (hunks != [] ==> PB.Says(hunks[0], bs[0]) && SayAll(hunks[1..], bs[1..]))
  {
    hide PB.Says;
  }

  lemma PlanFirst(lines: seq<FileLine>, hunks: seq<PatchHunk>, from: nat, first: nat)
    requires hunks != [] && StepFor(lines, hunks[0], from).Change?
    ensures var next := NextIndex(lines, hunks[0], from);
            && Plan(lines, hunks, from) == [StepFor(lines, hunks[0], from)] + Plan(lines, hunks[1..], next)
            && ErrorsOf(Plan(lines, hunks, from), first) == ErrorsOf(Plan(lines, hunks[1..], next), first + 1)
  {
    hide StepFor, NextIndex;
  }

  lemma {:induction false} BlocksExchange(lines: seq<FileLine>, hunks: seq<PatchHunk>, bs: seq<Block>, at: seq<nat>, from: nat, first: nat)
    requires SayAll(hunks, bs) && Located(Texts(lines), bs, at, from)
    ensures ErrorsOf(Plan(lines, hunks, from), first) == []
    ensures Disjoint(Changes(lines, hunks, from), from, |lines|)
    ensures Texts(Substitute(lines, Changes(lines, hunks, from), from)) == Exchanged(Texts(lines), bs, at, from)
    decreases |hunks|
  {
    hide PB.Says, SayAll, StepFor, NextIndex, Plan, ErrorsOf, ChangesOf, Substitute, Disjoint, SortByStart, Texts, Located, InsertByStart;
    SayAllRest(hunks, bs);
    if hunks == [] {
      NothingExchanged(lines, at, from, first);
    } else {
      var step, next := StepFor(lines, hunks[0], from), NextIndex(lines, hunks[0], from);
      var rest := Plan(lines, hunks[1..], next);
      LocatedFirst(Texts(lines), bs, at, from);
      BlockStep(lines, hunks[0], bs[0], at[0], from);
      BlocksExchange(lines, hunks[1..], bs[1..], at[1..], next, first + 1);
      PlanFirst(lines, hunks, from, first);
      ChangeFirst(step.r, rest);
      InsertInFront(step.r, Changes(lines, hunks[1..], next), from, |lines|);
      TextsOfFirst(lines, step.r, Changes(lines, hunks[1..], next), from);
    }
  }

  /**
   * An update that carries these blocks, applied to a file in which each search occurs once after the one before: it is
   * not rejected, and the patched file has exactly those stretches exchanged for their replacements.
   */
  lemma UpdateExchanges(data: string, op: PB.Operation, bs: seq<Block>, at: seq<nat>)
    requires op.Update? && SayAll(op.hunks, bs) && Located(Texts(Split(WithoutMark(data))), bs, at, 0)
    ensures var outcome := Applied(data, op.hunks);
            outcome.Patched? &&
            exists ls: seq<FileLine> :: outcome.data == MarkOf(data) + Join(ls) &&
                                        Texts(ls) == Exchanged(Texts(Split(WithoutMark(data))), bs, at, 0)
  {
    hide Split, Texts, Join, Plan, ErrorsOf, Substitute, Located, SayAll, WithoutMark, MarkOf, ChangesOf, SortByStart;
    BlocksExchange(Split(WithoutMark(data)), op.hunks, bs, at, 0, 0);
    assert Applied(data, op.hunks) == Patched(MarkOf(data) + Join(Spliced(Split(WithoutMark(data)), op.hunks)));
  }

  /** The hunks of a merged update are those of the file's blocks. */
  lemma MergedUpdateSays(blocks: seq<Block>, m: nat)
    requires !PB.Mixes(blocks) && m < |PB.Operations(blocks)| && PB.Operations(blocks)[m].Update?
    ensures var op := PB.Operations(blocks)[m]; SayAll(op.hunks, PB.Of(blocks, op.path))
  {
    hide PB.Of, PB.PathsOf, PB.Conflict, PB.Says, PB.HunkOf;
    var path := PB.PathsOf(blocks)[m];
    var op, mine := PB.Operations(blocks)[m], PB.Of(blocks, path);
    PB.PathsHaveBlocks(blocks, path);
    assert !PB.Conflict(mine);
    PB.OperationCounts(mine, path);
    forall k | 0 <= k < |mine|
      ensures PB.Says(op.hunks[k], mine[k])
    {
      PB.OfIsForPath(blocks, path, k);
      PB.OperationCarries(mine, path, k);
    }
  }

  /** The same from the blocks of a patch that is not refused: each update exchanges what its own blocks say. */
  lemma PatchExchanges(blocks: seq<Block>, m: nat, data: string, at: seq<nat>)
    requires !PB.Mixes(blocks) && m < |PB.Operations(blocks)| && PB.Operations(blocks)[m].Update?
    requires Located(Texts(Split(WithoutMark(data))), PB.Of(blocks, PB.Operations(blocks)[m].path), at, 0)
    ensures var op := PB.Operations(blocks)[m];
            var outcome := Applied(data, op.hunks);
            outcome.Patched? &&
            exists ls: seq<FileLine> :: outcome.data == MarkOf(data) + Join(ls) &&
                                        Texts(ls) == Exchanged(Texts(Split(WithoutMark(data))), PB.Of(blocks, op.path), at, 0)
  {
    hide Split, Texts, Join, WithoutMark, MarkOf, PB.Operations, PB.Mixes, PB.Of, SayAll, Applied, Exchanged, Located;
    MergedUpdateSays(blocks, m);
    UpdateExchanges(data, PB.Operations(blocks)[m], PB.Of(blocks, PB.Operations(blocks)[m].path), at);
  }
}
