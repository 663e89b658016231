/**
 * The SEARCH/REPLACE patch format: blocks are scanned from lines, and merged into one operation per file.
 */
module PatchBlocks {
  import opened EditScript
  import opened Hunks
  import P = Patch

  const SEARCH_MARKER := "<<<<<<< SEARCH"
  const REPLACE_MARKER := ">>>>>>> REPLACE"
  const DIVIDER := "======="

  datatype Block = Block(path: string, search: seq<string>, replace: seq<string>)

  datatype Parsed = Blocks(blocks: seq<Block>) | Invalid

  predicate IsDivider(line: string) {
    var s := P.TrimSpace(line);
    |s| >= 7 && forall i | 0 <= i < |s| :: s[i] == '='
  }

  predicate IsReplaceMarker(line: string) { P.TrimSpace(line) == REPLACE_MARKER }

  predicate Skipped(line: string) { line == "" || (|line| >= 3 && line[..3] == "```") }

  /** The first line from `i` on that ends a section, or the number of lines. */
  function SectionEnd(lines: seq<string>, i: nat, ends: string -> bool): (k: nat)
    requires i <= |lines|
    ensures i <= k <= |lines| && (k < |lines| ==> ends(lines[k])) && forall j | i <= j < k :: !ends(lines[j])
    decreases |lines| - i
  {
    if i == |lines| || ends(lines[i]) then i else SectionEnd(lines, i + 1, ends)
  }

  /** What the scan finds from line `i` on, blocks belonging to the most recent path. */
  function ParseFrom(lines: seq<string>, i: nat, path: string, valid: string -> bool): Parsed
    requires i <= |lines|
    decreases |lines| - i
  {
    if i == |lines| then Blocks([])
    else
      var line := P.TrimSpace(lines[i]);
      if Skipped(line) then ParseFrom(lines, i + 1, path, valid)
      else if line != SEARCH_MARKER then (if valid(line) then ParseFrom(lines, i + 1, line, valid) else Invalid)
      else if path == "" then Invalid
      else
        var divider := SectionEnd(lines, i + 1, IsDivider);
        if divider == |lines| then Invalid
        else
          var end := SectionEnd(lines, divider + 1, IsReplaceMarker);
          if end == |lines| then Invalid
          else
            match ParseFrom(lines, end + 1, path, valid)
            case Invalid => Invalid
            case Blocks(rest) => Blocks([Block(path, lines[i + 1..divider], lines[divider + 1..end])] + rest)
  }

  /** What came before, followed by what is found from here on. */
  function Behind(found: seq<Block>, rest: Parsed): Parsed {
    match rest
    case Invalid => Invalid
    case Blocks(more) => Blocks(found + more)
  }

  method FindEnd(lines: seq<string>, start: nat, ends: string -> bool) returns (k: nat)
    requires start <= |lines|
    ensures k == SectionEnd(lines, start, ends)
  {
    k := start;
    while k < |lines| && !ends(lines[k])
      invariant start <= k <= |lines| && SectionEnd(lines, start, ends) == SectionEnd(lines, k, ends)
    {
      k := k + 1;
    }
  }

  /** One scan over all lines; a patch without blocks is invalid. */
  method ParseBlocks(lines: seq<string>, valid: string -> bool) returns (r: Parsed)
    ensures r == var all := ParseFrom(lines, 0, "", valid); if all == Blocks([]) then Invalid else all
  {
    hide P.TrimSpace, IsDivider, IsReplaceMarker, Skipped, Behind, ParseFrom, SectionEnd, SEARCH_MARKER;
    var blocks: seq<Block> := [];
    var path, i := "", 0;
    BehindNothing(ParseFrom(lines, 0, "", valid));
    while i < |lines|
      invariant 0 <= i <= |lines| && ParseFrom(lines, 0, "", valid) == Behind(blocks, ParseFrom(lines, i, path, valid))
      decreases |lines| - i
    {
      var line := P.TrimSpace(lines[i]);
      BehindNone(blocks);
      LineScanned(lines, i, path, valid);
      if Skipped(line) {
        i := i + 1;
        continue;
      }
      if line != SEARCH_MARKER {
        if !valid(line) {
          return Invalid;
        }
        path, i := line, i + 1;
        continue;
      }
      if path == "" {
        return Invalid;
      }
      SectionMissing(lines, i, path, valid);
      var divider := FindEnd(lines, i + 1, IsDivider);
      if divider == |lines| {
        return Invalid;
      }
      var end := FindEnd(lines, divider + 1, IsReplaceMarker);
      if end == |lines| {
        return Invalid;
      }
      var block := Block(path, lines[i + 1..divider], lines[divider + 1..end]);
      BehindOne(blocks, block, ParseFrom(lines, end + 1, path, valid));
      BlockFound(lines, i, path, valid, divider, end);
      blocks, i := blocks + [block], end + 1;
    }
    BehindNone(blocks);
    NothingLeft(lines, path, valid);
    if |blocks| == 0 {
      return Invalid;
    }
    return Blocks(blocks);
  }

  lemma NothingLeft(lines: seq<string>, path: string, valid: string -> bool)
    ensures ParseFrom(lines, |lines|, path, valid) == Blocks([])
  {
  }

  /** A line outside blocks. */
  lemma LineScanned(lines: seq<string>, i: nat, path: string, valid: string -> bool)
    requires i < |lines|
    ensures var line, scanned := P.TrimSpace(lines[i]), ParseFrom(lines, i, path, valid);
            && (Skipped(line) ==> scanned == ParseFrom(lines, i + 1, path, valid))
            && (!Skipped(line) && line != SEARCH_MARKER ==> scanned == if valid(line) then ParseFrom(lines, i + 1, line, valid) else Invalid)
            && (!Skipped(line) && line == SEARCH_MARKER && path == "" ==> scanned == Invalid)
  {
    hide P.TrimSpace, IsDivider, IsReplaceMarker, Skipped, SEARCH_MARKER, SectionEnd;
  }

  lemma SectionMissing(lines: seq<string>, i: nat, path: string, valid: string -> bool)
    requires i < |lines| && !Skipped(P.TrimSpace(lines[i])) && P.TrimSpace(lines[i]) == SEARCH_MARKER
    ensures var divider := SectionEnd(lines, i + 1, IsDivider);
            divider == |lines| || SectionEnd(lines, divider + 1, IsReplaceMarker) == |lines| ==> ParseFrom(lines, i, path, valid) == Invalid
  {
    hide P.TrimSpace, IsDivider, IsReplaceMarker, Skipped, SEARCH_MARKER, SectionEnd;
  }

  lemma BlockFound(lines: seq<string>, i: nat, path: string, valid: string -> bool, divider: nat, end: nat)
    requires i < |lines| && !Skipped(P.TrimSpace(lines[i])) && P.TrimSpace(lines[i]) == SEARCH_MARKER && path != ""
    requires divider == SectionEnd(lines, i + 1, IsDivider) < |lines| && end == SectionEnd(lines, divider + 1, IsReplaceMarker) < |lines|
    ensures ParseFrom(lines, i, path, valid) ==
            Behind([Block(path, lines[i + 1..divider], lines[divider + 1..end])], ParseFrom(lines, end + 1, path, valid))
  {
    hide P.TrimSpace, IsDivider, IsReplaceMarker, Skipped, SEARCH_MARKER, SectionEnd;
  }

  lemma BehindNothing(rest: Parsed)
    ensures Behind([], rest) == rest
  {
    if rest.Blocks? {
      assert [] + rest.blocks == rest.blocks;
    }
  }

  lemma BehindNone(found: seq<Block>)
    ensures Behind(found, Blocks([])) == Blocks(found) && forall f :: Behind(f, Invalid) == Invalid
  {
    assert found + [] == found;
  }

  lemma BehindOne(found: seq<Block>, block: Block, rest: Parsed)
    ensures Behind(found, Behind([block], rest)) == Behind(found + [block], rest)
  {
    if rest.Blocks? {
      assert found + ([block] + rest.blocks) == found + [block] + rest.blocks;
    }
  }

  // ---------------------------------------------------------------------------
  // Written blocks are scanned back
  // ---------------------------------------------------------------------------

  function Written(b: Block): seq<string> { [b.path, SEARCH_MARKER] + b.search + [DIVIDER] + b.replace + [REPLACE_MARKER] }

  function AllWritten(blocks: seq<Block>): seq<string> { if blocks == [] then [] else Written(blocks[0]) + AllWritten(blocks[1..]) }

  /** A block whose lines cannot be taken for markers, and whose path reads as a path. */
  predicate Writable(b: Block, valid: string -> bool) {
    && P.TrimSpace(b.path) == b.path != SEARCH_MARKER && !Skipped(b.path) && valid(b.path)
    && (forall i | 0 <= i < |b.search| :: !IsDivider(b.search[i]))
    && (forall i | 0 <= i < |b.replace| :: !IsReplaceMarker(b.replace[i]))
  }

  lemma {:induction false} SectionEndIs(lines: seq<string>, i: nat, ends: string -> bool, k: nat)
    requires i <= k < |lines| && ends(lines[k]) && forall j | i <= j < k :: !ends(lines[j])
    ensures SectionEnd(lines, i, ends) == k
    decreases k - i
  {
    if i < k {
      SectionEndIs(lines, i + 1, ends, k);
    }
  }

  lemma Markers()
    ensures P.TrimSpace(SEARCH_MARKER) == SEARCH_MARKER && !Skipped(SEARCH_MARKER)
    ensures IsDivider(DIVIDER) && IsReplaceMarker(REPLACE_MARKER)
  {
    TrimPlain(SEARCH_MARKER);
    TrimPlain(REPLACE_MARKER);
    TrimPlain(DIVIDER);
  }

  lemma TrimPlain(s: string)
    requires s != "" && !P.IsSpace(s[0]) && !P.IsSpace(s[|s| - 1])
    ensures P.TrimSpace(s) == s
  {
  }

  /** The block is written from line `n` on. */
  predicate LaidOut(lines: seq<string>, n: nat, b: Block) {
    var divider := n + 2 + |b.search|; var end := divider + 1 + |b.replace|;
    && end < |lines|
    && lines[n] == b.path && lines[n + 1] == SEARCH_MARKER && lines[divider] == DIVIDER && lines[end] == REPLACE_MARKER
    && lines[n + 2..divider] == b.search && lines[divider + 1..end] == b.replace
  }

  lemma SectionsEnd(lines: seq<string>, n: nat, b: Block, valid: string -> bool)
    requires LaidOut(lines, n, b) && Writable(b, valid)
    ensures var divider := n + 2 + |b.search|;
            && SectionEnd(lines, n + 2, IsDivider) == divider
            && SectionEnd(lines, divider + 1, IsReplaceMarker) == divider + 1 + |b.replace|
  {
    hide P.TrimSpace, IsDivider, IsReplaceMarker, Skipped, SectionEnd;
    var divider := n + 2 + |b.search|;
    var end := divider + 1 + |b.replace|;
    Markers();
    assert forall j | n + 2 <= j < divider :: lines[j] == lines[n + 2..divider][j - n - 2];
    assert forall j | divider + 1 <= j < end :: lines[j] == lines[divider + 1..end][j - divider - 1];
    SectionEndIs(lines, n + 2, IsDivider, divider);
    SectionEndIs(lines, divider + 1, IsReplaceMarker, end);
  }

  /** One written block at line `n`, whatever follows it. */
  lemma OneScannedBack(lines: seq<string>, n: nat, b: Block, path: string, valid: string -> bool)
    requires LaidOut(lines, n, b) && Writable(b, valid) && b.path != ""
    ensures n + |Written(b)| <= |lines|
    ensures ParseFrom(lines, n, path, valid) == Behind([b], ParseFrom(lines, n + |Written(b)|, b.path, valid))
  {
    hide P.TrimSpace, IsDivider, IsReplaceMarker, Skipped, ParseFrom, SectionEnd, Behind;
    var divider := n + 2 + |b.search|;
    Markers();
    SectionsEnd(lines, n, b, valid);
    BlockFound(lines, n + 1, b.path, valid, divider, divider + 1 + |b.replace|);
    PathFound(lines, n, path, valid);
  }

  lemma WrittenIsLaidOut(lines: seq<string>, n: nat, b: Block, rest: seq<string>)
    requires n <= |lines| && lines[n..] == Written(b) + rest
    ensures LaidOut(lines, n, b)
  {
    hide SEARCH_MARKER, DIVIDER, REPLACE_MARKER;
    var whole := lines[n..];
    var divider := 2 + |b.search|; var end := divider + 1 + |b.replace|;
    assert |whole| == end + 1 + |rest|;
    assert whole[0] == b.path && whole[1] == SEARCH_MARKER && whole[divider] == DIVIDER && whole[end] == REPLACE_MARKER;
    assert lines[n] == whole[0] && lines[n + 1] == whole[1] && lines[n + divider] == whole[divider] && lines[n + end] == whole[end];
    assert lines[n + 2..n + divider] == whole[2..divider] == b.search;
    assert lines[n + divider + 1..n + end] == whole[divider + 1..end] == b.replace;
  }

  lemma PathFound(lines: seq<string>, i: nat, path: string, valid: string -> bool)
    requires i < |lines|
    requires var line := P.TrimSpace(lines[i]); !Skipped(line) && line != SEARCH_MARKER && valid(line)
    ensures ParseFrom(lines, i, path, valid) == ParseFrom(lines, i + 1, P.TrimSpace(lines[i]), valid)
  {
    hide P.TrimSpace, Skipped, SEARCH_MARKER, SectionEnd;
  }

  lemma {:induction false} ScannedBack(lines: seq<string>, n: nat, blocks: seq<Block>, path: string, valid: string -> bool)
    requires n <= |lines| && lines[n..] == AllWritten(blocks)
    requires forall i | 0 <= i < |blocks| :: Writable(blocks[i], valid)
    ensures ParseFrom(lines, n, path, valid) == Blocks(blocks)
    decreases |blocks|
  {
    hide Written, Writable, SectionEnd, Skipped, P.TrimSpace, LaidOut, ParseFrom, IsDivider, IsReplaceMarker;
    if blocks == [] {
      NothingLeft(lines, path, valid);
    } else {
      var b, rest := blocks[0], AllWritten(blocks[1..]);
      NamedBlock(b, valid);
      WrittenIsLaidOut(lines, n, b, rest);
      OneScannedBack(lines, n, b, path, valid);
      assert lines[n + |Written(b)|..] == lines[n..][|Written(b)|..] == rest;
      ScannedBack(lines, n + |Written(b)|, blocks[1..], b.path, valid);
      assert [b] + blocks[1..] == blocks;
    }
  }

  lemma NamedBlock(b: Block, valid: string -> bool)
    requires Writable(b, valid)
    ensures b.path != ""
  {
  }

  /** Any list of blocks written as text is scanned back as the same list. */
  lemma BlocksScanBack(blocks: seq<Block>, valid: string -> bool)
    requires forall i | 0 <= i < |blocks| :: Writable(blocks[i], valid)
    ensures ParseFrom(AllWritten(blocks), 0, "", valid) == Blocks(blocks)
  {
    assert AllWritten(blocks)[0..] == AllWritten(blocks);
    ScannedBack(AllWritten(blocks), 0, blocks, "", valid);
  }

  // ---------------------------------------------------------------------------
  // What is found is there
  // ---------------------------------------------------------------------------

  /** The lines of a block's path, of its search marker, of its divider and of its replace marker. */
  datatype Place = Place(path: nat, search: nat, divider: nat, end: nat)

  predicate IsPath(lines: seq<string>, at: nat, path: string, valid: string -> bool) {
    at < |lines| && P.TrimSpace(lines[at]) == path && !Skipped(path) && path != SEARCH_MARKER && valid(path)
  }

  ghost predicate BlockAt(lines: seq<string>, b: Block, at: Place, valid: string -> bool) {
    && at.path < at.search < at.divider < at.end < |lines|
    && IsPath(lines, at.path, b.path, valid) && b.path != "" && P.TrimSpace(lines[at.search]) == SEARCH_MARKER
    && lines[at.search + 1..at.divider] == b.search && IsDivider(lines[at.divider])
    && (forall j | at.search < j < at.divider :: !IsDivider(lines[j]))
    && lines[at.divider + 1..at.end] == b.replace && IsReplaceMarker(lines[at.end])
    && forall j | at.divider < j < at.end :: !IsReplaceMarker(lines[j])
  }

  /** Line `j` belongs to a block, names a file, or is blank or a fence. */
  ghost predicate Accounted(lines: seq<string>, places: seq<Place>, j: nat, valid: string -> bool)
    requires j < |lines|
  {
    || Skipped(P.TrimSpace(lines[j]))
    || IsPath(lines, j, P.TrimSpace(lines[j]), valid)
    || exists k :: 0 <= k < |places| && places[k].search <= j <= places[k].end
  }

  ghost predicate InPlace(lines: seq<string>, i: nat, blocks: seq<Block>, places: seq<Place>, valid: string -> bool) {
    |places| == |blocks| && forall k | 0 <= k < |blocks| :: BlockAt(lines, blocks[k], places[k], valid) && places[k].search >= i
  }

  /** Path line `j` belongs to block `k`, unless it is inside an earlier one. */
  ghost predicate Covered(places: seq<Place>, k: nat, j: nat) {
    exists m :: 0 <= m < k && m < |places| && places[m].search <= j <= places[m].end
  }

  ghost predicate UnderNearest(lines: seq<string>, i: nat, places: seq<Place>, valid: string -> bool) {
    forall k, j | 0 <= k < |places| && places[k].path < j < places[k].search && i <= j < |lines| && IsPath(lines, j, P.TrimSpace(lines[j]), valid) ::
      Covered(places, k, j)
  }

  /** Each block is where it says, after the one before, and under the last path before it. */
  ghost predicate Laid(lines: seq<string>, i: nat, blocks: seq<Block>, places: seq<Place>, valid: string -> bool) {
    && InPlace(lines, i, blocks, places, valid)
    && (forall k | 0 < k < |blocks| :: places[k - 1].end < places[k].search)
    && (forall j | i <= j < |lines| :: Accounted(lines, places, j, valid))
    && UnderNearest(lines, i, places, valid)
  }

  lemma LaidAfterLine(lines: seq<string>, i: nat, blocks: seq<Block>, places: seq<Place>, valid: string -> bool)
    requires i < |lines| && Laid(lines, i + 1, blocks, places, valid)
    requires Skipped(P.TrimSpace(lines[i])) || IsPath(lines, i, P.TrimSpace(lines[i]), valid)
    requires IsPath(lines, i, P.TrimSpace(lines[i]), valid) ==> forall k | 0 <= k < |places| :: i <= places[k].path
    ensures Laid(lines, i, blocks, places, valid)
  {
    hide P.TrimSpace, Skipped, BlockAt, IsPath;
    forall j | i <= j < |lines|
      ensures Accounted(lines, places, j, valid)
    {
    }
  }

  lemma InOrder(lines: seq<string>, b: Block, at: Place, valid: string -> bool)
    requires BlockAt(lines, b, at, valid)
    ensures at.path < at.search < at.divider < at.end < |lines|
  {
  }

  lemma StillAccounted(lines: seq<string>, at: Place, places: seq<Place>, j: nat, valid: string -> bool)
    requires j < |lines| && at.search <= j && (j > at.end ==> Accounted(lines, places, j, valid))
    ensures Accounted(lines, [at] + places, j, valid)
  {
    hide P.TrimSpace, Skipped, IsPath;
    var all := [at] + places;
    if j <= at.end {
      assert all[0].search <= j <= all[0].end;
    } else if k :| 0 <= k < |places| && places[k].search <= j <= places[k].end {
      assert all[k + 1].search <= j <= all[k + 1].end;
    }
  }

  lemma MoreInPlace(lines: seq<string>, i: nat, b: Block, at: Place, blocks: seq<Block>, places: seq<Place>, valid: string -> bool)
    requires BlockAt(lines, b, at, valid) && at.search == i && InPlace(lines, at.end + 1, blocks, places, valid)
    ensures InPlace(lines, i, [b] + blocks, [at] + places, valid)
    ensures |places| == |blocks| && (|places| > 0 ==> at.end < places[0].search)
    ensures i < at.end < |lines|
  {
    hide BlockAt;
    InOrder(lines, b, at, valid);
  }

  lemma StillNearest(lines: seq<string>, i: nat, at: Place, places: seq<Place>, valid: string -> bool)
    requires at.path < at.search == i < at.end < |lines| && UnderNearest(lines, at.end + 1, places, valid)
    requires forall k | 0 <= k < |places| :: places[k].path == at.path || at.end < places[k].path
    ensures UnderNearest(lines, i, [at] + places, valid)
  {
    hide P.TrimSpace, IsPath;
    var all := [at] + places;
    forall k, j | 0 <= k < |all| && all[k].path < j < all[k].search && i <= j < |lines| && IsPath(lines, j, P.TrimSpace(lines[j]), valid)
      ensures Covered(all, k, j)
    {
      if j <= at.end {
        assert k > 0 && all[0].search <= j <= all[0].end;
      } else {
        assert all[k] == places[k - 1] && Covered(places, k - 1, j);
        var m :| 0 <= m < k - 1 && m < |places| && places[m].search <= j <= places[m].end;
        assert all[m + 1].search <= j <= all[m + 1].end;
      }
    }
  }

  lemma LaidAfterBlock(lines: seq<string>, i: nat, b: Block, at: Place, blocks: seq<Block>, places: seq<Place>, valid: string -> bool)
    requires BlockAt(lines, b, at, valid) && at.search == i && Laid(lines, at.end + 1, blocks, places, valid) && at.path < i
    requires forall k | 0 <= k < |places| :: at.path <= places[k].path
    requires forall k | 0 <= k < |places| :: places[k].path == at.path || at.end < places[k].path
    ensures Laid(lines, i, [b] + blocks, [at] + places, valid)
  {
    hide P.TrimSpace, Skipped, BlockAt, IsPath, Accounted, InPlace, UnderNearest;
    MoreInPlace(lines, i, b, at, blocks, places, valid);
    StillNearest(lines, i, at, places, valid);
    var all := [at] + places;
    forall k | 0 < k < |all|
      ensures all[k - 1].end < all[k].search
    {
      assert all[k] == places[k - 1] && all[k - 1] == if k == 1 then at else places[k - 2];
    }
    forall j | i <= j < |lines|
      ensures Accounted(lines, [at] + places, j, valid)
    {
      StillAccounted(lines, at, places, j, valid);
    }
  }

  /**
   * Whatever is found: each block stands between its markers under the nearest path line before it, blocks are in order,
   * and every other line names a file, is blank, or is a fence.
   */
  lemma {:induction false} FoundIsThere(lines: seq<string>, i: nat, path: string, pathAt: nat, valid: string -> bool) returns (places: seq<Place>)
    requires i <= |lines| && ParseFrom(lines, i, path, valid).Blocks? && pathAt <= i
    requires path != "" ==> pathAt < i && IsPath(lines, pathAt, path, valid)
    ensures Laid(lines, i, ParseFrom(lines, i, path, valid).blocks, places, valid)
    ensures forall k | 0 <= k < |places| :: (path != "" && places[k].path == pathAt) || i <= places[k].path
    decreases |lines| - i
  {
    hide P.TrimSpace, Skipped, IsDivider, IsReplaceMarker, BlockAt, Laid, SEARCH_MARKER, SectionEnd;
    if i == |lines| {
      places := [];
      NothingLaid(lines, valid);
    } else {
      var line := P.TrimSpace(lines[i]);
      if Skipped(line) {
        places := FoundIsThere(lines, i + 1, path, pathAt, valid);
        LaidIsLong(lines, i + 1, ParseFrom(lines, i, path, valid).blocks, places, valid);
        LaidAfterLine(lines, i, ParseFrom(lines, i, path, valid).blocks, places, valid);
      } else if line != SEARCH_MARKER {
        PathsAreNamed(lines, i, valid);
        places := FoundIsThere(lines, i + 1, line, i, valid);
        LaidAfterLine(lines, i, ParseFrom(lines, i, path, valid).blocks, places, valid);
      } else {
        SectionMissing(lines, i, path, valid);
        var divider := SectionEnd(lines, i + 1, IsDivider);
        var end := SectionEnd(lines, divider + 1, IsReplaceMarker);
        var b := Block(path, lines[i + 1..divider], lines[divider + 1..end]);
        BlockFound(lines, i, path, valid, divider, end);
        var later := FoundIsThere(lines, end + 1, path, pathAt, valid);
        var at := Place(pathAt, i, divider, end);
        SectionsAre(lines, i, divider, end);
        BlockIsAt(lines, b, at, valid);
        LaidAfterBlock(lines, i, b, at, ParseFrom(lines, end + 1, path, valid).blocks, later, valid);
        places := [at] + later;
      }
    }
  }

  lemma NothingLaid(lines: seq<string>, valid: string -> bool)
    ensures Laid(lines, |lines|, [], [], valid)
  {
  }

  lemma LaidIsLong(lines: seq<string>, i: nat, blocks: seq<Block>, places: seq<Place>, valid: string -> bool)
    requires Laid(lines, i, blocks, places, valid)
    ensures |places| == |blocks|
  {
  }

  lemma PathsAreNamed(lines: seq<string>, i: nat, valid: string -> bool)
    requires i < |lines| && !Skipped(P.TrimSpace(lines[i]))
    ensures P.TrimSpace(lines[i]) != ""
  {
  }

  lemma SectionsAre(lines: seq<string>, i: nat, divider: nat, end: nat)
    requires i < |lines| && divider == SectionEnd(lines, i + 1, IsDivider) < |lines| && end == SectionEnd(lines, divider + 1, IsReplaceMarker) < |lines|
    ensures i < divider < end && IsDivider(lines[divider]) && IsReplaceMarker(lines[end])
    ensures (forall j | i < j < divider :: !IsDivider(lines[j])) && forall j | divider < j < end :: !IsReplaceMarker(lines[j])
  {
    hide IsDivider, IsReplaceMarker;
  }

  lemma BlockIsAt(lines: seq<string>, b: Block, at: Place, valid: string -> bool)
    requires at.path < at.search < at.divider < at.end < |lines| && b.path != ""
    requires IsPath(lines, at.path, b.path, valid) && P.TrimSpace(lines[at.search]) == SEARCH_MARKER
    requires b == Block(b.path, lines[at.search + 1..at.divider], lines[at.divider + 1..at.end])
    requires IsDivider(lines[at.divider]) && IsReplaceMarker(lines[at.end])
    requires (forall j | at.search < j < at.divider :: !IsDivider(lines[j])) && forall j | at.divider < j < at.end :: !IsReplaceMarker(lines[j])
    ensures BlockAt(lines, b, at, valid)
  {
  }

  // ---------------------------------------------------------------------------
  // One operation per file
  // ---------------------------------------------------------------------------

  datatype Operation = Add(path: string, lines: seq<string>) | Update(path: string, hunks: seq<seq<Line>>)

  datatype Merge = Merged(operations: seq<Operation>) | Mixed

  function Of(blocks: seq<Block>, path: string): seq<Block> {
    if blocks == [] then [] else Of(blocks[..|blocks| - 1], path) + if blocks[|blocks| - 1].path == path then [blocks[|blocks| - 1]] else []
  }

  /** The paths in the order of their first blocks. */
  function PathsOf(blocks: seq<Block>): seq<string> {
    if blocks == [] then []
    else
      var before, last := PathsOf(blocks[..|blocks| - 1]), blocks[|blocks| - 1].path;
      if last in before then before else before + [last]
  }

  function HunkOf(b: Block): seq<Line> {
    seq(|b.search|, i requires 0 <= i < |b.search| => Line(Delete, b.search[i])) +
    seq(|b.replace|, i requires 0 <= i < |b.replace| => Line(Insert, b.replace[i]))
  }

  function HunksOf(blocks: seq<Block>): seq<seq<Line>> { seq(|blocks|, i requires 0 <= i < |blocks| => HunkOf(blocks[i])) }

  /** All blocks of one file together: a single creation, or updates in patch order. */
  function OperationOf(path: string, blocks: seq<Block>): Operation {
    if blocks != [] && blocks[0].search == [] then Add(path, blocks[0].replace) else Update(path, HunksOf(blocks))
  }

  function Operations(blocks: seq<Block>): seq<Operation> {
    var paths := PathsOf(blocks);
    seq(|paths|, i requires 0 <= i < |paths| => OperationOf(paths[i], Of(blocks, paths[i])))
  }

  /** A file that is created has another block beside that one. */
  predicate Conflict(blocks: seq<Block>) { |blocks| > 1 && exists i :: 0 <= i < |blocks| && blocks[i].search == [] }

  ghost predicate Mixes(blocks: seq<Block>) { exists path :: Conflict(Of(blocks, path)) }

  lemma {:induction false} PathsHaveBlocks(blocks: seq<Block>, path: string)
    ensures path in PathsOf(blocks) <==> Of(blocks, path) != []
    decreases |blocks|
  {
    if blocks != [] {
      PathsHaveBlocks(blocks[..|blocks| - 1], path);
    }
  }

  lemma {:induction false} PathsDiffer(blocks: seq<Block>)
    ensures forall i, j | 0 <= i < j < |PathsOf(blocks)| :: PathsOf(blocks)[i] != PathsOf(blocks)[j]
    decreases |blocks|
  {
    if blocks != [] {
      PathsDiffer(blocks[..|blocks| - 1]);
    }
  }

  lemma OfMore(blocks: seq<Block>, b: Block, path: string)
    ensures Of(blocks + [b], path) == if b.path == path then Of(blocks, path) + [b] else Of(blocks, path)
    ensures PathsOf(blocks + [b]) == if b.path in PathsOf(blocks) then PathsOf(blocks) else PathsOf(blocks) + [b.path]
  {
    assert (blocks + [b])[..|blocks|] == blocks;
  }

  lemma OperationsMore(blocks: seq<Block>, b: Block)
    requires b.path !in PathsOf(blocks)
    ensures Operations(blocks + [b]) == Operations(blocks) + [OperationOf(b.path, [b])]
  {
    hide Of, PathsOf, OperationOf;
    var paths := PathsOf(blocks);
    OfMore(blocks, b, b.path);
    PathsHaveBlocks(blocks, b.path);
    assert Of(blocks + [b], b.path) == [b];
    forall i | 0 <= i < |paths|
      ensures Of(blocks + [b], paths[i]) == Of(blocks, paths[i])
    {
      OfMore(blocks, b, paths[i]);
    }
  }

  lemma OperationsAgain(blocks: seq<Block>, b: Block, k: nat)
    requires k < |PathsOf(blocks)| && PathsOf(blocks)[k] == b.path
    ensures |Operations(blocks)| == |PathsOf(blocks)|
    ensures Operations(blocks + [b]) == Operations(blocks)[k := OperationOf(b.path, Of(blocks, b.path) + [b])]
  {
    hide Of, PathsOf, OperationOf;
    var paths := PathsOf(blocks);
    OfMore(blocks, b, b.path);
    PathsDiffer(blocks);
    forall i | 0 <= i < |paths|
      ensures Of(blocks + [b], paths[i]) == if i == k then Of(blocks, b.path) + [b] else Of(blocks, paths[i])
    {
      OfMore(blocks, b, paths[i]);
    }
  }

  /** What one more block of a file does to its operation. */
  lemma OneMoreBlock(path: string, blocks: seq<Block>, b: Block)
    requires blocks != [] && !Conflict(blocks)
    ensures Conflict(blocks + [b]) <==> b.search == [] || OperationOf(path, blocks).Add?
    ensures !Conflict(blocks + [b]) ==>
      (OperationOf(path, blocks).Update? &&
       OperationOf(path, blocks + [b]) == Update(path, OperationOf(path, blocks).hunks + [HunkOf(b)]))
  {
    hide HunkOf;
    var more := blocks + [b];
    assert forall i | 0 <= i < |blocks| :: more[i] == blocks[i];
    assert more[|blocks|] == b;
    if blocks[0].search == [] {
      assert more[0].search == [];
    }
  }

  // ---------------------------------------------------------------------------
  // What merging promises
  // ---------------------------------------------------------------------------

  /** How many of the first `j` blocks are for this file. */
  function Earlier(blocks: seq<Block>, path: string, j: nat): nat
    requires j <= |blocks|
  {
    if j == 0 then 0 else Earlier(blocks, path, j - 1) + if blocks[j - 1].path == path then 1 else 0
  }

  /** The hunk deletes the block's old lines, then inserts its new ones. */
  ghost predicate Says(hunk: seq<Line>, b: Block) {
    var n := |b.search|;
    && |hunk| == n + |b.replace|
    && (forall i | 0 <= i < n :: hunk[i].kind.Delete? && hunk[i].text == b.search[i])
    && forall i | n <= i < |hunk| :: hunk[i].kind.Insert? && hunk[i].text == b.replace[i - n]
  }

  /** The operation carries this block, as the `k`-th of its file. */
  ghost predicate Carries(op: Operation, b: Block, k: nat) {
    op.path == b.path &&
    if b.search == [] then op.Add? && op.lines == b.replace && k == 0
    else op.Update? && k < |op.hunks| && Says(op.hunks[k], b)
  }

  /** Every block is carried, in its place among those of its file, and nothing else is; files are in the order of first blocks. */
  ghost predicate Carried(blocks: seq<Block>, ops: seq<Operation>) {
    && (forall j | 0 <= j < |blocks| :: exists m :: 0 <= m < |ops| && Carries(ops[m], blocks[j], Earlier(blocks, blocks[j].path, j)))
    && (forall m | 0 <= m < |ops| :: Earlier(blocks, ops[m].path, |blocks|) == if ops[m].Add? then 1 else |ops[m].hunks|)
    && (forall m | 0 <= m < |ops| :: Earlier(blocks, ops[m].path, |blocks|) > 0)
    && (forall m, n | 0 <= m < n < |ops| :: ops[m].path != ops[n].path)
    && (forall m, n, j | 0 <= m < n < |ops| && 0 <= j < |blocks| && blocks[j].path == ops[n].path :: Earlier(blocks, ops[m].path, j) > 0)
  }

  lemma HunkSays(b: Block)
    ensures Says(HunkOf(b), b)
  {
  }

  function WithoutFirst(b: Block): Block {
    if b.search != [] then b.(search := b.search[1..]) else if b.replace != [] then b.(replace := b.replace[1..]) else b
  }

  lemma RestSays(hunk: seq<Line>, b: Block)
    requires Says(hunk, b) && hunk != []
    ensures Says(hunk[1..], WithoutFirst(b))
    ensures hunk[0] == if b.search != [] then Line(Delete, b.search[0]) else Line(Insert, b.replace[0])
  {
  }

  /** The two sides of such a hunk. */
  lemma {:induction false} SaysSides(hunk: seq<Line>, b: Block)
    requires Says(hunk, b)
    ensures OldTexts(hunk) == b.search && NewTexts(hunk) == b.replace
    decreases |hunk|
  {
    hide Says;
    SaysLength(hunk, b);
    if hunk != [] {
      RestSays(hunk, b);
      SaysSides(hunk[1..], WithoutFirst(b));
    }
  }

  lemma SaysLength(hunk: seq<Line>, b: Block)
    requires Says(hunk, b)
    ensures |hunk| == |b.search| + |b.replace|
  {
  }

  /** The blocks of one file are counted, and kept in order. */
  lemma {:induction false} OfCounts(blocks: seq<Block>, path: string, j: nat)
    requires j <= |blocks|
    ensures |Of(blocks[..j], path)| == Earlier(blocks, path, j)
    ensures Of(blocks[..j], path) <= Of(blocks, path)
    ensures j < |blocks| && blocks[j].path == path ==> |Of(blocks[..j], path)| < |Of(blocks, path)| && Of(blocks, path)[|Of(blocks[..j], path)|] == blocks[j]
    decreases |blocks| - j
  {
    OfCount(blocks, path, j);
    if j == |blocks| {
      assert blocks[..j] == blocks;
    } else {
      OfCounts(blocks, path, j + 1);
      assert blocks[..j + 1] == blocks[..j] + [blocks[j]];
      OfMore(blocks[..j], blocks[j], path);
    }
  }

  lemma {:induction false} OfCount(blocks: seq<Block>, path: string, j: nat)
    requires j <= |blocks|
    ensures |Of(blocks[..j], path)| == Earlier(blocks, path, j)
    decreases j
  {
    if j > 0 {
      OfCount(blocks, path, j - 1);
      assert blocks[..j] == blocks[..j - 1] + [blocks[j - 1]];
      OfMore(blocks[..j - 1], blocks[j - 1], path);
    }
  }

  lemma {:induction false} OfIsForPath(blocks: seq<Block>, path: string, k: nat)
    requires k < |Of(blocks, path)|
    ensures Of(blocks, path)[k].path == path
    decreases |blocks|
  {
    if blocks != [] && k < |Of(blocks[..|blocks| - 1], path)| {
      OfIsForPath(blocks[..|blocks| - 1], path, k);
    }
  }

  /** Paths are in the order of first blocks. */
  lemma {:induction false} PathsInOrder(blocks: seq<Block>, m: nat, n: nat, j: nat)
    requires m < n < |PathsOf(blocks)| && j < |blocks| && blocks[j].path == PathsOf(blocks)[n]
    ensures Of(blocks[..j], PathsOf(blocks)[m]) != []
    decreases |blocks|
  {
    var k := |blocks| - 1;
    var before, last := blocks[..k], blocks[k];
    assert before + [last] == blocks;
    OfMore(before, last, last.path);
    PathsDiffer(blocks);
    if n < |PathsOf(before)| && j < k {
      PathsInOrder(before, m, n, j);
      assert before[..j] == blocks[..j];
    } else if n < |PathsOf(before)| {
      PathsHaveBlocks(before, PathsOf(before)[m]);
      assert blocks[..j] == before;
    } else {
      PathsHaveBlocks(before, PathsOf(before)[m]);
      PathsHaveBlocks(before, last.path);
      if j < k {
        OfCounts(before, last.path, j);
      }
      assert blocks[..k] == before;
    }
  }

  lemma OperationCarries(blocks: seq<Block>, path: string, k: nat)
    requires k < |blocks| && !Conflict(blocks) && blocks[k].path == path
    ensures Carries(OperationOf(path, blocks), blocks[k], k)
  {
    hide HunkOf, Says;
    HunkSays(blocks[k]);
    assert Conflict(blocks) <==> |blocks| > 1 && exists i :: 0 <= i < |blocks| && blocks[i].search == [];
  }

  lemma OperationCounts(blocks: seq<Block>, path: string)
    requires blocks != [] && !Conflict(blocks)
    ensures var op := OperationOf(path, blocks); op.path == path && |blocks| == if op.Add? then 1 else |op.hunks|
  {
  }

  lemma OperationsCarry(blocks: seq<Block>)
    requires !Mixes(blocks)
    ensures Carried(blocks, Operations(blocks))
  {
    hide Of, PathsOf, OperationOf, Conflict, Carries, Earlier;
    var paths, ops := PathsOf(blocks), Operations(blocks);
    assert blocks[..|blocks|] == blocks;
    forall m | 0 <= m < |ops|
      ensures ops[m].path == paths[m] && Earlier(blocks, paths[m], |blocks|) > 0
      ensures Earlier(blocks, paths[m], |blocks|) == if ops[m].Add? then 1 else |ops[m].hunks|
    {
      PathsHaveBlocks(blocks, paths[m]);
      assert !Conflict(Of(blocks, paths[m]));
      OperationCounts(Of(blocks, paths[m]), paths[m]);
      OfCount(blocks, paths[m], |blocks|);
    }
    forall j | 0 <= j < |blocks|
      ensures exists m :: 0 <= m < |ops| && Carries(ops[m], blocks[j], Earlier(blocks, blocks[j].path, j))
    {
      var path := blocks[j].path;
      OfCounts(blocks, path, j);
      PathsHaveBlocks(blocks, path);
      var m :| 0 <= m < |paths| && paths[m] == path;
      assert !Conflict(Of(blocks, path));
      OperationCarries(Of(blocks, path), path, Earlier(blocks, path, j));
    }
    PathsDiffer(blocks);
    forall m, n, j | 0 <= m < n < |ops| && 0 <= j < |blocks| && blocks[j].path == ops[n].path
      ensures Earlier(blocks, ops[m].path, j) > 0
    {
      PathsInOrder(blocks, m, n, j);
      OfCount(blocks, paths[m], j);
    }
  }

  /**
   * Blocks of one file become one operation, in the order of first appearance; a file created twice, or both created and
   * updated, is refused. Every block is carried by the operation of its file, in its place.
   */
  method MergeBlocks(blocks: seq<Block>) returns (r: Merge)
    ensures r.Mixed? <==> Mixes(blocks)
    ensures r.Merged? ==> r.operations == Operations(blocks) && Carried(blocks, r.operations)
  {
    hide Of, PathsOf, Operations, OperationOf, Conflict, Mixes, HunkOf, Carried;
    var operations: seq<Operation> := [];
    var index: map<string, nat> := map[];
    var k := 0;
    NothingMerged();
    while k < |blocks|
      invariant 0 <= k <= |blocks| && operations == Operations(blocks[..k]) && !Mixes(blocks[..k])
      invariant IndexOk(index, PathsOf(blocks[..k])) && |operations| == |PathsOf(blocks[..k])|
    {
      var b := blocks[k];
      ghost var before := blocks[..k];
      assert blocks[..k + 1] == before + [b];
      MergeStep(before, b);
      OfMore(before, b, b.path);
      if b.path !in index {
        IndexMore(index, PathsOf(before), b.path);
        OperationsMore(before, b);
        index := index[b.path := |operations|];
        operations := operations + [if |b.search| == 0 then Add(b.path, b.replace) else Update(b.path, [HunkOf(b)])];
      } else {
        var i := index[b.path];
        OperationsAgain(before, b, i);
        OperationAt(before, i);
        if |b.search| == 0 || operations[i].Add? {
          MixesMore(blocks, k + 1);
          return Mixed;
        }
        operations := operations[i := Update(b.path, operations[i].hunks + [HunkOf(b)])];
      }
      k := k + 1;
    }
    assert blocks[..k] == blocks;
    OperationsCarry(blocks);
    return Merged(operations);
  }

  ghost predicate IndexOk(index: map<string, nat>, paths: seq<string>) {
    && (forall p | p in index :: index[p] < |paths| && paths[index[p]] == p)
    && forall i | 0 <= i < |paths| :: paths[i] in index
  }

  lemma IndexMore(index: map<string, nat>, paths: seq<string>, path: string)
    requires IndexOk(index, paths) && path !in index
    ensures path !in paths && IndexOk(index[path := |paths|], paths + [path])
  {
  }

  lemma NothingMerged()
    ensures Operations([]) == [] && PathsOf([]) == [] && !Mixes([])
  {
  }

  lemma OperationAt(blocks: seq<Block>, i: nat)
    requires i < |PathsOf(blocks)|
    ensures |Operations(blocks)| == |PathsOf(blocks)|
    ensures Operations(blocks)[i] == OperationOf(PathsOf(blocks)[i], Of(blocks, PathsOf(blocks)[i]))
  {
  }

  /** Whether one more block mixes, and what its operation then is. */
  lemma MergeStep(blocks: seq<Block>, b: Block)
    requires !Mixes(blocks)
    ensures var path, mine := b.path, Of(blocks, b.path);
            && (path !in PathsOf(blocks) ==>
                 (!Mixes(blocks + [b]) &&
                  OperationOf(path, [b]) == if b.search == [] then Add(path, b.replace) else Update(path, [HunkOf(b)])))
            && (path in PathsOf(blocks) ==> (Mixes(blocks + [b]) <==> b.search == [] || OperationOf(path, mine).Add?))
            && (path in PathsOf(blocks) && !Mixes(blocks + [b]) ==>
                 (OperationOf(path, mine).Update? &&
                  OperationOf(path, mine + [b]) == Update(path, OperationOf(path, mine).hunks + [HunkOf(b)])))
  {
    hide Of, PathsOf, HunkOf, OperationOf, Conflict;
    var mine := Of(blocks, b.path);
    PathsHaveBlocks(blocks, b.path);
    assert !Conflict(mine);
    MixesOnlyThere(blocks, b);
    OfMore(blocks, b, b.path);
    if mine != [] {
      OneMoreBlock(b.path, mine, b);
    } else {
      FirstBlock(b);
      assert [] + [b] == [b];
    }
  }

  lemma FirstBlock(b: Block)
    ensures !Conflict([b])
    ensures OperationOf(b.path, [b]) == if b.search == [] then Add(b.path, b.replace) else Update(b.path, [HunkOf(b)])
  {
  }

  lemma MixesOnlyThere(blocks: seq<Block>, b: Block)
    requires !Mixes(blocks)
    ensures Mixes(blocks + [b]) <==> Conflict(Of(blocks + [b], b.path))
  {
    hide Of, Conflict;
    forall path | path != b.path
      ensures !Conflict(Of(blocks + [b], path))
    {
      OfMore(blocks, b, path);
      assert !Conflict(Of(blocks, path));
    }
  }

  lemma {:induction false} MixesMore(blocks: seq<Block>, k: nat)
    requires k <= |blocks| && Mixes(blocks[..k])
    ensures Mixes(blocks)
    decreases |blocks| - k
  {
    hide Of, Conflict;
    if k == |blocks| {
      assert blocks[..k] == blocks;
    } else {
      var path :| Conflict(Of(blocks[..k], path));
      OfMore(blocks[..k], blocks[k], path);
      assert blocks[..k] + [blocks[k]] == blocks[..k + 1];
      ConflictStays(Of(blocks[..k], path), [blocks[k]]);
      MixesMore(blocks, k + 1);
    }
  }

  lemma ConflictStays(a: seq<Block>, b: seq<Block>)
    requires Conflict(a)
    ensures Conflict(a + b)
  {
    var i :| 0 <= i < |a| && a[i].search == [];
    assert (a + b)[i] == a[i];
  }
}
