/** Applying hunks to file data by searching for their old lines, and splicing the replacements in. */
module Patch {
  import opened EditScript
  import opened FileLines
  import opened Hunks

  // ---------------------------------------------------------------------------
  // Comparing lines, from strictest to loosest
  // ---------------------------------------------------------------------------

  datatype Comparator = Exact | TrailingSpace | SurroundingSpace | Typography

  const COMPARATORS: seq<Comparator> := [Exact, TrailingSpace, SurroundingSpace, Typography]

  predicate IsPatchSpace(c: char) { c == ' ' || c == '\t' || c == '\r' || c == '\n' }

  /** The characters with the Unicode White_Space property. */
  predicate IsSpace(c: char) {
    || '\t' <= c <= '\r' || c == ' ' || c == '\U{85}' || c == '\U{A0}' || c == '\U{1680}'
    || '\U{2000}' <= c <= '\U{200A}' || c == '\U{2028}' || c == '\U{2029}' || c == '\U{202F}' || c == '\U{205F}' || c == '\U{3000}'
  }

  function TrimRight(s: string, space: char -> bool): string {
    if s != "" && space(s[|s| - 1]) then TrimRight(s[..|s| - 1], space) else s
  }

  function TrimLeft(s: string, space: char -> bool): string {
    if s != "" && space(s[0]) then TrimLeft(s[1..], space) else s
  }

  function TrimSpace(s: string): string { TrimRight(TrimLeft(s, IsSpace), IsSpace) }

  /** Typographic quotes, dashes, the ellipsis and the no-break space, in their plain spelling. */
  function Plain(c: char): string {
    if '\U{2018}' <= c <= '\U{201B}' then "'"
    else if '\U{201C}' <= c <= '\U{201F}' then "\""
    else if '\U{2010}' <= c <= '\U{2015}' then "-"
    else if c == '\U{2026}' then "..."
    else if c == '\U{A0}' then " "
    else [c]
  }

  function NormalizeUnicode(s: string): string {
    if s == "" then "" else Plain(s[0]) + NormalizeUnicode(s[1..])
  }

  predicate Same(c: Comparator, a: string, b: string) {
    match c
    case Exact => a == b
    case TrailingSpace => TrimRight(a, IsPatchSpace) == TrimRight(b, IsPatchSpace)
    case SurroundingSpace => TrimSpace(a) == TrimSpace(b)
    case Typography => NormalizeUnicode(TrimSpace(a)) == NormalizeUnicode(TrimSpace(b))
  }

  // ---------------------------------------------------------------------------
  // Finding the one place a block occurs
  // ---------------------------------------------------------------------------

  datatype Found = At(start: nat) | NotFound | Ambiguous(count: nat)

  ghost predicate MatchesAt(lines: seq<string>, pattern: seq<string>, i: int, c: Comparator) {
    0 <= i <= |lines| - |pattern| && forall k | 0 <= k < |pattern| :: Same(c, lines[i + k], pattern[k])
  }

  ghost function Sites(lines: seq<string>, pattern: seq<string>, start: int, limit: int, c: Comparator): set<int> {
    set i: int | start <= i < limit && MatchesAt(lines, pattern, i, c)
  }

  ghost function AllSites(lines: seq<string>, pattern: seq<string>, start: int, c: Comparator): set<int> {
    Sites(lines, pattern, start, |lines| - |pattern| + 1, c)
  }

  /** The first comparator that matches anywhere decides: its single site, or how many it has. */
  ghost function Seek(lines: seq<string>, pattern: seq<string>, start: int, cs: seq<Comparator>): Found
    requires start >= 0
  {
    if cs == [] then NotFound
    else
      var sites := AllSites(lines, pattern, start, cs[0]);
      if |sites| > 1 then Ambiguous(|sites|)
      else if |sites| == 1 then (var i :| i in sites; At(i))
      else Seek(lines, pattern, start, cs[1..])
  }

  /** The whole search: an empty block, or a start outside the file, is never found. */
  ghost function SeekSequence(lines: seq<string>, pattern: seq<string>, start: int): Found {
    if pattern == [] || start < 0 || start > |lines| then NotFound else Seek(lines, pattern, start, COMPARATORS)
  }

  lemma OneSite(sites: set<int>, i: int)
    requires i in sites && |sites| == 1
    ensures sites == {i}
  {
    assert |sites - {i}| == 0;
  }

  method SequenceEqual(lines: seq<string>, i: nat, pattern: seq<string>, c: Comparator) returns (equal: bool)
    requires i <= |lines|
    ensures equal <==> MatchesAt(lines, pattern, i, c)
  {
    if |lines| - i < |pattern| {
      return false;
    }
    var k := 0;
    while k < |pattern|
      invariant 0 <= k <= |pattern| && forall m | 0 <= m < k :: Same(c, lines[i + m], pattern[m])
    {
      if !Same(c, lines[i + k], pattern[k]) {
        return false;
      }
      k := k + 1;
    }
    return true;
  }

  lemma SitesStep(lines: seq<string>, pattern: seq<string>, start: int, i: int, c: Comparator)
    requires start <= i
    ensures var before, after := Sites(lines, pattern, start, i, c), Sites(lines, pattern, start, i + 1, c);
            && before <= after && |after| == |before| + (if MatchesAt(lines, pattern, i, c) then 1 else 0)
            && (MatchesAt(lines, pattern, i, c) ==> i in after)
  {
    hide MatchesAt;
    var before, after := Sites(lines, pattern, start, i, c), Sites(lines, pattern, start, i + 1, c);
    assert i !in before && after == before + if MatchesAt(lines, pattern, i, c) then {i} else {};
  }

  lemma NoSites(lines: seq<string>, pattern: seq<string>, start: int, c: Comparator)
    ensures Sites(lines, pattern, start, start, c) == {}
  {
  }

  lemma SitesEnd(lines: seq<string>, pattern: seq<string>, start: int, i: int, c: Comparator)
    requires start <= i && i > |lines| - |pattern|
    ensures Sites(lines, pattern, start, i, c) == AllSites(lines, pattern, start, c)
  {
  }

  /** One comparator's pass over the file. */
  method CountSites(lines: seq<string>, pattern: seq<string>, start: nat, c: Comparator) returns (found: int, count: nat)
    requires start <= |lines| && pattern != []
    ensures count == |AllSites(lines, pattern, start, c)|
    ensures count > 0 ==> found in AllSites(lines, pattern, start, c)
  {
    hide *;
    found, count := -1, 0;
    var i := start;
    NoSites(lines, pattern, start, c);
    while i <= |lines| - |pattern|
      invariant start <= i
      invariant i <= |lines| - |pattern| + 1 || i == start
      invariant count == |Sites(lines, pattern, start, i, c)|
      invariant found >= 0 <==> count > 0
      invariant count > 0 ==> found in Sites(lines, pattern, start, i, c)
    {
      var equal := SequenceEqual(lines, i, pattern, c);
      SitesStep(lines, pattern, start, i, c);
      if equal {
        count := count + 1;
        if found < 0 {
          found := i;
        }
      }
      i := i + 1;
    }
    SitesEnd(lines, pattern, start, i, c);
  }

  /** This comparison finds the block somewhere, and none of the stricter ones does. */
  ghost predicate Decides(lines: seq<string>, pattern: seq<string>, start: nat, c: Comparator) {
    && AllSites(lines, pattern, start, c) != {}
    && (c != Exact ==> AllSites(lines, pattern, start, Exact) == {})
    && (c == SurroundingSpace || c == Typography ==> AllSites(lines, pattern, start, TrailingSpace) == {})
    && (c == Typography ==> AllSites(lines, pattern, start, SurroundingSpace) == {})
  }

  /** The strictest comparison that finds the block decides, by its only site or by how many it has. */
  lemma SeekMeans(lines: seq<string>, pattern: seq<string>, start: int)
    ensures pattern == [] || start < 0 || start > |lines| ==> SeekSequence(lines, pattern, start) == NotFound
    ensures pattern != [] && 0 <= start <= |lines| ==>
              && (forall c | Decides(lines, pattern, start, c) ::
                    var sites := AllSites(lines, pattern, start, c);
                    if |sites| == 1 then SeekSequence(lines, pattern, start).At? && sites == {SeekSequence(lines, pattern, start).start}
                    else SeekSequence(lines, pattern, start) == Ambiguous(|sites|))
              && ((forall c :: !Decides(lines, pattern, start, c)) ==> SeekSequence(lines, pattern, start) == NotFound)
  {
    hide AllSites, Decides;
    if pattern != [] && 0 <= start <= |lines| {
      SeekFour(lines, pattern, start);
      DecidesInTurn(lines, pattern, start);
      forall c | Decides(lines, pattern, start, c)
        ensures Leads(AllSites(lines, pattern, start, c), SeekSequence(lines, pattern, start))
      {
        match c {
          case Exact =>
          case TrailingSpace =>
          case SurroundingSpace =>
          case Typography =>
        }
      }
    }
  }

  /** Which comparison decides, by which of them have sites. */
  lemma DecidesInTurn(lines: seq<string>, pattern: seq<string>, start: nat)
    ensures var e, t, u, v := AllSites(lines, pattern, start, Exact), AllSites(lines, pattern, start, TrailingSpace),
                              AllSites(lines, pattern, start, SurroundingSpace), AllSites(lines, pattern, start, Typography);
            && (Decides(lines, pattern, start, Exact) <==> e != {})
            && (Decides(lines, pattern, start, TrailingSpace) <==> e == {} && t != {})
            && (Decides(lines, pattern, start, SurroundingSpace) <==> e == {} && t == {} && u != {})
            && (Decides(lines, pattern, start, Typography) <==> e == {} && t == {} && u == {} && v != {})
  {
    hide AllSites;
  }

  /** What the sites of one comparison lead to. */
  ghost predicate Leads(sites: set<int>, r: Found) { if |sites| == 1 then r.At? && sites == {r.start} else r == Ambiguous(|sites|) }

  lemma SeekFour(lines: seq<string>, pattern: seq<string>, start: nat)
    requires pattern != [] && start <= |lines|
    ensures var e, t, u, v := AllSites(lines, pattern, start, Exact), AllSites(lines, pattern, start, TrailingSpace),
                              AllSites(lines, pattern, start, SurroundingSpace), AllSites(lines, pattern, start, Typography);
            var r := SeekSequence(lines, pattern, start);
            if e != {} then Leads(e, r) else if t != {} then Leads(t, r) else if u != {} then Leads(u, r)
            else if v != {} then Leads(v, r) else r == NotFound
  {
    hide AllSites, Leads, Seek;
    var cs := COMPARATORS;
    assert cs[1..] == [TrailingSpace, SurroundingSpace, Typography] && cs[1..][1..] == [SurroundingSpace, Typography];
    OneSeek(lines, pattern, start, cs);
    OneSeek(lines, pattern, start, [TrailingSpace, SurroundingSpace, Typography]);
    OneSeek(lines, pattern, start, [SurroundingSpace, Typography]);
    OneSeek(lines, pattern, start, [Typography]);
    assert [TrailingSpace, SurroundingSpace, Typography][1..] == [SurroundingSpace, Typography];
    assert [SurroundingSpace, Typography][1..] == [Typography] && [Typography][1..] == [];
    NoSeek(lines, pattern, start);
  }

  lemma NoSeek(lines: seq<string>, pattern: seq<string>, start: nat)
    ensures Seek(lines, pattern, start, []) == NotFound
  {
  }

  lemma SizeOf(sites: set<int>)
    ensures sites == {} <==> |sites| == 0
    ensures |sites| == 1 ==> exists i :: i in sites
  {
    if forall i :: i !in sites {
      assert sites == {};
    }
  }

  lemma OneSeek(lines: seq<string>, pattern: seq<string>, start: nat, cs: seq<Comparator>)
    requires cs != []
    ensures var sites, r := AllSites(lines, pattern, start, cs[0]), Seek(lines, pattern, start, cs);
            if sites == {} then r == Seek(lines, pattern, start, cs[1..]) else Leads(sites, r)
  {
    hide AllSites;
    var sites := AllSites(lines, pattern, start, cs[0]);
    SizeOf(sites);
    if |sites| == 1 {
      var i :| i in sites;
      OneSite(sites, i);
    }
  }

  // What the comparisons overlook.

  predicate All(s: string, space: char -> bool) { forall i | 0 <= i < |s| :: space(s[i]) }

  lemma {:induction false} TrimRightSplits(s: string, space: char -> bool) returns (rest: string)
    ensures s == TrimRight(s, space) + rest && All(rest, space)
    decreases |s|
  {
    rest := "";
    if s != "" && space(s[|s| - 1]) {
      var front := TrimRightSplits(s[..|s| - 1], space);
      rest := front + [s[|s| - 1]];
      assert s == s[..|s| - 1] + [s[|s| - 1]];
    }
  }

  lemma {:induction false} TrimRightForgets(s: string, rest: string, space: char -> bool)
    requires All(rest, space)
    ensures TrimRight(s + rest, space) == TrimRight(s, space)
    decreases |rest|
  {
    if rest == "" {
      assert s + rest == s;
    } else {
      var whole := s + rest;
      assert whole[..|whole| - 1] == s + rest[..|rest| - 1] && whole[|whole| - 1] == rest[|rest| - 1];
      TrimRightForgets(s, rest[..|rest| - 1], space);
    }
  }

  lemma {:induction false} TrimLeftSplits(s: string, space: char -> bool) returns (rest: string)
    ensures s == rest + TrimLeft(s, space) && All(rest, space)
    decreases |s|
  {
    rest := "";
    if s != "" && space(s[0]) {
      var back := TrimLeftSplits(s[1..], space);
      rest := [s[0]] + back;
      assert s == [s[0]] + s[1..];
    }
  }

  lemma {:induction false} TrimLeftForgets(rest: string, s: string, space: char -> bool)
    requires All(rest, space)
    ensures TrimLeft(rest + s, space) == TrimLeft(s, space)
    decreases |rest|
  {
    if rest == "" {
      assert rest + s == s;
    } else {
      assert (rest + s)[1..] == rest[1..] + s;
      TrimLeftForgets(rest[1..], s, space);
    }
  }

  /** The second comparison overlooks spaces, tabs and line breaks at the end, and nothing else. */
  lemma TrailingSpaceMeans(a: string, b: string)
    ensures Same(TrailingSpace, a, b) <==>
            exists p: string, u: string, v: string :: a == p + u && b == p + v &&
              forall c | c in u + v :: c == ' ' || c == '\t' || c == '\r' || c == '\n'
  {
    if Same(TrailingSpace, a, b) {
      var u := TrimRightSplits(a, IsPatchSpace);
      var v := TrimRightSplits(b, IsPatchSpace);
      assert a == TrimRight(a, IsPatchSpace) + u && b == TrimRight(a, IsPatchSpace) + v;
    }
    if p, u, v: string :| a == p + u && b == p + v && forall c | c in u + v :: c == ' ' || c == '\t' || c == '\r' || c == '\n' {
      assert forall i | 0 <= i < |u| :: u[i] in u + v;
      assert forall i | 0 <= i < |v| :: v[i] in u + v;
      TrimRightForgets(p, u, IsPatchSpace);
      TrimRightForgets(p, v, IsPatchSpace);
    }
  }

  lemma TrimSpaceForgets(x: string, p: string, y: string)
    requires All(x, IsSpace) && All(y, IsSpace)
    ensures TrimSpace(x + p + y) == TrimSpace(p)
  {
    assert x + p + y == x + (p + y);
    TrimLeftForgets(x, p + y, IsSpace);
    TrimLeftOfEnd(p, y);
  }

  lemma {:induction false} TrimLeftOfEnd(p: string, y: string)
    requires All(y, IsSpace)
    ensures TrimRight(TrimLeft(p + y, IsSpace), IsSpace) == TrimRight(TrimLeft(p, IsSpace), IsSpace)
    decreases |p|
  {
    if p == "" {
      assert p + y == y && y == y + "";
      TrimLeftForgets(y, "", IsSpace);
    } else if IsSpace(p[0]) {
      assert (p + y)[1..] == p[1..] + y;
      TrimLeftOfEnd(p[1..], y);
    } else {
      TrimRightForgets(p, y, IsSpace);
    }
  }

  /** The text with white space around it. */
  ghost predicate SpacedOut(p: string, a: string) { exists u: string, v: string :: a == u + p + v && All(u, IsSpace) && All(v, IsSpace) }

  lemma SpacedTrimmed(a: string)
    ensures SpacedOut(TrimSpace(a), a)
  {
    var u := TrimLeftSplits(a, IsSpace);
    var v := TrimRightSplits(TrimLeft(a, IsSpace), IsSpace);
    assert a == u + TrimSpace(a) + v;
  }

  lemma SpacedForgets(p: string, a: string)
    requires SpacedOut(p, a)
    ensures TrimSpace(a) == TrimSpace(p)
  {
    var u: string, v: string :| a == u + p + v && All(u, IsSpace) && All(v, IsSpace);
    TrimSpaceForgets(u, p, v);
  }

  /** The third overlooks white space at both ends, and nothing else. */
  lemma SurroundingSpaceMeans(a: string, b: string)
    ensures Same(SurroundingSpace, a, b) <==> exists p :: SpacedOut(p, a) && SpacedOut(p, b)
  {
    hide SpacedOut, TrimSpace;
    SpacedTrimmed(a);
    SpacedTrimmed(b);
    if p :| SpacedOut(p, a) && SpacedOut(p, b) {
      SpacedForgets(p, a);
      SpacedForgets(p, b);
    }
  }

  /** Each comparison accepts what the stricter ones accept. */
  lemma LooserAndLooser(a: string, b: string)
    ensures Same(Exact, a, b) ==> Same(TrailingSpace, a, b)
    ensures Same(TrailingSpace, a, b) ==> Same(SurroundingSpace, a, b)
    ensures Same(SurroundingSpace, a, b) ==> Same(Typography, a, b)
  {
    hide TrimSpace, TrimRight;
    if Same(TrailingSpace, a, b) {
      SpaceOfRight(a);
      SpaceOfRight(b);
    }
  }

  lemma SpaceOfRight(a: string)
    ensures TrimSpace(TrimRight(a, IsPatchSpace)) == TrimSpace(a)
  {
    hide TrimSpace, TrimRight;
    var p := TrimRight(a, IsPatchSpace);
    var u := TrimRightSplits(a, IsPatchSpace);
    assert All(u, IsSpace) by {
      assert forall i | 0 <= i < |u| :: IsPatchSpace(u[i]);
    }
    TrimSpaceForgets("", p, u);
    assert "" + p + u == a;
  }

  lemma {:induction false} NormalizeConcat(a: string, b: string)
    ensures NormalizeUnicode(a + b) == NormalizeUnicode(a) + NormalizeUnicode(b)
  {
    if a == "" {
      assert a + b == b;
    } else {
      assert (a + b)[1..] == a[1..] + b;
      NormalizeConcat(a[1..], b);
    }
  }

  /** The last one reads typographic quotes, dashes, the ellipsis and the no-break space as what they are typed as. */
  lemma TypographyMeans(c: char)
    ensures c in {'\U{2018}', '\U{2019}', '\U{201A}', '\U{201B}'} ==> NormalizeUnicode([c]) == "'"
    ensures c in {'\U{201C}', '\U{201D}', '\U{201E}', '\U{201F}'} ==> NormalizeUnicode([c]) == "\""
    ensures c in {'\U{2010}', '\U{2011}', '\U{2012}', '\U{2013}', '\U{2014}', '\U{2015}'} ==> NormalizeUnicode([c]) == "-"
    ensures c == '\U{2026}' ==> NormalizeUnicode([c]) == "..."
    ensures c == '\U{A0}' ==> NormalizeUnicode([c]) == " "
    ensures c < '\U{A0}' ==> NormalizeUnicode([c]) == [c]
  {
    assert [c][1..] == "";
  }

  method SeekPatchSequence(lines: seq<string>, pattern: seq<string>, start: int) returns (r: Found)
    ensures r == SeekSequence(lines, pattern, start)
    ensures pattern == [] || start < 0 || start > |lines| ==> r == NotFound
    ensures pattern != [] && 0 <= start <= |lines| ==>
              && (forall c | Decides(lines, pattern, start, c) ::
                    var sites := AllSites(lines, pattern, start, c);
                    if |sites| == 1 then r.At? && sites == {r.start} else r == Ambiguous(|sites|))
              && ((forall c :: !Decides(lines, pattern, start, c)) ==> r == NotFound)
  {
    SeekMeans(lines, pattern, start);
    hide Decides;
    if |pattern| == 0 || start < 0 || start > |lines| {
      return NotFound;
    }
    var k := 0;
    while k < |COMPARATORS|
      invariant 0 <= k <= |COMPARATORS|
      invariant Seek(lines, pattern, start, COMPARATORS) == Seek(lines, pattern, start, COMPARATORS[k..])
    {
      hide Same, MatchesAt, AllSites;
      var found, count := CountSites(lines, pattern, start, COMPARATORS[k]);
      if count > 1 {
        return Ambiguous(count);
      }
      if count == 1 {
        OneSite(AllSites(lines, pattern, start, COMPARATORS[k]), found);
        return At(found);
      }
      assert COMPARATORS[k..][1..] == COMPARATORS[k + 1..];
      k := k + 1;
    }
    return NotFound;
  }

  /** A block that occurs verbatim is found there or reported ambiguous; no looser comparison is tried. */
  lemma ExactSiteDecides(lines: seq<string>, pattern: seq<string>, start: nat, i: nat)
    requires pattern != [] && start <= i && i + |pattern| <= |lines| && lines[i..i + |pattern|] == pattern
    ensures SeekSequence(lines, pattern, start) == At(i) || SeekSequence(lines, pattern, start).Ambiguous?
  {
    assert forall k | 0 <= k < |pattern| :: pattern[k] == lines[i + k];
    assert MatchesAt(lines, pattern, i, Exact);
    var sites := AllSites(lines, pattern, start, Exact);
    assert i in sites;
    hide MatchesAt, AllSites;
    if |sites| == 1 {
      OneSite(sites, i);
    }
  }

  /** A place that is reported exists, is the only one, and lies at or after the start. */
  lemma {:induction false} SeekInBounds(lines: seq<string>, pattern: seq<string>, start: nat, cs: seq<Comparator>)
    ensures var r := Seek(lines, pattern, start, cs);
            r.At? ==> start <= r.start && exists c :: c in cs && AllSites(lines, pattern, start, c) == {r.start}
    ensures var r := Seek(lines, pattern, start, cs); r.At? ==> r.start + |pattern| <= |lines|
  {
    if cs != [] {
      var sites := AllSites(lines, pattern, start, cs[0]);
      if |sites| == 1 {
        var i :| i in sites;
        OneSite(sites, i);
      } else if |sites| == 0 {
        SeekInBounds(lines, pattern, start, cs[1..]);
      }
    }
  }

  // ---------------------------------------------------------------------------
  // Terminators of inserted lines
  // ---------------------------------------------------------------------------

  ghost function LastTerminator(lines: seq<FileLine>): string {
    if lines == [] then ""
    else if lines[|lines| - 1].terminator != "" then lines[|lines| - 1].terminator
    else LastTerminator(lines[..|lines| - 1])
  }

  ghost function FirstTerminator(lines: seq<FileLine>): string {
    if lines == [] then "" else if lines[0].terminator != "" then lines[0].terminator else FirstTerminator(lines[1..])
  }

  /** The terminator of the line itself, else of the nearest line before, else of the nearest after, else a newline. */
  ghost function LineEnding(lines: seq<FileLine>, index: nat): (t: string)
    requires index <= |lines|
    ensures t != ""
  {
    if index < |lines| && lines[index].terminator != "" then lines[index].terminator
    else if LastTerminator(lines[..index]) != "" then LastTerminator(lines[..index])
    else if index < |lines| && FirstTerminator(lines[index + 1..]) != "" then FirstTerminator(lines[index + 1..])
    else "\n"
  }

  /** Line `j` is terminated, and no line strictly between it and `index` is. */
  ghost predicate Nearest(lines: seq<FileLine>, index: int, j: int) {
    && 0 <= j < |lines| && lines[j].terminator != ""
    && forall k | 0 <= k < |lines| && (j < k < index || index < k < j) :: lines[k].terminator == ""
  }

  ghost predicate NoneBefore(lines: seq<FileLine>, index: nat) { forall k | 0 <= k < index && k < |lines| :: lines[k].terminator == "" }

  /**
   * A terminated line's own terminator; else that of the nearest terminated line before; else that of the nearest after;
   * a newline only if no line is terminated.
   */
  method LineEndingAt(lines: seq<FileLine>, index: nat) returns (t: string)
    requires index <= |lines|
    ensures t == LineEnding(lines, index)
    ensures Nearest(lines, index, index) ==> t == lines[index].terminator
    ensures !Nearest(lines, index, index) ==> forall j | 0 <= j < index && Nearest(lines, index, j) :: t == lines[j].terminator
    ensures !Nearest(lines, index, index) && NoneBefore(lines, index) ==>
              forall j | index < j < |lines| && Nearest(lines, index, j) :: t == lines[j].terminator
    ensures (forall j | 0 <= j < |lines| :: lines[j].terminator == "") ==> t == "\n"
    ensures (exists j | 0 <= j < |lines| :: lines[j].terminator != "") ==> exists j | 0 <= j < |lines| :: t == lines[j].terminator
  {
    if index < |lines| && lines[index].terminator != "" {
      return lines[index].terminator;
    }
    var i := index - 1;
    while i >= 0
      invariant -1 <= i < index
      invariant LastTerminator(lines[..index]) == LastTerminator(lines[..i + 1])
      invariant forall k | i < k < index :: lines[k].terminator == ""
    {
      assert lines[..i + 1][..i] == lines[..i];
      if lines[i].terminator != "" {
        return lines[i].terminator;
      }
      i := i - 1;
    }
    i := index + 1;
    while i < |lines|
      invariant index + 1 <= i && (index < |lines| ==> i <= |lines|)
      invariant index < |lines| ==> FirstTerminator(lines[index + 1..]) == FirstTerminator(lines[i..])
      invariant forall k | index < k < i && k < |lines| :: lines[k].terminator == ""
    {
      assert lines[i..][1..] == lines[i + 1..];
      if lines[i].terminator != "" {
        return lines[i].terminator;
      }
      i := i + 1;
    }
    return "\n";
  }

  // ---------------------------------------------------------------------------
  // The lines that replace a matched block
  // ---------------------------------------------------------------------------

  /** Context keeps its line, insertions get the current terminator, the first deletion may change that terminator. */
  ghost function Replace(ls: seq<Line>, matched: seq<FileLine>, ending: string, deleted: bool): (r: seq<FileLine>)
    requires |OldTexts(ls)| == |matched|
    decreases |ls|
  {
    if ls == [] then []
    else
      match ls[0].kind
      case Keep => [matched[0]] + Replace(ls[1..], matched[1..], ending, deleted)
      case Delete =>
        Replace(ls[1..], matched[1..], if !deleted && matched[0].terminator != "" then matched[0].terminator else ending, true)
      case Insert => [FileLine(ls[0].text, ending)] + Replace(ls[1..], matched, ending, deleted)
  }

  /** An unterminated final source line leaves the last replacing line unterminated. */
  ghost function KeepUnterminated(matched: seq<FileLine>, r: seq<FileLine>): seq<FileLine> {
    if matched != [] && matched[|matched| - 1].terminator == "" && r != []
    then r[..|r| - 1] + [FileLine(r[|r| - 1].text, "")]
    else r
  }

  ghost function Replacing(ls: seq<Line>, matched: seq<FileLine>, ending: string): seq<FileLine>
    requires |OldTexts(ls)| == |matched|
  {
    KeepUnterminated(matched, Replace(ls, matched, ending, false))
  }

  lemma ReplaceStep(ls: seq<Line>, i: nat, matched: seq<FileLine>, k: nat, ending: string, deleted: bool)
    requires i < |ls| && k <= |matched| && |OldTexts(ls[i..])| == |matched| - k
    ensures !ls[i].kind.Insert? ==> k < |matched|
    ensures |OldTexts(ls[i + 1..])| == |matched| - k - if ls[i].kind.Insert? then 0 else 1
    ensures Replace(ls[i..], matched[k..], ending, deleted) ==
      match ls[i].kind
      case Keep => [matched[k]] + Replace(ls[i + 1..], matched[k + 1..], ending, deleted)
      case Delete => Replace(ls[i + 1..], matched[k + 1..], if !deleted && matched[k].terminator != "" then matched[k].terminator else ending, true)
      case Insert => [FileLine(ls[i].text, ending)] + Replace(ls[i + 1..], matched[k..], ending, deleted)
  {
    assert ls[i..][1..] == ls[i + 1..];
    assert k < |matched| ==> matched[k..][1..] == matched[k + 1..];
  }

  /** One step of the loop, on what it has written so far. */
  lemma WrittenStep(r: seq<FileLine>, ls: seq<Line>, i: nat, matched: seq<FileLine>, k: nat, ending: string, deleted: bool)
    requires i < |ls| && k <= |matched| && |OldTexts(ls[i..])| == |matched| - k
    ensures !ls[i].kind.Insert? ==> k < |matched|
    ensures |OldTexts(ls[i + 1..])| == |matched| - k - if ls[i].kind.Insert? then 0 else 1
    ensures r + Replace(ls[i..], matched[k..], ending, deleted) ==
      match ls[i].kind
      case Keep => (r + [matched[k]]) + Replace(ls[i + 1..], matched[k + 1..], ending, deleted)
      case Delete => r + Replace(ls[i + 1..], matched[k + 1..], if !deleted && matched[k].terminator != "" then matched[k].terminator else ending, true)
      case Insert => (r + [FileLine(ls[i].text, ending)]) + Replace(ls[i + 1..], matched[k..], ending, deleted)
  {
    hide Replace, OldTexts;
    ReplaceStep(ls, i, matched, k, ending, deleted);
  }

  lemma ReplaceDone(ls: seq<Line>, matched: seq<FileLine>, k: nat, ending: string, deleted: bool)
    requires k <= |matched| && |OldTexts(ls[|ls|..])| == |matched| - k
    ensures Replace(ls[|ls|..], matched[k..], ending, deleted) == []
  {
  }

  // What a hunk writes, line by line.

  /** The first deletion before line `i`. */
  ghost predicate FirstDeletion(ls: seq<Line>, i: nat, d: nat) {
    d < i && d < |ls| && ls[d].kind.Delete? && forall j | 0 <= j < d :: !ls[j].kind.Delete?
  }

  /** What inserted line `i` ends in. */
  ghost predicate InsertedEnding(ls: seq<Line>, matched: seq<FileLine>, ending: string, deleted: bool, i: nat, t: string) {
    if deleted then t == ending
    else
      && ((forall j | 0 <= j < i && j < |ls| :: !ls[j].kind.Delete?) ==> t == ending)
      && forall d: nat | FirstDeletion(ls, i, d) && |OldTexts(ls[..d])| < |matched| ::
           t == if matched[|OldTexts(ls[..d])|].terminator != "" then matched[|OldTexts(ls[..d])|].terminator else ending
  }

  lemma SidesBefore(ls: seq<Line>, i: nat)
    requires ls != [] && 0 < i <= |ls|
    ensures |OldTexts(ls[..i])| == |OldTexts(ls[1..][..i - 1])| + if ls[0].kind.Insert? then 0 else 1
    ensures |NewTexts(ls[..i])| == |NewTexts(ls[1..][..i - 1])| + if ls[0].kind.Delete? then 0 else 1
  {
    assert ls[..i][0] == ls[0] && ls[..i][1..] == ls[1..][..i - 1];
  }

  lemma {:induction false} EndingFromFirst(ls: seq<Line>, matched: seq<FileLine>, ending: string, i: nat, t: string)
    requires |OldTexts(ls)| == |matched| && 0 < i < |ls| && ls[0].kind.Delete?
    requires t == if matched[0].terminator != "" then matched[0].terminator else ending
    ensures InsertedEnding(ls, matched, ending, false, i, t)
  {
    assert FirstDeletion(ls, i, 0);
    assert forall d: nat | FirstDeletion(ls, i, d) :: d == 0;
    assert |OldTexts(ls[..0])| == 0;
  }

  lemma EndingPastKept(ls: seq<Line>, matched: seq<FileLine>, ending: string, i: nat, t: string)
    requires |OldTexts(ls)| == |matched| && 0 < i < |ls| && !ls[0].kind.Delete?
    requires InsertedEnding(ls[1..], if ls[0].kind.Insert? then matched else matched[1..], ending, false, i - 1, t)
    ensures InsertedEnding(ls, matched, ending, false, i, t)
  {
    hide NewTexts;
    var tail := ls[1..];
    assert forall j | 0 <= j < |tail| :: tail[j] == ls[j + 1];
    forall d: nat | FirstDeletion(ls, i, d)
      ensures FirstDeletion(tail, i - 1, d - 1) && d > 0
    {
    }
    forall d: nat | 0 < d < i
      ensures |OldTexts(ls[..d])| == |OldTexts(tail[..d - 1])| + if ls[0].kind.Insert? then 0 else 1
    {
      SidesBefore(ls, d);
    }
  }

  lemma EndingLater(ls: seq<Line>, matched: seq<FileLine>, ending: string, deleted: bool, i: nat, t: string)
    requires |OldTexts(ls)| == |matched| && 0 < i < |ls|
    requires var rest := if ls[0].kind.Insert? then matched else matched[1..];
             var next := if ls[0].kind.Delete? && !deleted && matched[0].terminator != "" then matched[0].terminator else ending;
             InsertedEnding(ls[1..], rest, next, deleted || ls[0].kind.Delete?, i - 1, t)
    ensures InsertedEnding(ls, matched, ending, deleted, i, t)
  {
    if !deleted {
      if ls[0].kind.Delete? {
        EndingFromFirst(ls, matched, ending, i, t);
      } else {
        EndingPastKept(ls, matched, ending, i, t);
      }
    }
  }

  /**
   * Line `i` of a hunk stands where the lines written before it end: a kept line with all its bytes, an inserted one with
   * the terminator of the first line deleted before it, if that has one, and else with the hunk's.
   */
  lemma {:induction false} ReplaceAt(ls: seq<Line>, matched: seq<FileLine>, ending: string, deleted: bool, i: nat)
    requires |OldTexts(ls)| == |matched| && i < |ls| && !ls[i].kind.Delete?
    ensures var r, at, from := Replace(ls, matched, ending, deleted), |NewTexts(ls[..i])|, |OldTexts(ls[..i])|;
            && at < |r|
            && (ls[i].kind.Keep? ==> from < |matched| && r[at] == matched[from])
            && (ls[i].kind.Insert? ==> r[at].text == ls[i].text && InsertedEnding(ls, matched, ending, deleted, i, r[at].terminator))
    decreases |ls|
  {
    hide InsertedEnding;
    if i == 0 {
      assert ls[..0] == [];
      EndingNow(ls, matched, ending, deleted);
    } else {
      var rest := if ls[0].kind.Insert? then matched else matched[1..];
      var next := if ls[0].kind.Delete? && !deleted && matched[0].terminator != "" then matched[0].terminator else ending;
      SidesBefore(ls, i);
      ReplaceAt(ls[1..], rest, next, deleted || ls[0].kind.Delete?, i - 1);
      if ls[i].kind.Insert? {
        var r := Replace(ls[1..], rest, next, deleted || ls[0].kind.Delete?);
        EndingLater(ls, matched, ending, deleted, i, r[|NewTexts(ls[1..][..i - 1])|].terminator);
      }
    }
  }

  /** It writes a line for each line of the new side and nothing else. */
  lemma ReplaceLength(ls: seq<Line>, matched: seq<FileLine>, ending: string, deleted: bool)
    requires |OldTexts(ls)| == |matched|
    ensures |Replace(ls, matched, ending, deleted)| == |NewTexts(ls)|
  {
  }

  lemma EndingNow(ls: seq<Line>, matched: seq<FileLine>, ending: string, deleted: bool)
    ensures InsertedEnding(ls, matched, ending, deleted, 0, ending)
  {
  }

  method ReplacementLines(ls: seq<Line>, matched: seq<FileLine>, lineEnding: string) returns (r: seq<FileLine>)
    requires |OldTexts(ls)| == |matched|
    ensures r == Replacing(ls, matched, lineEnding)
  {
    hide Replace, OldTexts;
    assert ls[0..] == ls && matched[0..] == matched;
    r := [];
    var ending := lineEnding;
    var oldIndex := 0;
    var matchedDeletion := false;
    var i := 0;
    while i < |ls|
      invariant 0 <= i <= |ls| && 0 <= oldIndex <= |matched|
      invariant |OldTexts(ls[i..])| == |matched| - oldIndex
      invariant Replace(ls, matched, lineEnding, false) ==
                r + Replace(ls[i..], matched[oldIndex..], ending, matchedDeletion)
    {
      WrittenStep(r, ls, i, matched, oldIndex, ending, matchedDeletion);
      match ls[i].kind {
        case Keep =>
          r := r + [matched[oldIndex]];
          oldIndex := oldIndex + 1;
        case Delete =>
          if !matchedDeletion && matched[oldIndex].terminator != "" {
            ending := matched[oldIndex].terminator;
          }
          matchedDeletion := true;
          oldIndex := oldIndex + 1;
        case Insert =>
          r := r + [FileLine(ls[i].text, ending)];
      }
      i := i + 1;
    }
    ReplaceDone(ls, matched, oldIndex, ending, matchedDeletion);
    assert r + [] == r;
    if |matched| > 0 && matched[|matched| - 1].terminator == "" && |r| > 0 {
      r := r[|r| - 1 := FileLine(r[|r| - 1].text, "")];
    }
  }

  /** When context matched verbatim, the replacing lines spell the new side of the hunk. */
  lemma {:induction false} ReplaceSpells(ls: seq<Line>, matched: seq<FileLine>, ending: string, deleted: bool)
    requires OldTexts(ls) == Texts(matched)
    ensures Texts(Replace(ls, matched, ending, deleted)) == NewTexts(ls)
    decreases |ls|
  {
    if ls != [] {
      if ls[0].kind.Insert? {
        ReplaceSpells(ls[1..], matched, ending, deleted);
        TextsPrepend(FileLine(ls[0].text, ending), Replace(ls[1..], matched, ending, deleted));
      } else {
        assert Texts(matched)[1..] == Texts(matched[1..]);
        var ending' := if ls[0].kind.Delete? && !deleted && matched[0].terminator != "" then matched[0].terminator else ending;
        ReplaceSpells(ls[1..], matched[1..], ending', deleted || ls[0].kind.Delete?);
        TextsPrepend(matched[0], Replace(ls[1..], matched[1..], ending', deleted || ls[0].kind.Delete?));
      }
    }
  }

  lemma TextsPrepend(l: FileLine, rest: seq<FileLine>)
    ensures Texts([l] + rest) == [l.text] + Texts(rest)
  {
  }

  lemma ReplacingSpells(ls: seq<Line>, matched: seq<FileLine>, ending: string)
    requires OldTexts(ls) == Texts(matched)
    ensures Texts(Replacing(ls, matched, ending)) == NewTexts(ls)
  {
    ReplaceSpells(ls, matched, ending, false);
    assert Texts(Replacing(ls, matched, ending)) == Texts(Replace(ls, matched, ending, false));
  }

  // ---------------------------------------------------------------------------
  // Substituting disjoint ranges, and the reverse splicing loop that does it
  // ---------------------------------------------------------------------------

  datatype Replacement = Replacement(start: nat, size: nat, lines: seq<FileLine>)

  /** Replacements in order, disjoint, between `from` and the end of the file. */
  ghost predicate Disjoint(rs: seq<Replacement>, from: nat, length: nat) {
    if rs == [] then from <= length
    else from <= rs[0].start && rs[0].start + rs[0].size <= length && Disjoint(rs[1..], rs[0].start + rs[0].size, length)
  }

  /** All ranges replaced at once: everything outside them is copied as it is. */
  ghost function Substitute(lines: seq<FileLine>, rs: seq<Replacement>, from: nat): seq<FileLine>
    requires Disjoint(rs, from, |lines|)
    decreases |rs|
  {
    if rs == [] then lines[from..]
    else lines[from..rs[0].start] + rs[0].lines + Substitute(lines, rs[1..], rs[0].start + rs[0].size)
  }

  lemma {:induction false} DisjointTail(rs: seq<Replacement>, from: nat, length: nat, i: nat)
    requires Disjoint(rs, from, length) && i < |rs|
    ensures rs[i].start + rs[i].size <= length && Disjoint(rs[i + 1..], rs[i].start + rs[i].size, length)
    ensures (if i == 0 then from else rs[i - 1].start + rs[i - 1].size) <= rs[i].start
    decreases i
  {
    if i > 0 {
      DisjointTail(rs[1..], rs[0].start + rs[0].size, length, i - 1);
      assert rs[1..][i..] == rs[i + 1..];
    }
  }

  lemma CopyAll(lines: seq<FileLine>, to: nat)
    requires to <= |lines|
    ensures lines[..to] + Substitute(lines, [], to) == lines
  {
  }

  lemma CopySplit(lines: seq<FileLine>, from: nat, s: nat, rest: seq<FileLine>)
    requires from <= s <= |lines|
    ensures lines[..from] + (lines[from..s] + rest) == lines[..s] + rest
  {
  }

  lemma SubstituteFirst(lines: seq<FileLine>, rs: seq<Replacement>, from: nat)
    requires rs != [] && Disjoint(rs, from, |lines|)
    ensures from <= rs[0].start <= |lines| && Disjoint(rs[1..], rs[0].start + rs[0].size, |lines|)
    ensures Substitute(lines, rs, from) ==
            lines[from..rs[0].start] + (rs[0].lines + Substitute(lines, rs[1..], rs[0].start + rs[0].size))
  {
  }

  lemma DisjointLower(rs: seq<Replacement>, to: nat, from: nat, length: nat)
    requires to <= from && Disjoint(rs, from, length)
    ensures Disjoint(rs, to, length)
  {
  }

  lemma CopyLess(lines: seq<FileLine>, rs: seq<Replacement>, to: nat, from: nat)
    requires to <= from && Disjoint(rs, from, |lines|)
    ensures from <= |lines| && Disjoint(rs, to, |lines|)
    ensures lines[..from] + Substitute(lines, rs, from) == lines[..to] + Substitute(lines, rs, to)
  {
    hide *;
    DisjointEnds(rs, from, |lines|);
    DisjointLower(rs, to, from, |lines|);
    if rs == [] {
      CopyAll(lines, to);
      CopyAll(lines, from);
    } else {
      CopyToFirst(lines, rs, from);
      CopyToFirst(lines, rs, to);
    }
  }

  lemma CopyToFirst(lines: seq<FileLine>, rs: seq<Replacement>, from: nat)
    requires rs != [] && Disjoint(rs, from, |lines|)
    ensures var s, next := rs[0].start, rs[0].start + rs[0].size;
            && from <= s <= |lines| && Disjoint(rs[1..], next, |lines|)
            && lines[..from] + Substitute(lines, rs, from) == lines[..s] + (rs[0].lines + Substitute(lines, rs[1..], next))
  {
    SubstituteFirst(lines, rs, from);
    hide *;
    CopySplit(lines, from, rs[0].start, rs[0].lines + Substitute(lines, rs[1..], rs[0].start + rs[0].size));
  }

  lemma {:induction false} DisjointEnds(rs: seq<Replacement>, from: nat, length: nat)
    requires Disjoint(rs, from, length)
    ensures from <= length
  {
    if rs != [] {
      DisjointEnds(rs[1..], rs[0].start + rs[0].size, length);
    }
  }

  method SpliceReversed(lines: seq<FileLine>, rs: seq<Replacement>) returns (result: seq<FileLine>)
    requires Disjoint(rs, 0, |lines|)
    ensures result == Substitute(lines, rs, 0)
  {
    result := lines;
    var i := |rs| - 1;
    assert rs[i + 1..] == [];
    ghost var cut: nat := |lines|;
    if |rs| > 0 {
      DisjointTail(rs, 0, |lines|, |rs| - 1);
    }
    CopyAll(lines, |lines|);
    assert Disjoint(rs[i + 1..], cut, |lines|);
    hide Substitute, Disjoint;
    while i >= 0
      invariant -1 <= i < |rs| && cut <= |lines| && Disjoint(rs[i + 1..], cut, |lines|)
      invariant i >= 0 ==> rs[i].start + rs[i].size <= cut
      invariant result == lines[..cut] + Substitute(lines, rs[i + 1..], cut)
    {
      var r := rs[i];
      DisjointTail(rs, 0, |lines|, i);
      CopyLess(lines, rs[i + 1..], r.start + r.size, cut);
      SpliceOne(lines, rs[i + 1..], r, result);
      result := result[..r.start] + r.lines + result[r.start + r.size..];
      assert rs[i..] == [r] + rs[i + 1..] && rs[i..][1..] == rs[i + 1..];
      cut := r.start;
      i := i - 1;
    }
    CopyLess(lines, rs[0..], 0, cut);
    assert rs[0..] == rs;
  }

  lemma SubstituteOne(lines: seq<FileLine>, rest: seq<Replacement>, r: Replacement)
    requires r.start + r.size <= |lines| && Disjoint(rest, r.start + r.size, |lines|)
    ensures Disjoint([r] + rest, r.start, |lines|)
    ensures Substitute(lines, [r] + rest, r.start) == r.lines + Substitute(lines, rest, r.start + r.size)
  {
    hide *;
    var all := [r] + rest;
    assert all[0] == r && all[1..] == rest;
    DisjointOne(rest, r, |lines|);
    SubstituteFirst(lines, all, r.start);
    assert lines[r.start..r.start] == [];
  }

  lemma DisjointOne(rest: seq<Replacement>, r: Replacement, length: nat)
    requires r.start + r.size <= length && Disjoint(rest, r.start + r.size, length)
    ensures Disjoint([r] + rest, r.start, length)
  {
    assert ([r] + rest)[0] == r && ([r] + rest)[1..] == rest;
  }

  lemma CutResult(before: seq<FileLine>, after: seq<FileLine>, start: nat)
    requires start <= |before|
    ensures (before + after)[..start] == before[..start] && (before + after)[|before|..] == after
  {
  }

  lemma SpliceOne(lines: seq<FileLine>, rest: seq<Replacement>, r: Replacement, result: seq<FileLine>)
    requires r.start + r.size <= |lines| && Disjoint(rest, r.start + r.size, |lines|)
    requires result == lines[..r.start + r.size] + Substitute(lines, rest, r.start + r.size)
    ensures Disjoint([r] + rest, r.start, |lines|)
    ensures result[..r.start] + r.lines + result[r.start + r.size..] == lines[..r.start] + Substitute(lines, [r] + rest, r.start)
  {
    hide Substitute;
    SubstituteOne(lines, rest, r);
    CutResult(lines[..r.start + r.size], Substitute(lines, rest, r.start + r.size), r.start);
    assert lines[..r.start + r.size][..r.start] == lines[..r.start];
  }

  /** How much the replacements that end at or before line `k` lengthen the file. */
  function Growth(rs: seq<Replacement>, k: nat): int {
    if rs == [] then 0 else (if rs[0].start + rs[0].size <= k then |rs[0].lines| - rs[0].size else 0) + Growth(rs[1..], k)
  }

  /** Line `k` is in none of the ranges. */
  ghost predicate Outside(rs: seq<Replacement>, k: nat) { forall i | 0 <= i < |rs| :: !(rs[i].start <= k < rs[i].start + rs[i].size) }

  lemma {:induction false} NoGrowthBefore(rs: seq<Replacement>, from: nat, length: nat, k: nat)
    requires Disjoint(rs, from, length) && k < from
    ensures Growth(rs, k) == 0
  {
    if rs != [] {
      NoGrowthBefore(rs[1..], rs[0].start + rs[0].size, length, k);
    }
  }

  lemma OutsideTail(rs: seq<Replacement>, k: nat)
    requires rs != [] && Outside(rs, k)
    ensures !(rs[0].start <= k < rs[0].start + rs[0].size) && Outside(rs[1..], k)
  {
    assert forall i | 0 <= i < |rs[1..]| :: rs[1..][i] == rs[i + 1];
  }

  lemma GrowthFirst(rs: seq<Replacement>, k: nat)
    requires rs != []
    ensures Growth(rs, k) == (if rs[0].start + rs[0].size <= k then |rs[0].lines| - rs[0].size else 0) + Growth(rs[1..], k)
  {
  }

  lemma InFirstPart(lines: seq<FileLine>, from: nat, s: nat, k: nat, rest: seq<FileLine>)
    requires from <= k < s <= |lines|
    ensures (lines[from..s] + rest)[k - from] == lines[k]
  {
  }

  lemma InLastPart(first: seq<FileLine>, middle: seq<FileLine>, rest: seq<FileLine>, at: nat)
    requires at < |rest|
    ensures (first + (middle + rest))[|first| + |middle| + at] == rest[at]
  {
  }

  lemma UnchangedAfterAll(lines: seq<FileLine>, from: nat, k: nat)
    requires from <= k < |lines|
    ensures Growth([], k) == 0 && k - from < |Substitute(lines, [], from)| && Substitute(lines, [], from)[k - from] == lines[k]
  {
  }

  /**
   * A line outside all ranges keeps its text and terminator, and its place: it is moved only by what the replacements
   * before it add or take away.
   */
  lemma {:induction false} OutsideUnchanged(lines: seq<FileLine>, rs: seq<Replacement>, from: nat, k: nat)
    requires Disjoint(rs, from, |lines|) && from <= k < |lines| && Outside(rs, k)
    ensures var at := k - from + Growth(rs, k); 0 <= at < |Substitute(lines, rs, from)| && Substitute(lines, rs, from)[at] == lines[k]
    decreases |rs|
  {
    hide *;
    if rs == [] {
      UnchangedAfterAll(lines, from, k);
    } else {
      var s, next := rs[0].start, rs[0].start + rs[0].size;
      SubstituteFirst(lines, rs, from);
      OutsideTail(rs, k);
      GrowthFirst(rs, k);
      var rest := Substitute(lines, rs[1..], next);
      if k < s {
        NoGrowthBefore(rs[1..], next, |lines|, k);
        InFirstPart(lines, from, s, k, rs[0].lines + rest);
      } else {
        OutsideUnchanged(lines, rs[1..], next, k);
        InLastPart(lines[from..s], rs[0].lines, rest, k - next + Growth(rs[1..], k));
      }
    }
  }

  /** Lines outside keep their order. */
  lemma {:induction false} OutsideInOrder(lines: seq<FileLine>, rs: seq<Replacement>, from: nat, k: nat, l: nat)
    requires Disjoint(rs, from, |lines|) && from <= k < l < |lines| && Outside(rs, k) && Outside(rs, l)
    ensures k + Growth(rs, k) < l + Growth(rs, l)
    decreases |rs|
  {
    if rs != [] {
      hide *;
      var next := rs[0].start + rs[0].size;
      SubstituteFirst(lines, rs, from);
      OutsideTail(rs, k);
      OutsideTail(rs, l);
      GrowthFirst(rs, k);
      GrowthFirst(rs, l);
      if l < rs[0].start {
        NoGrowthBefore(rs[1..], next, |lines|, k);
        NoGrowthBefore(rs[1..], next, |lines|, l);
      } else if k < rs[0].start {
        NoGrowthBefore(rs[1..], next, |lines|, k);
        OutsideUnchanged(lines, rs[1..], next, l);
      } else {
        OutsideInOrder(lines, rs[1..], next, k, l);
      }
    }
  }
}
