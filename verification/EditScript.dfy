/** Edit scripts between two line sequences, and the capped greedy search that finds a shortest one. */
module EditScript {

  datatype Kind = Keep | Delete | Insert

  /** One step of a script; `oldLine` and `newLine` are the one-based positions it starts from. */
  datatype Edit = Edit(kind: Kind, text: string, oldLine: int, newLine: int)

  const MAXIMUM_EDIT_DISTANCE: nat := 1024

  // ---------------------------------------------------------------------------
  // What a script means
  // ---------------------------------------------------------------------------

  /** The lines a script keeps or deletes. */
  ghost function OldSide(es: seq<Edit>): seq<string> {
    if es == [] then []
    else (if es[0].kind.Insert? then [] else [es[0].text]) + OldSide(es[1..])
  }

  /** The lines a script keeps or inserts. */
  ghost function NewSide(es: seq<Edit>): seq<string> {
    if es == [] then []
    else (if es[0].kind.Delete? then [] else [es[0].text]) + NewSide(es[1..])
  }

  /** The number of insertions plus deletions. */
  ghost function Changes(es: seq<Edit>): nat {
    if es == [] then 0 else (if es[0].kind.Keep? then 0 else 1) + Changes(es[1..])
  }

  ghost predicate Spells(es: seq<Edit>, a: seq<string>, b: seq<string>) {
    OldSide(es) == a && NewSide(es) == b
  }

  /** Every edit's line numbers are one plus the lines consumed before it. */
  ghost predicate Numbered(es: seq<Edit>) {
    forall k | 0 <= k < |es| ::
      es[k].oldLine == 1 + |OldSide(es[..k])| && es[k].newLine == 1 + |NewSide(es[..k])|
  }

  ghost predicate Script(es: seq<Edit>, a: seq<string>, b: seq<string>) {
    Spells(es, a, b) && Numbered(es)
  }

  /** No script from `a` to `b` changes fewer lines than `es`. */
  ghost predicate Shortest(es: seq<Edit>, a: seq<string>, b: seq<string>) {
    forall t | Spells(t, a, b) :: Changes(es) <= Changes(t)
  }

  /** Every script from `a` to `b` changes more lines than the search is allowed to try. */
  ghost predicate TooFar(a: seq<string>, b: seq<string>) {
    forall t | Spells(t, a, b) :: Changes(t) > MAXIMUM_EDIT_DISTANCE
  }

  // ---------------------------------------------------------------------------
  // Scripts as walks on the edit grid
  // ---------------------------------------------------------------------------

  /** `e` is a numbered step from grid point `(i, j)`. */
  ghost predicate StepAt(e: Edit, a: seq<string>, b: seq<string>, i: nat, j: nat) {
    e.oldLine == i + 1 && e.newLine == j + 1 &&
    match e.kind
    case Keep => i < |a| && j < |b| && e.text == a[i] && e.text == b[j]
    case Delete => i < |a| && e.text == a[i]
    case Insert => j < |b| && e.text == b[j]
  }

  ghost function OldStep(e: Edit): nat { if e.kind.Insert? then 0 else 1 }

  ghost function NewStep(e: Edit): nat { if e.kind.Delete? then 0 else 1 }

  /** `es` leads from `(i, j)` to `(p, q)`. */
  ghost predicate Walks(es: seq<Edit>, a: seq<string>, b: seq<string>, i: nat, j: nat, p: nat, q: nat) {
    if es == [] then i == p && j == q
    else StepAt(es[0], a, b, i, j) && Walks(es[1..], a, b, i + OldStep(es[0]), j + NewStep(es[0]), p, q)
  }

  lemma {:induction false} WalksThenStep(es: seq<Edit>, e: Edit, a: seq<string>, b: seq<string>, i: nat, j: nat, p: nat, q: nat)
    requires Walks(es, a, b, i, j, p, q) && StepAt(e, a, b, p, q)
    ensures Walks(es + [e], a, b, i, j, p + OldStep(e), q + NewStep(e))
    ensures Changes(es + [e]) == Changes(es) + if e.kind.Keep? then 0 else 1
  {
    if es != [] {
      assert (es + [e])[1..] == es[1..] + [e];
      WalksThenStep(es[1..], e, a, b, i + OldStep(es[0]), j + NewStep(es[0]), p, q);
    }
  }

  lemma SliceFirst(s: seq<string>, i: nat, j: nat)
    requires i < j <= |s|
    ensures s[i..j] == [s[i]] + s[i + 1..j]
  {
  }

  /** A walk spells exactly the lines between its end points. */
  lemma {:induction false} WalkSpells(es: seq<Edit>, a: seq<string>, b: seq<string>, i: nat, j: nat, p: nat, q: nat)
    requires Walks(es, a, b, i, j, p, q) && p <= |a| && q <= |b|
    ensures i <= p && j <= q
    ensures OldSide(es) == a[i..p] && NewSide(es) == b[j..q]
  {
    if es != [] {
      var e := es[0];
      WalkSpells(es[1..], a, b, i + OldStep(e), j + NewStep(e), p, q);
      if !e.kind.Insert? {
        SliceFirst(a, i, p);
      }
      if !e.kind.Delete? {
        SliceFirst(b, j, q);
      }
    }
  }

  lemma {:induction false} SidesOfPrefix(es: seq<Edit>, k: nat)
    requires k < |es|
    ensures |OldSide(es[..k + 1])| == |OldSide(es[..k])| + OldStep(es[k])
    ensures |NewSide(es[..k + 1])| == |NewSide(es[..k])| + NewStep(es[k])
  {
    if k > 0 {
      assert es[..k + 1][1..] == es[1..][..k] && es[..k][1..] == es[1..][..k - 1];
      SidesOfPrefix(es[1..], k - 1);
    }
  }

  lemma {:induction false} WalkNumbers(es: seq<Edit>, a: seq<string>, b: seq<string>, i: nat, j: nat, p: nat, q: nat, k: nat)
    requires Walks(es, a, b, i, j, p, q) && k < |es|
    ensures es[k].oldLine == i + 1 + |OldSide(es[..k])| && es[k].newLine == j + 1 + |NewSide(es[..k])|
  {
    if k > 0 {
      assert es[..k][1..] == es[1..][..k - 1];
      WalkNumbers(es[1..], a, b, i + OldStep(es[0]), j + NewStep(es[0]), p, q, k - 1);
    }
  }

  lemma WalkIsScript(es: seq<Edit>, a: seq<string>, b: seq<string>)
    requires Walks(es, a, b, 0, 0, |a|, |b|)
    ensures Script(es, a, b)
  {
    WalkSpells(es, a, b, 0, 0, |a|, |b|);
    assert a[0..|a|] == a && b[0..|b|] == b;
    forall k | 0 <= k < |es|
      ensures es[k].oldLine == 1 + |OldSide(es[..k])| && es[k].newLine == 1 + |NewSide(es[..k])|
    {
      WalkNumbers(es, a, b, 0, 0, |a|, |b|, k);
    }
  }

  // ---------------------------------------------------------------------------
  // Which grid points a given number of deletions and insertions reaches
  // ---------------------------------------------------------------------------

  ghost predicate Reach(a: seq<string>, b: seq<string>, x: nat, y: nat, dels: nat, inss: nat)
    requires x <= |a| && y <= |b|
    decreases x + y
  {
    || (x == 0 && y == 0 && dels == 0 && inss == 0)
    || (x > 0 && y > 0 && a[x - 1] == b[y - 1] && Reach(a, b, x - 1, y - 1, dels, inss))
    || (x > 0 && dels > 0 && Reach(a, b, x - 1, y, dels - 1, inss))
    || (y > 0 && inss > 0 && Reach(a, b, x, y - 1, dels, inss - 1))
  }

  lemma ReachOneMore(a: seq<string>, b: seq<string>, x: nat, y: nat, dels: nat, inss: nat)
    requires x <= |a| && y <= |b| && Reach(a, b, x, y, dels, inss)
    ensures x < |a| && y < |b| && a[x] == b[y] ==> Reach(a, b, x + 1, y + 1, dels, inss)
    ensures x < |a| ==> Reach(a, b, x + 1, y, dels + 1, inss)
    ensures y < |b| ==> Reach(a, b, x, y + 1, dels, inss + 1)
  {
  }

  lemma DropFirst(s: seq<string>, i: nat, t: string, rest: seq<string>)
    requires i <= |s| && [t] + rest == s[i..]
    ensures i < |s| && s[i] == t && rest == s[i + 1..]
  {
    assert s[i..][0] == t;
    assert ([t] + rest)[1..] == s[i..][1..];
  }

  /** Any script, however it was made, reaches the end of what it spells. */
  lemma {:induction false} ScriptReaches(t: seq<Edit>, a: seq<string>, b: seq<string>, i: nat, j: nat, dels: nat, inss: nat)
    returns (dels': nat, inss': nat)
    requires i <= |a| && j <= |b| && Reach(a, b, i, j, dels, inss)
    requires OldSide(t) == a[i..] && NewSide(t) == b[j..]
    ensures dels' + inss' == dels + inss + Changes(t) && Reach(a, b, |a|, |b|, dels', inss')
  {
    dels', inss' := dels, inss;
    if t != [] {
      var e, rest := t[0], t[1..];
      ReachOneMore(a, b, i, j, dels, inss);
      assert !e.kind.Insert? ==> i < |a| && a[i] == e.text && OldSide(rest) == a[i + 1..] by {
        if !e.kind.Insert? { DropFirst(a, i, e.text, OldSide(rest)); }
      }
      assert e.kind.Insert? ==> OldSide(rest) == a[i..];
      assert !e.kind.Delete? ==> j < |b| && b[j] == e.text && NewSide(rest) == b[j + 1..] by {
        if !e.kind.Delete? { DropFirst(b, j, e.text, NewSide(rest)); }
      }
      assert e.kind.Delete? ==> NewSide(rest) == b[j..];
      dels', inss' := ScriptReaches(rest, a, b, i + OldStep(e), j + NewStep(e),
                                    dels + if e.kind.Delete? then 1 else 0, inss + if e.kind.Insert? then 1 else 0);
    }
  }

  lemma {:induction false} EverythingReaches(a: seq<string>, b: seq<string>, x: nat, y: nat)
    requires x <= |a| && y <= |b|
    ensures Reach(a, b, x, y, x, y)
    decreases x + y
  {
    if x > 0 {
      EverythingReaches(a, b, x - 1, y);
    } else if y > 0 {
      EverythingReaches(a, b, x, y - 1);
    }
  }

  // ---------------------------------------------------------------------------
  // The furthest points, as the search computes them
  // ---------------------------------------------------------------------------

  /** Follow equal lines from `(x, y)`. */
  ghost function Slide(a: seq<string>, b: seq<string>, x: nat, y: nat): (r: nat)
    ensures r >= x
    decreases |a| - x
  {
    if x < |a| && y < |b| && a[x] == b[y] then Slide(a, b, x + 1, y + 1) else x
  }

  /**
   * How far along the old side the search gets with `dels` deletions and `inss` insertions.
   * The point is on diagonal `dels - inss`, belongs to round `dels + inss`, and may lie outside the grid.
   */
  ghost function Furthest(a: seq<string>, b: seq<string>, dels: nat, inss: nat): (x: nat)
    ensures x >= dels
    decreases dels + inss, 1
  {
    Slide(a, b, Start(a, b, dels, inss), Start(a, b, dels, inss) - dels + inss)
  }

  /** Where a round enters a diagonal: one step right or down from the better neighbour. */
  ghost function Start(a: seq<string>, b: seq<string>, dels: nat, inss: nat): (x: nat)
    ensures x >= dels
    decreases dels + inss, 0
  {
    if dels == 0 && inss == 0 then 0
    else if dels == 0 then Furthest(a, b, dels, inss - 1)
    else if inss == 0 then Furthest(a, b, dels - 1, inss) + 1
    else
      var right, down := Furthest(a, b, dels - 1, inss) + 1, Furthest(a, b, dels, inss - 1);
      if right > down then right else down
  }

  /** The lines from `low` up to `high` of the old side equal those on diagonal `k` of the new side. */
  ghost predicate EqualRun(a: seq<string>, b: seq<string>, low: int, high: int, k: int) {
    forall x | low <= x < high :: 0 <= x < |a| && 0 <= x - k < |b| && a[x] == b[x - k]
  }

  lemma {:induction false} SlideIsEqualRun(a: seq<string>, b: seq<string>, x: nat, y: nat)
    ensures EqualRun(a, b, x, Slide(a, b, x, y), x - y)
    decreases |a| - x
  {
    if x < |a| && y < |b| && a[x] == b[y] {
      SlideIsEqualRun(a, b, x + 1, y + 1);
    }
  }

  lemma {:induction false} SlideStops(a: seq<string>, b: seq<string>, x: nat, y: nat)
    ensures var r := Slide(a, b, x, y); !(r < |a| && r - x + y < |b| && a[r] == b[r - x + y])
    decreases |a| - x
  {
    if x < |a| && y < |b| && a[x] == b[y] {
      SlideStops(a, b, x + 1, y + 1);
    }
  }

  lemma KeepIsBounded(a: seq<string>, b: seq<string>, x: nat, y: nat, dels: nat, inss: nat)
    requires x < |a| && y < |b| && a[x] == b[y]
    requires x - y == dels - inss && x <= Furthest(a, b, dels, inss)
    ensures x < Furthest(a, b, dels, inss)
  {
    var s := Start(a, b, dels, inss);
    SlideStops(a, b, s, s - dels + inss);
  }

  lemma FurthestGrows(a: seq<string>, b: seq<string>, dels: nat, inss: nat)
    ensures dels > 0 ==> Furthest(a, b, dels, inss) >= Furthest(a, b, dels - 1, inss) + 1
    ensures inss > 0 ==> Furthest(a, b, dels, inss) >= Furthest(a, b, dels, inss - 1)
  {
    assert Furthest(a, b, dels, inss) >= Start(a, b, dels, inss);
  }

  /** Completeness: no point reached with the same deletions and insertions is further along than the recorded one. */
  lemma {:induction false} ReachIsBounded(a: seq<string>, b: seq<string>, x: nat, y: nat, dels: nat, inss: nat)
    requires x <= |a| && y <= |b| && Reach(a, b, x, y, dels, inss)
    ensures x - y == dels - inss && x <= Furthest(a, b, dels, inss)
    decreases x + y
  {
    FurthestGrows(a, b, dels, inss);
    if x > 0 && y > 0 && a[x - 1] == b[y - 1] && Reach(a, b, x - 1, y - 1, dels, inss) {
      ReachIsBounded(a, b, x - 1, y - 1, dels, inss);
      KeepIsBounded(a, b, x - 1, y - 1, dels, inss);
    } else if x > 0 && dels > 0 && Reach(a, b, x - 1, y, dels - 1, inss) {
      ReachIsBounded(a, b, x - 1, y, dels - 1, inss);
    } else if y > 0 && inss > 0 && Reach(a, b, x, y - 1, dels, inss - 1) {
      ReachIsBounded(a, b, x, y - 1, dels, inss - 1);
    }
  }

  ghost function Beyond(x: int, limit: nat): nat { if x > limit then x - limit else 0 }

  ghost function Within(x: nat, limit: nat): nat { if x > limit then limit else x }

  lemma {:induction false} ReachSlides(a: seq<string>, b: seq<string>, x: nat, y: nat, dels: nat, inss: nat)
    requires x <= |a| && y <= |b| && Reach(a, b, x, y, dels, inss)
    ensures var r := Slide(a, b, x, y); r <= |a| && r - x + y <= |b| && Reach(a, b, r, r - x + y, dels, inss)
    decreases |a| - x
  {
    if x < |a| && y < |b| && a[x] == b[y] {
      ReachOneMore(a, b, x, y, dels, inss);
      ReachSlides(a, b, x + 1, y + 1, dels, inss);
    }
  }

  /** `(x, y)`, pulled back onto the grid, is reached with one change less for every step it lies outside. */
  ghost predicate ReachedWithin(a: seq<string>, b: seq<string>, x: nat, y: nat, dels: nat, inss: nat) {
    Beyond(x, |a|) <= dels && Beyond(y, |b|) <= inss &&
    Reach(a, b, Within(x, |a|), Within(y, |b|), dels - Beyond(x, |a|), inss - Beyond(y, |b|))
  }

  lemma StepIsReachedWithin(a: seq<string>, b: seq<string>, x: nat, y: nat, dels: nat, inss: nat)
    requires ReachedWithin(a, b, x, y, dels, inss)
    ensures ReachedWithin(a, b, x + 1, y, dels + 1, inss)
    ensures ReachedWithin(a, b, x, y + 1, dels, inss + 1)
  {
    ReachOneMore(a, b, Within(x, |a|), Within(y, |b|), dels - Beyond(x, |a|), inss - Beyond(y, |b|));
  }

  lemma OriginIsReached(a: seq<string>, b: seq<string>)
    ensures ReachedWithin(a, b, 0, 0, 0, 0)
  {
  }

  lemma StartComesFrom(a: seq<string>, b: seq<string>, dels: nat, inss: nat)
    ensures var s := Start(a, b, dels, inss);
            || (dels == 0 && inss == 0 && s == 0)
            || (inss > 0 && s == Furthest(a, b, dels, inss - 1))
            || (dels > 0 && s == Furthest(a, b, dels - 1, inss) + 1)
  {
    hide Furthest;
  }

  lemma {:induction false} StartIsReached(a: seq<string>, b: seq<string>, dels: nat, inss: nat)
    ensures var s := Start(a, b, dels, inss); ReachedWithin(a, b, s, s - dels + inss, dels, inss)
    decreases dels + inss, 0
  {
    hide Start, Furthest, ReachedWithin;
    var s := Start(a, b, dels, inss);
    StartComesFrom(a, b, dels, inss);
    if inss > 0 && s == Furthest(a, b, dels, inss - 1) {
      FurthestIsReached(a, b, dels, inss - 1);
      StepIsReachedWithin(a, b, s, s - dels + (inss - 1), dels, inss - 1);
    } else if dels > 0 {
      FurthestIsReached(a, b, dels - 1, inss);
      StepIsReachedWithin(a, b, s - 1, s - 1 - (dels - 1) + inss, dels - 1, inss);
    } else {
      OriginIsReached(a, b);
    }
  }

  /** Soundness: every point the search records is reached, once pulled back onto the grid. */
  lemma {:induction false} FurthestIsReached(a: seq<string>, b: seq<string>, dels: nat, inss: nat)
    ensures var x := Furthest(a, b, dels, inss); ReachedWithin(a, b, x, x - dels + inss, dels, inss)
    decreases dels + inss, 1
  {
    StartIsReached(a, b, dels, inss);
    var s := Start(a, b, dels, inss);
    if s <= |a| && s - dels + inss <= |b| {
      ReachSlides(a, b, s, s - dels + inss, dels, inss);
    }
  }

  // ---------------------------------------------------------------------------
  // The search
  // ---------------------------------------------------------------------------

  /** The search array holds the furthest points of round `d` with fewer than `limit` deletions. */
  ghost predicate RowBefore(row: seq<int>, a: seq<string>, b: seq<string>, d: nat, offset: int, limit: nat) {
    d < offset && offset + d + 1 < |row| &&
    forall dels: nat, inss: nat | dels + inss == d && dels < limit :: row[offset + dels - inss] == Furthest(a, b, dels, inss)
  }

  ghost predicate RowIs(row: seq<int>, a: seq<string>, b: seq<string>, d: nat, offset: int) {
    RowBefore(row, a, b, d, offset, d + 1)
  }

  ghost predicate TraceIs(trace: seq<seq<int>>, a: seq<string>, b: seq<string>, distance: nat, offset: int) {
    |trace| == distance + 1 && forall e: nat | 0 < e <= distance :: RowIs(trace[e], a, b, e - 1, offset)
  }

  ghost predicate PassesEnd(a: seq<string>, b: seq<string>, dels: nat, inss: nat) {
    Furthest(a, b, dels, inss) >= |a| && Furthest(a, b, dels, inss) - dels + inss >= |b|
  }

  /** Round `d` does not pass the end of the grid with fewer than `limit` deletions. */
  ghost predicate NoStopBefore(a: seq<string>, b: seq<string>, d: nat, limit: nat) {
    forall dels: nat, inss: nat | dels + inss == d && dels < limit :: !PassesEnd(a, b, dels, inss)
  }

  /** The end of the grid is not reached with fewer than `d` changes. */
  ghost predicate NotReachedBefore(a: seq<string>, b: seq<string>, d: nat) {
    forall dels: nat, inss: nat | dels + inss < d :: !Reach(a, b, |a|, |b|, dels, inss)
  }

  lemma NothingSearchedYet(row: seq<int>, a: seq<string>, b: seq<string>, d: nat, offset: int)
    requires d < offset && offset + d + 1 < |row|
    ensures RowBefore(row, a, b, d, offset, 0) && NoStopBefore(a, b, d, 0) && NotReachedBefore(a, b, 0)
  {
  }

  /** Recording one diagonal leaves the neighbouring ones, which belong to the round before. */
  lemma RecordDiagonal(row: seq<int>, a: seq<string>, b: seq<string>, dels: nat, inss: nat, offset: int)
    requires RowBefore(row, a, b, dels + inss, offset, dels) && NoStopBefore(a, b, dels + inss, dels)
    ensures var row' := row[offset + dels - inss := Furthest(a, b, dels, inss)];
            && RowBefore(row', a, b, dels + inss, offset, dels + 1)
            && (dels + inss > 0 && RowIs(row, a, b, dels + inss - 1, offset) ==> RowIs(row', a, b, dels + inss - 1, offset))
    ensures !PassesEnd(a, b, dels, inss) ==> NoStopBefore(a, b, dels + inss, dels + 1)
  {
    hide Furthest;
  }

  lemma NotReachedMeansLonger(a: seq<string>, b: seq<string>, d: nat)
    requires NotReachedBefore(a, b, d)
    ensures forall t | Spells(t, a, b) :: Changes(t) >= d
  {
    forall t | Spells(t, a, b)
      ensures Changes(t) >= d
    {
      var dels, inss := ScriptReaches(t, a, b, 0, 0, 0, 0);
    }
  }

  lemma IsShortest(es: seq<Edit>, a: seq<string>, b: seq<string>, d: nat)
    requires Changes(es) == d && forall t | Spells(t, a, b) :: Changes(t) >= d
    ensures Shortest(es, a, b)
  {
    hide Spells, Changes;
  }

  lemma FoundIsShortest(es: seq<Edit>, a: seq<string>, b: seq<string>, d: nat)
    requires NotReachedBefore(a, b, d) && Walks(es, a, b, 0, 0, |a|, |b|) && Changes(es) == d
    ensures Script(es, a, b) && Shortest(es, a, b)
  {
    hide Walks, Changes, Script, Shortest, NotReachedBefore;
    WalkIsScript(es, a, b);
    NotReachedMeansLonger(a, b, d);
    IsShortest(es, a, b, d);
  }

  /** The cap only bites beyond it: without it every pair of files is reached within the sum of their lengths. */
  lemma NotReachedMeansTooFar(a: seq<string>, b: seq<string>, d: nat)
    requires NotReachedBefore(a, b, d) && (d > |a| + |b| || d > MAXIMUM_EDIT_DISTANCE)
    ensures TooFar(a, b)
  {
    NotReachedMeansLonger(a, b, d);
    EverythingReaches(a, b, |a|, |b|);
    hide Spells, Changes;
  }

  lemma EndTest(a: seq<string>, b: seq<string>, dels: nat, inss: nat)
    ensures var x := Furthest(a, b, dels, inss); PassesEnd(a, b, dels, inss) <==> x >= |a| && x - dels + inss >= |b|
  {
  }

  lemma TraceComplete(trace: seq<seq<int>>, a: seq<string>, b: seq<string>, distance: nat, offset: int)
    requires |trace| == distance + 1 && forall e: nat | 0 < e <= distance :: RowIs(trace[e], a, b, e - 1, offset)
    ensures TraceIs(trace, a, b, distance, offset)
  {
  }

  lemma RoundWithoutStop(row: seq<int>, a: seq<string>, b: seq<string>, d: nat, offset: int)
    requires NotReachedBefore(a, b, d) && NoStopBefore(a, b, d, d + 1)
    requires RowBefore(row, a, b, d, offset, d + 1)
    ensures NotReachedBefore(a, b, d + 1) && RowIs(row, a, b, d, offset)
  {
    forall dels: nat, inss: nat | dels + inss == d
      ensures !Reach(a, b, |a|, |b|, dels, inss)
    {
      assert !PassesEnd(a, b, dels, inss);
      if Reach(a, b, |a|, |b|, dels, inss) {
        ReachIsBounded(a, b, |a|, |b|, dels, inss);
      }
    }
  }

  /** The first round that passes the corner stops exactly on it. */
  lemma StopsAtCorner(a: seq<string>, b: seq<string>, dels: nat, inss: nat)
    requires NotReachedBefore(a, b, dels + inss) && PassesEnd(a, b, dels, inss)
    ensures Furthest(a, b, dels, inss) == |a| && dels - inss == |a| - |b|
  {
    FurthestIsReached(a, b, dels, inss);
  }

  /** The test the search and the backtracking share: enter the diagonal by a step down. */
  predicate GoesDown(row: seq<int>, round: nat, diagonal: int, offset: int)
    requires 0 <= round + diagonal && diagonal <= round
    requires round < offset && offset + round < |row|
  {
    diagonal + round == 0 || (diagonal != round && row[offset + diagonal - 1] < row[offset + diagonal + 1])
  }

  lemma EntersFrom(row: seq<int>, a: seq<string>, b: seq<string>, dels: nat, inss: nat, offset: int)
    requires dels + inss < offset && offset + dels + inss < |row|
    requires dels + inss > 0 ==> RowIs(row, a, b, dels + inss - 1, offset)
    requires dels + inss == 0 ==> offset + 1 < |row| && row[offset + 1] == 0
    ensures var index := offset + dels - inss;
            Start(a, b, dels, inss) ==
            if GoesDown(row, dels + inss, dels - inss, offset) then row[index + 1] else row[index - 1] + 1
    ensures Furthest(a, b, dels, inss) == Slide(a, b, Start(a, b, dels, inss), Start(a, b, dels, inss) - dels + inss)
    ensures dels + inss > 0 ==>
              if GoesDown(row, dels + inss, dels - inss, offset)
              then inss > 0 && Start(a, b, dels, inss) == Furthest(a, b, dels, inss - 1)
              else dels > 0 && Start(a, b, dels, inss) == Furthest(a, b, dels - 1, inss) + 1
  {
    assert dels > 0 ==> row[offset + (dels - 1) - inss] == Furthest(a, b, dels - 1, inss);
    assert inss > 0 ==> row[offset + dels - (inss - 1)] == Furthest(a, b, dels, inss - 1);
  }

  /** The inner loop of the search: advance both sides over equal lines. */
  method FollowEqualLines(a: seq<string>, b: seq<string>, startX: nat, startY: nat) returns (x: nat)
    ensures x == Slide(a, b, startX, startY)
  {
    x := startX;
    var y := startY;
    while x >= 0 && y >= 0 && x < |a| && y < |b| && a[x] == b[y]
      invariant y - x == startY - startX
      invariant Slide(a, b, x, y) == Slide(a, b, startX, startY)
      decreases |a| - x
    {
      x := x + 1;
      y := y + 1;
    }
  }

  method ShortestEditScript(a: seq<string>, b: seq<string>) returns (es: seq<Edit>)
    ensures Script(es, a, b)
    ensures Shortest(es, a, b) || forall t | Spells(t, a, b) :: Changes(t) > 1024
  {
    hide *;
    var maximum := |a| + |b|;
    if maximum > MAXIMUM_EDIT_DISTANCE {
      maximum := MAXIMUM_EDIT_DISTANCE;
    }
    var offset := maximum + 1;
    var furthest := new int[2 * maximum + 3](_ => 0);
    furthest[offset + 1] := 0;
    var trace: seq<seq<int>> := [];
    var distance := 0;
    NothingSearchedYet(furthest[..], a, b, 0, offset);
    while distance <= maximum
      invariant 0 <= distance <= maximum + 1
      invariant distance > 0 ==> RowIs(furthest[..], a, b, distance - 1, offset)
      invariant distance == 0 ==> furthest[offset + 1] == 0
      invariant |trace| == distance
      invariant forall e: nat | 0 < e < distance :: RowIs(trace[e], a, b, e - 1, offset)
      invariant NotReachedBefore(a, b, distance)
    {
      trace := trace + [furthest[..]];
      var diagonal := -distance;
      ghost var dels := 0;
      NothingSearchedYet(furthest[..], a, b, distance, offset);
      while diagonal <= distance
        invariant dels <= distance + 1 && diagonal == 2 * dels - distance
        invariant distance == 0 && dels == 0 ==> furthest[offset + 1] == 0
        invariant RowBefore(furthest[..], a, b, distance, offset, dels)
        invariant distance > 0 ==> RowIs(furthest[..], a, b, distance - 1, offset)
        invariant NoStopBefore(a, b, distance, dels)
      {
        ghost var inss := distance - dels;
        ghost var row := furthest[..];
        var index := offset + diagonal;
        var x := 0;
        EntersFrom(row, a, b, dels, inss, offset);
        if GoesDown(furthest[..], distance, diagonal, offset) {
          x := furthest[index + 1];
        } else {
          x := furthest[index - 1] + 1;
        }
        x := FollowEqualLines(a, b, x, x - diagonal);
        var y := x - diagonal;
        furthest[index] := x;
        assert furthest[..] == row[index := x];
        RecordDiagonal(row, a, b, dels, inss, offset);
        assert PassesEnd(a, b, dels, inss) <==> x >= |a| && y >= |b| by { EndTest(a, b, dels, inss); }
        if x >= |a| && y >= |b| {
          StopsAtCorner(a, b, dels, inss);
          TraceComplete(trace, a, b, distance, offset);
          es := BacktrackEdits(a, b, trace, distance, offset);
          FoundIsShortest(es, a, b, distance);
          return;
        }
        diagonal := diagonal + 2;
        dels := dels + 1;
      }
      RoundWithoutStop(furthest[..], a, b, distance, offset);
      distance := distance + 1;
    }
    NotReachedMeansTooFar(a, b, distance);
    TooFarMeans(a, b);
    es := FallbackEditScript(a, b);
  }

  lemma TooFarMeans(a: seq<string>, b: seq<string>)
    requires TooFar(a, b)
    ensures forall t | Spells(t, a, b) :: Changes(t) > 1024
  {
  }

  // ---------------------------------------------------------------------------
  // Reading the script back out of the snapshots
  // ---------------------------------------------------------------------------

  ghost function Reverse(s: seq<Edit>): (r: seq<Edit>)
    ensures |r| == |s|
    ensures forall k | 0 <= k < |s| :: r[k] == s[|s| - 1 - k]
  {
    if s == [] then [] else [s[|s| - 1]] + Reverse(s[..|s| - 1])
  }

  /** Prepending to the walk is appending to the list that is reversed at the end. */
  lemma PushReversed(s: seq<Edit>, e: Edit, a: seq<string>, b: seq<string>, i: nat, j: nat)
    requires StepAt(e, a, b, i, j) && Walks(Reverse(s), a, b, i + OldStep(e), j + NewStep(e), |a|, |b|)
    ensures Walks(Reverse(s + [e]), a, b, i, j, |a|, |b|)
    ensures Changes(Reverse(s + [e])) == Changes(Reverse(s)) + if e.kind.Keep? then 0 else 1
  {
    assert (s + [e])[..|s + [e]| - 1] == s;
    assert Reverse(s + [e])[1..] == Reverse(s);
  }

  /** What the reversed list holds while the walk is read backwards from the corner to `(x, y)`. */
  ghost predicate Backtracked(reversed: seq<Edit>, a: seq<string>, b: seq<string>, x: nat, y: nat, changes: nat) {
    x <= |a| && y <= |b| && Walks(Reverse(reversed), a, b, x, y, |a|, |b|) && Changes(Reverse(reversed)) == changes
  }

  lemma BackStep(reversed: seq<Edit>, e: Edit, a: seq<string>, b: seq<string>, x: nat, y: nat, changes: nat)
    requires StepAt(e, a, b, x, y) && Backtracked(reversed, a, b, x + OldStep(e), y + NewStep(e), changes)
    ensures Backtracked(reversed + [e], a, b, x, y, changes + if e.kind.Keep? then 0 else 1)
  {
    PushReversed(reversed, e, a, b, x, y);
  }

  lemma InsertBack(reversed: seq<Edit>, a: seq<string>, b: seq<string>, x: nat, y: nat, changes: nat)
    requires y < |b| && Backtracked(reversed, a, b, x, y + 1, changes)
    ensures Backtracked(reversed + [Edit(Insert, b[y], x + 1, y + 1)], a, b, x, y, changes + 1)
  {
    hide Backtracked;
    BackStep(reversed, Edit(Insert, b[y], x + 1, y + 1), a, b, x, y, changes);
  }

  lemma DeleteBack(reversed: seq<Edit>, a: seq<string>, b: seq<string>, x: nat, y: nat, changes: nat)
    requires x < |a| && Backtracked(reversed, a, b, x + 1, y, changes)
    ensures Backtracked(reversed + [Edit(Delete, a[x], x + 1, y + 1)], a, b, x, y, changes + 1)
  {
    hide Backtracked;
    BackStep(reversed, Edit(Delete, a[x], x + 1, y + 1), a, b, x, y, changes);
  }

  /** Walk back over kept lines, no further than either lower bound. */
  method KeepBack(a: seq<string>, b: seq<string>, fromX: nat, fromY: nat, lowX: nat, lowY: nat, reversed: seq<Edit>, ghost changes: nat)
    returns (x: nat, y: nat, r: seq<Edit>)
    requires lowX <= fromX && lowY <= fromY && Backtracked(reversed, a, b, fromX, fromY, changes)
    requires EqualRun(a, b, if lowX > lowY + fromX - fromY then lowX else lowY + fromX - fromY, fromX, fromX - fromY)
    ensures x - y == fromX - fromY && lowX <= x <= fromX && lowY <= y && (x == lowX || y == lowY)
    ensures Backtracked(r, a, b, x, y, changes)
  {
    x, y, r := fromX, fromY, reversed;
    while x > lowX && y > lowY
      invariant lowX <= x <= fromX && lowY <= y <= fromY && x - y == fromX - fromY
      invariant Backtracked(r, a, b, x, y, changes)
    {
      assert a[x - 1] == b[x - 1 - (fromX - fromY)];
      x := x - 1;
      y := y - 1;
      BackStep(r, Edit(Keep, a[x], x + 1, y + 1), a, b, x, y, changes);
      r := r + [Edit(Keep, a[x], x + 1, y + 1)];
    }
  }

  /** The snapshot before a round tells where the round entered a diagonal and which lines it then followed. */
  lemma Predecessor(row: seq<int>, a: seq<string>, b: seq<string>, offset: int, dels: nat, inss: nat)
    requires dels + inss > 0 && dels + inss < offset && offset + dels + inss < |row|
    requires RowIs(row, a, b, dels + inss - 1, offset)
    ensures var k, x := dels - inss, Furthest(a, b, dels, inss);
            if GoesDown(row, dels + inss, k, offset) then
              var p := row[offset + k + 1];
              inss > 0 && p == Furthest(a, b, dels, inss - 1) && dels <= p <= x && EqualRun(a, b, p, x, k)
            else
              var p := row[offset + k - 1];
              dels > 0 && p == Furthest(a, b, dels - 1, inss) && dels <= p + 1 <= x && EqualRun(a, b, p + 1, x, k)
  {
    EntersFrom(row, a, b, dels, inss, offset);
    var start := Start(a, b, dels, inss);
    hide *;
    SlideIsEqualRun(a, b, start, start - dels + inss);
  }

  lemma RowOfTrace(trace: seq<seq<int>>, a: seq<string>, b: seq<string>, distance: nat, offset: int, current: nat)
    requires TraceIs(trace, a, b, distance, offset) && distance < offset && 0 < current <= distance
    ensures current < |trace| && RowIs(trace[current], a, b, current - 1, offset) && offset + current < |trace[current]|
  {
  }

  lemma CornerWalk(a: seq<string>, b: seq<string>)
    ensures Backtracked([], a, b, |a|, |b|, 0)
  {
  }

  lemma WalkIsDone(reversed: seq<Edit>, a: seq<string>, b: seq<string>, changes: nat)
    requires Backtracked(reversed, a, b, 0, 0, changes)
    ensures Walks(Reverse(reversed), a, b, 0, 0, |a|, |b|) && Changes(Reverse(reversed)) == changes
  {
  }

  lemma RoundZero(a: seq<string>, b: seq<string>)
    ensures EqualRun(a, b, 0, Furthest(a, b, 0, 0), 0)
  {
    SlideIsEqualRun(a, b, 0, 0);
  }

  method BacktrackEdits(a: seq<string>, b: seq<string>, trace: seq<seq<int>>, distance: nat, offset: int)
    returns (es: seq<Edit>)
    requires TraceIs(trace, a, b, distance, offset) && distance < offset
    requires exists dels: nat, inss: nat ::
               dels + inss == distance && dels - inss == |a| - |b| && Furthest(a, b, dels, inss) == |a|
    ensures Walks(es, a, b, 0, 0, |a|, |b|) && Changes(es) == distance
  {
    hide Furthest, Start, Slide, RowIs, RowBefore, TraceIs, Backtracked, EqualRun, GoesDown, Walks, Changes, StepAt, OldStep, NewStep, Reverse;
    var x, y := |a|, |b|;
    var reversed: seq<Edit> := [];
    CornerWalk(a, b);
    var current := distance;
    ghost var dels: nat, inss: nat :|
      dels + inss == distance && dels - inss == |a| - |b| && Furthest(a, b, dels, inss) == |a|;
    while current > 0
      invariant 0 <= x <= |a| && 0 <= y <= |b| && 0 <= current <= distance
      invariant current == dels + inss && x - y == dels - inss && x == Furthest(a, b, dels, inss)
      invariant Backtracked(reversed, a, b, x, y, distance - current)
    {
      var diagonal := x - y;
      RowOfTrace(trace, a, b, distance, offset, current);
      var furthest := trace[current];
      Predecessor(furthest, a, b, offset, dels, inss);
      var previousDiagonal := diagonal - 1;
      if GoesDown(furthest, current, diagonal, offset) {
        previousDiagonal := diagonal + 1;
      }
      var previousX := furthest[offset + previousDiagonal];
      var previousY := previousX - previousDiagonal;
      x, y, reversed := KeepBack(a, b, x, y, previousX, previousY, reversed, distance - current);
      if x == previousX {
        y := y - 1;
        InsertBack(reversed, a, b, x, y, distance - current);
        reversed := reversed + [Edit(Insert, b[y], x + 1, y + 1)];
        inss := inss - 1;
      } else {
        x := x - 1;
        DeleteBack(reversed, a, b, x, y, distance - current);
        reversed := reversed + [Edit(Delete, a[x], x + 1, y + 1)];
        dels := dels - 1;
      }
      current := current - 1;
    }
    RoundZero(a, b);
    x, y, reversed := KeepBack(a, b, x, y, 0, 0, reversed, distance);
    WalkIsDone(reversed, a, b, distance);
    es := ReverseInPlace(reversed);
  }

  /** The final two-ended exchange loop. */
  method ReverseInPlace(s: seq<Edit>) returns (r: seq<Edit>)
    ensures r == Reverse(s)
  {
    r := s;
    var left, right := 0, |r| - 1;
    while left < right
      invariant |r| == |s| && 0 <= left && right == |s| - 1 - left && left <= right + 2
      invariant forall k | 0 <= k < left || right < k < |s| :: r[k] == s[|s| - 1 - k]
      invariant forall k | left <= k <= right :: r[k] == s[k]
    {
      r := r[left := r[right]][right := r[left]];
      left, right := left + 1, right - 1;
    }
  }

  // ---------------------------------------------------------------------------
  // The fallback: keep the common ends, replace the middle
  // ---------------------------------------------------------------------------

  /** `p` is the length of the longest common prefix. */
  ghost predicate LongestCommonPrefix(a: seq<string>, b: seq<string>, p: nat) {
    p <= |a| && p <= |b| && a[..p] == b[..p] && (p < |a| && p < |b| ==> a[p] != b[p])
  }

  /** `s` is the length of the longest common suffix of what is left after `p` lines. */
  ghost predicate LongestCommonSuffix(a: seq<string>, b: seq<string>, p: nat, s: nat) {
    p + s <= |a| && p + s <= |b| && a[|a| - s..] == b[|b| - s..] &&
    (p + s < |a| && p + s < |b| ==> a[|a| - s - 1] != b[|b| - s - 1])
  }

  /** `p` and `s` are the lengths of the longest common prefix and of the longest common suffix after it. */
  ghost predicate CommonEnds(a: seq<string>, b: seq<string>, p: nat, s: nat) {
    LongestCommonPrefix(a, b, p) && LongestCommonSuffix(a, b, p, s)
  }

  /** The script built so far leads from the start to `(p, q)`. */
  ghost predicate Builds(es: seq<Edit>, a: seq<string>, b: seq<string>, p: nat, q: nat, changes: nat) {
    Walks(es, a, b, 0, 0, p, q) && Changes(es) == changes
  }

  lemma BuildKeep(es: seq<Edit>, a: seq<string>, b: seq<string>, p: nat, q: nat, changes: nat)
    requires Builds(es, a, b, p, q, changes) && p < |a| && q < |b| && a[p] == b[q]
    ensures Builds(es + [Edit(Keep, a[p], p + 1, q + 1)], a, b, p + 1, q + 1, changes)
  {
    WalksThenStep(es, Edit(Keep, a[p], p + 1, q + 1), a, b, 0, 0, p, q);
  }

  lemma BuildDelete(es: seq<Edit>, a: seq<string>, b: seq<string>, p: nat, q: nat, changes: nat)
    requires Builds(es, a, b, p, q, changes) && p < |a|
    ensures Builds(es + [Edit(Delete, a[p], p + 1, q + 1)], a, b, p + 1, q, changes + 1)
  {
    WalksThenStep(es, Edit(Delete, a[p], p + 1, q + 1), a, b, 0, 0, p, q);
  }

  lemma BuildInsert(es: seq<Edit>, a: seq<string>, b: seq<string>, p: nat, q: nat, changes: nat)
    requires Builds(es, a, b, p, q, changes) && q < |b|
    ensures Builds(es + [Edit(Insert, b[q], p + 1, q + 1)], a, b, p, q + 1, changes + 1)
  {
    WalksThenStep(es, Edit(Insert, b[q], p + 1, q + 1), a, b, 0, 0, p, q);
  }

  lemma BuildNothing(a: seq<string>, b: seq<string>)
    ensures Builds([], a, b, 0, 0, 0)
  {
  }

  lemma BuildAll(es: seq<Edit>, a: seq<string>, b: seq<string>, changes: nat)
    requires Builds(es, a, b, |a|, |b|, changes)
    ensures Script(es, a, b) && Changes(es) == changes
  {
    WalkIsScript(es, a, b);
  }

  lemma CommonEndsAt(a: seq<string>, b: seq<string>, p: nat, s: nat)
    requires p + s <= |a| && p + s <= |b|
    requires forall i | 0 <= i < p :: a[i] == b[i]
    requires EqualRun(a, b, |a| - s, |a|, |a| - |b|)
    requires p < |a| && p < |b| ==> a[p] != b[p]
    requires s < |a| - p && s < |b| - p ==> a[|a| - s - 1] != b[|b| - s - 1]
    ensures CommonEnds(a, b, p, s)
  {
  }

  /** The two comparing loops. */
  method TrimCommonEnds(a: seq<string>, b: seq<string>) returns (prefix: nat, suffix: nat)
    ensures prefix + suffix <= |a| && prefix + suffix <= |b| && CommonEnds(a, b, prefix, suffix)
    ensures forall i | 0 <= i < prefix :: a[i] == b[i]
    ensures forall i | |a| - suffix <= i < |a| :: a[i] == b[i - |a| + |b|]
  {
    prefix := 0;
    while prefix < |a| && prefix < |b| && a[prefix] == b[prefix]
      invariant prefix <= |a| && prefix <= |b| && forall i | 0 <= i < prefix :: a[i] == b[i]
    {
      prefix := prefix + 1;
    }
    suffix := 0;
    while suffix < |a| - prefix && suffix < |b| - prefix && a[|a| - suffix - 1] == b[|b| - suffix - 1]
      invariant prefix + suffix <= |a| && prefix + suffix <= |b|
      invariant EqualRun(a, b, |a| - suffix, |a|, |a| - |b|)
    {
      suffix := suffix + 1;
    }
    CommonEndsAt(a, b, prefix, suffix);
  }

  method FallbackEditScript(a: seq<string>, b: seq<string>) returns (es: seq<Edit>)
    ensures Script(es, a, b)
    ensures exists p: nat, s: nat :: CommonEnds(a, b, p, s) && Changes(es) == |a| + |b| - 2 * p - 2 * s
  {
    var prefix, suffix := TrimCommonEnds(a, b);
    hide *;
    es := [];
    BuildNothing(a, b);
    var index := 0;
    while index < prefix
      invariant index <= prefix && Builds(es, a, b, index, index, 0)
    {
      BuildKeep(es, a, b, index, index, 0);
      es := es + [Edit(Keep, a[index], index + 1, index + 1)];
      index := index + 1;
    }
    index := prefix;
    while index < |a| - suffix
      invariant prefix <= index <= |a| - suffix && Builds(es, a, b, index, prefix, index - prefix)
    {
      BuildDelete(es, a, b, index, prefix, index - prefix);
      es := es + [Edit(Delete, a[index], index + 1, prefix + 1)];
      index := index + 1;
    }
    index := prefix;
    while index < |b| - suffix
      invariant prefix <= index <= |b| - suffix
      invariant Builds(es, a, b, |a| - suffix, index, |a| - suffix - prefix + index - prefix)
    {
      BuildInsert(es, a, b, |a| - suffix, index, |a| - suffix - prefix + index - prefix);
      es := es + [Edit(Insert, b[index], |a| - suffix + 1, index + 1)];
      index := index + 1;
    }
    index := 0;
    while index < suffix
      invariant 0 <= index <= suffix
      invariant Builds(es, a, b, |a| - suffix + index, |b| - suffix + index, |a| + |b| - 2 * prefix - 2 * suffix)
    {
      var oldIndex := |a| - suffix + index;
      var newIndex := |b| - suffix + index;
      BuildKeep(es, a, b, oldIndex, newIndex, |a| + |b| - 2 * prefix - 2 * suffix);
      es := es + [Edit(Keep, a[oldIndex], oldIndex + 1, newIndex + 1)];
      index := index + 1;
    }
    BuildAll(es, a, b, |a| + |b| - 2 * prefix - 2 * suffix);
  }
}
