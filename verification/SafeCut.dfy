/**
 * Where a session's history may be cut for compaction: enough complete messages stay, nothing incomplete goes,
 * and no tool call is separated from its result.
 */
module SafeCut {
  datatype Part = Call(id: string) | Result(id: string) | Other

  datatype Message = Message(sequence: int, complete: bool, parts: seq<Part>)

  // ---------------------------------------------------------------------------
  // Tool-call groups
  // ---------------------------------------------------------------------------

  /** A part together with the index of its message. */
  datatype Item = Item(message: nat, part: Part)

  function Tagged(i: nat, parts: seq<Part>): seq<Item> { seq(|parts|, k requires 0 <= k < |parts| => Item(i, parts[k])) }

  /** All parts in order. */
  function Flat(ms: seq<Message>): seq<Item> {
    if ms == [] then [] else Flat(ms[..|ms| - 1]) + Tagged(|ms| - 1, ms[|ms| - 1].parts)
  }

  /** What the scan knows: where each call is, and where its last result is, or -1. */
  datatype Groups = Groups(starts: map<string, nat>, ends: map<string, int>)

  function After(g: Groups, item: Item): Groups {
    match item.part
    case Call(id) => Groups(g.starts[id := item.message], g.ends[id := -1])
    case Result(id) => if id != "" && id in g.starts then g.(ends := g.ends[id := item.message]) else g
    case Other => g
  }

  function Scan(items: seq<Item>): (g: Groups)
    ensures g.starts.Keys == g.ends.Keys
  {
    if items == [] then Groups(map[], map[]) else After(Scan(items[..|items| - 1]), items[|items| - 1])
  }

  /** A cut at `index` would separate the call from its result, or compact a call that has none. */
  predicate Inside(g: Groups, id: string, index: int)
    requires id in g.starts && id in g.ends
  {
    g.starts[id] < index && (g.ends[id] < 0 || index <= g.ends[id])
  }

  predicate NoneInside(g: Groups, index: int)
    requires g.starts.Keys == g.ends.Keys
  {
    forall id | id in g.starts :: !Inside(g, id, index)
  }

  /** Two groups overlap without one lying in the other; a call without a result extends to infinity. */
  predicate Crossing(g: Groups, a: string, b: string)
    requires a in g.starts && b in g.starts && g.starts.Keys == g.ends.Keys
  {
    && g.starts[a] < g.starts[b] <= g.ends[a]
    && (g.ends[b] < 0 || g.ends[a] < g.ends[b])
  }

  predicate NonCrossing(g: Groups)
    requires g.starts.Keys == g.ends.Keys
  {
    forall a, b | a in g.starts && b in g.starts :: !Crossing(g, a, b)
  }

  /** Moving the cut before each group that it falls into, in the order in which a map yields them. */
  function Adjust(g: Groups, order: seq<string>, index: int): int
    requires g.starts.Keys == g.ends.Keys && forall id | id in order :: id in g.starts
  {
    if order == [] then index
    else Adjust(g, order[1..], if Inside(g, order[0], index) then g.starts[order[0]] else index)
  }

  /** An order in which a map may yield its entries: every key once. */
  ghost predicate IsOrder(g: Groups, order: seq<string>) {
    (forall id :: id in order <==> id in g.starts) && forall p, q | 0 <= p < q < |order| :: order[p] != order[q]
  }

  /** The last cut up to `index` that is inside no group. */
  ghost predicate IsLastCut(g: Groups, index: int, cut: int)
    requires g.starts.Keys == g.ends.Keys
  {
    cut <= index && NoneInside(g, cut) && forall j | cut < j <= index :: !NoneInside(g, j)
  }

  // ---------------------------------------------------------------------------
  // When the order of the map matters
  // ---------------------------------------------------------------------------

  /** From one cut to another by moving before one group after the other, each of which contains the cut reached. */
  predicate Backs(g: Groups, path: seq<string>, from: int, to: int)
    requires g.starts.Keys == g.ends.Keys
    decreases |path|
  {
    if path == [] then from == to
    else path[0] in g.starts && Inside(g, path[0], from) && Backs(g, path[1..], g.starts[path[0]], to)
  }

  /** Moving from `i` before `b` falls into groups, all of which end before `i`, so that they may have had their turn. */
  ghost predicate Trap(g: Groups, i: int, b: string)
    requires g.starts.Keys == g.ends.Keys
  {
    && b in g.starts && Inside(g, b, i)
    && (exists x :: x in g.starts && Inside(g, x, g.starts[b]))
    && (forall x | x in g.starts && Inside(g, x, g.starts[b]) :: 0 <= g.ends[x] < i)
  }

  ghost predicate Trapped(g: Groups, index: int)
    requires g.starts.Keys == g.ends.Keys
  {
    exists path, i, b :: Backs(g, path, index, i) && Trap(g, i, b)
  }

  lemma {:induction false} BacksConcat(g: Groups, p: seq<string>, q: seq<string>, from: int, mid: int, to: int)
    requires g.starts.Keys == g.ends.Keys && Backs(g, p, from, mid) && Backs(g, q, mid, to)
    ensures Backs(g, p + q, from, to)
    decreases |p|
  {
    if p == [] {
      assert p + q == q;
    } else {
      assert (p + q)[0] == p[0] && (p + q)[1..] == p[1..] + q;
      BacksConcat(g, p[1..], q, g.starts[p[0]], mid, to);
    }
  }

  lemma {:induction false} AdjustConcat(g: Groups, p: seq<string>, q: seq<string>, index: int)
    requires g.starts.Keys == g.ends.Keys && (forall id | id in p :: id in g.starts) && forall id | id in q :: id in g.starts
    ensures (forall id | id in p + q :: id in g.starts) && Adjust(g, p + q, index) == Adjust(g, q, Adjust(g, p, index))
    decreases |p|
  {
    if p == [] {
      assert p + q == q;
    } else {
      assert (p + q)[0] == p[0] && (p + q)[1..] == p[1..] + q;
      AdjustConcat(g, p[1..], q, if Inside(g, p[0], index) then g.starts[p[0]] else index);
    }
  }

  /** A pass over any groups moves the cut along a path. */
  lemma {:induction false} AdjustBacks(g: Groups, order: seq<string>, index: int) returns (path: seq<string>)
    requires g.starts.Keys == g.ends.Keys && forall id | id in order :: id in g.starts
    ensures Backs(g, path, index, Adjust(g, order, index)) && Adjust(g, order, index) <= index
    decreases |order|
  {
    if order == [] {
      path := [];
    } else if Inside(g, order[0], index) {
      var rest := AdjustBacks(g, order[1..], g.starts[order[0]]);
      path := [order[0]] + rest;
      assert path[1..] == rest;
    } else {
      path := AdjustBacks(g, order[1..], index);
    }
  }

  /** A path goes down, through different groups, and passing its groups in their order follows it. */
  lemma {:induction false} PathDescends(g: Groups, path: seq<string>, from: int, to: int)
    requires g.starts.Keys == g.ends.Keys && Backs(g, path, from, to)
    ensures to <= from && (forall id | id in path :: id in g.starts && to <= g.starts[id] < from)
    ensures forall p, q | 0 <= p < q < |path| :: path[p] != path[q]
    ensures Adjust(g, path, from) == to
    decreases |path|
  {
    if path != [] {
      PathDescends(g, path[1..], g.starts[path[0]], to);
      assert forall id | id in path :: id == path[0] || id in path[1..];
      forall p, q | 0 <= p < q < |path|
        ensures path[p] != path[q]
      {
        assert path[q] == path[1..][q - 1] && path[q] in path[1..];
        if p > 0 {
          assert path[p] == path[1..][p - 1];
        }
      }
    }
  }

  lemma {:induction false} AdjustStays(g: Groups, order: seq<string>, index: int)
    requires g.starts.Keys == g.ends.Keys && forall id | id in order :: id in g.starts && !Inside(g, id, index)
    ensures Adjust(g, order, index) == index
    decreases |order|
  {
    if order != [] {
      AdjustStays(g, order[1..], index);
    }
  }

  lemma {:induction false} Listed(ids: set<string>) returns (order: seq<string>)
    ensures (forall id :: id in order <==> id in ids) && forall p, q | 0 <= p < q < |order| :: order[p] != order[q]
    decreases |ids|
  {
    if ids == {} {
      order := [];
    } else {
      var id :| id in ids;
      var rest := Listed(ids - {id});
      order := [id] + rest;
    }
  }

  lemma {:induction false} Least(ids: set<string>, rank: string -> int) returns (least: string)
    requires ids != {}
    ensures least in ids && forall id | id in ids :: rank(least) <= rank(id)
    decreases |ids|
  {
    least :| least in ids;
    var rest := ids - {least};
    if rest != {} {
      var other := Least(rest, rank);
      assert forall id | id in ids :: id == least || id in rest;
      if rank(other) < rank(least) {
        least := other;
      }
    }
  }

  /** Two lists of different groups without a common one, put one after the other. */
  lemma DistinctConcat(p: seq<string>, q: seq<string>)
    requires (forall i, j | 0 <= i < j < |p| :: p[i] != p[j]) && forall i, j | 0 <= i < j < |q| :: q[i] != q[j]
    requires forall id | id in p :: id !in q
    ensures forall i, j | 0 <= i < j < |p + q| :: (p + q)[i] != (p + q)[j]
  {
    forall i, j | 0 <= i < j < |p + q|
      ensures (p + q)[i] != (p + q)[j]
    {
      if i < |p| {
        assert (p + q)[i] in p;
        if j >= |p| {
          assert (p + q)[j] in q;
        }
      }
    }
  }

  /** A path can be completed to an order that passes the given groups next and the others after them. */
  lemma Completed(g: Groups, path: seq<string>, next: seq<string>) returns (rest: seq<string>)
    requires (forall p, q | 0 <= p < q < |path| :: path[p] != path[q]) && forall p, q | 0 <= p < q < |next| :: next[p] != next[q]
    requires (forall id | id in path :: id in g.starts && id !in next) && forall id | id in next :: id in g.starts
    ensures IsOrder(g, path + next + rest) && forall id | id in rest :: id in g.starts && id !in path && id !in next
  {
    rest := Listed(g.starts.Keys - (set id | id in path) - (set id | id in next));
    DistinctConcat(path, next);
    DistinctConcat(path + next, rest);
  }

  /** In a trap, the groups that the last move falls into can all be passed before it. */
  lemma TrapSplits(g: Groups, path: seq<string>, index: int, i: int, b: string) returns (order: seq<string>)
    requires g.starts.Keys == g.ends.Keys && Backs(g, path, index, i) && Trap(g, i, b)
    ensures IsOrder(g, order) && !NoneInside(g, Adjust(g, order, index))
  {
    PathDescends(g, path, index, i);
    var fallen := set x | x in g.starts && Inside(g, x, g.starts[b]);
    var passed := Listed(fallen);
    assert b !in passed;
    DistinctConcat(passed, [b]);
    var rest := Completed(g, path, passed + [b]);
    order := path + (passed + [b]) + rest;
    AdjustConcat(g, path + (passed + [b]), rest, index);
    AdjustConcat(g, path, passed + [b], index);
    AdjustConcat(g, passed, [b], i);
    AdjustStays(g, passed, i);
    assert [b][1..] == [];
    assert Adjust(g, [b], i) == g.starts[b];
    AdjustStays(g, rest, g.starts[b]);
  }

  /** Following some path as far as it goes ends inside no group. */
  lemma {:induction false} GoesDown(g: Groups, index: int) returns (path: seq<string>, cut: int)
    requires g.starts.Keys == g.ends.Keys
    ensures Backs(g, path, index, cut) && NoneInside(g, cut)
    decreases if index < 0 then 0 else index
  {
    if NoneInside(g, index) {
      path, cut := [], index;
    } else {
      var id :| id in g.starts && Inside(g, id, index);
      var rest;
      rest, cut := GoesDown(g, g.starts[id]);
      path := [id] + rest;
      assert path[1..] == rest;
    }
  }

  /** Some order always ends inside no group. */
  lemma SomeOrderIsSafe(g: Groups, index: int) returns (order: seq<string>)
    requires g.starts.Keys == g.ends.Keys
    ensures IsOrder(g, order) && NoneInside(g, Adjust(g, order, index))
  {
    var path, cut := GoesDown(g, index);
    PathDescends(g, path, index, cut);
    var rest := Completed(g, path, []);
    assert path + [] == path;
    order := path + rest;
    AdjustConcat(g, path, rest, index);
    AdjustStays(g, rest, cut);
  }

  /** No path passes a cut that is inside no group. */
  lemma {:induction false} PathStopsAtCut(g: Groups, path: seq<string>, from: int, to: int, cut: int)
    requires g.starts.Keys == g.ends.Keys && Backs(g, path, from, to) && cut <= from && NoneInside(g, cut)
    ensures cut <= to
    decreases |path|
  {
    if path != [] {
      assert !Inside(g, path[0], cut);
      PathStopsAtCut(g, path[1..], g.starts[path[0]], to, cut);
    }
  }

  lemma SafeOrderFindsLast(g: Groups, order: seq<string>, index: int)
    requires g.starts.Keys == g.ends.Keys && IsOrder(g, order) && NoneInside(g, Adjust(g, order, index))
    ensures IsLastCut(g, index, Adjust(g, order, index))
  {
    var path := AdjustBacks(g, order, index);
    forall j | Adjust(g, order, index) < j <= index
      ensures !NoneInside(g, j)
    {
      if NoneInside(g, j) {
        PathStopsAtCut(g, path, index, Adjust(g, order, index), j);
      }
    }
  }

  lemma AdjustCons(g: Groups, x: string, after: seq<string>, index: int)
    requires g.starts.Keys == g.ends.Keys && x in g.starts && forall id | id in after :: id in g.starts
    ensures (forall id | id in [x] + after :: id in g.starts)
    ensures Adjust(g, [x] + after, index) == Adjust(g, after, if Inside(g, x, index) then g.starts[x] else index)
  {
    assert ([x] + after)[0] == x && ([x] + after)[1..] == after;
  }

  lemma TurnOf(order: seq<string>, x: string) returns (before: seq<string>, after: seq<string>)
    requires x in order
    ensures order == before + ([x] + after)
  {
    var k :| 0 <= k < |order| && order[k] == x;
    before, after := order[..k], order[k + 1..];
  }

  /** A group that the pass ends in had its turn when the cut was behind its end. */
  lemma PassedBehind(g: Groups, order: seq<string>, index: int, x: string) returns (path: seq<string>, rest: seq<string>, j: int)
    requires g.starts.Keys == g.ends.Keys && IsOrder(g, order) && x in g.starts && Inside(g, x, Adjust(g, order, index))
    ensures 0 <= g.ends[x] < j && Backs(g, path, index, j) && Backs(g, rest, j, Adjust(g, order, index))
  {
    hide Adjust, Backs;
    var before, after := TurnOf(order, x);
    AdjustConcat(g, before, [x] + after, index);
    j := Adjust(g, before, index);
    AdjustCons(g, x, after, j);
    path := AdjustBacks(g, before, index);
    rest := AdjustBacks(g, [x] + after, j);
    var _ := AdjustBacks(g, after, if Inside(g, x, j) then g.starts[x] else j);
  }

  /** A path that crosses `end` does so in one move. */
  lemma {:induction false} MoveAcross(g: Groups, path: seq<string>, from: int, to: int, end: int)
    returns (before: seq<string>, i: int, b: string)
    requires g.starts.Keys == g.ends.Keys && Backs(g, path, from, to) && to <= end < from
    ensures Backs(g, before, from, i) && i > end && b in g.starts && Inside(g, b, i) && to <= g.starts[b] <= end
    decreases |path|
  {
    b := path[0];
    PathDescends(g, path[1..], g.starts[b], to);
    if g.starts[b] <= end {
      before, i := [], from;
    } else {
      var rest;
      rest, i, b := MoveAcross(g, path[1..], g.starts[path[0]], to, end);
      before := [path[0]] + rest;
      assert before[1..] == rest;
    }
  }

  /** Of all groups around the final cut take `x`, the one that ends last, and of all moves across its end the farthest. */
  lemma SplitMeansTrap(g: Groups, order: seq<string>, index: int)
    requires g.starts.Keys == g.ends.Keys && IsOrder(g, order) && !NoneInside(g, Adjust(g, order, index))
    ensures Trapped(g, index)
  {
    hide Adjust, Backs, Trap;
    var cut := Adjust(g, order, index);
    var x := LastAround(g, cut);
    var path, rest, j := PassedBehind(g, order, index, x);
    var before, i, first := MoveAcross(g, rest, j, cut, g.ends[x]);
    var b := FarthestAcross(g, x, i, first);
    BacksConcat(g, path, before, index, j, i);
    forall z | z in g.starts && Inside(g, z, cut)
      ensures 0 <= g.ends[z] <= g.ends[x]
    {
      var _, _, _ := PassedBehind(g, order, index, z);
    }
    TrapFound(g, cut, x, i, b);
  }

  /** The group around a cut that ends last. */
  lemma LastAround(g: Groups, cut: int) returns (x: string)
    requires g.starts.Keys == g.ends.Keys && !NoneInside(g, cut)
    ensures x in g.starts && Inside(g, x, cut) && forall z | z in g.starts && Inside(g, z, cut) :: g.ends[z] <= g.ends[x]
  {
    var some :| some in g.starts && Inside(g, some, cut);
    var around := set z | z in g.starts && Inside(g, z, cut);
    assert some in around;
    x := Least(around, id => if id in g.ends then -g.ends[id] else 0);
    assert forall z | z in around :: -g.ends[x] <= -g.ends[z];
  }

  /** Of the groups around `i` that start inside `x`, the one that starts first. */
  lemma FarthestAcross(g: Groups, x: string, i: int, first: string) returns (b: string)
    requires g.starts.Keys == g.ends.Keys && x in g.starts && first in g.starts && Inside(g, first, i)
    requires g.starts[x] < g.starts[first] <= g.ends[x]
    ensures b in g.starts && Inside(g, b, i) && g.starts[x] < g.starts[b] <= g.ends[x]
    ensures forall z | z in g.starts && Inside(g, z, i) && g.starts[x] < g.starts[z] <= g.ends[x] :: g.starts[b] <= g.starts[z]
  {
    var across := set z | z in g.starts && Inside(g, z, i) && g.starts[x] < g.starts[z] <= g.ends[x];
    assert first in across;
    b := Least(across, id => if id in g.starts then g.starts[id] else 0);
    assert forall z | z in across :: g.starts[b] <= g.starts[z];
  }

  lemma TrapFound(g: Groups, cut: int, x: string, i: int, b: string)
    requires g.starts.Keys == g.ends.Keys && x in g.starts && Inside(g, x, cut) && 0 <= g.ends[x] < i
    requires forall z | z in g.starts && Inside(g, z, cut) :: 0 <= g.ends[z] <= g.ends[x]
    requires b in g.starts && Inside(g, b, i) && g.starts[x] < g.starts[b] <= g.ends[x]
    requires forall z | z in g.starts && Inside(g, z, i) && g.starts[x] < g.starts[z] <= g.ends[x] :: g.starts[b] <= g.starts[z]
    ensures Trap(g, i, b)
  {
    assert Inside(g, x, g.starts[b]);
    forall z | z in g.starts && Inside(g, z, g.starts[b])
      ensures 0 <= g.ends[z] < i
    {
      if Inside(g, z, i) {
        assert g.starts[z] <= g.starts[x] && Inside(g, z, cut);
      }
    }
  }

  /**
   * The order of the map matters exactly if there is a trap. Without one, every order finds the last cut that is inside
   * no group; with one, some order finds it and another ends inside a group.
   */
  lemma OrderMatters(g: Groups, index: int)
    requires g.starts.Keys == g.ends.Keys
    ensures Trapped(g, index) <==> exists order :: IsOrder(g, order) && !NoneInside(g, Adjust(g, order, index))
    ensures Trapped(g, index) <==> exists p, q :: IsOrder(g, p) && IsOrder(g, q) && Adjust(g, p, index) != Adjust(g, q, index)
    ensures !Trapped(g, index) ==> forall order | IsOrder(g, order) :: IsLastCut(g, index, Adjust(g, order, index))
    ensures exists order :: IsOrder(g, order) && IsLastCut(g, index, Adjust(g, order, index))
  {
    hide Trapped, NoneInside, Adjust, IsLastCut;
    var safe := SomeOrderIsSafe(g, index);
    SafeOrderFindsLast(g, safe, index);
    forall order | IsOrder(g, order)
      ensures NoneInside(g, Adjust(g, order, index)) || Trapped(g, index)
      ensures NoneInside(g, Adjust(g, order, index)) ==> IsLastCut(g, index, Adjust(g, order, index))
    {
      if NoneInside(g, Adjust(g, order, index)) {
        SafeOrderFindsLast(g, order, index);
      } else {
        SplitMeansTrap(g, order, index);
      }
    }
    if Trapped(g, index) {
      var order := SplittingOrder(g, index);
      assert Adjust(g, order, index) != Adjust(g, safe, index);
    }
    forall p, q | IsOrder(g, p) && IsOrder(g, q) && Adjust(g, p, index) != Adjust(g, q, index)
      ensures Trapped(g, index)
    {
      if !Trapped(g, index) {
        OneLastCut(g, index, Adjust(g, p, index), Adjust(g, q, index));
      }
    }
  }

  lemma SplittingOrder(g: Groups, index: int) returns (order: seq<string>)
    requires g.starts.Keys == g.ends.Keys && Trapped(g, index)
    ensures IsOrder(g, order) && !NoneInside(g, Adjust(g, order, index))
  {
    var path, i, b :| Backs(g, path, index, i) && Trap(g, i, b);
    order := TrapSplits(g, path, index, i, b);
  }

  lemma OneLastCut(g: Groups, index: int, p: int, q: int)
    requires g.starts.Keys == g.ends.Keys && IsLastCut(g, index, p) && IsLastCut(g, index, q)
    ensures p == q
  {
  }

  /** There is no trap where no two groups cross. */
  lemma NonCrossingIsFree(g: Groups, index: int)
    requires g.starts.Keys == g.ends.Keys && NonCrossing(g)
    ensures !Trapped(g, index)
  {
    forall i, b
      ensures !Trap(g, i, b)
    {
      if Trap(g, i, b) {
        var x :| x in g.starts && Inside(g, x, g.starts[b]);
        assert Crossing(g, x, b);
      }
    }
  }

  // ---------------------------------------------------------------------------
  // What the scan means
  // ---------------------------------------------------------------------------

  ghost predicate DistinctCalls(items: seq<Item>) {
    forall p, q | 0 <= p < q < |items| && items[p].part.Call? && items[q].part.Call? :: items[p].part.id != items[q].part.id
  }

  ghost predicate InOrder(items: seq<Item>) { forall p, q | 0 <= p < q < |items| :: items[p].message <= items[q].message }

  /** Part `q` is a result of the call at `p`; results count from the call on. */
  predicate Answers(items: seq<Item>, p: nat, q: nat)
    requires p < |items| && items[p].part.Call?
  {
    p < q < |items| && items[q].part == Result(items[p].part.id) && items[p].part.id != ""
  }

  ghost predicate Answered(items: seq<Item>, p: nat)
    requires p < |items| && items[p].part.Call?
  {
    exists q: nat :: Answers(items, p, q)
  }

  /** A cut before message `i` compacts no call that is unanswered or has a result among the retained messages. */
  ghost predicate KeepsGroups(items: seq<Item>, i: int) {
    forall p: nat | p < |items| && items[p].part.Call? && items[p].message < i ::
      Answered(items, p) && forall q: nat | Answers(items, p, q) :: items[q].message < i
  }

  /** The scan knows the call at `p` and its last result. */
  ghost predicate Known(items: seq<Item>, g: Groups, p: nat)
    requires p < |items| && items[p].part.Call?
  {
    var id := items[p].part.id;
    && id in g.starts && id in g.ends && g.starts[id] == items[p].message
    && (if g.ends[id] < 0 then !Answered(items, p)
        else (exists q: nat :: Answers(items, p, q) && items[q].message == g.ends[id]) &&
             forall q: nat | Answers(items, p, q) :: items[q].message <= g.ends[id])
  }

  lemma {:induction false} ScanKnows(items: seq<Item>, p: nat)
    requires DistinctCalls(items) && InOrder(items) && p < |items| && items[p].part.Call?
    ensures Known(items, Scan(items), p)
  {
    var n := |items| - 1;
    var before, last := items[..n], items[n];
    if p < n {
      ScanKnows(before, p);
      var id, g, h := items[p].part.id, Scan(before), Scan(items);
      assert forall q: nat :: Answers(items, p, q) <==> Answers(before, p, q) || (q == n && last.part == Result(id) && id != "");
      if g.ends[id] >= 0 {
        var q: nat :| Answers(before, p, q) && before[q].message == g.ends[id];
        assert Answers(items, p, q);
      }
      if last.part == Result(id) && id != "" {
        assert Answers(items, p, n) && h.ends[id] == last.message;
      } else {
        assert h.ends[id] == g.ends[id];
      }
    }
  }

  lemma {:induction false} ScanKnowsOnly(items: seq<Item>, id: string)
    requires id in Scan(items).starts
    ensures exists p: nat :: p < |items| && items[p].part == Call(id)
  {
    var n := |items| - 1;
    if items[n].part == Call(id) {
    } else {
      ScanKnowsOnly(items[..n], id);
      var p: nat :| p < n && items[..n][p].part == Call(id);
      assert items[p].part == Call(id);
    }
  }

  /** A cut is inside none of the scanned groups exactly when it keeps all calls and results together. */
  lemma NoneInsideMeans(items: seq<Item>, i: int)
    requires DistinctCalls(items) && InOrder(items)
    ensures NoneInside(Scan(items), i) <==> KeepsGroups(items, i)
  {
    hide Scan;
    var g := Scan(items);
    forall p: nat | p < |items| && items[p].part.Call?
      ensures Known(items, g, p)
    {
      ScanKnows(items, p);
    }
    if NoneInside(g, i) {
      InsideToGroups(items, g, i);
    }
    if KeepsGroups(items, i) {
      forall id | id in g.starts
        ensures !Inside(g, id, i)
      {
        ScanKnowsOnly(items, id);
        var p: nat :| p < |items| && items[p].part == Call(id);
        GroupOfCall(items, g, p, i);
      }
    }
  }

  lemma GroupOfCall(items: seq<Item>, g: Groups, p: nat, i: int)
    requires p < |items| && items[p].part.Call? && Known(items, g, p)
    ensures Inside(g, items[p].part.id, i) <==>
            items[p].message < i && !(Answered(items, p) && forall q: nat | Answers(items, p, q) :: items[q].message < i)
  {
  }

  lemma InsideToGroups(items: seq<Item>, g: Groups, i: int)
    requires g.starts.Keys == g.ends.Keys && NoneInside(g, i)
    requires forall p: nat | p < |items| && items[p].part.Call? :: Known(items, g, p)
    ensures KeepsGroups(items, i)
  {
    forall p: nat | p < |items| && items[p].part.Call? && items[p].message < i
      ensures Answered(items, p) && forall q: nat | Answers(items, p, q) :: items[q].message < i
    {
      GroupOfCall(items, g, p, i);
    }
  }

  lemma {:induction false} FlatInOrder(ms: seq<Message>)
    ensures InOrder(Flat(ms)) && forall p | 0 <= p < |Flat(ms)| :: Flat(ms)[p].message < |ms|
  {
    if ms != [] {
      FlatInOrder(ms[..|ms| - 1]);
    }
  }

  // ---------------------------------------------------------------------------
  // The cut
  // ---------------------------------------------------------------------------

  function CountComplete(ms: seq<Message>): nat {
    if ms == [] then 0 else (if ms[0].complete then 1 else 0) + CountComplete(ms[1..])
  }

  predicate AllComplete(ms: seq<Message>) { forall k | 0 <= k < |ms| :: ms[k].complete }

  /** A cut before message `i` that compacts something, nothing incomplete, and leaves enough complete messages. */
  ghost predicate RoughCut(ms: seq<Message>, recent: int, i: int) {
    0 < i < |ms| && CountComplete(ms[i..]) >= recent && AllComplete(ms[..i])
  }

  /** ... and no part of a group. */
  ghost predicate GoodCut(ms: seq<Message>, recent: int, i: int) { RoughCut(ms, recent, i) && KeepsGroups(Flat(ms), i) }

  datatype Option<T> = None | Some(value: T)

  lemma CountNone(ms: seq<Message>)
    ensures CountComplete(ms[|ms|..]) == 0
  {
  }

  lemma CountFrom(ms: seq<Message>, i: nat)
    requires i < |ms|
    ensures CountComplete(ms[i..]) == (if ms[i].complete then 1 else 0) + CountComplete(ms[i + 1..])
  {
    assert ms[i..][1..] == ms[i + 1..];
  }

  /** From the end, the first place that leaves enough complete messages. */
  method RetainRecent(ms: seq<Message>, recent: int) returns (index: nat, complete: nat)
    requires recent >= 1
    ensures index <= |ms| && complete == CountComplete(ms[index..])
    ensures complete >= recent || index == 0
    ensures forall j | index < j <= |ms| :: CountComplete(ms[j..]) < recent
  {
    hide CountComplete;
    index, complete := |ms|, 0;
    CountNone(ms);
    while index > 0 && complete < recent
      invariant index <= |ms| && complete == CountComplete(ms[index..])
      invariant forall j | index < j <= |ms| :: CountComplete(ms[j..]) < recent
    {
      CountFrom(ms, index - 1);
      index := index - 1;
      if ms[index].complete {
        complete := complete + 1;
      }
    }
  }

  /** The cut is moved before the first incomplete message. */
  method BeforeIncomplete(ms: seq<Message>, start: nat) returns (index: nat)
    requires start <= |ms|
    ensures index <= start && AllComplete(ms[..index]) && forall j | index < j <= start :: !AllComplete(ms[..j])
  {
    var i := 0;
    while i < start
      invariant 0 <= i <= start && AllComplete(ms[..i])
    {
      if !ms[i].complete {
        forall j | i < j <= start
          ensures !AllComplete(ms[..j])
        {
          assert !ms[..j][i].complete;
        }
        return i;
      }
      i := i + 1;
    }
    return start;
  }

  lemma ScanStep(items: seq<Item>, item: Item)
    ensures Scan(items + [item]) == After(Scan(items), item)
  {
    assert (items + [item])[..|items|] == items;
  }

  /** The parts of message `i`. */
  method ScanMessage(i: nat, parts: seq<Part>, oldStarts: map<string, nat>, oldEnds: map<string, int>, ghost before: seq<Item>)
    returns (starts: map<string, nat>, ends: map<string, int>)
    requires Groups(oldStarts, oldEnds) == Scan(before)
    ensures Groups(starts, ends) == Scan(before + Tagged(i, parts))
  {
    hide Scan;
    starts, ends := oldStarts, oldEnds;
    ghost var tagged := Tagged(i, parts);
    var k := 0;
    assert before + tagged[..0] == before;
    while k < |parts|
      invariant 0 <= k <= |parts| && Groups(starts, ends) == Scan(before + tagged[..k])
    {
      ScanStep(before + tagged[..k], tagged[k]);
      assert before + tagged[..k] + [tagged[k]] == before + tagged[..k + 1];
      match parts[k] {
        case Call(id) => starts, ends := starts[id := i], ends[id := -1];
        case Result(id) =>
          if id != "" && id in starts {
            ends := ends[id := i];
          }
        case Other =>
      }
      k := k + 1;
    }
    assert tagged[..k] == tagged;
  }

  /** Where calls start and end, by one pass over all messages. */
  method FindGroups(ms: seq<Message>) returns (starts: map<string, nat>, ends: map<string, int>)
    ensures Groups(starts, ends) == Scan(Flat(ms))
  {
    starts, ends := map[], map[];
    var i := 0;
    while i < |ms|
      invariant 0 <= i <= |ms| && Groups(starts, ends) == Scan(Flat(ms[..i]))
    {
      starts, ends := ScanMessage(i, ms[i].parts, starts, ends, Flat(ms[..i]));
      assert ms[..i + 1][..i] == ms[..i];
      i := i + 1;
    }
    assert ms[..i] == ms;
  }

  lemma {:induction false} AdjustSnoc(g: Groups, order: seq<string>, id: string, index: int)
    requires g.starts.Keys == g.ends.Keys && id in g.starts && forall x | x in order :: x in g.starts
    ensures (forall x | x in order + [id] :: x in g.starts)
    ensures var r := Adjust(g, order, index); Adjust(g, order + [id], index) == if Inside(g, id, r) then g.starts[id] else r
  {
    if order == [] {
      assert order + [id] == [id] && [id][1..] == [];
    } else {
      assert (order + [id])[1..] == order[1..] + [id];
      AdjustSnoc(g, order[1..], id, if Inside(g, order[0], index) then g.starts[order[0]] else index);
    }
  }

  /** One pass over the groups, in any order. */
  method MoveBeforeGroups(starts: map<string, nat>, ends: map<string, int>, first: int) returns (index: int)
    requires starts.Keys == ends.Keys
    ensures exists order: seq<string> :: IsOrder(Groups(starts, ends), order) && index == Adjust(Groups(starts, ends), order, first)
  {
    hide IsOrder;
    index := first;
    ghost var order: seq<string> := [];
    var left := starts.Keys;
    while left != {}
      invariant left <= starts.Keys && Lists(order, starts.Keys - left)
      invariant index == Adjust(Groups(starts, ends), order, first)
      decreases |left|
    {
      var id :| id in left;
      AdjustSnoc(Groups(starts, ends), order, id, first);
      var start, end := starts[id], ends[id];
      if end < 0 {
        if start < index {
          index := start;
        }
      } else if start < index && index <= end {
        index := start;
      }
      order := order + [id];
      left := left - {id};
    }
    AllListed(Groups(starts, ends), order);
  }

  /** Every element once. */
  ghost predicate Lists(order: seq<string>, ids: set<string>) {
    (forall id :: id in order <==> id in ids) && forall p, q | 0 <= p < q < |order| :: order[p] != order[q]
  }

  lemma AllListed(g: Groups, order: seq<string>)
    requires Lists(order, g.starts.Keys)
    ensures IsOrder(g, order)
  {
  }

  lemma {:induction false} MoreRetained(ms: seq<Message>, i: nat, j: nat)
    requires i <= j <= |ms|
    ensures CountComplete(ms[i..]) >= CountComplete(ms[j..])
    decreases j - i
  {
    if i < j {
      assert ms[i..][1..] == ms[i + 1..];
      MoreRetained(ms, i + 1, j);
    }
  }

  /** Enough complete messages from `i` on, and nothing incomplete before. */
  ghost predicate Roomy(ms: seq<Message>, recent: int, i: nat)
    requires i <= |ms|
  {
    CountComplete(ms[i..]) >= recent && AllComplete(ms[..i])
  }

  /** Where the cut is before tool calls are looked at: the last such place. */
  ghost predicate IsStart(ms: seq<Message>, recent: int, start: int) {
    0 <= start <= |ms| && Roomy(ms, recent, start) && forall j | start < j <= |ms| :: !Roomy(ms, recent, j)
  }

  /** The groups of a history. */
  function GroupsOf(ms: seq<Message>): Groups { Scan(Flat(ms)) }

  /** The index of the cut when the map yields its entries in this order. */
  ghost predicate Yields(ms: seq<Message>, recent: int, order: seq<string>, cut: Option<int>) {
    IsOrder(GroupsOf(ms), order) &&
    match cut
    case Some(i) => recent >= 1 && 0 < i < |ms| && exists start :: IsStart(ms, recent, start) && i == Adjust(GroupsOf(ms), order, start)
    case None => recent < 1 || forall start | IsStart(ms, recent, start) :: !(0 < Adjust(GroupsOf(ms), order, start) < |ms|)
  }

  /** Call IDs are distinct, and there is no trap below the start. */
  ghost predicate OrderFree(ms: seq<Message>, recent: int) {
    DistinctCalls(Flat(ms)) && forall start | IsStart(ms, recent, start) :: !Trapped(GroupsOf(ms), start)
  }

  /** It is enough that no two groups cross. */
  lemma WellNestedIsFree(ms: seq<Message>, recent: int)
    requires DistinctCalls(Flat(ms)) && NonCrossing(GroupsOf(ms))
    ensures OrderFree(ms, recent)
  {
    hide DistinctCalls, NonCrossing, Trapped, IsStart, Flat, Scan;
    forall start | IsStart(ms, recent, start)
      ensures !Trapped(GroupsOf(ms), start)
    {
      NonCrossingIsFree(GroupsOf(ms), start);
    }
  }

  lemma StartsAgree(ms: seq<Message>, recent: int, p: int, q: int)
    requires IsStart(ms, recent, p) && IsStart(ms, recent, q)
    ensures p == q
  {
    hide Roomy;
  }

  lemma StartIsInside(ms: seq<Message>, recent: int, start: int)
    requires recent >= 1 && IsStart(ms, recent, start)
    ensures start < |ms|
  {
    assert ms[|ms|..] == [];
  }

  /** The last cut that is inside no group is the last one that keeps all groups together. */
  lemma LastCutIsBest(ms: seq<Message>, recent: int, start: int, cut: int)
    requires DistinctCalls(Flat(ms)) && recent >= 1 && IsStart(ms, recent, start) && IsLastCut(GroupsOf(ms), start, cut)
    ensures KeepsGroups(Flat(ms), cut)
    ensures forall i | GoodCut(ms, recent, i) :: i <= cut
  {
    hide Flat, Scan, KeepsGroups, DistinctCalls, InOrder, NoneInside, AllComplete, CountComplete;
    FlatInOrder(ms);
    NoneInsideMeans(Flat(ms), cut);
    forall i | GoodCut(ms, recent, i)
      ensures i <= cut
    {
      NoneInsideMeans(Flat(ms), i);
      assert Roomy(ms, recent, i);
    }
  }

  /** A cut between the start and the beginning leaves enough and compacts nothing incomplete. */
  lemma RoughBelowStart(ms: seq<Message>, recent: int, start: int, i: int)
    requires IsStart(ms, recent, start) && 0 < i <= start && i < |ms|
    ensures RoughCut(ms, recent, i)
  {
    MoreRetained(ms, i, start);
    assert ms[..i] == ms[..start][..i];
  }

  /**
   * Cuts never separate a call from its result, nor compact a call without one, in whatever order the map yields the
   * groups, exactly when there is no trap.
   */
  lemma SafeUnlessTrapped(ms: seq<Message>, recent: int)
    requires DistinctCalls(Flat(ms)) && recent >= 1
    ensures OrderFree(ms, recent) <==>
            forall order, i | Yields(ms, recent, order, Some(i)) :: KeepsGroups(Flat(ms), i)
  {
    hide Flat, Scan, KeepsGroups, DistinctCalls, IsStart, Adjust, Trapped;
    var g := GroupsOf(ms);
    forall order, i | Yields(ms, recent, order, Some(i)) && !KeepsGroups(Flat(ms), i)
      ensures !OrderFree(ms, recent)
    {
      var start :| IsStart(ms, recent, start) && i == Adjust(g, order, start);
      TrapMeansSplit(ms, recent, start);
      assert Splits(ms, order, start);
    }
    forall start | IsStart(ms, recent, start) && Trapped(g, start)
      ensures exists order, i :: Yields(ms, recent, order, Some(i)) && !KeepsGroups(Flat(ms), i)
    {
      TrapMeansSplit(ms, recent, start);
      var order :| IsOrder(g, order) && Splits(ms, order, start);
      assert Yields(ms, recent, order, Some(Adjust(g, order, start)));
    }
  }

  /** With this order the cut from `start` is one that does not keep all groups together. */
  ghost predicate Splits(ms: seq<Message>, order: seq<string>, start: int) {
    var g := GroupsOf(ms);
    && (forall id | id in order :: id in g.starts)
    && 0 < Adjust(g, order, start) < |ms| && !KeepsGroups(Flat(ms), Adjust(g, order, start))
  }

  lemma TrapMeansSplit(ms: seq<Message>, recent: int, start: int)
    requires DistinctCalls(Flat(ms)) && recent >= 1 && IsStart(ms, recent, start)
    ensures Trapped(GroupsOf(ms), start) <==> exists order :: IsOrder(GroupsOf(ms), order) && Splits(ms, order, start)
  {
    hide Flat, Scan, KeepsGroups, DistinctCalls, InOrder, IsStart, Adjust, Trapped, IsLastCut;
    var g := GroupsOf(ms);
    FlatInOrder(ms);
    StartIsInside(ms, recent, start);
    OrderMatters(g, start);
    forall order | IsOrder(g, order)
      ensures Splits(ms, order, start) <==> !NoneInside(g, Adjust(g, order, start))
    {
      NoneInsideMeans(Flat(ms), Adjust(g, order, start));
      var _ := AdjustBacks(g, order, start);
    }
  }

  /**
   * The cut of a history. Whatever the tool calls, enough complete messages are retained and nothing incomplete is
   * compacted. Where the order of the map does not matter, it is the last cut that splits no group, and there is none
   * to be found exactly when no such cut exists.
   */
  method SafeCut(ms: seq<Message>, recent: int) returns (r: Option<int>, ghost index: int)
    ensures recent < 1 ==> r.None?
    ensures r.Some? ==> RoughCut(ms, recent, index) && r.value == ms[index].sequence
    ensures r.Some? && OrderFree(ms, recent) ==> GoodCut(ms, recent, index) && forall i | GoodCut(ms, recent, i) :: i <= index
    ensures r.None? && OrderFree(ms, recent) && recent >= 1 ==> forall i :: !GoodCut(ms, recent, i)
    ensures r.Some? ==> exists order :: Yields(ms, recent, order, Some(index))
    ensures r.None? ==> exists order :: Yields(ms, recent, order, None)
  {
    hide Flat, Scan, KeepsGroups, OrderFree, CountComplete, AllComplete, Yields, Adjust;
    index := 0;
    if recent < 1 {
      NothingYielded(ms, recent);
      return None, index;
    }
    var latest, complete := RetainRecent(ms, recent);
    if complete < recent || latest == 0 {
      NoStart(ms, recent, latest);
      NothingYielded(ms, recent);
      NoneGood(ms, recent);
      return None, index;
    }
    var start := BeforeIncomplete(ms, latest);
    StartFound(ms, recent, latest, start);
    var starts, ends := FindGroups(ms);
    var cut := MoveBeforeGroups(starts, ends, start);
    ghost var order :| IsOrder(GroupsOf(ms), order) && cut == Adjust(GroupsOf(ms), order, start);
    CutYielded(ms, recent, order, start);
    if cut <= 0 || cut >= |ms| {
      return None, index;
    }
    index := cut;
    return Some(ms[cut].sequence), index;
  }

  lemma StartFound(ms: seq<Message>, recent: int, latest: nat, start: nat)
    requires start <= latest <= |ms| && CountComplete(ms[latest..]) >= recent && AllComplete(ms[..start])
    requires forall j | latest < j <= |ms| :: CountComplete(ms[j..]) < recent
    requires forall j | start < j <= latest :: !AllComplete(ms[..j])
    ensures IsStart(ms, recent, start)
  {
    hide AllComplete, CountComplete;
    MoreRetained(ms, start, latest);
  }

  /** Where the count fails, or is reached only at the first message, no start leaves anything to compact. */
  lemma NoStart(ms: seq<Message>, recent: int, latest: nat)
    requires latest <= |ms| && recent >= 1 && (CountComplete(ms[latest..]) < recent ==> latest == 0)
    requires CountComplete(ms[latest..]) < recent || latest == 0
    requires forall j | latest < j <= |ms| :: CountComplete(ms[j..]) < recent
    ensures forall start | IsStart(ms, recent, start) :: start == 0
    ensures forall i | 0 < i <= |ms| :: !Roomy(ms, recent, i)
  {
    hide AllComplete, CountComplete;
  }

  lemma NoneGood(ms: seq<Message>, recent: int)
    requires forall i | 0 < i <= |ms| :: !Roomy(ms, recent, i)
    ensures forall i :: !GoodCut(ms, recent, i)
  {
    hide AllComplete, CountComplete, KeepsGroups, Flat;
    assert forall i | RoughCut(ms, recent, i) :: Roomy(ms, recent, i);
  }

  lemma NothingYielded(ms: seq<Message>, recent: int)
    requires recent < 1 || forall start | IsStart(ms, recent, start) :: start == 0
    ensures exists order :: Yields(ms, recent, order, None)
  {
    hide Flat, Scan, IsStart, Adjust, NoneInside;
    var order := SomeOrderIsSafe(GroupsOf(ms), 0);
    var _ := AdjustBacks(GroupsOf(ms), order, 0);
    assert Yields(ms, recent, order, None);
  }

  lemma CutYielded(ms: seq<Message>, recent: int, order: seq<string>, start: int)
    requires recent >= 1 && IsStart(ms, recent, start) && IsOrder(GroupsOf(ms), order)
    ensures var cut := Adjust(GroupsOf(ms), order, start);
            if 0 < cut < |ms| then
              && RoughCut(ms, recent, cut) && Yields(ms, recent, order, Some(cut))
              && (OrderFree(ms, recent) ==> GoodCut(ms, recent, cut) && forall i | GoodCut(ms, recent, i) :: i <= cut)
            else Yields(ms, recent, order, None) && (OrderFree(ms, recent) ==> forall i :: !GoodCut(ms, recent, i))
  {
    hide Flat, Scan, IsStart, Adjust, DistinctCalls, KeepsGroups, RoughCut, Trapped, IsLastCut;
    var g := GroupsOf(ms);
    var cut := Adjust(g, order, start);
    var _ := AdjustBacks(g, order, start);
    StartIsInside(ms, recent, start);
    OnlyStart(ms, recent, order, start);
    if 0 < cut {
      RoughBelowStart(ms, recent, start, cut);
    }
    if OrderFree(ms, recent) {
      OrderMatters(g, start);
      LastCutIsBest(ms, recent, start, cut);
      if cut <= 0 {
        NoneGoodBelow(ms, recent, cut);
      }
    }
  }

  lemma NoneGoodBelow(ms: seq<Message>, recent: int, cut: int)
    requires cut <= 0 && forall i | GoodCut(ms, recent, i) :: i <= cut
    ensures forall i :: !GoodCut(ms, recent, i)
  {
    hide KeepsGroups, Flat, AllComplete, CountComplete;
  }

  lemma OnlyStart(ms: seq<Message>, recent: int, order: seq<string>, start: int)
    requires recent >= 1 && IsStart(ms, recent, start) && IsOrder(GroupsOf(ms), order)
    ensures var cut := Adjust(GroupsOf(ms), order, start); Yields(ms, recent, order, if 0 < cut < |ms| then Some(cut) else None)
  {
    hide Flat, Scan, IsStart, Adjust;
    forall other | IsStart(ms, recent, other)
      ensures other == start
    {
      StartsAgree(ms, recent, other, start);
    }
  }

  // ---------------------------------------------------------------------------
  // A history on which the order matters
  // ---------------------------------------------------------------------------

  /** A request, two calls, their results in the order of the calls, and a last message. */
  const CROSSED: seq<Message> := [
    Message(1, true, [Other]), Message(2, true, [Call("a")]), Message(3, true, [Call("b")]),
    Message(4, true, [Result("a")]), Message(5, true, [Result("b")])]

  lemma CrossedStart()
    ensures IsStart(CROSSED, 1, 4)
  {
    assert CROSSED[4..] == [CROSSED[4]] && [CROSSED[4]][1..] == [];
    assert CROSSED[5..] == [];
    assert CountComplete(CROSSED[4..]) == 1;
  }

  lemma CrossedFlat()
    ensures Flat(CROSSED) == [Item(0, Other), Item(1, Call("a")), Item(2, Call("b")), Item(3, Result("a")), Item(4, Result("b"))]
  {
    var one, two, three, four := CROSSED[..1], CROSSED[..2], CROSSED[..3], CROSSED[..4];
    assert one[..0] == [] && two[..1] == one && three[..2] == two && four[..3] == three && CROSSED[..4] == four;
    assert Flat(one) == [Item(0, Other)];
    assert Flat(two) == Flat(one) + [Item(1, Call("a"))];
    assert Flat(three) == Flat(two) + [Item(2, Call("b"))];
    assert Flat(four) == Flat(three) + [Item(3, Result("a"))];
  }

  lemma CrossedGroups()
    ensures GroupsOf(CROSSED) == Groups(map["a" := 1, "b" := 2], map["a" := 3, "b" := 4])
  {
    hide Flat;
    CrossedFlat();
    var items := Flat(CROSSED);
    var one, two, three, four := [items[0]], [items[0], items[1]], [items[0], items[1], items[2]], [items[0], items[1], items[2], items[3]];
    ScanStep([], items[0]);
    ScanStep(one, items[1]);
    ScanStep(two, items[2]);
    ScanStep(three, items[3]);
    ScanStep(four, items[4]);
    assert [] + [items[0]] == one && one + [items[1]] == two && two + [items[2]] == three && three + [items[3]] == four;
    assert four + [items[4]] == items;
  }

  lemma CrossedKeeps()
    ensures !KeepsGroups(Flat(CROSSED), 2) && KeepsGroups(Flat(CROSSED), 1)
  {
    hide Flat;
    CrossedFlat();
    assert Flat(CROSSED)[1].part.Call? && Answers(Flat(CROSSED), 1, 3);
  }

  /** Two orders of the same map cut at different places, and one of the cuts separates the first call from its result. */
  lemma CrossingDependsOnOrder()
    ensures IsOrder(GroupsOf(CROSSED), ["a", "b"]) && IsOrder(GroupsOf(CROSSED), ["b", "a"])
    ensures Yields(CROSSED, 1, ["a", "b"], Some(2)) && Yields(CROSSED, 1, ["b", "a"], Some(1))
    ensures !KeepsGroups(Flat(CROSSED), 2) && KeepsGroups(Flat(CROSSED), 1)
  {
    hide Scan, Flat, IsStart, KeepsGroups;
    var g := GroupsOf(CROSSED);
    CrossedStart();
    CrossedGroups();
    CrossedKeeps();
    AdjustOne(g, "a", "b", 4);
    AdjustOne(g, "b", "a", 4);
  }

  /** A pass over two groups. */
  lemma AdjustOne(g: Groups, first: string, second: string, index: int)
    requires g.starts.Keys == g.ends.Keys && first in g.starts && second in g.starts
    ensures var next := if Inside(g, first, index) then g.starts[first] else index;
            Adjust(g, [first, second], index) == if Inside(g, second, next) then g.starts[second] else next
  {
    var next := if Inside(g, first, index) then g.starts[first] else index;
    assert [first, second][1..] == [second] && [second][1..] == [];
    assert Adjust(g, [second], next) == if Inside(g, second, next) then g.starts[second] else next;
  }
}
