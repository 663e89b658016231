/**
 * The output buffer of a running process: it keeps the first bytes and the last bytes, and counts the rest.
 */
module HeadTail {
  type Byte = c: int | 0 <= c < 256

  function Min(a: int, b: int): int { if a < b then a else b }

  /** What is kept of a whole stream: its start, its end, and how many bytes lie between. */
  function HeadOf(all: seq<Byte>, budget: nat): seq<Byte> { all[..Min(|all|, budget)] }

  function RestOf(all: seq<Byte>, head: nat): seq<Byte> { all[Min(|all|, head)..] }

  function LastOf(s: seq<Byte>, budget: nat): seq<Byte> { s[|s| - Min(|s|, budget)..] }

  function TailOf(all: seq<Byte>, head: nat, budget: nat): seq<Byte> { LastOf(RestOf(all, head), budget) }

  class Buffer {
    const headBudget: nat
    const tailBudget: nat
    var head: seq<Byte>
    var tail: seq<Byte>
    var omitted: nat
    ghost var all: seq<Byte>

    /** The buffer shows exactly the ends of everything that was pushed, however it was cut into pieces. */
    ghost predicate Valid()
      reads this
    {
      && head == HeadOf(all, headBudget) && tail == TailOf(all, headBudget, tailBudget)
      && |head| + omitted + |tail| == |all|
    }

    constructor (max: nat)
      ensures Valid() && all == [] && headBudget == max / 2 && tailBudget == max - max / 2
    {
      headBudget, tailBudget := max / 2, max - max / 2;
      head, tail, omitted, all := [], [], 0, [];
    }

    method Push(value: seq<Byte>)
      requires Valid()
      modifies this
      ensures Valid() && all == old(all) + value
    {
      hide HeadOf, RestOf, LastOf;
      ghost var was := all;
      var n := Min(|value|, headBudget - |head|);
      n := if n > 0 then n else 0;
      Splits(was, value, headBudget);
      head := head + value[..n];
      all := all + value;
      omitted, tail := KeepLast(RestOf(was, headBudget), tail, value[n..], tailBudget, omitted);
    }

    /** Draining hands out what is there and starts over. */
    method Drain() returns (shown: (seq<Byte>, nat, seq<Byte>))
      requires Valid()
      modifies this
      ensures Valid() && all == []
      ensures shown.0 == HeadOf(old(all), headBudget) && shown.2 == TailOf(old(all), headBudget, tailBudget)
      ensures |shown.0| + shown.1 + |shown.2| == |old(all)|
      ensures shown.0 <= old(all) && |shown.0| == if |old(all)| < headBudget then |old(all)| else headBudget
      ensures var left := |old(all)| - |shown.0|;
              |shown.2| == (if left < tailBudget then left else tailBudget) && shown.2 == old(all)[|old(all)| - |shown.2|..]
    {
      shown := (head, omitted, tail);
      head, tail, omitted, all := [], [], 0, [];
    }
  }

  /** Pushed bytes first fill the head; what is left of them goes to the rest. */
  lemma Splits(all: seq<Byte>, value: seq<Byte>, budget: nat)
    ensures |HeadOf(all, budget)| <= budget
    ensures var m := Min(|value|, budget - |HeadOf(all, budget)|); var n := if m > 0 then m else 0;
            && HeadOf(all + value, budget) == HeadOf(all, budget) + value[..n]
            && RestOf(all + value, budget) == RestOf(all, budget) + value[n..]
  {
  }

  /** The tail takes more bytes and gives up its oldest ones. */
  method KeepLast(ghost rest: seq<Byte>, tail: seq<Byte>, more: seq<Byte>, budget: nat, before: nat) returns (omitted: nat, kept: seq<Byte>)
    requires tail == LastOf(rest, budget)
    ensures kept == LastOf(rest + more, budget) && before + |tail| + |more| == omitted + |kept|
  {
    kept, omitted := tail + more, before;
    LastGrows(rest, more, budget);
    var excess := |kept| - budget;
    if excess > 0 {
      kept := kept[excess..];
      omitted := omitted + excess;
    }
  }

  lemma LastGrows(rest: seq<Byte>, more: seq<Byte>, budget: nat)
    ensures LastOf(rest + more, budget) == LastOf(LastOf(rest, budget) + more, budget)
  {
  }
}
