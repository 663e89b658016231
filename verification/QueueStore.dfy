/**
 * The queue store: each operation reads a queue, edits its metadata and items, and writes it back under its lock.
 */
module QueueStore {
  import opened Queue

  datatype Failure = NotFound | InvalidCount | Empty | Locked

  datatype Result<T> = Ok(value: T) | Err(failure: Failure)

  method NewItems(texts: seq<string>, q: nat, first: nat) returns (items: seq<Item>)
    ensures items == Fresh(texts, q, first)
  {
    items := [];
    while |items| < |texts|
      invariant |items| <= |texts| && items == Fresh(texts, q, first)[..|items|]
    {
      items := items + [Item(Occurrence(q, first + |items|), texts[|items|])];
    }
  }

  /** Pushing one by one to the front puts the last one first. */
  method FrontOrder(pushed: seq<Item>) returns (front: seq<Item>)
    ensures front == Reversed(pushed)
  {
    front := [];
    var index := 0;
    while index < |pushed|
      invariant 0 <= index <= |pushed| && front == Reversed(pushed)[|pushed| - index..]
    {
      front := [pushed[index]] + front;
      index := index + 1;
    }
  }

  lemma TakeLeads(s: Store, q: nat, count: nat, direction: Direction)
    requires Inv(s) && Enabled(s, Take(q, count, direction))
    ensures var t := s.(queues := s.queues[q := Left(s.queues[q], count, direction)]); t == Next(s, Take(q, count, direction)) && Inv(t)
  {
    StepKeepsInv(s, Take(q, count, direction));
    hide Inv, Left;
  }

  lemma LeftIs(queue: Queue, count: nat, direction: Direction)
    ensures var items := queue.items; var n := Min(count, |items|); var start := |items| - n;
            && TakenItems(items, count, direction) == (if direction.Front? then items[..n] else Reversed(items[start..]))
            && Left(queue, count, direction) ==
               if direction.Front? then queue.(items := items[n..], delivery := None)
               else queue.(items := items[..start], delivery := if start == 0 then None else queue.delivery)
  {
  }

  lemma PushLeads(s: Store, q: nat, texts: seq<string>, direction: Direction)
    requires Inv(s) && Free(s, q)
    ensures var t := s.(queues := s.queues[q := Pushed(s.queues[q], Fresh(texts, q, s.next), direction)], next := s.next + |texts|);
            Enabled(s, Push(q, texts, direction)) && t == Next(s, Push(q, texts, direction)) && Inv(t)
  {
    StepKeepsInv(s, Push(q, texts, direction));
    hide Inv, Pushed;
  }

  lemma OfferingQueue(s: Store, q: nat)
    requires Enabled(s, Accept(q))
    ensures q in s.queues && s.queues[q].offering && !s.queues[q].accepted && s.queues[q].delivery.Some? && s.queues[q].items != []
  {
  }

  function Unlocked(queue: Queue): Queue { queue.(offering := false, accepted := false) }

  lemma RejectLeads(s: Store, q: nat)
    requires Inv(s) && Enabled(s, Accept(q))
    ensures Enabled(s, Reject(q)) && Inv(Next(s, Reject(q))) && Next(s, Reject(q)) == s.(queues := s.queues[q := Unlocked(s.queues[q])])
  {
    StepKeepsInv(s, Reject(q));
    hide Inv;
  }

  lemma AcceptLeads(s: Store, q: nat)
    requires Inv(s) && Enabled(s, Accept(q))
    ensures var queue, t := s.queues[q], Next(s, Accept(q));
            && Inv(t) && Enabled(t, Finish(q)) && Enabled(t, Crash(q))
            && t == Received(s, queue.delivery.value, queue.items[0].occurrence).(queues := s.queues[q := queue.(accepted := true)])
  {
    StepKeepsInv(s, Accept(q));
    hide Inv;
  }

  lemma LastWriteLeads(s: Store, q: nat)
    requires Inv(s) && Enabled(s, Finish(q))
    ensures Inv(Next(s, Finish(q))) && Enabled(s, Crash(q)) && Inv(Next(s, Crash(q)))
    ensures Next(s, Finish(q)) == s.(queues := s.queues[q := Unlocked(s.queues[q]).(items := s.queues[q].items[1..], delivery := None)])
    ensures Next(s, Crash(q)) == s.(queues := s.queues[q := Unlocked(s.queues[q])])
  {
    StepKeepsInv(s, Finish(q));
    StepKeepsInv(s, Crash(q));
    hide Inv;
  }

  /** The last items, the very last first. */
  method FromBack(items: seq<Item>, n: nat) returns (taken: seq<Item>)
    requires n <= |items|
    ensures taken == Reversed(items[|items| - n..])
  {
    taken := [];
    while |taken| < n
      invariant |taken| <= n && taken == Reversed(items[|items| - n..])[..|taken|]
    {
      taken := taken + [items[|items| - |taken| - 1]];
    }
  }

  class QueueStore {
    var queues: map<nat, Queue>
    ghost var seen: set<nat>
    ghost var appended: seq<Occurrence>
    var next: nat
    ghost var owner: map<nat, Occurrence>

    ghost function View(): Store
      reads this
    {
      Store(queues, seen, appended, next, owner)
    }

    ghost predicate Valid()
      reads this
    {
      Inv(View())
    }

    constructor ()
      ensures View() == NEW_STORE && Valid()
    {
      queues, seen, appended, next, owner := map[], {}, [], 0, map[];
    }

    /** Items go to the back in order, or to the front as if pushed one by one. */
    method PushItems(q: nat, texts: seq<string>, direction: Direction) returns (r: Result<nat>)
      requires Valid() && (q in queues ==> Free(View(), q))
      modifies this
      ensures Valid() && (r.Ok? <==> q in old(queues))
      ensures r.Err? ==> View() == old(View()) && r.failure == NotFound
      ensures r.Ok? ==> r.value == |old(queues[q].items)| + |texts| && q in queues && |queues[q].items| == r.value
      ensures r.Ok? ==> queues == old(queues)[q := old(queues)[q].(items := queues[q].items, delivery := queues[q].delivery)]
      ensures r.Ok? && direction.Back? ==>
                && queues[q].delivery == old(queues[q].delivery) && old(queues[q].items) <= queues[q].items
                && forall i | 0 <= i < |texts| :: queues[q].items[|old(queues[q].items)| + i].text == texts[i]
      ensures r.Ok? && direction.Front? ==>
                && queues[q].delivery == (if texts == [] then old(queues[q].delivery) else None)
                && (forall i | 0 <= i < |texts| :: queues[q].items[|texts| - 1 - i].text == texts[i])
                && queues[q].items[|texts|..] == old(queues[q].items)
      ensures r.Ok? ==> View() == Next(old(View()), Push(q, texts, direction))
    {
      hide Inv, Next, Enabled;
      if q !in queues {
        return Err(NotFound);
      }
      PushLeads(View(), q, texts, direction);
      var queue := queues[q];
      var pushed := NewItems(texts, q, next);
      match direction {
        case Front =>
          if |pushed| > 0 {
            var front := FrontOrder(pushed);
            queue := queue.(items := front + queue.items, delivery := None);
          }
        case Back => queue := queue.(items := queue.items + pushed);
      }
      queues, next := queues[q := queue], next + |texts|;
      return Ok(|queue.items|);
    }

    /** Up to `count` items leave the queue: from the front in order, from the back last first. */
    method TakeItems(q: nat, count: int, direction: Direction) returns (r: Result<seq<Item>>)
      requires Valid() && (q in queues ==> Free(View(), q))
      modifies this`queues
      ensures Valid()
      ensures r.Ok? <==> count > 0 && q in old(queues) && old(queues[q].items) != []
      ensures r.Err? ==> View() == old(View())
      ensures r.Ok? ==> View() == Next(old(View()), Take(q, count, direction)) && r.value == TakenItems(old(queues[q].items), count, direction)
      ensures r.Ok? ==> |r.value| == (if count < |old(queues[q].items)| then count else |old(queues[q].items)|) && q in queues
      ensures r.Ok? && direction.Front? ==>
                && old(queues[q].items) == r.value + queues[q].items && queues[q].delivery.None?
      ensures r.Ok? && direction.Back? ==>
                && (forall i | 0 <= i < |r.value| :: r.value[i] == old(queues[q].items)[|old(queues[q].items)| - 1 - i])
                && queues[q].items == old(queues[q].items)[..|old(queues[q].items)| - |r.value|]
                && queues[q].delivery == if queues[q].items == [] then None else old(queues[q].delivery)
      ensures r.Ok? ==> queues == old(queues)[q := old(queues)[q].(items := queues[q].items, delivery := queues[q].delivery)]
    {
      hide Inv, Next, Reversed, TakenItems, Left;
      if count <= 0 {
        return Err(InvalidCount);
      }
      if q !in queues {
        return Err(NotFound);
      }
      var queue := queues[q];
      var items := queue.items;
      if |items| == 0 {
        return Err(Empty);
      }
      TakeLeads(View(), q, count, direction);
      LeftIs(queue, count, direction);
      var n := Min(count, |items|);
      var taken: seq<Item> := [];
      match direction {
        case Front =>
          taken := items[..n];
          queue := queue.(items := items[n..], delivery := None);
        case Back =>
          var start := |items| - n;
          taken := FromBack(items, n);
          queue := queue.(items := items[..start]);
          if start == 0 {
            queue := queue.(delivery := None);
          }
      }
      queues := queues[q := queue];
      return Ok(taken);
    }

    method MonitorQueue(q: nat, enabled: bool) returns (ok: bool)
      requires Valid() && (q in queues ==> Free(View(), q))
      modifies this`queues
      ensures Valid() && (ok <==> q in old(queues))
      ensures View() == if ok then Next(old(View()), Monitor(q, enabled)) else old(View())
      ensures queues == if ok then old(queues)[q := old(queues)[q].(monitored := enabled)] else old(queues)
    {
      if q !in queues {
        return false;
      }
      StepKeepsInv(View(), Monitor(q, enabled));
      queues := queues[q := queues[q].(monitored := enabled)];
      return true;
    }

    /** The scan for something to deliver: the first monitored queue with an item, in the order of the names. */
    method FirstDue(names: seq<nat>) returns (found: Option<nat>)
      requires forall i | 0 <= i < |names| :: names[i] in queues
      ensures found.None? ==> forall i | 0 <= i < |names| :: !(queues[names[i]].monitored && queues[names[i]].items != [])
      ensures found.Some? ==> found.value in queues && queues[found.value].monitored && queues[found.value].items != []
      ensures found.Some? ==>
                exists i :: 0 <= i < |names| && names[i] == found.value && forall j | 0 <= j < i :: !(queues[names[j]].monitored && queues[names[j]].items != [])
    {
      var i := 0;
      while i < |names|
        invariant 0 <= i <= |names| && forall j | 0 <= j < i :: !(queues[names[j]].monitored && queues[names[j]].items != [])
      {
        var queue := queues[names[i]];
        if queue.monitored && |queue.items| > 0 {
          return Some(names[i]);
        }
        i := i + 1;
      }
      return None;
    }

    /** The delivery ID is stored before the item is offered under it. */
    method OfferItem(q: nat, id: nat) returns (offeredAs: nat, item: Item)
      requires Valid() && Enabled(View(), Offer(q, id))
      modifies this
      ensures Valid() && View() == Next(old(View()), Offer(q, id))
      ensures q in queues && queues[q].delivery == Some(offeredAs) && item == old(queues[q].items[0])
      ensures offeredAs == if old(queues[q].delivery).Some? then old(queues[q].delivery).value else id
      ensures queues == old(queues)[q := old(queues)[q].(delivery := Some(offeredAs), offering := true, accepted := false)]
    {
      StepKeepsInv(View(), Offer(q, id));
      hide Inv;
      var queue := queues[q];
      if queue.delivery.None? {
        queue := queue.(delivery := Some(id));
        owner := owner[id := queue.items[0].occurrence];
      }
      offeredAs, item := queue.delivery.value, queue.items[0];
      queues := queues[q := queue.(offering := true, accepted := false)];
    }

    /** The receiver's answer, and the last write, which a crash or a failed write leaves out. */
    method SettleOffer(q: nat, accepts: bool, written: bool) returns (delivered: bool)
      requires Valid() && Enabled(View(), Accept(q))
      modifies this
      ensures Valid() && (delivered <==> accepts && written)
      ensures var queue := old(queues)[q].(offering := false, accepted := false);
              queues == old(queues)[q := if delivered then queue.(items := old(queues)[q].items[1..], delivery := None)
                                         else queue]
      ensures !accepts || old(queues[q].delivery).value in old(seen) ==> appended == old(appended)
      ensures accepts && old(queues[q].delivery).value !in old(seen) ==> appended == old(appended) + [old(queues[q].items[0]).occurrence]
      ensures var accepted := Next(old(View()), Accept(q));
              View() == if !accepts then Next(old(View()), Reject(q)) else if written then Next(accepted, Finish(q)) else Next(accepted, Crash(q))
    {
      hide Inv, Next, Enabled;
      AcceptLeads(View(), q);
      RejectLeads(View(), q);
      LastWriteLeads(Next(View(), Accept(q)), q);
      OfferingQueue(View(), q);
      var queue := queues[q];
      if !accepts {
        assert queue.(offering := false) == Unlocked(queue);
        queues := queues[q := queue.(offering := false)];
        return false;
      }
      var id := queue.delivery.value;
      if id !in seen {
        seen, appended := seen + {id}, appended + [queue.items[0].occurrence];
      }
      if written {
        queues := queues[q := queue.(items := queue.items[1..], delivery := None, offering := false, accepted := false)];
        assert View() == Next(Next(old(View()), Accept(q)), Finish(q));
        return true;
      }
      queues := queues[q := queue.(offering := false, accepted := false)];
      assert View() == Next(Next(old(View()), Accept(q)), Crash(q));
      return false;
    }
  }
}
