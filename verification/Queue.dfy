/**
 * Named queues with monitored delivery. An item is offered to a receiver under a delivery ID that is stored first,
 * and removed only after it was accepted; the deliverer may crash in between, or its last write may fail.
 */
module Queue {
  datatype Option<T> = None | Some(value: T)

  /** Which push of which queue an item comes from; it tells equal texts apart. */
  datatype Occurrence = Occurrence(queue: nat, number: nat)

  datatype Item = Item(occurrence: Occurrence, text: string)

  datatype Direction = Front | Back

  /** A queue file, and whether a deliverer holds its lock and has an accepted offer. */
  datatype Queue = Queue(items: seq<Item>, monitored: bool, delivery: Option<nat>, offering: bool, accepted: bool)

  /**
   * All queues, and the receiver, which appends what it is offered once per delivery ID.
   * `next` and `owner` are history: the number of the next occurrence, and the occurrence each ID was made for.
   */
  datatype Store = Store(queues: map<nat, Queue>, seen: set<nat>, appended: seq<Occurrence>, next: nat, owner: map<nat, Occurrence>)

  const NEW_STORE := Store(map[], {}, [], 0, map[])

  datatype Step =
    | Create(q: nat)
    | Push(q: nat, texts: seq<string>, direction: Direction)
    | Take(q: nat, count: nat, direction: Direction)
    | Monitor(q: nat, enabled: bool)
    | Offer(q: nat, id: nat)
    | Accept(q: nat)
    | Reject(q: nat)
    | Finish(q: nat)
    | Crash(q: nat)

  // ---------------------------------------------------------------------------
  // Steps
  // ---------------------------------------------------------------------------

  function Fresh(texts: seq<string>, q: nat, first: nat): (items: seq<Item>)
    ensures |items| == |texts| && forall i | 0 <= i < |texts| :: items[i] == Item(Occurrence(q, first + i), texts[i])
  {
    seq(|texts|, i requires 0 <= i < |texts| => Item(Occurrence(q, first + i), texts[i]))
  }

  function Reversed<T>(s: seq<T>): (r: seq<T>)
    ensures |r| == |s| && forall i | 0 <= i < |s| :: r[i] == s[|s| - 1 - i]
  {
    seq(|s|, i requires 0 <= i < |s| => s[|s| - 1 - i])
  }

  function Min(a: nat, b: nat): nat { if a < b then a else b }

  /** Pushing at the front invalidates the delivery ID of what was at the front. */
  function Pushed(q: Queue, items: seq<Item>, direction: Direction): Queue {
    if direction.Back? then q.(items := q.items + items)
    else if items == [] then q
    else q.(items := Reversed(items) + q.items, delivery := None)
  }

  function TakenItems(items: seq<Item>, count: nat, direction: Direction): seq<Item> {
    var n := Min(count, |items|);
    if direction.Front? then items[..n] else Reversed(items[|items| - n..])
  }

  /** Taking the front item ends its delivery; the last item is at the front too. */
  function Left(q: Queue, count: nat, direction: Direction): Queue {
    var n := Min(count, |q.items|);
    if direction.Front? then q.(items := q.items[n..], delivery := None)
    else q.(items := q.items[..|q.items| - n], delivery := if n == |q.items| then None else q.delivery)
  }

  predicate Due(q: Queue) { q.monitored && q.items != [] }

  predicate Free(s: Store, q: nat) { q in s.queues && !s.queues[q].offering }

  predicate Offering(s: Store, q: nat) { q in s.queues && s.queues[q].offering && s.queues[q].delivery.Some? && s.queues[q].items != [] }

  /** A step that fails one of its checks changes nothing and is no step; a lock holder keeps others off its queue. */
  predicate Enabled(s: Store, step: Step) {
    match step
    case Create(q) => q !in s.queues
    case Push(q, _, _) => Free(s, q)
    case Take(q, count, _) => Free(s, q) && count > 0 && s.queues[q].items != []
    case Monitor(q, _) => Free(s, q)
    case Offer(q, id) => Free(s, q) && Due(s.queues[q]) && id !in s.owner
    case Accept(q) => Offering(s, q) && !s.queues[q].accepted
    case Reject(q) => Offering(s, q) && !s.queues[q].accepted
    case Finish(q) => Offering(s, q) && s.queues[q].accepted
    case Crash(q) => Offering(s, q)
  }

  function With(s: Store, q: nat, queue: Queue): Store { s.(queues := s.queues[q := queue]) }

  /** The receiver appends what comes under a new ID. */
  function Received(s: Store, id: nat, occurrence: Occurrence): Store {
    if id in s.seen then s else s.(seen := s.seen + {id}, appended := s.appended + [occurrence])
  }

  function NextPush(s: Store, q: nat, texts: seq<string>, direction: Direction): Store
    requires q in s.queues
  {
    With(s, q, Pushed(s.queues[q], Fresh(texts, q, s.next), direction)).(next := s.next + |texts|)
  }

  /** An item is offered under the stored ID, or a new one that is stored first. */
  function NextOffer(s: Store, q: nat, id: nat): Store
    requires q in s.queues && s.queues[q].items != []
  {
    var queue := s.queues[q].(offering := true, accepted := false);
    if queue.delivery.Some? then With(s, q, queue)
    else With(s, q, queue.(delivery := Some(id))).(owner := s.owner[id := queue.items[0].occurrence])
  }

  function Next(s: Store, step: Step): Store
    requires Enabled(s, step)
  {
    match step
    case Create(q) => With(s, q, Queue([], false, None, false, false))
    case Push(q, texts, direction) => NextPush(s, q, texts, direction)
    case Take(q, count, direction) => With(s, q, Left(s.queues[q], count, direction))
    case Monitor(q, enabled) => With(s, q, s.queues[q].(monitored := enabled))
    case Offer(q, id) => NextOffer(s, q, id)
    case Accept(q) =>
      var queue := s.queues[q];
      With(Received(s, queue.delivery.value, queue.items[0].occurrence), q, queue.(accepted := true))
    case Reject(q) => With(s, q, s.queues[q].(offering := false))
    case Finish(q) => With(s, q, s.queues[q].(items := s.queues[q].items[1..], delivery := None, offering := false, accepted := false))
    case Crash(q) => With(s, q, s.queues[q].(offering := false, accepted := false))
  }

  predicate Run(s: Store, steps: seq<Step>, t: Store)
    decreases |steps|
  {
    if steps == [] then s == t else Enabled(s, steps[0]) && Run(Next(s, steps[0]), steps[1..], t)
  }

  // ---------------------------------------------------------------------------
  // Delivery IDs
  // ---------------------------------------------------------------------------

  /** The stored ID was made for the item at the front, and an accepted offer was received under it. */
  predicate DeliveryOk(s: Store, queue: Queue) {
    && (queue.delivery.Some? ==> queue.items != [] && queue.delivery.value in s.owner && s.owner[queue.delivery.value] == queue.items[0].occurrence)
    && (queue.offering ==> queue.delivery.Some?)
    && (queue.accepted ==> queue.offering && queue.delivery.Some? && queue.delivery.value in s.seen)
  }

  /** Each item is an occurrence of its own. */
  predicate ItemsOk(items: seq<Item>, q: nat, next: nat) {
    && (forall i | 0 <= i < |items| :: items[i].occurrence.queue == q && items[i].occurrence.number < next)
    && forall i, j | 0 <= i < j < |items| :: items[i].occurrence != items[j].occurrence
  }

  ghost predicate Inv(s: Store) {
    && (forall q | q in s.queues :: DeliveryOk(s, s.queues[q]) && ItemsOk(s.queues[q].items, q, s.next))
    && (forall d | d in s.seen :: d in s.owner && s.owner[d] in s.appended)
    && (forall o | o in s.appended :: o.number < s.next)
    && (forall d | d in s.owner :: s.owner[d].number < s.next)
  }

  lemma PushKeeps(s: Store, q: nat, texts: seq<string>, direction: Direction)
    requires Inv(s) && Enabled(s, Push(q, texts, direction))
    ensures Inv(NextPush(s, q, texts, direction))
  {
    var t := NextPush(s, q, texts, direction);
    hide Reversed;
    forall p | p in t.queues
      ensures DeliveryOk(t, t.queues[p]) && ItemsOk(t.queues[p].items, p, t.next)
    {
      assert p in s.queues && DeliveryOk(s, s.queues[p]) && ItemsOk(s.queues[p].items, p, s.next);
      if p == q {
        PushedItems(s.queues[q].items, Fresh(texts, q, s.next), q, s.next, direction);
      }
    }
  }

  lemma PushedItems(items: seq<Item>, more: seq<Item>, q: nat, next: nat, direction: Direction)
    requires ItemsOk(items, q, next)
    requires forall i | 0 <= i < |more| :: more[i].occurrence == Occurrence(q, next + i)
    ensures ItemsOk(if direction.Back? then items + more else Reversed(more) + items, q, next + |more|)
  {
  }

  lemma LeftItems(items: seq<Item>, i: nat, j: nat, q: nat, next: nat)
    requires ItemsOk(items, q, next) && i <= j <= |items|
    ensures ItemsOk(items[i..j], q, next)
  {
  }

  /** One queue changes. */
  lemma WithKeeps(s: Store, q: nat, queue: Queue)
    requires Inv(s) && DeliveryOk(s, queue) && ItemsOk(queue.items, q, s.next)
    ensures Inv(With(s, q, queue))
  {
    hide ItemsOk;
    var t := With(s, q, queue);
    forall p | p in t.queues
      ensures DeliveryOk(t, t.queues[p]) && ItemsOk(t.queues[p].items, p, t.next)
    {
      if p != q {
        assert DeliveryOk(s, s.queues[p]) && ItemsOk(s.queues[p].items, p, s.next);
      }
    }
  }

  lemma TakeKeeps(s: Store, q: nat, count: nat, direction: Direction)
    requires Inv(s) && Enabled(s, Take(q, count, direction))
    ensures Inv(Next(s, Take(q, count, direction)))
  {
    var queue := s.queues[q];
    var n := Min(count, |queue.items|);
    assert DeliveryOk(s, queue) && ItemsOk(queue.items, q, s.next);
    LeftItems(queue.items, n, |queue.items|, q, s.next);
    LeftItems(queue.items, 0, |queue.items| - n, q, s.next);
    WithKeeps(s, q, Left(queue, count, direction));
  }

  lemma OfferKeeps(s: Store, q: nat, id: nat)
    requires Inv(s) && Enabled(s, Offer(q, id))
    ensures Inv(NextOffer(s, q, id))
  {
    hide ItemsOk;
    var t := NextOffer(s, q, id);
    forall p | p in t.queues
      ensures DeliveryOk(t, t.queues[p]) && ItemsOk(t.queues[p].items, p, t.next)
    {
      assert DeliveryOk(s, s.queues[p]) && ItemsOk(s.queues[p].items, p, s.next);
    }
    FrontIsKnown(s, q);
  }

  lemma FrontIsKnown(s: Store, q: nat)
    requires Inv(s) && q in s.queues && s.queues[q].items != []
    ensures s.queues[q].items[0].occurrence.number < s.next
  {
    assert ItemsOk(s.queues[q].items, q, s.next);
  }

  lemma AcceptKeeps(s: Store, q: nat)
    requires Inv(s) && Enabled(s, Accept(q))
    ensures Inv(Next(s, Accept(q)))
  {
    hide ItemsOk;
    var queue, t := s.queues[q], Next(s, Accept(q));
    assert DeliveryOk(s, queue);
    FrontIsKnown(s, q);
    forall p | p in t.queues
      ensures DeliveryOk(t, t.queues[p]) && ItemsOk(t.queues[p].items, p, t.next)
    {
      assert DeliveryOk(s, s.queues[p]) && ItemsOk(s.queues[p].items, p, s.next);
    }
  }

  lemma LockStepKeeps(s: Store, step: Step)
    requires Inv(s) && Enabled(s, step) && (step.Create? || step.Monitor? || step.Reject? || step.Finish? || step.Crash?)
    ensures Inv(Next(s, step))
  {
    var q := step.q;
    var queue := Next(s, step).queues[q];
    if !step.Create? {
      assert DeliveryOk(s, s.queues[q]) && ItemsOk(s.queues[q].items, q, s.next);
      LeftItems(s.queues[q].items, if step.Finish? then 1 else 0, |s.queues[q].items|, q, s.next);
      assert s.queues[q].items[0..|s.queues[q].items|] == s.queues[q].items;
    }
    WithKeeps(s, q, queue);
  }

  lemma StepKeepsInv(s: Store, step: Step)
    requires Inv(s) && Enabled(s, step)
    ensures Inv(Next(s, step))
  {
    hide Inv;
    match step {
      case Push(q, texts, direction) => PushKeeps(s, q, texts, direction);
      case Take(q, count, direction) => TakeKeeps(s, q, count, direction);
      case Offer(q, id) => OfferKeeps(s, q, id);
      case Accept(q) => AcceptKeeps(s, q);
      case _ => LockStepKeeps(s, step);
    }
  }

  lemma {:induction false} RunKeepsInv(s: Store, steps: seq<Step>, t: Store)
    requires Inv(s) && Run(s, steps, t)
    ensures Inv(t)
    decreases |steps|
  {
    hide Inv, Enabled, Next;
    if steps != [] {
      StepKeepsInv(s, steps[0]);
      RunKeepsInv(Next(s, steps[0]), steps[1..], t);
    }
  }

  lemma NewOk()
    ensures Inv(NEW_STORE)
  {
  }

  lemma {:induction false} OwnersStay(s: Store, steps: seq<Step>, t: Store)
    requires Run(s, steps, t)
    ensures forall d | d in s.owner :: d in t.owner && t.owner[d] == s.owner[d]
    decreases |steps|
  {
    if steps != [] {
      var next := Next(s, steps[0]);
      assert forall d | d in s.owner :: d in next.owner && next.owner[d] == s.owner[d];
      OwnersStay(next, steps[1..], t);
    }
  }

  lemma OfferedIsOwned(s: Store, q: nat)
    requires Inv(s) && Offering(s, q)
    ensures var d := s.queues[q].delivery.value; d in s.owner && s.owner[d] == s.queues[q].items[0].occurrence
  {
    assert DeliveryOk(s, s.queues[q]);
  }

  /** No ID is ever offered with two occurrences: neither again later in a run, nor from two queues. */
  lemma IdNamesOneOccurrence(before: seq<Step>, s: Store, later: seq<Step>, t: Store, p: nat, q: nat)
    requires Run(NEW_STORE, before, s) && Run(s, later, t)
    requires Offering(s, p) && Offering(t, q) && s.queues[p].delivery == t.queues[q].delivery
    ensures s.queues[p].items[0].occurrence == t.queues[q].items[0].occurrence
  {
    hide Inv, Run;
    NewOk();
    RunKeepsInv(NEW_STORE, before, s);
    RunKeepsInv(s, later, t);
    OwnersStay(s, later, t);
    OfferedIsOwned(s, p);
    OfferedIsOwned(t, q);
  }

  /** An item leaves its queue by delivery only after the receiver has it. */
  lemma DeliveredIsReceived(before: seq<Step>, s: Store, q: nat)
    requires Run(NEW_STORE, before, s) && Enabled(s, Finish(q))
    ensures s.queues[q].items[0].occurrence in s.appended
  {
    NewOk();
    RunKeepsInv(NEW_STORE, before, s);
    assert DeliveryOk(s, s.queues[q]);
  }

  // ---------------------------------------------------------------------------
  // At most once
  // ---------------------------------------------------------------------------

  predicate Once(s: Store) { forall i, j | 0 <= i < j < |s.appended| :: s.appended[i] != s.appended[j] }

  /** A push in front of an item that the receiver has accepted but that was not removed yet. */
  predicate DropsAccepted(s: Store, step: Step) {
    && step.Push? && step.direction.Front? && step.texts != [] && step.q in s.queues
    && s.queues[step.q].delivery.Some? && s.queues[step.q].delivery.value in s.seen
  }

  /** No step of the run is such a push. */
  predicate Undisturbed(s: Store, steps: seq<Step>)
    decreases |steps|
  {
    steps == [] || (Enabled(s, steps[0]) && !DropsAccepted(s, steps[0]) && Undisturbed(Next(s, steps[0]), steps[1..]))
  }

  /** What was appended is no longer queued, or it is at the front, still under an ID that the receiver knows. */
  predicate SettledIn(s: Store, q: nat)
    requires q in s.queues
  {
    var queue := s.queues[q];
    forall i | 0 <= i < |queue.items| && queue.items[i].occurrence in s.appended ::
      i == 0 && queue.delivery.Some? && queue.delivery.value in s.seen
  }

  ghost predicate Settled(s: Store) { Once(s) && forall q | q in s.queues :: SettledIn(s, q) }

  lemma PushKeepsSettled(s: Store, step: Step)
    requires Inv(s) && Settled(s) && step.Push? && Enabled(s, step) && !DropsAccepted(s, step)
    ensures Settled(Next(s, step))
  {
    hide Reversed;
    var t := Next(s, step);
    assert forall o | o in s.appended :: o.number < s.next;
    forall q | q in t.queues
      ensures SettledIn(t, q)
    {
      assert SettledIn(s, q);
      if q == step.q {
        assert SettledIn(s, q);
        PushSettled(s.queues[q], Fresh(step.texts, q, s.next), s.appended, s.next, step.direction);
      }
    }
  }

  lemma PushSettled(queue: Queue, more: seq<Item>, appended: seq<Occurrence>, next: nat, direction: Direction)
    requires forall o | o in appended :: o.number < next
    requires forall i | 0 <= i < |more| :: more[i].occurrence.number >= next
    ensures var items := Pushed(queue, more, direction).items;
            forall i | 0 <= i < |items| && items[i].occurrence in appended ::
              var k := if direction.Back? then i else i - |more|; 0 <= k < |queue.items| && items[i] == queue.items[k]
  {
    assert forall i | 0 <= i < |more| :: Reversed(more)[i] == more[|more| - 1 - i] && more[i].occurrence !in appended;
  }

  lemma AcceptKeepsSettled(s: Store, q: nat)
    requires Inv(s) && Settled(s) && Enabled(s, Accept(q))
    ensures Settled(Next(s, Accept(q)))
  {
    var t, queue := Next(s, Accept(q)), s.queues[q];
    var o := queue.items[0].occurrence;
    assert DeliveryOk(s, queue) && SettledIn(s, q) && ItemsOk(queue.items, q, s.next);
    forall p | p in t.queues
      ensures SettledIn(t, p)
    {
      assert SettledIn(s, p) && ItemsOk(s.queues[p].items, p, s.next);
    }
  }

  lemma OtherKeepsSettled(s: Store, step: Step)
    requires Inv(s) && Settled(s) && Enabled(s, step) && !step.Push? && !step.Accept?
    ensures Settled(Next(s, step))
  {
    hide Reversed, ItemsOk;
    var t := Next(s, step);
    if step.Offer? || step.Finish? {
      assert DeliveryOk(s, s.queues[step.q]);
    }
    forall q | q in t.queues
      ensures SettledIn(t, q)
    {
      assert q in s.queues ==> SettledIn(s, q);
      if q == step.q && step.Finish? {
        FrontOnly(s, q);
      }
    }
  }

  lemma FrontOnly(s: Store, q: nat)
    requires Settled(s) && q in s.queues && s.queues[q].items != []
    ensures var items := s.queues[q].items[1..]; forall i | 0 <= i < |items| :: items[i].occurrence !in s.appended
  {
    assert SettledIn(s, q);
    assert forall i | 0 < i < |s.queues[q].items| :: s.queues[q].items[i].occurrence !in s.appended;
  }

  lemma {:induction false} RunKeepsSettled(s: Store, steps: seq<Step>, t: Store)
    requires Inv(s) && Settled(s) && Run(s, steps, t) && Undisturbed(s, steps)
    ensures Settled(t)
    decreases |steps|
  {
    if steps != [] {
      var step := steps[0];
      StepKeepsInv(s, step);
      if step.Push? {
        PushKeepsSettled(s, step);
      } else if step.Accept? {
        AcceptKeepsSettled(s, step.q);
      } else {
        OtherKeepsSettled(s, step);
      }
      hide Inv, Settled, Enabled, Next, DropsAccepted;
      RunKeepsSettled(Next(s, step), steps[1..], t);
    }
  }

  /**
   * An ID-idempotent receiver appends each occurrence at most once, in every run, crashes and failed writes included,
   * in which nothing is pushed in front of an item that was accepted but not yet removed.
   */
  lemma AppendedAtMostOnce(steps: seq<Step>, s: Store)
    requires Run(NEW_STORE, steps, s) && Undisturbed(NEW_STORE, steps)
    ensures Once(s)
  {
    NewOk();
    hide Inv, Run, Undisturbed;
    RunKeepsSettled(NEW_STORE, steps, s);
  }

  lemma {:induction false} UnusedId(used: set<nat>) returns (bound: nat)
    ensures forall d | d in used :: d < bound
    decreases |used|
  {
    bound := 0;
    if used != {} {
      var d :| d in used;
      bound := UnusedId(used - {d});
      assert used == (used - {d}) + {d};
      bound := if bound <= d then d + 1 else bound;
    }
  }

  lemma {:induction false} RunThenStep(s: Store, steps: seq<Step>, t: Store, step: Step)
    requires Run(s, steps, t) && Enabled(t, step)
    ensures Run(s, steps + [step], Next(t, step))
    decreases |steps|
  {
    if steps == [] {
      assert [step][1..] == [];
    } else {
      assert (steps + [step])[1..] == steps[1..] + [step];
      RunThenStep(Next(s, steps[0]), steps[1..], t, step);
    }
  }

  /** The queue after the push, and after what was pushed is taken again, with monitoring on. */
  lemma PushedAndTaken(s: Store, step: Step) returns (t: Store)
    requires Inv(s) && Enabled(s, step) && DropsAccepted(s, step)
    ensures Run(s, [step, Take(step.q, |step.texts|, Front), Monitor(step.q, true)], t)
    ensures t.seen == s.seen && t.appended == s.appended && t.owner == s.owner && Free(t, step.q)
    ensures t.queues[step.q].items == s.queues[step.q].items && Due(t.queues[step.q]) && t.queues[step.q].delivery.None?
  {
    hide Inv, Run;
    var q, n := step.q, |step.texts|;
    var a := Next(s, step);
    DueItems(s, q);
    assert a.queues[q].items[n..] == s.queues[q].items;
    var b := Next(a, Take(q, n, Front));
    t := Next(b, Monitor(q, true));
    RunOfThree(s, step, Take(q, n, Front), Monitor(q, true));
  }

  lemma DueItems(s: Store, q: nat)
    requires Inv(s) && q in s.queues && s.queues[q].delivery.Some?
    ensures s.queues[q].items != []
  {
    assert DeliveryOk(s, s.queues[q]);
  }

  lemma RunOfThree(s: Store, x: Step, y: Step, z: Step)
    requires Enabled(s, x) && Enabled(Next(s, x), y) && Enabled(Next(Next(s, x), y), z)
    ensures Run(s, [x, y, z], Next(Next(Next(s, x), y), z))
  {
    hide Enabled, Next;
    assert [x, y, z][1..] == [y, z] && [y, z][1..] == [z] && [z][1..] == [];
    assert Run(Next(Next(s, x), y), [z], Next(Next(Next(s, x), y), z));
    assert Run(Next(s, x), [y, z], Next(Next(Next(s, x), y), z));
  }

  /** Offering a due item without an ID and accepting it appends it. */
  lemma OfferedAgain(s: Store, steps: seq<Step>, t: Store, q: nat) returns (u: Store, all: seq<Step>)
    requires Run(s, steps, t) && Free(t, q) && Due(t.queues[q]) && t.queues[q].delivery.None?
    requires forall d | d in t.seen :: d in t.owner
    ensures steps <= all && Run(s, all, u) && u.appended == t.appended + [t.queues[q].items[0].occurrence]
  {
    hide Run;
    var bound := UnusedId(t.owner.Keys);
    assert bound !in t.owner.Keys;
    var offered := Next(t, Offer(q, bound));
    RunThenStep(s, steps, t, Offer(q, bound));
    u := Next(offered, Accept(q));
    RunThenStep(s, steps + [Offer(q, bound)], offered, Accept(q));
    all := steps + [Offer(q, bound)] + [Accept(q)];
  }

  lemma AcceptedIsAppended(s: Store, q: nat)
    requires Inv(s) && q in s.queues && s.queues[q].delivery.Some? && s.queues[q].delivery.value in s.seen
    ensures s.queues[q].items != [] && s.queues[q].items[0].occurrence in s.appended && forall d | d in s.seen :: d in s.owner
  {
    assert DeliveryOk(s, s.queues[q]);
  }

  /**
   * The condition cannot be weakened: after any push in front of an accepted item, the run can go on so that the item
   * is offered under a new ID and appended once more.
   */
  lemma FrontPushDuplicates(before: seq<Step>, s: Store, step: Step)
    requires Run(NEW_STORE, before, s) && Enabled(s, step) && DropsAccepted(s, step)
    ensures exists later, t :: later != [] && later[0] == step && Run(s, later, t) && !Once(t)
  {
    hide Inv, Run;
    NewOk();
    RunKeepsInv(NEW_STORE, before, s);
    AcceptedIsAppended(s, step.q);
    var t := PushedAndTaken(s, step);
    var first := [step, Take(step.q, |step.texts|, Front), Monitor(step.q, true)];
    var u, all := OfferedAgain(s, first, t, step.q);
    var o := s.queues[step.q].items[0].occurrence;
    var i :| 0 <= i < |s.appended| && s.appended[i] == o;
    assert u.appended[i] == o && u.appended[|s.appended|] == o;
    assert all[0] == step;
  }

  /** Such states are reached: the deliverer crashes between the acceptance and the removal. */
  lemma FrontPushIsReached()
    ensures exists steps, s, step :: Run(NEW_STORE, steps, s) && Enabled(s, step) && DropsAccepted(s, step)
  {
    hide Reversed;
    var a := Next(NEW_STORE, Create(0));
    RunThenStep(NEW_STORE, [], NEW_STORE, Create(0));
    var b := Next(a, Push(0, ["a"], Back));
    RunThenStep(NEW_STORE, [] + [Create(0)], a, Push(0, ["a"], Back));
    var c := Next(b, Monitor(0, true));
    RunThenStep(NEW_STORE, [] + [Create(0)] + [Push(0, ["a"], Back)], b, Monitor(0, true));
    AcceptAndCrash([] + [Create(0)] + [Push(0, ["a"], Back)] + [Monitor(0, true)], c);
  }

  lemma AcceptAndCrash(steps: seq<Step>, s: Store)
    requires Run(NEW_STORE, steps, s) && Free(s, 0) && Due(s.queues[0]) && s.queues[0].delivery.None? && 7 !in s.owner
    ensures exists more, t, step :: Run(NEW_STORE, more, t) && Enabled(t, step) && DropsAccepted(t, step)
  {
    hide Run;
    var a := Next(s, Offer(0, 7));
    RunThenStep(NEW_STORE, steps, s, Offer(0, 7));
    var b := Next(a, Accept(0));
    RunThenStep(NEW_STORE, steps + [Offer(0, 7)], a, Accept(0));
    var c := Next(b, Crash(0));
    RunThenStep(NEW_STORE, steps + [Offer(0, 7)] + [Accept(0)], b, Crash(0));
    var push := Push(0, ["b"], Front);
    assert Enabled(c, push) && DropsAccepted(c, push);
  }
}
