/**
 * The transient event bus, one listener at a time. A full listener makes room by giving up its oldest tool-output
 * delta: the publisher drains the channel and refills it, while the reader may receive at any moment.
 */
module Transient {
  /** A published event: tool-output deltas are disposable. */
  datatype Event = Event(id: nat, disposable: bool)

  /** Where the publisher stands with this listener, and what it has in its hands. */
  datatype Place =
    | Idle
    | Draining(event: Event, queued: seq<Event>)
    | Refilling(event: Event, rest: seq<Event>, removed: bool)
    | Closed

  /**
   * The listener's channel. `published`, `received` and `lost` are its history, `disturbed` whether the reader ever
   * received while the publisher was draining or refilling.
   */
  datatype Listener = Listener(
    buffer: seq<Event>, capacity: nat, place: Place,
    published: seq<Event>, received: seq<Event>, lost: seq<Event>, disturbed: bool)

  function New(capacity: int): Listener { Listener([], if capacity < 1 then 1 else capacity, Idle, [], [], [], false) }

  datatype Step =
    | Publish(event: Event)
    | Drain
    | Refill
    | Settle
    | Receive
    | Unsubscribe

  predicate Full(l: Listener) { |l.buffer| >= l.capacity }

  predicate Enabled(l: Listener, step: Step) {
    match step
    case Publish(_) => l.place.Idle?
    case Drain => l.place.Draining?
    case Refill => l.place.Refilling? && l.place.rest != [] && ((!l.place.removed && l.place.rest[0].disposable) || !Full(l))
    case Settle => l.place.Refilling? && l.place.rest == [] && (l.place.removed ==> !Full(l))
    case Receive => l.buffer != []
    case Unsubscribe => l.place.Idle?
  }

  function Send(l: Listener, e: Event): Listener { l.(buffer := l.buffer + [e]) }

  /** A full listener ignores a disposable event; for any other it gives one up. */
  function NextPublish(l: Listener, e: Event): Listener {
    var m := l.(published := l.published + [e]);
    if !Full(l) then Send(m, e)
    else if e.disposable then m.(lost := l.lost + [e])
    else m.(place := Draining(e, []))
  }

  function NextDrain(l: Listener, e: Event, queued: seq<Event>): Listener {
    if l.buffer == [] then l.(place := Refilling(e, queued, false))
    else l.(buffer := l.buffer[1..], place := Draining(e, queued + [l.buffer[0]]))
  }

  /** The first disposable event is left out, the others go back. */
  function NextRefill(l: Listener, e: Event, rest: seq<Event>, removed: bool): Listener
    requires rest != []
  {
    if !removed && rest[0].disposable then l.(place := Refilling(e, rest[1..], true), lost := l.lost + [rest[0]])
    else Send(l, rest[0]).(place := Refilling(e, rest[1..], removed))
  }

  /** The event goes in, if there is room by now; otherwise the listener is closed. */
  function NextSettle(l: Listener, e: Event): Listener {
    if !Full(l) then Send(l, e).(place := Idle) else l.(place := Closed, lost := l.lost + [e])
  }

  function Next(l: Listener, step: Step): Listener
    requires Enabled(l, step)
  {
    match step
    case Publish(e) => NextPublish(l, e)
    case Drain => NextDrain(l, l.place.event, l.place.queued)
    case Refill => NextRefill(l, l.place.event, l.place.rest, l.place.removed)
    case Settle => NextSettle(l, l.place.event)
    case Receive =>
      l.(buffer := l.buffer[1..], received := l.received + [l.buffer[0]], disturbed := l.disturbed || l.place.Draining? || l.place.Refilling?)
    case Unsubscribe => l.(place := Closed)
  }

  predicate Run(l: Listener, steps: seq<Step>, m: Listener)
    decreases |steps|
  {
    if steps == [] then l == m else Enabled(l, steps[0]) && Run(Next(l, steps[0]), steps[1..], m)
  }

  // ---------------------------------------------------------------------------
  // The invariant
  // ---------------------------------------------------------------------------

  /** What is on its way to the reader, in the order in which it would arrive without further receives. */
  function Pending(l: Listener): seq<Event> {
    match l.place
    case Draining(e, queued) => queued + l.buffer + [e]
    case Refilling(e, rest, _) => l.buffer + rest + [e]
    case _ => l.buffer
  }

  predicate OnlyDisposable(es: seq<Event>) { forall i | 0 <= i < |es| :: es[i].disposable }

  /** The publisher can always put back what it took out, and has room for its event if it left one out. */
  predicate RoomOk(l: Listener) {
    match l.place
    case Draining(_, queued) => |queued| + |l.buffer| <= l.capacity
    case Refilling(_, rest, removed) => |l.buffer| + |rest| + (if removed then 1 else 0) <= l.capacity
    case _ => |l.buffer| <= l.capacity
  }

  /** `a` is `b` without some of its elements. */
  predicate Within(a: seq<Event>, b: seq<Event>)
    decreases |b|
  {
    if a == [] then true
    else if b == [] then false
    else Within(a, b[..|b| - 1]) || (a[|a| - 1] == b[|b| - 1] && Within(a[..|a| - 1], b[..|b| - 1]))
  }

  /** Every published event was received, is on its way, or is lost. */
  predicate Conserved(l: Listener) { multiset(l.published) == multiset(l.received) + multiset(Pending(l)) + multiset(l.lost) }

  predicate OrderOk(l: Listener) { !l.disturbed ==> Within(l.received + Pending(l), l.published) }

  ghost predicate Inv(l: Listener) {
    RoomOk(l) && l.capacity > 0 && Conserved(l) && OrderOk(l) && (!l.place.Closed? ==> OnlyDisposable(l.lost))
  }

  lemma {:induction false} WithinItself(a: seq<Event>)
    ensures Within(a, a)
  {
    if a != [] {
      WithinItself(a[..|a| - 1]);
    }
  }

  lemma WithinBoth(a: seq<Event>, b: seq<Event>, e: Event)
    requires Within(a, b)
    ensures Within(a + [e], b + [e]) && Within(a, b + [e])
  {
    assert (a + [e])[..|a|] == a && (b + [e])[..|b|] == b;
  }

  /** Leaving out one more element. */
  lemma {:induction false} WithinWithout(a: seq<Event>, e: Event, c: seq<Event>, b: seq<Event>)
    requires Within(a + [e] + c, b)
    ensures Within(a + c, b)
    decreases |b|
  {
    var whole := a + [e] + c;
    if b != [] {
      var shorter, last := b[..|b| - 1], b[|b| - 1];
      if Within(whole, shorter) {
        WithinWithout(a, e, c, shorter);
      } else if c == [] {
        assert whole[..|whole| - 1] == a && a + c == a;
      } else {
        assert whole[..|whole| - 1] == a + [e] + c[..|c| - 1] && (a + c)[..|a + c| - 1] == a + c[..|c| - 1];
        WithinWithout(a, e, c[..|c| - 1], shorter);
      }
    }
  }

  lemma PublishOrder(l: Listener, e: Event)
    requires OrderOk(l) && l.place.Idle?
    ensures OrderOk(NextPublish(l, e))
  {
    hide Within;
    var m := NextPublish(l, e);
    if !l.disturbed {
      WithinBoth(l.received + Pending(l), l.published, e);
      assert l.received + (l.buffer + [e]) == l.received + l.buffer + [e];
      assert Pending(m) == (if Full(l) && e.disposable then l.buffer else l.buffer + [e]);
    }
  }

  lemma PublishConserves(l: Listener, e: Event)
    requires Conserved(l) && l.place.Idle?
    ensures Conserved(NextPublish(l, e))
  {
    assert Pending(NextPublish(l, e)) == (if Full(l) && e.disposable then l.buffer else l.buffer + [e]);
  }

  lemma PublishKeeps(l: Listener, e: Event)
    requires Inv(l) && Enabled(l, Publish(e))
    ensures Inv(NextPublish(l, e))
  {
    hide Within, OrderOk, Conserved, Pending;
    PublishOrder(l, e);
    PublishConserves(l, e);
  }

  lemma DrainKeeps(l: Listener)
    requires Inv(l) && Enabled(l, Drain)
    ensures Inv(Next(l, Drain))
  {
    hide Within;
    var m := Next(l, Drain);
    if l.buffer != [] {
      assert l.buffer == [l.buffer[0]] + l.buffer[1..];
      assert Pending(m) == Pending(l);
    } else {
      assert Pending(m) == Pending(l);
    }
  }

  lemma RefillOrder(l: Listener, e: Event, rest: seq<Event>)
    requires OrderOk(l) && l.place == Refilling(e, rest, false) && rest != []
    ensures OrderOk(l.(place := Refilling(e, rest[1..], true)))
  {
    hide Within;
    var m := l.(place := Refilling(e, rest[1..], true));
    assert l.received + Pending(l) == (l.received + l.buffer) + [rest[0]] + (rest[1..] + [e]);
    assert l.received + Pending(m) == (l.received + l.buffer) + (rest[1..] + [e]);
    if !l.disturbed {
      WithinWithout(l.received + l.buffer, rest[0], rest[1..] + [e], l.published);
    }
  }

  lemma RefillConserves(l: Listener, e: Event, rest: seq<Event>)
    requires Conserved(l) && l.place == Refilling(e, rest, false) && rest != []
    ensures Conserved(l.(place := Refilling(e, rest[1..], true), lost := l.lost + [rest[0]]))
  {
    assert rest == [rest[0]] + rest[1..];
    assert multiset(rest) == multiset{rest[0]} + multiset(rest[1..]);
  }

  lemma RefillKeeps(l: Listener)
    requires Inv(l) && Enabled(l, Refill)
    ensures Inv(Next(l, Refill))
  {
    hide Within, NextPublish, NextDrain, NextSettle;
    var m, rest, e := Next(l, Refill), l.place.rest, l.place.event;
    if !l.place.removed && rest[0].disposable {
      RefillOrder(l, e, rest);
      RefillConserves(l, e, rest);
    } else {
      assert rest == [rest[0]] + rest[1..];
      assert Pending(m) == Pending(l);
    }
  }

  lemma SettleKeeps(l: Listener)
    requires Inv(l) && Enabled(l, Settle)
    ensures Inv(Next(l, Settle))
  {
    hide Within;
    var m, e := Next(l, Settle), l.place.event;
    assert Pending(l) == l.buffer + [e];
    if Full(l) && !l.disturbed {
      assert l.received + Pending(l) == (l.received + l.buffer) + [e] + [] && (l.received + l.buffer) + [] == l.received + Pending(m);
      WithinWithout(l.received + l.buffer, e, [], l.published);
    }
  }

  lemma ReceiveKeeps(l: Listener)
    requires Inv(l) && Enabled(l, Receive)
    ensures Inv(Next(l, Receive))
  {
    hide Within, Conserved, OrderOk;
    ReceiveOrder(l);
    ReceiveConserves(l);
  }

  lemma ReceiveOrder(l: Listener)
    requires OrderOk(l) && l.buffer != []
    ensures OrderOk(Next(l, Receive))
  {
    hide Within;
    var m := Next(l, Receive);
    assert l.buffer == [l.buffer[0]] + l.buffer[1..];
    if !m.disturbed {
      assert m.received + Pending(m) == l.received + Pending(l);
    }
  }

  lemma ReceiveConserves(l: Listener)
    requires Conserved(l) && l.buffer != []
    ensures Conserved(Next(l, Receive))
  {
    assert l.buffer == [l.buffer[0]] + l.buffer[1..];
    assert multiset(l.buffer) == multiset{l.buffer[0]} + multiset(l.buffer[1..]);
  }

  lemma StepKeepsInv(l: Listener, step: Step)
    requires Inv(l) && Enabled(l, step)
    ensures Inv(Next(l, step))
  {
    hide Inv, NextPublish;
    match step {
      case Publish(e) => PublishKeeps(l, e);
      case Drain => DrainKeeps(l);
      case Refill => RefillKeeps(l);
      case Settle => SettleKeeps(l);
      case Receive => ReceiveKeeps(l);
      case Unsubscribe => UnsubscribeKeeps(l);
    }
  }

  lemma UnsubscribeKeeps(l: Listener)
    requires Inv(l) && Enabled(l, Unsubscribe)
    ensures Inv(Next(l, Unsubscribe))
  {
    hide Within;
    assert Pending(Next(l, Unsubscribe)) == Pending(l);
  }

  lemma {:induction false} RunKeepsInv(l: Listener, steps: seq<Step>, m: Listener)
    requires Inv(l) && Run(l, steps, m)
    ensures Inv(m)
    decreases |steps|
  {
    hide Inv, Enabled, Next;
    if steps != [] {
      StepKeepsInv(l, steps[0]);
      RunKeepsInv(Next(l, steps[0]), steps[1..], m);
    }
  }

  lemma NewOk(capacity: int)
    ensures Inv(New(capacity))
  {
  }

  // ---------------------------------------------------------------------------
  // What follows in every run
  // ---------------------------------------------------------------------------

  /** An open listener loses only tool-output deltas; every other event was received, or is still on its way. */
  lemma OnlyToolOutputIsLost(capacity: int, steps: seq<Step>, l: Listener)
    requires Run(New(capacity), steps, l) && !l.place.Closed?
    ensures OnlyDisposable(l.lost) && multiset(l.published) == multiset(l.received) + multiset(Pending(l)) + multiset(l.lost)
    ensures forall e: Event | !e.disposable :: multiset(l.published)[e] == multiset(l.received)[e] + multiset(Pending(l))[e]
  {
    NewOk(capacity);
    RunKeepsInv(New(capacity), steps, l);
    assert forall e | e in multiset(l.lost) :: e in l.lost;
  }

  /** The publisher never blocks on a refill, nor on its event after leaving one out, whatever the reader does. */
  lemma PublisherNeverBlocks(capacity: int, steps: seq<Step>, l: Listener)
    requires Run(New(capacity), steps, l)
    ensures |l.buffer| <= l.capacity
    ensures l.place.Draining? ==> Enabled(l, Drain)
    ensures l.place.Refilling? ==> if l.place.rest != [] then Enabled(l, Refill) else Enabled(l, Settle)
  {
    NewOk(capacity);
    RunKeepsInv(New(capacity), steps, l);
    hide Within;
  }

  /** Order is kept whenever no receive falls inside an eviction. */
  lemma OrderIsKept(capacity: int, steps: seq<Step>, l: Listener)
    requires Run(New(capacity), steps, l) && !l.disturbed
    ensures Within(l.received + Pending(l), l.published)
  {
    NewOk(capacity);
    RunKeepsInv(New(capacity), steps, l);
  }

  const FIRST := Event(1, false)
  const SECOND := Event(2, true)
  const THIRD := Event(3, false)

  lemma RunBackwards(l: Listener, step: Step, steps: seq<Step>, m: Listener)
    requires Enabled(l, step) && Run(Next(l, step), steps, m)
    ensures Run(l, [step] + steps, m)
  {
    assert ([step] + steps)[1..] == steps;
  }

  /** A receive inside an eviction can overtake: the second event arrives before the first. */
  lemma ReceiveInsideEvictionOvertakes()
    ensures exists steps, l :: Run(New(2), steps, l) && l.published == [FIRST, SECOND, THIRD] && l.received + l.buffer == [SECOND, FIRST, THIRD]
  {
    var published := [FIRST, SECOND, THIRD];
    var full := Listener([FIRST, SECOND], 2, Idle, [FIRST, SECOND], [], [], false);
    var drained := Listener([SECOND], 2, Draining(THIRD, [FIRST]), published, [], [], false);
    var taken := Listener([], 2, Draining(THIRD, [FIRST]), published, [SECOND], [], true);
    var refilled := Listener([FIRST], 2, Refilling(THIRD, [], false), published, [SECOND], [], true);
    var end := Listener([FIRST, THIRD], 2, Idle, published, [SECOND], [], true);
    var tail := Overtaking(taken, refilled, end);
    assert Next(drained, Receive) == taken;
    RunBackwards(drained, Receive, tail, end);
    var evicting := Next(full, Publish(THIRD));
    assert Next(evicting, Drain) == drained;
    RunBackwards(evicting, Drain, [Receive] + tail, end);
    RunBackwards(full, Publish(THIRD), [Drain] + ([Receive] + tail), end);
    var one := Next(New(2), Publish(FIRST));
    assert Next(one, Publish(SECOND)) == full;
    RunBackwards(one, Publish(SECOND), [Publish(THIRD)] + ([Drain] + ([Receive] + tail)), end);
    RunBackwards(New(2), Publish(FIRST), [Publish(SECOND)] + ([Publish(THIRD)] + ([Drain] + ([Receive] + tail))), end);
  }

  lemma Overtaking(taken: Listener, refilled: Listener, end: Listener) returns (steps: seq<Step>)
    requires taken.place == Draining(THIRD, [FIRST]) && taken.buffer == [] && taken.capacity == 2
    requires refilled == taken.(buffer := [FIRST], place := Refilling(THIRD, [], false))
    requires end == refilled.(buffer := [FIRST, THIRD], place := Idle)
    ensures Run(taken, steps, end)
  {
    assert Run(end, [], end);
    RunBackwards(refilled, Settle, [], end);
    var refilling := Next(taken, Drain);
    assert refilling.place == Refilling(THIRD, [FIRST], false) && [FIRST][1..] == [];
    assert Next(refilling, Refill) == refilled;
    RunBackwards(refilling, Refill, [Settle] + [], end);
    RunBackwards(taken, Drain, [Refill] + ([Settle] + []), end);
    steps := [Drain] + ([Refill] + ([Settle] + []));
  }
}
