/**
 * When a listener of the transient bus gets its events in order. A reader that receives while the publisher drains takes
 * an event past those that the publisher holds and will put back; nothing else changes the order.
 */
module TransientOrder {
  import opened Transient

  predicate Distinct(es: seq<Event>) { forall i, j | 0 <= i < j < |es| :: es[i] != es[j] }

  /** One event comes before the other. */
  predicate Before(es: seq<Event>, a: Event, b: Event) { exists i, j :: 0 <= i < j < |es| && es[i] == a && es[j] == b }

  /** What is put back: all but the first disposable event. */
  function Kept(es: seq<Event>): seq<Event> {
    if es == [] then [] else if es[0].disposable then es[1..] else [es[0]] + Kept(es[1..])
  }

  /** What is still to arrive, without the event that is going to be left out. */
  function Arriving(l: Listener): seq<Event> {
    match l.place
    case Draining(e, queued) => Kept(queued) + l.buffer + [e]
    case Refilling(e, rest, removed) => l.buffer + (if removed then rest else Kept(rest)) + [e]
    case _ => l.buffer
  }

  /** What was received and what is still to arrive is in the order of publication. */
  predicate InOrder(l: Listener) { Within(l.received + Arriving(l), l.published) }

  /** The events that a step takes another one past. */
  function Passed(l: Listener, step: Step): set<Event> {
    if step.Receive? && l.place.Draining? then set e | e in Kept(l.place.queued) else {}
  }

  /** The events that were overtaken in a run. */
  function Overtaken(l: Listener, steps: seq<Step>): set<Event>
    decreases |steps|
  {
    if steps == [] || !Enabled(l, steps[0]) then {} else Passed(l, steps[0]) + Overtaken(Next(l, steps[0]), steps[1..])
  }

  // ---------------------------------------------------------------------------
  // Order among distinct events
  // ---------------------------------------------------------------------------

  /** All of `a` is in `b`, in the same order. */
  ghost predicate Ordered(a: seq<Event>, b: seq<Event>) {
    (forall i | 0 <= i < |a| :: a[i] in b) && forall i, j | 0 <= i < j < |a| :: Before(b, a[i], a[j])
  }

  lemma BeforeGrows(es: seq<Event>, e: Event, a: Event, b: Event)
    requires Distinct(es + [e])
    ensures Before(es + [e], a, b) <==> Before(es, a, b) || (a in es && b == e)
  {
    var more := es + [e];
    assert more[|es|] == e && forall i | 0 <= i < |es| :: more[i] == es[i];
    if a in es && b == e {
      var i :| 0 <= i < |es| && es[i] == a;
      assert more[i] == a;
    }
    if Before(es, a, b) {
      var i, j :| 0 <= i < j < |es| && es[i] == a && es[j] == b;
      assert more[i] == a && more[j] == b;
    }
    if Before(more, a, b) {
      var i, j :| 0 <= i < j < |more| && more[i] == a && more[j] == b;
      assert es[i] == a;
    }
  }

  lemma NotBothWays(es: seq<Event>, a: Event, b: Event)
    requires Distinct(es) && Before(es, a, b)
    ensures !Before(es, b, a) && a != b
  {
  }

  lemma OneOrTheOther(es: seq<Event>, a: Event, b: Event)
    requires a in es && b in es && a != b
    ensures Before(es, a, b) || Before(es, b, a)
  {
    var i :| 0 <= i < |es| && es[i] == a;
    var j :| 0 <= j < |es| && es[j] == b;
  }

  lemma {:induction false} WithinIsOrdered(a: seq<Event>, b: seq<Event>)
    requires Distinct(b)
    ensures Within(a, b) <==> Ordered(a, b)
    decreases |b|
  {
    hide Ordered, Before, Distinct;
    if a == [] || b == [] {
      OrderedInNothing(a, b);
    } else {
      var shorter, e := b[..|b| - 1], b[|b| - 1];
      var front, last := a[..|a| - 1], a[|a| - 1];
      assert b == shorter + [e] && a == front + [last];
      NewIsNew(shorter, e);
      WithinIsOrdered(a, shorter);
      WithinIsOrdered(front, shorter);
      OrderedGrows(a, shorter, e);
      OrderedLast(front, last, shorter, e);
    }
  }

  lemma OrderedInNothing(a: seq<Event>, b: seq<Event>)
    requires a == [] || b == []
    ensures Ordered(a, b) <==> a == []
  {
    if a != [] {
      assert a[0] !in b;
    }
  }

  lemma OrderedGrows(a: seq<Event>, b: seq<Event>, e: Event)
    requires Distinct(b + [e])
    ensures Ordered(a, b) <==> Ordered(a, b + [e]) && e !in a
  {
    hide Before;
    forall i, j | 0 <= i < j < |a|
      ensures Before(b + [e], a[i], a[j]) <==> Before(b, a[i], a[j]) || (a[i] in b && a[j] == e)
    {
      BeforeGrows(b, e, a[i], a[j]);
    }
    NewIsNew(b, e);
  }

  lemma OrderedLast(front: seq<Event>, last: Event, b: seq<Event>, e: Event)
    requires Distinct(b + [e])
    ensures e in front + [last] && Ordered(front + [last], b + [e]) <==> last == e && Ordered(front, b)
  {
    var a := front + [last];
    OrderedGrows(front, b, e);
    assert forall i | 0 <= i < |front| :: a[i] == front[i];
    if e in a && Ordered(a, b + [e]) {
      LastIsLast(front, last, b, e);
      forall i | 0 <= i < |front|
        ensures front[i] != e
      {
        assert Before(b + [e], a[i], a[|front|]);
        NotBothWays(b + [e], a[i], a[|front|]);
      }
    }
    if last == e && Ordered(front, b) {
      forall i, j | 0 <= i < j < |a|
        ensures Before(b + [e], a[i], a[j])
      {
        BeforeGrows(b, e, a[i], a[j]);
      }
    }
  }

  lemma NeverBefore(b: seq<Event>, e: Event, x: Event)
    requires e !in b
    ensures !Before(b, e, x)
  {
  }

  lemma LastIsLast(front: seq<Event>, last: Event, b: seq<Event>, e: Event)
    requires Distinct(b + [e]) && e in front + [last] && Ordered(front + [last], b + [e])
    ensures last == e
  {
    hide Before;
    var a := front + [last];
    forall k | 0 <= k < |front|
      ensures a[k] != e
    {
      BeforeGrows(b, e, a[k], a[|front|]);
      NewIsNew(b, e);
      if Before(b, a[k], a[|front|]) {
        NeverBefore(b, e, a[|front|]);
      }
    }
  }

  // ---------------------------------------------------------------------------
  // Where overtaken events are
  // ---------------------------------------------------------------------------

  /** An event published later was received already. */
  ghost predicate Late(published: seq<Event>, received: seq<Event>, e: Event) {
    exists i :: 0 <= i < |received| && Before(published, e, received[i])
  }

  ghost predicate ArrivingOk(published: seq<Event>, received: seq<Event>, arriving: seq<Event>, overtaken: set<Event>) {
    && Distinct(arriving) && Ordered(arriving, published)
    && forall j | 0 <= j < |arriving| :: arriving[j] !in received && (arriving[j] in overtaken <==> Late(published, received, arriving[j]))
  }

  ghost predicate ReceivedOk(published: seq<Event>, received: seq<Event>, overtaken: set<Event>) {
    && Distinct(received) && (forall j | 0 <= j < |received| :: received[j] in published)
    && forall j | 0 <= j < |received| :: received[j] in overtaken <==> Late(published, received[..j], received[j])
  }

  /** The late events are the overtaken ones, and what is to arrive is in order. */
  ghost predicate Placed(published: seq<Event>, received: seq<Event>, arriving: seq<Event>, overtaken: set<Event>) {
    && Distinct(published) && (forall e | e in overtaken :: e in published)
    && ArrivingOk(published, received, arriving, overtaken) && ReceivedOk(published, received, overtaken)
  }

  lemma LateGrows(published: seq<Event>, e: Event, received: seq<Event>, x: Event)
    requires Distinct(published + [e]) && forall j | 0 <= j < |received| :: received[j] in published
    ensures Late(published + [e], received, x) <==> Late(published, received, x)
  {
    hide Before;
    NewIsNew(published, e);
    forall j | 0 <= j < |received|
      ensures Before(published + [e], x, received[j]) <==> Before(published, x, received[j])
    {
      BeforeGrows(published, e, x, received[j]);
    }
  }

  lemma NewIsNew(published: seq<Event>, e: Event)
    requires Distinct(published + [e])
    ensures e !in published && Distinct(published)
  {
    var more := published + [e];
    assert more[|published|] == e && forall i | 0 <= i < |published| :: more[i] == published[i];
  }

  lemma NotLate(published: seq<Event>, e: Event, received: seq<Event>)
    requires Distinct(published + [e])
    ensures !Late(published + [e], received, e)
  {
    hide Before;
    NewIsNew(published, e);
    forall j | 0 <= j < |received|
      ensures !Before(published + [e], e, received[j])
    {
      BeforeGrows(published, e, e, received[j]);
      NeverBefore(published, e, received[j]);
    }
  }

  lemma PublishedReceived(published: seq<Event>, e: Event, received: seq<Event>, overtaken: set<Event>)
    requires Distinct(published + [e]) && ReceivedOk(published, received, overtaken)
    ensures ReceivedOk(published + [e], received, overtaken)
  {
    hide Late;
    forall j | 0 <= j < |received|
      ensures Late(published + [e], received[..j], received[j]) <==> Late(published, received[..j], received[j])
    {
      LateGrows(published, e, received[..j], received[j]);
    }
  }

  lemma PublishedArriving(published: seq<Event>, e: Event, received: seq<Event>, arriving: seq<Event>, overtaken: set<Event>)
    requires Distinct(published + [e]) && ArrivingOk(published, received, arriving, overtaken)
    requires forall j | 0 <= j < |received| :: received[j] in published
    ensures ArrivingOk(published + [e], received, arriving, overtaken)
  {
    hide Late, Before;
    OrderedGrows(arriving, published, e);
    forall j | 0 <= j < |arriving|
      ensures Late(published + [e], received, arriving[j]) <==> Late(published, received, arriving[j])
    {
      LateGrows(published, e, received, arriving[j]);
    }
  }

  /** A published event goes to the end of what is to arrive, or is ignored. */
  lemma PublishPlaced(published: seq<Event>, e: Event, received: seq<Event>, arriving: seq<Event>, overtaken: set<Event>)
    requires Placed(published, received, arriving, overtaken) && Distinct(published + [e])
    ensures Placed(published + [e], received, arriving, overtaken)
    ensures Placed(published + [e], received, arriving + [e], overtaken)
  {
    hide Late, Before;
    NewIsNew(published, e);
    PublishedReceived(published, e, received, overtaken);
    PublishedArriving(published, e, received, arriving, overtaken);
    NotLate(published, e, received);
    var more := arriving + [e];
    OrderedLast(arriving, e, published, e);
    assert forall j | 0 <= j < |arriving| :: more[j] == arriving[j] && arriving[j] in published;
    assert e !in received;
  }

  /** Leaving an event out. */
  lemma DropPlaced(published: seq<Event>, received: seq<Event>, a: seq<Event>, e: Event, b: seq<Event>, overtaken: set<Event>)
    requires Placed(published, received, a + [e] + b, overtaken)
    ensures Placed(published, received, a + b, overtaken)
  {
    hide Late, Before, ReceivedOk;
    var whole, less := a + [e] + b, a + b;
    forall j | 0 <= j < |less|
      ensures less[j] == whole[if j < |a| then j else j + 1]
    {
    }
    forall i, j | 0 <= i < j < |less|
      ensures less[i] != less[j] && Before(published, less[i], less[j])
    {
      var k, n := if i < |a| then i else i + 1, if j < |a| then j else j + 1;
      assert less[i] == whole[k] && less[j] == whole[n];
    }
  }

  lemma LateAlso(published: seq<Event>, received: seq<Event>, e: Event, x: Event)
    ensures Late(published, received + [e], x) <==> Late(published, received, x) || Before(published, x, e)
  {
    hide Before;
    var more := received + [e];
    assert more[|received|] == e && forall i | 0 <= i < |received| :: more[i] == received[i];
  }

  /** Receiving `e` past what is held. */
  lemma ReceivePlaced(published: seq<Event>, received: seq<Event>, held: seq<Event>, e: Event, rest: seq<Event>, overtaken: set<Event>)
    requires Placed(published, received, held + [e] + rest, overtaken)
    ensures Placed(published, received + [e], held + rest, overtaken + set x | x in held)
  {
    hide Late, Before;
    var whole, less, passed := held + [e] + rest, held + rest, overtaken + set x | x in held;
    assert whole[|held|] == e;
    DropPlaced(published, received, held, e, rest, overtaken);
    ReceivedMore(published, received, held, e, rest, overtaken);
    forall j | 0 <= j < |less|
      ensures less[j] !in received + [e] && (less[j] in passed <==> Late(published, received + [e], less[j]))
    {
      LateAlso(published, received, e, less[j]);
      if j < |held| {
        assert whole[j] == held[j] && Before(published, whole[j], whole[|held|]);
      } else {
        assert whole[j + 1] == less[j] && Before(published, whole[|held|], whole[j + 1]);
        NotBothWays(published, e, less[j]);
        assert less[j] !in held by {
          assert forall k | 0 <= k < |held| :: whole[k] == held[k];
        }
      }
    }
    assert forall x | x in held :: x in published by {
      assert forall k | 0 <= k < |held| :: whole[k] == held[k];
    }
  }

  lemma ReceivedMore(published: seq<Event>, received: seq<Event>, held: seq<Event>, e: Event, rest: seq<Event>, overtaken: set<Event>)
    requires Placed(published, received, held + [e] + rest, overtaken)
    ensures ReceivedOk(published, received + [e], overtaken + set x | x in held)
  {
    hide Late, Before;
    var whole, more := held + [e] + rest, received + [e];
    assert whole[|held|] == e && forall k | 0 <= k < |held| :: whole[k] == held[k];
    assert forall j | 0 <= j < |received| :: more[j] == received[j] && more[..j] == received[..j] && received[j] !in held;
    assert more[|received|] == e && more[..|received|] == received && e !in held;
  }

  // ---------------------------------------------------------------------------
  // Steps
  // ---------------------------------------------------------------------------

  ghost predicate At(l: Listener, overtaken: set<Event>) { Placed(l.published, l.received, Arriving(l), overtaken) }

  lemma {:induction false} KeptSnoc(es: seq<Event>, e: Event)
    ensures if e.disposable && OnlyKept(es) then Kept(es + [e]) == es && Kept(es) == es else Kept(es + [e]) == Kept(es) + [e]
  {
    if es == [] {
      assert [e][1..] == [];
    } else {
      assert (es + [e])[1..] == es[1..] + [e];
      if !es[0].disposable {
        KeptSnoc(es[1..], e);
        assert es == [es[0]] + es[1..];
        assert OnlyKept(es) <==> OnlyKept(es[1..]);
      }
    }
  }

  /** There is none to leave out. */
  predicate OnlyKept(es: seq<Event>) { forall i | 0 <= i < |es| :: !es[i].disposable }

  lemma PublishAt(l: Listener, e: Event, overtaken: set<Event>)
    requires At(l, overtaken) && l.place.Idle? && Distinct(l.published + [e])
    ensures At(NextPublish(l, e), overtaken)
  {
    hide Placed;
    PublishPlaced(l.published, e, l.received, l.buffer, overtaken);
    assert Kept([]) + l.buffer + [e] == l.buffer + [e];
  }

  lemma DrainAt(l: Listener, e: Event, queued: seq<Event>, overtaken: set<Event>)
    requires At(l, overtaken) && l.place == Draining(e, queued)
    ensures At(NextDrain(l, e, queued), overtaken)
  {
    hide Placed, Kept;
    var m := NextDrain(l, e, queued);
    if l.buffer == [] {
      assert Arriving(m) == Arriving(l);
    } else {
      var head, rest := l.buffer[0], l.buffer[1..] + [e];
      KeptSnoc(queued, head);
      assert Arriving(l) == Kept(queued) + [head] + rest;
      if head.disposable && OnlyKept(queued) {
        assert Arriving(m) == queued + rest;
        DropPlaced(l.published, l.received, queued, head, rest, overtaken);
      } else {
        assert Arriving(m) == Arriving(l);
      }
    }
  }

  lemma RefillAt(l: Listener, e: Event, rest: seq<Event>, removed: bool, overtaken: set<Event>)
    requires At(l, overtaken) && l.place == Refilling(e, rest, removed) && rest != []
    ensures At(NextRefill(l, e, rest, removed), overtaken)
  {
    hide Placed, Arriving;
    RefillArrives(l, e, rest, removed);
  }

  lemma RefillArrives(l: Listener, e: Event, rest: seq<Event>, removed: bool)
    requires l.place == Refilling(e, rest, removed) && rest != []
    ensures Arriving(NextRefill(l, e, rest, removed)) == Arriving(l)
  {
    hide Kept;
    var left := if removed then rest else Kept(rest);
    var m := NextRefill(l, e, rest, removed);
    KeptFirst(rest);
    if !removed && rest[0].disposable {
      assert Arriving(m) == l.buffer + rest[1..] + [e];
    } else {
      assert Arriving(m) == (l.buffer + [rest[0]]) + left[1..] + [e];
      assert left == [rest[0]] + left[1..];
    }
  }

  lemma KeptFirst(es: seq<Event>)
    requires es != []
    ensures if es[0].disposable then Kept(es) == es[1..] else Kept(es) != [] && Kept(es)[0] == es[0] && Kept(es)[1..] == Kept(es[1..])
    ensures es == [es[0]] + es[1..]
  {
  }

  lemma SettleAt(l: Listener, e: Event, overtaken: set<Event>)
    requires At(l, overtaken) && l.place.Refilling? && l.place.event == e && l.place.rest == []
    ensures At(NextSettle(l, e), overtaken)
  {
    hide Placed;
    assert Arriving(l) == l.buffer + [e];
    assert l.buffer + [e] == l.buffer + [e] + [] && l.buffer == l.buffer + [];
    DropPlaced(l.published, l.received, l.buffer, e, [], overtaken);
  }

  lemma ReceiveAt(l: Listener, overtaken: set<Event>)
    requires At(l, overtaken) && l.buffer != []
    ensures At(Next(l, Receive), overtaken + Passed(l, Receive))
  {
    hide Placed, Kept;
    var m, e := Next(l, Receive), l.buffer[0];
    var held := if l.place.Draining? then Kept(l.place.queued) else [];
    assert l.buffer == [e] + l.buffer[1..];
    var rest := Arriving(l)[|held| + 1..];
    assert Arriving(l) == held + [e] + rest && Arriving(m) == held + rest;
    ReceivePlaced(l.published, l.received, held, e, rest, overtaken);
    assert Passed(l, Receive) == set x | x in held;
  }

  lemma StepAt(l: Listener, step: Step, overtaken: set<Event>)
    requires At(l, overtaken) && Enabled(l, step) && Distinct(Next(l, step).published)
    ensures At(Next(l, step), overtaken + Passed(l, step))
  {
    hide At, Kept, NextPublish, NextDrain, NextRefill, NextSettle;
    assert !step.Receive? ==> overtaken + Passed(l, step) == overtaken;
    match step {
      case Publish(e) =>
        PublishedIs(l, e);
        PublishAt(l, e, overtaken);
      case Drain => DrainAt(l, l.place.event, l.place.queued, overtaken);
      case Refill => RefillAt(l, l.place.event, l.place.rest, l.place.removed, overtaken);
      case Settle => SettleAt(l, l.place.event, overtaken);
      case Receive => ReceiveAt(l, overtaken);
      case Unsubscribe => UnsubscribeAt(l, overtaken);
    }
  }

  lemma PublishedIs(l: Listener, e: Event)
    ensures NextPublish(l, e).published == l.published + [e]
  {
  }

  lemma UnsubscribeAt(l: Listener, overtaken: set<Event>)
    requires At(l, overtaken) && l.place.Idle?
    ensures At(Next(l, Unsubscribe), overtaken)
  {
    hide Placed;
  }

  lemma {:induction false} PublishedGrows(l: Listener, steps: seq<Step>, m: Listener)
    requires Run(l, steps, m)
    ensures |l.published| <= |m.published| && m.published[..|l.published|] == l.published
    decreases |steps|
  {
    if steps != [] {
      var next := Next(l, steps[0]);
      assert |l.published| <= |next.published| && next.published[..|l.published|] == l.published;
      PublishedGrows(next, steps[1..], m);
    }
  }

  lemma DistinctBefore(l: Listener, steps: seq<Step>, m: Listener)
    requires Run(l, steps, m) && Distinct(m.published)
    ensures Distinct(l.published)
  {
    PublishedGrows(l, steps, m);
    assert forall i | 0 <= i < |l.published| :: l.published[i] == m.published[i];
  }

  lemma {:induction false} RunAt(l: Listener, steps: seq<Step>, m: Listener, overtaken: set<Event>)
    requires At(l, overtaken) && Run(l, steps, m) && Distinct(m.published)
    ensures At(m, overtaken + Overtaken(l, steps))
    decreases |steps|
  {
    hide At, Enabled, Next, Passed, Distinct;
    if steps == [] {
      assert overtaken + Overtaken(l, steps) == overtaken;
    } else {
      var next, passed := Next(l, steps[0]), Passed(l, steps[0]);
      DistinctBefore(next, steps[1..], m);
      StepAt(l, steps[0], overtaken);
      RunAt(next, steps[1..], m, overtaken + passed);
      assert overtaken + passed + Overtaken(next, steps[1..]) == overtaken + Overtaken(l, steps);
    }
  }

  /** Everything is in order if and only if no late event is left. */
  lemma InOrderMeans(l: Listener, overtaken: set<Event>)
    requires At(l, overtaken)
    ensures InOrder(l) <==> forall e | e in overtaken :: e !in l.received + Arriving(l)
  {
    hide Arriving, Within, Before, Late;
    WithinIsOrdered(l.received + Arriving(l), l.published);
    if forall e | e in overtaken :: e !in l.received + Arriving(l) {
      NoneLate(l.published, l.received, Arriving(l), overtaken);
    }
    forall e | e in overtaken && e in l.received + Arriving(l)
      ensures !Ordered(l.received + Arriving(l), l.published)
    {
      SomeLate(l.published, l.received, Arriving(l), overtaken, e);
    }
  }

  lemma NoneLate(published: seq<Event>, received: seq<Event>, arriving: seq<Event>, overtaken: set<Event>)
    requires Placed(published, received, arriving, overtaken) && forall e | e in overtaken :: e !in received + arriving
    ensures Ordered(received + arriving, published)
  {
    hide Before;
    var all := received + arriving;
    assert forall j | 0 <= j < |all| :: all[j] == if j < |received| then received[j] else arriving[j - |received|];
    assert forall j | 0 <= j < |arriving| :: all[j + |received|] == arriving[j] && arriving[j] in published;
    forall i, j | 0 <= i < j < |all|
      ensures Before(published, all[i], all[j])
    {
      if i < |received| {
        assert all[j] in all;
        var before := if j < |received| then received[..j] else received;
        assert before[i] == all[i] && !Late(published, before, all[j]);
        OneOrTheOther(published, all[i], all[j]);
      }
    }
  }

  lemma SomeLate(published: seq<Event>, received: seq<Event>, arriving: seq<Event>, overtaken: set<Event>, e: Event)
    requires Placed(published, received, arriving, overtaken) && e in overtaken && e in received + arriving
    ensures !Ordered(received + arriving, published)
  {
    hide Before;
    var all := received + arriving;
    var j :| 0 <= j < |all| && all[j] == e;
    var before := if j < |received| then received[..j] else received;
    assert Late(published, before, e) by {
      if j >= |received| {
        assert arriving[j - |received|] == e;
      }
    }
    var i :| 0 <= i < |before| && Before(published, e, before[i]);
    assert all[i] == before[i];
    NotBothWays(published, e, all[i]);
  }

  // ---------------------------------------------------------------------------
  // What follows in every run
  // ---------------------------------------------------------------------------

  /**
   * For distinct events: what was received and is to arrive is in order exactly if no overtaken event is among it, that
   * is, if each of them was given up by a later eviction.
   */
  lemma OrderDependsOnOvertaken(capacity: int, steps: seq<Step>, l: Listener)
    requires Run(New(capacity), steps, l) && Distinct(l.published)
    ensures InOrder(l) <==> forall e | e in Overtaken(New(capacity), steps) :: e !in l.received + Arriving(l)
  {
    hide InOrder, At, Run, Overtaken;
    NewAt(capacity);
    RunAt(New(capacity), steps, l, {});
    assert {} + Overtaken(New(capacity), steps) == Overtaken(New(capacity), steps);
    InOrderMeans(l, Overtaken(New(capacity), steps));
  }

  lemma NewAt(capacity: int)
    ensures At(New(capacity), {})
  {
  }

  /** The receive is inside the draining, with something in the publisher's hands that it is going to put back. */
  predicate Overtakes(l: Listener, step: Step) { step.Receive? && l.place.Draining? && Kept(l.place.queued) != [] }

  /** Order is kept all the way exactly if no receive overtakes. */
  lemma OrderIsKeptThroughout(capacity: int, steps: seq<Step>, l: Listener)
    requires Run(New(capacity), steps, l) && Distinct(l.published)
    ensures (forall k: nat, m | k <= |steps| && Run(New(capacity), steps[..k], m) :: InOrder(m)) <==>
            (forall k: nat, m | k < |steps| && Run(New(capacity), steps[..k], m) :: !Overtakes(m, steps[k]))
  {
    hide InOrder, Run, Overtaken, Overtakes, Distinct, Passed;
    forall k: nat, m | k <= |steps| && Run(New(capacity), steps[..k], m)
      ensures InOrder(m) <==> forall e | e in Overtaken(New(capacity), steps[..k]) :: e !in m.received + Arriving(m)
    {
      RunFrom(New(capacity), steps, k, m, l);
      DistinctBefore(m, steps[k..], l);
      OrderDependsOnOvertaken(capacity, steps[..k], m);
    }
    if k: nat, m :| k < |steps| && Run(New(capacity), steps[..k], m) && Overtakes(m, steps[k]) {
      var next := OneMore(New(capacity), steps, k, m, l);
      var e := PassedIsThere(m, next, steps[k]);
      assert e in Overtaken(New(capacity), steps[..k + 1]) && e in next.received + Arriving(next);
      assert !InOrder(next);
    } else {
      forall k: nat, m | k <= |steps| && Run(New(capacity), steps[..k], m)
        ensures Overtaken(New(capacity), steps[..k]) == {}
      {
        NoneOvertaken(New(capacity), steps, k);
      }
    }
  }

  lemma SlicesOfRest(steps: seq<Step>, k: nat)
    requires 0 < k <= |steps|
    ensures steps[..k] != [] && steps[..k][0] == steps[0]
    ensures steps[..k][1..] == steps[1..][..k - 1] && steps[k..] == steps[1..][k - 1..]
  {
  }

  lemma {:induction false} RunFrom(l: Listener, steps: seq<Step>, k: nat, m: Listener, n: Listener)
    requires Run(l, steps, n) && k <= |steps| && Run(l, steps[..k], m)
    ensures Run(m, steps[k..], n)
    decreases k
  {
    hide Enabled, Next;
    if k == 0 {
      assert steps[..k] == [] && steps[k..] == steps;
    } else {
      SlicesOfRest(steps, k);
      assert Run(Next(l, steps[0]), steps[1..][..k - 1], m);
      RunFrom(Next(l, steps[0]), steps[1..], k - 1, m, n);
    }
  }

  /** The state after one more step. */
  lemma {:induction false} OneMore(l: Listener, steps: seq<Step>, k: nat, m: Listener, n: Listener) returns (next: Listener)
    requires Run(l, steps, n) && k < |steps| && Run(l, steps[..k], m)
    ensures Enabled(m, steps[k]) && next == Next(m, steps[k]) && Run(l, steps[..k + 1], next)
    ensures Overtaken(l, steps[..k + 1]) == Overtaken(l, steps[..k]) + Passed(m, steps[k])
    decreases k
  {
    hide Enabled, Next, Passed;
    SlicesOfRest(steps, k + 1);
    if k == 0 {
      assert steps[..k] == [] && steps[..k + 1] == [steps[0]] && [steps[0]][1..] == [];
      next := Next(m, steps[0]);
      assert Overtaken(next, []) == {};
    } else {
      SlicesOfRest(steps, k);
      next := OneMore(Next(l, steps[0]), steps[1..], k - 1, m, n);
    }
  }

  lemma PassedIsThere(m: Listener, next: Listener, step: Step) returns (e: Event)
    requires Overtakes(m, step) && Enabled(m, step) && next == Next(m, step)
    ensures e in Passed(m, step) && e in next.received + Arriving(next)
  {
    e := Kept(m.place.queued)[0];
    assert e in Arriving(next);
  }

  lemma {:induction false} NoneOvertaken(l: Listener, steps: seq<Step>, k: nat)
    requires k <= |steps|
    requires forall i: nat, m | i < |steps| && Run(l, steps[..i], m) :: !Overtakes(m, steps[i])
    ensures Overtaken(l, steps[..k]) == {}
    decreases k
  {
    hide Enabled, Next, Overtakes, Passed;
    if k > 0 && Enabled(l, steps[0]) {
      SlicesOfRest(steps, k);
      assert steps[..0] == [] && Run(l, steps[..0], l);
      NonePassed(l, steps[0]);
      var next := Next(l, steps[0]);
      forall i: nat, m | i < |steps[1..]| && Run(next, steps[1..][..i], m)
        ensures !Overtakes(m, steps[1..][i])
      {
        SlicesOfRest(steps, i + 1);
        assert Run(l, steps[..i + 1], m);
      }
      NoneOvertaken(next, steps[1..], k - 1);
    }
  }

  lemma NonePassed(l: Listener, step: Step)
    requires !Overtakes(l, step)
    ensures Passed(l, step) == {}
  {
  }

  /** An overtaken event other than tool output keeps an open listener out of order for good. */
  lemma OvertakenOutputOnly(capacity: int, steps: seq<Step>, l: Listener, e: Event)
    requires Run(New(capacity), steps, l) && Distinct(l.published) && !l.place.Closed?
    requires e in Overtaken(New(capacity), steps) && !e.disposable
    ensures !InOrder(l)
  {
    hide InOrder, Run, Overtaken, Within, Distinct;
    OrderDependsOnOvertaken(capacity, steps, l);
    OnlyToolOutputIsLost(capacity, steps, l);
    OvertakenIsPublished(capacity, steps, l, e);
    PendingArrives(l, e);
  }

  lemma OvertakenIsPublished(capacity: int, steps: seq<Step>, l: Listener, e: Event)
    requires Run(New(capacity), steps, l) && Distinct(l.published) && e in Overtaken(New(capacity), steps)
    ensures e in l.published
  {
    hide Run, Overtaken, ArrivingOk, ReceivedOk, Distinct;
    NewAt(capacity);
    RunAt(New(capacity), steps, l, {});
  }

  lemma PendingArrives(l: Listener, e: Event)
    requires !e.disposable && multiset(l.published)[e] == multiset(l.received)[e] + multiset(Pending(l))[e] && e in l.published
    ensures e in l.received + Arriving(l)
  {
    hide Kept;
    if e in Pending(l) {
      match l.place {
        case Draining(_, queued) => KeptHas(queued, e);
        case Refilling(_, rest, _) => KeptHas(rest, e);
        case _ =>
      }
    } else {
      assert e in multiset(l.received);
    }
  }

  lemma {:induction false} KeptHas(es: seq<Event>, e: Event)
    requires !e.disposable
    ensures e in es ==> e in Kept(es)
  {
    if es != [] {
      KeptHas(es[1..], e);
    }
  }

  /** In particular a run without receives inside evictions overtakes nothing. */
  lemma {:induction false} UndisturbedOvertakesNone(l: Listener, steps: seq<Step>, m: Listener)
    requires Run(l, steps, m) && !m.disturbed
    ensures Overtaken(l, steps) == {} && !l.disturbed
    decreases |steps|
  {
    if steps != [] {
      hide Kept;
      UndisturbedOvertakesNone(Next(l, steps[0]), steps[1..], m);
    }
  }

  // ---------------------------------------------------------------------------
  // An eviction that no receive comes into
  // ---------------------------------------------------------------------------

  predicate SomeDisposable(es: seq<Event>) { exists i :: 0 <= i < |es| && es[i].disposable }

  lemma SomeDisposableFirst(es: seq<Event>)
    requires es != []
    ensures SomeDisposable(es) <==> es[0].disposable || SomeDisposable(es[1..])
  {
    if SomeDisposable(es[1..]) {
      var i :| 0 <= i < |es[1..]| && es[1..][i].disposable;
      assert es[i + 1].disposable;
    }
    if SomeDisposable(es) && !es[0].disposable {
      var i :| 0 <= i < |es| && es[i].disposable;
      assert es[1..][i - 1].disposable;
    }
  }

  /** The oldest disposable event is given up ... */
  lemma {:induction false} KeptMeans(es: seq<Event>, i: nat)
    requires i < |es| && es[i].disposable && forall j | 0 <= j < i :: !es[j].disposable
    ensures Kept(es) == es[..i] + es[i + 1..]
  {
    if i == 0 {
      assert es[..0] + es[1..] == es[1..];
    } else {
      var rest := es[1..];
      assert !es[0].disposable && forall j | 0 <= j < |rest| :: rest[j] == es[j + 1];
      KeptMeans(rest, i - 1);
      assert es[..i] == [es[0]] + rest[..i - 1] && es[i + 1..] == rest[i..];
    }
  }

  /** ... or all are kept if there is none. */
  lemma {:induction false} AllKept(es: seq<Event>)
    requires !SomeDisposable(es)
    ensures Kept(es) == es
  {
    if es != [] {
      SomeDisposableFirst(es);
      AllKept(es[1..]);
      assert es == [es[0]] + es[1..];
    }
  }

  lemma {:induction false} DrainAll(l: Listener, e: Event, queued: seq<Event>) returns (steps: seq<Step>, m: Listener)
    requires l.place == Draining(e, queued)
    ensures Run(l, steps, m) && Receive !in steps && m == l.(buffer := [], place := Refilling(e, queued + l.buffer, false))
    decreases |l.buffer|
  {
    var next := Next(l, Drain);
    if l.buffer == [] {
      m := next;
      assert Run(m, [], m);
      RunBackwards(l, Drain, [], m);
      steps := [Drain] + [];
      assert queued + l.buffer == queued;
    } else {
      var rest;
      rest, m := DrainAll(next, e, queued + [l.buffer[0]]);
      RunBackwards(l, Drain, rest, m);
      steps := [Drain] + rest;
      assert queued + [l.buffer[0]] + l.buffer[1..] == queued + l.buffer;
    }
  }

  lemma RefillStep(l: Listener, e: Event, rest: seq<Event>, removed: bool)
    requires l.place == Refilling(e, rest, removed) && rest != [] && |l.buffer| + |rest| <= l.capacity
    ensures Enabled(l, Refill)
    ensures var m, gone := Next(l, Refill), !removed && rest[0].disposable;
            && m.place == Refilling(e, rest[1..], removed || gone) && m.capacity == l.capacity && m.received == l.received
            && m.buffer == if gone then l.buffer else l.buffer + [rest[0]]
  {
  }

  lemma {:induction false} RefillAll(l: Listener, e: Event, rest: seq<Event>, removed: bool) returns (steps: seq<Step>, m: Listener)
    requires l.place == Refilling(e, rest, removed) && |l.buffer| + |rest| <= l.capacity
    ensures Run(l, steps, m) && Receive !in steps && m.capacity == l.capacity && m.received == l.received
    ensures m.buffer == l.buffer + (if removed then rest else Kept(rest))
    ensures m.place == Refilling(e, [], removed || SomeDisposable(rest))
    decreases |rest|
  {
    hide Run, Next, Enabled, SomeDisposable, Kept;
    if rest == [] {
      m, steps := l, [];
      NothingRun(l);
      NothingKept();
      assert l.buffer + [] == l.buffer;
    } else {
      RefillStep(l, e, rest, removed);
      var next := Next(l, Refill);
      var later;
      KeptFirst(rest);
      SomeDisposableFirst(rest);
      var gone := !removed && rest[0].disposable;
      later, m := RefillAll(next, e, rest[1..], removed || gone);
      RunBackwards(l, Refill, later, m);
      steps := [Refill] + later;
      var left := if removed then rest else Kept(rest);
      assert !gone ==> left == [rest[0]] + left[1..];
      assert !gone ==> l.buffer + [rest[0]] + left[1..] == l.buffer + left;
    }
  }

  lemma NothingKept()
    ensures Kept([]) == [] && !SomeDisposable([])
  {
  }

  lemma NothingRun(l: Listener)
    ensures Run(l, [], l)
  {
  }

  lemma {:induction false} RunsTogether(l: Listener, a: seq<Step>, m: Listener, b: seq<Step>, n: Listener)
    requires Run(l, a, m) && Run(m, b, n)
    ensures Run(l, a + b, n)
    decreases |a|
  {
    hide Enabled, Next;
    if a == [] {
      assert a + b == b;
    } else {
      assert (a + b)[0] == a[0] && (a + b)[1..] == a[1..] + b;
      RunsTogether(Next(l, a[0]), a[1..], m, b, n);
    }
  }

  /**
   * A full listener, an event that is no tool output, and no receive meanwhile: the oldest tool-output delta makes room for
   * the event; a listener without one is closed and keeps what it has.
   */
  lemma OldestMakesRoom(l: Listener, e: Event) returns (steps: seq<Step>, m: Listener)
    requires l.place.Idle? && |l.buffer| == l.capacity && l.capacity > 0 && !e.disposable
    ensures Run(l, steps, m) && Receive !in steps && m.received == l.received
    ensures forall i | 0 <= i < |l.buffer| && l.buffer[i].disposable && (forall j | 0 <= j < i :: !l.buffer[j].disposable) ::
              m.place.Idle? && m.buffer == l.buffer[..i] + l.buffer[i + 1..] + [e]
    ensures (forall i | 0 <= i < |l.buffer| :: !l.buffer[i].disposable) ==> m.place.Closed? && m.buffer == l.buffer
  {
    hide Run, Kept;
    forall i | 0 <= i < |l.buffer| && l.buffer[i].disposable && (forall j | 0 <= j < i :: !l.buffer[j].disposable)
      ensures SomeDisposable(l.buffer) && Kept(l.buffer) == l.buffer[..i] + l.buffer[i + 1..]
    {
      KeptMeans(l.buffer, i);
    }
    if !SomeDisposable(l.buffer) {
      AllKept(l.buffer);
    }
    var a := Next(l, Publish(e));
    var drains, b := DrainAll(a, e, []);
    assert [] + l.buffer == l.buffer;
    var refills, c := RefillAll(b, e, l.buffer, false);
    assert [] + Kept(l.buffer) == Kept(l.buffer);
    KeptIsShorter(l.buffer);
    m := Next(c, Settle);
    NothingRun(m);
    RunBackwards(c, Settle, [], m);
    RunsTogether(b, refills, c, [Settle] + [], m);
    RunsTogether(a, drains, b, refills + ([Settle] + []), m);
    RunBackwards(l, Publish(e), drains + (refills + ([Settle] + [])), m);
    steps := [Publish(e)] + (drains + (refills + ([Settle] + [])));
  }

  lemma {:induction false} KeptIsShorter(es: seq<Event>)
    ensures |Kept(es)| == |es| - if SomeDisposable(es) then 1 else 0
  {
    hide SomeDisposable;
    if es == [] {
      NothingKept();
    } else {
      SomeDisposableFirst(es);
      KeptIsShorter(es[1..]);
    }
  }
}
