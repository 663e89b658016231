/**
 * The durable event log of a session and its live subscribers, as one step system.
 * A step is one critical section, one channel operation, or one database transaction,
 * so that steps of appenders, subscribers and readers can come in any order.
 */
module EventLog {

  // ---------------------------------------------------------------------------
  // State
  // ---------------------------------------------------------------------------

  /** An event offered for appending; `valid` says whether its type is known and its data is JSON. */
  datatype NewEvent = NewEvent(kind: string, data: string, valid: bool)

  datatype Event = Event(sequence: int, kind: string, data: string)

  datatype Option<T> = None | Some(value: T)

  /** A bounded queue of events; what it holds can still be read once it is closed. */
  datatype Channel = Channel(buffer: seq<Event>, capacity: nat, closed: bool)

  /**
   * A subscription: `after` filters duplicates, `registered` says whether events are still published to it.
   * The rest is its history: the cursor it asked for, the replay it was given and what its reader took from
   * the channel; it is owed the log from `first` on, and has been shown the log up to `seen`.
   */
  datatype Subscriber = Subscriber(
    after: int, channel: Channel, registered: bool,
    cursor: int, replay: seq<Event>, received: seq<Event>, first: nat, seen: nat)

  /**
   * Who holds the subscriber lock: a publisher, with the subscribers it still has to visit and the one it is
   * at, or a replay, with the rows of its query and the length of the log when it ran.
   */
  datatype Holder =
    | Nobody
    | Publishing(todo: set<nat>, current: Option<(nat, nat)>)
    | Replaying(cursor: int, items: seq<Event>, upTo: nat)

  /**
   * One session: its table of events and its row for the next sequence number, the batch of the appender that
   * holds the commit lock, how much of the log is published, and every subscription ever made.
   */
  datatype Session = Session(
    log: seq<Event>, next: Option<int>, batch: Option<seq<Event>>, published: nat, holder: Holder,
    subscribers: map<nat, Subscriber>)

  const NEW_SESSION := Session([], None, None, 0, Nobody, map[])

  // ---------------------------------------------------------------------------
  // Steps
  // ---------------------------------------------------------------------------

  datatype Step =
    | Commit(pending: seq<NewEvent>)
    | BeginPublish
    | Visit(id: nat)
    | Offer
    | EndPublish
    | BeginReplay(cursor: int)
    | FailReplay
    | Register(id: nat, capacity: int)
    | Subscribe(id: nat, capacity: int)
    | Receive(id: nat)
    | Close(id: nat)

  predicate AllValid(pending: seq<NewEvent>) { forall i | 0 <= i < |pending| :: pending[i].valid }

  function NextSequence(s: Session): int { if s.next.None? then 0 else s.next.value }

  function Numbered(pending: seq<NewEvent>, next: int): (events: seq<Event>)
    ensures |events| == |pending|
    ensures forall i | 0 <= i < |pending| :: events[i] == Event(next + i, pending[i].kind, pending[i].data)
  {
    seq(|pending|, i requires 0 <= i < |pending| => Event(next + i, pending[i].kind, pending[i].data))
  }

  /** The rows with a greater sequence number, in order. */
  function After(log: seq<Event>, cursor: int): seq<Event> {
    if log == [] then []
    else After(log[..|log| - 1], cursor) + if log[|log| - 1].sequence > cursor then [log[|log| - 1]] else []
  }

  function Max(a: int, b: int): int { if a < b then b else a }

  function Dropped(sub: Subscriber): Subscriber { sub.(channel := sub.channel.(closed := true), registered := false) }

  function Seen(sub: Subscriber, item: Event): Subscriber { sub.(seen := Max(sub.seen, item.sequence + 1)) }

  /** Publishing an item to a subscriber: skipped, delivered, or refused by a full queue, which ends the subscription. */
  function Offered(sub: Subscriber, item: Event): Subscriber {
    if item.sequence <= sub.after then Seen(sub, item)
    else if |sub.channel.buffer| < sub.channel.capacity then
      Seen(sub, item).(channel := sub.channel.(buffer := sub.channel.buffer + [item]), after := item.sequence)
    else Dropped(sub)
  }

  function Opened(cursor: int, replay: seq<Event>, first: nat, seen: nat, capacity: int): Subscriber {
    var after := if replay == [] then cursor else replay[|replay| - 1].sequence;
    Subscriber(after, Channel([], Max(capacity, 1), false), true, cursor, replay, [], first, seen)
  }

  function Taken(sub: Subscriber): Subscriber
    requires sub.channel.buffer != []
  {
    sub.(channel := sub.channel.(buffer := sub.channel.buffer[1..]), received := sub.received + [sub.channel.buffer[0]])
  }

  function Registered(s: Session): set<nat> { set id | id in s.subscribers && s.subscribers[id].registered }

  predicate Enabled(s: Session, step: Step) {
    match step
    case Commit(pending) => s.batch.None? && AllValid(pending)
    case BeginPublish => s.batch.Some? && s.holder.Nobody?
    case Visit(id) => s.holder.Publishing? && s.holder.current.None? && id in s.holder.todo
    case Offer => s.batch.Some? && s.holder.Publishing? && s.holder.current.Some? && s.holder.current.value.0 in s.subscribers
    case EndPublish => s.batch.Some? && s.holder == Publishing({}, None)
    case BeginReplay(_) => s.holder.Nobody?
    case FailReplay => s.holder.Replaying?
    case Register(id, _) => s.holder.Replaying? && id !in s.subscribers
    case Subscribe(id, _) => s.holder.Nobody? && id !in s.subscribers
    case Receive(id) => id in s.subscribers && s.subscribers[id].channel.buffer != []
    case Close(id) => s.holder.Nobody? && id in s.subscribers
  }

  function NextOffer(s: Session, batch: seq<Event>, todo: set<nat>, id: nat, k: nat): Session
    requires id in s.subscribers
  {
    if k >= |batch| then s.(holder := Publishing(todo, None))
    else
      var sub := Offered(s.subscribers[id], batch[k]);
      s.(holder := Publishing(todo, if sub.registered then Some((id, k + 1)) else None),
         subscribers := s.subscribers[id := sub])
  }

  function Next(s: Session, step: Step): Session
    requires Enabled(s, step)
  {
    match step
    case Commit(pending) =>
      var events := Numbered(pending, NextSequence(s));
      s.(log := s.log + events, next := Some(NextSequence(s) + |events|), batch := Some(events))
    case BeginPublish => s.(holder := Publishing(Registered(s), None))
    case Visit(id) => s.(holder := Publishing(s.holder.todo - {id}, Some((id, 0))))
    case Offer => NextOffer(s, s.batch.value, s.holder.todo, s.holder.current.value.0, s.holder.current.value.1)
    case EndPublish => s.(holder := Nobody, batch := None, published := s.published + |s.batch.value|)
    case BeginReplay(cursor) => s.(holder := Replaying(cursor, After(s.log, cursor), |s.log|))
    case FailReplay => s.(holder := Nobody)
    case Register(id, capacity) =>
      var Replaying(cursor, items, upTo) := s.holder;
      s.(holder := Nobody, subscribers := s.subscribers[id := Opened(cursor, items, Max(cursor + 1, 0), upTo, capacity)])
    case Subscribe(id, capacity) =>
      s.(subscribers := s.subscribers[id := Opened(-1, [], s.published, s.published, capacity)])
    case Receive(id) => s.(subscribers := s.subscribers[id := Taken(s.subscribers[id])])
    case Close(id) =>
      var sub := s.subscribers[id];
      if sub.registered then s.(subscribers := s.subscribers[id := Dropped(sub)]) else s
  }

  /** A run: each step is enabled where it is taken. */
  predicate Run(s: Session, steps: seq<Step>, t: Session)
    decreases |steps|
  {
    if steps == [] then s == t
    else Enabled(s, steps[0]) && Run(Next(s, steps[0]), steps[1..], t)
  }

  lemma {:induction false} RunThenStep(s: Session, steps: seq<Step>, t: Session, step: Step)
    requires Run(s, steps, t) && Enabled(t, step)
    ensures Run(s, steps + [step], Next(t, step))
    decreases |steps|
  {
    if steps == [] {
      assert [step][1..] == [];
    } else {
      assert (steps + [step])[1..] == steps[1..] + [step];
      RunThenStep(Next(s, steps[0]), steps[1..], t, step);
    }
  }

  // ---------------------------------------------------------------------------
  // The invariant
  // ---------------------------------------------------------------------------

  function Span(log: seq<Event>, first: int, end: int): seq<Event> {
    if 0 <= first <= end <= |log| then log[first..end] else []
  }

  /** Everything a subscription delivered or still holds, from its replay on. */
  function Stream(sub: Subscriber): seq<Event> { sub.replay + sub.received + sub.channel.buffer }

  ghost predicate LogOk(log: seq<Event>) { forall i | 0 <= i < |log| :: log[i].sequence == i }

  ghost predicate BatchOk(s: Session) {
    && s.published <= |s.log|
    && (if s.batch.None? then s.published == |s.log| else s.batch.value == s.log[s.published..])
  }

  ghost predicate SubscriberOk(log: seq<Event>, sub: Subscriber) {
    && sub.seen <= |log|
    && Stream(sub) == Span(log, sub.first, sub.seen)
    && sub.after == (if sub.seen > sub.first then sub.seen - 1 else sub.cursor)
    && sub.cursor < sub.first
    && (sub.seen < sub.first ==> sub.first == sub.cursor + 1)
    && (sub.registered ==> !sub.channel.closed)
    && |sub.channel.buffer| <= sub.channel.capacity
  }

  /** A subscription is owed everything after its cursor, or, made without a replay, what was not yet published. */
  predicate StartsAtCursor(sub: Subscriber, published: nat) {
    sub.first == Max(sub.cursor + 1, 0) || sub.first <= published
  }

  /** How much of the log a registered subscriber has been shown at least. */
  ghost function Shown(s: Session, id: nat): int {
    if s.holder.Publishing? && s.batch.Some? then
      if id in s.holder.todo then s.published
      else if s.holder.current.Some? && s.holder.current.value.0 == id then s.published + s.holder.current.value.1
      else s.published + |s.batch.value|
    else s.published
  }

  ghost predicate HolderOk(s: Session) {
    match s.holder
    case Nobody => true
    case Publishing(todo, current) =>
      && s.batch.Some?
      && todo <= Registered(s)
      && (current.Some? ==> current.value.0 in Registered(s) - todo && current.value.1 <= |s.batch.value|)
    case Replaying(cursor, items, upTo) =>
      s.published <= upTo <= |s.log| && items == Span(s.log, Max(cursor + 1, 0), upTo)
  }

  ghost predicate SubscribersOk(s: Session) {
    forall id | id in s.subscribers ::
      && SubscriberOk(s.log, s.subscribers[id])
      && StartsAtCursor(s.subscribers[id], s.published)
      && (s.subscribers[id].registered ==> s.subscribers[id].seen >= Shown(s, id))
  }

  ghost predicate Inv(s: Session) {
    LogOk(s.log) && NextSequence(s) == |s.log| && BatchOk(s) && HolderOk(s) && SubscribersOk(s)
  }

  lemma {:induction false} AfterIsSpan(log: seq<Event>, cursor: int)
    requires LogOk(log)
    ensures After(log, cursor) == Span(log, Max(cursor + 1, 0), |log|)
  {
    if log != [] {
      var n, first := |log|, Max(cursor + 1, 0);
      AfterIsSpan(log[..n - 1], cursor);
      if first < n {
        assert log[..n - 1][first..n - 1] + [log[n - 1]] == log[first..n];
      }
    }
  }

  lemma OfferedOk(log: seq<Event>, sub: Subscriber, k: nat)
    requires LogOk(log) && k < |log| && SubscriberOk(log, sub) && sub.registered && k <= sub.seen
    requires StartsAtCursor(sub, k)
    ensures var t := Offered(sub, log[k]); SubscriberOk(log, t) && (t.registered ==> t.seen >= k + 1)
  {
    var t := Offered(sub, log[k]);
    if t.registered && k > sub.after {
      assert k == sub.seen >= sub.first;
      StreamGrows(sub, log[k]);
    } else if k <= sub.after && sub.seen <= sub.first {
      assert Span(log, sub.first, sub.seen) == [] == Span(log, sub.first, t.seen);
    }
  }

  lemma StreamGrows(sub: Subscriber, item: Event)
    requires item.sequence > sub.after && |sub.channel.buffer| < sub.channel.capacity
    ensures Stream(Offered(sub, item)) == Stream(sub) + [item]
  {
    assert sub.replay + sub.received + (sub.channel.buffer + [item]) == sub.replay + sub.received + sub.channel.buffer + [item];
  }

  lemma OpenedOk(log: seq<Event>, cursor: int, items: seq<Event>, first: nat, upTo: nat, capacity: int)
    requires LogOk(log) && upTo <= |log| && items == Span(log, first, upTo) && cursor < first
    requires upTo < first ==> first == cursor + 1
    ensures SubscriberOk(log, Opened(cursor, items, first, upTo, capacity))
  {
  }

  lemma TakenOk(log: seq<Event>, sub: Subscriber)
    requires SubscriberOk(log, sub) && sub.channel.buffer != []
    ensures SubscriberOk(log, Taken(sub))
  {
    assert Stream(Taken(sub)) == Stream(sub);
  }

  /** Growing the log leaves subscribers as they are. */
  lemma GrownOk(log: seq<Event>, events: seq<Event>, sub: Subscriber)
    requires SubscriberOk(log, sub)
    ensures SubscriberOk(log + events, sub)
  {
    assert (log + events)[..|log|] == log;
  }

  lemma CommitKeeps(s: Session, pending: seq<NewEvent>)
    requires Inv(s) && Enabled(s, Commit(pending))
    ensures Inv(Next(s, Commit(pending)))
  {
    hide SubscriberOk;
    var t := Next(s, Commit(pending));
    var events := Numbered(pending, NextSequence(s));
    assert t.log[t.published..] == events;
    forall id | id in t.subscribers
      ensures SubscriberOk(t.log, t.subscribers[id])
    {
      GrownOk(s.log, events, s.subscribers[id]);
    }
    assert Registered(t) == Registered(s);
  }

  /** One subscriber is replaced; the others and what they have been shown stay. */
  ghost predicate OnlyChanges(s: Session, t: Session, id: nat) {
    && t.log == s.log && t.published == s.published && id in t.subscribers
    && forall i | i in t.subscribers && i != id :: i in s.subscribers && t.subscribers[i] == s.subscribers[i] && Shown(t, i) <= Shown(s, i)
  }

  lemma OneSubscriberChanges(s: Session, t: Session, id: nat)
    requires SubscribersOk(s) && OnlyChanges(s, t, id)
    requires SubscriberOk(t.log, t.subscribers[id]) && StartsAtCursor(t.subscribers[id], t.published)
    requires t.subscribers[id].registered ==> t.subscribers[id].seen >= Shown(t, id)
    ensures SubscribersOk(t)
  {
    hide SubscriberOk, Shown, StartsAtCursor;
  }

  lemma OneRegisteredChanges(s: Session, t: Session, id: nat)
    requires id in s.subscribers && s.subscribers[id].registered && id in t.subscribers && t.subscribers == s.subscribers[id := t.subscribers[id]]
    ensures Registered(t) == if t.subscribers[id].registered then Registered(s) else Registered(s) - {id}
  {
  }

  lemma OfferKeeps(s: Session)
    requires Inv(s) && Enabled(s, Offer)
    ensures Inv(Next(s, Offer))
  {
    hide SubscriberOk;
    var t := Next(s, Offer);
    var (id, k) := s.holder.current.value;
    if k < |s.batch.value| {
      assert s.batch.value[k] == s.log[s.published + k];
      OfferedOk(s.log, s.subscribers[id], s.published + k);
      OneSubscriberChanges(s, t, id);
      OneRegisteredChanges(s, t, id);
    }
  }

  lemma VisitKeeps(s: Session, id: nat)
    requires Inv(s) && Enabled(s, Visit(id))
    ensures Inv(Next(s, Visit(id)))
  {
    hide SubscriberOk;
  }

  lemma ReplayKeeps(s: Session, cursor: int)
    requires Inv(s) && Enabled(s, BeginReplay(cursor))
    ensures Inv(Next(s, BeginReplay(cursor)))
  {
    hide SubscriberOk;
    AfterIsSpan(s.log, cursor);
  }

  lemma OpeningKeeps(s: Session, step: Step)
    requires Inv(s) && Enabled(s, step) && (step.Register? || step.Subscribe?)
    ensures Inv(Next(s, step))
  {
    hide SubscriberOk;
    var t := Next(s, step);
    var sub := t.subscribers[step.id];
    match step {
      case Register(id, capacity) =>
        OpenedOk(s.log, s.holder.cursor, s.holder.items, Max(s.holder.cursor + 1, 0), s.holder.upTo, capacity);
      case Subscribe(id, capacity) =>
        OpenedOk(s.log, -1, [], s.published, s.published, capacity);
    }
    OneSubscriberChanges(s, t, step.id);
  }

  lemma ReceiveKeeps(s: Session, id: nat)
    requires Inv(s) && Enabled(s, Receive(id))
    ensures Inv(Next(s, Receive(id)))
  {
    hide SubscriberOk;
    TakenOk(s.log, s.subscribers[id]);
    OneSubscriberChanges(s, Next(s, Receive(id)), id);
    assert Registered(Next(s, Receive(id))) == Registered(s);
  }

  lemma CloseKeeps(s: Session, id: nat)
    requires Inv(s) && Enabled(s, Close(id))
    ensures Inv(Next(s, Close(id)))
  {
    var t := Next(s, Close(id));
    assert SubscriberOk(t.log, t.subscribers[id]);
    OneSubscriberChanges(s, t, id);
  }

  lemma StepKeepsInv(s: Session, step: Step)
    requires Inv(s) && Enabled(s, step)
    ensures Inv(Next(s, step))
  {
    hide SubscribersOk;
    match step {
      case Commit(pending) => CommitKeeps(s, pending);
      case Visit(id) => VisitKeeps(s, id);
      case Offer => OfferKeeps(s);
      case BeginReplay(cursor) => ReplayKeeps(s, cursor);
      case Register(_, _) => OpeningKeeps(s, step);
      case Subscribe(_, _) => OpeningKeeps(s, step);
      case Receive(id) => ReceiveKeeps(s, id);
      case Close(id) => CloseKeeps(s, id);
      case _ => PublicationEdgeKeeps(s, step);
    }
  }

  lemma PublicationEdgeKeeps(s: Session, step: Step)
    requires Inv(s) && Enabled(s, step) && (step.BeginPublish? || step.EndPublish? || step.FailReplay?)
    ensures Inv(Next(s, step))
  {
    hide SubscriberOk;
    var t := Next(s, step);
    if step.EndPublish? {
      assert |s.batch.value| == |s.log| - s.published;
    }
  }

  // ---------------------------------------------------------------------------
  // Every run
  // ---------------------------------------------------------------------------

  lemma {:induction false} RunKeepsInv(s: Session, steps: seq<Step>, t: Session)
    requires Inv(s) && Run(s, steps, t)
    ensures Inv(t)
    decreases |steps|
  {
    hide Inv, Enabled, Next;
    if steps != [] {
      StepKeepsInv(s, steps[0]);
      RunKeepsInv(Next(s, steps[0]), steps[1..], t);
    }
  }

  /** A subscription only moves on: what it delivered stays, and once cut off nothing is added. */
  predicate Extends(s: Subscriber, t: Subscriber) {
    && t.cursor == s.cursor && t.first == s.first && t.replay == s.replay
    && s.received <= t.received && Stream(s) <= Stream(t)
    && (!s.registered ==> !t.registered && Stream(t) == Stream(s))
  }

  lemma OneStepExtends(s: Session, step: Step, id: nat)
    requires Inv(s) && Enabled(s, step) && id in s.subscribers
    ensures var t := Next(s, step); s.log <= t.log && id in t.subscribers && Extends(s.subscribers[id], t.subscribers[id])
  {
    hide SubscriberOk, LogOk, After, Numbered;
    var t := Next(s, step);
    var was, now := s.subscribers[id], t.subscribers[id];
    match step {
      case Receive(i) => assert i == id ==> Stream(now) == Stream(was);
      case Offer =>
        assert was.registered || now == was;
        if |now.channel.buffer| > |was.channel.buffer| {
          assert Stream(now) == Stream(was) + [now.channel.buffer[|was.channel.buffer|]];
        }
      case _ =>
    }
  }

  lemma ExtendsTwice(r: Subscriber, s: Subscriber, t: Subscriber)
    requires Extends(r, s) && Extends(s, t)
    ensures Extends(r, t)
  {
    hide Stream;
  }

  lemma {:induction false} RunExtends(s: Session, steps: seq<Step>, t: Session, id: nat)
    requires Inv(s) && Run(s, steps, t) && id in s.subscribers
    ensures s.log <= t.log && id in t.subscribers && Extends(s.subscribers[id], t.subscribers[id])
    decreases |steps|
  {
    hide Inv, Enabled, Next;
    if steps == [] {
      assert Extends(s.subscribers[id], s.subscribers[id]);
    } else {
      var next := Next(s, steps[0]);
      StepKeepsInv(s, steps[0]);
      OneStepExtends(s, steps[0], id);
      RunExtends(next, steps[1..], t, id);
      ExtendsTwice(s.subscribers[id], next.subscribers[id], t.subscribers[id]);
    }
  }

  /** No appender is between its commit and the end of its publication, and no publisher or replay holds the lock. */
  predicate Quiet(s: Session) { s.batch.None? && s.holder.Nobody? }

  lemma StreamOf(s: Session, id: nat)
    requires Inv(s) && id in s.subscribers
    ensures var sub := s.subscribers[id];
            && Stream(sub) <= After(s.log, sub.first - 1)
            && (Quiet(s) && sub.registered ==> Stream(sub) == After(s.log, sub.first - 1))
            && forall i | 0 <= i < |Stream(sub)| :: Stream(sub)[i].sequence == sub.first + i
  {
    var sub := s.subscribers[id];
    AfterIsSpan(s.log, sub.first - 1);
    assert SubscriberOk(s.log, sub);
    if sub.first <= sub.seen {
      SliceOfSuffix(s.log, sub.first, sub.seen);
    }
  }

  lemma SliceOfSuffix(log: seq<Event>, i: nat, j: nat)
    requires i <= j <= |log|
    ensures log[i..j] == log[i..|log|][..j - i]
  {
  }

  lemma NewSessionOk()
    ensures Inv(NEW_SESSION)
  {
  }

  /**
   * In every run, whatever a subscription replayed, delivered and still holds is a gap-free, duplicate-free,
   * in-order run of the committed events it is owed, and all of them whenever no publication is under way
   * and it was not cut off.
   */
  lemma StreamIsContiguous(steps: seq<Step>, s: Session, id: nat)
    requires Run(NEW_SESSION, steps, s) && id in s.subscribers
    ensures var sub := s.subscribers[id];
            && Stream(sub) <= After(s.log, sub.first - 1)
            && (Quiet(s) && sub.registered ==> Stream(sub) == After(s.log, sub.first - 1))
            && forall i | 0 <= i < |Stream(sub)| :: Stream(sub)[i].sequence == sub.first + i
  {
    hide *;
    NewSessionOk();
    RunKeepsInv(NEW_SESSION, steps, s);
    StreamOf(s, id);
  }

  lemma {:induction false} AfterNegative(log: seq<Event>, cursor: int)
    requires LogOk(log)
    ensures After(log, Max(cursor + 1, 0) - 1) == After(log, cursor)
  {
    AfterIsSpan(log, cursor);
    AfterIsSpan(log, Max(cursor + 1, 0) - 1);
  }

  /**
   * The handoff from replay to live events: from registration on, in every run, the subscription is a prefix of
   * the rows after the requested cursor, never moves back, and is all of them when nothing is being published.
   */
  lemma ReplayThenLive(before: seq<Step>, s: Session, id: nat, capacity: int, later: seq<Step>, t: Session)
    requires Run(NEW_SESSION, before, s) && Enabled(s, Register(id, capacity))
    requires Run(Next(s, Register(id, capacity)), later, t)
    ensures id in t.subscribers
    ensures var sub, cursor := t.subscribers[id], s.holder.cursor;
            && s.holder.items <= Stream(sub) <= After(t.log, cursor)
            && (Quiet(t) && sub.registered ==> Stream(sub) == After(t.log, cursor))
  {
    hide Run, Stream, After, SubscribersOk, Extends;
    NewSessionOk();
    RunKeepsInv(NEW_SESSION, before, s);
    var start := Next(s, Register(id, capacity));
    StepKeepsInv(s, Register(id, capacity));
    RunKeepsInv(start, later, t);
    RunExtends(start, later, t, id);
    OpenedStream(s.holder.cursor, s.holder.items, Max(s.holder.cursor + 1, 0), s.holder.upTo, capacity);
    ExtendedStream(start.subscribers[id], t.subscribers[id]);
    StreamOf(t, id);
    AfterNegative(t.log, s.holder.cursor);
  }

  lemma OpenedStream(cursor: int, replay: seq<Event>, first: nat, seen: nat, capacity: int)
    ensures Stream(Opened(cursor, replay, first, seen, capacity)) == replay
  {
  }

  lemma ExtendedStream(s: Subscriber, t: Subscriber)
    requires Extends(s, t)
    ensures Stream(s) <= Stream(t) && t.first == s.first
  {
  }

  /** Only its reader, or a full queue, ends a subscription. */
  lemma CutOffOnlyWhenFull(s: Session, step: Step, id: nat)
    requires Enabled(s, step) && id in s.subscribers && s.subscribers[id].registered
    requires id !in Registered(Next(s, step))
    ensures step == Close(id) || (step.Offer? && |s.subscribers[id].channel.buffer| >= s.subscribers[id].channel.capacity)
  {
  }
}
