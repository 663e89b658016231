/**
 * The repository of event logs. Each method is what one goroutine does inside one critical section,
 * and each is proved to be a step, or a run of steps, of the session's step system.
 */
module EventRepository {
  import opened EventLog

  datatype Result<T> = Ok(value: T) | Err

  /** The steps a publisher takes, and those that can come between them while it holds both locks. */
  predicate PublicationStep(step: Step) {
    step.BeginPublish? || step.Visit? || step.Offer? || step.EndPublish? || step.Receive?
  }

  ghost predicate PublicationRun(s: Session, steps: seq<Step>, t: Session) {
    Run(s, steps, t) && forall i | 0 <= i < |steps| :: PublicationStep(steps[i])
  }

  lemma PublicationThenStep(s: Session, steps: seq<Step>, t: Session, step: Step)
    requires PublicationRun(s, steps, t) && Enabled(t, step) && PublicationStep(step)
    ensures PublicationRun(s, steps + [step], Next(t, step))
  {
    hide Enabled, Next, Run;
    RunThenStep(s, steps, t, step);
  }

  lemma FirstPublicationStep(s: Session)
    requires Inv(s) && s.batch.Some? && s.holder.Nobody?
    ensures var t := s.(holder := Publishing(Registered(s), None)); PublicationRun(s, [BeginPublish], t) && Inv(t)
  {
    StepKeepsInv(s, BeginPublish);
    assert [BeginPublish][1..] == [];
  }

  lemma StepTaken(start: Session, steps: seq<Step>, s: Session, step: Step)
    requires PublicationRun(start, steps, s) && Inv(s) && Enabled(s, step) && PublicationStep(step)
    ensures PublicationRun(start, steps + [step], Next(s, step)) && Inv(Next(s, step))
  {
    hide PublicationRun, Inv, Enabled, Next;
    StepKeepsInv(s, step);
    PublicationThenStep(start, steps, s, step);
  }

  // The publisher's steps, with the states they lead to.

  lemma VisitTaken(start: Session, steps: seq<Step>, s: Session, todo: set<nat>, id: nat)
    requires PublicationRun(start, steps, s) && Inv(s) && s.holder == Publishing(todo, None) && id in todo
    ensures var t := s.(holder := Publishing(todo - {id}, Some((id, 0)))); PublicationRun(start, steps + [Visit(id)], t) && Inv(t)
  {
    hide PublicationRun, Inv;
    StepTaken(start, steps, s, Visit(id));
  }

  lemma OfferTaken(start: Session, steps: seq<Step>, s: Session, batch: seq<Event>, todo: set<nat>, id: nat, k: nat)
    requires PublicationRun(start, steps, s) && Inv(s) && s.batch == Some(batch)
    requires s.holder == Publishing(todo, Some((id, k))) && id in s.subscribers
    ensures var t := NextOffer(s, batch, todo, id, k); PublicationRun(start, steps + [Offer], t) && Inv(t)
  {
    hide PublicationRun, Inv, NextOffer;
    StepTaken(start, steps, s, Offer);
  }

  lemma EndTaken(start: Session, steps: seq<Step>, s: Session, batch: seq<Event>)
    requires PublicationRun(start, steps, s) && Inv(s) && s.batch == Some(batch) && s.holder == Publishing({}, None)
    ensures var t := s.(holder := Nobody, batch := None, published := s.published + |batch|);
            PublicationRun(start, steps + [EndPublish], t) && Inv(t)
  {
    hide PublicationRun, Inv;
    StepTaken(start, steps, s, EndPublish);
  }

  lemma CurrentIsRegistered(s: Session)
    requires Inv(s) && s.holder.Publishing? && s.holder.current.Some?
    ensures s.holder.current.value.0 in s.subscribers && s.subscribers[s.holder.current.value.0].registered
  {
  }

  lemma TodoIsKnown(s: Session)
    requires Inv(s) && s.holder.Publishing?
    ensures s.batch.Some? && forall id | id in s.holder.todo :: id in s.subscribers
  {
  }

  lemma PublishedAll(s: Session)
    requires Inv(s) && s.batch.None?
    ensures s.published == |s.log|
  {
  }

  lemma NextIsLength(s: Session)
    requires Inv(s)
    ensures NextSequence(s) == |s.log|
  {
  }

  lemma {:induction false} AfterSelects(log: seq<Event>, cursor: int)
    ensures forall e :: e in After(log, cursor) <==> e in log && e.sequence > cursor
  {
    if log != [] {
      AfterSelects(log[..|log| - 1], cursor);
    }
  }

  lemma AfterStep(log: seq<Event>, k: nat, cursor: int)
    requires k < |log|
    ensures After(log[..k + 1], cursor) == After(log[..k], cursor) + if log[k].sequence > cursor then [log[k]] else []
  {
    assert log[..k + 1][..k] == log[..k];
  }

  class Repository {
    var sessions: map<string, Session>
    var nextSubID: nat

    ghost predicate Valid()
      reads this
    {
      forall sid | sid in sessions :: Inv(sessions[sid]) && forall id | id in sessions[sid].subscribers :: id < nextSubID
    }

    function At(sid: string): Session
      reads this
    {
      if sid in sessions then sessions[sid] else NEW_SESSION
    }

    constructor ()
      ensures Valid() && forall sid :: At(sid) == NEW_SESSION
    {
      sessions, nextSubID := map[], 0;
    }

    lemma AtIsOk(sid: string)
      requires Valid()
      ensures Inv(At(sid)) && forall id | id in At(sid).subscribers :: id < nextSubID
    {
      NewSessionOk();
    }

    /**
     * The transaction of an append, under the session's commit lock. It commits the whole batch, numbered from the
     * next sequence, or, when an event is not acceptable or a builder, an insertion or a projector fails, nothing.
     */
    method CommitBatch(sid: string, pending: seq<NewEvent>, fails: bool) returns (r: Result<seq<Event>>)
      requires Valid() && At(sid).batch.None?
      modifies this
      ensures Valid()
      ensures r.Ok? <==> sid != "" && !fails && forall i | 0 <= i < |pending| :: pending[i].valid
      ensures r.Ok? ==>
                && At(sid).log == old(At(sid)).log + r.value && At(sid).batch == Some(r.value) && |r.value| == |pending|
                && At(sid).subscribers == old(At(sid)).subscribers && At(sid).published == old(At(sid)).published
                && forall i | 0 <= i < |pending| ::
                     r.value[i].sequence == |old(At(sid)).log| + i && r.value[i].kind == pending[i].kind && r.value[i].data == pending[i].data
      ensures r.Ok? ==> sessions == old(sessions)[sid := Next(old(At(sid)), Commit(pending))] && r.value == Numbered(pending, NextSequence(old(At(sid))))
      ensures r.Err? ==> sessions == old(sessions)
      ensures nextSubID == old(nextSubID)
    {
      if sid == "" {
        return Err;
      }
      var s := At(sid);
      var next := NextSequence(s);
      var committed: seq<Event> := [];
      while |committed| < |pending|
        invariant |committed| <= |pending| && AllValid(pending[..|committed|])
        invariant committed == Numbered(pending, next)[..|committed|]
      {
        var i := |committed|;
        if !pending[i].valid {
          return Err;
        }
        committed := committed + [Event(next + i, pending[i].kind, pending[i].data)];
      }
      assert pending[..|committed|] == pending && committed == Numbered(pending, next);
      if fails {
        return Err;
      }
      AtIsOk(sid);
      NextIsLength(s);
      StepKeepsInv(s, Commit(pending));
      sessions := sessions[sid := s.(log := s.log + committed, next := Some(next + |committed|), batch := Some(committed))];
      return Ok(committed);
    }

    /** Session `sid` moved on by a run of publication steps that left its log as it was; other sessions did not move. */
    twostate predicate Published(sid: string, start: Session, steps: seq<Step>)
      reads this
    {
      && sid in old(sessions) && sid in sessions
      && PublicationRun(start, steps, sessions[sid])
      && sessions == old(sessions)[sid := sessions[sid]]
      && var s, t := old(sessions[sid]), sessions[sid];
         t == s.(subscribers := t.subscribers, holder := t.holder) && t.subscribers.Keys == s.subscribers.Keys
    }

    /** Readers of this session take any number of events from any channels. */
    method Receives(sid: string, ghost start: Session, ghost before: seq<Step>) returns (ghost steps: seq<Step>)
      requires Valid() && sid in sessions && PublicationRun(start, before, sessions[sid])
      modifies this`sessions
      ensures Valid() && Published(sid, start, steps) && sessions[sid].holder == old(sessions[sid].holder)
    {
      hide PublicationRun, Inv;
      steps := before;
      var n: nat := *;
      while n > 0
        invariant Valid() && Published(sid, start, steps) && sessions[sid].holder == old(sessions[sid].holder)
      {
        var id: nat := *;
        var s := sessions[sid];
        if id in s.subscribers && s.subscribers[id].channel.buffer != [] {
          StepKeepsInv(s, Receive(id));
          PublicationThenStep(start, steps, s, Receive(id));
          steps := steps + [Receive(id)];
          sessions := sessions[sid := s.(subscribers := s.subscribers[id := Taken(s.subscribers[id])])];
        }
        n := n - 1;
      }
    }

    /** The batch goes to one subscriber, event by event, until one does not fit. Readers may act between any two. */
    method PublishTo(sid: string, id: nat, todo: set<nat>, batch: seq<Event>, ghost start: Session, ghost before: seq<Step>)
      returns (ghost steps: seq<Step>)
      requires Valid() && sid in sessions && PublicationRun(start, before, sessions[sid])
      requires sessions[sid].batch == Some(batch) && sessions[sid].holder == Publishing(todo, Some((id, 0))) && id in sessions[sid].subscribers
      modifies this`sessions
      ensures Valid() && Published(sid, start, steps) && sessions[sid].holder == Publishing(todo, None)
    {
      hide PublicationRun, Inv, Next, Enabled;
      steps := before;
      var keep, k := true, 0;
      while keep && k < |batch|
        invariant Valid() && Published(sid, start, steps) && 0 <= k
        invariant sessions[sid].holder == Publishing(todo, if keep then Some((id, k)) else None)
        decreases |batch| - k
      {
        steps := Receives(sid, start, steps);
        var s := sessions[sid];
        var item, sub := batch[k], s.subscribers[id];
        CurrentIsRegistered(s);
        OfferTaken(start, steps, s, batch, todo, id, k);
        steps := steps + [Offer];
        if item.sequence <= sub.after {
          sub := Seen(sub, item);
        } else if |sub.channel.buffer| < sub.channel.capacity {
          sub := Seen(sub, item).(channel := sub.channel.(buffer := sub.channel.buffer + [item]), after := item.sequence);
        } else {
          sub := sub.(channel := sub.channel.(closed := true), registered := false);
          keep := false;
        }
        assert sub == Offered(s.subscribers[id], item) && sub.registered == keep;
        k := k + 1;
        sessions := sessions[sid := s.(holder := Publishing(todo, if keep then Some((id, k)) else None), subscribers := s.subscribers[id := sub])];
      }
      if keep {
        var s := sessions[sid];
        OfferTaken(start, steps, s, batch, todo, id, k);
        steps := steps + [Offer];
        sessions := sessions[sid := s.(holder := Publishing(todo, None))];
      }
    }

    /**
     * Publication, under the session's commit lock and the subscriber lock: every registered subscriber is visited
     * once, in any order. When both locks are released everything committed is published.
     */
    method PublishLocked(sid: string) returns (ghost steps: seq<Step>)
      requires Valid() && sid in sessions && sessions[sid].batch.Some? && sessions[sid].holder.Nobody?
      modifies this`sessions
      ensures Valid() && sid in sessions && sessions == old(sessions)[sid := sessions[sid]]
      ensures PublicationRun(old(sessions[sid]), steps, sessions[sid])
      ensures sessions[sid].log == old(sessions[sid].log) && sessions[sid].published == |sessions[sid].log| && Quiet(sessions[sid])
    {
      hide PublicationRun, Inv, Next, Enabled, Registered;
      ghost var start := sessions[sid];
      var batch := sessions[sid].batch.value;
      steps := [BeginPublish];
      FirstPublicationStep(start);
      var todo := Registered(sessions[sid]);
      sessions := sessions[sid := sessions[sid].(holder := Publishing(todo, None))];
      while todo != {}
        invariant Valid() && Published(sid, start, steps) && sessions[sid].holder == Publishing(todo, None)
        decreases |todo|
      {
        var id :| id in todo;
        var s := sessions[sid];
        VisitTaken(start, steps, s, todo, id);
        steps := steps + [Visit(id)];
        TodoIsKnown(s);
        todo := todo - {id};
        sessions := sessions[sid := s.(holder := Publishing(todo, Some((id, 0))))];
        steps := PublishTo(sid, id, todo, batch, start, steps);
      }
      var s := sessions[sid];
      EndTaken(start, steps, s, batch);
      steps := steps + [EndPublish];
      sessions := sessions[sid := s.(holder := Nobody, batch := None, published := s.published + |batch|)];
      PublishedAll(sessions[sid]);
    }

    /** All rows after the cursor, in sequence order. */
    method ListAll(sid: string, after: int) returns (items: seq<Event>)
      ensures items == After(At(sid).log, after)
      ensures forall e :: e in items <==> e in At(sid).log && e.sequence > after
    {
      AfterSelects(At(sid).log, after);
      items := [];
      var log := At(sid).log;
      var k := 0;
      while k < |log|
        invariant 0 <= k <= |log| && items == After(log[..k], after)
      {
        AfterStep(log, k, after);
        if log[k].sequence > after {
          items := items + [log[k]];
        }
        k := k + 1;
      }
      assert log[..k] == log;
    }

    /** First half of the handoff: the subscriber lock is taken and the replay is read. */
    method ReadReplay(sid: string, after: int, fails: bool) returns (r: Result<seq<Event>>)
      requires Valid() && At(sid).holder.Nobody?
      modifies this`sessions
      ensures Valid()
      ensures fails ==> r.Err? && sessions == old(sessions)
      ensures !fails ==> sessions == old(sessions)[sid := Next(old(At(sid)), BeginReplay(after))] && r == Ok(After(old(At(sid)).log, after))
      ensures !fails ==> r.Ok? && forall e :: e in r.value <==> e in old(At(sid)).log && e.sequence > after
      ensures !fails ==> At(sid) == old(At(sid)).(holder := At(sid).holder) && At(sid).holder == Replaying(after, r.value, |old(At(sid)).log|)
    {
      if fails {
        return Err;
      }
      var items := ListAll(sid, after);
      AtIsOk(sid);
      StepKeepsInv(At(sid), BeginReplay(after));
      sessions := sessions[sid := At(sid).(holder := Replaying(after, items, |At(sid).log|))];
      return Ok(items);
    }

    /** Second half: the subscription starts after the last replayed event, and the lock is released. */
    method SubscribeLockedHeld(sid: string, capacity: int) returns (id: nat)
      requires Valid() && At(sid).holder.Replaying?
      modifies this
      ensures Valid() && id == old(nextSubID) && nextSubID == id + 1
      ensures Enabled(old(At(sid)), Register(id, capacity))
      ensures id in At(sid).subscribers && At(sid).holder.Nobody?
      ensures var sub, replay := At(sid).subscribers[id], old(At(sid)).holder.items;
              && sub.registered && sub.received == [] && sub.replay == replay && sub.cursor == old(At(sid)).holder.cursor
              && sub.channel == Channel([], if capacity < 1 then 1 else capacity, false)
              && sub.after == if replay == [] then sub.cursor else replay[|replay| - 1].sequence
      ensures sessions == old(sessions)[sid := Next(old(At(sid)), Register(id, capacity))]
    {
      hide Inv;
      AtIsOk(sid);
      var s := At(sid);
      var Replaying(cursor, items, upTo) := s.holder;
      var cutoff := cursor;
      if |items| > 0 {
        cutoff := items[|items| - 1].sequence;
      }
      id := nextSubID;
      nextSubID := nextSubID + 1;
      StepKeepsInv(s, Register(id, capacity));
      var room := capacity;
      if room < 1 {
        room := 1;
      }
      var sub := Subscriber(cutoff, Channel([], room, false), true, cursor, items, [], Max(cursor + 1, 0), upTo);
      sessions := sessions[sid := s.(holder := Nobody, subscribers := s.subscribers[id := sub])];
    }

    /** A live subscription without a replay. */
    method SubscribeLive(sid: string, capacity: int) returns (id: nat)
      requires Valid() && At(sid).holder.Nobody?
      modifies this
      ensures Valid() && id == old(nextSubID) && nextSubID == id + 1
      ensures Enabled(old(At(sid)), Subscribe(id, capacity))
      ensures id in At(sid).subscribers
      ensures var sub := At(sid).subscribers[id];
              sub.registered && sub.received == [] && sub.replay == [] && sub.channel == Channel([], if capacity < 1 then 1 else capacity, false)
      ensures sessions == old(sessions)[sid := Next(old(At(sid)), Subscribe(id, capacity))]
    {
      hide Inv;
      AtIsOk(sid);
      var s := At(sid);
      id := nextSubID;
      nextSubID := nextSubID + 1;
      StepKeepsInv(s, Subscribe(id, capacity));
      var sub := Subscriber(-1, Channel([], if capacity < 1 then 1 else capacity, false), true, -1, [], [], s.published, s.published);
      sessions := sessions[sid := s.(subscribers := s.subscribers[id := sub])];
    }

    /** Closing a subscription, once or again. */
    method CloseSubscription(sid: string, id: nat)
      requires Valid() && At(sid).holder.Nobody? && id in At(sid).subscribers
      modifies this`sessions
      ensures Valid() && At(sid) == Next(old(At(sid)), Close(id))
      ensures id in At(sid).subscribers && !At(sid).subscribers[id].registered
      ensures old(At(sid)).subscribers[id].registered ==>
                var sub := old(At(sid)).subscribers[id];
                At(sid) == old(At(sid)).(subscribers := old(At(sid)).subscribers[id :=
                                           sub.(registered := false, channel := sub.channel.(closed := true))])
      ensures !old(At(sid)).subscribers[id].registered ==> At(sid) == old(At(sid))
      ensures forall other | other != sid :: At(other) == old(At(other))
    {
      AtIsOk(sid);
      var s := At(sid);
      StepKeepsInv(s, Close(id));
      var sub := s.subscribers[id];
      if sub.registered {
        sub := sub.(channel := sub.channel.(closed := true), registered := false);
        sessions := sessions[sid := s.(subscribers := s.subscribers[id := sub])];
      }
    }
  }
}
