/**
 * Publishing to one listener of the transient bus: the event is sent, or room is made for it by draining and refilling
 * the channel, with the reader free to receive between any two operations on it.
 */
module TransientListener {
  import opened Transient

  lemma {:induction false} RunThenStep(l: Listener, steps: seq<Step>, m: Listener, step: Step)
    requires Run(l, steps, m) && Enabled(m, step)
    ensures Run(l, steps + [step], Next(m, step))
    decreases |steps|
  {
    if steps == [] {
      assert [step][1..] == [];
    } else {
      assert (steps + [step])[1..] == steps[1..] + [step];
      RunThenStep(Next(l, steps[0]), steps[1..], m, step);
    }
  }

  class Channel {
    var buffer: seq<Event>
    const capacity: nat
    ghost var place: Place
    ghost var published: seq<Event>
    ghost var received: seq<Event>
    ghost var lost: seq<Event>
    ghost var disturbed: bool

    ghost function View(): Listener
      reads this
    {
      Listener(buffer, capacity, place, published, received, lost, disturbed)
    }

    /** The listener got here from `start` by the steps so far, and is in order. */
    ghost predicate Reached(start: Listener, steps: seq<Step>)
      reads this
    {
      Inv(View()) && Run(start, steps, View())
    }

    constructor (size: int)
      ensures View() == New(size) && Inv(View())
    {
      capacity := if size < 1 then 1 else size;
      buffer, place, published, received, lost, disturbed := [], Idle, [], [], [], false;
      new;
      NewOk(size);
    }

    ghost method Take(step: Step, start: Listener, before: seq<Step>) returns (steps: seq<Step>)
      requires Inv(View()) && Enabled(View(), step) && Run(start, before, View())
      ensures steps == before + [step] && Run(start, steps, Next(View(), step)) && Inv(Next(View(), step))
    {
      hide Inv, Enabled, Next, Run;
      RunThenStep(start, before, View(), step);
      StepKeepsInv(View(), step);
      steps := before + [step];
    }

    /** The reader takes any number of events. */
    method Receives(ghost start: Listener, ghost before: seq<Step>) returns (ghost steps: seq<Step>)
      requires Reached(start, before)
      modifies this`buffer, this`received, this`disturbed
      ensures Reached(start, steps) && before <= steps
      ensures |buffer| <= |old(buffer)|
    {
      hide Inv, Run;
      steps := before;
      var n: nat := *;
      while n > 0
        invariant Reached(start, steps) && before <= steps && |buffer| <= |old(buffer)|
      {
        if |buffer| > 0 {
          steps := Take(Receive, start, steps);
          disturbed := disturbed || place.Draining? || place.Refilling?;
          received, buffer := received + [buffer[0]], buffer[1..];
        }
        n := n - 1;
      }
    }

    /** The channel is emptied and refilled without its first disposable event. */
    method EvictDisposable(event: Event, ghost start: Listener, ghost before: seq<Step>) returns (removed: bool, ghost steps: seq<Step>)
      requires Reached(start, before) && place == Draining(event, [])
      modifies this
      ensures Reached(start, steps) && before <= steps && place == Refilling(event, [], removed)
    {
      hide Inv, Run;
      steps := before;
      var queued: seq<Event> := [];
      while |buffer| > 0
        invariant Reached(start, steps) && before <= steps && place == Draining(event, queued)
        decreases |buffer|
      {
        steps := Take(Drain, start, steps);
        queued, buffer := queued + [buffer[0]], buffer[1..];
        place := Draining(event, queued);
        steps := Receives(start, steps);
      }
      steps := Take(Drain, start, steps);
      removed := false;
      place := Refilling(event, queued, removed);
      while |queued| > 0
        invariant Reached(start, steps) && before <= steps && place == Refilling(event, queued, removed)
        decreases |queued|
      {
        steps := Receives(start, steps);
        NeverFull(event, queued, removed);
        steps := Take(Refill, start, steps);
        if !removed && queued[0].disposable {
          removed, lost := true, lost + [queued[0]];
        } else {
          buffer := buffer + [queued[0]];
        }
        queued := queued[1..];
        place := Refilling(event, queued, removed);
      }
    }

    lemma NeverFull(event: Event, rest: seq<Event>, removed: bool)
      requires Inv(View()) && place == Refilling(event, rest, removed)
      ensures if rest != [] then Enabled(View(), Refill) else Enabled(View(), Settle)
      ensures rest == [] && removed ==> !Full(View())
    {
    }

    /** An event is sent to an open listener; a full listener that has nothing to give up is closed. */
    method PublishTo(event: Event) returns (open: bool, ghost steps: seq<Step>)
      requires Inv(View()) && place.Idle?
      modifies this
      ensures Reached(old(View()), steps) && [Publish(event)] <= steps
      ensures place == if open then Idle else Closed
      ensures !old(Full(View())) ==> open && View() == Send(old(View()).(published := old(published) + [event]), event)
      ensures old(Full(View())) && event.disposable ==> open && buffer == old(buffer) && lost == old(lost) + [event]
    {
      hide Inv, Run;
      ghost var start := View();
      NoSteps(start);
      steps := Take(Publish(event), start, []);
      published := published + [event];
      if |buffer| < capacity {
        buffer := buffer + [event];
        return true, steps;
      }
      if event.disposable {
        lost := lost + [event];
        return true, steps;
      }
      place := Draining(event, []);
      steps := Receives(start, steps);
      var removed;
      removed, steps := EvictDisposable(event, start, steps);
      if !removed {
        steps := Receives(start, steps);
      }
      NeverFull(event, [], removed);
      steps := Take(Settle, start, steps);
      if |buffer| < capacity {
        buffer := buffer + [event];
        place := Idle;
        return true, steps;
      }
      lost := lost + [event];
      place := Closed;
      return false, steps;
    }

    lemma NoSteps(l: Listener)
      ensures Run(l, [], l)
    {
    }
  }
}
