/**
 * The pending table of the JSON-RPC peer: callers register, the reader answers, callers give up and the peer closes, all
 * concurrently. A step is one critical section of the peer's lock, one channel operation, or one branch of a select.
 */
module Rpc {
  datatype Option<T> = None | Some(value: T)

  /** What is sent to a waiting caller: the server's answer, or that the peer closed. */
  datatype Message = Answer(result: nat) | PeerClosed

  datatype Outcome = Got(message: Message) | Canceled | WriteFailed | Closed

  datatype Call = Writing | Awaiting | Returned(outcome: Outcome)

  /**
   * `pending` and `closed` are the peer's fields; `sending` holds what was taken from the table and is not in its channel
   * yet, `channel` what is in the channels. `accepted` and `notified` are history: the answers taken for a call, and the
   * calls for which a cancellation was sent.
   */
  datatype Peer = Peer(
    pending: set<nat>, closed: bool, sending: map<nat, Message>, channel: map<nat, Message>, calls: map<nat, Call>,
    accepted: map<nat, nat>, notified: set<nat>)

  const NEW_PEER := Peer({}, false, map[], map[], map[], map[], {})

  datatype Step =
    | Register(id: nat)
    | Write(id: nat, ok: bool)
    | Cancel(id: nat)
    | SeeDone(id: nat)
    | Take(id: nat)
    | Respond(id: nat, result: nat)
    | Send(id: nat)
    | Close

  predicate CallIs(p: Peer, id: nat, call: Call) { id in p.calls && p.calls[id] == call }

  predicate Waits(p: Peer, id: nat) { CallIs(p, id, Writing) || CallIs(p, id, Awaiting) }

  predicate Enabled(p: Peer, step: Step) {
    match step
    case Register(id) => id !in p.calls
    case Write(id, _) => CallIs(p, id, Writing)
    case Cancel(id) => Waits(p, id)
    case SeeDone(id) => p.closed && Waits(p, id)
    case Take(id) => CallIs(p, id, Awaiting) && id in p.channel
    case Respond(_, _) => true
    case Send(id) => id in p.sending
    case Close => true
  }

  function End(p: Peer, id: nat, outcome: Outcome): Peer { p.(calls := p.calls[id := Returned(outcome)]) }

  function Next(p: Peer, step: Step): Peer
    requires Enabled(p, step)
  {
    match step
    case Register(id) => if p.closed then End(p, id, Closed) else p.(pending := p.pending + {id}, calls := p.calls[id := Writing])
    case Write(id, ok) => if ok then p.(calls := p.calls[id := Awaiting]) else End(p, id, WriteFailed).(pending := p.pending - {id})
    case Cancel(id) =>
      End(p, id, Canceled).(pending := p.pending - {id}, notified := if id in p.pending then p.notified + {id} else p.notified)
    case SeeDone(id) =>
      if p.calls[id].Writing? then End(p, id, Closed).(pending := p.pending - {id})
      else if id in p.channel then End(p, id, Got(p.channel[id])).(channel := p.channel - {id})
      else End(p, id, Closed)
    case Take(id) => End(p, id, Got(p.channel[id])).(channel := p.channel - {id})
    case Respond(id, result) =>
      if id in p.pending then
        p.(pending := p.pending - {id}, sending := p.sending[id := Answer(result)], accepted := p.accepted[id := result])
      else p
    case Send(id) => p.(sending := p.sending - {id}, channel := p.channel[id := p.sending[id]])
    case Close =>
      if p.closed then p
      else p.(closed := true, pending := {}, sending := p.sending + map id | id in p.pending :: PeerClosed)
  }

  predicate Run(p: Peer, steps: seq<Step>, q: Peer)
    decreases |steps|
  {
    if steps == [] then p == q else Enabled(p, steps[0]) && Run(Next(p, steps[0]), steps[1..], q)
  }

  /** Where the one message for a call is, or whether it is still to come. */
  predicate Somewhere(p: Peer, id: nat) { id in p.pending || id in p.sending || id in p.channel }

  /** A message for a call: after an answer was taken, it is that answer. */
  predicate MessageOk(p: Peer, id: nat, message: Message) {
    match message
    case Answer(result) => id in p.accepted && p.accepted[id] == result
    case PeerClosed => id !in p.accepted && p.closed
  }

  /** The messages of one call. */
  predicate CallOk(p: Peer, id: nat) {
    && (id in p.pending ==> id !in p.sending && id !in p.channel && id !in p.accepted && id !in p.notified && Waits(p, id))
    && (id in p.sending ==> id !in p.channel && id in p.calls)
    && (id in p.channel ==> id in p.calls)
    && (id in p.accepted || id in p.notified ==> id in p.calls)
    && (Waits(p, id) ==> Somewhere(p, id))
    && (id in p.notified ==> id !in p.accepted && !Somewhere(p, id))
  }

  predicate MessagesOk(p: Peer, id: nat) {
    && (id in p.sending ==> MessageOk(p, id, p.sending[id]))
    && (id in p.channel ==> MessageOk(p, id, p.channel[id]))
    && (id in p.calls && p.calls[id].Returned? && p.calls[id].outcome.Got? ==> MessageOk(p, id, p.calls[id].outcome.message))
    && (CallIs(p, id, Returned(Closed)) ==> p.closed)
  }

  ghost predicate Inv(p: Peer) {
    && (p.closed ==> p.pending == {})
    && (forall id: nat :: CallOk(p, id))
    && (forall id: nat :: MessagesOk(p, id))
  }

  // One lemma a step about one call: first the steps of that call, then those of another one.

  lemma RegisterKeeps(p: Peer, id: nat)
    requires CallOk(p, id) && Enabled(p, Register(id))
    ensures CallOk(Next(p, Register(id)), id)
  {
  }

  lemma WriteKeeps(p: Peer, id: nat, ok: bool)
    requires CallOk(p, id) && Enabled(p, Write(id, ok))
    ensures CallOk(Next(p, Write(id, ok)), id)
  {
  }

  lemma CancelKeeps(p: Peer, id: nat)
    requires CallOk(p, id) && Enabled(p, Cancel(id))
    ensures CallOk(Next(p, Cancel(id)), id)
  {
  }

  lemma SeeDoneKeeps(p: Peer, id: nat)
    requires CallOk(p, id) && Enabled(p, SeeDone(id)) && (p.closed ==> p.pending == {})
    ensures CallOk(Next(p, SeeDone(id)), id)
  {
  }

  lemma TakeKeeps(p: Peer, id: nat)
    requires CallOk(p, id) && Enabled(p, Take(id))
    ensures CallOk(Next(p, Take(id)), id)
  {
  }

  lemma RespondKeeps(p: Peer, id: nat, result: nat)
    requires CallOk(p, id)
    ensures CallOk(Next(p, Respond(id, result)), id)
  {
  }

  lemma SendKeeps(p: Peer, id: nat)
    requires CallOk(p, id) && Enabled(p, Send(id))
    ensures CallOk(Next(p, Send(id)), id)
  {
  }

  lemma CloseKeeps(p: Peer, id: nat)
    requires CallOk(p, id)
    ensures CallOk(Next(p, Close), id)
  {
  }

  /** What a peer says about one call, and about its messages. */
  predicate SameEntry(p: Peer, q: Peer, id: nat) {
    && (id in p.pending <==> id in q.pending)
    && (id in p.notified <==> id in q.notified)
    && (id in p.calls <==> id in q.calls) && (id in p.calls ==> p.calls[id] == q.calls[id])
    && p.closed == q.closed
  }

  predicate SameMessages(p: Peer, q: Peer, id: nat) {
    && (id in p.sending <==> id in q.sending) && (id in p.sending ==> p.sending[id] == q.sending[id])
    && (id in p.channel <==> id in q.channel) && (id in p.channel ==> p.channel[id] == q.channel[id])
    && (id in p.accepted <==> id in q.accepted) && (id in p.accepted ==> p.accepted[id] == q.accepted[id])
  }

  /** A step of one call is none of another's. */
  lemma OthersEntry(p: Peer, step: Step, id: nat)
    requires Enabled(p, step) && !step.Close? && step.id != id
    ensures SameEntry(p, Next(p, step), id)
  {
  }

  lemma OthersMessages(p: Peer, step: Step, id: nat)
    requires Enabled(p, step) && !step.Close? && step.id != id
    ensures SameMessages(p, Next(p, step), id)
  {
  }

  lemma SameKeeps(p: Peer, q: Peer, id: nat)
    requires SameEntry(p, q, id) && SameMessages(p, q, id)
    ensures CallOk(p, id) ==> CallOk(q, id)
    ensures MessagesOk(p, id) ==> MessagesOk(q, id)
  {
  }

  lemma StepKeepsCall(p: Peer, step: Step, id: nat)
    requires CallOk(p, id) && Enabled(p, step) && (p.closed ==> p.pending == {})
    ensures CallOk(Next(p, step), id)
  {
    hide CallOk, Enabled, Next, SameEntry, SameMessages;
    if !step.Close? && step.id != id {
      OthersEntry(p, step, id);
      OthersMessages(p, step, id);
      SameKeeps(p, Next(p, step), id);
    } else {
      match step {
        case Register(_) => RegisterKeeps(p, id);
        case Write(_, ok) => WriteKeeps(p, id, ok);
        case Cancel(_) => CancelKeeps(p, id);
        case SeeDone(_) => SeeDoneKeeps(p, id);
        case Take(_) => TakeKeeps(p, id);
        case Respond(_, result) => RespondKeeps(p, id, result);
        case Send(_) => SendKeeps(p, id);
        case Close => CloseKeeps(p, id);
      }
    }
  }

  lemma StepKeepsMessages(p: Peer, step: Step, id: nat)
    requires CallOk(p, id) && MessagesOk(p, id) && Enabled(p, step)
    ensures MessagesOk(Next(p, step), id)
  {
    hide CallOk, MessagesOk, Enabled, Next, SameEntry, SameMessages;
    if !step.Close? && step.id != id {
      OthersEntry(p, step, id);
      OthersMessages(p, step, id);
      SameKeeps(p, Next(p, step), id);
    } else {
      OwnMessages(p, step, id);
    }
  }

  lemma OwnMessages(p: Peer, step: Step, id: nat)
    requires CallOk(p, id) && MessagesOk(p, id) && Enabled(p, step) && (step.Close? || step.id == id)
    ensures MessagesOk(Next(p, step), id)
  {
  }

  lemma StepKeepsInv(p: Peer, step: Step)
    requires Inv(p) && Enabled(p, step)
    ensures Inv(Next(p, step))
  {
    hide CallOk, MessagesOk, Enabled;
    forall id: nat
      ensures CallOk(Next(p, step), id) && MessagesOk(Next(p, step), id)
    {
      assert CallOk(p, id) && MessagesOk(p, id);
      StepKeepsCall(p, step, id);
      StepKeepsMessages(p, step, id);
    }
  }

  lemma {:induction false} RunKeepsInv(p: Peer, steps: seq<Step>, q: Peer)
    requires Inv(p) && Run(p, steps, q)
    ensures Inv(q)
    decreases |steps|
  {
    hide Inv, Enabled, Next;
    if steps != [] {
      StepKeepsInv(p, steps[0]);
      RunKeepsInv(Next(p, steps[0]), steps[1..], q);
    }
  }

  lemma Reached(steps: seq<Step>, p: Peer, id: nat)
    requires Run(NEW_PEER, steps, p)
    ensures CallOk(p, id) && MessagesOk(p, id) && (p.closed ==> p.pending == {})
  {
    hide CallOk, MessagesOk;
    NewOk();
    RunKeepsInv(NEW_PEER, steps, p);
  }

  lemma NewOk()
    ensures Inv(NEW_PEER)
  {
  }

  /** Sending to a caller never blocks: no second message ever meets one that is still in the channel. */
  lemma SendNeverBlocks(steps: seq<Step>, p: Peer, id: nat)
    requires Run(NEW_PEER, steps, p) && id in p.sending
    ensures id !in p.channel && id !in p.pending
  {
    Reached(steps, p, id);
  }

  /** Nobody waits for nothing: a caller that has not returned is still pending, or its message is on its way. */
  lemma NoCallerIsForgotten(steps: seq<Step>, p: Peer, id: nat)
    requires Run(NEW_PEER, steps, p) && Waits(p, id)
    ensures Somewhere(p, id) && (p.closed ==> id in p.sending || id in p.channel)
  {
    Reached(steps, p, id);
  }

  /** A caller gets the answer that was taken for its own request, and a request that was canceled is never answered too. */
  lemma AnswersMatch(steps: seq<Step>, p: Peer, id: nat)
    requires Run(NEW_PEER, steps, p)
    ensures id in p.calls && p.calls[id].Returned? && p.calls[id].outcome.Got? && p.calls[id].outcome.message.Answer? ==>
              id in p.accepted && p.accepted[id] == p.calls[id].outcome.message.result
    ensures id in p.notified ==> id !in p.accepted
  {
    Reached(steps, p, id);
  }

  /** An answer is taken for a call at most once: later ones are ignored. */
  lemma {:induction false} AnsweredOnce(p: Peer, steps: seq<Step>, q: Peer, id: nat)
    requires Run(p, steps, q) && id in p.calls && id !in p.pending
    ensures id in q.calls && id !in q.pending && (id in q.accepted <==> id in p.accepted) && (id in p.accepted ==> q.accepted[id] == p.accepted[id])
    decreases |steps|
  {
    if steps != [] {
      SettledStep(p, steps[0], id);
      hide Enabled, Next;
      AnsweredOnce(Next(p, steps[0]), steps[1..], q, id);
    }
  }

  lemma SettledStep(p: Peer, step: Step, id: nat)
    requires Enabled(p, step) && id in p.calls && id !in p.pending
    ensures var q := Next(p, step);
            id in q.calls && id !in q.pending && (id in q.accepted <==> id in p.accepted) && (id in p.accepted ==> q.accepted[id] == p.accepted[id])
  {
  }

  lemma RunFront(p: Peer, step: Step, steps: seq<Step>, q: Peer)
    requires Enabled(p, step) && Run(Next(p, step), steps, q)
    ensures Run(p, [step] + steps, q)
  {
    assert ([step] + steps)[1..] == steps;
  }

  // ---------------------------------------------------------------------------
  // What closing does to answers on their way
  // ---------------------------------------------------------------------------

  /** The answer is not where the caller looks when it learns that the peer closed. */
  predicate Overlooked(p: Peer, id: nat)
    requires Waits(p, id)
  {
    p.calls[id].Writing? || id !in p.channel
  }

  /** The caller awaits a message that is in its channel, or has returned with something else than the closing. */
  predicate OutOfDanger(p: Peer, id: nat) {
    (CallIs(p, id, Awaiting) && id in p.channel) || (id in p.calls && p.calls[id].Returned? && p.calls[id].outcome != Closed)
  }

  lemma DangerStaysAway(p: Peer, step: Step, id: nat)
    requires Enabled(p, step) && OutOfDanger(p, id)
    ensures OutOfDanger(Next(p, step), id)
  {
  }

  lemma {:induction false} NeverOverlooked(p: Peer, steps: seq<Step>, q: Peer, id: nat)
    requires Run(p, steps, q) && OutOfDanger(p, id)
    ensures OutOfDanger(q, id)
    decreases |steps|
  {
    hide Enabled, Next, OutOfDanger;
    if steps != [] {
      DangerStaysAway(p, steps[0], id);
      NeverOverlooked(Next(p, steps[0]), steps[1..], q, id);
    }
  }

  /** Some run from here tells the caller that the peer closed. */
  ghost predicate CanBeToldClosed(p: Peer, id: nat) { exists steps, q :: Run(p, steps, q) && CallIs(q, id, Returned(Closed)) }

  lemma CloseThenSeeDone(p: Peer, id: nat)
    requires Waits(p, id) && Overlooked(p, id)
    ensures CanBeToldClosed(p, id)
  {
    var closed := Next(p, Close);
    var end := Next(closed, SeeDone(id));
    assert CallIs(end, id, Returned(Closed));
    assert Run(end, [], end);
    RunFront(closed, SeeDone(id), [], end);
    RunFront(p, Close, [SeeDone(id)] + [], end);
  }

  /**
   * Closing does not wait for answers on their way. A waiting caller whose answer was taken can still be told that the
   * peer closed exactly while its request is being written, even with the answer in its channel, or the answer is not
   * in its channel yet.
   */
  lemma AnswerCanBeLost(steps: seq<Step>, p: Peer, id: nat)
    requires Run(NEW_PEER, steps, p) && Waits(p, id) && id in p.accepted
    ensures CanBeToldClosed(p, id) <==> Overlooked(p, id)
  {
    hide Run;
    if Overlooked(p, id) {
      CloseThenSeeDone(p, id);
    } else {
      forall rest, q | Run(p, rest, q)
        ensures !CallIs(q, id, Returned(Closed))
      {
        NeverOverlooked(p, rest, q, id);
      }
    }
  }

  /** Step `k` of the run makes a caller overlook the answer that was taken for it. */
  ghost predicate LostAt(p: Peer, steps: seq<Step>, k: nat, r: Peer, id: nat) {
    && k < |steps| && Run(p, steps[..k], r) && steps[k] == SeeDone(id)
    && r.closed && Waits(r, id) && Overlooked(r, id) && id in r.accepted
  }

  ghost predicate LostIn(p: Peer, steps: seq<Step>, id: nat) { exists k: nat, r: Peer :: LostAt(p, steps, k, r, id) }

  lemma ClosedOnlyThere(p: Peer, step: Step, id: nat)
    requires Inv(p) && Enabled(p, step) && !CallIs(p, id, Returned(Closed)) && CallIs(Next(p, step), id, Returned(Closed))
    ensures id in Next(p, step).accepted ==> step == SeeDone(id) && p.closed && Waits(p, id) && Overlooked(p, id) && id in p.accepted
    ensures id !in Next(p, step).pending
  {
    assert CallOk(p, id);
  }

  lemma LostLater(p: Peer, steps: seq<Step>, id: nat)
    requires steps != [] && Enabled(p, steps[0]) && LostIn(Next(p, steps[0]), steps[1..], id)
    ensures LostIn(p, steps, id)
  {
    hide Enabled, Next, Waits, Overlooked;
    var k: nat, r: Peer :| LostAt(Next(p, steps[0]), steps[1..], k, r, id);
    assert steps[..k + 1][0] == steps[0] && steps[..k + 1][1..] == steps[1..][..k];
    assert LostAt(p, steps, k + 1, r, id);
  }

  lemma {:induction false} LostSomewhere(p: Peer, steps: seq<Step>, q: Peer, id: nat)
    requires Inv(p) && Run(p, steps, q) && !CallIs(p, id, Returned(Closed))
    requires CallIs(q, id, Returned(Closed)) && id in q.accepted
    ensures LostIn(p, steps, id)
    decreases |steps|
  {
    hide Inv, Enabled, Next, Waits, Overlooked;
    if steps != [] {
      var next := Next(p, steps[0]);
      StepKeepsInv(p, steps[0]);
      if CallIs(next, id, Returned(Closed)) {
        ClosedOnlyThere(p, steps[0], id);
        AnsweredOnce(next, steps[1..], q, id);
        assert steps[..0] == [];
        assert LostAt(p, steps, 0, p, id);
      } else {
        LostSomewhere(next, steps[1..], q, id);
        LostLater(p, steps, id);
      }
    }
  }

  /** Once told, always told. */
  lemma {:induction false} StaysReturned(p: Peer, steps: seq<Step>, q: Peer, id: nat)
    requires Run(p, steps, q) && id in p.calls && p.calls[id].Returned?
    ensures CallIs(q, id, p.calls[id])
    decreases |steps|
  {
    if steps != [] {
      ReturnedStep(p, steps[0], id);
      hide Enabled, Next;
      StaysReturned(Next(p, steps[0]), steps[1..], q, id);
    }
  }

  lemma ReturnedStep(p: Peer, step: Step, id: nat)
    requires Enabled(p, step) && id in p.calls && p.calls[id].Returned?
    ensures CallIs(Next(p, step), id, p.calls[id])
  {
  }

  lemma SlicesOfRest(steps: seq<Step>, k: nat)
    requires 0 < k <= |steps|
    ensures steps[..k] != [] && steps[..k][0] == steps[0]
    ensures steps[..k][1..] == steps[1..][..k - 1] && steps[k..] == steps[1..][k - 1..]
  {
  }

  lemma {:induction false} RunFrom(p: Peer, steps: seq<Step>, k: nat, r: Peer, q: Peer)
    requires Run(p, steps, q) && k <= |steps| && Run(p, steps[..k], r)
    ensures Run(r, steps[k..], q)
    decreases k
  {
    hide Enabled, Next;
    if k == 0 {
      assert steps[..k] == [] && steps[k..] == steps;
    } else {
      SlicesOfRest(steps, k);
      assert Run(Next(p, steps[0]), steps[1..][..k - 1], r);
      RunFrom(Next(p, steps[0]), steps[1..], k - 1, r, q);
    }
  }

  lemma LostMeansClosed(p: Peer, steps: seq<Step>, q: Peer, id: nat)
    requires Inv(p) && Run(p, steps, q) && LostIn(p, steps, id)
    ensures CallIs(q, id, Returned(Closed)) && id in q.accepted
  {
    hide Enabled, Next, Inv, CallOk;
    var k: nat, r: Peer :| LostAt(p, steps, k, r, id);
    RunFrom(p, steps, k, r, q);
    var rest := steps[k..];
    assert rest[0] == SeeDone(id);
    var next := Next(r, SeeDone(id));
    RunKeepsInv(p, steps[..k], r);
    SeeDoneIsClosed(r, id);
    StaysReturned(next, rest[1..], q, id);
    AnsweredOnce(next, rest[1..], q, id);
  }

  lemma SeeDoneIsClosed(p: Peer, id: nat)
    requires Inv(p) && p.closed && Waits(p, id) && Overlooked(p, id) && id in p.accepted
    ensures var q := Next(p, SeeDone(id)); CallIs(q, id, Returned(Closed)) && id in q.accepted && id !in q.pending
  {
  }

  /** A call whose answer was taken returns that answer, unless it gave up or could not write, or the answer was lost. */
  lemma WhatAnsweredCallsReturn(steps: seq<Step>, p: Peer, id: nat)
    requires Run(NEW_PEER, steps, p) && id in p.accepted && id in p.calls && p.calls[id].Returned?
    ensures p.calls[id].outcome in {Got(Answer(p.accepted[id])), Canceled, WriteFailed, Closed}
    ensures p.calls[id].outcome == Closed <==> LostIn(NEW_PEER, steps, id)
  {
    hide LostIn, Run;
    Reached(steps, p, id);
    NewOk();
    if p.calls[id].outcome == Closed {
      LostSomewhere(NEW_PEER, steps, p, id);
    }
    if LostIn(NEW_PEER, steps, id) {
      LostMeansClosed(NEW_PEER, steps, p, id);
    }
  }

  /** Without a close nobody is told that the peer closed. */
  lemma ToldOnlyTheTruth(steps: seq<Step>, p: Peer, id: nat)
    requires Run(NEW_PEER, steps, p)
    ensures CallIs(p, id, Returned(Closed)) || CallIs(p, id, Returned(Got(PeerClosed))) ==> Close in steps
  {
    Reached(steps, p, id);
    if Close !in steps {
      StaysOpen(NEW_PEER, steps, p);
    }
  }

  lemma {:induction false} StaysOpen(p: Peer, steps: seq<Step>, q: Peer)
    requires Run(p, steps, q) && !p.closed && Close !in steps
    ensures !q.closed
    decreases |steps|
  {
    if steps != [] {
      StaysOpen(Next(p, steps[0]), steps[1..], q);
    }
  }

  /** It happens to an answer that is in its channel while the request is still being written ... */
  lemma CloseCanHideAnswer()
    ensures exists steps, p :: Run(NEW_PEER, steps, p) && CallIs(p, 1, Writing) && 1 in p.accepted && 1 in p.channel && CanBeToldClosed(p, 1)
  {
    hide CanBeToldClosed;
    var a := Next(NEW_PEER, Register(1));
    var b := Next(a, Respond(1, 7));
    var c := Next(b, Send(1));
    assert Run(c, [], c);
    RunFront(b, Send(1), [], c);
    RunFront(a, Respond(1, 7), [Send(1)] + [], c);
    RunFront(NEW_PEER, Register(1), [Respond(1, 7)] + ([Send(1)] + []), c);
    CloseThenSeeDone(c, 1);
  }

  /** ... and to one on the way to its channel. */
  lemma CloseCanOvertakeAnswer()
    ensures exists steps, p :: Run(NEW_PEER, steps, p) && CallIs(p, 1, Awaiting) && 1 in p.accepted && CanBeToldClosed(p, 1)
  {
    hide CanBeToldClosed;
    var a := Next(NEW_PEER, Register(1));
    var b := Next(a, Write(1, true));
    var c := Next(b, Respond(1, 7));
    assert Run(c, [], c);
    RunFront(b, Respond(1, 7), [], c);
    RunFront(a, Write(1, true), [Respond(1, 7)] + [], c);
    RunFront(NEW_PEER, Register(1), [Write(1, true)] + ([Respond(1, 7)] + []), c);
    CloseThenSeeDone(c, 1);
  }

  // ---------------------------------------------------------------------------
  // What one call does
  // ---------------------------------------------------------------------------

  /** A pending caller that awaits its answer gets exactly the answer that is taken for it. */
  lemma AnswerReachesCaller(p: Peer, id: nat, result: nat)
    requires id in p.pending && CallIs(p, id, Awaiting)
    ensures exists q :: Run(p, [Respond(id, result)] + ([Send(id)] + ([Take(id)] + [])), q) && CallIs(q, id, Returned(Got(Answer(result))))
  {
    var a := Next(p, Respond(id, result));
    var b := Next(a, Send(id));
    var c := Next(b, Take(id));
    assert Run(c, [], c);
    hide Next, Enabled;
    RunFront(b, Take(id), [], c);
    RunFront(a, Send(id), [Take(id)] + [], c);
    RunFront(p, Respond(id, result), [Send(id)] + ([Take(id)] + []), c);
  }

  /** A caller that gives up says so, and tells the server exactly if its request was still pending. */
  lemma CancelNotifies(p: Peer, id: nat)
    requires Waits(p, id)
    ensures var q := Next(p, Cancel(id));
            CallIs(q, id, Returned(Canceled)) && id !in q.pending && q.notified == p.notified + if id in p.pending then {id} else {}
  {
  }

  /** A caller of a closed peer is refused; one of an open peer is pending. */
  lemma RegisterMeans(p: Peer, id: nat)
    requires id !in p.calls
    ensures var q := Next(p, Register(id));
            if p.closed then CallIs(q, id, Returned(Closed)) && q.pending == p.pending
            else CallIs(q, id, Writing) && q.pending == p.pending + {id}
  {
  }

  /** Closing takes all requests from the table, and each of them gets one message. */
  lemma CloseMeans(p: Peer)
    requires !p.closed
    ensures var q := Next(p, Close);
            q.closed && q.pending == {} && forall id | id in p.pending :: id in q.sending && q.sending[id] == PeerClosed
  {
  }
}
