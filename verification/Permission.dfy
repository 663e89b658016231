/**
 * The permission broker: a request is put to whoever can answer, and is settled exactly once, by a reply, by its
 * timeout, or by its caller going away, whichever takes it from the pending table first.
 */
module Permission {
  datatype Decision = Allow | Deny

  datatype Result = Decided(decision: Decision) | TimedOut | CallerGone

  /** Where an authorization stands: waiting for any of the three, or, having come too late to withdraw, for the reply. */
  datatype Place = Asking | MustTake | Returned(result: Result)

  /**
   * `pending` is the broker's table; `sending` holds replies that took their request from the table and are not in its
   * channel yet, `channel` those that are. `replied` is history: the reply that settled a request.
   */
  datatype Broker = Broker(
    noninteractive: bool, pending: set<nat>, sending: map<nat, Decision>, channel: map<nat, Decision>, requests: map<nat, Place>,
    replied: map<nat, Decision>)

  function New(noninteractive: bool): Broker { Broker(noninteractive, {}, map[], map[], map[], map[]) }

  datatype Step =
    | Authorize(id: nat)
    | Reply(id: nat, decision: Decision)
    | Send(id: nat)
    | Withdraw(id: nat, timeout: bool)
    | Take(id: nat)

  predicate At(b: Broker, id: nat, place: Place) { id in b.requests && b.requests[id] == place }

  predicate Enabled(b: Broker, step: Step) {
    match step
    case Authorize(id) => id !in b.requests
    case Reply(_, _) => true
    case Send(id) => id in b.sending
    case Withdraw(id, _) => At(b, id, Asking)
    case Take(id) => (At(b, id, Asking) || At(b, id, MustTake)) && id in b.channel
  }

  function Moved(b: Broker, id: nat, place: Place): Broker { b.(requests := b.requests[id := place]) }

  /** A reply to a request that is unknown or settled is refused. */
  function Next(b: Broker, step: Step): Broker
    requires Enabled(b, step)
  {
    match step
    case Authorize(id) =>
      if b.noninteractive then Moved(b, id, Returned(Decided(Deny))) else Moved(b, id, Asking).(pending := b.pending + {id})
    case Reply(id, decision) =>
      if id in b.pending then
        b.(pending := b.pending - {id}, sending := b.sending[id := decision], replied := b.replied[id := decision])
      else b
    case Send(id) => b.(sending := b.sending - {id}, channel := b.channel[id := b.sending[id]])
    case Withdraw(id, timeout) =>
      if id in b.pending then Moved(b, id, Returned(if timeout then TimedOut else CallerGone)).(pending := b.pending - {id})
      else Moved(b, id, MustTake)
    case Take(id) => Moved(b, id, Returned(Decided(b.channel[id]))).(channel := b.channel - {id})
  }

  predicate Run(b: Broker, steps: seq<Step>, c: Broker)
    decreases |steps|
  {
    if steps == [] then b == c else Enabled(b, steps[0]) && Run(Next(b, steps[0]), steps[1..], c)
  }

  /** A request that was not returned is pending, or its one reply is on its way; what was returned is what was replied. */
  predicate RequestOk(b: Broker, id: nat) {
    && (id !in b.requests ==> id !in b.pending && id !in b.sending && id !in b.channel && id !in b.replied)
    && (b.noninteractive ==> id !in b.pending && id !in b.sending && id !in b.channel)
    && (id in b.pending ==> At(b, id, Asking) && id !in b.sending && id !in b.channel && id !in b.replied)
    && (id in b.sending ==> id !in b.channel && id in b.replied && b.replied[id] == b.sending[id])
    && (id in b.channel ==> id in b.replied && b.replied[id] == b.channel[id])
    && (At(b, id, Asking) ==> id in b.pending || id in b.sending || id in b.channel)
    && (At(b, id, MustTake) ==> id in b.sending || id in b.channel)
    && (id in b.requests && b.requests[id].Returned? ==>
          match b.requests[id].result
          case Decided(decision) => (if b.noninteractive then decision == Deny else id in b.replied && b.replied[id] == decision)
          case _ => id !in b.replied && id !in b.pending)
  }

  ghost predicate Inv(b: Broker) { forall id: nat :: RequestOk(b, id) }

  lemma StepKeepsRequest(b: Broker, step: Step, id: nat)
    requires RequestOk(b, id) && Enabled(b, step)
    ensures RequestOk(Next(b, step), id) && Next(b, step).noninteractive == b.noninteractive
  {
  }

  lemma {:induction false} RunKeepsInv(b: Broker, steps: seq<Step>, c: Broker)
    requires Inv(b) && Run(b, steps, c)
    ensures Inv(c) && c.noninteractive == b.noninteractive
    decreases |steps|
  {
    hide RequestOk, Enabled, Next;
    if steps != [] {
      forall id: nat
        ensures RequestOk(Next(b, steps[0]), id)
      {
        assert RequestOk(b, id);
        StepKeepsRequest(b, steps[0], id);
      }
      StepKeepsRequest(b, steps[0], 0);
      RunKeepsInv(Next(b, steps[0]), steps[1..], c);
    }
  }

  /**
   * In every run: an authorization that returns a decision returns the one reply that settled it, one that timed out or was
   * withdrawn was never replied to, and one that has not returned can still be settled; replies never block.
   */
  lemma SettledOnce(noninteractive: bool, steps: seq<Step>, b: Broker, id: nat)
    requires Run(New(noninteractive), steps, b)
    ensures At(b, id, Returned(Decided(Allow))) ==> !noninteractive && id in b.replied && b.replied[id] == Allow
    ensures At(b, id, Returned(TimedOut)) || At(b, id, Returned(CallerGone)) ==> id !in b.replied && id !in b.pending
    ensures At(b, id, Asking) ==> id in b.pending || id in b.sending || id in b.channel
    ensures At(b, id, MustTake) ==> id in b.sending || id in b.channel
    ensures id in b.sending ==> id !in b.channel
  {
    RunKeepsInv(New(noninteractive), steps, b);
    assert RequestOk(b, id);
  }

  /** Once settled, always settled: no later reply changes or follows it. */
  lemma {:induction false} NoLateReply(b: Broker, steps: seq<Step>, c: Broker, id: nat)
    requires Run(b, steps, c) && id in b.requests && id !in b.pending
    ensures id in c.requests && id !in c.pending && (id in c.replied <==> id in b.replied) && (id in b.replied ==> c.replied[id] == b.replied[id])
    decreases |steps|
  {
    if steps != [] {
      NoLateReplyStep(b, steps[0], id);
      hide Enabled, Next;
      NoLateReply(Next(b, steps[0]), steps[1..], c, id);
    }
  }

  lemma NoLateReplyStep(b: Broker, step: Step, id: nat)
    requires Enabled(b, step) && id in b.requests && id !in b.pending
    ensures var c := Next(b, step);
            id in c.requests && id !in c.pending && (id in c.replied <==> id in b.replied) && (id in b.replied ==> c.replied[id] == b.replied[id])
  {
  }

  lemma StepThenRun(b: Broker, step: Step, steps: seq<Step>, c: Broker)
    requires Enabled(b, step) && Run(Next(b, step), steps, c)
    ensures Run(b, [step] + steps, c)
  {
    assert ([step] + steps)[1..] == steps;
  }

  /** An interactive request is settled by the first reply, whatever it says, and returns just that. */
  lemma ReplyReachesCaller(b: Broker, id: nat, decision: Decision)
    requires !b.noninteractive && id !in b.requests
    ensures exists c :: Run(b, [Authorize(id)] + ([Reply(id, decision)] + ([Send(id)] + ([Take(id)] + []))), c) && At(c, id, Returned(Decided(decision)))
  {
    var a := Next(b, Authorize(id));
    var r := Next(a, Reply(id, decision));
    var s := Next(r, Send(id));
    var t := Next(s, Take(id));
    assert Run(t, [], t);
    hide Next, Enabled;
    StepThenRun(s, Take(id), [], t);
    StepThenRun(r, Send(id), [Take(id)] + [], t);
    StepThenRun(a, Reply(id, decision), [Send(id)] + ([Take(id)] + []), t);
    StepThenRun(b, Authorize(id), [Reply(id, decision)] + ([Send(id)] + ([Take(id)] + [])), t);
  }

  /** Without anybody to ask, the answer is a denial at once. */
  lemma NobodyToAsk(b: Broker, id: nat)
    requires b.noninteractive && id !in b.requests
    ensures At(Next(b, Authorize(id)), id, Returned(Decided(Deny)))
  {
  }

  /** A request that is not settled yet ends with its timeout or its caller; a settled one has to take its reply. */
  lemma WithdrawMeans(b: Broker, id: nat, timeout: bool)
    requires At(b, id, Asking)
    ensures var c := Next(b, Withdraw(id, timeout));
            if id in b.pending then At(c, id, Returned(if timeout then TimedOut else CallerGone)) && id !in c.pending
            else At(c, id, MustTake)
  {
  }
}
