/**
 * The retrying response stream: connections that drop, or are refused as overloaded, before any output are
 * replaced; what the caller reads comes from the last connection only.
 */
module RetryStream {
  datatype Kind = Usage | RouterMetadata

  /** A canonical event. `Overload` is a provider error that says the engine is overloaded; `Output` is any other event. */
  datatype Event = Bookkeeping(kind: Kind, payload: nat) | Overload(payload: nat) | Output(payload: nat)

  datatype Error = Eof | Retryable | Permanent | Canceled | Overloaded

  /** A response: its events, and the error that every read after them gets. */
  datatype Response = Response(events: seq<Event>, ending: Error)

  /** What the provider answers to a request, or that the wait before the request was canceled. */
  datatype Opening = Opened(response: Response) | HeaderTimeout | EngineOverloaded | OpenFailed | WaitCanceled

  datatype Result = Got(event: Event) | Failed(error: Error)

  const STREAM_MAX_RETRIES: nat := 5
  const OVERLOAD_MAX_RETRIES: nat := 5

  // ---------------------------------------------------------------------------
  // What a caller should read
  // ---------------------------------------------------------------------------

  /** A bookkeeping event replaces the earlier one of its kind. */
  function Update(buffered: seq<Event>, e: Event): seq<Event>
    requires e.Bookkeeping? && forall i | 0 <= i < |buffered| :: buffered[i].Bookkeeping?
  {
    if buffered == [] then [e]
    else if buffered[0].kind == e.kind then [e] + buffered[1..]
    else [buffered[0]] + Update(buffered[1..], e)
  }

  predicate AllBookkeeping(es: seq<Event>) { forall i | 0 <= i < |es| :: es[i].Bookkeeping? }

  /** The latest bookkeeping event of each kind, in the order in which the kinds appeared. */
  function Latest(es: seq<Event>): (r: seq<Event>)
    requires AllBookkeeping(es)
    ensures AllBookkeeping(r)
    decreases |es|
  {
    if es == [] then []
    else
      var before := Latest(es[..|es| - 1]);
      UpdateIsBookkeeping(before, es[|es| - 1]);
      Update(before, es[|es| - 1])
  }

  lemma {:induction false} UpdateIsBookkeeping(buffered: seq<Event>, e: Event)
    requires e.Bookkeeping? && AllBookkeeping(buffered)
    ensures AllBookkeeping(Update(buffered, e))
  {
    if buffered != [] && buffered[0].kind != e.kind {
      UpdateIsBookkeeping(buffered[1..], e);
    }
  }

  /** How many events come before the first that is not bookkeeping. */
  function Leading(es: seq<Event>): (k: nat)
    ensures k <= |es| && AllBookkeeping(es[..k]) && (k < |es| ==> !es[k].Bookkeeping?)
  {
    if es == [] || !es[0].Bookkeeping? then 0
    else
      var k := Leading(es[1..]);
      assert es[..k + 1] == [es[0]] + es[1..][..k];
      k + 1
  }

  /** The events of one response as a caller reads them: the latest bookkeeping, then the rest as it came. */
  function Canonical(es: seq<Event>): seq<Event> { Latest(es[..Leading(es)]) + es[Leading(es)..] }

  /** The last event of a kind, and how many there are. */
  function LastOf(es: seq<Event>, kind: Kind): Event {
    if es == [] then Output(0)
    else if es[|es| - 1].Bookkeeping? && es[|es| - 1].kind == kind then es[|es| - 1]
    else LastOf(es[..|es| - 1], kind)
  }

  function CountOf(es: seq<Event>, kind: Kind): nat {
    if es == [] then 0
    else CountOf(es[1..], kind) + if es[0].Bookkeeping? && es[0].kind == kind then 1 else 0
  }

  lemma {:induction false} LastOfCons(e: Event, es: seq<Event>, kind: Kind)
    ensures LastOf([e] + es, kind) == if CountOf(es, kind) > 0 then LastOf(es, kind) else if e.Bookkeeping? && e.kind == kind then e else Output(0)
  {
    if es == [] {
      assert [e][..0] == [];
    } else {
      var n := |es| - 1;
      assert ([e] + es)[..|es|] == [e] + es[..n];
      LastOfCons(e, es[..n], kind);
      CountSnoc(es[..n], es[n], kind);
      assert es[..n] + [es[n]] == es;
    }
  }

  lemma {:induction false} CountSnoc(es: seq<Event>, e: Event, kind: Kind)
    ensures CountOf(es + [e], kind) == CountOf(es, kind) + if e.Bookkeeping? && e.kind == kind then 1 else 0
  {
    if es == [] {
      assert [e][1..] == [];
    } else {
      assert (es + [e])[1..] == es[1..] + [e];
      CountSnoc(es[1..], e, kind);
    }
  }

  lemma {:induction false} UpdateMeans(buffered: seq<Event>, e: Event, kind: Kind)
    requires AllBookkeeping(buffered) && e.Bookkeeping? && CountOf(buffered, kind) <= 1
    ensures LastOf(Update(buffered, e), kind) == if kind == e.kind then e else LastOf(buffered, kind)
    ensures CountOf(Update(buffered, e), kind) == if kind == e.kind then 1 else CountOf(buffered, kind)
  {
    if buffered == [] {
      assert [e][..0] == [] && [e][1..] == [];
    } else {
      var first, rest := buffered[0], buffered[1..];
      assert buffered == [first] + rest;
      LastOfCons(first, rest, kind);
      if first.kind == e.kind {
        assert ([e] + rest)[1..] == rest;
        LastOfCons(e, rest, kind);
      } else {
        UpdateMeans(rest, e, kind);
        var more := Update(rest, e);
        assert ([first] + more)[1..] == more;
        LastOfCons(first, more, kind);
      }
    }
  }

  /** The buffer has the last event of every kind that came, once, and nothing else. */
  lemma {:induction false} LatestMeans(es: seq<Event>, kind: Kind)
    requires AllBookkeeping(es)
    ensures LastOf(Latest(es), kind) == LastOf(es, kind)
    ensures CountOf(Latest(es), kind) == if CountOf(es, kind) > 0 then 1 else 0
    decreases |es|
  {
    if es != [] {
      var n := |es| - 1;
      LatestMeans(es[..n], kind);
      UpdateMeans(Latest(es[..n]), es[n], kind);
      assert es[..n] + [es[n]] == es;
      CountSnoc(es[..n], es[n], kind);
    }
  }

  // ---------------------------------------------------------------------------
  // What one call reads, as a function of the stream's fields
  // ---------------------------------------------------------------------------

  datatype Connection = Connection(ok: bool, response: Response, err: Error, rest: seq<Opening>, used: nat)

  const NO_RESPONSE := Response([], Eof)

  /** The answers up to the first that opens a connection or fails for good. */
  function Connect(script: seq<Opening>, used: nat): Connection {
    if script == [] then Connection(false, NO_RESPONSE, Canceled, [], used)
    else
      match script[0]
      case Opened(response) => Connection(true, response, Canceled, script[1..], used)
      case OpenFailed => Connection(false, NO_RESPONSE, Permanent, script[1..], used)
      case WaitCanceled => Connection(false, NO_RESPONSE, Canceled, script[1..], used)
      case HeaderTimeout => Connect(script[1..], used)
      case EngineOverloaded =>
        if used >= OVERLOAD_MAX_RETRIES then Connection(false, NO_RESPONSE, Overloaded, script[1..], used) else Connect(script[1..], used + 1)
  }

  datatype State = State(
    script: seq<Opening>, response: Response, pos: nat, closed: bool, remaining: nat, overloads: nat,
    outputEmitted: bool, buffered: seq<Event>, queued: seq<Event>)

  /** Fewer chances are left, or less to read. */
  predicate Fewer(s: State, t: State)
    requires s.overloads <= OVERLOAD_MAX_RETRIES && t.overloads <= OVERLOAD_MAX_RETRIES
  {
    || Chances(s) < Chances(t)
    || (Chances(s) == Chances(t) && |s.response.events| - s.pos < |t.response.events| - t.pos)
    || (Chances(s) == Chances(t) && |s.response.events| - s.pos == |t.response.events| - t.pos && |s.buffered| < |t.buffered|)
  }

  predicate StateOk(s: State) { s.pos <= |s.response.events| && s.overloads <= OVERLOAD_MAX_RETRIES && AllBookkeeping(s.buffered) }

  function Reconnected(s: State): State {
    var c := Connect(s.script, s.overloads);
    if c.ok then s.(script := c.rest, overloads := c.used, response := c.response, pos := 0, closed := false, buffered := [])
    else s.(script := c.rest, overloads := c.used, closed := true)
  }

  function ReadOf(s: State): Result
    requires StateOk(s)
  {
    if s.closed then Failed(Retryable)
    else if s.pos < |s.response.events| then Got(s.response.events[s.pos])
    else Failed(s.response.ending)
  }

  lemma {:induction false} ConnectUses(script: seq<Opening>, used: nat)
    requires used <= OVERLOAD_MAX_RETRIES
    ensures used <= Connect(script, used).used <= OVERLOAD_MAX_RETRIES
    decreases |script|
  {
    if script != [] {
      ConnectUses(script[1..], used);
      if used < OVERLOAD_MAX_RETRIES {
        ConnectUses(script[1..], used + 1);
      }
    }
  }

  // What opening a connection means for the provider's answers.

  /** The first `k` answers are all repeated: header timeouts and overload rejections. */
  predicate AllRepeated(script: seq<Opening>, k: nat)
    requires k <= |script|
  {
    forall i | 0 <= i < k :: script[i].HeaderTimeout? || script[i].EngineOverloaded?
  }

  function Rejections(script: seq<Opening>, k: nat): nat
    requires k <= |script|
  {
    if k == 0 then 0 else Rejections(script, k - 1) + if script[k - 1].EngineOverloaded? then 1 else 0
  }

  /** Answer `k` decides: everything before it is repeated, within the budget of five rejections. */
  predicate Decides(script: seq<Opening>, used: nat, k: nat) {
    && k <= |script| && AllRepeated(script, k) && used + Rejections(script, k) <= 5
    && (k < |script| ==>
          match script[k]
          case HeaderTimeout => false
          case EngineOverloaded => used + Rejections(script, k) == 5
          case _ => true)
  }

  lemma {:induction false} RejectionsLater(script: seq<Opening>, k: nat)
    requires 0 < k <= |script|
    ensures Rejections(script, k) == (if script[0].EngineOverloaded? then 1 else 0) + Rejections(script[1..], k - 1)
    decreases k
  {
    if k > 1 {
      RejectionsLater(script, k - 1);
    }
  }

  lemma DecidesLater(script: seq<Opening>, used: nat, k: nat)
    requires script != [] && (script[0].HeaderTimeout? || (script[0].EngineOverloaded? && used < 5))
    requires Decides(script[1..], used + if script[0].EngineOverloaded? then 1 else 0, k)
    ensures Decides(script, used, k + 1) && Rejections(script, k + 1) == Rejections(script[1..], k) + if script[0].EngineOverloaded? then 1 else 0
  {
    RejectionsLater(script, k + 1);
    assert forall i | 0 < i < k + 1 :: script[i] == script[1..][i - 1];
  }

  /** One answer decides, and says which connection there is or why there is none. */
  lemma {:induction false} ConnectMeans(script: seq<Opening>, used: nat) returns (k: nat)
    requires used <= 5
    ensures Decides(script, used, k)
    ensures var c := Connect(script, used);
            && c.used == used + Rejections(script, k)
            && (if k == |script| then !c.ok && c.err == Canceled && c.rest == []
                else c.rest == script[k + 1..] &&
                     match script[k]
                     case Opened(response) => c.ok && c.response == response
                     case OpenFailed => !c.ok && c.err == Permanent
                     case WaitCanceled => !c.ok && c.err == Canceled
                     case EngineOverloaded => !c.ok && c.err == Overloaded
                     case HeaderTimeout => false)
    decreases |script|
  {
    k := 0;
    if script != [] && (script[0].HeaderTimeout? || (script[0].EngineOverloaded? && used < 5)) {
      var later := if script[0].EngineOverloaded? then used + 1 else used;
      k := ConnectMeans(script[1..], later);
      DecidesLater(script, used, k);
      k := k + 1;
    }
  }

  lemma {:induction false} RejectionsGrow(script: seq<Opening>, j: nat, k: nat)
    requires j <= k <= |script|
    ensures Rejections(script, j) <= Rejections(script, k)
    ensures j < k && script[j].EngineOverloaded? ==> Rejections(script, j) < Rejections(script, k)
    decreases k
  {
    if j < k {
      RejectionsGrow(script, j, k - 1);
    }
  }

  lemma OneDecides(script: seq<Opening>, used: nat, j: nat, k: nat)
    requires Decides(script, used, j) && Decides(script, used, k)
    ensures j == k
  {
    if j < k {
      RejectionsGrow(script, j, k);
    }
    if k < j {
      RejectionsGrow(script, k, j);
    }
  }

  function Chances(s: State): nat
    requires s.overloads <= OVERLOAD_MAX_RETRIES
  {
    s.remaining + (OVERLOAD_MAX_RETRIES - s.overloads)
  }

  function NextOf(s: State): (Result, State)
    requires StateOk(s)
    decreases 2 * Chances(s), |s.response.events| - s.pos, |s.buffered|
  {
    if s.queued != [] then (Got(s.queued[0]), s.(queued := s.queued[1..]))
    else
      match ReadOf(s)
      case Got(e) =>
        if s.outputEmitted then (Got(e), s.(pos := s.pos + 1))
        else if e.Bookkeeping? then
          UpdateIsBookkeeping(s.buffered, e);
          NextOf(s.(buffered := Update(s.buffered, e), pos := s.pos + 1))
        else if e.Overload? && s.overloads < OVERLOAD_MAX_RETRIES then AfterReconnecting(s.(overloads := s.overloads + 1))
        else NextOf(s.(outputEmitted := true, pos := s.pos + 1, queued := s.buffered + [e], buffered := []))
      case Failed(err) =>
        if s.outputEmitted || s.remaining == 0 || !RetryableError(err) then (Failed(err), s)
        else if err.Eof? then
          if s.buffered == [] then (Failed(Eof), s) else NextOf(s.(queued := s.buffered, buffered := []))
        else AfterReconnecting(s.(remaining := s.remaining - 1))
  }

  /** Once more on a new connection, unless there is none. */
  function AfterReconnecting(s: State): (Result, State)
    requires StateOk(s)
    decreases 2 * Chances(s) + 1, 0, 0
  {
    var c := Connect(s.script, s.overloads);
    ConnectUses(s.script, s.overloads);
    if c.ok then NextOf(Reconnected(s)) else (Failed(c.err), Reconnected(s))
  }

  // One round of the loop.

  lemma NextQueued(s: State)
    requires StateOk(s) && s.queued != []
    ensures NextOf(s) == (Got(s.queued[0]), s.(queued := s.queued[1..]))
  {
  }

  lemma NextGot(s: State, e: Event)
    requires StateOk(s) && s.queued == [] && ReadOf(s) == Got(e)
    ensures s.outputEmitted ==> NextOf(s) == (Got(e), s.(pos := s.pos + 1))
    ensures !s.outputEmitted && e.Bookkeeping? ==>
              var t := s.(buffered := Update(s.buffered, e), pos := s.pos + 1); StateOk(t) && NextOf(s) == NextOf(t)
    ensures !s.outputEmitted && e.Overload? && s.overloads < OVERLOAD_MAX_RETRIES ==>
              NextOf(s) == AfterReconnecting(s.(overloads := s.overloads + 1))
    ensures !s.outputEmitted && !e.Bookkeeping? && !(e.Overload? && s.overloads < OVERLOAD_MAX_RETRIES) ==>
              NextOf(s) == NextOf(s.(outputEmitted := true, pos := s.pos + 1, queued := s.buffered + [e], buffered := []))
  {
    hide Update;
    if !s.outputEmitted && e.Bookkeeping? {
      UpdateIsBookkeeping(s.buffered, e);
    }
  }

  lemma NextFailed(s: State, err: Error)
    requires StateOk(s) && s.queued == [] && ReadOf(s) == Failed(err)
    ensures s.outputEmitted || s.remaining == 0 || !RetryableError(err) ==> NextOf(s) == (Failed(err), s)
    ensures !s.outputEmitted && s.remaining > 0 && err.Eof? ==>
              NextOf(s) == if s.buffered == [] then (Failed(Eof), s) else NextOf(s.(queued := s.buffered, buffered := []))
    ensures !s.outputEmitted && s.remaining > 0 && RetryableError(err) && !err.Eof? ==>
              NextOf(s) == AfterReconnecting(s.(remaining := s.remaining - 1))
  {
  }

  lemma NextReconnected(s: State)
    requires StateOk(s)
    ensures var c := Connect(s.script, s.overloads);
            if c.ok then StateOk(Reconnected(s)) && AfterReconnecting(s) == NextOf(Reconnected(s))
            else AfterReconnecting(s) == (Failed(c.err), Reconnected(s))
  {
    ConnectUses(s.script, s.overloads);
  }

  // ---------------------------------------------------------------------------
  // The stream
  // ---------------------------------------------------------------------------

  lemma {:induction false} LeadingOfPrefix(es: seq<Event>, k: nat)
    requires k <= |es| && AllBookkeeping(es[..k])
    ensures k <= Leading(es)
    ensures k < |es| && !es[k].Bookkeeping? ==> Leading(es) == k
    decreases k
  {
    if k > 0 {
      assert es[..k][0] == es[0];
      assert es[..k][1..] == es[1..][..k - 1];
      LeadingOfPrefix(es[1..], k - 1);
    }
  }

  lemma LatestStep(es: seq<Event>, k: nat)
    requires k < |es| && AllBookkeeping(es[..k]) && es[k].Bookkeeping?
    ensures AllBookkeeping(es[..k + 1]) && Latest(es[..k + 1]) == Update(Latest(es[..k]), es[k])
  {
    assert es[..k + 1][..k] == es[..k];
  }

  class RetryStream {
    var script: seq<Opening>
    var response: Response
    var pos: nat
    var closed: bool
    var remaining: nat
    var overloads: nat
    var outputEmitted: bool
    var buffered: seq<Event>
    var queued: seq<Event>
    ghost var delivered: seq<Event>
    ghost var connections: nat

    function Now(): State
      reads this
    {
      State(script, response, pos, closed, remaining, overloads, outputEmitted, buffered, queued)
    }

    /** Everything the caller was given or is about to be given from the current response. */
    ghost function Shown(): seq<Event>
      reads this`delivered, this`queued
    {
      delivered + queued
    }

    /**
     * Before output, the events read so far are bookkeeping and kept in the buffer, or, after a clean end of the
     * response, handed on; from the first output on, they are shown in canonical form.
     */
    ghost predicate Valid()
      reads this
    {
      && pos <= |response.events| && remaining <= STREAM_MAX_RETRIES && overloads <= OVERLOAD_MAX_RETRIES
      && 1 <= connections <= 1 + (STREAM_MAX_RETRIES - remaining) + overloads
      && AllBookkeeping(buffered)
      && (if outputEmitted then buffered == [] && !closed && Emitted()
          else if closed then Shown() == []
          else AllBookkeeping(response.events[..pos]) && (Buffered() || HandedOn()))
    }

    ghost predicate Emitted()
      reads this
      requires pos <= |response.events|
    {
      Leading(response.events) < pos && Shown() == Latest(response.events[..Leading(response.events)]) + response.events[Leading(response.events)..pos]
    }

    ghost predicate Buffered()
      reads this
      requires pos <= |response.events| && AllBookkeeping(response.events[..pos])
    {
      Shown() == [] && buffered == Latest(response.events[..pos])
    }

    ghost predicate HandedOn()
      reads this
      requires pos <= |response.events| && AllBookkeeping(response.events[..pos])
    {
      buffered == [] && pos == |response.events| && response.ending == Eof && remaining > 0 && Shown() == Latest(response.events)
    }

    constructor (first: Response, rest: seq<Opening>, used: nat)
      requires used <= OVERLOAD_MAX_RETRIES
      ensures Valid() && delivered == [] && connections == 1 && response == first
      ensures Now() == State(rest, first, 0, false, STREAM_MAX_RETRIES, used, false, [], [])
    {
      script, response, pos, closed, remaining, overloads := rest, first, 0, false, STREAM_MAX_RETRIES, used;
      outputEmitted, buffered, queued, delivered, connections := false, [], [], [], 1;
      new;
      assert response.events[..0] == [];
    }

    /** The buffer keeps one event of each kind, the latest. */
    method BufferBookkeeping(e: Event)
      requires e.Bookkeeping? && AllBookkeeping(buffered)
      modifies this`buffered
      ensures AllBookkeeping(buffered) && buffered == Update(old(buffered), e)
    {
      UpdateIsBookkeeping(buffered, e);
      var i := 0;
      while i < |buffered|
        invariant 0 <= i <= |buffered| && buffered == old(buffered)
        invariant Update(buffered, e) == buffered[..i] + Update(buffered[i..], e)
      {
        assert buffered[i..] == [buffered[i]] + buffered[i + 1..];
        if buffered[i].kind == e.kind {
          buffered := buffered[..i] + [e] + buffered[i + 1..];
          return;
        }
        i := i + 1;
      }
      buffered := buffered + [e];
    }

    /** A new connection takes the place of the current one; nothing was shown before. */
    method Reopen() returns (ok: bool, err: Error)
      requires pos <= |response.events| && remaining <= STREAM_MAX_RETRIES && overloads <= OVERLOAD_MAX_RETRIES
      requires 1 <= connections <= (STREAM_MAX_RETRIES - remaining) + overloads
      requires !outputEmitted && Shown() == [] && AllBookkeeping(buffered)
      modifies this
      ensures Valid() && remaining == old(remaining) && overloads >= old(overloads) && !outputEmitted && Shown() == []
      ensures delivered == old(delivered) && queued == old(queued)
      ensures ok ==> !closed && pos == 0 && buffered == []
      ensures var c := Connect(old(script), old(overloads)); ok == c.ok && (!ok ==> err == c.err) && Now() == Reconnected(old(Now()))
      ensures !ok ==> closed && err != Eof
    {
      closed := true;
      var reopened;
      ok, reopened, err, script, overloads := OpenWithHeaderRetry(script, overloads);
      if ok {
        response, pos, closed, buffered, connections := reopened, 0, false, [], connections + 1;
        assert response.events[..0] == [];
      }
    }

    /** The first event that is not bookkeeping is handed on behind the buffer. */
    method Emit(e: Event)
      requires Valid() && !outputEmitted && !closed && Shown() == [] && pos < |response.events| && e == response.events[pos] && !e.Bookkeeping?
      requires Buffered()
      modifies this`outputEmitted, this`pos, this`queued, this`buffered
      ensures Valid() && outputEmitted && delivered == old(delivered) && queued == old(buffered) + [e] && buffered == []
      ensures pos == old(pos) + 1 && Shown() != []
    {
      LeadingOfPrefix(response.events, pos);
      assert response.events[pos..pos + 1] == [e];
      outputEmitted, pos, queued, buffered := true, pos + 1, buffered + [e], [];
    }

    /** A bookkeeping event before output is kept. */
    method TakeBookkeeping(e: Event)
      requires Valid() && !outputEmitted && !closed && pos < |response.events| && e == response.events[pos] && e.Bookkeeping?
      modifies this`buffered, this`pos
      ensures Valid() && pos == old(pos) + 1 && buffered == Update(old(buffered), e)
    {
      LatestStep(response.events, pos);
      BufferBookkeeping(e);
      pos := pos + 1;
    }

    /** After output, events are handed on as they come. */
    method PassOn(e: Event)
      requires Valid() && outputEmitted && queued == [] && pos < |response.events| && e == response.events[pos]
      modifies this`delivered, this`pos
      ensures Valid() && delivered == old(delivered) + [e] && pos == old(pos) + 1
    {
      var k := Leading(response.events);
      ghost var latest := Latest(response.events[..k]);
      assert response.events[k..pos + 1] == response.events[k..pos] + [e];
      assert delivered == Shown() == latest + response.events[k..pos];
      delivered, pos := delivered + [e], pos + 1;
      assert Shown() == delivered == latest + (response.events[k..pos - 1] + [e]);
    }

    /** One read of the current connection. */
    method Read() returns (r: Result)
      requires pos <= |response.events|
      ensures closed ==> r == Failed(Retryable)
      ensures !closed ==> r == if pos < |response.events| then Got(response.events[pos]) else Failed(response.ending)
    {
      if closed {
        return Failed(Retryable);
      }
      if pos < |response.events| {
        return Got(response.events[pos]);
      }
      return Failed(response.ending);
    }

    /** The caller gets what is queued. */
    method TakeQueued() returns (e: Event)
      requires Valid() && queued != []
      modifies this`queued, this`delivered
      ensures Valid() && delivered == old(delivered) + [e] && Shown() == old(Shown())
      ensures e == old(queued)[0] && queued == old(queued)[1..]
    {
      e := queued[0];
      queued, delivered := queued[1..], delivered + [e];
      assert Shown() == old(Shown());
    }

    /** A response that ended cleanly without output still hands on its bookkeeping. */
    method HandOn()
      requires Valid() && !outputEmitted && !closed && queued == [] && buffered != [] && remaining > 0
      requires pos == |response.events| && response.ending == Eof
      modifies this`queued, this`buffered
      ensures Valid() && queued == old(buffered) && buffered == [] && Shown() != []
    {
      assert response.events[..pos] == response.events;
      queued, buffered := buffered, [];
    }

    /** Where the response ends, everything it had was delivered. */
    lemma AtTheEnd()
      requires Valid() && queued == [] && pos == |response.events|
      ensures outputEmitted ==> delivered == Canonical(response.events)
      ensures !outputEmitted && !closed ==>
                (AllBookkeeping(response.events) &&
                 (buffered == [] && remaining > 0 && response.ending == Eof ==> delivered == Latest(response.events)))
    {
      assert response.events[..pos] == response.events;
    }

    /** A clean end before output, with no reconnection left, hands on nothing. */
    lemma NothingDelivered()
      requires Valid() && !outputEmitted && queued == [] && remaining == 0
      ensures delivered == []
    {
    }

    lemma StillBuffering()
      requires Valid() && !outputEmitted && queued == [] && pos < |response.events| && !closed
      ensures Buffered() && Shown() == []
    {
    }

    lemma NothingShown()
      requires Valid() && !outputEmitted && queued == [] && !HandedOnAtEnd()
      ensures Shown() == []
    {
    }

    predicate HandedOnAtEnd()
      reads this
    {
      !closed && pos == |response.events| && response.ending == Eof
    }

    lemma RoomForOneMore()
      requires Valid()
      ensures pos <= |response.events| && remaining <= STREAM_MAX_RETRIES && overloads <= OVERLOAD_MAX_RETRIES && AllBookkeeping(buffered)
      ensures 1 <= connections <= 1 + (STREAM_MAX_RETRIES - remaining) + overloads
      ensures outputEmitted ==> !closed && buffered == []
    {
    }

    /** What was delivered is always the beginning of what a response reads as, and few connections were opened. */
    lemma DeliveredSoFar()
      requires Valid()
      ensures delivered <= Canonical(response.events) && connections <= 11
    {
      assert delivered <= Shown();
      var es, k := response.events, Leading(response.events);
      if outputEmitted {
        assert Latest(es[..k]) + es[k..pos] <= Latest(es[..k]) + es[k..] by {
          assert es[k..] == es[k..pos] + es[pos..];
        }
      } else if !closed && HandedOn() {
        assert es[..pos] == es;
        AllLeading(es);
        assert es[..k] == es && Canonical(es) == Latest(es) + [];
      }
    }

    lemma StateIsOk()
      requires Valid()
      ensures StateOk(Now())
    {
    }

    /** An event of the current connection is kept, handed on, or leads to another connection. */
    method HandleEvent(e: Event) returns (again: bool, r: Result)
      requires Valid() && StateOk(Now()) && queued == [] && ReadOf(Now()) == Got(e)
      modifies this
      ensures Valid() && StateOk(Now()) && (again ==> Fewer(Now(), old(Now())) && delivered == old(delivered))
      ensures if again then NextOf(Now()) == NextOf(old(Now())) else (r, Now()) == NextOf(old(Now()))
      ensures !again ==> delivered == old(delivered) + (if r.Got? then [r.event] else [])
      ensures old(Shown()) != [] ==> response == old(response) && connections == old(connections) && (again ==> Shown() != [])
      ensures !again && r.Failed? ==> !outputEmitted && r.error != Eof
    {
      hide Valid, Latest, Leading, Update, Shown, Buffered, AllBookkeeping, Connect, Reconnected, StateOk, NextOf, AfterReconnecting;
      RoomForOneMore();
      NextGot(Now(), e);
      if !outputEmitted {
        StillBuffering();
      }
      if !outputEmitted && e.Bookkeeping? {
        TakeBookkeeping(e);
        StateIsOk();
        return true, Got(e);
      }
      if !outputEmitted && e.Overload? && overloads < OVERLOAD_MAX_RETRIES {
        overloads := overloads + 1;
        NextReconnected(Now());
        var ok, err := Reopen();
        StateIsOk();
        return ok, Failed(err);
      }
      if outputEmitted {
        PassOn(e);
        StateIsOk();
        return false, Got(e);
      }
      Emit(e);
      StateIsOk();
      return true, Got(e);
    }

    /** The current connection ended: that is final, or its bookkeeping is handed on, or another connection is opened. */
    method HandleEnd(err: Error) returns (again: bool, r: Result)
      requires Valid() && StateOk(Now()) && queued == [] && ReadOf(Now()) == Failed(err)
      modifies this
      ensures Valid() && StateOk(Now()) && (again ==> Fewer(Now(), old(Now())) && delivered == old(delivered))
      ensures if again then NextOf(Now()) == NextOf(old(Now())) else (r, Now()) == NextOf(old(Now()))
      ensures !again ==> r.Failed? && delivered == old(delivered)
      ensures old(Shown()) != [] ==> response == old(response) && connections == old(connections) && (again ==> Shown() != [])
      ensures !again && outputEmitted ==> delivered == Canonical(response.events) && r.error == response.ending
      ensures !again && !outputEmitted && r.error == Eof ==>
                pos == |response.events| && response.ending == Eof && AllBookkeeping(response.events) &&
                delivered == if remaining > 0 then Latest(response.events) else []
    {
      hide Valid, Latest, Canonical, Leading, Update, Shown, Buffered, AllBookkeeping, Connect, Reconnected, StateOk, NextOf, AfterReconnecting;
      RoomForOneMore();
      NextFailed(Now(), err);
      if outputEmitted || remaining == 0 || !RetryableError(err) {
        if !closed {
          AtTheEnd();
        }
        if !outputEmitted && remaining == 0 {
          NothingDelivered();
        }
        return false, Failed(err);
      }
      if err.Eof? {
        if |buffered| > 0 {
          HandOn();
          StateIsOk();
          return true, Failed(err);
        }
        AtTheEnd();
        return false, Failed(err);
      }
      NothingShown();
      remaining := remaining - 1;
      NextReconnected(Now());
      var ok, failure := Reopen();
      StateIsOk();
      return ok, Failed(failure);
    }

    /** What the caller reads next. */
    method Next() returns (r: Result)
      requires Valid()
      modifies this
      ensures Valid() && StateOk(old(Now())) && (r, Now()) == NextOf(old(Now()))
      ensures delivered == old(delivered) + (if r.Got? then [r.event] else []) && delivered <= Canonical(response.events)
      ensures connections <= 11
      ensures old(Shown()) != [] ==> response == old(response) && connections == old(connections)
      ensures r.Failed? && outputEmitted ==> delivered == Canonical(response.events) && r.error == response.ending
      ensures r == Failed(Eof) && !outputEmitted ==>
                pos == |response.events| && response.ending == Eof && AllBookkeeping(response.events) &&
                delivered == if remaining > 0 then Latest(response.events) else []
    {
      hide Valid, Latest, Canonical, Leading, Shown, AllBookkeeping, StateOk, NextOf, Update, RetryableError, Connect;
      StateIsOk();
      RoomForOneMore();
      while true
        invariant Valid() && StateOk(Now()) && overloads <= OVERLOAD_MAX_RETRIES && pos <= |response.events|
        invariant NextOf(Now()) == NextOf(old(Now())) && delivered == old(delivered)
        invariant old(Shown()) != [] ==> response == old(response) && connections == old(connections) && Shown() != []
        decreases remaining + (OVERLOAD_MAX_RETRIES - overloads), |response.events| - pos, |buffered|
      {
        if |queued| > 0 {
          NextQueued(Now());
          var e := TakeQueued();
          DeliveredSoFar();
          return Got(e);
        }
        var read := Read();
        var again;
        match read {
          case Got(e) => again, r := HandleEvent(e);
          case Failed(err) => again, r := HandleEnd(err);
        }
        RoomForOneMore();
        if !again {
          DeliveredSoFar();
          return;
        }
      }
    }
  }

  // ---------------------------------------------------------------------------
  // How the end of a response before output is taken
  // ---------------------------------------------------------------------------

  /** Before output, nothing but bookkeeping is left to read of the current response. */
  predicate OnlyBookkeepingLeft(s: State) {
    StateOk(s) && !s.closed && !s.outputEmitted && s.queued == [] && AllBookkeeping(s.response.events[s.pos..])
  }

  lemma RestIsBookkeeping(es: seq<Event>, pos: nat)
    requires pos < |es| && AllBookkeeping(es[pos..])
    ensures es[pos].Bookkeeping? && AllBookkeeping(es[pos + 1..])
  {
    var left, rest := es[pos..], es[pos + 1..];
    assert left[0] == es[pos] && forall i | 0 <= i < |rest| :: rest[i] == left[i + 1];
  }

  /** The stream when that is read. */
  function ReadUp(s: State): State
    requires OnlyBookkeepingLeft(s)
    decreases |s.response.events| - s.pos
  {
    if s.pos == |s.response.events| then s
    else
      var e := s.response.events[s.pos];
      RestIsBookkeeping(s.response.events, s.pos);
      UpdateIsBookkeeping(s.buffered, e);
      ReadUp(s.(buffered := Update(s.buffered, e), pos := s.pos + 1))
  }

  lemma {:induction false} ReadingUp(s: State)
    requires OnlyBookkeepingLeft(s)
    ensures var t := ReadUp(s);
            && OnlyBookkeepingLeft(t) && t.pos == |s.response.events| && t == s.(pos := t.pos, buffered := t.buffered)
            && NextOf(s) == NextOf(t) && (t.buffered == [] <==> s.buffered == [] && s.pos == |s.response.events|)
    decreases |s.response.events| - s.pos
  {
    if s.pos < |s.response.events| {
      var e := s.response.events[s.pos];
      RestIsBookkeeping(s.response.events, s.pos);
      UpdateIsBookkeeping(s.buffered, e);
      NextGot(s, e);
      ReadingUp(s.(buffered := Update(s.buffered, e), pos := s.pos + 1));
    }
  }

  /** A permanent failure, or a cancellation, is handed on without another connection, whatever reconnections are left. */
  lemma FinalEndIsReturned(s: State)
    requires OnlyBookkeepingLeft(s) && (s.response.ending.Permanent? || s.response.ending.Canceled?)
    ensures var (r, t) := NextOf(s); r == Failed(s.response.ending) && t == s.(pos := t.pos, buffered := t.buffered)
  {
    hide NextOf, AllBookkeeping, Update;
    ReadingUp(s);
    NextFailed(ReadUp(s), s.response.ending);
  }

  /**
   * Answer `k` is the next connection, read from its beginning with nothing kept, or there is none, the stream stays
   * closed, and its error is handed on.
   */
  predicate GoesOn(s: State, k: nat, outcome: (Result, State))
    requires k <= |s.script|
  {
    if k < |s.script| && s.script[k].Opened? then
      var t := State(s.script[k + 1..], s.script[k].response, 0, false, s.remaining, s.overloads + Rejections(s.script, k), false, [], []);
      StateOk(t) && outcome == NextOf(t)
    else outcome.0.Failed? && outcome.0.error != Eof && outcome.1.closed && outcome.1.remaining == s.remaining
  }

  /** Some answer decides how the outcome comes about. */
  ghost predicate Reconnects(s: State, outcome: (Result, State)) {
    exists k: nat :: Decides(s.script, s.overloads, k) && GoesOn(s, k, outcome)
  }

  /** What was read of the lost response does not matter. */
  lemma SameReconnects(s: State, t: State, outcome: (Result, State))
    requires t == s.(pos := t.pos, buffered := t.buffered) && Reconnects(s, outcome)
    ensures Reconnects(t, outcome)
  {
    hide NextOf, Rejections, AllRepeated;
    var k: nat :| Decides(s.script, s.overloads, k) && GoesOn(s, k, outcome);
    assert Decides(t.script, t.overloads, k) && GoesOn(t, k, outcome);
  }

  lemma ReconnectingMeans(s: State)
    requires StateOk(s) && !s.outputEmitted && s.queued == []
    ensures Reconnects(s, AfterReconnecting(s))
  {
    hide NextOf, AfterReconnecting, Decides, Connect, Rejections, GoesOn, StateOk, Reconnected;
    WithinBudget(s);
    var k := ConnectMeans(s.script, s.overloads);
    NextReconnected(s);
    DecidesWithin(s.script, s.overloads, k);
    if k < |s.script| && s.script[k].Opened? {
      OpenedGoesOn(s, k);
    } else {
      FailedGoesOn(s, k, Connect(s.script, s.overloads).err);
    }
  }

  lemma WithinBudget(s: State)
    requires StateOk(s)
    ensures s.overloads <= 5
  {
  }

  lemma OpenedGoesOn(s: State, k: nat)
    requires !s.outputEmitted && s.queued == [] && k < |s.script| && s.script[k].Opened? && StateOk(Reconnected(s))
    requires var c := Connect(s.script, s.overloads);
             c.ok && c.response == s.script[k].response && c.rest == s.script[k + 1..] && c.used == s.overloads + Rejections(s.script, k)
    ensures GoesOn(s, k, NextOf(Reconnected(s)))
  {
    hide NextOf, Connect, StateOk, Rejections;
  }

  lemma FailedGoesOn(s: State, k: nat, err: Error)
    requires k <= |s.script| && (k < |s.script| ==> !s.script[k].Opened?) && !Connect(s.script, s.overloads).ok && err != Eof
    ensures GoesOn(s, k, (Failed(err), Reconnected(s)))
  {
    hide NextOf, Connect, StateOk, Rejections;
  }

  lemma DecidesWithin(script: seq<Opening>, used: nat, k: nat)
    requires Decides(script, used, k)
    ensures k <= |script|
  {
  }

  /** After a drop a reconnection is spent, if one is left. With none left, the drop is handed on itself. */
  lemma DropReconnects(s: State)
    requires OnlyBookkeepingLeft(s) && (s.response.ending.Retryable? || s.response.ending.Overloaded?)
    ensures s.remaining == 0 ==> NextOf(s).0 == Failed(s.response.ending) && NextOf(s).1.response == s.response
    ensures s.remaining > 0 ==> Reconnects(s.(remaining := s.remaining - 1), NextOf(s))
  {
    hide NextOf, AfterReconnecting, AllBookkeeping, Update, Connect, Reconnects, ReadUp;
    ReadingUp(s);
    var t := ReadUp(s);
    NextFailed(t, s.response.ending);
    if s.remaining > 0 {
      StillOk(t);
      var u := t.(remaining := t.remaining - 1);
      ReconnectingMeans(u);
      SameReconnects(u, s.(remaining := s.remaining - 1), NextOf(s));
    }
  }

  lemma StillOk(s: State)
    requires StateOk(s) && s.remaining > 0
    ensures StateOk(s.(remaining := s.remaining - 1)) && s.overloads <= 5
  {
  }

  /** An overload reported inside the stream before output reconnects while the budget lasts, and is handed on afterwards. */
  lemma OverloadReconnects(s: State)
    requires StateOk(s) && !s.closed && !s.outputEmitted && s.queued == [] && s.pos < |s.response.events| && s.response.events[s.pos].Overload?
    ensures s.overloads == 5 && s.buffered == [] ==> NextOf(s).0 == Got(s.response.events[s.pos])
    ensures s.overloads < 5 ==> Reconnects(s.(overloads := s.overloads + 1), NextOf(s))
  {
    hide NextOf, AfterReconnecting, AllBookkeeping, Connect, Reconnects;
    var e := s.response.events[s.pos];
    NextGot(s, e);
    if s.overloads < 5 {
      ReconnectingMeans(s.(overloads := s.overloads + 1));
    } else {
      var t := s.(outputEmitted := true, pos := s.pos + 1, queued := s.buffered + [e], buffered := []);
      NextQueued(t);
    }
  }

  lemma {:induction false} AllLeading(es: seq<Event>)
    requires AllBookkeeping(es)
    ensures Leading(es) == |es|
  {
    if es != [] {
      AllLeading(es[1..]);
    }
  }

  const DROPPED := Response([], Retryable)
  const ONLY_USAGE := Response([Bookkeeping(Usage, 1)], Eof)
  const FIVE_DROPS: seq<Opening> := [Opened(DROPPED), Opened(DROPPED), Opened(DROPPED), Opened(DROPPED), Opened(ONLY_USAGE)]

  /** The stream before the next read, after some drops. */
  function AfterDrops(left: nat): State
    requires left <= 5
  {
    State(FIVE_DROPS[5 - left..], if left == 0 then ONLY_USAGE else DROPPED, 0, false, left, 0, false, [], [])
  }

  lemma OneDrop(left: nat)
    requires 0 < left <= 5
    ensures NextOf(AfterDrops(left)) == NextOf(AfterDrops(left - 1))
  {
    hide Update;
    var s := AfterDrops(left).(remaining := left - 1);
    assert s.script[0] == Opened(if left == 1 then ONLY_USAGE else DROPPED) && s.script[1..] == FIVE_DROPS[6 - left..];
    assert Reconnected(s) == AfterDrops(left - 1);
  }

  /** The usage of a response that ends cleanly before output reaches nobody after five reconnections, but does after none. */
  lemma CleanEndCanLoseBookkeeping()
    ensures NextOf(State(FIVE_DROPS, DROPPED, 0, false, STREAM_MAX_RETRIES, 0, false, [], [])).0 == Failed(Eof)
    ensures NextOf(State([], ONLY_USAGE, 0, false, STREAM_MAX_RETRIES, 0, false, [], [])).0 == Got(Bookkeeping(Usage, 1))
  {
    assert FIVE_DROPS[0..] == FIVE_DROPS;
    OneDrop(5);
    OneDrop(4);
    OneDrop(3);
    OneDrop(2);
    OneDrop(1);
    UsageOnly(AfterDrops(0));
    UsageOnly(State([], ONLY_USAGE, 0, false, STREAM_MAX_RETRIES, 0, false, [], []));
  }

  lemma UsageOnly(s: State)
    requires s == State(s.script, ONLY_USAGE, 0, false, s.remaining, 0, false, [], [])
    ensures NextOf(s).0 == if s.remaining == 0 then Failed(Eof) else Got(Bookkeeping(Usage, 1))
  {
    var read := s.(buffered := [Bookkeeping(Usage, 1)], pos := 1);
    assert NextOf(s) == NextOf(read);
    if s.remaining > 0 {
      assert NextOf(read) == NextOf(read.(queued := read.buffered, buffered := []));
    }
  }

  predicate RetryableError(e: Error) { e.Eof? || e.Retryable? || e.Overloaded? }

  /** Requests are repeated after header timeouts, and within the budget after overload rejections. */
  method OpenWithHeaderRetry(script: seq<Opening>, overloads: nat) returns (ok: bool, response: Response, err: Error, rest: seq<Opening>, used: nat)
    requires overloads <= OVERLOAD_MAX_RETRIES
    ensures overloads <= used <= OVERLOAD_MAX_RETRIES && |rest| <= |script| && rest == script[|script| - |rest|..]
    ensures ok ==> |rest| < |script| && script[|script| - |rest| - 1] == Opened(response)
    ensures Connection(ok, response, err, rest, used) == Connect(script, overloads)
    ensures ok <==> exists k :: 0 <= k < |script| && Decides(script, overloads, k) && script[k].Opened?
    ensures forall k: nat | Decides(script, overloads, k) ::
              && used == overloads + Rejections(script, k)
              && (k < |script| && ok ==> script[k] == Opened(response) && rest == script[k + 1..])
              && (!ok ==> err == if k == |script| || script[k].WaitCanceled? then Canceled else if script[k].OpenFailed? then Permanent else Overloaded)
    ensures !ok ==> err != Eof
    ensures !ok && err == Overloaded ==> used == OVERLOAD_MAX_RETRIES
  {
    ghost var decides := ConnectMeans(script, overloads);
    forall k: nat | Decides(script, overloads, k)
      ensures k == decides
    {
      OneDecides(script, overloads, decides, k);
    }
    hide Decides;
    response, err, rest, used := NO_RESPONSE, Canceled, script, overloads;
    while rest != []
      invariant overloads <= used <= OVERLOAD_MAX_RETRIES && |rest| <= |script| && rest == script[|script| - |rest|..]
      invariant Connect(rest, used) == Connect(script, overloads) && response == NO_RESPONSE
      decreases |rest|
    {
      var answer := rest[0];
      rest := rest[1..];
      match answer {
        case Opened(reopened) => return true, reopened, Canceled, rest, used;
        case OpenFailed => return false, response, Permanent, rest, used;
        case WaitCanceled => return false, response, Canceled, rest, used;
        case HeaderTimeout =>
        case EngineOverloaded =>
          if used >= OVERLOAD_MAX_RETRIES {
            return false, response, Overloaded, rest, used;
          }
          used := used + 1;
      }
    }
    return false, response, Canceled, rest, used;
  }
}
