/**
 * The FIFO semaphore that bounds concurrent child turns. Every attempt to get a unit is one request;
 * each step is one critical section of the semaphore's lock, or the moment a waiter sees its grant.
 */
module Semaphore {

  /**
   * `used`, `limit` and `waiters` are the semaphore's own fields. The rest is its history: units handed to a
   * waiter that has not looked yet, units in someone's hands, and the requests that had to queue, in order of
   * arrival without those that gave up, next to those that were served.
   */
  datatype Sem = Sem(used: int, limit: int, waiters: seq<nat>, granted: set<nat>, held: set<nat>, arrived: seq<nat>, served: seq<nat>)

  function New(limit: int): Sem { Sem(0, limit, [], {}, {}, [], []) }

  /** The request has neither a unit nor a place in the queue. */
  predicate Unknown(s: Sem, id: nat) { id !in s.waiters && id !in s.granted && id !in s.held && id !in s.arrived }

  predicate Free(s: Sem) { s.used < s.limit && s.waiters == [] }

  function Take(s: Sem, id: nat): Sem { s.(used := s.used + 1, held := s.held + {id}) }

  function TryAcquire(s: Sem, id: nat): Sem {
    if s.used == s.limit || s.waiters != [] then s else Take(s, id)
  }

  function Acquire(s: Sem, id: nat): Sem {
    if Free(s) then Take(s, id) else s.(waiters := s.waiters + [id], arrived := s.arrived + [id])
  }

  /** A waiter sees that its channel was closed. */
  function Observe(s: Sem, id: nat): Sem { s.(granted := s.granted - {id}, held := s.held + {id}) }

  function Without(ids: seq<nat>, id: nat): (r: seq<nat>)
    ensures forall x :: x in r <==> x in ids && x != id
  {
    if ids == [] then [] else (if ids[0] == id then [] else [ids[0]]) + Without(ids[1..], id)
  }

  /** A canceled waiter leaves the queue; one that was granted meanwhile is no longer in it. */
  function Cancel(s: Sem, id: nat): Sem { s.(waiters := Without(s.waiters, id), arrived := Without(s.arrived, id)) }

  function Release(s: Sem, id: nat): Sem {
    if s.waiters == [] then s.(used := s.used - 1, held := s.held - {id})
    else s.(held := s.held - {id}, waiters := s.waiters[1..], granted := s.granted + {s.waiters[0]}, served := s.served + [s.waiters[0]])
  }

  // ---------------------------------------------------------------------------
  // The invariant
  // ---------------------------------------------------------------------------

  ghost predicate Distinct(ids: seq<nat>) { forall i, j | 0 <= i < j < |ids| :: ids[i] != ids[j] }

  ghost predicate Inv(s: Sem) {
    && s.used == |s.held| + |s.granted|
    && 0 <= s.used <= s.limit
    && (s.waiters != [] ==> s.used == s.limit)
    && s.held !! s.granted
    && (forall id | id in s.waiters :: id !in s.held && id !in s.granted)
    && (forall id | id in s.granted :: id in s.served)
    && s.arrived == s.served + s.waiters
    && Distinct(s.arrived)
  }

  lemma NewOk(limit: int)
    requires limit >= 0
    ensures Inv(New(limit))
  {
  }

  lemma TryAcquireOk(s: Sem, id: nat)
    requires Inv(s) && Unknown(s, id)
    ensures Inv(TryAcquire(s, id))
    ensures id in TryAcquire(s, id).held <==> Free(s)
  {
    assert TryAcquire(s, id) != s ==> |s.held + {id}| == |s.held| + 1;
  }

  lemma AcquireOk(s: Sem, id: nat)
    requires Inv(s) && Unknown(s, id)
    ensures Inv(Acquire(s, id))
    ensures if Free(s) then id in Acquire(s, id).held else id in Acquire(s, id).waiters && Acquire(s, id).held == s.held
  {
    if Free(s) {
      assert |s.held + {id}| == |s.held| + 1;
    } else {
      assert s.arrived + [id] == s.served + (s.waiters + [id]);
    }
  }

  lemma ObserveOk(s: Sem, id: nat)
    requires Inv(s) && id in s.granted
    ensures Inv(Observe(s, id))
  {
    assert |s.held + {id}| == |s.held| + 1 && |s.granted - {id}| == |s.granted| - 1;
  }

  lemma {:induction false} WithoutConcat(a: seq<nat>, b: seq<nat>, id: nat)
    ensures Without(a + b, id) == Without(a, id) + Without(b, id)
  {
    if a == [] {
      assert a + b == b;
    } else {
      assert (a + b)[1..] == a[1..] + b;
      WithoutConcat(a[1..], b, id);
    }
  }

  lemma {:induction false} WithoutAbsent(a: seq<nat>, id: nat)
    requires id !in a
    ensures Without(a, id) == a
  {
    if a != [] {
      WithoutAbsent(a[1..], id);
    }
  }

  lemma {:induction false} WithoutDistinct(a: seq<nat>, id: nat)
    requires Distinct(a)
    ensures Distinct(Without(a, id))
  {
    if a != [] {
      var rest := Without(a[1..], id);
      assert a[0] !in a[1..];
      WithoutDistinct(a[1..], id);
      assert forall i | 0 <= i < |rest| :: rest[i] in rest;
    }
  }

  lemma WaiterNotServed(s: Sem, id: nat)
    requires Inv(s) && id in s.waiters
    ensures id !in s.served && id in s.arrived
  {
    var j :| 0 <= j < |s.waiters| && s.waiters[j] == id;
    assert s.arrived[|s.served| + j] == id;
    assert forall i | 0 <= i < |s.served| :: s.arrived[i] == s.served[i];
  }

  lemma CancelOk(s: Sem, id: nat)
    requires Inv(s) && id in s.waiters
    ensures Inv(Cancel(s, id))
  {
    WaiterNotServed(s, id);
    WithoutConcat(s.served, s.waiters, id);
    WithoutAbsent(s.served, id);
    WithoutDistinct(s.arrived, id);
  }

  lemma ReleaseOk(s: Sem, id: nat)
    requires Inv(s) && id in s.held
    ensures Inv(Release(s, id))
  {
    assert |s.held - {id}| == |s.held| - 1;
    if s.waiters != [] {
      var next := s.waiters[0];
      assert next in s.waiters && s.waiters == [next] + s.waiters[1..];
      assert |s.granted + {next}| == |s.granted| + 1;
      assert s.served + s.waiters == (s.served + [next]) + s.waiters[1..];
      WaiterNotServed(s, next);
      RestNotFirst(s);
    }
  }

  lemma RestNotFirst(s: Sem)
    requires Inv(s) && s.waiters != []
    ensures s.waiters[0] !in s.waiters[1..] && forall id | id in s.waiters[1..] :: id in s.waiters
  {
    forall j | 0 <= j < |s.waiters[1..]|
      ensures s.waiters[1..][j] != s.waiters[0]
    {
      assert s.arrived[|s.served|] == s.waiters[0] && s.arrived[|s.served| + j + 1] == s.waiters[1..][j];
    }
  }

  // ---------------------------------------------------------------------------
  // The order of service
  // ---------------------------------------------------------------------------

  datatype Step = Try(id: nat) | Ask(id: nat) | See(id: nat) | GiveUp(id: nat) | Return(id: nat)

  predicate Enabled(s: Sem, step: Step) {
    match step
    case Try(id) => Unknown(s, id)
    case Ask(id) => Unknown(s, id)
    case See(id) => id in s.granted
    case GiveUp(id) => id in s.waiters
    case Return(id) => id in s.held
  }

  function Next(s: Sem, step: Step): Sem {
    match step
    case Try(id) => TryAcquire(s, id)
    case Ask(id) => Acquire(s, id)
    case See(id) => Observe(s, id)
    case GiveUp(id) => Cancel(s, id)
    case Return(id) => Release(s, id)
  }

  predicate Run(s: Sem, steps: seq<Step>, t: Sem)
    decreases |steps|
  {
    if steps == [] then s == t else Enabled(s, steps[0]) && Run(Next(s, steps[0]), steps[1..], t)
  }

  lemma StepKeepsInv(s: Sem, step: Step)
    requires Inv(s) && Enabled(s, step)
    ensures Inv(Next(s, step))
  {
    hide Inv;
    match step {
      case Try(id) => TryAcquireOk(s, id);
      case Ask(id) => AcquireOk(s, id);
      case See(id) => ObserveOk(s, id);
      case GiveUp(id) => CancelOk(s, id);
      case Return(id) => ReleaseOk(s, id);
    }
  }

  /** Of two requests in the queue, `a` came first. */
  predicate Ahead(s: Sem, a: nat, b: nat) { Precedes(s.waiters, a, b) }

  predicate Precedes(ids: seq<nat>, a: nat, b: nat) {
    ids != [] && ((ids[0] == a && b in ids[1..]) || Precedes(ids[1..], a, b))
  }

  /** `b` is still behind `a`, or `a` is out of the queue, or `b` gave up. */
  ghost predicate InTurn(s: Sem, a: nat, b: nat) { Ahead(s, a, b) || a !in s.waiters || b !in s.arrived }

  lemma {:induction false} AheadAreWaiting(ids: seq<nat>, a: nat, b: nat)
    requires Precedes(ids, a, b)
    ensures a in ids && b in ids
  {
    if ids[0] != a || b !in ids[1..] {
      AheadAreWaiting(ids[1..], a, b);
    }
  }

  lemma {:induction false} WithoutKeepsOrder(ids: seq<nat>, id: nat, a: nat, b: nat)
    requires a != id && b != id && Precedes(ids, a, b)
    ensures Precedes(Without(ids, id), a, b)
  {
    if Precedes(ids[1..], a, b) {
      WithoutKeepsOrder(ids[1..], id, a, b);
    }
    var rest := Without(ids[1..], id);
    if ids[0] == id {
      assert Without(ids, id) == rest;
    } else {
      assert Without(ids, id)[0] == ids[0] && Without(ids, id)[1..] == rest;
    }
  }

  lemma {:induction false} AppendKeepsOrder(ids: seq<nat>, id: nat, a: nat, b: nat)
    requires Precedes(ids, a, b)
    ensures Precedes(ids + [id], a, b)
  {
    assert (ids + [id])[1..] == ids[1..] + [id];
    if Precedes(ids[1..], a, b) {
      AppendKeepsOrder(ids[1..], id, a, b);
    }
  }

  lemma StepKeepsOrder(s: Sem, step: Step, a: nat, b: nat)
    requires Inv(s) && Enabled(s, step) && Ahead(s, a, b) && step.id != a && step.id != b
    ensures InTurn(Next(s, step), a, b)
  {
    match step {
      case GiveUp(id) => WithoutKeepsOrder(s.waiters, id, a, b);
      case Return(_) => RestNotFirst(s);
      case Ask(id) => AppendKeepsOrder(s.waiters, id, a, b);
      case _ =>
    }
  }

  predicate Asks(step: Step, id: nat) { step == Ask(id) || step == Try(id) }

  lemma StepKeepsTurn(s: Sem, step: Step, a: nat, b: nat)
    requires Inv(s) && Enabled(s, step) && InTurn(s, a, b) && !Asks(step, a) && !Asks(step, b)
    ensures InTurn(Next(s, step), a, b)
  {
    StepKeepsInv(s, step);
    if Ahead(s, a, b) {
      AheadAreWaiting(s.waiters, a, b);
      if step.id != a && step.id != b {
        StepKeepsOrder(s, step, a, b);
      }
    } else if step.Return? && s.waiters != [] {
      RestNotFirst(s);
    }
  }

  lemma {:induction false} RunKeepsTurn(s: Sem, steps: seq<Step>, t: Sem, a: nat, b: nat)
    requires Inv(s) && Run(s, steps, t) && InTurn(s, a, b)
    requires forall k | 0 <= k < |steps| :: !Asks(steps[k], a) && !Asks(steps[k], b)
    ensures Inv(t) && InTurn(t, a, b)
    decreases |steps|
  {
    hide Inv, InTurn, Enabled, Next;
    if steps != [] {
      StepKeepsInv(s, steps[0]);
      StepKeepsTurn(s, steps[0], a, b);
      RunKeepsTurn(Next(s, steps[0]), steps[1..], t, a, b);
    }
  }

  /** First come, first served, in every run: a waiter is served only after everyone ahead of it was served or gave up. */
  lemma ServedInOrder(s: Sem, steps: seq<Step>, t: Sem, a: nat, b: nat)
    requires Inv(s) && Ahead(s, a, b) && Run(s, steps, t)
    requires forall k | 0 <= k < |steps| :: !Asks(steps[k], a) && !Asks(steps[k], b)
    ensures b in t.served ==> a !in t.waiters
  {
    RunKeepsTurn(s, steps, t, a, b);
    if b in t.served {
      if Ahead(t, a, b) {
        AheadAreWaiting(t.waiters, a, b);
        WaiterNotServed(t, b);
      }
    }
  }

  lemma {:induction false} RunKeepsInv(s: Sem, steps: seq<Step>, t: Sem)
    requires Inv(s) && Run(s, steps, t)
    ensures Inv(t)
    decreases |steps|
  {
    hide Inv, Enabled, Next;
    if steps != [] {
      StepKeepsInv(s, steps[0]);
      RunKeepsInv(Next(s, steps[0]), steps[1..], t);
    }
  }

  /** In every run of a semaphore with a limit, units in use are the ones in hand or on their way, and nobody waits beside a free unit. */
  lemma UnitsAreAccounted(limit: int, steps: seq<Step>, s: Sem)
    requires limit >= 0 && Run(New(limit), steps, s)
    ensures s.used == |s.held| + |s.granted| <= s.limit
    ensures s.waiters != [] ==> s.used == s.limit
  {
    NewOk(limit);
    RunKeepsInv(New(limit), steps, s);
  }

  // ---------------------------------------------------------------------------
  // The semaphore itself
  // ---------------------------------------------------------------------------

  class ChildTurnSemaphore {
    var used: int
    var limit: int
    var waiters: seq<nat>
    ghost var granted: set<nat>
    ghost var held: set<nat>
    ghost var arrived: seq<nat>
    ghost var served: seq<nat>

    ghost function View(): Sem
      reads this
    {
      Sem(used, limit, waiters, granted, held, arrived, served)
    }

    constructor (max: int)
      ensures View() == New(max)
    {
      used, limit, waiters := 0, max, [];
      granted, held, arrived, served := {}, {}, [], [];
    }

    method TryAcquireUnit(id: nat) returns (ok: bool)
      requires Inv(View()) && Unknown(View(), id)
      modifies this
      ensures View() == TryAcquire(old(View()), id) && Inv(View())
      ensures used == (if ok then old(used) + 1 else old(used)) && held == (if ok then old(held) + {id} else old(held)) && waiters == old(waiters)
      ensures ok <==> old(used < limit && waiters == [])
      ensures ok <==> id in held
    {
      TryAcquireOk(View(), id);
      if used == limit || |waiters| != 0 {
        return false;
      }
      used, held := used + 1, held + {id};
      return true;
    }

    /** The first half of acquiring: a unit at once, or a place at the end of the queue. */
    method AcquireOrQueue(id: nat) returns (ok: bool)
      requires Inv(View()) && Unknown(View(), id)
      modifies this
      ensures View() == Acquire(old(View()), id) && Inv(View())
      ensures ok <==> old(used < limit && waiters == [])
      ensures ok ==> used == old(used) + 1 && held == old(held) + {id} && waiters == []
      ensures !ok ==> used == old(used) && held == old(held) && waiters == old(waiters) + [id]
    {
      AcquireOk(View(), id);
      if used < limit && |waiters| == 0 {
        used, held := used + 1, held + {id};
        return true;
      }
      waiters, arrived := waiters + [id], arrived + [id];
      return false;
    }

    /** A canceled waiter looks for itself in the queue; not finding itself means that a unit is on its way to it. */
    method LeaveQueue(id: nat) returns (left: bool)
      requires Inv(View()) && (id in waiters || id in granted)
      modifies this
      ensures Inv(View()) && (left <==> id in old(waiters))
      ensures View() == if left then Cancel(old(View()), id) else old(View())
      ensures used == old(used) && held == old(held) && granted == old(granted)
      ensures left ==>
                exists i :: 0 <= i < |old(waiters)| && old(waiters)[i] == id && waiters == old(waiters)[..i] + old(waiters)[i + 1..]
    {
      var index := 0;
      while index < |waiters|
        invariant 0 <= index <= |waiters| && id !in waiters[..index]
        invariant View() == old(View())
      {
        if waiters[index] == id {
          CancelOk(View(), id);
          CutOut(View(), index);
          waiters, arrived := waiters[..index] + waiters[index + 1..], Without(arrived, id);
          return true;
        }
        index := index + 1;
      }
      return false;
    }

    /** A returned unit goes straight to the first waiter, or becomes free. */
    method ReleaseUnit(ghost id: nat)
      requires Inv(View()) && id in held
      modifies this
      ensures View() == Release(old(View()), id) && Inv(View())
      ensures held == old(held) - {id}
      ensures old(waiters) == [] ==> used == old(used) - 1 && granted == old(granted) && waiters == []
      ensures old(waiters) != [] ==> used == old(used) && granted == old(granted) + {old(waiters)[0]} && waiters == old(waiters)[1..]
    {
      ReleaseOk(View(), id);
      held := held - {id};
      if |waiters| == 0 {
        used := used - 1;
        return;
      }
      granted, served := granted + {waiters[0]}, served + [waiters[0]];
      waiters := waiters[1..];
    }
  }

  lemma WaitersDistinct(s: Sem)
    requires Inv(s)
    ensures Distinct(s.waiters)
  {
    assert forall i | 0 <= i < |s.waiters| :: s.arrived[|s.served| + i] == s.waiters[i];
  }

  lemma CutOut(s: Sem, index: nat)
    requires Inv(s) && index < |s.waiters|
    ensures Without(s.waiters, s.waiters[index]) == s.waiters[..index] + s.waiters[index + 1..]
  {
    WaitersDistinct(s);
    CutOutOf(s.waiters, index);
  }

  lemma {:induction false} CutOutOf(ids: seq<nat>, index: nat)
    requires Distinct(ids) && index < |ids|
    ensures Without(ids, ids[index]) == ids[..index] + ids[index + 1..]
  {
    var rest := ids[1..];
    if index == 0 {
      WithoutAbsent(rest, ids[0]);
    } else {
      CutOutOf(rest, index - 1);
      assert ids[..index] == [ids[0]] + rest[..index - 1] && ids[index + 1..] == rest[index..];
    }
  }
}
