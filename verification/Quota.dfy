/**
 * The two-level quota of child turns: a child's turn needs a unit of its parent's semaphore and then one of the
 * user session's. Every attempt to get the pair runs concurrently with all others; a step is one critical section
 * of one semaphore, or of the quota lock.
 */
module Quota {
  import S = Semaphore

  type Sem = S.Sem

  /**
   * Where an attempt stands. A non-blocking attempt gives up at a busy semaphore, a blocking one queues;
   * `Pass` phases have been canceled but were granted meanwhile, and `Drop` phases give back what they have.
   */
  datatype Phase =
    | WaitParent | PassParent | HasParent(blocking: bool)
    | WaitGlobal | PassGlobal | GotGlobal
    | Holding | ReleasedParent
    | DropGlobal | DropParent
    | Gone

  datatype Attempt = Attempt(parent: nat, phase: Phase)

  datatype Quota = Quota(perParent: int, parents: map<nat, Sem>, global: Sem, closed: bool, attempts: map<nat, Attempt>)

  datatype Step =
    | AddParent(parent: nat)
    | Try(id: nat, parent: nat)
    | Ask(id: nat, parent: nat)
    | SeeParent(id: nat)
    | CancelParent(id: nat)
    | TryGlobal(id: nat)
    | AskGlobal(id: nat)
    | SeeGlobal(id: nat)
    | CancelGlobal(id: nat)
    | CheckClosed(id: nat)
    | GiveBackGlobal(id: nat)
    | GiveBackParent(id: nat)
    | ReleaseParent(id: nat)
    | ReleaseGlobal(id: nat)
    | Close

  function New(perParent: int, limit: int): Quota { Quota(perParent, map[], S.New(limit), false, map[]) }

  predicate In(q: Quota, id: nat, phase: Phase) { id in q.attempts && q.attempts[id].phase == phase && q.attempts[id].parent in q.parents }

  function ParentSem(q: Quota, id: nat): Sem
    requires id in q.attempts && q.attempts[id].parent in q.parents
  {
    q.parents[q.attempts[id].parent]
  }

  predicate Enabled(q: Quota, step: Step) {
    match step
    case AddParent(p) => p !in q.parents
    case Try(id, p) => id !in q.attempts && p in q.parents
    case Ask(id, p) => id !in q.attempts && p in q.parents
    case SeeParent(id) => (In(q, id, WaitParent) || In(q, id, PassParent)) && id in ParentSem(q, id).granted
    case CancelParent(id) => In(q, id, WaitParent)
    case TryGlobal(id) => In(q, id, HasParent(false))
    case AskGlobal(id) => In(q, id, HasParent(true))
    case SeeGlobal(id) => (In(q, id, WaitGlobal) || In(q, id, PassGlobal)) && id in q.global.granted
    case CancelGlobal(id) => In(q, id, WaitGlobal)
    case CheckClosed(id) => In(q, id, GotGlobal)
    case GiveBackGlobal(id) => In(q, id, DropGlobal)
    case GiveBackParent(id) => In(q, id, DropParent)
    case ReleaseParent(id) => In(q, id, Holding)
    case ReleaseGlobal(id) => In(q, id, ReleasedParent)
    case Close => true
  }

  function WithParent(q: Quota, id: nat, s: Sem, phase: Phase): Quota
    requires id in q.attempts
  {
    var a := q.attempts[id];
    q.(parents := q.parents[a.parent := s], attempts := q.attempts[id := a.(phase := phase)])
  }

  function WithGlobal(q: Quota, id: nat, s: Sem, phase: Phase): Quota
    requires id in q.attempts
  {
    q.(global := s, attempts := q.attempts[id := q.attempts[id].(phase := phase)])
  }

  function Started(q: Quota, id: nat, parent: nat): Quota { q.(attempts := q.attempts[id := Attempt(parent, Gone)]) }

  function Next(q: Quota, step: Step): Quota
    requires Enabled(q, step)
  {
    match step
    case AddParent(p) => q.(parents := q.parents[p := S.New(q.perParent)])
    case Try(id, p) =>
      var s := S.TryAcquire(q.parents[p], id);
      WithParent(Started(q, id, p), id, s, if id in s.held then HasParent(false) else Gone)
    case Ask(id, p) =>
      var s := S.Acquire(q.parents[p], id);
      WithParent(Started(q, id, p), id, s, if id in s.held then HasParent(true) else WaitParent)
    case SeeParent(id) =>
      WithParent(q, id, S.Observe(ParentSem(q, id), id), if q.attempts[id].phase.WaitParent? then HasParent(true) else DropParent)
    case CancelParent(id) =>
      if id in ParentSem(q, id).waiters then WithParent(q, id, S.Cancel(ParentSem(q, id), id), Gone)
      else WithParent(q, id, ParentSem(q, id), PassParent)
    case TryGlobal(id) =>
      if q.closed then WithGlobal(q, id, q.global, DropParent)
      else
        var s := S.TryAcquire(q.global, id);
        WithGlobal(q, id, s, if id in s.held then Holding else DropParent)
    case AskGlobal(id) =>
      var s := S.Acquire(q.global, id);
      WithGlobal(q, id, s, if id in s.held then GotGlobal else WaitGlobal)
    case SeeGlobal(id) =>
      WithGlobal(q, id, S.Observe(q.global, id), if q.attempts[id].phase.WaitGlobal? then GotGlobal else DropGlobal)
    case CancelGlobal(id) =>
      if id in q.global.waiters then WithGlobal(q, id, S.Cancel(q.global, id), DropParent)
      else WithGlobal(q, id, q.global, PassGlobal)
    case CheckClosed(id) => WithGlobal(q, id, q.global, if q.closed then DropGlobal else Holding)
    case GiveBackGlobal(id) => WithGlobal(q, id, S.Release(q.global, id), DropParent)
    case GiveBackParent(id) => WithParent(q, id, S.Release(ParentSem(q, id), id), Gone)
    case ReleaseParent(id) => WithParent(q, id, S.Release(ParentSem(q, id), id), ReleasedParent)
    case ReleaseGlobal(id) => WithGlobal(q, id, S.Release(q.global, id), Gone)
    case Close => q.(closed := true)
  }

  predicate Run(q: Quota, steps: seq<Step>, t: Quota)
    decreases |steps|
  {
    if steps == [] then q == t else Enabled(q, steps[0]) && Run(Next(q, steps[0]), steps[1..], t)
  }

  // ---------------------------------------------------------------------------
  // The invariant: each attempt has exactly the units its phase says
  // ---------------------------------------------------------------------------

  predicate HoldsParent(phase: Phase) {
    phase.HasParent? || phase.WaitGlobal? || phase.PassGlobal? || phase.GotGlobal? || phase.Holding? || phase.DropGlobal? || phase.DropParent?
  }

  predicate HoldsGlobal(phase: Phase) { phase.GotGlobal? || phase.Holding? || phase.ReleasedParent? || phase.DropGlobal? }

  predicate QueuesParent(phase: Phase) { phase.WaitParent? || phase.PassParent? }

  predicate QueuesGlobal(phase: Phase) { phase.WaitGlobal? || phase.PassGlobal? }

  predicate BeforeGlobal(phase: Phase) { phase.WaitParent? || phase.PassParent? || phase.HasParent? }

  /** What one semaphore knows about one request. */
  predicate Fits(s: Sem, id: nat, holds: bool, queues: bool, granted: bool, unseen: bool) {
    && (id in s.held <==> holds)
    && (id in s.waiters || id in s.granted <==> queues)
    && (granted ==> id in s.granted)
    && (unseen ==> id !in s.arrived)
  }

  predicate FitsParent(s: Sem, id: nat, a: Attempt, parent: nat) {
    if parent == a.parent then Fits(s, id, HoldsParent(a.phase), QueuesParent(a.phase), a.phase.PassParent?, false)
    else Fits(s, id, false, false, false, true)
  }

  predicate FitsGlobal(s: Sem, id: nat, a: Attempt) {
    Fits(s, id, HoldsGlobal(a.phase), QueuesGlobal(a.phase), a.phase.PassGlobal?, BeforeGlobal(a.phase))
  }

  ghost predicate AttemptOk(q: Quota, id: nat) {
    if id in q.attempts then
      && q.attempts[id].parent in q.parents
      && FitsGlobal(q.global, id, q.attempts[id])
      && forall p | p in q.parents :: FitsParent(q.parents[p], id, q.attempts[id], p)
    else
      && S.Unknown(q.global, id)
      && forall p | p in q.parents :: S.Unknown(q.parents[p], id)
  }

  ghost predicate SemsOk(q: Quota) {
    && S.Inv(q.global) && q.perParent >= 0
    && forall p | p in q.parents :: S.Inv(q.parents[p]) && q.parents[p].limit == q.perParent
  }

  ghost predicate Inv(q: Quota) { SemsOk(q) && forall id: nat :: AttemptOk(q, id) }

  /** A semaphore step of one request leaves every other request with what it has. */
  ghost predicate SameFor(s: Sem, t: Sem, id: nat) {
    && (id in t.held <==> id in s.held)
    && (id in t.waiters || id in t.granted <==> id in s.waiters || id in s.granted)
    && (id in s.granted ==> id in t.granted)
    && (id in t.arrived <==> id in s.arrived)
  }

  ghost predicate OnlyMoves(s: Sem, t: Sem, id: nat) {
    S.Inv(t) && t.limit == s.limit && forall other: nat | other != id :: SameFor(s, t, other)
  }

  lemma ReturnKeepsOthers(s: Sem, id: nat, other: nat)
    requires other != id
    ensures SameFor(s, S.Release(s, id), other)
  {
    if s.waiters != [] {
      assert s.waiters == [s.waiters[0]] + s.waiters[1..];
    }
  }

  lemma OthersKeep(s: Sem, step: S.Step, other: nat)
    requires S.Enabled(s, step) && other != step.id
    ensures SameFor(s, S.Next(s, step), other)
  {
    hide S.Release;
    match step {
      case Return(id) => ReturnKeepsOthers(s, id, other);
      case _ =>
    }
  }

  lemma SemaphoreStep(s: Sem, step: S.Step)
    requires S.Inv(s) && S.Enabled(s, step)
    ensures OnlyMoves(s, S.Next(s, step), step.id)
  {
    hide S.Inv, SameFor;
    S.StepKeepsInv(s, step);
    forall other: nat | other != step.id
      ensures SameFor(s, S.Next(s, step), other)
    {
      OthersKeep(s, step, other);
    }
  }

  lemma ParentMove(q: Quota, id: nat, t: Sem, phase: Phase)
    requires Inv(q) && id in q.attempts && q.attempts[id].parent in q.parents
    requires OnlyMoves(ParentSem(q, id), t, id)
    requires Fits(t, id, HoldsParent(phase), QueuesParent(phase), phase.PassParent?, false)
    requires FitsGlobal(q.global, id, q.attempts[id].(phase := phase))
    ensures Inv(WithParent(q, id, t, phase))
  {
    hide S.Inv;
    var u := WithParent(q, id, t, phase);
    forall other: nat
      ensures AttemptOk(u, other)
    {
      assert AttemptOk(q, other);
      assert other != id ==> SameFor(ParentSem(q, id), t, other);
    }
  }

  lemma GlobalMove(q: Quota, id: nat, t: Sem, phase: Phase)
    requires Inv(q) && id in q.attempts && q.attempts[id].parent in q.parents
    requires OnlyMoves(q.global, t, id)
    requires FitsGlobal(t, id, q.attempts[id].(phase := phase))
    requires FitsParent(ParentSem(q, id), id, q.attempts[id].(phase := phase), q.attempts[id].parent)
    ensures Inv(WithGlobal(q, id, t, phase))
  {
    hide S.Inv;
    var u := WithGlobal(q, id, t, phase);
    forall other: nat
      ensures AttemptOk(u, other)
    {
      assert AttemptOk(q, other);
      assert other != id ==> SameFor(q.global, t, other);
    }
  }

  lemma NothingMoves(s: Sem, id: nat)
    requires S.Inv(s)
    ensures OnlyMoves(s, s, id)
  {
  }

  lemma StartedOk(q: Quota, id: nat, parent: nat)
    requires Inv(q) && id !in q.attempts && parent in q.parents
    ensures Inv(Started(q, id, parent)) && S.Unknown(q.parents[parent], id) && S.Unknown(q.global, id)
  {
    hide S.Inv;
    var u := Started(q, id, parent);
    assert AttemptOk(q, id);
    forall other: nat
      ensures AttemptOk(u, other)
    {
      assert AttemptOk(q, other);
    }
  }

  lemma BeginKeepsInv(q: Quota, step: Step)
    requires Inv(q) && Enabled(q, step) && (step.Try? || step.Ask?)
    ensures Inv(Next(q, step))
  {
    hide Inv, WithParent, Started;
    BeginWith(q, step.id, step.parent, if step.Try? then S.Try(step.id) else S.Ask(step.id));
  }

  lemma BeginWith(q: Quota, id: nat, parent: nat, step: S.Step)
    requires Inv(q) && id !in q.attempts && parent in q.parents && (step == S.Try(id) || step == S.Ask(id))
    ensures var s := if step.Try? then S.TryAcquire(q.parents[parent], id) else S.Acquire(q.parents[parent], id);
            var phase := if id in s.held then HasParent(step.Ask?) else if step.Try? then Gone else WaitParent;
            Inv(WithParent(Started(q, id, parent), id, s, phase))
  {
    hide S.Inv, OnlyMoves, Inv, SemsOk;
    StartedOk(q, id, parent);
    InvParts(q, parent);
    SemaphoreStep(q.parents[parent], step);
    var s := if step.Try? then S.TryAcquire(q.parents[parent], id) else S.Acquire(q.parents[parent], id);
    ParentMove(Started(q, id, parent), id, s, if id in s.held then HasParent(step.Ask?) else if step.Try? then Gone else WaitParent);
  }

  lemma InvParts(q: Quota, parent: nat)
    requires Inv(q) && parent in q.parents
    ensures S.Inv(q.parents[parent]) && S.Inv(q.global)
  {
  }

  lemma AttemptParts(q: Quota, id: nat)
    requires Inv(q) && id in q.attempts && q.attempts[id].parent in q.parents
    ensures FitsGlobal(q.global, id, q.attempts[id])
    ensures FitsParent(ParentSem(q, id), id, q.attempts[id], q.attempts[id].parent)
    ensures S.Inv(ParentSem(q, id)) && S.Inv(q.global)
  {
    assert AttemptOk(q, id);
  }

  lemma SeeParentKeepsInv(q: Quota, id: nat)
    requires Inv(q) && Enabled(q, SeeParent(id))
    ensures Inv(Next(q, SeeParent(id)))
  {
    AttemptParts(q, id);
    hide S.Inv, OnlyMoves, Inv;
    SemaphoreStep(ParentSem(q, id), S.See(id));
    SeenFits(ParentSem(q, id), id);
    ParentMove(q, id, ParentSem(Next(q, SeeParent(id)), id), Next(q, SeeParent(id)).attempts[id].phase);
  }

  lemma SeenFits(s: Sem, id: nat)
    requires S.Inv(s) && id in s.granted
    ensures Fits(S.Observe(s, id), id, true, false, false, false)
  {
  }

  lemma ReleasedFits(s: Sem, id: nat)
    requires S.Inv(s) && id in s.held
    ensures Fits(S.Release(s, id), id, false, false, false, false)
  {
  }

  lemma CancelParentKeepsInv(q: Quota, id: nat)
    requires Inv(q) && Enabled(q, CancelParent(id))
    ensures Inv(Next(q, CancelParent(id)))
  {
    AttemptParts(q, id);
    hide S.Inv, OnlyMoves, Inv;
    var s := ParentSem(q, id);
    if id in s.waiters {
      SemaphoreStep(s, S.GiveUp(id));
      WaiterNotGranted(s, id);
    } else {
      NothingMoves(s, id);
    }
    ParentMove(q, id, ParentSem(Next(q, CancelParent(id)), id), Next(q, CancelParent(id)).attempts[id].phase);
  }

  lemma WaiterNotGranted(s: Sem, id: nat)
    requires S.Inv(s) && id in s.waiters
    ensures id !in s.granted && id !in s.held
  {
  }

  lemma ReturnParentKeepsInv(q: Quota, step: Step)
    requires Inv(q) && Enabled(q, step) && (step.GiveBackParent? || step.ReleaseParent?)
    ensures Inv(Next(q, step))
  {
    hide Inv, In, WithParent;
    match step {
      case GiveBackParent(id) => ParentReturned(q, id, DropParent, Gone);
      case ReleaseParent(id) => ParentReturned(q, id, Holding, ReleasedParent);
    }
  }

  lemma ParentReturned(q: Quota, id: nat, before: Phase, after: Phase)
    requires Inv(q) && In(q, id, before)
    requires (before.DropParent? && after.Gone?) || (before.Holding? && after.ReleasedParent?)
    ensures Inv(WithParent(q, id, S.Release(ParentSem(q, id), id), after))
  {
    AttemptParts(q, id);
    hide S.Inv, OnlyMoves, Inv;
    SemaphoreStep(ParentSem(q, id), S.Return(id));
    ReleasedFits(ParentSem(q, id), id);
    ParentMove(q, id, S.Release(ParentSem(q, id), id), after);
  }

  lemma GlobalAskKeepsInv(q: Quota, step: Step)
    requires Inv(q) && Enabled(q, step) && (step.TryGlobal? || step.AskGlobal?)
    ensures Inv(Next(q, step))
  {
    var id := step.id;
    hide Inv, In;
    if step.TryGlobal? {
      TryGlobalKeepsInv(q, id);
    } else {
      AskGlobalKeepsInv(q, id);
    }
  }

  lemma TryGlobalKeepsInv(q: Quota, id: nat)
    requires Inv(q) && In(q, id, HasParent(false))
    ensures Inv(Next(q, TryGlobal(id)))
  {
    AttemptParts(q, id);
    hide S.Inv, OnlyMoves, Inv;
    var t := Next(q, TryGlobal(id));
    if q.closed {
      NothingMoves(q.global, id);
    } else {
      SemaphoreStep(q.global, S.Try(id));
    }
    GlobalMove(q, id, t.global, t.attempts[id].phase);
  }

  lemma AskGlobalKeepsInv(q: Quota, id: nat)
    requires Inv(q) && In(q, id, HasParent(true))
    ensures Inv(Next(q, AskGlobal(id)))
  {
    AttemptParts(q, id);
    hide S.Inv, OnlyMoves, Inv;
    var t := Next(q, AskGlobal(id));
    SemaphoreStep(q.global, S.Ask(id));
    GlobalMove(q, id, t.global, t.attempts[id].phase);
  }

  lemma SeeGlobalKeepsInv(q: Quota, id: nat)
    requires Inv(q) && Enabled(q, SeeGlobal(id))
    ensures Inv(Next(q, SeeGlobal(id)))
  {
    AttemptParts(q, id);
    hide S.Inv, OnlyMoves, Inv;
    SemaphoreStep(q.global, S.See(id));
    SeenFits(q.global, id);
    GlobalMove(q, id, Next(q, SeeGlobal(id)).global, Next(q, SeeGlobal(id)).attempts[id].phase);
  }

  lemma CancelGlobalKeepsInv(q: Quota, id: nat)
    requires Inv(q) && Enabled(q, CancelGlobal(id))
    ensures Inv(Next(q, CancelGlobal(id)))
  {
    AttemptParts(q, id);
    hide S.Inv, OnlyMoves, Inv;
    if id in q.global.waiters {
      SemaphoreStep(q.global, S.GiveUp(id));
      WaiterNotGranted(q.global, id);
    } else {
      NothingMoves(q.global, id);
    }
    GlobalMove(q, id, Next(q, CancelGlobal(id)).global, Next(q, CancelGlobal(id)).attempts[id].phase);
  }

  lemma GlobalEndKeepsInv(q: Quota, step: Step)
    requires Inv(q) && Enabled(q, step) && (step.CheckClosed? || step.GiveBackGlobal? || step.ReleaseGlobal?)
    ensures Inv(Next(q, step))
  {
    hide Inv, In, WithGlobal;
    match step {
      case CheckClosed(id) => CheckClosedKeepsInv(q, id);
      case GiveBackGlobal(id) => ReturnGlobalKeepsInv(q, id, DropGlobal, DropParent);
      case ReleaseGlobal(id) => ReturnGlobalKeepsInv(q, id, ReleasedParent, Gone);
    }
  }

  lemma CheckClosedKeepsInv(q: Quota, id: nat)
    requires Inv(q) && In(q, id, GotGlobal)
    ensures Inv(WithGlobal(q, id, q.global, if q.closed then DropGlobal else Holding))
  {
    AttemptParts(q, id);
    hide S.Inv, OnlyMoves, Inv;
    NothingMoves(q.global, id);
    GlobalMove(q, id, q.global, if q.closed then DropGlobal else Holding);
  }

  lemma ReturnGlobalKeepsInv(q: Quota, id: nat, before: Phase, after: Phase)
    requires Inv(q) && In(q, id, before)
    requires (before.DropGlobal? && after.DropParent?) || (before.ReleasedParent? && after.Gone?)
    ensures Inv(WithGlobal(q, id, S.Release(q.global, id), after))
  {
    AttemptParts(q, id);
    hide S.Inv, OnlyMoves, Inv;
    SemaphoreStep(q.global, S.Return(id));
    ReleasedFits(q.global, id);
    GlobalMove(q, id, S.Release(q.global, id), after);
  }

  lemma AddParentKeepsInv(q: Quota, parent: nat)
    requires Inv(q) && Enabled(q, AddParent(parent))
    ensures Inv(Next(q, AddParent(parent)))
  {
    hide S.Inv;
    S.NewOk(q.perParent);
    forall id: nat
      ensures AttemptOk(Next(q, AddParent(parent)), id)
    {
      assert AttemptOk(q, id);
    }
  }

  lemma CloseKeepsInv(q: Quota)
    requires Inv(q)
    ensures Inv(q.(closed := true))
  {
    hide S.Inv;
    forall id: nat
      ensures AttemptOk(q.(closed := true), id)
    {
      assert AttemptOk(q, id);
    }
  }

  lemma StepKeepsInv(q: Quota, step: Step)
    requires Inv(q) && Enabled(q, step)
    ensures Inv(Next(q, step))
  {
    hide Inv;
    match step {
      case AddParent(p) => AddParentKeepsInv(q, p);
      case Close => CloseKeepsInv(q);
      case Try(_, _) => BeginKeepsInv(q, step);
      case Ask(_, _) => BeginKeepsInv(q, step);
      case SeeParent(id) => SeeParentKeepsInv(q, id);
      case CancelParent(id) => CancelParentKeepsInv(q, id);
      case GiveBackParent(_) => ReturnParentKeepsInv(q, step);
      case ReleaseParent(_) => ReturnParentKeepsInv(q, step);
      case TryGlobal(_) => GlobalAskKeepsInv(q, step);
      case AskGlobal(_) => GlobalAskKeepsInv(q, step);
      case SeeGlobal(id) => SeeGlobalKeepsInv(q, id);
      case CancelGlobal(id) => CancelGlobalKeepsInv(q, id);
      case _ => GlobalEndKeepsInv(q, step);
    }
  }

  lemma {:induction false} RunKeepsInv(q: Quota, steps: seq<Step>, t: Quota)
    requires Inv(q) && Run(q, steps, t)
    ensures Inv(t) && t.perParent == q.perParent && t.global.limit == q.global.limit
    decreases |steps|
  {
    hide Inv, Enabled;
    if steps != [] {
      StepKeepsInv(q, steps[0]);
      RunKeepsInv(Next(q, steps[0]), steps[1..], t);
    }
  }

  // ---------------------------------------------------------------------------
  // What follows in every run
  // ---------------------------------------------------------------------------

  /** The attempts that have the pair, so that their turns may run. */
  function Holders(q: Quota): set<nat> { set id | id in q.attempts && q.attempts[id].phase.Holding? }

  function HoldersOf(q: Quota, parent: nat): set<nat> { set id | id in Holders(q) && q.attempts[id].parent == parent }

  lemma SubsetSize(s: set<nat>, t: set<nat>)
    requires s <= t
    ensures |s| <= |t|
  {
    assert t == s + (t - s);
  }

  lemma HeldAtMostLimit(s: Sem, ids: set<nat>)
    requires S.Inv(s) && ids <= s.held
    ensures |ids| <= s.limit
  {
    SubsetSize(ids, s.held);
  }

  lemma HoldersWithinLimits(q: Quota)
    requires Inv(q)
    ensures |Holders(q)| <= q.global.limit
    ensures forall p | p in q.parents :: |HoldersOf(q, p)| <= q.perParent
  {
    hide S.Inv;
    assert forall id | id in Holders(q) :: AttemptOk(q, id);
    HeldAtMostLimit(q.global, Holders(q));
    forall p | p in q.parents
      ensures |HoldersOf(q, p)| <= q.perParent
    {
      HeldAtMostLimit(q.parents[p], HoldersOf(q, p));
    }
  }

  lemma NewOk(perParent: int, limit: int)
    requires perParent >= 0 && limit >= 0
    ensures Inv(New(perParent, limit))
  {
  }

  /** In every run, no parent has more running child turns than its limit, and all parents together no more than the global one. */
  lemma LimitsHold(perParent: int, limit: int, steps: seq<Step>, q: Quota)
    requires perParent >= 0 && limit >= 0 && Run(New(perParent, limit), steps, q)
    ensures |Holders(q)| <= limit
    ensures forall p | p in q.parents :: |HoldersOf(q, p)| <= perParent
  {
    hide Inv;
    NewOk(perParent, limit);
    RunKeepsInv(New(perParent, limit), steps, q);
    HoldersWithinLimits(q);
  }

  lemma Nonempty(ids: seq<nat>)
    ensures ids == [] || exists id :: id in ids
  {
    assert ids != [] ==> ids[0] in ids;
  }

  lemma NoUnits(s: Sem)
    requires S.Inv(s) && forall id: nat :: Fits(s, id, false, false, false, false)
    ensures s.used == 0 && s.waiters == []
  {
    forall id: nat
      ensures id !in s.held && id !in s.waiters && id !in s.granted
    {
      assert Fits(s, id, false, false, false, false);
    }
    assert s.held == {} && s.granted == {};
    Nonempty(s.waiters);
  }

  /** When every attempt is over, whichever way, every unit of every semaphore is back: none was lost or returned twice. */
  lemma NothingLeaks(perParent: int, limit: int, steps: seq<Step>, q: Quota)
    requires perParent >= 0 && limit >= 0 && Run(New(perParent, limit), steps, q)
    requires forall id | id in q.attempts :: q.attempts[id].phase.Gone?
    ensures q.global.used == 0 && q.global.waiters == []
    ensures forall p | p in q.parents :: q.parents[p].used == 0 && q.parents[p].waiters == []
  {
    NewOk(perParent, limit);
    RunKeepsInv(New(perParent, limit), steps, q);
    AllUnitsBack(q);
  }

  lemma AllUnitsBack(q: Quota)
    requires Inv(q) && forall id | id in q.attempts :: q.attempts[id].phase.Gone?
    ensures q.global.used == 0 && q.global.waiters == []
    ensures forall p | p in q.parents :: q.parents[p].used == 0 && q.parents[p].waiters == []
  {
    hide S.Inv;
    AllGone(q);
    NoUnits(q.global);
    forall p | p in q.parents
      ensures q.parents[p].used == 0 && q.parents[p].waiters == []
    {
      NoUnits(q.parents[p]);
    }
  }

  lemma AllGone(q: Quota)
    requires Inv(q) && forall id | id in q.attempts :: q.attempts[id].phase.Gone?
    ensures forall id: nat :: Fits(q.global, id, false, false, false, false)
    ensures forall p, id: nat | p in q.parents :: Fits(q.parents[p], id, false, false, false, false)
  {
    hide S.Inv;
    forall id: nat
      ensures Fits(q.global, id, false, false, false, false)
    {
      assert AttemptOk(q, id);
    }
    forall p, id: nat | p in q.parents
      ensures Fits(q.parents[p], id, false, false, false, false)
    {
      assert AttemptOk(q, id);
      assert id in q.attempts ==> FitsParent(q.parents[p], id, q.attempts[id], p);
    }
  }

  /** Once the user session is closed, no further child turn gets a quota. */
  lemma {:induction false} NoneAfterClose(q: Quota, steps: seq<Step>, t: Quota)
    requires q.closed && Run(q, steps, t)
    ensures t.closed && Holders(t) <= Holders(q)
    decreases |steps|
  {
    if steps != [] {
      var next := Next(q, steps[0]);
      assert Holders(next) <= Holders(q);
      NoneAfterClose(next, steps[1..], t);
    }
  }

  // ---------------------------------------------------------------------------
  // What one attempt does by itself
  // ---------------------------------------------------------------------------

  lemma StepThenRun(q: Quota, step: Step, steps: seq<Step>, t: Quota)
    requires Enabled(q, step) && Run(Next(q, step), steps, t)
    ensures Run(q, [step] + steps, t)
  {
    hide Enabled, Next;
    assert ([step] + steps)[0] == step && ([step] + steps)[1..] == steps;
  }

  lemma NoRun(q: Quota)
    ensures Run(q, [], q)
  {
  }

  /** A semaphore with a free unit and no queue. */
  predicate HasRoom(s: Sem) { s.used < s.limit && s.waiters == [] }

  lemma TriedParent(q: Quota, id: nat, p: nat)
    requires Inv(q) && id !in q.attempts && p in q.parents
    ensures var s, t := q.parents[p], Next(q, Try(id, p));
            && t.attempts == q.attempts[id := Attempt(p, if HasRoom(s) then HasParent(false) else Gone)]
            && t.parents == q.parents[p := if HasRoom(s) then s.(used := s.used + 1, held := s.held + {id}) else s]
            && t.global == q.global && t.closed == q.closed && id !in s.held && id !in q.global.held && q.global.used <= q.global.limit
  {
    InvParts(q, p);
    assert AttemptOk(q, id);
  }

  lemma TriedGlobal(q: Quota, id: nat)
    requires In(q, id, HasParent(false)) && q.global.used <= q.global.limit && id !in q.global.held
    ensures var s, t := q.global, Next(q, TryGlobal(id));
            && t.parents == q.parents && t.closed == q.closed
            && t.attempts == q.attempts[id := q.attempts[id].(phase := if HasRoom(s) && !q.closed then Holding else DropParent)]
            && t.global == if HasRoom(s) && !q.closed then s.(used := s.used + 1, held := s.held + {id}) else s
  {
  }

  lemma GaveBack(q: Quota, id: nat, p: nat)
    requires In(q, id, DropParent) && q.attempts[id].parent == p && q.parents[p].waiters == []
    ensures var s, t := q.parents[p], Next(q, GiveBackParent(id));
            && t.global == q.global && t.attempts == q.attempts[id := Attempt(p, Gone)]
            && t.parents == q.parents[p := s.(used := s.used - 1, held := s.held - {id})]
  {
  }

  /**
   * A non-blocking attempt that nothing comes between gets its pair exactly if both semaphores have room and the user
   * session is open; a refused one leaves both as they were.
   */
  lemma TryAlone(q: Quota, id: nat, p: nat) returns (steps: seq<Step>, t: Quota)
    requires Inv(q) && id !in q.attempts && p in q.parents
    ensures Run(q, steps, t) && id in t.attempts
    ensures HasRoom(q.parents[p]) && HasRoom(q.global) && !q.closed ==>
              && t.attempts[id].phase.Holding? && t.global.used == q.global.used + 1
              && t.parents == q.parents[p := q.parents[p].(used := q.parents[p].used + 1, held := q.parents[p].held + {id})]
    ensures !(HasRoom(q.parents[p]) && HasRoom(q.global) && !q.closed) ==>
              t.attempts[id].phase.Gone? && t.parents == q.parents && t.global == q.global
  {
    hide Run, Inv, Next, In;
    TriedParent(q, id, p);
    var a := Next(q, Try(id, p));
    NoRun(a);
    if !HasRoom(q.parents[p]) {
      steps, t := [Try(id, p)] + [], a;
      StepThenRun(q, Try(id, p), [], a);
    } else {
      InPhase(a, id);
      TriedGlobal(a, id);
      var b := Next(a, TryGlobal(id));
      NoRun(b);
      if HasRoom(q.global) && !q.closed {
        steps, t := [Try(id, p)] + ([TryGlobal(id)] + []), b;
        StepThenRun(a, TryGlobal(id), [], b);
      } else {
        InPhase(b, id);
        GaveBack(b, id, p);
        var c := Next(b, GiveBackParent(id));
        NoRun(c);
        assert q.parents[p].held + {id} - {id} == q.parents[p].held;
        steps, t := [Try(id, p)] + ([TryGlobal(id)] + ([GiveBackParent(id)] + [])), c;
        StepThenRun(b, GiveBackParent(id), [], c);
        StepThenRun(a, TryGlobal(id), [GiveBackParent(id)] + [], c);
      }
      StepThenRun(q, Try(id, p), steps[1..], t);
    }
  }

  lemma InPhase(q: Quota, id: nat)
    requires id in q.attempts && q.attempts[id].parent in q.parents
    ensures In(q, id, q.attempts[id].phase)
  {
  }
}
