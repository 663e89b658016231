/**
 * The turn coordinator of one agent session. A session has at most one active turn; admissions, wakes,
 * interrupts, shutdown and removal arrive at any time. A step is one critical section of the session's lock,
 * or one call out of it whose outcome is open.
 */
module Turns {
  datatype Option<T> = None | Some(value: T)

  datatype Status = Blocked | Running | Interrupting | Succeeded | Failed | Canceled

  predicate Active(status: Status) { status.Blocked? || status.Running? || status.Interrupting? }

  datatype Error = Nil | ContextCanceled | Other

  /** Where a turn's goroutine stands. */
  datatype Place =
    | Created
    | Waiting | Acquired(permit: nat)
    | Ready | Preparing | BeforeDrain | Draining | AfterDrain(err: Error) | Exiting(err: Error)
    | Finishing(err: Error) | Publishing(final: Status) | Completing(final: Status) | Completed
    | Restarting(call: nat)
    | Over

  /** How a turn ended: aborted before it ran, or finished with an error or none, interrupted or not. */
  datatype Ending = NotYet | Aborted | Ran(failure: Error, interrupted: bool)

  /**
   * A turn: its status, whether its context is canceled, its wake flag and its quota. The rest is history: whether
   * it may still be aborted, how often it completed, whether a wake was recorded that no drain pass has followed,
   * the turn that took over from it, whether a restart was refused because the user session was closed, and how it ended.
   */
  datatype Turn = Turn(
    status: Status, canceled: bool, wake: bool, quota: Option<nat>, at: Place,
    abortable: bool, completions: nat, owed: bool, heir: Option<nat>, closed: bool, ending: Ending)

  datatype Reason = WasRemoved | WasShutDown | NotAdmitted | QuotaBusy | QuotaClosed

  datatype Result = Joined(turn: nat) | Began(turn: nat) | Refused(reason: Reason)

  datatype Kind = Empty(wake: bool) | Admit(wait: bool, start: bool)

  datatype CallPlace =
    | Checking
    | Awaiting(turn: nat)
    | Trying
    | Got(release: Option<nat>, blocked: bool)
    | Dropping(release: Option<nat>, outcome: Option<Result>)
    | Ended(result: Result)

  /** A goroutine inside startEmptyTurn or admitAndStart; `origin` is the finished turn that wants a replacement. */
  datatype Call = Call(kind: Kind, at: CallPlace, origin: Option<nat>)

  /** Who has a quota that is not released yet. */
  datatype Owner = OfTurn(turn: nat) | OfWaiter(turn: nat) | OfCall(call: nat)

  /**
   * `child` sessions need a quota; `creating` counts the creations of children that are under way. `owners` and `seen` are
   * history: the quotas out, and all there ever were.
   */
  datatype Session = Session(
    child: bool, removed: bool, shuttingDown: bool, turn: Option<nat>, turns: seq<Turn>, calls: map<nat, Call>,
    creating: nat, owners: map<nat, Owner>, seen: set<nat>)

  function New(child: bool): Session { Session(child, false, false, None, [], map[], 0, map[], {}) }

  datatype Outcome = Unit(permit: nat) | Busy | Closed

  datatype Step =
    | Begin(call: nat, kind: Kind)
    | Check(call: nat, created: bool)
    | Await(call: nat, expired: bool)
    | TryQuota(call: nat, outcome: Outcome)
    | Commit(call: nat, created: bool)
    | Drop(call: nat)
    | Start(turn: nat)
    | Abort(turn: nat)
    | AcquireQuota(turn: nat, outcome: Outcome)
    | Unblock(turn: nat)
    | Enter(turn: nat)
    | Prepare(turn: nat, err: Error)
    | BeginDrain(turn: nat)
    | EndDrain(turn: nat, err: Error)
    | Continue(turn: nat)
    | CheckWake(turn: nat)
    | Conclude(turn: nat, err: Error)
    | Finish(turn: nat)
    | Settle(turn: nat)
    | Complete(turn: nat)
    | Restart(turn: nat, call: nat)
    | Interrupt
    | Shutdown
    | Remove(removable: bool)
    | ReserveCreation
    | ReleaseCreation

  // ---------------------------------------------------------------------------
  // Steps
  // ---------------------------------------------------------------------------

  predicate HasActive(s: Session) { s.turn.Some? && s.turn.value < |s.turns| && Active(s.turns[s.turn.value].status) }

  function SetTurn(s: Session, n: nat, t: Turn): Session
    requires n < |s.turns|
  {
    s.(turns := s.turns[n := t])
  }

  function MoveTurn(s: Session, n: nat, at: Place): Session
    requires n < |s.turns|
  {
    SetTurn(s, n, s.turns[n].(at := at))
  }

  function MoveCall(s: Session, k: nat, at: CallPlace): Session
    requires k in s.calls
  {
    s.(calls := s.calls[k := s.calls[k].(at := at)])
  }

  /** A call returns; the finished turn that made it is then over, with the turn it got as its heir. */
  function EndCall(s: Session, k: nat, result: Result): Session
    requires k in s.calls
  {
    var t := MoveCall(s, k, Ended(result));
    if s.calls[k].origin.None? || s.calls[k].origin.value >= |s.turns| then t
    else
      var n := s.calls[k].origin.value;
      var heir := if result.Refused? then None else Some(result.turn);
      SetTurn(t, n, s.turns[n].(at := Over, heir := heir, closed := result == Refused(QuotaClosed)))
  }

  function Woken(t: Turn): Turn { t.(wake := true, owed := true) }

  function WithoutOwner(owners: map<nat, Owner>, release: Option<nat>): map<nat, Owner> {
    if release.Some? then owners - {release.value} else owners
  }

  function NewTurn(release: Option<nat>, blocked: bool, abortable: bool): Turn {
    Turn(if blocked then Blocked else Running, false, false, release, Created, abortable, 0, false, None, false, NotYet)
  }

  /** A new turn takes over the call's quota. */
  function AddTurn(s: Session, k: nat, release: Option<nat>, blocked: bool, abortable: bool): Session
    requires k in s.calls
  {
    var n := |s.turns|;
    var owners := if release.Some? then s.owners[release.value := OfTurn(n)] else s.owners;
    EndCall(s.(turn := Some(n), turns := s.turns + [NewTurn(release, blocked, abortable)], owners := owners), k, Began(n))
  }

  function DropQuota(s: Session, k: nat, release: Option<nat>, outcome: Option<Result>): Session
    requires k in s.calls
  {
    MoveCall(s, k, Dropping(release, outcome))
  }

  function NextCheck(s: Session, k: nat, created: bool): Session
    requires k in s.calls
  {
    if s.removed then EndCall(s, k, Refused(WasRemoved))
    else if s.shuttingDown then EndCall(s, k, Refused(WasShutDown))
    else if !HasActive(s) then MoveCall(s, k, Trying)
    else
      var n := s.turn.value;
      var t := s.turns[n];
      match s.calls[k].kind
      case Empty(wake) => EndCall(if wake then SetTurn(s, n, Woken(t)) else s, k, Joined(n))
      case Admit(_, _) =>
        if t.status.Blocked? || t.status.Interrupting? then MoveCall(s, k, Awaiting(n))
        else EndCall(if created then SetTurn(s, n, Woken(t)) else s, k, Joined(n))
  }

  function NextTry(s: Session, k: nat, outcome: Outcome): Session
    requires k in s.calls
  {
    if !s.child then MoveCall(s, k, Got(None, false))
    else
      match outcome
      case Unit(c) => MoveCall(s.(owners := s.owners[c := OfCall(k)], seen := s.seen + {c}), k, Got(Some(c), false))
      case Busy => if s.calls[k].kind.Admit? && !s.calls[k].kind.wait then EndCall(s, k, Refused(QuotaBusy)) else MoveCall(s, k, Got(None, true))
      case Closed => EndCall(s, k, Refused(QuotaClosed))
  }

  function NextCommit(s: Session, k: nat, release: Option<nat>, blocked: bool, created: bool): Session
    requires k in s.calls
  {
    match s.calls[k].kind
    case Empty(_) =>
      if s.removed || s.shuttingDown || HasActive(s) then DropQuota(s, k, release, None)
      else AddTurn(s, k, release, blocked, false)
    case Admit(_, start) =>
      if HasActive(s) then DropQuota(s, k, release, None)
      else if s.removed then DropQuota(s, k, release, Some(Refused(WasRemoved)))
      else if s.shuttingDown then DropQuota(s, k, release, Some(Refused(WasShutDown)))
      else if !created then DropQuota(s, k, release, Some(Refused(NotAdmitted)))
      else AddTurn(s, k, release, blocked, !start)
  }

  function NextDrop(s: Session, k: nat, release: Option<nat>, outcome: Option<Result>): Session
    requires k in s.calls
  {
    var t := s.(owners := WithoutOwner(s.owners, release));
    if outcome.None? then MoveCall(t, k, Checking) else EndCall(t, k, outcome.value)
  }

  function NextAbort(s: Session, n: nat): Session
    requires n < |s.turns|
  {
    var t := s.turns[n];
    SetTurn(s, n, t.(status := Canceled, canceled := true, quota := None, at := Over, completions := t.completions + 1, ending := Aborted))
    .(turn := if s.turn == Some(n) then None else s.turn, owners := WithoutOwner(s.owners, t.quota))
  }

  function NextAcquire(s: Session, n: nat, outcome: Outcome): Session
    requires n < |s.turns|
  {
    match outcome
    case Unit(c) => MoveTurn(s.(owners := s.owners[c := OfWaiter(n)], seen := s.seen + {c}), n, Acquired(c))
    case Busy => MoveTurn(s, n, Finishing(ContextCanceled))
    case Closed => MoveTurn(s, n, Finishing(Other))
  }

  /** The turn gets its quota, if it is still wanted. */
  function Unblocked(t: Turn, c: nat, wanted: bool): Turn {
    if wanted then t.(quota := Some(c), status := Running, at := Ready) else t.(at := Finishing(ContextCanceled))
  }

  function NextUnblock(s: Session, n: nat, c: nat): Session
    requires n < |s.turns|
  {
    var wanted := !s.turns[n].canceled && s.turn == Some(n);
    SetTurn(s, n, Unblocked(s.turns[n], c, wanted)).(owners := if wanted then s.owners[c := OfTurn(n)] else s.owners - {c})
  }

  function NextFinish(s: Session, n: nat, err: Error): Session
    requires n < |s.turns|
  {
    var t := s.turns[n];
    var final :=
      if t.status.Interrupting? && err.ContextCanceled? then Canceled else if err.Nil? then Succeeded else Failed;
    SetTurn(s, n, t.(canceled := true, status := Interrupting, quota := None, at := Publishing(final), ending := Ran(err, t.status.Interrupting?)))
    .(owners := WithoutOwner(s.owners, t.quota))
  }

  function NextRestart(s: Session, n: nat, k: nat): Session
    requires n < |s.turns|
  {
    if s.turns[n].wake && !s.shuttingDown && !s.removed then
      MoveTurn(s, n, Restarting(k)).(calls := s.calls[k := Call(Empty(false), Checking, Some(n))])
    else MoveTurn(s, n, Over)
  }

  /** An interrupt cancels an active turn and takes back its wake. */
  function Interrupted(t: Turn): Turn { t.(status := Interrupting, wake := false, owed := false, canceled := true) }

  function InterruptActive(s: Session): Session {
    if HasActive(s) then SetTurn(s, s.turn.value, Interrupted(s.turns[s.turn.value])) else s
  }

  predicate CallAt(s: Session, k: nat, at: CallPlace) { k in s.calls && s.calls[k].at == at }

  predicate TurnAt(s: Session, n: nat, at: Place) { n < |s.turns| && s.turns[n].at == at }

  predicate NewUnit(s: Session, outcome: Outcome) { outcome.Unit? ==> outcome.permit !in s.seen }

  /** The steps that only move one turn along. */
  predicate LocalStep(step: Step) {
    || step.Start? || step.Enter? || step.Prepare? || step.BeginDrain? || step.EndDrain? || step.Continue? || step.CheckWake?
    || step.Conclude? || step.Settle? || step.Complete?
  }

  function LocalTurn(t: Turn, step: Step): Turn
    requires LocalStep(step)
    requires (step.Settle? ==> t.at.Publishing?) && (step.CheckWake? ==> t.at.AfterDrain?)
  {
    match step
    case Start(_) => t.(at := if t.status.Interrupting? then Finishing(ContextCanceled) else if t.status.Blocked? then Waiting else Ready, abortable := false)
    case Enter(_) => t.(at := if t.canceled || t.status.Interrupting? then Finishing(ContextCanceled) else Preparing)
    case Prepare(_, err) => t.(at := if err.Nil? then BeforeDrain else Finishing(err))
    case BeginDrain(_) => t.(at := Draining, owed := false)
    case EndDrain(_, err) => t.(at := AfterDrain(err))
    case Continue(_) => t.(at := BeforeDrain)
    case CheckWake(_) => if t.wake && !t.canceled then t.(wake := false, at := BeforeDrain) else t.(at := Exiting(t.at.err))
    case Conclude(_, err) => t.(at := Finishing(err))
    case Settle(_) => t.(status := t.at.final, at := Completing(t.at.final))
    case Complete(_) => t.(at := Completed, completions := t.completions + 1)
  }

  /** Where a local step is taken. */
  predicate LocalEnabled(t: Turn, step: Step)
    requires LocalStep(step)
  {
    match step
    case Start(_) => t.at.Created?
    case Enter(_) => t.at.Ready?
    case Prepare(_, err) => t.at.Preparing?
    case BeginDrain(_) => t.at.BeforeDrain?
    case EndDrain(_, err) => t.at.Draining?
    case Continue(_) => t.at == AfterDrain(Nil)
    case CheckWake(_) => t.at.AfterDrain?
    case Conclude(_, err) => t.at.Exiting? && (t.at.err.Nil? || err == t.at.err)
    case Settle(_) => t.at.Publishing?
    case Complete(_) => t.at.Completing?
  }

  predicate Enabled(s: Session, step: Step) {
    match step
    case Begin(k, _) => k !in s.calls
    case Check(k, _) => CallAt(s, k, Checking)
    case Await(k, expired) =>
      && k in s.calls && s.calls[k].at.Awaiting?
      && var n := s.calls[k].at.turn; n < |s.turns| && (expired || s.turns[n].completions > 0)
    case TryQuota(k, outcome) => CallAt(s, k, Trying) && NewUnit(s, outcome)
    case Commit(k, _) => k in s.calls && s.calls[k].at.Got?
    case Drop(k) => k in s.calls && s.calls[k].at.Dropping?
    case Start(n) => n < |s.turns| && LocalEnabled(s.turns[n], step)
    case Abort(n) => TurnAt(s, n, Created) && s.turns[n].abortable
    case AcquireQuota(n, outcome) => TurnAt(s, n, Waiting) && NewUnit(s, outcome) && (outcome.Busy? ==> s.turns[n].canceled)
    case Unblock(n) => n < |s.turns| && s.turns[n].at.Acquired?
    case Enter(n) => n < |s.turns| && LocalEnabled(s.turns[n], step)
    case Prepare(n, _) => n < |s.turns| && LocalEnabled(s.turns[n], step)
    case BeginDrain(n) => n < |s.turns| && LocalEnabled(s.turns[n], step)
    case EndDrain(n, _) => n < |s.turns| && LocalEnabled(s.turns[n], step)
    case Continue(n) => n < |s.turns| && LocalEnabled(s.turns[n], step)
    case CheckWake(n) => n < |s.turns| && LocalEnabled(s.turns[n], step)
    case Conclude(n, _) => n < |s.turns| && LocalEnabled(s.turns[n], step)
    case Finish(n) => n < |s.turns| && s.turns[n].at.Finishing?
    case Settle(n) => n < |s.turns| && LocalEnabled(s.turns[n], step)
    case Complete(n) => n < |s.turns| && LocalEnabled(s.turns[n], step)
    case Restart(n, k) => TurnAt(s, n, Completed) && k !in s.calls
    case ReleaseCreation => s.creating > 0
    case _ => true
  }

  function Next(s: Session, step: Step): Session
    requires Enabled(s, step)
  {
    if LocalStep(step) then SetTurn(s, step.turn, LocalTurn(s.turns[step.turn], step))
    else
      match step
      case Begin(k, kind) => s.(calls := s.calls[k := Call(kind, Checking, None)])
      case Check(k, created) => NextCheck(s, k, created)
      case Await(k, expired) => if expired then EndCall(s, k, Refused(NotAdmitted)) else MoveCall(s, k, Checking)
      case TryQuota(k, outcome) => NextTry(s, k, outcome)
      case Commit(k, created) => NextCommit(s, k, s.calls[k].at.release, s.calls[k].at.blocked, created)
      case Drop(k) => NextDrop(s, k, s.calls[k].at.release, s.calls[k].at.outcome)
      case Abort(n) => NextAbort(s, n)
      case AcquireQuota(n, outcome) => NextAcquire(s, n, outcome)
      case Unblock(n) => NextUnblock(s, n, s.turns[n].at.permit)
      case Finish(n) => NextFinish(s, n, s.turns[n].at.err)
      case Restart(n, k) => NextRestart(s, n, k)
      case Interrupt => InterruptActive(s)
      case Shutdown => InterruptActive(s.(shuttingDown := true))
      case Remove(removable) => if s.removed || HasActive(s) || s.creating != 0 || !removable then s else s.(removed := true)
      case ReserveCreation => if s.removed || s.shuttingDown then s else s.(creating := s.creating + 1)
      case ReleaseCreation => s.(creating := s.creating - 1)
  }

  predicate Run(s: Session, steps: seq<Step>, t: Session)
    decreases |steps|
  {
    if steps == [] then s == t else Enabled(s, steps[0]) && Run(Next(s, steps[0]), steps[1..], t)
  }

  // ---------------------------------------------------------------------------
  // The invariant
  // ---------------------------------------------------------------------------

  /** Before the goroutine finishes, the turn is canceled exactly when its status says so. */
  predicate Unfinished(at: Place) { !(at.Publishing? || at.Completing? || at.Completed? || at.Restarting? || at.Over?) }

  predicate Final(status: Status) { !Active(status) }

  /** The final status that an ending implies. */
  predicate Implies(ending: Ending, final: Status) {
    match ending
    case NotYet => false
    case Aborted => final.Canceled?
    case Ran(err, interrupted) =>
      && (final.Succeeded? <==> err.Nil?)
      && (final.Canceled? <==> interrupted && err.ContextCanceled?)
      && (final.Failed? <==> !err.Nil? && !(interrupted && err.ContextCanceled?))
  }

  predicate StatusOk(t: Turn) {
    match t.at
    case Publishing(final) => t.status.Interrupting? && Final(final) && Implies(t.ending, final)
    case Completing(final) => t.status == final && Final(final) && Implies(t.ending, final)
    case Completed => Final(t.status) && Implies(t.ending, t.status)
    case Restarting(_) => Final(t.status) && Implies(t.ending, t.status)
    case Over => Final(t.status) && Implies(t.ending, t.status)
    case Created => Active(t.status) && (t.canceled <==> t.status.Interrupting?)
    case Finishing(_) => Active(t.status) && (t.canceled <==> t.status.Interrupting?)
    case Waiting => !t.status.Running? && Active(t.status) && (t.canceled <==> t.status.Interrupting?)
    case Acquired(_) => !t.status.Running? && Active(t.status) && (t.canceled <==> t.status.Interrupting?)
    case _ => !t.status.Blocked? && Active(t.status) && (t.canceled <==> t.status.Interrupting?)
  }

  /** A turn completes once, when it gets to its end. */
  predicate CompletionsOk(t: Turn) {
    t.completions == if t.at.Completed? || t.at.Restarting? || t.at.Over? then 1 else 0
  }

  /** A running turn of a child has a quota; no turn has one while it waits for it or after it finished. */
  predicate QuotaOk(t: Turn, child: bool) {
    && (child && t.status.Running? ==> t.quota.Some?)
    && (t.quota.Some? ==> child && Unfinished(t.at) && !t.at.Waiting? && !t.at.Acquired?)
    && (t.at.Waiting? || t.at.Acquired? || t.status.Blocked? ==> child)
    && (t.status.Blocked? ==> t.quota.None?)
  }

  /** Why a wake may end without a later drain pass or a replacement. */
  predicate Excused(s: Session, t: Turn) { s.removed || s.shuttingDown || t.closed || t.abortable }

  /** A wake that no drain pass has followed is still going to be acted on, or was taken over by a later turn. */
  predicate WakeOk(s: Session, n: nat)
    requires n < |s.turns|
  {
    var t := s.turns[n];
    && (t.owed && !t.at.BeforeDrain? && !t.at.Restarting? && !t.at.Over? ==> t.wake)
    && (t.owed && t.at.Over? ==> t.heir.Some? || Excused(s, t))
    && (t.heir.Some? ==> n < t.heir.value < |s.turns|)
    && (t.abortable ==> t.at.Created? || t.at.Over?)
  }

  predicate TurnOk(s: Session, n: nat)
    requires n < |s.turns|
  {
    var t := s.turns[n];
    && StatusOk(t) && CompletionsOk(t) && QuotaOk(t, s.child) && WakeOk(s, n)
    && (Active(t.status) ==> s.turn == Some(n))
    && (t.at.Restarting? ==> t.at.call in s.calls && !s.calls[t.at.call].at.Ended? && s.calls[t.at.call].origin == Some(n))
  }

  predicate CallOk(s: Session, k: nat)
    requires k in s.calls
  {
    var c := s.calls[k];
    && (c.origin.Some? ==> c.origin.value < |s.turns| && (!c.at.Ended? ==> s.turns[c.origin.value].at == Restarting(k)))
    && (c.at.Got? && (c.at.release.Some? || c.at.blocked) ==> s.child)
    && (c.at.Got? && c.at.release.Some? ==> !c.at.blocked)
    && (c.at.Got? && s.child ==> c.at.release.Some? || c.at.blocked)
    && (c.origin.Some? ==> c.kind == Empty(false))
    && (c.at.Awaiting? ==> c.kind.Admit?)
    && (c.origin.Some? && c.at.Dropping? ==> c.at.outcome.None?)
  }

  /** What each place says it owns. */
  function TurnUnit(t: Turn): Option<nat> { t.quota }

  function WaiterUnit(t: Turn): Option<nat> { if t.at.Acquired? then Some(t.at.permit) else None }

  function CallUnit(c: Call): Option<nat> {
    match c.at
    case Got(release, _) => release
    case Dropping(release, _) => release
    case _ => None
  }

  predicate OwnedBy(s: Session, c: nat, owner: Owner) {
    match owner
    case OfTurn(n) => n < |s.turns| && TurnUnit(s.turns[n]) == Some(c)
    case OfWaiter(n) => n < |s.turns| && WaiterUnit(s.turns[n]) == Some(c)
    case OfCall(k) => k in s.calls && CallUnit(s.calls[k]) == Some(c)
  }

  /** Every unreleased quota is in exactly one place. */
  ghost predicate OwnersOk(s: Session) {
    && (forall c | c in s.owners :: c in s.seen && OwnedBy(s, c, s.owners[c]))
    && forall c: nat, owner | OwnedBy(s, c, owner) :: c in s.owners && s.owners[c] == owner
  }

  ghost predicate Inv(s: Session) {
    && (s.turn.Some? ==> s.turn.value == |s.turns| - 1)
    && (forall n: nat | n < |s.turns| :: TurnOk(s, n))
    && (forall k | k in s.calls :: CallOk(s, k))
    && OwnersOk(s)
  }

  lemma NewOk(child: bool)
    ensures Inv(New(child))
  {
  }

  // ---------------------------------------------------------------------------
  // Steps of one turn
  // ---------------------------------------------------------------------------

  lemma InvParts(s: Session, n: nat)
    requires Inv(s) && n < |s.turns|
    ensures TurnOk(s, n)
  {
  }

  lemma OthersTurnOk(s: Session, n: nat, u: Turn, m: nat)
    requires n < |s.turns| && m < |s.turns| && m != n && TurnOk(s, m)
    ensures TurnOk(SetTurn(s, n, u), m)
  {
  }

  /** One turn changes, and neither its quota nor its part in a restart. */
  predicate SameHoldings(t: Turn, u: Turn) {
    TurnUnit(u) == TurnUnit(t) && WaiterUnit(u) == WaiterUnit(t) && (t.at.Restarting? || u.at.Restarting? ==> u.at == t.at)
  }

  lemma SameOwners(s: Session, t: Session)
    requires OwnersOk(s) && t.owners == s.owners && s.seen <= t.seen
    requires forall c: nat, owner :: OwnedBy(t, c, owner) <==> OwnedBy(s, c, owner)
    ensures OwnersOk(t)
  {
    hide OwnedBy;
  }

  lemma SetTurnOwners(s: Session, n: nat, u: Turn)
    requires OwnersOk(s) && n < |s.turns| && SameHoldings(s.turns[n], u)
    ensures OwnersOk(SetTurn(s, n, u))
  {
    hide OwnersOk, TurnUnit, WaiterUnit, CallUnit;
    SameOwners(s, SetTurn(s, n, u));
  }

  lemma SetTurnKeeps(s: Session, n: nat, u: Turn)
    requires Inv(s) && n < |s.turns| && SameHoldings(s.turns[n], u) && TurnOk(SetTurn(s, n, u), n)
    ensures Inv(SetTurn(s, n, u))
  {
    hide OwnersOk, TurnOk, TurnUnit, WaiterUnit;
    var t := SetTurn(s, n, u);
    SetTurnOwners(s, n, u);
    forall m: nat | m < |t.turns|
      ensures TurnOk(t, m)
    {
      if m != n {
        OthersTurnOk(s, n, u, m);
      }
    }
    forall k | k in t.calls
      ensures CallOk(t, k)
    {
      assert CallOk(s, k);
    }
  }

  lemma LocalMove(s: Session, n: nat, u: Turn)
    requires Inv(s) && n < |s.turns| && SameHoldings(s.turns[n], u)
    requires StatusOk(u) && CompletionsOk(u) && QuotaOk(u, s.child) && WakeOk(SetTurn(s, n, u), n)
    requires Active(u.status) ==> Active(s.turns[n].status)
    ensures Inv(SetTurn(s, n, u))
  {
    InvParts(s, n);
    hide Inv, StatusOk, CompletionsOk, QuotaOk, WakeOk;
    SetTurnKeeps(s, n, u);
  }

  lemma LocalTurnOk(t: Turn, step: Step, child: bool)
    requires LocalStep(step) && LocalEnabled(t, step) && StatusOk(t) && CompletionsOk(t) && QuotaOk(t, child)
    ensures var u := LocalTurn(t, step);
            StatusOk(u) && CompletionsOk(u) && QuotaOk(u, child) && SameHoldings(t, u) && (Active(u.status) ==> Active(t.status))
  {
  }

  lemma LocalWakeOk(s: Session, n: nat, step: Step)
    requires LocalStep(step) && n < |s.turns| && LocalEnabled(s.turns[n], step) && WakeOk(s, n)
    ensures WakeOk(SetTurn(s, n, LocalTurn(s.turns[n], step)), n)
  {
  }

  lemma LocalKeeps(s: Session, step: Step)
    requires Inv(s) && LocalStep(step) && step.turn < |s.turns| && LocalEnabled(s.turns[step.turn], step)
    ensures Inv(SetTurn(s, step.turn, LocalTurn(s.turns[step.turn], step)))
  {
    var n := step.turn;
    InvParts(s, n);
    hide Inv, StatusOk, CompletionsOk, QuotaOk, WakeOk, SameHoldings, LocalTurn, LocalEnabled;
    LocalTurnOk(s.turns[n], step, s.child);
    LocalWakeOk(s, n, step);
    LocalMove(s, n, LocalTurn(s.turns[n], step));
  }

  lemma InterruptKeeps(s: Session)
    requires Inv(s)
    ensures Inv(InterruptActive(s))
  {
    if HasActive(s) {
      var n := s.turn.value;
      InvParts(s, n);
      InterruptedOk(s, n);
      hide Inv, TurnOk, SameHoldings, Interrupted;
      SetTurnKeeps(s, n, Interrupted(s.turns[n]));
    }
  }

  lemma InterruptedOk(s: Session, n: nat)
    requires n < |s.turns| && TurnOk(s, n) && Active(s.turns[n].status)
    ensures SameHoldings(s.turns[n], Interrupted(s.turns[n])) && TurnOk(SetTurn(s, n, Interrupted(s.turns[n])), n)
  {
  }

  /** The flags only ever turn on, and only excuse more. */
  lemma FlagsKeep(s: Session, t: Session)
    requires Inv(s) && t == s.(removed := t.removed, shuttingDown := t.shuttingDown, creating := t.creating)
    requires (s.removed ==> t.removed) && (s.shuttingDown ==> t.shuttingDown)
    ensures Inv(t)
  {
    forall n: nat | n < |t.turns|
      ensures TurnOk(t, n)
    {
      assert TurnOk(s, n);
    }
    forall k | k in t.calls
      ensures CallOk(t, k)
    {
      assert CallOk(s, k);
    }
    assert OwnersOk(t) by { FlagOwners(s, t); }
  }

  lemma FlagOwners(s: Session, t: Session)
    requires OwnersOk(s) && t == s.(removed := t.removed, shuttingDown := t.shuttingDown, creating := t.creating)
    ensures OwnersOk(t)
  {
    hide OwnersOk;
    SameOwners(s, t);
  }

  lemma RestartTurns(s: Session, n: nat, k: nat, m: nat)
    requires Inv(s) && Enabled(s, Restart(n, k)) && m < |s.turns| && s.turns[n].wake && !s.shuttingDown && !s.removed
    ensures TurnOk(Next(s, Restart(n, k)), m)
  {
    InvParts(s, m);
    hide Inv;
  }

  lemma RestartCalls(s: Session, n: nat, k: nat, j: nat)
    requires Inv(s) && Enabled(s, Restart(n, k)) && s.turns[n].wake && !s.shuttingDown && !s.removed
    requires j == k || j in s.calls
    ensures CallOk(Next(s, Restart(n, k)), j)
  {
    assert j != k ==> CallOk(s, j);
    hide Inv;
  }

  lemma RestartKeeps(s: Session, n: nat, k: nat)
    requires Inv(s) && Enabled(s, Restart(n, k))
    ensures Inv(Next(s, Restart(n, k)))
  {
    hide OwnersOk, TurnOk, CallOk;
    var t := Next(s, Restart(n, k));
    if s.turns[n].wake && !s.shuttingDown && !s.removed {
      RestartOwners(s, n, k);
      forall m: nat | m < |t.turns|
        ensures TurnOk(t, m)
      {
        RestartTurns(s, n, k, m);
      }
      forall j | j in t.calls
        ensures CallOk(t, j)
      {
        RestartCalls(s, n, k, j);
      }
    } else {
      NoRestartKeeps(s, n);
    }
  }

  lemma NoRestartKeeps(s: Session, n: nat)
    requires Inv(s) && TurnAt(s, n, Completed) && !(s.turns[n].wake && !s.shuttingDown && !s.removed)
    ensures Inv(MoveTurn(s, n, Over))
  {
    InvParts(s, n);
    hide Inv;
    LocalMove(s, n, s.turns[n].(at := Over));
  }

  lemma RestartOwners(s: Session, n: nat, k: nat)
    requires OwnersOk(s) && Enabled(s, Restart(n, k))
    ensures OwnersOk(Next(s, Restart(n, k)))
  {
    hide OwnersOk;
    SameOwners(s, Next(s, Restart(n, k)));
  }

  // ---------------------------------------------------------------------------
  // Steps that move a quota
  // ---------------------------------------------------------------------------

  /** One turn changes together with the books. */
  lemma TurnAndOwners(s: Session, n: nat, u: Turn, t: Session)
    requires Inv(s) && n < |s.turns| && t == SetTurn(s, n, u).(owners := t.owners, seen := t.seen) && OwnersOk(t)
    requires TurnOk(SetTurn(s, n, u), n) && (s.turns[n].at.Restarting? || u.at.Restarting? ==> u.at == s.turns[n].at)
    ensures Inv(t)
  {
    hide OwnersOk, TurnOk;
    forall m: nat | m < |t.turns|
      ensures TurnOk(t, m)
    {
      if m != n {
        OthersTurnOk(s, n, u, m);
      }
      BooksAside(SetTurn(s, n, u), t, m);
    }
    forall k | k in t.calls
      ensures CallOk(t, k)
    {
      assert CallOk(s, k);
    }
  }

  lemma BooksAside(s: Session, t: Session, m: nat)
    requires m < |s.turns| && t == s.(owners := t.owners, seen := t.seen) && TurnOk(s, m)
    ensures TurnOk(t, m)
  {
  }

  lemma AcquireTurnOk(s: Session, n: nat, outcome: Outcome)
    requires n < |s.turns| && TurnOk(s, n) && s.turns[n].at.Waiting? && (outcome.Busy? ==> s.turns[n].canceled)
    ensures var u := NextAcquire(s, n, outcome).turns[n]; TurnOk(SetTurn(s, n, u), n) && !u.at.Restarting?
  {
  }

  lemma AcquireOwners(s: Session, n: nat, c: nat)
    requires OwnersOk(s) && n < |s.turns| && s.turns[n].at.Waiting? && c !in s.seen
    ensures OwnersOk(NextAcquire(s, n, Unit(c)))
  {
    var t := NextAcquire(s, n, Unit(c));
    assert forall d: nat, owner :: OwnedBy(t, d, owner) <==> OwnedBy(s, d, owner) || (d == c && owner == OfWaiter(n));
    hide OwnedBy;
  }

  lemma AcquireKeeps(s: Session, n: nat, outcome: Outcome)
    requires Inv(s) && Enabled(s, AcquireQuota(n, outcome))
    ensures Inv(NextAcquire(s, n, outcome))
  {
    InvParts(s, n);
    hide TurnOk, OwnersOk;
    var t := NextAcquire(s, n, outcome);
    AcquireTurnOk(s, n, outcome);
    if outcome.Unit? {
      AcquireOwners(s, n, outcome.permit);
    } else {
      SetTurnOwners(s, n, t.turns[n]);
    }
    TurnAndOwners(s, n, t.turns[n], t);
  }

  lemma UnblockTurnOk(s: Session, n: nat)
    requires n < |s.turns| && TurnOk(s, n) && s.turns[n].at.Acquired?
    ensures var u := NextUnblock(s, n, s.turns[n].at.permit).turns[n]; TurnOk(SetTurn(s, n, u), n) && !u.at.Restarting?
  {
  }

  /** The books after quota `c` changed hands, or was released. */
  lemma OwnersMoved(s: Session, t: Session, c: nat, owner: Option<Owner>)
    requires OwnersOk(s) && t.seen == s.seen && c in s.owners
    requires t.owners == if owner.Some? then s.owners[c := owner.value] else s.owners - {c}
    requires forall d: nat, o :: OwnedBy(t, d, o) <==> if d == c then owner == Some(o) else OwnedBy(s, d, o)
    ensures OwnersOk(t)
  {
    hide OwnedBy;
  }

  lemma OnlyOwner(s: Session, c: nat, owner: Owner)
    requires OwnersOk(s) && OwnedBy(s, c, owner)
    ensures c in s.owners && forall o | OwnedBy(s, c, o) :: o == owner
  {
    hide OwnedBy;
  }

  lemma SetTurnOwned(s: Session, n: nat, u: Turn, t: Session, d: nat, o: Owner)
    requires n < |s.turns| && t.turns == s.turns[n := u] && t.calls == s.calls
    requires TurnUnit(u) == Some(d) <==> TurnUnit(s.turns[n]) == Some(d)
    requires WaiterUnit(u) == Some(d) <==> WaiterUnit(s.turns[n]) == Some(d)
    ensures OwnedBy(t, d, o) <==> OwnedBy(s, d, o)
  {
    hide TurnUnit, WaiterUnit, CallUnit;
  }

  lemma UnblockedUnits(t: Turn, c: nat, wanted: bool)
    requires t.quota.None? && WaiterUnit(t) == Some(c)
    ensures TurnUnit(Unblocked(t, c, wanted)) == (if wanted then Some(c) else None) && TurnUnit(t) == None
    ensures WaiterUnit(Unblocked(t, c, wanted)) == None
  {
  }

  lemma UnblockOthers(s: Session, n: nat, d: nat, o: Owner)
    requires n < |s.turns| && s.turns[n].at.Acquired? && s.turns[n].quota.None? && d != s.turns[n].at.permit
    ensures OwnedBy(NextUnblock(s, n, s.turns[n].at.permit), d, o) <==> OwnedBy(s, d, o)
  {
    var c := s.turns[n].at.permit;
    assert WaiterUnit(s.turns[n]) == Some(c);
    hide *;
    UnblockedUnits(s.turns[n], c, !s.turns[n].canceled && s.turn == Some(n));
    UnblockIsSet(s, n, c);
    SetTurnOwned(s, n, Unblocked(s.turns[n], c, !s.turns[n].canceled && s.turn == Some(n)), NextUnblock(s, n, c), d, o);
  }

  lemma UnblockIsSet(s: Session, n: nat, c: nat)
    requires n < |s.turns|
    ensures var t := NextUnblock(s, n, c);
            && t.turns == s.turns[n := Unblocked(s.turns[n], c, !s.turns[n].canceled && s.turn == Some(n))]
            && t.calls == s.calls
  {
    hide Unblocked;
  }

  lemma UnblockItself(s: Session, n: nat, o: Owner)
    requires OwnersOk(s) && n < |s.turns| && s.turns[n].at.Acquired? && s.turns[n].quota.None?
    ensures var c := s.turns[n].at.permit;
            OwnedBy(NextUnblock(s, n, c), c, o) <==> !s.turns[n].canceled && s.turn == Some(n) && o == OfTurn(n)
  {
    var c := s.turns[n].at.permit;
    var wanted := !s.turns[n].canceled && s.turn == Some(n);
    assert WaiterUnit(s.turns[n]) == Some(c);
    hide OwnersOk, CallUnit, WaiterUnit, TurnUnit, NextUnblock, Unblocked;
    UnblockedUnits(s.turns[n], c, wanted);
    UnblockIsSet(s, n, c);
    OnlyOwner(s, c, OfWaiter(n));
    assert OwnedBy(s, c, o) ==> o == OfWaiter(n);
  }

  lemma UnblockOwned(s: Session, n: nat, d: nat, o: Owner)
    requires OwnersOk(s) && n < |s.turns| && s.turns[n].at.Acquired? && s.turns[n].quota.None?
    ensures var c := s.turns[n].at.permit;
            var t, wanted := NextUnblock(s, n, c), !s.turns[n].canceled && s.turn == Some(n);
            OwnedBy(t, d, o) <==> if d == c then wanted && o == OfTurn(n) else OwnedBy(s, d, o)
  {
    hide OwnersOk, OwnedBy, NextUnblock;
    if d == s.turns[n].at.permit {
      UnblockItself(s, n, o);
    } else {
      UnblockOthers(s, n, d, o);
    }
  }

  lemma UnblockOwners(s: Session, n: nat)
    requires OwnersOk(s) && n < |s.turns| && s.turns[n].at.Acquired? && s.turns[n].quota.None?
    ensures OwnersOk(NextUnblock(s, n, s.turns[n].at.permit))
  {
    hide OwnersOk, OwnedBy;
    var c := s.turns[n].at.permit;
    var t, wanted := NextUnblock(s, n, c), !s.turns[n].canceled && s.turn == Some(n);
    forall d: nat, o
      ensures OwnedBy(t, d, o) <==> if d == c then wanted && o == OfTurn(n) else OwnedBy(s, d, o)
    {
      UnblockOwned(s, n, d, o);
    }
    WaiterOwns(s, n);
    OnlyOwner(s, c, OfWaiter(n));
    OwnersMoved(s, t, c, if wanted then Some(OfTurn(n)) else None);
  }

  lemma WaiterOwns(s: Session, n: nat)
    requires n < |s.turns| && s.turns[n].at.Acquired?
    ensures OwnedBy(s, s.turns[n].at.permit, OfWaiter(n))
  {
  }

  lemma UnblockKeeps(s: Session, n: nat)
    requires Inv(s) && Enabled(s, Unblock(n))
    ensures Inv(NextUnblock(s, n, s.turns[n].at.permit))
  {
    InvParts(s, n);
    hide OwnersOk;
    var t := NextUnblock(s, n, s.turns[n].at.permit);
    assert s.turns[n].quota.None?;
    UnblockTurnOk(s, n);
    UnblockOwners(s, n);
    hide TurnOk;
    TurnAndOwners(s, n, t.turns[n], t);
  }

  /** Finishing or aborting a turn releases its quota, if it has one. */
  lemma ReleaseOwned(s: Session, n: nat, t: Session, d: nat, o: Owner)
    requires OwnersOk(s) && n < |s.turns| == |t.turns| && t.turns == s.turns[n := t.turns[n]] && t.calls == s.calls
    requires t.turns[n].quota.None? && WaiterUnit(t.turns[n]) == WaiterUnit(s.turns[n])
    ensures OwnedBy(t, d, o) <==> OwnedBy(s, d, o) && Some(d) != s.turns[n].quota
  {
    hide OwnersOk, WaiterUnit, CallUnit;
    if s.turns[n].quota.Some? {
      var c := s.turns[n].quota.value;
      assert OwnedBy(s, c, OfTurn(n));
      OnlyOwner(s, c, OfTurn(n));
      assert d == c && OwnedBy(s, d, o) ==> o == OfTurn(n);
    }
  }

  lemma ReleaseOwners(s: Session, n: nat, t: Session)
    requires OwnersOk(s) && n < |s.turns| == |t.turns| && t.turns == s.turns[n := t.turns[n]] && t.calls == s.calls
    requires t.turns[n].quota.None? && WaiterUnit(t.turns[n]) == WaiterUnit(s.turns[n])
    requires t.seen == s.seen && t.owners == WithoutOwner(s.owners, s.turns[n].quota)
    ensures OwnersOk(t)
  {
    hide OwnersOk, OwnedBy, WaiterUnit;
    forall d: nat, o
      ensures OwnedBy(t, d, o) <==> OwnedBy(s, d, o) && Some(d) != s.turns[n].quota
    {
      ReleaseOwned(s, n, t, d, o);
    }
    if s.turns[n].quota.Some? {
      TurnOwns(s, n);
      OnlyOwner(s, s.turns[n].quota.value, OfTurn(n));
      OwnersMoved(s, t, s.turns[n].quota.value, None);
    } else {
      SameOwners(s, t);
    }
  }

  lemma TurnOwns(s: Session, n: nat)
    requires n < |s.turns| && s.turns[n].quota.Some?
    ensures OwnedBy(s, s.turns[n].quota.value, OfTurn(n))
  {
  }

  lemma FinishKeeps(s: Session, n: nat)
    requires Inv(s) && Enabled(s, Finish(n))
    ensures Inv(NextFinish(s, n, s.turns[n].at.err))
  {
    InvParts(s, n);
    hide OwnersOk, Inv;
    var t := NextFinish(s, n, s.turns[n].at.err);
    assert TurnOk(SetTurn(s, n, t.turns[n]), n);
    FinishOwners(s, n);
    hide TurnOk;
    TurnAndOwners(s, n, t.turns[n], t);
  }

  lemma FinishOwners(s: Session, n: nat)
    requires Inv(s) && Enabled(s, Finish(n))
    ensures OwnersOk(NextFinish(s, n, s.turns[n].at.err))
  {
    hide OwnersOk, TurnOk, CallOk;
    ReleaseOwners(s, n, NextFinish(s, n, s.turns[n].at.err));
  }

  lemma AbortTurns(s: Session, n: nat, m: nat)
    requires Inv(s) && Enabled(s, Abort(n)) && m < |s.turns|
    ensures TurnOk(NextAbort(s, n), m)
  {
    InvParts(s, n);
    InvParts(s, m);
    hide Inv;
  }

  lemma AbortKeeps(s: Session, n: nat)
    requires Inv(s) && Enabled(s, Abort(n))
    ensures Inv(NextAbort(s, n))
  {
    hide OwnersOk, TurnOk;
    var t := NextAbort(s, n);
    AbortOwners(s, n);
    forall m: nat | m < |t.turns|
      ensures TurnOk(t, m)
    {
      AbortTurns(s, n, m);
    }
    forall k | k in t.calls
      ensures CallOk(t, k)
    {
      assert CallOk(s, k);
    }
  }

  lemma AbortOwners(s: Session, n: nat)
    requires Inv(s) && Enabled(s, Abort(n))
    ensures OwnersOk(NextAbort(s, n))
  {
    hide OwnersOk, TurnOk, CallOk;
    ReleaseOwners(s, n, NextAbort(s, n));
  }

  // ---------------------------------------------------------------------------
  // Steps of calls
  // ---------------------------------------------------------------------------

  lemma CallParts(s: Session, k: nat)
    requires Inv(s) && k in s.calls
    ensures CallOk(s, k)
  {
  }

  lemma MoveCallTurn(s: Session, k: nat, at: CallPlace, n: nat)
    requires k in s.calls && !at.Ended? && n < |s.turns| && TurnOk(s, n)
    ensures TurnOk(MoveCall(s, k, at), n)
  {
  }

  lemma MoveCallOther(s: Session, k: nat, at: CallPlace, j: nat)
    requires k in s.calls && j in s.calls && j != k && CallOk(s, j)
    ensures CallOk(MoveCall(s, k, at), j)
  {
  }

  /** A call moves on, together with the books. */
  lemma MoveCallKeeps(s: Session, k: nat, at: CallPlace, t: Session)
    requires Inv(s) && k in s.calls && !at.Ended?
    requires t == MoveCall(s, k, at).(owners := t.owners, seen := t.seen) && OwnersOk(t) && CallOk(MoveCall(s, k, at), k)
    ensures Inv(t)
  {
    hide OwnersOk, TurnOk, CallOk;
    var u := MoveCall(s, k, at);
    forall m: nat | m < |t.turns|
      ensures TurnOk(t, m)
    {
      MoveCallTurn(s, k, at, m);
      BooksAside(u, t, m);
    }
    forall j | j in t.calls
      ensures CallOk(t, j)
    {
      if j != k {
        MoveCallOther(s, k, at, j);
      }
      BooksAsideCall(u, t, j);
    }
  }

  lemma BooksAsideCall(s: Session, t: Session, k: nat)
    requires k in s.calls && t == s.(owners := t.owners, seen := t.seen) && CallOk(s, k)
    ensures CallOk(t, k)
  {
  }

  lemma MoveCallOwners(s: Session, k: nat, at: CallPlace)
    requires OwnersOk(s) && k in s.calls && CallUnit(s.calls[k].(at := at)) == CallUnit(s.calls[k])
    ensures OwnersOk(MoveCall(s, k, at))
  {
    hide OwnersOk, TurnUnit, WaiterUnit, CallUnit;
    SameOwners(s, MoveCall(s, k, at));
  }

  lemma StepOfCall(s: Session, k: nat, at: CallPlace)
    requires Inv(s) && k in s.calls && !at.Ended?
    requires CallUnit(s.calls[k].(at := at)) == CallUnit(s.calls[k]) && CallOk(MoveCall(s, k, at), k)
    ensures Inv(MoveCall(s, k, at))
  {
    hide OwnersOk, CallOk, CallUnit, TurnOk;
    MoveCallOwners(s, k, at);
    MoveCallKeeps(s, k, at, MoveCall(s, k, at));
  }

  /** How a restart may end: with a later turn, or refused for a reason that excuses it. */
  predicate EndOk(s: Session, k: nat, result: Result)
    requires k in s.calls
  {
    s.calls[k].origin.Some? ==>
      if result.Refused? then s.removed || s.shuttingDown || result == Refused(QuotaClosed)
      else s.calls[k].origin.value < result.turn < |s.turns|
  }

  lemma EndCallOtherTurn(s: Session, k: nat, result: Result, m: nat)
    requires k in s.calls && !s.calls[k].at.Ended? && CallOk(s, k) && s.calls[k].origin != Some(m)
    requires m < |s.turns| && TurnOk(s, m)
    ensures TurnOk(EndCall(s, k, result), m)
  {
    hide StatusOk, CompletionsOk, QuotaOk;
  }

  lemma EndCallOwnTurn(s: Session, k: nat, result: Result, m: nat)
    requires k in s.calls && !s.calls[k].at.Ended? && CallOk(s, k) && EndOk(s, k, result) && s.calls[k].origin == Some(m)
    requires m < |s.turns| && TurnOk(s, m)
    ensures TurnOk(EndCall(s, k, result), m)
  {
  }

  lemma EndCallTurn(s: Session, k: nat, result: Result, m: nat)
    requires k in s.calls && !s.calls[k].at.Ended? && CallOk(s, k) && EndOk(s, k, result)
    requires m < |s.turns| && TurnOk(s, m)
    ensures TurnOk(EndCall(s, k, result), m)
  {
    hide TurnOk, CallOk, EndCall, EndOk;
    if s.calls[k].origin == Some(m) {
      EndCallOwnTurn(s, k, result, m);
    } else {
      EndCallOtherTurn(s, k, result, m);
    }
  }

  lemma EndCallCall(s: Session, k: nat, result: Result, j: nat)
    requires k in s.calls && !s.calls[k].at.Ended? && CallOk(s, k)
    requires j in s.calls && CallOk(s, j)
    ensures CallOk(EndCall(s, k, result), j)
  {
  }

  lemma EndCallOwners(s: Session, k: nat, result: Result)
    requires OwnersOk(s) && k in s.calls && CallUnit(s.calls[k]).None? && CallOk(s, k) && !s.calls[k].at.Ended?
    ensures OwnersOk(EndCall(s, k, result))
  {
    MoveCallOwners(s, k, Ended(result));
    hide OwnersOk;
    if s.calls[k].origin.Some? {
      var n := s.calls[k].origin.value;
      SetTurnUnits(MoveCall(s, k, Ended(result)), n, EndCall(s, k, result).turns[n]);
    }
  }

  lemma SetTurnUnits(s: Session, n: nat, u: Turn)
    requires OwnersOk(s) && n < |s.turns| && TurnUnit(u) == TurnUnit(s.turns[n]) && WaiterUnit(u) == WaiterUnit(s.turns[n])
    ensures OwnersOk(SetTurn(s, n, u))
  {
    hide OwnersOk, TurnUnit, WaiterUnit, CallUnit;
    SameOwners(s, SetTurn(s, n, u));
  }

  lemma EndCallKeeps(s: Session, k: nat, result: Result)
    requires Inv(s) && k in s.calls && !s.calls[k].at.Ended? && CallUnit(s.calls[k]).None? && EndOk(s, k, result)
    ensures Inv(EndCall(s, k, result))
  {
    CallParts(s, k);
    EndCallOwners(s, k, result);
    hide OwnersOk, TurnOk, CallOk, EndOk, CallUnit;
    var t := EndCall(s, k, result);
    forall m: nat | m < |t.turns|
      ensures TurnOk(t, m)
    {
      EndCallTurn(s, k, result, m);
    }
    forall j | j in t.calls
      ensures CallOk(t, j)
    {
      EndCallCall(s, k, result, j);
    }
  }

  lemma BeginKeeps(s: Session, k: nat, kind: Kind)
    requires Inv(s) && k !in s.calls
    ensures Inv(s.(calls := s.calls[k := Call(kind, Checking, None)]))
  {
    hide OwnersOk;
    var t := s.(calls := s.calls[k := Call(kind, Checking, None)]);
    forall m: nat | m < |t.turns|
      ensures TurnOk(t, m)
    {
      assert TurnOk(s, m);
    }
    forall j | j in t.calls
      ensures CallOk(t, j)
    {
      assert j != k ==> CallOk(s, j);
    }
    BeginOwners(s, k, kind);
  }

  lemma BeginOwners(s: Session, k: nat, kind: Kind)
    requires OwnersOk(s) && k !in s.calls
    ensures OwnersOk(s.(calls := s.calls[k := Call(kind, Checking, None)]))
  {
    hide OwnersOk;
    SameOwners(s, s.(calls := s.calls[k := Call(kind, Checking, None)]));
  }

  /** The turn a restart joins is a later one. */
  lemma JoinedIsLater(s: Session, k: nat)
    requires Inv(s) && k in s.calls && !s.calls[k].at.Ended? && HasActive(s)
    ensures EndOk(s, k, Joined(s.turn.value))
  {
    CallParts(s, k);
    if s.calls[k].origin.Some? {
      InvParts(s, s.calls[k].origin.value);
    }
  }

  lemma WakeActiveKeeps(s: Session)
    requires Inv(s) && HasActive(s)
    ensures Inv(SetTurn(s, s.turn.value, Woken(s.turns[s.turn.value])))
  {
    var n := s.turn.value;
    InvParts(s, n);
    hide Inv;
    LocalMove(s, n, Woken(s.turns[n]));
  }

  lemma CheckKeeps(s: Session, k: nat, created: bool)
    requires Inv(s) && Enabled(s, Check(k, created))
    ensures Inv(NextCheck(s, k, created))
  {
    CallParts(s, k);
    hide Inv, LocalStep;
    if s.removed {
      EndCallKeeps(s, k, Refused(WasRemoved));
    } else if s.shuttingDown {
      EndCallKeeps(s, k, Refused(WasShutDown));
    } else if !HasActive(s) {
      StepOfCall(s, k, Trying);
    } else {
      var n := s.turn.value;
      var t := s.turns[n];
      var wakes := match s.calls[k].kind case Empty(wake) => wake case Admit(_, _) => created;
      if s.calls[k].kind.Admit? && (t.status.Blocked? || t.status.Interrupting?) {
        StepOfCall(s, k, Awaiting(n));
      } else {
        JoinedIsLater(s, k);
        if wakes {
          WakeActiveKeeps(s);
          EndCallKeeps(SetTurn(s, n, Woken(t)), k, Joined(n));
        } else {
          EndCallKeeps(s, k, Joined(n));
        }
      }
    }
  }

  lemma AwaitKeeps(s: Session, k: nat, expired: bool)
    requires Inv(s) && Enabled(s, Await(k, expired))
    ensures Inv(Next(s, Await(k, expired)))
  {
    CallParts(s, k);
    hide Inv, LocalStep;
    if expired {
      AwaitingIsNoRestart(s, k);
      EndCallKeeps(s, k, Refused(NotAdmitted));
    } else {
      StepOfCall(s, k, Checking);
    }
  }

  /** Only admissions wait for another turn; a restart never does. */
  lemma AwaitingIsNoRestart(s: Session, k: nat)
    requires Inv(s) && k in s.calls && s.calls[k].at.Awaiting?
    ensures s.calls[k].origin.None?
  {
    CallParts(s, k);
  }

  lemma GotUnitOwners(s: Session, k: nat, c: nat)
    requires OwnersOk(s) && k in s.calls && CallUnit(s.calls[k]).None? && c !in s.seen
    ensures OwnersOk(MoveCall(s.(owners := s.owners[c := OfCall(k)], seen := s.seen + {c}), k, Got(Some(c), false)))
  {
    var t := MoveCall(s.(owners := s.owners[c := OfCall(k)], seen := s.seen + {c}), k, Got(Some(c), false));
    assert forall d: nat, o :: OwnedBy(t, d, o) <==> OwnedBy(s, d, o) || (d == c && o == OfCall(k));
    hide OwnedBy;
  }

  lemma TryKeeps(s: Session, k: nat, outcome: Outcome)
    requires Inv(s) && Enabled(s, TryQuota(k, outcome))
    ensures Inv(NextTry(s, k, outcome))
  {
    CallParts(s, k);
    hide Inv, LocalStep, OwnersOk;
    var c := s.calls[k];
    if !s.child {
      StepOfCall(s, k, Got(None, false));
    } else if outcome.Unit? {
      TryUnitKeeps(s, k, outcome.permit);
    } else if outcome.Closed? {
      EndCallKeeps(s, k, Refused(QuotaClosed));
    } else if c.kind.Admit? && !c.kind.wait {
      EndCallKeeps(s, k, Refused(QuotaBusy));
    } else {
      StepOfCall(s, k, Got(None, true));
    }
  }

  lemma TryUnitKeeps(s: Session, k: nat, c: nat)
    requires Inv(s) && Enabled(s, TryQuota(k, Unit(c))) && s.child
    ensures Inv(NextTry(s, k, Unit(c)))
  {
    CallParts(s, k);
    hide OwnersOk, TurnOk;
    GotUnitOwners(s, k, c);
    MoveCallKeeps(s, k, Got(Some(c), false), NextTry(s, k, Unit(c)));
  }

  lemma DroppedOwned(s: Session, k: nat, at: CallPlace, t: Session, d: nat, o: Owner)
    requires OwnersOk(s) && k in s.calls && t == MoveCall(s, k, at).(owners := t.owners) && CallUnit(t.calls[k]).None?
    ensures OwnedBy(t, d, o) <==> OwnedBy(s, d, o) && Some(d) != CallUnit(s.calls[k])
  {
    hide OwnersOk, TurnUnit, WaiterUnit, CallUnit;
    var unit := CallUnit(s.calls[k]);
    if unit.Some? {
      assert OwnedBy(s, unit.value, OfCall(k));
      OnlyOwner(s, unit.value, OfCall(k));
      assert d == unit.value && OwnedBy(s, d, o) ==> o == OfCall(k);
    }
  }

  /** A call gives up its quota. */
  lemma DroppedOwners(s: Session, k: nat, at: CallPlace)
    requires OwnersOk(s) && k in s.calls && CallUnit(s.calls[k].(at := at)).None?
    ensures OwnersOk(MoveCall(s.(owners := WithoutOwner(s.owners, CallUnit(s.calls[k]))), k, at))
  {
    hide OwnersOk, OwnedBy, CallUnit;
    var unit := CallUnit(s.calls[k]);
    var t := MoveCall(s.(owners := WithoutOwner(s.owners, unit)), k, at);
    forall d: nat, o
      ensures OwnedBy(t, d, o) <==> OwnedBy(s, d, o) && Some(d) != unit
    {
      DroppedOwned(s, k, at, t, d, o);
    }
    if unit.Some? {
      CallOwns(s, k);
      OnlyOwner(s, unit.value, OfCall(k));
      OwnersMoved(s, t, unit.value, None);
    } else {
      SameOwners(s, t);
    }
  }

  lemma CallOwns(s: Session, k: nat)
    requires k in s.calls && CallUnit(s.calls[k]).Some?
    ensures OwnedBy(s, CallUnit(s.calls[k]).value, OfCall(k))
  {
  }

  lemma DropKeeps(s: Session, k: nat)
    requires Inv(s) && Enabled(s, Drop(k))
    ensures Inv(NextDrop(s, k, s.calls[k].at.release, s.calls[k].at.outcome))
  {
    CallParts(s, k);
    hide OwnersOk, TurnOk;
    var Dropping(release, outcome) := s.calls[k].at;
    var t := MoveCall(s.(owners := WithoutOwner(s.owners, release)), k, Checking);
    DroppedOwners(s, k, Checking);
    MoveCallKeeps(s, k, Checking, t);
    if outcome.Some? {
      hide Inv, CallOk;
      EndCallKeeps(t, k, outcome.value);
      assert t.calls[k := t.calls[k].(at := Ended(outcome.value))] == s.calls[k := s.calls[k].(at := Ended(outcome.value))];
    }
  }

  /** The session with a new turn, before the call that made it returns. */
  function WithTurn(s: Session, k: nat, release: Option<nat>, blocked: bool, abortable: bool): Session
    requires k in s.calls
  {
    var n := |s.turns|;
    var owners := if release.Some? then s.owners[release.value := OfTurn(n)] else s.owners;
    MoveCall(s, k, Checking).(turn := Some(n), turns := s.turns + [NewTurn(release, blocked, abortable)], owners := owners)
  }

  lemma NewTurnOk(s: Session, k: nat, blocked: bool, abortable: bool, m: nat)
    requires Inv(s) && k in s.calls && s.calls[k].at.Got? && s.calls[k].at.blocked == blocked && !HasActive(s)
    requires m <= |s.turns|
    ensures TurnOk(WithTurn(s, k, s.calls[k].at.release, blocked, abortable), m)
  {
    CallParts(s, k);
    if m < |s.turns| {
      InvParts(s, m);
    }
    hide Inv;
  }

  lemma NewTurnCall(s: Session, k: nat, blocked: bool, abortable: bool, j: nat)
    requires Inv(s) && k in s.calls && s.calls[k].at.Got? && j in s.calls
    ensures CallOk(WithTurn(s, k, s.calls[k].at.release, blocked, abortable), j)
  {
    CallParts(s, k);
    CallParts(s, j);
    hide Inv;
  }

  lemma NewTurnOwned(s: Session, k: nat, blocked: bool, abortable: bool, d: nat, o: Owner)
    requires OwnersOk(s) && k in s.calls && s.calls[k].at.Got?
    ensures var release := s.calls[k].at.release;
            OwnedBy(WithTurn(s, k, release, blocked, abortable), d, o) <==>
            if Some(d) == release then o == OfTurn(|s.turns|) else OwnedBy(s, d, o)
  {
    hide OwnersOk;
    var release := s.calls[k].at.release;
    if release.Some? {
      assert OwnedBy(s, release.value, OfCall(k));
      OnlyOwner(s, release.value, OfCall(k));
      assert d == release.value && OwnedBy(s, d, o) ==> o == OfCall(k);
    }
  }

  lemma NewTurnOwners(s: Session, k: nat, blocked: bool, abortable: bool)
    requires OwnersOk(s) && k in s.calls && s.calls[k].at.Got?
    ensures OwnersOk(WithTurn(s, k, s.calls[k].at.release, blocked, abortable))
  {
    hide OwnersOk, OwnedBy;
    var release := s.calls[k].at.release;
    var t := WithTurn(s, k, release, blocked, abortable);
    forall d: nat, o
      ensures OwnedBy(t, d, o) <==> if Some(d) == release then o == OfTurn(|s.turns|) else OwnedBy(s, d, o)
    {
      NewTurnOwned(s, k, blocked, abortable, d, o);
    }
    if release.Some? {
      CallOwns(s, k);
      OnlyOwner(s, release.value, OfCall(k));
      OwnersMoved(s, t, release.value, Some(OfTurn(|s.turns|)));
    } else {
      SameOwners(s, t);
    }
  }

  lemma WithTurnKeeps(s: Session, k: nat, abortable: bool)
    requires Inv(s) && k in s.calls && s.calls[k].at.Got? && !HasActive(s)
    ensures Inv(WithTurn(s, k, s.calls[k].at.release, s.calls[k].at.blocked, abortable))
  {
    hide OwnersOk, TurnOk, CallOk;
    var blocked := s.calls[k].at.blocked;
    var t := WithTurn(s, k, s.calls[k].at.release, blocked, abortable);
    NewTurnOwners(s, k, blocked, abortable);
    forall m: nat | m < |t.turns|
      ensures TurnOk(t, m)
    {
      NewTurnOk(s, k, blocked, abortable, m);
    }
    forall j | j in t.calls
      ensures CallOk(t, j)
    {
      NewTurnCall(s, k, blocked, abortable, j);
    }
  }

  lemma AddTurnEnds(s: Session, k: nat, release: Option<nat>, blocked: bool, abortable: bool)
    requires k in s.calls
    ensures AddTurn(s, k, release, blocked, abortable) == EndCall(WithTurn(s, k, release, blocked, abortable), k, Began(|s.turns|))
  {
    var t := WithTurn(s, k, release, blocked, abortable);
    var at := Ended(Began(|s.turns|));
    assert t.calls[k := t.calls[k].(at := at)] == s.calls[k := s.calls[k].(at := at)];
  }

  lemma AddTurnKeeps(s: Session, k: nat, abortable: bool)
    requires Inv(s) && k in s.calls && s.calls[k].at.Got? && !HasActive(s)
    ensures Inv(AddTurn(s, k, s.calls[k].at.release, s.calls[k].at.blocked, abortable))
  {
    hide Inv, CallOk, EndCall, AddTurn, CallUnit;
    WithTurnKeeps(s, k, abortable);
    AddTurnEnds(s, k, s.calls[k].at.release, s.calls[k].at.blocked, abortable);
    BeganIsLater(s, k, abortable);
    EndCallKeeps(WithTurn(s, k, s.calls[k].at.release, s.calls[k].at.blocked, abortable), k, Began(|s.turns|));
  }

  lemma BeganIsLater(s: Session, k: nat, abortable: bool)
    requires Inv(s) && k in s.calls && s.calls[k].at.Got?
    ensures var t := WithTurn(s, k, s.calls[k].at.release, s.calls[k].at.blocked, abortable);
            EndOk(t, k, Began(|s.turns|)) && CallUnit(t.calls[k]).None? && !t.calls[k].at.Ended?
  {
    CallParts(s, k);
    hide Inv;
  }

  lemma CommitKeeps(s: Session, k: nat, created: bool)
    requires Inv(s) && Enabled(s, Commit(k, created))
    ensures Inv(NextCommit(s, k, s.calls[k].at.release, s.calls[k].at.blocked, created))
  {
    CallParts(s, k);
    hide Inv, LocalStep, AddTurn, DropQuota;
    forall outcome | s.calls[k].origin.Some? ==> outcome == None
      ensures Inv(DropQuota(s, k, s.calls[k].at.release, outcome))
    {
      DropQuotaKeeps(s, k, outcome);
    }
    if !HasActive(s) {
      AddTurnKeeps(s, k, false);
      AddTurnKeeps(s, k, true);
    }
  }

  lemma DropQuotaKeeps(s: Session, k: nat, outcome: Option<Result>)
    requires Inv(s) && k in s.calls && s.calls[k].at.Got? && (s.calls[k].origin.Some? ==> outcome.None?)
    ensures Inv(DropQuota(s, k, s.calls[k].at.release, outcome))
  {
    CallParts(s, k);
    hide Inv;
    StepOfCall(s, k, Dropping(s.calls[k].at.release, outcome));
  }

  lemma FlagStepKeeps(s: Session, step: Step)
    requires Inv(s) && Enabled(s, step) && (step.Shutdown? || step.Remove? || step.ReserveCreation? || step.ReleaseCreation?)
    ensures Inv(Next(s, step))
  {
    hide Inv, InterruptActive, LocalTurn;
    if step.Shutdown? {
      var t := s.(shuttingDown := true);
      FlagsKeep(s, t);
      InterruptKeeps(t);
    } else {
      FlagsKeep(s, Next(s, step));
    }
  }

  lemma StepKeepsInv(s: Session, step: Step)
    requires Inv(s) && Enabled(s, step)
    ensures Inv(Next(s, step))
  {
    hide Inv, LocalTurn, LocalEnabled, NextCheck, NextTry, NextCommit, NextDrop, NextAbort, NextAcquire, NextUnblock, NextFinish, NextRestart,
      InterruptActive, EndCall;
    if LocalStep(step) {
      LocalKeeps(s, step);
    } else {
      match step {
        case Begin(k, kind) => BeginKeeps(s, k, kind);
        case Check(k, created) => CheckKeeps(s, k, created);
        case Await(k, expired) => AwaitKeeps(s, k, expired);
        case TryQuota(k, outcome) => TryKeeps(s, k, outcome);
        case Commit(k, created) => CommitKeeps(s, k, created);
        case Drop(k) => DropKeeps(s, k);
        case Abort(n) => AbortKeeps(s, n);
        case AcquireQuota(n, outcome) => AcquireKeeps(s, n, outcome);
        case Unblock(n) => UnblockKeeps(s, n);
        case Finish(n) => FinishKeeps(s, n);
        case Restart(n, k) => RestartKeeps(s, n, k);
        case Interrupt => InterruptKeeps(s);
        case _ => FlagStepKeeps(s, step);
      }
    }
  }

  lemma {:induction false} RunKeepsInv(s: Session, steps: seq<Step>, t: Session)
    requires Inv(s) && Run(s, steps, t)
    ensures Inv(t)
    decreases |steps|
  {
    hide Inv, Enabled, Next;
    if steps != [] {
      StepKeepsInv(s, steps[0]);
      RunKeepsInv(Next(s, steps[0]), steps[1..], t);
    }
  }

  // ---------------------------------------------------------------------------
  // What follows in every run
  // ---------------------------------------------------------------------------

  /** At most one turn of a session is active, and it is the current one. */
  lemma OneActiveTurn(child: bool, steps: seq<Step>, s: Session, n: nat)
    requires Run(New(child), steps, s) && n < |s.turns| && Active(s.turns[n].status)
    ensures s.turn == Some(n)
    ensures forall m: nat | m < |s.turns| && m != n :: !Active(s.turns[m].status)
  {
    NewOk(child);
    RunKeepsInv(New(child), steps, s);
    hide StatusOk, CompletionsOk, QuotaOk, WakeOk, CallOk, OwnersOk;
    assert TurnOk(s, n);
    forall m: nat | m < |s.turns| && m != n
      ensures !Active(s.turns[m].status)
    {
      assert TurnOk(s, m);
    }
  }

  /** A turn never completes twice, and has completed when its goroutine is over. */
  lemma FinishesOnce(child: bool, steps: seq<Step>, s: Session, n: nat)
    requires Run(New(child), steps, s) && n < |s.turns|
    ensures s.turns[n].completions <= 1
    ensures s.turns[n].at.Over? ==> s.turns[n].completions == 1 && !Active(s.turns[n].status)
  {
    NewOk(child);
    RunKeepsInv(New(child), steps, s);
    InvParts(s, n);
  }

  /**
   * A turn that is over has the status its end implies: succeeded without an error, canceled if it was interrupted and its
   * context canceled, or aborted, and failed in all other cases.
   */
  lemma StatusSaysHow(child: bool, steps: seq<Step>, s: Session, n: nat)
    requires Run(New(child), steps, s) && n < |s.turns| && s.turns[n].at.Over?
    ensures !s.turns[n].ending.NotYet?
    ensures s.turns[n].ending.Aborted? ==> s.turns[n].status.Canceled?
    ensures s.turns[n].ending.Ran? ==>
              var err, interrupted := s.turns[n].ending.failure, s.turns[n].ending.interrupted;
              s.turns[n].status ==
                if err.Nil? then Succeeded else if interrupted && err.ContextCanceled? then Canceled else Failed
  {
    NewOk(child);
    RunKeepsInv(New(child), steps, s);
    InvParts(s, n);
  }

  /** A turn that was canceled before it ran: it never drains, and does not end well. */
  predicate Doomed(t: Turn) {
    match t.at
    case Finishing(err) => t.canceled && t.status.Interrupting? && !err.Nil?
    case Publishing(_) => t.ending.Aborted? || (t.ending.Ran? && t.ending.interrupted && !t.ending.failure.Nil?)
    case Completing(_) => t.ending.Aborted? || (t.ending.Ran? && t.ending.interrupted && !t.ending.failure.Nil?)
    case Completed => t.ending.Aborted? || (t.ending.Ran? && t.ending.interrupted && !t.ending.failure.Nil?)
    case Restarting(_) => t.ending.Aborted? || (t.ending.Ran? && t.ending.interrupted && !t.ending.failure.Nil?)
    case Over => t.ending.Aborted? || (t.ending.Ran? && t.ending.interrupted && !t.ending.failure.Nil?)
    case _ => t.canceled && t.status.Interrupting? && (t.at.Created? || t.at.Waiting? || t.at.Acquired? || t.at.Ready?)
  }

  predicate DoomedTurn(s: Session, n: nat) { n < |s.turns| && Doomed(s.turns[n]) }

  /** Calls only wake turns, and end the replacements of finished ones. */
  lemma EndCallDoomed(s: Session, k: nat, result: Result, n: nat)
    requires k in s.calls && DoomedTurn(s, n)
    requires s.calls[k].origin == Some(n) ==> s.turns[n].at.Restarting?
    ensures DoomedTurn(EndCall(s, k, result), n)
  {
  }

  lemma CallDoomed(s: Session, step: Step, n: nat)
    requires Inv(s) && Enabled(s, step) && DoomedTurn(s, n)
    requires step.Check? || step.Await? || step.TryQuota?
    ensures DoomedTurn(Next(s, step), n)
  {
    OriginNotWaiting(s, step.call);
    hide Inv, EndCall, LocalTurn, LocalEnabled, NextCheck, NextTry, NextCommit, NextDrop, NextAbort, NextAcquire, NextUnblock, NextFinish, NextRestart,
      InterruptActive, DoomedTurn;
    match step {
      case Check(k, created) => CheckDoomed(s, k, created, n);
      case Await(k, expired) => AwaitDoomed(s, k, expired, n);
      case TryQuota(k, outcome) => TryDoomed(s, k, outcome, n);
    }
  }

  lemma CallEndDoomed(s: Session, step: Step, n: nat)
    requires Inv(s) && Enabled(s, step) && DoomedTurn(s, n)
    requires step.Commit? || step.Drop?
    ensures DoomedTurn(Next(s, step), n)
  {
    OriginNotWaiting(s, step.call);
    hide Inv, EndCall, LocalTurn, LocalEnabled, NextCheck, NextTry, NextCommit, NextDrop, NextAbort, NextAcquire, NextUnblock, NextFinish, NextRestart,
      InterruptActive, DoomedTurn;
    match step {
      case Commit(k, created) => CommitDoomed(s, k, s.calls[k].at.release, s.calls[k].at.blocked, created, n);
      case Drop(k) => DropDoomed(s, k, s.calls[k].at.release, s.calls[k].at.outcome, n);
    }
  }

  predicate OriginRestarts(s: Session, k: nat) {
    k in s.calls && (s.calls[k].origin.Some? ==> s.calls[k].origin.value < |s.turns| && s.turns[s.calls[k].origin.value].at.Restarting?)
  }

  lemma WokenDoomed(s: Session, m: nat, n: nat)
    requires m < |s.turns| && DoomedTurn(s, n)
    ensures DoomedTurn(SetTurn(s, m, Woken(s.turns[m])), n)
  {
  }

  lemma CheckDoomed(s: Session, k: nat, created: bool, n: nat)
    requires OriginRestarts(s, k) && DoomedTurn(s, n)
    ensures DoomedTurn(NextCheck(s, k, created), n)
  {
    hide EndCall, Doomed;
    EndCallDoomed(s, k, Refused(WasRemoved), n);
    EndCallDoomed(s, k, Refused(WasShutDown), n);
    if HasActive(s) {
      var m := s.turn.value;
      EndCallDoomed(s, k, Joined(m), n);
      WokenDoomed(s, m, n);
      EndCallDoomed(SetTurn(s, m, Woken(s.turns[m])), k, Joined(m), n);
    }
  }

  lemma AwaitDoomed(s: Session, k: nat, expired: bool, n: nat)
    requires OriginRestarts(s, k) && DoomedTurn(s, n)
    ensures DoomedTurn(if expired then EndCall(s, k, Refused(NotAdmitted)) else MoveCall(s, k, Checking), n)
  {
    hide EndCall, Doomed;
    EndCallDoomed(s, k, Refused(NotAdmitted), n);
  }

  lemma TryDoomed(s: Session, k: nat, outcome: Outcome, n: nat)
    requires OriginRestarts(s, k) && DoomedTurn(s, n)
    ensures DoomedTurn(NextTry(s, k, outcome), n)
  {
    hide EndCall, Doomed;
    EndCallDoomed(s, k, Refused(QuotaBusy), n);
    EndCallDoomed(s, k, Refused(QuotaClosed), n);
  }

  lemma DropDoomed(s: Session, k: nat, release: Option<nat>, outcome: Option<Result>, n: nat)
    requires OriginRestarts(s, k) && DoomedTurn(s, n)
    ensures DoomedTurn(NextDrop(s, k, release, outcome), n)
  {
    hide EndCall, Doomed;
    if outcome.Some? {
      EndCallDoomed(s.(owners := WithoutOwner(s.owners, release)), k, outcome.value, n);
    }
  }

  lemma AddTurnDoomed(s: Session, k: nat, release: Option<nat>, blocked: bool, abortable: bool, n: nat)
    requires OriginRestarts(s, k) && DoomedTurn(s, n)
    ensures DoomedTurn(AddTurn(s, k, release, blocked, abortable), n)
  {
    hide EndCall, Doomed;
    var m := |s.turns|;
    var owners := if release.Some? then s.owners[release.value := OfTurn(m)] else s.owners;
    var t := s.(turn := Some(m), turns := s.turns + [NewTurn(release, blocked, abortable)], owners := owners);
    assert DoomedTurn(t, n);
    EndCallDoomed(t, k, Began(m), n);
  }

  lemma CommitDoomed(s: Session, k: nat, release: Option<nat>, blocked: bool, created: bool, n: nat)
    requires OriginRestarts(s, k) && DoomedTurn(s, n)
    ensures DoomedTurn(NextCommit(s, k, release, blocked, created), n)
  {
    hide AddTurn, Doomed;
    AddTurnDoomed(s, k, release, blocked, false, n);
    AddTurnDoomed(s, k, release, blocked, true, n);
  }

  lemma LocalDoomed(s: Session, step: Step, n: nat)
    requires Enabled(s, step) && LocalStep(step) && DoomedTurn(s, n)
    ensures step != BeginDrain(n) && DoomedTurn(Next(s, step), n)
  {
    hide NextCheck, NextTry, NextCommit, NextDrop, NextAbort, NextAcquire, NextUnblock, NextFinish, NextRestart, InterruptActive, EndCall;
  }

  lemma AbortDoomed(s: Session, m: nat, n: nat)
    requires m < |s.turns| && DoomedTurn(s, n)
    ensures DoomedTurn(NextAbort(s, m), n)
  {
  }

  lemma AcquireDoomed(s: Session, m: nat, outcome: Outcome, n: nat)
    requires TurnAt(s, m, Waiting) && DoomedTurn(s, n)
    ensures DoomedTurn(NextAcquire(s, m, outcome), n)
  {
  }

  lemma UnblockDoomed(s: Session, m: nat, c: nat, n: nat)
    requires m < |s.turns| && s.turns[m].at.Acquired? && DoomedTurn(s, n)
    ensures DoomedTurn(NextUnblock(s, m, c), n)
  {
  }

  lemma FinishDoomed(s: Session, m: nat, n: nat)
    requires m < |s.turns| && s.turns[m].at.Finishing? && DoomedTurn(s, n)
    ensures DoomedTurn(NextFinish(s, m, s.turns[m].at.err), n)
  {
  }

  lemma RestartDoomed(s: Session, m: nat, k: nat, n: nat)
    requires TurnAt(s, m, Completed) && DoomedTurn(s, n)
    ensures DoomedTurn(NextRestart(s, m, k), n)
  {
  }

  lemma InterruptDoomed(s: Session, n: nat)
    requires DoomedTurn(s, n)
    ensures DoomedTurn(InterruptActive(s), n)
  {
  }

  lemma StaysDoomed(s: Session, step: Step, n: nat)
    requires Inv(s) && Enabled(s, step) && DoomedTurn(s, n)
    ensures step != BeginDrain(n) && DoomedTurn(Next(s, step), n)
  {
    hide Inv, LocalTurn, LocalEnabled, NextCheck, NextTry, NextCommit, NextDrop, NextAbort, NextAcquire, NextUnblock, NextFinish, NextRestart,
      InterruptActive, EndCall, DoomedTurn;
    if LocalStep(step) {
      LocalDoomed(s, step, n);
    } else {
      match step {
        case Abort(m) => AbortDoomed(s, m, n);
        case AcquireQuota(m, outcome) => AcquireDoomed(s, m, outcome, n);
        case Unblock(m) => UnblockDoomed(s, m, s.turns[m].at.permit, n);
        case Finish(m) => FinishDoomed(s, m, n);
        case Restart(m, k) => RestartDoomed(s, m, k, n);
        case Interrupt => InterruptDoomed(s, n);
        case Shutdown => ShutdownDoomed(s, n);
        case Remove(_) => FlagsDoomed(s, Next(s, step), n);
        case ReserveCreation => FlagsDoomed(s, Next(s, step), n);
        case ReleaseCreation => FlagsDoomed(s, Next(s, step), n);
        case Begin(_, _) => FlagsDoomed(s, Next(s, step), n);
        case Commit(_, _) => CallEndDoomed(s, step, n);
        case Drop(_) => CallEndDoomed(s, step, n);
        case _ => CallDoomed(s, step, n);
      }
    }
  }

  lemma ShutdownDoomed(s: Session, n: nat)
    requires DoomedTurn(s, n)
    ensures DoomedTurn(InterruptActive(s.(shuttingDown := true)), n)
  {
    InterruptDoomed(s.(shuttingDown := true), n);
  }

  lemma FlagsDoomed(s: Session, t: Session, n: nat)
    requires DoomedTurn(s, n) && t.turns == s.turns
    ensures DoomedTurn(t, n)
  {
  }

  /** A turn that is canceled before it runs never begins a drain pass, in every run, and is not over with success. */
  lemma {:induction false} CanceledNeverDrains(s: Session, steps: seq<Step>, t: Session, n: nat)
    requires Inv(s) && Run(s, steps, t) && n < |s.turns| && s.turns[n].canceled && s.turns[n].status.Interrupting?
    requires s.turns[n].at.Created? || s.turns[n].at.Waiting? || s.turns[n].at.Acquired? || s.turns[n].at.Ready?
    ensures BeginDrain(n) !in steps && n < |t.turns|
    ensures t.turns[n].at.Over? ==> t.turns[n].status.Canceled? || t.turns[n].status.Failed?
  {
    hide Run;
    DoomedThroughout(s, steps, t, n);
    InvParts(t, n);
  }

  lemma {:induction false} DoomedThroughout(s: Session, steps: seq<Step>, t: Session, n: nat)
    requires Inv(s) && Run(s, steps, t) && DoomedTurn(s, n)
    ensures Inv(t) && DoomedTurn(t, n) && BeginDrain(n) !in steps
    decreases |steps|
  {
    hide Inv, Enabled, Next, DoomedTurn;
    if steps != [] {
      StepKeepsInv(s, steps[0]);
      StaysDoomed(s, steps[0], n);
      DoomedThroughout(Next(s, steps[0]), steps[1..], t, n);
    }
  }

  /** Whether a child may be created under a session that is removed. */
  predicate CreatesNone(s: Session) { s.removed ==> s.creating == 0 }

  predicate SameFlags(s: Session, t: Session) { t.removed == s.removed && t.creating == s.creating }

  lemma EndCallFlags(s: Session, k: nat, result: Result)
    requires k in s.calls
    ensures SameFlags(s, EndCall(s, k, result))
  {
  }

  lemma AddTurnFlags(s: Session, k: nat, release: Option<nat>, blocked: bool, abortable: bool)
    requires k in s.calls
    ensures SameFlags(s, AddTurn(s, k, release, blocked, abortable))
  {
    hide EndCall, NewTurn;
    var n := |s.turns|;
    var owners := if release.Some? then s.owners[release.value := OfTurn(n)] else s.owners;
    EndCallFlags(s.(turn := Some(n), turns := s.turns + [NewTurn(release, blocked, abortable)], owners := owners), k, Began(n));
  }

  lemma CheckFlags(s: Session, k: nat, created: bool)
    requires k in s.calls
    ensures SameFlags(s, NextCheck(s, k, created))
  {
    hide EndCall;
    forall t: Session, result | k in t.calls
      ensures SameFlags(t, EndCall(t, k, result))
    {
      EndCallFlags(t, k, result);
    }
  }

  lemma CommitFlags(s: Session, k: nat, release: Option<nat>, blocked: bool, created: bool)
    requires k in s.calls
    ensures SameFlags(s, NextCommit(s, k, release, blocked, created))
  {
    hide AddTurn;
    AddTurnFlags(s, k, release, blocked, false);
    AddTurnFlags(s, k, release, blocked, true);
  }

  lemma CallFlags(s: Session, step: Step)
    requires Enabled(s, step) && (step.Begin? || step.Check? || step.Await? || step.TryQuota? || step.Commit? || step.Drop?)
    ensures SameFlags(s, Next(s, step))
  {
    hide EndCall, NextCheck, NextCommit, LocalTurn, LocalEnabled;
    forall t: Session, k, result | k in t.calls
      ensures SameFlags(t, EndCall(t, k, result))
    {
      EndCallFlags(t, k, result);
    }
    if step.Check? {
      CheckFlags(s, step.call, step.created);
    } else if step.Commit? {
      CommitFlags(s, step.call, s.calls[step.call].at.release, s.calls[step.call].at.blocked, step.created);
    }
  }

  lemma OtherFlagsStay(s: Session, step: Step)
    requires Enabled(s, step) && !step.Remove? && !step.ReserveCreation? && !step.ReleaseCreation?
    ensures SameFlags(s, Next(s, step))
  {
    if step.Begin? || step.Check? || step.Await? || step.TryQuota? || step.Commit? || step.Drop? {
      CallFlags(s, step);
    } else {
      hide LocalTurn, LocalEnabled, NextCheck, NextTry, NextCommit, NextDrop;
    }
  }

  /** A session is never removed under a child that is being created, nor is one created under a removed session. */
  lemma {:induction false} RemovedCreatesNone(s: Session, steps: seq<Step>, t: Session)
    requires Run(s, steps, t) && CreatesNone(s)
    ensures CreatesNone(t)
    decreases |steps|
  {
    if steps != [] {
      var step := steps[0];
      if !(step.Remove? || step.ReserveCreation? || step.ReleaseCreation?) {
        OtherFlagsStay(s, step);
      }
      hide LocalTurn, LocalEnabled, NextCheck, NextTry, NextCommit, NextDrop, NextAbort, NextAcquire, NextUnblock, NextFinish, NextRestart,
        InterruptActive;
      RemovedCreatesNone(Next(s, step), steps[1..], t);
    }
  }

  predicate TakesBack(step: Step, n: nat) { step == BeginDrain(n) || step.Interrupt? || step.Shutdown? }

  predicate StillOwed(s: Session, n: nat) { n < |s.turns| && s.turns[n].owed }

  lemma EndCallOwed(s: Session, k: nat, result: Result, n: nat)
    requires k in s.calls && StillOwed(s, n)
    ensures StillOwed(EndCall(s, k, result), n)
  {
  }

  lemma CheckOwed(s: Session, k: nat, created: bool, n: nat)
    requires k in s.calls && StillOwed(s, n)
    ensures StillOwed(NextCheck(s, k, created), n)
  {
    hide EndCall, StillOwed;
    forall t: Session, result | k in t.calls && StillOwed(t, n)
      ensures StillOwed(EndCall(t, k, result), n)
    {
      EndCallOwed(t, k, result, n);
    }
    CheckedTurns(s, k, n);
  }

  lemma CheckedTurns(s: Session, k: nat, n: nat)
    requires k in s.calls && StillOwed(s, n)
    ensures StillOwed(MoveCall(s, k, Trying), n)
    ensures forall m: nat :: StillOwed(MoveCall(s, k, Awaiting(m)), n)
    ensures HasActive(s) ==> StillOwed(SetTurn(s, s.turn.value, Woken(s.turns[s.turn.value])), n)
  {
  }

  lemma CommitOwed(s: Session, k: nat, created: bool, n: nat)
    requires k in s.calls && s.calls[k].at.Got? && StillOwed(s, n)
    ensures StillOwed(NextCommit(s, k, s.calls[k].at.release, s.calls[k].at.blocked, created), n)
  {
  }

  lemma TryOwed(s: Session, k: nat, outcome: Outcome, n: nat)
    requires k in s.calls && StillOwed(s, n)
    ensures StillOwed(NextTry(s, k, outcome), n)
  {
    hide EndCall;
    EndCallOwed(s, k, Refused(QuotaBusy), n);
    EndCallOwed(s, k, Refused(QuotaClosed), n);
  }

  lemma DropOwed(s: Session, k: nat, release: Option<nat>, outcome: Option<Result>, n: nat)
    requires k in s.calls && StillOwed(s, n)
    ensures StillOwed(NextDrop(s, k, release, outcome), n)
  {
    hide EndCall;
    if outcome.Some? {
      EndCallOwed(s.(owners := WithoutOwner(s.owners, release)), k, outcome.value, n);
    }
  }

  lemma AwaitOwed(s: Session, k: nat, expired: bool, n: nat)
    requires k in s.calls && StillOwed(s, n)
    ensures StillOwed(if expired then EndCall(s, k, Refused(NotAdmitted)) else MoveCall(s, k, Checking), n)
  {
    hide EndCall;
    EndCallOwed(s, k, Refused(NotAdmitted), n);
  }

  lemma AbortOwed(s: Session, m: nat, n: nat)
    requires m < |s.turns| && StillOwed(s, n)
    ensures StillOwed(NextAbort(s, m), n)
  {
  }

  lemma AcquireOwed(s: Session, m: nat, outcome: Outcome, n: nat)
    requires m < |s.turns| && StillOwed(s, n)
    ensures StillOwed(NextAcquire(s, m, outcome), n)
  {
  }

  lemma UnblockOwed(s: Session, m: nat, c: nat, n: nat)
    requires m < |s.turns| && StillOwed(s, n)
    ensures StillOwed(NextUnblock(s, m, c), n)
  {
  }

  lemma FinishOwed(s: Session, m: nat, err: Error, n: nat)
    requires m < |s.turns| && StillOwed(s, n)
    ensures StillOwed(NextFinish(s, m, err), n)
  {
  }

  lemma RestartOwed(s: Session, m: nat, k: nat, n: nat)
    requires m < |s.turns| && StillOwed(s, n)
    ensures StillOwed(NextRestart(s, m, k), n)
  {
  }

  lemma LocalOwed(s: Session, step: Step, n: nat)
    requires LocalStep(step) && step.turn < |s.turns| && LocalEnabled(s.turns[step.turn], step)
    requires StillOwed(s, n) && step != BeginDrain(n)
    ensures StillOwed(SetTurn(s, step.turn, LocalTurn(s.turns[step.turn], step)), n)
  {
  }

  lemma OwedStays(s: Session, step: Step, n: nat)
    requires Enabled(s, step) && StillOwed(s, n) && !TakesBack(step, n)
    ensures StillOwed(Next(s, step), n)
  {
    hide LocalTurn, NextCheck, NextTry, NextCommit, NextDrop, NextAbort, NextAcquire, NextUnblock, NextFinish, NextRestart, InterruptActive, EndCall;
    if LocalStep(step) {
      LocalOwed(s, step, n);
    } else {
      match step {
        case Check(k, created) => CheckOwed(s, k, created, n);
        case Commit(k, created) => CommitOwed(s, k, created, n);
        case TryQuota(k, outcome) => TryOwed(s, k, outcome, n);
        case Drop(k) => DropOwed(s, k, s.calls[k].at.release, s.calls[k].at.outcome, n);
        case Await(k, expired) => AwaitOwed(s, k, expired, n);
        case Abort(m) => AbortOwed(s, m, n);
        case AcquireQuota(m, outcome) => AcquireOwed(s, m, outcome, n);
        case Unblock(m) => UnblockOwed(s, m, s.turns[m].at.permit, n);
        case Finish(m) => FinishOwed(s, m, s.turns[m].at.err, n);
        case Restart(m, k) => RestartOwed(s, m, k, n);
        case _ =>
      }
    }
  }

  lemma {:induction false} OwedThroughout(s: Session, steps: seq<Step>, t: Session, n: nat)
    requires Inv(s) && StillOwed(s, n) && Run(s, steps, t)
    requires forall i | 0 <= i < |steps| :: !TakesBack(steps[i], n)
    ensures Inv(t) && StillOwed(t, n)
    decreases |steps|
  {
    hide Inv, Enabled, Next, TakesBack, StillOwed;
    if steps != [] {
      assert !TakesBack(steps[0], n);
      StepKeepsInv(s, steps[0]);
      OwedStays(s, steps[0], n);
      OwedThroughout(Next(s, steps[0]), steps[1..], t, n);
    }
  }

  /** The call wakes the active turn, or steers it while it is running with input that was newly admitted. */
  predicate RecordsWake(s: Session, k: nat)
    requires HasActive(s) && k in s.calls
  {
    s.calls[k].kind == Empty(true) || (s.calls[k].kind.Admit? && s.turns[s.turn.value].status.Running?)
  }

  /**
   * No wake is lost: after a wake on an active turn, or input admitted to a running one, in every run without an interrupt or a shutdown, either the turn
   * begins another drain pass, or by the time it is over a later turn has replaced it, unless the session was
   * removed or shut down, the user session was closed, or the turn was aborted before it started.
   */
  lemma WakeIsAnswered(child: bool, before: seq<Step>, s: Session, k: nat, later: seq<Step>, t: Session)
    requires Run(New(child), before, s) && Enabled(s, Check(k, true)) && HasActive(s)
    requires RecordsWake(s, k) && !s.removed && !s.shuttingDown
    requires Run(Next(s, Check(k, true)), later, t)
    requires forall i | 0 <= i < |later| :: !TakesBack(later[i], s.turn.value)
    ensures s.turn.value < |t.turns|
    ensures var u := t.turns[s.turn.value];
            u.at.Over? ==> (u.heir.Some? && s.turn.value < u.heir.value < |t.turns|) || Excused(t, u)
  {
    hide Inv, TakesBack;
    var n := s.turn.value;
    NewOk(child);
    RunKeepsInv(New(child), before, s);
    StepKeepsInv(s, Check(k, true));
    WokenIsOwed(s, k);
    OwedThroughout(Next(s, Check(k, true)), later, t, n);
    InvParts(t, n);
  }

  lemma WokenIsOwed(s: Session, k: nat)
    requires Inv(s) && Enabled(s, Check(k, true)) && HasActive(s)
    requires RecordsWake(s, k) && !s.removed && !s.shuttingDown
    ensures var t := Next(s, Check(k, true)); s.turn.value < |t.turns| && t.turns[s.turn.value].owed
  {
    CallParts(s, k);
    InvParts(s, s.turn.value);
    hide Inv;
  }

  /** A running turn of a child has a quota of its own that is not released. */
  lemma RunningHasQuota(child: bool, steps: seq<Step>, s: Session, n: nat)
    requires child && Run(New(child), steps, s) && n < |s.turns| && s.turns[n].status.Running?
    ensures s.turns[n].quota.Some? && s.turns[n].quota.value in s.owners && s.owners[s.turns[n].quota.value] == OfTurn(n)
  {
    NewOk(child);
    RunKeepsBooks(New(child), steps, s);
    InvParts(s, n);
    TurnOwns(s, n);
    hide TurnOk, CallOk;
  }

  lemma CallQuotaIsOut(s: Session, k: nat, c: nat)
    requires Inv(s) && k in s.calls && CallUnit(s.calls[k]) == Some(c)
    ensures c in s.owners
  {
    hide TurnOk, CallOk;
    CallOwns(s, k);
  }

  lemma WaiterQuotaIsOut(s: Session, n: nat)
    requires Inv(s) && n < |s.turns| && s.turns[n].at.Acquired?
    ensures s.turns[n].at.permit in s.owners
  {
    hide TurnOk, CallOk;
    WaiterOwns(s, n);
  }

  /** Nothing leaves the books, and what was released is never out again. */
  predicate Grows(s: Session, t: Session) {
    t.child == s.child && s.seen <= t.seen && forall c | c in s.seen && c !in s.owners :: c !in t.owners
  }

  function GotUnit(step: Step): Option<nat> {
    match step
    case TryQuota(_, Unit(c)) => Some(c)
    case AcquireQuota(_, Unit(c)) => Some(c)
    case _ => None
  }

  /** The only quota that can be out after a step and was not before is the one handed over in it. */
  predicate OnlyGets(s: Session, t: Session, got: Option<nat>) { forall c | c in t.owners :: c in s.owners || got == Some(c) }

  lemma CheckBooks(s: Session, k: nat, created: bool)
    requires k in s.calls
    ensures Grows(s, NextCheck(s, k, created)) && OnlyGets(s, NextCheck(s, k, created), None)
  {
  }

  lemma CommitBooks(s: Session, k: nat, created: bool)
    requires Inv(s) && k in s.calls && s.calls[k].at.Got?
    ensures var t := NextCommit(s, k, s.calls[k].at.release, s.calls[k].at.blocked, created); Grows(s, t) && OnlyGets(s, t, None)
  {
    var release, blocked := s.calls[k].at.release, s.calls[k].at.blocked;
    if release.Some? {
      CallQuotaIsOut(s, k, release.value);
    }
    hide Inv, AddTurn, DropQuota, Grows, OnlyGets;
    AddTurnBooks(s, k, release, blocked, false);
    AddTurnBooks(s, k, release, blocked, true);
    forall outcome
      ensures Grows(s, DropQuota(s, k, release, outcome)) && OnlyGets(s, DropQuota(s, k, release, outcome), None)
    {
      DropQuotaBooks(s, k, release, outcome);
    }
  }

  lemma DropQuotaBooks(s: Session, k: nat, release: Option<nat>, outcome: Option<Result>)
    requires k in s.calls
    ensures var t := DropQuota(s, k, release, outcome); Grows(s, t) && OnlyGets(s, t, None)
  {
  }

  lemma AddTurnBooks(s: Session, k: nat, release: Option<nat>, blocked: bool, abortable: bool)
    requires k in s.calls && (release.Some? ==> release.value in s.owners)
    ensures var t := AddTurn(s, k, release, blocked, abortable); Grows(s, t) && OnlyGets(s, t, None)
  {
  }

  lemma AbortBooks(s: Session, n: nat)
    requires n < |s.turns|
    ensures Grows(s, NextAbort(s, n)) && OnlyGets(s, NextAbort(s, n), None)
  {
  }

  lemma AcquireBooks(s: Session, n: nat, outcome: Outcome)
    requires n < |s.turns| && NewUnit(s, outcome)
    ensures var t := NextAcquire(s, n, outcome); Grows(s, t) && OnlyGets(s, t, if outcome.Unit? then Some(outcome.permit) else None)
  {
  }

  lemma FinishBooks(s: Session, n: nat, err: Error)
    requires n < |s.turns|
    ensures Grows(s, NextFinish(s, n, err)) && OnlyGets(s, NextFinish(s, n, err), None)
  {
  }

  lemma RestartBooks(s: Session, n: nat, k: nat)
    requires n < |s.turns|
    ensures Grows(s, NextRestart(s, n, k)) && OnlyGets(s, NextRestart(s, n, k), None)
  {
  }

  lemma TryBooks(s: Session, k: nat, outcome: Outcome)
    requires k in s.calls && NewUnit(s, outcome)
    ensures var t := NextTry(s, k, outcome); Grows(s, t) && OnlyGets(s, t, if outcome.Unit? then Some(outcome.permit) else None)
  {
  }

  lemma DropBooks(s: Session, k: nat, release: Option<nat>, outcome: Option<Result>)
    requires k in s.calls
    ensures var t := NextDrop(s, k, release, outcome); Grows(s, t) && OnlyGets(s, t, None)
  {
  }

  lemma AwaitBooks(s: Session, k: nat, expired: bool)
    requires k in s.calls
    ensures var t := if expired then EndCall(s, k, Refused(NotAdmitted)) else MoveCall(s, k, Checking); Grows(s, t) && OnlyGets(s, t, None)
  {
  }

  /** The steps that hand nothing over and release nothing. */
  lemma OtherBooks(s: Session, step: Step)
    requires Enabled(s, step)
    requires LocalStep(step) || step.Begin? || step.Interrupt? || step.Shutdown? || step.Remove? || step.ReserveCreation? || step.ReleaseCreation?
    ensures Grows(s, Next(s, step)) && OnlyGets(s, Next(s, step), None)
  {
    hide LocalTurn, LocalEnabled, NextCheck, NextTry, NextCommit, NextDrop, NextAbort, NextAcquire, NextUnblock, NextFinish, NextRestart, EndCall;
  }

  lemma UnblockBooks(s: Session, n: nat)
    requires Inv(s) && n < |s.turns| && s.turns[n].at.Acquired?
    ensures var t := NextUnblock(s, n, s.turns[n].at.permit); Grows(s, t) && OnlyGets(s, t, None)
  {
    WaiterQuotaIsOut(s, n);
    hide Inv;
  }

  lemma BooksOnlyGrow(s: Session, step: Step)
    requires Inv(s) && Enabled(s, step)
    ensures var t := Next(s, step); Grows(s, t) && OnlyGets(s, t, GotUnit(step))
  {
    hide Inv, LocalTurn, LocalEnabled, NextCheck, NextTry, NextCommit, NextDrop, NextAbort, NextAcquire, NextUnblock, NextFinish, NextRestart,
      InterruptActive, EndCall, Grows, OnlyGets;
    if LocalStep(step) {
      OtherBooks(s, step);
    } else {
      match step {
        case Check(k, created) => CheckBooks(s, k, created);
        case Commit(k, created) => CommitBooks(s, k, created);
        case Await(k, expired) => AwaitBooks(s, k, expired);
        case TryQuota(k, outcome) => TryBooks(s, k, outcome);
        case Drop(k) => DropBooks(s, k, s.calls[k].at.release, s.calls[k].at.outcome);
        case Unblock(n) => UnblockBooks(s, n);
        case Abort(n) => AbortBooks(s, n);
        case AcquireQuota(n, outcome) => AcquireBooks(s, n, outcome);
        case Finish(n) => FinishBooks(s, n, s.turns[n].at.err);
        case Restart(n, k) => RestartBooks(s, n, k);
        case _ => OtherBooks(s, step);
      }
    }
  }

  lemma {:induction false} RunKeepsBooks(s: Session, steps: seq<Step>, t: Session)
    requires Inv(s) && Run(s, steps, t)
    ensures Inv(t) && Grows(s, t)
    decreases |steps|
  {
    hide Inv, Enabled, Next;
    if steps != [] {
      StepKeepsInv(s, steps[0]);
      BooksOnlyGrow(s, steps[0]);
      RunKeepsBooks(Next(s, steps[0]), steps[1..], t);
    }
  }

  /** When every turn and every call is over, every quota there ever was has been released. */
  lemma QuotasReturned(child: bool, steps: seq<Step>, s: Session)
    requires Run(New(child), steps, s)
    requires forall n | 0 <= n < |s.turns| :: s.turns[n].at.Over?
    requires forall k | k in s.calls :: s.calls[k].at.Ended?
    ensures s.owners == map[]
  {
    NewOk(child);
    RunKeepsInv(New(child), steps, s);
    QuietOwnsNothing(s);
  }

  lemma QuietOwnsNothing(s: Session)
    requires Inv(s) && (forall n | 0 <= n < |s.turns| :: s.turns[n].at.Over?) && forall k | k in s.calls :: s.calls[k].at.Ended?
    ensures s.owners == map[]
  {
    forall c | c in s.owners
      ensures false
    {
      assert OwnedBy(s, c, s.owners[c]);
      if s.owners[c].OfTurn? {
        InvParts(s, s.owners[c].turn);
      }
    }
  }

  // ---------------------------------------------------------------------------
  // Who waits for a quota
  // ---------------------------------------------------------------------------

  /** The call or the turn has asked for a quota and has no answer yet. */
  predicate Wants(s: Session, who: Owner) {
    match who
    case OfCall(k) => CallAt(s, k, Trying)
    case OfWaiter(n) => TurnAt(s, n, Waiting)
    case OfTurn(_) => false
  }

  /** The steps that are such an answer. */
  function Answers(step: Step): Option<Owner> {
    match step
    case TryQuota(k, _) => Some(OfCall(k))
    case AcquireQuota(n, _) => Some(OfWaiter(n))
    case _ => None
  }

  lemma AnswerIsWanted(s: Session, step: Step)
    requires Enabled(s, step) && Answers(step).Some?
    ensures Wants(s, Answers(step).value)
    ensures GotUnit(step).Some? && (step.TryQuota? ==> s.child) ==> GotUnit(step).value in Next(s, step).seen
  {
  }

  lemma EndCallWants(s: Session, k: nat, result: Result, who: Owner)
    requires k in s.calls && Wants(s, who) && who != OfCall(k)
    requires s.calls[k].origin.Some? && s.calls[k].origin.value < |s.turns| ==> !s.turns[s.calls[k].origin.value].at.Waiting?
    ensures Wants(EndCall(s, k, result), who)
  {
  }

  lemma OriginNotWaiting(s: Session, k: nat)
    requires Inv(s) && k in s.calls && !s.calls[k].at.Ended?
    ensures s.calls[k].origin.Some? ==> s.calls[k].origin.value < |s.turns| && s.turns[s.calls[k].origin.value].at.Restarting?
  {
    CallParts(s, k);
  }

  lemma CheckWants(s: Session, k: nat, created: bool, who: Owner)
    requires Inv(s) && Enabled(s, Check(k, created)) && Wants(s, who)
    ensures Wants(NextCheck(s, k, created), who)
  {
    OriginNotWaiting(s, k);
    hide Inv, EndCall;
    if HasActive(s) {
      var woken := SetTurn(s, s.turn.value, Woken(s.turns[s.turn.value]));
      EndCallWants(woken, k, Joined(s.turn.value), who);
      EndCallWants(s, k, Joined(s.turn.value), who);
    }
    EndCallWants(s, k, Refused(WasRemoved), who);
    EndCallWants(s, k, Refused(WasShutDown), who);
  }

  lemma CommitWants(s: Session, k: nat, created: bool, who: Owner)
    requires Inv(s) && Enabled(s, Commit(k, created)) && Wants(s, who)
    ensures Wants(NextCommit(s, k, s.calls[k].at.release, s.calls[k].at.blocked, created), who)
  {
    OriginNotWaiting(s, k);
    hide Inv, AddTurn, DropQuota, Wants;
    forall outcome
      ensures Wants(DropQuota(s, k, s.calls[k].at.release, outcome), who)
    {
      DropQuotaWants(s, k, s.calls[k].at.release, outcome, who);
    }
    AddTurnWants(s, k, s.calls[k].at.release, s.calls[k].at.blocked, false, who);
    AddTurnWants(s, k, s.calls[k].at.release, s.calls[k].at.blocked, true, who);
  }

  lemma DropQuotaWants(s: Session, k: nat, release: Option<nat>, outcome: Option<Result>, who: Owner)
    requires k in s.calls && s.calls[k].at.Got? && Wants(s, who)
    ensures Wants(DropQuota(s, k, release, outcome), who)
  {
  }

  lemma AddTurnWants(s: Session, k: nat, release: Option<nat>, blocked: bool, abortable: bool, who: Owner)
    requires k in s.calls && s.calls[k].at.Got? && Wants(s, who)
    requires s.calls[k].origin.Some? ==> s.calls[k].origin.value < |s.turns| && !s.turns[s.calls[k].origin.value].at.Waiting?
    ensures Wants(AddTurn(s, k, release, blocked, abortable), who)
  {
    hide EndCall;
    var n := |s.turns|;
    var owners := if release.Some? then s.owners[release.value := OfTurn(n)] else s.owners;
    var t := s.(turn := Some(n), turns := s.turns + [NewTurn(release, blocked, abortable)], owners := owners);
    assert Wants(t, who);
    EndCallWants(t, k, Began(n), who);
  }

  lemma TryWants(s: Session, k: nat, outcome: Outcome, who: Owner)
    requires Inv(s) && Enabled(s, TryQuota(k, outcome)) && Wants(s, who) && who != OfCall(k)
    ensures Wants(NextTry(s, k, outcome), who)
  {
    OriginNotWaiting(s, k);
    hide Inv, EndCall;
    EndCallWants(s, k, Refused(QuotaBusy), who);
    EndCallWants(s, k, Refused(QuotaClosed), who);
  }

  lemma DropWants(s: Session, k: nat, release: Option<nat>, outcome: Option<Result>, who: Owner)
    requires Inv(s) && k in s.calls && s.calls[k].at.Dropping? && Wants(s, who)
    ensures Wants(NextDrop(s, k, release, outcome), who)
  {
    OriginNotWaiting(s, k);
    hide Inv, EndCall;
    if outcome.Some? {
      EndCallWants(s.(owners := WithoutOwner(s.owners, release)), k, outcome.value, who);
    }
  }

  lemma AwaitWants(s: Session, k: nat, expired: bool, who: Owner)
    requires Inv(s) && Enabled(s, Await(k, expired)) && Wants(s, who)
    ensures Wants(if expired then EndCall(s, k, Refused(NotAdmitted)) else MoveCall(s, k, Checking), who)
  {
    OriginNotWaiting(s, k);
    hide Inv, EndCall;
    EndCallWants(s, k, Refused(NotAdmitted), who);
  }

  lemma BeginWants(s: Session, k: nat, kind: Kind, who: Owner)
    requires Enabled(s, Begin(k, kind)) && Wants(s, who)
    ensures Wants(s.(calls := s.calls[k := Call(kind, Checking, None)]), who)
  {
  }

  lemma LocalWants(s: Session, step: Step, who: Owner)
    requires Enabled(s, step) && LocalStep(step) && Wants(s, who)
    ensures Wants(Next(s, step), who)
  {
  }

  lemma AbortWants(s: Session, n: nat, who: Owner)
    requires TurnAt(s, n, Created) && Wants(s, who)
    ensures Wants(NextAbort(s, n), who)
  {
  }

  lemma AcquireWants(s: Session, n: nat, outcome: Outcome, who: Owner)
    requires TurnAt(s, n, Waiting) && Wants(s, who) && who != OfWaiter(n)
    ensures Wants(NextAcquire(s, n, outcome), who)
  {
  }

  lemma UnblockWants(s: Session, n: nat, c: nat, who: Owner)
    requires n < |s.turns| && s.turns[n].at.Acquired? && Wants(s, who)
    ensures Wants(NextUnblock(s, n, c), who)
  {
  }

  lemma FinishWants(s: Session, n: nat, err: Error, who: Owner)
    requires n < |s.turns| && s.turns[n].at.Finishing? && Wants(s, who)
    ensures Wants(NextFinish(s, n, err), who)
  {
  }

  lemma RestartWants(s: Session, n: nat, k: nat, who: Owner)
    requires TurnAt(s, n, Completed) && k !in s.calls && Wants(s, who)
    ensures Wants(NextRestart(s, n, k), who)
  {
  }

  lemma FlagWants(s: Session, step: Step, who: Owner)
    requires Enabled(s, step) && Wants(s, who)
    requires step.Interrupt? || step.Shutdown? || step.Remove? || step.ReserveCreation? || step.ReleaseCreation?
    ensures Wants(Next(s, step), who)
  {
    hide LocalTurn, LocalEnabled, NextCheck, NextTry, NextCommit, NextDrop, NextAbort, NextAcquire, NextUnblock, NextFinish, NextRestart;
  }

  /** Whoever asked for a quota waits until it is answered. */
  lemma WantsStays(s: Session, step: Step, who: Owner)
    requires Inv(s) && Enabled(s, step) && Wants(s, who) && Answers(step) != Some(who)
    ensures Wants(Next(s, step), who)
  {
    hide Inv, LocalTurn, LocalEnabled, NextCheck, NextTry, NextCommit, NextDrop, NextAbort, NextAcquire, NextUnblock, NextFinish, NextRestart,
      InterruptActive, EndCall, Wants;
    if LocalStep(step) {
      LocalWants(s, step, who);
    } else {
      match step {
        case Check(k, created) => CheckWants(s, k, created, who);
        case Commit(k, created) => CommitWants(s, k, created, who);
        case Begin(k, kind) => BeginWants(s, k, kind, who);
        case Await(k, expired) => AwaitWants(s, k, expired, who);
        case TryQuota(k, outcome) => TryWants(s, k, outcome, who);
        case Drop(k) => DropWants(s, k, s.calls[k].at.release, s.calls[k].at.outcome, who);
        case Abort(n) => AbortWants(s, n, who);
        case AcquireQuota(n, outcome) => AcquireWants(s, n, outcome, who);
        case Unblock(n) => UnblockWants(s, n, s.turns[n].at.permit, who);
        case Finish(n) => FinishWants(s, n, s.turns[n].at.err, who);
        case Restart(n, k) => RestartWants(s, n, k, who);
        case _ => FlagWants(s, step, who);
      }
    }
  }
}
