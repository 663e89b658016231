/**
 * The agent session itself: the critical sections of its lock, each proved to be a step of the coordinator.
 */
module AgentSession {
  import opened Turns

  // Where each step leads.

  function Started(t: Turn): Turn {
    t.(abortable := false, at := if t.status == Interrupting then Finishing(ContextCanceled) else if t.status == Blocked then Waiting else Ready)
  }

  function WakeChecked(t: Turn): Turn
    requires t.at.AfterDrain?
  {
    if t.wake && !t.canceled then t.(wake := false, at := BeforeDrain) else t.(at := Exiting(t.at.err))
  }

  function Finished(t: Turn): Turn
    requires t.at.Finishing?
  {
    var final :=
      if t.status == Interrupting && t.at.err == ContextCanceled then Canceled else if t.at.err == Nil then Succeeded else Failed;
    t.(canceled := true, status := Interrupting, quota := None, at := Publishing(final), ending := Ran(t.at.err, t.status == Interrupting))
  }

  function AbortedTurn(t: Turn): Turn {
    t.(status := Canceled, canceled := true, quota := None, at := Over, completions := t.completions + 1, ending := Aborted)
  }

  lemma CheckLeads(s: Turns.Session, k: nat, created: bool)
    requires Inv(s) && k in s.calls && s.calls[k].at == Checking
    ensures Enabled(s, Check(k, created)) && Inv(Next(s, Check(k, created))) && Next(s, Check(k, created)) == NextCheck(s, k, created)
  {
    StepKeepsInv(s, Check(k, created));
    hide Inv;
  }

  lemma TryLeads(s: Turns.Session, k: nat, outcome: Outcome)
    requires Inv(s) && k in s.calls && s.calls[k].at == Trying && (outcome.Unit? ==> outcome.permit !in s.seen)
    ensures Enabled(s, TryQuota(k, outcome)) && Inv(Next(s, TryQuota(k, outcome))) && Next(s, TryQuota(k, outcome)) == NextTry(s, k, outcome)
  {
    StepKeepsInv(s, TryQuota(k, outcome));
    hide Inv;
  }

  lemma CommitLeads(s: Turns.Session, k: nat, created: bool)
    requires Inv(s) && k in s.calls && s.calls[k].at.Got?
    ensures Enabled(s, Commit(k, created)) && Inv(Next(s, Commit(k, created))) && Next(s, Commit(k, created)) == NextCommit(s, k, s.calls[k].at.release, s.calls[k].at.blocked, created)
  {
    StepKeepsInv(s, Commit(k, created));
    hide Inv;
  }

  lemma StartLeads(s: Turns.Session, n: nat)
    requires Inv(s) && n < |s.turns| && s.turns[n].at == Created
    ensures Enabled(s, Start(n)) && Inv(Next(s, Start(n))) && Next(s, Start(n)) == s.(turns := s.turns[n := Started(s.turns[n])])
  {
    StepKeepsInv(s, Start(n));
    hide Inv;
  }

  lemma AbortLeads(s: Turns.Session, n: nat)
    requires Inv(s) && n < |s.turns| && s.turns[n].at == Created && s.turns[n].abortable
    ensures Enabled(s, Abort(n)) && Inv(Next(s, Abort(n))) && Next(s, Abort(n)) ==
              s.(turns := s.turns[n := AbortedTurn(s.turns[n])], turn := if s.turn == Some(n) then None else s.turn,
                 owners := if s.turns[n].quota.Some? then s.owners - {s.turns[n].quota.value} else s.owners)
  {
    StepKeepsInv(s, Abort(n));
    hide Inv;
  }

  lemma UnblockLeads(s: Turns.Session, n: nat)
    requires Inv(s) && n < |s.turns| && s.turns[n].at.Acquired?
    ensures Enabled(s, Unblock(n)) && Inv(Next(s, Unblock(n))) && Next(s, Unblock(n)) == NextUnblock(s, n, s.turns[n].at.permit)
  {
    StepKeepsInv(s, Unblock(n));
    hide Inv;
  }

  lemma CheckWakeLeads(s: Turns.Session, n: nat)
    requires Inv(s) && n < |s.turns| && s.turns[n].at.AfterDrain?
    ensures Enabled(s, CheckWake(n)) && Inv(Next(s, CheckWake(n))) && Next(s, CheckWake(n)) == s.(turns := s.turns[n := WakeChecked(s.turns[n])])
  {
    StepKeepsInv(s, CheckWake(n));
    hide Inv;
  }

  lemma FinishLeads(s: Turns.Session, n: nat)
    requires Inv(s) && n < |s.turns| && s.turns[n].at.Finishing?
    ensures Enabled(s, Finish(n)) && Inv(Next(s, Finish(n))) && Next(s, Finish(n)) == s.(turns := s.turns[n := Finished(s.turns[n])], owners := if s.turns[n].quota.Some? then s.owners - {s.turns[n].quota.value} else s.owners)
  {
    StepKeepsInv(s, Finish(n));
    hide Inv;
  }

  lemma RestartLeads(s: Turns.Session, n: nat, k: nat)
    requires Inv(s) && n < |s.turns| && s.turns[n].at == Completed && k !in s.calls
    ensures Enabled(s, Restart(n, k)) && Inv(Next(s, Restart(n, k))) && Next(s, Restart(n, k)) == NextRestart(s, n, k)
  {
    StepKeepsInv(s, Restart(n, k));
    hide Inv;
  }

  /** Where a new turn goes on: an interrupted one finishes, a blocked one waits for its quota, any other runs. */
  method TurnToStart(t: Turn) returns (u: Turn)
    ensures u == Started(t) && u == t.(abortable := false, at := u.at)
    ensures u.at == if t.status == Interrupting then Finishing(ContextCanceled) else if t.status == Blocked then Waiting else Ready
  {
    u := t.(abortable := false);
    if t.status == Interrupting {
      u := u.(at := Finishing(ContextCanceled));
    } else if t.status == Blocked {
      u := u.(at := Waiting);
    } else {
      u := u.(at := Ready);
    }
  }

  /** The final status, which is published later, of a turn whose goroutine finishes. */
  method TurnToFinish(t: Turn) returns (u: Turn)
    requires t.at.Finishing?
    ensures u == Finished(t) && u.status == Interrupting && u.canceled && u.quota.None? && u.wake == t.wake && u.at.Publishing?
    ensures u.at.final == Succeeded <==> t.at.err == Nil
    ensures u.at.final == Canceled <==> t.status == Interrupting && t.at.err == ContextCanceled
    ensures u.at.final == Failed <==> t.at.err == Other || (t.at.err == ContextCanceled && t.status != Interrupting)
  {
    var err := t.at.err;
    var status := Succeeded;
    if err != Nil {
      status := Failed;
    }
    if t.status == Interrupting && err == ContextCanceled {
      status := Canceled;
    }
    u := t.(canceled := true, status := Interrupting, quota := None, at := Publishing(status), ending := Ran(err, t.status == Interrupting));
  }

  method TurnToAbort(t: Turn) returns (u: Turn)
    ensures u == AbortedTurn(t) && u.status == Canceled && u.canceled && u.quota.None? && u.at == Over && u.completions == t.completions + 1
  {
    u := t.(status := Canceled, canceled := true, quota := None, at := Over, completions := t.completions + 1, ending := Aborted);
  }

  class Session {
    const child: bool
    var removed: bool
    var shuttingDown: bool
    var turn: Option<nat>
    var turns: seq<Turn>
    var calls: map<nat, Call>
    var childCreations: nat
    ghost var owners: map<nat, Owner>
    ghost var seen: set<nat>

    ghost function View(): Turns.Session
      reads this
    {
      Turns.Session(child, removed, shuttingDown, turn, turns, calls, childCreations, owners, seen)
    }

    ghost predicate Valid()
      reads this
    {
      Inv(View())
    }

    constructor (isChild: bool)
      ensures Valid() && View() == New(isChild)
    {
      child, removed, shuttingDown, turn, turns, calls, childCreations := isChild, false, false, None, [], map[], 0;
      owners, seen := map[], {};
      new;
      NewOk(isChild);
    }

    method Active() returns (active: bool)
      requires Valid()
      ensures active <==> HasActive(View())
    {
      hide Inv;
      active := turn.Some? && turn.value < |turns| && Turns.Active(turns[turn.value].status);
    }

    /** The turn `n` is blocked, running or interrupted, and the session's current one. */
    ghost predicate IsActive(n: nat)
      reads this
    {
      turn == Some(n) && n < |turns| && (turns[n].status == Blocked || turns[n].status == Running || turns[n].status == Interrupting)
    }

    ghost predicate IsIdle()
      reads this
    {
      !(turn.Some? && IsActive(turn.value))
    }

    /** The method has done this step of the coordinator. */
    twostate predicate Steps(step: Step)
      reads this
    {
      Enabled(old(View()), step) && View() == Next(old(View()), step) && Valid()
    }

    /** A call returns its result; the turn whose replacement it was for is over. */
    method Return(k: nat, result: Result)
      requires k in calls
      modifies this`calls, this`turns
      ensures View() == EndCall(old(View()), k, result)
      ensures calls == old(calls)[k := old(calls)[k].(at := Ended(result))] && |turns| == |old(turns)|
      ensures forall m: nat | m < |turns| ::
                turns[m] == if old(calls)[k].origin == Some(m)
                  then old(turns)[m].(at := Over, heir := if result.Refused? then None else Some(result.turn), closed := result == Refused(QuotaClosed))
                  else old(turns)[m]
    {
      var call := calls[k];
      calls := calls[k := call.(at := Ended(result))];
      if call.origin.Some? && call.origin.value < |turns| {
        var n := call.origin.value;
        var heir := if result.Refused? then None else Some(result.turn);
        turns := turns[n := turns[n].(at := Over, heir := heir, closed := result == Refused(QuotaClosed))];
      }
    }

    /** First section of startEmptyTurn: a wake is recorded on an active turn, which the caller joins. */
    method CheckEmpty(k: nat)
      requires Valid() && k in calls && calls[k].at == Checking && calls[k].kind.Empty?
      modifies this`calls, this`turns
      ensures |turns| == |old(turns)| && k in calls
      ensures old(removed) ==> calls[k].at == Ended(Refused(WasRemoved))
      ensures !old(removed) && old(shuttingDown) ==> calls[k].at == Ended(Refused(WasShutDown))
      ensures forall n: nat | !old(removed) && !old(shuttingDown) && old(IsActive(n)) ::
                calls[k].at == Ended(Joined(n)) && (turns[n].wake <==> old(turns)[n].wake || old(calls)[k].kind.wake)
      ensures !old(removed) && !old(shuttingDown) && old(IsIdle()) ==> calls[k].at == Trying && turns == old(turns)
      ensures Steps(Check(k, false))
    {
      hide Inv, Enabled, Next, EndCall;
      CheckLeads(View(), k, false);
      if removed {
        Return(k, Refused(WasRemoved));
        return;
      }
      if shuttingDown {
        Return(k, Refused(WasShutDown));
        return;
      }
      var active := Active();
      if active {
        var n := turn.value;
        if calls[k].kind.wake {
          turns := turns[n := turns[n].(wake := true, owed := true)];
        }
        Return(k, Joined(n));
        return;
      }
      calls := calls[k := calls[k].(at := Trying)];
    }

    /** First section of admitAndStart: it waits for a blocked or interrupted turn, and steers a running one. */
    method CheckAdmit(k: nat, created: bool)
      requires Valid() && k in calls && calls[k].at == Checking && calls[k].kind.Admit?
      modifies this`calls, this`turns
      ensures |turns| == |old(turns)| && k in calls
      ensures old(removed) ==> calls[k].at == Ended(Refused(WasRemoved))
      ensures !old(removed) && old(shuttingDown) ==> calls[k].at == Ended(Refused(WasShutDown))
      ensures forall n: nat | !old(removed) && !old(shuttingDown) && old(IsActive(n)) ::
                if old(turns)[n].status == Running then
                  calls[k].at == Ended(Joined(n)) && (turns[n].wake <==> old(turns)[n].wake || created)
                else calls[k].at == Awaiting(n) && turns == old(turns)
      ensures !old(removed) && !old(shuttingDown) && old(IsIdle()) ==> calls[k].at == Trying && turns == old(turns)
      ensures Steps(Check(k, created))
    {
      hide Inv, Enabled, Next, EndCall;
      CheckLeads(View(), k, created);
      if removed {
        Return(k, Refused(WasRemoved));
        return;
      }
      if shuttingDown {
        Return(k, Refused(WasShutDown));
        return;
      }
      var active := Active();
      if !active {
        calls := calls[k := calls[k].(at := Trying)];
        return;
      }
      var n := turn.value;
      if turns[n].status == Blocked || turns[n].status == Interrupting {
        calls := calls[k := calls[k].(at := Awaiting(n))];
        return;
      }
      if created {
        turns := turns[n := turns[n].(wake := true, owed := true)];
      }
      Return(k, Joined(n));
    }

    /** The quota attempt of a call, between its two sections. */
    method TryTurnQuota(k: nat, outcome: Outcome)
      requires Valid() && k in calls && calls[k].at == Trying && (outcome.Unit? ==> outcome.permit !in seen)
      modifies this`calls, this`turns, this`owners, this`seen
      ensures k in calls
      ensures !child ==> calls[k].at == Got(None, false) && owners == old(owners)
      ensures child && outcome.Unit? ==> calls[k].at == Got(Some(outcome.permit), false) && owners == old(owners)[outcome.permit := OfCall(k)]
      ensures child && outcome.Closed? ==> calls[k].at == Ended(Refused(QuotaClosed)) && owners == old(owners)
      ensures child && outcome.Busy? ==>
                && owners == old(owners)
                && calls[k].at == if old(calls)[k].kind.Admit? && !old(calls)[k].kind.wait then Ended(Refused(QuotaBusy)) else Got(None, true)
      ensures Steps(TryQuota(k, outcome))
    {
      hide Inv, Enabled, Next, EndCall;
      TryLeads(View(), k, outcome);
      if !child {
        calls := calls[k := calls[k].(at := Got(None, false))];
        return;
      }
      match outcome {
        case Unit(c) =>
          owners, seen := owners[c := OfCall(k)], seen + {c};
          calls := calls[k := calls[k].(at := Got(Some(c), false))];
        case Busy =>
          if calls[k].kind.Admit? && !calls[k].kind.wait {
            Return(k, Refused(QuotaBusy));
          } else {
            calls := calls[k := calls[k].(at := Got(None, true))];
          }
        case Closed =>
          Return(k, Refused(QuotaClosed));
      }
    }

    /** A new turn becomes the current one, with the quota the call got for it, or blocked without one. */
    method NewTurnLocked(k: nat, release: Option<nat>, blocked: bool, abortable: bool)
      requires k in calls && (calls[k].origin.Some? ==> calls[k].origin.value < |turns|)
      modifies this`calls, this`turns, this`turn, this`owners
      ensures View() == AddTurn(old(View()), k, release, blocked, abortable)
      ensures calls == old(calls)[k := old(calls)[k].(at := Ended(Began(|old(turns)|)))]
      ensures turn == Some(|old(turns)|) && |turns| == |old(turns)| + 1 && calls[k].at == Ended(Began(|old(turns)|))
      ensures var t := turns[|old(turns)|];
              && t.status == (if blocked then Blocked else Running) && t.quota == release && t.at == Created && !t.wake && !t.canceled
              && t.completions == 0 && (t.abortable <==> abortable)
      ensures release.Some? ==> owners == old(owners)[release.value := OfTurn(|old(turns)|)]
      ensures release.None? ==> owners == old(owners)
    {
      var n := |turns|;
      var status := Running;
      if blocked {
        status := Blocked;
      }
      turn := Some(n);
      turns := turns + [Turn(status, false, false, release, Created, abortable, 0, false, None, false, NotYet)];
      if release.Some? {
        owners := owners[release.value := OfTurn(n)];
      }
      Return(k, Began(n));
    }

    /** Second section of startEmptyTurn: everything is checked again, and a quota for nothing is dropped. */
    method CommitEmpty(k: nat)
      requires Valid() && k in calls && calls[k].at.Got? && calls[k].kind.Empty?
      modifies this`calls, this`turns, this`turn, this`owners
      ensures k in calls
      ensures old(removed) || old(shuttingDown) || !old(IsIdle()) ==>
                calls[k].at == Dropping(old(calls)[k].at.release, None) && turns == old(turns) && turn == old(turn)
      ensures !old(removed) && !old(shuttingDown) && old(IsIdle()) ==>
                turn == Some(|old(turns)|) && |turns| == |old(turns)| + 1 && calls[k].at == Ended(Began(|old(turns)|)) &&
                turns[|old(turns)|].status == if old(calls)[k].at.blocked then Blocked else Running
      ensures Steps(Commit(k, false))
    {
      hide Inv, Enabled, Next, EndCall, AddTurn;
      CommitLeads(View(), k, false);
      CallParts(View(), k);
      var Got(release, blocked) := calls[k].at;
      var active := Active();
      if removed || shuttingDown || active {
        calls := calls[k := calls[k].(at := Dropping(release, None))];
        return;
      }
      NewTurnLocked(k, release, blocked, false);
    }

    /** Second section of admitAndStart. */
    method CommitAdmit(k: nat, created: bool)
      requires Valid() && k in calls && calls[k].at.Got? && calls[k].kind.Admit?
      modifies this`calls, this`turns, this`turn, this`owners
      ensures k in calls
      ensures !old(IsIdle()) ==> calls[k].at == Dropping(old(calls)[k].at.release, None) && turns == old(turns) && turn == old(turn)
      ensures old(IsIdle()) && (old(removed) || old(shuttingDown) || !created) ==>
                && turns == old(turns) && turn == old(turn)
                && calls[k].at == Dropping(old(calls)[k].at.release,
                                           Some(Refused(if old(removed) then WasRemoved else if old(shuttingDown) then WasShutDown else NotAdmitted)))
      ensures old(IsIdle()) && !old(removed) && !old(shuttingDown) && created ==>
                turn == Some(|old(turns)|) && |turns| == |old(turns)| + 1 && calls[k].at == Ended(Began(|old(turns)|)) &&
                turns[|old(turns)|].status == (if old(calls)[k].at.blocked then Blocked else Running) &&
                (turns[|old(turns)|].abortable <==> !old(calls)[k].kind.start)
      ensures Steps(Commit(k, created))
    {
      hide Inv, Enabled, Next, EndCall, AddTurn;
      CommitLeads(View(), k, created);
      CallParts(View(), k);
      var Got(release, blocked) := calls[k].at;
      var active := Active();
      if active {
        calls := calls[k := calls[k].(at := Dropping(release, None))];
        return;
      }
      if removed || shuttingDown || !created {
        var reason := if removed then WasRemoved else if shuttingDown then WasShutDown else NotAdmitted;
        calls := calls[k := calls[k].(at := Dropping(release, Some(Refused(reason))))];
        return;
      }
      NewTurnLocked(k, release, blocked, !calls[k].kind.start);
    }

    /** A turn is started where its status says: finishing, waiting for a quota, or running. */
    method StartTurn(n: nat)
      requires Valid() && n < |turns| && turns[n].at == Created
      modifies this`turns
      ensures |turns| == |old(turns)|
      ensures forall m: nat | m < |turns| && m != n :: turns[m] == old(turns)[m]
      ensures var t := old(turns)[n];
              && turns[n] == t.(abortable := false, at := turns[n].at)
              && turns[n].at == if t.status == Interrupting then Finishing(ContextCanceled) else if t.status == Blocked then Waiting else Ready
      ensures Steps(Start(n))
    {
      hide Inv, Enabled, Next, LocalTurn, NextFinish, NextAbort, WithoutOwner, EndCall, Started;
      StartLeads(View(), n);
      var t := TurnToStart(turns[n]);
      turns := turns[n := t];
    }

    /** A turn that was never started is taken back. */
    method AbortTurn(n: nat)
      requires Valid() && n < |turns| && turns[n].at == Created && turns[n].abortable
      modifies this`turns, this`turn, this`owners
      ensures |turns| == |old(turns)|
      ensures forall m: nat | m < |turns| && m != n :: turns[m] == old(turns)[m]
      ensures turns[n].status == Canceled && turns[n].canceled && turns[n].quota.None? && turns[n].at == Over
      ensures turns[n].completions == old(turns)[n].completions + 1 && turn == if old(turn) == Some(n) then None else old(turn)
      ensures owners == if old(turns)[n].quota.Some? then old(owners) - {old(turns)[n].quota.value} else old(owners)
      ensures Steps(Abort(n))
    {
      hide Inv, Enabled, Next, LocalTurn, NextFinish, NextAbort, WithoutOwner, EndCall, AbortedTurn;
      AbortLeads(View(), n);
      var t := turns[n];
      var u := TurnToAbort(t);
      turns := turns[n := u];
      if turn == Some(n) {
        turn := None;
      }
      if t.quota.Some? {
        owners := owners - {t.quota.value};
      }
    }

    method InterruptExecution()
      requires Valid()
      modifies this`turns
      ensures View() == Next(old(View()), Interrupt) && Valid()
      ensures |turns| == |old(turns)|
      ensures forall n: nat | n < |turns| ::
                if old(IsActive(n)) then turns[n] == old(turns)[n].(status := Interrupting, wake := false, owed := false, canceled := true)
                else turns[n] == old(turns)[n]
    {
      StepKeepsInv(View(), Interrupt);
      hide Inv;
      var active := Active();
      if !active {
        return;
      }
      var n := turn.value;
      turns := turns[n := turns[n].(status := Interrupting, wake := false, owed := false, canceled := true)];
    }

    method ShutdownSession()
      requires Valid()
      modifies this`turns, this`shuttingDown
      ensures View() == Next(old(View()), Shutdown) && Valid()
      ensures |turns| == |old(turns)|
      ensures forall n: nat | n < |turns| ::
                if old(IsActive(n)) then turns[n] == old(turns)[n].(status := Interrupting, wake := false, owed := false, canceled := true)
                else turns[n] == old(turns)[n]
      ensures shuttingDown
    {
      StepKeepsInv(View(), Shutdown);
      hide Inv;
      shuttingDown := true;
      if turn.Some? && turn.value < |turns| && Turns.Active(turns[turn.value].status) {
        var n := turn.value;
        turns := turns[n := turns[n].(status := Interrupting, wake := false, owed := false, canceled := true)];
      }
    }

    /** The creation of a child begins, unless the session is removed or shutting down. */
    method ReserveChildCreation() returns (ok: bool)
      requires Valid()
      modifies this`childCreations
      ensures View() == Next(old(View()), ReserveCreation) && Valid()
      ensures ok <==> childCreations == old(childCreations) + 1
    {
      StepKeepsInv(View(), ReserveCreation);
      hide Inv;
      if removed || shuttingDown {
        return false;
      }
      childCreations := childCreations + 1;
      return true;
    }

    method ReleaseChildCreation()
      requires Valid() && childCreations > 0
      modifies this`childCreations
      ensures View() == Next(old(View()), ReleaseCreation) && Valid()
    {
      StepKeepsInv(View(), ReleaseCreation);
      hide Inv;
      childCreations := childCreations - 1;
    }

    /**
     * Removal is refused while a turn is active or a child is being created, and fails when removing what is stored does;
     * a removed session stays removed.
     */
    method RemoveIfIdle(removable: bool) returns (ok: bool)
      requires Valid()
      modifies this`removed
      ensures View() == Next(old(View()), Remove(removable)) && Valid()
      ensures ok <==> removed
      ensures removed <==> old(removed) || (!HasActive(old(View())) && old(childCreations) == 0 && removable)
    {
      StepKeepsInv(View(), Remove(removable));
      hide Inv;
      if removed {
        return true;
      }
      var active := Active();
      if active || childCreations != 0 || !removable {
        return false;
      }
      removed := true;
      return true;
    }

    /** A blocked turn has its quota: it runs, unless it was canceled meanwhile. */
    method UnblockTurn(n: nat)
      requires Valid() && n < |turns| && turns[n].at.Acquired?
      modifies this`turns, this`owners
      ensures |turns| == |old(turns)|
      ensures forall m: nat | m < |turns| && m != n :: turns[m] == old(turns)[m]
      ensures var t, c := old(turns)[n], old(turns)[n].at.permit;
              if !t.canceled && turn == Some(n) then
                turns[n] == t.(quota := Some(c), status := Running, at := Ready) && owners == old(owners)[c := OfTurn(n)]
              else turns[n] == t.(at := Finishing(ContextCanceled)) && owners == old(owners) - {c}
      ensures Steps(Unblock(n))
    {
      hide Inv, Enabled, Next, LocalTurn, NextFinish, NextAbort, WithoutOwner, EndCall;
      UnblockLeads(View(), n);
      var t := turns[n];
      var c := t.at.permit;
      if t.canceled || turn != Some(n) {
        owners := owners - {c};
        turns := turns[n := t.(at := Finishing(ContextCanceled))];
        return;
      }
      owners := owners[c := OfTurn(n)];
      turns := turns[n := t.(quota := Some(c), status := Running, at := Ready)];
    }

    /** The end of a drain loop round: a wake is taken for another round. */
    method TakeWake(n: nat) returns (again: bool)
      requires Valid() && n < |turns| && turns[n].at.AfterDrain?
      modifies this`turns
      ensures |turns| == |old(turns)|
      ensures again <==> turns[n].at.BeforeDrain?
      ensures forall m: nat | m < |turns| && m != n :: turns[m] == old(turns)[m]
      ensures again <==> old(turns)[n].wake && !old(turns)[n].canceled
      ensures again ==> !turns[n].wake
      ensures !again ==> turns[n] == old(turns)[n].(at := Exiting(old(turns)[n].at.err))
      ensures Steps(CheckWake(n))
    {
      hide Inv, Enabled, Next, LocalTurn, NextFinish, NextAbort, WithoutOwner, EndCall;
      CheckWakeLeads(View(), n);
      if turns[n].wake && !turns[n].canceled {
        turns := turns[n := turns[n].(wake := false, at := BeforeDrain)];
        return true;
      }
      turns := turns[n := turns[n].(at := Exiting(turns[n].at.err))];
      return false;
    }

    /** First section of finishTurn: the final status is chosen and the quota released. */
    method FinishTurn(n: nat)
      requires Valid() && n < |turns| && turns[n].at.Finishing?
      modifies this`turns, this`owners
      ensures |turns| == |old(turns)|
      ensures forall m: nat | m < |turns| && m != n :: turns[m] == old(turns)[m]
      ensures var err, interrupted := old(turns)[n].at.err, old(turns)[n].status == Interrupting;
              && turns[n].at.Publishing?
              && (turns[n].at.final == Succeeded <==> err == Nil)
              && (turns[n].at.final == Canceled <==> interrupted && err == ContextCanceled)
              && (turns[n].at.final == Failed <==> err == Other || (err == ContextCanceled && !interrupted))
      ensures turns[n].status == Interrupting && turns[n].canceled && turns[n].quota.None? && turns[n].wake == old(turns)[n].wake
      ensures owners == if old(turns)[n].quota.Some? then old(owners) - {old(turns)[n].quota.value} else old(owners)
      ensures Steps(Finish(n))
    {
      hide Inv, Enabled, Next, LocalTurn, NextFinish, NextAbort, WithoutOwner, EndCall, Finished;
      FinishLeads(View(), n);
      var t := turns[n];
      var u := TurnToFinish(t);
      if t.quota.Some? {
        owners := owners - {t.quota.value};
      }
      turns := turns[n := u];
    }

    /** Last section of finishTurn: only a wake that is still set starts a replacement. */
    method RestartTurn(n: nat, k: nat) returns (restart: bool)
      requires Valid() && n < |turns| && turns[n].at == Completed && k !in calls
      modifies this`turns, this`calls
      ensures |turns| == |old(turns)|
      ensures restart <==> turns[n].at == Restarting(k)
      ensures restart <==> old(turns)[n].wake && !old(shuttingDown) && !old(removed)
      ensures restart ==> calls == old(calls)[k := Call(Empty(false), Checking, Some(n))]
      ensures !restart ==> calls == old(calls) && turns[n] == old(turns)[n].(at := Over)
      ensures forall m: nat | m < |turns| && m != n :: turns[m] == old(turns)[m]
      ensures Steps(Restart(n, k))
    {
      hide Inv, Enabled, Next, LocalTurn, NextFinish, NextAbort, WithoutOwner, EndCall;
      RestartLeads(View(), n, k);
      restart := turns[n].wake && !shuttingDown && !removed;
      if restart {
        turns := turns[n := turns[n].(at := Restarting(k))];
        calls := calls[k := Call(Empty(false), Checking, Some(n))];
      } else {
        turns := turns[n := turns[n].(at := Over)];
      }
    }
  }
}
