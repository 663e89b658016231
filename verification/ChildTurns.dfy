/**
 * All agent sessions of a user session together with the two-level quota their child turns share.
 * A quota a session uses is an attempt that holds its pair of units; the units go back only after the
 * session let go of it.
 */
module ChildTurns {
  import Q = Quota
  import T = Turns

  /**
   * `owner` says for which session an attempt was made, `asker` for which call or turn of it, as long as that waits for
   * the answer; `parent` has the parent of every child session.
   */
  datatype System = System(
    quota: Q.Quota, sessions: map<nat, T.Session>, parent: map<nat, nat>, owner: map<nat, nat>, asker: map<nat, T.Owner>)

  datatype Step =
    | AddRoot(session: nat)
    | AddChild(session: nat, of: nat)
    | Request(session: nat, who: T.Owner, request: Q.Step)
    | QuotaStep(q: Q.Step)
    | SessionStep(session: nat, t: T.Step)
    | Answer(session: nat, t: T.Step, attempt: nat)

  function New(perParent: int, limit: int): System { System(Q.New(perParent, limit), map[], map[], map[], map[]) }

  predicate AskedBy(s: System, c: nat, sid: nat, who: T.Owner) { c in s.asker && s.asker[c] == who && c in s.owner && s.owner[c] == sid }

  predicate Holds(s: System, c: nat) { c in s.quota.attempts && s.quota.attempts[c].phase.Holding? }

  /** The session the attempt was made for has been given it, and has released it. */
  predicate LetGo(s: System, c: nat) {
    c in s.owner && s.owner[c] in s.sessions && c in s.sessions[s.owner[c]].seen && c !in s.sessions[s.owner[c]].owners
  }

  predicate Enabled(s: System, step: Step) {
    match step
    case AddRoot(sid) => sid !in s.sessions && sid !in s.quota.parents && sid !in s.parent
    case AddChild(sid, of) => sid !in s.sessions && sid !in s.quota.parents && sid !in s.parent && of in s.quota.parents
    case Request(sid, who, q) =>
      && (if who.OfCall? then q.Try? else q.Ask?) && sid in s.sessions && sid in s.parent && T.Wants(s.sessions[sid], who)
      && q.parent == s.parent[sid] && q.id !in s.owner && Q.Enabled(s.quota, q) && forall c | c in s.asker :: !AskedBy(s, c, sid, who)
    case QuotaStep(q) =>
      !q.Try? && !q.Ask? && !q.AddParent? && Q.Enabled(s.quota, q) && (q.ReleaseParent? ==> LetGo(s, q.id))
    case SessionStep(sid, t) =>
      sid in s.sessions && T.Enabled(s.sessions[sid], t) && T.GotUnit(t).None? && (sid in s.parent ==> T.Answers(t).None?)
    case Answer(sid, t, c) =>
      && sid in s.sessions && sid in s.parent && T.Enabled(s.sessions[sid], t) && T.Answers(t).Some?
      && AskedBy(s, c, sid, T.Answers(t).value) && Answered(s, c, T.GotUnit(t))
  }

  /** A session gets the pair of units its attempt holds, or learns that its attempt came to nothing. */
  predicate Answered(s: System, c: nat, got: T.Option<nat>) {
    if got.Some? then got.value == c && Holds(s, c) else c in s.quota.attempts && s.quota.attempts[c].phase.Gone?
  }

  predicate IsSessionStep(step: Step) { step.SessionStep? || step.Answer? }

  function AddSession(s: System, sid: nat, child: bool): System
    requires sid !in s.quota.parents
  {
    s.(quota := Q.Next(s.quota, Q.AddParent(sid)), sessions := s.sessions[sid := T.New(child)])
  }

  function Next(s: System, step: Step): System
    requires Enabled(s, step)
  {
    match step
    case AddRoot(sid) => AddSession(s, sid, false)
    case AddChild(sid, of) => AddSession(s, sid, true).(parent := s.parent[sid := of])
    case Request(sid, who, q) => s.(quota := Q.Next(s.quota, q), owner := s.owner[q.id := sid], asker := s.asker[q.id := who])
    case QuotaStep(q) => s.(quota := Q.Next(s.quota, q))
    case SessionStep(sid, t) => s.(sessions := s.sessions[sid := T.Next(s.sessions[sid], t)])
    case Answer(sid, t, c) => s.(sessions := s.sessions[sid := T.Next(s.sessions[sid], t)], asker := s.asker - {c})
  }

  predicate Run(s: System, steps: seq<Step>, t: System)
    decreases |steps|
  {
    if steps == [] then s == t else Enabled(s, steps[0]) && Run(Next(s, steps[0]), steps[1..], t)
  }

  // ---------------------------------------------------------------------------
  // The invariant
  // ---------------------------------------------------------------------------

  /** What a session has and did not release is an attempt of its own that holds its pair of units. */
  predicate UnitOk(s: System, sid: nat, c: nat) {
    c in s.owner && s.owner[c] == sid && Holds(s, c) && sid in s.parent && s.quota.attempts[c].parent == s.parent[sid]
  }

  ghost predicate SessionOk(s: System, sid: nat)
    requires sid in s.sessions
  {
    && T.Inv(s.sessions[sid]) && (s.sessions[sid].child <==> sid in s.parent)
    && forall c | c in s.sessions[sid].owners :: UnitOk(s, sid, c)
  }

  ghost predicate Inv(s: System) {
    && Q.Inv(s.quota)
    && (forall sid | sid in s.sessions :: SessionOk(s, sid))
    && (forall c | c in s.owner :: c in s.quota.attempts && s.owner[c] in s.parent && s.quota.attempts[c].parent == s.parent[s.owner[c]])
    && (forall sid | sid in s.parent :: sid in s.sessions && s.parent[sid] in s.quota.parents)
  }

  predicate OneAttempt(step: Q.Step) { !step.AddParent? && !step.Close? }

  /** A quota step changes the phase of its own attempt only. */
  lemma OwnAttempt(q: Q.Quota, step: Q.Step)
    requires Q.Enabled(q, step) && OneAttempt(step)
    ensures var t := Q.Next(q, step); step.id in t.attempts && t.attempts == q.attempts[step.id := t.attempts[step.id]]
    ensures q.parents.Keys <= Q.Next(q, step).parents.Keys
  {
  }

  lemma OwnPhase(q: Q.Quota, step: Q.Step)
    requires Q.Enabled(q, step) && OneAttempt(step)
    ensures var t := Q.Next(q, step);
            && step.id in t.attempts && (step.Try? || step.Ask? <==> step.id !in q.attempts)
            && (step.Try? || step.Ask? ==> t.attempts[step.id].parent == step.parent)
            && (step.id in q.attempts ==> t.attempts[step.id].parent == q.attempts[step.id].parent && !q.attempts[step.id].phase.Gone?)
            && (step.id in q.attempts && q.attempts[step.id].phase.Holding? ==> step.ReleaseParent? && t.attempts[step.id].phase.ReleasedParent?)
            && (step.id in q.attempts && q.attempts[step.id].phase.ReleasedParent? ==> t.attempts[step.id].phase.Gone?)
  {
  }

  lemma NoAttempt(q: Q.Quota, step: Q.Step)
    requires Q.Enabled(q, step) && !OneAttempt(step)
    ensures Q.Next(q, step).attempts == q.attempts && q.parents.Keys <= Q.Next(q, step).parents.Keys
  {
  }

  lemma AttemptsKeep(q: Q.Quota, step: Q.Step)
    requires Q.Enabled(q, step)
    ensures var t := Q.Next(q, step);
            && (forall c | c in q.attempts :: c in t.attempts && t.attempts[c].parent == q.attempts[c].parent)
            && (forall c | c in q.attempts && q.attempts[c].phase.Holding? && step != Q.ReleaseParent(c) :: t.attempts[c].phase.Holding?)
            && (step.Try? || step.Ask? ==> step.id in t.attempts && t.attempts[step.id].parent == step.parent)
            && q.parents.Keys <= t.parents.Keys
  {
    hide Q.Next, Q.Enabled;
    if OneAttempt(step) {
      OwnAttempt(q, step);
      OwnPhase(q, step);
    } else {
      NoAttempt(q, step);
    }
  }

  /** What a session has survives when its attempts keep their parent and their units. */
  ghost predicate KeepsAttempts(s: System, t: System, sid: nat)
    requires sid in s.sessions
  {
    forall c | c in s.sessions[sid].owners && UnitOk(s, sid, c) :: UnitOk(t, sid, c)
  }

  lemma SessionOkKeeps(s: System, t: System, sid: nat)
    requires sid in s.sessions && sid in t.sessions && t.sessions[sid] == s.sessions[sid] && (sid in t.parent <==> sid in s.parent)
    requires SessionOk(s, sid) && KeepsAttempts(s, t, sid)
    ensures SessionOk(t, sid)
  {
    hide T.Inv, UnitOk;
  }

  lemma AddKeepsAttempts(q: Q.Quota, p: nat)
    requires p !in q.parents
    ensures Q.Next(q, Q.AddParent(p)).attempts == q.attempts && Q.Next(q, Q.AddParent(p)).parents.Keys == q.parents.Keys + {p}
  {
  }

  lemma NewSessionOk(t: System, sid: nat, child: bool)
    requires sid in t.sessions && t.sessions[sid] == T.New(child) && (child <==> sid in t.parent)
    ensures SessionOk(t, sid)
  {
    T.NewOk(child);
    hide T.Inv;
  }

  lemma AddIs(s: System, step: Step)
    requires Enabled(s, step) && (step.AddRoot? || step.AddChild?)
    ensures var t, sid := Next(s, step), step.session;
            && sid !in s.sessions && sid !in s.quota.parents && sid !in s.parent
            && t.quota == Q.Next(s.quota, Q.AddParent(sid)) && t.sessions == s.sessions[sid := T.New(step.AddChild?)] && t.owner == s.owner
            && (if step.AddRoot? then t.parent == s.parent else step.of in s.quota.parents && t.parent == s.parent[sid := step.of])
  {
    hide Q.Next, Q.Enabled;
  }

  lemma AddKeeps(s: System, step: Step)
    requires Inv(s) && Enabled(s, step) && (step.AddRoot? || step.AddChild?)
    ensures Inv(Next(s, step))
  {
    hide Q.Inv, SessionOk, Q.Next, Q.Enabled, Next, Enabled, UnitOk, KeepsAttempts;
    var t, sid := Next(s, step), step.session;
    AddIs(s, step);
    AddParentOk(s.quota, sid);
    AddKeepsAttempts(s.quota, sid);
    forall i | i in t.sessions
      ensures SessionOk(t, i)
    {
      if i == sid {
        NewSessionOk(t, sid, step.AddChild?);
      } else {
        AddedAttempts(s, t, i);
        SessionOkKeeps(s, t, i);
      }
    }
  }

  lemma AddParentOk(q: Q.Quota, p: nat)
    requires Q.Inv(q) && p !in q.parents
    ensures Q.Inv(Q.Next(q, Q.AddParent(p)))
  {
    hide Q.Inv, Q.Next;
    Q.StepKeepsInv(q, Q.AddParent(p));
  }

  lemma AddedAttempts(s: System, t: System, i: nat)
    requires i in s.sessions && t.quota.attempts == s.quota.attempts && t.owner == s.owner
    requires i in s.parent ==> i in t.parent && t.parent[i] == s.parent[i]
    ensures KeepsAttempts(s, t, i)
  {
  }

  function QuotaPart(step: Step): Q.Step
    requires step.Request? || step.QuotaStep?
  {
    if step.Request? then step.request else step.q
  }

  lemma QuotaIs(s: System, step: Step)
    requires Enabled(s, step) && (step.Request? || step.QuotaStep?)
    ensures var t, q := Next(s, step), QuotaPart(step);
            && Q.Enabled(s.quota, q) && t.quota == Q.Next(s.quota, q) && t.sessions == s.sessions && t.parent == s.parent
            && (forall c | c in s.owner :: c in t.owner && t.owner[c] == s.owner[c])
            && (forall c | c in t.owner && c !in s.owner :: (q.Try? || q.Ask?) && c == q.id && t.owner[c] in s.parent && q.parent == s.parent[t.owner[c]])
            && (q.ReleaseParent? ==> LetGo(s, q.id))
  {
    hide Q.Next, Q.Enabled;
  }

  lemma QuotaAttempts(s: System, step: Step, sid: nat)
    requires Enabled(s, step) && (step.Request? || step.QuotaStep?) && sid in s.sessions
    ensures KeepsAttempts(s, Next(s, step), sid)
  {
    hide Q.Next, Q.Enabled, Next, Enabled;
    QuotaIs(s, step);
    AttemptsKeep(s.quota, QuotaPart(step));
  }

  lemma QuotaStepOk(s: System, step: Step)
    requires Q.Inv(s.quota) && Enabled(s, step) && (step.Request? || step.QuotaStep?)
    ensures Q.Inv(Next(s, step).quota)
  {
    hide Q.Inv, Q.Next, Q.Enabled, Next, Enabled;
    QuotaIs(s, step);
    Q.StepKeepsInv(s.quota, QuotaPart(step));
  }

  lemma QuotaKeeps(s: System, step: Step)
    requires Inv(s) && Enabled(s, step) && (step.Request? || step.QuotaStep?)
    ensures Inv(Next(s, step))
  {
    hide Q.Inv, SessionOk, Q.Next, Q.Enabled, Next, Enabled, KeepsAttempts;
    var t := Next(s, step);
    QuotaIs(s, step);
    QuotaStepOk(s, step);
    AttemptsKeep(s.quota, QuotaPart(step));
    forall sid | sid in t.sessions
      ensures SessionOk(t, sid)
    {
      QuotaAttempts(s, step, sid);
      SessionOkKeeps(s, t, sid);
    }
  }

  /** What a session has after a step it had before, or got in it. */
  lemma OnlyGetsOwn(s: System, step: Step)
    requires Enabled(s, step) && IsSessionStep(step)
    ensures T.GotUnit(step.t).Some? ==>
              var c := T.GotUnit(step.t).value; c in s.owner && s.owner[c] == step.session && Holds(s, c) && step.session in s.parent
  {
    hide T.Enabled;
  }

  lemma OwnSessionOk(s: System, step: Step)
    requires Inv(s) && Enabled(s, step) && IsSessionStep(step)
    ensures SessionOk(Next(s, step), step.session)
  {
    var sid := step.session;
    var t, u := Next(s, step), s.sessions[sid];
    assert SessionOk(s, sid);
    T.StepKeepsInv(u, step.t);
    T.BooksOnlyGrow(u, step.t);
    OnlyGetsOwn(s, step);
    hide Q.Inv, T.Inv, T.Next, T.Enabled, SessionOk, Enabled;
    forall c | c in t.sessions[sid].owners
      ensures UnitOk(t, sid, c)
    {
      assert c in s.sessions[sid].owners ==> UnitOk(s, sid, c);
    }
    SessionOkOf(t, sid);
  }

  lemma SessionOkOf(t: System, sid: nat)
    requires sid in t.sessions && T.Inv(t.sessions[sid]) && (t.sessions[sid].child <==> sid in t.parent)
    requires forall c | c in t.sessions[sid].owners :: UnitOk(t, sid, c)
    ensures SessionOk(t, sid)
  {
    hide T.Inv, UnitOk;
  }

  lemma SessionIs(s: System, step: Step)
    requires Enabled(s, step) && IsSessionStep(step)
    ensures var t, sid := Next(s, step), step.session;
            && sid in s.sessions && sid in t.sessions && T.Enabled(s.sessions[sid], step.t)
            && t == s.(sessions := s.sessions[sid := T.Next(s.sessions[sid], step.t)], asker := t.asker)
            && t.asker == if step.Answer? then s.asker - {step.attempt} else s.asker
  {
    hide T.Next, T.Enabled;
  }

  lemma SameAttempts(s: System, t: System, i: nat)
    requires i in s.sessions && t.quota == s.quota && t.owner == s.owner && t.parent == s.parent
    ensures KeepsAttempts(s, t, i)
  {
  }

  lemma SessionKeeps(s: System, step: Step)
    requires Inv(s) && Enabled(s, step) && IsSessionStep(step)
    ensures Inv(Next(s, step))
  {
    hide Q.Inv, SessionOk, Next, Enabled, KeepsAttempts, T.Next, T.Enabled;
    var t := Next(s, step);
    SessionIs(s, step);
    OwnSessionOk(s, step);
    forall i | i in t.sessions
      ensures SessionOk(t, i)
    {
      if i != step.session {
        SameAttempts(s, t, i);
        SessionOkKeeps(s, t, i);
      }
    }
  }

  lemma QuotaLimitsStay(q: Q.Quota, step: Q.Step)
    requires Q.Enabled(q, step)
    ensures Q.Next(q, step).perParent == q.perParent && Q.Next(q, step).global.limit == q.global.limit
  {
  }

  lemma LimitsStay(s: System, step: Step)
    requires Enabled(s, step)
    ensures Next(s, step).quota.perParent == s.quota.perParent && Next(s, step).quota.global.limit == s.quota.global.limit
  {
    hide T.Next, T.Enabled, Q.Next, Q.Enabled;
    match step {
      case Request(_, _, q) => QuotaLimitsStay(s.quota, q);
      case QuotaStep(q) => QuotaLimitsStay(s.quota, q);
      case SessionStep(_, _) =>
      case Answer(_, _, _) =>
      case _ =>
        AddIs(s, step);
        QuotaLimitsStay(s.quota, Q.AddParent(step.session));
    }
  }

  lemma StepKeepsInv(s: System, step: Step)
    requires Inv(s) && Enabled(s, step)
    ensures Inv(Next(s, step)) && Next(s, step).quota.perParent == s.quota.perParent
    ensures Next(s, step).quota.global.limit == s.quota.global.limit
  {
    hide Inv, T.Next, T.Enabled, Q.Next, Q.Enabled;
    LimitsStay(s, step);
    match step {
      case AddRoot(_) => AddKeeps(s, step);
      case AddChild(_, _) => AddKeeps(s, step);
      case Request(_, _, _) => QuotaKeeps(s, step);
      case QuotaStep(_) => QuotaKeeps(s, step);
      case SessionStep(_, _) => SessionKeeps(s, step);
      case Answer(_, _, _) => SessionKeeps(s, step);
    }
  }

  lemma {:induction false} RunKeepsInv(s: System, steps: seq<Step>, t: System)
    requires Inv(s) && Run(s, steps, t)
    ensures Inv(t) && t.quota.perParent == s.quota.perParent && t.quota.global.limit == s.quota.global.limit
    decreases |steps|
  {
    hide Inv, Enabled, Next;
    if steps != [] {
      StepKeepsInv(s, steps[0]);
      RunKeepsInv(Next(s, steps[0]), steps[1..], t);
    }
  }

  // ---------------------------------------------------------------------------
  // The two limits, for the turns themselves
  // ---------------------------------------------------------------------------

  predicate IsRunning(s: T.Session) { s.turn.Some? && s.turn.value < |s.turns| && s.turns[s.turn.value].status.Running? }

  /** The child sessions whose turn is running: each has one such turn at most. */
  function RunningChildren(s: System): set<nat> { set sid | sid in s.sessions && sid in s.parent && IsRunning(s.sessions[sid]) }

  function RunningChildrenOf(s: System, p: nat): set<nat> { set sid | sid in RunningChildren(s) && s.parent[sid] == p }

  /** The quota a running child turn has. */
  ghost predicate Uses(s: System, sid: nat, c: nat) { sid in s.sessions && sid in s.parent && c in s.sessions[sid].owners && UnitOk(s, sid, c) }

  lemma RunningUses(s: System, sid: nat)
    requires Inv(s) && sid in RunningChildren(s)
    ensures exists c :: Uses(s, sid, c)
  {
    assert SessionOk(s, sid);
    var u := s.sessions[sid];
    T.InvParts(u, u.turn.value);
    T.TurnOwns(u, u.turn.value);
    hide Q.Inv;
    assert Uses(s, sid, u.turns[u.turn.value].quota.value);
  }

  /** Different sessions use different quotas, so there are as many holders as running sessions. */
  lemma {:induction false} AsManyHolders(s: System, sids: set<nat>, holders: set<nat>)
    requires Inv(s) && sids <= RunningChildren(s)
    requires forall sid, c | sid in sids && Uses(s, sid, c) :: c in holders
    ensures |sids| <= |holders|
    decreases |sids|
  {
    hide Inv, UnitOk;
    if sids != {} {
      var sid :| sid in sids;
      RunningUses(s, sid);
      var c :| Uses(s, sid, c);
      forall i, d | i in sids - {sid} && Uses(s, i, d)
        ensures d in holders - {c}
      {
        UsedByOne(s, sid, i, c, d);
      }
      AsManyHolders(s, sids - {sid}, holders - {c});
      assert |sids - {sid}| == |sids| - 1 && |holders - {c}| == |holders| - 1;
    }
  }

  lemma UsedByOne(s: System, i: nat, j: nat, c: nat, d: nat)
    requires Uses(s, i, c) && Uses(s, j, d) && i != j
    ensures c != d
  {
  }

  lemma UsersAreHolders(s: System, sid: nat, c: nat)
    requires Inv(s) && Uses(s, sid, c)
    ensures c in Q.Holders(s.quota) && c in Q.HoldersOf(s.quota, s.parent[sid])
  {
  }

  lemma NewOk(perParent: int, limit: int)
    requires perParent >= 0 && limit >= 0
    ensures Inv(New(perParent, limit))
  {
    Q.NewOk(perParent, limit);
  }

  /**
   * In every run of all sessions and their quota, the child sessions of one parent that are running a turn are no
   * more than the per-parent limit, and all running child sessions together no more than the global limit.
   */
  lemma RunningTurnsWithinLimits(perParent: int, limit: int, steps: seq<Step>, s: System)
    requires perParent >= 0 && limit >= 0 && Run(New(perParent, limit), steps, s)
    ensures |RunningChildren(s)| <= limit
    ensures forall p | p in s.quota.parents :: |RunningChildrenOf(s, p)| <= perParent
  {
    NewOk(perParent, limit);
    RunKeepsInv(New(perParent, limit), steps, s);
    hide Inv, Uses;
    HoldersInSystem(s);
    forall sid, c | sid in RunningChildren(s) && Uses(s, sid, c)
      ensures c in Q.Holders(s.quota)
    {
      UsersAreHolders(s, sid, c);
    }
    AsManyHolders(s, RunningChildren(s), Q.Holders(s.quota));
    forall p | p in s.quota.parents
      ensures |RunningChildrenOf(s, p)| <= perParent
    {
      forall sid, c | sid in RunningChildrenOf(s, p) && Uses(s, sid, c)
        ensures c in Q.HoldersOf(s.quota, p)
      {
        UsersAreHolders(s, sid, c);
      }
      AsManyHolders(s, RunningChildrenOf(s, p), Q.HoldersOf(s.quota, p));
    }
  }

  lemma HoldersInSystem(s: System)
    requires Inv(s)
    ensures |Q.Holders(s.quota)| <= s.quota.global.limit
    ensures forall p | p in s.quota.parents :: |Q.HoldersOf(s.quota, p)| <= s.quota.perParent
  {
    hide Q.Inv;
    Q.HoldersWithinLimits(s.quota);
  }

  // ---------------------------------------------------------------------------
  // Every unit comes back
  // ---------------------------------------------------------------------------

  /** An attempt that came to nothing, that has its pair of units, or that is giving the pair back. */
  predicate Finished(phase: Q.Phase) { phase.Gone? || phase.Holding? || phase.ReleasedParent? }

  /** Somebody waits for the answer. */
  predicate Awaited(s: System, c: nat)
    requires c in s.asker
  {
    c in s.owner && s.owner[c] in s.sessions && s.owner[c] in s.parent && T.Wants(s.sessions[s.owner[c]], s.asker[c])
  }

  /** The attempt came to nothing, or its session was given its units. */
  predicate Settled(s: System, c: nat)
    requires c in s.quota.attempts
  {
    var phase := s.quota.attempts[c].phase;
    phase.Gone? || (Finished(phase) && c in s.owner && s.owner[c] in s.sessions && c in s.sessions[s.owner[c]].seen)
  }

  ghost predicate Books(s: System) {
    && (forall c | c in s.asker :: c in s.quota.attempts && Awaited(s, c))
    && (forall c, d | c in s.asker && d in s.asker && c != d :: !(s.owner[c] == s.owner[d] && s.asker[c] == s.asker[d]))
    && (forall c | c in s.quota.attempts :: c in s.asker || Settled(s, c))
  }

  /** Only requests add attempts, and what is finished stays so. */
  lemma AttemptsMove(q: Q.Quota, step: Q.Step)
    requires Q.Enabled(q, step)
    ensures var t := Q.Next(q, step);
            && t.attempts.Keys == q.attempts.Keys + (if step.Try? || step.Ask? then {step.id} else {})
            && (step.Try? || step.Ask? ==> step.id !in q.attempts)
            && (forall c | c in q.attempts && Finished(q.attempts[c].phase) :: Finished(t.attempts[c].phase))
            && (forall c | c in q.attempts && q.attempts[c].phase.Gone? :: t.attempts[c].phase.Gone?)
  {
    hide Q.Next, Q.Enabled;
    if OneAttempt(step) {
      OwnAttempt(q, step);
      OwnPhase(q, step);
    } else {
      NoAttempt(q, step);
    }
  }

  lemma AddBooks(s: System, step: Step)
    requires Books(s) && Enabled(s, step) && (step.AddRoot? || step.AddChild?)
    ensures Books(Next(s, step))
  {
    hide Q.Next, Q.Enabled, Next, Enabled, T.Wants, Finished, Awaited, Settled;
    var t := Next(s, step);
    AddIs(s, step);
    AddKeepsAttempts(s.quota, step.session);
    AddedAskers(s, step);
    forall c | c in t.asker
      ensures Awaited(t, c)
    {
      AddedAwaited(s, t, c);
    }
    forall c | c in t.quota.attempts
      ensures c in t.asker || Settled(t, c)
    {
      if c !in t.asker {
        AddedSettled(s, t, c);
      }
    }
  }

  lemma AddedAwaited(s: System, t: System, c: nat)
    requires c in s.asker && Awaited(s, c) && t.asker == s.asker && t.owner == s.owner
    requires forall sid | sid in s.sessions :: sid in t.sessions && t.sessions[sid] == s.sessions[sid]
    requires forall sid | sid in s.parent :: sid in t.parent
    ensures Awaited(t, c)
  {
    hide T.Wants;
  }

  lemma AddedSettled(s: System, t: System, c: nat)
    requires c in s.quota.attempts && Settled(s, c) && t.quota.attempts == s.quota.attempts && t.owner == s.owner
    requires forall sid | sid in s.sessions :: sid in t.sessions && t.sessions[sid] == s.sessions[sid]
    ensures Settled(t, c)
  {
  }

  lemma AddedAskers(s: System, step: Step)
    requires Enabled(s, step) && (step.AddRoot? || step.AddChild?)
    ensures Next(s, step).asker == s.asker
  {
    hide Q.Next, Q.Enabled;
  }

  lemma QuotaAskers(s: System, step: Step)
    requires Enabled(s, step) && (step.Request? || step.QuotaStep?)
    ensures var t, q := Next(s, step), QuotaPart(step);
            && t.asker == (if step.Request? then s.asker[q.id := step.who] else s.asker)
            && t.owner == (if step.Request? then s.owner[q.id := step.session] else s.owner)
            && (step.Request? <==> q.Try? || q.Ask?)
            && (step.Request? ==>
                  && step.session in s.sessions && step.session in s.parent && T.Wants(s.sessions[step.session], step.who) && q.id !in s.owner
                  && forall c | c in s.asker :: !AskedBy(s, c, step.session, step.who))
  {
    hide Q.Next, Q.Enabled, T.Wants;
  }

  lemma QuotaBooks(s: System, step: Step)
    requires Books(s) && Enabled(s, step) && (step.Request? || step.QuotaStep?)
    ensures Books(Next(s, step))
  {
    hide Q.Next, Q.Enabled, Next, Enabled, T.Wants, Finished, Awaited, Settled, QuotaPart;
    var t, q := Next(s, step), QuotaPart(step);
    QuotaIs(s, step);
    QuotaAskers(s, step);
    AttemptsMove(s.quota, q);
    OwnersOfAskers(s);
    forall c | c in t.asker
      ensures c in t.quota.attempts && Awaited(t, c)
    {
      QuotaAwaited(s, step, c);
    }
    forall c | c in t.quota.attempts
      ensures c in t.asker || Settled(t, c)
    {
      QuotaSettled(s, step, c);
    }
  }

  lemma QuotaAwaited(s: System, step: Step, c: nat)
    requires Books(s) && Enabled(s, step) && (step.Request? || step.QuotaStep?) && c in Next(s, step).asker
    ensures c in Next(s, step).quota.attempts && Awaited(Next(s, step), c)
  {
    hide Q.Next, Q.Enabled, Next, Enabled, T.Wants, Finished, Settled;
    QuotaIs(s, step);
    QuotaAskers(s, step);
    AttemptsMove(s.quota, QuotaPart(step));
    assert c in s.asker ==> Awaited(s, c);
  }

  lemma QuotaSettled(s: System, step: Step, c: nat)
    requires Books(s) && Enabled(s, step) && (step.Request? || step.QuotaStep?) && c in Next(s, step).quota.attempts
    ensures c in Next(s, step).asker || Settled(Next(s, step), c)
  {
    hide Q.Next, Q.Enabled, Next, Enabled, Finished, Awaited;
    QuotaIs(s, step);
    QuotaAskers(s, step);
    AttemptsMove(s.quota, QuotaPart(step));
    assert c in s.quota.attempts ==> c in s.asker || Settled(s, c);
  }

  lemma AnswerIs(s: System, step: Step)
    requires Enabled(s, step) && IsSessionStep(step)
    ensures step.Answer? ==>
              var c := step.attempt;
              && T.Answers(step.t).Some? && c in s.asker && s.asker[c] == T.Answers(step.t).value && c in s.owner && s.owner[c] == step.session
              && step.session in s.parent && Answered(s, c, T.GotUnit(step.t))
    ensures step.SessionStep? && step.session in s.parent ==> T.Answers(step.t).None?
  {
    hide T.Enabled;
  }

  /** Whoever waited before still waits, but for the one that was answered. */
  lemma StillAwaited(s: System, step: Step, c: nat)
    requires Inv(s) && Books(s) && Enabled(s, step) && IsSessionStep(step) && c in s.asker && (step.Answer? ==> c != step.attempt)
    ensures c in Next(s, step).asker && Awaited(Next(s, step), c)
  {
    hide Next, Enabled, T.Next, T.Enabled, T.Inv, T.Wants, Q.Inv, UnitOk;
    SessionIs(s, step);
    AnswerIs(s, step);
    assert Awaited(s, c) && SessionOk(s, step.session);
    if s.owner[c] == step.session {
      T.WantsStays(s.sessions[step.session], step.t, s.asker[c]);
    }
  }

  lemma StillSettled(s: System, step: Step, c: nat)
    requires Inv(s) && Books(s) && Enabled(s, step) && IsSessionStep(step) && c in s.quota.attempts && Settled(s, c)
    ensures c in Next(s, step).quota.attempts && Settled(Next(s, step), c)
  {
    hide Next, Enabled, T.Next, T.Enabled, T.Inv, Q.Inv, Finished, UnitOk;
    SessionIs(s, step);
    assert SessionOk(s, step.session);
    T.BooksOnlyGrow(s.sessions[step.session], step.t);
  }

  lemma AnsweredIsSettled(s: System, step: Step)
    requires Inv(s) && Books(s) && Enabled(s, step) && step.Answer?
    ensures step.attempt in Next(s, step).quota.attempts && Settled(Next(s, step), step.attempt)
  {
    hide Next, Enabled, T.Next, T.Enabled, T.Inv, Q.Inv, UnitOk;
    SessionIs(s, step);
    AnswerIs(s, step);
    assert SessionOk(s, step.session);
    T.AnswerIsWanted(s.sessions[step.session], step.t);
  }

  lemma SessionBooks(s: System, step: Step)
    requires Inv(s) && Books(s) && Enabled(s, step) && IsSessionStep(step)
    ensures Books(Next(s, step))
  {
    hide Inv, Next, Enabled, Settled, Awaited, T.Next;
    var t := Next(s, step);
    SessionIs(s, step);
    forall c | c in t.asker
      ensures Awaited(t, c)
    {
      StillAwaited(s, step, c);
    }
    forall c | c in t.quota.attempts && c !in t.asker
      ensures Settled(t, c)
    {
      if c in s.asker {
        AnsweredIsSettled(s, step);
      } else {
        StillSettled(s, step, c);
      }
    }
    OwnersOfAskers(s);
  }

  lemma OwnersOfAskers(s: System)
    requires Books(s)
    ensures forall c | c in s.asker :: c in s.owner
  {
    hide T.Wants;
    assert forall c | c in s.asker :: Awaited(s, c);
  }

  lemma StepKeepsBooks(s: System, step: Step)
    requires Inv(s) && Books(s) && Enabled(s, step)
    ensures Books(Next(s, step))
  {
    hide Inv, Books, Next, Enabled;
    match step {
      case AddRoot(_) => AddBooks(s, step);
      case AddChild(_, _) => AddBooks(s, step);
      case Request(_, _, _) => QuotaBooks(s, step);
      case QuotaStep(_) => QuotaBooks(s, step);
      case SessionStep(_, _) => SessionBooks(s, step);
      case Answer(_, _, _) => SessionBooks(s, step);
    }
  }

  lemma {:induction false} RunKeepsBooks(s: System, steps: seq<Step>, t: System)
    requires Inv(s) && Books(s) && Run(s, steps, t)
    ensures Inv(t) && Books(t)
    decreases |steps|
  {
    hide Inv, Books, Enabled, Next;
    if steps != [] {
      StepKeepsInv(s, steps[0]);
      StepKeepsBooks(s, steps[0]);
      RunKeepsBooks(Next(s, steps[0]), steps[1..], t);
    }
  }

  /** No turn and no call of the session is under way. */
  predicate Quiet(s: T.Session) {
    (forall n | 0 <= n < |s.turns| :: s.turns[n].at.Over?) && forall k | k in s.calls :: s.calls[k].at.Ended?
  }

  lemma QuietWantsNothing(s: T.Session, who: T.Owner)
    requires T.Inv(s) && Quiet(s)
    ensures !T.Wants(s, who) && s.owners == map[]
  {
    T.QuietOwnsNothing(s);
    hide T.Inv;
  }

  /**
   * When all sessions are quiet, every attempt ever made has come to nothing, or was let go of and only has to give its
   * units back, which nothing can prevent.
   */
  lemma OnlyReleasesAreLeft(perParent: int, limit: int, steps: seq<Step>, s: System, c: nat)
    requires perParent >= 0 && limit >= 0 && Run(New(perParent, limit), steps, s)
    requires (forall sid | sid in s.sessions :: Quiet(s.sessions[sid])) && c in s.quota.attempts
    ensures s.quota.attempts[c].phase.Gone? || Enabled(s, QuotaStep(Q.ReleaseParent(c))) || Enabled(s, QuotaStep(Q.ReleaseGlobal(c)))
  {
    hide Run;
    NewOk(perParent, limit);
    RunKeepsBooks(New(perParent, limit), steps, s);
    LeftToRelease(s, c);
  }

  lemma LeftToRelease(s: System, c: nat)
    requires Inv(s) && Books(s) && (forall sid | sid in s.sessions :: Quiet(s.sessions[sid])) && c in s.quota.attempts
    ensures s.quota.attempts[c].phase.Gone? || Enabled(s, QuotaStep(Q.ReleaseParent(c))) || Enabled(s, QuotaStep(Q.ReleaseGlobal(c)))
  {
    hide T.Inv, T.Wants, Q.Inv, Quiet, Enabled;
    if c in s.asker {
      assert Awaited(s, c) && SessionOk(s, s.owner[c]);
      QuietWantsNothing(s.sessions[s.owner[c]], s.asker[c]);
    } else if !s.quota.attempts[c].phase.Gone? {
      assert Settled(s, c) && SessionOk(s, s.owner[c]);
      QuietWantsNothing(s.sessions[s.owner[c]], T.OfCall(0));
      ReleaseIsEnabled(s, c);
    }
  }

  lemma ReleaseIsEnabled(s: System, c: nat)
    requires c in s.quota.attempts && s.quota.attempts[c].parent in s.quota.parents && LetGo(s, c)
    requires s.quota.attempts[c].phase.Holding? || s.quota.attempts[c].phase.ReleasedParent?
    ensures Enabled(s, QuotaStep(Q.ReleaseParent(c))) || Enabled(s, QuotaStep(Q.ReleaseGlobal(c)))
  {
  }

  /** ... and when that is done, every unit of every semaphore is back. */
  lemma EveryUnitComesBack(perParent: int, limit: int, steps: seq<Step>, s: System)
    requires perParent >= 0 && limit >= 0 && Run(New(perParent, limit), steps, s)
    requires forall sid | sid in s.sessions :: Quiet(s.sessions[sid])
    requires forall c :: !Enabled(s, QuotaStep(Q.ReleaseParent(c))) && !Enabled(s, QuotaStep(Q.ReleaseGlobal(c)))
    ensures s.quota.global.used == 0 && s.quota.global.waiters == []
    ensures forall p | p in s.quota.parents :: s.quota.parents[p].used == 0 && s.quota.parents[p].waiters == []
  {
    hide Run, Enabled, Quiet;
    forall c | c in s.quota.attempts
      ensures s.quota.attempts[c].phase.Gone?
    {
      OnlyReleasesAreLeft(perParent, limit, steps, s, c);
    }
    NewOk(perParent, limit);
    RunKeepsInv(New(perParent, limit), steps, s);
    hide Q.Inv;
    Q.AllUnitsBack(s.quota);
  }
}
