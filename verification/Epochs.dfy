/**
 * The compaction epochs of a session under competing attempts. Any number of processes load the history, plan a
 * compaction, begin an attempt and complete, fail or abandon it; each transaction is one step.
 */
module Epochs {
  datatype Option<T> = None | Some(value: T)

  datatype Epoch = Epoch(id: nat, ordinal: nat, cutoff: int)

  datatype Status = Active | Completed | Failed | Interrupted

  datatype Attempt = Attempt(source: nat, from: int, to: int, cutoff: int, owner: nat, status: Status)

  datatype Record = Record(attempt: nat, source: nat, target: nat, from: int, to: int, cutoff: int)

  /** What a compactor has loaded: the current epoch, and the sequences of the messages from its cutoff on. */
  datatype Loaded = Loaded(epoch: Epoch, live: seq<int>)

  /** The tables of one session, and what compactors hold from loads they made at any earlier time. */
  datatype Store = Store(messages: seq<int>, epochs: seq<Epoch>, records: seq<Record>, attempts: map<nat, Attempt>, loaded: map<nat, Loaded>)

  function New(epoch: nat): Store { Store([], [Epoch(epoch, 0, 0)], [], map[], map[]) }

  datatype Step =
    | Post(sequence: int)
    | Load(compactor: nat)
    | Begin(compactor: nat, cut: nat, attempt: nat, owner: nat)
    | Complete(attempt: nat, owner: nat, epoch: nat)
    | Fail(attempt: nat, owner: nat, status: Status)
    | Repair(dead: set<nat>)

  /** The epoch with the greatest ordinal. */
  function Current(epochs: seq<Epoch>): (e: Epoch)
    requires epochs != []
    ensures e in epochs
  {
    var last := epochs[|epochs| - 1];
    if |epochs| == 1 then last
    else
      var best := Current(epochs[..|epochs| - 1]);
      if best.ordinal < last.ordinal then last else best
  }

  function From(messages: seq<int>, cutoff: int): seq<int> {
    if messages == [] then []
    else From(messages[..|messages| - 1], cutoff) + if messages[|messages| - 1] >= cutoff then [messages[|messages| - 1]] else []
  }

  predicate Enabled(s: Store, step: Step) {
    match step
    case Post(sequence) => sequence >= 0 && forall i | 0 <= i < |s.messages| :: s.messages[i] < sequence
    case Load(_) => s.epochs != []
    case Begin(c, cut, id, _) => c in s.loaded && 0 < cut < |s.loaded[c].live| && id !in s.attempts
    case Complete(_, _, epoch) => s.epochs != [] && forall i | 0 <= i < |s.epochs| :: s.epochs[i].id != epoch
    case Fail(_, _, status) => status.Failed? || status.Interrupted?
    case Repair(_) => true
  }

  /** The attempt may still be completed or failed by this owner. */
  predicate Open(s: Store, id: nat, owner: nat) { id in s.attempts && s.attempts[id].status.Active? && s.attempts[id].owner == owner }

  function Planned(l: Loaded, cut: nat, owner: nat): Attempt
    requires 0 < cut < |l.live|
  {
    Attempt(l.epoch.id, l.epoch.cutoff, l.live[cut - 1], l.live[cut], owner, Active)
  }

  function Repaired(attempts: map<nat, Attempt>, dead: set<nat>): map<nat, Attempt> {
    map id | id in attempts ::
      if attempts[id].status.Active? && attempts[id].owner in dead then attempts[id].(status := Interrupted) else attempts[id]
  }

  /** A transaction that fails one of its checks changes nothing. */
  function Next(s: Store, step: Step): Store
    requires Enabled(s, step)
  {
    match step
    case Post(sequence) => s.(messages := s.messages + [sequence])
    case Load(c) =>
      var e := Current(s.epochs);
      s.(loaded := s.loaded[c := Loaded(e, From(s.messages, e.cutoff))])
    case Begin(c, cut, id, owner) => s.(attempts := s.attempts[id := Planned(s.loaded[c], cut, owner)])
    case Complete(id, owner, epoch) =>
      if !Open(s, id, owner) || Current(s.epochs).id != s.attempts[id].source then s
      else
        var a := s.attempts[id];
        s.(epochs := s.epochs + [Epoch(epoch, Current(s.epochs).ordinal + 1, a.cutoff)],
           records := s.records + [Record(id, a.source, epoch, a.from, a.to, a.cutoff)],
           attempts := s.attempts[id := a.(status := Completed)])
    case Fail(id, owner, status) => if Open(s, id, owner) then s.(attempts := s.attempts[id := s.attempts[id].(status := status)]) else s
    case Repair(dead) => s.(attempts := Repaired(s.attempts, dead))
  }

  predicate Run(s: Store, steps: seq<Step>, t: Store)
    decreases |steps|
  {
    if steps == [] then s == t else Enabled(s, steps[0]) && Run(Next(s, steps[0]), steps[1..], t)
  }

  // ---------------------------------------------------------------------------
  // The invariant
  // ---------------------------------------------------------------------------

  ghost predicate Increasing(ms: seq<int>) { forall i, j | 0 <= i < j < |ms| :: ms[i] < ms[j] }

  ghost predicate MessagesOk(ms: seq<int>) { Increasing(ms) && forall i | 0 <= i < |ms| :: ms[i] >= 0 }

  ghost predicate ChainOk(epochs: seq<Epoch>) {
    && epochs != [] && epochs[0].cutoff == 0
    && (forall i | 0 <= i < |epochs| :: epochs[i].ordinal == i)
    && (forall i | 0 < i < |epochs| :: epochs[i - 1].cutoff < epochs[i].cutoff)
    && (forall i, j | 0 <= i < j < |epochs| :: epochs[i].id != epochs[j].id)
  }

  /** A range ends at a message, the next message is the cutoff, and it covers something. */
  ghost predicate RangeOk(ms: seq<int>, from: int, to: int, cutoff: int) {
    from <= to < cutoff && exists i :: 0 < i < |ms| && ms[i - 1] == to && ms[i] == cutoff
  }

  ghost predicate RecordOk(s: Store, i: nat)
    requires i < |s.records| && i + 1 < |s.epochs|
  {
    var r := s.records[i];
    && r.source == s.epochs[i].id && r.target == s.epochs[i + 1].id
    && r.from == s.epochs[i].cutoff && r.cutoff == s.epochs[i + 1].cutoff
    && RangeOk(s.messages, r.from, r.to, r.cutoff)
    && r.attempt in s.attempts && s.attempts[r.attempt].status.Completed?
  }

  ghost predicate AttemptOk(s: Store, id: nat)
    requires id in s.attempts
  {
    var a := s.attempts[id];
    && (exists k :: 0 <= k < |s.epochs| && s.epochs[k].id == a.source && s.epochs[k].cutoff == a.from)
    && RangeOk(s.messages, a.from, a.to, a.cutoff)
    && (a.status.Completed? ==> exists i :: 0 <= i < |s.records| && s.records[i].attempt == id)
  }

  ghost predicate LoadedOk(s: Store, c: nat)
    requires c in s.loaded
  {
    var l := s.loaded[c];
    && (exists k :: 0 <= k < |s.epochs| && s.epochs[k] == l.epoch)
    && (exists n :: 0 <= n <= |s.messages| && l.live == From(s.messages[..n], l.epoch.cutoff))
  }

  ghost predicate Inv(s: Store) {
    && MessagesOk(s.messages) && ChainOk(s.epochs)
    && |s.records| + 1 == |s.epochs|
    && (forall i: nat | i < |s.records| :: RecordOk(s, i))
    && (forall i, j | 0 <= i < j < |s.records| :: s.records[i].attempt != s.records[j].attempt)
    && (forall id | id in s.attempts :: AttemptOk(s, id))
    && (forall c | c in s.loaded :: LoadedOk(s, c))
  }

  lemma NewOk(epoch: nat)
    ensures Inv(New(epoch))
  {
  }

  lemma {:induction false} CurrentIsLast(epochs: seq<Epoch>)
    requires ChainOk(epochs)
    ensures Current(epochs) == epochs[|epochs| - 1]
  {
    if |epochs| > 1 {
      CurrentIsLast(epochs[..|epochs| - 1]);
    }
  }

  /** The messages from a cutoff on are a suffix of all messages. */
  lemma {:induction false} FromIsSuffix(ms: seq<int>, cutoff: int) returns (k: nat)
    requires Increasing(ms)
    ensures k <= |ms| && From(ms, cutoff) == ms[k..] && forall i | k <= i < |ms| :: ms[i] >= cutoff
  {
    if ms == [] {
      k := 0;
    } else {
      var n := |ms| - 1;
      k := FromIsSuffix(ms[..n], cutoff);
      if ms[n] >= cutoff {
        assert ms[..n][k..] + [ms[n]] == ms[k..];
      } else {
        assert forall i | 0 <= i < n :: ms[i] < ms[n] && ms[i] == ms[..n][i];
        k := |ms|;
      }
    }
  }

  lemma PlannedOk(ms: seq<int>, l: Loaded, n: nat, cut: nat)
    requires Increasing(ms) && n <= |ms| && l.live == From(ms[..n], l.epoch.cutoff) && 0 < cut < |l.live|
    ensures RangeOk(ms, l.epoch.cutoff, l.live[cut - 1], l.live[cut])
  {
    var k := FromIsSuffix(ms[..n], l.epoch.cutoff);
    assert l.live[cut - 1] == ms[k + cut - 1] && l.live[cut] == ms[k + cut];
    assert ms[..n][k + cut - 1] >= l.epoch.cutoff;
  }

  lemma RangeStays(ms: seq<int>, more: seq<int>, from: int, to: int, cutoff: int)
    requires RangeOk(ms, from, to, cutoff)
    ensures RangeOk(ms + more, from, to, cutoff)
  {
    var i :| 0 < i < |ms| && ms[i - 1] == to && ms[i] == cutoff;
    assert (ms + more)[i - 1] == to && (ms + more)[i] == cutoff;
  }

  lemma PostKeeps(s: Store, sequence: int)
    requires Inv(s) && Enabled(s, Post(sequence))
    ensures Inv(Next(s, Post(sequence)))
  {
    hide RangeOk;
    var t := Next(s, Post(sequence));
    forall i: nat | i < |t.records|
      ensures RecordOk(t, i)
    {
      assert RecordOk(s, i);
      RangeStays(s.messages, [sequence], s.records[i].from, s.records[i].to, s.records[i].cutoff);
    }
    forall id | id in t.attempts
      ensures AttemptOk(t, id)
    {
      assert AttemptOk(s, id);
      RangeStays(s.messages, [sequence], s.attempts[id].from, s.attempts[id].to, s.attempts[id].cutoff);
    }
    forall c | c in t.loaded
      ensures LoadedOk(t, c)
    {
      assert LoadedOk(s, c);
      var n :| 0 <= n <= |s.messages| && s.loaded[c].live == From(s.messages[..n], s.loaded[c].epoch.cutoff);
      assert t.messages[..n] == s.messages[..n];
    }
  }

  lemma LoadedNow(s: Store, c: nat)
    requires ChainOk(s.epochs)
    ensures LoadedOk(Next(s, Load(c)), c)
  {
    hide From;
    CurrentIsLast(s.epochs);
    assert s.messages[..|s.messages|] == s.messages;
    assert s.epochs[|s.epochs| - 1] == Next(s, Load(c)).loaded[c].epoch;
  }

  lemma LoadKeeps(s: Store, c: nat)
    requires Inv(s) && Enabled(s, Load(c))
    ensures Inv(Next(s, Load(c)))
  {
    hide RangeOk, Increasing, ChainOk, Current, From;
    var t := Next(s, Load(c));
    LoadedNow(s, c);
    forall i: nat | i < |t.records|
      ensures RecordOk(t, i)
    {
      assert RecordOk(s, i);
    }
    forall d | d in t.loaded
      ensures LoadedOk(t, d)
    {
      assert d != c ==> LoadedOk(s, d);
    }
    forall id | id in t.attempts
      ensures AttemptOk(t, id)
    {
      assert AttemptOk(s, id);
    }
  }

  lemma BegunOk(s: Store, step: Step)
    requires step.Begin? && Inv(s) && Enabled(s, step)
    ensures AttemptOk(Next(s, step), step.attempt)
  {
    var l := s.loaded[step.compactor];
    assert LoadedOk(s, step.compactor);
    var n :| 0 <= n <= |s.messages| && l.live == From(s.messages[..n], l.epoch.cutoff);
    hide Inv;
    PlannedOk(s.messages, l, n, step.cut);
    hide RangeOk;
  }

  lemma BeginKeeps(s: Store, step: Step)
    requires step.Begin? && Inv(s) && Enabled(s, step)
    ensures Inv(Next(s, step))
  {
    hide RangeOk, Increasing, ChainOk, From;
    var t := Next(s, step);
    BegunOk(s, step);
    forall i: nat | i < |t.records|
      ensures RecordOk(t, i)
    {
      assert RecordOk(s, i);
    }
    forall id | id in t.attempts
      ensures AttemptOk(t, id)
    {
      assert id in s.attempts ==> AttemptOk(s, id);
    }
    forall c | c in t.loaded
      ensures LoadedOk(t, c)
    {
      assert LoadedOk(s, c);
    }
  }

  /** Attempts only change their status, and completed ones keep it. */
  predicate StatusesMove(before: map<nat, Attempt>, after: map<nat, Attempt>) {
    && before.Keys == after.Keys
    && forall id | id in before ::
         && after[id] == before[id].(status := after[id].status)
         && (!before[id].status.Active? ==> after[id] == before[id])
  }

  lemma StatusesKeep(s: Store, t: Store)
    requires Inv(s) && t == s.(attempts := t.attempts) && StatusesMove(s.attempts, t.attempts)
    requires forall id | id in t.attempts && t.attempts[id].status.Completed? :: s.attempts[id].status.Completed?
    ensures Inv(t)
  {
    hide RangeOk, Increasing, ChainOk;
    forall i: nat | i < |t.records|
      ensures RecordOk(t, i)
    {
      assert RecordOk(s, i);
    }
    forall id | id in t.attempts
      ensures AttemptOk(t, id)
    {
      assert AttemptOk(s, id);
    }
    forall c | c in t.loaded
      ensures LoadedOk(t, c)
    {
      assert LoadedOk(s, c);
    }
  }

  /** An attempt whose source is current covers the history from the last cutoff on. */
  lemma SourceIsLast(s: Store, id: nat)
    requires Inv(s) && id in s.attempts && Current(s.epochs).id == s.attempts[id].source
    ensures Current(s.epochs) == s.epochs[|s.epochs| - 1] && s.epochs[|s.epochs| - 1].ordinal == |s.epochs| - 1
    ensures s.attempts[id].from == s.epochs[|s.epochs| - 1].cutoff < s.attempts[id].cutoff
    ensures s.attempts[id].source == s.epochs[|s.epochs| - 1].id
    ensures RangeOk(s.messages, s.attempts[id].from, s.attempts[id].to, s.attempts[id].cutoff)
  {
    hide LoadedOk, RecordOk;
    CurrentIsLast(s.epochs);
    assert AttemptOk(s, id);
    var a := s.attempts[id];
    var k :| 0 <= k < |s.epochs| && s.epochs[k].id == a.source && s.epochs[k].cutoff == a.from;
    assert k == |s.epochs| - 1;
  }

  lemma ChainGrows(epochs: seq<Epoch>, e: Epoch)
    requires ChainOk(epochs) && e.ordinal == |epochs| && epochs[|epochs| - 1].cutoff < e.cutoff
    requires forall i | 0 <= i < |epochs| :: epochs[i].id != e.id
    ensures ChainOk(epochs + [e])
  {
  }

  /** The completion that succeeds. */
  lemma NewEpochOk(s: Store, id: nat, epoch: nat)
    requires Inv(s) && id in s.attempts && s.attempts[id].status.Active? && Enabled(s, Complete(id, s.attempts[id].owner, epoch))
    requires Current(s.epochs).id == s.attempts[id].source
    ensures var t := Next(s, Complete(id, s.attempts[id].owner, epoch));
            && ChainOk(t.epochs) && |t.records| + 1 == |t.epochs| && RecordOk(t, |s.records|)
            && t.epochs == s.epochs + [Epoch(epoch, |s.epochs|, s.attempts[id].cutoff)]
  {
    SourceIsLast(s, id);
    ChainGrows(s.epochs, Epoch(epoch, |s.epochs|, s.attempts[id].cutoff));
    hide LoadedOk, AttemptOk, RangeOk, Current, ChainOk;
  }

  lemma CompleteRecords(s: Store, t: Store, i: nat)
    requires i < |s.records| && |s.records| + 1 == |s.epochs| && RecordOk(s, i)
    requires s.epochs <= t.epochs && s.records <= t.records && t.messages == s.messages
    requires forall id | id in s.attempts && s.attempts[id].status.Completed? :: id in t.attempts && t.attempts[id].status.Completed?
    requires |t.records| + 1 == |t.epochs|
    ensures RecordOk(t, i)
  {
    hide RangeOk;
  }

  lemma CompleteKeeps(s: Store, id: nat, owner: nat, epoch: nat)
    requires Inv(s) && Enabled(s, Complete(id, owner, epoch))
    ensures Inv(Next(s, Complete(id, owner, epoch)))
  {
    hide RangeOk, Increasing, ChainOk, Current;
    var t := Next(s, Complete(id, owner, epoch));
    if t != s {
      NewEpochOk(s, id, epoch);
      assert AttemptOk(s, id);
      forall i: nat | i < |t.records|
        ensures RecordOk(t, i)
      {
        if i < |s.records| {
          CompleteRecords(s, t, i);
        }
      }
      RecordsDiffer(s, t, id);
      forall a | a in t.attempts
        ensures AttemptOk(t, a)
      {
        CompleteAttempts(s, t, id, a);
      }
      forall c | c in t.loaded
        ensures LoadedOk(t, c)
      {
        assert LoadedOk(s, c);
        var k :| 0 <= k < |s.epochs| && s.epochs[k] == s.loaded[c].epoch;
        assert t.epochs[k] == t.loaded[c].epoch;
      }
    }
  }

  lemma RecordsDiffer(s: Store, t: Store, id: nat)
    requires Inv(s) && |t.records| == |s.records| + 1 && s.records <= t.records && t.records[|s.records|].attempt == id
    requires id in s.attempts && s.attempts[id].status.Active?
    ensures forall i, j | 0 <= i < j < |t.records| :: t.records[i].attempt != t.records[j].attempt
  {
    hide RangeOk, ChainOk;
    forall i: nat | i < |s.records|
      ensures t.records[i].attempt != id
    {
      assert RecordOk(s, i);
    }
  }

  lemma CompleteAttempts(s: Store, t: Store, id: nat, a: nat)
    requires id in s.attempts && a in s.attempts && AttemptOk(s, a) && t.messages == s.messages
    requires s.epochs <= t.epochs && |t.records| == |s.records| + 1 && s.records <= t.records && t.records[|s.records|].attempt == id
    requires t.attempts == s.attempts[id := s.attempts[id].(status := Completed)]
    ensures AttemptOk(t, a)
  {
    hide RangeOk;
    var k :| 0 <= k < |s.epochs| && s.epochs[k].id == s.attempts[a].source && s.epochs[k].cutoff == s.attempts[a].from;
    assert t.epochs[k] == s.epochs[k];
    if a != id && s.attempts[a].status.Completed? {
      var i :| 0 <= i < |s.records| && s.records[i].attempt == a;
      assert t.records[i].attempt == a;
    }
  }

  lemma StepKeepsInv(s: Store, step: Step)
    requires Inv(s) && Enabled(s, step)
    ensures Inv(Next(s, step))
  {
    hide Inv;
    match step {
      case Post(sequence) => PostKeeps(s, sequence);
      case Load(c) => LoadKeeps(s, c);
      case Begin(_, _, _, _) => BeginKeeps(s, step);
      case Complete(id, owner, epoch) => CompleteKeeps(s, id, owner, epoch);
      case Fail(_, _, _) => StatusesKeep(s, Next(s, step));
      case Repair(_) => StatusesKeep(s, Next(s, step));
    }
  }

  lemma {:induction false} RunKeepsInv(s: Store, steps: seq<Step>, t: Store)
    requires Inv(s) && Run(s, steps, t)
    ensures Inv(t)
    decreases |steps|
  {
    hide Inv, Enabled, Next;
    if steps != [] {
      StepKeepsInv(s, steps[0]);
      RunKeepsInv(Next(s, steps[0]), steps[1..], t);
    }
  }

  // ---------------------------------------------------------------------------
  // What follows in every run
  // ---------------------------------------------------------------------------

  /** The epochs form one chain, each linked to the next by exactly one record. */
  lemma EpochsFormChain(first: nat, steps: seq<Step>, s: Store)
    requires Run(New(first), steps, s)
    ensures s.epochs != [] && |s.records| == |s.epochs| - 1
    ensures forall i | 0 <= i < |s.epochs| :: s.epochs[i].ordinal == i
    ensures forall i | 0 < i < |s.epochs| :: s.epochs[i - 1].cutoff < s.epochs[i].cutoff
    ensures forall i | 0 <= i < |s.records| :: s.records[i].source == s.epochs[i].id && s.records[i].target == s.epochs[i + 1].id
  {
    NewOk(first);
    RunKeepsInv(New(first), steps, s);
    hide LoadedOk, AttemptOk, RangeOk;
    forall i: nat | i < |s.records|
      ensures s.records[i].source == s.epochs[i].id && s.records[i].target == s.epochs[i + 1].id
    {
      assert RecordOk(s, i);
    }
  }

  ghost predicate CoveredBy(s: Store, m: int, i: nat) { i < |s.records| && s.records[i].from <= m <= s.records[i].to }

  lemma {:induction false} CutoffsIncrease(epochs: seq<Epoch>, i: nat, j: nat)
    requires ChainOk(epochs) && i <= j < |epochs|
    ensures epochs[i].cutoff <= epochs[j].cutoff && (i < j ==> epochs[i].cutoff < epochs[j].cutoff)
    decreases j - i
  {
    if i < j {
      CutoffsIncrease(epochs, i, j - 1);
      assert epochs[j - 1].cutoff < epochs[j].cutoff;
    }
  }

  /** Between the end of a range and its cutoff there is no message. */
  lemma NoMessageBetween(ms: seq<int>, from: int, to: int, cutoff: int, m: int)
    requires Increasing(ms) && RangeOk(ms, from, to, cutoff) && m in ms && m < cutoff
    ensures m <= to
  {
    var i :| 0 < i < |ms| && ms[i - 1] == to && ms[i] == cutoff;
    var j :| 0 <= j < |ms| && ms[j] == m;
    assert forall k | i < k < |ms| :: ms[i] < ms[k];
    assert j < i - 1 ==> ms[j] < ms[i - 1];
  }

  /** A message before the cutoff of epoch `n` is in the range of one of the records before it. */
  lemma {:induction false} EarlierIsCovered(s: Store, m: int, n: nat)
    requires Inv(s) && m in s.messages && n < |s.epochs| && m < s.epochs[n].cutoff
    ensures exists i: nat :: i < n && CoveredBy(s, m, i)
  {
    hide LoadedOk, AttemptOk, RangeOk;
    if n == 0 {
      assert false;
    } else if m < s.epochs[n - 1].cutoff {
      EarlierIsCovered(s, m, n - 1);
      var i: nat :| i < n - 1 && CoveredBy(s, m, i);
    } else {
      assert RecordOk(s, n - 1);
      var r := s.records[n - 1];
      NoMessageBetween(s.messages, r.from, r.to, r.cutoff, m);
      assert CoveredBy(s, m, n - 1);
    }
  }

  lemma CoveredBounds(s: Store, m: int, i: nat)
    requires Inv(s) && CoveredBy(s, m, i)
    ensures s.epochs[i].cutoff <= m < s.epochs[i + 1].cutoff
  {
    hide LoadedOk, AttemptOk;
    assert RecordOk(s, i);
  }

  lemma CoveredIffEarlier(s: Store, m: int)
    requires Inv(s) && m in s.messages && s.epochs != []
    ensures m < s.epochs[|s.epochs| - 1].cutoff <==> exists i: nat :: CoveredBy(s, m, i)
  {
    hide Inv, CoveredBy;
    if m < s.epochs[|s.epochs| - 1].cutoff {
      EarlierIsCovered(s, m, |s.epochs| - 1);
    } else {
      forall i: nat
        ensures !CoveredBy(s, m, i)
      {
        if CoveredBy(s, m, i) {
          CoveredInChain(s, m, i);
        }
      }
    }
  }

  /**
   * In every run the completed records tile the history: every message is in the range of exactly one record, or in
   * the live suffix from the current cutoff on, and never in both.
   */
  lemma RecordsTileHistory(first: nat, steps: seq<Step>, s: Store, m: int)
    requires Run(New(first), steps, s) && m in s.messages
    ensures s.epochs != []
    ensures m < Current(s.epochs).cutoff <==> exists i: nat :: CoveredBy(s, m, i)
    ensures forall i: nat, j: nat | CoveredBy(s, m, i) && CoveredBy(s, m, j) :: i == j
  {
    NewOk(first);
    RunKeepsInv(New(first), steps, s);
    CurrentIsLast(s.epochs);
    assert ChainOk(s.epochs);
    hide Inv, CoveredBy, ChainOk, Current;
    var n := |s.epochs| - 1;
    assert Current(s.epochs) == s.epochs[n];
    CoveredIffEarlier(s, m);
    forall i: nat | CoveredBy(s, m, i)
      ensures i < n && s.epochs[i].cutoff <= m < s.epochs[i + 1].cutoff <= s.epochs[n].cutoff
    {
      CoveredInChain(s, m, i);
    }
    forall i: nat, j: nat | CoveredBy(s, m, i) && CoveredBy(s, m, j) && i < j
      ensures false
    {
      CutoffsIncrease(s.epochs, i + 1, j);
    }
  }

  lemma CoveredInChain(s: Store, m: int, i: nat)
    requires Inv(s) && CoveredBy(s, m, i)
    ensures i + 1 < |s.epochs| && s.epochs[i].cutoff <= m < s.epochs[i + 1].cutoff <= s.epochs[|s.epochs| - 1].cutoff
  {
    CoveredBounds(s, m, i);
    hide LoadedOk, AttemptOk, RangeOk, RecordOk, ChainOk;
    CutoffsIncrease(s.epochs, i + 1, |s.epochs| - 1);
  }

  /** An attempt leaves "active" at most once: afterwards nothing about it changes, in every run. */
  lemma {:induction false} SettledStays(s: Store, steps: seq<Step>, t: Store, id: nat)
    requires Run(s, steps, t) && id in s.attempts && !s.attempts[id].status.Active?
    ensures id in t.attempts && t.attempts[id] == s.attempts[id]
    decreases |steps|
  {
    if steps != [] {
      SettledStep(s, steps[0], id);
      hide Enabled, Next;
      SettledStays(Next(s, steps[0]), steps[1..], t, id);
    }
  }

  lemma SettledStep(s: Store, step: Step, id: nat)
    requires Enabled(s, step) && id in s.attempts && !s.attempts[id].status.Active?
    ensures id in Next(s, step).attempts && Next(s, step).attempts[id] == s.attempts[id]
  {
  }

  /** The step may end this owner's attempt with this status: its own completion or failure, or a repair that knows the owner dead. */
  predicate Ends(step: Step, id: nat, owner: nat, status: Status) {
    match step
    case Complete(a, o, _) => a == id && o == owner && status.Completed?
    case Fail(a, o, why) => a == id && o == owner && status == why
    case Repair(dead) => owner in dead && status.Interrupted?
    case _ => false
  }

  lemma ActiveStep(s: Store, step: Step, id: nat)
    requires Enabled(s, step) && id in s.attempts && s.attempts[id].status.Active?
    requires step.Begin? ==> step.attempt != id
    ensures id in Next(s, step).attempts
    ensures var a, b := s.attempts[id], Next(s, step).attempts[id];
            b == a || (b == a.(status := b.status) && Ends(step, id, a.owner, b.status))
  {
    hide Current;
  }

  /** An attempt leaves "active" only by its own owner's completion or failure, or by a repair whose owner list has its owner. */
  lemma {:induction false} ActiveEndsOnlyBy(s: Store, steps: seq<Step>, t: Store, id: nat)
    requires Run(s, steps, t) && id in s.attempts && s.attempts[id].status.Active?
    ensures id in t.attempts && t.attempts[id] == s.attempts[id].(status := t.attempts[id].status)
    ensures !t.attempts[id].status.Active? ==>
              exists k :: 0 <= k < |steps| && Ends(steps[k], id, s.attempts[id].owner, t.attempts[id].status)
    decreases |steps|
  {
    hide Next, Ends;
    if steps != [] {
      var next := Next(s, steps[0]);
      ActiveStep(s, steps[0], id);
      if next.attempts[id].status.Active? {
        ActiveEndsOnlyBy(next, steps[1..], t, id);
        if !t.attempts[id].status.Active? {
          var k :| 0 <= k < |steps[1..]| && Ends(steps[1..][k], id, s.attempts[id].owner, t.attempts[id].status);
          assert Ends(steps[k + 1], id, s.attempts[id].owner, t.attempts[id].status);
        }
      } else {
        SettledStays(next, steps[1..], t, id);
        assert Ends(steps[0], id, s.attempts[id].owner, t.attempts[id].status);
      }
    }
  }

  /** After a repair no owner that is known dead has an active attempt, and no other attempt has changed. */
  lemma RepairMeans(s: Store, dead: set<nat>)
    ensures var t := Next(s, Repair(dead));
            && t == s.(attempts := t.attempts) && t.attempts.Keys == s.attempts.Keys
            && (forall id | id in t.attempts && t.attempts[id].status.Active? :: t.attempts[id].owner !in dead)
            && (forall id | id in s.attempts && !(s.attempts[id].status.Active? && s.attempts[id].owner in dead) :: t.attempts[id] == s.attempts[id])
            && (forall id | id in s.attempts && t.attempts[id] != s.attempts[id] :: t.attempts[id] == s.attempts[id].(status := Interrupted))
  {
  }

  /** Of competing attempts on one epoch, only one completes. */
  lemma OneCompletesPerEpoch(first: nat, steps: seq<Step>, s: Store, a: nat, b: nat)
    requires Run(New(first), steps, s) && a in s.attempts && b in s.attempts && s.attempts[a].source == s.attempts[b].source
    requires s.attempts[a].status.Completed? && s.attempts[b].status.Completed?
    ensures a == b
  {
    NewOk(first);
    RunKeepsMatch(New(first), steps, s);
    hide LoadedOk, RangeOk;
    assert AttemptOk(s, a) && AttemptOk(s, b);
    var i :| 0 <= i < |s.records| && s.records[i].attempt == a;
    var j :| 0 <= j < |s.records| && s.records[j].attempt == b;
    assert RecordOk(s, i) && RecordOk(s, j);
    assert Matches(s, i) && Matches(s, j);
  }

  /** A record says of its attempt what the attempt says. */
  predicate Matches(s: Store, i: nat)
    requires i < |s.records|
  {
    var r := s.records[i];
    r.attempt in s.attempts && s.attempts[r.attempt].source == r.source && !s.attempts[r.attempt].status.Active?
  }

  lemma {:induction false} RunKeepsMatch(s: Store, steps: seq<Step>, t: Store)
    requires Inv(s) && (forall i: nat | i < |s.records| :: Matches(s, i)) && Run(s, steps, t)
    ensures Inv(t) && forall i: nat | i < |t.records| :: Matches(t, i)
    decreases |steps|
  {
    if steps != [] {
      var next := Next(s, steps[0]);
      StepKeepsInv(s, steps[0]);
      forall i: nat | i < |next.records|
        ensures Matches(next, i)
      {
        MatchStep(s, steps[0], i);
      }
      hide Inv, Matches, Enabled, Next;
      RunKeepsMatch(next, steps[1..], t);
    }
  }

  lemma MatchStep(s: Store, step: Step, i: nat)
    requires (forall k: nat | k < |s.records| :: Matches(s, k)) && Enabled(s, step) && i < |Next(s, step).records|
    ensures Matches(Next(s, step), i)
  {
    assert i < |s.records| ==> Matches(s, i);
  }
}
