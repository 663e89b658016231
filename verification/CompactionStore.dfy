/**
 * The compaction tables and the transactions on them, each proved to be a step of the epoch chain.
 */
module CompactionStore {
  import opened Epochs

  datatype Plan = Plan(source: nat, from: int, to: int, cutoff: int)

  lemma {:induction false} FromStep(messages: seq<int>, k: nat, cutoff: int)
    requires k < |messages|
    ensures From(messages[..k + 1], cutoff) == From(messages[..k], cutoff) + if messages[k] >= cutoff then [messages[k]] else []
  {
    assert messages[..k + 1][..k] == messages[..k];
  }

  lemma {:induction false} FromSelects(messages: seq<int>, cutoff: int)
    ensures forall m :: m in From(messages, cutoff) <==> m in messages && m >= cutoff
  {
    if messages != [] {
      FromSelects(messages[..|messages| - 1], cutoff);
    }
  }

  lemma {:induction false} CurrentIsGreatest(epochs: seq<Epoch>)
    requires epochs != []
    ensures forall i | 0 <= i < |epochs| :: epochs[i].ordinal <= Current(epochs).ordinal
  {
    if |epochs| > 1 {
      var before := epochs[..|epochs| - 1];
      CurrentIsGreatest(before);
      assert forall i | 0 <= i < |before| :: epochs[i] == before[i];
    }
  }

  /** The rows of dead owners, one by one. */
  method RepairAll(attempts: map<nat, Attempt>, dead: set<nat>) returns (repaired: map<nat, Attempt>)
    ensures repaired == Repaired(attempts, dead) && repaired.Keys == attempts.Keys
    ensures forall id | id in attempts ::
              if attempts[id].status.Active? && attempts[id].owner in dead then repaired[id] == attempts[id].(status := Interrupted)
              else repaired[id] == attempts[id]
  {
    repaired := attempts;
    var left := attempts.Keys;
    while left != {}
      invariant left <= attempts.Keys && repaired.Keys == attempts.Keys
      invariant forall id | id in attempts && id in left :: repaired[id] == attempts[id]
      invariant forall id | id in attempts && id !in left :: repaired[id] == Repaired(attempts, dead)[id]
      decreases |left|
    {
      var id :| id in left;
      if attempts[id].status == Active && attempts[id].owner in dead {
        repaired := repaired[id := repaired[id].(status := Interrupted)];
      }
      left := left - {id};
    }
  }

  class Repository {
    var messages: seq<int>
    var epochs: seq<Epoch>
    var records: seq<Record>
    var attempts: map<nat, Attempt>
    ghost var loaded: map<nat, Loaded>

    ghost function View(): Store
      reads this
    {
      Store(messages, epochs, records, attempts, loaded)
    }

    ghost predicate Valid()
      reads this
    {
      Inv(View())
    }

    constructor (first: nat)
      ensures View() == New(first) && Valid()
    {
      messages, epochs, records, attempts, loaded := [], [Epoch(first, 0, 0)], [], map[], map[];
      new;
      NewOk(first);
    }

    /** The epoch with the greatest ordinal. */
    method CurrentEpoch() returns (e: Epoch)
      requires epochs != []
      ensures e == Current(epochs)
    {
      e := epochs[0];
      var k := 1;
      assert epochs[..1] == [epochs[0]];
      while k < |epochs|
        invariant 1 <= k <= |epochs| && e == Current(epochs[..k])
      {
        assert epochs[..k + 1][..k] == epochs[..k];
        if e.ordinal < epochs[k].ordinal {
          e := epochs[k];
        }
        k := k + 1;
      }
      assert epochs[..k] == epochs;
    }

    /** The current epoch and the messages from its cutoff on. */
    method LoadState(ghost compactor: nat) returns (epoch: Epoch, live: seq<int>)
      requires Valid()
      modifies this`loaded
      ensures View() == Next(old(View()), Load(compactor)) && Valid()
      ensures compactor in loaded && loaded[compactor] == Loaded(epoch, live)
      ensures epoch in epochs && forall i | 0 <= i < |epochs| :: epochs[i].ordinal <= epoch.ordinal
      ensures (forall m | m in live :: m in messages && m >= epoch.cutoff) && forall m | m in messages && m >= epoch.cutoff :: m in live
      ensures forall i, j | 0 <= i < j < |live| :: live[i] < live[j]
    {
      StepKeepsInv(View(), Load(compactor));
      assert epochs != [];
      hide Inv;
      epoch := CurrentEpoch();
      live := [];
      var k := 0;
      while k < |messages|
        invariant 0 <= k <= |messages| && live == From(messages[..k], epoch.cutoff)
        invariant View() == old(View())
      {
        FromStep(messages, k, epoch.cutoff);
        if messages[k] >= epoch.cutoff {
          live := live + [messages[k]];
        }
        k := k + 1;
      }
      assert messages[..k] == messages;
      loaded := loaded[compactor := Loaded(epoch, live)];
      LoadedIsLatest(epoch, live);
      LiveIncreases(compactor);
    }

    lemma LoadedIsLatest(epoch: Epoch, live: seq<int>)
      requires epochs != [] && epoch == Current(epochs) && live == From(messages, epoch.cutoff)
      ensures forall i | 0 <= i < |epochs| :: epochs[i].ordinal <= epoch.ordinal
      ensures (forall m | m in live :: m in messages && m >= epoch.cutoff) && forall m | m in messages && m >= epoch.cutoff :: m in live
    {
      CurrentIsGreatest(epochs);
      FromSelects(messages, epoch.cutoff);
    }

    /** What a cut before the live message `cutoff` covers. */
    method PlanCut(ghost compactor: nat, ghost cut: nat, epoch: Epoch, live: seq<int>, cutoff: int) returns (plan: Option<Plan>)
      requires Valid() && compactor in loaded && loaded[compactor] == Loaded(epoch, live)
      requires cut < |live| && live[cut] == cutoff
      ensures plan.Some? <==> cut > 0
      ensures plan.Some? ==> plan.value == Plan(epoch.id, epoch.cutoff, live[cut - 1], live[cut])
    {
      LiveIncreases(compactor);
      hide Inv;
      var covered: seq<int> := [];
      var k := 0;
      while k < |live| && live[k] < cutoff
        invariant 0 <= k <= cut && covered == live[..k]
      {
        covered := covered + [live[k]];
        k := k + 1;
      }
      if |covered| == 0 {
        return None;
      }
      return Some(Plan(epoch.id, epoch.cutoff, covered[|covered| - 1], cutoff));
    }

    lemma LiveIncreases(compactor: nat)
      requires Valid() && compactor in loaded
      ensures Increasing(loaded[compactor].live)
    {
      assert LoadedOk(View(), compactor);
      var l := loaded[compactor];
      var n :| 0 <= n <= |messages| && l.live == From(messages[..n], l.epoch.cutoff);
      var k := FromIsSuffix(messages[..n], l.epoch.cutoff);
    }

    method BeginAttempt(ghost compactor: nat, ghost cut: nat, plan: Plan, id: nat, owner: nat)
      requires Valid() && Enabled(View(), Begin(compactor, cut, id, owner))
      requires var l := loaded[compactor]; plan == Plan(l.epoch.id, l.epoch.cutoff, l.live[cut - 1], l.live[cut])
      modifies this
      ensures View() == Next(old(View()), Begin(compactor, cut, id, owner)) && Valid()
      ensures attempts == old(attempts)[id := Attempt(plan.source, plan.from, plan.to, plan.cutoff, owner, Active)]
      ensures messages == old(messages) && epochs == old(epochs) && records == old(records)
    {
      StepKeepsInv(View(), Begin(compactor, cut, id, owner));
      attempts := attempts[id := Attempt(plan.source, plan.from, plan.to, plan.cutoff, owner, Active)];
    }

    /** The attempt becomes a record and a new epoch, unless it is not active, not ours, or its source was superseded. */
    method CompleteAttempt(id: nat, owner: nat, epoch: nat) returns (ok: bool)
      requires Valid() && Enabled(View(), Complete(id, owner, epoch))
      modifies this
      ensures View() == Next(old(View()), Complete(id, owner, epoch)) && Valid()
      ensures messages == old(messages) && (!ok ==> epochs == old(epochs) && records == old(records) && attempts == old(attempts))
      ensures ok <==>
                && id in old(attempts) && old(attempts)[id].status.Active? && old(attempts)[id].owner == owner
                && old(epochs) != [] && old(epochs)[|old(epochs)| - 1].id == old(attempts)[id].source
      ensures ok ==>
                var a := old(attempts)[id];
                && epochs == old(epochs) + [Epoch(epoch, |old(epochs)|, a.cutoff)]
                && records == old(records) + [Record(id, a.source, epoch, a.from, a.to, a.cutoff)]
                && attempts == old(attempts)[id := a.(status := Completed)]
    {
      hide Inv, Current, Repaired, From, Planned;
      StepKeepsInv(View(), Complete(id, owner, epoch));
      if id !in attempts || attempts[id].status != Active || attempts[id].owner != owner {
        return false;
      }
      var current := CurrentEpoch();
      NewestIsLast(current);
      var a := attempts[id];
      if current.id != a.source {
        return false;
      }
      epochs := epochs + [Epoch(epoch, current.ordinal + 1, a.cutoff)];
      records := records + [Record(id, a.source, epoch, a.from, a.to, a.cutoff)];
      attempts := attempts[id := a.(status := Completed)];
      return true;
    }

    lemma NewestIsLast(current: Epoch)
      requires Valid() && epochs != [] && current == Current(epochs)
      ensures current == epochs[|epochs| - 1] && current.ordinal == |epochs| - 1
    {
      assert ChainOk(epochs);
      CurrentIsLast(epochs);
    }

    method FailAttempt(id: nat, owner: nat, status: Status) returns (ok: bool)
      requires Valid()
      modifies this
      ensures if status.Failed? || status.Interrupted? then View() == Next(old(View()), Fail(id, owner, status)) else View() == old(View())
      ensures Valid() && (ok <==> (status.Failed? || status.Interrupted?) && Open(old(View()), id, owner))
      ensures ok ==> old(attempts)[id].status.Active? && old(attempts)[id].owner == owner
      ensures attempts == if ok then old(attempts)[id := old(attempts)[id].(status := status)] else old(attempts)
      ensures messages == old(messages) && epochs == old(epochs) && records == old(records)
    {
      if status != Failed && status != Interrupted {
        return false;
      }
      StepKeepsInv(View(), Fail(id, owner, status));
      hide Inv;
      if id !in attempts || attempts[id].status != Active || attempts[id].owner != owner {
        return false;
      }
      attempts := attempts[id := attempts[id].(status := status)];
      return true;
    }

    /** Attempts of owners that are known dead are interrupted; all others stay as they are. */
    method RepairActive(dead: set<nat>)
      requires Valid()
      modifies this
      ensures View() == Next(old(View()), Repair(dead)) && Valid()
      ensures messages == old(messages) && epochs == old(epochs) && records == old(records) && attempts.Keys == old(attempts).Keys
      ensures forall id | id in attempts && attempts[id].status.Active? :: attempts[id].owner !in dead
      ensures forall id | id in attempts ::
                attempts[id] == old(attempts)[id] ||
                (attempts[id] == old(attempts)[id].(status := Interrupted) && old(attempts)[id].status.Active? && attempts[id].owner in dead)
    {
      StepKeepsInv(View(), Repair(dead));
      hide Inv;
      attempts := RepairAll(attempts, dead);
    }
  }
}
