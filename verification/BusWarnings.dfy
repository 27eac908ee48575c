/** The high-watermark warning over any stretch of a run. */
module BusWarnings {
  import opened Seqs
  import opened BusModel
  import opened SubLaws
  import opened BusInvariants
  import opened BusRuns

  /** The action drains the queue of `id`, or may do so. */
  predicate Drains(a: Action, id: SubId) {
    a == Unsubscribe(id) || a.StopEnd?
  }

  predicate Gets(a: Action, id: SubId) {
    a.GetNext? && a.id == id
  }

  /** A put by which the queue of `id` rises to the threshold. */
  predicate Crosses(s: State, a: Action, id: SubId)
    requires Enabled(s, a)
  {
    && id in s.subs && a.PutNext? && NextSub(s, a.call) == id
    && Threshold(s.capacity) > 0 && |s.subs[id].queue| + 1 == Threshold(s.capacity)
  }

  /** Without a drain a crossing goes without a warning exactly when the flag is stale,
      and a stale flag ends with the next crossing or the next message taken. */
  lemma WarningStep(s: State, a: Action, id: SubId)
    requires id in s.subs && SubOk(s.subs[id], s.capacity) && Enabled(s, a) && !Drains(a, id)
    ensures var sub, after := s.subs[id], SubAfter(s, a, id);
      && after.crossings - sub.crossings - (after.warnings - sub.warnings)
         == (if sub.stale && Crosses(s, a, id) then 1 else 0)
      && (after.stale <==> sub.stale && !Crosses(s, a, id) && !Gets(a, id))
  {
  }

  ghost predicate CrossesAt(states: seq<State>, actions: seq<Action>, k: nat, id: SubId)
    requires IsRun(states, actions) && k < |actions|
  {
    assert Step(states, actions, k);
    Crosses(states[k], actions[k], id)
  }

  /** The queue rises to the threshold before anything is taken from it. */
  ghost predicate CrossesFirst(states: seq<State>, actions: seq<Action>, i: nat, j: nat, id: SubId)
    requires IsRun(states, actions) && i <= j <= |actions|
  {
    exists k :: i <= k < j && CrossesAt(states, actions, k, id) && NoneTaken(actions, i, k, id)
  }

  predicate NoneTaken(actions: seq<Action>, i: nat, j: nat, id: SubId)
    requires i <= j <= |actions|
  {
    forall l :: i <= l < j ==> !Gets(actions[l], id)
  }

  /** The crossings since state `i` that were not warned about. */
  function Unwarned(states: seq<State>, i: nat, j: nat, id: SubId): int
    requires i < |states| && j < |states| && id in states[i].subs && id in states[j].subs
  {
    var before, after := states[i].subs[id], states[j].subs[id];
    after.crossings - before.crossings - (after.warnings - before.warnings)
  }

  lemma SubOkInRun(states: seq<State>, actions: seq<Action>, k: nat, id: SubId)
    requires IsRun(states, actions) && k <= |actions| && id in states[k].subs
    ensures SubOk(states[k].subs[id], states[k].capacity)
  {
    RunKeepsInv(states, actions, k);
  }

  lemma WarningRunStep(states: seq<State>, actions: seq<Action>, k: nat, id: SubId)
    requires IsRun(states, actions) && k < |actions| && id in states[k].subs && !Drains(actions[k], id)
    ensures id in states[k + 1].subs
    ensures Unwarned(states, k, k + 1, id)
         == if states[k].subs[id].stale && CrossesAt(states, actions, k, id) then 1 else 0
    ensures states[k + 1].subs[id].stale <==>
      states[k].subs[id].stale && !CrossesAt(states, actions, k, id) && !Gets(actions[k], id)
  {
    assert Step(states, actions, k);
    SubOkInRun(states, actions, k, id);
    WarningStep(states[k], actions[k], id);
  }

  lemma OneMore(states: seq<State>, actions: seq<Action>, i: nat, j: nat, id: SubId)
    requires IsRun(states, actions) && i < j <= |actions|
    ensures CrossesFirst(states, actions, i, j, id) <==>
      CrossesFirst(states, actions, i, j - 1, id) ||
      (CrossesAt(states, actions, j - 1, id) && NoneTaken(actions, i, j - 1, id))
  {
    if CrossesFirst(states, actions, i, j, id) {
      var k :| i <= k < j && CrossesAt(states, actions, k, id) && NoneTaken(actions, i, k, id);
    }
  }

  /** Between two drains at most one crossing of the threshold goes without a warning: the
      first one, exactly when the flag was left set by the drain before and the queue fills
      up again before anything is taken from it. */
  lemma {:induction false} WarningsBetweenDrains(states: seq<State>, actions: seq<Action>, i: nat, j: nat, id: SubId)
    requires IsRun(states, actions) && i <= j <= |actions| && id in states[i].subs
    requires forall k :: i <= k < j ==> !Drains(actions[k], id)
    ensures id in states[j].subs
    ensures Unwarned(states, i, j, id)
         == if states[i].subs[id].stale && CrossesFirst(states, actions, i, j, id) then 1 else 0
    ensures states[j].subs[id].stale <==>
      states[i].subs[id].stale && !CrossesFirst(states, actions, i, j, id) && NoneTaken(actions, i, j, id)
    decreases j - i
  {
    if i < j {
      WarningsBetweenDrains(states, actions, i, j - 1, id);
      WarningRunStep(states, actions, j - 1, id);
      OneMore(states, actions, i, j, id);
      assert Unwarned(states, i, j, id) == Unwarned(states, i, j - 1, id) + Unwarned(states, j - 1, j, id);
    }
  }

  /** The flag is stale only after a drain that found it set. */
  lemma {:induction false} FreshFlagIsNotStale(states: seq<State>, actions: seq<Action>, j: nat, id: SubId)
    requires IsRun(states, actions) && j <= |actions| && id in states[j].subs
    requires forall k :: 0 <= k < j ==> !Drains(actions[k], id)
    ensures !states[j].subs[id].stale && states[j].subs[id].crossings == states[j].subs[id].warnings
  {
    if j > 0 {
      assert Step(states, actions, j - 1);
      if id in states[j - 1].subs {
        FreshFlagIsNotStale(states, actions, j - 1, id);
        WarningRunStep(states, actions, j - 1, id);
      }
    }
  }
}
