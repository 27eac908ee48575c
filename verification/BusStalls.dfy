/** When the bus serves a subscription, when it stops doing so, and what becomes of the
    requests and publishers that wait for it. */
module BusStalls {
  import opened Seqs
  import opened BusModel
  import opened SubLaws
  import opened BusInvariants
  import opened BusRuns

  // ---------------------------------------------------------------- live dispatchers

  predicate Attended(sub: Sub) {
    HasTask(sub) && Live(sub.tasks[sub.dispatcher.value])
  }

  /** The handler of `id` ends with something that is not an `Exception`. */
  predicate Aborts(a: Action, id: SubId) {
    a.HandlerEnds? && a.id == id && a.result.Aborted?
  }

  /** The bus stops, or the subscription is removed. */
  predicate Withdraws(a: Action, id: SubId) {
    a.StopBegin? || a == Unsubscribe(id)
  }

  /** While it is registered on a running bus a subscription loses its live dispatcher to
      an aborted handler only, and never regains one. */
  lemma ServedStep(s: State, a: Action, id: SubId)
    requires id in s.subs && OneDispatcher(s.subs[id]) && Quiet(s, id)
    requires s.running && s.stopping.None? && Registered(s, id) && Enabled(s, a) && !Withdraws(a, id)
    ensures Apply(s, a).running && Registered(Apply(s, a), id)
    ensures Attended(Apply(s, a).subs[id]) <==> Attended(s.subs[id]) && !Aborts(a, id)
  {
    RegisteredAfter(s, a, id);
    var sub := s.subs[id];
    assert Apply(s, a).subs[id] == SubAfter(s, a, id);
    assert forall k :: 0 <= k < |sub.tasks| && Live(sub.tasks[k]) ==> sub.dispatcher == Some(k);
  }

  /** The step that gives the subscription a dispatcher. */
  predicate Spawns(s: State, a: Action, id: SubId) {
    (a.Start? && id in s.subs && Registered(s, id)) || (a.Subscribe? && a.id == id && s.running)
  }

  lemma SpawnServes(s: State, a: Action, id: SubId)
    requires Inv(s) && Enabled(s, a) && Spawns(s, a, id)
    ensures id in Apply(s, a).subs && Apply(s, a).running && Registered(Apply(s, a), id)
    ensures Attended(Apply(s, a).subs[id])
  {
    if a.Start? {
      RegisteredAfter(s, a, id);
      assert Quiet(s, id);
    } else {
      assert OnTopic(Apply(s, a), a.topic)[|OnTopic(s, a.topic)|] == id;
    }
  }

  lemma ServedRunStep(states: seq<State>, actions: seq<Action>, i: nat, id: SubId)
    requires IsRun(states, actions) && i < |actions| && !Withdraws(actions[i], id)
    requires id in states[i].subs && states[i].running && Registered(states[i], id)
    ensures id in states[i + 1].subs && states[i + 1].running && Registered(states[i + 1], id)
    ensures Attended(states[i + 1].subs[id]) <==> Attended(states[i].subs[id]) && !Aborts(actions[i], id)
  {
    RunKeepsInv(states, actions, i);
    assert Step(states, actions, i);
    assert SubOk(states[i].subs[id], states[i].capacity) && Quiet(states[i], id);
    ServedStep(states[i], actions[i], id);
  }

  lemma SpawnRunStep(states: seq<State>, actions: seq<Action>, i: nat, id: SubId)
    requires IsRun(states, actions) && i < |actions| && Spawns(states[i], actions[i], id)
    ensures id in states[i + 1].subs && states[i + 1].running && Registered(states[i + 1], id)
    ensures Attended(states[i + 1].subs[id])
  {
    RunKeepsInv(states, actions, i);
    assert Step(states, actions, i);
    SpawnServes(states[i], actions[i], id);
  }

  /** From the step that gave it a dispatcher until it is withdrawn, a subscription is
      served exactly as long as none of its handlers has aborted. */
  lemma {:induction false} ServedSinceSpawnIff(states: seq<State>, actions: seq<Action>, m: nat, i: nat, id: SubId)
    requires IsRun(states, actions) && m < i <= |actions| && Spawns(states[m], actions[m], id)
    requires forall k :: m < k < i ==> !Withdraws(actions[k], id)
    ensures id in states[i].subs && states[i].running && Registered(states[i], id)
    ensures Attended(states[i].subs[id]) <==> forall k :: m < k < i ==> !Aborts(actions[k], id)
    decreases i
  {
    if i == m + 1 {
      SpawnRunStep(states, actions, m, id);
    } else {
      ServedSinceSpawnIff(states, actions, m, i - 1, id);
      ServedRunStep(states, actions, i - 1, id);
    }
  }

  /** Before the step a served subscription was there already, or the step spawned. */
  lemma WasThere(states: seq<State>, actions: seq<Action>, i: nat, id: SubId)
    requires IsRun(states, actions) && i < |actions| && !Spawns(states[i], actions[i], id)
    requires id in states[i + 1].subs && states[i + 1].running && Registered(states[i + 1], id)
    ensures id in states[i].subs && states[i].running && Registered(states[i], id) && !Withdraws(actions[i], id)
  {
    assert Step(states, actions, i);
    if id in states[i].subs {
      RegisteredAfter(states[i], actions[i], id);
    }
  }

  /** If none of its handlers ever aborted, a subscription registered on a running bus has
      a live dispatcher. */
  lemma {:induction false} RegisteredIsServed(states: seq<State>, actions: seq<Action>, i: nat, id: SubId)
    requires IsRun(states, actions) && i <= |actions| && id in states[i].subs
    requires states[i].running && Registered(states[i], id)
    requires forall k :: 0 <= k < i ==> !Aborts(actions[k], id)
    ensures Attended(states[i].subs[id])
  {
    if i > 0 {
      if Spawns(states[i - 1], actions[i - 1], id) {
        SpawnRunStep(states, actions, i - 1, id);
      } else {
        WasThere(states, actions, i - 1, id);
        RegisteredIsServed(states, actions, i - 1, id);
        ServedRunStep(states, actions, i - 1, id);
      }
    }
  }

  // ---------------------------------------------------------------- undecided requests

  predicate Outstanding(sub: Sub, m: Message) {
    m in sub.queue || m in InHand(sub)
  }

  /** Dropped with its queue, or cut off with its dispatcher. */
  ghost predicate Lost(sub: Sub, m: Message) {
    exists e :: e in sub.settled && e.message == m && !e.fate.Handled?
  }

  ghost predicate Declined(log: seq<Entry>, id: SubId, m: Message) {
    exists e :: e in log && e.sub == id && e.msg == m && e.result == Returned(None)
  }

  ghost predicate Undecided(s: State, id: SubId, m: Message)
    requires id in s.subs
  {
    Outstanding(s.subs[id], m) || Lost(s.subs[id], m) || Declined(s.log, id, m)
  }

  lemma {:induction false} FilteredCount(settled: seq<Settled>, m: Message)
    ensures Occurrences(Messages(Filter(settled, WasHandled)), m) <= Occurrences(Messages(settled), m)
    ensures (exists e :: e in settled && e.message == m && !e.fate.Handled?) ==>
      Occurrences(Messages(Filter(settled, WasHandled)), m) < Occurrences(Messages(settled), m)
  {
    if settled != [] {
      var n := |settled| - 1;
      FilteredCount(settled[..n], m);
      assert settled == settled[..n] + [settled[n]];
      SettledSnoc(settled[..n], settled[n]);
    }
  }

  lemma InLog(log: seq<Entry>, id: SubId, m: Message)
    ensures m in LogOf(log, id) <==> exists e :: e in log && e.sub == id && e.msg == m
  {
    var mine := Filter(log, BySub(id));
    FilterMembers(log, BySub(id));
    forall e | e in log && e.sub == id && e.msg == m ensures m in LogOf(log, id) {
      var i :| 0 <= i < |mine| && mine[i] == e;
      assert LogOf(log, id)[i] == m;
    }
    if m in LogOf(log, id) {
      var i :| 0 <= i < |mine| && LogOf(log, id)[i] == m;
      assert mine[i] in mine;
    }
  }

  lemma {:induction false} TwoEntries(log: seq<Entry>, id: SubId, m: Message, d: Entry, e: Entry)
    requires d in log && e in log && d != e && d.sub == e.sub == id && d.msg == e.msg == m
    ensures Occurrences(LogOf(log, id), m) >= 2
  {
    var n := |log| - 1;
    assert log == log[..n] + [log[n]];
    LogSnoc(log[..n], log[n], id);
    if log[n] == d || log[n] == e {
      InLog(log[..n], id, m);
      assert m in LogOf(log[..n], id);
    } else {
      TwoEntries(log[..n], id, m, d, e);
    }
  }

  /** A message that reached a subscription is accounted for: handled, outstanding or lost. */
  lemma Whereabouts(sub: Sub, capacity: int, m: Message)
    requires SubOk(sub, capacity) && Occurrences(sub.puts, m) == 1
    ensures m in HandledBy(sub) || Outstanding(sub, m) || Lost(sub, m)
    ensures m in HandledBy(sub) ==> !Outstanding(sub, m) && !Lost(sub, m) && Occurrences(HandledBy(sub), m) == 1
  {
    assert sub.puts == Messages(sub.settled) + InHand(sub) + sub.queue;
    assert Occurrences(sub.puts, m)
        == Occurrences(Messages(sub.settled), m) + Occurrences(InHand(sub), m) + Occurrences(sub.queue, m);
    FilteredCount(sub.settled, m);
    if m in Messages(sub.settled) && !Lost(sub, m) {
      var i :| 0 <= i < |sub.settled| && Messages(sub.settled)[i] == m;
      FilterMembers(sub.settled, WasHandled);
      assert sub.settled[i] in Filter(sub.settled, WasHandled);
      var k :| 0 <= k < |Filter(sub.settled, WasHandled)| && Filter(sub.settled, WasHandled)[k] == sub.settled[i];
      assert HandledBy(sub)[k] == m;
    }
  }

  /** What one request handler did with a request that it was sent. */
  lemma HandlerAccount(s: State, id: SubId, m: Message)
    requires LogOk(s) && SubsOk(s) && id in s.subs && s.subs[id].isRequest && Occurrences(s.subs[id].puts, m) == 1
    ensures Undecided(s, id, m) <==> !exists e :: e in s.log && e.sub == id && e.msg == m && Decides(e, m.id)
  {
    assert SubOk(s.subs[id], s.capacity);
    Whereabouts(s.subs[id], s.capacity, m);
    InLog(s.log, id, m);
    if m in LogOf(s.log, id) {
      var e :| e in s.log && e.sub == id && e.msg == m;
      assert EntryOk(s, e);
      forall d | d in s.log && d.sub == id && d.msg == m ensures d == e {
        if d != e {
          TwoEntries(s.log, id, m, d, e);
        }
      }
    }
  }

  lemma PutIntoSnapshot(s: State, call: MsgId, id: SubId)
    requires FramesOk(s) && DeliveryOk(s) && call in s.frames && s.frames[call].stage.Awaiting?
    requires id in s.frames[call].snapshot
    ensures id in s.subs && Occurrences(s.subs[id].puts, s.frames[call].msg) == 1
  {
    assert FrameOk(s, s.frames[call]);
    CompletedCount(s, call, id);
  }

  lemma PendingIsByHandler(s: State, call: MsgId)
    requires RequestsOk(s) && RepliesOk(s) && call in s.pending
    ensures call in s.futures && (s.futures[call].Pending? <==> forall e :: e in s.log ==> !Decides(e, call))
  {
    assert call in s.frames && RequestOk(s, call);
    if !s.futures[call].Pending? {
      assert FromFirst(s.log, call, s.futures[call]);
      var i: nat :| FirstDecides(s.log, call, i);
      assert s.log[i] in s.log;
    }
  }

  /** The message of a log entry that decides a call is that call's, and was put to a
      request handler of its snapshot. */
  lemma DeciderInSnapshot(s: State, call: MsgId, e: Entry)
    requires Inv(s) && call in s.frames && e in s.log && Decides(e, call)
    ensures e.msg == s.frames[call].msg && e.sub in s.frames[call].snapshot
    ensures e.sub in s.subs && s.subs[e.sub].isRequest
  {
    LoggedWasDelivered(s, e);
    assert EntryOk(s, e);
  }

  lemma UndecidedIff(s: State, call: MsgId, id: SubId)
    requires Inv(s) && CallIs(s, call, Awaiting) && id in s.frames[call].snapshot
    ensures id in s.subs
    ensures s.subs[id].isRequest ==>
      (Undecided(s, id, s.frames[call].msg) <==>
        !exists e :: e in s.log && e.sub == id && e.msg == s.frames[call].msg && Decides(e, call))
  {
    PutIntoSnapshot(s, call, id);
    assert s.frames[call].msg.id == call;
    if s.subs[id].isRequest {
      HandlerAccount(s, id, s.frames[call].msg);
    }
  }

  /** Exact accounting: a request that awaits its reply is pending exactly as long as every
      request handler of its snapshot still has it in its queue or in hand, lost it with a
      drained queue or an ended dispatcher, or returned without a payload. */
  lemma PendingIff(s: State, call: MsgId)
    requires Reachable(s) && call in s.pending && CallIs(s, call, Awaiting)
    ensures call in s.futures && forall id :: id in s.frames[call].snapshot ==> id in s.subs
    ensures s.futures[call].Pending? <==>
      forall id :: id in s.frames[call].snapshot && s.subs[id].isRequest ==> Undecided(s, id, s.frames[call].msg)
  {
    ReachableInv(s);
    PendingIsByHandler(s, call);
    var m := s.frames[call].msg;
    forall id | id in s.frames[call].snapshot
      ensures id in s.subs
      ensures s.subs[id].isRequest ==>
        (Undecided(s, id, m) <==> !exists e :: e in s.log && e.sub == id && e.msg == m && Decides(e, call))
    {
      UndecidedIff(s, call, id);
    }
    forall e | e in s.log && Decides(e, call)
      ensures e.msg == m && e.sub in s.frames[call].snapshot && e.sub in s.subs && s.subs[e.sub].isRequest
    {
      DeciderInSnapshot(s, call, e);
    }
  }

  // ---------------------------------------------------------------- requests that hang

  /** Awaited without a timeout, pending, and out of reach of every request handler. */
  ghost predicate Stranded(s: State, call: MsgId) {
    && CallIs(s, call, Awaiting) && s.frames[call].kind == Request(false)
    && call in s.futures && s.futures[call].Pending?
    && forall id :: id in s.subs && s.subs[id].isRequest ==> !Outstanding(s.subs[id], s.frames[call].msg)
  }

  lemma NotOutstandingStep(s: State, a: Action, id: SubId, m: Message)
    requires id in s.subs && OneDispatcher(s.subs[id]) && Enabled(s, a) && !Outstanding(s.subs[id], m)
    requires a.PutNext? ==> s.frames[a.call].msg != m
    ensures !Outstanding(Apply(s, a).subs[id], m)
  {
    var sub, after := s.subs[id], SubAfter(s, a, id);
    assert Apply(s, a).subs[id] == after;
    assert forall k :: 0 <= k < |sub.tasks| && Live(sub.tasks[k]) ==> sub.dispatcher == Some(k);
    if a.GetNext? && a.id == id {
      assert Live(sub.tasks[a.task]);
      assert sub.queue[0] in sub.queue;
    }
  }

  lemma StrandedSubs(s: State, a: Action, call: MsgId)
    requires SubsOk(s) && FramesOk(s) && Enabled(s, a) && Stranded(s, call)
    ensures forall id :: id in Apply(s, a).subs && Apply(s, a).subs[id].isRequest ==>
      !Outstanding(Apply(s, a).subs[id], s.frames[call].msg)
  {
    forall id | id in Apply(s, a).subs && Apply(s, a).subs[id].isRequest
      ensures !Outstanding(Apply(s, a).subs[id], s.frames[call].msg)
    {
      if id in s.subs {
        SubSame(s, a, id);
        assert SubOk(s.subs[id], s.capacity);
        assert FrameOk(s, s.frames[call]);
        NotOutstandingStep(s, a, id, s.frames[call].msg);
      }
    }
  }

  lemma HandledIsOutstanding(sub: Sub, capacity: int, k: nat)
    requires SubOk(sub, capacity) && k < |sub.tasks| && sub.tasks[k].Handling?
    ensures Outstanding(sub, sub.tasks[k].message) && sub.tasks[k].message in sub.puts
  {
    assert Live(sub.tasks[k]);
    assert InHand(sub) == [sub.tasks[k].message];
    assert InHand(sub)[0] in sub.puts;
  }

  /** A request handler that ends never has a stranded request in hand. */
  lemma EndsAnother(s: State, id: SubId, task: nat, call: MsgId)
    requires SubsOk(s) && FramesOk(s) && DeliveryOk(s) && Stranded(s, call)
    requires TaskIs(s, id, task) && s.subs[id].tasks[task].Handling? && s.subs[id].isRequest
    ensures s.subs[id].tasks[task].message.id != call
  {
    assert SubOk(s.subs[id], s.capacity);
    HandledIsOutstanding(s.subs[id], s.capacity, task);
  }

  lemma StrandedFuture(s: State, a: Action, call: MsgId)
    requires Enabled(s, a) && Stranded(s, call) && a != CancelCall(call) && !a.StopEnd?
    requires a.HandlerEnds? && s.subs[a.id].isRequest ==> s.subs[a.id].tasks[a.task].message.id != call
    ensures CallIs(Apply(s, a), call, Awaiting)
    ensures call in FuturesAfter(s, a) && FuturesAfter(s, a)[call].Pending?
  {
  }

  lemma StrandedAfter(s: State, a: Action, call: MsgId)
    requires Enabled(s, a) && Stranded(s, call) && CallIs(Apply(s, a), call, Awaiting)
    requires call in FuturesAfter(s, a) && FuturesAfter(s, a)[call].Pending?
    requires forall id :: id in Apply(s, a).subs && Apply(s, a).subs[id].isRequest ==>
      !Outstanding(Apply(s, a).subs[id], s.frames[call].msg)
    ensures Stranded(Apply(s, a), call)
  {
    FrameSame(s, a, call);
  }

  /** Such a request hangs, whatever else happens, until its requester is cancelled or the
      bus has stopped. */
  lemma {:induction false} StrandedHangs(states: seq<State>, actions: seq<Action>, i: nat, j: nat, call: MsgId)
    requires IsRun(states, actions) && i <= j <= |actions| && Stranded(states[i], call)
    requires forall k :: i <= k < j ==> actions[k] != CancelCall(call) && !actions[k].StopEnd?
    ensures Stranded(states[j], call)
    decreases j - i
  {
    if i < j {
      StrandedHangs(states, actions, i, j - 1, call);
      RunKeepsInv(states, actions, j - 1);
      assert Step(states, actions, j - 1);
      var s, a := states[j - 1], actions[j - 1];
      StrandedSubs(s, a, call);
      if a.HandlerEnds? && s.subs[a.id].isRequest {
        EndsAnother(s, a.id, a.task, call);
      }
      StrandedFuture(s, a, call);
      StrandedAfter(s, a, call);
    }
  }

  // ---------------------------------------------------------------- publishers that block

  /** A call whose next put waits for room in a queue that nobody serves. */
  ghost predicate Blocked(s: State, call: MsgId, id: SubId, pos: nat) {
    && CallIs(s, call, Routing) && s.frames[call].pos == pos < |s.frames[call].snapshot|
    && s.frames[call].snapshot[pos] == id && id in s.subs && !HasRoom(s, id) && NoneLive(s.subs[id])
  }

  /** The steps that make room in that queue or give it a server, or end the call. */
  predicate Unblocks(s: State, a: Action, call: MsgId, id: SubId) {
    || a == Unsubscribe(id) || a == CancelCall(call)
    || (a.Start? && Registered(s, id))
    || (a.StopEnd? && s.stopping.Some? && id in s.stopping.value.subs)
  }

  lemma Unblocked(s: State, a: Action, call: MsgId, id: SubId, pos: nat)
    requires LifecycleOk(s) && Enabled(s, a) && Blocked(s, call, id, pos) && Unblocks(s, a, call, id)
    ensures !Blocked(Apply(s, a), call, id, pos)
  {
    assert Quiet(s, id) && Apply(s, a).subs[id] == SubAfter(s, a, id);
    if a.Start? {
      assert Spawn(s.subs[id]).tasks[|s.subs[id].tasks|] == Waiting;
    }
  }

  lemma StaysBlocked(s: State, a: Action, call: MsgId, id: SubId, pos: nat)
    requires Enabled(s, a) && Blocked(s, call, id, pos) && !Unblocks(s, a, call, id)
    ensures Blocked(Apply(s, a), call, id, pos)
  {
    FrameSame(s, a, call);
    var sub := s.subs[id];
    assert Apply(s, a).subs[id] == SubAfter(s, a, id);
    assert forall k :: 0 <= k < |sub.tasks| ==> !Live(sub.tasks[k]);
  }

  /** One step ends the wait exactly if it is one of those. */
  lemma BlockedStep(s: State, a: Action, call: MsgId, id: SubId, pos: nat)
    requires LifecycleOk(s) && Enabled(s, a) && Blocked(s, call, id, pos)
    ensures Blocked(Apply(s, a), call, id, pos) <==> !Unblocks(s, a, call, id)
  {
    if Unblocks(s, a, call, id) {
      Unblocked(s, a, call, id, pos);
    } else {
      StaysBlocked(s, a, call, id, pos);
    }
  }

  /** Blocked and not able to time out, from state `i` to state `j`. */
  ghost predicate BlockedThroughout(states: seq<State>, i: nat, j: nat, call: MsgId, id: SubId, pos: nat)
    requires j < |states|
  {
    forall k :: i <= k <= j ==> Blocked(states[k], call, id, pos) && !Enabled(states[k], Timeout(call))
  }

  ghost predicate NeverUnblocked(states: seq<State>, actions: seq<Action>, i: nat, j: nat, call: MsgId, id: SubId)
    requires j <= |actions| < |states|
  {
    forall k :: i <= k < j ==> !Unblocks(states[k], actions[k], call, id)
  }

  lemma NoTimeout(s: State, call: MsgId, id: SubId, pos: nat)
    requires Blocked(s, call, id, pos)
    ensures !Enabled(s, Timeout(call))
  {
  }

  lemma BlockedSnoc(states: seq<State>, actions: seq<Action>, j: nat, call: MsgId, id: SubId, pos: nat)
    requires IsRun(states, actions) && j < |actions| && Blocked(states[j], call, id, pos)
    ensures Blocked(states[j + 1], call, id, pos) <==> !Unblocks(states[j], actions[j], call, id)
    ensures Blocked(states[j + 1], call, id, pos) ==> !Enabled(states[j + 1], Timeout(call))
  {
    RunKeepsInv(states, actions, j);
    assert Step(states, actions, j);
    BlockedStep(states[j], actions[j], call, id, pos);
    if Blocked(states[j + 1], call, id, pos) {
      NoTimeout(states[j + 1], call, id, pos);
    }
  }

  /** The clock of a request starts when its message has been routed: in front of a full
      queue that nobody serves it stays where it is, with or without a timeout, exactly as
      long as the subscription is neither removed, nor given a dispatcher by a start, nor
      drained by a stop, and the requester is not cancelled. */
  lemma {:induction false} BlockedStays(states: seq<State>, actions: seq<Action>, i: nat, j: nat,
      call: MsgId, id: SubId, pos: nat)
    requires IsRun(states, actions) && i <= j <= |actions| && Blocked(states[i], call, id, pos)
    ensures BlockedThroughout(states, i, j, call, id, pos) <==> NeverUnblocked(states, actions, i, j, call, id)
    decreases j - i
  {
    if i == j {
      NoTimeout(states[i], call, id, pos);
    } else {
      BlockedStays(states, actions, i, j - 1, call, id, pos);
      if BlockedThroughout(states, i, j - 1, call, id, pos) {
        BlockedSnoc(states, actions, j - 1, call, id, pos);
      }
    }
  }
}
