/** What holds of the event bus in every run: any number of subscribers, publishers
    and requesters, interleaved in any order. */
module BusRuns {
  import opened Seqs
  import opened BusModel
  import opened SubLaws
  import opened BusInvariants

  ghost predicate IsRun(states: seq<State>, actions: seq<Action>) {
    && |states| == |actions| + 1
    && states[0] == Init(states[0].capacity)
    && forall i :: 0 <= i < |actions| ==> Step(states, actions, i)
  }

  ghost predicate Step(states: seq<State>, actions: seq<Action>, i: nat)
    requires |states| == |actions| + 1 && i < |actions|
  {
    Enabled(states[i], actions[i]) && states[i + 1] == Apply(states[i], actions[i])
  }

  ghost predicate Reachable(s: State) {
    exists states, actions :: IsRun(states, actions) && states[|actions|] == s
  }

  lemma {:induction false} RunKeepsInv(states: seq<State>, actions: seq<Action>, i: nat)
    requires IsRun(states, actions) && i <= |actions|
    ensures Inv(states[i])
  {
    if i == 0 {
      assert states[0] == Init(states[0].capacity);
    } else {
      RunKeepsInv(states, actions, i - 1);
      assert Step(states, actions, i - 1);
      ActionKeepsInv(states[i - 1], actions[i - 1]);
    }
  }

  lemma ReachableInv(s: State)
    requires Reachable(s)
    ensures Inv(s)
  {
    var states, actions :| IsRun(states, actions) && states[|actions|] == s;
    RunKeepsInv(states, actions, |actions|);
  }

  lemma ReachableStep(s: State, a: Action)
    requires Reachable(s) && Enabled(s, a)
    ensures Reachable(Apply(s, a))
  {
    var states, actions :| IsRun(states, actions) && states[|actions|] == s;
    var longer, taken := states + [Apply(s, a)], actions + [a];
    forall i | 0 <= i < |taken| ensures Step(longer, taken, i) {
      assert i < |actions| ==> Step(states, actions, i);
    }
    assert longer[|taken|] == Apply(s, a);
  }

  lemma InitReachable(capacity: int)
    ensures Reachable(Init(capacity))
  {
    assert IsRun([Init(capacity)], []);
  }

  // ---------------------------------------------------------------- requests

  lemma Delivered(s: State, id: SubId, m: Message)
    requires DeliveryOk(s) && id in s.subs && m in s.subs[id].puts
    ensures m.id in s.frames && s.frames[m.id].msg == m && id in s.frames[m.id].snapshot
  {
    assert multiset(s.subs[id].puts)[s.frames[m.id].msg] == Served(s.frames[m.id], id);
  }

  lemma LoggedWasDelivered(s: State, e: Entry)
    requires LogOk(s) && DeliveryOk(s) && e in s.log
    ensures e.msg.id in s.frames && e.msg == s.frames[e.msg.id].msg && e.sub in s.frames[e.msg.id].snapshot
  {
    Delivered(s, e.sub, e.msg);
  }

  lemma DecidedIsNotPending(s: State, e: Entry, call: MsgId)
    requires RepliesOk(s) && e in s.log && Decides(e, call)
    ensures call in s.futures && s.futures[call].Pending? ==> call !in s.pending
  {
  }

  lemma UnresolvedWasCancelled(s: State, call: MsgId)
    requires call in s.frames && RequestOk(s, call)
    requires call in s.futures && s.futures[call].Pending? && call !in s.pending
    ensures s.frames[call].stage == Ended(CallerCancelled)
  {
  }

  /** A request without a timeout was routed to some request handler. */
  ghost predicate HasAnswerer(s: State, call: MsgId) {
    call in s.frames && s.frames[call].kind == Request(false) ==>
      exists id :: id in s.frames[call].snapshot && id in s.subs && s.subs[id].isRequest
  }

  lemma AnswererStays(s: State, a: Action, call: MsgId)
    requires Enabled(s, a) && HasAnswerer(s, call)
    ensures HasAnswerer(Apply(s, a), call)
  {
    if call in s.frames {
      FrameSame(s, a, call);
      if s.frames[call].kind == Request(false) {
        var id :| id in s.frames[call].snapshot && id in s.subs && s.subs[id].isRequest;
        SubSame(s, a, id);
        assert Apply(s, a).subs[id] == SubAfter(s, a, id);
      }
    }
  }

  lemma {:induction false} AnswererInRun(states: seq<State>, actions: seq<Action>, i: nat, call: MsgId)
    requires IsRun(states, actions) && i <= |actions|
    ensures HasAnswerer(states[i], call)
  {
    if i > 0 {
      AnswererInRun(states, actions, i - 1, call);
      assert Step(states, actions, i - 1);
      AnswererStays(states[i - 1], actions[i - 1], call);
    }
  }

  /** Nobody waits without a timeout for a topic that only plain subscribers listen to:
      such a request has failed at once. */
  lemma UntimedRequestHasHandler(states: seq<State>, actions: seq<Action>, i: nat, call: MsgId)
    requires IsRun(states, actions) && i <= |actions|
    requires call in states[i].frames && states[i].frames[call].kind == Request(false)
    ensures exists id :: id in states[i].frames[call].snapshot && id in states[i].subs && states[i].subs[id].isRequest
  {
    AnswererInRun(states, actions, i, call);
  }

  /** A request handler that raised or returned a payload has resolved the request it
      served, unless the requester was cancelled first; and it was in the request's
      routing snapshot. */
  lemma DecidedRequestIsResolved(s: State, e: Entry, call: MsgId)
    requires Reachable(s) && e in s.log && Decides(e, call)
    ensures call in s.frames && e.sub in s.frames[call].snapshot && e.msg == s.frames[call].msg
    ensures call in s.futures && s.futures[call].Pending? ==> s.frames[call].stage == Ended(CallerCancelled)
  {
    ReachableInv(s);
    LoggedWasDelivered(s, e);
    DecidedIsNotPending(s, e, call);
    if call in s.futures && s.futures[call].Pending? {
      UnresolvedWasCancelled(s, call);
    }
  }

  /** A reply was made by a handler in the snapshot, for exactly this request, and no
      handler decided the request before it; likewise an error. */
  lemma FirstDecisionWins(s: State, call: MsgId)
    requires Reachable(s) && call in s.futures && (s.futures[call].Replied? || s.futures[call].Failed?)
    ensures call in s.frames
    ensures exists i: nat ::
      && FirstDecides(s.log, call, i)
      && s.log[i].msg == s.frames[call].msg && s.log[i].sub in s.frames[call].snapshot
      && match s.futures[call] {
           case Replied(reply) =>
             && s.log[i].result == Returned(Some(reply.payload))
             && reply.topic == s.frames[call].msg.topic && reply.replyTo == call
           case Failed(error) => s.log[i].result == Raised(error)
           case _ => false
         }
  {
    ReachableInv(s);
    assert FromFirst(s.log, call, s.futures[call]);
    var i: nat :| FirstDecides(s.log, call, i) && match s.futures[call] {
      case Replied(reply) =>
        && s.log[i].result == Returned(Some(reply.payload))
        && reply.topic == s.log[i].msg.topic && reply.replyTo == call
      case Failed(error) => s.log[i].result == Raised(error)
      case _ => false
    };
    assert s.log[i] in s.log;
    Delivered(s, s.log[i].sub, s.log[i].msg);
  }

  /** What a request handler that ends does to the futures, spelled out: the pending future
      of its own request gets the reply or the error, and no other future changes. */
  lemma HandlerSettlesOwnRequest(s: State, id: SubId, task: nat, result: HandlerResult, call: MsgId)
    requires Enabled(s, HandlerEnds(id, task, result)) && call in s.futures
    ensures var m, after := s.subs[id].tasks[task].message, Apply(s, HandlerEnds(id, task, result)).futures;
      && call in after
      && after[call] ==
         if m.id != call || !s.subs[id].isRequest || call !in s.pending || !s.futures[call].Pending?
         then s.futures[call]
         else match result
           case Returned(Some(payload)) => Replied(ReplyMessage(m.topic, payload, s.subs[id].replySender, call))
           case Raised(error) => Failed(error)
           case _ => Pending
  {
  }

  /** What `request` returns or raises is what its future holds; it raises a timeout
      also when the reply came too late to be seen. */
  lemma CallerGetsFuture(s: State, call: MsgId)
    requires Reachable(s) && call in s.frames && s.frames[call].kind.Request? && s.frames[call].stage.Ended?
    ensures call in s.futures && call !in s.pending
    ensures Received(s.frames[call].stage.result, s.frames[call].kind, s.futures[call])
    ensures s.futures[call].Pending? ==> s.frames[call].stage.result == CallerCancelled
  {
    ReachableInv(s);
    assert RequestOk(s, call);
  }

  /** A request that awaits a resolved future can go on, and then returns the reply, or raises
      the error, or the timeout that `stop` has set. */
  lemma ResolvedRequestResumes(s: State, call: MsgId)
    requires Reachable(s) && CallIs(s, call, Awaiting) && call in s.futures && !s.futures[call].Pending?
    ensures Enabled(s, Resume(call))
    ensures Apply(s, Resume(call)).frames[call].stage == Ended(match s.futures[call]
      case Replied(reply) => Reply(reply.payload)
      case Failed(error) => HandlerError(error)
      case _ => TimeoutError)
  {
    ReachableInv(s);
    assert RequestOk(s, call);
  }

  /** The first resolution wins: once resolved a future never changes. */
  lemma {:induction false} ResolvedOnce(states: seq<State>, actions: seq<Action>, i: nat, j: nat, call: MsgId)
    requires IsRun(states, actions) && i <= j <= |actions| && call in states[i].futures
    ensures call in states[j].futures
    ensures !states[i].futures[call].Pending? ==> states[j].futures[call] == states[i].futures[call]
    decreases j - i
  {
    if i < j {
      ResolvedOnce(states, actions, i, j - 1, call);
      assert Step(states, actions, j - 1);
      RunKeepsInv(states, actions, j - 1);
      FutureStep(states[j - 1], actions[j - 1], call);
    }
  }

  /** `stop` leaves no requester waiting: every future is resolved when it ends. */
  lemma StopResolvesAll(s: State, call: MsgId)
    requires Reachable(s) && Enabled(s, StopEnd) && call in s.futures
    ensures Apply(s, StopEnd).pending == {} && call in s.frames
    ensures call in Apply(s, StopEnd).futures
    ensures Apply(s, StopEnd).futures[call].Pending? ==> s.frames[call].stage == Ended(CallerCancelled)
  {
    ReachableInv(s);
    assert RequestOk(s, call);
  }

  // ---------------------------------------------------------------- delivery

  function Occurrences(messages: seq<Message>, m: Message): nat {
    multiset(messages)[m]
  }

  predicate Completed(frame: Frame) {
    frame.stage.Awaiting? || (frame.stage.Ended? && !frame.stage.result.CallerCancelled?)
  }

  lemma CompletedCount(s: State, call: MsgId, id: SubId)
    requires FramesOk(s) && DeliveryOk(s) && call in s.frames && id in s.subs && Completed(s.frames[call])
    ensures Occurrences(s.subs[id].puts, s.frames[call].msg) == if id in s.frames[call].snapshot then 1 else 0
  {
    assert FrameOk(s, s.frames[call]);
    assert s.frames[call].snapshot[..s.frames[call].pos] == s.frames[call].snapshot;
    assert Occurrences(s.subs[id].puts, s.frames[call].msg) == Served(s.frames[call], id);
  }

  /** A completed route put its message exactly once into every subscription of the
      snapshot, and into no other. */
  lemma RoutedExactlyOnce(s: State, call: MsgId, id: SubId)
    requires Reachable(s) && call in s.frames && id in s.subs && Completed(s.frames[call])
    ensures Occurrences(s.subs[id].puts, s.frames[call].msg) == if id in s.frames[call].snapshot then 1 else 0
  {
    ReachableInv(s);
    CompletedCount(s, call, id);
  }

  predicate Begins(a: Action, msg: Message) {
    (a.BeginPublish? || a.BeginRequest?) && a.msg == msg
  }

  /** The snapshot of a call is exactly the subscriptions registered on its topic. */
  lemma SnapshotIsRegistered(s: State, a: Action, msg: Message, id: SubId)
    requires Reachable(s) && Enabled(s, a) && Begins(a, msg)
    ensures s.running && msg.id in Apply(s, a).frames && Apply(s, a).frames[msg.id].msg == msg
    ensures id in Apply(s, a).frames[msg.id].snapshot <==>
      id in s.subs && s.subs[id].topic == msg.topic && Registered(s, id)
  {
    ReachableInv(s);
    assert msg.topic in s.registry ==> OfTopic(s, s.registry[msg.topic], msg.topic);
  }

  /** From call to queue: a completed call has put its message exactly once into every
      subscription that was registered on the topic when the call began, whatever
      subscribed, unsubscribed, started or stopped meanwhile, and into no other. */
  lemma EverySubscriberGetsItOnce(states: seq<State>, actions: seq<Action>, i: nat, j: nat, msg: Message, id: SubId)
    requires IsRun(states, actions) && i < j <= |actions| && Begins(actions[i], msg)
    requires msg.id in states[j].frames && id in states[j].subs && Completed(states[j].frames[msg.id])
    ensures Occurrences(states[j].subs[id].puts, msg)
         == if id in states[i].subs && states[i].subs[id].topic == msg.topic && Registered(states[i], id) then 1 else 0
  {
    assert Step(states, actions, i);
    PrefixReachable(states, actions, i);
    PrefixReachable(states, actions, j);
    SnapshotIsRegistered(states[i], actions[i], msg, id);
    FramesStay(states, actions, i + 1, j, msg.id);
    RoutedExactlyOnce(states[j], msg.id, id);
  }

  lemma PrefixReachable(states: seq<State>, actions: seq<Action>, i: nat)
    requires IsRun(states, actions) && i <= |actions|
    ensures Reachable(states[i])
  {
    var before, taken := states[..i + 1], actions[..i];
    forall k | 0 <= k < i ensures Step(before, taken, k) {
      assert Step(states, actions, k);
    }
    assert IsRun(before, taken) && before[|taken|] == states[i];
  }

  /** A subscription is registered from the moment it is made until it is removed. */
  lemma {:induction false} RegisteredUntilRemoved(states: seq<State>, actions: seq<Action>, i: nat, j: nat, id: SubId)
    requires IsRun(states, actions) && i < j <= |actions| && actions[i].Subscribe? && actions[i].id == id
    ensures id in states[j].subs && states[j].subs[id].topic == actions[i].topic
    ensures states[j].subs[id].isRequest == actions[i].isRequest
    ensures states[j].subs[id].replySender == actions[i].replySender
    ensures Registered(states[j], id) <==> Unsubscribe(id) !in actions[i + 1..j]
    decreases j - i
  {
    assert Step(states, actions, j - 1);
    var s, a := states[j - 1], actions[j - 1];
    if j == i + 1 {
      assert OnTopic(states[j], a.topic)[|OnTopic(s, a.topic)|] == id;
    } else {
      RegisteredUntilRemoved(states, actions, i, j - 1, id);
      RegisteredAfter(s, a, id);
      SubSame(s, a, id);
      assert actions[i + 1..j] == actions[i + 1..j - 1] + [a];
    }
  }

  /** No call, finished or not, puts a message into a subscription twice. */
  lemma NeverTwice(s: State, m: Message, id: SubId)
    requires Reachable(s) && id in s.subs && m in s.subs[id].puts
    ensures Occurrences(s.subs[id].puts, m) == 1
  {
    ReachableInv(s);
    Delivered(s, id, m);
  }

  /** The log entries of a subscription, the message in hand and the queue account
      for every message put, in the order they were put, with only those left out
      that were dropped or cut off. */
  lemma QueueAccounting(s: State, id: SubId)
    requires Reachable(s) && id in s.subs
    ensures s.subs[id].puts == Messages(s.subs[id].settled) + InHand(s.subs[id]) + s.subs[id].queue
    ensures LogOf(s.log, id) == Messages(Filter(s.subs[id].settled, WasHandled))
  {
    ReachableInv(s);
    assert SubOk(s.subs[id], s.capacity);
  }

  /** Actions by which the subscription `id` loses no message. */
  predicate LosesNothing(a: Action, id: SubId) {
    a != Unsubscribe(id) && !a.StopBegin? && !(a.HandlerEnds? && a.id == id && a.result.Aborted?)
  }

  ghost predicate NothingLost(s: State, id: SubId) {
    s.stopping.None? && (id in s.subs ==> AllWereHandled(s.subs[id]))
  }

  ghost predicate AllWereHandled(sub: Sub) {
    forall e :: e in sub.settled ==> e.fate.Handled?
  }

  lemma {:induction false} RunLosesNothing(states: seq<State>, actions: seq<Action>, i: nat, id: SubId)
    requires IsRun(states, actions) && i <= |actions|
    requires forall k :: 0 <= k < i ==> LosesNothing(actions[k], id)
    ensures NothingLost(states[i], id)
  {
    if i > 0 {
      RunLosesNothing(states, actions, i - 1, id);
      assert Step(states, actions, i - 1);
    }
  }

  /** While a subscription is not removed, the bus is not stopped and no handler of this
      subscription aborts, what it handled is a prefix of what was put into its queue. */
  lemma DeliveryIsFifo(states: seq<State>, actions: seq<Action>, i: nat, id: SubId)
    requires IsRun(states, actions) && i <= |actions| && id in states[i].subs
    requires forall k :: 0 <= k < i ==> LosesNothing(actions[k], id)
    ensures LogOf(states[i].log, id) <= states[i].subs[id].puts
    ensures states[i].subs[id].puts == LogOf(states[i].log, id) + InHand(states[i].subs[id]) + states[i].subs[id].queue
  {
    RunLosesNothing(states, actions, i, id);
    RunKeepsInv(states, actions, i);
    HandledIsPrefixOfPuts(states[i].subs[id], states[i].capacity);
  }

  // ---------------------------------------------------------------- publish order

  /** `x` never comes after `y`. */
  ghost predicate Before(messages: seq<Message>, x: Message, y: Message) {
    forall i, j :: 0 <= i < |messages| && 0 <= j < |messages| && messages[i] == x && messages[j] == y ==> i < j
  }

  lemma {:induction false} HandledBefore(settled: seq<Settled>, x: Message, y: Message)
    requires Before(Messages(settled), x, y)
    ensures Before(Messages(Filter(settled, WasHandled)), x, y)
  {
    if settled != [] {
      var front, last := settled[..|settled| - 1], settled[|settled| - 1];
      assert Messages(settled) == Messages(front) + [last.message];
      HandledBefore(front, x, y);
      FilterMembers(front, WasHandled);
      var kept := Messages(Filter(front, WasHandled));
      if last.fate.Handled? {
        assert Messages(Filter(settled, WasHandled)) == kept + [last.message];
        if last.message == x {
          forall j | 0 <= j < |kept| ensures kept[j] != y {
            var e := Filter(front, WasHandled)[j];
            assert e in front;
            var k :| 0 <= k < |front| && front[k] == e;
            assert Messages(settled)[k] == e.message && Messages(settled)[|front|] == x;
          }
          assert x != y by { assert Messages(settled)[|front|] == x; }
        }
      }
    }
  }

  lemma {:induction false} PutsGrow(states: seq<State>, actions: seq<Action>, i: nat, j: nat, id: SubId)
    requires IsRun(states, actions) && i <= j <= |actions| && id in states[i].subs
    ensures id in states[j].subs && states[i].subs[id].puts <= states[j].subs[id].puts
    decreases j - i
  {
    if i < j {
      PutsGrow(states, actions, i, j - 1, id);
      assert Step(states, actions, j - 1);
      PutsStep(states[j - 1], actions[j - 1], id);
    }
  }

  lemma {:induction false} FramesStay(states: seq<State>, actions: seq<Action>, i: nat, j: nat, call: MsgId)
    requires IsRun(states, actions) && i <= j <= |actions| && call in states[i].frames
    ensures call in states[j].frames
    ensures states[j].frames[call].msg == states[i].frames[call].msg
    ensures states[j].frames[call].snapshot == states[i].frames[call].snapshot
    ensures states[i].frames[call].pos <= states[j].frames[call].pos
    decreases j - i
  {
    if i < j {
      FramesStay(states, actions, i, j - 1, call);
      assert Step(states, actions, j - 1);
      FrameSame(states[j - 1], actions[j - 1], call);
    }
  }

  lemma PrefixOrders(early: seq<Message>, late: seq<Message>, x: Message, y: Message)
    requires early <= late && x in early && y !in early && multiset(late)[x] == 1
    ensures Before(late, x, y)
  {
    assert late == early + late[|early|..];
    assert multiset(late) == multiset(early) + multiset(late[|early|..]);
    assert x !in late[|early|..];
    forall i, j | 0 <= i < |late| && 0 <= j < |late| && late[i] == x && late[j] == y ensures i < j {
      assert i < |early|;
      assert late[..|early|] == early;
    }
  }

  lemma RoutedIsPut(s: State, call: MsgId, id: SubId)
    requires FramesOk(s) && DeliveryOk(s) && call in s.frames
    requires s.frames[call].pos == |s.frames[call].snapshot| && id in s.frames[call].snapshot
    ensures id in s.subs && s.frames[call].msg in s.subs[id].puts
  {
    assert FrameOk(s, s.frames[call]);
    assert s.frames[call].snapshot[..s.frames[call].pos] == s.frames[call].snapshot;
    assert multiset(s.subs[id].puts)[s.frames[call].msg] == Served(s.frames[call], id) == 1;
  }

  lemma PutOnce(s: State, id: SubId, m: Message)
    requires DeliveryOk(s) && id in s.subs && m in s.subs[id].puts
    ensures multiset(s.subs[id].puts)[m] == 1
  {
    assert multiset(s.subs[id].puts)[s.frames[m.id].msg] == Served(s.frames[m.id], id);
  }

  lemma UnknownIsNotPut(s: State, id: SubId, m: Message)
    requires DeliveryOk(s) && id in s.subs && m.id !in s.frames
    ensures m !in s.subs[id].puts
  {
  }

  /** Publish order is the order of the queues. */
  lemma PublishOrderIsPutOrder(states: seq<State>, actions: seq<Action>, i: nat, j: nat,
                               first: MsgId, second: Message, id: SubId)
    requires IsRun(states, actions) && i <= j <= |actions| && id in states[j].subs
    requires first in states[i].frames && states[i].frames[first].pos == |states[i].frames[first].snapshot|
    requires second.id !in states[i].frames
    ensures Before(states[j].subs[id].puts, states[i].frames[first].msg, second)
  {
    var x := states[i].frames[first].msg;
    RunKeepsInv(states, actions, i);
    RunKeepsInv(states, actions, j);
    FramesStay(states, actions, i, j, first);
    if x in states[j].subs[id].puts {
      assert x.id == first;
      Delivered(states[j], id, x);
      RoutedIsPut(states[i], first, id);
      UnknownIsNotPut(states[i], id, second);
      PutOnce(states[j], id, x);
      PutsGrow(states, actions, i, j, id);
      PrefixOrders(states[i].subs[id].puts, states[j].subs[id].puts, x, second);
    }
  }

  lemma HandlingFollowsPuts(sub: Sub, capacity: int, x: Message, y: Message)
    requires SubOk(sub, capacity) && Before(sub.puts, x, y)
    ensures Before(HandledBy(sub), x, y)
  {
    var settled := Messages(sub.settled);
    assert forall k :: 0 <= k < |settled| ==> settled[k] == sub.puts[k];
    HandledBefore(sub.settled, x, y);
  }

  /** Publish order is delivery order: a message whose routing was over before another
      call began is handled first by every subscription that handles both. */
  lemma PublishOrderIsHandlingOrder(states: seq<State>, actions: seq<Action>, i: nat, j: nat,
                                    first: MsgId, second: Message, id: SubId)
    requires IsRun(states, actions) && i <= j <= |actions| && id in states[j].subs
    requires first in states[i].frames && states[i].frames[first].pos == |states[i].frames[first].snapshot|
    requires second.id !in states[i].frames
    ensures Before(LogOf(states[j].log, id), states[i].frames[first].msg, second)
  {
    PublishOrderIsPutOrder(states, actions, i, j, first, second, id);
    RunKeepsInv(states, actions, j);
    assert SubOk(states[j].subs[id], states[j].capacity);
    HandlingFollowsPuts(states[j].subs[id], states[j].capacity, states[i].frames[first].msg, second);
  }

  // ---------------------------------------------------------------- lifecycle

  /** At most one dispatcher of a subscription is live, it is the one the subscription
      knows, and none is live once the bus is stopped or the subscription removed. */
  lemma OneLiveDispatcher(s: State, id: SubId, j: nat, k: nat)
    requires Reachable(s) && id in s.subs && j < |s.subs[id].tasks| && k < |s.subs[id].tasks|
    requires Live(s.subs[id].tasks[j]) && Live(s.subs[id].tasks[k])
    ensures j == k && s.subs[id].dispatcher == Some(j) && s.running && Registered(s, id)
  {
    ReachableInv(s);
    assert SubOk(s.subs[id], s.capacity) && Quiet(s, id);
  }

  lemma {:induction false} StopRemembers(states: seq<State>, actions: seq<Action>, i: nat, j: nat)
    requires IsRun(states, actions) && i < j <= |actions| && actions[i].StopBegin?
    requires forall k :: i < k < j ==> !actions[k].StopEnd?
    ensures !states[j].running && states[j].stopping == states[i + 1].stopping && states[j].stopping.Some?
    decreases j - i
  {
    assert Step(states, actions, j - 1);
    if j > i + 1 {
      StopRemembers(states, actions, i, j - 1);
    }
  }

  /** `stop` awaits the dispatchers it cancelled: when it goes on to detach the subscriptions,
      the dispatcher of every subscription that was registered when it began is over. */
  lemma StopAwaitsDispatchers(states: seq<State>, actions: seq<Action>, i: nat, j: nat, id: SubId)
    requires IsRun(states, actions) && i < j < |actions| && actions[i].StopBegin? && actions[j].StopEnd?
    requires forall k :: i < k < j ==> !actions[k].StopEnd?
    requires Registered(states[i], id)
    ensures states[i].subs[id].dispatcher.Some? && id in states[j].subs
    ensures var task := states[i].subs[id].dispatcher.value;
      task < |states[j].subs[id].tasks| && states[j].subs[id].tasks[task].Done?
  {
    assert Step(states, actions, i) && Step(states, actions, j);
    RunKeepsInv(states, actions, i);
    assert Quiet(states[i], id);
    StopRemembers(states, actions, i, j);
    assert id in states[j].stopping.value.dispatchers;
  }

  /** A failing handler stops neither its dispatcher nor any other subscription. */
  lemma FailureIsIsolated(s: State, id: SubId, task: nat, error: string, other: SubId)
    requires Reachable(s) && Enabled(s, HandlerEnds(id, task, Raised(error))) && other in s.subs
    ensures var s' := Apply(s, HandlerEnds(id, task, Raised(error)));
      && s'.subs[id].tasks[task].Waiting? && s'.subs[id].dispatcher == Some(task)
      && s'.subs[id].queue == s.subs[id].queue
      && (other != id ==> s'.subs[other] == s.subs[other])
      && s'.frames == s.frames && s'.registry == s.registry
  {
    ReachableInv(s);
    assert SubOk(s.subs[id], s.capacity);
    assert Live(s.subs[id].tasks[task]);
  }

  /** A bounded queue is never over-full, and has been warned about whenever it stands
      at the threshold; warnings and crossings of the threshold differ only by drains
      that left the flag set. */
  lemma WatermarkHolds(s: State, id: SubId)
    requires Reachable(s) && id in s.subs && s.capacity > 0
    ensures |s.subs[id].queue| <= s.capacity && 1 <= Threshold(s.capacity) <= s.capacity
    ensures 5 * Threshold(s.capacity) <= 4 * s.capacity || Threshold(s.capacity) == 1
    ensures 5 * (Threshold(s.capacity) + 1) > 4 * s.capacity
    ensures |s.subs[id].queue| >= Threshold(s.capacity) ==> s.subs[id].warned
    ensures s.subs[id].warnings <= s.subs[id].crossings <= s.subs[id].warnings + s.subs[id].staleDrains
    ensures s.subs[id].staleDrains == 0 ==> (s.subs[id].warned <==> |s.subs[id].queue| >= Threshold(s.capacity))
  {
    ReachableInv(s);
    FullQueueWasWarned(s.subs[id], s.capacity);
  }
}
