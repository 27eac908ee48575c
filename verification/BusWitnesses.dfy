/** Runs that show what the bus does not promise: a request that hangs, a publisher that
    blocks, a warning that is not given. One subscription, 0, on one topic, is enough. */
module BusWitnesses {
  import opened Seqs
  import opened BusModel
  import opened SubLaws
  import opened BusInvariants
  import opened BusRuns
  import opened BusStalls
  import opened BusWarnings

  const TOPIC := "bond.created"

  /** A bus whose only subscription is number 0. */
  function One(capacity: int, sub: Sub, frames: map<MsgId, Frame>, futures: map<MsgId, Future>, pending: set<MsgId>,
      running: bool, stopping: Option<StopFrame>, log: seq<Entry>): State {
    State(capacity, map[TOPIC := [0]], map[0 := sub], frames, futures, pending, running, stopping, log)
  }

  function Request(id: MsgId): Message {
    Message(id, TOPIC, "", "")
  }

  function Listener(isRequest: bool): Sub {
    NewSub(TOPIC, isRequest, "")
  }

  /** A run grows by one enabled action. */
  lemma Grow(states: seq<State>, actions: seq<Action>, a: Action, s: State)
    returns (longer: seq<State>, taken: seq<Action>)
    requires IsRun(states, actions) && Enabled(states[|actions|], a) && s == Apply(states[|actions|], a)
    ensures IsRun(longer, taken) && longer == states + [s] && taken == actions + [a]
    ensures |longer| == |actions| + 2 && longer[|actions| + 1] == s
  {
    longer, taken := states + [s], actions + [a];
    forall i | 0 <= i < |taken| ensures Step(longer, taken, i) {
      assert i < |actions| ==> Step(states, actions, i);
    }
  }

  lemma Subscribes(capacity: int, isRequest: bool)
    ensures Enabled(Init(capacity), Subscribe(0, TOPIC, isRequest, ""))
    ensures Apply(Init(capacity), Subscribe(0, TOPIC, isRequest, ""))
         == One(capacity, Listener(isRequest), map[], map[], {}, false, None, [])
  {
    var s := Apply(Init(capacity), Subscribe(0, TOPIC, isRequest, ""));
    assert s.subs == map[0 := Listener(isRequest)];
    assert [] + [0] == [0];
    assert s.registry == map[TOPIC := [0]];
  }

  lemma Starts(capacity: int, sub: Sub, frames: map<MsgId, Frame>, futures: map<MsgId, Future>, log: seq<Entry>)
    requires sub.topic == TOPIC
    ensures var s := One(capacity, sub, frames, futures, {}, false, None, log);
      Enabled(s, Start) && Apply(s, Start) == One(capacity, Spawn(sub), frames, futures, {}, true, None, log)
  {
    var s := One(capacity, sub, frames, futures, {}, false, None, log);
    assert Registered(s, 0);
    assert Apply(s, Start).subs == map[0 := Spawn(sub)];
  }

  lemma Begun(capacity: int, sub: Sub, frames: map<MsgId, Frame>, futures: map<MsgId, Future>, pending: set<MsgId>,
      log: seq<Entry>, m: Message, timed: bool)
    requires sub.topic == TOPIC == m.topic && m.id !in frames && (timed || sub.isRequest)
    ensures var s := One(capacity, sub, frames, futures, pending, true, None, log);
      Enabled(s, BeginRequest(m, timed)) && Apply(s, BeginRequest(m, timed))
        == One(capacity, sub, frames[m.id := Frame(m, Kind.Request(timed), [0], 0, Routing)],
               futures[m.id := Pending], pending + {m.id}, true, None, log)
  {
    var s := One(capacity, sub, frames, futures, pending, true, None, log);
    assert 0 in OnTopic(s, TOPIC) by { assert OnTopic(s, TOPIC)[0] == 0; }
    assert Apply(s, BeginRequest(m, timed)).subs == map[0 := sub];
  }

  lemma Published(capacity: int, sub: Sub, frames: map<MsgId, Frame>, futures: map<MsgId, Future>, pending: set<MsgId>,
      log: seq<Entry>, m: Message)
    requires sub.topic == TOPIC == m.topic && m.id !in frames
    ensures var s := One(capacity, sub, frames, futures, pending, true, None, log);
      Enabled(s, BeginPublish(m)) && Apply(s, BeginPublish(m))
        == One(capacity, sub, frames[m.id := Frame(m, Publish, [0], 0, Routing)], futures, pending, true, None, log)
  {
    var s := One(capacity, sub, frames, futures, pending, true, None, log);
    assert Apply(s, BeginPublish(m)).subs == map[0 := sub];
  }

  lemma Puts(capacity: int, sub: Sub, frames: map<MsgId, Frame>, futures: map<MsgId, Future>, pending: set<MsgId>,
      log: seq<Entry>, call: MsgId)
    requires call in frames && frames[call].stage.Routing? && frames[call].pos == 0 && frames[call].snapshot == [0]
    requires capacity <= 0 || |sub.queue| < capacity
    ensures var s := One(capacity, sub, frames, futures, pending, true, None, log);
      Enabled(s, PutNext(call)) && NextSub(s, call) == 0 && Apply(s, PutNext(call))
        == One(capacity, Put(sub, frames[call].msg, Threshold(capacity)), frames[call := frames[call].(pos := 1)],
               futures, pending, true, None, log)
  {
    var s := One(capacity, sub, frames, futures, pending, true, None, log);
    assert Apply(s, PutNext(call)).subs == map[0 := Put(sub, frames[call].msg, Threshold(capacity))];
  }

  lemma Routed(capacity: int, sub: Sub, frames: map<MsgId, Frame>, futures: map<MsgId, Future>, pending: set<MsgId>,
      log: seq<Entry>, call: MsgId)
    requires call in frames && frames[call].stage.Routing? && frames[call].pos == 1 && frames[call].snapshot == [0]
    ensures var s := One(capacity, sub, frames, futures, pending, true, None, log);
      Enabled(s, RouteDone(call)) && Apply(s, RouteDone(call))
        == One(capacity, sub,
               frames[call := frames[call].(stage :=
                 if frames[call].kind.Publish? then Ended(BusModel.Published) else Awaiting)],
               futures, pending, true, None, log)
  {
    var s := One(capacity, sub, frames, futures, pending, true, None, log);
    assert Apply(s, RouteDone(call)).subs == map[0 := sub];
  }

  lemma Takes(capacity: int, sub: Sub, frames: map<MsgId, Frame>, futures: map<MsgId, Future>, pending: set<MsgId>,
      log: seq<Entry>)
    requires |sub.tasks| == 1 && sub.tasks[0].Waiting? && sub.queue != []
    ensures var s := One(capacity, sub, frames, futures, pending, true, None, log);
      Enabled(s, GetNext(0, 0)) && Apply(s, GetNext(0, 0))
        == One(capacity, Take(sub, 0, Threshold(capacity)), frames, futures, pending, true, None, log)
  {
    var s := One(capacity, sub, frames, futures, pending, true, None, log);
    assert Apply(s, GetNext(0, 0)).subs == map[0 := Take(sub, 0, Threshold(capacity))];
  }

  lemma Aborted(capacity: int, sub: Sub, frames: map<MsgId, Frame>, futures: map<MsgId, Future>, pending: set<MsgId>,
      log: seq<Entry>)
    requires |sub.tasks| == 1 && sub.tasks[0].Handling?
    ensures var s := One(capacity, sub, frames, futures, pending, true, None, log);
      Enabled(s, HandlerEnds(0, 0, HandlerResult.Aborted)) && Apply(s, HandlerEnds(0, 0, HandlerResult.Aborted))
        == One(capacity, Finish(sub, 0, HandlerResult.Aborted), frames, futures, pending, true, None, log)
  {
    var s := One(capacity, sub, frames, futures, pending, true, None, log);
    assert Apply(s, HandlerEnds(0, 0, HandlerResult.Aborted)).subs == map[0 := Finish(sub, 0, HandlerResult.Aborted)];
  }

  // ---------------------------------------------------------------- a request that hangs

  /** A running bus with its one subscription. */
  lemma Serves(capacity: int, isRequest: bool) returns (states: seq<State>, actions: seq<Action>)
    ensures IsRun(states, actions) && actions == [Subscribe(0, TOPIC, isRequest, ""), Start]
    ensures states[2] == One(capacity, Spawn(Listener(isRequest)), map[], map[], {}, true, None, [])
  {
    states, actions := [Init(capacity)], [];
    Subscribes(capacity, isRequest);
    states, actions := Grow(states, actions, Subscribe(0, TOPIC, isRequest, ""),
      One(capacity, Listener(isRequest), map[], map[], {}, false, None, []));
    Starts(capacity, Listener(isRequest), map[], map[], []);
    states, actions := Grow(states, actions, Start,
      One(capacity, Spawn(Listener(isRequest)), map[], map[], {}, true, None, []));
  }

  function Awaited(m: Message): Frame {
    Frame(m, Kind.Request(false), [0], 1, Awaiting)
  }

  /** An untimed request is made and put into the queue of the only handler. */
  lemma Routes(before: seq<State>, taken: seq<Action>, capacity: int, sub: Sub, m: Message)
    returns (states: seq<State>, actions: seq<Action>)
    requires IsRun(before, taken) && sub.topic == TOPIC == m.topic && sub.isRequest && sub.queue == []
    requires before[|taken|] == One(capacity, sub, map[], map[], {}, true, None, [])
    ensures IsRun(states, actions)
    ensures actions == taken + [BeginRequest(m, false), PutNext(m.id), RouteDone(m.id)]
    ensures states[|actions|] == One(capacity, Put(sub, m, Threshold(capacity)),
      map[m.id := Awaited(m)], map[m.id := Pending], {m.id}, true, None, [])
  {
    var routing, put := Frame(m, Kind.Request(false), [0], 0, Routing), Put(sub, m, Threshold(capacity));
    Begun(capacity, sub, map[], map[], {}, [], m, false);
    states, actions := Grow(before, taken, BeginRequest(m, false),
      One(capacity, sub, map[m.id := routing], map[m.id := Pending], {m.id}, true, None, []));
    Puts(capacity, sub, map[m.id := routing], map[m.id := Pending], {m.id}, [], m.id);
    states, actions := Grow(states, actions, PutNext(m.id),
      One(capacity, put, map[m.id := routing.(pos := 1)], map[m.id := Pending], {m.id}, true, None, []));
    Routed(capacity, put, map[m.id := routing.(pos := 1)], map[m.id := Pending], {m.id}, [], m.id);
    states, actions := Grow(states, actions, RouteDone(m.id),
      One(capacity, put, map[m.id := Awaited(m)], map[m.id := Pending], {m.id}, true, None, []));
  }

  /** An untimed request is in the queue of the only handler. */
  lemma Queues(capacity: int) returns (states: seq<State>, actions: seq<Action>)
    ensures IsRun(states, actions)
    ensures actions == [Subscribe(0, TOPIC, true, ""), Start, BeginRequest(Request(1), false), PutNext(1), RouteDone(1)]
    ensures states[5] == One(capacity, Put(Spawn(Listener(true)), Request(1), Threshold(capacity)),
      map[1 := Awaited(Request(1))], map[1 := Pending], {1}, true, None, [])
  {
    states, actions := Serves(capacity, true);
    states, actions := Routes(states, actions, capacity, Spawn(Listener(true)), Request(1));
  }

  /** The subscription once the handler of `m` has aborted. */
  function AbortedSub(m: Message, threshold: nat): Sub {
    Finish(Take(Put(Spawn(Listener(true)), m, threshold), 0, threshold), 0, HandlerResult.Aborted)
  }

  /** The handler takes the request and aborts. */
  lemma Aborting(capacity: int) returns (states: seq<State>, actions: seq<Action>)
    ensures IsRun(states, actions)
    ensures actions == [Subscribe(0, TOPIC, true, ""), Start, BeginRequest(Request(1), false), PutNext(1),
                        RouteDone(1), GetNext(0, 0), HandlerEnds(0, 0, HandlerResult.Aborted)]
    ensures states[7] == One(capacity, AbortedSub(Request(1), Threshold(capacity)),
      map[1 := Awaited(Request(1))], map[1 := Pending], {1}, true, None, [])
  {
    var frames := map[1 := Awaited(Request(1))];
    var put := Put(Spawn(Listener(true)), Request(1), Threshold(capacity));
    states, actions := Queues(capacity);
    Takes(capacity, put, frames, map[1 := Pending], {1}, []);
    var taken := Take(put, 0, Threshold(capacity));
    states, actions := Grow(states, actions, GetNext(0, 0),
      One(capacity, taken, frames, map[1 := Pending], {1}, true, None, []));
    Aborted(capacity, taken, frames, map[1 := Pending], {1}, []);
    states, actions := Grow(states, actions, HandlerEnds(0, 0, HandlerResult.Aborted),
      One(capacity, Finish(taken, 0, HandlerResult.Aborted), frames, map[1 := Pending], {1}, true, None, []));
  }

  /** The only handler of an untimed request aborts. Nobody serves the subscription any
      more, and the request is pending and stranded, so that it hangs. */
  lemma AbortStrandsRequest() returns (states: seq<State>, actions: seq<Action>)
    ensures IsRun(states, actions)
    ensures actions == [Subscribe(0, TOPIC, true, ""), Start, BeginRequest(Request(1), false), PutNext(1),
                        RouteDone(1), GetNext(0, 0), HandlerEnds(0, 0, HandlerResult.Aborted)]
    ensures states[7].running && Registered(states[7], 0) && 0 in states[7].subs && !Attended(states[7].subs[0])
    ensures Stranded(states[7], 1)
  {
    states, actions := Aborting(0);
    assert OnTopic(states[7], TOPIC)[0] == 0;
  }

  // ---------------------------------------------------------------- a publisher that blocks

  /** After the abort a second message fills the queue of capacity 1, and a third call, a
      request with a timeout, blocks in front of it without its clock running. */
  lemma TimedRequestBlocks() returns (states: seq<State>, actions: seq<Action>)
    ensures IsRun(states, actions) && |actions| == 10
    ensures Blocked(states[10], 3, 0, 0) && states[10].frames[3].kind == Kind.Request(true)
  {
    states, actions := Aborting(1);
    var sub, frames := AbortedSub(Request(1), 1), map[1 := Awaited(Request(1))];
    var second := Frame(Request(2), Publish, [0], 0, Routing);
    var published := frames[2 := second];
    Published(1, sub, frames, map[1 := Pending], {1}, [], Request(2));
    states, actions := Grow(states, actions, BeginPublish(Request(2)),
      One(1, sub, published, map[1 := Pending], {1}, true, None, []));
    states, actions := FillsQueue(states, actions, sub, published);
  }

  lemma FillsQueue(before: seq<State>, taken: seq<Action>, sub: Sub, frames: map<MsgId, Frame>)
    returns (states: seq<State>, actions: seq<Action>)
    requires IsRun(before, taken) && 3 !in frames && 2 in frames
    requires frames[2] == Frame(Request(2), Publish, [0], 0, Routing)
    requires sub.topic == TOPIC && sub.queue == [] && NoneLive(sub)
    requires before[|taken|] == One(1, sub, frames, map[1 := Pending], {1}, true, None, [])
    ensures IsRun(states, actions) && |actions| == |taken| + 2
    ensures Blocked(states[|actions|], 3, 0, 0) && states[|actions|].frames[3].kind == Kind.Request(true)
  {
    Puts(1, sub, frames, map[1 := Pending], {1}, [], 2);
    var full, waiting := Put(sub, Request(2), 1), frames[2 := frames[2].(pos := 1)];
    states, actions := Grow(before, taken, PutNext(2), One(1, full, waiting, map[1 := Pending], {1}, true, None, []));
    Begun(1, full, waiting, map[1 := Pending], {1}, [], Request(3), true);
    states, actions := Grow(states, actions, BeginRequest(Request(3), true),
      One(1, full, waiting[3 := Frame(Request(3), Kind.Request(true), [0], 0, Routing)],
          map[1 := Pending][3 := Pending], {1} + {3}, true, None, []));
  }

  // ---------------------------------------------------------------- a warning that is not given

  lemma StopBegins(capacity: int, sub: Sub, frames: map<MsgId, Frame>)
    requires sub.topic == TOPIC && sub.dispatcher == Some(0)
    ensures var s := One(capacity, sub, frames, map[], {}, true, None, []);
      Enabled(s, StopBegin) && Apply(s, StopBegin)
        == One(capacity, Cancel(sub), frames, map[], {}, false, Some(StopFrame({0}, map[0 := 0])), [])
  {
    var s := One(capacity, sub, frames, map[], {}, true, None, []);
    assert Registered(s, 0) by { assert OnTopic(s, TOPIC)[0] == 0; }
    assert Registry(s) == {0};
    assert Apply(s, StopBegin).subs == map[0 := Cancel(sub)];
    assert Apply(s, StopBegin).stopping.value.dispatchers == map[0 := 0];
  }

  lemma CancelArrives(capacity: int, sub: Sub, frames: map<MsgId, Frame>)
    requires |sub.tasks| == 1 && sub.tasks[0].Cancelling?
    ensures var s := One(capacity, sub, frames, map[], {}, false, Some(StopFrame({0}, map[0 := 0])), []);
      Enabled(s, CancelDelivered(0, 0)) && Apply(s, CancelDelivered(0, 0))
        == One(capacity, sub.(tasks := [Done]), frames, map[], {}, false, Some(StopFrame({0}, map[0 := 0])), [])
  {
    var s := One(capacity, sub, frames, map[], {}, false, Some(StopFrame({0}, map[0 := 0])), []);
    assert sub.tasks[0 := Done] == [Done];
    assert Apply(s, CancelDelivered(0, 0)).subs == map[0 := sub.(tasks := [Done])];
  }

  lemma StopEnds(capacity: int, sub: Sub, frames: map<MsgId, Frame>)
    requires sub.tasks == [Done]
    ensures var s := One(capacity, sub, frames, map[], {}, false, Some(StopFrame({0}, map[0 := 0])), []);
      Enabled(s, StopEnd) && Apply(s, StopEnd) == One(capacity, Detach(sub), frames, map[], {}, false, None, [])
  {
    var s := One(capacity, sub, frames, map[], {}, false, Some(StopFrame({0}, map[0 := 0])), []);
    assert Apply(s, StopEnd).subs == map[0 := Detach(sub)];
    assert Apply(s, StopEnd).futures == map[];
  }

  /** A message is published into an empty queue of capacity 1. */
  lemma Fills(before: seq<State>, taken: seq<Action>, sub: Sub, frames: map<MsgId, Frame>, m: Message)
    returns (states: seq<State>, actions: seq<Action>)
    requires IsRun(before, taken) && sub.topic == TOPIC == m.topic && sub.queue == [] && m.id !in frames
    requires before[|taken|] == One(1, sub, frames, map[], {}, true, None, [])
    ensures IsRun(states, actions) && actions == taken + [BeginPublish(m), PutNext(m.id)]
    ensures states[|actions|]
         == One(1, Put(sub, m, 1), frames[m.id := Frame(m, Publish, [0], 1, Routing)], map[], {}, true, None, [])
  {
    var routing := frames[m.id := Frame(m, Publish, [0], 0, Routing)];
    Published(1, sub, frames, map[], {}, [], m);
    states, actions := Grow(before, taken, BeginPublish(m), One(1, sub, routing, map[], {}, true, None, []));
    Puts(1, sub, routing, map[], {}, [], m.id);
    assert routing[m.id := Frame(m, Publish, [0], 1, Routing)] == frames[m.id := Frame(m, Publish, [0], 1, Routing)];
    states, actions := Grow(states, actions, PutNext(m.id),
      One(1, Put(sub, m, 1), frames[m.id := Frame(m, Publish, [0], 1, Routing)], map[], {}, true, None, []));
  }

  /** A message fills the queue of capacity 1 and is warned about. */
  lemma FirstFill() returns (states: seq<State>, actions: seq<Action>)
    ensures IsRun(states, actions)
    ensures actions == [Subscribe(0, TOPIC, false, ""), Start, BeginPublish(Request(1)), PutNext(1)]
    ensures states[4] == One(1, Put(Spawn(Listener(false)), Request(1), 1),
      map[1 := Frame(Request(1), Publish, [0], 1, Routing)], map[], {}, true, None, [])
  {
    states, actions := Serves(1, false);
    states, actions := Fills(states, actions, Spawn(Listener(false)), map[], Request(1));
  }

  /** The subscription after the first fill and a stop. */
  function Drained(): Sub {
    Detach(Cancel(Put(Spawn(Listener(false)), Request(1), 1)).(tasks := [Done]))
  }

  /** The bus begins to stop and its dispatcher ends. */
  lemma StopWaits() returns (states: seq<State>, actions: seq<Action>)
    ensures IsRun(states, actions)
    ensures actions == [Subscribe(0, TOPIC, false, ""), Start, BeginPublish(Request(1)), PutNext(1),
                        StopBegin, CancelDelivered(0, 0)]
    ensures states[6] == One(1, Cancel(Put(Spawn(Listener(false)), Request(1), 1)).(tasks := [Done]),
      map[1 := Frame(Request(1), Publish, [0], 1, Routing)], map[], {}, false, Some(StopFrame({0}, map[0 := 0])), [])
  {
    var sub := Put(Spawn(Listener(false)), Request(1), 1);
    var frames, stop := map[1 := Frame(Request(1), Publish, [0], 1, Routing)], Some(StopFrame({0}, map[0 := 0]));
    states, actions := FirstFill();
    StopBegins(1, sub, frames);
    states, actions := Grow(states, actions, StopBegin, One(1, Cancel(sub), frames, map[], {}, false, stop, []));
    CancelArrives(1, Cancel(sub), frames);
    states, actions := Grow(states, actions, CancelDelivered(0, 0),
      One(1, Cancel(sub).(tasks := [Done]), frames, map[], {}, false, stop, []));
  }

  /** The stop drains the queue, and the bus starts again. */
  lemma Restarts() returns (states: seq<State>, actions: seq<Action>)
    ensures IsRun(states, actions)
    ensures actions == [Subscribe(0, TOPIC, false, ""), Start, BeginPublish(Request(1)), PutNext(1),
                        StopBegin, CancelDelivered(0, 0), StopEnd, Start]
    ensures states[8] == One(1, Spawn(Drained()), map[1 := Frame(Request(1), Publish, [0], 1, Routing)],
      map[], {}, true, None, [])
  {
    var ended := Cancel(Put(Spawn(Listener(false)), Request(1), 1)).(tasks := [Done]);
    var frames := map[1 := Frame(Request(1), Publish, [0], 1, Routing)];
    states, actions := StopWaits();
    StopEnds(1, ended, frames);
    states, actions := Grow(states, actions, StopEnd, One(1, Drained(), frames, map[], {}, false, None, []));
    Starts(1, Drained(), frames, map[], []);
    states, actions := Grow(states, actions, Start, One(1, Spawn(Drained()), frames, map[], {}, true, None, []));
  }

  lemma RefillIsNotWarned()
    ensures var refilled := Put(Spawn(Drained()), Request(2), 1); refilled.crossings == 2 && refilled.warnings == 1
  {
  }

  /** A queue fills, the bus stops and starts again, the queue fills again: the threshold
      is crossed twice, and the second time, after the drain, nobody is warned. */
  lemma SecondCrossingUnwarned() returns (states: seq<State>, actions: seq<Action>)
    ensures IsRun(states, actions)
    ensures actions == [Subscribe(0, TOPIC, false, ""), Start, BeginPublish(Request(1)), PutNext(1),
                        StopBegin, CancelDelivered(0, 0), StopEnd, Start, BeginPublish(Request(2)), PutNext(2)]
    ensures 0 in states[10].subs && states[10].subs[0].crossings == 2 && states[10].subs[0].warnings == 1
  {
    states, actions := Restarts();
    RefillIsNotWarned();
    states, actions :=
      Fills(states, actions, Spawn(Drained()), map[1 := Frame(Request(1), Publish, [0], 1, Routing)], Request(2));
  }
}
