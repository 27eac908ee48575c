/** The bus as objects updated in place. Each method is one stretch of code between
    two suspension points, and is proved to be the step of that name of `BusModel`;
    `model` is the state of the step machine the fields stand for. A subscription is
    referred to by its number, and the locals of a suspended `publish` or `request`
    are kept in `frames`. */
module AsyncQueueBus {
  import opened Seqs
  import opened BusModel
  import opened SubLaws
  import opened BusInvariants
  import opened BusRuns

  const ALL_TOPICS: set<string> := {
    "bond.created", "bond.updated", "bond.deleted", "broker.created", "broker.updated", "broker.deleted",
    "broker_account.created", "broker_account.updated", "broker_account.deleted",
    "transaction.created", "transaction.updated", "transaction.deleted",
    "position.updated", "portfolio.recalculated"}

  class Subscription {
    const id: SubId
    const topic: string
    const isRequestHandler: bool
    const replySender: string
    var queue: seq<Message>
    var dispatcher: Option<nat>
    var warned: bool
    var tasks: seq<Task>
    ghost var model: Sub

    ghost predicate Valid()
      reads this
    {
      && model.topic == topic && model.isRequest == isRequestHandler && model.replySender == replySender
      && model.queue == queue && model.dispatcher == dispatcher && model.warned == warned && model.tasks == tasks
      && (dispatcher.Some? ==> dispatcher.value < |tasks|)
    }

    constructor (id: SubId, topic: string, isRequestHandler: bool, replySender: string)
      ensures Valid() && this.id == id && model == NewSub(topic, isRequestHandler, replySender)
    {
      this.id, this.topic, this.isRequestHandler, this.replySender := id, topic, isRequestHandler, replySender;
      queue, dispatcher, warned, tasks := [], None, false, [];
      model := NewSub(topic, isRequestHandler, replySender);
    }

    /** `_ensure_dispatcher` */
    method EnsureDispatcher() returns (spawned: bool)
      requires Valid()
      modifies this
      ensures Valid() && model == Spawn(old(model))
      ensures spawned <==> old(dispatcher).None? || old(tasks)[old(dispatcher).value].Done?
      ensures dispatcher == if spawned then Some(|old(tasks)|) else old(dispatcher)
      ensures tasks == if spawned then old(tasks) + [Waiting] else old(tasks)
    {
      model := Spawn(model);
      if dispatcher.Some? && !tasks[dispatcher.value].Done? {
        return false;
      }
      dispatcher, tasks := Some(|tasks|), tasks + [Waiting];
      spawned := true;
    }

    /** `dispatcher.cancel()`, without effect on a task that is over. */
    method CancelDispatcher()
      requires Valid()
      modifies this
      ensures Valid() && model == Cancel(old(model)) && queue == old(queue) && dispatcher == old(dispatcher)
      ensures tasks == if dispatcher.Some? && Live(old(tasks)[dispatcher.value])
                       then old(tasks)[dispatcher.value := Cancelling] else old(tasks)
    {
      model := Cancel(model);
      if dispatcher.Some? && Live(tasks[dispatcher.value]) {
        tasks := tasks[dispatcher.value := Cancelling];
      }
    }

    /** `_drain` */
    method Drain() returns (dropped: nat)
      modifies this`queue
      ensures queue == [] && dropped == |old(queue)|
    {
      dropped := 0;
      while queue != []
        invariant dropped + |queue| == |old(queue)|
        decreases |queue|
      {
        queue := queue[1..];
        dropped := dropped + 1;
      }
    }

    method DropDispatcher() returns (dropped: nat)
      requires Valid() && NoneLive(model)
      modifies this
      ensures Valid() && model == Detach(old(model)) && dropped == |old(queue)|
      ensures queue == [] && dispatcher.None? && tasks == old(tasks) && warned == old(warned)
    {
      dispatcher := None;
      dropped := Drain();
      model := Detach(model);
    }

    /** What a removal does to the subscription itself. */
    method Retire() returns (dropped: nat)
      requires Valid() && NoneLive(Cancel(model))
      modifies this
      ensures Valid() && model == Detach(Cancel(old(model)))
    {
      if dispatcher.Some? {
        CancelDispatcher();
      }
      dropped := DropDispatcher();
    }

    /** The end of `queue.put` and the watermark check after it. */
    method Put(m: Message, threshold: nat)
      requires Valid()
      modifies this
      ensures Valid() && model == BusModel.Put(old(model), m, threshold)
      ensures queue == old(queue) + [m] && dispatcher == old(dispatcher) && tasks == old(tasks)
      ensures warned <==> old(warned) || (threshold > 0 && |queue| >= threshold)
    {
      model := BusModel.Put(model, m, threshold);
      queue := queue + [m];
      if threshold == 0 || warned {
        return;
      }
      if |queue| >= threshold {
        warned := true;
      }
    }

    /** The end of `queue.get` in the dispatcher `task`, up to the call of the handler. */
    method Get(task: nat, threshold: nat) returns (m: Message)
      requires Valid() && task < |tasks| && tasks[task].Waiting? && queue != []
      modifies this
      ensures Valid() && model == Take(old(model), task, threshold)
      ensures m == old(queue)[0] && queue == old(queue)[1..] && tasks == old(tasks)[task := Handling(m)]
      ensures warned <==> old(warned) && threshold > 0 && |queue| >= threshold
    {
      assert Live(tasks[task]);
      model := Take(model, task, threshold);
      m := queue[0];
      queue := queue[1..];
      if threshold == 0 || |queue| < threshold {
        warned := false;
      }
      tasks := tasks[task := Handling(m)];
    }

    /** The dispatcher `task` goes on after its handler. */
    method Served(task: nat, result: HandlerResult)
      requires Valid() && task < |tasks| && tasks[task].Handling?
      modifies this
      ensures Valid() && model == Finish(old(model), task, result)
    {
      assert Live(tasks[task]);
      model := Finish(model, task, result);
      tasks := tasks[task := if result.Aborted? then Done else Waiting];
    }

    method Ended(task: nat)
      requires Valid() && task < |tasks| && tasks[task].Cancelling?
      modifies this
      ensures Valid() && model == old(model).(tasks := old(model).tasks[task := Done])
    {
      tasks := tasks[task := Done];
      model := model.(tasks := tasks);
    }
  }

  // ---------------------------------------------------------------- facts the methods use

  lemma RegistryIsOk(s: State)
    requires Reachable(s)
    ensures RegistryOk(s)
  {
    ReachableInv(s);
  }

  lemma CancelledIsQuiet(s: State, id: SubId)
    requires Reachable(s) && id in s.subs
    ensures NoneLive(Cancel(s.subs[id]))
    ensures !Registered(s, id) || !s.running ==> NoneLive(s.subs[id])
  {
    ReachableInv(s);
    assert SubOk(s.subs[id], s.capacity) && Quiet(s, id);
    CancelQuiets(s.subs[id]);
  }

  lemma UniqueConcat(a: seq<SubId>, b: seq<SubId>)
    requires Unique(a) && Unique(b) && forall id :: id in a ==> id !in b
    ensures Unique(a + b)
  {
    assert forall j :: 0 <= j < |b| ==> b[j] in b;
  }

  /** What `stop` works on while no dispatcher is live. */
  lemma StoppedAreQuiet(s: State)
    requires Reachable(s) && s.stopping.Some?
    ensures forall id :: id in s.stopping.value.subs ==> id in s.subs && NoneLive(s.subs[id])
  {
    ReachableInv(s);
    forall id | id in s.stopping.value.subs ensures id in s.subs && NoneLive(s.subs[id]) {
      assert Quiet(s, id);
    }
  }

  lemma ResumedGetsFuture(s: State, call: MsgId)
    requires Reachable(s) && Enabled(s, Resume(call))
    ensures Received(Outcome(s.futures[call]).value, s.frames[call].kind, s.futures[call])
  {
    ReachableInv(s);
    assert RequestOk(s, call) && FrameOk(s, s.frames[call]);
  }

  datatype Call = UnknownTopic | NotRunning | NoHandler | Begun

  /** `s'` is what the step `a` makes of `s`. */
  ghost predicate Did(s: State, a: Action, s': State) {
    Enabled(s, a) && s' == Apply(s, a)
  }

  // ---------------------------------------------------------------- the steps, spelled out

  function Left(registry: map<string, seq<SubId>>, topic: string, id: SubId): map<string, seq<SubId>>
    requires topic in registry
  {
    var left := Filter(registry[topic], Other(id));
    if left == [] then registry - {topic} else registry[topic := left]
  }

  lemma Unsubscribed(s: State, id: SubId) returns (s': State)
    requires Reachable(s) && Registered(s, id)
    ensures Did(s, Unsubscribe(id), s') && Reachable(s')
    ensures s' == s.(registry := Left(s.registry, s.subs[id].topic, id),
                     subs := s.subs[id := Detach(Cancel(s.subs[id]))])
    ensures NoneLive(Cancel(s.subs[id]))
  {
    s' := Apply(s, Unsubscribe(id));
    ReachableStep(s, Unsubscribe(id));
    CancelledIsQuiet(s, id);
    assert s'.subs == s.subs[id := Detach(Cancel(s.subs[id]))];
  }

  lemma Subscribed(s: State, id: SubId, topic: string, isRequest: bool, replySender: string) returns (s': State)
    requires Reachable(s) && id !in s.subs
    ensures Did(s, Subscribe(id, topic, isRequest, replySender), s') && Reachable(s')
    ensures s' == s.(registry := s.registry[topic := OnTopic(s, topic) + [id]],
                     subs := s.subs[id := AddedSub(s, Subscribe(id, topic, isRequest, replySender))])
  {
    var a := Subscribe(id, topic, isRequest, replySender);
    ReachableStep(s, a);
    s' := Apply(s, a);
    assert s'.subs == s.subs[id := AddedSub(s, a)];
  }

  lemma PutOne(s: State, call: MsgId) returns (s': State)
    requires Reachable(s) && Enabled(s, PutNext(call))
    ensures Did(s, PutNext(call), s') && Reachable(s')
    ensures NextSub(s, call) in s.subs
    ensures var id := NextSub(s, call);
         s' == s.(frames := s.frames[call := s.frames[call].(pos := s.frames[call].pos + 1)],
                  subs := s.subs[id := Put(s.subs[id], s.frames[call].msg, Threshold(s.capacity))])
  {
    var id := NextSub(s, call);
    ReachableStep(s, PutNext(call));
    s' := Apply(s, PutNext(call));
    assert s'.subs == s.subs[id := Put(s.subs[id], s.frames[call].msg, Threshold(s.capacity))];
  }

  lemma TakeOne(s: State, id: SubId, task: nat) returns (s': State)
    requires Reachable(s) && Enabled(s, GetNext(id, task))
    ensures Did(s, GetNext(id, task), s') && Reachable(s')
    ensures s' == s.(subs := s.subs[id := Take(s.subs[id], task, Threshold(s.capacity))])
  {
    ReachableStep(s, GetNext(id, task));
    s' := Apply(s, GetNext(id, task));
    assert s'.subs == s.subs[id := Take(s.subs[id], task, Threshold(s.capacity))];
  }

  lemma Finished(s: State, id: SubId, task: nat, result: HandlerResult) returns (s': State)
    requires Reachable(s) && Enabled(s, HandlerEnds(id, task, result))
    ensures Did(s, HandlerEnds(id, task, result), s') && Reachable(s')
    ensures s' == s.(subs := s.subs[id := Finish(s.subs[id], task, result)],
                     futures := Resolve(s, s.subs[id], s.subs[id].tasks[task].message, result), log := s'.log)
  {
    ReachableStep(s, HandlerEnds(id, task, result));
    s' := Apply(s, HandlerEnds(id, task, result));
    assert s'.subs == s.subs[id := Finish(s.subs[id], task, result)];
  }

  lemma EndedOne(s: State, id: SubId, task: nat) returns (s': State)
    requires Reachable(s) && Enabled(s, CancelDelivered(id, task))
    ensures Did(s, CancelDelivered(id, task), s') && Reachable(s')
    ensures s' == s.(subs := s.subs[id := s.subs[id].(tasks := s.subs[id].tasks[task := Done])])
  {
    ReachableStep(s, CancelDelivered(id, task));
    s' := Apply(s, CancelDelivered(id, task));
    assert s'.subs == s.subs[id := s.subs[id].(tasks := s.subs[id].tasks[task := Done])];
  }

  /** Steps of a call that touch no subscription. */
  lemma CallStep(s: State, a: Action) returns (s': State)
    requires Reachable(s) && Enabled(s, a)
    requires a.BeginPublish? || a.BeginRequest? || OfCall(a)
    ensures Did(s, a, s') && Reachable(s')
    ensures s' == s.(frames := FramesAfter(s, a), futures := FuturesAfter(s, a), pending := PendingAfter(s, a))
  {
    ReachableStep(s, a);
    s' := Apply(s, a);
    assert s'.subs == s.subs;
  }

  lemma Started(s: State) returns (s': State)
    requires Reachable(s) && Enabled(s, Action.Start)
    ensures Did(s, Action.Start, s') && Reachable(s') && s'.subs.Keys == s.subs.Keys
    ensures forall id :: id in s.subs ==> s'.subs[id] == if Registered(s, id) then Spawn(s.subs[id]) else s.subs[id]
    ensures s' == s.(subs := s'.subs, running := true)
  {
    ReachableStep(s, Action.Start);
    s' := Apply(s, Action.Start);
  }

  function Stop(s: State): StopFrame {
    StopFrame(Registry(s),
      map id | id in s.subs && Registered(s, id) && s.subs[id].dispatcher.Some? :: s.subs[id].dispatcher.value)
  }

  lemma StopBegun(s: State) returns (s': State)
    requires Reachable(s) && Enabled(s, StopBegin)
    ensures Did(s, StopBegin, s') && Reachable(s') && s'.subs.Keys == s.subs.Keys
    ensures forall id :: id in s.subs ==> s'.subs[id] == if Registered(s, id) then Cancel(s.subs[id]) else s.subs[id]
    ensures s' == s.(subs := s'.subs, running := false, stopping := Some(Stop(s)))
  {
    ReachableStep(s, StopBegin);
    s' := Apply(s, StopBegin);
  }

  lemma StopEnded(s: State) returns (s': State)
    requires Reachable(s) && Enabled(s, StopEnd)
    ensures Did(s, StopEnd, s') && Reachable(s') && s'.subs.Keys == s.subs.Keys
    ensures forall id :: id in s.subs ==>
      s'.subs[id] == if id in s.stopping.value.subs then Detach(s.subs[id]) else s.subs[id]
    ensures s' == s.(subs := s'.subs, futures := FailAll(s.futures, s.pending), pending := {}, stopping := None)
  {
    ReachableStep(s, StopEnd);
    s' := Apply(s, StopEnd);
  }

  class AsyncQueueEventBus {
    const maxQueueSize: int
    const warnThreshold: nat
    var registry: map<string, seq<SubId>>
    var subs: seq<Subscription>
    var frames: map<MsgId, Frame>
    var futures: map<MsgId, Future>
    var pending: set<MsgId>
    var running: bool
    var stopping: Option<StopFrame>
    ghost var model: State

    ghost predicate Fields()
      reads this
    {
      && model.capacity == maxQueueSize && warnThreshold == Threshold(maxQueueSize)
      && model.registry == registry && model.frames == frames && model.futures == futures
      && model.pending == pending && model.running == running && model.stopping == stopping
    }

    ghost predicate Stands(id: SubId, sub: Sub)
      reads this`subs, subs
    {
      id < |subs| && subs[id].id == id && subs[id].Valid() && subs[id].model == sub
    }

    ghost predicate Holds(id: SubId)
      reads this`subs, this`model, subs
    {
      id in model.subs && Stands(id, model.subs[id])
    }

    ghost predicate Objects()
      reads this`subs, this`model, subs
    {
      forall id: SubId :: (id in model.subs ==> id < |subs|) && (id < |subs| ==> Holds(id))
    }

    /** The fields stand for a state the step machine can reach. */
    ghost predicate Valid()
      reads this, subs
    {
      Fields() && Objects() && Reachable(model)
    }

    ghost predicate OthersHold(id: SubId)
      reads this`subs, this`model, subs
    {
      forall other: SubId :: other < |subs| && other != id ==> Holds(other)
    }

    // -------------------------------------------------------------- the ghost state follows

    /** A change of one object leaves the others what they stood for. */
    twostate lemma StillHold(id: SubId)
      requires old(Objects()) && subs == old(subs) && model == old(model) && id < |subs|
      requires forall o: Subscription :: o in subs && o != subs[id] ==> unchanged(o)
      ensures OthersHold(id)
    {
      assert old(Holds(id));
      forall other: SubId | other < |subs| && other != id ensures Holds(other) {
        assert old(Holds(other));
        assert subs[other] in subs && subs[other] != subs[id];
      }
    }

    /** The objects are those of the next state already; let `model` be that state. */
    ghost method Commit(next: State)
      requires forall id: SubId :: id < |subs| ==> id in next.subs && Stands(id, next.subs[id])
      requires forall id: SubId :: id in next.subs ==> id < |subs|
      modifies this`model
      ensures model == next && Objects()
    {
      model := next;
      forall id: SubId | id < |subs| ensures Holds(id) {
        assert old(Stands(id, next.subs[id]));
      }
    }

    /** The same after a step that changed or added one subscription. */
    ghost method CommitOne(id: SubId, next: State)
      requires OthersHold(id) && id in next.subs && Stands(id, next.subs[id])
      requires next.subs == model.subs[id := next.subs[id]]
      requires forall other: SubId :: other in next.subs ==> other < |subs|
      modifies this`model
      ensures model == next && Objects()
    {
      forall other: SubId | other < |subs| && other != id
        ensures other in next.subs && Stands(other, next.subs[other])
      {
        assert Holds(other);
      }
      Commit(next);
    }

    /** The same after a step that changed no subscription. */
    ghost method CommitCall(next: State)
      requires Objects() && next.subs == model.subs
      modifies this`model
      ensures model == next && Objects()
    {
      forall id: SubId | id < |subs| ensures id in next.subs && Stands(id, next.subs[id]) {
        assert Holds(id);
      }
      Commit(next);
    }

    constructor (maxQueueSize: int)
      ensures Valid() && model == Init(maxQueueSize)
    {
      this.maxQueueSize := maxQueueSize;
      warnThreshold := if maxQueueSize <= 0 then 0 else if maxQueueSize * 4 / 5 < 1 then 1 else maxQueueSize * 4 / 5;
      registry, subs, frames, futures, pending := map[], [], map[], map[], {};
      running, stopping := false, None;
      model := Init(maxQueueSize);
      new;
      InitReachable(maxQueueSize);
    }

    /** A subscription without messages, served at once on a running bus. */
    method NewSubscription(id: SubId, topic: string, isRequestHandler: bool, replySender: string)
      returns (subscription: Subscription)
      ensures fresh(subscription) && subscription.Valid() && subscription.id == id && subscription.topic == topic
      ensures var sub := NewSub(topic, isRequestHandler, replySender);
        subscription.model == if running then Spawn(sub) else sub
    {
      subscription := new Subscription(id, topic, isRequestHandler, replySender);
      if running {
        var spawned := subscription.EnsureDispatcher();
      }
    }

    /** The new object stands for the new subscription of the next state. */
    method Adopt(subscription: Subscription, ghost next: State)
      requires Objects() && subscription.Valid() && subscription.id == |subs|
      requires next.subs == model.subs[|subs| := subscription.model]
      modifies this`subs, this`model
      ensures Objects() && model == next
    {
      var id := |subs|;
      subs := subs + [subscription];
      model := next;
      forall other: SubId | other < |subs| ensures Holds(other) {
        assert other != id ==> old(Holds(other));
      }
    }

    /** Appends to the subscriptions of a topic. */
    method Register(topic: string, id: SubId)
      modifies this`registry
      ensures registry
           == old(registry)[topic := (if topic in old(registry) then old(registry)[topic] else []) + [id]]
    {
      registry := registry[topic := (if topic in registry then registry[topic] else []) + [id]];
    }

    /** Registers a new subscription last on its topic. */
    method Enrol(topic: string, isRequestHandler: bool, replySender: string, ghost next: State)
      requires Fields() && Objects()
      requires var sub := NewSub(topic, isRequestHandler, replySender);
        next == model.(registry := model.registry[topic := OnTopic(model, topic) + [|subs|]],
                       subs := model.subs[|subs| := if running then Spawn(sub) else sub])
      modifies this`registry, this`subs, this`model
      ensures Fields() && Objects() && model == next
    {
      var id := |subs|;
      Register(topic, id);
      var subscription := NewSubscription(id, topic, isRequestHandler, replySender);
      Adopt(subscription, next);
    }

    /** `subscribe` and `request_handler`; None where they raise for an unknown topic. */
    method AddSubscription(topic: string, isRequestHandler: bool, replySender: string) returns (added: Option<SubId>)
      requires Valid()
      modifies this`registry, this`subs, this`model
      ensures Valid()
      ensures added.None? <==> topic !in ALL_TOPICS
      ensures added.None? ==> model == old(model)
      ensures added.Some? ==> Did(old(model), Subscribe(added.value, topic, isRequestHandler, replySender), model)
    {
      if topic !in ALL_TOPICS {
        return None;
      }
      added := Some(|subs|);
      ghost var next := Subscribed(model, |subs|, topic, isRequestHandler, replySender);
      Enrol(topic, isRequestHandler, replySender, next);
    }

    /** The object of a removed subscription. */
    method RetireOne(id: SubId)
      requires Objects() && id < |subs| && id in model.subs && NoneLive(Cancel(model.subs[id]))
      modifies subs[id]
      ensures Stands(id, Detach(Cancel(model.subs[id]))) && OthersHold(id)
    {
      assert Holds(id);
      var dropped := subs[id].Retire();
      StillHold(id);
    }

    /** Removes from the subscriptions of a topic; a topic without any is dropped. */
    method Unregister(id: SubId)
      requires id < |subs| && subs[id].topic in registry
      modifies this`registry
      ensures registry == Left(old(registry), subs[id].topic, id)
    {
      var topic := subs[id].topic;
      var left := Filter(registry[topic], Other(id));
      registry := if left == [] then registry - {topic} else registry[topic := left];
    }

    /** Unregisters, cancels and drains a registered subscription. */
    method Withdraw(id: SubId, ghost next: State)
      requires Fields() && Objects() && id < |subs| && id in model.subs
      requires subs[id].topic in registry && NoneLive(Cancel(model.subs[id]))
      requires next == model.(registry := Left(registry, subs[id].topic, id),
                              subs := model.subs[id := Detach(Cancel(model.subs[id]))])
      modifies this`registry, this`model, subs[id]
      ensures Fields() && Objects() && model == next
    {
      Unregister(id);
      RetireOne(id);
      CommitOne(id, next);
    }

    /** `_remove_subscription`, idempotent. */
    method RemoveSubscription(id: SubId)
      requires Valid() && id < |subs|
      modifies this`registry, this`model, subs[id]
      ensures Valid()
      ensures if Registered(old(model), id) then Did(old(model), Unsubscribe(id), model) else model == old(model)
    {
      assert Holds(id);
      if subs[id].topic !in registry || id !in registry[subs[id].topic] {
        return;
      }
      ghost var next := Unsubscribed(model, id);
      Withdraw(id, next);
    }

    /** One turn of the loop of `_route`. */
    method Deliver(call: MsgId, ghost next: State)
      requires Fields() && Objects() && call in frames && frames[call].pos < |frames[call].snapshot|
      requires var id := frames[call].snapshot[frames[call].pos];
        && id < |subs| && id in model.subs
        && next == model.(frames := frames[call := frames[call].(pos := frames[call].pos + 1)],
                          subs := model.subs[id := Put(model.subs[id], frames[call].msg, warnThreshold)])
      modifies this`frames, this`model, subs[frames[call].snapshot[frames[call].pos]]
      ensures Fields() && Objects() && model == next
    {
      var frame := frames[call];
      var id := frame.snapshot[frame.pos];
      assert Holds(id);
      subs[id].Put(frame.msg, warnThreshold);
      frames := frames[call := frame.(pos := frame.pos + 1)];
      model := next;
      forall other: SubId | other < |subs| ensures Holds(other) {
        assert old(Holds(other));
      }
    }

    /** `queue.put` of a routing call gets its slot. */
    method FinishPut(call: MsgId)
      requires Valid() && Enabled(model, PutNext(call)) && frames[call].snapshot[frames[call].pos] < |subs|
      modifies this`frames, this`model, subs[frames[call].snapshot[frames[call].pos]]
      ensures Valid() && Did(old(model), PutNext(call), model)
    {
      ghost var next := PutOne(model, call);
      Deliver(call, next);
    }

    /** A dispatcher resumes with the next message of its queue. */
    method FinishGet(id: SubId, task: nat) returns (m: Message)
      requires Valid() && Enabled(model, GetNext(id, task)) && id < |subs|
      modifies this`model, subs[id]
      ensures Valid() && Did(old(model), GetNext(id, task), model)
    {
      ghost var next := TakeOne(model, id, task);
      assert Holds(id);
      m := subs[id].Get(task, warnThreshold);
      StillHold(id);
      CommitOne(id, next);
    }

    /** A cancelled dispatcher ends. */
    method FinishCancel(id: SubId, task: nat)
      requires Valid() && Enabled(model, CancelDelivered(id, task)) && id < |subs|
      modifies this`model, subs[id]
      ensures Valid() && Did(old(model), CancelDelivered(id, task), model)
    {
      ghost var next := EndedOne(model, id, task);
      assert Holds(id);
      subs[id].Ended(task);
      StillHold(id);
      CommitOne(id, next);
    }

    // -------------------------------------------------------------- calls

    method Publish(msg: Message) returns (call: Call)
      requires Valid() && msg.id !in frames
      modifies this`frames, this`model
      ensures Valid()
      ensures call == if msg.topic !in ALL_TOPICS then UnknownTopic else if !running then NotRunning else Begun
      ensures if call.Begun? then Did(old(model), BeginPublish(msg), model) else model == old(model)
    {
      if msg.topic !in ALL_TOPICS {
        return UnknownTopic;
      }
      if !running {
        return NotRunning;
      }
      ghost var next := CallStep(model, BeginPublish(msg));
      var snapshot := if msg.topic in registry then registry[msg.topic] else [];
      frames := frames[msg.id := Frame(msg, Kind.Publish, snapshot, 0, Routing)];
      CommitCall(next);
      call := Begun;
    }

    /** Some subscription registered on the topic serves requests. */
    predicate Answered(topic: string)
      reads this`registry, this`subs
    {
      topic in registry && exists i ::
        0 <= i < |registry[topic]| && registry[topic][i] < |subs| && subs[registry[topic][i]].isRequestHandler
    }

    /** `_has_request_handler` */
    method HasRequestHandler(topic: string) returns (found: bool)
      requires Valid()
      ensures found <==> Answered(topic)
      ensures found <==> BusModel.HasRequestHandler(model, topic)
    {
      RegistryIsOk(model);
      var subscribers := if topic in registry then registry[topic] else [];
      assert topic in registry ==> OfTopic(model, subscribers, topic);
      found := false;
      var i := 0;
      while i < |subscribers| && !found
        invariant 0 <= i <= |subscribers|
        invariant found <==>
          exists j :: 0 <= j < i && subscribers[j] in model.subs && model.subs[subscribers[j]].isRequest
        invariant found <==>
          exists j :: 0 <= j < i && subscribers[j] < |subs| && subs[subscribers[j]].isRequestHandler
      {
        assert subscribers[i] in subscribers && Holds(subscribers[i]);
        found := subs[subscribers[i]].isRequestHandler;
        i := i + 1;
      }
    }

    /** What `request` checks before it begins. */
    method CheckRequest(topic: string, timed: bool) returns (call: Call)
      requires Valid()
      ensures call == if topic !in ALL_TOPICS then UnknownTopic else if !running then NotRunning
                      else if !timed && !Answered(topic) then NoHandler else Begun
      ensures call.Begun? ==> timed || BusModel.HasRequestHandler(model, topic)
    {
      if topic !in ALL_TOPICS {
        return UnknownTopic;
      }
      if !running {
        return NotRunning;
      }
      if !timed {
        var found := HasRequestHandler(topic);
        if !found {
          return NoHandler;
        }
      }
      call := Begun;
    }

    /** Opens a request: its future, its entry in the map, its snapshot. */
    method Open(msg: Message, timed: bool, ghost next: State)
      requires Fields() && Objects()
      requires next == model.(
        frames := frames[msg.id := Frame(msg, Kind.Request(timed), OnTopic(model, msg.topic), 0, Routing)],
        futures := futures[msg.id := Pending], pending := pending + {msg.id})
      modifies this`frames, this`futures, this`pending, this`model
      ensures Fields() && Objects() && model == next
    {
      futures, pending := futures[msg.id := Pending], pending + {msg.id};
      var snapshot := if msg.topic in registry then registry[msg.topic] else [];
      frames := frames[msg.id := Frame(msg, Kind.Request(timed), snapshot, 0, Routing)];
      CommitCall(next);
    }

    method Request(msg: Message, timed: bool) returns (call: Call)
      requires Valid() && msg.id !in frames
      modifies this`frames, this`futures, this`pending, this`model
      ensures Valid()
      ensures call == if msg.topic !in ALL_TOPICS then UnknownTopic else if !running then NotRunning
                      else if !timed && !old(Answered(msg.topic)) then NoHandler else Begun
      ensures if call.Begun? then Did(old(model), BeginRequest(msg, timed), model) else model == old(model)
    {
      call := CheckRequest(msg.topic, timed);
      if !call.Begun? {
        return;
      }
      ghost var next := CallStep(model, BeginRequest(msg, timed));
      Open(msg, timed, next);
    }

    /** The loop of `_route` is over: `publish` returns, `request` awaits its future. */
    method FinishRoute(call: MsgId)
      requires Valid() && Enabled(model, RouteDone(call))
      modifies this`frames, this`model
      ensures Valid() && Did(old(model), RouteDone(call), model)
    {
      ghost var next := CallStep(model, RouteDone(call));
      var frame := frames[call];
      if frame.kind.Publish? {
        frames := frames[call := frame.(stage := Stage.Ended(Published))];
      } else {
        frames := frames[call := frame.(stage := Awaiting)];
      }
      CommitCall(next);
    }

    /** The awaited future is done; the `finally` clause drops it from the map. */
    method ResumeRequest(call: MsgId) returns (result: Result)
      requires Valid() && Enabled(model, Resume(call))
      modifies this`frames, this`pending, this`model
      ensures Valid() && Did(old(model), Resume(call), model)
      ensures Received(result, frames[call].kind, futures[call])
    {
      ResumedGetsFuture(model, call);
      ghost var next := CallStep(model, Resume(call));
      match futures[call] {
        case Replied(reply) => result := Reply(reply.payload);
        case Failed(error) => result := HandlerError(error);
        case Abandoned => result := CallerCancelled;
        case _ => result := TimeoutError;
      }
      frames := frames[call := frames[call].(stage := Stage.Ended(result))];
      pending := pending - {call};
      CommitCall(next);
    }

    /** `wait_for` runs out of time and cancels the future. */
    method ExpireRequest(call: MsgId)
      requires Valid() && Enabled(model, Timeout(call))
      modifies this`frames, this`futures, this`pending, this`model
      ensures Valid() && Did(old(model), Timeout(call), model)
      ensures pending == old(pending) - {call}
      ensures futures == if old(call in futures && futures[call].Pending?) then old(futures)[call := TimedOut]
                         else old(futures)
    {
      ghost var next := CallStep(model, Timeout(call));
      if call in futures && futures[call].Pending? {
        futures := futures[call := TimedOut];
      }
      frames := frames[call := frames[call].(stage := Stage.Ended(TimeoutError))];
      pending := pending - {call};
      CommitCall(next);
    }

    /** The task that publishes or requests is cancelled. */
    method AbandonCall(call: MsgId)
      requires Valid() && Enabled(model, CancelCall(call))
      modifies this`frames, this`futures, this`pending, this`model
      ensures Valid() && Did(old(model), CancelCall(call), model)
      ensures pending == old(pending) - {call}
      ensures futures == if old(frames[call].stage.Awaiting? && call in futures && futures[call].Pending?)
                         then old(futures)[call := Abandoned] else old(futures)
    {
      ghost var next := CallStep(model, CancelCall(call));
      if frames[call].stage.Awaiting? && call in futures && futures[call].Pending? {
        futures := futures[call := Abandoned];
      }
      frames := frames[call := frames[call].(stage := Stage.Ended(CallerCancelled))];
      pending := pending - {call};
      CommitCall(next);
    }

    // -------------------------------------------------------------- handlers

    /** The request still has an unresolved future in the map. */
    predicate Unresolved(id: MsgId)
      reads this
    {
      id in pending && id in futures && futures[id].Pending?
    }

    /** `_fail_pending_reply` */
    method FailPendingReply(request: Message, error: string)
      modifies this`futures
      ensures futures ==
        if old(Unresolved(request.id)) then old(futures)[request.id := Failed(error)] else old(futures)
    {
      if Unresolved(request.id) {
        futures := futures[request.id := Failed(error)];
      }
    }

    /** `_maybe_reply` */
    method MaybeReply(sender: string, request: Message, payload: Option<string>)
      modifies this`futures
      ensures payload.Some? && old(Unresolved(request.id)) ==>
        futures == old(futures)[request.id := Replied(ReplyMessage(request.topic, payload.value, sender, request.id))]
      ensures payload.None? || !old(Unresolved(request.id)) ==> futures == old(futures)
    {
      if !Unresolved(request.id) {
        return;
      }
      if payload.None? {
        return;
      }
      futures := futures[request.id := Replied(ReplyMessage(request.topic, payload.value, sender, request.id))];
    }

    /** What the dispatcher does with the outcome of its handler. */
    method SettleRequest(subscription: Subscription, message: Message, result: HandlerResult)
      requires Fields() && subscription.Valid()
      modifies this`futures
      ensures futures == Resolve(model, subscription.model, message, result)
    {
      if subscription.isRequestHandler {
        match result {
          case Raised(error) => FailPendingReply(message, error);
          case Returned(payload) => MaybeReply(subscription.replySender, message, payload);
          case Aborted =>
        }
      }
    }

    /** The object whose dispatcher goes on. */
    method ServeOne(id: SubId, task: nat, result: HandlerResult)
      requires Objects() && id < |subs| && id in model.subs
      requires task < |model.subs[id].tasks| && model.subs[id].tasks[task].Handling?
      modifies subs[id]
      ensures Stands(id, Finish(model.subs[id], task, result)) && OthersHold(id)
    {
      assert Holds(id);
      subs[id].Served(task, result);
      StillHold(id);
    }

    /** The rest of the dispatcher's turn after its handler. */
    method Settle(id: SubId, task: nat, result: HandlerResult, ghost next: State)
      requires Fields() && Objects() && id < |subs| && id in model.subs
      requires var sub := model.subs[id];
        && task < |sub.tasks| && sub.tasks[task].Handling?
        && next == model.(subs := model.subs[id := Finish(sub, task, result)],
                          futures := Resolve(model, sub, sub.tasks[task].message, result), log := next.log)
      modifies this`futures, this`model, subs[id]
      ensures Fields() && Objects() && model == next
    {
      assert Holds(id);
      SettleRequest(subs[id], subs[id].tasks[task].message, result);
      ServeOne(id, task, result);
      CommitOne(id, next);
    }

    /** The handler a dispatcher awaited has ended. */
    method HandlerEnded(id: SubId, task: nat, result: HandlerResult)
      requires Valid() && Enabled(model, HandlerEnds(id, task, result)) && id < |subs|
      modifies this`futures, this`model, subs[id]
      ensures Valid() && Did(old(model), HandlerEnds(id, task, result), model)
    {
      ghost var next := Finished(model, id, task, result);
      Settle(id, task, result, next);
    }

    // -------------------------------------------------------------- lifecycle

    /** The subscriptions of all topics. */
    method Subscribers() returns (all: seq<SubId>)
      requires registry == model.registry && RegistryOk(model)
      ensures Unique(all)
      ensures forall id :: id in all <==> id in model.subs && Registered(model, id)
    {
      var topics := registry.Keys;
      all := [];
      while topics != {}
        invariant topics <= registry.Keys && Unique(all)
        invariant forall id :: id in all <==>
          (id in model.subs && Registered(model, id) && model.subs[id].topic !in topics)
        decreases topics
      {
        var topic :| topic in topics;
        assert OfTopic(model, registry[topic], topic);
        UniqueConcat(all, registry[topic]);
        topics, all := topics - {topic}, all + registry[topic];
      }
    }

    /** The loop of `start`. */
    method EnsureDispatchers(all: seq<SubId>)
      requires Objects() && Unique(all)
      requires forall id :: id in all <==> id in model.subs && Registered(model, id)
      modifies subs
      ensures forall id: SubId :: id < |subs| ==>
        id in model.subs && Stands(id, if Registered(model, id) then Spawn(model.subs[id]) else model.subs[id])
    {
      var i := 0;
      while i < |all|
        invariant 0 <= i <= |all|
        invariant forall id: SubId :: id < |subs| ==>
          id in model.subs && Stands(id, if id in all[..i] then Spawn(model.subs[id]) else model.subs[id])
      {
        assert all[i] in all && all[i] !in all[..i];
        var spawned := subs[all[i]].EnsureDispatcher();
        i := i + 1;
      }
      assert all[..i] == all;
    }

    /** The two lists `stop` makes. */
    method Dispatchers(all: seq<SubId>) returns (stop: StopFrame)
      requires Objects() && forall id :: id in all <==> id in model.subs && Registered(model, id)
      ensures stop == Stop(model)
    {
      assert forall id :: id in all ==> Holds(id);
      stop := StopFrame(set id | id in all,
                        map id | id in all && subs[id].dispatcher.Some? :: subs[id].dispatcher.value);
      assert stop.subs == Registry(model);
      assert stop.dispatchers == Stop(model).dispatchers;
    }

    /** The first loop of `stop`. */
    method CancelDispatchers(all: seq<SubId>)
      requires Objects() && Unique(all)
      requires forall id :: id in all <==> id in model.subs && Registered(model, id)
      modifies subs
      ensures forall id: SubId :: id < |subs| ==>
        id in model.subs && Stands(id, if Registered(model, id) then Cancel(model.subs[id]) else model.subs[id])
    {
      var i := 0;
      while i < |all|
        invariant 0 <= i <= |all|
        invariant forall id: SubId :: id < |subs| ==>
          id in model.subs && Stands(id, if id in all[..i] then Cancel(model.subs[id]) else model.subs[id])
      {
        assert all[i] in all && all[i] !in all[..i];
        if subs[all[i]].dispatcher.Some? {
          subs[all[i]].CancelDispatcher();
        }
        i := i + 1;
      }
      assert all[..i] == all;
    }

    /** The second loop of `stop`. */
    method DropDispatchers(all: set<SubId>) returns (dropped: nat)
      requires Objects() && forall id :: id in all ==> id in model.subs && NoneLive(model.subs[id])
      modifies subs
      ensures forall id: SubId :: id < |subs| ==>
        id in model.subs && Stands(id, if id in all then Detach(model.subs[id]) else model.subs[id])
    {
      var left := all;
      dropped := 0;
      while left != {}
        invariant left <= all
        invariant forall id: SubId :: id < |subs| ==>
          id in model.subs && Stands(id, if id in all - left then Detach(model.subs[id]) else model.subs[id])
        decreases left
      {
        var id :| id in left;
        assert Stands(id, model.subs[id]);
        var n := subs[id].DropDispatcher();
        left, dropped := left - {id}, dropped + n;
      }
    }

    /** The last loop of `stop`: every reply future still pending fails. */
    method FailPendingReplies()
      modifies this`futures
      ensures futures == FailAll(old(futures), pending)
    {
      var left := pending;
      while left != {}
        invariant left <= pending && futures.Keys == old(futures).Keys
        invariant forall call :: call in futures ==>
          futures[call] == if call in pending - left && old(futures)[call].Pending? then Stopped else old(futures)[call]
        decreases left
      {
        var call :| call in left;
        if call in futures && futures[call].Pending? {
          futures := futures[call := Stopped];
        }
        left := left - {call};
      }
    }

    /** The end of `stop`. */
    method FailAndClear()
      modifies this`futures, this`pending, this`stopping
      ensures futures == FailAll(old(futures), old(pending)) && pending == {} && stopping == None
    {
      FailPendingReplies();
      pending, stopping := {}, None;
    }

    method EnsureAll(ghost after: map<SubId, Sub>)
      requires Objects() && registry == model.registry && RegistryOk(model)
      requires after.Keys == model.subs.Keys && forall id :: id in model.subs ==>
        after[id] == if Registered(model, id) then Spawn(model.subs[id]) else model.subs[id]
      modifies subs
      ensures forall id: SubId :: id < |subs| ==> id in after && Stands(id, after[id])
    {
      var all := Subscribers();
      EnsureDispatchers(all);
    }

    method CancelAll(ghost after: map<SubId, Sub>)
      requires Objects() && registry == model.registry && RegistryOk(model)
      requires after.Keys == model.subs.Keys && forall id :: id in model.subs ==>
        after[id] == if Registered(model, id) then Cancel(model.subs[id]) else model.subs[id]
      modifies this`stopping, subs
      ensures stopping == Some(Stop(model))
      ensures forall id: SubId :: id < |subs| ==> id in after && Stands(id, after[id])
    {
      var all := Subscribers();
      var stop := Dispatchers(all);
      stopping := Some(stop);
      CancelDispatchers(all);
    }

    /** `start` on a stopped bus. */
    method StartServing(ghost next: State)
      requires Fields() && Objects() && RegistryOk(model)
      requires next == model.(subs := next.subs, running := true) && next.subs.Keys == model.subs.Keys
      requires forall id :: id in model.subs ==>
        next.subs[id] == if Registered(model, id) then Spawn(model.subs[id]) else model.subs[id]
      modifies this`running, this`model, subs
      ensures Fields() && Objects() && model == next
    {
      running := true;
      EnsureAll(next.subs);
      Commit(next);
    }

    /** `stop` on a running bus, up to its wait. */
    method BeginHalt(ghost next: State)
      requires Fields() && Objects() && RegistryOk(model)
      requires next == model.(subs := next.subs, running := false, stopping := Some(Stop(model)))
      requires next.subs.Keys == model.subs.Keys && forall id :: id in model.subs ==>
        next.subs[id] == if Registered(model, id) then Cancel(model.subs[id]) else model.subs[id]
      modifies this`running, this`stopping, this`model, subs
      ensures Fields() && Objects() && model == next
    {
      running := false;
      CancelAll(next.subs);
      Commit(next);
    }

    method DropAll(ghost next: State) returns (dropped: nat)
      requires Objects() && stopping.Some?
      requires forall id :: id in stopping.value.subs ==> id in model.subs && NoneLive(model.subs[id])
      requires next.subs.Keys == model.subs.Keys && forall id :: id in model.subs ==>
        next.subs[id] == if id in stopping.value.subs then Detach(model.subs[id]) else model.subs[id]
      modifies this`model, subs
      ensures Objects() && model == next
    {
      dropped := DropDispatchers(stopping.value.subs);
      Commit(next);
    }

    /** `stop` after its wait. */
    method EndHalt(ghost next: State) returns (dropped: nat)
      requires Fields() && Objects() && stopping.Some?
      requires forall id :: id in stopping.value.subs ==> id in model.subs && NoneLive(model.subs[id])
      requires next == model.(subs := next.subs, futures := FailAll(futures, pending), pending := {}, stopping := None)
      requires next.subs.Keys == model.subs.Keys && forall id :: id in model.subs ==>
        next.subs[id] == if id in stopping.value.subs then Detach(model.subs[id]) else model.subs[id]
      modifies this`futures, this`pending, this`stopping, this`model, subs
      ensures Fields() && Objects() && model == next
    {
      dropped := DropAll(next);
      FailAndClear();
    }

    method Start()
      requires Valid() && stopping.None?
      modifies this`running, this`model, subs
      ensures Valid()
      ensures if old(running) then model == old(model) else Did(old(model), Action.Start, model)
    {
      if running {
        return;
      }
      ghost var next := Started(model);
      RegistryIsOk(model);
      StartServing(next);
    }

    /** `stop` up to its wait for the cancelled dispatchers. */
    method BeginStop()
      requires Valid()
      modifies this`running, this`stopping, this`model, subs
      ensures Valid()
      ensures if old(running) then Did(old(model), StopBegin, model) else model == old(model)
    {
      if !running {
        return;
      }
      ghost var next := StopBegun(model);
      RegistryIsOk(model);
      BeginHalt(next);
    }

    /** `stop` once the cancelled dispatchers are over. */
    method EndStop() returns (dropped: nat)
      requires Valid() && Enabled(model, StopEnd)
      modifies this`futures, this`pending, this`stopping, this`model, subs
      ensures Valid() && Did(old(model), StopEnd, model)
    {
      ghost var next := StopEnded(model);
      StoppedAreQuiet(model);
      dropped := EndHalt(next);
    }
  }

  // ---------------------------------------------------------------- what this means for the objects

  /** A live task of a bus object is the dispatcher of its subscription, and there is no
      other; the bus runs and knows the subscription. */
  lemma OneLiveTask(bus: AsyncQueueEventBus, id: SubId, j: nat, k: nat)
    requires bus.Valid() && id < |bus.subs| && j < |bus.subs[id].tasks| && k < |bus.subs[id].tasks|
    requires Live(bus.subs[id].tasks[j]) && Live(bus.subs[id].tasks[k])
    ensures j == k && bus.subs[id].dispatcher == Some(j) && bus.running
    ensures bus.subs[id].topic in bus.registry && id in bus.registry[bus.subs[id].topic]
  {
    assert bus.Holds(id);
    OneLiveDispatcher(bus.model, id, j, k);
  }

  /** A queue object is never over-full, and its flag is set whenever it stands at the
      threshold. */
  lemma QueueIsWatched(bus: AsyncQueueEventBus, id: SubId)
    requires bus.Valid() && id < |bus.subs| && bus.maxQueueSize > 0
    ensures |bus.subs[id].queue| <= bus.maxQueueSize
    ensures |bus.subs[id].queue| >= bus.warnThreshold ==> bus.subs[id].warned
  {
    assert bus.Holds(id);
    WatermarkHolds(bus.model, id);
  }

  /** An entry in the map of pending replies belongs to a request that has not returned,
      and is unresolved or resolved by a handler. */
  lemma EntryIsOpenRequest(bus: AsyncQueueEventBus, call: MsgId)
    requires bus.Valid() && call in bus.pending
    ensures call in bus.futures && ByHandler(bus.futures[call])
    ensures call in bus.frames && bus.frames[call].kind.Request? && !bus.frames[call].stage.Ended?
  {
    ReachableInv(bus.model);
    assert RequestOk(bus.model, call);
  }
}
