/** The event bus as a step machine. One action is the code between two
    suspension points of one coroutine; any enabled action may come next.
    Subscriptions carry, beside the fields of the implementation, the history of
    their queue, so that properties of whole runs are properties of states. */
module BusModel {
  import opened Seqs

  type SubId = nat
  type MsgId = nat

  datatype Message = Message(id: MsgId, topic: string, payload: string, sender: string)

  /** The message a handler's payload is wrapped into; it is delivered to the
      requester only, so its own id plays no part. */
  datatype ReplyMessage = ReplyMessage(topic: string, payload: string, sender: string, replyTo: MsgId)

  /** How a handler ends: with a payload or without, with an exception, or with an
      exception that is not an `Exception` and kills its dispatcher. */
  datatype HandlerResult = Returned(payload: Option<string>) | Raised(error: string) | Aborted

  // ---------------------------------------------------------------- one subscription

  datatype Task = Waiting | Handling(message: Message) | Cancelling | Done

  datatype Fate = Handled | Dropped | CutOff

  datatype Settled = Settled(message: Message, fate: Fate)

  /** `puts` lists the messages put into the queue, `settled` those that left it for
      good. The counters follow the high-watermark warning: `crossings` counts how
      often the queue rose to the threshold, `missed` the crossings without a
      warning, `staleDrains` the drains that left the flag set. */
  datatype Sub = Sub(
    topic: string, isRequest: bool, replySender: string,
    queue: seq<Message>, dispatcher: Option<nat>, warned: bool, tasks: seq<Task>,
    puts: seq<Message>, settled: seq<Settled>,
    warnings: nat, crossings: nat, missed: nat, staleDrains: nat, stale: bool)

  function NewSub(topic: string, isRequest: bool, replySender: string): Sub {
    Sub(topic, isRequest, replySender, [], None, false, [], [], [], 0, 0, 0, 0, false)
  }

  predicate Live(task: Task) {
    task.Waiting? || task.Handling?
  }

  predicate HasTask(sub: Sub) {
    sub.dispatcher.Some? && sub.dispatcher.value < |sub.tasks|
  }

  function InHand(sub: Sub): seq<Message> {
    if HasTask(sub) && sub.tasks[sub.dispatcher.value].Handling?
    then [sub.tasks[sub.dispatcher.value].message] else []
  }

  /** `_ensure_dispatcher` */
  function Spawn(sub: Sub): Sub {
    if HasTask(sub) && !sub.tasks[sub.dispatcher.value].Done? then sub
    else sub.(tasks := sub.tasks + [Waiting], dispatcher := Some(|sub.tasks|))
  }

  function SettleAll(messages: seq<Message>, fate: Fate): seq<Settled> {
    Map(messages, (m: Message) => Settled(m, fate))
  }

  /** `dispatcher.cancel()`: the task ends at its next resumption, so the message in
      hand is lost from here on. A handler that removes its own subscription and then
      returns without suspending still replies: that is `HandlerEnds` followed at once by
      `Unsubscribe`. */
  function Cancel(sub: Sub): Sub {
    if HasTask(sub) && Live(sub.tasks[sub.dispatcher.value])
    then sub.(tasks := sub.tasks[sub.dispatcher.value := Cancelling],
              settled := sub.settled + SettleAll(InHand(sub), CutOff))
    else sub
  }

  /** `subscription.dispatcher = None` and `_drain`; the warning flag is not touched. */
  function Detach(sub: Sub): Sub {
    sub.(dispatcher := None, queue := [],
         settled := sub.settled + SettleAll(sub.queue, Dropped),
         stale := sub.warned,
         staleDrains := if sub.warned then sub.staleDrains + 1 else sub.staleDrains)
  }

  /** `queue.put` and `_maybe_warn_high_watermark`; a threshold of 0 stands for None. */
  function Put(sub: Sub, m: Message, threshold: nat): Sub {
    var size := |sub.queue| + 1;
    var warns := threshold > 0 && !sub.warned && size >= threshold;
    var crosses := threshold > 0 && size == threshold;
    sub.(queue := sub.queue + [m], puts := sub.puts + [m],
         warned := sub.warned || warns,
         warnings := if warns then sub.warnings + 1 else sub.warnings,
         crossings := if crosses then sub.crossings + 1 else sub.crossings,
         missed := if crosses && sub.warned then sub.missed + 1 else sub.missed,
         stale := sub.stale && size < threshold)
  }

  /** `queue.get` and the reset of the flag below the threshold. */
  function Take(sub: Sub, k: nat, threshold: nat): Sub
    requires k < |sub.tasks| && sub.queue != []
  {
    var reset := threshold == 0 || |sub.queue| - 1 < threshold;
    sub.(tasks := sub.tasks[k := Handling(sub.queue[0])], queue := sub.queue[1..],
         warned := sub.warned && !reset, stale := sub.stale && !reset)
  }

  /** The handler of the message in hand has ended. */
  function Finish(sub: Sub, k: nat, result: HandlerResult): Sub
    requires k < |sub.tasks| && sub.tasks[k].Handling?
  {
    sub.(tasks := sub.tasks[k := if result.Aborted? then Done else Waiting],
         settled := sub.settled + [Settled(sub.tasks[k].message, if result.Aborted? then CutOff else Handled)])
  }

  // ---------------------------------------------------------------- the bus

  datatype Future =
    | Pending
    | Replied(reply: ReplyMessage)
    | Failed(error: string)    // RequestHandlerError
    | TimedOut                 // cancelled by wait_for
    | Stopped                  // RequestTimeoutError set by stop()
    | Abandoned                // cancelled with its requester

  datatype Kind = Publish | Request(timed: bool)

  datatype Result = Published | Reply(payload: string) | HandlerError(error: string) | TimeoutError | CallerCancelled

  datatype Stage = Routing | Awaiting | Ended(result: Result)

  /** One call of `publish` or `request`; `pos` of the snapshot have been served. */
  datatype Frame = Frame(msg: Message, kind: Kind, snapshot: seq<SubId>, pos: nat, stage: Stage)

  /** A handler that returned or raised; `serves` tells request handlers apart. */
  datatype Entry = Entry(sub: SubId, serves: bool, msg: Message, result: HandlerResult)

  /** What `stop()` holds while it awaits the cancelled dispatchers. */
  datatype StopFrame = StopFrame(subs: set<SubId>, dispatchers: map<SubId, nat>)

  /** `pending` are the keys of `_reply_futures`; `futures` also keeps the futures
      that were removed from it. */
  datatype State = State(
    capacity: int,
    registry: map<string, seq<SubId>>, subs: map<SubId, Sub>,
    frames: map<MsgId, Frame>, futures: map<MsgId, Future>, pending: set<MsgId>,
    running: bool, stopping: Option<StopFrame>, log: seq<Entry>)

  /** max(1, int(max_queue_size * 0.8)), or 0 for an unbounded queue. */
  function Threshold(capacity: int): nat {
    if capacity <= 0 then 0 else if capacity * 4 / 5 < 1 then 1 else capacity * 4 / 5
  }

  function Init(capacity: int): State {
    State(capacity, map[], map[], map[], map[], {}, false, None, [])
  }

  function OnTopic(s: State, topic: string): seq<SubId> {
    if topic in s.registry then s.registry[topic] else []
  }

  predicate Registered(s: State, id: SubId) {
    id in s.subs && id in OnTopic(s, s.subs[id].topic)
  }

  function Registry(s: State): set<SubId> {
    set id | id in s.subs && Registered(s, id)
  }

  predicate HasRequestHandler(s: State, topic: string) {
    exists id :: id in OnTopic(s, topic) && id in s.subs && s.subs[id].isRequest
  }

  datatype Action =
    | Subscribe(id: SubId, topic: string, isRequest: bool, replySender: string)
    | Unsubscribe(id: SubId)
    | Start
    | StopBegin
    | StopEnd
    | CancelDelivered(id: SubId, task: nat)
    | BeginPublish(msg: Message)
    | BeginRequest(msg: Message, timed: bool)
    | PutNext(call: MsgId)
    | RouteDone(call: MsgId)
    | GetNext(id: SubId, task: nat)
    | HandlerEnds(id: SubId, task: nat, result: HandlerResult)
    | Resume(call: MsgId)
    | Timeout(call: MsgId)
    | CancelCall(call: MsgId)

  predicate TaskIs(s: State, id: SubId, task: nat) {
    id in s.subs && task < |s.subs[id].tasks|
  }

  predicate CallIs(s: State, call: MsgId, stage: Stage) {
    call in s.frames && s.frames[call].stage == stage
  }

  predicate HasRoom(s: State, id: SubId) {
    id in s.subs && (s.capacity <= 0 || |s.subs[id].queue| < s.capacity)
  }

  predicate AllOver(s: State, dispatchers: map<SubId, nat>) {
    forall id | id in dispatchers :: TaskIs(s, id, dispatchers[id]) && s.subs[id].tasks[dispatchers[id]].Done?
  }

  predicate Enabled(s: State, a: Action) {
    match a
    case Subscribe(id, _, _, _) => id !in s.subs
    case Unsubscribe(id) => Registered(s, id)
    case Start => !s.running && s.stopping.None?
    case StopBegin => s.running
    case StopEnd => s.stopping.Some? && AllOver(s, s.stopping.value.dispatchers)
    case CancelDelivered(id, task) => TaskIs(s, id, task) && s.subs[id].tasks[task].Cancelling?
    case BeginPublish(msg) => s.running && msg.id !in s.frames
    case BeginRequest(msg, timed) => s.running && msg.id !in s.frames && (timed || HasRequestHandler(s, msg.topic))
    case PutNext(call) =>
      CallIs(s, call, Routing) && s.frames[call].pos < |s.frames[call].snapshot| &&
      HasRoom(s, s.frames[call].snapshot[s.frames[call].pos])
    case RouteDone(call) => CallIs(s, call, Routing) && s.frames[call].pos == |s.frames[call].snapshot|
    case GetNext(id, task) => TaskIs(s, id, task) && s.subs[id].tasks[task].Waiting? && s.subs[id].queue != []
    case HandlerEnds(id, task, _) => TaskIs(s, id, task) && s.subs[id].tasks[task].Handling?
    case Resume(call) => CallIs(s, call, Awaiting) && call in s.futures && Outcome(s.futures[call]).Some?
    case Timeout(call) => CallIs(s, call, Awaiting) && s.frames[call].kind == Request(true)
    case CancelCall(call) => call in s.frames && !s.frames[call].stage.Ended?
  }

  /** What awaiting a future gives once it is done. */
  function Outcome(f: Future): Option<Result> {
    match f
    case Pending => None
    case Replied(reply) => Some(Reply(reply.payload))
    case Failed(error) => Some(HandlerError(error))
    case TimedOut => Some(TimeoutError)
    case Stopped => Some(TimeoutError)
    case Abandoned => Some(CallerCancelled)
  }

  function ReplyTo(sub: Sub, request: Message, payload: string): ReplyMessage {
    ReplyMessage(request.topic, payload, sub.replySender, request.id)
  }

  /** `_maybe_reply` and `_fail_pending_reply`: only a pending future is resolved. */
  function Resolve(s: State, sub: Sub, m: Message, result: HandlerResult): map<MsgId, Future> {
    if !sub.isRequest || m.id !in s.pending || m.id !in s.futures || !s.futures[m.id].Pending? then s.futures
    else match result
      case Raised(error) => s.futures[m.id := Failed(error)]
      case Returned(Some(payload)) => s.futures[m.id := Replied(ReplyTo(sub, m, payload))]
      case _ => s.futures
  }

  function SetIfPending(futures: map<MsgId, Future>, call: MsgId, value: Future): map<MsgId, Future> {
    if call in futures && futures[call].Pending? then futures[call := value] else futures
  }

  function FailAll(futures: map<MsgId, Future>, pending: set<MsgId>): map<MsgId, Future> {
    map call | call in futures :: if call in pending && futures[call].Pending? then Stopped else futures[call]
  }

  // ---------------------------------------------------------------- effects

  /** The registry: `_add_subscription` appends, `_remove_subscription` removes and
      drops a topic without subscribers. */
  function RegistryAfter(s: State, a: Action): map<string, seq<SubId>>
    requires Enabled(s, a)
  {
    match a
    case Subscribe(id, topic, _, _) => s.registry[topic := OnTopic(s, topic) + [id]]
    case Unsubscribe(id) =>
      var topic := s.subs[id].topic;
      var left := Filter(OnTopic(s, topic), Other(id));
      if left == [] then s.registry - {topic} else s.registry[topic := left]
    case _ => s.registry
  }

  function Other(id: SubId): SubId -> bool {
    (other: SubId) => other != id
  }

  /** One existing subscription. */
  function SubAfter(s: State, a: Action, id: SubId): Sub
    requires Enabled(s, a) && id in s.subs
  {
    var sub := s.subs[id];
    match a
    case Unsubscribe(removed) => if removed == id then Detach(Cancel(sub)) else sub
    case Start => if Registered(s, id) then Spawn(sub) else sub
    case StopBegin => if Registered(s, id) then Cancel(sub) else sub
    case StopEnd => if id in s.stopping.value.subs then Detach(sub) else sub
    case CancelDelivered(owner, task) => if owner == id then sub.(tasks := sub.tasks[task := Done]) else sub
    case PutNext(call) =>
      if NextSub(s, call) == id then Put(sub, s.frames[call].msg, Threshold(s.capacity)) else sub
    case GetNext(owner, task) => if owner == id then Take(sub, task, Threshold(s.capacity)) else sub
    case HandlerEnds(owner, task, result) => if owner == id then Finish(sub, task, result) else sub
    case _ => sub
  }

  /** The subscription a call in progress puts its message into next. */
  function NextSub(s: State, call: MsgId): SubId
    requires call in s.frames && s.frames[call].pos < |s.frames[call].snapshot|
  {
    s.frames[call].snapshot[s.frames[call].pos]
  }

  /** A new subscription gets a dispatcher at once when the bus runs. */
  function AddedSub(s: State, a: Action): Sub
    requires a.Subscribe?
  {
    var sub := NewSub(a.topic, a.isRequest, a.replySender);
    if s.running then Spawn(sub) else sub
  }

  function SubsAfter(s: State, a: Action): map<SubId, Sub>
    requires Enabled(s, a)
  {
    map id | id in s.subs.Keys + (if a.Subscribe? then {a.id} else {}) ::
      if id in s.subs then SubAfter(s, a, id) else AddedSub(s, a)
  }

  /** The calls of `publish` and `request`: the snapshot is taken when a call
      begins, one put follows another, a request then awaits its future. */
  function FramesAfter(s: State, a: Action): map<MsgId, Frame>
    requires Enabled(s, a)
  {
    match a
    case BeginPublish(msg) => s.frames[msg.id := Frame(msg, Publish, OnTopic(s, msg.topic), 0, Routing)]
    case BeginRequest(msg, timed) => s.frames[msg.id := Frame(msg, Request(timed), OnTopic(s, msg.topic), 0, Routing)]
    case PutNext(call) => s.frames[call := s.frames[call].(pos := s.frames[call].pos + 1)]
    case RouteDone(call) =>
      s.frames[call := s.frames[call].(stage := if s.frames[call].kind.Publish? then Ended(Published) else Awaiting)]
    case Resume(call) => s.frames[call := s.frames[call].(stage := Ended(Outcome(s.futures[call]).value))]
    case Timeout(call) => s.frames[call := s.frames[call].(stage := Ended(TimeoutError))]
    case CancelCall(call) => s.frames[call := s.frames[call].(stage := Ended(CallerCancelled))]
    case _ => s.frames
  }

  /** The reply futures: handlers, the timeout, `stop` and a cancelled requester each
      resolve only a pending one. */
  function FuturesAfter(s: State, a: Action): map<MsgId, Future>
    requires Enabled(s, a)
  {
    match a
    case BeginRequest(msg, _) => s.futures[msg.id := Pending]
    case HandlerEnds(id, task, result) => Resolve(s, s.subs[id], s.subs[id].tasks[task].message, result)
    case Timeout(call) => SetIfPending(s.futures, call, TimedOut)
    case CancelCall(call) =>
      if s.frames[call].stage.Awaiting? then SetIfPending(s.futures, call, Abandoned) else s.futures
    case StopEnd => FailAll(s.futures, s.pending)
    case _ => s.futures
  }

  /** The keys of `_reply_futures`: every way out of `request` removes its own. */
  function PendingAfter(s: State, a: Action): set<MsgId>
    requires Enabled(s, a)
  {
    match a
    case BeginRequest(msg, _) => s.pending + {msg.id}
    case Resume(call) => s.pending - {call}
    case Timeout(call) => s.pending - {call}
    case CancelCall(call) => s.pending - {call}
    case StopEnd => {}
    case _ => s.pending
  }

  function StoppingAfter(s: State, a: Action): Option<StopFrame>
    requires Enabled(s, a)
  {
    match a
    case StopBegin =>
      Some(StopFrame(Registry(s),
        map id | id in s.subs && Registered(s, id) && s.subs[id].dispatcher.Some? :: s.subs[id].dispatcher.value))
    case StopEnd => None
    case _ => s.stopping
  }

  function LogAfter(s: State, a: Action): seq<Entry>
    requires Enabled(s, a)
  {
    match a
    case HandlerEnds(id, task, result) =>
      if result.Aborted? then s.log
      else s.log + [Entry(id, s.subs[id].isRequest, s.subs[id].tasks[task].message, result)]
    case _ => s.log
  }

  function Apply(s: State, a: Action): State
    requires Enabled(s, a)
  {
    State(s.capacity, RegistryAfter(s, a), SubsAfter(s, a), FramesAfter(s, a), FuturesAfter(s, a), PendingAfter(s, a),
          (s.running || a.Start?) && !a.StopBegin?, StoppingAfter(s, a), LogAfter(s, a))
  }
}
