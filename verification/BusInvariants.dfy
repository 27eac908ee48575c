/** Invariants of the event bus over every interleaving, and what they mean for
    whole runs. */
module BusInvariants {
  import opened Seqs
  import opened BusModel
  import opened SubLaws

  // ---------------------------------------------------------------- the invariant

  ghost predicate SubsOk(s: State) {
    forall id :: id in s.subs ==> SubOk(s.subs[id], s.capacity)
  }

  ghost predicate OfTopic(s: State, ids: seq<SubId>, topic: string) {
    && Unique(ids)
    && forall id :: id in ids ==> id in s.subs && s.subs[id].topic == topic
  }

  ghost predicate RegistryOk(s: State) {
    forall topic :: topic in s.registry ==> OfTopic(s, s.registry[topic], topic)
  }

  ghost predicate NoneLive(sub: Sub) {
    forall k :: 0 <= k < |sub.tasks| ==> !Live(sub.tasks[k])
  }

  /** Nothing is dispatched while the bus is stopped or for a removed subscription,
      and `stop` waits for every dispatcher it has to detach. */
  ghost predicate LifecycleOk(s: State) {
    && (s.running ==> s.stopping.None?)
    && (s.stopping.Some? ==> s.stopping.value.subs <= s.subs.Keys)
    && forall id :: id in s.subs ==> Quiet(s, id)
  }

  ghost predicate Quiet(s: State, id: SubId)
    requires id in s.subs
  {
    && (!s.running || !Registered(s, id) ==> NoneLive(s.subs[id]))
    && (!Registered(s, id) ==> s.subs[id].dispatcher.None?)
    && (s.running && Registered(s, id) ==> s.subs[id].dispatcher.Some?)
    && (!s.running && s.subs[id].dispatcher.Some? ==> s.stopping.Some? && id in s.stopping.value.subs)
  }

  ghost predicate FrameOk(s: State, frame: Frame) {
    && OfTopic(s, frame.snapshot, frame.msg.topic)
    && frame.pos <= |frame.snapshot|
    && (frame.stage.Awaiting? ==> frame.kind.Request? && frame.pos == |frame.snapshot|)
    && (frame.stage.Ended? && !frame.stage.result.CallerCancelled? ==> frame.pos == |frame.snapshot|)
  }

  ghost predicate FramesOk(s: State) {
    forall call :: call in s.frames ==> s.frames[call].msg.id == call && FrameOk(s, s.frames[call])
  }

  /** Every message in a queue's history belongs to a call that has put it there,
      once. */
  ghost predicate DeliveryOk(s: State) {
    && (forall id, m :: id in s.subs && m in s.subs[id].puts ==> m.id in s.frames && s.frames[m.id].msg == m)
    && (forall id, call :: id in s.subs && call in s.frames ==>
          multiset(s.subs[id].puts)[s.frames[call].msg] == Served(s.frames[call], id))
  }

  function Served(frame: Frame, id: SubId): nat
  {
    if frame.pos <= |frame.snapshot| && id in frame.snapshot[..frame.pos] then 1 else 0
  }

  /** Futures belong to requests; an unfinished request with an unresolved future
      can still be found by its handlers; a finished one got what its future held. */
  ghost predicate RequestsOk(s: State) {
    && (forall call :: call in s.futures || call in s.pending ==> call in s.frames)
    && (forall call :: call in s.frames ==> RequestOk(s, call))
  }

  predicate RequestOk(s: State, call: MsgId)
    requires call in s.frames
  {
    && (call in s.futures <==> s.frames[call].kind.Request?)
    && (call in s.pending ==> call in s.futures && !s.frames[call].stage.Ended? && ByHandler(s.futures[call]))
    && (call in s.futures && !s.frames[call].stage.Ended? ==> ByHandler(s.futures[call]) || s.futures[call].Stopped?)
    && (call in s.futures && !s.frames[call].stage.Ended? && s.futures[call].Pending? ==> call in s.pending)
    && (call in s.futures && s.frames[call].stage.Ended? ==>
          Received(s.frames[call].stage.result, s.frames[call].kind, s.futures[call]))
  }

  /** Pending, or resolved by a handler. */
  predicate ByHandler(future: Future) {
    future.Pending? || future.Replied? || future.Failed?
  }

  /** What `request` returns or raises against what its future holds. Only a request with
      a timeout can miss a resolution: one that came as its time ran out. */
  predicate Received(result: Result, kind: Kind, future: Future) {
    match result
    case Published => false
    case Reply(payload) => future.Replied? && future.reply.payload == payload
    case HandlerError(error) => future == Failed(error)
    case TimeoutError => future.Stopped? || (kind == Request(true) && !future.Pending? && !future.Abandoned?)
    case CallerCancelled => true
  }

  /** A request handler that raised or returned a payload for the request. */
  predicate Decides(e: Entry, call: MsgId) {
    e.serves && e.msg.id == call && (e.result.Raised? || (e.result.Returned? && e.result.payload.Some?))
  }

  ghost predicate FirstDecides(log: seq<Entry>, call: MsgId, i: nat) {
    i < |log| && Decides(log[i], call) && forall j :: 0 <= j < i ==> !Decides(log[j], call)
  }

  /** The reply or error in a future is that of the first deciding handler. */
  ghost predicate FromFirst(log: seq<Entry>, call: MsgId, future: Future) {
    match future
    case Replied(reply) =>
      exists i: nat :: FirstDecides(log, call, i) && log[i].result == Returned(Some(reply.payload))
               && reply.topic == log[i].msg.topic && reply.replyTo == call
    case Failed(error) => exists i: nat :: FirstDecides(log, call, i) && log[i].result == Raised(error)
    case _ => true
  }

  ghost predicate RepliesOk(s: State) {
    forall call :: call in s.futures ==>
      && FromFirst(s.log, call, s.futures[call])
      && (s.futures[call].Pending? && call in s.pending ==> forall e :: e in s.log ==> !Decides(e, call))
  }

  function LogOf(log: seq<Entry>, id: SubId): seq<Message> {
    Map(Filter(log, BySub(id)), (e: Entry) => e.msg)
  }

  function BySub(id: SubId): Entry -> bool {
    (e: Entry) => e.sub == id
  }

  ghost predicate EntryOk(s: State, e: Entry) {
    && e.sub in s.subs && e.msg in s.subs[e.sub].puts && e.serves == s.subs[e.sub].isRequest
    && !e.result.Aborted?
  }

  /** The log, restricted to a subscription, is what that subscription handled. */
  ghost predicate LogOk(s: State) {
    && (forall e :: e in s.log ==> EntryOk(s, e))
    && (forall id :: id in s.subs ==> HandledBy(s.subs[id]) == LogOf(s.log, id))
    && (forall id :: id !in s.subs ==> LogOf(s.log, id) == [])
  }

  ghost predicate Inv(s: State) {
    && RegistryOk(s) && LifecycleOk(s) && SubsOk(s) && FramesOk(s)
    && DeliveryOk(s) && RequestsOk(s) && RepliesOk(s) && LogOk(s)
  }

  // ---------------------------------------------------------------- preservation

  function PutInto(s: State, a: Action, id: SubId): seq<Message>
    requires Enabled(s, a)
  {
    if a.PutNext? && NextSub(s, a.call) == id then [s.frames[a.call].msg] else []
  }

  /** What an action does to the history of one subscription. */
  lemma SubStep(s: State, a: Action, id: SubId)
    requires SubsOk(s) && LifecycleOk(s) && Enabled(s, a) && id in s.subs
    ensures SubOk(SubAfter(s, a, id), s.capacity)
    ensures SubAfter(s, a, id).puts == s.subs[id].puts + PutInto(s, a, id)
  {
    assert SubOk(s.subs[id], s.capacity) && Quiet(s, id);
    OneSubStep(s, a, id);
  }

  predicate ChangesSubs(a: Action) {
    a.Unsubscribe? || a.Start? || a.StopBegin? || a.StopEnd?
  }

  predicate ChangesQueues(a: Action) {
    a.CancelDelivered? || a.PutNext? || a.GetNext? || a.HandlerEnds?
  }

  lemma LifecycleSubStep(s: State, a: Action, id: SubId)
    requires ChangesSubs(a)
    requires id in s.subs && SubOk(s.subs[id], s.capacity) && Quiet(s, id) && Enabled(s, a)
    requires s.running ==> s.stopping.None?
    ensures SubOk(SubAfter(s, a, id), s.capacity)
    ensures SubAfter(s, a, id).puts == s.subs[id].puts
  {
    var sub := s.subs[id];
    match a
    case Unsubscribe(other) =>
      if other == id {
        CancelOk(sub, s.capacity);
        DetachOk(Cancel(sub), s.capacity);
      }
    case Start => SpawnOk(sub, s.capacity);
    case StopBegin => CancelOk(sub, s.capacity);
    case StopEnd =>
      if id in s.stopping.value.subs { DetachOk(sub, s.capacity); }
  }

  lemma QueueSubStep(s: State, a: Action, id: SubId)
    requires ChangesQueues(a) && id in s.subs && SubOk(s.subs[id], s.capacity) && Enabled(s, a)
    ensures SubOk(SubAfter(s, a, id), s.capacity)
    ensures SubAfter(s, a, id).puts == s.subs[id].puts + PutInto(s, a, id)
  {
    var sub := s.subs[id];
    assert sub.puts + [] == sub.puts;
    match a
    case CancelDelivered(other, task) =>
      if other == id { CancelDeliveredOk(sub, task, s.capacity); }
    case PutNext(call) =>
      if NextSub(s, call) == id { PutOk(sub, s.frames[call].msg, s.capacity); }
    case GetNext(other, task) =>
      if other == id { TakeOk(sub, task, s.capacity); }
    case HandlerEnds(other, task, result) =>
      if other == id { FinishOk(sub, task, result, s.capacity); }
  }

  lemma OneSubStep(s: State, a: Action, id: SubId)
    requires id in s.subs && SubOk(s.subs[id], s.capacity) && Quiet(s, id) && Enabled(s, a)
    requires s.running ==> s.stopping.None?
    ensures SubOk(SubAfter(s, a, id), s.capacity)
    ensures SubAfter(s, a, id).puts == s.subs[id].puts + PutInto(s, a, id)
  {
    assert s.subs[id].puts + [] == s.subs[id].puts;
    if ChangesSubs(a) {
      LifecycleSubStep(s, a, id);
    } else if ChangesQueues(a) {
      QueueSubStep(s, a, id);
    } else {
      assert SubAfter(s, a, id) == s.subs[id];
    }
  }

  /** Only a put adds to the history of puts. */
  lemma PutsStep(s: State, a: Action, id: SubId)
    requires Enabled(s, a) && id in SubsAfter(s, a)
    ensures SubsAfter(s, a)[id].puts == PutsOf(s, id) + PutInto(s, a, id)
  {
  }

  lemma SubSame(s: State, a: Action, id: SubId)
    requires Enabled(s, a) && id in s.subs
    ensures SubAfter(s, a, id).topic == s.subs[id].topic
    ensures SubAfter(s, a, id).isRequest == s.subs[id].isRequest
    ensures SubAfter(s, a, id).replySender == s.subs[id].replySender
  {
  }

  lemma SubsKept(s: State, a: Action)
    requires SubsOk(s) && LifecycleOk(s) && Enabled(s, a)
    ensures SubsOk(Apply(s, a))
  {
    forall id | id in SubsAfter(s, a) ensures SubOk(SubsAfter(s, a)[id], s.capacity) {
      if id in s.subs {
        SubStep(s, a, id);
      } else {
        NewSubOk(a.topic, a.isRequest, a.replySender, s.capacity);
        SpawnOk(NewSub(a.topic, a.isRequest, a.replySender), s.capacity);
      }
    }
  }

  lemma TopicsKept(s: State, a: Action, ids: seq<SubId>, topic: string)
    requires Enabled(s, a) && OfTopic(s, ids, topic)
    ensures OfTopic(Apply(s, a), ids, topic)
  {
    forall id | id in ids ensures id in SubsAfter(s, a) && SubsAfter(s, a)[id].topic == topic {
      SubSame(s, a, id);
    }
  }

  lemma {:induction false} FilterUnique(ids: seq<SubId>, p: SubId -> bool)
    requires Unique(ids)
    ensures Unique(Filter(ids, p))
  {
    if ids != [] {
      FilterUnique(ids[..|ids| - 1], p);
      FilterMembers(ids[..|ids| - 1], p);
    }
  }

  lemma RegistryKept(s: State, a: Action)
    requires RegistryOk(s) && Enabled(s, a)
    ensures RegistryOk(Apply(s, a))
  {
    var s' := Apply(s, a);
    forall topic | topic in s'.registry ensures OfTopic(s', s'.registry[topic], topic) {
      var before := OnTopic(s, topic);
      TopicsKept(s, a, before, topic);
      if a.Unsubscribe? && topic == s.subs[a.id].topic {
        FilterUnique(before, Other(a.id));
        FilterMembers(before, Other(a.id));
      }
    }
  }

  /** Who is registered afterwards. */
  lemma RegisteredAfter(s: State, a: Action, id: SubId)
    requires Enabled(s, a) && id in s.subs
    ensures Registered(Apply(s, a), id) <==> Registered(s, id) && !(a.Unsubscribe? && a.id == id)
  {
    SubSame(s, a, id);
    if a.Unsubscribe? {
      FilterMembers(OnTopic(s, s.subs[a.id].topic), Other(a.id));
    }
  }

  lemma CancelQuiets(sub: Sub)
    requires OneDispatcher(sub)
    ensures NoneLive(Cancel(sub)) && Cancel(sub).dispatcher == sub.dispatcher
    ensures NoneLive(sub) ==> Cancel(sub) == sub
  {
  }

  lemma QuietAfterLifecycle(s: State, a: Action, id: SubId)
    requires ChangesSubs(a) && id in s.subs && OneDispatcher(s.subs[id]) && LifecycleOk(s) && Enabled(s, a)
    ensures Quiet(Apply(s, a), id)
  {
    RegisteredAfter(s, a, id);
    CancelQuiets(s.subs[id]);
    assert Quiet(s, id);
    var sub, after := s.subs[id], SubAfter(s, a, id);
    assert Apply(s, a).subs[id] == after;
    match a
    case Unsubscribe(other) => assert other == id ==> NoneLive(after) && after.dispatcher.None?;
    case Start => assert Registered(s, id) ==> after.dispatcher.Some?;
    case StopBegin => assert Registered(s, id) ==> NoneLive(after);
    case StopEnd => assert after.tasks == sub.tasks;
  }

  /** Only a lifecycle action makes or forgets a dispatcher; no other wakes a task. */
  lemma DispatcherSame(s: State, a: Action, id: SubId)
    requires !ChangesSubs(a) && id in s.subs && Enabled(s, a)
    ensures SubAfter(s, a, id).dispatcher == s.subs[id].dispatcher
    ensures NoneLive(s.subs[id]) ==> NoneLive(SubAfter(s, a, id))
  {
  }

  /** The subscriptions a stopping bus has to detach are those with a dispatcher. */
  lemma QuietKept(s: State, a: Action, id: SubId)
    requires id in s.subs && OneDispatcher(s.subs[id]) && LifecycleOk(s) && Enabled(s, a)
    ensures Quiet(Apply(s, a), id)
  {
    if ChangesSubs(a) {
      QuietAfterLifecycle(s, a, id);
    } else {
      RegisteredAfter(s, a, id);
      DispatcherSame(s, a, id);
      assert Quiet(s, id) && Apply(s, a).subs[id] == SubAfter(s, a, id);
    }
  }

  lemma LifecycleKept(s: State, a: Action)
    requires SubsOk(s) && LifecycleOk(s) && Enabled(s, a)
    ensures LifecycleOk(Apply(s, a))
  {
    var s' := Apply(s, a);
    forall id | id in s'.subs ensures Quiet(s', id) {
      if id in s.subs {
        assert SubOk(s.subs[id], s.capacity);
        QuietKept(s, a, id);
      } else {
        assert OnTopic(s', a.topic)[|OnTopic(s, a.topic)|] == id;
      }
    }
  }

  lemma FrameSame(s: State, a: Action, call: MsgId)
    requires Enabled(s, a) && call in s.frames
    ensures call in FramesAfter(s, a)
    ensures FramesAfter(s, a)[call].msg == s.frames[call].msg
    ensures FramesAfter(s, a)[call].kind == s.frames[call].kind
    ensures FramesAfter(s, a)[call].snapshot == s.frames[call].snapshot
    ensures FramesAfter(s, a)[call].pos == s.frames[call].pos + (if a.PutNext? && a.call == call then 1 else 0)
  {
  }

  lemma FrameKept(s: State, a: Action, call: MsgId)
    requires RegistryOk(s) && FramesOk(s) && Enabled(s, a) && call in s.frames
    ensures call in FramesAfter(s, a) && FramesAfter(s, a)[call].msg.id == call
    ensures FrameOk(Apply(s, a), FramesAfter(s, a)[call])
  {
    FrameSame(s, a, call);
    TopicsKept(s, a, s.frames[call].snapshot, s.frames[call].msg.topic);
  }

  lemma FramesKept(s: State, a: Action)
    requires RegistryOk(s) && FramesOk(s) && Enabled(s, a)
    ensures FramesOk(Apply(s, a))
  {
    var s' := Apply(s, a);
    forall call | call in s'.frames ensures s'.frames[call].msg.id == call && FrameOk(s', s'.frames[call]) {
      if call in s.frames {
        FrameKept(s, a, call);
      } else {
        TopicsKept(s, a, OnTopic(s, a.msg.topic), a.msg.topic);
      }
    }
  }

  lemma PutServes(frame: Frame, id: SubId)
    requires Unique(frame.snapshot) && frame.pos < |frame.snapshot|
    ensures Served(frame.(pos := frame.pos + 1), id)
         == Served(frame, id) + (if id == frame.snapshot[frame.pos] then 1 else 0)
  {
    assert frame.snapshot[..frame.pos + 1] == frame.snapshot[..frame.pos] + [frame.snapshot[frame.pos]];
  }

  lemma OriginKept(s: State, a: Action, id: SubId, m: Message)
    requires FramesOk(s) && DeliveryOk(s) && Enabled(s, a)
    requires id in SubsAfter(s, a) && m in SubsAfter(s, a)[id].puts
    ensures m.id in FramesAfter(s, a) && FramesAfter(s, a)[m.id].msg == m
  {
    PutsStep(s, a, id);
    if m in PutInto(s, a, id) {
      FrameSame(s, a, a.call);
    } else {
      assert id in s.subs && m in s.subs[id].puts;
      FrameSame(s, a, m.id);
    }
  }

  function PutsOf(s: State, id: SubId): seq<Message> {
    if id in s.subs then s.subs[id].puts else []
  }

  /** What a call in progress gains in one step is what is put. */
  lemma CountStep(s: State, a: Action, id: SubId, call: MsgId)
    requires FramesOk(s) && Enabled(s, a) && call in s.frames
    ensures Served(FramesAfter(s, a)[call], id)
         == Served(s.frames[call], id) + multiset(PutInto(s, a, id))[s.frames[call].msg]
  {
    assert FrameOk(s, s.frames[call]);
    if a.PutNext? {
      assert s.frames[a.call].msg == s.frames[call].msg <==> a.call == call;
      if a.call == call {
        PutServes(s.frames[call], id);
      }
    }
  }

  lemma CountBefore(s: State, id: SubId, call: MsgId)
    requires FramesOk(s) && DeliveryOk(s) && call in s.frames
    ensures multiset(PutsOf(s, id))[s.frames[call].msg] == Served(s.frames[call], id)
  {
    assert FrameOk(s, s.frames[call]);
  }

  lemma CountKept(s: State, a: Action, id: SubId, call: MsgId)
    requires FramesOk(s) && DeliveryOk(s) && Enabled(s, a)
    requires id in SubsAfter(s, a) && call in FramesAfter(s, a)
    ensures multiset(SubsAfter(s, a)[id].puts)[FramesAfter(s, a)[call].msg] == Served(FramesAfter(s, a)[call], id)
  {
    PutsStep(s, a, id);
    assert multiset(SubsAfter(s, a)[id].puts) == multiset(PutsOf(s, id)) + multiset(PutInto(s, a, id));
    if call in s.frames {
      FrameSame(s, a, call);
      CountStep(s, a, id, call);
      CountBefore(s, id, call);
    } else {
      assert FramesAfter(s, a)[call].msg !in PutsOf(s, id);
    }
  }

  lemma DeliveryKept(s: State, a: Action)
    requires FramesOk(s) && DeliveryOk(s) && Enabled(s, a)
    ensures DeliveryOk(Apply(s, a))
  {
    var subs', frames' := SubsAfter(s, a), FramesAfter(s, a);
    forall id, m | id in subs' && m in subs'[id].puts ensures m.id in frames' && frames'[m.id].msg == m {
      OriginKept(s, a, id, m);
    }
    forall id, call | id in subs' && call in frames'
      ensures multiset(subs'[id].puts)[frames'[call].msg] == Served(frames'[call], id)
    {
      CountKept(s, a, id, call);
    }
  }

  /** A future is created pending, resolved at most once and never changed again. */
  lemma FutureStep(s: State, a: Action, call: MsgId)
    requires Enabled(s, a) && call in s.futures && (a.BeginRequest? ==> a.msg.id != call)
    ensures call in FuturesAfter(s, a)
    ensures FuturesAfter(s, a)[call] == s.futures[call] ||
      (s.futures[call].Pending? && !FuturesAfter(s, a)[call].Pending?)
  {
  }

  predicate OfCall(a: Action) {
    a.RouteDone? || a.Resume? || a.Timeout? || a.CancelCall?
  }

  lemma CallKeepsRequest(s: State, a: Action, call: MsgId)
    requires OfCall(a) && Enabled(s, a) && call in s.frames && RequestOk(s, call)
    requires s.frames[call].stage.Awaiting? ==> s.frames[call].kind.Request?
    ensures RequestOk(Apply(s, a), call)
  {
    if a.call == call {
      assert !s.frames[call].stage.Ended?;
    } else {
      assert FramesAfter(s, a)[call] == s.frames[call];
      assert call in s.futures ==> call in FuturesAfter(s, a) && FuturesAfter(s, a)[call] == s.futures[call];
      assert call in PendingAfter(s, a) <==> call in s.pending;
    }
  }

  lemma OthersKeepRequest(s: State, a: Action, call: MsgId)
    requires !OfCall(a) && Enabled(s, a) && call in s.frames && RequestOk(s, call)
    ensures RequestOk(Apply(s, a), call)
  {
    assert FramesAfter(s, a)[call].stage == s.frames[call].stage;
    assert FramesAfter(s, a)[call].kind == s.frames[call].kind;
    if call in s.futures {
      FutureStep(s, a, call);
    }
  }

  lemma RequestsKept(s: State, a: Action)
    requires RequestsOk(s) && FramesOk(s) && Enabled(s, a)
    ensures RequestsOk(Apply(s, a))
  {
    forall call | call in FramesAfter(s, a) ensures RequestOk(Apply(s, a), call) {
      if call in s.frames {
        assert RequestOk(s, call) && FrameOk(s, s.frames[call]);
        if OfCall(a) {
          CallKeepsRequest(s, a, call);
        } else {
          OthersKeepRequest(s, a, call);
        }
      }
    }
    if a.HandlerEnds? {
      assert FuturesAfter(s, a).Keys == s.futures.Keys;
    }
  }

  lemma FirstStays(log: seq<Entry>, e: Entry, call: MsgId, future: Future)
    requires FromFirst(log, call, future)
    ensures FromFirst(log + [e], call, future)
  {
    match future
    case Replied(reply) =>
      var i: nat :| FirstDecides(log, call, i) && log[i].result == Returned(Some(reply.payload))
            && reply.topic == log[i].msg.topic && reply.replyTo == call;
      assert FirstDecides(log + [e], call, i);
    case Failed(error) =>
      var i: nat :| FirstDecides(log, call, i) && log[i].result == Raised(error);
      assert FirstDecides(log + [e], call, i);
    case _ =>
  }

  /** What the entry of an ended handler does to one future. */
  lemma ReplyKept(s: State, a: Action, call: MsgId)
    requires RequestsOk(s) && RepliesOk(s) && Enabled(s, a) && a.HandlerEnds? && !a.result.Aborted?
    requires call in s.futures
    ensures FromFirst(LogAfter(s, a), call, FuturesAfter(s, a)[call])
    ensures FuturesAfter(s, a)[call].Pending? && call in s.pending ==>
      forall e :: e in LogAfter(s, a) ==> !Decides(e, call)
  {
    var e := Entry(a.id, s.subs[a.id].isRequest, s.subs[a.id].tasks[a.task].message, a.result);
    FirstStays(s.log, e, call, s.futures[call]);
    if FuturesAfter(s, a)[call] != s.futures[call] {
      assert FirstDecides(LogAfter(s, a), call, |s.log|);
    }
  }

  /** Nothing else gives a future a reply or an error of a handler. */
  lemma FutureOtherwise(s: State, a: Action, call: MsgId)
    requires Enabled(s, a) && (a.HandlerEnds? ==> a.result.Aborted?) && call in FuturesAfter(s, a)
    ensures var after := FuturesAfter(s, a)[call];
      || (call in s.futures && after == s.futures[call] && (call in PendingAfter(s, a) ==> call in s.pending))
      || after.TimedOut? || after.Stopped? || after.Abandoned?
      || (after.Pending? && call !in s.frames)
  {
  }

  lemma ReplyKeptOtherwise(s: State, a: Action, call: MsgId)
    requires RequestsOk(s) && RepliesOk(s) && Enabled(s, a) && (a.HandlerEnds? ==> a.result.Aborted?)
    requires forall e :: e in s.log ==> e.msg.id in s.frames
    requires call in FuturesAfter(s, a)
    ensures FromFirst(s.log, call, FuturesAfter(s, a)[call])
    ensures FuturesAfter(s, a)[call].Pending? && call in PendingAfter(s, a) ==>
      forall e :: e in s.log ==> !Decides(e, call)
  {
    FutureOtherwise(s, a, call);
  }

  lemma RepliesKept(s: State, a: Action)
    requires RequestsOk(s) && RepliesOk(s) && Enabled(s, a)
    requires forall e :: e in s.log ==> e.msg.id in s.frames
    ensures RepliesOk(Apply(s, a))
  {
    var after := FuturesAfter(s, a);
    forall call | call in after
      ensures FromFirst(LogAfter(s, a), call, after[call])
      ensures after[call].Pending? && call in PendingAfter(s, a) ==>
        forall e :: e in LogAfter(s, a) ==> !Decides(e, call)
    {
      if a.HandlerEnds? && !a.result.Aborted? {
        ReplyKept(s, a, call);
      } else {
        ReplyKeptOtherwise(s, a, call);
      }
    }
  }

  lemma LogSnoc(log: seq<Entry>, e: Entry, id: SubId)
    ensures LogOf(log + [e], id) == if e.sub == id then LogOf(log, id) + [e.msg] else LogOf(log, id)
  {
    FilterSnoc(log, e, BySub(id));
  }

  /** What an action does to the messages a subscription has handled. */
  lemma HandledStep(s: State, a: Action, id: SubId)
    requires id in s.subs && SubOk(s.subs[id], s.capacity) && Quiet(s, id) && Enabled(s, a)
    requires s.running ==> s.stopping.None?
    ensures HandledBy(SubAfter(s, a, id))
         == if a.HandlerEnds? && a.id == id && !a.result.Aborted?
            then HandledBy(s.subs[id]) + [s.subs[id].tasks[a.task].message] else HandledBy(s.subs[id])
  {
    var sub := s.subs[id];
    match a
    case Unsubscribe(other) =>
      if other == id {
        CancelOk(sub, s.capacity);
        DetachOk(Cancel(sub), s.capacity);
      }
    case Start => SpawnOk(sub, s.capacity);
    case StopBegin => CancelOk(sub, s.capacity);
    case StopEnd =>
      if id in s.stopping.value.subs { DetachOk(sub, s.capacity); }
    case HandlerEnds(other, task, result) =>
      if other == id { FinishHandles(sub, task, result); }
    case _ =>
  }

  lemma LogOfKept(s: State, a: Action, id: SubId)
    requires SubsOk(s) && LifecycleOk(s) && LogOk(s) && Enabled(s, a)
    ensures id in SubsAfter(s, a) ==> HandledBy(SubsAfter(s, a)[id]) == LogOf(LogAfter(s, a), id)
    ensures id !in SubsAfter(s, a) ==> LogOf(LogAfter(s, a), id) == []
  {
    if id in s.subs {
      assert SubOk(s.subs[id], s.capacity) && Quiet(s, id);
      HandledStep(s, a, id);
    }
    if a.HandlerEnds? && !a.result.Aborted? {
      LogSnoc(s.log, Entry(a.id, s.subs[a.id].isRequest, s.subs[a.id].tasks[a.task].message, a.result), id);
    }
  }

  lemma OldEntryKept(s: State, a: Action, e: Entry)
    requires Enabled(s, a) && EntryOk(s, e)
    ensures EntryOk(Apply(s, a), e)
  {
    PutsStep(s, a, e.sub);
    SubSame(s, a, e.sub);
  }

  lemma NewEntryOk(s: State, a: Action)
    requires SubsOk(s) && Enabled(s, a) && a.HandlerEnds? && !a.result.Aborted?
    ensures EntryOk(s, Entry(a.id, s.subs[a.id].isRequest, s.subs[a.id].tasks[a.task].message, a.result))
  {
    assert SubOk(s.subs[a.id], s.capacity);
    FinishOk(s.subs[a.id], a.task, a.result, s.capacity);
  }

  lemma EntryKept(s: State, a: Action, e: Entry)
    requires SubsOk(s) && LogOk(s) && Enabled(s, a) && e in LogAfter(s, a)
    ensures EntryOk(Apply(s, a), e)
  {
    if e !in s.log {
      NewEntryOk(s, a);
    }
    OldEntryKept(s, a, e);
  }

  lemma LogKept(s: State, a: Action)
    requires SubsOk(s) && LifecycleOk(s) && LogOk(s) && Enabled(s, a)
    ensures LogOk(Apply(s, a))
  {
    var s' := Apply(s, a);
    forall id
      ensures id in s'.subs ==> HandledBy(s'.subs[id]) == LogOf(s'.log, id)
      ensures id !in s'.subs ==> LogOf(s'.log, id) == []
    {
      LogOfKept(s, a, id);
    }
    forall e | e in s'.log ensures EntryOk(s', e) {
      EntryKept(s, a, e);
    }
  }

  lemma ActionKeepsInv(s: State, a: Action)
    requires Inv(s) && Enabled(s, a)
    ensures Inv(Apply(s, a))
  {
    RegistryKept(s, a);
    LifecycleKept(s, a);
    SubsKept(s, a);
    FramesKept(s, a);
    DeliveryKept(s, a);
    RequestsKept(s, a);
    RepliesKept(s, a);
    LogKept(s, a);
  }
}
