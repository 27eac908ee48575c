/** What every operation on one subscription keeps: at most one live dispatcher,
    no message lost or reordered, and the meaning of the warning flag. */
module SubLaws {
  import opened Seqs
  import opened BusModel

  function MessageOf(e: Settled): Message {
    e.message
  }

  function Messages(settled: seq<Settled>): seq<Message> {
    Map(settled, MessageOf)
  }

  predicate WasHandled(e: Settled) {
    e.fate.Handled?
  }

  /** The messages whose handler returned or raised, in the order it did. */
  function HandledBy(sub: Sub): seq<Message> {
    Messages(Filter(sub.settled, WasHandled))
  }

  /** A task that runs is the one the subscription points to. */
  ghost predicate OneDispatcher(sub: Sub) {
    && (sub.dispatcher.Some? ==> sub.dispatcher.value < |sub.tasks|)
    && (forall k :: 0 <= k < |sub.tasks| && Live(sub.tasks[k]) ==> sub.dispatcher == Some(k))
  }

  /** What was put is what was settled, then what is in hand, then the queue. */
  ghost predicate InOrder(sub: Sub) {
    sub.puts == Messages(sub.settled) + InHand(sub) + sub.queue
  }

  ghost predicate Watermark(sub: Sub, threshold: nat) {
    && (threshold == 0 ==> !sub.warned)
    && (threshold > 0 ==> (sub.warned <==> |sub.queue| >= threshold || sub.stale))
    && (sub.stale ==> |sub.queue| < threshold)
    && sub.warnings + sub.missed == sub.crossings
    && sub.missed + (if sub.stale then 1 else 0) <= sub.staleDrains
  }

  ghost predicate SubOk(sub: Sub, capacity: int) {
    && OneDispatcher(sub)
    && InOrder(sub)
    && Watermark(sub, Threshold(capacity))
    && (capacity > 0 ==> |sub.queue| <= capacity)
  }

  lemma MessagesConcat(a: seq<Settled>, b: seq<Settled>)
    ensures Messages(a + b) == Messages(a) + Messages(b)
  {
  }

  lemma MessagesSettled(messages: seq<Message>, fate: Fate)
    ensures Messages(SettleAll(messages, fate)) == messages
  {
  }

  lemma NewSubOk(topic: string, isRequest: bool, replySender: string, capacity: int)
    ensures SubOk(NewSub(topic, isRequest, replySender), capacity)
  {
  }

  lemma SpawnOk(sub: Sub, capacity: int)
    requires SubOk(sub, capacity)
    ensures SubOk(Spawn(sub), capacity) && Spawn(sub).puts == sub.puts && HandledBy(Spawn(sub)) == HandledBy(sub)
  {
  }

  lemma NoneHandled(messages: seq<Message>, fate: Fate)
    requires !fate.Handled?
    ensures Filter(SettleAll(messages, fate), WasHandled) == []
  {
    FilterNone(SettleAll(messages, fate), WasHandled);
  }

  lemma SettledSnoc(settled: seq<Settled>, e: Settled)
    ensures Messages(settled + [e]) == Messages(settled) + [e.message]
    ensures Messages(Filter(settled + [e], WasHandled))
         == Messages(Filter(settled, WasHandled)) + (if e.fate.Handled? then [e.message] else [])
  {
    FilterSnoc(settled, e, WasHandled);
    MapSnoc(settled, e, MessageOf);
    MapSnoc(Filter(settled, WasHandled), e, MessageOf);
  }

  /** Messages that leave unhandled join the settled ones, not the handled ones. */
  lemma SettleUnhandled(settled: seq<Settled>, messages: seq<Message>, fate: Fate)
    requires !fate.Handled?
    ensures Messages(settled + SettleAll(messages, fate)) == Messages(settled) + messages
    ensures Messages(Filter(settled + SettleAll(messages, fate), WasHandled)) == Messages(Filter(settled, WasHandled))
  {
    MessagesConcat(settled, SettleAll(messages, fate));
    MessagesSettled(messages, fate);
    FilterConcat(settled, SettleAll(messages, fate), WasHandled);
    NoneHandled(messages, fate);
  }

  lemma CancelSettles(sub: Sub)
    requires OneDispatcher(sub) && InOrder(sub)
    ensures InOrder(Cancel(sub)) && HandledBy(Cancel(sub)) == HandledBy(sub)
  {
    SettleUnhandled(sub.settled, InHand(sub), CutOff);
    assert Messages(sub.settled) + InHand(sub) + [] == Messages(sub.settled) + InHand(sub);
  }

  lemma CancelOk(sub: Sub, capacity: int)
    requires SubOk(sub, capacity)
    ensures SubOk(Cancel(sub), capacity) && Cancel(sub).puts == sub.puts
    ensures HandledBy(Cancel(sub)) == HandledBy(sub)
    ensures forall k :: 0 <= k < |Cancel(sub).tasks| ==> !Live(Cancel(sub).tasks[k])
  {
    CancelSettles(sub);
  }

  lemma DetachOk(sub: Sub, capacity: int)
    requires SubOk(sub, capacity) && forall k :: 0 <= k < |sub.tasks| ==> !Live(sub.tasks[k])
    ensures SubOk(Detach(sub), capacity) && Detach(sub).puts == sub.puts
    ensures HandledBy(Detach(sub)) == HandledBy(sub)
  {
    SettleUnhandled(sub.settled, sub.queue, Dropped);
    assert InHand(sub) == [] && InHand(Detach(sub)) == [];
  }

  lemma PutOk(sub: Sub, m: Message, capacity: int)
    requires SubOk(sub, capacity) && (capacity > 0 ==> |sub.queue| < capacity)
    ensures SubOk(Put(sub, m, Threshold(capacity)), capacity)
    ensures Put(sub, m, Threshold(capacity)).puts == sub.puts + [m]
  {
    Associates(Messages(sub.settled) + InHand(sub), sub.queue, [m]);
  }

  lemma TakeOk(sub: Sub, k: nat, capacity: int)
    requires SubOk(sub, capacity) && k < |sub.tasks| && sub.tasks[k].Waiting? && sub.queue != []
    ensures SubOk(Take(sub, k, Threshold(capacity)), capacity)
    ensures Take(sub, k, Threshold(capacity)).puts == sub.puts
  {
    assert Live(sub.tasks[k]);
    assert sub.queue == [sub.queue[0]] + sub.queue[1..];
    assert Messages(sub.settled) + [] + sub.queue == Messages(sub.settled) + [sub.queue[0]] + sub.queue[1..];
  }

  function EndOf(sub: Sub, k: nat, result: HandlerResult): Settled
    requires k < |sub.tasks| && sub.tasks[k].Handling?
  {
    Settled(sub.tasks[k].message, if result.Aborted? then CutOff else Handled)
  }

  lemma FinishOk(sub: Sub, k: nat, result: HandlerResult, capacity: int)
    requires SubOk(sub, capacity) && k < |sub.tasks| && sub.tasks[k].Handling?
    ensures SubOk(Finish(sub, k, result), capacity) && Finish(sub, k, result).puts == sub.puts
    ensures sub.tasks[k].message in sub.puts
  {
    assert Live(sub.tasks[k]);
    assert InHand(sub) == [sub.tasks[k].message];
    SettledSnoc(sub.settled, EndOf(sub, k, result));
    assert InHand(Finish(sub, k, result)) == [];
    assert InHand(sub)[0] in sub.puts;
  }

  lemma FinishHandles(sub: Sub, k: nat, result: HandlerResult)
    requires k < |sub.tasks| && sub.tasks[k].Handling?
    ensures HandledBy(Finish(sub, k, result))
         == if result.Aborted? then HandledBy(sub) else HandledBy(sub) + [sub.tasks[k].message]
  {
    SettledSnoc(sub.settled, EndOf(sub, k, result));
  }

  lemma CancelDeliveredOk(sub: Sub, k: nat, capacity: int)
    requires SubOk(sub, capacity) && k < |sub.tasks| && sub.tasks[k].Cancelling?
    ensures SubOk(sub.(tasks := sub.tasks[k := Done]), capacity)
  {
  }

  // ---------------------------------------------------------------- consequences

  /** Delivery order is put order: when nothing was dropped or cut off, the handled
      messages are a prefix of the messages put. */
  lemma {:induction false} AllHandled(settled: seq<Settled>)
    requires forall e :: e in settled ==> e.fate.Handled?
    ensures Filter(settled, WasHandled) == settled
  {
    FilterAll(settled, WasHandled);
  }

  lemma HandledIsPrefixOfPuts(sub: Sub, capacity: int)
    requires SubOk(sub, capacity) && forall e :: e in sub.settled ==> e.fate.Handled?
    ensures HandledBy(sub) <= sub.puts
    ensures sub.puts == HandledBy(sub) + InHand(sub) + sub.queue
  {
    AllHandled(sub.settled);
  }

  /** A full queue has been warned about; the warnings fall short of the crossings
      of the threshold by at most one for each drain that left the flag set. */
  lemma FullQueueWasWarned(sub: Sub, capacity: int)
    requires SubOk(sub, capacity) && capacity > 0
    ensures 1 <= Threshold(capacity) <= capacity
    ensures |sub.queue| >= Threshold(capacity) ==> sub.warned
    ensures sub.warnings <= sub.crossings <= sub.warnings + sub.staleDrains
    ensures sub.staleDrains == 0 ==> sub.warnings == sub.crossings
    ensures sub.staleDrains == 0 ==> (sub.warned <==> |sub.queue| >= Threshold(capacity))
  {
  }
}
