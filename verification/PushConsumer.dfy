/** The pull loop and the concurrent consume task on the real objects, each run with nothing beside it, and
    their place in the interleaved protocol: each is one uninterrupted path through it. */
module PushConsumer {
  import opened Basics
  import opened Allocation
  import opened ProcessQueue
  import opened ConsumeService
  import opened OrderedMap
  import OffsetStore
  import opened QueueProtocol

  /** What a synchronous pull comes back with; OnlyNext is OFFSET_ILLEGAL or BROKER_TIMEOUT. */
  datatype Reply = Answer(result: PullResult) | OnlyNext(nextBegin: int) | Failed

  datatype Again = Now | Later | Never

  /** What one pull does: the new view, the batch to submit, the offset to store and when to pull again. */
  datatype PullOutcome = PullOutcome(view: View, submit: Option<seq<Message>>, store: Option<int>, again: Again)

  /** The request to the broker; it carries the stored offset, for the broker to commit if enabled. */
  datatype PullHeader = PullHeader(queueOffset: int, maxMsgNums: nat, commitEnabled: bool, commitOffset: int)

  /** allowed: the queue is locked if it has to be, and there is a subscription. */
  function PullEffect(v: View, limit: nat, allowed: bool, reply: Reply): PullOutcome {
    if v.dropped then PullOutcome(v, None, None, Never)
    else if !allowed || |v.cache| > limit || reply.Failed? then PullOutcome(v, None, None, Later)
    else if reply.OnlyNext? then PullOutcome(v.(nextOffset := reply.nextBegin), None, None, Now)
    else match reply.result
      case Found(msgs, next) => FoundOutcome(v, msgs, next)
      case NoMessages(next) => NoneOutcome(v, next)
  }

  function FoundOutcome(v: View, msgs: seq<Message>, next: int): PullOutcome {
    PullOutcome(Put(v.(nextOffset := next), msgs), Some(msgs), None, Now)
  }

  function NoneOutcome(v: View, next: int): PullOutcome {
    PullOutcome(v.(nextOffset := next), None, if v.cache.Keys == {} && next > 0 then Some(next) else None, Now)
  }

  /** What one consume task does. */
  datatype TaskOutcome = TaskOutcome(view: View, store: Option<int>, retry: seq<Message>)

  function TaskEffect(v: View, msgs: seq<Message>, consumed: bool, back: seq<bool>): TaskOutcome
    requires |back| == |msgs|
  {
    if v.dropped then TaskOutcome(Clear(v), None, [])
    else if msgs == [] then TaskOutcome(v, None, [])
    else
      var (left, offset) := Remove(v, Offsets(AckedOf(msgs, consumed, back)));
      TaskOutcome(left, if offset >= 0 then Some(offset) else None, RetryOf(msgs, consumed, back))
  }

  function Stored(table: map<Queue, int>, mq: Queue, offset: Option<int>): map<Queue, int> {
    match offset
    case None => table
    case Some(o) => table[mq := o]
  }

  /** The consumer of one queue. The task queues and timers are lists of what has been posted. */
  class PushConsumer {
    const request: PullRequest
    const messageQueue: Queue
    const store: OffsetStore.RemoteBrokerOffsetStore
    const maxMsgCacheSize: nat
    var pulling: bool
    var consuming: bool
    var pullTasks: nat
    var pullTimers: nat
    var consumeTasks: seq<seq<Message>>
    var consumeTimers: seq<seq<Message>>

    constructor (request: PullRequest, messageQueue: Queue, store: OffsetStore.RemoteBrokerOffsetStore,
                 maxMsgCacheSize: nat)
      ensures this.request == request && this.store == store && this.messageQueue == messageQueue
      ensures pullTasks == pullTimers == 0 && consumeTasks == consumeTimers == []
    {
      this.request, this.messageQueue := request, messageQueue;
      this.store, this.maxMsgCacheSize := store, maxMsgCacheSize;
      pulling, consuming, pullTasks, pullTimers, consumeTasks, consumeTimers := true, true, 0, 0, [], [];
    }

    method UpdateConsumeOffset(offset: int)
      modifies store`offsetTable
      ensures store.offsetTable ==
        Stored(old(store.offsetTable), messageQueue, if offset >= 0 then Some(offset) else None)
    {
      if offset >= 0 {
        store.UpdateOffset(messageQueue, offset);
      }
    }

    method ProducePullMsgTask() returns (ok: bool)
      modifies this`pullTasks
      ensures ok <==> !request.dropped && pulling
      ensures pullTasks == old(pullTasks) + if ok then 1 else 0
    {
      if request.dropped {
        return false;
      }
      if pulling {
        pullTasks := pullTasks + 1;
      } else {
        return false;
      }
      return true;
    }

    method ProducePullMsgTaskLater() returns (ok: bool)
      modifies this`pullTimers
      ensures ok <==> !request.dropped && pulling
      ensures pullTimers == old(pullTimers) + if ok then 1 else 0
    {
      if request.dropped {
        return false;
      }
      if pulling {
        pullTimers := pullTimers + 1;
        return true;
      } else {
        return false;
      }
    }

    method SubmitConsumeRequest(msgs: seq<Message>)
      modifies this`consumeTasks
      ensures consumeTasks == old(consumeTasks) + if !request.dropped && consuming then [msgs] else []
    {
      if request.dropped {
        return;
      }
      if !request.dropped && consuming {
        consumeTasks := consumeTasks + [msgs];
      }
    }

    method SubmitConsumeRequestLater(msgs: seq<Message>)
      modifies this`consumeTimers
      ensures consumeTimers == old(consumeTimers) + if msgs != [] && !request.dropped && consuming then [msgs] else []
    {
      if msgs == [] || request.dropped {
        return;
      }
      if !request.dropped && consuming {
        consumeTimers := consumeTimers + [msgs];
      }
    }

    /** The FOUND case of pullMessage. */
    method ApplyFound(msgs: seq<Message>, nextBegin: int)
      requires !request.dropped
      modifies this`pullTasks, this`consumeTasks, request
      ensures request.Value() == Put(old(request.Value()).(nextOffset := nextBegin), msgs)
      ensures pullTasks == old(pullTasks) + (if pulling then 1 else 0)
      ensures consumeTasks == old(consumeTasks) + (if consuming then [msgs] else [])
    {
      request.SetNextOffset(nextBegin);
      request.PutMessage(msgs);
      SubmitConsumeRequest(msgs);
      var ok := ProducePullMsgTask();
    }

    /** The NO_NEW_MSG and NO_MATCHED_MSG cases, which are alike. */
    method ApplyNone(nextBegin: int)
      requires !request.dropped
      modifies this`pullTasks, request, store`offsetTable
      ensures request.Value() == old(request.Value()).(nextOffset := nextBegin)
      ensures store.offsetTable ==
        Stored(old(store.offsetTable), messageQueue,
               if old(request.msgTreeMap).Keys == {} && nextBegin > 0 then Some(nextBegin) else None)
      ensures pullTasks == old(pullTasks) + (if pulling then 1 else 0)
    {
      request.SetNextOffset(nextBegin);
      var msgs := request.GetMessage();
      ListingEmpty(request.msgTreeMap);
      if |msgs| == 0 && nextBegin > 0 {
        UpdateConsumeOffset(nextBegin);
      }
      var ok := ProducePullMsgTask();
    }

    /** The checks before the request is sent: a queue that an orderly listener needs locked and is not, a
        full cache or a missing subscription put the pull off. */
    method PrepareHeader(locked: bool, subscribed: bool) returns (header: Option<PullHeader>)
      modifies this`pullTimers, store`offsetTable
      ensures header.Some? <==> !request.dropped && locked && |request.msgTreeMap| <= maxMsgCacheSize && subscribed
      ensures pullTimers == old(pullTimers) + (if header.None? && !request.dropped && pulling then 1 else 0)
      ensures store.offsetTable == old(store.offsetTable)
      ensures header.Some? ==>
        && header.value.queueOffset == request.nextOffset && header.value.maxMsgNums == 32
        && header.value.commitOffset ==
             (if messageQueue in store.offsetTable then store.offsetTable[messageQueue] else -1)
        && (header.value.commitEnabled <==> header.value.commitOffset > 0)
    {
      header := None;
      if request.dropped {
        return;
      }
      var ok: bool;
      if !locked {
        ok := ProducePullMsgTaskLater();
        return;
      }
      if |request.msgTreeMap| > maxMsgCacheSize {
        ok := ProducePullMsgTaskLater();
        return;
      }
      var commitOffsetValue := store.ReadOffset(messageQueue, OffsetStore.ReadFromMemory, OffsetStore.Unreachable);
      if !subscribed {
        ok := ProducePullMsgTaskLater();
        return;
      }
      header := Some(PullHeader(request.nextOffset, PULL_BATCH, commitOffsetValue > 0, commitOffsetValue));
    }

    /** pullMessage, with the broker's answer given; sent is what the broker was asked. */
    method PullMessage(locked: bool, subscribed: bool, reply: Reply) returns (sent: Option<PullHeader>)
      modifies this`pullTasks, this`pullTimers, this`consumeTasks, request, store`offsetTable
      ensures var o := PullEffect(old(request.Value()), maxMsgCacheSize, locked && subscribed, reply);
        && request.Value() == o.view
        && store.offsetTable == Stored(old(store.offsetTable), messageQueue, o.store)
        && pullTasks == old(pullTasks) + (if o.again.Now? && pulling then 1 else 0)
        && pullTimers == old(pullTimers) + (if o.again.Later? && pulling then 1 else 0)
        && consumeTasks == old(consumeTasks) + (if o.submit.Some? && consuming then [o.submit.value] else [])
      ensures sent.Some? <==>
        old(!request.dropped && |request.msgTreeMap| <= maxMsgCacheSize) && locked && subscribed
      ensures sent.Some? ==>
        && sent.value.queueOffset == old(request.nextOffset) && sent.value.maxMsgNums == 32
        && sent.value.commitOffset ==
             old(if messageQueue in store.offsetTable then store.offsetTable[messageQueue] else -1)
        && (sent.value.commitEnabled <==> sent.value.commitOffset > 0)
      ensures sent.None? || reply.Failed? ==>
        && request.Value() == old(request.Value()) && store.offsetTable == old(store.offsetTable)
        && consumeTasks == old(consumeTasks) && pullTasks == old(pullTasks)
        && pullTimers == old(pullTimers) + (if !old(request.dropped) && pulling then 1 else 0)
      ensures sent.Some? && !reply.Failed? ==>
        && pullTasks == old(pullTasks) + (if pulling then 1 else 0) && pullTimers == old(pullTimers)
        && request.nextOffset == (if reply.OnlyNext? then reply.nextBegin else reply.result.nextBegin)
        && request.msgTreeMapTemp == old(request.msgTreeMapTemp) && request.dropped == old(request.dropped)
      ensures sent.Some? && reply.OnlyNext? ==>
        && request.msgTreeMap == old(request.msgTreeMap) && request.queueOffsetMax == old(request.queueOffsetMax)
        && store.offsetTable == old(store.offsetTable) && consumeTasks == old(consumeTasks)
      ensures sent.Some? && reply.Answer? && reply.result.Found? ==>
        && request.msgTreeMap == PutAll(old(request.msgTreeMap), reply.result.msgs)
        && store.offsetTable == old(store.offsetTable)
        && consumeTasks == old(consumeTasks) + (if consuming then [reply.result.msgs] else [])
      ensures sent.Some? && reply.Answer? && reply.result.NoMessages? ==>
        var next := reply.result.nextBegin;
        && request.msgTreeMap == old(request.msgTreeMap) && request.queueOffsetMax == old(request.queueOffsetMax)
        && consumeTasks == old(consumeTasks)
        && store.offsetTable == if old(request.msgTreeMap) == map[] && next > 0
             then old(store.offsetTable)[messageQueue := next] else old(store.offsetTable)
    {
      sent := PrepareHeader(locked, subscribed);
      if sent.None? {
        return;
      }
      var ok: bool;
      match reply
      case Failed =>
        ok := ProducePullMsgTaskLater();
      case OnlyNext(nextBegin) =>
        request.SetNextOffset(nextBegin);
        ok := ProducePullMsgTask();
      case Answer(Found(msgs, nextBegin)) =>
        ApplyFound(msgs, nextBegin);
      case Answer(NoMessages(nextBegin)) =>
        ApplyNone(nextBegin);
    }

    /** ConsumeRequest, with the listener's verdict and the send-back answers given. */
    method ConsumeRequest(msgs: seq<Message>, consumed: bool, back: seq<bool>)
      requires |back| == |msgs|
      modifies this`consumeTimers, request, store`offsetTable
      ensures var o := TaskEffect(old(request.Value()), msgs, consumed, back);
        && request.Value() == o.view
        && store.offsetTable == Stored(old(store.offsetTable), messageQueue, o.store)
        && consumeTimers == old(consumeTimers) + (if o.retry != [] && consuming then [o.retry] else [])
      ensures old(request.dropped) ==> request.msgTreeMap == map[] && request.msgTreeMapTemp == map[]
      ensures old(request.dropped) || msgs == [] ==>
        store.offsetTable == old(store.offsetTable) && consumeTimers == old(consumeTimers)
      ensures !old(request.dropped) ==>
        && request.msgTreeMap == old(request.msgTreeMap) - Offsets(AckedOf(msgs, consumed, back))
        && request.msgTreeMapTemp == old(request.msgTreeMapTemp) && !request.dropped
      ensures !old(request.dropped) && msgs != [] ==>
        var next := if request.msgTreeMap.Keys == {} then request.queueOffsetMax + 1 else Min(request.msgTreeMap.Keys);
        store.offsetTable == if old(request.msgTreeMap).Keys != {} && next >= 0
          then old(store.offsetTable)[messageQueue := next] else old(store.offsetTable)
      ensures request.nextOffset == old(request.nextOffset) && request.queueOffsetMax == old(request.queueOffsetMax)
    {
      if request.dropped {
        request.ClearAllMsgs();
        return;
      }
      if msgs == [] {
        return;
      }
      var offset, localRetryMsgs := SettleAndRemove(request, msgs, consumed, back);
      UpdateConsumeOffset(offset);
      SubmitConsumeRequestLater(localRetryMsgs);
    }
  }

  lemma ListingEmpty(m: map<int, Message>)
    ensures Listing(m) == [] <==> m.Keys == {}
  {
  }

  // ---- Uninterrupted runs of the protocol ----

  function Ended(s: State, i: nat, again: bool): State
    requires i < |s.pulls|
  {
    if again then SetPull(s, i, Scheduled) else EndPull(s, i)
  }

  /** The protocol state after a pull that nothing interrupted. */
  function AfterPull(s: State, i: nat, o: PullOutcome): State
    requires i < |s.pulls|
  {
    var posted := o.submit.Some? && s.consuming;
    Ended(s, i, !o.again.Never? && s.pulling).(
      pq := o.view,
      put := s.put + (if o.submit.Some? then Offsets(o.submit.value) else {}),
      written := s.written + (if o.store.Some? then [o.store.value] else []),
      tasks := if posted then s.tasks[s.nextId := Queued(o.submit.value)] else s.tasks,
      nextId := if posted then s.nextId + 1 else s.nextId)
  }

  lemma SetPullTwice(s: State, i: nat, p: Pull, q: Pull)
    requires i < |s.pulls|
    ensures SetPull(SetPull(s, i, p), i, q) == SetPull(s, i, q)
  {
    assert s.pulls[i := p][i := q] == s.pulls[i := q];
  }

  lemma EndPullTwice(s: State, i: nat, p: Pull)
    requires i < |s.pulls|
    ensures EndPull(SetPull(s, i, p), i) == EndPull(s, i)
  {
    assert s.pulls[i := p][..i] == s.pulls[..i] && s.pulls[i := p][i + 1..] == s.pulls[i + 1..];
  }

  /** A running pull ends by producing the next one, if it may. */
  lemma PullEnds(cfg: Config, s: State, t: State, i: nat)
    requires i < |t.pulls| && t.pulls[i].Rescheduling? && !t.pq.dropped && Reaches(cfg, s, t)
    ensures Reaches(cfg, s, Ended(t, i, t.pulling))
  {
    ReachStep(cfg, s, t, PullAgain(i));
    assert Produce(t, i) == Ended(t, i, t.pulling);
  }

  lemma EndedSame(s: State, i: nat, p: Pull, again: bool)
    requires i < |s.pulls|
    ensures Ended(SetPull(s, i, p), i, again) == Ended(s, i, again)
  {
    SetPullTwice(s, i, p, Scheduled);
    EndPullTwice(s, i, p);
  }

  lemma PullAnswered(cfg: Config, s: State, i: nat, result: PullResult)
    requires i < |s.pulls| && s.pulls[i].Scheduled? && !s.pq.dropped && |s.pq.cache| <= cfg.limit
    requires Contract(cfg, s.pq.nextOffset, result)
    ensures Reaches(cfg, s, ApplyResult(SetPull(s, i, Entered(result)), i, result))
  {
    ReachSelf(cfg, s);
    ReachStep(cfg, s, s, PullStart(i));
    var t := SetPull(s, i, InFlight);
    ReachStep(cfg, s, t, PullReply(i, result));
    var u := SetPull(s, i, Entered(result));
    assert t.pulls[i := Entered(result)] == u.pulls;
    ReachStep(cfg, s, u, PullApply(i));
  }

  /** The state once the messages are cached, and once they are submitted. */
  function PutState(s: State, i: nat, msgs: seq<Message>, next: int): State
    requires i < |s.pulls|
  {
    SetPull(s, i, Submitting(msgs)).(pq := Put(s.pq.(nextOffset := next), msgs), put := s.put + Offsets(msgs))
  }

  lemma PullPut(cfg: Config, s: State, i: nat, msgs: seq<Message>, next: int)
    requires i < |s.pulls| && s.pulls[i].Scheduled? && !s.pq.dropped && |s.pq.cache| <= cfg.limit
    requires Contract(cfg, s.pq.nextOffset, Found(msgs, next))
    ensures Reaches(cfg, s, PutState(s, i, msgs, next))
  {
    PullAnswered(cfg, s, i, Found(msgs, next));
    SetPullTwice(s, i, Entered(Found(msgs, next)), Submitting(msgs));
  }

  lemma PullFound(cfg: Config, s: State, i: nat, msgs: seq<Message>, next: int)
    requires i < |s.pulls| && s.pulls[i].Scheduled? && !s.pq.dropped && |s.pq.cache| <= cfg.limit
    requires Contract(cfg, s.pq.nextOffset, Found(msgs, next))
    ensures Reaches(cfg, s, AfterPull(s, i, FoundOutcome(s.pq, msgs, next)))
  {
    PullPut(cfg, s, i, msgs, next);
    var t := PutState(s, i, msgs, next);
    ReachStep(cfg, s, t, PullSubmit(i));
    PullEnds(cfg, s, Submit(t, i, msgs), i);
    FoundEnds(s, i, msgs, next);
  }

  lemma FoundEnds(s: State, i: nat, msgs: seq<Message>, next: int)
    requires i < |s.pulls| && !s.pq.dropped
    ensures Ended(Submit(PutState(s, i, msgs, next), i, msgs), i, s.pulling)
         == AfterPull(s, i, FoundOutcome(s.pq, msgs, next))
  {
    assert s.written + [] == s.written;
    EndedSame(s, i, Submitting(msgs), s.pulling);
    EndedSame(SetPull(s, i, Submitting(msgs)), i, Rescheduling, s.pulling);
  }

  function NoneState(s: State, i: nat, next: int, p: Pull): State
    requires i < |s.pulls|
  {
    SetPull(s, i, p).(pq := s.pq.(nextOffset := next))
  }

  lemma PullMoved(cfg: Config, s: State, i: nat, next: int)
    requires i < |s.pulls| && s.pulls[i].Scheduled? && !s.pq.dropped && |s.pq.cache| <= cfg.limit
    requires Contract(cfg, s.pq.nextOffset, NoMessages(next))
    ensures var stores := s.pq.cache.Keys == {} && next > 0;
      Reaches(cfg, s, NoneState(s, i, next, if stores then Publishing(next) else Rescheduling))
  {
    PullAnswered(cfg, s, i, NoMessages(next));
    SetPullTwice(s, i, Entered(NoMessages(next)), Publishing(next));
    SetPullTwice(s, i, Entered(NoMessages(next)), Rescheduling);
  }

  lemma NonePublished(cfg: Config, s: State, i: nat, next: int)
    requires i < |s.pulls| && !s.pq.dropped && Reaches(cfg, s, NoneState(s, i, next, Publishing(next)))
    ensures Reaches(cfg, s, Write(NoneState(s, i, next, Rescheduling), next))
  {
    ReachStep(cfg, s, NoneState(s, i, next, Publishing(next)), PullPublish(i));
    SetPullTwice(s, i, Publishing(next), Rescheduling);
  }

  function NoneEnd(s: State, i: nat, next: int): State
    requires i < |s.pulls|
  {
    var t := NoneState(s, i, next, Rescheduling);
    Ended(if s.pq.cache.Keys == {} && next > 0 then Write(t, next) else t, i, s.pulling)
  }

  lemma NoneEnds(s: State, i: nat, next: int)
    requires i < |s.pulls|
    ensures NoneEnd(s, i, next) == AfterPull(s, i, NoneOutcome(s.pq, next))
  {
    EndedSame(s, i, Rescheduling, s.pulling);
    assert s.put + {} == s.put && s.written + [] == s.written;
  }

  lemma PullNone(cfg: Config, s: State, i: nat, next: int)
    requires i < |s.pulls| && s.pulls[i].Scheduled? && !s.pq.dropped && |s.pq.cache| <= cfg.limit
    requires Contract(cfg, s.pq.nextOffset, NoMessages(next))
    ensures Reaches(cfg, s, NoneEnd(s, i, next))
  {
    PullMoved(cfg, s, i, next);
    var t := NoneState(s, i, next, Rescheduling);
    if s.pq.cache.Keys == {} && next > 0 {
      NonePublished(cfg, s, i, next);
      PullEnds(cfg, s, Write(t, next), i);
    } else {
      PullEnds(cfg, s, t, i);
    }
  }

  /** pullMessage with nothing beside it is one path of the protocol, with the same view, the same stored
      offset, the same batch posted and the same next pull. */
  lemma UninterruptedPull(cfg: Config, s: State, i: nat, reply: Reply)
    requires i < |s.pulls| && s.pulls[i].Scheduled?
    requires reply.Failed? || (reply.Answer? && Contract(cfg, s.pq.nextOffset, reply.result))
    ensures Reaches(cfg, s, AfterPull(s, i, PullEffect(s.pq, cfg.limit, true, reply)))
  {
    ReachSelf(cfg, s);
    var o := PullEffect(s.pq, cfg.limit, true, reply);
    if s.pq.dropped || |s.pq.cache| > cfg.limit {
      ReachStep(cfg, s, s, PullStart(i));
      assert s.pulls[i := Scheduled] == s.pulls;
      assert Apply(cfg, s, PullStart(i)) == AfterPull(s, i, o);
    } else if reply.Failed? {
      ReachStep(cfg, s, s, PullStart(i));
      var t := SetPull(s, i, InFlight);
      ReachStep(cfg, s, t, PullFail(i));
      EndedSame(s, i, InFlight, s.pulling);
      assert Produce(t, i) == AfterPull(s, i, o);
    } else if reply.result.Found? {
      PullFound(cfg, s, i, reply.result.msgs, reply.result.nextBegin);
    } else {
      PullNone(cfg, s, i, reply.result.nextBegin);
      NoneEnds(s, i, reply.result.nextBegin);
    }
  }

  /** The protocol state after a consume task that nothing interrupted. */
  function AfterTask(s: State, id: nat, msgs: seq<Message>, consumed: bool, back: seq<bool>): State
    requires |back| == |msgs|
  {
    var o := TaskEffect(s.pq, msgs, consumed, back);
    var later := o.retry != [] && s.consuming;
    s.(pq := o.view,
       done := s.done + (if s.pq.dropped || msgs == [] then {} else Accepted(msgs, consumed, back)),
       written := s.written + (if o.store.Some? then [o.store.value] else []),
       tasks := if later then s.tasks[id := Delayed(o.retry)] else s.tasks - {id})
  }

  lemma SetTaskTwice(s: State, id: nat, t: Task, u: Task)
    ensures SetTask(SetTask(s, id, t), id, u) == SetTask(s, id, u)
    ensures EndTask(SetTask(s, id, t), id) == EndTask(s, id)
  {
    assert s.tasks[id := t][id := u] == s.tasks[id := u];
    assert s.tasks[id := t] - {id} == s.tasks - {id};
  }

  lemma TaskStarted(cfg: Config, s: State, id: nat, msgs: seq<Message>)
    requires id in s.tasks && s.tasks[id] == Queued(msgs) && !s.pq.dropped && msgs != []
    ensures Reaches(cfg, s, SetTask(s, id, Consuming(msgs)))
  {
    ReachSelf(cfg, s);
    ReachStep(cfg, s, s, TaskStart(id));
  }

  lemma TaskSettled(cfg: Config, s: State, id: nat, msgs: seq<Message>, consumed: bool, back: seq<bool>)
    requires id in s.tasks && s.tasks[id] == Queued(msgs) && !s.pq.dropped && msgs != [] && |back| == |msgs|
    ensures Reaches(cfg, s, SettleTask(s, id, msgs, consumed, back))
  {
    TaskStarted(cfg, s, id, msgs);
    var t := SetTask(s, id, Consuming(msgs));
    ReachStep(cfg, s, t, TaskSettle(id, consumed, back));
    SetTaskTwice(s, id, Consuming(msgs), Settled(AckedOf(msgs, consumed, back), RetryOf(msgs, consumed, back)));
  }

  /** The state once removeMessage has run, with the given place for the task. */
  function RemovedState(s: State, id: nat, view: View, accepted: set<int>, t: Task): State {
    SetTask(s, id, t).(pq := view, done := s.done + accepted)
  }

  lemma TaskRemoved(cfg: Config, s: State, id: nat, msgs: seq<Message>, consumed: bool, back: seq<bool>)
    requires id in s.tasks && s.tasks[id] == Queued(msgs) && !s.pq.dropped && msgs != [] && |back| == |msgs|
    ensures var o := TaskEffect(s.pq, msgs, consumed, back);
      Reaches(cfg, s, RemovedState(s, id, o.view, Accepted(msgs, consumed, back),
                                   if o.store.Some? then Committing(o.store.value, o.retry) else Resubmitting(o.retry)))
  {
    TaskSettled(cfg, s, id, msgs, consumed, back);
    var acked, retry := AckedOf(msgs, consumed, back), RetryOf(msgs, consumed, back);
    var t := SettleTask(s, id, msgs, consumed, back);
    ReachStep(cfg, s, t, TaskRemove(id));
    var (left, offset) := Remove(s.pq, Offsets(acked));
    SetTaskTwice(s, id, Settled(acked, retry), if offset >= 0 then Committing(offset, retry) else Resubmitting(retry));
  }

  lemma TaskStored(cfg: Config, s: State, id: nat, view: View, accepted: set<int>, store: Option<int>,
                   retry: seq<Message>)
    requires Reaches(cfg, s, RemovedState(s, id, view, accepted,
                                          if store.Some? then Committing(store.value, retry) else Resubmitting(retry)))
    ensures Reaches(cfg, s, RemovedState(s, id, view, accepted, Resubmitting(retry))
                              .(written := s.written + (if store.Some? then [store.value] else [])))
  {
    if store.Some? {
      ReachStep(cfg, s, RemovedState(s, id, view, accepted, Committing(store.value, retry)), TaskCommit(id));
      SetTaskTwice(s, id, Committing(store.value, retry), Resubmitting(retry));
    } else {
      assert s.written + [] == s.written;
    }
  }

  lemma TaskResubmitted(cfg: Config, s: State, t: State, id: nat, retry: seq<Message>)
    requires id in t.tasks && t.tasks[id] == Resubmitting(retry) && !t.pq.dropped && Reaches(cfg, s, t)
    ensures Reaches(cfg, s, if retry != [] && t.consuming then SetTask(t, id, Delayed(retry)) else EndTask(t, id))
  {
    ReachStep(cfg, s, t, TaskResubmit(id));
  }

  /** ConsumeRequest with nothing beside it is one path of the protocol, with the same view, the same stored
      offset and the same batch left to the timer. */
  lemma UninterruptedTask(cfg: Config, s: State, id: nat, msgs: seq<Message>, consumed: bool, back: seq<bool>)
    requires id in s.tasks && s.tasks[id] == Queued(msgs) && |back| == |msgs|
    ensures Reaches(cfg, s, AfterTask(s, id, msgs, consumed, back))
  {
    if s.pq.dropped || msgs == [] {
      ReachSelf(cfg, s);
      ReachStep(cfg, s, s, TaskStart(id));
    } else {
      var o := TaskEffect(s.pq, msgs, consumed, back);
      TaskRemoved(cfg, s, id, msgs, consumed, back);
      TaskStored(cfg, s, id, o.view, Accepted(msgs, consumed, back), o.store, o.retry);
      var t := RemovedState(s, id, o.view, Accepted(msgs, consumed, back), Resubmitting(o.retry))
        .(written := s.written + (if o.store.Some? then [o.store.value] else []));
      TaskResubmitted(cfg, s, t, id, o.retry);
      SetTaskTwice(s, id, Resubmitting(o.retry), Delayed(o.retry));
    }
  }
}
