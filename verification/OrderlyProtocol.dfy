/** One PullRequest of an orderly consumer: consume tasks compete for the consume lock, and the holder takes,
    delivers, puts back or commits one message at a time while the pull, drops and clears go on beside it. */
module OrderlyProtocol {
  import opened ProcessQueue
  import P = QueueProtocol

  /** Where the task that holds the consume lock stands. */
  datatype Holder =
    | Free                    // nobody holds the lock
    | Looping                 // about to take a message
    | Took(m: Message)        // message taken, listener running
    | Failed(m: Message)      // listener asked for a retry, message not yet put back
    | Consumed(m: Message)    // listener succeeded, offset not yet committed
    | Leaving                 // done with the queue, lock not yet released

  /** Where the pull stands; there is one at a time. */
  datatype Pull =
    | Ready                          // between two pulls, or waiting for the broker
    | Entered(result: P.PullResult)  // drop check passed, result not yet applied
    | Posting                        // messages put, consume task not yet posted
    | Publishing(offset: int)        // cache seen empty, offset not yet stored

  datatype Delivery = Delivery(offset: int, success: bool)

  /** waiting: tasks queued, blocked on the lock or on a timer. log: offsets consumed successfully, in
      order. deliveries: every call of the listener. committed: values stored from commit().
      published: values stored by pulls that saw the cache empty. */
  datatype State = State(
    pq: View,
    holder: Holder,
    waiting: nat,
    running: bool,
    pull: Pull,
    put: set<int>,
    log: seq<int>,
    deliveries: seq<Delivery>,
    committed: seq<int>,
    published: seq<int>)

  datatype Action =
    | PullReply(result: P.PullResult) | PullApply | PullPost | PullPublish
    | Acquire(locked: bool) | GiveUp | Rest | TakeOne | Deliver(success: bool) | PutBackOne | CommitOne | Leave
    | SetDropped | ClearAll | Shutdown

  function Init(start: int): State {
    State(EmptyView().(nextOffset := start), Free, 0, true, Ready, {}, [], [], [], [])
  }

  ghost predicate Enabled(cfg: P.Config, s: State, a: Action) {
    match a
    case PullReply(result) => s.pull.Ready? && !s.pq.dropped && P.Contract(cfg, s.pq.nextOffset, result)
    case PullApply => s.pull.Entered?
    case PullPost => s.pull.Posting?
    case PullPublish => s.pull.Publishing?
    case Acquire(_) => s.waiting > 0 && s.holder.Free?
    case GiveUp => s.waiting > 0 && !s.holder.Free?
    case Rest => s.holder.Looping?
    case TakeOne => s.holder.Looping?
    case Deliver(_) => s.holder.Took?
    case PutBackOne => s.holder.Failed?
    case CommitOne => s.holder.Consumed?
    case Leave => s.holder.Leaving?
    case SetDropped => true
    case ClearAll => s.pq.dropped
    case Shutdown => true
  }

  function ApplyResult(s: State, result: P.PullResult): State {
    var moved := s.pq.(nextOffset := result.nextBegin);
    match result
    case Found(msgs, _) => s.(pq := Put(moved, msgs), put := s.put + Offsets(msgs), pull := Posting)
    case NoMessages(nextBegin) =>
      s.(pq := moved, pull := if s.pq.cache.Keys == {} && nextBegin > 0 then Publishing(nextBegin) else Ready)
  }

  /** The lock is taken. A dropped request is cleared; an unlocked queue is retried later. */
  function AcquireStep(s: State, locked: bool): State
    requires s.waiting > 0
  {
    if s.pq.dropped then s.(waiting := s.waiting - 1, pq := Clear(s.pq), holder := Leaving)
    else if !locked then s.(holder := Leaving)
    else s.(waiting := s.waiting - 1, holder := Looping)
  }

  function TakeStep(s: State): State {
    var (pq, msgs) := Take(s.pq, 1);
    s.(pq := pq, holder := if msgs == [] then Leaving else Took(msgs[0]))
  }

  function DeliverStep(s: State, m: Message, success: bool): State {
    var next := s.(deliveries := s.deliveries + [Delivery(m.queueOffset, success)]);
    if success then next.(holder := Consumed(m), log := s.log + [m.queueOffset]) else next.(holder := Failed(m))
  }

  /** makeMessageToCosumeAgain, and a new task on the timer. */
  function PutBackStep(s: State, m: Message): State {
    s.(pq := PutBack(s.pq, [m.(reconsumeTimes := m.reconsumeTimes + 1)]), holder := Leaving, waiting := s.waiting + 1)
  }

  function CommitStep(s: State): State {
    var (pq, offset) := Commit(s.pq);
    var next := s.(pq := pq, holder := if s.running then Looping else Leaving);
    if offset >= 0 then next.(committed := s.committed + [offset]) else next
  }

  ghost function Apply(cfg: P.Config, s: State, a: Action): State
    requires Enabled(cfg, s, a)
  {
    match a
    case PullReply(result) => s.(pull := Entered(result))
    case PullApply => ApplyResult(s, s.pull.result)
    case PullPost => s.(pull := Ready, waiting := s.waiting + 1)
    case PullPublish => s.(pull := Ready, published := s.published + [s.pull.offset])
    case Acquire(locked) => AcquireStep(s, locked)
    case GiveUp => s.(waiting := s.waiting - 1)
    case Rest => s.(holder := Leaving, waiting := s.waiting + 1)
    case TakeOne => TakeStep(s)
    case Deliver(success) => DeliverStep(s, s.holder.m, success)
    case PutBackOne => PutBackStep(s, s.holder.m)
    case CommitOne => CommitStep(s)
    case Leave => s.(holder := Free)
    case SetDropped => s.(pq := s.pq.(dropped := true))
    case ClearAll => s.(pq := Clear(s.pq))
    case Shutdown => s.(running := false)
  }

  /** States linked by steps. */
  ghost predicate Path(cfg: P.Config, states: seq<State>, acts: seq<Action>) {
    && |states| == |acts| + 1
    && (forall k :: 0 <= k < |acts| ==>
          Enabled(cfg, states[k], acts[k]) && states[k + 1] == Apply(cfg, states[k], acts[k]))
  }

  ghost predicate IsRun(cfg: P.Config, start: int, states: seq<State>, acts: seq<Action>) {
    Path(cfg, states, acts) && states[0] == Init(start)
  }
}
