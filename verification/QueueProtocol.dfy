/** One PullRequest under concurrency: the pull loop, any number of consume tasks and the rebalancer
    interleave step by step. Each step is one access to shared state in the source: a drop check, one
    locked PullRequest method, one offset-table write or one post to a thread pool. */
module QueueProtocol {
  import opened ProcessQueue
  import opened ConsumeService

  /** NO_NEW_MSG and NO_MATCHED_MSG are handled alike, so they are one case. */
  datatype PullResult =
    | Found(msgs: seq<Message>, nextBegin: int)
    | NoMessages(nextBegin: int)

  /** Where one run of pullMessage stands. */
  datatype Pull =
    | Scheduled                      // in the pull task queue, or on its timer
    | InFlight                       // request sent with getNextOffset()
    | Entered(result: PullResult)    // drop check passed, result not yet applied
    | Submitting(msgs: seq<Message>) // messages put, consume task not yet posted
    | Publishing(offset: int)        // cache seen empty, offset not yet stored
    | Rescheduling                   // about to call producePullMsgTask

  /** Where one consume task stands. */
  datatype Task =
    | Queued(msgs: seq<Message>)                          // posted to the thread pool
    | Consuming(msgs: seq<Message>)                       // drop check passed, listener running
    | Settled(acked: seq<Message>, retry: seq<Message>)   // about to call removeMessage
    | Committing(offset: int, retry: seq<Message>)        // removeMessage returned offset >= 0, not yet stored
    | Resubmitting(retry: seq<Message>)                   // about to call submitConsumeRequestLater
    | Delayed(msgs: seq<Message>)                         // on the one-second timer

  /** put: offsets ever cached. done: offsets consumed successfully or taken back by the broker.
      written: every value stored in the offset table by this PullRequest, in order. */
  datatype State = State(
    pq: View,
    pulls: seq<Pull>,
    tasks: map<nat, Task>,
    nextId: nat,
    pulling: bool,
    consuming: bool,
    put: set<int>,
    done: set<int>,
    written: seq<int>)

  /** stream: the offsets of all messages the broker will ever serve to this group from the queue.
      limit: m_maxMsgCacheSize. */
  datatype Config = Config(stream: iset<int>, limit: nat)

  const PULL_BATCH: nat := 32

  datatype Action =
    | PullStart(i: nat) | PullReply(i: nat, result: PullResult) | PullFail(i: nat)
    | PullApply(i: nat) | PullSubmit(i: nat) | PullPublish(i: nat) | PullAgain(i: nat)
    | TaskStart(id: nat) | TaskSettle(id: nat, consumed: bool, back: seq<bool>) | TaskRemove(id: nat)
    | TaskCommit(id: nat) | TaskResubmit(id: nat) | TaskFire(id: nat)
    | SetDropped | ClearAll | StopPulling | StopConsuming

  /** The broker's pull contract: a pull from offset n answers with at most 32 distinct offsets of
      [n, nextBegin), never moves backwards, and leaves out no message of that range. */
  ghost predicate Contract(cfg: Config, n: int, result: PullResult) {
    && n <= result.nextBegin
    && match result
       case Found(msgs, nextBegin) =>
         && |msgs| <= PULL_BATCH
         && DistinctOffsets(msgs)
         && (forall o :: o in Offsets(msgs) ==> n <= o < nextBegin)
         && (forall o :: o in cfg.stream && n <= o < nextBegin ==> o in Offsets(msgs))
       case NoMessages(nextBegin) =>
         forall o :: o in cfg.stream && n <= o < nextBegin ==> false
  }

  function Init(start: int): State {
    State(EmptyView().(nextOffset := start), [Scheduled], map[], 0, true, true, {}, {}, [])
  }

  ghost predicate Enabled(cfg: Config, s: State, a: Action) {
    match a
    case PullStart(i) => i < |s.pulls| && s.pulls[i].Scheduled?
    case PullReply(i, result) => i < |s.pulls| && s.pulls[i].InFlight? && Contract(cfg, s.pq.nextOffset, result)
    case PullFail(i) => i < |s.pulls| && s.pulls[i].InFlight?
    case PullApply(i) => i < |s.pulls| && s.pulls[i].Entered?
    case PullSubmit(i) => i < |s.pulls| && s.pulls[i].Submitting?
    case PullPublish(i) => i < |s.pulls| && s.pulls[i].Publishing?
    case PullAgain(i) => i < |s.pulls| && s.pulls[i].Rescheduling?
    case TaskStart(id) => id in s.tasks && s.tasks[id].Queued?
    case TaskSettle(id, consumed, back) => id in s.tasks && s.tasks[id].Consuming? && |back| == |s.tasks[id].msgs|
    case TaskRemove(id) => id in s.tasks && s.tasks[id].Settled?
    case TaskCommit(id) => id in s.tasks && s.tasks[id].Committing?
    case TaskResubmit(id) => id in s.tasks && s.tasks[id].Resubmitting?
    case TaskFire(id) => id in s.tasks && s.tasks[id].Delayed?
    case SetDropped => true
    case ClearAll => s.pq.dropped
    case StopPulling => true
    case StopConsuming => true
  }

  function SetPull(s: State, i: nat, p: Pull): State
    requires i < |s.pulls|
  {
    s.(pulls := s.pulls[i := p])
  }

  function EndPull(s: State, i: nat): State
    requires i < |s.pulls|
  {
    s.(pulls := s.pulls[..i] + s.pulls[i + 1..])
  }

  /** producePullMsgTask and producePullMsgTaskLater: refused once dropped or shut down. */
  function Produce(s: State, i: nat): State
    requires i < |s.pulls|
  {
    if !s.pq.dropped && s.pulling then SetPull(s, i, Scheduled) else EndPull(s, i)
  }

  function SetTask(s: State, id: nat, t: Task): State {
    s.(tasks := s.tasks[id := t])
  }

  function EndTask(s: State, id: nat): State {
    s.(tasks := s.tasks - {id})
  }

  function Write(s: State, offset: int): State {
    s.(written := s.written + [offset])
  }

  function ApplyResult(s: State, i: nat, result: PullResult): State
    requires i < |s.pulls|
  {
    var moved := s.pq.(nextOffset := result.nextBegin);
    match result
    case Found(msgs, _) =>
      SetPull(s, i, Submitting(msgs)).(pq := Put(moved, msgs), put := s.put + Offsets(msgs))
    case NoMessages(nextBegin) =>
      var pull := if s.pq.cache.Keys == {} && nextBegin > 0 then Publishing(nextBegin) else Rescheduling;
      SetPull(s, i, pull).(pq := moved)
  }

  /** submitConsumeRequest after a put. */
  function Submit(s: State, i: nat, msgs: seq<Message>): State
    requires i < |s.pulls|
  {
    var next := SetPull(s, i, Rescheduling);
    if !s.pq.dropped && s.consuming then SetTask(next, s.nextId, Queued(msgs)).(nextId := s.nextId + 1) else next
  }

  function StartTask(s: State, id: nat, msgs: seq<Message>): State {
    if s.pq.dropped then EndTask(s, id).(pq := Clear(s.pq))
    else if msgs == [] then EndTask(s, id)
    else SetTask(s, id, Consuming(msgs))
  }

  function SettleTask(s: State, id: nat, msgs: seq<Message>, consumed: bool, back: seq<bool>): State
    requires |back| == |msgs|
  {
    SetTask(s, id, Settled(AckedOf(msgs, consumed, back), RetryOf(msgs, consumed, back)))
      .(done := s.done + Accepted(msgs, consumed, back))
  }

  function RemoveTask(s: State, id: nat, acked: seq<Message>, retry: seq<Message>): State {
    var (pq, offset) := Remove(s.pq, Offsets(acked));
    SetTask(s, id, if offset >= 0 then Committing(offset, retry) else Resubmitting(retry)).(pq := pq)
  }

  function ResubmitTask(s: State, id: nat, retry: seq<Message>): State {
    if retry == [] || s.pq.dropped || !s.consuming then EndTask(s, id) else SetTask(s, id, Delayed(retry))
  }

  function FireTask(s: State, id: nat, msgs: seq<Message>): State {
    if s.pq.dropped || !s.consuming then EndTask(s, id) else SetTask(s, id, Queued(msgs))
  }

  ghost function Apply(cfg: Config, s: State, a: Action): State
    requires Enabled(cfg, s, a)
  {
    match a
    case PullStart(i) =>
      if s.pq.dropped then EndPull(s, i)
      else if |s.pq.cache| > cfg.limit then Produce(s, i)
      else SetPull(s, i, InFlight)
    case PullReply(i, result) => if s.pq.dropped then EndPull(s, i) else SetPull(s, i, Entered(result))
    case PullFail(i) => Produce(s, i)
    case PullApply(i) => ApplyResult(s, i, s.pulls[i].result)
    case PullSubmit(i) => Submit(s, i, s.pulls[i].msgs)
    case PullPublish(i) => Write(SetPull(s, i, Rescheduling), s.pulls[i].offset)
    case PullAgain(i) => Produce(s, i)
    case TaskStart(id) => StartTask(s, id, s.tasks[id].msgs)
    case TaskSettle(id, consumed, back) => SettleTask(s, id, s.tasks[id].msgs, consumed, back)
    case TaskRemove(id) => RemoveTask(s, id, s.tasks[id].acked, s.tasks[id].retry)
    case TaskCommit(id) => Write(SetTask(s, id, Resubmitting(s.tasks[id].retry)), s.tasks[id].offset)
    case TaskResubmit(id) => ResubmitTask(s, id, s.tasks[id].retry)
    case TaskFire(id) => FireTask(s, id, s.tasks[id].msgs)
    case SetDropped => s.(pq := s.pq.(dropped := true))
    case ClearAll => s.(pq := Clear(s.pq))
    case StopPulling => s.(pulling := false)
    case StopConsuming => s.(consuming := false)
  }

  /** The state after acts, an action that is not enabled leaving the state alone. */
  ghost function Run(cfg: Config, s: State, acts: seq<Action>): State {
    if acts == [] then s else
      var t, a := Run(cfg, s, acts[..|acts| - 1]), acts[|acts| - 1];
      if Enabled(cfg, t, a) then Apply(cfg, t, a) else t
  }

  /** acts can be taken one after another from s. */
  ghost predicate CanRun(cfg: Config, s: State, acts: seq<Action>) {
    forall k :: 0 <= k < |acts| ==> Enabled(cfg, Run(cfg, s, acts[..k]), acts[k])
  }

  lemma CanRunSnoc(cfg: Config, s: State, acts: seq<Action>)
    requires CanRun(cfg, s, acts) && acts != []
    ensures var n := |acts| - 1;
      && CanRun(cfg, s, acts[..n])
      && Enabled(cfg, Run(cfg, s, acts[..n]), acts[n])
      && Run(cfg, s, acts) == Apply(cfg, Run(cfg, s, acts[..n]), acts[n])
  {
    var n := |acts| - 1;
    forall k | 0 <= k < n ensures Enabled(cfg, Run(cfg, s, acts[..n][..k]), acts[..n][k]) {
      assert acts[..n][..k] == acts[..k];
    }
  }

  lemma CanRunExtend(cfg: Config, s: State, acts: seq<Action>, a: Action)
    requires CanRun(cfg, s, acts) && Enabled(cfg, Run(cfg, s, acts), a)
    ensures CanRun(cfg, s, acts + [a])
    ensures Run(cfg, s, acts + [a]) == Apply(cfg, Run(cfg, s, acts), a)
  {
    var longer := acts + [a];
    assert longer[..|acts|] == acts;
    forall k | 0 <= k < |longer| ensures Enabled(cfg, Run(cfg, s, longer[..k]), longer[k]) {
      if k < |acts| {
        assert longer[..k] == acts[..k];
      }
    }
  }

  lemma JoinLast<T>(a: seq<T>, b: seq<T>)
    requires b != []
    ensures a + b == (a + b[..|b| - 1]) + [b[|b| - 1]]
  {
  }

  lemma {:induction false} RunConcat(cfg: Config, s: State, a: seq<Action>, b: seq<Action>)
    requires CanRun(cfg, s, a) && CanRun(cfg, Run(cfg, s, a), b)
    ensures CanRun(cfg, s, a + b) && Run(cfg, s, a + b) == Run(cfg, Run(cfg, s, a), b)
  {
    if b == [] {
      assert a + b == a;
    } else {
      var n := |b| - 1;
      CanRunSnoc(cfg, Run(cfg, s, a), b);
      RunConcat(cfg, s, a, b[..n]);
      CanRunExtend(cfg, s, a + b[..n], b[n]);
      JoinLast(a, b);
    }
  }

  /** t can be reached from s. */
  ghost predicate Reaches(cfg: Config, s: State, t: State) {
    exists acts :: CanRun(cfg, s, acts) && Run(cfg, s, acts) == t
  }

  lemma ReachSelf(cfg: Config, s: State)
    ensures Reaches(cfg, s, s)
  {
    assert CanRun(cfg, s, []) && Run(cfg, s, []) == s;
  }

  lemma ReachStep(cfg: Config, s: State, t: State, a: Action)
    requires Reaches(cfg, s, t) && Enabled(cfg, t, a)
    ensures Reaches(cfg, s, Apply(cfg, t, a))
  {
    var acts :| CanRun(cfg, s, acts) && Run(cfg, s, acts) == t;
    CanRunExtend(cfg, s, acts, a);
  }
}
