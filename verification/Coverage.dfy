/** Nothing is stranded, and the cache is bounded: who holds each cached message while a PullRequest is
    live, and how many there can be. */
module Coverage {
  import opened OrderedMap
  import opened ProcessQueue
  import opened ConsumeService
  import opened QueueProtocol
  import opened CommitSafety

  /** The offsets a task still has to finish. */
  function Held(t: Task): set<int> {
    match t
    case Queued(msgs) => Offsets(msgs)
    case Consuming(msgs) => Offsets(msgs)
    case Settled(acked, retry) => Offsets(acked) + Offsets(retry)
    case Committing(_, retry) => Offsets(retry)
    case Resubmitting(retry) => Offsets(retry)
    case Delayed(msgs) => Offsets(msgs)
  }

  function HeldByTasks(tasks: map<nat, Task>): set<int> {
    set id, o | id in tasks && o in Held(tasks[id]) :: o
  }

  /** Messages already put whose consume task is about to be posted. */
  function HeldByPull(s: State): set<int> {
    if s.pulls != [] && s.pulls[0].Submitting? then Offsets(s.pulls[0].msgs) else {}
  }

  predicate Live(s: State) {
    !s.pq.dropped && s.consuming
  }

  /** No message has two holders, and task ids are below next. */
  ghost predicate Apart(tasks: map<nat, Task>, next: nat, pulled: set<int>) {
    && (forall id :: id in tasks ==> id < next && Held(tasks[id]) !! pulled)
    && (forall i, j :: i in tasks && j in tasks && i != j ==> Held(tasks[i]) !! Held(tasks[j]))
  }

  ghost predicate Splits(tasks: map<nat, Task>) {
    forall i :: i in tasks && tasks[i].Settled? ==> Offsets(tasks[i].acked) !! Offsets(tasks[i].retry)
  }

  /** Every cached message is held, and only cached messages are. */
  ghost predicate Covers(tasks: map<nat, Task>, pulled: set<int>, cached: set<int>) {
    cached == HeldByTasks(tasks) + pulled
  }

  ghost predicate CoverInv(s: State) {
    Live(s) ==>
      && Apart(s.tasks, s.nextId, HeldByPull(s))
      && Splits(s.tasks)
      && Covers(s.tasks, HeldByPull(s), s.pq.cache.Keys)
  }

  lemma HeldUpdate(tasks: map<nat, Task>, id: nat, t: Task)
    ensures HeldByTasks(tasks[id := t]) == HeldByTasks(tasks - {id}) + Held(t)
  {
    var next, rest := tasks[id := t], tasks - {id};
    forall o ensures o in HeldByTasks(next) <==> o in HeldByTasks(rest) + Held(t) {
      if i :| i in next && o in Held(next[i]) {
        assert i != id ==> i in rest && rest[i] == next[i];
      }
      if i :| i in rest && o in Held(rest[i]) {
        assert i in next && next[i] == rest[i];
      }
      if o in Held(t) {
        assert id in next && o in Held(next[id]);
      }
    }
  }

  lemma HeldSplit(tasks: map<nat, Task>, id: nat)
    requires id in tasks
    ensures HeldByTasks(tasks) == HeldByTasks(tasks - {id}) + Held(tasks[id])
  {
    assert tasks[id := tasks[id]] == tasks;
    HeldUpdate(tasks, id, tasks[id]);
  }

  lemma RestApart(tasks: map<nat, Task>, next: nat, pulled: set<int>, id: nat)
    requires Apart(tasks, next, pulled) && id in tasks
    ensures HeldByTasks(tasks - {id}) !! Held(tasks[id])
  {
    forall o | o in HeldByTasks(tasks - {id}) ensures o !in Held(tasks[id]) {
      var i :| i in tasks - {id} && o in Held((tasks - {id})[i]);
      assert Held(tasks[i]) !! Held(tasks[id]);
    }
  }

  lemma HeldCached(tasks: map<nat, Task>, pulled: set<int>, cached: set<int>)
    requires Covers(tasks, pulled, cached)
    ensures forall id :: id in tasks ==> Held(tasks[id]) <= cached
  {
    forall id | id in tasks ensures Held(tasks[id]) <= cached {
      HeldSplit(tasks, id);
    }
  }

  /** A task that lets go of exactly what leaves the cache keeps the cover. */
  lemma Release(tasks: map<nat, Task>, next: nat, pulled: set<int>, cached: set<int>, id: nat, t: Task, gone: set<int>)
    requires Apart(tasks, next, pulled) && Covers(tasks, pulled, cached) && id in tasks
    requires gone <= Held(tasks[id]) && Held(t) == Held(tasks[id]) - gone
    ensures Apart(tasks[id := t], next, pulled) && Covers(tasks[id := t], pulled, cached - gone)
  {
    HeldUpdate(tasks, id, t);
    HeldSplit(tasks, id);
    RestApart(tasks, next, pulled, id);
    assert Held(tasks[id]) !! pulled;
  }

  lemma EndEmpty(tasks: map<nat, Task>, next: nat, pulled: set<int>, cached: set<int>, id: nat)
    requires Apart(tasks, next, pulled) && Covers(tasks, pulled, cached) && id in tasks
    requires Held(tasks[id]) == {}
    ensures Apart(tasks - {id}, next, pulled) && Covers(tasks - {id}, pulled, cached)
  {
    HeldSplit(tasks, id);
  }

  /** A pull hands the messages it has put to a new task. */
  lemma HandOver(tasks: map<nat, Task>, next: nat, pulled: set<int>, cached: set<int>, t: Task)
    requires Apart(tasks, next, pulled) && Covers(tasks, pulled, cached) && Held(t) == pulled
    ensures Apart(tasks[next := t], next + 1, {}) && Covers(tasks[next := t], {}, cached)
  {
    HeldUpdate(tasks, next, t);
    assert tasks - {next} == tasks;
  }

  lemma ApplyKeepsCover(cfg: Config, start: int, s: State, i: nat)
    requires Ranges(cfg, start, s) && OnePull(cfg, s) && CoverInv(s) && Enabled(cfg, s, PullApply(i))
    ensures CoverInv(Apply(cfg, s, PullApply(i)))
  {
    var t := Apply(cfg, s, PullApply(i));
    if Live(t) {
      assert HeldByPull(s) == {};
      HeldCached(s.tasks, {}, s.pq.cache.Keys);
      if s.pulls[0].result.Found? {
        assert HeldByPull(t) == Offsets(s.pulls[0].result.msgs);
        assert HeldByPull(t) !! s.pq.cache.Keys;
      }
    }
  }

  lemma SubmitKeepsCover(cfg: Config, s: State, i: nat)
    requires OnePull(cfg, s) && CoverInv(s) && Enabled(cfg, s, PullSubmit(i))
    ensures CoverInv(Apply(cfg, s, PullSubmit(i)))
  {
    if Live(s) {
      HandOver(s.tasks, s.nextId, HeldByPull(s), s.pq.cache.Keys, Queued(s.pulls[0].msgs));
    }
  }

  lemma RemoveFrame(cfg: Config, s: State, id: nat)
    requires Enabled(cfg, s, TaskRemove(id))
    ensures var t := Apply(cfg, s, TaskRemove(id));
      && t.pulls == s.pulls && t.nextId == s.nextId && id in t.tasks && t.tasks == s.tasks[id := t.tasks[id]]
      && Held(t.tasks[id]) == Offsets(s.tasks[id].retry) && !t.tasks[id].Settled?
      && t.pq.cache.Keys == s.pq.cache.Keys - Offsets(s.tasks[id].acked)
      && Live(t) == Live(s)
  {
  }

  lemma RemoveKeepsCover(cfg: Config, s: State, id: nat)
    requires CoverInv(s) && Enabled(cfg, s, TaskRemove(id))
    ensures CoverInv(Apply(cfg, s, TaskRemove(id)))
  {
    RemoveFrame(cfg, s, id);
    if Live(s) {
      var t := Apply(cfg, s, TaskRemove(id));
      Release(s.tasks, s.nextId, HeldByPull(s), s.pq.cache.Keys, id, t.tasks[id], Offsets(s.tasks[id].acked));
    }
  }

  lemma SettleKeepsCover(cfg: Config, s: State, a: Action)
    requires CoverInv(s) && Enabled(cfg, s, a) && a.TaskSettle?
    ensures CoverInv(Apply(cfg, s, a))
  {
    if Live(s) {
      var t := Apply(cfg, s, a);
      SettleSplits(s.tasks[a.id].msgs, a.consumed, a.back);
      Release(s.tasks, s.nextId, HeldByPull(s), s.pq.cache.Keys, a.id, t.tasks[a.id], {});
    }
  }

  /** Steps that pass a task's messages on unchanged, or end a task that holds none. */
  predicate PassesOn(a: Action) {
    a.TaskStart? || a.TaskCommit? || a.TaskResubmit? || a.TaskFire?
  }

  lemma PassOnFrame(cfg: Config, s: State, a: Action)
    requires Enabled(cfg, s, a) && PassesOn(a) && Live(s)
    ensures var t := Apply(cfg, s, a);
      && t.pulls == s.pulls && t.nextId == s.nextId && t.pq == s.pq && a.id in s.tasks
      && (a.id in t.tasks ==> t.tasks == s.tasks[a.id := t.tasks[a.id]] && Held(t.tasks[a.id]) == Held(s.tasks[a.id])
                              && !t.tasks[a.id].Settled?)
      && (a.id !in t.tasks ==> t.tasks == s.tasks - {a.id} && Held(s.tasks[a.id]) == {})
  {
  }

  lemma PassOnKeepsCover(cfg: Config, s: State, a: Action)
    requires CoverInv(s) && Enabled(cfg, s, a) && PassesOn(a)
    ensures CoverInv(Apply(cfg, s, a))
  {
    if Live(s) {
      PassOnFrame(cfg, s, a);
      var t := Apply(cfg, s, a);
      if a.id in t.tasks {
        Release(s.tasks, s.nextId, HeldByPull(s), s.pq.cache.Keys, a.id, t.tasks[a.id], {});
      } else {
        EndEmpty(s.tasks, s.nextId, HeldByPull(s), s.pq.cache.Keys, a.id);
      }
    } else {
      StepFrame(cfg, s, a);
    }
  }

  predicate OnlyPulls(a: Action) {
    IsPullAction(a) && !a.PullApply? && !a.PullSubmit?
  }

  lemma OnlyPullsFrame(cfg: Config, s: State, a: Action)
    requires OnePull(cfg, s) && Enabled(cfg, s, a) && OnlyPulls(a)
    ensures var t := Apply(cfg, s, a);
      && t.tasks == s.tasks && t.nextId == s.nextId && t.pq == s.pq && t.consuming == s.consuming
      && HeldByPull(t) == HeldByPull(s)
  {
  }

  lemma PullKeepsCover(cfg: Config, s: State, a: Action)
    requires OnePull(cfg, s) && CoverInv(s) && Enabled(cfg, s, a) && OnlyPulls(a)
    ensures CoverInv(Apply(cfg, s, a))
  {
    OnlyPullsFrame(cfg, s, a);
  }

  lemma SwitchKeepsCover(cfg: Config, s: State, a: Action)
    requires CoverInv(s) && Enabled(cfg, s, a)
    requires a.SetDropped? || a.ClearAll? || a.StopPulling? || a.StopConsuming?
    ensures CoverInv(Apply(cfg, s, a))
  {
  }

  lemma CoverStep(cfg: Config, start: int, s: State, a: Action)
    requires Ranges(cfg, start, s) && OnePull(cfg, s) && CoverInv(s) && Enabled(cfg, s, a)
    ensures CoverInv(Apply(cfg, s, a))
  {
    if a.PullApply? {
      ApplyKeepsCover(cfg, start, s, a.i);
    } else if a.PullSubmit? {
      SubmitKeepsCover(cfg, s, a.i);
    } else if a.TaskRemove? {
      RemoveKeepsCover(cfg, s, a.id);
    } else if a.TaskSettle? {
      SettleKeepsCover(cfg, s, a);
    } else if PassesOn(a) {
      PassOnKeepsCover(cfg, s, a);
    } else if IsPullAction(a) {
      PullKeepsCover(cfg, s, a);
    } else {
      SwitchKeepsCover(cfg, s, a);
    }
  }

  /** Flow control: a pull is only sent below the limit, and nothing else adds to the cache meanwhile. */
  ghost predicate Bounded(cfg: Config, s: State) {
    && |s.pq.cache| <= cfg.limit + 32
    && (s.pulls != [] && (s.pulls[0].InFlight? || s.pulls[0].Entered?) ==> |s.pq.cache| <= cfg.limit)
  }

  lemma SmallerCache(a: map<int, Message>, b: map<int, Message>)
    requires a.Keys <= b.Keys
    ensures |a| <= |b|
  {
    SubsetSize(a.Keys, b.Keys);
  }

  lemma {:induction false} SubsetSize(a: set<int>, b: set<int>)
    requires a <= b
    ensures |a| <= |b|
  {
    if a == {} {
    } else {
      var x := Pick(a);
      SubsetSize(a - {x}, b - {x});
    }
  }

  lemma BoundedStep(cfg: Config, s: State, a: Action)
    requires OnePull(cfg, s) && Bounded(cfg, s) && Enabled(cfg, s, a)
    ensures Bounded(cfg, Apply(cfg, s, a))
  {
    StepFrame(cfg, s, a);
    var t := Apply(cfg, s, a);
    if a.PullApply? {
      if s.pulls[0].result.Found? {
        PutCount(s.pq.cache, s.pulls[0].result.msgs);
      }
    } else {
      SmallerCache(t.pq.cache, s.pq.cache);
    }
  }

  lemma {:induction false} RunKeepsCover(cfg: Config, start: int, acts: seq<Action>)
    requires 0 <= start && CanRun(cfg, Init(start), acts)
    ensures var s := Run(cfg, Init(start), acts);
      Ranges(cfg, start, s) && OnePull(cfg, s) && AckedDone(s) && LostWhenDropped(s) && CoverInv(s) && Bounded(cfg, s)
  {
    if acts == [] {
      assert HeldByTasks(map[]) == {};
    } else {
      var n := |acts| - 1;
      CanRunSnoc(cfg, Init(start), acts);
      RunKeepsCover(cfg, start, acts[..n]);
      var s := Run(cfg, Init(start), acts[..n]);
      RangesStep(cfg, start, s, acts[n]);
      OnePullStep(cfg, s, acts[n]);
      AckedDoneStep(cfg, s, acts[n]);
      StepFrame(cfg, s, acts[n]);
      if !Apply(cfg, s, acts[n]).pq.dropped {
        NothingLostStep(cfg, s, acts[n]);
      }
      CoverStep(cfg, start, s, acts[n]);
      BoundedStep(cfg, s, acts[n]);
    }
  }

  ghost predicate LostWhenDropped(s: State) {
    !s.pq.dropped ==> Lost(s) == {}
  }

  /** Nothing is stranded. While the PullRequest is not dropped and the consume service runs, in every
      interleaving: the cached messages are exactly those held by consume tasks (and by a pull about to
      post one); no two tasks hold the same message; and every message put and not yet done is held. */
  lemma NothingStranded(cfg: Config, start: int, acts: seq<Action>)
    requires 0 <= start && CanRun(cfg, Init(start), acts)
    requires Live(Run(cfg, Init(start), acts))
    ensures var s := Run(cfg, Init(start), acts);
      && s.pq.cache.Keys == HeldByTasks(s.tasks) + HeldByPull(s)
      && (forall i, j :: i in s.tasks && j in s.tasks && i != j ==> Held(s.tasks[i]) !! Held(s.tasks[j]))
      && s.put - s.done <= HeldByTasks(s.tasks) + HeldByPull(s)
  {
    RunKeepsCover(cfg, start, acts);
    var s := Run(cfg, Init(start), acts);
    assert s.put - s.done <= s.pq.cache.Keys by {
      forall o | o in s.put - s.done ensures o in s.pq.cache.Keys {
        assert o !in Lost(s);
      }
    }
  }

  lemma NoHoldersNothingCached(s: State)
    requires s.tasks == map[] && HeldByPull(s) == {}
    requires s.pq.cache.Keys == HeldByTasks(s.tasks) + HeldByPull(s)
    requires s.put - s.done <= HeldByTasks(s.tasks) + HeldByPull(s)
    ensures s.put <= s.done && s.pq.cache == map[]
  {
    assert HeldByTasks(s.tasks) == {};
    forall o | o in s.put ensures o in s.done {
      assert o !in s.put - s.done;
    }
  }

  /** When every task and pull has come to rest, everything put is done and the cache is empty. */
  lemma DrainedMeansDone(cfg: Config, start: int, acts: seq<Action>)
    requires 0 <= start && CanRun(cfg, Init(start), acts)
    requires var s := Run(cfg, Init(start), acts);
      Live(s) && s.tasks == map[] && HeldByPull(s) == {}
    ensures var s := Run(cfg, Init(start), acts); s.put <= s.done && s.pq.cache == map[]
  {
    NothingStranded(cfg, start, acts);
    NoHoldersNothingCached(Run(cfg, Init(start), acts));
  }

  /** The pull loop goes on as long as it may. */
  ghost predicate KeepsPulling(s: State) {
    !s.pq.dropped && s.pulling ==> |s.pulls| == 1
  }

  lemma KeepsPullingStep(cfg: Config, s: State, a: Action)
    requires OnePull(cfg, s) && KeepsPulling(s) && Enabled(cfg, s, a)
    ensures KeepsPulling(Apply(cfg, s, a))
  {
    StepFrame(cfg, s, a);
  }

  lemma {:induction false} RunKeepsPulling(cfg: Config, start: int, acts: seq<Action>)
    requires 0 <= start && CanRun(cfg, Init(start), acts)
    ensures KeepsPulling(Run(cfg, Init(start), acts))
  {
    if acts == [] {
    } else {
      var n := |acts| - 1;
      CanRunSnoc(cfg, Init(start), acts);
      RunKeepsCover(cfg, start, acts[..n]);
      RunKeepsPulling(cfg, start, acts[..n]);
      KeepsPullingStep(cfg, Run(cfg, Init(start), acts[..n]), acts[n]);
    }
  }

  /** Flow control: in every interleaving at most one pull is outstanding, exactly one while the queue is not
      dropped and pulling runs, and the cache holds at most m_maxMsgCacheSize + 32 messages. */
  lemma FlowControl(cfg: Config, start: int, acts: seq<Action>)
    requires 0 <= start && CanRun(cfg, Init(start), acts)
    ensures var s := Run(cfg, Init(start), acts);
      && |s.pulls| <= 1 && (!s.pq.dropped && s.pulling ==> |s.pulls| == 1)
      && |s.pq.cache| <= cfg.limit + 32
  {
    RunKeepsCover(cfg, start, acts);
    RunKeepsPulling(cfg, start, acts);
  }
}
