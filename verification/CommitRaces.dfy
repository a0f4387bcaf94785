/** Two things the commit protocol does not promise, each with a schedule that shows it: clearing the
    cache under a running pull loses messages, and the stored offset may go backwards. */
module CommitRaces {
  import opened Basics
  import opened OrderedMap
  import opened ProcessQueue
  import opened ConsumeService
  import opened QueueProtocol
  import opened CommitSafety
  import opened PushConsumer
  import opened SingleMessage
  import opened StoredOrder
  import Cluster
  import OffsetStore

  lemma ReachRun(cfg: Config, s: State, t: State, acts: seq<Action>)
    requires Reaches(cfg, s, t) && CanRun(cfg, t, acts)
    ensures Reaches(cfg, s, Run(cfg, t, acts))
  {
    var before :| CanRun(cfg, s, before) && Run(cfg, s, before) == t;
    RunConcat(cfg, s, before, acts);
  }

  lemma ReachThen(cfg: Config, s: State, t: State, u: State)
    requires Reaches(cfg, s, t) && Reaches(cfg, t, u)
    ensures Reaches(cfg, s, u)
  {
    var acts :| CanRun(cfg, t, acts) && Run(cfg, t, acts) == u;
    ReachRun(cfg, s, t, acts);
  }

  lemma ReachRanges(cfg: Config, start: int, s: State)
    requires 0 <= start && Reaches(cfg, Init(start), s)
    ensures Ranges(cfg, start, s) && OnePull(cfg, s)
  {
    var acts :| CanRun(cfg, Init(start), acts) && Run(cfg, Init(start), acts) == s;
    RunFloor(cfg, start, acts);
  }

  // ---- Clearing under a running pull ----

  /** The message is cached and queued, and the next pull is scheduled. */
  const QUEUED: State := State(CACHED, [Scheduled], map[0 := Queued([ONLY])], 1, true, true, {0}, {}, [])

  /** Then that pull answers "no new message" and passes its drop check, and the queue is dropped. */
  const BEFORE_CLEAR: State := QUEUED.(pulls := [Entered(NoMessages(1))], pq := CACHED.(dropped := true))

  lemma QueuedReached()
    ensures Reaches(ONE_MESSAGE, Init(0), QUEUED)
  {
    OffsetsOfOne(ONLY);
    PutOnly();
    UninterruptedPull(ONE_MESSAGE, Init(0), 0, Answer(Found([ONLY], 1)));
    assert AfterPull(Init(0), 0, FoundOutcome(Init(0).pq, [ONLY], 1)) == QUEUED;
  }

  lemma BeforeClearReached()
    ensures Reaches(ONE_MESSAGE, Init(0), BEFORE_CLEAR)
  {
    QueuedReached();
    ReachStep(ONE_MESSAGE, Init(0), QUEUED, PullStart(0));
    var sent := QUEUED.(pulls := [InFlight]);
    ReachStep(ONE_MESSAGE, Init(0), sent, PullReply(0, NoMessages(1)));
    ReachStep(ONE_MESSAGE, Init(0), QUEUED.(pulls := [Entered(NoMessages(1))]), SetDropped);
  }

  /** The race is reachable from a fresh PullRequest: the run clears the cache at this point, and some
      continuation stores an offset above message 0, which was never consumed. */
  lemma ClearRaceHappens() returns (s: State, v: int)
    ensures Reaches(ONE_MESSAGE, Init(0), s) && s.written == [v] && 0 < v && s.done == {}
    ensures !WrittenSafe(s)
  {
    BeforeClearReached();
    ReachStep(ONE_MESSAGE, Init(0), BEFORE_CLEAR, ClearAll);
    var cleared := Apply(ONE_MESSAGE, BEFORE_CLEAR, ClearAll);
    ReachRanges(ONE_MESSAGE, 0, cleared);
    assert 0 in Lost(cleared);
    var acts := HazardLoses(ONE_MESSAGE, 0, cleared);
    ReachRun(ONE_MESSAGE, Init(0), cleared, acts);
    s := Run(ONE_MESSAGE, cleared, acts);
    v := s.written[0];
  }

  /** A group whose queue has offset 0 committed from the start. */
  const COMMITTED_AT_0: Cluster.Setting := Cluster.Setting(ONE_MESSAGE, OffsetStore.LastOffset, false, Some(0), 0)

  /** The loss reaches the broker: in a group run of one client, the broker comes to hold an offset above
      message 0 although no member has finished it, and no owner has started boldly. */
  lemma GroupLossHappens() returns (states: seq<Cluster.Group>, acts: seq<Cluster.GroupAction>)
    ensures Cluster.IsRun(COMMITTED_AT_0, states, acts) && Cluster.Timid(COMMITTED_AT_0, states, acts)
    ensures var g := states[|acts|];
      g.broker.Some? && 0 < g.broker.value && Cluster.Outstanding(COMMITTED_AT_0, g, 0)
  {
    var s, v := ClearRaceHappens();
    var g := Cluster.InitGroup(COMMITTED_AT_0);
    Cluster.CalmReachesSelf(COMMITTED_AT_0, false, g, 0);
    Cluster.CalmReachesStep(COMMITTED_AT_0, false, g, 0, g, Cluster.Acquire(0, Some(0), 0));
    var owned := Cluster.Step(COMMITTED_AT_0, g, Cluster.Acquire(0, Some(0), 0));
    var h := LossFrom(g, owned, s, v);
    states, acts :| Cluster.CalmPath(COMMITTED_AT_0, false, 0, states, acts) && states[0] == g && states[|acts|] == h;
  }

  lemma LossFrom(g: Cluster.Group, owned: Cluster.Group, s: State, v: int) returns (h: Cluster.Group)
    requires Cluster.CalmReaches(COMMITTED_AT_0, false, g, 0, owned)
    requires owned.holders == [Cluster.Holder(0, 0, Init(0))]
    requires Reaches(ONE_MESSAGE, Init(0), s) && s.written == [v] && 0 < v && s.done == {}
    ensures Cluster.CalmReaches(COMMITTED_AT_0, false, g, 0, h)
    ensures h.broker.Some? && 0 < h.broker.value && Cluster.Outstanding(COMMITTED_AT_0, h, 0)
  {
    var acts :| CanRun(ONE_MESSAGE, Init(0), acts) && Run(ONE_MESSAGE, Init(0), acts) == s;
    Cluster.LocalReach(COMMITTED_AT_0, false, owned, 0, acts);
    Cluster.LocalHolders(COMMITTED_AT_0, owned, 0, acts);
    Cluster.TableFollows(COMMITTED_AT_0, owned, 0, acts);
    var stored := Cluster.LocalRun(COMMITTED_AT_0, owned, 0, acts);
    Cluster.CalmReachesThen(COMMITTED_AT_0, false, g, 0, owned, stored);
    h := Cluster.Commit(COMMITTED_AT_0, false, g, 0, stored, 0);
  }

  /** A fresh group with the default place: nothing is committed and the queue is empty. */
  const FRESH: Cluster.Setting := Cluster.Setting(ONE_MESSAGE, OffsetStore.LastOffset, false, None, 0)

  /** Without any drop or race, a fresh group can lose its first message: two owners start at the end of the
      queue, the second after the message arrived and before the first has finished it. */
  lemma FreshGroupLoses() returns (states: seq<Cluster.Group>, acts: seq<Cluster.GroupAction>)
    ensures Cluster.IsRun(FRESH, states, acts) && forall k :: 0 <= k < |states| ==> Cluster.NoHazard(FRESH, states[k])
    ensures var g := states[|acts|]; g.broker.Some? && 0 < g.broker.value && Cluster.Outstanding(FRESH, g, 0)
  {
    states, acts := Cluster.BoldStartHappens(FRESH, 0);
  }

  /** A committed offset does not prevent it: the offset query of an owner times out, which counts as no offset, so
      it starts behind message 0, which nobody has finished. */
  lemma TimedOutQueryLoses() returns (states: seq<Cluster.Group>, acts: seq<Cluster.GroupAction>)
    ensures Cluster.IsRun(COMMITTED_AT_0, states, acts)
    ensures forall k :: 0 <= k < |states| ==> Cluster.NoHazard(COMMITTED_AT_0, states[k])
    ensures var g := states[|acts|];
      g.broker.Some? && 0 < g.broker.value && Cluster.Outstanding(COMMITTED_AT_0, g, 0)
  {
    states, acts := Cluster.BoldStartHappens(COMMITTED_AT_0, 0);
  }

  // ---- The stored offset goes back ----

  /** Two settled tasks i and j hold everything cached, i the least offset. */
  ghost predicate TwoLeft(s: State, i: nat, j: nat) {
    && i != j && i in s.tasks && j in s.tasks && s.tasks[i].Settled? && s.tasks[j].Settled?
    && var a, b := Offsets(s.tasks[i].acked), Offsets(s.tasks[j].acked);
       a !! b && a != {} && s.pq.cache.Keys == a + b
  }

  lemma TwoRemovals(cfg: Config, s: State, i: nat, j: nat) returns (acts: seq<Action>, t: State)
    requires TwoLeft(s, i, j) && s.pq.offsetMax >= 0 && Min(Offsets(s.tasks[i].acked)) >= 0
    ensures CanRun(cfg, s, acts) && t == Run(cfg, s, acts)
    ensures i in t.tasks && t.tasks[i] == Committing(s.pq.offsetMax + 1, s.tasks[i].retry)
    ensures j in t.tasks && t.tasks[j] == Committing(Min(Offsets(s.tasks[i].acked)), s.tasks[j].retry)
    ensures t.written == s.written && t.pq.cache.Keys == {}
  {
    var s1 := Apply(cfg, s, TaskRemove(j));
    assert s1.pq.cache.Keys == Offsets(s.tasks[i].acked);
    Chain2(cfg, s, TaskRemove(j), TaskRemove(i));
    acts, t := [TaskRemove(j), TaskRemove(i)], Apply(cfg, s1, TaskRemove(i));
  }

  lemma TwoCommits(cfg: Config, s: State, i: nat, j: nat) returns (acts: seq<Action>, t: State)
    requires i != j && i in s.tasks && j in s.tasks && s.tasks[i].Committing? && s.tasks[j].Committing?
    ensures CanRun(cfg, s, acts) && t == Run(cfg, s, acts)
    ensures t.written == s.written + [s.tasks[i].offset, s.tasks[j].offset] && t.pq == s.pq
  {
    Chain2(cfg, s, TaskCommit(i), TaskCommit(j));
    assert s.written + [s.tasks[i].offset] + [s.tasks[j].offset] == s.written + [s.tasks[i].offset, s.tasks[j].offset];
    acts, t := [TaskCommit(i), TaskCommit(j)], Apply(cfg, Apply(cfg, s, TaskCommit(i)), TaskCommit(j));
  }

  lemma LowBelowHigh(cfg: Config, start: int, s: State, i: nat, j: nat)
    requires Ranges(cfg, start, s) && TwoLeft(s, i, j)
    ensures 0 <= Min(Offsets(s.tasks[i].acked)) <= s.pq.offsetMax
  {
    var low := Min(Offsets(s.tasks[i].acked));
    assert low in s.pq.cache.Keys;
    assert low in s.put;
  }

  lemma Joined(cfg: Config, s: State, a: seq<Action>, t: State, b: seq<Action>, u: State)
    requires CanRun(cfg, s, a) && t == Run(cfg, s, a) && CanRun(cfg, t, b) && u == Run(cfg, t, b)
    ensures CanRun(cfg, s, a + b) && Run(cfg, s, a + b) == u
  {
    RunConcat(cfg, s, a, b);
  }

  /** The stored offset is not monotone: whenever two settled tasks hold the whole cache, one schedule
      stores a smaller offset after a larger one, although by then every cached message is done. */
  lemma StoredOffsetGoesBack(cfg: Config, start: int, s: State, i: nat, j: nat)
    returns (acts: seq<Action>, t: State, low: int, high: int)
    requires Ranges(cfg, start, s) && TwoLeft(s, i, j)
    ensures CanRun(cfg, s, acts) && t == Run(cfg, s, acts)
    ensures t.written == s.written + [high, low] && low < high && t.pq.cache.Keys == {}
    ensures low == Min(Offsets(s.tasks[i].acked)) && high == s.pq.offsetMax + 1
  {
    LowBelowHigh(cfg, start, s, i, j);
    low, high := Min(Offsets(s.tasks[i].acked)), s.pq.offsetMax + 1;
    var removals, mid := TwoRemovals(cfg, s, i, j);
    var commits, last := TwoCommits(cfg, mid, i, j);
    t, acts := last, removals + commits;
    Joined(cfg, s, removals, mid, commits, last);
  }

  const FIRST: Message := Message(0, "", 0)
  const SECOND: Message := Message(1, "", 0)
  const TWO_MESSAGES: Config := Config(iset{0, 1}, 1000)

  const BOTH: View := View(map[0 := FIRST, 1 := SECOND], map[], 1, 2, false)

  /** Two pulls have cached two messages and posted two tasks. */
  const BOTH_QUEUED: State :=
    State(BOTH, [Scheduled], map[0 := Queued([FIRST]), 1 := Queued([SECOND])], 2, true, true, {0, 1}, {}, [])

  /** The first, and then both, messages have been consumed, and nothing has been removed from the cache yet. */
  const ONE_SETTLED: State := SetTask(BOTH_QUEUED, 0, Settled([FIRST], [])).(done := {0})
  const BOTH_SETTLED: State := SetTask(ONE_SETTLED, 1, Settled([SECOND], [])).(done := {0, 1})

  lemma SecondPull()
    ensures Contract(TWO_MESSAGES, 1, Found([SECOND], 2))
    ensures Put(View(map[0 := FIRST], map[], 0, 1, false).(nextOffset := 2), [SECOND]) == BOTH
  {
    OffsetsOfOne(SECOND);
    PutOne(View(map[0 := FIRST], map[], 0, 2, false), SECOND);
  }

  lemma BothQueuedReached()
    ensures Reaches(TWO_MESSAGES, Init(0), BOTH_QUEUED)
  {
    var cached := View(map[0 := FIRST], map[], 0, 1, false);
    var one := State(cached, [Scheduled], map[0 := Queued([FIRST])], 1, true, true, {0}, {}, []);
    OffsetsOfOne(FIRST);
    PutOne(EmptyView().(nextOffset := 1), FIRST);
    UninterruptedPull(TWO_MESSAGES, Init(0), 0, Answer(Found([FIRST], 1)));
    assert AfterPull(Init(0), 0, FoundOutcome(Init(0).pq, [FIRST], 1)) == one;
    SecondPull();
    OffsetsOfOne(SECOND);
    UninterruptedPull(TWO_MESSAGES, one, 0, Answer(Found([SECOND], 2)));
    assert AfterPull(one, 0, FoundOutcome(cached, [SECOND], 2)) == BOTH_QUEUED;
    ReachThen(TWO_MESSAGES, Init(0), one, BOTH_QUEUED);
  }

  lemma KeepOne(m: Message)
    ensures AckedOf([m], true, [true]) == [m] && RetryOf([m], true, [true]) == []
    ensures Accepted([m], true, [true]) == {m.queueOffset}
  {
    OffsetsOfOne(m);
    assert [m][..0] == [];
    assert Keep([m], {}) == Keep([], {}) + [m];
  }

  lemma OneSettledReached()
    ensures Reaches(TWO_MESSAGES, BOTH_QUEUED, ONE_SETTLED)
  {
    KeepOne(FIRST);
    TaskSettled(TWO_MESSAGES, BOTH_QUEUED, 0, [FIRST], true, [true]);
    assert SettleTask(BOTH_QUEUED, 0, [FIRST], true, [true]) == ONE_SETTLED;
  }

  lemma OtherSettledReached()
    ensures Reaches(TWO_MESSAGES, ONE_SETTLED, BOTH_SETTLED)
  {
    KeepOne(SECOND);
    TaskSettled(TWO_MESSAGES, ONE_SETTLED, 1, [SECOND], true, [true]);
    assert SettleTask(ONE_SETTLED, 1, [SECOND], true, [true]) == BOTH_SETTLED;
  }

  lemma BothSettledReached()
    ensures Reaches(TWO_MESSAGES, Init(0), BOTH_SETTLED)
  {
    BothQueuedReached();
    OneSettledReached();
    OtherSettledReached();
    ReachThen(TWO_MESSAGES, Init(0), BOTH_QUEUED, ONE_SETTLED);
    ReachThen(TWO_MESSAGES, Init(0), ONE_SETTLED, BOTH_SETTLED);
  }

  lemma BothSettledFacts()
    ensures Ranges(TWO_MESSAGES, 0, BOTH_SETTLED) && TwoLeft(BOTH_SETTLED, 0, 1)
    ensures Min(Offsets(BOTH_SETTLED.tasks[0].acked)) == 0
  {
    BothSettledReached();
    ReachRanges(TWO_MESSAGES, 0, BOTH_SETTLED);
    OffsetsOfOne(FIRST);
    OffsetsOfOne(SECOND);
  }

  lemma BackFrom(s: State) returns (t: State)
    requires Ranges(TWO_MESSAGES, 0, s) && TwoLeft(s, 0, 1) && Reaches(TWO_MESSAGES, Init(0), s)
    requires Min(Offsets(s.tasks[0].acked)) == 0 && s.pq.offsetMax == 1 && s.written == []
    ensures Reaches(TWO_MESSAGES, Init(0), t) && t.written == [2, 0]
  {
    var acts, last, low, high := StoredOffsetGoesBack(TWO_MESSAGES, 0, s, 0, 1);
    ReachRun(TWO_MESSAGES, Init(0), s, acts);
    t := last;
  }

  /** This is reachable: after two pulls of one message each, both consumed, a run stores offset 2 and then
      offset 0. */
  lemma GoesBackHappens() returns (s: State)
    ensures Reaches(TWO_MESSAGES, Init(0), s) && s.written == [2, 0]
  {
    BothSettledReached();
    BothSettledFacts();
    s := BackFrom(BOTH_SETTLED);
  }
}
