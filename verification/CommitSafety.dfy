/** At-least-once commit: which offsets a PullRequest may store, over every interleaving of its pull
    loop, its consume tasks and the rebalancer. */
module CommitSafety {
  import opened OrderedMap
  import opened ProcessQueue
  import opened ConsumeService
  import opened QueueProtocol

  /** Storing v loses nothing: every message cached so far below v is done, and every later one is not below v. */
  ghost predicate Safe(s: State, v: int) {
    0 <= v <= s.pq.nextOffset && forall o :: o in s.put && o < v ==> o in s.done
  }

  ghost predicate PullOk(cfg: Config, s: State, p: Pull) {
    && (p.Entered? ==> Contract(cfg, s.pq.nextOffset, p.result))
    && (p.Submitting? ==> Offsets(p.msgs) <= s.put)
  }

  /** Offsets cached lie between the first pull and the next one, and none of the stream is skipped. */
  ghost predicate Ranges(cfg: Config, start: int, s: State) {
    && 0 <= start <= s.pq.nextOffset
    && 0 <= s.pq.offsetMax
    && (forall o :: o in s.put ==> start <= o < s.pq.nextOffset && o <= s.pq.offsetMax)
    && (if s.put == {} then s.pq.offsetMax == 0 else s.pq.offsetMax < s.pq.nextOffset)
    && s.pq.cache.Keys <= s.put
    && (forall o :: o in cfg.stream && start <= o < s.pq.nextOffset ==> o in s.put)
  }

  /** At most one pull is outstanding, and it is consistent with the queue. */
  ghost predicate OnePull(cfg: Config, s: State) {
    && |s.pulls| <= 1
    && (s.pulls != [] ==> PullOk(cfg, s, s.pulls[0]))
  }

  ghost predicate AckedDone(s: State) {
    forall id :: id in s.tasks && s.tasks[id].Settled? ==> Offsets(s.tasks[id].acked) <= s.done
  }

  ghost predicate WrittenSafe(s: State) {
    forall v :: v in s.written ==> Safe(s, v)
  }

  /** Values computed but not stored yet. */
  ghost predicate PendingSafe(s: State) {
    && (forall id :: id in s.tasks && s.tasks[id].Committing? ==> Safe(s, s.tasks[id].offset))
    && (s.pulls != [] && s.pulls[0].Publishing? ==> Safe(s, s.pulls[0].offset))
  }

  /** Offsets cached once, not done, and no longer cached: what a clear has thrown away. */
  function Lost(s: State): set<int> {
    s.put - s.done - s.pq.cache.Keys
  }

  /** Some task may still call removeMessage without passing a drop check first. */
  ghost predicate Removing(s: State) {
    exists id :: id in s.tasks && (s.tasks[id].Consuming? || s.tasks[id].Settled?)
  }

  /** The pull has passed its drop check and, on an emptied cache, will publish its next offset. */
  ghost predicate AboutToPublish(s: State) {
    s.pulls != [] && s.pulls[0].Entered? && s.pulls[0].result.NoMessages? && s.pulls[0].result.nextBegin > 0
  }

  /** The pull has passed its drop check and will put messages. */
  ghost predicate AboutToPut(s: State) {
    s.pulls != [] && s.pulls[0].Entered? && s.pulls[0].result.Found? && s.pulls[0].result.msgs != []
  }

  /** Unfinished messages were cleared while the pull stood between its drop check and its use of the
      cache: it can store its next offset, or put messages that make a running task return one. */
  ghost predicate Hazard(s: State) {
    && s.pq.dropped && s.pq.cache.Keys == {} && Lost(s) != {}
    && (AboutToPublish(s) || (AboutToPut(s) && Removing(s)))
  }

  /** Nothing is lost, or nothing that could store an offset is left. */
  ghost predicate Contained(s: State) {
    || Lost(s) == {}
    || (s.pq.dropped && s.pq.cache.Keys == {} && !Hazard(s))
    || (s.pq.dropped && !Removing(s) && (s.pulls != [] ==> !s.pulls[0].Entered?))
  }

  ghost predicate Inv(cfg: Config, start: int, s: State) {
    && Ranges(cfg, start, s)
    && OnePull(cfg, s)
    && AckedDone(s)
    && WrittenSafe(s)
    && PendingSafe(s)
    && Contained(s)
  }

  lemma InitInv(cfg: Config, start: int)
    requires 0 <= start
    ensures Inv(cfg, start, Init(start))
  {
  }

  predicate IsPullAction(a: Action) {
    a.PullStart? || a.PullReply? || a.PullFail? || a.PullApply? || a.PullSubmit? || a.PullPublish? || a.PullAgain?
  }

  lemma StepGrows(cfg: Config, s: State, a: Action)
    requires Enabled(cfg, s, a)
    ensures var t := Apply(cfg, s, a);
      s.done <= t.done && s.put <= t.put && (s.pq.dropped ==> t.pq.dropped)
  {
  }

  lemma StepSides(cfg: Config, s: State, a: Action)
    requires Enabled(cfg, s, a)
    ensures var t := Apply(cfg, s, a);
      && (!IsPullAction(a) ==> t.pulls == s.pulls)
      && (IsPullAction(a) && !a.PullSubmit? ==> t.tasks == s.tasks)
  {
  }

  lemma PullStepPuts(cfg: Config, s: State, a: Action)
    requires Enabled(cfg, s, a) && IsPullAction(a) && !a.PullApply?
    ensures var t := Apply(cfg, s, a); t.put == s.put && t.pq == s.pq
  {
  }

  /** Only PullApply puts messages or moves the next offset. */
  lemma StepPuts(cfg: Config, s: State, a: Action)
    requires Enabled(cfg, s, a) && !a.PullApply?
    ensures var t := Apply(cfg, s, a);
      && t.put == s.put && t.pq.nextOffset == s.pq.nextOffset && t.pq.offsetMax == s.pq.offsetMax
      && t.pq.cache.Keys <= s.pq.cache.Keys
  {
    if IsPullAction(a) {
      PullStepPuts(cfg, s, a);
    } else if a.TaskRemove? {
      assert Remove(s.pq, Offsets(s.tasks[a.id].acked)).0.cache.Keys == s.pq.cache.Keys - Offsets(s.tasks[a.id].acked);
    }
  }

  /** What a step keeps. */
  lemma StepFrame(cfg: Config, s: State, a: Action)
    requires Enabled(cfg, s, a)
    ensures var t := Apply(cfg, s, a);
      && s.done <= t.done && s.put <= t.put && (s.pq.dropped ==> t.pq.dropped)
      && (!IsPullAction(a) ==> t.pulls == s.pulls)
      && (IsPullAction(a) && !a.PullSubmit? ==> t.tasks == s.tasks)
      && (!a.PullApply? ==>
            && t.put == s.put && t.pq.nextOffset == s.pq.nextOffset && t.pq.offsetMax == s.pq.offsetMax
            && t.pq.cache.Keys <= s.pq.cache.Keys)
  {
    StepGrows(cfg, s, a);
    StepSides(cfg, s, a);
    if !a.PullApply? {
      StepPuts(cfg, s, a);
    }
  }

  lemma ApplyKeepsRanges(cfg: Config, start: int, s: State, i: nat)
    requires Ranges(cfg, start, s) && OnePull(cfg, s) && Enabled(cfg, s, PullApply(i))
    ensures Ranges(cfg, start, Apply(cfg, s, PullApply(i)))
  {
    assert i == 0;
    var result := s.pulls[0].result;
    if result.Found? {
      var t := Apply(cfg, s, PullApply(i));
      assert t.put == s.put + Offsets(result.msgs);
      assert t.pq.cache.Keys == s.pq.cache.Keys + Offsets(result.msgs);
    }
  }

  lemma RangesStep(cfg: Config, start: int, s: State, a: Action)
    requires Ranges(cfg, start, s) && OnePull(cfg, s) && Enabled(cfg, s, a)
    ensures Ranges(cfg, start, Apply(cfg, s, a))
  {
    StepFrame(cfg, s, a);
    if a.PullApply? {
      ApplyKeepsRanges(cfg, start, s, a.i);
    }
  }

  lemma OnePullAction(cfg: Config, s: State, a: Action)
    requires OnePull(cfg, s) && Enabled(cfg, s, a) && IsPullAction(a)
    ensures OnePull(cfg, Apply(cfg, s, a))
  {
    assert a.i == 0;
  }

  /** Every path through a pull schedules at most one follow-up, so one outstanding pull stays one. */
  lemma OnePullStep(cfg: Config, s: State, a: Action)
    requires OnePull(cfg, s) && Enabled(cfg, s, a)
    ensures OnePull(cfg, Apply(cfg, s, a))
  {
    if IsPullAction(a) {
      OnePullAction(cfg, s, a);
    } else {
      StepFrame(cfg, s, a);
    }
  }

  lemma AckedDoneStep(cfg: Config, s: State, a: Action)
    requires AckedDone(s) && Enabled(cfg, s, a)
    ensures AckedDone(Apply(cfg, s, a))
  {
    StepFrame(cfg, s, a);
    if a.TaskSettle? {
      SettleSplits(s.tasks[a.id].msgs, a.consumed, a.back);
    }
  }

  /** A safe value stays safe: later messages are put at or above the next offset. */
  lemma SafeStep(cfg: Config, start: int, s: State, a: Action, v: int)
    requires Ranges(cfg, start, s) && OnePull(cfg, s) && Enabled(cfg, s, a)
    requires Safe(s, v)
    ensures Safe(Apply(cfg, s, a), v)
  {
    StepFrame(cfg, s, a);
    if a.PullApply? {
      assert a.i == 0;
    }
  }

  /** What removeMessage returns is safe when nothing has been lost. */
  lemma RemovedSafe(cfg: Config, start: int, s: State, id: nat)
    requires Ranges(cfg, start, s) && AckedDone(s) && Lost(s) == {}
    requires Enabled(cfg, s, TaskRemove(id))
    ensures var (_, v) := Remove(s.pq, Offsets(s.tasks[id].acked)); v >= 0 ==> Safe(s, v)
  {
    var left := s.pq.cache.Keys - Offsets(s.tasks[id].acked);
    var (_, v) := Remove(s.pq, Offsets(s.tasks[id].acked));
    if v >= 0 {
      forall o | o in s.put && o < v ensures o in s.done {
        assert o !in left;
        assert o !in Lost(s);
      }
      if left == {} {
        var o := Pick(s.pq.cache.Keys);
        assert o in s.put;
      } else {
        assert v in left;
      }
    }
  }

  /** What a pull finds when it sees the cache empty: everything put is done, so its next offset is safe. */
  lemma PublishedSafe(cfg: Config, start: int, s: State, i: nat)
    requires Ranges(cfg, start, s) && OnePull(cfg, s) && Contained(s)
    requires Enabled(cfg, s, PullApply(i)) && !Hazard(s)
    requires var p := Apply(cfg, s, PullApply(i)).pulls[i]; p.Publishing?
    ensures var t := Apply(cfg, s, PullApply(i)); Safe(t, t.pulls[i].offset)
  {
    assert i == 0 && AboutToPublish(s);
    assert Lost(s) == {};
    forall o | o in s.put ensures o in s.done {
      assert o !in Lost(s);
    }
  }

  lemma WrittenSafeStep(cfg: Config, start: int, s: State, a: Action)
    requires Inv(cfg, start, s) && Enabled(cfg, s, a)
    ensures WrittenSafe(Apply(cfg, s, a))
  {
    var t := Apply(cfg, s, a);
    forall v | v in t.written ensures Safe(t, v) {
      assert Safe(s, v);
      SafeStep(cfg, start, s, a, v);
    }
  }

  lemma PendingTaskStep(cfg: Config, start: int, s: State, a: Action, id: nat)
    requires Inv(cfg, start, s) && Enabled(cfg, s, a)
    requires var t := Apply(cfg, s, a); id in t.tasks && t.tasks[id].Committing?
    ensures var t := Apply(cfg, s, a); Safe(t, t.tasks[id].offset)
  {
    var t := Apply(cfg, s, a);
    if id in s.tasks && s.tasks[id] == t.tasks[id] {
      SafeStep(cfg, start, s, a, t.tasks[id].offset);
    } else {
      assert a == TaskRemove(id);
      assert Removing(s);
      RemovedSafe(cfg, start, s, id);
      SafeStep(cfg, start, s, a, t.tasks[id].offset);
    }
  }

  lemma PendingSafeStep(cfg: Config, start: int, s: State, a: Action)
    requires Inv(cfg, start, s) && Enabled(cfg, s, a) && !Hazard(s)
    ensures PendingSafe(Apply(cfg, s, a))
  {
    var t := Apply(cfg, s, a);
    forall id | id in t.tasks && t.tasks[id].Committing? ensures Safe(t, t.tasks[id].offset) {
      PendingTaskStep(cfg, start, s, a, id);
    }
    if t.pulls != [] && t.pulls[0].Publishing? {
      if a == PullApply(0) {
        PublishedSafe(cfg, start, s, 0);
      } else {
        assert s.pulls == t.pulls;
        SafeStep(cfg, start, s, a, t.pulls[0].offset);
      }
    }
  }

  lemma RemovingOnlyShrinksOnceDropped(cfg: Config, s: State, a: Action)
    requires Enabled(cfg, s, a) && s.pq.dropped && !Removing(s)
    ensures !Removing(Apply(cfg, s, a))
  {
    var t := Apply(cfg, s, a);
    forall id | id in t.tasks ensures !t.tasks[id].Consuming? && !t.tasks[id].Settled? {
      if id in s.tasks {
        assert !s.tasks[id].Consuming? && !s.tasks[id].Settled?;
      }
    }
  }

  /** The steps that empty the cache: the rebalancer's, and a consume task that finds the drop flag set. */
  predicate Clears(s: State, a: Action) {
    a.ClearAll? || (a.TaskStart? && s.pq.dropped)
  }

  /** The cache only shrinks by clearing or by removing what is done. */
  lemma CacheKept(cfg: Config, s: State, a: Action)
    requires Enabled(cfg, s, a) && AckedDone(s) && !Clears(s, a)
    ensures var t := Apply(cfg, s, a);
      && s.pq.cache.Keys - s.done <= t.pq.cache.Keys
      && t.put - s.put <= t.pq.cache.Keys
  {
    if a.TaskRemove? {
      assert Offsets(s.tasks[a.id].acked) <= s.done;
    }
  }

  /** Only clearing the cache can lose a message. */
  lemma NothingLostStep(cfg: Config, s: State, a: Action)
    requires Enabled(cfg, s, a) && AckedDone(s) && Lost(s) == {} && !Clears(s, a)
    ensures Lost(Apply(cfg, s, a)) == {}
  {
    CacheKept(cfg, s, a);
    StepGrows(cfg, s, a);
    var t := Apply(cfg, s, a);
    forall o | o in t.put && o !in t.done ensures o in t.pq.cache {
      assert o !in Lost(s);
    }
  }

  lemma ContainedStep(cfg: Config, s: State, a: Action)
    requires Enabled(cfg, s, a) && OnePull(cfg, s) && AckedDone(s) && Contained(s)
    requires !Hazard(s) && !Hazard(Apply(cfg, s, a))
    ensures Contained(Apply(cfg, s, a))
  {
    StepFrame(cfg, s, a);
    if Lost(s) == {} && !Clears(s, a) {
      NothingLostStep(cfg, s, a);
    } else if !Removing(s) {
      RemovingOnlyShrinksOnceDropped(cfg, s, a);
    }
  }

  ghost predicate HazardFree(cfg: Config, s: State, acts: seq<Action>) {
    forall k :: 0 <= k <= |acts| ==> !Hazard(Run(cfg, s, acts[..k]))
  }

  lemma HazardFreeSnoc(cfg: Config, s: State, acts: seq<Action>)
    requires HazardFree(cfg, s, acts) && acts != []
    ensures HazardFree(cfg, s, acts[..|acts| - 1])
    ensures !Hazard(Run(cfg, s, acts[..|acts| - 1])) && !Hazard(Run(cfg, s, acts))
  {
    var n := |acts| - 1;
    forall k | 0 <= k <= n ensures !Hazard(Run(cfg, s, acts[..n][..k])) {
      assert acts[..n][..k] == acts[..k];
    }
    assert acts[..|acts|] == acts;
  }

  lemma InvStep(cfg: Config, start: int, s: State, a: Action)
    requires Inv(cfg, start, s) && Enabled(cfg, s, a) && !Hazard(s) && !Hazard(Apply(cfg, s, a))
    ensures Inv(cfg, start, Apply(cfg, s, a))
  {
    RangesStep(cfg, start, s, a);
    OnePullStep(cfg, s, a);
    AckedDoneStep(cfg, s, a);
    WrittenSafeStep(cfg, start, s, a);
    PendingSafeStep(cfg, start, s, a);
    ContainedStep(cfg, s, a);
  }

  lemma {:induction false} RunKeepsInv(cfg: Config, start: int, s: State, acts: seq<Action>)
    requires Inv(cfg, start, s) && CanRun(cfg, s, acts) && HazardFree(cfg, s, acts)
    ensures Inv(cfg, start, Run(cfg, s, acts))
  {
    if acts == [] {
    } else {
      var n := |acts| - 1;
      CanRunSnoc(cfg, s, acts);
      HazardFreeSnoc(cfg, s, acts);
      RunKeepsInv(cfg, start, s, acts[..n]);
      InvStep(cfg, start, Run(cfg, s, acts[..n]), acts[n]);
    }
  }

  /** At-least-once commit. In every interleaving that never passes through a hazard, every value stored
      so far, and every value computed and about to be stored (however late), has every message below it
      consumed or taken back by the broker; and no message of the stream between the first offset pulled
      and such a value was skipped. */
  lemma CommitSafe(cfg: Config, start: int, acts: seq<Action>)
    requires 0 <= start && CanRun(cfg, Init(start), acts) && HazardFree(cfg, Init(start), acts)
    ensures var s := Run(cfg, Init(start), acts);
      && (forall v :: v in s.written ==> Safe(s, v))
      && (forall id :: id in s.tasks && s.tasks[id].Committing? ==> Safe(s, s.tasks[id].offset))
      && (forall v, o :: v in s.written && o in cfg.stream && start <= o < v ==> o in s.done)
  {
    InitInv(cfg, start);
    RunKeepsInv(cfg, start, Init(start), acts);
    var s := Run(cfg, Init(start), acts);
    forall v, o | v in s.written && o in cfg.stream && start <= o < v ensures o in s.done {
      assert Safe(s, v);
    }
  }

  lemma Chain2(cfg: Config, s: State, a: Action, b: Action)
    requires Enabled(cfg, s, a) && Enabled(cfg, Apply(cfg, s, a), b)
    ensures CanRun(cfg, s, [a, b]) && Run(cfg, s, [a, b]) == Apply(cfg, Apply(cfg, s, a), b)
  {
    CanRunExtend(cfg, s, [], a);
    assert [] + [a] == [a];
    CanRunExtend(cfg, s, [a], b);
    assert [a] + [b] == [a, b];
  }

  /** t is s with one more value stored, above every offset that s had lost, and nothing more done. */
  ghost predicate StoresPast(s: State, t: State) {
    && |t.written| == |s.written| + 1 && t.written[..|s.written|] == s.written
    && t.done == s.done && s.put <= t.put
    && forall o :: o in Lost(s) ==> o < t.written[|s.written|]
  }

  lemma StoresPastUnsafe(s: State, t: State)
    requires StoresPast(s, t) && Lost(s) != {}
    ensures !WrittenSafe(t)
  {
    var o := Pick(Lost(s));
    assert t.written[|s.written|] in t.written;
    assert o in t.put && o !in t.done;
  }

  /** A pull that is past its drop check stores its next offset over messages that were cleared. */
  lemma PublishingRaceLoses(cfg: Config, start: int, s: State)
    requires Ranges(cfg, start, s) && OnePull(cfg, s) && Hazard(s) && AboutToPublish(s)
    ensures var acts := [PullApply(0), PullPublish(0)];
      CanRun(cfg, s, acts) && StoresPast(s, Run(cfg, s, acts))
  {
    Chain2(cfg, s, PullApply(0), PullPublish(0));
  }

  /** A put on an emptied cache makes any removal return an offset above everything that was lost. */
  lemma LatePutValue(cfg: Config, start: int, s: State, acked: set<int>)
    requires Ranges(cfg, start, s) && OnePull(cfg, s)
    requires s.pq.cache.Keys == {} && AboutToPut(s)
    ensures var (_, v) := Remove(Apply(cfg, s, PullApply(0)).pq, acked);
      v >= 0 && forall o :: o in s.put ==> o < v
  {
    var t := Apply(cfg, s, PullApply(0));
    var msgs := s.pulls[0].result.msgs;
    OffsetsMember(msgs, msgs[0].queueOffset);
    assert msgs[0].queueOffset in t.pq.cache;
    ApplyKeepsRanges(cfg, start, s, 0);
    var (_, v) := Remove(t.pq, acked);
    assert t.pq.cache.Keys - acked != {} ==> v in Offsets(msgs);
  }

  lemma SettledTaskStores(cfg: Config, s: State, id: nat)
    requires Enabled(cfg, s, TaskRemove(id))
    requires Remove(s.pq, Offsets(s.tasks[id].acked)).1 >= 0
    ensures var acts := [TaskRemove(id), TaskCommit(id)];
      && CanRun(cfg, s, acts)
      && var t := Run(cfg, s, acts);
         t.put == s.put && t.done == s.done && t.written == s.written + [Remove(s.pq, Offsets(s.tasks[id].acked)).1]
  {
    Chain2(cfg, s, TaskRemove(id), TaskCommit(id));
  }

  lemma CanRunPrepend(cfg: Config, s: State, a: Action, acts: seq<Action>)
    requires Enabled(cfg, s, a) && CanRun(cfg, Apply(cfg, s, a), acts)
    ensures CanRun(cfg, s, [a] + acts) && Run(cfg, s, [a] + acts) == Run(cfg, Apply(cfg, s, a), acts)
  {
    CanRunExtend(cfg, s, [], a);
    assert [] + [a] == [a];
    RunConcat(cfg, s, [a], acts);
  }

  lemma SettledTaskRaceLoses(cfg: Config, start: int, s: State, id: nat)
    requires Ranges(cfg, start, s) && OnePull(cfg, s)
    requires s.pq.cache.Keys == {} && Lost(s) != {} && AboutToPut(s)
    requires id in s.tasks && s.tasks[id].Settled?
    ensures var acts := [PullApply(0)] + [TaskRemove(id), TaskCommit(id)];
      CanRun(cfg, s, acts) && StoresPast(s, Run(cfg, s, acts))
  {
    var t := Apply(cfg, s, PullApply(0));
    LatePutValue(cfg, start, s, Offsets(s.tasks[id].acked));
    SettledTaskStores(cfg, t, id);
    CanRunPrepend(cfg, s, PullApply(0), [TaskRemove(id), TaskCommit(id)]);
  }

  function Nothing(n: nat): seq<bool> {
    seq(n, _ => false)
  }

  lemma {:induction false} NothingAccepted(msgs: seq<Message>)
    ensures Accepted(msgs, false, Nothing(|msgs|)) == {}
  {
    if msgs == [] {
    } else {
      var n := |msgs| - 1;
      NothingAccepted(msgs[..n]);
      assert Nothing(|msgs|)[..n] == Nothing(n);
    }
  }

  /** A running task may yet fail every message, and then it is a settled task with the same losses. */
  lemma ConsumingTaskRaceLoses(cfg: Config, start: int, s: State, id: nat) returns (acts: seq<Action>)
    requires Ranges(cfg, start, s) && OnePull(cfg, s)
    requires s.pq.cache.Keys == {} && Lost(s) != {} && AboutToPut(s)
    requires id in s.tasks && s.tasks[id].Consuming?
    ensures CanRun(cfg, s, acts) && StoresPast(s, Run(cfg, s, acts))
  {
    var settle := TaskSettle(id, false, Nothing(|s.tasks[id].msgs|));
    NothingAccepted(s.tasks[id].msgs);
    var t := Apply(cfg, s, settle);
    assert t.done == s.done;
    SettledTaskRaceLoses(cfg, start, t, id);
    var rest := [PullApply(0)] + [TaskRemove(id), TaskCommit(id)];
    CanRunPrepend(cfg, s, settle, rest);
    acts := [settle] + rest;
  }

  /** Every hazard is real: from it some continuation stores one offset past every message that was lost. */
  lemma HazardLoses(cfg: Config, start: int, s: State) returns (acts: seq<Action>)
    requires Ranges(cfg, start, s) && OnePull(cfg, s) && Hazard(s)
    ensures CanRun(cfg, s, acts) && StoresPast(s, Run(cfg, s, acts))
    ensures !WrittenSafe(Run(cfg, s, acts))
  {
    if AboutToPublish(s) {
      PublishingRaceLoses(cfg, start, s);
      acts := [PullApply(0), PullPublish(0)];
    } else {
      var id :| id in s.tasks && (s.tasks[id].Consuming? || s.tasks[id].Settled?);
      if s.tasks[id].Settled? {
        SettledTaskRaceLoses(cfg, start, s, id);
        acts := [PullApply(0)] + [TaskRemove(id), TaskCommit(id)];
      } else {
        acts := ConsumingTaskRaceLoses(cfg, start, s, id);
      }
    }
    StoresPastUnsafe(s, Run(cfg, s, acts));
  }

  /** Dropped, and neither a hazard nor able to become one. */
  ghost predicate PastHazard(s: State) {
    && s.pq.dropped && !Hazard(s)
    && (s.pulls != [] && s.pulls[0].Entered? ==> s.pq.cache.Keys == {})
  }

  lemma PastHazardStep(cfg: Config, s: State, a: Action)
    requires Enabled(cfg, s, a) && OnePull(cfg, s) && PastHazard(s)
    ensures PastHazard(Apply(cfg, s, a))
  {
    StepFrame(cfg, s, a);
    if !Removing(s) {
      RemovingOnlyShrinksOnceDropped(cfg, s, a);
    }
    var t := Apply(cfg, s, a);
    if t.pulls != [] && t.pulls[0].Entered? {
      assert t.pulls == s.pulls && t.put == s.put;
      assert Lost(t) <= Lost(s);
    }
  }

  lemma {:induction false} PastHazardForever(cfg: Config, start: int, s: State, acts: seq<Action>)
    requires Inv(cfg, start, s) && PastHazard(s) && CanRun(cfg, s, acts)
    ensures HazardFree(cfg, s, acts) && PastHazard(Run(cfg, s, acts))
  {
    if acts != [] {
      var n := |acts| - 1;
      CanRunSnoc(cfg, s, acts);
      PastHazardForever(cfg, start, s, acts[..n]);
      RunKeepsInv(cfg, start, s, acts[..n]);
      PastHazardStep(cfg, Run(cfg, s, acts[..n]), acts[n]);
      forall k | 0 <= k <= |acts| ensures !Hazard(Run(cfg, s, acts[..k])) {
        if k <= n {
          assert acts[..k] == acts[..n][..k];
        } else {
          assert acts[..k] == acts;
        }
      }
    } else {
      forall k | 0 <= k <= |acts| ensures !Hazard(Run(cfg, s, acts[..k])) {
        assert acts[..k] == [];
      }
    }
  }

  /** A clear of r would race: unfinished messages, and a pull standing between its drop check and its
      use of the cache that can publish, or put while some task can still remove. */
  ghost predicate ClearRaces(r: State) {
    && r.put - r.done != {}
    && (AboutToPublish(r) || (AboutToPut(r) && Removing(r)))
  }

  ghost predicate AllContinuationsSafe(cfg: Config, s: State) {
    forall acts :: CanRun(cfg, s, acts) ==> WrittenSafe(Run(cfg, s, acts))
  }

  /** A clear leaves a hazard exactly when it races. */
  lemma ClearHazard(cfg: Config, r: State, a: Action)
    requires Enabled(cfg, r, a) && Clears(r, a)
    ensures var s := Apply(cfg, r, a); s.pq.dropped && s.pq.cache.Keys == {} && s.pulls == r.pulls
    ensures Hazard(Apply(cfg, r, a)) <==> ClearRaces(r)
  {
    var s := Apply(cfg, r, a);
    assert Lost(s) == r.put - r.done;
    if Removing(r) {
      var id :| id in r.tasks && (r.tasks[id].Consuming? || r.tasks[id].Settled?);
      assert id in s.tasks && s.tasks[id] == r.tasks[id];
    }
    if Removing(s) {
      var id :| id in s.tasks && (s.tasks[id].Consuming? || s.tasks[id].Settled?);
      assert id in r.tasks && s.tasks[id] == r.tasks[id];
    }
  }

  /** Exactly when dropping a queue keeps at-least-once delivery: clearing the cache of a dropped
      PullRequest, by the rebalancer or by a consume task that finds it dropped, is safe in every
      continuation if and only if it does not race with a pull. */
  lemma ClearSafeExactly(cfg: Config, start: int, r: State, a: Action)
    requires Inv(cfg, start, r) && Enabled(cfg, r, a) && Clears(r, a)
    ensures AllContinuationsSafe(cfg, Apply(cfg, r, a)) <==> !ClearRaces(r)
  {
    var s := Apply(cfg, r, a);
    ClearHazard(cfg, r, a);
    RangesStep(cfg, start, r, a);
    OnePullStep(cfg, r, a);
    if ClearRaces(r) {
      var acts := HazardLoses(cfg, start, s);
    } else {
      AfterCalmClear(cfg, start, r, a);
      forall acts | CanRun(cfg, s, acts) ensures WrittenSafe(Run(cfg, s, acts)) {
        PastHazardForever(cfg, start, s, acts);
        RunKeepsInv(cfg, start, s, acts);
      }
    }
  }

  lemma AfterCalmClear(cfg: Config, start: int, r: State, a: Action)
    requires Inv(cfg, start, r) && Enabled(cfg, r, a) && Clears(r, a) && !ClearRaces(r)
    ensures Inv(cfg, start, Apply(cfg, r, a)) && PastHazard(Apply(cfg, r, a))
  {
    ClearHazard(cfg, r, a);
    RangesStep(cfg, start, r, a);
    OnePullStep(cfg, r, a);
    AckedDoneStep(cfg, r, a);
    WrittenSafeStep(cfg, start, r, a);
    PendingSafeStep(cfg, start, r, a);
  }

  predicate PullEntered(s: State) {
    s.pulls != [] && s.pulls[0].Entered?
  }

  /** The cache is never cleared while a pull stands between its drop check and its use of the cache. */
  ghost predicate AtomicPulls(cfg: Config, s: State, acts: seq<Action>) {
    forall k :: 0 <= k < |acts| && Clears(Run(cfg, s, acts[..k]), acts[k]) ==> !PullEntered(Run(cfg, s, acts[..k]))
  }

  ghost predicate LostOnlyAfterPull(s: State) {
    (!s.pq.dropped || PullEntered(s)) ==> Lost(s) == {}
  }

  lemma LostOnlyAfterPullStep(cfg: Config, s: State, a: Action)
    requires Enabled(cfg, s, a) && OnePull(cfg, s) && AckedDone(s) && LostOnlyAfterPull(s)
    requires Clears(s, a) ==> !PullEntered(s)
    ensures LostOnlyAfterPull(Apply(cfg, s, a))
  {
    StepFrame(cfg, s, a);
    if Lost(s) == {} && !Clears(s, a) {
      NothingLostStep(cfg, s, a);
    }
  }

  lemma {:induction false} AtomicPullsAvoidHazards(cfg: Config, start: int, acts: seq<Action>)
    requires 0 <= start && CanRun(cfg, Init(start), acts) && AtomicPulls(cfg, Init(start), acts)
    ensures HazardFree(cfg, Init(start), acts) && LostOnlyAfterPull(Run(cfg, Init(start), acts))
  {
    var s := Init(start);
    if acts == [] {
      forall k | 0 <= k <= |acts| ensures !Hazard(Run(cfg, s, acts[..k])) {
        assert acts[..k] == [];
      }
    } else {
      var n := |acts| - 1;
      CanRunSnoc(cfg, s, acts);
      forall k | 0 <= k < n && Clears(Run(cfg, s, acts[..n][..k]), acts[..n][k])
        ensures !PullEntered(Run(cfg, s, acts[..n][..k]))
      {
        assert acts[..n][..k] == acts[..k];
      }
      AtomicPullsAvoidHazards(cfg, start, acts[..n]);
      InitInv(cfg, start);
      RunKeepsInv(cfg, start, s, acts[..n]);
      LostOnlyAfterPullStep(cfg, Run(cfg, s, acts[..n]), acts[n]);
      forall k | 0 <= k <= |acts| ensures !Hazard(Run(cfg, s, acts[..k])) {
        if k <= n {
          assert acts[..k] == acts[..n][..k];
        } else {
          assert acts[..k] == acts;
        }
      }
    }
  }

  /** At-least-once commit with pull callbacks atomic with respect to drops, for every interleaving. */
  lemma AtLeastOnceCommit(cfg: Config, start: int, acts: seq<Action>)
    requires 0 <= start && CanRun(cfg, Init(start), acts) && AtomicPulls(cfg, Init(start), acts)
    ensures var s := Run(cfg, Init(start), acts);
      && (forall v :: v in s.written ==> Safe(s, v))
      && (forall v, o :: v in s.written && o in cfg.stream && start <= o < v ==> o in s.done)
  {
    AtomicPullsAvoidHazards(cfg, start, acts);
    CommitSafe(cfg, start, acts);
  }

  /** v has been computed by a task or the pull and is about to be stored. */
  ghost predicate Pending(s: State, v: int) {
    || (exists id :: id in s.tasks && s.tasks[id].Committing? && s.tasks[id].offset == v)
    || (s.pulls != [] && s.pulls[0].Publishing? && s.pulls[0].offset == v)
  }

  ghost predicate Fenced(cfg: Config, s: State) {
    s.pq.dropped && s.pq.cache.Keys == {} && OnePull(cfg, s) && !PullEntered(s)
  }

  lemma FenceStep(cfg: Config, s: State, a: Action)
    requires Fenced(cfg, s) && Enabled(cfg, s, a)
    ensures var t := Apply(cfg, s, a);
      && Fenced(cfg, t)
      && (t.written == s.written || (exists v :: Pending(s, v) && t.written == s.written + [v]))
  {
    StepFrame(cfg, s, a);
    OnePullStep(cfg, s, a);
    if a.TaskCommit? {
      assert Pending(s, s.tasks[a.id].offset);
    } else if a.PullPublish? {
      assert Pending(s, s.pulls[0].offset);
    }
  }

  lemma FencePendingStep(cfg: Config, s: State, a: Action, v: int)
    requires Fenced(cfg, s) && Enabled(cfg, s, a) && Pending(Apply(cfg, s, a), v)
    ensures Pending(s, v)
  {
    StepFrame(cfg, s, a);
    var t := Apply(cfg, s, a);
    if id :| id in t.tasks && t.tasks[id].Committing? && t.tasks[id].offset == v {
      assert id in s.tasks && s.tasks[id] == t.tasks[id];
    }
  }

  /** Dropping fences late commits: once a dropped PullRequest is cleared and no pull is about to use its
      cache, whatever the remaining tasks do, the cache stays empty, so removeMessage returns -1, and
      the only values still stored are those already computed before. */
  lemma {:induction false} DropFence(cfg: Config, s: State, acts: seq<Action>)
    requires Fenced(cfg, s) && CanRun(cfg, s, acts)
    ensures var t := Run(cfg, s, acts);
      && Fenced(cfg, t)
      && (forall v :: Pending(t, v) ==> Pending(s, v))
      && s.written <= t.written
      && (forall v :: v in t.written[|s.written|..] ==> Pending(s, v))
      && (forall offsets :: Remove(t.pq, offsets).1 == -1)
  {
    if acts == [] {
    } else {
      var n := |acts| - 1;
      CanRunSnoc(cfg, s, acts);
      DropFence(cfg, s, acts[..n]);
      var t := Run(cfg, s, acts[..n]);
      FenceStep(cfg, t, acts[n]);
      forall v | Pending(Run(cfg, s, acts), v) ensures Pending(s, v) {
        FencePendingStep(cfg, t, acts[n], v);
      }
    }
    var t := Run(cfg, s, acts);
    assert t.pq.cache.Keys == {} ==> t.pq.cache == map[];
  }
}
