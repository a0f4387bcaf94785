/** Order and commit safety of the orderly consumer, over every run. */
module OrderlySafety {
  import opened OrderedMap
  import opened ProcessQueue
  import opened OrderlyProtocol

  /** Storing v loses nothing: every message below it has been consumed. */
  ghost predicate Safe(s: State, v: int) {
    0 <= v <= s.pq.nextOffset && forall o :: o in s.put && o < v ==> o in s.log
  }

  /** A message has been taken and not consumed yet. */
  predicate InHand(s: State) {
    s.holder.Took? || s.holder.Failed?
  }

  ghost predicate Ranges(cfg: P.Config, start: int, s: State) {
    && 0 <= start <= s.pq.nextOffset
    && (forall o :: o in s.put ==> start <= o < s.pq.nextOffset)
    && s.pq.cache.Keys <= s.put
    && WellKeyed(s.pq.cache)
    && (s.pull.Entered? ==> P.Contract(cfg, s.pq.nextOffset, s.pull.result))
  }

  /** The taken map holds at most the holder's message. */
  ghost predicate AtMostOneTaken(s: State) {
    && (s.holder.Free? || s.holder.Leaving? || s.holder.Looping? ==> s.pq.taken.Keys == {})
    && (InHand(s) || s.holder.Consumed? ==> s.pq.taken.Keys <= {s.holder.m.queueOffset})
  }

  /** Consumed so far: an ascending, downward-closed part of what was put. */
  ghost predicate LogOrdered(s: State) {
    && Ascending(s.log) && DownwardClosed(s.log, s.put)
    && (s.holder.Consumed? ==> s.log != [] && s.log[|s.log| - 1] == s.holder.m.queueOffset)
  }

  /** The message in hand is the least one not consumed; everything cached comes after it and after the log. */
  ghost predicate HandIsNext(s: State) {
    && (InHand(s) ==>
          var x := s.holder.m.queueOffset;
          && x in s.put && x !in s.log
          && (forall o :: o in s.put && o < x ==> o in s.log)
          && (forall o :: o in s.pq.cache ==> x < o))
    && (forall o, l :: o in s.pq.cache && l in s.log ==> l < o)
  }

  /** Messages that were cleared away before they were consumed. */
  ghost function Lost(s: State): set<int> {
    set o | o in s.put && o !in s.log && o !in s.pq.cache && !(InHand(s) && o == s.holder.m.queueOffset)
  }

  /** The holder can come to take another message. The drop flag is checked only when the lock is taken. */
  predicate WillTake(s: State) {
    s.holder.Looping? || ((s.holder.Took? || s.holder.Consumed?) && s.running)
  }

  /** The pull has passed its drop check and will put messages. */
  predicate AboutToPut(s: State) {
    s.pull.Entered? && s.pull.result.Found? && s.pull.result.msgs != []
  }

  /** Messages were cleared away while a pull stood between its drop check and its put, and the holder goes
      on taking: it can consume and commit past them. */
  ghost predicate Hazard(s: State) {
    s.pq.dropped && s.pq.cache.Keys == {} && Lost(s) != {} && AboutToPut(s) && WillTake(s)
  }

  ghost predicate Complete(s: State) {
    && (!s.pq.dropped ==>
          Lost(s) == {} && (InHand(s) || s.holder.Consumed? ==> s.pq.taken.Keys == {s.holder.m.queueOffset}))
    && (WillTake(s) ==> Lost(s) == {} || s.pq.cache.Keys == {})
  }

  ghost predicate CommittedSafe(s: State) {
    forall v :: v in s.committed ==> Safe(s, v)
  }

  ghost predicate Inv(cfg: P.Config, start: int, s: State) {
    Ranges(cfg, start, s) && AtMostOneTaken(s) && LogOrdered(s) && HandIsNext(s) && Complete(s) && CommittedSafe(s)
  }

  lemma InitInv(cfg: P.Config, start: int)
    requires 0 <= start
    ensures Inv(cfg, start, Init(start))
  {
  }

  lemma FoundKeeps(cfg: P.Config, start: int, s: State)
    requires Inv(cfg, start, s) && !Hazard(s) && s.pull.Entered? && s.pull.result.Found?
    ensures Inv(cfg, start, Apply(cfg, s, PullApply))
  {
    var msgs := s.pull.result.msgs;
    var t := Apply(cfg, s, PullApply);
    assert t.pq.cache.Keys == s.pq.cache.Keys + Offsets(msgs);
    forall o | o in t.pq.cache ensures t.pq.cache[o].queueOffset == o {
      var i := PutAllLastWins(s.pq.cache, msgs, o);
    }
    assert Lost(t) == Lost(s);
  }

  lemma NoneKeeps(cfg: P.Config, start: int, s: State)
    requires Inv(cfg, start, s) && s.pull.Entered? && s.pull.result.NoMessages?
    ensures Inv(cfg, start, Apply(cfg, s, PullApply))
  {
    assert Lost(Apply(cfg, s, PullApply)) == Lost(s);
  }

  lemma TakeKeeps(cfg: P.Config, start: int, s: State, a: Action)
    requires Inv(cfg, start, s) && Enabled(cfg, s, a) && a.TakeOne?
    ensures Inv(cfg, start, Apply(cfg, s, a))
  {
    TakeSingle(s.pq);
    var t := Apply(cfg, s, a);
    if s.pq.cache.Keys != {} {
      var k := Min(s.pq.cache.Keys);
      assert t.holder == Took(s.pq.cache[k]);
      forall o | o in s.put && o < k ensures o in s.log {
        assert o !in s.pq.cache && o !in Lost(s);
      }
    }
  }

  lemma DeliverKeeps(cfg: P.Config, start: int, s: State, a: Action)
    requires Inv(cfg, start, s) && Enabled(cfg, s, a) && a.Deliver?
    ensures Inv(cfg, start, Apply(cfg, s, a))
  {
    var t := Apply(cfg, s, a);
    var x := s.holder.m.queueOffset;
    if a.success {
      assert forall o :: o in t.log <==> o in s.log || o == x;
      forall i | 0 <= i < |s.log| ensures s.log[i] < x {
        assert s.log[i] in s.log;
      }
      forall v | v in t.committed ensures Safe(t, v) {
        assert Safe(s, v);
      }
    }
  }

  lemma PutBackKeeps(cfg: P.Config, start: int, s: State, a: Action)
    requires Inv(cfg, start, s) && Enabled(cfg, s, a) && a.PutBackOne?
    ensures Inv(cfg, start, Apply(cfg, s, a))
  {
    var t := Apply(cfg, s, a);
    var x := s.holder.m.queueOffset;
    var again := s.holder.m.(reconsumeTimes := s.holder.m.reconsumeTimes + 1);
    OffsetsPrefix([again], 0);
    assert [again][..0] == [] && [again][..1] == [again];
    assert PutAll(s.pq.cache, [again]) == s.pq.cache[x := again];
  }

  lemma CommitKeeps(cfg: P.Config, start: int, s: State, a: Action)
    requires Inv(cfg, start, s) && Enabled(cfg, s, a) && a.CommitOne?
    ensures Inv(cfg, start, Apply(cfg, s, a))
  {
    var t := Apply(cfg, s, a);
    var x := s.holder.m.queueOffset;
    assert x in s.log;
    if s.pq.taken.Keys != {} {
      assert Max(s.pq.taken.Keys) == x;
      assert Safe(t, x + 1);
    }
  }

  lemma ClearKeeps(cfg: P.Config, start: int, s: State, a: Action)
    requires Inv(cfg, start, s) && Enabled(cfg, s, a) && (a.ClearAll? || (a.Acquire? && s.pq.dropped))
    ensures Inv(cfg, start, Apply(cfg, s, a))
  {
  }

  lemma OtherKeeps(cfg: P.Config, start: int, s: State, a: Action)
    requires Inv(cfg, start, s) && Enabled(cfg, s, a)
    requires a.PullReply? || a.PullPost? || a.PullPublish? || (a.Acquire? && !s.pq.dropped) || a.GiveUp? || a.Rest?
      || a.Leave? || a.SetDropped? || a.Shutdown?
    ensures Inv(cfg, start, Apply(cfg, s, a))
  {
    assert Lost(Apply(cfg, s, a)) == Lost(s);
  }

  lemma InvStep(cfg: P.Config, start: int, s: State, a: Action)
    requires Inv(cfg, start, s) && !Hazard(s) && Enabled(cfg, s, a)
    ensures Inv(cfg, start, Apply(cfg, s, a))
  {
    match a
    case PullApply =>
      if s.pull.result.Found? {
        FoundKeeps(cfg, start, s);
      } else {
        NoneKeeps(cfg, start, s);
      }
    case TakeOne => TakeKeeps(cfg, start, s, a);
    case Deliver(_) => DeliverKeeps(cfg, start, s, a);
    case PutBackOne => PutBackKeeps(cfg, start, s, a);
    case CommitOne => CommitKeeps(cfg, start, s, a);
    case _ =>
      if a.ClearAll? || (a.Acquire? && s.pq.dropped) {
        ClearKeeps(cfg, start, s, a);
      } else {
        OtherKeeps(cfg, start, s, a);
      }
  }

  /** Every delivery comes after the successful delivery of each smaller offset put by now. */
  ghost predicate DeliveredInOrder(s: State) {
    && (forall j :: 0 <= j < |s.deliveries| ==> s.deliveries[j].offset < s.pq.nextOffset)
    && (forall o :: o in s.log <==> exists k :: 0 <= k < |s.deliveries| && s.deliveries[k] == Delivery(o, true))
    && SmallerFirst(s.deliveries, s.put)
  }

  ghost predicate SucceededBefore(deliveries: seq<Delivery>, j: nat, o: int)
    requires j <= |deliveries|
  {
    exists k :: 0 <= k < j && deliveries[k] == Delivery(o, true)
  }

  /** No delivery precedes the success of a smaller offset: in particular a failed message is delivered
      again, until it succeeds, before any larger one. */
  ghost predicate SmallerFirst(deliveries: seq<Delivery>, put: set<int>) {
    forall j, o :: 0 <= j < |deliveries| && o in put && o < deliveries[j].offset ==> SucceededBefore(deliveries, j, o)
  }

  lemma DeliverInOrder(cfg: P.Config, start: int, s: State, a: Action)
    requires Inv(cfg, start, s) && DeliveredInOrder(s) && Enabled(cfg, s, a) && a.Deliver?
    ensures DeliveredInOrder(Apply(cfg, s, a))
  {
    var t := Apply(cfg, s, a);
    var n, x := |s.deliveries|, s.holder.m.queueOffset;
    assert forall k :: 0 <= k < n ==> t.deliveries[k] == s.deliveries[k];
    assert t.deliveries[n] == Delivery(x, a.success);
    forall o ensures o in t.log <==> exists k :: 0 <= k <= n && t.deliveries[k] == Delivery(o, true) {
      if o in s.log {
        var k :| 0 <= k < n && s.deliveries[k] == Delivery(o, true);
        assert t.deliveries[k] == Delivery(o, true);
      }
    }
    forall j, o | 0 <= j <= n && o in t.put && o < t.deliveries[j].offset ensures SucceededBefore(t.deliveries, j, o) {
      if j < n {
        assert SucceededBefore(s.deliveries, j, o);
        var k :| 0 <= k < j && s.deliveries[k] == Delivery(o, true);
        assert t.deliveries[k] == Delivery(o, true);
      } else {
        assert o in s.log;
        var k :| 0 <= k < n && s.deliveries[k] == Delivery(o, true);
        assert t.deliveries[k] == Delivery(o, true);
      }
    }
  }

  lemma DeliveredInOrderStep(cfg: P.Config, start: int, s: State, a: Action)
    requires Inv(cfg, start, s) && DeliveredInOrder(s) && Enabled(cfg, s, a)
    ensures DeliveredInOrder(Apply(cfg, s, a))
  {
    if a.Deliver? {
      DeliverInOrder(cfg, start, s, a);
    } else {
      var t := Apply(cfg, s, a);
      assert t.deliveries == s.deliveries && t.log == s.log && s.pq.nextOffset <= t.pq.nextOffset;
      assert forall o :: o in t.put && o < s.pq.nextOffset ==> o in s.put;
    }
  }

  lemma {:induction false} RunInv(cfg: P.Config, start: int, states: seq<State>, acts: seq<Action>, k: nat)
    requires 0 <= start && IsRun(cfg, start, states, acts) && k < |states|
    requires forall j :: 0 <= j < |states| ==> !Hazard(states[j])
    ensures Inv(cfg, start, states[k]) && DeliveredInOrder(states[k])
  {
    if k == 0 {
      InitInv(cfg, start);
    } else {
      RunInv(cfg, start, states, acts, k - 1);
      InvStep(cfg, start, states[k - 1], acts[k - 1]);
      DeliveredInOrderStep(cfg, start, states[k - 1], acts[k - 1]);
    }
  }

  /** Orderly delivery, in every run without a hazard: the offsets consumed successfully are, in order, a
      prefix of the offsets put in ascending order; at most one message is taken at a time; a message is
      delivered only after every smaller one put so far has succeeded, so a failed message is redelivered
      until it succeeds before any larger one; and every value stored from commit() has everything below it
      consumed. */
  lemma OrderlyDelivery(cfg: P.Config, start: int, states: seq<State>, acts: seq<Action>, k: nat)
    requires 0 <= start && IsRun(cfg, start, states, acts) && k < |states|
    requires forall j :: 0 <= j < |states| ==> !Hazard(states[j])
    ensures states[k].log <= Sorted(states[k].put)
    ensures |states[k].pq.taken| <= 1
    ensures SmallerFirst(states[k].deliveries, states[k].put)
    ensures forall v :: v in states[k].committed ==> Safe(states[k], v)
  {
    RunInv(cfg, start, states, acts, k);
    var s := states[k];
    AscendingPrefix(s.log, s.put);
    TakenCount(s);
  }

  lemma TakenCount(s: State)
    requires AtMostOneTaken(s)
    ensures |s.pq.taken| <= 1
  {
    if s.holder.Free? || s.holder.Leaving? || s.holder.Looping? {
      assert s.pq.taken == map[];
    } else {
      var x := s.holder.m.queueOffset;
      assert s.pq.taken.Keys == {} || s.pq.taken.Keys == {x};
      assert |s.pq.taken| == |s.pq.taken.Keys|;
    }
  }

  /** What commit() stores, in every run without a hazard: it is one past the message just consumed, the last
      of the log, whenever the taken map still holds it, as it does unless the request was dropped. */
  lemma CommitsNext(cfg: P.Config, start: int, states: seq<State>, acts: seq<Action>, k: nat)
    requires 0 <= start && IsRun(cfg, start, states, acts) && k < |acts| && acts[k].CommitOne?
    requires forall j :: 0 <= j < |states| ==> !Hazard(states[j])
    ensures var s, t := states[k], states[k + 1];
      && s.log != []
      && t.pq.taken.Keys == {}
      && (s.pq.taken.Keys != {} ==> t.committed == s.committed + [s.log[|s.log| - 1] + 1])
      && (s.pq.taken.Keys == {} ==> t.committed == s.committed && s.pq.dropped)
  {
    RunInv(cfg, start, states, acts, k);
    var s := states[k];
    if s.pq.taken.Keys != {} {
      var x, taken := s.holder.m.queueOffset, Max(s.pq.taken.Keys);
      assert taken in s.pq.taken.Keys && s.pq.taken.Keys <= {x};
      assert taken in {x};
      assert x in s.log && x in s.put;
    }
  }

  // ---- What pulls publish ----

  /** The pull is applied and will store its next offset. */
  predicate PublishStep(s: State, a: Action) {
    a.PullApply? && s.pull.Entered? && s.pull.result.NoMessages? && s.pull.result.nextBegin > 0 && s.pq.cache.Keys == {}
  }

  /** A pull that sees the cache empty reads only the cache, neither the taken message nor what was cleared
      away. What it will store is safe exactly when no message is taken and unconsumed, and none was lost. */
  lemma PublishSafeExactly(cfg: P.Config, start: int, s: State, a: Action)
    requires Inv(cfg, start, s) && Enabled(cfg, s, a) && PublishStep(s, a)
    ensures var t := Apply(cfg, s, a); t.pull.Publishing? && (Safe(t, t.pull.offset) <==> !InHand(s) && Lost(s) == {})
  {
    var t := Apply(cfg, s, a);
    if InHand(s) {
      var x := s.holder.m.queueOffset;
      assert x in t.put && x < t.pull.offset && x !in t.log;
    } else if Lost(s) != {} {
      var o := Pick(Lost(s));
      assert o in t.put && o < t.pull.offset && o !in t.log;
    } else {
      assert forall o :: o in s.put && o !in s.log ==> o in Lost(s);
    }
  }

  lemma SafeStep(cfg: P.Config, start: int, s: State, a: Action, v: int)
    requires Ranges(cfg, start, s) && Enabled(cfg, s, a) && Safe(s, v)
    ensures Safe(Apply(cfg, s, a), v)
  {
    var t := Apply(cfg, s, a);
    assert forall o :: o in t.put && o < s.pq.nextOffset ==> o in s.put;
    assert forall o :: o in s.log ==> o in t.log;
  }

  /** Everything a pull has stored, or is about to store, is safe. */
  ghost predicate PublishedSafe(s: State) {
    && (forall v :: v in s.published ==> Safe(s, v))
    && (s.pull.Publishing? ==> Safe(s, s.pull.offset))
  }

  lemma PublishedSafeStep(cfg: P.Config, start: int, s: State, a: Action)
    requires Inv(cfg, start, s) && Enabled(cfg, s, a) && PublishedSafe(s)
    requires PublishStep(s, a) ==> !InHand(s) && Lost(s) == {}
    ensures PublishedSafe(Apply(cfg, s, a))
  {
    var t := Apply(cfg, s, a);
    forall v | Safe(s, v) ensures Safe(t, v) {
      SafeStep(cfg, start, s, a, v);
    }
    if PublishStep(s, a) {
      PublishSafeExactly(cfg, start, s, a);
    }
  }

  lemma {:induction false} PublishedSafeUpTo(cfg: P.Config, start: int, states: seq<State>, acts: seq<Action>, k: nat)
    requires 0 <= start && IsRun(cfg, start, states, acts) && k < |states|
    requires forall j :: 0 <= j < |states| ==> !Hazard(states[j])
    requires forall i :: 0 <= i < |acts| && PublishStep(states[i], acts[i]) ==>
      !InHand(states[i]) && Lost(states[i]) == {}
    ensures PublishedSafe(states[k])
  {
    if k == 0 {
    } else {
      PublishedSafeUpTo(cfg, start, states, acts, k - 1);
      RunInv(cfg, start, states, acts, k - 1);
      PublishedSafeStep(cfg, start, states[k - 1], acts[k - 1]);
    }
  }

  /** Exactly when what an orderly consumer's pulls store over a run is safe: no pull computed an offset from
      the empty cache while a taken message was still to be consumed, or after messages were cleared away. */
  lemma PublishedSafeIff(cfg: P.Config, start: int, states: seq<State>, acts: seq<Action>)
    requires 0 <= start && IsRun(cfg, start, states, acts)
    requires forall j :: 0 <= j < |states| ==> !Hazard(states[j])
    ensures (forall k :: 0 <= k < |states| ==> PublishedSafe(states[k]))
       <==> (forall i :: 0 <= i < |acts| && PublishStep(states[i], acts[i]) ==>
               !InHand(states[i]) && Lost(states[i]) == {})
  {
    if forall i :: 0 <= i < |acts| && PublishStep(states[i], acts[i]) ==> !InHand(states[i]) && Lost(states[i]) == {} {
      forall k | 0 <= k < |states| ensures PublishedSafe(states[k]) {
        PublishedSafeUpTo(cfg, start, states, acts, k);
      }
    } else {
      var i :| 0 <= i < |acts| && PublishStep(states[i], acts[i]) && (InHand(states[i]) || Lost(states[i]) != {});
      RunInv(cfg, start, states, acts, i);
      PublishSafeExactly(cfg, start, states[i], acts[i]);
      assert !PublishedSafe(states[i + 1]);
    }
  }

  // ---- Dropping ----

  /** Dropped and cleared, and past the last use of the cache by a pull; at most a message that failed
      meanwhile has been put back, with nobody to take it. */
  ghost predicate Fenced(s: State) {
    s.pq.dropped && s.pq.taken.Keys == {} && (s.pq.cache.Keys == {} || !WillTake(s)) && !s.pull.Entered?
  }

  lemma FenceStep(cfg: P.Config, s: State, a: Action)
    requires Fenced(s) && Enabled(cfg, s, a)
    ensures var t := Apply(cfg, s, a);
      && Fenced(t) && t.committed == s.committed
      && (t.pull.Publishing? ==> t.pull == s.pull)
      && (forall v :: v in t.published ==> v in s.published || s.pull == Publishing(v))
  {
    if a.TakeOne? {
      assert Take(s.pq, 1) == (s.pq, []);
    }
  }

  /** Dropping fences late commits in the orderly service too: once a PullRequest is dropped and cleared and
      its pull is past the cache, commit() returns -1 to a consume still running, no run commits another
      offset, and a pull stores at most the offset it had computed before. */
  lemma {:induction false} DropFence(cfg: P.Config, states: seq<State>, acts: seq<Action>, i: nat, k: nat)
    requires Path(cfg, states, acts) && i <= k < |states| && Fenced(states[i])
    ensures Fenced(states[k]) && Commit(states[k].pq).1 == -1
    ensures states[k].committed == states[i].committed
    ensures forall v :: v in states[k].published ==> v in states[i].published || states[i].pull == Publishing(v)
    ensures states[k].pull.Publishing? ==> states[k].pull == states[i].pull
    decreases k
  {
    if i == k {
    } else {
      DropFence(cfg, states, acts, i, k - 1);
      FenceStep(cfg, states[k - 1], acts[k - 1]);
    }
  }
}
