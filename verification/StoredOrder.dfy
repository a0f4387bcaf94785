/** In which order offsets are stored. Offsets are computed in ascending order; they are stored in that order
    exactly as long as no two different ones wait to be stored at the same time. */
module StoredOrder {
  import opened OrderedMap
  import opened QueueProtocol
  import opened CommitSafety

  /** v has been computed: it was stored, or it is about to be. */
  ghost predicate Computed(s: State, v: int) {
    v in s.written || Pending(s, v)
  }

  /** Nothing computed so far is above what could be computed from now on. */
  ghost predicate Floor(s: State) {
    forall v :: Computed(s, v) ==> AtMost(s, v)
  }

  ghost predicate AtMost(s: State, v: int) {
    v <= s.pq.nextOffset && forall o :: o in s.pq.cache ==> v <= o
  }

  predicate IsStore(a: Action) {
    a.TaskCommit? || a.PullPublish?
  }

  // ---- Offsets are computed in ascending order ----

  lemma PullFloor(cfg: Config, start: int, s: State, i: nat, v: int)
    requires Ranges(cfg, start, s) && OnePull(cfg, s) && Floor(s) && Enabled(cfg, s, PullApply(i))
    requires var t := Apply(cfg, s, PullApply(i)); Computed(t, v)
    ensures AtMost(Apply(cfg, s, PullApply(i)), v)
    ensures Pending(Apply(cfg, s, PullApply(i)), v) && !Pending(s, v) ==> forall w :: Computed(s, w) ==> w <= v
  {
    if Computed(s, v) {
      assert AtMost(s, v);
    }
  }

  lemma RemoveFloor(cfg: Config, start: int, s: State, id: nat, v: int)
    requires Ranges(cfg, start, s) && Floor(s) && Enabled(cfg, s, TaskRemove(id))
    requires var t := Apply(cfg, s, TaskRemove(id)); Computed(t, v)
    ensures AtMost(Apply(cfg, s, TaskRemove(id)), v)
    ensures Pending(Apply(cfg, s, TaskRemove(id)), v) && !Pending(s, v) ==> forall w :: Computed(s, w) ==> w <= v
  {
    var t := Apply(cfg, s, TaskRemove(id));
    if Computed(s, v) {
      assert AtMost(s, v);
    }
    if Pending(t, v) && !Pending(s, v) {
      assert t.tasks[id] == Committing(v, s.tasks[id].retry);
      assert s.pq.cache.Keys != {};
      var o := Pick(s.pq.cache.Keys);
      assert o in s.put;
      forall w | Computed(s, w) ensures w <= v {
        assert AtMost(s, w);
      }
    }
  }

  lemma OtherFloor(cfg: Config, s: State, a: Action, v: int)
    requires OnePull(cfg, s) && Floor(s) && Enabled(cfg, s, a) && !a.PullApply? && !a.TaskRemove?
    requires Computed(Apply(cfg, s, a), v)
    ensures AtMost(Apply(cfg, s, a), v) && Computed(s, v)
    ensures Pending(Apply(cfg, s, a), v) ==> Pending(s, v)
  {
    var t := Apply(cfg, s, a);
    StepFrame(cfg, s, a);
    if v in t.written && v !in s.written {
      if a.TaskCommit? {
        assert Pending(s, s.tasks[a.id].offset);
      } else {
        assert Pending(s, s.pulls[a.i].offset);
      }
    }
    if id :| id in t.tasks && t.tasks[id].Committing? && t.tasks[id].offset == v {
      assert id in s.tasks && s.tasks[id] == t.tasks[id];
    }
    assert Computed(s, v);
    assert AtMost(s, v);
  }

  /** Whatever a step computes is at least everything computed before it. */
  lemma FloorStep(cfg: Config, start: int, s: State, a: Action, v: int)
    requires Ranges(cfg, start, s) && OnePull(cfg, s) && Floor(s) && Enabled(cfg, s, a)
    requires Computed(Apply(cfg, s, a), v)
    ensures AtMost(Apply(cfg, s, a), v)
    ensures Pending(Apply(cfg, s, a), v) && !Pending(s, v) ==> forall w :: Computed(s, w) ==> w <= v
  {
    match a
    case PullApply(i) => PullFloor(cfg, start, s, i, v);
    case TaskRemove(id) => RemoveFloor(cfg, start, s, id, v);
    case _ => OtherFloor(cfg, s, a, v);
  }

  // ---- And stored in that order, unless two wait at once ----

  ghost predicate NonDecreasing(list: seq<int>) {
    forall i, j :: 0 <= i < j < |list| ==> list[i] <= list[j]
  }

  /** No two different values wait to be stored. */
  ghost predicate OneWaiting(s: State) {
    forall v, w :: Pending(s, v) && Pending(s, w) ==> v == w
  }

  /** Stored in order so far, and nothing that waits is below what was stored. */
  ghost predicate InOrder(s: State) {
    NonDecreasing(s.written) && forall v, w :: Pending(s, v) && w in s.written ==> w <= v
  }

  ghost predicate AllStores(acts: seq<Action>) {
    forall k :: 0 <= k < |acts| ==> IsStore(acts[k])
  }

  /** However the waiting values are stored, the stored offset does not decrease. */
  ghost predicate DrainsInOrder(cfg: Config, s: State) {
    forall acts :: CanRun(cfg, s, acts) && AllStores(acts) ==> NonDecreasing(Run(cfg, s, acts).written)
  }

  lemma StoreStep(cfg: Config, s: State, a: Action)
    requires OnePull(cfg, s) && Enabled(cfg, s, a) && IsStore(a)
    ensures var t := Apply(cfg, s, a);
      && OnePull(cfg, t)
      && (exists v :: Pending(s, v) && t.written == s.written + [v])
      && (forall v :: Pending(t, v) ==> Pending(s, v))
  {
    OnePullStep(cfg, s, a);
    var t := Apply(cfg, s, a);
    if a.TaskCommit? {
      assert Pending(s, s.tasks[a.id].offset);
    } else {
      assert Pending(s, s.pulls[0].offset);
    }
    forall v | Pending(t, v) ensures Pending(s, v) {
      if id :| id in t.tasks && t.tasks[id].Committing? && t.tasks[id].offset == v {
        assert id in s.tasks && s.tasks[id] == t.tasks[id];
      }
    }
  }

  lemma AppendInOrder(list: seq<int>, v: int)
    requires NonDecreasing(list) && forall w :: w in list ==> w <= v
    ensures NonDecreasing(list + [v])
  {
    var longer := list + [v];
    forall i, j | 0 <= i < j < |longer| ensures longer[i] <= longer[j] {
      assert longer[i] == list[i] && list[i] in list;
    }
  }

  lemma StoreKeepsOrder(cfg: Config, s: State, a: Action)
    requires OnePull(cfg, s) && Enabled(cfg, s, a) && IsStore(a) && OneWaiting(s) && InOrder(s)
    ensures var t := Apply(cfg, s, a); OneWaiting(t) && InOrder(t)
  {
    StoreStep(cfg, s, a);
    var t := Apply(cfg, s, a);
    var v :| Pending(s, v) && t.written == s.written + [v];
    AppendInOrder(s.written, v);
  }

  /** One more step of any run keeps the order. */
  lemma OrderStep(cfg: Config, start: int, s: State, a: Action)
    requires Ranges(cfg, start, s) && OnePull(cfg, s) && Floor(s) && Enabled(cfg, s, a)
    requires OneWaiting(s) && InOrder(s)
    ensures InOrder(Apply(cfg, s, a))
  {
    if IsStore(a) {
      StoreKeepsOrder(cfg, s, a);
    } else {
      var t := Apply(cfg, s, a);
      assert t.written == s.written;
      forall v, w | Pending(t, v) && w in t.written ensures w <= v {
        assert Computed(s, w) && Computed(t, v);
        FloorStep(cfg, start, s, a, v);
      }
    }
  }

  /** Two different waiting values can be stored in decreasing order. */
  lemma TwoWaitingDecrease(cfg: Config, s: State, low: int, high: int)
    requires OnePull(cfg, s) && Pending(s, low) && Pending(s, high) && low < high
    ensures !DrainsInOrder(cfg, s)
  {
    var a := StoreOf(cfg, s, high);
    var t := Apply(cfg, s, a);
    OnePullStep(cfg, s, a);
    OtherStillWaits(cfg, s, a, low, high);
    var b := StoreOf(cfg, t, low);
    Chain2(cfg, s, a, b);
    var u := Run(cfg, s, [a, b]);
    var n := |s.written|;
    assert u.written[n] == high && u.written[n + 1] == low;
    assert AllStores([a, b]);
  }

  lemma StoreOf(cfg: Config, s: State, v: int) returns (a: Action)
    requires OnePull(cfg, s) && Pending(s, v)
    ensures Enabled(cfg, s, a) && IsStore(a) && Apply(cfg, s, a).written == s.written + [v]
    ensures match a
      case TaskCommit(id) => s.tasks[id].offset == v
      case PullPublish(i) => s.pulls[i].offset == v
      case _ => true
  {
    if id :| id in s.tasks && s.tasks[id].Committing? && s.tasks[id].offset == v {
      a := TaskCommit(id);
    } else {
      a := PullPublish(0);
    }
  }

  lemma OtherStillWaits(cfg: Config, s: State, a: Action, low: int, high: int)
    requires Enabled(cfg, s, a) && IsStore(a) && OnePull(cfg, s) && Pending(s, low) && low != high
    requires match a
      case TaskCommit(id) => s.tasks[id].offset == high
      case PullPublish(i) => s.pulls[i].offset == high
      case _ => true
    ensures Pending(Apply(cfg, s, a), low)
  {
    var t := Apply(cfg, s, a);
    if id :| id in s.tasks && s.tasks[id].Committing? && s.tasks[id].offset == low {
      assert id in t.tasks && t.tasks[id] == s.tasks[id];
    } else {
      assert t.pulls == s.pulls;
    }
  }

  lemma {:induction false} DrainKeepsOrder(cfg: Config, s: State, acts: seq<Action>)
    requires OnePull(cfg, s) && OneWaiting(s) && InOrder(s) && CanRun(cfg, s, acts) && AllStores(acts)
    ensures var t := Run(cfg, s, acts); OnePull(cfg, t) && OneWaiting(t) && InOrder(t)
  {
    if acts == [] {
    } else {
      var n := |acts| - 1;
      CanRunSnoc(cfg, s, acts);
      DrainKeepsOrder(cfg, s, acts[..n]);
      OnePullStep(cfg, Run(cfg, s, acts[..n]), acts[n]);
      StoreKeepsOrder(cfg, Run(cfg, s, acts[..n]), acts[n]);
    }
  }

  /** From a state in order, every way to store the waiting values keeps the order if and only if they are
      all equal. */
  lemma DrainsExactly(cfg: Config, s: State)
    requires OnePull(cfg, s) && InOrder(s)
    ensures DrainsInOrder(cfg, s) <==> OneWaiting(s)
  {
    if OneWaiting(s) {
      forall acts | CanRun(cfg, s, acts) && AllStores(acts) ensures NonDecreasing(Run(cfg, s, acts).written) {
        DrainKeepsOrder(cfg, s, acts);
      }
    } else {
      var v, w :| Pending(s, v) && Pending(s, w) && v < w;
      TwoWaitingDecrease(cfg, s, v, w);
    }
  }

  lemma {:induction false} RunFloor(cfg: Config, start: int, acts: seq<Action>)
    requires 0 <= start && CanRun(cfg, Init(start), acts)
    ensures var s := Run(cfg, Init(start), acts); Ranges(cfg, start, s) && OnePull(cfg, s) && Floor(s)
  {
    if acts == [] {
      InitInv(cfg, start);
    } else {
      var n := |acts| - 1;
      CanRunSnoc(cfg, Init(start), acts);
      RunFloor(cfg, start, acts[..n]);
      var s := Run(cfg, Init(start), acts[..n]);
      RangesStep(cfg, start, s, acts[n]);
      OnePullStep(cfg, s, acts[n]);
      var t := Apply(cfg, s, acts[n]);
      forall v | Computed(t, v) ensures AtMost(t, v) {
        FloorStep(cfg, start, s, acts[n], v);
      }
    }
  }

  /** Offsets are computed in ascending order: in every run, whatever removeMessage or an empty pull computes
      next is at least every value stored or waiting to be stored. */
  lemma ComputedInOrder(cfg: Config, start: int, acts: seq<Action>, a: Action, v: int)
    requires 0 <= start && CanRun(cfg, Init(start), acts) && Enabled(cfg, Run(cfg, Init(start), acts), a)
    requires var s := Run(cfg, Init(start), acts); Pending(Apply(cfg, s, a), v) && !Pending(s, v)
    ensures forall w :: Computed(Run(cfg, Init(start), acts), w) ==> w <= v
  {
    RunFloor(cfg, start, acts);
    FloorStep(cfg, start, Run(cfg, Init(start), acts), a, v);
  }

  lemma {:induction false} RunInOrder(cfg: Config, start: int, acts: seq<Action>)
    requires 0 <= start && CanRun(cfg, Init(start), acts)
    requires forall k :: 0 <= k < |acts| ==> OneWaiting(Run(cfg, Init(start), acts[..k]))
    ensures InOrder(Run(cfg, Init(start), acts))
  {
    if acts == [] {
    } else {
      var n := |acts| - 1;
      CanRunSnoc(cfg, Init(start), acts);
      forall k | 0 <= k < n ensures OneWaiting(Run(cfg, Init(start), acts[..n][..k])) {
        assert acts[..n][..k] == acts[..k];
      }
      RunInOrder(cfg, start, acts[..n]);
      RunFloor(cfg, start, acts[..n]);
      OrderStep(cfg, start, Run(cfg, Init(start), acts[..n]), acts[n]);
    }
  }

  lemma CanRunPrefix(cfg: Config, s: State, acts: seq<Action>, k: nat)
    requires CanRun(cfg, s, acts) && k <= |acts|
    ensures CanRun(cfg, s, acts[..k])
  {
    forall j | 0 <= j < k ensures Enabled(cfg, Run(cfg, s, acts[..k][..j]), acts[..k][j]) {
      assert acts[..k][..j] == acts[..j];
    }
  }

  /** Exactly when the stored offset never decreases. Along a run, and however the values waiting at any of
      its points are then stored, offsets are stored in order if and only if at no point two different ones
      wait to be stored at once. In particular they are if each is stored before the next is computed. */
  lemma StoredInOrderExactly(cfg: Config, start: int, acts: seq<Action>)
    requires 0 <= start && CanRun(cfg, Init(start), acts)
    ensures (forall k :: 0 <= k <= |acts| ==> DrainsInOrder(cfg, Run(cfg, Init(start), acts[..k])))
       <==> (forall k :: 0 <= k <= |acts| ==> OneWaiting(Run(cfg, Init(start), acts[..k])))
  {
    forall k | 0 <= k <= |acts| ensures OnePull(cfg, Run(cfg, Init(start), acts[..k])) {
      CanRunPrefix(cfg, Init(start), acts, k);
      RunFloor(cfg, start, acts[..k]);
    }
    if forall k :: 0 <= k <= |acts| ==> OneWaiting(Run(cfg, Init(start), acts[..k])) {
      forall k | 0 <= k <= |acts| ensures DrainsInOrder(cfg, Run(cfg, Init(start), acts[..k])) {
        CanRunPrefix(cfg, Init(start), acts, k);
        forall j | 0 <= j < k ensures OneWaiting(Run(cfg, Init(start), acts[..k][..j])) {
          assert acts[..k][..j] == acts[..j];
        }
        RunInOrder(cfg, start, acts[..k]);
        DrainsExactly(cfg, Run(cfg, Init(start), acts[..k]));
      }
    } else {
      var k :| 0 <= k <= |acts| && !OneWaiting(Run(cfg, Init(start), acts[..k]));
      var s := Run(cfg, Init(start), acts[..k]);
      var v, w :| Pending(s, v) && Pending(s, w) && v < w;
      TwoWaitingDecrease(cfg, s, v, w);
    }
  }
}
