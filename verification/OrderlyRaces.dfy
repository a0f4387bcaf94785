/** What can go wrong for an orderly consumer: clears that race with a pull, and tasks that give up too soon. */
module OrderlyRaces {
  import opened OrderedMap
  import opened ProcessQueue
  import opened OrderlyProtocol
  import opened OrderlySafety
  import opened SingleMessage

  /** t can be reached from s. */
  ghost predicate Reaches(cfg: P.Config, s: State, t: State) {
    exists states, acts :: Path(cfg, states, acts) && states[0] == s && states[|acts|] == t
  }

  lemma ReachSelf(cfg: P.Config, s: State)
    ensures Reaches(cfg, s, s)
  {
    assert Path(cfg, [s], []) && [s][0] == s;
  }

  lemma PathSnoc(cfg: P.Config, states: seq<State>, acts: seq<Action>, a: Action)
    requires Path(cfg, states, acts) && Enabled(cfg, states[|acts|], a)
    ensures Path(cfg, states + [Apply(cfg, states[|acts|], a)], acts + [a])
  {
  }

  lemma ReachStep(cfg: P.Config, s: State, t: State, a: Action)
    requires Reaches(cfg, s, t) && Enabled(cfg, t, a)
    ensures Reaches(cfg, s, Apply(cfg, t, a))
  {
    var states, acts :| Path(cfg, states, acts) && states[0] == s && states[|acts|] == t;
    PathSnoc(cfg, states, acts, a);
    var longer := states + [Apply(cfg, t, a)];
    assert longer[0] == s && longer[|acts + [a]|] == Apply(cfg, t, a);
  }

  // ---- A clear between a pull's drop check and its put ----

  lemma CommitHazard(cfg: P.Config, start: int, s: State, t: State)
    requires Reaches(cfg, s, t) && Ranges(cfg, start, t) && Hazard(t) && t.holder.Consumed?
    ensures var u := Apply(cfg, t, CommitOne);
      Reaches(cfg, s, u) && Ranges(cfg, start, u) && Hazard(u) && u.holder.Looping?
  {
    ReachStep(cfg, s, t, CommitOne);
    assert Lost(Apply(cfg, t, CommitOne)) == Lost(t);
  }

  /** A holder that will take another message gets there, and the hazard stays. */
  lemma ToLooping(cfg: P.Config, start: int, s: State) returns (t: State)
    requires Ranges(cfg, start, s) && Hazard(s)
    ensures Reaches(cfg, s, t) && Ranges(cfg, start, t) && Hazard(t) && t.holder.Looping?
  {
    ReachSelf(cfg, s);
    t := s;
    if s.holder.Took? {
      ReachStep(cfg, s, s, Deliver(true));
      t := Apply(cfg, s, Deliver(true));
      var o := Pick(Lost(s));
      assert o in Lost(t);
    }
    if t.holder.Consumed? {
      CommitHazard(cfg, start, s, t);
      t := Apply(cfg, t, CommitOne);
    }
  }

  /** The put makes a later message the least one cached. */
  lemma PutPast(cfg: P.Config, start: int, t: State, o: int)
    requires Ranges(cfg, start, t) && Hazard(t) && t.holder.Looping? && o in Lost(t)
    ensures var u := Apply(cfg, t, PullApply);
      && u.holder.Looping? && u.pq.cache.Keys != {} && WellKeyed(u.pq.cache) && o in u.put && o !in u.log
      && 0 <= o < Min(u.pq.cache.Keys)
  {
    var msgs := t.pull.result.msgs;
    var u := Apply(cfg, t, PullApply);
    assert u.pq.cache.Keys == Offsets(msgs);
    OffsetsMember(msgs, msgs[0].queueOffset);
    forall k | k in u.pq.cache ensures u.pq.cache[k].queueOffset == k {
      var i := PutAllLastWins(t.pq.cache, msgs, k);
    }
  }

  /** Delivering and committing a taken message stores an offset past everything smaller. */
  lemma DeliverPast(cfg: P.Config, s: State, u: State, o: int) returns (t: State, v: int)
    requires Reaches(cfg, s, u) && u.holder.Took? && u.holder.m.queueOffset in u.pq.taken
    requires o in u.put && o !in u.log && 0 <= o < u.holder.m.queueOffset
    ensures Reaches(cfg, s, t) && v in t.committed && !Safe(t, v)
  {
    ReachStep(cfg, s, u, Deliver(true));
    var done := Apply(cfg, u, Deliver(true));
    ReachStep(cfg, s, done, CommitOne);
    t, v := Apply(cfg, done, CommitOne), Max(done.pq.taken.Keys) + 1;
    assert t.committed == u.committed + [v];
    assert o in t.put && o < v && o !in t.log;
  }

  /** Taking, delivering and committing the least cached message does. */
  lemma CommitPast(cfg: P.Config, s: State, u: State, o: int) returns (t: State, v: int)
    requires Reaches(cfg, s, u) && u.holder.Looping? && u.pq.cache.Keys != {} && WellKeyed(u.pq.cache)
    requires o in u.put && o !in u.log && 0 <= o < Min(u.pq.cache.Keys)
    ensures Reaches(cfg, s, t) && v in t.committed && !Safe(t, v)
  {
    TakeSingle(u.pq);
    ReachStep(cfg, s, u, TakeOne);
    t, v := DeliverPast(cfg, s, Apply(cfg, u, TakeOne), o);
  }

  /** Every hazard is real: some continuation commits an offset past a message that was cleared away. */
  lemma HazardLoses(cfg: P.Config, start: int, s: State) returns (t: State, v: int)
    requires Ranges(cfg, start, s) && Hazard(s)
    ensures Reaches(cfg, s, t) && v in t.committed && !Safe(t, v)
  {
    var r := ToLooping(cfg, start, s);
    var o := Pick(Lost(r));
    PutPast(cfg, start, r, o);
    ReachStep(cfg, s, r, PullApply);
    t, v := CommitPast(cfg, s, Apply(cfg, r, PullApply), o);
  }

  // ---- Exactly when a clear is safe ----

  /** The step clears a dropped request: the rebalancer, or a task that takes the lock and finds it dropped. */
  predicate Clears(s: State, a: Action) {
    s.pq.dropped && (a.ClearAll? || a.Acquire?)
  }

  function Unfinished(s: State): set<int> {
    set o | o in s.put && o !in s.log
  }

  function InHandOffset(s: State): set<int> {
    if InHand(s) then {s.holder.m.queueOffset} else {}
  }

  /** The clear meets a pull past its drop check that will store an offset while something is unfinished, or
      that will put messages for a holder that goes on, while more than the message in hand is unfinished. */
  predicate ClearRaces(s: State) {
    && s.pull.Entered?
    && match s.pull.result
       case NoMessages(nextBegin) => nextBegin > 0 && Unfinished(s) != {}
       case Found(msgs, _) => msgs != [] && WillTake(s) && Unfinished(s) - InHandOffset(s) != {}
  }

  /** Everything stored, or about to be, is safe. */
  ghost predicate StoredSafe(s: State) {
    CommittedSafe(s) && PublishedSafe(s)
  }

  /** Dropped, and the pull can do no harm any more. */
  ghost predicate Past(s: State) {
    && s.pq.dropped
    && (s.pull.Entered? && s.pull.result.NoMessages? && s.pull.result.nextBegin > 0 ==> Unfinished(s) == {})
    && (AboutToPut(s) && WillTake(s) ==> Lost(s) == {} && s.pq.cache.Keys == {})
  }

  lemma LeftUnfinished(s: State)
    requires HandIsNext(s)
    ensures InHandOffset(s) <= Unfinished(s) && Lost(s) <= Unfinished(s)
  {
  }

  lemma PastStep(cfg: P.Config, start: int, s: State, a: Action)
    requires Inv(cfg, start, s) && PublishedSafe(s) && Past(s) && Enabled(cfg, s, a)
    ensures var t := Apply(cfg, s, a); Inv(cfg, start, t) && PublishedSafe(t) && Past(t)
  {
    InvStep(cfg, start, s, a);
    if PublishStep(s, a) {
      LeftUnfinished(s);
    }
    PublishedSafeStep(cfg, start, s, a);
    PastStays(cfg, start, s, a);
  }

  lemma PastStays(cfg: P.Config, start: int, s: State, a: Action)
    requires Inv(cfg, start, s) && Past(s) && Enabled(cfg, s, a)
    ensures Past(Apply(cfg, s, a))
  {
    var t := Apply(cfg, s, a);
    assert t.pull.Entered? ==> t.put == s.put && Unfinished(t) <= Unfinished(s);
    if a.TakeOne? {
      TakeSingle(s.pq);
    }
  }

  lemma {:induction false} PastPath(cfg: P.Config, start: int, states: seq<State>, acts: seq<Action>, k: nat)
    requires Path(cfg, states, acts) && k < |states|
    requires Inv(cfg, start, states[0]) && PublishedSafe(states[0]) && Past(states[0])
    ensures Inv(cfg, start, states[k]) && PublishedSafe(states[k]) && Past(states[k])
  {
    if k == 0 {
    } else {
      PastPath(cfg, start, states, acts, k - 1);
      PastStep(cfg, start, states[k - 1], acts[k - 1]);
    }
  }

  lemma AfterClear(cfg: P.Config, start: int, s: State, a: Action)
    requires Inv(cfg, start, s) && PublishedSafe(s) && Enabled(cfg, s, a) && Clears(s, a)
    ensures var r := Apply(cfg, s, a);
      && Inv(cfg, start, r) && PublishedSafe(r) && r.pq.dropped && r.pq.cache.Keys == {}
      && r.pull == s.pull && (WillTake(r) <==> WillTake(s)) && Unfinished(r) == Unfinished(s)
      && Lost(r) == Unfinished(s) - InHandOffset(s)
  {
    ClearKeeps(cfg, start, s, a);
    PublishedSafeStep(cfg, start, s, a);
  }

  /** Applying an empty pull stores its offset whatever is unfinished. */
  lemma PublishLoses(cfg: P.Config, r: State)
    requires r.pull.Entered? && PublishStep(r, PullApply) && Unfinished(r) != {}
    requires r.pull.result.nextBegin >= r.pq.nextOffset && forall o :: o in r.put ==> o < r.pq.nextOffset
    ensures Reaches(cfg, r, Apply(cfg, r, PullApply)) && !PublishedSafe(Apply(cfg, r, PullApply))
  {
    ReachSelf(cfg, r);
    ReachStep(cfg, r, r, PullApply);
    var t := Apply(cfg, r, PullApply);
    var o := Pick(Unfinished(r));
    assert o in t.put && o < t.pull.offset && o !in t.log;
  }

  /** Exactly when clearing a dropped orderly request is safe: everything stored in every continuation is
      safe if and only if the clear does not race with a pull. */
  lemma ClearSafeExactly(cfg: P.Config, start: int, s: State, a: Action)
    requires Inv(cfg, start, s) && PublishedSafe(s) && Enabled(cfg, s, a) && Clears(s, a)
    ensures (forall t :: Reaches(cfg, Apply(cfg, s, a), t) ==> StoredSafe(t)) <==> !ClearRaces(s)
  {
    var r := Apply(cfg, s, a);
    AfterClear(cfg, start, s, a);
    if !ClearRaces(s) {
      forall t | Reaches(cfg, r, t) ensures StoredSafe(t) {
        var states, acts :| Path(cfg, states, acts) && states[0] == r && states[|acts|] == t;
        PastPath(cfg, start, states, acts, |acts|);
      }
    } else if s.pull.result.NoMessages? {
      PublishLoses(cfg, r);
      assert !StoredSafe(Apply(cfg, r, PullApply));
    } else {
      var t, v := HazardLoses(cfg, start, r);
      assert !StoredSafe(t);
    }
  }

  // ---- Pulls that see the cache empty ----

  /** The message is put and its task posted; then it is taken; and meanwhile a pull answers "no new message". */
  const PUT: State := State(CACHED, Free, 1, true, Ready, {0}, [], [], [], [])
  const TAKEN: View := View(map[], map[0 := ONLY], 0, 1, false)
  const TOOK: State := PUT.(pq := TAKEN, holder := Took(ONLY), waiting := 0)

  lemma PutReached()
    ensures Reaches(ONE_MESSAGE, Init(0), PUT)
  {
    OffsetsOfOne(ONLY);
    PutOnly();
    var s := Init(0);
    ReachSelf(ONE_MESSAGE, s);
    ReachStep(ONE_MESSAGE, s, s, PullReply(P.Found([ONLY], 1)));
    var entered := s.(pull := Entered(P.Found([ONLY], 1)));
    ReachStep(ONE_MESSAGE, s, entered, PullApply);
    ReachStep(ONE_MESSAGE, s, Apply(ONE_MESSAGE, entered, PullApply), PullPost);
    assert {} + {0} == {0};
  }

  lemma TookReached()
    ensures Reaches(ONE_MESSAGE, Init(0), TOOK)
  {
    PutReached();
    ReachStep(ONE_MESSAGE, Init(0), PUT, Acquire(true));
    TakeSingle(CACHED);
    assert CACHED.cache.Keys == {0};
    assert CACHED.cache - {0} == map[];
    ReachStep(ONE_MESSAGE, Init(0), PUT.(waiting := 0, holder := Looping), TakeOne);
  }

  /** The failing case is reachable: a pull that answers "no new message" while the first message is being
      consumed stores offset 1. */
  lemma PublishRaceHappens() returns (s: State)
    ensures Reaches(ONE_MESSAGE, Init(0), s) && s.published == [1] && 0 in s.put && s.log == [] && !s.pq.dropped
    ensures !PublishedSafe(s)
  {
    TookReached();
    ReachStep(ONE_MESSAGE, Init(0), TOOK, PullReply(P.NoMessages(1)));
    var entered := TOOK.(pull := Entered(P.NoMessages(1)));
    ReachStep(ONE_MESSAGE, Init(0), entered, PullApply);
    ReachStep(ONE_MESSAGE, Init(0), TOOK.(pull := Publishing(1)), PullPublish);
    s := TOOK.(published := [1]);
    assert 1 in s.published;
  }

  /** So is the race of a clear: the holder has the lock, the next pull has passed its drop check, and the queue
      is dropped and cleared. */
  lemma HazardHappens() returns (s: State)
    ensures Reaches(ONE_MESSAGE, Init(0), s) && Hazard(s) && Lost(s) == {0}
  {
    PutReached();
    var next := P.Found([Message(1, "", 0)], 2);
    OffsetsOfOne(next.msgs[0]);
    ReachStep(ONE_MESSAGE, Init(0), PUT, Acquire(true));
    var looping := PUT.(waiting := 0, holder := Looping);
    ReachStep(ONE_MESSAGE, Init(0), looping, PullReply(next));
    ReachStep(ONE_MESSAGE, Init(0), looping.(pull := Entered(next)), SetDropped);
    var dropped := looping.(pull := Entered(next), pq := CACHED.(dropped := true));
    ReachStep(ONE_MESSAGE, Init(0), dropped, ClearAll);
    s := dropped.(pq := Clear(dropped.pq));
    assert 0 in Lost(s);
  }

  // ---- Tasks that give up ----

  /** The holder is not through with the queue: it takes messages until it finds none, or starts a new task. */
  predicate Working(s: State) {
    s.holder.Looping? || s.holder.Took? || s.holder.Failed? || s.holder.Consumed?
  }

  /** Cached messages have somebody to consume them: a working holder, a task that will take the lock, or a
      pull about to post one. */
  predicate Attended(s: State) {
    s.running && !s.pq.dropped && s.pq.cache.Keys != {} ==> s.waiting > 0 || Working(s) || s.pull.Posting?
  }

  /** The last waiting task gives up although the holder is only leaving and messages are cached. */
  predicate Abandons(s: State, a: Action) {
    && a.GiveUp? && s.waiting == 1 && s.holder.Leaving? && !s.pull.Posting?
    && s.running && !s.pq.dropped && s.pq.cache.Keys != {}
  }

  lemma AttendedStep(cfg: P.Config, s: State, a: Action)
    requires Enabled(cfg, s, a) && Attended(s)
    ensures Attended(Apply(cfg, s, a)) <==> !Abandons(s, a)
  {
    if a.TakeOne? && s.pq.cache.Keys != {} {
      assert Take(s.pq, 1).1 != [];
    }
  }

  lemma {:induction false} AttendedUpTo(cfg: P.Config, start: int, states: seq<State>, acts: seq<Action>, k: nat)
    requires IsRun(cfg, start, states, acts) && k < |states|
    requires forall i :: 0 <= i < |acts| ==> !Abandons(states[i], acts[i])
    ensures Attended(states[k])
  {
    if k == 0 {
    } else {
      AttendedUpTo(cfg, start, states, acts, k - 1);
      AttendedStep(cfg, states[k - 1], acts[k - 1]);
    }
  }

  /** While the queue is not dropped and the service runs, cached messages are never left with no task, if and
      only if no last task gives up waiting while the holder, done with the queue, still has the lock. */
  lemma AttendedExactly(cfg: P.Config, start: int, states: seq<State>, acts: seq<Action>)
    requires IsRun(cfg, start, states, acts)
    ensures (forall k :: 0 <= k < |states| ==> Attended(states[k]))
       <==> (forall i :: 0 <= i < |acts| ==> !Abandons(states[i], acts[i]))
  {
    if forall i :: 0 <= i < |acts| ==> !Abandons(states[i], acts[i]) {
      forall k | 0 <= k < |states| ensures Attended(states[k]) {
        AttendedUpTo(cfg, start, states, acts, k);
      }
    } else {
      var i :| 0 <= i < |acts| && Abandons(states[i], acts[i]);
      AttendedStep(cfg, states[i], acts[i]);
      assert !Attended(states[i + 1]);
    }
  }

  /** Nothing but a pull that finds messages gets a stranded queue going again. */
  lemma StrandedStays(cfg: P.Config, s: State, a: Action)
    requires Enabled(cfg, s, a) && !Attended(s) && !(a.PullApply? && s.pull.result.Found?)
    ensures var t := Apply(cfg, s, a);
      t.running && !t.pq.dropped ==> !Attended(t) && t.log == s.log && t.pq.cache == s.pq.cache
  {
  }

  /** Message 0 carries a tag that is not subscribed, so a pull that finds it caches nothing; message 1 comes
      later. A task for the first batch has found nothing and is about to release the lock. */
  const LATER: Message := Message(1, "", 0)
  const LATER_ONLY: P.Config := P.Config(iset{1}, 1000)
  const LEAVING: State := State(EmptyView().(nextOffset := 1), Leaving, 0, true, Ready, {}, [], [], [], [])

  lemma PutNone(v: View)
    requires v.offsetMax == 0
    ensures Put(v, []) == v
  {
  }

  lemma LeavingReached()
    ensures Reaches(LATER_ONLY, Init(0), LEAVING)
  {
    var s := Init(0);
    ReachSelf(LATER_ONLY, s);
    ReachStep(LATER_ONLY, s, s, PullReply(P.Found([], 1)));
    var entered := s.(pull := Entered(P.Found([], 1)));
    ReachStep(LATER_ONLY, s, entered, PullApply);
    PutNone(LEAVING.pq);
    var posting := LEAVING.(holder := Free, pull := Posting);
    assert posting == Apply(LATER_ONLY, entered, PullApply);
    ReachStep(LATER_ONLY, s, posting, PullPost);
    ReachStep(LATER_ONLY, s, LEAVING.(holder := Free, waiting := 1), Acquire(true));
    ReachStep(LATER_ONLY, s, LEAVING.(holder := Looping), TakeOne);
  }

  /** A live queue can be stranded: the message comes, its task waits for the lock and gives up, and only then
      is the lock released. */
  lemma StrandingHappens() returns (s: State)
    ensures Reaches(LATER_ONLY, Init(0), s) && !Attended(s)
    ensures s.holder.Free? && s.waiting == 0 && s.pull.Ready? && s.pq.cache == map[1 := LATER] && s.log == []
  {
    LeavingReached();
    OffsetsOfOne(LATER);
    ReachStep(LATER_ONLY, Init(0), LEAVING, PullReply(P.Found([LATER], 2)));
    var entered := LEAVING.(pull := Entered(P.Found([LATER], 2)));
    ReachStep(LATER_ONLY, Init(0), entered, PullApply);
    var posting := Apply(LATER_ONLY, entered, PullApply);
    ReachStep(LATER_ONLY, Init(0), posting, PullPost);
    var posted := posting.(pull := Ready, waiting := 1);
    ReachStep(LATER_ONLY, Init(0), posted, GiveUp);
    s := posted.(waiting := 0, holder := Free);
    ReachStep(LATER_ONLY, Init(0), posted.(waiting := 0), Leave);
    PutOne(EmptyView().(nextOffset := 2), LATER);
  }
}
