/** One queue across its whole history: PullRequests created by any clients of the group, each client's
    offset table entry for the queue, one-way commits on the wire, and the broker's committed offset. */
module Cluster {
  import opened Basics
  import Allocation
  import OrderedMap
  import opened OffsetStore
  import opened ProcessQueue
  import opened QueueProtocol
  import opened CommitSafety

  /** One PullRequest: the client it belongs to and the offset it started pulling at. */
  datatype Holder = Holder(client: nat, start: int, state: State)

  /** What is fixed for a queue's history: the pull configuration, where an owner starts whose offset query comes
      back empty, and what the broker has when the history begins: the committed offset, if any, and the offset
      of the next message that will arrive. */
  datatype Setting = Setting(cfg: Config, place: ConsumeFromWhere, retry: bool, base: Option<int>, end: int)

  predicate ValidSetting(u: Setting) {
    0 <= u.end && (u.base.Some? ==> 0 <= u.base.value)
  }

  /** tables: each client's offset table entry for the queue. sent: offsets in one-way commit requests,
      which may arrive late, repeatedly, out of order or never. committed: every offset the broker has
      held, so an answer to a query may be old. end: where the next message will go. */
  datatype Group = Group(
    holders: seq<Holder>,
    tables: map<nat, int>,
    sent: set<int>,
    committed: set<int>,
    broker: Option<int>,
    end: int)

  datatype GroupAction =
    | Local(i: nat, a: Action)                             // a step of one PullRequest
    | Acquire(client: nat, answer: Option<int>, max: int)  // computePullFromWhere, then a new PullRequest from there
    | Append(end: int)                                     // messages arrive at the broker
    | Persist(client: nat)              // persist (its list of live queues may be old), or a pull's commit offset
    | Forget(client: nat)               // removeOffset
    | Arrive(offset: int)               // the broker takes one commit request

  function InitGroup(u: Setting): Group {
    Group([], map[], {}, if u.base.Some? then {u.base.value} else {}, u.base, u.end)
  }

  /** Where an owner starts, given the broker's answer to the offset query and its maximum offset. */
  function StartOf(u: Setting, answer: Option<int>, max: int): int {
    PullFromWhere(u.place, u.retry, match answer case Some(v) => v case None => NO_OFFSET, Some(max))
  }

  /** An offset query may be answered with any offset the broker has held, or come back empty: the broker has
      none, refuses, or does not respond in time, which are all one to readOffset. The maximum offset may be as
      old as the history. A pull is answered from what has arrived. */
  ghost predicate CanStep(u: Setting, g: Group, a: GroupAction) {
    match a
    case Local(i, act) =>
      && i < |g.holders| && Enabled(u.cfg, g.holders[i].state, act)
      && (act.PullReply? ==> act.result.nextBegin <= g.end)
    case Acquire(_, answer, max) =>
      && (answer.Some? ==> answer.value in g.committed)
      && u.end <= max <= g.end && StartOf(u, answer, max) >= 0
    case Append(end) => g.end <= end
    case Persist(client) => client in g.tables
    case Forget(_) => true
    case Arrive(offset) => offset in g.sent
  }

  /** A value stored by a PullRequest lands in its own client's table, whoever owns the queue by now. */
  function Store(tables: map<nat, int>, client: nat, before: State, after: State): map<nat, int> {
    if |after.written| > |before.written| then tables[client := after.written[|after.written| - 1]] else tables
  }

  ghost function Step(u: Setting, g: Group, a: GroupAction): Group
    requires CanStep(u, g, a)
  {
    match a
    case Local(i, act) =>
      var h := g.holders[i];
      var after := Apply(u.cfg, h.state, act);
      g.(holders := g.holders[i := h.(state := after)], tables := Store(g.tables, h.client, h.state, after))
    case Acquire(client, answer, max) =>
      var start := StartOf(u, answer, max);
      g.(holders := g.holders + [Holder(client, start, Init(start))],
         tables := if answer.Some? then g.tables[client := answer.value] else g.tables)
    case Append(end) => g.(end := end)
    case Persist(client) => g.(sent := g.sent + {g.tables[client]})
    case Forget(client) => g.(tables := g.tables - {client})
    case Arrive(offset) => g.(broker := Some(offset), committed := g.committed + {offset})
  }

  /** The client's entry of the group is the entry for mq of its offset store. */
  predicate SameEntry(store: map<Allocation.Queue, int>, mq: Allocation.Queue, tables: map<nat, int>, client: nat) {
    (mq in store <==> client in tables) && (mq in store ==> store[mq] == tables[client])
  }

  /** An acquisition is readOffset from the store and computePullFromWhere: any failure to answer is an empty one. */
  lemma AcquireReads(u: Setting, g: Group, client: nat, answer: Option<int>, max: int,
                     store: map<Allocation.Queue, int>, mq: Allocation.Queue, fetch: Fetch)
    requires CanStep(u, g, Acquire(client, answer, max)) && SameEntry(store, mq, g.tables, client)
    requires if answer.Some? then fetch == Fetched(answer.value) else fetch == BrokerRefused
    ensures var h := Step(u, g, Acquire(client, answer, max));
      var (now, last) := Read(store, mq, ReadFromStore, fetch);
      && SameEntry(now, mq, h.tables, client)
      && h.holders[|g.holders|].state.pq.nextOffset == PullFromWhere(u.place, u.retry, last, Some(max))
  {
  }

  /** A commit request carries what persist sends, and removeOffset forgets it. */
  lemma PersistSends(u: Setting, g: Group, client: nat, store: map<Allocation.Queue, int>, mq: Allocation.Queue,
                     sent: seq<(Allocation.Queue, int)>)
    requires CanStep(u, g, Persist(client)) && SameEntry(store, mq, g.tables, client)
    ensures Sent(store, sent, mq) == sent + [(mq, g.tables[client])]
    ensures Step(u, g, Persist(client)).sent == g.sent + {Sent(store, sent, mq)[|sent|].1}
    ensures SameEntry(store - {mq}, mq, Step(u, g, Forget(client)).tables, client)
  {
  }

  /** What a step of a PullRequest stores is what updateOffset puts into its own client's table. */
  lemma LocalStores(u: Setting, g: Group, i: nat, a: Action, store: map<Allocation.Queue, int>, mq: Allocation.Queue)
    requires CanStep(u, g, Local(i, a)) && SameEntry(store, mq, g.tables, g.holders[i].client)
    ensures var before, after := g.holders[i].state.written, Apply(u.cfg, g.holders[i].state, a).written;
      var now := if |after| > |before| then store[mq := after[|after| - 1]] else store;
      SameEntry(now, mq, Step(u, g, Local(i, a)).tables, g.holders[i].client)
  {
  }

  /** States linked by steps. */
  ghost predicate Path(u: Setting, states: seq<Group>, acts: seq<GroupAction>) {
    && |states| == |acts| + 1
    && (forall k :: 0 <= k < |acts| ==> CanStep(u, states[k], acts[k]) && states[k + 1] == Step(u, states[k], acts[k]))
  }

  ghost predicate IsRun(u: Setting, states: seq<Group>, acts: seq<GroupAction>) {
    Path(u, states, acts) && states[0] == InitGroup(u)
  }

  ghost predicate DoneSomewhere(g: Group, o: int) {
    exists i :: 0 <= i < |g.holders| && o in g.holders[i].state.done
  }

  /** An owner whose offset query comes back empty starts at the end of the queue. */
  predicate StartsAtEnd(u: Setting) {
    (u.place.LastOffset? && !u.retry) || (u.place.Timestamp? && u.retry)
  }

  lemma WhereToStart(u: Setting, max: int)
    ensures var start := StartOf(u, None, max);
      if StartsAtEnd(u) then start == max else start == 0 || start == -1
  {
  }

  /** Where the group's promise begins: at the offset committed before, or where its first owner starts. */
  function First(u: Setting, g: Group): int {
    if u.base.Some? then u.base.value
    else if !StartsAtEnd(u) then 0
    else if g.holders == [] then u.end
    else Larger(u.end, g.holders[0].start)
  }

  /** A message of the stream, from the group's first offset on, that no member has finished. */
  ghost predicate Outstanding(u: Setting, g: Group, o: int) {
    o in u.cfg.stream && First(u, g) <= o && !DoneSomewhere(g, o)
  }

  /** Resuming from v loses nothing: each message of the stream before it was finished by some member. */
  ghost predicate Delivered(u: Setting, g: Group, v: int) {
    0 <= v && forall o :: o < v ==> !Outstanding(u, g, o)
  }

  /** The same for what the broker holds, if it holds anything. */
  ghost predicate BrokerDelivered(u: Setting, g: Group) {
    g.broker.Some? ==> Delivered(u, g, g.broker.value)
  }

  // ---- A PullRequest as the group sees it ----

  /** What a PullRequest has cached that the group does not wait for any more. */
  ghost function Harmless(u: Setting, g: Group, s: State): set<int> {
    set o | o in s.put && !Outstanding(u, g, o)
  }

  /** s with the messages of extra taken as done. Nothing a PullRequest does depends on what is done. */
  function Blessed(s: State, extra: set<int>): State {
    s.(done := s.done + extra)
  }

  ghost function Seen(u: Setting, g: Group, i: nat): State
    requires i < |g.holders|
  {
    Blessed(g.holders[i].state, Harmless(u, g, g.holders[i].state))
  }

  lemma BlessedSettle(cfg: Config, s: State, extra: set<int>, a: Action)
    requires Enabled(cfg, s, a) && a.TaskSettle?
    ensures Apply(cfg, Blessed(s, extra), a) == Blessed(Apply(cfg, s, a), extra)
  {
    assert Apply(cfg, Blessed(s, extra), a).done == Apply(cfg, s, a).done + extra;
  }

  lemma BlessedProduce(s: State, extra: set<int>, i: nat)
    requires i < |s.pulls|
    ensures Produce(Blessed(s, extra), i) == Blessed(Produce(s, i), extra)
    ensures EndPull(Blessed(s, extra), i) == Blessed(EndPull(s, i), extra)
  {
  }

  lemma BlessedResult(s: State, extra: set<int>, i: nat, result: PullResult, msgs: seq<Message>)
    requires i < |s.pulls|
    ensures ApplyResult(Blessed(s, extra), i, result) == Blessed(ApplyResult(s, i, result), extra)
    ensures Submit(Blessed(s, extra), i, msgs) == Blessed(Submit(s, i, msgs), extra)
  {
  }

  lemma BlessedPull(cfg: Config, s: State, extra: set<int>, a: Action)
    requires Enabled(cfg, s, a) && IsPullAction(a)
    ensures Apply(cfg, Blessed(s, extra), a) == Blessed(Apply(cfg, s, a), extra)
  {
    BlessedProduce(s, extra, a.i);
    if a.PullApply? {
      BlessedResult(s, extra, a.i, s.pulls[a.i].result, []);
    } else if a.PullSubmit? {
      BlessedResult(s, extra, a.i, NoMessages(0), s.pulls[a.i].msgs);
    }
  }

  lemma BlessedTask(cfg: Config, s: State, extra: set<int>, a: Action)
    requires Enabled(cfg, s, a) && !IsPullAction(a) && !a.TaskSettle?
    ensures Apply(cfg, Blessed(s, extra), a) == Blessed(Apply(cfg, s, a), extra)
  {
  }

  lemma BlessedStep(cfg: Config, s: State, extra: set<int>, a: Action)
    ensures Enabled(cfg, Blessed(s, extra), a) <==> Enabled(cfg, s, a)
    ensures Enabled(cfg, s, a) ==> Apply(cfg, Blessed(s, extra), a) == Blessed(Apply(cfg, s, a), extra)
  {
    if Enabled(cfg, s, a) {
      if IsPullAction(a) {
        BlessedPull(cfg, s, extra, a);
      } else if a.TaskSettle? {
        BlessedSettle(cfg, s, extra, a);
      } else {
        BlessedTask(cfg, s, extra, a);
      }
    }
  }

  lemma BlessedMore(cfg: Config, start: int, s: State, few: set<int>, many: set<int>)
    requires few <= many
    ensures Inv(cfg, start, Blessed(s, few)) ==> Inv(cfg, start, Blessed(s, many))
    ensures Hazard(Blessed(s, many)) ==> Hazard(Blessed(s, few))
  {
    assert Lost(Blessed(s, many)) <= Lost(Blessed(s, few));
  }

  /** Holder i has lost messages that no member has finished, and its pull can still store past them. */
  ghost predicate GroupHazard(u: Setting, g: Group, i: nat)
    requires i < |g.holders|
  {
    Hazard(Seen(u, g, i))
  }

  ghost predicate NoHazard(u: Setting, g: Group) {
    forall i :: 0 <= i < |g.holders| ==> !GroupHazard(u, g, i)
  }

  // ---- The invariant ----

  ghost predicate HoldersOk(u: Setting, g: Group) {
    forall i :: 0 <= i < |g.holders| ==> HolderOk(u, g, i)
  }

  ghost predicate HolderOk(u: Setting, g: Group, i: nat)
    requires i < |g.holders|
  {
    Inv(u.cfg, g.holders[i].start, Seen(u, g, i)) && Delivered(u, g, g.holders[i].start)
  }

  ghost predicate OffsetsOk(u: Setting, g: Group) {
    && (forall c :: c in g.tables ==> Delivered(u, g, g.tables[c]))
    && (forall v :: v in g.sent + g.committed ==> Delivered(u, g, v))
    && (g.broker.Some? ==> g.broker.value in g.committed)
  }

  ghost predicate GroupInv(u: Setting, g: Group) {
    HoldersOk(u, g) && OffsetsOk(u, g) && u.end <= g.end
  }

  /** h has the holders of g, further on, and maybe more; the promise does not begin earlier. */
  ghost predicate Grows(u: Setting, g: Group, h: Group) {
    && First(u, g) <= First(u, h)
    && |g.holders| <= |h.holders|
    && forall i :: 0 <= i < |g.holders| ==>
      g.holders[i].state.done <= h.holders[i].state.done && g.holders[i].start == h.holders[i].start
  }

  lemma StepGrowsGroup(u: Setting, g: Group, a: GroupAction)
    requires CanStep(u, g, a)
    ensures Grows(u, g, Step(u, g, a))
  {
    if a.Local? {
      StepFrame(u.cfg, g.holders[a.i].state, a.a);
    }
  }

  lemma DoneStays(u: Setting, g: Group, h: Group, o: int)
    requires Grows(u, g, h) && DoneSomewhere(g, o)
    ensures DoneSomewhere(h, o)
  {
    var i :| 0 <= i < |g.holders| && o in g.holders[i].state.done;
    assert o in h.holders[i].state.done;
  }

  lemma OutstandingShrinks(u: Setting, g: Group, h: Group, o: int)
    requires Grows(u, g, h)
    ensures Outstanding(u, h, o) ==> Outstanding(u, g, o)
  {
    if DoneSomewhere(g, o) {
      DoneStays(u, g, h, o);
    }
  }

  lemma DeliveredStays(u: Setting, g: Group, h: Group, v: int)
    requires Grows(u, g, h) && Delivered(u, g, v)
    ensures Delivered(u, h, v)
  {
    forall o | o < v ensures !Outstanding(u, h, o) {
      OutstandingShrinks(u, g, h, o);
    }
  }

  lemma HarmlessGrows(u: Setting, g: Group, h: Group, s: State, t: State)
    requires Grows(u, g, h) && s.put <= t.put
    ensures Harmless(u, g, s) <= Harmless(u, h, t)
  {
    forall o | o in Harmless(u, g, s) ensures o in Harmless(u, h, t) {
      OutstandingShrinks(u, g, h, o);
    }
  }

  /** A holder that does not move keeps its invariant while the others go on. */
  lemma StillHolder(u: Setting, g: Group, h: Group, i: nat)
    requires Grows(u, g, h) && i < |g.holders| && h.holders[i] == g.holders[i]
    ensures HolderOk(u, g, i) ==> HolderOk(u, h, i)
    ensures GroupHazard(u, h, i) ==> GroupHazard(u, g, i)
  {
    var s := g.holders[i].state;
    HarmlessGrows(u, g, h, s, s);
    BlessedMore(u.cfg, g.holders[i].start, s, Harmless(u, g, s), Harmless(u, h, s));
    if HolderOk(u, g, i) {
      DeliveredStays(u, g, h, g.holders[i].start);
    }
  }

  /** The holder that moves keeps it too, away from hazards. */
  lemma MovingHolder(u: Setting, g: Group, i: nat, a: Action)
    requires CanStep(u, g, Local(i, a)) && HolderOk(u, g, i) && !GroupHazard(u, g, i)
    requires !GroupHazard(u, Step(u, g, Local(i, a)), i)
    ensures HolderOk(u, Step(u, g, Local(i, a)), i)
  {
    var h := Step(u, g, Local(i, a));
    var s, start := g.holders[i].state, g.holders[i].start;
    var t := Apply(u.cfg, s, a);
    assert h.holders[i].state == t;
    StepGrowsGroup(u, g, Local(i, a));
    StepFrame(u.cfg, s, a);
    HarmlessGrows(u, g, h, s, t);
    var many := Harmless(u, h, t);
    BlessedMore(u.cfg, start, s, Harmless(u, g, s), many);
    BlessedStep(u.cfg, s, many, a);
    InvStep(u.cfg, start, Blessed(s, many), a);
    DeliveredStays(u, g, h, start);
  }

  /** An owner starts at the end of the queue because its query comes back empty, and it is not the first owner
      of a queue that had no committed offset. */
  predicate Bold(u: Setting, g: Group, a: GroupAction) {
    a.Acquire? && a.answer.None? && StartsAtEnd(u) && Promised(u, g)
  }

  /** The group has a promise to keep: an offset committed before, or an owner. */
  predicate Promised(u: Setting, g: Group) {
    g.holders != [] || u.base.Some?
  }

  /** An owner that starts at the end can skip nothing: there is no such owner, or nothing to skip. */
  ghost predicate Covered(u: Setting, g: Group) {
    StartsAtEnd(u) ==> forall o :: !Outstanding(u, g, o)
  }

  lemma CoveredStays(u: Setting, g: Group, h: Group)
    requires Grows(u, g, h) && Covered(u, g)
    ensures Covered(u, h)
  {
    forall o ensures Outstanding(u, h, o) ==> Outstanding(u, g, o) {
      OutstandingShrinks(u, g, h, o);
    }
  }

  /** No owner but the first starts past something unfinished. */
  lemma StartDelivered(u: Setting, g: Group, a: GroupAction)
    requires ValidSetting(u) && CanStep(u, g, a) && a.Acquire? && OffsetsOk(u, g) && (Bold(u, g, a) ==> Covered(u, g))
    ensures Delivered(u, Step(u, g, a), StartOf(u, a.answer, a.max))
  {
    var h := Step(u, g, a);
    StepGrowsGroup(u, g, a);
    if a.answer.Some? {
      assert Delivered(u, g, a.answer.value);
      DeliveredStays(u, g, h, a.answer.value);
    } else {
      WhereToStart(u, a.max);
      if Bold(u, g, a) {
        CoveredStays(u, g, h);
      }
    }
  }

  lemma NewHolder(u: Setting, g: Group, a: GroupAction)
    requires ValidSetting(u) && CanStep(u, g, a) && a.Acquire? && OffsetsOk(u, g) && (Bold(u, g, a) ==> Covered(u, g))
    ensures HolderOk(u, Step(u, g, a), |g.holders|)
  {
    var h, start := Step(u, g, a), StartOf(u, a.answer, a.max);
    StartDelivered(u, g, a);
    InitInv(u.cfg, start);
    assert Blessed(Init(start), {}) == Init(start);
    BlessedMore(u.cfg, start, Init(start), {}, Harmless(u, h, Init(start)));
  }

  lemma HoldersStep(u: Setting, g: Group, a: GroupAction)
    requires ValidSetting(u) && GroupInv(u, g) && CanStep(u, g, a)
    requires a.Local? ==> !GroupHazard(u, g, a.i) && !GroupHazard(u, Step(u, g, a), a.i)
    requires Bold(u, g, a) ==> Covered(u, g)
    ensures HoldersOk(u, Step(u, g, a))
  {
    var h := Step(u, g, a);
    StepGrowsGroup(u, g, a);
    forall i | 0 <= i < |h.holders| ensures HolderOk(u, h, i) {
      if a.Local? && i == a.i {
        MovingHolder(u, g, i, a.a);
      } else if i < |g.holders| {
        assert HolderOk(u, g, i);
        StillHolder(u, g, h, i);
      } else {
        NewHolder(u, g, a);
      }
    }
  }

  /** What one PullRequest may store is good for the whole group: before its start by induction, from
      there on because it skipped nothing of the stream. */
  lemma StoredDelivered(u: Setting, g: Group, i: nat, v: int)
    requires i < |g.holders| && HolderOk(u, g, i) && v in g.holders[i].state.written
    ensures Delivered(u, g, v)
  {
    var s := Seen(u, g, i);
    assert Safe(s, v);
    forall o | o in u.cfg.stream && First(u, g) <= o < v ensures DoneSomewhere(g, o) {
      if g.holders[i].start <= o {
        assert o in s.put;
        assert o in s.done;
      } else {
        assert !Outstanding(u, g, o);
      }
    }
  }

  lemma OffsetsStep(u: Setting, g: Group, a: GroupAction)
    requires GroupInv(u, g) && CanStep(u, g, a) && HoldersOk(u, Step(u, g, a))
    ensures OffsetsOk(u, Step(u, g, a))
  {
    var h := Step(u, g, a);
    StepGrowsGroup(u, g, a);
    forall v | Delivered(u, g, v) ensures Delivered(u, h, v) {
      DeliveredStays(u, g, h, v);
    }
    forall c | c in h.tables ensures Delivered(u, h, h.tables[c]) {
      if c in g.tables && g.tables[c] == h.tables[c] {
        assert Delivered(u, g, g.tables[c]);
      } else if a.Local? {
        assert HolderOk(u, h, a.i);
        StoredDelivered(u, h, a.i, h.tables[c]);
      } else {
        assert a.answer.value in g.sent + g.committed;
      }
    }
  }

  lemma GroupInvStep(u: Setting, g: Group, a: GroupAction)
    requires ValidSetting(u) && GroupInv(u, g) && CanStep(u, g, a)
    requires a.Local? ==> !GroupHazard(u, g, a.i) && !GroupHazard(u, Step(u, g, a), a.i)
    requires Bold(u, g, a) ==> Covered(u, g)
    ensures GroupInv(u, Step(u, g, a))
  {
    HoldersStep(u, g, a);
    OffsetsStep(u, g, a);
  }

  lemma InitGroupInv(u: Setting)
    requires ValidSetting(u)
    ensures GroupInv(u, InitGroup(u))
  {
    var g := InitGroup(u);
    assert forall o :: Outstanding(u, g, o) && u.base.Some? ==> u.base.value <= o;
  }

  /** A history that passes through no hazard, and in which no owner starts boldly where it could skip. */
  ghost predicate CalmRun(u: Setting, states: seq<Group>, acts: seq<GroupAction>) {
    && IsRun(u, states, acts)
    && (forall k :: 0 <= k < |states| ==> NoHazard(u, states[k]))
    && (forall k :: 0 <= k < |acts| && Bold(u, states[k], acts[k]) ==> Covered(u, states[k]))
  }

  lemma {:induction false} RunInv(u: Setting, states: seq<Group>, acts: seq<GroupAction>, k: nat)
    requires ValidSetting(u) && CalmRun(u, states, acts) && k < |states|
    ensures GroupInv(u, states[k])
  {
    if k == 0 {
      InitGroupInv(u);
    } else {
      RunInv(u, states, acts, k - 1);
      assert states[k] == Step(u, states[k - 1], acts[k - 1]);
      assert NoHazard(u, states[k - 1]) && NoHazard(u, states[k]);
      GroupInvStep(u, states[k - 1], acts[k - 1]);
    }
  }

  /** Nothing that the broker or an owner resumes from skips anything. */
  ghost predicate DeliversAll(u: Setting, g: Group) {
    BrokerDelivered(u, g) && forall i :: 0 <= i < |g.holders| ==> Delivered(u, g, g.holders[i].start)
  }

  lemma InvDelivers(u: Setting, g: Group)
    requires GroupInv(u, g)
    ensures DeliversAll(u, g)
  {
    forall i | 0 <= i < |g.holders| ensures Delivered(u, g, g.holders[i].start) {
      assert HolderOk(u, g, i);
    }
  }

  /** At-least-once delivery for the group. Over every history of ownership (overlapping owners, late writes
      of former owners, lost, repeated and reordered commits, stale answers) that passes through no hazard and
      in which no owner, but the first of a queue that had no committed offset, starts at the end of the queue
      because its offset query came back empty, every message of the stream from the group's first offset up
      to any offset the broker ever holds has been consumed or taken back by some member; so has every message
      before any offset from which a member starts. A cleared message that some other member has finished
      makes no hazard. */
  lemma AtLeastOnceDelivery(u: Setting, states: seq<Group>, acts: seq<GroupAction>)
    requires ValidSetting(u) && IsRun(u, states, acts)
    requires forall k :: 0 <= k < |states| ==> NoHazard(u, states[k])
    requires forall k :: 0 <= k < |acts| ==> !Bold(u, states[k], acts[k])
    ensures forall k :: 0 <= k < |states| ==> DeliversAll(u, states[k])
  {
    forall k | 0 <= k < |states| ensures DeliversAll(u, states[k]) {
      RunInv(u, states, acts, k);
      InvDelivers(u, states[k]);
    }
  }

  // ---- What a hazard costs ----

  /** The queue once it has the messages that a step of a holder may be answered with. */
  function Extended(g: Group, a: Action): Group {
    if a.PullReply? && a.result.nextBegin > g.end then g.(end := a.result.nextBegin) else g
  }

  /** Steps of one holder, on the group, messages arriving as they are needed. */
  ghost function LocalRun(u: Setting, g: Group, i: nat, acts: seq<Action>): Group
    requires i < |g.holders|
    ensures |LocalRun(u, g, i, acts).holders| == |g.holders|
  {
    if acts == [] then g else
      var a := acts[|acts| - 1];
      var h := Extended(LocalRun(u, g, i, acts[..|acts| - 1]), a);
      if CanStep(u, h, Local(i, a)) then Step(u, h, Local(i, a)) else h
  }

  /** h can be reached from g with no hazard of a holder other than i on the way, where no holder is -1; and
      unless bold, with no bold start. */
  ghost predicate CalmReaches(u: Setting, bold: bool, g: Group, i: int, h: Group) {
    exists states, acts :: CalmPath(u, bold, i, states, acts) && states[0] == g && states[|acts|] == h
  }

  ghost predicate CalmPath(u: Setting, bold: bool, i: int, states: seq<Group>, acts: seq<GroupAction>) {
    Path(u, states, acts) && AllCalm(u, i, states) && (bold || Timid(u, states, acts))
  }

  /** No owner starts boldly. */
  ghost predicate Timid(u: Setting, states: seq<Group>, acts: seq<GroupAction>)
    requires |states| == |acts| + 1
  {
    forall k :: 0 <= k < |acts| ==> !Bold(u, states[k], acts[k])
  }

  ghost predicate AllCalm(u: Setting, i: int, states: seq<Group>) {
    forall k :: 0 <= k < |states| ==> OthersCalm(u, states[k], i)
  }

  ghost predicate OthersCalm(u: Setting, g: Group, i: int) {
    forall j :: 0 <= j < |g.holders| && j != i ==> !GroupHazard(u, g, j)
  }

  lemma CalmReachesSelf(u: Setting, bold: bool, g: Group, i: int)
    requires OthersCalm(u, g, i)
    ensures CalmReaches(u, bold, g, i, g)
  {
    assert CalmPath(u, bold, i, [g], []);
    assert [g][0] == g;
  }

  lemma PathConcat(u: Setting, first: seq<Group>, a: seq<GroupAction>, second: seq<Group>, b: seq<GroupAction>)
    requires Path(u, first, a) && Path(u, second, b) && first[|a|] == second[0]
    ensures Path(u, first + second[1..], a + b)
  {
    var states, acts := first + second[1..], a + b;
    forall n | 0 <= n < |acts| ensures CanStep(u, states[n], acts[n]) && states[n + 1] == Step(u, states[n], acts[n]) {
      if n >= |a| {
        assert states[n] == second[n - |a|] && states[n + 1] == second[n - |a| + 1] && acts[n] == b[n - |a|];
      }
    }
  }

  lemma CalmConcat(u: Setting, i: int, first: seq<Group>, second: seq<Group>)
    requires AllCalm(u, i, first) && AllCalm(u, i, second)
    ensures AllCalm(u, i, first + second)
  {
  }

  lemma TimidConcat(u: Setting, first: seq<Group>, a: seq<GroupAction>, second: seq<Group>, b: seq<GroupAction>)
    requires |first| == |a| + 1 && |second| == |b| + 1 && first[|a|] == second[0]
    requires Timid(u, first, a) && Timid(u, second, b)
    ensures Timid(u, first + second[1..], a + b)
  {
    var states, acts := first + second[1..], a + b;
    forall n | 0 <= n < |acts| ensures !Bold(u, states[n], acts[n]) {
      if n >= |a| {
        assert states[n] == second[n - |a|] && acts[n] == b[n - |a|];
      }
    }
  }

  /** Two paths joined, the second starting where the first ends. */
  lemma CalmJoin(u: Setting, bold: bool, i: int, first: seq<Group>, a: seq<GroupAction>,
                 second: seq<Group>, b: seq<GroupAction>)
    returns (states: seq<Group>, acts: seq<GroupAction>)
    requires CalmPath(u, bold, i, first, a) && CalmPath(u, bold, i, second, b) && first[|a|] == second[0]
    ensures CalmPath(u, bold, i, states, acts) && states[0] == first[0] && states[|acts|] == second[|b|]
  {
    states, acts := first + second[1..], a + b;
    PathConcat(u, first, a, second, b);
    CalmConcat(u, i, first, second[1..]);
    if !bold {
      TimidConcat(u, first, a, second, b);
    }
  }

  lemma CalmReachesThen(u: Setting, bold: bool, g: Group, i: int, h: Group, k: Group)
    requires CalmReaches(u, bold, g, i, h) && CalmReaches(u, bold, h, i, k)
    ensures CalmReaches(u, bold, g, i, k)
  {
    var first, a :| CalmPath(u, bold, i, first, a) && first[0] == g && first[|a|] == h;
    var second, b :| CalmPath(u, bold, i, second, b) && second[0] == h && second[|b|] == k;
    var states, acts := CalmJoin(u, bold, i, first, a, second, b);
  }

  lemma CalmReachesOne(u: Setting, bold: bool, g: Group, i: int, a: GroupAction)
    requires CanStep(u, g, a) && OthersCalm(u, g, i) && OthersCalm(u, Step(u, g, a), i) && (bold || !Bold(u, g, a))
    ensures CalmReaches(u, bold, g, i, Step(u, g, a))
  {
    var states := [g, Step(u, g, a)];
    assert CalmPath(u, bold, i, states, [a]);
    assert states[0] == g && states[|[a]|] == Step(u, g, a);
  }

  lemma CalmReachesStep(u: Setting, bold: bool, g: Group, i: int, h: Group, a: GroupAction)
    requires CalmReaches(u, bold, g, i, h) && OthersCalm(u, h, i)
    requires CanStep(u, h, a) && OthersCalm(u, Step(u, h, a), i) && (bold || !Bold(u, h, a))
    ensures CalmReaches(u, bold, g, i, Step(u, h, a))
  {
    CalmReachesOne(u, bold, h, i, a);
    CalmReachesThen(u, bold, g, i, h, Step(u, h, a));
  }

  /** A holder that is not dropped is in no hazard, so its steps keep the others calm. */
  lemma CalmStep(u: Setting, g: Group, i: int, a: GroupAction)
    requires CanStep(u, g, a) && OthersCalm(u, g, i)
    requires a.Local? && a.i != i ==> !Step(u, g, a).holders[a.i].state.pq.dropped
    ensures OthersCalm(u, Step(u, g, a), i)
  {
    var h := Step(u, g, a);
    StepGrowsGroup(u, g, a);
    forall j | 0 <= j < |h.holders| && j != i ensures !GroupHazard(u, h, j) {
      if j < |g.holders| && !(a.Local? && a.i == j) {
        StillHolder(u, g, h, j);
      } else {
        assert !h.holders[j].state.pq.dropped;
      }
    }
  }

  lemma CalmLocal(u: Setting, bold: bool, g: Group, i: int, h: Group, a: GroupAction)
    requires CalmReaches(u, bold, g, i, h) && OthersCalm(u, h, i) && CanStep(u, h, a) && (bold || !Bold(u, h, a))
    requires a.Local? && a.i != i ==> !Step(u, h, a).holders[a.i].state.pq.dropped
    ensures CalmReaches(u, bold, g, i, Step(u, h, a)) && OthersCalm(u, Step(u, h, a), i)
  {
    CalmStep(u, h, i, a);
    CalmReachesStep(u, bold, g, i, h, a);
  }

  /** A run of one PullRequest moves nothing but that holder and its table. */
  lemma {:induction false} LocalHolders(u: Setting, g: Group, i: nat, acts: seq<Action>)
    requires i < |g.holders| && CanRun(u.cfg, g.holders[i].state, acts)
    ensures LocalRun(u, g, i, acts).holders
         == g.holders[i := g.holders[i].(state := Run(u.cfg, g.holders[i].state, acts))]
  {
    if acts == [] {
    } else {
      var n := |acts| - 1;
      CanRunSnoc(u.cfg, g.holders[i].state, acts);
      LocalHolders(u, g, i, acts[..n]);
    }
  }

  lemma ExtendCalm(u: Setting, bold: bool, g: Group, i: int, h: Group, a: Action)
    requires CalmReaches(u, bold, g, i, h) && OthersCalm(u, h, i)
    ensures CalmReaches(u, bold, g, i, Extended(h, a)) && OthersCalm(u, Extended(h, a), i)
  {
    if Extended(h, a) != h {
      CalmLocal(u, bold, g, i, h, Append(a.result.nextBegin));
    }
  }

  /** It is a path of the group. */
  lemma {:induction false} LocalReach(u: Setting, bold: bool, g: Group, i: nat, acts: seq<Action>)
    requires i < |g.holders| && OthersCalm(u, g, i) && CanRun(u.cfg, g.holders[i].state, acts)
    ensures var h := LocalRun(u, g, i, acts);
      CalmReaches(u, bold, g, i, h) && OthersCalm(u, h, i)
  {
    if acts == [] {
      CalmReachesSelf(u, bold, g, i);
    } else {
      var n := |acts| - 1;
      var h := LocalRun(u, g, i, acts[..n]);
      CanRunSnoc(u.cfg, g.holders[i].state, acts);
      LocalReach(u, bold, g, i, acts[..n]);
      LocalHolders(u, g, i, acts[..n]);
      ExtendCalm(u, bold, g, i, h, acts[n]);
      CalmLocal(u, bold, g, i, Extended(h, acts[n]), Local(i, acts[n]));
    }
  }

  lemma WrittenStep(cfg: Config, s: State, a: Action)
    requires Enabled(cfg, s, a)
    ensures var t := Apply(cfg, s, a);
      t.written == s.written || (|t.written| == |s.written| + 1 && t.written[..|s.written|] == s.written)
  {
  }

  /** From s to t something was stored only if the client's table now has the last value stored. */
  ghost predicate Follows(s: State, t: State, client: nat, tables: map<nat, int>) {
    && |s.written| <= |t.written|
    && (|s.written| < |t.written| ==> client in tables && tables[client] == t.written[|t.written| - 1])
  }

  lemma TableStep(u: Setting, s: State, h: Group, i: nat, a: Action)
    requires i < |h.holders| && CanStep(u, h, Local(i, a))
    requires Follows(s, h.holders[i].state, h.holders[i].client, h.tables)
    ensures Follows(s, Apply(u.cfg, h.holders[i].state, a), h.holders[i].client, Step(u, h, Local(i, a)).tables)
  {
    WrittenStep(u.cfg, h.holders[i].state, a);
  }

  lemma LocalLast(u: Setting, g: Group, i: nat, acts: seq<Action>)
    requires i < |g.holders| && CanRun(u.cfg, g.holders[i].state, acts) && acts != []
    ensures var n := |acts| - 1; var h := Extended(LocalRun(u, g, i, acts[..n]), acts[n]);
      && h.holders[i] == g.holders[i].(state := Run(u.cfg, g.holders[i].state, acts[..n]))
      && CanRun(u.cfg, g.holders[i].state, acts[..n]) && CanStep(u, h, Local(i, acts[n]))
      && LocalRun(u, g, i, acts) == Step(u, h, Local(i, acts[n]))
      && Run(u.cfg, g.holders[i].state, acts) == Apply(u.cfg, h.holders[i].state, acts[n])
  {
    CanRunSnoc(u.cfg, g.holders[i].state, acts);
    LocalHolders(u, g, i, acts[..|acts| - 1]);
  }

  /** Once the holder has stored something, its client's table has the last value it stored. */
  lemma {:induction false} TableFollows(u: Setting, g: Group, i: nat, acts: seq<Action>)
    requires i < |g.holders| && CanRun(u.cfg, g.holders[i].state, acts)
    ensures Follows(g.holders[i].state, Run(u.cfg, g.holders[i].state, acts), g.holders[i].client,
                    LocalRun(u, g, i, acts).tables)
  {
    if acts == [] {
    } else {
      var n := |acts| - 1;
      LocalLast(u, g, i, acts);
      TableFollows(u, g, i, acts[..n]);
      TableStep(u, g.holders[i].state, Extended(LocalRun(u, g, i, acts[..n]), acts[n]), i, acts[n]);
    }
  }

  lemma {:induction false} BlessedRun(cfg: Config, s: State, extra: set<int>, acts: seq<Action>)
    requires CanRun(cfg, Blessed(s, extra), acts)
    ensures CanRun(cfg, s, acts) && Run(cfg, Blessed(s, extra), acts) == Blessed(Run(cfg, s, acts), extra)
  {
    if acts == [] {
    } else {
      var n := |acts| - 1;
      CanRunSnoc(cfg, Blessed(s, extra), acts);
      BlessedRun(cfg, s, extra, acts[..n]);
      BlessedStep(cfg, Run(cfg, s, acts[..n]), extra, acts[n]);
      CanRunExtend(cfg, s, acts[..n], acts[n]);
      assert acts[..n] + [acts[n]] == acts;
    }
  }

  /** The broker takes what a client's table holds. */
  lemma Commit(u: Setting, bold: bool, g: Group, i: int, h: Group, client: nat) returns (k: Group)
    requires CalmReaches(u, bold, g, i, h) && OthersCalm(u, h, i) && client in h.tables
    ensures CalmReaches(u, bold, g, i, k) && k.holders == h.holders && k.broker == Some(h.tables[client])
  {
    CalmLocal(u, bold, g, i, h, Persist(client));
    var sent := Step(u, h, Persist(client));
    CalmLocal(u, bold, g, i, sent, Arrive(h.tables[client]));
    k := Step(u, sent, Arrive(h.tables[client]));
  }

  lemma StillOutstanding(u: Setting, g: Group, h: Group, i: nat, o: int)
    requires i < |g.holders| == |h.holders| && Outstanding(u, g, o) && o !in h.holders[i].state.done
    requires forall j :: 0 <= j < |g.holders| && j != i ==> h.holders[j] == g.holders[j]
    requires h.holders[i].start == g.holders[i].start
    ensures Outstanding(u, h, o)
  {
    forall j | 0 <= j < |h.holders| ensures o !in h.holders[j].state.done {
      if j != i {
        assert o !in g.holders[j].state.done;
      }
    }
  }

  /** Every hazard of the group is real: some continuation, in which no other holder gets into one, makes the
      broker hold an offset above a message that no member has finished. */
  lemma GroupHazardLoses(u: Setting, bold: bool, g: Group, i: nat) returns (h: Group, o: int)
    requires i < |g.holders| && OthersCalm(u, g, i) && GroupHazard(u, g, i)
    requires Ranges(u.cfg, g.holders[i].start, Seen(u, g, i)) && OnePull(u.cfg, Seen(u, g, i))
    ensures CalmReaches(u, bold, g, i, h) && h.broker.Some? && o < h.broker.value && Outstanding(u, h, o)
  {
    var seen, s := Seen(u, g, i), g.holders[i].state;
    var extra := Harmless(u, g, s);
    var acts := HazardLoses(u.cfg, g.holders[i].start, seen);
    BlessedRun(u.cfg, s, extra, acts);
    var t := Run(u.cfg, s, acts);
    assert StoresPast(seen, Blessed(t, extra));
    LocalReach(u, bold, g, i, acts);
    LocalHolders(u, g, i, acts);
    TableFollows(u, g, i, acts);
    var stored := LocalRun(u, g, i, acts);
    o := OrderedMap.Pick(Lost(seen));
    assert Outstanding(u, g, o);
    assert o !in Blessed(t, extra).done;
    StillOutstanding(u, g, stored, i, o);
    h := Commit(u, bold, g, i, stored, g.holders[i].client);
    StillOutstanding(u, stored, h, i, o);
  }

  // ---- What a bold start costs ----

  /** A new owner whose query comes back empty, at the end of a queue that has message o. */
  lemma StartPast(u: Setting, g: Group, i: int, o: int) returns (h: Group)
    requires ValidSetting(u) && StartsAtEnd(u) && u.end <= g.end && OthersCalm(u, g, i)
    ensures var max := Larger(g.end, o + 1);
      && CalmReaches(u, true, g, i, h) && OthersCalm(u, h, i)
      && h.holders == g.holders + [Holder(0, max, Init(max))] && h.end == max
  {
    var max := Larger(g.end, o + 1);
    WhereToStart(u, max);
    CalmReachesSelf(u, true, g, i);
    CalmLocal(u, true, g, i, g, Append(max));
    h := Step(u, g, Append(max));
    CalmLocal(u, true, g, i, h, Acquire(0, None, max));
    h := Step(u, h, Acquire(0, None, max));
  }

  /** One step of a holder that is not dropped. */
  lemma LiveStep(u: Setting, bold: bool, g: Group, i: int, h: Group, n: nat, a: Action) returns (k: Group)
    requires CalmReaches(u, bold, g, i, h) && OthersCalm(u, h, i) && CanStep(u, h, Local(n, a))
    requires !Apply(u.cfg, h.holders[n].state, a).pq.dropped
    ensures CalmReaches(u, bold, g, i, k) && OthersCalm(u, k, i) && k.end == h.end
    ensures k.holders == h.holders[n := h.holders[n].(state := Apply(u.cfg, h.holders[n].state, a))]
    ensures k.tables == Store(h.tables, h.holders[n].client, h.holders[n].state, k.holders[n].state)
  {
    CalmLocal(u, bold, g, i, h, Local(n, a));
    k := Step(u, h, Local(n, a));
  }

  /** Its first pull finds nothing new and stores where it started. */
  lemma EmptyPullStores(u: Setting, bold: bool, g: Group, i: int, h: Group, n: nat, start: int) returns (k: Group)
    requires CalmReaches(u, bold, g, i, h) && OthersCalm(u, h, i) && |h.holders| == n + 1
    requires h.holders[n] == Holder(0, start, Init(start)) && 0 < start <= h.end
    ensures CalmReaches(u, bold, g, i, k) && OthersCalm(u, k, i)
    ensures 0 in k.tables && k.tables[0] == start
    ensures |k.holders| == n + 1 && k.holders[..n] == h.holders[..n] && k.holders[n].state.done == {}
  {
    k := LiveStep(u, bold, g, i, h, n, PullStart(0));
    k := LiveStep(u, bold, g, i, k, n, PullReply(0, NoMessages(start)));
    k := LiveStep(u, bold, g, i, k, n, PullApply(0));
    k := LiveStep(u, bold, g, i, k, n, PullPublish(0));
  }

  lemma NewOwnerIdle(u: Setting, g: Group, h: Group, o: int)
    requires Promised(u, g) && |h.holders| == |g.holders| + 1 && h.holders[..|g.holders|] == g.holders
    requires h.holders[|g.holders|].state.done == {} && Outstanding(u, g, o)
    ensures Outstanding(u, h, o)
  {
    forall j | 0 <= j < |h.holders| ensures o !in h.holders[j].state.done {
      if j < |g.holders| {
        assert h.holders[..|g.holders|][j] == g.holders[j];
      }
    }
    assert g.holders != [] ==> h.holders[..|g.holders|][0] == g.holders[0];
  }

  /** Where an empty query means the end of the queue, every outstanding message of a group with a promise to
      keep can be skipped without any hazard: a further owner starts behind it and the broker takes that. */
  lemma BoldStartLoses(u: Setting, g: Group, i: int, o: int) returns (h: Group)
    requires ValidSetting(u) && StartsAtEnd(u) && u.end <= g.end && OthersCalm(u, g, i)
    requires Promised(u, g) && Outstanding(u, g, o)
    ensures CalmReaches(u, true, g, i, h) && h.broker.Some? && o < h.broker.value && Outstanding(u, h, o)
  {
    var n, max := |g.holders|, Larger(g.end, o + 1);
    var started := StartPast(u, g, i, o);
    var stored := EmptyPullStores(u, true, g, i, started, n, max);
    NewOwnerIdle(u, g, stored, o);
    h := Commit(u, true, g, i, stored, 0);
    NewOwnerIdle(u, g, h, o);
  }

  // ---- Exactly when the group delivers ----

  /** Where the group's promise begins at the earliest. */
  function Beginning(u: Setting): int {
    if u.base.Some? then u.base.value else u.end
  }

  /** The first owner starts at the end of the queue as the history finds it. */
  lemma FirstOwner(u: Setting) returns (g: Group)
    requires ValidSetting(u) && StartsAtEnd(u)
    ensures CalmReaches(u, true, InitGroup(u), -1, g) && OthersCalm(u, g, -1) && u.end <= g.end
    ensures g.holders == [Holder(0, u.end, Init(u.end))]
  {
    WhereToStart(u, u.end);
    CalmReachesSelf(u, true, InitGroup(u), -1);
    CalmLocal(u, true, InitGroup(u), -1, InitGroup(u), Acquire(0, None, u.end));
    g := Step(u, InitGroup(u), Acquire(0, None, u.end));
  }

  /** The loss, from the beginning of the history. */
  lemma BoldStartHappens(u: Setting, o: int) returns (states: seq<Group>, acts: seq<GroupAction>)
    requires ValidSetting(u) && StartsAtEnd(u) && o in u.cfg.stream && Beginning(u) <= o
    ensures IsRun(u, states, acts) && forall k :: 0 <= k < |states| ==> NoHazard(u, states[k])
    ensures var g := states[|acts|]; g.broker.Some? && o < g.broker.value && Outstanding(u, g, o)
  {
    var g := FirstOwner(u);
    var h := BoldStartLoses(u, g, -1, o);
    CalmReachesThen(u, true, InitGroup(u), -1, g, h);
    states, acts :| CalmPath(u, true, -1, states, acts) && states[0] == InitGroup(u) && states[|acts|] == h;
    forall k | 0 <= k < |states| ensures NoHazard(u, states[k]) {
      assert OthersCalm(u, states[k], -1);
    }
  }

  lemma {:induction false} CoveredUpTo(u: Setting, states: seq<Group>, acts: seq<GroupAction>, k: nat)
    requires Path(u, states, acts) && k < |states| && Covered(u, states[0])
    ensures Covered(u, states[k])
  {
    if k == 0 {
    } else {
      CoveredUpTo(u, states, acts, k - 1);
      StepGrowsGroup(u, states[k - 1], acts[k - 1]);
      CoveredStays(u, states[k - 1], states[k]);
    }
  }

  lemma CoveredDelivers(u: Setting, states: seq<Group>, acts: seq<GroupAction>, k: nat)
    requires ValidSetting(u) && IsRun(u, states, acts) && k < |states|
    requires forall j :: 0 <= j < |states| ==> NoHazard(u, states[j])
    requires Covered(u, InitGroup(u))
    ensures DeliversAll(u, states[k])
  {
    forall j | 0 <= j < |acts| ensures Covered(u, states[j]) {
      CoveredUpTo(u, states, acts, j);
    }
    RunInv(u, states, acts, k);
    InvDelivers(u, states[k]);
  }

  /** Exactly which settings deliver at least once in every history without a hazard: those in which an owner
      whose offset query comes back empty does not start at the end of the queue (CONSUME_FROM_FIRST_OFFSET,
      CONSUME_FROM_LAST_OFFSET for a retry topic, or such a queue is not started at all), and those in which
      there is no message to skip, neither one not committed yet nor one that arrives. An offset committed
      before does not help, because a query can also be refused or time out. */
  lemma DeliversExactly(u: Setting)
    requires ValidSetting(u)
    ensures (forall states, acts, k: nat ::
               IsRun(u, states, acts) && (forall j :: 0 <= j < |states| ==> NoHazard(u, states[j])) && k < |states| ==>
                 DeliversAll(u, states[k]))
       <==> (StartsAtEnd(u) ==> forall o :: o in u.cfg.stream ==> o < Beginning(u))
  {
    if StartsAtEnd(u) ==> forall o :: o in u.cfg.stream ==> o < Beginning(u) {
      forall states, acts, k: nat |
        IsRun(u, states, acts) && (forall j :: 0 <= j < |states| ==> NoHazard(u, states[j])) && k < |states|
        ensures DeliversAll(u, states[k])
      {
        CoveredDelivers(u, states, acts, k);
      }
    } else {
      var o :| o in u.cfg.stream && Beginning(u) <= o;
      var states, acts := BoldStartHappens(u, o);
      assert !DeliversAll(u, states[|acts|]);
    }
  }

  // ---- Exactly when a drop is safe for the group ----

  lemma PastHazardMore(s: State, few: set<int>, many: set<int>)
    requires few <= many && PastHazard(Blessed(s, few))
    ensures PastHazard(Blessed(s, many))
  {
    assert Lost(Blessed(s, many)) <= Lost(Blessed(s, few));
  }

  ghost predicate GroupPast(u: Setting, g: Group, i: nat) {
    i < |g.holders| && PastHazard(Seen(u, g, i))
  }

  lemma GroupPastStep(u: Setting, g: Group, i: nat, a: GroupAction)
    requires GroupInv(u, g) && CanStep(u, g, a) && GroupPast(u, g, i)
    ensures GroupPast(u, Step(u, g, a), i)
  {
    var h := Step(u, g, a);
    var s, t := g.holders[i].state, h.holders[i].state;
    StepGrowsGroup(u, g, a);
    if a.Local? && a.i == i {
      StepFrame(u.cfg, s, a.a);
    }
    HarmlessGrows(u, g, h, s, t);
    var many := Harmless(u, h, t);
    PastHazardMore(s, Harmless(u, g, s), many);
    if a.Local? && a.i == i {
      assert HolderOk(u, g, i);
      BlessedStep(u.cfg, s, many, a.a);
      PastHazardStep(u.cfg, Blessed(s, many), a.a);
    }
  }

  lemma {:induction false} CalmPathSafe(u: Setting, bold: bool, i: nat, states: seq<Group>, acts: seq<GroupAction>,
                                        k: nat)
    requires CalmPath(u, bold, i, states, acts) && k < |states|
    requires ValidSetting(u) && GroupInv(u, states[0]) && GroupPast(u, states[0], i)
    requires bold ==> Covered(u, states[0])
    ensures GroupInv(u, states[k]) && GroupPast(u, states[k], i)
  {
    if k == 0 {
    } else {
      CalmPathSafe(u, bold, i, states, acts, k - 1);
      var g, a := states[k - 1], acts[k - 1];
      assert states[k] == Step(u, g, a);
      assert OthersCalm(u, g, i) && OthersCalm(u, states[k], i);
      GroupPastStep(u, g, i, a);
      if bold {
        CoveredUpTo(u, states, acts, k - 1);
      }
      GroupInvStep(u, g, a);
    }
  }

  /** A clear changes neither what was cached nor what is done. */
  lemma SeenAfterClear(u: Setting, g: Group, i: nat, a: Action)
    requires CanStep(u, g, Local(i, a)) && Clears(g.holders[i].state, a)
    ensures var r := Step(u, g, Local(i, a)); Seen(u, r, i) == Apply(u.cfg, Seen(u, g, i), a)
    ensures Enabled(u.cfg, Seen(u, g, i), a) && Clears(Seen(u, g, i), a)
  {
    var r := Step(u, g, Local(i, a));
    var s, t := g.holders[i].state, r.holders[i].state;
    BlessedStep(u.cfg, s, Harmless(u, g, s), a);
    assert forall j :: 0 <= j < |g.holders| ==> r.holders[j].state.done == g.holders[j].state.done;
    assert forall o :: DoneSomewhere(r, o) <==> DoneSomewhere(g, o);
    assert Harmless(u, r, t) == Harmless(u, g, s);
  }

  lemma CalmClearKeeps(u: Setting, g: Group, i: nat, a: Action)
    requires GroupInv(u, g) && CanStep(u, g, Local(i, a)) && Clears(g.holders[i].state, a)
    requires !ClearRaces(Seen(u, g, i))
    ensures var r := Step(u, g, Local(i, a)); GroupInv(u, r) && GroupPast(u, r, i)
  {
    var r := Step(u, g, Local(i, a));
    assert HolderOk(u, g, i);
    SeenAfterClear(u, g, i, a);
    AfterCalmClear(u.cfg, g.holders[i].start, Seen(u, g, i), a);
    StepGrowsGroup(u, g, Local(i, a));
    DeliveredStays(u, g, r, g.holders[i].start);
    forall j | 0 <= j < |r.holders| ensures HolderOk(u, r, j) {
      if j != i {
        assert HolderOk(u, g, j);
        StillHolder(u, g, r, j);
      }
    }
    OffsetsStep(u, g, Local(i, a));
  }

  lemma ClearKeepsOutstanding(u: Setting, g: Group, i: nat, a: Action, o: int)
    requires CanStep(u, g, Local(i, a)) && Clears(g.holders[i].state, a)
    ensures Outstanding(u, Step(u, g, Local(i, a)), o) <==> Outstanding(u, g, o)
  {
    var r := Step(u, g, Local(i, a));
    assert forall j :: 0 <= j < |g.holders| ==> r.holders[j].state.done == g.holders[j].state.done;
  }

  /** A clear that races loses, even if no owner starts boldly. */
  lemma RacingClearLoses(u: Setting, bold: bool, g: Group, i: nat, a: Action) returns (h: Group)
    requires GroupInv(u, g) && OthersCalm(u, g, i) && CanStep(u, g, Local(i, a)) && Clears(g.holders[i].state, a)
    requires ClearRaces(Seen(u, g, i))
    ensures CalmReaches(u, bold, Step(u, g, Local(i, a)), i, h) && !BrokerDelivered(u, h)
  {
    var r := Step(u, g, Local(i, a));
    var seen, start := Seen(u, g, i), g.holders[i].start;
    assert HolderOk(u, g, i);
    SeenAfterClear(u, g, i, a);
    CalmStep(u, g, i, Local(i, a));
    ClearHazard(u.cfg, seen, a);
    RangesStep(u.cfg, start, seen, a);
    OnePullStep(u.cfg, seen, a);
    var o;
    h, o := GroupHazardLoses(u, bold, r, i);
  }

  /** A clear that does not race is safe. */
  lemma CalmClearSafe(u: Setting, bold: bool, g: Group, i: nat, a: Action, h: Group)
    requires ValidSetting(u) && GroupInv(u, g) && CanStep(u, g, Local(i, a)) && Clears(g.holders[i].state, a)
    requires !ClearRaces(Seen(u, g, i)) && (bold ==> Covered(u, g))
    requires CalmReaches(u, bold, Step(u, g, Local(i, a)), i, h)
    ensures BrokerDelivered(u, h)
  {
    var r := Step(u, g, Local(i, a));
    CalmClearKeeps(u, g, i, a);
    StepGrowsGroup(u, g, Local(i, a));
    if bold {
      CoveredStays(u, g, r);
    }
    var states, acts :| CalmPath(u, bold, i, states, acts) && states[0] == r && states[|acts|] == h;
    CalmPathSafe(u, bold, i, states, acts, |acts|);
  }

  /** Exactly when dropping a queue is safe for the group: after a clear of holder i, as long as no other holder
      gets into a hazard of its own and no owner starts boldly, the broker's offset never passes a message that
      no member has finished, if and only if the clear did not race. A race is a pull of i between its drop
      check and its use of the cache, while messages are cleared away that no other member has finished. */
  lemma GroupClearSafeExactly(u: Setting, g: Group, i: nat, a: Action)
    requires ValidSetting(u) && GroupInv(u, g) && OthersCalm(u, g, i)
    requires CanStep(u, g, Local(i, a)) && Clears(g.holders[i].state, a)
    ensures (forall h :: CalmReaches(u, false, Step(u, g, Local(i, a)), i, h) ==> BrokerDelivered(u, h))
       <==> !ClearRaces(Seen(u, g, i))
  {
    if ClearRaces(Seen(u, g, i)) {
      var h := RacingClearLoses(u, false, g, i, a);
      assert !BrokerDelivered(u, h);
    } else {
      forall h | CalmReaches(u, false, Step(u, g, Local(i, a)), i, h) ensures BrokerDelivered(u, h) {
        CalmClearSafe(u, false, g, i, a, h);
      }
    }
  }

  /** With bold starts among the continuations, there must also be nothing that one could skip. */
  lemma BoldClearSafeExactly(u: Setting, g: Group, i: nat, a: Action)
    requires ValidSetting(u) && GroupInv(u, g) && OthersCalm(u, g, i)
    requires CanStep(u, g, Local(i, a)) && Clears(g.holders[i].state, a)
    ensures (forall h :: CalmReaches(u, true, Step(u, g, Local(i, a)), i, h) ==> BrokerDelivered(u, h))
       <==> !ClearRaces(Seen(u, g, i)) && Covered(u, g)
  {
    var r := Step(u, g, Local(i, a));
    CalmStep(u, g, i, Local(i, a));
    if ClearRaces(Seen(u, g, i)) {
      var h := RacingClearLoses(u, true, g, i, a);
      assert !BrokerDelivered(u, h);
    } else if !Covered(u, g) {
      var o :| Outstanding(u, g, o);
      ClearKeepsOutstanding(u, g, i, a, o);
      var h := BoldStartLoses(u, r, i, o);
      assert !BrokerDelivered(u, h);
    } else {
      forall h | CalmReaches(u, true, r, i, h) ensures BrokerDelivered(u, h) {
        CalmClearSafe(u, true, g, i, a, h);
      }
    }
  }
}
