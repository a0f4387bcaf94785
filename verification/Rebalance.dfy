/** RebalancePush: turning an allocation into changes of the request table, on the real objects. */
module Rebalance {
  import opened Basics
  import opened Allocation
  import opened ProcessQueue
  import opened OffsetStore

  /** What a pass meets outside: which requests have not been pulled for 120 s, how the broker answers,
      where new queues start, and whose first pull task is accepted. */
  datatype Env = Env(
    expired: set<Queue>,
    fetch: map<Queue, Fetch>,
    place: ConsumeFromWhere,
    maxOffset: map<Queue, int>,
    accepted: set<Queue>)

  function FetchOf(env: Env, q: Queue): Fetch {
    if q in env.fetch then env.fetch[q] else Unreachable
  }

  function MaxOf(env: Env, q: Queue): Option<int> {
    if q in env.maxOffset then Some(env.maxOffset[q]) else None
  }

  function Where(env: Env, q: Queue): int {
    PullFromWhere(env.place, IsRetry(q.topic), FetchResult(FetchOf(env, q)), MaxOf(env, q))
  }

  /** Where a pass starts a queue, by the broker's answer, the kind of topic and the configured place: at a committed
      offset, whatever the place, if it is one of those handled; nowhere if the broker's address is not known; and
      otherwise, with no offset committed, at 0, at the end or nowhere. */
  lemma WhereExactly(env: Env, q: Queue)
    ensures env.place.OtherPlace? || q !in env.fetch || env.fetch[q].Unreachable? ==> Where(env, q) == -1
    ensures q in env.fetch && !env.place.OtherPlace? ==> match env.fetch[q]
      case Fetched(c) => (c >= 0 ==> Where(env, q) == c) && (c < -1 ==> Where(env, q) == -1)
      case Unreachable => true
      case BrokerRefused =>
        var end := if q in env.maxOffset then env.maxOffset[q] else -1;
        && (env.place.FirstOffset? ==> Where(env, q) == 0)
        && (env.place.LastOffset? ==> Where(env, q) == if IsRetry(q.topic) then 0 else end)
        && (env.place.Timestamp? ==> Where(env, q) == if IsRetry(q.topic) then end else -1)
  {
  }

  // ---- One pass, on sets of queues ----

  /** The drop test of the first loop. */
  predicate MustDrop(q: Queue, topic: string, mine: seq<Queue>, env: Env) {
    q.topic == topic && (q !in mine || q in env.expired)
  }

  function Dropped(keys: set<Queue>, topic: string, mine: seq<Queue>, env: Env): set<Queue> {
    set q | q in keys && MustDrop(q, topic, mine, env)
  }

  function Kept(keys: set<Queue>, topic: string, mine: seq<Queue>, env: Env): set<Queue> {
    keys - Dropped(keys, topic, mine, env)
  }

  /** Queues that get a new request: allocated, not held, and with a usable start offset. */
  function Wanted(kept: set<Queue>, mine: seq<Queue>, env: Env): set<Queue> {
    set q | q in mine && q !in kept && Where(env, q) >= 0
  }

  function FinalKeys(keys: set<Queue>, topic: string, mine: seq<Queue>, env: Env): set<Queue> {
    var kept := Kept(keys, topic, mine, env);
    kept + Wanted(kept, mine, env) * env.accepted
  }

  /** The offset table after the broker has been asked about the queues in asked. */
  function Refreshed(table: map<Queue, int>, asked: set<Queue>, env: Env): map<Queue, int> {
    map q | q in table.Keys + (set a | a in asked && FetchOf(env, a).Fetched?) ::
      if q in asked && FetchOf(env, q).Fetched? then FetchOf(env, q).offset else table[q]
  }

  /** The queues whose offset the broker is asked for: allocated but not held. The places that are not
      handled ask nothing. */
  function Asked(kept: set<Queue>, mine: seq<Queue>, env: Env): set<Queue> {
    if env.place.OtherPlace? then {} else set q | q in mine && q !in kept
  }

  /** The offset table after the start of one queue has been computed. */
  function Consulted(table: map<Queue, int>, q: Queue, env: Env): map<Queue, int> {
    if env.place.OtherPlace? then table else Read(table, q, ReadFromStore, FetchOf(env, q)).0
  }

  function FinalOffsets(table: map<Queue, int>, keys: set<Queue>, topic: string, mine: seq<Queue>, env: Env)
    : map<Queue, int>
  {
    Refreshed(table - Dropped(keys, topic, mine, env), Asked(Kept(keys, topic, mine, env), mine, env), env)
  }

  /** Whether a pass reports a change. */
  predicate Changes(keys: set<Queue>, topic: string, mine: seq<Queue>, env: Env) {
    Dropped(keys, topic, mine, env) != {} || Wanted(Kept(keys, topic, mine, env), mine, env) != {}
  }

  lemma WantedSnoc(kept: set<Queue>, mine: seq<Queue>, env: Env, i: nat)
    requires i < |mine|
    ensures Wanted(kept, mine[..i + 1], env) == Wanted(kept, mine[..i], env)
      + if mine[i] !in kept && Where(env, mine[i]) >= 0 then {mine[i]} else {}
    ensures Asked(kept, mine[..i + 1], env) == Asked(kept, mine[..i], env)
      + if mine[i] !in kept && !env.place.OtherPlace? then {mine[i]} else {}
  {
    assert mine[..i + 1] == mine[..i] + [mine[i]];
  }

  /** What the add loop has reached after the first i allocated queues: the keys of the table, the offset
      table and the changed flag. */
  ghost predicate Visited(kept: set<Queue>, mine: seq<Queue>, i: nat, env: Env, keys: set<Queue>,
                          before: map<Queue, int>, offsets: map<Queue, int>, changed: bool)
    requires i <= |mine|
  {
    && keys == kept + Wanted(kept, mine[..i], env)
    && offsets == Refreshed(before, Asked(kept, mine[..i], env), env)
    && (changed <==> Wanted(kept, mine[..i], env) != {})
  }

  lemma NothingVisited(kept: set<Queue>, mine: seq<Queue>, env: Env, offsets: map<Queue, int>)
    ensures Visited(kept, mine, 0, env, kept, offsets, offsets, false)
  {
    assert Refreshed(offsets, {}, env) == offsets;
    assert Asked(kept, mine[..0], env) == {};
  }

  lemma RefreshedMore(table: map<Queue, int>, asked: set<Queue>, env: Env, q: Queue)
    ensures Read(Refreshed(table, asked, env), q, ReadFromStore, FetchOf(env, q)).0
         == Refreshed(table, asked + {q}, env)
  {
  }

  /** Visiting one more queue: asked and added only when it is not in the table yet. */
  lemma VisitNext(kept: set<Queue>, mine: seq<Queue>, i: nat, env: Env, keys: set<Queue>,
                  before: map<Queue, int>, offsets: map<Queue, int>, changed: bool)
    requires i < |mine| && Visited(kept, mine, i, env, keys, before, offsets, changed)
    ensures var q := mine[i];
      var added := q !in keys && Where(env, q) >= 0;
      var asked := if q in keys then offsets else Consulted(offsets, q, env);
      Visited(kept, mine, i + 1, env, keys + if added then {q} else {}, before, asked, changed || added)
  {
    var q := mine[i];
    WantedSnoc(kept, mine, env, i);
    RefreshedMore(before, Asked(kept, mine[..i], env), env, q);
    if q in keys {
      assert Asked(kept, mine[..i + 1], env) == Asked(kept, mine[..i], env);
    }
  }

  /** What a pass holds of the topic afterwards: exactly the allocated queues that were held and had not
      expired, or that got a start offset and an accepted pull task. Other topics are left alone. */
  lemma PassSpecification(keys: set<Queue>, topic: string, mine: seq<Queue>, env: Env, q: Queue)
    requires forall m :: m in mine ==> m.topic == topic
    ensures q in FinalKeys(keys, topic, mine, env) <==>
      if q.topic != topic then q in keys
      else q in mine && ((q in keys && q !in env.expired) || (Where(env, q) >= 0 && q in env.accepted))
  {
  }

  /** What a pass leaves in the offset table: the broker's answer for an allocated queue that was not held, or had
      expired, and was asked about; otherwise nothing for a queue that was dropped, and the entry there was for
      any other. */
  lemma OffsetsSpecification(table: map<Queue, int>, keys: set<Queue>, topic: string, mine: seq<Queue>, env: Env,
                             q: Queue)
    requires forall m :: m in mine ==> m.topic == topic
    ensures var after := FinalOffsets(table, keys, topic, mine, env);
      if !env.place.OtherPlace? && q in mine && (q !in keys || q in env.expired)
         && q in env.fetch && env.fetch[q].Fetched?
      then q in after && after[q] == env.fetch[q].offset
      else if q in keys && q.topic == topic && (q !in mine || q in env.expired) then q !in after
      else (q in after <==> q in table) && (q in table ==> after[q] == table[q])
  {
  }

  /** A pass reports a change exactly when it drops a queue or has a start for one that was not held. */
  lemma ChangesExactly(keys: set<Queue>, topic: string, mine: seq<Queue>, env: Env)
    ensures Changes(keys, topic, mine, env) <==>
      || (exists q :: q in keys && q.topic == topic && (q !in mine || q in env.expired))
      || (exists q :: q in mine && q !in keys && Where(env, q) >= 0)
  {
    if q :| q in keys && q.topic == topic && (q !in mine || q in env.expired) {
      assert q in Dropped(keys, topic, mine, env);
    } else if q :| q in mine && q !in keys && Where(env, q) >= 0 {
      assert q in Wanted(Kept(keys, topic, mine, env), mine, env);
    }
  }

  /** A pass succeeds fully when every allocated queue it has to add gets a start offset and a pull task. */
  ghost predicate FullySuccessful(keys: set<Queue>, topic: string, mine: seq<Queue>, env: Env) {
    forall q :: q in mine && q !in Kept(keys, topic, mine, env) ==> Where(env, q) >= 0 && q in env.accepted
  }

  /** A pass holds all that was allocated if and only if it succeeded fully. */
  lemma HoldsAllIff(keys: set<Queue>, topic: string, mine: seq<Queue>, env: Env)
    ensures (forall q :: q in mine ==> q in FinalKeys(keys, topic, mine, env))
       <==> FullySuccessful(keys, topic, mine, env)
  {
    if forall q :: q in mine ==> q in FinalKeys(keys, topic, mine, env) {
      forall q | q in mine && q !in Kept(keys, topic, mine, env) ensures Where(env, q) >= 0 && q in env.accepted {
        assert q in FinalKeys(keys, topic, mine, env);
      }
    }
  }

  /** After a pass, a second one with the same allocation and nothing expired reports no change, drops
      nothing and adds nothing, provided the first one got every start offset and pull task; after any
      other first pass it only retries the queues that are missing. */
  lemma SecondPass(keys: set<Queue>, topic: string, mine: seq<Queue>, env: Env, again: Env)
    requires forall q :: q in FinalKeys(keys, topic, mine, env) ==> q !in again.expired
    ensures var after := FinalKeys(keys, topic, mine, env);
      && Dropped(after, topic, mine, again) == {}
      && Wanted(Kept(after, topic, mine, again), mine, again) == Wanted(after, mine, again)
      && (FullySuccessful(keys, topic, mine, env) ==>
           !Changes(after, topic, mine, again)
           && FinalKeys(after, topic, mine, again) == after
           && Asked(Kept(after, topic, mine, again), mine, again) == {})
  {
    var after := FinalKeys(keys, topic, mine, env);
    HoldsAllIff(keys, topic, mine, env);
    forall q | q in after ensures !MustDrop(q, topic, mine, again) {
      assert q in Kept(keys, topic, mine, env) || q in mine;
    }
    assert Kept(after, topic, mine, again) == after;
  }

  /** The keys after a run of passes over the topic, each with its own allocation and environment. */
  function PassesKeys(keys: set<Queue>, topic: string, passes: seq<(seq<Queue>, Env)>): set<Queue> {
    if passes == [] then keys else
      var n := |passes| - 1;
      FinalKeys(PassesKeys(keys, topic, passes[..n]), topic, passes[n].0, passes[n].1)
  }

  /** The pass gives q a start offset and its task is accepted. */
  predicate Starts(pass: (seq<Queue>, Env), q: Queue) {
    q in pass.0 && Where(pass.1, q) >= 0 && q in pass.1.accepted
  }

  predicate EverStarted(passes: seq<(seq<Queue>, Env)>, q: Queue) {
    passes != [] && (Starts(passes[|passes| - 1], q) || EverStarted(passes[..|passes| - 1], q))
  }

  /** q is held at some point of the run of passes. */
  predicate EverHeld(keys: set<Queue>, topic: string, passes: seq<(seq<Queue>, Env)>, q: Queue) {
    q in PassesKeys(keys, topic, passes) || (passes != [] && EverHeld(keys, topic, passes[..|passes| - 1], q))
  }

  /** A queue that is not held comes to be held in a run of passes exactly when one of them starts it. */
  lemma {:induction false} StartedIff(keys: set<Queue>, topic: string, passes: seq<(seq<Queue>, Env)>, q: Queue)
    requires q !in keys
    ensures EverHeld(keys, topic, passes, q) <==> EverStarted(passes, q)
  {
    if passes == [] {
    } else {
      var n := |passes| - 1;
      StartedIff(keys, topic, passes[..n], q);
      var before := PassesKeys(keys, topic, passes[..n]);
      assert q in before ==> EverHeld(keys, topic, passes[..n], q);
      assert q !in before ==> (q in FinalKeys(before, topic, passes[n].0, passes[n].1) <==> Starts(passes[n], q));
    }
  }

  /** No usable offset: an ordinary topic under CONSUME_FROM_TIMESTAMP for which the broker gives no committed
      offset, or any queue under a place that is not handled. */
  predicate Unstartable(env: Env, q: Queue) {
    env.place.OtherPlace?
    || (env.place.Timestamp? && !IsRetry(q.topic) && !(FetchOf(env, q).Fetched? && FetchOf(env, q).offset >= 0))
  }

  lemma {:induction false} UnstartableNeverStarts(passes: seq<(seq<Queue>, Env)>, q: Queue)
    requires forall k :: 0 <= k < |passes| ==> Unstartable(passes[k].1, q)
    ensures !EverStarted(passes, q)
  {
    if passes == [] {
    } else {
      UnstartableNeverStarts(passes[..|passes| - 1], q);
      assert Unstartable(passes[|passes| - 1].1, q);
    }
  }

  /** However often the rebalancer runs, such a queue is never held. */
  lemma NeverStarted(keys: set<Queue>, topic: string, passes: seq<(seq<Queue>, Env)>, q: Queue)
    requires q !in keys && forall k :: 0 <= k < |passes| ==> Unstartable(passes[k].1, q)
    ensures !EverHeld(keys, topic, passes, q)
  {
    UnstartableNeverStarts(passes, q);
    StartedIff(keys, topic, passes, q);
  }

  function DropView(v: View): View {
    v.(dropped := true, cache := map[], taken := map[])
  }

  function FreshView(start: int): View {
    EmptyView().(nextOffset := start)
  }

  lemma MinusMinus<V>(m: map<Queue, V>, a: set<Queue>, q: Queue)
    ensures m - a - {q} == m - (a + {q})
  {
  }

  /** The offset store after the queues in gone were persisted and forgotten: their offsets, and nothing
      else, have been sent. */
  ghost predicate Flushed(table: map<Queue, int>, sent: seq<(Queue, int)>, gone: set<Queue>,
                          tableNow: map<Queue, int>, sentNow: seq<(Queue, int)>) {
    && tableNow == table - gone
    && sent <= sentNow
    && (forall p :: p in sentNow[|sent|..] <==> p.0 in gone && p.0 in table && p.1 == table[p.0])
  }

  lemma FlushNone(table: map<Queue, int>, sent: seq<(Queue, int)>)
    ensures Flushed(table, sent, {}, table, sent)
  {
    assert table - {} == table;
  }

  lemma FlushMore(table: map<Queue, int>, sent: seq<(Queue, int)>, gone: set<Queue>,
                  tableNow: map<Queue, int>, sentNow: seq<(Queue, int)>, q: Queue)
    requires Flushed(table, sent, gone, tableNow, sentNow) && q !in gone
    ensures Flushed(table, sent, gone + {q}, tableNow - {q}, Sent(tableNow, sentNow, q))
  {
    MinusMinus(table, gone, q);
    var later := Sent(tableNow, sentNow, q);
    if q in table {
      assert later[|sent|..] == sentNow[|sent|..] + [(q, table[q])];
    }
  }

  ghost predicate Apart(table: map<Queue, PullRequest>) {
    forall p, q :: p in table && q in table && p != q ==> table[p] != table[q]
  }

  /** A request waiting for its first pull task. */
  datatype Added = Added(queue: Queue, request: PullRequest)

  /** toAdd lists, once each, exactly the requests of the table that base does not have. */
  ghost predicate Lists(toAdd: seq<Added>, table: map<Queue, PullRequest>, base: map<Queue, PullRequest>) {
    && (forall i :: 0 <= i < |toAdd| ==> Listed(toAdd[i], table, base))
    && (forall i, j :: 0 <= i < j < |toAdd| ==> toAdd[i].queue != toAdd[j].queue)
    && (forall q :: q in table && q !in base ==> exists i :: 0 <= i < |toAdd| && toAdd[i].queue == q)
  }

  ghost predicate Listed(a: Added, table: map<Queue, PullRequest>, base: map<Queue, PullRequest>) {
    a.queue in table && a.queue !in base && table[a.queue] == a.request
  }

  ghost predicate Separate(toAdd: seq<Added>) {
    forall i, j :: 0 <= i < j < |toAdd| ==> toAdd[i].queue != toAdd[j].queue && toAdd[i].request != toAdd[j].request
  }

  lemma ListsSnoc(toAdd: seq<Added>, table: map<Queue, PullRequest>, base: map<Queue, PullRequest>, a: Added)
    requires Lists(toAdd, table, base) && a.queue !in table && base.Keys <= table.Keys
    ensures Lists(toAdd + [a], table[a.queue := a.request], base)
  {
    var longer, wider := toAdd + [a], table[a.queue := a.request];
    forall q | q in wider && q !in base ensures exists i :: 0 <= i < |longer| && longer[i].queue == q {
      if q == a.queue {
        assert longer[|toAdd|].queue == q;
      } else {
        var i :| 0 <= i < |toAdd| && toAdd[i].queue == q;
        assert longer[i].queue == q;
      }
    }
  }

  class RebalancePush {
    var requestQueueTable: map<Queue, PullRequest>
    const store: RemoteBrokerOffsetStore

    constructor (store: RemoteBrokerOffsetStore)
      ensures Valid() && requestQueueTable == map[] && this.store == store
    {
      requestQueueTable := map[];
      this.store := store;
    }

    /** No two queues share a request object. */
    ghost predicate Valid()
      reads this
    {
      Apart(requestQueueTable)
    }

    /** persist, then drop the queue's entry from the offset table. */
    method RemoveUnnecessaryMessageQueue(mq: Queue)
      modifies store
      ensures store.offsetTable == old(store.offsetTable) - {mq}
      ensures store.sent == Sent(old(store.offsetTable), old(store.sent), mq)
    {
      store.Persist(mq);
      store.RemoveOffset(mq);
    }

    method DropOne(mq: Queue)
      requires Valid() && mq in requestQueueTable
      modifies this, store, requestQueueTable[mq]
      ensures Valid() && requestQueueTable == old(requestQueueTable) - {mq}
      ensures old(requestQueueTable[mq]).Value() == DropView(old(requestQueueTable[mq].Value()))
      ensures store.offsetTable == old(store.offsetTable) - {mq}
      ensures store.sent == Sent(old(store.offsetTable), old(store.sent), mq)
    {
      var request := requestQueueTable[mq];
      request.SetDropped(true);
      RemoveUnnecessaryMessageQueue(mq);
      request.ClearAllMsgs();
      requestQueueTable := requestQueueTable - {mq};
    }

    /** The state of the drop loop when exactly the queues in done have been dropped. */
    ghost predicate DroppedSoFar(snapshot: map<Queue, PullRequest>, was: map<Queue, View>, done: set<Queue>)
      reads this, snapshot.Values
    {
      && Apart(snapshot) && was.Keys == snapshot.Keys && done <= snapshot.Keys
      && requestQueueTable == snapshot - done
      && (forall q :: q in snapshot ==> snapshot[q].Value() == if q in done then DropView(was[q]) else was[q])
    }

    /** One drop inside the loop. */
    method DropNext(mq: Queue, ghost snapshot: map<Queue, PullRequest>, ghost was: map<Queue, View>,
                    ghost done: set<Queue>,
                    ghost table: map<Queue, int>, ghost sent: seq<(Queue, int)>)
      requires DroppedSoFar(snapshot, was, done) && mq in snapshot && mq !in done
      requires Flushed(table, sent, done, store.offsetTable, store.sent)
      modifies this, store, snapshot[mq]
      ensures DroppedSoFar(snapshot, was, done + {mq})
      ensures Flushed(table, sent, done + {mq}, store.offsetTable, store.sent)
    {
      assert requestQueueTable[mq] == snapshot[mq];
      FlushMore(table, sent, done, store.offsetTable, store.sent, mq);
      DropOne(mq);
      MinusMinus(snapshot, done, mq);
    }

    method DropLoop(topic: string, mqsSelf: seq<Queue>, env: Env, ghost was: map<Queue, View>, ghost gone: set<Queue>)
      returns (changed: bool)
      requires DroppedSoFar(requestQueueTable, was, {})
      requires gone == Dropped(requestQueueTable.Keys, topic, mqsSelf, env)
      modifies this, store, requestQueueTable.Values
      ensures DroppedSoFar(old(requestQueueTable), was, gone)
      ensures Flushed(old(store.offsetTable), old(store.sent), gone, store.offsetTable, store.sent)
      ensures changed <==> gone != {}
    {
      changed := false;
      FlushNone(store.offsetTable, store.sent);
      var snapshot := requestQueueTable;
      ghost var done: set<Queue> := {};
      var todo := snapshot.Keys;
      while todo != {}
        invariant todo <= snapshot.Keys && done <= gone
        invariant forall q :: q in gone ==> q in done || q in todo
        invariant done !! todo
        invariant DroppedSoFar(snapshot, was, done)
        invariant Flushed(old(store.offsetTable), old(store.sent), done, store.offsetTable, store.sent)
        invariant changed <==> done != {}
        decreases |todo|
      {
        var q :| q in todo;
        if q.topic == topic {
          if q !in mqsSelf || q in env.expired {
            DropNext(q, snapshot, was, done, old(store.offsetTable), old(store.sent));
            done := done + {q};
            changed := true;
          }
        }
        todo := todo - {q};
      }
      assert done == gone;
    }

    /** First loop: drop what is not allocated any more or has expired. */
    method DropPhase(topic: string, mqsSelf: seq<Queue>, env: Env) returns (changed: bool)
      requires Valid()
      modifies this, store, requestQueueTable.Values
      ensures Valid()
      ensures var gone := Dropped(old(requestQueueTable).Keys, topic, mqsSelf, env);
        && requestQueueTable == old(requestQueueTable) - gone
        && Flushed(old(store.offsetTable), old(store.sent), gone, store.offsetTable, store.sent)
        && (changed <==> gone != {})
        && forall q :: q in old(requestQueueTable) ==>
          old(requestQueueTable[q]).Value() ==
            if q in gone then DropView(old(requestQueueTable[q].Value())) else old(requestQueueTable[q].Value())
      ensures forall q :: q in old(requestQueueTable) && q !in requestQueueTable ==>
        && old(requestQueueTable[q]).dropped
        && old(requestQueueTable[q]).msgTreeMap == map[] && old(requestQueueTable[q]).msgTreeMapTemp == map[]
        && old(requestQueueTable[q]).nextOffset == old(requestQueueTable[q].nextOffset)
    {
      ghost var was := map q | q in requestQueueTable :: requestQueueTable[q].Value();
      changed := DropLoop(topic, mqsSelf, env, was, Dropped(requestQueueTable.Keys, topic, mqsSelf, env));
    }

    /** computePullFromWhere reads the broker's offset, which also refreshes the offset table; for the places
        that are not handled it does nothing. */
    method ComputePullFromWhere(mq: Queue, env: Env) returns (start: int)
      modifies store`offsetTable
      ensures start == Where(env, mq)
      ensures store.offsetTable == Consulted(old(store.offsetTable), mq, env)
    {
      if env.place.OtherPlace? {
        return -1;
      }
      var lastOffset := store.ReadOffset(mq, ReadFromStore, FetchOf(env, mq));
      start := PullFromWhere(env.place, IsRetry(mq.topic), lastOffset, MaxOf(env, mq));
    }

    /** What the add loop has done to the table: base kept as it was, and a new request for each other queue. */
    ghost predicate Extends(base: map<Queue, PullRequest>, env: Env)
      reads this, requestQueueTable.Values
    {
      && (forall q :: q in base ==> q in requestQueueTable && requestQueueTable[q] == base[q])
      && (forall q :: q in requestQueueTable && q !in base ==>
            requestQueueTable[q].Value() == FreshView(Where(env, q)))
    }

    /** The state of the start loop after n requests: those refused have been dropped and removed. */
    ghost predicate Started(created: map<Queue, PullRequest>, base: map<Queue, PullRequest>,
                            toAdd: seq<Added>, n: nat, env: Env)
      requires n <= |toAdd|
      reads this, set i | 0 <= i < |toAdd| :: toAdd[i].request
    {
      && (forall q :: q in requestQueueTable ==> q in created && requestQueueTable[q] == created[q])
      && base.Keys <= requestQueueTable.Keys
      && (forall i :: 0 <= i < |toAdd| ==> Placed(toAdd[i], i < n, env))
    }

    ghost predicate Placed(a: Added, offered: bool, env: Env)
      reads this, a.request
    {
      && (a.queue in requestQueueTable <==> !offered || a.queue in env.accepted)
      && a.request.Value() == FreshView(Where(env, a.queue)).(dropped := a.queue !in requestQueueTable)
    }

    /** A new request for a queue with a usable start. */
    method AddOne(mq: Queue, start: int, env: Env, ghost base: map<Queue, PullRequest>)
      returns (request: PullRequest)
      requires Valid() && Extends(base, env)
      requires mq !in requestQueueTable && start == Where(env, mq)
      modifies this
      ensures Valid() && Extends(base, env)
      ensures fresh(request) && requestQueueTable == old(requestQueueTable)[mq := request]
    {
      request := new PullRequest();
      request.SetNextOffset(start);
      requestQueueTable := requestQueueTable[mq := request];
    }

    /** One step of the add loop. */
    method AddNext(mqsSelf: seq<Queue>, i: nat, env: Env, ghost base: map<Queue, PullRequest>,
                   ghost before: map<Queue, int>, changed: bool, toAdd: seq<Added>)
      returns (now: bool, longer: seq<Added>)
      requires Valid() && Extends(base, env) && Lists(toAdd, requestQueueTable, base)
      requires i < |mqsSelf|
      requires Visited(base.Keys, mqsSelf, i, env, requestQueueTable.Keys, before, store.offsetTable, changed)
      modifies this, store`offsetTable
      ensures Valid() && Extends(base, env) && Lists(longer, requestQueueTable, base)
      ensures Visited(base.Keys, mqsSelf, i + 1, env, requestQueueTable.Keys, before, store.offsetTable, now)
      ensures forall q :: q in requestQueueTable && q !in old(requestQueueTable) ==> fresh(requestQueueTable[q])
      ensures forall q :: q in old(requestQueueTable) ==>
        q in requestQueueTable && requestQueueTable[q] == old(requestQueueTable[q])
    {
      var mq := mqsSelf[i];
      now, longer := changed, toAdd;
      VisitNext(base.Keys, mqsSelf, i, env, requestQueueTable.Keys, before, store.offsetTable, changed);
      if mq !in requestQueueTable {
        var start := ComputePullFromWhere(mq, env);
        if start >= 0 {
          ghost var table := requestQueueTable;
          var request := AddOne(mq, start, env, base);
          ListsSnoc(toAdd, table, base, Added(mq, request));
          now, longer := true, toAdd + [Added(mq, request)];
        }
      }
    }

    /** Second loop: a request for every allocated queue that has none, if its start can be determined. */
    method AddPhase(mqsSelf: seq<Queue>, env: Env) returns (changed: bool, toAdd: seq<Added>)
      requires Valid()
      modifies this, store`offsetTable
      ensures Valid() && Extends(old(requestQueueTable), env)
      ensures Lists(toAdd, requestQueueTable, old(requestQueueTable))
      ensures forall q :: q in requestQueueTable && q !in old(requestQueueTable) ==>
        && fresh(requestQueueTable[q]) && requestQueueTable[q].nextOffset == Where(env, q)
        && requestQueueTable[q].msgTreeMap == map[] && requestQueueTable[q].msgTreeMapTemp == map[]
        && requestQueueTable[q].queueOffsetMax == 0 && !requestQueueTable[q].dropped
      ensures requestQueueTable.Keys == old(requestQueueTable).Keys + Wanted(old(requestQueueTable).Keys, mqsSelf, env)
      ensures store.offsetTable ==
        Refreshed(old(store.offsetTable), Asked(old(requestQueueTable).Keys, mqsSelf, env), env)
      ensures changed <==> Wanted(old(requestQueueTable).Keys, mqsSelf, env) != {}
    {
      changed, toAdd := false, [];
      ghost var base, offsets := requestQueueTable, store.offsetTable;
      NothingVisited(base.Keys, mqsSelf, env, offsets);
      for i := 0 to |mqsSelf|
        invariant Valid() && Extends(base, env) && Lists(toAdd, requestQueueTable, base)
        invariant forall q :: q in requestQueueTable && q !in base ==> fresh(requestQueueTable[q])
        invariant Visited(base.Keys, mqsSelf, i, env, requestQueueTable.Keys, offsets, store.offsetTable, changed)
      {
        changed, toAdd := AddNext(mqsSelf, i, env, base, offsets, changed, toAdd);
      }
      assert mqsSelf[..|mqsSelf|] == mqsSelf;
    }

    /** One step of the start loop. */
    method StartOne(toAdd: seq<Added>, i: nat, env: Env,
                    ghost created: map<Queue, PullRequest>, ghost base: map<Queue, PullRequest>)
      requires i < |toAdd| && Separate(toAdd) && toAdd[i].queue !in base
      requires Started(created, base, toAdd, i, env)
      modifies this, toAdd[i].request
      ensures Started(created, base, toAdd, i + 1, env)
    {
      var a := toAdd[i];
      if a.queue !in env.accepted {
        a.request.SetDropped(true);
        requestQueueTable := requestQueueTable - {a.queue};
      }
      assert Placed(a, true, env);
      forall k | 0 <= k < |toAdd| && k != i ensures Placed(toAdd[k], k < i + 1, env) {
        assert old(Placed(toAdd[k], k < i, env));
        assert toAdd[k].queue != a.queue && toAdd[k].request != a.request;
      }
    }

    /** Once every new request has been offered, the table has the kept queues and the accepted new ones. */
    lemma StartedKeys(toAdd: seq<Added>, env: Env, created: map<Queue, PullRequest>, base: map<Queue, PullRequest>)
      requires Lists(toAdd, created, base) && Started(created, base, toAdd, |toAdd|, env)
      requires forall q :: q in base ==> q in created && created[q] == base[q]
      ensures requestQueueTable.Keys == base.Keys + created.Keys * env.accepted
      ensures Extends(base, env)
    {
      forall q | q in created && q !in base
        ensures q in requestQueueTable <==> q in env.accepted
        ensures q in requestQueueTable ==> requestQueueTable[q].Value() == FreshView(Where(env, q))
      {
        var i :| 0 <= i < |toAdd| && toAdd[i].queue == q;
        assert Placed(toAdd[i], true, env) && Listed(toAdd[i], created, base);
      }
    }

    /** Third loop: hand each new request to the pull service; one that is refused is dropped and removed. */
    method StartPhase(toAdd: seq<Added>, env: Env, ghost base: map<Queue, PullRequest>)
      requires Valid() && Extends(base, env) && Lists(toAdd, requestQueueTable, base)
      modifies this, set i | 0 <= i < |toAdd| :: toAdd[i].request
      ensures Valid() && Extends(base, env)
      ensures forall q :: q in requestQueueTable ==>
        q in old(requestQueueTable) && requestQueueTable[q] == old(requestQueueTable[q])
      ensures requestQueueTable.Keys == base.Keys + old(requestQueueTable).Keys * env.accepted
      ensures forall i :: 0 <= i < |toAdd| ==> (toAdd[i].request.dropped <==> toAdd[i].queue !in env.accepted)
    {
      ghost var created := requestQueueTable;
      for i := 0 to |toAdd|
        invariant Started(created, base, toAdd, i, env)
      {
        assert Listed(toAdd[i], created, base);
        StartOne(toAdd, i, env, created, base);
      }
      StartedKeys(toAdd, env, created, base);
    }

    /** Second and third loop together. */
    method AddAndStart(mqsSelf: seq<Queue>, env: Env) returns (changed: bool)
      requires Valid()
      modifies this, store`offsetTable
      ensures Valid() && Extends(old(requestQueueTable), env)
      ensures var kept := old(requestQueueTable).Keys;
        && requestQueueTable.Keys == kept + Wanted(kept, mqsSelf, env) * env.accepted
        && store.offsetTable == Refreshed(old(store.offsetTable), Asked(kept, mqsSelf, env), env)
        && (changed <==> Wanted(kept, mqsSelf, env) != {})
      ensures forall q :: q in requestQueueTable && q !in old(requestQueueTable) ==> fresh(requestQueueTable[q])
    {
      ghost var kept := requestQueueTable;
      var toAdd;
      changed, toAdd := AddPhase(mqsSelf, env);
      StartPhase(toAdd, env, kept);
    }

    /** One rebalance pass over one topic. Dropped requests are dropped and emptied, kept ones are the same
        objects with the same contents, new ones are new objects that start where the offset query said. */
    method UpdateRequestTableInRebalance(topic: string, mqsSelf: seq<Queue>, env: Env) returns (changed: bool)
      requires Valid()
      modifies this, store, requestQueueTable.Values
      ensures Valid()
      ensures requestQueueTable.Keys == FinalKeys(old(requestQueueTable).Keys, topic, mqsSelf, env)
      ensures forall q :: q in Kept(old(requestQueueTable).Keys, topic, mqsSelf, env) ==>
        && requestQueueTable[q] == old(requestQueueTable[q])
        && requestQueueTable[q].Value() == old(requestQueueTable[q].Value())
      ensures forall q :: q in Dropped(old(requestQueueTable).Keys, topic, mqsSelf, env) ==>
        old(requestQueueTable[q]).Value() == DropView(old(requestQueueTable[q].Value()))
      ensures forall q :: q in requestQueueTable && q !in Kept(old(requestQueueTable).Keys, topic, mqsSelf, env) ==>
        fresh(requestQueueTable[q]) && requestQueueTable[q].Value() == FreshView(Where(env, q))
      ensures forall q :: q in requestQueueTable && q !in Kept(old(requestQueueTable).Keys, topic, mqsSelf, env) ==>
        && requestQueueTable[q].nextOffset == Where(env, q) && Where(env, q) >= 0
        && requestQueueTable[q].msgTreeMap == map[] && requestQueueTable[q].msgTreeMapTemp == map[]
        && requestQueueTable[q].queueOffsetMax == 0 && !requestQueueTable[q].dropped
      ensures forall q :: q in requestQueueTable && q !in Kept(old(requestQueueTable).Keys, topic, mqsSelf, env)
                          && q in env.fetch && env.fetch[q].Fetched? && env.fetch[q].offset >= 0 ==>
        requestQueueTable[q].nextOffset == env.fetch[q].offset
      ensures forall q :: q in Dropped(old(requestQueueTable).Keys, topic, mqsSelf, env) ==>
        && old(requestQueueTable[q]).dropped
        && old(requestQueueTable[q]).msgTreeMap == map[] && old(requestQueueTable[q]).msgTreeMapTemp == map[]
        && old(requestQueueTable[q]).nextOffset == old(requestQueueTable[q].nextOffset)
      ensures store.offsetTable ==
        FinalOffsets(old(store.offsetTable), old(requestQueueTable).Keys, topic, mqsSelf, env)
      ensures var gone := Dropped(old(requestQueueTable).Keys, topic, mqsSelf, env);
        Flushed(old(store.offsetTable), old(store.sent), gone, old(store.offsetTable) - gone, store.sent)
      ensures changed <==> Changes(old(requestQueueTable).Keys, topic, mqsSelf, env)
    {
      changed := DropPhase(topic, mqsSelf, env);
      var added := AddAndStart(mqsSelf, env);
      changed := changed || added;
    }

    /** persistConsumerOffset: sends the stored offset of every live queue and nothing else. */
    method PersistConsumerOffset()
      modifies store`sent
      ensures old(store.sent) <= store.sent
      ensures forall p :: p in store.sent[|old(store.sent)|..] <==>
        && p.0 in requestQueueTable && !requestQueueTable[p.0].dropped
        && p.0 in store.offsetTable && p.1 == store.offsetTable[p.0]
    {
      var before := store.sent;
      var live := set q | q in requestQueueTable && !requestQueueTable[q].dropped;
      var todo := live;
      assert store.sent[|before|..] == [];
      while todo != {}
        invariant todo <= live && before <= store.sent
        invariant forall p :: p in store.sent[|before|..] <==>
          p.0 in live - todo && p.0 in store.offsetTable && p.1 == store.offsetTable[p.0]
        decreases |todo|
      {
        var q :| q in todo;
        ghost var sent := store.sent;
        store.Persist(q);
        if q in store.offsetTable {
          assert store.sent[|before|..] == sent[|before|..] + [(q, store.offsetTable[q])];
        }
        todo := todo - {q};
      }
      assert live - todo == live;
    }
  }
}
