/** doRebalance: one client's pass over all its topics, each topic allocated on its own. */
module DoRebalance {
  import opened Allocation
  import Ownership
  import opened ProcessQueue
  import opened OffsetStore
  import opened Rebalance

  /** What the client sees of the outside for the whole round: the subscribe info it has (a topic may have
      none yet), the group's client ids per topic, and the pass environment. */
  datatype Round = Round(client: string, info: map<string, seq<Queue>>, clients: map<string, seq<string>>, env: Env)

  function ClientsOf(r: Round, topic: string): seq<string> {
    if topic in r.clients then r.clients[topic] else []
  }

  /** The topics whose handling throws, which ends the round: no clients, or nothing to allocate, which
      for a retry topic is only noticed by allocate. */
  predicate Throws(r: Round, topic: string) {
    topic in r.info && (r.info[topic] == [] || ClientsOf(r, topic) == [] || r.client == "")
  }

  /** The queues of the topic that are this client's. */
  function Mine(r: Round, topic: string): seq<Queue>
    requires topic in r.info
  {
    Ownership.OwnedQueues(r.client, r.info[topic], ClientsOf(r, topic))
  }

  function TopicPass(keys: set<Queue>, topic: string, r: Round): set<Queue> {
    if topic in r.info then FinalKeys(keys, topic, Mine(r, topic), r.env) else keys
  }

  /** How many topics are handled before the round ends. */
  function Handled(topics: seq<string>, r: Round): (n: nat)
    ensures n <= |topics|
    ensures n < |topics| ==> Throws(r, topics[n])
    ensures forall i :: 0 <= i < n ==> !Throws(r, topics[i])
  {
    if topics == [] || Throws(r, topics[0]) then 0 else 1 + Handled(topics[1..], r)
  }

  lemma {:induction false} HandledIs(topics: seq<string>, r: Round, n: nat)
    requires n <= |topics| && (n < |topics| ==> Throws(r, topics[n]))
    requires forall i :: 0 <= i < n ==> !Throws(r, topics[i])
    ensures Handled(topics, r) == n
  {
    if n == 0 {
    } else {
      HandledIs(topics[1..], r, n - 1);
    }
  }

  /** The round gets no further than a topic without clients, without queues or without a client id. */
  lemma StopsBy(topics: seq<string>, r: Round, k: nat)
    requires k < |topics| && topics[k] in r.info
    requires r.info[topics[k]] == [] || topics[k] !in r.clients || r.clients[topics[k]] == [] || r.client == ""
    ensures Handled(topics, r) <= k
  {
  }

  function RoundKeys(keys: set<Queue>, topics: seq<string>, r: Round): set<Queue> {
    if topics == [] then keys else
      var n := |topics| - 1;
      TopicPass(RoundKeys(keys, topics[..n], r), topics[n], r)
  }

  ghost predicate OwnTopics(r: Round) {
    forall t, q :: t in r.info && q in r.info[t] ==> q.topic == t
  }

  lemma MineOfTopic(r: Round, t: string)
    requires OwnTopics(r) && t in r.info
    ensures forall q :: q in Mine(r, t) ==> q in r.info[t] && q.topic == t
  {
    Ownership.QueueOrder();
    var qs := Ownership.Sort(r.info[t], Ownership.QueueLess);
    var cs := Ownership.Sort(ClientsOf(r, t), Ownership.StringLess);
    Ownership.SortIsSort(r.info[t], Ownership.QueueLess);
    forall q | q in Mine(r, t) ensures q in r.info[t] {
      OwnedInList(r.client, qs, cs, q);
      assert q in multiset(qs);
    }
  }

  /** The held queues that a pass over the topic drops. */
  function TopicGone(keys: set<Queue>, topic: string, r: Round): set<Queue> {
    if topic in r.info then Dropped(keys, topic, Mine(r, topic), r.env) else {}
  }

  /** The queues whose request, held at the start of the round, a round over the topics drops. */
  function RoundGone(keys: set<Queue>, topics: seq<string>, r: Round): set<Queue> {
    if topics == [] then {} else
      var n := |topics| - 1;
      var gone := RoundGone(keys, topics[..n], r);
      gone + (keys - gone) * TopicGone(RoundKeys(keys, topics[..n], r), topics[n], r)
  }

  /** The offset table after one pass, and after a round over the topics. */
  function TopicOffsets(table: map<Queue, int>, keys: set<Queue>, topic: string, r: Round): map<Queue, int> {
    if topic in r.info then FinalOffsets(table, keys, topic, Mine(r, topic), r.env) else table
  }

  function RoundOffsets(table: map<Queue, int>, keys: set<Queue>, topics: seq<string>, r: Round): map<Queue, int> {
    if topics == [] then table else
      var n := |topics| - 1;
      TopicOffsets(RoundOffsets(table, keys, topics[..n], r), RoundKeys(keys, topics[..n], r), topics[n], r)
  }

  /** The offsets that are sent for the queues in gone. */
  function SentFor(table: map<Queue, int>, gone: set<Queue>): set<(Queue, int)> {
    set q | q in gone && q in table :: (q, table[q])
  }

  /** The offsets that a round over the topics sends. */
  function RoundSent(table: map<Queue, int>, keys: set<Queue>, topics: seq<string>, r: Round): set<(Queue, int)> {
    if topics == [] then {} else
      var n := |topics| - 1;
      RoundSent(table, keys, topics[..n], r)
        + SentFor(RoundOffsets(table, keys, topics[..n], r), TopicGone(RoundKeys(keys, topics[..n], r), topics[n], r))
  }

  lemma {:induction false} SortedLength<T(!new)>(s: seq<T>, less: (T, T) -> bool)
    ensures |Ownership.Sort(s, less)| == |s|
  {
    if s == [] {
    } else {
      SortedLength(s[1..], less);
      var rest := Ownership.Sort(s[1..], less);
      Ownership.InsertContents(s[0], rest, less);
      assert |Ownership.Insert(s[0], rest, less)| == |multiset(Ownership.Insert(s[0], rest, less))|;
    }
  }

  /** One topic of the round; false when it throws. */
  method RebalanceTopic(push: RebalancePush, topic: string, r: Round) returns (ok: bool)
    requires push.Valid()
    modifies push, push.store, push.requestQueueTable.Values
    ensures push.Valid()
    ensures ok <==> !Throws(r, topic)
    ensures ok <==> (topic in r.info ==>
      r.info[topic] != [] && topic in r.clients && r.clients[topic] != [] && r.client != "")
    ensures !ok || topic !in r.info ==>
      && push.requestQueueTable == old(push.requestQueueTable)
      && (forall q :: q in old(push.requestQueueTable) ==>
            push.requestQueueTable[q].Value() == old(push.requestQueueTable[q].Value()))
      && push.store.offsetTable == old(push.store.offsetTable) && push.store.sent == old(push.store.sent)
    ensures forall q :: q in push.requestQueueTable && fresh(push.requestQueueTable[q]) ==>
      && push.requestQueueTable[q].nextOffset == Where(r.env, q) && Where(r.env, q) >= 0
      && push.requestQueueTable[q].msgTreeMap == map[] && push.requestQueueTable[q].msgTreeMapTemp == map[]
      && push.requestQueueTable[q].queueOffsetMax == 0 && !push.requestQueueTable[q].dropped
      && (q in r.env.fetch && r.env.fetch[q].Fetched? && r.env.fetch[q].offset >= 0 ==>
            push.requestQueueTable[q].nextOffset == r.env.fetch[q].offset)
    ensures push.requestQueueTable.Keys ==
      if ok then TopicPass(old(push.requestQueueTable).Keys, topic, r) else old(push.requestQueueTable).Keys
    ensures var gone := if ok then TopicGone(old(push.requestQueueTable).Keys, topic, r) else {};
      && (forall q :: q in old(push.requestQueueTable) && q !in gone ==>
            && push.requestQueueTable[q] == old(push.requestQueueTable[q])
            && push.requestQueueTable[q].Value() == old(push.requestQueueTable[q].Value()))
      && (forall q :: q in gone ==>
            old(push.requestQueueTable[q]).Value() == DropView(old(push.requestQueueTable[q].Value())))
      && (forall q :: q in push.requestQueueTable && (q !in old(push.requestQueueTable) || q in gone) ==>
            fresh(push.requestQueueTable[q]) && push.requestQueueTable[q].Value() == FreshView(Where(r.env, q)))
      && Flushed(old(push.store.offsetTable), old(push.store.sent), gone,
                 old(push.store.offsetTable) - gone, push.store.sent)
    ensures push.store.offsetTable ==
      if ok then TopicOffsets(old(push.store.offsetTable), old(push.requestQueueTable).Keys, topic, r)
      else old(push.store.offsetTable)
  {
    FlushNone(push.store.offsetTable, push.store.sent);
    if topic !in r.info {
      return true;
    }
    var mqAll := r.info[topic];
    if mqAll == [] {
      if !IsRetry(topic) {
        return false;
      }
    }
    var cidAll := ClientsOf(r, topic);
    if cidAll == [] {
      return false;
    }
    SortedLength(mqAll, Ownership.QueueLess);
    SortedLength(cidAll, Ownership.StringLess);
    mqAll, cidAll := Ownership.Sort(mqAll, Ownership.QueueLess), Ownership.Sort(cidAll, Ownership.StringLess);
    var result := Allocate(r.client, mqAll, cidAll);
    if result.Err? {
      return false;
    }
    var changed := push.UpdateRequestTableInRebalance(topic, result.value, r.env);
    ok := true;
  }

  /** The objects after part of a round that dropped exactly gone: every other request that was held is the
      same object with the same contents, those in gone are dropped and emptied, and whatever else is held
      is a new request at its start. */
  ghost predicate Objects(push: RebalancePush, objs: map<Queue, PullRequest>, was: map<Queue, View>,
                          gone: set<Queue>, env: Env)
    reads push, push.requestQueueTable.Values, objs.Values
  {
    && Apart(objs) && was.Keys == objs.Keys && gone <= objs.Keys
    && (forall q :: q in objs && q !in gone ==> Stays(push, objs, was, q))
    && (forall q :: q in gone ==> IsGone(objs, was, q))
    && (forall q :: q in push.requestQueueTable && (q !in objs || q in gone) ==> IsNew(push, objs, env, q))
  }

  ghost predicate Stays(push: RebalancePush, objs: map<Queue, PullRequest>, was: map<Queue, View>, q: Queue)
    requires q in objs && q in was
    reads push, objs.Values
  {
    q in push.requestQueueTable && push.requestQueueTable[q] == objs[q] && objs[q].Value() == was[q]
  }

  ghost predicate IsGone(objs: map<Queue, PullRequest>, was: map<Queue, View>, q: Queue)
    requires q in objs && q in was
    reads objs.Values
  {
    && objs[q].dropped && objs[q].msgTreeMap == map[] && objs[q].msgTreeMapTemp == map[]
    && objs[q].nextOffset == was[q].nextOffset && objs[q].queueOffsetMax == was[q].offsetMax
  }

  ghost predicate IsNew(push: RebalancePush, objs: map<Queue, PullRequest>, env: Env, q: Queue)
    requires q in push.requestQueueTable
    reads push, push.requestQueueTable.Values
  {
    var request := push.requestQueueTable[q];
    && request !in objs.Values && request.nextOffset == Where(env, q) && request.queueOffsetMax == 0
    && request.msgTreeMap == map[] && request.msgTreeMapTemp == map[] && !request.dropped
  }

  lemma GoneIsOut(table: map<Queue, PullRequest>, objs: map<Queue, PullRequest>, gone: set<Queue>, q: Queue)
    requires Apart(objs) && q in gone && gone <= objs.Keys
    requires forall p :: p in table ==> table[p] !in objs.Values || (p in objs && p !in gone && table[p] == objs[p])
    ensures objs[q] !in table.Values
  {
    assert forall p :: p in table && p in objs && p !in gone ==> objs[p] != objs[q];
  }

  /** The requests dropped earlier in the round are out of reach of the next pass. */
  lemma GoneAreOut(push: RebalancePush, objs: map<Queue, PullRequest>, was: map<Queue, View>, gone: set<Queue>,
                   env: Env)
    requires Objects(push, objs, was, gone, env)
    ensures forall q :: q in gone ==> objs[q] !in push.requestQueueTable.Values
  {
    var table := push.requestQueueTable;
    forall p | p in table ensures table[p] !in objs.Values || (p in objs && p !in gone && table[p] == objs[p]) {
      if p in objs && p !in gone {
        assert Stays(push, objs, was, p);
      } else {
        assert IsNew(push, objs, env, p);
      }
    }
    forall q | q in gone ensures objs[q] !in table.Values {
      GoneIsOut(table, objs, gone, q);
    }
  }

  /** One topic of the round, with what it does to the requests held at the start of the round. */
  method RebalanceNext(push: RebalancePush, topic: string, r: Round,
                       ghost objs: map<Queue, PullRequest>, ghost was: map<Queue, View>, ghost gone: set<Queue>)
    returns (ok: bool)
    requires push.Valid() && Objects(push, objs, was, gone, r.env)
    modifies push, push.store, push.requestQueueTable.Values
    ensures push.Valid() && (ok <==> !Throws(r, topic))
    ensures var dropped := if ok then TopicGone(old(push.requestQueueTable).Keys, topic, r) else {};
      && Objects(push, objs, was, gone + (objs.Keys - gone) * dropped, r.env)
      && Flushed(old(push.store.offsetTable), old(push.store.sent), dropped,
                 old(push.store.offsetTable) - dropped, push.store.sent)
    ensures push.requestQueueTable.Keys ==
      if ok then TopicPass(old(push.requestQueueTable).Keys, topic, r) else old(push.requestQueueTable).Keys
    ensures push.store.offsetTable ==
      if ok then TopicOffsets(old(push.store.offsetTable), old(push.requestQueueTable).Keys, topic, r)
      else old(push.store.offsetTable)
    ensures forall p :: p in push.requestQueueTable.Values ==> fresh(p) || p in old(push.requestQueueTable).Values
  {
    GoneAreOut(push, objs, was, gone, r.env);
    ghost var table := push.requestQueueTable;
    ok := RebalanceTopic(push, topic, r);
    ghost var dropped := if ok then TopicGone(table.Keys, topic, r) else {};
    ghost var more := gone + (objs.Keys - gone) * dropped;
    forall q | q in objs && q !in more ensures Stays(push, objs, was, q) {
      assert old(Stays(push, objs, was, q));
    }
    forall q | q in more ensures IsGone(objs, was, q) {
      if q in gone {
        assert old(IsGone(objs, was, q));
      } else {
        assert old(Stays(push, objs, was, q));
      }
    }
    forall q | q in push.requestQueueTable && (q !in objs || q in more) ensures IsNew(push, objs, r.env, q) {
      if q in table && q !in dropped {
        assert old(IsNew(push, objs, r.env, q));
      }
    }
  }

  /** Exactly the pairs in what have been sent since before. */
  ghost predicate SentSince(before: seq<(Queue, int)>, now: seq<(Queue, int)>, what: set<(Queue, int)>) {
    before <= now && forall p :: p in now[|before|..] <==> p in what
  }

  lemma SentMore(before: seq<(Queue, int)>, now: seq<(Queue, int)>, what: set<(Queue, int)>,
                 table: map<Queue, int>, gone: set<Queue>, later: seq<(Queue, int)>)
    requires SentSince(before, now, what) && Flushed(table, now, gone, table - gone, later)
    ensures SentSince(before, later, what + SentFor(table, gone))
  {
    assert later[|before|..] == now[|before|..] + later[|now|..];
  }

  /** What the round has done after some of its topics. */
  ghost predicate RoundState(push: RebalancePush, objs: map<Queue, PullRequest>, was: map<Queue, View>,
                             table: map<Queue, int>, sent: seq<(Queue, int)>, topics: seq<string>, r: Round)
    reads push, push.store, push.requestQueueTable.Values, objs.Values
  {
    && push.requestQueueTable.Keys == RoundKeys(objs.Keys, topics, r)
    && Objects(push, objs, was, RoundGone(objs.Keys, topics, r), r.env)
    && push.store.offsetTable == RoundOffsets(table, objs.Keys, topics, r)
    && SentSince(sent, push.store.sent, RoundSent(table, objs.Keys, topics, r))
  }

  lemma RoundStart(push: RebalancePush, was: map<Queue, View>, r: Round)
    requires push.Valid() && was.Keys == push.requestQueueTable.Keys
    requires forall q :: q in push.requestQueueTable ==> was[q] == push.requestQueueTable[q].Value()
    ensures RoundState(push, push.requestQueueTable, was, push.store.offsetTable, push.store.sent, [], r)
  {
  }

  /** One more topic of the round; when it throws nothing has happened. */
  method RoundNext(push: RebalancePush, topics: seq<string>, topic: string, r: Round,
                   ghost objs: map<Queue, PullRequest>, ghost was: map<Queue, View>,
                   ghost table: map<Queue, int>, ghost sent: seq<(Queue, int)>)
    returns (ok: bool)
    requires push.Valid() && RoundState(push, objs, was, table, sent, topics, r)
    modifies push, push.store, push.requestQueueTable.Values
    ensures push.Valid() && (ok <==> !Throws(r, topic))
    ensures RoundState(push, objs, was, table, sent, if ok then topics + [topic] else topics, r)
    ensures forall p :: p in push.requestQueueTable.Values ==> fresh(p) || p in old(push.requestQueueTable).Values
  {
    ghost var gone := RoundGone(objs.Keys, topics, r);
    ghost var keys, offsets, now := push.requestQueueTable.Keys, push.store.offsetTable, push.store.sent;
    ok := RebalanceNext(push, topic, r, objs, was, gone);
    ghost var dropped := if ok then TopicGone(keys, topic, r) else {};
    SentMore(sent, now, RoundSent(table, objs.Keys, topics, r), offsets, dropped, push.store.sent);
    if ok {
      assert (topics + [topic])[..|topics|] == topics;
    } else {
      assert gone + (objs.Keys - gone) * {} == gone;
    }
  }

  lemma OneMore<T>(s: seq<T>, k: nat)
    requires k < |s|
    ensures s[..k + 1] == s[..k] + [s[k]]
  {
  }

  /** The loop over the topics. */
  method RoundLoop(push: RebalancePush, topics: seq<string>, r: Round,
                   ghost objs: map<Queue, PullRequest>, ghost was: map<Queue, View>,
                   ghost table: map<Queue, int>, ghost sent: seq<(Queue, int)>)
    returns (handled: nat)
    requires push.Valid() && objs == push.requestQueueTable
    requires RoundState(push, objs, was, table, sent, topics[..0], r)
    modifies push, push.store, push.requestQueueTable.Values
    ensures push.Valid() && handled <= |topics| && (handled < |topics| ==> Throws(r, topics[handled]))
    ensures forall i :: 0 <= i < handled ==> !Throws(r, topics[i])
    ensures RoundState(push, objs, was, table, sent, topics[..handled], r)
  {
    handled := 0;
    while handled < |topics|
      invariant handled <= |topics| && forall i :: 0 <= i < handled ==> !Throws(r, topics[i])
      invariant push.Valid() && RoundState(push, objs, was, table, sent, topics[..handled], r)
      invariant forall p :: p in push.requestQueueTable.Values ==> fresh(p) || p in objs.Values
    {
      OneMore(topics, handled);
      var ok := RoundNext(push, topics[..handled], topics[handled], r, objs, was, table, sent);
      if !ok {
        return;
      }
      handled := handled + 1;
    }
  }

  /** The whole round. It stops at the first topic that throws, so every later one is not handled at all. */
  method DoRebalance(push: RebalancePush, topics: seq<string>, r: Round) returns (handled: nat)
    requires push.Valid()
    modifies push, push.store, push.requestQueueTable.Values
    ensures push.Valid() && handled == Handled(topics, r)
    ensures handled < |topics| ==>
      var t := topics[handled];
      t in r.info && (r.info[t] == [] || t !in r.clients || r.clients[t] == [] || r.client == "")
    ensures RoundState(push, old(push.requestQueueTable),
                       map q | q in old(push.requestQueueTable) :: old(push.requestQueueTable[q].Value()),
                       old(push.store.offsetTable), old(push.store.sent), topics[..handled], r)
  {
    ghost var objs, table, sent := push.requestQueueTable, push.store.offsetTable, push.store.sent;
    ghost var was := map q | q in objs :: objs[q].Value();
    RoundStart(push, was, r);
    assert topics[..0] == [];
    handled := RoundLoop(push, topics, r, objs, was, table, sent);
    HandledIs(topics, r, handled);
  }

  /** A pass over a topic leaves every queue of another topic as it is, and treats its own queues by what it
      finds of them. */
  lemma TopicLocal(keys: set<Queue>, others: set<Queue>, table: map<Queue, int>, offsets: map<Queue, int>,
                   topic: string, r: Round, q: Queue)
    requires OwnTopics(r) && (q in keys <==> q in others)
    requires q in table <==> q in offsets
    requires q in table ==> table[q] == offsets[q]
    ensures q in TopicPass(keys, topic, r) <==> if q.topic == topic then q in TopicPass(others, topic, r) else q in keys
    ensures q in TopicGone(keys, topic, r) <==> q.topic == topic && q in TopicGone(others, topic, r)
    ensures var now := TopicOffsets(table, keys, topic, r);
      var alone := if q.topic == topic then TopicOffsets(offsets, others, topic, r) else table;
      (q in now <==> q in alone) && (q in now ==> now[q] == alone[q])
  {
    if topic in r.info {
      MineOfTopic(r, topic);
      PassSpecification(keys, topic, Mine(r, topic), r.env, q);
      PassSpecification(others, topic, Mine(r, topic), r.env, q);
    }
  }

  /** A round gives each topic that was reached exactly what a pass over it alone would give: the same keys,
      the same requests dropped, the same offsets kept and sent. It leaves every other topic's requests and
      offsets alone; so one topic that throws costs all the topics after it their turn. */
  lemma {:induction false} RoundPerTopic(keys: set<Queue>, table: map<Queue, int>, topics: seq<string>, r: Round,
                                         q: Queue)
    requires OwnTopics(r) && Ownership.Distinct(topics)
    ensures q in RoundKeys(keys, topics, r) <==> q in if q.topic in topics then TopicPass(keys, q.topic, r) else keys
    ensures q in RoundGone(keys, topics, r) <==> q.topic in topics && q in TopicGone(keys, q.topic, r)
    ensures var now := RoundOffsets(table, keys, topics, r);
      var alone := if q.topic in topics then TopicOffsets(table, keys, q.topic, r) else table;
      (q in now <==> q in alone) && (q in now ==> now[q] == alone[q])
    ensures forall o :: (q, o) in RoundSent(table, keys, topics, r) <==>
      q.topic in topics && q in TopicGone(keys, q.topic, r) && q in table && o == table[q]
  {
    if topics == [] {
    } else {
      var n := |topics| - 1;
      var t := topics[n];
      assert topics == topics[..n] + [t];
      assert t !in topics[..n];
      RoundPerTopic(keys, table, topics[..n], r, q);
      var before, offsets := RoundKeys(keys, topics[..n], r), RoundOffsets(table, keys, topics[..n], r);
      if q.topic == t {
        TopicLocal(before, keys, offsets, table, t, r, q);
      } else {
        TopicLocal(before, before, offsets, offsets, t, r, q);
      }
    }
  }

  /** What the topics after the first that throws keep: the keys and offsets they had, and every request. */
  lemma LaterTopicsKeep(keys: set<Queue>, table: map<Queue, int>, topics: seq<string>, r: Round, q: Queue)
    requires OwnTopics(r) && Ownership.Distinct(topics)
    requires q.topic in topics[Handled(topics, r)..]
    ensures var handled := topics[..Handled(topics, r)];
      && (q in RoundKeys(keys, handled, r) <==> q in keys)
      && q !in RoundGone(keys, handled, r)
      && (q in RoundOffsets(table, keys, handled, r) <==> q in table)
      && (q in table ==> RoundOffsets(table, keys, handled, r)[q] == table[q])
  {
    var n := Handled(topics, r);
    var k :| n <= k < |topics| && topics[k] == q.topic;
    assert q.topic !in topics[..n];
    RoundPerTopic(keys, table, topics[..n], r, q);
  }

  const HELD: Queue := Queue("b", "broker", 0)

  /** Topic "a" has no queues; the request of topic "b" has expired and its pull task would not be accepted. */
  const STOPPED: Round := Round("client", map["a" := [], "b" := [HELD]], map["a" := ["client"], "b" := ["client"]],
                                Env({HELD}, map[], LastOffset, map[], {}))

  /** A round that stops at its first topic: topic "b" keeps a request that its own pass would have dropped. */
  lemma OneTopicEndsTheRound()
    ensures Handled(["a", "b"], STOPPED) == 0 && !Throws(STOPPED, "b")
    ensures HELD in RoundKeys({HELD}, ["a", "b"][..Handled(["a", "b"], STOPPED)], STOPPED)
    ensures HELD !in TopicPass({HELD}, "b", STOPPED)
  {
    assert Throws(STOPPED, "a");
    assert "b" in STOPPED.info && STOPPED.info["b"] == [HELD];
    assert HELD in Dropped({HELD}, "b", Mine(STOPPED, "b"), STOPPED.env);
  }
}
