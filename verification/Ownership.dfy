/** From a topic's route to the one group member that owns each queue, with no coordination: members
    only share the same queues and client ids, in any order. */
module Ownership {
  import opened Allocation

  // ---- The order that std::sort uses ----

  /** std::string's lexicographic order. */
  predicate StringLess(a: string, b: string) {
    if a == [] then b != []
    else if b == [] then false
    else a[0] < b[0] || (a[0] == b[0] && StringLess(a[1..], b[1..]))
  }

  /** Behind a common prefix, the string that ends there or has the smaller character comes first. */
  lemma {:induction false} StringLessExactly(prefix: string, a: string, b: string)
    requires a == [] || b == [] || a[0] != b[0]
    ensures StringLess(prefix + a, prefix + b) <==> b != [] && (a == [] || a[0] < b[0])
  {
    if prefix == [] {
      assert prefix + a == a && prefix + b == b;
    } else {
      StringLessExactly(prefix[1..], a, b);
      assert (prefix + a)[1..] == prefix[1..] + a && (prefix + b)[1..] == prefix[1..] + b;
    }
  }

  /** MQMessageQueue::operator<: topic, then broker name, then queue id. */
  predicate QueueLess(a: Queue, b: Queue) {
    if a.topic != b.topic then StringLess(a.topic, b.topic)
    else if a.broker != b.broker then StringLess(a.broker, b.broker)
    else a.queueId < b.queueId
  }

  ghost predicate StrictTotal<T(!new)>(less: (T, T) -> bool) {
    && (forall a :: !less(a, a))
    && (forall a, b :: a != b ==> less(a, b) || less(b, a))
    && (forall a, b, c :: less(a, b) && less(b, c) ==> less(a, c))
  }

  /** The topic decides first, then the broker, then the id. */
  lemma QueueLessExactly(a: Queue, b: Queue)
    ensures QueueLess(a, b) <==>
      || StringLess(a.topic, b.topic)
      || (a.topic == b.topic
            && (StringLess(a.broker, b.broker) || (a.broker == b.broker && a.queueId < b.queueId)))
  {
    StringIrreflexive(a.topic);
    StringIrreflexive(a.broker);
  }

  lemma {:induction false} StringIrreflexive(a: string)
    ensures !StringLess(a, a)
  {
    if a == [] {
    } else {
      StringIrreflexive(a[1..]);
    }
  }

  lemma {:induction false} StringTotal(a: string, b: string)
    requires a != b
    ensures StringLess(a, b) || StringLess(b, a)
  {
    if a == [] || b == [] || a[0] != b[0] {
    } else {
      assert a == [a[0]] + a[1..] && b == [b[0]] + b[1..];
      StringTotal(a[1..], b[1..]);
    }
  }

  lemma {:induction false} StringTransitive(a: string, b: string, c: string)
    requires StringLess(a, b) && StringLess(b, c)
    ensures StringLess(a, c)
  {
    if a != [] && a[0] == b[0] == c[0] {
      StringTransitive(a[1..], b[1..], c[1..]);
    }
  }

  lemma StringOrder()
    ensures StrictTotal(StringLess)
  {
    forall a: string ensures !StringLess(a, a) {
      StringIrreflexive(a);
    }
    forall a: string, b: string | a != b ensures StringLess(a, b) || StringLess(b, a) {
      StringTotal(a, b);
    }
    forall a: string, b: string, c: string | StringLess(a, b) && StringLess(b, c) ensures StringLess(a, c) {
      StringTransitive(a, b, c);
    }
  }

  lemma QueueTotal(a: Queue, b: Queue)
    requires a != b
    ensures QueueLess(a, b) || QueueLess(b, a)
  {
    if a.topic != b.topic {
      StringTotal(a.topic, b.topic);
    } else if a.broker != b.broker {
      StringTotal(a.broker, b.broker);
    }
  }

  lemma QueueTransitive(a: Queue, b: Queue, c: Queue)
    requires QueueLess(a, b) && QueueLess(b, c)
    ensures QueueLess(a, c)
  {
    StringIrreflexive(a.topic);
    StringIrreflexive(a.broker);
    if a.topic != b.topic && b.topic != c.topic {
      StringTransitive(a.topic, b.topic, c.topic);
    } else if a.topic == b.topic == c.topic && a.broker != b.broker && b.broker != c.broker {
      StringTransitive(a.broker, b.broker, c.broker);
    }
  }

  lemma QueueOrder()
    ensures StrictTotal(QueueLess)
  {
    forall a: Queue, b: Queue | a != b ensures QueueLess(a, b) || QueueLess(b, a) {
      QueueTotal(a, b);
    }
    forall a: Queue, b: Queue, c: Queue | QueueLess(a, b) && QueueLess(b, c) ensures QueueLess(a, c) {
      QueueTransitive(a, b, c);
    }
  }

  // ---- Sorting ----

  ghost predicate SortedBy<T(!new)>(s: seq<T>, less: (T, T) -> bool) {
    forall i, j :: 0 <= i < j < |s| ==> !less(s[j], s[i])
  }

  /** Any result std::sort may give. */
  ghost predicate IsSortOf<T(!new)>(r: seq<T>, s: seq<T>, less: (T, T) -> bool) {
    SortedBy(r, less) && multiset(r) == multiset(s)
  }

  lemma SameHead<T(!new)>(a: seq<T>, b: seq<T>, less: (T, T) -> bool)
    requires StrictTotal(less) && SortedBy(a, less) && SortedBy(b, less)
    requires multiset(a) == multiset(b) && a != []
    ensures b != [] && a[0] == b[0]
  {
    assert a[0] in multiset(a);
    assert a[0] in b;
    var x, y := a[0], b[0];
    assert y in multiset(b);
    var i :| 0 <= i < |b| && b[i] == x;
    var j :| 0 <= j < |a| && a[j] == y;
    assert !less(x, y) by {
      if i > 0 {
        assert !less(b[i], b[0]);
      }
    }
    assert !less(y, x) by {
      if j > 0 {
        assert !less(a[j], a[0]);
      }
    }
  }

  lemma TailsAgree<T(!new)>(a: seq<T>, b: seq<T>)
    requires a != [] && b != [] && a[0] == b[0] && multiset(a) == multiset(b)
    ensures multiset(a[1..]) == multiset(b[1..])
  {
    assert a == [a[0]] + a[1..] && b == [b[0]] + b[1..];
    assert multiset(a[1..]) == multiset(a) - multiset{a[0]};
    assert multiset(b[1..]) == multiset(b) - multiset{b[0]};
  }

  /** With a total order there is only one sorted permutation, so members sort to the same list. */
  lemma {:induction false} SortUnique<T(!new)>(a: seq<T>, b: seq<T>, less: (T, T) -> bool)
    requires StrictTotal(less) && SortedBy(a, less) && SortedBy(b, less) && multiset(a) == multiset(b)
    ensures a == b
  {
    if a != [] {
      SameHead(a, b, less);
      TailsAgree(a, b);
      SortUnique(a[1..], b[1..], less);
    } else {
      assert |multiset(b)| == 0;
    }
  }

  /** A sort, to show that sorted permutations exist. */
  function Insert<T>(x: T, s: seq<T>, less: (T, T) -> bool): seq<T> {
    if s == [] || !less(s[0], x) then [x] + s else [s[0]] + Insert(x, s[1..], less)
  }

  function Sort<T>(s: seq<T>, less: (T, T) -> bool): seq<T> {
    if s == [] then [] else Insert(s[0], Sort(s[1..], less), less)
  }

  lemma {:induction false} InsertContents<T>(x: T, s: seq<T>, less: (T, T) -> bool)
    ensures multiset(Insert(x, s, less)) == multiset{x} + multiset(s)
  {
    if s == [] || !less(s[0], x) {
    } else {
      InsertContents(x, s[1..], less);
      assert s == [s[0]] + s[1..];
    }
  }

  lemma {:induction false} InsertSorted<T(!new)>(x: T, s: seq<T>, less: (T, T) -> bool)
    requires StrictTotal(less) && SortedBy(s, less)
    ensures SortedBy(Insert(x, s, less), less)
  {
    var r := Insert(x, s, less);
    if s == [] || !less(s[0], x) {
    } else {
      var rest := Insert(x, s[1..], less);
      InsertSorted(x, s[1..], less);
      InsertContents(x, s[1..], less);
      forall j | 0 < j < |r| ensures !less(r[j], r[0]) {
        assert r[j] == rest[j - 1] && rest[j - 1] in multiset(rest);
        if r[j] != x {
          assert r[j] in s[1..];
        }
      }
    }
  }

  lemma {:induction false} SortIsSort<T(!new)>(s: seq<T>, less: (T, T) -> bool)
    requires StrictTotal(less)
    ensures IsSortOf(Sort(s, less), s, less)
  {
    if s == [] {
    } else {
      SortIsSort(s[1..], less);
      InsertSorted(s[0], Sort(s[1..], less), less);
      InsertContents(s[0], Sort(s[1..], less), less);
      assert s == [s[0]] + s[1..];
    }
  }

  // ---- The queue list of a topic ----

  /** One broker's entry of a topic's route. */
  datatype QueueData = QueueData(broker: string, readQueueNums: int, perm: int)

  /** PermName::isReadable: bit 2 of the permission word. */
  predicate IsReadable(perm: int) {
    (perm / 4) % 2 == 1
  }

  /** The permission word has bits 4 for reading, 2 for writing and 1 for inheriting; only the first counts. */
  lemma ReadableBit(high: int, read: bool, write: bool, inherit: bool)
    ensures var perm := 8 * high + (if read then 4 else 0) + (if write then 2 else 0) + (if inherit then 1 else 0);
      IsReadable(perm) <==> read
  {
  }

  function QueuesOf(topic: string, qd: QueueData): (r: seq<Queue>)
    ensures |r| == if IsReadable(qd.perm) && qd.readQueueNums > 0 then qd.readQueueNums else 0
    ensures forall i :: 0 <= i < |r| ==> r[i] == Queue(topic, qd.broker, i)
  {
    if IsReadable(qd.perm) && qd.readQueueNums > 0 then
      seq(qd.readQueueNums, i requires 0 <= i < qd.readQueueNums => Queue(topic, qd.broker, i))
    else []
  }

  function SubscribeInfo(topic: string, route: seq<QueueData>): seq<Queue> {
    if route == [] then [] else
      SubscribeInfo(topic, route[..|route| - 1]) + QueuesOf(topic, route[|route| - 1])
  }

  /** The inner loop, over the read queues of one broker. */
  method AddQueues(topic: string, qd: QueueData, mqs: seq<Queue>) returns (longer: seq<Queue>)
    requires IsReadable(qd.perm)
    ensures longer == mqs + QueuesOf(topic, qd)
  {
    longer := mqs;
    var i := 0;
    while i < qd.readQueueNums
      invariant 0 <= i && (i > 0 ==> i <= qd.readQueueNums)
      invariant longer == mqs + QueuesOf(topic, qd)[..i]
    {
      longer := longer + [Queue(topic, qd.broker, i)];
      i := i + 1;
    }
    assert QueuesOf(topic, qd)[..i] == QueuesOf(topic, qd);
  }

  method TopicRouteData2TopicSubscribeInfo(topic: string, route: seq<QueueData>) returns (mqs: seq<Queue>)
    ensures mqs == SubscribeInfo(topic, route)
  {
    mqs := [];
    for k := 0 to |route|
      invariant mqs == SubscribeInfo(topic, route[..k])
    {
      assert route[..k + 1][..k] == route[..k];
      if IsReadable(route[k].perm) {
        mqs := AddQueues(topic, route[k], mqs);
      }
    }
    assert route[..|route|] == route;
  }

  ghost predicate Distinct<T(!new)>(s: seq<T>) {
    forall i, j :: 0 <= i < j < |s| ==> s[i] != s[j]
  }

  /** The list holds queue q exactly when some readable broker of the route serves it. */
  lemma {:induction false} InSubscribeInfo(topic: string, route: seq<QueueData>, q: Queue)
    ensures q in SubscribeInfo(topic, route) <==>
      exists k :: 0 <= k < |route| && q in QueuesOf(topic, route[k])
  {
    if route == [] {
    } else {
      var n := |route| - 1;
      InSubscribeInfo(topic, route[..n], q);
      assert forall k :: 0 <= k < n ==> route[..n][k] == route[k];
    }
  }

  lemma DistinctBrokersPrefix(route: seq<QueueData>, n: nat)
    requires n <= |route| && forall i, j :: 0 <= i < j < |route| ==> route[i].broker != route[j].broker
    ensures forall i, j :: 0 <= i < j < |route[..n]| ==> route[..n][i].broker != route[..n][j].broker
  {
  }

  /** The queues of a broker that no earlier entry names are new. */
  lemma OtherBroker(topic: string, route: seq<QueueData>, last: QueueData, q: Queue)
    requires forall i :: 0 <= i < |route| ==> route[i].broker != last.broker
    requires q in SubscribeInfo(topic, route)
    ensures q !in QueuesOf(topic, last)
  {
    InSubscribeInfo(topic, route, q);
    var k :| 0 <= k < |route| && q in QueuesOf(topic, route[k]);
    assert q.broker == route[k].broker;
  }

  lemma DistinctConcat<T(!new)>(a: seq<T>, b: seq<T>)
    requires Distinct(a) && Distinct(b) && forall x :: x in a ==> x !in b
    ensures Distinct(a + b)
  {
    forall i, j | 0 <= i < j < |a + b| ensures (a + b)[i] != (a + b)[j] {
      if i < |a| <= j {
        assert a[i] in a && b[j - |a|] in b;
      }
    }
  }

  /** With one entry per broker the queue list has no duplicates. */
  lemma {:induction false} SubscribeInfoDistinct(topic: string, route: seq<QueueData>)
    requires forall i, j :: 0 <= i < j < |route| ==> route[i].broker != route[j].broker
    ensures Distinct(SubscribeInfo(topic, route))
  {
    if route == [] {
    } else {
      var n := |route| - 1;
      DistinctBrokersPrefix(route, n);
      SubscribeInfoDistinct(topic, route[..n]);
      forall q | q in SubscribeInfo(topic, route[..n]) ensures q !in QueuesOf(topic, route[n]) {
        OtherBroker(topic, route[..n], route[n], q);
      }
      DistinctConcat(SubscribeInfo(topic, route[..n]), QueuesOf(topic, route[n]));
    }
  }

  // ---- Exactly one owner ----

  /** What one member sees: the topic's queues and the group's client ids, each in its own order. */
  datatype GroupView = GroupView(queues: seq<Queue>, clients: seq<string>)

  /** doRebalance's sort and a successful allocate for one member, for any sort. */
  ghost predicate Allocated(client: string, view: GroupView, owned: seq<Queue>) {
    && client != "" && view.queues != [] && view.clients != []
    && exists qs, cs :: IsSortOf(qs, view.queues, QueueLess) && IsSortOf(cs, view.clients, StringLess)
                     && owned == OwnedBy(client, qs, cs)
  }

  ghost predicate SameView(view: GroupView, queues: seq<Queue>, clients: seq<string>) {
    multiset(view.queues) == multiset(queues) && multiset(view.clients) == multiset(clients)
  }

  function OwnedQueues(client: string, queues: seq<Queue>, clients: seq<string>): seq<Queue> {
    OwnedBy(client, Sort(queues, QueueLess), Sort(clients, StringLess))
  }

  /** Every member computes the same two sorted lists, whatever the order it was given. */
  lemma AllocatedFromSorted(client: string, view: GroupView, owned: seq<Queue>, queues: seq<Queue>,
                            clients: seq<string>)
    requires SameView(view, queues, clients) && Allocated(client, view, owned)
    ensures owned == OwnedQueues(client, queues, clients)
  {
    QueueOrder();
    StringOrder();
    SortIsSort(queues, QueueLess);
    SortIsSort(clients, StringLess);
    var qs, cs :| IsSortOf(qs, view.queues, QueueLess) && IsSortOf(cs, view.clients, StringLess)
                  && owned == OwnedBy(client, qs, cs);
    SortUnique(qs, Sort(queues, QueueLess), QueueLess);
    SortUnique(cs, Sort(clients, StringLess), StringLess);
  }

  lemma {:induction false} DistinctCount<T(!new)>(s: seq<T>, x: T)
    requires Distinct(s)
    ensures multiset(s)[x] <= 1
  {
    if s == [] {
    } else {
      assert s == [s[0]] + s[1..];
      DistinctCount(s[1..], x);
      assert s[0] !in s[1..] by {
        forall i | 0 <= i < |s[1..]| ensures s[1..][i] != s[0] {
          assert s[0] != s[i + 1];
        }
      }
    }
  }

  lemma DistinctByCount<T(!new)>(s: seq<T>)
    requires forall x :: multiset(s)[x] <= 1
    ensures Distinct(s)
  {
    forall i, j | 0 <= i < j < |s| ensures s[i] != s[j] {
      assert s == s[..j] + s[j..];
      assert s[..j][i] == s[i] && s[j..][0] == s[j];
      assert multiset(s)[s[i]] == multiset(s[..j])[s[i]] + multiset(s[j..])[s[i]];
      assert s[i] in multiset(s[..j]) && s[j] in multiset(s[j..]);
    }
  }

  lemma PermutationDistinct<T(!new)>(a: seq<T>, b: seq<T>)
    requires Distinct(a) && multiset(a) == multiset(b)
    ensures Distinct(b)
  {
    forall x ensures multiset(b)[x] <= 1 {
      DistinctCount(a, x);
    }
    DistinctByCount(b);
  }

  lemma DistinctIndex(clients: seq<string>, i: nat)
    requires Distinct(clients) && i < |clients|
    ensures IndexOf(clients, clients[i]) == i
  {
    forall k | 0 <= k < i ensures clients[..i][k] != clients[i] {
      assert clients[k] != clients[i];
    }
    IndexOfFirst(clients, clients[i], i);
  }

  lemma SegmentHolds(queues: seq<Queue>, m: nat, k: nat, j: nat)
    requires Distinct(queues) && k < m && j < |queues|
    ensures queues[j] in Segment(queues, m, k) <==> Cut(|queues|, m, k) <= j < Cut(|queues|, m, k + 1)
  {
    var n := |queues|;
    CutWithin(n, m, k + 1);
    var low, segment := Cut(n, m, k), Segment(queues, m, k);
    if low <= j < Cut(n, m, k + 1) {
      assert segment[j - low] == queues[j];
    }
    if p :| 0 <= p < |segment| && segment[p] == queues[j] {
      assert queues[low + p] == queues[j];
    }
  }

  /** In lists without duplicates, queue j of the list belongs to the client whose segment holds j and to no other. */
  lemma SegmentOwner(queues: seq<Queue>, clients: seq<string>, j: nat) returns (owner: string)
    requires Distinct(queues) && Distinct(clients) && j < |queues| && clients != []
    ensures owner in clients && queues[j] in OwnedBy(owner, queues, clients)
    ensures forall c :: c in clients && queues[j] in OwnedBy(c, queues, clients) ==> c == owner
  {
    var n, m := |queues|, |clients|;
    var i := ExactlyOneSegment(n, m, j);
    owner := clients[i];
    DistinctIndex(clients, i);
    SegmentHolds(queues, m, i, j);
    forall c | c in clients && queues[j] in OwnedBy(c, queues, clients) ensures c == owner {
      var k :| 0 <= k < m && clients[k] == c;
      DistinctIndex(clients, k);
      SegmentHolds(queues, m, k, j);
    }
  }

  /** Every client has the group's view in some order, and what it owns by its own sort and allocate. */
  ghost predicate GroupAllocated(queues: seq<Queue>, clients: seq<string>, views: map<string, GroupView>,
                                 owned: map<string, seq<Queue>>) {
    forall c :: c in clients ==>
      (c in views && c in owned && SameView(views[c], queues, clients) && Allocated(c, views[c], owned[c]))
  }

  /** Exactly one owner across the group, with no coordination. Let the route have one entry per broker and
      the group distinct client ids. Whatever order each member receives the queues and the ids in, after
      each sorts and allocates on its own, every queue that the route makes readable is owned by exactly
      one member. */
  lemma ExactlyOneOwner(topic: string, route: seq<QueueData>, clients: seq<string>,
                        views: map<string, GroupView>, owned: map<string, seq<Queue>>, q: Queue) returns (owner: string)
    requires forall i, j :: 0 <= i < j < |route| ==> route[i].broker != route[j].broker
    requires Distinct(clients) && clients != []
    requires GroupAllocated(SubscribeInfo(topic, route), clients, views, owned)
    requires exists k :: 0 <= k < |route| && q in QueuesOf(topic, route[k])
    ensures owner in clients && q in owned[owner]
    ensures forall c :: c in clients && q in owned[c] ==> c == owner
  {
    var queues := SubscribeInfo(topic, route);
    SubscribeInfoDistinct(topic, route);
    InSubscribeInfo(topic, route, q);
    forall c | c in clients ensures owned[c] == OwnedQueues(c, queues, clients) {
      AllocatedFromSorted(c, views[c], owned[c], queues, clients);
    }
    owner := OwnerOf(queues, clients, q);
  }

  /** Each queue of the list has exactly one owner in the sorted lists. */
  lemma OwnerOf(queues: seq<Queue>, clients: seq<string>, q: Queue) returns (owner: string)
    requires Distinct(queues) && Distinct(clients) && clients != [] && q in queues
    ensures owner in clients && q in OwnedQueues(owner, queues, clients)
    ensures forall c :: c in clients && q in OwnedQueues(c, queues, clients) ==> c == owner
  {
    QueueOrder();
    StringOrder();
    SortIsSort(queues, QueueLess);
    SortIsSort(clients, StringLess);
    var qs, cs := Sort(queues, QueueLess), Sort(clients, StringLess);
    PermutationDistinct(queues, qs);
    PermutationDistinct(clients, cs);
    assert forall c :: c in clients <==> c in multiset(cs);
    assert q in multiset(queues);
    assert q in qs;
    var j :| 0 <= j < |qs| && qs[j] == q;
    assert clients[0] in multiset(cs);
    owner := SegmentOwner(qs, cs, j);
    assert owner in multiset(cs);
  }
}
