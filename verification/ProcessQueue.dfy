/** The per-queue message cache of the push consumer (PullRequest): the cached messages, the
    messages taken by an orderly consumer, the highest offset seen and the drop flag. */
module ProcessQueue {
  import opened OrderedMap

  datatype Message = Message(queueOffset: int, tags: string, reconsumeTimes: int)

  /** The state that PullRequest guards with its lock, as a value. */
  datatype View = View(
    cache: map<int, Message>,
    taken: map<int, Message>,
    offsetMax: int,
    nextOffset: int,
    dropped: bool)

  function EmptyView(): View {
    View(map[], map[], 0, 0, false)
  }

  /** The queue offsets of a list of messages. */
  function Offsets(msgs: seq<Message>): set<int> {
    if msgs == [] then {} else
      Offsets(msgs[..|msgs| - 1]) + {msgs[|msgs| - 1].queueOffset}
  }

  lemma {:induction false} OffsetsMember(msgs: seq<Message>, o: int)
    ensures o in Offsets(msgs) <==> exists i :: 0 <= i < |msgs| && msgs[i].queueOffset == o
  {
    if msgs == [] {
    } else {
      var n := |msgs| - 1;
      OffsetsMember(msgs[..n], o);
      if o in Offsets(msgs[..n]) {
        var i :| 0 <= i < n && msgs[..n][i].queueOffset == o;
        assert msgs[i].queueOffset == o;
      }
      if i :| 0 <= i < |msgs| && msgs[i].queueOffset == o {
        assert i < n ==> msgs[..n][i].queueOffset == o;
      }
    }
  }

  ghost predicate DistinctOffsets(msgs: seq<Message>) {
    forall i, j :: 0 <= i < j < |msgs| ==> msgs[i].queueOffset != msgs[j].queueOffset
  }

  lemma {:induction false} OffsetsAppend(a: seq<Message>, b: seq<Message>)
    ensures Offsets(a + b) == Offsets(a) + Offsets(b)
  {
    if b == [] {
      assert a + b == a;
    } else {
      var n := |b| - 1;
      OffsetsAppend(a, b[..n]);
      assert (a + b)[..|a + b| - 1] == a + b[..n];
    }
  }

  lemma OffsetsHead(m: Message, rest: seq<Message>)
    ensures Offsets([m] + rest) == {m.queueOffset} + Offsets(rest)
  {
    OffsetsAppend([m], rest);
    assert [m][..0] == [];
  }

  lemma OffsetsPrefix(msgs: seq<Message>, i: nat)
    requires i < |msgs|
    ensures Offsets(msgs[..i + 1]) == Offsets(msgs[..i]) + {msgs[i].queueOffset}
  {
    assert msgs[..i + 1][..i] == msgs[..i];
  }

  lemma {:induction false} OffsetsCount(msgs: seq<Message>)
    ensures |Offsets(msgs)| <= |msgs|
  {
    if msgs == [] {
    } else {
      OffsetsCount(msgs[..|msgs| - 1]);
    }
  }

  /** The cache after msgs are put one by one: a later message replaces an earlier one at its offset. */
  function PutAll(cache: map<int, Message>, msgs: seq<Message>): (r: map<int, Message>)
    ensures r.Keys == cache.Keys + Offsets(msgs)
  {
    if msgs == [] then cache else
      var last := msgs[|msgs| - 1];
      PutAll(cache, msgs[..|msgs| - 1])[last.queueOffset := last]
  }

  function MaxOffset(start: int, msgs: seq<Message>): (r: int)
    ensures r >= start && forall o :: o in Offsets(msgs) ==> o <= r
    ensures r == start || r in Offsets(msgs)
  {
    Max({start} + Offsets(msgs))
  }

  function Put(v: View, msgs: seq<Message>): (r: View) {
    v.(cache := PutAll(v.cache, msgs), offsetMax := MaxOffset(v.offsetMax, msgs))
  }

  /** What removeMessage leaves and what it returns: -1 on an empty cache, else the least offset
      still cached, or one past the highest offset ever put when nothing is left. */
  function Remove(v: View, offsets: set<int>): (r: (View, int))
    ensures r.0.cache.Keys == v.cache.Keys - offsets
    ensures r.1 >= 0 ==> v.cache.Keys != {}
  {
    if v.cache == map[] then
      (v, -1)
    else
      var left := v.cache - offsets;
      (v.(cache := left), if left.Keys == {} then v.offsetMax + 1 else Min(left.Keys))
  }

  function Clear(v: View): View {
    if v.dropped then v.(cache := map[], taken := map[]) else v
  }

  /** The view after its least-offset message has been taken. */
  function TakeOne(v: View): (w: View)
    requires v.cache.Keys != {}
    ensures var k := Min(v.cache.Keys); w.cache.Keys == v.cache.Keys - {k} && w.taken.Keys == v.taken.Keys + {k}
  {
    var k := Min(v.cache.Keys);
    v.(cache := v.cache - {k}, taken := v.taken[k := v.cache[k]])
  }

  /** takeMessages moves up to n least-offset messages from the cache to the taken map. */
  function Take(v: View, n: nat): (r: (View, seq<Message>))
    ensures r.0.offsetMax == v.offsetMax && r.0.nextOffset == v.nextOffset && r.0.dropped == v.dropped
    decreases n
  {
    if n == 0 || v.cache.Keys == {} then (v, []) else
      var rest := Take(TakeOne(v), n - 1);
      (rest.0, [v.cache[Min(v.cache.Keys)]] + rest.1)
  }

  lemma TakeSingle(v: View)
    ensures v.cache.Keys == {} ==> Take(v, 1) == (v, [])
    ensures v.cache.Keys != {} ==> Take(v, 1) == (TakeOne(v), [v.cache[Min(v.cache.Keys)]])
  {
    if v.cache.Keys != {} {
      var first := [v.cache[Min(v.cache.Keys)]];
      assert Take(TakeOne(v), 0) == (TakeOne(v), []);
      assert first + [] == first;
    }
  }

  function PutBack(v: View, msgs: seq<Message>): View {
    v.(cache := PutAll(v.cache, msgs), taken := v.taken - Offsets(msgs))
  }

  function Commit(v: View): (r: (View, int)) {
    if v.taken.Keys == {} then (v, -1)
    else (v.(taken := map[]), Max(v.taken.Keys) + 1)
  }

  /** The cached messages in offset order (getMessage). */
  function Listing(cache: map<int, Message>): (r: seq<Message>)
    ensures |r| == |cache|
    decreases |cache.Keys|
  {
    if cache.Keys == {} then
      assert |cache.Keys| == 0;
      []
    else
      var k := Min(cache.Keys);
      assert (cache - {k}).Keys == cache.Keys - {k};
      [cache[k]] + Listing(cache - {k})
  }

  lemma ListingNext(before: seq<Message>, cache: map<int, Message>, k: int)
    requires cache.Keys != {} && k == Min(cache.Keys)
    ensures before + Listing(cache) == (before + [cache[k]]) + Listing(cache - {k})
    ensures |cache - {k}| < |cache|
  {
    assert (cache - {k}).Keys == cache.Keys - {k};
    assert Listing(cache) == [cache[k]] + Listing(cache - {k});
  }

  /** Every entry sits under its own offset. */
  ghost predicate WellKeyed(m: map<int, Message>) {
    forall o :: o in m ==> m[o].queueOffset == o
  }

  lemma PutAllSnoc(cache: map<int, Message>, msgs: seq<Message>, i: nat)
    requires i < |msgs|
    ensures PutAll(cache, msgs[..i + 1]) == PutAll(cache, msgs[..i])[msgs[i].queueOffset := msgs[i]]
  {
    assert msgs[..i + 1][..i] == msgs[..i];
  }

  /** Every offset put holds the last message put there; every other entry is untouched. */
  lemma {:induction false} PutAllLastWins(cache: map<int, Message>, msgs: seq<Message>, o: int) returns (i: int)
    requires o in PutAll(cache, msgs)
    ensures o !in Offsets(msgs) ==> o in cache && PutAll(cache, msgs)[o] == cache[o]
    ensures o in Offsets(msgs) ==>
      && 0 <= i < |msgs| && msgs[i].queueOffset == o && PutAll(cache, msgs)[o] == msgs[i]
      && forall j :: i < j < |msgs| ==> msgs[j].queueOffset != o
  {
    i := |msgs| - 1;
    if msgs != [] && msgs[i].queueOffset != o {
      var n := i;
      i := PutAllLastWins(cache, msgs[..n], o);
      assert forall j :: 0 <= j < n ==> msgs[..n][j] == msgs[j];
    }
  }

  lemma MaxOffsetSnoc(start: int, msgs: seq<Message>, i: nat)
    requires i < |msgs|
    ensures MaxOffset(start, msgs[..i + 1])
         == (var before, o := MaxOffset(start, msgs[..i]), msgs[i].queueOffset; if before < o then o else before)
  {
    OffsetsPrefix(msgs, i);
  }

  lemma PutCount(cache: map<int, Message>, msgs: seq<Message>)
    ensures |PutAll(cache, msgs)| <= |cache| + |msgs|
  {
    OffsetsCount(msgs);
    assert |PutAll(cache, msgs).Keys| <= |cache.Keys| + |Offsets(msgs)|;
  }

  function OffsetList(msgs: seq<Message>): (r: seq<int>)
    ensures |r| == |msgs|
  {
    seq(|msgs|, i requires 0 <= i < |msgs| => msgs[i].queueOffset)
  }

  /** getMessage lists every cached offset once, in ascending order. */
  lemma {:induction false} ListingSorted(cache: map<int, Message>)
    requires WellKeyed(cache)
    ensures OffsetList(Listing(cache)) == Sorted(cache.Keys)
    decreases |cache.Keys|
  {
    if cache.Keys == {} {
    } else {
      var k := Min(cache.Keys);
      var rest := cache - {k};
      assert rest.Keys == cache.Keys - {k};
      ListingSorted(rest);
      assert OffsetList([cache[k]] + Listing(rest)) == [k] + OffsetList(Listing(rest));
    }
  }

  /** What getMessage lists are the cached messages themselves. */
  lemma {:induction false} ListingReturns(cache: map<int, Message>, i: nat)
    requires WellKeyed(cache) && i < |Listing(cache)|
    ensures var m := Listing(cache)[i]; m.queueOffset in cache && m == cache[m.queueOffset]
    decreases |cache.Keys|
  {
    if i > 0 {
      var k := Min(cache.Keys);
      assert (cache - {k}).Keys == cache.Keys - {k};
      ListingReturns(cache - {k}, i - 1);
    }
  }

  /** takeMessages takes, in order, the first n of the cached offsets (all of them if there are fewer). */
  lemma {:induction false} TakeLeast(v: View, n: nat)
    requires WellKeyed(v.cache)
    ensures OffsetList(Take(v, n).1) == Least(v.cache.Keys, n)
    decreases n
  {
    if n == 0 || v.cache.Keys == {} {
    } else {
      var k := Min(v.cache.Keys);
      TakeLeast(TakeOne(v), n - 1);
      var rest := Take(TakeOne(v), n - 1).1;
      assert OffsetList([v.cache[k]] + rest) == [k] + OffsetList(rest);
    }
  }

  /** takeMessages moves exactly the messages it returns from the cache to the taken map. */
  lemma {:induction false} TakeMoves(v: View, n: nat)
    requires WellKeyed(v.cache)
    ensures Take(v, n).0.cache.Keys == v.cache.Keys - Offsets(Take(v, n).1)
    ensures Take(v, n).0.taken.Keys == v.taken.Keys + Offsets(Take(v, n).1)
    decreases n
  {
    if n == 0 || v.cache.Keys == {} {
    } else {
      var k, rest := Min(v.cache.Keys), Take(TakeOne(v), n - 1);
      TakeMoves(TakeOne(v), n - 1);
      OffsetsHead(v.cache[k], rest.1);
    }
  }

  /** takeMessages alters no message: a message that leaves the cache is found, as it was, in the taken map,
      and every other entry of the two maps stays. */
  lemma {:induction false} TakeUnaltered(v: View, n: nat, o: int)
    ensures var w := Take(v, n).0;
      && (o in w.cache ==> o in v.cache && w.cache[o] == v.cache[o])
      && (o in v.cache && o !in w.cache ==> o in w.taken && w.taken[o] == v.cache[o])
      && (o !in v.cache || o in w.cache ==> (o in w.taken <==> o in v.taken))
      && ((o !in v.cache || o in w.cache) && o in v.taken ==> w.taken[o] == v.taken[o])
    decreases n
  {
    if n == 0 || v.cache.Keys == {} {
    } else {
      TakeUnaltered(TakeOne(v), n - 1, o);
    }
  }

  /** What takeMessages returns are the cached messages themselves. */
  lemma {:induction false} TakeReturns(v: View, n: nat, i: nat)
    requires WellKeyed(v.cache) && i < |Take(v, n).1|
    ensures var m := Take(v, n).1[i]; m.queueOffset in v.cache && m == v.cache[m.queueOffset]
    decreases n
  {
    if i > 0 {
      TakeReturns(TakeOne(v), n - 1, i - 1);
    }
  }

  /** The shared per-queue object. Its methods run under one lock, so each is one atomic step. */
  class PullRequest {
    var msgTreeMap: map<int, Message>
    var msgTreeMapTemp: map<int, Message>
    var queueOffsetMax: int
    var nextOffset: int
    var dropped: bool

    constructor ()
      ensures Value() == EmptyView()
      ensures msgTreeMap == msgTreeMapTemp == map[] && queueOffsetMax == nextOffset == 0 && !dropped
    {
      msgTreeMap, msgTreeMapTemp := map[], map[];
      queueOffsetMax, nextOffset, dropped := 0, 0, false;
    }

    function Value(): View
      reads this
    {
      View(msgTreeMap, msgTreeMapTemp, queueOffsetMax, nextOffset, dropped)
    }

    method PutMessage(msgs: seq<Message>)
      modifies this
      ensures Value() == Put(old(Value()), msgs)
      ensures msgTreeMap == PutAll(old(msgTreeMap), msgs) && msgTreeMapTemp == old(msgTreeMapTemp)
      ensures old(queueOffsetMax) <= queueOffsetMax && forall o :: o in Offsets(msgs) ==> o <= queueOffsetMax
      ensures queueOffsetMax == old(queueOffsetMax) || queueOffsetMax in Offsets(msgs)
      ensures nextOffset == old(nextOffset) && dropped == old(dropped)
    {
      for i := 0 to |msgs|
        invariant Value() == old(Value()).(cache := PutAll(old(msgTreeMap), msgs[..i]),
                                           offsetMax := MaxOffset(old(queueOffsetMax), msgs[..i]))
      {
        PutAllSnoc(old(msgTreeMap), msgs, i);
        MaxOffsetSnoc(old(queueOffsetMax), msgs, i);
        msgTreeMap := msgTreeMap[msgs[i].queueOffset := msgs[i]];
        queueOffsetMax := if queueOffsetMax < msgs[i].queueOffset then msgs[i].queueOffset else queueOffsetMax;
      }
      assert msgs[..|msgs|] == msgs;
    }

    method GetMessage() returns (msgs: seq<Message>)
      ensures msgs == Listing(msgTreeMap)
    {
      msgs := [];
      var rest := msgTreeMap;
      while rest.Keys != {}
        invariant msgs + Listing(rest) == Listing(msgTreeMap)
        decreases |rest|
      {
        var k := Min(rest.Keys);
        ListingNext(msgs, rest, k);
        msgs := msgs + [rest[k]];
        rest := rest - {k};
      }
    }

    method GetCacheMinOffset() returns (offset: int)
      requires WellKeyed(msgTreeMap)
      ensures msgTreeMap.Keys == {} ==> offset == 0
      ensures msgTreeMap.Keys != {} ==> offset in msgTreeMap && forall o :: o in msgTreeMap ==> offset <= o
    {
      if msgTreeMap.Keys == {} {
        offset := 0;
      } else {
        offset := msgTreeMap[Min(msgTreeMap.Keys)].queueOffset;
      }
    }

    method RemoveMessage(msgs: seq<Message>) returns (result: int)
      modifies this
      ensures (Value(), result) == Remove(old(Value()), Offsets(msgs))
      ensures msgTreeMap == old(msgTreeMap) - Offsets(msgs) && msgTreeMapTemp == old(msgTreeMapTemp)
      ensures old(msgTreeMap) == map[] ==> result == -1
      ensures old(msgTreeMap) != map[] && msgTreeMap == map[] ==> result == queueOffsetMax + 1
      ensures msgTreeMap != map[] ==> result in msgTreeMap && forall o :: o in msgTreeMap ==> result <= o
      ensures queueOffsetMax == old(queueOffsetMax) && nextOffset == old(nextOffset) && dropped == old(dropped)
    {
      result := -1;
      if msgTreeMap != map[] {
        result := queueOffsetMax + 1;
        assert Offsets(msgs[..0]) == {};
        for i := 0 to |msgs|
          invariant Value() == old(Value()).(cache := old(msgTreeMap) - Offsets(msgs[..i]))
        {
          OffsetsPrefix(msgs, i);
          msgTreeMap := msgTreeMap - {msgs[i].queueOffset};
        }
        assert msgs[..|msgs|] == msgs;
        if msgTreeMap.Keys != {} {
          result := Min(msgTreeMap.Keys);
        }
      }
    }

    method ClearAllMsgs()
      modifies this
      ensures Value() == Clear(old(Value()))
      ensures dropped ==> msgTreeMap == msgTreeMapTemp == map[]
      ensures !dropped ==> msgTreeMap == old(msgTreeMap) && msgTreeMapTemp == old(msgTreeMapTemp)
      ensures queueOffsetMax == old(queueOffsetMax) && nextOffset == old(nextOffset) && dropped == old(dropped)
    {
      if dropped {
        msgTreeMap, msgTreeMapTemp := map[], map[];
      }
    }

    method SetDropped(b: bool)
      modifies this`dropped
      ensures dropped == b
      ensures Value() == old(Value()).(dropped := b)
    {
      dropped := b;
    }

    method SetNextOffset(offset: int)
      modifies this`nextOffset
      ensures nextOffset == offset
      ensures Value() == old(Value()).(nextOffset := offset)
    {
      nextOffset := offset;
    }

    method TakeMessages(batchSize: nat) returns (msgs: seq<Message>)
      modifies this
      ensures (Value(), msgs) == Take(old(Value()), batchSize)
      ensures WellKeyed(old(msgTreeMap)) ==>
        && msgTreeMap.Keys == old(msgTreeMap).Keys - Offsets(msgs)
        && msgTreeMapTemp.Keys == old(msgTreeMapTemp).Keys + Offsets(msgs)
      ensures queueOffsetMax == old(queueOffsetMax) && nextOffset == old(nextOffset) && dropped == old(dropped)
    {
      if WellKeyed(msgTreeMap) {
        TakeMoves(Value(), batchSize);
      }
      msgs := [];
      assert msgs + Take(Value(), batchSize).1 == Take(Value(), batchSize).1;
      for i := 0 to batchSize
        invariant Take(Value(), batchSize - i).0 == Take(old(Value()), batchSize).0
        invariant msgs + Take(Value(), batchSize - i).1 == Take(old(Value()), batchSize).1
      {
        if msgTreeMap.Keys != {} {
          var k := Min(msgTreeMap.Keys);
          var m := msgTreeMap[k];
          ghost var next := TakeOne(Value());
          assert msgs + ([m] + Take(next, batchSize - i - 1).1) == (msgs + [m]) + Take(next, batchSize - i - 1).1;
          msgs := msgs + [m];
          msgTreeMapTemp := msgTreeMapTemp[k := m];
          msgTreeMap := msgTreeMap - {k};
        }
      }
      assert msgs + [] == msgs;
    }

    method MakeMessageToConsumeAgain(msgs: seq<Message>)
      modifies this
      ensures Value() == PutBack(old(Value()), msgs)
      ensures msgTreeMap == PutAll(old(msgTreeMap), msgs) && msgTreeMapTemp == old(msgTreeMapTemp) - Offsets(msgs)
      ensures queueOffsetMax == old(queueOffsetMax) && nextOffset == old(nextOffset) && dropped == old(dropped)
    {
      assert Offsets(msgs[..0]) == {};
      for i := 0 to |msgs|
        invariant Value() == old(Value()).(cache := PutAll(old(msgTreeMap), msgs[..i]),
                                           taken := old(msgTreeMapTemp) - Offsets(msgs[..i]))
      {
        PutAllSnoc(old(msgTreeMap), msgs, i);
        OffsetsPrefix(msgs, i);
        msgTreeMap := msgTreeMap[msgs[i].queueOffset := msgs[i]];
        msgTreeMapTemp := msgTreeMapTemp - {msgs[i].queueOffset};
      }
      assert msgs[..|msgs|] == msgs;
    }

    method CommitTaken() returns (offset: int)
      modifies this
      ensures (Value(), offset) == Commit(old(Value()))
      ensures old(msgTreeMapTemp) == map[] ==> offset == -1
      ensures old(msgTreeMapTemp) != map[] ==>
        offset - 1 in old(msgTreeMapTemp) && forall o :: o in old(msgTreeMapTemp) ==> o < offset
      ensures msgTreeMapTemp == map[] && msgTreeMap == old(msgTreeMap)
      ensures queueOffsetMax == old(queueOffsetMax) && nextOffset == old(nextOffset) && dropped == old(dropped)
    {
      if msgTreeMapTemp.Keys != {} {
        offset := Max(msgTreeMapTemp.Keys) + 1;
        msgTreeMapTemp := map[];
      } else {
        offset := -1;
      }
    }
  }
}
