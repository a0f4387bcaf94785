/** The consume task of the orderly service on the real objects, run while it holds the consume lock and
    nothing else happens. */
module OrderlyService {
  import opened Allocation
  import opened OrderedMap
  import opened ProcessQueue
  import OffsetStore
  import O = OrderlyProtocol

  /** What turn i of the loop meets: the 60 s are over, the listener's verdict, and a shutdown request after it. */
  datatype Env = Env(late: nat -> bool, success: nat -> bool, shutdown: nat -> bool)

  /** consumed: offsets consumed successfully, in order. stored: the values of commit() that were stored.
      more: the loop goes on. again: a new task was put on the timer. */
  datatype Outcome = Outcome(view: View, consumed: seq<int>, stored: seq<int>, more: bool, again: bool)

  function Retried(m: Message): Message {
    m.(reconsumeTimes := m.reconsumeTimes + 1)
  }

  /** After the listener: put the message back to be consumed again later, or commit it. */
  function Settled(w: View, m: Message, success: bool): Outcome {
    if !success then Outcome(PutBack(w, [Retried(m)]), [], [], false, true)
    else
      var (next, offset) := Commit(w);
      Outcome(next, [m.queueOffset], if offset >= 0 then [offset] else [], true, false)
  }

  /** One turn of the loop. */
  function Turn(v: View, env: Env, i: nat): (o: Outcome)
    ensures o.more ==> |o.view.cache.Keys| < |v.cache.Keys|
  {
    if env.late(i) then Outcome(v, [], [], false, true)
    else if v.cache.Keys == {} then Outcome(v, [], [], false, false)
    else
      var o := Settled(TakeOne(v), v.cache[Min(v.cache.Keys)], env.success(i));
      o.(more := o.more && !env.shutdown(i))
  }

  /** o continued by rest. */
  function Then(o: Outcome, rest: Outcome): Outcome {
    rest.(consumed := o.consumed + rest.consumed, stored := o.stored + rest.stored)
  }

  /** The loop from turn i on. */
  function Turns(v: View, env: Env, i: nat): Outcome
    decreases |v.cache.Keys|
  {
    var o := Turn(v, env, i);
    if o.more then Then(o, Turns(o.view, env, i + 1)) else o
  }

  /** The whole task. One that does not get the consume lock within a second gives up and does nothing; locked
      says that the broker has the queue locked for this client. */
  function Consume(v: View, gotLock: bool, locked: bool, env: Env): Outcome {
    if !gotLock then Outcome(v, [], [], false, false)
    else if v.dropped then Outcome(Clear(v), [], [], false, false)
    else if !locked then Outcome(v, [], [], false, true)
    else Turns(v, env, 0)
  }

  function Store(table: map<Queue, int>, mq: Queue, stored: seq<int>): map<Queue, int> {
    if stored == [] then table else table[mq := stored[|stored| - 1]]
  }

  method Settle(request: PullRequest, store: OffsetStore.RemoteBrokerOffsetStore, mq: Queue, m: Message, success: bool)
    returns (consumed: seq<int>, stored: seq<int>)
    modifies request, store`offsetTable
    ensures Outcome(request.Value(), consumed, stored, success, !success) == Settled(old(request.Value()), m, success)
    ensures store.offsetTable == Store(old(store.offsetTable), mq, stored)
  {
    consumed, stored := [], [];
    if !success {
      request.MakeMessageToConsumeAgain([Retried(m)]);
    } else {
      var offset := request.CommitTaken();
      consumed := [m.queueOffset];
      if offset >= 0 {
        store.UpdateOffset(mq, offset);
        stored := [offset];
      }
    }
  }

  method DoTurn(request: PullRequest, store: OffsetStore.RemoteBrokerOffsetStore, mq: Queue, env: Env, i: nat)
    returns (consumed: seq<int>, stored: seq<int>, more: bool, again: bool)
    modifies request, store`offsetTable
    ensures Outcome(request.Value(), consumed, stored, more, again) == Turn(old(request.Value()), env, i)
    ensures store.offsetTable == Store(old(store.offsetTable), mq, stored)
  {
    consumed, stored, more, again := [], [], false, false;
    if env.late(i) {
      again := true;
      return;
    }
    TakeSingle(request.Value());
    var msgs := request.TakeMessages(1);
    if msgs != [] {
      consumed, stored := Settle(request, store, mq, msgs[0], env.success(i));
      more, again := env.success(i), !env.success(i);
    }
    if env.shutdown(i) {
      more := false;
    }
  }

  lemma StoreLast(table: map<Queue, int>, mq: Queue, a: seq<int>, b: seq<int>)
    ensures Store(Store(table, mq, a), mq, b) == Store(table, mq, a + b)
  {
    if b == [] {
      assert a + b == a;
    } else {
      assert (a + b)[|a + b| - 1] == b[|b| - 1];
    }
  }

  lemma ThenThen(a: Outcome, b: Outcome, c: Outcome)
    ensures Then(a, Then(b, c)) == Then(Then(a, b), c)
  {
    assert a.consumed + (b.consumed + c.consumed) == (a.consumed + b.consumed) + c.consumed;
    assert a.stored + (b.stored + c.stored) == (a.stored + b.stored) + c.stored;
  }

  lemma ThenFirst(o: Outcome)
    ensures Then(Outcome(o.view, [], [], true, false), o) == o
  {
  }

  /** The loop of ConsumeRequest: turns until one ends it. */
  method ConsumeLoop(request: PullRequest, store: OffsetStore.RemoteBrokerOffsetStore, mq: Queue, env: Env)
    returns (consumed: seq<int>, stored: seq<int>, again: bool)
    modifies request, store`offsetTable
    ensures Outcome(request.Value(), consumed, stored, false, again) == Turns(old(request.Value()), env, 0)
    ensures store.offsetTable == Store(old(store.offsetTable), mq, stored)
  {
    consumed, stored, again := [], [], false;
    var i, continueConsume := 0, true;
    ghost var all := Turns(request.Value(), env, 0);
    ghost var sofar := Outcome(request.Value(), [], [], true, false);
    ThenFirst(all);
    while continueConsume
      invariant sofar == Outcome(request.Value(), consumed, stored, continueConsume, again)
      invariant all == if continueConsume then Then(sofar, Turns(request.Value(), env, i)) else sofar
      invariant store.offsetTable == Store(old(store.offsetTable), mq, stored)
      decreases continueConsume, |request.msgTreeMap.Keys|
    {
      ghost var turn := Turn(request.Value(), env, i);
      ghost var rest := Turns(turn.view, env, i + 1);
      ghost var before := sofar;
      var c, s;
      c, s, continueConsume, again := DoTurn(request, store, mq, env, i);
      StoreLast(old(store.offsetTable), mq, stored, s);
      consumed, stored := consumed + c, stored + s;
      sofar := Then(before, turn);
      ThenThen(before, turn, rest);
      i := i + 1;
    }
  }

  /** ConsumeRequest. A live locked queue is never left with cached messages and no task to come back for them,
      unless the service is shut down. */
  method ConsumeRequest(request: PullRequest, store: OffsetStore.RemoteBrokerOffsetStore, mq: Queue,
                        gotLock: bool, locked: bool, env: Env)
    returns (consumed: seq<int>, stored: seq<int>, again: bool)
    modifies request, store`offsetTable
    ensures Outcome(request.Value(), consumed, stored, false, again) ==
      Consume(old(request.Value()), gotLock, locked, env)
    ensures store.offsetTable ==
      if stored == [] then old(store.offsetTable) else old(store.offsetTable)[mq := stored[|stored| - 1]]
    ensures !gotLock || old(request.dropped) || !locked ==> consumed == stored == []
    ensures !gotLock ==> request.Value() == old(request.Value()) && !again
    ensures gotLock && old(request.dropped) ==> request.msgTreeMap == request.msgTreeMapTemp == map[] && !again
    ensures gotLock && !old(request.dropped) && !locked ==> request.Value() == old(request.Value()) && again
    ensures gotLock && !old(request.dropped) && (forall i: nat :: !env.shutdown(i)) && request.msgTreeMap != map[] ==>
      again
  {
    consumed, stored, again := [], [], false;
    if !gotLock {
      return;
    }
    if request.dropped {
      request.ClearAllMsgs();
    } else if locked {
      LoopEnds(request.Value(), env, 0);
      consumed, stored, again := ConsumeLoop(request, store, mq, env);
    } else {
      again := true;
    }
  }

  // ---- What the loop delivers ----

  lemma {:induction false} SortedHead(keys: set<int>, k: int)
    requires keys != {} && k == Min(keys)
    ensures Sorted(keys) == [k] + Sorted(keys - {k})
  {
  }

  /** Whatever the turns meet, the offsets consumed followed by the offsets still cached are the cached
      offsets in ascending order: nothing is skipped, lost or reordered, and a message that failed is first
      in line again. */
  lemma {:induction false} NothingSkipped(v: View, env: Env, i: nat)
    requires WellKeyed(v.cache)
    ensures var o := Turns(v, env, i); o.consumed + Sorted(o.view.cache.Keys) == Sorted(v.cache.Keys)
    decreases |v.cache.Keys|
  {
    var o := Turn(v, env, i);
    if env.late(i) || v.cache.Keys == {} {
    } else {
      var k := Min(v.cache.Keys);
      SortedHead(v.cache.Keys, k);
      if !env.success(i) {
        FailedStaysFirst(v);
      } else if o.more {
        NothingSkipped(o.view, env, i + 1);
        var rest := Turns(o.view, env, i + 1);
        var left := Sorted(rest.view.cache.Keys);
        assert [k] + (rest.consumed + left) == ([k] + rest.consumed) + left;
      }
    }
  }

  lemma FailedStaysFirst(v: View)
    requires WellKeyed(v.cache) && v.cache.Keys != {}
    ensures PutBack(TakeOne(v), [Retried(v.cache[Min(v.cache.Keys)])]).cache.Keys == v.cache.Keys
  {
    var m := Retried(v.cache[Min(v.cache.Keys)]);
    OffsetsPrefix([m], 0);
    assert [m][..1] == [m] && [m][..0] == [];
  }

  /** Each value the loop stores has every offset below it consumed, if nothing was taken before. */
  lemma {:induction false} StoredIsConsumed(v: View, env: Env, i: nat, x: int, k: int)
    requires WellKeyed(v.cache) && v.taken.Keys == {} && x in Turns(v, env, i).stored
    requires k in v.cache && k < x
    ensures k in Turns(v, env, i).consumed
    decreases |v.cache.Keys|
  {
    var o := Turn(v, env, i);
    if o.more && x !in o.stored && k !in o.consumed {
      StoredIsConsumed(o.view, env, i + 1, x, k);
    }
  }

  /** Turns from to below to each consume a message. */
  ghost predicate Consuming(env: Env, from: nat, to: nat) {
    forall j :: from <= j < to ==> !env.late(j) && env.success(j)
  }

  ghost predicate KeepsRunning(env: Env, from: nat, to: int) {
    forall j :: from <= j < to ==> !env.shutdown(j)
  }

  /** A turn that does not end the loop, and one that does. */
  lemma TurnCases(v: View, env: Env, i: nat)
    ensures var o := Turn(v, env, i);
      && |o.consumed| == (if !env.late(i) && env.success(i) && v.cache.Keys != {} then 1 else 0)
      && (o.more <==> |o.consumed| == 1 && !env.shutdown(i))
      && (o.again <==> |o.consumed| == 0 && (env.late(i) || o.view.cache.Keys != {}))
      && (|o.consumed| == 0 ==> env.late(i) || o.view.cache.Keys == {} || !env.success(i))
  {
    if v.cache.Keys != {} && !env.late(i) && !env.success(i) {
      PutBackKeys(v);
    }
  }

  /** The loop has ended after n turns, from the i-th on, that consumed a message. */
  predicate Ends(env: Env, i: nat, n: nat, empty: bool, again: bool) {
    && (n > 0 && env.shutdown(i + n - 1) ==> !again)
    && (n == 0 || !env.shutdown(i + n - 1) ==>
          && (again <==> env.late(i + n) || !empty)
          && (env.late(i + n) || empty || !env.success(i + n)))
  }

  /** When the loop ends, and whether a task is posted: every turn but the last consumes one message and goes on.
      It ends after a turn in which shutdown was requested; or else when the 60 s are over, which posts a
      task; or when nothing is cached; or when the listener fails, which posts one too. */
  lemma {:induction false} LoopEnds(v: View, env: Env, i: nat)
    ensures var o := Turns(v, env, i);
      var n := |o.consumed|;
      && Consuming(env, i, i + n) && KeepsRunning(env, i, i + n - 1)
      && Ends(env, i, n, o.view.cache.Keys == {}, o.again)
    decreases |v.cache.Keys|
  {
    TurnCases(v, env, i);
    var o := Turn(v, env, i);
    if o.more {
      LoopEnds(o.view, env, i + 1);
      LoopOneMore(env, i, o, Turns(o.view, env, i + 1));
    }
  }

  lemma LoopOneMore(env: Env, i: nat, o: Outcome, rest: Outcome)
    requires !env.late(i) && env.success(i) && !env.shutdown(i) && |o.consumed| == 1
    requires var n := |rest.consumed|;
      && Consuming(env, i + 1, i + 1 + n) && KeepsRunning(env, i + 1, i + n)
      && Ends(env, i + 1, n, rest.view.cache.Keys == {}, rest.again)
    ensures var all := Then(o, rest);
      var n := |all.consumed|;
      && Consuming(env, i, i + n) && KeepsRunning(env, i, i + n - 1)
      && Ends(env, i, n, all.view.cache.Keys == {}, all.again)
  {
  }

  lemma PutBackKeys(v: View)
    requires v.cache.Keys != {}
    ensures PutBack(TakeOne(v), [Retried(v.cache[Min(v.cache.Keys)])]).cache.Keys != {}
  {
    var m := Retried(v.cache[Min(v.cache.Keys)]);
    OffsetsPrefix([m], 0);
    assert [m][..1] == [m] && [m][..0] == [];
    assert m.queueOffset in PutAll(TakeOne(v).cache, [m]);
  }
  /** A turn that consumes takes the first cached message away for good. */
  lemma TurnConsumes(v: View, env: Env, i: nat)
    requires !env.late(i) && v.cache.Keys != {} && env.success(i)
    ensures var o, k := Turn(v, env, i), Min(v.cache.Keys);
      && o.view.cache == v.cache - {k} && o.view.taken == map[]
      && (WellKeyed(v.cache) ==> o.consumed == [k])
      && (v.taken == map[] && k >= 0 ==> o.stored == [k + 1])
  {
    assert TakeOne(v).taken.Keys == v.taken.Keys + {Min(v.cache.Keys)};
  }

  lemma TurnGoesOn(v: View, env: Env, i: nat)
    requires WellKeyed(v.cache) && Turn(v, env, i).more
    ensures var o := Turn(v, env, i);
      && |o.consumed| == 1 && !env.shutdown(i)
      && WellKeyed(o.view.cache) && (forall k :: k in o.view.cache ==> k in v.cache && o.view.cache[k] == v.cache[k])
  {
    TurnCases(v, env, i);
    TurnConsumes(v, env, i);
  }

  /** One that does not leaves the cache alone, but for the message it failed on, put back with one more reconsume. */
  lemma TurnFails(v: View, env: Env, i: nat)
    requires WellKeyed(v.cache) && (env.late(i) || v.cache.Keys == {} || !env.success(i))
    ensures var o := Turn(v, env, i);
      && !o.more && o.consumed == o.stored == []
      && o.view.cache ==
           if env.late(i) || v.cache.Keys == {} then v.cache
           else var k := Min(v.cache.Keys); v.cache[k := v.cache[k].(reconsumeTimes := v.cache[k].reconsumeTimes + 1)]
  {
    if v.cache.Keys != {} {
      PutBackOne(v);
    }
  }

  ghost predicate StoresNext(o: Outcome) {
    |o.stored| == |o.consumed| && forall j :: 0 <= j < |o.stored| ==> o.stored[j] == o.consumed[j] + 1
  }

  lemma StoresThen(o: Outcome, rest: Outcome)
    requires StoresNext(o) && StoresNext(rest)
    ensures StoresNext(Then(o, rest))
  {
  }

  /** For each message consumed the offset one past it is stored, if nothing was taken before. */
  lemma {:induction false} StoredNext(v: View, env: Env, i: nat)
    requires WellKeyed(v.cache) && v.taken == map[] && forall o :: o in v.cache ==> o >= 0
    ensures StoresNext(Turns(v, env, i))
    decreases |v.cache.Keys|
  {
    var o := Turn(v, env, i);
    if env.late(i) || v.cache.Keys == {} || !env.success(i) {
      TurnFails(v, env, i);
    } else {
      TurnConsumes(v, env, i);
    }
    if o.more {
      StoredNext(o.view, env, i + 1);
      StoresThen(o, Turns(o.view, env, i + 1));
    }
  }

  /** Entry k of left as it was before, or with one more reconsume if it is the first and the listener failed. */
  ghost predicate Leaves(before: map<int, Message>, left: map<int, Message>, failed: bool, k: int)
    requires k in left
  {
    && k in before
    && left[k] == if failed && k == Min(left.Keys) then before[k].(reconsumeTimes := before[k].reconsumeTimes + 1)
                  else before[k]
  }

  /** The turn after the n that consumed a message, from the i-th on, is one in which the listener failed. */
  predicate FailsAfter(env: Env, i: nat, n: nat) {
    (n == 0 || !env.shutdown(i + n - 1)) && !env.late(i + n)
  }

  lemma LeavesMore(before: map<int, Message>, o: Outcome, rest: Outcome, env: Env, i: nat, k: int)
    requires |o.consumed| == 1 && !env.shutdown(i) && k in rest.view.cache
    requires forall j :: j in o.view.cache ==> j in before && o.view.cache[j] == before[j]
    requires Leaves(o.view.cache, rest.view.cache, FailsAfter(env, i + 1, |rest.consumed|), k)
    ensures Leaves(before, rest.view.cache, FailsAfter(env, i, |Then(o, rest).consumed|), k)
  {
  }

  lemma FailedLeaves(cache: map<int, Message>, k: int)
    requires k in cache
    ensures var m := Min(cache.Keys);
      Leaves(cache, cache[m := cache[m].(reconsumeTimes := cache[m].reconsumeTimes + 1)], true, k)
  {
    var m := Min(cache.Keys);
    assert cache[m := cache[m].(reconsumeTimes := cache[m].reconsumeTimes + 1)].Keys == cache.Keys;
  }

  /** The last turn of the loop. */
  lemma LastLeaves(v: View, env: Env, i: nat, k: int)
    requires WellKeyed(v.cache) && k in Turn(v, env, i).view.cache && !Turn(v, env, i).more
    ensures var o := Turn(v, env, i); Leaves(v.cache, o.view.cache, FailsAfter(env, i, |o.consumed|), k)
  {
    if env.late(i) || v.cache.Keys == {} || !env.success(i) {
      TurnFails(v, env, i);
      if !env.late(i) && v.cache.Keys != {} {
        FailedLeaves(v.cache, k);
      }
    } else {
      TurnCases(v, env, i);
      TurnConsumes(v, env, i);
    }
  }

  /** What the loop leaves in the cache. */
  lemma {:induction false} LoopLeaves(v: View, env: Env, i: nat, k: int)
    requires WellKeyed(v.cache) && k in Turns(v, env, i).view.cache
    ensures var o := Turns(v, env, i); Leaves(v.cache, o.view.cache, FailsAfter(env, i, |o.consumed|), k)
    decreases |v.cache.Keys|
  {
    var o := Turn(v, env, i);
    if o.more {
      TurnGoesOn(v, env, i);
      var rest := Turns(o.view, env, i + 1);
      assert Turns(v, env, i) == Then(o, rest);
      LoopLeaves(o.view, env, i + 1, k);
      LeavesMore(v.cache, o, rest, env, i, k);
    } else {
      LastLeaves(v, env, i, k);
    }
  }

  lemma PutBackOne(v: View)
    requires WellKeyed(v.cache) && v.cache.Keys != {}
    ensures var k := Min(v.cache.Keys);
      PutBack(TakeOne(v), [Retried(v.cache[k])]).cache == v.cache[k := Retried(v.cache[k])]
  {
    var k := Min(v.cache.Keys);
    var m := Retried(v.cache[k]);
    assert [m][..0] == [];
    assert PutAll(TakeOne(v).cache, [m]) == TakeOne(v).cache[k := m];
  }

  /** The protocol steps for the message in hand: its delivery, and the commit or the put-back. */
  ghost function MessageSteps(cfg: O.P.Config, s: O.State, success: bool): O.State
    requires s.holder.Took?
  {
    var delivered := O.Apply(cfg, s, O.Deliver(success));
    if success then O.Apply(cfg, delivered, O.CommitOne) else O.Apply(cfg, delivered, O.PutBackOne)
  }

  /** The protocol steps of one turn: the rest of a late one; else the take, and those for the message taken. */
  ghost function TurnSteps(cfg: O.P.Config, s: O.State, env: Env, i: nat): O.State
    requires s.holder.Looping?
  {
    if env.late(i) then O.Apply(cfg, s, O.Rest) else
      var taken := O.Apply(cfg, s, O.TakeOne);
      if taken.holder.Took? then MessageSteps(cfg, taken, env.success(i)) else taken
  }

  /** t is s after o: the same view, the same offsets consumed and stored, a new task exactly when o posts one,
      and a holder that goes on exactly when o does. */
  predicate Follows(s: O.State, t: O.State, o: Outcome) {
    && t.pq == o.view
    && t.log == s.log + o.consumed
    && t.committed == s.committed + o.stored
    && t.waiting == s.waiting + (if o.again then 1 else 0)
    && t.holder == (if o.more then O.Looping else O.Leaving)
  }

  lemma MessageIsProtocol(cfg: O.P.Config, s: O.State, success: bool)
    requires s.holder.Took?
    ensures var o := Settled(s.pq, s.holder.m, success);
      Follows(s, MessageSteps(cfg, s, success), o.(more := o.more && s.running))
  {
    assert s.log + [] == s.log && s.committed + [] == s.committed;
  }

  /** A turn is the protocol's steps one after another. */
  lemma TurnIsProtocol(cfg: O.P.Config, s: O.State, env: Env, i: nat)
    requires s.holder.Looping? && (s.running <==> !env.shutdown(i))
    ensures Follows(s, TurnSteps(cfg, s, env, i), Turn(s.pq, env, i))
  {
    assert s.log + [] == s.log && s.committed + [] == s.committed;
    TakeSingle(s.pq);
    var taken := O.Apply(cfg, s, O.TakeOne);
    if taken.holder.Took? {
      MessageIsProtocol(cfg, taken, env.success(i));
    }
  }

  /** A task that gets the lock enters as the protocol does: it leaves at once, with a new task if the queue is
      not locked, or starts the loop. One that does not get it gives up. */
  lemma EntryIsProtocol(cfg: O.P.Config, s: O.State, locked: bool, env: Env)
    requires s.waiting > 0
    ensures var gotLock := s.holder.Free?;
      var o := Consume(s.pq, gotLock, locked, env);
      var t := O.Apply(cfg, s, if gotLock then O.Acquire(locked) else O.GiveUp);
      if gotLock && !s.pq.dropped && locked
      then t == s.(waiting := s.waiting - 1, holder := O.Looping) && o == Turns(s.pq, env, 0)
      else t == s.(pq := o.view, waiting := s.waiting - 1 + (if o.again then 1 else 0),
                   holder := if gotLock then O.Leaving else s.holder)
  {
  }
}
