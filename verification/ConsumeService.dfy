/** What a concurrent consume task does with its batch once the listener has returned
    (ConsumeMessageConcurrentlyService::ConsumeRequest). */
module ConsumeService {
  import opened ProcessQueue

  /** The messages whose send-back failed, with one more reconsume counted. */
  function Retry(msgs: seq<Message>, back: seq<bool>): (r: seq<Message>)
    requires |back| == |msgs|
  {
    if msgs == [] then [] else
      var n := |msgs| - 1;
      var rest := Retry(msgs[..n], back[..n]);
      if back[n] then rest else rest + [msgs[n].(reconsumeTimes := msgs[n].reconsumeTimes + 1)]
  }

  /** The messages whose offset is not among those to retry. */
  function Keep(msgs: seq<Message>, retried: set<int>): (r: seq<Message>)
    ensures Offsets(r) == Offsets(msgs) - retried
  {
    if msgs == [] then [] else
      var n := |msgs| - 1;
      var rest := Keep(msgs[..n], retried);
      if msgs[n].queueOffset in retried then rest else
        assert (rest + [msgs[n]])[..|rest|] == rest;
        rest + [msgs[n]]
  }

  /** The offsets that the listener consumed or the broker took back. */
  function Accepted(msgs: seq<Message>, consumed: bool, back: seq<bool>): (r: set<int>)
    requires |back| == |msgs|
    ensures consumed ==> r == Offsets(msgs)
  {
    if msgs == [] then {} else
      var n := |msgs| - 1;
      Accepted(msgs[..n], consumed, back[..n]) + if consumed || back[n] then {msgs[n].queueOffset} else {}
  }

  function RetryOf(msgs: seq<Message>, consumed: bool, back: seq<bool>): seq<Message>
    requires |back| == |msgs|
  {
    if consumed then [] else Retry(msgs, back)
  }

  function AckedOf(msgs: seq<Message>, consumed: bool, back: seq<bool>): seq<Message>
    requires |back| == |msgs|
  {
    Keep(msgs, Offsets(RetryOf(msgs, consumed, back)))
  }

  /** How many send-backs were refused. */
  function Refused(back: seq<bool>): nat {
    if back == [] then 0 else Refused(back[..|back| - 1]) + if back[|back| - 1] then 0 else 1
  }

  /** Each refused message is retried once, with one more reconsume counted, behind the retries of the refused
      messages before it; and nothing else is. */
  lemma {:induction false} RetryInOrder(msgs: seq<Message>, back: seq<bool>, i: nat)
    requires |back| == |msgs|
    ensures |Retry(msgs, back)| == Refused(back)
    ensures i < |msgs| && !back[i] ==>
      && Refused(back[..i]) < |Retry(msgs, back)|
      && Retry(msgs, back)[Refused(back[..i])] ==
           Message(msgs[i].queueOffset, msgs[i].tags, msgs[i].reconsumeTimes + 1)
  {
    if msgs == [] {
    } else {
      var n := |msgs| - 1;
      RetryInOrder(msgs[..n], back[..n], i);
      if i < n {
        assert back[..n][..i] == back[..i];
      }
    }
  }

  /** Accepted is what the listener consumed, or else what the broker took back. */
  lemma {:induction false} AcceptedExactly(msgs: seq<Message>, consumed: bool, back: seq<bool>, o: int)
    requires |back| == |msgs|
    ensures o in Accepted(msgs, consumed, back) <==>
      exists i :: 0 <= i < |msgs| && msgs[i].queueOffset == o && (consumed || back[i])
  {
    if msgs == [] {
    } else {
      var n := |msgs| - 1;
      AcceptedExactly(msgs[..n], consumed, back[..n], o);
      if i :| 0 <= i < n && msgs[..n][i].queueOffset == o && (consumed || back[..n][i]) {
        assert msgs[i].queueOffset == o && (consumed || back[i]);
      }
      if i :| 0 <= i < |msgs| && msgs[i].queueOffset == o && (consumed || back[i]) {
        assert i < n ==> msgs[..n][i].queueOffset == o && (consumed || back[..n][i]);
      }
    }
  }

  lemma {:induction false} RetryOffsets(msgs: seq<Message>, back: seq<bool>)
    requires |back| == |msgs|
    ensures Offsets(Retry(msgs, back)) <= Offsets(msgs)
    ensures Offsets(msgs) - Offsets(Retry(msgs, back)) <= Accepted(msgs, false, back)
  {
    if msgs == [] {
    } else {
      var n := |msgs| - 1;
      RetryOffsets(msgs[..n], back[..n]);
      OffsetsAppend(Retry(msgs[..n], back[..n]), [msgs[n].(reconsumeTimes := msgs[n].reconsumeTimes + 1)]);
    }
  }

  /** Settling a batch splits it: what is to be removed and what is to be retried are disjoint, together
      they are the whole batch, and everything to be removed was consumed or sent back. */
  lemma SettleSplits(msgs: seq<Message>, consumed: bool, back: seq<bool>)
    requires |back| == |msgs|
    ensures var acked, retry := Offsets(AckedOf(msgs, consumed, back)), Offsets(RetryOf(msgs, consumed, back));
      && acked * retry == {}
      && acked + retry == Offsets(msgs)
      && acked <= Accepted(msgs, consumed, back)
  {
    if !consumed {
      RetryOffsets(msgs, back);
    }
  }

  /** With distinct offsets the split is exact: a message is retried if and only if it was neither
      consumed nor sent back. */
  lemma {:induction false} RetriedExactly(msgs: seq<Message>, back: seq<bool>, i: nat)
    requires |back| == |msgs| && DistinctOffsets(msgs) && i < |msgs|
    ensures msgs[i].queueOffset in Offsets(Retry(msgs, back)) <==> !back[i]
  {
    var n := |msgs| - 1;
    RetryOffsets(msgs[..n], back[..n]);
    OffsetsAppend(Retry(msgs[..n], back[..n]), [msgs[n].(reconsumeTimes := msgs[n].reconsumeTimes + 1)]);
    if i < n {
      RetriedExactly(msgs[..n], back[..n], i);
    } else {
      OffsetsMember(msgs[..n], msgs[n].queueOffset);
      assert forall k :: 0 <= k < n ==> msgs[..n][k].queueOffset == msgs[k].queueOffset;
    }
  }

  /** The send-back loop: starts at ackIndex + 1, so it does nothing after CONSUME_SUCCESS. */
  method SendBackLoop(msgs: seq<Message>, consumed: bool, back: seq<bool>) returns (localRetryMsgs: seq<Message>)
    requires |back| == |msgs|
    ensures localRetryMsgs == RetryOf(msgs, consumed, back)
    ensures consumed ==> localRetryMsgs == []
    ensures !consumed ==> |localRetryMsgs| == Refused(back)
    ensures !consumed ==> forall i :: 0 <= i < |msgs| && !back[i] ==>
      && Refused(back[..i]) < |localRetryMsgs|
      && localRetryMsgs[Refused(back[..i])] == Message(msgs[i].queueOffset, msgs[i].tags, msgs[i].reconsumeTimes + 1)
  {
    var ackIndex := if consumed then |msgs| else -1;
    localRetryMsgs := [];
    var i := ackIndex + 1;
    while i < |msgs|
      invariant consumed ==> i > |msgs| && localRetryMsgs == []
      invariant !consumed ==> 0 <= i <= |msgs| && localRetryMsgs == Retry(msgs[..i], back[..i])
    {
      assert msgs[..i + 1][..i] == msgs[..i] && back[..i + 1][..i] == back[..i];
      if !back[i] {
        localRetryMsgs := localRetryMsgs + [msgs[i].(reconsumeTimes := msgs[i].reconsumeTimes + 1)];
      }
      i := i + 1;
    }
    if !consumed {
      assert msgs[..|msgs|] == msgs && back[..|back|] == back;
      forall i | 0 <= i <= |msgs| {
        RetryInOrder(msgs, back, i);
      }
    }
  }

  /** The inner search of the erase loop. */
  method HasOffset(msgs: seq<Message>, o: int) returns (found: bool)
    ensures found <==> o in Offsets(msgs)
  {
    OffsetsMember(msgs, o);
    for j := 0 to |msgs|
      invariant forall k :: 0 <= k < j ==> msgs[k].queueOffset != o
    {
      if msgs[j].queueOffset == o {
        return true;
      }
    }
    return false;
  }

  /** The erase loop: drops from msgs every message whose offset is being retried. */
  method EraseRetried(msgs: seq<Message>, localRetryMsgs: seq<Message>) returns (left: seq<Message>)
    ensures left == Keep(msgs, Offsets(localRetryMsgs))
  {
    left := [];
    for i := 0 to |msgs|
      invariant left == Keep(msgs[..i], Offsets(localRetryMsgs))
    {
      assert msgs[..i + 1][..i] == msgs[..i];
      var remove := HasOffset(localRetryMsgs, msgs[i].queueOffset);
      if !remove {
        left := left + [msgs[i]];
      }
    }
    assert msgs[..|msgs|] == msgs;
  }

  /** The tail of one ConsumeRequest with nothing running beside it: send back, erase, remove.
      The returned offset is what would be stored; -1 stores nothing. */
  method SettleAndRemove(request: PullRequest, msgs: seq<Message>, consumed: bool, back: seq<bool>)
    returns (offset: int, localRetryMsgs: seq<Message>)
    requires |back| == |msgs|
    modifies request
    ensures localRetryMsgs == RetryOf(msgs, consumed, back)
    ensures (request.Value(), offset) == Remove(old(request.Value()), Offsets(msgs) - Offsets(localRetryMsgs))
  {
    assert Offsets([]) == {};
    assert Offsets(msgs) - {} == Offsets(msgs);
    localRetryMsgs := SendBackLoop(msgs, consumed, back);
    var left := msgs;
    if localRetryMsgs != [] {
      left := EraseRetried(msgs, localRetryMsgs);
    }
    offset := request.RemoveMessage(left);
  }
}
