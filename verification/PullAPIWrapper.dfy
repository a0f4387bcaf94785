/** PullAPIWrapper: the broker to pull from next, and the tag filter of a pull result. */
module PullAPIWrapper {
  import opened Basics
  import opened Allocation
  import opened ProcessQueue
  import opened Subscription

  datatype PullStatus = Found | NoNewMsg | NoMatchedMsg | OffsetIllegal | BrokerTimeout

  /** What came back from the broker; msgs is the decoded message block. */
  datatype PullResultExt = PullResultExt(
    pullStatus: PullStatus,
    nextBeginOffset: int,
    minOffset: int,
    maxOffset: int,
    suggestWhichBrokerId: int,
    msgs: seq<Message>)

  datatype PullResult = PullResult(
    pullStatus: PullStatus,
    nextBeginOffset: int,
    minOffset: int,
    maxOffset: int,
    msgFoundList: seq<Message>)

  datatype PullError = NoResult

  const MASTER_ID: int := 0

  /** With an empty tag list everything stays. */
  function Filter(msgs: seq<Message>, tags: seq<string>): seq<Message> {
    if tags == [] || msgs == [] then msgs else
      var n := |msgs| - 1;
      Filter(msgs[..n], tags) + if msgs[n].tags in tags then [msgs[n]] else []
  }

  class PullAPIWrapper {
    var pullFromWhichNodeTable: map<Queue, int>

    constructor ()
      ensures pullFromWhichNodeTable == map[]
    {
      pullFromWhichNodeTable := map[];
    }

    method UpdatePullFromWhichNode(mq: Queue, brokerId: int)
      modifies this
      ensures pullFromWhichNodeTable == old(pullFromWhichNodeTable)[mq := brokerId]
    {
      pullFromWhichNodeTable := pullFromWhichNodeTable[mq := brokerId];
    }

    /** The broker suggested last, the master when there was none. */
    method RecalculatePullFromWhichNode(mq: Queue) returns (brokerId: int)
      ensures brokerId == if mq in pullFromWhichNodeTable then pullFromWhichNodeTable[mq] else 0
    {
      if mq in pullFromWhichNodeTable {
        return pullFromWhichNodeTable[mq];
      }
      return MASTER_ID;
    }

    /** The filter loop. */
    method FilterList(msgAllList: seq<Message>, tagsSet: seq<string>) returns (msgFilterList: seq<Message>)
      requires tagsSet != []
      ensures msgFilterList == Filter(msgAllList, tagsSet)
    {
      msgFilterList := [];
      for i := 0 to |msgAllList|
        invariant msgFilterList == Filter(msgAllList[..i], tagsSet)
      {
        assert msgAllList[..i + 1][..i] == msgAllList[..i];
        if msgAllList[i].tags in tagsSet {
          msgFilterList := msgFilterList + [msgAllList[i]];
        }
      }
      assert msgAllList[..|msgAllList|] == msgAllList;
    }

    /** Without a result it throws and changes nothing. Otherwise the suggested broker is remembered for the
        queue, the messages are filtered, and the rest of the result is passed on; no subscription data is
        like an empty tag list. */
    method ProcessPullResult(mq: Queue, pullResult: Option<PullResultExt>, subscriptionData: Option<seq<string>>)
      returns (r: Result<PullResult, PullError>)
      modifies this
      ensures match pullResult
        case None => r == Err(NoResult) && pullFromWhichNodeTable == old(pullFromWhichNodeTable)
        case Some(ext) =>
          && pullFromWhichNodeTable == old(pullFromWhichNodeTable)[mq := ext.suggestWhichBrokerId]
          && r.Ok?
          && r.value.pullStatus == ext.pullStatus && r.value.nextBeginOffset == ext.nextBeginOffset
          && r.value.minOffset == ext.minOffset && r.value.maxOffset == ext.maxOffset
          && r.value.msgFoundList ==
               if ext.pullStatus != Found then []
               else Filter(ext.msgs, if subscriptionData.Some? then subscriptionData.value else [])
    {
      if pullResult.None? {
        return Err(NoResult);
      }
      var ext := pullResult.value;
      UpdatePullFromWhichNode(mq, ext.suggestWhichBrokerId);
      var msgFilterList := [];
      if ext.pullStatus == Found {
        if subscriptionData.Some? && subscriptionData.value != [] {
          msgFilterList := FilterList(ext.msgs, subscriptionData.value);
        } else {
          msgFilterList := ext.msgs;
        }
      }
      return Ok(PullResult(ext.pullStatus, ext.nextBeginOffset, ext.minOffset, ext.maxOffset, msgFilterList));
    }
  }

  /** The positions of the messages whose tag is listed. */
  function Positions(msgs: seq<Message>, tags: seq<string>): (at: seq<nat>)
    ensures forall i :: 0 <= i < |at| ==> at[i] < |msgs|
  {
    if msgs == [] then [] else
      var n := |msgs| - 1;
      Positions(msgs[..n], tags) + if msgs[n].tags in tags then [n] else []
  }

  lemma {:induction false} PositionsExact(msgs: seq<Message>, tags: seq<string>)
    ensures forall i, j :: 0 <= i < j < |Positions(msgs, tags)| ==> Positions(msgs, tags)[i] < Positions(msgs, tags)[j]
    ensures forall k :: 0 <= k < |msgs| ==> (k in Positions(msgs, tags) <==> msgs[k].tags in tags)
  {
    if msgs == [] {
    } else {
      var n := |msgs| - 1;
      var before, at := Positions(msgs[..n], tags), Positions(msgs, tags);
      PositionsExact(msgs[..n], tags);
      forall k | 0 <= k < |msgs| ensures k in at <==> msgs[k].tags in tags {
        if k < n {
          assert msgs[..n][k] == msgs[k];
        }
      }
    }
  }

  lemma {:induction false} FilterAtPositions(msgs: seq<Message>, tags: seq<string>)
    requires tags != []
    ensures var at := Positions(msgs, tags);
      Filter(msgs, tags) == seq(|at|, i requires 0 <= i < |at| => msgs[at[i]])
  {
    if msgs == [] {
    } else {
      var n := |msgs| - 1;
      var before, at := Positions(msgs[..n], tags), Positions(msgs, tags);
      FilterAtPositions(msgs[..n], tags);
      assert forall i :: 0 <= i < |before| ==> at[i] == before[i] && msgs[..n][before[i]] == msgs[at[i]];
    }
  }

  /** The filter keeps, in order, exactly the messages whose tag is listed: it is the batch read at the
      increasing positions of those messages. */
  lemma FilterExact(msgs: seq<Message>, tags: seq<string>) returns (at: seq<nat>)
    requires tags != []
    ensures |at| == |Filter(msgs, tags)|
    ensures forall i, j :: 0 <= i < j < |at| ==> at[i] < at[j]
    ensures forall i :: 0 <= i < |at| ==> at[i] < |msgs| && Filter(msgs, tags)[i] == msgs[at[i]]
    ensures forall k :: 0 <= k < |msgs| ==> (msgs[k].tags in tags <==> k in at)
  {
    at := Positions(msgs, tags);
    PositionsExact(msgs, tags);
    FilterAtPositions(msgs, tags);
  }

  /** End to end: a printed list of well-formed tags subscribes to exactly the messages with one of them. */
  lemma SubscribedExactly(tags: seq<string>, msgs: seq<Message>) returns (at: seq<nat>)
    requires tags != [] && AllClean(tags) && !StartsWithBar(tags[0]) && tags != [SUB_ALL]
    ensures var r := TagsFor(Join(tags));
      && r.Ok? && |at| == |Filter(msgs, r.value)|
      && (forall i :: 0 <= i < |at| ==> at[i] < |msgs| && Filter(msgs, r.value)[i] == msgs[at[i]])
    ensures forall i, j :: 0 <= i < j < |at| ==> at[i] < at[j]
    ensures forall k :: 0 <= k < |msgs| ==> (msgs[k].tags in tags <==> k in at)
  {
    ParseUndoesPrint(tags);
    at := FilterExact(msgs, tags);
  }

  /** The filter lets every batch through if and only if no tag is listed, so a subscription passes every
      message exactly when its expression is empty, "*", or after any leading bars nothing but spaces and
      double bars, and something. */
  lemma PassesEverythingExactly(subString: string)
    requires TagsFor(subString).Ok?
    ensures (forall msgs :: Filter(msgs, TagsFor(subString).value) == msgs) <==>
      || subString == "" || subString == "*"
      || (AfterBars(subString) != "" && SpacesAndBars(AfterBars(subString)))
  {
    var tags := TagsFor(subString).value;
    EverythingExactly(subString);
    if tags != [] {
      ParsedTagsAreClean(subString);
      var untagged := [Message(0, "", 0)];
      assert untagged[..0] == [];
      assert Filter(untagged, tags) == [];
    }
  }
}
