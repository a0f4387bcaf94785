/** The clustering-mode offset table (RemoteBrokerOffsetStore) and where a newly owned queue starts. */
module OffsetStore {
  import opened Basics
  import opened Allocation

  datatype ReadOffsetType = ReadFromMemory | ReadFromStore | MemoryFirstThenStore

  /** How an offset query ends. BrokerRefused is every MQBrokerException: an error code (also for a group without a
      committed offset), and a query that times out or loses its connection. Unreachable is any other
      MQException: the broker's address is not known. */
  datatype Fetch = Fetched(offset: int) | BrokerRefused | Unreachable

  const NO_OFFSET: int := -1
  const QUERY_FAILED: int := -2

  function FetchResult(fetch: Fetch): int {
    match fetch
    case Fetched(offset) => offset
    case BrokerRefused => NO_OFFSET
    case Unreachable => QUERY_FAILED
  }

  /** What readOffset returns and leaves in the table. */
  function Read(table: map<Queue, int>, mq: Queue, kind: ReadOffsetType, fetch: Fetch): (map<Queue, int>, int) {
    if !kind.ReadFromStore? && mq in table then (table, table[mq])
    else if kind.ReadFromMemory? then (table, NO_OFFSET)
    else (if fetch.Fetched? then table[mq := fetch.offset] else table, FetchResult(fetch))
  }

  /** What has been sent to the broker after persist. */
  function Sent(table: map<Queue, int>, sent: seq<(Queue, int)>, mq: Queue): seq<(Queue, int)> {
    if mq in table then sent + [(mq, table[mq])] else sent
  }

  class RemoteBrokerOffsetStore {
    var offsetTable: map<Queue, int>
    var sent: seq<(Queue, int)>

    constructor ()
      ensures offsetTable == map[] && sent == []
    {
      offsetTable, sent := map[], [];
    }

    /** Overwrites without comparing. */
    method UpdateOffset(mq: Queue, offset: int)
      modifies this`offsetTable
      ensures offsetTable == old(offsetTable)[mq := offset]
    {
      offsetTable := offsetTable[mq := offset];
    }

    method ReadOffset(mq: Queue, kind: ReadOffsetType, fetch: Fetch) returns (offset: int)
      modifies this`offsetTable
      ensures (offsetTable, offset) == Read(old(offsetTable), mq, kind, fetch)
      ensures !kind.ReadFromStore? && mq in old(offsetTable) ==>
        offset == old(offsetTable)[mq] && offsetTable == old(offsetTable)
      ensures kind.ReadFromMemory? && mq !in old(offsetTable) ==> offset == -1 && offsetTable == old(offsetTable)
      ensures kind.ReadFromStore? || (kind.MemoryFirstThenStore? && mq !in old(offsetTable)) ==> match fetch
        case Fetched(o) => offset == o && offsetTable == old(offsetTable)[mq := o]
        case BrokerRefused => offset == -1 && offsetTable == old(offsetTable)
        case Unreachable => offset == -2 && offsetTable == old(offsetTable)
    {
      if !kind.ReadFromStore? {
        if mq in offsetTable {
          return offsetTable[mq];
        } else if kind.ReadFromMemory? {
          return NO_OFFSET;
        }
      }
      match fetch
      case Fetched(o) =>
        UpdateOffset(mq, o);
        offset := o;
      case BrokerRefused => offset := NO_OFFSET;
      case Unreachable => offset := QUERY_FAILED;
    }

    method Persist(mq: Queue)
      modifies this`sent
      ensures sent == Sent(offsetTable, old(sent), mq)
      ensures sent == old(sent) + if mq in offsetTable then [(mq, offsetTable[mq])] else []
    {
      if mq in offsetTable {
        sent := sent + [(mq, offsetTable[mq])];
      }
    }

    method RemoveOffset(mq: Queue)
      modifies this`offsetTable
      ensures offsetTable == old(offsetTable) - {mq}
    {
      if mq in offsetTable {
        offsetTable := offsetTable - {mq};
      }
    }
  }

  datatype ConsumeFromWhere = LastOffset | FirstOffset | Timestamp | OtherPlace

  const RETRY_PREFIX: string := "%RETRY%"

  predicate IsRetry(topic: string) {
    RETRY_PREFIX <= topic
  }

  /** A retry topic is one whose first seven characters are these. */
  lemma RetryExactly(topic: string)
    ensures IsRetry(topic) <==> |topic| >= 7 && topic[..7] == "%RETRY%"
  {
    assert IsRetry(topic) ==> topic == RETRY_PREFIX + topic[7..];
  }

  /** computePullFromWhere, given what readOffset(READ_FROM_STORE) returned; maxOffset is None when it throws. */
  function PullFromWhere(place: ConsumeFromWhere, retry: bool, lastOffset: int, maxOffset: Option<int>): int {
    var highest := match maxOffset case Some(v) => v case None => -1;
    match place
    case LastOffset =>
      if lastOffset >= 0 then lastOffset
      else if lastOffset == -1 then if retry then 0 else highest
      else -1
    case FirstOffset =>
      if lastOffset >= 0 then lastOffset
      else if lastOffset == -1 then 0
      else -1
    case Timestamp =>
      if lastOffset >= 0 then lastOffset
      else if lastOffset == -1 && retry then highest
      else -1
    case OtherPlace => -1
  }

  /** A queue for which the broker answers with a committed offset is resumed exactly there, except in the
      places that are not handled. One whose broker's address is not known is not started. Every other answer
      counts as no committed offset, a refused query and one that timed out as well: then a retry topic starts
      at 0 and an ordinary queue at the end (CONSUME_FROM_LAST_OFFSET), both at 0 with
      CONSUME_FROM_FIRST_OFFSET, and with CONSUME_FROM_TIMESTAMP a retry topic at the end and an ordinary queue
      not at all. */
  lemma ResumesAtCommitted(place: ConsumeFromWhere, retry: bool, fetch: Fetch, maxOffset: Option<int>)
    ensures var where := PullFromWhere(place, retry, FetchResult(fetch), maxOffset);
      && (fetch.Fetched? && fetch.offset >= 0 && !place.OtherPlace? ==> where == fetch.offset)
      && (fetch.Unreachable? || place.OtherPlace? ==> where == -1)
      && (place.Timestamp? && !retry ==> (where >= 0 <==> fetch.Fetched? && fetch.offset >= 0))
      && (fetch.BrokerRefused? ==>
            && (place.FirstOffset? || (place.LastOffset? && retry) ==> where == 0)
            && ((place.LastOffset? && !retry) || (place.Timestamp? && retry) ==>
                  (if maxOffset.Some? then where == maxOffset.value else where == -1)))
  {
  }
}
