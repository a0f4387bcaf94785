/** AllocateMQAveragely: which slice of the sorted queue list belongs to each client. */
module Allocation {
  import opened Basics

  datatype Queue = Queue(topic: string, broker: string, queueId: int)

  datatype Error = EmptyClientId | NoQueues | NoClients

  /** Of n queues, each of c clients owns n / c, and each of the first n % c owns one more. */
  function Size(n: nat, c: nat, i: nat): nat
    requires c > 0
  {
    n / c + if i < n % c then 1 else 0
  }

  /** The number of queues that the first i clients own together. */
  function Cut(n: nat, c: nat, i: nat): nat
    requires c > 0
  {
    if i == 0 then 0 else Cut(n, c, i - 1) + Size(n, c, i - 1)
  }

  lemma {:induction false} CutClosedForm(n: nat, c: nat, i: nat)
    requires c > 0
    ensures Cut(n, c, i) == i * (n / c) + Lesser(i, n % c)
  {
    if i == 0 {
    } else {
      CutClosedForm(n, c, i - 1);
      assert i * (n / c) == (i - 1) * (n / c) + n / c;
    }
  }

  lemma CutAll(n: nat, c: nat)
    requires c > 0
    ensures Cut(n, c, c) == n
  {
    CutClosedForm(n, c, c);
    assert c * (n / c) + n % c == n;
  }

  lemma {:induction false} CutGrows(n: nat, c: nat, i: nat, j: nat)
    requires c > 0 && i <= j
    ensures Cut(n, c, i) <= Cut(n, c, j)
    decreases j - i
  {
    if i == j {
    } else {
      CutGrows(n, c, i, j - 1);
    }
  }

  lemma CutWithin(n: nat, c: nat, i: nat)
    requires c > 0 && i <= c
    ensures Cut(n, c, i) <= n
  {
    CutGrows(n, c, i, c);
    CutAll(n, c);
  }

  /** The segments [Cut(i), Cut(i) + Size(i)) tile [0, n): they start at 0, follow one another, end at n,
      and their sizes never increase and differ by at most one. */
  lemma SegmentsTile(n: nat, c: nat)
    requires c > 0
    ensures Cut(n, c, 0) == 0 && Cut(n, c, c) == n
    ensures forall i: nat {:trigger Size(n, c, i)} :: i < c ==> Cut(n, c, i) + Size(n, c, i) == Cut(n, c, i + 1) <= n
    ensures forall i: nat, j: nat :: i <= j < c ==> Size(n, c, j) <= Size(n, c, i) <= Size(n, c, j) + 1
  {
    CutAll(n, c);
    forall i: nat {:trigger Size(n, c, i)} | i < c ensures Cut(n, c, i) + Size(n, c, i) == Cut(n, c, i + 1) <= n {
      CutWithin(n, c, i + 1);
    }
    SizesEven(n, c);
  }

  lemma SizesEven(n: nat, c: nat)
    requires c > 0
    ensures forall i: nat, j: nat :: i <= j < c ==> Size(n, c, j) <= Size(n, c, i) <= Size(n, c, j) + 1
  {
  }

  /** The integer arithmetic of allocate, branch for branch, for n queues and c clients. */
  function AverageSize(n: nat, c: nat, index: nat): nat
    requires c > 0
  {
    var mod := n % c;
    if n <= c then 1 else if mod > 0 && index < mod then n / c + 1 else n / c
  }

  function StartIndex(n: nat, c: nat, index: nat): int
    requires c > 0
  {
    var averageSize, mod := AverageSize(n, c, index), n % c;
    if mod > 0 && index < mod then index * averageSize else index * averageSize + mod
  }

  function Range(n: nat, c: nat, index: nat): int
    requires c > 0
  {
    Lesser(AverageSize(n, c, index), n - StartIndex(n, c, index))
  }

  lemma SmallQuotient(n: nat, c: nat)
    requires c > 0
    ensures n < c ==> n / c == 0 && n % c == n
    ensures n == c ==> n / c == 1 && n % c == 0
  {
  }

  lemma Products(a: nat, q: nat)
    ensures a * (q + 1) == a * q + a && a * 1 == a && a * 0 == 0
  {
  }

  /** With fewer queues than clients the start of a client past the queues is off, but its range is negative. */
  lemma FewQueues(n: nat, c: nat, index: nat)
    requires 0 < n < c && index < c
    ensures AverageSize(n, c, index) == 1 && StartIndex(n, c, index) == if index < n then index else index + n
    ensures Cut(n, c, index) == Lesser(index, n) && Size(n, c, index) == if index < n then 1 else 0
  {
    SmallQuotient(n, c);
    CutClosedForm(n, c, index);
    Products(index, 0);
  }

  lemma ManyQueues(n: nat, c: nat, index: nat)
    requires 0 < c <= n && index < c
    ensures StartIndex(n, c, index) == Cut(n, c, index)
    ensures AverageSize(n, c, index) == Size(n, c, index)
  {
    SmallQuotient(n, c);
    CutClosedForm(n, c, index);
    Products(index, n / c);
    AverageIsSize(n, c, index);
  }

  lemma AverageIsSize(n: nat, c: nat, index: nat)
    requires 0 < c <= n && index < c
    ensures AverageSize(n, c, index) == Size(n, c, index)
  {
    SmallQuotient(n, c);
  }

  /** The branches compute the index-th segment of the tiling. */
  lemma ArithmeticIsSegment(n: nat, c: nat, index: nat)
    requires 0 < n && index < c
    ensures Size(n, c, index) == (if Range(n, c, index) < 0 then 0 else Range(n, c, index))
    ensures Size(n, c, index) > 0 ==> StartIndex(n, c, index) == Cut(n, c, index)
  {
    if n < c {
      FewQueues(n, c, index);
    } else {
      ManyQueues(n, c, index);
      CutWithin(n, c, index + 1);
      assert Cut(n, c, index + 1) == Cut(n, c, index) + Size(n, c, index);
    }
  }

  function Segment<T>(list: seq<T>, c: nat, index: nat): (r: seq<T>)
    requires index < c
  {
    CutWithin(|list|, c, index + 1);
    list[Cut(|list|, c, index)..Cut(|list|, c, index + 1)]
  }

  /** The first position of x in list, or -1. */
  function IndexOf<T(==)>(list: seq<T>, x: T): (r: int)
    ensures -1 <= r < |list|
    ensures r >= 0 ==> list[r] == x
    ensures r == -1 ==> x !in list
  {
    if list == [] then -1
    else if list[0] == x then 0
    else
      var r := IndexOf(list[1..], x);
      if r == -1 then -1 else r + 1
  }

  lemma {:induction false} IndexOfFirst<T>(list: seq<T>, x: T, i: nat)
    requires i < |list| && list[i] == x && x !in list[..i]
    ensures IndexOf(list, x) == i
  {
    if i == 0 {
    } else {
      assert list[..i] == [list[0]] + list[1..][..i - 1];
      IndexOfFirst(list[1..], x, i - 1);
    }
  }

  /** What a client owns: nothing if it is not in the list, else the segment of its first position. */
  function OwnedBy(client: string, mqAll: seq<Queue>, cidAll: seq<string>): seq<Queue> {
    var index := IndexOf(cidAll, client);
    if index < 0 then [] else Segment(mqAll, |cidAll|, index)
  }

  lemma OwnedInList(client: string, qs: seq<Queue>, cs: seq<string>, q: Queue)
    requires q in OwnedBy(client, qs, cs)
    ensures q in qs
  {
    var index := IndexOf(cs, client);
    CutWithin(|qs|, |cs|, index + 1);
  }

  method FindIndex(cidAll: seq<string>, currentCID: string) returns (index: int)
    ensures index == IndexOf(cidAll, currentCID)
  {
    index := -1;
    for i := 0 to |cidAll|
      invariant index == -1 && currentCID !in cidAll[..i]
    {
      if cidAll[i] == currentCID {
        IndexOfFirst(cidAll, currentCID, i);
        return i;
      }
    }
    assert cidAll[..|cidAll|] == cidAll;
  }

  method Allocate(currentCID: string, mqAll: seq<Queue>, cidAll: seq<string>) returns (r: Result<seq<Queue>, Error>)
    ensures r.Err? <==> currentCID == "" || mqAll == [] || cidAll == []
    ensures r.Ok? ==> r.value == OwnedBy(currentCID, mqAll, cidAll)
    ensures r.Err? ==>
      r.error == if currentCID == "" then EmptyClientId else if mqAll == [] then NoQueues else NoClients
  {
    if currentCID == "" {
      return Err(EmptyClientId);
    }
    if mqAll == [] {
      return Err(NoQueues);
    }
    if cidAll == [] {
      return Err(NoClients);
    }
    var index := FindIndex(cidAll, currentCID);
    if index == -1 {
      return Ok([]);
    }
    var n, c := |mqAll|, |cidAll|;
    ArithmeticIsSegment(n, c, index);
    CutWithin(n, c, index + 1);
    var out := CopyRange(mqAll, StartIndex(n, c, index), Range(n, c, index));
    assert Cut(n, c, index + 1) == Cut(n, c, index) + Size(n, c, index);
    return Ok(out);
  }

  /** The copy loop of allocate. */
  method CopyRange(mqAll: seq<Queue>, startIndex: int, range: int) returns (out: seq<Queue>)
    requires mqAll != []
    requires range > 0 ==> 0 <= startIndex && startIndex + range <= |mqAll|
    ensures out == if range > 0 then mqAll[startIndex..startIndex + range] else []
  {
    out := [];
    if range >= 0 {
      for i := 0 to range
        invariant out == if range > 0 then mqAll[startIndex..startIndex + i] else []
      {
        if startIndex + i >= 0 {
          SmallQuotient(startIndex + i, |mqAll|);
          out := out + [mqAll[(startIndex + i) % |mqAll|]];
        }
      }
    }
  }

  /** The concatenation of the first k shares. */
  function Shares<T>(list: seq<T>, c: nat, k: nat): seq<T>
    requires k <= c
  {
    if k == 0 then [] else Shares(list, c, k - 1) + Segment(list, c, k - 1)
  }

  lemma {:induction false} SharesArePrefix<T>(list: seq<T>, c: nat, k: nat)
    requires k <= c && c > 0
    ensures Cut(|list|, c, k) <= |list| && Shares(list, c, k) == list[..Cut(|list|, c, k)]
  {
    CutWithin(|list|, c, k);
    if k == 0 {
    } else {
      SharesArePrefix(list, c, k - 1);
      Adjoin(list, Cut(|list|, c, k - 1), Cut(|list|, c, k));
    }
  }

  lemma Adjoin<T>(list: seq<T>, a: nat, b: nat)
    requires a <= b <= |list|
    ensures list[..a] + list[a..b] == list[..b]
  {
  }

  /** The shares of all clients, in client order, concatenate back to the whole list. */
  lemma SharesConcatenate<T>(list: seq<T>, c: nat)
    requires c > 0
    ensures Shares(list, c, c) == list
  {
    SharesArePrefix(list, c, c);
    CutAll(|list|, c);
  }

  lemma {:induction false} SegmentContaining(n: nat, c: nat, k: nat, j: nat) returns (i: nat)
    requires c > 0 && k <= c && j < Cut(n, c, k)
    ensures i < k && Cut(n, c, i) <= j < Cut(n, c, i + 1)
    decreases k
  {
    i := k - 1;
    if j < Cut(n, c, i) {
      i := SegmentContaining(n, c, i, j);
    }
  }

  lemma SegmentsApart(n: nat, c: nat, i: nat, k: nat, j: nat)
    requires c > 0 && Cut(n, c, i) <= j < Cut(n, c, i + 1) && Cut(n, c, k) <= j < Cut(n, c, k + 1)
    ensures i >= k
  {
    if i < k {
      CutGrows(n, c, i + 1, k);
      assert false;
    }
  }

  /** Each position of the list lies in the segment of exactly one client. */
  lemma ExactlyOneSegment(n: nat, c: nat, j: nat) returns (i: nat)
    requires c > 0 && j < n
    ensures i < c && Cut(n, c, i) <= j < Cut(n, c, i + 1)
    ensures forall k :: 0 <= k < c && Cut(n, c, k) <= j < Cut(n, c, k + 1) ==> k == i
  {
    CutAll(n, c);
    i := SegmentContaining(n, c, c, j);
    forall k | 0 <= k < c && Cut(n, c, k) <= j < Cut(n, c, k + 1) ensures k == i {
      SegmentsApart(n, c, i, k, j);
      SegmentsApart(n, c, k, i, j);
    }
  }
}
