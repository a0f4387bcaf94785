/** Least and greatest keys of a finite integer set, and its ascending enumeration.
    The process queue's tree maps are ordered by queue offset; this module is that order. */
module OrderedMap {

  lemma Pick<T>(s: set<T>) returns (x: T)
    requires s != {}
    ensures x in s
  {
    x :| x in s;
  }

  lemma {:induction false} LeastExists(s: set<int>)
    requires s != {}
    ensures exists k :: k in s && forall j :: j in s ==> k <= j
  {
    var x := Pick(s);
    var rest := s - {x};
    assert forall j :: j in s ==> j == x || j in rest;
    if rest != {} {
      LeastExists(rest);
      var k :| k in rest && forall j :: j in rest ==> k <= j;
      var least := if k <= x then k else x;
      assert least in s;
    }
  }

  lemma {:induction false} GreatestExists(s: set<int>)
    requires s != {}
    ensures exists k :: k in s && forall j :: j in s ==> j <= k
  {
    var x := Pick(s);
    var rest := s - {x};
    assert forall j :: j in s ==> j == x || j in rest;
    if rest != {} {
      GreatestExists(rest);
      var k :| k in rest && forall j :: j in rest ==> j <= k;
      var greatest := if x <= k then k else x;
      assert greatest in s;
    }
  }

  function Min(s: set<int>): (k: int)
    requires s != {}
    ensures k in s && forall j :: j in s ==> k <= j
  {
    LeastExists(s);
    var k :| k in s && forall j :: j in s ==> k <= j;
    k
  }

  function Max(s: set<int>): (k: int)
    requires s != {}
    ensures k in s && forall j :: j in s ==> j <= k
  {
    GreatestExists(s);
    var k :| k in s && forall j :: j in s ==> j <= k;
    k
  }

  /** The elements of s in ascending order. */
  function Sorted(s: set<int>): seq<int>
    decreases |s|
  {
    if s == {} then [] else
      var k := Min(s);
      [k] + Sorted(s - {k})
  }

  lemma {:induction false} SortedFacts(s: set<int>)
    ensures |Sorted(s)| == |s|
    ensures forall k :: k in Sorted(s) <==> k in s
    ensures Ascending(Sorted(s))
    decreases |s|
  {
    if s == {} {
    } else {
      var k := Min(s);
      var rest := Sorted(s - {k});
      SortedFacts(s - {k});
      assert Sorted(s) == [k] + rest;
      forall j | 0 <= j < |rest| ensures k < rest[j] {
        assert rest[j] in s - {k};
      }
    }
  }

  /** The n least elements of s in ascending order, or all of s if it has fewer. */
  function Least(s: set<int>, n: nat): seq<int>
    decreases n
  {
    if n == 0 || s == {} then [] else
      var k := Min(s);
      [k] + Least(s - {k}, n - 1)
  }

  lemma {:induction false} LeastIsPrefix(s: set<int>, n: nat)
    ensures Least(s, n) <= Sorted(s)
    ensures |Least(s, n)| == if |s| <= n then |s| else n
    decreases n
  {
    if n > 0 && s != {} {
      var k := Min(s);
      LeastIsPrefix(s - {k}, n - 1);
      assert |s - {k}| == |s| - 1;
    } else {
      assert s == {} ==> |s| == 0;
    }
  }

  ghost predicate Ascending(s: seq<int>) {
    forall i, j :: 0 <= i < j < |s| ==> s[i] < s[j]
  }

  /** s lists the offsets of a downward-closed part of all: nothing smaller in all is skipped. */
  ghost predicate DownwardClosed(list: seq<int>, all: set<int>) {
    && (forall k :: k in list ==> k in all)
    && (forall k, o :: k in list && o in all && o <= k ==> o in list)
  }

  lemma TailStaysDownwardClosed(list: seq<int>, all: set<int>)
    requires list != [] && Ascending(list) && DownwardClosed(list, all)
    ensures list[0] in all && list[0] == Min(all)
    ensures Ascending(list[1..]) && DownwardClosed(list[1..], all - {list[0]})
  {
    assert list[0] in list;
    var k := Min(all);
    assert k in list;
    var tail := list[1..];
    assert forall j :: j in list <==> j == list[0] || j in tail by {
      assert list == [list[0]] + tail;
    }
    forall j | j in tail ensures list[0] < j {
      var n :| 0 <= n < |tail| && tail[n] == j;
      assert list[n + 1] == j;
    }
  }

  /** An ascending list that is downward closed inside a set is a prefix of the set in ascending order. */
  lemma {:induction false} AscendingPrefix(list: seq<int>, all: set<int>)
    requires Ascending(list) && DownwardClosed(list, all)
    ensures list <= Sorted(all)
    decreases |list|
  {
    if list == [] {
    } else {
      TailStaysDownwardClosed(list, all);
      AscendingPrefix(list[1..], all - {list[0]});
      assert Sorted(all) == [list[0]] + Sorted(all - {list[0]});
      assert list == [list[0]] + list[1..];
    }
  }
}
