/** The order-history view: fetched orders sorted newest first, and the rows it renders. */
module OrdersTableComponent {
  import opened Models

  /** Timestamps never increase along `s`: newest first. */
  ghost predicate NewestFirst(s: seq<Order>) {
    forall i, j :: 0 <= i < j < |s| ==> s[i].timestamp >= s[j].timestamp
  }

  /** No two orders of `s` carry the same timestamp. */
  ghost predicate DistinctTimestamps(s: seq<Order>) {
    forall i, j :: 0 <= i < j < |s| ==> s[i].timestamp != s[j].timestamp
  }

  /** Both orderings survive dropping the first order. */
  lemma NewestFirstTail(s: seq<Order>)
    requires |s| > 0 && NewestFirst(s) && DistinctTimestamps(s)
    ensures NewestFirst(s[1..]) && DistinctTimestamps(s[1..])
  {
  }

  /** Two lists with the same orders that agree on the first one agree on the rest. */
  lemma SameTailOrders(s: seq<Order>, t: seq<Order>)
    requires |s| > 0 && |t| > 0 && s[0] == t[0]
    requires multiset(s) == multiset(t)
    ensures multiset(s[1..]) == multiset(t[1..])
  {
    assert s == [s[0]] + s[1..];
    assert t == [t[0]] + t[1..];
    assert multiset(s) == multiset{s[0]} + multiset(s[1..]);
    assert multiset(t) == multiset{s[0]} + multiset(t[1..]);
    forall x
      ensures multiset(s[1..])[x] == multiset(t[1..])[x]
    {
      assert multiset(s)[x] == multiset{s[0]}[x] + multiset(s[1..])[x];
      assert multiset(t)[x] == multiset{s[0]}[x] + multiset(t[1..])[x];
    }
  }

  /** Two newest-first arrangements of the same distinctly stamped orders begin alike. */
  lemma NewestFirstSameHead(s: seq<Order>, t: seq<Order>)
    requires |s| > 0 && NewestFirst(s) && NewestFirst(t) && DistinctTimestamps(s)
    requires multiset(s) == multiset(t)
    ensures |t| > 0 && s[0] == t[0]
  {
    assert s[0] in multiset(t);
    var k :| 0 <= k < |t| && t[k] == s[0];
    assert t[0] in multiset(s);
    var m :| 0 <= m < |s| && s[m] == t[0];
    assert s[m].timestamp <= s[0].timestamp;
    assert t[k].timestamp <= t[0].timestamp;
    assert m == 0;
  }

  /** When timestamps are distinct there is only one newest-first arrangement of a list:
      orders stamped T1 < T2 < T3 can only be shown as T3, T2, T1. */
  lemma {:induction false} NewestFirstUnique(s: seq<Order>, t: seq<Order>)
    requires NewestFirst(s) && NewestFirst(t)
    requires multiset(s) == multiset(t)
    requires DistinctTimestamps(s)
    ensures s == t
    decreases |s|
  {
    if |s| == 0 {
      assert |t| == |multiset(t)| == 0;
    } else {
      NewestFirstSameHead(s, t);
      SameTailOrders(s, t);
      NewestFirstTail(s);
      assert NewestFirst(t[1..]);
      NewestFirstUnique(s[1..], t[1..]);
      assert s == [s[0]] + s[1..];
      assert t == [t[0]] + t[1..];
    }
  }

  /** The orders of `s` stamped `t`, in their order in `s`. */
  function StampedAt(s: seq<Order>, t: int): seq<Order> {
    if s == [] then []
    else (if s[0].timestamp == t then [s[0]] else []) + StampedAt(s[1..], t)
  }

  /** For every timestamp, `s` and `u` hold the same orders with it, in the same order. */
  ghost predicate SameTies(s: seq<Order>, u: seq<Order>) {
    forall t :: StampedAt(s, t) == StampedAt(u, t)
  }

  lemma {:induction false} StampedAtAppend(a: seq<Order>, b: seq<Order>, t: int)
    ensures StampedAt(a + b, t) == StampedAt(a, t) + StampedAt(b, t)
  {
    if a != [] {
      StampedAtAppend(a[1..], b, t);
      assert (a + b)[0] == a[0];
      assert (a + b)[1..] == a[1..] + b;
    } else {
      assert a + b == b;
    }
  }

  /** Exchanging two neighbours with different timestamps changes no tie order. */
  lemma SwapKeepsTies(s: seq<Order>, i: nat)
    requires i + 1 < |s| && s[i].timestamp != s[i + 1].timestamp
    ensures SameTies(s, s[i := s[i + 1]][i + 1 := s[i]])
  {
    var u := s[i := s[i + 1]][i + 1 := s[i]];
    var pre, post := s[..i], s[i + 2..];
    assert s == pre + ([s[i], s[i + 1]] + post);
    assert u == pre + ([s[i + 1], s[i]] + post);
    forall t
      ensures StampedAt(s, t) == StampedAt(u, t)
    {
      StampedAtAppend(pre, [s[i], s[i + 1]] + post, t);
      StampedAtAppend(pre, [s[i + 1], s[i]] + post, t);
      StampedAtAppend([s[i], s[i + 1]], post, t);
      StampedAtAppend([s[i + 1], s[i]], post, t);
      StampedAtAppend([s[i]], [s[i + 1]], t);
      StampedAtAppend([s[i + 1]], [s[i]], t);
    }
  }

  lemma SameTiesTransitive(s: seq<Order>, u: seq<Order>, v: seq<Order>)
    requires SameTies(s, u) && SameTies(u, v)
    ensures SameTies(s, v)
  {
  }

  /** Both lists keep their tie order after dropping a common first order. */
  lemma SameTiesTail(s: seq<Order>, u: seq<Order>)
    requires |s| > 0 && |u| > 0 && s[0] == u[0] && SameTies(s, u)
    ensures SameTies(s[1..], u[1..])
  {
    forall t
      ensures StampedAt(s[1..], t) == StampedAt(u[1..], t)
    {
      var h := if s[0].timestamp == t then [s[0]] else [];
      assert StampedAt(s, t) == h + StampedAt(s[1..], t);
      assert StampedAt(u, t) == h + StampedAt(u[1..], t);
      assert StampedAt(s[1..], t) == StampedAt(s, t)[|h|..];
    }
  }

  /** Two newest-first arrangements of the same orders with the same tie order start
      with the same order. */
  lemma StableSameHead(s: seq<Order>, u: seq<Order>)
    requires |s| > 0 && NewestFirst(s) && NewestFirst(u)
    requires multiset(s) == multiset(u) && SameTies(s, u)
    ensures |u| > 0 && s[0] == u[0]
  {
    assert s[0] in multiset(u);
    var k :| 0 <= k < |u| && u[k] == s[0];
    assert u[0] in multiset(s);
    var m :| 0 <= m < |s| && s[m] == u[0];
    assert s[m].timestamp <= s[0].timestamp;
    assert u[k].timestamp <= u[0].timestamp;
    var top := s[0].timestamp;
    assert u[0].timestamp == top;
    assert StampedAt(s, top) == [s[0]] + StampedAt(s[1..], top);
    assert StampedAt(u, top) == [u[0]] + StampedAt(u[1..], top);
    assert StampedAt(s, top) == StampedAt(u, top);
    assert StampedAt(s, top)[0] == s[0] && StampedAt(u, top)[0] == u[0];
  }

  /** The newest-first, tie-preserving arrangement of a list is unique: the shown history
      is determined by the fetched list alone. */
  lemma {:induction false} StableSortUnique(s: seq<Order>, u: seq<Order>)
    requires NewestFirst(s) && NewestFirst(u)
    requires multiset(s) == multiset(u) && SameTies(s, u)
    ensures s == u
    decreases |s|
  {
    if |s| == 0 {
      assert |u| == |multiset(u)| == 0;
    } else {
      StableSameHead(s, u);
      SameTailOrders(s, u);
      SameTiesTail(s, u);
      assert NewestFirst(s[1..]) && NewestFirst(u[1..]);
      StableSortUnique(s[1..], u[1..]);
      assert s == [s[0]] + s[1..];
      assert u == [u[0]] + u[1..];
    }
  }

  /** Exchanges two neighbouring entries of `a` whose timestamps differ. */
  method SwapNeighbours(a: array<Order>, i: nat)
    requires i + 1 < a.Length && a[i].timestamp != a[i + 1].timestamp
    modifies a
    ensures a[..] == old(a[..])[i := old(a[i + 1])][i + 1 := old(a[i])]
    ensures multiset(a[..]) == old(multiset(a[..]))
    ensures SameTies(a[..], old(a[..]))
  {
    SwapKeepsTies(a[..], i);
    a[i], a[i + 1] := a[i + 1], a[i];
  }

  /** The first `n` orders of `s` are newest first. */
  ghost predicate NewestFirstUpTo(s: seq<Order>, n: int) {
    forall k, l :: 0 <= k < l < n && l < |s| ==> s[k].timestamp >= s[l].timestamp
  }

  /** An insertion in progress: `s[..i+1]` is newest first except for the order at `j`,
      which is newer than everything after it up to `i`. */
  ghost predicate Bubbling(s: seq<Order>, j: int, i: int) {
    && 0 <= j <= i < |s|
    && (forall k, l :: 0 <= k < l <= i && k != j && l != j ==> s[k].timestamp >= s[l].timestamp)
    && (forall l :: j < l <= i ==> s[j].timestamp > s[l].timestamp)
  }

  lemma BubbleStart(s: seq<Order>, i: int)
    requires 0 <= i < |s| && NewestFirstUpTo(s, i)
    ensures Bubbling(s, i, i)
  {
  }

  /** Moving the inserted order one place left keeps the insertion in progress. */
  lemma BubbleStep(s: seq<Order>, j: int, i: int)
    requires Bubbling(s, j, i) && j > 0 && s[j - 1].timestamp < s[j].timestamp
    ensures Bubbling(s[j - 1 := s[j]][j := s[j - 1]], j - 1, i)
  {
  }

  /** Once the inserted order meets one at least as new, the prefix is newest first. */
  lemma BubbleDone(s: seq<Order>, j: int, i: int)
    requires Bubbling(s, j, i) && (j == 0 || s[j - 1].timestamp >= s[j].timestamp)
    ensures NewestFirstUpTo(s, i + 1)
  {
  }

  /** Moves `a[i]` left past every older order in the newest-first prefix `a[..i]`. */
  method InsertNewest(a: array<Order>, i: nat)
    requires i < a.Length && NewestFirstUpTo(a[..], i)
    modifies a
    ensures NewestFirstUpTo(a[..], i + 1)
    ensures multiset(a[..]) == old(multiset(a[..]))
    ensures SameTies(a[..], old(a[..]))
  {
    var j := i;
    BubbleStart(a[..], i);
    while j > 0 && a[j - 1].timestamp < a[j].timestamp
      invariant Bubbling(a[..], j, i)
      invariant multiset(a[..]) == old(multiset(a[..]))
      invariant SameTies(a[..], old(a[..]))
    {
      ghost var before := a[..];
      BubbleStep(before, j, i);
      SwapNeighbours(a, j - 1);
      SameTiesTransitive(a[..], before, old(a[..]));
      j := j - 1;
    }
    BubbleDone(a[..], j, i);
  }

  /** Sorts `a` in place by timestamp, newest first; orders with equal timestamps keep
      their relative order. */
  method SortNewestFirst(a: array<Order>)
    modifies a
    ensures NewestFirst(a[..])
    ensures multiset(a[..]) == old(multiset(a[..]))
    ensures SameTies(a[..], old(a[..]))
  {
    var i := 0;
    while i < a.Length
      invariant 0 <= i <= a.Length
      invariant NewestFirstUpTo(a[..], i)
      invariant multiset(a[..]) == old(multiset(a[..]))
      invariant SameTies(a[..], old(a[..]))
    {
      ghost var before := a[..];
      InsertNewest(a, i);
      SameTiesTransitive(a[..], before, old(a[..]));
      i := i + 1;
    }
  }

  /** One row of the history table. */
  datatype Row = OrderRow(order: Order) | PlaceholderRow

  /** The table body: one row per order, or the "No orders placed yet" row alone. */
  function Rows(orders: seq<Order>): (rows: seq<Row>)
    ensures PlaceholderRow in rows <==> |orders| == 0
    ensures |orders| == 0 ==> rows == [PlaceholderRow]
    ensures |orders| > 0 ==> |rows| == |orders| && forall i :: 0 <= i < |orders| ==> rows[i] == OrderRow(orders[i])
  {
    seq(|orders|, i requires 0 <= i < |orders| => OrderRow(orders[i])) + (if |orders| == 0 then [PlaceholderRow] else [])
  }

  /** What a fetch delivered: the parsed order array, or a failure. */
  datatype Fetch = Failed(message: string) | Fetched(data: array<Order>)

  class OrdersTable {
    var orders: seq<Order>

    /** Nothing is shown before the first fetch completes. */
    constructor ()
      ensures orders == []
    {
      orders := [];
    }

    /** The effect that runs on mount and on every change of the refresh signal: a
        delivered array is sorted in place and replaces the shown list; a failure
        leaves the shown list as it was. */
    method FetchOrders(fetch: Fetch)
      modifies this, if fetch.Fetched? then {fetch.data} else {}
      ensures fetch.Failed? ==> orders == old(orders)
      ensures fetch.Fetched? ==>
        && orders == fetch.data[..]
        && NewestFirst(orders)
        && multiset(orders) == old(multiset(fetch.data[..]))
        && SameTies(orders, old(fetch.data[..]))
    {
      if fetch.Fetched? {
        SortNewestFirst(fetch.data);
        orders := fetch.data[..];
      }
    }
  }
}
