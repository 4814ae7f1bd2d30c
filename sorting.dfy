/** Python's `sorted(items, key=k, reverse=True)`: a stable sort that puts
    larger keys first and keeps items with equal keys in their input order.

    The keys are passed as a sequence parallel to the items (`keys[i]` is the
    key of `items[i]`), so that keys read from mutable objects can be
    computed by the caller. The result is described through the permutation
    of input positions it applies. */
module Sorting {

  import opened Sequences

  /** Position `i` of the input comes before position `j` in the output:
      its key is larger, or the keys are equal and `i` came first. */
  predicate Precedes(keys: seq<int>, i: int, j: int)
  {
    0 <= i < |keys| && 0 <= j < |keys| &&
    (keys[i] > keys[j] || (keys[i] == keys[j] && i < j))
  }

  /** Every earlier entry of `order` precedes every later one. */
  predicate Ordered(keys: seq<int>, order: seq<int>)
  {
    forall a, b | 0 <= a < b < |order| :: Precedes(keys, order[a], order[b])
  }

  /** `order` lists each position `0 .. n-1` once. */
  predicate CoversIndices(order: seq<int>, n: int)
  {
    |order| == n &&
    (forall k | 0 <= k < |order| :: 0 <= order[k] < n) &&
    (forall i | 0 <= i < n :: i in order)
  }

  /** The items at the given positions, in that order. */
  function Select<T>(s: seq<T>, order: seq<int>): (r: seq<T>)
    requires forall k | 0 <= k < |order| :: 0 <= order[k] < |s|
    ensures |r| == |order|
    ensures forall k {:trigger order[k]} | 0 <= k < |order| :: r[k] == s[order[k]]
  {
    if order == [] then [] else [s[order[0]]] + Select(s, order[1..])
  }

  /** `r` is the stable descending sort of `s` by `keys`. */
  ghost predicate IsStableSortDesc<T>(s: seq<T>, keys: seq<int>, r: seq<T>)
  {
    |keys| == |s| &&
    exists order :: CoversIndices(order, |s|) && Ordered(keys, order) && r == Select(s, order)
  }

  /** Places position `m`, which comes after every position in `order`,
      behind all positions whose key is at least its own. */
  function Insert(keys: seq<int>, order: seq<int>, m: int): (r: seq<int>)
    requires 0 <= m < |keys|
    requires forall k | 0 <= k < |order| :: 0 <= order[k] < m
    requires Ordered(keys, order)
    ensures |r| == |order| + 1
    ensures forall k | 0 <= k < |r| :: 0 <= r[k] <= m
    ensures forall i :: i in r <==> i in order || i == m
    ensures Ordered(keys, r)
    decreases |order|
  {
    if order == [] || keys[order[0]] < keys[m] then
      [m] + order
    else
      var rest := Insert(keys, order[1..], m);
      assert forall i | i in order[1..] :: Precedes(keys, order[0], i);
      [order[0]] + rest
  }

  /** The positions `0 .. n-1` in the order the stable descending sort puts them. */
  function SortOrder(keys: seq<int>, n: int): (order: seq<int>)
    requires 0 <= n <= |keys|
    ensures CoversIndices(order, n)
    ensures Ordered(keys, order)
    decreases n
  {
    if n == 0 then [] else Insert(keys, SortOrder(keys, n - 1), n - 1)
  }

  /** `sorted(s, key=..., reverse=True)`. */
  function SortDesc<T>(s: seq<T>, keys: seq<int>): (r: seq<T>)
    requires |keys| == |s|
    ensures IsStableSortDesc(s, keys, r)
  {
    var order := SortOrder(keys, |s|);
    Select(s, order)
  }

  /** Two orders that cover the same positions and both respect
      `Precedes` are the same order: the stable sort is unique. */
  lemma {:induction false} OrderUnique(keys: seq<int>, o1: seq<int>, o2: seq<int>)
    requires Ordered(keys, o1) && Ordered(keys, o2)
    requires forall i :: i in o1 <==> i in o2
    ensures o1 == o2
    decreases |o1|
  {
    assert o1 != [] ==> o1[0] in o1 && o1[0] in o2;
    assert o2 != [] ==> o2[0] in o2 && o2[0] in o1;
    if o1 != [] {
      HeadPrecedes(keys, o1, o2[0]);
      HeadPrecedes(keys, o2, o1[0]);
      forall i ensures i in o1[1..] <==> i in o2[1..] {
        NotInTail(keys, o1, i);
        NotInTail(keys, o2, i);
      }
      OrderUnique(keys, o1[1..], o2[1..]);
      assert o1 == [o1[0]] + o1[1..] && o2 == [o2[0]] + o2[1..];
    }
  }

  /** The head of an ordered list precedes every other entry of it. */
  lemma HeadPrecedes(keys: seq<int>, o: seq<int>, i: int)
    requires Ordered(keys, o) && i in o
    ensures i == o[0] || Precedes(keys, o[0], i)
  {
    var k :| 0 <= k < |o| && o[k] == i;
    assert k == 0 || Precedes(keys, o[0], o[k]);
  }

  /** In an ordered list the head does not occur again in the tail. */
  lemma NotInTail(keys: seq<int>, o: seq<int>, i: int)
    requires Ordered(keys, o) && o != []
    ensures i in o[1..] <==> i in o && i != o[0]
  {
    if i in o[1..] {
      var k :| 0 <= k < |o| - 1 && o[1..][k] == i;
      assert Precedes(keys, o[0], o[k + 1]);
    }
    if i in o && i != o[0] {
      var k :| 0 <= k < |o| && o[k] == i;
      assert o[1..][k - 1] == i;
    }
  }

  /** The stable descending sort of a sequence is unique. */
  lemma StableSortUnique<T>(s: seq<T>, keys: seq<int>, r1: seq<T>, r2: seq<T>)
    requires IsStableSortDesc(s, keys, r1) && IsStableSortDesc(s, keys, r2)
    ensures r1 == r2
  {
    var o1 :| CoversIndices(o1, |s|) && Ordered(keys, o1) && r1 == Select(s, o1);
    var o2 :| CoversIndices(o2, |s|) && Ordered(keys, o2) && r2 == Select(s, o2);
    OrderUnique(keys, o1, o2);
  }

  lemma {:induction false} SelectInsert<T>(s: seq<T>, keys: seq<int>, order: seq<int>, m: int)
    requires |keys| == |s| && 0 <= m < |keys|
    requires forall k | 0 <= k < |order| :: 0 <= order[k] < m
    requires Ordered(keys, order)
    ensures multiset(Select(s, Insert(keys, order, m))) == multiset(Select(s, order)) + multiset{s[m]}
    decreases |order|
  {
    if order == [] || keys[order[0]] < keys[m] {
      assert Select(s, [m] + order) == [s[m]] + Select(s, order);
    } else {
      var rest := Insert(keys, order[1..], m);
      SelectInsert(s, keys, order[1..], m);
      assert Insert(keys, order, m) == [order[0]] + rest;
      assert Select(s, [order[0]] + rest) == [s[order[0]]] + Select(s, rest);
      assert Select(s, order) == [s[order[0]]] + Select(s, order[1..]);
    }
  }

  lemma {:induction false} SortOrderPermutes<T>(s: seq<T>, keys: seq<int>, n: int)
    requires |keys| == |s| && 0 <= n <= |s|
    ensures multiset(Select(s, SortOrder(keys, n))) == multiset(s[..n])
    decreases n
  {
    if n > 0 {
      var o := SortOrder(keys, n - 1);
      var r := SortOrder(keys, n);
      assert multiset(Select(s, o)) == multiset(s[..n - 1]) by {
        SortOrderPermutes(s, keys, n - 1);
      }
      assert multiset(Select(s, r)) == multiset(Select(s, o)) + multiset{s[n - 1]} by {
        assert r == Insert(keys, o, n - 1);
        SelectInsert(s, keys, o, n - 1);
      }
      PrefixStep(s, n, Select(s, r), Select(s, o));
    }
  }

  lemma PrefixStep<T>(s: seq<T>, n: int, a: seq<T>, b: seq<T>)
    requires 0 < n <= |s|
    requires multiset(b) == multiset(s[..n - 1])
    requires multiset(a) == multiset(b) + multiset{s[n - 1]}
    ensures multiset(a) == multiset(s[..n])
  {
    assert s[..n] == s[..n - 1] + [s[n - 1]];
  }

  /** A stable sort rearranges the items and neither adds nor drops any. */
  lemma StableSortPermutes<T>(s: seq<T>, keys: seq<int>, r: seq<T>)
    requires IsStableSortDesc(s, keys, r)
    ensures multiset(r) == multiset(s)
  {
    StableSortUnique(s, keys, r, SortDesc(s, keys));
    SortOrderPermutes(s, keys, |s|);
    assert s[..|s|] == s;
  }

  /** Keys never increase along a stable descending sort, whenever the key
      is a property of the item (`rkeys[k]` is the key of `r[k]`). */
  lemma StableSortDescends<T>(s: seq<T>, keys: seq<int>, r: seq<T>, rkeys: seq<int>)
    requires IsStableSortDesc(s, keys, r)
    requires |rkeys| == |r|
    requires forall i, k | 0 <= i < |s| && 0 <= k < |r| && s[i] == r[k] :: keys[i] == rkeys[k]
    ensures forall a, b | 0 <= a < b < |r| :: rkeys[a] >= rkeys[b]
  {
    var order :| CoversIndices(order, |s|) && Ordered(keys, order) && r == Select(s, order);
    forall a, b | 0 <= a < b < |r| ensures rkeys[a] >= rkeys[b] {
      assert r[a] == s[order[a]] && r[b] == s[order[b]];
      assert Precedes(keys, order[a], order[b]);
    }
  }

  /** Stability: of two items with equal keys, the one earlier in `s`
      comes out earlier in the sort. */
  lemma StableSortKeepsTies<T>(s: seq<T>, keys: seq<int>, r: seq<T>, i: int, j: int)
    requires IsStableSortDesc(s, keys, r)
    requires 0 <= i < j < |s| && keys[i] == keys[j]
    ensures exists a, b | 0 <= a < b < |r| :: r[a] == s[i] && r[b] == s[j]
  {
    var order :| CoversIndices(order, |s|) && Ordered(keys, order) && r == Select(s, order);
    assert i in order && j in order;
    var a :| 0 <= a < |order| && order[a] == i;
    var b :| 0 <= b < |order| && order[b] == j;
    assert !Precedes(keys, j, i);
    assert r[a] == s[i] && r[b] == s[j];
  }

  /** `r` is the first `n` items (all of them if there are fewer) of the
      stable descending sort of `s` by `keys`: Python's `sorted(...)[:n]`. */
  ghost predicate IsStableTopDesc<T>(s: seq<T>, keys: seq<int>, n: nat, r: seq<T>)
  {
    |keys| == |s| &&
    exists order :: CoversIndices(order, |s|) && Ordered(keys, order) &&
                    r == Select(s, order)[..Min(n, |s|)]
  }

  /** `sorted(s, key=..., reverse=True)[:n]`. */
  function TopDesc<T>(s: seq<T>, keys: seq<int>, n: nat): (r: seq<T>)
    requires |keys| == |s|
    ensures IsStableTopDesc(s, keys, n, r)
  {
    var order := SortOrder(keys, |s|);
    Select(s, order)[..Min(n, |s|)]
  }

  /** The top `n` are exactly the first `n` of the full stable sort. */
  lemma StableTopIsPrefix<T>(s: seq<T>, keys: seq<int>, n: nat, r: seq<T>, full: seq<T>)
    requires IsStableTopDesc(s, keys, n, r)
    requires IsStableSortDesc(s, keys, full)
    ensures |r| == Min(n, |s|)
    ensures r == full[..Min(n, |s|)]
  {
    var o1 :| CoversIndices(o1, |s|) && Ordered(keys, o1) && r == Select(s, o1)[..Min(n, |s|)];
    var o2 :| CoversIndices(o2, |s|) && Ordered(keys, o2) && full == Select(s, o2);
    OrderUnique(keys, o1, o2);
  }

  /** Nothing left out of the top `n` has a larger key than the last item
      kept, whenever the key is a property of the item. */
  lemma StableTopBoundsRest<T>(s: seq<T>, keys: seq<int>, n: nat, r: seq<T>, rkeys: seq<int>)
    requires IsStableTopDesc(s, keys, n, r)
    requires |rkeys| == |r| && |r| > 0
    requires forall i, k | 0 <= i < |s| && 0 <= k < |r| && s[i] == r[k] :: keys[i] == rkeys[k]
    ensures forall i | 0 <= i < |s| && s[i] !in r :: keys[i] <= rkeys[|r| - 1]
  {
    var order :| CoversIndices(order, |s|) && Ordered(keys, order) && r == Select(s, order)[..Min(n, |s|)];
    var m := |r|;
    assert forall j | 0 <= j < m :: r[j] == s[order[j]];
    assert r[m - 1] == s[order[m - 1]];
    forall i | 0 <= i < |s| && s[i] !in r ensures keys[i] <= rkeys[m - 1] {
      assert i in order;
      assert forall j | 0 <= j < m :: r[j] != s[i];
      BelowCut(keys, order, m, i);
    }
  }

  /** A position that an ordered list places at or after index `m` has a
      key no larger than the one at index `m - 1`. */
  lemma BelowCut(keys: seq<int>, order: seq<int>, m: int, i: int)
    requires Ordered(keys, order) && 0 < m <= |order|
    requires i in order && forall j | 0 <= j < m :: order[j] != i
    ensures 0 <= i < |keys| && keys[i] <= keys[order[m - 1]]
  {
    var k :| 0 <= k < |order| && order[k] == i;
    assert Precedes(keys, order[m - 1], order[k]);
  }

  /** An input whose keys already never increase is its own stable sort. */
  lemma SortedInputIsFixed<T>(s: seq<T>, keys: seq<int>)
    requires |keys| == |s|
    requires forall i, j | 0 <= i < j < |keys| :: keys[i] >= keys[j]
    ensures IsStableSortDesc(s, keys, s)
  {
    var id := seq(|s|, i => i);
    forall i | 0 <= i < |s| ensures i in id {
      assert id[i] == i;
    }
    assert CoversIndices(id, |s|);
    assert Ordered(keys, id);
    forall k | 0 <= k < |s| ensures Select(s, id)[k] == s[k] {
      assert id[k] == k;
    }
  }

  /** When all keys are equal (posts created at the same instant) the
      stable sort returns the input unchanged. */
  lemma StableSortEqualKeys<T>(s: seq<T>, keys: seq<int>)
    requires |keys| == |s|
    requires forall i, j | 0 <= i < j < |keys| :: keys[i] == keys[j]
    ensures SortDesc(s, keys) == s
  {
    SortedInputIsFixed(s, keys);
    StableSortUnique(s, keys, s, SortDesc(s, keys));
  }
}
