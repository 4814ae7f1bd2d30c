/** Sequence helpers shared by the social graph: the list operations that
    social.py performs on its `following`, `followers` and `likes` lists. */
module Sequences {

  datatype Option<T> = None | Some(value: T)

  function Min(a: int, b: int): int
  {
    if a <= b then a else b
  }

  /** No element occurs twice. */
  predicate NoDup<T(==)>(s: seq<T>)
  {
    forall i, j | 0 <= i < j < |s| :: s[i] != s[j]
  }

  /** Appending keeps a list duplicate-free exactly when the new element
      is not already there. */
  lemma NoDupAppend<T>(s: seq<T>, x: T)
    ensures NoDup(s + [x]) <==> x !in s && NoDup(s)
  {
    var t := s + [x];
    if x !in s && NoDup(s) {
      forall i, j | 0 <= i < j < |t| ensures t[i] != t[j] {
        assert t[i] == s[i];
        if j < |s| {
          assert t[j] == s[j];
        }
      }
    }
    if NoDup(t) {
      forall i, j | 0 <= i < j < |s| ensures s[i] != s[j] {
        assert s[i] == t[i] && s[j] == t[j];
      }
      forall k | 0 <= k < |s| ensures s[k] != x {
        assert t[k] != t[|s|];
      }
    }
  }

  /** `if x not in s: s.append(x)` -- the guarded append of `follow` and `like`. */
  function AddIfAbsent<T(==)>(s: seq<T>, x: T): (r: seq<T>)
    ensures x in r
    ensures forall y | y in r :: y in s || y == x
    ensures forall y | y in s :: y in r
    ensures |r| == if x in s then |s| else |s| + 1
    ensures s <= r
    ensures NoDup(s) ==> NoDup(r)
  {
    if x in s then s
    else
      NoDupAppend(s, x);
      s + [x]
  }

  /** Adding an element that is already there changes nothing: a second
      `like` (or `follow`) with the same argument is a no-op. */
  lemma AddIfAbsentIdempotent<T>(s: seq<T>, x: T)
    ensures AddIfAbsent(AddIfAbsent(s, x), x) == AddIfAbsent(s, x)
  {
  }

  /** Position of the first occurrence of `x`. */
  function IndexOf<T(==)>(s: seq<T>, x: T): (i: nat)
    requires x in s
    ensures i < |s| && s[i] == x
    ensures x !in s[..i]
  {
    if s[0] == x then 0
    else
      var j := IndexOf(s[1..], x);
      assert s[..j + 1] == [s[0]] + s[1..][..j];
      j + 1
  }

  /** Python's `list.remove(x)` on a list that contains `x`, and the identity
      otherwise: the first occurrence of `x` is dropped and every other
      element keeps its place. */
  function RemoveFirst<T(==)>(s: seq<T>, x: T): (r: seq<T>)
    ensures x !in s ==> r == s
    ensures x in s ==> r == s[..IndexOf(s, x)] + s[IndexOf(s, x) + 1..]
  {
    if s == [] then []
    else if s[0] == x then s[1..]
    else
      var t := RemoveFirst(s[1..], x);
      assert x in s[1..] ==> s[..IndexOf(s, x)] == [s[0]] + s[1..][..IndexOf(s[1..], x)];
      [s[0]] + t
  }

  /** What removal leaves: one occurrence fewer of `x`, as a multiset. */
  lemma {:induction false} RemoveFirstContents<T>(s: seq<T>, x: T)
    ensures multiset(RemoveFirst(s, x)) == multiset(s) - multiset{x}
  {
    if s != [] {
      assert multiset(s) == multiset{s[0]} + multiset(s[1..]) by {
        assert s == [s[0]] + s[1..];
      }
      if s[0] != x {
        RemoveFirstContents(s[1..], x);
        assert multiset(RemoveFirst(s, x)) == multiset{s[0]} + multiset(RemoveFirst(s[1..], x)) by {
          assert RemoveFirst(s, x) == [s[0]] + RemoveFirst(s[1..], x);
        }
      }
    }
  }

  /** Removal loses no element other than `x` and adds none. */
  lemma RemoveFirstMembers<T>(s: seq<T>, x: T, y: T)
    ensures y in RemoveFirst(s, x) ==> y in s
    ensures y in s && y != x ==> y in RemoveFirst(s, x)
  {
    RemoveFirstContents(s, x);
    assert y in RemoveFirst(s, x) <==> multiset(RemoveFirst(s, x))[y] > 0;
    assert y in s <==> multiset(s)[y] > 0;
  }

  /** On a duplicate-free list, removal leaves a duplicate-free list
      that no longer holds `x`. */
  lemma RemoveFirstNoDup<T>(s: seq<T>, x: T)
    requires NoDup(s)
    ensures NoDup(RemoveFirst(s, x)) && x !in RemoveFirst(s, x)
  {
    var r := RemoveFirst(s, x);
    if x in s {
      var i := IndexOf(s, x);
      assert |r| == |s| - 1;
      assert forall k | 0 <= k < i :: r[k] == s[k];
      assert forall k | i <= k < |r| :: r[k] == s[k + 1];
      forall a, b | 0 <= a < b < |r| ensures r[a] != r[b] {
        var a' := if a < i then a else a + 1;
        var b' := if b < i then b else b + 1;
        assert r[a] == s[a'] && r[b] == s[b'];
      }
      forall k | 0 <= k < |r| ensures r[k] != x {
        var k' := if k < i then k else k + 1;
        assert r[k] == s[k'] && s[i] == x;
      }
    }
  }

  /** Removing twice is removing once, on a duplicate-free list (`unlike`
      and `unfollow` are idempotent). */
  lemma RemoveFirstIdempotent<T>(s: seq<T>, x: T)
    requires NoDup(s)
    ensures RemoveFirst(RemoveFirst(s, x), x) == RemoveFirst(s, x)
  {
    RemoveFirstNoDup(s, x);
  }
}
