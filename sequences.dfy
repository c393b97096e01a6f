/** The two LINQ operators the services compose their queries from:
    `Where` (filtering) and `OrderBy` (sorting by a total preorder). */
module Sequences {
  import opened Common

  /** le is total and transitive: it can order any sequence. */
  ghost predicate TotalPreorder<T(!new)>(le: (T, T) -> bool)
  {
    && (forall a, b :: le(a, b) || le(b, a))
    && (forall a, b, c :: le(a, b) && le(b, c) ==> le(a, c))
  }

  ghost predicate SortedBy<T>(s: seq<T>, le: (T, T) -> bool)
  {
    forall i, j :: 0 <= i < j < |s| ==> le(s[i], s[j])
  }

  /** Enumerable.Where: the elements of s that satisfy keep, in their order. */
  function Where<T(!new)>(s: seq<T>, keep: T -> bool): (r: seq<T>)
    ensures |r| <= |s|
    ensures forall x :: x in r <==> x in s && keep(x)
    ensures forall x :: multiset(r)[x] == if keep(x) then multiset(s)[x] else 0
  {
    if s == [] then []
    else
      var init := s[..|s| - 1];
      assert s == init + [s[|s| - 1]];
      var rest := Where(init, keep);
      if keep(s[|s| - 1]) then rest + [s[|s| - 1]] else rest
  }

  /** Enumerable.FirstOrDefault(found) as a position: the index of the first
      element of s that satisfies found, or None when none does. */
  function FirstIndex<T>(s: seq<T>, found: T -> bool): (r: Option<nat>)
    ensures r.None? <==> forall i :: 0 <= i < |s| ==> !found(s[i])
    ensures r.Some? ==> r.value < |s| && found(s[r.value])
    ensures r.Some? ==> forall i :: 0 <= i < r.value ==> !found(s[i])
  {
    if s == [] then None
    else if found(s[0]) then Some(0)
    else match FirstIndex(s[1..], found)
      case None => None
      case Some(k) => Some(k + 1)
  }

  /** Enumerable.Sum(f): the sum of f over the elements of s. */
  function Sum<T>(s: seq<T>, f: T -> int): int
  {
    if s == [] then 0 else Sum(s[..|s| - 1], f) + f(s[|s| - 1])
  }

  lemma SumAppend<T>(s: seq<T>, x: T, f: T -> int)
    ensures Sum(s + [x], f) == Sum(s, f) + f(x)
  {
    assert (s + [x])[..|s|] == s;
  }

  /** Replacing one element changes the sum by the difference of the two. */
  lemma {:induction false} SumUpdate<T>(s: seq<T>, k: nat, x: T, f: T -> int)
    requires k < |s|
    ensures Sum(s[k := x], f) == Sum(s, f) - f(s[k]) + f(x)
  {
    var n := |s|;
    if k == n - 1 {
      assert s[k := x][..n - 1] == s[..n - 1];
    } else {
      assert s[k := x][..n - 1] == s[..n - 1][k := x];
      SumUpdate(s[..n - 1], k, x, f);
    }
  }

  /** Removing one element takes its value off the sum. */
  lemma {:induction false} SumRemove<T>(s: seq<T>, k: nat, f: T -> int)
    requires k < |s|
    ensures Sum(s[..k] + s[k + 1..], f) == Sum(s, f) - f(s[k])
  {
    var n := |s|;
    if k == n - 1 {
      assert s[..k] + s[k + 1..] == s[..n - 1];
    } else {
      var t := s[..n - 1];
      assert (s[..k] + s[k + 1..])[..n - 2] == t[..k] + t[k + 1..];
      assert (s[..k] + s[k + 1..])[n - 2] == s[n - 1];
      SumRemove(t, k, f);
    }
  }

  /** Places x into the sorted sequence s after every element that comes
      before it. */
  function Insert<T(!new)>(x: T, s: seq<T>, le: (T, T) -> bool): (r: seq<T>)
    requires TotalPreorder(le) && SortedBy(s, le)
    ensures SortedBy(r, le)
    ensures multiset(r) == multiset(s) + multiset{x}
  {
    if s == [] then [x]
    else if le(x, s[0]) then
      assert forall j :: 0 <= j < |s| ==> le(x, s[j]) by {
        forall j | 0 <= j < |s| ensures le(x, s[j]) {
          if j > 0 { assert le(s[0], s[j]); }
        }
      }
      [x] + s
    else
      var rest := Insert(x, s[1..], le);
      assert s == [s[0]] + s[1..];
      assert forall j :: 0 <= j < |rest| ==> le(s[0], rest[j]) by {
        forall j | 0 <= j < |rest| ensures le(s[0], rest[j]) {
          assert rest[j] in multiset(rest);
          if rest[j] != x {
            assert rest[j] in multiset(s[1..]);
            var k :| 0 <= k < |s[1..]| && s[1..][k] == rest[j];
            assert s[k + 1] == rest[j];
          }
        }
      }
      [s[0]] + rest
  }

  /** Enumerable.OrderBy with the ordering le: a sorted permutation of s. */
  function Sort<T(!new)>(s: seq<T>, le: (T, T) -> bool): (r: seq<T>)
    requires TotalPreorder(le)
    ensures SortedBy(r, le)
    ensures multiset(r) == multiset(s)
    ensures |r| == |s|
  {
    if s == [] then []
    else
      assert s == [s[0]] + s[1..];
      Insert(s[0], Sort(s[1..], le), le)
  }

  /** Every element of a sorted permutation comes from the input, and
      every element of the input is in it. */
  lemma SortKeepsElements<T(!new)>(s: seq<T>, le: (T, T) -> bool)
    requires TotalPreorder(le)
    ensures forall x :: x in Sort(s, le) <==> x in s
  {
    var r := Sort(s, le);
    forall x ensures x in r <==> x in s {
      assert x in r <==> x in multiset(r);
      assert x in s <==> x in multiset(s);
    }
  }
}
