/** Go's sort.Slice by an integer key; it does not promise which of two equal keys comes first. */
module Sorting {

  ghost predicate Ascends<T>(s: seq<T>, key: T -> int) {
    forall i, j | 0 <= i < j < |s| :: key(s[i]) <= key(s[j])
  }

  method Insert<T>(s: seq<T>, key: T -> int, x: T) returns (r: seq<T>)
    requires Ascends(s, key)
    ensures Ascends(r, key) && multiset(r) == multiset(s) + multiset{x}
  {
    var n := |s|;
    while n > 0 && key(x) < key(s[n - 1])
      invariant 0 <= n <= |s|
      invariant forall i | n <= i < |s| :: key(x) < key(s[i])
    {
      n := n - 1;
    }
    r := s[..n] + [x] + s[n..];
    InsertBag(s, n, x);
    InsertAscends(s, key, n, x);
  }

  lemma InsertBag<T>(s: seq<T>, n: nat, x: T)
    requires n <= |s|
    ensures multiset(s[..n] + [x] + s[n..]) == multiset(s) + multiset{x}
  {
    assert s == s[..n] + s[n..];
  }

  lemma InsertAscends<T>(s: seq<T>, key: T -> int, n: nat, x: T)
    requires n <= |s| && Ascends(s, key)
    requires n > 0 ==> key(s[n - 1]) <= key(x)
    requires forall i | n <= i < |s| :: key(x) < key(s[i])
    ensures Ascends(s[..n] + [x] + s[n..], key)
  {
    var r := s[..n] + [x] + s[n..];
    forall i, j | 0 <= i < j < |r| ensures key(r[i]) <= key(r[j]) {
      assert r[i] == (if i < n then s[i] else if i == n then x else s[i - 1]);
      assert r[j] == (if j < n then s[j] else if j == n then x else s[j - 1]);
      assert i < n ==> key(s[i]) <= key(s[n - 1]);
    }
  }

  method SortBy<T>(xs: seq<T>, key: T -> int) returns (s: seq<T>)
    ensures Ascends(s, key) && multiset(s) == multiset(xs)
  {
    s := [];
    for i := 0 to |xs|
      invariant Ascends(s, key) && multiset(s) == multiset(xs[..i])
    {
      s := Insert(s, key, xs[i]);
      assert xs[..i + 1] == xs[..i] + [xs[i]];
    }
    assert xs[..|xs|] == xs;
  }

  lemma SameMembers<T>(s: seq<T>, xs: seq<T>)
    requires multiset(s) == multiset(xs)
    ensures |s| == |xs| && forall x :: x in s <==> x in xs
  {
    assert |multiset(s)| == |s| && |multiset(xs)| == |xs|;
    forall x ensures x in s <==> x in xs {
      assert x in s <==> x in multiset(s);
      assert x in xs <==> x in multiset(xs);
    }
  }
}
