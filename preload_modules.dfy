/**
  The de-duplication `preloadModules` applies to `env.require` before
  requiring each module: `array.filter(toUnique)`, which keeps an element
  exactly when its index is the one `indexOf` reports for it.
 */
module Preload {
  import opened Values

  /** `array.indexOf(x)`: the first index holding `x`, or -1. */
  function IndexOf<T(==)>(s: seq<T>, x: T): (i: int)
    ensures -1 <= i < |s|
    ensures i >= 0 ==> s[i] == x && forall j :: 0 <= j < i ==> s[j] != x
    ensures i == -1 <==> x !in s
  {
    if |s| == 0 then -1
    else if s[0] == x then 0
    else
      var k := IndexOf(s[1..], x);
      if k == -1 then -1 else k + 1
  }

  /** `toUnique(elem, index, array)`. */
  function ToUnique<T(==)>(s: seq<T>, index: int): (keep: bool)
    requires 0 <= index < |s|
    ensures keep <==> s[index] !in s[..index]
  {
    IndexOf(s, s[index]) == index
  }

  /** `s.filter(toUnique)` applied to the first `n` elements of `s` (the callback still sees all of `s`). */
  function FilterFirst<T(==)>(s: seq<T>, n: nat): (r: seq<T>)
    requires n <= |s|
    ensures |r| <= n
    ensures forall x :: x in r ==> x in s[..n]
  {
    if n == 0 then []
    else FilterFirst(s, n - 1) + (if ToUnique(s, n - 1) then [s[n - 1]] else [])
  }

  /** `s.filter(toUnique)`: a new list; `s` itself is a value and stays as it was. */
  function Unique<T(==)>(s: seq<T>): (r: seq<T>)
    ensures |r| <= |s|
    ensures forall x :: x in r ==> x in s
  {
    assert s[..|s|] == s;
    FilterFirst(s, |s|)
  }

  /** The first `n` elements, filtered: distinct, in first-occurrence order, the same elements as `s[..n]`. */
  predicate FilteredPrefix<T(==)>(s: seq<T>, n: nat)
    requires n <= |s|
  {
    var u := FilterFirst(s, n);
    && Distinct(u)
    && (forall a :: 0 <= a < |u| ==> u[a] in s[..n] && 0 <= IndexOf(s, u[a]) < n)
    && (forall i :: 0 <= i < n ==> s[i] in u)
    && (forall a, b :: 0 <= a < b < |u| ==> IndexOf(s, u[a]) < IndexOf(s, u[b]))
  }

  /** Element `n - 1` occurs for the first time and is appended. */
  lemma FilteredPrefixKeep<T>(s: seq<T>, n: nat)
    requires 0 < n <= |s| && ToUnique(s, n - 1) && FilteredPrefix(s, n - 1)
    ensures FilteredPrefix(s, n)
  {
    var prev := FilterFirst(s, n - 1);
    var x := s[n - 1];
    var u := prev + [x];
    assert FilterFirst(s, n) == u;
    assert x !in s[..n - 1] && IndexOf(s, x) == n - 1;
    forall a, b | 0 <= a < b < |u|
      ensures u[a] != u[b] && IndexOf(s, u[a]) < IndexOf(s, u[b])
    {
      if b == |prev| {
        assert u[a] == prev[a] && prev[a] in s[..n - 1];
      } else {
        assert u[a] == prev[a] && u[b] == prev[b];
      }
    }
    forall a | 0 <= a < |u|
      ensures u[a] in s[..n] && 0 <= IndexOf(s, u[a]) < n
    {
      if a < |prev| {
        assert u[a] == prev[a] && prev[a] in s[..n - 1];
        var k :| 0 <= k < n - 1 && s[..n - 1][k] == prev[a];
        assert s[..n][k] == prev[a];
      } else {
        assert s[..n][n - 1] == x;
      }
    }
    forall i | 0 <= i < n
      ensures s[i] in u
    {
      if i < n - 1 {
        assert s[i] in prev;
      }
    }
  }

  /** Element `n - 1` occurred before and is dropped. */
  lemma FilteredPrefixSkip<T>(s: seq<T>, n: nat)
    requires 0 < n <= |s| && !ToUnique(s, n - 1) && FilteredPrefix(s, n - 1)
    ensures FilteredPrefix(s, n)
  {
    var x := s[n - 1];
    assert s[..n] == s[..n - 1] + [x];
    var k := IndexOf(s, x);
    assert s[..n - 1][k] == x;
  }

  /** Every prefix, filtered, has those properties: by induction on the prefix length. */
  lemma {:induction false} FilterFirstSpec<T>(s: seq<T>, n: nat)
    requires n <= |s|
    ensures FilteredPrefix(s, n)
  {
    if n > 0 {
      FilterFirstSpec(s, n - 1);
      if ToUnique(s, n - 1) {
        FilteredPrefixKeep(s, n);
      } else {
        FilteredPrefixSkip(s, n);
      }
    }
  }

  /**
    `filter(toUnique)` keeps one copy of every element, nothing else, and in
    the order of first occurrence.
   */
  lemma UniqueSpec<T>(s: seq<T>)
    ensures var u := Unique(s);
      && Distinct(u)
      && (forall x :: x in u <==> x in s)
      && (forall a, b :: 0 <= a < b < |u| ==> IndexOf(s, u[a]) < IndexOf(s, u[b]))
  {
    FilterFirstSpec(s, |s|);
    assert s[..|s|] == s;
  }

  lemma {:induction false} FilterFirstOfDistinct<T>(s: seq<T>, n: nat)
    requires n <= |s| && Distinct(s)
    ensures FilterFirst(s, n) == s[..n]
  {
    if n > 0 {
      FilterFirstOfDistinct(s, n - 1);
      assert IndexOf(s, s[n - 1]) == n - 1;
      assert FilterFirst(s, n) == s[..n - 1] + [s[n - 1]];
      assert s[..n] == s[..n - 1] + [s[n - 1]];
    }
  }

  /** A list without repetitions passes through unchanged. */
  lemma UniqueOfDistinct<T>(s: seq<T>)
    requires Distinct(s)
    ensures Unique(s) == s
  {
    FilterFirstOfDistinct(s, |s|);
    assert s[..|s|] == s;
  }

  /** Filtering an already filtered list changes nothing. */
  lemma UniqueIdempotent<T>(s: seq<T>)
    ensures Unique(Unique(s)) == Unique(s)
  {
    UniqueSpec(s);
    UniqueOfDistinct(Unique(s));
  }
}
