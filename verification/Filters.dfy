/** Keeping, in order, the elements that pass a test. */
module Filters {

  function Filter<T>(s: seq<T>, keep: T -> bool): seq<T>
  {
    if s == [] then []
    else
      var last := s[|s| - 1];
      Filter(s[..|s| - 1], keep) + if keep(last) then [last] else []
  }

  lemma FilterNext<T>(s: seq<T>, i: nat, keep: T -> bool)
    requires i < |s|
    ensures Filter(s[..i + 1], keep) == Filter(s[..i], keep) + if keep(s[i]) then [s[i]] else []
  {
    assert s[..i + 1][..i] == s[..i];
  }

  lemma {:induction false} FilterFront<T>(s: seq<T>, keep: T -> bool)
    requires s != []
    ensures Filter(s, keep) == (if keep(s[0]) then [s[0]] else []) + Filter(s[1..], keep)
  {
    if |s| > 1 {
      var front := s[..|s| - 1];
      FilterFront(front, keep);
      assert front[1..] == s[1..][..|s| - 2];
    }
  }

  lemma {:induction false} FilterCounts<T>(s: seq<T>, keep: T -> bool, x: T)
    ensures multiset(Filter(s, keep))[x] == if keep(x) then multiset(s)[x] else 0
    ensures x in Filter(s, keep) <==> x in s && keep(x)
  {
    if s != [] {
      var front, last := s[..|s| - 1], s[|s| - 1];
      FilterCounts(front, keep, x);
      assert s == front + [last];
    }
  }

  lemma {:induction false} FilterAll<T>(s: seq<T>, keep: T -> bool)
    requires forall x :: x in s ==> keep(x)
    ensures Filter(s, keep) == s
  {
    if s != [] {
      var front, last := s[..|s| - 1], s[|s| - 1];
      assert s == front + [last] && last in s;
      FilterAll(front, keep);
    }
  }

  lemma FilterTwice<T>(s: seq<T>, keep: T -> bool)
    ensures Filter(Filter(s, keep), keep) == Filter(s, keep)
  {
    forall i | 0 <= i < |Filter(s, keep)| ensures keep(Filter(s, keep)[i]) {
      FilterCounts(s, keep, Filter(s, keep)[i]);
    }
    FilterAll(Filter(s, keep), keep);
  }
}
