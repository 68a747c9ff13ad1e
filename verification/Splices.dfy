/** Removing elements from a Go slice in place: one splice, and a set of indexes spliced out from the back. */
module Splices {
  import opened Filters

  function RemoveAt<T>(s: seq<T>, k: nat): seq<T>
    requires k < |s|
  {
    s[..k] + s[k + 1..]
  }

  // The elements at other indexes, in order
  function Keep<T>(s: seq<T>, removed: set<nat>): seq<T>
  {
    if s == [] then []
    else Keep(s[..|s| - 1], removed) + if |s| - 1 in removed then [] else [s[|s| - 1]]
  }

  // append(a[:k], a[k+1:]...) on the first `len` elements of the backing array
  method SpliceOut<T>(a: array<T>, len: nat, k: nat)
    requires k < len <= a.Length
    modifies a
    ensures a[..len - 1] == RemoveAt(old(a[..len]), k)
    ensures a[len - 1..] == old(a[len - 1..])
  {
    for i := k to len - 1
      invariant a[..i] == old(a[..k] + a[k + 1..i + 1])
      invariant a[i..] == old(a[i..])
    {
      assert a[i + 1] == a[i..][1] == old(a[i..])[1];
      a[i] := a[i + 1];
      assert a[i + 1..] == a[i..][1..];
    }
  }

  // ----- sort.Sort(sort.Reverse(sort.IntSlice(indexes))) -----

  function InsertDown(x: nat, s: seq<nat>): seq<nat>
  {
    if s == [] || x >= s[0] then [x] + s else [s[0]] + InsertDown(x, s[1..])
  }

  function SortDown(s: seq<nat>): seq<nat>
  {
    if s == [] then [] else InsertDown(s[0], SortDown(s[1..]))
  }

  ghost predicate Descending(s: seq<nat>)
  {
    forall i, j :: 0 <= i < j < |s| ==> s[i] > s[j]
  }

  ghost predicate Distinct<T>(s: seq<T>)
  {
    forall i, j :: 0 <= i < j < |s| ==> s[i] != s[j]
  }

  ghost function Members(s: seq<nat>): set<nat>
  {
    set x | x in s
  }

  lemma DescendingFront(x: nat, s: seq<nat>)
    requires Descending(s) && forall y :: y in s ==> x > y
    ensures Descending([x] + s)
  {
    assert forall j :: 0 <= j < |s| ==> s[j] in s;
  }

  lemma {:induction false} InsertDownSorts(x: nat, s: seq<nat>)
    requires Descending(s) && x !in s
    ensures Descending(InsertDown(x, s)) && Members(InsertDown(x, s)) == {x} + Members(s)
  {
    if s == [] {
    } else if x >= s[0] {
      assert x != s[0];
      assert forall j :: 0 <= j < |s| ==> x > s[j];
    } else {
      InsertDownSorts(x, s[1..]);
      var rest := InsertDown(x, s[1..]);
      assert forall j :: 0 <= j < |s[1..]| ==> s[0] > s[1..][j];
      forall y | y in rest ensures s[0] > y {
        assert y in Members(rest);
        assert y == x || y in s[1..];
      }
      DescendingFront(s[0], rest);
      assert s == [s[0]] + s[1..];
      forall y ensures y in [s[0]] + rest <==> y == x || y in s {
        assert y in rest <==> y in Members(rest);
      }
    }
  }

  lemma {:induction false} SortDownSorts(s: seq<nat>)
    requires Distinct(s)
    ensures Descending(SortDown(s)) && Members(SortDown(s)) == Members(s)
  {
    if s != [] {
      SortDownSorts(s[1..]);
      var rest := SortDown(s[1..]);
      assert s[0] !in s[1..];
      assert s[0] !in Members(rest);
      InsertDownSorts(s[0], rest);
      assert s == [s[0]] + s[1..];
    }
  }

  // ----- splicing from the back is filtering by index -----

  function RemoveAll<T>(s: seq<T>, indexes: seq<nat>): seq<T>
    requires Descending(indexes) && forall i :: i in indexes ==> i < |s|
    decreases |indexes|
  {
    if indexes == [] then s
    else
      assert indexes[0] in indexes && forall i :: i in indexes[1..] ==> i < indexes[0];
      RemoveAll(RemoveAt(s, indexes[0]), indexes[1..])
  }

  lemma {:induction false} KeepBelow<T>(s: seq<T>, k: nat, removed: set<nat>)
    requires k <= |s| && forall i :: i in removed ==> i < k
    ensures Keep(s, removed) == Keep(s[..k], removed) + s[k..]
  {
    if |s| > k {
      KeepBelow(s[..|s| - 1], k, removed);
      assert s[..|s| - 1][..k] == s[..k];
      assert s[k..] == s[..|s| - 1][k..] + [s[|s| - 1]];
    } else {
      assert s[..k] == s;
    }
  }

  lemma {:induction false} KeepIgnores<T>(s: seq<T>, removed: set<nat>, other: set<nat>)
    requires forall i :: 0 <= i < |s| ==> (i in removed <==> i in other)
    ensures Keep(s, removed) == Keep(s, other)
  {
    if s != [] {
      KeepIgnores(s[..|s| - 1], removed, other);
    }
  }

  lemma {:induction false} KeepNone<T>(s: seq<T>)
    ensures Keep(s, {}) == s
  {
    if s != [] {
      KeepNone(s[..|s| - 1]);
    }
  }

  lemma {:induction false} KeptIsOld<T>(s: seq<T>, removed: set<nat>)
    ensures forall x :: x in Keep(s, removed) ==> exists i :: 0 <= i < |s| && i !in removed && s[i] == x
  {
    if s != [] {
      var front := s[..|s| - 1];
      KeptIsOld(front, removed);
      forall x | x in Keep(s, removed) ensures exists i :: 0 <= i < |s| && i !in removed && s[i] == x {
        if x in Keep(front, removed) {
          var i :| 0 <= i < |front| && i !in removed && front[i] == x;
          assert s[i] == x;
        }
      }
    }
  }

  lemma {:induction false} KeepHas<T>(s: seq<T>, removed: set<nat>, i: nat)
    requires i < |s| && i !in removed
    ensures s[i] in Keep(s, removed)
  {
    if i < |s| - 1 {
      KeepHas(s[..|s| - 1], removed, i);
    }
  }

  lemma KeepRemovesLast<T>(s: seq<T>, k: nat, removed: set<nat>)
    requires k < |s| && forall i :: i in removed ==> i < k
    ensures Keep(s, removed + {k}) == Keep(RemoveAt(s, k), removed)
  {
    var spliced := RemoveAt(s, k);
    KeepBelow(s, k + 1, removed + {k});
    assert s[..k + 1][..k] == s[..k];
    KeepIgnores(s[..k], removed + {k}, removed);
    KeepBelow(spliced, k, removed);
    assert spliced[..k] == s[..k] && spliced[k..] == s[k + 1..];
  }

  lemma {:induction false} RemoveAllIsKeep<T>(s: seq<T>, indexes: seq<nat>)
    requires Descending(indexes) && forall i :: i in indexes ==> i < |s|
    ensures RemoveAll(s, indexes) == Keep(s, Members(indexes))
    decreases |indexes|
  {
    if indexes == [] {
      KeepBelow(s, 0, Members(indexes));
      assert s[0..] == s;
    } else {
      var k, rest := indexes[0], indexes[1..];
      assert k in indexes && forall i :: i in rest ==> i < k;
      RemoveAllIsKeep(RemoveAt(s, k), rest);
      KeepRemovesLast(s, k, Members(rest));
      assert indexes == [k] + rest;
      assert Members(indexes) == Members(rest) + {k};
    }
  }

  /** removeIndexesFromArray: whatever the order of the indexes, exactly the elements at them go, in place. */
  method RemoveIndexes<T>(a: array<T>, len: nat, indexes: seq<nat>) returns (newLen: nat)
    requires len <= a.Length && Distinct(indexes) && forall i :: i in indexes ==> i < len
    modifies a
    ensures newLen <= len && a[..newLen] == Keep(old(a[..len]), Members(indexes))
    ensures indexes == [] ==> newLen == len && a[..] == old(a[..])
  {
    var sorted := SortDown(indexes);
    SortDownSorts(indexes);
    forall i | i in sorted ensures i < len {
      assert i in Members(sorted);
    }
    newLen := len;
    for n := 0 to |sorted|
      invariant newLen <= len
      invariant forall i :: i in sorted[n..] ==> i < newLen
      invariant RemoveAll(a[..newLen], sorted[n..]) == RemoveAll(old(a[..len]), sorted)
      invariant indexes == [] ==> newLen == len && a[..] == old(a[..])
    {
      var k := sorted[n];
      assert k in sorted[n..] && sorted[n..][0] == k && sorted[n..][1..] == sorted[n + 1..];
      SpliceOut(a, newLen, k);
      newLen := newLen - 1;
    }
    assert sorted[|sorted|..] == [];
    RemoveAllIsKeep(old(a[..len]), sorted);
  }

  // ----- splicing out what a test rejects, from the back -----

  // One step, on what is still listed
  lemma FilterStep<T>(now: seq<T>, s: seq<T>, keep: T -> bool, d: nat)
    requires d < |s| && now == s[..d + 1] + Filter(s[d + 1..], keep)
    ensures d < |now| && now[d] == s[d]
    ensures (if keep(s[d]) then now else RemoveAt(now, d)) == s[..d] + Filter(s[d..], keep)
  {
    FilterFront(s[d..], keep);
    assert s[d..][1..] == s[d + 1..];
    assert now == s[..d] + ([s[d]] + Filter(s[d + 1..], keep));
  }

  method SpliceUnless<T>(items: array<T>, len: nat, d: nat, keep: T -> bool, ghost s: seq<T>) returns (newLen: nat)
    requires d < |s| && len <= items.Length && items[..len] == s[..d + 1] + Filter(s[d + 1..], keep)
    modifies items
    ensures newLen <= len && items[..newLen] == s[..d] + Filter(s[d..], keep)
  {
    FilterStep(items[..len], s, keep, d);
    newLen := len;
    if !keep(items[d]) {
      SpliceOut(items, len, d);
      newLen := len - 1;
    }
  }

  method SpliceWhere<T>(items: array<T>, n: nat, keep: T -> bool, ghost s: seq<T>) returns (len: nat)
    requires n <= items.Length && items[..n] == s
    modifies items
    ensures len <= n && items[..len] == Filter(s, keep)
  {
    len := n;
    assert s[n..] == [];
    for d := n downto 0
      invariant len <= n && items[..len] == s[..d] + Filter(s[d..], keep)
    {
      len := SpliceUnless(items, len, d, keep, s);
    }
    assert s[0..] == s;
  }
}
