/** The parts of Go's `strings` and `strconv` packages that the modelled code calls. */
module Text {

  datatype Option<+T> = None | Some(value: T)

  // strings.Contains
  predicate Contains(s: string, sub: string)
  {
    sub <= s || (s != [] && Contains(s[1..], sub))
  }

  // strings.Replace(s, from, to, -1): leftmost occurrences, never overlapping.
  function Replace(s: string, from: string, to: string): string
    decreases |s|
  {
    if from == [] then to + if s == [] then [] else [s[0]] + Replace(s[1..], from, to)
    else if s == [] then []
    else if from <= s then to + Replace(s[|from|..], from, to)
    else [s[0]] + Replace(s[1..], from, to)
  }

  // strings.Split for a one-character separator
  function Split(s: string, sep: char): (parts: seq<string>)
    ensures |parts| >= 1
  {
    if s == [] then [[]]
    else
      var rest := Split(s[1..], sep);
      if s[0] == sep then [[]] + rest else [[s[0]] + rest[0]] + rest[1..]
  }

  function Join(parts: seq<string>, sep: char): string
    requires |parts| >= 1
  {
    if |parts| == 1 then parts[0] else parts[0] + [sep] + Join(parts[1..], sep)
  }

  ghost predicate Free(parts: seq<string>, sep: char)
  {
    forall i :: 0 <= i < |parts| ==> sep !in parts[i]
  }

  lemma PrefixOfCons(p: string, c: char, s: string)
    requires p != []
    ensures p <= [c] + s <==> p[0] == c && p[1..] <= s
  {
    var t := [c] + s;
    assert t[1..] == s && p == [p[0]] + p[1..];
    if p[0] == c && p[1..] <= s {
      assert s == p[1..] + s[|p| - 1..];
      assert t == p + s[|p| - 1..];
    }
  }

  lemma Reassociate<T>(a: seq<T>, b: seq<T>, c: seq<T>)
    ensures a + b + c == a + (b + c)
  {
  }

  lemma FrontAndLast<T>(s: seq<T>)
    requires s != []
    ensures s == s[..|s| - 1] + [s[|s| - 1]]
  {
  }

  lemma SameStart(p: string, q: string, s: string, t: string)
    requires p + s == q + t && |p| == |q|
    ensures p == q && s == t
  {
    assert p == (p + s)[..|p|] && q == (q + t)[..|q|];
    assert s == (p + s)[|p|..] && t == (q + t)[|q|..];
  }

  lemma JoinHead(head: string, tail: seq<string>, sep: char)
    requires |tail| >= 1
    ensures Join([head] + tail, sep) == head + ([sep] + Join(tail, sep))
  {
    assert ([head] + tail)[1..] == tail;
  }

  lemma ReplaceMiss(c: char, rest: string, from: string, to: string)
    requires from != [] && !(from <= [c] + rest)
    ensures Replace([c] + rest, from, to) == [c] + Replace(rest, from, to)
  {
    assert ([c] + rest)[1..] == rest;
  }

  lemma ReplaceHit(from: string, rest: string, to: string)
    requires from != []
    ensures Replace(from + rest, from, to) == to + Replace(rest, from, to)
  {
    assert (from + rest)[|from|..] == rest;
  }

  // Text without the first character of the pattern passes through unchanged.
  lemma {:induction false} ReplaceSkips(plain: string, rest: string, from: string, to: string)
    requires from != [] && from[0] !in plain
    ensures Replace(plain + rest, from, to) == plain + Replace(rest, from, to)
  {
    if plain == [] {
      assert plain + rest == rest;
    } else {
      var c, tail := plain[0], plain[1..];
      assert plain == [c] + tail;
      Reassociate([c], tail, rest);
      ReplaceMiss(c, tail + rest, from, to);
      ReplaceSkips(tail, rest, from, to);
      Reassociate([c], tail, Replace(rest, from, to));
    }
  }

  lemma {:induction false} ContainsAfter(before: string, s: string, sub: string)
    ensures Contains(s, sub) ==> Contains(before + s, sub)
  {
    if before == [] {
      assert before + s == s;
    } else {
      ContainsAfter(before[1..], s, sub);
      assert (before + s)[1..] == before[1..] + s;
    }
  }

  lemma {:induction false} JoinSplit(s: string, sep: char)
    ensures Free(Split(s, sep), sep)
    ensures Join(Split(s, sep), sep) == s
  {
    if s != [] {
      JoinSplit(s[1..], sep);
      var rest := Split(s[1..], sep);
      var parts := Split(s, sep);
      if s[0] == sep {
        assert parts[1..] == rest;
      } else {
        assert parts[1..] == rest[1..];
        assert Join(parts, sep) == [s[0]] + Join(rest, sep);
      }
      assert s == [s[0]] + s[1..];
    }
  }

  lemma HeadAndTail<T>(x: T, s: seq<T>)
    ensures ([x] + s)[0] == x && ([x] + s)[1..] == s
  {
  }

  lemma Whole<T>(s: seq<T>)
    requires s != []
    ensures s == [s[0]] + s[1..]
  {
  }

  lemma {:induction false} SplitJoin(parts: seq<string>, sep: char)
    requires |parts| >= 1 && Free(parts, sep)
    ensures Split(Join(parts, sep), sep) == parts
    decreases |parts|, |parts[0]|
  {
    var s := Join(parts, sep);
    Whole(parts);
    if parts[0] != [] {
      var head := parts[0][1..];
      HeadAndTail(head, parts[1..]);
      SplitJoin([head] + parts[1..], sep);
      assert s[1..] == Join([head] + parts[1..], sep);
      Whole(parts[0]);
    } else if |parts| > 1 {
      SplitJoin(parts[1..], sep);
      assert s[1..] == Join(parts[1..], sep);
    }
  }

  // The bytewise order of Go's string comparison
  predicate Before(a: string, b: string)
  {
    b != [] && (a == [] || a[0] < b[0] || (a[0] == b[0] && Before(a[1..], b[1..])))
  }

  // A character by which a is smaller, after common ones
  ghost predicate SmallerAt(a: string, b: string, k: nat)
  {
    k < |a| && k < |b| && a[..k] == b[..k] && a[k] < b[k]
  }

  /** Texts are ordered by their first differing character; a proper prefix comes first. */
  lemma {:induction false} FirstCharacterDecides(a: string, b: string)
    ensures Before(a, b) <==> a < b || exists k: nat :: SmallerAt(a, b, k)
    decreases |a|
  {
    if a != [] && b != [] {
      var x, y := a[1..], b[1..];
      Whole(a);
      Whole(b);
      FirstCharacterDecides(x, y);
      if a[0] < b[0] {
        assert SmallerAt(a, b, 0);
      }
      if k: nat :| SmallerAt(x, y, k) {
        assert a[0] == b[0] ==> a[..k + 1] == [a[0]] + x[..k] == b[..k + 1] && SmallerAt(a, b, k + 1);
      }
      if k: nat :| SmallerAt(a, b, k) {
        if k > 0 {
          assert a[0] == a[..k][0] == b[..k][0] == b[0];
          assert x[..k - 1] == a[..k][1..] == b[..k][1..] == y[..k - 1];
          assert SmallerAt(x, y, k - 1);
        }
      }
    }
  }

  lemma {:induction false} BeforeIsStrict(a: string, b: string, c: string)
    ensures !Before(a, a)
    ensures Before(a, b) && Before(b, c) ==> Before(a, c)
    ensures Before(a, b) || a == b || Before(b, a)
    decreases |a|
  {
    if a != [] {
      BeforeIsStrict(a[1..], if b == [] then [] else b[1..], if c == [] then [] else c[1..]);
      assert a == [a[0]] + a[1..];
      if b != [] {
        assert b == [b[0]] + b[1..];
      }
    }
  }
}
