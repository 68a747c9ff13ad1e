/** Semantic versions as the vendored library has them: parsing, printing, precedence (SemVer 2.0.0, section 11). */
module SemVer {
  import opened Text
  import opened Decimal

  // A dot-separated prerelease field
  datatype Ident = Numeric(n: nat) | Alpha(s: string)

  datatype Version = Version(major: nat, minor: nat, patch: nat, pre: seq<Ident>, build: seq<string>)

  const UINT64: nat := 0x1_0000_0000_0000_0000

  const ZERO: Version := Version(0, 0, 0, [], [])

  // ----- parsing -----

  function Cut(s: string, sep: char): Option<(string, string)>
  {
    if s == [] then None
    else if s[0] == sep then Some(([], s[1..]))
    else match Cut(s[1..], sep) case None => None case Some((a, b)) => Some(([s[0]] + a, b))
  }

  function ParseUint(s: string): Option<nat>
  {
    if s == [] || !AllDigits(s) || (|s| > 1 && s[0] == '0') || Value(s) >= UINT64 then None else Some(Value(s))
  }

  predicate IsFieldChar(c: char)
  {
    IsDigit(c) || 'a' <= c <= 'z' || 'A' <= c <= 'Z' || c == '-'
  }

  predicate IsField(s: string)
  {
    s != [] && forall i :: 0 <= i < |s| ==> IsFieldChar(s[i])
  }

  function ParseIdent(s: string): Option<Ident>
  {
    if !IsField(s) then None
    else if AllDigits(s) then (match ParseUint(s) case None => None case Some(n) => Some(Numeric(n)))
    else Some(Alpha(s))
  }

  function ParseIdents(fields: seq<string>): Option<seq<Ident>>
  {
    if fields == [] then Some([])
    else
      match (ParseIdent(fields[0]), ParseIdents(fields[1..]))
      case (Some(i), Some(rest)) => Some([i] + rest)
      case _ => None
  }

  function ParseBuild(fields: seq<string>): Option<seq<string>>
  {
    if forall i :: 0 <= i < |fields| ==> IsField(fields[i]) then Some(fields) else None
  }

  // Text up to the first separator, and the fields after it (none without a separator)
  function Tail(s: string, sep: char): (string, seq<string>)
  {
    match Cut(s, sep)
    case None => (s, [])
    case Some((a, b)) => (a, Split(b, '.'))
  }

  function ParsePatch(s: string): Option<(nat, seq<Ident>, seq<string>)>
  {
    var (withoutBuild, build) := Tail(s, '+');
    var (digits, pre) := Tail(withoutBuild, '-');
    match (ParseUint(digits), ParseIdents(pre), ParseBuild(build))
    case (Some(n), Some(p), Some(b)) => Some((n, p, b))
    case _ => None
  }

  function Parse(s: string): Option<Version>
  {
    match Cut(s, '.')
    case None => None
    case Some((majorText, rest)) =>
      match Cut(rest, '.')
      case None => None
      case Some((minorText, patchText)) =>
        match (ParseUint(majorText), ParseUint(minorText), ParsePatch(patchText))
        case (Some(major), Some(minor), Some((patch, pre, build))) => Some(Version(major, minor, patch, pre, build))
        case _ => None
  }

  // The version a caller gets that ignores the error
  function Make(s: string): Version
  {
    match Parse(s) case None => ZERO case Some(v) => v
  }

  // ----- printing -----

  function IdentText(i: Ident): string
  {
    match i case Numeric(n) => Digits(n) case Alpha(s) => s
  }

  function Texts(idents: seq<Ident>): (texts: seq<string>)
    ensures |texts| == |idents|
  {
    if idents == [] then [] else [IdentText(idents[0])] + Texts(idents[1..])
  }

  function Fields(mark: char, fields: seq<string>): string
  {
    if fields == [] then "" else [mark] + Join(fields, '.')
  }

  function PatchText(v: Version): string
  {
    Digits(v.patch) + Fields('-', Texts(v.pre)) + Fields('+', v.build)
  }

  function Print(v: Version): string
  {
    Digits(v.major) + "." + (Digits(v.minor) + "." + PatchText(v))
  }

  // ----- what parsing accepts -----

  ghost predicate ValidIdent(i: Ident)
  {
    match i
    case Numeric(n) => n < UINT64
    case Alpha(s) => IsField(s) && !AllDigits(s)
  }

  ghost predicate Valid(v: Version)
  {
    v.major < UINT64 && v.minor < UINT64 && v.patch < UINT64 &&
    (forall i :: 0 <= i < |v.pre| ==> ValidIdent(v.pre[i])) &&
    (forall i :: 0 <= i < |v.build| ==> IsField(v.build[i]))
  }

  lemma {:induction false} CutIs(s: string, sep: char, a: string, b: string)
    ensures Cut(s, sep) == Some((a, b)) <==> s == a + [sep] + b && sep !in a
    ensures Cut(s, sep) == None <==> sep !in s
    decreases |s|
  {
    if s != [] {
      CutIs(s[1..], sep, if a == [] then [] else a[1..], b);
      assert s == [s[0]] + s[1..];
      if a != [] {
        assert a == [a[0]] + a[1..];
        assert a + [sep] + b == [a[0]] + (a[1..] + [sep] + b);
        assert (a + [sep] + b)[1..] == a[1..] + [sep] + b;
      } else {
        assert (a + [sep] + b)[1..] == b;
      }
    }
  }

  lemma ParseUintIs(s: string, n: nat)
    ensures ParseUint(s) == Some(n) <==> n < UINT64 && s == Digits(n)
  {
    ValueOfDigits(n);
    DigitsLength(n);
    if s != [] && AllDigits(s) && (|s| > 1 ==> s[0] != '0') {
      DigitsOfValue(s);
    }
    if s == Digits(n) && |s| > 1 {
      assert n > 0;
    }
  }

  lemma ParseIdentIs(s: string, i: Ident)
    ensures ParseIdent(s) == Some(i) <==> ValidIdent(i) && s == IdentText(i)
  {
    match i
    case Numeric(n) =>
      ParseUintIs(s, n);
    case Alpha(t) =>
  }

  lemma {:induction false} ParseIdentsIs(fields: seq<string>, idents: seq<Ident>)
    ensures ParseIdents(fields) == Some(idents) <==>
      (forall i :: 0 <= i < |idents| ==> ValidIdent(idents[i])) && fields == Texts(idents)
    decreases |fields| + |idents|
  {
    if fields != [] && idents != [] {
      ParseIdentIs(fields[0], idents[0]);
      ParseIdentsIs(fields[1..], idents[1..]);
      assert fields == [fields[0]] + fields[1..];
      assert idents == [idents[0]] + idents[1..];
    }
  }

  lemma {:induction false} TextsAreFields(idents: seq<Ident>)
    requires forall i :: 0 <= i < |idents| ==> ValidIdent(idents[i])
    ensures forall i :: 0 <= i < |idents| ==> IsField(Texts(idents)[i])
  {
    if idents != [] {
      TextsAreFields(idents[1..]);
    }
  }

  lemma {:induction false} JoinedChars(fields: seq<string>, c: char)
    requires fields != [] && c != '.' && !IsFieldChar(c) && forall i :: 0 <= i < |fields| ==> IsField(fields[i])
    ensures c !in Join(fields, '.')
    decreases |fields|
  {
    assert c !in fields[0];
    if |fields| > 1 {
      JoinedChars(fields[1..], c);
    }
  }

  lemma TailIs(s: string, mark: char)
    ensures var (x, fields) := Tail(s, mark); mark !in x && s == x + Fields(mark, fields)
  {
    var cut := Cut(s, mark);
    if cut.None? {
      CutIs(s, mark, [], []);
    } else {
      var (a, b) := cut.value;
      CutIs(s, mark, a, b);
      JoinSplit(b, '.');
      assert Fields(mark, Split(b, '.')) == [mark] + b;
      assert a + ([mark] + b) == a + [mark] + b;
    }
  }

  lemma TailOf(x: string, mark: char, fields: seq<string>)
    requires mark !in x && forall i :: 0 <= i < |fields| ==> IsField(fields[i])
    ensures Tail(x + Fields(mark, fields), mark) == (x, fields)
  {
    var s := x + Fields(mark, fields);
    if fields == [] {
      assert s == x;
      CutIs(s, mark, [], []);
    } else {
      CutIs(s, mark, x, Join(fields, '.'));
      assert s == x + [mark] + Join(fields, '.');
      assert Free(fields, '.');
      SplitJoin(fields, '.');
    }
  }

  lemma PatchIsParsed(n: nat, pre: seq<Ident>, build: seq<string>)
    requires n < UINT64 && (forall i :: 0 <= i < |pre| ==> ValidIdent(pre[i])) &&
      forall i :: 0 <= i < |build| ==> IsField(build[i])
    ensures ParsePatch(Digits(n) + Fields('-', Texts(pre)) + Fields('+', build)) == Some((n, pre, build))
  {
    var withoutBuild := Digits(n) + Fields('-', Texts(pre));
    TextsAreFields(pre);
    assert '+' !in withoutBuild by {
      if pre != [] {
        JoinedChars(Texts(pre), '+');
      }
    }
    TailOf(withoutBuild, '+', build);
    TailOf(Digits(n), '-', Texts(pre));
    ParseUintIs(Digits(n), n);
    ParseIdentsIs(Texts(pre), pre);
  }

  lemma ParsedPatchIs(s: string, n: nat, pre: seq<Ident>, build: seq<string>)
    requires ParsePatch(s) == Some((n, pre, build))
    ensures n < UINT64 && (forall i :: 0 <= i < |pre| ==> ValidIdent(pre[i])) &&
      (forall i :: 0 <= i < |build| ==> IsField(build[i]))
    ensures s == Digits(n) + Fields('-', Texts(pre)) + Fields('+', build)
  {
    var (withoutBuild, buildFields) := Tail(s, '+');
    var (digits, preFields) := Tail(withoutBuild, '-');
    TailIs(s, '+');
    TailIs(withoutBuild, '-');
    ParseUintIs(digits, n);
    ParseIdentsIs(preFields, pre);
  }

  /** Parsing and printing are inverse: a text parses to a version exactly when it is that version printed. */
  lemma ParseIs(s: string, v: Version)
    ensures Parse(s) == Some(v) <==> Valid(v) && s == Print(v)
  {
    var major, minor, patch := Digits(v.major), Digits(v.minor), PatchText(v);
    if Valid(v) && s == Print(v) {
      assert s == major + ['.'] + (minor + "." + patch);
      CutIs(s, '.', major, minor + "." + patch);
      CutIs(minor + "." + patch, '.', minor, patch);
      ParseUintIs(major, v.major);
      ParseUintIs(minor, v.minor);
      PatchIsParsed(v.patch, v.pre, v.build);
    }
    if Parse(s) == Some(v) {
      var (majorText, rest) := Cut(s, '.').value;
      var (minorText, patchText) := Cut(rest, '.').value;
      CutIs(s, '.', majorText, rest);
      CutIs(rest, '.', minorText, patchText);
      ParseUintIs(majorText, v.major);
      ParseUintIs(minorText, v.minor);
      ParsedPatchIs(patchText, v.patch, v.pre, v.build);
    }
  }

  // ----- precedence -----

  function Sign(less: bool, greater: bool): int
  {
    if greater then 1 else if less then -1 else 0
  }

  function CompareIdent(a: Ident, b: Ident): int
  {
    match (a, b)
    case (Numeric(_), Alpha(_)) => -1
    case (Alpha(_), Numeric(_)) => 1
    case (Numeric(m), Numeric(n)) => Sign(m < n, m > n)
    case (Alpha(s), Alpha(t)) => Sign(Before(s, t), Before(t, s))
  }

  function CompareFields(a: seq<Ident>, b: seq<Ident>): int
  {
    if a == [] || b == [] then Sign(|a| < |b|, |a| > |b|)
    else
      var c := CompareIdent(a[0], b[0]);
      if c != 0 then c else CompareFields(a[1..], b[1..])
  }

  function Compare(v: Version, o: Version): int
  {
    if v.major != o.major then Sign(v.major < o.major, v.major > o.major)
    else if v.minor != o.minor then Sign(v.minor < o.minor, v.minor > o.minor)
    else if v.patch != o.patch then Sign(v.patch < o.patch, v.patch > o.patch)
    else if v.pre == [] && o.pre == [] then 0
    else if v.pre == [] then 1
    else if o.pre == [] then -1
    else CompareFields(v.pre, o.pre)
  }

  predicate Lt(v: Version, o: Version)
  {
    Compare(v, o) == -1
  }

  predicate Le(v: Version, o: Version)
  {
    Compare(v, o) <= 0
  }

  predicate IsPrerelease(v: Version)
  {
    v.pre != []
  }

  lemma IdentOrder(a: Ident, b: Ident, c: Ident)
    ensures -1 <= CompareIdent(a, b) <= 1 && CompareIdent(a, b) == -CompareIdent(b, a)
    ensures CompareIdent(a, b) == 0 <==> a == b
    ensures CompareIdent(a, b) < 0 && CompareIdent(b, c) < 0 ==> CompareIdent(a, c) < 0
  {
    if a.Alpha? && b.Alpha? {
      BeforeIsStrict(a.s, b.s, a.s);
      BeforeIsStrict(b.s, a.s, b.s);
      if c.Alpha? {
        BeforeIsStrict(a.s, b.s, c.s);
        BeforeIsStrict(a.s, c.s, a.s);
        BeforeIsStrict(c.s, b.s, c.s);
      }
    }
  }

  lemma {:induction false} FieldsOrder(a: seq<Ident>, b: seq<Ident>, c: seq<Ident>)
    ensures -1 <= CompareFields(a, b) <= 1 && CompareFields(a, b) == -CompareFields(b, a)
    ensures CompareFields(a, b) == 0 <==> a == b
    ensures CompareFields(a, b) < 0 && CompareFields(b, c) < 0 ==> CompareFields(a, c) < 0
    decreases |a|
  {
    if a != [] && b != [] {
      IdentOrder(a[0], b[0], if c == [] then a[0] else c[0]);
      FieldsOrder(a[1..], b[1..], if c == [] then [] else c[1..]);
      assert a == [a[0]] + a[1..] && b == [b[0]] + b[1..];
      if c != [] {
        IdentOrder(b[0], c[0], a[0]);
        assert c == [c[0]] + c[1..];
      }
    }
  }

  /** Precedence is a total preorder; exactly the versions that differ in build metadata alone are equivalent. */
  lemma PrecedenceOrder(a: Version, b: Version, c: Version)
    ensures -1 <= Compare(a, b) <= 1 && Compare(a, b) == -Compare(b, a)
    ensures Compare(a, b) == 0 <==> a.(build := []) == b.(build := [])
    ensures Le(a, b) && Le(b, c) ==> Le(a, c) && (Lt(a, b) || Lt(b, c) ==> Lt(a, c))
  {
    FieldsOrder(a.pre, b.pre, c.pre);
    FieldsOrder(b.pre, c.pre, a.pre);
    FieldsOrder(a.pre, c.pre, b.pre);
  }

  // What section 11 says of two fields: numbers by value, a number before any text, texts by their first differing
  // character, a proper prefix first.
  ghost predicate SmallerField(a: Ident, b: Ident)
  {
    match (a, b)
    case (Numeric(m), Numeric(n)) => m < n
    case (Numeric(_), Alpha(_)) => true
    case (Alpha(_), Numeric(_)) => false
    case (Alpha(s), Alpha(t)) => s < t || exists k: nat :: SmallerAt(s, t, k)
  }

  lemma CompareIdentIs(a: Ident, b: Ident)
    ensures CompareIdent(a, b) == -1 <==> SmallerField(a, b)
  {
    IdentOrder(a, b, a);
    if a.Alpha? && b.Alpha? {
      FirstCharacterDecides(a.s, b.s);
    }
  }

  // A field by which a is smaller, after common ones
  ghost predicate DiffersAt(a: seq<Ident>, b: seq<Ident>, k: nat)
  {
    k < |a| && k < |b| && a[..k] == b[..k] && SmallerField(a[k], b[k])
  }

  // Dropping a common first field
  lemma DiffersBehind(a: seq<Ident>, b: seq<Ident>, k: nat)
    requires a != [] && b != [] && a[0] == b[0]
    ensures DiffersAt(a[1..], b[1..], k) ==> DiffersAt(a, b, k + 1)
    ensures DiffersAt(a, b, k) ==> k > 0 && DiffersAt(a[1..], b[1..], k - 1)
  {
    var x, y := a[1..], b[1..];
    CompareIdentIs(a[0], b[0]);
    IdentOrder(a[0], b[0], a[0]);
    if DiffersAt(x, y, k) {
      assert a[..k + 1] == [a[0]] + x[..k] == b[..k + 1];
    }
    if DiffersAt(a, b, k) && k > 0 {
      assert x[..k - 1] == a[..k][1..] == b[..k][1..] == y[..k - 1];
    }
  }

  lemma DiffersFirst(a: seq<Ident>, b: seq<Ident>, k: nat)
    requires a != [] && b != [] && a[0] != b[0]
    ensures DiffersAt(a, b, k) ==> k == 0
    ensures DiffersAt(a, b, 0) <==> SmallerField(a[0], b[0])
  {
    assert 0 < k <= |a| && k <= |b| ==> a[0] == a[..k][0] && b[0] == b[..k][0];
    assert a[..0] == b[..0];
  }

  /** Prerelease fields are ordered by their first difference; of two lists without one, the longer comes later. */
  lemma {:induction false} FirstDifferenceDecides(a: seq<Ident>, b: seq<Ident>)
    ensures CompareFields(a, b) == -1 <==> a < b || exists k: nat :: DiffersAt(a, b, k)
    decreases |a|
  {
    if a == [] || b == [] {
      assert a < b <==> |a| < |b|;
    } else {
      var x, y := a[1..], b[1..];
      Whole(a);
      Whole(b);
      IdentOrder(a[0], b[0], a[0]);
      CompareIdentIs(a[0], b[0]);
      FirstDifferenceDecides(x, y);
      if a[0] == b[0] {
        if k: nat :| DiffersAt(x, y, k) {
          DiffersBehind(a, b, k);
        }
        if k: nat :| DiffersAt(a, b, k) {
          DiffersBehind(a, b, k);
        }
      } else {
        DiffersFirst(a, b, 0);
        forall k: nat | DiffersAt(a, b, k) ensures k == 0 {
          DiffersFirst(a, b, k);
        }
      }
    }
  }

  function Numbers(v: Version): seq<nat>
  {
    [v.major, v.minor, v.patch]
  }

  // A number by which v is smaller, after common ones
  ghost predicate LowerAt(v: Version, o: Version, k: nat)
  {
    k < 3 && Numbers(v)[..k] == Numbers(o)[..k] && Numbers(v)[k] < Numbers(o)[k]
  }

  /**
   Section 11 on whole versions: the first of major, minor and patch that differs decides; without one a version with
   prerelease fields comes before one that has none, and of two with fields the first difference between these decides.
   */
  ghost predicate Precedes(v: Version, o: Version)
  {
    || (exists k: nat :: LowerAt(v, o, k))
    || (&& Numbers(v) == Numbers(o)
        && v.pre != []
        && (o.pre == [] || v.pre < o.pre || exists k: nat :: DiffersAt(v.pre, o.pre, k)))
  }

  /** The comparison of the library is the precedence of section 11. */
  lemma LtIsPrecedes(v: Version, o: Version)
    ensures Lt(v, o) <==> Precedes(v, o)
    ensures Le(v, o) <==> !Precedes(o, v)
  {
    CompareIs(v, o);
    CompareIs(o, v);
    PrecedenceOrder(v, o, v);
  }

  lemma CompareIs(v: Version, o: Version)
    ensures Compare(v, o) == -1 <==> Precedes(v, o)
  {
    var a, b := Numbers(v), Numbers(o);
    FirstDifferenceDecides(v.pre, o.pre);
    if a == b {
      assert a[0] == b[0] && a[1] == b[1] && a[2] == b[2];
    } else {
      var k: nat := if v.major != o.major then 0 else if v.minor != o.minor then 1 else 2;
      assert a[..k] == b[..k] && a[k] != b[k];
      assert LowerAt(v, o, k) <==> a[k] < b[k];
      assert Compare(v, o) == -1 <==> a[k] < b[k];
      forall j: nat | k < j < 3 ensures a[..j] != b[..j] {
        assert a[..j][k] == a[k] && b[..j][k] == b[k];
      }
    }
  }
}
