/** Selecting versions from the list of supported ones. */
module Versions {
  import opened Text
  import opened Decimal
  import opened Filters
  import opened SemVer

  predicate Above(min: Version, inclusive: bool, preReleases: bool, v: string)
  {
    (preReleases || !IsPrerelease(Make(v))) &&
      (if inclusive then Compare(Make(v), min) >= 0 else Compare(Make(v), min) == 1)
  }

  predicate Below(max: Version, inclusive: bool, preReleases: bool, v: string)
  {
    (preReleases || !IsPrerelease(Make(v))) &&
      (if inclusive then Compare(Make(v), max) <= 0 else Compare(Make(v), max) == -1)
  }

  function AboveFilter(min: Version, inclusive: bool, preReleases: bool): string -> bool
  {
    v => Above(min, inclusive, preReleases, v)
  }

  function BelowFilter(max: Version, inclusive: bool, preReleases: bool): string -> bool
  {
    v => Below(max, inclusive, preReleases, v)
  }

  method GetVersionsGt(versions: seq<string>, version: string, inclusive: bool, preReleases: bool)
    returns (ret: seq<string>)
    ensures ret == Filter(versions, AboveFilter(Make(version), inclusive, preReleases))
  {
    ret := [];
    var minVersion := Make(version);
    ghost var keep := AboveFilter(minVersion, inclusive, preReleases);
    for i := 0 to |versions|
      invariant ret == Filter(versions[..i], keep)
    {
      FilterNext(versions, i, keep);
      var sv := Make(versions[i]);
      if !preReleases && IsPrerelease(sv) {
        continue;
      }
      if (inclusive && Compare(sv, minVersion) >= 0) || (!inclusive && Compare(sv, minVersion) == 1) {
        ret := ret + [versions[i]];
      }
    }
    assert versions[..|versions|] == versions;
  }

  method GetVersionsLt(versions: seq<string>, version: string, inclusive: bool, preReleases: bool)
    returns (ret: seq<string>)
    ensures ret == Filter(versions, BelowFilter(Make(version), inclusive, preReleases))
  {
    ret := [];
    var maxVersion := Make(version);
    ghost var keep := BelowFilter(maxVersion, inclusive, preReleases);
    for i := 0 to |versions|
      invariant ret == Filter(versions[..i], keep)
    {
      FilterNext(versions, i, keep);
      var sv := Make(versions[i]);
      if !preReleases && IsPrerelease(sv) {
        continue;
      }
      if (inclusive && Compare(sv, maxVersion) <= 0) || (!inclusive && Compare(sv, maxVersion) == -1) {
        ret := ret + [versions[i]];
      }
    }
    assert versions[..|versions|] == versions;
  }

  function Copies(v: string, n: nat): seq<string>
  {
    if n == 0 then [] else Copies(v, n - 1) + [v]
  }

  // Every entry of `less`, once for each of its occurrences in `greater`
  function Common(less: seq<string>, greater: seq<string>): seq<string>
  {
    if less == [] then []
    else
      var last := less[|less| - 1];
      Common(less[..|less| - 1], greater) + Copies(last, multiset(greater)[last])
  }

  predicate PreReleasesIn(versionMin: string, preReleases: bool)
  {
    preReleases || IsPrerelease(Make(versionMin))
  }

  predicate Between(versionMin: string, versionMax: string, inclusive: bool, preReleases: bool, v: string)
  {
    Above(Make(versionMin), inclusive, PreReleasesIn(versionMin, preReleases), v) &&
    Below(Make(versionMax), inclusive, PreReleasesIn(versionMin, preReleases), v)
  }

  function BetweenFilter(versionMin: string, versionMax: string, inclusive: bool, preReleases: bool): string -> bool
  {
    v => Between(versionMin, versionMax, inclusive, preReleases, v)
  }

  function VersionsBetween(versions: seq<string>, versionMin: string, versionMax: string, inclusive: bool,
        preReleases: bool): seq<string>
  {
    var pre := PreReleasesIn(versionMin, preReleases);
    Common(Filter(versions, BelowFilter(Make(versionMax), inclusive, pre)),
      Filter(versions, AboveFilter(Make(versionMin), inclusive, pre)))
  }

  method GetVersionsBetween(versions: seq<string>, versionMin: string, versionMax: string, inclusive: bool,
        preReleases: bool)
    returns (ret: seq<string>)
    ensures ret == VersionsBetween(versions, versionMin, versionMax, inclusive, preReleases)
  {
    var pre := preReleases;
    if IsPrerelease(Make(versionMin)) {
      pre := true;
    }
    var greaterThan := GetVersionsGt(versions, versionMin, inclusive, pre);
    var lessThan := GetVersionsLt(versions, versionMax, inclusive, pre);
    ret := AppendCommon(lessThan, greaterThan);
  }

  // The inner loop: one version, once for each of its occurrences
  method AppendCopies(before: seq<string>, lv: string, greaterThan: seq<string>) returns (ret: seq<string>)
    ensures ret == before + Copies(lv, multiset(greaterThan)[lv])
  {
    ret := before;
    for j := 0 to |greaterThan|
      invariant ret == before + Copies(lv, multiset(greaterThan[..j])[lv])
    {
      assert greaterThan[..j + 1] == greaterThan[..j] + [greaterThan[j]];
      if lv == greaterThan[j] {
        ret := ret + [lv];
      }
    }
    assert greaterThan[..|greaterThan|] == greaterThan;
  }

  // The nested loops at the end of GetVersionsBetween
  method AppendCommon(lessThan: seq<string>, greaterThan: seq<string>) returns (ret: seq<string>)
    ensures ret == Common(lessThan, greaterThan)
  {
    ret := [];
    for i := 0 to |lessThan|
      invariant ret == Common(lessThan[..i], greaterThan)
    {
      ret := AppendCopies(ret, lessThan[i], greaterThan);
      assert lessThan[..i + 1][..i] == lessThan[..i];
    }
    assert lessThan[..|lessThan|] == lessThan;
  }

  // ----- the result is the interval filter -----

  lemma {:induction false} CopiesCount(v: string, n: nat, w: string)
    ensures multiset(Copies(v, n))[w] == if v == w then n else 0
  {
    if n > 0 {
      CopiesCount(v, n - 1, w);
    }
  }

  lemma CommonNext(front: seq<string>, last: string, greater: seq<string>, v: string)
    ensures multiset(Common(front + [last], greater))[v] ==
      multiset(Common(front, greater))[v] + if last == v then multiset(greater)[v] else 0
  {
    assert (front + [last])[..|front|] == front;
    CopiesCount(last, multiset(greater)[last], v);
  }

  lemma OneMore(n: nat, g: nat)
    ensures (n + 1) * g == n * g + g
  {
  }

  lemma {:induction false} CommonCounts(less: seq<string>, greater: seq<string>, v: string)
    ensures multiset(Common(less, greater))[v] == multiset(less)[v] * multiset(greater)[v]
    decreases |less|
  {
    if less != [] {
      var front, last := less[..|less| - 1], less[|less| - 1];
      assert less == front + [last];
      CommonCounts(front, greater, v);
      CommonNext(front, last, greater, v);
      var m, n := multiset(front)[v], multiset(greater)[v];
      OneMore(m, n);
      assert multiset(less)[v] == m + if last == v then 1 else 0;
    }
  }

  function Square(n: nat): nat
  {
    n * n
  }

  /** A version in the interval that is listed n times comes out n*n times; nothing else comes out. */
  lemma BetweenCounts(versions: seq<string>, min: string, max: string, inclusive: bool, pre: bool, v: string)
    ensures multiset(VersionsBetween(versions, min, max, inclusive, pre))[v] ==
      if Between(min, max, inclusive, pre, v) then Square(multiset(versions)[v]) else 0
  {
    var p := PreReleasesIn(min, pre);
    var less := Filter(versions, BelowFilter(Make(max), inclusive, p));
    var greater := Filter(versions, AboveFilter(Make(min), inclusive, p));
    FilterCounts(versions, BelowFilter(Make(max), inclusive, p), v);
    FilterCounts(versions, AboveFilter(Make(min), inclusive, p), v);
    CommonCounts(less, greater, v);
    ProductZero(multiset(less)[v], multiset(greater)[v]);
  }

  lemma ProductZero(m: nat, n: nat)
    ensures m == 0 || n == 0 ==> m * n == 0
  {
  }

  ghost predicate Once(v: string, lt: string -> bool, greater: seq<string>, both: string -> bool)
  {
    (both(v) ==> lt(v)) && (lt(v) ==> multiset(greater)[v] == if both(v) then 1 else 0)
  }

  lemma {:induction false} CommonOfOnce(versions: seq<string>, lt: string -> bool, greater: seq<string>,
        both: string -> bool)
    requires forall i :: 0 <= i < |versions| ==> Once(versions[i], lt, greater, both)
    ensures Common(Filter(versions, lt), greater) == Filter(versions, both)
    decreases |versions|
  {
    if versions != [] {
      var front, last := versions[..|versions| - 1], versions[|versions| - 1];
      assert Once(last, lt, greater, both);
      CommonOfOnce(front, lt, greater, both);
      if lt(last) {
        CommonAppend(Filter(front, lt), last, greater);
      } else {
        assert Filter(front, lt) + [] == Filter(front, lt) && Filter(front, both) + [] == Filter(front, both);
      }
    }
  }

  lemma CommonAppend(less: seq<string>, last: string, greater: seq<string>)
    requires multiset(greater)[last] <= 1
    ensures Common(less + [last], greater) ==
      Common(less, greater) + if multiset(greater)[last] == 1 then [last] else []
  {
    assert (less + [last])[..|less|] == less;
    assert Copies(last, 0) == [] && Copies(last, 1) == [] + [last];
  }

  lemma BetweenMembers(versions: seq<string>, min: string, max: string, inclusive: bool, pre: bool, v: string)
    ensures v in VersionsBetween(versions, min, max, inclusive, pre) <==>
      v in versions && Between(min, max, inclusive, pre, v)
  {
    BetweenCounts(versions, min, max, inclusive, pre, v);
    Listed(VersionsBetween(versions, min, max, inclusive, pre), v);
    Listed(versions, v);
    SquareIsPositive(multiset(versions)[v]);
  }

  lemma Listed(versions: seq<string>, v: string)
    ensures v in versions <==> multiset(versions)[v] > 0
  {
    assert v in versions <==> v in multiset(versions);
  }

  lemma SquareIsPositive(n: nat)
    ensures n > 0 <==> n * n > 0
  {
  }

  /** The result is the order-preserving interval filter exactly when no version inside the interval is listed twice. */
  lemma {:induction false} BetweenIsFilter(versions: seq<string>, min: string, max: string, inclusive: bool, pre: bool)
    ensures VersionsBetween(versions, min, max, inclusive, pre) ==
      Filter(versions, BetweenFilter(min, max, inclusive, pre))
      <==> forall v :: v in versions && Between(min, max, inclusive, pre, v) ==> multiset(versions)[v] == 1
  {
    var both := BetweenFilter(min, max, inclusive, pre);
    var p := PreReleasesIn(min, pre);
    var lt, gt := BelowFilter(Make(max), inclusive, p), AboveFilter(Make(min), inclusive, p);
    if VersionsBetween(versions, min, max, inclusive, pre) == Filter(versions, both) {
      forall v | v in versions && both(v) ensures multiset(versions)[v] == 1 {
        BetweenCounts(versions, min, max, inclusive, pre, v);
        FilterCounts(versions, both, v);
        OnlyOneIsItsSquare(multiset(versions)[v]);
      }
    }
    if forall v :: v in versions && both(v) ==> multiset(versions)[v] == 1 {
      forall i | 0 <= i < |versions| ensures Once(versions[i], lt, Filter(versions, gt), both) {
        FilterCounts(versions, gt, versions[i]);
      }
      CommonOfOnce(versions, lt, Filter(versions, gt), both);
    }
  }

  lemma OnlyOneIsItsSquare(n: nat)
    ensures n > 0 && n * n == n ==> n == 1
  {
    if n >= 2 {
      assert n * n >= 2 * n;
    }
  }

  // ----- the greatest version -----

  const FLOOR_PRERELEASE: Version := Version(0, 0, 0, [Alpha("alpha"), Numeric(0)], [])

  function HighestRelease(versions: seq<string>): Version
  {
    if versions == [] then ZERO
    else
      var so, sv := HighestRelease(versions[..|versions| - 1]), Make(versions[|versions| - 1]);
      if !IsPrerelease(sv) && Compare(sv, so) == 1 then sv else so
  }

  function HighestPreRelease(versions: seq<string>): Version
  {
    if versions == [] then FLOOR_PRERELEASE
    else
      var so, sv := HighestPreRelease(versions[..|versions| - 1]), Make(versions[|versions| - 1]);
      if IsPrerelease(sv) && Compare(sv, so) == 1 then sv else so
  }

  function PreReleases(versions: seq<string>): seq<Version>
  {
    if versions == [] then []
    else
      var sv := Make(versions[|versions| - 1]);
      PreReleases(versions[..|versions| - 1]) + if IsPrerelease(sv) then [sv] else []
  }

  function HighestOf(svs: seq<Version>): Version
  {
    if svs == [] then FLOOR_PRERELEASE
    else
      var so, sv := HighestOf(svs[..|svs| - 1]), svs[|svs| - 1];
      if Compare(sv, so) == 1 then sv else so
  }

  lemma {:induction false} HighestOfPreReleases(versions: seq<string>)
    ensures HighestOf(PreReleases(versions)) == HighestPreRelease(versions)
  {
    if versions != [] {
      var front := versions[..|versions| - 1];
      HighestOfPreReleases(front);
      var svs, sv := PreReleases(front), Make(versions[|versions| - 1]);
      if IsPrerelease(sv) {
        assert (svs + [sv])[..|svs|] == svs;
        assert HighestOf(svs + [sv]) == if Compare(sv, HighestOf(svs)) == 1 then sv else HighestOf(svs);
      } else {
        assert svs + [] == svs;
      }
    }
  }

  function MaxVersion(versions: seq<string>, preRelease: bool): Version
  {
    var release, pre := HighestRelease(versions), HighestPreRelease(versions);
    if preRelease && Compare(pre, release) == 1 then pre else release
  }

  // The loop over the versions
  method SplitVersions(versions: seq<string>) returns (highest: Version, preReleaseVersions: seq<Version>)
    ensures highest == HighestRelease(versions) && preReleaseVersions == PreReleases(versions)
  {
    highest, preReleaseVersions := ZERO, [];
    for i := 0 to |versions|
      invariant highest == HighestRelease(versions[..i]) && preReleaseVersions == PreReleases(versions[..i])
    {
      assert versions[..i + 1][..i] == versions[..i];
      var sv := Make(versions[i]);
      if IsPrerelease(sv) {
        preReleaseVersions := preReleaseVersions + [sv];
      } else if Compare(sv, highest) == 1 {
        highest := sv;
      }
    }
    assert versions[..|versions|] == versions;
  }

  // The loop over the prereleases
  method FindHighest(preReleaseVersions: seq<Version>) returns (highestPreRelease: Version)
    ensures highestPreRelease == HighestOf(preReleaseVersions)
  {
    highestPreRelease := FLOOR_PRERELEASE;
    for i := 0 to |preReleaseVersions|
      invariant highestPreRelease == HighestOf(preReleaseVersions[..i])
    {
      assert preReleaseVersions[..i + 1][..i] == preReleaseVersions[..i];
      if Compare(preReleaseVersions[i], highestPreRelease) == 1 {
        highestPreRelease := preReleaseVersions[i];
      }
    }
    assert preReleaseVersions[..|preReleaseVersions|] == preReleaseVersions;
  }

  method GetMaxVersion(versions: seq<string>, preRelease: bool) returns (text: string)
    ensures text == if versions == [] then "" else Print(MaxVersion(versions, preRelease))
  {
    if |versions| < 1 {
      return "";
    }
    var highest, preReleaseVersions := SplitVersions(versions);
    if preRelease {
      var highestPreRelease := FindHighest(preReleaseVersions);
      HighestOfPreReleases(versions);
      if Compare(highestPreRelease, highest) == 1 {
        return Print(highestPreRelease);
      }
    }
    text := Print(highest);
  }

  lemma {:induction false} HighestBounds(versions: seq<string>, v: string)
    requires v in versions
    ensures Le(Make(v), if IsPrerelease(Make(v)) then HighestPreRelease(versions) else HighestRelease(versions))
    decreases |versions|
  {
    var front, last := versions[..|versions| - 1], versions[|versions| - 1];
    assert versions == front + [last];
    var pre := IsPrerelease(Make(v));
    var so := if pre then HighestPreRelease(front) else HighestRelease(front);
    PrecedenceOrder(Make(v), so, Make(last));
    PrecedenceOrder(Make(last), so, Make(v));
    PrecedenceOrder(Make(v), Make(v), so);
    if v in front {
      HighestBounds(front, v);
    }
  }

  lemma {:induction false} HighestIsListed(versions: seq<string>)
    ensures HighestRelease(versions) == ZERO || exists v :: v in versions && HighestRelease(versions) == Make(v)
    ensures HighestPreRelease(versions) == FLOOR_PRERELEASE ||
      exists v :: v in versions && HighestPreRelease(versions) == Make(v)
    ensures !IsPrerelease(HighestRelease(versions)) && IsPrerelease(HighestPreRelease(versions))
    decreases |versions|
  {
    if versions != [] {
      HighestIsListed(versions[..|versions| - 1]);
      assert versions[|versions| - 1] in versions;
    }
  }

  lemma MakeIsValid(s: string)
    ensures Valid(Make(s))
  {
    if Parse(s).Some? {
      ParseIs(s, Parse(s).value);
    }
  }

  lemma MaxVersionIsValid(versions: seq<string>, preRelease: bool)
    ensures Valid(MaxVersion(versions, preRelease))
  {
    var max := MaxVersion(versions, preRelease);
    HighestIsListed(versions);
    assert "alpha"[0] == 'a';
    if u :| u in versions && max == Make(u) {
      MakeIsValid(u);
    }
  }

  /** The text reads back as a version that no considered version exceeds, and that is listed unless it is a floor. */
  lemma MaxVersionIsMaximum(versions: seq<string>, preRelease: bool, v: string)
    requires v in versions && (preRelease || !IsPrerelease(Make(v)))
    ensures var max := MaxVersion(versions, preRelease);
      Parse(Print(max)) == Some(max) && !Precedes(max, Make(v)) && (preRelease || !IsPrerelease(max)) &&
      (max == ZERO || max == FLOOR_PRERELEASE || exists u :: u in versions && max == Make(u))
  {
    var max, release, pre := MaxVersion(versions, preRelease), HighestRelease(versions), HighestPreRelease(versions);
    HighestBounds(versions, v);
    HighestIsListed(versions);
    PrecedenceOrder(Make(v), release, pre);
    PrecedenceOrder(Make(v), pre, release);
    LtIsPrecedes(Make(v), max);
    MaxVersionIsValid(versions, preRelease);
    ParseIs(Print(max), max);
  }

  // ----- the latest patch of a release -----

  function MajorMinor(v: Version): string
  {
    Digits(v.major) + "." + Digits(v.minor)
  }

  function LatestSoFar(majorMinor: string, best: string, versions: seq<string>): string
    decreases |versions|
  {
    if versions == [] || Parse(versions[0]) == None then best
    else
      var sv := Make(versions[0]);
      var better := best == "" || Compare(sv, Make(best)) == 1;
      var next := if MajorMinor(sv) == majorMinor && better then versions[0] else best;
      LatestSoFar(majorMinor, next, versions[1..])
  }

  method GetLatestPatchVersion(majorMinor: string, versionsList: seq<string>) returns (version: string)
    ensures version == LatestSoFar(majorMinor, "", versionsList)
  {
    version := "";
    for i := 0 to |versionsList|
      invariant LatestSoFar(majorMinor, version, versionsList[i..]) == LatestSoFar(majorMinor, "", versionsList)
    {
      assert versionsList[i..][1..] == versionsList[i + 1..];
      var ver := versionsList[i];
      var parsed := Parse(ver);
      if parsed.None? {
        return;
      }
      if MajorMinor(parsed.value) == majorMinor {
        if version == "" {
          version := ver;
        } else if Compare(parsed.value, Make(version)) == 1 {
          version := ver;
        }
      }
    }
  }

  // The versions before the first that does not parse
  function ParsablePrefix(versions: seq<string>): seq<string>
  {
    if versions == [] || Parse(versions[0]) == None then [] else [versions[0]] + ParsablePrefix(versions[1..])
  }

  lemma OneOfTwo(best: Version, sv: Version, latest: Version)
    ensures Le(if Compare(sv, best) == 1 then sv else best, latest) ==> Le(best, latest) && Le(sv, latest)
  {
    PrecedenceOrder(best, sv, latest);
    PrecedenceOrder(sv, best, latest);
  }

  lemma MatchesNext(versions: seq<string>, majorMinor: string)
    requires versions != [] && Parse(versions[0]).Some?
    ensures MatchesIn(ParsablePrefix(versions), majorMinor) ==
      (if MajorMinor(Make(versions[0])) == majorMinor then [versions[0]] else []) +
      MatchesIn(ParsablePrefix(versions[1..]), majorMinor)
  {
    assert ParsablePrefix(versions)[1..] == ParsablePrefix(versions[1..]);
  }

  lemma {:induction false} LatestIsMatch(majorMinor: string, best: string, versions: seq<string>)
    requires best == "" || MajorMinor(Make(best)) == majorMinor
    ensures var latest := LatestSoFar(majorMinor, best, versions);
      var matches := MatchesIn(ParsablePrefix(versions), majorMinor);
      (latest == best || latest in matches) && (latest == "" ==> best == "" && matches == []) &&
      (latest != "" ==> MajorMinor(Make(latest)) == majorMinor)
    decreases |versions|
  {
    if versions != [] && Parse(versions[0]).Some? {
      var sv := Make(versions[0]);
      var better := best == "" || Compare(sv, Make(best)) == 1;
      var next := if MajorMinor(sv) == majorMinor && better then versions[0] else best;
      assert Parse("").None? && versions[0] != "";
      LatestIsMatch(majorMinor, next, versions[1..]);
      MatchesNext(versions, majorMinor);
    }
  }

  lemma {:induction false} LatestBounds(majorMinor: string, best: string, versions: seq<string>)
    ensures var latest := Make(LatestSoFar(majorMinor, best, versions));
      (best != "" ==> Le(Make(best), latest)) &&
      forall v :: v in MatchesIn(ParsablePrefix(versions), majorMinor) ==> Le(Make(v), latest)
    decreases |versions|
  {
    PrecedenceOrder(Make(best), Make(best), Make(best));
    if versions != [] && Parse(versions[0]).Some? {
      var sv := Make(versions[0]);
      var better := best == "" || Compare(sv, Make(best)) == 1;
      var next := if MajorMinor(sv) == majorMinor && better then versions[0] else best;
      assert Parse("").None? && versions[0] != "";
      LatestBounds(majorMinor, next, versions[1..]);
      OneOfTwo(Make(best), sv, Make(LatestSoFar(majorMinor, next, versions[1..])));
      MatchesNext(versions, majorMinor);
    }
  }

  function MatchesIn(versions: seq<string>, majorMinor: string): seq<string>
  {
    if versions == [] then []
    else
      (if MajorMinor(Make(versions[0])) == majorMinor then [versions[0]] else []) + MatchesIn(versions[1..], majorMinor)
  }

  /** The latest patch version is a greatest match among the versions before the first that does not parse. */
  lemma {:induction false} LatestPatchIsGreatest(majorMinor: string, versions: seq<string>)
    ensures var latest := LatestSoFar(majorMinor, "", versions);
      var matches := MatchesIn(ParsablePrefix(versions), majorMinor);
      (latest == "" <==> matches == []) && (latest != "" ==> latest in matches) &&
      forall v :: v in matches ==> !Precedes(Make(latest), Make(v))
  {
    var latest := LatestSoFar(majorMinor, "", versions);
    LatestIsMatch(majorMinor, "", versions);
    LatestBounds(majorMinor, "", versions);
    forall v: string ensures Le(Make(v), Make(latest)) <==> !Precedes(Make(latest), Make(v)) {
      LtIsPrecedes(Make(v), Make(latest));
    }
    assert Parse("").None?;
    MatchesParse(versions, majorMinor);
  }

  lemma {:induction false} MatchesParse(versions: seq<string>, majorMinor: string)
    ensures forall v :: v in MatchesIn(ParsablePrefix(versions), majorMinor) ==> Parse(v).Some?
    decreases |versions|
  {
    if versions != [] && Parse(versions[0]).Some? {
      MatchesParse(versions[1..], majorMinor);
      assert ParsablePrefix(versions)[1..] == ParsablePrefix(versions[1..]);
    }
  }

  // ----- reading the version of a model -----

  const DCOS: string := "DCOS"

  function TrimV(s: string): string
  {
    if s != [] && s[0] == 'v' then s[1..] else s
  }

  function Rationalize(supported: seq<string>, defaultVersion: string, orchType: string, orchRel: string,
        orchVer: string): string
  {
    var rel, ver := TrimV(orchRel), TrimV(orchVer);
    if orchType != DCOS then ""
    else if rel == "" && ver == "" then defaultVersion
    else if ver == "" then LatestSoFar(rel, "", supported)
    else if ver in supported && (rel == "" || MajorMinor(Make(ver)) == rel) then ver
    else ""
  }

  /**
   What a release and a version without a leading v stand for; with one, the same. A version stands for itself if it is
   supported and of the release, if any; a release alone for a greatest version of it; neither for the default.
   */
  lemma RationalizeIs(supported: seq<string>, defaultVersion: string, rel: string, ver: string)
    requires !("v" <= rel) && !("v" <= ver)
    ensures var r := Rationalize(supported, defaultVersion, DCOS, rel, ver);
      r == Rationalize(supported, defaultVersion, DCOS, "v" + rel, ver) ==
        Rationalize(supported, defaultVersion, DCOS, rel, "v" + ver) ==
        Rationalize(supported, defaultVersion, DCOS, "v" + rel, "v" + ver)
    ensures var r := Rationalize(supported, defaultVersion, DCOS, rel, ver);
      (rel == "" && ver == "" ==> r == defaultVersion) &&
      (ver != "" ==> r == if ver in supported && (rel == "" || MajorMinor(Make(ver)) == rel) then ver else "") &&
      (rel != "" && ver == "" ==>
        var matches := MatchesIn(ParsablePrefix(supported), rel);
        (r == "" <==> matches == []) && (r != "" ==> r in matches) &&
        forall v :: v in matches ==> !Precedes(Make(r), Make(v)))
  {
    LatestPatchIsGreatest(rel, supported);
    HeadAndTail('v', rel);
    HeadAndTail('v', ver);
    assert rel != "" && rel[0] == 'v' ==> "v" <= rel;
    assert ver != "" && ver[0] == 'v' ==> "v" <= ver;
  }

  // The search when both are given
  method FindInRelease(supported: seq<string>, rel: string, ver: string) returns (version: string)
    ensures version == if ver in supported && MajorMinor(Make(ver)) == rel then ver else ""
  {
    for i := 0 to |supported|
      invariant MajorMinor(Make(ver)) == rel ==> ver !in supported[..i]
    {
      var sr := MajorMinor(Make(supported[i]));
      if sr == rel && supported[i] == ver {
        return supported[i];
      }
    }
    version := "";
  }

  method RationalizeReleaseAndVersion(supported: seq<string>, defaultVersion: string, orchType: string,
        orchRel: string, orchVer: string)
    returns (version: string)
    ensures version == Rationalize(supported, defaultVersion, orchType, orchRel, orchVer)
  {
    var ver, rel := TrimV(orchVer), TrimV(orchRel);
    if orchType != DCOS {
      return "";
    }
    if rel == "" && ver == "" {
      return defaultVersion;
    }
    if ver == "" {
      version := GetLatestPatchVersion(rel, supported);
      return;
    } else if rel == "" {
      for i := 0 to |supported|
        invariant ver !in supported[..i]
      {
        if supported[i] == ver {
          return supported[i];
        }
      }
      return "";
    }
    version := FindInRelease(supported, rel, ver);
  }
}
