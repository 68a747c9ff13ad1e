/** The error report of a test job: failures by name and location, with totals that must agree. */
module Report {

  // ----- sums over maps -----

  ghost function Pick(m: map<string, int>): string
    requires m != map[]
    ensures Pick(m) in m
  {
    var k :| k in m;
    k
  }

  ghost function Sum(m: map<string, int>): int
    decreases |m|
  {
    if m == map[] then 0 else m[Pick(m)] + Sum(m - {Pick(m)})
  }

  lemma {:induction false} SumWithout(m: map<string, int>, k: string)
    requires k in m
    ensures Sum(m) == m[k] + Sum(m - {k})
    decreases |m|
  {
    var p := Pick(m);
    if p != k {
      var both := m - {p} - {k};
      assert m - {k} - {p} == both;
      SumWithout(m - {p}, k);
      SumWithout(m - {k}, p);
    }
  }

  function Get(m: map<string, int>, k: string): int
  {
    if k in m then m[k] else 0
  }

  lemma SumUpdate(m: map<string, int>, k: string, v: int)
    ensures Sum(m[k := v]) == Sum(m) - Get(m, k) + v
  {
    SumWithout(m[k := v], k);
    assert m[k := v] - {k} == m - {k};
    if k in m {
      SumWithout(m, k);
    } else {
      assert m - {k} == m;
    }
  }

  // ----- adding locations -----

  // s has the keys of both, with the values added.
  ghost predicate IsPlus(s: map<string, int>, m: map<string, int>, n: map<string, int>)
  {
    forall k :: (k in s <==> k in m || k in n) && Get(s, k) == Get(m, k) + Get(n, k)
  }

  lemma {:induction false} SumOfPlus(s: map<string, int>, m: map<string, int>, n: map<string, int>)
    requires IsPlus(s, m, n)
    ensures Sum(s) == Sum(m) + Sum(n)
    decreases |n|
  {
    if n == map[] {
      assert s == m;
    } else {
      var k := Pick(n);
      SumWithout(s, k);
      if k in m {
        SumUpdate(s, k, m[k]);
        SumOfPlus(s[k := m[k]], m, n - {k});
      } else {
        SumOfPlus(s - {k}, m, n - {k});
      }
    }
  }

  lemma SumOfOne(s: map<string, int>, m: map<string, int>, k: string, d: int)
    requires IsPlus(s, m, map[k := d])
    ensures Sum(s) == Sum(m) + d && k in s && s[k] == Get(m, k) + d
  {
    SumUpdate(map[], k, d);
    SumOfPlus(s, m, map[k := d]);
  }

  // What has been added when `left` is still to come
  ghost predicate Adding(sum: map<string, int>, base: map<string, int>, more: map<string, int>, left: map<string, int>)
  {
    (forall k :: k in left ==> k in more && left[k] == more[k]) &&
    (forall k :: k in sum <==> k in base || (k in more && k !in left)) &&
    forall k :: Get(sum, k) == Get(base, k) + if k in left then 0 else Get(more, k)
  }

  lemma AddOne(sum: map<string, int>, base: map<string, int>, more: map<string, int>, left: map<string, int>, l: string)
    requires Adding(sum, base, more, left) && l in left
    ensures Adding(sum[l := Get(sum, l) + left[l]], base, more, left - {l})
    ensures Sum(left) == left[l] + Sum(left - {l})
  {
    SumWithout(left, l);
  }

  lemma AddedAll(sum: map<string, int>, base: map<string, int>, more: map<string, int>, left: map<string, int>)
    requires Adding(sum, base, more, left) && left == map[]
    ensures IsPlus(sum, base, more) && Sum(left) == 0
  {
  }

  // Adds `more` to a copy of `base`, walking the map in any order.
  method AddLocations(base: map<string, int>, more: map<string, int>) returns (sum: map<string, int>, cnt: int)
    ensures IsPlus(sum, base, more) && cnt == Sum(more)
  {
    sum, cnt := base, 0;
    var left := more;
    while left != map[]
      invariant Adding(sum, base, more, left) && cnt + Sum(left) == Sum(more)
      decreases |left|
    {
      var l :| l in left;
      AddOne(sum, base, more, left, l);
      cnt := cnt + left[l];
      sum := sum[l := Get(sum, l) + left[l]];
      left := left - {l};
    }
    AddedAll(sum, base, more, left);
  }

  // ----- the report -----

  datatype LogError = LogError(name: string, class_: string, regex: string)

  datatype ErrorInfo = ErrorInfo(testName: string, step: string, errName: string, errClass: string, location: string)

  const ERR_UNKNOWN: string := "UnspecifiedError"
  const ERR_CLASS_NONE: string := "None"

  // Whether a regular expression matches a text; a malformed one matches nothing.
  type Matcher = (string, string) -> bool

  // The error that a text stands for: the first whose expression matches
  function Classify(logErrors: seq<LogError>, txt: string, matches: Matcher): (string, string)
  {
    if logErrors == [] then (ERR_UNKNOWN, ERR_CLASS_NONE)
    else if matches(logErrors[0].regex, txt) then (logErrors[0].name, logErrors[0].class_)
    else Classify(logErrors[1..], txt, matches)
  }

  /** The first expression that matches decides; without one the error is unspecified and has no class. */
  lemma {:induction false} FirstMatchDecides(logErrors: seq<LogError>, txt: string, matches: Matcher, i: nat)
    requires i <= |logErrors| && forall j :: 0 <= j < i ==> !matches(logErrors[j].regex, txt)
    ensures i == |logErrors| ==> Classify(logErrors, txt, matches) == ("UnspecifiedError", "None")
    ensures i < |logErrors| && matches(logErrors[i].regex, txt) ==>
      Classify(logErrors, txt, matches) == (logErrors[i].name, logErrors[i].class_)
  {
    if i > 0 {
      FirstMatchDecides(logErrors[1..], txt, matches, i - 1);
    }
  }

  class ErrorStat {
    var count: int
    var locations: map<string, int>

    constructor (count: int, locations: map<string, int>)
      ensures this.count == count && this.locations == locations
    {
      this.count, this.locations := count, locations;
    }
  }

  class Manager {
    var errors: int
    var failures: map<string, ErrorStat>
    const logErrors: seq<LogError>

    // The records in `failures`
    ghost var stats: set<ErrorStat>

    constructor (logErrors: seq<LogError>)
      ensures this.logErrors == logErrors && errors == 0 && failures == map[] && stats == {}
      ensures Valid() && Balanced()
    {
      this.errors, this.failures, this.logErrors, this.stats := 0, map[], logErrors, {};
    }

    // Each name has a record of its own.
    ghost predicate Valid()
      reads this
    {
      (forall k :: k in failures ==> failures[k] in stats) &&
      forall j, k :: j in failures && k in failures && j != k ==> failures[j] != failures[k]
    }

    ghost function Counts(): map<string, int>
      requires Valid()
      reads this, stats
    {
      map k | k in failures :: failures[k].count
    }

    ghost function LocationsOf(key: string): map<string, int>
      requires Valid()
      reads this, stats
    {
      if key in failures then failures[key].locations else map[]
    }

    // The total is the sum of the counts, and each count the sum over its locations.
    ghost predicate Balanced()
      requires Valid()
      reads this, stats
    {
      errors == Sum(Counts()) && forall k :: k in failures ==> failures[k].count == Sum(failures[k].locations)
    }

    // The records of all other names are as they were.
    twostate predicate OthersKept(key: string)
      requires old(Valid()) && Valid()
      reads this, stats
    {
      failures.Keys == old(failures.Keys) + {key} &&
      forall k :: k in old(failures) && k != key ==>
        failures[k] == old(failures[k]) &&
        failures[k].count == old(failures[k].count) && failures[k].locations == old(failures[k].locations)
    }

    // Stores a record for a name that has none.
    method StoreNew(key: string, count: int, locations: map<string, int>)
      requires Valid() && key !in failures
      modifies this`failures, this`stats
      ensures Valid() && key in failures && stats == old(stats) + {failures[key]} && fresh(failures[key])
      ensures failures == old(failures)[key := failures[key]]
      ensures failures[key].count == count && failures[key].locations == locations
    {
      var stat := new ErrorStat(count, locations);
      failures, stats := failures[key := stat], stats + {stat};
    }

    method AddFailure(key: string, locations: map<string, int>)
      requires Valid()
      modifies this`errors, this`failures, this`stats, stats
      ensures Valid() && fresh(stats - old(stats)) && errors == old(errors) + Sum(locations)
      ensures OthersKept(key) && key in failures
      ensures IsPlus(failures[key].locations, old(LocationsOf(key)), locations)
      ensures failures[key].count == old(Get(Counts(), key)) + Sum(locations)
    {
      var cnt, locs;
      if key !in failures {
        locs, cnt := AddLocations(map[], locations);
        StoreNew(key, cnt, locs);
      } else {
        var failure := failures[key];
        locs, cnt := AddLocations(failure.locations, locations);
        failure.locations := locs;
        failure.count := failure.count + cnt;
      }
      errors := errors + cnt;
    }

    // The totals agree again once one count, its locations and the total have grown alike.
    lemma BalancedAgain(key: string, counts: map<string, int>, known: map<string, int>, locations: map<string, int>)
      requires Valid() && key in failures && failures.Keys == counts.Keys + {key}
      requires forall k :: k in counts && k != key ==>
        failures[k].count == counts[k] == Sum(failures[k].locations)
      requires errors == Sum(counts) + Sum(locations) && Get(counts, key) == Sum(known)
      requires failures[key].count == Get(counts, key) + Sum(locations) &&
        IsPlus(failures[key].locations, known, locations)
      ensures Balanced()
    {
      SumOfOne(Counts(), counts, key, Sum(locations));
      SumOfPlus(failures[key].locations, known, locations);
    }

    // Adding a failure keeps the totals in agreement.
    method AddBalanced(key: string, locations: map<string, int>)
      requires Valid() && Balanced()
      modifies this`errors, this`failures, this`stats, stats
      ensures Valid() && fresh(stats - old(stats)) && errors == old(errors) + Sum(locations)
      ensures OthersKept(key) && key in failures
      ensures IsPlus(failures[key].locations, old(LocationsOf(key)), locations)
      ensures Balanced()
    {
      ghost var counts, known := Counts(), LocationsOf(key);
      assert Get(counts, key) == Sum(known);
      AddFailure(key, locations);
      BalancedAgain(key, counts, known, locations);
    }

    // The first error whose expression matches
    method Match(txt: string, matches: Matcher) returns (name: string, class_: string)
      ensures (name, class_) == Classify(logErrors, txt, matches)
    {
      for i := 0 to |logErrors|
        invariant Classify(logErrors, txt, matches) == Classify(logErrors[i..], txt, matches)
      {
        var logErr := logErrors[i];
        assert logErrors[i..][0] == logErr && logErrors[i..][1..] == logErrors[i + 1..];
        if matches(logErr.regex, txt) {
          return logErr.name, logErr.class_;
        }
      }
      return ERR_UNKNOWN, ERR_CLASS_NONE;
    }

    /** One more failure, under the first name whose expression matches. */
    method Process(txt: string, step: string, testName: string, location: string, matches: Matcher)
      returns (info: ErrorInfo)
      requires Valid() && Balanced()
      modifies this`errors, this`failures, this`stats, stats
      ensures Valid() && Balanced() && fresh(stats - old(stats)) && errors == old(errors) + 1
      ensures (info.errName, info.errClass) == Classify(logErrors, txt, matches)
      ensures info.testName == testName && info.step == step && info.location == location
      ensures OthersKept(info.errName) && info.errName in failures
      ensures IsPlus(failures[info.errName].locations, old(LocationsOf(info.errName)), map[location := 1])
    {
      var name, class_ := Match(txt, matches);
      SumUpdate(map[], location, 1);
      AddBalanced(name, map[location := 1]);
      info := ErrorInfo(testName, step, name, class_, location);
    }

    // What `n` has, it has in records of its own, equal to those here.
    ghost predicate Copied(n: Manager)
      reads this, stats, n, n.stats
    {
      Valid() && n.Valid() && n != this && n.stats !! stats &&
      forall k :: k in n.failures ==>
        k in failures && n.failures[k].count == failures[k].count && n.failures[k].locations == failures[k].locations
    }

    lemma CopyIsBalanced(n: Manager)
      requires Copied(n) && n.failures.Keys == failures.Keys && n.errors == errors
      ensures Balanced() ==> n.Balanced()
    {
      assert n.Counts() == Counts();
    }

    method CopyRecord(n: Manager, e: string)
      requires Copied(n) && e in failures && e !in n.failures
      modifies n`failures, n`stats
      ensures Copied(n) && fresh(n.stats - old(n.stats)) && n.failures.Keys == old(n.failures.Keys) + {e}
    {
      n.StoreNew(e, failures[e].count, failures[e].locations);
    }

    method CopyRecords(n: Manager)
      requires Copied(n) && n.failures == map[]
      modifies n`failures, n`stats
      ensures Copied(n) && fresh(n.stats - old(n.stats)) && n.failures.Keys == failures.Keys
    {
      var left := failures.Keys;
      while left != {}
        invariant forall k :: k in left ==> k in failures && k !in n.failures
        invariant forall k :: k in failures ==> k in left || k in n.failures
        invariant Copied(n) && fresh(n.stats - old(n.stats))
        decreases |left|
      {
        var e :| e in left;
        CopyRecord(n, e);
        left := left - {e};
      }
    }

    /** A deep copy: equal totals, records of its own. The error expressions are not copied. */
    method Copy() returns (n: Manager)
      requires Valid()
      ensures fresh(n) && n.Valid() && fresh(n.stats) && n.logErrors == [] && n.errors == errors
      ensures Copied(n) && n.failures.Keys == failures.Keys
      ensures Balanced() ==> n.Balanced()
    {
      n := new Manager([]);
      n.errors := errors;
      CopyRecords(n);
      CopyIsBalanced(n);
    }
  }

  // A report with records of its own stays as it is.
  twostate predicate Untouched(n: Manager)
    reads n, n.stats
  {
    n.errors == old(n.errors) && n.failures == old(n.failures) && n.stats == old(n.stats) &&
    forall s :: s in n.stats ==> s.count == old(s.count) && s.locations == old(s.locations)
  }

  method ProcessApart(h: Manager, n: Manager, txt: string, location: string, matches: Matcher)
    requires h.Valid() && h.Balanced() && n != h && n.stats !! h.stats
    modifies h`errors, h`failures, h`stats, h.stats
    ensures h.Valid() && h.Balanced() && h.errors == old(h.errors) + 1 && Untouched(n)
  {
    var info := h.Process(txt, "", "", location, matches);
  }

  // Later failures in the original do not show in the copy.
  method CopyThenProcess(h: Manager, txt: string, location: string, matches: Matcher) returns (n: Manager)
    requires h.Valid() && h.Balanced()
    modifies h`errors, h`failures, h`stats, h.stats
    ensures h.Valid() && h.Balanced() && h.errors == old(h.errors) + 1
    ensures n.Valid() && n.Balanced() && n.errors == old(h.errors) && n.failures.Keys == old(h.failures.Keys)
    ensures forall k :: k in n.failures ==>
      n.failures[k].count == old(h.failures[k].count) && n.failures[k].locations == old(h.failures[k].locations)
  {
    n := h.Copy();
    ProcessApart(h, n, txt, location, matches);
  }
}
