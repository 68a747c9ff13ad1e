/**
 A copy of the report that is made while calls are running. Copying takes no lock: it reads the total
 first, and then of each failure the locations and the count.
 */
module ReportCopies {
  import opened Text
  import opened Report
  import opened ReportRuns

  // ----- how far calls are -----

  const STORED: nat := 2
  const COUNTED: nat := 3
  const TOTALLED: nat := 4

  function Stage(pc: Pc): nat
  {
    match pc
    case Outside => 0
    case Entered => 1
    case Located => STORED
    case Counted => COUNTED
    case Totalled => TOTALLED
    case Left => 5
  }

  predicate Past(c: Call, stage: nat)
  {
    Stage(c.pc) >= stage
  }

  // The calls for this failure, among the first k, that are past a stage
  function PastBelow(calls: seq<Call>, k: nat, key: string, stage: nat): nat
    requires k <= |calls|
  {
    if k == 0 then 0
    else PastBelow(calls, k - 1, key, stage) + if calls[k - 1].key == key && Past(calls[k - 1], stage) then 1 else 0
  }

  lemma {:induction false} PastChanges(calls: seq<Call>, i: nat, c: Call, k: nat, key: string, stage: nat)
    requires i < |calls| && k <= |calls| && c.key == calls[i].key
    ensures PastBelow(calls[i := c], k, key, stage) - PastBelow(calls, k, key, stage) ==
      if i >= k || c.key != key || Past(c, stage) == Past(calls[i], stage) then 0
      else if Past(c, stage) then 1 else -1
  {
    if k > 0 {
      PastChanges(calls, i, c, k - 1, key, stage);
    }
  }

  // Two moments: no fewer are past the second stage then, and as many only if they are the same.
  lemma {:induction false} PastCompares(a: seq<Call>, x: nat, b: seq<Call>, y: nat, k: nat, key: string)
    requires k <= |a| == |b| && forall i :: 0 <= i < k ==> a[i].key == b[i].key
    requires forall i :: 0 <= i < k && a[i].key == key && Past(a[i], x) ==> Past(b[i], y)
    ensures PastBelow(a, k, key, x) <= PastBelow(b, k, key, y)
    ensures PastBelow(a, k, key, x) == PastBelow(b, k, key, y) <==>
      forall i :: 0 <= i < k && a[i].key == key ==> (Past(a[i], x) <==> Past(b[i], y))
  {
    if k > 0 {
      PastCompares(a, x, b, y, k - 1, key);
    }
  }

  // ----- what the numbers of a report count -----

  ghost predicate Counting(s: State, key: string)
  {
    var n := |s.calls|;
    if key in s.stats then
      s.stats[key].count == PastBelow(s.calls, n, key, COUNTED) &&
      Sum(s.stats[key].locations) == PastBelow(s.calls, n, key, STORED)
    else
      PastBelow(s.calls, n, key, STORED) == 0 && PastBelow(s.calls, n, key, COUNTED) == 0
  }

  lemma OneMoreLocation(stat: Stat, location: string)
    ensures Sum(AddLocation(stat, location).locations) == Sum(stat.locations) + 1
    ensures Sum(map[location := 1]) == 1
  {
    SumUpdate(stat.locations, location, Get(stat.locations, location) + 1);
    SumUpdate(map[], location, 1);
  }

  lemma StepMovesCounts(s: State, i: nat, key: string)
    requires Enabled(s, i) && (s.calls[i].pc == Located ==> s.calls[i].key in s.stats)
    ensures var n, t, c := |s.calls|, Step(s, i), s.calls[i];
      |t.calls| == n &&
      PastBelow(t.calls, n, key, STORED) - PastBelow(s.calls, n, key, STORED) ==
        (if c.key == key && c.pc == Entered then 1 else 0) &&
      PastBelow(t.calls, n, key, COUNTED) - PastBelow(s.calls, n, key, COUNTED) ==
        if c.key == key && (c.pc == Located || (c.pc == Entered && c.key !in s.stats)) then 1 else 0
  {
    var t := Step(s, i);
    PastChanges(s.calls, i, t.calls[i], |s.calls|, key, STORED);
    PastChanges(s.calls, i, t.calls[i], |s.calls|, key, COUNTED);
  }

  lemma StepCounting(s: State, i: nat, key: string)
    requires Known(s) && Enabled(s, i) && Counting(s, key)
    ensures Counting(Step(s, i), key)
  {
    StepMovesCounts(s, i, key);
    OneMoreLocation(if key in s.stats then s.stats[key] else Stat(0, map[]), s.calls[i].location);
  }

  lemma {:induction false} NonePast(calls: seq<Call>, k: nat, key: string, stage: nat)
    requires k <= |calls| && Fresh(calls) && stage > 0
    ensures PastBelow(calls, k, key, stage) == 0
  {
    if k > 0 {
      NonePast(calls, k - 1, key, stage);
    }
  }

  lemma {:induction false} RunCounting(r: Run, calls: seq<Call>, key: string)
    requires Fresh(calls)
    ensures Counting(After(r, calls), key)
  {
    match r
    case Begin =>
      NonePast(calls, |calls|, key, STORED);
      NonePast(calls, |calls|, key, COUNTED);
    case Next(before, i) =>
      RunCounting(before, calls, key);
      RunKeepsInv(before, calls);
      if Enabled(After(before, calls), i) {
        StepCounting(After(before, calls), i, key);
      }
  }

  // ----- from one moment to a later one -----

  predicate Extends(r: Run, from: Run)
  {
    r == from || (r.Next? && Extends(r.before, from))
  }

  lemma {:induction false} KeyStays(r: Run, calls: seq<Call>, i: nat)
    requires Fresh(calls) && i < |calls|
    ensures |After(r, calls).calls| == |calls| && After(r, calls).calls[i].key == calls[i].key
  {
    if r.Next? {
      KeyStays(r.before, calls, i);
    }
  }

  lemma StepGoesOn(s: State, i: nat, j: nat)
    requires j < |s.calls|
    ensures |Move(s, i).calls| == |s.calls| && Stage(s.calls[j].pc) <= Stage(Move(s, i).calls[j].pc)
    ensures s.stats.Keys <= Move(s, i).stats.Keys
  {
  }

  lemma {:induction false} CallsGoOn(r: Run, from: Run, calls: seq<Call>, i: nat)
    requires Fresh(calls) && Extends(r, from) && i < |calls|
    ensures var s, t := After(from, calls), After(r, calls);
      |s.calls| == |t.calls| == |calls| && s.calls[i].key == t.calls[i].key == calls[i].key &&
      Stage(s.calls[i].pc) <= Stage(t.calls[i].pc) && s.stats.Keys <= t.stats.Keys
  {
    KeyStays(from, calls, i);
    KeyStays(r, calls, i);
    if r != from {
      CallsGoOn(r.before, from, calls, i);
      StepGoesOn(After(r.before, calls), r.i, i);
    }
  }

  // While a call stays between its location and its count, nothing moves.
  lemma {:induction false} HolderStays(r: Run, from: Run, calls: seq<Call>, h: nat)
    requires Fresh(calls) && Extends(r, from) && h < |calls|
    requires |After(from, calls).calls| == |calls| && After(from, calls).calls[h].pc == Located
    requires |After(r, calls).calls| == |calls| && After(r, calls).calls[h].pc == Located
    ensures After(r, calls) == After(from, calls)
  {
    if r != from {
      CallsGoOn(r.before, from, calls, h);
      RunKeepsInv(r.before, calls);
      var s := After(r.before, calls);
      HolderStep(s, r.i, h);
      HolderStays(r.before, from, calls, h);
    }
  }

  lemma HolderStep(s: State, i: nat, h: nat)
    requires Locked(s) && Known(s) && h < |s.calls| && Stage(s.calls[h].pc) >= STORED
    requires Move(s, i).calls[h].pc == Located
    ensures s.calls[h].pc == Located && Move(s, i) == s
  {
  }

  // ----- one failure's record -----

  ghost predicate AllSame(a: seq<Call>, x: nat, b: seq<Call>, y: nat, key: string)
    requires |a| == |b|
  {
    forall i :: 0 <= i < |a| && a[i].key == key ==> (Past(a[i], x) <==> Past(b[i], y))
  }

  lemma {:induction false} RecordNumbers(r: Run, calls: seq<Call>, key: string)
    requires Fresh(calls) && key in After(r, calls).stats
    ensures var s := After(r, calls);
      |s.calls| == |calls| && s.stats[key].count == PastBelow(s.calls, |calls|, key, COUNTED) &&
      Sum(s.stats[key].locations) == PastBelow(s.calls, |calls|, key, STORED)
  {
    RunCounting(r, calls, key);
    RunKeepsInv(r, calls);
  }

  // Locations read at one moment and a count read later agree exactly if they cover the same calls.
  lemma RecordAgrees(calls: seq<Call>, l: Run, c: Run, key: string)
    requires Fresh(calls) && Extends(c, l) && key in After(l, calls).stats && key in After(c, calls).stats
    requires |After(l, calls).calls| == |After(c, calls).calls| == |calls|
    ensures After(c, calls).stats[key].count == Sum(After(l, calls).stats[key].locations) <==>
      AllSame(After(l, calls).calls, STORED, After(c, calls).calls, COUNTED, key)
  {
    var s, t, n := After(l, calls), After(c, calls), |calls|;
    RecordNumbers(l, calls, key);
    RecordNumbers(c, calls, key);
    forall i | 0 <= i < n
      ensures s.calls[i].key == t.calls[i].key && Stage(s.calls[i].pc) <= Stage(t.calls[i].pc)
    {
      CallsGoOn(c, l, calls, i);
    }
    if h: nat :| h < n && s.calls[h].pc == Located && t.calls[h].pc == Located && s.calls[h].key == key {
      HolderStays(c, l, calls, h);
      PastCompares(t.calls, COUNTED, t.calls, STORED, n, key);
    } else {
      PastCompares(s.calls, STORED, t.calls, COUNTED, n, key);
    }
  }

  // ----- the total -----

  lemma {:induction false} SumsCompare(m: map<string, int>, n: map<string, int>)
    requires m.Keys == n.Keys && forall k :: k in m ==> m[k] <= n[k]
    ensures Sum(m) <= Sum(n)
    ensures Sum(m) == Sum(n) <==> forall k :: k in m ==> m[k] == n[k]
    decreases |m|
  {
    if m == map[] {
      assert n == map[];
    } else {
      var k := Pick(m);
      SumWithout(n, k);
      SumsCompare(m - {k}, n - {k});
      assert forall j :: j in m ==> j == k || j in m - {k};
    }
  }

  ghost function PastEach(calls: seq<Call>, k: nat, keys: set<string>, stage: nat): map<string, int>
    requires k <= |calls|
  {
    map key | key in keys :: PastBelow(calls, k, key, stage)
  }

  lemma {:induction false} SumOfNothing(m: map<string, int>)
    requires forall k :: k in m ==> m[k] == 0
    ensures Sum(m) == 0
    decreases |m|
  {
    if m != map[] {
      SumOfNothing(m - {Pick(m)});
    }
  }

  lemma EachCountsOne(calls: seq<Call>, k: nat, keys: set<string>)
    requires 0 < k <= |calls| && (InTotal(calls[k - 1]) ==> calls[k - 1].key in keys)
    ensures Sum(PastEach(calls, k, keys, TOTALLED)) ==
      Sum(PastEach(calls, k - 1, keys, TOTALLED)) + if InTotal(calls[k - 1]) then 1 else 0
  {
    var c := calls[k - 1];
    var now, before := PastEach(calls, k, keys, TOTALLED), PastEach(calls, k - 1, keys, TOTALLED);
    if InTotal(c) {
      SumUpdate(before, c.key, before[c.key] + 1);
      assert now == before[c.key := before[c.key] + 1];
    } else {
      assert now == before;
    }
  }

  // Each call in the total belongs to one failure.
  lemma {:induction false} TotalByKey(calls: seq<Call>, k: nat, keys: set<string>)
    requires k <= |calls| && forall i :: 0 <= i < k && InTotal(calls[i]) ==> calls[i].key in keys
    ensures Sum(PastEach(calls, k, keys, TOTALLED)) == TotalBelow(calls, k)
  {
    var now := PastEach(calls, k, keys, TOTALLED);
    if k == 0 {
      SumOfNothing(now);
    } else {
      TotalByKey(calls, k - 1, keys);
      EachCountsOne(calls, k, keys);
    }
  }

  lemma {:induction false} NoneIsPast(calls: seq<Call>, k: nat, key: string, stage: nat, i: nat)
    requires i < k <= |calls| && PastBelow(calls, k, key, stage) == 0
    ensures calls[i].key == key ==> !Past(calls[i], stage)
  {
    if i < k - 1 {
      NoneIsPast(calls, k - 1, key, stage, i);
    }
  }

  // ----- the copy -----

  // When the locations of a failure are read, and when its count
  datatype Reading = Reading(locations: Run, count: Run)

  // The total is read at `start`; the failures known then are all read later, others may be.
  ghost predicate Copying(calls: seq<Call>, start: Run, copied: map<string, Reading>)
  {
    After(start, calls).stats.Keys <= copied.Keys &&
    forall k :: k in copied ==>
      Extends(copied[k].locations, start) && Extends(copied[k].count, copied[k].locations) &&
      k in After(copied[k].locations, calls).stats && k in After(copied[k].count, calls).stats
  }

  ghost function CopiedLocations(calls: seq<Call>, copied: map<string, Reading>, k: string): map<string, int>
    requires k in copied && k in After(copied[k].locations, calls).stats
  {
    After(copied[k].locations, calls).stats[k].locations
  }

  ghost function CopiedCounts(calls: seq<Call>, copied: map<string, Reading>): map<string, int>
    requires forall k :: k in copied ==> k in After(copied[k].count, calls).stats
  {
    map k | k in copied :: After(copied[k].count, calls).stats[k].count
  }

  ghost predicate CopyBalanced(calls: seq<Call>, start: Run, copied: map<string, Reading>)
    requires Copying(calls, start, copied)
  {
    After(start, calls).errors == Sum(CopiedCounts(calls, copied)) &&
    forall k :: k in copied ==> CopiedCounts(calls, copied)[k] == Sum(CopiedLocations(calls, copied, k))
  }

  // Whether the three reads that could see a call of this failure all see it or all miss it
  ghost predicate SeenAlike(calls: seq<Call>, start: Run, reading: Reading, key: string)
    requires |After(start, calls).calls| == |After(reading.locations, calls).calls|
    requires |After(start, calls).calls| == |After(reading.count, calls).calls|
  {
    AllSame(After(start, calls).calls, TOTALLED, After(reading.count, calls).calls, COUNTED, key) &&
    AllSame(After(reading.locations, calls).calls, STORED, After(reading.count, calls).calls, COUNTED, key)
  }

  lemma TotalsCompare(calls: seq<Call>, start: Run, c: Run, key: string)
    requires Fresh(calls) && Extends(c, start) && key in After(c, calls).stats
    requires |After(start, calls).calls| == |After(c, calls).calls| == |calls|
    ensures var seen := PastBelow(After(start, calls).calls, |calls|, key, TOTALLED);
      seen <= After(c, calls).stats[key].count &&
      (seen == After(c, calls).stats[key].count <==>
        AllSame(After(start, calls).calls, TOTALLED, After(c, calls).calls, COUNTED, key))
  {
    RecordNumbers(c, calls, key);
    forall i | 0 <= i < |calls|
      ensures After(start, calls).calls[i].key == After(c, calls).calls[i].key
      ensures Stage(After(start, calls).calls[i].pc) <= Stage(After(c, calls).calls[i].pc)
    {
      CallsGoOn(c, start, calls, i);
    }
    PastCompares(After(start, calls).calls, TOTALLED, After(c, calls).calls, COUNTED, |calls|, key);
  }

  lemma {:induction false} ExtendsOn(t: Run, s: Run, r: Run)
    requires Extends(t, s) && Extends(s, r)
    ensures Extends(t, r)
  {
    if t != s {
      ExtendsOn(t.before, s, r);
    }
  }

  lemma TotalIsOfKnown(calls: seq<Call>, start: Run, keys: set<string>)
    requires Fresh(calls) && After(start, calls).stats.Keys <= keys
    ensures |After(start, calls).calls| == |calls|
    ensures After(start, calls).errors == Sum(PastEach(After(start, calls).calls, |calls|, keys, TOTALLED))
  {
    var s := After(start, calls);
    RunKeepsInv(start, calls);
    forall i | 0 <= i < |calls| && InTotal(s.calls[i]) ensures s.calls[i].key in keys {
      RunCounting(start, calls, s.calls[i].key);
      if s.calls[i].key !in s.stats {
        NoneIsPast(s.calls, |calls|, s.calls[i].key, STORED, i);
      }
    }
    TotalByKey(s.calls, |calls|, keys);
  }

  /** The copy is balanced if and only if each call shows in all three numbers it adds to, or in none. */
  lemma CopyIsBalanced(calls: seq<Call>, start: Run, copied: map<string, Reading>)
    requires Fresh(calls) && Copying(calls, start, copied)
    ensures |After(start, calls).calls| == |calls| && forall k :: k in copied ==>
      |After(copied[k].locations, calls).calls| == |After(copied[k].count, calls).calls| == |calls|
    ensures CopyBalanced(calls, start, copied) <==>
      forall k :: k in copied ==> SeenAlike(calls, start, copied[k], k)
  {
    var s, counts := After(start, calls), CopiedCounts(calls, copied);
    TotalIsOfKnown(calls, start, copied.Keys);
    var seen := PastEach(s.calls, |calls|, copied.Keys, TOTALLED);
    forall k | k in copied
      ensures |After(copied[k].locations, calls).calls| == |After(copied[k].count, calls).calls| == |calls|
      ensures seen[k] <= counts[k]
      ensures seen[k] == counts[k] && counts[k] == Sum(CopiedLocations(calls, copied, k)) <==>
        SeenAlike(calls, start, copied[k], k)
    {
      RunKeepsInv(copied[k].locations, calls);
      RunKeepsInv(copied[k].count, calls);
      ExtendsOn(copied[k].count, copied[k].locations, start);
      TotalsCompare(calls, start, copied[k].count, k);
      RecordAgrees(calls, copied[k].locations, copied[k].count, k);
    }
    SumsCompare(seen, counts);
  }

  lemma TwoSteps(key: string, location: string)
    ensures var calls := [Call(key, location, Outside)];
      After(Next(Next(Begin, 0), 0), calls) ==
      State([Call(key, location, Counted)], map[key := Stat(1, map[location := 1])], 0, Some(0))
  {
    var calls := [Call(key, location, Outside)];
    var one := State([Call(key, location, Entered)], map[], 0, Some(0));
    assert After(Begin, calls) == Init(calls);
    assert After(Next(Begin, 0), calls) == Move(Init(calls), 0) == one;
    assert After(Next(Next(Begin, 0), 0), calls) == Move(one, 0);
  }

  // Made when one call has stored its new failure and not yet added it to the total, a copy is not.
  lemma CopyIsUnbalanced(key: string, location: string)
    ensures var calls, r := [Call(key, location, Outside)], Next(Next(Begin, 0), 0);
      var copied := map[key := Reading(r, r)];
      Fresh(calls) && Copying(calls, r, copied) && !CopyBalanced(calls, r, copied)
  {
    var calls, r := [Call(key, location, Outside)], Next(Next(Begin, 0), 0);
    var copied := map[key := Reading(r, r)];
    TwoSteps(key, location);
    var s := After(r, calls);
    assert s.stats.Keys == {key} && Extends(r, r);
    CopyIsBalanced(calls, r, copied);
    assert s.calls[0].key == key && Past(s.calls[0], COUNTED) && !Past(s.calls[0], TOTALLED);
    assert key in copied && !SeenAlike(calls, r, copied[key], key);
  }
}
