/**
 Calls of Process running concurrently: each updates the report in several steps, holding its lock. What
 they leave is what the same calls leave one after the other.
 */
module ReportRuns {
  import opened Text
  import opened Report

  datatype Stat = Stat(count: int, locations: map<string, int>)

  // How far a call is: before the lock; inside; its location, its count, the total counted; the lock released
  datatype Pc = Outside | Entered | Located | Counted | Totalled | Left

  // A call, once it knows which failure to record and where
  datatype Call = Call(key: string, location: string, pc: Pc)

  datatype State = State(calls: seq<Call>, stats: map<string, Stat>, errors: int, holder: Option<nat>)

  function Init(calls: seq<Call>): State
  {
    State(calls, map[], 0, None)
  }

  // Whether call i can take its next step: only the first step has to wait, for the lock.
  predicate Enabled(s: State, i: nat)
  {
    i < |s.calls| && s.calls[i].pc != Left && (s.calls[i].pc == Outside ==> s.holder == None)
  }

  function AddLocation(s: Stat, location: string): Stat
  {
    s.(locations := s.locations[location := Get(s.locations, location) + 1])
  }

  // A new failure gets its record at once; a known one first its location, then its count.
  function Step(s: State, i: nat): State
    requires Enabled(s, i) && (s.calls[i].pc == Located ==> s.calls[i].key in s.stats)
  {
    var c := s.calls[i];
    match c.pc
    case Outside => s.(calls := s.calls[i := c.(pc := Entered)], holder := Some(i))
    case Entered =>
      if c.key in s.stats then
        s.(calls := s.calls[i := c.(pc := Located)], stats := s.stats[c.key := AddLocation(s.stats[c.key], c.location)])
      else
        s.(calls := s.calls[i := c.(pc := Counted)], stats := s.stats[c.key := Stat(1, map[c.location := 1])])
    case Located =>
      var stat := s.stats[c.key];
      s.(calls := s.calls[i := c.(pc := Counted)], stats := s.stats[c.key := stat.(count := stat.count + 1)])
    case Counted => s.(calls := s.calls[i := c.(pc := Totalled)], errors := s.errors + 1)
    case Totalled => s.(calls := s.calls[i := c.(pc := Left)], holder := None)
    case Left => s
  }

  // ----- what the report must say -----

  // Calls that have stored a location of a failure, and calls that have been added to the total
  predicate Stored(c: Call, key: string, location: string)
  {
    c.key == key && c.location == location && (c.pc == Located || c.pc == Counted || c.pc == Totalled || c.pc == Left)
  }

  predicate InTotal(c: Call)
  {
    c.pc == Totalled || c.pc == Left
  }

  function StoredBelow(calls: seq<Call>, k: nat, key: string, location: string): nat
    requires k <= |calls|
  {
    if k == 0 then 0
    else StoredBelow(calls, k - 1, key, location) + if Stored(calls[k - 1], key, location) then 1 else 0
  }

  function TotalBelow(calls: seq<Call>, k: nat): nat
    requires k <= |calls|
  {
    if k == 0 then 0 else TotalBelow(calls, k - 1) + if InTotal(calls[k - 1]) then 1 else 0
  }

  lemma {:induction false} StoredChanges(calls: seq<Call>, i: nat, c: Call, k: nat, key: string, location: string)
    requires i < |calls| && k <= |calls|
    ensures StoredBelow(calls[i := c], k, key, location) - StoredBelow(calls, k, key, location) ==
            if i >= k || Stored(c, key, location) == Stored(calls[i], key, location) then 0
            else if Stored(c, key, location) then 1 else -1
  {
    if k > 0 {
      StoredChanges(calls, i, c, k - 1, key, location);
    }
  }

  lemma {:induction false} TotalChanges(calls: seq<Call>, i: nat, c: Call, k: nat)
    requires i < |calls| && k <= |calls|
    ensures TotalBelow(calls[i := c], k) - TotalBelow(calls, k) ==
            if i >= k || InTotal(c) == InTotal(calls[i]) then 0 else if InTotal(c) then 1 else -1
  {
    if k > 0 {
      TotalChanges(calls, i, c, k - 1);
    }
  }

  ghost function Counts(stats: map<string, Stat>): map<string, int>
  {
    map k | k in stats :: stats[k].count
  }

  function LocationCount(stats: map<string, Stat>, key: string, location: string): int
  {
    if key in stats then Get(stats[key].locations, location) else 0
  }

  // ----- the invariant -----

  ghost predicate Locked(s: State)
  {
    (s.holder.Some? ==> s.holder.value < |s.calls|) &&
    forall i :: 0 <= i < |s.calls| ==>
      ((s.calls[i].pc != Outside && s.calls[i].pc != Left) <==> s.holder == Some(i))
  }

  // What the holder of the lock has yet to do
  function PendingCount(s: State, key: string): int
  {
    if s.holder.Some? && s.holder.value < |s.calls| && s.calls[s.holder.value].pc == Located &&
      s.calls[s.holder.value].key == key
    then 1 else 0
  }

  function PendingTotal(s: State): int
  {
    if s.holder.Some? && s.holder.value < |s.calls| && s.calls[s.holder.value].pc == Counted then 1 else 0
  }

  ghost predicate CountsRight(s: State)
  {
    forall k :: k in s.stats ==> s.stats[k].count + PendingCount(s, k) == Sum(s.stats[k].locations)
  }

  ghost predicate TotalRight(s: State)
  {
    s.errors + PendingTotal(s) == Sum(Counts(s.stats)) && s.errors == TotalBelow(s.calls, |s.calls|)
  }

  // Every location's number is the number of calls that stored it: no update is lost.
  ghost predicate NothingLost(s: State)
  {
    forall key, location :: LocationCount(s.stats, key, location) == StoredBelow(s.calls, |s.calls|, key, location)
  }

  ghost predicate Known(s: State)
  {
    forall i :: 0 <= i < |s.calls| && s.calls[i].pc == Located ==> s.calls[i].key in s.stats
  }

  ghost predicate Inv(s: State)
  {
    Locked(s) && Known(s) && CountsRight(s) && TotalRight(s) && NothingLost(s)
  }

  lemma StepLocked(s: State, i: nat)
    requires Locked(s) && Known(s) && Enabled(s, i)
    ensures Locked(Step(s, i)) && Known(Step(s, i))
  {
  }

  lemma StepCounts(s: State, i: nat)
    requires Locked(s) && Known(s) && CountsRight(s) && Enabled(s, i)
    ensures CountsRight(Step(s, i))
  {
    var c := s.calls[i];
    if c.pc == Entered {
      if c.key in s.stats {
        SumUpdate(s.stats[c.key].locations, c.location, Get(s.stats[c.key].locations, c.location) + 1);
      } else {
        SumUpdate(map[], c.location, 1);
      }
    }
  }

  lemma CountsUpdate(stats: map<string, Stat>, key: string, stat: Stat)
    ensures Sum(Counts(stats[key := stat])) == Sum(Counts(stats)) - Get(Counts(stats), key) + stat.count
  {
    assert Counts(stats[key := stat]) == Counts(stats)[key := stat.count];
    SumUpdate(Counts(stats), key, stat.count);
  }

  lemma StepTotal(s: State, i: nat)
    requires Locked(s) && Known(s) && TotalRight(s) && Enabled(s, i)
    ensures TotalRight(Step(s, i))
  {
    var t := Step(s, i);
    var key := s.calls[i].key;
    TotalChanges(s.calls, i, t.calls[i], |s.calls|);
    if s.calls[i].pc == Entered || s.calls[i].pc == Located {
      CountsUpdate(s.stats, key, t.stats[key]);
    }
  }

  lemma StepNothingLost(s: State, i: nat)
    requires Known(s) && NothingLost(s) && Enabled(s, i)
    ensures NothingLost(Step(s, i))
  {
    var t := Step(s, i);
    forall key, location
      ensures LocationCount(t.stats, key, location) == StoredBelow(t.calls, |t.calls|, key, location)
    {
      assert LocationCount(s.stats, key, location) == StoredBelow(s.calls, |s.calls|, key, location);
      StoredChanges(s.calls, i, t.calls[i], |s.calls|, key, location);
    }
  }

  // ----- every interleaving -----

  ghost predicate Fresh(calls: seq<Call>)
  {
    forall i :: 0 <= i < |calls| ==> calls[i].pc == Outside
  }

  // The calls that took a step, the latest outermost
  datatype Run = Begin | Next(before: Run, i: nat)

  ghost function After(r: Run, calls: seq<Call>): State
  {
    match r
    case Begin => Init(calls)
    case Next(before, i) => Move(After(before, calls), i)
  }

  // Call i takes its next step, if it can.
  ghost function Move(s: State, i: nat): State
  {
    if Enabled(s, i) && Known(s) then Step(s, i) else s
  }

  lemma {:induction false} NoneYet(calls: seq<Call>, k: nat, key: string, location: string)
    requires k <= |calls| && Fresh(calls)
    ensures StoredBelow(calls, k, key, location) == 0 && TotalBelow(calls, k) == 0
  {
    if k > 0 {
      NoneYet(calls, k - 1, key, location);
    }
  }

  lemma {:induction false} RunKeepsInv(r: Run, calls: seq<Call>)
    requires Fresh(calls)
    ensures Inv(After(r, calls)) && |After(r, calls).calls| == |calls|
  {
    match r
    case Begin =>
      NoneYet(calls, |calls|, "", "");
      forall key, location ensures StoredBelow(calls, |calls|, key, location) == 0 {
        NoneYet(calls, |calls|, key, location);
      }
      assert Counts(map[]) == map[];
    case Next(before, i) =>
      RunKeepsInv(before, calls);
      var s := After(before, calls);
      if Enabled(s, i) {
        StepLocked(s, i);
        StepCounts(s, i);
        StepTotal(s, i);
        StepNothingLost(s, i);
      }
  }

  // Whenever the lock is free, the totals agree and are those of the calls that have finished.
  lemma FreeReportIsRight(r: Run, calls: seq<Call>)
    requires Fresh(calls)
    requires After(r, calls).holder == None
    ensures var s := After(r, calls);
      s.errors == Sum(Counts(s.stats)) && s.errors == TotalBelow(s.calls, |s.calls|) &&
      (forall k :: k in s.stats ==> s.stats[k].count == Sum(s.stats[k].locations)) &&
      (forall key, location ::
        LocationCount(s.stats, key, location) == StoredBelow(s.calls, |s.calls|, key, location)) &&
      forall i :: 0 <= i < |s.calls| ==> s.calls[i].pc == Outside || s.calls[i].pc == Left
  {
    RunKeepsInv(r, calls);
  }

  predicate Inside(c: Call)
  {
    c.pc != Outside && c.pc != Left
  }

  // No two calls are inside at once, and the one that holds the lock can always go on.
  lemma {:induction false} OneInside(r: Run, calls: seq<Call>, i: nat, j: nat)
    requires Fresh(calls)
    requires i < |After(r, calls).calls| && j < |After(r, calls).calls|
    ensures Inside(After(r, calls).calls[i]) && Inside(After(r, calls).calls[j]) ==> i == j
    ensures After(r, calls).holder.Some? ==> Enabled(After(r, calls), After(r, calls).holder.value)
  {
    RunKeepsInv(r, calls);
  }

  // ----- one call from beginning to end -----

  ghost function Moves(s: State, i: nat, n: nat): State
  {
    if n == 0 then s else Move(Moves(s, i, n - 1), i)
  }

  // A call for a known failure takes five steps, one for a new failure four.
  ghost function Alone(s: State, i: nat): State
  {
    Moves(s, i, 5)
  }

  // What a failure's record becomes by one more occurrence
  function Recorded(stats: map<string, Stat>, c: Call): Stat
  {
    var stat := AddLocation(if c.key in stats then stats[c.key] else Stat(0, map[]), c.location);
    stat.(count := stat.count + 1)
  }

  lemma FiveMoves(s: State, i: nat)
    ensures Moves(s, i, 1) == Move(s, i) && Moves(s, i, 2) == Move(Moves(s, i, 1), i)
    ensures Moves(s, i, 3) == Move(Moves(s, i, 2), i) && Moves(s, i, 4) == Move(Moves(s, i, 3), i)
    ensures Alone(s, i) == Move(Moves(s, i, 4), i)
  {
    assert Moves(s, i, 0) == s;
  }

  // Call i is inside, at `pc`, over these records and this total.
  ghost function At(s: State, i: nat, pc: Pc, stats: map<string, Stat>, errors: int): State
    requires i < |s.calls|
  {
    State(s.calls[i := s.calls[i].(pc := pc)], stats, errors, if pc == Left then None else Some(i))
  }

  // From where the count is right, two more steps
  lemma EndsFromCounted(s: State, i: nat, stats: map<string, Stat>)
    requires i < |s.calls| && Locked(At(s, i, Counted, stats, s.errors)) && Known(At(s, i, Counted, stats, s.errors))
    ensures Move(At(s, i, Counted, stats, s.errors), i) == At(s, i, Totalled, stats, s.errors + 1)
    ensures Move(At(s, i, Totalled, stats, s.errors + 1), i) == At(s, i, Left, stats, s.errors + 1)
    ensures Move(At(s, i, Left, stats, s.errors + 1), i) == At(s, i, Left, stats, s.errors + 1)
  {
    var t := At(s, i, Counted, stats, s.errors);
    StepLocked(t, i);
    assert Move(t, i) == At(s, i, Totalled, stats, s.errors + 1);
  }

  lemma AloneIs(s: State, i: nat)
    requires Locked(s) && Known(s) && Enabled(s, i) && s.calls[i].pc == Outside
    ensures var c := s.calls[i];
      Alone(s, i) == State(s.calls[i := c.(pc := Left)], s.stats[c.key := Recorded(s.stats, c)], s.errors + 1, None)
    ensures Moves(s, i, 1).holder == Moves(s, i, 2).holder == Moves(s, i, 3).holder == Some(i)
    ensures Moves(s, i, 4).holder == Some(i) || Moves(s, i, 4) == Alone(s, i)
  {
    var c := s.calls[i];
    var stats := s.stats[c.key := Recorded(s.stats, c)];
    FiveMoves(s, i);
    var one := At(s, i, Entered, s.stats, s.errors);
    assert Move(s, i) == one;
    StepLocked(s, i);
    StepLocked(one, i);
    if c.key in s.stats {
      var two := At(s, i, Located, s.stats[c.key := AddLocation(s.stats[c.key], c.location)], s.errors);
      assert Move(one, i) == two;
      StepLocked(two, i);
      assert Move(two, i) == At(s, i, Counted, stats, s.errors);
    } else {
      assert Move(one, i) == At(s, i, Counted, stats, s.errors);
    }
    EndsFromCounted(s, i, stats);
  }

  // ----- one call is one call of the method -----

  // A report on the heap has exactly these records.
  ghost predicate Shows(h: Manager, stats: map<string, Stat>)
    requires h.Valid()
    reads h, h.stats
  {
    h.failures.Keys == stats.Keys &&
    forall k :: k in stats ==> h.failures[k].count == stats[k].count && h.failures[k].locations == stats[k].locations
  }

  lemma PlusOne(sum: map<string, int>, known: map<string, int>, location: string)
    requires IsPlus(sum, known, map[location := 1])
    ensures sum == known[location := Get(known, location) + 1]
  {
    var one := known[location := Get(known, location) + 1];
    assert forall l :: l in sum <==> l in one;
    forall l | l in sum ensures sum[l] == one[l] {
      assert Get(sum, l) == Get(known, l) + Get(map[location := 1], l);
    }
  }

  lemma ShowsMore(h: Manager, was: map<string, Stat>, c: Call, known: map<string, int>, count: int)
    requires h.Valid() && h.failures.Keys == was.Keys + {c.key}
    requires forall k :: k in was && k != c.key ==>
      h.failures[k].count == was[k].count && h.failures[k].locations == was[k].locations
    requires known == (if c.key in was then was[c.key].locations else map[])
    requires count == if c.key in was then was[c.key].count else 0
    requires IsPlus(h.failures[c.key].locations, known, map[c.location := 1]) && h.failures[c.key].count == count + 1
    ensures Shows(h, was[c.key := Recorded(was, c)])
  {
    PlusOne(h.failures[c.key].locations, known, c.location);
  }

  method RecordOne(h: Manager, key: string, location: string, ghost was: map<string, Stat>)
    requires h.Valid() && Shows(h, was)
    modifies h`errors, h`failures, h`stats, h.stats
    ensures h.Valid() && fresh(h.stats - old(h.stats)) && h.errors == old(h.errors) + 1
    ensures Shows(h, was[key := Recorded(was, Call(key, location, Outside))])
  {
    ghost var known, count := h.LocationsOf(key), Get(h.Counts(), key);
    assert count == if key in was then was[key].count else 0;
    SumUpdate(map[], location, 1);
    h.AddFailure(key, map[location := 1]);
    ShowsMore(h, was, Call(key, location, Outside), known, count);
  }

  /** Recording one failure does to a report what one call does from beginning to end, alone. */
  method AddFailureIsAlone(h: Manager, ghost s: State, key: string, location: string, ghost i: nat)
    requires h.Valid() && Shows(h, s.stats) && h.errors == s.errors
    requires Locked(s) && Known(s) && Enabled(s, i) && s.calls[i] == Call(key, location, Outside)
    modifies h`errors, h`failures, h`stats, h.stats
    ensures h.Valid() && fresh(h.stats - old(h.stats))
    ensures Shows(h, Alone(s, i).stats) && h.errors == Alone(s, i).errors
  {
    AloneIs(s, i);
    RecordOne(h, key, location, s.stats);
  }

  // ----- every interleaving is some order of whole calls -----

  ghost function Serial(calls: seq<Call>, order: seq<nat>): State
  {
    if order == [] then Init(calls) else Alone(Serial(calls, order[..|order| - 1]), order[|order| - 1])
  }

  // The calls of `order` have run, the others not begun.
  ghost predicate Between(s: State, calls: seq<Call>, order: seq<nat>)
  {
    |s.calls| == |calls| && s.holder == None && Locked(s) && Known(s) &&
    (forall i :: 0 <= i < |calls| ==> s.calls[i] == calls[i].(pc := if i in order then Left else Outside)) &&
    forall i :: i in order ==> i < |calls|
  }

  ghost predicate EachOnce(order: seq<nat>)
  {
    forall i, j :: 0 <= i < j < |order| ==> order[i] != order[j]
  }

  lemma {:induction false} SerialIsBetween(calls: seq<Call>, order: seq<nat>)
    requires Fresh(calls) && EachOnce(order) && forall i :: i in order ==> i < |calls|
    ensures Between(Serial(calls, order), calls, order)
  {
    if order != [] {
      var front, i := order[..|order| - 1], order[|order| - 1];
      assert order == front + [i] && i !in front;
      assert i in order && forall j :: j in front ==> j in order;
      SerialIsBetween(calls, front);
      BetweenNext(Serial(calls, front), calls, front, i);
    }
  }

  lemma BetweenNext(s: State, calls: seq<Call>, front: seq<nat>, i: nat)
    requires Fresh(calls) && Between(s, calls, front) && i < |calls| && i !in front
    ensures Between(Alone(s, i), calls, front + [i])
  {
    AloneIs(s, i);
  }

  // Where a run stands: whole calls in some order, and `n` steps of the one that holds the lock
  ghost predicate Stands(s: State, calls: seq<Call>, order: seq<nat>, n: nat)
  {
    EachOnce(order) && (forall i :: i in order ==> i < |calls|) &&
    (s.holder.None? ==> s == Serial(calls, order)) &&
    (s.holder.Some? ==>
      s.holder.value < |calls| && s.holder.value !in order && 0 < n < 5 &&
      s == Moves(Serial(calls, order), s.holder.value, n))
  }

  // After a step of the holder it still holds the lock, or its call is whole.
  lemma HolderMoves(s: State, calls: seq<Call>, order: seq<nat>, n: nat) returns (next: seq<nat>)
    requires Fresh(calls) && Stands(s, calls, order, n) && s.holder.Some?
    ensures Stands(Move(s, s.holder.value), calls, next, n + 1)
  {
    var i, base := s.holder.value, Serial(calls, order);
    SerialIsBetween(calls, order);
    AloneIs(base, i);
    assert Move(s, i) == Moves(base, i, n + 1);
    next := order;
    if Move(s, i).holder.None? {
      next := order + [i];
      assert next[..|order|] == order;
    }
  }

  lemma FirstMove(calls: seq<Call>, order: seq<nat>, i: nat)
    requires Fresh(calls) && Stands(Serial(calls, order), calls, order, 0) && Enabled(Serial(calls, order), i)
    ensures Stands(Move(Serial(calls, order), i), calls, order, 1)
  {
    SerialIsBetween(calls, order);
    AloneIs(Serial(calls, order), i);
    FiveMoves(Serial(calls, order), i);
  }

  lemma {:induction false} RunStands(r: Run, calls: seq<Call>) returns (order: seq<nat>, n: nat)
    requires Fresh(calls)
    ensures Stands(After(r, calls), calls, order, n)
  {
    order, n := [], 0;
    match r
    case Begin =>
    case Next(before, i) =>
      order, n := RunStands(before, calls);
      RunKeepsInv(before, calls);
      var s := After(before, calls);
      if Enabled(s, i) {
        if s.holder.None? {
          FirstMove(calls, order, i);
          n := 1;
        } else {
          order := HolderMoves(s, calls, order, n);
          n := n + 1;
        }
      }
  }

  /** Whenever the lock is free, the report is that of the finished calls, each made alone, in some order. */
  lemma FreeReportIsSerial(r: Run, calls: seq<Call>) returns (order: seq<nat>)
    requires Fresh(calls) && After(r, calls).holder == None
    ensures After(r, calls) == Serial(calls, order) && |After(r, calls).calls| == |calls| && EachOnce(order)
    ensures forall i :: 0 <= i < |calls| ==> (i in order <==> After(r, calls).calls[i].pc == Left)
    ensures forall i :: i in order ==> i < |calls|
  {
    var n;
    order, n := RunStands(r, calls);
    SerialIsBetween(calls, order);
  }

  method ReplayNext(h: Manager, calls: seq<Call>, ghost front: seq<nat>, i: nat)
    requires Fresh(calls) && EachOnce(front) && (forall j :: j in front ==> j < |calls|) && i < |calls| && i !in front
    requires h.Valid() && Shows(h, Serial(calls, front).stats) && h.errors == Serial(calls, front).errors
    modifies h`errors, h`failures, h`stats, h.stats
    ensures h.Valid() && fresh(h.stats - old(h.stats))
    ensures Shows(h, Serial(calls, front + [i]).stats) && h.errors == Serial(calls, front + [i]).errors
  {
    assert (front + [i])[..|front|] == front;
    SerialIsBetween(calls, front);
    AddFailureIsAlone(h, Serial(calls, front), calls[i].key, calls[i].location, i);
  }

  /** Recording these calls' failures one after the other leaves that report. */
  method Replay(h: Manager, calls: seq<Call>, order: seq<nat>)
    requires h.Valid() && h.failures == map[] && h.errors == 0
    requires Fresh(calls) && EachOnce(order) && forall i :: i in order ==> i < |calls|
    modifies h`errors, h`failures, h`stats, h.stats
    ensures h.Valid() && Shows(h, Serial(calls, order).stats) && h.errors == Serial(calls, order).errors
  {
    ghost var was := h.stats;
    for k := 0 to |order|
      invariant h.Valid() && fresh(h.stats - was)
      invariant Shows(h, Serial(calls, order[..k]).stats) && h.errors == Serial(calls, order[..k]).errors
    {
      assert order[..k + 1] == order[..k] + [order[k]] && order[k] in order && order[k] !in order[..k];
      assert forall j :: j in order[..k] ==> j in order;
      ReplayNext(h, calls, order[..k], order[k]);
    }
    assert order[..|order|] == order;
  }
}
