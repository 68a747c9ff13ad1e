/**
 Deleting machines concurrently: one goroutine for each, a channel that holds as many messages as
 there are machines, a collector that receives that many and then closes the channel.
 */
module ScaleDown {
  import opened Text
  import opened Deletion

  datatype Failure = Failure(name: string, error: string)

  // A goroutine: the machine it deletes, its requests so far, whether it has sent its message
  datatype Worker = Worker(name: string, log: Log, sent: bool)

  // nil, or the details of a failure
  type Message = Option<Failure>

  // `taken` records the messages received, `result` is set when the function returns and closes the channel.
  datatype State = State(workers: seq<Worker>, started: nat, buffer: seq<Message>, taken: seq<Message>, received: nat,
        failures: seq<Failure>, closed: bool, result: Option<seq<Failure>>)

  datatype Action = Spawn | Answer(w: nat, reply: Reply) | Send(w: nat) | Receive | Return

  function Init(names: seq<string>): State
  {
    State(seq(|names|, i requires 0 <= i < |names| => Worker(names[i], Empty, false)), 0, [], [], 0, [], false, None)
  }

  function PhaseOf(w: Worker, split: BlobSplitter): Phase
  {
    Reached(w.log, split)
  }

  function MessageOf(w: Worker, split: BlobSplitter): Message
  {
    match PhaseOf(w, split)
    case Ended(Some(error)) => Some(Failure(w.name, error))
    case _ => None
  }

  // ----- one step -----

  predicate Working(s: State, w: nat, split: BlobSplitter)
  {
    w < s.started <= |s.workers| && !s.workers[w].sent && Active(PhaseOf(s.workers[w], split))
  }

  predicate AtSend(s: State, w: nat, split: BlobSplitter)
  {
    w < s.started <= |s.workers| && !s.workers[w].sent && PhaseOf(s.workers[w], split).Ended?
  }

  predicate Enabled(s: State, a: Action, split: BlobSplitter)
  {
    match a
    case Spawn => s.started < |s.workers|
    case Answer(w, _) => Working(s, w, split)
    case Send(w) => AtSend(s, w, split) && |s.buffer| < |s.workers|
    case Receive => s.started == |s.workers| && s.received < |s.workers| && s.buffer != []
    case Return => s.started == |s.workers| == s.received && !s.closed
  }

  function Do(s: State, a: Action, split: BlobSplitter): State
    requires Enabled(s, a, split)
  {
    match a
    case Spawn => s.(started := s.started + 1)
    case Answer(w, reply) =>
      var it := s.workers[w];
      s.(workers := s.workers[w := it.(log := Then(it.log, RequestOf(it.name, PhaseOf(it, split)), reply))])
    case Send(w) =>
      s.(workers := s.workers[w := s.workers[w].(sent := true)], buffer := s.buffer + [MessageOf(s.workers[w], split)])
    case Receive =>
      var m := s.buffer[0];
      s.(buffer := s.buffer[1..], taken := s.taken + [m], received := s.received + 1,
        failures := if m.Some? then s.failures + [m.value] else s.failures)
    case Return =>
      s.(closed := true, result := if |s.failures| > 0 then Some(s.failures) else None)
  }

  // ----- sums over the goroutines -----

  function SentBelow(ws: seq<Worker>, k: nat): nat
    requires k <= |ws|
  {
    if k == 0 then 0 else SentBelow(ws, k - 1) + if ws[k - 1].sent then 1 else 0
  }

  // The messages of those that have sent
  ghost function SentMessages(ws: seq<Worker>, k: nat, split: BlobSplitter): multiset<Message>
    requires k <= |ws|
  {
    if k == 0 then multiset{}
    else SentMessages(ws, k - 1, split) + if ws[k - 1].sent then multiset{MessageOf(ws[k - 1], split)} else multiset{}
  }

  // A goroutine that has not sent changes: the sums change by what it then has sent.
  lemma {:induction false} SumsChange(ws: seq<Worker>, i: nat, w: Worker, k: nat, split: BlobSplitter)
    requires i < |ws| && k <= |ws| && !ws[i].sent
    ensures SentBelow(ws[i := w], k) == SentBelow(ws, k) + if i < k && w.sent then 1 else 0
    ensures SentMessages(ws[i := w], k, split) ==
            SentMessages(ws, k, split) + if i < k && w.sent then multiset{MessageOf(w, split)} else multiset{}
  {
    if k > 0 {
      SumsChange(ws, i, w, k - 1, split);
    }
  }

  lemma {:induction false} SomeUnsent(ws: seq<Worker>, k: nat)
    requires k <= |ws|
    ensures SentBelow(ws, k) <= k
    ensures SentBelow(ws, k) == k <==> forall i :: 0 <= i < k ==> ws[i].sent
  {
    if k > 0 {
      SomeUnsent(ws, k - 1);
    }
  }

  // The failures among the messages, in order
  function Failures(ms: seq<Message>): seq<Failure>
  {
    if ms == [] then []
    else
      var last := ms[|ms| - 1];
      Failures(ms[..|ms| - 1]) + if last.Some? then [last.value] else []
  }

  lemma {:induction false} FailuresCount(ms: seq<Message>, f: Failure)
    ensures multiset(Failures(ms))[f] == multiset(ms)[Some(f)]
  {
    if ms != [] {
      var front := ms[..|ms| - 1];
      FailuresCount(front, f);
      assert ms == front + [ms[|ms| - 1]];
    }
  }

  // ----- the invariant -----

  ghost predicate Sane(s: State, names: seq<string>, split: BlobSplitter)
  {
    |s.workers| == |names| && s.started <= |names| &&
    forall w :: 0 <= w < |names| ==>
      var it := s.workers[w];
      it.name == names[w] && Conforms(it.log, it.name, split) && (it.sent ==> PhaseOf(it, split).Ended?) &&
      (w >= s.started ==> !it.sent && it.log == Empty)
  }

  // Each message sent is in the channel or has been taken from it.
  ghost predicate Conserved(ws: seq<Worker>, taken: seq<Message>, buffer: seq<Message>, split: BlobSplitter)
  {
    SentMessages(ws, |ws|, split) == multiset(taken + buffer) && SentBelow(ws, |ws|) == |taken| + |buffer|
  }

  ghost predicate Accounted(s: State, split: BlobSplitter)
  {
    Conserved(s.workers, s.taken, s.buffer, split)
  }

  ghost predicate Collected(s: State)
  {
    |s.taken| == s.received && s.failures == Failures(s.taken) && (s.started < |s.workers| ==> s.received == 0) &&
    (s.closed ==>
      s.started == s.received == |s.workers| && s.result == if s.failures == [] then None else Some(s.failures))
  }

  ghost predicate Inv(s: State, names: seq<string>, split: BlobSplitter)
  {
    Sane(s, names, split) && Accounted(s, split) && Collected(s)
  }

  lemma InitHolds(names: seq<string>, split: BlobSplitter)
    ensures Inv(Init(names), names, split)
  {
    NoneSent(Init(names).workers, |names|, split);
  }

  lemma {:induction false} NoneSent(ws: seq<Worker>, k: nat, split: BlobSplitter)
    requires k <= |ws| && forall i :: 0 <= i < |ws| ==> !ws[i].sent
    ensures SentBelow(ws, k) == 0 && SentMessages(ws, k, split) == multiset{}
  {
    if k > 0 {
      NoneSent(ws, k - 1, split);
    }
  }

  lemma AnswerConserves(ws: seq<Worker>, taken: seq<Message>, buffer: seq<Message>, split: BlobSplitter, i: nat,
        log: Log)
    requires Conserved(ws, taken, buffer, split) && i < |ws| && !ws[i].sent
    ensures Conserved(ws[i := ws[i].(log := log)], taken, buffer, split)
  {
    SumsChange(ws, i, ws[i].(log := log), |ws|, split);
  }

  lemma SendConserves(ws: seq<Worker>, taken: seq<Message>, buffer: seq<Message>, split: BlobSplitter, i: nat)
    requires Conserved(ws, taken, buffer, split) && i < |ws| && !ws[i].sent
    ensures Conserved(ws[i := ws[i].(sent := true)], taken, buffer + [MessageOf(ws[i], split)], split)
  {
    var m := MessageOf(ws[i], split);
    SumsChange(ws, i, ws[i].(sent := true), |ws|, split);
    assert taken + (buffer + [m]) == taken + buffer + [m];
  }

  lemma ReceiveConserves(ws: seq<Worker>, taken: seq<Message>, buffer: seq<Message>, split: BlobSplitter)
    requires Conserved(ws, taken, buffer, split) && buffer != []
    ensures Conserved(ws, taken + [buffer[0]], buffer[1..], split)
  {
    assert taken + [buffer[0]] + buffer[1..] == taken + buffer;
  }

  lemma StepIsAccounted(s: State, a: Action, split: BlobSplitter)
    requires Enabled(s, a, split) && Accounted(s, split)
    ensures Accounted(Do(s, a, split), split)
  {
    match a
    case Answer(w, reply) =>
      var it := s.workers[w];
      AnswerConserves(s.workers, s.taken, s.buffer, split, w,
        Then(it.log, RequestOf(it.name, PhaseOf(it, split)), reply));
    case Send(w) => SendConserves(s.workers, s.taken, s.buffer, split, w);
    case Receive => ReceiveConserves(s.workers, s.taken, s.buffer, split);
    case _ =>
  }

  lemma StepIsCollected(s: State, a: Action, split: BlobSplitter)
    requires Enabled(s, a, split) && Collected(s)
    ensures Collected(Do(s, a, split))
  {
    var t := Do(s, a, split);
    if a.Receive? {
      assert t.taken[..|t.taken| - 1] == s.taken;
    }
  }

  lemma StepIsSane(s: State, a: Action, names: seq<string>, split: BlobSplitter)
    requires Enabled(s, a, split) && Sane(s, names, split)
    ensures Sane(Do(s, a, split), names, split)
  {
  }

  lemma StepKeeps(s: State, a: Action, names: seq<string>, split: BlobSplitter)
    requires Enabled(s, a, split) && Inv(s, names, split)
    ensures Inv(Do(s, a, split), names, split)
  {
    StepIsSane(s, a, names, split);
    StepIsAccounted(s, a, split);
    StepIsCollected(s, a, split);
  }

  // ----- every interleaving -----

  // The actions so far, the latest outermost
  datatype Run = Begin | Next(before: Run, action: Action)

  ghost function After(r: Run, names: seq<string>, split: BlobSplitter): State
  {
    match r
    case Begin => Init(names)
    case Next(before, a) =>
      var s := After(before, names, split);
      if Enabled(s, a, split) then Do(s, a, split) else s
  }

  ghost predicate Legal(r: Run, names: seq<string>, split: BlobSplitter)
  {
    r.Next? ==> Legal(r.before, names, split) && Enabled(After(r.before, names, split), r.action, split)
  }

  lemma {:induction false} RunKeepsInv(r: Run, names: seq<string>, split: BlobSplitter)
    requires Legal(r, names, split)
    ensures Inv(After(r, names, split), names, split)
  {
    match r
    case Begin => InitHolds(names, split);
    case Next(before, a) =>
      RunKeepsInv(before, names, split);
      StepKeeps(After(before, names, split), a, names, split);
  }

  lemma RoomToSend(s: State, w: nat, names: seq<string>, split: BlobSplitter)
    requires Inv(s, names, split) && AtSend(s, w, split)
    ensures |s.buffer| < |s.workers| && !s.closed
  {
    SomeUnsent(s.workers, |s.workers|);
  }

  // No send blocks, and none comes after the close.
  lemma SendsNeverBlock(r: Run, w: nat, names: seq<string>, split: BlobSplitter)
    requires Legal(r, names, split) && AtSend(After(r, names, split), w, split)
    ensures Enabled(After(r, names, split), Send(w), split) && !After(r, names, split).closed
  {
    RunKeepsInv(r, names, split);
    RoomToSend(After(r, names, split), w, names, split);
  }

  // Whatever the others do, a machine's interface, disk and roles are asked for only after that machine is gone.
  lemma OwnMachineGoesFirst(r: Run, w: nat, names: seq<string>, split: BlobSplitter)
    requires Legal(r, names, split) && w < |names|
    ensures w < |After(r, names, split).workers|
    ensures var log := After(r, names, split).workers[w].log;
      log.Then? && !log.request.GetVm? && !log.request.DeleteVm? ==> Succeeded(log.before, DeleteVm(names[w]))
  {
    RunKeepsInv(r, names, split);
    var log := After(r, names, split).workers[w].log;
    if log.Then? {
      MachineGoesFirst(log, names[w], split);
    }
  }

  // What the goroutine of a machine found, when it has ended
  ghost predicate Failed(w: Worker, split: BlobSplitter)
  {
    PhaseOf(w, split).Ended? && PhaseOf(w, split).error.Some?
  }

  // The deletion ended as `f` says: under its name, with its error.
  ghost predicate FailedAs(name: string, w: Worker, f: Failure, split: BlobSplitter)
  {
    name == f.name && Reached(w.log, split) == Ended(Some(f.error))
  }

  // Which of the first k machines did
  ghost function FailuresAs(names: seq<string>, ws: seq<Worker>, k: nat, f: Failure, split: BlobSplitter): set<nat>
    requires k <= |names| == |ws|
  {
    set w: nat | w < k && FailedAs(names[w], ws[w], f, split)
  }

  lemma MessageIs(w: Worker, f: Failure, split: BlobSplitter)
    ensures MessageOf(w, split) == Some(f) <==> FailedAs(w.name, w, f, split)
  {
  }

  lemma CountNext(before: set<nat>, here: set<nat>, k: nat, more: bool)
    requires k !in before && forall x: nat :: x in here <==> x in before || (more && x == k)
    ensures |here| == |before| + if more then 1 else 0
  {
    assert here == if more then before + {k} else before;
  }

  lemma FailedNext(names: seq<string>, ws: seq<Worker>, k: nat, f: Failure, split: BlobSplitter)
    requires 0 < k <= |names| == |ws| && ws[k - 1].name == names[k - 1]
    ensures |FailuresAs(names, ws, k, f, split)| ==
      |FailuresAs(names, ws, k - 1, f, split)| + if MessageOf(ws[k - 1], split) == Some(f) then 1 else 0
  {
    MessageIs(ws[k - 1], f, split);
    CountNext(FailuresAs(names, ws, k - 1, f, split), FailuresAs(names, ws, k, f, split), k - 1,
      FailedAs(names[k - 1], ws[k - 1], f, split));
  }

  lemma SentNext(ws: seq<Worker>, k: nat, f: Failure, split: BlobSplitter)
    requires 0 < k <= |ws| && ws[k - 1].sent
    ensures SentMessages(ws, k, split)[Some(f)] ==
      SentMessages(ws, k - 1, split)[Some(f)] + if MessageOf(ws[k - 1], split) == Some(f) then 1 else 0
  {
  }

  lemma ReportedNext(names: seq<string>, ws: seq<Worker>, k: nat, f: Failure, split: BlobSplitter)
    requires 0 < k <= |names| == |ws| && ws[k - 1].sent && ws[k - 1].name == names[k - 1]
    ensures SentMessages(ws, k, split)[Some(f)] - SentMessages(ws, k - 1, split)[Some(f)] ==
      |FailuresAs(names, ws, k, f, split)| - |FailuresAs(names, ws, k - 1, f, split)|
  {
    FailedNext(names, ws, k, f, split);
    SentNext(ws, k, f, split);
  }

  lemma {:induction false} AllSentReport(names: seq<string>, ws: seq<Worker>, k: nat, f: Failure, split: BlobSplitter)
    requires k <= |names| == |ws| && forall i :: 0 <= i < k ==> ws[i].sent && ws[i].name == names[i]
    ensures SentMessages(ws, k, split)[Some(f)] == |FailuresAs(names, ws, k, f, split)|
  {
    if k == 0 {
      assert FailuresAs(names, ws, k, f, split) == {};
    } else {
      AllSentReport(names, ws, k - 1, f, split);
      ReportedNext(names, ws, k, f, split);
    }
  }

  // The function has returned: every message was received, and what it returns lists each failure as often as some
  // machine of that name failed so.
  ghost predicate RightResult(s: State, names: seq<string>, split: BlobSplitter)
  {
    |s.workers| == |names| && s.received == |names| && s.buffer == [] &&
    (forall w :: 0 <= w < |names| ==>
      s.workers[w].sent && Reached(s.workers[w].log, split).Ended? && Conforms(s.workers[w].log, names[w], split)) &&
    (s.result.None? <==> forall w :: 0 <= w < |names| ==> Reached(s.workers[w].log, split) == Ended(None)) &&
    (s.result.Some? ==>
      forall f :: multiset(s.result.value)[f] == |FailuresAs(names, s.workers, |names|, f, split)|)
  }

  lemma CountsAreRight(s: State, names: seq<string>, f: Failure, split: BlobSplitter)
    requires Inv(s, names, split) && s.buffer == [] && forall i :: 0 <= i < |s.workers| ==> s.workers[i].sent
    ensures multiset(s.failures)[f] == |FailuresAs(names, s.workers, |names|, f, split)|
  {
    assert s.taken + s.buffer == s.taken;
    FailuresCount(s.taken, f);
    AllSentReport(names, s.workers, |names|, f, split);
  }

  lemma ClosedIsRight(s: State, names: seq<string>, split: BlobSplitter)
    requires Inv(s, names, split) && s.closed
    ensures RightResult(s, names, split)
  {
    SomeUnsent(s.workers, |names|);
    forall f ensures multiset(s.failures)[f] == |FailuresAs(names, s.workers, |names|, f, split)| {
      CountsAreRight(s, names, f, split);
    }
    forall w: nat | w < |names| ensures Failed(s.workers[w], split) ==> s.failures != [] {
      if Failed(s.workers[w], split) {
        var f := Failure(names[w], PhaseOf(s.workers[w], split).error.value);
        assert w in FailuresAs(names, s.workers, |names|, f, split);
      }
    }
    if s.failures != [] {
      assert s.failures[0] in multiset(s.failures);
      var w :| w in FailuresAs(names, s.workers, |names|, s.failures[0], split);
      assert Failed(s.workers[w], split);
    }
  }

  // Once the function has returned, the result is right whatever the interleaving was; it lists no name not asked for.
  lemma ResultIsRight(r: Run, names: seq<string>, split: BlobSplitter)
    requires Legal(r, names, split) && After(r, names, split).closed
    ensures RightResult(After(r, names, split), names, split)
    ensures var result := After(r, names, split).result;
      result.Some? ==> forall f :: f in result.value ==> f.name in names
  {
    var s := After(r, names, split);
    RunKeepsInv(r, names, split);
    ClosedIsRight(s, names, split);
    if s.result.Some? {
      forall f | f in s.result.value ensures f.name in names {
        assert f in multiset(s.result.value);
        assert FailuresAs(names, s.workers, |names|, f, split) != {};
        var w :| w in FailuresAs(names, s.workers, |names|, f, split);
        assert names[w] == f.name;
      }
    }
  }

  // ----- every run ends -----

  // Phases still ahead of a goroutine; listing the roles may add any number of deletions.
  function PhasesLeft(w: Worker, split: BlobSplitter): nat
  {
    if w.sent then 0
    else
      match PhaseOf(w, split)
      case Fetching => 8
      case RemovingVm(_, _) => 7
      case RemovingNic(_, _) => 6
      case OpeningStorage(_, _) => 5
      case RemovingBlob(_, _) => 4
      case RemovingDisk(_, _) => 4
      case ListingRoles(_, _) => 3
      case RemovingRoles(_, _) => 2
      case Ended(_) => 1
  }

  function RolesLeft(w: Worker, split: BlobSplitter): nat
  {
    if !w.sent && PhaseOf(w, split).RemovingRoles? then |PhaseOf(w, split).ids| else 0
  }

  function AllPhasesLeft(ws: seq<Worker>, k: nat, split: BlobSplitter): nat
    requires k <= |ws|
  {
    if k == 0 then 0 else AllPhasesLeft(ws, k - 1, split) + PhasesLeft(ws[k - 1], split)
  }

  function AllRolesLeft(ws: seq<Worker>, k: nat, split: BlobSplitter): nat
    requires k <= |ws|
  {
    if k == 0 then 0 else AllRolesLeft(ws, k - 1, split) + RolesLeft(ws[k - 1], split)
  }

  lemma {:induction false} WorkChanges(ws: seq<Worker>, i: nat, w: Worker, k: nat, split: BlobSplitter)
    requires i < |ws| && k <= |ws|
    ensures AllPhasesLeft(ws[i := w], k, split) - AllPhasesLeft(ws, k, split) ==
            if i < k then PhasesLeft(w, split) - PhasesLeft(ws[i], split) else 0
    ensures AllRolesLeft(ws[i := w], k, split) - AllRolesLeft(ws, k, split) ==
            if i < k then RolesLeft(w, split) - RolesLeft(ws[i], split) else 0
  {
    if k > 0 {
      WorkChanges(ws, i, w, k - 1, split);
    }
  }

  function Major(s: State, split: BlobSplitter): int
  {
    AllPhasesLeft(s.workers, |s.workers|, split) + 2 * |s.workers| - s.started - s.received + if s.closed then 0 else 1
  }

  function Minor(s: State, split: BlobSplitter): nat
  {
    AllRolesLeft(s.workers, |s.workers|, split)
  }

  lemma AnswerMovesOn(w: Worker, reply: Reply, split: BlobSplitter)
    requires !w.sent && Active(PhaseOf(w, split))
    ensures var next := w.(log := Log.Then(w.log, RequestOf(w.name, PhaseOf(w, split)), reply));
      PhasesLeft(next, split) < PhasesLeft(w, split) ||
      (PhasesLeft(next, split) == PhasesLeft(w, split) && RolesLeft(next, split) < RolesLeft(w, split))
  {
  }

  lemma MajorIsNat(s: State, names: seq<string>, split: BlobSplitter)
    requires Inv(s, names, split)
    ensures 0 <= Major(s, split)
  {
    SomeUnsent(s.workers, |s.workers|);
  }

  ghost predicate Closer(t: State, s: State, split: BlobSplitter)
  {
    Major(t, split) <= Major(s, split) && (Major(t, split) == Major(s, split) ==> Minor(t, split) < Minor(s, split))
  }

  lemma AnswersLead(s: State, w: nat, reply: Reply, split: BlobSplitter)
    requires Working(s, w, split)
    ensures Closer(Do(s, Answer(w, reply), split), s, split)
  {
    AnswerMovesOn(s.workers[w], reply, split);
    WorkChanges(s.workers, w, Do(s, Answer(w, reply), split).workers[w], |s.workers|, split);
  }

  lemma SendsLead(s: State, w: nat, split: BlobSplitter)
    requires Enabled(s, Send(w), split)
    ensures Closer(Do(s, Send(w), split), s, split)
  {
    WorkChanges(s.workers, w, s.workers[w].(sent := true), |s.workers|, split);
  }

  // Each action brings the run closer to its end, in a well-founded order.
  lemma StepsLead(s: State, a: Action, split: BlobSplitter)
    requires Enabled(s, a, split)
    ensures Closer(Do(s, a, split), s, split)
  {
    match a
    case Answer(w, reply) => AnswersLead(s, w, reply, split);
    case Send(w) => SendsLead(s, w, split);
    case _ =>
  }

  // Until the function returns, something can always happen.
  lemma NeverStuck(s: State, names: seq<string>, split: BlobSplitter)
    requires Inv(s, names, split) && !s.closed
    ensures s.started < |names| || (s.received == |names| && Enabled(s, Return, split)) || Enabled(s, Receive, split) ||
      exists w :: Working(s, w, split) || AtSend(s, w, split)
  {
    SomeUnsent(s.workers, |names|);
    if s.started == |names| && s.received < |names| && s.buffer == [] {
      var w :| 0 <= w < |names| && !s.workers[w].sent;
      PhaseStands(s.workers[w].log, names[w], split);
      assert Working(s, w, split) || AtSend(s, w, split);
    }
  }

  // Someone is scheduled, and the cloud may answer anything.
  method Schedule(s: State, names: seq<string>, split: BlobSplitter) returns (action: Action)
    requires Inv(s, names, split) && !s.closed
    ensures Enabled(s, action, split)
  {
    NeverStuck(s, names, split);
    if {
      case s.started < |names| => action := Spawn;
      case w: nat :| w < |names| && Working(s, w, split) =>
        var reply: Reply := *;
        action := Answer(w, reply);
      case w: nat :| w < |names| && AtSend(s, w, split) =>
        RoomToSend(s, w, names, split);
        action := Send(w);
      case Enabled(s, Receive, split) => action := Receive;
      case s.received == |names| && Enabled(s, Return, split) => action := Return;
    }
  }

  /** One run: goroutines, channel and collector take turns in any order; every run ends with the right result. */
  method ScaleDownVMs(names: seq<string>, split: BlobSplitter) returns (failed: Option<seq<Failure>>, final: State)
    ensures RightResult(final, names, split) && failed == final.result
  {
    final := Init(names);
    InitHolds(names, split);
    MajorIsNat(final, names, split);
    while !final.closed
      invariant Inv(final, names, split) && 0 <= Major(final, split)
      decreases Major(final, split), Minor(final, split)
    {
      var action := Schedule(final, names, split);
      StepKeeps(final, action, names, split);
      StepsLead(final, action, split);
      final := Do(final, action, split);
      MajorIsNat(final, names, split);
    }
    ClosedIsRight(final, names, split);
    failed := final.result;
  }
}
