/**
 Attempts at different targets in turn. The Linux agents take their script from the first master,
 which an attempt does not rewrite when that master is up to date already.
 */
module UpgradeStale {
  import opened Text
  import SemVer
  import Versions
  import opened Upgrade
  import opened UpgradeHistory
  import opened UpgradeCommand
  import opened UpgradeUrls

  function GoodReply(agents: seq<AgentInfo>): Reply
  {
    Reply(true, true, URL_PREFIX + "u", Some(agents), "", "")
  }

  lemma PrefixIsOneLine()
    ensures '\n' !in URL_PREFIX
  {
    assert '\n' !in "Setting up bootstrap";
    assert '\n' !in " node completed.";
    assert '\n' !in " Node upgrade";
    assert '\n' !in " script URL";
  }

  lemma GoodReplyIsGood(c: Command, agents: seq<AgentInfo>)
    ensures Good(Event(c, GoodReply(agents)))
  {
    var output := URL_PREFIX + "u";
    PrefixIsOneLine();
    assert output == Join([output], '\n');
    SplitJoin([output], '\n');
    assert output[|URL_PREFIX|..] == "u";
    assert TrimSpace("u") == "u";
  }

  ghost predicate LeadsTo(plan: Plan, tail: Plan)
    decreases plan
  {
    plan == tail || (plan.Do? && LeadsTo(plan.rest, tail))
  }

  // Every command from `plan` down to `tail` gets a good answer.
  ghost function Perform(log: Log, plan: Plan, tail: Plan, agents: seq<AgentInfo>): Log
    requires LeadsTo(plan, tail)
    decreases plan
  {
    if plan == tail then log
    else Perform(Then(log, Event(plan.cmd, GoodReply(agents))), plan.rest, tail, agents)
  }

  lemma {:induction false} PerformWorks(log: Log, whole: Plan, plan: Plan, tail: Plan, agents: seq<AgentInfo>)
    requires LeadsTo(plan, tail) && Todo(log, whole) == Some(plan)
    requires log.Then? ==> Listed(log) == agents
    ensures var done := Perform(log, plan, tail, agents);
      Todo(done, whole) == Some(tail) && (plan != tail || log.Then? ==> done.Then? && Listed(done) == agents)
    decreases plan
  {
    if plan != tail {
      GoodReplyIsGood(plan.cmd, agents);
      PerformWorks(Then(log, Event(plan.cmd, GoodReply(agents))), whole, plan.rest, tail, agents);
    }
  }

  lemma {:induction false} SetupLeadsTo(plan: Plan, tail: Plan)
    requires SetupThen(plan, tail)
    ensures LeadsTo(plan, tail)
    decreases plan
  {
    if plan != tail {
      SetupLeadsTo(plan.rest, tail);
    }
  }

  lemma {:induction false} EveryPlanEnds(plan: Plan)
    ensures LeadsTo(plan, Done)
  {
    if plan.Do? {
      EveryPlanEnds(plan.rest);
    }
  }

  // Some run completes, whatever the state of the cluster.
  lemma SomeRunCompletes(cfg: Config, w: World, agents: seq<AgentInfo>) returns (log: Log)
    requires cfg.hasLinuxProfile && (HasWindows(agents) ==> cfg.hasWindowsProfile)
    ensures Completed(cfg, w, log) && Listed(log) == agents
  {
    var plan := FullPlan(cfg, w, agents);
    EveryPlanEnds(plan);
    log := Perform(Empty, plan, Done, agents);
    PerformWorks(Empty, plan, plan, Done, agents);
  }

  // The first master's script is copied and made executable, and fails, leaving the master at `left`.
  function Stopped(setup: Log, agents: seq<AgentInfo>, left: Version): Log
  {
    var m, reply := Master(0), GoodReply(agents);
    var ready := Then(Then(Then(setup, Event(ReadVersion(m), reply)), Event(CopyScript(m), reply)),
      Event(ChmodScript(m), reply));
    Then(ready, Event(RunScript(m), Reply(false, false, "", None, left, "")))
  }

  lemma StoppedWorks(setup: Log, whole: Plan, rest: Plan, agents: seq<AgentInfo>, left: Version)
    requires Todo(setup, whole) == Some(Visit(Master(0), false, rest)) && setup.Then? && Listed(setup) == agents
    ensures Follows(Stopped(setup, agents, left), whole) && Listed(Stopped(setup, agents, left)) == agents
  {
    var m, reply := Master(0), GoodReply(agents);
    GoodReplyIsGood(ReadVersion(m), agents);
    GoodReplyIsGood(CopyScript(m), agents);
    GoodReplyIsGood(ChmodScript(m), agents);
    var read := Then(setup, Event(ReadVersion(m), reply));
    var copied := Then(read, Event(CopyScript(m), reply));
    var ready := Then(copied, Event(ChmodScript(m), reply));
    assert Todo(read, whole) == Some(Install(m, rest));
    assert Todo(ready, whole) == Some(Do(RunScript(m), Do(ReadNewVersion(m), rest)));
    assert Listed(ready) == Listed(copied) == Listed(read) == agents;
  }

  lemma StoppedLeaves(target: Version, w: World, setup: Log, agents: seq<AgentInfo>, left: Version, f: Files)
    requires Replay(target, w, setup) == w
    ensures Replay(target, w, Stopped(setup, agents, left)) ==
      w.WithScript(Master(0), target).WithVersion(Master(0), left)
    ensures UrlAt(FilesAfter(f, Stopped(setup, agents, left)), Master(0)) == LinuxUrl(Stopped(setup, agents, left))
  {
    var m, reply := Master(0), GoodReply(agents);
    var read := Then(setup, Event(ReadVersion(m), reply));
    var copied := Then(read, Event(CopyScript(m), reply));
    var ready := Then(copied, Event(ChmodScript(m), reply));
    assert Replay(target, w, read) == w && Replay(target, w, copied) == w.WithScript(m, target);
    assert Replay(target, w, ready) == w.WithScript(m, target);
    StoppedHasUrl(setup, agents, left, f);
  }

  lemma StoppedHasUrl(setup: Log, agents: seq<AgentInfo>, left: Version, f: Files)
    ensures UrlAt(FilesAfter(f, Stopped(setup, agents, left)), Master(0)) == LinuxUrl(Stopped(setup, agents, left))
  {
    var m, reply := Master(0), GoodReply(agents);
    var read := Then(setup, Event(ReadVersion(m), reply));
    var copied := Then(read, Event(CopyScript(m), reply));
    var ready := Then(copied, Event(ChmodScript(m), reply));
    assert LinuxUrl(ready) == LinuxUrl(copied) == LinuxUrl(read) == LinuxUrl(setup);
    assert UrlAt(FilesAfter(f, copied), m) == LinuxUrl(read) && FilesAfter(f, ready) == FilesAfter(f, copied);
  }

  // A run that stops at the script of the first master, which is left at `left`.
  lemma SomeRunStopsAtMaster(cfg: Config, w: World, agents: seq<AgentInfo>, left: Version) returns (log: Log)
    requires cfg.hasLinuxProfile && !HasWindows(agents) && cfg.masterCount >= 1 && !cfg.Skips(w, Master(0))
    ensures LegalRun(cfg, w, log) && Listed(log) == agents
    ensures Replay(cfg.target, w, log) == w.WithScript(Master(0), cfg.target).WithVersion(Master(0), left)
    ensures forall f :: UrlAt(FilesAfter(f, log), Master(0)) == LinuxUrl(log)
  {
    var plan, m := FullPlan(cfg, w, agents), Master(0);
    var nodes := Nodes(cfg, agents);
    assert nodes[0] == m;
    var rest := VisitAll(cfg, Visited(cfg, w, m), nodes[1..], Done);
    var visits := Visit(m, false, rest);
    PlanIsSetupThenVisits(cfg, w, agents);
    SetupLeadsTo(plan, visits);
    var setup := Perform(Empty, plan, visits, agents);
    PerformWorks(Empty, plan, plan, visits, agents);
    SetupLeavesWorld(cfg.target, w, setup, plan, visits);
    StoppedWorks(setup, plan, rest, agents, left);
    log := Stopped(setup, agents, left);
    forall f {
      StoppedLeaves(cfg.target, w, setup, agents, left, f);
    }
    StoppedLeaves(cfg.target, w, setup, agents, left, map[]);
  }

  lemma SetupLeavesWorld(target: Version, w: World, log: Log, plan: Plan, tail: Plan)
    requires Todo(log, plan) == Some(tail) && SetupThen(plan, tail)
    ensures Replay(target, w, log) == w
  {
    OnlySetupDone(target, w, log, plan, tail);
  }

  ghost function Size(plan: Plan): nat
  {
    if plan.Done? then 0 else 1 + Size(plan.rest)
  }

  lemma {:induction false} OnlySetupDone(target: Version, w: World, log: Log, plan: Plan, tail: Plan)
    requires SetupThen(plan, tail) && Todo(log, plan).Some? && Size(Todo(log, plan).value) >= Size(tail)
    ensures Replay(target, w, log) == w && SetupThen(Todo(log, plan).value, tail)
  {
    if log.Then? {
      OnlySetupDone(target, w, log.before, plan, tail);
    }
  }

  // ----- three attempts -----

  // A cluster where every node still reports the saved version
  ghost predicate Fresh(w: World, m: Model, saved: Version, host: string)
  {
    (forall i: nat :: i < m.masterCount ==> w.Reports(Master(i)) == saved) && w.Reports(Agent(host, false)) == saved
  }

  /**
   From a fresh cluster, with two admitted targets. The attempt at `t1` is cut off at the script of the
   first master, which reports `t1` by then; the one at `t2` fails there and leaves its own script. A
   further attempt at `t1` skips that master: the agent's file is the one for `t2`, with the URL of the
   second attempt, and if it succeeds the run completes and is reported as a success, the agent at `t2`.
   */
  lemma StaleScriptArises(supported: seq<string>, defaultVersion: string, m: Model, t1: Version, t2: Version,
        host: string, w: World, f: Files)
    returns (first: Log, second: Log, third: Log)
    requires Admits(supported, defaultVersion, m, t1) && Admits(supported, defaultVersion, m, t2)
    requires var saved := CurrentOf(supported, defaultVersion, m);
      t1 != t2 && t1 != saved && t2 != saved && m.masterCount >= 1 && Fresh(w, m, saved, host)
    ensures var cfg1, cfg2 := ConfigOf(supported, defaultVersion, m, t1), ConfigOf(supported, defaultVersion, m, t2);
      var w1 := Replay(t1, w, first);
      var w2 := Replay(t2, w1, second);
      LegalRun(cfg1, w, first) && LegalRun(cfg2, w1, second) && Completed(cfg1, w2, third) &&
      Listed(third) == [AgentInfo(host, "Linux")] && Replay(t1, w2, third).Reports(Agent(host, false)) == t2
    ensures UrlAt(FilesAfter(FilesAfter(FilesAfter(f, first), second), third), Agent(host, false)) == LinuxUrl(second)
  {
    var agents, agent := [AgentInfo(host, "Linux")], Agent(host, false);
    var cfg1, cfg2 := ConfigOf(supported, defaultVersion, m, t1), ConfigOf(supported, defaultVersion, m, t2);
    first := SomeRunStopsAtMaster(cfg1, w, agents, t1);
    var w1 := Replay(t1, w, first);
    assert w1.Reports(Master(0)) == t1 && w1.Reports(agent) == w.Reports(agent);
    second := SomeRunStopsAtMaster(cfg2, w1, agents, t1);
    var w2 := Replay(t2, w1, second);
    assert w2.Reports(Master(0)) == t1 && w2.Holds(Master(0)) == t2 && w2.Reports(agent) == w1.Reports(agent);
    third := SomeRunCompletes(cfg1, w2, agents);
    assert Agents(agents)[0] == agent;
    StaleAgent(cfg1, w2, third, agent, FilesAfter(FilesAfter(f, first), second));
  }

  // A completed run over a first master that is up to date but holds another script
  lemma StaleAgent(cfg: Config, w: World, log: Log, n: Node, f: Files)
    requires Completed(cfg, w, log) && cfg.Skips(w, Master(0)) && n in Agents(Listed(log)) && !n.windows &&
      !cfg.Skips(w, n)
    ensures Replay(cfg.target, w, log).Reports(n) == w.Holds(Master(0))
    ensures UrlAt(FilesAfter(f, log), n) == UrlAt(f, Master(0))
  {
    var agents := Listed(log);
    CompletedEffect(cfg, w, log);
    MasterVisits(cfg, w, agents);
    var after := VisitedAll(cfg, w, Masters(cfg.masterCount));
    AgentVisits(cfg, after, agents, n);
    AgentCarriesUrl(cfg, w, log, f, n);
  }

  // ----- and no further attempt repairs it -----

  ghost function HandsOut(v: Version): Check
  {
    (w: World, c: Command) => c.RunScript? && c.node.Agent? && !c.node.windows ==> w.Holds(c.node) == v
  }

  lemma {:induction false} AgentVisitsHandOut(cfg: Config, w: World, agents: seq<AgentInfo>, v: Version)
    requires w.Holds(Master(0)) == v
    ensures Planned(HandsOut(v), cfg.target, w, VisitAll(cfg, w, Agents(agents), Done))
    decreases |agents|
  {
    if agents != [] {
      var n, next := AgentNode(agents[0]), Visited(cfg, w, AgentNode(agents[0]));
      assert Agents(agents)[0] == n && Agents(agents)[1..] == Agents(agents[1..]);
      AgentVisitsHandOut(cfg, next, agents[1..], v);
      VisitIsPlanned(HandsOut(v), cfg, w, n, VisitAll(cfg, next, Agents(agents[1..]), Done));
    }
  }

  lemma {:induction false} VisitsHandOut(cfg: Config, w: World, done: nat, agents: seq<AgentInfo>, v: Version)
    requires done <= cfg.masterCount && cfg.Skips(w, Master(0)) && w.Holds(Master(0)) == v
    ensures Planned(HandsOut(v), cfg.target, w, VisitAll(cfg, w, Nodes(cfg, agents)[done..], Done))
    decreases cfg.masterCount - done
  {
    var nodes := Nodes(cfg, agents)[done..];
    if done < cfg.masterCount {
      var n, next := nodes[0], Visited(cfg, w, nodes[0]);
      assert n == Master(done) && nodes[1..] == Nodes(cfg, agents)[done + 1..];
      VisitsHandOut(cfg, next, done + 1, agents, v);
      VisitIsPlanned(HandsOut(v), cfg, w, n, VisitAll(cfg, next, nodes[1..], Done));
    } else {
      assert nodes == Agents(agents);
      AgentVisitsHandOut(cfg, w, agents, v);
    }
  }

  /**
   While the first master is up to date with another version's script, every run for that target,
   completed or not, starts only that script on Linux agents, and leaves the master as it is.
   */
  lemma StaleScriptStays(cfg: Config, w: World, log: Log, f: Files)
    requires LegalRun(cfg, w, log) && cfg.Skips(w, Master(0))
    ensures Always(HandsOut(w.Holds(Master(0))), cfg.target, w, log)
    ensures var end := Replay(cfg.target, w, log);
      cfg.Skips(end, Master(0)) && end.Holds(Master(0)) == w.Holds(Master(0)) &&
      UrlAt(FilesAfter(f, log), Master(0)) == UrlAt(f, Master(0))
  {
    var agents, ok := Listed(log), HandsOut(w.Holds(Master(0)));
    VisitsHandOut(cfg, w, 0, agents, w.Holds(Master(0)));
    assert Nodes(cfg, agents)[0..] == Nodes(cfg, agents);
    SetupIsPlanned(ok, cfg, w, agents);
    RunKeeps(ok, cfg, w, log);
    FirstFileIsStuck(cfg, w, log, f);
  }

  // ----- which lists of versions allow this -----

  /** With one supported version the only target is the current one: a completed run upgrades every node again. */
  lemma OneVersionRestarts(v: string, defaultVersion: string, m: Model, target: string, w: World, log: Log, n: Node)
    requires Admits([v], defaultVersion, m, target) && m.masterCount >= 1
    requires Completed(ConfigOf([v], defaultVersion, m, target), w, log)
    ensures target == CurrentOf([v], defaultVersion, m) == v
    ensures var nodes := Nodes(ConfigOf([v], defaultVersion, m, target), Listed(log));
      Starts(log, n) == multiset(nodes)[n] && (n in nodes ==> Replay(target, w, log).Reports(n) == target)
  {
    var cfg := ConfigOf([v], defaultVersion, m, target);
    var current := CurrentOf([v], defaultVersion, m);
    assert current in [v];
    SemVer.PrecedenceOrder(SemVer.Make(current), SemVer.Make(current), SemVer.Make(current));
    CompletedStarts(cfg, w, log, n);
    CompletedReachesTarget(cfg, w, log);
  }

  function Patch(major: nat, minor: nat, patch: nat): string
  {
    SemVer.Print(SemVer.Version(major, minor, patch, [], []))
  }

  lemma PatchIs(major: nat, minor: nat, patch: nat)
    requires major < SemVer.UINT64 && minor < SemVer.UINT64 && patch < SemVer.UINT64
    ensures SemVer.Parse(Patch(major, minor, patch)) == Some(SemVer.Version(major, minor, patch, [], []))
    ensures SemVer.Make(Patch(major, minor, patch)) == SemVer.Version(major, minor, patch, [], [])
  {
    SemVer.ParseIs(Patch(major, minor, patch), SemVer.Version(major, minor, patch, [], []));
  }

  lemma LaterPatchIsUpgrade(supported: seq<string>, major: nat, minor: nat, patch: nat)
    requires major < SemVer.UINT64 && minor + 2 < SemVer.UINT64 && 0 < patch < SemVer.UINT64
    requires Patch(major, minor, patch) in supported
    ensures IsUpgrade(supported, Patch(major, minor, 0), Patch(major, minor, patch))
    ensures SemVer.Parse(Patch(major, minor, patch)) == Some(SemVer.Version(major, minor, patch, [], []))
  {
    PatchIs(major, minor, 0);
    PatchIs(major, minor, patch);
  }

  /** Three patch releases of one minor version are enough: the two later ones are admitted over the first. */
  lemma ThreePatchesAllowIt(major: nat, minor: nat, defaultVersion: string, m: Model)
    requires m.orchType == Versions.DCOS && m.hasLinuxProfile && m.hasWindowsProfile
    requires major < SemVer.UINT64 && minor + 2 < SemVer.UINT64
    ensures var supported := [Patch(major, minor, 0), Patch(major, minor, 1), Patch(major, minor, 2)];
      var saved := Saved(m, supported[0]);
      CurrentOf(supported, defaultVersion, saved) == supported[0] && supported[1] != supported[2] &&
      Admits(supported, defaultVersion, saved, supported[1]) && Admits(supported, defaultVersion, saved, supported[2])
  {
    var supported := [Patch(major, minor, 0), Patch(major, minor, 1), Patch(major, minor, 2)];
    SemVer.ParseIs(supported[0], SemVer.Version(major, minor, 0, [], []));
    assert supported[1] in supported && supported[2] in supported;
    LaterPatchIsUpgrade(supported, major, minor, 1);
    LaterPatchIsUpgrade(supported, major, minor, 2);
    SavedIsReloaded(supported, defaultVersion, m, supported[0]);
  }
}
