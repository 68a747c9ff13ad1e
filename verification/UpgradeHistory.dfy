/** What holds over a run of the upgrade, and over any sequence of interrupted runs. */
module UpgradeHistory {
  import opened Upgrade

  // ----- from plans to logs -----

  type Check = (World, Command) -> bool

  // `ok` holds of every command of the log in the cluster it was issued to.
  ghost predicate Always(ok: Check, target: Version, w: World, log: Log)
  {
    match log
    case Empty => true
    case Then(before, e) => Always(ok, target, w, before) && ok(Replay(target, w, before), e.cmd)
  }

  // `ok` holds of every command of the plan if all earlier ones succeed.
  ghost predicate Planned(ok: Check, target: Version, w: World, plan: Plan)
    decreases plan
  {
    match plan
    case Done => true
    case Do(c, rest) => ok(w, c) && Planned(ok, target, Effect(target, w, c), rest)
  }

  lemma {:induction false} PlannedHolds(ok: Check, target: Version, w: World, log: Log, plan: Plan)
    requires Planned(ok, target, w, plan) && Todo(log, plan).Some?
    ensures Always(ok, target, w, log)
    ensures Planned(ok, target, Replay(target, w, log), Todo(log, plan).value)
  {
    if log.Then? {
      PlannedHolds(ok, target, w, log.before, plan);
    }
  }

  // A run keeps what its plan promises up to its last command, answered well or not.
  lemma RunKeeps(ok: Check, cfg: Config, w: World, log: Log)
    requires LegalRun(cfg, w, log) && Planned(ok, cfg.target, w, FullPlan(cfg, w, Listed(log)))
    ensures Always(ok, cfg.target, w, log)
  {
    if log.Then? {
      PlannedHolds(ok, cfg.target, w, log.before, FullPlan(cfg, w, Listed(log)));
    }
  }

  ghost predicate IndifferentToSetup(ok: Check)
  {
    forall w: World, c: Command :: !OnNode(c) ==> ok(w, c)
  }

  predicate OnNode(c: Command)
  {
    c.ReadVersion? || c.CopyScript? || c.ChmodScript? || c.RunScript? || c.ReadNewVersion?
  }

  // `plan` comes down to `tail` after commands that are not on masters or agents.
  ghost predicate SetupThen(plan: Plan, tail: Plan)
  {
    plan == tail || (plan.Do? && !OnNode(plan.cmd) && SetupThen(plan.rest, tail))
  }

  lemma SetupStep(c: Command, rest: Plan, tail: Plan)
    requires !OnNode(c) && SetupThen(rest, tail)
    ensures SetupThen(Do(c, rest), tail)
  {
  }

  lemma LinuxBootstrapIsSetup(rest: Plan, tail: Plan)
    requires SetupThen(rest, tail)
    ensures SetupThen(LinuxBootstrap(rest), tail)
  {
    var p1 := Do(RunBootstrapScript, rest);
    var p2 := Do(SendBootstrapConfig, p1);
    var p3 := Do(SendBootstrapScript, p2);
    var p4 := Do(CopyBootstrapConfig, p3);
    SetupStep(RunBootstrapScript, rest, tail);
    SetupStep(SendBootstrapConfig, p1, tail);
    SetupStep(SendBootstrapScript, p2, tail);
    SetupStep(CopyBootstrapConfig, p3, tail);
    SetupStep(ChmodBootstrapScript, p4, tail);
    SetupStep(CopyBootstrapScript, Do(ChmodBootstrapScript, p4), tail);
  }

  lemma WindowsBootstrapIsSetup(rest: Plan, tail: Plan)
    requires SetupThen(rest, tail)
    ensures SetupThen(WindowsBootstrap(rest), tail)
  {
    var p1 := Do(RunWinBootstrapScript, rest);
    var p2 := Do(SendWinBootstrapConfig, p1);
    var p3 := Do(SendWinBootstrapScript, p2);
    SetupStep(RunWinBootstrapScript, rest, tail);
    SetupStep(SendWinBootstrapConfig, p1, tail);
    SetupStep(SendWinBootstrapScript, p2, tail);
    SetupStep(CopyWinBootstrapConfig, p3, tail);
    SetupStep(CopyWinBootstrapScript, Do(CopyWinBootstrapConfig, p3), tail);
  }

  lemma PlanIsSetupThenVisits(cfg: Config, w: World, agents: seq<AgentInfo>)
    ensures SetupThen(FullPlan(cfg, w, agents), VisitAll(cfg, w, Nodes(cfg, agents), Done))
  {
    var visits := VisitAll(cfg, w, Nodes(cfg, agents), Done);
    AfterListingIsSetup(agents, visits);
  }

  lemma KeyAndBootstrapAreSetup(rest: Plan, tail: Plan)
    requires SetupThen(rest, tail)
    ensures SetupThen(Do(CopySshKey, Do(ChmodSshKey, LinuxBootstrap(rest))), tail)
  {
    LinuxBootstrapIsSetup(rest, tail);
    SetupStep(ChmodSshKey, LinuxBootstrap(rest), tail);
    SetupStep(CopySshKey, Do(ChmodSshKey, LinuxBootstrap(rest)), tail);
  }

  lemma AfterListingIsSetup(agents: seq<AgentInfo>, visits: Plan)
    ensures SetupThen(AfterListing(agents, visits), visits)
  {
    var copyWin := Do(CopyWinAgentScript, visits);
    SetupStep(CopyWinAgentScript, visits, visits);
    WindowsBootstrapIsSetup(copyWin, visits);
    KeyAndBootstrapAreSetup(if HasWindows(agents) then WindowsBootstrap(copyWin) else visits, visits);
  }

  lemma {:induction false} SetupIsPlannedTo(ok: Check, target: Version, w: World, plan: Plan, tail: Plan)
    requires IndifferentToSetup(ok) && SetupThen(plan, tail) && Planned(ok, target, w, tail)
    ensures Planned(ok, target, w, plan)
    decreases plan
  {
    if plan != tail {
      SetupIsPlannedTo(ok, target, w, plan.rest, tail);
    }
  }

  lemma SetupIsPlanned(ok: Check, cfg: Config, w: World, agents: seq<AgentInfo>)
    requires IndifferentToSetup(ok)
    requires Planned(ok, cfg.target, w, VisitAll(cfg, w, Nodes(cfg, agents), Done))
    ensures Planned(ok, cfg.target, w, FullPlan(cfg, w, agents))
  {
    PlanIsSetupThenVisits(cfg, w, agents);
    SetupIsPlannedTo(ok, cfg.target, w, FullPlan(cfg, w, agents), VisitAll(cfg, w, Nodes(cfg, agents), Done));
  }

  // ----- one visit -----

  lemma VisitIsPlanned(ok: Check, cfg: Config, w: World, n: Node, rest: Plan)
    requires ok(w, ReadVersion(n))
    requires !cfg.Skips(w, n) ==>
      var copied := w.WithScript(n, Source(cfg.target, w, n));
      ok(w, CopyScript(n)) && ok(copied, ChmodScript(n)) && ok(copied, RunScript(n)) &&
      ok(Installed(cfg.target, w, n), ReadNewVersion(n))
    requires Planned(ok, cfg.target, Visited(cfg, w, n), rest)
    ensures Planned(ok, cfg.target, w, Visit(n, cfg.Skips(w, n), rest))
  {
    if !cfg.Skips(w, n) {
      var copied := w.WithScript(n, Source(cfg.target, w, n));
      var p1 := Do(ReadNewVersion(n), rest);
      var p2 := Do(RunScript(n), p1);
      assert Effect(cfg.target, copied, RunScript(n)) == Installed(cfg.target, w, n);
      assert Planned(ok, cfg.target, Installed(cfg.target, w, n), p1);
      assert Planned(ok, cfg.target, copied, p2);
      assert Planned(ok, cfg.target, copied, Do(ChmodScript(n), p2));
      assert Effect(cfg.target, w, CopyScript(n)) == copied;
    }
  }

  // ----- no script for a node that reports the target -----

  ghost function NotUpgradedYet(target: Version): Check
  {
    (w: World, c: Command) => c.CopyScript? || c.RunScript? ==> w.Reports(c.node) != target
  }

  lemma {:induction false} VisitsSpareUpgraded(cfg: Config, w: World, nodes: seq<Node>)
    requires cfg.Guard()
    ensures Planned(NotUpgradedYet(cfg.target), cfg.target, w, VisitAll(cfg, w, nodes, Done))
    decreases |nodes|
  {
    if nodes != [] {
      VisitsSpareUpgraded(cfg, Visited(cfg, w, nodes[0]), nodes[1..]);
      VisitIsPlanned(NotUpgradedYet(cfg.target), cfg, w, nodes[0],
        VisitAll(cfg, Visited(cfg, w, nodes[0]), nodes[1..], Done));
    }
  }

  /** While the guard is on, no script is copied to or started on a node that reports the target. */
  lemma UpgradedNodesAreSpared(cfg: Config, w: World, log: Log)
    requires cfg.Guard() && LegalRun(cfg, w, log)
    ensures Always(NotUpgradedYet(cfg.target), cfg.target, w, log)
  {
    VisitsSpareUpgraded(cfg, w, Nodes(cfg, Listed(log)));
    SetupIsPlanned(NotUpgradedYet(cfg.target), cfg, w, Listed(log));
    RunKeeps(NotUpgradedYet(cfg.target), cfg, w, log);
  }

  // ----- masters first -----

  ghost function MastersFirst(target: Version, count: nat): Check
  {
    (w: World, c: Command) => OnAgent(c) ==> forall i: nat :: i < count ==> w.Reports(Master(i)) == target
  }

  predicate OnAgent(c: Command)
  {
    OnNode(c) && c.node.Agent?
  }

  lemma {:induction false} VisitsAgentsLast(cfg: Config, w: World, done: nat, agents: seq<AgentInfo>)
    requires done <= cfg.masterCount && forall i: nat :: i < done ==> w.Reports(Master(i)) == cfg.target
    ensures Planned(MastersFirst(cfg.target, cfg.masterCount), cfg.target, w,
      VisitAll(cfg, w, Nodes(cfg, agents)[done..], Done))
    decreases cfg.masterCount - done + |agents|
  {
    var ok, nodes := MastersFirst(cfg.target, cfg.masterCount), Nodes(cfg, agents)[done..];
    if done < cfg.masterCount {
      var n, next := nodes[0], Visited(cfg, w, nodes[0]);
      assert n == Master(done) && nodes[1..] == Nodes(cfg, agents)[done + 1..];
      VisitsAgentsLast(cfg, next, done + 1, agents);
      VisitIsPlanned(ok, cfg, w, n, VisitAll(cfg, next, nodes[1..], Done));
    } else {
      assert nodes == Agents(agents);
      AgentVisitsKeepMasters(cfg, w, agents);
    }
  }

  lemma {:induction false} AgentVisitsKeepMasters(cfg: Config, w: World, agents: seq<AgentInfo>)
    requires forall i: nat :: i < cfg.masterCount ==> w.Reports(Master(i)) == cfg.target
    ensures Planned(MastersFirst(cfg.target, cfg.masterCount), cfg.target, w, VisitAll(cfg, w, Agents(agents), Done))
    decreases |agents|
  {
    if agents != [] {
      var n, next := AgentNode(agents[0]), Visited(cfg, w, AgentNode(agents[0]));
      assert Agents(agents)[0] == n && Agents(agents)[1..] == Agents(agents[1..]);
      var copied, installed := w.WithScript(n, Source(cfg.target, w, n)), Installed(cfg.target, w, n);
      forall i: nat | i < cfg.masterCount
        ensures copied.Reports(Master(i)) == cfg.target && installed.Reports(Master(i)) == cfg.target
      {
        assert w.Reports(Master(i)) == cfg.target;
      }
      AgentVisitsKeepMasters(cfg, next, agents[1..]);
      VisitIsPlanned(MastersFirst(cfg.target, cfg.masterCount), cfg, w, n,
        VisitAll(cfg, next, Agents(agents[1..]), Done));
    }
  }

  /** No command touches an agent before every master reports the target. */
  lemma AgentsWaitForMasters(cfg: Config, w: World, log: Log)
    requires LegalRun(cfg, w, log)
    ensures Always(MastersFirst(cfg.target, cfg.masterCount), cfg.target, w, log)
  {
    var ok := MastersFirst(cfg.target, cfg.masterCount);
    VisitsAgentsLast(cfg, w, 0, Listed(log));
    assert Nodes(cfg, Listed(log))[0..] == Nodes(cfg, Listed(log));
    SetupIsPlanned(ok, cfg, w, Listed(log));
    RunKeeps(ok, cfg, w, log);
  }

  // ----- what a successful script installs -----

  // The script file on the first master is the target's, if that master already reports the target.
  ghost predicate ScriptInStep(target: Version, w: World)
  {
    w.Reports(Master(0)) == target ==> w.Holds(Master(0)) == target
  }

  ghost function InstallsTarget(target: Version): Check
  {
    (w: World, c: Command) => c.RunScript? ==> w.Holds(c.node) == target
  }

  lemma {:induction false} AgentVisitsInstallTarget(cfg: Config, w: World, agents: seq<AgentInfo>)
    requires w.Holds(Master(0)) == cfg.target
    ensures Planned(InstallsTarget(cfg.target), cfg.target, w, VisitAll(cfg, w, Agents(agents), Done))
    decreases |agents|
  {
    if agents != [] {
      var n, next := AgentNode(agents[0]), Visited(cfg, w, AgentNode(agents[0]));
      assert Agents(agents)[0] == n && Agents(agents)[1..] == Agents(agents[1..]);
      AgentVisitsInstallTarget(cfg, next, agents[1..]);
      VisitIsPlanned(InstallsTarget(cfg.target), cfg, w, n, VisitAll(cfg, next, Agents(agents[1..]), Done));
    }
  }

  lemma {:induction false} VisitsInstallTarget(cfg: Config, w: World, done: nat, agents: seq<AgentInfo>)
    requires done <= cfg.masterCount && cfg.masterCount >= 1
    requires if done == 0 then ScriptInStep(cfg.target, w) || !cfg.Guard() else w.Holds(Master(0)) == cfg.target
    ensures Planned(InstallsTarget(cfg.target), cfg.target, w, VisitAll(cfg, w, Nodes(cfg, agents)[done..], Done))
    decreases cfg.masterCount - done
  {
    var nodes := Nodes(cfg, agents)[done..];
    if done < cfg.masterCount {
      var n, next := nodes[0], Visited(cfg, w, nodes[0]);
      assert n == Master(done) && nodes[1..] == Nodes(cfg, agents)[done + 1..];
      VisitsInstallTarget(cfg, next, done + 1, agents);
      VisitIsPlanned(InstallsTarget(cfg.target), cfg, w, n, VisitAll(cfg, next, nodes[1..], Done));
    } else {
      assert nodes == Agents(agents);
      AgentVisitsInstallTarget(cfg, w, agents);
    }
  }

  lemma ScriptsInstallTarget(cfg: Config, w: World, log: Log)
    requires cfg.masterCount >= 1 && (ScriptInStep(cfg.target, w) || !cfg.Guard()) && LegalRun(cfg, w, log)
    ensures Always(InstallsTarget(cfg.target), cfg.target, w, log)
  {
    VisitsInstallTarget(cfg, w, 0, Listed(log));
    assert Nodes(cfg, Listed(log))[0..] == Nodes(cfg, Listed(log));
    SetupIsPlanned(InstallsTarget(cfg.target), cfg, w, Listed(log));
    RunKeeps(InstallsTarget(cfg.target), cfg, w, log);
  }

  // ----- what any such run keeps -----

  function Successes(log: Log, n: Node): nat
  {
    match log
    case Empty => 0
    case Then(before, e) => Successes(before, n) + if e.cmd == RunScript(n) && e.reply.ok then 1 else 0
  }

  function AtTarget(target: Version, w: World, n: Node): nat
  {
    if w.Reports(n) == target then 1 else 0
  }

  // A node at the target stays there, and each success of its script takes it there for good.
  lemma {:induction false} ProgressIsKept(target: Version, w: World, log: Log, n: Node)
    requires Always(NotUpgradedYet(target), target, w, log) && Always(InstallsTarget(target), target, w, log)
    ensures AtTarget(target, w, n) + Successes(log, n) <= AtTarget(target, Replay(target, w, log), n)
  {
    if log.Then? {
      ProgressIsKept(target, w, log.before, n);
    }
  }

  lemma {:induction false} ScriptStaysInStep(target: Version, w: World, log: Log)
    requires Always(NotUpgradedYet(target), target, w, log) && Always(InstallsTarget(target), target, w, log)
    requires ScriptInStep(target, w)
    ensures ScriptInStep(target, Replay(target, w, log))
  {
    if log.Then? {
      ScriptStaysInStep(target, w, log.before);
    }
  }

  // ----- completed runs -----

  function PlanEffect(target: Version, w: World, plan: Plan): World
    decreases plan
  {
    match plan
    case Done => w
    case Do(c, rest) => PlanEffect(target, Effect(target, w, c), rest)
  }

  lemma {:induction false} LogHasPlanEffect(target: Version, w: World, log: Log, plan: Plan)
    requires Todo(log, plan).Some?
    ensures PlanEffect(target, Replay(target, w, log), Todo(log, plan).value) == PlanEffect(target, w, plan)
  {
    if log.Then? {
      LogHasPlanEffect(target, w, log.before, plan);
    }
  }

  lemma VisitHasEffect(cfg: Config, w: World, n: Node, rest: Plan)
    ensures PlanEffect(cfg.target, w, Visit(n, cfg.Skips(w, n), rest)) ==
      PlanEffect(cfg.target, Visited(cfg, w, n), rest)
  {
    if !cfg.Skips(w, n) {
      var copied := w.WithScript(n, Source(cfg.target, w, n));
      RunHasEffect(cfg.target, w, n, rest);
      assert PlanEffect(cfg.target, w, Install(n, rest)) ==
        PlanEffect(cfg.target, copied, Do(ChmodScript(n), Do(RunScript(n), Do(ReadNewVersion(n), rest))));
    }
  }

  lemma RunHasEffect(target: Version, w: World, n: Node, rest: Plan)
    ensures PlanEffect(target, w.WithScript(n, Source(target, w, n)),
      Do(ChmodScript(n), Do(RunScript(n), Do(ReadNewVersion(n), rest)))) ==
      PlanEffect(target, Installed(target, w, n), rest)
  {
    var copied := w.WithScript(n, Source(target, w, n));
    var p1 := Do(ReadNewVersion(n), rest);
    var p2 := Do(RunScript(n), p1);
    assert PlanEffect(target, copied, p2) == PlanEffect(target, Installed(target, w, n), p1);
    assert PlanEffect(target, copied, Do(ChmodScript(n), p2)) == PlanEffect(target, copied, p2);
  }

  lemma {:induction false} VisitsHaveEffect(cfg: Config, w: World, nodes: seq<Node>)
    ensures PlanEffect(cfg.target, w, VisitAll(cfg, w, nodes, Done)) == VisitedAll(cfg, w, nodes)
    decreases |nodes|
  {
    if nodes != [] {
      var next := Visited(cfg, w, nodes[0]);
      VisitsHaveEffect(cfg, next, nodes[1..]);
      VisitHasEffect(cfg, w, nodes[0], VisitAll(cfg, next, nodes[1..], Done));
    }
  }

  lemma {:induction false} SetupHasNoEffect(target: Version, w: World, plan: Plan, tail: Plan)
    requires SetupThen(plan, tail)
    ensures PlanEffect(target, w, plan) == PlanEffect(target, w, tail)
    decreases plan
  {
    if plan != tail {
      SetupHasNoEffect(target, w, plan.rest, tail);
    }
  }

  lemma CompletedEffect(cfg: Config, w: World, log: Log)
    requires Completed(cfg, w, log)
    ensures Replay(cfg.target, w, log) == VisitedAll(cfg, w, Nodes(cfg, Listed(log)))
  {
    var agents := Listed(log);
    LogHasPlanEffect(cfg.target, w, log, FullPlan(cfg, w, agents));
    PlanIsSetupThenVisits(cfg, w, agents);
    SetupHasNoEffect(cfg.target, w, FullPlan(cfg, w, agents), VisitAll(cfg, w, Nodes(cfg, agents), Done));
    VisitsHaveEffect(cfg, w, Nodes(cfg, agents));
  }

  // The script version the Linux agents get from the first master in this run
  function Staged(cfg: Config, w: World): Version
  {
    if cfg.masterCount == 0 || cfg.Skips(w, Master(0)) then w.Holds(Master(0)) else cfg.target
  }

  // A Linux agent is due for a script that is not the target's.
  ghost predicate StaleScript(cfg: Config, w: World, agents: seq<AgentInfo>)
  {
    Staged(cfg, w) != cfg.target &&
    exists i :: 0 <= i < |agents| && agents[i].os != "Windows" && !cfg.Skips(w, AgentNode(agents[i]))
  }

  lemma {:induction false} VisitsAppend(cfg: Config, w: World, first: seq<Node>, later: seq<Node>)
    ensures VisitedAll(cfg, w, first + later) == VisitedAll(cfg, VisitedAll(cfg, w, first), later)
    decreases |first|
  {
    if first == [] {
      assert first + later == later;
    } else {
      assert (first + later)[1..] == first[1..] + later;
      VisitsAppend(cfg, Visited(cfg, w, first[0]), first[1..], later);
    }
  }

  lemma {:induction false} OnlyMasterVisits(cfg: Config, w: World, done: nat)
    requires done <= cfg.masterCount && forall i: nat :: i < done ==> w.Reports(Master(i)) == cfg.target
    ensures var after := VisitedAll(cfg, w, Masters(cfg.masterCount)[done..]);
      (forall i: nat :: i < cfg.masterCount ==> after.Reports(Master(i)) == cfg.target) &&
      (forall a: Node :: a.Agent? ==> after.Reports(a) == w.Reports(a)) &&
      after.Holds(Master(0)) == if done > 0 then w.Holds(Master(0)) else Staged(cfg, w)
    decreases cfg.masterCount - done
  {
    var masters := Masters(cfg.masterCount)[done..];
    if done < cfg.masterCount {
      assert masters[0] == Master(done) && masters[1..] == Masters(cfg.masterCount)[done + 1..];
      OnlyMasterVisits(cfg, Visited(cfg, w, Master(done)), done + 1);
    }
  }

  // A completed run's visits: the masters, then the agents
  lemma MasterVisits(cfg: Config, w: World, agents: seq<AgentInfo>)
    ensures var after := VisitedAll(cfg, w, Masters(cfg.masterCount));
      VisitedAll(cfg, w, Nodes(cfg, agents)) == VisitedAll(cfg, after, Agents(agents)) &&
      (forall i: nat :: i < cfg.masterCount ==> after.Reports(Master(i)) == cfg.target) &&
      (forall a: Node :: a.Agent? ==> after.Reports(a) == w.Reports(a)) &&
      after.Holds(Master(0)) == Staged(cfg, w)
  {
    assert Masters(cfg.masterCount)[0..] == Masters(cfg.masterCount);
    OnlyMasterVisits(cfg, w, 0);
    VisitsAppend(cfg, w, Masters(cfg.masterCount), Agents(agents));
  }

  // The first stale agent keeps a version other than the target; everyone else ends at the target.
  lemma {:induction false} AgentVisits(cfg: Config, w: World, agents: seq<AgentInfo>, n: Node)
    ensures var after := VisitedAll(cfg, w, Agents(agents));
      if n in Agents(agents) && !cfg.Skips(w, n) then after.Reports(n) == Source(cfg.target, w, n)
      else after.Reports(n) == w.Reports(n)
    decreases |agents|
  {
    if agents != [] {
      var first, next := AgentNode(agents[0]), Visited(cfg, w, AgentNode(agents[0]));
      assert Agents(agents) == [first] + Agents(agents[1..]);
      AgentVisits(cfg, next, agents[1..], n);
    }
  }

  // Where a completed run leaves a node
  lemma CompletedReports(cfg: Config, w: World, log: Log, n: Node)
    requires Completed(cfg, w, log) && n in Nodes(cfg, Listed(log))
    ensures Replay(cfg.target, w, log).Reports(n) == cfg.target <==>
      !(n.Agent? && !n.windows && !cfg.Skips(w, n) && Staged(cfg, w) != cfg.target)
  {
    CompletedEffect(cfg, w, log);
    MasterVisits(cfg, w, Listed(log));
    AgentVisits(cfg, VisitedAll(cfg, w, Masters(cfg.masterCount)), Listed(log), n);
    assert n in Masters(cfg.masterCount) || n in Agents(Listed(log));
  }

  /** A completed run leaves every master and listed agent at the target, unless a stale script was handed out. */
  lemma CompletedReachesTarget(cfg: Config, w: World, log: Log)
    requires Completed(cfg, w, log)
    ensures (forall n :: n in Nodes(cfg, Listed(log)) ==> Replay(cfg.target, w, log).Reports(n) == cfg.target)
      <==> !StaleScript(cfg, w, Listed(log))
  {
    var agents := Listed(log);
    var nodes := Nodes(cfg, agents);
    forall n | n in nodes
      ensures Replay(cfg.target, w, log).Reports(n) == cfg.target <==>
        !(n.Agent? && !n.windows && !cfg.Skips(w, n) && Staged(cfg, w) != cfg.target)
    {
      CompletedReports(cfg, w, log, n);
    }
    if StaleScript(cfg, w, agents) {
      var i :| 0 <= i < |agents| && agents[i].os != "Windows" && !cfg.Skips(w, AgentNode(agents[i]));
      assert Agents(agents)[i] in nodes;
    } else {
      forall n | n in nodes && n.Agent? && !n.windows && !cfg.Skips(w, n) ensures Staged(cfg, w) == cfg.target {
        var i :| 0 <= i < |Agents(agents)| && Agents(agents)[i] == n;
        assert agents[i].os != "Windows";
      }
    }
  }

  // ----- how often a completed run starts a script -----

  function Starts(log: Log, n: Node): nat
  {
    match log
    case Empty => 0
    case Then(before, e) => Starts(before, n) + if e.cmd == RunScript(n) then 1 else 0
  }

  function PlannedStarts(plan: Plan, n: Node): nat
  {
    match plan
    case Done => 0
    case Do(c, rest) => PlannedStarts(rest, n) + if c == RunScript(n) then 1 else 0
  }

  lemma {:induction false} StartsArePlanned(log: Log, plan: Plan, n: Node)
    requires Todo(log, plan).Some?
    ensures Starts(log, n) + PlannedStarts(Todo(log, plan).value, n) == PlannedStarts(plan, n)
  {
    if log.Then? {
      StartsArePlanned(log.before, plan, n);
    }
  }

  lemma {:induction false} SetupStartsNothing(plan: Plan, tail: Plan, n: Node)
    requires SetupThen(plan, tail)
    ensures PlannedStarts(plan, n) == PlannedStarts(tail, n)
    decreases plan
  {
    if plan != tail {
      SetupStartsNothing(plan.rest, tail, n);
    }
  }

  lemma VisitStarts(n: Node, skip: bool, rest: Plan, m: Node)
    ensures PlannedStarts(Visit(n, skip, rest), m) == PlannedStarts(rest, m) + if !skip && n == m then 1 else 0
  {
    var p1 := Do(RunScript(n), Do(ReadNewVersion(n), rest));
    assert PlannedStarts(p1, m) == PlannedStarts(rest, m) + if n == m then 1 else 0;
    assert PlannedStarts(Do(ChmodScript(n), p1), m) == PlannedStarts(p1, m);
    assert PlannedStarts(Install(n, rest), m) == PlannedStarts(p1, m);
  }

  lemma {:induction false} UnguardedStarts(cfg: Config, w: World, nodes: seq<Node>, n: Node)
    requires !cfg.Guard()
    ensures PlannedStarts(VisitAll(cfg, w, nodes, Done), n) == multiset(nodes)[n]
    decreases |nodes|
  {
    if nodes != [] {
      var rest := VisitAll(cfg, Visited(cfg, w, nodes[0]), nodes[1..], Done);
      UnguardedStarts(cfg, Visited(cfg, w, nodes[0]), nodes[1..], n);
      VisitStarts(nodes[0], cfg.Skips(w, nodes[0]), rest, n);
      assert nodes == [nodes[0]] + nodes[1..];
    }
  }

  lemma {:induction false} GuardedStarts(cfg: Config, w: World, nodes: seq<Node>, n: Node)
    requires cfg.Guard() && Planned(InstallsTarget(cfg.target), cfg.target, w, VisitAll(cfg, w, nodes, Done))
    ensures PlannedStarts(VisitAll(cfg, w, nodes, Done), n) == if n in nodes && w.Reports(n) != cfg.target then 1 else 0
    decreases |nodes|
  {
    if nodes != [] {
      var first, next := nodes[0], Visited(cfg, w, nodes[0]);
      var rest := VisitAll(cfg, next, nodes[1..], Done);
      VisitIsPlannedBack(cfg, w, first, rest);
      VisitStarts(first, cfg.Skips(w, first), rest, n);
      GuardedStarts(cfg, next, nodes[1..], n);
      assert nodes == [first] + nodes[1..];
    }
  }

  lemma VisitIsPlannedBack(cfg: Config, w: World, n: Node, rest: Plan)
    requires Planned(InstallsTarget(cfg.target), cfg.target, w, Visit(n, cfg.Skips(w, n), rest))
    ensures Planned(InstallsTarget(cfg.target), cfg.target, Visited(cfg, w, n), rest)
    ensures Visited(cfg, w, n).Reports(n) == cfg.target || cfg.Skips(w, n)
  {
    if !cfg.Skips(w, n) {
      var copied := w.WithScript(n, Source(cfg.target, w, n));
      var p1 := Do(ReadNewVersion(n), rest);
      var p2 := Do(RunScript(n), p1);
      var ok := InstallsTarget(cfg.target);
      assert Planned(ok, cfg.target, w, Install(n, rest));
      assert Effect(cfg.target, w, CopyScript(n)) == copied;
      assert Planned(ok, cfg.target, copied, if n.Master? then Do(ChmodScript(n), p2) else p2);
      assert Planned(ok, cfg.target, copied, p2);
      assert Planned(ok, cfg.target, Installed(cfg.target, w, n), p1);
    }
  }

  /**
   A completed run starts a script exactly on the nodes that still need it while the guard is on, and on every
   listing of a node when it is off.
   */
  lemma CompletedStarts(cfg: Config, w: World, log: Log, n: Node)
    requires Completed(cfg, w, log) && cfg.masterCount >= 1 && (cfg.Guard() ==> ScriptInStep(cfg.target, w))
    ensures var nodes := Nodes(cfg, Listed(log));
      Starts(log, n) ==
        if !cfg.Guard() then multiset(nodes)[n]
        else if n in nodes && w.Reports(n) != cfg.target then 1
        else 0
  {
    var agents := Listed(log);
    var plan, nodes := FullPlan(cfg, w, agents), Nodes(cfg, agents);
    StartsArePlanned(log, plan, n);
    PlanIsSetupThenVisits(cfg, w, agents);
    SetupStartsNothing(plan, VisitAll(cfg, w, nodes, Done), n);
    if cfg.Guard() {
      VisitsInstallTarget(cfg, w, 0, agents);
      assert nodes[0..] == nodes;
      GuardedStarts(cfg, w, nodes, n);
    } else {
      UnguardedStarts(cfg, w, nodes, n);
    }
  }

  lemma {:induction false} UpgradedStarts(cfg: Config, w: World, nodes: seq<Node>, n: Node)
    requires cfg.Guard() && forall m :: m in nodes ==> w.Reports(m) == cfg.target
    ensures PlannedStarts(VisitAll(cfg, w, nodes, Done), n) == 0
    decreases |nodes|
  {
    if nodes != [] {
      assert nodes[0] in nodes;
      UpgradedStarts(cfg, w, nodes[1..], n);
    }
  }

  /** Running again over an upgraded cluster starts no script exactly when the saved version is still another one. */
  lemma RerunIsIdleOnlyUnderGuard(cfg: Config, w: World, log: Log)
    requires Completed(cfg, w, log) && cfg.masterCount >= 1
    requires forall n :: n in Nodes(cfg, Listed(log)) ==> w.Reports(n) == cfg.target
    ensures (forall n :: Starts(log, n) == 0) <==> cfg.Guard()
  {
    var agents := Listed(log);
    var plan, nodes := FullPlan(cfg, w, agents), Nodes(cfg, agents);
    if cfg.Guard() {
      PlanIsSetupThenVisits(cfg, w, agents);
      forall n ensures Starts(log, n) == 0 {
        StartsArePlanned(log, plan, n);
        SetupStartsNothing(plan, VisitAll(cfg, w, nodes, Done), n);
        UpgradedStarts(cfg, w, nodes, n);
      }
    } else {
      CompletedStarts(cfg, w, log, Master(0));
      assert nodes[0] == Master(0);
      assert Starts(log, Master(0)) == multiset(nodes)[Master(0)] > 0;
    }
  }

  // ----- interrupted runs, one after the other -----

  /** Whatever the command at which a run is cut off, what it did so far is again a run. */
  lemma {:induction false} CutRunIsLegal(cfg: Config, w: World, log: Log)
    requires log.Then? && LegalRun(cfg, w, log)
    ensures LegalRun(cfg, w, log.before)
  {
    var before, plan := log.before, FullPlan(cfg, w, Listed(log));
    if before.Then? {
      assert Todo(before, plan).Some?;
    }
  }

  // One invocation of the command: its cluster parameters, what it did, and whether the model was saved.
  datatype Attempt = Attempt(masterCount: nat, hasLinuxProfile: bool, hasWindowsProfile: bool, log: Log, saved: bool)
  {
    function ConfigFor(current: Version, target: Version): Config
    {
      Config(current, target, masterCount, hasLinuxProfile, hasWindowsProfile)
    }
  }

  // Attempts at one target, up to the first that saves the model; saving follows a completed run.
  ghost predicate Resuming(current: Version, target: Version, w: World, attempts: seq<Attempt>)
    decreases |attempts|
  {
    attempts != [] ==>
      var a := attempts[0];
      a.masterCount >= 1 && LegalRun(a.ConfigFor(current, target), w, a.log) &&
      (a.saved ==> Completed(a.ConfigFor(current, target), w, a.log) && |attempts| == 1) &&
      Resuming(current, target, Replay(target, w, a.log), attempts[1..])
  }

  function After(target: Version, w: World, attempts: seq<Attempt>): World
    decreases |attempts|
  {
    if attempts == [] then w else After(target, Replay(target, w, attempts[0].log), attempts[1..])
  }

  function TotalSuccesses(attempts: seq<Attempt>, n: Node): nat
    decreases |attempts|
  {
    if attempts == [] then 0 else Successes(attempts[0].log, n) + TotalSuccesses(attempts[1..], n)
  }

  /** Over any sequence of interrupted attempts, upgraded nodes stay upgraded and no node's script succeeds twice. */
  lemma {:induction false} ResumeKeepsProgress(current: Version, target: Version, w: World, attempts: seq<Attempt>,
        n: Node)
    requires current != target && ScriptInStep(target, w) && Resuming(current, target, w, attempts)
    ensures AtTarget(target, w, n) + TotalSuccesses(attempts, n) <= AtTarget(target, After(target, w, attempts), n) <= 1
    ensures ScriptInStep(target, After(target, w, attempts))
    decreases |attempts|
  {
    if attempts != [] {
      var a := attempts[0];
      var cfg := a.ConfigFor(current, target);
      UpgradedNodesAreSpared(cfg, w, a.log);
      ScriptsInstallTarget(cfg, w, a.log);
      ProgressIsKept(target, w, a.log, n);
      ScriptStaysInStep(target, w, a.log);
      ResumeKeepsProgress(current, target, Replay(target, w, a.log), attempts[1..], n);
    }
  }

  lemma {:induction false} ResumingAppend(current: Version, target: Version, w: World, attempts: seq<Attempt>,
        last: Attempt)
    requires Resuming(current, target, w, attempts + [last])
    ensures Resuming(current, target, w, attempts)
    ensures var before := After(target, w, attempts);
      last.masterCount >= 1 && LegalRun(last.ConfigFor(current, target), before, last.log) &&
      (last.saved ==> Completed(last.ConfigFor(current, target), before, last.log)) &&
      After(target, w, attempts + [last]) == Replay(target, before, last.log)
    decreases |attempts|
  {
    var all := attempts + [last];
    if attempts == [] {
      assert all == [last] && all[1..] == [];
    } else {
      assert all[1..] == attempts[1..] + [last];
      ResumingAppend(current, target, Replay(target, w, attempts[0].log), attempts[1..], last);
    }
  }

  /**
   However the earlier attempts ended, one that completes leaves all its masters and agents at the target, each
   script having been started only where it was still needed.
   */
  lemma ResumeCompletes(current: Version, target: Version, w: World, attempts: seq<Attempt>, last: Attempt, n: Node)
    requires current != target && ScriptInStep(target, w) && Resuming(current, target, w, attempts + [last])
    requires Completed(last.ConfigFor(current, target), After(target, w, attempts), last.log)
    requires n in Nodes(last.ConfigFor(current, target), Listed(last.log))
    ensures After(target, w, attempts + [last]).Reports(n) == target
    ensures Starts(last.log, n) == 1 - AtTarget(target, After(target, w, attempts), n)
  {
    var cfg, before := last.ConfigFor(current, target), After(target, w, attempts);
    ResumingAppend(current, target, w, attempts, last);
    ResumeKeepsProgress(current, target, w, attempts, n);
    CompletedReachesTarget(cfg, before, last.log);
    CompletedStarts(cfg, before, last.log, n);
  }
}
