/** The commands of a run, listed one by one: what any run is a beginning of. */
module UpgradeCommands {
  import opened Text
  import opened Upgrade

  // ----- the commands a run is meant to issue -----

  const LISTING_AND_KEY: seq<Command> := [ListAgents, CopySshKey, ChmodSshKey]

  // Up to the script that sets up the bootstrap node
  const BOOTSTRAP: seq<Command> := [
    CopyBootstrapScript, ChmodBootstrapScript, CopyBootstrapConfig,
    SendBootstrapScript, SendBootstrapConfig, RunBootstrapScript
  ]

  // What a cluster with Windows agents needs besides
  const WINDOWS: seq<Command> := [
    CopyWinBootstrapScript, CopyWinBootstrapConfig, SendWinBootstrapScript, SendWinBootstrapConfig,
    RunWinBootstrapScript, CopyWinAgentScript
  ]

  ghost predicate ListsWindows(agents: seq<AgentInfo>)
  {
    exists a :: a in agents && a.os == "Windows"
  }

  ghost function Setup(agents: seq<AgentInfo>): seq<Command>
  {
    LISTING_AND_KEY + BOOTSTRAP + if ListsWindows(agents) then WINDOWS else []
  }

  // The masters by number, then the agents as listed
  function NodeAt(masterCount: nat, agents: seq<AgentInfo>, k: nat): Node
    requires k < masterCount + |agents|
  {
    if k < masterCount then Master(k)
    else
      var a := agents[k - masterCount];
      Agent(a.hostname, a.os == "Windows")
  }

  // The commands of one visit; an up-to-date node is only asked for its version.
  function VisitCommands(n: Node, upToDate: bool): seq<Command>
  {
    if upToDate then [ReadVersion(n)]
    else if n.Master? then [ReadVersion(n), CopyScript(n), ChmodScript(n), RunScript(n), ReadNewVersion(n)]
    else [ReadVersion(n), CopyScript(n), RunScript(n), ReadNewVersion(n)]
  }

  // The world after these commands, all of them successful
  function Ran(target: Version, w: World, commands: seq<Command>): World
    decreases |commands|
  {
    if commands == [] then w else Ran(target, Effect(target, w, commands[0]), commands[1..])
  }

  // The visits from the k-th node on; what a node reports counts only if the saved version is to change.
  function VisitsFrom(cfg: Config, w: World, agents: seq<AgentInfo>, k: nat): seq<Command>
    requires k <= cfg.masterCount + |agents|
    decreases cfg.masterCount + |agents| - k
  {
    if k == cfg.masterCount + |agents| then []
    else
      var n := NodeAt(cfg.masterCount, agents, k);
      var visit := VisitCommands(n, cfg.current != cfg.target && w.Reports(n) == cfg.target);
      visit + VisitsFrom(cfg, Ran(cfg.target, w, visit), agents, k + 1)
  }

  ghost function Expected(cfg: Config, w: World, agents: seq<AgentInfo>): seq<Command>
  {
    Setup(agents) + VisitsFrom(cfg, w, agents, 0)
  }

  // ----- the commands of a log and of a plan -----

  function Commands(log: Log): seq<Command>
  {
    match log case Empty => [] case Then(before, e) => Commands(before) + [e.cmd]
  }

  ghost predicate AllGood(log: Log)
  {
    log.Then? ==> Good(log.event) && AllGood(log.before)
  }

  function PlanCommands(plan: Plan): seq<Command>
  {
    match plan case Done => [] case Do(c, rest) => [c] + PlanCommands(rest)
  }

  lemma PrefixAndNext<T>(s: seq<T>, x: T, all: seq<T>)
    ensures s + [x] <= all <==> s <= all && |s| < |all| && all[|s|] == x
  {
    if s + [x] <= all {
      assert (s + [x])[..|s|] == s && (s + [x])[|s|] == x;
    }
  }

  lemma {:induction false} TodoIsRest(log: Log, plan: Plan)
    ensures Todo(log, plan).Some? <==> AllGood(log) && Commands(log) <= PlanCommands(plan)
    ensures Todo(log, plan).Some? ==> PlanCommands(plan) == Commands(log) + PlanCommands(Todo(log, plan).value)
  {
    if log.Then? {
      var c, all := Commands(log.before), PlanCommands(plan);
      TodoIsRest(log.before, plan);
      PrefixAndNext(c, log.event.cmd, all);
      if Todo(log.before, plan).Some? && Todo(log.before, plan).value.Do? {
        var todo := Todo(log.before, plan).value;
        Reassociate(c, [todo.cmd], PlanCommands(todo.rest));
      }
    }
  }

  lemma FollowsIs(log: Log, plan: Plan)
    ensures Follows(log, plan) <==> Commands(log) <= PlanCommands(plan) && (log.Then? ==> AllGood(log.before))
  {
    if log.Then? {
      TodoIsRest(log.before, plan);
      PrefixAndNext(Commands(log.before), log.event.cmd, PlanCommands(plan));
    }
  }

  // ----- what the plan of a run lists -----

  lemma LinuxBootstrapLists(rest: Plan)
    ensures PlanCommands(LinuxBootstrap(rest)) == BOOTSTRAP + PlanCommands(rest)
  {
    var p := Do(SendBootstrapConfig, Do(RunBootstrapScript, rest));
    assert PlanCommands(p) == BOOTSTRAP[4..] + PlanCommands(rest);
    assert PlanCommands(Do(CopyBootstrapConfig, Do(SendBootstrapScript, p))) == BOOTSTRAP[2..] + PlanCommands(rest);
  }

  lemma WindowsBootstrapLists(rest: Plan)
    ensures PlanCommands(WindowsBootstrap(Do(CopyWinAgentScript, rest))) == WINDOWS + PlanCommands(rest)
  {
    var p := Do(RunWinBootstrapScript, Do(CopyWinAgentScript, rest));
    assert PlanCommands(p) == WINDOWS[4..] + PlanCommands(rest);
    assert PlanCommands(Do(SendWinBootstrapScript, Do(SendWinBootstrapConfig, p))) ==
      WINDOWS[2..] + PlanCommands(rest);
  }

  lemma InstallLists(n: Node, rest: Plan)
    ensures [ReadVersion(n)] + PlanCommands(Install(n, rest)) == VisitCommands(n, false) + PlanCommands(rest)
  {
    var p := Do(RunScript(n), Do(ReadNewVersion(n), rest));
    assert PlanCommands(p) == [RunScript(n), ReadNewVersion(n)] + PlanCommands(rest);
    assert PlanCommands(Do(ChmodScript(n), p)) ==
      [ChmodScript(n), RunScript(n), ReadNewVersion(n)] + PlanCommands(rest);
  }

  lemma {:induction false} RanAppend(target: Version, w: World, commands: seq<Command>, c: Command)
    ensures Ran(target, w, commands + [c]) == Effect(target, Ran(target, w, commands), c)
    decreases |commands|
  {
    if commands != [] {
      assert (commands + [c])[1..] == commands[1..] + [c];
      RanAppend(target, Effect(target, w, commands[0]), commands[1..], c);
    }
  }

  lemma RunRan(target: Version, w: World, s: seq<Command>, n: Node)
    ensures Ran(target, w, s + [RunScript(n), ReadNewVersion(n)]) == Effect(target, Ran(target, w, s), RunScript(n))
  {
    RanAppend(target, w, s, RunScript(n));
    RanAppend(target, w, s + [RunScript(n)], ReadNewVersion(n));
    assert s + [RunScript(n), ReadNewVersion(n)] == s + [RunScript(n)] + [ReadNewVersion(n)];
  }

  lemma CopyRan(target: Version, w: World, n: Node)
    ensures Ran(target, w, [ReadVersion(n)]) == w
    ensures Ran(target, w, [ReadVersion(n), CopyScript(n)]) == Effect(target, w, CopyScript(n))
    ensures Ran(target, w, [ReadVersion(n), CopyScript(n), ChmodScript(n)]) == Effect(target, w, CopyScript(n))
  {
    var read, copied := [ReadVersion(n)], [ReadVersion(n), CopyScript(n)];
    assert read == [] + read && copied == read + [CopyScript(n)];
    assert [ReadVersion(n), CopyScript(n), ChmodScript(n)] == copied + [ChmodScript(n)];
    RanAppend(target, w, [], ReadVersion(n));
    RanAppend(target, w, read, CopyScript(n));
    RanAppend(target, w, copied, ChmodScript(n));
  }

  lemma VisitRan(cfg: Config, w: World, n: Node)
    ensures Ran(cfg.target, w, VisitCommands(n, cfg.Skips(w, n))) == Visited(cfg, w, n)
  {
    CopyRan(cfg.target, w, n);
    if !cfg.Skips(w, n) {
      var s := [ReadVersion(n), CopyScript(n)] + if n.Master? then [ChmodScript(n)] else [];
      assert VisitCommands(n, false) == s + [RunScript(n), ReadNewVersion(n)];
      RunRan(cfg.target, w, s, n);
      assert n.Master? ==> s == [ReadVersion(n), CopyScript(n), ChmodScript(n)];
      assert n.Agent? ==> s == [ReadVersion(n), CopyScript(n)];
      assert Ran(cfg.target, w, s) == Effect(cfg.target, w, CopyScript(n));
    }
  }

  lemma {:induction false} VisitsList(cfg: Config, w: World, agents: seq<AgentInfo>, k: nat)
    requires k <= cfg.masterCount + |agents|
    ensures PlanCommands(VisitAll(cfg, w, Nodes(cfg, agents)[k..], Done)) == VisitsFrom(cfg, w, agents, k)
    decreases cfg.masterCount + |agents| - k
  {
    var nodes := Nodes(cfg, agents)[k..];
    if k < cfg.masterCount + |agents| {
      var n := nodes[0];
      var rest := VisitAll(cfg, Visited(cfg, w, n), nodes[1..], Done);
      assert n == NodeAt(cfg.masterCount, agents, k) && nodes[1..] == Nodes(cfg, agents)[k + 1..];
      VisitsList(cfg, Visited(cfg, w, n), agents, k + 1);
      VisitRan(cfg, w, n);
      InstallLists(n, rest);
    }
  }

  lemma SetupLists(agents: seq<AgentInfo>, visits: Plan)
    ensures PlanCommands(Do(ListAgents, AfterListing(agents, visits))) == Setup(agents) + PlanCommands(visits)
  {
    assert HasWindows(agents) <==> ListsWindows(agents);
    var rest := if HasWindows(agents) then WindowsBootstrap(Do(CopyWinAgentScript, visits)) else visits;
    var win := if HasWindows(agents) then WINDOWS else [];
    WindowsBootstrapLists(visits);
    assert PlanCommands(rest) == win + PlanCommands(visits);
    KeyLists(LinuxBootstrap(rest));
    LinuxBootstrapLists(rest);
    Reassociate(LISTING_AND_KEY, BOOTSTRAP, PlanCommands(rest));
    Reassociate(LISTING_AND_KEY + BOOTSTRAP, win, PlanCommands(visits));
  }

  lemma KeyLists(rest: Plan)
    ensures PlanCommands(Do(ListAgents, Do(CopySshKey, Do(ChmodSshKey, rest)))) == LISTING_AND_KEY + PlanCommands(rest)
  {
    assert PlanCommands(Do(CopySshKey, Do(ChmodSshKey, rest))) == LISTING_AND_KEY[1..] + PlanCommands(rest);
  }

  lemma PlanLists(cfg: Config, w: World, agents: seq<AgentInfo>)
    ensures PlanCommands(FullPlan(cfg, w, agents)) == Expected(cfg, w, agents)
    ensures HasWindows(agents) <==> ListsWindows(agents)
  {
    assert Nodes(cfg, agents)[0..] == Nodes(cfg, agents);
    VisitsList(cfg, w, agents, 0);
    SetupLists(agents, VisitAll(cfg, w, Nodes(cfg, agents), Done));
  }

  // ----- the main results -----

  /**
   A run issues the listed commands in order, up to any of them, and goes on only after good answers; without the
   bootstrap profile for Linux it issues none, without a needed one for Windows at most the listing of the agents.
   */
  lemma LegalRunIs(cfg: Config, w: World, log: Log)
    ensures LegalRun(cfg, w, log) <==>
      Commands(log) <= Expected(cfg, w, Listed(log)) && (log.Then? ==> AllGood(log.before)) &&
      (!cfg.hasLinuxProfile ==> log == Empty) &&
      (ListsWindows(Listed(log)) && !cfg.hasWindowsProfile ==> |Commands(log)| <= 1)
  {
    PlanLists(cfg, w, Listed(log));
    FollowsIs(log, FullPlan(cfg, w, Listed(log)));
  }

  /** It completes exactly if all of them were issued and answered well. */
  lemma CompletedIs(cfg: Config, w: World, log: Log)
    ensures Completed(cfg, w, log) <==>
      Commands(log) == Expected(cfg, w, Listed(log)) && AllGood(log) && cfg.hasLinuxProfile &&
      (ListsWindows(Listed(log)) ==> cfg.hasWindowsProfile)
  {
    var plan := FullPlan(cfg, w, Listed(log));
    PlanLists(cfg, w, Listed(log));
    TodoIsRest(log, plan);
    if Todo(log, plan).Some? {
      assert PlanCommands(Todo(log, plan).value) == [] <==> Todo(log, plan).value == Done;
      assert Commands(log) == PlanCommands(plan) <==> PlanCommands(Todo(log, plan).value) == [];
    }
  }

  /** The world by which the listed visits are decided is the one the run has reached at that point. */
  lemma {:induction false} WorldIsRan(target: Version, w: World, log: Log)
    requires AllGood(log)
    ensures Replay(target, w, log) == Ran(target, w, Commands(log))
  {
    if log.Then? {
      WorldIsRan(target, w, log.before);
      RanAppend(target, w, Commands(log.before), log.event.cmd);
    }
  }
}
