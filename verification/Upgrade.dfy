/**
 The DC/OS cluster upgrade: remote commands on bootstrap, master and agent nodes, issued one at a
 time, the first failure aborting the run. A remote command's answer is arbitrary. The list of
 answers still to come may be shorter than the run needs: the process then dies at that command.
 */
module Upgrade {
  import opened Text

  type Version = string

  datatype AgentInfo = AgentInfo(hostname: string, os: string)

  datatype Node = Master(index: nat) | Agent(hostname: string, windows: bool)

  // Every remote command of a run, in the order of the source
  datatype Command =
    | ListAgents | CopySshKey | ChmodSshKey
    | CopyBootstrapScript | ChmodBootstrapScript | CopyBootstrapConfig
    | SendBootstrapScript | SendBootstrapConfig | RunBootstrapScript
    | CopyWinBootstrapScript | CopyWinBootstrapConfig
    | SendWinBootstrapScript | SendWinBootstrapConfig | RunWinBootstrapScript
    | CopyWinAgentScript
    | ReadVersion(node: Node) | CopyScript(node: Node) | ChmodScript(node: Node)
    | RunScript(node: Node) | ReadNewVersion(node: Node)

  // `left` and `leftUrl` are what a failed copy or script leaves behind: an arbitrary version and script URL.
  datatype Reply = Reply(ok: bool, readable: bool, output: string, agents: Option<seq<AgentInfo>>,
        left: Version, leftUrl: string)

  datatype Event = Event(cmd: Command, reply: Reply)

  // The commands of a run with their answers, the latest outermost
  datatype Log = Empty | Then(before: Log, event: Event)

  // What the cluster holds: the version each node reports and the version its upgrade script installs.
  datatype World = World(versions: map<Node, Version>, scripts: map<Node, Version>)
  {
    function Reports(n: Node): Version
    {
      if n in versions then versions[n] else ""
    }

    function Holds(n: Node): Version
    {
      if n in scripts then scripts[n] else ""
    }

    function WithVersion(n: Node, v: Version): World
    {
      this.(versions := versions[n := v])
    }

    function WithScript(n: Node, v: Version): World
    {
      this.(scripts := scripts[n := v])
    }
  }

  datatype Config = Config(current: Version, target: Version, masterCount: nat,
    hasLinuxProfile: bool, hasWindowsProfile: bool)
  {
    // The partial-upgrade test is armed only when the run changes the saved version.
    predicate Guard()
    {
      current != target
    }

    predicate Skips(w: World, n: Node)
    {
      Guard() && w.Reports(n) == target
    }
  }

  // ----- the script URL in the bootstrap output -----

  // In pieces, since the verifier handles a long literal slowly
  const URL_PREFIX: string := "Setting up bootstrap" + " node completed." + " Node upgrade" + " script URL"

  predicate IsSpace(c: char)
  {
    c == ' ' || '\t' <= c <= '\r'
  }

  function TrimSpace(s: string): string
    decreases |s|
  {
    if s == [] then []
    else if IsSpace(s[0]) then TrimSpace(s[1..])
    else if IsSpace(s[|s| - 1]) then TrimSpace(s[..|s| - 1])
    else s
  }

  function UrlIn(lines: seq<string>): string
  {
    if lines == [] then ""
    else if URL_PREFIX <= lines[0] then TrimSpace(lines[0][|URL_PREFIX|..])
    else UrlIn(lines[1..])
  }

  function UpgradeUrl(output: string): string
  {
    UrlIn(Split(output, '\n'))
  }

  // An answer that lets the run go on
  predicate Good(e: Event)
  {
    e.reply.ok &&
    match e.cmd
    case ListAgents => e.reply.agents.Some?
    case RunBootstrapScript => UpgradeUrl(e.reply.output) != ""
    case RunWinBootstrapScript => UpgradeUrl(e.reply.output) != ""
    case ReadVersion(_) => e.reply.readable
    case _ => true
  }

  // ----- effects on the cluster -----

  // A Linux agent gets the script file that lies on the first master; a master gets one written for
  // the target, and so does a Windows agent, whose file is named after the version.
  function Source(target: Version, w: World, n: Node): Version
  {
    if n.Agent? && !n.windows then w.Holds(Master(0)) else target
  }

  function Effect(target: Version, w: World, c: Command): World
  {
    match c
    case CopyScript(n) => w.WithScript(n, Source(target, w, n))
    case RunScript(n) => w.WithVersion(n, w.Holds(n))
    case _ => w
  }

  function Damage(w: World, e: Event): World
  {
    match e.cmd
    case CopyScript(n) => w.WithScript(n, e.reply.left)
    case RunScript(n) => w.WithVersion(n, e.reply.left)
    case _ => w
  }

  function Apply(target: Version, w: World, e: Event): World
  {
    if e.reply.ok then Effect(target, w, e.cmd) else Damage(w, e)
  }

  function Replay(target: Version, w: World, log: Log): World
  {
    match log
    case Empty => w
    case Then(before, e) => Apply(target, Replay(target, w, before), e)
  }

  // ----- the plan of a run -----

  datatype Plan = Done | Do(cmd: Command, rest: Plan)

  function Install(n: Node, rest: Plan): Plan
  {
    Do(CopyScript(n),
      if n.Master? then Do(ChmodScript(n), Do(RunScript(n), Do(ReadNewVersion(n), rest)))
      else Do(RunScript(n), Do(ReadNewVersion(n), rest)))
  }

  function Visit(n: Node, skip: bool, rest: Plan): Plan
  {
    Do(ReadVersion(n), if skip then rest else Install(n, rest))
  }

  // The cluster after a script was copied to a node and has succeeded there
  function Installed(target: Version, w: World, n: Node): World
  {
    var script := Source(target, w, n);
    w.WithScript(n, script).WithVersion(n, script)
  }

  function Visited(cfg: Config, w: World, n: Node): World
  {
    if cfg.Skips(w, n) then w else Installed(cfg.target, w, n)
  }

  function VisitAll(cfg: Config, w: World, nodes: seq<Node>, rest: Plan): Plan
    decreases |nodes|
  {
    if nodes == [] then rest
    else Visit(nodes[0], cfg.Skips(w, nodes[0]), VisitAll(cfg, Visited(cfg, w, nodes[0]), nodes[1..], rest))
  }

  function VisitedAll(cfg: Config, w: World, nodes: seq<Node>): World
    decreases |nodes|
  {
    if nodes == [] then w else VisitedAll(cfg, Visited(cfg, w, nodes[0]), nodes[1..])
  }

  function LinuxBootstrap(rest: Plan): Plan
  {
    Do(CopyBootstrapScript, Do(ChmodBootstrapScript, Do(CopyBootstrapConfig,
      Do(SendBootstrapScript, Do(SendBootstrapConfig, Do(RunBootstrapScript, rest))))))
  }

  function WindowsBootstrap(rest: Plan): Plan
  {
    Do(CopyWinBootstrapScript, Do(CopyWinBootstrapConfig,
      Do(SendWinBootstrapScript, Do(SendWinBootstrapConfig, Do(RunWinBootstrapScript, rest)))))
  }

  predicate HasWindows(agents: seq<AgentInfo>)
  {
    exists i :: 0 <= i < |agents| && agents[i].os == "Windows"
  }

  function AfterListing(agents: seq<AgentInfo>, rest: Plan): Plan
  {
    Do(CopySshKey, Do(ChmodSshKey, LinuxBootstrap(
      if HasWindows(agents) then WindowsBootstrap(Do(CopyWinAgentScript, rest)) else rest)))
  }

  function Masters(count: nat): seq<Node>
  {
    seq(count, i requires 0 <= i < count => Master(i))
  }

  function AgentNode(a: AgentInfo): Node
  {
    Agent(a.hostname, a.os == "Windows")
  }

  function Agents(agents: seq<AgentInfo>): seq<Node>
  {
    seq(|agents|, i requires 0 <= i < |agents| => AgentNode(agents[i]))
  }

  function Nodes(cfg: Config, agents: seq<AgentInfo>): seq<Node>
  {
    Masters(cfg.masterCount) + Agents(agents)
  }

  function FullPlan(cfg: Config, w: World, agents: seq<AgentInfo>): Plan
  {
    Do(ListAgents, AfterListing(agents, VisitAll(cfg, w, Nodes(cfg, agents), Done)))
  }

  // ----- runs -----

  // What is left of `plan` once the log has carried out its first commands with good answers
  function Todo(log: Log, plan: Plan): Option<Plan>
  {
    match log
    case Empty => Some(plan)
    case Then(before, e) =>
      match Todo(before, plan)
      case Some(Do(c, rest)) => if c == e.cmd && Good(e) then Some(rest) else None
      case _ => None
  }

  // As above, except that the last answer may be one that stops the run
  ghost predicate Follows(log: Log, plan: Plan)
  {
    log.Then? ==>
      match Todo(log.before, plan)
      case Some(Do(c, _)) => c == log.event.cmd
      case _ => false
  }

  // The agents the first command of a run listed
  function Listed(log: Log): seq<AgentInfo>
  {
    match log
    case Empty => []
    case Then(before, e) =>
      if before.Then? then Listed(before) else if e.reply.agents.Some? then e.reply.agents.value else []
  }

  ghost predicate ProfilesMissing(cfg: Config, log: Log)
  {
    !cfg.hasLinuxProfile || (HasWindows(Listed(log)) && !cfg.hasWindowsProfile)
  }

  /** What a run may have done when it ends, by failing, by dying or by completing. */
  ghost predicate LegalRun(cfg: Config, w: World, log: Log)
  {
    Follows(log, FullPlan(cfg, w, Listed(log))) &&
    (!cfg.hasLinuxProfile ==> log.Empty?) &&
    (ProfilesMissing(cfg, log) ==> log.Empty? || log.before.Empty?)
  }

  ghost predicate Completed(cfg: Config, w: World, log: Log)
  {
    !ProfilesMissing(cfg, log) && Todo(log, FullPlan(cfg, w, Listed(log))) == Some(Done)
  }

  // The remote side during a run: what it holds, has been told, and will answer
  datatype Remote = Remote(world: World, log: Log, replies: seq<Reply>)

  /** One run of the upgrade; the object lives as long as the run. */
  class UpgradeCluster {
    const cfg: Config
    ghost const start: World
    var remote: Remote
    ghost var plan: Plan

    constructor (cfg: Config, world: World, replies: seq<Reply>)
      ensures this.cfg == cfg && start == world && remote == Remote(world, Empty, replies) &&
        plan == Do(ListAgents, Done)
    {
      this.cfg := cfg;
      start := world;
      remote := Remote(world, Empty, replies);
      plan := Do(ListAgents, Done);
    }

    // Everything so far went well and as planned, and `todo` is left.
    ghost predicate Left(todo: Plan)
      reads this
    {
      Todo(remote.log, plan) == Some(todo) && remote.world == Replay(cfg.target, start, remote.log)
    }

    // The run ended early: on a bad answer, or because no answer came.
    ghost predicate Stopped()
      reads this
    {
      Follows(remote.log, plan) && remote.world == Replay(cfg.target, start, remote.log) &&
      ((remote.log.Then? && !Good(remote.log.event)) || (Todo(remote.log, plan) != Some(Done) && remote.replies == []))
    }

    twostate predicate SameListing()
      reads this
    {
      old(remote).log.Then? ==> remote.log.Then? && Listed(remote.log) == Listed(old(remote).log)
    }

    method RemoteRun(cmd: Command, ghost rest: Plan) returns (answer: Option<Reply>)
      requires Left(Do(cmd, rest))
      modifies `remote
      ensures SameListing()
      ensures answer.None? ==> Stopped() && remote.log == old(remote).log
      ensures answer.Some? ==> remote.log == Then(old(remote).log, Event(cmd, answer.value))
      ensures answer.Some? ==> remote.world == Apply(cfg.target, old(remote).world, Event(cmd, answer.value))
      ensures answer.Some? ==> if Good(Event(cmd, answer.value)) then Left(rest) else Stopped()
    {
      if remote.replies == [] {
        return None;
      }
      var e := Event(cmd, remote.replies[0]);
      remote := Remote(Apply(cfg.target, remote.world, e), Then(remote.log, e), remote.replies[1..]);
      answer := Some(e.reply);
    }

    // A command whose answer only counts as success or failure
    method Run(cmd: Command, ghost rest: Plan) returns (ok: bool)
      requires Left(Do(cmd, rest))
      requires !cmd.ListAgents? && !cmd.RunBootstrapScript? && !cmd.RunWinBootstrapScript? && !cmd.ReadVersion?
      modifies `remote
      ensures SameListing()
      ensures if ok then Left(rest) else Stopped()
      ensures ok && !cmd.CopyScript? && !cmd.RunScript? ==> remote.world == old(remote).world
      ensures ok && cmd.CopyScript? ==>
        remote.world == old(remote).world.WithScript(cmd.node, Source(cfg.target, old(remote).world, cmd.node))
      ensures ok && cmd.RunScript? ==>
        remote.world == old(remote).world.WithVersion(cmd.node, old(remote).world.Holds(cmd.node))
    {
      var answer := RemoteRun(cmd, rest);
      ok := answer.Some? && answer.value.ok;
    }

    method FindUrl(output: string) returns (url: string)
      ensures url == UpgradeUrl(output)
    {
      url := "";
      var lines := Split(output, '\n');
      for i := 0 to |lines|
        invariant url == "" && UrlIn(lines[i..]) == UpgradeUrl(output)
      {
        if URL_PREFIX <= lines[i] {
          url := TrimSpace(lines[i][|URL_PREFIX|..]);
          break;
        }
      }
    }

    method RunForUrl(cmd: Command, ghost rest: Plan) returns (ok: bool)
      requires Left(Do(cmd, rest)) && (cmd.RunBootstrapScript? || cmd.RunWinBootstrapScript?)
      modifies `remote
      ensures SameListing()
      ensures if ok then Left(rest) && remote.world == old(remote).world else Stopped()
    {
      var answer := RemoteRun(cmd, rest);
      if answer.None? || !answer.value.ok {
        return false;
      }
      var url := FindUrl(answer.value.output);
      ok := url != "";
    }

    method UpgradeBootstrapNode(ghost rest: Plan) returns (ok: bool)
      requires Left(LinuxBootstrap(rest))
      modifies `remote
      ensures SameListing()
      ensures if ok then Left(rest) && remote.world == old(remote).world else Stopped()
    {
      ghost var todo := LinuxBootstrap(rest).rest;
      ok := Run(CopyBootstrapScript, todo);
      if !ok { return; }
      todo := todo.rest;
      ok := Run(ChmodBootstrapScript, todo);
      if !ok { return; }
      todo := todo.rest;
      ok := Run(CopyBootstrapConfig, todo);
      if !ok { return; }
      todo := todo.rest;
      ok := Run(SendBootstrapScript, todo);
      if !ok { return; }
      todo := todo.rest;
      ok := Run(SendBootstrapConfig, todo);
      if !ok { return; }
      ok := RunForUrl(RunBootstrapScript, rest);
    }

    method UpgradeWindowsBootstrapNode(ghost rest: Plan) returns (ok: bool)
      requires Left(WindowsBootstrap(rest))
      modifies `remote
      ensures SameListing()
      ensures if ok then Left(rest) && remote.world == old(remote).world else Stopped()
    {
      ghost var todo := WindowsBootstrap(rest).rest;
      ok := Run(CopyWinBootstrapScript, todo);
      if !ok { return; }
      todo := todo.rest;
      ok := Run(CopyWinBootstrapConfig, todo);
      if !ok { return; }
      todo := todo.rest;
      ok := Run(SendWinBootstrapScript, todo);
      if !ok { return; }
      todo := todo.rest;
      ok := Run(SendWinBootstrapConfig, todo);
      if !ok { return; }
      ok := RunForUrl(RunWinBootstrapScript, rest);
    }

    // The version a node reports; None when the command fails or its output does not parse
    method ReadNodeVersion(n: Node, ghost rest: Plan) returns (version: Option<Version>)
      requires Left(Do(ReadVersion(n), rest))
      modifies `remote
      ensures SameListing()
      ensures if version.Some? then Left(rest) && remote.world == old(remote).world else Stopped()
      ensures version.Some? ==> version.value == remote.world.Reports(n)
    {
      var answer := RemoteRun(ReadVersion(n), rest);
      if answer.None? || !answer.value.ok || !answer.value.readable {
        return None;
      }
      version := Some(remote.world.Reports(n));
    }

    method InstallOnMaster(i: nat, ghost rest: Plan) returns (ok: bool)
      requires Left(Install(Master(i), rest))
      modifies `remote
      ensures SameListing()
      ensures if ok then Left(rest) && remote.world == Installed(cfg.target, old(remote).world, Master(i))
              else Stopped()
    {
      var node := Master(i);
      ghost var todo := Install(node, rest).rest;
      ok := Run(CopyScript(node), todo);
      if !ok { return; }
      todo := todo.rest;
      ok := Run(ChmodScript(node), todo);
      if !ok { return; }
      todo := todo.rest;
      ok := Run(RunScript(node), todo);
      if !ok { return; }
      ok := Run(ReadNewVersion(node), rest);
    }

    method InstallOnAgent(agent: AgentInfo, ghost rest: Plan) returns (ok: bool)
      requires Left(Install(AgentNode(agent), rest))
      modifies `remote
      ensures SameListing()
      ensures if ok then Left(rest) && remote.world == Installed(cfg.target, old(remote).world, AgentNode(agent))
              else Stopped()
    {
      var node := AgentNode(agent);
      ghost var todo := Install(node, rest).rest;
      ok := Run(CopyScript(node), todo);
      if !ok { return; }
      todo := todo.rest;
      ok := Run(RunScript(node), todo);
      if !ok { return; }
      ok := Run(ReadNewVersion(node), rest);
    }

    // Reads a node's version and tells whether the script is still needed there.
    method NeedsUpgrade(node: Node, ghost rest: Plan) returns (answer: Option<bool>)
      requires Left(Visit(node, cfg.Skips(remote.world, node), rest))
      modifies `remote
      ensures SameListing()
      ensures if answer.Some? then remote.world == old(remote).world && answer.value == !cfg.Skips(remote.world, node)
              else Stopped()
      ensures answer.Some? ==> Left(if answer.value then Install(node, rest) else rest)
    {
      var version := ReadNodeVersion(node, if cfg.Skips(remote.world, node) then rest else Install(node, rest));
      if version.None? {
        return None;
      }
      answer := Some(!(cfg.current != cfg.target && version.value == cfg.target));
    }

    method UpgradeMasterNode(i: nat, ghost rest: Plan) returns (ok: bool)
      requires Left(Visit(Master(i), cfg.Skips(remote.world, Master(i)), rest))
      modifies `remote
      ensures SameListing()
      ensures if ok then Left(rest) && remote.world == Visited(cfg, old(remote).world, Master(i)) else Stopped()
    {
      var needed := NeedsUpgrade(Master(i), rest);
      if needed.None? {
        return false;
      }
      if !needed.value {
        return true;
      }
      ok := InstallOnMaster(i, rest);
    }

    // upgradeLinuxAgent and upgradeWindowsAgent issue the same sequence of commands.
    method UpgradeAgent(agent: AgentInfo, ghost rest: Plan) returns (ok: bool)
      requires Left(Visit(AgentNode(agent), cfg.Skips(remote.world, AgentNode(agent)), rest))
      modifies `remote
      ensures SameListing()
      ensures if ok then Left(rest) && remote.world == Visited(cfg, old(remote).world, AgentNode(agent)) else Stopped()
    {
      var needed := NeedsUpgrade(AgentNode(agent), rest);
      if needed.None? {
        return false;
      }
      if !needed.value {
        return true;
      }
      ok := InstallOnAgent(agent, rest);
    }

    method UpgradeMasterNodes(ghost agents: seq<Node>) returns (ok: bool)
      requires Left(VisitAll(cfg, remote.world, Masters(cfg.masterCount) + agents, Done))
      modifies `remote
      ensures SameListing()
      ensures if ok then Left(VisitAll(cfg, remote.world, agents, Done)) else Stopped()
    {
      ghost var nodes := Masters(cfg.masterCount) + agents;
      assert nodes[0..] == nodes;
      for i := 0 to cfg.masterCount
        invariant SameListing() && Left(VisitAll(cfg, remote.world, nodes[i..], Done))
      {
        assert nodes[i..][0] == Master(i) && nodes[i..][1..] == nodes[i + 1..];
        ok := UpgradeMasterNode(i, VisitAll(cfg, Visited(cfg, remote.world, Master(i)), nodes[i + 1..], Done));
        if !ok { return; }
      }
      assert nodes[cfg.masterCount..] == agents;
      ok := true;
    }

    method UpgradeAgents(agents: seq<AgentInfo>) returns (ok: bool)
      requires Left(VisitAll(cfg, remote.world, Agents(agents), Done))
      modifies `remote
      ensures SameListing()
      ensures if ok then Left(Done) else Stopped()
    {
      ghost var nodes := Agents(agents);
      assert nodes[0..] == nodes;
      for i := 0 to |agents|
        invariant SameListing() && Left(VisitAll(cfg, remote.world, nodes[i..], Done))
      {
        var node := AgentNode(agents[i]);
        assert nodes[i..][0] == node && nodes[i..][1..] == nodes[i + 1..];
        ok := UpgradeAgent(agents[i], VisitAll(cfg, Visited(cfg, remote.world, node), nodes[i + 1..], Done));
        if !ok { return; }
      }
      assert nodes[|agents|..] == [];
      ok := true;
    }

    method CopyKeyAndBootstrap(agents: seq<AgentInfo>, ghost rest: Plan) returns (ok: bool)
      requires Left(AfterListing(agents, rest))
      modifies `remote
      ensures SameListing()
      ensures if ok then Left(rest) && remote.world == old(remote).world else Stopped()
    {
      var hasWindowsAgents := HasWindows(agents);
      ghost var winRest := Do(CopyWinAgentScript, rest);
      ghost var win := if hasWindowsAgents then WindowsBootstrap(winRest) else rest;
      ok := Run(CopySshKey, Do(ChmodSshKey, LinuxBootstrap(win)));
      if !ok { return; }
      ok := Run(ChmodSshKey, LinuxBootstrap(win));
      if !ok { return; }
      ok := UpgradeBootstrapNode(win);
      if !ok { return; }
      if hasWindowsAgents {
        ok := UpgradeWindowsBootstrapNode(winRest);
        if !ok { return; }
        ok := Run(CopyWinAgentScript, rest);
      }
    }

    /** The whole run. It fails only on a bad answer, a missing answer or a missing bootstrap profile. */
    method RunUpgrade() returns (ok: bool)
      requires remote.log.Empty? && remote.world == start && plan == Do(ListAgents, Done)
      modifies this
      ensures LegalRun(cfg, start, remote.log)
      ensures remote.world == Replay(cfg.target, start, remote.log)
      ensures ok <==> Completed(cfg, start, remote.log)
      ensures ok || ProfilesMissing(cfg, remote.log) || remote.replies == [] ||
        (remote.log.Then? && !Good(remote.log.event))
    {
      if !cfg.hasLinuxProfile {
        return false;
      }
      var answer := RemoteRun(ListAgents, Done);
      if answer.None? || !answer.value.ok || answer.value.agents.None? {
        return false;
      }
      var agents := answer.value.agents.value;
      var hasWindowsAgents := HasWindows(agents);
      ghost var visits := VisitAll(cfg, start, Nodes(cfg, agents), Done);
      plan := FullPlan(cfg, start, agents);
      if hasWindowsAgents && !cfg.hasWindowsProfile {
        return false;
      }
      ok := CopyKeyAndBootstrap(agents, visits);
      if !ok { return; }
      ok := UpgradeMasterNodes(Agents(agents));
      if !ok { return; }
      ok := UpgradeAgents(agents);
    }
  }
}
