/**
 The URL written into each node's script file. An attempt prints a URL of its own when its bootstrap
 node is set up; the files on the masters carry that one, the Linux agents copy the first master's.
 */
module UpgradeUrls {
  import opened Text
  import opened Upgrade
  import opened UpgradeCommands
  import opened UpgradeHistory

  type Files = map<Node, string>

  function UrlAt(f: Files, n: Node): string
  {
    if n in f then f[n] else ""
  }

  // The URLs that the bootstrap nodes printed last in this run
  function LinuxUrl(log: Log): string
  {
    match log
    case Empty => ""
    case Then(before, e) => if e.cmd.RunBootstrapScript? then UpgradeUrl(e.reply.output) else LinuxUrl(before)
  }

  function WindowsUrl(log: Log): string
  {
    match log
    case Empty => ""
    case Then(before, e) => if e.cmd.RunWinBootstrapScript? then UpgradeUrl(e.reply.output) else WindowsUrl(before)
  }

  function CopiedUrl(linux: string, windows: string, f: Files, n: Node): string
  {
    if n.Master? then linux else if n.windows then windows else UrlAt(f, Master(0))
  }

  function FilesAfter(f: Files, log: Log): Files
  {
    match log
    case Empty => f
    case Then(before, e) =>
      var g := FilesAfter(f, before);
      match e.cmd
      case CopyScript(n) =>
        g[n := if e.reply.ok then CopiedUrl(LinuxUrl(before), WindowsUrl(before), g, n) else e.reply.leftUrl]
      case _ => g
  }

  // ----- the files a plan leaves, once the URLs are known -----

  function PlanFiles(linux: string, windows: string, f: Files, plan: Plan): Files
    decreases plan
  {
    match plan
    case Done => f
    case Do(CopyScript(n), rest) => PlanFiles(linux, windows, f[n := CopiedUrl(linux, windows, f, n)], rest)
    case Do(_, rest) => PlanFiles(linux, windows, f, rest)
  }

  predicate PrintsUrl(c: Command)
  {
    c.RunBootstrapScript? || c.RunWinBootstrapScript?
  }

  // No further URL is printed.
  predicate Quiet(plan: Plan)
  {
    plan.Do? ==> !PrintsUrl(plan.cmd) && Quiet(plan.rest)
  }

  // No script is copied to a node before the last URL is printed.
  predicate Ordered(plan: Plan)
  {
    Quiet(plan) || (!plan.cmd.CopyScript? && Ordered(plan.rest))
  }

  lemma {:induction false} LogHasPlanFiles(f: Files, log: Log, plan: Plan)
    requires Todo(log, plan).Some? && Ordered(plan)
    ensures var rest := Todo(log, plan).value;
      Ordered(rest) &&
      (Quiet(rest) ==>
        PlanFiles(LinuxUrl(log), WindowsUrl(log), FilesAfter(f, log), rest) ==
        PlanFiles(LinuxUrl(log), WindowsUrl(log), f, plan)) &&
      (!Quiet(rest) ==>
        FilesAfter(f, log) == f && forall l, w :: PlanFiles(l, w, f, rest) == PlanFiles(l, w, f, plan))
  {
    if log.Then? {
      LogHasPlanFiles(f, log.before, plan);
      var before := Todo(log.before, plan).value;
      if !Quiet(before) {
        assert !before.cmd.CopyScript?;
        assert forall l, w :: PlanFiles(l, w, f, before) == PlanFiles(l, w, f, before.rest);
      }
    }
  }

  lemma {:induction false} VisitsAreQuiet(cfg: Config, w: World, nodes: seq<Node>)
    ensures Quiet(VisitAll(cfg, w, nodes, Done))
    decreases |nodes|
  {
    if nodes != [] {
      var n, next := nodes[0], Visited(cfg, w, nodes[0]);
      var rest := VisitAll(cfg, next, nodes[1..], Done);
      VisitsAreQuiet(cfg, next, nodes[1..]);
      var p := Do(RunScript(n), Do(ReadNewVersion(n), rest));
      assert Quiet(Do(ReadNewVersion(n), rest)) && Quiet(p) && Quiet(Do(ChmodScript(n), p));
      assert Quiet(Install(n, rest));
    }
  }

  lemma {:induction false} SetupIsOrdered(linux: string, windows: string, f: Files, plan: Plan, tail: Plan)
    requires SetupThen(plan, tail) && Quiet(tail)
    ensures Ordered(plan) && PlanFiles(linux, windows, f, plan) == PlanFiles(linux, windows, f, tail)
    decreases plan
  {
    if plan != tail {
      SetupIsOrdered(linux, windows, f, plan.rest, tail);
    }
  }

  // ----- along the nodes -----

  function VisitedFile(cfg: Config, w: World, linux: string, windows: string, f: Files, n: Node): Files
  {
    if cfg.Skips(w, n) then f else f[n := CopiedUrl(linux, windows, f, n)]
  }

  function VisitedFiles(cfg: Config, w: World, linux: string, windows: string, f: Files, nodes: seq<Node>): Files
    decreases |nodes|
  {
    if nodes == [] then f
    else
      VisitedFiles(cfg, Visited(cfg, w, nodes[0]), linux, windows, VisitedFile(cfg, w, linux, windows, f, nodes[0]),
        nodes[1..])
  }

  lemma VisitHasFile(cfg: Config, w: World, linux: string, windows: string, f: Files, n: Node, rest: Plan)
    ensures PlanFiles(linux, windows, f, Visit(n, cfg.Skips(w, n), rest)) ==
      PlanFiles(linux, windows, VisitedFile(cfg, w, linux, windows, f, n), rest)
  {
    var g := f[n := CopiedUrl(linux, windows, f, n)];
    var p := Do(RunScript(n), Do(ReadNewVersion(n), rest));
    assert PlanFiles(linux, windows, g, Do(ReadNewVersion(n), rest)) == PlanFiles(linux, windows, g, rest);
    assert PlanFiles(linux, windows, g, p) == PlanFiles(linux, windows, g, rest);
    assert PlanFiles(linux, windows, g, Do(ChmodScript(n), p)) == PlanFiles(linux, windows, g, p);
    assert PlanFiles(linux, windows, f, Install(n, rest)) == PlanFiles(linux, windows, g, rest);
  }

  lemma {:induction false} VisitsHaveFiles(cfg: Config, w: World, linux: string, windows: string, f: Files,
        nodes: seq<Node>)
    ensures PlanFiles(linux, windows, f, VisitAll(cfg, w, nodes, Done)) ==
      VisitedFiles(cfg, w, linux, windows, f, nodes)
    decreases |nodes|
  {
    if nodes != [] {
      var next, g := Visited(cfg, w, nodes[0]), VisitedFile(cfg, w, linux, windows, f, nodes[0]);
      VisitsHaveFiles(cfg, next, linux, windows, g, nodes[1..]);
      VisitHasFile(cfg, w, linux, windows, f, nodes[0], VisitAll(cfg, next, nodes[1..], Done));
    }
  }

  lemma CompletedFiles(cfg: Config, w: World, log: Log, f: Files)
    requires Completed(cfg, w, log)
    ensures FilesAfter(f, log) == VisitedFiles(cfg, w, LinuxUrl(log), WindowsUrl(log), f, Nodes(cfg, Listed(log)))
  {
    var agents := Listed(log);
    var plan, visits := FullPlan(cfg, w, agents), VisitAll(cfg, w, Nodes(cfg, agents), Done);
    PlanIsSetupThenVisits(cfg, w, agents);
    VisitsAreQuiet(cfg, w, Nodes(cfg, agents));
    SetupIsOrdered(LinuxUrl(log), WindowsUrl(log), f, plan, visits);
    LogHasPlanFiles(f, log, plan);
    VisitsHaveFiles(cfg, w, LinuxUrl(log), WindowsUrl(log), f, Nodes(cfg, agents));
  }

  lemma {:induction false} FilesAppend(cfg: Config, w: World, l: string, win: string, f: Files,
        front: seq<Node>, back: seq<Node>)
    ensures VisitedFiles(cfg, w, l, win, f, front + back) ==
      VisitedFiles(cfg, VisitedAll(cfg, w, front), l, win, VisitedFiles(cfg, w, l, win, f, front), back)
    decreases |front|
  {
    if front == [] {
      assert front + back == back;
    } else {
      var next, g := Visited(cfg, w, front[0]), VisitedFile(cfg, w, l, win, f, front[0]);
      assert (front + back)[1..] == front[1..] + back;
      FilesAppend(cfg, next, l, win, g, front[1..], back);
    }
  }

  // The masters: the first one's file changes only if that one is visited and not skipped.
  lemma {:induction false} MasterFiles(cfg: Config, w: World, l: string, win: string, f: Files, done: nat)
    requires done <= cfg.masterCount
    ensures UrlAt(VisitedFiles(cfg, w, l, win, f, Masters(cfg.masterCount)[done..]), Master(0)) ==
      if done == 0 < cfg.masterCount && !cfg.Skips(w, Master(0)) then l else UrlAt(f, Master(0))
    decreases cfg.masterCount - done
  {
    var masters := Masters(cfg.masterCount)[done..];
    if done < cfg.masterCount {
      var m := Master(done);
      assert masters[0] == m && masters[1..] == Masters(cfg.masterCount)[done + 1..];
      MasterFiles(cfg, Visited(cfg, w, m), l, win, VisitedFile(cfg, w, l, win, f, m), done + 1);
    }
  }

  // The agents: each one that is not skipped gets its copy; the first master's file stays.
  lemma {:induction false} AgentFiles(cfg: Config, w: World, l: string, win: string, f: Files, agents: seq<AgentInfo>,
        n: Node)
    requires n.Agent?
    ensures var files := VisitedFiles(cfg, w, l, win, f, Agents(agents));
      UrlAt(files, Master(0)) == UrlAt(f, Master(0)) &&
      UrlAt(files, n) ==
        if n in Agents(agents) && !cfg.Skips(w, n) then CopiedUrl(l, win, f, n) else UrlAt(f, n)
    decreases |agents|
  {
    if agents != [] {
      var first := AgentNode(agents[0]);
      assert Agents(agents) == [first] + Agents(agents[1..]);
      AgentFiles(cfg, Visited(cfg, w, first), l, win, VisitedFile(cfg, w, l, win, f, first), agents[1..], n);
    }
  }

  /**
   After a completed run, the file of a Linux agent that was not skipped carries this attempt's URL if
   and only if the first master was not skipped either, or its file has that URL already. A Windows
   agent's file always does.
   */
  lemma AgentCarriesUrl(cfg: Config, w: World, log: Log, f: Files, n: Node)
    requires Completed(cfg, w, log) && n in Agents(Listed(log)) && !cfg.Skips(w, n)
    ensures !n.windows ==>
      UrlAt(FilesAfter(f, log), n) ==
        if cfg.masterCount > 0 && !cfg.Skips(w, Master(0)) then LinuxUrl(log) else UrlAt(f, Master(0))
    ensures !n.windows ==>
      (UrlAt(FilesAfter(f, log), n) == LinuxUrl(log) <==>
        (cfg.masterCount > 0 && !cfg.Skips(w, Master(0))) || UrlAt(f, Master(0)) == LinuxUrl(log))
    ensures n.windows ==> UrlAt(FilesAfter(f, log), n) == WindowsUrl(log)
  {
    var agents, l, win := Listed(log), LinuxUrl(log), WindowsUrl(log);
    var masters := Masters(cfg.masterCount);
    CompletedFiles(cfg, w, log, f);
    MasterFiles(cfg, w, l, win, f, 0);
    FilesAppend(cfg, w, l, win, f, masters, Agents(agents));
    MasterVisits(cfg, w, agents);
    assert masters[0..] == masters;
    AgentFiles(cfg, VisitedAll(cfg, w, masters), l, win, VisitedFiles(cfg, w, l, win, f, masters), agents, n);
  }

  /** Once the first master reports the target, no run for it replaces the script file there. */
  lemma {:induction false} FirstFileIsStuck(cfg: Config, w: World, log: Log, f: Files)
    requires cfg.Guard() && LegalRun(cfg, w, log) && w.Reports(Master(0)) == cfg.target
    ensures var end := Replay(cfg.target, w, log);
      end.Reports(Master(0)) == cfg.target && end.Holds(Master(0)) == w.Holds(Master(0)) &&
      UrlAt(FilesAfter(f, log), Master(0)) == UrlAt(f, Master(0))
  {
    UpgradedNodesAreSpared(cfg, w, log);
    SparedIsStuck(cfg.target, w, log, f);
  }

  lemma {:induction false} SparedIsStuck(target: Version, w: World, log: Log, f: Files)
    requires Always(NotUpgradedYet(target), target, w, log) && w.Reports(Master(0)) == target
    ensures var end := Replay(target, w, log);
      end.Reports(Master(0)) == target && end.Holds(Master(0)) == w.Holds(Master(0)) &&
      UrlAt(FilesAfter(f, log), Master(0)) == UrlAt(f, Master(0))
  {
    if log.Then? {
      SparedIsStuck(target, w, log.before, f);
    }
  }

  // ----- where a URL comes from -----

  predicate Blank(s: string)
  {
    forall i :: 0 <= i < |s| ==> IsSpace(s[i])
  }

  predicate Trimmed(s: string)
  {
    s != [] ==> !IsSpace(s[0]) && !IsSpace(s[|s| - 1])
  }

  // The i-th line is the first with the prefix, and carries `url` between spaces.
  ghost predicate ShownAt(lines: seq<string>, i: nat, a: string, url: string, b: string)
  {
    i < |lines| && (forall j :: 0 <= j < i ==> !(URL_PREFIX <= lines[j])) && lines[i] == URL_PREFIX + (a + url + b) &&
    Blank(a) && Trimmed(url) && Blank(b)
  }

  ghost predicate Shows(output: string, url: string)
  {
    exists lines, i: nat, a, b ::
      lines != [] && Free(lines, '\n') && Join(lines, '\n') == output && ShownAt(lines, i, a, url, b)
  }

  lemma {:induction false} TrimSpaceIs(s: string) returns (a: string, b: string)
    ensures s == a + TrimSpace(s) + b && Blank(a) && Trimmed(TrimSpace(s)) && Blank(b)
    decreases |s|
  {
    if s == [] {
      a, b := [], [];
    } else if IsSpace(s[0]) {
      a, b := TrimSpaceIs(s[1..]);
      Whole(s);
      a := [s[0]] + a;
    } else if IsSpace(s[|s| - 1]) {
      a, b := TrimSpaceIs(s[..|s| - 1]);
      FrontAndLast(s);
      b := b + [s[|s| - 1]];
    } else {
      a, b := [], [];
    }
  }

  lemma {:induction false} UrlIsShownAt(lines: seq<string>) returns (i: nat, a: string, b: string)
    requires UrlIn(lines) != ""
    ensures ShownAt(lines, i, a, UrlIn(lines), b)
  {
    if URL_PREFIX <= lines[0] {
      i := 0;
      a, b := TrimSpaceIs(lines[0][|URL_PREFIX|..]);
    } else {
      i, a, b := UrlIsShownAt(lines[1..]);
      i := i + 1;
    }
  }

  // The URL of a run is what the first line with the prefix says.
  lemma UrlIsShown(output: string)
    requires UpgradeUrl(output) != ""
    ensures Shows(output, UpgradeUrl(output))
  {
    var i, a, b := UrlIsShownAt(Split(output, '\n'));
    JoinSplit(output, '\n');
  }

  // A successful command of the run has shown `url`.
  ghost predicate Printed(log: Log, cmd: Command, url: string)
  {
    log.Then? &&
    ((log.event.cmd == cmd && log.event.reply.ok && Shows(log.event.reply.output, url)) ||
      Printed(log.before, cmd, url))
  }

  lemma {:induction false} UrlIsPrinted(log: Log)
    requires AllGood(log)
    ensures RunBootstrapScript in Commands(log) ==>
      LinuxUrl(log) != "" && Printed(log, RunBootstrapScript, LinuxUrl(log))
    ensures RunWinBootstrapScript in Commands(log) ==>
      WindowsUrl(log) != "" && Printed(log, RunWinBootstrapScript, WindowsUrl(log))
  {
    if log.Then? {
      UrlIsPrinted(log.before);
      if PrintsUrl(log.event.cmd) {
        UrlIsShown(log.event.reply.output);
      }
    }
  }

  lemma {:induction false} CopyIsVisit(cfg: Config, w: World, agents: seq<AgentInfo>, k: nat, n: Node)
    requires k <= cfg.masterCount + |agents| && CopyScript(n) in VisitsFrom(cfg, w, agents, k)
    ensures n.Agent? && n.windows ==> ListsWindows(agents)
    decreases cfg.masterCount + |agents| - k
  {
    var m := NodeAt(cfg.masterCount, agents, k);
    var visit := VisitCommands(m, cfg.current != cfg.target && w.Reports(m) == cfg.target);
    if CopyScript(n) !in visit {
      CopyIsVisit(cfg, Ran(cfg.target, w, visit), agents, k + 1, n);
    } else {
      assert n == m;
    }
  }

  // A command that follows in the list is one of the setup, or has the whole setup behind it.
  lemma SetupIsBehind(commands: seq<Command>, c: Command, setup: seq<Command>, visits: seq<Command>)
    requires commands + [c] <= setup + visits
    ensures c in setup || (setup <= commands && c in visits)
  {
    var k, all := |commands|, setup + visits;
    PrefixAndNext(commands, c, all);
    if k < |setup| {
      assert all[k] == setup[k];
    } else {
      assert all[k] == visits[k - |setup|];
      assert commands[..|setup|] == all[..|setup|] == setup;
    }
  }

  lemma SetupPrints(agents: seq<AgentInfo>)
    ensures RunBootstrapScript in Setup(agents)
    ensures ListsWindows(agents) ==> RunWinBootstrapScript in Setup(agents)
    ensures forall c :: c in Setup(agents) ==> !c.CopyScript?
  {
    assert BOOTSTRAP[5] == RunBootstrapScript && WINDOWS[4] == RunWinBootstrapScript;
  }

  /**
   Before a script is copied, the bootstrap script has shown a URL in this run, and for a Windows agent that of the
   Windows bootstrap node too.
   */
  lemma CopiesFollowUrls(cfg: Config, w: World, before: Log, e: Event)
    requires LegalRun(cfg, w, Then(before, e)) && e.cmd.CopyScript?
    ensures LinuxUrl(before) != "" && Printed(before, RunBootstrapScript, LinuxUrl(before))
    ensures e.cmd.node.Agent? && e.cmd.node.windows ==>
      WindowsUrl(before) != "" && Printed(before, RunWinBootstrapScript, WindowsUrl(before))
  {
    var agents := Listed(Then(before, e));
    LegalRunIs(cfg, w, Then(before, e));
    SetupPrints(agents);
    SetupIsBehind(Commands(before), e.cmd, Setup(agents), VisitsFrom(cfg, w, agents, 0));
    CopyIsVisit(cfg, w, agents, 0, e.cmd.node);
    UrlIsPrinted(before);
  }
}
