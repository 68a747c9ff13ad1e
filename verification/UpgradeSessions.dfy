/** The `upgrade` command called again and again: the histories that other modules reason about are those it makes. */
module UpgradeSessions {
  import opened Upgrade
  import opened UpgradeHistory
  import opened UpgradeCommand

  // What one invocation meets: the command line, the answers of the cluster, and whether the file can be written
  datatype Call = Call(target: string, locationMatches: bool, replies: seq<Reply>, saveWorks: bool)

  // ----- any sequence of targets -----

  lemma {:induction false} PossibleExtends(supported: seq<string>, defaultVersion: string, m: Model,
        history: seq<Invocation>, last: Invocation)
    requires Possible(supported, defaultVersion, m, history)
    requires last.succeeded ==> Admits(supported, defaultVersion, ModelAfter(m, history), last.target)
    ensures Possible(supported, defaultVersion, m, history + [last])
    ensures ModelAfter(m, history + [last]) == Next(ModelAfter(m, history), last)
    decreases |history|
  {
    var all := history + [last];
    if history == [] {
      assert all == [last] && all[1..] == [];
    } else {
      assert all[0] == history[0] && all[1..] == history[1..] + [last];
      PossibleExtends(supported, defaultVersion, Next(m, history[0]), history[1..], last);
    }
  }

  method InvokeOnce(cmd: DcosUpgradeCmd, call: Call, before: seq<Invocation>, ghost m: Model)
    returns (history: seq<Invocation>)
    requires Possible(cmd.supported, cmd.defaultVersion, m, before) && cmd.model == ModelAfter(m, before)
    modifies cmd
    ensures |history| == |before| + 1 && history[..|before|] == before && history[|before|].target == call.target
    ensures Possible(cmd.supported, cmd.defaultVersion, m, history) && cmd.model == ModelAfter(m, history)
  {
    var ok, log := cmd.Run(call.target, call.locationMatches, call.replies, call.saveWorks);
    var last := Invocation(call.target, ok);
    PossibleExtends(cmd.supported, cmd.defaultVersion, m, before, last);
    history := before + [last];
  }

  /** Invocations one after the other, for any targets */
  method Invoke(cmd: DcosUpgradeCmd, calls: seq<Call>) returns (history: seq<Invocation>)
    modifies cmd
    ensures |history| == |calls| && forall i :: 0 <= i < |calls| ==> history[i].target == calls[i].target
    ensures Possible(cmd.supported, cmd.defaultVersion, old(cmd.model), history)
    ensures cmd.model == ModelAfter(old(cmd.model), history)
  {
    history := [];
    for i := 0 to |calls|
      invariant |history| == i && forall j :: 0 <= j < i ==> history[j].target == calls[j].target
      invariant Possible(cmd.supported, cmd.defaultVersion, old(cmd.model), history)
      invariant cmd.model == ModelAfter(old(cmd.model), history)
    {
      history := InvokeOnce(cmd, calls[i], history, old(cmd.model));
    }
  }

  // ----- one target, until it is saved -----

  // One more attempt at the target, on whatever the earlier ones left
  method Attempting(cmd: DcosUpgradeCmd, call: Call) returns (attempt: Attempt)
    modifies cmd
    ensures var m := old(cmd.model);
      var cfg := ConfigOf(cmd.supported, cmd.defaultVersion, m, call.target);
      attempt.ConfigFor(cfg.current, cfg.target) == cfg && LegalRun(cfg, old(cmd.world), attempt.log) &&
      (attempt.saved ==> Completed(cfg, old(cmd.world), attempt.log)) &&
      cmd.model == (if attempt.saved then Saved(m, call.target) else m)
    ensures cmd.world == Replay(call.target, old(cmd.world), attempt.log)
  {
    var m := cmd.model;
    var ok, log := cmd.Run(call.target, call.locationMatches, call.replies, call.saveWorks);
    attempt := Attempt(m.masterCount, m.hasLinuxProfile, m.hasWindowsProfile, log, ok);
  }

  lemma FirstThen(current: Version, target: Version, w: World, first: Attempt, rest: seq<Attempt>)
    requires first.masterCount >= 1 && LegalRun(first.ConfigFor(current, target), w, first.log)
    requires first.saved ==> Completed(first.ConfigFor(current, target), w, first.log) && rest == []
    requires Resuming(current, target, Replay(target, w, first.log), rest)
    ensures Resuming(current, target, w, [first] + rest)
    ensures After(target, w, [first] + rest) == After(target, Replay(target, w, first.log), rest)
  {
    assert ([first] + rest)[1..] == rest;
  }

  /** Attempts at one target, whatever becomes of each, until one saves it */
  method Retry(cmd: DcosUpgradeCmd, target: string, calls: seq<Call>) returns (attempts: seq<Attempt>)
    requires cmd.model.masterCount >= 1 && forall i :: 0 <= i < |calls| ==> calls[i].target == target
    modifies cmd
    ensures Resuming(CurrentOf(cmd.supported, cmd.defaultVersion, old(cmd.model)), target, old(cmd.world), attempts)
    ensures cmd.world == After(target, old(cmd.world), attempts)
    ensures |attempts| == |calls| || (0 < |attempts| < |calls| && attempts[|attempts| - 1].saved)
    ensures cmd.model ==
      if attempts != [] && attempts[|attempts| - 1].saved then Saved(old(cmd.model), target) else old(cmd.model)
    decreases |calls|
  {
    if calls == [] {
      return [];
    }
    var first := Attempting(cmd, calls[0]);
    ghost var current := CurrentOf(cmd.supported, cmd.defaultVersion, old(cmd.model));
    if first.saved {
      FirstThen(current, target, old(cmd.world), first, []);
      return [first];
    }
    var rest := Retry(cmd, target, calls[1..]);
    FirstThen(current, target, old(cmd.world), first, rest);
    attempts := [first] + rest;
  }
}
