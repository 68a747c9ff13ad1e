/** The `upgrade` command: which target it admits, and what it saves over its lifetime. */
module UpgradeCommand {
  import opened Text
  import opened Decimal
  import opened SemVer
  import opened Versions
  import Upgrade

  // The parts of apimodel.json the command reads and writes
  datatype Model = Model(orchType: string, release: string, version: string, masterCount: nat,
    hasLinuxProfile: bool, hasWindowsProfile: bool)

  // ----- available upgrades -----

  // The minor number is a 64-bit unsigned integer and wraps around.
  function NextNextMinor(v: Version): Version
  {
    Version(v.major, (v.minor + 2) % UINT64, 0, [], [])
  }

  function NextNextMinorString(v: Version): string
  {
    Digits(v.major) + "." + (Digits((v.minor + 2) % UINT64) + ".0")
  }

  method DcosUpgrades(supported: seq<string>, version: string) returns (ret: Option<seq<string>>)
    ensures ret.None? <==> Parse(version).None?
    ensures ret.Some? ==> forall v :: v in ret.value <==> IsUpgrade(supported, version, v)
  {
    var currentVer := Parse(version);
    if currentVer.None? {
      return None;
    }
    var nextNext := NextNextMinorString(currentVer.value);
    var upgradeable := GetVersionsBetween(supported, version, nextNext, false, false);
    var list := [];
    for i := 0 to |upgradeable|
      invariant list == upgradeable[..i]
    {
      list := list + [upgradeable[i]];
    }
    assert list == upgradeable;
    forall v ensures v in list <==> IsUpgrade(supported, version, v) {
      UpgradesAreBetween(supported, version, v);
    }
    ret := Some(list);
  }

  lemma UpgradesAreBetween(supported: seq<string>, version: string, v: string)
    requires Parse(version).Some?
    ensures v in VersionsBetween(supported, version, NextNextMinorString(Parse(version).value), false, false)
      <==> IsUpgrade(supported, version, v)
  {
    var current := Parse(version).value;
    ParseIs(version, current);
    NextNextIsParsed(current);
    BetweenMembers(supported, version, NextNextMinorString(current), false, false, v);
    PrecedenceOrder(Make(version), Make(v), Make(v));
  }

  lemma NextNextIsParsed(v: Version)
    requires Valid(v)
    ensures Make(NextNextMinorString(v)) == NextNextMinor(v)
  {
    var next := NextNextMinor(v);
    assert Print(next) == NextNextMinorString(v) by {
      assert PatchText(next) == "0" + "" + "";
    }
    ParseIs(NextNextMinorString(v), next);
  }

  // A supported version above the current one and below the minor release after the next; a
  // prerelease only if the current version is one.
  ghost predicate IsUpgrade(supported: seq<string>, current: string, v: string)
  {
    v in supported && Lt(Make(current), Make(v)) && Lt(Make(v), NextNextMinor(Make(current))) &&
    (IsPrerelease(Make(v)) ==> IsPrerelease(Make(current)))
  }

  method IsVersionSupported(supported: seq<string>, version: string) returns (found: bool)
    ensures found <==> version in supported
  {
    for i := 0 to |supported|
      invariant version !in supported[..i]
    {
      if supported[i] == version {
        return true;
      }
    }
    found := false;
  }

  method GetOrchestratorVersionProfile(supported: seq<string>, orchType: string, version: string)
    returns (upgrades: Option<seq<string>>)
    ensures upgrades.Some? <==> orchType == DCOS && version in supported && Parse(version).Some?
    ensures upgrades.Some? ==> forall v :: v in upgrades.value <==> IsUpgrade(supported, version, v)
  {
    assert Parse("").None?;
    if version == "" || orchType != DCOS {
      return None;
    }
    var known := IsVersionSupported(supported, version);
    if !known {
      return None;
    }
    upgrades := DcosUpgrades(supported, version);
  }

  // ----- the command -----

  function CurrentOf(supported: seq<string>, defaultVersion: string, m: Model): string
  {
    Rationalize(supported, defaultVersion, m.orchType, m.release, m.version)
  }

  // The targets a cluster may be moved to: the version it has, and the upgrades of that version
  ghost predicate Admits(supported: seq<string>, defaultVersion: string, m: Model, target: string)
  {
    var current := CurrentOf(supported, defaultVersion, m);
    m.hasLinuxProfile && m.hasWindowsProfile &&
    current in supported && Parse(current).Some? && Parse(target).Some? &&
    (target == current || IsUpgrade(supported, current, target))
  }

  function Saved(m: Model, target: string): Model
  {
    m.(version := target, release := MajorMinor(Make(target)))
  }

  function ConfigOf(supported: seq<string>, defaultVersion: string, m: Model, target: string): Upgrade.Config
  {
    Upgrade.Config(CurrentOf(supported, defaultVersion, m), target, m.masterCount, m.hasLinuxProfile,
      m.hasWindowsProfile)
  }

  class DcosUpgradeCmd {
    const supported: seq<string>
    const defaultVersion: string
    // apimodel.json and the cluster
    var model: Model
    var world: Upgrade.World
    // derived by LoadCluster
    var currentDcosVersion: string
    var orchestratorVersion: string

    constructor (supported: seq<string>, defaultVersion: string, model: Model, world: Upgrade.World)
      ensures this.supported == supported && this.defaultVersion == defaultVersion && this.model == model &&
        this.world == world
    {
      this.supported := supported;
      this.defaultVersion := defaultVersion;
      this.model := model;
      this.world := world;
      currentDcosVersion, orchestratorVersion := "", "";
    }

    // The target is noted as soon as it is found among the versions on offer.
    method Choose(versions: seq<string>, upgradeVersion: string) returns (found: bool)
      modifies `orchestratorVersion
      ensures found <==> upgradeVersion in versions
      ensures orchestratorVersion == if found then upgradeVersion else old(orchestratorVersion)
    {
      for i := 0 to |versions|
        invariant upgradeVersion !in versions[..i] && orchestratorVersion == old(orchestratorVersion)
      {
        if versions[i] == upgradeVersion {
          orchestratorVersion := upgradeVersion;
          return true;
        }
      }
      found := false;
    }

    // Setting a bootstrap URL in a missing profile panics, which ends the command like an error does.
    method LoadCluster(upgradeVersion: string, locationMatches: bool) returns (ok: bool)
      modifies `currentDcosVersion, `orchestratorVersion
      ensures ok <==> locationMatches && Admits(supported, defaultVersion, model, upgradeVersion)
      ensures currentDcosVersion == CurrentOf(supported, defaultVersion, model)
      ensures ok ==> orchestratorVersion == upgradeVersion
    {
      currentDcosVersion := RationalizeReleaseAndVersion(supported, defaultVersion, model.orchType, model.release,
        model.version);
      orchestratorVersion := currentDcosVersion;
      var cv, uv := Parse(currentDcosVersion), Parse(upgradeVersion);
      if cv.None? || uv.None? {
        return false;
      }
      PrecedenceOrder(cv.value, uv.value, cv.value);
      PrecedenceOrder(cv.value, cv.value, cv.value);
      if Lt(uv.value, cv.value) {
        return false;
      }
      if !locationMatches {
        return false;
      }
      var upgrades := GetOrchestratorVersionProfile(supported, model.orchType, currentDcosVersion);
      if upgrades.None? {
        assert model.orchType != DCOS ==> Parse("").None?;
        return false;
      }
      var all := upgrades.value + [currentDcosVersion];
      var found := Choose(all, upgradeVersion);
      ok := found && model.hasLinuxProfile && model.hasWindowsProfile;
    }

    /** One invocation. The model changes only when the whole upgrade went through and the file could be written. */
    method Run(upgradeVersion: string, locationMatches: bool, replies: seq<Upgrade.Reply>, saveWorks: bool)
      returns (ok: bool, log: Upgrade.Log)
      modifies this
      ensures var admitted := locationMatches && Admits(supported, defaultVersion, old(model), upgradeVersion);
        var cfg := ConfigOf(supported, defaultVersion, old(model), upgradeVersion);
        (admitted ==> Upgrade.LegalRun(cfg, old(world), log)) && (!admitted ==> log == Upgrade.Empty) &&
        (ok <==> admitted && Upgrade.Completed(cfg, old(world), log) && saveWorks)
      ensures world == Upgrade.Replay(upgradeVersion, old(world), log)
      ensures model == if ok then Saved(old(model), upgradeVersion) else old(model)
    {
      log := Upgrade.Empty;
      ok := LoadCluster(upgradeVersion, locationMatches);
      if !ok { return; }
      var cfg := Upgrade.Config(currentDcosVersion, orchestratorVersion, model.masterCount, model.hasLinuxProfile,
        model.hasWindowsProfile);
      var cluster := new Upgrade.UpgradeCluster(cfg, world, replies);
      ok := cluster.RunUpgrade();
      log, world := cluster.remote.log, cluster.remote.world;
      if !ok { return; }
      if !saveWorks {
        return false, log;
      }
      model := model.(version := orchestratorVersion, release := MajorMinor(Make(orchestratorVersion)));
    }
  }

  // ----- versions over the lifetime of a cluster -----

  lemma {:induction false} ParsedHasNoV(s: string)
    requires Parse(s).Some?
    ensures s != "" && s[0] != 'v'
  {
    var v := Parse(s).value;
    ParseIs(s, v);
    assert s[0] == Digits(v.major)[0];
  }

  /** A saved target is the version the next invocation loads. */
  lemma SavedIsReloaded(supported: seq<string>, defaultVersion: string, m: Model, target: string)
    requires m.orchType == DCOS && target in supported && Parse(target).Some?
    ensures CurrentOf(supported, defaultVersion, Saved(m, target)) == target
  {
    ParsedHasNoV(target);
    var release := MajorMinor(Make(target));
    assert release[0] == Digits(Make(target).major)[0];
    assert release != "";
  }

  /** An admitted target is never below the current version, with or without the explicit test. */
  lemma AdmittedIsNoDowngrade(supported: seq<string>, defaultVersion: string, m: Model, target: string)
    requires Admits(supported, defaultVersion, m, target)
    ensures var current := CurrentOf(supported, defaultVersion, m);
      m.orchType == DCOS && target in supported && !Precedes(Make(target), Make(current)) &&
      (target == current ||
        (Precedes(Make(current), Make(target)) && Precedes(Make(target), NextNextMinor(Make(current)))))
  {
    var current := CurrentOf(supported, defaultVersion, m);
    PrecedenceOrder(Make(current), Make(target), Make(current));
    LtIsPrecedes(Make(current), Make(target));
    LtIsPrecedes(Make(target), NextNextMinor(Make(current)));
    assert Parse("").None?;
  }

  // Invocations one after the other: the target asked for and whether the command succeeded
  datatype Invocation = Invocation(target: string, succeeded: bool)

  function Next(m: Model, i: Invocation): Model
  {
    if i.succeeded then Saved(m, i.target) else m
  }

  // Only admitted targets can succeed.
  ghost predicate Possible(supported: seq<string>, defaultVersion: string, m: Model, history: seq<Invocation>)
    decreases |history|
  {
    history != [] ==>
      (history[0].succeeded ==> Admits(supported, defaultVersion, m, history[0].target)) &&
      Possible(supported, defaultVersion, Next(m, history[0]), history[1..])
  }

  function ModelAfter(m: Model, history: seq<Invocation>): Model
    decreases |history|
  {
    if history == [] then m else ModelAfter(Next(m, history[0]), history[1..])
  }

  /**
   Over any history the version of the model never decreases, stays supported, and changes only by a
   successful invocation.
   */
  lemma {:induction false} VersionsOnlyGrow(supported: seq<string>, defaultVersion: string, m: Model,
        history: seq<Invocation>)
    requires Possible(supported, defaultVersion, m, history)
    ensures var first := CurrentOf(supported, defaultVersion, m);
      var last := CurrentOf(supported, defaultVersion, ModelAfter(m, history));
      !Precedes(Make(last), Make(first)) &&
      (last == first || (last in supported &&
        exists i :: 0 <= i < |history| && history[i].succeeded && history[i].target == last)) &&
      ((forall i :: 0 <= i < |history| ==> !history[i].succeeded) ==> ModelAfter(m, history) == m)
    decreases |history|
  {
    var first := CurrentOf(supported, defaultVersion, m);
    PrecedenceOrder(Make(first), Make(first), Make(first));
    LtIsPrecedes(Make(first), Make(first));
    if history != [] {
      var head, rest := history[0], history[1..];
      var next := Next(m, head);
      VersionsOnlyGrow(supported, defaultVersion, next, rest);
      var second := CurrentOf(supported, defaultVersion, next);
      var last := CurrentOf(supported, defaultVersion, ModelAfter(next, rest));
      if head.succeeded {
        AdmittedIsNoDowngrade(supported, defaultVersion, m, head.target);
        SavedIsReloaded(supported, defaultVersion, m, head.target);
        PrecedenceOrder(Make(first), Make(second), Make(last));
        LtIsPrecedes(Make(first), Make(second));
        LtIsPrecedes(Make(second), Make(last));
      }
      LtIsPrecedes(Make(first), Make(last));
      if i :| 0 <= i < |rest| && rest[i].succeeded && rest[i].target == last {
        assert history[i + 1] == rest[i];
      }
      assert history[0].succeeded || forall i :: 0 <= i < |rest| ==> rest[i] == history[i + 1];
    }
  }
}
