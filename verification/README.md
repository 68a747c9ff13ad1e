# Verified model of dcos-engine

dcos-engine generates and maintains Azure Resource Manager templates for DC/OS clusters. This project models its decision
logic and its data rewriting in Dafny and proves what the code promises about them, for all inputs, all runs and all
interleavings. `dafny verify dfyconfig.toml` checks everything. One module stands in each file, named after the file.

* **Upgrading a cluster** (`Upgrade`, `UpgradeCommands`, `UpgradeHistory`, `UpgradeUrls`, `UpgradeStale`,
  `UpgradeCommand`, `UpgradeSessions`). The remote commands of one run are issued one at a time to bootstrap, master and agent nodes;
  any of them may fail, and the process may die at any of them. What a failed copy or script leaves on a node is
  arbitrary. A world holds the version each node reports and the version its script file installs. The script file
  that lies on the first master is part of the world, because Linux agents take theirs from it (`upgrader.go:319`);
  `UpgradeUrls` adds the URL that each script file carries. The saved model is the durable state; a history is any
  sequence of interrupted runs. A script that succeeds leaves its node at the version it installs.
* **Rewriting templates in place** (`Template`, `Filters`, `Splices`, `Scaling`, `ScaleUp`, `MasterUpgrade`,
  `AgentUpgrade`, `OpenShift`). JSON objects are on the heap and lists are slices of backing arrays. An object has a
  field for each key that `transform.go` mentions: constant for the keys it only reads, mutable for those it writes or
  deletes. Ghost parameters name the resource list, the objects that lose a field, and the dependency lists as they
  are.
* **Text that must read back** (`Text`, `Decimal`, `Keywords`, `Escape`, `VmNames`, `KeyValues`).
* **Versions** (`SemVer`, `Versions`): parsing and precedence as in section 11 of SemVer 2.0.0, and the selections
  made by them.
* **Deleting machines concurrently** (`Deletion`, `ScaleDown`): the request sequence of one deletion, and all interleavings
  of the goroutines, the channel and the collector.
* **Smaller cores** (`StrictJson`, `Net`, `Addresses`, `Storage`, and `Report`, `ReportRuns`,
  `ReportCopies` on the concurrent error report).

## Where the code and its promises differ

Each is stated as a lemma, with the exact condition under which the promise does hold.

* `docs/dcos.md:130` calls an upgrade idempotent, and says that a failed one picks up at the last checkpoint. What the
  model proves of this, and where it ends:
  * Over attempts at one target other than the saved version no progress is lost, and an attempt that completes reaches
    the target everywhere, starting scripts only where they were still needed (`ResumeKeepsProgress`, `ResumeCompletes`).
    Both start from a world in which a first master that reports the target holds the target's script.
  * With the target equal to the saved version the test for upgraded nodes is off, and a completed run starts every script
    again (`RerunIsIdleOnlyUnderGuard`). The list of supported versions has one entry at this commit
    (`pkg/api/common/const.go:55-57`), so this is the only kind of run that it admits (`OneVersionRestarts`).
  * A completed run leaves all nodes at the target exactly if no stale script is handed out (`CompletedReachesTarget`).
    From a cluster where every node reports the saved version, three attempts at two admitted targets in turn can end in a
    success that leaves an agent at the other target (`StaleScriptArises`). That needs two supported versions besides the
    saved one, as three patch releases are (`ThreePatchesAllowIt`), and it needs the agent's script to succeed. Its URL is
    the one that the attempt at the other target printed, although a later attempt's bootstrap script restarts the server
    with its own directory (`upgrader.go:48-54`). Whether the URL still answers is outside the model; no attempt at the
    first target ever hands out another script (`StaleScriptStays`).
* `GetVersionsBetween` is the interval filter exactly if no version in the interval is listed twice
  (`BetweenIsFilter`): one listed n times comes out n*n times (`BetweenCounts`).
* A printed Linux machine name reads back exactly if the index has at most eight digits (`LinuxRoundTrip`), a Windows
  one exactly in the ranges of `WindowsRoundTrip`.
* The keyword table is undone by its reverse for exactly the texts without a bare word and without a loose quoted word
  (`RoundTripExactly`). Bare words are the coded names of the three characters; each of them by itself is lost
  (`CodedWordIsLost`). A quoted coded form is loose when its opening quote does not close the plain form before it.
* The list of static master addresses has no repetition exactly up to 256 addresses, and is consecutive exactly if the
  last octet does not overflow (`ListIsDistinct`, `ListIsConsecutive`).
* The broadcast address of an IPv4 network is the greatest one that agrees with it, exactly if the first four bytes of its
  mask set the same host bits as the last four (`BroadcastExactly`): always with a mask of four bytes, not for
  `::ffff:10.0.0.0/104`, whose own address comes back (`MappedNetworkFails`). Nothing outside the tests calls it.
* The index of a printed machine name comes back exactly in the cases of `IndexRoundTrip`.
* Copying the error report takes no lock. A copy made while calls run is balanced exactly if each call shows in all three
  numbers it adds to, or in none (`CopyIsBalanced`); `CopyIsUnbalanced` has one that is not.
* Data disks go into the account their machine waits for exactly if the pool is not scaled up from a non-zero offset,
  or fits in one account, or nothing is added (`DisksFollowMachines`).

## Model

| member | source | states |
|---|---|---|
| Upgrade.UpgradeCluster.RunUpgrade | pkg/operations/dcosupgrade/upgrader.go:80-175 | Whatever the answers, what is done is a legal run, the world is what its commands made of it, and success means that the run completed; it fails only on a bad or missing answer or a missing bootstrap profile. `UpgradeCommands.LegalRunIs` and `CompletedIs` list the commands of such runs. |
| UpgradeCommands.LegalRunIs | pkg/operations/dcosupgrade/upgrader.go:80-175 | The legal runs are exactly the logs whose commands are a prefix of this list, all answers but the last being good: the listing of the agents, the key, the six commands of the Linux bootstrap node; the six for Windows if and only if some listed agent runs it; the masters by number, then the agents as listed, each asked for its version and, unless it is up to date in the world reached by then and the saved version is to change, given its script (made executable on a master), started, and asked again. Without the Linux profile nothing is issued, without a needed Windows profile at most the listing. |
| UpgradeCommands.CompletedIs | pkg/operations/dcosupgrade/upgrader.go:94-175 | The completed runs are exactly those that issued the whole list, every answer being good and the needed profiles set. |
| UpgradeCommands.WorldIsRan | pkg/operations/dcosupgrade/upgrader.go:241-341 | The world by which the list skips a node is the one that the commands before have made. |
| Upgrade.UpgradeCluster.UpgradeBootstrapNode | pkg/operations/dcosupgrade/upgrader.go:177-239 | The Linux bootstrap commands are issued in order, the first bad answer (also one without a script URL) being the last command; no node's version changes. |
| Upgrade.UpgradeCluster.UpgradeWindowsBootstrapNode | pkg/operations/dcosupgrade/upgrader-win.go:37-104 | The same for the Windows bootstrap node. |
| Upgrade.UpgradeCluster.UpgradeMasterNodes | pkg/operations/dcosupgrade/upgrader.go:241-294 | Masters are visited by number: each is skipped if the run changes the saved version and the master reports the target, otherwise it gets the script and runs it; failure of one ends the run. |
| Upgrade.UpgradeCluster.UpgradeAgent | pkg/operations/dcosupgrade/upgrader.go:296-341 | An agent at the target is skipped under the same guard, otherwise its script is copied and run; a Linux agent's script installs what the file on the first master installs. |
| Upgrade.UpgradeCluster.InstallOnAgent | pkg/operations/dcosupgrade/upgrader-win.go:126-153 | On a Windows agent the copied script is the one for the target, and the agent ends at the version it installs. |
| UpgradeHistory.UpgradedNodesAreSpared | pkg/operations/dcosupgrade/upgrader.go:259-264 | In every run with a target other than the saved version, no script is copied to or started on a node that reports the target. |
| UpgradeHistory.AgentsWaitForMasters | pkg/operations/dcosupgrade/upgrader.go:157-173 | In every run no command touches an agent before every master reports the target. |
| UpgradeHistory.ProgressIsKept | docs/dcos.md:130 | If scripts start only on nodes not at the target, the nodes at the target stay there, and each successful script adds one. |
| UpgradeHistory.CompletedReachesTarget | docs/dcos.md:130 | A run that completes leaves all masters and listed agents at the target if and only if no Linux agent in need was handed a script for another version. |
| UpgradeHistory.CompletedStarts | pkg/operations/dcosupgrade/upgrader.go:311-333 | A completed run with the guard on starts a script exactly once on the nodes that still need it, from a world where a first master at the target holds its script; with the guard off, once for each listing of every node, from any world. |
| UpgradeHistory.RerunIsIdleOnlyUnderGuard | pkg/operations/dcosupgrade/upgrader.go:259-264 | Over a cluster at the target, whatever scripts lie on its nodes, a completed run starts no script if and only if the saved version is not the target. |
| UpgradeHistory.CutRunIsLegal | docs/dcos.md:130 | What a run has done when it is cut off at any command is again a run. |
| UpgradeHistory.ResumeKeepsProgress | docs/dcos.md:130 | Over any sequence of attempts at one target other than the saved version, each cut off anywhere, from a world where the first master holds the target's script if it reports the target, the nodes at the target never become fewer and no node's script succeeds twice. |
| UpgradeHistory.ResumeCompletes | docs/dcos.md:130 | From such a world, however the earlier attempts ended, one that completes leaves every master and listed agent at the target, having started scripts only where they were still needed. |
| UpgradeUrls.AgentCarriesUrl | pkg/operations/dcosupgrade/upgrader.go:316-325 | After a completed run the file of a Linux agent that was not skipped carries the URL this run printed if and only if the first master was not skipped either, or its file has that URL already; the file of a Windows agent always does. |
| UpgradeUrls.FirstFileIsStuck | pkg/operations/dcosupgrade/upgrader.go:259-264 | Once the first master reports a target other than the saved version, no run for it, completed or not, replaces the script file there, its version or its URL. |
| UpgradeUrls.CopiesFollowUrls | pkg/operations/dcosupgrade/upgrader.go:136-175 | Before any script is copied, the bootstrap script of this run has shown a non-empty URL, and for a Windows agent that of the Windows bootstrap node too; these are the URLs written into the files. |
| UpgradeUrls.UrlIsShown | pkg/operations/dcosupgrade/upgrader.go:225-238 | The URL is what the first output line with the prefix carries behind it, without the white space around. |
| UpgradeStale.StaleScriptArises | pkg/operations/dcosupgrade/upgrader.go:316-333 | From any cluster that reports the saved version, for any two admitted targets other than it, there are interrupted runs for the first and the second and a completed run for the first after which a Linux agent is at the second version, its file with the URL that the second run printed. |
| UpgradeStale.StaleScriptStays | pkg/operations/dcosupgrade/upgrader.go:259-264 | While the first master is up to date with another script, every run for that target starts only that script on Linux agents and leaves the master and its file as they are. |
| UpgradeStale.OneVersionRestarts | pkg/api/common/const.go:51-57 | With one supported version the one target admitted is the current version, and a completed run starts the script once for each listing of every node and leaves all of them at it. |
| UpgradeStale.ThreePatchesAllowIt | pkg/api/orchestrators.go:121-134 | With three patch releases of one minor version supported and the first saved, the two others are admitted targets. |
| UpgradeCommand.DcosUpgrades | pkg/api/orchestrators.go:121-134 | The upgrades offered are the supported versions between the current one and major.(minor+2).0, without prereleases unless the current version is one. |
| UpgradeCommand.NextNextIsParsed | pkg/api/orchestrators.go:129 | The upper bound, printed and parsed again, is the version with the minor number raised by two, modulo 2^64. |
| UpgradeCommand.GetOrchestratorVersionProfile | pkg/api/orchestrators.go:59-77 | A profile exists exactly for DC/OS with a supported version, none for the empty one; its upgrades are those of that version. |
| UpgradeCommand.DcosUpgradeCmd.LoadCluster | cmd/dcos-upgrade.go:164-222 | The target is admitted if and only if it parses, is no downgrade, and is the current version or offered as an upgrade of it, and both bootstrap profiles exist. |
| UpgradeCommand.DcosUpgradeCmd.Run | cmd/dcos-upgrade.go:225-266 | The model changes only after a completed run and a successful write; every failure leaves it as it was, and the run is one for the admitted target. |
| UpgradeCommand.SavedIsReloaded | pkg/api/convertertoapi.go:150-158 | A saved target is the version that the next invocation loads. |
| UpgradeCommand.AdmittedIsNoDowngrade | cmd/dcos-upgrade.go:172-203 | An admitted target is supported, and is the current version or, in the precedence of section 11 of SemVer 2.0.0 (`SemVer.Precedes`), strictly between it and major.(minor+2).0. |
| UpgradeCommand.VersionsOnlyGrow | cmd/dcos-upgrade.go:244-265 | Over any sequence of invocations the version in force never decreases and changes only to a supported target of a successful one. |
| UpgradeSessions.Invoke | cmd/dcos-upgrade.go:225-266 | Calling the command again and again, for any targets and whatever the answers, makes such a sequence, and the saved model is the one it leads to. |
| UpgradeSessions.Retry | cmd/dcos-upgrade.go:225-266 | Calling it for one target until one call saves it makes attempts that resume one another, and the cluster is in the world they lead to. |
| SemVer.ParseIs | vendor/github.com/blang/semver/semver.go:227-314 | A text parses to a version if and only if the version is well formed and prints as that text. |
| SemVer.PrecedenceOrder | vendor/github.com/blang/semver/semver.go:113-162 | Precedence is a total preorder that ignores build metadata; which one, `LtIsPrecedes` says. |
| SemVer.LtIsPrecedes | vendor/github.com/blang/semver/semver.go:113-162 | A version is lower if and only if the first of major, minor and patch that differs is smaller; or none differs and it alone has prerelease fields; or both have them and its first differing field is smaller, or its fields are a proper prefix. |
| SemVer.CompareIdentIs | vendor/github.com/blang/semver/semver.go:367-389 | Of two fields, numbers go by value, any number comes before any text, and texts go by their first differing character, a proper prefix first. |
| Text.FirstCharacterDecides | vendor/github.com/blang/semver/semver.go:380-387 | Comparing texts recursively from the front is comparing them at their first differing character. |
| SemVer.FirstDifferenceDecides | vendor/github.com/blang/semver/semver.go:134-161 | Prerelease fields are compared by the first difference, and the shorter of two that agree comes first, as in section 11 of SemVer 2.0.0. |
| Versions.GetVersionsGt | pkg/api/common/versions.go:13-29 | The result is the order-preserving selection of the versions above the bound. |
| Versions.GetVersionsLt | pkg/api/common/versions.go:32-48 | The same for the versions below it. |
| Versions.GetVersionsBetween | pkg/api/common/versions.go:51-67 | The result is the common part of the two selections, with the multiplicities of the nested loops. |
| Versions.BetweenCounts | pkg/api/common/versions.go:51-67 | A version listed n times comes out n*n times if it is in the interval, and not at all otherwise. |
| Versions.BetweenIsFilter | pkg/api/common/versions.go:51-67 | The result is the order-preserving interval filter if and only if no version in the interval is listed twice. |
| Versions.GetMaxVersion | pkg/api/common/versions.go:70-102 | The text printed is that of the maximum, the empty text for no versions. |
| Versions.MaxVersionIsMaximum | pkg/api/common/versions.go:70-102 | No version that is considered exceeds the maximum in the precedence of section 11, and a maximum above the floor is listed. |
| Versions.GetLatestPatchVersion | pkg/api/common/versions.go:190-211 | The loop's result, stopping at the first version that does not parse. |
| Versions.LatestPatchIsGreatest | pkg/api/common/versions.go:190-211 | It is a greatest version with the wanted major and minor numbers before the first that does not parse, or empty if there is none. |
| Versions.RationalizeReleaseAndVersion | pkg/api/common/versions.go:148-187 | The supported version that a release and a version text stand for, the default when neither is given, empty otherwise. |
| Versions.RationalizeIs | pkg/api/common/versions.go:148-187 | A leading v changes nothing. A version stands for itself if and only if it is supported and of the release, if one is given; a release alone stands for a greatest version of it before the first that does not parse; neither stands for the default. |
| Splices.SpliceOut | pkg/acsengine/transform/transform.go:245 | Appending what follows an index to what precedes it removes that one element in place. |
| Splices.RemoveAllIsKeep | pkg/acsengine/transform/transform.go:242-248 | Splicing out distinct indexes from the back is the filter by index. |
| Splices.RemoveIndexes | pkg/acsengine/transform/transform.go:242-248 | Whatever the order of the indexes, exactly the elements at them go, in place and in order. |
| Splices.SpliceWhere | pkg/acsengine/transform/transform.go:203-210 | Splicing out, from the back and in place, what a test rejects is the order-preserving filter. |
| Scaling.RemoveCustomData | pkg/acsengine/transform/transform.go:311-322 | Custom data goes from the OS profile unless nil; the answer says whether there is a profile. |
| Scaling.RemoveImageReference | pkg/acsengine/transform/transform.go:324-335 | The same for the image reference of the storage profile. |
| Scaling.NormalizeMasterResourcesForScaling | pkg/acsengine/transform/transform.go:251-309 | Exactly the master extensions leave the list, in order; the masters' size, custom data and image reference go, looking no further than the first missing profile; nothing else changes. |
| Scaling.KeptMasters | pkg/acsengine/transform/transform.go:262-272 | The list that remains has no master extension and hands no further object to the deletions. |
| Scaling.OnlyMasterExtensionsGo | pkg/acsengine/transform/transform.go:262-272 | A resource leaves the list if and only if it is an extension whose name holds the masters' prefix. |
| Scaling.OnlyMastersLose | pkg/acsengine/transform/transform.go:280-305 | An object loses its size, custom data or image reference if and only if it is that profile of a listed machine named with the masters' prefix, those looked at before it being there; no agent's does. |
| Scaling.OnlyScaleSetsLose | pkg/acsengine/transform/transform.go:80-99 | The same for the profiles of listed scale sets. |
| Scaling.NormalizeMastersAgain | pkg/acsengine/transform/transform.go:251-309 | Called on what a call leaves, it changes nothing: neither the list, nor its whole backing array, nor any object. |
| Scaling.NormalizeForVMSSScaling | pkg/acsengine/transform/transform.go:67-102 | In addition custom data and image reference go from the profiles of scale sets, and nothing else. |
| Scaling.NormalizeForVMSSAgain | pkg/acsengine/transform/transform.go:67-102 | Called on what a call leaves, it changes nothing. |
| ScaleUp.StripDependencies | pkg/acsengine/transform/transform.go:198-216 | dependsOn becomes, in place, the list of its entries without a marker, and is deleted when none is left. |
| ScaleUp.UnmarkedAreKept | pkg/acsengine/transform/transform.go:203-210 | Exactly the entries that are strings and hold none of the six markers, the three resource types and `nsgID`, `routeTableID` and `vnetID`, remain, as often as before. |
| ScaleUp.Note | pkg/acsengine/transform/transform.go:169-196 | The second security group, route table or network found ends the scan; otherwise the index of each kind is tracked. |
| ScaleUp.NormalizeForK8sVMASScalingUp | pkg/acsengine/transform/transform.go:154-240 | It succeeds if and only if after normalizing the masters there is exactly one security group (not the jumpbox's) and at most one route table and one network; then exactly these go, order kept, and every dependency list is filtered. The scan stops at the first second of a kind: dependencies are filtered exactly before it, and the list stays. |
| ScaleUp.OthersStay | pkg/acsengine/transform/transform.go:173-196 | A resource goes if and only if it is a route table, a network, or a security group whose name does not hold the jumpbox's variable. |
| ScaleUp.FailureShowsAtOnce | pkg/acsengine/transform/transform.go:154-240 | That condition holds if and only if it holds of the template as given. |
| MasterUpgrade.ExtensionIsPreserved | pkg/acsengine/transform/transform.go:436-441 | An extension is preserved if and only if its name mentions a preserved pool, in whatever order the map is walked. |
| MasterUpgrade.Append | pkg/acsengine/transform/transform.go:342-346 | Appending to the emptied slice while ranging over it never overwrites an element not read yet. |
| MasterUpgrade.IsPopped | pkg/acsengine/transform/transform.go:345-450 | A resource is popped again exactly if it does not stay (`KeptAreSurvivors` says which those are); a well-formed master's first data disk is set to attach, and to the managed disk if asked for; no other object changes. |
| MasterUpgrade.NormalizeResourcesForK8sMasterUpgrade | pkg/acsengine/transform/transform.go:338-457 | Filtering in place gives exactly the order-preserving filter, and of the survivors only the first data disks of masters change. Of the agents' resources, a machine with a pool tag survives if and only if the printed tag is flagged in the map, a network interface if and only if there is a map, an extension if and only if its name holds `variables('` followed by a flagged pool; everything else survives. |
| MasterUpgrade.KeptAreSurvivors | pkg/acsengine/transform/transform.go:371-449 | The order-preserving filter leaves exactly these resources. |
| MasterUpgrade.OnlyAgentsAreDropped | pkg/acsengine/transform/transform.go:358-449 | Only network interfaces, machines and extensions that do not name the master prefix are dropped. |
| MasterUpgrade.PreservingMoreKeepsMore | pkg/acsengine/transform/transform.go:422-448 | Preserving more pools drops nothing that stayed. |
| MasterUpgrade.FilterIsStable | pkg/acsengine/transform/transform.go:338-457 | A second pass drops nothing. |
| AgentUpgrade.NormalizeResourcesForK8sAgentUpgrade | pkg/acsengine/transform/transform.go:460-474 | The two transformations composed: when it fails, and the state of the template afterwards in either case, with the resource at which a failing scan stopped. |
| AgentUpgrade.FailureShowsAtOnce | pkg/acsengine/transform/transform.go:460-474 | It fails if and only if the template as given lacks the one security group or has a second shared resource of a kind. |
| OpenShift.NarrowDependencies | pkg/acsengine/transform/transform.go:135-141 | The new list holds the dependencies that mention the prefix, in order; it fails exactly on a missing list or an entry that is no string, and then changes nothing. |
| OpenShift.NormalizeForOpenShiftVMASScalingUp | pkg/acsengine/transform/transform.go:106-151 | It succeeds if and only if every type assertion holds; then exactly the resources that mention the prefix stay, in order, with narrowed dependencies, and the outputs are empty. Otherwise list and outputs stay, and dependencies are narrowed exactly before the first resource that fails an assertion. |
| OpenShift.SurvivorsMention | pkg/acsengine/transform/transform.go:124-143 | Exactly the resources whose names hold the pool's prefix survive, with exactly those of their dependencies that hold it. |
| OpenShift.NormalizeForOpenShiftTwice | pkg/acsengine/transform/transform.go:106-151 | A second call succeeds if the first did, and leaves the same resources and dependencies. |
| Keywords.TranslateJSON | pkg/acsengine/transform/json.go:68-82 | The loop replaces the table's pairs one after the other, in table order in both directions. |
| Keywords.RoundTripExactly | pkg/acsengine/transform/json.go:13-29 | Translating forward and back is the identity on a text if and only if it holds no bare word and, scanned quote by quote, no loose coded form of the four quoted words. |
| Keywords.RoundTrip | pkg/acsengine/transform/json.go:13-29 | In particular it is on every text that holds none of the seven coded forms. |
| Keywords.CodedWordsSort | pkg/acsengine/transform/json.go:11-17 | The coded forms sort as the printed template is to list its parts: parameters, variables, resources, outputs. |
| Keywords.CodedWordIsLost | pkg/acsengine/transform/json.go:13-29 | The coded name of a character, as a text of its own, comes back as the character: two texts are told apart no more. |
| Keywords.CalmReplaceCommutes | pkg/acsengine/transform/json.go:68-82 | Replacing a word without these characters commutes with spelling the characters out: occurrences never straddle a spelled character. |
| Escape.EscapeIsOnePass | pkg/acsengine/engine.go:557-564 | The four replacements in turn are one pass over the text. |
| Escape.EscapeReadsBack | pkg/acsengine/engine.go:557-564 | Reading the escapes back gives the text with its line ends normalized. |
| Escape.EscapedStaysInside | pkg/acsengine/engine.go:797-800 | The escaped text has no line feed and no quote that would end the string. |
| Escape.EscapeIdentifies | pkg/acsengine/engine.go:557-564 | Two texts escape alike if and only if they agree up to line ends. |
| VmNames.LinuxRoundTrip | pkg/armhelpers/utils/util.go:79-93 | For every pool name without line feeds, the parts of a printed name are recovered if and only if the index is between 0 and 99,999,999. The name starts with `aks-` or `k8s-`. |
| VmNames.WindowsRoundTrip | pkg/armhelpers/utils/util.go:105-128 | They are recovered, `aks` or `k8s` among them, if and only if the pool index is between -800 and 99 and the agent index between 0 and 999. |
| VmNames.LongestIs | pkg/armhelpers/utils/util.go:17-25 | The greedy first group ends with the pool name, or at the last dash once there are more than eight digits. |
| VmNames.IndexRoundTrip | pkg/armhelpers/utils/util.go:151-184 | The index of a printed Linux name is read back if and only if it is between 0 and 99,999,999; of a Windows name if and only if the pool number, 900 plus the pool index, has three to five digits, all zero behind the third, and the index is not negative and has no more digits than that leaves of six. |
| KeyValues.ValueMap.ApplyValueString | pkg/acsengine/defaults.go:284-294 | The map becomes what reading the text on top of it gives. |
| KeyValues.ValueMap.MapToString | pkg/acsengine/defaults.go:296-308 | The text is the settings in key order, separated by commas. |
| KeyValues.CombineValues | pkg/acsengine/defaults.go:276-282 | The result prints the merge of all inputs. |
| KeyValues.PrintReadsBack | pkg/acsengine/defaults.go:284-308 | Printed settings read back as the same settings on top of whatever was there, for every map that reading can give. |
| KeyValues.MergeIsRightBiased | pkg/acsengine/defaults.go:276-294 | Merging is right-biased: later inputs win. |
| KeyValues.CombinedStandsForInputs | pkg/acsengine/defaults.go:276-282 | A combined text can replace the inputs it was made of at any place. |
| KeyValues.CombinedIsCanonical | pkg/acsengine/defaults.go:296-308 | Two combined texts are equal if and only if they carry the same settings. |
| KeyValues.CombineNests | pkg/acsengine/defaults.go:276-282 | Combining is idempotent and associative. |
| Deletion.CleanDeleteVirtualMachine | pkg/operations/deletevm.go:17-117 | Every request is the one due, and the error returned is that of the phase reached. |
| Deletion.MachineGoesFirst | pkg/operations/deletevm.go:46-114 | The interface, the disk and the roles are asked for only after the machine itself was deleted; a machine is deleted only if it has a disk and a name for its interface. |
| Deletion.CompletedDeletion | pkg/operations/deletevm.go:17-117 | Reporting no error means that the machine, its interface, its disk and all its role assignments are gone. |
| Deletion.FailureEnds | pkg/operations/deletevm.go:17-117 | The first failed request is the last one, and its error is the one reported. |
| ScaleDown.SendsNeverBlock | pkg/operations/scaledownagentpool.go:20-31 | Under every interleaving a goroutine that is to send can, and the channel is still open. |
| ScaleDown.OwnMachineGoesFirst | pkg/operations/scaledownagentpool.go:22-31 | Under every interleaving each machine's interface, disk and roles are deleted only after that machine. |
| ScaleDown.ResultIsRight | pkg/operations/scaledownagentpool.go:32-43 | Once it has returned, all messages were received; the result is nil if and only if all deletions ended without an error, and otherwise lists a name with an error as often as a machine of that name was asked for whose deletion ended with that error. No other name is listed. |
| ScaleDown.NeverStuck | pkg/operations/scaledownagentpool.go:33-39 | Until it returns, some goroutine or the collector can act. |
| ScaleDown.StepsLead | pkg/operations/scaledownagentpool.go:18-44 | Each action brings the end closer in a well-founded order, although listing the roles may add any number of requests. |
| ScaleDown.ScaleDownVMs | pkg/operations/scaledownagentpool.go:18-44 | Whatever the schedule and the answers, the run ends, and with this result. |
| StrictJson.CreateJSONFieldMap | pkg/api/strictjson.go:60-76 | The map holds, for each lower-cased tag name, the field of the last type that declares it; it fails exactly on a type that is no struct. |
| StrictJson.ChosenIs | pkg/api/strictjson.go:60-76 | A key leads to the type of the last declared field, over all types, whose tag is not empty and names it before the first comma, letter for letter but for ASCII case. |
| StrictJson.CheckMapKeys | pkg/api/strictjson.go:19-58 | It ends on every value, whatever cycles the types have, and accepts if and only if all keys of all reachable objects are known; otherwise some reachable object has the key or the type reported. |
| StrictJson.AcceptedIffReachableKnown | pkg/api/strictjson.go:19-58 | A value is acceptable if and only if every object reached from it, through fields of struct type, through pointers to their targets, and through slices of a type or of pointers to it, has struct types and only keys that equal, but for case, the name in the tag of one of their fields. |
| StrictJson.OrderAndCaseDoNotMatter | pkg/api/strictjson.go:21-25 | Values with the same entries in any order and any case get the same verdict. |
| Net.CidrFirstIP | pkg/api/common/net.go:10-18 | The bytes become their successor in place. |
| Net.NextIsSuccessor | pkg/api/common/net.go:10-18 | The successor of an address is one more, modulo 256 to its length. |
| Net.IP4BroadcastAddress | pkg/api/common/net.go:31-43 | The result has the host bits set by the first four bytes of the mask; with a mask of four bytes it agrees with the network on all its bits and no other such address is greater. There is none exactly for what is no IPv4 address. |
| Net.BroadcastExactly | pkg/api/common/net.go:38-40 | The result is the greatest address of the network under the mask of its IPv4 part if and only if on every byte the first and the last four bytes of the mask set the same host bits. |
| Net.MappedNetworkFails | pkg/api/common/net.go:38-40 | For an IPv6 network of mapped addresses with prefix length 104 the network's own address comes back. |
| Addresses.GenerateIPList | pkg/acsengine/engine.go:125-135 | The i-th address is the first with i added to its last byte, modulo 256. |
| Addresses.ListIsDistinct | pkg/acsengine/engine.go:131-133 | No address text is listed twice if and only if there are at most 256. |
| Addresses.ListIsConsecutive | pkg/acsengine/engine.go:131-133 | The list is the run of consecutive addresses if and only if the last octet plus the count is at most 256. |
| Addresses.SetAgentSubnets | pkg/acsengine/defaults.go:230-238 | Without a custom network the k-th pool gets subnet k, otherwise nothing changes. |
| Addresses.SubnetIs | pkg/acsengine/const.go:16-17 | Read as CIDR text, subnet k covers, by the bits of its prefix, exactly the addresses whose first two bytes are 10 and k. |
| Addresses.SubnetHasAddresses | pkg/acsengine/const.go:16-17 | It covers any address if and only if k is below 256. |
| Addresses.SubnetsAreDisjoint | pkg/acsengine/const.go:16-17 | No address is covered by two of the subnets. |
| Storage.CountIsCeiling | parts/dcos/dcosagentvars.t:21 | The count expression is the number of machines divided by 20, rounded up. |
| Storage.CreatedAreUsed | parts/dcos/dcosagentresourcesvmas.t:69-101 | The accounts created are exactly those that some machine depends on. |
| Storage.AccountsHoldTwenty | parts/dcos/dcosagentresourcesvmas.t:171-173 | No account serves more than 20 machines. |
| Storage.PoolsAreApart | parts/dcos/dcosagentvars.t:22 | Pools of at most 100 machines use ordinals of their own. |
| Storage.LargePoolsOverlap | parts/dcos/dcosagentvars.t:22 | Exactly a pool of more than 100 machines runs into the ordinals of the next. |
| Storage.PrefixIdentifies | parts/dcos/dcosmastervars.t:61-63 | Two ordinals below 1296 with one two-symbol prefix are equal. |
| Storage.NamesIdentify | parts/dcos/dcosagentresourcesvmas.t:80-97 | Two accounts of one name are the same account of the same pool, whatever the pools' sizes. |
| Storage.DisksFollowMachines | pkg/acsengine/engine.go:494-502 | The disks' account is the one their machine depends on, for all machines added, exactly in the listed cases. |
| Report.Manager.AddFailure | test/src/report/report.go:124-148 | The locations of one failure, its count and the total grow by what is added; all other records stay. |
| Report.Manager.Process | test/src/report/report.go:113-122 | The failure is recorded under the first name whose expression matches, and the totals stay in agreement. |
| Report.FirstMatchDecides | test/src/report/report.go:113-122 | The first expression that matches gives the name and the class; without one they are `UnspecifiedError` and `None`. |
| Report.Manager.Copy | test/src/report/report.go:98-110 | The copy has equal totals and records of its own. |
| Report.CopyThenProcess | test/src/report/report.go:98-122 | Later failures in the original do not change the copy. |
| Report.SumOfPlus | test/src/report/report.go:128-146 | Adding two maps key by key adds their sums, in whatever order the keys are walked. |
| ReportRuns.FreeReportIsRight | test/src/report/report.go:124-148 | Under every interleaving, whenever the lock is free the total is the sum of the counts, each count the sum over its locations, and each location's number the number of finished calls for it. |
| ReportRuns.OneInside | test/src/report/report.go:125-126 | No two calls are inside at once, and the one that holds the lock can always go on. |
| ReportRuns.AddFailureIsAlone | test/src/report/report.go:124-148 | The method on the heap does to a report what the steps of one call do from beginning to end. |
| ReportRuns.FreeReportIsSerial | test/src/report/report.go:124-148 | Under every interleaving, whenever the lock is free the report is the one that the finished calls leave when each runs alone, in some order. |
| ReportRuns.Replay | test/src/report/report.go:124-148 | Calling the method for these failures in that order leaves that report. |
| ReportCopies.CopyIsBalanced | test/src/report/report.go:98-110 | A copy whose total, locations and counts are read at different moments is balanced if and only if each call for a copied failure shows in the total, in that failure's locations and in its count, or in none of them. |
| ReportCopies.CopyIsUnbalanced | test/src/report/report.go:98-110 | A copy made when a call has stored its failure and not yet added it to the total is not balanced. |

## Left out

- Upgrade: an SSH command is an arbitrary answer; the text of scripts and configuration files but for the version and the URL written into them, whether a URL still answers, and the time between commands, are not modelled. A node's reported version is read as a whole; trimming and line splitting look at ASCII white space only.
- UpgradeCommand.DcosUpgradeCmd.LoadCluster: the location test, authentication and reading of files are one truth value; the list of supported versions and the default are parameters.
- UpgradeCommand.DcosUpgradeCmd.Run: writing the model happens wholly or not at all; in the source a failing write may leave a truncated file. Of the saved model only the orchestrator type, release and version, the master count and the presence of the two bootstrap profiles are kept.
- Keywords.RoundTripExactly: the JSON pretty-printing between the two translations is not part of this model; the lemma is about the translations alone.
- Versions.GetMaxVersion: sorting and searching are by precedence; an unparsable version counts as 0.0.0, as in the source.
- Template: JSON text is not parsed; a resource's `type`, `name` and other keys that are only read do not change. Objects and backing arrays occur once in a template, as they do when it comes from text.
- MasterUpgrade.NormalizeResourcesForK8sMasterUpgrade: the printed form of a pool tag that is no string is a parameter; the index into an empty list of data disks panics in the source and is excluded.
- ScaleUp.NormalizeForK8sVMASScalingUp: the panics on a name or dependency that is no string are preconditions, up to the resource at which the scan stops.
- Deletion: a machine without network interfaces or storage profile panics in the source; taking a blob's address apart is a parameter, and its error text is not kept.
- ScaleDown: a goroutine's requests are steps of their own, spawning and receiving are single steps; a panic in a goroutine is not modelled.
- StrictJson.CheckMapKeys: lower-casing is that of ASCII letters; the types' shapes are a parameter.
- Net: parsing of CIDR text, but for what `Addresses` needs of it: IPv4 networks in dotted decimals.
- Addresses.SetAgentSubnets: the other defaults of agent profiles.
- Storage: template expressions are evaluated on natural numbers; the length limit of account names is not modelled.
- ReportCopies: a failure's locations are read in one step; that Go's run time may end a program that walks a map while it is written is not modelled.
- Report: time stamps, job names, the JSON report file; a regular expression is a parameter.
- The Go template engine, parameter and size tables, certificates, `vlabs` validation, converters field by field, Azure clients and command-line flags: string assembly and plumbing without an invariant of their own.
