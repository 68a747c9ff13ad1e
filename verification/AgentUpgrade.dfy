/** Before Kubernetes agents are upgraded, a template is filtered as for masters and then as for scaling up. */
module AgentUpgrade {
  import opened Template
  import opened Splices
  import opened Scaling
  import opened ScaleUp
  import opened MasterUpgrade

  // What later steps need of the first filter
  method FilterFirst(template: JsonObject, managed: bool, preserve: Preserve, sprint: Json -> string,
        ghost list: seq<Json>, ghost mid: seq<Json>, ghost first: seq<Json>, ghost disks: set<JsonObject>)
    requires HasResources(template) && ResourceList(template) == list
    requires mid == Keep(list, Dropped(list, preserve, sprint))
    requires |first| == |list| && HaveDisks(list, first, template.resources.items) &&
      disks == DisksBelow(list, first, |list|)
    modifies template`resources, template.resources.items, disks`createOption, disks`managedDisk
    ensures HasResources(template) && template.resources.items == old(template.resources.items)
    ensures ResourceList(template) == mid
    ensures forall o :: o in disks ==> o.createOption == Str("attach")
    ensures forall o :: o in disks ==> o.managedDisk == if managed then Scalar(DISK_ID) else old(o.managedDisk)
  {
    NormalizeResourcesForK8sMasterUpgrade(template, managed, preserve, sprint, list, first, disks);
  }

  // The first filter leaves the dependencies and the masters' profiles alone.
  method FilterAgents(template: JsonObject, managed: bool, preserve: Preserve, sprint: Json -> string,
        ghost list: seq<Json>, ghost mid: seq<Json>, ghost kept: seq<Json>,
        ghost first: seq<Json>, ghost disks: set<JsonObject>,
        ghost hw: set<JsonObject>, ghost os: set<JsonObject>, ghost st: set<JsonObject>,
        ghost was: seq<Json>, ghost deps: seq<seq<Json>>,
        ghost objects: set<JsonObject>, ghost arrays: set<array<Json>>)
    requires HasResources(template) && ResourceList(template) == list
    requires mid == Keep(list, Dropped(list, preserve, sprint)) && kept == Keep(mid, MasterExtensions(mid))
    requires |first| == |list| && HaveDisks(list, first, template.resources.items) &&
      disks == DisksBelow(list, first, |list|)
    requires hw == AllHardware(mid) && os == AllMasterOs(mid) && st == AllMasterStorage(mid)
    requires Fits(kept, was, deps, template.resources.items, objects, arrays) && Reached(kept, was, deps, 0)
    modifies template`resources, template.resources.items, disks`createOption, disks`managedDisk
    ensures HasResources(template) && template.resources.items == old(template.resources.items)
    ensures Ready(template, mid, kept, hw, os, st, was, deps, objects, arrays) && MastersKept(hw, os, st)
    ensures forall o :: o in disks ==> o.createOption == Str("attach")
    ensures forall o :: o in disks ==> o.managedDisk == if managed then Scalar(DISK_ID) else old(o.managedDisk)
  {
    FilterFirst(template, managed, preserve, sprint, list, mid, first, disks);
  }

  // What the second filter leaves alone
  twostate predicate DisksKept(disks: set<JsonObject>)
    reads disks
  {
    forall o :: o in disks ==> o.createOption == old(o.createOption) && o.managedDisk == old(o.managedDisk)
  }

  method ScaleAgents(template: JsonObject, ghost mid: seq<Json>, ghost kept: seq<Json>, ghost disks: set<JsonObject>,
        ghost hw: set<JsonObject>, ghost os: set<JsonObject>, ghost st: set<JsonObject>,
        ghost was: seq<Json>, ghost deps: seq<seq<Json>>,
        ghost objects: set<JsonObject>, ghost arrays: set<array<Json>>)
    returns (outcome: Outcome, ghost reached: nat)
    requires Ready(template, mid, kept, hw, os, st, was, deps, objects, arrays)
    modifies template`resources, template.resources.items, hw`vmSize, os`customData, st`imageReference
    modifies objects`dependsOn, arrays
    ensures outcome.Done? <==> OneOfEach(kept)
    ensures HasResources(template) && ResourceList(template) == if outcome.Done? then Keep(kept, Shared(kept)) else kept
    ensures outcome.TwoOf? ==> Count(kept, outcome.kind) >= 2
    ensures outcome.NoSecurityGroup? ==> Count(kept, SecurityGroup) == 0
    ensures Stopped(kept, was, deps, outcome, reached)
    ensures DisksKept(disks) && MastersStripped(hw, os, st)
  {
    outcome, reached := NormalizeForK8sVMASScalingUp(template, mid, kept, hw, os, st, was, deps, objects, arrays);
  }

  /** `mid` is the list after the first filter, `kept` the list when the shared resources are looked for. */
  method NormalizeResourcesForK8sAgentUpgrade(template: JsonObject, managed: bool, preserve: Preserve,
        sprint: Json -> string, ghost list: seq<Json>, ghost mid: seq<Json>, ghost kept: seq<Json>,
        ghost first: seq<Json>, ghost disks: set<JsonObject>,
        ghost hw: set<JsonObject>, ghost os: set<JsonObject>, ghost st: set<JsonObject>,
        ghost was: seq<Json>, ghost deps: seq<seq<Json>>,
        ghost objects: set<JsonObject>, ghost arrays: set<array<Json>>)
    returns (outcome: Outcome, ghost reached: nat)
    requires HasResources(template) && ResourceList(template) == list
    requires mid == Keep(list, Dropped(list, preserve, sprint)) && kept == Keep(mid, MasterExtensions(mid))
    requires |first| == |list| && HaveDisks(list, first, template.resources.items) &&
      disks == DisksBelow(list, first, |list|)
    requires hw == AllHardware(mid) && os == AllMasterOs(mid) && st == AllMasterStorage(mid)
    requires Fits(kept, was, deps, template.resources.items, objects, arrays) && Reached(kept, was, deps, 0)
    modifies template`resources, template.resources.items, disks`createOption, disks`managedDisk
    modifies hw`vmSize, os`customData, st`imageReference, objects`dependsOn, arrays
    ensures outcome.Done? <==> OneOfEach(kept)
    ensures HasResources(template) && ResourceList(template) == if outcome.Done? then Keep(kept, Shared(kept)) else kept
    ensures outcome.TwoOf? ==> Count(kept, outcome.kind) >= 2
    ensures outcome.NoSecurityGroup? ==> Count(kept, SecurityGroup) == 0
    ensures Stopped(kept, was, deps, outcome, reached)
    ensures forall o :: o in disks ==> o.createOption == Str("attach")
    ensures forall o :: o in disks ==> o.managedDisk == if managed then Scalar(DISK_ID) else old(o.managedDisk)
    ensures MastersStripped(hw, os, st)
  {
    FilterAgents(template, managed, preserve, sprint, list, mid, kept, first, disks, hw, os, st, was, deps, objects,
      arrays);
    outcome, reached := ScaleAgents(template, mid, kept, disks, hw, os, st, was, deps, objects, arrays);
  }

  lemma FailureShowsAtOnce(list: seq<Json>, preserve: Preserve, sprint: Json -> string)
    ensures var mid := Keep(list, Dropped(list, preserve, sprint));
      OneOfEach(Keep(mid, MasterExtensions(mid))) <==> OneOfEach(list)
  {
    var mid := Keep(list, Dropped(list, preserve, sprint));
    CountKeep(list, Dropped(list, preserve, sprint), SecurityGroup);
    CountKeep(list, Dropped(list, preserve, sprint), RouteTable);
    CountKeep(list, Dropped(list, preserve, sprint), Network);
    ScaleUp.FailureShowsAtOnce(mid);
  }
}
