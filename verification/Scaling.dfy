/** Normalizing master and scale-set resources before scaling. */
module Scaling {
  import opened Text
  import opened Template
  import opened Splices

  predicate IsMasterExtension(r: Json)
  {
    r.Obj? && r.o.resourceType == Str(EXTENSION) && NameHas(r.o, MASTER)
  }

  // ----- the objects of a resource from which a field goes: at most one for each field -----

  function Hardware(r: Json): set<JsonObject>
  {
    if r.Obj? && r.o.resourceType == Str(VM) && NameHas(r.o, MASTER) && r.o.properties.Obj? then
      r.o.properties.o.hardwareProfile.Objects()
    else {}
  }

  // Looking stops at the first profile of the wrong shape: hardware, then OS, then storage.
  function MasterParent(r: Json): Json
  {
    if Hardware(r) == {} then Absent else r.o.properties
  }

  function ScaleSetParent(r: Json): Json
  {
    if r.Obj? && r.o.resourceType == Str(VMSS) && r.o.properties.Obj? then
      r.o.properties.o.virtualMachineProfile
    else Absent
  }

  function OsUnder(parent: Json): set<JsonObject>
  {
    if parent.Obj? then parent.o.osProfile.Objects() else {}
  }

  function StorageUnder(parent: Json): set<JsonObject>
  {
    if OsUnder(parent) == {} then {} else parent.o.storageProfile.Objects()
  }

  function MasterOs(r: Json): set<JsonObject> { OsUnder(MasterParent(r)) }

  function MasterStorage(r: Json): set<JsonObject> { StorageUnder(MasterParent(r)) }

  function ScaleSetOs(r: Json): set<JsonObject> { OsUnder(ScaleSetParent(r)) }

  function ScaleSetStorage(r: Json): set<JsonObject> { StorageUnder(ScaleSetParent(r)) }

  // ----- the same along a list, for the first k resources -----

  ghost function HardwareBelow(res: seq<Json>, k: nat): set<JsonObject>
    requires k <= |res|
  {
    if k == 0 then {} else HardwareBelow(res, k - 1) + Hardware(res[k - 1])
  }

  ghost function MasterOsBelow(res: seq<Json>, k: nat): set<JsonObject>
    requires k <= |res|
  {
    if k == 0 then {} else MasterOsBelow(res, k - 1) + MasterOs(res[k - 1])
  }

  ghost function MasterStorageBelow(res: seq<Json>, k: nat): set<JsonObject>
    requires k <= |res|
  {
    if k == 0 then {} else MasterStorageBelow(res, k - 1) + MasterStorage(res[k - 1])
  }

  ghost function ScaleSetOsBelow(res: seq<Json>, k: nat): set<JsonObject>
    requires k <= |res|
  {
    if k == 0 then {} else ScaleSetOsBelow(res, k - 1) + ScaleSetOs(res[k - 1])
  }

  ghost function ScaleSetStorageBelow(res: seq<Json>, k: nat): set<JsonObject>
    requires k <= |res|
  {
    if k == 0 then {} else ScaleSetStorageBelow(res, k - 1) + ScaleSetStorage(res[k - 1])
  }

  ghost function AllHardware(res: seq<Json>): set<JsonObject> { HardwareBelow(res, |res|) }

  ghost function AllMasterOs(res: seq<Json>): set<JsonObject> { MasterOsBelow(res, |res|) }

  ghost function AllMasterStorage(res: seq<Json>): set<JsonObject> { MasterStorageBelow(res, |res|) }

  ghost function AllScaleSetOs(res: seq<Json>): set<JsonObject> { ScaleSetOsBelow(res, |res|) }

  ghost function AllScaleSetStorage(res: seq<Json>): set<JsonObject> { ScaleSetStorageBelow(res, |res|) }

  lemma {:induction false} MastersGrow(res: seq<Json>, k: nat, n: nat)
    requires k <= n <= |res|
    ensures HardwareBelow(res, k) <= HardwareBelow(res, n)
    ensures MasterOsBelow(res, k) <= MasterOsBelow(res, n)
    ensures MasterStorageBelow(res, k) <= MasterStorageBelow(res, n)
  {
    if k < n {
      MastersGrow(res, k, n - 1);
    }
  }

  lemma {:induction false} ScaleSetsGrow(res: seq<Json>, k: nat, n: nat)
    requires k <= n <= |res|
    ensures ScaleSetOsBelow(res, k) <= ScaleSetOsBelow(res, n)
    ensures ScaleSetStorageBelow(res, k) <= ScaleSetStorageBelow(res, n)
  {
    if k < n {
      ScaleSetsGrow(res, k, n - 1);
    }
  }

  lemma {:induction false} MastersWithin(res: seq<Json>, n: nat,
        hw: set<JsonObject>, os: set<JsonObject>, st: set<JsonObject>)
    requires n <= |res|
    requires forall x :: x in res ==> Hardware(x) <= hw && MasterOs(x) <= os && MasterStorage(x) <= st
    ensures HardwareBelow(res, n) <= hw && MasterOsBelow(res, n) <= os && MasterStorageBelow(res, n) <= st
  {
    if n > 0 {
      MastersWithin(res, n - 1, hw, os, st);
      assert res[n - 1] in res;
    }
  }

  predicate IsMasterVm(r: Json)
  {
    r.Obj? && r.o.resourceType == Str(VM) && r.o.name.Str? && Contains(r.o.name.s, MASTER) && r.o.properties.Obj?
  }

  predicate IsScaleSet(r: Json)
  {
    r.Obj? && r.o.resourceType == Str(VMSS) && r.o.properties.Obj? && r.o.properties.o.virtualMachineProfile.Obj?
  }

  // Only profiles of masters lose fields, each of them if those looked at before it are there.
  lemma {:induction false} OnlyMastersLose(res: seq<Json>, k: nat, o: JsonObject)
    requires k <= |res|
    ensures o in HardwareBelow(res, k) <==>
      exists i ::
        0 <= i < k && IsMasterVm(res[i]) && res[i].o.properties.o.hardwareProfile == Obj(o)
    ensures o in MasterOsBelow(res, k) <==>
      exists i ::
        0 <= i < k && IsMasterVm(res[i]) &&
        res[i].o.properties.o.hardwareProfile.Obj? && res[i].o.properties.o.osProfile == Obj(o)
    ensures o in MasterStorageBelow(res, k) <==>
      exists i ::
        0 <= i < k && IsMasterVm(res[i]) &&
        res[i].o.properties.o.hardwareProfile.Obj? && res[i].o.properties.o.osProfile.Obj? &&
        res[i].o.properties.o.storageProfile == Obj(o)
  {
    if k > 0 {
      OnlyMastersLose(res, k - 1, o);
    }
  }

  // And of scale sets
  lemma {:induction false} OnlyScaleSetsLose(res: seq<Json>, k: nat, o: JsonObject)
    requires k <= |res|
    ensures o in ScaleSetOsBelow(res, k) <==>
      exists i ::
        0 <= i < k && IsScaleSet(res[i]) && res[i].o.properties.o.virtualMachineProfile.o.osProfile == Obj(o)
    ensures o in ScaleSetStorageBelow(res, k) <==>
      exists i ::
        0 <= i < k && IsScaleSet(res[i]) &&
        res[i].o.properties.o.virtualMachineProfile.o.osProfile.Obj? &&
        res[i].o.properties.o.virtualMachineProfile.o.storageProfile == Obj(o)
  {
    if k > 0 {
      OnlyScaleSetsLose(res, k - 1, o);
    }
  }

  // What remains are the resources other than masters' extensions.
  lemma OnlyMasterExtensionsGo(list: seq<Json>, r: Json)
    ensures r in Keep(list, MasterExtensions(list)) <==>
      r in list && !(r.Obj? && r.o.resourceType == Str(EXTENSION) && r.o.name.Str? && Contains(r.o.name.s, MASTER))
  {
    KeptIsOld(list, MasterExtensions(list));
    if r in list && !IsMasterExtension(r) {
      var i :| 0 <= i < |list| && list[i] == r;
      KeepHas(list, MasterExtensions(list), i);
    }
  }

  // What remains has no master extension and hands nothing new to the deletions.
  lemma KeptMasters(list: seq<Json>)
    ensures var kept := Keep(list, MasterExtensions(list));
      MasterExtensions(kept) == {} && AllHardware(kept) <= AllHardware(list) &&
      AllMasterOs(kept) <= AllMasterOs(list) && AllMasterStorage(kept) <= AllMasterStorage(list)
  {
    var kept := Keep(list, MasterExtensions(list));
    KeptIsOld(list, MasterExtensions(list));
    forall x | x in kept
      ensures !IsMasterExtension(x) && Hardware(x) <= AllHardware(list)
      ensures MasterOs(x) <= AllMasterOs(list) && MasterStorage(x) <= AllMasterStorage(list)
    {
      var i :| 0 <= i < |list| && i !in MasterExtensions(list) && list[i] == x;
      MastersGrow(list, i + 1, |list|);
    }
    forall k | 0 <= k < |kept| ensures !IsMasterExtension(kept[k]) {
      assert kept[k] in kept;
    }
    MastersWithin(kept, |kept|, AllHardware(list), AllMasterOs(list), AllMasterStorage(list));
  }

  // ----- one resource -----

  method RemoveCustomData(parent: JsonObject) returns (ok: bool)
    modifies OsUnder(Obj(parent))`customData
    ensures ok <==> OsUnder(Obj(parent)) != {}
    ensures forall o :: o in OsUnder(Obj(parent)) ==> o.customData == old(o.customData.Deleted())
  {
    if !parent.osProfile.Obj? {
      return false;
    }
    var osProfile := parent.osProfile.o;
    if !osProfile.customData.Nil?() {
      osProfile.customData := Absent;
    }
    ok := true;
  }

  method RemoveImageReference(parent: JsonObject) returns (ok: bool)
    modifies parent.storageProfile.Objects()`imageReference
    ensures ok <==> parent.storageProfile.Obj?
    ensures forall o :: o in parent.storageProfile.Objects() ==> o.imageReference == old(o.imageReference.Deleted())
  {
    if !parent.storageProfile.Obj? {
      return false;
    }
    var storageProfile := parent.storageProfile.o;
    if !storageProfile.imageReference.Nil?() {
      storageProfile.imageReference := Absent;
    }
    ok := true;
  }

  method NormalizeMaster(r: Json)
    modifies Hardware(r)`vmSize, MasterOs(r)`customData, MasterStorage(r)`imageReference
    ensures forall o :: o in Hardware(r) ==> o.vmSize == old(o.vmSize.Deleted())
    ensures forall o :: o in MasterOs(r) ==> o.customData == old(o.customData.Deleted())
    ensures forall o :: o in MasterStorage(r) ==> o.imageReference == old(o.imageReference.Deleted())
  {
    if !r.Obj? || r.o.resourceType != Str(VM) || !NameHas(r.o, MASTER) || !r.o.properties.Obj? {
      return;
    }
    var properties := r.o.properties.o;
    if !properties.hardwareProfile.Obj? {
      return;
    }
    var hardwareProfile := properties.hardwareProfile.o;
    if !hardwareProfile.vmSize.Nil?() {
      hardwareProfile.vmSize := Absent;
    }
    var ok := RemoveCustomData(properties);
    if ok {
      ok := RemoveImageReference(properties);
    }
  }

  method NormalizeScaleSet(r: Json)
    modifies ScaleSetOs(r)`customData, ScaleSetStorage(r)`imageReference
    ensures forall o :: o in ScaleSetOs(r) ==> o.customData == old(o.customData.Deleted())
    ensures forall o :: o in ScaleSetStorage(r) ==> o.imageReference == old(o.imageReference.Deleted())
  {
    if !r.Obj? || r.o.resourceType != Str(VMSS) || !r.o.properties.Obj? {
      return;
    }
    var profile := r.o.properties.o.virtualMachineProfile;
    if !profile.Obj? {
      return;
    }
    var ok := RemoveCustomData(profile.o);
    if ok {
      ok := RemoveImageReference(profile.o);
    }
  }

  // ----- the resource list -----

  ghost function MasterExtensions(res: seq<Json>): set<nat>
  {
    set k | 0 <= k < |res| && IsMasterExtension(res[k])
  }

  // Where the master extensions are, in order
  function ExtensionIndexes(res: seq<Json>, k: nat): seq<nat>
    requires k <= |res|
  {
    if k == 0 then []
    else ExtensionIndexes(res, k - 1) + if IsMasterExtension(res[k - 1]) then [k - 1] else []
  }

  lemma {:induction false} ExtensionIndexesAre(res: seq<Json>, k: nat)
    requires k <= |res|
    ensures Distinct(ExtensionIndexes(res, k))
    ensures forall i :: i in ExtensionIndexes(res, k) <==> 0 <= i < k && IsMasterExtension(res[i])
    ensures k == |res| ==> Members(ExtensionIndexes(res, k)) == MasterExtensions(res)
  {
    if k > 0 {
      ExtensionIndexesAre(res, k - 1);
    }
  }

  // The masters among the first k resources have lost their fields; `size`, `data` and `image` are those at the start.
  ghost predicate MastersAt(list: seq<Json>, k: nat, hw: set<JsonObject>, os: set<JsonObject>, st: set<JsonObject>,
        size: map<JsonObject, Json>, data: map<JsonObject, Json>, image: map<JsonObject, Json>)
    requires k <= |list|
    reads hw, os, st
  {
    (forall o :: o in hw ==>
      o in size && o.vmSize == if o in HardwareBelow(list, k) then size[o].Deleted() else size[o]) &&
    (forall o :: o in os ==>
      o in data && o.customData == if o in MasterOsBelow(list, k) then data[o].Deleted() else data[o]) &&
    (forall o :: o in st ==>
      o in image && o.imageReference == if o in MasterStorageBelow(list, k) then image[o].Deleted() else image[o])
  }

  method VisitMaster(r: Json, ghost list: seq<Json>, ghost k: nat,
        ghost hw: set<JsonObject>, ghost os: set<JsonObject>, ghost st: set<JsonObject>,
        ghost size: map<JsonObject, Json>, ghost data: map<JsonObject, Json>, ghost image: map<JsonObject, Json>)
    requires k < |list| && r == list[k] && MastersAt(list, k, hw, os, st, size, data, image)
    requires Hardware(r) <= hw && MasterOs(r) <= os && MasterStorage(r) <= st
    modifies hw`vmSize, os`customData, st`imageReference
    ensures MastersAt(list, k + 1, hw, os, st, size, data, image)
  {
    NormalizeMaster(r);
  }

  // One turn of the loop
  method VisitAt(resources: array<Json>, index: nat, n: nat, before: seq<nat>, ghost list: seq<Json>,
        ghost hw: set<JsonObject>, ghost os: set<JsonObject>, ghost st: set<JsonObject>,
        ghost size: map<JsonObject, Json>, ghost data: map<JsonObject, Json>, ghost image: map<JsonObject, Json>)
    returns (indexesToRemove: seq<nat>)
    requires index < n <= resources.Length && resources[..n] == list && before == ExtensionIndexes(list, index)
    requires hw == HardwareBelow(list, n) && os == MasterOsBelow(list, n) && st == MasterStorageBelow(list, n)
    requires MastersAt(list, index, hw, os, st, size, data, image)
    modifies hw`vmSize, os`customData, st`imageReference
    ensures MastersAt(list, index + 1, hw, os, st, size, data, image)
    ensures indexesToRemove == ExtensionIndexes(list, index + 1)
  {
    assert resources[index] == list[index];
    MastersGrow(list, index + 1, n);
    VisitMaster(resources[index], list, index, hw, os, st, size, data, image);
    indexesToRemove := before;
    if IsMasterExtension(resources[index]) {
      indexesToRemove := indexesToRemove + [index];
    }
  }

  // The virtual machine size, the custom data and the image reference are gone.
  twostate predicate MastersStripped(hw: set<JsonObject>, os: set<JsonObject>, st: set<JsonObject>)
    reads hw, os, st
  {
    (forall o :: o in hw ==> o.vmSize == old(o.vmSize.Deleted())) &&
    (forall o :: o in os ==> o.customData == old(o.customData.Deleted())) &&
    forall o :: o in st ==> o.imageReference == old(o.imageReference.Deleted())
  }

  // The loop over the resources
  method NormalizeMasters(resources: array<Json>, n: nat, ghost list: seq<Json>,
        ghost hw: set<JsonObject>, ghost os: set<JsonObject>, ghost st: set<JsonObject>)
    returns (indexesToRemove: seq<nat>)
    requires n <= resources.Length && resources[..n] == list
    requires hw == HardwareBelow(list, n) && os == MasterOsBelow(list, n) && st == MasterStorageBelow(list, n)
    modifies hw`vmSize, os`customData, st`imageReference
    ensures MastersStripped(hw, os, st)
    ensures indexesToRemove == ExtensionIndexes(list, n)
  {
    indexesToRemove := [];
    ghost var size := map o | o in hw :: o.vmSize;
    ghost var data := map o | o in os :: o.customData;
    ghost var image := map o | o in st :: o.imageReference;
    for index := 0 to n
      invariant MastersAt(list, index, hw, os, st, size, data, image)
      invariant indexesToRemove == ExtensionIndexes(list, index)
    {
      indexesToRemove := VisitAt(resources, index, n, indexesToRemove, list, hw, os, st, size, data, image);
    }
  }

  // What a call leaves: no master extension is listed, and no master has a field left to lose.
  ghost predicate MastersNormal(template: JsonObject, hw: set<JsonObject>, os: set<JsonObject>, st: set<JsonObject>)
    requires HasResources(template)
    reads template`resources, template.resources.items, hw, os, st
  {
    MasterExtensions(ResourceList(template)) == {} &&
    AllHardware(ResourceList(template)) <= hw && (forall o :: o in hw ==> o.vmSize.Nil?()) &&
    AllMasterOs(ResourceList(template)) <= os && (forall o :: o in os ==> o.customData.Nil?()) &&
    AllMasterStorage(ResourceList(template)) <= st && forall o :: o in st ==> o.imageReference.Nil?()
  }

  twostate predicate MastersKept(hw: set<JsonObject>, os: set<JsonObject>, st: set<JsonObject>)
    reads hw, os, st
  {
    (forall o :: o in hw ==> o.vmSize == old(o.vmSize)) &&
    (forall o :: o in os ==> o.customData == old(o.customData)) &&
    forall o :: o in st ==> o.imageReference == old(o.imageReference)
  }

  lemma KeptAreNormal(template: JsonObject, list: seq<Json>,
        hw: set<JsonObject>, os: set<JsonObject>, st: set<JsonObject>)
    requires HasResources(template) && ResourceList(template) == Keep(list, MasterExtensions(list))
    requires hw == AllHardware(list) && os == AllMasterOs(list) && st == AllMasterStorage(list)
    requires (forall o :: o in hw ==> o.vmSize.Nil?()) && (forall o :: o in os ==> o.customData.Nil?())
    requires forall o :: o in st ==> o.imageReference.Nil?()
    ensures MastersNormal(template, hw, os, st)
  {
    KeptMasters(list);
  }

  // Removing resources from the list leaves the objects alone.
  method RemoveListed(template: JsonObject, indexes: seq<nat>,
        ghost hw: set<JsonObject>, ghost os: set<JsonObject>, ghost st: set<JsonObject>)
    requires HasResources(template) && Distinct(indexes) && forall i :: i in indexes ==> i < template.resources.len
    modifies template`resources, template.resources.items
    ensures HasResources(template) && template.resources.items == old(template.resources.items)
    ensures ResourceList(template) == Keep(old(ResourceList(template)), Members(indexes))
    ensures indexes == [] ==>
      template.resources == old(template.resources) && template.resources.items[..] == old(template.resources.items[..])
    ensures MastersKept(hw, os, st)
  {
    var resources := template.resources.items;
    var len := RemoveIndexes(resources, template.resources.len, indexes);
    template.resources := List(resources, len);
  }

  // The ghost parameters name the resource list and the objects that lose a field.
  method NormalizeMasterResourcesForScaling(template: JsonObject, ghost list: seq<Json>,
        ghost hw: set<JsonObject>, ghost os: set<JsonObject>, ghost st: set<JsonObject>)
    requires HasResources(template) && ResourceList(template) == list
    requires hw == AllHardware(list) && os == AllMasterOs(list) && st == AllMasterStorage(list)
    modifies template`resources, template.resources.items, hw`vmSize, os`customData, st`imageReference
    ensures HasResources(template) && template.resources.items == old(template.resources.items)
    ensures ResourceList(template) == Keep(list, MasterExtensions(list))
    ensures MastersStripped(hw, os, st) && MastersNormal(template, hw, os, st)
    ensures MasterExtensions(list) == {} ==>
      template.resources == old(template.resources) && template.resources.items[..] == old(template.resources.items[..])
  {
    var indexesToRemove := NormalizeMasters(template.resources.items, template.resources.len, list, hw, os, st);
    ExtensionIndexesAre(list, |list|);
    assert indexesToRemove == [] <==> MasterExtensions(list) == {} by {
      assert indexesToRemove != [] ==> indexesToRemove[0] in MasterExtensions(list);
    }
    RemoveListed(template, indexesToRemove, hw, os, st);
    KeptAreNormal(template, list, hw, os, st);
  }

  /** Idempotence: on what a call leaves, another changes nothing, not even behind the list in the backing array. */
  method NormalizeMastersAgain(template: JsonObject,
        ghost hw: set<JsonObject>, ghost os: set<JsonObject>, ghost st: set<JsonObject>)
    requires HasResources(template) && MastersNormal(template, hw, os, st)
    modifies template`resources, template.resources.items, hw`vmSize, os`customData, st`imageReference
    ensures template.resources == old(template.resources)
    ensures template.resources.items[..] == old(template.resources.items[..])
    ensures MastersKept(hw, os, st)
  {
    ghost var list := ResourceList(template);
    NormalizeMasterResourcesForScaling(template, list, AllHardware(list), AllMasterOs(list), AllMasterStorage(list));
  }

  // ----- scale sets -----

  method VisitScaleSet(r: Json, ghost os: set<JsonObject>, ghost st: set<JsonObject>)
    requires ScaleSetOs(r) <= os && ScaleSetStorage(r) <= st
    modifies os`customData, st`imageReference
    ensures forall o :: o in os ==>
      o.customData == old(if o in ScaleSetOs(r) then o.customData.Deleted() else o.customData)
    ensures forall o :: o in st ==>
      o.imageReference == old(if o in ScaleSetStorage(r) then o.imageReference.Deleted() else o.imageReference)
  {
    NormalizeScaleSet(r);
  }

  method NormalizeScaleSets(resources: array<Json>, n: nat, ghost list: seq<Json>,
        ghost os: set<JsonObject>, ghost st: set<JsonObject>)
    requires n <= resources.Length && resources[..n] == list
    requires os == ScaleSetOsBelow(list, n) && st == ScaleSetStorageBelow(list, n)
    modifies os`customData, st`imageReference
    ensures forall o :: o in os ==> o.customData == old(o.customData.Deleted())
    ensures forall o :: o in st ==> o.imageReference == old(o.imageReference.Deleted())
  {
    for index := 0 to n
      invariant forall o :: o in os ==>
        o.customData == old(if o in ScaleSetOsBelow(list, index) then o.customData.Deleted() else o.customData)
      invariant forall o :: o in st ==>
        o.imageReference ==
        old(if o in ScaleSetStorageBelow(list, index) then o.imageReference.Deleted() else o.imageReference)
    {
      assert resources[index] == list[index];
      ScaleSetsGrow(list, index + 1, n);
      VisitScaleSet(resources[index], os, st);
    }
  }

  // vos and vst are what the scale sets hand to the deletions.
  method NormalizeForVMSSScaling(template: JsonObject, ghost list: seq<Json>,
        ghost hw: set<JsonObject>, ghost os: set<JsonObject>, ghost st: set<JsonObject>,
        ghost vos: set<JsonObject>, ghost vst: set<JsonObject>)
    requires HasResources(template) && ResourceList(template) == list
    requires hw == AllHardware(list) && os == AllMasterOs(list) && st == AllMasterStorage(list)
    requires var kept := Keep(list, MasterExtensions(list));
      vos == AllScaleSetOs(kept) && vst == AllScaleSetStorage(kept)
    modifies template`resources, template.resources.items, hw`vmSize, os`customData, st`imageReference
    modifies vos`customData, vst`imageReference
    ensures HasResources(template) && template.resources.items == old(template.resources.items)
    ensures ResourceList(template) == Keep(list, MasterExtensions(list))
    ensures MasterExtensions(list) == {} ==>
      template.resources == old(template.resources) && template.resources.items[..] == old(template.resources.items[..])
    ensures forall o :: o in hw ==> o.vmSize == old(o.vmSize.Deleted())
    ensures forall o :: o in os || o in vos ==> o.customData == old(o.customData.Deleted())
    ensures forall o :: o in st || o in vst ==> o.imageReference == old(o.imageReference.Deleted())
    ensures AllNormal(template, hw, os, st, vos, vst)
  {
    NormalizeMasterResourcesForScaling(template, list, hw, os, st);
    NormalizeScaleSets(template.resources.items, template.resources.len, Keep(list, MasterExtensions(list)), vos, vst);
  }

  // The scale sets have no field left to lose either.
  ghost predicate AllNormal(template: JsonObject, hw: set<JsonObject>, os: set<JsonObject>, st: set<JsonObject>,
        vos: set<JsonObject>, vst: set<JsonObject>)
    requires HasResources(template)
    reads template`resources, template.resources.items, hw, os, st, vos, vst
  {
    MastersNormal(template, hw, os, st) &&
    AllScaleSetOs(ResourceList(template)) == vos && (forall o :: o in vos ==> o.customData.Nil?()) &&
    AllScaleSetStorage(ResourceList(template)) == vst && forall o :: o in vst ==> o.imageReference.Nil?()
  }

  /** Idempotence: on what a call leaves, another call changes nothing. */
  method NormalizeForVMSSAgain(template: JsonObject, ghost hw: set<JsonObject>, ghost os: set<JsonObject>,
        ghost st: set<JsonObject>, ghost vos: set<JsonObject>, ghost vst: set<JsonObject>)
    requires HasResources(template) && AllNormal(template, hw, os, st, vos, vst)
    modifies template`resources, template.resources.items, hw`vmSize, os`customData, st`imageReference
    modifies vos`customData, vst`imageReference
    ensures template.resources == old(template.resources)
    ensures template.resources.items[..] == old(template.resources.items[..])
    ensures MastersKept(hw, os, st) && MastersKept({}, vos, vst)
  {
    ghost var list := ResourceList(template);
    KeepNone(list);
    NormalizeForVMSSScaling(template, list, AllHardware(list), AllMasterOs(list), AllMasterStorage(list), vos, vst);
  }
}
