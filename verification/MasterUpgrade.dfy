/** Filtering a Kubernetes template in place before its masters are upgraded. */
module MasterUpgrade {
  import opened Text
  import opened Template
  import opened Splices

  const DISK_ID: string :=
    "[concat('/subscriptions/', variables('subscriptionId'), '/resourceGroups/', variables('resourceGroup')," +
    "'/providers/Microsoft.Compute/disks/', variables('masterVMNamePrefix'), copyIndex(variables('masterOffset'))," +
    "'-etcddisk')]"

  // The agent pools to preserve: no map at all, or each pool's flag
  type Preserve = Option<map<string, bool>>

  predicate Preserves(preserve: Preserve, pool: string)
  {
    preserve.Some? && pool in preserve.value && preserve.value[pool]
  }

  predicate NamesPreserved(preserve: Preserve, name: string)
  {
    preserve.Some? &&
    exists pool :: pool in preserve.value && preserve.value[pool] && Contains(name, "variables('" + pool)
  }

  function PoolTag(r: JsonObject): Json
  {
    if r.tags.Obj? then r.tags.o.poolName else Absent
  }

  // Which resources stay; `sprint` is the printed form of a tag's value.
  predicate Stays(r: Json, preserve: Preserve, sprint: Json -> string)
  {
    if !r.Obj? || !r.o.name.Str? || NameHas(r.o, MASTER) then true
    else if r.o.resourceType == Str(NIC) then preserve.Some?
    else if r.o.resourceType == Str(VM) then PoolTag(r.o).Nil?() || Preserves(preserve, sprint(PoolTag(r.o)))
    else if r.o.resourceType == Str(EXTENSION) then NamesPreserved(preserve, r.o.name.s)
    else true
  }

  ghost function Dropped(list: seq<Json>, preserve: Preserve, sprint: Json -> string): set<nat>
  {
    set k | 0 <= k < |list| && !Stays(list[k], preserve, sprint)
  }

  // ----- what the filter is for -----

  // A resource of this type that belongs to no master
  predicate OfAgents(r: Json, resourceType: string)
  {
    r.Obj? && r.o.resourceType == Str(resourceType) && r.o.name.Str? && !Contains(r.o.name.s, MASTER)
  }

  predicate HasPoolTag(r: Json)
  {
    r.Obj? && r.o.tags.Obj? && r.o.tags.o.poolName != Absent && r.o.tags.o.poolName != Null
  }

  ghost function FlaggedPools(preserve: Preserve): set<string>
  {
    if preserve == None then {} else set pool | pool in preserve.value && preserve.value[pool]
  }

  /**
   Of the agents' resources there remain the tagged machines of flagged pools, the network interfaces if there is a map,
   and the extensions that name a flagged pool; everything else remains.
   */
  ghost predicate RightSurvivors(list: seq<Json>, kept: seq<Json>, preserve: Preserve, sprint: Json -> string)
  {
    (forall r :: r in kept ==> r in list) &&
    (forall r :: r in list && OfAgents(r, VM) && HasPoolTag(r) ==>
      (r in kept <==> sprint(r.o.tags.o.poolName) in FlaggedPools(preserve))) &&
    (forall r :: r in list && OfAgents(r, NIC) ==> (r in kept <==> preserve != None)) &&
    (forall r :: r in list && OfAgents(r, EXTENSION) ==>
      (r in kept <==> exists pool :: pool in FlaggedPools(preserve) && Contains(r.o.name.s, "variables('" + pool))) &&
    forall r :: r in list && !(OfAgents(r, VM) && HasPoolTag(r)) && !OfAgents(r, NIC) && !OfAgents(r, EXTENSION) ==>
      r in kept
  }

  lemma KeptAre(list: seq<Json>, preserve: Preserve, sprint: Json -> string, r: Json)
    ensures r in Keep(list, Dropped(list, preserve, sprint)) <==> r in list && Stays(r, preserve, sprint)
  {
    var dropped := Dropped(list, preserve, sprint);
    KeptIsOld(list, dropped);
    if r in list && Stays(r, preserve, sprint) {
      var i :| 0 <= i < |list| && list[i] == r;
      KeepHas(list, dropped, i);
    }
  }

  lemma KeptAreSurvivors(list: seq<Json>, preserve: Preserve, sprint: Json -> string)
    ensures RightSurvivors(list, Keep(list, Dropped(list, preserve, sprint)), preserve, sprint)
  {
    var kept := Keep(list, Dropped(list, preserve, sprint));
    KeptIsOld(list, Dropped(list, preserve, sprint));
    forall r | r in list ensures r in kept <==> Stays(r, preserve, sprint) {
      KeptAre(list, preserve, sprint, r);
    }
    forall r | r in list && OfAgents(r, EXTENSION)
      ensures Stays(r, preserve, sprint) <==>
        exists pool :: pool in FlaggedPools(preserve) && Contains(r.o.name.s, "variables('" + pool)
    {
      if pool :| pool in FlaggedPools(preserve) && Contains(r.o.name.s, "variables('" + pool) {
        assert NamesPreserved(preserve, r.o.name.s);
      }
    }
  }

  // ----- data disks -----

  function StorageOf(r: Json): Json
  {
    if r.Obj? && r.o.resourceType == Str(VM) && NameHas(r.o, MASTER) && r.o.properties.Obj? then
      r.o.properties.o.storageProfile
    else Absent
  }

  // The disk to attach: a master's first
  ghost function DiskOf(r: Json, disk: Json): set<JsonObject>
  {
    if StorageOf(r).Obj? then disk.Objects() else {}
  }

  // The disk of the masters among the first k resources, given the first disk of each
  ghost function DisksBelow(list: seq<Json>, first: seq<Json>, k: nat): set<JsonObject>
    requires k <= |list| == |first|
  {
    if k == 0 then {}
    else DisksBelow(list, first, k - 1) + DiskOf(list[k - 1], first[k - 1])
  }

  lemma {:induction false} DisksGrow(list: seq<Json>, first: seq<Json>, k: nat, n: nat)
    requires k <= n <= |list| == |first|
    ensures DisksBelow(list, first, k) <= DisksBelow(list, first, n)
  {
    if k < n {
      DisksGrow(list, first, k, n - 1);
    }
  }

  // The type assertion and the index into the data disks of a master
  ghost predicate HasDisk(r: Json, disk: Json, resources: array<Json>)
    reads if StorageOf(r).Obj? && StorageOf(r).o.dataDisks.List? then {StorageOf(r).o.dataDisks.items} else {}
  {
    StorageOf(r).Obj? ==>
      var disks := StorageOf(r).o.dataDisks;
      disks.List? && 0 < disks.len <= disks.items.Length && disks.items != resources && disks.items[0] == disk &&
        disk.Obj?
  }

  method AttachDisk(r: JsonObject, managed: bool, ghost disk: Json, ghost resources: array<Json>)
    returns (wellFormed: bool)
    requires HasDisk(Obj(r), disk, resources) && r.resourceType == Str(VM) && NameHas(r, MASTER)
    modifies DiskOf(Obj(r), disk)`createOption
    modifies DiskOf(Obj(r), disk)`managedDisk
    ensures wellFormed <==> StorageOf(Obj(r)).Obj?
    ensures forall o :: o in DiskOf(Obj(r), disk) ==> o.createOption == Str("attach")
    ensures forall o :: o in DiskOf(Obj(r), disk) ==>
      o.managedDisk == if managed then Scalar(DISK_ID) else old(o.managedDisk)
  {
    if !r.properties.Obj? || !r.properties.o.storageProfile.Obj? {
      return false;
    }
    var dataDisk := r.properties.o.storageProfile.o.dataDisks.items[0].o;
    dataDisk.createOption := Str("attach");
    if managed {
      dataDisk.managedDisk := Scalar(DISK_ID);
    }
    wellFormed := true;
  }

  // Whatever the order in which the map is walked
  method ExtensionIsPreserved(name: string, preserve: Preserve) returns (keep: bool)
    ensures keep <==> NamesPreserved(preserve, name)
  {
    keep := false;
    if preserve.None? {
      return;
    }
    var left := preserve.value.Keys;
    while left != {}
      invariant left <= preserve.value.Keys
      invariant keep <==> exists pool ::
        pool in preserve.value && pool !in left && preserve.value[pool] && Contains(name, "variables('" + pool)
      decreases |left|
    {
      var poolName :| poolName in left;
      if Contains(name, "variables('" + poolName) && preserve.value[poolName] {
        keep := true;
      }
      left := left - {poolName};
    }
  }

  // One turn of the loop, on what has just been appended: whether it is popped again
  method IsPopped(r: Json, managed: bool, preserve: Preserve, sprint: Json -> string,
        ghost disk: Json, ghost resources: array<Json>)
    returns (popped: bool)
    requires HasDisk(r, disk, resources)
    modifies DiskOf(r, disk)`createOption
    modifies DiskOf(r, disk)`managedDisk
    ensures popped <==> !Stays(r, preserve, sprint)
    ensures forall o :: o in DiskOf(r, disk) ==> o.createOption == Str("attach")
    ensures forall o :: o in DiskOf(r, disk) ==>
      o.managedDisk == if managed then Scalar(DISK_ID) else old(o.managedDisk)
  {
    if !r.Obj? || !r.o.resourceType.Str? {
      return false;
    }
    var resourceType := r.o.resourceType.s;
    if !(resourceType == VM || resourceType == EXTENSION || resourceType == NIC) {
      return false;
    }
    if !r.o.name.Str? {
      return false;
    }
    var resourceName := r.o.name.s;
    if resourceType == NIC {
      return !Contains(resourceName, MASTER) && preserve.None?;
    }
    if resourceType == VM && Contains(resourceName, MASTER) {
      var wellFormed := AttachDisk(r.o, managed, disk, resources);
      if !wellFormed {
        return false;
      }
    }
    var tag := PoolTag(r.o);
    var poolName := sprint(tag);
    if resourceType == VM {
      if tag.Nil?() || Contains(resourceName, MASTER) {
        return false;
      }
      return preserve.None? || |preserve.value| == 0 || poolName !in preserve.value || !preserve.value[poolName];
    }
    if Contains(resourceName, MASTER) {
      return false;
    }
    var keep := ExtensionIsPreserved(resourceName, preserve);
    return !keep;
  }

  // ----- the filter in place -----

  ghost predicate HaveDisks(list: seq<Json>, first: seq<Json>, resources: array<Json>)
    requires |first| == |list|
    reads *
  {
    forall k :: 0 <= k < |list| ==> HasDisk(list[k], first[k], resources)
  }

  // The masters among the first k resources have their disks attached, the other disks are as they were.
  ghost predicate Attached(list: seq<Json>, first: seq<Json>, k: nat, managed: bool,
        disks: set<JsonObject>, options: map<JsonObject, Json>, managedDisks: map<JsonObject, Json>)
    requires k <= |list| == |first| && options.Keys == managedDisks.Keys == disks
    reads disks
  {
    forall o :: o in disks ==>
      o.createOption == (if o in DisksBelow(list, first, k) then Str("attach") else options[o]) &&
      o.managedDisk == (if o in DisksBelow(list, first, k) && managed then Scalar(DISK_ID) else managedDisks[o])
  }

  method Turn(r: Json, k: nat, managed: bool, preserve: Preserve, sprint: Json -> string,
        ghost list: seq<Json>, ghost first: seq<Json>, ghost disks: set<JsonObject>,
        ghost options: map<JsonObject, Json>, ghost managedDisks: map<JsonObject, Json>, ghost resources: array<Json>)
    returns (popped: bool)
    requires k < |list| == |first| && list[k] == r && HasDisk(r, first[k], resources) &&
      DisksBelow(list, first, k + 1) <= disks
    requires options.Keys == managedDisks.Keys == disks &&
      Attached(list, first, k, managed, disks, options, managedDisks)
    modifies disks`createOption, disks`managedDisk
    ensures popped <==> !Stays(r, preserve, sprint)
    ensures Attached(list, first, k + 1, managed, disks, options, managedDisks) && resources[..] == old(resources[..])
  {
    popped := IsPopped(r, managed, preserve, sprint, first[k], resources);
  }

  // append to resources[:0] while ranging over resources: the elements not read yet are kept.
  method Append(resources: array<Json>, len: nat, resource: Json,
        ghost index: nat, ghost n: nat, ghost list: seq<Json>, ghost dropped: set<nat>)
    requires len <= index < n == |list| && n <= resources.Length && resource == list[index]
    requires resources[..len] == Keep(list[..index], dropped) && resources[index..n] == list[index..]
    modifies resources
    ensures resources[..][index + 1..n] == resources[index + 1..n]
    ensures resources[index + 1..n] == list[index + 1..]
    ensures resources[..if index in dropped then len else len + 1] == Keep(list[..index + 1], dropped)
  {
    assert list[..index + 1][..index] == list[..index];
    assert resources[index + 1..n] == resources[index..n][1..];
    resources[len] := resource;
    assert resources[..len + 1] == resources[..len] + [resource];
  }

  // Filtered up to k: the kept resources in front, those not read yet where they were
  ghost predicate Filtered(resources: array<Json>, len: nat, k: nat, list: seq<Json>, dropped: set<nat>)
    reads resources
  {
    len <= k <= |list| <= resources.Length &&
    resources[..len] == Keep(list[..k], dropped) && resources[k..|list|] == list[k..]
  }

  method Visit(resources: array<Json>, len: nat, index: nat, managed: bool, preserve: Preserve, sprint: Json -> string,
        ghost list: seq<Json>, ghost first: seq<Json>, ghost disks: set<JsonObject>,
        ghost options: map<JsonObject, Json>, ghost managedDisks: map<JsonObject, Json>)
    returns (newLen: nat)
    requires index < |list| == |first| && HasDisk(list[index], first[index], resources)
    requires DisksBelow(list, first, index + 1) <= disks
    requires options.Keys == managedDisks.Keys == disks &&
      Attached(list, first, index, managed, disks, options, managedDisks)
    requires Filtered(resources, len, index, list, Dropped(list, preserve, sprint))
    modifies resources, disks`createOption, disks`managedDisk
    ensures Filtered(resources, newLen, index + 1, list, Dropped(list, preserve, sprint))
    ensures Attached(list, first, index + 1, managed, disks, options, managedDisks)
  {
    var resource := resources[index];
    assert resource == resources[index..|list|][0] == list[index];
    Append(resources, len, resource, index, |list|, list, Dropped(list, preserve, sprint));
    newLen := len + 1;
    ghost var now := resources[..];
    var popped := Turn(resource, index, managed, preserve, sprint, list, first, disks, options, managedDisks,
      resources);
    if popped {
      newLen := newLen - 1;
    }
    assert resources[..newLen] == now[..newLen] && resources[index + 1..|list|] == now[index + 1..|list|];
  }

  method FilterAll(resources: array<Json>, n: nat, managed: bool, preserve: Preserve, sprint: Json -> string,
        ghost list: seq<Json>, ghost first: seq<Json>, ghost disks: set<JsonObject>,
        ghost options: map<JsonObject, Json>, ghost managedDisks: map<JsonObject, Json>)
    returns (len: nat)
    requires n == |list| == |first| && n <= resources.Length && resources[..n] == list
    requires HaveDisks(list, first, resources) && disks == DisksBelow(list, first, n)
    requires options.Keys == managedDisks.Keys == disks &&
      Attached(list, first, 0, managed, disks, options, managedDisks)
    modifies resources, disks`createOption, disks`managedDisk
    ensures Filtered(resources, len, n, list, Dropped(list, preserve, sprint))
    ensures Attached(list, first, n, managed, disks, options, managedDisks)
  {
    len := 0;
    for index := 0 to n
      invariant Filtered(resources, len, index, list, Dropped(list, preserve, sprint))
      invariant Attached(list, first, index, managed, disks, options, managedDisks)
    {
      DisksGrow(list, first, index + 1, n);
      assert HasDisk(list[index], first[index], resources);
      len := Visit(resources, len, index, managed, preserve, sprint, list, first, disks, options, managedDisks);
    }
  }

  method FilterInPlace(resources: array<Json>, n: nat, managed: bool, preserve: Preserve, sprint: Json -> string,
        ghost list: seq<Json>, ghost first: seq<Json>, ghost disks: set<JsonObject>)
    returns (len: nat)
    requires n == |list| == |first| && n <= resources.Length && resources[..n] == list
    requires HaveDisks(list, first, resources) && disks == DisksBelow(list, first, n)
    modifies resources, disks`createOption, disks`managedDisk
    ensures len <= n && resources[..len] == Keep(list, Dropped(list, preserve, sprint))
    ensures forall o :: o in disks ==> o.createOption == Str("attach")
    ensures forall o :: o in disks ==> o.managedDisk == if managed then Scalar(DISK_ID) else old(o.managedDisk)
  {
    ghost var options := map o | o in disks :: o.createOption;
    ghost var managedDisks := map o | o in disks :: o.managedDisk;
    len := FilterAll(resources, n, managed, preserve, sprint, list, first, disks, options, managedDisks);
    assert list[..n] == list;
  }

  /** `first` lists the first data disk of each master, `disks` all of them. */
  method NormalizeResourcesForK8sMasterUpgrade(template: JsonObject, managed: bool, preserve: Preserve,
        sprint: Json -> string,
        ghost list: seq<Json>, ghost first: seq<Json>, ghost disks: set<JsonObject>)
    requires HasResources(template) && ResourceList(template) == list
    requires |first| == |list| && HaveDisks(list, first, template.resources.items) &&
      disks == DisksBelow(list, first, |list|)
    modifies template`resources, template.resources.items, disks`createOption, disks`managedDisk
    ensures HasResources(template) && template.resources.items == old(template.resources.items)
    ensures ResourceList(template) == Keep(list, Dropped(list, preserve, sprint))
    ensures RightSurvivors(list, ResourceList(template), preserve, sprint)
    ensures forall o :: o in disks ==> o.createOption == Str("attach")
    ensures forall o :: o in disks ==> o.managedDisk == if managed then Scalar(DISK_ID) else old(o.managedDisk)
  {
    KeptAreSurvivors(list, preserve, sprint);
    var resources := template.resources.items;
    var len := FilterInPlace(resources, template.resources.len, managed, preserve, sprint, list, first, disks);
    template.resources := List(resources, len);
  }

  // ----- what the filter means -----

  // Nothing of a master goes, nor anything but network interfaces, virtual machines and extensions.
  lemma OnlyAgentsAreDropped(r: Json, preserve: Preserve, sprint: Json -> string)
    requires !Stays(r, preserve, sprint)
    ensures r.Obj? && r.o.name.Str? && !Contains(r.o.name.s, MASTER)
    ensures r.o.resourceType in {Str(NIC), Str(VM), Str(EXTENSION)}
  {
  }

  // Preserving more pools keeps more: no resource that stayed is dropped.
  lemma PreservingMoreKeepsMore(r: Json, less: map<string, bool>, more: map<string, bool>, sprint: Json -> string)
    requires forall p :: p in less && less[p] ==> p in more && more[p]
    ensures Stays(r, None, sprint) ==> Stays(r, Some(less), sprint)
    ensures Stays(r, Some(less), sprint) ==> Stays(r, Some(more), sprint)
  {
  }

  // A second pass drops nothing.
  lemma FilterIsStable(list: seq<Json>, preserve: Preserve, sprint: Json -> string)
    ensures Dropped(Keep(list, Dropped(list, preserve, sprint)), preserve, sprint) == {}
  {
    var kept := Keep(list, Dropped(list, preserve, sprint));
    KeptIsOld(list, Dropped(list, preserve, sprint));
    forall k | 0 <= k < |kept| ensures Stays(kept[k], preserve, sprint) {
      assert kept[k] in kept;
      var i :| 0 <= i < |list| && i !in Dropped(list, preserve, sprint) && list[i] == kept[k];
    }
  }
}
