/** Normalizing a Kubernetes template before virtual machines are added to an availability set. */
module ScaleUp {
  import opened Filters
  import opened Text
  import opened Template
  import opened Splices
  import opened Scaling

  const NSG: string := "Microsoft.Network/networkSecurityGroups"
  const RT: string := "Microsoft.Network/routeTables"
  const VNET: string := "Microsoft.Network/virtualNetworks"
  const JUMPBOX: string := "variables('jumpboxNetworkSecurityGroupName')"

  datatype Kind = SecurityGroup | RouteTable | Network | Other

  // The jumpbox's security group does not count.
  function KindOf(r: Json): Kind
  {
    if !r.Obj? then Other
    else if r.o.resourceType == Str(NSG) && !NameHas(r.o, JUMPBOX) then SecurityGroup
    else if r.o.resourceType == Str(RT) then RouteTable
    else if r.o.resourceType == Str(VNET) then Network
    else Other
  }

  datatype Outcome = Done | TwoOf(kind: Kind) | NoSecurityGroup

  // ----- counting resources of a kind among the first k -----

  function CountBelow(list: seq<Json>, k: nat, kind: Kind): nat
    requires k <= |list|
  {
    if k == 0 then 0 else CountBelow(list, k - 1, kind) + if KindOf(list[k - 1]) == kind then 1 else 0
  }

  function Count(list: seq<Json>, kind: Kind): nat
  {
    CountBelow(list, |list|, kind)
  }

  lemma {:induction false} CountGrows(list: seq<Json>, k: nat, n: nat, kind: Kind)
    requires k <= n <= |list|
    ensures CountBelow(list, k, kind) <= CountBelow(list, n, kind)
    ensures (exists j :: k <= j < n && KindOf(list[j]) == kind) ==>
      CountBelow(list, k, kind) < CountBelow(list, n, kind)
  {
    if k < n {
      CountGrows(list, k, n - 1, kind);
    }
  }

  // A single resource of a kind: no other index has that kind.
  lemma OnlyOne(list: seq<Json>, i: nat, kind: Kind)
    requires i < |list| && KindOf(list[i]) == kind && Count(list, kind) <= 1
    ensures forall j :: 0 <= j < |list| && KindOf(list[j]) == kind ==> j == i
  {
    CountGrows(list, 0, i, kind);
    CountGrows(list, i + 1, |list|, kind);
  }

  lemma NoneAtAll(list: seq<Json>, kind: Kind)
    requires Count(list, kind) == 0
    ensures forall j :: 0 <= j < |list| ==> KindOf(list[j]) != kind
  {
    CountGrows(list, 0, |list|, kind);
  }

  lemma {:induction false} CountPrefix(s: seq<Json>, t: seq<Json>, k: nat, kind: Kind)
    requires k <= |s| && k <= |t| && s[..k] == t[..k]
    ensures CountBelow(s, k, kind) == CountBelow(t, k, kind)
  {
    if k > 0 {
      assert s[k - 1] == s[..k][k - 1] == t[k - 1];
      assert s[..k - 1] == s[..k][..k - 1] == t[..k - 1];
      CountPrefix(s, t, k - 1, kind);
    }
  }

  lemma {:induction false} CountKeep(s: seq<Json>, removed: set<nat>, kind: Kind)
    requires forall i :: 0 <= i < |s| && i in removed ==> KindOf(s[i]) != kind
    ensures Count(Keep(s, removed), kind) == Count(s, kind)
  {
    if s != [] {
      var front := s[..|s| - 1];
      CountKeep(front, removed, kind);
      CountPrefix(front, s, |front|, kind);
      CountPrefix(Keep(front, removed), Keep(s, removed), |Keep(front, removed)|, kind);
    }
  }

  // ----- dependencies -----

  // A dependency on something that scaling up leaves out
  predicate Marked(d: string)
  {
    Contains(d, NSG) || Contains(d, "nsgID") || Contains(d, RT) || Contains(d, "routeTableID") ||
    Contains(d, VNET) || Contains(d, "vnetID")
  }

  predicate IsKept(d: Json)
  {
    d.Str? && !Marked(d.s)
  }

  function Unmarked(deps: seq<Json>): seq<Json>
  {
    Filter(deps, IsKept)
  }

  const MARKERS: set<string> := {
    "Microsoft.Network/networkSecurityGroups", "nsgID", "Microsoft.Network/routeTables", "routeTableID",
    "Microsoft.Network/virtualNetworks", "vnetID"
  }

  lemma UnmarkedAreKept(deps: seq<Json>, d: Json)
    ensures d in Unmarked(deps) <==> d in deps && d.Str? && forall m :: m in MARKERS ==> !Contains(d.s, m)
    ensures multiset(Unmarked(deps))[d] == if IsKept(d) then multiset(deps)[d] else 0
  {
    FilterCounts(deps, IsKept, d);
  }

  // dependsOn afterwards, given its value and the strings it lists before: gone when nothing is left
  function After(dependsOn: Json, deps: seq<Json>): Json
  {
    if !dependsOn.List? then dependsOn
    else if Unmarked(deps) == [] then Absent
    else List(dependsOn.items, |Unmarked(deps)|)
  }

  // No kind comes twice among the first k.
  ghost predicate Single(list: seq<Json>, k: nat)
    requires k <= |list|
  {
    CountBelow(list, k, SecurityGroup) <= 1 && CountBelow(list, k, RouteTable) <= 1 && CountBelow(list, k, Network) <= 1
  }

  lemma SingleBefore(list: seq<Json>, k: nat)
    requires k < |list| && Single(list, k + 1)
    ensures Single(list, k)
  {
    CountGrows(list, k, k + 1, SecurityGroup);
    CountGrows(list, k, k + 1, RouteTable);
    CountGrows(list, k, k + 1, Network);
  }

  // The type assertions on resource k: none behind the second of a kind, of which only the name is read
  ghost predicate Readable(list: seq<Json>, deps: seq<seq<Json>>, k: nat)
    requires k < |list| == |deps|
  {
    list[k].Obj? && Single(list, k) ==> list[k].o.name.Str? && (Single(list, k + 1) ==> AllStrings(deps[k]))
  }

  // What dependsOn holds at one resource: as before, or filtered
  ghost predicate Before(r: Json, was: Json, deps: seq<Json>)
    reads r.Objects(), if was.List? then {was.items} else {}
  {
    r.Obj? ==>
      r.o.dependsOn == was && (was.List? ==> was.len <= was.items.Length && was.items[..was.len] == deps)
  }

  ghost predicate Stripped(r: Json, was: Json, deps: seq<Json>)
    reads r.Objects(), if was.List? then {was.items} else {}
  {
    r.Obj? ==>
      r.o.dependsOn == After(was, deps) &&
      (was.List? ==> |Unmarked(deps)| <= was.items.Length && was.items[..|Unmarked(deps)|] == Unmarked(deps))
  }

  method StripDependencies(r: JsonObject, ghost was: Json, ghost deps: seq<Json>)
    requires Before(Obj(r), was, deps) && AllStrings(deps)
    modifies r`dependsOn, if was.List? then {was.items} else {}
    ensures Stripped(Obj(r), was, deps)
  {
    if !r.dependsOn.List? {
      return;
    }
    var items := r.dependsOn.items;
    var len := SpliceWhere(items, r.dependsOn.len, IsKept, deps);
    if len > 0 {
      r.dependsOn := List(items, len);
    } else {
      r.dependsOn := Absent;
    }
  }

  // ----- the loop over the resources -----

  // As parsed from text: no object or backing array occurs twice.
  ghost predicate Separate(list: seq<Json>, was: seq<Json>, resources: array<Json>)
    requires |was| == |list|
  {
    (forall j, k :: 0 <= j < k < |list| && list[j].Obj? && list[k].Obj? ==>
      list[j].o != list[k].o && (was[j].List? && was[k].List? ==> was[j].items != was[k].items)) &&
    forall k :: 0 <= k < |list| && list[k].Obj? && was[k].List? ==> was[k].items != resources
  }

  // Each resource may be changed, and reads as it must.
  ghost predicate Fits(list: seq<Json>, was: seq<Json>, deps: seq<seq<Json>>, resources: array<Json>,
        objects: set<JsonObject>, arrays: set<array<Json>>)
  {
    |was| == |deps| == |list| && Separate(list, was, resources) && resources !in arrays &&
    (forall k :: 0 <= k < |list| ==> Readable(list, deps, k)) &&
    forall k :: 0 <= k < |list| && list[k].Obj? ==> list[k].o in objects && (was[k].List? ==> was[k].items in arrays)
  }

  // The first k resources have been filtered, the others not yet.
  ghost predicate Reached(list: seq<Json>, was: seq<Json>, deps: seq<seq<Json>>, k: nat)
    requires |was| == |deps| == |list|
    reads *
  {
    (forall j :: 0 <= j < k <= |list| ==> Stripped(list[j], was[j], deps[j])) &&
    forall j :: k <= j < |list| ==> Before(list[j], was[j], deps[j])
  }

  method VisitDependencies(r: Json, ghost k: nat, ghost list: seq<Json>, ghost was: seq<Json>,
        ghost deps: seq<seq<Json>>, ghost resources: array<Json>, ghost objects: set<JsonObject>,
        ghost arrays: set<array<Json>>)
    requires Fits(list, was, deps, resources, objects, arrays)
    requires k < |list| && list[k] == r && Reached(list, was, deps, k) && Single(list, k + 1)
    modifies objects`dependsOn, arrays
    ensures Reached(list, was, deps, k + 1) && resources[..] == old(resources[..])
  {
    SingleBefore(list, k);
    if r.Obj? {
      assert Readable(list, deps, k);
      StripDependencies(r.o, was[k], deps[k]);
    }
  }

  // `at` is the one resource of this kind among the first k, or -1 when there is none.
  ghost predicate Tracked(list: seq<Json>, k: nat, kind: Kind, at: int)
    requires k <= |list|
  {
    if at == -1 then CountBelow(list, k, kind) == 0
    else 0 <= at < k && KindOf(list[at]) == kind && CountBelow(list, k, kind) == 1
  }

  lemma Second(list: seq<Json>, k: nat, kind: Kind, at: int)
    requires k < |list| && Tracked(list, k, kind, at)
    ensures at != -1 && KindOf(list[k]) == kind ==> Count(list, kind) >= 2
    ensures KindOf(list[k]) != kind ==> Tracked(list, k + 1, kind, at)
    ensures at == -1 && KindOf(list[k]) == kind ==> Tracked(list, k + 1, kind, k)
  {
    CountGrows(list, k + 1, |list|, kind);
  }

  // The indexes found so far
  datatype Found = Found(nsg: int, rt: int, vnet: int)

  ghost predicate AllTracked(list: seq<Json>, k: nat, found: Found)
    requires k <= |list|
  {
    Tracked(list, k, SecurityGroup, found.nsg) && Tracked(list, k, RouteTable, found.rt) &&
    Tracked(list, k, Network, found.vnet)
  }

  // One resource of this kind comes before this one, and no two of another kind.
  ghost predicate SecondAt(list: seq<Json>, index: nat, kind: Kind)
    requires index < |list|
  {
    kind != Other && KindOf(list[index]) == kind && CountBelow(list, index, kind) == 1 && Single(list, index)
  }

  // The resource at `index` is noted, unless it is the second of its kind.
  method Note(r: Json, ghost list: seq<Json>, index: nat, found: Found) returns (outcome: Outcome, now: Found)
    requires index < |list| && list[index] == r && (r.Obj? ==> r.o.name.Str?)
    requires AllTracked(list, index, found)
    ensures outcome.Done? ==> AllTracked(list, index + 1, now)
    ensures outcome.TwoOf? ==> SecondAt(list, index, outcome.kind) && Count(list, outcome.kind) >= 2
    ensures !outcome.NoSecurityGroup?
  {
    Second(list, index, SecurityGroup, found.nsg);
    Second(list, index, RouteTable, found.rt);
    Second(list, index, Network, found.vnet);
    outcome, now := Done, found;
    if !r.Obj? {
      return;
    }
    if r.o.resourceType == Str(NSG) && !Contains(r.o.name.s, JUMPBOX) {
      if found.nsg != -1 {
        return TwoOf(SecurityGroup), now;
      }
      now := now.(nsg := index);
    }
    if r.o.resourceType == Str(RT) {
      if found.rt != -1 {
        return TwoOf(RouteTable), now;
      }
      now := now.(rt := index);
    }
    if r.o.resourceType == Str(VNET) {
      if found.vnet != -1 {
        return TwoOf(Network), now;
      }
      now := now.(vnet := index);
    }
  }

  // The scan ends behind the last resource, or at the second of a kind: the dependencies before that are filtered,
  // those from there on are as they were.
  ghost predicate Stopped(list: seq<Json>, was: seq<Json>, deps: seq<seq<Json>>, outcome: Outcome, reached: nat)
    requires |was| == |deps| == |list|
    reads *
  {
    (if outcome.TwoOf? then reached < |list| && SecondAt(list, reached, outcome.kind) else reached == |list|) &&
    Reached(list, was, deps, reached)
  }

  // One turn of the loop
  method Turn(r: Json, index: nat, found: Found, ghost list: seq<Json>, ghost was: seq<Json>,
        ghost deps: seq<seq<Json>>, ghost resources: array<Json>, ghost objects: set<JsonObject>,
        ghost arrays: set<array<Json>>)
    returns (outcome: Outcome, now: Found)
    requires Fits(list, was, deps, resources, objects, arrays)
    requires index < |list| && list[index] == r && Reached(list, was, deps, index) && AllTracked(list, index, found)
    modifies objects`dependsOn, arrays
    ensures resources[..] == old(resources[..]) && !outcome.NoSecurityGroup?
    ensures outcome.Done? ==> AllTracked(list, index + 1, now) && Reached(list, was, deps, index + 1)
    ensures outcome.TwoOf? ==> Count(list, outcome.kind) >= 2 && Stopped(list, was, deps, outcome, index)
  {
    assert Readable(list, deps, index);
    outcome, now := Note(r, list, index, found);
    if outcome.Done? {
      VisitDependencies(r, index, list, was, deps, resources, objects, arrays);
    }
  }

  method TurnAt(resources: array<Json>, index: nat, n: nat, found: Found, ghost list: seq<Json>, ghost was: seq<Json>,
        ghost deps: seq<seq<Json>>, ghost objects: set<JsonObject>, ghost arrays: set<array<Json>>)
    returns (outcome: Outcome, now: Found)
    requires index < n <= resources.Length && resources[..n] == list && AllTracked(list, index, found)
    requires Fits(list, was, deps, resources, objects, arrays) && Reached(list, was, deps, index)
    modifies objects`dependsOn, arrays
    ensures resources[..] == old(resources[..]) && !outcome.NoSecurityGroup?
    ensures outcome.Done? ==> AllTracked(list, index + 1, now) && Reached(list, was, deps, index + 1)
    ensures outcome.TwoOf? ==>
      outcome.kind != Other && Count(list, outcome.kind) >= 2 && Stopped(list, was, deps, outcome, index)
  {
    assert resources[index] == resources[..n][index];
    outcome, now := Turn(resources[index], index, found, list, was, deps, resources, objects, arrays);
  }

  method StripAll(resources: array<Json>, n: nat, ghost list: seq<Json>, ghost was: seq<Json>,
        ghost deps: seq<seq<Json>>, ghost objects: set<JsonObject>, ghost arrays: set<array<Json>>)
    returns (outcome: Outcome, found: Found, ghost reached: nat)
    requires n <= resources.Length && resources[..n] == list && Fits(list, was, deps, resources, objects, arrays)
    requires Reached(list, was, deps, 0)
    modifies objects`dependsOn, arrays
    ensures resources[..] == old(resources[..])
    ensures outcome.Done? ==> AllTracked(list, n, found)
    ensures Stopped(list, was, deps, outcome, reached)
    ensures outcome.TwoOf? ==> outcome.kind != Other && Count(list, outcome.kind) >= 2
    ensures !outcome.NoSecurityGroup?
  {
    outcome, found, reached := Done, Found(-1, -1, -1), 0;
    for index := 0 to n
      invariant Reached(list, was, deps, index) && resources[..] == old(resources[..]) && resources[..n] == list
      invariant outcome.Done? && AllTracked(list, index, found) && reached == index
    {
      outcome, found := TurnAt(resources, index, n, found, list, was, deps, objects, arrays);
      if !outcome.Done? {
        return;
      }
      reached := index + 1;
    }
  }

  // ----- removing the shared resources -----

  // The resources that scaling up leaves out
  ghost function Shared(list: seq<Json>): set<nat>
  {
    set k | 0 <= k < |list| && KindOf(list[k]) != Other
  }

  // A security group that is not the jumpbox's, a route table or a network
  predicate SharedByAll(r: Json)
  {
    r.Obj? && r.o.resourceType.Str? &&
    var resourceType := r.o.resourceType.s;
    (resourceType == NSG && (r.o.name.Str? ==> !Contains(r.o.name.s, JUMPBOX))) ||
    resourceType == RT || resourceType == VNET
  }

  // These go and nothing else, the jumpbox's security group included in what stays.
  lemma OthersStay(list: seq<Json>, r: Json)
    ensures r in Keep(list, Shared(list)) <==> r in list && !SharedByAll(r)
  {
    KeptIsOld(list, Shared(list));
    if r in list && !SharedByAll(r) {
      var i :| 0 <= i < |list| && list[i] == r;
      KeepHas(list, Shared(list), i);
    }
  }

  ghost predicate OneOfEach(list: seq<Json>)
  {
    Count(list, SecurityGroup) == 1 && Count(list, RouteTable) <= 1 && Count(list, Network) <= 1
  }

  lemma FoundAreShared(list: seq<Json>, found: Found)
    requires AllTracked(list, |list|, found) && found.nsg != -1
    ensures forall k :: k in Shared(list) <==> k == found.nsg || k == found.rt >= 0 || k == found.vnet >= 0
    ensures OneOfEach(list)
  {
    OnlyOne(list, found.nsg, SecurityGroup);
    if found.rt == -1 { NoneAtAll(list, RouteTable); } else { OnlyOne(list, found.rt, RouteTable); }
    if found.vnet == -1 { NoneAtAll(list, Network); } else { OnlyOne(list, found.vnet, Network); }
  }

  lemma FoundDiffer(list: seq<Json>, found: Found)
    requires AllTracked(list, |list|, found) && found.nsg != -1
    ensures found.rt != found.nsg && found.vnet != found.nsg && (found.rt == found.vnet ==> found.rt == -1)
    ensures found.nsg < |list| && found.rt < |list| && found.vnet < |list|
  {
  }

  method RemoveShared(resources: array<Json>, n: nat, ghost list: seq<Json>, found: Found) returns (len: nat)
    requires n <= resources.Length && resources[..n] == list
    requires AllTracked(list, n, found) && found.nsg != -1
    modifies resources
    ensures len <= n && resources[..len] == Keep(list, Shared(list)) && OneOfEach(list)
  {
    FoundDiffer(list, found);
    FoundAreShared(list, found);
    var indexesToRemove: seq<nat> := [];
    if found.rt != -1 {
      indexesToRemove := indexesToRemove + [found.rt];
    }
    if found.vnet != -1 {
      indexesToRemove := indexesToRemove + [found.vnet];
    }
    indexesToRemove := indexesToRemove + [found.nsg];
    assert Members(indexesToRemove) == Shared(list);
    len := RemoveIndexes(resources, n, indexesToRemove);
  }

  // A list of dependencies is not the list of resources.
  method RemoveSharedApart(resources: array<Json>, n: nat, ghost list: seq<Json>, found: Found,
        ghost was: seq<Json>, ghost deps: seq<seq<Json>>,
        ghost objects: set<JsonObject>, ghost arrays: set<array<Json>>)
    returns (len: nat)
    requires n <= resources.Length && resources[..n] == list
    requires AllTracked(list, n, found) && found.nsg != -1
    requires Fits(list, was, deps, resources, objects, arrays) && Reached(list, was, deps, n)
    modifies resources
    ensures len <= n && resources[..len] == Keep(list, Shared(list)) && OneOfEach(list) && Reached(list, was, deps, n)
  {
    len := RemoveShared(resources, n, list, found);
  }

  method RemoveFound(template: JsonObject, found: Found, ghost kept: seq<Json>, ghost was: seq<Json>,
        ghost deps: seq<seq<Json>>, ghost objects: set<JsonObject>, ghost arrays: set<array<Json>>)
    requires HasResources(template) && ResourceList(template) == kept
    requires AllTracked(kept, |kept|, found) && found.nsg != -1
    requires Fits(kept, was, deps, template.resources.items, objects, arrays) && Reached(kept, was, deps, |kept|)
    modifies template`resources, template.resources.items
    ensures HasResources(template) && template.resources.items == old(template.resources.items)
    ensures ResourceList(template) == Keep(kept, Shared(kept)) && OneOfEach(kept) && Reached(kept, was, deps, |kept|)
  {
    var resources := template.resources.items;
    var len := RemoveSharedApart(resources, template.resources.len, kept, found, was, deps, objects, arrays);
    template.resources := List(resources, len);
  }

  // After the master resources have been normalized
  method RemoveSharedResources(template: JsonObject, ghost kept: seq<Json>, ghost was: seq<Json>,
        ghost deps: seq<seq<Json>>, ghost objects: set<JsonObject>, ghost arrays: set<array<Json>>)
    returns (outcome: Outcome, ghost reached: nat)
    requires HasResources(template) && ResourceList(template) == kept
    requires Fits(kept, was, deps, template.resources.items, objects, arrays) && Reached(kept, was, deps, 0)
    modifies template`resources, template.resources.items, objects`dependsOn, arrays
    ensures outcome.Done? <==> OneOfEach(kept)
    ensures outcome.TwoOf? ==> outcome.kind != Other && Count(kept, outcome.kind) >= 2
    ensures outcome.NoSecurityGroup? ==> Count(kept, SecurityGroup) == 0
    ensures HasResources(template) && template.resources.items == old(template.resources.items)
    ensures ResourceList(template) == if outcome.Done? then Keep(kept, Shared(kept)) else kept
    ensures Stopped(kept, was, deps, outcome, reached)
  {
    var found;
    outcome, found, reached :=
      StripAll(template.resources.items, template.resources.len, kept, was, deps, objects, arrays);
    assert ResourceList(template) == template.resources.items[..][..template.resources.len];
    if !outcome.Done? {
      return;
    }
    if found.nsg == -1 {
      outcome := NoSecurityGroup;
      return;
    }
    RemoveFound(template, found, kept, was, deps, objects, arrays);
  }

  // The ghost arguments name the resources, those that stay, what loses a field, and the dependencies as they are.
  ghost predicate Ready(template: JsonObject, list: seq<Json>, kept: seq<Json>,
        hw: set<JsonObject>, os: set<JsonObject>, st: set<JsonObject>,
        was: seq<Json>, deps: seq<seq<Json>>, objects: set<JsonObject>, arrays: set<array<Json>>)
    reads *
  {
    HasResources(template) && ResourceList(template) == list && kept == Keep(list, MasterExtensions(list)) &&
    hw == AllHardware(list) && os == AllMasterOs(list) && st == AllMasterStorage(list) &&
    Fits(kept, was, deps, template.resources.items, objects, arrays) && Reached(kept, was, deps, 0)
  }

  // Normalizing the masters leaves the dependencies alone, and removing the shared resources the masters' fields.
  method NormalizeMastersFirst(template: JsonObject, ghost list: seq<Json>, ghost kept: seq<Json>,
        ghost hw: set<JsonObject>, ghost os: set<JsonObject>, ghost st: set<JsonObject>,
        ghost was: seq<Json>, ghost deps: seq<seq<Json>>,
        ghost objects: set<JsonObject>, ghost arrays: set<array<Json>>)
    requires Ready(template, list, kept, hw, os, st, was, deps, objects, arrays)
    modifies template`resources, template.resources.items, hw`vmSize, os`customData, st`imageReference
    ensures HasResources(template) && template.resources.items == old(template.resources.items)
    ensures ResourceList(template) == kept && MastersStripped(hw, os, st) && Reached(kept, was, deps, 0)
  {
    NormalizeMasterResourcesForScaling(template, list, hw, os, st);
  }

  method RemoveSharedThen(template: JsonObject, ghost kept: seq<Json>, ghost was: seq<Json>, ghost deps: seq<seq<Json>>,
        ghost hw: set<JsonObject>, ghost os: set<JsonObject>, ghost st: set<JsonObject>,
        ghost objects: set<JsonObject>, ghost arrays: set<array<Json>>)
    returns (outcome: Outcome, ghost reached: nat)
    requires HasResources(template) && ResourceList(template) == kept
    requires Fits(kept, was, deps, template.resources.items, objects, arrays) && Reached(kept, was, deps, 0)
    modifies template`resources, template.resources.items, objects`dependsOn, arrays
    ensures outcome.Done? <==> OneOfEach(kept)
    ensures outcome.TwoOf? ==> outcome.kind != Other && Count(kept, outcome.kind) >= 2
    ensures outcome.NoSecurityGroup? ==> Count(kept, SecurityGroup) == 0
    ensures HasResources(template) && template.resources.items == old(template.resources.items)
    ensures ResourceList(template) == if outcome.Done? then Keep(kept, Shared(kept)) else kept
    ensures Stopped(kept, was, deps, outcome, reached) && MastersKept(hw, os, st)
  {
    outcome, reached := RemoveSharedResources(template, kept, was, deps, objects, arrays);
  }

  method NormalizeForK8sVMASScalingUp(template: JsonObject, ghost list: seq<Json>, ghost kept: seq<Json>,
        ghost hw: set<JsonObject>, ghost os: set<JsonObject>, ghost st: set<JsonObject>,
        ghost was: seq<Json>, ghost deps: seq<seq<Json>>,
        ghost objects: set<JsonObject>, ghost arrays: set<array<Json>>)
    returns (outcome: Outcome, ghost reached: nat)
    requires Ready(template, list, kept, hw, os, st, was, deps, objects, arrays)
    modifies template`resources, template.resources.items, hw`vmSize, os`customData, st`imageReference
    modifies objects`dependsOn, arrays
    ensures outcome.Done? <==> OneOfEach(kept)
    ensures outcome.TwoOf? ==> outcome.kind != Other && Count(kept, outcome.kind) >= 2
    ensures outcome.NoSecurityGroup? ==> Count(kept, SecurityGroup) == 0
    ensures HasResources(template) && template.resources.items == old(template.resources.items)
    ensures ResourceList(template) == if outcome.Done? then Keep(kept, Shared(kept)) else kept
    ensures Stopped(kept, was, deps, outcome, reached)
    ensures MastersStripped(hw, os, st)
  {
    NormalizeMastersFirst(template, list, kept, hw, os, st, was, deps, objects, arrays);
    outcome, reached := RemoveSharedThen(template, kept, was, deps, hw, os, st, objects, arrays);
  }

  // Normalizing the masters removes no shared resource: failure shows in the template as given.
  lemma FailureShowsAtOnce(list: seq<Json>)
    ensures OneOfEach(Keep(list, MasterExtensions(list))) <==> OneOfEach(list)
  {
    CountKeep(list, MasterExtensions(list), SecurityGroup);
    CountKeep(list, MasterExtensions(list), RouteTable);
    CountKeep(list, MasterExtensions(list), Network);
  }
}
