/** ARM templates as the transformer sees them: JSON objects on the heap, lists as slices of backing arrays. */
module Template {
  import opened Text

  // A list holds the first `len` elements of its backing array; `Scalar` is a number or a truth value.
  datatype Json =
    | Absent
    | Null
    | Str(s: string)
    | Scalar(text: string)
    | List(items: array<Json>, len: nat)
    | Obj(o: JsonObject)
  {
    // Reading a missing key gives nil.
    predicate Nil?() {
      Absent? || Null?
    }

    // delete, guarded by a test for a non-nil value
    function Deleted(): Json {
      if Null? then Null else Absent
    }

    function Objects(): set<JsonObject> {
      if Obj? then {o} else {}
    }
  }

  /** One field for each key of transform.go; the keys that it only reads, and all it never mentions, are constant. */
  class JsonObject {
    const name: Json
    const resourceType: Json
    const properties: Json
    const hardwareProfile: Json
    const osProfile: Json
    const storageProfile: Json
    const virtualMachineProfile: Json
    const dataDisks: Json
    const tags: Json
    const poolName: Json
    const others: map<string, Json>

    var resources: Json
    var outputs: Json
    var dependsOn: Json
    var vmSize: Json
    var customData: Json
    var imageReference: Json
    var createOption: Json
    var managedDisk: Json

    // The empty object
    constructor ()
      ensures resources == outputs == dependsOn == vmSize == Absent
      ensures customData == imageReference == createOption == managedDisk == Absent
      ensures name == resourceType == properties == hardwareProfile == osProfile == storageProfile == Absent
      ensures virtualMachineProfile == dataDisks == tags == poolName == Absent && others == map[]
    {
      name, resourceType, properties, hardwareProfile, osProfile := Absent, Absent, Absent, Absent, Absent;
      storageProfile, virtualMachineProfile, dataDisks, tags, poolName := Absent, Absent, Absent, Absent, Absent;
      others := map[];
      resources, outputs, dependsOn, vmSize := Absent, Absent, Absent, Absent;
      customData, imageReference, createOption, managedDisk := Absent, Absent, Absent, Absent;
    }
  }

  const VM: string := "Microsoft.Compute/virtualMachines"
  const VMSS: string := "Microsoft.Compute/virtualMachineScaleSets"
  const EXTENSION: string := "Microsoft.Compute/virtualMachines/extensions"
  const NIC: string := "Microsoft.Network/networkInterfaces"
  const MASTER: string := "variables('masterVMNamePrefix')"

  ghost predicate AllStrings(s: seq<Json>)
  {
    forall x :: x in s ==> x.Str?
  }

  predicate NameHas(r: JsonObject, part: string)
  {
    r.name.Str? && Contains(r.name.s, part)
  }

  // ----- the resource list -----

  // The type assertion on the resource list, and the slice's own invariant
  ghost predicate HasResources(template: JsonObject)
    reads template`resources
  {
    template.resources.List? && template.resources.len <= template.resources.items.Length
  }

  ghost function ResourceList(template: JsonObject): seq<Json>
    requires HasResources(template)
    reads template`resources, template.resources.items
  {
    template.resources.items[..template.resources.len]
  }
}
