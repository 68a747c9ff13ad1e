/** Deleting one virtual machine and what belongs to it: a sequence of requests, the first failure ending it. */
module Deletion {
  import opened Text

  datatype Blob = Blob(account: string, container: string, path: string)

  // What is read of a fetched machine; `nicId` is the first network interface's.
  datatype Vm = Vm(vhd: Option<string>, managedDisk: bool, diskName: Option<string>, nicId: Option<string>,
        principal: Option<string>)

  datatype Request =
    | GetVm(name: string) | DeleteVm(name: string) | DeleteNic(nic: string) | OpenStorage(account: string)
    | DeleteBlob(blob: Blob) | DeleteDisk(disk: string) | ListRoles(principal: string) | DeleteRole(id: string)

  // `vm` answers GetVm and `roles` answers ListRoles.
  datatype Reply = Reply(error: Option<string>, vm: Vm, roles: seq<string>)

  // The requests so far with their answers, the latest outermost
  datatype Log = Empty | Then(before: Log, request: Request, reply: Reply)

  // Where the deletion of one machine stands
  datatype Phase =
    | Fetching
    | RemovingVm(vm: Vm, nic: string)
    | RemovingNic(vm: Vm, nic: string)
    | OpeningStorage(vm: Vm, blob: Blob)
    | RemovingBlob(vm: Vm, blob: Blob)
    | RemovingDisk(vm: Vm, disk: string)
    | ListingRoles(vm: Vm, principal: string)
    | RemovingRoles(vm: Vm, ids: seq<string>)
    | Ended(error: Option<string>)

  // How a blob's address is taken apart
  type BlobSplitter = string -> Option<Blob>

  // The last segment of a resource identifier
  function ResourceName(id: string): string
  {
    var parts := Split(id, '/');
    parts[|parts| - 1]
  }

  // ----- one step -----

  function AfterFetch(vm: Vm): Phase
  {
    if vm.vhd.None? && !vm.managedDisk then Ended(Some("os disk does not have a VHD URI"))
    else
      match vm.nicId
      case None => RemovingVm(vm, "")
      case Some(id) =>
        if ResourceName(id) == "" then Ended(Some("resource name was missing from identifier"))
        else RemovingVm(vm, ResourceName(id))
  }

  function AfterNic(vm: Vm, split: BlobSplitter): Phase
  {
    match vm.vhd
    case Some(uri) => if split(uri).None? then Ended(Some("bad blob address")) else OpeningStorage(vm, split(uri).value)
    case None => if vm.diskName.None? then AfterDisk(vm) else RemovingDisk(vm, vm.diskName.value)
  }

  function AfterDisk(vm: Vm): Phase
  {
    if vm.principal.None? then Ended(None) else ListingRoles(vm, vm.principal.value)
  }

  function WithRoles(vm: Vm, ids: seq<string>): Phase
  {
    if ids == [] then Ended(None) else RemovingRoles(vm, ids)
  }

  function Step(phase: Phase, reply: Reply, split: BlobSplitter): Phase
    requires !phase.Ended? && (phase.RemovingRoles? ==> phase.ids != [])
  {
    if reply.error.Some? then Ended(reply.error)
    else
      match phase
      case Fetching => AfterFetch(reply.vm)
      case RemovingVm(vm, nic) => if nic != "" then RemovingNic(vm, nic) else AfterNic(vm, split)
      case RemovingNic(vm, _) => AfterNic(vm, split)
      case OpeningStorage(vm, blob) => RemovingBlob(vm, blob)
      case RemovingBlob(vm, _) => AfterDisk(vm)
      case RemovingDisk(vm, _) => AfterDisk(vm)
      case ListingRoles(vm, _) => WithRoles(vm, reply.roles)
      case RemovingRoles(vm, ids) => WithRoles(vm, ids[1..])
  }

  function RequestOf(name: string, phase: Phase): Request
    requires !phase.Ended? && (phase.RemovingRoles? ==> phase.ids != [])
  {
    match phase
    case Fetching => GetVm(name)
    case RemovingVm(_, _) => DeleteVm(name)
    case RemovingNic(_, nic) => DeleteNic(nic)
    case OpeningStorage(_, blob) => OpenStorage(blob.account)
    case RemovingBlob(_, blob) => DeleteBlob(blob)
    case RemovingDisk(_, disk) => DeleteDisk(disk)
    case ListingRoles(_, principal) => ListRoles(principal)
    case RemovingRoles(_, ids) => DeleteRole(ids[0])
  }

  predicate Active(phase: Phase)
  {
    !phase.Ended? && (phase.RemovingRoles? ==> phase.ids != [])
  }

  // Where a log leads, and whether each of its requests was the one due
  function Reached(log: Log, split: BlobSplitter): Phase
  {
    match log
    case Empty => Fetching
    case Then(before, _, reply) =>
      if Active(Reached(before, split)) then Step(Reached(before, split), reply, split) else Reached(before, split)
  }

  ghost predicate Conforms(log: Log, name: string, split: BlobSplitter)
  {
    log.Then? ==>
      Conforms(log.before, name, split) && Active(Reached(log.before, split)) &&
      log.request == RequestOf(name, Reached(log.before, split))
  }

  // ----- what a log shows -----

  predicate Succeeded(log: Log, request: Request)
  {
    log.Then? && ((log.request == request && log.reply.error.None?) || Succeeded(log.before, request))
  }

  predicate NoFailure(log: Log)
  {
    log.Then? ==> log.reply.error.None? && NoFailure(log.before)
  }

  // The answer to the first request, and to the list of roles
  function Fetched(log: Log): Option<Vm>
  {
    if log.Empty? then None
    else if log.request.GetVm? && log.reply.error.None? then Some(log.reply.vm)
    else Fetched(log.before)
  }

  function Roles(log: Log): seq<string>
  {
    if log.Empty? then []
    else if log.request.ListRoles? && log.reply.error.None? then log.reply.roles
    else Roles(log.before)
  }

  ghost predicate NicGone(log: Log, vm: Vm)
  {
    vm.nicId.Some? ==> Succeeded(log, DeleteNic(ResourceName(vm.nicId.value)))
  }

  ghost predicate DiskGone(log: Log, vm: Vm, split: BlobSplitter)
  {
    match vm.vhd
    case Some(uri) => split(uri).Some? && Succeeded(log, DeleteBlob(split(uri).value))
    case None => vm.diskName.Some? ==> Succeeded(log, DeleteDisk(vm.diskName.value))
  }

  // All role assignments but the last ones, `left`, are gone.
  ghost predicate RolesGone(log: Log, left: seq<string>)
  {
    |left| <= |Roles(log)| && Roles(log)[|Roles(log)| - |left|..] == left &&
    forall i :: 0 <= i < |Roles(log)| - |left| ==> Succeeded(log, DeleteRole(Roles(log)[i]))
  }

  // The machine and all that belongs to it
  ghost predicate AllGone(log: Log, name: string, vm: Vm, split: BlobSplitter)
  {
    Succeeded(log, DeleteVm(name)) && NicGone(log, vm) && DiskGone(log, vm, split) &&
    (vm.principal.Some? ==> Succeeded(log, ListRoles(vm.principal.value)) && RolesGone(log, []))
  }

  // A machine is deleted only if it has a disk, and a name for its network interface when it has one.
  ghost predicate Whole(vm: Vm)
  {
    (vm.vhd.Some? || vm.managedDisk) && (vm.nicId.Some? ==> ResourceName(vm.nicId.value) != "")
  }

  // ----- what each phase stands for -----

  ghost predicate Carries(log: Log, vm: Vm)
  {
    Fetched(log) == Some(vm) && NoFailure(log)
  }

  ghost predicate Stands(log: Log, name: string, split: BlobSplitter, phase: Phase)
  {
    match phase
    case Fetching => log == Empty
    case RemovingVm(vm, nic) =>
      Carries(log, vm) && Whole(vm) && (nic == "" <==> vm.nicId.None?) &&
        (vm.nicId.Some? ==> nic == ResourceName(vm.nicId.value))
    case RemovingNic(vm, nic) =>
      Carries(log, vm) && Succeeded(log, DeleteVm(name)) && vm.nicId.Some? && nic == ResourceName(vm.nicId.value)
    case OpeningStorage(vm, blob) =>
      Carries(log, vm) && Succeeded(log, DeleteVm(name)) && NicGone(log, vm) &&
      vm.vhd.Some? && split(vm.vhd.value) == Some(blob)
    case RemovingBlob(vm, blob) =>
      Carries(log, vm) && Succeeded(log, DeleteVm(name)) && NicGone(log, vm) &&
      vm.vhd.Some? && split(vm.vhd.value) == Some(blob)
    case RemovingDisk(vm, disk) =>
      Carries(log, vm) && Succeeded(log, DeleteVm(name)) && NicGone(log, vm) && vm.vhd.None? &&
        vm.diskName == Some(disk)
    case ListingRoles(vm, principal) =>
      Carries(log, vm) && Succeeded(log, DeleteVm(name)) && NicGone(log, vm) && DiskGone(log, vm, split) &&
      vm.principal == Some(principal)
    case RemovingRoles(vm, ids) =>
      Carries(log, vm) && Succeeded(log, DeleteVm(name)) && NicGone(log, vm) && DiskGone(log, vm, split) &&
      vm.principal.Some? && Succeeded(log, ListRoles(vm.principal.value)) && ids != [] && RolesGone(log, ids)
    case Ended(None) => Fetched(log).Some? && NoFailure(log) && AllGone(log, name, Fetched(log).value, split)
    case Ended(Some(_)) => log.Then? && NoFailure(log.before)
  }

  lemma OneRoleLess(log: Log, ids: seq<string>)
    requires log.Then? && ids != [] && RolesGone(log.before, ids)
    requires log.request == DeleteRole(ids[0]) && log.reply.error.None?
    ensures RolesGone(log, ids[1..])
  {
    var all, done := Roles(log), |Roles(log)| - |ids|;
    assert all[done] == all[done..][0] == ids[0];
    assert all[done + 1..] == all[done..][1..];
  }

  // A request that was due, after a log that stands
  ghost predicate Due(log: Log, name: string, split: BlobSplitter)
  {
    log.Then? && Active(Reached(log.before, split)) && log.request == RequestOf(name, Reached(log.before, split)) &&
    Stands(log.before, name, split, Reached(log.before, split))
  }

  lemma MachineStepStands(log: Log, name: string, split: BlobSplitter)
    requires Due(log, name, split)
    requires var p := Reached(log.before, split); p.Fetching? || p.RemovingVm? || p.RemovingNic?
    ensures Stands(log, name, split, Reached(log, split))
  {
  }

  lemma DiskStepStands(log: Log, name: string, split: BlobSplitter)
    requires Due(log, name, split)
    requires var p := Reached(log.before, split); p.OpeningStorage? || p.RemovingBlob? || p.RemovingDisk?
    ensures Stands(log, name, split, Reached(log, split))
  {
  }

  lemma RoleStepStands(log: Log, name: string, split: BlobSplitter)
    requires Due(log, name, split)
    requires var p := Reached(log.before, split); p.ListingRoles? || p.RemovingRoles?
    ensures Stands(log, name, split, Reached(log, split))
  {
    var before := Reached(log.before, split);
    if log.reply.error.None? && before.RemovingRoles? {
      OneRoleLess(log, before.ids);
    }
  }

  lemma {:induction false} PhaseStands(log: Log, name: string, split: BlobSplitter)
    requires Conforms(log, name, split)
    ensures Stands(log, name, split, Reached(log, split))
  {
    if log.Then? {
      PhaseStands(log.before, name, split);
      var before := Reached(log.before, split);
      if before.ListingRoles? || before.RemovingRoles? {
        RoleStepStands(log, name, split);
      } else if before.Fetching? || before.RemovingVm? || before.RemovingNic? {
        MachineStepStands(log, name, split);
      } else {
        DiskStepStands(log, name, split);
      }
    }
  }

  // ----- main results -----

  // The network interface, the disk and the roles are asked for only after the machine itself is gone.
  lemma {:induction false} MachineGoesFirst(log: Log, name: string, split: BlobSplitter)
    requires Conforms(log, name, split) && log.Then?
    ensures log.request.DeleteVm? ==>
      log.request.name == name && Fetched(log.before).Some? && Whole(Fetched(log.before).value)
    ensures !log.request.GetVm? && !log.request.DeleteVm? ==> Succeeded(log.before, DeleteVm(name))
  {
    PhaseStands(log.before, name, split);
  }

  // Reporting no error means that everything is gone.
  lemma {:induction false} CompletedDeletion(log: Log, name: string, split: BlobSplitter)
    requires Conforms(log, name, split) && Reached(log, split) == Ended(None)
    ensures NoFailure(log) && Fetched(log).Some? && AllGone(log, name, Fetched(log).value, split)
  {
    PhaseStands(log, name, split);
  }

  // The first failed request is the last one, and its error is the one reported.
  lemma {:induction false} FailureEnds(log: Log, name: string, split: BlobSplitter)
    requires Conforms(log, name, split) && !NoFailure(log)
    ensures NoFailure(log.before) && log.reply.error.Some? && Reached(log, split) == Ended(log.reply.error)
  {
    PhaseStands(log.before, name, split);
  }

  // ----- the program -----

  /** The cloud, as one deletion sees it: it may answer anything. */
  class Azure {
    var log: Log

    constructor ()
      ensures log == Empty
    {
      log := Empty;
    }

    method Send(request: Request) returns (reply: Reply)
      modifies this
      ensures log == Then(old(log), request, reply)
    {
      reply := *;
      log := Then(log, request, reply);
    }
  }

  method CleanDeleteVirtualMachine(az: Azure, name: string, split: BlobSplitter) returns (error: Option<string>)
    requires az.log == Empty
    modifies az
    ensures Conforms(az.log, name, split) && Reached(az.log, split) == Ended(error)
  {
    assert Reached(Empty, split) == Fetching && Conforms(Empty, name, split);
    var fetched := az.Send(GetVm(name));
    assert Conforms(az.log, name, split);
    if fetched.error.Some? {
      return fetched.error;
    }
    var vm := fetched.vm;
    if vm.vhd.None? && !vm.managedDisk {
      return Some("os disk does not have a VHD URI");
    }
    var nicName := "";
    if vm.nicId.Some? {
      nicName := ResourceName(vm.nicId.value);
      if nicName == "" {
        return Some("resource name was missing from identifier");
      }
    }
    assert Conforms(az.log, name, split) && Reached(az.log, split) == RemovingVm(vm, nicName);
    var reply := az.Send(DeleteVm(name));
    assert Conforms(az.log, name, split);
    if reply.error.Some? {
      return reply.error;
    }
    if |nicName| > 0 {
      reply := az.Send(DeleteNic(nicName));
      assert Conforms(az.log, name, split);
      if reply.error.Some? {
        return reply.error;
      }
    }
    error := DeleteDiskAndRoles(az, name, split, vm);
  }

  // After the machine and its network interface are gone
  method DeleteDiskAndRoles(az: Azure, name: string, split: BlobSplitter, vm: Vm) returns (error: Option<string>)
    requires Conforms(az.log, name, split) && Reached(az.log, split) == AfterNic(vm, split) &&
      (vm.vhd.Some? || vm.managedDisk)
    modifies az
    ensures Conforms(az.log, name, split) && Reached(az.log, split) == Ended(error)
  {
    if vm.vhd.Some? {
      var blob := split(vm.vhd.value);
      if blob.None? {
        return Some("bad blob address");
      }
      var reply := az.Send(OpenStorage(blob.value.account));
      if reply.error.Some? {
        return reply.error;
      }
      reply := az.Send(DeleteBlob(blob.value));
      if reply.error.Some? {
        return reply.error;
      }
    } else if vm.managedDisk {
      if vm.diskName.Some? {
        var reply := az.Send(DeleteDisk(vm.diskName.value));
        if reply.error.Some? {
          return reply.error;
        }
      }
    }
    error := DeleteRoles(az, name, split, vm);
  }

  method DeleteRoles(az: Azure, name: string, split: BlobSplitter, vm: Vm) returns (error: Option<string>)
    requires Conforms(az.log, name, split) && Reached(az.log, split) == AfterDisk(vm)
    modifies az
    ensures Conforms(az.log, name, split) && Reached(az.log, split) == Ended(error)
  {
    if vm.principal.None? {
      return None;
    }
    var listed := az.Send(ListRoles(vm.principal.value));
    if listed.error.Some? {
      return listed.error;
    }
    for i := 0 to |listed.roles|
      invariant Conforms(az.log, name, split) && Reached(az.log, split) == WithRoles(vm, listed.roles[i..])
    {
      assert listed.roles[i..][0] == listed.roles[i] && listed.roles[i..][1..] == listed.roles[i + 1..];
      var reply := az.Send(DeleteRole(listed.roles[i]));
      if reply.error.Some? {
        return reply.error;
      }
    }
    assert listed.roles[|listed.roles|..] == [];
    error := None;
  }
}
