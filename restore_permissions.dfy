/** AzureWorkloadSnapshotPreReqCLIScripts/SetWorkloadSnapshotRestorePermissions.py:
    after the shared opening, every principal gets Disk Restore operator on
    each disk resource group and Disk Snapshot Contributor on the snapshot
    resource group; then every named machine gets Virtual Machine Contributor
    on its own resource id — granted to the principal the previous loop's
    variable was last bound to, whichever machine that principal belongs to. */
module RestorePermissions {
  import opened Results
  import opened CloudControl
  import opened RoleAssignment
  import opened PermissionPlan
  import opened Session
  import opened PrincipalLoop
  import WorkloadHelpers

  const DiskRestoreOperator: string := "Disk Restore operator"
  const VirtualMachineContributor: string := "Virtual Machine Contributor"

  /** The machine loop as a function of the state. With the principal loop's
      variable unbound (no principals) and a machine to grant on, the first
      iteration looks the machine up and then raises NameError. */
  function VmLoop(c: Cloud, env: Env, servicePrincipalId: Option<string>, vmGroup: string, vmNames: seq<string>)
    : (r: Run<()>)
    ensures r.cloud.vms == c.vms
    ensures c.assignments <= r.cloud.assignments
    ensures servicePrincipalId.None? && vmNames != [] ==> r.status == Crashed && r.cloud == c
  {
    if servicePrincipalId.None? then
      if vmNames == [] then Run(Done(()), c, [])
      else Run(Crashed, c, [VmShowId(VmKey(vmGroup, vmNames[0]))])
    else RunPlan(c, env, VmGrants(servicePrincipalId.value, VirtualMachineContributor, vmGroup, vmNames))
  }

  /** The two grant loops, after the opening returned `principalIds`. */
  function RestoreGrants(c: Cloud, env: Env, principalIds: seq<string>, diskGroups: seq<string>, snapshotGroup: string,
                         vmGroup: string, vmNames: seq<string>): (r: Run<()>)
    ensures r.cloud.vms == c.vms
    ensures c.assignments <= r.cloud.assignments
  {
    var loops := RunPlan(c, env, AllPrincipalGrants(principalIds, DiskRestoreOperator, diskGroups, snapshotGroup));
    if !loops.status.Done? then loops
    else Then(loops.log, VmLoop(loops.cloud, env, LastPrincipal(principalIds), vmGroup, vmNames))
  }

  /** The whole script as a function of the state. */
  function RestoreRun(c: Cloud, env: Env, subscription: string, identityId: Option<string>, vmGroup: string,
                      vmNames: seq<string>, diskGroups: seq<string>, snapshotGroup: string): (r: Run<()>)
    ensures !AccountSetOk(env, subscription) ==> r == Run(Exited, c, [Command.Login, AccountSet(subscription)])
    ensures r.cloud.vms.Keys == c.vms.Keys
    ensures c.assignments <= r.cloud.assignments
  {
    var s := Setup(c, env, subscription, identityId, vmGroup, vmNames);
    if !s.status.Done? then Run(Reraise(s.status), s.cloud, s.log)
    else Then(s.log, RestoreGrants(s.cloud, env, s.status.value, diskGroups, snapshotGroup, vmGroup, vmNames))
  }

  /** The NameError path is unreachable from the opening: a normal opening
      yields at least one principal whenever there is a machine. */
  lemma RestoreNeverUnbound(c: Cloud, env: Env, subscription: string, identityId: Option<string>, vmGroup: string,
                            vmNames: seq<string>)
    requires Setup(c, env, subscription, identityId, vmGroup, vmNames).status.Done?
    requires vmNames != []
    ensures LastPrincipal(Setup(c, env, subscription, identityId, vmGroup, vmNames).status.value).Some?
  {
  }

  /** The machine loop's role requests, in order: request `k` is Virtual
      Machine Contributor for the one principal the loop variable holds, on
      the resource id of machine `k`; all |machines| of them when the loop
      completes. */
  lemma VmLoopRequests(c: Cloud, env: Env, servicePrincipal: string, vmGroup: string, vmNames: seq<string>)
    ensures var r := VmLoop(c, env, Some(servicePrincipal), vmGroup, vmNames);
            var req := RoleRequests(r.log);
            && |req| <= |vmNames|
            && (forall k :: 0 <= k < |req| ==>
                  VmKey(vmGroup, vmNames[k]) in c.vms
                  && req[k] == RoleKey(servicePrincipal, VirtualMachineContributor, Scope(c.vms[VmKey(vmGroup, vmNames[k])].resourceId)))
            && (r.status.Done? ==> |req| == |vmNames|)
  {
    var plan := VmGrants(servicePrincipal, VirtualMachineContributor, vmGroup, vmNames);
    RunPlanRequests(c, env, plan);
  }

  /** A completed machine loop leaves Virtual Machine Contributor for the loop
      variable's principal on every machine's resource id. */
  lemma VmLoopCompletes(c: Cloud, env: Env, servicePrincipal: string, vmGroup: string, vmNames: seq<string>)
    requires VmLoop(c, env, Some(servicePrincipal), vmGroup, vmNames).status.Done?
    ensures forall k :: 0 <= k < |vmNames| ==>
              VmKey(vmGroup, vmNames[k]) in c.vms
              && RoleKey(servicePrincipal, VirtualMachineContributor, Scope(c.vms[VmKey(vmGroup, vmNames[k])].resourceId))
                 in VmLoop(c, env, Some(servicePrincipal), vmGroup, vmNames).cloud.assignments
  {
    var plan := VmGrants(servicePrincipal, VirtualMachineContributor, vmGroup, vmNames);
    forall k | 0 <= k < |vmNames|
      ensures VmKey(vmGroup, vmNames[k]) in c.vms
    {
      assert Listable(c, env, plan[k]);
    }
  }

  /** The grant loops' role requests: a completed run issues |principals| ×
      (|disk groups| + 1) + |machines| of them, and every machine grant names
      the LAST principal — the loop variable the script reuses — on that
      machine's resource id. */
  lemma RestoreGrantsRequests(c: Cloud, env: Env, principalIds: seq<string>, diskGroups: seq<string>, snapshotGroup: string,
                              vmGroup: string, vmNames: seq<string>)
    requires principalIds != [] || vmNames == []
    requires RestoreGrants(c, env, principalIds, diskGroups, snapshotGroup, vmGroup, vmNames).status.Done?
    ensures var req := RoleRequests(RestoreGrants(c, env, principalIds, diskGroups, snapshotGroup, vmGroup, vmNames).log);
            var before := |principalIds| * (|diskGroups| + 1);
            && |req| == before + |vmNames|
            && forall k :: 0 <= k < |vmNames| ==>
                 VmKey(vmGroup, vmNames[k]) in c.vms
                 && req[before + k] == RoleKey(principalIds[|principalIds| - 1], VirtualMachineContributor,
                                               Scope(c.vms[VmKey(vmGroup, vmNames[k])].resourceId))
  {
    var plan := AllPrincipalGrants(principalIds, DiskRestoreOperator, diskGroups, snapshotGroup);
    var loops := RunPlan(c, env, plan);
    var vmLoop := VmLoop(loops.cloud, env, LastPrincipal(principalIds), vmGroup, vmNames);
    assert loops.status.Done?;
    RunPlanRequests(c, env, plan);
    RoleRequestsAppend(loops.log, vmLoop.log);
    var first := RoleRequests(loops.log);
    var req := first + RoleRequests(vmLoop.log);
    assert |first| == |principalIds| * (|diskGroups| + 1);
    if principalIds == [] {
      assert vmLoop.log == [];
    } else {
      var last := principalIds[|principalIds| - 1];
      assert LastPrincipal(principalIds) == Some(last);
      VmLoopRequests(loops.cloud, env, last, vmGroup, vmNames);
      forall k | 0 <= k < |vmNames|
        ensures VmKey(vmGroup, vmNames[k]) in c.vms
        ensures req[|first| + k] == RoleKey(last, VirtualMachineContributor, Scope(c.vms[VmKey(vmGroup, vmNames[k])].resourceId))
      {
        assert req[|first| + k] == RoleRequests(vmLoop.log)[k];
      }
    }
  }

  /** The script's role requests: none when the opening ends it, the grant
      loops' otherwise (the opening issues none and changes no resource id);
      and a completed run never met the unbound loop variable. */
  lemma RestoreRequests(c: Cloud, env: Env, subscription: string, identityId: Option<string>, vmGroup: string,
                        vmNames: seq<string>, diskGroups: seq<string>, snapshotGroup: string)
    ensures var s := Setup(c, env, subscription, identityId, vmGroup, vmNames);
            var r := RestoreRun(c, env, subscription, identityId, vmGroup, vmNames, diskGroups, snapshotGroup);
            && (!s.status.Done? ==> RoleRequests(r.log) == [])
            && (s.status.Done? ==>
                  && RoleRequests(r.log) == RoleRequests(RestoreGrants(s.cloud, env, s.status.value, diskGroups, snapshotGroup, vmGroup, vmNames).log)
                  && (s.status.value != [] || vmNames == []))
  {
    var s := Setup(c, env, subscription, identityId, vmGroup, vmNames);
    if s.status.Done? {
      RoleRequestsAppend(s.log, RestoreGrants(s.cloud, env, s.status.value, diskGroups, snapshotGroup, vmGroup, vmNames).log);
      if vmNames != [] {
        RestoreNeverUnbound(c, env, subscription, identityId, vmGroup, vmNames);
      }
    }
  }

  /** When the grant loops complete, every planned triple is present: Disk
      Restore operator on each disk group and Disk Snapshot Contributor on the
      snapshot group for each principal, and Virtual Machine Contributor on
      every machine's resource id for the last principal only. */
  lemma RestoreGrantsComplete(c: Cloud, env: Env, principalIds: seq<string>, diskGroups: seq<string>, snapshotGroup: string,
                              vmGroup: string, vmNames: seq<string>)
    requires principalIds != []
    requires RestoreGrants(c, env, principalIds, diskGroups, snapshotGroup, vmGroup, vmNames).status.Done?
    ensures var done := RestoreGrants(c, env, principalIds, diskGroups, snapshotGroup, vmGroup, vmNames).cloud;
            && (forall i :: 0 <= i < |principalIds| ==>
                  RoleKey(principalIds[i], DiskSnapshotContributor, Group(snapshotGroup)) in done.assignments)
            && (forall i, j :: 0 <= i < |principalIds| && 0 <= j < |diskGroups| ==>
                  RoleKey(principalIds[i], DiskRestoreOperator, Group(diskGroups[j])) in done.assignments)
            && (forall k :: 0 <= k < |vmNames| ==>
                  VmKey(vmGroup, vmNames[k]) in c.vms
                  && RoleKey(principalIds[|principalIds| - 1], VirtualMachineContributor,
                             Scope(c.vms[VmKey(vmGroup, vmNames[k])].resourceId)) in done.assignments)
  {
    var plan := AllPrincipalGrants(principalIds, DiskRestoreOperator, diskGroups, snapshotGroup);
    var loops := RunPlan(c, env, plan);
    var last := principalIds[|principalIds| - 1];
    assert LastPrincipal(principalIds) == Some(last);
    var done := RestoreGrants(c, env, principalIds, diskGroups, snapshotGroup, vmGroup, vmNames).cloud;
    assert loops.cloud.assignments <= done.assignments;
    forall i | 0 <= i < |principalIds|
      ensures RoleKey(principalIds[i], DiskSnapshotContributor, Group(snapshotGroup)) in done.assignments
    {
      var k := AllPrincipalGrantsAt(principalIds, DiskRestoreOperator, diskGroups, snapshotGroup, i, |diskGroups|);
      assert StepKey(c.vms, plan[k]).value in loops.cloud.assignments;
    }
    forall i, j | 0 <= i < |principalIds| && 0 <= j < |diskGroups|
      ensures RoleKey(principalIds[i], DiskRestoreOperator, Group(diskGroups[j])) in done.assignments
    {
      var k := AllPrincipalGrantsAt(principalIds, DiskRestoreOperator, diskGroups, snapshotGroup, i, j);
      assert StepKey(c.vms, plan[k]).value in loops.cloud.assignments;
    }
    VmLoopCompletes(loops.cloud, env, last, vmGroup, vmNames);
  }

  /** One iteration of the machine loop: `az vm show --query id`, the first
      line of its output (IndexError when there is none), then the
      check-then-act for the loop variable's principal on that id (NameError
      when the variable is unbound). */
  function MachineStep(c: Cloud, env: Env, servicePrincipalId: Option<string>, vm: VmKey): (r: Run<()>)
    ensures servicePrincipalId.None? ==> r == Run(Crashed, c, [VmShowId(vm)])
    ensures r.status.Done? ==>
              && vm in c.vms && servicePrincipalId.Some?
              && RoleKey(servicePrincipalId.value, VirtualMachineContributor, Scope(c.vms[vm].resourceId)) in r.cloud.assignments
  {
    if servicePrincipalId.None? then Run(Crashed, c, [VmShowId(vm)])
    else RunStep(c, env, GrantOnVm(servicePrincipalId.value, VirtualMachineContributor, vm))
  }

  /** Machine `k` at the head of what is left of the machine loop. */
  lemma VmLoopAdvance(total: Run<()>, done: seq<Command>, c: Cloud, env: Env, servicePrincipalId: Option<string>,
                      vmGroup: string, vmNames: seq<string>, k: nat)
    requires k < |vmNames|
    requires total == Then(done, VmLoop(c, env, servicePrincipalId, vmGroup, vmNames[k..]))
    ensures var r := MachineStep(c, env, servicePrincipalId, VmKey(vmGroup, vmNames[k]));
            if r.status.Done? then total == Then(done + r.log, VmLoop(r.cloud, env, servicePrincipalId, vmGroup, vmNames[k + 1..]))
            else total == Run(r.status, r.cloud, done + r.log)
  {
    if servicePrincipalId.Some? {
      VmGrantsFrom(servicePrincipalId.value, VirtualMachineContributor, vmGroup, vmNames, k);
      StepAdvance(total, done, c, env, GrantOnVm(servicePrincipalId.value, VirtualMachineContributor, VmKey(vmGroup, vmNames[k])),
                  VmGrants(servicePrincipalId.value, VirtualMachineContributor, vmGroup, vmNames[k + 1..]));
    } else {
      assert vmNames[k..][0] == vmNames[k];
    }
  }

  /** One iteration of the machine loop against the control plane. */
  method GrantOnMachine(cp: ControlPlane, servicePrincipalId: Option<string>, vm: VmKey) returns (s: Status<()>)
    modifies cp`log, cp`assignments
    ensures var r := MachineStep(old(cp.State()), cp.env, servicePrincipalId, vm);
            s == r.status && cp.State() == r.cloud && cp.log == old(cp.log) + r.log
  {
    ghost var log0 := cp.log;
    ghost var c := cp.State();
    var ok, vmId := cp.ShowVmId(vm);
    if vmId == [] {
      return Crashed;
    }
    if servicePrincipalId.None? {
      return Crashed;
    }
    ghost var g := CheckThenAct(c, cp.env, RoleKey(servicePrincipalId.value, VirtualMachineContributor, Scope(vmId[0])));
    var granted := WorkloadHelpers.AssignRoleOnScope(cp, servicePrincipalId.value, VirtualMachineContributor, vmId[0]);
    AppendAssoc(log0, [VmShowId(vm)], g.log);
    s := Ending(granted);
  }

  /** The machine loop against the control plane. `servicePrincipalId` is the
      principal loop's variable, unbound when there was no principal. */
  method GrantVmRoles(cp: ControlPlane, servicePrincipalId: Option<string>, vmGroup: string, vmNames: seq<string>)
    returns (s: Status<()>)
    modifies cp`log, cp`assignments
    ensures var r := VmLoop(old(cp.State()), cp.env, servicePrincipalId, vmGroup, vmNames);
            s == r.status && cp.State() == r.cloud && cp.log == old(cp.log) + r.log
  {
    ghost var total := VmLoop(cp.State(), cp.env, servicePrincipalId, vmGroup, vmNames);
    ghost var log0 := cp.log;
    ghost var done: seq<Command> := [];
    assert vmNames[0..] == vmNames;
    var k := 0;
    while k < |vmNames|
      invariant 0 <= k <= |vmNames|
      invariant cp.log == log0 + done
      invariant total == Then(done, VmLoop(cp.State(), cp.env, servicePrincipalId, vmGroup, vmNames[k..]))
    {
      var vm := VmKey(vmGroup, vmNames[k]);
      ghost var step := MachineStep(cp.State(), cp.env, servicePrincipalId, vm);
      VmLoopAdvance(total, done, cp.State(), cp.env, servicePrincipalId, vmGroup, vmNames, k);
      var granted := GrantOnMachine(cp, servicePrincipalId, vm);
      AppendAssoc(log0, done, step.log);
      done := done + step.log;
      if !granted.Done? {
        return granted;
      }
      k := k + 1;
    }
    assert vmNames[k..] == [];
    assert done + [] == done;
    return Done(());
  }

  /** The grant loops against the control plane. */
  method GrantRestoreRoles(cp: ControlPlane, principalIds: seq<string>, diskGroups: seq<string>, snapshotGroup: string,
                           vmGroup: string, vmNames: seq<string>)
    returns (s: Status<()>)
    modifies cp`log, cp`assignments
    ensures var r := RestoreGrants(old(cp.State()), cp.env, principalIds, diskGroups, snapshotGroup, vmGroup, vmNames);
            s == r.status && cp.State() == r.cloud && cp.log == old(cp.log) + r.log
  {
    ghost var log0 := cp.log;
    ghost var loops := RunPlan(cp.State(), cp.env, AllPrincipalGrants(principalIds, DiskRestoreOperator, diskGroups, snapshotGroup));
    var servicePrincipalId;
    s, servicePrincipalId := GrantPrincipals(cp, principalIds, DiskRestoreOperator, diskGroups, snapshotGroup);
    if !s.Done? {
      return;
    }
    ghost var vmLoop := VmLoop(cp.State(), cp.env, servicePrincipalId, vmGroup, vmNames);
    s := GrantVmRoles(cp, servicePrincipalId, vmGroup, vmNames);
    AppendAssoc(log0, loops.log, vmLoop.log);
  }

  /** The script against the control plane: the opening, then the grant
      loops; `Done` is the completion message. */
  method SetRestorePermissions(cp: ControlPlane, subscription: string, identityId: Option<string>, vmGroup: string,
                               vmNames: seq<string>, diskGroups: seq<string>, snapshotGroup: string)
    returns (s: Status<()>)
    modifies cp`log, cp`assignments, cp`vms
    ensures var r := RestoreRun(old(cp.State()), cp.env, subscription, identityId, vmGroup, vmNames, diskGroups, snapshotGroup);
            s == r.status && cp.State() == r.cloud && cp.log == old(cp.log) + r.log
  {
    ghost var log0 := cp.log;
    ghost var setup := Setup(cp.State(), cp.env, subscription, identityId, vmGroup, vmNames);
    var principalIds := StartSession(cp, subscription, identityId, vmGroup, vmNames);
    if !principalIds.Done? {
      return Reraise(principalIds);
    }
    ghost var r := RestoreGrants(cp.State(), cp.env, principalIds.value, diskGroups, snapshotGroup, vmGroup, vmNames);
    s := GrantRestoreRoles(cp, principalIds.value, diskGroups, snapshotGroup, vmGroup, vmNames);
    AppendAssoc(log0, setup.log, r.log);
  }
}
