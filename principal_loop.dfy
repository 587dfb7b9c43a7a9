/** The principal loop both workload scripts run after `assignIdentityToVMs`
    (SetWorkloadSnapshotBackupPermissions.py and
    SetWorkloadSnapshotRestorePermissions.py): for each principal, a disk role
    on every disk resource group, then Disk Snapshot Contributor on the
    snapshot resource group, each through the workload helpers'
    `assignRoleOnResourceGroup`. */
module PrincipalLoop {
  import opened Results
  import opened CloudControl
  import opened RoleAssignment
  import opened PermissionPlan
  import WorkloadHelpers

  /** The inner loop: `role` on every group of `groups`, in order. */
  method GrantOnGroups(cp: ControlPlane, principal: string, role: string, groups: seq<string>) returns (s: Status<()>)
    modifies cp`log, cp`assignments
    ensures var r := RunPlan(old(cp.State()), cp.env, GroupGrants(principal, role, groups));
            s == r.status && cp.State() == r.cloud && cp.log == old(cp.log) + r.log
  {
    ghost var total := RunPlan(cp.State(), cp.env, GroupGrants(principal, role, groups));
    ghost var log0 := cp.log;
    ghost var done: seq<Command> := [];
    assert groups[0..] == groups;
    var j := 0;
    while j < |groups|
      invariant 0 <= j <= |groups|
      invariant cp.log == log0 + done
      invariant total == Then(done, RunPlan(cp.State(), cp.env, GroupGrants(principal, role, groups[j..])))
    {
      ghost var key := RoleKey(principal, role, Group(groups[j]));
      ghost var g := CheckThenAct(cp.State(), cp.env, key);
      GroupGrantsFrom(principal, role, groups, j);
      GrantAdvance(total, done, cp.State(), cp.env, key, GroupGrants(principal, role, groups[j + 1..]));
      var granted := WorkloadHelpers.AssignRoleOnResourceGroup(cp, principal, groups[j], role);
      AppendAssoc(log0, done, g.log);
      done := done + g.log;
      if !granted.Done? {
        return Ending(granted);
      }
      j := j + 1;
    }
    assert groups[j..] == [];
    assert done + [] == done;
    return Done(());
  }

  /** One iteration of the outer loop: the disk grants, then Disk Snapshot
      Contributor on the snapshot resource group. */
  method GrantPrincipal(cp: ControlPlane, principal: string, diskRole: string, diskGroups: seq<string>, snapshotGroup: string)
    returns (s: Status<()>)
    modifies cp`log, cp`assignments
    ensures var r := RunPlan(old(cp.State()), cp.env, PrincipalGrants(principal, diskRole, diskGroups, snapshotGroup));
            s == r.status && cp.State() == r.cloud && cp.log == old(cp.log) + r.log
  {
    ghost var total := RunPlan(cp.State(), cp.env, PrincipalGrants(principal, diskRole, diskGroups, snapshotGroup));
    ghost var log0 := cp.log;
    ghost var key := RoleKey(principal, DiskSnapshotContributor, Group(snapshotGroup));
    assert total == Then([], RunPlan(cp.State(), cp.env, GroupGrants(principal, diskRole, diskGroups) + [Grant(key)]));
    PlanAdvance(total, [], cp.State(), cp.env, GroupGrants(principal, diskRole, diskGroups), [Grant(key)]);
    ghost var disk := RunPlan(cp.State(), cp.env, GroupGrants(principal, diskRole, diskGroups));
    assert [] + disk.log == disk.log;
    s := GrantOnGroups(cp, principal, diskRole, diskGroups);
    if !s.Done? {
      return;
    }
    RunPlanGrant(cp.State(), cp.env, key);
    ghost var g := CheckThenAct(cp.State(), cp.env, key);
    var granted := WorkloadHelpers.AssignRoleOnResourceGroup(cp, principal, snapshotGroup, DiskSnapshotContributor);
    AppendAssoc(log0, disk.log, g.log);
    s := Ending(granted);
  }

  /** The outer loop over the principals. Python leaves the loop variable
      bound to the last principal after the loop (unbound when there was
      none); `servicePrincipalId` is that binding. */
  method GrantPrincipals(cp: ControlPlane, principalIds: seq<string>, diskRole: string, diskGroups: seq<string>, snapshotGroup: string)
    returns (s: Status<()>, servicePrincipalId: Option<string>)
    modifies cp`log, cp`assignments
    ensures var r := RunPlan(old(cp.State()), cp.env, AllPrincipalGrants(principalIds, diskRole, diskGroups, snapshotGroup));
            s == r.status && cp.State() == r.cloud && cp.log == old(cp.log) + r.log
    ensures s.Done? ==> servicePrincipalId == LastPrincipal(principalIds)
  {
    ghost var total := RunPlan(cp.State(), cp.env, AllPrincipalGrants(principalIds, diskRole, diskGroups, snapshotGroup));
    ghost var log0 := cp.log;
    ghost var done: seq<Command> := [];
    assert principalIds[0..] == principalIds;
    servicePrincipalId := None;
    var i := 0;
    while i < |principalIds|
      invariant 0 <= i <= |principalIds|
      invariant cp.log == log0 + done
      invariant total == Then(done, RunPlan(cp.State(), cp.env, AllPrincipalGrants(principalIds[i..], diskRole, diskGroups, snapshotGroup)))
      invariant servicePrincipalId == if i == 0 then None else Some(principalIds[i - 1])
    {
      servicePrincipalId := Some(principalIds[i]);
      ghost var p := RunPlan(cp.State(), cp.env, PrincipalGrants(principalIds[i], diskRole, diskGroups, snapshotGroup));
      ghost var later := AllPrincipalGrants(principalIds[i + 1..], diskRole, diskGroups, snapshotGroup);
      PrincipalAdvance(total, done, cp.State(), cp.env, principalIds, diskRole, diskGroups, snapshotGroup, i);
      var granted := GrantPrincipal(cp, principalIds[i], diskRole, diskGroups, snapshotGroup);
      AppendAssoc(log0, done, p.log);
      done := done + p.log;
      if !granted.Done? {
        assert total == Run(granted, cp.State(), done);
        return granted, servicePrincipalId;
      }
      assert total == Then(done, RunPlan(cp.State(), cp.env, later));
      i := i + 1;
    }
    assert principalIds[i..] == [];
    assert done + [] == done;
    s := Done(());
  }
}
