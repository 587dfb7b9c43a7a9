/** AzureWorkloadSnapshotPreReqCLIScripts/SetWorkloadSnapshotBackupPermissions.py:
    after the shared opening, every principal gets Disk Backup Reader on each
    disk resource group and Disk Snapshot Contributor on the snapshot resource
    group, and the backup service's fixed principal gets Disk Snapshot
    Contributor on the snapshot resource group. */
module BackupPermissions {
  import opened Results
  import opened CloudControl
  import opened RoleAssignment
  import opened PermissionPlan
  import opened Session
  import opened PrincipalLoop
  import WorkloadHelpers

  const DiskBackupReader: string := "Disk Backup Reader"

  /** The principal of the backup management service. */
  const BackupServicePrincipal: string := "f40e18f0-6544-45c2-9d24-639a8bb3b41a"

  /** The backup service's grant, issued after every principal's. */
  function ServiceGrant(snapshotGroup: string): Step
  {
    Grant(RoleKey(BackupServicePrincipal, DiskSnapshotContributor, Group(snapshotGroup)))
  }

  /** The requests of the script's grant loops, in order: |principals| ×
      (|disk groups| + 1) grants for the principals, then the service grant. */
  function BackupPlan(principalIds: seq<string>, diskGroups: seq<string>, snapshotGroup: string): (r: seq<Step>)
    ensures |r| == |principalIds| * (|diskGroups| + 1) + 1
    ensures r[|r| - 1] == ServiceGrant(snapshotGroup)
  {
    AllPrincipalGrants(principalIds, DiskBackupReader, diskGroups, snapshotGroup) + [ServiceGrant(snapshotGroup)]
  }

  /** Every request of the plan is a plain grant: for principal `i`, Disk
      Backup Reader on disk group `j` at position `i * (|diskGroups| + 1) + j`
      and Disk Snapshot Contributor on the snapshot group right after them. */
  lemma BackupPlanAt(principalIds: seq<string>, diskGroups: seq<string>, snapshotGroup: string, i: nat, j: nat)
    returns (k: nat)
    requires i < |principalIds| && j <= |diskGroups|
    ensures k == i * (|diskGroups| + 1) + j
    ensures var plan := BackupPlan(principalIds, diskGroups, snapshotGroup);
            && k < |plan| - 1
            && plan[k] ==
               if j < |diskGroups| then Grant(RoleKey(principalIds[i], DiskBackupReader, Group(diskGroups[j])))
               else Grant(RoleKey(principalIds[i], DiskSnapshotContributor, Group(snapshotGroup)))
  {
    k := AllPrincipalGrantsAt(principalIds, DiskBackupReader, diskGroups, snapshotGroup, i, j);
  }

  /** The whole script as a function of the state. */
  function BackupRun(c: Cloud, env: Env, subscription: string, identityId: Option<string>, vmGroup: string,
                     vmNames: seq<string>, diskGroups: seq<string>, snapshotGroup: string): (r: Run<()>)
    ensures !AccountSetOk(env, subscription) ==> r == Run(Exited, c, [Command.Login, AccountSet(subscription)])
    ensures r.cloud.vms.Keys == c.vms.Keys
    ensures c.assignments <= r.cloud.assignments
  {
    var s := Setup(c, env, subscription, identityId, vmGroup, vmNames);
    if !s.status.Done? then Run(Reraise(s.status), s.cloud, s.log)
    else Then(s.log, RunPlan(s.cloud, env, BackupPlan(s.status.value, diskGroups, snapshotGroup)))
  }

  /** The role requests of the grant loops are the plan's, in plan order: a
      prefix of the plan in general, all |principals| × (|disk groups| + 1)
      + 1 of them when the loops complete. */
  lemma BackupPlanRequests(c: Cloud, env: Env, principalIds: seq<string>, diskGroups: seq<string>, snapshotGroup: string)
    ensures var plan := BackupPlan(principalIds, diskGroups, snapshotGroup);
            var req := RoleRequests(RunPlan(c, env, plan).log);
            && |req| <= |plan|
            && (forall i :: 0 <= i < |req| ==> plan[i] == Grant(req[i]))
            && (RunPlan(c, env, plan).status.Done? ==> |req| == |principalIds| * (|diskGroups| + 1) + 1)
  {
    var plan := BackupPlan(principalIds, diskGroups, snapshotGroup);
    var req := RoleRequests(RunPlan(c, env, plan).log);
    RunPlanRequests(c, env, plan);
    forall i | 0 <= i < |req|
      ensures plan[i] == Grant(req[i])
    {
      if i < |plan| - 1 {
        AllPrincipalGrantsFixed(principalIds, DiskBackupReader, diskGroups, snapshotGroup);
        assert plan[i] == AllPrincipalGrants(principalIds, DiskBackupReader, diskGroups, snapshotGroup)[i];
      }
    }
  }

  /** The opening issues no role request, so the script's requests are the
      grant loops' — none when the opening ends the script. */
  lemma BackupRequests(c: Cloud, env: Env, subscription: string, identityId: Option<string>, vmGroup: string,
                       vmNames: seq<string>, diskGroups: seq<string>, snapshotGroup: string)
    ensures var s := Setup(c, env, subscription, identityId, vmGroup, vmNames);
            var r := BackupRun(c, env, subscription, identityId, vmGroup, vmNames, diskGroups, snapshotGroup);
            RoleRequests(r.log) ==
              if s.status.Done? then RoleRequests(RunPlan(s.cloud, env, BackupPlan(s.status.value, diskGroups, snapshotGroup)).log)
              else []
  {
    var s := Setup(c, env, subscription, identityId, vmGroup, vmNames);
    if s.status.Done? {
      RoleRequestsAppend(s.log, RunPlan(s.cloud, env, BackupPlan(s.status.value, diskGroups, snapshotGroup)).log);
    }
  }

  /** When the grant loops complete, every planned triple is present: Disk
      Backup Reader on each disk group and Disk Snapshot Contributor on the
      snapshot group for each principal, and Disk Snapshot Contributor on the
      snapshot group for the backup service. */
  lemma BackupPlanCompletes(c: Cloud, env: Env, principalIds: seq<string>, diskGroups: seq<string>, snapshotGroup: string)
    requires RunPlan(c, env, BackupPlan(principalIds, diskGroups, snapshotGroup)).status.Done?
    ensures var done := RunPlan(c, env, BackupPlan(principalIds, diskGroups, snapshotGroup)).cloud;
            && RoleKey(BackupServicePrincipal, DiskSnapshotContributor, Group(snapshotGroup)) in done.assignments
            && (forall i :: 0 <= i < |principalIds| ==>
                  RoleKey(principalIds[i], DiskSnapshotContributor, Group(snapshotGroup)) in done.assignments)
            && (forall i, j :: 0 <= i < |principalIds| && 0 <= j < |diskGroups| ==>
                  RoleKey(principalIds[i], DiskBackupReader, Group(diskGroups[j])) in done.assignments)
  {
    var plan := BackupPlan(principalIds, diskGroups, snapshotGroup);
    var done := RunPlan(c, env, plan).cloud;
    assert StepKey(c.vms, plan[|plan| - 1]).value in done.assignments;
    forall i | 0 <= i < |principalIds|
      ensures RoleKey(principalIds[i], DiskSnapshotContributor, Group(snapshotGroup)) in done.assignments
    {
      var k := BackupPlanAt(principalIds, diskGroups, snapshotGroup, i, |diskGroups|);
      assert StepKey(c.vms, plan[k]).value in done.assignments;
    }
    forall i, j | 0 <= i < |principalIds| && 0 <= j < |diskGroups|
      ensures RoleKey(principalIds[i], DiskBackupReader, Group(diskGroups[j])) in done.assignments
    {
      var k := BackupPlanAt(principalIds, diskGroups, snapshotGroup, i, j);
      assert StepKey(c.vms, plan[k]).value in done.assignments;
    }
  }

  /** The grant loops of the script (after `assignIdentityToVMs` returned the
      principals) against the control plane. */
  method GrantBackupRoles(cp: ControlPlane, principalIds: seq<string>, diskGroups: seq<string>, snapshotGroup: string)
    returns (s: Status<()>)
    modifies cp`log, cp`assignments
    ensures var r := RunPlan(old(cp.State()), cp.env, BackupPlan(principalIds, diskGroups, snapshotGroup));
            s == r.status && cp.State() == r.cloud && cp.log == old(cp.log) + r.log
  {
    ghost var total := RunPlan(cp.State(), cp.env, BackupPlan(principalIds, diskGroups, snapshotGroup));
    ghost var log0 := cp.log;
    ghost var key := RoleKey(BackupServicePrincipal, DiskSnapshotContributor, Group(snapshotGroup));
    ghost var loops := RunPlan(cp.State(), cp.env, AllPrincipalGrants(principalIds, DiskBackupReader, diskGroups, snapshotGroup));
    assert total == Then([], RunPlan(cp.State(), cp.env, AllPrincipalGrants(principalIds, DiskBackupReader, diskGroups, snapshotGroup) + [Grant(key)]));
    PlanAdvance(total, [], cp.State(), cp.env, AllPrincipalGrants(principalIds, DiskBackupReader, diskGroups, snapshotGroup), [Grant(key)]);
    assert [] + loops.log == loops.log;
    var lastPrincipal;
    s, lastPrincipal := GrantPrincipals(cp, principalIds, DiskBackupReader, diskGroups, snapshotGroup);
    if !s.Done? {
      return;
    }
    RunPlanGrant(cp.State(), cp.env, key);
    ghost var g := CheckThenAct(cp.State(), cp.env, key);
    var granted := WorkloadHelpers.AssignRoleOnResourceGroup(cp, BackupServicePrincipal, snapshotGroup, DiskSnapshotContributor);
    AppendAssoc(log0, loops.log, g.log);
    s := Ending(granted);
  }

  /** The script against the control plane: the opening, then the grant
      loops; `Done` is the completion message. */
  method SetBackupPermissions(cp: ControlPlane, subscription: string, identityId: Option<string>, vmGroup: string,
                              vmNames: seq<string>, diskGroups: seq<string>, snapshotGroup: string)
    returns (s: Status<()>)
    modifies cp`log, cp`assignments, cp`vms
    ensures var r := BackupRun(old(cp.State()), cp.env, subscription, identityId, vmGroup, vmNames, diskGroups, snapshotGroup);
            s == r.status && cp.State() == r.cloud && cp.log == old(cp.log) + r.log
  {
    ghost var log0 := cp.log;
    ghost var setup := Setup(cp.State(), cp.env, subscription, identityId, vmGroup, vmNames);
    var principalIds := StartSession(cp, subscription, identityId, vmGroup, vmNames);
    if !principalIds.Done? {
      return Reraise(principalIds);
    }
    ghost var r := RunPlan(cp.State(), cp.env, BackupPlan(principalIds.value, diskGroups, snapshotGroup));
    s := GrantBackupRoles(cp, principalIds.value, diskGroups, snapshotGroup);
    AppendAssoc(log0, setup.log, r.log);
  }
}
