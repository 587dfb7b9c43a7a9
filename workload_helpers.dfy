/** AzureWorkloadSnapshotPreReqCLIScripts/helpers.py: the check-then-act role
    grants the workload backup and restore scripts call. The file defines no
    `assignIdentityToVMs`; the scripts' calls to it are modelled by
    `SnapshotHelpers.AssignIdentityToVMs`. */
module WorkloadHelpers {
  import opened Results
  import opened CloudControl
  import opened RoleAssignment

  /** `assignRoleOnResourceGroup`: the check-then-act for `roleName` on a
      resource group. */
  method AssignRoleOnResourceGroup(cp: ControlPlane, principalId: string, resourceGroup: string, roleName: string)
    returns (s: Status<Granted>)
    modifies cp`log, cp`assignments
    ensures var r := CheckThenAct(old(cp.State()), cp.env, RoleKey(principalId, roleName, Group(resourceGroup)));
            s == r.status && cp.State() == r.cloud && cp.log == old(cp.log) + r.log
  {
    s := EnsureRole(cp, RoleKey(principalId, roleName, Group(resourceGroup)));
  }

  /** `assignRoleOnScope`: the check-then-act for `roleName` on a fully
      qualified scope. */
  method AssignRoleOnScope(cp: ControlPlane, principalId: string, roleName: string, scope: string)
    returns (s: Status<Granted>)
    modifies cp`log, cp`assignments
    ensures var r := CheckThenAct(old(cp.State()), cp.env, RoleKey(principalId, roleName, Scope(scope)));
            s == r.status && cp.State() == r.cloud && cp.log == old(cp.log) + r.log
  {
    s := EnsureRole(cp, RoleKey(principalId, roleName, Scope(scope)));
  }
}
