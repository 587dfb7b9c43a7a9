/** AzureWorkloadSnapshotPreReqCLIScripts/AssignRoleOnScope.py: a stand-alone
    copy of the check-then-act, keyed by resource group and scope together.
    The four inputs the script prompts for are parameters. */
module AssignRoleOnScopeScript {
  import opened Results
  import opened CloudControl
  import opened RoleAssignment

  /** The script's run: list the assignments of `roleName` to `principalId`
      on `scope` within `resourceGroup`; create the assignment when none is
      listed; a non-zero exit from either command ends the script. */
  method AssignRoleOnScopeInGroup(cp: ControlPlane, principalId: string, resourceGroup: string, scope: string, roleName: string)
    returns (s: Status<Granted>)
    modifies cp`log, cp`assignments
    ensures var r := CheckThenAct(old(cp.State()), cp.env, RoleKey(principalId, roleName, GroupScope(resourceGroup, scope)));
            s == r.status && cp.State() == r.cloud && cp.log == old(cp.log) + r.log
  {
    var key := RoleKey(principalId, roleName, GroupScope(resourceGroup, scope));
    var ok, lines := cp.ListRoleAssignments(key);
    if !ok {
      return Exited;
    }
    if |lines| > 0 {
      return Done(AlreadyAssigned);
    }
    ok := cp.CreateRoleAssignment(key);
    if !ok {
      return Exited;
    }
    return Done(Assigned);
  }

  /** Re-running the script after it ended normally, under any later
      conditions `env2`, lists the 4-tuple and issues no create: the state
      stays as the first run left it, at most one create over both runs, and
      the re-run ends normally exactly when its listing succeeds. */
  lemma RerunIsNoOp(c: Cloud, env: Env, env2: Env, principalId: string, resourceGroup: string, scope: string, roleName: string)
    requires CheckThenAct(c, env, RoleKey(principalId, roleName, GroupScope(resourceGroup, scope))).status.Done?
    ensures var key := RoleKey(principalId, roleName, GroupScope(resourceGroup, scope));
            var first := CheckThenAct(c, env, key);
            var second := CheckThenAct(first.cloud, env2, key);
            && second.cloud == first.cloud && second.log == [RoleList(key)]
            && second.status == (if ListOk(env2, key) then Done(AlreadyAssigned) else Exited)
            && Mutations(first.log + second.log) <= 1
  {
    CheckThenActTwice(c, env, env2, RoleKey(principalId, roleName, GroupScope(resourceGroup, scope)));
  }
}
