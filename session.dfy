/** The opening both workload scripts share
    (SetWorkloadSnapshotBackupPermissions.py and
    SetWorkloadSnapshotRestorePermissions.py): `az login`, whose exit code is
    overwritten unread, `az account set`, whose failure ends the script, then
    `assignIdentityToVMs` for the principals to grant roles to. */
module Session {
  import opened Results
  import opened CloudControl
  import opened SnapshotHelpers

  /** The opening as a function of the state. It issues no role request; an
      `az account set` failure ends the script before any identity command;
      on a normal ending it yields one principal for a user-assigned identity
      and one per machine otherwise. */
  function Setup(c: Cloud, env: Env, subscription: string, identityId: Option<string>, vmGroup: string, vmNames: seq<string>)
    : (r: Run<seq<string>>)
    ensures |r.log| >= 2 && r.log[..2] == [Command.Login, AccountSet(subscription)]
    ensures !AccountSetOk(env, subscription) ==> r == Run(Exited, c, [Command.Login, AccountSet(subscription)])
    ensures r.status.Done? ==> AccountSetOk(env, subscription)
    ensures r.status.Done? ==> |r.status.value| == if identityId.Some? then 1 else |vmNames|
    ensures RoleRequests(r.log) == []
    ensures SameMachines(c, r.cloud)
  {
    var opening := [Command.Login, AccountSet(subscription)];
    assert RoleRequests(opening) == [] by {
      assert opening[1..][1..] == [];
    }
    if !AccountSetOk(env, subscription) then Run(Exited, c, opening)
    else
      var p := Provision(c, env, identityId, vmGroup, vmNames);
      RoleRequestsAppend(opening, p.log);
      Then(opening, p)
  }

  /** The opening as the workload scripts are shipped. They load
      AzureWorkloadSnapshotPreReqCLIScripts/helpers.py with
      `from helpers import *`, and that file defines no `assignIdentityToVMs`:
      after a successful `az account set` the call raises NameError before any
      identity or role command, so the script never ends normally. */
  function SetupAsShipped(c: Cloud, env: Env, subscription: string): (r: Run<seq<string>>)
    ensures !r.status.Done?
    ensures r.status.Crashed? <==> AccountSetOk(env, subscription)
    ensures r.cloud == c && RoleRequests(r.log) == []
    ensures r.log == [Command.Login, AccountSet(subscription)]
  {
    var opening := [Command.Login, AccountSet(subscription)];
    assert RoleRequests(opening) == [] by {
      assert opening[1..][1..] == [];
    }
    if !AccountSetOk(env, subscription) then Run(Exited, c, opening)
    else Run(Crashed, c, opening)
  }

  /** Where the shipped opening and the intended one part: after a successful
      `az account set`, with an identity or a machine to provision, the
      shipped scripts crash while `Setup` goes on to the first command of
      `assignIdentityToVMs` (`az identity show` for a user-assigned identity,
      `az vm identity show` on the first machine otherwise). */
  lemma ShippedOpeningCrashes(c: Cloud, env: Env, subscription: string, identityId: Option<string>, vmGroup: string,
                              vmNames: seq<string>)
    requires AccountSetOk(env, subscription)
    requires identityId.Some? || vmNames != []
    ensures SetupAsShipped(c, env, subscription).status == Crashed
    ensures var r := Setup(c, env, subscription, identityId, vmGroup, vmNames);
            && |r.log| > 2
            && r.log[2] == if identityId.Some? then IdentityShow(identityId.value) else VmIdentityShow(VmKey(vmGroup, vmNames[0]))
  {
    var p := Provision(c, env, identityId, vmGroup, vmNames);
    if identityId.None? {
      var vm := VmKey(vmGroup, vmNames[0]);
      SystemAssignedStepOutcome(c, env, vm);
      var step := SystemAssignedStep(c, env, vm);
      assert step.log[0] == VmIdentityShow(vm);
      assert p.log[0] == VmIdentityShow(vm);
    }
    assert (Setup(c, env, subscription, identityId, vmGroup, vmNames).log)[2] == p.log[0];
  }

  /** The opening against the control plane. */
  method StartSession(cp: ControlPlane, subscription: string, identityId: Option<string>, vmGroup: string, vmNames: seq<string>)
    returns (s: Status<seq<string>>)
    modifies cp`log, cp`vms
    ensures var r := Setup(old(cp.State()), cp.env, subscription, identityId, vmGroup, vmNames);
            s == r.status && cp.State() == r.cloud && cp.log == old(cp.log) + r.log
  {
    ghost var log0 := cp.log;
    cp.Login();
    var ok := cp.SetAccount(subscription);
    assert cp.log == log0 + [Command.Login, AccountSet(subscription)];
    if !ok {
      return Exited;
    }
    ghost var p := Provision(cp.State(), cp.env, identityId, vmGroup, vmNames);
    s := AssignIdentityToVMs(cp, identityId, vmGroup, vmNames);
    AppendAssoc(log0, [Command.Login, AccountSet(subscription)], p.log);
  }
}
