# Workload snapshot pre-requisite scripts, modelled in Dafny

The scripts prepare Azure role-based access control for workload snapshot
backup and restore. They give every listed virtual machine a managed
identity and then grant roles to those identities and to the backup
service's fixed principal. Every grant is a check-then-act: list the
matching assignments, and create the assignment only when none came back.
The scripts drive the Azure CLI through `os.system`, and any non-zero exit
ends the run with `sys.exit()`.

The model treats the CLI as an abstract control plane, the class
`CloudControl.ControlPlane`. It holds:

- the set of role assignments, each a (principal, role, target) triple;
- a record per virtual machine (resource id, system-assigned principal,
  tenant, whether the system-assigned identity is enabled, and the attached
  user-assigned identities);
- the log of every `az` command issued, in order.

A constant environment says which commands exit non-zero and what
`az identity show` prints for each user-assigned identity. Every script
step is a `method` against that class. Each method is proved equal to a
pure function of the state that returns a `Run`: how the step ended, the
state it left and the commands it issued. The properties are stated and
proved about those functions. A step ends in one of three ways:

- `Done` is a normal return.
- `Exited` is `sys.exit()`.
- `Crashed` is an uncaught Python exception: an IndexError on empty output
  or on a missing TSV field, or a NameError.

Modules, following the repository's files:

- `Tsv` models Python's `str.split`, indexing a field, `lower()` and `in`.
- `CloudControl` holds the control plane and what each command prints.
- `RoleAssignment` is the check-then-act behind all five grant sites.
- `SnapshotHelpers` covers SnapshotPreReqCLIScripts/helpers.py, including
  `assignIdentityToVMs`.
- `WorkloadHelpers` covers AzureWorkloadSnapshotPreReqCLIScripts/helpers.py.
- `AssignRoleOnScopeScript` covers the stand-alone AssignRoleOnScope.py.
- `Session` is the opening both workload scripts share.
- `PermissionPlan` describes role grants as data and runs them.
- `PrincipalLoop` is the nested principal and disk-group loops.
- `BackupPermissions` and `RestorePermissions` are the two workload scripts.

Behaviour the model takes from the code where a plain description of the
scripts would suggest otherwise:

- The user-assigned branch of `assignIdentityToVMs` returns ONE principal,
  however many machines there are. It is appended once, before the attach
  loop (SnapshotPreReqCLIScripts/helpers.py:101).
- `sys.exit()` is called without an argument, so the process exits with
  status 0 even on failure. The model records the early end as `Exited` and
  does not claim a non-zero exit code.
- AzureWorkloadSnapshotPreReqCLIScripts/helpers.py defines no
  `assignIdentityToVMs`, yet both workload scripts call it after
  `from helpers import *`. As shipped, that call raises NameError (see
  "## Findings": `Session.SetupAsShipped`). The rest of the model gives the
  scripts the definition from SnapshotPreReqCLIScripts/helpers.py
  (`SnapshotHelpers.AssignIdentityToVMs`).
- The restore script grants Virtual Machine Contributor on every machine to
  the principal that the principal loop's variable was last bound to: the
  last principal, whichever machine it belongs to. The model keeps this, in
  `RestorePermissions.RestoreGrantsRequests` and `RestoreGrantsComplete`.
  With no principals the variable is unbound and the machine loop raises
  NameError (`RestorePermissions.VmLoop`). `RestoreNeverUnbound` shows that
  a normal opening never reaches that path.
- The system-assigned branch shows the identity, and, when needed, assigns
  it and shows it once more. The 10-second pause is not modelled. When the
  second output is empty the script raises IndexError, and the model ends
  in `Crashed`.

## Model

| member | source | states |
|---|---|---|
| Tsv.Split | SnapshotPreReqCLIScripts/helpers.py:98 | `s.split(sep)` has one field more than `s` has separators |
| Tsv.SplitFields | SnapshotPreReqCLIScripts/helpers.py:98 | no field of a split holds the separator |
| Tsv.SplitJoinBack | SnapshotPreReqCLIScripts/helpers.py:98 | joining the fields of a split with the separator gives the line back |
| Tsv.SplitJoin | SnapshotPreReqCLIScripts/helpers.py:141 | splitting a join of separator-free fields gives the fields back |
| Tsv.Field | SnapshotPreReqCLIScripts/helpers.py:98 | `line.split('\t')[i]` exists (no IndexError) exactly when the line has at least `i` tabs |
| Tsv.FieldOfJoin | SnapshotPreReqCLIScripts/helpers.py:141 | field `i` of a tab-joined row of tab-free columns is column `i` |
| Tsv.FieldWithoutTab | SnapshotPreReqCLIScripts/helpers.py:98 | an extracted field never holds a tab |
| Tsv.Lower | SnapshotPreReqCLIScripts/helpers.py:123 | `lower()` keeps the length |
| Tsv.LowerLeavesNoUpper | SnapshotPreReqCLIScripts/helpers.py:123 | no upper-case ASCII letter is left after `lower()` |
| Tsv.LowerIdempotent | SnapshotPreReqCLIScripts/helpers.py:123 | lower-casing twice is lower-casing once |
| Tsv.Contains | SnapshotPreReqCLIScripts/helpers.py:123 | Python's `in`: never true when `sub` is longer than `s`, always true when `s` starts with `sub` |
| Tsv.ContainsOccurs | SnapshotPreReqCLIScripts/helpers.py:123 | `sub in s` holds exactly when `sub` occurs at some position of `s` |
| Tsv.MentionsSystemAssigned | SnapshotPreReqCLIScripts/helpers.py:123 | `"systemassigned" in line.lower()` holds exactly when "systemassigned" occurs somewhere in the lower-cased line, and lower-casing the line first changes nothing |
| CloudControl.IdentityLinesReport | SnapshotPreReqCLIScripts/helpers.py:121-141 | for GUID ids, the first line of `az vm identity show` mentions "systemassigned" in any case exactly when the system identity is enabled, and field 0 is then its principal |
| CloudControl.WithIdentity | SnapshotPreReqCLIScripts/helpers.py:106-126 | a successful identity assign changes only that machine's identities: assignments, machine set and ids stay the same |
| CloudControl.ControlPlane.Login | AzureWorkloadSnapshotPreReqCLIScripts/SetWorkloadSnapshotBackupPermissions.py:57 | `az login` only appends itself to the log; no result is returned, as its exit code is overwritten unread |
| CloudControl.ControlPlane.SetAccount | AzureWorkloadSnapshotPreReqCLIScripts/SetWorkloadSnapshotBackupPermissions.py:58-60 | `az account set` succeeds exactly when it is not a failing command, and only appends itself to the log |
| CloudControl.ControlPlane.ListRoleAssignments | SnapshotPreReqCLIScripts/helpers.py:32-42 | `az role assignment list` reports its exit status and prints one line exactly when it succeeds and the triple is assigned; only appends itself to the log |
| CloudControl.ControlPlane.CreateRoleAssignment | SnapshotPreReqCLIScripts/helpers.py:48-50 | `az role assignment create` adds the triple exactly when it succeeds, otherwise changes nothing; appends itself to the log |
| CloudControl.ControlPlane.ShowIdentity | SnapshotPreReqCLIScripts/helpers.py:90-97 | `az identity show` succeeds exactly when it is not failing and the identity exists, and then prints that identity's lines; only appends itself to the log |
| CloudControl.ControlPlane.ShowVmIdentity | SnapshotPreReqCLIScripts/helpers.py:119-121 | `az vm identity show` prints the machine's identity row when it succeeds and nothing otherwise; only appends itself to the log |
| CloudControl.ControlPlane.AssignVmIdentity | SnapshotPreReqCLIScripts/helpers.py:106-126 | `az vm identity assign` succeeds exactly when it is not failing, the machine exists and the user identity it names, if any, exists; on success the state is `WithIdentity`, otherwise unchanged; appends itself to the log |
| CloudControl.ControlPlane.ShowVmId | AzureWorkloadSnapshotPreReqCLIScripts/SetWorkloadSnapshotRestorePermissions.py:83-84 | `az vm show --query id` prints the machine's resource id when it succeeds and nothing otherwise; only appends itself to the log |
| RoleAssignment.CheckThenAct | SnapshotPreReqCLIScripts/helpers.py:29-55 | a failed listing exits with no create; a listed line means no create and no change; an empty listing means exactly one create of the listed triple; it exits exactly when the listing or the create fails; at most one mutation; on a normal ending the triple is present and nothing else changed; the state changes only when the create succeeded (adding exactly that triple), so an exit leaves it as it was |
| RoleAssignment.CheckThenActTwice | SnapshotPreReqCLIScripts/helpers.py:42-55 | idempotence: after a normal call, a second call under any later failure set only lists and changes nothing; at most one create over both calls; it ends normally exactly when its listing succeeds, and exits otherwise |
| RoleAssignment.EnsureRole | AzureWorkloadSnapshotPreReqCLIScripts/helpers.py:31-50 | the list/skip/create/exit sequence against the control plane has exactly `CheckThenAct`'s ending, new state and commands |
| SnapshotHelpers.AssignRoleOnResourceGroup | SnapshotPreReqCLIScripts/helpers.py:29-55 | the check-then-act for (principal, role, resource group), as `CheckThenAct` states it |
| SnapshotHelpers.AssignRoleOnScope | SnapshotPreReqCLIScripts/helpers.py:57-83 | the check-then-act for (principal, role, scope), as `CheckThenAct` states it |
| WorkloadHelpers.AssignRoleOnResourceGroup | AzureWorkloadSnapshotPreReqCLIScripts/helpers.py:28-52 | the check-then-act for (principal, role, resource group), as `CheckThenAct` states it |
| WorkloadHelpers.AssignRoleOnScope | AzureWorkloadSnapshotPreReqCLIScripts/helpers.py:54-78 | the check-then-act for (principal, role, scope), as `CheckThenAct` states it |
| AssignRoleOnScopeScript.AssignRoleOnScopeInGroup | AzureWorkloadSnapshotPreReqCLIScripts/AssignRoleOnScope.py:30-51 | the script's list/skip/create/exit sequence on (group, principal, role, scope) is `CheckThenAct` on that 4-tuple |
| AssignRoleOnScopeScript.RerunIsNoOp | AzureWorkloadSnapshotPreReqCLIScripts/AssignRoleOnScope.py:39-51 | re-running after a normal run, under any later failure set, only lists and changes nothing; at most one create over both runs; the re-run ends normally exactly when its listing succeeds |
| SnapshotHelpers.UserPrincipal | SnapshotPreReqCLIScripts/helpers.py:97-98 | the user-assigned principal is field 5 of the first output line, and is absent (IndexError) exactly when there is no line or fewer than six fields |
| SnapshotHelpers.AttachUserIdentity | SnapshotPreReqCLIScripts/helpers.py:103-111 | the attach loop never crashes, keeps machines and assignments, and issues one command per machine, all of them when it completes |
| SnapshotHelpers.AttachUserIdentityLog | SnapshotPreReqCLIScripts/helpers.py:103-106 | command `k` of the attach loop is the identity assign on machine `k`, in input order |
| SnapshotHelpers.AttachUserIdentityStops | SnapshotPreReqCLIScripts/helpers.py:106-111 | when the loop exits, its last assign is the first one that cannot succeed |
| SnapshotHelpers.AttachUserIdentityDone | SnapshotPreReqCLIScripts/helpers.py:103-111 | the loop completes exactly when every assign can succeed, and then every named machine carries the identity |
| SnapshotHelpers.AttachKeepsIdentities | SnapshotPreReqCLIScripts/helpers.py:106 | attaching never removes an identity a machine already had |
| SnapshotHelpers.UserAssignedBranch | SnapshotPreReqCLIScripts/helpers.py:89-113 | the identity is shown first; a failed show exits; a missing field 5 crashes; on a normal ending the result is exactly the one principal read, and that happens exactly when the principal was read and the attach loop completed |
| SnapshotHelpers.ShownPrincipal | SnapshotPreReqCLIScripts/helpers.py:140-141 | field 0 of the first shown line, absent (IndexError) exactly when nothing was shown |
| SnapshotHelpers.NeedsSystemIdentity | SnapshotPreReqCLIScripts/helpers.py:123 | a machine needs an assign exactly when its shown output is empty or no position of its lower-cased first line holds "systemassigned" |
| SnapshotHelpers.SystemAssignedStep | SnapshotPreReqCLIScripts/helpers.py:119-141 | one machine changes at most that machine's system identity, and only when the assign succeeded, so an exit after a failed assign leaves the machine as it was; issues at most one assign and requests no role |
| SnapshotHelpers.SystemAssignedStepOutcome | SnapshotPreReqCLIScripts/helpers.py:119-141 | the assign is issued exactly when the first output is empty or lacks "systemassigned"; it exits exactly when that assign fails; the value is field 0 of what was last shown; it crashes exactly when that output is empty |
| SnapshotHelpers.SystemAssignedBranch | SnapshotPreReqCLIScripts/helpers.py:117-144 | a completed system-assigned loop appends exactly one principal per machine |
| SnapshotHelpers.SystemAssignedBranchEffects | SnapshotPreReqCLIScripts/helpers.py:117-144 | the system-assigned loop keeps machines and assignments, requests no role and issues at most one assign per machine |
| SnapshotHelpers.SystemAssignedStepPrincipal | SnapshotPreReqCLIScripts/helpers.py:119-141 | for a readable machine, one step returns that machine's own system principal and leaves its identity enabled |
| SnapshotHelpers.SystemAssignedBranchPrincipals | SnapshotPreReqCLIScripts/helpers.py:117-145 | when every machine is readable, the result is each machine's own principal, in input order |
| SnapshotHelpers.SystemAssignedBranchEnables | SnapshotPreReqCLIScripts/helpers.py:123-136 | when every machine is readable, the loop leaves every named machine's system identity enabled |
| SnapshotHelpers.EnabledStaysEnabled | SnapshotPreReqCLIScripts/helpers.py:123-136 | an enabled system identity stays enabled through the rest of the loop |
| SnapshotHelpers.Provision | SnapshotPreReqCLIScripts/helpers.py:85-145 | `assignIdentityToVMs` requests no role and keeps machine ids; a normal ending yields one principal for a user-assigned identity and one per machine otherwise |
| SnapshotHelpers.AttachToAll | SnapshotPreReqCLIScripts/helpers.py:103-111 | the attach loop against the control plane has exactly `AttachUserIdentity`'s ending, state and commands |
| SnapshotHelpers.UserAssignedIdentity | SnapshotPreReqCLIScripts/helpers.py:89-113 | the user-assigned branch against the control plane is `UserAssignedBranch` |
| SnapshotHelpers.EnableSystemIdentity | SnapshotPreReqCLIScripts/helpers.py:119-141 | one machine of the system-assigned loop against the control plane is `SystemAssignedStep` |
| SnapshotHelpers.SystemAssignedIdentity | SnapshotPreReqCLIScripts/helpers.py:117-144 | the system-assigned loop against the control plane, appending to `principalIds`, is `SystemAssignedBranch` |
| SnapshotHelpers.AssignIdentityToVMs | SnapshotPreReqCLIScripts/helpers.py:85-145 | `assignIdentityToVMs` against the control plane is `Provision` |
| Session.Setup | AzureWorkloadSnapshotPreReqCLIScripts/SetWorkloadSnapshotBackupPermissions.py:57-65 | the opening issues `az login` and then `az account set`; only the latter's failure is checked, and it exits before any identity command; no role request; one principal for a user-assigned identity, one per machine otherwise |
| Session.SetupAsShipped | AzureWorkloadSnapshotPreReqCLIScripts/SetWorkloadSnapshotBackupPermissions.py:57-95 | the opening as shipped never ends normally: it crashes (NameError) exactly when `az account set` succeeds, after only the two opening commands, changing nothing |
| Session.ShippedOpeningCrashes | AzureWorkloadSnapshotPreReqCLIScripts/SetWorkloadSnapshotRestorePermissions.py:57-66 | after a successful `az account set` with something to provision, the shipped opening crashes where `Setup` issues the first identity command |
| Session.StartSession | AzureWorkloadSnapshotPreReqCLIScripts/SetWorkloadSnapshotRestorePermissions.py:57-66 | the opening against the control plane is `Setup` |
| PermissionPlan.RunStep | AzureWorkloadSnapshotPreReqCLIScripts/SetWorkloadSnapshotRestorePermissions.py:83-86 | one grant (a fixed triple, or the scope read from `az vm show --query id`) keeps machines, mutates at most once, requests at most its own triple, and on a normal ending requested it and left it present; an exit or a crash leaves the state as it was |
| PermissionPlan.RunPlan | AzureWorkloadSnapshotPreReqCLIScripts/SetWorkloadSnapshotBackupPermissions.py:97-108 | issuing grants in order, stopping at the first abnormal ending: nothing revoked, at most one mutation per grant, every triple present on completion |
| PermissionPlan.RunPlanRequestCount | AzureWorkloadSnapshotPreReqCLIScripts/SetWorkloadSnapshotBackupPermissions.py:97-108 | at most one role request per grant, exactly one per grant when the run completes |
| PermissionPlan.RunPlanRequests | AzureWorkloadSnapshotPreReqCLIScripts/SetWorkloadSnapshotBackupPermissions.py:97-108 | the role requests are the plan's triples in plan order: a prefix in general, all of them on completion |
| PermissionPlan.RunPlanAddsOnlyPlanned | AzureWorkloadSnapshotPreReqCLIScripts/SetWorkloadSnapshotBackupPermissions.py:97-108 | a run adds no triple that the plan does not ask for |
| PermissionPlan.RunPlanAppend | AzureWorkloadSnapshotPreReqCLIScripts/SetWorkloadSnapshotBackupPermissions.py:97-108 | running two plans one after the other is running their concatenation |
| PermissionPlan.RunPlanSettled | AzureWorkloadSnapshotPreReqCLIScripts/helpers.py:40-43 | a plan whose triples are all present changes nothing and issues no mutating command whatever fails, and completes exactly when every step's listing and machine lookup succeed |
| PermissionPlan.RunPlanRerun | AzureWorkloadSnapshotPreReqCLIScripts/helpers.py:40-52 | re-running a completed plan under any later failure set changes nothing and creates nothing; it completes exactly when the re-run's listings and lookups succeed, so always under the same failure set |
| PermissionPlan.GroupGrants | AzureWorkloadSnapshotPreReqCLIScripts/SetWorkloadSnapshotBackupPermissions.py:101-102 | grant `j` is the role on disk group `j`, one per group |
| PermissionPlan.PrincipalGrants | AzureWorkloadSnapshotPreReqCLIScripts/SetWorkloadSnapshotBackupPermissions.py:97-105 | one principal's grants: one per disk group plus the snapshot-group grant |
| PermissionPlan.AllPrincipalGrants | AzureWorkloadSnapshotPreReqCLIScripts/SetWorkloadSnapshotBackupPermissions.py:97-105 | the principal loop issues \|principals\| × (\|disk groups\| + 1) grants |
| PermissionPlan.AllPrincipalGrantsAt | AzureWorkloadSnapshotPreReqCLIScripts/SetWorkloadSnapshotBackupPermissions.py:97-105 | grant i × (\|disk groups\| + 1) + j is principal `i`'s disk role on group `j`, or its snapshot grant for j = \|disk groups\| |
| PermissionPlan.VmGrants | AzureWorkloadSnapshotPreReqCLIScripts/SetWorkloadSnapshotRestorePermissions.py:81-86 | grant `k` is the role for the same principal on machine `k`, one per machine |
| PermissionPlan.LastPrincipal | AzureWorkloadSnapshotPreReqCLIScripts/SetWorkloadSnapshotRestorePermissions.py:68-86 | the loop variable after the loop: bound exactly when there was a principal, and then to one of them |
| PrincipalLoop.GrantOnGroups | AzureWorkloadSnapshotPreReqCLIScripts/SetWorkloadSnapshotBackupPermissions.py:101-102 | the disk-group loop against the control plane is `RunPlan` of `GroupGrants` |
| PrincipalLoop.GrantPrincipal | AzureWorkloadSnapshotPreReqCLIScripts/SetWorkloadSnapshotBackupPermissions.py:98-105 | one principal's body is `RunPlan` of `PrincipalGrants` |
| PrincipalLoop.GrantPrincipals | AzureWorkloadSnapshotPreReqCLIScripts/SetWorkloadSnapshotRestorePermissions.py:68-77 | the principal loop is `RunPlan` of `AllPrincipalGrants`, and on completion its loop variable is `LastPrincipal` |
| BackupPermissions.BackupPlan | AzureWorkloadSnapshotPreReqCLIScripts/SetWorkloadSnapshotBackupPermissions.py:97-108 | \|principals\| × (\|disk groups\| + 1) + 1 grants, the last for the backup service principal f40e18f0-6544-45c2-9d24-639a8bb3b41a |
| BackupPermissions.BackupPlanAt | AzureWorkloadSnapshotPreReqCLIScripts/SetWorkloadSnapshotBackupPermissions.py:97-105 | grant i × (\|disk groups\| + 1) + j is Disk Backup Reader for principal `i` on disk group `j`, or Disk Snapshot Contributor on the snapshot group for j = \|disk groups\| |
| BackupPermissions.BackupRun | AzureWorkloadSnapshotPreReqCLIScripts/SetWorkloadSnapshotBackupPermissions.py:57-110 | a failed `az account set` ends the script after the two opening commands; machines stay; no assignment is removed |
| BackupPermissions.BackupPlanRequests | AzureWorkloadSnapshotPreReqCLIScripts/SetWorkloadSnapshotBackupPermissions.py:97-108 | the requests are the plan's grants in order; on completion there are \|principals\| × (\|disk groups\| + 1) + 1 of them |
| BackupPermissions.BackupRequests | AzureWorkloadSnapshotPreReqCLIScripts/SetWorkloadSnapshotBackupPermissions.py:57-108 | the script's role requests are the grant loops', and none when the opening ends the run |
| BackupPermissions.BackupPlanCompletes | AzureWorkloadSnapshotPreReqCLIScripts/SetWorkloadSnapshotBackupPermissions.py:97-110 | on completion every principal has Disk Backup Reader on every disk group and Disk Snapshot Contributor on the snapshot group, and so does the backup service |
| BackupPermissions.GrantBackupRoles | AzureWorkloadSnapshotPreReqCLIScripts/SetWorkloadSnapshotBackupPermissions.py:97-108 | the grant loops and the service grant against the control plane are `RunPlan` of `BackupPlan` |
| BackupPermissions.SetBackupPermissions | AzureWorkloadSnapshotPreReqCLIScripts/SetWorkloadSnapshotBackupPermissions.py:57-110 | the whole script against the control plane is `BackupRun`; `Done` is the completion message |
| RestorePermissions.VmLoop | AzureWorkloadSnapshotPreReqCLIScripts/SetWorkloadSnapshotRestorePermissions.py:81-86 | the machine loop keeps machines and revokes nothing; with the loop variable unbound and a machine to visit, it raises NameError and changes nothing |
| RestorePermissions.RestoreGrants | AzureWorkloadSnapshotPreReqCLIScripts/SetWorkloadSnapshotRestorePermissions.py:68-86 | the two grant loops keep machines and revoke nothing |
| RestorePermissions.RestoreRun | AzureWorkloadSnapshotPreReqCLIScripts/SetWorkloadSnapshotRestorePermissions.py:57-88 | a failed `az account set` ends the script after the two opening commands; machines stay; nothing is revoked |
| RestorePermissions.RestoreNeverUnbound | AzureWorkloadSnapshotPreReqCLIScripts/SetWorkloadSnapshotRestorePermissions.py:66-86 | after a normal opening with a machine named, the principal loop's variable is bound |
| RestorePermissions.VmLoopRequests | AzureWorkloadSnapshotPreReqCLIScripts/SetWorkloadSnapshotRestorePermissions.py:81-86 | request `k` of the machine loop is Virtual Machine Contributor for the one principal, on machine `k`'s resource id; all \|machines\| of them on completion |
| RestorePermissions.VmLoopCompletes | AzureWorkloadSnapshotPreReqCLIScripts/SetWorkloadSnapshotRestorePermissions.py:81-86 | a completed machine loop leaves Virtual Machine Contributor on every machine's resource id |
| RestorePermissions.RestoreGrantsRequests | AzureWorkloadSnapshotPreReqCLIScripts/SetWorkloadSnapshotRestorePermissions.py:68-86 | a completed run issues \|principals\| × (\|disk groups\| + 1) + \|machines\| requests, and every machine request names the LAST principal |
| RestorePermissions.RestoreRequests | AzureWorkloadSnapshotPreReqCLIScripts/SetWorkloadSnapshotRestorePermissions.py:57-86 | the script's role requests are the grant loops', none when the opening ends it, and a normal opening never leaves the loop variable unbound |
| RestorePermissions.RestoreGrantsComplete | AzureWorkloadSnapshotPreReqCLIScripts/SetWorkloadSnapshotRestorePermissions.py:68-86 | on completion every principal has Disk Restore operator on every disk group and Disk Snapshot Contributor on the snapshot group, and the last principal has Virtual Machine Contributor on every machine |
| RestorePermissions.MachineStep | AzureWorkloadSnapshotPreReqCLIScripts/SetWorkloadSnapshotRestorePermissions.py:83-86 | one machine: a crash when the id output is empty or the variable is unbound, otherwise the check-then-act on the printed id |
| RestorePermissions.GrantOnMachine | AzureWorkloadSnapshotPreReqCLIScripts/SetWorkloadSnapshotRestorePermissions.py:83-86 | one machine against the control plane is `MachineStep` |
| RestorePermissions.GrantVmRoles | AzureWorkloadSnapshotPreReqCLIScripts/SetWorkloadSnapshotRestorePermissions.py:81-86 | the machine loop against the control plane is `VmLoop` |
| RestorePermissions.GrantRestoreRoles | AzureWorkloadSnapshotPreReqCLIScripts/SetWorkloadSnapshotRestorePermissions.py:68-86 | both grant loops against the control plane, the second reusing the first's loop variable, are `RestoreGrants` |
| RestorePermissions.SetRestorePermissions | AzureWorkloadSnapshotPreReqCLIScripts/SetWorkloadSnapshotRestorePermissions.py:57-88 | the whole script against the control plane is `RestoreRun`; `Done` is the completion message |

## Findings

| source | as written | input that shows it | evidently intended | confidence | as-written member | corrected member |
|---|---|---|---|---|---|---|
| AzureWorkloadSnapshotPreReqCLIScripts/SetWorkloadSnapshotBackupPermissions.py:95 | calls `assignIdentityToVMs`, which the imported AzureWorkloadSnapshotPreReqCLIScripts/helpers.py does not define (the same call is at SetWorkloadSnapshotRestorePermissions.py:66) | any run whose `az account set` succeeds: NameError right after it, before any identity or role command | `assignIdentityToVMs` as defined in SnapshotPreReqCLIScripts/helpers.py:85-145, giving the principals the grant loops use | high (not executed) | Session.SetupAsShipped, Session.ShippedOpeningCrashes | Session.Setup |

## Left out

- RoleAssignment.CheckThenActTwice, AssignRoleOnScopeScript.RerunIsNoOp and
  PermissionPlan.RunPlanRerun hold for any failure set in the second run.
  Within one run, though, the failing commands are fixed: a command that
  fails once fails every time it is repeated in that run, for example the
  re-show after a failed first `az vm identity show`. Transient failures
  inside one run are not modelled.
- SnapshotHelpers.SystemAssignedStep, SystemAssignedStepPrincipal and
  SystemAssignedBranchPrincipals read the re-show from the state the assign
  just produced, so the re-show always sees the assign. The control plane
  is immediately consistent, which is what `time.sleep(10)` only hopes for.
  A stale re-show (still empty, or still the user-only row, whose empty
  field 0 would make the script collect "") cannot happen in the model. The
  column order `principalId<TAB>tenantId<TAB>type` of
  `az vm identity show -o tsv` is assumed (`CloudControl.IdentityLines`).

- The Azure CLI itself. Each `az` command is an abstract operation on the
  modelled assignment set and machine map. It fails when it is in a fixed set
  of failing commands, and a failing command changes nothing and prints
  nothing.
- Temporary files (`roleGet.txt`, `identityShow.txt`, `vmId.txt`, …),
  `fileinput` and the `line[:-1]` strip. Command output is modelled directly
  as a sequence of lines without newlines.
- `time.sleep(10)` before the second identity show. Only the re-query is
  modelled.
- `bcolors`, `os.system("color")` and every `print`. The completion message
  is the `Done` ending.
- `argparse` and the `input()` prompts: their values are parameters. The
  model also allows empty machine and disk-group lists, which `nargs='+'`
  rejects.
- What `az login` does. Its command is logged, and its exit code is
  overwritten unread, as in the scripts.
- Shell quoting of the role name. The inline AssignRoleOnScope.py passes it
  unquoted, which the shell would split at spaces.
- The `--subscription` argument of the machine commands. Machines are
  addressed by resource group and name.
- Python's full Unicode `lower()`. Only ASCII letters are folded.
- The exit code of `az vm identity show` and of `az vm show`, which the
  scripts ignore. A failed show is modelled as printing nothing.
- The commented-out block at
  AzureWorkloadSnapshotPreReqCLIScripts/SetWorkloadSnapshotBackupPermissions.py:69-93,
  which is dead code.
- The thin drivers AzureWorkloadSnapshotPreReqCLIScripts/AssignIdentity.py,
  SnapshotPreReqCLIScripts/AssignRoleOnScope.py and
  AzureWorkloadSnapshotPreReqCLIScripts/AssignRolesOnResourceGroup.py. They
  only forward their arguments to the modelled helpers.
- Concurrent runs. The scripts are single-threaded, and another writer
  changing assignments between the list and the create is not modelled.
