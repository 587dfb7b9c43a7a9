/** SnapshotPreReqCLIScripts/helpers.py: the two check-then-act role grants
    and `assignIdentityToVMs`, which gives every listed virtual machine a
    managed identity and returns the principal ids to grant roles to. */
module SnapshotHelpers {
  import opened Results
  import opened Tsv
  import opened CloudControl
  import opened RoleAssignment

  /** `assignRoleOnResourceGroup`: the check-then-act for `roleName` on a
      resource group. */
  method AssignRoleOnResourceGroup(cp: ControlPlane, principalId: string, resourceGroup: string, roleName: string)
    returns (s: Status<Granted>)
    modifies cp`log, cp`assignments
    ensures var r := CheckThenAct(old(cp.State()), cp.env, RoleKey(principalId, roleName, Group(resourceGroup)));
            s == r.status && cp.State() == r.cloud && cp.log == old(cp.log) + r.log
  {
    s := EnsureRole(cp, RoleKey(principalId, roleName, Group(resourceGroup)));
  }

  /** `assignRoleOnScope`: the check-then-act for `roleName` on a fully
      qualified scope. */
  method AssignRoleOnScope(cp: ControlPlane, principalId: string, roleName: string, scope: string)
    returns (s: Status<Granted>)
    modifies cp`log, cp`assignments
    ensures var r := CheckThenAct(old(cp.State()), cp.env, RoleKey(principalId, roleName, Scope(scope)));
            s == r.status && cp.State() == r.cloud && cp.log == old(cp.log) + r.log
  {
    s := EnsureRole(cp, RoleKey(principalId, roleName, Scope(scope)));
  }

  // ---- User-assigned identity ----

  /** The user-assigned principal: field 5 of the first line `az identity
      show -o tsv` prints, or None where Python raises IndexError (no line,
      or fewer than six fields). */
  function UserPrincipal(lines: seq<string>): (r: Option<string>)
    ensures r.Some? <==> lines != [] && 5 <= Count(lines[0], Tab)
    ensures r.Some? ==> Field(lines[0], 5) == r
  {
    if lines == [] then None else Field(lines[0], 5)
  }

  /** The loop attaching identity `id` to each machine in turn: one
      `az vm identity assign` per name, in order, the first failure ending the
      run. Role assignments and machine ids never change. */
  function AttachUserIdentity(c: Cloud, env: Env, id: string, group: string, names: seq<string>): (r: Run<()>)
    ensures r.status != Crashed
    ensures SameMachines(c, r.cloud)
    ensures |r.log| <= |names|
    ensures r.status.Done? ==> |r.log| == |names|
    decreases |names|
  {
    if names == [] then Run(Done(()), c, [])
    else
      var vm := VmKey(group, names[0]);
      var assign := [VmIdentityAssign(vm, Some(id))];
      if !VmIdentityAssignOk(c, env, vm, Some(id)) then Run(Exited, c, assign)
      else
        var c' := WithIdentity(c, vm, Some(id));
        var rest := AttachUserIdentity(c', env, id, group, names[1..]);
        assert forall k :: 1 <= k < |names| ==> names[k] == names[1..][k - 1];
        Then(assign, rest)
  }

  /** One turn of the attach loop, for the loop that runs it: the whole run
      `total` is the commands `done` so far followed by the rest of the loop
      from name `i` on. */
  lemma AttachAdvance(total: Run<()>, done: seq<Command>, c: Cloud, env: Env, id: string, group: string, names: seq<string>, i: nat)
    requires i < |names|
    requires total == Then(done, AttachUserIdentity(c, env, id, group, names[i..]))
    ensures var vm := VmKey(group, names[i]);
            var done' := done + [VmIdentityAssign(vm, Some(id))];
            if VmIdentityAssignOk(c, env, vm, Some(id))
            then total == Then(done', AttachUserIdentity(WithIdentity(c, vm, Some(id)), env, id, group, names[i + 1..]))
            else total == Run(Exited, c, done')
  {
    var vm := VmKey(group, names[i]);
    assert names[i..][0] == names[i] && names[i..][1..] == names[i + 1..];
    if VmIdentityAssignOk(c, env, vm, Some(id)) {
      ThenThen(done, [VmIdentityAssign(vm, Some(id))], AttachUserIdentity(WithIdentity(c, vm, Some(id)), env, id, group, names[i + 1..]));
    }
  }

  /** The attach loop issues one assign per machine, in input order. */
  lemma {:induction false} AttachUserIdentityLog(c: Cloud, env: Env, id: string, group: string, names: seq<string>)
    ensures var r := AttachUserIdentity(c, env, id, group, names);
            forall k :: 0 <= k < |r.log| ==> r.log[k] == VmIdentityAssign(VmKey(group, names[k]), Some(id))
    decreases |names|
  {
    if names != [] {
      var vm := VmKey(group, names[0]);
      if VmIdentityAssignOk(c, env, vm, Some(id)) {
        var c' := WithIdentity(c, vm, Some(id));
        var rest := AttachUserIdentity(c', env, id, group, names[1..]);
        AttachUserIdentityLog(c', env, id, group, names[1..]);
        var log := AttachUserIdentity(c, env, id, group, names).log;
        assert log == [VmIdentityAssign(vm, Some(id))] + rest.log;
        forall k | 1 <= k < |log|
          ensures log[k] == VmIdentityAssign(VmKey(group, names[k]), Some(id))
        {
          assert log[k] == rest.log[k - 1];
          assert names[1..][k - 1] == names[k];
        }
      }
    }
  }

  /** Whether an assign can succeed does not depend on the identities
      attached before it. */
  lemma AssignOkAfterAttach(c: Cloud, env: Env, vm: VmKey, id: string, other: VmKey)
    requires vm in c.vms
    ensures VmIdentityAssignOk(WithIdentity(c, vm, Some(id)), env, other, Some(id)) == VmIdentityAssignOk(c, env, other, Some(id))
  {
  }

  /** The attach loop stops at the first assign that fails: every assign
      before it could succeed. */
  lemma {:induction false} AttachUserIdentityStops(c: Cloud, env: Env, id: string, group: string, names: seq<string>)
    ensures var r := AttachUserIdentity(c, env, id, group, names);
            r.status.Exited? ==>
              && |r.log| > 0
              && !VmIdentityAssignOk(c, env, VmKey(group, names[|r.log| - 1]), Some(id))
              && forall k :: 0 <= k < |r.log| - 1 ==> VmIdentityAssignOk(c, env, VmKey(group, names[k]), Some(id))
    decreases |names|
  {
    if names != [] {
      var vm := VmKey(group, names[0]);
      if VmIdentityAssignOk(c, env, vm, Some(id)) {
        var c' := WithIdentity(c, vm, Some(id));
        var rest := AttachUserIdentity(c', env, id, group, names[1..]);
        AttachUserIdentityStops(c', env, id, group, names[1..]);
        if rest.status.Exited? {
          var n := |rest.log|;
          assert names[1..][n - 1] == names[n];
          forall k | 1 <= k < n
            ensures VmIdentityAssignOk(c, env, VmKey(group, names[k]), Some(id))
          {
            assert names[1..][k - 1] == names[k];
            AssignOkAfterAttach(c, env, vm, id, VmKey(group, names[k]));
          }
        }
      }
    }
  }

  /** The attach loop ends normally exactly when every one of its assigns can
      succeed, and then every named machine carries the identity. */
  lemma {:induction false} AttachUserIdentityDone(c: Cloud, env: Env, id: string, group: string, names: seq<string>)
    ensures var r := AttachUserIdentity(c, env, id, group, names);
            && (r.status.Done? <==> forall k :: 0 <= k < |names| ==> VmIdentityAssignOk(c, env, VmKey(group, names[k]), Some(id)))
            && (r.status.Done? ==> forall k :: 0 <= k < |names| ==> id in r.cloud.vms[VmKey(group, names[k])].userIdentities)
    decreases |names|
  {
    if names != [] {
      var vm := VmKey(group, names[0]);
      if VmIdentityAssignOk(c, env, vm, Some(id)) {
        var c' := WithIdentity(c, vm, Some(id));
        AttachUserIdentityDone(c', env, id, group, names[1..]);
        AttachKeepsIdentities(c', env, id, group, names[1..]);
        assert forall k :: 1 <= k < |names| ==> names[k] == names[1..][k - 1];
        assert forall k :: 1 <= k < |names| ==>
          (VmIdentityAssignOk(c', env, VmKey(group, names[k]), Some(id)) <==> VmIdentityAssignOk(c, env, VmKey(group, names[k]), Some(id)));
      }
    }
  }

  /** Attaching never detaches: every machine keeps the identities it had. */
  lemma {:induction false} AttachKeepsIdentities(c: Cloud, env: Env, id: string, group: string, names: seq<string>)
    ensures var r := AttachUserIdentity(c, env, id, group, names);
            forall k :: k in c.vms ==> c.vms[k].userIdentities <= r.cloud.vms[k].userIdentities
    decreases |names|
  {
    if names != [] {
      var vm := VmKey(group, names[0]);
      if VmIdentityAssignOk(c, env, vm, Some(id)) {
        AttachKeepsIdentities(WithIdentity(c, vm, Some(id)), env, id, group, names[1..]);
      }
    }
  }

  /** The user-assigned branch: show the identity (a failure ends the run),
      read its principal, then attach it to every machine. The result holds
      that one principal, however many machines there are. */
  function UserAssignedBranch(c: Cloud, env: Env, id: string, group: string, names: seq<string>): (r: Run<seq<string>>)
    ensures r.log != [] && r.log[0] == IdentityShow(id)
    ensures !IdentityShowOk(env, id) ==> r == Run(Exited, c, [IdentityShow(id)])
    ensures UserPrincipal(IdentityShowLines(env, id)).None? && IdentityShowOk(env, id) ==> r == Run(Crashed, c, [IdentityShow(id)])
    ensures r.status.Done? ==> r.status.value == [UserPrincipal(IdentityShowLines(env, id)).value]
    ensures r.status.Done? <==> UserPrincipal(IdentityShowLines(env, id)).Some?
                                && AttachUserIdentity(c, env, id, group, names).status.Done?
    ensures SameMachines(c, r.cloud)
  {
    var shown := [IdentityShow(id)];
    if !IdentityShowOk(env, id) then Run(Exited, c, shown)
    else
      match UserPrincipal(IdentityShowLines(env, id))
      case None => Run(Crashed, c, shown)
      case Some(p) =>
        var a := AttachUserIdentity(c, env, id, group, names);
        Then(shown, Run(if a.status.Done? then Done([p]) else Reraise(a.status), a.cloud, a.log))
  }

  // ---- System-assigned identity ----

  /** The principal the script reads from `az vm identity show` output: field
      0 of the first line, None where Python raises IndexError (no line). */
  function ShownPrincipal(lines: seq<string>): (r: Option<string>)
    ensures r.Some? <==> lines != []
    ensures r.Some? ==> Field(lines[0], 0) == r
  {
    if lines == [] then None else Field(lines[0], 0)
  }

  /** Whether the script decides a machine still needs its system-assigned
      identity: the shown output is empty, or its first line does not mention
      "systemassigned" in any case. */
  function NeedsSystemIdentity(lines: seq<string>): (r: bool)
    ensures r <==> lines == [] || forall i :: !OccursAt(Lower(lines[0]), "systemassigned", i)
  {
    lines == [] || !MentionsSystemAssigned(lines[0])
  }

  /** One machine of the system-assigned branch: show its identity (the exit
      code is ignored); if needed, assign one (a failure ends the run) and show
      it again; then read field 0 of the first line of what was last shown.
      It changes nothing but that machine's identity and requests no role. */
  function SystemAssignedStep(c: Cloud, env: Env, vm: VmKey): (r: Run<string>)
    // only a successful assign changes the state, and then only this
    // machine's identity: a failed assign ends the run with the machine as it was
    ensures r.cloud == c || (vm in c.vms && r.cloud == WithIdentity(c, vm, None) && r.status != Exited)
    ensures Mutations(r.log) <= 1
    ensures RoleRequests(r.log) == []
  {
    var show := [VmIdentityShow(vm)];
    var first := VmIdentityShowLines(c, env, vm);
    assert RoleRequests(show) == [] by {
      assert show[1..] == [];
    }
    if !NeedsSystemIdentity(first) then
      Run(Done(ShownPrincipal(first).value), c, show)
    else if !VmIdentityAssignOk(c, env, vm, None) then
      var log := show + [VmIdentityAssign(vm, None)];
      assert RoleRequests(log) == [] by {
        assert log[1..][1..] == [];
      }
      Run(Exited, c, log)
    else
      var c' := WithIdentity(c, vm, None);
      var again := VmIdentityShowLines(c', env, vm);
      var log := show + [VmIdentityAssign(vm, None), VmIdentityShow(vm)];
      assert Mutations(log) == 1 && RoleRequests(log) == [] by {
        assert log[1..][1..][1..] == [];
      }
      match ShownPrincipal(again)
      case None => Run(Crashed, c', log)
      case Some(p) => Run(Done(p), c', log)
  }

  /** What one machine's step does, as the script decides it: the assign is
      issued exactly when the first output called for it, and then followed by
      a second show unless it failed; the run exits exactly when a needed
      assign fails; the value is field 0 of what was last shown, and Python
      raises IndexError exactly when that output is empty. */
  lemma SystemAssignedStepOutcome(c: Cloud, env: Env, vm: VmKey)
    ensures var r := SystemAssignedStep(c, env, vm);
            var first := VmIdentityShowLines(c, env, vm);
            && (VmIdentityAssign(vm, None) in r.log <==> NeedsSystemIdentity(first))
            && (!NeedsSystemIdentity(first) ==> r.log == [VmIdentityShow(vm)] && r.cloud == c)
            && (NeedsSystemIdentity(first) ==>
                  r.log == [VmIdentityShow(vm), VmIdentityAssign(vm, None)]
                  || r.log == [VmIdentityShow(vm), VmIdentityAssign(vm, None), VmIdentityShow(vm)])
            && (r.status == Exited <==> NeedsSystemIdentity(first) && !VmIdentityAssignOk(c, env, vm, None))
            && (r.status.Done? ==> Some(r.status.value) == ShownPrincipal(VmIdentityShowLines(r.cloud, env, vm)))
            && (r.status == Crashed <==> !r.status.Exited? && VmIdentityShowLines(r.cloud, env, vm) == [])
  {
  }

  /** The system-assigned loop over `names`, after `acc` was collected: one
      principal per machine, in order. */
  function SystemAssignedBranch(c: Cloud, env: Env, group: string, names: seq<string>, acc: seq<string>): (r: Run<seq<string>>)
    ensures r.status.Done? ==> |r.status.value| == |acc| + |names|
    decreases |names|
  {
    if names == [] then Run(Done(acc), c, [])
    else
      var step := SystemAssignedStep(c, env, VmKey(group, names[0]));
      if !step.status.Done? then Run(Reraise(step.status), step.cloud, step.log)
      else Then(step.log, SystemAssignedBranch(step.cloud, env, group, names[1..], acc + [step.status.value]))
  }

  /** The system-assigned loop keeps the set of machines, requests no role
      and issues at most one identity assign per machine. */
  lemma {:induction false} SystemAssignedBranchEffects(c: Cloud, env: Env, group: string, names: seq<string>, acc: seq<string>)
    ensures var r := SystemAssignedBranch(c, env, group, names, acc);
            && SameMachines(c, r.cloud)
            && RoleRequests(r.log) == []
            && Mutations(r.log) <= |names|
    decreases |names|
  {
    if names != [] {
      var step := SystemAssignedStep(c, env, VmKey(group, names[0]));
      if step.status.Done? {
        var rest := SystemAssignedBranch(step.cloud, env, group, names[1..], acc + [step.status.value]);
        SystemAssignedBranchEffects(step.cloud, env, group, names[1..], acc + [step.status.value]);
        RoleRequestsAppend(step.log, rest.log);
        MutationsAppend(step.log, rest.log);
      }
    }
  }

  /** One turn of the system-assigned loop, for the loop that runs it. */
  lemma SystemAssignedAdvance(total: Run<seq<string>>, done: seq<Command>, c: Cloud, env: Env, group: string, names: seq<string>, i: nat, acc: seq<string>)
    requires i < |names|
    requires total == Then(done, SystemAssignedBranch(c, env, group, names[i..], acc))
    ensures var step := SystemAssignedStep(c, env, VmKey(group, names[i]));
            if step.status.Done?
            then total == Then(done + step.log, SystemAssignedBranch(step.cloud, env, group, names[i + 1..], acc + [step.status.value]))
            else total == Run(Reraise(step.status), step.cloud, done + step.log)
  {
    var step := SystemAssignedStep(c, env, VmKey(group, names[i]));
    assert names[i..][0] == names[i] && names[i..][1..] == names[i + 1..];
    if step.status.Done? {
      ThenThen(done, step.log, SystemAssignedBranch(step.cloud, env, group, names[i + 1..], acc + [step.status.value]));
    }
  }

  lemma {:induction false} NoRoleRequests(log: seq<Command>)
    requires forall k :: 0 <= k < |log| ==> !log[k].RoleList?
    ensures RoleRequests(log) == []
  {
    if log != [] {
      NoRoleRequests(log[1..]);
    }
  }

  /** `assignIdentityToVMs` as a function of the state: the user-assigned
      branch when an identity id is given, the system-assigned one otherwise.
      It never touches role assignments, and on a normal ending it returns one
      principal for a user-assigned identity and one per machine otherwise. */
  function Provision(c: Cloud, env: Env, identityId: Option<string>, group: string, names: seq<string>): (r: Run<seq<string>>)
    ensures r.status.Done? ==> |r.status.value| == if identityId.Some? then 1 else |names|
    ensures SameMachines(c, r.cloud)
    ensures RoleRequests(r.log) == []
  {
    match identityId
    case Some(id) =>
      var r := UserAssignedBranch(c, env, id, group, names);
      assert RoleRequests(r.log) == [] by {
        var a := AttachUserIdentity(c, env, id, group, names);
        AttachUserIdentityLog(c, env, id, group, names);
        assert forall k :: 0 <= k < |r.log| ==> !r.log[k].RoleList? by {
          if r.log != [IdentityShow(id)] {
            assert r.log == [IdentityShow(id)] + a.log;
          }
        }
        NoRoleRequests(r.log);
      }
      r
    case None =>
      SystemAssignedBranchEffects(c, env, group, names, []);
      SystemAssignedBranch(c, env, group, names, [])
  }

  /** The loop of the user-assigned branch against the control plane. */
  method AttachToAll(cp: ControlPlane, id: string, group: string, names: seq<string>) returns (ok: bool)
    modifies cp`log, cp`vms
    ensures var r := AttachUserIdentity(old(cp.State()), cp.env, id, group, names);
            ok == r.status.Done? && cp.State() == r.cloud && cp.log == old(cp.log) + r.log
  {
    ghost var c0 := cp.State();
    ghost var log0 := cp.log;
    ghost var done: seq<Command> := [];
    var i := 0;
    while i < |names|
      invariant 0 <= i <= |names|
      invariant cp.log == log0 + done
      invariant AttachUserIdentity(c0, cp.env, id, group, names) ==
                Then(done, AttachUserIdentity(cp.State(), cp.env, id, group, names[i..]))
    {
      var vm := VmKey(group, names[i]);
      AttachAdvance(AttachUserIdentity(c0, cp.env, id, group, names), done, cp.State(), cp.env, id, group, names, i);
      var attached := cp.AssignVmIdentity(vm, Some(id));
      AppendAssoc(log0, done, [VmIdentityAssign(vm, Some(id))]);
      done := done + [VmIdentityAssign(vm, Some(id))];
      if !attached {
        return false;
      }
      i := i + 1;
    }
    assert names[i..] == [];
    assert done + [] == done;
    return true;
  }

  /** The user-assigned branch against the control plane. */
  method UserAssignedIdentity(cp: ControlPlane, id: string, group: string, names: seq<string>)
    returns (s: Status<seq<string>>)
    modifies cp`log, cp`vms
    ensures var r := UserAssignedBranch(old(cp.State()), cp.env, id, group, names);
            s == r.status && cp.State() == r.cloud && cp.log == old(cp.log) + r.log
  {
    ghost var log0 := cp.log;
    var ok, lines := cp.ShowIdentity(id);
    if !ok {
      return Exited;
    }
    if lines == [] {
      return Crashed;
    }
    var principal := Field(lines[0], 5);
    if principal.None? {
      return Crashed;
    }
    var principalIds := [principal.value];
    ghost var a := AttachUserIdentity(cp.State(), cp.env, id, group, names);
    ok := AttachToAll(cp, id, group, names);
    AppendAssoc(log0, [IdentityShow(id)], a.log);
    if !ok {
      return Exited;
    }
    return Done(principalIds);
  }

  /** One machine of the system-assigned branch against the control plane. */
  method EnableSystemIdentity(cp: ControlPlane, vm: VmKey) returns (s: Status<string>)
    modifies cp`log, cp`vms
    ensures var r := SystemAssignedStep(old(cp.State()), cp.env, vm);
            s == r.status && cp.State() == r.cloud && cp.log == old(cp.log) + r.log
  {
    ghost var log0 := cp.log;
    var shown, lines := cp.ShowVmIdentity(vm);
    if NeedsSystemIdentity(lines) {
      var attached := cp.AssignVmIdentity(vm, None);
      AppendAssoc(log0, [VmIdentityShow(vm)], [VmIdentityAssign(vm, None)]);
      if !attached {
        return Exited;
      }
      shown, lines := cp.ShowVmIdentity(vm);
      AppendAssoc(log0, [VmIdentityShow(vm), VmIdentityAssign(vm, None)], [VmIdentityShow(vm)]);
    }
    if lines == [] {
      return Crashed;
    }
    var principal := Field(lines[0], 0);
    return Done(principal.value);
  }

  /** The system-assigned branch against the control plane: the loop appends
      one principal per machine to `principalIds`. */
  method SystemAssignedIdentity(cp: ControlPlane, group: string, names: seq<string>)
    returns (s: Status<seq<string>>)
    modifies cp`log, cp`vms
    ensures var r := SystemAssignedBranch(old(cp.State()), cp.env, group, names, []);
            s == r.status && cp.State() == r.cloud && cp.log == old(cp.log) + r.log
  {
    ghost var total := SystemAssignedBranch(cp.State(), cp.env, group, names, []);
    ghost var log0 := cp.log;
    ghost var done: seq<Command> := [];
    var principalIds: seq<string> := [];
    assert names[0..] == names;
    var i := 0;
    while i < |names|
      invariant 0 <= i <= |names|
      invariant total == Then(done, SystemAssignedBranch(cp.State(), cp.env, group, names[i..], principalIds))
      invariant cp.log == log0 + done
    {
      var vm := VmKey(group, names[i]);
      ghost var c := cp.State();
      ghost var step := SystemAssignedStep(c, cp.env, vm);
      SystemAssignedAdvance(total, done, c, cp.env, group, names, i, principalIds);
      var principal := EnableSystemIdentity(cp, vm);
      assert principal == step.status && cp.State() == step.cloud;
      AppendAssoc(log0, done, step.log);
      done := done + step.log;
      if !principal.Done? {
        return Reraise(principal);
      }
      principalIds := principalIds + [principal.value];
      i := i + 1;
    }
    assert names[i..] == [];
    assert done + [] == done;
    return Done(principalIds);
  }

  /** `assignIdentityToVMs` against the control plane. */
  method AssignIdentityToVMs(cp: ControlPlane, identityId: Option<string>, group: string, names: seq<string>)
    returns (s: Status<seq<string>>)
    modifies cp`log, cp`vms
    ensures var r := Provision(old(cp.State()), cp.env, identityId, group, names);
            s == r.status && cp.State() == r.cloud && cp.log == old(cp.log) + r.log
  {
    if identityId.Some? {
      s := UserAssignedIdentity(cp, identityId.value, group, names);
    } else {
      s := SystemAssignedIdentity(cp, group, names);
    }
  }

  /** The machine facts under which the script reads a machine's own
      principal: it exists, its ids are GUIDs, and its identity can be shown
      and enabled. */
  predicate Readable(c: Cloud, env: Env, vm: VmKey)
  {
    && vm in c.vms
    && GuidLike(c.vms[vm].systemPrincipal)
    && GuidLike(c.vms[vm].tenantId)
    && VmIdentityShow(vm) !in env.failing
    && VmIdentityAssign(vm, None) !in env.failing
  }

  /** For a readable machine one step ends normally with the machine's own
      system-assigned principal and leaves that identity enabled. */
  lemma SystemAssignedStepPrincipal(c: Cloud, env: Env, vm: VmKey)
    requires Readable(c, env, vm)
    ensures var r := SystemAssignedStep(c, env, vm);
            r.status == Done(c.vms[vm].systemPrincipal) && r.cloud.vms[vm].systemEnabled
  {
    IdentityLinesReport(c.vms[vm]);
    if !c.vms[vm].systemEnabled {
      IdentityLinesReport(WithIdentity(c, vm, None).vms[vm]);
    }
  }

  /** The system-assigned principal ids of the named machines, in order. */
  function SystemPrincipals(c: Cloud, group: string, names: seq<string>): (r: seq<string>)
    requires forall k :: 0 <= k < |names| ==> VmKey(group, names[k]) in c.vms
    ensures |r| == |names|
    ensures forall k :: 0 <= k < |names| ==> r[k] == c.vms[VmKey(group, names[k])].systemPrincipal
  {
    if names == [] then []
    else
      assert forall k :: 0 <= k < |names[1..]| ==> names[1..][k] == names[k + 1];
      [c.vms[VmKey(group, names[0])].systemPrincipal] + SystemPrincipals(c, group, names[1..])
  }

  /** When every named machine is readable, the system-assigned branch ends
      normally with each machine's own principal id, in input order. */
  lemma {:induction false} SystemAssignedBranchPrincipals(c: Cloud, env: Env, group: string, names: seq<string>, acc: seq<string>)
    requires forall k :: 0 <= k < |names| ==> VmKey(group, names[k]) in c.vms && Readable(c, env, VmKey(group, names[k]))
    ensures SystemAssignedBranch(c, env, group, names, acc).status == Done(acc + SystemPrincipals(c, group, names))
    decreases |names|
  {
    if names != [] {
      var vm := VmKey(group, names[0]);
      SystemAssignedStepPrincipal(c, env, vm);
      var step := SystemAssignedStep(c, env, vm);
      var p := c.vms[vm].systemPrincipal;
      assert forall k :: 0 <= k < |names[1..]| ==> names[1..][k] == names[k + 1];
      assert forall k :: 0 <= k < |names[1..]| ==> VmKey(group, names[1..][k]) in step.cloud.vms && Readable(step.cloud, env, VmKey(group, names[1..][k]));
      SystemAssignedBranchPrincipals(step.cloud, env, group, names[1..], acc + [p]);
      SystemPrincipalsSame(c, step.cloud, group, names[1..]);
      AppendAssoc(acc, [p], SystemPrincipals(c, group, names[1..]));
    } else {
      assert acc + [] == acc;
    }
  }

  /** Machines with the same ids have the same principals. */
  lemma {:induction false} SystemPrincipalsSame(c: Cloud, c': Cloud, group: string, names: seq<string>)
    requires SameMachines(c, c')
    requires forall k :: 0 <= k < |names| ==> VmKey(group, names[k]) in c.vms
    ensures SystemPrincipals(c', group, names) == SystemPrincipals(c, group, names)
  {
  }

  /** When every named machine is readable, the system-assigned branch leaves
      each machine's system-assigned identity enabled. */
  lemma {:induction false} SystemAssignedBranchEnables(c: Cloud, env: Env, group: string, names: seq<string>, acc: seq<string>)
    requires forall k :: 0 <= k < |names| ==> VmKey(group, names[k]) in c.vms && Readable(c, env, VmKey(group, names[k]))
    ensures var r := SystemAssignedBranch(c, env, group, names, acc);
            forall k :: 0 <= k < |names| ==>
              VmKey(group, names[k]) in r.cloud.vms && r.cloud.vms[VmKey(group, names[k])].systemEnabled
    decreases |names|
  {
    if names != [] {
      var vm := VmKey(group, names[0]);
      SystemAssignedStepPrincipal(c, env, vm);
      var step := SystemAssignedStep(c, env, vm);
      var p := c.vms[vm].systemPrincipal;
      forall k | 0 <= k < |names[1..]|
        ensures Readable(step.cloud, env, VmKey(group, names[1..][k]))
      {
        assert names[1..][k] == names[k + 1];
        StepKeepsReadable(c, env, vm, VmKey(group, names[k + 1]));
      }
      SystemAssignedBranchEnables(step.cloud, env, group, names[1..], acc + [p]);
      EnabledStaysEnabled(step.cloud, env, group, names[1..], acc + [p], vm);
    }
  }

  /** One machine's step leaves every readable machine readable. */
  lemma StepKeepsReadable(c: Cloud, env: Env, vm: VmKey, other: VmKey)
    requires Readable(c, env, other)
    ensures Readable(SystemAssignedStep(c, env, vm).cloud, env, other)
  {
  }

  /** A machine whose system-assigned identity is enabled keeps it enabled
      through the rest of the loop. */
  lemma {:induction false} EnabledStaysEnabled(c: Cloud, env: Env, group: string, names: seq<string>, acc: seq<string>, vm: VmKey)
    requires vm in c.vms && c.vms[vm].systemEnabled
    ensures var r := SystemAssignedBranch(c, env, group, names, acc);
            vm in r.cloud.vms && r.cloud.vms[vm].systemEnabled
    decreases |names|
  {
    if names != [] {
      var step := SystemAssignedStep(c, env, VmKey(group, names[0]));
      if step.status.Done? {
        EnabledStaysEnabled(step.cloud, env, group, names[1..], acc + [step.status.value], vm);
      }
    }
  }
}
