/** The role grants the backup and restore scripts request, as data: a plan
    is the sequence of check-then-acts a script issues, and `RunPlan` is what
    issuing them in order does — stopping at the first one that ends the
    run. */
module PermissionPlan {
  import opened Results
  import opened CloudControl
  import opened RoleAssignment

  const DiskSnapshotContributor: string := "Disk Snapshot Contributor"

  /** One grant: a check-then-act for a fixed triple, or the restore script's
      per-machine grant, whose scope is the first line `az vm show --query id`
      prints for that machine. */
  datatype Step =
    | Grant(key: RoleKey)
    | GrantOnVm(principal: string, role: string, vm: VmKey)

  /** The triple a step asks for, given the machines that exist. */
  function StepKey(vms: map<VmKey, Vm>, step: Step): Option<RoleKey>
  {
    match step
    case Grant(key) => Some(key)
    case GrantOnVm(p, role, vm) =>
      if vm in vms then Some(RoleKey(p, role, Scope(vms[vm].resourceId))) else None
  }

  /** The commands of a step that never fail: the machine-id lookup succeeds
      and the listing succeeds. */
  predicate Listable(c: Cloud, env: Env, step: Step)
  {
    && StepKey(c.vms, step).Some?
    && ListOk(env, StepKey(c.vms, step).value)
    && (step.GrantOnVm? ==> VmShowIdOk(c, env, step.vm))
  }

  /** What one step does. */
  function RunStep(c: Cloud, env: Env, step: Step): (r: Run<()>)
    ensures r.cloud.vms == c.vms
    ensures r.status != Crashed ==> StepKey(c.vms, step).Some?
    ensures Mutations(r.log) <= 1
    ensures r.status.Done? ==> Listable(c, env, step) && StepKey(c.vms, step).value in r.cloud.assignments
    ensures r.cloud.assignments == c.assignments
         || (StepKey(c.vms, step).Some? && r.cloud.assignments == c.assignments + {StepKey(c.vms, step).value})
    ensures RoleRequests(r.log) == [] || (StepKey(c.vms, step).Some? && RoleRequests(r.log) == [StepKey(c.vms, step).value])
    ensures r.status.Done? ==> RoleRequests(r.log) == [StepKey(c.vms, step).value]
    // an exit or a crash leaves the state as it was
    ensures !r.status.Done? ==> r.cloud == c
  {
    match step
    case Grant(key) =>
      var g := CheckThenAct(c, env, key);
      Run(Ending(g.status), g.cloud, g.log)
    case GrantOnVm(p, role, vm) =>
      var ids := VmShowIdLines(c, env, vm);
      if ids == [] then Run(Crashed, c, [VmShowId(vm)])
      else
        var g := CheckThenAct(c, env, RoleKey(p, role, Scope(ids[0])));
        MutationsAppend([VmShowId(vm)], g.log);
        RoleRequestsAppend([VmShowId(vm)], g.log);
        Then([VmShowId(vm)], Run(Ending(g.status), g.cloud, g.log))
  }

  /** Issuing a plan's steps in order, stopping at the first that does not
      end normally. Nothing is revoked, each step mutates at most once, and a
      run that completes has left every triple of the plan present. */
  function RunPlan(c: Cloud, env: Env, plan: seq<Step>): (r: Run<()>)
    ensures r.cloud.vms == c.vms
    ensures c.assignments <= r.cloud.assignments
    ensures Mutations(r.log) <= |plan|
    ensures r.status.Done? ==> forall i :: 0 <= i < |plan| ==>
              Listable(c, env, plan[i]) && StepKey(c.vms, plan[i]).value in r.cloud.assignments
    decreases |plan|
  {
    if plan == [] then Run(Done(()), c, [])
    else
      var first := RunStep(c, env, plan[0]);
      if !first.status.Done? then first
      else
        var rest := RunPlan(first.cloud, env, plan[1..]);
        MutationsAppend(first.log, rest.log);
        assert forall i :: 1 <= i < |plan| ==> plan[i] == plan[1..][i - 1];
        Then(first.log, rest)
  }

  /** A plan run issues at most one request per step, and exactly one per
      step when it completes. */
  lemma {:induction false} RunPlanRequestCount(c: Cloud, env: Env, plan: seq<Step>)
    ensures var r := RunPlan(c, env, plan);
            && |RoleRequests(r.log)| <= |plan|
            && (r.status.Done? ==> |RoleRequests(r.log)| == |plan|)
    decreases |plan|
  {
    if plan != [] {
      var first := RunStep(c, env, plan[0]);
      if first.status.Done? {
        var rest := RunPlan(first.cloud, env, plan[1..]);
        RunPlanRequestCount(first.cloud, env, plan[1..]);
        RoleRequestsAppend(first.log, rest.log);
      }
    }
  }

  /** The requests a plan run issues are the plan's triples, in plan order:
      a prefix of them in general, all of them when the run completes. */
  lemma {:induction false} RunPlanRequests(c: Cloud, env: Env, plan: seq<Step>)
    ensures var r := RunPlan(c, env, plan);
            && |RoleRequests(r.log)| <= |plan|
            && (forall i :: 0 <= i < |RoleRequests(r.log)| ==> StepKey(c.vms, plan[i]) == Some(RoleRequests(r.log)[i]))
            && (r.status.Done? ==> |RoleRequests(r.log)| == |plan|)
    decreases |plan|
  {
    RunPlanRequestCount(c, env, plan);
    if plan != [] {
      var first := RunStep(c, env, plan[0]);
      if first.status.Done? {
        var rest := RunPlan(first.cloud, env, plan[1..]);
        RunPlanRequests(first.cloud, env, plan[1..]);
        RoleRequestsAppend(first.log, rest.log);
        var req := RoleRequests(first.log) + RoleRequests(rest.log);
        forall i | 0 <= i < |req|
          ensures StepKey(c.vms, plan[i]) == Some(req[i])
        {
          if i > 0 {
            assert req[i] == RoleRequests(rest.log)[i - 1];
            assert plan[1..][i - 1] == plan[i];
          }
        }
      }
    }
  }

  /** A plan run adds no triple that the plan does not ask for. */
  lemma {:induction false} RunPlanAddsOnlyPlanned(c: Cloud, env: Env, plan: seq<Step>, key: RoleKey)
    requires key in RunPlan(c, env, plan).cloud.assignments && key !in c.assignments
    ensures exists i :: 0 <= i < |plan| && StepKey(c.vms, plan[i]) == Some(key)
    decreases |plan|
  {
    var first := RunStep(c, env, plan[0]);
    if first.status.Done? && key in first.cloud.assignments {
      assert StepKey(c.vms, plan[0]) == Some(key);
    } else if first.status.Done? {
      RunPlanAddsOnlyPlanned(first.cloud, env, plan[1..], key);
      var i :| 0 <= i < |plan[1..]| && StepKey(c.vms, plan[1..][i]) == Some(key);
      assert plan[1..][i] == plan[i + 1];
    } else {
      // a step that did not finish left the assignments as they were
      assert false;
    }
  }

  lemma {:induction false} RunPlanCons(c: Cloud, env: Env, step: Step, rest: seq<Step>)
    ensures RunPlan(c, env, [step] + rest) ==
            var first := RunStep(c, env, step);
            if first.status.Done? then Then(first.log, RunPlan(first.cloud, env, rest)) else first
  {
    assert ([step] + rest)[0] == step && ([step] + rest)[1..] == rest;
  }

  /** Issuing two plans one after the other is issuing their concatenation:
      the second starts from where the first left the state, and only when
      the first ended normally. */
  lemma {:induction false} RunPlanAppend(c: Cloud, env: Env, a: seq<Step>, b: seq<Step>)
    ensures RunPlan(c, env, a + b) ==
            var ra := RunPlan(c, env, a);
            if ra.status.Done? then Then(ra.log, RunPlan(ra.cloud, env, b)) else ra
    decreases |a|
  {
    if a == [] {
      assert a + b == b;
      assert [] + RunPlan(c, env, b).log == RunPlan(c, env, b).log;
    } else {
      RunPlanCons(c, env, a[0], a[1..]);
      assert a + b == [a[0]] + (a[1..] + b);
      RunPlanCons(c, env, a[0], a[1..] + b);
      var first := RunStep(c, env, a[0]);
      if first.status.Done? {
        RunPlanAppend(first.cloud, env, a[1..], b);
        var ra' := RunPlan(first.cloud, env, a[1..]);
        if ra'.status.Done? {
          ThenThen(first.log, ra'.log, RunPlan(ra'.cloud, env, b));
        }
      }
    }
  }

  /** A sub-plan `a` at the head of what is left of a plan, for the loops
      that issue it: the whole run `total` is the commands `done` so far
      followed by the rest of the plan. */
  lemma PlanAdvance(total: Run<()>, done: seq<Command>, c: Cloud, env: Env, a: seq<Step>, b: seq<Step>)
    requires total == Then(done, RunPlan(c, env, a + b))
    ensures var ra := RunPlan(c, env, a);
            if ra.status.Done? then total == Then(done + ra.log, RunPlan(ra.cloud, env, b))
            else total == Run(ra.status, ra.cloud, done + ra.log)
  {
    RunPlanAppend(c, env, a, b);
    var ra := RunPlan(c, env, a);
    if ra.status.Done? {
      ThenThen(done, ra.log, RunPlan(ra.cloud, env, b));
    }
  }

  /** A plan of one fixed grant is that grant's check-then-act. */
  lemma RunPlanGrant(c: Cloud, env: Env, key: RoleKey)
    ensures var g := CheckThenAct(c, env, key);
            RunPlan(c, env, [Grant(key)]) == Run(Ending(g.status), g.cloud, g.log)
  {
    RunPlanCons(c, env, Grant(key), []);
    var g := CheckThenAct(c, env, key);
    assert g.log + [] == g.log;
  }

  /** One fixed grant at the head of what is left of a plan, for the loops
      that issue it: the whole run `total` is the commands `done` so far
      followed by the rest of the plan. */
  lemma GrantAdvance(total: Run<()>, done: seq<Command>, c: Cloud, env: Env, key: RoleKey, rest: seq<Step>)
    requires total == Then(done, RunPlan(c, env, [Grant(key)] + rest))
    ensures var g := CheckThenAct(c, env, key);
            if g.status.Done? then total == Then(done + g.log, RunPlan(g.cloud, env, rest))
            else total == Run(Ending(g.status), g.cloud, done + g.log)
  {
    RunPlanCons(c, env, Grant(key), rest);
    var g := CheckThenAct(c, env, key);
    if g.status.Done? {
      ThenThen(done, g.log, RunPlan(g.cloud, env, rest));
    }
  }

  /** Any step at the head of what is left of a plan. */
  lemma StepAdvance(total: Run<()>, done: seq<Command>, c: Cloud, env: Env, step: Step, rest: seq<Step>)
    requires total == Then(done, RunPlan(c, env, [step] + rest))
    ensures var r := RunStep(c, env, step);
            if r.status.Done? then total == Then(done + r.log, RunPlan(r.cloud, env, rest))
            else total == Run(r.status, r.cloud, done + r.log)
  {
    RunPlanCons(c, env, step, rest);
    var r := RunStep(c, env, step);
    if r.status.Done? {
      ThenThen(done, r.log, RunPlan(r.cloud, env, rest));
    }
  }

  /** A step whose triple is present already changes nothing and mutates
      nothing; it ends normally exactly when its commands succeed. */
  lemma StepSettled(c: Cloud, env: Env, step: Step)
    requires StepKey(c.vms, step).Some? && StepKey(c.vms, step).value in c.assignments
    ensures var r := RunStep(c, env, step);
            && r.cloud == c
            && Mutations(r.log) == 0
            && (r.status.Done? <==> Listable(c, env, step))
  {
    var r := RunStep(c, env, step);
    match step
    case Grant(key) =>
    case GrantOnVm(p, role, vm) =>
      if VmShowIdOk(c, env, vm) {
        assert VmShowIdLines(c, env, vm) == [c.vms[vm].resourceId];
        var key := RoleKey(p, role, Scope(c.vms[vm].resourceId));
        assert r.log == [VmShowId(vm), RoleList(key)];
      }
  }

  /** A plan whose triples are all present already changes nothing and issues
      no mutating command, whatever fails; it completes exactly when every
      step's commands succeed. */
  lemma {:induction false} RunPlanSettled(c: Cloud, env: Env, plan: seq<Step>)
    requires forall i :: 0 <= i < |plan| ==> StepKey(c.vms, plan[i]).Some? && StepKey(c.vms, plan[i]).value in c.assignments
    ensures RunPlan(c, env, plan).cloud == c
    ensures Mutations(RunPlan(c, env, plan).log) == 0
    ensures RunPlan(c, env, plan).status.Done? <==> forall i :: 0 <= i < |plan| ==> Listable(c, env, plan[i])
    decreases |plan|
  {
    if plan != [] {
      var first := RunStep(c, env, plan[0]);
      StepSettled(c, env, plan[0]);
      if first.status.Done? {
        assert forall i :: 0 <= i < |plan[1..]| ==> plan[1..][i] == plan[i + 1];
        RunPlanSettled(c, env, plan[1..]);
        MutationsAppend(first.log, RunPlan(c, env, plan[1..]).log);
      }
    }
  }

  /** Re-running a plan that completed, under any later conditions `env2`, is
      a no-op: it leaves the state as it was and issues no create; it
      completes exactly when the re-run's listings and machine lookups
      succeed, and so always under the same conditions. */
  lemma RunPlanRerun(c: Cloud, env: Env, env2: Env, plan: seq<Step>)
    requires RunPlan(c, env, plan).status.Done?
    ensures var done := RunPlan(c, env, plan).cloud;
            var again := RunPlan(done, env2, plan);
            && again.cloud == done
            && Mutations(again.log) == 0
            && (again.status.Done? <==> forall i :: 0 <= i < |plan| ==> Listable(done, env2, plan[i]))
            && (env2 == env ==> again.status.Done?)
  {
    var done := RunPlan(c, env, plan).cloud;
    forall i | 0 <= i < |plan|
      ensures StepKey(done.vms, plan[i]).Some? && StepKey(done.vms, plan[i]).value in done.assignments
      ensures Listable(done, env, plan[i])
    {
      assert Listable(c, env, plan[i]);
    }
    RunPlanSettled(done, env2, plan);
  }

  /** `role` on every group of `groups`, in order. */
  function GroupGrants(principal: string, role: string, groups: seq<string>): (r: seq<Step>)
    ensures |r| == |groups|
    ensures forall j :: 0 <= j < |groups| ==> r[j] == Grant(RoleKey(principal, role, Group(groups[j])))
  {
    if groups == [] then []
    else [Grant(RoleKey(principal, role, Group(groups[0])))] + GroupGrants(principal, role, groups[1..])
  }

  /** The grants both scripts make for one principal: `diskRole` on each disk
      resource group, in order, then Disk Snapshot Contributor on the
      snapshot resource group. */
  function PrincipalGrants(principal: string, diskRole: string, diskGroups: seq<string>, snapshotGroup: string): (r: seq<Step>)
    ensures |r| == |diskGroups| + 1
  {
    GroupGrants(principal, diskRole, diskGroups) + [Grant(RoleKey(principal, DiskSnapshotContributor, Group(snapshotGroup)))]
  }

  /** The grants of the principal loop, principal by principal, in order. */
  function AllPrincipalGrants(principals: seq<string>, diskRole: string, diskGroups: seq<string>, snapshotGroup: string): (r: seq<Step>)
    ensures |r| == |principals| * (|diskGroups| + 1)
  {
    if principals == [] then []
    else PrincipalGrants(principals[0], diskRole, diskGroups, snapshotGroup)
         + AllPrincipalGrants(principals[1..], diskRole, diskGroups, snapshotGroup)
  }

  /** The principal loop asks only for fixed triples. */
  lemma {:induction false} AllPrincipalGrantsFixed(principals: seq<string>, diskRole: string, diskGroups: seq<string>, snapshotGroup: string)
    ensures forall k :: 0 <= k < |AllPrincipalGrants(principals, diskRole, diskGroups, snapshotGroup)| ==>
              AllPrincipalGrants(principals, diskRole, diskGroups, snapshotGroup)[k].Grant?
  {
    if principals != [] {
      AllPrincipalGrantsFixed(principals[1..], diskRole, diskGroups, snapshotGroup);
    }
  }

  /** Position `i * (|diskGroups| + 1) + j` of the principal loop's plan asks
      for principal `i`'s `j`-th disk grant, or, for `j == |diskGroups|`, its
      snapshot grant. */
  lemma {:induction false} AllPrincipalGrantsAt(principals: seq<string>, diskRole: string, diskGroups: seq<string>, snapshotGroup: string, i: nat, j: nat)
    returns (k: nat)
    requires i < |principals| && j <= |diskGroups|
    ensures k == i * (|diskGroups| + 1) + j
    ensures k < |AllPrincipalGrants(principals, diskRole, diskGroups, snapshotGroup)|
    ensures AllPrincipalGrants(principals, diskRole, diskGroups, snapshotGroup)[k] ==
            if j < |diskGroups| then Grant(RoleKey(principals[i], diskRole, Group(diskGroups[j])))
            else Grant(RoleKey(principals[i], DiskSnapshotContributor, Group(snapshotGroup)))
  {
    var n := |diskGroups| + 1;
    var head := PrincipalGrants(principals[0], diskRole, diskGroups, snapshotGroup);
    var tail := AllPrincipalGrants(principals[1..], diskRole, diskGroups, snapshotGroup);
    assert |tail| == (|principals| - 1) * n;
    k := i * n + j;
    if i > 0 {
      var k' := AllPrincipalGrantsAt(principals[1..], diskRole, diskGroups, snapshotGroup, i - 1, j);
      assert i * n == n + (i - 1) * n;
      assert k == n + k';
      assert principals[1..][i - 1] == principals[i];
    }
  }

  /** `role` on each named machine of `group`, in order, every grant for the
      same `principal`. */
  function VmGrants(principal: string, role: string, group: string, names: seq<string>): (r: seq<Step>)
    ensures |r| == |names|
    ensures forall k :: 0 <= k < |names| ==> r[k] == GrantOnVm(principal, role, VmKey(group, names[k]))
  {
    if names == [] then []
    else [GrantOnVm(principal, role, VmKey(group, names[0]))] + VmGrants(principal, role, group, names[1..])
  }

  /** The loop-body shape: the grants left for a principal when its `j`-th
      disk group is next. */
  lemma GroupGrantsFrom(principal: string, role: string, groups: seq<string>, j: nat)
    requires j < |groups|
    ensures GroupGrants(principal, role, groups[j..]) ==
            [Grant(RoleKey(principal, role, Group(groups[j])))] + GroupGrants(principal, role, groups[j + 1..])
  {
    assert groups[j..][1..] == groups[j + 1..];
  }

  /** The loop-body shape: the grants left when principal `i` is next are
      its own, then those of the principals after it. */
  lemma PrincipalGrantsFrom(principals: seq<string>, diskRole: string, diskGroups: seq<string>, snapshotGroup: string, i: nat)
    requires i < |principals|
    ensures AllPrincipalGrants(principals[i..], diskRole, diskGroups, snapshotGroup) ==
            PrincipalGrants(principals[i], diskRole, diskGroups, snapshotGroup)
            + AllPrincipalGrants(principals[i + 1..], diskRole, diskGroups, snapshotGroup)
  {
    assert principals[i..][0] == principals[i] && principals[i..][1..] == principals[i + 1..];
  }

  /** Principal `i` at the head of what is left of the principal loop. */
  lemma PrincipalAdvance(total: Run<()>, done: seq<Command>, c: Cloud, env: Env, principals: seq<string>, diskRole: string,
                         diskGroups: seq<string>, snapshotGroup: string, i: nat)
    requires i < |principals|
    requires total == Then(done, RunPlan(c, env, AllPrincipalGrants(principals[i..], diskRole, diskGroups, snapshotGroup)))
    ensures var p := RunPlan(c, env, PrincipalGrants(principals[i], diskRole, diskGroups, snapshotGroup));
            if p.status.Done? then total == Then(done + p.log, RunPlan(p.cloud, env, AllPrincipalGrants(principals[i + 1..], diskRole, diskGroups, snapshotGroup)))
            else total == Run(p.status, p.cloud, done + p.log)
  {
    PrincipalGrantsFrom(principals, diskRole, diskGroups, snapshotGroup, i);
    PlanAdvance(total, done, c, env, PrincipalGrants(principals[i], diskRole, diskGroups, snapshotGroup),
                AllPrincipalGrants(principals[i + 1..], diskRole, diskGroups, snapshotGroup));
  }

  /** The loop-body shape of the machine loop: the grants left when machine
      `k` is next. */
  lemma VmGrantsFrom(principal: string, role: string, group: string, names: seq<string>, k: nat)
    requires k < |names|
    ensures VmGrants(principal, role, group, names[k..]) ==
            [GrantOnVm(principal, role, VmKey(group, names[k]))] + VmGrants(principal, role, group, names[k + 1..])
  {
    assert names[k..][1..] == names[k + 1..];
  }

  /** What a Python `for` loop variable over `principals` is bound to after
      the loop ran to its end: the last principal, or nothing at all. */
  function LastPrincipal(principals: seq<string>): (r: Option<string>)
    ensures r.Some? <==> principals != []
    ensures r.Some? ==> r.value in principals
  {
    if principals == [] then None else Some(principals[|principals| - 1])
  }
}
