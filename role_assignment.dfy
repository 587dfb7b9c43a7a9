/** The check-then-act behind every role grant the scripts make
    (`assignRoleOnResourceGroup`, `assignRoleOnScope` in both helpers files,
    and the inline copy in AssignRoleOnScope.py): list the matching
    assignments; if any line came back do nothing; otherwise create the
    assignment; a non-zero exit from either command ends the run with
    `sys.exit()`. */
module RoleAssignment {
  import opened Results
  import opened CloudControl

  /** Which of the two normal endings a check-then-act took. */
  datatype Granted = AlreadyAssigned | Assigned

  /** The effect of one check-then-act for `key` on state `c`. */
  function CheckThenAct(c: Cloud, env: Env, key: RoleKey): (r: Run<Granted>)
    // the listing always comes first; the only other command is the create
    ensures r.log == [RoleList(key)] || r.log == [RoleList(key), RoleCreate(key)]
    ensures Mutations(r.log) <= 1
    // a failed listing ends the run before any create
    ensures !ListOk(env, key) ==> r.status == Exited && r.log == [RoleList(key)]
    // a listing that printed a line: no create, nothing changes
    ensures |ListLines(c, env, key)| > 0 ==> r == Run(Done(AlreadyAssigned), c, [RoleList(key)])
    // an empty listing: exactly one create, of the very triple that was listed
    ensures ListOk(env, key) && |ListLines(c, env, key)| == 0 ==> r.log == [RoleList(key), RoleCreate(key)]
    // the run ends early exactly when the listing or the create failed
    ensures r.status == Exited <==> !ListOk(env, key) || (key !in c.assignments && !CreateOk(env, key))
    ensures r.status != Crashed
    // on a normal ending the triple is present; no other triple changes
    ensures r.status.Done? ==> key in r.cloud.assignments
    ensures r.cloud.assignments == c.assignments || r.cloud.assignments == c.assignments + {key}
    ensures r.cloud.vms == c.vms
    // only a create that succeeded changes the state: an exit leaves it as it was
    ensures r.cloud == (if r.status == Done(Assigned) then c.(assignments := c.assignments + {key}) else c)
  {
    var listed := [RoleList(key)];
    if !ListOk(env, key) then Run(Exited, c, listed)
    else if |ListLines(c, env, key)| > 0 then Run(Done(AlreadyAssigned), c, listed)
    else if !CreateOk(env, key) then Run(Exited, c, listed + [RoleCreate(key)])
    else Run(Done(Assigned), c.(assignments := c.assignments + {key}), listed + [RoleCreate(key)])
  }

  /** Idempotence: once a check-then-act has ended normally, running it again
      with the same arguments — under any later conditions `env2` — only
      lists: it creates nothing and changes nothing, so the two calls
      together issue at most one create. The second call ends normally
      exactly when its listing succeeds, and otherwise exits. */
  lemma CheckThenActTwice(c: Cloud, env: Env, env2: Env, key: RoleKey)
    requires CheckThenAct(c, env, key).status.Done?
    ensures var first := CheckThenAct(c, env, key);
            var second := CheckThenAct(first.cloud, env2, key);
            && second.cloud == first.cloud
            && second.log == [RoleList(key)]
            && second.status == (if ListOk(env2, key) then Done(AlreadyAssigned) else Exited)
            && Mutations(first.log + second.log) <= 1
  {
    var first := CheckThenAct(c, env, key);
    var second := CheckThenAct(first.cloud, env2, key);
    MutationsAppend(first.log, second.log);
  }

  /** One check-then-act against the control plane. */
  method EnsureRole(cp: ControlPlane, key: RoleKey) returns (s: Status<Granted>)
    modifies cp`log, cp`assignments
    ensures var r := CheckThenAct(old(cp.State()), cp.env, key);
            s == r.status && cp.State() == r.cloud && cp.log == old(cp.log) + r.log
  {
    var ok, lines := cp.ListRoleAssignments(key);
    if !ok {
      return Exited;
    }
    if |lines| > 0 {
      return Done(AlreadyAssigned);
    }
    ok := cp.CreateRoleAssignment(key);
    if !ok {
      return Exited;
    }
    return Done(Assigned);
  }
}
