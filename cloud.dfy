/** The Azure control plane as the scripts see it through `az`: a set of role
    assignments, a record per virtual machine, the raw TSV output of
    `az identity show` per user-assigned identity, and a fixed set of
    commands that exit non-zero. Every invocation is recorded, in order, in
    the command log, which is how the models below state which calls a
    script makes, in what order and how many. A failing command changes
    nothing and prints nothing on standard output. */
module CloudControl {
  import opened Results
  import opened Tsv

  /** Where a role assignment applies: a resource group (`-g`), a fully
      qualified scope (`--scope`), or both, as AssignRoleOnScope.py passes
      them. */
  datatype Target = Group(group: string) | Scope(scope: string) | GroupScope(group: string, scope: string)

  /** The (assignee, role, target) triple the scripts list and create. */
  datatype RoleKey = RoleKey(principal: string, role: string, target: Target)

  /** A virtual machine, addressed by resource group and name (`-g`, `-n`). */
  datatype VmKey = VmKey(group: string, name: string)

  /** What the control plane holds for one virtual machine: its resource id
      (`az vm show --query id`), the principal id the platform gives its
      system-assigned identity, the tenant, whether that identity is enabled,
      and the user-assigned identities attached to it. */
  datatype Vm = Vm(
    resourceId: string,
    systemPrincipal: string,
    tenantId: string,
    systemEnabled: bool,
    userIdentities: set<string>)

  /** One `az` invocation. `VmIdentityAssign(vm, None)` enables the
      system-assigned identity; `Some(id)` attaches a user-assigned one. */
  datatype Command =
    | Login
    | AccountSet(subscription: string)
    | RoleList(key: RoleKey)
    | RoleCreate(key: RoleKey)
    | IdentityShow(identityId: string)
    | VmIdentityShow(vm: VmKey)
    | VmIdentityAssign(vm: VmKey, identity: Option<string>)
    | VmShowId(vm: VmKey)
  {
    /** The commands that change control-plane state. */
    predicate IsMutation()
    {
      RoleCreate? || VmIdentityAssign?
    }
  }

  /** What the model takes as given about the outside world: the commands
      that exit non-zero, and the TSV lines `az identity show --ids` prints
      for each user-assigned identity that exists. */
  datatype Env = Env(failing: set<Command>, identities: map<string, seq<string>>)

  /** The control-plane state the scripts change. */
  datatype Cloud = Cloud(assignments: set<RoleKey>, vms: map<VmKey, Vm>)

  /** A finished piece of a run: how it ended, the state it left, and the
      commands it issued, in order. */
  datatype Run<+T> = Run(status: Status<T>, cloud: Cloud, log: seq<Command>)

  /** `r` preceded by the commands `done`. */
  function Then<T>(done: seq<Command>, r: Run<T>): Run<T>
  {
    Run(r.status, r.cloud, done + r.log)
  }

  lemma AppendAssoc<T>(a: seq<T>, b: seq<T>, c: seq<T>)
    ensures (a + b) + c == a + (b + c)
  {
  }

  lemma ThenThen<T>(a: seq<Command>, b: seq<Command>, r: Run<T>)
    ensures Then(a, Then(b, r)) == Then(a + b, r)
  {
    assert a + (b + r.log) == (a + b) + r.log;
  }

  /** Number of state-changing commands in a log. */
  function Mutations(log: seq<Command>): (n: nat)
    ensures n <= |log|
    ensures n == 0 <==> forall k :: 0 <= k < |log| ==> !log[k].IsMutation()
  {
    if log == [] then 0 else (if log[0].IsMutation() then 1 else 0) + Mutations(log[1..])
  }

  lemma {:induction false} MutationsAppend(a: seq<Command>, b: seq<Command>)
    ensures Mutations(a + b) == Mutations(a) + Mutations(b)
  {
    if a != [] {
      assert (a + b)[0] == a[0] && (a + b)[1..] == a[1..] + b;
      MutationsAppend(a[1..], b);
    } else {
      assert a + b == b;
    }
  }

  /** The role requests in a log: the key of every `az role assignment list`,
      in the order they were issued. Each check-then-act starts with exactly
      one such listing, so this is the sequence of requests a script made. */
  function RoleRequests(log: seq<Command>): (r: seq<RoleKey>)
    ensures |r| <= |log|
  {
    if log == [] then []
    else (if log[0].RoleList? then [log[0].key] else []) + RoleRequests(log[1..])
  }

  lemma {:induction false} RoleRequestsAppend(a: seq<Command>, b: seq<Command>)
    ensures RoleRequests(a + b) == RoleRequests(a) + RoleRequests(b)
  {
    if a != [] {
      assert (a + b)[0] == a[0] && (a + b)[1..] == a[1..] + b;
      RoleRequestsAppend(a[1..], b);
    } else {
      assert a + b == b;
    }
  }

  // ---- Output of each command, as a function of the state ----

  function TargetText(t: Target): string
  {
    match t
    case Group(g) => g
    case Scope(s) => s
    case GroupScope(g, s) => s
  }

  /** The TSV line listing prints for an existing assignment. */
  function AssignmentLine(key: RoleKey): string
  {
    Join([key.principal, key.role, TargetText(key.target)], Tab)
  }

  predicate AccountSetOk(env: Env, subscription: string)
  {
    AccountSet(subscription) !in env.failing
  }

  predicate ListOk(env: Env, key: RoleKey)
  {
    RoleList(key) !in env.failing
  }

  /** `az role assignment list` prints one line per matching assignment. */
  function ListLines(c: Cloud, env: Env, key: RoleKey): (lines: seq<string>)
    ensures |lines| > 0 <==> ListOk(env, key) && key in c.assignments
  {
    if ListOk(env, key) && key in c.assignments then [AssignmentLine(key)] else []
  }

  predicate CreateOk(env: Env, key: RoleKey)
  {
    RoleCreate(key) !in env.failing
  }

  predicate IdentityShowOk(env: Env, identityId: string)
  {
    IdentityShow(identityId) !in env.failing && identityId in env.identities
  }

  function IdentityShowLines(env: Env, identityId: string): seq<string>
  {
    if IdentityShowOk(env, identityId) then env.identities[identityId] else []
  }

  /** The `type` column of `az vm identity show`. */
  function IdentityType(vm: Vm): string
  {
    if vm.systemEnabled && vm.userIdentities != {} then "SystemAssigned, UserAssigned"
    else if vm.systemEnabled then "SystemAssigned"
    else "UserAssigned"
  }

  /** What `az vm identity show -o tsv` prints: nothing for a machine without
      identity, otherwise one line `principalId<TAB>tenantId<TAB>type`, the
      principal column empty when only user-assigned identities are attached. */
  function IdentityLines(vm: Vm): seq<string>
  {
    if !vm.systemEnabled && vm.userIdentities == {} then []
    else [Join([if vm.systemEnabled then vm.systemPrincipal else "", vm.tenantId, IdentityType(vm)], Tab)]
  }

  predicate VmIdentityShowOk(c: Cloud, env: Env, vm: VmKey)
  {
    VmIdentityShow(vm) !in env.failing && vm in c.vms
  }

  function VmIdentityShowLines(c: Cloud, env: Env, vm: VmKey): seq<string>
  {
    if VmIdentityShowOk(c, env, vm) then IdentityLines(c.vms[vm]) else []
  }

  predicate VmIdentityAssignOk(c: Cloud, env: Env, vm: VmKey, identity: Option<string>)
  {
    && VmIdentityAssign(vm, identity) !in env.failing
    && vm in c.vms
    && (identity.Some? ==> identity.value in env.identities)
  }

  /** `c'` has the role assignments of `c` and the same machines, with the
      same resource, principal and tenant ids: only identity attachments may
      differ. */
  predicate SameMachines(c: Cloud, c': Cloud)
  {
    && c'.assignments == c.assignments
    && c'.vms.Keys == c.vms.Keys
    && forall k :: k in c.vms ==>
         && c'.vms[k].resourceId == c.vms[k].resourceId
         && c'.vms[k].systemPrincipal == c.vms[k].systemPrincipal
         && c'.vms[k].tenantId == c.vms[k].tenantId
  }

  /** The state after a successful `az vm identity assign`. */
  function WithIdentity(c: Cloud, vm: VmKey, identity: Option<string>): (c': Cloud)
    requires vm in c.vms
    ensures SameMachines(c, c')
    ensures forall k :: k in c.vms && k != vm ==> c'.vms[k] == c.vms[k]
    ensures identity.None? ==> c'.vms[vm].systemEnabled
    ensures identity.Some? ==> identity.value in c'.vms[vm].userIdentities
  {
    var m := c.vms[vm];
    var m' := match identity
      case None => m.(systemEnabled := true)
      case Some(id) => m.(userIdentities := m.userIdentities + {id});
    c.(vms := c.vms[vm := m'])
  }

  predicate VmShowIdOk(c: Cloud, env: Env, vm: VmKey)
  {
    VmShowId(vm) !in env.failing && vm in c.vms
  }

  function VmShowIdLines(c: Cloud, env: Env, vm: VmKey): seq<string>
  {
    if VmShowIdOk(c, env, vm) then [c.vms[vm].resourceId] else []
  }

  // ---- Identity rows that the scripts' string tests read correctly ----

  predicate IsGuidChar(ch: char)
  {
    '0' <= ch <= '9' || 'a' <= ch <= 'f' || 'A' <= ch <= 'F' || ch == '-'
  }

  /** Principal and tenant ids are GUIDs: hexadecimal digits and dashes. */
  predicate GuidLike(s: string)
  {
    forall k :: 0 <= k < |s| ==> IsGuidChar(s[k])
  }

  lemma Join3(a: string, b: string, c: string, sep: char)
    ensures Join([a, b, c], sep) == a + [sep] + b + [sep] + c
  {
    assert [a, b, c][1..] == [b, c];
    assert [b, c][1..] == [c];
    assert Join([b, c], sep) == b + [sep] + c;
    assert Join([a, b, c], sep) == a + [sep] + (b + [sep] + c);
  }

  /** A lower-cased string holds no `y` when the original holds neither `y` nor `Y`. */
  lemma LowerWithoutY(s: string)
    requires 'y' !in s && 'Y' !in s
    ensures 'y' !in Lower(s)
  {
    forall k | 0 <= k < |s| ensures Lower(s)[k] != 'y' {
      assert s[k] != 'y' && s[k] != 'Y';
    }
  }

  lemma GuidWithoutY(s: string)
    requires GuidLike(s)
    ensures 'y' !in s && 'Y' !in s && Tab !in s
  {
    forall k | 0 <= k < |s| ensures s[k] != 'y' && s[k] != 'Y' && s[k] != Tab {
      assert IsGuidChar(s[k]);
    }
  }

  /** A row for a machine with only user-assigned identities never mentions
      "systemassigned". */
  lemma UserOnlyRowNotSystem(p: string, t: string)
    requires GuidLike(p) && GuidLike(t)
    ensures !MentionsSystemAssigned(Join([p, t, "UserAssigned"], Tab))
  {
    var ty := "UserAssigned";
    Join3(p, t, ty, Tab);
    GuidWithoutY(p);
    GuidWithoutY(t);
    assert 'y' !in ty && 'Y' !in ty by {
      forall k | 0 <= k < |ty| ensures ty[k] != 'y' && ty[k] != 'Y' { }
    }
    var line := Join([p, t, ty], Tab);
    assert 'y' !in line && 'Y' !in line;
    LowerWithoutY(line);
    NotContainsMissingChar(Lower(line), "systemassigned", 1);
  }

  lemma LowerSystemAssigned()
    ensures Lower("SystemAssigned") == "systemassigned"
  {
    var s, t := "SystemAssigned", "systemassigned";
    assert LowerChar('S') == 's' && LowerChar('A') == 'a';
    assert s[0] == 'S' && s[6] == 'A';
    assert forall k :: 0 <= k < 14 && k != 0 && k != 6 ==> 'a' <= s[k] <= 'z' && s[k] == t[k];
    assert forall k :: 0 <= k < 14 ==> Lower(s)[k] == t[k];
  }

  /** A row whose type column starts with "SystemAssigned" mentions it. */
  lemma SystemRowMentionsSystem(p: string, t: string, ty: string)
    requires |ty| >= 14 && ty[..14] == "SystemAssigned"
    ensures MentionsSystemAssigned(Join([p, t, ty], Tab))
  {
    Join3(p, t, ty, Tab);
    var line := Join([p, t, ty], Tab);
    var i := |p| + |t| + 2;
    assert line == (p + [Tab] + t + [Tab]) + ty;
    assert line[i..i + 14] == ty[..14];
    LowerSlice(line, i, i + 14);
    LowerSystemAssigned();
    assert OccursAt(Lower(line), "systemassigned", i);
    ContainsOccurs(Lower(line), "systemassigned");
  }

  /** For machines whose ids are GUIDs, the scripts' reading of
      `az vm identity show` output is right: the first line mentions
      "systemassigned" (in any case) exactly when the system-assigned identity
      is enabled, and its first tab-separated field is then that identity's
      principal id. */
  lemma IdentityLinesReport(vm: Vm)
    requires GuidLike(vm.systemPrincipal) && GuidLike(vm.tenantId)
    ensures (IdentityLines(vm) != [] && MentionsSystemAssigned(IdentityLines(vm)[0])) <==> vm.systemEnabled
    ensures vm.systemEnabled ==> Field(IdentityLines(vm)[0], 0) == Some(vm.systemPrincipal)
  {
    var p := if vm.systemEnabled then vm.systemPrincipal else "";
    var t := vm.tenantId;
    var ty := IdentityType(vm);
    if vm.systemEnabled {
      GuidWithoutY(p);
      GuidWithoutY(t);
      assert Tab !in ty by {
        forall k | 0 <= k < |ty| ensures ty[k] != Tab { }
      }
      FieldOfJoin([p, t, ty], 0);
      SystemRowMentionsSystem(p, t, ty);
    } else if vm.userIdentities != {} {
      UserOnlyRowNotSystem(p, t);
    }
  }

  /** The control plane behind `os.system("az ...")`. Each method is one
      command: it appends itself to the log and acts on the state as the
      functions above say. */
  class ControlPlane {
    var assignments: set<RoleKey>
    var vms: map<VmKey, Vm>
    var log: seq<Command>
    const env: Env

    function State(): Cloud
      reads this
    {
      Cloud(assignments, vms)
    }

    constructor (initial: Cloud, env: Env)
      ensures State() == initial && this.env == env && log == []
    {
      assignments := initial.assignments;
      vms := initial.vms;
      log := [];
      this.env := env;
    }

    /** `az login`: its exit code is overwritten unread by the scripts. */
    method Login()
      modifies this`log
      ensures log == old(log) + [Command.Login]
    {
      log := log + [Command.Login];
    }

    method SetAccount(subscription: string) returns (ok: bool)
      modifies this`log
      ensures ok == AccountSetOk(env, subscription)
      ensures log == old(log) + [AccountSet(subscription)]
    {
      log := log + [AccountSet(subscription)];
      ok := AccountSet(subscription) !in env.failing;
    }

    method ListRoleAssignments(key: RoleKey) returns (ok: bool, lines: seq<string>)
      modifies this`log
      ensures ok == ListOk(env, key) && lines == ListLines(State(), env, key)
      ensures log == old(log) + [RoleList(key)]
    {
      log := log + [RoleList(key)];
      ok := RoleList(key) !in env.failing;
      lines := if ok && key in assignments then [AssignmentLine(key)] else [];
    }

    method CreateRoleAssignment(key: RoleKey) returns (ok: bool)
      modifies this`log, this`assignments
      ensures ok == CreateOk(env, key)
      ensures assignments == if ok then old(assignments) + {key} else old(assignments)
      ensures log == old(log) + [RoleCreate(key)]
    {
      log := log + [RoleCreate(key)];
      ok := RoleCreate(key) !in env.failing;
      if ok {
        assignments := assignments + {key};
      }
    }

    method ShowIdentity(identityId: string) returns (ok: bool, lines: seq<string>)
      modifies this`log
      ensures ok == IdentityShowOk(env, identityId) && lines == IdentityShowLines(env, identityId)
      ensures log == old(log) + [IdentityShow(identityId)]
    {
      log := log + [IdentityShow(identityId)];
      ok := IdentityShow(identityId) !in env.failing && identityId in env.identities;
      lines := if ok then env.identities[identityId] else [];
    }

    method ShowVmIdentity(vm: VmKey) returns (ok: bool, lines: seq<string>)
      modifies this`log
      ensures ok == VmIdentityShowOk(State(), env, vm) && lines == VmIdentityShowLines(State(), env, vm)
      ensures log == old(log) + [VmIdentityShow(vm)]
    {
      log := log + [VmIdentityShow(vm)];
      ok := VmIdentityShow(vm) !in env.failing && vm in vms;
      lines := if ok then IdentityLines(vms[vm]) else [];
    }

    method AssignVmIdentity(vm: VmKey, identity: Option<string>) returns (ok: bool)
      modifies this`log, this`vms
      ensures ok == VmIdentityAssignOk(old(State()), env, vm, identity)
      ensures State() == if ok then WithIdentity(old(State()), vm, identity) else old(State())
      ensures log == old(log) + [VmIdentityAssign(vm, identity)]
    {
      log := log + [VmIdentityAssign(vm, identity)];
      ok := VmIdentityAssignOk(State(), env, vm, identity);
      if ok {
        vms := WithIdentity(State(), vm, identity).vms;
      }
    }

    method ShowVmId(vm: VmKey) returns (ok: bool, lines: seq<string>)
      modifies this`log
      ensures ok == VmShowIdOk(State(), env, vm) && lines == VmShowIdLines(State(), env, vm)
      ensures log == old(log) + [VmShowId(vm)]
    {
      log := log + [VmShowId(vm)];
      ok := VmShowId(vm) !in env.failing && vm in vms;
      lines := if ok then [vms[vm].resourceId] else [];
    }
  }
}
