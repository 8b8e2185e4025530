/** What every run of the authority transactions keeps. */
module AuthorityProofs {
  import opened Types
  import opened Roles
  import opened Authority

  // ---- the invariant is kept -----------------------------------------------

  /** Triggers write epochs and nothing else. */
  lemma TriggeredShape(t: Tables, t': Tables)
    ensures var r := Triggered(t, t');
            && r.orgs == t'.orgs && r.projects == t'.projects && r.members == t'.members
            && r.roles == t'.roles && r.keys == t'.keys && r.users.Keys == t'.users.Keys
  {
  }

  lemma SameRows(t: Tables, t': Tables)
    requires t.orgs == t'.orgs && t.projects == t'.projects && t.members == t'.members
    requires t.roles == t'.roles && t.keys == t'.keys && t.users.Keys == t'.users.Keys
    ensures MembersOk(t) <==> MembersOk(t')
    ensures RolesOk(t) <==> RolesOk(t')
    ensures KeysOk(t) <==> KeysOk(t')
  {
  }

  lemma TriggeredKeeps(t: Tables, t': Tables)
    ensures Inv(Triggered(t, t')) <==> Inv(t')
    ensures MembersOk(Triggered(t, t')) <==> MembersOk(t')
    ensures RolesOk(Triggered(t, t')) <==> RolesOk(t')
  {
    TriggeredShape(t, t');
    SameRows(t', Triggered(t, t'));
  }

  /** The cascade is what the foreign keys need: whatever rows went, no role or key dangles. */
  lemma CascadedKeeps(t: Tables)
    requires MembersOk(t) && forall x :: x in t.projects ==> t.projects[x] in t.orgs
    ensures Inv(Cascaded(t))
  {
  }

  lemma AdmittedKeeps(t: Tables, u: User, res: Resolved)
    requires Inv(t)
    ensures Inv(Admitted(t, u, res)) && u in Admitted(t, u, res).users
    ensures Admitted(t, u, res).members == t.members && Admitted(t, u, res).users.Keys == t.users.Keys + {u}
    ensures Admitted(t, u, res).roles == t.roles && Admitted(t, u, res).keys == t.keys
    ensures Admitted(t, u, res).orgs == t.orgs + res.orgs.Keys && Admitted(t, u, res).projects == t.projects
  {
  }

  lemma ClaimRowsKeep(t: Tables, u: User, res: Resolved)
    requires Inv(t) && u in t.users && res.orgs.Keys <= t.orgs
    ensures Inv(t.(members := t.members + ClaimRows(t, u, res)))
  {
  }

  lemma ClaimedKeeps(t: Tables, u: User, res: Resolved)
    requires Inv(t)
    ensures Inv(Claimed(t, u, res))
  {
    AdmittedKeeps(t, u, res);
    var t1 := Admitted(t, u, res);
    ClaimRowsKeep(t1, u, res);
    TriggeredKeeps(t1, t1.(members := t1.members + ClaimRows(t1, u, res)));
  }

  lemma DeleteUnjustifiedKeeps(t: Tables, u: User, keep: set<Org>)
    requires Inv(t)
    ensures Inv(DeleteUnjustified(t, u, keep))
  {
    var t1 := t.(members := map k | k in t.members && !Unjustified(t, u, keep, k) :: t.members[k]);
    CascadedKeeps(t1);
    TriggeredKeeps(t, Cascaded(t1));
  }

  /** The generated column never becomes NULL, nor a row sourceless: only rows with a local half are cleared. */
  lemma ClearClaimsKeeps(t: Tables, u: User, keep: set<Org>)
    requires Inv(t)
    ensures Inv(ClearClaims(t, u, keep))
  {
  }

  lemma GrantLocalKeeps(t: Tables, u: User, o: Org, role: OrgRole, grantor: User)
    requires Inv(t) && u in t.users && o in t.orgs
    ensures Inv(GrantLocal(t, u, o, role, grantor))
  {
  }

  lemma RevokeLocalKeeps(t: Tables, u: User, o: Org)
    requires Inv(t)
    ensures Inv(RevokeLocal(t, u, o))
  {
  }

  lemma DeleteLocalKeeps(t: Tables, u: User, o: Org)
    requires Inv(t)
    ensures Inv(DeleteLocal(t, u, o))
  {
    var t1 := t.(members := t.members - {(u, o)});
    CascadedKeeps(t1);
    TriggeredKeeps(t, Cascaded(t1));
  }

  lemma ExceedingIff(role: ProjectRole, s: Scope)
    ensures s in Exceeding(role) <==> !ScopeWithinRole(s, role)
  {
  }

  /** A role change sets one role, and revokes exactly the user's keys in the project that the role could not be given. */
  lemma RoleChangeEffect(t: Tables, x: Project, u: User, role: ProjectRole, i: KeyId)
    ensures var t' := RevokeKeys(SetProjectRole(t, u, x, role), u, x, Exceeding(role));
            && t'.roles == t.roles[(u, x) := role] && t'.members == t.members && (i in t'.keys <==> i in t.keys)
            && (i in t.keys ==>
                  t'.keys[i] == if t.keys[i].user == u && t.keys[i].project == x && !ScopeWithinRole(t.keys[i].scope, role)
                                then t.keys[i].(revoked := true) else t.keys[i])
  {
    TriggeredShape(t, t.(roles := t.roles[(u, x) := role]));
    if i in t.keys { ExceedingIff(role, t.keys[i].scope); }
  }

  /** The downgrade: the keys left live are those the new role could have been given. */
  lemma DowngradeKeeps(t: Tables, u: User, x: Project, role: ProjectRole)
    requires Inv(t) && x in t.projects && (u, t.projects[x]) in t.members
    ensures var t' := RevokeKeys(SetProjectRole(t, u, x, role), u, x, Exceeding(role));
            Inv(t') && (KeysWithin(t) ==> KeysWithin(t'))
  {
    SetRoleKeeps(t, u, x, role);
    RevokeKeysKeeps(SetProjectRole(t, u, x, role), u, x, Exceeding(role));
    if KeysWithin(t) { DowngradeWithin(t, u, x, role); }
  }

  lemma SetRoleKeeps(t: Tables, u: User, x: Project, role: ProjectRole)
    requires Inv(t) && x in t.projects && (u, t.projects[x]) in t.members
    ensures Inv(SetProjectRole(t, u, x, role))
  {
    TriggeredKeeps(t, t.(roles := t.roles[(u, x) := role]));
  }

  lemma RevokeKeysKeeps(t: Tables, u: User, x: Project, scopes: set<Scope>)
    requires Inv(t)
    ensures Inv(RevokeKeys(t, u, x, scopes))
  {
  }

  lemma DowngradeWithin(t: Tables, u: User, x: Project, role: ProjectRole)
    requires KeysWithin(t)
    ensures KeysWithin(RevokeKeys(SetProjectRole(t, u, x, role), u, x, Exceeding(role)))
  {
    var t' := RevokeKeys(SetProjectRole(t, u, x, role), u, x, Exceeding(role));
    forall i | i in t'.keys ensures Within(t'.keys[i], t'.roles) {
      RoleChangeEffect(t, x, u, role, i);
      assert Within(t.keys[i], t.roles);
    }
  }

  lemma DropProjectRoleKeeps(t: Tables, u: User, x: Project)
    requires Inv(t)
    ensures Inv(DropProjectRole(t, u, x))
  {
    CascadedKeeps(t.(roles := t.roles - {(u, x)}));
    TriggeredKeeps(t, Cascaded(t.(roles := t.roles - {(u, x)})));
  }

  lemma DropProjectKeeps(t: Tables, x: Project)
    requires Inv(t)
    ensures Inv(Cascaded(WithoutProject(t, x))) && Inv(Deleted(t, WithoutProject(t, x)))
  {
    CascadedKeeps(WithoutProject(t, x));
    TriggeredKeeps(t, Cascaded(WithoutProject(t, x)));
  }

  lemma DropOrgKeeps(t: Tables, o: Org)
    requires Inv(t) && o !in t.projects.Values
    ensures Inv(Cascaded(WithoutOrg(t, o))) && Inv(Deleted(t, WithoutOrg(t, o)))
  {
    var t1 := WithoutOrg(t, o);
    forall x | x in t1.projects ensures t1.projects[x] in t1.orgs {
      assert t.projects[x] in t.projects.Values;
    }
    CascadedKeeps(t1);
    TriggeredKeeps(t, Cascaded(t1));
  }

  lemma NewProjectKeeps(t: Tables, o: Org, x: Project)
    requires Inv(t) && o in t.orgs && x !in t.projects
    ensures Inv(t.(projects := t.projects[x := o]))
  {
  }

  lemma CreateProjectKeeps(t: Tables, actor: User, o: Org, x: Project)
    requires Inv(t) && o in t.orgs && x !in t.projects
    ensures Inv(CreatorRole(t.(projects := t.projects[x := o]), actor, o, x))
  {
    NewProjectKeeps(t, o, x);
    if (actor, o) in t.members { SetRoleKeeps(t.(projects := t.projects[x := o]), actor, x, ProjectAdmin); }
  }

  lemma LoginKeeps(t: Tables, u: User, res: Resolved)
    requires Inv(t)
    ensures Inv(Reconciled(t, u, res))
  {
    ClaimedKeeps(t, u, res);
    DeleteUnjustifiedKeeps(Claimed(t, u, res), u, res.orgs.Keys);
    ClearClaimsKeeps(DeleteUnjustified(Claimed(t, u, res), u, res.orgs.Keys), u, res.orgs.Keys);
  }

  lemma CreateOrgKeeps(t: Tables, actor: User, o: Org)
    requires Inv(t) && actor in t.users
    ensures Inv(WithOrg(t, o)) && Inv(GrantLocal(WithOrg(t, o), actor, o, Owner, actor))
  {
    WithOrgKeeps(t, o);
    GrantLocalKeeps(WithOrg(t, o), actor, o, Owner, actor);
  }

  lemma WithOrgKeeps(t: Tables, o: Org)
    requires Inv(t)
    ensures Inv(WithOrg(t, o))
  {
  }

  predicate IsKeyStep(step: Step) {
    step.MintKey? || step.MintKeyLate? || step.RevokeKey? || step.PurgeKey?
  }

  lemma KeyStepKeeps(t: Tables, step: Step)
    requires Inv(t) && Enabled(t, step) && IsKeyStep(step)
    ensures Inv(Next(t, step))
  {
  }

  lemma KeyStepWithin(t: Tables, step: Step)
    requires KeysWithin(t) && Enabled(t, step) && IsKeyStep(step) && Timely(t, step)
    ensures KeysWithin(Next(t, step))
  {
    var t' := Next(t, step);
    forall i | i in t'.keys ensures Within(t'.keys[i], t'.roles) {
      if i in t.keys { assert Within(t.keys[i], t.roles); }
    }
  }

  lemma SiteGrantKeeps(t: Tables, u: User, grant: Option<Option<User>>)
    requires Inv(t) && u in t.users
    ensures Inv(SetSiteGrant(t, u, grant))
  {
    var t1 := t.(users := t.users[u := t.users[u].(siteGrant := grant)]);
    SameRows(t, t1);
    TriggeredKeeps(t, t1);
  }

  lemma StepKeeps(t: Tables, step: Step)
    requires Inv(t) && Enabled(t, step)
    ensures Inv(Next(t, step))
  {
    match step
    case Login(u, res) => LoginKeeps(t, u, res);
    case PutOrgMember(actor, o, u, role) => GrantLocalKeeps(t, u, o, role, actor);
    case DeleteOrgMember(actor, o, u) => RevokeLocalKeeps(t, u, o); DeleteLocalKeeps(t, u, o);
    case PutProjectMember(actor, x, u, role) => DowngradeKeeps(t, u, x, role);
    case DeleteProjectMember(actor, x, u) => DropProjectRoleKeeps(t, u, x);
    case GrantSite(grantor, u) => SiteGrantKeeps(t, u, Some(grantor));
    case RevokeSite(u) => SiteGrantKeeps(t, u, None);
    case CreateOrg(actor, o) => CreateOrgKeeps(t, actor, o);
    case CreateProject(actor, o, x) => CreateProjectKeeps(t, actor, o, x);
    case DropProject(x) => DropProjectKeeps(t, x);
    case DropOrg(o) => DropOrgKeeps(t, o);
    case GrantLocalLate(actor, o, u, role) => GrantLocalKeeps(t, u, o, role, actor);
    case RevokeLocalLate(u, o) => RevokeLocalKeeps(t, u, o);
    case DeleteLocalLate(u, o) => DeleteLocalKeeps(t, u, o);
    case SetRoleLate(x, u, role) => DowngradeKeeps(t, u, x, role);
    case DropRoleLate(x, u) => DropProjectRoleKeeps(t, u, x);
    case CreateProjectLate(actor, o, x) => CreateProjectKeeps(t, actor, o, x);
    case _ => KeyStepKeeps(t, step);
  }

  lemma {:induction false} RunKeeps(states: seq<Tables>, steps: seq<Step>, i: nat)
    requires IsRun(states, steps) && i < |states|
    ensures Inv(states[i])
  {
    if i > 0 {
      RunKeeps(states, steps, i - 1);
      assert Follows(states[i - 1], steps[i - 1], states[(i - 1) + 1]);
      StepKeeps(states[i - 1], steps[i - 1]);
    }
  }

  /**
   In any run of logins, grants, revocations, role changes and teardowns: every membership
   has a source and project roles imply org membership.
   */
  lemma MembershipsJustified(states: seq<Tables>, steps: seq<Step>, i: nat)
    requires IsRun(states, steps) && i < |states|
    ensures var t := states[i];
            && (forall k :: k in t.members ==> t.members[k].oidc.Some? || t.members[k].local.Some?)
            && (forall k :: k in t.roles ==> k.1 in t.projects && (k.0, t.projects[k.1]) in t.members)
  {
    RunKeeps(states, steps, i);
  }

  /** Checked on the tables it writes to, the write of a handler is the handler. */
  lemma WriteAtOnce(t: Tables, step: Step)
    requires Enabled(t, step)
    ensures Enabled(t, LateWrite(t, step))
    ensures Next(t, LateWrite(t, step)) == Next(t, step)
  {
    match step
    case PutOrgMember(_, _, _, _) =>
    case DeleteOrgMember(_, _, _) =>
    case PutProjectMember(_, _, _, _) =>
    case DeleteProjectMember(_, _, _) =>
    case MintKey(_, _, _, _) =>
    case CreateProject(_, _, _) =>
    case _ => assert LateWrite(t, step) == step;
  }

  // ---- keys and roles ------------------------------------------------------

  /** Roles and keys only go, and keys only become revoked. */
  ghost predicate Shrinks(t: Tables, t': Tables) {
    && (forall k :: k in t'.roles ==> k in t.roles && t'.roles[k] == t.roles[k])
    && (forall i :: i in t'.keys ==> i in t.keys && (t'.keys[i] == t.keys[i] || t'.keys[i] == t.keys[i].(revoked := true)))
  }

  lemma ShrinksKeeps(t: Tables, t': Tables)
    requires Shrinks(t, t') && KeysWithin(t)
    ensures KeysWithin(t')
  {
    forall i | i in t'.keys ensures Within(t'.keys[i], t'.roles) { assert Within(t.keys[i], t.roles); }
  }

  lemma ShrinksTransitive(a: Tables, b: Tables, c: Tables)
    requires Shrinks(a, b) && Shrinks(b, c)
    ensures Shrinks(a, c)
  {
  }

  lemma StatementShrinks(t: Tables, t': Tables)
    requires Shrinks(t, t')
    ensures Shrinks(t, Triggered(t, t'))
  {
    TriggeredShape(t, t');
  }

  lemma DeletedShrinks(t: Tables, t1: Tables)
    requires Shrinks(t, t1)
    ensures Shrinks(t, Deleted(t, t1))
  {
    assert Shrinks(t1, Cascaded(t1));
    ShrinksTransitive(t, t1, Cascaded(t1));
    StatementShrinks(t, Cascaded(t1));
  }

  lemma LoginShrinks(t: Tables, u: User, res: Resolved)
    ensures Shrinks(t, Reconciled(t, u, res))
  {
    var t2, keep := Claimed(t, u, res), res.orgs.Keys;
    ClaimedShrinks(t, u, res);
    DeletedShrinks(t2, t2.(members := map k | k in t2.members && !Unjustified(t2, u, keep, k) :: t2.members[k]));
    var t3 := DeleteUnjustified(t2, u, keep);
    ShrinksTransitive(t, t2, t3);
    ClearShrinks(t3, u, keep);
    ShrinksTransitive(t, t3, Reconciled(t, u, res));
  }

  lemma ClaimedShrinks(t: Tables, u: User, res: Resolved)
    ensures Shrinks(t, Claimed(t, u, res))
  {
    var t1 := Admitted(t, u, res);
    TriggeredShape(t, WithUser(t, u, res.site));
    assert Shrinks(t, t1);
    StatementShrinks(t1, t1.(members := t1.members + ClaimRows(t1, u, res)));
    ShrinksTransitive(t, t1, Claimed(t, u, res));
  }

  lemma ClearShrinks(t: Tables, u: User, keep: set<Org>)
    ensures Shrinks(t, ClearClaims(t, u, keep))
  {
  }

  lemma MemberShrinks(t: Tables, u: User, o: Org, role: OrgRole, grantor: User)
    ensures Shrinks(t, GrantLocal(t, u, o, role, grantor))
    ensures Shrinks(t, RevokeLocal(t, u, o))
    ensures Shrinks(t, DeleteLocal(t, u, o))
  {
    DeletedShrinks(t, t.(members := t.members - {(u, o)}));
  }

  predicate MayGrowRoles(step: Step) {
    step.PutProjectMember? || step.SetRoleLate? || step.CreateProject? || step.CreateProjectLate? || step.CreateOrg?
  }

  lemma StepShrinks(t: Tables, step: Step)
    requires Enabled(t, step) && !MayGrowRoles(step) && !IsKeyStep(step)
    ensures Shrinks(t, Next(t, step))
  {
    match step
    case Login(u, res) => LoginShrinks(t, u, res);
    case PutOrgMember(actor, o, u, role) => MemberShrinks(t, u, o, role, actor);
    case GrantLocalLate(actor, o, u, role) => MemberShrinks(t, u, o, role, actor);
    case DeleteOrgMember(_, o, u) => MemberShrinks(t, u, o, Member, u);
    case RevokeLocalLate(u, o) => MemberShrinks(t, u, o, Member, u);
    case DeleteLocalLate(u, o) => MemberShrinks(t, u, o, Member, u);
    case DeleteProjectMember(_, x, u) => DeletedShrinks(t, t.(roles := t.roles - {(u, x)}));
    case DropRoleLate(x, u) => DeletedShrinks(t, t.(roles := t.roles - {(u, x)}));
    case GrantSite(_, u) => SiteShrinks(t, u, Some(step.grantor));
    case RevokeSite(u) => SiteShrinks(t, u, None);
    case DropProject(x) => DeletedShrinks(t, WithoutProject(t, x));
    case DropOrg(o) => DeletedShrinks(t, WithoutOrg(t, o));
  }

  lemma SiteShrinks(t: Tables, u: User, grant: Option<Option<User>>)
    requires u in t.users
    ensures Shrinks(t, SetSiteGrant(t, u, grant))
  {
  }

  lemma CreateOrgShrinks(t: Tables, actor: User, o: Org)
    ensures Shrinks(t, GrantLocal(WithOrg(t, o), actor, o, Owner, actor))
  {
    MemberShrinks(WithOrg(t, o), actor, o, Owner, actor);
  }

  /** A creator's role is the one that allows everything. */
  lemma CreatorRoleWithin(t: Tables, actor: User, o: Org, x: Project)
    requires KeysWithin(t)
    ensures KeysWithin(CreatorRole(t.(projects := t.projects[x := o]), actor, o, x))
  {
    var t' := CreatorRole(t.(projects := t.projects[x := o]), actor, o, x);
    TriggeredShape(t.(projects := t.projects[x := o]), t.(projects := t.projects[x := o], roles := t.roles[(actor, x) := ProjectAdmin]));
    forall i | i in t'.keys ensures Within(t'.keys[i], t'.roles) { assert Within(t.keys[i], t.roles); }
  }

  lemma GrowthWithin(t: Tables, step: Step)
    requires KeysWithin(t) && Enabled(t, step) && MayGrowRoles(step)
    ensures KeysWithin(Next(t, step))
  {
    match step
    case PutProjectMember(_, x, u, role) => DowngradeWithin(t, u, x, role);
    case SetRoleLate(x, u, role) => DowngradeWithin(t, u, x, role);
    case CreateProject(actor, o, x) => CreatorRoleWithin(t, actor, o, x);
    case CreateProjectLate(actor, o, x) => CreatorRoleWithin(t, actor, o, x);
    case CreateOrg(actor, o) => CreateOrgShrinks(t, actor, o); ShrinksKeeps(t, Next(t, step));
  }

  /** Every timely step keeps unrevoked keys within their owner's role. */
  lemma StepWithin(t: Tables, step: Step)
    requires Inv(t) && KeysWithin(t) && Enabled(t, step) && Timely(t, step)
    ensures KeysWithin(Next(t, step))
  {
    if MayGrowRoles(step) {
      GrowthWithin(t, step);
    } else if IsKeyStep(step) {
      KeyStepWithin(t, step);
    } else {
      StepShrinks(t, step);
      ShrinksKeeps(t, Next(t, step));
    }
  }

  /** A mint that was overtaken leaves a live key above its owner's role. */
  lemma UntimelyExceeds(t: Tables, step: Step)
    requires Enabled(t, step) && !Timely(t, step)
    ensures !KeysWithin(Next(t, step))
  {
    var t' := Next(t, step);
    assert !Within(t'.keys[step.key], t'.roles);
  }

  ghost predicate AllWithin(states: seq<Tables>) {
    forall i :: 0 <= i < |states| ==> KeysWithin(states[i])
  }

  ghost predicate AllTimely(states: seq<Tables>, steps: seq<Step>, n: nat)
    requires n <= |states| && n <= |steps|
  {
    forall i :: 0 <= i < n ==> Timely(states[i], steps[i])
  }

  lemma {:induction false} TimelyWithin(states: seq<Tables>, steps: seq<Step>, i: nat)
    requires IsRun(states, steps) && i < |states| && AllTimely(states, steps, i)
    ensures KeysWithin(states[i])
  {
    if i > 0 {
      TimelyWithin(states, steps, i - 1);
      RunKeeps(states, steps, i - 1);
      assert Follows(states[i - 1], steps[i - 1], states[(i - 1) + 1]);
      StepWithin(states[i - 1], steps[i - 1]);
    }
  }

  lemma UntimelyRun(states: seq<Tables>, steps: seq<Step>, i: nat)
    requires IsRun(states, steps) && i < |steps| && !Timely(states[i], steps[i])
    ensures !KeysWithin(states[i + 1])
  {
    assert Follows(states[i], steps[i], states[i + 1]);
    UntimelyExceeds(states[i], steps[i]);
  }

  /**
   The cap on a key's scope holds in every state of a run exactly when no key is inserted
   after the role it was checked against was lowered below its scope.
   */
  lemma KeysWithinIffTimely(states: seq<Tables>, steps: seq<Step>)
    requires IsRun(states, steps)
    ensures AllWithin(states) <==> AllTimely(states, steps, |steps|)
  {
    if AllTimely(states, steps, |steps|) {
      forall i | 0 <= i < |states| ensures KeysWithin(states[i]) { TimelyWithin(states, steps, i); }
    }
    if i :| 0 <= i < |steps| && !Timely(states[i], steps[i]) {
      UntimelyRun(states, steps, i);
    }
  }

  /** The role read, the downgrade with its revocation, and then the insert: a live write key under a reader. */
  lemma MintRace(u: User, x: Project, o: Org, key: KeyId)
    ensures var t := Tables(map[u := UserRow(None, None, 0)], {o}, map[x := o],
                            map[(u, o) := Membership(None, Some(Grant(Admin, u)))], map[(u, x) := Writer], map[]);
            var mint, demote := MintKey(u, key, x, Write), PutProjectMember(u, x, u, Reader);
            && Inv(t) && KeysWithin(t) && Enabled(t, mint) && Enabled(t, demote)
            && var t1 := Next(t, demote);
               && Enabled(t1, LateWrite(t, mint))
               && var k := Next(t1, LateWrite(t, mint)).keys[key];
                  !k.revoked && k.scope == Write && t1.roles[(u, x)] == Reader
  {
    var t := Tables(map[u := UserRow(None, None, 0)], {o}, map[x := o],
                    map[(u, o) := Membership(None, Some(Grant(Admin, u)))], map[(u, x) := Writer], map[]);
    assert o in OrgRolesOf(t, u);
    RoleChangeEffect(t, x, u, Reader, key);
  }

  /** While every mint is timely, an unrevoked key never exceeds what its owner's session may do in the project. */
  lemma LiveKeysWithinOwner(states: seq<Tables>, steps: seq<Step>, i: nat, id: KeyId)
    requires IsRun(states, steps) && i < |states| && id in states[i].keys && !states[i].keys[id].revoked
    requires AllTimely(states, steps, i)
    ensures var t, k := states[i], states[i].keys[id];
            && (k.user, k.project) in t.roles && ScopeWithinRole(k.scope, t.roles[(k.user, k.project)])
            && NoMoreThan(Principal(k.user, ApiKey, Authz(false, map[], map[]),
                                    Some(KeyGrant(k.project, k.scope)), None, Read), SessionFor(t, k.user))
  {
    RunKeeps(states, steps, i);
    TimelyWithin(states, steps, i);
    var t, k := states[i], states[i].keys[id];
    assert Within(k, t.roles);
    assert k.project in LoadAuthz(t, k.user).projects;
    KeyWithinSession(k.user, LoadAuthz(t, k.user), KeyGrant(k.project, k.scope));
  }
}
