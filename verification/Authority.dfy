/**
 The authority tables and every transaction that writes them. Each statement below names
 the columns its query names, with the query's own guards; `Triggered` then bumps the
 authorization epochs as the row triggers do.
 */
module Authority {
  import opened Types
  import opened Roles

  type KeyId = nat

  /** The claim half of a membership; its group is audit only. */
  datatype Claim = Claim(role: OrgRole, group: Option<string>)

  /** The local half of a membership. */
  datatype Grant = Grant(role: OrgRole, grantor: User)

  datatype Membership = Membership(oidc: Option<Claim>, local: Option<Grant>)

  /** `siteClaim` is the site-admin group, `siteGrant` who granted it in-app (None: break-glass). */
  datatype UserRow = UserRow(siteClaim: Option<string>, siteGrant: Option<Option<User>>, epoch: nat)

  datatype Key = Key(user: User, project: Project, scope: Scope, revoked: bool)

  datatype Tables = Tables(
    users: map<User, UserRow>,
    orgs: set<Org>,
    projects: map<Project, Org>,
    members: map<(User, Org), Membership>,
    roles: map<(User, Project), ProjectRole>,
    keys: map<KeyId, Key>)

  /** What a login resolves to: the site-admin group if any, and the claim for each org. */
  datatype Resolved = Resolved(site: Option<string>, orgs: map<Org, Claim>)

  const EMPTY := Tables(map[], {}, map[], map[], map[], map[])

  // ---- effective roles -----------------------------------------------------

  function Greatest(a: OrgRole, b: OrgRole): OrgRole {
    if Rank(a) >= Rank(b) then a else b
  }

  predicate HasSource(m: Membership) {
    m.oidc.Some? || m.local.Some?
  }

  /** GENERATED ALWAYS AS greatest(oidc_role, local_role). */
  function Effective(m: Membership): (r: OrgRole)
    requires HasSource(m)
    ensures m.oidc.Some? ==> Rank(m.oidc.value.role) <= Rank(r)
    ensures m.local.Some? ==> Rank(m.local.value.role) <= Rank(r)
    ensures (m.oidc.Some? && r == m.oidc.value.role) || (m.local.Some? && r == m.local.value.role)
  {
    if m.oidc.None? then m.local.value.role
    else if m.local.None? then m.oidc.value.role
    else Greatest(m.oidc.value.role, m.local.value.role)
  }

  predicate IsSiteAdmin(u: UserRow) {
    u.siteClaim.Some? || u.siteGrant.Some?
  }

  /** ListOrgMembershipsForUser. */
  function OrgRolesOf(t: Tables, u: User): map<Org, OrgRole> {
    map o | o in t.orgs && (u, o) in t.members && HasSource(t.members[(u, o)]) :: Effective(t.members[(u, o)])
  }

  /** ListProjectMembershipsForUser. */
  function ProjectRolesOf(t: Tables, u: User): map<Project, ProjectRole> {
    map x | x in t.projects && (u, x) in t.roles :: t.roles[(u, x)]
  }

  /** loadUserAuthz. */
  function LoadAuthz(t: Tables, u: User): Authz {
    Authz(u in t.users && IsSiteAdmin(t.users[u]), OrgRolesOf(t, u), ProjectRolesOf(t, u))
  }

  // ---- triggers and cascades -----------------------------------------------

  function Sources(t: Tables, k: (User, Org)): Option<(Option<OrgRole>, Option<OrgRole>)> {
    if k !in t.members then None
    else
      var m := t.members[k];
      Some((if m.oidc.Some? then Some(m.oidc.value.role) else None,
            if m.local.Some? then Some(m.local.value.role) else None))
  }

  function RoleRow(t: Tables, k: (User, Project)): Option<ProjectRole> {
    if k in t.roles then Some(t.roles[k]) else None
  }

  function ChangedMembers(t: Tables, t': Tables, u: User): set<(User, Org)> {
    set k | k in t.members.Keys + t'.members.Keys && k.0 == u && Sources(t, k) != Sources(t', k)
  }

  function ChangedRoles(t: Tables, t': Tables, u: User): set<(User, Project)> {
    set k | k in t.roles.Keys + t'.roles.Keys && k.0 == u && RoleRow(t, k) != RoleRow(t', k)
  }

  /** How often one statement fires an epoch trigger for `u`: once per changed row. */
  function Bumps(t: Tables, t': Tables, u: User): nat {
    |ChangedMembers(t, t', u)| + |ChangedRoles(t, t', u)| +
    if u in t.users && u in t'.users &&
       (t.users[u].siteClaim.Some? != t'.users[u].siteClaim.Some? || t.users[u].siteGrant.Some? != t'.users[u].siteGrant.Some?)
    then 1 else 0
  }

  /** The tables after a statement that took `t` to `t'`, with the epochs its triggers wrote. */
  function Triggered(t: Tables, t': Tables): Tables {
    t'.(users := map u | u in t'.users :: t'.users[u].(epoch := t'.users[u].epoch + Bumps(t, t', u)))
  }

  /** ON DELETE CASCADE, from org memberships and projects to project roles to keys. */
  function Cascaded(t: Tables): Tables {
    var roles := map k | k in t.roles && k.1 in t.projects && (k.0, t.projects[k.1]) in t.members :: t.roles[k];
    t.(roles := roles, keys := map i | i in t.keys && (t.keys[i].user, t.keys[i].project) in roles :: t.keys[i])
  }

  /** A DELETE that left the rows of `t1`: the cascade, then the triggers of everything that went. */
  function Deleted(t: Tables, t1: Tables): Tables {
    Triggered(t, Cascaded(t1))
  }

  // ---- statements: the reconciler's ----------------------------------------

  function WithUser(t: Tables, u: User, site: Option<string>): Tables {
    t.(users := t.users[u := if u in t.users then t.users[u].(siteClaim := site) else UserRow(site, None, 0)])
  }

  function UpsertUser(t: Tables, u: User, site: Option<string>): Tables {
    Triggered(t, WithUser(t, u, site))
  }

  /** ReconcileOrgMembershipUpsert, with its value-changed guard. */
  function UpsertClaim(t: Tables, u: User, o: Org, claim: Claim): Tables {
    var row := if (u, o) in t.members then t.members[(u, o)].(oidc := Some(claim)) else Membership(Some(claim), None);
    if (u, o) in t.members && t.members[(u, o)].oidc == Some(claim) then t
    else Triggered(t, t.(members := t.members[(u, o) := row]))
  }

  /** ReconcileOrgMembershipsDelete: dropped by the claims and held by no local grant. */
  predicate Unjustified(t: Tables, u: User, keep: set<Org>, k: (User, Org)) {
    k in t.members && k.0 == u && k.1 !in keep && t.members[k].local.None?
  }

  function DeleteUnjustified(t: Tables, u: User, keep: set<Org>): Tables {
    Deleted(t, t.(members := map k | k in t.members && !Unjustified(t, u, keep, k) :: t.members[k]))
  }

  /** ReconcileOrgMembershipsClearOIDC: dropped by the claims, held up by a local grant. */
  function ClearClaims(t: Tables, u: User, keep: set<Org>): Tables {
    Triggered(t, t.(members := map k | k in t.members ::
      if k.0 == u && k.1 !in keep && t.members[k].local.Some? then t.members[k].(oidc := None) else t.members[k]))
  }

  // ---- statements: the API's -----------------------------------------------

  function GrantLocal(t: Tables, u: User, o: Org, role: OrgRole, grantor: User): Tables {
    var row := if (u, o) in t.members then t.members[(u, o)].(local := Some(Grant(role, grantor)))
               else Membership(None, Some(Grant(role, grantor)));
    Triggered(t, t.(members := t.members[(u, o) := row]))
  }

  /** RevokeOrgMembershipLocal, guarded on oidc_role IS NOT NULL. */
  function RevokeLocal(t: Tables, u: User, o: Org): Tables {
    if (u, o) in t.members && t.members[(u, o)].oidc.Some? then
      Triggered(t, t.(members := t.members[(u, o) := t.members[(u, o)].(local := None)]))
    else t
  }

  /** DeleteLocalOrgMembership, guarded on oidc_role IS NULL. */
  function DeleteLocal(t: Tables, u: User, o: Org): Tables {
    if (u, o) in t.members && t.members[(u, o)].oidc.None? then
      Deleted(t, t.(members := t.members - {(u, o)}))
    else t
  }

  function SetProjectRole(t: Tables, u: User, x: Project, role: ProjectRole): Tables {
    Triggered(t, t.(roles := t.roles[(u, x) := role]))
  }

  /** RevokeAPIKeysForMembership. */
  function RevokeKeys(t: Tables, u: User, x: Project, scopes: set<Scope>): Tables {
    t.(keys := map i | i in t.keys ::
      if t.keys[i].user == u && t.keys[i].project == x && t.keys[i].scope in scopes then t.keys[i].(revoked := true)
      else t.keys[i])
  }

  function DropProjectRole(t: Tables, u: User, x: Project): Tables {
    Deleted(t, t.(roles := t.roles - {(u, x)}))
  }

  function SetSiteGrant(t: Tables, u: User, grant: Option<Option<User>>): Tables
    requires u in t.users
  {
    Triggered(t, t.(users := t.users[u := t.users[u].(siteGrant := grant)]))
  }

  /** GrantProjectMembershipToCreator: a no-op for a creator who is no member of the org. */
  function CreatorRole(t: Tables, actor: User, o: Org, x: Project): Tables {
    if (actor, o) in t.members then SetProjectRole(t, actor, x, ProjectAdmin) else t
  }

  function Exceeding(role: ProjectRole): set<Scope> {
    set s | s in {Read, Write} && !ScopeWithinRole(s, role)
  }

  // ---- transactions --------------------------------------------------------

  datatype Step =
    | Login(u: User, res: Resolved)
    | PutOrgMember(actor: User, o: Org, u: User, role: OrgRole)
    | DeleteOrgMember(actor: User, o: Org, u: User)
    | PutProjectMember(actor: User, x: Project, u: User, projectRole: ProjectRole)
    | DeleteProjectMember(actor: User, x: Project, u: User)
    | MintKey(u: User, key: KeyId, x: Project, scope: Scope)
    | RevokeKey(key: KeyId)
    | PurgeKey(key: KeyId)
    | GrantSite(grantor: Option<User>, u: User)
    | RevokeSite(u: User)
    | CreateOrg(actor: User, o: Org)
    | CreateProject(actor: User, o: Org, x: Project)
    | DropProject(x: Project)
    | DropOrg(o: Org)
    // The write of a handler alone: its checks were made on a read that may be out of date.
    | GrantLocalLate(actor: User, o: Org, u: User, role: OrgRole)
    | RevokeLocalLate(u: User, o: Org)
    | DeleteLocalLate(u: User, o: Org)
    | SetRoleLate(x: Project, u: User, projectRole: ProjectRole)
    | DropRoleLate(x: Project, u: User)
    | MintKeyLate(u: User, key: KeyId, x: Project, scope: Scope)
    | CreateProjectLate(actor: User, o: Org, x: Project)

  function SessionFor(t: Tables, u: User): Principal {
    SessionOf(u, LoadAuthz(t, u))
  }

  /** The writes of a login, after the orgs it names were ensured: upsert, then delete, then clear. */
  function Reconciled(t: Tables, u: User, res: Resolved): Tables {
    ClearClaims(DeleteUnjustified(Claimed(t, u, res), u, res.orgs.Keys), u, res.orgs.Keys)
  }

  /** The rows the claims name, each with its local half untouched. */
  function ClaimRows(t: Tables, u: User, res: Resolved): map<(User, Org), Membership> {
    map o | o in res.orgs :: (u, o) := Membership(Some(res.orgs[o]), if (u, o) in t.members then t.members[(u, o)].local else None)
  }

  /** The tables once the user row is written and the orgs ensured. */
  function Admitted(t: Tables, u: User, res: Resolved): Tables {
    UpsertUser(t, u, res.site).(orgs := t.orgs + res.orgs.Keys)
  }

  /** All the upserts at once; they touch distinct rows. */
  function Claimed(t: Tables, u: User, res: Resolved): Tables {
    var t1 := Admitted(t, u, res);
    Triggered(t1, t1.(members := t1.members + ClaimRows(t1, u, res)))
  }

  /** An owner may be written over only by someone who could own the org. */
  predicate MayWrite(t: Tables, actor: User, o: Org, u: User) {
    (u, o) in t.members && HasSource(t.members[(u, o)]) && Effective(t.members[(u, o)]) == Owner ==>
      SessionFor(t, actor).CanOwnOrg(o)
  }

  function WithOrg(t: Tables, o: Org): Tables {
    t.(orgs := t.orgs + {o})
  }

  function WithoutProject(t: Tables, x: Project): Tables {
    t.(projects := t.projects - {x})
  }

  function WithoutOrg(t: Tables, o: Org): Tables {
    t.(orgs := t.orgs - {o}, members := map k | k in t.members && k.1 != o :: t.members[k])
  }

  /** When a transaction goes through: the handler's checks, the foreign keys and the query's guards. */
  predicate Enabled(t: Tables, step: Step) {
    match step
    case Login(u, res) => true
    case PutOrgMember(actor, o, u, role) =>
      && o in t.orgs && u in t.users && SessionFor(t, actor).CanAdminOrg(o) && MayWrite(t, actor, o, u)
      && (role == Owner ==> SessionFor(t, actor).CanOwnOrg(o))
    case DeleteOrgMember(actor, o, u) =>
      && SessionFor(t, actor).CanAdminOrg(o) && (u, o) in t.members && MayWrite(t, actor, o, u)
      && t.members[(u, o)].local.Some?
    case PutProjectMember(actor, x, u, role) =>
      x in t.projects && SessionFor(t, actor).CanAdminProject(t.projects[x], x) && (u, t.projects[x]) in t.members
    case DeleteProjectMember(actor, x, u) =>
      x in t.projects && SessionFor(t, actor).CanAdminProject(t.projects[x], x) && (u, t.projects[x]) in t.members
    case MintKey(u, key, x, scope) =>
      key !in t.keys && (u, x) in t.roles && ScopeWithinRole(scope, t.roles[(u, x)])
    case RevokeKey(key) => key in t.keys
    case PurgeKey(key) => key in t.keys && t.keys[key].revoked
    case GrantSite(grantor, u) => u in t.users
    case RevokeSite(u) => u in t.users && t.users[u].siteGrant.Some?
    case CreateOrg(actor, o) => o !in t.orgs && actor in t.users
    case CreateProject(actor, o, x) => o in t.orgs && x !in t.projects && SessionFor(t, actor).CanAdminOrg(o)
    case DropProject(x) => true
    case DropOrg(o) => o !in t.projects.Values
    case GrantLocalLate(_, o, u, _) => o in t.orgs && u in t.users
    case RevokeLocalLate(u, o) => true
    case DeleteLocalLate(u, o) => true
    case SetRoleLate(x, u, _) => x in t.projects && (u, t.projects[x]) in t.members
    case DropRoleLate(x, u) => true
    case MintKeyLate(u, key, x, _) => key !in t.keys && (u, x) in t.roles
    case CreateProjectLate(actor, o, x) => o in t.orgs && x !in t.projects
  }

  /** The write of a handler whose checks were made on `read`. */
  function LateWrite(read: Tables, step: Step): Step
    requires Enabled(read, step)
  {
    match step
    case PutOrgMember(actor, o, u, role) => GrantLocalLate(actor, o, u, role)
    case DeleteOrgMember(_, o, u) => if read.members[(u, o)].oidc.Some? then RevokeLocalLate(u, o) else DeleteLocalLate(u, o)
    case PutProjectMember(_, x, u, role) => SetRoleLate(x, u, role)
    case DeleteProjectMember(_, x, u) => DropRoleLate(x, u)
    case MintKey(u, key, x, scope) => MintKeyLate(u, key, x, scope)
    case CreateProject(actor, o, x) => CreateProjectLate(actor, o, x)
    case _ => step
  }

  /** The tables after a transaction that went through; one that is refused changes nothing and is no step. */
  function Next(t: Tables, step: Step): Tables
    requires Enabled(t, step)
  {
    match step
    case Login(u, res) => Reconciled(t, u, res)
    case PutOrgMember(actor, o, u, role) => GrantLocal(t, u, o, role, actor)
    case DeleteOrgMember(actor, o, u) =>
      if t.members[(u, o)].oidc.Some? then RevokeLocal(t, u, o) else DeleteLocal(t, u, o)
    case PutProjectMember(actor, x, u, role) => RevokeKeys(SetProjectRole(t, u, x, role), u, x, Exceeding(role))
    case DeleteProjectMember(actor, x, u) => DropProjectRole(t, u, x)
    case MintKey(u, key, x, scope) => t.(keys := t.keys[key := Key(u, x, scope, false)])
    case RevokeKey(key) => t.(keys := t.keys[key := t.keys[key].(revoked := true)])
    case PurgeKey(key) => t.(keys := t.keys - {key})
    case GrantSite(grantor, u) => SetSiteGrant(t, u, Some(grantor))
    case RevokeSite(u) => SetSiteGrant(t, u, None)
    case CreateOrg(actor, o) => GrantLocal(WithOrg(t, o), actor, o, Owner, actor)
    case CreateProject(actor, o, x) => CreatorRole(t.(projects := t.projects[x := o]), actor, o, x)
    case DropProject(x) => Deleted(t, WithoutProject(t, x))
    case DropOrg(o) => Deleted(t, WithoutOrg(t, o))
    case GrantLocalLate(actor, o, u, role) => GrantLocal(t, u, o, role, actor)
    case RevokeLocalLate(u, o) => RevokeLocal(t, u, o)
    case DeleteLocalLate(u, o) => DeleteLocal(t, u, o)
    case SetRoleLate(x, u, role) => RevokeKeys(SetProjectRole(t, u, x, role), u, x, Exceeding(role))
    case DropRoleLate(x, u) => DropProjectRole(t, u, x)
    case MintKeyLate(u, key, x, scope) => t.(keys := t.keys[key := Key(u, x, scope, false)])
    case CreateProjectLate(actor, o, x) => CreatorRole(t.(projects := t.projects[x := o]), actor, o, x)
  }

  predicate Follows(t: Tables, step: Step, t': Tables) {
    Enabled(t, step) && t' == Next(t, step)
  }

  ghost predicate IsRun(states: seq<Tables>, steps: seq<Step>) {
    && |states| == |steps| + 1 && states[0] == EMPTY
    && forall i :: 0 <= i < |steps| ==> Follows(states[i], steps[i], states[i + 1])
  }

  // ---- the invariant -------------------------------------------------------

  ghost predicate MembersOk(t: Tables) {
    forall k :: k in t.members ==> k.0 in t.users && k.1 in t.orgs && HasSource(t.members[k])
  }

  /** Every project belongs to an org, and a project role is held only by a member of that org. */
  ghost predicate RolesOk(t: Tables) {
    && (forall x :: x in t.projects ==> t.projects[x] in t.orgs)
    && (forall k :: k in t.roles ==> k.1 in t.projects && (k.0, t.projects[k.1]) in t.members)
  }

  /** A key is held only under a project role. */
  ghost predicate KeysOk(t: Tables) {
    forall i :: i in t.keys ==> (t.keys[i].user, t.keys[i].project) in t.roles
  }

  ghost predicate Inv(t: Tables) {
    MembersOk(t) && RolesOk(t) && KeysOk(t)
  }

  /** What its owner's project role allows the key, while it is unrevoked. */
  predicate Within(k: Key, roles: map<(User, Project), ProjectRole>) {
    !k.revoked && (k.user, k.project) in roles ==> ScopeWithinRole(k.scope, roles[(k.user, k.project)])
  }

  ghost predicate KeysWithin(t: Tables) {
    forall i :: i in t.keys ==> Within(t.keys[i], t.roles)
  }

  /** A key inserted late is timely when the role it was checked against is still enough. Every other step is timely. */
  predicate Timely(t: Tables, step: Step) {
    step.MintKeyLate? && (step.u, step.x) in t.roles ==> ScopeWithinRole(step.scope, t.roles[(step.u, step.x)])
  }
}
