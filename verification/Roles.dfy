/** Roles, scopes and what a principal may do with them. */
module Roles {
  import opened Types

  type User = nat
  type Org = nat
  type Project = nat

  // Each enum in the order the schema declares it, which is the order `greatest` uses.
  datatype OrgRole = Member | Admin | Owner
  datatype ProjectRole = Reader | Writer | ProjectAdmin
  datatype Scope = Read | Write

  function Rank(r: OrgRole): nat {
    match r
    case Member => 0
    case Admin => 1
    case Owner => 2
  }

  function MaxScopeForRole(role: ProjectRole): Scope {
    if role == Writer || role == ProjectAdmin then Write else Read
  }

  predicate ScopeWithinRole(want: Scope, role: ProjectRole) {
    want == Read || MaxScopeForRole(role) == Write
  }

  /** Everything the three role reads return for one human. */
  datatype Authz = Authz(siteAdmin: bool, orgs: map<Org, OrgRole>, projects: map<Project, ProjectRole>)

  datatype Method = Session | Bearer | DevLogin | UserToken | ApiKey | OrgToken

  datatype KeyGrant = KeyGrant(project: Project, scope: Scope)
  datatype RobotGrant = RobotGrant(org: Org, scope: Scope)

  datatype Principal = Principal(user: User, how: Method, authz: Authz, key: Option<KeyGrant>,
                                 robot: Option<RobotGrant>, maxScope: Scope)
  {
    predicate IsInteractive() { how.Session? || how.Bearer? || how.DevLogin? }

    predicate ActsAsUser() { IsInteractive() || how.UserToken? }

    predicate IsSiteAdmin() { IsInteractive() && authz.siteAdmin }

    predicate CanViewOrg(org: Org) {
      ActsAsUser() && (IsSiteAdmin() || org in authz.orgs)
    }

    predicate CanAdminOrg(org: Org) {
      IsInteractive() && (IsSiteAdmin() || (org in authz.orgs && authz.orgs[org] != Member))
    }

    predicate CanOwnOrg(org: Org) {
      IsInteractive() && (IsSiteAdmin() || (org in authz.orgs && authz.orgs[org] == Owner))
    }

    predicate CanReadProject(org: Org, project: Project) {
      if !ActsAsUser() then Grants(org, project, Read)
      else IsSiteAdmin() || org in authz.orgs || project in authz.projects
    }

    predicate CanWriteProject(org: Org, project: Project) {
      if !ActsAsUser() then Grants(org, project, Write)
      else if IsInteractive() && CanAdminOrg(org) then true
      else if !IsInteractive() && maxScope != Write then false
      else project in authz.projects && authz.projects[project] != Reader
    }

    predicate CanAdminProject(org: Org, project: Project) {
      IsInteractive() &&
      (CanAdminOrg(org) || (project in authz.projects && authz.projects[project] == ProjectAdmin))
    }

    predicate Grants(org: Org, project: Project, want: Scope) {
      if robot.Some? then robot.value.org == org && (want == Write ==> robot.value.scope == Write)
      else key.Some? && key.value.project == project && (want == Write ==> key.value.scope == Write)
    }
  }

  function SessionOf(u: User, authz: Authz): Principal {
    Principal(u, Session, authz, None, None, Write)
  }

  function TokenOf(u: User, authz: Authz, maxScope: Scope): Principal {
    Principal(u, UserToken, authz, None, None, maxScope)
  }

  /** `p` can do nothing that `q` cannot. */
  ghost predicate NoMoreThan(p: Principal, q: Principal) {
    && (p.IsSiteAdmin() ==> q.IsSiteAdmin())
    && (forall o :: p.CanViewOrg(o) ==> q.CanViewOrg(o))
    && (forall o :: p.CanAdminOrg(o) ==> q.CanAdminOrg(o))
    && (forall o :: p.CanOwnOrg(o) ==> q.CanOwnOrg(o))
    && (forall o, x :: p.CanReadProject(o, x) ==> q.CanReadProject(o, x))
    && (forall o, x :: p.CanWriteProject(o, x) ==> q.CanWriteProject(o, x))
    && (forall o, x :: p.CanAdminProject(o, x) ==> q.CanAdminProject(o, x))
  }

  /**
   A token is a delegation: whatever it may do, a session of its owner on the same roles
   may do; it administers nothing, and with a read ceiling it never writes.
   */
  lemma TokenWithinSession(u: User, authz: Authz, maxScope: Scope)
    ensures NoMoreThan(TokenOf(u, authz, maxScope), SessionOf(u, authz))
    ensures forall o :: !TokenOf(u, authz, maxScope).CanAdminOrg(o)
    ensures forall o, x :: !TokenOf(u, authz, maxScope).CanAdminProject(o, x)
    ensures maxScope == Read ==> forall o, x :: !TokenOf(u, authz, maxScope).CanWriteProject(o, x)
  {
  }

  /**
   An API key stays within its owner's session while its scope is within a project role
   the owner holds; the two conditions are the ones the schema and the minting cap keep.
   */
  lemma KeyWithinSession(u: User, authz: Authz, grant: KeyGrant)
    requires grant.project in authz.projects && ScopeWithinRole(grant.scope, authz.projects[grant.project])
    ensures NoMoreThan(Principal(u, ApiKey, Authz(false, map[], map[]), Some(grant), None, Read), SessionOf(u, authz))
  {
  }
}
