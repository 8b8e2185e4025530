/** What each credential may do, said of the rows themselves: nothing but the rows named here opens a door. */
module Capabilities {
  import opened Types
  import opened Roles
  import opened Authority

  // ---- the rows ------------------------------------------------------------

  /** A site role, by group or granted in-app. */
  predicate SiteSource(t: Tables, u: User) {
    u in t.users && (t.users[u].siteClaim.Some? || t.users[u].siteGrant.Some?)
  }

  /** A membership row, whichever half it rests on. */
  predicate MemberOf(t: Tables, u: User, o: Org) {
    o in t.orgs && (u, o) in t.members && (t.members[(u, o)].oidc.Some? || t.members[(u, o)].local.Some?)
  }

  /** One half of the row, or the other, is `role`. */
  predicate Holds(t: Tables, u: User, o: Org, role: OrgRole) {
    && o in t.orgs && (u, o) in t.members
    && var m := t.members[(u, o)];
       || (m.oidc.Some? && m.oidc.value.role == role)
       || (m.local.Some? && m.local.value.role == role)
  }

  predicate RoleOn(t: Tables, u: User, x: Project, role: ProjectRole) {
    x in t.projects && (u, x) in t.roles && t.roles[(u, x)] == role
  }

  predicate AnyRoleOn(t: Tables, u: User, x: Project) {
    RoleOn(t, u, x, Reader) || RoleOn(t, u, x, Writer) || RoleOn(t, u, x, ProjectAdmin)
  }

  lemma LoadedOrg(t: Tables, u: User, o: Org)
    ensures o in LoadAuthz(t, u).orgs <==> MemberOf(t, u, o)
    ensures o in LoadAuthz(t, u).orgs ==>
              && (LoadAuthz(t, u).orgs[o] == Owner <==> Holds(t, u, o, Owner))
              && (LoadAuthz(t, u).orgs[o] != Member <==> Holds(t, u, o, Owner) || Holds(t, u, o, Admin))
  {
  }

  lemma LoadedProject(t: Tables, u: User, x: Project)
    ensures x in LoadAuthz(t, u).projects <==> AnyRoleOn(t, u, x)
    ensures x in LoadAuthz(t, u).projects ==> forall role :: LoadAuthz(t, u).projects[x] == role <==> RoleOn(t, u, x, role)
  {
  }

  // ---- acting as a user ----------------------------------------------------

  /** A signed-in user: the site role opens everything, an org admin's role the org, a project role its project. */
  lemma SessionMay(t: Tables, u: User, o: Org, x: Project)
    ensures var p := SessionFor(t, u);
            var site, runs := SiteSource(t, u), Holds(t, u, o, Admin) || Holds(t, u, o, Owner);
            && (p.IsSiteAdmin() <==> site)
            && (p.CanViewOrg(o) <==> site || MemberOf(t, u, o))
            && (p.CanAdminOrg(o) <==> site || runs)
            && (p.CanOwnOrg(o) <==> site || Holds(t, u, o, Owner))
            && (p.CanReadProject(o, x) <==> site || MemberOf(t, u, o) || AnyRoleOn(t, u, x))
            && (p.CanWriteProject(o, x) <==> site || runs || RoleOn(t, u, x, Writer) || RoleOn(t, u, x, ProjectAdmin))
            && (p.CanAdminProject(o, x) <==> site || runs || RoleOn(t, u, x, ProjectAdmin))
  {
    LoadedOrg(t, u, o);
    LoadedProject(t, u, x);
  }

  /** Their token: no site role, no administration, and writes only by a project role under a write ceiling. */
  lemma TokenMay(t: Tables, u: User, maxScope: Scope, o: Org, x: Project)
    ensures var p := TokenOf(u, LoadAuthz(t, u), maxScope);
            && !p.IsSiteAdmin() && !p.CanAdminOrg(o) && !p.CanOwnOrg(o) && !p.CanAdminProject(o, x)
            && (p.CanViewOrg(o) <==> MemberOf(t, u, o))
            && (p.CanReadProject(o, x) <==> MemberOf(t, u, o) || AnyRoleOn(t, u, x))
            && (p.CanWriteProject(o, x) <==>
                  maxScope == Write && (RoleOn(t, u, x, Writer) || RoleOn(t, u, x, ProjectAdmin)))
  {
    LoadedOrg(t, u, o);
    LoadedProject(t, u, x);
  }

  // ---- answered by a grant -------------------------------------------------

  /** A key opens its own project and no org, whatever its owner's roles are. */
  lemma KeyMay(u: User, authz: Authz, grant: KeyGrant, maxScope: Scope, o: Org, x: Project)
    ensures var p := Principal(u, ApiKey, authz, Some(grant), None, maxScope);
            && !p.IsSiteAdmin() && !p.CanViewOrg(o) && !p.CanAdminOrg(o) && !p.CanOwnOrg(o) && !p.CanAdminProject(o, x)
            && (p.CanReadProject(o, x) <==> x == grant.project)
            && (p.CanWriteProject(o, x) <==> x == grant.project && grant.scope == Write)
  {
  }

  /** A robot opens every project of its own org and of no other. */
  lemma RobotMay(u: User, authz: Authz, grant: RobotGrant, maxScope: Scope, o: Org, x: Project)
    ensures var p := Principal(u, OrgToken, authz, None, Some(grant), maxScope);
            && !p.IsSiteAdmin() && !p.CanViewOrg(o) && !p.CanAdminOrg(o) && !p.CanOwnOrg(o) && !p.CanAdminProject(o, x)
            && (p.CanReadProject(o, x) <==> o == grant.org)
            && (p.CanWriteProject(o, x) <==> o == grant.org && grant.scope == Write)
  {
  }

  /** A credential of neither kind without a grant opens nothing. */
  lemma NoGrantNoAccess(p: Principal, o: Org, x: Project)
    requires p.how.ApiKey? || p.how.OrgToken?
    requires p.key.None? && p.robot.None?
    ensures !p.CanReadProject(o, x) && !p.CanWriteProject(o, x) && !p.CanViewOrg(o) && !p.CanAdminProject(o, x)
  {
  }

  /** The cap on a key: a reader mints read keys, a writer or an admin either. */
  lemma ScopeCap(want: Scope, role: ProjectRole)
    ensures ScopeWithinRole(want, role) <==> want == Read || role == Writer || role == ProjectAdmin
  {
  }

  // ---- who may write what --------------------------------------------------

  /** Every write of the API needs the authority it names, in rows, at the moment of its check. */
  lemma WritesNeedAuthority(t: Tables, step: Step)
    requires Enabled(t, step)
    ensures step.PutOrgMember? || step.DeleteOrgMember? || step.CreateProject? ==>
              SiteSource(t, step.actor) || Holds(t, step.actor, step.o, Admin) || Holds(t, step.actor, step.o, Owner)
    ensures step.PutOrgMember? && step.role == Owner ==> SiteSource(t, step.actor) || Holds(t, step.actor, step.o, Owner)
    ensures (step.PutOrgMember? || step.DeleteOrgMember?) && Holds(t, step.u, step.o, Owner) ==>
              SiteSource(t, step.actor) || Holds(t, step.actor, step.o, Owner)
    ensures step.PutProjectMember? || step.DeleteProjectMember? ==>
              step.x in t.projects &&
              var o := t.projects[step.x];
              || SiteSource(t, step.actor) || Holds(t, step.actor, o, Admin) || Holds(t, step.actor, o, Owner)
              || RoleOn(t, step.actor, step.x, ProjectAdmin)
    ensures step.MintKey? ==>
              (step.u, step.x) in t.roles && (step.scope == Write ==> t.roles[(step.u, step.x)] != Reader)
  {
    match step
    case PutOrgMember(actor, o, u, role) => SessionMay(t, actor, o, 0);
    case DeleteOrgMember(actor, o, u) => SessionMay(t, actor, o, 0);
    case CreateProject(actor, o, x) => SessionMay(t, actor, o, x);
    case PutProjectMember(actor, x, u, role) => SessionMay(t, actor, t.projects[x], x);
    case DeleteProjectMember(actor, x, u) => SessionMay(t, actor, t.projects[x], x);
    case _ =>
  }
}
