/** The login reconciliation and the membership handlers, statement by statement, over the tables. */
module AuthService {
  import opened Types
  import opened Roles
  import opened Authority
  import opened AuthorityProofs
  import opened AuthorityLaws
  import G = GroupMaps
  import Epochs

  // ---- the upserts, one org at a time --------------------------------------

  function Only(res: Resolved, done: set<Org>): Resolved {
    res.(orgs := map o | o in res.orgs && o in done :: res.orgs[o])
  }

  function WithClaims(t: Tables, u: User, res: Resolved): Tables {
    t.(members := t.members + ClaimRows(t, u, res))
  }

  /** The tables after the upserts for the orgs of `done`. */
  function ClaimedSome(t: Tables, u: User, res: Resolved, done: set<Org>): Tables {
    Triggered(t, WithClaims(t, u, Only(res, done)))
  }

  /** The row the upsert of `o` writes over `t`. */
  function RowFor(t: Tables, u: User, res: Resolved, o: Org): Membership
    requires o in res.orgs
  {
    Membership(Some(res.orgs[o]), if (u, o) in t.members then t.members[(u, o)].local else None)
  }

  lemma ClaimRow(t: Tables, u: User, res: Resolved, done: set<Org>, k: (User, Org))
    ensures MemberRow(WithClaims(t, u, Only(res, done)), k) ==
            if ClaimedBy(u, res, done, k) then Some(RowFor(t, u, res, k.1)) else MemberRow(t, k)
  {
    assert k == (k.0, k.1);
  }

  function WithRow(t: Tables, k: (User, Org), row: Membership): Tables {
    t.(members := t.members[k := row])
  }

  lemma OneMoreRow(t: Tables, u: User, res: Resolved, done: set<Org>, o: Org)
    requires o in res.orgs && o !in done
    ensures var a, b := WithClaims(t, u, Only(res, done)), WithClaims(t, u, Only(res, done + {o}));
            b == WithRow(a, (u, o), RowFor(t, u, res, o)) && MemberRow(a, (u, o)) == MemberRow(t, (u, o))
  {
    var a, b := WithClaims(t, u, Only(res, done)), WithClaims(t, u, Only(res, done + {o}));
    var x := WithRow(a, (u, o), RowFor(t, u, res, o));
    ClaimRow(t, u, res, done, (u, o));
    forall k { OneMoreAt(t, u, res, done, o, k); }
    SameMemberRows(x, b);
  }

  lemma OneMoreAt(t: Tables, u: User, res: Resolved, done: set<Org>, o: Org, k: (User, Org))
    requires o in res.orgs && o !in done
    ensures MemberRow(WithClaims(t, u, Only(res, done + {o})), k) ==
            MemberRow(WithRow(WithClaims(t, u, Only(res, done)), (u, o), RowFor(t, u, res, o)), k)
  {
    ClaimRow(t, u, res, done, k);
    ClaimRow(t, u, res, done + {o}, k);
    OneMoreRowValue(t, u, res, done, o, WithClaims(t, u, Only(res, done)), WithClaims(t, u, Only(res, done + {o})), k);
  }

  predicate ClaimedBy(u: User, res: Resolved, done: set<Org>, k: (User, Org)) {
    k.0 == u && k.1 in res.orgs && k.1 in done
  }

  lemma OneMoreRowValue(t: Tables, u: User, res: Resolved, done: set<Org>, o: Org, a: Tables, b: Tables, k: (User, Org))
    requires o in res.orgs && o !in done
    requires MemberRow(a, k) == if ClaimedBy(u, res, done, k) then Some(RowFor(t, u, res, k.1)) else MemberRow(t, k)
    requires MemberRow(b, k) == if ClaimedBy(u, res, done + {o}, k) then Some(RowFor(t, u, res, k.1)) else MemberRow(t, k)
    ensures MemberRow(b, k) == MemberRow(WithRow(a, (u, o), RowFor(t, u, res, o)), k)
  {
    assert k == (k.0, k.1);
  }

  lemma ChangedAdd(t: Tables, a: Tables, k: (User, Org), row: Membership, v: User)
    requires Sources(a, k) == Sources(t, k)
    ensures var b := WithRow(a, k, row);
            |ChangedMembers(t, b, v)| == |ChangedMembers(t, a, v)| + |ChangedMembers(a, b, v)|
  {
    var b := WithRow(a, k, row);
    var before, after, step := ChangedMembers(t, a, v), ChangedMembers(t, b, v), ChangedMembers(a, b, v);
    forall j { ChangedRow(t, a, k, row, v, j); }
    assert after == before + step && before !! step;
  }

  lemma ChangedRow(t: Tables, a: Tables, k: (User, Org), row: Membership, v: User, j: (User, Org))
    requires Sources(a, k) == Sources(t, k)
    ensures var b := WithRow(a, k, row);
            && (j in ChangedMembers(t, b, v) <==> j in ChangedMembers(t, a, v) || j in ChangedMembers(a, b, v))
            && !(j in ChangedMembers(t, a, v) && j in ChangedMembers(a, b, v))
  {
    var b := WithRow(a, k, row);
    ChangedIff(t, a, v, j);
    ChangedIff(t, b, v, j);
    ChangedIff(a, b, v, j);
    assert j != k ==> Sources(b, j) == Sources(a, j);
  }

  lemma ChangedIff(t: Tables, t': Tables, v: User, j: (User, Org))
    ensures j in ChangedMembers(t, t', v) <==> j.0 == v && Sources(t, j) != Sources(t', j)
  {
  }

  /** A statement that rewrites one more row fires the triggers the combined statement would: epochs add up. */
  lemma BumpsAdd(t: Tables, a: Tables, k: (User, Org), row: Membership, v: User)
    requires a.users == t.users && a.roles == t.roles && Sources(a, k) == Sources(t, k)
    ensures Bumps(t, WithRow(a, k, row), v) == Bumps(t, a, v) + Bumps(a, WithRow(a, k, row), v)
  {
    ChangedAdd(t, a, k, row, v);
    var b := WithRow(a, k, row);
    assert ChangedRoles(t, a, v) == {} && ChangedRoles(t, b, v) == {} && ChangedRoles(a, b, v) == {};
  }

  lemma BumpsBySources(a: Tables, a': Tables, b: Tables, b': Tables, v: User)
    requires a.members == a'.members && a.roles == a'.roles && b.members == b'.members && b.roles == b'.roles
    requires a.users.Keys == a'.users.Keys && b.users.Keys == b'.users.Keys
    requires v in a.users ==> a.users[v].siteClaim == a'.users[v].siteClaim && a.users[v].siteGrant == a'.users[v].siteGrant
    requires v in b.users ==> b.users[v].siteClaim == b'.users[v].siteClaim && b.users[v].siteGrant == b'.users[v].siteGrant
    ensures Bumps(a, b, v) == Bumps(a', b', v)
  {
    assert ChangedMembers(a, b, v) == ChangedMembers(a', b', v);
    assert ChangedRoles(a, b, v) == ChangedRoles(a', b', v);
  }

  lemma NothingBumped(a: Tables, v: User)
    ensures Bumps(a, a, v) == 0
  {
    assert ChangedMembers(a, a, v) == {} && ChangedRoles(a, a, v) == {};
  }

  /** The epochs after the upserts so far and one more. */
  lemma UpsertEpochs(t: Tables, a: Tables, cur: Tables, k: (User, Org), row: Membership, v: User)
    requires a.users == t.users && a.roles == t.roles && Sources(a, k) == Sources(t, k) && v in t.users
    requires cur == Triggered(t, a)
    ensures v in cur.users && t.users[v].epoch + Bumps(t, WithRow(a, k, row), v) == cur.users[v].epoch + Bumps(cur, WithRow(cur, k, row), v)
  {
    TriggeredShape(t, a);
    BumpsAdd(t, a, k, row, v);
    BumpsBySources(a, cur, WithRow(a, k, row), WithRow(cur, k, row), v);
  }

  lemma UserRowsAgree(t: Tables, a: Tables, k: (User, Org), row: Membership, v: User)
    requires a.users == t.users && a.roles == t.roles && Sources(a, k) == Sources(t, k) && v in t.users
    ensures var cur := Triggered(t, a);
            var x, y := Triggered(cur, WithRow(cur, k, row)), Triggered(t, WithRow(a, k, row));
            v in x.users && v in y.users && x.users[v] == y.users[v]
  {
    var cur := Triggered(t, a);
    UpsertEpochs(t, a, cur, k, row, v);
    TriggeredRow(t, a, v);
    TriggeredRow(cur, WithRow(cur, k, row), v);
    TriggeredRow(t, WithRow(a, k, row), v);
  }

  lemma WithRowTriggered(t: Tables, a: Tables, k: (User, Org), row: Membership)
    requires a.users == t.users && a.roles == t.roles && Sources(a, k) == Sources(t, k)
    ensures var cur := Triggered(t, a); Triggered(cur, WithRow(cur, k, row)) == Triggered(t, WithRow(a, k, row))
  {
    var cur := Triggered(t, a);
    var x, y := Triggered(cur, WithRow(cur, k, row)), Triggered(t, WithRow(a, k, row));
    TriggeredShape(t, a);
    TriggeredShape(cur, WithRow(cur, k, row));
    TriggeredShape(t, WithRow(a, k, row));
    forall v | v in t.users { UserRowsAgree(t, a, k, row, v); }
    SameTables(x, y);
  }

  lemma SameTables(x: Tables, y: Tables)
    requires x.users.Keys == y.users.Keys && forall v :: v in x.users ==> x.users[v] == y.users[v]
    requires x.orgs == y.orgs && x.projects == y.projects && x.members == y.members && x.roles == y.roles && x.keys == y.keys
    ensures x == y
  {
    assert x.users == y.users;
  }

  lemma TriggeredRow(t: Tables, t': Tables, v: User)
    requires v in t'.users
    ensures v in Triggered(t, t').users
    ensures Triggered(t, t').users[v] == t'.users[v].(epoch := t'.users[v].epoch + Bumps(t, t', v))
  {
  }

  lemma RewriteNothing(t: Tables, k: (User, Org))
    requires k in t.members
    ensures Triggered(t, WithRow(t, k, t.members[k])) == t
  {
    assert WithRow(t, k, t.members[k]) == t;
    forall v | v in t.users ensures Bumps(t, t, v) == 0 { NothingBumped(t, v); }
    assert Triggered(t, t).users == t.users;
  }

  /** One ReconcileOrgMembershipUpsert, whether its value-changed guard fires or not. */
  lemma UpsertNext(t: Tables, u: User, res: Resolved, done: set<Org>, o: Org)
    requires o in res.orgs && o !in done
    ensures UpsertClaim(ClaimedSome(t, u, res, done), u, o, res.orgs[o]) == ClaimedSome(t, u, res, done + {o})
  {
    var a, cur := WithClaims(t, u, Only(res, done)), ClaimedSome(t, u, res, done);
    var k, row := (u, o), RowFor(t, u, res, o);
    OneMoreRow(t, u, res, done, o);
    TriggeredShape(t, a);
    WithRowTriggered(t, a, k, row);
    assert MemberRow(cur, k) == MemberRow(t, k);
    if k in cur.members && cur.members[k].oidc == Some(res.orgs[o]) {
      assert cur.members[k] == row;
      RewriteNothing(cur, k);
    }
  }

  lemma ClaimedNone(t: Tables, u: User, res: Resolved)
    ensures ClaimedSome(t, u, res, {}) == t
  {
    assert WithClaims(t, u, Only(res, {})).members == t.members;
    assert WithClaims(t, u, Only(res, {})) == t;
    forall v | v in t.users ensures Bumps(t, t, v) == 0 { NothingBumped(t, v); }
    SameTables(Triggered(t, t), t);
  }

  lemma ClaimedAll(t: Tables, u: User, res: Resolved)
    ensures ClaimedSome(Admitted(t, u, res), u, res, res.orgs.Keys) == Claimed(t, u, res)
  {
    assert Only(res, res.orgs.Keys).orgs == res.orgs;
    assert Only(res, res.orgs.Keys) == res;
  }

  lemma RestShrinks(all: set<Org>, rest: set<Org>, done: set<Org>, o: Org)
    requires rest <= all && done == all - rest && o in rest
    ensures done + {o} == all - (rest - {o}) && o in all && o !in done && rest - {o} < rest
  {
  }

  lemma AdmittedIs(t: Tables, u: User, res: Resolved)
    ensures var t1 := UpsertUser(t, u, res.site);
            t1.(orgs := t1.orgs + res.orgs.Keys) == Admitted(t, u, res)
  {
  }

  // ---- from a resolution to rows -------------------------------------------

  /** orgRole: an unknown spelling is the least privileged. */
  function OrgRoleOf(r: G.RoleName): OrgRole {
    match r
    case OwnerName => Owner
    case AdminName => Admin
    case MemberName => Member
    case Other(_) => Member
  }

  ghost predicate Injective(idOf: string -> Org) {
    forall a, b :: idOf(a) == idOf(b) ==> a == b
  }

  /** Text columns hold NULL for "". */
  function Text(s: string): Option<string> {
    if s == "" then None else Some(s)
  }

  /** The rows a resolution asks for, under the id of each org's slug. */
  function ToRows(r: G.Resolution, idOf: string -> Org): Resolved
    requires Injective(idOf) && r.orgs.Keys == r.orgGroups.Keys
  {
    Resolved(if r.siteAdmin then Some(r.siteGroup) else None,
             map slug | slug in r.orgs :: idOf(slug) := Claim(OrgRoleOf(r.orgs[slug]), Text(r.orgGroups[slug])))
  }

  /** Two logins with one claim ask for the same roles, whatever order either resolution read the file in. */
  lemma SameClaimSameRows(g: G.GroupMap, claim: G.Claim, a: G.Resolution, b: G.Resolution, idOf: string -> Org)
    requires Injective(idOf) && G.Resolves(g, claim, a) && G.Resolves(g, claim, b)
    ensures SameClaims(ToRows(a, idOf), ToRows(b, idOf))
  {
    G.ResolutionsAgree(g, claim, a, b);
    var x, y := ToRows(a, idOf), ToRows(b, idOf);
    forall o ensures o in x.orgs <==> o in y.orgs {
      if o in x.orgs { var slug :| slug in a.orgs && idOf(slug) == o; }
      if o in y.orgs { var slug :| slug in b.orgs && idOf(slug) == o; }
    }
    forall o | o in x.orgs ensures x.orgs[o].role == y.orgs[o].role {
      var slug :| slug in a.orgs && idOf(slug) == o;
    }
  }

  // ---- what the file says --------------------------------------------------

  /** Some claimed group is mapped to `role` in the file's entry for `slug`. */
  ghost predicate Grants(g: G.GroupMap, claim: G.Claim, slug: string, role: G.RoleName) {
    exists name :: Grant(g, claim, slug, role, name)
  }

  ghost predicate Grant(g: G.GroupMap, claim: G.Claim, slug: string, role: G.RoleName, name: string) {
    name in claim.groups && exists i :: 0 <= i < |g.orgs| && Maps(g.orgs[i], slug, name, role)
  }

  predicate Maps(e: G.OrgEntry, slug: string, name: string, role: G.RoleName) {
    e.slug == slug && name in e.groups && e.groups[name] == role
  }

  /** The claim half the file gives a claim in the org of `slug`: the greatest role granted, and a group that grants it. */
  ghost predicate FileSays(g: G.GroupMap, claim: G.Claim, slug: string, c: Option<Claim>) {
    var owner, admin, member :=
      Grants(g, claim, slug, G.OwnerName), Grants(g, claim, slug, G.AdminName), Grants(g, claim, slug, G.MemberName);
    && (c.Some? <==> owner || admin || member)
    && (c.Some? ==>
          && c.value.role == (if owner then Owner else if admin then Admin else Member)
          && exists name :: c.value.group == (if name == "" then None else Some(name)) &&
               Grant(g, claim, slug, if owner then G.OwnerName else if admin then G.AdminName else G.MemberName, name))
  }

  /** The first site-admin group of the file that is claimed. */
  ghost predicate SiteSays(g: G.GroupMap, claim: G.Claim, c: Option<string>) {
    if c.Some? then
      exists i :: 0 <= i < |g.siteAdminGroups| && g.siteAdminGroups[i] == c.value && c.value in claim.groups
        && forall j :: 0 <= j < i ==> g.siteAdminGroups[j] !in claim.groups
    else forall i :: 0 <= i < |g.siteAdminGroups| ==> g.siteAdminGroups[i] !in claim.groups
  }

  lemma GrantIsGranted(g: G.GroupMap, claim: G.Claim, slug: string, role: G.RoleName, name: string)
    requires !role.Other?
    ensures Grant(g, claim, slug, role, name) <==> G.Granted(slug, name, role) in G.AllGranted(g, G.GroupSet(claim))
  {
    var x := G.Granted(slug, name, role);
    if Grant(g, claim, slug, role, name) {
      var i :| 0 <= i < |g.orgs| && Maps(g.orgs[i], slug, name, role);
      assert (x.name, x.role) in g.orgs[i].groups.Items;
    }
    if x in G.AllGranted(g, G.GroupSet(claim)) {
      var i :| 0 <= i < |g.orgs| && g.orgs[i].slug == slug && (name, role) in g.orgs[i].groups.Items;
      assert Maps(g.orgs[i], slug, name, role);
    }
  }

  /** Whatever is granted for the slug ranks no higher than what the resolution recorded. */
  lemma GrantRanks(g: G.GroupMap, claim: G.Claim, r: G.Resolution, slug: string, role: G.RoleName)
    requires G.Resolves(g, claim, r) && !role.Other? && Grants(g, claim, slug, role)
    ensures slug in r.orgs && G.Rank(role) <= G.Rank(r.orgs[slug])
  {
    var name :| Grant(g, claim, slug, role, name);
    GrantIsGranted(g, claim, slug, role, name);
  }

  lemma RecordedGrants(g: G.GroupMap, claim: G.Claim, r: G.Resolution, slug: string)
    requires G.Resolves(g, claim, r) && slug in r.orgs
    ensures !r.orgs[slug].Other? && Grant(g, claim, slug, r.orgs[slug], r.orgGroups[slug]) && Grants(g, claim, slug, r.orgs[slug])
  {
    var x := G.Granted(slug, r.orgGroups[slug], r.orgs[slug]);
    assert x in G.AllGranted(g, G.GroupSet(claim));
    GrantIsGranted(g, claim, slug, r.orgs[slug], r.orgGroups[slug]);
  }

  function RowClaim(r: G.Resolution, slug: string): Option<Claim>
    requires r.orgs.Keys == r.orgGroups.Keys
  {
    if slug in r.orgs then Some(Claim(OrgRoleOf(r.orgs[slug]), Text(r.orgGroups[slug]))) else None
  }

  lemma RowsAsFiled(g: G.GroupMap, claim: G.Claim, r: G.Resolution, slug: string)
    requires G.Resolves(g, claim, r)
    ensures FileSays(g, claim, slug, RowClaim(r, slug))
  {
    if Grants(g, claim, slug, G.OwnerName) { GrantRanks(g, claim, r, slug, G.OwnerName); }
    if Grants(g, claim, slug, G.AdminName) { GrantRanks(g, claim, r, slug, G.AdminName); }
    if Grants(g, claim, slug, G.MemberName) { GrantRanks(g, claim, r, slug, G.MemberName); }
    if slug in r.orgs { RecordedGrants(g, claim, r, slug); }
  }

  lemma SiteAsFiled(g: G.GroupMap, claim: G.Claim, r: G.Resolution, idOf: string -> Org)
    requires Injective(idOf) && G.Resolves(g, claim, r) && "" !in g.siteAdminGroups
    ensures SiteSays(g, claim, ToRows(r, idOf).site)
  {
    var claimed := G.GroupSet(claim);
    assert forall name :: name in claimed <==> name in claim.groups;
    if r.siteAdmin {
      var i :| 0 <= i < |g.siteAdminGroups| && g.siteAdminGroups[i] == r.siteGroup && r.siteGroup in claimed
        && forall j :: 0 <= j < i ==> g.siteAdminGroups[j] !in claimed;
    }
  }

  lemma RowOfSlug(r: G.Resolution, idOf: string -> Org, slug: string)
    requires Injective(idOf) && r.orgs.Keys == r.orgGroups.Keys
    ensures var rows := ToRows(r, idOf).orgs;
            (if idOf(slug) in rows then Some(rows[idOf(slug)]) else None) == RowClaim(r, slug)
  {
  }

  lemma RowHasSlug(r: G.Resolution, idOf: string -> Org, o: Org)
    requires Injective(idOf) && r.orgs.Keys == r.orgGroups.Keys
    ensures o in ToRows(r, idOf).orgs ==> exists slug :: slug in r.orgs && idOf(slug) == o
  {
  }

  /** A user's claims after a login, as the file gives them: in every org it names, in no other, and for the site. */
  ghost predicate AsFiled(t: Tables, u: User, g: G.GroupMap, claim: G.Claim, idOf: string -> Org) {
    && (forall slug :: FileSays(g, claim, slug, ClaimOf(t, (u, idOf(slug)))))
    && (forall o :: ClaimOf(t, (u, o)).Some? ==> exists slug :: idOf(slug) == o)
    && ("" !in g.siteAdminGroups ==> u in t.users && SiteSays(g, claim, t.users[u].siteClaim))
  }

  lemma LoginClaim(t: Tables, u: User, res: Resolved, o: Org)
    ensures ClaimOf(Reconciled(t, u, res), (u, o)) == if o in res.orgs then Some(res.orgs[o]) else None
  {
    LoginPointwise(t, u, res, (u, o));
    assert ClaimOf(Reconciled(t, u, res), (u, o)) ==
           var row := MemberRow(Reconciled(t, u, res), (u, o)); if row.Some? then row.value.oidc else None;
  }

  /** The user's claim halves and site claim are those asked for. */
  ghost predicate HasClaims(t: Tables, u: User, res: Resolved) {
    && (forall o :: ClaimOf(t, (u, o)) == if o in res.orgs then Some(res.orgs[o]) else None)
    && u in t.users && t.users[u].siteClaim == res.site
  }

  lemma LoginHasClaims(t: Tables, u: User, res: Resolved)
    ensures HasClaims(Reconciled(t, u, res), u, res)
  {
    forall o ensures ClaimOf(Reconciled(t, u, res), (u, o)) == if o in res.orgs then Some(res.orgs[o]) else None {
      LoginClaim(t, u, res, o);
    }
    Epochs.LoginUserRow(t, u, res);
  }

  lemma ClaimsAsFiled(t: Tables, u: User, g: G.GroupMap, claim: G.Claim, r: G.Resolution, idOf: string -> Org)
    requires Injective(idOf) && G.Resolves(g, claim, r) && HasClaims(t, u, ToRows(r, idOf))
    ensures AsFiled(t, u, g, claim, idOf)
  {
    forall slug ensures FileSays(g, claim, slug, ClaimOf(t, (u, idOf(slug)))) {
      RowOfSlug(r, idOf, slug);
      RowsAsFiled(g, claim, r, slug);
    }
    forall o | ClaimOf(t, (u, o)).Some? ensures exists slug :: idOf(slug) == o { RowHasSlug(r, idOf, o); }
    if "" !in g.siteAdminGroups { SiteAsFiled(g, claim, r, idOf); }
  }

  /** scopesExceedingRole: derived from ScopeWithinRole, over both scopes. */
  method ScopesExceedingRole(role: ProjectRole) returns (out: seq<Scope>)
    ensures forall s :: s in out <==> s in Exceeding(role)
    ensures SetOf(out) == Exceeding(role)
  {
    out := [];
    var scopes := [Read, Write];
    for i := 0 to |scopes|
      invariant forall s :: s in out <==> s in scopes[..i] && !ScopeWithinRole(s, role)
    {
      if !ScopeWithinRole(scopes[i], role) {
        out := out + [scopes[i]];
      }
    }
    assert Read == scopes[0] && Write == scopes[1];
    forall s: Scope ensures s in scopes { match s case Read => case Write => }
  }

  function SetOf(scopes: seq<Scope>): set<Scope> {
    set s | s in scopes
  }

  datatype Refusal = NotAllowed | NotFound | Forbidden | ClaimDerived | ScopeExceedsRole | Changed | NoRow

  /** What a removal did: the three outcomes are not interchangeable. */
  datatype Removal = Removed | StillAMember(group: Option<string>) | Refused(why: Refusal)

  /** Whether the member's row has a claim half, if there is a row. */
  function ClaimNow(t: Tables, u: User, o: Org): Option<bool> {
    if (u, o) in t.members then Some(t.members[(u, o)].oidc.Some?) else None
  }

  /**
   What a handler that checked `read` left of the tables: it wrote exactly if its checks passed
   and the database took the write, and then what that write makes of the tables by then.
   */
  ghost predicate Written(read: Tables, step: Step, t: Tables, t': Tables, wrote: bool) {
    && (wrote <==> Enabled(read, step) && Enabled(t, LateWrite(read, step)))
    && t' == (if wrote then Next(t, LateWrite(read, step)) else t)
  }

  lemma SetRoleIsWrite(read: Tables, actor: User, x: Project, u: User, role: ProjectRole)
    requires Enabled(read, Step.PutProjectMember(actor, x, u, role))
    ensures LateWrite(read, Step.PutProjectMember(actor, x, u, role)) == SetRoleLate(x, u, role)
  {
  }

  lemma SetRoleWrites(t: Tables, x: Project, u: User, role: ProjectRole)
    ensures Enabled(t, SetRoleLate(x, u, role)) <==> x in t.projects && (u, t.projects[x]) in t.members
    ensures Enabled(t, SetRoleLate(x, u, role)) ==>
              Next(t, SetRoleLate(x, u, role)) == RevokeKeys(SetProjectRole(t, u, x, role), u, x, Exceeding(role))
  {
  }

  lemma MintIsWrite(read: Tables, u: User, key: KeyId, x: Project, scope: Scope)
    requires key !in read.keys
    ensures Enabled(read, Step.MintKey(u, key, x, scope)) <==>
            (u, x) in read.roles && ScopeWithinRole(scope, read.roles[(u, x)])
    ensures Enabled(read, Step.MintKey(u, key, x, scope)) ==>
              LateWrite(read, Step.MintKey(u, key, x, scope)) == MintKeyLate(u, key, x, scope)
  {
  }

  function WithKey(t: Tables, u: User, key: KeyId, x: Project, scope: Scope): Tables {
    t.(keys := t.keys[key := Key(u, x, scope, false)])
  }

  lemma MintWrites(t: Tables, u: User, key: KeyId, x: Project, scope: Scope)
    requires key !in t.keys
    ensures Enabled(t, MintKeyLate(u, key, x, scope)) <==> (u, x) in t.roles
    ensures (u, x) in t.roles ==> Next(t, MintKeyLate(u, key, x, scope)) == WithKey(t, u, key, x, scope)
  {
  }

  class AuthStore {
    var t: Tables

    constructor ()
      ensures t == EMPTY
    {
      t := EMPTY;
    }

    /** The upserts, one org at a time, in whatever order the map yields them. */
    method UpsertClaims(u: User, res: Resolved)
      modifies this
      ensures t == ClaimedSome(old(t), u, res, res.orgs.Keys)
    {
      ClaimedNone(t, u, res);
      ghost var done: set<Org> := {};
      var rest := res.orgs.Keys;
      while rest != {}
        invariant rest <= res.orgs.Keys && done == res.orgs.Keys - rest
        invariant t == ClaimedSome(old(t), u, res, done)
      {
        var o :| o in rest;
        RestShrinks(res.orgs.Keys, rest, done, o);
        UpsertNext(old(t), u, res, done, o);
        t := UpsertClaim(t, u, o, res.orgs[o]);
        done := done + {o};
        rest := rest - {o};
      }
      assert done == res.orgs.Keys;
    }

    /** The reconciliation transaction: the user, each claimed org, then delete, then clear. */
    method ReconcileTx(u: User, res: Resolved)
      modifies this
      ensures t == Reconciled(old(t), u, res)
    {
      t := UpsertUser(t, u, res.site);
      t := t.(orgs := t.orgs + res.orgs.Keys);
      AdmittedIs(old(t), u, res);
      UpsertClaims(u, res);
      ClaimedAll(old(t), u, res);
      t := DeleteUnjustified(t, u, res.orgs.Keys);
      t := ClearClaims(t, u, res.orgs.Keys);
    }

    /** Reconcile: an unreadable claim and a failed gate are refused before the first write. */
    method Reconcile(u: User, claim: G.Claim, g: G.GroupMap, idOf: string -> Org)
      returns (refused: Option<G.Error>, ghost r: G.Resolution)
      requires Injective(idOf)
      modifies this
      ensures !claim.present ==> refused.Some?
      ensures "" !in g.loginGroups ==>
                (refused.None? <==> claim.present && G.Admitted(g, G.GroupSet(claim)))
      ensures refused.Some? ==> t == old(t)
      ensures refused.None? ==> G.Resolves(g, claim, r) && t == Reconciled(old(t), u, ToRows(r, idOf))
      ensures refused.None? ==> AsFiled(t, u, g, claim, idOf)
    {
      r := G.ZERO;
      if !claim.present {
        return Some(G.GroupsUnreadable), r;
      }
      var res, error := G.Resolve(g, claim);
      r := res;
      if error.Some? {
        assert error.value.GroupsUnreadable? || error.value.NotInLoginGroup?;
        return error, r;
      }
      LoginHasClaims(t, u, ToRows(res, idOf));
      ReconcileTx(u, ToRows(res, idOf));
      ClaimsAsFiled(t, u, g, claim, res, idOf);
      refused := None;
    }

    /** handlePutOrgMember: the checks on what was read, then the grant on what is there by then. */
    method PutOrgMember(read: Tables, actor: User, o: Org, u: User, role: OrgRole) returns (refused: Option<Refusal>)
      requires o in read.orgs
      modifies this
      ensures refused.None? || refused == Some(NoRow) <==> Enabled(read, Step.PutOrgMember(actor, o, u, role))
      ensures Written(read, Step.PutOrgMember(actor, o, u, role), old(t), t, refused.None?)
    {
      var p := SessionFor(read, actor);
      if !p.CanAdminOrg(o) {
        return Some(NotAllowed);
      }
      if role == Owner && !p.CanOwnOrg(o) {
        return Some(Forbidden);
      }
      if u !in read.users {
        return Some(NotFound);
      }
      if !MayWrite(read, actor, o, u) {
        return Some(Forbidden);
      }
      if o !in t.orgs || u !in t.users {
        return Some(NoRow);
      }
      t := GrantLocal(t, u, o, role, actor);
      refused := None;
    }

    /**
     handleDeleteOrgMember: a member held up by a claim stays one, and the answer names the
     group. `read` is what the tables were when the handler read them; a login may have run
     since, and then the guard of the statement finds no row and nothing is removed.
     */
    method DeleteOrgMember(read: Tables, actor: User, o: Org, u: User) returns (r: Removal)
      modifies this
      ensures !Enabled(read, Step.DeleteOrgMember(actor, o, u)) ==> r.Refused? && !(r.why in {Changed, NoRow})
      ensures Enabled(read, Step.DeleteOrgMember(actor, o, u)) ==>
                && (r == Refused(Changed) <==> read.members[(u, o)].oidc.None? && ClaimNow(old(t), u, o) != Some(false))
                && (r == Refused(NoRow) <==> read.members[(u, o)].oidc.Some? && ClaimNow(old(t), u, o) != Some(true))
                && (r.Refused? ==> r.why in {Changed, NoRow})
                && t == Next(old(t), LateWrite(read, Step.DeleteOrgMember(actor, o, u)))
      ensures r.Refused? ==> t == old(t)
      ensures r.Removed? ==> (u, o) in old(t).members && old(t).members[(u, o)].oidc.None? && (u, o) !in t.members
      ensures r.StillAMember? ==>
                (u, o) in t.members && t.members[(u, o)].local.None? && t.members[(u, o)].oidc.Some? &&
                t.members[(u, o)].oidc.value.group == r.group
      ensures r == Refused(ClaimDerived) ==> (u, o) in read.members && read.members[(u, o)].local.None?
      ensures read == old(t) ==>
                && (r.Refused? <==> !Enabled(old(t), Step.DeleteOrgMember(actor, o, u)))
                && t == if r.Refused? then old(t) else Next(old(t), Step.DeleteOrgMember(actor, o, u))
    {
      if !SessionFor(read, actor).CanAdminOrg(o) {
        return Refused(NotAllowed);
      }
      if (u, o) !in read.members {
        return Refused(NotFound);
      }
      if !MayWrite(read, actor, o, u) {
        return Refused(Forbidden);
      }
      var current := read.members[(u, o)];
      if current.local.None? {
        return Refused(ClaimDerived);
      }
      if current.oidc.Some? {
        r := RevokeHalf(o, u);
      } else {
        r := DeleteRow(o, u);
      }
    }

    /** RevokeOrgMembershipLocal, whose RETURNING is the member that is left. */
    method RevokeHalf(o: Org, u: User) returns (r: Removal)
      modifies this
      ensures t == RevokeLocal(old(t), u, o)
      ensures r == if ClaimNow(old(t), u, o) == Some(true) then StillAMember(old(t).members[(u, o)].oidc.value.group) else Refused(NoRow)
    {
      if (u, o) in t.members && t.members[(u, o)].oidc.Some? {
        r := StillAMember(t.members[(u, o)].oidc.value.group);
      } else {
        r := Refused(NoRow);
      }
      t := RevokeLocal(t, u, o);
    }

    /** DeleteLocalOrgMembership, whose row count says whether the guard held. */
    method DeleteRow(o: Org, u: User) returns (r: Removal)
      modifies this
      ensures t == DeleteLocal(old(t), u, o)
      ensures r == if ClaimNow(old(t), u, o) == Some(false) then Removed else Refused(Changed)
    {
      r := if (u, o) in t.members && t.members[(u, o)].oidc.None? then Removed else Refused(Changed);
      t := DeleteLocal(t, u, o);
    }

    /** Its checks: the route's access level, and the org's roster. */
    method CheckProjectMember(read: Tables, actor: User, x: Project, u: User, role: ProjectRole)
      returns (refused: Option<Refusal>)
      requires x in read.projects
      ensures refused.None? <==> Enabled(read, Step.PutProjectMember(actor, x, u, role))
      ensures refused != Some(NoRow)
    {
      if !SessionFor(read, actor).CanAdminProject(read.projects[x], x) {
        return Some(NotAllowed);
      }
      return if (u, read.projects[x]) !in read.members then Some(NotFound) else None;
    }

    /** handlePutProjectMember: the role and the revocation of what now exceeds it, in one transaction. */
    method PutProjectMember(read: Tables, actor: User, x: Project, u: User, role: ProjectRole)
      returns (refused: Option<Refusal>)
      requires x in read.projects
      modifies this
      ensures refused.None? || refused == Some(NoRow) <==> Enabled(read, Step.PutProjectMember(actor, x, u, role))
      ensures Written(read, Step.PutProjectMember(actor, x, u, role), old(t), t, refused.None?)
      ensures role != Reader ==> t.keys == old(t).keys
    {
      refused := CheckProjectMember(read, actor, x, u, role);
      if refused.Some? {
        return;
      }
      SetRoleIsWrite(read, actor, x, u, role);
      SetRoleWrites(t, x, u, role);
      if x !in t.projects || (u, t.projects[x]) !in t.members {
        return Some(NoRow);
      }
      SetRoleAndRevoke(u, x, role);
      refused := None;
    }

    /** The transaction body. */
    method SetRoleAndRevoke(u: User, x: Project, role: ProjectRole)
      modifies this
      ensures t == RevokeKeys(SetProjectRole(old(t), u, x, role), u, x, Exceeding(role))
      ensures role != Reader ==> t.keys == old(t).keys
    {
      t := SetProjectRole(t, u, x, role);
      var exceeding := ScopesExceedingRole(role);
      RevokeNothing(t, u, x);
      if exceeding != [] {
        t := RevokeKeys(t, u, x, SetOf(exceeding));
      }
    }

    /** CreateAPIKey: minted only by an interactive principal, and never above the project role that was read. */
    method CreateAPIKey(read: Tables, p: Principal, key: KeyId, x: Project, scope: Scope) returns (refused: Option<Refusal>)
      requires key !in read.keys && key !in t.keys
      modifies this
      ensures refused.None? || refused == Some(NoRow) <==>
                p.IsInteractive() && Enabled(read, Step.MintKey(p.user, key, x, scope))
      ensures refused.Some? ==> t == old(t)
      ensures refused.None? ==> t == WithKey(old(t), p.user, key, x, scope)
      ensures refused.None? ==> (p.user, x) in t.roles
      ensures refused.None? && KeysWithin(old(t)) ==>
                (KeysWithin(t) <==> ScopeWithinRole(scope, t.roles[(p.user, x)]))
      ensures p.IsInteractive() ==> Written(read, Step.MintKey(p.user, key, x, scope), old(t), t, refused.None?)
    {
      if !p.IsInteractive() {
        return Some(NotAllowed);
      }
      MintIsWrite(read, p.user, key, x, scope);
      MintWrites(t, p.user, key, x, scope);
      if (p.user, x) !in read.roles || !ScopeWithinRole(scope, read.roles[(p.user, x)]) {
        return Some(ScopeExceedsRole);
      }
      if (p.user, x) !in t.roles {
        return Some(NoRow);
      }
      if KeysWithin(t) {
        MintedWithin(t, p.user, key, x, scope);
      }
      t := WithKey(t, p.user, key, x, scope);
      refused := None;
    }
  }

  lemma MintedWithin(t: Tables, u: User, key: KeyId, x: Project, scope: Scope)
    requires key !in t.keys && (u, x) in t.roles && KeysWithin(t)
    ensures KeysWithin(WithKey(t, u, key, x, scope)) <==> ScopeWithinRole(scope, t.roles[(u, x)])
  {
    var t' := WithKey(t, u, key, x, scope);
    if ScopeWithinRole(scope, t.roles[(u, x)]) {
      forall i | i in t'.keys ensures Within(t'.keys[i], t'.roles) {
        if i in t.keys { assert Within(t.keys[i], t.roles); }
      }
    } else {
      assert !Within(t'.keys[key], t'.roles);
    }
  }

  lemma RevokeNothing(t: Tables, u: User, x: Project)
    ensures RevokeKeys(t, u, x, {}) == t
  {
    assert RevokeKeys(t, u, x, {}).keys == t.keys;
  }
}
