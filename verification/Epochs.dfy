/** The authorization epoch: what the row triggers promise the principal cache. */
module Epochs {
  import opened Types
  import opened Roles
  import opened Authority
  import opened AuthorityProofs
  import opened AuthorityLaws

  /** `u` does not change authority on the way to `t'` without a larger epoch. */
  ghost predicate TracksUser(t: Tables, t': Tables, u: User)
    requires u in t.users
  {
    && u in t'.users && t.users[u].epoch <= t'.users[u].epoch
    && (t.users[u].epoch == t'.users[u].epoch ==> LoadAuthz(t, u) == LoadAuthz(t', u))
  }

  ghost predicate Tracks(t: Tables, t': Tables) {
    forall u :: u in t.users ==> TracksUser(t, t', u)
  }

  lemma TracksTransitive(a: Tables, b: Tables, c: Tables)
    requires Tracks(a, b) && Tracks(b, c)
    ensures Tracks(a, c)
  {
    forall u | u in a.users ensures TracksUser(a, c, u) {
      assert TracksUser(a, b, u) && TracksUser(b, c, u);
    }
  }

  /** A statement fires no trigger for `u` exactly when no row the triggers watch differs. */
  lemma NoBumpIff(t: Tables, t': Tables, u: User)
    ensures Bumps(t, t', u) == 0 <==>
            && (forall k: (User, Org) :: k.0 == u ==> Sources(t, k) == Sources(t', k))
            && (forall k: (User, Project) :: k.0 == u ==> RoleRow(t, k) == RoleRow(t', k))
            && (u in t.users && u in t'.users ==>
                  && t.users[u].siteClaim.Some? == t'.users[u].siteClaim.Some?
                  && t.users[u].siteGrant.Some? == t'.users[u].siteGrant.Some?)
  {
    var m, r := ChangedMembers(t, t', u), ChangedRoles(t, t', u);
    if m == {} {
      forall k: (User, Org) | k.0 == u ensures Sources(t, k) == Sources(t', k) { assert k !in m; }
    } else {
      var k :| k in m;
    }
    if r == {} {
      forall k: (User, Project) | k.0 == u ensures RoleRow(t, k) == RoleRow(t', k) { assert k !in r; }
    } else {
      var k :| k in r;
    }
  }

  lemma SameSourcesSameRole(t: Tables, t': Tables, k: (User, Org))
    requires Sources(t, k) == Sources(t', k)
    ensures k in t.members <==> k in t'.members
    ensures k in t.members && HasSource(t.members[k]) ==>
              HasSource(t'.members[k]) && Effective(t.members[k]) == Effective(t'.members[k])
  {
  }

  lemma SameOrgRoles(t: Tables, t': Tables, u: User)
    requires MembersOk(t) && MembersOk(t') && forall o :: Sources(t, (u, o)) == Sources(t', (u, o))
    ensures OrgRolesOf(t, u) == OrgRolesOf(t', u)
  {
    forall o
      ensures o in OrgRolesOf(t, u) <==> o in OrgRolesOf(t', u)
      ensures o in OrgRolesOf(t, u) ==> OrgRolesOf(t, u)[o] == OrgRolesOf(t', u)[o]
    {
      assert Sources(t, (u, o)) == Sources(t', (u, o));
      SameSourcesSameRole(t, t', (u, o));
    }
  }

  lemma SameProjectRoles(t: Tables, t': Tables, u: User)
    requires RolesOk(t) && RolesOk(t') && forall x :: RoleRow(t, (u, x)) == RoleRow(t', (u, x))
    ensures ProjectRolesOf(t, u) == ProjectRolesOf(t', u)
  {
    forall x
      ensures x in ProjectRolesOf(t, u) <==> x in ProjectRolesOf(t', u)
      ensures x in ProjectRolesOf(t, u) ==> ProjectRolesOf(t, u)[x] == ProjectRolesOf(t', u)[x]
    {
      assert RoleRow(t, (u, x)) == RoleRow(t', (u, x));
    }
  }

  /** The columns the triggers watch determine everything a principal is built from. */
  lemma WatchedRowsDecide(t: Tables, t': Tables, u: User)
    requires MembersOk(t) && MembersOk(t') && RolesOk(t) && RolesOk(t') && u in t.users && u in t'.users
    requires Bumps(t, t', u) == 0
    ensures LoadAuthz(t, u) == LoadAuthz(t', u)
  {
    NoBumpIff(t, t', u);
    SameOrgRoles(t, t', u);
    SameProjectRoles(t, t', u);
  }

  /** Only the site columns and epochs are in the users table, and a statement writes no epoch itself. */
  ghost predicate EpochsOf(t: Tables, t': Tables) {
    forall u :: u in t.users ==> u in t'.users && t'.users[u].epoch == t.users[u].epoch
  }

  ghost predicate RowsOk(t: Tables) {
    MembersOk(t) && RolesOk(t)
  }

  lemma SiteFlagsSurvive(t: Tables, t': Tables, u: User)
    requires RowsOk(t')
    ensures u in t'.users ==> LoadAuthz(Triggered(t, t'), u) == LoadAuthz(t', u)
  {
    TriggeredShape(t, t');
    var r := Triggered(t, t');
    if u in t'.users {
      assert r.users[u] == t'.users[u].(epoch := t'.users[u].epoch + Bumps(t, t', u));
      assert LoadAuthz(r, u).orgs == LoadAuthz(t', u).orgs;
      assert LoadAuthz(r, u).projects == LoadAuthz(t', u).projects;
    }
  }

  lemma StatementTracks(t: Tables, t': Tables)
    requires RowsOk(t) && RowsOk(t') && EpochsOf(t, t')
    ensures Tracks(t, Triggered(t, t'))
  {
    forall u | u in t.users ensures TracksUser(t, Triggered(t, t'), u) {
      var r := Triggered(t, t');
      assert r.users[u].epoch == t.users[u].epoch + Bumps(t, t', u);
      SiteFlagsSurvive(t, t', u);
      if Bumps(t, t', u) == 0 { WatchedRowsDecide(t, t', u); }
    }
  }

  lemma DeletedTracks(t: Tables, t1: Tables)
    requires Inv(t) && Inv(Cascaded(t1)) && t1.users == t.users
    ensures Tracks(t, Deleted(t, t1))
  {
    StatementTracks(t, Cascaded(t1));
  }

  /** Adding an empty org or project, or moving keys, is no change of anyone's authority. */
  lemma QuietTracks(t: Tables, t': Tables)
    requires RowsOk(t) && RowsOk(t')
    requires t.members == t'.members && t.roles == t'.roles && t.users == t'.users
    ensures Tracks(t, t')
  {
    forall u | u in t.users ensures TracksUser(t, t', u) {
      SameOrgRoles(t, t', u);
      SameProjectRoles(t, t', u);
    }
  }

  // ---- every step ----------------------------------------------------------

  lemma AdmittedTracks(t: Tables, u: User, res: Resolved)
    requires Inv(t)
    ensures Tracks(t, Admitted(t, u, res))
  {
    var t0 := UpsertUser(t, u, res.site);
    UserRowTracks(t, u, res.site);
    AdmittedKeeps(t, u, res);
    QuietTracks(t0, Admitted(t, u, res));
    TracksTransitive(t, t0, Admitted(t, u, res));
  }

  lemma UserRowTracks(t: Tables, u: User, site: Option<string>)
    requires Inv(t)
    ensures RowsOk(UpsertUser(t, u, site)) && Tracks(t, UpsertUser(t, u, site))
  {
    TriggeredKeeps(t, WithUser(t, u, site));
    StatementTracks(t, WithUser(t, u, site));
  }

  lemma ClaimedTracks(t: Tables, u: User, res: Resolved)
    requires Inv(t)
    ensures Tracks(t, Claimed(t, u, res))
  {
    var t1 := Admitted(t, u, res);
    AdmittedTracks(t, u, res);
    AdmittedKeeps(t, u, res);
    ClaimRowsKeep(t1, u, res);
    StatementTracks(t1, t1.(members := t1.members + ClaimRows(t1, u, res)));
    TracksTransitive(t, t1, Claimed(t, u, res));
  }

  lemma LoginTracks(t: Tables, u: User, res: Resolved)
    requires Inv(t)
    ensures Tracks(t, Reconciled(t, u, res))
  {
    var t2, keep := Claimed(t, u, res), res.orgs.Keys;
    ClaimedTracks(t, u, res);
    ClaimedKeeps(t, u, res);
    DeleteTracks(t2, u, keep);
    DeleteUnjustifiedKeeps(t2, u, keep);
    TracksTransitive(t, t2, DeleteUnjustified(t2, u, keep));
    ClearTracks(DeleteUnjustified(t2, u, keep), u, keep);
    TracksTransitive(t, DeleteUnjustified(t2, u, keep), Reconciled(t, u, res));
  }

  lemma DeleteTracks(t: Tables, u: User, keep: set<Org>)
    requires Inv(t)
    ensures Tracks(t, DeleteUnjustified(t, u, keep))
  {
    var t1 := t.(members := map k | k in t.members && !Unjustified(t, u, keep, k) :: t.members[k]);
    CascadedKeeps(t1);
    DeletedTracks(t, t1);
  }

  lemma ClearTracks(t: Tables, u: User, keep: set<Org>)
    requires Inv(t)
    ensures Tracks(t, ClearClaims(t, u, keep))
  {
    var t1 := t.(members := map k | k in t.members ::
      if k.0 == u && k.1 !in keep && t.members[k].local.Some? then t.members[k].(oidc := None) else t.members[k]);
    ClearClaimsKeeps(t, u, keep);
    TriggeredKeeps(t, t1);
    StatementTracks(t, t1);
  }

  lemma GrantTracks(t: Tables, u: User, o: Org, role: OrgRole, grantor: User)
    requires Inv(t) && u in t.users && o in t.orgs
    ensures Tracks(t, GrantLocal(t, u, o, role, grantor))
  {
    var row := if (u, o) in t.members then t.members[(u, o)].(local := Some(Grant(role, grantor)))
               else Membership(None, Some(Grant(role, grantor)));
    GrantLocalKeeps(t, u, o, role, grantor);
    TriggeredKeeps(t, t.(members := t.members[(u, o) := row]));
    StatementTracks(t, t.(members := t.members[(u, o) := row]));
  }

  lemma RevokeTracks(t: Tables, u: User, o: Org)
    requires Inv(t)
    ensures Tracks(t, RevokeLocal(t, u, o))
  {
    if (u, o) in t.members && t.members[(u, o)].oidc.Some? {
      var t1 := t.(members := t.members[(u, o) := t.members[(u, o)].(local := None)]);
      RevokeLocalKeeps(t, u, o);
      TriggeredKeeps(t, t1);
      StatementTracks(t, t1);
    }
  }

  lemma RemoveTracks(t: Tables, u: User, o: Org)
    requires Inv(t)
    ensures Tracks(t, DeleteLocal(t, u, o))
  {
    CascadedKeeps(t.(members := t.members - {(u, o)}));
    DeletedTracks(t, t.(members := t.members - {(u, o)}));
  }

  lemma SetRoleTracks(t: Tables, u: User, x: Project, role: ProjectRole)
    requires RowsOk(t) && x in t.projects && (u, t.projects[x]) in t.members
    ensures Tracks(t, SetProjectRole(t, u, x, role)) && RowsOk(SetProjectRole(t, u, x, role))
  {
    TriggeredKeeps(t, t.(roles := t.roles[(u, x) := role]));
    StatementTracks(t, t.(roles := t.roles[(u, x) := role]));
  }

  lemma DowngradeTracks(t: Tables, u: User, x: Project, role: ProjectRole)
    requires Inv(t) && x in t.projects && (u, t.projects[x]) in t.members
    ensures Tracks(t, RevokeKeys(SetProjectRole(t, u, x, role), u, x, Exceeding(role)))
  {
    var t1 := SetProjectRole(t, u, x, role);
    SetRoleTracks(t, u, x, role);
    RevokeTracksKeys(t1, u, x, Exceeding(role));
    TracksTransitive(t, t1, RevokeKeys(t1, u, x, Exceeding(role)));
  }

  lemma RevokeTracksKeys(t: Tables, u: User, x: Project, scopes: set<Scope>)
    requires RowsOk(t)
    ensures Tracks(t, RevokeKeys(t, u, x, scopes))
  {
    QuietTracks(t, RevokeKeys(t, u, x, scopes));
  }

  lemma DropRoleTracks(t: Tables, u: User, x: Project)
    requires Inv(t)
    ensures Tracks(t, DropProjectRole(t, u, x))
  {
    CascadedKeeps(t.(roles := t.roles - {(u, x)}));
    DeletedTracks(t, t.(roles := t.roles - {(u, x)}));
  }

  lemma CreateProjectTracks(t: Tables, actor: User, o: Org, x: Project)
    requires Inv(t) && o in t.orgs && x !in t.projects
    ensures Tracks(t, CreatorRole(t.(projects := t.projects[x := o]), actor, o, x))
  {
    var t1 := t.(projects := t.projects[x := o]);
    NewProjectKeeps(t, o, x);
    QuietTracks(t, t1);
    if (actor, o) in t.members {
      SetRoleTracks(t1, actor, x, ProjectAdmin);
      TracksTransitive(t, t1, SetProjectRole(t1, actor, x, ProjectAdmin));
    }
  }

  lemma CreateOrgTracks(t: Tables, actor: User, o: Org)
    requires Inv(t) && actor in t.users
    ensures Tracks(t, GrantLocal(WithOrg(t, o), actor, o, Owner, actor))
  {
    var t1 := WithOrg(t, o);
    WithOrgKeeps(t, o);
    QuietTracks(t, t1);
    GrantTracks(t1, actor, o, Owner, actor);
    TracksTransitive(t, t1, GrantLocal(t1, actor, o, Owner, actor));
  }

  lemma SiteTracks(t: Tables, u: User, grant: Option<Option<User>>)
    requires Inv(t) && u in t.users
    ensures Tracks(t, SetSiteGrant(t, u, grant))
  {
    var t1 := t.(users := t.users[u := t.users[u].(siteGrant := grant)]);
    SameRows(t, t1);
    StatementTracks(t, t1);
  }

  lemma KeyTracks(t: Tables, step: Step)
    requires Inv(t) && Enabled(t, step) && IsKeyStep(step)
    ensures Tracks(t, Next(t, step))
  {
    KeyStepKeeps(t, step);
    QuietTracks(t, Next(t, step));
  }

  lemma StepTracks(t: Tables, step: Step)
    requires Inv(t) && Enabled(t, step)
    ensures Tracks(t, Next(t, step))
  {
    match step
    case Login(u, res) => LoginTracks(t, u, res);
    case PutOrgMember(actor, o, u, role) => GrantTracks(t, u, o, role, actor);
    case DeleteOrgMember(actor, o, u) => RevokeTracks(t, u, o); RemoveTracks(t, u, o);
    case PutProjectMember(actor, x, u, role) => DowngradeTracks(t, u, x, role);
    case DeleteProjectMember(actor, x, u) => DropRoleTracks(t, u, x);
    case GrantSite(grantor, u) => SiteTracks(t, u, Some(grantor));
    case RevokeSite(u) => SiteTracks(t, u, None);
    case CreateOrg(actor, o) => CreateOrgTracks(t, actor, o);
    case CreateProject(actor, o, x) => CreateProjectTracks(t, actor, o, x);
    case DropProject(x) => DropProjectKeeps(t, x); DeletedTracks(t, WithoutProject(t, x));
    case DropOrg(o) => DropOrgKeeps(t, o); DeletedTracks(t, WithoutOrg(t, o));
    case GrantLocalLate(actor, o, u, role) => GrantTracks(t, u, o, role, actor);
    case RevokeLocalLate(u, o) => RevokeTracks(t, u, o);
    case DeleteLocalLate(u, o) => RemoveTracks(t, u, o);
    case SetRoleLate(x, u, role) => DowngradeTracks(t, u, x, role);
    case DropRoleLate(x, u) => DropRoleTracks(t, u, x);
    case CreateProjectLate(actor, o, x) => CreateProjectTracks(t, actor, o, x);
    case _ => KeyTracks(t, step);
  }

  lemma TracksUserTransitive(a: Tables, b: Tables, c: Tables, u: User)
    requires u in a.users && TracksUser(a, b, u) && Tracks(b, c)
    ensures TracksUser(a, c, u)
  {
    assert TracksUser(b, c, u);
  }

  lemma FollowTracks(t: Tables, step: Step, t': Tables)
    requires Inv(t) && Follows(t, step, t')
    ensures Tracks(t, t')
  {
    StepTracks(t, step);
  }

  lemma RunStepTracks(states: seq<Tables>, steps: seq<Step>, n: nat)
    requires IsRun(states, steps) && n < |steps|
    ensures Tracks(states[n], states[n + 1])
  {
    RunKeeps(states, steps, n);
    assert Follows(states[n], steps[n], states[n + 1]);
    FollowTracks(states[n], steps[n], states[n + 1]);
  }

  ghost predicate TracksNext(states: seq<Tables>, n: nat) {
    n + 1 < |states| ==> Tracks(states[n], states[n + 1])
  }

  lemma {:induction false} ChainTracks(states: seq<Tables>, i: nat, j: nat, u: User)
    requires i <= j < |states| && u in states[i].users && forall n: nat :: n < j ==> TracksNext(states, n)
    ensures TracksUser(states[i], states[j], u)
    decreases j
  {
    if i < j {
      ChainTracks(states, i, j - 1, u);
      assert TracksNext(states, j - 1) && states[j - 1 + 1] == states[j];
      TracksUserTransitive(states[i], states[j - 1], states[j], u);
    }
  }

  /**
   Two moments of a run at which a user's epoch is the same: their authority is the same.
   This is what lets the principal cache be keyed by (user, epoch) and never evicted for correctness.
   */
  lemma EpochDecidesAuthority(states: seq<Tables>, steps: seq<Step>, i: nat, j: nat, u: User)
    requires IsRun(states, steps) && i <= j < |states| && u in states[i].users
    ensures u in states[j].users && states[i].users[u].epoch <= states[j].users[u].epoch
    ensures states[i].users[u].epoch == states[j].users[u].epoch ==> LoadAuthz(states[i], u) == LoadAuthz(states[j], u)
  {
    forall n: nat | n < j ensures TracksNext(states, n) { RunStepTracks(states, steps, n); }
    ChainTracks(states, i, j, u);
  }

  // ---- a repeated login bumps nothing --------------------------------------

  ghost predicate SameEpochs(t: Tables, t': Tables) {
    forall u :: u in t.users ==> u in t'.users && t'.users[u].epoch == t.users[u].epoch
  }

  lemma QuietStatement(t: Tables, t': Tables)
    requires SameEpochs(t, t') && forall k :: Sources(t, k) == Sources(t', k)
    requires t.roles == t'.roles
    requires forall u :: u in t.users && u in t'.users ==>
               && t.users[u].siteClaim.Some? == t'.users[u].siteClaim.Some?
               && t.users[u].siteGrant.Some? == t'.users[u].siteGrant.Some?
    ensures SameEpochs(t, Triggered(t, t'))
  {
    forall u | u in t.users ensures u in Triggered(t, t').users && Triggered(t, t').users[u].epoch == t.users[u].epoch {
      NoBumpIff(t, t', u);
    }
  }

  /** The state a login leaves: exactly the claimed orgs carry a claim, and the site claim is recorded. */
  ghost predicate Settled(t: Tables, u: User, res: Resolved) {
    && u in t.users && t.users[u].siteClaim.Some? == res.site.Some?
    && (forall o :: o in res.orgs ==>
          (u, o) in t.members && t.members[(u, o)].oidc.Some? && t.members[(u, o)].oidc.value.role == res.orgs[o].role)
    && (forall k :: k in t.members && k.0 == u && k.1 !in res.orgs ==> t.members[k].oidc.None? && t.members[k].local.Some?)
  }

  lemma LoginSettles(t: Tables, u: User, res: Resolved)
    ensures Settled(Reconciled(t, u, res), u, res)
  {
    forall k { LoginPointwise(t, u, res, k); }
    LoginUserRow(t, u, res);
    RowsSettle(t, Reconciled(t, u, res), u, res);
  }

  lemma RowsSettle(t: Tables, t': Tables, u: User, res: Resolved)
    requires forall k :: MemberRow(t', k) == LoggedIn(t, u, res, k)
    requires u in t'.users && t'.users[u].siteClaim == res.site
    ensures Settled(t', u, res)
  {
    forall o | o in res.orgs
      ensures (u, o) in t'.members && t'.members[(u, o)].oidc == Some(res.orgs[o])
    {
      assert MemberRow(t', (u, o)) == LoggedIn(t, u, res, (u, o));
    }
    forall k | k in t'.members && k.0 == u && k.1 !in res.orgs
      ensures t'.members[k].oidc.None? && t'.members[k].local.Some?
    {
      assert MemberRow(t', k) == LoggedIn(t, u, res, k);
    }
  }

  /** A login writes its user's site claim and nobody's site grant. */
  lemma LoginKeepsSiteGrants(t: Tables, u: User, res: Resolved, v: User)
    requires v in t.users
    ensures var t' := Reconciled(t, u, res);
            && v in t'.users && t'.users[v].siteGrant == t.users[v].siteGrant
            && t'.users[v].siteClaim == if v == u then res.site else t.users[v].siteClaim
  {
    var t1 := Claimed(t, u, res);
    assert v in t1.users && t1.users[v].siteGrant == t.users[v].siteGrant;
    var t2 := DeleteUnjustified(t1, u, res.orgs.Keys);
    assert v in t2.users && t2.users[v].siteGrant == t1.users[v].siteGrant && t2.users[v].siteClaim == t1.users[v].siteClaim;
  }

  lemma LoginUserRow(t: Tables, u: User, res: Resolved)
    ensures u in Reconciled(t, u, res).users && Reconciled(t, u, res).users[u].siteClaim == res.site
  {
    var t1 := Claimed(t, u, res);
    assert u in t1.users && t1.users[u].siteClaim == res.site;
    var t2 := DeleteUnjustified(t1, u, res.orgs.Keys);
    assert u in t2.users && t2.users[u].siteClaim == res.site;
  }

  lemma QuietAdmit(t: Tables, u: User, res: Resolved)
    requires Settled(t, u, res)
    ensures SameEpochs(t, Admitted(t, u, res)) && Settled(Admitted(t, u, res), u, res)
    ensures Admitted(t, u, res).members == t.members && Admitted(t, u, res).roles == t.roles
  {
    QuietStatement(t, WithUser(t, u, res.site));
  }

  lemma QuietClaimRow(t: Tables, u: User, res: Resolved, k: (User, Org))
    requires Settled(t, u, res)
    ensures var t1 := t.(members := t.members + ClaimRows(t, u, res));
            && Sources(t1, k) == Sources(t, k) && (k in t1.members <==> k in t.members)
            && (k in t.members && !(k.0 == u && k.1 in res.orgs) ==> t1.members[k] == t.members[k])
  {
    assert k == (k.0, k.1);
  }

  lemma QuietClaims(t: Tables, u: User, res: Resolved)
    requires Settled(t, u, res)
    ensures var t' := Triggered(t, t.(members := t.members + ClaimRows(t, u, res)));
            SameEpochs(t, t') && Settled(t', u, res)
  {
    var t1 := t.(members := t.members + ClaimRows(t, u, res));
    forall k { QuietClaimRow(t, u, res, k); }
    QuietStatement(t, t1);
    forall k | k in t1.members && k.0 == u && k.1 !in res.orgs
      ensures t1.members[k].oidc.None? && t1.members[k].local.Some?
    {
      QuietClaimRow(t, u, res, k);
    }
  }

  lemma QuietDelete(t: Tables, u: User, res: Resolved)
    requires Inv(t) && Settled(t, u, res)
    ensures var t' := DeleteUnjustified(t, u, res.orgs.Keys);
            SameEpochs(t, t') && Settled(t', u, res)
  {
    var keep := res.orgs.Keys;
    var kept := t.(members := map k | k in t.members && !Unjustified(t, u, keep, k) :: t.members[k]);
    assert kept.members == t.members;
    assert Cascaded(kept).roles == t.roles;
    QuietStatement(t, Cascaded(kept));
  }

  lemma QuietClear(t: Tables, u: User, res: Resolved)
    requires Settled(t, u, res)
    ensures SameEpochs(t, ClearClaims(t, u, res.orgs.Keys))
  {
    var keep := res.orgs.Keys;
    var t1 := t.(members := map k | k in t.members ::
      if k.0 == u && k.1 !in keep && t.members[k].local.Some? then t.members[k].(oidc := None) else t.members[k]);
    assert t1.members == t.members;
    QuietStatement(t, t1);
  }

  lemma QuietLogin(t: Tables, u: User, res: Resolved)
    requires Inv(t) && Settled(t, u, res)
    ensures SameEpochs(t, Reconciled(t, u, res))
  {
    QuietAdmit(t, u, res);
    var t1 := Admitted(t, u, res);
    QuietClaims(t1, u, res);
    var t2 := Claimed(t, u, res);
    ClaimedKeeps(t, u, res);
    QuietDelete(t2, u, res);
    QuietClear(DeleteUnjustified(t2, u, res.orgs.Keys), u, res);
  }

  /** An ordinary repeated login leaves every epoch alone, so it strands no cached principal. */
  lemma RepeatedLoginKeepsEpochs(t: Tables, u: User, res: Resolved, again: Resolved, v: User)
    requires Inv(t) && SameClaims(res, again) && v in Reconciled(t, u, res).users
    ensures var once := Reconciled(t, u, res);
            v in Reconciled(once, u, again).users && Reconciled(once, u, again).users[v].epoch == once.users[v].epoch
  {
    var once := Reconciled(t, u, res);
    LoginKeeps(t, u, res);
    LoginSettles(t, u, res);
    assert Settled(once, u, again);
    QuietLogin(once, u, again);
  }
}
