/** What each authority transaction leaves alone, and what it tells the epoch. */
module AuthorityLaws {
  import opened Types
  import opened Roles
  import opened Authority
  import opened AuthorityProofs

  // ---- login ---------------------------------------------------------------

  /** What a login leaves of the row at `k`, said directly: the claim half is replaced, the local half never. */
  function LoggedIn(t: Tables, u: User, res: Resolved, k: (User, Org)): Option<Membership> {
    var was := if k in t.members then Some(t.members[k]) else None;
    var local := if was.Some? then was.value.local else None;
    if k.0 != u then was
    else if k.1 in res.orgs then Some(Membership(Some(res.orgs[k.1]), local))
    else if local.Some? then Some(Membership(None, local))
    else None
  }

  function MemberRow(t: Tables, k: (User, Org)): Option<Membership> {
    if k in t.members then Some(t.members[k]) else None
  }

  lemma ClaimedShape(t: Tables, u: User, res: Resolved)
    ensures var t1, t' := Admitted(t, u, res), Claimed(t, u, res);
            && t1.members == t.members && t'.members == t.members + ClaimRows(t, u, res)
            && t'.roles == t.roles && t'.keys == t.keys && t'.projects == t.projects
  {
    var t1 := Admitted(t, u, res);
    TriggeredShape(t1, t1.(members := t1.members + ClaimRows(t1, u, res)));
  }

  lemma ClaimedRow(t: Tables, u: User, res: Resolved, k: (User, Org))
    ensures MemberRow(Claimed(t, u, res), k) ==
            if k.0 == u && k.1 in res.orgs then LoggedIn(t, u, res, k) else MemberRow(t, k)
  {
    ClaimedShape(t, u, res);
    assert k == (k.0, k.1);
  }

  lemma DeletedShape(t: Tables, u: User, keep: set<Org>)
    ensures var t' := DeleteUnjustified(t, u, keep);
            && (forall k :: k in t'.members <==> k in t.members && !Unjustified(t, u, keep, k))
            && (forall k :: k in t'.members ==> t'.members[k] == t.members[k])
            && t'.roles == (map k | k in t.roles && k.1 in t.projects && (k.0, t.projects[k.1]) in t'.members :: t.roles[k])
            && t'.keys == (map i | i in t.keys && (t.keys[i].user, t.keys[i].project) in t'.roles :: t.keys[i])
            && t'.projects == t.projects
  {
    var del := t.(members := map k | k in t.members && !Unjustified(t, u, keep, k) :: t.members[k]);
    TriggeredShape(t, Cascaded(del));
  }

  function ClearedRow(u: User, keep: set<Org>, k: (User, Org), m: Membership): Membership {
    if k.0 == u && k.1 !in keep && m.local.Some? then m.(oidc := None) else m
  }

  lemma ClearedShape(t: Tables, u: User, keep: set<Org>)
    ensures var t' := ClearClaims(t, u, keep);
            && t'.members.Keys == t.members.Keys && t'.roles == t.roles && t'.keys == t.keys && t'.projects == t.projects
            && (forall k :: k in t.members ==> t'.members[k] == ClearedRow(u, keep, k, t.members[k]))
  {
  }

  /** The three statements together do exactly that to every row. */
  lemma LoginPointwise(t: Tables, u: User, res: Resolved, k: (User, Org))
    ensures MemberRow(Reconciled(t, u, res), k) == LoggedIn(t, u, res, k)
  {
    ClaimedRow(t, u, res, k);
    DeletedShape(Claimed(t, u, res), u, res.orgs.Keys);
    ClearedShape(DeleteUnjustified(Claimed(t, u, res), u, res.orgs.Keys), u, res.orgs.Keys);
  }

  /** Project roles and keys go with a login exactly when their org membership goes. */
  lemma LoginCascade(t: Tables, u: User, res: Resolved)
    requires RolesOk(t)
    ensures var t' := Reconciled(t, u, res);
            && (forall k :: k in t'.roles <==> k in t.roles && (k.0, t.projects[k.1]) in t'.members)
            && (forall k :: k in t'.roles ==> t'.roles[k] == t.roles[k])
            && (forall i :: i in t'.keys <==> i in t.keys && (t.keys[i].user, t.keys[i].project) in t'.roles)
            && (forall i :: i in t'.keys ==> t'.keys[i] == t.keys[i])
  {
    ClaimedShape(t, u, res);
    DeletedShape(Claimed(t, u, res), u, res.orgs.Keys);
    ClearedShape(DeleteUnjustified(Claimed(t, u, res), u, res.orgs.Keys), u, res.orgs.Keys);
  }

  lemma LoggedInLocal(t: Tables, u: User, res: Resolved, k: (User, Org))
    ensures var before, after := MemberRow(t, k), LoggedIn(t, u, res, k);
            && (before.Some? && before.value.local.Some? ==> after.Some? && after.value.local == before.value.local)
            && (after.Some? && after.value.local.Some? ==> before.Some? && before.value.local == after.value.local)
  {
  }

  /** A login never changes, adds or deletes a local grant, of anyone. */
  lemma LoginKeepsLocalGrants(t: Tables, u: User, res: Resolved, k: (User, Org))
    ensures var before, after := MemberRow(t, k), MemberRow(Reconciled(t, u, res), k);
            && (before.Some? && before.value.local.Some? ==> after.Some? && after.value.local == before.value.local)
            && (after.Some? && after.value.local.Some? ==> before.Some? && before.value.local == after.value.local)
  {
    LoginPointwise(t, u, res, k);
    LoggedInLocal(t, u, res, k);
  }

  /** The same roles, the groups aside. */
  ghost predicate SameClaims(a: Resolved, b: Resolved) {
    && a.site.Some? == b.site.Some? && a.orgs.Keys == b.orgs.Keys
    && forall o :: o in a.orgs ==> a.orgs[o].role == b.orgs[o].role
  }

  /** What a login does to rows, project roles and keys, as `LoginPointwise` and `LoginCascade` give it. */
  ghost predicate LoginEffect(t: Tables, t': Tables, u: User, res: Resolved)
    requires RolesOk(t)
  {
    && (forall k :: MemberRow(t', k) == LoggedIn(t, u, res, k))
    && (forall k :: k in t'.roles <==> k in t.roles && (k.0, t.projects[k.1]) in t'.members)
    && (forall k :: k in t'.roles ==> t'.roles[k] == t.roles[k])
    && (forall i :: i in t'.keys <==> i in t.keys && (t.keys[i].user, t.keys[i].project) in t'.roles)
    && (forall i :: i in t'.keys ==> t'.keys[i] == t.keys[i])
  }

  lemma LoginHasEffect(t: Tables, u: User, res: Resolved)
    requires RolesOk(t)
    ensures LoginEffect(t, Reconciled(t, u, res), u, res)
  {
    forall k { LoginPointwise(t, u, res, k); }
    LoginCascade(t, u, res);
  }

  /** Nothing but the recorded groups differs. */
  ghost predicate SameRoles(a: Tables, b: Tables) {
    && (forall k :: Sources(a, k) == Sources(b, k))
    && (forall k :: k in a.members ==> k in b.members && b.members[k].local == a.members[k].local)
    && a.roles == b.roles && a.keys == b.keys
  }

  lemma RowAgain(t: Tables, once: Tables, twice: Tables, u: User, res: Resolved, again: Resolved, k: (User, Org))
    requires SameClaims(res, again)
    requires MemberRow(once, k) == LoggedIn(t, u, res, k) && MemberRow(twice, k) == LoggedIn(once, u, again, k)
    ensures Sources(twice, k) == Sources(once, k)
    ensures k in once.members ==> k in twice.members && twice.members[k].local == once.members[k].local
    ensures res == again ==> MemberRow(twice, k) == MemberRow(once, k)
  {
  }

  lemma SecondEffect(t: Tables, once: Tables, twice: Tables, u: User, res: Resolved, again: Resolved)
    requires SameClaims(res, again) && RolesOk(t) && Inv(once)
    requires LoginEffect(t, once, u, res) && LoginEffect(once, twice, u, again)
    ensures SameRoles(once, twice) && (res == again ==> twice.members == once.members)
  {
    forall k
      ensures Sources(twice, k) == Sources(once, k)
      ensures k in once.members ==> k in twice.members && twice.members[k].local == once.members[k].local
      ensures res == again ==> MemberRow(twice, k) == MemberRow(once, k)
    {
      RowAgain(t, once, twice, u, res, again, k);
    }
    SameDependents(once, twice, u, again);
    if res == again { SameMemberRows(once, twice); }
  }

  lemma SameDependents(once: Tables, twice: Tables, u: User, again: Resolved)
    requires Inv(once) && LoginEffect(once, twice, u, again)
    requires forall k :: k in once.members ==> k in twice.members
    ensures twice.roles == once.roles && twice.keys == once.keys
  {
    forall k | k in once.roles ensures k in twice.roles { assert (k.0, once.projects[k.1]) in twice.members; }
    forall i | i in once.keys ensures i in twice.keys { assert (once.keys[i].user, once.keys[i].project) in once.roles; }
  }

  lemma SameMemberRows(a: Tables, b: Tables)
    requires forall k :: MemberRow(b, k) == MemberRow(a, k)
    ensures b.members == a.members
  {
    assert forall k :: k in a.members <==> MemberRow(a, k).Some?;
    assert forall k :: k in b.members <==> MemberRow(b, k).Some?;
  }

  /** A repeated login rewrites at most which equal-ranked group is recorded: no role, local half, project role or key. */
  lemma RepeatedLogin(t: Tables, u: User, res: Resolved, again: Resolved)
    requires Inv(t) && SameClaims(res, again)
    ensures var once := Reconciled(t, u, res);
            var twice := Reconciled(once, u, again);
            SameRoles(once, twice) && (res == again ==> twice.members == once.members)
  {
    var once := Reconciled(t, u, res);
    LoginKeeps(t, u, res);
    LoginHasEffect(t, u, res);
    LoginHasEffect(once, u, again);
    SecondEffect(t, once, Reconciled(once, u, again), u, res, again);
  }

  // ---- the delete and the clear --------------------------------------------

  /** The rows a delete leaves, before the triggers write epochs. */
  function DeleteRows(t: Tables, u: User, keep: set<Org>): Tables {
    Cascaded(Justified(t, u, keep))
  }

  function Justified(t: Tables, u: User, keep: set<Org>): Tables {
    t.(members := map k | k in t.members && !Unjustified(t, u, keep, k) :: t.members[k])
  }

  function ClearRows(t: Tables, u: User, keep: set<Org>): Tables {
    t.(members := map k | k in t.members :: ClearedRow(u, keep, k, t.members[k]))
  }

  lemma StatementsAreRows(t: Tables, u: User, keep: set<Org>)
    ensures DeleteUnjustified(t, u, keep) == Triggered(t, DeleteRows(t, u, keep))
    ensures ClearClaims(t, u, keep) == Triggered(t, ClearRows(t, u, keep))
  {
    assert ClearRows(t, u, keep).members == map k | k in t.members ::
      if k.0 == u && k.1 !in keep && t.members[k].local.Some? then t.members[k].(oidc := None) else t.members[k];
  }

  function UnjustifiedOf(t: Tables, u: User, keep: set<Org>, v: User): set<(User, Org)> {
    set k | k in t.members && k.0 == v && Unjustified(t, u, keep, k)
  }

  lemma DeleteChanges(t: Tables, u: User, keep: set<Org>, v: User)
    ensures ChangedMembers(t, DeleteRows(t, u, keep), v) == UnjustifiedOf(t, u, keep, v)
  {
  }

  /** A clear writes exactly the claimed rows a local grant holds up. */
  predicate Cleared(t: Tables, u: User, keep: set<Org>, k: (User, Org)) {
    k in t.members && k.0 == u && k.1 !in keep && t.members[k].local.Some? && t.members[k].oidc.Some?
  }

  function ClearedOf(t: Tables, u: User, keep: set<Org>, v: User): set<(User, Org)> {
    set k | k in t.members && k.0 == v && Cleared(t, u, keep, k)
  }

  lemma ClearChanges(t: Tables, u: User, keep: set<Org>, v: User)
    ensures ChangedMembers(t, ClearRows(t, u, keep), v) == ClearedOf(t, u, keep, v)
    ensures ChangedRoles(t, ClearRows(t, u, keep), v) == {}
  {
  }

  /** Neither statement changes what the other one has to do. */
  lemma StatementsDisjoint(t: Tables, u: User, keep: set<Org>, k: (User, Org))
    ensures Unjustified(ClearClaims(t, u, keep), u, keep, k) == Unjustified(t, u, keep, k)
    ensures Cleared(DeleteUnjustified(t, u, keep), u, keep, k) == Cleared(t, u, keep, k)
  {
    ClearedShape(t, u, keep);
    DeletedShape(t, u, keep);
  }

  lemma SetsDisjoint(t: Tables, u: User, keep: set<Org>, v: User)
    ensures UnjustifiedOf(ClearClaims(t, u, keep), u, keep, v) == UnjustifiedOf(t, u, keep, v)
    ensures ClearedOf(DeleteUnjustified(t, u, keep), u, keep, v) == ClearedOf(t, u, keep, v)
  {
    forall k
      ensures k in UnjustifiedOf(ClearClaims(t, u, keep), u, keep, v) <==> k in UnjustifiedOf(t, u, keep, v)
      ensures k in ClearedOf(DeleteUnjustified(t, u, keep), u, keep, v) <==> k in ClearedOf(t, u, keep, v)
    {
      StatementsDisjoint(t, u, keep, k);
    }
  }

  lemma SameMembersLeft(t: Tables, u: User, keep: set<Org>)
    ensures ClearClaims(DeleteUnjustified(t, u, keep), u, keep).members ==
            DeleteUnjustified(ClearClaims(t, u, keep), u, keep).members
  {
    forall k
      ensures MemberRow(DeleteUnjustified(ClearClaims(t, u, keep), u, keep), k) ==
              MemberRow(ClearClaims(DeleteUnjustified(t, u, keep), u, keep), k)
    {
      DeletedShape(t, u, keep);
      ClearedShape(DeleteUnjustified(t, u, keep), u, keep);
      ClearedShape(t, u, keep);
      DeletedShape(ClearClaims(t, u, keep), u, keep);
    }
    SameMemberRows(ClearClaims(DeleteUnjustified(t, u, keep), u, keep), DeleteUnjustified(ClearClaims(t, u, keep), u, keep));
  }

  /** The cascade reads only which memberships there are. */
  lemma SameCascade(a: Tables, b: Tables)
    requires a.members.Keys == b.members.Keys && a.projects == b.projects && a.roles == b.roles && a.keys == b.keys
    ensures Cascaded(a).roles == Cascaded(b).roles && Cascaded(a).keys == Cascaded(b).keys
  {
    assert forall k :: k in Cascaded(a).roles <==> k in Cascaded(b).roles;
  }

  lemma SameJustified(t: Tables, u: User, keep: set<Org>)
    ensures Justified(ClearClaims(t, u, keep), u, keep).members.Keys == Justified(t, u, keep).members.Keys
  {
    ClearedShape(t, u, keep);
    forall k ensures k in Justified(ClearClaims(t, u, keep), u, keep).members <==> k in Justified(t, u, keep).members {
      StatementsDisjoint(t, u, keep, k);
    }
  }

  lemma SameDependentsLeft(t: Tables, u: User, keep: set<Org>)
    ensures var c, d := DeleteRows(ClearClaims(t, u, keep), u, keep), DeleteRows(t, u, keep);
            d.roles == c.roles && d.keys == c.keys
  {
    ClearedShape(t, u, keep);
    SameJustified(t, u, keep);
    SameCascade(Justified(t, u, keep), Justified(ClearClaims(t, u, keep), u, keep));
  }

  lemma SameChangedRoles(a: Tables, a': Tables, b: Tables, b': Tables, v: User)
    requires a.roles == b.roles && a'.roles == b'.roles
    ensures ChangedRoles(a, a', v) == ChangedRoles(b, b', v)
  {
    assert forall k :: RoleRow(a, k) == RoleRow(b, k) && RoleRow(a', k) == RoleRow(b', k);
  }

  /** Neither statement writes a site column. */
  lemma BumpsAreRows(t: Tables, t': Tables, v: User)
    requires t'.users == t.users
    ensures Bumps(t, t', v) == |ChangedMembers(t, t', v)| + |ChangedRoles(t, t', v)|
  {
  }

  lemma SameDeleteBumps(t: Tables, u: User, keep: set<Org>, v: User)
    ensures Bumps(ClearClaims(t, u, keep), DeleteRows(ClearClaims(t, u, keep), u, keep), v) == Bumps(t, DeleteRows(t, u, keep), v)
  {
    var c := ClearClaims(t, u, keep);
    ClearedShape(t, u, keep);
    DeleteChanges(t, u, keep, v);
    DeleteChanges(c, u, keep, v);
    SetsDisjoint(t, u, keep, v);
    SameDependentsLeft(t, u, keep);
    SameChangedRoles(c, DeleteRows(c, u, keep), t, DeleteRows(t, u, keep), v);
    BumpsAreRows(t, DeleteRows(t, u, keep), v);
    BumpsAreRows(c, DeleteRows(c, u, keep), v);
  }

  lemma SameClearBumps(t: Tables, u: User, keep: set<Org>, v: User)
    ensures Bumps(DeleteUnjustified(t, u, keep), ClearRows(DeleteUnjustified(t, u, keep), u, keep), v) == Bumps(t, ClearRows(t, u, keep), v)
  {
    var d := DeleteUnjustified(t, u, keep);
    ClearChanges(t, u, keep, v);
    ClearChanges(d, u, keep, v);
    SetsDisjoint(t, u, keep, v);
    BumpsAreRows(t, ClearRows(t, u, keep), v);
    BumpsAreRows(d, ClearRows(d, u, keep), v);
  }

  /** The users after a statement: nothing but the epochs moves. */
  lemma TriggeredUsers(t: Tables, t': Tables, v: User)
    requires t'.users == t.users && v in t.users
    ensures v in Triggered(t, t').users
    ensures Triggered(t, t').users[v] == t.users[v].(epoch := t.users[v].epoch + Bumps(t, t', v))
  {
  }

  /** Both orders add up to the same bumps. */
  lemma SameUserLeft(t: Tables, u: User, keep: set<Org>, v: User)
    requires v in t.users
    ensures v in ClearClaims(DeleteUnjustified(t, u, keep), u, keep).users
    ensures v in DeleteUnjustified(ClearClaims(t, u, keep), u, keep).users
    ensures ClearClaims(DeleteUnjustified(t, u, keep), u, keep).users[v] ==
            DeleteUnjustified(ClearClaims(t, u, keep), u, keep).users[v]
  {
    var c, d := ClearClaims(t, u, keep), DeleteUnjustified(t, u, keep);
    StatementsAreRows(t, u, keep);
    StatementsAreRows(c, u, keep);
    StatementsAreRows(d, u, keep);
    TriggeredUsers(t, ClearRows(t, u, keep), v);
    TriggeredUsers(c, DeleteRows(c, u, keep), v);
    TriggeredUsers(t, DeleteRows(t, u, keep), v);
    TriggeredUsers(d, ClearRows(d, u, keep), v);
    SameDeleteBumps(t, u, keep, v);
    SameClearBumps(t, u, keep, v);
  }

  lemma SameUsers(a: map<User, UserRow>, b: map<User, UserRow>)
    requires a.Keys == b.Keys && forall v :: v in a ==> a[v] == b[v]
    ensures a == b
  {
  }

  lemma SameUsersLeft(t: Tables, u: User, keep: set<Org>)
    ensures ClearClaims(DeleteUnjustified(t, u, keep), u, keep).users ==
            DeleteUnjustified(ClearClaims(t, u, keep), u, keep).users
  {
    var dc, cd := ClearClaims(DeleteUnjustified(t, u, keep), u, keep), DeleteUnjustified(ClearClaims(t, u, keep), u, keep);
    StatementUsers(t, u, keep);
    StatementUsers(ClearClaims(t, u, keep), u, keep);
    StatementUsers(DeleteUnjustified(t, u, keep), u, keep);
    forall v | v in t.users ensures dc.users[v] == cd.users[v] { SameUserLeft(t, u, keep, v); }
    SameUsers(dc.users, cd.users);
  }

  lemma StatementUsers(t: Tables, u: User, keep: set<Org>)
    ensures DeleteUnjustified(t, u, keep).users.Keys == t.users.Keys && ClearClaims(t, u, keep).users.Keys == t.users.Keys
  {
    StatementsAreRows(t, u, keep);
    TriggeredShape(t, DeleteRows(t, u, keep));
    TriggeredShape(t, ClearRows(t, u, keep));
  }

  /**
   With their own guards the two statements touch disjoint rows, so their order does not
   matter to any table: memberships, project roles, keys, epochs and all.
   */
  lemma DeleteAndClearCommute(t: Tables, u: User, keep: set<Org>)
    ensures ClearClaims(DeleteUnjustified(t, u, keep), u, keep) == DeleteUnjustified(ClearClaims(t, u, keep), u, keep)
  {
    var c, d := ClearClaims(t, u, keep), DeleteUnjustified(t, u, keep);
    SameMembersLeft(t, u, keep);
    SameDependentsLeft(t, u, keep);
    SameUsersLeft(t, u, keep);
    StatementsAreRows(t, u, keep);
    StatementsAreRows(c, u, keep);
    StatementsAreRows(d, u, keep);
    TriggeredShape(t, DeleteRows(t, u, keep));
    TriggeredShape(c, DeleteRows(c, u, keep));
    TriggeredShape(t, ClearRows(t, u, keep));
    TriggeredShape(d, ClearRows(d, u, keep));
  }

  // ---- the API's side ------------------------------------------------------

  function ClaimOf(t: Tables, k: (User, Org)): Option<Claim> {
    if k in t.members then t.members[k].oidc else None
  }

  lemma StatementKeepsClaims(t: Tables, u: User, o: Org, role: OrgRole, grantor: User, k: (User, Org))
    ensures ClaimOf(GrantLocal(t, u, o, role, grantor), k) == ClaimOf(t, k)
    ensures ClaimOf(RevokeLocal(t, u, o), k) == ClaimOf(t, k)
    ensures ClaimOf(DeleteLocal(t, u, o), k) == ClaimOf(t, k)
  {
  }

  /** No grant, revocation, removal, role change or key operation writes, clears or deletes a claim. */
  lemma ApiKeepsClaims(t: Tables, step: Step, k: (User, Org))
    requires Enabled(t, step) && !step.Login? && !step.DropOrg?
    ensures ClaimOf(Next(t, step), k) == ClaimOf(t, k)
  {
    match step
    case PutOrgMember(actor, o, u, role) => StatementKeepsClaims(t, u, o, role, actor, k);
    case DeleteOrgMember(actor, o, u) => StatementKeepsClaims(t, u, o, Owner, actor, k);
    case RevokeLocalLate(u, o) => StatementKeepsClaims(t, u, o, Owner, u, k);
    case DeleteLocalLate(u, o) => StatementKeepsClaims(t, u, o, Owner, u, k);
    case CreateOrg(actor, o) => StatementKeepsClaims(WithOrg(t, o), actor, o, Owner, actor, k);
    case GrantLocalLate(actor, o, u, role) => StatementKeepsClaims(t, u, o, role, actor, k);
    case _ => ElsewhereKeepsMembers(t, step);
  }

  predicate WritesMembers(step: Step) {
    || step.Login? || step.DropOrg? || step.CreateOrg? || step.PutOrgMember? || step.DeleteOrgMember?
    || step.GrantLocalLate? || step.RevokeLocalLate? || step.DeleteLocalLate?
  }

  lemma ElsewhereKeepsMembers(t: Tables, step: Step)
    requires Enabled(t, step) && !WritesMembers(step)
    ensures Next(t, step).members == t.members
  {
  }

  predicate Owns(t: Tables, u: User, o: Org) {
    (u, o) in t.members && HasSource(t.members[(u, o)]) && Effective(t.members[(u, o)]) == Owner
  }

  /** The row's ownership rests on its claim half alone. */
  predicate OwnsByClaim(t: Tables, u: User, o: Org) {
    (u, o) in t.members && t.members[(u, o)].oidc.Some? && t.members[(u, o)].oidc.value.role == Owner
  }

  /**
   The write that follows checks made on `read` finds an owner the checks did not see: a grant
   over a local owner, or a removal whose guard still matches the row.
   */
  predicate TakesOwner(read: Tables, t: Tables, step: Step)
    requires Enabled(read, step) && (step.PutOrgMember? || step.DeleteOrgMember?)
  {
    && Owns(t, step.u, step.o) && !OwnsByClaim(t, step.u, step.o)
    && match step
       case PutOrgMember(_, o, u, role) => role != Owner
       case DeleteOrgMember(_, o, u) => t.members[(u, o)].oidc.Some? == read.members[(u, o)].oidc.Some?
  }

  lemma GrantOwners(t: Tables, u: User, o: Org, role: OrgRole, grantor: User, v: User)
    requires role != Owner && ((u, o) in t.members ==> HasSource(t.members[(u, o)]))
    ensures Owns(GrantLocal(t, u, o, role, grantor), v, o) <==> if v == u then OwnsByClaim(t, u, o) else Owns(t, v, o)
  {
  }

  lemma RemovalOwners(t: Tables, u: User, o: Org, v: User)
    requires (u, o) in t.members ==> HasSource(t.members[(u, o)])
    ensures Owns(RevokeLocal(t, u, o), v, o) <==>
            if v == u && ClaimOf(t, (u, o)).Some? then OwnsByClaim(t, u, o) else Owns(t, v, o)
    ensures Owns(DeleteLocal(t, u, o), v, o) <==> !(v == u && ClaimOf(t, (u, o)).None?) && Owns(t, v, o)
  {
  }

  /**
   A caller who could not own the org makes no owner of it, and unmakes one exactly when the
   write comes late enough to find an owner that the checks did not see.
   */
  lemma OwnersOnlyByOwners(read: Tables, t: Tables, step: Step, v: User)
    requires MembersOk(t) && Enabled(read, step) && (step.PutOrgMember? || step.DeleteOrgMember?)
    requires !SessionFor(read, step.actor).CanOwnOrg(step.o) && Enabled(t, LateWrite(read, step))
    ensures Owns(Next(t, LateWrite(read, step)), v, step.o) <==> Owns(t, v, step.o) && !(v == step.u && TakesOwner(read, t, step))
    ensures read == t ==> !TakesOwner(read, t, step) && Next(t, LateWrite(read, step)) == Next(t, step)
  {
    match step
    case PutOrgMember(actor, o, u, role) => LateGrantOwners(read, t, actor, o, u, role, v);
    case DeleteOrgMember(actor, o, u) => LateRemovalOwners(read, t, actor, o, u, v);
  }

  lemma LateGrantOwners(read: Tables, t: Tables, actor: User, o: Org, u: User, role: OrgRole, v: User)
    requires MembersOk(t) && Enabled(read, PutOrgMember(actor, o, u, role)) && !SessionFor(read, actor).CanOwnOrg(o)
    ensures var step := PutOrgMember(actor, o, u, role);
            && (Owns(GrantLocal(t, u, o, role, actor), v, o) <==> Owns(t, v, o) && !(v == u && TakesOwner(read, t, step)))
            && (read == t ==> !TakesOwner(read, t, step))
  {
    GrantOwners(t, u, o, role, actor, v);
  }

  lemma LateRemovalOwners(read: Tables, t: Tables, actor: User, o: Org, u: User, v: User)
    requires MembersOk(t) && Enabled(read, DeleteOrgMember(actor, o, u)) && !SessionFor(read, actor).CanOwnOrg(o)
    ensures var step := DeleteOrgMember(actor, o, u);
            var t' := if read.members[(u, o)].oidc.Some? then RevokeLocal(t, u, o) else DeleteLocal(t, u, o);
            && (Owns(t', v, o) <==> Owns(t, v, o) && !(v == u && TakesOwner(read, t, step)))
            && (read == t ==> !TakesOwner(read, t, step))
  {
    RemovalOwners(t, u, o, v);
  }

  /** An org with an owner, an admin and a plain member. */
  function Roster(boss: User, admin: User, u: User, o: Org): Tables {
    var none := UserRow(None, None, 0);
    Tables(map[boss := none, admin := none, u := none], {o}, map[],
           map[(boss, o) := Membership(None, Some(Grant(Owner, boss))),
               (admin, o) := Membership(None, Some(Grant(Admin, boss))),
               (u, o) := Membership(None, Some(Grant(Member, boss)))], map[], map[])
  }

  lemma RosterSessions(boss: User, admin: User, u: User, o: Org)
    requires admin != boss && admin != u && boss != u
    ensures var t := Roster(boss, admin, u, o);
            Inv(t) && SessionFor(t, boss).CanOwnOrg(o) && SessionFor(t, boss).CanAdminOrg(o)
            && SessionFor(t, admin).CanAdminOrg(o) && !SessionFor(t, admin).CanOwnOrg(o)
  {
    RosterRows(boss, admin, u, o);
    RoleInSession(Roster(boss, admin, u, o), boss, o, Owner);
    RoleInSession(Roster(boss, admin, u, o), admin, o, Admin);
  }

  lemma RosterRows(boss: User, admin: User, u: User, o: Org)
    requires admin != boss && admin != u && boss != u
    ensures var t := Roster(boss, admin, u, o);
            && Inv(t) && boss in t.users && admin in t.users && u in t.users && !IsSiteAdmin(t.users[admin]) && !IsSiteAdmin(t.users[boss])
            && MemberRow(t, (boss, o)) == Some(Membership(None, Some(Grant(Owner, boss))))
            && MemberRow(t, (admin, o)) == Some(Membership(None, Some(Grant(Admin, boss))))
            && MemberRow(t, (u, o)) == Some(Membership(None, Some(Grant(Member, boss))))
  {
    var t := Roster(boss, admin, u, o);
    assert t.members.Keys == {(boss, o), (admin, o), (u, o)};
  }

  lemma RoleInSession(t: Tables, u: User, o: Org, role: OrgRole)
    requires o in t.orgs && (u, o) in t.members && HasSource(t.members[(u, o)]) && Effective(t.members[(u, o)]) == role
    requires u in t.users && !IsSiteAdmin(t.users[u])
    ensures SessionFor(t, u).CanOwnOrg(o) <==> role == Owner
    ensures SessionFor(t, u).CanAdminOrg(o) <==> role != Member
  {
    assert OrgRolesOf(t, u)[o] == role;
  }

  /** An admin's grant and an admin's removal, checked while `u` was a plain member, unmake the owner `u` became. */
  lemma LateWriteUnmakesOwner(boss: User, admin: User, u: User, o: Org, step: Step)
    requires admin != boss && admin != u && boss != u
    requires step == PutOrgMember(admin, o, u, Member) || step == DeleteOrgMember(admin, o, u)
    ensures var read, promote := Roster(boss, admin, u, o), PutOrgMember(boss, o, u, Owner);
            && Inv(read) && Enabled(read, step) && !SessionFor(read, admin).CanOwnOrg(o) && Enabled(read, promote)
            && var t := Next(read, promote);
               && !SessionFor(t, admin).CanOwnOrg(o) && Enabled(t, LateWrite(read, step))
               && Owns(t, u, o) && !Owns(Next(t, LateWrite(read, step)), u, o)
  {
    var read := Roster(boss, admin, u, o);
    RosterSessions(boss, admin, u, o);
    RosterRows(boss, admin, u, o);
    assert Enabled(read, step);
    var t := Next(read, PutOrgMember(boss, o, u, Owner));
    GrantEffect(read, boss, o, u, Owner, (u, o));
    GrantEffect(read, boss, o, u, Owner, (admin, o));
    GrantLocalKeeps(read, u, o, Owner, boss);
    RoleInSession(t, admin, o, Admin);
    OwnersOnlyByOwners(read, t, step, u);
  }

  // ---- what a transaction does, exactly ------------------------------------

  /** A grant replaces one row's local half with the role and its grantor; nothing else moves. */
  lemma GrantEffect(t: Tables, actor: User, o: Org, u: User, role: OrgRole, k: (User, Org))
    requires Enabled(t, PutOrgMember(actor, o, u, role))
    ensures var t' := Next(t, PutOrgMember(actor, o, u, role));
            && MemberRow(t', k) == (if k == (u, o) then Some(Membership(ClaimOf(t, k), Some(Grant(role, actor)))) else MemberRow(t, k))
            && t'.roles == t.roles && t'.keys == t.keys && t'.projects == t.projects && t'.orgs == t.orgs
  {
  }

  /** A removal leaves a claimed member at their claim, with every project role and key; an unclaimed one loses the row. */
  lemma RemovalEffect(t: Tables, actor: User, o: Org, u: User, k: (User, Org))
    requires Enabled(t, DeleteOrgMember(actor, o, u))
    ensures var t' := Next(t, DeleteOrgMember(actor, o, u));
            && MemberRow(t', k) == (if k != (u, o) then MemberRow(t, k)
                                    else if ClaimOf(t, k).Some? then Some(Membership(ClaimOf(t, k), None)) else None)
            && (ClaimOf(t, (u, o)).Some? ==> t'.roles == t.roles && t'.keys == t.keys)
  {
  }

  lemma RowUndone(t: Tables, actor: User, o: Org, u: User, role: OrgRole, remover: User, k: (User, Org))
    requires Enabled(t, PutOrgMember(actor, o, u, role))
    requires (u, o) in t.members ==> HasSource(t.members[(u, o)]) && t.members[(u, o)].local.None?
    requires Enabled(Next(t, PutOrgMember(actor, o, u, role)), DeleteOrgMember(remover, o, u))
    ensures MemberRow(Next(Next(t, PutOrgMember(actor, o, u, role)), DeleteOrgMember(remover, o, u)), k) == MemberRow(t, k)
  {
    GrantEffect(t, actor, o, u, role, k);
    RemovalEffect(Next(t, PutOrgMember(actor, o, u, role)), remover, o, u, k);
  }

  /** A removal undoes a grant: with no local half before, every membership, project role and key is as it was. */
  lemma RemovalUndoesGrant(t: Tables, actor: User, o: Org, u: User, role: OrgRole, remover: User)
    requires Inv(t) && Enabled(t, PutOrgMember(actor, o, u, role))
    requires (u, o) in t.members ==> t.members[(u, o)].local.None?
    requires Enabled(Next(t, PutOrgMember(actor, o, u, role)), DeleteOrgMember(remover, o, u))
    ensures var t' := Next(Next(t, PutOrgMember(actor, o, u, role)), DeleteOrgMember(remover, o, u));
            t'.members == t.members && t'.roles == t.roles && t'.keys == t.keys
  {
    var t' := Next(Next(t, PutOrgMember(actor, o, u, role)), DeleteOrgMember(remover, o, u));
    forall k ensures MemberRow(t', k) == MemberRow(t, k) { RowUndone(t, actor, o, u, role, remover, k); }
    SameMemberRows(t, t');
    DependentsUndone(t, actor, o, u, role, remover);
  }

  lemma DependentsUndone(t: Tables, actor: User, o: Org, u: User, role: OrgRole, remover: User)
    requires Inv(t) && Enabled(t, PutOrgMember(actor, o, u, role))
    requires Enabled(Next(t, PutOrgMember(actor, o, u, role)), DeleteOrgMember(remover, o, u))
    requires (u, o) in t.members ==> t.members[(u, o)].local.None?
    ensures var t' := Next(Next(t, PutOrgMember(actor, o, u, role)), DeleteOrgMember(remover, o, u));
            t'.roles == t.roles && t'.keys == t.keys
  {
    var t1 := Next(t, PutOrgMember(actor, o, u, role));
    GrantEffect(t, actor, o, u, role, (u, o));
    if ClaimOf(t1, (u, o)).Some? {
      RemovalEffect(t1, remover, o, u, (u, o));
    } else {
      GrantKeys(t, actor, o, u, role);
      NewcomerLosesNothing(t, t1, o, u);
    }
  }

  lemma GrantKeys(t: Tables, actor: User, o: Org, u: User, role: OrgRole)
    ensures GrantLocal(t, u, o, role, actor).members.Keys == t.members.Keys + {(u, o)}
  {
  }

  /** Who was no member held no project role and no key in the org. */
  lemma NewcomerLosesNothing(t: Tables, t1: Tables, o: Org, u: User)
    requires Inv(t) && (u, o) !in t.members && (u, o) in t1.members && t1.members[(u, o)].oidc.None?
    requires t1.roles == t.roles && t1.keys == t.keys && t1.projects == t.projects && t1.members.Keys == t.members.Keys + {(u, o)}
    ensures DeleteLocal(t1, u, o).roles == t.roles && DeleteLocal(t1, u, o).keys == t.keys
  {
    var t2 := t1.(members := t1.members - {(u, o)});
    TriggeredShape(t1, Cascaded(t2));
    assert t2.members.Keys == t.members.Keys;
    SameCascade(t2, t);
    NothingDangles(t);
  }

  lemma NothingDangles(t: Tables)
    requires Inv(t)
    ensures Cascaded(t).roles == t.roles && Cascaded(t).keys == t.keys
  {
    assert forall k :: k in t.roles ==> k in Cascaded(t).roles;
  }

  /** Leaving an org takes the user's project roles in that org, and the keys held under them, and nobody else's. */
  lemma RemovalCascade(t: Tables, actor: User, o: Org, u: User, p: (User, Project))
    requires Inv(t) && Enabled(t, DeleteOrgMember(actor, o, u)) && ClaimOf(t, (u, o)).None?
    ensures var t' := Next(t, DeleteOrgMember(actor, o, u));
            && (p in t'.roles <==> p in t.roles && !(p.0 == u && t.projects[p.1] == o))
            && (p in t'.roles ==> t'.roles[p] == t.roles[p])
            && (forall i :: i in t'.keys <==>
                  i in t.keys && !(t.keys[i].user == u && t.projects[t.keys[i].project] == o))
  {
    var t1 := t.(members := t.members - {(u, o)});
    RemovalIs(t, actor, o, u);
    TriggeredShape(t, Cascaded(t1));
    RemovedDependents(t, t1, u, o, p);
  }

  lemma RemovalIs(t: Tables, actor: User, o: Org, u: User)
    requires Enabled(t, DeleteOrgMember(actor, o, u)) && ClaimOf(t, (u, o)).None?
    ensures Next(t, DeleteOrgMember(actor, o, u)) == Triggered(t, Cascaded(t.(members := t.members - {(u, o)})))
  {
  }

  lemma RemovedDependents(t: Tables, t1: Tables, u: User, o: Org, p: (User, Project))
    requires Inv(t) && t1 == t.(members := t.members - {(u, o)})
    ensures var c := Cascaded(t1);
            && (p in c.roles <==> p in t.roles && !(p.0 == u && t.projects[p.1] == o))
            && (p in c.roles ==> c.roles[p] == t.roles[p])
            && (forall i :: i in c.keys <==> i in t.keys && !(t.keys[i].user == u && t.projects[t.keys[i].project] == o))
  {
    assert p == (p.0, p.1);
  }

  /** Leaving a project takes that role and the keys held under it, and nothing of anyone else's. */
  lemma ProjectRemoval(t: Tables, actor: User, x: Project, u: User, k: (User, Project), i: KeyId)
    requires Inv(t) && Enabled(t, DeleteProjectMember(actor, x, u))
    ensures var t' := Next(t, DeleteProjectMember(actor, x, u));
            && RoleRow(t', k) == (if k == (u, x) then None else RoleRow(t, k))
            && (i in t'.keys <==> i in t.keys && !(t.keys[i].user == u && t.keys[i].project == x))
            && (i in t'.keys ==> t'.keys[i] == t.keys[i]) && t'.members == t.members
  {
    TriggeredShape(t, Cascaded(t.(roles := t.roles - {(u, x)})));
    RoleGone(t, x, u, k, i);
  }

  lemma RoleGone(t: Tables, x: Project, u: User, k: (User, Project), i: KeyId)
    requires Inv(t)
    ensures var c := Cascaded(t.(roles := t.roles - {(u, x)}));
            && RoleRow(c, k) == (if k == (u, x) then None else RoleRow(t, k))
            && (i in c.keys <==> i in t.keys && !(t.keys[i].user == u && t.keys[i].project == x))
            && (i in c.keys ==> c.keys[i] == t.keys[i])
  {
    assert k == (k.0, k.1);
  }

  /** The site role rests on two columns: a grant sets one, a revocation clears it and leaves the claim. */
  lemma SiteGrants(t: Tables, u: User, grantor: Option<User>, v: User)
    requires u in t.users && v in t.users
    ensures var given, taken := Next(t, GrantSite(grantor, u)), SetSiteGrant(t, u, None);
            && v in given.users && v in taken.users
            && given.users[v].siteClaim == t.users[v].siteClaim && taken.users[v].siteClaim == t.users[v].siteClaim
            && given.users[v].siteGrant == (if v == u then Some(grantor) else t.users[v].siteGrant)
            && taken.users[v].siteGrant == (if v == u then None else t.users[v].siteGrant)
            && IsSiteAdmin(given.users[u]) && (IsSiteAdmin(taken.users[u]) <==> t.users[u].siteClaim.Some?)
    ensures t.users[u].siteGrant.Some? ==> Enabled(t, RevokeSite(u)) && Next(t, RevokeSite(u)) == SetSiteGrant(t, u, None)
  {
  }

  /** Who creates an org owns it; who creates a project in their org administers it. */
  lemma CreatorsHold(t: Tables, actor: User, o: Org, x: Project)
    ensures Enabled(t, CreateOrg(actor, o)) ==>
              var t' := Next(t, CreateOrg(actor, o));
              o in t'.orgs && Owns(t', actor, o) && forall k :: k != (actor, o) ==> MemberRow(t', k) == MemberRow(t, k)
    ensures Enabled(t, CreateProject(actor, o, x)) ==>
              var t' := Next(t, CreateProject(actor, o, x));
              && x in t'.projects && t'.projects == t.projects[x := o] && t'.members == t.members
              && t'.roles == if (actor, o) in t.members then t.roles[(actor, x) := ProjectAdmin] else t.roles
  {
    if Enabled(t, CreateOrg(actor, o)) { OrgCreated(t, actor, o); }
    if Enabled(t, CreateProject(actor, o, x)) { ProjectCreated(t, actor, o, x); }
  }

  lemma OrgCreated(t: Tables, actor: User, o: Org)
    ensures var t' := GrantLocal(WithOrg(t, o), actor, o, Owner, actor);
            o in t'.orgs && Owns(t', actor, o) && forall k :: k != (actor, o) ==> MemberRow(t', k) == MemberRow(t, k)
  {
  }

  lemma ProjectCreated(t: Tables, actor: User, o: Org, x: Project)
    ensures var t' := CreatorRole(t.(projects := t.projects[x := o]), actor, o, x);
            && t'.projects == t.projects[x := o] && t'.members == t.members
            && t'.roles == if (actor, o) in t.members then t.roles[(actor, x) := ProjectAdmin] else t.roles
  {
    var t1 := t.(projects := t.projects[x := o]);
    TriggeredShape(t1, t1.(roles := t1.roles[(actor, x) := ProjectAdmin]));
  }

  /** Nothing of a dropped project is left, and nothing else goes with it. */
  lemma DroppedProject(t: Tables, x: Project, k: (User, Project), i: KeyId)
    requires Inv(t)
    ensures var t' := Next(t, DropProject(x));
            && t'.projects == t.projects - {x} && t'.members == t.members && t'.orgs == t.orgs
            && RoleRow(t', k) == (if k.1 == x then None else RoleRow(t, k))
            && (i in t'.keys <==> i in t.keys && t.keys[i].project != x) && (i in t'.keys ==> t'.keys[i] == t.keys[i])
  {
    var c := Cascaded(WithoutProject(t, x));
    ProjectGoneRoles(t, x, k);
    ProjectGoneKeys(t, x, i);
    SameRowsTriggered(t, c);
  }

  lemma SameRowsTriggered(t: Tables, c: Tables)
    ensures var r := Triggered(t, c);
            && r.projects == c.projects && r.members == c.members && r.orgs == c.orgs && r.roles == c.roles && r.keys == c.keys
  {
  }

  lemma ProjectGoneRoles(t: Tables, x: Project, k: (User, Project))
    requires Inv(t)
    ensures RoleRow(Cascaded(WithoutProject(t, x)), k) == (if k.1 == x then None else RoleRow(t, k))
  {
    assert k == (k.0, k.1);
  }

  lemma ProjectGoneKeys(t: Tables, x: Project, i: KeyId)
    requires Inv(t)
    ensures var c := Cascaded(WithoutProject(t, x));
            (i in c.keys <==> i in t.keys && t.keys[i].project != x) && (i in c.keys ==> c.keys[i] == t.keys[i])
  {
    if i in t.keys { ProjectGoneRoles(t, x, (t.keys[i].user, t.keys[i].project)); }
  }

  /** An org is dropped once it has no project: its memberships go, and no project role or key. */
  lemma DroppedOrg(t: Tables, o: Org, k: (User, Org))
    requires Inv(t) && Enabled(t, DropOrg(o))
    ensures var t' := Next(t, DropOrg(o));
            && t'.orgs == t.orgs - {o} && t'.projects == t.projects && t'.roles == t.roles && t'.keys == t.keys
            && MemberRow(t', k) == if k.1 == o then None else MemberRow(t, k)
  {
    var t1 := WithoutOrg(t, o);
    TriggeredShape(t, Cascaded(t1));
    OrgEmpty(t, t1, o);
  }

  lemma OrgEmpty(t: Tables, t1: Tables, o: Org)
    requires Inv(t) && o !in t.projects.Values && t1 == WithoutOrg(t, o)
    ensures Cascaded(t1).roles == t.roles && Cascaded(t1).keys == t.keys
  {
    forall k | k in t.roles ensures k in Cascaded(t1).roles { assert t.projects[k.1] in t.projects.Values; }
    assert forall i :: i in t.keys ==> (t.keys[i].user, t.keys[i].project) in t.roles;
  }

  /** A key lives from its mint to its revocation, and its row until it is purged; no other key is touched. */
  lemma KeyLife(t: Tables, u: User, key: KeyId, x: Project, scope: Scope, i: KeyId)
    ensures Enabled(t, MintKey(u, key, x, scope)) ==>
              var t' := Next(t, MintKey(u, key, x, scope));
              t'.keys.Keys == t.keys.Keys + {key} && t'.keys[key] == Key(u, x, scope, false) && (i in t.keys ==> t'.keys[i] == t.keys[i])
    ensures key in t.keys ==>
              var t' := Next(t, RevokeKey(key));
              t'.keys.Keys == t.keys.Keys && t'.keys[key].revoked && (i in t.keys && i != key ==> t'.keys[i] == t.keys[i])
    ensures Enabled(t, PurgeKey(key)) ==> t.keys[key].revoked && Next(t, PurgeKey(key)).keys == t.keys - {key}
  {
  }
}
