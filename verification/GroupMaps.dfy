/** The group mapping file: from a groups claim to the claim half of a user's roles. */
module GroupMaps {
  import opened Types

  /** A role as the file spells it; any spelling but the three is `Other`. */
  datatype RoleName = MemberName | AdminName | OwnerName | Other(text: string)

  function Rank(r: RoleName): nat {
    match r
    case MemberName => 1
    case AdminName => 2
    case OwnerName => 3
    case Other(_) => 0
  }

  datatype OrgEntry = OrgEntry(slug: string, groups: map<string, RoleName>)

  datatype GroupMap = GroupMap(loginGroups: seq<string>, siteAdminGroups: seq<string>, orgs: seq<OrgEntry>)

  datatype Claim = Claim(groups: seq<string>, present: bool)

  datatype Resolution = Resolution(siteAdmin: bool, siteGroup: string,
                                   orgs: map<string, RoleName>, orgGroups: map<string, string>)

  datatype Error = GroupsUnreadable | NotInLoginGroup

  const ZERO := Resolution(false, "", map[], map[])

  // ---- validate ------------------------------------------------------------

  predicate EntryOk(slugOk: string -> bool, e: OrgEntry) {
    slugOk(e.slug) && e.groups != map[] && forall name :: name in e.groups ==> name != "" && Rank(e.groups[name]) > 0
  }

  ghost predicate ValidMap(slugOk: string -> bool, g: GroupMap) {
    && EntriesOk(slugOk, g.orgs)
    && "" !in g.siteAdminGroups && "" !in g.loginGroups
  }

  method GroupsOk(groups: map<string, RoleName>) returns (ok: bool)
    ensures ok <==> forall name :: name in groups ==> name != "" && Rank(groups[name]) > 0
  {
    var rest := groups.Keys;
    while rest != {}
      invariant rest <= groups.Keys
      invariant forall name :: name in groups && name !in rest ==> name != "" && Rank(groups[name]) > 0
    {
      var name :| name in rest;
      if name == "" || Rank(groups[name]) == 0 {
        return false;
      }
      rest := rest - {name};
    }
    ok := true;
  }

  function Slugs(orgs: seq<OrgEntry>): set<string> {
    set i | 0 <= i < |orgs| :: orgs[i].slug
  }

  ghost predicate EntriesOk(slugOk: string -> bool, orgs: seq<OrgEntry>) {
    && (forall i :: 0 <= i < |orgs| ==> EntryOk(slugOk, orgs[i]))
    && (forall i, j :: 0 <= i < j < |orgs| ==> orgs[i].slug != orgs[j].slug)
  }

  lemma EntriesNext(slugOk: string -> bool, orgs: seq<OrgEntry>, n: nat)
    requires n < |orgs| && EntriesOk(slugOk, orgs[..n])
    ensures EntriesOk(slugOk, orgs[..n + 1]) <==> EntryOk(slugOk, orgs[n]) && orgs[n].slug !in Slugs(orgs[..n])
    ensures EntriesOk(slugOk, orgs) ==> EntriesOk(slugOk, orgs[..n + 1])
    ensures Slugs(orgs[..n + 1]) == Slugs(orgs[..n]) + {orgs[n].slug}
  {
    var more, less := orgs[..n + 1], orgs[..n];
    assert more == less + [orgs[n]];
    assert forall i :: 0 <= i < n ==> more[i] == less[i];
    assert more[n] == orgs[n];
    if orgs[n].slug in Slugs(less) {
      var i :| 0 <= i < n && less[i].slug == orgs[n].slug;
      assert more[i].slug == more[n].slug;
    }
    forall slug ensures slug in Slugs(more) <==> slug in Slugs(less) || slug == orgs[n].slug {
      if slug in Slugs(less) { var i :| 0 <= i < n && less[i].slug == slug; assert more[i].slug == slug; }
    }
  }

  method Validate(slugOk: string -> bool, g: GroupMap) returns (ok: bool)
    ensures ok <==> ValidMap(slugOk, g)
  {
    var seen: set<string> := {};
    var i := 0;
    while i < |g.orgs|
      invariant 0 <= i <= |g.orgs| && seen == Slugs(g.orgs[..i]) && EntriesOk(slugOk, g.orgs[..i])
    {
      var org := g.orgs[i];
      EntriesNext(slugOk, g.orgs, i);
      var groupsOk := GroupsOk(org.groups);
      if !slugOk(org.slug) || org.slug in seen || org.groups == map[] || !groupsOk {
        return false;
      }
      seen := seen + {org.slug};
      i := i + 1;
    }
    assert g.orgs[..i] == g.orgs;
    ok := "" !in g.siteAdminGroups && "" !in g.loginGroups;
  }

  // ---- resolve -------------------------------------------------------------

  /** A claimed group of the file, the org it is mapped to and the role it grants there. */
  datatype Granted = Granted(slug: string, name: string, role: RoleName)

  ghost predicate IsGranted(g: GroupMap, claimed: set<string>, x: Granted) {
    && x.name in claimed && Rank(x.role) > 0
    && exists i :: 0 <= i < |g.orgs| && g.orgs[i].slug == x.slug && (x.name, x.role) in g.orgs[i].groups.Items
  }

  /** `orgs` holds the greatest role of `seen` for each org, and `groups` a group that grants it. */
  ghost predicate Best(orgs: map<string, RoleName>, groups: map<string, string>, seen: iset<Granted>) {
    && orgs.Keys == groups.Keys
    && (forall slug :: slug in orgs ==> Granted(slug, groups[slug], orgs[slug]) in seen)
    && (forall x :: x in seen ==> x.slug in orgs && Rank(x.role) <= Rank(orgs[x.slug]))
  }

  ghost function AllGranted(g: GroupMap, claimed: set<string>): iset<Granted> {
    iset x | IsGranted(g, claimed, x)
  }

  /** The first of `want` that is claimed, "" when there is none. */
  ghost predicate IsFirstClaimed(claimed: set<string>, want: seq<string>, first: string) {
    || (first == "" && forall i :: 0 <= i < |want| ==> want[i] !in claimed)
    || exists i :: 0 <= i < |want| && want[i] == first && first in claimed && forall j :: 0 <= j < i ==> want[j] !in claimed
  }

  method FirstClaimed(claimed: set<string>, want: seq<string>) returns (first: string)
    ensures IsFirstClaimed(claimed, want, first)
  {
    var i := 0;
    while i < |want|
      invariant 0 <= i <= |want| && forall j :: 0 <= j < i ==> want[j] !in claimed
    {
      if want[i] in claimed {
        return want[i];
      }
      i := i + 1;
    }
    first := "";
  }

  function GroupSet(claim: Claim): set<string> {
    set i | 0 <= i < |claim.groups| :: claim.groups[i]
  }

  /** The login gate admits everybody when it names no group. */
  ghost predicate Admitted(g: GroupMap, claimed: set<string>) {
    g.loginGroups == [] || exists i :: 0 <= i < |g.loginGroups| && g.loginGroups[i] in claimed
  }

  /** What a successful resolution is, whatever order the maps were read in. */
  ghost predicate Resolves(g: GroupMap, claim: Claim, r: Resolution) {
    && Best(r.orgs, r.orgGroups, AllGranted(g, GroupSet(claim)))
    && IsFirstClaimed(GroupSet(claim), g.siteAdminGroups, r.siteGroup)
    && (r.siteAdmin <==> r.siteGroup != "")
  }

  /** The entries of the first `n` orgs, and of the next one those whose group is in `done`. */
  ghost predicate SeenUpTo(g: GroupMap, claimed: set<string>, n: nat, done: set<string>, x: Granted) {
    && x.name in claimed && Rank(x.role) > 0
    && ((exists i :: 0 <= i < n && i < |g.orgs| && g.orgs[i].slug == x.slug && (x.name, x.role) in g.orgs[i].groups.Items)
        || (n < |g.orgs| && g.orgs[n].slug == x.slug && x.name in done && (x.name, x.role) in g.orgs[n].groups.Items))
  }

  ghost function Seen(g: GroupMap, claimed: set<string>, n: nat, done: set<string>): iset<Granted> {
    iset x | SeenUpTo(g, claimed, n, done, x)
  }

  lemma SeenGroup(g: GroupMap, claimed: set<string>, n: nat, done: set<string>, name: string)
    requires n < |g.orgs| && name in g.orgs[n].groups
    ensures var x := Granted(g.orgs[n].slug, name, g.orgs[n].groups[name]);
            Seen(g, claimed, n, done + {name}) ==
            Seen(g, claimed, n, done) + if name in claimed && Rank(x.role) > 0 then iset{x} else iset{}
  {
    var x := Granted(g.orgs[n].slug, name, g.orgs[n].groups[name]);
    assert (name, g.orgs[n].groups[name]) in g.orgs[n].groups.Items;
    forall y ensures y in Seen(g, claimed, n, done + {name}) <==>
                     y in Seen(g, claimed, n, done) || (y == x && name in claimed && Rank(x.role) > 0) {}
  }

  lemma SeenOrg(g: GroupMap, claimed: set<string>, n: nat)
    requires n < |g.orgs|
    ensures Seen(g, claimed, n, g.orgs[n].groups.Keys) == Seen(g, claimed, n + 1, {})
  {
    forall x ensures x in Seen(g, claimed, n, g.orgs[n].groups.Keys) <==> x in Seen(g, claimed, n + 1, {}) {
      if (x.name, x.role) in g.orgs[n].groups.Items { assert x.name in g.orgs[n].groups; }
    }
  }

  /** STRICTLY greater wins, so a later equal role never replaces the recorded group. */
  function Raise(orgs: map<string, RoleName>, slug: string, role: RoleName): bool {
    Rank(role) > if slug in orgs then Rank(orgs[slug]) else 0
  }

  lemma BestNext(orgs: map<string, RoleName>, groups: map<string, string>, seen: iset<Granted>, x: Granted)
    requires Best(orgs, groups, seen) && Rank(x.role) > 0
    ensures if Raise(orgs, x.slug, x.role) then Best(orgs[x.slug := x.role], groups[x.slug := x.name], seen + iset{x})
            else Best(orgs, groups, seen + iset{x})
  {
  }

  /** The groups of one org, in whatever order its map yields them. */
  method ResolveOrg(g: GroupMap, claimed: set<string>, n: nat, orgs0: map<string, RoleName>, groups0: map<string, string>)
    returns (orgs: map<string, RoleName>, groups: map<string, string>)
    requires n < |g.orgs| && Best(orgs0, groups0, Seen(g, claimed, n, {}))
    ensures Best(orgs, groups, Seen(g, claimed, n + 1, {}))
  {
    orgs, groups := orgs0, groups0;
    var org := g.orgs[n];
    ghost var done: set<string> := {};
    var rest := org.groups.Keys;
    while rest != {}
      invariant rest <= org.groups.Keys && done == org.groups.Keys - rest
      invariant Best(orgs, groups, Seen(g, claimed, n, done))
    {
      var name :| name in rest;
      var role := org.groups[name];
      SeenGroup(g, claimed, n, done, name);
      if name in claimed {
        if Rank(role) > 0 { BestNext(orgs, groups, Seen(g, claimed, n, done), Granted(org.slug, name, role)); }
        if Raise(orgs, org.slug, role) {
          orgs, groups := orgs[org.slug := role], groups[org.slug := name];
        }
      }
      done := done + {name};
      rest := rest - {name};
    }
    SeenOrg(g, claimed, n);
    assert done == org.groups.Keys;
  }

  /**
   Fails closed: an unreadable claim before the gate, then the gate, and on either the zero
   resolution. Otherwise each org gets the greatest role of the claimed groups mapped to it.
   */
  method Resolve(g: GroupMap, claim: Claim) returns (r: Resolution, error: Option<Error>)
    ensures error == Some(GroupsUnreadable) <==> !claim.present
    ensures "" !in g.loginGroups ==>
              (error == Some(NotInLoginGroup) <==> claim.present && !Admitted(g, GroupSet(claim)))
    ensures error.Some? ==> r == ZERO
    ensures error.None? ==> Resolves(g, claim, r)
  {
    if !claim.present {
      return ZERO, Some(GroupsUnreadable);
    }
    var claimed := GroupSet(claim);
    if |g.loginGroups| > 0 {
      var gate := FirstClaimed(claimed, g.loginGroups);
      if gate == "" {
        return ZERO, Some(NotInLoginGroup);
      }
    }
    var orgs: map<string, RoleName>, groups: map<string, string> := map[], map[];
    var n := 0;
    while n < |g.orgs|
      invariant 0 <= n <= |g.orgs| && Best(orgs, groups, Seen(g, claimed, n, {}))
    {
      orgs, groups := ResolveOrg(g, claimed, n, orgs, groups);
      n := n + 1;
    }
    assert Seen(g, claimed, n, {}) == AllGranted(g, claimed);
    var siteGroup := FirstClaimed(claimed, g.siteAdminGroups);
    r, error := Resolution(siteGroup != "", siteGroup, orgs, groups), None;
  }

  lemma RankInjective(a: RoleName, b: RoleName)
    requires Rank(a) == Rank(b) > 0
    ensures a == b
  {
  }

  /** The greatest role is determined by what is granted. */
  lemma BestUnique(o1: map<string, RoleName>, g1: map<string, string>, o2: map<string, RoleName>, g2: map<string, string>,
                   seen: iset<Granted>)
    requires Best(o1, g1, seen) && Best(o2, g2, seen) && forall x :: x in seen ==> Rank(x.role) > 0
    ensures o1 == o2
  {
    forall slug | slug in o1 ensures slug in o2 && o1[slug] == o2[slug] {
      assert Granted(slug, g1[slug], o1[slug]) in seen;
      assert Granted(slug, g2[slug], o2[slug]) in seen;
      RankInjective(o1[slug], o2[slug]);
    }
    forall slug | slug in o2 ensures slug in o1 { assert Granted(slug, g2[slug], o2[slug]) in seen; }
  }

  /** Two resolutions of one claim give the same roles; they may differ in which equal-ranked group they record. */
  lemma ResolutionsAgree(g: GroupMap, claim: Claim, a: Resolution, b: Resolution)
    requires Resolves(g, claim, a) && Resolves(g, claim, b)
    ensures a.orgs == b.orgs && a.siteGroup == b.siteGroup && a.siteAdmin == b.siteAdmin
  {
    BestUnique(a.orgs, a.orgGroups, b.orgs, b.orgGroups, AllGranted(g, GroupSet(claim)));
  }

  /** In a valid file the recorded group is one the user holds, and it alone justifies the recorded role. */
  lemma RecordedGroupJustifies(slugOk: string -> bool, g: GroupMap, claim: Claim, r: Resolution, slug: string)
    requires ValidMap(slugOk, g) && Resolves(g, claim, r) && slug in r.orgs
    ensures r.orgGroups[slug] in claim.groups
    ensures exists i :: 0 <= i < |g.orgs| && g.orgs[i].slug == slug &&
              r.orgGroups[slug] in g.orgs[i].groups && g.orgs[i].groups[r.orgGroups[slug]] == r.orgs[slug]
  {
    var x := Granted(slug, r.orgGroups[slug], r.orgs[slug]);
    assert x in AllGranted(g, GroupSet(claim));
    var i :| 0 <= i < |g.orgs| && g.orgs[i].slug == x.slug && (x.name, x.role) in g.orgs[i].groups.Items;
  }
}
