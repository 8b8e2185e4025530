/**
 User-token requests against the principal cache while authority changes: every probe, each
 of the three role reads, every fill, hit, expiry and eviction is a step of its own, and any
 authority transaction may commit between two of them.
 */
module PrincipalRuns {
  import opened Types
  import opened Roles
  import A = Authority
  import E = Epochs
  import opened PrincipalCaches

  type RequestId = nat

  /** A request, from its probe on; `at` is the moment of the probe and `epoch` what it read. */
  datatype Request =
    | Probed(u: User, at: nat, epoch: nat, maxScope: Scope)
    | GotUser(u: User, at: nat, epoch: nat, maxScope: Scope, siteAdmin: bool)
    | GotOrgs(u: User, at: nat, epoch: nat, maxScope: Scope, siteAdmin: bool, orgs: map<Org, OrgRole>)
    | Answered(u: User, at: nat, epoch: nat, maxScope: Scope, authz: Authz)

  /** `log` is every committed state of the authority tables so far, the current one last. */
  datatype Sys = Sys(log: seq<A.Tables>, history: seq<A.Step>, cache: map<AuthzKey, Authz>, reqs: map<RequestId, Request>)

  datatype Step =
    | Commit(change: A.Step)
    | Probe(r: RequestId, u: User, maxScope: Scope)
    | Hit(r: RequestId)
    | ReadUser(r: RequestId)
    | ReadOrgs(r: RequestId)
    | ReadProjectsAndFill(r: RequestId)
    | Drop(keys: set<AuthzKey>)   // expiry and eviction

  const INIT := Sys([A.EMPTY], [], map[], map[])

  function Now(s: Sys): A.Tables
    requires s.log != []
  {
    s.log[|s.log| - 1]
  }

  predicate Enabled(s: Sys, step: Step)
    requires s.log != []
  {
    match step
    case Commit(change) => A.Enabled(Now(s), change)
    case Probe(r, u, maxScope) => r !in s.reqs && u in Now(s).users
    case Hit(r) => r in s.reqs && s.reqs[r].Probed? && AuthzKey(s.reqs[r].u, s.reqs[r].epoch) in s.cache
    case ReadUser(r) => r in s.reqs && s.reqs[r].Probed? && s.reqs[r].u in Now(s).users
    case ReadOrgs(r) => r in s.reqs && s.reqs[r].GotUser?
    case ReadProjectsAndFill(r) => r in s.reqs && s.reqs[r].GotOrgs?
    case Drop(keys) => true
  }

  function Next(s: Sys, step: Step): Sys
    requires s.log != [] && Enabled(s, step)
  {
    match step
    case Commit(change) => s.(log := s.log + [A.Next(Now(s), change)], history := s.history + [change])
    case Probe(r, u, maxScope) =>
      s.(reqs := s.reqs[r := Probed(u, |s.log| - 1, Now(s).users[u].epoch, maxScope)])
    case Hit(r) =>
      var q := s.reqs[r];
      s.(reqs := s.reqs[r := Answered(q.u, q.at, q.epoch, q.maxScope, s.cache[AuthzKey(q.u, q.epoch)])])
    case ReadUser(r) =>
      var q := s.reqs[r];
      s.(reqs := s.reqs[r := GotUser(q.u, q.at, q.epoch, q.maxScope, A.IsSiteAdmin(Now(s).users[q.u]))])
    case ReadOrgs(r) =>
      var q := s.reqs[r];
      s.(reqs := s.reqs[r := GotOrgs(q.u, q.at, q.epoch, q.maxScope, q.siteAdmin, A.OrgRolesOf(Now(s), q.u))])
    case ReadProjectsAndFill(r) =>
      var q := s.reqs[r];
      var authz := Authz(q.siteAdmin, q.orgs, A.ProjectRolesOf(Now(s), q.u));
      s.(cache := s.cache[AuthzKey(q.u, q.epoch) := authz],
         reqs := s.reqs[r := Answered(q.u, q.at, q.epoch, q.maxScope, authz)])
    case Drop(keys) => s.(cache := s.cache - keys)
  }

  ghost predicate IsRun(states: seq<Sys>, steps: seq<Step>) {
    && |states| == |steps| + 1 && states[0] == INIT
    && forall i :: 0 <= i < |steps| ==>
         states[i].log != [] && Enabled(states[i], steps[i]) && states[i + 1] == Next(states[i], steps[i])
  }

  // ---- where a role set was read -------------------------------------------

  ghost predicate SiteSince(log: seq<A.Tables>, u: User, i: nat, siteAdmin: bool) {
    exists x :: i <= x < |log| && A.LoadAuthz(log[x], u).siteAdmin == siteAdmin
  }

  ghost predicate OrgsSince(log: seq<A.Tables>, u: User, i: nat, orgs: map<Org, OrgRole>) {
    exists x :: i <= x < |log| && A.LoadAuthz(log[x], u).orgs == orgs
  }

  ghost predicate ProjectsSince(log: seq<A.Tables>, u: User, i: nat, projects: map<Project, ProjectRole>) {
    exists x :: i <= x < |log| && A.LoadAuthz(log[x], u).projects == projects
  }

  /** Each part is the user's part of the tables at some moment from `i` on; not all of the same moment. */
  ghost predicate Since(log: seq<A.Tables>, u: User, i: nat, a: Authz) {
    SiteSince(log, u, i, a.siteAdmin) && OrgsSince(log, u, i, a.orgs) && ProjectsSince(log, u, i, a.projects)
  }

  ghost predicate ProbedAt(log: seq<A.Tables>, u: User, i: nat, epoch: nat) {
    i < |log| && u in log[i].users && log[i].users[u].epoch == epoch
  }

  ghost predicate EntryOk(log: seq<A.Tables>, key: AuthzKey, a: Authz) {
    exists i: nat :: ProbedAt(log, key.user, i, key.epoch) && Since(log, key.user, i, a)
  }

  ghost predicate RequestOk(log: seq<A.Tables>, q: Request) {
    && ProbedAt(log, q.u, q.at, q.epoch)
    && (q.GotUser? || q.GotOrgs? ==> SiteSince(log, q.u, q.at, q.siteAdmin))
    && (q.GotOrgs? ==> OrgsSince(log, q.u, q.at, q.orgs))
    && (q.Answered? ==> Since(log, q.u, q.at, q.authz))
  }

  ghost predicate Inv(s: Sys) {
    && A.IsRun(s.log, s.history)
    && (forall key :: key in s.cache ==> EntryOk(s.log, key, s.cache[key]))
    && (forall r :: r in s.reqs ==> RequestOk(s.log, s.reqs[r]))
  }

  /** The epoch carries a part over to any later probe that reads the same epoch. */
  lemma SameEpochSameAuthz(s: Sys, u: User, i: nat, j: nat, epoch: nat, x: nat)
    requires A.IsRun(s.log, s.history) && ProbedAt(s.log, u, i, epoch) && ProbedAt(s.log, u, j, epoch)
    requires i <= x < j
    ensures A.LoadAuthz(s.log[x], u) == A.LoadAuthz(s.log[j], u)
  {
    E.EpochDecidesAuthority(s.log, s.history, i, x, u);
    E.EpochDecidesAuthority(s.log, s.history, x, j, u);
  }

  lemma Rebase(s: Sys, u: User, i: nat, j: nat, epoch: nat, a: Authz)
    requires A.IsRun(s.log, s.history) && ProbedAt(s.log, u, i, epoch) && ProbedAt(s.log, u, j, epoch)
    requires Since(s.log, u, i, a)
    ensures Since(s.log, u, j, a)
  {
    var x :| i <= x < |s.log| && A.LoadAuthz(s.log[x], u).siteAdmin == a.siteAdmin;
    if x < j { SameEpochSameAuthz(s, u, i, j, epoch, x); }
    var y := if x < j then j else x;
    assert A.LoadAuthz(s.log[y], u).siteAdmin == a.siteAdmin;
    var x2 :| i <= x2 < |s.log| && A.LoadAuthz(s.log[x2], u).orgs == a.orgs;
    if x2 < j { SameEpochSameAuthz(s, u, i, j, epoch, x2); }
    var y2 := if x2 < j then j else x2;
    assert A.LoadAuthz(s.log[y2], u).orgs == a.orgs;
    var x3 :| i <= x3 < |s.log| && A.LoadAuthz(s.log[x3], u).projects == a.projects;
    if x3 < j { SameEpochSameAuthz(s, u, i, j, epoch, x3); }
    var y3 := if x3 < j then j else x3;
    assert A.LoadAuthz(s.log[y3], u).projects == a.projects;
  }

  lemma SinceLonger(log: seq<A.Tables>, t: A.Tables, u: User, i: nat, a: Authz)
    ensures SiteSince(log, u, i, a.siteAdmin) ==> SiteSince(log + [t], u, i, a.siteAdmin)
    ensures OrgsSince(log, u, i, a.orgs) ==> OrgsSince(log + [t], u, i, a.orgs)
    ensures ProjectsSince(log, u, i, a.projects) ==> ProjectsSince(log + [t], u, i, a.projects)
    ensures Since(log, u, i, a) ==> Since(log + [t], u, i, a)
  {
    if SiteSince(log, u, i, a.siteAdmin) {
      var x :| i <= x < |log| && A.LoadAuthz(log[x], u).siteAdmin == a.siteAdmin;
      assert (log + [t])[x] == log[x];
    }
    if OrgsSince(log, u, i, a.orgs) {
      var x :| i <= x < |log| && A.LoadAuthz(log[x], u).orgs == a.orgs;
      assert (log + [t])[x] == log[x];
    }
    if ProjectsSince(log, u, i, a.projects) {
      var x :| i <= x < |log| && A.LoadAuthz(log[x], u).projects == a.projects;
      assert (log + [t])[x] == log[x];
    }
  }

  lemma RequestLonger(log: seq<A.Tables>, t: A.Tables, q: Request)
    requires RequestOk(log, q)
    ensures RequestOk(log + [t], q)
  {
    assert (log + [t])[q.at] == log[q.at];
    match q
    case Probed(_, _, _, _) =>
    case GotUser(_, _, _, _, site) => SinceLonger(log, t, q.u, q.at, Authz(site, map[], map[]));
    case GotOrgs(_, _, _, _, site, orgs) => SinceLonger(log, t, q.u, q.at, Authz(site, orgs, map[]));
    case Answered(_, _, _, _, authz) => SinceLonger(log, t, q.u, q.at, authz);
  }

  lemma EntryLonger(log: seq<A.Tables>, t: A.Tables, key: AuthzKey, a: Authz)
    requires EntryOk(log, key, a)
    ensures EntryOk(log + [t], key, a)
  {
    var i: nat :| ProbedAt(log, key.user, i, key.epoch) && Since(log, key.user, i, a);
    SinceLonger(log, t, key.user, i, a);
    assert (log + [t])[i] == log[i];
    assert ProbedAt(log + [t], key.user, i, key.epoch);
  }

  lemma RunLonger(log: seq<A.Tables>, history: seq<A.Step>, change: A.Step, t: A.Tables)
    requires A.IsRun(log, history) && A.Follows(log[|log| - 1], change, t)
    ensures A.IsRun(log + [t], history + [change])
  {
    var more, steps := log + [t], history + [change];
    forall i | 0 <= i < |steps| ensures A.Follows(more[i], steps[i], more[i + 1]) {
      if i < |history| {
        SameFollows(log[i], history[i], log[i + 1], more[i], steps[i], more[i + 1]);
      } else {
        SameFollows(log[|log| - 1], change, t, more[i], steps[i], more[i + 1]);
      }
    }
  }

  lemma SameFollows(a: A.Tables, step: A.Step, b: A.Tables, a': A.Tables, step': A.Step, b': A.Tables)
    requires A.Follows(a, step, b) && a == a' && step == step' && b == b'
    ensures A.Follows(a', step', b')
  {
  }

  lemma LogGrows(s: Sys, t: A.Tables, change: A.Step)
    requires Inv(s) && A.IsRun(s.log + [t], s.history + [change])
    ensures Inv(s.(log := s.log + [t], history := s.history + [change]))
  {
    forall key | key in s.cache ensures EntryOk(s.log + [t], key, s.cache[key]) {
      EntryLonger(s.log, t, key, s.cache[key]);
    }
    forall r | r in s.reqs ensures RequestOk(s.log + [t], s.reqs[r]) { RequestLonger(s.log, t, s.reqs[r]); }
  }

  lemma CommitKeeps(s: Sys, change: A.Step)
    requires Inv(s) && A.Enabled(Now(s), change)
    ensures Inv(Next(s, Commit(change)))
  {
    RunLonger(s.log, s.history, change, A.Next(Now(s), change));
    LogGrows(s, A.Next(Now(s), change), change);
  }

  /** A read made now is a read since any probe so far. */
  lemma ReadNow(s: Sys, u: User, at: nat)
    requires s.log != [] && at < |s.log|
    ensures var a := A.LoadAuthz(Now(s), u);
            SiteSince(s.log, u, at, a.siteAdmin) && OrgsSince(s.log, u, at, a.orgs) && ProjectsSince(s.log, u, at, a.projects)
  {
    var x := |s.log| - 1;
    assert A.LoadAuthz(s.log[x], u) == A.LoadAuthz(Now(s), u);
  }

  lemma RequestMoves(s: Sys, r: RequestId, q: Request)
    requires Inv(s) && RequestOk(s.log, q)
    ensures Inv(s.(reqs := s.reqs[r := q]))
  {
  }

  lemma EntryFilled(s: Sys, key: AuthzKey, a: Authz)
    requires Inv(s) && EntryOk(s.log, key, a)
    ensures Inv(s.(cache := s.cache[key := a]))
  {
  }

  lemma HitAnswers(s: Sys, q: Request)
    requires A.IsRun(s.log, s.history) && RequestOk(s.log, q)
    requires AuthzKey(q.u, q.epoch) in s.cache && EntryOk(s.log, AuthzKey(q.u, q.epoch), s.cache[AuthzKey(q.u, q.epoch)])
    ensures Since(s.log, q.u, q.at, s.cache[AuthzKey(q.u, q.epoch)])
  {
    var key := AuthzKey(q.u, q.epoch);
    var i: nat :| ProbedAt(s.log, key.user, i, key.epoch) && Since(s.log, key.user, i, s.cache[key]);
    Rebase(s, q.u, i, q.at, q.epoch, s.cache[key]);
  }

  lemma HitKeeps(s: Sys, r: RequestId)
    requires Inv(s) && Enabled(s, Hit(r))
    ensures Inv(Next(s, Hit(r)))
  {
    var q := s.reqs[r];
    HitAnswers(s, q);
    RequestMoves(s, r, Answered(q.u, q.at, q.epoch, q.maxScope, s.cache[AuthzKey(q.u, q.epoch)]));
  }

  lemma ReadUserKeeps(s: Sys, r: RequestId)
    requires Inv(s) && Enabled(s, ReadUser(r))
    ensures Inv(Next(s, ReadUser(r)))
  {
    var q := s.reqs[r];
    assert RequestOk(s.log, q);
    ReadNow(s, q.u, q.at);
    RequestMoves(s, r, GotUser(q.u, q.at, q.epoch, q.maxScope, A.IsSiteAdmin(Now(s).users[q.u])));
  }

  lemma ReadOrgsKeeps(s: Sys, r: RequestId)
    requires Inv(s) && Enabled(s, ReadOrgs(r))
    ensures Inv(Next(s, ReadOrgs(r)))
  {
    var q := s.reqs[r];
    assert RequestOk(s.log, q);
    ReadNow(s, q.u, q.at);
    RequestMoves(s, r, GotOrgs(q.u, q.at, q.epoch, q.maxScope, q.siteAdmin, A.OrgRolesOf(Now(s), q.u)));
  }

  lemma FillKeeps(s: Sys, r: RequestId)
    requires Inv(s) && Enabled(s, ReadProjectsAndFill(r))
    ensures Inv(Next(s, ReadProjectsAndFill(r)))
  {
    var q := s.reqs[r];
    assert RequestOk(s.log, q);
    ReadNow(s, q.u, q.at);
    var authz := Authz(q.siteAdmin, q.orgs, A.ProjectRolesOf(Now(s), q.u));
    assert Since(s.log, q.u, q.at, authz);
    EntryFilled(s, AuthzKey(q.u, q.epoch), authz);
    RequestMoves(s.(cache := s.cache[AuthzKey(q.u, q.epoch) := authz]), r, Answered(q.u, q.at, q.epoch, q.maxScope, authz));
  }

  lemma StepKeeps(s: Sys, step: Step)
    requires Inv(s) && Enabled(s, step)
    ensures Inv(Next(s, step))
  {
    match step
    case Commit(change) => CommitKeeps(s, change);
    case Probe(r, u, maxScope) =>
      assert ProbedAt(s.log, u, |s.log| - 1, Now(s).users[u].epoch);
    case Hit(r) => HitKeeps(s, r);
    case ReadUser(r) => ReadUserKeeps(s, r);
    case ReadOrgs(r) => ReadOrgsKeeps(s, r);
    case ReadProjectsAndFill(r) => FillKeeps(s, r);
    case Drop(keys) =>
  }

  lemma {:induction false} RunKeeps(states: seq<Sys>, steps: seq<Step>, n: nat)
    requires IsRun(states, steps) && n < |states|
    ensures Inv(states[n])
  {
    if n > 0 {
      RunKeeps(states, steps, n - 1);
      StepKeeps(states[n - 1], steps[n - 1]);
    }
  }

  /**
   Whatever was cached, by whom and when: each part of the role set a request is answered
   with is what the tables said at the moment of that request's own probe or later.
   */
  lemma NeverOlderThanProbe(states: seq<Sys>, steps: seq<Step>, n: nat, r: RequestId)
    requires IsRun(states, steps) && n < |states| && r in states[n].reqs && states[n].reqs[r].Answered?
    ensures var q := states[n].reqs[r];
            q.at < |states[n].log| && Since(states[n].log, q.u, q.at, q.authz)
  {
    RunKeeps(states, steps, n);
    assert RequestOk(states[n].log, states[n].reqs[r]);
  }

  /** A role revoked before the probe, and not granted again since, is in no answer. */
  lemma RevokedIsGone(states: seq<Sys>, steps: seq<Step>, n: nat, r: RequestId, o: Org)
    requires IsRun(states, steps) && n < |states| && r in states[n].reqs && states[n].reqs[r].Answered?
    requires var s, q := states[n], states[n].reqs[r];
             forall x :: q.at <= x < |s.log| ==> o !in A.LoadAuthz(s.log[x], q.u).orgs
    ensures o !in states[n].reqs[r].authz.orgs
    ensures !TokenOf(states[n].reqs[r].u, states[n].reqs[r].authz, states[n].reqs[r].maxScope).CanViewOrg(o)
  {
    NeverOlderThanProbe(states, steps, n, r);
    var s, q := states[n], states[n].reqs[r];
    var x :| q.at <= x < |s.log| && A.LoadAuthz(s.log[x], q.u).orgs == q.authz.orgs;
  }

  /** While no transaction has committed since the probe, the answer is exactly the owner's authority, however old the entry. */
  lemma UndisturbedAnswerIsExact(states: seq<Sys>, steps: seq<Step>, n: nat, r: RequestId)
    requires IsRun(states, steps) && n < |states| && r in states[n].reqs && states[n].reqs[r].Answered?
    requires states[n].reqs[r].at == |states[n].log| - 1
    ensures states[n].reqs[r].authz == A.LoadAuthz(states[n].log[|states[n].log| - 1], states[n].reqs[r].u)
  {
    NeverOlderThanProbe(states, steps, n, r);
    var q := states[n].reqs[r];
    SinceLast(states[n].log, q.u, q.authz);
  }

  lemma SinceLast(log: seq<A.Tables>, u: User, authz: Authz)
    requires log != [] && Since(log, u, |log| - 1, authz)
    ensures authz == A.LoadAuthz(log[|log| - 1], u)
  {
  }

  /** What a request filled is what the next one of the same epoch is answered with, while nobody drops it. */
  lemma FillIsHit(s: Sys, r: RequestId, again: RequestId)
    requires s.log != [] && Enabled(s, ReadProjectsAndFill(r)) && again in s.reqs && s.reqs[again].Probed? && again != r
    requires s.reqs[again].u == s.reqs[r].u && s.reqs[again].epoch == s.reqs[r].epoch
    ensures var s' := Next(s, ReadProjectsAndFill(r));
            && s'.log == s.log && Enabled(s', Hit(again))
            && Next(s', Hit(again)).reqs[again].Answered? && s'.reqs[r].Answered?
            && Next(s', Hit(again)).reqs[again].authz == s'.reqs[r].authz
  {
  }

  /** The owner's row is still there for every read, so the negative answer is for deletions no transaction here makes. */
  lemma OwnerStays(states: seq<Sys>, steps: seq<Step>, n: nat, r: RequestId)
    requires IsRun(states, steps) && n < |states| && r in states[n].reqs
    ensures states[n].log != [] && states[n].reqs[r].u in Now(states[n]).users
  {
    RunKeeps(states, steps, n);
    var s, q := states[n], states[n].reqs[r];
    assert RequestOk(s.log, q);
    E.EpochDecidesAuthority(s.log, s.history, q.at, |s.log| - 1, q.u);
  }
}
