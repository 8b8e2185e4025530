/** The retention plan of a sweep: effective windows, the sstate rung, and each kind's stage ladder. */
module GcPlan {
  import opened Types

  datatype Kind = Sstate | Downloads | Hashserv | Bazel | Oci | Registry

  datatype Interval = Interval(microseconds: int, days: int, months: int)

  datatype Row = Row(id: int, kind: Kind, enabled: bool, retention: Option<Interval>, quota: Option<int>, project: nat)

  /** None is "retain forever"; durations are nanoseconds in an int64. */
  type Window = Option<int>

  datatype Namespace = Default | AC | AcGrpc | Sccache | CAS | Tags | Manifests | Blobs

  datatype Stage = Stage(namespace: Namespace, window: int)

  datatype Plan = Plan(id: int, kind: Kind, enabled: bool, window: Window, quota: nat, hashserv: int, stages: seq<Stage>)

  const MAX_INT64: int := 0x7fff_ffff_ffff_ffff
  const MICROSECOND: int := 1000
  const HOUR: int := 3_600_000_000_000
  const DISABLED_CEILING: int := 30 * 24 * HOUR
  const CAS_WINDOW_FACTOR: int := 2
  /** The largest window the API accepts: ten years. */
  const MAX_RETENTION: int := 10 * 365 * 24 * HOUR

  /** int64 arithmetic wraps. */
  function Wrap(n: int): int {
    (n + MAX_INT64 + 1) % (2 * MAX_INT64 + 2) - MAX_INT64 - 1
  }

  function DurationOf(v: Option<Interval>): Window {
    if v.None? then None
    else
      var i := v.value;
      var d := Wrap(Wrap(i.microseconds * MICROSECOND) + Wrap(i.days * 24 * HOUR) + Wrap(i.months * 30 * 24 * HOUR));
      if d <= 0 then None else Some(d)
  }

  function EffectiveWindow(r: Row): Window {
    var w := DurationOf(r.retention);
    if r.enabled then w
    else if w.None? then (if r.kind == Downloads then None else Some(DISABLED_CEILING))
    else Some(if w.value < DISABLED_CEILING then w.value else DISABLED_CEILING)
  }

  /** A disabled backend is swept harder: its window is at most the ceiling and at most its own, a forever archive excepted. */
  lemma DisabledIsClamped(r: Row)
    requires !r.enabled
    ensures EffectiveWindow(r).None? <==> r.kind == Downloads && DurationOf(r.retention).None?
    ensures EffectiveWindow(r).Some? ==> 0 < EffectiveWindow(r).value <= DISABLED_CEILING
    ensures EffectiveWindow(r).Some? ==> !Longer(EffectiveWindow(r), EffectiveWindow(r.(enabled := true)))
  {
  }

  predicate Longer(a: Window, b: Window) {
    b.Some? && (a.None? || a.value > b.value)
  }

  /** The greater of two windows; forever is the top. */
  function WindowMax(a: Window, b: Window): Window {
    if a.None? || b.None? then None else Some(if a.value >= b.value then a.value else b.value)
  }

  // ---- the stages ----------------------------------------------------------

  function Doubled(w: int): int {
    Wrap(w * CAS_WINDOW_FACTOR)
  }

  /** What the source stores for the window of a plan that has none. */
  function Nanos(w: Window): int {
    if w.Some? then w.value else 0
  }

  function StagesFor(kind: Kind, window: Window): seq<Stage> {
    var w := Nanos(window);
    match kind
    case Sstate => [Stage(Default, w)]
    case Downloads => [Stage(Default, w)]
    case Bazel => [Stage(AC, w), Stage(AcGrpc, w), Stage(Sccache, w), Stage(CAS, Doubled(w))]
    case Oci => [Stage(Tags, w), Stage(Manifests, Doubled(w)), Stage(Blobs, Doubled(w))]
    case Registry => [Stage(Tags, w), Stage(Manifests, Doubled(w)), Stage(Blobs, Doubled(w))]
    case Hashserv => []
  }

  ghost predicate NeverDecreases(stages: seq<Stage>) {
    forall i, j :: 0 <= i < j < |stages| ==> stages[i].window <= stages[j].window
  }

  predicate Doubles(kind: Kind) {
    kind == Bazel || kind == Oci || kind == Registry
  }

  lemma DoubledFits(w: int)
    requires 0 <= w <= MAX_INT64
    ensures w <= Doubled(w) <==> w <= MAX_INT64 / 2
    ensures w <= MAX_INT64 / 2 ==> Doubled(w) == 2 * w
  {
    if w <= MAX_INT64 / 2 {
      assert (2 * w + MAX_INT64 + 1) % (2 * MAX_INT64 + 2) == 2 * w + MAX_INT64 + 1;
    } else {
      assert (2 * w + MAX_INT64 + 1) % (2 * MAX_INT64 + 2) == 2 * w - MAX_INT64 - 1;
    }
  }

  /** The ladder never decreases along the stage order exactly when doubling does not overflow. */
  lemma LadderIff(kind: Kind, window: Window)
    requires 0 <= Nanos(window) <= MAX_INT64
    ensures NeverDecreases(StagesFor(kind, window)) <==> !Doubles(kind) || Nanos(window) <= MAX_INT64 / 2
  {
    var w, stages := Nanos(window), StagesFor(kind, window);
    DoubledFits(w);
    if kind == Bazel { assert stages[0].window == w && stages[3].window == Doubled(w); }
    if kind == Oci || kind == Registry { assert stages[0].window == w && stages[1].window == Doubled(w); }
  }

  /** An interval's length, with the days and months the plan gives it. */
  function Length(i: Interval): int {
    i.microseconds * MICROSECOND + i.days * 24 * HOUR + i.months * 30 * 24 * HOUR
  }

  /**
   What a retention may be: forever, or a positive length of at most ten years, whether it was
   typed through the API (microseconds alone) or seeded in days.
   */
  predicate Accepted(v: Option<Interval>) {
    v.Some? ==>
      v.value.microseconds >= 0 && v.value.days >= 0 && v.value.months >= 0 && 0 < Length(v.value) <= MAX_RETENTION
  }

  predicate Configurable(w: Window) {
    w.Some? ==> 0 < w.value <= MAX_RETENTION
  }

  /**
   The window a backend is swept with, in terms of its retention: an enabled one with the length
   that was configured, a disabled one with at most thirty days of it, and thirty days for
   forever, an archive of downloads excepted.
   */
  predicate SweptWith(r: Row, w: Window) {
    if r.retention.None? then
      w == if r.enabled || r.kind == Downloads then None else Some(2_592_000_000_000_000)
    else
      var n := Length(r.retention.value);
      w == Some(if r.enabled || n <= 2_592_000_000_000_000 then n else 2_592_000_000_000_000)
  }

  /** Such a retention reaches the plan at its own length, and disabling the backend keeps it in range. */
  lemma AcceptedWindow(r: Row)
    requires Accepted(r.retention)
    ensures DurationOf(r.retention) ==
            if r.retention.None? then None else Some(Length(r.retention.value))
    ensures SweptWith(r, EffectiveWindow(r)) && Configurable(EffectiveWindow(r))
  {
    if r.retention.Some? {
      var i := r.retention.value;
      WrapFits(i.microseconds * MICROSECOND);
      WrapFits(i.days * 24 * HOUR);
      WrapFits(i.months * 30 * 24 * HOUR);
      WrapFits(Length(i));
    }
  }

  lemma WrapFits(n: int)
    requires 0 <= n <= MAX_INT64
    ensures Wrap(n) == n
  {
    assert (n + MAX_INT64 + 1) % (2 * MAX_INT64 + 2) == n + MAX_INT64 + 1;
  }

  /** Every window the API lets anyone configure is far below that. */
  lemma ConfigurableLadder(kind: Kind, window: Window)
    requires Configurable(window)
    ensures NeverDecreases(StagesFor(kind, window))
  {
    LadderIff(kind, window);
  }

  /** The namespaces a kind of backend keeps objects in; a hashserv keeps none. */
  function Kept(kind: Kind): set<Namespace> {
    match kind
    case Sstate => {Default}
    case Downloads => {Default}
    case Bazel => {AC, AcGrpc, Sccache, CAS}
    case Oci => {Tags, Manifests, Blobs}
    case Registry => {Tags, Manifests, Blobs}
    case Hashserv => {}
  }

  /** Every namespace of the kind is swept once, what others name at twice the window and the rest at it. */
  lemma StagesComplete(kind: Kind, w: int)
    requires 0 <= w <= MAX_INT64 / 2
    ensures var stages := StagesFor(kind, Some(w));
            && |stages| == |Kept(kind)|
            && (forall n :: n in Kept(kind) <==> exists i :: 0 <= i < |stages| && stages[i].namespace == n)
            && forall i :: 0 <= i < |stages| ==>
                 stages[i].window == if stages[i].namespace in {CAS, Manifests, Blobs} then 2 * w else w
  {
    DoubledFits(w);
    var stages := StagesFor(kind, Some(w));
    match kind
    case Sstate => assert stages[0].namespace == Default;
    case Downloads => assert stages[0].namespace == Default;
    case Bazel => assert stages[0].namespace == AC && stages[1].namespace == AcGrpc && stages[2].namespace == Sccache && stages[3].namespace == CAS;
    case Hashserv =>
    case _ => assert stages[0].namespace == Tags && stages[1].namespace == Manifests && stages[2].namespace == Blobs;
  }

  /** What an object of one namespace may name in another of its backend. */
  predicate Names(a: Namespace, b: Namespace) {
    || ((a == AC || a == AcGrpc || a == Sccache) && b == CAS)
    || (a == Tags && b == Manifests)
    || (a == Manifests && b == Blobs)
  }

  /** The namer is swept before the named, and the named is kept at least as long. */
  lemma NamerGoesFirst(kind: Kind, window: Window, i: nat, j: nat)
    requires 0 <= Nanos(window) <= MAX_INT64 / 2
    requires i < |StagesFor(kind, window)| && j < |StagesFor(kind, window)|
    requires Names(StagesFor(kind, window)[i].namespace, StagesFor(kind, window)[j].namespace)
    ensures i < j && StagesFor(kind, window)[i].window <= StagesFor(kind, window)[j].window
  {
    LadderIff(kind, window);
    DoubledFits(Nanos(window));
  }

  // ---- the plans -----------------------------------------------------------

  /** Ids name rows, none is zero, and a project has at most one hashserv. */
  ghost predicate WellKeyed(rows: seq<Row>) {
    && (forall i, j :: 0 <= i < j < |rows| ==> rows[i].id != rows[j].id)
    && (forall i :: 0 <= i < |rows| ==> rows[i].id != 0)
    && (forall i, j :: 0 <= i < j < |rows| && rows[i].kind == Hashserv && rows[j].kind == Hashserv ==>
          rows[i].project != rows[j].project)
  }

  ghost predicate Pairs(rows: seq<Row>, r: Row, h: Row) {
    h in rows && h.kind == Hashserv && h.project == r.project
  }

  /** What the plan of `r` must be, said over the rows as a collection. */
  ghost predicate PlanOk(rows: seq<Row>, r: Row, p: Plan) {
    && p.id == r.id && p.kind == r.kind && p.enabled == r.enabled
    && p.quota == (if r.quota.Some? && r.quota.value > 0 then r.quota.value else 0)
    && (forall h :: Pairs(rows, r, h) ==>
          p.hashserv == h.id &&
          p.window == if r.kind == Sstate then WindowMax(EffectiveWindow(r), EffectiveWindow(h)) else EffectiveWindow(r))
    && ((forall h :: !Pairs(rows, r, h)) ==> p.hashserv == 0 && p.window == EffectiveWindow(r))
    && p.stages == StagesFor(p.kind, p.window)
  }

  /** Each project with a hashserv row is mapped to one of them. */
  ghost predicate Paired(rows: seq<Row>, byProject: map<nat, int>) {
    && (forall x :: x in byProject ==> exists h :: h in rows && h.kind == Hashserv && h.project == x && h.id == byProject[x])
    && (forall h :: h in rows && h.kind == Hashserv ==> h.project in byProject)
  }

  /** The last hashserv row of each project. */
  method PairHashservs(rows: seq<Row>) returns (byProject: map<nat, int>)
    ensures Paired(rows, byProject)
  {
    byProject := map[];
    for i := 0 to |rows|
      invariant forall x :: x in byProject ==>
                  exists j :: 0 <= j < i && rows[j].kind == Hashserv && rows[j].project == x && rows[j].id == byProject[x]
      invariant forall j :: 0 <= j < i && rows[j].kind == Hashserv ==> rows[j].project in byProject
    {
      if rows[i].kind == Hashserv {
        byProject := byProject[rows[i].project := rows[i].id];
      }
    }
  }

  ghost predicate WindowAmong(rows: seq<Row>, w: Window) {
    exists i :: 0 <= i < |rows| && EffectiveWindow(rows[i]) == w
  }

  ghost predicate AllAccepted(rows: seq<Row>) {
    forall i :: 0 <= i < |rows| ==> Accepted(rows[i].retention)
  }

  /** The base window of each backend, by id. */
  method Windows(rows: seq<Row>) returns (windows: map<int, Window>)
    ensures forall i :: 0 <= i < |rows| ==> rows[i].id in windows
    ensures WellKeyed(rows) ==> forall i :: 0 <= i < |rows| ==> windows[rows[i].id] == EffectiveWindow(rows[i])
    ensures forall x :: x in windows ==> WindowAmong(rows, windows[x])
  {
    windows := map[];
    for n := 0 to |rows|
      invariant forall x :: x in windows ==> WindowAmong(rows, windows[x])
      invariant forall i :: 0 <= i < n ==> rows[i].id in windows
      invariant WellKeyed(rows) ==> forall i :: 0 <= i < n ==> windows[rows[i].id] == EffectiveWindow(rows[i])
    {
      assert WindowAmong(rows, EffectiveWindow(rows[n]));
      windows := windows[rows[n].id := EffectiveWindow(rows[n])];
    }
  }

  lemma OneHashserv(rows: seq<Row>, g: Row, h: Row)
    requires WellKeyed(rows) && g in rows && h in rows && g.kind == Hashserv && h.kind == Hashserv && g.project == h.project
    ensures g == h
  {
    var i :| 0 <= i < |rows| && rows[i] == g;
    var j :| 0 <= j < |rows| && rows[j] == h;
  }

  /** What the two maps hold once the first two loops are done. */
  ghost predicate MapsOk(rows: seq<Row>, byProject: map<nat, int>, windows: map<int, Window>) {
    && Paired(rows, byProject)
    && (forall h :: h in rows ==> h.id in windows && windows[h.id] == EffectiveWindow(h))
  }

  /** The sstate rung: the base window against the paired one. */
  function Rung(window: Window, paired: Window): Window {
    if paired.None? then None
    else if window.Some? && paired.value > window.value then paired
    else window
  }

  /** The body of the last loop. */
  function PlanOf(r: Row, byProject: map<nat, int>, windows: map<int, Window>): Plan {
    var base := if r.id in windows then windows[r.id] else None;
    var hashserv := if r.project in byProject then byProject[r.project] else 0;
    var window := if r.kind == Sstate && hashserv != 0 && hashserv in windows then Rung(base, windows[hashserv]) else base;
    Plan(r.id, r.kind, r.enabled, window, if r.quota.Some? && r.quota.value > 0 then r.quota.value else 0, hashserv,
         StagesFor(r.kind, window))
  }

  lemma PairedPlan(rows: seq<Row>, r: Row, h: Row, byProject: map<nat, int>, windows: map<int, Window>)
    requires WellKeyed(rows) && MapsOk(rows, byProject, windows) && r in rows && Pairs(rows, r, h)
    ensures var p := PlanOf(r, byProject, windows);
            p.hashserv == h.id &&
            p.window == if r.kind == Sstate then WindowMax(EffectiveWindow(r), EffectiveWindow(h)) else EffectiveWindow(r)
  {
    var g :| g in rows && g.kind == Hashserv && g.project == r.project && g.id == byProject[r.project];
    OneHashserv(rows, g, h);
    var i :| 0 <= i < |rows| && rows[i] == h;
    assert rows[i].id != 0;
  }

  lemma PlanOfOk(rows: seq<Row>, r: Row, byProject: map<nat, int>, windows: map<int, Window>)
    requires WellKeyed(rows) && MapsOk(rows, byProject, windows) && r in rows
    ensures PlanOk(rows, r, PlanOf(r, byProject, windows))
  {
    forall h | Pairs(rows, r, h) { PairedPlan(rows, r, h, byProject, windows); }
    if forall h :: !Pairs(rows, r, h) {
      if r.project in byProject {
        var h :| h in rows && h.kind == Hashserv && h.project == r.project && h.id == byProject[r.project];
        assert Pairs(rows, r, h);
      }
    }
  }

  lemma MapsAreOk(rows: seq<Row>, byProject: map<nat, int>, windows: map<int, Window>)
    requires Paired(rows, byProject)
    requires forall i :: 0 <= i < |rows| ==> rows[i].id in windows && windows[rows[i].id] == EffectiveWindow(rows[i])
    ensures MapsOk(rows, byProject, windows)
  {
  }

  /** The sstate rung keeps a plan's window among those of the rows, or makes it forever. */
  lemma PlannedLadder(rows: seq<Row>, r: Row, byProject: map<nat, int>, windows: map<int, Window>)
    requires AllAccepted(rows)
    requires forall x :: x in windows ==> WindowAmong(rows, windows[x])
    ensures NeverDecreases(PlanOf(r, byProject, windows).stages)
  {
    forall x | x in windows ensures Configurable(windows[x]) {
      var i :| 0 <= i < |rows| && EffectiveWindow(rows[i]) == windows[x];
      AcceptedWindow(rows[i]);
    }
    ConfigurableLadder(r.kind, PlanOf(r, byProject, windows).window);
  }

  /** The last loop, on the maps the first two left. */
  method PlanAll(rows: seq<Row>, byProject: map<nat, int>, windows: map<int, Window>) returns (plans: seq<Plan>)
    ensures |plans| == |rows|
    ensures forall i :: 0 <= i < |rows| ==> plans[i] == PlanOf(rows[i], byProject, windows)
  {
    plans := [];
    for n := 0 to |rows|
      invariant |plans| == n
      invariant forall i :: 0 <= i < n ==> plans[i] == PlanOf(rows[i], byProject, windows)
    {
      plans := plans + [PlanOf(rows[n], byProject, windows)];
    }
  }

  /**
   The window of a row's plan, by the retentions: its own, but for an sstate backend the longer
   of its own and its project's hashserv's, forever being the longest.
   */
  ghost predicate WindowByRetention(rows: seq<Row>, r: Row, w: Window) {
    exists own :: SweptWith(r, own) &&
      if r.kind == Sstate && exists h :: Pairs(rows, r, h) then
        exists h, paired :: Pairs(rows, r, h) && SweptWith(h, paired) &&
          if own.None? || paired.None? then w.None?
          else w.Some? && w.value >= own.value && w.value >= paired.value && (w == own || w == paired)
      else w == own
  }

  lemma WindowIsByRetention(rows: seq<Row>, r: Row, p: Plan)
    requires WellKeyed(rows) && AllAccepted(rows) && r in rows && PlanOk(rows, r, p)
    ensures WindowByRetention(rows, r, p.window)
  {
    AcceptedRow(rows, r);
    if h :| Pairs(rows, r, h) {
      AcceptedRow(rows, h);
      assert SweptWith(r, EffectiveWindow(r)) && SweptWith(h, EffectiveWindow(h));
    }
  }

  lemma AcceptedRow(rows: seq<Row>, r: Row)
    requires AllAccepted(rows) && r in rows
    ensures SweptWith(r, EffectiveWindow(r))
  {
    var i :| 0 <= i < |rows| && rows[i] == r;
    AcceptedWindow(r);
  }

  /** buildPlans: one plan per row, in row order. */
  method BuildPlans(rows: seq<Row>) returns (plans: seq<Plan>)
    ensures |plans| == |rows|
    ensures forall i :: 0 <= i < |rows| ==> plans[i].id == rows[i].id && plans[i].stages == StagesFor(plans[i].kind, plans[i].window)
    ensures WellKeyed(rows) ==> forall i :: 0 <= i < |rows| ==> PlanOk(rows, rows[i], plans[i])
    ensures WellKeyed(rows) && AllAccepted(rows) ==>
              forall i :: 0 <= i < |rows| ==> WindowByRetention(rows, rows[i], plans[i].window)
    ensures AllAccepted(rows) ==> forall i :: 0 <= i < |rows| ==> NeverDecreases(plans[i].stages)
  {
    var byProject := PairHashservs(rows);
    var windows := Windows(rows);
    plans := PlanAll(rows, byProject, windows);
    if WellKeyed(rows) {
      PlansOk(rows, byProject, windows, plans);
      if AllAccepted(rows) {
        forall i | 0 <= i < |rows| { WindowIsByRetention(rows, rows[i], plans[i]); }
      }
    }
    if AllAccepted(rows) {
      forall i | 0 <= i < |rows| { PlannedLadder(rows, rows[i], byProject, windows); }
    }
  }

  lemma PlansOk(rows: seq<Row>, byProject: map<nat, int>, windows: map<int, Window>, plans: seq<Plan>)
    requires WellKeyed(rows) && Paired(rows, byProject)
    requires forall i :: 0 <= i < |rows| ==> rows[i].id in windows && windows[rows[i].id] == EffectiveWindow(rows[i])
    requires |plans| == |rows| && forall i :: 0 <= i < |rows| ==> plans[i] == PlanOf(rows[i], byProject, windows)
    ensures forall i :: 0 <= i < |rows| ==> PlanOk(rows, rows[i], plans[i])
  {
    MapsAreOk(rows, byProject, windows);
    forall i | 0 <= i < |rows| ensures PlanOk(rows, rows[i], plans[i]) { PlanOfOk(rows, rows[i], byProject, windows); }
  }

  /** The order the rows come in does not matter: the same rows give each backend the same plan. */
  lemma PlansIgnoreOrder(rows: seq<Row>, again: seq<Row>, r: Row, p: Plan, q: Plan)
    requires forall h :: h in rows <==> h in again
    requires PlanOk(rows, r, p) && PlanOk(again, r, q)
    ensures p == q
  {
    if h :| Pairs(rows, r, h) {
      assert Pairs(again, r, h);
    } else {
      assert forall h :: !Pairs(again, r, h) by {
        forall h ensures !Pairs(again, r, h) { assert !Pairs(rows, r, h); }
      }
    }
  }

  /** An sstate object never outlives its welcome sooner than the hashserv row that may still name it. */
  lemma SstateOutlivesHashserv(rows: seq<Row>, r: Row, h: Row, p: Plan)
    requires PlanOk(rows, r, p) && r.kind == Sstate && Pairs(rows, r, h)
    ensures !Longer(EffectiveWindow(h), p.window) && !Longer(EffectiveWindow(r), p.window)
    ensures p.window == EffectiveWindow(h) || p.window == EffectiveWindow(r)
  {
  }
}
